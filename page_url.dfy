/** Classification of a Kick page path as a live channel or a recorded
    video (VOD), as `get_video_stream_url` decides it before dispatching. */
module PageUrl {
  import opened Text

  /** Where a page path leads: the live resolver for a channel, or the VOD
      resolver for a channel and a video slug. */
  datatype Route = Live(channel: string) | Vod(channel: string, slug: string)

  /** The two path markers of a recorded video: `/<channel>/video/<slug>`
      and `/<channel>/videos/<slug>`. */
  predicate IsVodMarker(segment: string)
  {
    segment == "video" || segment == "videos"
  }

  /** `path.strip('/').split('/')`. Never empty, so the source's
      `if not path_parts` guard cannot fire: an empty path gives `[""]`. */
  function PathParts(path: string): (parts: seq<string>)
    ensures |parts| >= 1
    ensures forall i :: 0 <= i < |parts| ==> '/' !in parts[i]
  {
    Split(Strip(path, '/'), '/')
  }

  /** The route of a page path. Segment 0 is always the channel; the page is
      a VOD exactly when there are at least three segments, segment 1 is a
      VOD marker and segment 2 (the slug) is non-empty. A marker followed by
      an empty slug falls back to the live resolver. */
  function Classify(path: string): (r: Route)
    ensures r.channel == PathParts(path)[0]
    ensures r.Vod? ==> r.slug != "" && '/' !in r.slug && '/' !in r.channel
  {
    var parts := PathParts(path);
    var isVod := |parts| >= 3 && IsVodMarker(parts[1]);
    if isVod && parts[2] != "" then Vod(parts[0], parts[2]) else Live(parts[0])
  }

  /** Path parsing inverts path building: segments without `/`, joined by
      `/` and wrapped in any number of leading and trailing slashes, are
      read back as the same segments, provided the outer segments are
      non-empty (an empty one would be eaten by the strip). */
  lemma PathPartsOfJoin(segments: seq<string>, lead: string, trail: string)
    requires |segments| >= 1 && segments[0] != [] && segments[|segments| - 1] != []
    requires forall i :: 0 <= i < |segments| ==> '/' !in segments[i]
    requires forall k :: 0 <= k < |lead| ==> lead[k] == '/'
    requires forall k :: 0 <= k < |trail| ==> trail[k] == '/'
    ensures PathParts(lead + Join(segments, '/') + trail) == segments
  {
    var core := Join(segments, '/');
    JoinStart(segments, '/');
    JoinEnd(segments, '/');
    assert '/' !in segments[0];
    assert '/' !in segments[|segments| - 1];
    StripFrame(lead, core, trail, '/');
    SplitJoin(segments, '/');
  }

  /** The routing rule stated on the segments a path is built from. */
  lemma ClassifyJoin(segments: seq<string>, lead: string, trail: string)
    requires |segments| >= 1 && segments[0] != [] && segments[|segments| - 1] != []
    requires forall i :: 0 <= i < |segments| ==> '/' !in segments[i]
    requires forall k :: 0 <= k < |lead| ==> lead[k] == '/'
    requires forall k :: 0 <= k < |trail| ==> trail[k] == '/'
    ensures Classify(lead + Join(segments, '/') + trail) ==
      if |segments| >= 3 && IsVodMarker(segments[1]) && segments[2] != ""
      then Vod(segments[0], segments[2])
      else Live(segments[0])
  {
    PathPartsOfJoin(segments, lead, trail);
  }

  /** `/<channel>/video/<slug>` and `/<channel>/videos/<slug>` are VODs. */
  lemma {:induction false} VodPathIsVod(channel: string, marker: string, slug: string)
    requires channel != "" && slug != "" && '/' !in channel && '/' !in slug
    requires IsVodMarker(marker)
    ensures Classify("/" + channel + "/" + marker + "/" + slug) == Vod(channel, slug)
  {
    var segments := [channel, marker, slug];
    assert Join(segments, '/') == channel + "/" + marker + "/" + slug by {
      assert segments[1..] == [marker, slug];
      assert [marker, slug][1..] == [slug];
      assert Join([slug], '/') == slug;
      assert Join([marker, slug], '/') == marker + "/" + slug;
      assert Join(segments, '/') == channel + "/" + (marker + "/" + slug);
    }
    assert "/" + channel + "/" + marker + "/" + slug == "/" + Join(segments, '/') + "";
    ClassifyJoin(segments, "/", "");
  }

  /** `/<channel>` and `/<channel>/` are live pages of that channel. */
  lemma {:induction false} ChannelPathIsLive(channel: string, trail: string)
    requires channel != "" && '/' !in channel
    requires forall k :: 0 <= k < |trail| ==> trail[k] == '/'
    ensures Classify("/" + channel + trail) == Live(channel)
  {
    assert Join([channel], '/') == channel;
    ClassifyJoin([channel], "/", trail);
  }

  /** An empty path (`https://kick.com/`) is not rejected: it is routed to
      the live resolver with an empty channel name. */
  lemma EmptyPathIsLiveWithEmptyChannel(path: string)
    requires forall k :: 0 <= k < |path| ==> path[k] == '/'
    ensures Classify(path) == Live("")
  {
    TrimStartRun(path, "", '/');
    assert path + "" == path;
  }
}
