/** `get_vod_stream_url`: the playlist address of a recorded video. The
    video is looked up in the channel's video list; its thumbnail address
    carries the internal channel and video ids, its start time the date, and
    the address is found by probing 11 minute offsets times 3 base addresses
    until one answers 200. Every exception inside it is caught and turned
    into `None`. */
module Vod {
  import opened Common
  import opened JsonValues
  import opened Text
  import opened Calendar
  import opened Http

  /** The three stream hosts, in the order they are tried (lines 213-217). */
  const BaseUrls: seq<string> := [
    "https://stream.kick.com/ivs/v1/196233775518",
    "https://stream.kick.com/3c81249a5ce0/ivs/v1/196233775518",
    "https://stream.kick.com/0f3cb0ebce7/ivs/v1/196233775518"
  ]

  /** `range(-5, 6)`: offsets -5 to +5 minutes. */
  const FirstOffset: int := -5
  const OffsetCount: nat := 11

  /** The `videos` list of a reply from the videos endpoint, or `None`
      where lines 163-174 give up or raise: a transport error, a status
      other than 200, a body that is not JSON or has no `data` dict. A
      `videos` value that is not a list never yields a video either:
      iterating `None`, a number or a bool raises TypeError, and iterating a
      string or a dict yields strings, on which `.get` raises (or nothing,
      when it is empty). */
  function VideoList(reply: Reply): (videos: Option<seq<Json>>)
    ensures videos.Some? <==>
      IsOk(reply) && reply.body.Some? && reply.body.value.Obj? && "data" in reply.body.value.fields
      && reply.body.value.fields["data"].Obj?
      && ("videos" in reply.body.value.fields["data"].fields ==>
            reply.body.value.fields["data"].fields["videos"].Arr?)
    ensures videos.Some? ==>
      var data := reply.body.value.fields["data"].fields;
      if "videos" in data then data["videos"] == Arr(videos.value) else videos.value == []
  {
    if !IsOk(reply) then None
    else match JsonBody(reply)
      case None => None
      case Some(body) =>
        match DataMember(body)
        case None => None
        case Some(inner) =>
          if !inner.Obj? then None
          else match Lookup(inner.fields, "videos", Arr([]))
            case Arr(items) => Some(items)
            case _ => None
  }

  /** `v.get('uuid') == video_slug` for a dict `v`. */
  predicate IsVideo(v: Json, slug: string)
  {
    v.Obj? && Lookup(v.fields, "uuid", Null) == Str(slug)
  }

  /** The loop at lines 174-177 stops at the first entry that is either the
      video or not a dict (`.get` raises AttributeError there). */
  predicate StopsLookup(slug: string, v: Json)
  {
    !v.Obj? || IsVideo(v, slug)
  }

  /** The video the lookup finds: the first entry whose `uuid` is the slug,
      provided every entry before it is a dict. */
  function VideoLookup(videos: seq<Json>, slug: string): (video: Option<map<string, Json>>)
    ensures video.Some? ==>
      exists i :: 0 <= i < |videos| && videos[i] == Obj(video.value) && IsVideo(videos[i], slug)
        && forall k :: 0 <= k < i ==> videos[k].Obj? && !IsVideo(videos[k], slug)
    ensures video.None? ==> forall i :: 0 <= i < |videos| && IsVideo(videos[i], slug) ==>
      exists k :: 0 <= k < i && !videos[k].Obj?
  {
    match FirstIndex(videos, v => StopsLookup(slug, v))
    case None => None
    case Some(i) => if videos[i].Obj? then Some(videos[i].fields) else None
  }

  /** Lines 173-181: the `for v in videos` loop with its `break`. */
  method FindVideo(videos: seq<Json>, slug: string) returns (video: Option<map<string, Json>>)
    ensures video == VideoLookup(videos, slug)
    ensures video.Some? ==> "uuid" in video.value && video.value["uuid"] == Str(slug)
  {
    var i := 0;
    while i < |videos|
      invariant 0 <= i <= |videos|
      invariant forall k :: 0 <= k < i ==> !StopsLookup(slug, videos[k])
    {
      var v := videos[i];
      if !v.Obj? {
        // `v.get` raises AttributeError; the handler at lines 249-251 answers None.
        FirstIndexIs(videos, u => StopsLookup(slug, u), i);
        return None;
      }
      if Lookup(v.fields, "uuid", Null) == Str(slug) {
        FirstIndexIs(videos, u => StopsLookup(slug, u), i);
        return Some(v.fields);
      }
      i := i + 1;
    }
    return None;
  }

  /** `video.get('thumbnail', {}).get('src', '')`, `None` when the
      thumbnail is present but not a dict (`.get` raises). */
  function ThumbnailSrc(video: map<string, Json>): (src: Json)
    ensures "thumbnail" !in video ==> src == Str("")
    ensures "thumbnail" in video && !video["thumbnail"].Obj? ==> src == Null
    ensures "thumbnail" in video && video["thumbnail"].Obj? ==>
      src == (if "src" in video["thumbnail"].fields then video["thumbnail"].fields["src"] else Str(""))
  {
    var thumbnail := Lookup(video, "thumbnail", Obj(map[]));
    if thumbnail.Obj? then Lookup(thumbnail.fields, "src", Str("")) else Null
  }

  /** Lines 186-198: the internal channel id and video id are pieces 4 and 5
      of the thumbnail address split on `/`. An empty or missing address, one
      that is not a string (`.split` raises), or one with fewer than six
      pieces gives `None`. */
  function ThumbnailIds(video: map<string, Json>): (ids: Option<(string, string)>)
    ensures ids.Some? <==> ThumbnailSrc(video).Str? && |Split(ThumbnailSrc(video).s, '/')| >= 6
    ensures ids.Some? ==>
      var parts := Split(ThumbnailSrc(video).s, '/');
      ids.value == (parts[4], parts[5])
    ensures ids.Some? ==> '/' !in ids.value.0 && '/' !in ids.value.1
  {
    var src := ThumbnailSrc(video);
    if !Truthy(src) then None
    else if !src.Str? then None
    else
      var parts := Split(src.s, '/');
      if |parts| < 6 then None else Some((parts[4], parts[5]))
  }

  /** The ids are read back from a thumbnail address built from pieces
      without `/`: whatever the first four pieces and the tail, pieces 4 and
      5 are the channel id and the video id. */
  lemma ThumbnailIdsOfJoin(video: map<string, Json>, pieces: seq<string>)
    requires |pieces| >= 6
    requires forall i :: 0 <= i < |pieces| ==> '/' !in pieces[i]
    requires ThumbnailSrc(video) == Str(Join(pieces, '/'))
    ensures ThumbnailIds(video) == Some((pieces[4], pieces[5]))
  {
    SplitJoin(pieces, '/');
    assert Join(pieces, '/') == pieces[0] + "/" + Join(pieces[1..], '/');
  }

  /** Lines 203-209: the start time, parsed by `parse` (standing for
      `datetime.fromisoformat(start_time.replace('Z', '+00:00'))`, `None`
      when it raises ValueError). A missing or falsy start time gives
      `None`, and so does one that is not a string (`.replace` raises). */
  function StartTime(video: map<string, Json>, parse: string -> Option<DateTime>): (start: Option<DateTime>)
    ensures start.Some? ==>
      "start_time" in video && video["start_time"].Str? && video["start_time"].s != ""
      && start == parse(video["start_time"].s)
    ensures "start_time" in video && video["start_time"].Str? && video["start_time"].s != "" ==>
      start == parse(video["start_time"].s)
  {
    var startTime := Lookup(video, "start_time", Null);
    if !Truthy(startTime) then None
    else if !startTime.Str? then None
    else parse(startTime.s)
  }

  /** The last pieces of a candidate address: `master.m3u8` for `auto`,
      otherwise `{quality}/playlist.m3u8`. */
  function PlaylistPieces(quality: string): seq<string>
  {
    if quality == "auto" then ["master.m3u8"] else [quality, "playlist.m3u8"]
  }

  /** The pieces after the base address:
      `{channel_id}/{y}/{m}/{d}/{h}/{min}/{video_id}/media/hls/...`, calendar
      fields written by `str` (no zero padding). */
  function CandidateTail(channelId: string, t: DateTime, videoId: string, quality: string): seq<string>
  {
    [channelId, Decimal(t.year), Decimal(t.month), Decimal(t.day), Decimal(t.hour), Decimal(t.minute),
     videoId, "media", "hls"] + PlaylistPieces(quality)
  }

  /** The f-strings at lines 230 and 232. */
  function CandidateUrl(base: string, channelId: string, t: DateTime, videoId: string, quality: string): string
  {
    base + "/" + Join(CandidateTail(channelId, t, videoId, quality), '/')
  }

  /** A candidate address reads back as the base address's pieces followed
      by the ids, the five unpadded calendar fields and the playlist path,
      provided the ids and the quality contain no `/`. */
  lemma CandidateUrlPieces(base: string, channelId: string, t: DateTime, videoId: string, quality: string)
    requires '/' !in channelId && '/' !in videoId && '/' !in quality
    ensures Split(CandidateUrl(base, channelId, t, videoId, quality), '/') ==
      Split(base, '/') + CandidateTail(channelId, t, videoId, quality)
  {
    var tail := CandidateTail(channelId, t, videoId, quality);
    DecimalHasNoSlash(t.year);
    DecimalHasNoSlash(t.month);
    DecimalHasNoSlash(t.day);
    DecimalHasNoSlash(t.hour);
    DecimalHasNoSlash(t.minute);
    assert forall i :: 0 <= i < |tail| ==> '/' !in tail[i];
    SplitJoin(tail, '/');
    SplitAround(base, Join(tail, '/'), '/');
  }

  /** The date probed at offset index `i` (minute offset `-5 + i`), `None`
      where `start + timedelta` overflows. */
  function Adjusted(start: DateTime, i: nat): Option<DateTime>
  {
    AddMinutes(start, FirstOffset + i)
  }

  /** The dates of offset indices `i`, `i + 1`, ... up to the end of the
      range or the first overflow. */
  function AdjustedFrom(start: DateTime, i: nat): (times: seq<DateTime>)
    requires i <= OffsetCount
    ensures i + |times| <= OffsetCount
    ensures forall j :: 0 <= j < |times| ==> Adjusted(start, i + j) == Some(times[j])
    ensures i + |times| < OffsetCount ==> Adjusted(start, i + |times|).None?
    decreases OffsetCount - i
  {
    if i == OffsetCount then []
    else match Adjusted(start, i)
      case None => []
      case Some(t) => [t] + AdjustedFrom(start, i + 1)
  }

  /** The dates the outer loop probes, in order: every offset before the
      first overflow. */
  function AdjustedTimes(start: DateTime): (times: seq<DateTime>)
    ensures |times| <= OffsetCount
    ensures forall j :: 0 <= j < |times| ==> Adjusted(start, j) == Some(times[j])
    ensures |times| < OffsetCount ==> Adjusted(start, |times|).None?
  {
    AdjustedFrom(start, 0)
  }

  /** Offset index `i` of the loop overflows exactly when the probed dates
      end there, and gives the `i`-th probed date otherwise. */
  lemma AdjustedAt(start: DateTime, i: nat)
    requires i < OffsetCount && i <= |AdjustedTimes(start)|
    ensures Adjusted(start, i).None? ==> i == |AdjustedTimes(start)|
    ensures Adjusted(start, i).Some? ==> i < |AdjustedTimes(start)| && Adjusted(start, i).value == AdjustedTimes(start)[i]
  {
  }

  /** The three candidates of one date, in the declared base order. */
  function OffsetCandidates(t: DateTime, channelId: string, videoId: string, quality: string): (urls: seq<string>)
    ensures |urls| == |BaseUrls|
  {
    seq(|BaseUrls|, j requires 0 <= j < |BaseUrls| => CandidateUrl(BaseUrls[j], channelId, t, videoId, quality))
  }

  /** The candidates of a sequence of dates, date-major. */
  function CandidatesOf(times: seq<DateTime>, channelId: string, videoId: string, quality: string): (urls: seq<string>)
    ensures |urls| == 3 * |times|
  {
    if times == [] then []
    else
      CandidatesOf(times[..|times| - 1], channelId, videoId, quality)
      + OffsetCandidates(times[|times| - 1], channelId, videoId, quality)
  }

  /** The candidate addresses in probing order: every offset that does not
      overflow, from -5 up, each with the three bases in declared order. */
  function Candidates(start: DateTime, channelId: string, videoId: string, quality: string): (urls: seq<string>)
    ensures |urls| == 3 * |AdjustedTimes(start)|
  {
    CandidatesOf(AdjustedTimes(start), channelId, videoId, quality)
  }

  /** The candidates of date `i` are the block at positions `3 * i` to
      `3 * i + 2`. */
  lemma {:induction false} CandidatesOfBlock(times: seq<DateTime>, channelId: string, videoId: string, quality: string, i: nat)
    requires i < |times|
    ensures CandidatesOf(times, channelId, videoId, quality)[3 * i..3 * i + 3] ==
      OffsetCandidates(times[i], channelId, videoId, quality)
  {
    var init := times[..|times| - 1];
    var prefix := CandidatesOf(init, channelId, videoId, quality);
    var last := OffsetCandidates(times[|times| - 1], channelId, videoId, quality);
    assert CandidatesOf(times, channelId, videoId, quality) == prefix + last;
    if i < |times| - 1 {
      CandidatesOfBlock(init, channelId, videoId, quality, i);
      assert init[i] == times[i];
      SliceOfAppend(prefix, last, 3 * i, 3 * i + 3);
    } else {
      SliceOfAppend(prefix, last, 0, 0);
    }
  }

  /** Candidate `3 * i + j` of a list of dates is base address `j` at
      date `i`. */
  lemma CandidatesOfAt(times: seq<DateTime>, channelId: string, videoId: string, quality: string, i: nat, j: nat)
    requires i < |times| && j < |BaseUrls|
    ensures 3 * i + j < |CandidatesOf(times, channelId, videoId, quality)|
    ensures CandidatesOf(times, channelId, videoId, quality)[3 * i + j] ==
      CandidateUrl(BaseUrls[j], channelId, times[i], videoId, quality)
  {
    var urls := CandidatesOf(times, channelId, videoId, quality);
    CandidatesOfBlock(times, channelId, videoId, quality, i);
    assert urls[3 * i + j] == urls[3 * i..3 * i + 3][j];
  }

  /** First success wins: when the probes of every candidate before base `j`
      at date `i` fail and that one answers 200, the search returns exactly
      that address, whatever the later probes would answer. */
  lemma FirstSuccessWins(head: string -> Reply, times: seq<DateTime>, channelId: string, videoId: string, quality: string,
                         i: nat, j: nat)
    requires i < |times| && j < |BaseUrls|
    requires forall n :: 0 <= n < 3 * i + j ==> !Accepted(head, CandidatesOf(times, channelId, videoId, quality)[n])
    requires Accepted(head, CandidateUrl(BaseUrls[j], channelId, times[i], videoId, quality))
    ensures FirstAccepted(head, CandidatesOf(times, channelId, videoId, quality)) ==
      Some(CandidateUrl(BaseUrls[j], channelId, times[i], videoId, quality))
  {
    CandidatesOfAt(times, channelId, videoId, quality, i, j);
    AcceptedAfterRejected(head, CandidatesOf(times, channelId, videoId, quality), 3 * i + j);
  }

  /** The probing order: candidate `3 * i + j` is base address `j` at
      minute offset `-5 + i`, for every offset before the first overflow. */
  lemma CandidateAt(start: DateTime, channelId: string, videoId: string, quality: string, i: nat, j: nat)
    requires i < |AdjustedTimes(start)| && j < |BaseUrls|
    ensures Adjusted(start, i) == Some(AdjustedTimes(start)[i])
    ensures 3 * i + j < |Candidates(start, channelId, videoId, quality)|
    ensures Candidates(start, channelId, videoId, quality)[3 * i + j] ==
      CandidateUrl(BaseUrls[j], channelId, AdjustedTimes(start)[i], videoId, quality)
  {
    CandidatesOfAt(AdjustedTimes(start), channelId, videoId, quality, i, j);
  }

  /** A start time at least five years inside the calendar is never
      near an overflow: all 11 offsets are probed, 33 candidates in all. */
  lemma AllCandidatesProbed(start: DateTime, channelId: string, videoId: string, quality: string)
    requires Valid(start) && MinYear + 5 <= start.year <= MaxYear - 5
    ensures |AdjustedTimes(start)| == OffsetCount
    ensures |Candidates(start, channelId, videoId, quality)| == 33
  {
    var n := |AdjustedTimes(start)|;
    if n < OffsetCount {
      AddMinutesValid(start, FirstOffset + n);
    }
  }

  predicate Accepted(head: string -> Reply, url: string)
  {
    IsOk(head(url))
  }

  /** The first candidate whose probe answers 200; probes that raise or
      answer another status are passed over. */
  function FirstAccepted(head: string -> Reply, urls: seq<string>): (url: Option<string>)
    ensures url.Some? ==>
      exists n :: 0 <= n < |urls| && urls[n] == url.value && Accepted(head, urls[n])
        && forall m :: 0 <= m < n ==> !Accepted(head, urls[m])
    ensures url.None? <==> forall n :: 0 <= n < |urls| ==> !Accepted(head, urls[n])
  {
    match FirstIndex(urls, u => Accepted(head, u))
    case None => None
    case Some(n) => Some(urls[n])
  }

  /** How many HEAD probes the search sends over `urls`: every candidate up
      to and including the first accepted one, or all of them when none is
      accepted (line 241 returns at the first 200). */
  function ProbeCount(head: string -> Reply, urls: seq<string>): (n: nat)
    ensures n <= |urls|
    ensures forall m :: 0 <= m < n - 1 ==> !Accepted(head, urls[m])
    ensures FirstAccepted(head, urls).Some? <==> 0 < n && Accepted(head, urls[n - 1])
    ensures FirstAccepted(head, urls).Some? ==> FirstAccepted(head, urls).value == urls[n - 1]
    ensures FirstAccepted(head, urls).None? ==> n == |urls|
  {
    match FirstIndex(urls, u => Accepted(head, u))
    case None => |urls|
    case Some(k) =>
      AcceptedAfterRejected(head, urls, k);
      k + 1
  }

  /** Every one of the first `m` addresses was probed without a 200. */
  predicate RejectedBefore(head: string -> Reply, urls: seq<string>, m: nat)
  {
    m <= |urls| && forall n :: 0 <= n < m ==> !Accepted(head, urls[n])
  }

  /** When every address was rejected, none is accepted. */
  lemma NoneAccepted(head: string -> Reply, urls: seq<string>)
    requires RejectedBefore(head, urls, |urls|)
    ensures FirstAccepted(head, urls) == None
    ensures ProbeCount(head, urls) == |urls|
  {
  }

  /** An accepted probe after a rejected prefix is the first accepted one. */
  lemma AcceptedAfterRejected(head: string -> Reply, urls: seq<string>, m: nat)
    requires RejectedBefore(head, urls, m) && m < |urls| && Accepted(head, urls[m])
    ensures FirstAccepted(head, urls) == Some(urls[m])
  {
    FirstIndexIs(urls, u => Accepted(head, u), m);
  }

  /** ... and the search sends exactly `m + 1` probes. */
  lemma ProbesAfterRejected(head: string -> Reply, urls: seq<string>, m: nat)
    requires RejectedBefore(head, urls, m) && m < |urls| && Accepted(head, urls[m])
    ensures ProbeCount(head, urls) == m + 1
  {
    AcceptedAfterRejected(head, urls, m);
  }

  /** One probe after a rejected, fully probed prefix `urls[..m]`: it
      extends the probes sent by `urls[m]`, and either decides the search
      or extends the rejected prefix. */
  lemma ProbeOne(head: string -> Reply, urls: seq<string>, m: nat, probed: seq<string>)
    requires RejectedBefore(head, urls, m) && m < |urls| && probed == urls[..m]
    ensures probed + [urls[m]] == urls[..m + 1]
    ensures Accepted(head, urls[m]) ==>
      FirstAccepted(head, urls) == Some(urls[m]) && ProbeCount(head, urls) == m + 1
    ensures !Accepted(head, urls[m]) ==> RejectedBefore(head, urls, m + 1)
  {
    if Accepted(head, urls[m]) {
      ProbesAfterRejected(head, urls, m);
    }
  }

  /** A block of addresses found right after a rejected prefix decides the
      first accepted address when it holds one, and otherwise extends the
      rejected prefix by its length. */
  lemma FirstAcceptedOfBlock(head: string -> Reply, urls: seq<string>, m: nat, block: seq<string>)
    requires RejectedBefore(head, urls, m) && m + |block| <= |urls|
    requires urls[m..m + |block|] == block
    ensures FirstAccepted(head, block).Some? ==> FirstAccepted(head, urls) == FirstAccepted(head, block)
    ensures FirstAccepted(head, block).None? ==> RejectedBefore(head, urls, m + |block|)
    ensures FirstAccepted(head, block).Some? ==>
      urls[..m] + block[..ProbeCount(head, block)] == urls[..ProbeCount(head, urls)]
    ensures FirstAccepted(head, block).None? ==>
      urls[..m] + block[..ProbeCount(head, block)] == urls[..m + |block|]
  {
    var c := ProbeCount(head, block);
    assert urls[..m] + block[..c] == urls[..m + c] by {
      forall n | 0 <= n < m + c ensures (urls[..m] + block[..c])[n] == urls[n] {
        if n >= m {
          assert urls[n] == urls[m..m + |block|][n - m];
        }
      }
    }
    match FirstIndex(block, u => Accepted(head, u))
    case Some(k) =>
      forall n | 0 <= n < m + k ensures !Accepted(head, urls[n]) {
        if n >= m {
          assert urls[n] == block[n - m];
        }
      }
      AcceptedAfterRejected(head, urls, m + k);
      ProbesAfterRejected(head, urls, m + k);
      assert urls[m + k] == block[k];
    case None =>
      forall n | 0 <= n < m + |block| ensures !Accepted(head, urls[n]) {
        if n >= m {
          assert urls[n] == block[n - m];
        }
      }
  }

  /** One block of probes after a rejected, fully probed prefix `urls[..m]`:
      when the block finds an address it is the overall result and the probes
      sent so far are those of the whole search; otherwise the rejected and
      probed prefix grows by the block. */
  lemma BlockStep(head: string -> Reply, urls: seq<string>, m: nat, block: seq<string>,
                  url: Option<string>, probed: seq<string>, sent: seq<string>)
    requires RejectedBefore(head, urls, m) && m + |block| <= |urls|
    requires urls[m..m + |block|] == block
    requires url == FirstAccepted(head, block)
    requires probed == urls[..m] && sent == block[..ProbeCount(head, block)]
    ensures url.Some? ==> url == FirstAccepted(head, urls) && probed + sent == urls[..ProbeCount(head, urls)]
    ensures url.None? ==> RejectedBefore(head, urls, m + |block|) && probed + sent == urls[..m + |block|]
  {
    FirstAcceptedOfBlock(head, urls, m, block);
  }

  /** Lines 228-247: the inner loop over the three bases for one adjusted
      time; a probe that raises or answers another status moves on. */
  method ProbeOffset(head: string -> Reply, t: DateTime, channelId: string, videoId: string, quality: string)
    returns (url: Option<string>, probed: seq<string>)
    ensures url == FirstAccepted(head, OffsetCandidates(t, channelId, videoId, quality))
    ensures var block := OffsetCandidates(t, channelId, videoId, quality);
      probed == block[..ProbeCount(head, block)]
  {
    ghost var block := OffsetCandidates(t, channelId, videoId, quality);
    probed := [];
    for j := 0 to |BaseUrls|
      invariant RejectedBefore(head, block, j)
      invariant probed == block[..j]
    {
      var candidate := CandidateUrl(BaseUrls[j], channelId, t, videoId, quality);
      assert candidate == block[j];
      ProbeOne(head, block, j, probed);
      probed := probed + [candidate];
      var reply := head(candidate);
      if reply.Answer? && reply.status == 200 {
        return Some(candidate), probed;
      }
    }
    NoneAccepted(head, block);
    return None, probed;
  }

  /** Lines 219-247: the outer loop over the minute offsets. An offset that
      overflows the calendar raises outside the inner `try`, so the outer
      handler answers `None`. */
  method ProbeCandidates(head: string -> Reply, start: DateTime, channelId: string, videoId: string, quality: string)
    returns (url: Option<string>, probed: seq<string>)
    ensures url == FirstAccepted(head, Candidates(start, channelId, videoId, quality))
    ensures var urls := Candidates(start, channelId, videoId, quality);
      probed == urls[..ProbeCount(head, urls)]
  {
    ghost var urls := Candidates(start, channelId, videoId, quality);
    ghost var times := AdjustedTimes(start);
    probed := [];
    for i := 0 to OffsetCount
      invariant i <= |times|
      invariant RejectedBefore(head, urls, 3 * i)
      invariant probed == urls[..3 * i]
    {
      var adjusted := Adjusted(start, i);
      AdjustedAt(start, i);
      if adjusted.None? {
        // OverflowError: every candidate before this offset was rejected.
        NoneAccepted(head, urls);
        return None, probed;
      }
      var sent;
      url, sent := ProbeOffset(head, adjusted.value, channelId, videoId, quality);
      CandidatesOfBlock(times, channelId, videoId, quality, i);
      BlockStep(head, urls, 3 * i, OffsetCandidates(adjusted.value, channelId, videoId, quality), url, probed, sent);
      probed := probed + sent;
      if url.Some? {
        return url, probed;
      }
    }
    NoneAccepted(head, urls);
    return None, probed;
  }

  /** Lines 161-247 once the videos endpoint has answered: the whole VOD
      resolution as a function of that reply. */
  function ResolveFromVideos(reply: Reply, head: string -> Reply, parse: string -> Option<DateTime>,
                             slug: string, quality: string): Option<string>
  {
    match VideoList(reply)
    case None => None
    case Some(videos) =>
      match VideoLookup(videos, slug)
      case None => None
      case Some(video) =>
        match ThumbnailIds(video)
        case None => None
        case Some(ids) =>
          match StartTime(video, parse)
          case None => None
          case Some(start) => FirstAccepted(head, Candidates(start, ids.0, ids.1, quality))
  }

  /** The VOD resolution with the videos endpoint of `channel` requested. */
  function VodResolution(get: string -> Reply, head: string -> Reply, parse: string -> Option<DateTime>,
                         channel: string, slug: string, quality: string): Option<string>
  {
    ResolveFromVideos(get(VideosEndpoint(channel)), head, parse, slug, quality)
  }

  /** `get_vod_stream_url(channel_name, video_slug, quality)` with the
      videos endpoint built from `channel_name` (see `VodStreamUrlAsWritten`
      for the code as it stands). */
  method VodStreamUrl(get: string -> Reply, head: string -> Reply, parse: string -> Option<DateTime>,
                      channel: string, slug: string, quality: string)
    returns (url: Option<string>)
    ensures url == VodResolution(get, head, parse, channel, slug, quality)
  {
    var reply := get(VideosEndpoint(channel));
    var videos := VideoList(reply);
    if videos.None? {
      return None;
    }
    var video := FindVideo(videos.value, slug);
    if video.None? {
      return None;
    }
    var ids := ThumbnailIds(video.value);
    if ids.None? {
      return None;
    }
    var start := StartTime(video.value, parse);
    if start.None? {
      return None;
    }
    var probed;
    url, probed := ProbeCandidates(head, start.value, ids.value.0, ids.value.1, quality);
  }

  /** What the resolver promises: a found address is a candidate built from
      the ids in the video's thumbnail and its start time, its probe
      answered 200, and every candidate probed before it did not. */
  lemma VodResultIsFirstAcceptedCandidate(get: string -> Reply, head: string -> Reply,
                                          parse: string -> Option<DateTime>,
                                          channel: string, slug: string, quality: string)
    requires VodResolution(get, head, parse, channel, slug, quality).Some?
    ensures var url := VodResolution(get, head, parse, channel, slug, quality).value;
      var videos := VideoList(get(VideosEndpoint(channel))).value;
      var video := VideoLookup(videos, slug).value;
      var ids := ThumbnailIds(video).value;
      var urls := Candidates(StartTime(video, parse).value, ids.0, ids.1, quality);
      Accepted(head, url)
      && exists n :: 0 <= n < |urls| && urls[n] == url && forall m :: 0 <= m < n ==> !Accepted(head, urls[m])
  {
  }

  /** A candidate address starts with its base address and a slash. */
  lemma CandidateUrlOnHost(base: string, channelId: string, t: DateTime, videoId: string, quality: string)
    ensures StartsWith(CandidateUrl(base, channelId, t, videoId, quality), base + "/")
  {
    var u := CandidateUrl(base, channelId, t, videoId, quality);
    assert u[..|base + "/"|] == base + "/";
  }

  /** Every address of a candidate list lies on one of the three stream
      hosts. */
  lemma {:induction false} CandidatesOfOnHost(times: seq<DateTime>, channelId: string, videoId: string, quality: string, n: nat)
    requires n < |CandidatesOf(times, channelId, videoId, quality)|
    ensures exists j :: 0 <= j < |BaseUrls| && StartsWith(CandidatesOf(times, channelId, videoId, quality)[n], BaseUrls[j] + "/")
  {
    var init := times[..|times| - 1];
    var t := times[|times| - 1];
    var prefix := CandidatesOf(init, channelId, videoId, quality);
    var last := OffsetCandidates(t, channelId, videoId, quality);
    assert CandidatesOf(times, channelId, videoId, quality) == prefix + last;
    if n < |prefix| {
      CandidatesOfOnHost(init, channelId, videoId, quality, n);
      assert (prefix + last)[n] == prefix[n];
    } else {
      var j := n - |prefix|;
      assert (prefix + last)[n] == last[j];
      CandidateUrlOnHost(BaseUrls[j], channelId, t, videoId, quality);
    }
  }

  /** A resolved VOD address lies on one of the three stream hosts; in
      particular it is never empty. */
  lemma VodResultOnStreamHost(get: string -> Reply, head: string -> Reply, parse: string -> Option<DateTime>,
                              channel: string, slug: string, quality: string)
    requires VodResolution(get, head, parse, channel, slug, quality).Some?
    ensures exists j :: 0 <= j < |BaseUrls| && StartsWith(VodResolution(get, head, parse, channel, slug, quality).value, BaseUrls[j] + "/")
    ensures VodResolution(get, head, parse, channel, slug, quality).value != ""
  {
    VodResultIsFirstAcceptedCandidate(get, head, parse, channel, slug, quality);
    var videos := VideoList(get(VideosEndpoint(channel))).value;
    var video := VideoLookup(videos, slug).value;
    var ids := ThumbnailIds(video).value;
    var start := StartTime(video, parse).value;
    var urls := Candidates(start, ids.0, ids.1, quality);
    var n :| 0 <= n < |urls| && urls[n] == VodResolution(get, head, parse, channel, slug, quality).value;
    CandidatesOfOnHost(AdjustedTimes(start), ids.0, ids.1, quality, n);
  }
}
