/** `get_live_stream_url`: the playlist address of a live channel, read from
    the livestream endpoint, or from the channel endpoint when the former
    does not answer 200. Every exception inside it is caught and turned into
    `None`; the model writes each raising step out as a `Null` result. */
module Live {
  import opened Common
  import opened JsonValues
  import opened Http

  /** `body['data'].get(key)`, `None` where `data` is missing or not a dict. */
  function DataField(body: Json, key: string): (r: Json)
    ensures r != Null ==>
      body.Obj? && "data" in body.fields && body.fields["data"].Obj?
      && key in body.fields["data"].fields && r == body.fields["data"].fields[key]
    ensures body.Obj? && "data" in body.fields && body.fields["data"].Obj? && key in body.fields["data"].fields ==>
      r == body.fields["data"].fields[key]
  {
    match DataMember(body)
    case None => Null
    case Some(inner) => if inner.Obj? then Lookup(inner.fields, key, Null) else Null
  }

  /** `body['data']['livestream'].get(key)`, `None` where a step is missing
      or not a dict. */
  function LivestreamField(body: Json, key: string): (r: Json)
    ensures r != Null ==>
      DataField(body, "livestream").Obj? && key in DataField(body, "livestream").fields
      && r == DataField(body, "livestream").fields[key]
    ensures DataField(body, "livestream").Obj? && key in DataField(body, "livestream").fields ==>
      r == DataField(body, "livestream").fields[key]
  {
    var livestream := DataField(body, "livestream");
    if livestream.Obj? then Lookup(livestream.fields, key, Null) else Null
  }

  /** The three places the livestream endpoint may hold the address, in the
      order they are tried. */
  function PrimaryCandidates(body: Json): seq<Json>
  {
    [DataField(body, "playback_url"),
     LivestreamField(body, "playback_url"),
     LivestreamField(body, "hls_playlist_url")]
  }

  /** The two places the channel endpoint may hold the address. */
  function FallbackCandidates(body: Json): seq<Json>
  {
    [LivestreamField(body, "playback_url"),
     LivestreamField(body, "hls_playlist_url")]
  }

  /** Address extraction from a 200 reply of the livestream endpoint:
      `data.playback_url`, else `data.livestream.playback_url`, else
      `data.livestream.hls_playlist_url`, the first that is truthy, or `None`.
      `.get` on a `data` or `livestream` that is not a dict raises
      AttributeError, which ends in `None` as well. */
  function PrimaryUrl(body: Json): (hls: Json)
    ensures hls == FirstTruthy(PrimaryCandidates(body))
  {
    match DataMember(body)
    case None => Null
    case Some(inner) =>
      if !inner.Obj? then Null
      else
        var top := Lookup(inner.fields, "playback_url", Null);
        var nested := Lookup(inner.fields, "livestream", Null);
        OrChainIsFirstTruthy(top, LivestreamField(body, "playback_url"), LivestreamField(body, "hls_playlist_url"));
        if Truthy(top) then top
        else if !Truthy(nested) then Null
        else if !nested.Obj? then Null
        else
          var hls := Or(Lookup(nested.fields, "playback_url", Null), Lookup(nested.fields, "hls_playlist_url", Null));
          if Truthy(hls) then hls else Null
  }

  /** Address extraction from a 200 reply of the channel endpoint: only the
      nested `data.livestream` fields are read, `playback_url` before
      `hls_playlist_url`. */
  function FallbackUrl(body: Json): (hls: Json)
    ensures hls == FirstTruthy(FallbackCandidates(body))
  {
    match DataMember(body)
    case None => Null
    case Some(inner) =>
      if !inner.Obj? then Null
      else
        var livestream := Lookup(inner.fields, "livestream", Null);
        OrChainIsFirstTruthy(LivestreamField(body, "playback_url"), LivestreamField(body, "hls_playlist_url"), Null);
        if !Truthy(livestream) then Null
        else if !livestream.Obj? then Null
        else
          var hls := Or(Lookup(livestream.fields, "playback_url", Null), Lookup(livestream.fields, "hls_playlist_url", Null));
          if Truthy(hls) then hls else Null
  }

  /** Lines 113-119: both branches return the address unchanged, but for a
      quality other than `auto` the test `'.m3u8' in hls_url` runs first and
      raises TypeError when the address is a number or a bool. */
  function QualityCheck(hls: Json, quality: string): (r: Json)
    ensures r == hls || r == Null
    ensures r == Null <==> hls == Null || (quality != "auto" && MembershipRaises(hls))
  {
    if quality != "auto" && MembershipRaises(hls) then Null else hls
  }

  /** `get_live_stream_url(channel_name, quality)` with `get` standing for
      the scraper session's GET requests. The result is `None` or truthy. */
  function LiveStreamUrl(get: string -> Reply, channel: string, quality: string): (r: Json)
    ensures r == Null || Truthy(r)
  {
    var reply := get(LivestreamEndpoint(channel));
    if reply.Raised? then Null
    else if reply.status != 200 then
      var channelReply := get(ChannelEndpoint(channel));
      if !IsOk(channelReply) then Null
      else match JsonBody(channelReply)
        case None => Null
        case Some(body) => FallbackUrl(body)
    else
      match JsonBody(reply)
      case None => Null
      case Some(body) =>
        var hls := PrimaryUrl(body);
        if !Truthy(hls) then Null else QualityCheck(hls, quality)
  }

  /** `body` with `data.playback_url` removed. */
  function WithoutTopLevelUrl(body: Json): (r: Json)
    ensures DataField(r, "playback_url") == Null
  {
    if body.Obj? && "data" in body.fields && body.fields["data"].Obj? then
      Obj(body.fields["data" := Obj(body.fields["data"].fields - {"playback_url"})])
    else body
  }

  /** The fallback never reads the top-level `data.playback_url`: it answers
      what the primary extraction answers once that field is removed. */
  lemma FallbackIsPrimaryWithoutTopLevel(body: Json)
    ensures FallbackUrl(body) == PrimaryUrl(WithoutTopLevelUrl(body))
  {
    var stripped := WithoutTopLevelUrl(body);
    assert LivestreamField(stripped, "playback_url") == LivestreamField(body, "playback_url");
    assert LivestreamField(stripped, "hls_playlist_url") == LivestreamField(body, "hls_playlist_url");
    var p := PrimaryCandidates(stripped);
    var f := FallbackCandidates(body);
    assert p == [Null] + f;
    assert p[1..] == f;
  }

  /** When the livestream endpoint answers 200, the result is the first
      truthy of its three candidate fields (for a string address, whatever
      the quality), or `None`. */
  lemma LivePrimaryPath(get: string -> Reply, channel: string, quality: string)
    requires IsOk(get(LivestreamEndpoint(channel)))
    ensures var reply := get(LivestreamEndpoint(channel));
      var expected := if reply.body.Some? then PrimaryUrl(reply.body.value) else Null;
      LiveStreamUrl(get, channel, quality) == QualityCheck(expected, quality)
      && (expected.Str? ==> LiveStreamUrl(get, channel, quality) == expected)
  {
  }

  /** When the livestream endpoint answers anything but 200, the result
      is the fallback extraction of the channel endpoint's 200 reply (its
      nested `playback_url` if truthy, else its nested `hls_playlist_url`
      if truthy), never a top-level `data.playback_url`, and `None` when the
      channel endpoint fails too. */
  lemma LiveFallbackPath(get: string -> Reply, channel: string, quality: string)
    requires get(LivestreamEndpoint(channel)).Answer?
    requires get(LivestreamEndpoint(channel)).status != 200
    ensures var c := get(ChannelEndpoint(channel));
      LiveStreamUrl(get, channel, quality) == (if IsOk(c) && c.body.Some? then FallbackUrl(c.body.value) else Null)
    ensures var r := LiveStreamUrl(get, channel, quality);
      var c := get(ChannelEndpoint(channel));
      r != Null ==>
        (IsOk(c) && c.body.Some?
         && (r == LivestreamField(c.body.value, "playback_url")
             || r == LivestreamField(c.body.value, "hls_playlist_url")))
  {
    var r := LiveStreamUrl(get, channel, quality);
    if r != Null {
      var body := get(ChannelEndpoint(channel)).body.value;
      var f := FallbackCandidates(body);
      assert r == FirstTruthy(f);
      var i :| 0 <= i < |f| && f[i] == r && forall j :: 0 <= j < i ==> !Truthy(f[j]);
    }
  }

  /** When the livestream request itself raises (line 63), the handler at
      lines 121-123 answers `None`, and the channel endpoint is not asked. */
  lemma LiveRaisedPath(get: string -> Reply, channel: string, quality: string)
    requires get(LivestreamEndpoint(channel)).Raised?
    ensures LiveStreamUrl(get, channel, quality) == Null
  {
  }

  /** The quality argument never changes a string address: the live result
      differs from the `auto` result only by turning a number or bool
      address on the primary path into `None`. */
  lemma LiveQualityIndependent(get: string -> Reply, channel: string, quality: string)
    ensures var auto := LiveStreamUrl(get, channel, "auto");
      var r := LiveStreamUrl(get, channel, quality);
      (auto.Str? ==> r == auto)
      && (r == auto || (r == Null && IsOk(get(LivestreamEndpoint(channel))) && (auto.Num? || auto.Bool?)))
  {
  }
}
