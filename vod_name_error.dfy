/** Line 159 of `get_vod_stream_url` formats the videos endpoint with
    `{channelName}`, a name bound nowhere in the function or the module,
    while the parameter is `channel_name`. The f-string raises NameError
    before any request is made, and the catch-all handler at lines 249-251
    turns it into `None`: every VOD page resolves to nothing. The rest of
    the model uses the evidently intended `Vod.VodStreamUrl`, which requests
    the endpoint of `channel_name`. */
module VodNameError {
  import opened Common
  import opened JsonValues
  import opened Text
  import opened Calendar
  import opened Http
  import opened Vod
  import opened PageUrl
  import opened Live
  import opened Cli

  /** The code as written: line 159 formats `{channelName}`, a name bound
      neither among the parameters (`channel_name`, `video_slug`, `quality`)
      and locals nor among the module's globals. Building that string raises
      NameError whatever the arguments, and the handler at lines 249-251
      turns it into `None` before any request is made. */
  function VodStreamUrlAsWritten(get: string -> Reply, head: string -> Reply, parse: string -> Option<DateTime>,
                                 channel: string, slug: string, quality: string): (url: Option<string>)
    ensures url.None?
  {
    None
  }

  /** A thumbnail address of the shape the site serves. */
  const ExamplePieces: seq<string> := ["https:", "", "images.kick.com", "video_thumbnails", "4711", "815"]

  /** One video, `clip`, with that thumbnail and a start time. */
  const ExampleVideo: map<string, Json> := map[
    "uuid" := Str("clip"),
    "thumbnail" := Obj(map["src" := Str(Join(ExamplePieces, '/'))]),
    "start_time" := Str("2024-01-01T12:30:00Z")]

  /** A videos endpoint that lists that video. */
  function ExampleGet(url: string): Reply
  {
    Answer(200, Some(Obj(map["data" := Obj(map["videos" := Arr([Obj(ExampleVideo)])])])))
  }

  /** Stream hosts that accept every probe. */
  function ExampleHead(url: string): Reply
  {
    Answer(200, None)
  }

  /** The videos endpoint lists the example video, and the lookup finds it. */
  lemma ExampleVideoFound(url: string)
    ensures VideoList(ExampleGet(url)) == Some([Obj(ExampleVideo)])
    ensures VideoLookup([Obj(ExampleVideo)], "clip") == Some(ExampleVideo)
  {
    FirstIndexIs([Obj(ExampleVideo)], v => StopsLookup("clip", v), 0);
  }

  /** The example thumbnail carries channel id `4711` and video id `815`. */
  lemma ExampleIds()
    ensures ThumbnailIds(ExampleVideo) == Some(("4711", "815"))
  {
    ThumbnailIdsOfJoin(ExampleVideo, ExamplePieces);
  }

  /** Hosts that accept every probe accept the first candidate. */
  lemma ExampleProbeAccepted(start: DateTime)
    requires Valid(start) && MinYear + 5 <= start.year <= MaxYear - 5
    ensures FirstAccepted(ExampleHead, Candidates(start, "4711", "815", "auto")).Some?
  {
    AllCandidatesProbed(start, "4711", "815", "auto");
    var urls := Candidates(start, "4711", "815", "auto");
    assert Accepted(ExampleHead, urls[0]);
  }

  /** With hosts that accept every probe, the example video resolves. */
  lemma ExampleResolves(parse: string -> Option<DateTime>, start: DateTime)
    requires parse("2024-01-01T12:30:00Z") == Some(start)
    requires Valid(start) && MinYear + 5 <= start.year <= MaxYear - 5
    ensures VodResolution(ExampleGet, ExampleHead, parse, "streamer", "clip", "auto").Some?
  {
    ExampleVideoFound(VideosEndpoint("streamer"));
    ExampleIds();
    assert StartTime(ExampleVideo, parse) == Some(start);
    ExampleProbeAccepted(start);
  }

  lemma ResolvableVideoLostAsWritten(parse: string -> Option<DateTime>, start: DateTime)
    requires parse("2024-01-01T12:30:00Z") == Some(start)
    requires Valid(start) && MinYear + 5 <= start.year <= MaxYear - 5
    ensures VodResolution(ExampleGet, ExampleHead, parse, "streamer", "clip", "auto").Some?
    ensures VodStreamUrlAsWritten(ExampleGet, ExampleHead, parse, "streamer", "clip", "auto").None?
  {
    ExampleResolves(parse, start);
  }

  /** `get_video_stream_url` as written: the dispatcher of lines 254-290
      over the VOD resolver as written. Every VOD page gives `None`; live
      pages are unaffected. */
  function StreamUrlAsWritten(pathOf: string -> Option<string>, videoUrl: string, quality: string,
                              get: string -> Reply, head: string -> Reply, parse: string -> Option<DateTime>): (r: Json)
    ensures pathOf(videoUrl).Some? && Classify(pathOf(videoUrl).value).Vod? ==> r == Null
    ensures pathOf(videoUrl).None? || Classify(pathOf(videoUrl).value).Live? ==>
      r == StreamUrl(pathOf, videoUrl, quality, get, head, parse)
  {
    match pathOf(videoUrl)
    case None => Null
    case Some(path) =>
      match Classify(path)
      case Vod(channel, slug) =>
        (match VodStreamUrlAsWritten(get, head, parse, channel, slug, quality)
         case None => Null
         case Some(url) => Str(url))
      case Live(channel) => LiveStreamUrl(get, channel, quality)
  }

  /** `main()` as written (lines 297-324): every VOD page is reported as a
      failure with exit status 1. */
  function RunCliAsWritten(argv: seq<string>, pathOf: string -> Option<string>,
                           get: string -> Reply, head: string -> Reply, parse: string -> Option<DateTime>): (outcome: Outcome)
    ensures |argv| < 2 ==> outcome == Usage
    ensures |argv| >= 2 && pathOf(argv[1]).Some? && Classify(pathOf(argv[1]).value).Vod? ==>
      outcome == Outcome(Null, Some(QualityArg(argv)), false, Some(NotRetrieved), 1)
  {
    if |argv| < 2 then Usage
    else Report(StreamUrlAsWritten(pathOf, argv[1], QualityArg(argv), get, head, parse), QualityArg(argv))
  }

  /** `urlparse` of the example page address. */
  function ExamplePath(url: string): Option<string>
  {
    Some("/streamer/videos/clip")
  }

  const ExampleArgv: seq<string> := ["kick-fetch.py", "https://kick.com/streamer/videos/clip"]

  /** The example page address is a VOD page of `streamer` for `clip`. */
  lemma ExampleClassified()
    ensures ExamplePath(ExampleArgv[1]) == Some("/streamer/videos/clip")
    ensures Classify("/streamer/videos/clip") == Vod("streamer", "clip")
  {
    assert "/" + "streamer" + "/" + "videos" + "/" + "clip" == "/streamer/videos/clip";
    VodPathIsVod("streamer", "videos", "clip");
  }

  /** The example page: the corrected dispatcher finds a playlist and
      `main` would exit with status 0, while `main` as written reports a
      failure and exits with status 1. */
  lemma ExamplePageLostByMain(parse: string -> Option<DateTime>, start: DateTime)
    requires parse("2024-01-01T12:30:00Z") == Some(start)
    requires Valid(start) && MinYear + 5 <= start.year <= MaxYear - 5
    ensures StreamUrl(ExamplePath, ExampleArgv[1], "auto", ExampleGet, ExampleHead, parse).Str?
    ensures Report(StreamUrl(ExamplePath, ExampleArgv[1], "auto", ExampleGet, ExampleHead, parse), "auto").exitCode == 0
    ensures RunCliAsWritten(ExampleArgv, ExamplePath, ExampleGet, ExampleHead, parse).exitCode == 1
  {
    ExampleClassified();
    ExampleResolves(parse, start);
    var url := VodResolution(ExampleGet, ExampleHead, parse, "streamer", "clip", "auto");
    assert StreamUrl(ExamplePath, ExampleArgv[1], "auto", ExampleGet, ExampleHead, parse) == Str(url.value);
  }
}
