/** The entry points: `get_video_stream_url`, which routes a page address to
    the live or the VOD resolver, and `main`, which turns the command line
    into the JSON result object and the exit status. */
module Cli {
  import opened Common
  import opened JsonValues
  import opened Text
  import opened Calendar
  import opened Http
  import opened PageUrl
  import opened Live
  import opened Vod

  /** What `get_video_stream_url(video_url, quality)` returns. `pathOf`
      stands for `urllib.parse.urlparse(video_url).path`, `None` where
      `urlparse` raises ValueError (the handler answers `None`). A VOD
      address found is a string on a stream host, so the result is `None`
      or truthy on both routes. */
  function StreamUrl(pathOf: string -> Option<string>, videoUrl: string, quality: string,
                     get: string -> Reply, head: string -> Reply, parse: string -> Option<DateTime>): (r: Json)
    ensures r == Null || Truthy(r)
  {
    match pathOf(videoUrl)
    case None => Null
    case Some(path) =>
      match Classify(path)
      case Vod(channel, slug) =>
        var url := VodResolution(get, head, parse, channel, slug, quality);
        if url.None? then Null
        else
          VodResultOnStreamHost(get, head, parse, channel, slug, quality);
          Str(url.value)
      case Live(channel) => LiveStreamUrl(get, channel, quality)
  }

  /** Lines 254-290: parse the address, classify its path, and call the
      resolver of the route. */
  method VideoStreamUrl(pathOf: string -> Option<string>, videoUrl: string, quality: string,
                        get: string -> Reply, head: string -> Reply, parse: string -> Option<DateTime>)
    returns (r: Json)
    ensures r == StreamUrl(pathOf, videoUrl, quality, get, head, parse)
  {
    var path := pathOf(videoUrl);
    if path.None? {
      return Null;
    }
    var route := Classify(path.value);
    if route.Vod? {
      var url := VodStreamUrl(get, head, parse, route.channel, route.slug, quality);
      if url.None? {
        return Null;
      }
      r := Str(url.value);
    } else {
      r := LiveStreamUrl(get, route.channel, quality);
    }
  }

  /** The printed result object and the exit status. `quality` and `error`
      are `None` where the key holds `null` or is absent respectively. */
  datatype Outcome = Outcome(url: Json, quality: Option<string>, success: bool, error: Option<string>, exitCode: int)

  const UrlRequired: string := "URL required"
  const NotRetrieved: string := "Could not retrieve stream URL (channel may not be live or URL is invalid)"

  /** Lines 297-305: fewer than one argument after the program name. */
  const Usage: Outcome := Outcome(Null, None, false, Some(UrlRequired), 1)

  /** Line 308: the quality is the second argument unless it is absent or
      looks like an option (`--...`), in which case it is `auto`. */
  function QualityArg(argv: seq<string>): (quality: string)
    requires |argv| >= 2
    ensures quality == "auto" || (|argv| > 2 && quality == argv[2])
    ensures !StartsWith(quality, "--")
    ensures |argv| > 2 && !StartsWith(argv[2], "--") ==> quality == argv[2]
  {
    if |argv| > 2 && !StartsWith(argv[2], "--") then argv[2]
    else
      assert "auto"[..2] != "--" by { assert "auto"[..2][0] == 'a'; }
      "auto"
  }

  /** Lines 314-324: `success` tests `is not None`, while the `error` key
      and the exit status test truthiness. */
  function Report(url: Json, quality: string): (outcome: Outcome)
    ensures outcome.url == url && outcome.quality == Some(quality)
    ensures outcome.success <==> url != Null
    ensures outcome.exitCode == 0 <==> Truthy(url)
    ensures outcome.exitCode == 0 || outcome.exitCode == 1
    ensures outcome.error.None? <==> outcome.exitCode == 0
    ensures outcome.error.Some? ==> outcome.error.value == NotRetrieved
  {
    var status := if Truthy(url) then 0 else 1;
    Outcome(url, Some(quality), url != Null, if Truthy(url) then None else Some(NotRetrieved), status)
  }

  /** The two tests disagree on a falsy address that is not `None`: an
      empty string is reported as a success with an error and exit status 1. */
  lemma FalsyUrlSplitsTheVerdicts(quality: string)
    ensures Report(Str(""), quality).success
    ensures Report(Str(""), quality).exitCode == 1 && Report(Str(""), quality).error.Some?
  {
  }

  /** Lines 297-324: `main()` with `argv` standing for `sys.argv`. The
      printed object always agrees with itself: success exactly when the
      exit status is 0 and no error is reported, because the resolver never
      returns a falsy address other than `None`. */
  method RunCli(argv: seq<string>, pathOf: string -> Option<string>,
                get: string -> Reply, head: string -> Reply, parse: string -> Option<DateTime>)
    returns (outcome: Outcome)
    ensures |argv| < 2 ==> outcome == Usage
    ensures |argv| >= 2 ==>
      outcome == Report(StreamUrl(pathOf, argv[1], QualityArg(argv), get, head, parse), QualityArg(argv))
    ensures outcome.success <==> outcome.exitCode == 0
    ensures outcome.success <==> outcome.error.None?
  {
    if |argv| < 2 {
      return Usage;
    }
    var videoUrl := argv[1];
    var quality := QualityArg(argv);
    var streamUrl := VideoStreamUrl(pathOf, videoUrl, quality, get, head, parse);
    var error: Option<string> := None;
    if !Truthy(streamUrl) {
      error := Some(NotRetrieved);
    }
    var exitCode := if Truthy(streamUrl) then 0 else 1;
    outcome := Outcome(streamUrl, Some(quality), streamUrl != Null, error, exitCode);
  }
}
