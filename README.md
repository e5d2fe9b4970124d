# Kick stream address resolver — Dafny model

This project models `src/scripts/kick-fetch.py`, the command-line helper
that turns a Kick page address into the address of an HLS playlist:

- the **dispatcher** (`get_video_stream_url`) takes the path of the page
  address. It strips the slashes, splits the path on `/` and routes it.
  The route is the VOD resolver when there are at least three segments,
  segment 1 is `video` or `videos` and segment 2 is non-empty. Otherwise it
  is the live resolver.
- the **live resolver** (`get_live_stream_url`) reads the livestream
  endpoint. It looks at `data.playback_url`, then
  `data.livestream.playback_url`, then `data.livestream.hls_playlist_url`.
  When the livestream endpoint does not answer 200, it reads only the
  nested fields of the channel endpoint.
- the **VOD resolver** (`get_vod_stream_url`) finds the video in the
  channel's video list. It reads the internal channel id and video id from
  pieces 4 and 5 of the thumbnail address and parses the start time. It
  then probes 11 minute offsets (-5 to +5) × 3 stream hosts, offset-major,
  and returns the first address whose HEAD probe answers 200.
- **`main`** chooses the quality argument (default `auto`) and builds the
  printed result object and the exit status.

Python semantics are written out. JSON values are the `Json` datatype,
`None` is `Null`, and truthiness is `Truthy`. Each place where the code
would raise is modelled as the `None` that its catch-all handler returns:
`.get` on a non-dict, `in` on a number or bool, `.split`/`.replace` on a
non-string, and a datetime overflow outside years 1..9999. The network,
the date parser and `urlparse` are function parameters (`get`, `head`,
`parse`, `pathOf`).

Modules: `Common` (Option, first-index search), `JsonValues`, `Text`
(split/join/strip, decimal formatting), `Calendar` (minute arithmetic),
`Http` (replies and endpoints), `PageUrl`, `Live`, `Vod`, `VodNameError`
(the code as written at line 159) and `Cli`.

## Model

| member | source | states |
|---|---|---|
| JsonValues.FirstTruthy | src/scripts/kick-fetch.py:99-104 | the result of an `or` chain is the first truthy candidate, or `None` when all are falsy |
| JsonValues.FalsyValues | src/scripts/kick-fetch.py:100-106 | an `if not x` test fails exactly on `None`, `False`, zero and the empty string, list and dict |
| JsonValues.DataMember | src/scripts/kick-fetch.py:89-96 | `data['data']` exists exactly for a dict body holding the key `data`, and such a body is truthy, so `if not data or 'data' not in data` passes |
| JsonValues.OrChainIsFirstTruthy | src/scripts/kick-fetch.py:104 | `a or b or c`, with a falsy result read as `None`, equals the first truthy of the three |
| JsonValues.Or | src/scripts/kick-fetch.py:80 | `a or b` is truthy iff either operand is; it is `a` when `a` is truthy, else `b` |
| Text.Split | src/scripts/kick-fetch.py:192 | `s.split(sep)` has at least one piece and no piece contains the separator |
| Text.Strip | src/scripts/kick-fetch.py:268 | neither end of `s.strip(c)` is `c`, and it is no longer than `s` |
| Text.JoinSplit | src/scripts/kick-fetch.py:192 | joining the pieces of `s.split(sep)` with `sep` gives back `s` |
| Text.SplitJoin | src/scripts/kick-fetch.py:192 | splitting a join of separator-free pieces gives back the pieces |
| Text.SplitAround | src/scripts/kick-fetch.py:192 | splitting `a + sep + b` is the split of `a` followed by the split of `b` |
| Text.TrimStart | src/scripts/kick-fetch.py:268 | the left half of `strip(c)` drops exactly the leading run of `c`: the result is a suffix not starting with `c`, and everything dropped is `c` |
| Text.TrimEnd | src/scripts/kick-fetch.py:268 | the right half of `strip(c)` drops exactly the trailing run of `c`: the result is a prefix not ending with `c`, and everything dropped is `c` |
| Text.StripFrame | src/scripts/kick-fetch.py:268 | stripping a core that neither starts nor ends with `c`, framed by runs of `c`, gives back the core |
| Text.Decimal | src/scripts/kick-fetch.py:230 | `str(n)` is made of digits, has no leading zero except for `0`, and reads back as `n` |
| PageUrl.PathParts | src/scripts/kick-fetch.py:266-271 | `path.strip('/').split('/')` has at least one segment and no segment contains `/`, so the empty-list guard never fires |
| PageUrl.Classify | src/scripts/kick-fetch.py:273-286 | the channel is always segment 0; a VOD route has a non-empty, slash-free slug |
| PageUrl.PathPartsOfJoin | src/scripts/kick-fetch.py:268 | a path built from slash-free segments, with any leading and trailing slashes, is read back as those segments |
| PageUrl.ClassifyJoin | src/scripts/kick-fetch.py:276-286 | for a path built from segments: VOD of (segment 0, segment 2) iff there are at least 3 segments, segment 1 is a VOD marker and segment 2 is non-empty; live of segment 0 otherwise |
| PageUrl.VodPathIsVod | src/scripts/kick-fetch.py:276-282 | `/<channel>/video/<slug>` and `/<channel>/videos/<slug>` go to the VOD resolver |
| PageUrl.ChannelPathIsLive | src/scripts/kick-fetch.py:284-286 | `/<channel>` with any trailing slashes goes to the live resolver for that channel |
| PageUrl.EmptyPathIsLiveWithEmptyChannel | src/scripts/kick-fetch.py:267-275 | a path of slashes only goes to the live resolver with the empty channel name |
| Live.PrimaryUrl | src/scripts/kick-fetch.py:86-108 | the address from a 200 livestream reply is the first truthy of `data.playback_url`, `data.livestream.playback_url`, `data.livestream.hls_playlist_url` |
| Live.FallbackUrl | src/scripts/kick-fetch.py:66-84 | the address from the channel endpoint is the first truthy of the two nested `livestream` fields |
| Live.DataField | src/scripts/kick-fetch.py:96-99 | `data['data'].get(key)` is the field of the `data` dict when present, and `None` otherwise (missing key, or a missing or non-dict `data`) |
| Live.LivestreamField | src/scripts/kick-fetch.py:102-104 | `data['data']['livestream'].get(key)` is the field of the nested `livestream` dict when present, and `None` otherwise |
| Live.FallbackIsPrimaryWithoutTopLevel | src/scripts/kick-fetch.py:76-104 | the fallback extraction equals the primary extraction once the top-level `data.playback_url` is removed |
| Live.QualityCheck | src/scripts/kick-fetch.py:112-119 | the quality branch returns the address unchanged, except that the `'.m3u8' in` test raises on a number or bool address when the quality is not `auto` |
| Live.LiveStreamUrl | src/scripts/kick-fetch.py:59-123 | the live resolver returns `None` or a truthy value |
| Live.LivePrimaryPath | src/scripts/kick-fetch.py:63-119 | when the livestream endpoint answers 200, the result is the primary extraction after the quality check; a string address is returned whatever the quality |
| Live.LiveFallbackPath | src/scripts/kick-fetch.py:66-84 | on a non-200 answer, the result is the channel endpoint's fallback extraction (nested `playback_url` before nested `hls_playlist_url`) when that endpoint answers 200 with JSON, and `None` otherwise |
| Live.LiveRaisedPath | src/scripts/kick-fetch.py:63 | when the livestream request raises, the result is `None` (handler at lines 121-123) |
| Live.LiveQualityIndependent | src/scripts/kick-fetch.py:112-119 | the quality never changes a string address; it can only turn a number or bool address into `None` |
| Calendar.NextMinuteStep | src/scripts/kick-fetch.py:220 | one minute later is a valid date that one minute earlier undoes; it overflows only at 9999-12-31 23:59 |
| Calendar.PrevMinuteStep | src/scripts/kick-fetch.py:220 | one minute earlier is a valid date that one minute later undoes; it overflows only at 0001-01-01 00:00 |
| Calendar.AddMinutesValid | src/scripts/kick-fetch.py:219-226 | `AddMinutes` (`dt + timedelta(minutes=k)`, one minute at a time): adding `k` minutes to a date far enough from the calendar ends succeeds, moves the minute field by `k` mod 60 and the year by at most `|k|`, and adding `-k` undoes it |
| Vod.VideoList | src/scripts/kick-fetch.py:161-174 | a video list exists exactly for a 200 reply whose `data` dict holds a list under `videos` or no `videos` key; it is that list, or empty when the key is missing |
| Vod.VideoLookup | src/scripts/kick-fetch.py:172-181 | the found video is the first entry with the slug as `uuid`, and every entry before it is a dict; no video means every matching entry comes after a non-dict |
| Vod.FindVideo | src/scripts/kick-fetch.py:172-181 | the search loop with its `break` returns the lookup's video, whose `uuid` is the slug |
| Vod.ThumbnailSrc | src/scripts/kick-fetch.py:186 | `video.get('thumbnail', {}).get('src', '')`: `''` without a thumbnail, the `src` field or `''` for a dict thumbnail, `None` (AttributeError) for a non-dict one |
| Vod.ThumbnailIds | src/scripts/kick-fetch.py:185-198 | ids exist iff the thumbnail `src` is a string with at least six `/`-pieces; they are pieces 4 and 5 of that string, so both are slash-free |
| Vod.ThumbnailIdsOfJoin | src/scripts/kick-fetch.py:192-198 | any thumbnail whose `src` is built from slash-free pieces (whatever other keys the thumbnail holds) yields pieces 4 and 5 as the ids |
| Vod.StartTime | src/scripts/kick-fetch.py:202-209 | a start time exists only when `start_time` is a non-empty string, and for every non-empty string it is what the parser makes of it |
| Vod.CandidateUrlPieces | src/scripts/kick-fetch.py:228-232 | `CandidateUrl`, the f-strings at lines 230 and 232: a candidate address splits into the base's pieces, the ids, the five unpadded calendar fields and the playlist path |
| Vod.AdjustedTimes | src/scripts/kick-fetch.py:219-220 | the probed dates are `start + (-5 + i)` minutes for each offset index before the first overflow, and the next offset overflows |
| Vod.Candidates | src/scripts/kick-fetch.py:219-232 | three candidates per probed date, so 3 × the number of offsets before the first overflow |
| Vod.CandidatesOfAt | src/scripts/kick-fetch.py:219-232 | in a list of dates, candidate `3*i + j` is base `j` at date `i` |
| Vod.CandidateAt | src/scripts/kick-fetch.py:219-232 | candidate `3*i + j` is base `j` at minute offset `-5 + i` |
| Vod.AllCandidatesProbed | src/scripts/kick-fetch.py:219-226 | for a start date at least five years from the calendar ends, all 11 offsets are probed, 33 candidates in all |
| Vod.FirstAccepted | src/scripts/kick-fetch.py:236-244 | the found address is a candidate whose probe answered 200, after every earlier probe failed; no address iff every probe failed |
| Vod.ProbeCount | src/scripts/kick-fetch.py:236-244 | the number of HEAD probes sent: every earlier probe failed, and it ends at the accepted candidate when there is one and covers all candidates otherwise |
| Vod.FirstSuccessWins | src/scripts/kick-fetch.py:228-241 | when every earlier probe fails and base `j` at date `i` answers 200, the search returns exactly that address |
| Vod.ProbeOffset | src/scripts/kick-fetch.py:228-244 | the inner loop returns the first of the three hosts' addresses that answers 200, and the probes it sends are the block's addresses up to and including that one (all three when none answers 200) |
| Vod.ProbeCandidates | src/scripts/kick-fetch.py:219-247 | the nested loops return the first accepted candidate in offset-major order, and `None` when every probe fails or an offset overflows; the HEAD probes sent are exactly the candidates up to the accepted one, so probing stops at the first 200 |
| Vod.FirstAcceptedOfBlock | src/scripts/kick-fetch.py:219-244 | after a rejected prefix, a block of probes decides the first accepted address or extends the rejected prefix |
| Vod.VodStreamUrl | src/scripts/kick-fetch.py:126-251 | the VOD resolver (with the endpoint built from `channel_name`) computes the specified resolution |
| Vod.VodResultIsFirstAcceptedCandidate | src/scripts/kick-fetch.py:161-247 | `VodResolution`/`ResolveFromVideos`, the resolver as a function of the replies: a resolved address answered 200, is a candidate built from the thumbnail ids and the start time, and every earlier candidate was rejected |
| Vod.VodResultOnStreamHost | src/scripts/kick-fetch.py:213-232 | a resolved address starts with one of the three stream hosts followed by `/`, so it is never empty |
| VodNameError.VodStreamUrlAsWritten | src/scripts/kick-fetch.py:159 | as written, the VOD resolver always returns `None` |
| VodNameError.StreamUrlAsWritten | src/scripts/kick-fetch.py:254-290 | the dispatcher over the resolver as written gives `None` on every VOD page and agrees with the corrected dispatcher on every other address |
| VodNameError.RunCliAsWritten | src/scripts/kick-fetch.py:297-324 | `main` as written reports every VOD page as a failure: no `url`, `success` false, the error message and exit status 1 |
| VodNameError.ExamplePageLostByMain | src/scripts/kick-fetch.py:159-324 | for the page `/streamer/videos/clip` the corrected dispatcher returns a playlist address and `main` would exit 0, while `main` as written exits 1 |
| VodNameError.ResolvableVideoLostAsWritten | src/scripts/kick-fetch.py:159-251 | a channel whose video list holds the video and whose hosts accept the probe resolves, yet the code as written returns `None` |
| Cli.StreamUrl | src/scripts/kick-fetch.py:254-290 | the dispatcher's result is `None` or truthy on both routes |
| Cli.VideoStreamUrl | src/scripts/kick-fetch.py:254-290 | the dispatcher calls the resolver of the route and returns its result |
| Cli.QualityArg | src/scripts/kick-fetch.py:308 | the quality is `auto` or the second argument; it never starts with `--`; a second argument not starting with `--` is taken |
| Cli.Report | src/scripts/kick-fetch.py:314-324 | `success` iff the address is not `None`; exit status 0 iff the address is truthy; an `error` key exactly when the exit status is 1 |
| Cli.FalsyUrlSplitsTheVerdicts | src/scripts/kick-fetch.py:318-324 | an empty-string address would be reported as a success with an error and exit status 1 |
| Cli.RunCli | src/scripts/kick-fetch.py:297-324 | without a page address the result is the usage object; otherwise it is the report of the dispatcher's result; `success`, exit status 0 and no `error` always coincide |

## Left out

- The HTTP transport is left out. The cloudscraper session, its browser identity, headers and timeouts are replaced by the `get` and `head` parameters. A reply is either raised or a status with an optional JSON body.
- `datetime.fromisoformat` (after replacing `Z` with `+00:00`) is the `parse` parameter. The model keeps only the five fields read afterwards. Timezones are not modelled, because an aware datetime plus a timedelta shifts its wall-clock fields.
- `urllib.parse.urlparse(...).path` is the `pathOf` parameter. A ValueError from it is its `None`.
- Debug logging (`DEBUG`, `log_debug`) is left out because it only writes to standard error.
- Printing the result with `json.dumps` is left out, including the key order of the printed object. `main` is modelled up to the object it prints and its exit status.
- The import-time failure when cloudscraper is missing (lines 11-18) is left out.
- JSON numbers are reals. The model does not cover float details such as NaN or the distinction between `1` and `1.0`.
- The code has no manifest parser, no quality selector, no manifest fetch and no typed error kinds. The model follows the code: on the VOD path the quality only chooses the playlist path. On the live path, a quality other than `auto` runs the test `'.m3u8' in hls_url` (line 113), which raises TypeError on a number or bool address, so that address becomes `None` (`Live.QualityCheck`, `Live.LiveQualityIndependent`); any other address is returned unchanged. Errors are `None`, and the result object is `url`/`quality`/`success`/`error`.
- The code does not reject an empty path as invalid input. It routes it to the live resolver with the empty channel name (`PageUrl.EmptyPathIsLiveWithEmptyChannel`).
- `Vod.VodStreamUrl` requests the videos endpoint of `channel_name`. This is the evidently intended behaviour, and the code as written differs (see Findings).
- `Cli.StreamUrl`, `Cli.VideoStreamUrl` and `Cli.RunCli` use that corrected VOD resolver, so on a resolvable VOD page they return an address and exit status 0 where the program as written prints a failure and exits 1. The code as written is `VodNameError.StreamUrlAsWritten` and `VodNameError.RunCliAsWritten`.

## Findings

| source | as written | input that shows it | evidently intended | confidence | as-written member | corrected member |
|---|---|---|---|---|---|---|
| src/scripts/kick-fetch.py:159 | the videos endpoint is formatted with `{channelName}`, a name bound neither in the function nor in the module, so NameError is raised before any request and the handler returns `None` | any VOD page, e.g. `/streamer/videos/clip`, whose video list holds `clip` with a six-piece thumbnail and a start time, and whose stream host accepts the first probe | format the endpoint with the parameter `channel_name` | high; not executed | VodNameError.VodStreamUrlAsWritten, VodNameError.ResolvableVideoLostAsWritten, VodNameError.ExamplePageLostByMain | Vod.VodStreamUrl, Vod.VodResultIsFirstAcceptedCandidate |
