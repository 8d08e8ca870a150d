# yt2-mp3 decision logic, modelled in Dafny

yt2-mp3 is a small web service. It takes a YouTube URL and a bitrate,
fetches the video's audio with yt-dlp or ytdl-core, and streams it back as
an MP3 encoded by ffmpeg. A single-page front end submits the form, saves
the download, and shows a light/dark theme toggle and a URL hint.

This project models the decision logic of both halves. It leaves out the
I/O around that logic.

- **Request admission.** `UrlPolicy` is the host allowlist `isYouTubeUrl`,
  with the raw (not dot-bounded) suffix match. `Admission` checks the URL
  first, then defaults the bitrate to 320 and range-checks it against
  [64, 320].
- **Metadata.** `Metadata` holds the field mappings of the yt-dlp and
  ytdl-core info backends, the one-fallback strategy between them, and the
  `audio` / `YouTube` / id defaults.
- **File names.** `FileNaming` composes `title - artist [id].mp3` and the
  `Content-Disposition` header. `sanitize-filename` is an opaque function
  parameter.
- **Finding yt-dlp.** `Extractor` is `ensureYtDlp`. The class `Locator`
  holds the process-wide cached path. A probe tries the environment path,
  then the system `yt-dlp`, then the vendored binary, then a download.
- **Respond once.** `Pipeline` is the per-request `responded` flag with
  `onFatal` and the `end`, `exit` and `aborted` handlers. It is written
  twice: as a pure step function over event traces, and as the class
  `Conversion`, whose methods are proved to follow the step function.
- **The convert request.** `ConvertHandler.Server.HandleConvert` is
  `POST /api/convert` up to the point where streaming starts. It puts the
  pieces above together.
- **The page.** `ClientDownload` covers reading the file name out of
  `Content-Disposition` (the `/filename="?([^";]+)"?/i` expression), the
  error-message fallback, the status line, and restoring the submit
  button. `ClientTheme` is the theme toggle and its icon. `ClientUrlHint`
  is the red/grey URL hint.
- **Shared helpers.** `JsValues` and `JsStrings` model the JavaScript
  semantics the code relies on: truthiness, `||`, ASCII `toLowerCase` on
  host names, `endsWith`, `includes`, `trim` over the ECMAScript white-space
  set, and decimal rendering.

Outside inputs are passed in as parameters:

- What `new URL(url).hostname` yields: `Option<string>`, where `None` means
  the parser threw.
- The value of `Number(bitrate)`: `NumberValue`.
- The probe answers: `Extractor.Probes`.
- What each info backend returns: `None` means it threw.
- What `extractIdFromUrl` returns: `urlId`.
- `sanitize`: a `string -> string` function.

The allowlist matches a raw suffix, so `notyoutube.com` is accepted
(`UrlPolicy.LookalikeHostAccepted`); it is not limited to subdomains.

An admitted request can still end without a stream. Node's `setHeader`
throws on a header value holding a character outside tab, U+0020 to U+007E
and U+0080 to U+00FF. So a file name with an emoji or CJK text that
`sanitize` keeps stops the handler at the `Content-Disposition` line. Nothing
is spawned and no respond-once state exists (`ConvertHandler.Reply.HeaderRefused`).

## Model

| member | source | states |
|---|---|---|
| JsValues.Or | server.js:96-98 | `a \|\| b` gives `a` when it is truthy and `b` otherwise; the result is truthy iff either operand is |
| JsValues.FirstTruthy | server.js:158-160 | a chain of `\|\|` ending in a non-empty default gives the first truthy entry, or the default when none is truthy; it is never empty |
| JsStrings.Lower | server.js:30 | lower-casing keeps the length and lower-cases every ASCII letter, character by character |
| JsStrings.LowerIdempotent | server.js:30 | lower-casing twice equals lower-casing once |
| JsStrings.EndsWithConcat | server.js:32 | any string followed by a suffix ends with that suffix |
| JsStrings.IncludesFrom | public/app.js:88 | the scan answers true iff the needle occurs at some position at or after the start |
| JsStrings.TrimStart | server.js:161 | the result is the suffix of the input from its first non-space character; everything removed is white space |
| JsStrings.TrimEnd | server.js:161 | the result is the prefix of the input up to its last non-space character; everything removed is white space |
| JsStrings.Trim | server.js:161 | the trimmed string is no longer than `TrimStart`'s result, which is no longer than the input; it is a slice of the input starting where the leading white space ends; it is empty or begins and ends with a non-space character |
| JsStrings.EndsWith | server.js:32-34 | `endsWith` holds iff the suffix occurs at the last position where it fits |
| JsStrings.Includes | public/app.js:88 | `includes` holds iff the needle occurs at some position of the text |
| JsStrings.TrimKeepsSolidEnds | public/app.js:87 | a string that neither starts nor ends with white space is unchanged by `trim` |
| JsStrings.TrimKeepsNonSpace | server.js:161 | a string holding any non-space character does not trim to the empty string |
| JsStrings.Decimal | public/app.js:33 | the rendering of a status code is non-empty, all digits, and has no leading zero |
| JsStrings.ParseDecimalOfDecimal | public/app.js:33 | reading the decimal rendering back gives the number |
| UrlPolicy.IsYouTubeUrl | server.js:27-39 | false when the URL does not parse; otherwise true iff the lower-cased host ends with `youtube.com`, equals `youtu.be`, or ends with `youtube-nocookie.com` |
| UrlPolicy.CaseInsensitive | server.js:30 | a host and its lower-cased form get the same verdict |
| UrlPolicy.AnyPrefixOfAllowedSuffixAccepted | server.js:31-35 | any lower-case text in front of `youtube.com` or `youtube-nocookie.com` is accepted |
| UrlPolicy.LookalikeHostAccepted | server.js:32 | `notyoutube.com` is accepted, because the suffix test is not bounded by a dot |
| UrlPolicy.NoCookieHostAccepted | server.js:34 | `www.youtube-nocookie.com` is accepted |
| UrlPolicy.ShortLinkIsExact | server.js:33 | `youtu.be` is accepted in any case, and `www.youtu.be` is refused |
| UrlPolicy.ForeignHostRefused | server.js:31-35 | `evil.com` is refused |
| Admission.ResolveBitrate | server.js:133 | a truthy `Number(bitrate)` is kept; NaN or 0 becomes 320 |
| Admission.InRange | server.js:134 | on the truthy values the default produces, the range test holds iff neither JavaScript comparison `b < 64` nor `b > 320` is true; an infinite bitrate is never in range |
| Admission.Admit | server.js:124-136 | admitted iff the URL is truthy and allowed and the resolved bitrate is in [64, 320]; a bad or missing URL gives 400 with the URL error whatever the bitrate; a good URL with a bad bitrate gives 400 with the bitrate error; an admitted request carries the URL and the resolved bitrate |
| Admission.UrlCheckedBeforeBitrate | server.js:127-136 | a request refused for its URL is refused with the same answer for every bitrate |
| Admission.AbsentBitrateDefaults | server.js:133 | a missing (NaN) or zero bitrate on a good URL is admitted at 320 |
| Admission.ExplicitBitrateRange | server.js:133-136 | a finite non-zero bitrate on a good URL is admitted unchanged iff 64 ≤ b ≤ 320, and gets the bitrate error otherwise |
| Metadata.FromYtDlp | server.js:94-100 | title = `title \|\| fulltitle`, uploader = `uploader \|\| channel`, channel = `channel \|\| uploader`, id = `id`; uploader is truthy iff channel is |
| Metadata.FromYtdl | server.js:109-118 | title = `videoDetails.title`, uploader = `author.name`, channel = `ownerChannelName \|\| author.name`, id = `videoId`; every field is missing when there are no `videoDetails` |
| Metadata.Resolve | server.js:138-156 | one or two info attempts; the first uses yt-dlp iff an extractor path was found; a second attempt happens iff the first failed and some extractor path (first or second lookup) is known, and it uses the other backend, so yt-dlp is never asked without a path; info is present iff the last attempt answered, and is that backend's mapping; the path held afterwards is the first path, or else the second `ensureYtDlp` result once ytdl-core failed |
| Metadata.NoInfoOnlyWhenAllFail | server.js:152-155 | info is null only when ytdl-core failed, and yt-dlp failed too or was never found |
| Metadata.Normalize | server.js:158-160 | title = `info.title \|\| 'audio'`, artist = `uploader \|\| channel \|\| 'YouTube'`, id = `info.id \|\| urlId`; title and artist are never empty; without info the tags are `audio`, `YouTube`, `urlId` |
| Metadata.YtDlpTags | server.js:158-160 | through the yt-dlp mapping, title = `title \|\| fulltitle \|\| 'audio'` and artist = `uploader \|\| channel \|\| 'YouTube'` on the raw JSON fields |
| Metadata.YtdlArtist | server.js:158-159 | through the ytdl-core mapping, artist = `author.name \|\| ownerChannelName \|\| 'YouTube'` |
| FileNaming.Stem | server.js:161 | `title - artist` when the artist is non-empty, otherwise the title alone |
| FileNaming.BaseName | server.js:161 | the sanitised, trimmed stem when that is non-empty, otherwise `audio`; never empty |
| FileNaming.Unsanitized | server.js:162 | the string handed to the second `sanitize` starts with the base name and ends with `.mp3` |
| FileNaming.DispositionHeader | server.js:166 | the header is the file name plus 23 characters of framing |
| FileNaming.IdSuffixIffNonEmpty | server.js:162 | after the base name comes exactly `.mp3` iff the id is empty, and ` [id].mp3` otherwise |
| FileNaming.UnsanitizedInjective | server.js:162 | for one base name, different ids give different strings before sanitising |
| FileNaming.StemUntrimmedForSolidTags | server.js:161 | with a non-empty artist and no outer white space, `sanitize` receives exactly `title - artist` |
| FileNaming.FileNameWhenNothingStripped | server.js:161-162 | when `sanitize` leaves both strings alone, the file name is the trimmed `title - artist`, then ` [id]` when there is an id, then `.mp3` |
| FileNaming.StemNeverTrimsAway | server.js:161 | with a non-empty artist, the trimmed stem is never empty |
| Extractor.CandidateOrderShape | server.js:51-74 | the candidate order is env path, system, vendored, download, with the env path present iff it is set |
| Extractor.EnsureResult | server.js:49-75 | a cached path is returned as is; with no cache the probe's path is returned; null only when there is no cache and every candidate failed |
| Extractor.FirstSuccess | server.js:49-75 | the candidates tried are a prefix of the order, and all but the last of them failed; a path is found iff the last one tried succeeded, and it is that candidate's path; when nothing is found, every candidate was tried |
| Extractor.TailScan | server.js:54-74 | after the environment path, the scan goes system `yt-dlp` (exit code 0), then the vendored binary, then the download; the first success gives `yt-dlp` or the local path |
| Extractor.ProbeIsChain | server.js:51-74 | the probe equals the chain of tests `ensureYtDlp` writes, with the candidates tried in order; the environment path is tried only when it is set |
| Extractor.ProbeOrderFacts | server.js:51-74 | the probe tries a non-empty prefix of the candidate order; a set environment path is tried first; the system binary is tried unless the environment path succeeded; a path found is the set environment path, `yt-dlp` or the local path; null means every candidate was tried and failed |
| Extractor.Locator.constructor | server.js:42-45 | the environment and local paths are fixed and nothing is cached |
| Extractor.Locator.Ensure | server.js:49-75 | with a cached path: returns it and probes nothing; otherwise: returns the first successful candidate, caches it and records exactly the probes tried; on total failure: returns null and the cache stays unset |
| Pipeline.OnFatal | server.js:190-197 | after `onFatal`, `responded` is set and effects were only appended; exactly one 500 is added iff `responded` was not yet set, and otherwise nothing changes |
| Pipeline.Step | server.js:176-224 | an event never clears `responded` and only appends effects; it adds at most one 500, exactly when `responded` was not set and the event is a fatal error or a non-zero or null yt-dlp exit, and a 500 always leaves `responded` set |
| Pipeline.Run | server.js:176-224 | over a trace, effects are only appended; once `responded` is set it stays set and no 500 is added |
| Pipeline.FirstFatalTearsDown | server.js:190-197 | the first fatal error sets `responded`, ends with 500, destroys the source, and kills the process when there is one |
| Pipeline.ExitIgnoredWhenCleanOrResponded | server.js:176-178 | an exit with code 0, or any exit after `responded`, changes nothing |
| Pipeline.BadExitIsFatal | server.js:176-178 | a non-zero or null exit code before `responded` acts as a yt-dlp fatal error |
| Pipeline.AbortDoesNotRespond | server.js:200-203 | `aborted` tears down the source and process but leaves `responded` alone and sends no 500 |
| Pipeline.RunAppend | server.js:188-229 | handling two event traces in turn equals handling their concatenation |
| Pipeline.RunFailures | server.js:190-197 | once `responded` is set it stays set and no further 500 is sent; otherwise at most one 500 is sent, and it sets `responded` |
| Pipeline.AtMostOneFailure | server.js:190-197 | from the start, any event trace ends the response with 500 at most once |
| Pipeline.NoFailureAfterEnd | server.js:221-224 | after ffmpeg's `end`, no later event sends a 500 |
| Pipeline.AbortThenFatalStillResponds | server.js:200-203 | after a client abort, a fatal error still ends the response with 500 and tears down again |
| Pipeline.Conversion.constructor | server.js:188 | a new request starts with `responded` false and no effects |
| Pipeline.Conversion.OnFatal | server.js:190-197 | a no-op once `responded` is set; otherwise sets it and appends the 500 end and the teardown; agrees with the step function |
| Pipeline.Conversion.OnEnd | server.js:221-224 | sets `responded` and does nothing else |
| Pipeline.Conversion.OnExit | server.js:176-178 | agrees with the step function; a clean exit, or any exit after `responded`, leaves the state unchanged |
| Pipeline.Conversion.OnAborted | server.js:200-203 | appends the teardown and keeps `responded` |
| ConvertHandler.DispositionValidIffName | server.js:166 | the framing of `Content-Disposition` is valid header text, so the header is accepted iff the file name is |
| ConvertHandler.StreamingReply | server.js:158-186 | the handler streams iff the composed file name is valid header text and stops at `setHeader` otherwise; a stream is `audio/mpeg` with the requested bitrate, the normalised (non-empty) title and artist, the `Content-Disposition` of the composed file name, and the yt-dlp source iff an extractor path is held |
| ConvertHandler.WideTitleNotStreamed | server.js:161-166 | a file name holding a character above U+00FF is never streamed |
| ConvertHandler.Server.constructor | server.js:42-45 | the extractor cache starts empty |
| ConvertHandler.Server.FetchInfo | server.js:138-156 | the metadata and the path held are those of `Resolve` over the first and second `ensureYtDlp` results; the cache ends up holding that path; with no cache at the start, the probes recorded are the first lookup's and then the second's iff the second lookup happens; a cached path is never re-probed |
| ConvertHandler.Server.HandleConvert | server.js:124-186 | a refused request gets the admission error and touches neither the extractor cache nor any probe; an admitted one caches the path `Resolve` holds, records the probes of the first and (iff needed) second lookup, and gets the reply built from the resolution; a stream comes with a fresh respond-once state, and a header refusal with none |
| ClientDownload.RunFrom | public/app.js:38 | the capture is the longest run without `"` or `;` from the given position |
| ClientDownload.MatchFrom | public/app.js:38 | the index of the leftmost case-insensitive `filename=` followed by a non-empty capture, or none when no position matches |
| ClientDownload.FileNameFromDisposition | public/app.js:37-39 | a missing header reads as ""; the name is never empty and has no `"` or `;`; it is `audio.mp3` when nothing matches, and otherwise the capture at the leftmost match |
| ClientDownload.SkipNonMatches | public/app.js:38 | positions without a match do not change the scan's result |
| ClientDownload.RunIsExactly | public/app.js:38 | a clean name followed by a stop character is captured exactly |
| ClientDownload.HeaderLayout | server.js:166 | in the server's header the key occurs first at position 12, followed by the quote, the name and the closing quote |
| ClientDownload.DispositionRoundTrip | public/app.js:37-39 | for a non-empty name without `"` or `;`, the page reads back exactly the name in the server's header, when the browser exposes that header to the page |
| ClientDownload.SemicolonTruncates | public/app.js:38 | a `;` in the name cuts the name read back to the text before it |
| ClientDownload.MissingHeaderFallsBack | public/app.js:37-39 | with no header the file is called `audio.mp3` |
| ClientDownload.ErrorMessage | public/app.js:31-34 | `problem.error` when it is truthy, otherwise `Server error: <status>`; a body that is not JSON counts as `{}`; never empty |
| ClientDownload.StatusRecoverable | public/app.js:33 | without an `error` field, the message is the prefix followed by digits that read back as the status |
| ClientDownload.FinalStatus | public/app.js:52-55 | the status is an error iff the download was not delivered; a delivery shows the extracted name; a non-OK response shows the error message; a throw shows its message or `Conversion failed` |
| ClientDownload.ConvertForm.constructor | public/app.js:16-17 | the button starts enabled with the given text |
| ClientDownload.ConvertForm.Begin | public/app.js:15-19 | shows the starting status, returns the original text, and disables the button with `Converting...` |
| ClientDownload.ConvertForm.Finish | public/app.js:31-58 | sets the final status for the outcome and re-enables the button with the text it is given |
| ClientDownload.ConvertForm.Submit | public/app.js:13-60 | whatever the outcome, the button ends enabled with its original text, and the status is the outcome's final status |
| ClientTheme.ThemeOrLight | public/app.js:66-71 | the saved preference and the current attribute are each read as the value itself when it is truthy, and as `light` when it is missing or empty |
| ClientTheme.NextTheme | public/app.js:72 | next is `light` iff current is `dark`, and `dark` otherwise |
| ClientTheme.IconFor | public/app.js:68 | the icon is the sun iff the theme is `dark`, and the moon otherwise |
| ClientTheme.ToggleTwiceRestores | public/app.js:72 | two toggles from `light` or `dark` return to the start |
| ClientTheme.ToggleTwiceFromUnknown | public/app.js:71-72 | from any other theme value, one toggle gives `dark` and two give `light` |
| ClientTheme.ThemeToggle.constructor | public/app.js:66-68 | the saved theme (default `light`) is applied with its icon, and storage is only read |
| ClientTheme.ThemeToggle.Click | public/app.js:70-76 | the next theme is applied, shown by the icon and saved under `theme`; the icon keeps matching the theme |
| ClientUrlHint.WarningMeaning | public/app.js:87-88 | the hint is on iff the trimmed text is non-empty and neither `youtube.com` nor `youtu.be` occurs anywhere in it |
| ClientUrlHint.HintLooserThanServer | public/app.js:88 | `https://evil.com/youtube.com` raises no hint, yet the server refuses `evil.com` |
| ClientUrlHint.NoKeywordInNoCookieUrl | public/app.js:88 | neither keyword occurs in `https://www.youtube-nocookie.com/embed/x` |
| ClientUrlHint.NoCookieAddressFlagged | public/app.js:88 | `https://www.youtube-nocookie.com/embed/x` gets the red hint, although the server accepts its host `www.youtube-nocookie.com` |
| ClientUrlHint.UrlField.constructor | public/app.js:85 | the field starts with the given classes |
| ClientUrlHint.UrlField.OnInput | public/app.js:86-95 | red iff the trimmed input is non-empty and contains neither `youtube.com` nor `youtu.be`; grey iff not; exactly one of the two is present; other classes are kept |

## Left out

- Express routing, middleware, CORS, static files, the health endpoint and
  `app.listen`: HTTP plumbing. A response is modelled only as a status and
  an error text, or as the streaming reply's headers and parameters.
- `spawn`/`execFile`, ffmpeg (fluent-ffmpeg), ytdl-core streaming,
  `YTDlpWrap.downloadFromGithub` and the `fs` access checks: external
  processes, network and file I/O. Their outcomes are inputs (`Probes`,
  the info backends' answers, the event trace).
- The argument lists of `spawnYtDlpAudio` and of the `execFile` call: they
  only configure those processes.
- The ffmpeg metadata options and the piping of the encoded stream into the
  response: the reply only records the tags and bitrate ffmpeg is given.
- `sanitize-filename`, `new URL`, `ytdl.getURLVideoID` and `JSON.parse`:
  they are foreign library calls, so nothing is assumed about what they do.
  Their results are parameters.
- `Number()` conversion of the bitrate: its result is an input
  (`NumberValue`).
- A `url` field that is truthy but not a string, a non-string `error` field
  and a JSON `null` error body: the model types these fields as strings or
  missing.
- Logging (pino, `console.error`): it has no effect on behaviour.
- Pipeline.Step: a second `error` event of the yt-dlp process or of the
  ytdl-core stream counts as a later fatal error, which is a no-op. In the
  source those two listeners are registered with `once` (server.js:175,
  185), so a second `error` finds no listener and Node raises it as an
  uncaught exception. The model does not capture that crash.
- ConvertHandler.Server.HandleConvert: when `setHeader` throws, the
  handler's promise is rejected. How Express answers that, if at all, is
  not part of this model; the reply only records that the handler stopped.
- Timing and races between handlers and between concurrent requests: events
  form one sequential trace, and each `ensureYtDlp` call is atomic.
- The DOM, `fetch`, Blob and object URLs, and the `localStorage` I/O of the
  page: they are kept only as fields (theme attribute, stored theme, button,
  status line, class list) and as the `Outcome` of a submission.
- The `setStatus` CSS class string: the status line is modelled as its
  text and an error flag.
- The `DOMContentLoaded` wrapper (public/app.js:79-96): the model assumes that
  the form holds a `button[type="submit"]` and that the script runs before
  `DOMContentLoaded` fires. Otherwise line 82 throws, or the listener never
  fires, and the URL hint (`ClientUrlHint.UrlField.OnInput`) is never
  installed. The unused `convertBtn`/`originalHTML` have no other effect.
- Which response headers the browser exposes: `ClientDownload.Outcome.Delivered`
  takes `Content-Disposition` as the page sees it. The page fetches from the
  absolute endpoint of public/app.js:6, and `cors()` at server.js:20 sets no
  `Access-Control-Expose-Headers`. So on a cross-origin deployment the browser
  hides the header, `headers.get` yields `null`, and every download is named
  `audio.mp3` (`ClientDownload.MissingHeaderFallsBack`).
  `ClientDownload.DispositionRoundTrip` holds when the header is exposed.
- scripts/fetch-ytdlp.js: an install-time file check and download. It is
  not part of this model.
- Determinism of the file name: there is no separate lemma that the name is a
  deterministic function of title, artist and id (`FileNaming.FileName`). Dafny functions are
  deterministic, so this holds by construction.
- Case folding in the file-name expression: `ClientDownload.KeyAt` folds ASCII letters only. That is exact for the
  key `filename=`, because a case-insensitive non-Unicode JavaScript
  expression maps no non-ASCII character onto an ASCII letter.
