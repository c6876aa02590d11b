# mstudioapp job orchestration, in Dafny

mstudioapp is a Next.js studio for AI audio work. Its panels send a job to a
provider, then follow it to an artifact:

- **Generation panels.** The audio-to-audio and text-to-audio panels submit a
  generation to the WaveSpeed prediction API. They dig the request id out of
  the answer and poll the result endpoint on an interval until the provider
  reports success or failure.
- **Dubbing panel.** It does the same against the application's own dubbing
  route, then downloads the dubbed track.

Around that core sit a few small pure pieces:

- the WaveSpeed adapter;
- the producer panel's prompt composition and key, mood and role selectors;
- the audio-isolation result chain;
- the music-generation route;
- the dashboard guard;
- the player's `m:ss` clock.

The model is written in the source's own form:

- **Pure pieces** become datatypes and functions, with lemmas stating what
  they promise.
- **Panels** become a state datatype plus pure step functions, one per
  handler. The lemmas about the panels are stated over these step functions.
- **Classes.** Each panel also becomes a `class` whose fields are the
  component's state. Its methods update the fields step by step, and each
  method proves that the new state is the one the step function gives.
- **Timers.** The browser's interval timers and `pollingIntervalRef` are an
  explicit table of running intervals (`Intervals.Table`).
- **Asynchronous calls.** Each `await` is taken as atomic: a submission is one
  step given the creation answer, and a timer firing is one step given the
  poll answer.
- **Effects.** Network answers, the API key and the session token are
  parameters. Every step returns the HTTP request it sends, if any.

Things the proofs bring out:

- **The picker skips the type check.** Only drops are filtered by MIME type.
  A file chosen in a picker goes straight into its slot, so the dubbing
  panel will send a transcript that the browser reports as a spreadsheet if
  it was picked, and refuse it if it was dropped (`PickedSpreadsheetIsSent`).
  The isolation panel behaves the same way for files that are not audio.
- **Two submissions leak a timer.** `startPolling` overwrites the ref without
  clearing the old interval. "At most one interval, held by the ref" therefore
  holds only because the submit button is disabled while loading.
  `SubmitKeepsInv` needs `!isLoading`, and `SecondSubmitLeaks` shows the leak
  without that guard.
- **Picking a file mid-run stalls the audio-to-audio panel.** Choosing a file
  changes `fileUrl`, whose effect cleanup clears the running interval. The
  panel stays `isLoading` and `isPolling` with no timer left to end them
  (`SelectFileStopsPoller`). The dubbing panel's download also changes the
  result and so runs the same cleanup (`DownloadStopsPoller`), but there it
  stops nothing: the download button is rendered only once the status is
  "dubbed" (components/Dubbing.tsx:436), and the tick that read that status
  has already cleared the interval and ended loading
  (components/Dubbing.tsx:100-105).
- **The "Invalid request ID" branch is dead.** The tick's check can never fire
  after a normal submission, because only truthy ids start an interval
  (`TickAlwaysPolls`). The polling API-key check is dead for the same kind of
  reason: the submission has already checked the key.
- **The matcher narrows the guard.** The middleware function redirects any
  path that starts with "/dashboard". Its matcher only runs it on
  "/dashboard" and "/dashboard/…", so a path such as "/dashboards" is not
  guarded (`MatcherNarrowsDashboard`).

## Model

| member | source | states |
|---|---|---|
| WavespeedApi.ParseStatus | lib/wavespeed-api.ts:33 | a provider string is recognised as a status only when it is one of the six literals, and then it names that status |
| WavespeedApi.StatusNamesRoundTrip | lib/wavespeed-api.ts:33 | each of the six status literals reads back as its own status, so the six are distinct |
| WavespeedApi.SubmitCall | lib/wavespeed-api.ts:52-59 | a submission is a POST whose body is the request record, with `Authorization: Bearer <key>` and a JSON content type |
| WavespeedApi.PollResult | lib/wavespeed-api.ts:115-120 | a poll is a GET of base + "/predictions/" + id + "/result", with no body, the bearer header and no content type |
| WavespeedApi.EndpointsDistinct | lib/wavespeed-api.ts:52-94 | the three submission endpoints are distinct URLs, and none of the three is the poll URL |
| WavespeedApi.SubmitBodies | lib/wavespeed-api.ts:48-80 | a submission sends exactly the record's fields, and the optional seed or sample rate only when it is set |
| ResponseNormalizer.NextSlash | components/AudioToAudio.tsx:192 | finds the first '/' at or after a position; none lies between, and no result means none lies after |
| ResponseNormalizer.LeftmostMatch | components/AudioToAudio.tsx:192 | finds the leftmost position where `/\/predictions\/([^\/]+)\//` matches, and no earlier position matches |
| ResponseNormalizer.MatchPredictionId | components/AudioToAudio.tsx:192 | a captured id is non-empty and holds no '/' |
| ResponseNormalizer.MatchAfterPrefix | components/AudioToAudio.tsx:191-196 | after a text that contains no "/p", the pattern captures exactly the segment between "/predictions/" and the next '/' |
| ResponseNormalizer.PollUrlRoundTrip | lib/wavespeed-api.ts:115 | for a non-empty id without '/', the id-from-URL pattern recovers the id from the poll URL the adapter builds |
| ResponseNormalizer.ExtractRequestId | components/AudioToAudio.tsx:184-201 | an id found by the fallback chain is always truthy |
| ResponseNormalizer.ExtractRecognizesShapes | components/AudioToAudio.tsx:184-201 | each response shape yields the id it carries: top-level id, id under `data`, polling URL, or an alternate field (each with or without `data`) |
| ResponseNormalizer.IdShortCircuits | components/AudioToAudio.tsx:187-188 | once the payload has a truthy `id`, that is the id and no other field is consulted |
| ResponseNormalizer.TopLevelIdIgnoredUnderWrapper | components/AudioToAudio.tsx:187-188 | under a truthy `data` wrapper, a top-level `id` changes nothing |
| ResponseNormalizer.AlternateFieldOrder | components/AudioToAudio.tsx:199-201 | without an id or a polling URL, the alternates are tried in order: `data.prediction_id`, `data.request_id`, `prediction_id`, `request_id`; if none is truthy, nothing is found |
| ResponseNormalizer.ClassifyFollowsStatusDomain | components/AudioToAudio.tsx:104-126 | a tick ends in success only on "succeeded" or "completed" and in failure only on "failed", and a failure always carries a truthy message; "starting", "processing" and "created" keep polling |
| ResponseNormalizer.ClassifyMatchesExpected | components/AudioToAudio.tsx:95-126 | for a well-formed answer, bare or wrapped, the outcome is one of three. (1) Success-like status with output gives success, preferring `outputs[0]` over `output`. (2) "failed" gives the provider's error, or "Generation failed". (3) Anything else gives pending. |
| ResponseNormalizer.EnvelopeTransparent | components/TextToAudio.tsx:43-50 | wrapping an answer in a `data` envelope does not change its outcome |
| Intervals.Start | components/AudioToAudio.tsx:79 | `setInterval` adds a fresh interval with the captured id and the ref now holds it; every running interval keeps running |
| Intervals.ClearCurrent | components/AudioToAudio.tsx:108-110 | exactly the interval the ref holds stops; the ref keeps its value |
| Intervals.ClearCurrentIdempotent | components/AudioToAudio.tsx:135-139 | clearing a second time changes nothing |
| Intervals.ClearSingleStopsAll | components/AudioToAudio.tsx:107-110 | when only the ref's interval runs, clearing it stops every interval |
| Intervals.StartQuietIsSingle | components/AudioToAudio.tsx:78-79 | starting with nothing running leaves exactly one interval, the ref's |
| Intervals.StartWhileLiveLeaks | components/AudioToAudio.tsx:79 | starting while an interval runs orphans it: it keeps running, and clearing the ref no longer reaches it |
| GenerationPanel.RequestFor | components/AudioToAudio.tsx:170-180 | a remix is sent with seed -1 and the file's data URL; a text generation is sent with sample rate 44100 and the prompt |
| GenerationPanel.SubmitPreconditions | components/AudioToAudio.tsx:151-160 | without a file (audio-to-audio) or an API key, the error is set and no request is sent; loading, polling and the timers are left as they were |
| GenerationPanel.SubmitClearsResult | components/AudioToAudio.tsx:148-149 | every submission clears the previous result |
| GenerationPanel.SubmitFailures | components/AudioToAudio.tsx:203-216 | a rejected or failed call, or an answer without an id, ends loading with the matching message and starts no interval |
| GenerationPanel.SubmitStartsPolling | components/AudioToAudio.tsx:210-212 | a found id is recorded and polled by one new interval held in the ref, with loading and polling on |
| GenerationPanel.TickTerminalStops | components/AudioToAudio.tsx:105-125 | a success or failure tick turns polling and loading off and leaves no interval running |
| GenerationPanel.TickOutcomeShown | components/AudioToAudio.tsx:105-125 | success shows the artifact only when it is truthy; failure shows the provider's message; pending changes nothing |
| GenerationPanel.TickNonTerminalKeepsState | components/AudioToAudio.tsx:104-129 | a tick whose poll throws, or whose answer is not terminal, changes no state and polls the captured id |
| GenerationPanel.TickAudioUrlOnlyOnSuccess | components/AudioToAudio.tsx:112-117 | the result on screen changes only through a successful answer, and only to a truthy value |
| GenerationPanel.TickInvalidId | components/TextToAudio.tsx:29-38 | an interval with a falsy id stops itself with "Invalid request ID" and never calls the provider |
| GenerationPanel.TickAlwaysPolls | components/TextToAudio.tsx:29-40 | under the one-poller discipline, every tick polls the provider |
| GenerationPanel.InitialInv | components/AudioToAudio.tsx:15-21 | the fresh panel is idle and keeps the one-poller discipline |
| GenerationPanel.SubmitKeepsInv | components/AudioToAudio.tsx:332 | a submission while not loading (the button is disabled otherwise) keeps the one-poller discipline |
| GenerationPanel.SecondSubmitLeaks | components/AudioToAudio.tsx:79 | a submission while an interval runs breaks the discipline |
| GenerationPanel.TickKeepsInv | components/AudioToAudio.tsx:79-130 | every tick keeps the one-poller discipline |
| GenerationPanel.UnmountStopsAll | components/TextToAudio.tsx:83-89 | unmounting leaves no interval running |
| GenerationPanel.SelectFileStopsPoller | components/AudioToAudio.tsx:135-144 | choosing a file stops the running interval but leaves loading and polling on |
| GenerationPanel.RunCompletes | components/TextToAudio.tsx:18-81 | from a fresh panel, a submission starts interval 1, and a successful first tick shows the artifact and leaves the panel idle with no interval |
| GenerationPanel.Panel.constructor | components/AudioToAudio.tsx:8-21 | the panel starts in the initial state |
| GenerationPanel.Panel.SelectFile | components/AudioToAudio.tsx:135-144 | selecting a file records it and runs the cleanup that clears the ref's interval |
| GenerationPanel.Panel.Unmount | components/TextToAudio.tsx:83-89 | unmounting clears the ref's interval |
| GenerationPanel.Panel.StartPolling | components/AudioToAudio.tsx:70-79 | starts an interval for the id and turns polling on, or shows the key error |
| GenerationPanel.Panel.Submit | components/AudioToAudio.tsx:146-217 | the field updates of `handleSubmit` give the state and request of the submission step |
| GenerationPanel.Panel.Tick | components/AudioToAudio.tsx:79-130 | the field updates of the interval callback give the state and request of the tick step |
| Dubbing.FormFields | components/Dubbing.tsx:198-210 | the multipart form starts with `file` and ends with `target_lang`, and carries each optional file exactly when it was chosen |
| Dubbing.AcceptsByType | components/Dubbing.tsx:79-85 | the main slot takes audio or video, the CSV slot only "text/csv", and the stem slots only audio |
| Dubbing.DropFillsOnlyItsSlot | components/Dubbing.tsx:73-89 | a drop fills only its own slot, exactly when the slot accepts the type |
| Dubbing.PickIgnoresType | components/Dubbing.tsx:56-67 | a picked file fills its slot whatever its type and no other slot; a drop agrees with the pick exactly when the slot accepts the type or is already filled |
| Dubbing.PickedSpreadsheetIsSent | components/Dubbing.tsx:293-297 | a transcript reported as "application/vnd.ms-excel" is left out of the form when dropped and included when picked |
| Dubbing.SubmitResets | components/Dubbing.tsx:181-193 | every submission clears the result and the status; the duration is cleared unless a new answer carries a truthy one; without a media file the panel sets the error, keeps its loading flag and sends nothing, and with one it sends the creation request |
| Dubbing.SubmitWithoutIdStops | components/Dubbing.tsx:217-239 | an answer without a truthy `dubbing_id` ends loading with an error ("No dubbing ID received from API", or the route's `error`) and starts no poller |
| Dubbing.SubmitStartsPolling | components/Dubbing.tsx:222-235 | an answer with a truthy id records it and the expected duration (when truthy), and one new interval polls it |
| Dubbing.TickStatusRules | components/Dubbing.tsx:97-115 | every fetched status is stored. "dubbed" stops polling with no error; "failed" and "error" stop it with "Dubbing failed"; any other status changes nothing else. |
| Dubbing.TickFailureKeepsState | components/Dubbing.tsx:91-119 | a non-ok or thrown status check changes nothing, and polling goes on |
| Dubbing.DownloadRules | components/Dubbing.tsx:142-176 | a download needs both an id and a status; otherwise only the error changes. A fetched track becomes the result; a refused one without JSON shows "Download failed". Whenever it is sent, the request is the download of the job's id in the chosen language. |
| Dubbing.DownloadLanguageChoice | components/Dubbing.tsx:149 | the job's first target language is downloaded when it is non-empty, and otherwise the selected language, including when the status carries no `target_languages` at all |
| Dubbing.InitialInv | components/Dubbing.tsx:24-31 | the fresh panel targets "es" and keeps the one-poller discipline |
| Dubbing.SubmitKeepsInv | components/Dubbing.tsx:400 | a submission while not loading keeps the discipline |
| Dubbing.TickKeepsInv | components/Dubbing.tsx:121-129 | every status check keeps the discipline |
| Dubbing.DownloadStopsPoller | components/Dubbing.tsx:131-140 | a download that sets a new result runs the effect cleanup, which clears any interval still live and leaves loading as it was (from the panel no interval is live then, since the button needs a "dubbed" status) |
| Dubbing.UnmountStopsAll | components/Dubbing.tsx:131-135 | unmounting leaves no interval running |
| Dubbing.DubbingPanel.constructor | components/Dubbing.tsx:20-36 | the panel starts in the initial state |
| Dubbing.DubbingPanel.SelectLanguage | components/Dubbing.tsx:385 | only the target language changes |
| Dubbing.DubbingPanel.Pick | components/Dubbing.tsx:56-67 | a picker's choice sets exactly the flag of its slot |
| Dubbing.DubbingPanel.Drop | components/Dubbing.tsx:73-89 | the field updates give the drop step |
| Dubbing.DubbingPanel.UpdateAudioUrl | components/Dubbing.tsx:131-140 | a changed result runs the cleanup that clears the ref's interval |
| Dubbing.DubbingPanel.Reset | components/Dubbing.tsx:181-188 | clears the error, result, status and duration |
| Dubbing.DubbingPanel.ReceiveCreation | components/Dubbing.tsx:217-239 | the field updates give the creation step |
| Dubbing.DubbingPanel.Submit | components/Dubbing.tsx:179-241 | the field updates of `handleSubmit` give the submission step and its request |
| Dubbing.DubbingPanel.Tick | components/Dubbing.tsx:91-119 | the field updates of `checkDubbingStatus` give the tick step and its request |
| Dubbing.DubbingPanel.Download | components/Dubbing.tsx:142-177 | the field updates of `handleDownload` give the download step and its request |
| Dubbing.DubbingPanel.Unmount | components/Dubbing.tsx:131-135 | unmounting clears the ref's interval |
| MusicProducers.BasePrompt | components/MusicProducers.tsx:97 | the result starts with the prompt and is exactly the prompt without lyrics; with lyrics, a blank line and the lyrics follow |
| MusicProducers.BuildEnhancedPrompt | components/MusicProducers.tsx:63-88 | the result starts with the base prompt and is the base prompt unchanged when no setting is on; otherwise a blank line and the additions joined by ", " follow |
| MusicProducers.AdditionsInOrder | components/MusicProducers.tsx:67-81 | each setting that is on contributes one addition, in the order tempo, key, mood, role |
| MusicProducers.BpmReadsBack | components/MusicProducers.tsx:67-69 | a tempo that is absent or at most 0 adds nothing; a positive tempo is written in decimal and reads back as itself |
| MusicProducers.ShownParts | components/MusicProducers.tsx:211-227 | for a key the selectors can produce, the two selects show its name and its type |
| MusicProducers.SelectBaseUsesShownType | components/MusicProducers.tsx:212-215 | choosing a base appends the type the type select shows; the empty base gives "" |
| MusicProducers.SelectBaseKeepsType | components/MusicProducers.tsx:212-215 | choosing a base keeps the " Major" or " Minor" suffix; the empty base clears the key |
| MusicProducers.SelectTypeKeepsBase | components/MusicProducers.tsx:228-231 | choosing a type gives base + " " + type, or just the base when the type is empty; without a base the key stays "" |
| MusicProducers.Toggle | components/MusicProducers.tsx:253 | clicking the selected option clears it, and clicking any other option selects it |
| MusicProducers.ToggleTwice | components/MusicProducers.tsx:274 | two clicks on one option return to it when it was selected, and otherwise clear the selection |
| AudioIsolation.FirstTruthy | components/AudioIsolation.tsx:87-88 | the first truthy value of a list; none exactly when every value is falsy |
| AudioIsolation.JsonFieldOrder | components/AudioIsolation.tsx:84-96 | a JSON answer names its track by the first truthy of `url`, `audio_url`, `output`, `audio`; with none, "Unexpected response format from API" |
| AudioIsolation.BlobPathIgnoresBody | components/AudioIsolation.tsx:82-101 | a missing or non-JSON content type always takes the blob path, whatever the body |
| AudioIsolation.FailureMessages | components/AudioIsolation.tsx:76-79 | a non-ok answer shows the body's `error`; a JSON body without one shows "HTTP error! status: N"; a non-JSON body shows "Unknown error" |
| AudioIsolation.SubmitWithoutFile | components/AudioIsolation.tsx:60-63 | without a file the error is set, nothing is sent, and loading is untouched |
| AudioIsolation.SubmitEndsLoading | components/AudioIsolation.tsx:67-108 | with a file, loading is off after every outcome, and exactly one of a result and an error is shown |
| AudioIsolation.IsolationPanel.constructor | components/AudioIsolation.tsx:7-11 | the panel starts in the initial state |
| AudioIsolation.PickIgnoresType | components/AudioIsolation.tsx:14-44 | into an empty panel, a file that is not audio is refused when dropped, so submitting sends nothing, but is sent when picked |
| AudioIsolation.IsolationPanel.Pick | components/AudioIsolation.tsx:37-44 | a picked file is taken whatever its type |
| AudioIsolation.IsolationPanel.Drop | components/AudioIsolation.tsx:25-35 | a dropped file is taken only when its type starts with "audio/" |
| AudioIsolation.IsolationPanel.Submit | components/AudioIsolation.tsx:55-109 | the field updates of `handleSubmit` give the submission step |
| MusicGenRoute.ApiKey | app/api/music-gen/route.ts:10 | the key is empty exactly when both variables are unset; otherwise it is one of them, the server key taking precedence |
| MusicGenRoute.Post | app/api/music-gen/route.ts:7-79 | validation runs in order: a body that does not parse, then a missing key (500), then a null body, then a falsy prompt (400). A request is sent exactly when the key and prompt are present. It posts the forwarded fields with the key header. The provider's error keeps its status; audio falls back to "audio/mpeg". |
| MusicGenRoute.ForwardedFields | app/api/music-gen/route.ts:29-43 | the prompt is always forwarded and at most four fields are. A length of 0 and a flag of false are forwarded; an empty format is not. |
| MusicGenRoute.ExtraFieldsDropped | app/api/music-gen/route.ts:19-43 | no field beyond the four ever reaches the provider |
| Middleware.DashboardNeedsToken | middleware.ts:12-19 | a "/dashboard…" page is served exactly to signed-in visitors; others go to "/login" with the page as callback |
| Middleware.AuthPagesForGuests | middleware.ts:21-26 | "/login" and "/register" are served exactly to visitors without a token; signed-in visitors go to "/dashboard" |
| Middleware.OtherPathsPass | middleware.ts:28 | every other path passes, token or not |
| Middleware.NoRedirectLoop | middleware.ts:12-28 | a redirect never targets the page asked for, and its target lets the same visitor through |
| Middleware.MatcherNarrowsDashboard | middleware.ts:31-33 | the matcher agrees with the function except on paths that only start with "/dashboard", where a guest is let through |
| AudioPlayer.Rem60 | components/AudioPlayer.tsx:96 | the remainder lies in [0, 60) for a time of zero or more and takes the sign of a negative time |
| AudioPlayer.FormatTimeIsClock | components/AudioPlayer.tsx:94-98 | for a time of zero or more, the clock shows the whole seconds elapsed as minutes, a colon and two-digit seconds |
| AudioPlayer.ClockReadsBack | components/AudioPlayer.tsx:97 | the seconds field is two digits; minutes and seconds read back from the text, and 60 × minutes + seconds is the floor of the time |

## Left out

- **Network, browser and file I/O.** This covers `fetch`, `FormData`, the `FileReader` data-URL upload, object URLs and their revocation, and the download anchor. Their results are parameters of the steps. A multipart body is modelled only by its field names and language.
- **Timer cadence and React scheduling.** The 3 s and 5 s periods and state batching are left out; ticks and unmounts are explicit calls.
- **Interleaving.** A poll still in flight when its interval is cleared is not modelled, because each `await` is atomic.
- **Console logging** is left out.
- **Number values.** Numbers read from JSON answers and request bodies, and the tempo field, are modelled as integers; NaN, fractions and the number input's conversion of the tempo field are not modelled. The audio player's clock is the exception: `formatTime` is modelled over reals, with JavaScript's truncating `%` and `Math.floor`, and only NaN and infinities are left out there.
- **TypeError wording.** The messages of the engine's TypeErrors (reading a property of `null`, `match` on a non-string, destructuring `null`) are written in V8's wording.
- **Non-Error throws.** A thrown value that is not an `Error` (the "An error occurred" fallbacks) is left out; every exception is modelled by its message.
- **Disabled-button conditions.** The text-to-audio button is also disabled without a prompt or lyrics. The handler does not check these, so neither does the model.
- **Provider adapter failures.** Only the submit calls' errors are modelled; the poll's errors are swallowed by the tick anyway. The inpaint submission has no caller in the core.
- **Producer panel.** The producer panel's progress bar and its request to the music route are left out.
- MusicProducers.SelectBase: the `.trim()` of the new key is not modelled, because it is the identity on keys built from the key list.
- **Other files.** The proxy routes, the other panels, authentication pages, the seek and volume controls of the player, layout and styling are not part of this model.
