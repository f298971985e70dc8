# ConnectHER client core, in Dafny

A model of the logic in the ConnectHER web client (scarleta03/connecther, `frontend/`). It covers four pieces:

- **The HTTP client** (`ApiService.fetch` and `searchDoctors` in `services/api.service.ts`):
  - how the request is prepared: the URL join, and merging in the JSON content type;
  - how a failed response becomes the thrown message: a JSON body's `error` or `message`, else the status message `HTTP error! status: <status>`; a non-JSON body's text compacted and cut to 200 characters, else the status message;
  - how the doctor search builds its query from the truthy parameters only.
- **The browser voice fallback** (`utils/ttsFallback.ts`):
  - the case-insensitive test for the server's "not configured" error;
  - `speakWithBrowserTts`: it checks that a synthesizer exists, configures the utterance (language defaults to `en`, rate and pitch are 1), then cancels and speaks.
- **The landing page's narration** (`Components/Landing/Landing.tsx`):
  - `handleListen` as one run from start to finish: the per-view cache of object URLs keyed `language::text`, synthesis on a miss, pausing the previous audio, playing, and the `catch` block with its browser-voice fallback;
  - the audio element's `ended` and `error` events;
  - the unmount cleanup, which revokes every cached URL and clears the cache;
  - the navigation menu's open state.
- **The loading page's one-shot guard** (`Components/Loading/Loading.tsx`): the session flag check, the check-in submission, and the navigation after it settles.

The modules are laid out as follows:

- `Wrappers` holds `Option`, `Result` and `Outcome`.
- `JsText` writes out the JavaScript string primitives the client relies on:
  - the `\s` class;
  - `replace(/\s+/g, " ")` and `trim()`;
  - `slice(0, n)`;
  - the decimal text of an integer.
- `ApiService`, `TtsFallback`, `Landing` and `Loading` follow the four source files.

Calls the model cannot see are replaced by inputs:

- **Parsing and encoding:** `JSON.parse` is a parameter `parse: string -> ParseOutcome`, and the `URLSearchParams` encoder is a parameter `encode`.
- **How each awaited step settles:** each is an input. This covers the synthesis request, `audio.play()`, the utterance's `end`/`error` event, and the check-in submission.
- **Browser objects with state:** `window.speechSynthesis` and `sessionStorage` are classes whose fields record what was done to them.

The landing view is a class. Its fields are:

- the React state (`menuOpen`, `audioLanguage`, `isSpeaking`, `audioError`);
- a `Player` value that holds both refs (the cache with its keys in insertion order, and the current audio);
- the counters for object URLs and audio elements made;
- the log of what the view asked of the server and of playback;
- the list of revoked URLs.

`Valid()` ties them together:

- the URL cached under the i-th key is the i-th one made since the last cleanup;
- every URL made before that has been revoked.

The "Listen page" button's `disabled={isSpeaking}` reads the `isSpeaking` field. The loading page's render gate is `Renders`.

Behaviour of the code worth knowing, which the model follows:

- **Flag without check-in data (Loading).** The flag is consumed only when there is check-in data to submit. With the flag set and no `checkInData`, nothing is submitted and the flag stays set: `Mount` leaves `sessionStorage` alone, and `Settle` requires a submission.
- **JSON error body without `error`/`message`.** Such a body (e.g. `{}`, `[]`, `42`) gives `HTTP error! status: <status>`, not the raw text. A body of `null` parses, but reading `null.error` throws inside the same `try`, so it takes the raw-text branch and gives `null`.
- **Which failures try the browser voice.** The "not configured" test runs on every error caught in `handleListen`, not only on synthesis failures. A rejected `audio.play()` whose message names the unconfigured server voice also falls back.
- **`play()` rejection message.** A rejected `audio.play()` shows the rejection's own message, or "Audio unavailable right now.". The generic "Audio playback failed. Please try again." comes only from the audio element's `error` event.
- **Browser-voice notice.** The notice "Using browser voice because server text-to-speech is not configured." is written into `audioError`, the same state that holds error messages.

## Model

| member | source | states |
|---|---|---|
| JsText.TrimStart | frontend/src/services/api.service.ts:41 | the result is a suffix of the input; everything dropped is whitespace and the result does not start with whitespace |
| JsText.TrimEnd | frontend/src/services/api.service.ts:41 | the result is a prefix of the input; everything dropped is whitespace and the result does not end with whitespace |
| JsText.Trim | frontend/src/services/api.service.ts:41 | `trim()` leaves no whitespace at either end, and is empty exactly when the input is all whitespace |
| JsText.TrimKeeps | frontend/src/services/api.service.ts:41 | trimming keeps every non-whitespace character in order, and keeps single spacing |
| JsText.DropLeadingSpaces | frontend/src/services/api.service.ts:41 | dropping a whitespace prefix keeps the other characters and single spacing |
| JsText.DropTrailingSpaces | frontend/src/services/api.service.ts:41 | dropping a whitespace suffix keeps the other characters and single spacing |
| JsText.CollapseSpaces | frontend/src/services/api.service.ts:41 | `replace(/\s+/g, " ")` is no longer than its input, empty only for empty input, and starts with whitespace exactly when the input does |
| JsText.CollapseKeeps | frontend/src/services/api.service.ts:41 | after the collapse all whitespace is single ordinary spaces, and the non-whitespace characters are those of the input, in order |
| JsText.Compact | frontend/src/services/api.service.ts:41-42 | the compacted text is empty exactly when the body is all whitespace, is trimmed and single-spaced, and keeps every other character in order |
| JsText.CollapseWord | frontend/src/services/api.service.ts:41 | a run without whitespace passes through the collapse unchanged |
| JsText.CollapseRun | frontend/src/services/api.service.ts:41 | a whole whitespace run before a non-space becomes exactly one space |
| JsText.TrimStartPast | frontend/src/services/api.service.ts:41 | leading whitespace before a non-space is removed exactly |
| JsText.TrimEndPast | frontend/src/services/api.service.ts:41 | trailing whitespace after a non-space is removed exactly |
| JsText.CollapsePaddedWord | frontend/src/services/api.service.ts:41 | a word padded with whitespace collapses to the word with at most one space on each side |
| JsText.CompactPaddedWord | frontend/src/services/api.service.ts:41 | compacting a single word padded with whitespace gives back exactly the word |
| JsText.Take | frontend/src/services/api.service.ts:43 | `slice(0, n)` is a prefix of the string: the whole string when it is no longer than `n`, and otherwise exactly its first `n` characters |
| JsText.DigitsRoundTrip | frontend/src/services/api.service.ts:31 | reading back the decimal digits of `n` gives `n` |
| JsText.DecimalStringInjective | frontend/src/services/api.service.ts:31 | distinct integers have distinct decimal texts (`String(n)`) |
| ApiService.DefaultMessage | frontend/src/services/api.service.ts:31 | the default message is `HTTP error! status: ` followed by exactly the decimal text of the status |
| ApiService.DefaultMessageInjective | frontend/src/services/api.service.ts:31 | distinct statuses give distinct default messages |
| ApiService.ErrorMessage | frontend/src/services/api.service.ts:29-46 | an empty or unreadable body gives exactly the status message |
| ApiService.JsonFieldPrecedence | frontend/src/services/api.service.ts:35-39 | for a parsed object, a truthy `error` wins, then a truthy `message`, then the status message |
| ApiService.JsonStringFieldVerbatim | frontend/src/services/api.service.ts:39 | a non-empty string in `error` or `message` is the message verbatim |
| ApiService.JsonWithoutFieldsGivesDefault | frontend/src/services/api.service.ts:35-39 | a body parsing to a non-null value without truthy `error`/`message` gives the status message |
| ApiService.NonJsonGivesCompactedPrefix | frontend/src/services/api.service.ts:40-44 | a body that is not JSON and not all whitespace gives the first `min(200, length)` characters of the compacted body: non-empty, not starting with whitespace, single-spaced |
| ApiService.WhitespaceBodyGivesDefault | frontend/src/services/api.service.ts:40-44 | a whitespace-only body gives the status message |
| ApiService.NullBodyGivesNullText | frontend/src/services/api.service.ts:33-44 | the body `null`, with any JSON whitespace around it, gives the message `null` |
| ApiService.Fetch | frontend/src/services/api.service.ts:29-51 | for a response that arrives and whose JSON can be read, the call fails exactly when the status is outside 200-299, with the derived message (the status message when the body cannot be read), and otherwise returns the JSON |
| ApiService.MergeHeaders | frontend/src/services/api.service.ts:21-27 | the headers are the caller's plus `Content-Type`; the caller's values win, and `application/json` is used whenever the caller gave no key spelled exactly `Content-Type` (a caller's `content-type` leaves both keys in place) |
| ApiService.PrepareRequest | frontend/src/services/api.service.ts:19-27 | the URL is the base URL followed by the endpoint; method and body pass through; the headers are `MergeHeaders` of the caller's headers (none when absent), so the caller's headers are all kept, their values win, and `Content-Type` is always present |
| ApiService.KeepTruthyAppend | frontend/src/services/api.service.ts:138-144 | filtering out falsy parameters distributes over concatenation |
| ApiService.CandidatesQuery | frontend/src/services/api.service.ts:138-144 | the query record is the five conditional insertions in the order zip, specialty, city, state, limit |
| ApiService.BuildQueryParams | frontend/src/services/api.service.ts:138-144 | the record the insertion sequence builds is the truthy parameters, in order, as strings |
| ApiService.QueryHoldsExactlyTruthyParams | frontend/src/services/api.service.ts:140-144 | each parameter is in the query exactly when truthy, with its value (`limit` as `String(limit)`); empty strings and a `limit` of 0 are left out |
| ApiService.SearchEndpoint | frontend/src/services/api.service.ts:146-149 | the endpoint is the search path, followed by `?` and the query exactly when the query is non-empty |
| ApiService.QueryMarkIffSomeParam | frontend/src/services/api.service.ts:146-149 | the endpoint carries a query exactly when some parameter is truthy |
| ApiService.SearchDoctors | frontend/src/services/api.service.ts:131-153 | the request is a GET of the search endpoint; the result is the response's `doctors`, or `[]` when absent, and a failed response throws the derived message |
| TtsFallback.Includes | frontend/src/utils/ttsFallback.ts:4 | `includes` is true exactly when the substring occurs at some position |
| TtsFallback.IsServerTtsNotConfigured | frontend/src/utils/ttsFallback.ts:1-5 | true exactly when the lower-cased phrase occurs in the lower-cased message |
| TtsFallback.EmptyMessageNeverMatches | frontend/src/utils/ttsFallback.ts:3-5 | the empty message never matches |
| TtsFallback.CaseInsensitive | frontend/src/utils/ttsFallback.ts:4 | messages differing only in letter case get the same verdict |
| TtsFallback.UpperCaseKeepsVerdict | frontend/src/utils/ttsFallback.ts:4 | upper-casing a message does not change the verdict |
| TtsFallback.PhraseMatchesInAnyCase | frontend/src/utils/ttsFallback.ts:1-5 | the phrase itself matches in any letter case |
| TtsFallback.MatchIsMonotone | frontend/src/utils/ttsFallback.ts:4 | a matching message still matches with any text around it |
| TtsFallback.Utterance.constructor | frontend/src/utils/ttsFallback.ts:13 | a new utterance has the text, an empty language, and rate and pitch 1 |
| TtsFallback.UtteranceLanguage | frontend/src/utils/ttsFallback.ts:14 | the utterance language is the given language when it is non-empty, and `en` when it is empty |
| TtsFallback.BrowserSpeechOutcome | frontend/src/utils/ttsFallback.ts:8-23 | without a synthesizer the call fails with the "not available" message; otherwise it succeeds exactly when the utterance ends, and the utterance's `error` event rejects with "Browser text-to-speech failed." |
| TtsFallback.SpeakWithBrowserTts | frontend/src/utils/ttsFallback.ts:7-24 | settles as `BrowserSpeechOutcome`; without a synthesizer nothing is spoken, otherwise exactly `cancel` then `speak` of the configured utterance (language defaulted, rate 1, pitch 1) |
| Landing.FirstColon | frontend/src/Components/Landing/Landing.tsx:89 | in the key of a language without `:`, the first `:` comes right after the language |
| Landing.CacheKeyInjective | frontend/src/Components/Landing/Landing.tsx:89 | for languages without `:` (all six offered), different language/text pairs get different cache keys |
| Landing.MessageOf | frontend/src/Components/Landing/Landing.tsx:114 | the caught message is the error's own message when it is an `Error` with a non-empty message, and "Audio unavailable right now." otherwise |
| Landing.ListenFailure | frontend/src/Components/Landing/Landing.tsx:88-113 | nothing is caught exactly when audio was found (cache hit or synthesized) and `play()` succeeded; a synthesis failure is what is caught when it happens; otherwise a rejected `play()` is |
| Landing.ListenStatus | frontend/src/Components/Landing/Landing.tsx:113-135 | the view stays speaking with no message exactly when nothing was caught; a failure always stops speaking with a non-empty message: the error's own unless it names the unconfigured server voice; the browser-voice notice after a successful fallback; after a failed fallback, the fallback's own message, or "Audio unavailable right now." when it has none |
| Landing.PlaybackEffects | frontend/src/Components/Landing/Landing.tsx:101-112 | with a previous audio, playback is exactly: pause the previous audio, then play the new one; without one, exactly: play the new one |
| Landing.SettleFailure | frontend/src/Components/Landing/Landing.tsx:113-135 | the `catch` block sets the status `ListenStatus` gives, and speaks through the browser voice (cancel, then speak the narration) exactly when the message names the unconfigured server voice |
| Landing.CacheIsInjective | frontend/src/Components/Landing/Landing.tsx:90-98 | in a valid cache each key is listed once, the listed keys are the map's keys, and no URL is cached under two keys |
| Landing.CachedUrlsInRange | frontend/src/Components/Landing/Landing.tsx:97-98 | every cached URL was made since the last cleanup |
| Landing.Started | frontend/src/Components/Landing/Landing.tsx:101-106 | starting playback pauses the current audio if any and makes a new audio for the URL current, leaving the cache alone |
| Landing.ListenOutcome | frontend/src/Components/Landing/Landing.tsx:88-112 | nothing logged is lost; the server is asked exactly on a miss; a hit leaves the cache alone; a successful synthesis adds exactly one new URL under the key; a failed one changes nothing but the request log; once a URL is known a new audio for it is current and played last |
| Landing.ListenPausesPrevious | frontend/src/Components/Landing/Landing.tsx:101-112 | when a run gets to play and an audio was current, that audio is paused immediately before the new one plays, within what the run added |
| Landing.ListenKeepsPlayerValid | frontend/src/Components/Landing/Landing.tsx:97-98 | a run keeps the cache's numbering invariant, so no URL is ever cached under two keys |
| Landing.ListenAgainReusesAudio | frontend/src/Components/Landing/Landing.tsx:89-99 | once a narration has played, listening again in the same language asks the server nothing and plays the same URL in a new audio |
| Landing.OtherLanguageStillMisses | frontend/src/Components/Landing/Landing.tsx:89-92 | a narration cached in one offered language is still a miss in another |
| Landing.RevocationsAt | frontend/src/Components/Landing/Landing.tsx:77-79 | the i-th URL revoked is the one cached under the i-th key |
| Landing.RevocationsBelow | frontend/src/Components/Landing/Landing.tsx:77-79 | every URL the cleanup revokes is one that was already made |
| Landing.RevokeAll | frontend/src/Components/Landing/Landing.tsx:77-79 | the revocation loop revokes the cached URLs in key insertion order |
| Landing.RevocationsCoverCache | frontend/src/Components/Landing/Landing.tsx:77-79 | revoking the cache in key order revokes every URL made since the last cleanup |
| Landing.TeardownRevokesEachUrlOnce | frontend/src/Components/Landing/Landing.tsx:71-82 | for distinct keys and an injective cache, the cleanup revokes every cached URL exactly once and nothing else |
| Landing.LandingView.CachedUrlsAreLive | frontend/src/Components/Landing/Landing.tsx:71-82 | no URL still in the cache has been revoked |
| Landing.LandingView.TeardownRevokesEachCachedUrlOnce | frontend/src/Components/Landing/Landing.tsx:71-82 | in any valid state the cleanup revokes each cached URL exactly once and nothing else |
| Landing.LandingView.constructor | frontend/src/Components/Landing/Landing.tsx:24-31 | the menu is closed, the language is `en`, the view is not speaking, there is no message, and the cache, audio and logs are empty |
| Landing.LandingView.SelectLanguage | frontend/src/Components/Landing/Landing.tsx:212-223 | the selector sets the audio language to one of the offered codes |
| Landing.LandingView.HandleListen | frontend/src/Components/Landing/Landing.tsx:84-136 | one run keeps `Valid`, changes the refs as `ListenOutcome` describes, and ends in the status `ListenStatus` gives for the error caught; the browser voice is used exactly when that error names the unconfigured server voice |
| Landing.LandingView.FetchAndPlay | frontend/src/Components/Landing/Landing.tsx:88-112 | the `try` block's steps, made one at a time, change the refs as `ListenPlayer` describes and return the error `ListenFailure` gives |
| Landing.LandingView.OnAudioEnded | frontend/src/Components/Landing/Landing.tsx:107 | the end of playback stops speaking |
| Landing.LandingView.OnAudioError | frontend/src/Components/Landing/Landing.tsx:108-111 | a playback error stops speaking and shows "Audio playback failed. Please try again." |
| Landing.LandingView.Teardown | frontend/src/Components/Landing/Landing.tsx:71-82 | the cleanup pauses and drops the current audio, revokes the cached URLs in insertion order, empties the cache and keeps `Valid`: afterwards exactly the URLs made so far have been revoked |
| Landing.LandingView.RouteChanged | frontend/src/Components/Landing/Landing.tsx:33-35 | a route change closes the menu |
| Landing.LandingView.PointerDown | frontend/src/Components/Landing/Landing.tsx:38-43 | a press outside the navigation closes an open menu; a press inside leaves it as it was |
| Landing.LandingView.DocumentKeyDown | frontend/src/Components/Landing/Landing.tsx:45-49 | Escape closes the menu; other keys leave it |
| Landing.LandingView.ToggleClicked | frontend/src/Components/Landing/Landing.tsx:154 | a click on the menu button toggles the menu |
| Landing.LandingView.ToggleKeyDown | frontend/src/Components/Landing/Landing.tsx:155-160 | Enter and Space toggle the menu; other keys leave it |
| Landing.LandingView.NavLinkClicked | frontend/src/Components/Landing/Landing.tsx:169-185 | following a navigation link closes the menu |
| Loading.SessionStorage.GetItem | frontend/src/Components/Loading/Loading.tsx:20 | the stored value, or none when the key is absent |
| Loading.SessionStorage.RemoveItem | frontend/src/Components/Loading/Loading.tsx:33 | removes that key and no other |
| Loading.CheckInData | frontend/src/Components/Loading/Loading.tsx:28-29 | the data submitted is the navigation state's `checkInData` when it is truthy, and nothing otherwise |
| Loading.OnEntry | frontend/src/Components/Loading/Loading.tsx:19-29 | the page is allowed exactly when the flag is set; without it, the only effect is a replacing navigation home and nothing is submitted; with it, there is no navigation and the check-in data, if any, is submitted |
| Loading.AfterSubmit | frontend/src/Components/Loading/Loading.tsx:31-49 | every settled submission navigates with replace: to `/recommendations` exactly when it resolves to a non-`null` response, carrying the response's `recommendations`, `ai_message` and `check_in_id`; to `/symptom-checker` with no state exactly when the `catch` handler runs |
| Loading.HandlersRun | frontend/src/Components/Loading/Loading.tsx:30-50 | the `then` handler runs exactly when the submission resolves; the chained `catch` runs after a rejection and also after the `then` handler throws on a `null` response; both run only in that case, `then` first |
| Loading.NullResponseRunsBothHandlers | frontend/src/Components/Loading/Loading.tsx:30-50 | a `null` response runs both handlers and sends the user to the symptom checker |
| Loading.IntendedHandlersRun | frontend/src/Components/Loading/Loading.tsx:30-50 | with the `catch` answering only a failed submission, exactly one handler runs: `then` exactly when the submission resolves |
| Loading.IntendedAfterSubmit | frontend/src/Components/Loading/Loading.tsx:31-49 | with the response fields read optionally, the page goes to `/recommendations` exactly when the submission resolves, else to `/symptom-checker` |
| Loading.IntendedSettlesOnce | frontend/src/Components/Loading/Loading.tsx:30-50 | the intended settling runs one handler for every outcome and agrees with the code on every outcome but a `null` response, where the code runs two handlers and navigates elsewhere |
| Loading.ResultsCarryResponse | frontend/src/Components/Loading/Loading.tsx:36-43 | a response holding all three fields is passed on exactly |
| Loading.NoReentryAfterSettling | frontend/src/Components/Loading/Loading.tsx:20-24 | once the flag has been removed, entering again sends the user home, renders nothing and submits nothing |
| Loading.RenderGate | frontend/src/Components/Loading/Loading.tsx:54-56 | the page shows its content exactly when the flag was set, and submits only then and only with check-in data |
| Loading.LoadingPage.constructor | frontend/src/Components/Loading/Loading.tsx:17 | `allowed` starts as `null`, with no navigation, submission or removal |
| Loading.LoadingPage.Mount | frontend/src/Components/Loading/Loading.tsx:19-29 | the effect sets `allowed`, navigates and submits as `OnEntry` says for the stored flag, and leaves the storage untouched |
| Loading.LoadingPage.Settle | frontend/src/Components/Loading/Loading.tsx:30-50 | the handlers remove the flag once each, so the removal count is the number `HandlersRun` gives (1, or 2 for a `null` response); the flag is gone afterwards and the page navigates once, as `AfterSubmit` says |

## Findings

| source | as written | input that shows it | evidently intended | confidence | as-written member | corrected member |
|---|---|---|---|---|---|---|
| frontend/src/Components/Loading/Loading.tsx:30-50 | `.catch` is chained on the promise `.then` returns, so it also catches a throw inside the `then` handler, which reads `response.recommendations` after removing the flag | the check-in submission resolves to `null` (a 2xx response with body `null`) | exactly one handler runs, so the flag is removed once, and a successful submission leads to the results | low: not executed; a `null` check-in response may never occur in practice | Loading.NullResponseRunsBothHandlers | Loading.IntendedSettlesOnce |

`Loading.LoadingPage.Settle` follows the code as written. `IntendedHandlersRun` and `IntendedAfterSubmit` state the intended settling. `IntendedSettlesOnce` shows the two differ only on a `null` response.

## Left out

- The other `ApiService` operations (workouts, check-in history, favorites, profiles). They are one-line calls of `fetch`. `submitCheckIn`'s own request is not modelled: the loading page only sees how its promise settles.
- The server speech synthesis call `apiService.synthesizeSpeech` is not modelled: how it settles is an input of `HandleListen`.
- The network, `fetch`, `response.text()` and `response.json()`: a response is its status, the outcome of reading its body, and its JSON.
- ApiService.MergeHeaders: the caller's headers are modelled as a plain record of names to values. `RequestInit.headers` may also be a `Headers` instance or an array of pairs. The spread `...options?.headers` copies only own enumerable properties, so a `Headers` instance adds nothing, not even its `Content-Type`, and an array adds the keys `"0"`, `"1"`, …. No call in api.service.ts passes headers.
- ApiService.Fetch: does not model two rejections. `fetch` itself rejects on a network error (line 21). `response.json()` rejects on an ok response whose body is not JSON (line 51), such as the empty 204 of a DELETE. The model's ok response always carries its JSON.
- ApiService.SearchDoctors: the response is taken to be an object. A `null` search response makes `response.doctors` throw (line 152); the model cannot express that response.
- ApiService.ErrorMessage: JSON numbers are integers only. The model does not capture `String(1e21)` giving `"1e+21"` (it prints every digit), `JSON.parse` rounding integers above 2^53, or fractional values such as `{"error": 1.5}`. An object whose `toString` is not callable (`{"error": {"toString": 1}}`) makes `new Error(message)` throw a TypeError outside the `try` (line 48); the model gives `"[object Object]"`.
- `JSON.parse` and the `URLSearchParams` serializer (the WHATWG URL Standard's application/x-www-form-urlencoded serializer). Both are parameters. `QueryMarkIffSomeParam` assumes only that the encoder gives the empty string for the empty record alone.
- `ApiService.DoctorSearchParams`: `limit` is an integer. `String(limit)` for fractional, `NaN` or infinite numbers is not modelled.
- Strings are sequences of Unicode code points, not UTF-16 code units, so `slice(0, 200)` counts code points.
- Lower-casing covers ASCII letters only, where JavaScript's `toLowerCase` is full Unicode. For the phrase tested this changes no verdict: the only non-ASCII characters that lower-case onto ASCII letters are U+212A (to `k`, which the phrase does not contain) and U+0130 (to `i` followed by U+0307, which breaks any match).
- Asynchrony and interleaving. One run of `handleListen` is one method call. The model does not capture the following:
  - a second run starting before the first settles (the button is disabled while speaking);
  - a late response of a superseded run;
  - `ended`/`error` events of an audio element that is no longer current.
- The React effect machinery. The document listeners of the menu effect become the methods that handle their events. The loading effect runs once per mount; a re-run when `location.state` changes, and React's development double-invocation, are not modelled.
- `console.error` in the loading page's `catch`: logging only.
- JSX rendering, CSS, the static page content and figures (Landing.tsx lines 138-433, Loading.tsx lines 58-70), and the authentication-dependent link targets.
