# Instagram downloader backend — a Dafny model

This project models the request pipeline of the downloader's Express server
(`backend/server.js`):

- the **url check** of `POST /api/fetch-media`: a falsy `url` is refused
  with "URL is required"; otherwise `String(url)` must contain a match of
  the unanchored pattern `instagram\.com\/(p|reel|tv|stories)\/[A-Za-z0-9_-]+`,
  or the request is refused with "Invalid Instagram URL";
- the **media normalizer**: the `mediaData` record built
  from the upstream payload with JavaScript `||` fallbacks and `?.`;
- the **download history**: a module-level array that `POST /api/download`
  pushes to and trims to its newest 100 entries, and that `GET /api/history`
  answers with `slice(-10).reverse()`;
- the **handler outcomes**: 400 for a refused url, 500 "Failed to fetch media"
  for a url that cannot be converted to text and for any upstream failure,
  200 with the normalized media otherwise.

Request bodies and upstream payloads are JSON values (`JsValues.Value`, with
`undefined` for an absent key). Truthiness follows JavaScript: `undefined`,
`null`, `false`, `0` and `""` are falsy. The pattern is stated as a predicate
over string indices (`InstagramUrl.IsPostUrl`), not as a regex engine. The
upstream request is an input (`Handlers.Upstream`): either the payload, or a
failure with its message. `FetchMedia` also returns the list of urls it would
send upstream, so "no upstream request before validation" can be stated.
The clock readings `Date.now()` and `new Date().toISOString()` are parameters
of `Handlers.Download`.

Files: `js_values.dfy` (JavaScript values, truthiness, property reads,
`String(v)`), `instagram_url.dfy` (the pattern), `media_normalizer.dfy`,
`download_log.dfy` (the history class and its specification functions),
`handlers.dfy` (the three endpoints).

Behaviour of the code worth noting:

- `thumbnail` and `videoUrl` are not forced to `null`. When both sources are
  falsy the field holds the second source, which may be `undefined`, `null`,
  `""`, `0` or `false`.
- Output fields are whatever truthy JSON value the payload holds, not only
  strings.
- A history entry's `id` is `Date.now()`. Two records in the same millisecond
  get the same id, so no monotonicity or uniqueness is claimed.
- The second refusal message is "Invalid Instagram URL".
- `POST /api/download` checks only that `url` is truthy. It does not apply the
  pattern, so any truthy url is recorded.
- A payload of `null` makes `data.thumbnail_url` throw. The handler's `catch`
  turns that into the same 500 reply as a failed request.
- A url that is a JSON array is matched against its comma-joined text, so
  `{"url": ["https://instagram.com/p/X"]}` passes the check. A number,
  boolean or object never does.
- Converting the url to text throws when it is an object with its own
  `toString` key, or an array holding such an object anywhere. The `catch`
  answers that with 500 "Failed to fetch media", before any upstream
  request. Such a url is not answered 400.

The client (`frontend/src/App.jsx:82`, `:90`) reads `media.thumbnailUrl` and
`media.downloadUrls`, which the server never sends (it sends `thumbnail` and
`videoUrl`). This mismatch is recorded here and not modelled.

## Model

| member | source | states |
|---|---|---|
| `JsValues.Truthy` | backend/server.js:62 | exactly five values are falsy: `undefined`, `null`, `false`, `0` and `""` |
| `JsValues.Nullish` | backend/server.js:93 | `null` and `undefined` are exactly the falsy values that are not a boolean, number or string |
| `JsValues.Or` | backend/server.js:92-97 | JavaScript's `a or b` is `a` when `a` is truthy and `b` otherwise; the result is truthy iff either operand is |
| `JsValues.Get` | backend/server.js:93-97 | reading a key of a non-null value that is not an object gives `undefined` |
| `JsValues.OptGet` | backend/server.js:96 | `v?.key` never throws: it gives `undefined` for anything but an object, and any other result is the object's own value for the key |
| `JsValues.ToJsString` | backend/server.js:70 | `String(v)` throws exactly when `v` is an object with its own `toString` key or an array with such an object inside it; a string converts to itself |
| `JsValues.ScalarStringsHaveNoLetterI` | backend/server.js:70 | `String(v)` of an integer, boolean or object, when it does not throw, contains no lower-case `i` |
| `JsValues.SingletonArrayString` | backend/server.js:70 | a one-element array of a string converts to that string |
| `InstagramUrl.IsPostUrl` | backend/server.js:69-70 | an accepted text is at least 17 characters long, the length of the shortest match |
| `InstagramUrl.PostUrlIffContainsPath` | backend/server.js:69-70 | the pattern test succeeds iff the text contains `instagram.com/` + one of `p`, `reel`, `tv`, `stories` + `/` + one id character (both directions) |
| `InstagramUrl.AcceptsPostPath` | backend/server.js:69-70 | every `before + "instagram.com/<segment>/" + id + after` with a non-empty id of `[A-Za-z0-9_-]` is accepted, whatever the prefix and suffix |
| `InstagramUrl.AcceptedInAnyContext` | backend/server.js:69-70 | the test is unanchored: adding text before or after an accepted string keeps it accepted |
| `InstagramUrl.RejectsWithoutSegment` | backend/server.js:69-75 | a string containing none of the four `instagram.com/<segment>/` prefixes is rejected |
| `InstagramUrl.MatchStartsWithLetterI` | backend/server.js:69 | a match starts at a lower-case `i` |
| `InstagramUrl.RejectsWithoutLetterI` | backend/server.js:69-75 | a string without a lower-case `i` is rejected |
| `InstagramUrl.CapitalDomainRejected` | backend/server.js:69 | the test is case-sensitive: `https://Instagram.com/p/ABC123` is rejected |
| `InstagramUrl.CanonicalPostAccepted` | backend/server.js:69-70 | `https://instagram.com/p/ABC123` is accepted |
| `InstagramUrl.ReelWithQueryAccepted` | backend/server.js:69-70 | a reel url with `www.` and a query string is accepted |
| `InstagramUrl.NumberTextRejected` | backend/server.js:69-70 | every text a JavaScript number prints as (digits, point, sign, exponent `e`, `Infinity`, `-Infinity`) is rejected |
| `MediaNormalizer.FirstTruthy` | backend/server.js:92-97 | a chain of JavaScript or-operators yields the first truthy operand, or the last operand when none is truthy |
| `MediaNormalizer.Normalize` | backend/server.js:91-98 | never fails on a non-null payload (it gives `None` exactly when the payload is null or undefined); `type`, `title`, `username` and `duration` are always truthy; `thumbnail` and `videoUrl` are truthy iff one of their two sources is |
| `MediaNormalizer.NormalizeFollowsFallbackTable` | backend/server.js:92-97 | every output field is the first-truthy resolution of its ordered list of attempts |
| `MediaNormalizer.TwoSourcePrecedence` | backend/server.js:93-94 | `thumbnail_url` wins over `display_url`, and `video_url` over `download_url`, exactly when truthy |
| `MediaNormalizer.TypeFromFormat` | backend/server.js:92 | `type` is the requested format when truthy, else "video" |
| `MediaNormalizer.UsernameFallback` | backend/server.js:96 | `username` is `owner.username` when truthy, else "@user", also when `owner` is missing, null or not an object |
| `MediaNormalizer.EmptyPayloadGivesDefaults` | backend/server.js:91-98 | `{}` with no format gives "video", "Instagram Media", "@user", "00:00" and undefined `thumbnail` and `videoUrl` |
| `MediaNormalizer.ThumbnailExamples` | backend/server.js:93 | `{thumbnail_url:"A", display_url:"B"}` gives "A"; `{display_url:"B"}` gives "B" |
| `MediaNormalizer.OnlyReadKeysMatter` | backend/server.js:91-98 | two payloads that agree on the seven keys read normalize identically |
| `MediaNormalizer.NonObjectPayloadGivesDefaults` | backend/server.js:91-98 | a non-null payload that is not an object normalizes like `{}` |
| `DownloadLog.Newest` | backend/server.js:137 | `slice(-n)` keeps the last `min(n, length)` elements in order |
| `DownloadLog.Reversed` | backend/server.js:157 | `reverse()` puts element `length-1-k` at position `k` |
| `DownloadLog.AfterRecord` | backend/server.js:134-138 | after push and trim the log has `min(n+1, 100)` entries, ends with the new entry, is `old + [e]` below capacity and `old[1..] + [e]` at capacity |
| `DownloadLog.Recent` | backend/server.js:157 | the history read has `min(10, length)` entries, most recent first |
| `DownloadLog.NewestOfAppended` | backend/server.js:137 | trimming after each push keeps the same entries as trimming once at the end |
| `DownloadLog.RecordAllKeepsNewest` | backend/server.js:134-138 | any sequence of records leaves exactly the newest 100 of all recorded entries, in insertion order |
| `DownloadLog.FillPastCapacity` | backend/server.js:134-138 | from empty, after at least 100 records the log is the last 100 of them |
| `DownloadLog.HundredFiveRecords` | backend/server.js:134-138 | after 105 records the log has 100 entries, records 6 to 105 |
| `DownloadLog.TwentyEntriesHistory` | backend/server.js:134-157 | after recording ids 1 to 20 into an empty log, the history read gives ids 20 down to 11 |
| `DownloadLog.RecordedEntryComesFirst` | backend/server.js:134-157 | the entry just recorded heads the next history read |
| `DownloadLog.DownloadHistory.constructor` | backend/server.js:46 | the history starts empty and within capacity |
| `DownloadLog.DownloadHistory.Record` | backend/server.js:134-138 | the new log is the newest 100 entries of the old log plus the new entry, and it keeps the capacity invariant |
| `Handlers.Field` | backend/server.js:59 | a key absent from the request body reads as `undefined`, which is falsy; a present key reads as its value |
| `Handlers.FetchMedia` | backend/server.js:58-112 | status is 200, 400 or 500; `success` iff 200; 400 iff the url is falsy, or converts to text the pattern does not match; exactly one upstream request (with the url) when the url passes both checks and none otherwise; every 500 says "Failed to fetch media" |
| `Handlers.MissingUrlRejectedFirst` | backend/server.js:62-67 | a falsy url gets 400 "URL is required" and nothing is sent upstream |
| `Handlers.UnmatchedUrlRejected` | backend/server.js:69-75 | a truthy url that fails the pattern gets 400 "Invalid Instagram URL" and nothing is sent upstream |
| `Handlers.ThrowingUrlAnsweredGenerically` | backend/server.js:69-110 | a url whose conversion to text throws gets 500 "Failed to fetch media" and nothing is sent upstream |
| `Handlers.NonTextUrlRejected` | backend/server.js:69-110 | a truthy number, boolean or object url never reaches the upstream: 500 "Failed to fetch media" when its conversion throws, 400 "Invalid Instagram URL" otherwise |
| `Handlers.SingletonArrayUrlAccepted` | backend/server.js:69-88 | a one-element array holding an accepted url passes the check and is sent upstream |
| `Handlers.ToStringKeyExample` | backend/server.js:69-110 | `{url: {toString: 1}}` gets 500 "Failed to fetch media" with no upstream request |
| `Handlers.ThrowingArrayElementExample` | backend/server.js:69-110 | an array holding an accepted url and an object with its own `toString` key gets 500 with no upstream request |
| `Handlers.RejectionIgnoresUpstream` | backend/server.js:62-75 | a 400 reply is the same whatever the upstream would have answered |
| `Handlers.FailureDetailNotLeaked` | backend/server.js:105-110 | the reply to an upstream failure does not depend on its error message |
| `Handlers.SuccessIffAcceptedAndFetched` | backend/server.js:58-103 | 200 iff the url is truthy, converts to text and matches, and the upstream returns a non-null payload; the media is then that payload normalized |
| `Handlers.EmptyUrlExample` | backend/server.js:62-67 | `{url: ""}` gets 400 "URL is required" |
| `Handlers.UpstreamTimeoutExample` | backend/server.js:105-110 | `{url: "https://instagram.com/p/ABC123"}` with an upstream timeout gets 500 "Failed to fetch media" |
| `Handlers.Download` | backend/server.js:115-143 | a falsy url gets 400 and leaves the history unchanged; a truthy one is recorded with the given id and timestamp and gets 200 "Download initiated" |
| `Handlers.HistoryReply` | backend/server.js:154-158 | status 200 with the newest `min(10, length)` entries, most recent first |
| `Handlers.DownloadThenHistory` | backend/server.js:115-158 | after a download with a truthy url, the next history read starts with that entry |

## Left out

- Middleware and server start-up (`backend/server.js:1-39`, `162-176`): helmet, CORS, body parsers, request logging, the rate limiter, the 404 handler, `app.listen` and SIGTERM. They are library wrappers and process lifecycle.
- `GET /api/health` (`backend/server.js:49-55`): a constant reply plus a clock reading.
- The upstream HTTP request (`backend/server.js:42-44`, `77-88`): the axios call, the RapidAPI headers and keys, and the 15000 ms timeout. This is network I/O. Its outcome is the `Upstream` input.
- The clock (`Date.now()`, `toISOString()`): its readings are parameters of `Download`.
- `console.log` and `console.error`: logging only.
- The 500 "Failed to download" branch of `POST /api/download` (`backend/server.js:145-150`): nothing inside that `try` can throw once the clock is an input, so the model has no such branch.
- Concurrency: the handlers touch the history only between await points, so the model is sequential.
- `JsValues.ScalarStringsHaveNoLetterI` and `JsValues.ToJsString`: JSON numbers are modelled as unbounded integers printed in plain decimal. JavaScript numbers are doubles, so integers above 2^53 are rounded (this also changes the `url`, `format` and `resolution` numbers stored in and echoed from the history), numbers from 1e21 print in exponent form such as `1e+21`, literals too large for a double become `Infinity`, and fractions print with a point. `InstagramUrl.NumberTextRejected` shows that every such text is rejected too, so no fetch-media outcome depends on this gap.
- `JsValues.Get`: models only own properties of JSON objects. This is exact for the keys the server reads, none of which is a built-in property of strings, arrays, numbers or booleans.
- The frontend (`frontend/src/App.jsx`, `frontend/src/main.jsx`): React state, `fetch` and rendering. `main.jsx:3` imports a named `App` that `App.jsx` only exports as default; that is a start-up error, not logic.
