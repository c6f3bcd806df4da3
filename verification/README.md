# A Dafny model of the ai-gateway request path

ai-gateway is an HTTP gateway in front of large-language-model backends. It
exposes an OpenAI-compatible `/v1/chat/completions` endpoint and a
`/v1/stats` endpoint. Every request passes through three layers before its
handler runs:

- API-key authentication, with user and admin keys;
- a per-key token-bucket rate limiter;
- a tracking layer that counts requests, errors, latency and tokens per key.

Chat requests go to a local Ollama daemon. When both OpenAI variables are
set at start-up, an OpenAI-compatible backend serves as the fallback.

This project models that core as pure Dafny functions over immutable data
and proves what each part promises. The modules follow the source files:

| module | file | models |
|---|---|---|
| `Prelude` | `prelude.dfy` | Rust `Option`/`Result`, `u16`/`u32`, and the `str` operations the gateway uses: `strip_prefix`, `contains`, `trim_start_matches`, a Unicode `trim`, `split` |
| `Models` | `models.dfy` | the wire records of `src/models/mod.rs` |
| `Providers` | `providers.dfy` | `ProviderError` and the results of `LLMProvider` calls |
| `Ollama` | `ollama.dfy` | `OllamaProvider::chat` |
| `Fallback` | `fallback.dfy` | `FallbackProvider` |
| `ProviderTree` | `provider_tree.dfy` | dynamic dispatch over any tree of providers |
| `Tracking` | `tracking.dfy` | `RequestTracker` and `KeyStats`, plus a history-replay view of the tracker |
| `Auth` | `auth.dfy` | the authentication middleware |
| `RateLimit` | `rate_limit.dfy` | buckets, the limiter and its middleware |
| `TrackingMiddleware` | `tracking_middleware.dfy` | the request-tracking middleware |
| `ChatHandler` | `chat_handler.dfy` | `chat_completions` and `error_to_response` |
| `Stats` | `stats.dfy` | `get_stats`, `build_stats_response`, `mask_key` |
| `Config` | `config.dfy` | the start-up part of `main`: key lists, provider choice, limiter budget |
| `Gateway` | `gateway.dfy` | the middleware stack as `main` assembles it |

The outside world enters as parameters:

- what the network answers, as functions from request to outcome;
- the wall clock and the monotonic clock, as numbers;
- the UUID generator, as a string;
- the environment, as a map from names to values that are text or not valid Unicode;
- the JSON parser of stream frames, as a function.

Every property below therefore holds for every behaviour of those
collaborators.

The key results:

- **Tracking.** After any sequence of `record_request` / `record_tokens`
  calls, each key's counters are exactly the counts and sums of the calls
  for that key. The per-model counts add up to the number of token
  bookings, and errors never exceed requests.
- **Pipeline.** A request refused by authentication (401) or by the limiter
  (429) never reaches the handler and never reaches the tracker. An
  admitted, answered request is counted exactly once for its key.
- **Rate limiting.** A key seen for the first time under
  `RateLimiter::new(n)` can burst exactly `n` requests at one instant; every
  further request at that instant is refused.
- **Fallback.** The backup is called exactly when the primary fails, and its
  answer is final. Streaming always uses the leftmost leaf of the provider
  tree.
- **Key lists.** A parsed key list holds exactly the non-empty trimmed
  pieces between commas, in order.
- **Stats.** Two long keys look alike once masked exactly when they share
  their first four and last four characters.

Where the source does not compile, the model follows what the code
evidently intends:

- `chat_completions` reads `request.stream`, which `ChatCompletionRequest`
  does not declare. The model gives the request an optional `stream` flag.
- The handler parses `ChatCompletionChunk`, which the models file does not
  define. The model defines it with the two fields the handler reads,
  `model` and an optional `usage`.
- `main` calls `FallbackProvider::new` with two arguments, but it takes
  three. The model passes no model override (`None`).

Where the gateway's intended design and its code disagree, the model
follows the code:

- **Errors.** The intended error taxonomy has six kinds
  (unreachable, timeout, bad upstream response, and so on). The code has
  three: `Network`, `Parse`, and a relayed status with a message.
- **Fallback.** The design treats fallback routing as future work. The
  code has `FallbackProvider`, and `main` installs it when OpenAI is
  configured.
- **Usage totals.** The design requires `total = prompt + completion`
  in every response. The code adds two `u32`s, so the model proves the
  equation only when the sum fits (`Ollama.ChatUsageConsistent`) and shows
  the wrap-around otherwise (`Ollama.WrappedTotalExample`).
- **Request validation.** The design rejects an empty message list
  before any upstream call. The code does no such check, and neither does
  the model.
- **Streaming.** The design describes a stream transcoder. In the
  code both backends' `chat_stream` are unimplemented. The handler's own
  stream handling is modelled: forwarding, the frame filter, usage
  booking, and the end of the response at the first error item.
- **Roles.** Message roles are free text in the code, not an enumeration.

## Model

| member | source | states |
|---|---|---|
| Prelude.WrappingAddU32 | src/providers/ollama.rs:80 | a `u32` sum as a release build computes it: the true sum when it fits, the sum minus 2^32 otherwise |
| Prelude.StripPrefix | src/middleware/auth.rs:88 | a remainder exists exactly when the string starts with the prefix, and prefix plus remainder gives back the string |
| Prelude.TrimStartMatches | src/handlers/chat.rs:37 | the result is a suffix of the input (each of its characters is the input's at the same distance from the end) that no longer starts with a non-empty pattern; an empty pattern removes nothing |
| Prelude.TrimStartMatchesRepeats | src/handlers/chat.rs:37 | what is removed is whole copies of the pattern: the input is the pattern repeated some number of times followed by the result |
| Prelude.Trim | src/main.rs:47 | the result has no whitespace at either end and is never longer than the input |
| Prelude.TrimSlice | src/main.rs:47 | the trimmed string is a contiguous slice of the input, and everything cut off on either side is Unicode whitespace |
| Prelude.TrimSplitsOff | src/handlers/chat.rs:37 | a string is its trim with a run of whitespace glued on either side |
| Prelude.TrimOfTrimmed | src/main.rs:47 | trimming a string with no whitespace at its ends changes nothing |
| Prelude.ContainsAt | src/handlers/chat.rs:36 | `contains` holds exactly when the pattern occurs at some position |
| Prelude.Split | src/main.rs:46 | splitting yields at least one piece, even for the empty string |
| Prelude.SplitPiecesLackSep | src/main.rs:46 | no piece of a split contains the separator |
| Prelude.JoinSplit | src/main.rs:45-49 | joining the pieces of a split with the separator gives back the original string |
| Prelude.SplitJoin | src/main.rs:45-49 | pieces free of the separator, joined and split again, come back unchanged |
| Prelude.SplitAppend | src/main.rs:45-49 | splitting `a + sep + b` gives the pieces of `a` followed by the pieces of `b` |
| Ollama.UpstreamRequest | src/providers/ollama.rs:36-40 | the body posted upstream keeps the model and messages and never asks for streaming |
| Ollama.ToCompletion | src/providers/ollama.rs:62-82 | the completion carries the `chatcmpl-` id, the object kind, the clock reading, the upstream model, and a single choice with index 0 holding the upstream message and "stop"; the usage copies both counts, and its total equals their sum exactly when the sum fits in a `u32` |
| Ollama.Chat | src/providers/ollama.rs:34-86 | the request goes to `base_url + "/api/chat"`; a transport failure is a Network error, an unreadable body a Parse error, and only a received reply succeeds |
| Ollama.ChatUsageConsistent | src/providers/ollama.rs:77-81 | when the two counts fit in a `u32`, a successful reply's total is prompt plus completion |
| Ollama.WrappedTotalExample | src/providers/ollama.rs:80 | counts of 2^32-1 and 1 report a total of 0 |
| Fallback.BackupRequest | src/providers/fallback.rs:45-50 | the backup request differs from the original at most in its model name, which is the override when one is configured |
| Fallback.Chat | src/providers/fallback.rs:33-55 | a primary success is returned and the backup is never called; otherwise the backup is called exactly once, after the primary, and its result is final |
| Fallback.ChatErrorIsBackups | src/providers/fallback.rs:40-53 | the answer is an error exactly when both providers fail, and it is then the backup's error |
| Fallback.ChatIgnoresBackupOnSuccess | src/providers/fallback.rs:40-41 | while the primary succeeds, neither the backup nor the model override makes any difference |
| Fallback.ChatStreamIgnoresBackup | src/providers/fallback.rs:57-71 | `Fallback.ChatStream` gives the primary's outcome, whatever the backup would do |
| ProviderTree.FallbackNodeChat | src/providers/fallback.rs:33-55 | for any configured providers, `ProviderTree.Chat` on a fallback node answers with its primary's success, or else with its backup's answer to the (possibly renamed) request |
| ProviderTree.StreamingLeaf | src/providers/fallback.rs:69-70 | the provider a stream is opened on is never a fallback node |
| ProviderTree.ChatStreamUsesPrimaryLeaf | src/providers/fallback.rs:57-71 | through any nesting of fallbacks, `ProviderTree.ChatStream` opens the stream by the leftmost leaf with the client's request unchanged |
| Tracking.NewKeyStats | src/tracking/mod.rs:27-37 | a fresh entry has every counter at zero, no models, the current time, and is well formed |
| Tracking.NewTracker | src/tracking/mod.rs:41-45 | a new tracker holds no key |
| Tracking.RecordRequest | src/tracking/mod.rs:61-72 | the key gains one request and the latency, and one error exactly when the request failed; a new key starts from zero; token counters, models and every other key are unchanged; well-formedness is kept |
| Tracking.RecordTokens | src/tracking/mod.rs:75-89 | the key gains the prompt and completion tokens and one use of the model; request, error, latency and time stamp are unchanged; other models and other keys are unchanged; well-formedness is kept |
| Tracking.RecordTokensCountsOneCall | src/tracking/mod.rs:88 | each token booking adds exactly one to the key's per-model counts taken together |
| Tracking.RecordTokensModelCount | src/tracking/mod.rs:88 | a booking raises its own model's count by one and leaves every other model's count |
| Tracking.RequestAndTokensCommute | src/tracking/mod.rs:61-90 | recording a request and booking tokens for one key at one instant give the same tracker in either order, because the request restamps the entry and a booking never restamps an existing one |
| Tracking.EntryOf | src/tracking/mod.rs:62-65 | a tracked key's entry is its stored one; an untracked key starts from an all-zero entry with no models, stamped now |
| Tracking.GetStats | src/tracking/mod.rs:92-94 | an entry is returned exactly for a tracked key, and it is that key's entry |
| Tracking.ReplaySummarises | src/tracking/mod.rs:60-89 | after any sequence of calls, a key has an entry exactly when some call named it; its counters equal the number of requests, errors, summed latency and summed tokens of those calls; each model's count is the number of bookings naming it; the model counts add up to the number of bookings; the tracker stays well formed |
| Auth.HeaderText | src/middleware/auth.rs:86-87 | a header reads as text exactly when every character is a tab or visible ASCII |
| Auth.ExtractToken | src/middleware/auth.rs:86-89 | a token exists exactly when the header is present, readable and starts with the case-sensitive "Bearer "; the header is then "Bearer " followed by the token |
| Auth.ResolveRole | src/middleware/auth.rs:91-99 | Admin exactly for admin keys, User exactly for user keys that are not admin keys, and no role otherwise |
| Auth.Call | src/middleware/auth.rs:79-115 | a request is forwarded exactly when its token has a role; the attached key is the token verbatim, with role Admin exactly when it is an admin key; any other request gets the 401 body |
| Auth.RefusedWithoutBearer | src/middleware/auth.rs:86-89 | a missing header, or one without the "Bearer " prefix, is refused |
| Auth.AdminTakesPrecedence | src/middleware/auth.rs:91-99 | a key in both lists is forwarded as Admin |
| RateLimit.NewBucket | src/middleware/rate_limit.rs:14-21 | a new bucket is full, stamped with the current instant, and valid for non-negative parameters |
| RateLimit.Elapsed | src/middleware/rate_limit.rs:24-25 | elapsed time is never negative, and is the clock difference when the clock moved forward |
| RateLimit.Refilled | src/middleware/rate_limit.rs:29 | the refilled level is the old level plus elapsed times rate, capped at capacity, and never below the old level |
| RateLimit.TryConsume | src/middleware/rate_limit.rs:23-38 | a request is admitted exactly when at least one whole token is available after refilling, and then pays exactly one; the bucket is re-stamped; validity is kept |
| RateLimit.NewRateLimiter | src/middleware/rate_limit.rs:51-59 | `new(n)` has no buckets, capacity `n`, and a refill rate of `n` tokens per minute |
| RateLimit.CheckKey | src/middleware/rate_limit.rs:61-84 | the key's bucket, created full on first sight, pays for the request; every other bucket is unchanged; validity is kept |
| RateLimit.DrainAtOneInstant | src/middleware/rate_limit.rs:23-38 | a bucket holding `m` whole tokens, updated at this instant, admits exactly the next `m` requests made at that instant |
| RateLimit.FreshKeyBurst | src/middleware/rate_limit.rs:51-84 | with `new(n)`, a new key's first `n` requests at one instant are admitted and every later one at that instant is refused |
| RateLimit.MiddlewareCall | src/middleware/rate_limit.rs:143-175 | a request with a validated key is charged to it and refused with the 429 body exactly when its bucket is empty; one without a key passes and charges nothing |
| TrackingMiddleware.TrackedKey | src/middleware/tracking.rs:66-70 | requests are booked under the validated key, or under "unknown" without one |
| TrackingMiddleware.Call | src/middleware/tracking.rs:65-98 | the inner outcome passes through unchanged; a response records exactly one request, flagged as an error exactly for a 5xx status; a failure records nothing |
| TrackingMiddleware.CallCountsOneRequest | src/middleware/tracking.rs:81-97 | an answered request adds one request and its latency to its key, and one error exactly for a 5xx; every other key is unchanged |
| ChatHandler.StatusFromU16 | src/handlers/chat.rs:103-105 | a `u16` is a status code exactly when it lies in 100..=999 |
| ChatHandler.ErrorToResponse | src/handlers/chat.rs:95-109 | Network maps to 502 and Parse to 500, each with its prefixed message; a provider status is relayed when valid and becomes 500 otherwise, with the provider's message as the body |
| ChatHandler.ProviderFailureIsServerError | src/handlers/chat.rs:95-109 | a provider failure is tracked as an error exactly when it is not a relayed valid status outside 5xx |
| ChatHandler.IsStreaming | src/handlers/chat.rs:18 | a request streams exactly when its flag is present and true |
| ChatHandler.InspectsFrame | src/handlers/chat.rs:36 | a frame is inspected for usage exactly when it starts with "data: " and "[DONE]" occurs at no position in it |
| ChatHandler.FramePayload | src/handlers/chat.rs:37 | the JSON text of a frame has no surrounding whitespace |
| ChatHandler.FramePayloadShape | src/handlers/chat.rs:37 | the frame is some copies of "data: ", whitespace, the payload and whitespace, and the part after the copies does not start with "data: " again |
| ChatHandler.FramePayloadOfDataFrame | src/handlers/chat.rs:37 | "data: " followed by a trimmed payload that is not itself prefixed yields exactly that payload |
| ChatHandler.FrameUsage | src/handlers/chat.rs:33-39 | a frame yields usage exactly when it is a data frame without the end marker, its payload parses, and the parsed chunk carries usage; the model and usage are then the chunk's |
| ChatHandler.DoneFrameNeverBooks | src/handlers/chat.rs:36 | the "data: [DONE]" frame never books anything, whatever the parser returns |
| ChatHandler.Delivered | src/handlers/chat.rs:32-59 | the response body yields the provider's items up to and including the first error item, which aborts the connection, and all of them when there is none |
| ChatHandler.DeliveredWithoutFailure | src/handlers/chat.rs:32-59 | a stream without error items is delivered whole |
| ChatHandler.ForwardStream | src/handlers/chat.rs:32-55 | the delivered items are yielded in order, a frame forwarded as is and an error item, wrapped by `ErrorInternalServerError`, ending the response after the 200 head has gone out |
| ChatHandler.BookStreamUsage | src/handlers/chat.rs:32-55 | consuming a stream with no usage frame changes nothing; otherwise only the caller's entry changes, and its request, error, latency and time-stamp fields stay as they were |
| ChatHandler.BookingCountsFrames | src/handlers/chat.rs:39-45 | each usage frame is one booking: the key's per-model counts grow by the number of usage frames |
| ChatHandler.BookingAddsFrameTokens | src/handlers/chat.rs:36-45 | the key's prompt and completion totals grow by exactly the tokens its usage frames report, summed |
| ChatHandler.BookingCountsModels | src/handlers/chat.rs:36-45 | each model's count for the key grows by exactly the number of usage frames naming that model |
| ChatHandler.ConsumeStream | src/handlers/chat.rs:28-59 | the body yields a prefix of the provider's items, each mapped in order, ending early only at an error item, and the bookings are exactly those of that same prefix; `FailureEndsStream` is its partner |
| ChatHandler.FailureEndsStream | src/handlers/chat.rs:54-59 | after an error item nothing is forwarded or booked: the body yields the frames before it and then the error that aborts the response, and only those frames are booked |
| ChatHandler.StreamBookingCommutes | src/handlers/chat.rs:28-59 | recording the request and booking a whole stream's usage frames give the same tracker in either order at one instant, so the tracking middleware recording before actix reads the body changes nothing |
| ChatHandler.CompleteChat | src/handlers/chat.rs:66-91 | a provider error becomes its error answer and books nothing; a completion is returned as JSON, and its counts are booked under its model exactly when the caller's key is known |
| ChatHandler.ChatCompletions | src/handlers/chat.rs:10-93 | the stream flag chooses the streaming or non-streaming provider call; a streaming failure books nothing; the delivered part of a stream is forwarded and its usage booked to the validated key or "unknown" |
| Stats.MaskKey | src/handlers/stats.rs:119-126 | keys of at most 8 characters mask to "***"; longer keys keep their first four and last four characters around "***" |
| Stats.MaskKeyCollisions | src/handlers/stats.rs:119-126 | two long keys mask alike exactly when their first four and last four characters agree |
| Stats.AverageLatency | src/handlers/stats.rs:94-98 | the mean times the count gives back the total, and the mean is 0 when nothing was counted |
| Stats.BuildStatsResponse | src/handlers/stats.rs:93-117 | every counter, the time stamp and the per-model map are copied unchanged, the key is masked, and the mean latency is derived from the totals |
| Stats.EmptyResponseIsFreshEntry | src/handlers/stats.rs:74-86 | `Stats.EmptyResponse`, the record a user with no history sees, is exactly what a fresh entry at the epoch would show |
| Stats.ListingCoversKeys | src/handlers/stats.rs:57-63 | a listing in the shape the admin listing returns holds a record for every tracked key, every record it holds is some tracked key's, and it follows an enumeration of the keys, so each key contributes exactly one record |
| Stats.ListAllStats | src/handlers/stats.rs:57-63 | the admin listing has one record per tracked key, each key exactly once, each record built from that key's entry |
| Stats.GetStats | src/handlers/stats.rs:27-91 | 401 exactly without a validated key; an admin gets the queried key's record or 404, or, without a query, one record per tracked key, built from an enumeration of the keys; a user's query is ignored, and they get their own record or an all-zero one, never 404 |
| Config.NonEmptyMembers | src/main.rs:48 | the filter keeps exactly the non-empty strings |
| Config.ParseKeyList | src/main.rs:45-56 | parsing yields at most one key per comma-separated piece |
| Config.ParseKeyListMembers | src/main.rs:45-56 | every parsed key is non-empty, comma-free and has no whitespace at its ends; the keys are exactly the trimmed pieces between commas that are non-empty |
| Config.ParseKeyListAppend | src/main.rs:45-49 | parsing keeps order: the keys of `a,b` are the keys of `a` followed by the keys of `b` |
| Config.ParseSingleKey | src/main.rs:45-49 | a single well-formed key parses to exactly itself |
| Config.DefaultKeyLists | src/main.rs:41-56 | the default user list is exactly "secret-key" and the default admin list is empty |
| Config.EnvVar | src/main.rs:41-42 | a variable's text exactly when it is set to valid Unicode; an unset variable and a non-Unicode value both give nothing, so the caller's default applies |
| Config.LoadConfigDefaults | src/main.rs:41-56 | with the key variables unset or not valid Unicode, the user keys are exactly ["secret-key"] and there are no admin keys |
| Config.LoadConfig | src/main.rs:41-79 | the key lists are parsed from the variables or their defaults; the provider is Ollama, with the OpenAI-compatible backend as fallback exactly when both OpenAI variables are set to valid Unicode; the limiter allows 60 requests a minute |
| Config.ConfiguredFallbackChat | src/main.rs:61-79 | with both OpenAI variables set to valid Unicode, a request Ollama cannot serve goes unchanged to the OpenAI backend, whose answer is final |
| Gateway.Handle | src/main.rs:102-124 | authentication runs first, so a bad key gets 401 and no state changes; the limiter runs second, so an empty bucket gets 429 and changes only that bucket; an admitted request reaches the handler and is recorded once by the tracker; the order against a streamed body's bookings does not matter, as `ChatHandler.StreamBookingCommutes` proves |
| Gateway.RefusalIgnoresHandler | src/main.rs:102-114 | a refused request's answer and state do not depend on the handler at all |
| Gateway.RefusalsAreNotTracked | src/main.rs:102-114 | a request is refused exactly when it is not admitted, and a refused request leaves the tracker untouched |
| Gateway.AdmittedCountsOnce | src/main.rs:102-114 | an admitted, answered request adds one request and its latency to its key, and one error exactly for a 5xx; other keys keep what the handler left |

## Left out

- Serialisation is not modelled: `serde` JSON of requests, responses and `stats.json`, and the UTF-8 lossy decoding of stream bytes. Parsed values are inputs, and a stream frame is text.
- `dotenv().ok()` reads a `.env` file, which is file I/O; whatever it adds is taken to be in the environment map already.
- `RequestTracker::load_from_file` and `save_to_file` are file I/O. The model starts from `NewTracker`.
- Logging is not modelled: `tracing`, `info!`/`error!` and actix's `Logger`, which does not change responses.
- Locks are not modelled: `RwLock`/`Mutex` around the tracker and the buckets, and the races between the limiter's read and write paths. Each call is one sequential update. A failed lock acquisition, which the handler only logs, is not modelled.
- The `/v1/health` route just answers "ok". The socket binding in `main` is not modelled.
- `OllamaProvider::chat_stream` is `todo!()` in the source, so it would panic. The OpenAI-compatible backend's calls are outside this core. Both enter as the `Upstream` parameters `stream` and `openai`.
- `Ollama.ToCompletion`: a debug build would panic on the `u32` overflow of `prompt_eval_count + eval_count`. The model follows the release build, which wraps.
- `Tracking.RecordRequest`: the `u64` counters are unbounded naturals, so the overflow after 2^64 is not modelled.
- `Tracking.RecordTokens`: the `u64` counters are unbounded naturals, as above.
- `Stats.MaskKey`: the source slices UTF-8 bytes, the model characters. They agree on the visible-ASCII keys that pass authentication; the source's panic on a multi-byte character at the cut is not modelled.
- `Stats.AverageLatency`: `f64` division is modelled as exact real division, so rounding is not modelled.
- `RateLimit.TryConsume`: `f64` refill arithmetic is modelled with exact reals, so rounding is not modelled.
- `Stats.ListAllStats`: `HashMap` iteration order is unspecified. The method returns the order it used, and the contract admits any order that lists each key once.
- `ChatHandler.Delivered` / `ChatHandler.ForwardStream`: the items are the ones actix polls from the body. A client that disconnects makes actix drop the body, so the remaining frames, often including the final usage frame, are neither forwarded nor booked; the model assumes the body is read to its end or to the first error.
- `ChatHandler.ChatCompletions`: one time `nowMs` serves the whole request. The source reads the clock only inside `KeyStats::new`, when a frame books the first tokens of a key that has no entry yet; the model stamps such an entry with `nowMs`.
- `Gateway.Handle`: the handler's answer and latency are inputs, and routing (`/v1/chat/completions`, `/v1/stats`) is not modelled.
