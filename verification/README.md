# language-simplifier, modelled in Dafny

language-simplifier is a Telegram bot with a Web App. A reader pastes English text
and gets it back rewritten for a CEFR level (A2 to C2), streamed token by token
over a WebSocket. The server side has four parts:

- It checks the Web App's signed `initData` (a query string signed with
  HMAC-SHA256 under a key derived from the bot token).
- It builds a system prompt and a user prompt.
- It streams the model's deltas from the OpenAI SDK, optionally coalesced
  into time-boxed chunks.
- It relays them to the client as numbered `token` events between a `start`
  and an `end` event.

The bot itself guards its commands with a small in-memory sliding-window rate
limiter.

The Dafny project models these parts, one module per source file:

| module | file | source | form |
|---|---|---|---|
| `Common` | `common.dfy` | helpers: `"".join`, `"\n".join` and `str.split("\n")` | pure |
| `Security` | `security.dfy` | `app/security.py` | pure |
| `Prompting` | `prompting.dfy` | `app/prompting.py` | pure |
| `Providers` | `providers.dfy` | `app/providers.py` | mixed |
| `Session` | `session.dfy` | `app/ws_adapt.py` | imperative |
| `RateLimiting` | `ratelimit.dfy` | `RateLimit` and `SimpleRateLimiter` in `bot/bot.py` | imperative |

**Security.** Python's stable `sorted(..., key=lambda kv: kv[0])` is modelled by
an insertion sort under code-point order. Its result is proved to be:

- a permutation of the input;
- sorted by key;
- stable: for every key, the pairs with that key keep their wire order.

A sequence sorted by key is also proved to be determined by its per-key
subsequences (`SortUnique`). From this follow these facts about the data-check
string and the signature check:

- `hash` pairs do not count, wherever they stand;
- the order of pairs with distinct keys does not matter;
- appending the expected hash produces init data that verifies.

HMAC-SHA256, UTF-8 encoding and hex encoding are parameters (`Primitives`).

**Providers.** The filtering loop of `_tokens` and the buffering loop of
`_coalesce` are methods. Each is proved equal to a functional description:
`Usable`, and the state machine `Feed`/`FeedAll`/`Coalesced`. Lemmas about those
descriptions show:

- no empty chunk is ever yielded;
- after a normal end, the chunks spell out exactly the upstream delta text;
- after a failure, they spell out a prefix of it;
- with a zero interval every token passes through alone;
- a quiet window gives one chunk.

The SDK is a parameter (`Client`). Its import can fail, its call can raise, and
otherwise it yields a stream of timed events that ends normally or with an error.

**Session.** `ws_adapt_handler` is a method on a `WebSocket` object. The object
records:

- the events sent;
- the close codes;
- whether the application state is still CONNECTED;
- `room`, the number of further messages the peer accepts before it turns out
  to be gone.

The handler is proved to put on the wire exactly `Deliver(SessionPlan(...), room)`.
That is the planned event log truncated where the peer left, with the close
only when the whole plan got through. Lemmas about the plan give the order of
the handshake checks and their close codes (1003, 1008, 1011, 1000). They also
give the shape of the stream: `start`, tokens numbered 0..n-1, then `end` with
n or a `provider error`.

**Rate limiting.** `SimpleRateLimiter` keeps a map from (user, action) to hit
times, and `Hit` is proved to update only its own key. The anti-flood theorem
states: with a clock that never runs backwards, no window of `window` length
ending at any moment holds more than `max_hits` admitted hits.

Three behaviours of the code are easy to misread, and the model follows the code
in each:

- **Secondary key.** The secondary key is HMAC-SHA256 with the string
  "WebAppData" as the key and the bot token as the message
  (app/security.py:35-37), not the other way round. `ExpectedHash` does the same.
- **No flush on failure.** When the upstream iteration fails, the
  `ProviderError` leaves `_run` before its final flush (app/providers.py:30-42),
  so the buffered text never reaches the client. `Coalesced` flushes only after
  a normal end, and `CoalescedKeepsText` promises only a prefix of the text
  after a failure.
- **Non-ASCII hash.** `hmac.compare_digest` on two `str` values raises
  `TypeError` when either holds a non-ASCII character (app/security.py:43).
  A non-empty received `hash` such as `%C3%A9` therefore makes
  `verify_init_data` raise rather than return false. The handler's `except`
  (app/ws_adapt.py:47-50) turns that into a "bad init message" error with
  close 1003, not "invalid init_data" with 1008. `Security.VerifyInitData`
  returns an `Outcome` that carries the raise, and `Session.Handshake` routes
  it to 1003.

## Model

| member | source | states |
|---|---|---|
| Common.Concat | app/providers.py:26 | `"".join(parts)`; the result is empty exactly when every part is empty |
| Common.JoinLines | app/security.py:25 | `"\n".join(lines)`; its properties are `Common.SplitJoin`, `Common.JoinLinesEmpty` and `Common.JoinLinesAppend` |
| Common.SplitJoin | app/security.py:25 | splitting `"\n".join(lines)` on `"\n"` returns the lines, when none of them holds a line break |
| Common.JoinLinesEmpty | app/security.py:25 | `"\n".join` is empty exactly for no lines or one empty line |
| Common.JoinLinesAppend | app/security.py:25 | joining two non-empty runs of lines puts exactly one break between them |
| Common.ConcatAppend | app/providers.py:26 | `"".join` of a concatenation is the concatenation of the joins |
| Security.KeyLeTotal | app/security.py:22 | any two keys are comparable in code-point order |
| Security.KeyLeTransitive | app/security.py:22 | code-point order on keys is transitive |
| Security.KeyLeAntisymmetric | app/security.py:22 | keys each at most the other are equal |
| Security.Insert | app/security.py:22 | one insertion step keeps every pair: the result is the input plus the new pair, as a multiset |
| Security.SortByKey | app/security.py:22 | `sorted` returns a permutation of the pairs |
| Security.SortSorted | app/security.py:22 | `sorted` returns pairs in nondecreasing key order |
| Security.InsertKeyFilter | app/security.py:22 | inserting a pair puts it in front of the pairs with the same key that were already sorted, and changes no other key's subsequence |
| Security.SortKeyFilter | app/security.py:22 | the sort is stable: for every key, its pairs keep their wire order |
| Security.SortUnique | app/security.py:22 | two key-sorted sequences with the same per-key subsequences are equal, so the stable sort has one possible result |
| Security.KeyFilter | app/security.py:20-24 | the pairs selected for a key are exactly the pairs of the input that have that key |
| Security.RemoveHash | app/security.py:23 | the comprehension keeps exactly the pairs whose key is not `hash` |
| Security.RemoveHashKeyFilter | app/security.py:23 | dropping `hash` pairs empties the `hash` subsequence and leaves every other key's subsequence alone |
| Security.CheckPairs | app/security.py:20-24 | the non-`hash` pairs of `sorted(pairs)`; what they are is stated by `Security.CheckPairsCanonical` and `Security.CheckPairsDetermined` |
| Security.Render | app/security.py:21 | one `f"{k}={v}"` line; `Security.DataCheckStringLines` shows each check pair comes back as its own line |
| Security.RenderAll | app/security.py:21 | renders every check pair in order: one line per pair, the i-th line rendering the i-th pair |
| Security.CheckPairsCanonical | app/security.py:20-24 | the pairs rendered into the check string are the non-`hash` pairs, sorted by key, each key's pairs in wire order |
| Security.CheckPairsDetermined | app/security.py:20-24 | two inputs with the same non-`hash` pairs per key, in the same per-key order, give the same check pairs |
| Security.DataCheckString | app/security.py:19-25 | `data_check_string`: the rendered `k=v` check pairs joined with `"\n"`; its properties are the `Security.DataCheckString*` rows |
| Security.DataCheckStringEmpty | app/security.py:19-25 | the check string is empty exactly when every pair is a `hash` pair |
| Security.DataCheckStringLines | app/security.py:19-25 | with no line breaks in keys or values, splitting the check string on `"\n"` gives one `k=v` line per check pair, with no trailing separator |
| Security.DataCheckStringIgnoresHash | app/security.py:19-25 | removing all `hash` pairs leaves the check string unchanged |
| Security.DataCheckStringPermutation | app/security.py:19-25 | reordering pairs with pairwise distinct keys leaves the check string unchanged |
| Security.ToDict | app/security.py:28 | `dict(pairs)` with later pairs overwriting earlier ones; it has at most one entry per pair |
| Security.ToDictKeys | app/security.py:28 | the keys of `dict(pairs)` are the keys that occur among the pairs |
| Security.ToDictLastWins | app/security.py:28 | a duplicated key maps to the value of its last pair |
| Security.DistinctToDict | app/security.py:28 | with distinct keys, `dict(pairs)` holds exactly the given pairs |
| Security.DictPermutation | app/security.py:28 | with distinct keys, `dict(pairs)` does not depend on the order of the pairs |
| Security.ExpectedHash | app/security.py:33-41 | the hex digest of HMAC(HMAC("WebAppData", bot token), check string); the pairs reach it only through the check string, so the `Security.DataCheckString*` properties carry over to it |
| Security.CompareDigest | app/security.py:43 | `compare_digest` raises exactly when either string holds a non-ASCII character, and otherwise returns whether they are equal |
| Security.VerifyInitData | app/security.py:27-43 | `verify_init_data`: it returns true only when the last `hash` value is non-empty and equals the expected digest, and the only error the model raises is the non-ASCII `TypeError` |
| Security.VerifyRejectsMissingHash | app/security.py:27-31 | without a `hash` pair the check returns false |
| Security.VerifyComparesLastHash | app/security.py:27-43 | the check reads the last `hash` value. It returns false when that value is empty, raises when it or the expected digest holds a non-ASCII character, and otherwise returns whether it equals the hex digest of HMAC(HMAC("WebAppData", bot token), check string) |
| Security.VerifyRaisesOnNonAsciiHash | app/security.py:27-43 | a non-empty received hash with a non-ASCII character makes the check raise the `TypeError`, whatever the expected digest |
| Security.SignedInitDataVerifies | app/security.py:27-43 | appending the expected hash to any pair list gives init data that verifies, whatever `hash` pairs it held before, unless the digest is empty or not ASCII |
| Security.VerifyPermutation | app/security.py:27-43 | the verdict does not depend on the order of pairs with distinct keys |
| Security.ParseInitDataForApp | app/security.py:9-17 | `parse_init_data_for_app`: the last-wins dictionary with `user` decoded; its properties are `Security.ParseInitDataForAppLastWins` and `Security.ParseInitDataForAppKeys` |
| Security.ParseInitDataForAppLastWins | app/security.py:9-17 | every key holds its last value as text, except `user`, which holds its JSON decoding when decoding succeeds and the raw text otherwise |
| Security.ParseInitDataForAppKeys | app/security.py:9-17 | the app's dictionary has exactly the keys that occur in the init data |
| Prompting.TableDomains | app/prompting.py:3-15 | the known levels are A2, B1, B2, C1, C2 and the known modes are simplify, summary, glossary |
| Prompting.BuildSystemPrompt | app/prompting.py:18-34 | `build_system_prompt`: the thirteen template lines joined with `"\n"`; its properties are the `Prompting.SystemPrompt*` rows, `Prompting.UnknownModeIsSimplify` and `Prompting.KnownLevelsDistinguished` |
| Prompting.ModeInstruction | app/prompting.py:22 | `MODES.get(mode, MODES["simplify"])`; `Prompting.UnknownModeIsSimplify` and `Prompting.SystemPromptGoal` state the fallback |
| Prompting.LevelGuidance | app/prompting.py:33 | `LEVEL_DESCRIPTIONS.get(level, LEVEL_DESCRIPTIONS["B1"])`; `Prompting.SystemPromptGuidance` states the fallback and `Prompting.KnownLevelsDistinguished` that known levels differ |
| Prompting.SystemPromptLines | app/prompting.py:20-34 | the template's thirteen lines after dedent and strip; `Prompting.SystemPromptGoal`, `Prompting.SystemPromptRuleOne`, `Prompting.SystemPromptRuleTwo` and `Prompting.SystemPromptGuidance` locate its lines in the joined prompt |
| Prompting.UnknownModeIsSimplify | app/prompting.py:22 | an unknown mode produces the same system prompt as `simplify` |
| Prompting.SystemPromptGoal | app/prompting.py:18-22 | the prompt opens with the introduction line, then the goal line with the mode's instruction (the `simplify` one for an unknown mode) |
| Prompting.SystemPromptRuleOne | app/prompting.py:24-25 | rule 1 carries the level string exactly as given, also for an unknown level |
| Prompting.SystemPromptRuleTwo | app/prompting.py:26 | rule 2, right after rule 1, also carries the level string exactly as given, also for an unknown level |
| Prompting.SystemPromptGuidance | app/prompting.py:32-34 | the prompt ends with the guidance heading and the level's guidance, which is B1's guidance for an unknown level |
| Prompting.KnownLevelsDistinguished | app/prompting.py:3-9 | different known levels get different guidance |
| Prompting.BuildUserPrompt | app/prompting.py:37-39 | `build_user_prompt`: the fixed prefix followed by the text; its properties are `Prompting.UserPromptRoundTrip` and `Prompting.UserPromptInjective` |
| Prompting.UserPromptRoundTrip | app/prompting.py:37-39 | the text can be recovered from the user prompt by removing the fixed prefix |
| Prompting.UserPromptInjective | app/prompting.py:37-39 | different texts give different user prompts |
| Providers.ExtractDelta | app/providers.py:48-60 | a delta is found only in a readable event with a first choice that has a delta; for a dict it is the "content" entry, for an object its `content` attribute, and `None` otherwise |
| Providers.Usable | app/providers.py:98-103 | `_tokens` hands on no more fragments than there are events, and never an empty one |
| Providers.UsableOne | app/providers.py:100-103 | one event gives its own delta at its own arrival time exactly when that delta is present and non-empty, and nothing otherwise |
| Providers.UsableAppend | app/providers.py:98-103 | every event is handled on its own: the fragments of two runs of events are the first run's followed by the second's |
| Providers.EndOf | app/providers.py:104-109 | the token stream ends normally exactly when the upstream iteration did |
| Providers.Tokens | app/providers.py:98-109 | the filtering loop yields exactly the usable deltas in order, and turns an iteration error into "stream error: ..." |
| Providers.UsableKeepsText | app/providers.py:100-103 | dropping missing and empty deltas loses no text |
| Providers.Flush | app/providers.py:22-28 | `flush()` returns `None` exactly when the buffer is empty |
| Providers.Feed | app/providers.py:30-37 | one pass of the buffering loop; its rule is `Providers.FeedRule` |
| Providers.FeedAll | app/providers.py:30-37 | the buffer state after a run of arrivals; its properties are `Providers.FeedAllKeepsText` and `Providers.FeedAllNoEmptyChunk` |
| Providers.Coalesced | app/providers.py:30-42 | all that `_coalesce` yields; its properties are the `Providers.Coalesced*`, `Providers.EmptySourceYieldsNothing`, `Providers.ZeroIntervalPassesThrough` and `Providers.QuietStreamIsOneChunk` rows |
| Providers.Coalesce | app/providers.py:11-45 | the buffering loop yields exactly the chunks of the `Feed` state machine, with a final flush only after a normal end |
| Providers.FeedRule | app/providers.py:30-37 | a chunk comes out only when the interval has elapsed since `last`; then the buffer empties and `last` moves to the arrival time; otherwise the token is only buffered; yielded chunks are never taken back |
| Providers.FeedAllKeepsText | app/providers.py:30-37 | at every point, yielded text followed by buffered text is exactly the text that has arrived |
| Providers.FeedAllNoEmptyChunk | app/providers.py:34-36 | the loop never yields an empty chunk |
| Providers.CoalescedKeepsText | app/providers.py:30-42 | after a normal end the chunks spell out all the tokens in order; after a failure they spell out a prefix |
| Providers.CoalescedNoEmptyChunk | app/providers.py:34-42 | no chunk, the final one included, is empty |
| Providers.EmptySourceYieldsNothing | app/providers.py:39-42 | an empty source yields nothing, however it ends |
| Providers.ZeroIntervalPassesThrough | app/providers.py:30-37 | with interval 0 and a clock that never runs backwards, every non-empty token is yielded at once as its own chunk |
| Providers.QuietWindowBuffers | app/providers.py:30-37 | while no arrival is `interval` after the start, nothing is yielded and everything stays buffered |
| Providers.QuietStreamIsOneChunk | app/providers.py:30-42 | a stream that ends normally inside one quiet window yields exactly one chunk with all its text, or nothing when there is no text |
| Providers.BuildRequest | app/providers.py:82-94 | the chat request: key, model, the system and user messages, and `stream=True`; its content is stated by `Providers.RequestCarriesText` |
| Providers.RequestCarriesText | app/providers.py:82-94 | the request holds the system prompt for the level and mode and a user message from which the text can be recovered, and it asks for streaming |
| Providers.BatchingOn | app/providers.py:112 | `batch_interval_ms and batch_interval_ms > 0`: `Providers.AdaptPassThrough` states what passes when it is off, and `Providers.AdaptKeepsText` holds either way |
| Providers.AdaptSpec | app/providers.py:63-116 | what `openai_adapt_stream` yields and how it ends; its properties are `Providers.AdaptErrors`, `Providers.AdaptPassThrough` and `Providers.AdaptKeepsText` |
| Providers.AdaptStream | app/providers.py:63-116 | the provider yields exactly what `AdaptSpec` describes: import failure, call failure, or the usable deltas, coalesced only for a positive interval |
| Providers.AdaptErrors | app/providers.py:75-109 | a failed import and a failed call yield nothing and end with the matching error; the stream ends normally exactly when the upstream iteration does, and an iteration error becomes "stream error: ..." |
| Providers.AdaptPassThrough | app/providers.py:111-116 | without a positive interval every usable delta passes through as its own chunk, in order |
| Providers.AdaptKeepsText | app/providers.py:98-116 | with or without batching no chunk is empty; the chunks spell out a prefix of the upstream delta text, and all of it after a normal end |
| Session.WebSocket.constructor | app/ws_adapt.py:14 | an accepted socket is connected and has sent nothing |
| Session.WebSocket.SendText | app/ws_adapt.py:19 | a send is delivered while the peer is there; otherwise the socket leaves CONNECTED and the caller sees a disconnect |
| Session.WebSocket.Close | app/ws_adapt.py:29 | a close is recorded only on a connected socket, which then leaves CONNECTED |
| Session.Send | app/ws_adapt.py:16-19 | `send` does nothing unless the socket is connected, and reports a peer that has gone |
| Session.Handshake | app/ws_adapt.py:21-50 | the handshake checks in the handler's order; its properties are `Session.HandshakeOrder` and `Session.HandshakeDefaults` |
| Session.HandshakeOrder | app/ws_adapt.py:21-50 | the message is accepted exactly when it is readable, signed, of source type text with a non-empty payload, and a key is configured. The close is 1008 exactly for a signature check that returns false and 1011 exactly for a missing key. It is 1003 for an unreadable message, a signature check that raises (with "bad init message: " and the error), or a bad source or payload |
| Session.HandshakeDefaults | app/ws_adapt.py:33-37 | an accepted payload is non-empty, the level defaults to B1, and a missing source type counts as text |
| Session.RejectBadInit | app/ws_adapt.py:47-50 | an unreadable first message gets one "bad init message" error and close 1003 |
| Session.Reject | app/ws_adapt.py:26-45 | a failed check sends its error and closes with its code, and shows nothing if the peer is gone |
| Session.AdaptHandler | app/ws_adapt.py:12-83 | the wire carries exactly the session plan truncated where the peer left, and the plan's close code only when the whole plan got through |
| Session.Stream | app/ws_adapt.py:52-83 | the streaming half sends `start`, the numbered tokens and the terminal event while the peer is there, and closes with 1000 only if still connected |
| Session.SessionPlan | app/ws_adapt.py:52-83 | the events the handler means to send and its close code; its properties are `Session.RejectedSession`, `Session.EmptyPayloadNeverStreams`, `Session.StreamLogShape`, `Session.StreamLogCounts` and `Session.SeqContiguous` |
| Session.TokenEvents | app/ws_adapt.py:68-70 | one `token` event per chunk, numbered from 0; `Session.StreamLogShape` and `Session.SeqContiguous` state the numbering |
| Session.Terminal | app/ws_adapt.py:72-78 | `end` with the token count after a normal end, else the provider error; `Session.StreamLogShape` and `Session.StreamLogCounts` state it |
| Session.StreamEvents | app/ws_adapt.py:53-78 | `start`, the token events, then the terminal event; `Session.StreamLogShape` and `Session.StreamLogCounts` state its shape |
| Session.Deliver | app/ws_adapt.py:74-83 | what reaches a peer that accepts `room` messages before it is gone; `Session.DeliveryRules` states it and `Session.AdaptHandler` is proved to produce it |
| Session.RejectedSession | app/ws_adapt.py:21-50 | a rejected session plans exactly one error with null `seq`, never `start`, and closes with the handshake's code |
| Session.EmptyPayloadNeverStreams | app/ws_adapt.py:34-40 | an empty payload gives a single error whatever the provider would do |
| Session.StreamLogShape | app/ws_adapt.py:53-78 | the log is `start` with null `seq`, the chunks as `token` events numbered 0..n-1 in order, then `end` with `seq` n exactly when the provider finished normally, or else the provider error |
| Session.StreamLogCounts | app/ws_adapt.py:53-78 | a streaming log has one `start` and exactly one terminal event, and no `end` after a provider failure |
| Session.SeqContiguous | app/ws_adapt.py:54-72 | in any session every numbered event's `seq` is its position among the numbered events, and no unnumbered event comes between two numbered ones, so the values run 0, 1, 2, ... with no gap or repeat |
| Session.DeliveryRules | app/ws_adapt.py:74-83 | the client sees a prefix of the plan and at most one close, which comes exactly when the whole plan got through |
| Session.ThreeFragmentExample | app/ws_adapt.py:53-72 | with no coalescing, three fragments produce `start`, tokens 0, 1, 2 and `end` with 3 |
| RateLimiting.Recent | bot/bot.py:61 | the filter keeps exactly the entries inside the window and never adds any |
| RateLimiting.RecentKeepsOrder | bot/bot.py:61 | the filter keeps the old entries in their original order |
| RateLimiting.Record | bot/bot.py:59-63 | the list stored after a hit; its properties are `RateLimiting.RecordSorted` and `RateLimiting.ReplayIsWindow`, and `RateLimiting.SimpleRateLimiter.Hit` stores it |
| RateLimiting.SimpleRateLimiter.constructor | bot/bot.py:51-53 | a new limiter has its configuration and no hits |
| RateLimiting.SimpleRateLimiter.Stored | bot/bot.py:59 | `self._hits.get(k, [])`, empty for a new key; `RateLimiting.SimpleRateLimiter.Hit` filters it and `RateLimiting.FirstHitAllowed` covers the empty case |
| RateLimiting.SimpleRateLimiter.Hit | bot/bot.py:55-64 | a hit rebuilds only its own key's list (recent entries, then now), and is admitted exactly when that list holds at most `max_hits` entries |
| RateLimiting.HitCountsRecent | bot/bot.py:61-64 | a hit is admitted exactly when fewer than `max_hits` recent hits precede it |
| RateLimiting.FirstHitAllowed | bot/bot.py:38-42 | the first hit on a key is admitted exactly when `max_hits` is at least 1, so always under the defaults |
| RateLimiting.RecordSorted | bot/bot.py:61-63 | with a clock that never runs backwards, each stored list stays sorted |
| RateLimiting.ReplayIsWindow | bot/bot.py:55-64 | after a run of hits, the stored list is every hit, admitted or not, inside the window ending at the latest one |
| RateLimiting.AntiFlood | bot/bot.py:45-64 | with a clock that never runs backwards, no window ending at any moment holds more than `max_hits` admitted hits |

## Left out

- Cryptography: HMAC-SHA256, UTF-8 encoding and hex encoding are the uninterpreted parameters of `Security.Primitives`. `Security.CompareDigest` models `hmac.compare_digest` as equality with its non-ASCII `TypeError`; that the comparison runs in constant time is not modelled. Because the hex encoder is a parameter, nothing states that the expected digest is ASCII and non-empty.
- Query-string parsing: `parse_qsl` (percent decoding, blank values) is not part of this model. `Security` starts from the (key, value) pairs it returns, and `Session.Env` takes the parser as a parameter.
- JSON: `json.loads` of the `user` field is the `decode` parameter of `Security.ParseInitDataForApp`. `json.loads` and `json.dumps` in the handler are not part of this model. The first message is either unreadable or an object. `Session.InitMessage.Unreadable` carries the error text of a message that `json.loads` rejects, or that is JSON but has no `.get`. It also stands for a binary first frame: `receive_text()` then raises `KeyError('text')`, and the client gets "bad init message: 'text'" with close 1003.
- Session.InitMessage: field values are strings only, so non-string JSON values are not modelled. The source does not reject them as such. A non-empty non-string `payload` passes the checks and streams, since the user prompt formats it with `str()` (app/prompting.py:39). So does a hashable non-string `level` (a number, a boolean or `null`): it appears through `str()` in rules 1 and 2 and gets B1's guidance. A list or object `level` also passes the handshake (app/ws_adapt.py:35). But once `start` has been sent, the guidance lookup `LEVEL_DESCRIPTIONS.get(level, …)` (app/prompting.py:33, reached from app/providers.py:82) raises `TypeError: unhashable type`, which is not a `ProviderError`. The client then gets `start`, one "internal error: unhashable type: …" error (app/ws_adapt.py:79-80) and close 1000, and no tokens. If the `openai` import fails, the provider error comes first instead. A `source_type` of `null` fails the text check and is refused with 1003 as an unsupported source. An `init_data` of `null` reaches `parse_qsl` as no pairs and is refused with 1008.
- Security.VerifyInitData: Dafny strings are sequences of Unicode scalar values, so lone surrogates are not modelled. In the source, a `\ud800` escape in the first message survives `json.loads` and `parse_qsl`. When such a character sits in a non-`hash` key or value and the last `hash` is non-empty, `data_check_string(...).encode("utf-8")` raises `UnicodeEncodeError` (app/security.py:40). The handler turns that into "bad init message: 'utf-8' codec can't encode …" with close 1003 (app/ws_adapt.py:47-50). Correctly signed init data cannot hold such a character, so only the rejection's message and code differ.
- Time: clock readings and intervals are whole milliseconds. The source's float seconds (`interval_ms / 1000.0`, `window_sec = 2.0`, `time.monotonic()`) are not modelled, nor is rounding in them.
- Clocks and the network are inputs: every upstream event carries its arrival time, a stream carries the clock reading at which coalescing starts, and a hit carries `now`.
- Laziness and concurrency: the handler first computes the provider's whole output (`Providers.AdaptStream`) and then sends it. In the source, generators are consumed while events are sent. The events and their order are the same, except for timing and cancellation (`asyncio.CancelledError`).
- Session.AdaptHandler: the "internal error" branch (app/ws_adapt.py:79-80) is not modelled. Its one route is a list or object `level` that reaches the guidance lookup (see `Session.InitMessage` above), and the model's field values are strings. No modelled step raises anything other than `ProviderError` or a disconnect.
- Session.AdaptHandler: a disconnect while sending `start` propagates out of the handler. The model ends the session there and does not track the escaping exception.
- Session.WebSocket.Close: closing a socket that is no longer connected raises in Starlette. The model treats it as having no visible effect.
- Prompting.BuildSystemPrompt: the result of `dedent(...).strip()` is modelled as the thirteen template lines joined with `"\n"`. This holds when the level and the mode instruction contain no line breaks and no leading or trailing whitespace, as is the case for every table entry. A level string with embedded line breaks, which would change the dedent margin, is not modelled.
- The OpenAI SDK: `AsyncOpenAI`, its request and its event objects are the `Providers.Client` parameter. Exceptions are modelled by their message text only.
- Settings loading (`app/settings.py`), the HTTP server (`app/server.py`) and the rest of `bot/bot.py` (handlers, keyboards, start-up) are not part of this model.
- `ProviderError` as a class is represented by `Providers.StreamEnd.Failed` with its message.
