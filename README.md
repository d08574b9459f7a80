# Live-stream chat moderation, modelled in Dafny

The system watches the live chat of one YouTube stream and scores each
message with a toxicity classifier. It sorts every message into one of
three tiers: `NORMAL`, `TOXIC_ELEMENTS` (p ≥ 0.20) or `LIKELY_TOXIC`
(p ≥ 0.60). It then pushes each event as JSON to every connected dashboard
over a websocket.

- The backend (`GetChatsBackend.py`) keeps one current worker thread. It is
  started and stopped over HTTP and shares one stop event.
- The dashboard (`static/javascript.js`) escapes each event into HTML and
  puts the card at the top of one of three feeds.
- An earlier command-line script (`GetChats.py`) makes the same three-way
  decision and prints it.

The model has one module per component:

| module | file | what it models |
|---|---|---|
| `Wrappers` | wrappers.dfy | `Option` and `Result` |
| `Text` | text.dfy | The characters a stream id uses. Python's `str.strip` and JavaScript's `trim`, each with its own whitespace set written out. ASCII upper-casing. `str.replace` of one character and a chain of such replacements. |
| `VideoId` | video_id.dfy | `extract_video_id` and the dashboard's `extractVideoId` |
| `JsonEscape` | json_escape.dfy | `escape_json`, plus the JSON string decoder from section 7 of RFC 8259 as its partner |
| `HtmlEscape` | html_escape.dfy | `escapeHtml`, plus a decoder of the five character references it produces |
| `Classifier` | classifier.dfy | `tier_for_score`, `get_scores` over an abstract classifier response, and the `p_toxic` pick |
| `Cli` | cli.dfy | `GetChats.py`'s two flags and its tag |
| `Broadcast` | broadcast.dfy | The `clients` set of bounded queues (`Hub`, `Mailbox`), `ws_endpoint`'s registration, and `broadcast_json` / `_push` |
| `Worker` | worker.dfy | The `chat_worker` loop, as a method proved against a recursive trace function. Also the event it builds and the hand-spliced error notice. |
| `Session` | session.dfy | `start`, `stop` and `status` over `worker_thread`, `stop_flag` and `current_video_id`, written as the code has them (`Controller`). Also the corrected design (`SignalledController`). |
| `Dashboard` | dashboard.dfy | `CreateMsgCard`'s class, tag and link choices, `MsgCardClassification`'s feed routing and `connectWS`'s guard, with a lemma that joins it to the backend's events |

External inputs are parameters:

- The chat source is a sequence of polls. Each poll is either a batch of messages or the text of the exception it raised.
- The classifier's response for each message comes with the message as a JSON-like `Value`.
- The shared stop flag is an oracle `flag: nat -> bool`. `flag(k)` is what the `k`-th `is_set()` call returns.
- A thread join with a two-second timeout is a boolean `joined`: the thread ended in time, or it did not.
- The text of a scoring exception is a parameter `describe`.
- The worker's loop is proved for any scorer (a `Worker.Scorer`: a score-or-error function and the error's text). `Worker.ChatWorker` instantiates it with `PScore`, the backend's `get_scores` followed by the `p_toxic` pick.

## Model

| member | source | states |
|---|---|---|
| Text.WhitespaceDifference | GetChatsBackend.py:91 | Python's `strip` and JavaScript's `trim` disagree on exactly U+001C–U+001F, U+0085 and U+FEFF |
| Text.TrimStart | GetChatsBackend.py:91 | The result is a suffix of the input. It does not start with whitespace, and everything removed was whitespace. |
| Text.TrimEnd | GetChatsBackend.py:91 | The result is a prefix of the input. It does not end with whitespace, and everything removed was whitespace. |
| Text.Strip | GetChatsBackend.py:91 | A non-empty result starts and ends with a non-whitespace character |
| Text.StripIsTrims | GetChatsBackend.py:91 | Stripping equals trimming the start, then the end |
| Text.StripIsSubstring | GetChatsBackend.py:91 | The stripped string occurs in the input |
| Text.StripKeeps | GetChatsBackend.py:137 | A string that neither starts nor ends with whitespace is its own strip |
| Text.StripAgrees | static/javascript.js:10 | Two whitespace sets that agree on every character of `s` strip `s` alike |
| Text.Upper | GetChatsBackend.py:58 | Same length; each character is upper-cased in place |
| Text.Replace | GetChatsBackend.py:179 | Every occurrence of one character becomes the replacement text; `ReplaceOne`, `ReplaceAppend` and `ReplaceAbsent` state its behaviour |
| Text.ReplaceAppend | GetChatsBackend.py:179 | `str.replace` of one character distributes over concatenation |
| Text.ReplaceAbsent | GetChatsBackend.py:179 | Replacing a character that does not occur changes nothing |
| Text.ReplaceChain | GetChatsBackend.py:178-184 | The replacements applied one after another, the first rule first; `ReplaceChainAppend`, `ReplaceChainAbsent` and `ReplaceChainHit` state its behaviour |
| Text.ReplaceChainAppend | GetChatsBackend.py:178-184 | A chain of replacements distributes over concatenation |
| Text.ReplaceChainAbsent | GetChatsBackend.py:178-184 | A chain none of whose characters occurs changes nothing |
| Text.ReplaceChainHit | static/javascript.js:31-36 | A character matched by rule k, and by no earlier rule, becomes rule k's text, provided no later rule touches that text |
| VideoId.Search | GetChatsBackend.py:103 | `re.search` for one pattern finds its leftmost match at or after `from`, or reports that there is none |
| VideoId.FirstHit | GetChatsBackend.py:102-107 | Any hit is an 11-character id occurring in the text |
| VideoId.FirstHitSpec | GetChatsBackend.py:102-107 | None exactly when no pattern matches anywhere. Otherwise the hit is the group of the leftmost match of the first pattern that matches. |
| VideoId.FirstMatchUnique | GetChatsBackend.py:102-105 | The first matching pattern and its leftmost position are unique |
| VideoId.ExtractFromStripped | GetChatsBackend.py:93-107 | A bare 11-character id is returned as it is. Any other result is an id occurring in the text. |
| VideoId.ExtractOrder | GetChatsBackend.py:93-107 | Patterns are tried only when the text is not a bare id. The result is the first hit of `v=`, `youtu.be/`, `live/` in that order. |
| VideoId.ExtractVideoId | GetChatsBackend.py:90-107 | Any result is an 11-character id from `[A-Za-z0-9_-]` occurring in the whitespace-stripped input |
| VideoId.ExtractFixedPoint | GetChatsBackend.py:90-94 | An extracted id is its own strip, and extracting from it returns it through the full-match branch |
| VideoId.EmptyHasNoId | GetChatsBackend.py:107 | The empty string yields None |
| VideoId.IdCharNotWhitespace | GetChatsBackend.py:91-93 | No id character is whitespace in either language |
| VideoId.NoMatchInTwelve | GetChatsBackend.py:93-107 | A 12-character text that is not a bare id yields None, since every pattern needs at least 13 characters |
| VideoId.ShortReferenceRefused | GetChatsBackend.py:93-107 | A stripped input shorter than 13 characters and not 11 long yields None |
| VideoId.BareIdExample | GetChatsBackend.py:93-94 | `dQw4w9WgXcQ` yields itself |
| VideoId.BareIdExtracts | GetChatsBackend.py:93-94 | Every bare eleven-character id is unchanged by `strip` and extracts to itself |
| VideoId.ShortLinkExtract | GetChatsBackend.py:98 | `https://youtu.be/<id>` yields the id |
| VideoId.WatchUrlExtract | GetChatsBackend.py:97 | `https://www.youtube.com/watch?v=<id>` yields the id |
| VideoId.NotAUrlExample | GetChatsBackend.py:107 | `not a url` yields None |
| VideoId.NoMatchBefore | GetChatsBackend.py:103 | A pattern cannot match before the first occurrence of its first character |
| VideoId.JsExtractVideoId | static/javascript.js:9-22 | null or undefined gives null. Any result is an id occurring in the `trim`med input. |
| VideoId.JsExtractFixedPoint | static/javascript.js:9-22 | An id the dashboard extracts extracts to itself |
| VideoId.JsMirrorsBackend | static/javascript.js:9-22 | Over characters on which the two whitespace sets agree, the dashboard's extractor equals the backend's |
| VideoId.MirrorDiffersOnByteOrderMark | static/javascript.js:10 | A leading U+FEFF is trimmed by the dashboard, so it finds the id, but Python's `strip` keeps it, so the backend refuses the input |
| JsonEscape.EscapeChar | GetChatsBackend.py:179-183 | Each of `\`, `"`, newline, CR and tab becomes a two-character escape; every other character is kept |
| JsonEscape.EscapeEach | GetChatsBackend.py:177-184 | Output no shorter than the input, with no raw newline, CR or tab |
| JsonEscape.EscapeEachAppend | GetChatsBackend.py:177-184 | Escaping distributes over concatenation |
| JsonEscape.EscapeJson | GetChatsBackend.py:177-184 | `escape_json` as the chain of its five replacements in source order; `EscapeJsonPerChar`, `UnescapeEscapeJson` and `DecodeEscapeJson` state what it computes |
| JsonEscape.EscapeCharIsChain | GetChatsBackend.py:178-184 | Because backslash goes first, the chain acts on each character as `EscapeChar` does |
| JsonEscape.EscapeJsonPerChar | GetChatsBackend.py:177-184 | The chain of `replace` calls equals per-character escaping |
| JsonEscape.UnescapeEscapeJson | GetChatsBackend.py:177-184 | Undoing the five escapes gives back the input |
| JsonEscape.EscapeJsonNoRawBreaks | GetChatsBackend.py:177-184 | The output holds no raw newline, CR or tab |
| JsonEscape.OtherControlsPassThrough | GetChatsBackend.py:177-184 | Every other control character in U+0000–U+001F reaches the output unescaped |
| JsonEscape.DecodeEscapeJson | GetChatsBackend.py:177-184 | A JSON decoder reads the escaped text back as the input exactly when the input has no other control character. Otherwise the text is not a JSON string body. |
| JsonEscape.EscapeEachPlain | GetChatsBackend.py:165 | A text with no character needing escaping is unchanged |
| JsonEscape.PlainThenEscaped | GetChatsBackend.py:165 | A plain prefix followed by an escaped text decodes to the prefix and the text, under the same condition |
| JsonEscape.ReadEscapeEach | GetChatsBackend.py:177-184 | A JSON reader entering escaped text followed by a quote reads the text and stops exactly at that quote, unless the text has another control character, which makes the string malformed |
| JsonEscape.PlainThenEscapedRead | GetChatsBackend.py:165 | The same for a plain prefix followed by an escaped text: read as the two parts, stopping at the closing quote, under the same condition |
| JsonEscape.ErrorTextField | GetChatsBackend.py:165 | The error notice's `text` field decodes to `[Backend error] ` plus the exception text, under the same condition |
| HtmlEscape.EscapeHtml | static/javascript.js:30-37 | `escapeHtml` as the chain of its five `replaceAll` calls in source order; `EscapeHtmlPerChar` and `DecodeEscapeHtml` state what it computes |
| HtmlEscape.HtmlEscapeChar | static/javascript.js:31-36 | Each of `& < > " '` becomes a reference starting with `&`. Every other character is kept. No raw `< > " '` remains, and `&` appears only at the start. |
| HtmlEscape.HtmlEscapeEach | static/javascript.js:30-37 | Output no shorter than the input, with no raw `<`, `>`, `"` or `'` |
| HtmlEscape.HtmlCharIsChain | static/javascript.js:31-36 | Because `&` goes first, the chain acts on each character as `HtmlEscapeChar` does |
| HtmlEscape.EscapeHtmlPerChar | static/javascript.js:30-37 | The chain of `replaceAll` calls equals per-character escaping |
| HtmlEscape.EscapeHtmlNoRawSpecials | static/javascript.js:30-37 | The output holds no `<`, `>`, `"` or `'` |
| HtmlEscape.EveryAmpersandStartsReference | static/javascript.js:30-37 | Every `&` in the output starts one of the five references |
| HtmlEscape.ReferenceAtEscape | static/javascript.js:31-36 | The decoder reads each escaped special back as its character |
| HtmlEscape.DecodeEscapeHtml | static/javascript.js:30-37 | Decoding the five references gives back the input |
| HtmlEscape.EscapeHtmlIdentity | static/javascript.js:30-37 | A string with none of `& < > " '` is unchanged |
| Classifier.TierName | GetChatsBackend.py:110-115 | Its body gives the names the payload's `tier` field carries (`SYSTEM` at line 167); `TierNameInjective` states that they are distinct |
| Classifier.TierNameInjective | GetChatsBackend.py:110-115 | Distinct tiers have distinct names |
| Classifier.TierForScore | GetChatsBackend.py:18-19 | `LIKELY_TOXIC` iff p ≥ 0.60, `TOXIC_ELEMENTS` iff 0.20 ≤ p < 0.60, `NORMAL` iff p < 0.20 |
| Classifier.TierMonotone | GetChatsBackend.py:110-115 | The tier never decreases as p grows |
| Classifier.ScoreItem | GetChatsBackend.py:58 | An item is read exactly when it is a dict with a string `label` and a numeric `score`. It reads as the upper-cased label and the score. |
| Classifier.CollectScores | GetChatsBackend.py:58 | Succeeds exactly when every item is read |
| Classifier.CollectScoresFirstError | GetChatsBackend.py:58 | A failure is the error of the first unreadable item |
| Classifier.CollectScoresKeys | GetChatsBackend.py:58 | The map's keys are exactly the upper-cased labels |
| Classifier.CollectScoresLastWins | GetChatsBackend.py:58 | A label maps to the score of its last occurrence |
| Classifier.GetScores | GetChatsBackend.py:48-58 | `get_scores`: which items are read is stated by `GetScoresShape`, and the map they give by the `CollectScores` lemmas |
| Classifier.GetScoresShape | GetChatsBackend.py:48-58 | Only the first element of a non-empty list is inspected. A list whose first element is a list is read from that inner list, and a list whose first element is a dict is read as it is. Any other response gives `{}`. |
| Classifier.PToxic | GetChatsBackend.py:132 | The `TOXIC` score, else the `LABEL_1` score, else 0.0 |
| Classifier.Classify | GetChatsBackend.py:131-133 | `get_scores`, the `p_toxic` pick and `tier_for_score` for one message; `Cli.MessageTagAgreesWithBackend` relates it to the script |
| Classifier.PToxicIsLastToxicScore | GetChatsBackend.py:58-132 | `p_toxic` is the score of the last item labelled `toxic` in any case |
| Classifier.NoToxicLabelIsNormal | GetChatsBackend.py:132-133 | Without a `TOXIC` or `LABEL_1` label, the score is 0.0 and the tier `NORMAL` |
| Cli.IsLikelyToxic | GetChats.py:32 | `is_likelyToxic`: p ≥ 0.60; `Cli.Tag` and `Cli.FlagsExclusive` state its use |
| Cli.IsToxicElements | GetChats.py:33 | `is_ToxicElements`: 0.20 ≤ p < 0.60; `Cli.Tag` and `Cli.FlagsExclusive` state its use |
| Cli.FlagsExclusive | GetChats.py:32-33 | `is_likelyToxic` and `is_ToxicElements` are never both true |
| Cli.Tag | GetChats.py:35-40 | "Likely Toxic Chat" iff p ≥ 0.60, "Toxic Elements in Chat" iff 0.20 ≤ p < 0.60, "Normal Chat" iff p < 0.20 |
| Cli.TagMatchesTier | GetChats.py:10-11 | Two scores share a tag exactly when they share a backend tier |
| Cli.MessageTag | GetChats.py:26-40 | The script's reading of one response: the error of `get_scores`, or `p_toxic` and its tag; `MessageTagAgreesWithBackend` relates it to the backend |
| Cli.MessageTagAgreesWithBackend | GetChats.py:13-30 | The script and the backend fail on the same responses with the same error. Otherwise they agree on `p_toxic`, and the tag corresponds to the tier. |
| Broadcast.Offer | GetChatsBackend.py:78-80 | `put_nowait` on a queue's contents: appended when there is room, else dropped; `OfferBounded` states its bounds |
| Broadcast.OfferAll | GetChatsBackend.py:76-80 | Payloads offered one after another to a queue nobody drains; `OfferAllKeepsEarliest` states what it keeps |
| Broadcast.OfferBounded | GetChatsBackend.py:247 | One offer keeps a queue within 500 items and keeps its existing items in order. It grows by one, ending with the payload, exactly when there was room. |
| Broadcast.OfferAllKeepsEarliest | GetChatsBackend.py:76-78 | A queue nobody drains holds its items and then the earliest payloads that fit, in publication order |
| Broadcast.Mailbox.PutNowait | GetChatsBackend.py:78-80 | Appends when fewer than 500 items are queued. Otherwise the queue is unchanged and the call fails. |
| Broadcast.Hub.Startup | GetChatsBackend.py:262-265 | The startup hook records the event loop and leaves the subscribers alone |
| Broadcast.Hub.Register | GetChatsBackend.py:243-248 | The event loop is recorded, and one fresh empty queue joins the subscribers |
| Broadcast.Hub.Unregister | GetChatsBackend.py:255 | The queue leaves the subscribers |
| Broadcast.Hub.Publish | GetChatsBackend.py:65-82 | Nothing changes without an event loop. Otherwise every subscribed queue is offered the payload. The subscriber set is unchanged, and no queue exceeds 500 items. |
| Worker.PScore | GetChatsBackend.py:131-132 | `get_scores` followed by the `p_toxic` pick: the backend's scorer, with which `ChatWorker` runs the loop; `Cli.MessageTagAgreesWithBackend` relates the same reading to the script |
| Worker.AuthorQuery | GetChatsBackend.py:137 | The stripped author name in the search URL; `EventWellFormed` states that it is its own strip |
| Worker.MakeEvent | GetChatsBackend.py:130-154 | The event for one scored message; `EventWellFormed` states its fields |
| Worker.ErrorPayload | GetChatsBackend.py:159-168 | The hand-built error notice; `ErrorPayloadFields` states how a JSON reader reads its fields |
| Worker.ErrorText | GetChatsBackend.py:165 | The `text` field's contents: the prefix and the escaped exception text; `ErrorTextField` and `ErrorPayloadFields` state what they read back as |
| Worker.ErrorPayloadFields | GetChatsBackend.py:159-168 | The notice's two string fields read as intended. A JSON reader entering the `video_id` string reads the stream id and stops at its closing quote. Entering the `text` string, it reads `[Backend error] ` plus the exception text and stops exactly where the fixed tail begins, when that text has no control character other than newline, CR and tab. Otherwise the `text` string is malformed. |
| Worker.RunBatch | GetChatsBackend.py:126-157 | The payloads of the rest of one batch and the next check number; `RunBatchUninterrupted`, `RunBatchChecks` and `RunBatchWellFormed` state its behaviour |
| Worker.Run | GetChatsBackend.py:124-171 | The payloads the `while` loop publishes from one poll on; `RunUninterrupted`, `StopIsHeeded` and `RunWellFormed` state its behaviour, and `ChatWorkerLoop` is proved to compute it |
| Worker.ChatWorkerLoop | GetChatsBackend.py:124-171 | For any scorer, publishes exactly the trace `Run` defines: one event per scored message, a notice per failure, and it stops at the first set flag |
| Worker.PublishBatch | GetChatsBackend.py:126-157 | The `for` loop over one batch publishes what `RunBatch` defines and ends at the check count it defines: a set flag breaks out, a scoring error publishes one notice and abandons the batch |
| Worker.PublishPoll | GetChatsBackend.py:124-171 | One pass of the `while` loop, entered with the flag clear, publishes a prefix of the run such that the run from the next poll is the rest |
| Worker.ChatWorker | GetChatsBackend.py:118-174 | With the backend's scorer, publishes the trace `Run` defines, and every published payload is well formed for the worker's stream id |
| Worker.EventWellFormed | GetChatsBackend.py:130-154 | An event carries the worker's stream id, the tier of its score, the three links built from the id and the stripped author, and an author that is its own strip |
| Worker.RunWellFormed | GetChatsBackend.py:124-171 | For any scorer and stop flag, every payload the loop publishes is well formed and carries the worker's stream id |
| Worker.EventsAppend | GetChatsBackend.py:126-157 | Events of concatenated messages are the concatenated events, whatever the scorer |
| Worker.EventsOnePerMessage | GetChatsBackend.py:126-157 | When every message scores, there is exactly one event per message, the j-th built from the j-th message and its score |
| Worker.RunBatchUninterrupted | GetChatsBackend.py:126-157 | Without a stop request and with every message scored, a batch publishes one event per message, in order |
| Worker.RunUninterrupted | GetChatsBackend.py:124-157 | Without a stop request, failed poll or scoring error, the loop publishes the events of all batches' messages in the order the chat delivered them (one per message, by `EventsOnePerMessage`) |
| Worker.RunBatchChecks | GetChatsBackend.py:126-128 | Each published message costs one flag check |
| Worker.StopIsHeeded | GetChatsBackend.py:124-128 | Once the flag is set from check K on, at most K − k more payloads are published |
| Session.Controller.Status | GetChatsBackend.py:225-235 | `running` iff a worker exists and is alive. It reports the current id and the two thresholds. |
| Session.Controller.Stop | GetChatsBackend.py:212-222 | Sets the flag and forgets the worker whatever the join gives, returns ok, and `status` then reports not running. A worker that ended in time, through its normal exit, has reset `current_video_id`; one that did not is still alive; one that had already ended stays ended. |
| Session.Controller.Start | GetChatsBackend.py:191-209 | Input without an id is refused before anything changes, the current worker's liveness included. Otherwise it stops, clears the shared flag, and starts one worker bound to the id. |
| Session.Controller.WorkerEnds | GetChatsBackend.py:174 | A worker that finishes resets `current_video_id` |
| Session.Controller.WorkerCrashes | GetChatsBackend.py:122-124 | A worker killed by an exception outside its `try` is no longer running, and `status` keeps reporting its stale id |
| Session.RestartAfterJoinTimeout | GetChatsBackend.py:199-207 | After a restart whose join timed out, two workers are alive, and the flag the old one polls is clear |
| Session.SignalledController.Stop | GetChatsBackend.py:212-222 | As `stop`, signalling the current worker's own event; afterwards every started worker has been signalled. `current_video_id` is reset exactly when a live worker ended in time through its normal exit, and a worker that had already ended stays ended. |
| Session.SignalledController.Start | GetChatsBackend.py:191-209 | As `start`, but the new worker gets a fresh event. Every earlier worker stays signalled. A refused input changes nothing, neither the current worker's liveness nor its event. |
| Session.SignalledController.AtMostOneUnsignalled | GetChatsBackend.py:199-207 | At most one started worker, the current one, runs without a stop request |
| Session.RestartAfterJoinTimeoutSignalled | GetChatsBackend.py:199-207 | After the same restart, the abandoned worker is alive but told to stop |
| Dashboard.TagFor | static/javascript.js:45-49 | LIKELY_TOXIC → (bad, Likely Toxic Chat), TOXIC_ELEMENTS → (mid, Toxic Elements in Chat), SYSTEM → (mid, System), anything else → (good, Normal Chat), each an iff |
| Dashboard.UserLink | static/javascript.js:51 | `links.user`, else `links.search_user`, else `""`, where an empty string counts as missing |
| Dashboard.CreateMsgCard | static/javascript.js:39-65 | The `system` class iff the tier is SYSTEM. The tag of the tier. The View User link iff the user link is non-empty. The author and text HTML decode back to the fields. |
| Dashboard.FeedFor | static/javascript.js:67-73 | `feedLikely` iff LIKELY_TOXIC, `feedNormal` iff NORMAL, `feedElements` otherwise |
| Dashboard.Page.MsgCardClassification | static/javascript.js:67-73 | The card goes first in exactly one feed, and the other two are unchanged |
| Dashboard.Page.OnMessage | static/javascript.js:84-89 | A message that fails to parse changes no feed. Otherwise it routes the card. |
| Dashboard.Page.ConnectWS | static/javascript.js:77-80 | No new socket while the current one is connecting or open. Otherwise a fresh connecting socket to `/ws` on the page's host. |
| Dashboard.FromBackend | GetChatsBackend.py:142-157 | The page's reading of the event fields the backend sends, an empty string counting as missing; `BackendEventRendered` states how the card shows them |
| Dashboard.BackendEventRendered | static/javascript.js:39-73 | A well-formed backend event lands in its tier's feed, and its tag reads as the script's tag for the score. Its author and text read back unchanged, and View User opens the author search. |
| Dashboard.ReadNotice | static/javascript.js:84-88 | `JSON.parse` of the error notice, read through its `text` string; `NoticeRendered` states when it succeeds and what the card shows |
| Dashboard.NoticeRendered | static/javascript.js:41-88 | The notice parses exactly when the exception text has no control character other than newline, CR and tab. It then becomes a `msg system` card in the toxic-elements feed, with the System tag, no link, and text reading as `[Backend error] ` plus the exception text. |
| Dashboard.Page.ReceiveNotice | static/javascript.js:84-88 | A notice whose exception text has another control character fails to parse and is dropped, with no feed changed. Otherwise its system card goes first in the toxic-elements feed. |

## Left out

- The classifier (`transformers`, `torch`) and the chat client (`pytchat`) are external. Their answers and batches are inputs.
- Integer and floating-point details are left out. Scores are reals that are only compared, and `float()` of a numeric string is not modelled: a non-number `score` is an error.
- FastAPI wiring, CORS, static files and the websocket send loop of `ws_endpoint` (GetChatsBackend.py:250-253) are transport.
  - The dashboard posts to `/ConnectBtn` (static/javascript.js:99) while the backend serves `/start`. That is a wiring mismatch outside the model.
- Threads and the event loop are not modelled as concurrency.
  - `Hub.Publish` applies `_push` at once, whereas the source schedules it onto the event loop.
  - A join is a given outcome, and `time.sleep(1)` is dropped.
  - A worker's start is taken to set `current_video_id` at once (GetChatsBackend.py:120).
  - The race in which an abandoned worker resets `current_video_id` after a new one started (GetChatsBackend.py:174) is not modelled.
- `print` logging is left out. `json.dumps` of the event is left out too: events are records, and only the hand-built error notice is a string.
- Session.Controller.Stop: `joined` stands for the worker's normal exit through line 174. A worker killed by an exception outside its `try` (the `pytchat.create` at GetChatsBackend.py:122, or `chat.is_alive()` at line 124) is `WorkerCrashes`, taken to happen before `stop` looks at the thread. A crash during the two-second join itself, which leaves `current_video_id` stale, is not modelled.
- Session.SignalledController.Stop: the same reading of `joined`; the corrected controller has no crash operation.
- Worker.ChatWorker: the exception text of a failing poll is given with the poll. A scoring failure's text is the parameter `describe`, because Python's exception messages are not modelled.
- Worker.ChatWorkerLoop: `chat.is_alive()` is modelled as "polls remain".
- Classifier.ScoreItem: `.upper()` is ASCII-only; non-ASCII letters are kept.
- The whitespace sets of `strip` and `trim` are written out exactly. Beyond that, no Unicode normalisation is modelled.
- The search URL's author name is not URL-encoded by the source, and the model keeps it that way.
- `toFixed(2)` score formatting on the card, the HTML layout, `innerHTML` and other DOM APIs are presentation.
- `JSON.parse` of a chat event, and messages that parse to something other than an object, are left out; only the error notice's parse is modelled (`Dashboard.ReadNotice`). `OnMessage` receives either the parsed event or nothing.
- `setStatus`, `AssignVideoAndChat`, `startMonitoring`, `fetch` and `alert` are page I/O.
- GetChats.py's top-level script (model load, `pytchat.create`, its `while` loop and `print`) is left out. Its per-message decision is `Cli.MessageTag`.

## Findings

| source | as written | input that shows it | evidently intended | confidence | as-written member | corrected member |
|---|---|---|---|---|---|---|
| GetChatsBackend.py:199-207 | `start` calls `stop`, whose join gives up after two seconds. It then clears the one shared `stop_flag` (line 86) and starts a new worker. A worker that did not end in time now sees the flag cleared (lines 124, 127) and keeps running beside the new one. | Start stream A. Start stream B while A's worker is inside a poll that takes longer than two seconds. | The old worker stays signalled, so at most one worker runs unsignalled | not executed | Session.RestartAfterJoinTimeout | Session.SignalledController.Start |

`stop` sets `stop_flag` (GetChatsBackend.py:216) so that the worker leaves
its loops (lines 124 and 127), but its `join(timeout=2)` (lines 218-219)
admits that the worker may still be running when `start` clears the flag.
The model follows the code in `Session.Controller`.
