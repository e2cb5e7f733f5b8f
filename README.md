# Replay environment control and feed listener — a Dafny model

This project models three parts of the replay tooling around the Betradar Unified Odds Feed:

- **The replay environment controller** (`server/replay_controller.py`). This client drives the remote replay-control endpoint. It keeps a local mirror of the playlist and of the configuration the last replay was started with.
  - Each operation sends one request.
  - It changes the mirror only when the response status is 200. Adding appends the event. Removing filters out every entry with the event's URN. Reset empties the playlist. Start replaces the configuration.
  - The model covers the URN of an event (`sr:<kind>:<id>`), the type part used in the summary and timeline paths, and the JSON payload of a play request with its truthiness rules.
  - Two workflows combine the operations. The single-match workflow stops at the first failed step. The multiple-matches workflow skips matches whose add fails.
- **The event-type keyword lookup** of the HTTP service (`parse_event_type` in `server/replay_service.py`). It lower-cases the text and looks it up among four keywords, with "match" as the fallback.
- **The feed listener** (`server/amqp_listener.py`). The model covers:
  - the routing keys it binds: the setting split on "," and each piece stripped;
  - the record it builds from a parsed message, or from a message that failed to parse;
  - the save → forward → acknowledge sequence of its message callback;
  - the check made before consuming;
  - the retry counter of its reconnect loop.

Every remote call is an input to the model:

- the HTTP transport outcome of a controller request;
- the broker's behaviour on a connection attempt;
- how the consumer loop ended;
- what the database and WebSocket calls reported;
- what the XML parser produced.

The Python string operations the code relies on (`split`, `strip`, `lower` and `split(":")[-1]`) are modelled over ASCII in `text.dfy`.

Files:

- `wrappers.dfy`: `Option`.
- `text.dfy`: the string operations.
- `remote.dfy`: JSON values, transport outcomes and `_make_request`.
- `replay_controller.dfy`: event types, URNs, configuration and payload, the `Controller` and `Workflow` classes.
- `replay_service.dfy`: the keyword lookup.
- `amqp_listener.dfy`: routing keys, message records, and the `Listener` class with its reconnect loop.

Behaviours of the code that the model makes explicit:

- **Ctrl-C while consuming reconnects.** A keyboard interrupt during consumption is caught inside `start_consuming`, which returns normally. The reconnect loop then connects again, with the counter at 0, instead of exiting (`InterruptWhileConsumingReconnects`).
- **A raising consumer never hits the limit.** A broker that always accepts the connection while the consumer always raises keeps the retry counter at 1. With a limit of 2 or more, the loop never gives up (`ConsumerFailuresNeverGiveUp`).
- **Failed adds don't fail the multiple-matches workflow.** It reports success even when every add failed, as long as reset and start succeeded. The playlist is then empty.
- **Falsy optional fields are dropped from the payload but still recorded.** `start_replay` omits an empty node id and a product id of 0 from the payload, yet records them in the configuration (`PayloadRoundTrip`).
- **Reset clears the local playlist.** A successful `reset_replay` empties the controller's playlist.
- **`get_playlist` reads only the remote list.** It returns the remote "events" list, or an empty list on failure, and never falls back to the local mirror.
- **An interrupt during save or forward leaves a message unacknowledged.** `on_message` catches only exceptions, so a keyboard interrupt while the database or WebSocket call is blocked escapes without the acknowledgement. It then reaches `start_consuming`, which stops, and the loop reconnects (`OnMessage`).

## Model

| member | source | states |
|---|---|---|
| Remote.MakeRequest | server/replay_controller.py:128-142 | success exactly when the response status equals the expected one; a success carries the decoded body, or the raw text under "raw"; a failure carries "error" and, when there was a response, its status code; a transport exception is a failure |
| ReplayController.EventType.Kind | server/replay_controller.py:31-36 | every event type's value is "sr:" followed by a colon-free kind |
| ReplayController.ReplayEvent.ToUrn | server/replay_controller.py:46-48 | the URN is the type's value, then ":", then the event id (length and each slice) |
| ReplayController.UrnRoundTrip | server/replay_controller.py:46-48 | a URN reads back to the event type and event id it was built from |
| ReplayController.UrnInjective | server/replay_controller.py:46-48 | two events share a URN exactly when they share type and id; the start time plays no part |
| ReplayController.UrnType | server/replay_controller.py:367 | the text after the last ":" of a type value is its kind ("sr:match" gives "match"), and "sr:" before it gives the value back; the timeline path at line 399 uses the same expression |
| ReplayController.SportEventKey | server/replay_controller.py:367-371 | the event part of the summary and timeline paths is the event's URN without "sr:" |
| ReplayController.StartPayload | server/replay_controller.py:254-263 | the payload always has speed, max_delay and use_replay_timestamp, has node_id and product_id exactly when they are truthy, and carries the given values |
| ReplayController.PayloadRoundTrip | server/replay_controller.py:254-279 | the payload reads back to the configuration with falsy optional fields dropped; it reads back to the recorded configuration exactly when no optional field is falsy |
| ReplayController.Without | server/replay_controller.py:206 | the filtered playlist is no longer than before, and holds only entries of the original with a different URN |
| ReplayController.WithoutCounts | server/replay_controller.py:206 | an entry with the target URN occurs 0 times after removal; every other entry occurs as often as before |
| ReplayController.WithoutAppend | server/replay_controller.py:206 | removal distributes over concatenation, so the survivors keep their original order |
| ReplayController.WithoutAbsent | server/replay_controller.py:206 | removing a URN that is not on the playlist leaves it unchanged |
| ReplayController.WithoutIdempotent | server/replay_controller.py:199-211 | removing twice leaves the same playlist as removing once |
| ReplayController.Controller.constructor | server/replay_controller.py:89-90 | a new controller has an empty playlist and the default configuration (speed 10, max delay 10000, no replay timestamps, no node or product id) |
| ReplayController.Controller.AddEventToPlaylist | server/replay_controller.py:161-180 | reports success exactly when the request is accepted; then exactly the new event is appended, otherwise the playlist is unchanged; the configuration is never touched |
| ReplayController.Controller.RemoveEventFromPlaylist | server/replay_controller.py:197-211 | reports success exactly when the request is accepted; then every entry with the event's URN is removed, otherwise the playlist is unchanged; the configuration is never touched |
| ReplayController.Controller.GetPlaylist | server/replay_controller.py:220-231 | reports the remote outcome and returns the response's "events" entry, or an empty list when it has none or the request failed; it changes nothing |
| ReplayController.Controller.StartReplay | server/replay_controller.py:254-286 | sends the payload of the given parameters; on acceptance the configuration becomes exactly those parameters, otherwise it is kept; the playlist is never touched |
| ReplayController.Controller.StopReplay | server/replay_controller.py:288-306 | reports the remote outcome and modifies nothing |
| ReplayController.Controller.ResetReplay | server/replay_controller.py:308-327 | on acceptance the playlist becomes empty, otherwise it is kept; the configuration is never touched |
| ReplayController.Admitted | server/replay_controller.py:577-580 | the matches the loop leaves on the playlist after a successful reset, one per accepted add, in input order, so no more entries than ids; which ids and in what order is stated by the lemmas below |
| ReplayController.AdmittedAppend | server/replay_controller.py:577-580 | the matches admitted from a concatenation are those admitted from each part, in order |
| ReplayController.AdmittedMembers | server/replay_controller.py:577-580 | a match is admitted exactly when one of its adds was accepted |
| ReplayController.AdmittedAreMatches | server/replay_controller.py:577-578 | every admitted entry is a match with no start time |
| ReplayController.AdmittedAll | server/replay_controller.py:577-580 | when every add is accepted, the admitted list is the input ids, in order |
| ReplayController.Workflow.constructor | server/replay_controller.py:502-509 | a workflow drives the controller it is given |
| ReplayController.Workflow.ReplaySingleMatch | server/replay_controller.py:533-551 | succeeds exactly when reset, add and start are all accepted; a failed reset leaves the playlist alone; after a successful reset it holds just the match, or nothing if the add failed; the configuration changes only on success |
| ReplayController.Workflow.ReplayMultipleMatches | server/replay_controller.py:573-587 | succeeds exactly when reset and start are accepted, whatever the adds do; after a successful reset the playlist is exactly the admitted matches in input order; the configuration changes only on success |
| ReplayService.ParseEventType | server/replay_service.py:88-96 | text whose lower-case form is not a keyword gives MATCH; the result's value always starts with "sr:" |
| ReplayService.KeywordsSelectTypes | server/replay_service.py:90-95 | each event type's kind is a keyword that maps back to that type |
| ReplayService.UrnTypeParsesBack | server/replay_service.py:90-96 | the type part of a URN, as used in the summary paths, parses back to its event type |
| ReplayService.ParseIgnoresCase | server/replay_service.py:96 | texts equal up to the case of their letters parse to the same type |
| ReplayService.ParseOfLowered | server/replay_service.py:96 | parsing the lower-cased text gives the same type as parsing the text |
| ReplayService.OnlyKeywordsSelect | server/replay_service.py:96 | a result other than MATCH comes only from a keyword: its kind equals the lower-cased text |
| ReplayService.DefaultIsMatch | server/replay_service.py:68 | the request default "match" yields MATCH, value "sr:match" |
| Text.Lower | server/replay_service.py:96 | lower-casing keeps the length and lower-cases each ASCII capital, leaving every other character alone |
| Text.LowerIdempotent | server/replay_service.py:96 | lower-casing twice is lower-casing once |
| Text.Strip | server/amqp_listener.py:70 | the result is a slice of the text with only whitespace around it, and it neither starts nor ends with whitespace |
| Text.StripIdempotent | server/amqp_listener.py:70 | stripping twice is stripping once |
| Text.Split | server/amqp_listener.py:68 | a split has one more piece than the text has separators, and no piece contains the separator |
| Text.JoinSplit | server/amqp_listener.py:68 | joining the pieces with the separator gives the text back |
| Text.SplitJoin | server/amqp_listener.py:68 | splitting separator-free pieces joined by the separator gives the pieces back |
| Text.LastPiece | server/replay_controller.py:367 | `split(sep)[-1]`: the last piece never holds the separator, and text without the separator is its own last piece |
| Text.LastPieceIsTail | server/replay_controller.py:367 | the last piece of a split is a separator-free suffix, either the whole text or preceded by the separator |
| Text.TailUnique | server/replay_controller.py:367 | any suffix with those properties is the last piece |
| AmqpListener.RoutingKeys | server/amqp_listener.py:68-70 | one key per ","-separated piece, in order, each the piece stripped of surrounding whitespace, none containing "," |
| AmqpListener.Bindings | server/amqp_listener.py:69-75 | the binds made: one per key, in order, each on the exchange "unifiedfeed" and the declared queue |
| AmqpListener.RoutingKeysOfStripped | server/amqp_listener.py:68-70 | pieces without surrounding whitespace are bound exactly as written |
| AmqpListener.RoutingKeysOfJoined | server/amqp_listener.py:68-76 | comma-free, unpadded keys joined with "," are read back exactly, one bind each |
| AmqpListener.DefaultBindsOnce | server/amqp_listener.py:23 | the default setting "#" binds exactly one key, "#" |
| AmqpListener.ParseMessage | server/amqp_listener.py:83-135 | both kinds of record keep the routing key; a parsed record takes its type from the root tag, its producer from the attribute or "unknown", and its match id from a non-empty event_id; a failed parse gives type and producer "unknown", no match id, the leniently decoded body and the error |
| AmqpListener.MatchIdFromSummary | server/amqp_listener.py:104-116 | a record's match id, when present, is the event id in its parsed summary |
| AmqpListener.Listener.constructor | server/amqp_listener.py:31-34 | a new listener has no connection, channel or queue name |
| AmqpListener.Listener.Connect | server/amqp_listener.py:36-81 | returns True exactly when no step fails; each field is set only when its step was reached; the binds are the routing keys in order on the exchange "unifiedfeed", up to the failing bind |
| AmqpListener.Listener.OnMessage | server/amqp_listener.py:195-215 | save, then forward, then ack; unless a keyboard interrupt arrives during save or forward, the delivery is acked exactly once and last, whatever save and forward report; an exception escaping save would skip only the forward (as written, both calls catch every exception themselves, so no exception reaches the handler from them); an interrupt escapes with no ack at all |
| AmqpListener.Listener.Ready | server/amqp_listener.py:220 | the condition `start_consuming` checks: a channel and a non-empty queue name |
| AmqpListener.Listener.StartConsuming | server/amqp_listener.py:217-240 | raises exactly when the channel or queue name is unset or the consumer raises; an interrupt in the consumer is caught and stops the listener |
| AmqpListener.AfterConnect | server/amqp_listener.py:58-63 | an interrupt or a failed connection leaves the connection, channel and queue name as they were; a declared queue replaces all three with the broker's; the queue name is either kept or the broker's |
| AmqpListener.AfterConnects | server/amqp_listener.py:256-262 | rounds that never open a connection leave the handles unchanged; otherwise the queue name is the initial one or one of the rounds' queues |
| AmqpListener.RoundEvent | server/amqp_listener.py:258-282 | only an interrupt that escapes `connect` ends the loop (an interrupt while consuming does not); a finished pass needs a successful connection and a consumer that did not raise |
| AmqpListener.Listener.Pass | server/amqp_listener.py:258-272 | one pass of the loop amounts to the event its broker and consumer outcomes define, and leaves the handles as its `connect` set them |
| AmqpListener.Listener.RunWithReconnect | server/amqp_listener.py:254-285 | the counter, the number of passes and the reason for ending follow the reconnect rule; the cleanup stop runs once per pass; "max retries" is reported exactly when the counter is at least the limit at exit; the handles are those the passes' connects left |
| AmqpListener.Reconnect | server/amqp_listener.py:256-282 | the retry rule: at most one pass per round; the loop ends on the limit exactly when the counter is at least the limit at exit; running out of rounds means every round was used; an interrupt exit is caused by the last pass made |
| AmqpListener.ReconnectStep | server/amqp_listener.py:256-282 | one pass below the limit: an interrupt ends the loop; any other event continues it with the next counter, one pass later |
| AmqpListener.ReconnectBounds | server/amqp_listener.py:256-282 | starting from a counter between 0 and the limit, the counter stays between 0 and the limit |
| AmqpListener.NonPositiveLimit | server/amqp_listener.py:258 | with a limit of 0 or less the body never runs and the limit is reported at once |
| AmqpListener.ConsecutiveFailuresGiveUp | server/amqp_listener.py:258-264 | limit-minus-counter consecutive connection failures take the counter to the limit, and the loop ends after exactly that many passes |
| AmqpListener.ConsumerFailuresNeverGiveUp | server/amqp_listener.py:266-282 | when every connect succeeds but every consumer raises, the counter stays at 1, so with a limit of 2 or more the loop never gives up |
| AmqpListener.FinishedPassesNeverGiveUp | server/amqp_listener.py:266-272 | passes that connect and finish consuming keep the counter at 0 below the limit |
| AmqpListener.InterruptWhileConsumingReconnects | server/amqp_listener.py:234-236 | an interrupt inside the consumer does not end the loop: every such pass reconnects with the counter at 0 |

## Left out

- HTTP transport: sessions, URLs, headers, query parameters, timeouts and JSON decoding are not modelled. A request's outcome is an input: a status code with a decoded object or not, or an exception. A JSON body that is not an object is not modelled.
- The FastAPI routes, CORS setup, the lazily created global controller and the shutdown hook in `server/replay_service.py` are plumbing and are not modelled. Only `parse_event_type` is.
- `get_status`, `list_scenarios` and `play_scenario` are single pass-through requests with no local state. They are not modelled.
- `close` sends no request. It only closes the HTTP session, so it is not modelled.
- `ReplayWorkflow.stress_test_with_scenario` chains two of those pass-through requests: `list_scenarios`, then `play_scenario`. It returns False without the second request when the first fails. It touches no local state and is not modelled.
- `get_event_summary` and `get_event_timeline` are single requests with no local state. Only the event part of their paths is modelled (`UrnType`, `SportEventKey`). The requests themselves are not.
- `wait_for_status` polls the remote status against the wall clock and is not modelled.
- When `wait_for_completion` is set, the single-match workflow sleeps a fixed five seconds before returning True. The sleep is not modelled. It changes no state and not the result.
- Logging is not modelled.
- `speed` is a float in the source. The model carries it as an opaque `real` and does no arithmetic on it.
- Text.Lower, Text.Strip: ASCII only. Unicode case mapping and Unicode whitespace are not modelled.
- `parse_message` converts the timestamp to a `datetime`. This conversion uses float division and the local time zone, so it is not modelled. The failure record's missing `match_id` key is modelled as no match id.
- UTF-8 decoding and `ET.fromstring` are foreign code. Their result (decoded text, root tag and attributes, or an error with leniently decoded text) is an input.
- pika is not modelled: SSL, credentials, queue declaration and binding. `save_message_to_db` and `forward_to_websocket` are not modelled either. Their outcomes are inputs.
- AmqpListener.Listener.OnMessage: an ack that itself raises is not modelled. An interrupt during save or forward is modelled as an outcome of that call: the callback stops there with no ack. What `start_consuming` then does with it is covered by its own outcome, the consumer being interrupted.
- AmqpListener.Listener.Connect: a keyboard interrupt while connecting is modelled as arriving before any field is set. An interrupt in a later step would leave the earlier fields set.
- AmqpListener.Listener.RunWithReconnect:
  - It runs over a finite list of supplied rounds. When the list runs out, the model stops with `RoundsExhausted`, where the source would go on to its next pass.
  - `time.sleep` is not modelled, so a keyboard interrupt during the back-off sleep is not modelled either.
  - `stop`'s own effects are not modelled: closing the channel and connection, and the extra call when an interrupt reaches the consumer. Only the one cleanup call per pass is counted.
