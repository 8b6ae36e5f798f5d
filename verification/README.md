# Feishu channel adapter — Dafny model

This project models the decision logic of nanobot's Feishu/Lark channel
(`nanobot/channels/feishu.py`). The channel receives chat events over a WebSocket
callback, puts them on an event queue, and has a processor loop that forwards the
events of allow-listed senders to the message bus. It also sends replies back
through the Lark API. The SDK, the JSON library, threads and timers are abstracted
away. What is left is four pieces:

- **Inbound normalisation** (`Events`). `Normalise` turns a raw event into a drop or
  a queued record. Only `text` messages pass. The record's content is one of three
  things: the decoded object's `"text"` field (empty when that field is missing), the
  raw string when it is not JSON, or nothing when the raw content is empty. An empty
  result is dropped. JSON decoding is a function parameter `decode`.
- **Processor** (`Processor`, `Channel.Step`, `Channel.Drain`). Events are taken off
  the queue in FIFO order. Each sender is checked with the allow-list predicate
  `allowed`, which stands for `is_allowed`. An admitted event becomes a `Publication`
  with metadata `{chat_type, message_id}`, appended to the bus record `published`.
- **Outbound routing** (`Outbound.Route`, `Channel.Send`). A `p2p` message, which is
  also the default, gets a create request addressed by `chat_id`. Any other chat type
  gets a reply request addressed by the metadata's `message_id`, or no request when
  that id is missing or empty. No request is issued without an API client.
- **Lifecycle** (`Channel.Start`, `Channel.Stop`). A flag-and-handles state:
  `running`, the queue, the thread pool, the two clients and the processor task.

`Channel.Run` interleaves callbacks (`Deliver`) with processor iterations (`Process`).
`Channel.RunIsFifo` proves that no interleaving loses, duplicates or reorders an
admitted event.

Facts about `feishu.py` that shape the model:

- The lifecycle is the boolean `_running` flag (set at line 76, cleared at 151) plus
  the handle fields `_event_queue`, `_executor`, `_client`, `_ws_client` and
  `_process_task`.
- `stop` cancels the processor task but keeps its handle (153-158).
- `stop` leaves `_event_queue` in place. Callbacks arriving after `stop` still
  append to it (258), and those events are never published, because the processor
  loop runs only while `_running` holds (337) (`Channel.StoppedPublishesNothing`).
- `send` tests only `_client` (182), not `_running`. `_running` is set before the SDK
  import (76-85), so when that import fails the channel is running but `send` still
  issues nothing.

## Model

| member | source | states |
|---|---|---|
| Events.Normalise | nanobot/channels/feishu.py:264-310 | Non-text events are dropped. A text event is accepted iff its extracted text is non-empty. An accepted record has non-empty content and carries the event's sender, chat, chat type and message id unchanged. |
| Events.NormaliseContent | nanobot/channels/feishu.py:283-299 | For a text event, case by case: undecodable content is queued verbatim, and a decoded object's non-empty `"text"` string is queued. Empty raw content, a missing `"text"` field or an empty `"text"` field is dropped as empty. Non-object JSON is dropped as malformed. |
| Outbound.Route | nanobot/channels/feishu.py:186-238 | A request is issued iff the chat type is `p2p` or a non-empty message id is present; otherwise it fails with a missing message id. The request is a create iff the chat type is `p2p`, with `receive_id_type = "chat_id"` and `receive_id` the chat id. A reply is addressed to the metadata's message id. Every request is `msg_type "text"` with payload `{"text": content}`. |
| Outbound.MissingChatTypeIsP2P | nanobot/channels/feishu.py:192-215 | A message with no chat type in its metadata yields exactly the p2p create request to its chat. |
| Processor.Publish | nanobot/channels/feishu.py:362-370 | A publication carries the event's sender, chat and content, and metadata with exactly the keys `chat_type` and `message_id` mapped to the event's values. |
| Processor.PublicationsFilter | nanobot/channels/feishu.py:353-370 | Every publication of a queue has an admitted sender and comes from an admitted event of the queue. Every admitted event of the queue is published. |
| Processor.PublicationsAppend | nanobot/channels/feishu.py:337-370 | Processing `a` and then `b` publishes the publications of `a` followed by those of `b` (queue order is kept). |
| Processor.PublicationsSingle | nanobot/channels/feishu.py:353-370 | A one-event queue publishes that event iff its sender is admitted, and otherwise nothing. |
| Processor.AllAdmittedPreservesOrder | nanobot/channels/feishu.py:337-370 | When every sender is admitted, the bus receives exactly one publication per queued event, position by position in queue order. |
| Processor.NoneAdmittedPublishesNothing | nanobot/channels/feishu.py:353-358 | A queue whose senders are all rejected publishes nothing. |
| Channel.Start | nanobot/channels/feishu.py:72-126 | Without both credentials the state is unchanged, so nothing is running or created. With them the channel is running. If the SDK loads, there is also a fresh empty queue, a thread pool, both clients and an active processor task. A failed SDK import changes only the running flag. |
| Channel.StartEnables | nanobot/channels/feishu.py:72-126 | From any state, `start` with credentials and the SDK present leaves the processor live (running, active task, a queue) on an empty queue, with the bus record unchanged. |
| Channel.Stop | nanobot/channels/feishu.py:149-171 | Afterwards nothing is running and the pool and both clients are gone. The task is not active and is cancelled iff it had been created. The queue and the bus record are untouched. |
| Channel.Send | nanobot/channels/feishu.py:182-184 | Without an API client no request is issued (client not running); with one, routing decides. |
| Channel.Callback | nanobot/channels/feishu.py:258-322 | Without a queue, for a dropped event, or when the scheduled `put` does not run, the state is unchanged. Otherwise exactly the normalised record is appended at the back of the queue and nothing else changes. |
| Channel.Step | nanobot/channels/feishu.py:337-370 | A processor that is not live, or has an empty queue, changes nothing. Otherwise the head of the queue is consumed and published iff its sender is admitted. Only the queue and the bus record change. |
| Channel.StepIsFifo | nanobot/channels/feishu.py:340-370 | One processor iteration leaves "published, then the publications of the pending queue and any later arrivals" unchanged, so nothing is lost, duplicated or reordered. |
| Channel.Drain | nanobot/channels/feishu.py:337-382 | A live processor empties the queue. The bus then holds what it held before, followed by the publications of the whole pending queue in order. A processor that is not live changes nothing. |
| Channel.ApplyIsFifo | nanobot/channels/feishu.py:304-370 | One callback or processor iteration preserves "published, then publications of pending plus later arrivals". |
| Channel.RunIsFifo | nanobot/channels/feishu.py:304-370 | Under any interleaving of callbacks and processor iterations, the bus so far plus the pending queue's publications equals the earlier bus plus the publications of the old queue followed by all arrivals, in arrival order. |
| Channel.DrainedRunPublishesArrivals | nanobot/channels/feishu.py:337-370 | From an empty queue, once the queue is empty again the bus has gained exactly the admitted arrivals, in arrival order. |
| Channel.StoppedPublishesNothing | nanobot/channels/feishu.py:149-158 | Once the running flag is cleared, no sequence of callbacks and processor iterations publishes anything, and the flag stays cleared. |
| Channel.StartWithoutCredentials | nanobot/channels/feishu.py:72-74 | `start` on a fresh channel without credentials leaves it exactly fresh, and `send` then issues nothing. |
| Channel.StopIdempotent | nanobot/channels/feishu.py:149-171 | `stop` twice equals `stop` once, and `start` then `stop` releases everything. |
| Channel.NoSendAfterStop | nanobot/channels/feishu.py:165-184 | After `stop`, `send` issues no request. |
| Channel.ReplyReachesOrigin | nanobot/channels/feishu.py:192-238 | An answer built from a publication's chat id and metadata goes back to its origin. A p2p event gets a create request to its chat. Any other chat type gets a reply to the original message when it has a message id, and no request (missing message id) when it has none. |
| Channel.AllowListScenario | nanobot/channels/feishu.py:353-370 | On a freshly started channel with allow-list {U1}: three accepted text events from U1, U2 and U1 are delivered and processed. The bus receives exactly the first and the third, in that order. |

## Left out

- Logging, including the `logger.add` set-up in `start` and the response success/failure report in `send`. They affect only log output, so `send` is modelled up to the request it issues.
- The Lark SDK (client and request builders, `EventDispatcherHandler`, WebSocket `start`/`stop`) is foreign code. Requests are plain records. A failing WebSocket `start` leaves the same state as a successful one, because every handle already exists.
- `json.loads` / `json.dumps` are foreign code. Decoding is the parameter `decode`; encoding is the constructor `TextPayload`.
- Events.Normalise: a `"text"` field whose JSON value is not a string is modelled as a drop. Python would queue a truthy non-string value; the model treats content as a string throughout.
- Fields that are `None` in Python (`chat_type`, `message_id`, raw content) are modelled as the empty string. Both are falsy and neither equals `"p2p"`, so every test the channel makes on them gives the same answer.
- `is_allowed` and `_handle_message` are not part of this model. They live in the base channel and the bus: the allow-list is the parameter `allowed`, and the bus is the recorded sequence `published`. A bus hand-off that raises is not modelled.
- Threads, the thread pool, `run_coroutine_threadsafe`, the one-second timeouts, task cancellation and the `while self._running: sleep` loop in `start` are concurrency and timing. Whether the `put` scheduled on the event loop runs is the boolean `handoffOk`. A wait that times out does not cancel the `put`, so such an event still arrives later; the model treats it as delivered and does not model the delay. Interleaving is the action sequence of `Channel.Run`, which covers callbacks and processor iterations only.
- Calling `start` again while running replaces the queue with a fresh one, and the old processor task is no longer referenced. The model records the new queue and task. What the old task keeps doing is not modelled.
