# Real-time detection relay: signalling, inference fan-out and metrics

This project models the core of a phone-to-browser object-detection demo.
A phone streams video to a viewer page over WebRTC, and the two peers find
each other through a Node.js signalling server. In "server mode" the phone
also sends still frames over the same WebSocket. The server runs a detector
on each frame and fans the detections out to both peers. Both peers and the
inference path feed an in-memory telemetry log, which the server summarises
with nearest-rank percentiles over a trailing window.

The model is split as follows.

- `json.dfy` (module `Json`): JSON values, and the spread-and-override
  literal `{ ...o, k: v }` that both sides use to stamp samples.
- `protocol.dfy` (module `Protocol`):
  - the client and server message types;
  - JavaScript's coercion of a missing or `null` role into a property name;
  - the normalisation of detector boxes to fractions of the image.
- `metrics.dfy` (module `Metrics`):
  - the sample log;
  - the copy-sort and the clamped nearest-rank `percentile`, proved against
    a rank-counting reference definition (`NearestRank`);
  - the trailing window, the per-field numeric lists, and `computeMetrics`;
  - the two producers of samples (the POST handler and the inference path).
- `relay.dfy` (module `Relay`): the server's whole state as one value, and
  one transition function per handler:
  - connection, `join`, `signal`, `infer_frame` and `close`;
  - `POST /api/metrics`.

  It also holds lemmas about what each handler sends to whom, an invariant
  every transition keeps, and four multi-step scenarios (`PairingScenario`,
  `RejoinLeavesStaleSlot`, `NullRoomSlotStays`, `EmptyRoleSlotStays`).
- `server.dfy` (module `Server`): the class `SignalingServer`. Its fields
  are the server's globals and its methods are the handlers, updating those
  fields in place.
  - `Connect`, `OnMessage`, `OnClose` and `PostMetrics` are proved to perform
    `Relay.Connect`, `Relay.Dispatch`, `Relay.Close` and `Relay.PostMetrics`
    exactly, and to keep `Relay.Inv`.
  - The per-type handlers `HandleJoin`, `HandleSignal` and `HandleInferFrame`
    are proved to perform `Relay.Join`, `Relay.Signal` and `Relay.InferFrame`.
  - The helpers `GetOrCreateRoom`, `SafeSend` and `PushStamped` are proved to
    perform `Relay.EnsureRoom`, `Relay.Send` and `Metrics.Stamped`.
- `client.dfy` (module `Client`): the narrow client pieces of the browser
  page.
  - The `ws.onmessage` dispatch by message type, and the default `target`
    of `sendSignal`.
  - The ten-sample metrics batcher. It is proved to lose, duplicate and
    reorder nothing, and to POST only full batches.
  - The phone's busy gate. It is proved to keep at most one frame in
    flight.
  - The class `Page`, which performs these rules on the page's global
    state.

Clock readings, the detector's answer, random frame ids and camera images
are parameters. A connection is a number standing for the socket object's
identity.

## Model

| member | source | states |
|---|---|---|
| Json.With | frontend/public/main.js:203 | `{ ...o, k: v }`: `k` reads `v`, every other key reads as before, an existing key keeps its position, a new key is appended last |
| Json.GetDefined | server/index.js:63-68 | a property read is defined exactly for the object's own keys |
| Protocol.PropKey | server/index.js:156 | `room[role]` with a string role uses that string as the property name |
| Protocol.PropKeyOfRoles | server/index.js:156-159 | the property name is "viewer", "phone" or "infer" exactly when the role is that string; `null`/`undefined` roles name other properties |
| Protocol.Normalize | server/index.js:254-262 | label and score are kept; `xmin`/`ymin` are at least 0 and at least the exact fraction, and equal one of the two; `xmax`/`ymax` are at most 1 and at most the exact fraction, and equal one of the two |
| Protocol.NormalizeAll | server/index.js:253-263 | one detection per prediction, in order, each the normalisation of its prediction |
| Protocol.NormalizeInside | server/index.js:258-261 | a box inside the image keeps its exact fractions, and the corners are ordered within [0, 1] |
| Protocol.NormalizeMayInvert | server/index.js:258-260 | a box starting beyond the right edge gets `xmin` > `xmax`: the clamps are one-sided, so corner order is not guaranteed |
| Metrics.InsertSorted | server/index.js:72 | inserting into an ascending list keeps it ascending, and the new head is the smaller of the old head and the inserted value |
| Metrics.SortSorted | server/index.js:72 | the copy-sort `(a, b) => a - b` yields an ascending list |
| Metrics.SortPermutes | server/index.js:72 | the copy-sort holds exactly the input's elements, each as often |
| Metrics.Sort | server/index.js:72 | the copy keeps the input's length; `SortSorted` and `SortPermutes` state that it is ascending and a permutation |
| Metrics.SortOfSorted | server/index.js:72 | sorting a sorted list returns it unchanged |
| Metrics.PercentileIndex | server/index.js:73 | the clamped index is always a valid position |
| Metrics.IndexMonotone | server/index.js:73 | the clamped index never decreases as p grows |
| Metrics.IndexLow | server/index.js:73 | p <= 0 clamps to index 0 |
| Metrics.IndexHigh | server/index.js:73 | p >= 100 clamps to the last index |
| Metrics.CountBelowSort | server/index.js:72 | sorting keeps, for every bound, the number of elements below it |
| Metrics.SortedRank | server/index.js:74 | in a sorted list, the element at index i has i or fewer elements below it and more than i at or below it |
| Metrics.SortedPick | server/index.js:72-74 | the element the sorted copy holds at index i has rank i in the unsorted input |
| Metrics.SortedPickLow | server/index.js:72-74 | at most i elements of the input lie below the sorted copy's element at index i |
| Metrics.SortedPickHigh | server/index.js:72-74 | more than i elements of the input are at most the sorted copy's element at index i |
| Metrics.Percentile | server/index.js:70-75 | `null` exactly for an empty list; otherwise a value whose rank range contains the clamped index |
| Metrics.NearestRankMember | server/index.js:74 | a value meeting the nearest-rank condition is an element of the list, so the percentile is always one of the samples |
| Metrics.Median | server/index.js:77 | `median(arr)` meets the nearest-rank condition at p = 50 |
| Metrics.P95 | server/index.js:78 | `p95(arr)` meets the nearest-rank condition at p = 95 |
| Metrics.NearestRankUnique | server/index.js:70-75 | at most one value satisfies the nearest-rank condition, so that condition pins the result down |
| Metrics.PercentileMonotone | server/index.js:70-75 | a larger p never selects a smaller element |
| Metrics.MedianAtMostP95 | server/index.js:77-78 | the median never exceeds the p95 |
| Metrics.PercentileLow | server/index.js:73-74 | p <= 0 selects the minimum |
| Metrics.PercentileHigh | server/index.js:73-74 | p >= 100 selects the maximum |
| Metrics.P95OfFive | server/index.js:78 | five increasing samples have their fourth as p95 (`[10,20,30,40,50]` gives 40) |
| Metrics.MedianOfFive | server/index.js:77 | five increasing samples have their third as median |
| Metrics.StrictRank | server/index.js:72-74 | in a strictly increasing list the element at index k has exactly k elements below it and k + 1 at or below it |
| Metrics.Window | server/index.js:61-62 | a sample is in the window exactly when it is in the log and its `received_at` (or 0) is at least the cutoff |
| Metrics.WindowAppend | server/index.js:62 | the window of a concatenation is the concatenation of the windows, in log order |
| Metrics.WindowKeepsRecent | server/index.js:62 | a log whose samples are all recent enough is its own window |
| Metrics.NumericField | server/index.js:63-68 | a field's list is never longer than the window; `NumericFieldMembers`, `NumericFieldAppend` and `NumericFieldPush` state which values it holds and in what order |
| Metrics.NumericFieldMembers | server/index.js:63-68 | a value is in a field's list exactly when some sample carries that number under the key; non-numbers (including `null`) are skipped |
| Metrics.NumericFieldAppend | server/index.js:63-68 | the field list of a concatenation is the concatenation of the field lists |
| Metrics.NumericFieldPush | server/index.js:63-68 | appending one sample extends each field list by the number that sample carries, if any |
| Metrics.NumericFieldPushNum | server/index.js:63-68 | a sample carrying the number n under a key extends that key's list by exactly n |
| Metrics.ComputeMetrics | server/index.js:60-93 | the snapshot's `generated_at` is the second clock reading and its window the one asked for; the sample count is the window's size, the window being cut at the first clock reading; each median and the p95 satisfy the nearest-rank condition over their field's windowed list; the e2e median is at most the e2e p95 |
| Metrics.Stamped | server/index.js:52-54 | one stored sample per posted element; each has `received_at` = now and every other field of the posted object |
| Metrics.StampedAppend | server/index.js:52-54 | stamping distributes over concatenation, so the loop may stamp one element at a time |
| Metrics.StampedPrefix | server/index.js:52-54 | stamping one more posted element appends that element spread with `received_at` = now |
| Metrics.LogStampedAppend | server/index.js:53 | logs whose samples all carry a numeric `received_at` stay so when concatenated |
| Metrics.FreshSamplesInWindow | server/index.js:53 | samples stamped at the query instant all fall in any non-negative window |
| Metrics.InferenceSample | server/index.js:200-208 | server latency = inference end minus (`recv_ts` or inference start); network latency = (`recv_ts` or end) minus (`capture_ts` or end); the other four metrics are `null`; `received_at` is the clock reading |
| Metrics.InferenceSampleServerLatency | server/index.js:202 | an inference sample appends exactly its server latency to that metric's list |
| Metrics.InferenceSampleNetworkLatency | server/index.js:203 | an inference sample appends exactly its network latency to that metric's list |
| Metrics.InferenceSampleNulls | server/index.js:201-206 | an inference sample leaves the e2e, fps and bitrate lists unchanged |
| Relay.SetSlot | server/index.js:156 | `room[key] = c` changes that slot and no other |
| Relay.EmptyRoomVacant | server/index.js:124 | a fresh room has every slot vacant |
| Relay.Send | server/index.js:128-131 | `safeSend` emits at most one message, exactly when the recipient is present and open, carrying the given message to that recipient |
| Relay.EnsureRoom | server/index.js:123-126 | `getOrCreateRoom` adds the key with an empty room if absent, and leaves every existing room as it was |
| Relay.EnsureRoomIdempotent | server/index.js:123-126 | a second `getOrCreateRoom` changes nothing and returns the same room |
| Relay.JoinNotice | server/index.js:158-159 | at most one notice, only for a viewer or phone role, and only to the room's open viewer |
| Relay.Join | server/index.js:151-162 | the session is rebound; the room exists; the role's slot holds the connection and every other slot is unchanged; the outbox gains the counterpart notice, then `joined` |
| Relay.JoinViewerWithPhone | server/index.js:156-160 | a viewer joining a room with a phone gets `ready`, then `joined` |
| Relay.JoinPhoneWithViewer | server/index.js:156-160 | a phone joining a room with an open viewer sends that viewer `phone-joined`, then gets `joined` |
| Relay.JoinAlone | server/index.js:157-160 | without a counterpart, or in any other role, a join only confirms |
| Relay.Signal | server/index.js:165-171 | an unjoined connection's signal changes nothing; a joined one ensures the room and sends `data` to the phone slot if the target is "phone", else to the viewer slot |
| Relay.SignalUnjoined | server/index.js:165 | a signal before joining is dropped |
| Relay.SignalDelivered | server/index.js:166-169 | the targeted open occupant receives exactly one `signal` carrying `data` unchanged |
| Relay.SignalDropped | server/index.js:128-131 | a vacant or closed target receives nothing |
| Relay.Detections | server/index.js:253-264 | the detections sent are the detector's predictions normalised to the decoded image, one per prediction and in order |
| Relay.ResultFor | server/index.js:183-190 | the `infer_result` payload; `InferFanOut` and `InferUnjoined` state its fields: frame id and timestamps echoed, `inference_ts` the end-of-inference clock, the normalised detections |
| Relay.InferFrame | server/index.js:174-214 | on failure, `infer_error` goes to the sender alone and nothing is logged; on success, one latency sample is logged and the result goes to phone then viewer of a joined sender's room, or back to an unjoined sender |
| Relay.InferFanOut | server/index.js:183-198 | the same `infer_result` goes to the open phone, then to the open viewer, with frame id and timestamps unchanged, `inference_ts` = the end-of-inference clock, and the normalised detections |
| Relay.InferUnjoined | server/index.js:192-198 | an unjoined sender gets its own result, with the normalised detections, and no room is created |
| Relay.InferFailed | server/index.js:209-212 | a failed inference answers only the sender and logs nothing |
| Relay.Dispatch | server/index.js:139-215 | an object message of any other type changes nothing; no message opens or closes a connection |
| Relay.Connect | server/index.js:134-137 | a new connection is open with role and room `null`; rooms, messages, log and `lastMetricsAt` are unchanged |
| Relay.Close | server/index.js:217-223 | the connection is no longer open; only the slot of its latest join is cleared, and only if it still holds that slot; sessions, messages, log and `lastMetricsAt` are unchanged |
| Relay.CloseNeverClobbers | server/index.js:222 | closing never clears a slot another connection holds |
| Relay.CloseUnjoined | server/index.js:219-221 | closing an unjoined connection, or one whose room is missing, changes no room |
| Relay.PostedSamples | server/index.js:49 | samples are read exactly when the body is an object whose `samples` is an array |
| Relay.PostMetrics | server/index.js:47-57 | a body without a `samples` array changes nothing; otherwise the stamped samples are appended in order and `lastMetricsAt` is set to now |
| Relay.InitialInv | server/index.js:44-45 | the empty server satisfies the invariant |
| Relay.ConnectInv | server/index.js:134-137 | accepting a connection keeps the invariant |
| Relay.JoinInv | server/index.js:151-162 | a join keeps the invariant |
| Relay.SignalInv | server/index.js:165-171 | a signal keeps the invariant |
| Relay.InferFrameInv | server/index.js:174-214 | an `infer_frame` keeps the invariant, including the numeric `received_at` of every logged sample |
| Relay.DispatchInv | server/index.js:139-215 | every message keeps the invariant |
| Relay.CloseInv | server/index.js:217-223 | a close keeps the invariant, so no closed connection whose latest join named a truthy role and room id keeps that slot |
| Relay.NullRoomSlotStays | server/index.js:151-221 | a viewer that joined with a `null` room id keeps its slot in the room stored under `null` after closing, and the invariant still holds |
| Relay.EmptyRoleSlotStays | server/index.js:151-222 | a connection that joined with the empty role keeps the slot named "" after closing, and the invariant still holds |
| Relay.PostMetricsInv | server/index.js:47-57 | a POST keeps the invariant |
| Relay.PairingScenario | server/index.js:151-171 | viewer joins, phone joins, phone signals: the viewer gets `joined`, then `phone-joined`; the phone gets `joined`; the viewer gets the offer |
| Relay.RejoinLeavesStaleSlot | server/index.js:152-222 | a connection that joins as viewer in one room and as phone in another vacates only the phone slot on close; the first room's viewer slot keeps the closed connection |
| Server.SignalingServer.constructor | server/index.js:44-45 | the server starts with no rooms, connections, messages or samples, and satisfies the invariant |
| Server.SignalingServer.GetOrCreateRoom | server/index.js:123-126 | the registry becomes `EnsureRoom` of the old one, and the room returned is the one stored |
| Server.SignalingServer.SafeSend | server/index.js:128-131 | exactly one message is sent when the recipient exists and is open, none otherwise |
| Server.SignalingServer.Connect | server/index.js:134-137 | performs `Relay.Connect` in place and keeps the invariant |
| Server.SignalingServer.HandleJoin | server/index.js:151-162 | performs `Relay.Join` in place |
| Server.SignalingServer.HandleSignal | server/index.js:165-171 | performs `Relay.Signal` in place |
| Server.SignalingServer.HandleInferFrame | server/index.js:174-214 | performs `Relay.InferFrame` in place |
| Server.SignalingServer.OnMessage | server/index.js:139-215 | performs `Relay.Dispatch` in place and keeps the invariant |
| Server.SignalingServer.OnClose | server/index.js:217-223 | performs `Relay.Close` in place and keeps the invariant |
| Server.SignalingServer.PostMetrics | server/index.js:47-57 | performs `Relay.PostMetrics` in place, keeps the invariant, and always replies `{ ok: true }` |
| Server.SignalingServer.PushStamped | server/index.js:52-54 | the push loop appends exactly `Stamped(samples, now)` to the buffer |
| Client.Route | frontend/public/main.js:69-81 | only a viewer negotiates, on `ready` or `phone-joined`; `signal` data goes to the signal handler unchanged; every `infer_result` reaches the result handler; `joined` and `infer_error` are ignored |
| Client.DefaultTarget | frontend/public/main.js:84 | the default target is "phone" exactly for a viewer, "viewer" otherwise |
| Client.ViewerSignalReachesPhone | frontend/public/main.js:84-86 | a viewer's signal with the default target reaches the room's open phone, through the server's relay |
| Client.PhoneSignalReachesViewer | frontend/public/main.js:84-86 | a phone's signal with the default target reaches the room's open viewer, through the server's relay |
| Client.Stamp | frontend/public/main.js:203 | the sample gains `t` = now and keeps every other field |
| Client.Push | frontend/public/main.js:201-208 | one `postMetricsSample` step on the buffer and the POSTed batches; `PushKeeps` and `PushConserves` state what it keeps and adds |
| Client.PushKeeps | frontend/public/main.js:201-208 | the buffer stays below ten samples and every POSTed batch holds exactly ten; earlier batches are untouched; a batch is POSTed exactly when nine were buffered |
| Client.PushConserves | frontend/public/main.js:203-205 | one call appends its stamped sample after all posted and buffered samples |
| Client.FeedKeeps | frontend/public/main.js:201-208 | any run of calls keeps the buffer and batch sizes and only appends batches |
| Client.FeedConserves | frontend/public/main.js:201-208 | over any run of calls, posted batches then buffer are exactly the stamped samples in call order: nothing lost, duplicated or reordered |
| Client.ObjectsOf | frontend/public/main.js:205-206 | the POST body's `samples` array holds each buffered sample as an object, in order |
| Client.BatchReachesServer | frontend/public/main.js:205-206 | a POSTed batch is appended to the server's log in order; each sample keeps every field but `received_at`, which becomes the server's clock |
| Client.Gate | frontend/public/main.js:219-221 | a frame is sent exactly on an open socket with video ready and the gate free, and sending closes the gate; a tick that sends nothing leaves the gate as it was; a result opens it; an error leaves it as it was |
| Client.AtMostOneInFlight | frontend/public/main.js:219-227 | over any run of events, frames sent never exceed results received plus one (plus none if the gate started closed) |
| Client.ErrorKeepsGateClosed | frontend/public/main.js:260-263 | with the gate closed, no run of events free of results sends a frame or reopens the gate, errors included |
| Client.Page.constructor | frontend/public/main.js:1-14 | the page starts with no socket, the gate open, no frame loop and an empty sample buffer |
| Client.Page.ConnectSignaling | frontend/public/main.js:64-65 | a new socket is connecting |
| Client.Page.OnOpen | frontend/public/main.js:66-68 | once open, the page sends exactly one `join` with its role and room |
| Client.Page.OnSocketClosed | frontend/public/main.js:219 | the socket is closed, which the frame loop's open check then observes |
| Client.Page.SendSignal | frontend/public/main.js:84-87 | without a socket nothing happens; on a connecting socket the send throws; on an open socket exactly one `signal` goes out with the given target or the default |
| Client.Page.PostMetricsSample | frontend/public/main.js:201-208 | the buffer and the POSTs become those of `Push`; the buffer stays below ten samples |
| Client.Page.StartFrameLoop | frontend/public/main.js:211-212 | only a phone in server mode starts the frame loop |
| Client.Page.Tick | frontend/public/main.js:218-230 | the gate and the socket's messages follow `Gate`; the frame sent carries the id, the capture time as both timestamps, the JPEG mime type and the image |
| Client.Page.HandleInferResult | frontend/public/main.js:234-264 | a viewer posts one sample whose `e2e_ms` is now minus (`capture_ts` or now), stamped with the later clock reading; a phone reopens the gate and posts nothing |
| Client.E2eSample | frontend/public/main.js:255-258 | the viewer's sample; `Client.Page.HandleInferResult` and `Client.Page.OnMessage` post it through `Recorded` |
| Client.Page.OnMessage | frontend/public/main.js:69-81 | performs `Route`: a negotiation or signal effect, or nothing; on `infer_result` no effect is recorded, a viewer posts its `e2e_ms` sample as `HandleInferResult` does, a phone reopens the gate and posts nothing; an `infer_error` leaves the gate as it was |

## Left out

- Transport and parsing are left out:
  - Express routing and static files;
  - the `/api/new-room`, `/config.json`, `/api/metrics/snapshot` (`parseInt` of the query) and `/bench/start` routes;
  - `JSON.parse` and `JSON.stringify`.

  Handlers receive parsed messages. A message that fails to parse is only logged, with the same effect as `ClientMsg.Other`.
- A message that parses to `null` is not modelled. Reading `msg.type` at server/index.js:148 then throws outside any `try`, and the rejected promise of the `async` listener is not handled. `ClientMsg` has no value for such a message.
- Logging (`console.log`/`console.error`) has no effect on state, so it is left out.
- The detector is an external call, so it is left out: TensorFlow, model loading, image decoding and `runServerInference` apart from its box normalisation. Its answer enters as `Relay.Outcome`: the raw predictions with the decoded image's width and height, or an error string; `e.message || String(e)` is that string.
- Protocol.Normalize: requires a positive image size. A decoded image always has one; with size 0, JavaScript divides into infinities or NaN, which is not modelled.
- Numbers are not floating point:
  - metric values are integers;
  - the percentile index `p / 100 * (n - 1)` and detection coordinates are exact reals.

  Rounding, NaN and infinities are not modelled, and neither is the JavaScript quirk that `typeof NaN === 'number'`.
- JSON objects are lists of key–value pairs, and duplicate keys are not modelled. A property read takes the first occurrence, while `JSON.parse` keeps the last, so an object with a repeated key may read differently. Parsed messages, POST bodies and logged samples are not required to have distinct keys.
- Metrics.Window: a `received_at` that is present but not a number reads as 0, while JavaScript compares the value itself. Every sample the server logs carries a numeric `received_at` (`Relay.Inv`), so this case does not arise in the server's log.
- Signature gaps:
  - `role`, `roomId` and `target` are modelled as missing, `null` or a string. Numbers and objects there are not modelled.
  - Spreading a string or an array contributes no properties in the model. JavaScript would add index keys, which no metric reads.
  - `capture_ts` and `recv_ts` are `Option<int>`, so `null` and a missing field are one value. The echoed `infer_result` does not tell them apart, while `JSON.stringify` keeps `null` and drops `undefined`.
  - Timestamps that are not numbers are not modelled, though JavaScript's `-` would coerce a numeric string.
  - A `signal` without `data`, or a frame without `frame_id`, is not modelled, since `Json.Value` has no `undefined`.
- Concurrency is not modelled. The `infer_frame` handler awaits the detector; the model runs it as one atomic step, reading the sender's `roomId` when the result is sent. Interleaving with other messages on the same connection during the await is not modelled.
- Rooms are values in a map, not the mutable objects the source aliases. Every update in the source goes through `rooms.get(roomId)`, so no aliasing is observable.
- A closed connection keeps its session entry, as the handler closure keeps `role` and `roomId`. The model has no CLOSING state: a connection counts as open until `Relay.Close` runs, so a message that `safeSend` would drop on a closing socket is recorded in the outbox.
- `ws.send` is assumed not to throw on an open socket, so `safeSend`'s `catch` is unreachable in the model.
- The browser page keeps only what the listed behaviours need:
  - WebRTC negotiation, `handleSignal`, drawing the overlay, the FPS counter and `updateFpsAndStats`, the `getStats` bandwidth loop, the WASM detector, the config fetch and the DOM are left out;
  - negotiation and signal handling appear only as `Client.Effect` records;
  - the `fetch` of a batch is a recorded POST body, and its result is ignored, as in the source.
- Client.Page.Tick: the two clock reads for `capture_ts` and `recv_ts` are one `now`. The random frame id and the canvas JPEG are parameters. The `setTimeout` rescheduling (200 ms when the socket is not open, 80 ms after a tick) is not modelled. The socket the loop captured at start is taken to be the page's current socket.
- Client.Page.HandleInferResult: the two clock reads in the e2e computation are one `now`. The later read for the sample's `t` stamp is the separate parameter `stampedAt`, as it is for `Client.Page.OnMessage`.
- Client.Page.OnSocketClosed models the browser closing the socket; the page installs no close handler of its own.

## Behaviour of the source worth knowing

- A WebSocket message whose text is `null` parses, and then reading `msg.type` (server/index.js:148) throws outside the `try`. The `async` message listener's rejection is not handled, so on Node 15 and later a single such message ends the server process for every room. This path is not modelled.
- A join with a falsy role or room id (missing, `null` or "") still takes a slot, but the close skips its clean-up, so the closed connection keeps that slot (`Relay.NullRoomSlotStays`, `Relay.EmptyRoleSlotStays`).
- The clean-up on close uses the connection's **latest** join, because the handler's `role` and `roomId` variables are overwritten on every join. A re-join therefore leaves the slot of the earlier join holding the connection (`Relay.RejoinLeavesStaleSlot`).
- Detection corners are clamped on one side only (`xmin` from below at 0, `xmax` from above at 1). They can fall outside [0, 1] on the other side, and `xmin <= xmax` does not always hold (`Protocol.NormalizeMayInvert`).
- An `infer_frame` from a connection that has not joined is not ignored: it is inferred and answered to the sender, and a sample is logged (`Relay.InferUnjoined`).
- The page does not handle `infer_error`, so after an error the phone's gate stays closed until a later `infer_result` (`Client.ErrorKeepsGateClosed`).
