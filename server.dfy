/**
 * The server process as it runs: one object whose fields the WebSocket and
 * HTTP handlers update in place. `Connect`, `OnMessage`, `OnClose` and
 * `PostMetrics` perform `Relay.Connect`, `Relay.Dispatch`, `Relay.Close` and
 * `Relay.PostMetrics` and keep `Relay.Inv`; the per-type handlers perform
 * `Relay.Join`, `Relay.Signal` and `Relay.InferFrame`; the helpers perform
 * `Relay.EnsureRoom`, `Relay.Send` and `Metrics.Stamped`.
 */
module Server {
  import opened Json
  import opened Protocol
  import Metrics
  import opened Relay

  class SignalingServer {
    /** `rooms`: room id to its slots. */
    var rooms: map<Field, Room>
    /** The `role`/`roomId` closure variables of every accepted connection. */
    var sessions: map<ConnId, Session>
    /** The connections whose `readyState` is OPEN. */
    var open: set<ConnId>
    /** Every message `ws.send` has been handed, in order. */
    var outbox: seq<Outgoing>
    var metricsBuffer: seq<Props>
    var lastMetricsAt: int

    function State(): Relay.State
      reads this
    {
      Relay.State(rooms, sessions, open, outbox, metricsBuffer, lastMetricsAt)
    }

    ghost predicate Valid()
      reads this
    {
      Inv(State())
    }

    constructor ()
      ensures State() == Initial && Valid()
    {
      rooms := map[];
      sessions := map[];
      open := {};
      outbox := [];
      metricsBuffer := [];
      lastMetricsAt := 0;
      InitialInv();
    }

    /** `getOrCreateRoom(roomId)` */
    method GetOrCreateRoom(roomId: Field) returns (room: Room)
      modifies this`rooms
      ensures rooms == EnsureRoom(old(rooms), roomId)
      ensures room == RoomAt(old(rooms), roomId) && room == rooms[roomId]
    {
      if roomId !in rooms {
        rooms := rooms[roomId := EmptyRoom];
      }
      room := rooms[roomId];
    }

    /** `safeSend(to, m)` */
    method SafeSend(to: Option<ConnId>, m: ServerMsg)
      modifies this`outbox
      ensures outbox == old(outbox) + Send(open, to, m)
    {
      if to.Some? && to.value in open {
        outbox := outbox + [Outgoing(to.value, m)];
      }
    }

    /** `wss.on('connection')`: a fresh socket with `role` and `roomId` still null. */
    method Connect(ws: ConnId)
      requires Valid() && ws !in sessions
      modifies this
      ensures State() == Relay.Connect(old(State()), ws) && Valid()
    {
      ConnectInv(State(), ws);
      sessions := sessions[ws := Unjoined];
      open := open + {ws};
    }

    method HandleJoin(ws: ConnId, role: Field, roomId: Field)
      requires ws in sessions
      modifies this
      ensures State() == Relay.Join(old(State()), ws, role, roomId)
    {
      sessions := sessions[ws := Session(role, roomId)];
      var room := GetOrCreateRoom(roomId);
      room := SetSlot(room, PropKey(role), Some(ws));
      rooms := rooms[roomId := room];
      if role == Text("viewer") && room.phone.Some? {
        SafeSend(room.viewer, Ready);
      }
      if role == Text("phone") && room.viewer.Some? {
        SafeSend(room.viewer, PhoneJoined);
      }
      SafeSend(Some(ws), Joined(role, roomId));
    }

    method HandleSignal(ws: ConnId, data: Value, target: Field)
      requires ws in sessions
      modifies this
      ensures State() == Relay.Signal(old(State()), ws, data, target)
    {
      var roomId := sessions[ws].roomId;
      if Truthy(roomId) {
        var room := GetOrCreateRoom(roomId);
        var to := if target == Text("phone") then room.phone else room.viewer;
        SafeSend(to, SignalOut(data));
      }
    }

    method HandleInferFrame(ws: ConnId, frameId: Value, captureTs: Option<int>, recvTs: Option<int>,
                            inf: Inference)
      requires ws in sessions
      modifies this
      ensures State() == Relay.InferFrame(old(State()), ws, frameId, captureTs, recvTs, inf)
    {
      match inf.outcome
      case Failed(error) =>
        SafeSend(Some(ws), InferError(error));
      case Detected(predictions, width, height) =>
        var payload := InferResult(frameId, captureTs, recvTs, inf.done, NormalizeAll(predictions, width, height));
        var roomId := sessions[ws].roomId;
        if Truthy(roomId) {
          var room := GetOrCreateRoom(roomId);
          SafeSend(room.phone, payload);
          SafeSend(room.viewer, payload);
        } else {
          SafeSend(Some(ws), payload);
        }
        metricsBuffer := metricsBuffer + [Metrics.InferenceSample(inf.start, inf.done, inf.recorded, captureTs, recvTs)];
    }

    /** `ws.on('message')` for one parsed message; `inf` is the engine's answer when it is a frame. */
    method OnMessage(ws: ConnId, m: ClientMsg, inf: Inference)
      requires Valid() && ws in sessions && ws in open
      modifies this
      ensures State() == Dispatch(old(State()), ws, m, inf) && Valid()
    {
      DispatchInv(State(), ws, m, inf);
      match m
      case Join(role, roomId) => HandleJoin(ws, role, roomId);
      case Signal(_, data, target) => HandleSignal(ws, data, target);
      case InferFrame(frameId, captureTs, recvTs, _, _) => HandleInferFrame(ws, frameId, captureTs, recvTs, inf);
      case Other(_) =>
    }

    /** `ws.on('close')` */
    method OnClose(ws: ConnId)
      requires Valid() && ws in sessions
      modifies this
      ensures State() == Relay.Close(old(State()), ws) && Valid()
    {
      CloseInv(State(), ws);
      open := open - {ws};
      var sess := sessions[ws];
      if !Truthy(sess.roomId) {
        return;
      }
      if sess.roomId !in rooms {
        return;
      }
      var room := rooms[sess.roomId];
      if Truthy(sess.role) && Slot(room, PropKey(sess.role)) == Some(ws) {
        rooms := rooms[sess.roomId := SetSlot(room, PropKey(sess.role), None)];
      }
    }

    /** `POST /api/metrics` at time `now`; the reply is `{ ok: true }` in every case. */
    method PostMetrics(body: Value, now: int) returns (reply: Value)
      requires Valid()
      modifies this`metricsBuffer, this`lastMetricsAt
      ensures State() == Relay.PostMetrics(old(State()), body, now) && Valid()
      ensures reply == OkReply
    {
      PostMetricsInv(State(), body, now);
      var samples := PostedSamples(body);
      if samples.Some? {
        lastMetricsAt := now;
        PushStamped(samples.value, now);
      }
      reply := OkReply;
    }

    /** The loop `for (const s of samples) metricsBuffer.push({ ...s, received_at: now })`. */
    method PushStamped(items: seq<Value>, now: int)
      modifies this`metricsBuffer
      ensures metricsBuffer == old(metricsBuffer) + Metrics.Stamped(items, now)
    {
      for i := 0 to |items|
        invariant metricsBuffer == old(metricsBuffer) + Metrics.Stamped(items[..i], now)
      {
        metricsBuffer := metricsBuffer + [With(Spread(items[i]), Metrics.ReceivedAtKey, Num(now))];
        Metrics.StampedPrefix(items, i, now);
      }
      assert items[..|items|] == items;
    }
  }
}
