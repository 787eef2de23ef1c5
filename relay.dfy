/**
 * The signalling server's state and its transitions, as values: the room
 * registry, the per-connection `role`/`roomId` of every connection ever
 * accepted, which connections are open, the messages sent so far, and
 * the metrics log.
 *
 * Each handler of a connection is one transition; `safeSend` appends to the
 * outbox only when the recipient exists and is open. The class in
 * server.dfy performs the same transitions in place.
 */
module Relay {
  import opened Json
  import opened Protocol
  import Metrics

  /** A room: the three named role slots and any other property `room[role]` created. */
  datatype Room = Room(viewer: Option<ConnId>, phone: Option<ConnId>, infer: Option<ConnId>,
                       others: map<string, Option<ConnId>>)

  const EmptyRoom := Room(None, None, None, map[])

  /** `room[key]`; a property never written reads as absent. */
  function Slot(room: Room, key: string): Option<ConnId> {
    if key == "viewer" then room.viewer
    else if key == "phone" then room.phone
    else if key == "infer" then room.infer
    else if key in room.others then room.others[key]
    else None
  }

  /** `room[key] = c`: that slot changes and no other. */
  function SetSlot(room: Room, key: string, c: Option<ConnId>): (r: Room)
    ensures Slot(r, key) == c
    ensures forall q :: q != key ==> Slot(r, q) == Slot(room, q)
  {
    if key == "viewer" then room.(viewer := c)
    else if key == "phone" then room.(phone := c)
    else if key == "infer" then room.(infer := c)
    else room.(others := room.others[key := c])
  }

  /** A fresh room has every slot vacant. */
  lemma EmptyRoomVacant(q: string)
    ensures Slot(EmptyRoom, q) == None
  {
  }

  /** The `role`/`roomId` variables of one connection; `null` until it joins. */
  datatype Session = Session(role: Field, roomId: Field)

  const Unjoined := Session(Nil, Nil)

  datatype Outgoing = Outgoing(to: ConnId, msg: ServerMsg)

  datatype State = State(
    rooms: map<Field, Room>,
    sessions: map<ConnId, Session>,
    open: set<ConnId>,
    outbox: seq<Outgoing>,
    log: seq<Props>,
    lastMetricsAt: int)

  const Initial := State(map[], map[], {}, [], [], 0)

  /** `safeSend(to, m)`: one message when the recipient exists and is open, none otherwise. */
  function Send(open: set<ConnId>, to: Option<ConnId>, m: ServerMsg): (r: seq<Outgoing>)
    ensures |r| <= 1
    ensures r != [] <==> to.Some? && to.value in open
    ensures forall o :: o in r ==> o.msg == m && Some(o.to) == to
  {
    if to.Some? && to.value in open then [Outgoing(to.value, m)] else []
  }

  // ---------------------------------------------------------------------------
  // getOrCreateRoom
  // ---------------------------------------------------------------------------

  /** The registry after `getOrCreateRoom(key)`. */
  function EnsureRoom(rooms: map<Field, Room>, key: Field): (r: map<Field, Room>)
    ensures r.Keys == rooms.Keys + {key}
    ensures forall k :: k in rooms ==> r[k] == rooms[k]
    ensures key !in rooms ==> r[key] == EmptyRoom
  {
    if key in rooms then rooms else rooms[key := EmptyRoom]
  }

  /** The room `getOrCreateRoom(key)` returns. */
  function RoomAt(rooms: map<Field, Room>, key: Field): Room {
    if key in rooms then rooms[key] else EmptyRoom
  }

  /** Asking for a room twice creates it at most once. */
  lemma EnsureRoomIdempotent(rooms: map<Field, Room>, key: Field)
    ensures EnsureRoom(EnsureRoom(rooms, key), key) == EnsureRoom(rooms, key)
    ensures EnsureRoom(rooms, key)[key] == RoomAt(rooms, key)
  {
  }

  // ---------------------------------------------------------------------------
  // The message handlers
  // ---------------------------------------------------------------------------

  /** The counterpart notice a join triggers, read after the slot is bound. */
  function JoinNotice(open: set<ConnId>, room: Room, role: Field): (r: seq<Outgoing>)
    ensures |r| <= 1
    ensures forall o :: o in r ==> Some(o.to) == room.viewer && o.to in open
    ensures r != [] ==> role == Text("viewer") || role == Text("phone")
  {
    if role == Text("viewer") && room.phone.Some? then Send(open, room.viewer, Ready)
    else if role == Text("phone") && room.viewer.Some? then Send(open, room.viewer, PhoneJoined)
    else []
  }

  /** `join`: rebind this connection, take the role's slot, notify, confirm. */
  function Join(s: State, ws: ConnId, role: Field, roomId: Field): (r: State)
    requires ws in s.sessions
    ensures r.sessions == s.sessions[ws := Session(role, roomId)]
    ensures r.open == s.open && r.log == s.log && r.lastMetricsAt == s.lastMetricsAt
    ensures r.rooms.Keys == s.rooms.Keys + {roomId}
    ensures forall k :: k in s.rooms && k != roomId ==> r.rooms[k] == s.rooms[k]
    ensures Slot(r.rooms[roomId], PropKey(role)) == Some(ws)
    ensures forall q :: q != PropKey(role) ==> Slot(r.rooms[roomId], q) == Slot(RoomAt(s.rooms, roomId), q)
    ensures r.outbox == s.outbox + JoinNotice(s.open, r.rooms[roomId], role)
                                 + Send(s.open, Some(ws), Joined(role, roomId))
  {
    var rooms := EnsureRoom(s.rooms, roomId);
    var room := SetSlot(rooms[roomId], PropKey(role), Some(ws));
    s.(rooms := rooms[roomId := room],
       sessions := s.sessions[ws := Session(role, roomId)],
       outbox := s.outbox + JoinNotice(s.open, room, role) + Send(s.open, Some(ws), Joined(role, roomId)))
  }

  /** `signal`: relay `data` to the phone if targeted, to the viewer otherwise. */
  function Signal(s: State, ws: ConnId, data: Value, target: Field): (r: State)
    requires ws in s.sessions
    ensures !Truthy(s.sessions[ws].roomId) ==> r == s
    ensures Truthy(s.sessions[ws].roomId) ==>
      var room := RoomAt(s.rooms, s.sessions[ws].roomId);
      && r == s.(rooms := EnsureRoom(s.rooms, s.sessions[ws].roomId),
                 outbox := s.outbox + Send(s.open, if target == Text("phone") then room.phone else room.viewer,
                                           SignalOut(data)))
  {
    var roomId := s.sessions[ws].roomId;
    if !Truthy(roomId) then s
    else
      var rooms := EnsureRoom(s.rooms, roomId);
      var room := rooms[roomId];
      var to := if target == Text("phone") then room.phone else room.viewer;
      s.(rooms := rooms, outbox := s.outbox + Send(s.open, to, SignalOut(data)))
  }

  /** A decoded image's width or height in pixels. */
  type Size = r: real | r > 0.0 witness 1.0

  /**
   * What the engine did with one frame: the detector's raw predictions with
   * the decoded image's size, or the error it threw.
   */
  datatype Outcome = Detected(predictions: seq<Prediction>, width: Size, height: Size) | Failed(error: string)

  /** `runServerInference`'s answer: the predictions normalised to the image. */
  function Detections(o: Outcome): (ds: seq<Detection>)
    requires o.Detected?
    ensures |ds| == |o.predictions|
    ensures forall i :: 0 <= i < |ds| ==> ds[i] == Normalize(o.predictions[i], o.width, o.height)
  {
    NormalizeAll(o.predictions, o.width, o.height)
  }

  /**
   * One inference as the handler saw it: the engine's outcome and the three
   * clock readings (before the call, after it, and when the sample is made).
   */
  datatype Inference = Inference(outcome: Outcome, start: int, done: int, recorded: int)

  /** The `infer_result` payload for a frame. */
  function ResultFor(frameId: Value, captureTs: Option<int>, recvTs: Option<int>, inf: Inference): ServerMsg
    requires inf.outcome.Detected?
  {
    InferResult(frameId, captureTs, recvTs, inf.done, Detections(inf.outcome))
  }

  /** `infer_frame`: answer, fan the result out, and log one latency sample. */
  function InferFrame(s: State, ws: ConnId, frameId: Value, captureTs: Option<int>, recvTs: Option<int>,
                      inf: Inference): (r: State)
    requires ws in s.sessions
    ensures r.sessions == s.sessions && r.open == s.open && r.lastMetricsAt == s.lastMetricsAt
    ensures inf.outcome.Failed? ==>
      r == s.(outbox := s.outbox + Send(s.open, Some(ws), InferError(inf.outcome.error)))
    ensures inf.outcome.Detected? ==>
      && r.log == s.log + [Metrics.InferenceSample(inf.start, inf.done, inf.recorded, captureTs, recvTs)]
      && var roomId := s.sessions[ws].roomId;
         var m := ResultFor(frameId, captureTs, recvTs, inf);
         if Truthy(roomId) then
           var room := RoomAt(s.rooms, roomId);
           && r.rooms == EnsureRoom(s.rooms, roomId)
           && r.outbox == s.outbox + Send(s.open, room.phone, m) + Send(s.open, room.viewer, m)
         else
           r.rooms == s.rooms && r.outbox == s.outbox + Send(s.open, Some(ws), m)
  {
    match inf.outcome
    case Failed(error) =>
      s.(outbox := s.outbox + Send(s.open, Some(ws), InferError(error)))
    case Detected(_, _, _) =>
      var m := ResultFor(frameId, captureTs, recvTs, inf);
      var roomId := s.sessions[ws].roomId;
      var sample := Metrics.InferenceSample(inf.start, inf.done, inf.recorded, captureTs, recvTs);
      if Truthy(roomId) then
        var rooms := EnsureRoom(s.rooms, roomId);
        var room := rooms[roomId];
        s.(rooms := rooms,
           outbox := s.outbox + Send(s.open, room.phone, m) + Send(s.open, room.viewer, m),
           log := s.log + [sample])
      else
        s.(outbox := s.outbox + Send(s.open, Some(ws), m), log := s.log + [sample])
  }

  /** One parsed message on an open connection. */
  function Dispatch(s: State, ws: ConnId, m: ClientMsg, inf: Inference): (r: State)
    requires ws in s.sessions && ws in s.open
    ensures r.open == s.open && r.lastMetricsAt == s.lastMetricsAt
    ensures m.Other? ==> r == s
  {
    match m
    case Join(role, roomId) => Join(s, ws, role, roomId)
    case Signal(_, data, target) => Signal(s, ws, data, target)
    case InferFrame(frameId, captureTs, recvTs, _, _) => InferFrame(s, ws, frameId, captureTs, recvTs, inf)
    case Other(_) => s
  }

  /** A new connection: open, not yet joined. */
  function Connect(s: State, ws: ConnId): (r: State)
    requires ws !in s.sessions
    ensures r.sessions == s.sessions[ws := Unjoined] && r.open == s.open + {ws}
    ensures r.rooms == s.rooms && r.outbox == s.outbox && r.log == s.log
    ensures r.lastMetricsAt == s.lastMetricsAt
  {
    s.(sessions := s.sessions[ws := Unjoined], open := s.open + {ws})
  }

  /** Whether closing `ws` vacates its slot: joined, room present, slot still its own. */
  predicate Vacates(s: State, ws: ConnId)
    requires ws in s.sessions
  {
    var sess := s.sessions[ws];
    && Truthy(sess.roomId) && sess.roomId in s.rooms
    && Truthy(sess.role) && Slot(s.rooms[sess.roomId], PropKey(sess.role)) == Some(ws)
  }

  /** `close`: the connection is gone; its latest slot is vacated only if it still holds it. */
  function Close(s: State, ws: ConnId): (r: State)
    requires ws in s.sessions
    ensures r.open == s.open - {ws}
    ensures r.sessions == s.sessions && r.outbox == s.outbox && r.log == s.log
    ensures r.lastMetricsAt == s.lastMetricsAt
    ensures r.rooms.Keys == s.rooms.Keys
    ensures forall k, q :: k in s.rooms ==>
      Slot(r.rooms[k], q) ==
        if Vacates(s, ws) && k == s.sessions[ws].roomId && q == PropKey(s.sessions[ws].role) then None
        else Slot(s.rooms[k], q)
  {
    var sess := s.sessions[ws];
    var closed := s.(open := s.open - {ws});
    if Vacates(s, ws) then
      closed.(rooms := s.rooms[sess.roomId := SetSlot(s.rooms[sess.roomId], PropKey(sess.role), None)])
    else closed
  }

  // ---------------------------------------------------------------------------
  // POST /api/metrics
  // ---------------------------------------------------------------------------

  /** The array under `samples` when the body is an object that has one. */
  function PostedSamples(body: Value): (r: Option<seq<Value>>)
    ensures r.Some? <==> body.Obj? && Get(body.fields, "samples").Some? && Get(body.fields, "samples").value.Arr?
    ensures r.Some? ==> Get(body.fields, "samples") == Some(Arr(r.value))
  {
    match body
    case Obj(fields) =>
      (match Get(fields, "samples") case Some(Arr(items)) => Some(items) case _ => None)
    case _ => None
  }

  /** The reply to every POST. */
  const OkReply := Obj([("ok", Bool(true))])

  /** The metrics log and timestamp after a POST at time `now`. */
  function PostMetrics(s: State, body: Value, now: int): (r: State)
    ensures r.rooms == s.rooms && r.sessions == s.sessions && r.open == s.open && r.outbox == s.outbox
    ensures PostedSamples(body).None? ==> r == s
    ensures PostedSamples(body).Some? ==>
      r.log == s.log + Metrics.Stamped(PostedSamples(body).value, now) && r.lastMetricsAt == now
  {
    match PostedSamples(body)
    case Some(items) => s.(log := s.log + Metrics.Stamped(items, now), lastMetricsAt := now)
    case None => s
  }

  // ---------------------------------------------------------------------------
  // Emission rules
  // ---------------------------------------------------------------------------

  /** A viewer joining a room whose phone slot is taken gets `ready`, then `joined`. */
  lemma JoinViewerWithPhone(s: State, ws: ConnId, roomId: Field)
    requires ws in s.sessions && ws in s.open
    requires RoomAt(s.rooms, roomId).phone.Some?
    ensures Join(s, ws, Text("viewer"), roomId).outbox
         == s.outbox + [Outgoing(ws, Ready), Outgoing(ws, Joined(Text("viewer"), roomId))]
  {
    var r := Join(s, ws, Text("viewer"), roomId);
    assert Slot(r.rooms[roomId], "phone") == Slot(RoomAt(s.rooms, roomId), "phone");
  }

  /** A phone joining a room with a viewer notifies that viewer once, then confirms. */
  lemma JoinPhoneWithViewer(s: State, ws: ConnId, roomId: Field, v: ConnId)
    requires ws in s.sessions && ws in s.open
    requires RoomAt(s.rooms, roomId).viewer == Some(v) && v in s.open
    ensures Join(s, ws, Text("phone"), roomId).outbox
         == s.outbox + [Outgoing(v, PhoneJoined), Outgoing(ws, Joined(Text("phone"), roomId))]
  {
    var r := Join(s, ws, Text("phone"), roomId);
    assert Slot(r.rooms[roomId], "viewer") == Slot(RoomAt(s.rooms, roomId), "viewer");
  }

  /** Without a counterpart, or in any other role, a join only confirms. */
  lemma JoinAlone(s: State, ws: ConnId, role: Field, roomId: Field)
    requires ws in s.sessions
    requires role == Text("viewer") ==> RoomAt(s.rooms, roomId).phone.None?
    requires role == Text("phone") ==> RoomAt(s.rooms, roomId).viewer.None?
    ensures Join(s, ws, role, roomId).outbox == s.outbox + Send(s.open, Some(ws), Joined(role, roomId))
  {
    var r := Join(s, ws, role, roomId);
    PropKeyOfRoles(role);
    assert Slot(r.rooms[roomId], "phone") == Slot(RoomAt(s.rooms, roomId), "phone") || role == Text("phone");
    assert Slot(r.rooms[roomId], "viewer") == Slot(RoomAt(s.rooms, roomId), "viewer") || role == Text("viewer");
  }

  /** A signal from a connection that has not joined a room is dropped. */
  lemma SignalUnjoined(s: State, ws: ConnId, data: Value, target: Field)
    requires ws in s.sessions && !Truthy(s.sessions[ws].roomId)
    ensures Signal(s, ws, data, target) == s
  {
  }

  /**
   * A joined connection's signal reaches the open occupant of the targeted
   * slot, `data` unchanged: "phone" selects the phone, anything else the viewer.
   */
  lemma SignalDelivered(s: State, ws: ConnId, data: Value, target: Field, to: ConnId)
    requires ws in s.sessions && Truthy(s.sessions[ws].roomId)
    requires Slot(RoomAt(s.rooms, s.sessions[ws].roomId), if target == Text("phone") then "phone" else "viewer") == Some(to)
    requires to in s.open
    ensures Signal(s, ws, data, target).outbox == s.outbox + [Outgoing(to, SignalOut(data))]
  {
  }

  /** Nothing is relayed when the targeted slot is vacant or its occupant is closed. */
  lemma SignalDropped(s: State, ws: ConnId, data: Value, target: Field)
    requires ws in s.sessions
    requires var to := Slot(RoomAt(s.rooms, s.sessions[ws].roomId), if target == Text("phone") then "phone" else "viewer");
      to.None? || to.value !in s.open
    ensures Signal(s, ws, data, target).outbox == s.outbox
  {
  }

  /**
   * A joined connection's inference result goes to the room's open phone and
   * viewer, in that order, carrying the frame's id and timestamps unchanged.
   */
  lemma InferFanOut(s: State, ws: ConnId, frameId: Value, captureTs: Option<int>, recvTs: Option<int>,
                    inf: Inference, p: ConnId, v: ConnId)
    requires ws in s.sessions && Truthy(s.sessions[ws].roomId) && inf.outcome.Detected?
    requires RoomAt(s.rooms, s.sessions[ws].roomId).phone == Some(p) && p in s.open
    requires RoomAt(s.rooms, s.sessions[ws].roomId).viewer == Some(v) && v in s.open
    ensures var r := InferFrame(s, ws, frameId, captureTs, recvTs, inf);
      && |r.outbox| == |s.outbox| + 2
      && r.outbox[..|s.outbox|] == s.outbox
      && r.outbox[|s.outbox|].to == p && r.outbox[|s.outbox| + 1].to == v
      && r.outbox[|s.outbox|].msg == r.outbox[|s.outbox| + 1].msg
    ensures var m := InferFrame(s, ws, frameId, captureTs, recvTs, inf).outbox[|s.outbox|].msg;
      && m.InferResult? && m.frameId == frameId && m.captureTs == captureTs && m.recvTs == recvTs
      && m.inferenceTs == inf.done && m.detections == Detections(inf.outcome)
    ensures var r := InferFrame(s, ws, frameId, captureTs, recvTs, inf);
      && |r.log| == |s.log| + 1
  {
  }

  /** An unjoined connection's inference result goes back to the sender alone. */
  lemma InferUnjoined(s: State, ws: ConnId, frameId: Value, captureTs: Option<int>, recvTs: Option<int>,
                      inf: Inference)
    requires ws in s.sessions && ws in s.open && !Truthy(s.sessions[ws].roomId) && inf.outcome.Detected?
    ensures var r := InferFrame(s, ws, frameId, captureTs, recvTs, inf);
      && r.outbox == s.outbox + [Outgoing(ws, InferResult(frameId, captureTs, recvTs, inf.done, Detections(inf.outcome)))]
      && r.rooms == s.rooms && |r.log| == |s.log| + 1
  {
  }

  /** A failed inference answers the sender with the error and logs nothing. */
  lemma InferFailed(s: State, ws: ConnId, frameId: Value, captureTs: Option<int>, recvTs: Option<int>,
                    inf: Inference)
    requires ws in s.sessions && ws in s.open && inf.outcome.Failed?
    ensures var r := InferFrame(s, ws, frameId, captureTs, recvTs, inf);
      && r.outbox == s.outbox + [Outgoing(ws, InferError(inf.outcome.error))]
      && r.log == s.log && r.rooms == s.rooms
  {
  }

  /** Closing never clears a slot that another connection holds. */
  lemma CloseNeverClobbers(s: State, ws: ConnId, k: Field, q: string, d: ConnId)
    requires ws in s.sessions && k in s.rooms
    requires Slot(s.rooms[k], q) == Some(d) && d != ws
    ensures Slot(Close(s, ws).rooms[k], q) == Some(d)
  {
  }

  /** Closing a connection that never joined, or whose room is gone, changes no room. */
  lemma CloseUnjoined(s: State, ws: ConnId)
    requires ws in s.sessions
    requires !Truthy(s.sessions[ws].roomId) || s.sessions[ws].roomId !in s.rooms
    ensures Close(s, ws) == s.(open := s.open - {ws})
  {
  }

  // ---------------------------------------------------------------------------
  // The invariant every transition keeps
  // ---------------------------------------------------------------------------

  /**
   * Open connections are known; a joined connection's room exists; every
   * slot holds a known connection; no closed connection whose latest join
   * named a truthy role and room id still holds that slot; and every logged
   * sample has its `received_at`.
   */
  ghost predicate Inv(s: State) {
    && (forall c :: c in s.open ==> c in s.sessions)
    && (forall c :: c in s.sessions && Truthy(s.sessions[c].roomId) ==> s.sessions[c].roomId in s.rooms)
    && (forall k, q :: k in s.rooms && Slot(s.rooms[k], q).Some? ==> Slot(s.rooms[k], q).value in s.sessions)
    && (forall c :: c in s.sessions && c !in s.open ==> !Vacates(s, c))
    && Metrics.LogStamped(s.log)
  }

  lemma InitialInv()
    ensures Inv(Initial)
  {
  }

  lemma ConnectInv(s: State, ws: ConnId)
    requires Inv(s) && ws !in s.sessions
    ensures Inv(Connect(s, ws))
  {
    var r := Connect(s, ws);
    forall c | c in r.sessions && c !in r.open ensures !Vacates(r, c) {
      assert c != ws && c in s.sessions && c !in s.open;
      assert !Vacates(s, c);
    }
  }

  lemma JoinInv(s: State, ws: ConnId, role: Field, roomId: Field)
    requires Inv(s) && ws in s.sessions && ws in s.open
    ensures Inv(Join(s, ws, role, roomId))
  {
    var r := Join(s, ws, role, roomId);
    forall k, q | k in r.rooms && Slot(r.rooms[k], q).Some? ensures Slot(r.rooms[k], q).value in r.sessions {
      if k == roomId && q != PropKey(role) {
        assert Slot(r.rooms[k], q) == Slot(RoomAt(s.rooms, roomId), q);
      }
    }
    forall c | c in r.sessions && c !in r.open ensures !Vacates(r, c) {
      assert c != ws && r.sessions[c] == s.sessions[c];
      assert !Vacates(s, c);
      var sess := s.sessions[c];
      if Truthy(sess.roomId) && Truthy(sess.role) && sess.roomId == roomId && PropKey(sess.role) != PropKey(role) {
        assert Slot(r.rooms[roomId], PropKey(sess.role)) == Slot(s.rooms[roomId], PropKey(sess.role));
      }
    }
  }

  lemma SignalInv(s: State, ws: ConnId, data: Value, target: Field)
    requires Inv(s) && ws in s.sessions
    ensures Inv(Signal(s, ws, data, target))
  {
  }

  lemma InferFrameInv(s: State, ws: ConnId, frameId: Value, captureTs: Option<int>, recvTs: Option<int>,
                      inf: Inference)
    requires Inv(s) && ws in s.sessions
    ensures Inv(InferFrame(s, ws, frameId, captureTs, recvTs, inf))
  {
    var r := InferFrame(s, ws, frameId, captureTs, recvTs, inf);
    if inf.outcome.Detected? {
      var m := Metrics.InferenceSample(inf.start, inf.done, inf.recorded, captureTs, recvTs);
      assert Metrics.LogStamped([m]);
      Metrics.LogStampedAppend(s.log, [m]);
    }
    forall c | c in r.sessions && c !in r.open ensures !Vacates(r, c) {
      assert !Vacates(s, c);
    }
  }

  lemma DispatchInv(s: State, ws: ConnId, m: ClientMsg, inf: Inference)
    requires Inv(s) && ws in s.sessions && ws in s.open
    ensures Inv(Dispatch(s, ws, m, inf))
  {
    match m
    case Join(role, roomId) => JoinInv(s, ws, role, roomId);
    case Signal(_, data, target) => SignalInv(s, ws, data, target);
    case InferFrame(frameId, captureTs, recvTs, _, _) => InferFrameInv(s, ws, frameId, captureTs, recvTs, inf);
    case Other(_) =>
  }

  lemma CloseInv(s: State, ws: ConnId)
    requires Inv(s) && ws in s.sessions
    ensures Inv(Close(s, ws))
  {
    var r := Close(s, ws);
    forall c | c in r.sessions && c !in r.open ensures !Vacates(r, c) {
      if c != ws {
        assert !Vacates(s, c);
      }
    }
  }

  lemma PostMetricsInv(s: State, body: Value, now: int)
    requires Inv(s)
    ensures Inv(PostMetrics(s, body, now))
  {
    var r := PostMetrics(s, body, now);
    if PostedSamples(body).Some? {
      Metrics.LogStampedAppend(s.log, Metrics.Stamped(PostedSamples(body).value, now));
    }
    forall c | c in r.sessions && c !in r.open ensures !Vacates(r, c) {
      assert !Vacates(s, c);
    }
  }

  // ---------------------------------------------------------------------------
  // Scenarios
  // ---------------------------------------------------------------------------

  /**
   * A viewer joins, then a phone joins the same room, then the phone sends
   * its offer: the viewer is told of the phone and receives the offer.
   */
  lemma PairingScenario(v: ConnId, p: ConnId, room: string, offer: Value)
    requires v != p && room != ""
    ensures var s1 := Connect(Connect(Initial, v), p);
      var s2 := Join(s1, v, Text("viewer"), Text(room));
      var s3 := Join(s2, p, Text("phone"), Text(room));
      Signal(s3, p, offer, Text("viewer")).outbox == [
        Outgoing(v, Joined(Text("viewer"), Text(room))),
        Outgoing(v, PhoneJoined),
        Outgoing(p, Joined(Text("phone"), Text(room))),
        Outgoing(v, SignalOut(offer))]
  {
    var s1 := Connect(Connect(Initial, v), p);
    JoinAlone(s1, v, Text("viewer"), Text(room));
    var s2 := Join(s1, v, Text("viewer"), Text(room));
    JoinPhoneWithViewer(s2, p, Text(room), v);
    var s3 := Join(s2, p, Text("phone"), Text(room));
    assert Slot(s3.rooms[Text(room)], "viewer") == Some(v);
    SignalDelivered(s3, p, offer, Text("viewer"), v);
  }

  /**
   * A connection that joins one room as viewer and then another as phone
   * vacates only the phone slot when it closes: close clean-up uses the
   * latest join, and the first room's viewer slot keeps the closed connection.
   */
  lemma RejoinLeavesStaleSlot(c: ConnId, first: string, second: string)
    requires first != "" && second != "" && first != second
    ensures var s1 := Join(Connect(Initial, c), c, Text("viewer"), Text(first));
      var s2 := Close(Join(s1, c, Text("phone"), Text(second)), c);
      && Slot(s2.rooms[Text(first)], "viewer") == Some(c)
      && Slot(s2.rooms[Text(second)], "phone") == None
      && c !in s2.open
  {
    var s1 := Join(Connect(Initial, c), c, Text("viewer"), Text(first));
    var s2 := Join(s1, c, Text("phone"), Text(second));
    assert Slot(s2.rooms[Text(first)], "viewer") == Some(c);
    assert Vacates(s2, c);
  }

  /**
   * A join with a `null` room id still takes a slot, in the room stored
   * under `null`, but the close skips its clean-up because the room id is
   * falsy: the closed connection keeps the slot, and the invariant holds.
   */
  lemma NullRoomSlotStays(c: ConnId)
    ensures var s1 := Join(Connect(Initial, c), c, Text("viewer"), Nil);
      var s2 := Close(s1, c);
      && Slot(s2.rooms[Nil], "viewer") == Some(c) && c !in s2.open && Inv(s2)
  {
    InitialInv();
    ConnectInv(Initial, c);
    var s0 := Connect(Initial, c);
    JoinInv(s0, c, Text("viewer"), Nil);
    CloseInv(Join(s0, c, Text("viewer"), Nil), c);
  }

  /**
   * A join with the empty role takes the slot named "", and the close skips
   * its clean-up because the role is falsy: the closed connection keeps it.
   */
  lemma EmptyRoleSlotStays(c: ConnId, room: string)
    requires room != ""
    ensures var s1 := Join(Connect(Initial, c), c, Text(""), Text(room));
      var s2 := Close(s1, c);
      && Slot(s2.rooms[Text(room)], "") == Some(c) && c !in s2.open && Inv(s2)
  {
    InitialInv();
    ConnectInv(Initial, c);
    var s0 := Connect(Initial, c);
    JoinInv(s0, c, Text(""), Text(room));
    CloseInv(Join(s0, c, Text(""), Text(room)), c);
  }
}
