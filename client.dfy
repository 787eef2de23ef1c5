/**
 * The browser page's signalling client: how it reacts to each server
 * message, the default target of its signals, the metrics batch it
 * POSTs every ten samples, and the one-frame-in-flight gate of the phone's
 * server-mode frame loop.
 *
 * The pure functions state each rule; the `Page` class performs them on
 * the page's global state the way the script does.
 */
module Client {
  import opened Json
  import opened Protocol
  import Relay
  import Metrics

  /** Samples are POSTed once this many have accumulated. */
  const BatchSize := 10

  // ---------------------------------------------------------------------------
  // Message dispatch and signal targets
  // ---------------------------------------------------------------------------

  /** What the page does with one server message. */
  datatype Reaction = Ignore | Negotiate | ApplySignal(data: Value) | AcceptResult(result: ServerMsg)

  /** `ws.onmessage`, by message type, for the page's role. */
  function Route(m: ServerMsg, role: string): (r: Reaction)
    ensures r == Negotiate <==> (m.Ready? || m.PhoneJoined?) && role == "viewer"
    ensures r.ApplySignal? <==> m.SignalOut?
    ensures r.ApplySignal? ==> r.data == m.data
    ensures r.AcceptResult? <==> m.InferResult?
    ensures r.AcceptResult? ==> r.result == m
    ensures m.Joined? || m.InferError? ==> r == Ignore
  {
    match m
    case Joined(_, _) => Ignore
    case Ready => if role == "viewer" then Negotiate else Ignore
    case PhoneJoined => if role == "viewer" then Negotiate else Ignore
    case SignalOut(data) => ApplySignal(data)
    case InferResult(_, _, _, _, _) => AcceptResult(m)
    case InferError(_) => Ignore
  }

  /** The default `target` of `sendSignal`: the other party of a viewer–phone pair. */
  function DefaultTarget(role: string): (t: string)
    ensures t == "phone" || t == "viewer"
    ensures t == "phone" <==> role == "viewer"
  {
    if role == "viewer" then "phone" else "viewer"
  }

  /** A viewer's signal with the default target reaches the room's open phone. */
  lemma ViewerSignalReachesPhone(s: Relay.State, ws: ConnId, data: Value, p: ConnId)
    requires ws in s.sessions && Truthy(s.sessions[ws].roomId)
    requires Relay.RoomAt(s.rooms, s.sessions[ws].roomId).phone == Some(p) && p in s.open
    ensures Relay.Signal(s, ws, data, Text(DefaultTarget("viewer"))).outbox
         == s.outbox + [Relay.Outgoing(p, SignalOut(data))]
  {
    Relay.SignalDelivered(s, ws, data, Text(DefaultTarget("viewer")), p);
  }

  /** A phone's signal with the default target reaches the room's open viewer. */
  lemma PhoneSignalReachesViewer(s: Relay.State, ws: ConnId, data: Value, v: ConnId)
    requires ws in s.sessions && Truthy(s.sessions[ws].roomId)
    requires Relay.RoomAt(s.rooms, s.sessions[ws].roomId).viewer == Some(v) && v in s.open
    ensures Relay.Signal(s, ws, data, Text(DefaultTarget("phone"))).outbox
         == s.outbox + [Relay.Outgoing(v, SignalOut(data))]
  {
    Relay.SignalDelivered(s, ws, data, Text(DefaultTarget("phone")), v);
  }

  // ---------------------------------------------------------------------------
  // The metrics batch
  // ---------------------------------------------------------------------------

  /** `{ ...sample, t: now }` */
  function Stamp(sample: Props, now: int): (r: Props)
    ensures Get(r, "t") == Some(Num(now))
    ensures forall k :: k != "t" ==> Get(r, k) == Get(sample, k)
    ensures "t" !in KeysOf(sample) ==> r == sample + [("t", Num(now))]
  {
    With(sample, "t", Num(now))
  }

  /** The page's buffer and the batches it has POSTed so far. */
  datatype Batcher = Batcher(buffer: seq<Props>, posted: seq<seq<Props>>)

  /** `postMetricsSample(sample)` at time `now`. */
  function Push(b: Batcher, sample: Props, now: int): Batcher {
    var buf := b.buffer + [Stamp(sample, now)];
    if |buf| >= BatchSize then Batcher([], b.posted + [buf]) else Batcher(buf, b.posted)
  }

  /** One call per sample, each with its own clock reading. */
  function Feed(b: Batcher, items: seq<(Props, int)>): Batcher
    decreases |items|
  {
    if items == [] then b else Feed(Push(b, items[0].0, items[0].1), items[1..])
  }

  function Flatten(batches: seq<seq<Props>>): seq<Props> {
    if batches == [] then [] else batches[0] + Flatten(batches[1..])
  }

  /** The stamped samples of a run of calls. */
  function Stamps(items: seq<(Props, int)>): (r: seq<Props>)
  {
    if items == [] then [] else [Stamp(items[0].0, items[0].1)] + Stamps(items[1..])
  }

  lemma {:induction false} FlattenSnoc(batches: seq<seq<Props>>, last: seq<Props>)
    ensures Flatten(batches + [last]) == Flatten(batches) + last
  {
    if batches != [] {
      assert (batches + [last])[1..] == batches[1..] + [last];
      FlattenSnoc(batches[1..], last);
    } else {
      assert [] + [last] == [last];
    }
  }

  /** Every POSTed batch is full and the buffer is never left holding a full batch. */
  ghost predicate BatcherValid(b: Batcher) {
    && |b.buffer| < BatchSize
    && forall i :: 0 <= i < |b.posted| ==> |b.posted[i]| == BatchSize
  }

  /**
   * One call adds the stamped sample after everything buffered or posted;
   * a batch is POSTed exactly when it reaches ten samples.
   */
  lemma PushKeeps(b: Batcher, sample: Props, now: int)
    requires BatcherValid(b)
    ensures var r := Push(b, sample, now);
      && BatcherValid(r)
      && |b.posted| <= |r.posted| && r.posted[..|b.posted|] == b.posted
      && (|r.posted| == |b.posted| + 1 <==> |b.buffer| == BatchSize - 1)
  {
    var r := Push(b, sample, now);
    assert r.posted[..|b.posted|] == b.posted;
  }

  /** One call adds its stamped sample after everything buffered or posted. */
  lemma PushConserves(b: Batcher, sample: Props, now: int)
    ensures var r := Push(b, sample, now);
      Flatten(r.posted) + r.buffer == Flatten(b.posted) + b.buffer + [Stamp(sample, now)]
  {
    var buf := b.buffer + [Stamp(sample, now)];
    if |buf| >= BatchSize {
      FlattenSnoc(b.posted, buf);
    }
  }

  /** Any run of calls from a valid state keeps it valid and only adds batches. */
  lemma {:induction false} FeedKeeps(b: Batcher, items: seq<(Props, int)>)
    requires BatcherValid(b)
    ensures var r := Feed(b, items);
      && BatcherValid(r)
      && |b.posted| <= |r.posted| && r.posted[..|b.posted|] == b.posted
    decreases |items|
  {
    if items != [] {
      var b' := Push(b, items[0].0, items[0].1);
      PushKeeps(b, items[0].0, items[0].1);
      FeedKeeps(b', items[1..]);
      var r := Feed(b', items[1..]);
      assert r.posted[..|b.posted|] == r.posted[..|b'.posted|][..|b.posted|];
    }
  }

  /**
   * The samples of any run of calls, stamped and in call order, are exactly
   * the POSTed batches followed by the buffer: nothing is lost, duplicated
   * or reordered.
   */
  lemma {:induction false} FeedConserves(b: Batcher, items: seq<(Props, int)>)
    ensures var r := Feed(b, items);
      Flatten(r.posted) + r.buffer == Flatten(b.posted) + b.buffer + Stamps(items)
    decreases |items|
  {
    if items != [] {
      var b' := Push(b, items[0].0, items[0].1);
      PushConserves(b, items[0].0, items[0].1);
      FeedConserves(b', items[1..]);
      StampsCons(items);
      Regroup(Flatten(b.posted) + b.buffer, Stamp(items[0].0, items[0].1), Stamps(items[1..]));
    } else {
      assert Stamps(items) == [];
    }
  }

  lemma StampsCons(items: seq<(Props, int)>)
    requires items != []
    ensures Stamps(items) == [Stamp(items[0].0, items[0].1)] + Stamps(items[1..])
  {
  }

  lemma Regroup(p: seq<Props>, h: Props, t: seq<Props>)
    ensures (p + [h]) + t == p + ([h] + t)
  {
  }

  /** The POST body `{ samples: batch }`. */
  function BatchBody(batch: seq<Props>): Value {
    Obj([("samples", Arr(ObjectsOf(batch)))])
  }

  function ObjectsOf(ps: seq<Props>): (vs: seq<Value>)
    ensures |vs| == |ps|
    ensures forall i :: 0 <= i < |ps| ==> vs[i] == Obj(ps[i])
  {
    if ps == [] then [] else [Obj(ps[0])] + ObjectsOf(ps[1..])
  }

  /**
   * A batch the page POSTs is appended to the server's log in order, each
   * sample keeping every field except `received_at`, which becomes the
   * server's clock reading.
   */
  lemma BatchReachesServer(s: Relay.State, batch: seq<Props>, now: int)
    ensures var r := Relay.PostMetrics(s, BatchBody(batch), now);
      && |r.log| == |s.log| + |batch|
      && r.log[..|s.log|] == s.log
      && r.lastMetricsAt == now
      && (forall j :: |s.log| <= j < |r.log| ==> Get(r.log[j], "received_at") == Some(Num(now)))
      && (forall j, k :: |s.log| <= j < |r.log| && k != "received_at" ==> Get(r.log[j], k) == Get(batch[j - |s.log|], k))
  {
    var body := BatchBody(batch);
    assert Get(body.fields, "samples") == Some(Arr(ObjectsOf(batch)));
    var r := Relay.PostMetrics(s, body, now);
    var st := Metrics.Stamped(ObjectsOf(batch), now);
    assert r.log == s.log + st;
    forall j | |s.log| <= j < |r.log| ensures r.log[j] == st[j - |s.log|] {
    }
  }

  // ---------------------------------------------------------------------------
  // The backpressure gate
  // ---------------------------------------------------------------------------

  /** What the phone's frame loop can observe between two ticks. */
  datatype GateEvent =
    | TickEvent(socketOpen: bool, videoReady: bool)
    | ResultEvent
    | ErrorEvent

  datatype GateStep = GateStep(busy: bool, sent: bool)

  /** The `busy` flag after one event in the phone role, and whether a frame went out. */
  function Gate(busy: bool, e: GateEvent): (r: GateStep)
    ensures r.sent <==> e.TickEvent? && e.socketOpen && e.videoReady && !busy
    ensures r.sent ==> r.busy
    ensures e.ResultEvent? ==> !r.busy
    ensures e.ErrorEvent? ==> r.busy == busy
    ensures e.TickEvent? && !r.sent ==> r.busy == busy
  {
    match e
    case TickEvent(socketOpen, videoReady) =>
      if socketOpen && videoReady && !busy then GateStep(true, true) else GateStep(busy, false)
    case ResultEvent => GateStep(false, false)
    case ErrorEvent => GateStep(busy, false)
  }

  function BusyAfter(busy: bool, evs: seq<GateEvent>): bool
    decreases |evs|
  {
    if evs == [] then busy else BusyAfter(Gate(busy, evs[0]).busy, evs[1..])
  }

  /** The frames a run of events sends. */
  function FramesSent(busy: bool, evs: seq<GateEvent>): nat
    decreases |evs|
  {
    if evs == [] then 0
    else (if Gate(busy, evs[0]).sent then 1 else 0) + FramesSent(Gate(busy, evs[0]).busy, evs[1..])
  }

  function ResultCount(evs: seq<GateEvent>): nat {
    if evs == [] then 0 else (if evs[0].ResultEvent? then 1 else 0) + ResultCount(evs[1..])
  }

  /**
   * At most one frame is unacknowledged at a time: a run sends no more
   * frames than it receives results, plus one if the gate was free.
   */
  lemma {:induction false} AtMostOneInFlight(busy: bool, evs: seq<GateEvent>)
    ensures FramesSent(busy, evs) <= ResultCount(evs) + (if busy then 0 else 1)
    decreases |evs|
  {
    if evs != [] {
      AtMostOneInFlight(Gate(busy, evs[0]).busy, evs[1..]);
    }
  }

  /** After an `infer_error` and no result, the gate stays closed and no frame is sent. */
  lemma {:induction false} ErrorKeepsGateClosed(evs: seq<GateEvent>)
    requires forall i :: 0 <= i < |evs| ==> !evs[i].ResultEvent?
    ensures FramesSent(true, evs) == 0 && BusyAfter(true, evs)
    decreases |evs|
  {
    if evs != [] {
      ErrorKeepsGateClosed(evs[1..]);
    }
  }

  // ---------------------------------------------------------------------------
  // The page
  // ---------------------------------------------------------------------------

  /** The signalling socket's lifecycle as the page sees it. */
  datatype Socket = NoSocket | Connecting | Open | Closed

  /** Work the page hands to the negotiation code, which is not part of this model. */
  datatype Effect = StartNegotiation | HandleSignal(data: Value)

  /**
   * The page's buffer and POST log after `postMetricsSample(sample)` at
   * time `now`: the batcher's step, with a full batch sent as its body.
   */
  ghost predicate Recorded(samples: seq<Props>, posts: seq<Value>, sample: Props, now: int,
                           samples': seq<Props>, posts': seq<Value>)
  {
    var r := Push(Batcher(samples, []), sample, now);
    && samples' == r.buffer
    && posts' == posts + (if r.posted == [] then [] else [BatchBody(r.posted[0])])
  }

  /**
   * A viewer's sample for one result: `e2e_ms` is the clock minus the
   * capture time, or 0 when the capture time is absent or 0.
   */
  function E2eSample(m: ServerMsg, now: int): Props
    requires m.InferResult?
  {
    [("e2e_ms", Num(now - OrElse(m.captureTs, now)))]
  }

  class Page {
    var role: string
    var mode: string
    var roomId: Field
    var socket: Socket
    /** `state.backpressure.busy` */
    var busy: bool
    /** Whether `serverSendFrameLoop` got past its guard and is ticking. */
    var frameLoop: bool
    /** `state.metrics.samples` */
    var samples: seq<Props>
    /** Every POST body sent to `/api/metrics`, in order. */
    var posts: seq<Value>
    /** Every message handed to `ws.send`, in order. */
    var wire: seq<ClientMsg>
    var effects: seq<Effect>

    ghost predicate Valid()
      reads this
    {
      |samples| < BatchSize
    }

    constructor (role: string, mode: string, roomId: Field)
      ensures this.role == role && this.mode == mode && this.roomId == roomId
      ensures socket == NoSocket && !busy && !frameLoop
      ensures samples == [] && posts == [] && wire == [] && effects == []
      ensures Valid()
    {
      this.role := role;
      this.mode := mode;
      this.roomId := roomId;
      socket := NoSocket;
      busy := false;
      frameLoop := false;
      samples := [];
      posts := [];
      wire := [];
      effects := [];
    }

    /** `connectSignaling()`: a new socket, not yet open. */
    method ConnectSignaling()
      modifies this`socket
      ensures socket == Connecting
    {
      socket := Connecting;
    }

    /** `ws.onopen`: join the room under the page's role. */
    method OnOpen()
      requires socket == Connecting
      modifies this`socket, this`wire
      ensures socket == Open && wire == old(wire) + [Join(Text(role), roomId)]
    {
      socket := Open;
      wire := wire + [Join(Text(role), roomId)];
    }

    method OnSocketClosed()
      modifies this`socket
      ensures socket == Closed
    {
      socket := Closed;
    }

    /**
     * `sendSignal(data, target)`; `target` None takes the default. Sending on
     * a socket still connecting throws, which `thrown` reports; a closed
     * socket discards the message.
     */
    method SendSignal(data: Value, target: Option<string>) returns (thrown: bool)
      modifies this`wire
      ensures thrown <==> socket == Connecting
      ensures var t := if target.Some? then target.value else DefaultTarget(role);
        wire == if socket == Open then old(wire) + [Signal(roomId, data, Text(t))] else old(wire)
    {
      thrown := false;
      if socket == NoSocket {
        return;
      }
      var t := if target.Some? then target.value else DefaultTarget(role);
      if socket == Connecting {
        thrown := true;
      } else if socket == Open {
        wire := wire + [Signal(roomId, data, Text(t))];
      }
    }

    /** `postMetricsSample(sample)` at time `now`. */
    method PostMetricsSample(sample: Props, now: int)
      requires Valid()
      modifies this`samples, this`posts
      ensures Valid()
      ensures Recorded(old(samples), old(posts), sample, now, samples, posts)
    {
      samples := samples + [Stamp(sample, now)];
      if |samples| >= BatchSize {
        var batch := samples;
        samples := [];
        posts := posts + [BatchBody(batch)];
      }
    }

    /** `serverSendFrameLoop()`: only a phone in server mode starts ticking. */
    method StartFrameLoop()
      modifies this`frameLoop
      ensures frameLoop == (old(frameLoop) || (role == "phone" && mode == "server"))
    {
      if role == "phone" && mode == "server" {
        frameLoop := true;
      }
    }

    /**
     * One `tick` at time `now`: a frame goes out only on an open socket with
     * the video ready and the gate free, and closes the gate first.
     */
    method Tick(videoReady: bool, frameId: string, image: string, now: int)
      requires frameLoop
      modifies this`busy, this`wire
      ensures var g := Gate(old(busy), TickEvent(socket == Open, videoReady));
        && busy == g.busy
        && wire == if g.sent then old(wire) + [InferFrame(Str(frameId), Some(now), Some(now), "image/jpeg", image)]
                   else old(wire)
    {
      if socket != Open {
        return;
      }
      if videoReady && !busy {
        busy := true;
        wire := wire + [InferFrame(Str(frameId), Some(now), Some(now), "image/jpeg", image)];
      }
    }

    /**
     * `handleInferResult(msg)`: a viewer records the end-to-end latency,
     * measured at clock reading `now`, in a sample that `postMetricsSample`
     * stamps with its own later reading `stampedAt`; a phone reopens the gate.
     */
    method HandleInferResult(m: ServerMsg, now: int, stampedAt: int)
      requires Valid() && m.InferResult?
      modifies this`busy, this`samples, this`posts
      ensures Valid()
      ensures role == "phone" ==> !busy && samples == old(samples) && posts == old(posts)
      ensures role != "phone" ==> busy == old(busy)
      ensures role == "viewer" ==>
        Recorded(old(samples), old(posts), E2eSample(m, now), stampedAt, samples, posts)
      ensures role != "viewer" && role != "phone" ==> samples == old(samples) && posts == old(posts)
    {
      if role == "viewer" {
        PostMetricsSample(E2eSample(m, now), stampedAt);
      }
      if role == "phone" {
        busy := false;
      }
    }

    /**
     * `ws.onmessage` for one parsed server message; `now` and `stampedAt` are
     * the clock readings `handleInferResult` takes.
     */
    method OnMessage(m: ServerMsg, now: int, stampedAt: int)
      requires Valid()
      modifies this`busy, this`samples, this`posts, this`effects
      ensures Valid()
      ensures Route(m, role) == Negotiate ==> effects == old(effects) + [StartNegotiation]
      ensures Route(m, role).ApplySignal? ==> effects == old(effects) + [HandleSignal(m.data)]
      ensures !Route(m, role).AcceptResult? ==> busy == old(busy) && samples == old(samples) && posts == old(posts)
      ensures Route(m, role).Ignore? ==> effects == old(effects)
      ensures Route(m, role).AcceptResult? ==> effects == old(effects)
      ensures m.InferResult? && role == "phone" ==> !busy && samples == old(samples) && posts == old(posts)
      ensures m.InferResult? && role != "phone" ==> busy == old(busy)
      ensures m.InferResult? && role == "viewer" ==>
        Recorded(old(samples), old(posts), E2eSample(m, now), stampedAt, samples, posts)
      ensures m.InferResult? && role != "viewer" && role != "phone" ==> samples == old(samples) && posts == old(posts)
      ensures m.InferError? ==> busy == old(busy)
    {
      match Route(m, role)
      case Ignore =>
      case Negotiate =>
        effects := effects + [StartNegotiation];
      case ApplySignal(data) =>
        effects := effects + [HandleSignal(data)];
      case AcceptResult(result) =>
        HandleInferResult(result, now, stampedAt);
    }
  }
}
