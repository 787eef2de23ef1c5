/**
 * The messages of the signalling WebSocket and the detection records the
 * server's inference path produces.
 *
 * A message arrives as JSON; only the fields each handler reads are kept.
 * A string-valued field the handler reads without checking its type is a
 * `Field`: missing, JSON `null`, or a string.
 */
module Protocol {
  import opened Json

  /** The identity of one WebSocket connection (object identity in the server). */
  type ConnId = nat

  datatype Field = Missing | Nil | Text(s: string)

  /** JavaScript truthiness of a `Field`: a non-empty string. */
  predicate Truthy(f: Field) {
    f.Text? && f.s != ""
  }

  /**
   * The property name `room[f]` uses: `undefined` and `null` are converted
   * to the strings "undefined" and "null".
   */
  function PropKey(f: Field): (k: string)
    ensures f.Text? ==> k == f.s
  {
    match f
    case Missing => "undefined"
    case Nil => "null"
    case Text(s) => s
  }

  /** The role names the handlers compare against. */
  lemma PropKeyOfRoles(f: Field)
    ensures PropKey(f) == "viewer" <==> f == Text("viewer")
    ensures PropKey(f) == "phone" <==> f == Text("phone")
    ensures PropKey(f) == "infer" <==> f == Text("infer")
  {
  }

  /** What a client sends; `Other` is any other `type`, which the server ignores. */
  datatype ClientMsg =
    | Join(role: Field, roomId: Field)
    | Signal(roomId: Field, data: Value, target: Field)
    | InferFrame(frameId: Value, captureTs: Option<int>, recvTs: Option<int>, mime: string, image: string)
    | Other(kind: string)

  /** One normalised detection: corner coordinates as fractions of the image size. */
  datatype Detection = Detection(category: string, score: real, xmin: real, ymin: real, xmax: real, ymax: real)

  /** What the server sends. */
  datatype ServerMsg =
    | Joined(role: Field, roomId: Field)
    | Ready
    | PhoneJoined
    | SignalOut(data: Value)
    | InferResult(frameId: Value, captureTs: Option<int>, recvTs: Option<int>, inferenceTs: int,
                  detections: seq<Detection>)
    | InferError(error: string)

  /** A raw prediction of the detector: class (category), score and a pixel box `[x, y, w, h]`. */
  datatype Prediction = Prediction(category: string, score: real, x: real, y: real, w: real, h: real)

  function Max(a: real, b: real): real { if a >= b then a else b }

  function Min(a: real, b: real): real { if a <= b then a else b }

  /**
   * One element of the normalisation map: the top-left corner is clamped
   * from below at 0 and the bottom-right corner from above at 1; neither is
   * clamped on its other side.
   */
  function Normalize(p: Prediction, width: real, height: real): (d: Detection)
    requires width > 0.0 && height > 0.0
    ensures d.category == p.category && d.score == p.score
    ensures 0.0 <= d.xmin && p.x / width <= d.xmin && (d.xmin == 0.0 || d.xmin == p.x / width)
    ensures 0.0 <= d.ymin && p.y / height <= d.ymin && (d.ymin == 0.0 || d.ymin == p.y / height)
    ensures d.xmax <= 1.0 && d.xmax <= (p.x + p.w) / width
    ensures d.xmax == 1.0 || d.xmax == (p.x + p.w) / width
    ensures d.ymax <= 1.0 && d.ymax <= (p.y + p.h) / height
    ensures d.ymax == 1.0 || d.ymax == (p.y + p.h) / height
  {
    Detection(p.category, p.score,
      Max(0.0, p.x / width), Max(0.0, p.y / height),
      Min(1.0, (p.x + p.w) / width), Min(1.0, (p.y + p.h) / height))
  }

  /** `predictions.map(...)`: one detection per prediction, in order. */
  function NormalizeAll(ps: seq<Prediction>, width: real, height: real): (ds: seq<Detection>)
    requires width > 0.0 && height > 0.0
    ensures |ds| == |ps|
    ensures forall i :: 0 <= i < |ps| ==> ds[i] == Normalize(ps[i], width, height)
  {
    if ps == [] then [] else [Normalize(ps[0], width, height)] + NormalizeAll(ps[1..], width, height)
  }

  lemma DivMonotone(a: real, b: real, c: real)
    requires c > 0.0 && a <= b
    ensures a / c <= b / c
  {
    assert (b - a) / c >= 0.0;
    assert b / c - a / c == (b - a) / c;
  }

  /** A box that lies inside the image keeps its exact fractions, which are ordered. */
  lemma NormalizeInside(p: Prediction, width: real, height: real)
    requires width > 0.0 && height > 0.0
    requires 0.0 <= p.x && 0.0 <= p.w && p.x + p.w <= width
    requires 0.0 <= p.y && 0.0 <= p.h && p.y + p.h <= height
    ensures var d := Normalize(p, width, height);
      && d.xmin == p.x / width && d.xmax == (p.x + p.w) / width
      && d.ymin == p.y / height && d.ymax == (p.y + p.h) / height
      && 0.0 <= d.xmin <= d.xmax <= 1.0 && 0.0 <= d.ymin <= d.ymax <= 1.0
  {
    DivMonotone(0.0, p.x, width);
    DivMonotone(p.x, p.x + p.w, width);
    DivMonotone(p.x + p.w, width, width);
    DivMonotone(0.0, p.y, height);
    DivMonotone(p.y, p.y + p.h, height);
    DivMonotone(p.y + p.h, height, height);
  }

  /**
   * The corners are not ordered in general: a box starting beyond the right
   * edge keeps its left edge unclamped while its right edge is cut to 1.
   */
  lemma NormalizeMayInvert()
    ensures var d := Normalize(Prediction("person", 0.9, 20.0, 0.0, 5.0, 1.0), 10.0, 10.0);
      d.xmin == 2.0 && d.xmax == 1.0 && d.xmin > d.xmax
  {
  }
}
