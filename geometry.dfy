/** Canvas geometry of the pipeline builder: the pan/zoom transform of the
    canvas group, conversion of pointer positions, where a dropped library
    item lands, and the Bézier curve drawn for a connection. */
module Geometry {
  import opened Wrappers
  import opened PipelineGraph

  datatype Point = Point(x: real, y: real)

  /** The canvas group is drawn with `translate(offset) scale(scale)`. */
  datatype Viewport = Viewport(offset: Point, scale: real)

  /** The canvas element's client rectangle. */
  datatype Rect = Rect(left: real, top: real, right: real, bottom: real)

  /** A cubic Bézier segment `M start C control1, control2, end`. */
  datatype Curve = Curve(start: Point, control1: Point, control2: Point, end: Point)

  /** Output port: right edge, half way down; input port: left edge, same
      height; control points 50 units out horizontally. */
  const PortX: real := 150.0
  const PortY: real := 40.0
  const ControlReach: real := 50.0

  function Add(p: Point, q: Point): Point { Point(p.x + q.x, p.y + q.y) }

  /** Where a canvas point appears on screen. */
  function ToScreen(p: Point, v: Viewport): Point
  {
    Point(v.offset.x + v.scale * p.x, v.offset.y + v.scale * p.y)
  }

  /** The canvas point under a screen point. */
  function ToModel(q: Point, v: Viewport): Point
    requires v.scale != 0.0
  {
    Point((q.x - v.offset.x) / v.scale, (q.y - v.offset.y) / v.scale)
  }

  lemma DivCancels(a: real, s: real)
    requires s != 0.0
    ensures s * (a / s) == a
  {
  }

  /** The two conversions are inverse to each other. */
  lemma ScreenRoundTrip(p: Point, q: Point, v: Viewport)
    requires v.scale != 0.0
    ensures ToModel(ToScreen(p, v), v) == p
    ensures ToScreen(ToModel(q, v), v) == q
  {
    assert (v.offset.x + v.scale * p.x - v.offset.x) / v.scale == p.x;
    assert (v.offset.y + v.scale * p.y - v.offset.y) / v.scale == p.y;
    assert v.scale * ((q.x - v.offset.x) / v.scale) == q.x - v.offset.x;
    assert v.scale * ((q.y - v.offset.y) / v.scale) == q.y - v.offset.y;
  }

  /** `(e.clientX - rect.left) / canvasScale`: the source's pointer conversion,
      which divides by the scale but ignores the pan offset. */
  function PointerToCanvas(client: Point, r: Rect, scale: real): Point
    requires scale != 0.0
  {
    Point((client.x - r.left) / scale, (client.y - r.top) / scale)
  }

  /** Differences of converted pointer positions are exact canvas
      displacements: a drag moves a component by the pointer's movement
      divided by the scale, whatever the pan offset. */
  lemma PointerDeltaIsCanvasDelta(a: Point, b: Point, r: Rect, v: Viewport)
    requires v.scale != 0.0
    ensures
      var local := (p: Point) => Point(p.x - r.left, p.y - r.top);
      PointerToCanvas(b, r, v.scale).x - PointerToCanvas(a, r, v.scale).x ==
        ToModel(local(b), v).x - ToModel(local(a), v).x &&
      PointerToCanvas(b, r, v.scale).y - PointerToCanvas(a, r, v.scale).y ==
        ToModel(local(b), v).y - ToModel(local(a), v).y
  {
    var s := v.scale;
    assert (b.x - r.left) / s - (a.x - r.left) / s == (b.x - a.x) / s;
    assert (b.x - r.left - v.offset.x) / s - (a.x - r.left - v.offset.x) / s == (b.x - a.x) / s;
    assert (b.y - r.top) / s - (a.y - r.top) / s == (b.y - a.y) / s;
    assert (b.y - r.top - v.offset.y) / s - (a.y - r.top - v.offset.y) / s == (b.y - a.y) / s;
  }

  /** The drop guard: the pointer lies strictly inside the canvas. */
  predicate Inside(q: Point, r: Rect)
  {
    r.left < q.x < r.right && r.top < q.y < r.bottom
  }

  /** Where a dropped library item is placed, as written (lines 1439-1440):
      `(point - rect.topLeft) / scale - offset - (75, 30)`. */
  function DropPositionAsWritten(q: Point, r: Rect, v: Viewport): Option<Point>
    requires v.scale != 0.0
  {
    if !Inside(q, r) then None
    else Some(Point((q.x - r.left) / v.scale - v.offset.x - 75.0, (q.y - r.top) / v.scale - v.offset.y - 30.0))
  }

  /** Where a dropped library item should be placed: the canvas point under
      the pointer, less the grab offset (75, 30) into the component. */
  function DropPosition(q: Point, r: Rect, v: Viewport): (p: Option<Point>)
    requires v.scale != 0.0
    ensures p.Some? <==> Inside(q, r)
    ensures p.Some? ==> ToScreen(Add(p.value, Point(75.0, 30.0)), v) == Point(q.x - r.left, q.y - r.top)
  {
    if !Inside(q, r) then None
    else
      var m := ToModel(Point(q.x - r.left, q.y - r.top), v);
      ScreenRoundTrip(m, Point(q.x - r.left, q.y - r.top), v);
      Some(Point(m.x - 75.0, m.y - 30.0))
  }

  /** The two placements agree when the canvas is not zoomed or not panned... */
  lemma DropAgreesWithoutZoomOrPan(q: Point, r: Rect, v: Viewport)
    requires v.scale != 0.0
    requires v.scale == 1.0 || v.offset == Point(0.0, 0.0)
    ensures DropPositionAsWritten(q, r, v) == DropPosition(q, r, v)
  {
  }

  /** ...but at scale 2 with the canvas panned by (100, 0), an item dropped
      300 units right of the canvas' left edge lands with its grab point at
      200 on screen, not under the pointer at 300. */
  lemma DropAsWrittenMissesPointer()
    ensures
      var v := Viewport(Point(100.0, 0.0), 2.0);
      var r := Rect(0.0, 0.0, 1000.0, 1000.0);
      var q := Point(300.0, 50.0);
      var p := DropPositionAsWritten(q, r, v);
      p.Some? && ToScreen(Add(p.value, Point(75.0, 30.0)), v).x == 200.0
  {
  }

  /** The end of the dashed preview curve as written: `mousePosition` keeps
      `PointerToCanvas`, so once the canvas is panned the preview ends away
      from the pointer, displaced by the pan offset. */
  lemma PreviewAsWrittenOffByPan(client: Point, r: Rect, v: Viewport)
    requires v.scale != 0.0
    ensures ToScreen(PointerToCanvas(client, r, v.scale), v) ==
      Point(client.x - r.left + v.offset.x, client.y - r.top + v.offset.y)
  {
    DivCancels(client.x - r.left, v.scale);
    DivCancels(client.y - r.top, v.scale);
  }

  /** The canvas point under the pointer, used for the preview instead. */
  function PointerToModel(client: Point, r: Rect, v: Viewport): (p: Point)
    requires v.scale != 0.0
    ensures ToScreen(p, v) == Point(client.x - r.left, client.y - r.top)
  {
    var m := ToModel(Point(client.x - r.left, client.y - r.top), v);
    ScreenRoundTrip(m, Point(client.x - r.left, client.y - r.top), v);
    m
  }

  // ---------------------------------------------------------------------
  // Connection curves (lines 283-298, 353-367)

  /** An S-shaped curve from `start` to `end`: leaves `start` heading right,
      enters `end` heading right. */
  function CurveBetween(start: Point, end: Point): Curve
  {
    Curve(start, Point(start.x + ControlReach, start.y), Point(end.x - ControlReach, end.y), end)
  }

  function OutputPort(c: Component): Point { Point(c.x + PortX, c.y + PortY) }

  function InputPort(c: Component): Point { Point(c.x, c.y + PortY) }

  /** The curve between two components. */
  function ConnectionCurve(from: Component, to: Component): (k: Curve)
    ensures k.start == OutputPort(from) && k.end == InputPort(to)
    ensures k.control1.y == k.start.y && k.control1.x == k.start.x + ControlReach
    ensures k.control2.y == k.end.y && k.control2.x == k.end.x - ControlReach
  {
    CurveBetween(OutputPort(from), InputPort(to))
  }

  /** Moving both components by the same amount moves the whole curve by it. */
  lemma CurveTranslates(from: Component, to: Component, dx: real, dy: real)
    ensures
      var k := ConnectionCurve(from, to);
      var k' := ConnectionCurve(from.(x := from.x + dx, y := from.y + dy), to.(x := to.x + dx, y := to.y + dy));
      var d := Point(dx, dy);
      k' == Curve(Add(k.start, d), Add(k.control1, d), Add(k.control2, d), Add(k.end, d))
  {
  }

  /** Position `i` holds the first component with id `id`. */
  predicate FirstWithId(cs: seq<Component>, id: Id, i: int)
  {
    0 <= i < |cs| && cs[i].id == id && forall j :: 0 <= j < i ==> cs[j].id != id
  }

  /** `components.find(c => c.id === id)`: the first component with that id. */
  function Find(cs: seq<Component>, id: Id): (r: Option<Component>)
    ensures r.None? <==> !HasId(cs, id)
    ensures r.Some? ==> exists i :: FirstWithId(cs, id, i) && cs[i] == r.value
  {
    if cs == [] then None
    else if cs[0].id == id then Some(cs[0])
    else
      var r := Find(cs[1..], id);
      assert forall i :: 0 <= i < |cs| - 1 ==> cs[1..][i] == cs[i + 1];
      assert HasId(cs, id) ==> HasId(cs[1..], id) by {
        if HasId(cs, id) {
          var i :| 0 <= i < |cs| && cs[i].id == id;
          assert cs[1..][i - 1].id == id;
        }
      }
      if r.Some? then
        assert exists i :: FirstWithId(cs, id, i) && cs[i] == r.value by {
          var i :| FirstWithId(cs[1..], id, i) && cs[1..][i] == r.value;
          assert cs[i + 1] == r.value;
          forall j | 0 <= j < i + 1 ensures cs[j].id != id {
            if j > 0 { assert cs[j] == cs[1..][j - 1]; }
          }
          assert FirstWithId(cs, id, i + 1);
        }
        r
      else r
  }

  /** `renderConnection`: nothing when either end is missing, otherwise the
      curve between the first components with those ids. */
  function RenderConnection(cs: seq<Component>, e: Connection): (k: Option<Curve>)
    ensures k.Some? <==> HasId(cs, e.from) && HasId(cs, e.to)
    ensures k.Some? ==> k.value == ConnectionCurve(Find(cs, e.from).value, Find(cs, e.to).value)
  {
    match (Find(cs, e.from), Find(cs, e.to))
    case (Some(a), Some(b)) => Some(ConnectionCurve(a, b))
    case _ => None
  }

  /** `TempConnection`: the preview from the pending component's output port
      to the pointer, drawn with the same curve shape. */
  function PreviewCurve(cs: seq<Component>, pendingFrom: Id, pointer: Point): (k: Option<Curve>)
    ensures k.Some? <==> HasId(cs, pendingFrom)
    ensures k.Some? ==>
      k.value.start == OutputPort(Find(cs, pendingFrom).value) && k.value.end == pointer &&
      k.value.control1 == Point(k.value.start.x + ControlReach, k.value.start.y) &&
      k.value.control2 == Point(pointer.x - ControlReach, pointer.y)
  {
    match Find(cs, pendingFrom)
    case Some(a) => Some(CurveBetween(OutputPort(a), pointer))
    case None => None
  }

  /** Releasing the pointer on a component's input port, the preview is
      exactly the curve the new connection will be drawn with. */
  lemma PreviewMatchesConnection(cs: seq<Component>, e: Connection)
    requires HasId(cs, e.from) && HasId(cs, e.to)
    ensures PreviewCurve(cs, e.from, InputPort(Find(cs, e.to).value)) == RenderConnection(cs, e)
  {
  }

  datatype Stroke = Stroke(color: string, width: nat)

  /** The stroke of a connection: while simulating, coloured by the status of
      the component it leaves; the accent colour otherwise. */
  function StrokeFor(simulating: bool, fromStatus: Status): (s: Stroke)
    ensures s.width == 3 <==> simulating && fromStatus == Running
    ensures !simulating ==> s == Stroke("hsl(var(--accent))", 2)
  {
    if simulating && fromStatus == Running then Stroke("#F59E0B", 3)
    else if simulating && fromStatus == Success then Stroke("#10B981", 2)
    else if simulating && fromStatus == Error then Stroke("#EF4444", 2)
    else Stroke("hsl(var(--accent))", 2)
  }
}
