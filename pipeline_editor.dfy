/** The pipeline editor's state and handlers (the `usePipeline` hook): one
    field per piece of state and one method per handler. Ids come from a
    counter (`nextSerial`) instead of the clock and a random number, pointer
    events carry their client position and the canvas rectangle, and the
    simulation's timers deliver each component's outcome as a call to
    `CompleteNode`. */
module PipelineEditor {
  import opened Wrappers
  import opened Seqs
  import opened JsText
  import opened PipelineGraph
  import opened Simulation
  import opened Geometry

  // ---------------------------------------------------------------------
  // Dragging (lines 187-210)

  /** One drag step: move the dragged component by the pointer's movement
      since the anchor. */
  function DragStep(cs: seq<Component>, id: Id, anchor: Point, p: Point): seq<Component>
  {
    MoveComponent(cs, id, p.x - anchor.x, p.y - anchor.y)
  }

  /** A whole drag: one step per pointer position, each step's position
      becoming the next anchor. */
  function DragPath(cs: seq<Component>, id: Id, anchor: Point, ps: seq<Point>): seq<Component>
    decreases |ps|
  {
    if ps == [] then cs else DragPath(DragStep(cs, id, anchor, ps[0]), id, ps[0], ps[1..])
  }

  /** Two moves of the same component add up. */
  lemma MoveTwice(cs: seq<Component>, id: Id, dx1: real, dy1: real, dx2: real, dy2: real)
    ensures MoveComponent(MoveComponent(cs, id, dx1, dy1), id, dx2, dy2) == MoveComponent(cs, id, dx1 + dx2, dy1 + dy2)
  {
    var a := MoveComponent(MoveComponent(cs, id, dx1, dy1), id, dx2, dy2);
    var b := MoveComponent(cs, id, dx1 + dx2, dy1 + dy2);
    forall i | 0 <= i < |cs| ensures a[i] == b[i] {
      assert MoveComponent(cs, id, dx1, dy1)[i].id == cs[i].id;
    }
  }

  /** However many steps a drag takes, the dragged component ends up moved by
      the pointer's total movement, last position minus first anchor, and
      every other component stays where it was. */
  lemma {:induction false} DragPathTotal(cs: seq<Component>, id: Id, anchor: Point, ps: seq<Point>)
    requires |ps| > 0
    ensures DragPath(cs, id, anchor, ps) ==
      MoveComponent(cs, id, ps[|ps| - 1].x - anchor.x, ps[|ps| - 1].y - anchor.y)
    decreases |ps|
  {
    var first := DragStep(cs, id, anchor, ps[0]);
    if |ps| > 1 {
      DragPathTotal(first, id, ps[0], ps[1..]);
      var last := ps[|ps| - 1];
      assert ps[1..][|ps[1..]| - 1] == last;
      MoveTwice(cs, id, ps[0].x - anchor.x, ps[0].y - anchor.y, last.x - ps[0].x, last.y - ps[0].y);
      assert (ps[0].x - anchor.x) + (last.x - ps[0].x) == last.x - anchor.x;
      assert (ps[0].y - anchor.y) + (last.y - ps[0].y) == last.y - anchor.y;
    }
  }

  // ---------------------------------------------------------------------
  // Connections (lines 224-247)

  /** `connectingFrom`: the component a connection is being drawn from, and
      its output port if one was named. */
  datatype Pending = Pending(from: Id, output: Option<string>)

  /** The connection `handleConnectionEnd` creates. */
  function NewConnection(serial: nat, p: Pending, to: Id, input: Option<string>): Connection
  {
    Connection(Generated(serial), p.from, Some(OrDefault(p.output, "output")), to,
               Some(OrDefault(input, "input")), None)
  }

  /** Appending the connection `handleConnectionEnd` creates, with the
      counter at `serial`, moves the serial bound by one, uses an id no
      connection has, and keeps the graph invariants. */
  lemma ConnectKeepsInvariants(cs: seq<Component>, es: seq<Connection>, serial: nat, p: Pending,
                               to: Id, input: Option<string>)
    requires SerialsBelow(cs, es, serial) && HasId(cs, to)
    requires p.from.Generated? ==> p.from.serial < serial
    requires p.from != to && !ConnectionExists(es, p.from, to)
    ensures SerialsBelow(cs, es + [NewConnection(serial, p, to, input)], serial + 1)
    ensures forall k :: 0 <= k < |es| ==> es[k].id != NewConnection(serial, p, to, input).id
    ensures PairsDistinct(es) ==> PairsDistinct(es + [NewConnection(serial, p, to, input)])
    ensures ConnIdsDistinct(es) ==> ConnIdsDistinct(es + [NewConnection(serial, p, to, input)])
    ensures EdgesClosed(cs, es) && HasId(cs, p.from) ==>
      EdgesClosed(cs, es + [NewConnection(serial, p, to, input)])
  {
    var e := NewConnection(serial, p, to, input);
    var es' := es + [e];
    assert es'[|es|] == e;
    assert forall k :: 0 <= k < |es| ==> es'[k] == es[k];
    var i :| 0 <= i < |cs| && cs[i].id == to;
    assert to.Generated? ==> to.serial < serial;
    SerialAtBoundIsFresh(es, serial);
    if PairsDistinct(es) {
      AppendConnectionKeepsPairsDistinct(es, e);
    }
    if ConnIdsDistinct(es) {
      AppendConnectionKeepsIdsDistinct(es, e);
    }
  }

  datatype ConnectOutcome = NoPending | SelfConnection | Duplicate | Created(connection: Connection)

  datatype SimulateOutcome = NoComponents | NoSources | Started(sources: seq<Id>)

  // ---------------------------------------------------------------------
  // Zoom (lines 406-411), in tenths

  const MinScale: int := 5
  const MaxScale: int := 20
  const UnitScale: int := 10

  /** `Math.max(0.5, Math.min(2, s))`, in tenths. */
  function ClampScale(t: int): (r: int)
    ensures MinScale <= r <= MaxScale
    ensures MinScale <= t <= MaxScale ==> r == t
    ensures t < MinScale ==> r == MinScale
    ensures t > MaxScale ==> r == MaxScale
  {
    if t < MinScale then MinScale else if t > MaxScale then MaxScale else t
  }

  /** `loadTemplate`'s first `forEach`: widen the box one component at a
      time. */
  method TemplateBounds(cs: seq<Component>) returns (box: Box)
    requires |cs| > 0
    ensures box == Bounds(cs)
  {
    box := BoxOf(cs[0]);
    var i := 1;
    assert cs[..1] == [cs[0]];
    while i < |cs|
      invariant 1 <= i <= |cs|
      invariant box == Bounds(cs[..i])
    {
      assert cs[..i + 1][..i] == cs[..i];
      box := Hull(box, BoxOf(cs[i]));
      i := i + 1;
    }
    assert cs[..|cs|] == cs;
  }

  /** `loadTemplate`'s second `forEach`: map each template id to the id of
      the component placed for it. */
  method TemplateIdMapping(cs: seq<Component>, placed: seq<Component>, base: nat)
    returns (mapping: map<Id, Id>)
    requires |placed| == |cs|
    requires forall i :: 0 <= i < |cs| ==> placed[i].id == Generated(base + i)
    ensures mapping == IdMapping(cs, base)
  {
    mapping := map[];
    var j := 0;
    while j < |cs|
      invariant 0 <= j <= |cs|
      invariant mapping == IdMapping(cs[..j], base)
    {
      assert cs[..j + 1][..j] == cs[..j];
      mapping := mapping[cs[j].id := placed[j].id];
      j := j + 1;
    }
    assert cs[..|cs|] == cs;
  }

  /** `rect.width / 2 / canvasScale`, `rect.height / 2 / canvasScale`: the
      canvas point at the centre of the visible area (ignoring the pan). */
  function VisibleCentre(width: real, height: real, scaleTenths: int): Point
    requires scaleTenths > 0
  {
    Point(width / 2.0 / (scaleTenths as real / 10.0), height / 2.0 / (scaleTenths as real / 10.0))
  }

  /** What `loadTemplate` appends: the template's components moved so that
      their bounding box is centred on `centre` and given the serials from
      `base`, and its connections given the next serials and re-pointed
      through the id mapping. */
  function PlaceTemplate(t: Template, centre: Point, base: nat): (r: (seq<Component>, seq<Connection>))
    requires WellFormedTemplate(t)
    ensures |r.0| == |t.components| && |r.1| == |t.connections|
  {
    var dx := centre.x - CentreX(Bounds(t.components));
    var dy := centre.y - CentreY(Bounds(t.components));
    (Instantiate(t.components, dx, dy, base),
     Remap(t.connections, IdMapping(t.components, base), base + |t.components|))
  }

  /** The placed template's bounding box is centred on `centre`. */
  lemma PlaceTemplateCentres(t: Template, centre: Point, base: nat)
    requires WellFormedTemplate(t)
    ensures CentreX(Bounds(PlaceTemplate(t, centre, base).0)) == centre.x
    ensures CentreY(Bounds(PlaceTemplate(t, centre, base).0)) == centre.y
  {
    var b := Bounds(t.components);
    var dx, dy := centre.x - CentreX(b), centre.y - CentreY(b);
    var placed := PlaceTemplate(t, centre, base).0;
    assert placed == Instantiate(t.components, dx, dy, base);
    BoundsTranslate(t.components, dx, dy, base);
    assert Bounds(placed) == Box(b.minX + dx, b.minY + dy, b.maxX + dx, b.maxY + dy);
  }

  /** Appending a placed template keeps the serial bound (with the counter
      moved past the new serials) and the graph invariants. */
  lemma LoadKeepsInvariants(cs: seq<Component>, es: seq<Connection>, t: Template, centre: Point, base: nat)
    requires WellFormedTemplate(t) && SerialsBelow(cs, es, base)
    ensures SerialsBelow(cs + PlaceTemplate(t, centre, base).0, es + PlaceTemplate(t, centre, base).1,
                         base + |t.components| + |t.connections|)
    ensures IdsDistinct(cs) ==> IdsDistinct(cs + PlaceTemplate(t, centre, base).0)
    ensures EdgesClosed(cs, es) ==>
      EdgesClosed(cs + PlaceTemplate(t, centre, base).0, es + PlaceTemplate(t, centre, base).1)
    ensures PairsDistinct(es) ==> PairsDistinct(es + PlaceTemplate(t, centre, base).1)
    ensures ConnIdsDistinct(es) ==> ConnIdsDistinct(es + PlaceTemplate(t, centre, base).1)
  {
    var dx := centre.x - CentreX(Bounds(t.components));
    var dy := centre.y - CentreY(Bounds(t.components));
    var r := PlaceTemplate(t, centre, base);
    assert r.0 == Instantiate(t.components, dx, dy, base);
    assert r.1 == Remap(t.connections, IdMapping(t.components, base), base + |t.components|);
    LoadKeepsSerialsBelow(cs, es, t, dx, dy, base);
    if IdsDistinct(cs) {
      LoadKeepsIdsDistinct(cs, es, t.components, dx, dy, base);
    }
    if EdgesClosed(cs, es) {
      LoadKeepsEdgesClosed(cs, es, t, dx, dy, base);
    }
    if PairsDistinct(es) {
      LoadKeepsPairsDistinct(cs, es, t, base);
    }
    if ConnIdsDistinct(es) {
      LoadKeepsConnIdsDistinct(cs, es, t, base);
    }
  }

  class Editor {
    var components: seq<Component>
    var connections: seq<Connection>
    var connectingFrom: Option<Pending>
    var isDragging: bool
    var dragged: Option<Id>        // the id of `draggedComponent`
    var lastPosition: Point
    var mousePosition: Point
    var canvasOffset: Point
    var scaleTenths: int           // `canvasScale` times ten
    var isSimulating: bool
    var nextSerial: nat            // stands for `Date.now()`-based ids

    /** The scale stays in [0.5, 2], and no id in use, nor the pending
        connection's source, has a serial the counter will hand out. */
    ghost predicate Valid()
      reads this
    {
      && MinScale <= scaleTenths <= MaxScale
      && SerialsBelow(components, connections, nextSerial)
      && (connectingFrom.Some? && connectingFrom.value.from.Generated? ==>
            connectingFrom.value.from.serial < nextSerial)
    }

    function Scale(): real
      reads this
    {
      scaleTenths as real / 10.0
    }

    function View(): Viewport
      reads this
    {
      Viewport(canvasOffset, Scale())
    }

    /** The pointer-interaction state. */
    ghost function Interaction(): (Option<Pending>, bool, Option<Id>, Point, Point)
      reads this
    {
      (connectingFrom, isDragging, dragged, lastPosition, mousePosition)
    }

    /** The pan and zoom state. */
    ghost function ViewState(): (Point, int)
      reads this
    {
      (canvasOffset, scaleTenths)
    }

    /** The graph invariants: distinct ids, attached connections and
        distinct (from, to) pairs. */
    ghost predicate GraphOk()
      reads this
    {
      IdsDistinct(components) && EdgesClosed(components, connections) &&
      PairsDistinct(connections) && ConnIdsDistinct(connections)
    }

    constructor ()
      ensures Valid() && GraphOk()
      ensures components == [] && connections == []
      ensures connectingFrom == None && !isDragging && dragged == None
      ensures lastPosition == Point(0.0, 0.0) && mousePosition == Point(0.0, 0.0)
      ensures canvasOffset == Point(0.0, 0.0) && scaleTenths == UnitScale
      ensures !isSimulating
    {
      components := [];
      connections := [];
      connectingFrom := None;
      isDragging := false;
      dragged := None;
      lastPosition := Point(0.0, 0.0);
      mousePosition := Point(0.0, 0.0);
      canvasOffset := Point(0.0, 0.0);
      scaleTenths := UnitScale;
      isSimulating := false;
      nextSerial := 0;
    }

    /** `handleAddComponent`: append one idle component with a fresh id,
        ports ["input"] and ["output"] and the configuration or {}. */
    method AddComponent(kind: string, name: string, x: real, y: real, config: Option<Config>)
      returns (c: Component)
      requires Valid()
      modifies this
      ensures Valid()
      ensures c == NewComponent(old(nextSerial), kind, name, x, y, config)
      ensures !old(HasId(components, c.id))
      ensures components == old(components) + [c]
      ensures connections == old(connections)
      ensures Interaction() == old(Interaction()) && ViewState() == old(ViewState())
      ensures isSimulating == old(isSimulating) && nextSerial == old(nextSerial) + 1
      ensures old(GraphOk()) ==> GraphOk()
    {
      c := NewComponent(nextSerial, kind, name, x, y, config);
      FreshSerialUnused(components, connections, nextSerial);
      AppendComponentKeepsInvariants(components, connections, c);
      components := components + [c];
      nextSerial := nextSerial + 1;
    }

    /** The library's drop handler (lines 1429-1442): a component is added only
        when the pointer is released inside the canvas, placed so that its
        grab point lies under the pointer. */
    method DropLibraryItem(kind: string, name: string, config: Option<Config>, q: Point, r: Rect)
      returns (added: Option<Component>)
      requires Valid()
      modifies this
      ensures Valid()
      ensures added.Some? <==> Inside(q, r)
      ensures added.None? ==> components == old(components) && nextSerial == old(nextSerial)
      ensures added.Some? ==> components == old(components) + [added.value]
      ensures added.Some? ==>
        var p := DropPosition(q, r, old(View())).value;
        added.value == NewComponent(old(nextSerial), kind, name, p.x, p.y, config)
      ensures connections == old(connections) && Interaction() == old(Interaction())
      ensures ViewState() == old(ViewState()) && isSimulating == old(isSimulating)
      ensures old(GraphOk()) ==> GraphOk()
    {
      var p := DropPosition(q, r, View());
      if p.Some? {
        var c := AddComponent(kind, name, p.value.x, p.value.y, config);
        added := Some(c);
      } else {
        added := None;
      }
    }

    /** `handleComponentDragStart`: remember the component and anchor the
        drag at the pointer. */
    method DragStart(id: Id, client: Point, r: Rect)
      requires Valid() && HasId(components, id)
      modifies this
      ensures Valid()
      ensures isDragging && dragged == Some(id)
      ensures lastPosition == PointerToCanvas(client, r, Scale())
      ensures connectingFrom == old(connectingFrom) && mousePosition == old(mousePosition)
      ensures components == old(components) && connections == old(connections)
      ensures ViewState() == old(ViewState()) && isSimulating == old(isSimulating)
      ensures nextSerial == old(nextSerial)
    {
      isDragging := true;
      dragged := Some(id);
      lastPosition := PointerToCanvas(client, r, Scale());
    }

    /** `handleCanvasDragOver`: while dragging, one drag step to the pointer,
        which becomes the new anchor; otherwise nothing. */
    method DragOver(client: Point, r: Rect)
      requires Valid()
      modifies this
      ensures Valid()
      ensures
        var p := PointerToCanvas(client, r, Scale());
        if old(isDragging && dragged.Some?) then
          components == DragStep(old(components), old(dragged.value), old(lastPosition), p) &&
          lastPosition == p
        else
          components == old(components) && lastPosition == old(lastPosition)
      ensures connectingFrom == old(connectingFrom) && isDragging == old(isDragging)
      ensures dragged == old(dragged) && mousePosition == old(mousePosition)
      ensures connections == old(connections) && ViewState() == old(ViewState())
      ensures isSimulating == old(isSimulating) && nextSerial == old(nextSerial)
      ensures old(GraphOk()) ==> GraphOk()
    {
      if isDragging && dragged.Some? {
        var p := PointerToCanvas(client, r, Scale());
        var moved := DragStep(components, dragged.value, lastPosition, p);
        SameIdsKeepInvariants(components, moved, connections);
        components := moved;
        lastPosition := p;
      }
    }

    /** `handleMouseMove`: track the pointer for the preview curve, then drag. */
    method MouseMove(client: Point, r: Rect)
      requires Valid()
      modifies this
      ensures Valid()
      ensures mousePosition == PointerToModel(client, r, old(View()))
      ensures
        var p := PointerToCanvas(client, r, Scale());
        if old(isDragging && dragged.Some?) then
          components == DragStep(old(components), old(dragged.value), old(lastPosition), p) &&
          lastPosition == p
        else
          components == old(components) && lastPosition == old(lastPosition)
      ensures connectingFrom == old(connectingFrom) && isDragging == old(isDragging)
      ensures dragged == old(dragged)
      ensures connections == old(connections) && ViewState() == old(ViewState())
      ensures isSimulating == old(isSimulating) && nextSerial == old(nextSerial)
      ensures old(GraphOk()) ==> GraphOk()
    {
      mousePosition := PointerToModel(client, r, View());
      DragOver(client, r);
    }

    /** `handleCanvasDragEnd`. */
    method DragEnd()
      requires Valid()
      modifies this
      ensures Valid()
      ensures !isDragging && dragged == None
      ensures connectingFrom == old(connectingFrom) && lastPosition == old(lastPosition)
      ensures mousePosition == old(mousePosition)
      ensures components == old(components) && connections == old(connections)
      ensures ViewState() == old(ViewState()) && isSimulating == old(isSimulating)
      ensures nextSerial == old(nextSerial)
    {
      isDragging := false;
      dragged := None;
    }

    /** `handleConnectionStart`. */
    method ConnectionStart(id: Id, output: Option<string>)
      requires Valid() && HasId(components, id)
      modifies this
      ensures Valid()
      ensures connectingFrom == Some(Pending(id, output))
      ensures isDragging == old(isDragging) && dragged == old(dragged)
      ensures lastPosition == old(lastPosition) && mousePosition == old(mousePosition)
      ensures components == old(components) && connections == old(connections)
      ensures ViewState() == old(ViewState()) && isSimulating == old(isSimulating)
      ensures nextSerial == old(nextSerial)
    {
      var i :| 0 <= i < |components| && components[i].id == id;
      connectingFrom := Some(Pending(id, output));
    }

    /** `handleConnectionEnd`: with a pending source other than `to` and no
        connection between the two yet, append one connection with ports
        defaulting to "output" and "input"; in every case the pending source
        is cleared. */
    method ConnectionEnd(to: Id, input: Option<string>) returns (o: ConnectOutcome)
      requires Valid() && HasId(components, to)
      modifies this
      ensures Valid()
      ensures connectingFrom == None
      ensures o == NoPending <==> old(connectingFrom).None?
      ensures o == SelfConnection <==> old(connectingFrom).Some? && old(connectingFrom).value.from == to
      ensures o == Duplicate <==>
        old(connectingFrom).Some? && old(connectingFrom).value.from != to &&
        ConnectionExists(old(connections), old(connectingFrom).value.from, to)
      ensures o.Created? ==>
        o.connection == NewConnection(old(nextSerial), old(connectingFrom).value, to, input) &&
        connections == old(connections) + [o.connection] && nextSerial == old(nextSerial) + 1
      ensures !o.Created? ==> connections == old(connections) && nextSerial == old(nextSerial)
      ensures o.Created? ==> forall k :: 0 <= k < |old(connections)| ==> old(connections)[k].id != o.connection.id
      ensures old(PairsDistinct(connections)) ==> PairsDistinct(connections)
      ensures old(ConnIdsDistinct(connections)) ==> ConnIdsDistinct(connections)
      ensures (old(EdgesClosed(components, connections)) && old(connectingFrom).Some? &&
               old(HasId(components, connectingFrom.value.from))) ==> EdgesClosed(components, connections)
      ensures components == old(components) && isDragging == old(isDragging)
      ensures dragged == old(dragged) && lastPosition == old(lastPosition)
      ensures mousePosition == old(mousePosition)
      ensures ViewState() == old(ViewState()) && isSimulating == old(isSimulating)
    {
      if connectingFrom.None? {
        o := NoPending;
      } else if connectingFrom.value.from == to {
        o := SelfConnection;
      } else if ConnectionExists(connections, connectingFrom.value.from, to) {
        o := Duplicate;
      } else {
        var e := NewConnection(nextSerial, connectingFrom.value, to, input);
        ConnectKeepsInvariants(components, connections, nextSerial, connectingFrom.value, to, input);
        var es := connections + [e];
        connections := es;
        nextSerial := nextSerial + 1;
        o := Created(e);
      }
      connectingFrom := None;
    }

    /** `handleDeleteComponent`: remove the component and every connection
        to or from it. */
    method DeleteComponent(id: Id)
      requires Valid()
      modifies this
      ensures Valid()
      ensures components == WithoutComponent(old(components), id)
      ensures connections == WithoutConnectionsOf(old(connections), id)
      ensures Interaction() == old(Interaction()) && ViewState() == old(ViewState())
      ensures isSimulating == old(isSimulating) && nextSerial == old(nextSerial)
      ensures old(GraphOk()) ==> GraphOk()
    {
      var cs, es := WithoutComponent(components, id), WithoutConnectionsOf(connections, id);
      DeleteCascades(components, connections, id);
      DeleteKeepsDistinct(components, connections, id, id);
      FilterKeepsSerialsBelow(components, connections, cs, es, nextSerial);
      components, connections := cs, es;
    }

    /** `handleDeleteConnection`. */
    method DeleteConnection(id: Id)
      requires Valid()
      modifies this
      ensures Valid()
      ensures connections == WithoutConnection(old(connections), id)
      ensures components == old(components)
      ensures Interaction() == old(Interaction()) && ViewState() == old(ViewState())
      ensures isSimulating == old(isSimulating) && nextSerial == old(nextSerial)
      ensures old(GraphOk()) ==> GraphOk()
    {
      var es := WithoutConnection(connections, id);
      DeleteKeepsDistinct(components, connections, id, id);
      FilterKeepsSerialsBelow(components, connections, components, es, nextSerial);
      connections := es;
    }

    /** `updateComponentConfig`: merge the update into that component's
        configuration. */
    method UpdateConfig(id: Id, update: Config)
      requires Valid()
      modifies this
      ensures Valid()
      ensures components == WithConfig(old(components), id, update)
      ensures connections == old(connections)
      ensures Interaction() == old(Interaction()) && ViewState() == old(ViewState())
      ensures isSimulating == old(isSimulating) && nextSerial == old(nextSerial)
      ensures old(GraphOk()) ==> GraphOk()
    {
      var cs := WithConfig(components, id, update);
      SameIdsKeepInvariants(components, cs, connections);
      components := cs;
    }

    /** `updateComponent`, for the name and description edits the details
        panel makes. */
    method UpdateComponent(id: Id, patch: ComponentPatch)
      requires Valid()
      modifies this
      ensures Valid()
      ensures components == WithPatch(old(components), id, patch)
      ensures connections == old(connections)
      ensures Interaction() == old(Interaction()) && ViewState() == old(ViewState())
      ensures isSimulating == old(isSimulating) && nextSerial == old(nextSerial)
      ensures old(GraphOk()) ==> GraphOk()
    {
      var cs := WithPatch(components, id, patch);
      SameIdsKeepInvariants(components, cs, connections);
      components := cs;
    }

    /** `handleZoom`: change the scale by `delta` tenths, within [0.5, 2]. */
    method Zoom(delta: int)
      requires Valid()
      modifies this
      ensures Valid()
      ensures scaleTenths == ClampScale(old(scaleTenths) + delta)
      ensures canvasOffset == old(canvasOffset)
      ensures components == old(components) && connections == old(connections)
      ensures Interaction() == old(Interaction())
      ensures isSimulating == old(isSimulating) && nextSerial == old(nextSerial)
    {
      scaleTenths := ClampScale(scaleTenths + delta);
    }

    /** `handlePan`: shift the offset, without bounds. */
    method Pan(dx: real, dy: real)
      requires Valid()
      modifies this
      ensures Valid()
      ensures canvasOffset == Point(old(canvasOffset).x + dx, old(canvasOffset).y + dy)
      ensures scaleTenths == old(scaleTenths)
      ensures components == old(components) && connections == old(connections)
      ensures Interaction() == old(Interaction())
      ensures isSimulating == old(isSimulating) && nextSerial == old(nextSerial)
    {
      canvasOffset := Point(canvasOffset.x + dx, canvasOffset.y + dy);
    }

    /** `resetView`. */
    method ResetView()
      requires Valid()
      modifies this
      ensures Valid()
      ensures canvasOffset == Point(0.0, 0.0) && scaleTenths == UnitScale
      ensures components == old(components) && connections == old(connections)
      ensures Interaction() == old(Interaction())
      ensures isSimulating == old(isSimulating) && nextSerial == old(nextSerial)
    {
      canvasOffset := Point(0.0, 0.0);
      scaleTenths := UnitScale;
    }

    /** `loadTemplate`: place a copy of the template centred in the visible
        canvas, with fresh ids for its components and connections, and
        connections re-pointed at the new components. The existing graph
        stays as a prefix. */
    method LoadTemplate(t: Template, width: real, height: real)
      requires Valid() && WellFormedTemplate(t)
      modifies this
      ensures Valid()
      ensures
        var placed := PlaceTemplate(t, VisibleCentre(width, height, old(scaleTenths)), old(nextSerial));
        components == old(components) + placed.0 && connections == old(connections) + placed.1
      ensures nextSerial == old(nextSerial) + |t.components| + |t.connections|
      ensures Interaction() == old(Interaction()) && ViewState() == old(ViewState())
      ensures isSimulating == old(isSimulating)
      ensures old(GraphOk()) ==> GraphOk()
    {
      var tcs := t.components;
      var centre := VisibleCentre(width, height, scaleTenths);
      var box := TemplateBounds(tcs);
      var dx := centre.x - CentreX(box);
      var dy := centre.y - CentreY(box);
      var base := nextSerial;
      var placed := Instantiate(tcs, dx, dy, base);
      var mapping := TemplateIdMapping(tcs, placed, base);
      var added := Remap(t.connections, mapping, base + |tcs|);
      assert (placed, added) == PlaceTemplate(t, centre, base);
      LoadKeepsInvariants(components, connections, t, centre, base);
      components := components + placed;
      connections := connections + added;
      nextSerial := base + |tcs| + |t.connections|;
    }

    /** `simulatePipeline` with the guard reading the current flag: with no
        components nothing happens; otherwise every status is reset to idle
        and, if some component has no incoming connection, those sources
        start running; if none does, the run is abandoned. */
    method Simulate() returns (o: SimulateOutcome)
      requires Valid()
      modifies this
      ensures Valid()
      ensures old(components) == [] ==>
        o == NoComponents && components == old(components) && isSimulating == old(isSimulating)
      ensures old(components) != [] && SourceIds(old(components), connections) == [] ==>
        o == NoSources && components == ResetStatuses(old(components)) && !isSimulating
      ensures old(components) != [] && SourceIds(old(components), connections) != [] ==>
        o == Started(SourceIds(old(components), connections)) &&
        components == MarkRunning(ResetStatuses(old(components)), o.sources) && isSimulating
      ensures connections == old(connections) && Interaction() == old(Interaction())
      ensures ViewState() == old(ViewState()) && nextSerial == old(nextSerial)
      ensures old(GraphOk()) ==> GraphOk()
    {
      if components == [] {
        return NoComponents;
      }
      isSimulating := true;
      var sources := SourceIds(components, connections);
      var reset := ResetStatuses(components);
      SameIdsKeepInvariants(components, reset, connections);
      components := reset;
      if sources == [] {
        isSimulating := false;
        return NoSources;
      }
      var running := MarkRunning(components, sources);
      SameIdsKeepInvariants(components, running, connections);
      components := running;
      o := Started(sources);
    }

    /** A timer of the simulation fires for component `id` with the given
        outcome. Outside a run nothing happens. Otherwise the component takes
        its outcome; after a success with outgoing connections their targets
        start running; in every other case the run ends if no component is
        idle or running, and the result says how it ended. */
    method CompleteNode(id: Id, success: bool) returns (r: Option<RunOutcome>)
      requires Valid()
      modifies this
      ensures Valid()
      ensures !old(isSimulating) ==> r.None? && components == old(components) && !isSimulating
      ensures old(isSimulating) ==>
        var after := SetStatus(old(components), id, if success then Success else Error);
        if success && Targets(connections, id) != [] then
          components == MarkRunning(after, Targets(connections, id)) && r.None? && isSimulating
        else
          components == after && r == CheckComplete(after) && isSimulating == r.None?
      ensures connections == old(connections) && Interaction() == old(Interaction())
      ensures ViewState() == old(ViewState()) && nextSerial == old(nextSerial)
      ensures old(GraphOk()) ==> GraphOk()
    {
      r := None;
      if !isSimulating {
        return;
      }
      var after := SetStatus(components, id, if success then Success else Error);
      SameIdsKeepInvariants(components, after, connections);
      components := after;
      var next := Targets(connections, id);
      if success && next != [] {
        var running := MarkRunning(components, next);
        SameIdsKeepInvariants(components, running, connections);
        components := running;
      } else {
        r := CheckComplete(components);
        if r.Some? {
          isSimulating := false;
        }
      }
    }

    /** `stopSimulation`: end the run and reset every status to idle. */
    method StopSimulation()
      requires Valid()
      modifies this
      ensures Valid()
      ensures !isSimulating && components == ResetStatuses(old(components))
      ensures connections == old(connections) && Interaction() == old(Interaction())
      ensures ViewState() == old(ViewState()) && nextSerial == old(nextSerial)
      ensures old(GraphOk()) ==> GraphOk()
    {
      var reset := ResetStatuses(components);
      SameIdsKeepInvariants(components, reset, connections);
      isSimulating := false;
      components := reset;
    }

    /** `clearCanvas` (lines 1157-1166): nothing on an empty canvas or when
        the user declines; otherwise both lists become empty. */
    method ClearCanvas(confirmed: bool)
      requires Valid()
      modifies this
      ensures Valid()
      ensures if old(components) != [] && confirmed then components == [] && connections == []
              else components == old(components) && connections == old(connections)
      ensures Interaction() == old(Interaction()) && ViewState() == old(ViewState())
      ensures isSimulating == old(isSimulating) && nextSerial == old(nextSerial)
      ensures old(GraphOk()) ==> GraphOk()
    {
      if components != [] && confirmed {
        components := [];
        connections := [];
      }
    }

    /** The graph part of `importPipeline` (lines 1140-1141): replace both
        lists; the counter moves past every serial the file uses. */
    method ImportGraph(cs: seq<Component>, es: seq<Connection>)
      requires Valid()
      modifies this
      ensures Valid()
      ensures components == cs && connections == es
      ensures nextSerial >= old(nextSerial)
      ensures Interaction() == old(Interaction()) && ViewState() == old(ViewState())
      ensures isSimulating == old(isSimulating)
    {
      components := cs;
      connections := es;
      nextSerial := Max(nextSerial, Max(ComponentSerialBound(cs), ConnectionSerialBound(es)));
    }
  }
}
