/** The pipeline builder's graph: components (nodes), connections (edges),
    templates, and the pure transforms the editor's handlers apply to them
    (`map`, `filter` and `some` over the component and connection lists). */
module PipelineGraph {
  import opened Wrappers
  import opened Seqs

  /** Identifiers. The source builds them from the clock and a random number
      (`component-<time>-<random>`); here a `Generated` id carries a serial
      drawn from a counter that only grows. `Named` ids are the hand-written
      ones of the built-in templates, or whatever an imported file holds. */
  datatype Id = Generated(serial: nat) | Named(name: string)

  /** A JSON-serialisable configuration value. */
  datatype Value = Text(s: string) | Number(n: real) | Flag(b: bool) | List(items: seq<Value>)

  type Config = map<string, Value>

  /** `status?: "idle" | "running" | "success" | "error"`; `Unset` is the
      field left undefined, as in the templates. */
  datatype Status = Unset | Idle | Running | Success | Error

  datatype Component = Component(
    id: Id,
    kind: string,
    name: string,
    x: real,
    y: real,
    inputs: seq<string>,
    outputs: seq<string>,
    config: Option<Config>,
    status: Status,
    description: Option<string>)

  datatype Connection = Connection(
    id: Id,
    from: Id,
    fromOutput: Option<string>,
    to: Id,
    toInput: Option<string>,
    caption: Option<string>)  // the source field `label`

  datatype Template = Template(
    id: string,
    name: string,
    description: string,
    components: seq<Component>,
    connections: seq<Connection>,
    tags: seq<string>)

  /** Component width and height on the canvas, in canvas units. */
  const NodeWidth: real := 150.0
  const NodeHeight: real := 80.0

  // ---------------------------------------------------------------------
  // Graph predicates

  predicate HasId(cs: seq<Component>, id: Id)
  {
    exists i :: 0 <= i < |cs| && cs[i].id == id
  }

  function ComponentId(c: Component): Id { c.id }

  function Endpoints(e: Connection): (Id, Id) { (e.from, e.to) }

  function ConnectionId(e: Connection): Id { e.id }

  /** No two components share an id. */
  predicate IdsDistinct(cs: seq<Component>)
  {
    DistinctBy(cs, ComponentId)
  }

  /** No two connections share an id. */
  predicate ConnIdsDistinct(es: seq<Connection>)
  {
    DistinctBy(es, ConnectionId)
  }

  /** No two connections join the same (from, to) pair of components. */
  predicate PairsDistinct(es: seq<Connection>)
  {
    DistinctBy(es, Endpoints)
  }

  /** Every connection starts and ends at a component of the graph. */
  predicate EdgesClosed(cs: seq<Component>, es: seq<Connection>)
  {
    forall k :: 0 <= k < |es| ==> HasId(cs, es[k].from) && HasId(cs, es[k].to)
  }

  /** `connections.some(conn => conn.from === from && conn.to === to)`. */
  predicate ConnectionExists(es: seq<Connection>, from: Id, to: Id)
  {
    exists k :: 0 <= k < |es| && es[k].from == from && es[k].to == to
  }

  /** Every id the graph mentions, as a serial bound: each `Generated` serial
      used by a component, a connection or a connection's endpoint is below
      `bound`. */
  predicate SerialsBelow(cs: seq<Component>, es: seq<Connection>, bound: nat)
  {
    ComponentSerialsBelow(cs, bound) && ConnectionSerialsBelow(es, bound)
  }

  predicate ComponentSerialsBelow(cs: seq<Component>, bound: nat)
  {
    forall i :: 0 <= i < |cs| && cs[i].id.Generated? ==> cs[i].id.serial < bound
  }

  predicate ConnectionSerialsBelow(es: seq<Connection>, bound: nat)
  {
    && (forall k :: 0 <= k < |es| && es[k].id.Generated? ==> es[k].id.serial < bound)
    && (forall k :: 0 <= k < |es| && es[k].from.Generated? ==> es[k].from.serial < bound)
    && (forall k :: 0 <= k < |es| && es[k].to.Generated? ==> es[k].to.serial < bound)
  }

  function SerialOf(id: Id): nat
  {
    if id.Generated? then id.serial + 1 else 0
  }

  function Max(a: nat, b: nat): nat { if a < b then b else a }

  /** The least counter value above every serial the components use. */
  function ComponentSerialBound(cs: seq<Component>): (bound: nat)
    ensures forall i :: 0 <= i < |cs| && cs[i].id.Generated? ==> cs[i].id.serial < bound
  {
    if cs == [] then 0 else Max(SerialOf(cs[0].id), ComponentSerialBound(cs[1..]))
  }

  /** The least counter value above every serial the connections use. */
  function ConnectionSerialBound(es: seq<Connection>): (bound: nat)
    ensures forall k :: 0 <= k < |es| && es[k].id.Generated? ==> es[k].id.serial < bound
    ensures forall k :: 0 <= k < |es| && es[k].from.Generated? ==> es[k].from.serial < bound
    ensures forall k :: 0 <= k < |es| && es[k].to.Generated? ==> es[k].to.serial < bound
  {
    if es == [] then 0
    else Max(Max(SerialOf(es[0].id), SerialOf(es[0].from)),
             Max(SerialOf(es[0].to), ConnectionSerialBound(es[1..])))
  }

  lemma SerialsBelowMonotone(cs: seq<Component>, es: seq<Connection>, b: nat, b': nat)
    requires SerialsBelow(cs, es, b) && b <= b'
    ensures SerialsBelow(cs, es, b')
  {
  }

  // ---------------------------------------------------------------------
  // Handler transforms

  /** The component `handleAddComponent` creates (lines 154-166). */
  function NewComponent(serial: nat, kind: string, name: string, x: real, y: real,
                        config: Option<Config>): Component
  {
    Component(Generated(serial), kind, name, x, y, ["input"], ["output"],
              Some(config.GetOr(map[])), Idle, Some(""))
  }

  /** `components.map(c => c.id === id ? { ...c, x: c.x + dx, y: c.y + dy } : c)`. */
  function MoveComponent(cs: seq<Component>, id: Id, dx: real, dy: real): (r: seq<Component>)
    ensures |r| == |cs|
    ensures forall i :: 0 <= i < |cs| ==>
      r[i] == if cs[i].id == id then cs[i].(x := cs[i].x + dx, y := cs[i].y + dy) else cs[i]
  {
    seq(|cs|, i requires 0 <= i < |cs| =>
      if cs[i].id == id then cs[i].(x := cs[i].x + dx, y := cs[i].y + dy) else cs[i])
  }

  /** The components that survive `handleDeleteComponent(id)`. */
  function WithoutComponent(cs: seq<Component>, id: Id): seq<Component>
  {
    Filter(cs, (c: Component) => c.id != id)
  }

  predicate Touches(e: Connection, id: Id)
  {
    e.from == id || e.to == id
  }

  /** The connections that survive `handleDeleteComponent(id)`. */
  function WithoutConnectionsOf(es: seq<Connection>, id: Id): seq<Connection>
  {
    Filter(es, (e: Connection) => !Touches(e, id))
  }

  /** The connections that survive `handleDeleteConnection(id)`. */
  function WithoutConnection(es: seq<Connection>, id: Id): seq<Connection>
  {
    Filter(es, (e: Connection) => e.id != id)
  }

  /** Cascade delete: no surviving connection mentions the deleted component,
      every connection that did not mention it survives, and the survivors of
      both lists keep their relative order. */
  lemma {:induction false} DeleteCascades(cs: seq<Component>, es: seq<Connection>, id: Id)
    ensures forall i :: 0 <= i < |WithoutComponent(cs, id)| ==> WithoutComponent(cs, id)[i].id != id
    ensures forall i :: 0 <= i < |cs| && cs[i].id != id ==> cs[i] in WithoutComponent(cs, id)
    ensures forall k :: 0 <= k < |WithoutConnectionsOf(es, id)| ==>
      !Touches(WithoutConnectionsOf(es, id)[k], id)
    ensures forall k :: 0 <= k < |es| && !Touches(es[k], id) ==> es[k] in WithoutConnectionsOf(es, id)
    ensures IsSubsequence(WithoutComponent(cs, id), cs)
    ensures IsSubsequence(WithoutConnectionsOf(es, id), es)
    ensures EdgesClosed(cs, es) ==> EdgesClosed(WithoutComponent(cs, id), WithoutConnectionsOf(es, id))
  {
    var cs', es' := WithoutComponent(cs, id), WithoutConnectionsOf(es, id);
    if EdgesClosed(cs, es) {
      forall k | 0 <= k < |es'|
        ensures HasId(cs', es'[k].from) && HasId(cs', es'[k].to)
      {
        var e := es'[k];
        var m :| 0 <= m < |es| && es[m] == e;
        var i :| 0 <= i < |cs| && cs[i].id == e.from;
        var j :| 0 <= j < |cs| && cs[j].id == e.to;
        var a :| 0 <= a < |cs'| && cs'[a] == cs[i];
        var b :| 0 <= b < |cs'| && cs'[b] == cs[j];
      }
    }
  }

  /** Deleting keeps ids and (from, to) pairs distinct. */
  lemma DeleteKeepsDistinct(cs: seq<Component>, es: seq<Connection>, id: Id, connId: Id)
    ensures IdsDistinct(cs) ==> IdsDistinct(WithoutComponent(cs, id))
    ensures PairsDistinct(es) ==> PairsDistinct(WithoutConnectionsOf(es, id))
    ensures PairsDistinct(es) ==> PairsDistinct(WithoutConnection(es, connId))
    ensures ConnIdsDistinct(es) ==> ConnIdsDistinct(WithoutConnectionsOf(es, id))
    ensures ConnIdsDistinct(es) ==> ConnIdsDistinct(WithoutConnection(es, connId))
  {
    if IdsDistinct(cs) {
      FilterKeepsDistinct(cs, (c: Component) => c.id != id, ComponentId);
    }
    if PairsDistinct(es) {
      FilterKeepsDistinct(es, (e: Connection) => !Touches(e, id), Endpoints);
      FilterKeepsDistinct(es, (e: Connection) => e.id != connId, Endpoints);
    }
    if ConnIdsDistinct(es) {
      FilterKeepsDistinct(es, (e: Connection) => !Touches(e, id), ConnectionId);
      FilterKeepsDistinct(es, (e: Connection) => e.id != connId, ConnectionId);
    }
  }

  /** `{ ...c.config, ...config }`: the update's keys win, an undefined
      configuration spreads as `{}`. */
  function MergeConfig(current: Option<Config>, update: Config): (m: Config)
    ensures m.Keys == current.GetOr(map[]).Keys + update.Keys
    ensures forall k :: k in update ==> m[k] == update[k]
    ensures forall k :: k in current.GetOr(map[]) && k !in update ==> m[k] == current.GetOr(map[])[k]
  {
    current.GetOr(map[]) + update
  }

  /** `updateComponentConfig`'s `map` over the components. */
  function WithConfig(cs: seq<Component>, id: Id, update: Config): (r: seq<Component>)
    ensures |r| == |cs|
    ensures forall i :: 0 <= i < |cs| ==>
      r[i] == if cs[i].id == id then cs[i].(config := Some(MergeConfig(cs[i].config, update))) else cs[i]
  {
    seq(|cs|, i requires 0 <= i < |cs| =>
      if cs[i].id == id then cs[i].(config := Some(MergeConfig(cs[i].config, update))) else cs[i])
  }

  /** The `Partial<Component>` updates the details panel passes to
      `updateComponent`: a new name or a new description. */
  datatype ComponentPatch = ComponentPatch(name: Option<string>, description: Option<string>)

  function Patched(c: Component, p: ComponentPatch): Component
  {
    c.(name := p.name.GetOr(c.name),
       description := if p.description.Some? then p.description else c.description)
  }

  /** `updateComponent`'s `map` over the components. */
  function WithPatch(cs: seq<Component>, id: Id, p: ComponentPatch): (r: seq<Component>)
    ensures |r| == |cs|
    ensures forall i :: 0 <= i < |cs| ==> r[i] == if cs[i].id == id then Patched(cs[i], p) else cs[i]
  {
    seq(|cs|, i requires 0 <= i < |cs| => if cs[i].id == id then Patched(cs[i], p) else cs[i])
  }

  /** A merge never drops a key, overwrites only the keys it names, and
      merging the same update twice is the same as merging it once. */
  lemma MergeConfigIdempotent(current: Option<Config>, update: Config)
    ensures MergeConfig(Some(MergeConfig(current, update)), update) == MergeConfig(current, update)
  {
  }

  /** Transforms that only touch positions, configurations, names or
      descriptions leave every id where it was. */
  lemma {:induction false} SameIdsKeepInvariants(cs: seq<Component>, cs': seq<Component>, es: seq<Connection>)
    requires |cs'| == |cs|
    requires forall i :: 0 <= i < |cs| ==> cs'[i].id == cs[i].id
    ensures IdsDistinct(cs) ==> IdsDistinct(cs')
    ensures EdgesClosed(cs, es) ==> EdgesClosed(cs', es)
  {
    if EdgesClosed(cs, es) {
      forall k | 0 <= k < |es|
        ensures HasId(cs', es[k].from) && HasId(cs', es[k].to)
      {
        var i :| 0 <= i < |cs| && cs[i].id == es[k].from;
        var j :| 0 <= j < |cs| && cs[j].id == es[k].to;
        assert cs'[i].id == es[k].from && cs'[j].id == es[k].to;
      }
    }
    if IdsDistinct(cs) {
      forall i, j | 0 <= i < j < |cs'|
        ensures ComponentId(cs'[i]) != ComponentId(cs'[j])
      {
        assert ComponentId(cs[i]) != ComponentId(cs[j]);
      }
    }
  }

  // ---------------------------------------------------------------------
  // Loading a template (lines 436-481)

  /** An axis-aligned box in canvas units. */
  datatype Box = Box(minX: real, minY: real, maxX: real, maxY: real)

  function RMin(a: real, b: real): real { if a <= b then a else b }
  function RMax(a: real, b: real): real { if a >= b then a else b }

  /** The area a component covers. */
  function BoxOf(c: Component): Box
  {
    Box(c.x, c.y, c.x + NodeWidth, c.y + NodeHeight)
  }

  function Hull(a: Box, b: Box): Box
  {
    Box(RMin(a.minX, b.minX), RMin(a.minY, b.minY), RMax(a.maxX, b.maxX), RMax(a.maxY, b.maxY))
  }

  /** The bounding box `loadTemplate`'s first `forEach` computes, taken
      element by element from the first component to the last. */
  function Bounds(cs: seq<Component>): (b: Box)
    requires |cs| > 0
    ensures forall i :: 0 <= i < |cs| ==>
      b.minX <= cs[i].x && b.minY <= cs[i].y &&
      cs[i].x + NodeWidth <= b.maxX && cs[i].y + NodeHeight <= b.maxY
  {
    if |cs| == 1 then BoxOf(cs[0])
    else
      var front := cs[..|cs| - 1];
      var r := Hull(Bounds(front), BoxOf(cs[|cs| - 1]));
      assert forall i :: 0 <= i < |cs| - 1 ==> cs[i] == front[i];
      r
  }

  function CentreX(b: Box): real { b.minX + (b.maxX - b.minX) / 2.0 }
  function CentreY(b: Box): real { b.minY + (b.maxY - b.minY) / 2.0 }

  /** `template.components.map(comp => ({ ...comp, id: <fresh>, x: comp.x + dx, y: comp.y + dy }))`,
      the fresh ids being consecutive serials from `base`. */
  function Instantiate(cs: seq<Component>, dx: real, dy: real, base: nat): (r: seq<Component>)
    ensures |r| == |cs|
    ensures forall i :: 0 <= i < |cs| ==>
      r[i] == cs[i].(id := Generated(base + i), x := cs[i].x + dx, y := cs[i].y + dy)
  {
    seq(|cs|, i requires 0 <= i < |cs| =>
      cs[i].(id := Generated(base + i), x := cs[i].x + dx, y := cs[i].y + dy))
  }

  /** `idMapping`, filled by the second `forEach`: template id to new id,
      a later component overriding an earlier one with the same id. */
  function IdMapping(cs: seq<Component>, base: nat): (m: map<Id, Id>)
    ensures forall i :: 0 <= i < |cs| ==> cs[i].id in m
  {
    if cs == [] then map[]
    else
      var front := cs[..|cs| - 1];
      assert forall i :: 0 <= i < |cs| - 1 ==> cs[i] == front[i];
      IdMapping(front, base)[cs[|cs| - 1].id := Generated(base + |cs| - 1)]
  }

  /** With distinct template ids, `idMapping` sends the i-th template id to
      the i-th new id. */
  lemma {:induction false} IdMappingAt(cs: seq<Component>, base: nat, i: nat)
    requires IdsDistinct(cs)
    requires i < |cs|
    ensures IdMapping(cs, base)[cs[i].id] == Generated(base + i)
  {
    if i < |cs| - 1 {
      var front := cs[..|cs| - 1];
      assert front[i] == cs[i];
      assert ComponentId(cs[i]) != ComponentId(cs[|cs| - 1]);
      assert IdsDistinct(front) by {
        forall a, b | 0 <= a < b < |front| ensures ComponentId(front[a]) != ComponentId(front[b]) {
          assert front[a] == cs[a] && front[b] == cs[b];
        }
      }
      IdMappingAt(front, base, i);
    }
  }

  /** `template.connections.map(conn => ({ ...conn, id: <fresh>, from: idMapping[conn.from], to: idMapping[conn.to] }))`. */
  function Remap(es: seq<Connection>, m: map<Id, Id>, base: nat): (r: seq<Connection>)
    requires forall k :: 0 <= k < |es| ==> es[k].from in m && es[k].to in m
    ensures |r| == |es|
    ensures forall k :: 0 <= k < |es| ==>
      r[k] == es[k].(id := Generated(base + k), from := m[es[k].from], to := m[es[k].to])
  {
    seq(|es|, k requires 0 <= k < |es| =>
      es[k].(id := Generated(base + k), from := m[es[k].from], to := m[es[k].to]))
  }

  /** What a template must satisfy to be loaded: at least one component,
      distinct component ids, connections between its own components, and
      no repeated (from, to) pair. All built-in templates satisfy it. */
  predicate WellFormedTemplate(t: Template)
  {
    && |t.components| > 0
    && IdsDistinct(t.components)
    && EdgesClosed(t.components, t.connections)
    && PairsDistinct(t.connections)
  }

  /** Translating every component translates the bounding box. */
  lemma {:induction false} BoundsTranslate(cs: seq<Component>, dx: real, dy: real, base: nat)
    requires |cs| > 0
    ensures Bounds(Instantiate(cs, dx, dy, base)) ==
      Box(Bounds(cs).minX + dx, Bounds(cs).minY + dy, Bounds(cs).maxX + dx, Bounds(cs).maxY + dy)
  {
    var r := Instantiate(cs, dx, dy, base);
    if |cs| > 1 {
      var front := cs[..|cs| - 1];
      var placedFront := Instantiate(front, dx, dy, base);
      assert r[..|r| - 1] == placedFront by {
        forall i | 0 <= i < |placedFront| ensures r[..|r| - 1][i] == placedFront[i] {
          assert front[i] == cs[i];
        }
      }
      BoundsTranslate(front, dx, dy, base);
      assert BoxOf(r[|r| - 1]) == Box(BoxOf(cs[|cs| - 1]).minX + dx, BoxOf(cs[|cs| - 1]).minY + dy,
                                      BoxOf(cs[|cs| - 1]).maxX + dx, BoxOf(cs[|cs| - 1]).maxY + dy);
    }
  }

  /** Placement is a uniform translation: the distance between any two
      placed components is the distance in the template. */
  lemma InstantiateKeepsLayout(cs: seq<Component>, dx: real, dy: real, base: nat, i: nat, j: nat)
    requires i < |cs| && j < |cs|
    ensures Instantiate(cs, dx, dy, base)[i].x - Instantiate(cs, dx, dy, base)[j].x == cs[i].x - cs[j].x
    ensures Instantiate(cs, dx, dy, base)[i].y - Instantiate(cs, dx, dy, base)[j].y == cs[i].y - cs[j].y
  {
  }

  // ---------------------------------------------------------------------
  // Invariants the editor keeps

  /** A serial at or above the bound is not used by any component. */
  lemma FreshSerialUnused(cs: seq<Component>, es: seq<Connection>, n: nat)
    requires SerialsBelow(cs, es, n)
    ensures !HasId(cs, Generated(n))
  {
  }

  /** Appending a component with an unused id keeps ids distinct and keeps
      every connection attached. */
  lemma AppendComponentKeepsInvariants(cs: seq<Component>, es: seq<Connection>, c: Component)
    requires !HasId(cs, c.id)
    ensures IdsDistinct(cs) ==> IdsDistinct(cs + [c])
    ensures EdgesClosed(cs, es) ==> EdgesClosed(cs + [c], es)
  {
    var cs' := cs + [c];
    if IdsDistinct(cs) {
      forall i, j | 0 <= i < j < |cs'| ensures ComponentId(cs'[i]) != ComponentId(cs'[j]) {
        if j == |cs| {
          assert cs'[i] == cs[i];
        } else {
          assert cs'[i] == cs[i] && cs'[j] == cs[j];
        }
      }
    }
    if EdgesClosed(cs, es) {
      forall k | 0 <= k < |es| ensures HasId(cs', es[k].from) && HasId(cs', es[k].to) {
        var a :| 0 <= a < |cs| && cs[a].id == es[k].from;
        var b :| 0 <= b < |cs| && cs[b].id == es[k].to;
        assert cs'[a] == cs[a] && cs'[b] == cs[b];
      }
    }
  }

  /** Appending a connection for a new (from, to) pair keeps pairs distinct. */
  /** A serial at the bound is the id of no connection. */
  lemma SerialAtBoundIsFresh(es: seq<Connection>, bound: nat)
    requires ConnectionSerialsBelow(es, bound)
    ensures forall k :: 0 <= k < |es| ==> es[k].id != Generated(bound)
  {
    forall k | 0 <= k < |es| ensures es[k].id != Generated(bound) {
      if es[k].id.Generated? {
        assert es[k].id.serial < bound;
      }
    }
  }

  /** Appending a connection whose id no connection has keeps ids distinct. */
  lemma AppendConnectionKeepsIdsDistinct(es: seq<Connection>, e: Connection)
    requires ConnIdsDistinct(es)
    requires forall k :: 0 <= k < |es| ==> es[k].id != e.id
    ensures ConnIdsDistinct(es + [e])
  {
    var es' := es + [e];
    forall i, j | 0 <= i < j < |es'| ensures ConnectionId(es'[i]) != ConnectionId(es'[j]) {
      assert es'[i] == es[i];
      if j < |es| {
        assert es'[j] == es[j];
      }
    }
  }

  lemma AppendConnectionKeepsPairsDistinct(es: seq<Connection>, e: Connection)
    requires PairsDistinct(es)
    requires !ConnectionExists(es, e.from, e.to)
    ensures PairsDistinct(es + [e])
  {
    var es' := es + [e];
    forall i, j | 0 <= i < j < |es'| ensures Endpoints(es'[i]) != Endpoints(es'[j]) {
      assert es'[i] == es[i];
      if j < |es| {
        assert es'[j] == es[j];
      }
    }
  }

  /** The transforms that only drop elements keep the serial bound. */
  lemma FilterKeepsSerialsBelow(cs: seq<Component>, es: seq<Connection>, cs': seq<Component>,
                                es': seq<Connection>, n: nat)
    requires SerialsBelow(cs, es, n)
    requires forall i :: 0 <= i < |cs'| ==> cs'[i] in cs
    requires forall k :: 0 <= k < |es'| ==> es'[k] in es
    ensures SerialsBelow(cs', es', n)
  {
  }

  /** The components a template adds get ids no existing component has, and
      distinct from each other. */
  lemma LoadKeepsIdsDistinct(cs: seq<Component>, es: seq<Connection>, tcs: seq<Component>,
                             dx: real, dy: real, base: nat)
    requires SerialsBelow(cs, es, base)
    requires IdsDistinct(cs)
    ensures IdsDistinct(cs + Instantiate(tcs, dx, dy, base))
  {
    var placed := Instantiate(tcs, dx, dy, base);
    var all := cs + placed;
    forall i, j | 0 <= i < j < |all| ensures ComponentId(all[i]) != ComponentId(all[j]) {
      if j < |cs| {
        assert all[i] == cs[i] && all[j] == cs[j];
      } else if i < |cs| {
        assert all[i] == cs[i] && all[j] == placed[j - |cs|];
      } else {
        assert all[i] == placed[i - |cs|] && all[j] == placed[j - |cs|];
      }
    }
  }

  /** Every connection a template adds joins two of the components it adds. */
  lemma {:induction false} LoadKeepsEdgesClosed(cs: seq<Component>, es: seq<Connection>, t: Template,
                                                dx: real, dy: real, base: nat)
    requires WellFormedTemplate(t)
    requires EdgesClosed(cs, es)
    ensures
      var m := IdMapping(t.components, base);
      EdgesClosed(cs + Instantiate(t.components, dx, dy, base),
                  es + Remap(t.connections, m, base + |t.components|))
  {
    var m := IdMapping(t.components, base);
    var placed := Instantiate(t.components, dx, dy, base);
    var added := Remap(t.connections, m, base + |t.components|);
    var cs', es' := cs + placed, es + added;
    forall k | 0 <= k < |es'| ensures HasId(cs', es'[k].from) && HasId(cs', es'[k].to) {
      if k < |es| {
        assert es'[k] == es[k];
        var a :| 0 <= a < |cs| && cs[a].id == es[k].from;
        var b :| 0 <= b < |cs| && cs[b].id == es[k].to;
        assert cs'[a] == cs[a] && cs'[b] == cs[b];
      } else {
        var e := t.connections[k - |es|];
        assert es'[k] == added[k - |es|];
        var a :| 0 <= a < |t.components| && t.components[a].id == e.from;
        var b :| 0 <= b < |t.components| && t.components[b].id == e.to;
        IdMappingAt(t.components, base, a);
        IdMappingAt(t.components, base, b);
        assert cs'[|cs| + a] == placed[a] && cs'[|cs| + b] == placed[b];
      }
    }
  }

  /** Where the `k`-th template connection's ends land: at the new ids of
      the template components `a` and `b` it joins. */
  lemma RemappedEnds(t: Template, base: nat, k: nat) returns (a: nat, b: nat)
    requires WellFormedTemplate(t) && k < |t.connections|
    ensures a < |t.components| && b < |t.components|
    ensures t.components[a].id == t.connections[k].from && t.components[b].id == t.connections[k].to
    ensures IdMapping(t.components, base)[t.connections[k].from] == Generated(base + a)
    ensures IdMapping(t.components, base)[t.connections[k].to] == Generated(base + b)
  {
    var e := t.connections[k];
    a :| 0 <= a < |t.components| && t.components[a].id == e.from;
    b :| 0 <= b < |t.components| && t.components[b].id == e.to;
    IdMappingAt(t.components, base, a);
    IdMappingAt(t.components, base, b);
  }

  /** A connection a template adds starts at a serial from `base` on, so it
      differs from every existing connection, whose serials are below. */
  lemma AddedPairIsNew(es: seq<Connection>, t: Template, base: nat, i: nat, k: nat)
    requires WellFormedTemplate(t)
    requires ConnectionSerialsBelow(es, base)
    requires i < |es| && k < |t.connections|
    ensures
      var added := Remap(t.connections, IdMapping(t.components, base), base + |t.components|);
      Endpoints(es[i]) != Endpoints(added[k])
  {
    var a, b := RemappedEnds(t, base, k);
    assert es[i].from.Generated? ==> es[i].from.serial < base;
  }

  /** Two connections a template adds join different pairs, since the
      template's own pairs differ and the id mapping is injective. */
  lemma AddedPairsDiffer(t: Template, base: nat, k: nat, l: nat)
    requires WellFormedTemplate(t)
    requires k < l < |t.connections|
    ensures
      var added := Remap(t.connections, IdMapping(t.components, base), base + |t.components|);
      Endpoints(added[k]) != Endpoints(added[l])
  {
    var a, b := RemappedEnds(t, base, k);
    var a', b' := RemappedEnds(t, base, l);
    assert Endpoints(t.connections[k]) != Endpoints(t.connections[l]);
  }

  /** The connections a template adds repeat no (from, to) pair, neither
      among themselves nor with the existing connections. */
  /** The connections a template adds get ids no existing connection has,
      and distinct from each other. */
  lemma LoadKeepsConnIdsDistinct(cs: seq<Component>, es: seq<Connection>, t: Template, base: nat)
    requires WellFormedTemplate(t)
    requires SerialsBelow(cs, es, base)
    requires ConnIdsDistinct(es)
    ensures ConnIdsDistinct(es + Remap(t.connections, IdMapping(t.components, base), base + |t.components|))
  {
    var n := base + |t.components|;
    var added := Remap(t.connections, IdMapping(t.components, base), n);
    var es' := es + added;
    forall i, j | 0 <= i < j < |es'| ensures ConnectionId(es'[i]) != ConnectionId(es'[j]) {
      if j < |es| {
        assert es'[i] == es[i] && es'[j] == es[j];
      } else if i < |es| {
        assert es'[i] == es[i] && es'[j] == added[j - |es|];
        assert es'[j].id == Generated(n + (j - |es|));
      } else {
        assert es'[i] == added[i - |es|] && es'[j] == added[j - |es|];
        assert es'[i].id == Generated(n + (i - |es|)) && es'[j].id == Generated(n + (j - |es|));
      }
    }
  }

  lemma LoadKeepsPairsDistinct(cs: seq<Component>, es: seq<Connection>, t: Template, base: nat)
    requires WellFormedTemplate(t)
    requires SerialsBelow(cs, es, base)
    requires PairsDistinct(es)
    ensures PairsDistinct(es + Remap(t.connections, IdMapping(t.components, base), base + |t.components|))
  {
    var added := Remap(t.connections, IdMapping(t.components, base), base + |t.components|);
    var es' := es + added;
    forall i, j | 0 <= i < j < |es'| ensures Endpoints(es'[i]) != Endpoints(es'[j]) {
      if j < |es| {
        assert es'[i] == es[i] && es'[j] == es[j];
      } else if i < |es| {
        assert es'[i] == es[i] && es'[j] == added[j - |es|];
        AddedPairIsNew(es, t, base, i, j - |es|);
      } else {
        assert es'[i] == added[i - |es|] && es'[j] == added[j - |es|];
        AddedPairsDiffer(t, base, i - |es|, j - |es|);
      }
    }
  }

  /** After loading, every serial in use is below the advanced counter. */
  lemma {:induction false} LoadKeepsSerialsBelow(cs: seq<Component>, es: seq<Connection>, t: Template,
                                                 dx: real, dy: real, base: nat)
    requires WellFormedTemplate(t)
    requires SerialsBelow(cs, es, base)
    ensures
      var n := base + |t.components|;
      SerialsBelow(cs + Instantiate(t.components, dx, dy, base),
                   es + Remap(t.connections, IdMapping(t.components, base), n),
                   n + |t.connections|)
  {
    var n := base + |t.components|;
    PlacedSerialsBelow(cs, t.components, dx, dy, base, n + |t.connections|);
    RemappedSerialsBelow(es, t, base);
  }

  lemma PlacedSerialsBelow(cs: seq<Component>, tcs: seq<Component>, dx: real, dy: real, base: nat, bound: nat)
    requires ComponentSerialsBelow(cs, base)
    requires base + |tcs| <= bound
    ensures ComponentSerialsBelow(cs + Instantiate(tcs, dx, dy, base), bound)
  {
    var placed := Instantiate(tcs, dx, dy, base);
    var cs' := cs + placed;
    forall i | 0 <= i < |cs'| && cs'[i].id.Generated? ensures cs'[i].id.serial < bound {
      if i < |cs| { assert cs'[i] == cs[i]; } else { assert cs'[i] == placed[i - |cs|]; }
    }
  }

  lemma RemappedSerialsBelow(es: seq<Connection>, t: Template, base: nat)
    requires WellFormedTemplate(t)
    requires ConnectionSerialsBelow(es, base)
    ensures
      var n := base + |t.components|;
      ConnectionSerialsBelow(es + Remap(t.connections, IdMapping(t.components, base), n), n + |t.connections|)
  {
    var tcs, tes := t.components, t.connections;
    var n := base + |tcs|;
    var added := Remap(tes, IdMapping(tcs, base), n);
    var es' := es + added;
    forall k | 0 <= k < |es'|
      ensures es'[k].from.Generated? ==> es'[k].from.serial < n + |tes|
      ensures es'[k].to.Generated? ==> es'[k].to.serial < n + |tes|
      ensures es'[k].id.Generated? ==> es'[k].id.serial < n + |tes|
    {
      if k < |es| {
        assert es'[k] == es[k];
      } else {
        assert es'[k] == added[k - |es|];
        var a, b := RemappedEnds(t, base, k - |es|);
      }
    }
  }
}
