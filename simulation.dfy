/** The decision rules of the pipeline simulation (`simulatePipeline`,
    `simulateComponentExecution`, `checkSimulationComplete`): which components
    start, which run next, and when and how a run ends. Timers and random
    outcomes are not here; the editor receives each outcome as an event. */
module Simulation {
  import opened Wrappers
  import opened Seqs
  import opened PipelineGraph

  /** `components.map(c => ({ ...c, status: "idle" }))`. */
  function ResetStatuses(cs: seq<Component>): (r: seq<Component>)
    ensures |r| == |cs|
    ensures forall i :: 0 <= i < |cs| ==> r[i] == cs[i].(status := Idle)
  {
    seq(|cs|, i requires 0 <= i < |cs| => cs[i].(status := Idle))
  }

  /** Some connection ends at `id`. */
  predicate HasIncoming(es: seq<Connection>, id: Id)
  {
    exists k :: 0 <= k < |es| && es[k].to == id
  }

  function IdsOf(cs: seq<Component>): (ids: seq<Id>)
    ensures |ids| == |cs|
    ensures forall i :: 0 <= i < |cs| ==> ids[i] == cs[i].id
  {
    seq(|cs|, i requires 0 <= i < |cs| => cs[i].id)
  }

  /** `components.filter(c => !connections.some(conn => conn.to === c.id)).map(c => c.id)`. */
  function SourceIds(cs: seq<Component>, es: seq<Connection>): seq<Id>
  {
    IdsOf(Filter(cs, (c: Component) => !HasIncoming(es, c.id)))
  }

  /** The sources are exactly the ids of components with no incoming
      connection, whatever their kind. */
  lemma SourceIdsExactly(cs: seq<Component>, es: seq<Connection>, id: Id)
    ensures id in SourceIds(cs, es) <==> HasId(cs, id) && !HasIncoming(es, id)
  {
    var p := (c: Component) => !HasIncoming(es, c.id);
    var f := Filter(cs, p);
    if id in SourceIds(cs, es) {
      var j :| 0 <= j < |f| && IdsOf(f)[j] == id;
      assert f[j] in cs && p(f[j]);
      var i :| 0 <= i < |cs| && cs[i] == f[j];
    }
    if HasId(cs, id) && !HasIncoming(es, id) {
      var i :| 0 <= i < |cs| && cs[i].id == id;
      assert p(cs[i]);
      assert cs[i] in f;
      var j :| 0 <= j < |f| && f[j] == cs[i];
      assert IdsOf(f)[j] == id;
    }
  }

  /** When every component has an incoming connection (a cycle, say), there
      is no source and the run aborts. */
  lemma NoSourceWhenAllFed(cs: seq<Component>, es: seq<Connection>)
    requires forall i :: 0 <= i < |cs| ==> HasIncoming(es, cs[i].id)
    ensures SourceIds(cs, es) == []
  {
  }

  /** `prev.map(c => componentIds.includes(c.id) ? { ...c, status: "running" } : c)`. */
  function MarkRunning(cs: seq<Component>, ids: seq<Id>): (r: seq<Component>)
    ensures |r| == |cs|
    ensures forall i :: 0 <= i < |cs| ==> r[i] == if cs[i].id in ids then cs[i].(status := Running) else cs[i]
  {
    seq(|cs|, i requires 0 <= i < |cs| => if cs[i].id in ids then cs[i].(status := Running) else cs[i])
  }

  /** `prev.map(c => c.id === id ? { ...c, status } : c)`. */
  function SetStatus(cs: seq<Component>, id: Id, st: Status): (r: seq<Component>)
    ensures |r| == |cs|
    ensures forall i :: 0 <= i < |cs| ==> r[i] == if cs[i].id == id then cs[i].(status := st) else cs[i]
  {
    seq(|cs|, i requires 0 <= i < |cs| => if cs[i].id == id then cs[i].(status := st) else cs[i])
  }

  /** `connections.filter(conn => conn.from === id).map(conn => conn.to)`: the
      next frontier after `id` succeeds. */
  function Targets(es: seq<Connection>, id: Id): (ts: seq<Id>)
  {
    var out := Filter(es, (e: Connection) => e.from == id);
    seq(|out|, k requires 0 <= k < |out| => out[k].to)
  }

  /** The next frontier is exactly the targets of the outgoing connections. */
  lemma TargetsExactly(es: seq<Connection>, id: Id, t: Id)
    ensures t in Targets(es, id) <==> exists k :: 0 <= k < |es| && es[k].from == id && es[k].to == t
  {
    var p := (e: Connection) => e.from == id;
    var out := Filter(es, p);
    if t in Targets(es, id) {
      var j :| 0 <= j < |out| && out[j].to == t;
      assert out[j] in es && p(out[j]);
      var k :| 0 <= k < |es| && es[k] == out[j];
    }
    if exists k :: 0 <= k < |es| && es[k].from == id && es[k].to == t {
      var k :| 0 <= k < |es| && es[k].from == id && es[k].to == t;
      assert p(es[k]);
      assert es[k] in out;
      var j :| 0 <= j < |out| && out[j] == es[k];
      assert Targets(es, id)[j] == t;
    }
  }

  /** `prev.every(c => c.status !== "idle" && c.status !== "running")`. */
  predicate AllProcessed(cs: seq<Component>)
  {
    forall i :: 0 <= i < |cs| ==> cs[i].status != Idle && cs[i].status != Running
  }

  /** `prev.every(c => c.status !== "error")`. */
  predicate AllSucceeded(cs: seq<Component>)
  {
    forall i :: 0 <= i < |cs| ==> cs[i].status != Error
  }

  datatype RunOutcome = Completed | Failed

  /** `checkSimulationComplete`: `None` while the run goes on; otherwise the
      run has ended, successfully exactly when no component is in error. */
  function CheckComplete(cs: seq<Component>): (r: Option<RunOutcome>)
    ensures r.Some? <==> forall i :: 0 <= i < |cs| ==> cs[i].status !in {Idle, Running}
    ensures r == Some(Completed) <==>
      forall i :: 0 <= i < |cs| ==> cs[i].status !in {Idle, Running, Error}
    ensures r == Some(Failed) <==>
      (forall i :: 0 <= i < |cs| ==> cs[i].status !in {Idle, Running}) &&
      exists i :: 0 <= i < |cs| && cs[i].status == Error
  {
    if AllProcessed(cs) then Some(if AllSucceeded(cs) then Completed else Failed) else None
  }

  /** After the run starts (as intended), every source is running and every
      other component is idle; no component keeps an earlier status. */
  lemma StartMarksExactlySources(cs: seq<Component>, es: seq<Connection>, i: nat)
    requires i < |cs|
    ensures
      var started := MarkRunning(ResetStatuses(cs), SourceIds(cs, es));
      started[i].status == (if HasIncoming(es, cs[i].id) then Idle else Running)
  {
    SourceIdsExactly(cs, es, cs[i].id);
    assert ResetStatuses(cs)[i].id == cs[i].id;
  }

  /** A started run is never already complete: a freshly started graph has
      a running source. */
  lemma StartedRunIsPending(cs: seq<Component>, es: seq<Connection>)
    requires SourceIds(cs, es) != []
    ensures CheckComplete(MarkRunning(ResetStatuses(cs), SourceIds(cs, es))) == None
  {
    var ids := SourceIds(cs, es);
    SourceIdsExactly(cs, es, ids[0]);
    var i :| 0 <= i < |cs| && cs[i].id == ids[0];
    StartMarksExactlySources(cs, es, i);
  }

  // ---------------------------------------------------------------------
  // The guard of `simulateComponentExecution` as written

  /** `simulateComponentExecution` as written: it does nothing unless the
      `isSimulating` value captured when the handler was rendered is true. */
  function LaunchAsWritten(renderedFlag: bool, cs: seq<Component>, frontier: seq<Id>): seq<Component>
  {
    if !renderedFlag then cs else MarkRunning(cs, frontier)
  }

  /** `simulatePipeline` is only reachable from the Run button while the
      rendered flag is false (the same button calls `stopSimulation` while
      it is true), and it calls `simulateComponentExecution` synchronously,
      before React re-renders with the new flag. So as written the sources
      are never marked running, no timer is scheduled, and the run can never
      complete: one component, no connections, stays idle forever. */
  lemma {:induction false} StartAsWrittenNeverRuns(c: Component)
    ensures
      var cs := [c];
      var started := LaunchAsWritten(false, ResetStatuses(cs), SourceIds(cs, []));
      SourceIds(cs, []) == [c.id] && started[0].status == Idle && CheckComplete(started) == None
  {
    var cs := [c];
    assert !HasIncoming([], c.id);
    assert Filter(cs, (x: Component) => !HasIncoming([], x.id)) == cs;
  }
}
