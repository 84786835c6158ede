/** The list and the ring of the flow dispatcher itself. */
module Cluster {
  import opened Words
  import opened RingSeq
  import F = FlowSpec
  import FlowRun
  import Books

  /** The ledger follows the dispatcher: the same ring over the same elements. */
  predicate Follows(b: Books.Ledger, f: F.State) {
    FlowRun.Sound(f) && b.ring == f.ring && b.n == |f.elems|
  }

  /** What an event of the ledger does to the dispatcher. */
  function FlowOf(f: F.State, b: Books.Ledger, ev: Books.Event, conn: F.Conn, maxFluxes: int8): Option<F.State>
    requires Follows(b, f) && Books.Tidy(b) && Books.Enabled(b, ev)
  {
    match ev
    case PoolAdd(_, _) => Some(F.AddStep(f, conn, maxFluxes))
    case TimedDelete(tid) => assert Books.OpOk(b, b.ops[tid]); F.DeleteStep(f, b.ops[tid].elem)
    case DropDelete(tid) => assert Books.OpOk(b, b.ops[tid]); F.DeleteStep(f, b.ops[tid].elem)
    case _ => Some(f)
  }

  /** The calls on the pool never panic and change the dispatcher's ring as the ledger says. */
  lemma LedgerFollows(f: F.State, b: Books.Ledger, ev: Books.Event, conn: F.Conn, maxFluxes: int8)
    requires Follows(b, f) && Books.Tidy(b) && Books.Enabled(b, ev)
    ensures FlowOf(f, b, ev, conn, maxFluxes).Some?
    ensures Follows(Books.Step(b, ev), FlowOf(f, b, ev, conn, maxFluxes).value)
  {
    match ev
    case PoolAdd(_, _) => FlowRun.AddSound(f, conn, maxFluxes);
    case TimedDelete(tid) =>
      assert Books.OpOk(b, b.ops[tid]);
      FlowRun.DeleteTotal(f, b.ops[tid].elem);
    case DropDelete(tid) =>
      assert Books.OpOk(b, b.ops[tid]);
      FlowRun.DeleteTotal(f, b.ops[tid].elem);
    case _ =>
  }

  /** Packets and expiries leave the ring, and so the agreement, alone. */
  lemma TrafficFollows(f: F.State, b: Books.Ledger, ev: F.Event)
    requires Follows(b, f) && F.Enabled(f, ev) && !ev.Add? && !ev.Delete? && F.Step(f, ev).Some?
    ensures Follows(b, F.Step(f, ev).value)
  {
    FlowRun.StepSound(f, ev);
  }

  /** Registration and removal, by either path, as single steps. */
  datatype Whole = Register(conn: F.Conn, maxFluxes: int8) | Remove(elem: nat)

  /** On removal the element leaves the ring, and the container it pointed at leaves the list. */
  function WholeStep(f: F.State, lst: seq<nat>, w: Whole): (r: (F.State, seq<nat>))
    requires FlowRun.Sound(f) && (w.Remove? ==> w.elem < |f.elems|)
    ensures FlowRun.Sound(r.0)
    ensures lst == f.ring ==> r.1 == r.0.ring
  {
    match w
    case Register(conn, maxFluxes) =>
      FlowRun.AddSound(f, conn, maxFluxes);
      (F.AddStep(f, conn, maxFluxes), lst + [|f.elems|])
    case Remove(e) =>
      FlowRun.DeleteTotal(f, e);
      (F.DeleteStep(f, e).value, if f.elems[e].hasContainer then Without(lst, e) else lst)
  }

  function WholeRun(f: F.State, lst: seq<nat>, ws: seq<Whole>): (r: Option<(F.State, seq<nat>)>)
    requires FlowRun.Sound(f)
    ensures r.Some? ==> FlowRun.Sound(r.value.0)
  {
    if ws == [] then Some((f, lst))
    else
      var last, before := ws[|ws| - 1], WholeRun(f, lst, ws[..|ws| - 1]);
      if before.None? || (last.Remove? && last.elem >= |before.value.0.elems|) then None
      else Some(WholeStep(before.value.0, before.value.1, last))
  }

  /** Taken whole, any sequence of operations keeps list and ring equal, in the same order. */
  lemma {:induction false} SameOrder(f: F.State, ws: seq<Whole>)
    requires FlowRun.Sound(f) && WholeRun(f, f.ring, ws).Some?
    ensures var r := WholeRun(f, f.ring, ws).value; r.1 == r.0.ring
  {
    if ws == [] {
    } else {
      SameOrder(f, ws[..|ws| - 1]);
    }
  }
}
