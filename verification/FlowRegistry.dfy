/** What an element is registered with, over whole runs. */
module FlowRegistry {
  import opened Words
  import opened RingSeq
  import opened FlowSpec
  import opened FlowRun

  /** The connections and limits registered in a run, in order. */
  function Adds(evs: seq<Event>): seq<(Conn, int8)> {
    if evs == [] then []
    else
      var last := evs[|evs| - 1];
      Adds(evs[..|evs| - 1]) + if last.Add? then [(last.conn, last.maxFluxes)] else []
  }

  function DeletesOf(evs: seq<Event>, e: nat): nat {
    if evs == [] then 0
    else DeletesOf(evs[..|evs| - 1], e) + if evs[|evs| - 1] == Delete(e) then 1 else 0
  }

  /** Element `e` was registered with `conn` and `limit` and has been deleted `k` times. */
  predicate Carries(s: State, e: nat, conn: Conn, limit: int8, k: nat) {
    && e < |s.elems|
    && s.elems[e].maxFluxes == limit
    && s.elems[e].conn == (if k >= 2 then NilConn else conn)
    && (e in s.ring <==> k == 0)
  }

  /** A first `Delete` touches no connection and no limit. */
  lemma FirstDeleteKeepsConns(s: State, d: nat)
    requires Sound(s) && d in s.ring && DeleteStep(s, d).Some?
    ensures |DeleteStep(s, d).value.elems| == |s.elems|
    ensures forall e :: 0 <= e < |s.elems| ==>
              && DeleteStep(s, d).value.elems[e].conn == s.elems[e].conn
              && DeleteStep(s, d).value.elems[e].maxFluxes == s.elems[e].maxFluxes
  {
  }

  lemma DeleteCarries(s: State, d: nat, e: nat, conn: Conn, limit: int8, k: nat)
    requires Sound(s) && d < |s.elems| && DeleteStep(s, d).Some? && Carries(s, e, conn, limit, k)
    ensures Carries(DeleteStep(s, d).value, e, conn, limit, k + if d == e then 1 else 0)
  {
    WithoutMembers(s.ring, d);
    if d in s.ring {
      var t := DeleteStep(s, d).value;
      FirstDeleteKeepsConns(s, d);
      assert t.ring == Without(s.ring, d) by { DeleteTotal(s, d); }
      assert t.elems[e].conn == s.elems[e].conn && t.elems[e].maxFluxes == s.elems[e].maxFluxes;
    }
  }

  lemma StepCarries(s: State, ev: Event, e: nat, conn: Conn, limit: int8, k: nat)
    requires Sound(s) && Enabled(s, ev) && Step(s, ev).Some? && Carries(s, e, conn, limit, k)
    ensures Carries(Step(s, ev).value, e, conn, limit, k + if ev == Delete(e) then 1 else 0)
  {
    if ev.Delete? {
      DeleteCarries(s, ev.e, e, conn, limit, k);
    }
  }

  lemma StepRegisters(s: State, ev: Event)
    requires Sound(s) && Enabled(s, ev) && Step(s, ev).Some?
    ensures |Step(s, ev).value.elems| == |s.elems| + if ev.Add? then 1 else 0
    ensures ev.Add? ==> Carries(Step(s, ev).value, |s.elems|, ev.conn, ev.maxFluxes, 0)
    ensures forall e: nat :: ev == Delete(e) ==> e < |s.elems|
  {
    if ev.Delete? {
      DeleteTotal(s, ev.e);
    }
  }

  /** The registrations and deletions so far account for element `i`. */
  predicate Accounted(s: State, adds: seq<(Conn, int8)>, dels: nat, i: nat) {
    && |s.elems| == |adds|
    && if i < |adds| then Carries(s, i, adds[i].0, adds[i].1, dels) else dels == 0
  }

  lemma StepAccounted(s: State, ev: Event, adds: seq<(Conn, int8)>, dels: nat, i: nat)
    requires Sound(s) && Enabled(s, ev) && Step(s, ev).Some? && Accounted(s, adds, dels, i)
    ensures Accounted(Step(s, ev).value, adds + if ev.Add? then [(ev.conn, ev.maxFluxes)] else [],
                      dels + if ev == Delete(i) then 1 else 0, i)
  {
    StepRegisters(s, ev);
    if i < |adds| {
      StepCarries(s, ev, i, adds[i].0, adds[i].1, dels);
    }
  }

  /**
   Over every run, element `i` has the limit of the `i`-th registration and its connection, which is nil
   once the element was deleted again; and it is a member until it is deleted.
   */
  lemma {:induction false} RegisteredAs(fluxMaxAge: int, evs: seq<Event>, s: State, i: nat)
    requires Run(Init(fluxMaxAge), evs) == Some(s)
    ensures |s.elems| == |Adds(evs)|
    ensures i < |s.elems| ==> Carries(s, i, Adds(evs)[i].0, Adds(evs)[i].1, DeletesOf(evs, i))
    ensures i >= |s.elems| ==> DeletesOf(evs, i) == 0
  {
    if evs == [] {
    } else {
      var init, last := evs[..|evs| - 1], evs[|evs| - 1];
      var before := Run(Init(fluxMaxAge), init).value;
      RegisteredAs(fluxMaxAge, init, before, i);
      StepAccounted(before, last, Adds(init), DeletesOf(init, i), i);
    }
  }
}
