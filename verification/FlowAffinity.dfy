/** Two packets of one flow reach the same container, whatever the other flows do in between. */
module FlowAffinity {
  import opened Words
  import opened RingSeq
  import opened FlowSpec
  import opened FlowRun
  import FlowEffects

  predicate Holds(s: State, e: nat, crc: uint16) {
    e < |s.elems| && crc in s.elems[e].ports
  }

  /** An event that is not about the flow: no `Get` of it, no early tick, no deletion of a holder. */
  predicate Unrelated(s: State, crc: uint16, until: int, ev: Event) {
    match ev
    case Get(c, _) => c != crc
    case Tick(w, now) => w.crc == crc ==> now <= until
    case Delete(e) => !Holds(s, e, crc)
    case _ => true
  }

  /** No watcher of the flow outstanding in `s` may expire it before `until`. */
  predicate KeptUntil(s: State, crc: uint16, until: int) {
    && crc in s.usage
    && forall w :: w in s.watchers && w.crc == crc ==> until - s.usage[crc] <= w.timeout
  }

  /** The flow's entries, its timestamp, its holders and the deadlines of its watchers are those of `s`. */
  predicate SameFlow(s: State, t: State, crc: uint16, until: int) {
    && Lookup(t.crc2conn, crc) == Lookup(s.crc2conn, crc)
    && Lookup(t.crc2lock, crc) == Lookup(s.crc2lock, crc)
    && Lookup(t.crcContainer, crc) == Lookup(s.crcContainer, crc)
    && KeptUntil(t, crc, until)
    && (forall e :: 0 <= e < |t.elems| ==> (Holds(t, e, crc) <==> Holds(s, e, crc)))
  }

  lemma TickSameFlow(s: State, t: State, crc: uint16, until: int, w: Watcher, now: int)
    requires Sound(s) && Sound(t) && |s.elems| <= |t.elems| && SameFlow(s, t, crc, until)
    requires w in t.watchers && TickStep(t, w, now).Some?
    requires w.crc == crc ==> now <= until
    ensures SameFlow(s, TickStep(t, w, now).value, crc, until)
  {
  }

  /** Deleting an element without the flow in its ports leaves the flow alone. */
  lemma DeleteSameFlow(s: State, t: State, crc: uint16, until: int, e: nat)
    requires Sound(s) && Sound(t) && |s.elems| <= |t.elems| && SameFlow(s, t, crc, until)
    requires e < |t.elems| && DeleteStep(t, e).Some? && !Holds(s, e, crc)
    ensures SameFlow(s, DeleteStep(t, e).value, crc, until)
  {
    assert crc !in t.elems[e].ports;
    if e in t.ring && t.elems[e].ports != {} {
      var u := Unlink(t, e);
      MigrateSameFlow(s, u.(cursor := Succ(u.ring, u.cursor.value)), crc, until, e, u.cursor.value);
    }
  }

  lemma MigrateSameFlow(s: State, t: State, crc: uint16, until: int, e: nat, r: nat)
    requires SameFlow(s, t, crc, until) && e < |t.elems| && r < |t.elems| && crc !in t.elems[e].ports
    ensures SameFlow(s, Migrate(t, e, r), crc, until)
  {
  }

  lemma GetSameFlow(s: State, t: State, crc: uint16, until: int, c: uint16, now: int)
    requires Sound(s) && Sound(t) && |s.elems| <= |t.elems| && SameFlow(s, t, crc, until)
    requires c != crc && GetStep(t, c, now).Got?
    ensures SameFlow(s, GetStep(t, c, now).s, crc, until)
  {
  }

  lemma AddSameFlow(s: State, t: State, crc: uint16, until: int, conn: Conn, maxFluxes: int8)
    requires |s.elems| <= |t.elems| && SameFlow(s, t, crc, until)
    ensures SameFlow(s, AddStep(t, conn, maxFluxes), crc, until)
  {
    var v := AddStep(t, conn, maxFluxes);
    forall i | 0 <= i < |v.elems|
      ensures Holds(v, i, crc) <==> Holds(s, i, crc)
    {
      assert Holds(v, i, crc) <==> Holds(t, i, crc);
    }
  }

  lemma StopSameFlow(s: State, t: State, crc: uint16, until: int, w: Watcher)
    requires Sound(s) && |s.elems| <= |t.elems| && SameFlow(s, t, crc, until) && w in t.watchers
    ensures SameFlow(s, t.(watchers := t.watchers - {w}), crc, until)
  {
  }

  lemma StepSameFlow(s: State, t: State, crc: uint16, until: int, ev: Event)
    requires Sound(s) && Sound(t) && |s.elems| <= |t.elems| && SameFlow(s, t, crc, until)
    requires Enabled(t, ev) && Step(t, ev).Some? && Unrelated(s, crc, until, ev)
    ensures SameFlow(s, Step(t, ev).value, crc, until)
    ensures |s.elems| <= |Step(t, ev).value.elems|
  {
    match ev
    case Tick(w, now) => TickSameFlow(s, t, crc, until, w, now);
    case Delete(e) => DeleteSameFlow(s, t, crc, until, e);
    case Get(c, now) => GetSameFlow(s, t, crc, until, c, now);
    case Add(conn, maxFluxes) => AddSameFlow(s, t, crc, until, conn, maxFluxes);
    case Stop(w) => StopSameFlow(s, t, crc, until, w);
  }

  lemma {:induction false} RunSameFlow(s: State, crc: uint16, until: int, evs: seq<Event>)
    requires Sound(s) && KeptUntil(s, crc, until) && Run(s, evs).Some?
    requires forall ev :: ev in evs ==> Unrelated(s, crc, until, ev)
    ensures SameFlow(s, Run(s, evs).value, crc, until)
    ensures |s.elems| <= |Run(s, evs).value.elems|
  {
    if evs == [] {
    } else {
      var init := evs[..|evs| - 1];
      RunSameFlow(s, crc, until, init);
      StepSameFlow(s, Run(s, init).value, crc, until, evs[|evs| - 1]);
    }
  }

  /** The watchers of the flow, with the one a miss adds, let it be idle from `first` to `second`. */
  predicate IdleWithin(s0: State, crc: uint16, first: int, second: int)
    requires InRange(s0)
  {
    && (forall w :: w in s0.watchers && w.crc == crc ==> second - first <= w.timeout)
    && (!Hit(s0, crc) ==> second - first <= s0.fluxMaxAge)
  }

  lemma KeptAfterGet(s0: State, crc: uint16, first: int, second: int)
    requires Sound(s0) && GetStep(s0, crc, first).Got? && IdleWithin(s0, crc, first, second)
    ensures KeptUntil(GetStep(s0, crc, first).s, crc, second)
  {
    FlowEffects.GetStamps(s0, crc, first);
  }

  /**
   A second `Get` of the flow answers as the first did exactly when the container recorded for the
   flow is not over its limit by then.  The time between the two calls is within the timeout of every
   watcher of the flow, and no holder of the flow is deleted; `u` is the state before the second.
   Otherwise the second `Get` panics or hands out a new semaphore.
   */
  lemma {:induction false} FlowAffinity(s0: State, crc: uint16, first: int, evs: seq<Event>, u: State, second: int)
    requires Sound(s0) && GetStep(s0, crc, first).Got? && IdleWithin(s0, crc, first, second)
    requires Sound(GetStep(s0, crc, first).s) && Run(GetStep(s0, crc, first).s, evs) == Some(u)
    requires forall ev :: ev in evs ==> Unrelated(GetStep(s0, crc, first).s, crc, second, ev)
    ensures Sound(u) && crc in u.crcContainer
    ensures var g, h := GetStep(s0, crc, first), GetStep(u, crc, second);
            var c := u.elems[u.crcContainer[crc]];
            (h.Got? && h.conn == g.conn && h.sem == g.sem) <==> c.fluxes <= c.maxFluxes
  {
    var s := GetStep(s0, crc, first).s;
    KeptAfterGet(s0, crc, first, second);
    RunSameFlow(s, crc, second, evs);
    assert crc in s.crcContainer && crc in s.crc2conn && crc in s.crc2lock;
  }

  /** The bound on the idle gap is tight: past it a tick makes the flow's next `Get` a miss. */
  lemma IdleFlowForgotten(s: State, w: Watcher, now: int)
    requires Sound(s) && w in s.watchers && TickStep(s, w, now).Some?
    requires now - s.usage[w.crc] > w.timeout
    ensures var t := TickStep(s, w, now).value;
            && Sound(t)
            && (GetStep(t, w.crc, now).Got? ==> GetStep(t, w.crc, now).sem != Lookup(s.crc2lock, w.crc))
  {
  }
}
