/** When the flow table names only members, or elements whose flows are still to be moved, under interleaving. */
module SectionRouting {
  import opened Words
  import opened FlowSections

  /** A goroutine in `Delete` that has taken its element off the ring and has the flows still to move. */
  predicate PreMove(th: Thread) {
    th.DeleteStop? || th.DeleteTest? || th.DeletePick? || th.DeleteMove?
  }

  predicate Deletes(th: Thread, e: nat) {
    PreMove(th) && th.elem == e
  }

  predicate Deleting(s: Shared, e: nat) {
    exists t :: t in s.threads && Deletes(s.threads[t], e)
  }

  /** A table entry is good while its element is live, and then until the flows of the element move on. */
  predicate Covered(s: Shared, crc: uint16, e: nat) {
    e in s.pool.live || (Deleting(s, e) && crc in PortsOf(s, e))
  }

  predicate Routed(s: Shared) {
    forall crc :: crc in s.crc2conn ==> Covered(s, crc, s.crc2conn[crc])
  }

  /** A goroutine other than `tid` will still move flow `crc` off `e`. */
  predicate MovedByOther(s: Shared, tid: nat, crc: uint16, e: nat) {
    crc in PortsOf(s, e) && exists t :: t in s.threads && t != tid && Deletes(s.threads[t], e)
  }

  /**
   The three sections that can leave a table entry on an element nobody will move it off:
   entering an element that is off the ring and has its move behind it or left without one;
   moving a flow to an element that is off the ring and will not move it on;
   taking an element off the ring while a flow moved to it is not in its ports yet.
   */
  predicate Strays(s: Shared, ev: Event) {
    ev.Run? && ev.tid in s.threads &&
    match s.threads[ev.tid]
    case GetEnter(_, e) => e !in s.pool.live && !Deleting(s, e)
    case DeleteMove(e, r) => r !in s.pool.live && exists p :: p in PortsOf(s, e) && !MovedByOther(s, ev.tid, p, r)
    case DeleteUnlink(e) =>
      e in s.pool.live && exists crc :: crc in s.crc2conn && s.crc2conn[crc] == e && crc !in PortsOf(s, e)
    case _ => false
  }

  /** No goroutine that still has flows of `e` to move is lost from `s` to `t`. */
  predicate MoversKept(s: Shared, t: Shared) {
    forall x :: x in s.threads && PreMove(s.threads[x]) ==> x in t.threads && Deletes(t.threads[x], s.threads[x].elem)
  }

  lemma StillDeleting(s: Shared, t: Shared, e: nat)
    requires MoversKept(s, t) && Deleting(s, e)
    ensures Deleting(t, e)
  {
    var x :| x in s.threads && Deletes(s.threads[x], e);
    assert x in t.threads && Deletes(t.threads[x], e);
  }

  /** A step that adds no entry, takes nothing off the ring and loses no mover keeps the routing. */
  lemma QuietRouted(s: Shared, t: Shared)
    requires Routed(s) && MoversKept(s, t) && s.pool.live <= t.pool.live
    requires forall crc :: crc in t.crc2conn ==> crc in s.crc2conn && t.crc2conn[crc] == s.crc2conn[crc]
    requires forall e :: e in s.ports ==> s.ports[e] <= PortsOf(t, e)
    ensures Routed(t)
  {
    forall crc | crc in t.crc2conn
      ensures Covered(t, crc, t.crc2conn[crc])
    {
      var e := s.crc2conn[crc];
      assert Covered(s, crc, e);
      if e !in s.pool.live {
        StillDeleting(s, t, e);
      }
    }
  }

  lemma EnterRoutedIff(s: Shared, ev: Event)
    requires Grounded(s) && Routed(s) && ev.Run? && Exec(s, ev).Some? && s.threads[ev.tid].GetEnter?
    ensures Routed(Exec(s, ev).value) <==> !Strays(s, ev)
  {
    var th, t := s.threads[ev.tid], Exec(s, ev).value;
    assert Placed(s, th);
    assert MoversKept(s, t) && MoversKept(t, s);
    if Deleting(s, th.elem) {
      StillDeleting(s, t, th.elem);
    } else if Deleting(t, th.elem) {
      StillDeleting(t, s, th.elem);
    }
    assert th.crc in t.crc2conn && t.crc2conn[th.crc] == th.elem;
    forall crc | crc in t.crc2conn && crc != th.crc
      ensures Covered(t, crc, t.crc2conn[crc])
    {
      assert Covered(s, crc, s.crc2conn[crc]);
      if s.crc2conn[crc] !in s.pool.live {
        StillDeleting(s, t, s.crc2conn[crc]);
      }
    }
  }

  lemma UnlinkRoutedIff(s: Shared, ev: Event)
    requires Grounded(s) && Routed(s) && ev.Run? && Exec(s, ev).Some? && s.threads[ev.tid].DeleteUnlink?
    requires s.threads[ev.tid].elem in s.pool.live
    ensures Routed(Exec(s, ev).value) <==> !Strays(s, ev)
  {
    var e, t := s.threads[ev.tid].elem, Exec(s, ev).value;
    assert MoversKept(s, t) && Deletes(t.threads[ev.tid], e);
    forall crc | crc in s.crc2conn
      ensures Covered(t, crc, s.crc2conn[crc]) <==> s.crc2conn[crc] != e || crc in PortsOf(s, e)
    {
      assert Covered(s, crc, s.crc2conn[crc]);
      if s.crc2conn[crc] !in s.pool.live {
        StillDeleting(s, t, s.crc2conn[crc]);
      }
    }
  }

  /** After the move of `e` exactly the other goroutines are left to move flows of `x`. */
  lemma DeletingAfterMove(s: Shared, ev: Event, x: nat)
    requires ev.Run? && Exec(s, ev).Some? && s.threads[ev.tid].DeleteMove?
    ensures Deleting(Exec(s, ev).value, x) <==>
            exists t :: t in s.threads && t != ev.tid && Deletes(s.threads[t], x)
  {
    var v := Exec(s, ev).value;
    if y :| y in s.threads && y != ev.tid && Deletes(s.threads[y], x) {
      assert Deletes(v.threads[y], x);
    }
    if y :| y in v.threads && Deletes(v.threads[y], x) {
      assert y != ev.tid && Deletes(s.threads[y], x);
    }
  }

  lemma MoveRoutedIff(s: Shared, ev: Event)
    requires Grounded(s) && Routed(s) && ev.Run? && Exec(s, ev).Some? && s.threads[ev.tid].DeleteMove?
    ensures Routed(Exec(s, ev).value) <==> !Strays(s, ev)
  {
    var e, r, t := s.threads[ev.tid].elem, s.threads[ev.tid].target, Exec(s, ev).value;
    assert Placed(s, s.threads[ev.tid]);
    DeletingAfterMove(s, ev, r);
    forall crc | crc in t.crc2conn
      ensures Covered(t, crc, t.crc2conn[crc]) <==>
              crc !in PortsOf(s, e) || r in s.pool.live || MovedByOther(s, ev.tid, crc, r)
    {
      if crc !in PortsOf(s, e) {
        assert Covered(s, crc, s.crc2conn[crc]);
        DeletingAfterMove(s, ev, s.crc2conn[crc]);
      }
    }
    assert forall p :: p in PortsOf(s, e) ==> p in t.crc2conn;
  }

  /** Leaving early on empty ports loses no entry. */
  lemma TestRouted(s: Shared, ev: Event)
    requires Grounded(s) && Routed(s) && ev.Run? && Exec(s, ev).Some? && s.threads[ev.tid].DeleteTest?
    ensures Routed(Exec(s, ev).value)
  {
    var e, t := s.threads[ev.tid].elem, Exec(s, ev).value;
    assert Placed(s, s.threads[ev.tid]);
    forall crc | crc in t.crc2conn
      ensures Covered(t, crc, t.crc2conn[crc])
    {
      var x := s.crc2conn[crc];
      assert Covered(s, crc, x);
      if x !in s.pool.live {
        var y :| y in s.threads && Deletes(s.threads[y], x);
        assert y in t.threads && Deletes(t.threads[y], x);
      }
    }
  }

  lemma PutKeepsMovers(s: Shared, t: Shared, tid: nat, th: Thread)
    requires tid in s.threads && t.threads == s.threads
    requires PreMove(s.threads[tid]) ==> Deletes(th, s.threads[tid].elem)
    ensures MoversKept(s, Put(t, tid, th))
  {
  }

  /** The sections that touch neither the table's connections nor the ring, and are not the early exit. */
  predicate Quiet(s: Shared, th: Thread) {
    !th.GetEnter? && !(th.DeleteUnlink? && th.elem in s.pool.live) && !th.DeleteMove? && !th.DeleteTest?
  }

  lemma QuietEffect(s: Shared, th: Thread, now: int)
    requires Quiet(s, th)
    ensures Effect(s, th, now).crc2conn == s.crc2conn && Effect(s, th, now).pool.live == s.pool.live
  {
  }

  lemma QuietMover(s: Shared, th: Thread, picked: Option<nat>, roomy: bool)
    requires Quiet(s, th) && PreMove(th)
    ensures Deletes(After(s, th, picked, roomy), th.elem)
  {
  }

  lemma QuietSection(s: Shared, ev: Event)
    requires Routed(s) && ev.Run? && Exec(s, ev).Some? && Quiet(s, s.threads[ev.tid])
    ensures Routed(Exec(s, ev).value)
  {
    var th := s.threads[ev.tid];
    var t, after := Effect(s, th, ev.now), After(s, th, ev.picked, ev.roomy);
    EffectGrows(s, th, ev.now);
    QuietEffect(s, th, ev.now);
    if PreMove(th) {
      QuietMover(s, th, ev.picked, ev.roomy);
    }
    PutKeepsMovers(s, t, ev.tid, after);
    QuietRouted(s, Put(t, ev.tid, after));
  }

  lemma QuietEvent(s: Shared, ev: Event)
    requires Routed(s) && !ev.Run? && Exec(s, ev).Some?
    ensures Routed(Exec(s, ev).value)
  {
    var t := Exec(s, ev).value;
    assert forall x :: x in s.threads ==> x in t.threads && t.threads[x] == s.threads[x];
    QuietRouted(s, t);
  }

  /** Under any interleaving a section keeps the routing exactly when it is not one of the three. */
  lemma StepRoutedIff(s: Shared, ev: Event)
    requires Grounded(s) && Routed(s) && Exec(s, ev).Some?
    ensures Routed(Exec(s, ev).value) <==> !Strays(s, ev)
  {
    if !ev.Run? {
      QuietEvent(s, ev);
    } else if s.threads[ev.tid].GetEnter? {
      EnterRoutedIff(s, ev);
    } else if s.threads[ev.tid].DeleteUnlink? && s.threads[ev.tid].elem in s.pool.live {
      UnlinkRoutedIff(s, ev);
    } else if s.threads[ev.tid].DeleteMove? {
      MoveRoutedIff(s, ev);
    } else if s.threads[ev.tid].DeleteTest? {
      TestRouted(s, ev);
    } else {
      QuietSection(s, ev);
    }
  }

  /** Every state a run passes through is routed. */
  predicate RoutedThroughout(evs: seq<Event>) {
    && (Execs(Init(), evs).Some? ==> Routed(Execs(Init(), evs).value))
    && (evs != [] ==> RoutedThroughout(evs[..|evs| - 1]))
  }

  predicate NeverStrays(evs: seq<Event>) {
    evs != [] ==>
      var before := Execs(Init(), evs[..|evs| - 1]);
      && NeverStrays(evs[..|evs| - 1])
      && (before.Some? ==> !Strays(before.value, evs[|evs| - 1]))
  }

  /** Over every interleaving of critical sections: all states are routed exactly when no section strays. */
  lemma {:induction false} RunRoutedIff(evs: seq<Event>)
    requires Execs(Init(), evs).Some?
    ensures RoutedThroughout(evs) <==> NeverStrays(evs)
  {
    if evs == [] {
    } else {
      var init := evs[..|evs| - 1];
      RunRoutedIff(init);
      RunGrounded(init);
      if RoutedThroughout(init) {
        StepRoutedIff(Execs(Init(), init).value, evs[|evs| - 1]);
      }
    }
  }

  /** Once no `Delete` is under way, every flow of such a run is routed to a live member. */
  lemma {:induction false} RoutedAtRest(evs: seq<Event>, s: Shared)
    requires Execs(Init(), evs) == Some(s) && NeverStrays(evs)
    requires forall t :: t in s.threads ==> !PreMove(s.threads[t])
    ensures forall crc :: crc in s.crc2conn ==> s.crc2conn[crc] in s.pool.live
  {
    RunRoutedIff(evs);
    assert forall e :: !Deleting(s, e);
  }
}
