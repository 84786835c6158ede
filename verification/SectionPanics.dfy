/** When the dispatcher panics while critical sections interleave. */
module SectionPanics {
  import opened Words
  import opened FlowSections

  /** The goroutine has still to use the container of `e`: to count a flow on it or to say its address. */
  predicate Needs(th: Thread, e: nat) {
    match th
    case GetAddCrc(_, x) => x == e
    case GetEnter(_, x) => x == e
    case GetWatch(_, x, _) => x == e
    case DeleteStop(x) => x == e
    case DeleteTest(x) => x == e
    case DeleteExit(x) => x == e
    case DeletePick(x) => x == e
    case DeleteMove(x, r) => x == e || r == e
    case DeletePorts(x, _) => x == e
    case DeleteSignal(x) => x == e
    case _ => false
  }

  /** The watcher has still to decrement the counter of `e`. */
  predicate Counts(w: Watch, e: nat) {
    w.elem == e && !w.phase.Forgetting?
  }

  /** The goroutine is bound to panic: what it has still to use is nil, or what it has to close is closed. */
  predicate Broken(p: Pool, th: Thread) {
    match th
    case GetStamp(_, conn, container, _) => conn.Some? && container == Some(None)
    case GetTest(_, conn, container, _) => conn.Some? && container == Some(None)
    case GetAddCrc(_, e) => e in p.dropped
    case GetEnter(_, e) => e in p.dropped
    case GetWatch(_, e, _) => e in p.dropped
    case DeleteStop(e) => e in p.dropped || e in p.stopped
    case DeleteTest(e) => e in p.dropped
    case DeleteExit(e) => e in p.dropped
    case DeletePick(e) => e in p.dropped
    case DeleteMove(e, r) => e in p.dropped || r in p.dropped
    case DeletePorts(e, _) => e in p.dropped
    case DeleteSignal(e) => e in p.dropped
    case _ => false
  }

  predicate BrokenWatch(p: Pool, w: Watch) {
    (Counts(w, w.elem) && w.elem in p.dropped) || (w.via.Some? && w.via.value in p.mapless)
  }

  predicate ThreadsIntact(p: Pool, threads: map<nat, Thread>) {
    forall t :: t in threads ==> !Broken(p, threads[t])
  }

  /** No two goroutines are about to close the same stop channel. */
  predicate StopsOnce(threads: map<nat, Thread>) {
    forall t, u :: t in threads && u in threads && t != u && threads[t].DeleteStop? ==> threads[u] != threads[t]
  }

  predicate WatchesIntact(p: Pool, watches: set<Watch>) {
    forall w :: w in watches ==> !BrokenWatch(p, w)
  }

  predicate RecordsIntact(crcContainer: map<uint16, Option<nat>>) {
    forall crc :: crc in crcContainer ==> crcContainer[crc].Some?
  }

  /** The links are in order, and nothing a goroutine, a watcher or a later `Get` will use is nil or closed. */
  predicate Intact(s: Shared) {
    && !s.pool.torn
    && ThreadsIntact(s.pool, s.threads)
    && StopsOnce(s.threads)
    && WatchesIntact(s.pool, s.watches)
    && RecordsIntact(s.crcContainer)
  }

  /**
   The sections that cut others off: handing out an element whose container is gone; unlinking an element
   twice; the repeated `Delete` of an element that a goroutine or watcher has still to use; and the early
   exit of a `Delete` whose element another one has still to use.
   */
  predicate Cuts(s: Shared, ev: Event) {
    ev.Run? && ev.tid in s.threads &&
    match s.threads[ev.tid]
    case GetPick(_) => ev.picked.Some? && ev.picked.value in s.pool.dropped
    case DeletePick(_) => ev.picked.Some? && ev.picked.value in s.pool.dropped
    case DeleteUnlink(e) =>
      e !in s.pool.live &&
      (|| e !in s.pool.stopped
       || (exists t :: t in s.threads && Needs(s.threads[t], e))
       || (exists w :: w in s.watches && (Counts(w, e) || w.via == Some(e))))
    case DeleteExit(e) =>
      || (exists t :: t in s.threads && t != ev.tid && Needs(s.threads[t], e))
      || (exists w :: w in s.watches && Counts(w, e))
    case _ => false
  }

  /** What `Broken` looks at in the pool. */
  predicate SamePointers(p: Pool, q: Pool) {
    p.dropped == q.dropped && p.stopped == q.stopped && p.mapless == q.mapless && p.torn == q.torn
  }

  /** A section of the table leaves its goroutine, its watchers and its record intact. */
  lemma TableEffectIntact(s: Shared, th: Thread, now: int, picked: Option<nat>, roomy: bool)
    requires Grounded(s) && Intact(s) && Placed(s, th) && !Broken(s.pool, th) && !OnPool(th)
    ensures !Broken(s.pool, After(s, th, picked, roomy)) && !After(s, th, picked, roomy).DeleteStop?
    ensures WatchesIntact(s.pool, TableEffect(s, th, now).watches)
    ensures RecordsIntact(TableEffect(s, th, now).crcContainer)
  {
  }

  lemma TableSectionIntact(s: Shared, ev: Event)
    requires Grounded(s) && Intact(s) && ev.Run? && Exec(s, ev).Some? && !OnPool(s.threads[ev.tid])
    ensures Intact(Exec(s, ev).value)
  {
    var th, t := s.threads[ev.tid], Exec(s, ev).value;
    assert Placed(s, th);
    TableEffectIntact(s, th, ev.now, ev.picked, ev.roomy);
    EffectGrows(s, th, ev.now);
    assert t.pool == s.pool && t.threads == s.threads[ev.tid := After(s, th, ev.picked, ev.roomy)];
  }

  lemma PickIntactIff(s: Shared, ev: Event)
    requires Grounded(s) && Intact(s) && ev.Run? && Exec(s, ev).Some?
    requires s.threads[ev.tid].GetPick? || s.threads[ev.tid].DeletePick?
    ensures Intact(Exec(s, ev).value) <==> !Cuts(s, ev)
  {
    var th, t := s.threads[ev.tid], Exec(s, ev).value;
    assert SamePointers(s.pool, t.pool) && t.threads == s.threads[ev.tid := After(s, th, ev.picked, ev.roomy)];
    assert Broken(t.pool, t.threads[ev.tid]) <==> ev.picked.value in s.pool.dropped;
  }

  lemma FirstUnlinkIntact(s: Shared, ev: Event)
    requires Grounded(s) && Intact(s) && ev.Run? && Exec(s, ev).Some?
    requires s.threads[ev.tid].DeleteUnlink? && s.threads[ev.tid].elem in s.pool.live
    ensures Intact(Exec(s, ev).value)
  {
    var e, t := s.threads[ev.tid].elem, Exec(s, ev).value;
    assert SamePointers(s.pool, t.pool) && t.threads == s.threads[ev.tid := DeleteStop(e)];
    assert forall x :: x in s.threads ==> Placed(s, s.threads[x]);
  }

  lemma RepeatedDeleteIntactIff(s: Shared, ev: Event)
    requires Grounded(s) && Intact(s) && ev.Run? && Exec(s, ev).Some? && s.threads[ev.tid].DeleteUnlink?
    requires s.threads[ev.tid].elem !in s.pool.live && s.threads[ev.tid].elem in s.pool.stopped
    ensures Intact(Exec(s, ev).value) <==> !Cuts(s, ev)
  {
    var e, t := s.threads[ev.tid].elem, Exec(s, ev).value;
    assert t.threads == s.threads[ev.tid := DeleteDone(e)];
    assert t.pool == s.pool.(dropped := s.pool.dropped + {e}, mapless := s.pool.mapless + {e});
    assert forall x :: x in s.threads ==> (Broken(t.pool, s.threads[x]) <==> Needs(s.threads[x], e));
    assert forall w :: w in s.watches ==> (BrokenWatch(t.pool, w) <==> Counts(w, e) || w.via == Some(e));
    if x :| x in s.threads && Needs(s.threads[x], e) {
      assert x != ev.tid && Broken(t.pool, t.threads[x]);
    }
  }

  lemma StopIntact(s: Shared, ev: Event)
    requires Grounded(s) && Intact(s) && ev.Run? && Exec(s, ev).Some? && s.threads[ev.tid].DeleteStop?
    ensures Intact(Exec(s, ev).value)
  {
    var e, t := s.threads[ev.tid].elem, Exec(s, ev).value;
    assert t.threads == s.threads[ev.tid := DeleteTest(e)];
    assert t.pool == s.pool.(stopped := s.pool.stopped + {e});
    assert forall x :: x in s.threads && x != ev.tid ==> s.threads[x] != DeleteStop(e);
  }

  lemma ExitIntactIff(s: Shared, ev: Event)
    requires Grounded(s) && Intact(s) && ev.Run? && Exec(s, ev).Some? && s.threads[ev.tid].DeleteExit?
    ensures Intact(Exec(s, ev).value) <==> !Cuts(s, ev)
  {
    var e, t := s.threads[ev.tid].elem, Exec(s, ev).value;
    assert t.threads == s.threads[ev.tid := DeleteDone(e)];
    assert t.pool == s.pool.(dropped := s.pool.dropped + {e});
    assert forall x :: x in s.threads ==> (Broken(t.pool, s.threads[x]) <==> Needs(s.threads[x], e));
    assert forall w :: w in s.watches ==> (BrokenWatch(t.pool, w) <==> Counts(w, e));
    if x :| x in s.threads && x != ev.tid && Needs(s.threads[x], e) {
      assert Broken(t.pool, t.threads[x]);
    }
  }

  lemma CallIntact(s: Shared, ev: Event)
    requires Intact(s) && !ev.Run? && Exec(s, ev).Some?
    ensures Intact(Exec(s, ev).value)
  {
    var t := Exec(s, ev).value;
    assert SamePointers(s.pool, t.pool);
    assert forall x :: x in t.threads ==> !Broken(s.pool, t.threads[x]);
  }

  /** A step leaves everything intact exactly when it is not one of the cutting sections. */
  lemma StepIntactIff(s: Shared, ev: Event)
    requires Grounded(s) && Intact(s) && Exec(s, ev).Some?
    ensures Intact(Exec(s, ev).value) <==> !Cuts(s, ev)
  {
    if !ev.Run? {
      CallIntact(s, ev);
    } else {
      match s.threads[ev.tid]
      case GetPick(_) => PickIntactIff(s, ev);
      case DeletePick(_) => PickIntactIff(s, ev);
      case DeleteUnlink(e) =>
        if e in s.pool.live {
          FirstUnlinkIntact(s, ev);
        } else if e in s.pool.stopped {
          RepeatedDeleteIntactIff(s, ev);
        }
      case DeleteStop(_) => StopIntact(s, ev);
      case DeleteExit(_) => ExitIntactIff(s, ev);
      case _ => TableSectionIntact(s, ev);
    }
  }

  /** While everything is intact, only `Next` over an empty ring without a cursor panics. */
  lemma PanicsIff(s: Shared, ev: Event)
    requires Grounded(s) && Intact(s) && Enabled(s, ev)
    ensures Panics(s, ev) <==>
            && ev.Run? && (s.threads[ev.tid].GetPick? || s.threads[ev.tid].DeletePick?)
            && s.pool.live == {} && s.pool.stale.None?
  {
    if ev.Run? {
      assert !Broken(s.pool, s.threads[ev.tid]);
    } else if ev.Tick? || ev.Decrement? || ev.Forget? {
      assert !BrokenWatch(s.pool, ev.w);
    }
  }

  predicate IntactThroughout(evs: seq<Event>) {
    && (Execs(Init(), evs).Some? ==> Intact(Execs(Init(), evs).value))
    && (evs != [] ==> IntactThroughout(evs[..|evs| - 1]))
  }

  predicate NeverCuts(evs: seq<Event>) {
    evs != [] ==>
      var before := Execs(Init(), evs[..|evs| - 1]);
      && NeverCuts(evs[..|evs| - 1])
      && (before.Some? ==> !Cuts(before.value, evs[|evs| - 1]))
  }

  /** Over every interleaving all states are intact exactly when no section cuts. */
  lemma {:induction false} RunIntactIff(evs: seq<Event>)
    requires Execs(Init(), evs).Some?
    ensures IntactThroughout(evs) <==> NeverCuts(evs)
  {
    if evs == [] {
    } else {
      var init := evs[..|evs| - 1];
      RunIntactIff(init);
      RunGrounded(init);
      if IntactThroughout(init) {
        StepIntactIff(Execs(Init(), init).value, evs[|evs| - 1]);
      }
    }
  }

  /** After every interleaving without such a section a panic is `Next` over an empty ring without a cursor. */
  lemma {:induction false} RunPanicsIff(evs: seq<Event>, s: Shared, ev: Event)
    requires Execs(Init(), evs) == Some(s) && NeverCuts(evs) && Enabled(s, ev)
    ensures Panics(s, ev) <==>
            && ev.Run? && (s.threads[ev.tid].GetPick? || s.threads[ev.tid].DeletePick?)
            && s.pool.live == {} && s.pool.stale.None?
  {
    RunIntactIff(evs);
    RunGrounded(evs);
    PanicsIff(s, ev);
  }

  /** A section of a broken goroutine panics or leaves it broken. */
  lemma BrokenSection(s: Shared, th: Thread, now: int, picked: Option<nat>, roomy: bool)
    requires Grounded(s) && Placed(s, th) && Broken(s.pool, th)
    requires Possible(s, th, picked) && !PanicsAt(s, th, picked)
    ensures Broken(Effect(s, th, now).pool, After(s, th, picked, roomy))
  {
  }

  lemma StillBroken(p: Pool, q: Pool, th: Thread)
    requires Broken(p, th) && p.stopped <= q.stopped && p.dropped <= q.dropped
    ensures Broken(q, th)
  {
  }

  lemma ExecStaysBroken(s: Shared, ev: Event, x: nat)
    requires Grounded(s) && Exec(s, ev).Some? && x in s.threads && Broken(s.pool, s.threads[x])
    ensures x in Exec(s, ev).value.threads && Broken(Exec(s, ev).value.pool, Exec(s, ev).value.threads[x])
  {
    var t := Exec(s, ev).value;
    if ev.Run? {
      EffectGrows(s, s.threads[ev.tid], ev.now);
      if x == ev.tid {
        assert Placed(s, s.threads[x]);
        BrokenSection(s, s.threads[x], ev.now, ev.picked, ev.roomy);
      } else {
        StillBroken(s.pool, t.pool, s.threads[x]);
      }
    } else {
      assert t.threads[x] == s.threads[x];
      StillBroken(s.pool, t.pool, s.threads[x]);
    }
  }

  /** An upper bound on the sections a goroutine has before it. */
  function SectionsLeft(th: Thread): nat {
    match th
    case GetLook(_) => 7
    case GetStamp(_, _, _, _) => 6
    case GetTest(_, _, _, _) => 5
    case GetPick(_) => 4
    case GetAddCrc(_, _) => 3
    case GetEnter(_, _) => 2
    case GetWatch(_, _, _) => 1
    case DeleteUnlink(_) => 7
    case DeleteStop(_) => 6
    case DeleteTest(_) => 5
    case DeletePick(_) => 4
    case DeleteMove(_, _) => 3
    case DeletePorts(_, _) => 2
    case DeleteExit(_) => 1
    case DeleteSignal(_) => 1
    case _ => 0
  }

  lemma SectionsEnd(s: Shared, ev: Event)
    requires ev.Run? && Exec(s, ev).Some?
    ensures SectionsLeft(Exec(s, ev).value.threads[ev.tid]) < SectionsLeft(s.threads[ev.tid])
  {
  }

  /** Whatever runs on from there, a goroutine that is cut off never returns: its few sections end in a panic. */
  lemma {:induction false} CutOffNeverReturns(s: Shared, x: nat, evs: seq<Event>, t: Shared)
    requires Grounded(s) && x in s.threads && Broken(s.pool, s.threads[x]) && Execs(s, evs) == Some(t)
    ensures Grounded(t) && x in t.threads && Broken(t.pool, t.threads[x])
    ensures !t.threads[x].GetDone? && !t.threads[x].DeleteDone?
  {
    if evs == [] {
    } else {
      var n := |evs| - 1;
      var before := Execs(s, evs[..n]).value;
      CutOffNeverReturns(s, x, evs[..n], before);
      ExecGrounded(before, evs[n]);
      ExecStaysBroken(before, evs[n], x);
    }
  }
}
