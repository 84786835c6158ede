/** Runs of sections taken one section at a time. */
module SectionSteps {
  import opened Words
  import opened FlowSections

  lemma {:induction false} ExecsSnoc(s: Shared, evs: seq<Event>, ev: Event, t: Shared)
    requires Execs(s, evs) == Some(t)
    ensures Execs(s, evs + [ev]) == Exec(t, ev)
  {
    assert (evs + [ev])[..|evs|] == evs;
  }

  lemma PortsFrame(s: Shared, threads: map<nat, Thread>, e: nat)
    ensures PortsOf(s.(threads := threads), e) == PortsOf(s, e)
  {
  }

  lemma MoveFrame(s: Shared, threads: map<nat, Thread>, e: nat, r: nat)
    ensures TableEffect(s.(threads := threads), DeleteMove(e, r), 0) ==
            TableEffect(s, DeleteMove(e, r), 0).(threads := threads)
  {
    var t, ports := s.(threads := threads), PortsOf(s, e);
    PortsFrame(s, threads, e);
    assert TableEffect(t, DeleteMove(e, r), 0) ==
           t.(crc2conn := t.crc2conn + Rerouted(ports, r), watches := t.watches + MovedWatches(ports, t.births, e, r),
              births := t.births + 1);
  }

  lemma HandOverFrame(s: Shared, threads: map<nat, Thread>, e: nat, r: nat)
    ensures TableEffect(s.(threads := threads), DeletePorts(e, r), 0) ==
            TableEffect(s, DeletePorts(e, r), 0).(threads := threads)
  {
    PortsFrame(s, threads, e);
    PortsFrame(s, threads, r);
  }

  lemma TableFrame(s: Shared, threads: map<nat, Thread>, th: Thread, now: int)
    ensures TableEffect(s.(threads := threads), th, now) == TableEffect(s, th, now).(threads := threads)
  {
    match th
    case GetAddCrc(_, e) => PortsFrame(s, threads, e);
    case DeleteMove(e, r) => MoveFrame(s, threads, e, r);
    case DeletePorts(e, r) => HandOverFrame(s, threads, e, r);
    case _ =>
  }

  /** Sections leave the places of goroutines alone. */
  lemma EffectFrame(s: Shared, threads: map<nat, Thread>, th: Thread, now: int)
    ensures Effect(s.(threads := threads), th, now) == Effect(s, th, now).(threads := threads)
  {
    if !OnPool(th) {
      TableFrame(s, threads, th, now);
    }
  }

  lemma SectionStep(s: Shared, tid: nat, th: Thread, now: int, r: Option<nat>, roomy: bool)
    requires Possible(s, th, r) && !PanicsAt(s, th, r)
    ensures var u := Put(s, tid, th);
            Exec(u, Run(tid, now, r, roomy)) == Some(Put(Effect(u, th, now), tid, After(s, th, r, roomy)))
  {
  }

  /** One section of goroutine `tid`, which stands at `th`. */
  lemma {:induction false} Continue(z: Shared, evs: seq<Event>, s: Shared, tid: nat, th: Thread, now: int,
                                    r: Option<nat>, roomy: bool)
      returns (evs': seq<Event>)
    requires Execs(z, evs) == Some(Put(s, tid, th)) && Possible(s, th, r) && !PanicsAt(s, th, r)
    ensures evs' == evs + [Run(tid, now, r, roomy)]
    ensures Execs(z, evs') == Some(Put(Effect(s, th, now), tid, After(s, th, r, roomy)))
  {
    var u, next := Put(s, tid, th), After(s, th, r, roomy);
    SectionStep(s, tid, th, now, r, roomy);
    EffectFrame(s, u.threads, th, now);
    EffectGrows(s, th, now);
    assert s.threads[tid := th][tid := next] == s.threads[tid := next];
    ExecsSnoc(z, evs, Run(tid, now, r, roomy), u);
    return evs + [Run(tid, now, r, roomy)];
  }

  /** All events are of goroutine `tid`. */
  predicate Alone(evs: seq<Event>, tid: nat) {
    forall ev :: ev in evs ==> (ev.CallGet? || ev.CallDelete? || ev.Run?) && ev.tid == tid
  }

  function Unlinked(p: Pool, e: nat): Pool {
    p.(live := p.live - {e}, stopped := p.stopped + {e}, stale := if p.live == {e} then Some(e) else p.stale)
  }

  /** A `Delete` up to its first section. */
  lemma {:induction false} CallsDelete(z: Shared, evs: seq<Event>, s: Shared, tid: nat, e: nat)
      returns (evs': seq<Event>)
    requires Execs(z, evs) == Some(s) && tid !in s.threads && e in s.ports
    ensures Alone(evs, tid) ==> Alone(evs', tid)
    ensures Execs(z, evs') == Some(Put(s.(pool := PoolEffect(s.pool, DeleteUnlink(e))), tid,
                                       After(s, DeleteUnlink(e), None, true)))
  {
    ExecsSnoc(z, evs, CallDelete(tid, e), s);
    evs' := evs + [CallDelete(tid, e)];
    evs' := Continue(z, evs', s, tid, DeleteUnlink(e), 0, None, true);
  }

  /** A `Delete` of a member up to its test of the ports. */
  lemma {:induction false} Unlinking(z: Shared, evs: seq<Event>, s: Shared, tid: nat, e: nat) returns (evs': seq<Event>)
    requires Execs(z, evs) == Some(s) && tid !in s.threads && e in s.ports && e in s.pool.live && e !in s.pool.stopped
    ensures Alone(evs, tid) ==> Alone(evs', tid)
    ensures Execs(z, evs') == Some(Put(s.(pool := Unlinked(s.pool, e)), tid,
                                       if s.ports[e] == {} then DeleteExit(e) else DeletePick(e)))
  {
    evs' := CallsDelete(z, evs, s, tid, e);
    var p := PoolEffect(s.pool, DeleteUnlink(e));
    evs' := Continue(z, evs', s.(pool := p), tid, DeleteStop(e), 0, None, true);
    assert PoolEffect(p, DeleteStop(e)) == Unlinked(s.pool, e);
    evs' := Continue(z, evs', s.(pool := Unlinked(s.pool, e)), tid, DeleteTest(e), 0, None, true);
  }
}
