/** Runs of critical sections that lead a flow astray or end in a panic. */
module SectionRuns {
  import opened Words
  import opened FlowSections
  import opened SectionSteps
  import SectionRouting
  import SectionPanics

  ghost predicate Reached(evs: seq<Event>, s: Shared) {
    Execs(Init(), evs) == Some(s)
  }

  lemma {:induction false} Then(evs: seq<Event>, s: Shared, ev: Event) returns (evs': seq<Event>)
    requires Reached(evs, s) && Exec(s, ev).Some?
    ensures Reached(evs', Exec(s, ev).value)
  {
    ExecsSnoc(Init(), evs, ev, s);
    return evs + [ev];
  }

  /** One section of goroutine `tid`, which stands at `th`; `Next` returns `r` if it is called. */
  lemma {:induction false} GoOn(evs: seq<Event>, s: Shared, tid: nat, th: Thread, r: nat) returns (evs': seq<Event>)
    requires Reached(evs, Put(s, tid, th)) && Possible(s, th, Some(r)) && !PanicsAt(s, th, Some(r))
    ensures Reached(evs', Put(Effect(s, th, 0), tid, After(s, th, Some(r), true)))
  {
    evs' := Continue(Init(), evs, s, tid, th, 0, Some(r), true);
  }

  /** The look-up, stamp and test of a `Get` that finds nothing for its flow. */
  lemma {:induction false} Misses(evs: seq<Event>, s: Shared, tid: nat, crc: uint16) returns (evs': seq<Event>)
    requires Reached(evs, s) && tid !in s.threads && crc !in s.crc2conn
    ensures Reached(evs', Put(s.(usage := s.usage[crc := 0]), tid, GetPick(crc)))
  {
    var container, lock := Lookup(s.crcContainer, crc), Lookup(s.crc2lock, crc);
    evs' := Then(evs, s, CallGet(tid, crc));
    evs' := GoOn(evs', s, tid, GetLook(crc), 0);
    evs' := GoOn(evs', s, tid, GetStamp(crc, None, container, lock), 0);
    evs' := GoOn(evs', s.(usage := s.usage[crc := 0]), tid, GetTest(crc, None, container, lock), 0);
  }

  /** A `Get` that misses and is handed the member `e`. */
  lemma {:induction false} Picks(evs: seq<Event>, s: Shared, tid: nat, crc: uint16, e: nat) returns (evs': seq<Event>)
    requires Reached(evs, s) && tid !in s.threads && crc !in s.crc2conn && !s.pool.torn && e in s.pool.live
    ensures Reached(evs', Put(s.(usage := s.usage[crc := 0]), tid, GetAddCrc(crc, e)))
  {
    evs' := Misses(evs, s, tid, crc);
    evs' := GoOn(evs', s.(usage := s.usage[crc := 0]), tid, GetPick(crc), e);
  }

  /** What that `Get` then does to the ports and the table. */
  function Entered(s: Shared, crc: uint16, e: nat): Shared {
    s.(ports := s.ports[e := PortsOf(s, e) + {crc}],
       crc2conn := s.crc2conn[crc := e],
       crc2lock := s.crc2lock[crc := s.sems],
       crcContainer := s.crcContainer[crc := if e in s.pool.dropped then None else Some(e)],
       sems := s.sems + 1)
  }

  lemma {:induction false} Enters(evs: seq<Event>, s: Shared, tid: nat, crc: uint16, e: nat) returns (evs': seq<Event>)
    requires Reached(evs, Put(s, tid, GetAddCrc(crc, e)))
    ensures Reached(evs', Put(Entered(s, crc, e), tid, GetWatch(crc, e, s.sems)))
  {
    evs' := GoOn(evs, s, tid, GetAddCrc(crc, e), 0);
    evs' := GoOn(evs', s.(ports := s.ports[e := PortsOf(s, e) + {crc}]), tid, GetEnter(crc, e), 0);
  }

  /** A `Delete` up to its test of the ports. */
  lemma {:induction false} Unlinks(evs: seq<Event>, s: Shared, tid: nat, e: nat) returns (evs': seq<Event>)
    requires Reached(evs, s) && tid !in s.threads && e in s.ports && e in s.pool.live && e !in s.pool.stopped
    ensures Reached(evs', Put(s.(pool := Unlinked(s.pool, e)), tid,
                              if s.ports[e] == {} then DeleteExit(e) else DeletePick(e)))
  {
    evs' := Unlinking(Init(), evs, s, tid, e);
  }

  /** A `Delete` from the pick of member `r` to its move. */
  function Moved(s: Shared, e: nat, r: nat): Shared {
    Effect(s, DeleteMove(e, r), 0)
  }

  lemma MovedFields(s: Shared, e: nat, r: nat)
    ensures var t := Moved(s, e, r);
            && t.crc2conn == s.crc2conn + (map p | p in PortsOf(s, e) :: r)
            && t.ports == s.ports && t.pool == s.pool && t.threads == s.threads
  {
  }

  lemma {:induction false} Moves(evs: seq<Event>, s: Shared, tid: nat, e: nat, r: nat) returns (evs': seq<Event>)
    requires Reached(evs, Put(s, tid, DeletePick(e))) && r in s.pool.live && !s.pool.torn
    requires s.pool.dropped == s.pool.mapless == {}
    ensures Reached(evs', Put(Moved(s, e, r), tid, DeletePorts(e, r)))
  {
    evs' := GoOn(evs, s, tid, DeletePick(e), r);
    evs' := GoOn(evs', s, tid, DeleteMove(e, r), 0);
  }

  lemma {:induction false} Returns(evs: seq<Event>, s: Shared, tid: nat, e: nat, r: nat) returns (evs': seq<Event>)
    requires Reached(evs, Put(s, tid, DeletePorts(e, r))) && s.pool.dropped == {}
    ensures Reached(evs', Put(Effect(s, DeletePorts(e, r), 0), tid, DeleteDone(e)))
  {
    evs' := GoOn(evs, s, tid, DeletePorts(e, r), 0);
    evs' := GoOn(evs', Effect(s, DeletePorts(e, r), 0), tid, DeleteSignal(e), 0);
  }

  lemma Stands(s: Shared, tid: nat)
    requires tid in s.threads
    ensures Put(s, tid, s.threads[tid]) == s
  {
    assert s.threads[tid := s.threads[tid]] == s.threads;
  }

  function Registered(live: set<nat>, ports: map<nat, set<uint16>>): Shared {
    Init().(ports := ports, pool := Init().pool.(live := live))
  }

  lemma {:induction false} TwoRegistered() returns (evs: seq<Event>)
    ensures Reached(evs, Registered({0, 1}, map[0 := {}, 1 := {}]))
  {
    evs := Then([], Init(), Register(0));
    assert {} + {0} == {0};
    evs := Then(evs, Registered({0}, map[0 := {}]), Register(1));
    assert {0} + {1} == {0, 1};
  }

  /** Flow `crc` is on element 0 of two, and the `Get` that put it there stands before its watcher. */
  ghost predicate OneFlow(s: Shared, crc: uint16) {
    && s.crc2conn == map[crc := 0]
    && s.ports == map[0 := {crc}, 1 := {}]
    && s.pool == Init().pool.(live := {0, 1})
    && s.threads == map[0 := GetWatch(crc, 0, 0)]
    && s.sems == 1
  }

  lemma {:induction false} FlowEntered(crc: uint16) returns (evs: seq<Event>, s: Shared)
    ensures Reached(evs, s) && OneFlow(s, crc)
  {
    var r := Registered({0, 1}, map[0 := {}, 1 := {}]);
    var u := r.(usage := r.usage[crc := 0]);
    evs := TwoRegistered();
    evs := Picks(evs, r, 0, crc, 0);
    evs := Enters(evs, u, 0, crc, 0);
    s := Put(Entered(u, crc, 0), 0, GetWatch(crc, 0, 0));
    assert s.ports[0] == {} + {crc} == {crc};
  }

  /** A `Get` of flow 7 has been handed element 0 too, before goroutine 2 unlinked it. */
  ghost predicate HandedOut(s: Shared) {
    && s.crc2conn == map[8 := 0]
    && s.ports == map[0 := {8}, 1 := {}]
    && s.pool == Init().pool.(live := {1}, stopped := {0})
    && s.threads == map[0 := GetWatch(8, 0, 0), 1 := GetAddCrc(7, 0), 2 := DeletePick(0)]
  }

  lemma {:induction false} HandOut() returns (evs: seq<Event>, s: Shared)
    ensures Reached(evs, s) && HandedOut(s)
  {
    evs, s := FlowEntered(8);
    evs := Picks(evs, s, 1, 7, 0);
    s := Put(s.(usage := s.usage[7 := 0]), 1, GetAddCrc(7, 0));
    evs := Unlinks(evs, s, 2, 0);
    assert {0, 1} - {0} == {1} && {} + {0} == {0};
    s := Put(s.(pool := Unlinked(s.pool, 0)), 2, DeletePick(0));
  }

  /** Goroutine 2 moves flow 8 to element 1 and returns. */
  ghost predicate MovedAway(s: Shared) {
    && s.crc2conn == map[8 := 1]
    && s.pool == Init().pool.(live := {1}, stopped := {0})
    && s.threads == map[0 := GetWatch(8, 0, 0), 1 := GetAddCrc(7, 0), 2 := DeleteDone(0)]
  }

  lemma {:induction false} MoveAway() returns (evs: seq<Event>, s: Shared)
    ensures Reached(evs, s) && MovedAway(s)
  {
    evs, s := HandOut();
    Stands(s, 2);
    evs := Moves(evs, s, 2, 0, 1);
    MovedFields(s, 0, 1);
    s := Moved(s, 0, 1);
    assert s.crc2conn == map[8 := 1];
    evs := Returns(evs, s, 2, 0, 1);
    s := Put(Effect(s, DeletePorts(0, 1), 0), 2, DeleteDone(0));
  }

  /** Only then does goroutine 1 enter flow 7, on the removed element, and return. */
  ghost predicate EnteredLate(s: Shared) {
    && Lookup(s.crc2conn, 7) == Some(0) && Lookup(s.crcContainer, 7) == Some(Some(0)) && 7 in s.crc2lock
    && s.pool == Init().pool.(live := {1}, stopped := {0})
    && s.threads == map[0 := GetWatch(8, 0, 0), 1 := GetDone(7, false, 0, Lookup(s.crc2lock, 7)), 2 := DeleteDone(0)]
  }

  lemma {:induction false} WatchesLate(evs: seq<Event>, s: Shared, sem: nat) returns (evs': seq<Event>, t: Shared)
    requires Reached(evs, Put(s, 1, GetWatch(7, 0, sem))) && s.pool.dropped == {}
    ensures Reached(evs', t) && t.threads == s.threads[1 := GetDone(7, false, 0, Some(sem))]
    ensures t.crc2conn == s.crc2conn && t.crcContainer == s.crcContainer && t.crc2lock == s.crc2lock && t.pool == s.pool
  {
    evs' := GoOn(evs, s, 1, GetWatch(7, 0, sem), 0);
    t := Put(Effect(s, GetWatch(7, 0, sem), 0), 1, GetDone(7, false, 0, Some(sem)));
  }

  lemma {:induction false} EnterLate() returns (evs: seq<Event>, s: Shared)
    ensures Reached(evs, s) && EnteredLate(s)
  {
    evs, s := MoveAway();
    Stands(s, 1);
    evs := Enters(evs, s, 1, 7, 0);
    evs, s := WatchesLate(evs, Entered(s, 7, 0), s.sems);
  }

  /**
   A `Get` that was handed an element just before its deletion enters it in the table afterwards, and a
   later `Get` of the flow is answered with it although another member is live.
   */
  lemma {:induction false} StaleRouteByInterleaving() returns (evs: seq<Event>, s: Shared, lock: nat)
    ensures Reached(evs, s) && !SectionRouting.NeverStrays(evs)
    ensures s.threads == map[0 := GetWatch(8, 0, 0), 1 := GetDone(7, false, 0, Some(lock)), 2 := DeleteDone(0),
                             3 := GetDone(7, true, 0, Some(lock))]
    ensures s.pool.live == {1} && s.pool.dropped == {}
  {
    evs, s := EnterLate();
    lock := s.crc2lock[7];
    evs := Then(evs, s, CallGet(3, 7));
    evs := GoOn(evs, s, 3, GetLook(7), 0);
    evs := GoOn(evs, s, 3, GetStamp(7, Some(0), Some(Some(0)), Some(lock)), 0);
    s := s.(usage := s.usage[7 := 0]);
    evs := GoOn(evs, s, 3, GetTest(7, Some(0), Some(Some(0)), Some(lock)), 0);
    s := Put(s, 3, GetDone(7, true, 0, Some(lock)));
    StrayedIfStale(evs, s);
  }

  lemma {:induction false} StrayedIfStale(evs: seq<Event>, s: Shared)
    requires Reached(evs, s) && Lookup(s.crc2conn, 7) == Some(0) && 0 !in s.pool.live
    requires forall t :: t in s.threads ==> !SectionRouting.PreMove(s.threads[t])
    ensures !SectionRouting.NeverStrays(evs)
  {
    if SectionRouting.NeverStrays(evs) {
      SectionRouting.RoutedAtRest(evs, s);
    }
  }

  /** Flow 7 is on element 0 of two, and goroutine 2, deleting it, is about to move the flow to element 1. */
  ghost predicate AboutToMove(s: Shared) {
    && s.crc2conn == map[7 := 0]
    && s.ports == map[0 := {7}, 1 := {}]
    && s.pool == Init().pool.(live := {1}, stopped := {0})
    && s.threads == map[0 := GetWatch(7, 0, 0), 2 := DeleteMove(0, 1)]
  }

  lemma {:induction false} PrepareMove() returns (evs: seq<Event>, s: Shared)
    ensures Reached(evs, s) && AboutToMove(s)
  {
    evs, s := FlowEntered(7);
    evs := Unlinks(evs, s, 2, 0);
    assert {0, 1} - {0} == {1} && {} + {0} == {0};
    s := s.(pool := Unlinked(s.pool, 0));
    evs := GoOn(evs, s, 2, DeletePick(0), 1);
    s := Put(s, 2, DeleteMove(0, 1));
  }

  lemma {:induction false} MoveMade() returns (evs: seq<Event>, s: Shared)
    ensures Reached(evs, s) && s.crc2conn == map[7 := 1] && s.ports == map[0 := {7}, 1 := {}]
    ensures s.pool == Init().pool.(live := {1}, stopped := {0})
    ensures s.threads == map[0 := GetWatch(7, 0, 0), 2 := DeletePorts(0, 1)]
  {
    evs, s := PrepareMove();
    Stands(s, 2);
    evs := GoOn(evs, s, 2, DeleteMove(0, 1), 0);
    MovedFields(s, 0, 1);
    s := Put(Moved(s, 0, 1), 2, DeletePorts(0, 1));
    assert s.crc2conn == map[7 := 1];
  }

  /** Its target can be taken off the ring after the move but before the flow is in its ports. */
  lemma {:induction false} RemovedBeforePorts() returns (evs: seq<Event>, s: Shared)
    ensures Reached(evs, s) && SectionRouting.Routed(s)
    ensures s.threads == map[0 := GetWatch(7, 0, 0), 2 := DeletePorts(0, 1), 3 := DeleteUnlink(1)]
    ensures SectionRouting.Strays(s, Run(3, 0, None, true)) && Exec(s, Run(3, 0, None, true)).Some?
  {
    evs, s := MoveMade();
    evs := Then(evs, s, CallDelete(3, 1));
    s := Put(s, 3, DeleteUnlink(1));
    PortsPending(s);
  }

  lemma PortsPending(s: Shared)
    requires s.pool.live == {1} && s.crc2conn == map[7 := 1] && 1 in s.ports && s.ports[1] == {}
    requires 3 in s.threads && s.threads[3] == DeleteUnlink(1)
    ensures SectionRouting.Routed(s)
    ensures SectionRouting.Strays(s, Run(3, 0, None, true)) && Exec(s, Run(3, 0, None, true)).Some?
  {
    assert 7 in s.crc2conn && 7 !in PortsOf(s, 1);
  }

  /** Flow 7 on element 0 and flow 8 on element 1 of three. */
  ghost predicate TwoFlows(s: Shared) {
    && s.crc2conn == map[7 := 0, 8 := 1]
    && s.ports == map[0 := {7}, 1 := {8}, 2 := {}]
    && s.pool == Init().pool.(live := {0, 1, 2})
    && s.threads == map[0 := GetWatch(7, 0, 0), 1 := GetWatch(8, 1, 1)]
  }

  lemma {:induction false} ThirdRegistered() returns (evs: seq<Event>, s: Shared)
    ensures Reached(evs, s) && s.crc2conn == map[7 := 0] && s.ports == map[0 := {7}, 1 := {}, 2 := {}]
    ensures s.pool == Init().pool.(live := {0, 1, 2}) && s.threads == map[0 := GetWatch(7, 0, 0)] && s.sems == 1
  {
    evs, s := FlowEntered(7);
    evs := Then(evs, s, Register(2));
    s := Exec(s, Register(2)).value;
    assert s.pool.live == {0, 1, 2};
  }

  lemma {:induction false} TwoFlowsEntered() returns (evs: seq<Event>, s: Shared)
    ensures Reached(evs, s) && TwoFlows(s)
  {
    evs, s := ThirdRegistered();
    evs := Picks(evs, s, 1, 8, 1);
    s := s.(usage := s.usage[8 := 0]);
    evs := Enters(evs, s, 1, 8, 1);
    s := Put(Entered(s, 8, 1), 1, GetWatch(8, 1, 1));
    assert s.ports[1] == {} + {8} == {8};
  }

  /** Goroutine 2 is about to move flow 7 to element 1, which goroutine 3 has unlinked meanwhile. */
  ghost predicate TargetGoing(s: Shared) {
    && s.crc2conn == map[7 := 0, 8 := 1]
    && s.ports == map[0 := {7}, 1 := {8}, 2 := {}]
    && s.pool == Init().pool.(live := {2}, stopped := {0, 1})
    && s.threads == map[0 := GetWatch(7, 0, 0), 1 := GetWatch(8, 1, 1), 2 := DeleteMove(0, 1), 3 := DeletePick(1)]
  }

  lemma {:induction false} TargetUnlinked() returns (evs: seq<Event>, s: Shared)
    ensures Reached(evs, s) && TargetGoing(s)
  {
    evs, s := TwoFlowsEntered();
    evs := Unlinks(evs, s, 2, 0);
    assert {0, 1, 2} - {0} == {1, 2} && {} + {0} == {0};
    s := s.(pool := Unlinked(s.pool, 0));
    evs := GoOn(evs, s, 2, DeletePick(0), 1);
    s := Put(s, 2, DeleteMove(0, 1));
    evs := Unlinks(evs, s, 3, 1);
    assert {1, 2} - {1} == {2} && {0} + {1} == {0, 1};
    s := Put(s.(pool := Unlinked(s.pool, 1)), 3, DeletePick(1));
  }

  /** Goroutine 3 has moved flow 8 on to element 2. */
  ghost predicate TargetGone(s: Shared) {
    && s.crc2conn == map[7 := 0, 8 := 2]
    && 0 in s.ports && s.ports[0] == {7}
    && s.pool == Init().pool.(live := {2}, stopped := {0, 1})
    && s.threads == map[0 := GetWatch(7, 0, 0), 1 := GetWatch(8, 1, 1), 2 := DeleteMove(0, 1), 3 := DeletePorts(1, 2)]
  }

  lemma {:induction false} TargetMoved() returns (evs: seq<Event>, s: Shared)
    ensures Reached(evs, s) && TargetGone(s)
  {
    evs, s := TargetUnlinked();
    Stands(s, 3);
    evs := Moves(evs, s, 3, 1, 2);
    MovedFields(s, 1, 2);
    s := Put(Moved(s, 1, 2), 3, DeletePorts(1, 2));
    assert s.crc2conn == map[7 := 0, 8 := 2];
  }

  /** A move can go to an element that was picked, then removed, and has its own move behind it. */
  lemma {:induction false} MovedToRemoved() returns (evs: seq<Event>, s: Shared)
    ensures Reached(evs, s) && SectionRouting.Routed(s)
    ensures s.threads == map[0 := GetWatch(7, 0, 0), 1 := GetWatch(8, 1, 1), 2 := DeleteMove(0, 1), 3 := DeleteDone(1)]
    ensures SectionRouting.Strays(s, Run(2, 0, None, true)) && Exec(s, Run(2, 0, None, true)).Some?
  {
    evs, s := TargetMoved();
    Stands(s, 3);
    evs := Returns(evs, s, 3, 1, 2);
    s := Put(Effect(s, DeletePorts(1, 2), 0), 3, DeleteDone(1));
    RemovedTarget(s);
  }

  lemma RemovedTarget(s: Shared)
    requires s.crc2conn == map[7 := 0, 8 := 2] && s.pool == Init().pool.(live := {2}, stopped := {0, 1})
    requires 0 in s.ports && s.ports[0] == {7}
    requires s.threads == map[0 := GetWatch(7, 0, 0), 1 := GetWatch(8, 1, 1), 2 := DeleteMove(0, 1), 3 := DeleteDone(1)]
    ensures SectionRouting.Routed(s)
    ensures SectionRouting.Strays(s, Run(2, 0, None, true)) && Exec(s, Run(2, 0, None, true)).Some?
  {
    assert SectionRouting.Deletes(s.threads[2], 0);
    assert 7 in PortsOf(s, 0) && !SectionRouting.MovedByOther(s, 2, 7, 1);
  }

  /** The run is possible, and its next event panics. */
  ghost predicate PanicReached(evs: seq<Event>, s: Shared, ev: Event) {
    Reached(evs, s) && Enabled(s, ev) && Panics(s, ev)
  }

  /** `Next` over an empty ring: a `Get` before anything is registered. */
  lemma {:induction false} NoCursor() returns (evs: seq<Event>, s: Shared)
    ensures PanicReached(evs, s, Run(0, 0, None, true)) && s.threads == map[0 := GetPick(7)]
  {
    evs := Misses([], Init(), 0, 7);
    s := Put(Init().(usage := map[7 := 0]), 0, GetPick(7));
  }

  /** Two `Delete`s of one element both get past unlinking, and the second closes a closed channel. */
  lemma {:induction false} ClosedTwice() returns (evs: seq<Event>, s: Shared)
    ensures PanicReached(evs, s, Run(2, 0, None, true))
    ensures s.threads == map[1 := DeleteTest(0), 2 := DeleteStop(0)]
  {
    evs := TwoRegistered();
    s := Registered({0, 1}, map[0 := {}, 1 := {}]);
    evs := Then(evs, s, CallDelete(1, 0));
    evs := GoOn(evs, s, 1, DeleteUnlink(0), 0);
    s := Put(s.(pool := PoolEffect(s.pool, DeleteUnlink(0))), 1, DeleteStop(0));
    evs := Then(evs, s, CallDelete(2, 0));
    evs := GoOn(evs, s, 2, DeleteUnlink(0), 0);
    s := Put(s.(pool := s.pool.(torn := true)), 2, DeleteStop(0));
    Stands(s, 1);
    evs := GoOn(evs, s, 1, DeleteStop(0), 0);
    s := Put(s.(pool := s.pool.(stopped := s.pool.stopped + {0})), 1, DeleteTest(0));
  }

  /** A `Get` is handed element 0, which is then deleted without ports; its container pointer is nil. */
  lemma {:induction false} DroppedMeanwhile() returns (evs: seq<Event>, s: Shared)
    ensures Reached(evs, s) && s.threads == map[1 := GetAddCrc(7, 0), 2 := DeleteDone(0)]
    ensures s.pool.live == {1} && s.pool.dropped == {0}
  {
    var r := Registered({0, 1}, map[0 := {}, 1 := {}]);
    evs := TwoRegistered();
    evs := Picks(evs, r, 1, 7, 0);
    s := Put(r.(usage := r.usage[7 := 0]), 1, GetAddCrc(7, 0));
    evs := Unlinks(evs, s, 2, 0);
    s := s.(pool := Unlinked(s.pool, 0));
    evs := GoOn(evs, s, 2, DeleteExit(0), 0);
    s := Put(Effect(s, DeleteExit(0), 0), 2, DeleteDone(0));
  }

  /** That `Get` counts the flow on the nil container. */
  lemma {:induction false} CountedOnNil() returns (evs: seq<Event>, s: Shared)
    ensures PanicReached(evs, s, Run(1, 0, None, true))
    ensures Lookup(s.crc2conn, 7) == Some(0) && Lookup(s.crcContainer, 7) == Some(None)
    ensures s.threads.Keys == {1, 2} && s.threads[1].GetWatch?
  {
    evs, s := DroppedMeanwhile();
    Stands(s, 1);
    evs := Enters(evs, s, 1, 7, 0);
    s := Put(Entered(s, 7, 0), 1, GetWatch(7, 0, s.sems));
  }

  /** Or, before it does, another `Get` of the flow asks the nil container for its load. */
  lemma {:induction false} AskedNil() returns (evs: seq<Event>, s: Shared)
    ensures PanicReached(evs, s, Run(3, 0, None, true)) && 3 in s.threads && s.threads[3].GetTest?
  {
    evs, s := CountedOnNil();
    var lock := Lookup(s.crc2lock, 7);
    evs := Then(evs, s, CallGet(3, 7));
    evs := GoOn(evs, s, 3, GetLook(7), 0);
    evs := GoOn(evs, s, 3, GetStamp(7, Some(0), Some(None), lock), 0);
    s := Put(s.(usage := s.usage[7 := 0]), 3, GetTest(7, Some(0), Some(None), lock));
  }

  /** A `Delete` moves a flow to an element that was deleted without ports after it was picked. */
  lemma {:induction false} MovedOntoNil() returns (evs: seq<Event>, s: Shared)
    ensures PanicReached(evs, s, Run(2, 0, None, true)) && 2 in s.threads && s.threads[2] == DeleteMove(0, 1)
    ensures s.pool.dropped == {1} && s.pool.mapless == {}
  {
    evs, s := PrepareMove();
    evs := Unlinks(evs, s, 3, 1);
    s := s.(pool := Unlinked(s.pool, 1));
    evs := GoOn(evs, s, 3, DeleteExit(1), 0);
    s := Put(Effect(s, DeleteExit(1), 0), 3, DeleteDone(1));
    assert s.pool.dropped == {1};
  }

  /** A `Delete` about to move flows loses its table pointer to a second `Delete` of the element. */
  lemma {:induction false} MovedWithoutTable() returns (evs: seq<Event>, s: Shared)
    ensures PanicReached(evs, s, Run(2, 0, None, true)) && 2 in s.threads && s.threads[2] == DeleteMove(0, 1)
    ensures s.pool.mapless == {0}
  {
    evs, s := PrepareMove();
    evs := Then(evs, s, CallDelete(3, 0));
    evs := GoOn(evs, s, 3, DeleteUnlink(0), 0);
    s := Put(s.(pool := PoolEffect(s.pool, DeleteUnlink(0))), 3, DeleteDone(0));
    assert s.pool.mapless == {0};
  }
}
