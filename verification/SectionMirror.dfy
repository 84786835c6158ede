/** The steps of the dispatcher are its critical sections run without interruption. */
module SectionMirror {
  import opened Words
  import RingSeq
  import F = FlowSpec
  import FlowRun
  import opened FlowSections
  import opened SectionSteps

  function PortsMap(elems: seq<F.Elem>): map<nat, set<uint16>> {
    map e: nat | e < |elems| :: elems[e].ports
  }

  /** The pool between operations: whoever is off the ring has been stopped. */
  function PoolOf(s: F.State): Pool {
    Pool(set e | e in s.ring,
         if s.ring == [] then s.cursor else None,
         set e: nat | e < |s.elems| && e !in s.ring,
         set e: nat | e < |s.elems| && !s.elems[e].hasContainer,
         set e: nat | e < |s.elems| && !s.elems[e].hasMap,
         false)
  }

  function WatchOf(w: F.Watcher): Watch {
    Watch(w.birth, w.elem, w.crc, w.via, Ticking)
  }

  function WatchesOf(watchers: set<F.Watcher>): set<Watch> {
    set w | w in watchers :: WatchOf(w)
  }

  function Pointers(containers: map<uint16, nat>): map<uint16, Option<nat>> {
    map crc | crc in containers :: Some(containers[crc])
  }

  /** An element has the connection it was registered with until all its pointers go. */
  predicate Conns(s: F.State, conns: seq<F.Conn>) {
    && |conns| == |s.elems|
    && forall e :: 0 <= e < |s.elems| ==>
         && (s.elems[e].hasContainer ==> s.elems[e].hasMap)
         && (s.elems[e].hasMap ==> s.elems[e].conn == conns[e])
  }

  /** The table names by element what it holds by connection. */
  predicate Names(named: map<uint16, nat>, table: map<uint16, F.Conn>, conns: seq<F.Conn>) {
    && named.Keys == table.Keys
    && forall crc :: crc in named ==> named[crc] < |conns| && table[crc] == conns[named[crc]]
  }

  /** Watchers can be told apart without their timeouts. */
  predicate Distinct(watchers: set<F.Watcher>) {
    forall w, v :: w in watchers && v in watchers && WatchOf(w) == WatchOf(v) ==> w == v
  }

  /** The sections' state is that of the dispatcher, up to where goroutines stand. */
  ghost predicate Mirrors(z: Shared, s: F.State, conns: seq<F.Conn>) {
    && Conns(s, conns)
    && Names(z.crc2conn, s.crc2conn, conns)
    && z.crc2lock == s.crc2lock
    && z.usage == s.usage
    && z.crcContainer == Pointers(s.crcContainer)
    && z.ports == PortsMap(s.elems)
    && z.pool == PoolOf(s)
    && Distinct(s.watchers)
    && z.watches == WatchesOf(s.watchers)
    && z.births == s.births
    && z.sems == s.sems
  }

  lemma InitMirrors(fluxMaxAge: int)
    ensures Mirrors(Init(), F.Init(fluxMaxAge), [])
  {
  }

  lemma AddMirrors(z: Shared, s: F.State, conns: seq<F.Conn>, conn: F.Conn, maxFluxes: int8)
    requires Mirrors(z, s, conns) && FlowRun.Sound(s)
    ensures Exec(z, Register(|s.elems|)).Some?
    ensures var y := Exec(z, Register(|s.elems|)).value;
            Mirrors(y, F.AddStep(s, conn, maxFluxes), conns + [conn]) && y.threads == z.threads
  {
    var t, y := F.AddStep(s, conn, maxFluxes), Exec(z, Register(|s.elems|)).value;
    assert y.ports == PortsMap(t.elems);
    assert y.pool == PoolOf(t);
  }

  /** The look-up, the stamp and the test of a `Get`. */
  function Tested(z: Shared, crc: uint16, roomy: bool): Thread {
    After(z, GetTest(crc, Lookup(z.crc2conn, crc), Lookup(z.crcContainer, crc), Lookup(z.crc2lock, crc)), None, roomy)
  }

  lemma {:induction false} LooksUp(z: Shared, tid: nat, crc: uint16, now: int, roomy: bool) returns (evs: seq<Event>)
    requires tid !in z.threads && Lookup(z.crcContainer, crc) != Some(None)
    ensures Alone(evs, tid)
    ensures Execs(z, evs) == Some(Put(z.(usage := z.usage[crc := now]), tid, Tested(z, crc, roomy)))
  {
    var conn, container, lock := Lookup(z.crc2conn, crc), Lookup(z.crcContainer, crc), Lookup(z.crc2lock, crc);
    var u := z.(usage := z.usage[crc := now]);
    evs := [CallGet(tid, crc)];
    ExecsSnoc(z, [], CallGet(tid, crc), z);
    assert [] + [CallGet(tid, crc)] == evs;
    evs := Continue(z, evs, z, tid, GetLook(crc), now, None, roomy);
    evs := Continue(z, evs, z, tid, GetStamp(crc, conn, container, lock), now, None, roomy);
    evs := Continue(z, evs, u, tid, GetTest(crc, conn, container, lock), now, None, roomy);
  }

  /** The recorded container has room for another packet of its flows. */
  predicate Roomy(s: F.State, crc: uint16)
    requires F.InRange(s)
  {
    crc in s.crcContainer && s.elems[s.crcContainer[crc]].fluxes <= s.elems[s.crcContainer[crc]].maxFluxes
  }

  /** Goroutine `tid` has returned what the `Get` step returned. */
  predicate Returned(y: Shared, tid: nat, crc: uint16, g: F.GetResult, conns: seq<F.Conn>)
    requires g.Got?
  {
    && tid in y.threads
    && y.threads[tid].GetDone?
    && y.threads[tid].crc == crc
    && y.threads[tid].answer < |conns|
    && conns[y.threads[tid].answer] == g.conn
    && y.threads[tid].lock == g.sem
  }

  lemma Returns(threads: map<nat, Thread>, y: Shared, tid: nat, crc: uint16, hit: bool, e: nat, g: F.GetResult,
                conns: seq<F.Conn>)
    requires g.Got? && e < |conns| && conns[e] == g.conn && y.threads == threads[tid := GetDone(crc, hit, e, g.sem)]
    ensures Returned(y, tid, crc, g, conns) && y.threads.Keys == threads.Keys + {tid}
  {
  }

  /** A hit, run without interruption, is the `Get` step: the same connection, semaphore and state. */
  lemma {:induction false} HitBySections(z: Shared, s: F.State, conns: seq<F.Conn>, tid: nat, crc: uint16, now: int)
      returns (evs: seq<Event>, y: Shared)
    requires Mirrors(z, s, conns) && FlowRun.Sound(s) && tid !in z.threads && F.Hit(s, crc)
    ensures Alone(evs, tid) && Execs(z, evs) == Some(y) && y.threads.Keys == z.threads.Keys + {tid}
    ensures Mirrors(y, F.GetStep(s, crc, now).s, conns) && Returned(y, tid, crc, F.GetStep(s, crc, now), conns)
  {
    evs := LooksUp(z, tid, crc, now, true);
    var e := z.crc2conn[crc];
    y := Put(z.(usage := z.usage[crc := now]), tid, GetDone(crc, true, e, Lookup(z.crc2lock, crc)));
    Returns(z.threads, y, tid, crc, true, e, F.GetStep(s, crc, now), conns);
  }

  /** What a miss given to `c` leaves. */
  function Given(z: Shared, crc: uint16, c: nat): Shared {
    z.(ports := z.ports[c := PortsOf(z, c) + {crc}],
       crc2conn := z.crc2conn[crc := c],
       crc2lock := z.crc2lock[crc := z.sems],
       crcContainer := z.crcContainer[crc := Some(c)],
       sems := z.sems + 1,
       watches := z.watches + {Watch(z.births, c, crc, None, Ticking)},
       births := z.births + 1)
  }

  /** Where a goroutine stands does not matter. */
  lemma PutMirrors(z: Shared, s: F.State, conns: seq<F.Conn>, tid: nat, th: Thread)
    requires Mirrors(z, s, conns)
    ensures Mirrors(Put(z, tid, th), s, conns)
  {
  }

  function WithPort(z: Shared, crc: uint16, c: nat): Shared {
    z.(pool := Picked(z.pool), ports := z.ports[c := PortsOf(z, c) + {crc}])
  }

  lemma {:induction false} TakesPort(z: Shared, evs: seq<Event>, u: Shared, tid: nat, crc: uint16, c: nat, now: int)
      returns (evs': seq<Event>)
    requires Alone(evs, tid) && Execs(z, evs) == Some(Put(u, tid, GetPick(crc))) && CanPick(u, Some(c))
    ensures Alone(evs', tid)
    ensures Execs(z, evs') == Some(Put(WithPort(u, crc, c), tid, GetEnter(crc, c)))
  {
    evs' := Continue(z, evs, u, tid, GetPick(crc), now, Some(c), true);
    evs' := Continue(z, evs', u.(pool := Picked(u.pool)), tid, GetAddCrc(crc, c), now, None, true);
  }

  /** Entering the flow into the maps, and starting its watcher. */
  function Watched(z: Shared, crc: uint16, c: nat): Shared {
    Effect(Effect(z, GetEnter(crc, c), 0), GetWatch(crc, c, z.sems), 0)
  }

  lemma {:induction false} Enters(z: Shared, evs: seq<Event>, u: Shared, tid: nat, crc: uint16, c: nat)
      returns (evs': seq<Event>)
    requires Alone(evs, tid) && Execs(z, evs) == Some(Put(u, tid, GetEnter(crc, c))) && c !in u.pool.dropped
    ensures Alone(evs', tid)
    ensures Execs(z, evs') == Some(Put(Watched(u, crc, c), tid, GetDone(crc, false, c, Some(u.sems))))
  {
    evs' := Continue(z, evs, u, tid, GetEnter(crc, c), 0, None, true);
    evs' := Continue(z, evs', Effect(u, GetEnter(crc, c), 0), tid, GetWatch(crc, c, u.sems), 0, None, true);
  }

  lemma {:induction false} Takes(z: Shared, evs: seq<Event>, u: Shared, tid: nat, crc: uint16, c: nat, now: int)
      returns (evs': seq<Event>)
    requires Alone(evs, tid) && Execs(z, evs) == Some(Put(u, tid, GetPick(crc)))
    requires !u.pool.torn && c in u.pool.live && c !in u.pool.dropped
    ensures Alone(evs', tid)
    ensures Execs(z, evs') == Some(Put(Given(u, crc, c), tid, GetDone(crc, false, c, Some(u.sems))))
  {
    evs' := TakesPort(z, evs, u, tid, crc, c, now);
    evs' := Enters(z, evs', WithPort(u, crc, c), tid, crc, c);
    assert Watched(WithPort(u, crc, c), crc, c) == Given(u, crc, c);
  }

  lemma PoolUpdated(s: F.State, c: nat, el: F.Elem)
    requires c < |s.elems| && el.hasContainer == s.elems[c].hasContainer && el.hasMap == s.elems[c].hasMap
    ensures PoolOf(s.(elems := s.elems[c := el])) == PoolOf(s)
  {
  }

  lemma PortsUpdated(elems: seq<F.Elem>, c: nat, el: F.Elem)
    requires c < |elems|
    ensures PortsMap(elems[c := el]) == PortsMap(elems)[c := el.ports]
  {
  }

  lemma WatchAdded(watchers: set<F.Watcher>, w: F.Watcher, births: nat)
    requires Distinct(watchers) && (forall v :: v in watchers ==> v.birth < births) && w.birth == births
    ensures Distinct(watchers + {w}) && WatchesOf(watchers + {w}) == WatchesOf(watchers) + {WatchOf(w)}
  {
  }

  lemma PointerSet(containers: map<uint16, nat>, crc: uint16, c: nat)
    ensures Pointers(containers[crc := c]) == Pointers(containers)[crc := Some(c)]
  {
  }

  lemma AssignMirrors(z: Shared, s: F.State, conns: seq<F.Conn>, crc: uint16, c: nat)
    requires Mirrors(z, s, conns) && F.InRange(s) && c < |s.elems| && s.elems[c].hasContainer
    ensures Mirrors(Given(z, crc, c), F.Assign(s, crc, c), conns)
  {
    var el := s.elems[c].(ports := s.elems[c].ports + {crc}, fluxes := F.IncFluxes(s.elems[c].fluxes));
    PoolUpdated(s, c, el);
    PortsUpdated(s.elems, c, el);
    WatchAdded(s.watchers, F.Watcher(s.births, c, crc, s.fluxMaxAge, None), s.births);
    PointerSet(s.crcContainer, crc, c);
    var t := F.Assign(s, crc, c);
    assert PoolOf(t) == PoolOf(s.(elems := s.elems[c := el]));
    assert Conns(t, conns);
  }

  /** The maps after a miss, once the flow was given to the element under the cursor. */
  lemma MissMirrors(z: Shared, s: F.State, conns: seq<F.Conn>, crc: uint16, now: int)
    requires Mirrors(z, s, conns) && FlowRun.Sound(s) && !F.Hit(s, crc) && F.GetStep(s, crc, now).Got?
    ensures s.cursor.Some? && s.cursor.value < |conns|
    ensures var g, c := F.GetStep(s, crc, now), s.cursor.value;
            && Mirrors(Given(z.(usage := z.usage[crc := now]), crc, c), g.s, conns)
            && conns[c] == g.conn && g.sem == Some(z.sems)
            && !z.pool.torn && c in z.pool.live && c !in z.pool.dropped
  {
    var c := s.cursor.value;
    var t := s.(usage := s.usage[crc := now], cursor := RingSeq.Succ(s.ring, c));
    assert PoolOf(t) == PoolOf(s);
    AssignMirrors(z.(usage := z.usage[crc := now]), t, conns, crc, c);
  }

  /** A flow that is not served from the table goes on to the cursor. */
  lemma MissTested(z: Shared, s: F.State, conns: seq<F.Conn>, crc: uint16)
    requires Mirrors(z, s, conns) && F.InRange(s) && !F.Hit(s, crc)
    ensures Lookup(z.crcContainer, crc) != Some(None) && Tested(z, crc, Roomy(s, crc)) == GetPick(crc)
  {
  }

  lemma {:induction false} Misses(z: Shared, tid: nat, crc: uint16, now: int, roomy: bool, c: nat)
      returns (evs: seq<Event>)
    requires tid !in z.threads && Lookup(z.crcContainer, crc) != Some(None) && Tested(z, crc, roomy) == GetPick(crc)
    requires !z.pool.torn && c in z.pool.live && c !in z.pool.dropped
    ensures Alone(evs, tid)
    ensures var u := z.(usage := z.usage[crc := now]);
            Execs(z, evs) == Some(Put(Given(u, crc, c), tid, GetDone(crc, false, c, Some(z.sems))))
  {
    evs := LooksUp(z, tid, crc, now, roomy);
    evs := Takes(z, evs, z.(usage := z.usage[crc := now]), tid, crc, c, now);
  }

  /** A miss, run without interruption, is the `Get` step. */
  lemma {:induction false} MissBySections(z: Shared, s: F.State, conns: seq<F.Conn>, tid: nat, crc: uint16, now: int)
      returns (evs: seq<Event>, y: Shared)
    requires Mirrors(z, s, conns) && FlowRun.Sound(s) && tid !in z.threads && !F.Hit(s, crc)
    requires F.GetStep(s, crc, now).Got?
    ensures Alone(evs, tid) && Execs(z, evs) == Some(y) && y.threads.Keys == z.threads.Keys + {tid}
    ensures Mirrors(y, F.GetStep(s, crc, now).s, conns) && Returned(y, tid, crc, F.GetStep(s, crc, now), conns)
  {
    MissMirrors(z, s, conns, crc, now);
    MissTested(z, s, conns, crc);
    var g, c := F.GetStep(s, crc, now), s.cursor.value;
    evs := Misses(z, tid, crc, now, Roomy(s, crc), c);
    var u := Given(z.(usage := z.usage[crc := now]), crc, c);
    PutMirrors(u, g.s, conns, tid, GetDone(crc, false, c, g.sem));
    y := Put(u, tid, GetDone(crc, false, c, g.sem));
    Returns(z.threads, y, tid, crc, false, c, g, conns);
  }

  /** The sections reach a state from which the next one panics. */
  ghost predicate EndsInPanic(z: Shared, evs: seq<Event>, y: Shared, ev: Event) {
    Execs(z, evs) == Some(y) && Enabled(y, ev) && Panics(y, ev)
  }

  /** Over an empty ring with a cursor left, a `Get` goes on to count its flow on a nil container. */
  lemma {:induction false} StaleCursorPanics(z: Shared, evs: seq<Event>, u: Shared, tid: nat, crc: uint16, c: nat,
                                             now: int)
      returns (evs': seq<Event>, y: Shared, ev: Event)
    requires Alone(evs, tid) && Execs(z, evs) == Some(Put(u, tid, GetPick(crc)))
    requires CanPick(u, Some(c)) && c in u.pool.dropped
    ensures Alone(evs' + [ev], tid) && EndsInPanic(z, evs', y, ev)
  {
    evs' := TakesPort(z, evs, u, tid, crc, c, now);
    evs' := Continue(z, evs', WithPort(u, crc, c), tid, GetEnter(crc, c), now, None, true);
    y := Put(Effect(WithPort(u, crc, c), GetEnter(crc, c), now), tid, GetWatch(crc, c, u.sems));
    ev := Run(tid, now, None, true);
  }

  lemma PanicPool(s: F.State, crc: uint16, now: int)
    requires FlowRun.Sound(s) && F.GetStep(s, crc, now).GetPanic?
    ensures PoolOf(s).live == {} && PoolOf(s).stale == s.cursor && !F.Hit(s, crc)
    ensures s.cursor.Some? ==> s.cursor.value in PoolOf(s).dropped
  {
  }

  /** A `Get` that panics does so when its sections are run without interruption. */
  lemma {:induction false} PanicBySections(z: Shared, s: F.State, conns: seq<F.Conn>, tid: nat, crc: uint16, now: int)
      returns (evs: seq<Event>, y: Shared, ev: Event)
    requires Mirrors(z, s, conns) && FlowRun.Sound(s) && tid !in z.threads && F.GetStep(s, crc, now).GetPanic?
    ensures Alone(evs + [ev], tid) && EndsInPanic(z, evs, y, ev)
  {
    var u := z.(usage := z.usage[crc := now]);
    MissTested(z, s, conns, crc);
    PanicPool(s, crc, now);
    evs := LooksUp(z, tid, crc, now, Roomy(s, crc));
    if s.cursor.Some? {
      evs, y, ev := StaleCursorPanics(z, evs, u, tid, crc, s.cursor.value, now);
    } else {
      y, ev := Put(u, tid, GetPick(crc)), Run(tid, now, None, true);
    }
  }

  lemma SoleIff(ring: seq<nat>, e: nat)
    requires RingSeq.NoDup(ring) && e in ring
    ensures (set x | x in ring) == {e} <==> |ring| == 1
  {
    var all := set x | x in ring;
    if |ring| > 1 {
      var y := if ring[0] == e then ring[1] else ring[0];
      assert y in all && y !in {e};
    } else {
      assert forall x :: x in all <==> x == e;
    }
  }

  /** Unlinking and stopping on the pool, and the picks after it. */
  lemma UnlinkMirrors(s: F.State, e: nat)
    requires FlowRun.Sound(s) && e in s.ring
    ensures PoolOf(F.Unlink(s, e)) == Unlinked(PoolOf(s), e)
  {
    RingSeq.WithoutMembers(s.ring, e);
    SoleIff(s.ring, e);
    FlowRun.UnlinkInRange(s, e);
    if |s.ring| == 1 {
      FlowRun.UnlinkSole(s, e);
    } else {
      FlowRun.UnlinkCursor(s, e);
    }
    var p, q := PoolOf(F.Unlink(s, e)), Unlinked(PoolOf(s), e);
    assert p.live == q.live && p.stopped == q.stopped && p.dropped == q.dropped && p.mapless == q.mapless;
  }

  lemma AbandonMirrors(z: Shared, s: F.State, conns: seq<F.Conn>, e: nat)
    requires Mirrors(z, s, conns) && e < |s.elems| && e !in s.ring
    ensures Mirrors(z.(pool := PoolEffect(z.pool, DeleteUnlink(e))), F.Abandon(s, e), conns)
  {
    var t := F.Abandon(s, e);
    PortsUpdated(s.elems, e, t.elems[e]);
    var p, q := PoolOf(t), PoolEffect(z.pool, DeleteUnlink(e));
    assert p.live == q.live && p.stopped == q.stopped && p.dropped == q.dropped && p.mapless == q.mapless;
  }

  /** A repeated `Delete`, run without interruption, is the delete step. */
  lemma {:induction false} RepeatedBySections(z: Shared, s: F.State, conns: seq<F.Conn>, tid: nat, e: nat)
      returns (evs: seq<Event>, y: Shared)
    requires Mirrors(z, s, conns) && FlowRun.Sound(s) && tid !in z.threads && e < |s.elems| && e !in s.ring
    ensures Alone(evs, tid) && Execs(z, evs) == Some(y) && y.threads == z.threads[tid := DeleteDone(e)]
    ensures F.DeleteStep(s, e).Some? && Mirrors(y, F.DeleteStep(s, e).value, conns)
  {
    evs := CallsDelete(z, [], z, tid, e);
    var u := z.(pool := PoolEffect(z.pool, DeleteUnlink(e)));
    AbandonMirrors(z, s, conns, e);
    PutMirrors(u, F.Abandon(s, e), conns, tid, DeleteDone(e));
    y := Put(u, tid, DeleteDone(e));
  }

  lemma IdleMirrors(z: Shared, s: F.State, conns: seq<F.Conn>, e: nat)
    requires Mirrors(z, s, conns) && FlowRun.Sound(s) && e in s.ring && s.elems[e].ports == {}
    ensures F.DeleteStep(s, e).Some?
    ensures Mirrors(Effect(z.(pool := Unlinked(z.pool, e)), DeleteExit(e), 0), F.DeleteStep(s, e).value, conns)
  {
    UnlinkMirrors(s, e);
    var t := F.DeleteStep(s, e).value;
    PortsUpdated(s.elems, e, t.elems[e]);
    var p, q := PoolOf(t), PoolEffect(Unlinked(z.pool, e), DeleteExit(e));
    assert p.live == q.live && p.stopped == q.stopped && p.dropped == q.dropped && p.mapless == q.mapless;
    assert p.stale == q.stale;
  }

  /** The `Delete` of an idle member, run without interruption, is the delete step. */
  lemma {:induction false} IdleBySections(z: Shared, s: F.State, conns: seq<F.Conn>, tid: nat, e: nat)
      returns (evs: seq<Event>, y: Shared)
    requires Mirrors(z, s, conns) && FlowRun.Sound(s) && tid !in z.threads && e in s.ring && s.elems[e].ports == {}
    ensures Alone(evs, tid) && Execs(z, evs) == Some(y) && y.threads == z.threads[tid := DeleteDone(e)]
    ensures F.DeleteStep(s, e).Some? && Mirrors(y, F.DeleteStep(s, e).value, conns)
  {
    evs := Unlinking(z, [], z, tid, e);
    var u := z.(pool := Unlinked(z.pool, e));
    evs := Continue(z, evs, u, tid, DeleteExit(e), 0, None, true);
    IdleMirrors(z, s, conns, e);
    PutMirrors(Effect(u, DeleteExit(e), 0), F.DeleteStep(s, e).value, conns, tid, DeleteDone(e));
    y := Put(Effect(u, DeleteExit(e), 0), tid, DeleteDone(e));
  }

  function MovedAll(z: Shared, e: nat, m: nat): Shared {
    Effect(Effect(z, DeleteMove(e, m), 0), DeletePorts(e, m), 0)
  }

  lemma WatchesMoved(watchers: set<F.Watcher>, births: nat, e: nat, m: nat, ports: set<uint16>)
    requires Distinct(watchers) && forall v :: v in watchers ==> v.birth < births
    ensures var added := F.MigrationWatchers(births, e, m, ports);
            && Distinct(watchers + added)
            && WatchesOf(watchers + added) == WatchesOf(watchers) + MovedWatches(ports, births, e, m)
  {
    var added := F.MigrationWatchers(births, e, m, ports);
    forall w | w in MovedWatches(ports, births, e, m)
      ensures w in WatchesOf(watchers + added)
    {
      assert F.Watcher(births, m, w.crc, F.MIGRATION_AGE, Some(e)) in added;
    }
  }

  lemma NamesMoved(named: map<uint16, nat>, table: map<uint16, F.Conn>, conns: seq<F.Conn>, ports: set<uint16>, m: nat)
    requires Names(named, table, conns) && m < |conns|
    ensures Names(named + Rerouted(ports, m), table + (map p | p in ports :: conns[m]), conns)
  {
  }

  lemma MovedFields(z: Shared, e: nat, m: nat)
    ensures MovedAll(z, e, m) ==
            z.(crc2conn := z.crc2conn + Rerouted(PortsOf(z, e), m),
               watches := z.watches + MovedWatches(PortsOf(z, e), z.births, e, m),
               births := z.births + 1,
               ports := z.ports[m := PortsOf(z, m) + PortsOf(z, e)])
  {
  }

  lemma MigrateConns(s: F.State, conns: seq<F.Conn>, e: nat, m: nat)
    requires Conns(s, conns) && e < |s.elems| && m < |s.elems| && s.elems[m].hasContainer
    ensures Conns(F.Migrate(s, e, m), conns) && s.elems[m].conn == conns[m]
    ensures PoolOf(F.Migrate(s, e, m)) == PoolOf(s)
  {
    var t := F.Migrate(s, e, m);
    PoolUpdated(s, m, t.elems[m]);
    assert PoolOf(t) == PoolOf(s.(elems := t.elems));
  }

  lemma MigrateMirrors(z: Shared, s: F.State, conns: seq<F.Conn>, e: nat, m: nat)
    requires Mirrors(z, s, conns) && F.InRange(s) && e < |s.elems| && m < |s.elems| && s.elems[m].hasContainer
    ensures Mirrors(MovedAll(z, e, m), F.Migrate(s, e, m), conns)
  {
    var ports, t := s.elems[e].ports, F.Migrate(s, e, m);
    MovedFields(z, e, m);
    MigrateConns(s, conns, e, m);
    NamesMoved(z.crc2conn, s.crc2conn, conns, ports, m);
    PortsUpdated(s.elems, m, t.elems[m]);
    WatchesMoved(s.watchers, s.births, e, m, ports);
  }

  lemma MovedOther(z: Shared, e: nat, m: nat)
    ensures MovedAll(z, e, m).threads == z.threads && MovedAll(z, e, m).pool == z.pool
  {
  }

  lemma {:induction false} Reroutes(z: Shared, evs: seq<Event>, u: Shared, tid: nat, e: nat, m: nat)
      returns (evs': seq<Event>)
    requires Alone(evs, tid) && Execs(z, evs) == Some(Put(u, tid, DeleteMove(e, m)))
    requires e !in u.pool.mapless && m !in u.pool.dropped
    ensures Alone(evs', tid)
    ensures Execs(z, evs') == Some(Put(MovedAll(u, e, m), tid, DeleteSignal(e)))
  {
    evs' := Continue(z, evs, u, tid, DeleteMove(e, m), 0, None, true);
    evs' := Continue(z, evs', Effect(u, DeleteMove(e, m), 0), tid, DeletePorts(e, m), 0, None, true);
  }

  lemma {:induction false} MovesTable(z: Shared, evs: seq<Event>, u: Shared, tid: nat, e: nat, m: nat)
      returns (evs': seq<Event>)
    requires Alone(evs, tid) && Execs(z, evs) == Some(Put(u, tid, DeleteMove(e, m)))
    requires e !in u.pool.mapless && e !in u.pool.dropped && m !in u.pool.dropped
    ensures Alone(evs', tid)
    ensures Execs(z, evs') == Some(Put(MovedAll(u, e, m), tid, DeleteDone(e)))
  {
    evs' := Reroutes(z, evs, u, tid, e, m);
    MovedOther(u, e, m);
    evs' := Continue(z, evs', MovedAll(u, e, m), tid, DeleteSignal(e), 0, None, true);
  }

  /** The move of a `Delete`, to the element `m` under the cursor. */
  lemma {:induction false} MovesTo(z: Shared, evs: seq<Event>, u: Shared, tid: nat, e: nat, m: nat)
      returns (evs': seq<Event>)
    requires Alone(evs, tid) && Execs(z, evs) == Some(Put(u, tid, DeletePick(e)))
    requires CanPick(u, Some(m)) && e !in u.pool.mapless && e !in u.pool.dropped && m !in u.pool.dropped
    ensures Alone(evs', tid)
    ensures Execs(z, evs') == Some(Put(MovedAll(u.(pool := Picked(u.pool)), e, m), tid, DeleteDone(e)))
  {
    evs' := Continue(z, evs, u, tid, DeletePick(e), 0, Some(m), true);
    evs' := MovesTable(z, evs', u.(pool := Picked(u.pool)), tid, e, m);
  }

  /** Where the cursor stands after the unlinking, and where `Next` leaves it. */
  lemma PickMirrors(s: F.State, e: nat)
    requires FlowRun.Sound(s) && e in s.ring
    ensures F.Unlink(s, e).cursor.Some? && F.Unlink(s, e).cursor.value < |s.elems|
    ensures var u := F.Unlink(s, e);
            var m := u.cursor.value;
            && s.elems[m].hasContainer
            && (u.ring != [] ==> m in u.ring)
            && PoolOf(u.(cursor := RingSeq.Succ(u.ring, m))) == Picked(PoolOf(u))
  {
    FlowRun.UnlinkInRange(s, e);
    RingSeq.WithoutMembers(s.ring, e);
    if |s.ring| == 1 {
      FlowRun.UnlinkSole(s, e);
    } else {
      FlowRun.UnlinkCursor(s, e);
    }
  }

  /** The `Delete` step of a member with flows, as an unlinking and a migration. */
  lemma MovingStep(s: F.State, e: nat)
    requires FlowRun.Sound(s) && e in s.ring && s.elems[e].ports != {}
    ensures F.Unlink(s, e).cursor.Some? && F.Unlink(s, e).cursor.value < |s.elems|
    ensures var u := F.Unlink(s, e);
            var v := u.(cursor := RingSeq.Succ(u.ring, u.cursor.value));
            F.InRange(v) && F.DeleteStep(s, e) == Some(F.Migrate(v, e, u.cursor.value))
  {
    FlowRun.UnlinkInRange(s, e);
    if |s.ring| == 1 {
      FlowRun.UnlinkSole(s, e);
    } else {
      FlowRun.UnlinkSound(s, e);
    }
  }

  /** Only the pool changes by unlinking and moving the cursor on. */
  lemma UnlinkedMirrors(z: Shared, s: F.State, conns: seq<F.Conn>, e: nat, v: F.State)
    requires Mirrors(z, s, conns) && v == F.Unlink(s, e).(cursor := v.cursor)
    ensures Mirrors(z.(pool := PoolOf(v)), v, conns)
  {
  }

  /** What `Next` finds after the unlinking, and the pool it leaves. */
  lemma PickedPool(z: Shared, s: F.State, e: nat)
    requires z.pool == PoolOf(s) && z.ports == PortsMap(s.elems) && FlowRun.Sound(s) && e in s.ring
    ensures F.Unlink(s, e).cursor.Some? && F.Unlink(s, e).cursor.value < |s.elems|
    ensures var p, t := Unlinked(z.pool, e), F.Unlink(s, e);
            var m := t.cursor.value;
            && CanPick(z.(pool := p), Some(m)) && m !in p.dropped && s.elems[m].hasContainer
            && Picked(p) == PoolOf(t.(cursor := RingSeq.Succ(t.ring, m)))
  {
    UnlinkMirrors(s, e);
    PickMirrors(s, e);
  }

  lemma MovedMirrors(z: Shared, s: F.State, conns: seq<F.Conn>, e: nat)
    requires Mirrors(z, s, conns) && FlowRun.Sound(s) && e in s.ring && s.elems[e].ports != {}
    ensures F.Unlink(s, e).cursor.Some? && F.DeleteStep(s, e).Some?
    ensures var p, m := Unlinked(z.pool, e), F.Unlink(s, e).cursor.value;
            && CanPick(z.(pool := p), Some(m)) && m !in p.dropped
            && Mirrors(MovedAll(z.(pool := Picked(p)), e, m), F.DeleteStep(s, e).value, conns)
  {
    PickedPool(z, s, e);
    MovingStep(s, e);
    var t := F.Unlink(s, e);
    var m := t.cursor.value;
    var v := t.(cursor := RingSeq.Succ(t.ring, m));
    UnlinkedMirrors(z, s, conns, e, v);
    MigrateMirrors(z.(pool := PoolOf(v)), v, conns, e, m);
  }

  lemma {:induction false} MovesAway(z: Shared, tid: nat, e: nat, m: nat) returns (evs: seq<Event>)
    requires tid !in z.threads && e in z.ports && z.ports[e] != {} && e in z.pool.live && e !in z.pool.stopped
    requires e !in z.pool.mapless && e !in z.pool.dropped && m !in z.pool.dropped
    requires CanPick(z.(pool := Unlinked(z.pool, e)), Some(m))
    ensures Alone(evs, tid)
    ensures var p := Picked(Unlinked(z.pool, e));
            Execs(z, evs) == Some(Put(MovedAll(z.(pool := p), e, m), tid, DeleteDone(e)))
  {
    evs := Unlinking(z, [], z, tid, e);
    evs := MovesTo(z, evs, z.(pool := Unlinked(z.pool, e)), tid, e, m);
  }

  lemma MemberMirrors(z: Shared, s: F.State, conns: seq<F.Conn>, e: nat)
    requires Mirrors(z, s, conns) && FlowRun.Sound(s) && e in s.ring
    ensures e in z.ports && z.ports[e] == s.elems[e].ports && e in z.pool.live && e !in z.pool.stopped
    ensures e !in z.pool.mapless && e !in z.pool.dropped
  {
  }

  /** The `Delete` of a member with flows, run without interruption, is the delete step. */
  lemma {:induction false} MovingBySections(z: Shared, s: F.State, conns: seq<F.Conn>, tid: nat, e: nat)
      returns (evs: seq<Event>, y: Shared)
    requires Mirrors(z, s, conns) && FlowRun.Sound(s) && tid !in z.threads && e in s.ring && s.elems[e].ports != {}
    ensures Alone(evs, tid) && Execs(z, evs) == Some(y) && y.threads == z.threads[tid := DeleteDone(e)]
    ensures F.DeleteStep(s, e).Some? && Mirrors(y, F.DeleteStep(s, e).value, conns)
  {
    MovedMirrors(z, s, conns, e);
    MemberMirrors(z, s, conns, e);
    var p, m := Picked(Unlinked(z.pool, e)), F.Unlink(s, e).cursor.value;
    evs := MovesAway(z, tid, e, m);
    var u := MovedAll(z.(pool := p), e, m);
    MovedOther(z.(pool := p), e, m);
    PutMirrors(u, F.DeleteStep(s, e).value, conns, tid, DeleteDone(e));
    y := Put(u, tid, DeleteDone(e));
  }

  /** Every `Delete`, run without interruption, is the delete step. */
  lemma {:induction false} DeleteBySections(z: Shared, s: F.State, conns: seq<F.Conn>, tid: nat, e: nat)
      returns (evs: seq<Event>, y: Shared)
    requires Mirrors(z, s, conns) && FlowRun.Sound(s) && tid !in z.threads && e < |s.elems|
    ensures Alone(evs, tid) && Execs(z, evs) == Some(y) && y.threads == z.threads[tid := DeleteDone(e)]
    ensures F.DeleteStep(s, e).Some? && Mirrors(y, F.DeleteStep(s, e).value, conns)
  {
    if e !in s.ring {
      evs, y := RepeatedBySections(z, s, conns, tid, e);
    } else if s.elems[e].ports == {} {
      evs, y := IdleBySections(z, s, conns, tid, e);
    } else {
      evs, y := MovingBySections(z, s, conns, tid, e);
    }
  }

  lemma WatchGone(watchers: set<F.Watcher>, w: F.Watcher)
    requires Distinct(watchers) && w in watchers
    ensures Distinct(watchers - {w}) && WatchesOf(watchers - {w}) == WatchesOf(watchers) - {WatchOf(w)}
  {
  }

  lemma StopMirrors(z: Shared, s: F.State, conns: seq<F.Conn>, w: F.Watcher)
    requires Mirrors(z, s, conns) && F.InRange(s) && w in s.watchers && w.elem !in s.ring
    ensures Exec(z, Quit(WatchOf(w))).Some?
    ensures var y := Exec(z, Quit(WatchOf(w))).value;
            Mirrors(y, s.(watchers := s.watchers - {w}), conns) && y.threads == z.threads
  {
    WatchGone(s.watchers, w);
  }

  /** The state once a watcher has forgotten its flow. */
  function Forgotten(z: Shared, w: Watch): Shared {
    z.(crc2conn := z.crc2conn - {w.crc},
       crcContainer := if w.via.None? then z.crcContainer - {w.crc} else z.crcContainer,
       watches := z.watches - {w})
  }

  lemma PointerGone(containers: map<uint16, nat>, crc: uint16)
    ensures Pointers(containers - {crc}) == Pointers(containers) - {crc}
  {
  }

  lemma ExpireMirrors(z: Shared, s: F.State, conns: seq<F.Conn>, w: F.Watcher)
    requires Mirrors(z, s, conns) && F.InRange(s) && w in s.watchers
    ensures Mirrors(Forgotten(z, WatchOf(w)), F.Expire(s, w), conns)
  {
    var t := F.Expire(s, w);
    WatchGone(s.watchers, w);
    PointerGone(s.crcContainer, w.crc);
    PortsUpdated(s.elems, w.elem, t.elems[w.elem]);
    PoolUpdated(s, w.elem, t.elems[w.elem]);
    assert PoolOf(t) == PoolOf(s.(elems := t.elems));
    assert Conns(t, conns);
  }

  /** The three sections of a watcher whose flow has expired. */
  lemma {:induction false} Expires(z: Shared, w: Watch, now: int, timeout: int) returns (evs: seq<Event>)
    requires w in z.watches && w.phase.Ticking? && w.crc in z.usage && now - z.usage[w.crc] > timeout
    requires w.(phase := Expiring) !in z.watches && w.(phase := Forgetting) !in z.watches
    requires !Unreachable(z, w) && w.elem !in z.pool.dropped
    ensures Execs(z, evs) == Some(Forgotten(z, w))
  {
    var v, x := w.(phase := Expiring), w.(phase := Forgetting);
    var u := z.(watches := z.watches - {w} + {v});
    evs := [Tick(w, now, timeout), Decrement(v), Forget(x)];
    ExecsSnoc(z, [], Tick(w, now, timeout), z);
    assert [] + [Tick(w, now, timeout)] == [Tick(w, now, timeout)];
    ExecsSnoc(z, [Tick(w, now, timeout)], Decrement(v), u);
    assert u.watches - {v} + {x} == z.watches - {w} + {x};
    ExecsSnoc(z, [Tick(w, now, timeout), Decrement(v)], Forget(x), z.(watches := z.watches - {w} + {x}));
    assert z.watches - {w} + {x} - {x} == z.watches - {w};
    assert evs == [Tick(w, now, timeout), Decrement(v)] + [Forget(x)];
  }

  /** The sections of a watcher from a tick on are the tick step, unless that panics. */
  lemma {:induction false} TickBySections(z: Shared, s: F.State, conns: seq<F.Conn>, w: F.Watcher, now: int)
      returns (evs: seq<Event>, y: Shared)
    requires Mirrors(z, s, conns) && FlowRun.Sound(s) && w in s.watchers && F.TickStep(s, w, now).Some?
    ensures Execs(z, evs) == Some(y) && Mirrors(y, F.TickStep(s, w, now).value, conns) && y.threads == z.threads
  {
    if now - s.usage[w.crc] > w.timeout {
      evs := Expires(z, WatchOf(w), now, w.timeout);
      y := Forgotten(z, WatchOf(w));
      ExpireMirrors(z, s, conns, w);
    } else {
      evs, y := [Tick(WatchOf(w), now, w.timeout)], z;
      ExecsSnoc(z, [], Tick(WatchOf(w), now, w.timeout), z);
      assert [] + evs == evs;
    }
  }

  /** A tick that panics does so in one of these sections. */
  lemma {:induction false} TickPanicBySections(z: Shared, s: F.State, conns: seq<F.Conn>, w: F.Watcher, now: int)
      returns (evs: seq<Event>, y: Shared, ev: Event)
    requires Mirrors(z, s, conns) && FlowRun.Sound(s) && w in s.watchers && F.TickStep(s, w, now).None?
    ensures EndsInPanic(z, evs, y, ev)
  {
    evs, y, ev := [], z, Tick(WatchOf(w), now, w.timeout);
    if F.ReachesMap(s, w) {
      ExecsSnoc(z, [], ev, z);
      assert [] + [ev] == [ev];
      evs, y := [ev], Exec(z, ev).value;
      ev := Decrement(WatchOf(w).(phase := Expiring));
    }
  }
}
