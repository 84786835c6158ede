/** No flow is routed to a removed container, and no step panics, except where shown. */
module FlowRouting {
  import opened Words
  import opened RingSeq
  import opened FlowSpec
  import opened FlowRun
  import FlowRegistry

  /** `m` is a live member that knows the flow and owns the connection the table gives for it. */
  predicate Serves(s: State, m: nat, crc: uint16) {
    && m in s.ring
    && m < |s.elems|
    && crc in s.crc2conn
    && crc in s.elems[m].ports
    && s.elems[m].conn == s.crc2conn[crc]
  }

  ghost predicate Routed(s: State) {
    forall crc :: crc in s.crc2conn ==> exists m :: Serves(s, m, crc)
  }

  /** The one deletion that has nowhere to migrate to. */
  predicate StrandsFlows(s: State, ev: Event) {
    ev.Delete? && ev.e < |s.elems| && s.ring == [ev.e] && s.elems[ev.e].ports != {}
  }

  lemma AddRouted(s: State, conn: Conn, maxFluxes: int8)
    requires Sound(s) && Routed(s)
    ensures Routed(AddStep(s, conn, maxFluxes))
  {
    var t := AddStep(s, conn, maxFluxes);
    forall crc | crc in t.crc2conn
      ensures exists m :: Serves(t, m, crc)
    {
      var m :| Serves(s, m, crc);
      assert Serves(t, m, crc);
    }
  }

  /** Both kinds of `Get` answer with the connection of a live member that knows the flow. */
  lemma GetServed(s: State, crc: uint16, now: int)
    requires Sound(s) && Routed(s)
    ensures GetStep(s, crc, now).GetPanic? <==> s.ring == []
    ensures GetStep(s, crc, now).Got? ==>
              && Routed(GetStep(s, crc, now).s)
              && Lookup(GetStep(s, crc, now).s.crc2conn, crc) == Some(GetStep(s, crc, now).conn)
              && Lookup(GetStep(s, crc, now).s.crc2lock, crc) == GetStep(s, crc, now).sem
              && GetStep(s, crc, now).sem.Some?
  {
    if Hit(s, crc) {
      var m :| Serves(s, m, crc);
    }
    if GetStep(s, crc, now).Got? {
      var t := GetStep(s, crc, now).s;
      forall c | c in t.crc2conn
        ensures exists m :: Serves(t, m, c)
      {
        if c == crc && !Hit(s, crc) {
          assert Serves(t, s.cursor.value, c);
        } else {
          var m :| Serves(s, m, c);
          assert Serves(t, m, c);
        }
      }
    }
  }

  lemma TickRouted(s: State, w: Watcher, now: int)
    requires Sound(s) && Routed(s) && w in s.watchers && TickStep(s, w, now).Some?
    ensures Routed(TickStep(s, w, now).value)
  {
    var t := TickStep(s, w, now).value;
    forall c | c in t.crc2conn
      ensures exists m :: Serves(t, m, c)
    {
      var m :| Serves(s, m, c);
      assert Serves(t, m, c);
    }
  }

  /** A state with the same table and ports, in which every serving member is still one. */
  lemma SameTableRouted(s: State, t: State)
    requires Routed(s) && t.crc2conn == s.crc2conn && |t.elems| == |s.elems|
    requires forall m :: m in s.ring && m < |s.elems| && s.elems[m].ports != {} ==>
               m in t.ring && t.elems[m] == s.elems[m]
    ensures Routed(t)
  {
    forall c | c in t.crc2conn
      ensures exists m :: Serves(t, m, c)
    {
      var m :| Serves(s, m, c);
      assert Serves(t, m, c);
    }
  }

  /** An unlinked element without ports carried no route, so `Delete` may return early. */
  lemma UnlinkIdleRouted(s: State, e: nat)
    requires Sound(s) && Routed(s) && e in s.ring && s.elems[e].ports == {}
    ensures Routed(DeleteStep(s, e).value)
  {
    WithoutMembers(s.ring, e);
    SameTableRouted(s, DeleteStep(s, e).value);
  }

  lemma MovedFlowServed(s: State, e: nat, r: nat, crc: uint16)
    requires e < |s.elems| && r < |s.elems| && r in s.ring && crc in s.elems[e].ports
    ensures Serves(Migrate(s, e, r), r, crc)
  {
  }

  lemma OtherFlowServed(s: State, e: nat, r: nat, m: nat, crc: uint16)
    requires e < |s.elems| && r < |s.elems| && Serves(s, m, crc) && crc !in s.elems[e].ports
    ensures Serves(Migrate(s, e, r), m, crc)
  {
  }

  /** Migration reroutes every flow that may have named `e`, to a member other than `e`. */
  lemma MigrationRouted(s: State, e: nat)
    requires Sound(s) && Routed(s) && e in s.ring && |s.ring| > 1 && s.elems[e].ports != {}
    ensures DeleteStep(s, e).Some? && Routed(DeleteStep(s, e).value)
  {
    UnlinkSound(s, e);
    WithoutMembers(s.ring, e);
    var u, r := Unlink(s, e), Unlink(s, e).cursor.value;
    var v := u.(cursor := Succ(u.ring, r));
    assert DeleteStep(s, e) == Some(Migrate(v, e, r));
    forall c | c in Migrate(v, e, r).crc2conn
      ensures exists m :: Serves(Migrate(v, e, r), m, c)
    {
      if c in s.elems[e].ports {
        MovedFlowServed(v, e, r, c);
      } else {
        var m :| Serves(s, m, c);
        assert Serves(v, m, c);
        OtherFlowServed(v, e, r, m, c);
      }
    }
  }

  /** Deleting the sole element leaves each of its flows routed to it, with an empty ring. */
  lemma SoleDeleteStrands(s: State, e: nat)
    requires Sound(s) && s.ring == [e] && s.elems[e].ports != {}
    ensures DeleteStep(s, e).Some?
    ensures DeleteStep(s, e).value.ring == [] && DeleteStep(s, e).value.cursor.None?
    ensures forall p :: p in s.elems[e].ports ==>
              Lookup(DeleteStep(s, e).value.crc2conn, p) == Some(s.elems[e].conn)
    ensures !Routed(DeleteStep(s, e).value)
  {
  }

  lemma DeadDeleteRouted(s: State, e: nat)
    requires Sound(s) && Routed(s) && e < |s.elems| && e !in s.ring
    ensures Routed(DeleteStep(s, e).value)
  {
    SameTableRouted(s, DeleteStep(s, e).value);
  }

  /** One step keeps the routing invariant exactly when it is not a stranding deletion. */
  lemma StepRoutedIff(s: State, ev: Event)
    requires Sound(s) && Routed(s) && Enabled(s, ev) && Step(s, ev).Some?
    ensures Routed(Step(s, ev).value) <==> !StrandsFlows(s, ev)
  {
    match ev
    case Add(conn, maxFluxes) => AddRouted(s, conn, maxFluxes);
    case Get(crc, now) => GetServed(s, crc, now);
    case Tick(w, now) => TickRouted(s, w, now);
    case Stop(w) =>
      forall c | c in s.crc2conn
        ensures exists m :: Serves(Step(s, ev).value, m, c)
      {
        var m :| Serves(s, m, c);
        assert Serves(Step(s, ev).value, m, c);
      }
    case Delete(e) =>
      if e !in s.ring {
        DeadDeleteRouted(s, e);
      } else if s.elems[e].ports == {} {
        UnlinkIdleRouted(s, e);
      } else if |s.ring| > 1 {
        MigrationRouted(s, e);
      } else {
        assert s.ring == [e];
        SoleDeleteStrands(s, e);
      }
  }

  /** Every state a run passes through is routed. */
  ghost predicate RoutedThroughout(s: State, evs: seq<Event>)
    requires Sound(s)
  {
    && (Run(s, evs).Some? ==> Routed(Run(s, evs).value))
    && (evs != [] ==> RoutedThroughout(s, evs[..|evs| - 1]))
  }

  /** No event of the run deletes the sole element while it has ports. */
  predicate NeverStrands(s: State, evs: seq<Event>)
    requires Sound(s)
  {
    evs != [] ==>
      var before := Run(s, evs[..|evs| - 1]);
      && NeverStrands(s, evs[..|evs| - 1])
      && (before.Some? ==> !StrandsFlows(before.value, evs[|evs| - 1]))
  }

  /**
   Over a whole run the table only ever names live members that know the flow, exactly when the run
   never deletes the sole element while it has ports.
   */
  lemma {:induction false} RunRoutedIff(s: State, evs: seq<Event>)
    requires Sound(s) && Routed(s) && Run(s, evs).Some?
    ensures RoutedThroughout(s, evs) <==> NeverStrands(s, evs)
  {
    if evs == [] {
    } else {
      var init := evs[..|evs| - 1];
      RunRoutedIff(s, init);
      if RoutedThroughout(s, init) {
        StepRoutedIff(Run(s, init).value, evs[|evs| - 1]);
      }
    }
  }

  lemma {:induction false} RunRouted(s0: State, evs: seq<Event>)
    requires Sound(s0) && Routed(s0) && Run(s0, evs).Some? && NeverStrands(s0, evs)
    ensures Routed(Run(s0, evs).value)
  {
    RunRoutedIff(s0, evs);
  }

  /** `Run` one event further. */
  lemma Then(s0: State, evs: seq<Event>, s: State, ev: Event) returns (evs': seq<Event>, t: State)
    requires Sound(s0) && Run(s0, evs) == Some(s) && Enabled(s, ev) && Step(s, ev).Some?
    ensures Run(s0, evs') == Some(t) && Some(t) == Step(s, ev) && Sound(t)
  {
    assert (evs + [ev])[..|evs|] == evs;
    StepSound(s, ev);
    return evs + [ev], Step(s, ev).value;
  }

  /** A live member still has the connection it was registered with. */
  lemma {:induction false} ServesRegistered(fluxMaxAge: int, evs: seq<Event>, s: State, m: nat, crc: uint16)
    requires Run(Init(fluxMaxAge), evs) == Some(s) && Serves(s, m, crc)
    ensures m < |FlowRegistry.Adds(evs)| && s.crc2conn[crc] == FlowRegistry.Adds(evs)[m].0
  {
    FlowRegistry.RegisteredAs(fluxMaxAge, evs, s, m);
  }

  /** The `Get` after a run is one more event of it, and registers nothing. */
  lemma {:induction false} GetRuns(fluxMaxAge: int, evs: seq<Event>, s: State, crc: uint16, now: int)
    requires Run(Init(fluxMaxAge), evs) == Some(s) && GetStep(s, crc, now).Got?
    ensures Run(Init(fluxMaxAge), evs + [Get(crc, now)]) == Some(GetStep(s, crc, now).s)
    ensures FlowRegistry.Adds(evs + [Get(crc, now)]) == FlowRegistry.Adds(evs)
  {
    assert (evs + [Get(crc, now)])[..|evs|] == evs;
  }

  /**
   The property over all runs of a new dispatcher, and what the next `Get` then answers: the connection
   some live member that knows the flow was registered with.
   */
  lemma {:induction false} NoStaleRoute(fluxMaxAge: int, evs: seq<Event>, s: State, crc: uint16, now: int)
    requires Run(Init(fluxMaxAge), evs) == Some(s)
    requires NeverStrands(Init(fluxMaxAge), evs)
    ensures Sound(s) && Routed(s)
    ensures GetStep(s, crc, now).GetPanic? <==> s.ring == []
    ensures var g := GetStep(s, crc, now);
            g.Got? ==> exists m: nat :: && Serves(g.s, m, crc)
                                        && m < |FlowRegistry.Adds(evs)| && g.conn == FlowRegistry.Adds(evs)[m].0
  {
    RunRouted(Init(fluxMaxAge), evs);
    GetServed(s, crc, now);
    var g := GetStep(s, crc, now);
    if g.Got? {
      var m :| Serves(g.s, m, crc);
      GetRuns(fluxMaxAge, evs, s, crc, now);
      ServesRegistered(fluxMaxAge, evs + [Get(crc, now)], g.s, m, crc);
    }
  }

  const OWN := Watcher(0, 0, 7, MIGRATION_AGE, None)

  /** A ring of one, with flow 7 assigned at time 0. */
  ghost predicate OneMember(s: State, conn: Conn) {
    && Sound(s)
    && s.ring == [0]
    && s.cursor == Some(0)
    && s.elems == [Elem(conn, {7}, true, true, 1, 10)]
    && Lookup(s.crcContainer, 7) == Some(0)
    && s.watchers == {OWN}
    && s.births == 1
    && s.usage == map[7 := 0]
  }

  lemma FirstAssignment(s: State, conn: Conn)
    requires Sound(s) && s == AddStep(Init(MIGRATION_AGE), conn, 10)
    ensures GetStep(s, 7, 0).Got? && OneMember(GetStep(s, 7, 0).s, conn)
  {
    assert s.ring == [0] && s.elems == [Elem(conn, {}, true, true, 0, 10)] && !Hit(s, 7);
    GetSound(s, 7, 0);
    var el := s.elems[0];
    assert el.ports + {7} == {7} && IncFluxes(el.fluxes) == 1;
    assert GetStep(s, 7, 0).s.elems == [el.(ports := el.ports + {7}, fluxes := IncFluxes(el.fluxes))];
    assert Succ(s.ring, 0) == Some(0);
  }

  lemma {:induction false} OneFlowOneMember(conn: Conn) returns (evs: seq<Event>, s: State)
    ensures OneMember(s, conn) && Run(Init(MIGRATION_AGE), evs) == Some(s)
  {
    var s0 := Init(MIGRATION_AGE);
    InitSound(MIGRATION_AGE);
    var evs1, s1 := Then(s0, [], s0, Add(conn, 10));
    FirstAssignment(s1, conn);
    evs, s := Then(s0, evs1, s1, Get(7, 0));
  }

  /** Without the hypothesis a hit can answer with the connection of a removed container. */
  lemma {:induction false} StaleRouteAfterSoleDelete(conn: Conn) returns (evs: seq<Event>, s: State)
    ensures Sound(s) && Run(Init(MIGRATION_AGE), evs) == Some(s)
    ensures s.ring == [] && GetStep(s, 7, 1).Got? && GetStep(s, 7, 1).conn == conn
  {
    var before, u := OneFlowOneMember(conn);
    SoleDeleteStrands(u, 0);
    StrandedFlowHits(u, conn);
    evs, s := Then(Init(MIGRATION_AGE), before, u, Delete(0));
  }

  lemma StrandedFlowHits(s: State, conn: Conn)
    requires OneMember(s, conn)
    ensures DeleteStep(s, 0).Some?
    ensures InRange(DeleteStep(s, 0).value)
    ensures GetStep(DeleteStep(s, 0).value, 7, 1).Got?
    ensures GetStep(DeleteStep(s, 0).value, 7, 1).conn == conn
  {
    UnlinkSole(s, 0);
    DeleteTotal(s, 0);
    assert DeleteStep(s, 0).value.elems[0].fluxes == 2;
  }

  /** Every outstanding watcher can still reach the counter it will decrement and the table it reads. */
  predicate WatchersIntact(s: State)
    requires InRange(s)
  {
    forall w :: w in s.watchers ==> s.elems[w.elem].hasContainer && ReachesMap(s, w)
  }

  /** The watcher belongs to `e`, or was started by the `Delete` of `e` and reads the table through it. */
  predicate DependsOn(w: Watcher, e: nat) {
    w.elem == e || w.via == Some(e)
  }

  /** A repeated `Delete` of an element that outstanding watchers depend on. */
  ghost predicate CutsWatchers(s: State, ev: Event) {
    ev.Delete? && ev.e !in s.ring && exists w :: w in s.watchers && DependsOn(w, ev.e)
  }

  lemma DeadDeleteIntactIff(s: State, e: nat)
    requires Sound(s) && WatchersIntact(s) && e < |s.elems| && e !in s.ring
    requires InRange(DeleteStep(s, e).value)
    ensures WatchersIntact(DeleteStep(s, e).value) <==> forall w :: w in s.watchers ==> !DependsOn(w, e)
  {
    var t := DeleteStep(s, e).value;
    if w :| w in s.watchers && DependsOn(w, e) {
      assert w in t.watchers && (!t.elems[w.elem].hasContainer || !ReachesMap(t, w));
    }
  }

  /** A first `Delete` leaves every watcher, old or new, with its container and its table. */
  lemma MigratingDeleteIntact(s: State, e: nat)
    requires Sound(s) && WatchersIntact(s) && e in s.ring && s.elems[e].ports != {}
    requires DeleteStep(s, e).Some? && InRange(DeleteStep(s, e).value)
    ensures WatchersIntact(DeleteStep(s, e).value)
  {
  }

  lemma DeleteIntactIff(s: State, e: nat)
    requires Sound(s) && WatchersIntact(s) && e < |s.elems|
    requires DeleteStep(s, e).Some? && Sound(DeleteStep(s, e).value)
    ensures WatchersIntact(DeleteStep(s, e).value) <==>
            e in s.ring || forall w :: w in s.watchers ==> !DependsOn(w, e)
  {
    if e !in s.ring {
      DeadDeleteIntactIff(s, e);
    } else if s.elems[e].ports != {} {
      MigratingDeleteIntact(s, e);
    }
  }

  /** One step keeps all watchers intact exactly when it is not a repeated `Delete` they depend on. */
  lemma StepIntactIff(s: State, ev: Event)
    requires Sound(s) && WatchersIntact(s) && Enabled(s, ev) && Step(s, ev).Some?
    ensures Sound(Step(s, ev).value)
    ensures WatchersIntact(Step(s, ev).value) <==> !CutsWatchers(s, ev)
  {
    StepSound(s, ev);
    if ev.Delete? {
      DeleteIntactIff(s, ev.e);
    }
  }

  /** With intact watchers only a `Get` miss over an empty ring panics; in particular no tick does. */
  lemma PanicsIff(s: State, ev: Event)
    requires Sound(s) && WatchersIntact(s) && Enabled(s, ev)
    ensures Step(s, ev).None? <==> ev.Get? && s.ring == [] && !Hit(s, ev.crc)
  {
  }

  /** No event of the run deletes an element again while watchers depend on it. */
  ghost predicate NeverCuts(s: State, evs: seq<Event>)
    requires Sound(s)
  {
    evs != [] ==>
      var before := Run(s, evs[..|evs| - 1]);
      && NeverCuts(s, evs[..|evs| - 1])
      && (before.Some? ==> !CutsWatchers(before.value, evs[|evs| - 1]))
  }

  /** All watchers are intact in every state a run passes through. */
  ghost predicate IntactThroughout(s: State, evs: seq<Event>)
    requires Sound(s)
  {
    && (Run(s, evs).Some? ==> WatchersIntact(Run(s, evs).value))
    && (evs != [] ==> IntactThroughout(s, evs[..|evs| - 1]))
  }

  lemma {:induction false} RunIntactIff(s: State, evs: seq<Event>)
    requires Sound(s) && WatchersIntact(s) && Run(s, evs).Some?
    ensures IntactThroughout(s, evs) <==> NeverCuts(s, evs)
  {
    if evs == [] {
    } else {
      var init := evs[..|evs| - 1];
      RunIntactIff(s, init);
      if IntactThroughout(s, init) {
        StepIntactIff(Run(s, init).value, evs[|evs| - 1]);
      }
    }
  }

  /** After any run without such a `Delete` the only event that can panic is a `Get` miss over an empty ring. */
  lemma {:induction false} RunPanicsIff(fluxMaxAge: int, evs: seq<Event>, s: State, ev: Event)
    requires Run(Init(fluxMaxAge), evs) == Some(s) && NeverCuts(Init(fluxMaxAge), evs) && Enabled(s, ev)
    ensures Sound(s)
    ensures Step(s, ev).None? <==> ev.Get? && s.ring == [] && !Hit(s, ev.crc)
  {
    RunIntactIff(Init(fluxMaxAge), evs);
    PanicsIff(s, ev);
  }

  lemma DeletedIsDead(s: State, e: nat)
    requires Sound(s) && e in s.ring && DeleteStep(s, e).Some?
    ensures Sound(DeleteStep(s, e).value)
    ensures e !in DeleteStep(s, e).value.ring && |DeleteStep(s, e).value.elems| == |s.elems|
  {
    DeleteTotal(s, e);
    WithoutMembers(s.ring, e);
  }

  /** A second `Delete` of one element changes nothing but that element's own pointers, now nil. */
  lemma SecondDeleteInert(s: State, e: nat)
    requires Sound(s) && e in s.ring && DeleteStep(s, e).Some?
    ensures Sound(DeleteStep(s, e).value) && e < |DeleteStep(s, e).value.elems|
    ensures var t := DeleteStep(s, e).value;
            DeleteStep(t, e) ==
            Some(t.(elems := t.elems[e := t.elems[e].(conn := NilConn, hasContainer := false, hasMap := false)]))
  {
    DeletedIsDead(s, e);
  }

  const MIGRATED := Watcher(1, 1, 7, MIGRATION_AGE, Some(0))

  /** A ring of two, with flow 7 on the first. */
  ghost predicate TwoMembers(s: State, conn: Conn) {
    && Sound(s)
    && s.ring == [0, 1]
    && s.cursor == Some(0)
    && s.elems == [Elem(conn, {7}, true, true, 1, 10), Elem(conn, {}, true, true, 0, 10)]
    && s.watchers == {OWN}
    && s.births == 1
    && s.usage == map[7 := 0]
  }

  /** The flow has moved from 0 to 1; `own` says that the watcher of 0 is still there. */
  ghost predicate Moved(s: State, own: bool) {
    && Sound(s)
    && |s.elems| == 2
    && s.ring == [1]
    && s.watchers == (if own then {OWN, MIGRATED} else {MIGRATED})
    && s.usage == map[7 := 0]
  }

  lemma FirstUnlink(s: State)
    requires InRange(s) && s.ring == [0, 1] && s.cursor == Some(0)
    ensures Unlink(s, 0).ring == [1] && Unlink(s, 0).cursor == Some(1)
  {
    assert Index(s.ring, 0) == 0;
  }

  lemma FirstMigration(s: State)
    requires |s.elems| == 2 && s.elems[0].ports == {7} && s.watchers == {OWN} && s.births == 1
    ensures Migrate(s, 0, 1).watchers == {OWN, MIGRATED}
  {
    assert MigrationWatchers(1, 0, 1, {7}) == {MIGRATED};
  }

  lemma FirstDelete(s: State, conn: Conn)
    requires TwoMembers(s, conn)
    ensures DeleteStep(s, 0).Some? && Moved(DeleteStep(s, 0).value, true)
  {
    FirstUnlink(s);
    var u := Unlink(s, 0);
    var v := u.(cursor := Succ(u.ring, 1));
    assert DeleteStep(s, 0) == Some(Migrate(v, 0, 1));
    FirstMigration(v);
    DeleteTotal(s, 0);
  }

  lemma SecondDelete(s: State, own: bool)
    requires Moved(s, own)
    ensures DeleteStep(s, 0).Some? && Moved(DeleteStep(s, 0).value, own)
    ensures !DeleteStep(s, 0).value.elems[0].hasContainer && !DeleteStep(s, 0).value.elems[0].hasMap
  {
    DeleteTotal(s, 0);
    assert Without(s.ring, 0) == [1];
  }

  lemma {:induction false} OneFlowMoved(conn: Conn) returns (evs: seq<Event>, s: State)
    ensures Moved(s, true) && Run(Init(MIGRATION_AGE), evs) == Some(s)
  {
    var s0 := Init(MIGRATION_AGE);
    var evs1, s1 := OneFlowOneMember(conn);
    var evs2, s2 := Then(s0, evs1, s1, Add(conn, 10));
    assert TwoMembers(s2, conn);
    FirstDelete(s2, conn);
    evs, s := Then(s0, evs2, s2, Delete(0));
  }

  /** The watcher of a removed element panics when its flow expires after a second `Delete` of the element. */
  lemma {:induction false} OwnWatcherPanics(conn: Conn) returns (evs: seq<Event>, s: State)
    ensures Sound(s) && Run(Init(MIGRATION_AGE), evs) == Some(s)
    ensures Enabled(s, Tick(OWN, MIGRATION_AGE + 1)) && Step(s, Tick(OWN, MIGRATION_AGE + 1)).None?
  {
    var before, u := OneFlowMoved(conn);
    SecondDelete(u, true);
    evs, s := Then(Init(MIGRATION_AGE), before, u, Delete(0));
  }

  /**
   A migration watcher of a live element panics at its very next tick after a second `Delete` of the
   element its flow came from, although no watcher of that element is left.
   */
  lemma {:induction false} MigrationWatcherPanics(conn: Conn, now: int) returns (evs: seq<Event>, s: State)
    ensures Sound(s) && Run(Init(MIGRATION_AGE), evs) == Some(s)
    ensures MIGRATED.elem in s.ring && forall w :: w in s.watchers ==> w.elem != 0
    ensures Enabled(s, Tick(MIGRATED, now)) && Step(s, Tick(MIGRATED, now)).None?
  {
    var s0 := Init(MIGRATION_AGE);
    var evs1, s1 := OneFlowMoved(conn);
    var evs2, s2 := Then(s0, evs1, s1, Stop(OWN));
    assert Moved(s2, false);
    SecondDelete(s2, false);
    evs, s := Then(s0, evs2, s2, Delete(0));
  }
}
