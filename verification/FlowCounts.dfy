/** Conservation of flow counts: a live container's counter is the number of its outstanding watchers. */
module FlowCounts {
  import opened Words
  import opened RingSeq
  import opened FlowSpec
  import opened FlowRun

  function WatchersOf(s: State, e: nat): set<Watcher> {
    set w | w in s.watchers && w.elem == e
  }

  predicate Counted(s: State)
    requires InRange(s)
  {
    forall e :: e in s.ring ==> s.elems[e].fluxes == |WatchersOf(s, e)|
  }

  /** No live container has more watchers than an `int8` can count. */
  predicate Countable(s: State) {
    forall e :: e in s.ring ==> |WatchersOf(s, e)| <= 127
  }

  lemma {:induction false} MigrationWatchersSize(birth: nat, e: nat, r: nat, ports: set<uint16>)
    ensures |MigrationWatchers(birth, e, r, ports)| == |ports|
    decreases |ports|
  {
    if ports == {} {
    } else {
      var p :| p in ports;
      var rest := MigrationWatchers(birth, e, r, ports - {p});
      MigrationWatchersSize(birth, e, r, ports - {p});
      assert MigrationWatchers(birth, e, r, ports) == rest + {Watcher(birth, r, p, MIGRATION_AGE, Some(e))};
    }
  }

  lemma AddCounted(s: State, conn: Conn, maxFluxes: int8)
    requires Sound(s) && Counted(s)
    ensures InRange(AddStep(s, conn, maxFluxes)) && Counted(AddStep(s, conn, maxFluxes))
  {
    AddSound(s, conn, maxFluxes);
    var t := AddStep(s, conn, maxFluxes);
    assert WatchersOf(s, |s.elems|) == {};
    assert forall e :: WatchersOf(t, e) == WatchersOf(s, e);
    forall e | e in t.ring
      ensures t.elems[e].fluxes == |WatchersOf(t, e)|
    {
      assert e in s.ring || e == |s.elems|;
    }
  }

  lemma AssignWatchers(s: State, crc: uint16, c: nat, e: nat)
    requires Sound(s) && c < |s.elems|
    ensures |WatchersOf(Assign(s, crc, c), e)| == |WatchersOf(s, e)| + (if e == c then 1 else 0)
  {
    var w := Watcher(s.births, c, crc, s.fluxMaxAge, None);
    assert w !in s.watchers;
    assert WatchersOf(Assign(s, crc, c), e) == WatchersOf(s, e) + (if e == c then {w} else {});
  }

  lemma AssignCounted(s: State, crc: uint16, c: nat)
    requires Sound(s) && Counted(s) && c < |s.elems| && InRange(Assign(s, crc, c)) && Countable(Assign(s, crc, c))
    ensures Counted(Assign(s, crc, c))
  {
    var t := Assign(s, crc, c);
    forall e | e in t.ring
      ensures t.elems[e].fluxes == |WatchersOf(t, e)|
    {
      AssignWatchers(s, crc, c, e);
    }
  }

  lemma GetCounted(s: State, crc: uint16, now: int)
    requires Sound(s) && Counted(s) && GetStep(s, crc, now).Got?
    requires Countable(GetStep(s, crc, now).s)
    ensures InRange(GetStep(s, crc, now).s) && Counted(GetStep(s, crc, now).s)
  {
    GetSound(s, crc, now);
    var t := GetStep(s, crc, now).s;
    if Hit(s, crc) {
      assert forall e :: WatchersOf(t, e) == WatchersOf(s, e);
    } else {
      var c := s.cursor.value;
      var u := s.(usage := s.usage[crc := now], cursor := Succ(s.ring, c));
      assert t == Assign(u, crc, c);
      assert forall e :: WatchersOf(u, e) == WatchersOf(s, e);
      AssignCounted(u, crc, c);
    }
  }

  /** A counted watcher makes its container's counter positive, so the clamp swallows nothing. */
  lemma ClampUnused(s: State, w: Watcher)
    requires Sound(s) && Counted(s) && w in s.watchers && w.elem in s.ring
    ensures DecFluxes(s.elems[w.elem].fluxes) == s.elems[w.elem].fluxes - 1
  {
    assert w in WatchersOf(s, w.elem);
  }

  lemma TickCounted(s: State, w: Watcher, now: int)
    requires Sound(s) && Counted(s) && w in s.watchers && TickStep(s, w, now).Some?
    ensures InRange(TickStep(s, w, now).value) && Counted(TickStep(s, w, now).value)
  {
    TickSound(s, w, now);
    var t := TickStep(s, w, now).value;
    if t != s {
      forall e | e in t.ring
        ensures t.elems[e].fluxes == |WatchersOf(t, e)|
      {
        if e == w.elem {
          ClampUnused(s, w);
          assert w in WatchersOf(s, e);
          assert WatchersOf(t, e) == WatchersOf(s, e) - {w};
        } else {
          assert WatchersOf(t, e) == WatchersOf(s, e);
        }
      }
    }
  }

  lemma MigrateWatchers(s: State, e: nat, r: nat, m: nat)
    requires Sound(s) && e < |s.elems| && r < |s.elems|
    ensures |WatchersOf(Migrate(s, e, r), m)| ==
            |WatchersOf(s, m)| + (if m == r then |s.elems[e].ports| else 0)
  {
    var added := MigrationWatchers(s.births, e, r, s.elems[e].ports);
    MigrationWatchersSize(s.births, e, r, s.elems[e].ports);
    assert WatchersOf(Migrate(s, e, r), m) == WatchersOf(s, m) + (if m == r then added else {});
    assert added !! s.watchers;
  }

  lemma MigrateCounted(s: State, e: nat, r: nat)
    requires Sound(s) && Counted(s) && e < |s.elems| && r < |s.elems|
    requires Countable(Migrate(s, e, r))
    ensures InRange(Migrate(s, e, r)) && Counted(Migrate(s, e, r))
  {
    MigrateSound(s, e, r);
    forall m | m in s.ring
      ensures Migrate(s, e, r).elems[m].fluxes == |WatchersOf(Migrate(s, e, r), m)|
    {
      MigrateWatchers(s, e, r, m);
    }
  }

  /** Counts carry over to a state with the same watchers and counters and no new member. */
  lemma SubringCounted(s: State, t: State)
    requires InRange(s) && Counted(s) && InRange(t)
    requires t.watchers == s.watchers && |t.elems| == |s.elems|
    requires forall e :: e in t.ring ==> e in s.ring && t.elems[e].fluxes == s.elems[e].fluxes
    ensures Counted(t)
  {
  }

  lemma UnlinkCounted(s: State, e: nat, cursor: Option<nat>)
    requires Sound(s) && Counted(s) && e in s.ring && InRange(Unlink(s, e).(cursor := cursor))
    ensures Counted(Unlink(s, e).(cursor := cursor))
  {
    WithoutMembers(s.ring, e);
    SubringCounted(s, Unlink(s, e).(cursor := cursor));
  }

  lemma MigratingDeleteCounted(s: State, e: nat)
    requires Sound(s) && Counted(s) && e in s.ring && |s.ring| > 1 && s.elems[e].ports != {}
    requires DeleteStep(s, e).Some? && Countable(DeleteStep(s, e).value)
    ensures InRange(DeleteStep(s, e).value) && Counted(DeleteStep(s, e).value)
  {
    UnlinkSound(s, e);
    var u, r := Unlink(s, e), Unlink(s, e).cursor.value;
    var v := u.(cursor := Succ(u.ring, r));
    assert DeleteStep(s, e) == Some(Migrate(v, e, r));
    UnlinkCounted(s, e, v.cursor);
    MigrateCounted(v, e, r);
  }

  /** Deletions that migrate nothing leave every watcher and counter alone. */
  lemma QuietDeleteCounted(s: State, e: nat)
    requires Sound(s) && Counted(s) && e < |s.elems| && (e !in s.ring || s.elems[e].ports == {})
    ensures DeleteStep(s, e).Some? && InRange(DeleteStep(s, e).value) && Counted(DeleteStep(s, e).value)
  {
    DeleteTotal(s, e);
    WithoutMembers(s.ring, e);
    var t := DeleteStep(s, e).value;
    assert t.watchers == s.watchers;
    assert forall m :: 0 <= m < |s.elems| ==> t.elems[m].fluxes == s.elems[m].fluxes;
    SubringCounted(s, t);
  }

  lemma DeleteCounted(s: State, e: nat)
    requires Sound(s) && Counted(s) && e < |s.elems| && DeleteStep(s, e).Some?
    requires Countable(DeleteStep(s, e).value)
    ensures InRange(DeleteStep(s, e).value) && Counted(DeleteStep(s, e).value)
  {
    if e !in s.ring || s.elems[e].ports == {} {
      QuietDeleteCounted(s, e);
    } else if |s.ring| > 1 {
      MigratingDeleteCounted(s, e);
    } else {
      DeleteTotal(s, e);
    }
  }

  lemma StepCounted(s: State, ev: Event)
    requires Sound(s) && Counted(s) && Enabled(s, ev) && Step(s, ev).Some?
    requires Countable(Step(s, ev).value)
    ensures Sound(Step(s, ev).value) && Counted(Step(s, ev).value)
  {
    StepSound(s, ev);
    match ev
    case Add(conn, maxFluxes) => AddCounted(s, conn, maxFluxes);
    case Get(crc, now) => GetCounted(s, crc, now);
    case Tick(w, now) => TickCounted(s, w, now);
    case Stop(w) =>
      var t := Step(s, ev).value;
      forall e | e in t.ring
        ensures t.elems[e].fluxes == |WatchersOf(t, e)|
      {
        assert WatchersOf(t, e) == WatchersOf(s, e);
      }
    case Delete(e) => DeleteCounted(s, e);
  }

  /** Every state a run passes through satisfies `Countable`. */
  predicate CountableThroughout(s: State, evs: seq<Event>)
    requires Sound(s)
  {
    && (Run(s, evs).Some? ==> Countable(Run(s, evs).value))
    && (evs != [] ==> CountableThroughout(s, evs[..|evs| - 1]))
  }

  /** Every state a run passes through satisfies `Counted`. */
  predicate CountedThroughout(s: State, evs: seq<Event>)
    requires Sound(s)
  {
    && (Run(s, evs).Some? ==> Counted(Run(s, evs).value))
    && (evs != [] ==> CountedThroughout(s, evs[..|evs| - 1]))
  }

  /** Counters are exact throughout a run exactly when no live container ever has more than 127 watchers. */
  lemma {:induction false} FlowCountConservation(s: State, evs: seq<Event>)
    requires Sound(s) && Counted(s) && Run(s, evs).Some?
    ensures CountedThroughout(s, evs) <==> CountableThroughout(s, evs)
  {
    if evs == [] {
    } else {
      var init := evs[..|evs| - 1];
      FlowCountConservation(s, init);
      if CountableThroughout(s, evs) {
        StepCounted(Run(s, init).value, evs[|evs| - 1]);
      }
      if CountedThroughout(s, evs) {
        var t := Run(s, evs).value;
        forall e | e in t.ring
          ensures |WatchersOf(t, e)| <= 127
        {
          assert t.elems[e].fluxes <= 127;
        }
      }
    }
  }
}
