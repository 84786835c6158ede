/** What the steps of the dispatcher do, said of the ring, the cursor and the flow alone. */
module FlowEffects {
  import opened Words
  import opened RingSeq
  import opened FlowSpec
  import opened FlowRun

  /** The member after position `i`. */
  function Following(ring: seq<nat>, i: nat): nat
    requires i < |ring|
  {
    ring[if i + 1 < |ring| then i + 1 else 0]
  }

  /** The cursor stands right behind `m` on the ring. */
  predicate CursorBehind(ring: seq<nat>, cursor: Option<nat>, m: nat) {
    forall i :: 0 <= i < |ring| && ring[i] == m ==> cursor == Some(Following(ring, i))
  }

  /** Every `Get` that answers, hit or miss, stamps its flow with its time, and no other; a hit does no more. */
  lemma GetStamps(s: State, crc: uint16, now: int)
    requires InRange(s) && GetStep(s, crc, now).Got?
    ensures Lookup(GetStep(s, crc, now).s.usage, crc) == Some(now)
    ensures forall c :: c != crc ==> Lookup(GetStep(s, crc, now).s.usage, c) == Lookup(s.usage, c)
    ensures Hit(s, crc) ==> GetStep(s, crc, now).s.(usage := s.usage) == s
  {
  }

  /** The flow was given to `m`: recorded, counted and watched there, with a semaphore of its own. */
  ghost predicate GivenTo(s: State, crc: uint16, m: nat, t: State)
    requires m < |s.elems|
  {
    && t.crc2conn == s.crc2conn[crc := s.elems[m].conn]
    && t.crcContainer == s.crcContainer[crc := m]
    && t.crc2lock == s.crc2lock[crc := s.sems]
    && t.elems == s.elems[m := s.elems[m].(ports := s.elems[m].ports + {crc}, fluxes := Wrap8(s.elems[m].fluxes + 1))]
    && t.watchers == s.watchers + {Watcher(s.births, m, crc, s.fluxMaxAge, None)}
    && t.ring == s.ring
  }

  /** A miss goes to the member under the cursor, which moves on to the next one. */
  lemma MissGoesToCursor(s: State, crc: uint16, now: int)
    requires Sound(s) && s.ring != [] && !Hit(s, crc)
    ensures var g := GetStep(s, crc, now);
            && g.Got? && g.conn == s.elems[s.cursor.value].conn && g.sem == Some(s.sems)
            && GivenTo(s, crc, s.cursor.value, g.s)
            && CursorBehind(s.ring, g.s.cursor, s.cursor.value)
  {
    forall i | 0 <= i < |s.ring| && s.ring[i] == s.cursor.value
      ensures Succ(s.ring, s.cursor.value) == Some(Following(s.ring, i))
    {
      assert Index(s.ring, s.cursor.value) == i;
    }
  }

  /** The flows of `e` were moved to `m`: routed, counted and watched there, the rest as before. */
  ghost predicate MovedTo(s: State, e: nat, m: nat, t: State)
    requires e < |s.elems| && m < |s.elems|
  {
    var ports := s.elems[e].ports;
    && (forall p :: p in ports ==> Lookup(t.crc2conn, p) == Some(s.elems[m].conn))
    && (forall p :: p !in ports ==> Lookup(t.crc2conn, p) == Lookup(s.crc2conn, p))
    && t.elems == s.elems[m := s.elems[m].(ports := s.elems[m].ports + ports,
                                           fluxes := Wrap8(s.elems[m].fluxes + |ports|))]
    && t.watchers == s.watchers + (set p | p in ports :: Watcher(s.births, m, p, 500_000, Some(e)))
    && t.usage == s.usage && t.crc2lock == s.crc2lock && t.crcContainer == s.crcContainer
  }

  /** Where the flows of the member at position `i` go: to the cursor's member, or past it when that is itself. */
  function Heir(s: State, i: nat): nat
    requires i < |s.ring| && s.cursor.Some?
  {
    if s.cursor.value == s.ring[i] then Following(s.ring, i) else s.cursor.value
  }

  lemma UnlinkedRing(s: State, i: nat)
    requires Sound(s) && i < |s.ring| && |s.ring| > 1
    ensures var e := s.ring[i];
            && Unlink(s, e).ring == s.ring[..i] + s.ring[i + 1..]
            && Unlink(s, e).cursor == Some(Heir(s, i))
            && Heir(s, i) != e && Heir(s, i) in Unlink(s, e).ring
  {
    assert Index(s.ring, s.ring[i]) == i;
    UnlinkCursor(s, s.ring[i]);
    WithoutMembers(s.ring, s.ring[i]);
  }

  lemma SuccFollows(ring: seq<nat>, m: nat)
    requires NoDup(ring) && m in ring
    ensures CursorBehind(ring, Succ(ring, m), m)
  {
    forall i | 0 <= i < |ring| && ring[i] == m
      ensures Succ(ring, m) == Some(Following(ring, i))
    {
      assert Index(ring, m) == i;
    }
  }

  lemma MigrateMoves(s: State, ring: seq<nat>, cursor: Option<nat>, e: nat, m: nat)
    requires e < |s.elems| && m < |s.elems|
    ensures var t := Migrate(s.(ring := ring, cursor := cursor), e, m);
            MovedTo(s, e, m, t) && t.ring == ring && t.cursor == cursor
  {
    assert MigrationWatchers(s.births, e, m, s.elems[e].ports) ==
           set p | p in s.elems[e].ports :: Watcher(s.births, m, p, 500_000, Some(e));
  }

  /** `Delete` with another member left unlinks its element and migrates its flows to the heir. */
  lemma DeleteIsMove(s: State, e: nat, i: nat)
    requires Sound(s) && i < |s.ring| && |s.ring| > 1 && s.ring[i] == e && e in s.ring && s.elems[e].ports != {}
    ensures Heir(s, i) in s.ring && Heir(s, i) != e
    ensures var ring, m := s.ring[..i] + s.ring[i + 1..], Heir(s, i);
            && NoDup(ring) && m in ring
            && DeleteStep(s, e) == Some(Migrate(s.(ring := ring, cursor := Succ(ring, m)), e, m))
  {
    UnlinkedRing(s, i);
    WithoutMembers(s.ring, e);
  }

  /** The flows of a removed member go to the heir, and the cursor is left behind it. */
  lemma DeleteMovesToHeir(s: State, e: nat, i: nat)
    requires Sound(s) && i < |s.ring| && |s.ring| > 1 && s.ring[i] == e && e in s.ring && s.elems[e].ports != {}
    ensures DeleteStep(s, e).Some? && Heir(s, i) in s.ring && Heir(s, i) != e
    ensures MovedTo(s, e, Heir(s, i), DeleteStep(s, e).value)
    ensures var t := DeleteStep(s, e).value;
            t.ring == s.ring[..i] + s.ring[i + 1..] && CursorBehind(t.ring, t.cursor, Heir(s, i))
  {
    var ring, m := s.ring[..i] + s.ring[i + 1..], Heir(s, i);
    DeleteIsMove(s, e, i);
    MigrateMoves(s, ring, Succ(ring, m), e, m);
    SuccFollows(ring, m);
  }

  /** Deleting an idle member moves nothing. */
  lemma IdleDeleteMovesNothing(s: State, e: nat, i: nat)
    requires Sound(s) && i < |s.ring| && s.ring[i] == e && e in s.ring && s.elems[e].ports == {}
    ensures DeleteStep(s, e) == Some(s.(elems := s.elems[e := s.elems[e].(hasContainer := false)],
                                        ring := s.ring[..i] + s.ring[i + 1..],
                                        cursor := if |s.ring| > 1 then Some(Heir(s, i)) else s.cursor))
  {
    assert Index(s.ring, e) == i;
    if |s.ring| > 1 {
      UnlinkedRing(s, i);
    } else {
      UnlinkSole(s, e);
    }
  }

  /** A tick past the timeout forgets exactly its flow and gives exactly one count back; one before does nothing. */
  lemma TickForgets(s: State, w: Watcher, now: int)
    requires Sound(s) && w in s.watchers && TickStep(s, w, now).Some?
    ensures var t := TickStep(s, w, now).value;
            if now - s.usage[w.crc] <= w.timeout then t == s
            else
              && w.crc !in t.crc2conn && (w.via.None? ==> w.crc !in t.crcContainer)
              && (forall c :: c != w.crc ==> Lookup(t.crc2conn, c) == Lookup(s.crc2conn, c))
              && (forall c :: c != w.crc || w.via.Some? ==> Lookup(t.crcContainer, c) == Lookup(s.crcContainer, c))
              && t.watchers == s.watchers - {w}
              && t.elems == s.elems[w.elem := s.elems[w.elem].(fluxes := Max(s.elems[w.elem].fluxes - 1, 0))]
              && t.ring == s.ring && t.cursor == s.cursor && t.usage == s.usage && t.crc2lock == s.crc2lock
  {
  }

  /** Only a `Get` of the flow records a container for it. */
  lemma StepKeepsForgotten(s: State, ev: Event, crc: uint16)
    requires Sound(s) && Enabled(s, ev) && Step(s, ev).Some? && crc !in s.crcContainer
    requires ev.Get? ==> ev.crc != crc
    ensures crc !in Step(s, ev).value.crcContainer && s.sems <= Step(s, ev).value.sems
  {
  }

  lemma {:induction false} RunKeepsForgotten(s: State, evs: seq<Event>, u: State, crc: uint16)
    requires Sound(s) && Run(s, evs) == Some(u) && crc !in s.crcContainer
    requires forall ev :: ev in evs && ev.Get? ==> ev.crc != crc
    ensures crc !in u.crcContainer && s.sems <= u.sems
  {
    if evs == [] {
    } else {
      var init, last := evs[..|evs| - 1], evs[|evs| - 1];
      var before := Run(s, init).value;
      assert last in evs && forall ev :: ev in init ==> ev in evs;
      RunKeepsForgotten(s, init, before, crc);
      StepKeepsForgotten(before, last, crc);
    }
  }

  /**
   Once a watcher started by `Get` has expired a flow, the next `Get` of it is a miss, whatever happened
   in between, migrations included: if it answers, then with a semaphore never handed out before.
   */
  lemma {:induction false} ForgottenUntilAssigned(s: State, w: Watcher, now: int, evs: seq<Event>, u: State, later: int)
    requires Sound(s) && w in s.watchers && w.via.None? && TickStep(s, w, now).Some?
    requires now - s.usage[w.crc] > w.timeout
    requires Sound(TickStep(s, w, now).value) && Run(TickStep(s, w, now).value, evs) == Some(u)
    requires forall ev :: ev in evs && ev.Get? ==> ev.crc != w.crc
    ensures Sound(u) && !Hit(u, w.crc)
    ensures GetStep(u, w.crc, later).Got? ==>
              GetStep(u, w.crc, later).sem.Some? && GetStep(u, w.crc, later).sem.value >= s.sems
  {
    TickForgets(s, w, now);
    RunKeepsForgotten(TickStep(s, w, now).value, evs, u, w.crc);
  }

  /** No two flows share a semaphore. */
  predicate LocksDistinct(s: State) {
    forall a, b :: a in s.crc2lock && b in s.crc2lock && a != b ==> s.crc2lock[a] != s.crc2lock[b]
  }

  lemma StepLocksDistinct(s: State, ev: Event)
    requires Sound(s) && LocksDistinct(s) && Enabled(s, ev) && Step(s, ev).Some?
    ensures LocksDistinct(Step(s, ev).value)
  {
  }

  lemma {:induction false} RunLocksDistinct(fluxMaxAge: int, evs: seq<Event>, s: State)
    requires Run(Init(fluxMaxAge), evs) == Some(s)
    ensures LocksDistinct(s)
  {
    if evs == [] {
    } else {
      var before := Run(Init(fluxMaxAge), evs[..|evs| - 1]).value;
      RunLocksDistinct(fluxMaxAge, evs[..|evs| - 1], before);
      StepLocksDistinct(before, evs[|evs| - 1]);
    }
  }
}
