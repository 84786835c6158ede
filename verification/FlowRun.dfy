/** What every step keeps, and runs of the dispatcher. */
module FlowRun {
  import opened Words
  import opened RingSeq
  import opened FlowSpec

  /** The cursor is a member; over an empty ring it is nil or an element whose container is gone. */
  predicate CursorOk(s: State)
    requires InRange(s)
  {
    if s.ring != [] then s.cursor.Some? && s.cursor.value in s.ring
    else s.cursor.Some? ==> !s.elems[s.cursor.value].hasContainer
  }

  /** A member still points at its container and at the flow table. */
  predicate MembersIntact(s: State)
    requires InRange(s)
  {
    forall e :: e in s.ring ==> s.elems[e].hasContainer && s.elems[e].hasMap
  }

  /** An outstanding watcher's flow is in the port set of its element. */
  predicate WatchersHavePorts(s: State)
    requires InRange(s)
  {
    forall w :: w in s.watchers ==> w.crc in s.elems[w.elem].ports
  }

  predicate PortsHaveTimestamps(s: State) {
    forall e, p :: 0 <= e < |s.elems| && p in s.elems[e].ports ==> p in s.usage
  }

  predicate Sound(s: State) {
    && InRange(s)
    && CursorOk(s)
    && MembersIntact(s)
    && WatchersHavePorts(s)
    && PortsHaveTimestamps(s)
    && s.crcContainer.Keys <= s.crc2lock.Keys
  }

  lemma AddSound(s: State, conn: Conn, maxFluxes: int8)
    requires Sound(s)
    ensures Sound(AddStep(s, conn, maxFluxes))
  {
    var t := AddStep(s, conn, maxFluxes);
    AppendNoDup(s.ring, |s.elems|);
    assert forall e :: e in t.ring <==> e in s.ring || e == |s.elems|;
    assert forall e :: 0 <= e < |s.elems| ==> t.elems[e] == s.elems[e];
  }

  lemma GetSound(s: State, crc: uint16, now: int)
    requires Sound(s) && GetStep(s, crc, now).Got?
    ensures Sound(GetStep(s, crc, now).s)
  {
  }

  lemma TickSound(s: State, w: Watcher, now: int)
    requires Sound(s) && w in s.watchers && TickStep(s, w, now).Some?
    ensures Sound(TickStep(s, w, now).value)
  {
  }

  /** With a second member left, the cursor ends on one of the remaining members. */
  lemma UnlinkCursor(s: State, e: nat)
    requires Sound(s) && e in s.ring && |s.ring| > 1
    ensures Unlink(s, e).cursor.Some? && Unlink(s, e).cursor.value in Unlink(s, e).ring
  {
  }

  lemma UnlinkInRange(s: State, e: nat)
    requires InRange(s) && e in s.ring
    ensures InRange(Unlink(s, e))
    ensures |s.ring| == 1 ==> Unlink(s, e).ring == []
  {
    WithoutMembers(s.ring, e);
    assert Succ(s.ring, e).value in s.ring;
  }

  lemma UnlinkSound(s: State, e: nat)
    requires Sound(s) && e in s.ring && |s.ring| > 1
    ensures Sound(Unlink(s, e))
  {
    UnlinkInRange(s, e);
    UnlinkCursor(s, e);
    WithoutMembers(s.ring, e);
  }

  /** A sole member is the cursor's element, and `Unlink` leaves the cursor on it. */
  lemma UnlinkSole(s: State, e: nat)
    requires Sound(s) && e in s.ring && |s.ring| == 1
    ensures Unlink(s, e) == s.(ring := []) && s.cursor == Some(e)
  {
  }

  lemma MigrateSound(s: State, e: nat, r: nat)
    requires Sound(s) && e < |s.elems| && r < |s.elems|
    ensures Sound(Migrate(s, e, r))
  {
  }

  /** Dropping what a dead element points at harms nothing. */
  lemma DropSound(s: State, e: nat, el: Elem)
    requires InRange(s) && e < |s.elems| && el.ports == s.elems[e].ports && e !in s.ring && !el.hasContainer
    requires Sound(s)
    ensures Sound(s.(elems := s.elems[e := el]))
  {
  }

  lemma IdleDeleteSound(s: State, e: nat)
    requires Sound(s) && e in s.ring && s.elems[e].ports == {}
    ensures DeleteStep(s, e).Some? && Sound(DeleteStep(s, e).value)
    ensures DeleteStep(s, e).value.ring == Without(s.ring, e) && |DeleteStep(s, e).value.elems| == |s.elems|
  {
    WithoutMembers(s.ring, e);
    UnlinkInRange(s, e);
    if |s.ring| > 1 {
      UnlinkSound(s, e);
      DropSound(Unlink(s, e), e, s.elems[e].(hasContainer := false));
    } else {
      UnlinkSole(s, e);
    }
  }

  lemma MovingDeleteSound(s: State, e: nat)
    requires Sound(s) && e in s.ring && s.elems[e].ports != {}
    ensures DeleteStep(s, e).Some? && Sound(DeleteStep(s, e).value)
    ensures DeleteStep(s, e).value.ring == Without(s.ring, e) && |DeleteStep(s, e).value.elems| == |s.elems|
  {
    var u := Unlink(s, e);
    if |s.ring| > 1 {
      UnlinkSound(s, e);
      MigrateSound(u.(cursor := Succ(u.ring, u.cursor.value)), e, u.cursor.value);
    } else {
      UnlinkSole(s, e);
      MigrateSound(u.(cursor := None), e, e);
    }
  }

  /**
   `Delete` takes exactly its element off the ring, in place, and never dereferences nil: the table and
   a cursor to migrate to are always there.
   */
  lemma DeleteTotal(s: State, e: nat)
    requires Sound(s) && e < |s.elems|
    ensures DeleteStep(s, e).Some? && Sound(DeleteStep(s, e).value)
    ensures DeleteStep(s, e).value.ring == Without(s.ring, e) && |DeleteStep(s, e).value.elems| == |s.elems|
  {
    if e !in s.ring {
      DropSound(s, e, s.elems[e].(conn := NilConn, hasContainer := false, hasMap := false));
    } else if s.elems[e].ports == {} {
      IdleDeleteSound(s, e);
    } else {
      MovingDeleteSound(s, e);
    }
  }

  lemma StepSound(s: State, ev: Event)
    requires Sound(s) && Enabled(s, ev) && Step(s, ev).Some?
    ensures Sound(Step(s, ev).value)
  {
    match ev
    case Add(conn, maxFluxes) => AddSound(s, conn, maxFluxes);
    case Get(crc, now) => GetSound(s, crc, now);
    case Tick(w, now) => TickSound(s, w, now);
    case Stop(_) =>
    case Delete(e) => DeleteTotal(s, e);
  }

  /** The state after a run, or `None` when some event is not enabled or panics. */
  function Run(s: State, evs: seq<Event>): (r: Option<State>)
    requires Sound(s)
    ensures r.Some? ==> Sound(r.value)
  {
    if evs == [] then
      Some(s)
    else
      var last := evs[|evs| - 1];
      var before := Run(s, evs[..|evs| - 1]);
      if before.None? || !Enabled(before.value, last) || Step(before.value, last).None? then
        None
      else
        StepSound(before.value, last);
        Step(before.value, last)
  }

  lemma InitSound(fluxMaxAge: int)
    ensures Sound(Init(fluxMaxAge))
  {
  }
}
