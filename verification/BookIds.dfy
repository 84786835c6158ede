/** Registered elements can be found: by their id, by their timer. */
module BookIds {
  import opened Words
  import opened RingSeq
  import opened Books

  /** The ids of the containers registered in a run, in order. */
  function IdsOf(evs: seq<Event>): seq<uint16> {
    if evs == [] then []
    else IdsOf(evs[..|evs| - 1]) + if evs[|evs| - 1].PoolAdd? then [evs[|evs| - 1].id] else []
  }

  /** Operations and the map know each element under its own id. */
  predicate OwnIds(s: Ledger, ids: seq<uint16>) {
    && s.n == |ids|
    && (forall t :: t in s.ops && Registering(s.ops[t]) ==> s.ops[t].elem < |ids| && s.ops[t].id == ids[s.ops[t].elem])
    && (forall id :: id in s.c2e ==> s.c2e[id] < |ids| && ids[s.c2e[id]] == id)
  }

  lemma StepOwnIds(s: Ledger, ev: Event, ids: seq<uint16>)
    requires OwnIds(s, ids) && Enabled(s, ev)
    ensures OwnIds(Step(s, ev), ids + if ev.PoolAdd? then [ev.id] else [])
  {
  }

  /** Over every run the map files an element only under the id it was registered with. */
  lemma {:induction false} FiledUnderOwnId(evs: seq<Event>, s: Ledger)
    requires Run(Init(), evs) == Some(s)
    ensures OwnIds(s, IdsOf(evs))
  {
    if evs == [] {
    } else {
      var before := Run(Init(), evs[..|evs| - 1]).value;
      FiledUnderOwnId(evs[..|evs| - 1], before);
      StepOwnIds(before, evs[|evs| - 1], IdsOf(evs[..|evs| - 1]));
    }
  }

  /** The end of a registration files the element, lists it and starts its timer. */
  lemma PublishFiles(s: Ledger, tid: nat)
    requires Tidy(s) && Enabled(s, Publish(tid))
    ensures var e, t := s.ops[tid].elem, Step(s, Publish(tid));
            Lookup(t.c2e, s.ops[tid].id) == Some(e) && e in t.timers && e in t.lst && e in t.ring
  {
    assert OpOk(s, s.ops[tid]);
  }

  /** The event takes the id out of the map or files another element under it. */
  predicate Displaces(s: Ledger, ev: Event, id: uint16) {
    ev == Purge(id) || (ev.Publish? && ev.tid in s.ops && s.ops[ev.tid].Listed? && s.ops[ev.tid].id == id)
  }

  predicate NeverDisplaced(s: Ledger, evs: seq<Event>, id: uint16) {
    evs != [] ==>
      var before := Run(s, evs[..|evs| - 1]);
      && NeverDisplaced(s, evs[..|evs| - 1], id)
      && (before.Some? ==> !Displaces(before.value, evs[|evs| - 1], id))
  }

  /** Until it is purged or registered again an id names its element, whatever else happens. */
  lemma {:induction false} NamesUntilDisplaced(s: Ledger, evs: seq<Event>, t: Ledger, id: uint16)
    requires Run(s, evs) == Some(t) && NeverDisplaced(s, evs, id)
    ensures Lookup(t.c2e, id) == Lookup(s.c2e, id)
  {
    if evs == [] {
    } else {
      NamesUntilDisplaced(s, evs[..|evs| - 1], Run(s, evs[..|evs| - 1]).value, id);
    }
  }

  predicate OwesPublish(s: Ledger, t: nat, e: nat) {
    t in s.ops && Registering(s.ops[t]) && s.ops[t].elem == e
  }

  /** A registered element has its registration under way, or its timer while it is on list and ring. */
  ghost predicate Timed(s: Ledger) {
    && (forall e: nat :: e < s.n && e !in s.published ==> exists t :: OwesPublish(s, t, e))
    && (forall e :: e in s.published && e in s.lst && e in s.ring ==> e in s.timers)
  }

  lemma OwedStays(s: Ledger, ev: Event)
    requires Tidy(s) && Enabled(s, ev) && !ev.PoolAdd? && !ev.Publish?
    ensures forall t, e :: OwesPublish(s, t, e) ==> OwesPublish(Step(s, ev), t, e)
  {
  }

  lemma PoolAddTimed(s: Ledger, tid: nat, id: uint16)
    requires Tidy(s) && Timed(s) && Enabled(s, PoolAdd(tid, id))
    ensures Timed(Step(s, PoolAdd(tid, id)))
  {
    var u := Step(s, PoolAdd(tid, id));
    assert OwesPublish(u, tid, s.n);
    forall e: nat | e < s.n && e !in s.published
      ensures exists t :: OwesPublish(u, t, e)
    {
      var t :| OwesPublish(s, t, e);
      assert OwesPublish(u, t, e);
    }
  }

  lemma PublishTimed(s: Ledger, tid: nat)
    requires Tidy(s) && Timed(s) && Enabled(s, Publish(tid))
    ensures Timed(Step(s, Publish(tid)))
  {
    var u := Step(s, Publish(tid));
    forall e: nat | e < s.n && e !in u.published
      ensures exists t :: OwesPublish(u, t, e)
    {
      var t :| OwesPublish(s, t, e);
      assert OwesPublish(u, t, e);
    }
  }

  lemma RemovalMembers(s: Ledger, ev: Event)
    requires Tidy(s) && Enabled(s, ev) && !ev.PoolAdd? && !ev.ListAdd? && !ev.Publish?
    ensures var u := Step(s, ev);
            && (forall e :: e in u.ring ==> e in s.ring)
            && (forall e :: e in u.lst ==> e in s.lst)
            && (forall e :: e in s.timers && e in u.lst && e in u.ring ==> e in u.timers)
  {
    match ev
    case TimerFire(_, e) => WithoutMembers(s.lst, e);
    case TimedDelete(tid) => WithoutMembers(s.ring, s.ops[tid].elem);
    case DropDelete(tid) => WithoutMembers(s.ring, s.ops[tid].elem);
    case DropUnlist(tid) =>
      if s.ops[tid].container.Some? {
        WithoutMembers(s.lst, s.ops[tid].container.value);
      }
    case _ =>
  }

  lemma StepTimed(s: Ledger, ev: Event)
    requires Tidy(s) && Timed(s) && Enabled(s, ev)
    ensures Timed(Step(s, ev))
  {
    var u := Step(s, ev);
    if ev.PoolAdd? {
      PoolAddTimed(s, ev.tid, ev.id);
    } else if ev.Publish? {
      PublishTimed(s, ev.tid);
    } else {
      OwedStays(s, ev);
      forall e: nat | e < u.n && e !in u.published
        ensures exists t :: OwesPublish(u, t, e)
      {
        var t :| OwesPublish(s, t, e);
      }
      if ev.ListAdd? {
        assert OpOk(s, s.ops[ev.tid]);
      } else {
        RemovalMembers(s, ev);
      }
    }
  }

  lemma {:induction false} RunTimed(evs: seq<Event>, s: Ledger)
    requires Run(Init(), evs) == Some(s)
    ensures Timed(s)
  {
    if evs == [] {
    } else {
      var before := Run(Init(), evs[..|evs| - 1]).value;
      RunTimed(evs[..|evs| - 1], before);
      RunKeeps(evs[..|evs| - 1], before);
      StepTimed(before, evs[|evs| - 1]);
    }
  }

  /** Under every interleaving, once no operation is under way every listed container has a timer to remove it. */
  lemma {:induction false} ListedAreTimed(evs: seq<Event>, s: Ledger, e: nat, tid: nat)
    requires Run(Init(), evs) == Some(s) && s.ops == map[] && e in s.lst
    ensures e in s.ring && Enabled(s, TimerFire(tid, e)) && e !in Step(s, TimerFire(tid, e)).lst
  {
    RunKeeps(evs, s);
    RunTimed(evs, s);
    WithoutMembers(s.lst, e);
  }
}
