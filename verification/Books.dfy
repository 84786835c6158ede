/**
 The container list and the dispatcher's ring under registration, timed removal and scale-down
 removal.  Each of these is several calls on the pool, the list and the provisioner's map; here every
 call is a step of its own, so that the calls of any number of goroutines interleave.  Of the flow
 dispatcher only the ring and the number of registered elements matter.
 */
module Books {
  import opened Words
  import opened RingSeq

  /** What a goroutine has still to do; containers are named like their elements. */
  datatype Op =
    /** Registration after `cntPool.Add`, and after `AddContainer`. */
    | Pooled(elem: nat, id: uint16)
    | Listed(elem: nat, id: uint16)
    /** Timed removal after `RemoveContainer`. */
    | Unlisted(elem: nat)
    /** Scale-down removal after `GetConnElem` and `GetContainer`, and after `Delete`. */
    | Fetched(elem: nat, container: Option<nat>)
    | Deleted(container: Option<nat>)

  /** `n` elements were ever registered; `published` ones are known to timers and to the map. */
  datatype Ledger = Ledger(
    n: nat,
    ring: seq<nat>,
    lst: seq<nat>,
    c2e: map<uint16, nat>,
    timers: set<nat>,
    published: set<nat>,
    ops: map<nat, Op>)

  function Init(): Ledger {
    Ledger(0, [], [], map[], {}, {}, map[])
  }

  datatype Event =
    | PoolAdd(tid: nat, id: uint16)
    | ListAdd(tid: nat)
    | Publish(tid: nat)
    | TimerFire(tid: nat, elem: nat)
    | TimerStop(elem: nat)
    | TimedDelete(tid: nat)
    | DropFetch(tid: nat, id: uint16, hasContainer: bool)
    | DropDelete(tid: nat)
    | DropUnlist(tid: nat)
    | Purge(id: uint16)

  /** `DropFetch` of an id the map has lost is a nil dereference, so not a step; members have containers. */
  predicate Enabled(s: Ledger, ev: Event) {
    match ev
    case PoolAdd(tid, _) => tid !in s.ops
    case ListAdd(tid) => tid in s.ops && s.ops[tid].Pooled?
    case Publish(tid) => tid in s.ops && s.ops[tid].Listed?
    case TimerFire(tid, e) => tid !in s.ops && e in s.timers
    case TimerStop(e) => e in s.timers && e !in s.ring
    case TimedDelete(tid) => tid in s.ops && s.ops[tid].Unlisted?
    case DropFetch(tid, id, hasContainer) => tid !in s.ops && id in s.c2e && (s.c2e[id] in s.ring ==> hasContainer)
    case DropDelete(tid) => tid in s.ops && s.ops[tid].Fetched?
    case DropUnlist(tid) => tid in s.ops && s.ops[tid].Deleted?
    case Purge(_) => true
  }

  function Step(s: Ledger, ev: Event): Ledger
    requires Enabled(s, ev)
  {
    match ev
    case PoolAdd(tid, id) =>
      s.(n := s.n + 1, ring := s.ring + [s.n], ops := s.ops[tid := Pooled(s.n, id)])
    case ListAdd(tid) =>
      s.(lst := s.lst + [s.ops[tid].elem], ops := s.ops[tid := Listed(s.ops[tid].elem, s.ops[tid].id)])
    case Publish(tid) =>
      var e := s.ops[tid].elem;
      s.(c2e := s.c2e[s.ops[tid].id := e], timers := s.timers + {e}, published := s.published + {e},
         ops := s.ops - {tid})
    case TimerFire(tid, e) =>
      s.(lst := Without(s.lst, e), timers := s.timers - {e}, ops := s.ops[tid := Unlisted(e)])
    case TimerStop(e) =>
      s.(timers := s.timers - {e})
    case TimedDelete(tid) =>
      s.(ring := Without(s.ring, s.ops[tid].elem), ops := s.ops - {tid})
    case DropFetch(tid, id, hasContainer) =>
      s.(ops := s.ops[tid := Fetched(s.c2e[id], if hasContainer then Some(s.c2e[id]) else None)])
    case DropDelete(tid) =>
      s.(ring := Without(s.ring, s.ops[tid].elem), ops := s.ops[tid := Deleted(s.ops[tid].container)])
    case DropUnlist(tid) =>
      var c := s.ops[tid].container;
      s.(lst := if c.Some? then Without(s.lst, c.value) else s.lst, ops := s.ops - {tid})
    case Purge(id) =>
      s.(c2e := s.c2e - {id})
  }

  /** What is known of an operation under way. */
  predicate OpOk(s: Ledger, op: Op) {
    match op
    case Pooled(e, _) => e < s.n && e in s.ring && e !in s.published && e !in s.lst
    case Listed(e, _) => e < s.n && e in s.ring && e !in s.published && e in s.lst
    case Unlisted(e) => e in s.published && e !in s.lst
    case Fetched(e, c) => e in s.published && (if c.Some? then c.value == e else e !in s.ring)
    case Deleted(c) => c.Some? ==> c.value in s.published && c.value !in s.ring
  }

  /** Operation `t` is about to take `e` off the list. */
  predicate WillUnlist(s: Ledger, t: nat, e: nat) {
    t in s.ops && s.ops[t] == Deleted(Some(e))
  }

  /** Operation `t` is about to list `e`, or to take it off the ring. */
  predicate WillMatch(s: Ledger, t: nat, e: nat) {
    t in s.ops && (s.ops[t].Pooled? || s.ops[t].Unlisted?) && s.ops[t].elem == e
  }

  predicate Registering(op: Op) {
    op.Pooled? || op.Listed?
  }

  predicate Tidy(s: Ledger) {
    && NoDup(s.ring) && NoDup(s.lst)
    && (forall e :: e in s.ring ==> e < s.n)
    && (forall e :: e in s.lst ==> e < s.n)
    && (forall e :: e in s.published ==> e < s.n)
    && s.timers <= s.published
    && (forall id :: id in s.c2e ==> s.c2e[id] in s.published)
    && (forall t :: t in s.ops ==> OpOk(s, s.ops[t]))
    && (forall t, u :: t in s.ops && u in s.ops && t != u && Registering(s.ops[t]) && Registering(s.ops[u]) ==>
          s.ops[t].elem != s.ops[u].elem)
  }

  /** List and ring differ only by what operations under way have still to do. */
  ghost predicate Agree(s: Ledger) {
    && (forall e :: e in s.lst && e !in s.ring ==> exists t :: WillUnlist(s, t, e))
    && (forall e :: e in s.ring && e !in s.lst ==> exists t :: WillMatch(s, t, e))
  }

  lemma PoolAddKeeps(s: Ledger, tid: nat, id: uint16)
    requires Tidy(s) && Agree(s) && tid !in s.ops
    ensures Tidy(Step(s, PoolAdd(tid, id))) && Agree(Step(s, PoolAdd(tid, id)))
  {
    var u := Step(s, PoolAdd(tid, id));
    var n := s.n;
    AppendNoDup(s.ring, n);
    assert forall e :: e in u.ring <==> e in s.ring || e == n;
    forall t | t in u.ops
      ensures OpOk(u, u.ops[t])
    {
      assert t != tid ==> OpOk(s, s.ops[t]);
    }
    CarriesOver(s, u, n);
    assert WillMatch(u, tid, n);
  }

  /** Differences between list and ring outside `x` carry over when the operations owing them do. */
  lemma CarriesOver(s: Ledger, u: Ledger, x: nat)
    requires Agree(s)
    requires forall e :: e != x ==> (e in u.lst <==> e in s.lst) && (e in u.ring <==> e in s.ring)
    requires forall t, e :: e != x && WillUnlist(s, t, e) ==> WillUnlist(u, t, e)
    requires forall t, e :: e != x && WillMatch(s, t, e) ==> WillMatch(u, t, e)
    ensures forall e :: e != x && e in u.lst && e !in u.ring ==> exists t :: WillUnlist(u, t, e)
    ensures forall e :: e != x && e in u.ring && e !in u.lst ==> exists t :: WillMatch(u, t, e)
  {
  }

  lemma ListAddKeeps(s: Ledger, tid: nat)
    requires Tidy(s) && Agree(s) && tid in s.ops && s.ops[tid].Pooled?
    ensures Tidy(Step(s, ListAdd(tid))) && Agree(Step(s, ListAdd(tid)))
  {
    var u, x := Step(s, ListAdd(tid)), s.ops[tid].elem;
    assert OpOk(s, s.ops[tid]);
    AppendNoDup(s.lst, x);
    forall t | t in u.ops
      ensures OpOk(u, u.ops[t])
    {
      assert OpOk(s, s.ops[t]);
    }
    CarriesOver(s, u, x);
  }

  lemma PublishKeeps(s: Ledger, tid: nat)
    requires Tidy(s) && Agree(s) && tid in s.ops && s.ops[tid].Listed?
    ensures Tidy(Step(s, Publish(tid))) && Agree(Step(s, Publish(tid)))
  {
    var u, x := Step(s, Publish(tid)), s.ops[tid].elem;
    assert OpOk(s, s.ops[tid]);
    forall t | t in u.ops
      ensures OpOk(u, u.ops[t])
    {
      assert OpOk(s, s.ops[t]);
    }
    CarriesOver(s, u, x);
  }

  lemma TimerFireKeeps(s: Ledger, tid: nat, e: nat)
    requires Tidy(s) && Agree(s) && tid !in s.ops && e in s.timers
    ensures Tidy(Step(s, TimerFire(tid, e))) && Agree(Step(s, TimerFire(tid, e)))
  {
    var u := Step(s, TimerFire(tid, e));
    WithoutMembers(s.lst, e);
    forall t | t in u.ops
      ensures OpOk(u, u.ops[t])
    {
      assert t != tid ==> OpOk(s, s.ops[t]);
    }
    CarriesOver(s, u, e);
    assert WillMatch(u, tid, e);
  }

  lemma TimedDeleteKeeps(s: Ledger, tid: nat)
    requires Tidy(s) && Agree(s) && tid in s.ops && s.ops[tid].Unlisted?
    ensures Tidy(Step(s, TimedDelete(tid))) && Agree(Step(s, TimedDelete(tid)))
  {
    var x := s.ops[tid].elem;
    assert OpOk(s, s.ops[tid]);
    WithoutMembers(s.ring, x);
    var u := Step(s, TimedDelete(tid));
    forall t | t in u.ops
      ensures OpOk(u, u.ops[t])
    {
      assert OpOk(s, s.ops[t]);
    }
    CarriesOver(s, u, x);
  }

  lemma DropFetchKeeps(s: Ledger, tid: nat, id: uint16, hasContainer: bool)
    requires Tidy(s) && Agree(s) && Enabled(s, DropFetch(tid, id, hasContainer))
    ensures Tidy(Step(s, DropFetch(tid, id, hasContainer))) && Agree(Step(s, DropFetch(tid, id, hasContainer)))
  {
    var u := Step(s, DropFetch(tid, id, hasContainer));
    forall t | t in u.ops
      ensures OpOk(u, u.ops[t])
    {
      assert t != tid ==> OpOk(s, s.ops[t]);
    }
    CarriesOver(s, u, s.n);
  }

  lemma DropDeleteKeeps(s: Ledger, tid: nat)
    requires Tidy(s) && Agree(s) && tid in s.ops && s.ops[tid].Fetched?
    ensures Tidy(Step(s, DropDelete(tid))) && Agree(Step(s, DropDelete(tid)))
  {
    var x := s.ops[tid].elem;
    assert OpOk(s, s.ops[tid]);
    WithoutMembers(s.ring, x);
    var u := Step(s, DropDelete(tid));
    forall t | t in u.ops
      ensures OpOk(u, u.ops[t])
    {
      assert OpOk(s, s.ops[t]);
    }
    CarriesOver(s, u, x);
    if s.ops[tid].container.Some? {
      assert WillUnlist(u, tid, x);
    } else if x in s.lst {
      var t :| WillUnlist(s, t, x);
      assert WillUnlist(u, t, x);
    }
  }

  lemma DropUnlistKeeps(s: Ledger, tid: nat)
    requires Tidy(s) && Agree(s) && tid in s.ops && s.ops[tid].Deleted?
    ensures Tidy(Step(s, DropUnlist(tid))) && Agree(Step(s, DropUnlist(tid)))
  {
    var c := s.ops[tid].container;
    assert OpOk(s, s.ops[tid]);
    var u := Step(s, DropUnlist(tid));
    if c.Some? {
      WithoutMembers(s.lst, c.value);
    }
    forall t | t in u.ops
      ensures OpOk(u, u.ops[t])
    {
      assert OpOk(s, s.ops[t]);
    }
    CarriesOver(s, u, if c.Some? then c.value else s.n);
  }

  lemma OtherKeeps(s: Ledger, ev: Event)
    requires Tidy(s) && Agree(s) && Enabled(s, ev) && (ev.TimerStop? || ev.Purge?)
    ensures Tidy(Step(s, ev)) && Agree(Step(s, ev))
  {
    var u := Step(s, ev);
    forall t | t in u.ops
      ensures OpOk(u, u.ops[t])
    {
      assert OpOk(s, s.ops[t]);
    }
    CarriesOver(s, u, s.n);
  }

  lemma StepKeeps(s: Ledger, ev: Event)
    requires Tidy(s) && Agree(s) && Enabled(s, ev)
    ensures Tidy(Step(s, ev)) && Agree(Step(s, ev))
  {
    match ev
    case PoolAdd(tid, id) => PoolAddKeeps(s, tid, id);
    case ListAdd(tid) => ListAddKeeps(s, tid);
    case Publish(tid) => PublishKeeps(s, tid);
    case TimerFire(tid, e) => TimerFireKeeps(s, tid, e);
    case TimedDelete(tid) => TimedDeleteKeeps(s, tid);
    case DropFetch(tid, id, hasContainer) => DropFetchKeeps(s, tid, id, hasContainer);
    case DropDelete(tid) => DropDeleteKeeps(s, tid);
    case DropUnlist(tid) => DropUnlistKeeps(s, tid);
    case TimerStop(_) => OtherKeeps(s, ev);
    case Purge(_) => OtherKeeps(s, ev);
  }

  /** The ledger after a run, or `None` when some event is not enabled. */
  function Run(s: Ledger, evs: seq<Event>): Option<Ledger> {
    if evs == [] then Some(s)
    else
      var last, before := evs[|evs| - 1], Run(s, evs[..|evs| - 1]);
      if before.None? || !Enabled(before.value, last) then None else Some(Step(before.value, last))
  }

  lemma {:induction false} RunKeeps(evs: seq<Event>, s: Ledger)
    requires Run(Init(), evs) == Some(s)
    ensures Tidy(s) && Agree(s)
  {
    if evs == [] {
    } else {
      var before := Run(Init(), evs[..|evs| - 1]).value;
      RunKeeps(evs[..|evs| - 1], before);
      StepKeeps(before, evs[|evs| - 1]);
    }
  }

  /**
   Under every interleaving of the calls, once no operation is under way the list and the ring hold
   the same containers, each once.
   */
  lemma {:induction false} ListMatchesRing(evs: seq<Event>, s: Ledger)
    requires Run(Init(), evs) == Some(s) && s.ops == map[]
    ensures NoDup(s.lst) && NoDup(s.ring)
    ensures multiset(s.lst) == multiset(s.ring)
  {
    RunKeeps(evs, s);
    assert forall e :: e in s.lst <==> e in s.ring;
    SameMembers(s.lst, s.ring);
  }

  lemma {:induction false} SameMembers(a: seq<nat>, b: seq<nat>)
    requires NoDup(a) && NoDup(b) && forall e :: e in a <==> e in b
    ensures multiset(a) == multiset(b)
  {
    forall e: nat
      ensures multiset(a)[e] == multiset(b)[e]
    {
      OnceIn(a, e);
      OnceIn(b, e);
    }
  }

  lemma {:induction false} OnceIn(s: seq<nat>, e: nat)
    requires NoDup(s)
    ensures multiset(s)[e] == if e in s then 1 else 0
  {
    if s == [] {
    } else {
      OnceIn(s[1..], e);
      assert s == [s[0]] + s[1..];
      assert forall i :: 0 <= i < |s| - 1 ==> s[1..][i] == s[i + 1];
    }
  }
}
