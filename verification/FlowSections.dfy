/**
 `Get`, `Delete` and the watchers cut at every release of a lock, so that the critical sections of any
 number of goroutines interleave freely.  Which member `Next` returns, what the containers' counters
 say and what the clock reads are left open: the properties hold whatever they are.
 */
module FlowSections {
  import opened Words

  /**
   Where a goroutine in `Get` or `Delete` stands.  A connection is named by its element; a container
   found in the table is `Some(None)` when the pointer stored there is nil.
   */
  datatype Thread =
    | GetLook(crc: uint16)
    | GetStamp(crc: uint16, conn: Option<nat>, container: Option<Option<nat>>, lock: Option<nat>)
    | GetTest(crc: uint16, conn: Option<nat>, container: Option<Option<nat>>, lock: Option<nat>)
    | GetPick(crc: uint16)
    | GetAddCrc(crc: uint16, elem: nat)
    | GetEnter(crc: uint16, elem: nat)
    | GetWatch(crc: uint16, elem: nat, sem: nat)
    | GetDone(crc: uint16, hit: bool, answer: nat, lock: Option<nat>)
    | DeleteUnlink(elem: nat)
    | DeleteStop(elem: nat)
    | DeleteTest(elem: nat)
    | DeleteExit(elem: nat)
    | DeletePick(elem: nat)
    | DeleteMove(elem: nat, target: nat)
    | DeletePorts(elem: nat, target: nat)
    | DeleteSignal(elem: nat)
    | DeleteDone(elem: nat)

  /** Waiting for a tick, past a tick that found the flow expired, or past the decrement of the counter. */
  datatype Phase = Ticking | Expiring | Forgetting

  /** A watcher; one started by the `Delete` of an element reaches the table through that element, `via`. */
  datatype Watch = Watch(birth: nat, elem: nat, crc: uint16, via: Option<nat>, phase: Phase)

  /**
   The elements: `live` are the members of the ring, and `stale` is where the cursor of an empty ring still points.
   `dropped` are the elements whose container pointer is nil and `mapless` those whose table pointer is.
   `torn` says that an element was unlinked twice, which leaves the links in disorder.
   */
  datatype Pool = Pool(
    live: set<nat>,
    stale: Option<nat>,
    stopped: set<nat>,
    dropped: set<nat>,
    mapless: set<nat>,
    torn: bool)

  datatype Shared = Shared(
    crc2conn: map<uint16, nat>,
    crc2lock: map<uint16, nat>,
    usage: map<uint16, int>,
    crcContainer: map<uint16, Option<nat>>,
    ports: map<nat, set<uint16>>,
    pool: Pool,
    threads: map<nat, Thread>,
    watches: set<Watch>,
    births: nat,
    sems: nat)

  function Init(): Shared {
    Shared(map[], map[], map[], map[], map[], Pool({}, None, {}, {}, {}, false), map[], {}, 0, 0)
  }

  datatype Event =
    | Register(elem: nat)
    | CallGet(tid: nat, crc: uint16)
    | CallDelete(tid: nat, elem: nat)
    /** One section of a goroutine; the other fields resolve what the model leaves open. */
    | Run(tid: nat, now: int, picked: Option<nat>, roomy: bool)
    | Tick(w: Watch, now: int, timeout: int)
    | Decrement(w: Watch)
    | Forget(w: Watch)
    | Quit(w: Watch)

  function PortsOf(s: Shared, e: nat): set<uint16> {
    if e in s.ports then s.ports[e] else {}
  }

  function Put(s: Shared, tid: nat, th: Thread): Shared {
    s.(threads := s.threads[tid := th])
  }

  /**
   What `Next` can find under the cursor: a member, or over an empty ring what it still points at,
   possibly nil; over torn links anything.
   */
  predicate CanPick(s: Shared, picked: Option<nat>) {
    if s.pool.torn then picked.Some? ==> picked.value in s.ports
    else if s.pool.live != {} then picked.Some? && picked.value in s.pool.live
    else picked == s.pool.stale
  }

  predicate Possible(s: Shared, th: Thread, picked: Option<nat>) {
    match th
    case GetPick(_) => CanPick(s, picked)
    case DeletePick(_) => CanPick(s, picked)
    case GetDone(_, _, _, _) => false
    case DeleteDone(_) => false
    case _ => true
  }

  /**
   The section panics: it dereferences a nil container, table pointer or cursor, or closes a stop
   channel that is closed.
   */
  predicate PanicsAt(s: Shared, th: Thread, picked: Option<nat>) {
    match th
    case GetTest(_, conn, container, _) => conn.Some? && container == Some(None)
    case GetPick(_) => picked.None?
    case GetWatch(_, e, _) => e in s.pool.dropped
    case DeleteStop(e) => e in s.pool.stopped
    case DeleteExit(e) => e in s.pool.dropped
    case DeletePick(_) => picked.None?
    case DeleteMove(e, r) => e in s.pool.mapless || (PortsOf(s, e) != {} && r in s.pool.dropped)
    case DeleteSignal(e) => e in s.pool.dropped
    case _ => false
  }

  /** The cursor over an empty ring follows the element's own link, which its stop section sets to nil. */
  function Picked(p: Pool): Pool {
    if p.live == {} && p.stale.Some? && p.stale.value in p.stopped then p.(stale := None) else p
  }

  /** The sections of the pool: `Next`, and those of `Delete` on its element. */
  function PoolEffect(p: Pool, th: Thread): Pool {
    match th
    case GetPick(_) => Picked(p)
    case DeletePick(_) => Picked(p)
    case DeleteUnlink(e) =>
      if e in p.live then p.(live := p.live - {e}, stale := if p.live == {e} then Some(e) else p.stale)
      else if e in p.stopped then p.(dropped := p.dropped + {e}, mapless := p.mapless + {e})
      else p.(torn := true)
    case DeleteStop(e) => p.(stopped := p.stopped + {e})
    case DeleteExit(e) => p.(dropped := p.dropped + {e})
    case _ => p
  }

  function Rerouted(ports: set<uint16>, r: nat): map<uint16, nat> {
    map p | p in ports :: r
  }

  function MovedWatches(ports: set<uint16>, births: nat, e: nat, r: nat): set<Watch> {
    set p | p in ports :: Watch(births, r, p, Some(e), Ticking)
  }

  /** The sections of the table. */
  function TableEffect(s: Shared, th: Thread, now: int): Shared {
    match th
    case GetStamp(crc, _, _, _) => s.(usage := s.usage[crc := now])
    case GetAddCrc(crc, e) => s.(ports := s.ports[e := PortsOf(s, e) + {crc}])
    case GetEnter(crc, e) =>
      s.(crc2conn := s.crc2conn[crc := e], crc2lock := s.crc2lock[crc := s.sems],
         crcContainer := s.crcContainer[crc := if e in s.pool.dropped then None else Some(e)], sems := s.sems + 1)
    case GetWatch(crc, e, _) =>
      s.(watches := s.watches + {Watch(s.births, e, crc, None, Ticking)}, births := s.births + 1)
    case DeleteMove(e, r) =>
      s.(crc2conn := s.crc2conn + Rerouted(PortsOf(s, e), r),
         watches := s.watches + MovedWatches(PortsOf(s, e), s.births, e, r),
         births := s.births + 1)
    case DeletePorts(e, r) => s.(ports := s.ports[r := PortsOf(s, r) + PortsOf(s, e)])
    case _ => s
  }

  predicate OnPool(th: Thread) {
    th.GetPick? || th.DeletePick? || th.DeleteUnlink? || th.DeleteStop? || th.DeleteExit?
  }

  /** What the next critical section of a goroutine does to the shared state. */
  function Effect(s: Shared, th: Thread, now: int): Shared {
    if OnPool(th) then s.(pool := PoolEffect(s.pool, th)) else TableEffect(s, th, now)
  }

  /** Where that section leaves the goroutine. */
  function After(s: Shared, th: Thread, picked: Option<nat>, roomy: bool): Thread {
    match th
    case GetLook(crc) => GetStamp(crc, Lookup(s.crc2conn, crc), Lookup(s.crcContainer, crc), Lookup(s.crc2lock, crc))
    case GetStamp(crc, conn, container, lock) => GetTest(crc, conn, container, lock)
    case GetTest(crc, conn, container, lock) =>
      if conn.Some? && container.Some? && roomy then GetDone(crc, true, conn.value, lock) else GetPick(crc)
    case GetPick(crc) => if picked.Some? then GetAddCrc(crc, picked.value) else th
    case GetAddCrc(crc, e) => GetEnter(crc, e)
    case GetEnter(crc, e) => GetWatch(crc, e, s.sems)
    case GetWatch(crc, e, sem) => GetDone(crc, false, e, Some(sem))
    case DeleteUnlink(e) => if e in s.pool.live || e !in s.pool.stopped then DeleteStop(e) else DeleteDone(e)
    case DeleteStop(e) => DeleteTest(e)
    case DeleteTest(e) => if PortsOf(s, e) == {} then DeleteExit(e) else DeletePick(e)
    case DeleteExit(e) => DeleteDone(e)
    case DeletePick(e) => if picked.Some? then DeleteMove(e, picked.value) else th
    case DeleteMove(e, r) => DeletePorts(e, r)
    case DeletePorts(e, _) => DeleteSignal(e)
    case DeleteSignal(e) => DeleteDone(e)
    case _ => th
  }

  /** A ticker fires and a watcher goes on only as its phase allows; it stops only between ticks. */
  predicate Enabled(s: Shared, ev: Event) {
    match ev
    case Register(e) => e !in s.ports
    case CallGet(tid, _) => tid !in s.threads
    case CallDelete(tid, e) => tid !in s.threads && e in s.ports
    case Run(tid, _, picked, _) => tid in s.threads && Possible(s, s.threads[tid], picked)
    case Tick(w, _, _) => w in s.watches && w.phase.Ticking?
    case Decrement(w) => w in s.watches && w.phase.Expiring?
    case Forget(w) => w in s.watches && w.phase.Forgetting?
    case Quit(w) => w in s.watches && w.phase.Ticking? && w.elem in s.pool.stopped
  }

  predicate Unreachable(s: Shared, w: Watch) {
    w.via.Some? && w.via.value in s.pool.mapless
  }

  predicate Panics(s: Shared, ev: Event) {
    match ev
    case Run(tid, _, picked, _) => tid in s.threads && PanicsAt(s, s.threads[tid], picked)
    case Tick(w, _, _) => Unreachable(s, w)
    case Decrement(w) => w.elem in s.pool.dropped
    case Forget(w) => Unreachable(s, w)
    case _ => false
  }

  function WatchStep(s: Shared, ev: Event): Shared
    requires ev.Tick? || ev.Decrement? || ev.Forget? || ev.Quit?
  {
    match ev
    case Tick(w, now, timeout) =>
      if w.crc in s.usage && now - s.usage[w.crc] > timeout
      then s.(watches := s.watches - {w} + {w.(phase := Expiring)}) else s
    case Decrement(w) => s.(watches := s.watches - {w} + {w.(phase := Forgetting)})
    case Forget(w) =>
      s.(crc2conn := s.crc2conn - {w.crc},
         crcContainer := if w.via.None? then s.crcContainer - {w.crc} else s.crcContainer,
         watches := s.watches - {w})
    case Quit(w) => s.(watches := s.watches - {w})
  }

  /** `None` when the event is not possible in `s`, or panics, which ends the process. */
  function Exec(s: Shared, ev: Event): Option<Shared> {
    if !Enabled(s, ev) || Panics(s, ev) then None
    else
      match ev
      case Register(e) => Some(s.(ports := s.ports[e := {}], pool := s.pool.(live := s.pool.live + {e}, stale := None)))
      case CallGet(tid, crc) => Some(Put(s, tid, GetLook(crc)))
      case CallDelete(tid, e) => Some(Put(s, tid, DeleteUnlink(e)))
      case Run(tid, now, picked, roomy) =>
        var th := s.threads[tid];
        Some(Put(Effect(s, th, now), tid, After(s, th, picked, roomy)))
      case _ => Some(WatchStep(s, ev))
  }

  function Execs(s: Shared, evs: seq<Event>): Option<Shared> {
    if evs == [] then Some(s)
    else
      var before := Execs(s, evs[..|evs| - 1]);
      if before.None? then None else Exec(before.value, evs[|evs| - 1])
  }

  /** What a goroutine has read or written so far is still so in the shared maps. */
  predicate ThreadOk(s: Shared, th: Thread) {
    match th
    case GetLook(_) => true
    case GetStamp(_, _, container, lock) => container.Some? ==> lock.Some?
    case GetTest(crc, _, container, lock) => crc in s.usage && (container.Some? ==> lock.Some?)
    case GetPick(crc) => crc in s.usage
    case GetAddCrc(crc, _) => crc in s.usage
    case GetEnter(crc, _) => crc in s.usage
    case GetWatch(crc, _, _) => crc in s.usage
    case GetDone(_, _, _, lock) => lock.Some?
    case _ => true
  }

  predicate Ok(s: Shared) {
    && s.crcContainer.Keys <= s.crc2lock.Keys
    && (forall e, p :: e in s.ports && p in s.ports[e] ==> p in s.usage)
    && (forall w :: w in s.watches ==> w.crc in s.usage)
    && (forall t :: t in s.threads ==> ThreadOk(s, s.threads[t]))
  }

  /** A goroutine's own step keeps the invariant while locks and timestamps only grow. */
  lemma PutOk(s: Shared, t: Shared, tid: nat, th: Thread)
    requires Ok(s) && s.crc2lock.Keys <= t.crc2lock.Keys && s.usage.Keys <= t.usage.Keys
    requires t.threads == s.threads && t.crcContainer.Keys <= t.crc2lock.Keys
    requires forall e, p :: e in t.ports && p in t.ports[e] ==> p in t.usage
    requires forall w :: w in t.watches ==> w.crc in t.usage
    requires ThreadOk(t, th)
    ensures Ok(Put(t, tid, th))
  {
  }

  lemma MoveOk(s: Shared, e: nat, r: nat)
    requires Ok(s)
    ensures Ok(Effect(s, DeleteMove(e, r), 0))
  {
  }

  lemma PoolOk(s: Shared, p: Pool)
    requires Ok(s)
    ensures Ok(s.(pool := p))
  {
    assert forall x :: x in s.threads ==> ThreadOk(s, s.threads[x]);
  }

  lemma PortsOk(s: Shared, e: nat, crcs: set<uint16>)
    requires Ok(s) && crcs <= s.usage.Keys
    ensures Ok(s.(ports := s.ports[e := PortsOf(s, e) + crcs]))
  {
    assert forall x :: x in s.threads ==> ThreadOk(s, s.threads[x]);
  }

  lemma EffectOk(s: Shared, th: Thread, now: int)
    requires Ok(s) && ThreadOk(s, th)
    ensures Ok(Effect(s, th, now))
  {
    if th.DeleteMove? {
      MoveOk(s, th.elem, th.target);
    } else if th.GetAddCrc? {
      PortsOk(s, th.elem, {th.crc});
    } else if th.DeletePorts? {
      PortsOk(s, th.target, PortsOf(s, th.elem));
    } else if OnPool(th) {
      PoolOk(s, PoolEffect(s.pool, th));
    }
  }

  lemma SectionOk(s: Shared, tid: nat, now: int, picked: Option<nat>, roomy: bool)
    requires Ok(s) && tid in s.threads
    ensures Ok(Put(Effect(s, s.threads[tid], now), tid, After(s, s.threads[tid], picked, roomy)))
  {
    var th := s.threads[tid];
    assert ThreadOk(s, th);
    EffectOk(s, th, now);
    PutOk(Effect(s, th, now), Effect(s, th, now), tid, After(s, th, picked, roomy));
  }

  /** Watchers only ever forget entries. */
  lemma WatchOk(s: Shared, ev: Event)
    requires Ok(s) && (ev.Tick? || ev.Decrement? || ev.Forget? || ev.Quit?) && Exec(s, ev).Some?
    ensures Ok(Exec(s, ev).value)
  {
    var t := Exec(s, ev).value;
    forall x | x in t.threads
      ensures ThreadOk(t, t.threads[x])
    {
      assert ThreadOk(s, s.threads[x]);
    }
  }

  lemma ExecOk(s: Shared, ev: Event)
    requires Ok(s) && Exec(s, ev).Some?
    ensures Ok(Exec(s, ev).value)
  {
    match ev
    case Run(tid, now, picked, roomy) => SectionOk(s, tid, now, picked, roomy);
    case CallGet(tid, crc) => PutOk(s, s, tid, GetLook(crc));
    case CallDelete(tid, e) => PutOk(s, s, tid, DeleteUnlink(e));
    case Register(e) =>
      var t := Exec(s, ev).value;
      assert forall x :: x in t.threads ==> ThreadOk(s, t.threads[x]);
    case _ => WatchOk(s, ev);
  }

  /**
   Under every interleaving of critical sections, every finished `Get` has a semaphore and every
   watcher finds a timestamp for its flow, so none waits for ever on an idle one.
   */
  lemma {:induction false} LocksAndTimestamps(evs: seq<Event>, s: Shared)
    requires Execs(Init(), evs) == Some(s)
    ensures Ok(s)
    ensures forall t :: t in s.threads && s.threads[t].GetDone? ==> s.threads[t].lock.Some?
    ensures forall w :: w in s.watches ==> w.crc in s.usage
  {
    if evs == [] {
    } else {
      var before := Execs(Init(), evs[..|evs| - 1]).value;
      LocksAndTimestamps(evs[..|evs| - 1], before);
      ExecOk(before, evs[|evs| - 1]);
    }
    assert forall t :: t in s.threads && s.threads[t].GetDone? ==> ThreadOk(s, s.threads[t]);
  }

  /**
   Where a goroutine stands fits the ring and the ports: one in `Delete` past unlinking has a registered
   element that is off the ring, and it goes on to move flows only when there are any.
   */
  predicate Placed(s: Shared, th: Thread) {
    match th
    case GetEnter(crc, e) => crc in PortsOf(s, e)
    case DeleteUnlink(e) => e in s.ports
    case DeleteStop(e) => e in s.ports && e !in s.pool.live
    case DeleteTest(e) => e in s.ports && e !in s.pool.live
    case DeleteExit(e) => e in s.ports && e !in s.pool.live
    case DeletePick(e) => e in s.ports && e !in s.pool.live && s.ports[e] != {}
    case DeleteMove(e, _) => e in s.ports && e !in s.pool.live && s.ports[e] != {}
    case _ => true
  }

  /** Only registered elements off the ring are stopped or lose a pointer, and the table pointer goes last. */
  predicate PoolGrounded(p: Pool, registered: set<nat>) {
    && p.live <= registered && p.stopped <= registered && p.dropped <= registered
    && p.live !! p.stopped
    && p.live !! p.dropped
    && p.mapless <= p.dropped
  }

  predicate Grounded(s: Shared) {
    && PoolGrounded(s.pool, s.ports.Keys)
    && forall t :: t in s.threads ==> Placed(s, s.threads[t])
  }

  /** No section of the pool puts an element on the ring, reopens a stop channel or restores a pointer. */
  predicate PoolGrows(p: Pool, q: Pool) {
    q.live <= p.live && p.stopped <= q.stopped && p.dropped <= q.dropped && p.mapless <= q.mapless
  }

  /** No section of the table takes a port away. */
  predicate PortsGrow(s: Shared, t: Shared) {
    s.ports.Keys <= t.ports.Keys && forall e :: e in s.ports ==> s.ports[e] <= t.ports[e]
  }

  lemma PoolEffectGrows(p: Pool, th: Thread)
    ensures PoolGrows(p, PoolEffect(p, th))
  {
  }

  lemma EffectGrows(s: Shared, th: Thread, now: int)
    ensures PoolGrows(s.pool, Effect(s, th, now).pool) && PortsGrow(s, Effect(s, th, now))
    ensures Effect(s, th, now).threads == s.threads
  {
    PoolEffectGrows(s.pool, th);
  }

  lemma PoolEffectGrounded(s: Shared, th: Thread)
    requires PoolGrounded(s.pool, s.ports.Keys) && Placed(s, th)
    ensures PoolGrounded(PoolEffect(s.pool, th), s.ports.Keys)
  {
  }

  lemma EffectGrounded(s: Shared, th: Thread, now: int)
    requires PoolGrounded(s.pool, s.ports.Keys) && Placed(s, th)
    ensures PoolGrounded(Effect(s, th, now).pool, Effect(s, th, now).ports.Keys)
  {
    PoolEffectGrounded(s, th);
    EffectGrows(s, th, now);
  }

  lemma StaysPlaced(s: Shared, t: Shared, th: Thread)
    requires Placed(s, th) && t.pool.live <= s.pool.live && PortsGrow(s, t)
    ensures Placed(t, th)
  {
  }

  lemma AfterPlaced(s: Shared, th: Thread, now: int, picked: Option<nat>, roomy: bool)
    requires PoolGrounded(s.pool, s.ports.Keys) && Placed(s, th)
    ensures Placed(Effect(s, th, now), After(s, th, picked, roomy))
  {
  }

  lemma SectionGrounded(s: Shared, tid: nat, now: int, picked: Option<nat>, roomy: bool)
    requires Grounded(s) && tid in s.threads
    ensures Grounded(Put(Effect(s, s.threads[tid], now), tid, After(s, s.threads[tid], picked, roomy)))
  {
    var th := s.threads[tid];
    var t := Effect(s, th, now);
    assert Placed(s, th);
    EffectGrows(s, th, now);
    EffectGrounded(s, th, now);
    AfterPlaced(s, th, now, picked, roomy);
    var u := Put(t, tid, After(s, th, picked, roomy));
    forall x | x in u.threads
      ensures Placed(u, u.threads[x])
    {
      if x != tid {
        StaysPlaced(s, u, s.threads[x]);
      }
    }
  }

  lemma ExecGrounded(s: Shared, ev: Event)
    requires Grounded(s) && Exec(s, ev).Some?
    ensures Grounded(Exec(s, ev).value)
  {
    if ev.Run? {
      SectionGrounded(s, ev.tid, ev.now, ev.picked, ev.roomy);
    } else {
      var t := Exec(s, ev).value;
      forall x | x in t.threads
        ensures Placed(t, t.threads[x])
      {
        if x in s.threads {
          assert Placed(s, s.threads[x]);
        }
      }
    }
  }

  lemma {:induction false} RunGrounded(evs: seq<Event>)
    requires Execs(Init(), evs).Some?
    ensures Grounded(Execs(Init(), evs).value)
  {
    if evs == [] {
    } else {
      RunGrounded(evs[..|evs| - 1]);
      ExecGrounded(Execs(Init(), evs[..|evs| - 1]).value, evs[|evs| - 1]);
    }
  }
}
