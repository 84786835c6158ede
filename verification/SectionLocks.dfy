/** Which semaphore a `Get` returns, under every interleaving of critical sections. */
module SectionLocks {
  import opened Words
  import opened FlowSections

  /** The flow entered by an event, if it is the section that creates a semaphore. */
  function EntersAt(s: Shared, ev: Event): seq<uint16> {
    if ev.Run? && ev.tid in s.threads && s.threads[ev.tid].GetEnter? then [s.threads[ev.tid].crc] else []
  }

  /** The flows that semaphores were created for in a run, in order of creation. */
  function Issued(evs: seq<Event>): seq<uint16> {
    if evs == [] then []
    else
      var init := evs[..|evs| - 1];
      var before := Execs(Init(), init);
      Issued(init) + if before.Some? then EntersAt(before.value, evs[|evs| - 1]) else []
  }

  predicate Owns(issued: seq<uint16>, crc: uint16, lock: Option<nat>) {
    lock.Some? ==> lock.value < |issued| && issued[lock.value] == crc
  }

  predicate ThreadOwns(issued: seq<uint16>, th: Thread) {
    match th
    case GetStamp(crc, _, _, lock) => Owns(issued, crc, lock)
    case GetTest(crc, _, _, lock) => Owns(issued, crc, lock)
    case GetWatch(crc, _, sem) => Owns(issued, crc, Some(sem))
    case GetDone(crc, _, _, lock) => Owns(issued, crc, lock)
    case _ => true
  }

  predicate TableOwns(issued: seq<uint16>, locks: map<uint16, nat>) {
    forall crc :: crc in locks ==> Owns(issued, crc, Some(locks[crc]))
  }

  /** A semaphore held anywhere was created for the flow it is held for. */
  predicate Owned(s: Shared, issued: seq<uint16>) {
    && |issued| == s.sems
    && TableOwns(issued, s.crc2lock)
    && forall t :: t in s.threads ==> ThreadOwns(issued, s.threads[t])
  }

  lemma TableGrows(issued: seq<uint16>, locks: map<uint16, nat>, crc: uint16)
    requires TableOwns(issued, locks)
    ensures TableOwns(issued + [crc], locks[crc := |issued|])
  {
  }

  lemma EffectOwned(s: Shared, issued: seq<uint16>, tid: nat, now: int)
    requires Owned(s, issued) && tid in s.threads
    ensures var more := if s.threads[tid].GetEnter? then [s.threads[tid].crc] else [];
            var t := Effect(s, s.threads[tid], now);
            t.threads == s.threads && |issued + more| == t.sems && TableOwns(issued + more, t.crc2lock)
  {
    var th := s.threads[tid];
    if th.GetEnter? {
      TableGrows(issued, s.crc2lock, th.crc);
    } else {
      assert issued + [] == issued;
    }
  }

  lemma SectionOwned(s: Shared, issued: seq<uint16>, ev: Event)
    requires Owned(s, issued) && ev.Run? && Exec(s, ev).Some?
    ensures Owned(Exec(s, ev).value, issued + EntersAt(s, ev))
  {
    var th, more, t := s.threads[ev.tid], EntersAt(s, ev), Exec(s, ev).value;
    EffectOwned(s, issued, ev.tid, ev.now);
    assert ThreadOwns(issued, th);
    forall x | x in t.threads
      ensures ThreadOwns(issued + more, t.threads[x])
    {
      assert x in s.threads && ThreadOwns(issued, s.threads[x]);
    }
  }

  lemma ExecOwned(s: Shared, issued: seq<uint16>, ev: Event)
    requires Owned(s, issued) && Exec(s, ev).Some?
    ensures Owned(Exec(s, ev).value, issued + EntersAt(s, ev))
  {
    if ev.Run? {
      SectionOwned(s, issued, ev);
    } else {
      assert issued + [] == issued;
      var t := Exec(s, ev).value;
      forall x | x in t.threads
        ensures ThreadOwns(issued, t.threads[x])
      {
        assert x in s.threads ==> ThreadOwns(issued, s.threads[x]);
      }
    }
  }

  lemma {:induction false} RunOwned(evs: seq<Event>, s: Shared)
    requires Execs(Init(), evs) == Some(s)
    ensures Owned(s, Issued(evs))
  {
    if evs == [] {
    } else {
      var init := evs[..|evs| - 1];
      var before := Execs(Init(), init).value;
      RunOwned(init, before);
      ExecOwned(before, Issued(init), evs[|evs| - 1]);
    }
  }

  /** A semaphore was stored for its flow by the section that created it. */
  lemma {:induction false} StoredWhenIssued(evs: seq<Event>, s: Shared, sem: nat) returns (k: nat)
    requires Execs(Init(), evs) == Some(s) && sem < |Issued(evs)|
    ensures k <= |evs| && Execs(Init(), evs[..k]).Some?
    ensures Lookup(Execs(Init(), evs[..k]).value.crc2lock, Issued(evs)[sem]) == Some(sem)
  {
    var init, last := evs[..|evs| - 1], evs[|evs| - 1];
    var before := Execs(Init(), init).value;
    if sem < |Issued(init)| {
      k := StoredWhenIssued(init, before, sem);
      assert init[..k] == evs[..k];
    } else {
      RunOwned(init, before);
      k := |evs|;
      assert evs[..k] == evs;
    }
  }

  /** Under every interleaving, the semaphore of a finished `Get` is one the table stored for its own flow. */
  lemma {:induction false} ReturnsStoredLock(evs: seq<Event>, s: Shared, t: nat) returns (k: nat)
    requires Execs(Init(), evs) == Some(s) && t in s.threads && s.threads[t].GetDone?
    ensures k <= |evs| && Execs(Init(), evs[..k]).Some? && s.threads[t].lock.Some?
    ensures Lookup(Execs(Init(), evs[..k]).value.crc2lock, s.threads[t].crc) == s.threads[t].lock
  {
    LocksAndTimestamps(evs, s);
    RunOwned(evs, s);
    assert ThreadOwns(Issued(evs), s.threads[t]);
    k := StoredWhenIssued(evs, s, s.threads[t].lock.value);
  }

  /** Under every interleaving, calls of different flows never share a semaphore. */
  lemma {:induction false} FlowsApart(evs: seq<Event>, s: Shared, t: nat, u: nat)
    requires Execs(Init(), evs) == Some(s) && t in s.threads && u in s.threads
    requires s.threads[t].GetDone? && s.threads[u].GetDone? && s.threads[t].crc != s.threads[u].crc
    ensures s.threads[t].lock != s.threads[u].lock
  {
    LocksAndTimestamps(evs, s);
    RunOwned(evs, s);
    assert ThreadOwns(Issued(evs), s.threads[t]) && ThreadOwns(Issued(evs), s.threads[u]);
  }
}
