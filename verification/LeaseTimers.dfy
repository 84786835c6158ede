/**
 Expiry of port mappings.  Every `Set` starts a timer chain that looks at the mapping every
 `leaseTimeout` until it finds the lease expired, and then deletes the mapping under another lock;
 chains of earlier `Set`s go on beside it.
 */
module LeaseTimers {
  import opened Words

  /** A timer chain asleep until `due`, or past its look at `due` and about to delete. */
  datatype Timer = Timer(birth: nat, port: uint16, due: int, expiring: bool)

  /** `lastSet` records the time of the latest `Set` of each port, whatever happened to it since. */
  datatype Clock = Clock(
    now: int,
    im: set<uint16>,
    lum: map<uint16, int>,
    timers: set<Timer>,
    births: nat,
    lastSet: map<uint16, int>)

  datatype Event =
    | Set(port: uint16)
    | Delete(port: uint16)
    | Look(t: Timer)
    | Drop(t: Timer)
    | Wait(until: int)

  /**
   Timers are punctual: the clock does not pass one that is due, and none looks before.  `Set` and
   `Delete` may fall between a look and its deletion.
   */
  predicate Enabled(s: Clock, ev: Event) {
    match ev
    case Look(t) => t in s.timers && !t.expiring && t.due == s.now
    case Drop(t) => t in s.timers && t.expiring
    case Wait(until) => s.now <= until && forall t :: t in s.timers ==> until <= t.due
    case _ => true
  }

  /** The test under the read lock; a port without a timestamp counts as used at the zero time. */
  predicate Expired(s: Clock, port: uint16, timeout: int) {
    port in s.lum ==> s.lum[port] + timeout < s.now
  }

  function SetStep(s: Clock, port: uint16, timeout: int): Clock {
    s.(im := s.im + {port},
       lum := s.lum[port := s.now],
       timers := s.timers + {Timer(s.births, port, s.now + timeout, false)},
       births := s.births + 1,
       lastSet := s.lastSet[port := s.now])
  }

  function LookStep(s: Clock, t: Timer, timeout: int): Clock {
    s.(timers := s.timers - {t} +
                 {if Expired(s, t.port, timeout) then t.(expiring := true) else t.(due := s.now + timeout)})
  }

  /** The deletion under the write lock, which ends the chain. */
  function DropStep(s: Clock, t: Timer): Clock {
    s.(im := s.im - {t.port}, lum := s.lum - {t.port}, timers := s.timers - {t})
  }

  function Step(s: Clock, ev: Event, timeout: int): Clock {
    match ev
    case Set(port) => SetStep(s, port, timeout)
    case Delete(port) => s.(im := s.im - {port})
    case Look(t) => LookStep(s, t, timeout)
    case Drop(t) => DropStep(s, t)
    case Wait(until) => s.(now := until)
  }

  function Init(now: int): Clock {
    Clock(now, {}, map[], {}, 0, map[])
  }

  function Run(s: Clock, evs: seq<Event>, timeout: int): Option<Clock> {
    if evs == [] then Some(s)
    else
      var before := Run(s, evs[..|evs| - 1], timeout);
      if before.None? || !Enabled(before.value, evs[|evs| - 1]) then None
      else Some(Step(before.value, evs[|evs| - 1], timeout))
  }

  /** A chain that will look at the mapping, or is about to drop it, one or two timeouts after its last use. */
  predicate Watches(s: Clock, t: Timer, port: uint16, timeout: int) {
    t in s.timers && t.port == port && port in s.lum &&
    (t.due == s.lum[port] + timeout || t.due == s.lum[port] + 2 * timeout)
  }

  /** Chains are told apart by their birth, none is overdue, and one that has looked deletes at that instant. */
  predicate Punctual(s: Clock) {
    && (forall t :: t in s.timers ==> t.birth < s.births && s.now <= t.due && (t.expiring ==> t.due == s.now))
    && (forall t, u :: t in s.timers && u in s.timers && t.birth == u.birth ==> t == u)
  }

  /** Every mapping has the timestamp of its last `Set`, not in the future, and a chain watching it. */
  ghost predicate Watched(s: Clock, timeout: int) {
    && Punctual(s)
    && (forall p :: p in s.im ==> p in s.lum && Lookup(s.lastSet, p) == Some(s.lum[p]) && s.lum[p] <= s.now)
    && (forall p :: p in s.im ==> exists t :: Watches(s, t, p, timeout))
  }

  lemma SetWatched(s: Clock, port: uint16, timeout: int)
    requires Watched(s, timeout) && timeout > 0
    ensures Watched(SetStep(s, port, timeout), timeout)
  {
    var u := SetStep(s, port, timeout);
    forall p | p in u.im
      ensures exists t :: Watches(u, t, p, timeout)
    {
      if p == port {
        assert Watches(u, Timer(s.births, port, s.now + timeout, false), p, timeout);
      } else {
        var t :| Watches(s, t, p, timeout);
        assert Watches(u, t, p, timeout);
      }
    }
  }

  lemma LookWatched(s: Clock, l: Timer, timeout: int)
    requires Watched(s, timeout) && timeout > 0 && l in s.timers && !l.expiring && l.due == s.now
    ensures Watched(LookStep(s, l, timeout), timeout)
  {
    var u := LookStep(s, l, timeout);
    forall p | p in u.im
      ensures exists t :: Watches(u, t, p, timeout)
    {
      var t :| Watches(s, t, p, timeout);
      if t != l {
        assert Watches(u, t, p, timeout);
      } else if Expired(s, p, timeout) {
        assert Watches(u, l.(expiring := true), p, timeout);
      } else {
        assert Watches(u, l.(due := s.now + timeout), p, timeout);
      }
    }
  }

  lemma StepWatched(s: Clock, ev: Event, timeout: int)
    requires Watched(s, timeout) && timeout > 0 && Enabled(s, ev)
    ensures Watched(Step(s, ev, timeout), timeout)
  {
    match ev
    case Set(port) => SetWatched(s, port, timeout);
    case Look(t) => LookWatched(s, t, timeout);
    case _ =>
      var u := Step(s, ev, timeout);
      forall p | p in u.im
        ensures exists t :: Watches(u, t, p, timeout)
      {
        var t :| Watches(s, t, p, timeout);
        assert Watches(u, t, p, timeout);
      }
  }

  /** A mapping still there is at most two timeouts past its last `Set`, however many chains the port has. */
  lemma {:induction false} GoneByTwice(now: int, evs: seq<Event>, timeout: int, s: Clock)
    requires timeout > 0 && Run(Init(now), evs, timeout) == Some(s)
    ensures Watched(s, timeout)
    ensures forall p :: p in s.im ==> p in s.lastSet && s.now <= s.lastSet[p] + 2 * timeout
  {
    if evs == [] {
    } else {
      var n := |evs| - 1;
      var before := Run(Init(now), evs[..n], timeout).value;
      GoneByTwice(now, evs[..n], timeout, before);
      StepWatched(before, evs[n], timeout);
    }
    forall p | p in s.im
      ensures p in s.lastSet && s.now <= s.lastSet[p] + 2 * timeout
    {
      var t :| Watches(s, t, p, timeout);
    }
  }

  /** The run has a `Set` of the chain's port after the last look of the expiring chain `t`. */
  predicate SetSinceLook(evs: seq<Event>, t: Timer) {
    evs != [] &&
    var last := evs[|evs| - 1];
    last != Look(t.(expiring := false)) && (last == Set(t.port) || SetSinceLook(evs[..|evs| - 1], t))
  }

  /** What a chain that is about to delete can rely on: a lease expired at its look, or one set at this instant. */
  predicate Judged(s: Clock, evs: seq<Event>, t: Timer, timeout: int) {
    if SetSinceLook(evs, t) then Lookup(s.lastSet, t.port) == Some(s.now) else Expired(s, t.port, timeout)
  }

  lemma StepJudged(s: Clock, evs: seq<Event>, ev: Event, t: Timer, timeout: int)
    requires timeout > 0 && Watched(s, timeout) && Enabled(s, ev)
    requires t in Step(s, ev, timeout).timers && t.expiring
    requires t in s.timers ==> Judged(s, evs, t, timeout)
    ensures Judged(Step(s, ev, timeout), evs + [ev], t, timeout)
  {
    assert (evs + [ev])[..|evs|] == evs;
    if ev.Look? && t !in s.timers {
      assert ev.t == t.(expiring := false);
    }
  }

  lemma {:induction false} AllJudged(now: int, evs: seq<Event>, timeout: int, s: Clock, t: Timer)
    requires timeout > 0 && Run(Init(now), evs, timeout) == Some(s) && t in s.timers && t.expiring
    ensures Judged(s, evs, t, timeout)
  {
    if evs == [] {
    } else {
      var n := |evs| - 1;
      var before := Run(Init(now), evs[..n], timeout).value;
      GoneByTwice(now, evs[..n], timeout, before);
      if t in before.timers {
        AllJudged(now, evs[..n], timeout, before, t);
      }
      assert evs == evs[..n] + [evs[n]];
      StepJudged(before, evs[..n], evs[n], t, timeout);
    }
  }

  /**
   Over every run, a timer takes a mapping away within one timeout of its last `Set` exactly when that
   `Set` fell between the timer's look and its deletion.
   */
  lemma {:induction false} EarlyDropIff(now: int, evs: seq<Event>, timeout: int, s: Clock, t: Timer)
    requires timeout > 0 && Run(Init(now), evs, timeout) == Some(s) && Enabled(s, Drop(t)) && t.port in s.im
    ensures t.port in s.lastSet && t.port !in DropStep(s, t).im
    ensures s.now <= s.lastSet[t.port] + timeout <==> SetSinceLook(evs, t)
  {
    GoneByTwice(now, evs, timeout, s);
    AllJudged(now, evs, timeout, s, t);
  }

  /** A mapping goes only by `Delete`, or by a timer: past the timeout, or overtaken by the last `Set`. */
  lemma {:induction false} NotBeforeTimeout(now: int, evs: seq<Event>, timeout: int, s: Clock, ev: Event, p: uint16)
    requires timeout > 0 && Run(Init(now), evs, timeout) == Some(s) && Enabled(s, ev)
    requires p in s.im && p !in Step(s, ev, timeout).im
    ensures p in s.lastSet
    ensures ev == Delete(p) ||
            (ev.Drop? && ev.t.port == p && (s.now > s.lastSet[p] + timeout <==> !SetSinceLook(evs, ev.t)))
  {
    GoneByTwice(now, evs, timeout, s);
    if ev.Drop? {
      EarlyDropIff(now, evs, timeout, s, ev.t);
    }
  }

  function Sets(evs: seq<Event>, p: uint16): nat {
    if evs == [] then 0 else Sets(evs[..|evs| - 1], p) + if evs[|evs| - 1] == Set(p) then 1 else 0
  }

  /** A port not set yet, or one whose chain looks first one timeout after its `Set`, in vain, and then at two. */
  predicate OnBeat(s: Clock, p: uint16, timeout: int) {
    if p !in s.lastSet then p !in s.im && forall t :: t in s.timers ==> t.port != p
    else
      && (p !in s.im ==> s.now >= s.lastSet[p] + 2 * timeout)
      && (p in s.lum ==> s.lum[p] == s.lastSet[p])
      && (forall t :: t in s.timers && t.port == p ==>
            if t.expiring then t.due == s.lastSet[p] + 2 * timeout
            else t.due == s.lastSet[p] + timeout || t.due == s.lastSet[p] + 2 * timeout)
  }

  lemma StepOnBeat(s: Clock, ev: Event, p: uint16, timeout: int)
    requires timeout > 0 && Watched(s, timeout) && OnBeat(s, p, timeout) && Enabled(s, ev)
    requires ev != Delete(p) && (ev == Set(p) ==> p !in s.lastSet)
    ensures OnBeat(Step(s, ev, timeout), p, timeout)
    ensures p in Step(s, ev, timeout).lastSet <==> p in s.lastSet || ev == Set(p)
  {
  }

  /** A mapping set once and left alone lives two timeouts, since the look at the first finds it not yet expired. */
  lemma {:induction false} SetOnceLivesTwice(now: int, evs: seq<Event>, timeout: int, s: Clock, p: uint16)
    requires timeout > 0 && Run(Init(now), evs, timeout) == Some(s) && Sets(evs, p) <= 1 && Delete(p) !in evs
    ensures OnBeat(s, p, timeout) && (p in s.lastSet <==> Sets(evs, p) == 1)
    ensures p in s.lastSet ==>
              if p in s.im then s.now <= s.lastSet[p] + 2 * timeout else s.now >= s.lastSet[p] + 2 * timeout
  {
    GoneByTwice(now, evs, timeout, s);
    if evs == [] {
    } else {
      var n := |evs| - 1;
      var before := Run(Init(now), evs[..n], timeout).value;
      GoneByTwice(now, evs[..n], timeout, before);
      SetOnceLivesTwice(now, evs[..n], timeout, before, p);
      StepOnBeat(before, evs[n], p, timeout);
    }
  }

  lemma Then(now: int, evs: seq<Event>, timeout: int, s: Clock, ev: Event) returns (evs': seq<Event>, t: Clock)
    requires Run(Init(now), evs, timeout) == Some(s) && Enabled(s, ev)
    ensures evs' == evs + [ev] && t == Step(s, ev, timeout) && Run(Init(now), evs', timeout) == Some(t)
  {
    assert (evs + [ev])[..|evs|] == evs;
    return evs + [ev], Step(s, ev, timeout);
  }

  /** Such a run: a mapping set at time 0 and set again, between look and deletion, two timeouts later. */
  lemma {:induction false} SetLostBetweenSections(p: uint16, timeout: int)
      returns (evs: seq<Event>, s: Clock, t: Timer)
    requires timeout > 0
    ensures Run(Init(0), evs, timeout) == Some(s) && Enabled(s, Drop(t)) && t.port == p
    ensures p in s.im && p in s.lastSet && s.lastSet[p] == s.now
    ensures p !in Step(s, Drop(t), timeout).im
  {
    var first := Timer(0, p, timeout, false);
    evs, s := Then(0, [], timeout, Init(0), Set(p));
    evs, s := Then(0, evs, timeout, s, Wait(timeout));
    evs, s := Then(0, evs, timeout, s, Look(first));
    assert s.timers == {first.(due := 2 * timeout)};
    evs, s := Then(0, evs, timeout, s, Wait(2 * timeout));
    evs, s := Then(0, evs, timeout, s, Look(first.(due := 2 * timeout)));
    evs, s := Then(0, evs, timeout, s, Set(p));
    t := Timer(0, p, 2 * timeout, true);
  }
}
