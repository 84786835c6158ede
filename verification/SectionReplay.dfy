/** Every run of the dispatcher is a run of its critical sections. */
module SectionReplay {
  import opened Words
  import F = FlowSpec
  import FlowRun
  import FlowRegistry
  import opened FlowSections
  import opened SectionSteps
  import opened SectionMirror

  /** Every `Get`, run without interruption, is the `Get` step: the same state, connection and semaphore. */
  lemma {:induction false} GetBySections(z: Shared, s: F.State, conns: seq<F.Conn>, tid: nat, crc: uint16, now: int)
      returns (evs: seq<Event>, y: Shared)
    requires Mirrors(z, s, conns) && FlowRun.Sound(s) && tid !in z.threads && F.GetStep(s, crc, now).Got?
    ensures Alone(evs, tid) && Execs(z, evs) == Some(y) && y.threads.Keys == z.threads.Keys + {tid}
    ensures Mirrors(y, F.GetStep(s, crc, now).s, conns) && Returned(y, tid, crc, F.GetStep(s, crc, now), conns)
  {
    if F.Hit(s, crc) {
      evs, y := HitBySections(z, s, conns, tid, crc, now);
    } else {
      evs, y := MissBySections(z, s, conns, tid, crc, now);
    }
  }

  function Grown(conns: seq<F.Conn>, ev: F.Event): seq<F.Conn> {
    conns + if ev.Add? then [ev.conn] else []
  }

  lemma {:induction false} OneEvent(z: Shared, ev: Event)
    ensures Execs(z, [ev]) == Exec(z, ev)
  {
    ExecsSnoc(z, [], ev, z);
    assert [] + [ev] == [ev];
  }

  lemma {:induction false} AddBySections(z: Shared, s: F.State, conns: seq<F.Conn>, conn: F.Conn, maxFluxes: int8)
      returns (evs: seq<Event>, y: Shared)
    requires Mirrors(z, s, conns) && FlowRun.Sound(s)
    ensures Execs(z, evs) == Some(y) && y.threads == z.threads
    ensures Mirrors(y, F.AddStep(s, conn, maxFluxes), conns + [conn])
  {
    AddMirrors(z, s, conns, conn, maxFluxes);
    OneEvent(z, Register(|s.elems|));
    evs, y := [Register(|s.elems|)], Exec(z, Register(|s.elems|)).value;
  }

  lemma {:induction false} StopBySections(z: Shared, s: F.State, conns: seq<F.Conn>, w: F.Watcher)
      returns (evs: seq<Event>, y: Shared)
    requires Mirrors(z, s, conns) && FlowRun.Sound(s) && w in s.watchers && w.elem !in s.ring
    ensures Execs(z, evs) == Some(y) && y.threads == z.threads
    ensures Mirrors(y, s.(watchers := s.watchers - {w}), conns)
  {
    StopMirrors(z, s, conns, w);
    OneEvent(z, Quit(WatchOf(w)));
    evs, y := [Quit(WatchOf(w))], Exec(z, Quit(WatchOf(w))).value;
  }

  /** Every step of the dispatcher is a run of sections, of one goroutine or one watcher. */
  lemma {:induction false} StepBySections(z: Shared, s: F.State, conns: seq<F.Conn>, tid: nat, ev: F.Event)
      returns (evs: seq<Event>, y: Shared)
    requires Mirrors(z, s, conns) && FlowRun.Sound(s) && tid !in z.threads
    requires F.Enabled(s, ev) && F.Step(s, ev).Some?
    ensures Execs(z, evs) == Some(y) && Mirrors(y, F.Step(s, ev).value, Grown(conns, ev))
    ensures y.threads.Keys <= z.threads.Keys + {tid}
    ensures ev.Get? ==> Returned(y, tid, ev.crc, F.GetStep(s, ev.crc, ev.now), conns)
  {
    assert !ev.Add? ==> Grown(conns, ev) == conns;
    match ev
    case Add(conn, maxFluxes) => evs, y := AddBySections(z, s, conns, conn, maxFluxes);
    case Get(crc, now) => evs, y := GetBySections(z, s, conns, tid, crc, now);
    case Tick(w, now) => evs, y := TickBySections(z, s, conns, w, now);
    case Stop(w) => evs, y := StopBySections(z, s, conns, w);
    case Delete(e) => evs, y := DeleteBySections(z, s, conns, tid, e);
  }

  /** Every panic of a step is a panic of one of its sections. */
  lemma {:induction false} PanicStepBySections(z: Shared, s: F.State, conns: seq<F.Conn>, tid: nat, ev: F.Event)
      returns (evs: seq<Event>, y: Shared, last: Event)
    requires Mirrors(z, s, conns) && FlowRun.Sound(s) && tid !in z.threads
    requires F.Enabled(s, ev) && F.Step(s, ev).None?
    ensures EndsInPanic(z, evs, y, last)
  {
    match ev
    case Get(crc, now) =>
      evs, y, last := PanicBySections(z, s, conns, tid, crc, now);
    case Tick(w, now) =>
      evs, y, last := TickPanicBySections(z, s, conns, w, now);
    case Delete(e) =>
      FlowRun.DeleteTotal(s, e);
      assert false;
  }

  function Registered(evs: seq<F.Event>): seq<F.Conn> {
    var adds := FlowRegistry.Adds(evs);
    seq(|adds|, i requires 0 <= i < |adds| => adds[i].0)
  }

  lemma RegisteredSnoc(evs: seq<F.Event>)
    requires evs != []
    ensures Registered(evs) == Grown(Registered(evs[..|evs| - 1]), evs[|evs| - 1])
  {
  }

  lemma {:induction false} ExecsConcat(z: Shared, a: seq<Event>, t: Shared, b: seq<Event>)
    requires Execs(z, a) == Some(t)
    ensures Execs(z, a + b) == Execs(t, b)
  {
    if b == [] {
      assert a + b == a;
    } else {
      ExecsConcat(z, a, t, b[..|b| - 1]);
      assert (a + b)[..|a + b| - 1] == a + b[..|b| - 1];
    }
  }

  /** What no run of sections has yet: a goroutine with this number. */
  predicate Fresh(z: Shared, n: nat) {
    forall tid :: tid in z.threads ==> tid < n
  }

  lemma {:induction false} Extend(z0: Shared, done: seq<Event>, z: Shared, s: F.State, conns: seq<F.Conn>, n: nat,
                                  ev: F.Event)
      returns (sections: seq<Event>, y: Shared)
    requires Execs(z0, done) == Some(z) && Mirrors(z, s, conns) && Fresh(z, n)
    requires FlowRun.Sound(s) && F.Enabled(s, ev) && F.Step(s, ev).Some?
    ensures Execs(z0, sections) == Some(y) && Fresh(y, n + 1)
    ensures Mirrors(y, F.Step(s, ev).value, Grown(conns, ev))
  {
    var more: seq<Event>;
    more, y := StepBySections(z, s, conns, n, ev);
    ExecsConcat(z0, done, z, more);
    sections := done + more;
  }

  /**
   Every run of the dispatcher from the start is a run of its sections from the start, to a state that
   mirrors the one reached, with the connections registered in the run.
   */
  lemma {:induction false} RunBySections(fluxMaxAge: int, evs: seq<F.Event>, s: F.State)
      returns (sections: seq<Event>, y: Shared)
    requires FlowRun.Run(F.Init(fluxMaxAge), evs) == Some(s)
    ensures Execs(Init(), sections) == Some(y) && Mirrors(y, s, Registered(evs)) && Fresh(y, |evs|)
  {
    if evs == [] {
      sections, y := [], Init();
      InitMirrors(fluxMaxAge);
    } else {
      var init, last := evs[..|evs| - 1], evs[|evs| - 1];
      var before := FlowRun.Run(F.Init(fluxMaxAge), init).value;
      var done, z := RunBySections(fluxMaxAge, init, before);
      RegisteredSnoc(evs);
      sections, y := Extend(Init(), done, z, before, Registered(init), |init|, last);
    }
  }
}
