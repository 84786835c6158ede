/**
 The two scanning helpers of one assignment as goroutines over one bitset, each test and each set of
 a bit being a step of its own.
 */
module PortScan {
  import opened Words
  import opened PortBits

  /**
   Seeking the window, testing bit `idx`, or having found it clear and about to set it.  A helper that
   found no clear bit is `early`: it has handed its buffer over already and scans on from bit 0.
   */
  datatype Helper =
    | Seek(offset: nat)
    | Test(idx: nat, end: nat, acc: seq<nat>, early: bool)
    | Mark(idx: nat, end: nat, acc: seq<nat>, early: bool)
    | Done(acc: seq<nat>)

  datatype Scan = Scan(bits: set<nat>, lower: Helper, upper: Helper)

  /** One step of a helper, with the bits it leaves; `None` once it is done. */
  function Advance(bits: set<nat>, h: Helper, length: nat): Option<(set<nat>, Helper)> {
    match h
    case Seek(offset) =>
      var k := WindowStart(bits, length, offset);
      Some((bits, Test(k, k + WINDOW, [], NextClear(bits, offset, length).None?)))
    case Test(idx, end, acc, early) =>
      if idx >= end then Some((bits, Done(acc)))
      else if idx in bits then Some((bits, Test(idx + 1, end, acc, early)))
      else Some((bits, Mark(idx, end, acc, early)))
    case Mark(idx, end, acc, early) =>
      Some((bits + {idx}, Test(idx + 1, end, acc + [idx], early)))
    case Done(_) => None
  }

  function StepOf(s: Scan, lowers: bool, length: nat): Option<Scan> {
    var r := Advance(s.bits, if lowers then s.lower else s.upper, length);
    if r.None? then None
    else if lowers then Some(s.(bits := r.value.0, lower := r.value.1))
    else Some(s.(bits := r.value.0, upper := r.value.1))
  }

  /** The scan after the helpers' steps in the order of the schedule; true is a step of the lower one. */
  function Runs(s: Scan, schedule: seq<bool>, length: nat): Option<Scan> {
    if schedule == [] then Some(s)
    else
      var before := Runs(s, schedule[..|schedule| - 1], length);
      if before.None? then None else StepOf(before.value, schedule[|schedule| - 1], length)
  }

  function Start(bits: set<nat>): Scan {
    Scan(bits, Seek(1), Seek(1025))
  }

  /** What a helper has collected so far. */
  function Held(h: Helper): seq<nat> {
    if h.Seek? then [] else h.acc
  }

  /** The helper's buffer is with the receiver, which copies it once it has both. */
  predicate HandedOver(h: Helper) {
    h.Done? || ((h.Test? || h.Mark?) && h.early)
  }

  /** How far into its window, which begins at `start`, a helper has got. */
  function Reached(h: Helper, start: nat): nat {
    match h
    case Seek(_) => start
    case Test(idx, _, _, _) => idx
    case Mark(idx, _, _, _) => idx
    case Done(_) => start + WINDOW
  }

  /** A window and how it is found: from `offset`, at the least clear bit or, when there is none, at 0. */
  datatype Window = Window(offset: nat, start: nat, early: bool)

  function Sought(bits: set<nat>, length: nat, offset: nat): Window {
    Window(offset, WindowStart(bits, length, offset), NextClear(bits, offset, length).None?)
  }

  /** The helper has collected exactly the clear indices of the part of its window behind it. */
  predicate OnCourse(bits: set<nat>, h: Helper, w: Window) {
    match h
    case Seek(o) => o == w.offset
    case Test(idx, end, acc, early) =>
      w.start <= idx <= end == w.start + WINDOW && acc == FreeIn(bits, w.start, idx) && early == w.early
    case Mark(idx, end, acc, early) =>
      && w.start <= idx < end == w.start + WINDOW && acc == FreeIn(bits, w.start, idx) && early == w.early
      && idx !in bits
    case Done(acc) => acc == FreeIn(bits, w.start, w.start + WINDOW)
  }

  predicate Overlap(a: Window, b: Window) {
    a.start < b.start + WINDOW && b.start < a.start + WINDOW
  }

  /** The part of its window a helper has behind it, all set by now. */
  function Behind(h: Helper, w: Window): set<nat> {
    Span(w.start, Reached(h, w.start))
  }

  /** Both helpers are on course, and the bits set are the old ones and the parts behind them. */
  predicate Apart(bits: set<nat>, s: Scan, low: Window, up: Window) {
    && OnCourse(bits, s.lower, low)
    && OnCourse(bits, s.upper, up)
    && s.bits == bits + Behind(s.lower, low) + Behind(s.upper, up)
  }

  /** A helper that has not sought its window yet still finds it where it was, beside bits set elsewhere. */
  lemma SeeksSameWindow(bits: set<nat>, other: set<nat>, length: nat, offset: nat)
    requires NextClear(bits, offset, length).Some? ==> NextClear(bits, offset, length).value !in other
    ensures Sought(bits + other, length, offset) == Sought(bits, length, offset)
  {
    var found := NextClear(bits, offset, length);
    if found.Some? {
      NextClearIff(bits, offset, length, found.value);
      NextClearIff(bits + other, offset, length, found.value);
    } else {
      NoneClear(bits, offset, length);
      NoneClear(bits + other, offset, length);
    }
  }

  /** A bit tested is passed over or about to be set. */
  lemma TestStep(bits: set<nat>, other: set<nat>, h: Helper, w: Window, length: nat)
    requires h.Test? && OnCourse(bits, h, w) && forall k :: k in other ==> !(w.start <= k < w.start + WINDOW)
    ensures var now := bits + Span(w.start, h.idx) + other;
            var next := Advance(now, h, length);
            && next.Some?
            && next.value.0 == bits + Behind(next.value.1, w) + other
            && OnCourse(bits, next.value.1, w)
  {
    var now := bits + Span(w.start, h.idx) + other;
    if h.idx < h.end {
      assert h.idx in now <==> h.idx in bits;
      if h.idx in bits {
        assert now == bits + Span(w.start, h.idx + 1) + other;
      }
    }
  }

  /** A bit set is the next one behind the helper. */
  lemma MarkStep(bits: set<nat>, other: set<nat>, h: Helper, w: Window, length: nat)
    requires h.Mark? && OnCourse(bits, h, w)
    ensures var now := bits + Span(w.start, h.idx) + other;
            var next := Advance(now, h, length);
            && next.Some?
            && next.value.0 == bits + Behind(next.value.1, w) + other
            && OnCourse(bits, next.value.1, w)
  {
    var now := bits + Span(w.start, h.idx) + other;
    assert now + {h.idx} == bits + Span(w.start, h.idx + 1) + other;
  }

  /** One helper's step, beside what the other one has set outside its window. */
  lemma HelperStep(bits: set<nat>, other: set<nat>, now: set<nat>, h: Helper, w: Window, length: nat)
    requires w == Sought(bits, length, w.offset) && OnCourse(bits, h, w)
    requires now == bits + Behind(h, w) + other && Advance(now, h, length).Some?
    requires forall k :: k in other ==> !(w.start <= k < w.start + WINDOW)
    ensures var next := Advance(now, h, length).value;
            && next.0 == bits + Behind(next.1, w) + other
            && OnCourse(bits, next.1, w)
  {
    if h.Seek? {
      SeeksSameWindow(bits, other, length, w.offset);
      assert now == bits + other;
    } else if h.Test? {
      TestStep(bits, other, h, w, length);
    } else if h.Mark? {
      MarkStep(bits, other, h, w, length);
    }
  }

  lemma BothStep(bits: set<nat>, s: Scan, low: Window, up: Window, lowers: bool, length: nat)
    requires low == Sought(bits, length, low.offset) && up == Sought(bits, length, up.offset) && !Overlap(low, up)
    requires Apart(bits, s, low, up) && StepOf(s, lowers, length).Some?
    ensures Apart(bits, StepOf(s, lowers, length).value, low, up)
  {
    if lowers {
      HelperStep(bits, Behind(s.upper, up), s.bits, s.lower, low, length);
    } else {
      assert s.bits == bits + Behind(s.upper, up) + Behind(s.lower, low);
      HelperStep(bits, Behind(s.lower, low), s.bits, s.upper, up, length);
    }
  }

  lemma {:induction false} StaysApart(bits: set<nat>, length: nat, schedule: seq<bool>, s: Scan)
    requires !Overlap(Sought(bits, length, 1), Sought(bits, length, 1025))
    requires Runs(Start(bits), schedule, length) == Some(s)
    ensures Apart(bits, s, Sought(bits, length, 1), Sought(bits, length, 1025))
  {
    if schedule == [] {
    } else {
      var n := |schedule| - 1;
      var before := Runs(Start(bits), schedule[..n], length).value;
      StaysApart(bits, length, schedule[..n], before);
      BothStep(bits, before, Sought(bits, length, 1), Sought(bits, length, 1025), schedule[n], length);
    }
  }

  /**
   With disjoint windows every schedule that finishes both helpers gives the same bitset and the same
   two buffers: the previously clear indices of each window in increasing order.
   */
  lemma ScansCommute(bits: set<nat>, length: nat, schedule: seq<bool>, s: Scan)
    requires !Overlap(Sought(bits, length, 1), Sought(bits, length, 1025))
    requires Runs(Start(bits), schedule, length) == Some(s) && s.lower.Done? && s.upper.Done?
    ensures var low, up := WindowStart(bits, length, 1), WindowStart(bits, length, 1025);
            && s.bits == bits + Span(low, low + WINDOW) + Span(up, up + WINDOW)
            && s.lower.acc == FreeIn(bits, low, low + WINDOW)
            && s.upper.acc == FreeIn(bits, up, up + WINDOW)
  {
    StaysApart(bits, length, schedule, s);
  }

  /** The lower window scanned, and the upper one up to `to`. */
  predicate ScannedTo(bits: set<nat>, length: nat, to: nat, now: set<nat>, lower: seq<nat>, upper: seq<nat>) {
    var low, up := WindowStart(bits, length, 1), WindowStart(bits, length, 1025);
    && now == bits + Span(low, low + WINDOW) + Span(up, to)
    && lower == FreeIn(bits, low, low + WINDOW)
    && upper == FreeIn(bits, up, to)
  }

  /** What the receiver finds once both buffers are with it; only the upper helper may still be scanning. */
  lemma WhenHandedOver(bits: set<nat>, length: nat, schedule: seq<bool>, s: Scan)
    requires NextClear(bits, 1, length).Some? && !Overlap(Sought(bits, length, 1), Sought(bits, length, 1025))
    requires Runs(Start(bits), schedule, length) == Some(s) && HandedOver(s.lower) && HandedOver(s.upper)
    ensures var up := Sought(bits, length, 1025);
            var to := if up.early then Reached(s.upper, 0) else up.start + WINDOW;
            ScannedTo(bits, length, to, s.bits, Held(s.lower), Held(s.upper)) && to <= up.start + WINDOW
  {
    StaysApart(bits, length, schedule, s);
  }

  lemma {:induction false} RunsSnoc(s: Scan, schedule: seq<bool>, lowers: bool, length: nat, t: Scan)
    requires Runs(s, schedule, length) == Some(t)
    ensures Runs(s, schedule + [lowers], length) == StepOf(t, lowers, length)
  {
    assert (schedule + [lowers])[..|schedule|] == schedule;
  }

  lemma Then(bits: set<nat>, schedule: seq<bool>, s: Scan, lowers: bool, length: nat)
      returns (schedule': seq<bool>, t: Scan)
    requires Runs(Start(bits), schedule, length) == Some(s) && StepOf(s, lowers, length).Some?
    ensures Runs(Start(bits), schedule', length) == Some(t) && Some(t) == StepOf(s, lowers, length)
  {
    RunsSnoc(Start(bits), schedule, lowers, length, s);
    return schedule + [lowers], StepOf(s, lowers, length).value;
  }

  function Mine(s: Scan, lowers: bool): Helper {
    if lowers then s.lower else s.upper
  }

  /** Running alone, a helper passes the index it is at, which is set afterwards. */
  lemma {:induction false} Pass(bits: set<nat>, schedule: seq<bool>, s: Scan, lowers: bool, length: nat)
      returns (schedule': seq<bool>, t: Scan)
    requires Runs(Start(bits), schedule, length) == Some(s)
    requires Mine(s, lowers).Test? && Mine(s, lowers).idx < Mine(s, lowers).end
    ensures Runs(Start(bits), schedule', length) == Some(t) && Mine(t, !lowers) == Mine(s, !lowers)
    ensures var h, g := Mine(s, lowers), Mine(t, lowers);
            && g.Test? && g.idx == h.idx + 1 && g.end == h.end && g.early == h.early
            && h.acc <= g.acc
            && t.bits == s.bits + {h.idx}
  {
    schedule', t := Then(bits, schedule, s, lowers, length);
    if Mine(t, lowers).Mark? {
      schedule', t := Then(bits, schedule', t, lowers, length);
    }
  }

  lemma SpanHead(bits: set<nat>, lo: nat, hi: nat)
    requires lo < hi
    ensures bits + {lo} + Span(lo + 1, hi) == bits + Span(lo, hi)
  {
  }

  /** Running alone, a helper gets to test any index of its window, having set all before it. */
  lemma {:induction false} RunTo(bits: set<nat>, schedule: seq<bool>, s: Scan, lowers: bool, k: nat, length: nat)
      returns (schedule': seq<bool>, t: Scan)
    requires Runs(Start(bits), schedule, length) == Some(s) && Mine(s, lowers).Test?
    requires Mine(s, lowers).idx <= k <= Mine(s, lowers).end
    ensures Runs(Start(bits), schedule', length) == Some(t) && Mine(t, !lowers) == Mine(s, !lowers)
    ensures var h, g := Mine(s, lowers), Mine(t, lowers);
            && g.Test? && g.idx == k && g.end == h.end && g.early == h.early
            && h.acc <= g.acc
            && t.bits == s.bits + Span(h.idx, k)
    decreases k - Mine(s, lowers).idx
  {
    var idx := Mine(s, lowers).idx;
    if idx == k {
      schedule', t := schedule, s;
    } else {
      schedule', t := Pass(bits, schedule, s, lowers, length);
      schedule', t := RunTo(bits, schedule', t, lowers, k, length);
      SpanHead(s.bits, idx, k);
    }
  }

  /** Running alone, a helper finishes. */
  lemma {:induction false} Finish(bits: set<nat>, schedule: seq<bool>, s: Scan, lowers: bool, length: nat)
      returns (schedule': seq<bool>, t: Scan)
    requires Runs(Start(bits), schedule, length) == Some(s)
    requires Mine(s, lowers).Test? && Mine(s, lowers).idx <= Mine(s, lowers).end
    ensures Runs(Start(bits), schedule', length) == Some(t) && Mine(t, !lowers) == Mine(s, !lowers)
    ensures Mine(t, lowers).Done? && Mine(s, lowers).acc <= Mine(t, lowers).acc
  {
    schedule', t := RunTo(bits, schedule, s, lowers, Mine(s, lowers).end, length);
    schedule', t := Then(bits, schedule', t, lowers, length);
  }

  /** Both helpers have sought their windows and stand before index `x`, which is still clear. */
  predicate BothBefore(s: Scan, x: nat) {
    && x !in s.bits
    && s.lower.Test? && s.lower.idx == x < s.lower.end
    && s.upper.Test? && s.upper.idx == x < s.upper.end
  }

  /** Both test the index before either sets it, so both take it. */
  lemma {:induction false} BothTake(bits: set<nat>, schedule: seq<bool>, s: Scan, x: nat, length: nat)
      returns (schedule': seq<bool>, t: Scan)
    requires Runs(Start(bits), schedule, length) == Some(s) && BothBefore(s, x)
    ensures Runs(Start(bits), schedule', length) == Some(t) && t.lower.Done? && t.upper.Done?
    ensures x in t.lower.acc && x in t.upper.acc
  {
    schedule', t := Then(bits, schedule, s, true, length);
    schedule', t := Then(bits, schedule', t, false, length);
    schedule', t := Then(bits, schedule', t, true, length);
    schedule', t := Then(bits, schedule', t, false, length);
    assert x in t.lower.acc && x in t.upper.acc;
    schedule', t := Finish(bits, schedule', t, true, length);
    schedule', t := Finish(bits, schedule', t, false, length);
  }

  /** With overlapping windows one clear index lies in both: where the later one starts. */
  lemma {:induction false} SharedIndex(bits: set<nat>, length: nat) returns (schedule: seq<bool>, s: Scan, x: nat)
    requires Overlap(Sought(bits, length, 1), Sought(bits, length, 1025)) && !Sought(bits, length, 1).early
    ensures Runs(Start(bits), schedule, length) == Some(s) && x != 0 && BothBefore(s, x)
  {
    var low, up := Sought(bits, length, 1), Sought(bits, length, 1025);
    NextClearIff(bits, 1, length, low.start);
    schedule, s := Then(bits, [], Start(bits), true, length);
    schedule, s := Then(bits, schedule, s, false, length);
    if up.early {
      x := low.start;
      schedule, s := RunTo(bits, schedule, s, false, x, length);
    } else {
      NextClearIff(bits, 1025, length, up.start);
      x := up.start;
      schedule, s := RunTo(bits, schedule, s, true, x, length);
    }
  }

  /** Some schedule puts one port in both buffers, as they are copied into the lease. */
  ghost predicate MayShare(bits: set<nat>, length: nat) {
    exists schedule, s, p ::
      && Runs(Start(bits), schedule, length) == Some(s) && HandedOver(s.lower) && HandedOver(s.upper)
      && p != 0 && p in Held(s.lower) && p in Held(s.upper)
  }

  /** With no clear bit from 1 on, the helpers can only find bit 0, which stands for no port. */
  predicate FindsZero(h: Helper) {
    match h
    case Seek(o) => o >= 1
    case Test(idx, end, acc, _) => idx <= end == WINDOW && forall p :: p in acc ==> p == 0
    case Mark(idx, end, acc, _) => idx == 0 && end == WINDOW && forall p :: p in acc ==> p == 0
    case Done(acc) => forall p :: p in acc ==> p == 0
  }

  lemma AdvanceFindsZero(bits: set<nat>, h: Helper, length: nat)
    requires AllSet(bits, 1, length) && WINDOW <= length && FindsZero(h) && Advance(bits, h, length).Some?
    ensures FindsZero(Advance(bits, h, length).value.1) && bits <= Advance(bits, h, length).value.0
  {
    if h.Seek? {
      NoneClear(bits, h.offset, length);
    }
  }

  lemma {:induction false} OnlyZeroFound(bits: set<nat>, length: nat, schedule: seq<bool>, s: Scan)
    requires AllSet(bits, 1, length) && WINDOW <= length && Runs(Start(bits), schedule, length) == Some(s)
    ensures bits <= s.bits && FindsZero(s.lower) && FindsZero(s.upper)
  {
    if schedule == [] {
    } else {
      var n := |schedule| - 1;
      var before := Runs(Start(bits), schedule[..n], length).value;
      OnlyZeroFound(bits, length, schedule[..n], before);
      AdvanceFindsZero(before.bits, Mine(before, schedule[n]), length);
    }
  }

  /** Disjoint windows keep the buffers disjoint. */
  lemma ApartShareNothing(bits: set<nat>, s: Scan, low: Window, up: Window, p: nat)
    requires Apart(bits, s, low, up) && !Overlap(low, up) && p in Held(s.lower)
    ensures p !in Held(s.upper)
  {
  }

  /**
   Some schedule hands one port out twice exactly when there is a clear bit from 1 on and the two windows
   overlap: those starting at the least clear bits, or the lower one and the first hundred bits when no
   bit from 1025 on is clear.
   */
  lemma {:induction false} MayShareIff(bits: set<nat>, length: nat)
    requires WINDOW <= length
    ensures MayShare(bits, length) <==>
            NextClear(bits, 1, length).Some? && Overlap(Sought(bits, length, 1), Sought(bits, length, 1025))
  {
    var low, up := Sought(bits, length, 1), Sought(bits, length, 1025);
    if low.early {
      NoneClear(bits, 1, length);
      forall schedule, s | Runs(Start(bits), schedule, length) == Some(s)
        ensures FindsZero(s.lower)
      {
        OnlyZeroFound(bits, length, schedule, s);
      }
    } else if Overlap(low, up) {
      var schedule, s, x := SharedIndex(bits, length);
      var schedule', t := BothTake(bits, schedule, s, x, length);
      assert HandedOver(t.lower) && HandedOver(t.upper) && x in Held(t.lower) && x in Held(t.upper);
    } else {
      forall schedule, s, p | Runs(Start(bits), schedule, length) == Some(s) && p in Held(s.lower)
        ensures p !in Held(s.upper)
      {
        StaysApart(bits, length, schedule, s);
        ApartShareNothing(bits, s, low, up, p);
      }
    }
  }
}
