/** The pool of receive buffers: tokens that go round through channels, and the doubling memset. */
module Buffers {
  import opened Words
  import opened RingSeq

  /** Fills the slice by copying the part already filled behind itself. */
  method Memset(slice: array<uint8>, val: uint8)
    modifies slice
    ensures forall k :: 0 <= k < slice.Length ==> slice[k] == val
  {
    if slice.Length == 0 {
      return;
    }
    slice[0] := val;
    var i := 1;
    while i < slice.Length
      invariant 1 <= i
      invariant forall k :: 0 <= k < slice.Length && k < i ==> slice[k] == val
      decreases slice.Length - i
    {
      var n := if slice.Length - i < i then slice.Length - i else i;
      forall k | 0 <= k < n {
        slice[i + k] := slice[k];
      }
      assert forall k :: i <= k < i + n ==> slice[k] == val;
      i := i * 2;
    }
  }

  /** Buffers, by number, in the pool, with their users, released and being cleaned; `dirty` are not all zero. */
  datatype Pool = Pool(
    size: nat,
    pool: seq<nat>,
    held: set<nat>,
    released: seq<nat>,
    cleaning: set<nat>,
    wiped: set<nat>,
    dirty: set<nat>)

  function Upto(n: nat): (r: set<nat>)
    ensures forall k: nat :: k in r <==> k < n
    ensures |r| == n
  {
    if n == 0 then {} else Upto(n - 1) + {n - 1}
  }

  function Init(size: nat): Pool {
    Pool(size, seq(size, i => i), {}, [], {}, {}, {})
  }

  /** One cleaner for every ten buffers. */
  function Cleaners(size: nat): nat {
    size / 10
  }

  datatype Event =
    | Next
    | Write(b: nat)
    | Release(b: nat)
    | Take
    | Wipe(b: nat)
    | Put(b: nat)

  /** Users write and release only what they hold; channels have room for `size` buffers. */
  predicate Enabled(s: Pool, ev: Event) {
    match ev
    case Next => s.pool != []
    case Write(b) => b in s.held
    case Release(b) => b in s.held && |s.released| < s.size
    case Take => s.released != [] && |s.cleaning| < Cleaners(s.size)
    case Wipe(b) => b in s.cleaning
    case Put(b) => b in s.wiped && |s.pool| < s.size
  }

  function Step(s: Pool, ev: Event): Pool
    requires Enabled(s, ev)
  {
    match ev
    case Next => s.(pool := s.pool[1..], held := s.held + {s.pool[0]})
    case Write(b) => s.(dirty := s.dirty + {b})
    case Release(b) => s.(held := s.held - {b}, released := s.released + [b])
    case Take => s.(released := s.released[1..], cleaning := s.cleaning + {s.released[0]})
    case Wipe(b) => s.(wiped := s.wiped + {b}, dirty := s.dirty - {b})
    case Put(b) => s.(cleaning := s.cleaning - {b}, wiped := s.wiped - {b}, pool := s.pool + [b])
  }

  /** The buffers themselves: all zero but for the dirty ones. */
  ghost predicate Reflects(bufs: seq<array<uint8>>, s: Pool)
    reads bufs
  {
    forall b, k :: 0 <= b < |bufs| && b !in s.dirty && 0 <= k < bufs[b].Length ==> bufs[b][k] == 0
  }

  /** What a cleaner does to its buffer is the wipe of the state machine. */
  method Clean(bufs: seq<array<uint8>>, b: nat, ghost s: Pool)
    requires b < |bufs| && Reflects(bufs, s) && Enabled(s, Wipe(b))
    requires forall i, j :: 0 <= i < j < |bufs| ==> bufs[i] != bufs[j]
    modifies bufs[b]
    ensures Reflects(bufs, Step(s, Wipe(b)))
  {
    Memset(bufs[b], 0);
  }

  function Elems(s: seq<nat>): (r: set<nat>)
    ensures forall x :: x in r <==> x in s
  {
    set x | x in s
  }

  predicate Somewhere(s: Pool, b: nat) {
    b in s.pool || b in s.released || b in s.held || b in s.cleaning
  }

  /** Every buffer is in exactly one place, and those in the pool are all zero. */
  ghost predicate Accounted(s: Pool) {
    && NoDup(s.pool) && NoDup(s.released)
    && (forall b :: b in s.pool ==> b !in s.released && b !in s.held && b !in s.cleaning && b !in s.dirty)
    && (forall b :: b in s.released ==> b !in s.held && b !in s.cleaning)
    && s.held !! s.cleaning
    && s.wiped <= s.cleaning && s.wiped !! s.dirty
    && (forall b: nat :: Somewhere(s, b) <==> b < s.size)
  }

  lemma NextAccounted(s: Pool)
    requires Accounted(s) && Enabled(s, Next)
    ensures Accounted(Step(s, Next))
  {
    HeadTail(s.pool);
    var t := Step(s, Next);
    assert forall b: nat :: Somewhere(t, b) <==> Somewhere(s, b);
  }

  lemma TakeAccounted(s: Pool)
    requires Accounted(s) && Enabled(s, Take)
    ensures Accounted(Step(s, Take))
  {
    HeadTail(s.released);
    var t := Step(s, Take);
    assert forall b: nat :: Somewhere(t, b) <==> Somewhere(s, b);
  }

  lemma ReleaseAccounted(s: Pool, b: nat)
    requires Accounted(s) && Enabled(s, Release(b))
    ensures Accounted(Step(s, Release(b)))
  {
    AppendNoDup(s.released, b);
    var t := Step(s, Release(b));
    assert forall x: nat :: Somewhere(t, x) <==> Somewhere(s, x);
  }

  lemma PutAccounted(s: Pool, b: nat)
    requires Accounted(s) && Enabled(s, Put(b))
    ensures Accounted(Step(s, Put(b)))
  {
    AppendNoDup(s.pool, b);
    var t := Step(s, Put(b));
    assert forall x: nat :: Somewhere(t, x) <==> Somewhere(s, x);
  }

  lemma StepAccounted(s: Pool, ev: Event)
    requires Accounted(s) && Enabled(s, ev)
    ensures Accounted(Step(s, ev)) && Step(s, ev).size == s.size
  {
    match ev
    case Next => NextAccounted(s);
    case Take => TakeAccounted(s);
    case Release(b) => ReleaseAccounted(s, b);
    case Put(b) => PutAccounted(s, b);
    case Write(_) => assert forall x: nat :: Somewhere(Step(s, ev), x) <==> Somewhere(s, x);
    case Wipe(_) => assert forall x: nat :: Somewhere(Step(s, ev), x) <==> Somewhere(s, x);
  }

  lemma HeadTail(s: seq<nat>)
    requires s != [] && NoDup(s)
    ensures NoDup(s[1..]) && s[0] !in s[1..]
    ensures forall x :: x in s <==> x == s[0] || x in s[1..]
  {
  }

  lemma {:induction false} NoDupSize(s: seq<nat>)
    requires NoDup(s)
    ensures |Elems(s)| == |s|
  {
    if s == [] {
      assert Elems(s) == {};
    } else {
      HeadTail(s);
      NoDupSize(s[1..]);
      assert Elems(s) == {s[0]} + Elems(s[1..]);
    }
  }

  /** The places together always hold `size` buffers. */
  lemma TokensConserved(s: Pool)
    requires Accounted(s)
    ensures |s.pool| + |s.released| + |s.held| + |s.cleaning| == s.size
  {
    NoDupSize(s.pool);
    NoDupSize(s.released);
    assert forall b: nat :: b in Upto(s.size) <==> Somewhere(s, b);
    assert Elems(s.pool) + Elems(s.released) + s.held + s.cleaning == Upto(s.size);
    assert |Elems(s.pool) + Elems(s.released)| == |s.pool| + |s.released|;
    assert |Elems(s.pool) + Elems(s.released) + s.held| == |s.pool| + |s.released| + |s.held|;
  }

  lemma InitAccounted(size: nat)
    ensures Accounted(Init(size))
  {
    var s := Init(size);
    forall b: nat
      ensures Somewhere(s, b) <==> b < size
    {
      if b < size {
        assert s.pool[b] == b;
      }
    }
  }

  function Run(s: Pool, evs: seq<Event>): Option<Pool> {
    if evs == [] then Some(s)
    else
      var before := Run(s, evs[..|evs| - 1]);
      if before.None? || !Enabled(before.value, evs[|evs| - 1]) then None
      else Some(Step(before.value, evs[|evs| - 1]))
  }

  /**
   Over every run each buffer is in exactly one place, the buffer `Next` hands out is all zero, and
   no release and no cleaner ever waits for room in its channel.
   */
  lemma {:induction false} NoTokenLost(size: nat, evs: seq<Event>, s: Pool)
    requires Run(Init(size), evs) == Some(s)
    ensures Accounted(s) && s.size == size
    ensures |s.pool| + |s.released| + |s.held| + |s.cleaning| == size
    ensures s.pool != [] ==> s.pool[0] !in s.dirty
    ensures forall b :: b in s.held ==> Enabled(s, Release(b))
    ensures forall b :: b in s.wiped ==> Enabled(s, Put(b))
  {
    if evs == [] {
      InitAccounted(size);
    } else {
      var before := Run(Init(size), evs[..|evs| - 1]).value;
      NoTokenLost(size, evs[..|evs| - 1], before);
      StepAccounted(before, evs[|evs| - 1]);
    }
    TokensConserved(s);
  }

  function Nexts(evs: seq<Event>): nat {
    if evs == [] then 0 else Nexts(evs[..|evs| - 1]) + if evs[|evs| - 1].Next? then 1 else 0
  }

  /** The buffers put into the pool, first by its creation and then by cleaners. */
  function Filled(size: nat, evs: seq<Event>): seq<nat> {
    if evs == [] then seq(size, i => i)
    else
      var last := evs[|evs| - 1];
      Filled(size, evs[..|evs| - 1]) + if last.Put? then [last.b] else []
  }

  function Releases(evs: seq<Event>): seq<nat> {
    if evs == [] then []
    else
      var last := evs[|evs| - 1];
      Releases(evs[..|evs| - 1]) + if last.Release? then [last.b] else []
  }

  function Takes(evs: seq<Event>): nat {
    if evs == [] then 0 else Takes(evs[..|evs| - 1]) + if evs[|evs| - 1].Take? then 1 else 0
  }

  lemma QueueStep(size: nat, init: seq<Event>, before: Pool, ev: Event)
    requires Enabled(before, ev)
    requires Nexts(init) <= |Filled(size, init)| && before.pool == Filled(size, init)[Nexts(init)..]
    requires Takes(init) <= |Releases(init)| && before.released == Releases(init)[Takes(init)..]
    ensures var evs, s := init + [ev], Step(before, ev);
            && Nexts(evs) <= |Filled(size, evs)| && s.pool == Filled(size, evs)[Nexts(evs)..]
            && Takes(evs) <= |Releases(evs)| && s.released == Releases(evs)[Takes(evs)..]
  {
    assert (init + [ev])[..|init|] == init;
  }

  /**
   Buffers are handed out in the order they came into the pool, and cleaned in the order of their
   release: over every run the `n`-th `Next` gives the `n`-th buffer that was put in.
   */
  lemma {:induction false} InOrder(size: nat, evs: seq<Event>, s: Pool)
    requires Run(Init(size), evs) == Some(s)
    ensures Nexts(evs) <= |Filled(size, evs)| && s.pool == Filled(size, evs)[Nexts(evs)..]
    ensures Takes(evs) <= |Releases(evs)| && s.released == Releases(evs)[Takes(evs)..]
    ensures s.pool != [] ==>
              Nexts(evs) < |Filled(size, evs)| && Step(s, Next).held == s.held + {Filled(size, evs)[Nexts(evs)]}
  {
    if evs == [] {
    } else {
      var init, last := evs[..|evs| - 1], evs[|evs| - 1];
      var before := Run(Init(size), init).value;
      InOrder(size, init, before);
      QueueStep(size, init, before, last);
      assert init + [last] == evs;
    }
  }

  /**
   Below ten buffers there is no cleaner: what is handed out never comes back, and after `size` calls
   `Next` waits for ever.
   */
  lemma {:induction false} SmallPoolRunsDry(size: nat, evs: seq<Event>, s: Pool)
    requires size < 10 && Run(Init(size), evs) == Some(s)
    ensures Nexts(evs) + |s.pool| == size
    ensures Enabled(s, Next) <==> Nexts(evs) < size
  {
    if evs == [] {
    } else {
      var before := Run(Init(size), evs[..|evs| - 1]).value;
      SmallPoolRunsDry(size, evs[..|evs| - 1], before);
      NeverCleaning(size, evs[..|evs| - 1], before);
    }
  }

  lemma {:induction false} NeverCleaning(size: nat, evs: seq<Event>, s: Pool)
    requires size < 10 && Run(Init(size), evs) == Some(s)
    ensures s.cleaning == {} && s.wiped == {} && s.size == size
  {
    if evs == [] {
    } else {
      NeverCleaning(size, evs[..|evs| - 1], Run(Init(size), evs[..|evs| - 1]).value);
    }
  }

  lemma Then(s: Pool, evs: seq<Event>, t: Pool, ev: Event) returns (evs': seq<Event>, u: Pool)
    requires Run(s, evs) == Some(t) && Accounted(t) && Enabled(t, ev)
    ensures Run(s, evs') == Some(u) && u == Step(t, ev) && Accounted(u) && u.size == t.size
  {
    assert (evs + [ev])[..|evs|] == evs;
    StepAccounted(t, ev);
    return evs + [ev], Step(t, ev);
  }

  /** A cleaner finishes the buffer it has. */
  lemma {:induction false} FinishOne(s: Pool, evs: seq<Event>, t: Pool, b: nat) returns (evs': seq<Event>, u: Pool)
    requires Run(s, evs) == Some(t) && Accounted(t) && b in t.cleaning
    ensures Run(s, evs') == Some(u) && Accounted(u) && u.size == t.size
    ensures u.held == t.held && u.released == t.released && u.cleaning == t.cleaning - {b} && u.pool == t.pool + [b]
  {
    evs', u := Then(s, evs, t, Wipe(b));
    TokensConserved(u);
    evs', u := Then(s, evs', u, Put(b));
  }

  /** Everything on its way back to the pool. */
  predicate ComingBack(s: Pool, b: nat) {
    b in s.released || b in s.cleaning
  }

  /**
   From ten buffers on there is a cleaner: every run can be continued, without its users, so that all
   buffers released are back in the pool.
   */
  lemma {:induction false} AllComeBack(s: Pool, evs: seq<Event>, t: Pool) returns (evs': seq<Event>, u: Pool)
    requires Run(s, evs) == Some(t) && Accounted(t) && t.size >= 10
    ensures Run(s, evs') == Some(u) && u.released == [] && u.cleaning == {} && u.held == t.held
    ensures forall b :: b in t.pool || ComingBack(t, b) ==> b in u.pool
    decreases |t.released|, |t.cleaning|
  {
    if t.cleaning != {} {
      var b :| b in t.cleaning;
      evs', u := FinishOne(s, evs, t, b);
      assert forall x :: x in t.pool || ComingBack(t, x) ==> x in u.pool || ComingBack(u, x);
      evs', u := AllComeBack(s, evs', u);
    } else if t.released != [] {
      evs', u := Then(s, evs, t, Take);
      assert forall x :: x in t.released ==> x == t.released[0] || x in u.released;
      evs', u := AllComeBack(s, evs', u);
    } else {
      evs', u := evs, t;
    }
  }

  /** A released buffer is taken up as long as one more in cleaning leaves them at one in ten. */
  lemma TakenUpIff(s: Pool)
    ensures Enabled(s, Take) <==> s.released != [] && 10 * (|s.cleaning| + 1) <= s.size
  {
  }

  /** At most one buffer in ten is being cleaned at any time. */
  lemma {:induction false} CleanersBound(size: nat, evs: seq<Event>, s: Pool)
    requires Run(Init(size), evs) == Some(s)
    ensures s.size == size && 10 * |s.cleaning| <= size
  {
    if evs == [] {
    } else {
      CleanersBound(size, evs[..|evs| - 1], Run(Init(size), evs[..|evs| - 1]).value);
    }
  }
}
