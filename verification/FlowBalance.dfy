/** Round robin gives members equal shares of the flows assigned. */
module FlowBalance {
  import opened Words
  import opened RingSeq
  import opened FlowSpec
  import opened FlowRun
  import FlowCounts

  /** How many of `k` consecutive assignments fall on the member `j` places after the first one chosen. */
  function Share(k: nat, n: nat, j: nat): nat
    requires n > 0
  {
    k / n + if j < k % n then 1 else 0
  }

  lemma DivModSucc(k: nat, n: nat)
    requires n > 0
    ensures k % n + 1 < n ==> (k + 1) / n == k / n && (k + 1) % n == k % n + 1
    ensures k % n + 1 == n ==> (k + 1) / n == k / n + 1 && (k + 1) % n == 0
  {
    var q, r := k / n, k % n;
    assert k + 1 == n * q + (r + 1);
    if r + 1 < n {
      DivModUnique(k + 1, n, q, r + 1);
    } else {
      DivModUnique(k + 1, n, q + 1, 0);
    }
  }

  lemma MulBounds(n: nat, d: int)
    ensures d >= 1 ==> n * d >= n
    ensures d <= -1 ==> n * d <= 0 - n
  {
  }

  lemma DivModUnique(k: nat, n: nat, q: nat, r: nat)
    requires n > 0 && r < n && k == n * q + r
    ensures k / n == q && k % n == r
  {
    assert n * (q - k / n) == k % n - r;
    MulBounds(n, q - k / n);
  }

  lemma ShareSucc(k: nat, n: nat, j: nat)
    requires n > 0 && j < n
    ensures Share(k + 1, n, j) == Share(k, n, j) + if j == k % n then 1 else 0
  {
    DivModSucc(k, n);
  }

  /** How many of the requests were not answered from the table. */
  function Misses(s: State, evs: seq<Event>): (k: nat)
    requires Sound(s)
  {
    if evs == [] then 0
    else
      var init, last := evs[..|evs| - 1], evs[|evs| - 1];
      Misses(s, init) + if last.Get? && Run(s, init).Some? && !Hit(Run(s, init).value, last.crc) then 1 else 0
  }

  function Seat(ring: seq<nat>, start: nat, j: nat): (e: nat)
    requires start < |ring| && j < |ring|
    ensures e in ring
  {
    ring[Turn(start, j, |ring|)]
  }

  /** The cursor and every counter after `k` assignments that began with all counters at zero. */
  predicate Dealt(ring: seq<nat>, start: nat, k: nat, t: State)
    requires start < |ring|
  {
    var n := |ring|;
    && InRange(t)
    && t.ring == ring
    && t.cursor == Some(Seat(ring, start, k % n))
    && forall j :: 0 <= j < n ==> t.elems[Seat(ring, start, j)].fluxes == Wrap8(Share(k, n, j))
  }

  lemma SeatsDistinct(ring: seq<nat>, start: nat, i: nat, j: nat)
    requires NoDup(ring) && start < |ring| && i < |ring| && j < |ring| && i != j
    ensures Seat(ring, start, i) != Seat(ring, start, j)
  {
  }

  lemma CursorMoves(ring: seq<nat>, start: nat, k: nat)
    requires NoDup(ring) && start < |ring|
    ensures Succ(ring, Seat(ring, start, k % |ring|)) == Some(Seat(ring, start, (k + 1) % |ring|))
  {
    AfterTurn(ring, start, k % |ring|);
    DivModSucc(k, |ring|);
  }

  lemma MissDeals(ring: seq<nat>, start: nat, k: nat, t: State, crc: uint16, now: int)
    requires start < |ring| && Sound(t) && Dealt(ring, start, k, t) && !Hit(t, crc)
    ensures GetStep(t, crc, now).Got? && Dealt(ring, start, k + 1, GetStep(t, crc, now).s)
  {
    var n := |ring|;
    CursorMoves(ring, start, k);
    GetSound(t, crc, now);
    var u := GetStep(t, crc, now).s;
    var c := Seat(ring, start, k % n);
    assert forall e :: 0 <= e < |t.elems| && e != c ==> u.elems[e] == t.elems[e];
    forall j | 0 <= j < n
      ensures u.elems[Seat(ring, start, j)].fluxes == Wrap8(Share(k + 1, n, j))
    {
      ShareSucc(k, n, j);
      if j != k % n {
        SeatsDistinct(ring, start, j, k % n);
      } else {
        WrapInc(Share(k, n, j));
      }
    }
  }

  lemma WrapInc(x: int)
    ensures IncFluxes(Wrap8(x)) == Wrap8(x + 1)
  {
  }

  lemma GetDeals(ring: seq<nat>, start: nat, k: nat, t: State, crc: uint16, now: int)
    requires start < |ring| && Sound(t) && Dealt(ring, start, k, t)
    ensures GetStep(t, crc, now).Got?
    ensures Dealt(ring, start, k + if Hit(t, crc) then 0 else 1, GetStep(t, crc, now).s)
  {
    if !Hit(t, crc) {
      MissDeals(ring, start, k, t, crc, now);
    }
  }

  lemma NothingDealt(s: State)
    requires Sound(s) && s.ring != []
    requires forall e :: e in s.ring ==> s.elems[e].fluxes == 0
    ensures Dealt(s.ring, Index(s.ring, s.cursor.value), 0, s)
  {
  }

  /** Any sequence of `Get`s deals its misses in turn, whatever the flows, the hits and the times. */
  lemma {:induction false} RoundRobin(s: State, evs: seq<Event>)
    requires Sound(s) && s.ring != []
    requires forall e :: e in s.ring ==> s.elems[e].fluxes == 0
    requires forall ev :: ev in evs ==> ev.Get?
    ensures Run(s, evs).Some?
    ensures Dealt(s.ring, Index(s.ring, s.cursor.value), Misses(s, evs), Run(s, evs).value)
  {
    if evs == [] {
      NothingDealt(s);
    } else {
      var init, last := evs[..|evs| - 1], evs[|evs| - 1];
      RoundRobin(s, init);
      assert last in evs;
      var t := Run(s, init).value;
      GetDeals(s.ring, Index(s.ring, s.cursor.value), Misses(s, init), t, last.crc, last.now);
      assert Run(s, evs) == Some(GetStep(t, last.crc, last.now).s);
      assert Misses(s, evs) == Misses(s, init) + if Hit(t, last.crc) then 0 else 1;
    }
  }

  /** No two members' counters are more than one apart. */
  predicate Even(t: State)
    requires InRange(t)
  {
    forall a, b :: a in t.ring && b in t.ring ==> t.elems[a].fluxes - t.elems[b].fluxes <= 1
  }

  lemma DealtCounters(ring: seq<nat>, start: nat, k: nat, t: State, e: nat)
    requires start < |ring| && Dealt(ring, start, k, t) && e in ring
    ensures exists j :: 0 <= j < |ring| && t.elems[e].fluxes == Wrap8(Share(k, |ring|, j))
  {
    var n, i := |ring|, Index(ring, e);
    var j := if i >= start then i - start else i - start + n;
    assert Seat(ring, start, j) == e;
  }

  lemma WrapAt(a: int, b: int)
    requires -128 <= b < 128
    ensures Wrap8(256 * a + b) == b
  {
    assert (256 * a + (b + 128)) % 256 == b + 128;
  }

  lemma WrapSucc(q: nat)
    ensures Wrap8(q + 1) == if q % 256 == 127 then -128 else Wrap8(q) + 1
    ensures q % 256 == 127 ==> Wrap8(q) == 127
  {
    var a, b := q / 256, q % 256;
    if b < 127 {
      WrapAt(a, b);
      WrapAt(a, b + 1);
    } else if b == 127 {
      WrapAt(a, b);
      WrapAt(a + 1, -128);
    } else {
      WrapAt(a + 1, b - 256);
      WrapAt(a + 1, b - 255);
    }
  }

  lemma DealtEven(ring: seq<nat>, start: nat, k: nat, t: State)
    requires start < |ring| && Dealt(ring, start, k, t)
    requires k % |ring| == 0 || (k / |ring|) % 256 != 127
    ensures Even(t)
  {
    WrapSucc(k / |ring|);
    forall a, b | a in t.ring && b in t.ring
      ensures t.elems[a].fluxes - t.elems[b].fluxes <= 1
    {
      DealtCounters(ring, start, k, t, a);
      DealtCounters(ring, start, k, t, b);
    }
  }

  lemma DealtUneven(ring: seq<nat>, start: nat, k: nat, t: State)
    requires start < |ring| && Dealt(ring, start, k, t)
    requires k % |ring| != 0 && (k / |ring|) % 256 == 127
    ensures !Even(t)
  {
    var n := |ring|;
    WrapSucc(k / n);
    var a, b := Seat(ring, start, n - 1), Seat(ring, start, 0);
    assert t.elems[a].fluxes == Wrap8(Share(k, n, n - 1));
    assert t.elems[b].fluxes == Wrap8(Share(k, n, 0));
    assert a in t.ring && b in t.ring;
  }

  /**
   Over every run of requests the counters stay within one of each other, except exactly while some
   counter has wrapped past 127 and another has not.
   */
  lemma {:induction false} BalancedIff(s: State, evs: seq<Event>, t: State)
    requires Sound(s) && s.ring != []
    requires forall e :: e in s.ring ==> s.elems[e].fluxes == 0
    requires forall ev :: ev in evs ==> ev.Get?
    requires Run(s, evs) == Some(t)
    ensures Even(t) <==> Misses(s, evs) % |s.ring| == 0 || (Misses(s, evs) / |s.ring|) % 256 != 127
    ensures Misses(s, evs) <= 127 * |s.ring| ==> Even(t)
  {
    RoundRobin(s, evs);
    var k, start := Misses(s, evs), Index(s.ring, s.cursor.value);
    if k % |s.ring| == 0 || (k / |s.ring|) % 256 != 127 {
      DealtEven(s.ring, start, k, t);
    } else {
      DealtUneven(s.ring, start, k, t);
    }
    if k <= 127 * |s.ring| {
      FewMisses(k, |s.ring|);
    }
  }

  lemma FewMisses(k: nat, n: nat)
    requires n > 0 && k <= 127 * n
    ensures k % n == 0 || (k / n) % 256 != 127
  {
  }

  /** Requests of the first `k` flows, one each. */
  function FreshGets(k: nat): seq<Event>
    requires k <= 65536
  {
    seq(k, i requires 0 <= i < k => Get(i, 0))
  }

  /** Members with zero counters before any flow has come. */
  predicate Idle(s: State) {
    && Sound(s)
    && s.ring != []
    && (forall e :: e in s.ring ==> s.elems[e].fluxes == 0)
    && s.crc2conn == map[]
  }

  predicate SeenBelow(t: State, k: nat) {
    forall crc :: crc in t.crc2conn ==> crc < k
  }

  /** A flow never seen before is never a hit. */
  lemma FreshMiss(t: State, crc: uint16)
    requires Sound(t) && SeenBelow(t, crc)
    ensures !Hit(t, crc)
    ensures GetStep(t, crc, 0).Got? ==> SeenBelow(GetStep(t, crc, 0).s, crc + 1)
  {
  }

  lemma {:induction false} RunGet(s: State, evs: seq<Event>, t: State, crc: uint16)
    requires Sound(s) && Run(s, evs) == Some(t)
    ensures Misses(s, evs + [Get(crc, 0)]) == Misses(s, evs) + if Hit(t, crc) then 0 else 1
    ensures GetStep(t, crc, 0).Got? ==> Run(s, evs + [Get(crc, 0)]) == Some(GetStep(t, crc, 0).s)
    ensures GetStep(t, crc, 0).GetPanic? ==> Run(s, evs + [Get(crc, 0)]).None?
  {
    assert (evs + [Get(crc, 0)])[..|evs|] == evs;
  }

  lemma FreshSnoc(k: nat)
    requires 0 < k <= 65536
    ensures FreshGets(k) == FreshGets(k - 1) + [Get(k - 1, 0)]
  {
  }

  lemma {:induction false} FreshRuns(s: State, k: nat)
    requires Idle(s) && k <= 65536
    ensures Run(s, FreshGets(k)).Some?
  {
    RoundRobin(s, FreshGets(k));
  }

  lemma {:induction false} FreshMisses(s: State, k: nat)
    requires Idle(s) && k <= 65536
    ensures Run(s, FreshGets(k)).Some? && Misses(s, FreshGets(k)) == k && SeenBelow(Run(s, FreshGets(k)).value, k)
  {
    FreshRuns(s, k);
    if k == 0 {
      assert FreshGets(k) == [];
    } else {
      FreshMisses(s, k - 1);
      FreshSnoc(k);
      var evs := FreshGets(k - 1);
      RunGet(s, evs, Run(s, evs).value, k - 1);
      FreshMiss(Run(s, evs).value, k - 1);
    }
  }

  lemma ShareOver(k: nat, n: nat)
    requires n >= 2 && k == 127 * n + 1
    ensures k % n == 1 && k / n == 127
  {
    DivModUnique(k, n, 127, 1);
  }

  /** The first flow past 127 for each of several members wraps one counter and leaves the others at 127. */
  lemma {:induction false} UnevenReached(s: State, k: nat, t: State)
    requires Idle(s) && 2 <= |s.ring| && k == 127 * |s.ring| + 1 <= 65536
    requires Run(s, FreshGets(k)) == Some(t)
    ensures InRange(t) && !Even(t)
  {
    var start := Index(s.ring, s.cursor.value);
    ShareOver(k, |s.ring|);
    FreshMisses(s, k);
    RoundRobin(s, FreshGets(k));
    DealtUneven(s.ring, start, k, t);
  }

  /** The 128th flow of a sole member wraps its counter, which then counts nothing. */
  lemma {:induction false} CountLost(s: State, t: State)
    requires Idle(s) && |s.ring| == 1 && Run(s, FreshGets(128)) == Some(t)
    ensures InRange(t) && !FlowCounts.Counted(t)
    ensures !FlowCounts.CountedThroughout(s, FreshGets(128))
  {
    FreshMisses(s, 128);
    RoundRobin(s, FreshGets(128));
    var start := Index(s.ring, s.cursor.value);
    WrapAt(1, -128);
    DivModUnique(128, 1, 128, 0);
    assert t.elems[Seat(s.ring, start, 0)].fluxes == -128;
  }

  /** Such members: two registrations with a new dispatcher. */
  lemma {:induction false} TwoIdle(conn: Conn, maxFluxes: int8, fluxMaxAge: int)
    ensures Idle(AddStep(Init(fluxMaxAge), conn, maxFluxes))
    ensures Idle(AddStep(AddStep(Init(fluxMaxAge), conn, maxFluxes), conn, maxFluxes))
    ensures |AddStep(AddStep(Init(fluxMaxAge), conn, maxFluxes), conn, maxFluxes).ring| == 2
  {
    InitSound(fluxMaxAge);
    AddSound(Init(fluxMaxAge), conn, maxFluxes);
    AddSound(AddStep(Init(fluxMaxAge), conn, maxFluxes), conn, maxFluxes);
  }
}
