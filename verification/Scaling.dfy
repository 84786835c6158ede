/** The autoscaler's arithmetic: the load of the container list and the change of its size. */
module Scaling {
  import opened Words

  /** A container's counter and limit. */
  datatype Load = Load(fluxes: int8, maxFluxes: int8)

  function Abs(x: int): nat {
    if x < 0 then -x else x
  }

  /** Division truncating toward zero, with the one `int8` quotient that does not fit wrapped. */
  function Quotient(a: int8, b: int8): int8
    requires b != 0
  {
    var q := Abs(a) / Abs(b);
    Wrap8(if (a < 0) == (b < 0) then q else -q)
  }

  function Min(a: int8, b: int8): int8 {
    if a < b then a else b
  }

  /** What a container adds to the sum: the quotient capped at one, converted to `uint32`. */
  function Term(c: Load): (t: uint32)
    requires c.maxFluxes != 0
  {
    Min(1, Quotient(c.fluxes, c.maxFluxes)) % 0x1_0000_0000
  }

  predicate Full(c: Load) {
    c.fluxes >= c.maxFluxes
  }

  function Fulls(cs: seq<Load>): (n: nat)
    ensures n <= |cs|
  {
    if cs == [] then 0 else Fulls(cs[..|cs| - 1]) + if Full(cs[|cs| - 1]) then 1 else 0
  }

  /** A counter so far below zero that its quotient is negative. */
  predicate Wrapped(c: Load) {
    c.fluxes + c.maxFluxes <= 0
  }

  /** With a positive limit a term counts a full container, unless the counter has wrapped. */
  lemma TermIff(c: Load)
    requires c.maxFluxes > 0
    ensures Term(c) == (if Full(c) then 1 else 0) <==> !Wrapped(c)
    ensures Wrapped(c) ==> Term(c) >= 0x1_0000_0000 - 128
  {
    QuotientBounds(Abs(c.fluxes), c.maxFluxes);
  }

  lemma QuotientBounds(a: nat, m: nat)
    requires 0 < m && a <= 128
    ensures a < m ==> a / m == 0
    ensures a >= m ==> 1 <= a / m <= 128
  {
  }

  /** Limits are positive and no counter has wrapped. */
  predicate Healthy(cs: seq<Load>) {
    forall i :: 0 <= i < |cs| ==> cs[i].maxFluxes > 0 && !Wrapped(cs[i])
  }

  lemma OneMore(cs: seq<Load>, i: nat, sum: uint32)
    requires Healthy(cs) && i < |cs| && sum == Fulls(cs[..i]) % 0x1_0000_0000
    ensures (sum + Term(cs[i])) % 0x1_0000_0000 == Fulls(cs[..i + 1]) % 0x1_0000_0000
  {
    assert cs[..i + 1][..i] == cs[..i];
    TermIff(cs[i]);
    ModAdd(Fulls(cs[..i]), Term(cs[i]));
  }

  lemma ModAdd(a: nat, t: nat)
    ensures (a % 0x1_0000_0000 + t) % 0x1_0000_0000 == (a + t) % 0x1_0000_0000
  {
  }

  /** The list's length and the sum of its terms; `None` when a limit of zero is divided by. */
  method GetLoadPercentage(cs: seq<Load>) returns (r: Option<(nat, uint32)>)
    ensures r.None? <==> exists i :: 0 <= i < |cs| && cs[i].maxFluxes == 0
    ensures r.Some? ==> r.value.0 == |cs|
    ensures Healthy(cs) ==> r.Some? && r.value.1 == Fulls(cs) % 0x1_0000_0000
  {
    var sum: uint32 := 0;
    for i := 0 to |cs|
      invariant forall k :: 0 <= k < i ==> cs[k].maxFluxes != 0
      invariant Healthy(cs) ==> sum == Fulls(cs[..i]) % 0x1_0000_0000
    {
      if cs[i].maxFluxes == 0 {
        return None;
      }
      if Healthy(cs) {
        OneMore(cs, i, sum);
      }
      sum := (sum + Term(cs[i])) % 0x1_0000_0000;
    }
    assert cs[..|cs|] == cs;
    return Some((|cs|, sum));
  }

  /** The load of a non-empty list; `None` is the not-a-number of an empty one. */
  function LoadOf(length: nat, sum: uint32): Option<real> {
    if length == 0 then None else Some(sum as real / length as real)
  }

  /** Below 2^32 containers the sum has not wrapped. */
  lemma SumIsFulls(cs: seq<Load>, sum: uint32)
    requires |cs| < 0x1_0000_0000 && sum == Fulls(cs) % 0x1_0000_0000
    ensures sum == Fulls(cs)
  {
    SmallMod(Fulls(cs), 0x1_0000_0000);
  }

  /** The load is then the fraction of full containers. */
  lemma LoadIsFraction(cs: seq<Load>, length: nat, sum: uint32)
    requires 0 < length == |cs| && sum == Fulls(cs)
    ensures LoadOf(length, sum).Some? && 0.0 <= LoadOf(length, sum).value <= 1.0
    ensures LoadOf(length, sum).value * length as real == sum as real
  {
    ShareOf(length, sum);
  }

  lemma ShareOf(n: nat, full: uint32)
    requires 0 < n && full <= n
    ensures LoadOf(n, full).Some? && 0.0 <= LoadOf(n, full).value <= 1.0
    ensures LoadOf(n, full).value * n as real == full as real
  {
    DivBounds(full as real, n as real);
    DivMul(full as real, n as real);
  }

  lemma DivMul(a: real, b: real)
    requires b > 0.0
    ensures a / b * b == a
  {
  }

  lemma SmallMod(a: nat, m: nat)
    requires a < m
    ensures a % m == a
  {
  }

  lemma DivBounds(a: real, b: real)
    requires 0.0 <= a <= b && b > 0.0
    ensures 0.0 <= a / b <= 1.0
  {
  }

  function Ceil(x: real): int {
    -((-x).Floor)
  }

  /** The thresholds, increments and minimum of a provisioner. */
  datatype Config = Config(upThr: real, downThr: real, upInc: real, downDec: real, min: int)

  /** The constants `ActionHandler` sets. */
  const CONFIGURED := Config(0.6, 0.3, 0.5, 0.4, 1)

  /** Comparisons with not-a-number are false, so an empty list gets no change. */
  function ScalingDelta(size: nat, load: Option<real>, c: Config): int {
    if load.None? then 0
    else if load.value >= c.upThr then Ceil(size as real * c.upInc)
    else if load.value <= c.downThr then
      var delta := -Max((size as real * c.downDec).Floor, 1);
      if size + delta >= c.min then delta else 0
    else 0
  }

  /** Scaling never takes the list below its minimum, and changes its size only as the thresholds allow. */
  lemma NeverBelowMin(size: nat, load: Option<real>, c: Config)
    requires size >= c.min && c.upInc >= 0.0
    ensures size + ScalingDelta(size, load, c) >= c.min
    ensures ScalingDelta(size, load, c) > 0 ==> load.Some? && load.value >= c.upThr
    ensures ScalingDelta(size, load, c) < 0 ==> load.Some? && load.value <= c.downThr && load.value < c.upThr
  {
  }

  /** Growth is the configured share rounded up; a decrement is the share rounded down, but one at least. */
  lemma DeltaIsShare(size: nat, load: real, c: Config)
    ensures var delta := ScalingDelta(size, Some(load), c);
            && (load >= c.upThr ==> delta as real - 1.0 < size as real * c.upInc <= delta as real)
            && (delta < 0 && load < c.upThr ==>
                  if size as real * c.downDec < 1.0 then delta == -1
                  else (-delta) as real <= size as real * c.downDec < (1 - delta) as real)
  {
    FloorAtLeast(size as real * c.downDec, 1);
  }

  lemma MulPositive(a: real, b: real)
    requires a > 0.0 && b > 0.0
    ensures a * b > 0.0
  {
  }

  lemma MulOneMinus(a: real, b: real)
    ensures a * (1.0 - b) == a - a * b
  {
  }

  lemma FloorAtLeast(x: real, k: int)
    ensures x.Floor >= k <==> x >= k as real
  {
  }

  /**
   A list above the minimum gets no smaller at low load exactly while it is so short that what a
   decrement would leave of it falls short of the minimum: up to (min - 1) / (1 - downDec) containers.
   It then stays at that size, for the decrement is all or nothing.
   */
  lemma StuckAboveMinIff(size: nat, load: real, c: Config)
    requires size > c.min && load <= c.downThr && load < c.upThr
    ensures ScalingDelta(size, Some(load), c) == 0 <==>
            size as real * (1.0 - c.downDec) <= c.min as real - 1.0
  {
    MulOneMinus(size as real, c.downDec);
    FloorAtLeast(size as real * c.downDec, size - c.min + 1);
  }

  /** With a minimum of one no size above it is stuck. */
  lemma NeverStuckAboveOne(size: nat, load: real, c: Config)
    requires size > c.min == 1 && c.downDec < 1.0 && load <= c.downThr && load < c.upThr
    ensures ScalingDelta(size, Some(load), c) < 0
  {
    var rest := size as real * (1.0 - c.downDec);
    MulPositive(size as real, 1.0 - c.downDec);
    assert rest > 0.0 == c.min as real - 1.0;
    StuckAboveMinIff(size, load, c);
  }

  /** With the configured constants a list at low load loses four tenths, rounded down, but at least one. */
  lemma ConfiguredStep(size: nat, load: real)
    requires size >= 1 && load <= CONFIGURED.downThr
    ensures ScalingDelta(size, Some(load), CONFIGURED) ==
            if size == 1 then 0 else if size < 5 then -1 else -((4 * size) / 10)
    ensures var next := size + ScalingDelta(size, Some(load), CONFIGURED);
            1 <= next && (size > 1 ==> next < size)
  {
    var q := (4 * size) / 10;
    assert (size as real * 0.4).Floor == q by {
      assert 10 * q <= 4 * size < 10 * q + 10;
      assert q as real <= size as real * 0.4 < q as real + 1.0;
    }
  }

  /** At high load the list grows by half its size, rounded up, so by at least one unless it is empty. */
  lemma ConfiguredGrowth(size: nat, load: real)
    requires load >= CONFIGURED.upThr
    ensures ScalingDelta(size, Some(load), CONFIGURED) == (size + 1) / 2
  {
    var x, h := size as real * 0.5, (size + 1) / 2;
    assert -(h as real) <= -x < 1.0 - h as real;
  }

  /** The change of a list of `n` containers, `full` of them at their limit, with the configured constants. */
  function ConfiguredChange(n: nat, full: nat): int {
    if 10 * full >= 6 * n then (n + 1) / 2
    else if 10 * full <= 3 * n then if n == 1 then 0 else if n < 5 then -1 else -((4 * n) / 10)
    else 0
  }

  lemma ScaleUp(a: real, b: real, n: real)
    requires n > 0.0
    ensures a <= b <==> a * n <= b * n
  {
    if a <= b {
      MulMono(b - a, n);
    } else {
      MulPositive(a - b, n);
    }
  }

  lemma MulMono(a: real, b: real)
    requires a >= 0.0 && b >= 0.0
    ensures a * b >= 0.0
  {
  }

  lemma AtLeast(load: real, x: real, y: real)
    requires x > 0.0 && load * x == y
    ensures load >= 0.6 <==> 10.0 * y >= 6.0 * x
    ensures load <= 0.3 <==> 10.0 * y <= 3.0 * x
  {
    var p, q := 0.6, 0.3;
    ScaleUp(p, load, x);
    ScaleUp(load, q, x);
    assert p * x == 0.6 * x && q * x == 0.3 * x;
  }

  /** The thresholds on the load are thresholds on the share of full containers. */
  lemma LoadThresholds(n: nat, full: nat, load: real)
    requires n > 0 && load * n as real == full as real
    ensures load >= 0.6 <==> 10 * full >= 6 * n
    ensures load <= 0.3 <==> 10 * full <= 3 * n
  {
    AtLeast(load, n as real, full as real);
  }

  lemma DeltaOfShare(n: nat, full: nat, load: real)
    requires n > 0 && load * n as real == full as real
    ensures ScalingDelta(n, Some(load), CONFIGURED) == ConfiguredChange(n, full)
  {
    LoadThresholds(n, full, load);
    if load >= 0.6 {
      ConfiguredGrowth(n, load);
    } else if load <= 0.3 {
      ConfiguredStep(n, load);
    }
  }

  /** From counters to size change: what one check decides for a healthy list. */
  lemma ConfiguredDelta(cs: seq<Load>, length: nat, sum: uint32)
    requires 0 < length == |cs| && sum == Fulls(cs)
    ensures ScalingDelta(length, LoadOf(length, sum), CONFIGURED) == ConfiguredChange(length, sum)
  {
    LoadIsFraction(cs, length, sum);
    DeltaOfShare(length, sum, LoadOf(length, sum).value);
  }

  /** `calculateScalingDelta`; `None` is the division by a zero limit. */
  method CalculateScalingDelta(cs: seq<Load>, c: Config) returns (delta: Option<int>)
    ensures delta.None? <==> exists i :: 0 <= i < |cs| && cs[i].maxFluxes == 0
    ensures Healthy(cs) && 0 < |cs| < 0x1_0000_0000 && c == CONFIGURED ==>
              delta == Some(ConfiguredChange(|cs|, Fulls(cs)))
    ensures Healthy(cs) && |cs| < 0x1_0000_0000 ==> delta == Some(ScalingDelta(|cs|, LoadOf(|cs|, Fulls(cs)), c))
    ensures cs == [] ==> delta == Some(0)
  {
    var r := GetLoadPercentage(cs);
    if r.None? {
      return None;
    }
    var (length, sum) := r.value;
    if Healthy(cs) && |cs| < 0x1_0000_0000 {
      SumIsFulls(cs, sum);
      if 0 < |cs| {
        ConfiguredDelta(cs, length, sum);
      }
    }
    return Some(ScalingDelta(length, LoadOf(length, sum), c));
  }

  /** Sizes under successive checks whose loads are given. */
  function Sizes(size: nat, loads: seq<real>): int
  {
    if loads == [] then size
    else
      var before := Sizes(size, loads[..|loads| - 1]);
      if before < 0 then before
      else before + ScalingDelta(before, Some(loads[|loads| - 1]), CONFIGURED)
  }

  /** While the load stays low the size falls at every check until it is exactly one, and then stays. */
  lemma {:induction false} ConvergesToOne(size: nat, loads: seq<real>)
    requires size >= 1 && forall l :: l in loads ==> l <= CONFIGURED.downThr
    ensures Sizes(size, loads) >= 1
    ensures Sizes(size, loads) > 1 ==> Sizes(size, loads) <= size - |loads|
    ensures |loads| >= size - 1 ==> Sizes(size, loads) == 1
  {
    if loads == [] {
    } else {
      var init, last := loads[..|loads| - 1], loads[|loads| - 1];
      assert forall l :: l in init ==> l in loads;
      ConvergesToOne(size, init);
      assert last in loads;
      ConfiguredStep(Sizes(size, init), last);
    }
  }
}
