/** The autoscaler's container list, kept in one backing array that removal shifts in place. */
module ContainerLists {
  import opened Words
  import opened RingSeq

  /** What one pass of removal leaves: after a match the next element moves up unexamined. */
  function Skim(s: seq<nat>, x: nat): seq<nat> {
    if s == [] then []
    else if s[0] != x then [s[0]] + Skim(s[1..], x)
    else if |s| == 1 then []
    else [s[1]] + Skim(s[2..], x)
  }

  /** The last element is `x` and an earlier one is too. */
  predicate Overruns(s: seq<nat>, x: nat) {
    s != [] && s[|s| - 1] == x && x in s[..|s| - 1]
  }

  lemma {:induction false} SkimPrefix(s: seq<nat>, x: nat, i: nat)
    requires i <= |s| && x !in s[..i]
    ensures Skim(s, x) == s[..i] + Skim(s[i..], x)
  {
    if i == 0 {
      assert s[0..] == s;
    } else {
      assert s[..i][0] != x && s[1..][..i - 1] == s[..i][1..] && s[1..][i - 1..] == s[i..];
      SkimPrefix(s[1..], x, i - 1);
    }
  }

  /** The array after position `i` of the first `len` was removed; the old last element stays behind. */
  function Shifted(b: seq<nat>, len: nat, i: nat): (r: seq<nat>)
    requires i < len <= |b|
    ensures |r| == |b|
    ensures forall k :: 0 <= k < |b| ==> r[k] == if i <= k < len - 1 then b[k + 1] else b[k]
  {
    b[..i] + b[i + 1..len] + b[len - 1..]
  }

  /** No match yet among the first `idx`. */
  predicate Untouched(s: seq<nat>, x: nat, b: seq<nat>, len: nat, idx: nat) {
    len == |s| && b == s && idx <= |s| && x !in s[..idx]
  }

  /** The only match was the last element. */
  predicate Truncated(s: seq<nat>, x: nat, b: seq<nat>, len: nat, idx: nat) {
    s != [] && b == s && len == |s| - 1 && idx == |s| && x !in s[..len] && s[len] == x
  }

  /**
   Some match was shifted out: the part not ranged over yet is a suffix of the original, and behind
   the list only copies of the last element are left.
   */
  predicate Closing(s: seq<nat>, x: nat, b: seq<nat>, len: nat, idx: nat) {
    && |b| == |s| && len < |s| && idx <= |s|
    && x in s[..|s| - 1]
    && (forall k :: len <= k < |s| ==> b[k] == s[|s| - 1])
    && (forall k :: idx <= k < len ==> b[k] == s[k + (|s| - len)])
    && (s[|s| - 1] == x ==> idx < |s|)
    && (s[|s| - 1] != x ==> Settled(s, x, b, len, idx))
  }

  /** The part of the list already ranged over is final. */
  predicate Settled(s: seq<nat>, x: nat, b: seq<nat>, len: nat, idx: nat)
    requires |b| == |s| && len < |s| && idx <= |s|
  {
    if idx <= len then b[..idx] + Skim(s[idx + (|s| - len)..], x) == Skim(s, x)
    else b[..len] == Skim(s, x)
  }

  lemma FirstMatch(s: seq<nat>, x: nat, idx: nat)
    requires idx < |s| - 1 && x !in s[..idx] && s[idx] == x
    ensures Closing(s, x, Shifted(s, |s|, idx), |s| - 1, idx + 1)
  {
    var b := Shifted(s, |s|, idx);
    assert s[idx] in s[..|s| - 1] by { assert s[..|s| - 1][idx] == x; }
    if s[|s| - 1] != x {
      SkimPrefix(s, x, idx);
      assert s[idx..][0] == x && s[idx..][1] == s[idx + 1] && s[idx..][2..] == s[idx + 2..];
      assert b[..idx + 1] == s[..idx] + [s[idx + 1]];
    }
  }

  /** The element after a match moves up and is final. */
  lemma NextSettled(s: seq<nat>, x: nat, b: seq<nat>, len: nat, idx: nat)
    requires |b| == |s| && idx < len - 1 && len < |s| && Settled(s, x, b, len, idx)
    requires b[idx] == x == s[idx + (|s| - len)] && b[idx + 1] == s[idx + 1 + (|s| - len)]
    ensures Settled(s, x, Shifted(b, len, idx), len - 1, idx + 1)
  {
    var rest := s[idx + (|s| - len)..];
    assert rest[0] == x && rest[1] == b[idx + 1] && rest[2..] == s[idx + (|s| - len) + 2..];
    assert Skim(rest, x) == [b[idx + 1]] + Skim(rest[2..], x);
    assert Shifted(b, len, idx)[..idx + 1] == b[..idx] + [b[idx + 1]];
  }

  lemma NextMatch(s: seq<nat>, x: nat, b: seq<nat>, len: nat, idx: nat)
    requires Closing(s, x, b, len, idx) && idx < len - 1 && b[idx] == x
    ensures Closing(s, x, Shifted(b, len, idx), len - 1, idx + 1)
  {
    var m, c := |s| - len, Shifted(b, len, idx);
    assert b[len - 1] == s[len - 1 + m];
    assert forall k :: len - 1 <= k < |s| ==> c[k] == s[|s| - 1];
    assert forall k :: idx + 1 <= k < len - 1 ==> c[k] == b[k + 1] == s[k + 1 + m];
    if s[|s| - 1] != x {
      NextSettled(s, x, b, len, idx);
    }
  }

  /** A match at the end of the shortened list is the original's last element. */
  lemma LastMatch(s: seq<nat>, x: nat, b: seq<nat>, len: nat, idx: nat)
    requires Closing(s, x, b, len, idx) && idx == len - 1 && b[idx] == x
    ensures Closing(s, x, b, idx, idx + 1)
  {
  }

  lemma NoMatch(s: seq<nat>, x: nat, b: seq<nat>, len: nat, idx: nat)
    requires Closing(s, x, b, len, idx) && idx < |s| && b[idx] != x
    ensures Closing(s, x, b, len, idx + 1)
  {
  }

  /** Where the range loop may stand. */
  predicate Ranging(s: seq<nat>, x: nat, b: seq<nat>, len: nat, idx: nat) {
    Untouched(s, x, b, len, idx) || Truncated(s, x, b, len, idx) || Closing(s, x, b, len, idx)
  }

  lemma Finished(s: seq<nat>, x: nat, b: seq<nat>, len: nat)
    requires Ranging(s, x, b, len, |s|)
    ensures !Overruns(s, x) && b[..len] == Skim(s, x)
  {
    if Untouched(s, x, b, len, |s|) {
      SkimPrefix(s, x, |s|);
      assert s[..|s|] == s && s[|s|..] == [];
      assert forall k :: 0 <= k < |s| ==> s[k] in s[..|s|];
    } else if Truncated(s, x, b, len, |s|) {
      SkimPrefix(s, x, len);
      assert s[len..] == [x];
    }
  }

  /** The slots and the length after one turn of the range loop; `None` is the panic. */
  function RangeTurn(b: seq<nat>, len: nat, idx: nat, x: nat): Option<(seq<nat>, nat)>
    requires len <= |b| && idx < |b|
  {
    if b[idx] != x then Some((b, len))
    else if idx == len - 1 then Some((b, idx))
    else if idx + 1 > len then None
    else Some((Shifted(b, len, idx), len - 1))
  }

  lemma UntouchedTurn(s: seq<nat>, x: nat, b: seq<nat>, len: nat, idx: nat)
    requires Untouched(s, x, b, len, idx) && idx < |s|
    ensures RangeTurn(b, len, idx, x).Some?
    ensures var r := RangeTurn(b, len, idx, x).value; Ranging(s, x, r.0, r.1, idx + 1)
  {
    if s[idx] != x {
      assert s[..idx + 1] == s[..idx] + [s[idx]];
    } else if idx < len - 1 {
      FirstMatch(s, x, idx);
    }
  }

  lemma ClosingTurn(s: seq<nat>, x: nat, b: seq<nat>, len: nat, idx: nat)
    requires Closing(s, x, b, len, idx) && idx < |s|
    ensures var r := RangeTurn(b, len, idx, x);
            if r.None? then Overruns(s, x) else Closing(s, x, r.value.0, r.value.1, idx + 1)
  {
    if b[idx] != x {
      NoMatch(s, x, b, len, idx);
    } else if idx == len - 1 {
      LastMatch(s, x, b, len, idx);
    } else if idx < len - 1 {
      NextMatch(s, x, b, len, idx);
    }
  }

  /** The slots and the length after `k` turns of the range loop. */
  function Sweep(s: seq<nat>, x: nat, k: nat): (r: Option<(seq<nat>, nat)>)
    requires k <= |s|
    ensures r.Some? ==> |r.value.0| == |s| && r.value.1 <= |s|
  {
    if k == 0 then Some((s, |s|))
    else
      var before := Sweep(s, x, k - 1);
      if before.None? then None else RangeTurn(before.value.0, before.value.1, k - 1, x)
  }

  lemma {:induction false} SweepRanges(s: seq<nat>, x: nat, k: nat)
    requires k <= |s|
    ensures var r := Sweep(s, x, k); if r.None? then Overruns(s, x) else Ranging(s, x, r.value.0, r.value.1, k)
  {
    if k == 0 {
    } else {
      SweepRanges(s, x, k - 1);
      var before := Sweep(s, x, k - 1);
      if before.Some? {
        var (b, len) := before.value;
        if Untouched(s, x, b, len, k - 1) {
          UntouchedTurn(s, x, b, len, k - 1);
        } else {
          ClosingTurn(s, x, b, len, k - 1);
        }
      }
    }
  }

  lemma {:induction false} SweepStops(s: seq<nat>, x: nat, k: nat, n: nat)
    requires k <= n <= |s| && Sweep(s, x, k).None?
    ensures Sweep(s, x, n).None?
  {
    if k < n {
      SweepStops(s, x, k, n - 1);
    }
  }

  /** The whole loop panics exactly on an overrun, and otherwise leaves the skimmed list. */
  lemma {:induction false} SweepIs(s: seq<nat>, x: nat)
    ensures Sweep(s, x, |s|).None? <==> Overruns(s, x)
    ensures Sweep(s, x, |s|).Some? ==> var (b, len) := Sweep(s, x, |s|).value; b[..len] == Skim(s, x)
  {
    SweepRanges(s, x, |s|);
    if Sweep(s, x, |s|).Some? {
      var (b, len) := Sweep(s, x, |s|).value;
      Finished(s, x, b, len);
    }
  }

  class ContainerList {
    /** `len` elements of the backing array are in the list; a container is named by its identity. */
    var backing: array<nat>
    var len: nat

    ghost predicate Valid()
      reads this, backing
    {
      len <= backing.Length
    }

    ghost function List(): seq<nat>
      requires Valid()
      reads this, backing
    {
      backing[..len]
    }

    constructor ()
      ensures Valid() && List() == []
    {
      backing, len := new nat[0], 0;
    }

    /** Appends, moving to a larger backing array when the present one is full. */
    method AddContainer(cnt: nat)
      requires Valid()
      modifies this, backing
      ensures Valid() && List() == old(List()) + [cnt]
      ensures backing == old(backing) || fresh(backing)
    {
      if len == backing.Length {
        var larger := new nat[2 * len + 1];
        forall i | 0 <= i < len {
          larger[i] := backing[i];
        }
        backing := larger;
      }
      backing[len] := cnt;
      len := len + 1;
    }

    /** Removes position `idx` by moving the elements after it down by one. */
    method ShiftDown(idx: nat, ghost n: nat)
      requires idx < len <= n <= backing.Length
      modifies `len, backing
      ensures len == old(len) - 1
      ensures backing[..n] == Shifted(old(backing[..n]), old(len), idx)
    {
      for k := idx to len - 1
        invariant len == old(len)
        invariant forall j :: 0 <= j < backing.Length ==>
                    backing[j] == if idx <= j < k then old(backing[j + 1]) else old(backing[j])
      {
        backing[k] := backing[k + 1];
      }
      len := len - 1;
    }

    /** One turn of the range loop over the first `n` slots; false is a slice starting past the list's end. */
    method Visit(idx: nat, n: nat, cnt: nat) returns (ok: bool)
      requires idx < n <= backing.Length && len <= n
      modifies `len, backing
      ensures len <= n
      ensures var r := old(RangeTurn(backing[..n], len, idx, cnt));
              if ok then r == Some((backing[..n], len)) else r == None
    {
      ok := true;
      if backing[idx] == cnt {
        if idx != len - 1 {
          if idx + 1 > len {
            return false;
          }
          ShiftDown(idx, n);
        } else {
          len := idx;
        }
      }
    }

    /**
     Removal while ranging over the array being shifted: the range keeps the length it began with.
     False is the panic of a slice starting past the end of the shortened list.
     */
    method RemoveContainer(cnt: nat) returns (ok: bool)
      requires Valid()
      modifies `len, backing
      ensures Valid()
      ensures ok <==> !Overruns(old(List()), cnt)
      ensures ok ==> List() == Skim(old(List()), cnt)
    {
      ghost var s := List();
      var n := len;
      var idx := 0;
      ok := true;
      while idx < n
        invariant idx <= n == |s| <= backing.Length && len <= n
        invariant Sweep(s, cnt, idx) == Some((backing[..n], len))
      {
        ok := Visit(idx, n, cnt);
        if !ok {
          SweepStops(s, cnt, idx + 1, n);
          SweepIs(s, cnt);
          return;
        }
        idx := idx + 1;
      }
      SweepIs(s, cnt);
      assert backing[..n][..len] == backing[..len];
    }
  }

  lemma SkimAbsent(s: seq<nat>, x: nat)
    requires x !in s
    ensures Skim(s, x) == s
  {
  }

  lemma SkimOnly(s: seq<nat>, x: nat, i: nat)
    requires i < |s| && s[i] == x && x !in s[..i] && x !in s[i + 1..]
    ensures Skim(s, x) == s[..i] + s[i + 1..]
  {
    SkimPrefix(s, x, i);
    if i + 1 < |s| {
      var rest := s[i + 1..];
      assert s[i..][0] == x && s[i..][1] == rest[0] && s[i..][2..] == rest[1..];
      SkimAbsent(rest[1..], x);
      assert [rest[0]] + rest[1..] == rest;
    }
  }

  /** On a list without duplicates removal does not panic and takes out exactly the one match. */
  lemma SkimIsWithout(s: seq<nat>, x: nat)
    requires NoDup(s)
    ensures !Overruns(s, x)
    ensures Skim(s, x) == Without(s, x)
  {
    if x in s {
      SkimOnly(s, x, Index(s, x));
    } else {
      SkimAbsent(s, x);
    }
  }

  predicate PairAt(s: seq<nat>, x: nat, i: nat) {
    i + 1 < |s| && s[i] == x && s[i + 1] == x
  }

  ghost predicate Adjacent(s: seq<nat>, x: nat) {
    exists i: nat :: PairAt(s, x, i)
  }

  /** A pass leaves a match behind exactly when two matches stood side by side. */
  lemma {:induction false} SkimMissesIff(s: seq<nat>, x: nat)
    ensures x in Skim(s, x) <==> Adjacent(s, x)
  {
    if s == [] {
    } else {
      AdjacentTail(s, x);
      if s[0] != x {
        SkimMissesIff(s[1..], x);
      } else if |s| > 1 {
        SkimMissesIff(s[2..], x);
        AdjacentTail(s[1..], x);
        assert s[1..][1..] == s[2..];
      }
    }
  }

  lemma AdjacentTail(s: seq<nat>, x: nat)
    requires |s| > 0
    ensures Adjacent(s, x) <==> PairAt(s, x, 0) || Adjacent(s[1..], x)
  {
    if Adjacent(s[1..], x) {
      var i: nat :| PairAt(s[1..], x, i);
      assert PairAt(s, x, i + 1);
    }
    if Adjacent(s, x) {
      var i: nat :| PairAt(s, x, i);
      if i > 0 {
        assert PairAt(s[1..], x, i - 1);
      }
    }
  }

  predicate Ascending(fluxes: seq<int8>) {
    forall i, j :: 0 <= i <= j < |fluxes| ==> fluxes[i] <= fluxes[j]
  }

  /** The backward scan of `GetContainer` over the containers' counters; the caller spins while the list is empty. */
  method GetContainer(fluxes: seq<int8>) returns (k: nat)
    requires fluxes != []
    ensures k < |fluxes|
    ensures Ascending(fluxes[k + 1..])
    ensures (k + 1 < |fluxes| && fluxes[k] > fluxes[k + 1]) || (k == 0 && Ascending(fluxes))
  {
    var i := |fluxes| - 1;
    while i > 0
      invariant 0 <= i < |fluxes|
      invariant Ascending(fluxes[i..])
    {
      if fluxes[i] < fluxes[i - 1] {
        return i - 1;
      }
      assert fluxes[i - 1..] == [fluxes[i - 1]] + fluxes[i..];
      i := i - 1;
    }
    assert fluxes[0..] == fluxes;
    return 0;
  }

  /** The container chosen is a least loaded one exactly when the list is ordered by load. */
  lemma LeastLoadedIff(fluxes: seq<int8>, k: nat)
    requires k < |fluxes|
    requires (k + 1 < |fluxes| && fluxes[k] > fluxes[k + 1]) || (k == 0 && Ascending(fluxes))
    ensures (forall j :: 0 <= j < |fluxes| ==> fluxes[k] <= fluxes[j]) <==> Ascending(fluxes)
  {
  }
}
