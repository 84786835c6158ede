/** The bitset of used ports: the search for a clear bit and the scan of one window. */
module PortBits {
  import opened Words

  const WINDOW := 100

  /** The least clear index at or after `i`, below the length of the set. */
  function NextClear(bits: set<nat>, i: nat, length: nat): (r: Option<nat>)
    decreases length - i
  {
    if i >= length then None
    else if i !in bits then Some(i)
    else NextClear(bits, i + 1, length)
  }

  /** The first index of the window a helper scans; 0 when no bit is clear, for it goes on regardless. */
  function WindowStart(bits: set<nat>, length: nat, offset: nat): nat {
    var k := NextClear(bits, offset, length);
    if k.Some? then k.value else 0
  }

  predicate AllSet(bits: set<nat>, lo: nat, hi: nat) {
    forall k :: lo <= k < hi ==> k in bits
  }

  lemma {:induction false} NextClearIff(bits: set<nat>, i: nat, length: nat, k: nat)
    ensures NextClear(bits, i, length) == Some(k) <==> i <= k < length && k !in bits && AllSet(bits, i, k)
    decreases length - i
  {
    if i >= length || i !in bits {
    } else {
      NextClearIff(bits, i + 1, length, k);
    }
  }

  lemma {:induction false} NoneClear(bits: set<nat>, i: nat, length: nat)
    ensures NextClear(bits, i, length).None? <==> AllSet(bits, i, length)
    decreases length - i
  {
    if i >= length || i !in bits {
    } else {
      NoneClear(bits, i + 1, length);
    }
  }

  /** The indices `lo..hi`. */
  function Span(lo: nat, hi: nat): (r: set<nat>)
    ensures forall k :: k in r <==> lo <= k < hi
  {
    if lo >= hi then {} else Span(lo, hi - 1) + {hi - 1}
  }

  /** The clear indices of `lo..hi`, in increasing order. */
  function FreeIn(bits: set<nat>, lo: nat, hi: nat): (free: seq<nat>)
    ensures |free| <= if lo <= hi then hi - lo else 0
    ensures forall k :: k in free <==> lo <= k < hi && k !in bits
  {
    if lo >= hi then []
    else if hi - 1 in bits then FreeIn(bits, lo, hi - 1)
    else FreeIn(bits, lo, hi - 1) + [hi - 1]
  }

  lemma {:induction false} FreeInSorted(bits: set<nat>, lo: nat, hi: nat)
    ensures forall i, j :: 0 <= i < j < |FreeIn(bits, lo, hi)| ==> FreeIn(bits, lo, hi)[i] < FreeIn(bits, lo, hi)[j]
  {
    if lo >= hi {
    } else {
      FreeInSorted(bits, lo, hi - 1);
      var rest := FreeIn(bits, lo, hi - 1);
      assert forall i :: 0 <= i < |rest| ==> rest[i] in rest;
    }
  }

  /** A lease buffer: the ports found, as `uint16`, then zeros. */
  function Buffer(free: seq<nat>): (acc: seq<uint16>)
    requires |free| <= WINDOW
    ensures |acc| == WINDOW
  {
    seq(WINDOW, i requires 0 <= i < WINDOW => if i < |free| then free[i] % 65536 else 0)
  }

  lemma BufferSnoc(free: seq<nat>, k: nat)
    requires |free| < WINDOW
    ensures Buffer(free + [k]) == Buffer(free)[|free| := k % 65536]
  {
  }

  /** The scan of a window depends only on the bits in it. */
  lemma {:induction false} FreeInSame(a: set<nat>, b: set<nat>, lo: nat, hi: nat)
    requires forall k :: lo <= k < hi ==> (k in a <==> k in b)
    ensures FreeIn(a, lo, hi) == FreeIn(b, lo, hi)
    decreases hi
  {
    if lo >= hi {
    } else {
      FreeInSame(a, b, lo, hi - 1);
    }
  }
}
