/** `CntPortMapping`: the allocator that hands out and takes back port leases. */
module CntPortMappings {
  import opened Words
  import opened PortBits
  import opened PortLeases

  class CntPortMapping {
    /** The set bits and the length of the bitset. */
    var bSet: set<nat>
    var length: nat

    /** Leases by the identity of the container's address. */
    var am: map<nat, seq<uint16>>

    /** The helpers that outlive the assignment that started them. */
    var late: seq<Late>

    /** The containers not released since they were assigned, and the ports kept at releases. */
    ghost var Out: set<nat>
    ghost var Kept: set<uint16>

    ghost function Model(): Leases
      reads this
    {
      Leases(bSet, length, am, Out, Kept, late)
    }

    /** Setting a bit extends the bitset to hold it. */
    predicate Bounded()
      reads this
    {
      forall k :: k in bSet ==> k < length
    }

    constructor ()
      ensures Bounded() && Model() == Init()
    {
      bSet, length, am, late, Out, Kept := {}, 65536, map[], [], {}, {};
    }

    method Set(idx: nat)
      modifies `bSet, `length
      ensures bSet == old(bSet) + {idx} && length == Max(old(length), idx + 1)
    {
      bSet := bSet + {idx};
      if idx >= length {
        length := idx + 1;
      }
    }

    /** One index of the scan: a clear bit is set and its port recorded. */
    method Visit(idx: nat, acc: array<uint16>, ghost free: seq<nat>, i: nat) returns (j: nat)
      requires Bounded() && i == |free| < WINDOW == acc.Length && acc[..] == Buffer(free)
      modifies `bSet, `length, acc
      ensures bSet == old(bSet) + {idx}
      ensures length == if idx in old(bSet) then old(length) else Max(old(length), idx + 1)
      ensures var found := if idx in old(bSet) then free else free + [idx];
              j == |found| <= WINDOW && acc[..] == Buffer(found)
    {
      j := i;
      if idx !in bSet {
        BufferSnoc(free, idx);
        Set(idx);
        acc[j] := idx % 65536;
        j := j + 1;
      }
    }

    /** The scanning loop from `from` to `to`, in a window that began at `start` on `bits`. */
    method Scan(from: nat, to: nat, acc: array<uint16>, i: nat, ghost start: nat, ghost bits: set<nat>, ghost size: nat)
        returns (j: nat)
      requires start <= from <= to <= start + WINDOW == start + acc.Length
      requires forall k :: k in bits ==> k < size
      requires bSet == bits + Span(start, from) && length == Max(size, from)
      requires i == |FreeIn(bits, start, from)| && acc[..] == Buffer(FreeIn(bits, start, from))
      modifies `bSet, `length, acc
      ensures bSet == bits + Span(start, to) && length == Max(size, to)
      ensures j == |FreeIn(bits, start, to)| && acc[..] == Buffer(FreeIn(bits, start, to))
    {
      j := i;
      for idx := from to to
        invariant bSet == bits + Span(start, idx) && length == Max(size, idx)
        invariant j == |FreeIn(bits, start, idx)| && acc[..] == Buffer(FreeIn(bits, start, idx))
      {
        assert Span(start, idx + 1) == Span(start, idx) + {idx};
        assert idx in bSet <==> idx in bits;
        j := Visit(idx, acc, FreeIn(bits, start, idx), j);
      }
    }

    /** The window found by a helper, scanned to its end. */
    method ScanFound(idx: nat, acc: array<uint16>)
      requires Bounded() && acc.Length == WINDOW && forall i :: 0 <= i < WINDOW ==> acc[i] == 0
      requires idx < length
      modifies `bSet, `length, acc
      ensures Bounded() && bSet == old(bSet) + Span(idx, idx + WINDOW) && length == Max(old(length), idx + WINDOW)
      ensures acc[..] == Buffer(FreeIn(old(bSet), idx, idx + WINDOW))
    {
      var i := Scan(idx, idx + WINDOW, acc, 0, idx, bSet, length);
    }

    /** The scan on from bit 0 of a helper that found no clear bit, as far as it has got when its buffer is copied. */
    method ScanOn(early: nat, acc: array<uint16>)
      requires Bounded() && acc.Length == WINDOW && forall i :: 0 <= i < WINDOW ==> acc[i] == 0
      requires early <= WINDOW
      modifies `bSet, `length, acc
      ensures Bounded() && bSet == old(bSet) + Span(0, early) && length == Max(old(length), early)
      ensures acc[..] == Buffer(FreeIn(old(bSet), 0, early))
    {
      var i := Scan(0, early, acc, 0, 0, bSet, length);
    }

    /**
     Scans one window into `acc`; `handed` is what the receiver copies: the finished buffer, or the
     buffer as it stood after `early` indices when no clear bit was found and it was sent at once.
     In that case the helper goes on as `rest`.
     */
    method SetHelper(offset: nat, acc: array<uint16>, early: nat) returns (handed: seq<uint16>, rest: seq<Late>)
      requires Bounded() && acc.Length == WINDOW && early <= WINDOW
      requires forall i :: 0 <= i < WINDOW ==> acc[i] == 0
      modifies `bSet, `length, acc
      ensures Bounded()
      ensures var h := Helper(old(bSet), old(length), offset, early);
              bSet == h.bits && length == h.length && handed == Buffer(h.found) && rest == h.late
      ensures rest != [] <==> forall k :: offset <= k < old(length) ==> k in old(bSet)
    {
      var found := NextClear(bSet, offset, length);
      NoneClear(bSet, offset, length);
      if found.Some? {
        NextClearIff(bSet, offset, length, found.value);
        ScanFound(found.value, acc);
        rest := [];
      } else {
        ScanOn(early, acc);
        rest := [Late(early, false)];
      }
      handed := acc[..];
    }

    /** The two window scans, one after the other. */
    method ScanWindows(ch: Choice) returns (res: seq<uint16>, rest: seq<Late>)
      requires Bounded() && ChoiceOk(ch)
      modifies `bSet, `length
      ensures Bounded()
      ensures var f := ScanBoth(old(bSet), old(length), ch);
              bSet == f.bits && length == f.length && res == Lease(f) && rest == f.late
    {
      var lower := new uint16[WINDOW](i => 0);
      var upper := new uint16[WINDOW](i => 0);
      var l, u, lowerRest, upperRest;
      if ch.lowerFirst {
        l, lowerRest := SetHelper(1, lower, ch.lowerEarly);
        u, upperRest := SetHelper(1025, upper, ch.upperEarly);
      } else {
        u, upperRest := SetHelper(1025, upper, ch.upperEarly);
        l, lowerRest := SetHelper(1, lower, ch.lowerEarly);
      }
      res, rest := l + u, lowerRest + upperRest;
    }

    /** The joined lease of both scans, recorded for the container. */
    method AssignPorts(cntAddr: nat, ch: Choice) returns (res: seq<uint16>)
      requires Bounded() && ChoiceOk(ch)
      modifies this
      ensures Bounded() && Model() == AssignStep(old(Model()), cntAddr, ch)
      ensures res == am[cntAddr]
    {
      var rest;
      res, rest := ScanWindows(ch);
      am := am[cntAddr := res];
      late := late + rest;
      Out := Out + {cntAddr};
    }

    /** One step of a helper that outlives its assignment. */
    method Linger(i: nat)
      requires Bounded() && i < |late|
      modifies `bSet, `length, `late
      ensures Bounded() && Model() == LingerStep(old(Model()), i)
    {
      var h := late[i];
      if h.marking {
        Set(h.idx);
        late := late[i := Late(h.idx + 1, false)];
      } else if h.idx < WINDOW {
        late := late[i := if h.idx in bSet then Late(h.idx + 1, false) else Late(h.idx, true)];
      }
    }

    /** Clears every port of the buffer that no mapping uses. */
    method ReleaseHelper(buff: seq<uint16>, im: set<uint16>)
      requires Bounded()
      modifies `bSet
      ensures Bounded() && bSet == old(bSet) - GivenBack(buff, im)
    {
      for i := 0 to |buff|
        invariant bSet == old(bSet) - GivenBack(buff[..i], im)
      {
        if buff[i] !in im {
          bSet := bSet - {buff[i]};
        }
        assert buff[..i + 1] == buff[..i] + [buff[i]];
      }
      assert buff[..|buff|] == buff;
    }

    /** `im` are the ports that still have a mapping. */
    method ReleasePorts(cntAddr: nat, im: set<uint16>)
      requires Bounded()
      modifies this
      ensures Bounded() && Model() == ReleaseStep(old(Model()), cntAddr, im)
    {
      if cntAddr in am {
        ReleaseHelper(am[cntAddr], im);
        Kept := Kept + set p | p in am[cntAddr] && p in im && p != 0;
        Out := Out - {cntAddr};
      }
    }
  }
}
