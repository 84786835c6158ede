/** Port leases of containers: assignment by two window scans run one after the other, and release. */
module PortLeases {
  import opened Words
  import opened PortBits
  import PortScan

  /**
   A helper that handed its buffer over early and outlives its assignment: the index it is at, and
   whether it has found it clear and is about to set it.  Past its window it waits for ever.
   */
  datatype Late = Late(idx: nat, marking: bool)

  /**
   `am` keeps the last lease of every container and `out` are the containers not released since.
   `kept` records the ports that had a mapping when their lease was released.
   */
  datatype Leases =
    Leases(bits: set<nat>, length: nat, am: map<nat, seq<uint16>>, out: set<nat>, kept: set<uint16>, late: seq<Late>)

  function Init(): Leases {
    Leases({}, 65536, map[], {}, {}, [])
  }

  /**
   What the scheduler decides: which helper scans first and, for a helper that found no clear bit and
   so handed its buffer over before scanning on from bit 0, how much it had scanned when the buffer
   was copied.
   */
  datatype Choice = Choice(lowerFirst: bool, lowerEarly: nat, upperEarly: nat)

  predicate ChoiceOk(ch: Choice) {
    ch.lowerEarly <= WINDOW && ch.upperEarly <= WINDOW
  }

  /** A helper when its buffer is copied: the bitset, the indices found, and itself if it goes on. */
  datatype Scanned = Scanned(bits: set<nat>, length: nat, found: seq<nat>, late: seq<Late>)

  function Helper(bits: set<nat>, length: nat, offset: nat, early: nat): (h: Scanned)
    requires early <= WINDOW
    ensures |h.found| <= WINDOW
  {
    var k := WindowStart(bits, length, offset);
    if NextClear(bits, offset, length).Some? then
      Scanned(bits + Span(k, k + WINDOW), Max(length, k + WINDOW), FreeIn(bits, k, k + WINDOW), [])
    else
      Scanned(bits + Span(0, early), Max(length, early), FreeIn(bits, 0, early), [Late(early, false)])
  }

  /** Both helpers of one assignment. */
  datatype Found = Found(bits: set<nat>, length: nat, lower: seq<nat>, upper: seq<nat>, late: seq<Late>)

  function ScanBoth(bits: set<nat>, length: nat, ch: Choice): (f: Found)
    requires ChoiceOk(ch)
    ensures |f.lower| <= WINDOW && |f.upper| <= WINDOW
  {
    if ch.lowerFirst then
      var lower := Helper(bits, length, 1, ch.lowerEarly);
      var upper := Helper(lower.bits, lower.length, 1025, ch.upperEarly);
      Found(upper.bits, upper.length, lower.found, upper.found, lower.late + upper.late)
    else
      var upper := Helper(bits, length, 1025, ch.upperEarly);
      var lower := Helper(upper.bits, upper.length, 1, ch.lowerEarly);
      Found(lower.bits, lower.length, lower.found, upper.found, lower.late + upper.late)
  }

  function Lease(f: Found): (buff: seq<uint16>)
    requires |f.lower| <= WINDOW && |f.upper| <= WINDOW
    ensures |buff| == 2 * WINDOW
  {
    Buffer(f.lower) + Buffer(f.upper)
  }

  function AssignStep(s: Leases, c: nat, ch: Choice): Leases
    requires ChoiceOk(ch)
  {
    var f := ScanBoth(s.bits, s.length, ch);
    Leases(f.bits, f.length, s.am[c := Lease(f)], s.out + {c}, s.kept, s.late + f.late)
  }

  /** The ports a release gives back: those of the buffer that no mapping uses. */
  function GivenBack(buff: seq<uint16>, im: set<uint16>): set<nat> {
    set p: uint16 | p in buff && p !in im :: p as nat
  }

  /** The lease itself stays in `am`. */
  function ReleaseStep(s: Leases, c: nat, im: set<uint16>): Leases {
    if c !in s.am then s
    else s.(bits := s.bits - GivenBack(s.am[c], im), out := s.out - {c},
            kept := s.kept + set p | p in s.am[c] && p in im && p != 0)
  }

  /** One step of a helper that outlives its assignment; what it finds now reaches no lease. */
  function LingerStep(s: Leases, i: nat): Leases
    requires i < |s.late|
  {
    var h := s.late[i];
    if h.marking then
      s.(bits := s.bits + {h.idx}, length := Max(s.length, h.idx + 1), late := s.late[i := Late(h.idx + 1, false)])
    else if h.idx >= WINDOW then s
    else if h.idx in s.bits then s.(late := s.late[i := Late(h.idx + 1, false)])
    else s.(late := s.late[i := Late(h.idx, true)])
  }

  predicate Leased(s: Leases, c: nat, p: uint16) {
    c in s.out && c in s.am && p != 0 && p in s.am[c]
  }

  predicate OnceEach(buff: seq<uint16>) {
    forall i, j :: 0 <= i < j < |buff| && buff[i] == buff[j] ==> buff[i] == 0
  }

  /** Leased ports are reserved, and no non-zero port is leased twice. */
  ghost predicate Disjoint(s: Leases) {
    && s.out <= s.am.Keys
    && (forall c, p :: Leased(s, c, p) ==> p in s.bits)
    && (forall c, d, p :: Leased(s, c, p) && Leased(s, d, p) ==> c == d)
    && (forall c :: c in s.out ==> OnceEach(s.am[c]))
  }

  predicate Takes(f: Found, i: nat) {
    i in f.lower || i in f.upper
  }

  predicate Increasing(s: seq<nat>) {
    forall i, j :: 0 <= i < j < |s| ==> s[i] < s[j]
  }

  /** Every index taken was clear before and is set after, and none is taken twice. */
  ghost predicate Fresh(bits: set<nat>, f: Found) {
    && bits <= f.bits
    && (forall i: nat :: Takes(f, i) ==> i !in bits && i in f.bits)
    && Increasing(f.lower)
    && Increasing(f.upper)
    && (forall i :: i in f.lower ==> i !in f.upper)
  }

  lemma HelperFresh(bits: set<nat>, length: nat, offset: nat, early: nat)
    requires early <= WINDOW
    ensures var h := Helper(bits, length, offset, early);
            && bits <= h.bits
            && Increasing(h.found)
            && forall i :: i in h.found ==> i !in bits && i in h.bits
  {
    var k := WindowStart(bits, length, offset);
    FreeInSorted(bits, k, k + WINDOW);
    FreeInSorted(bits, 0, early);
  }

  lemma BothFresh(bits: set<nat>, length: nat, ch: Choice)
    requires ChoiceOk(ch)
    ensures Fresh(bits, ScanBoth(bits, length, ch))
  {
    if ch.lowerFirst {
      var lower := Helper(bits, length, 1, ch.lowerEarly);
      HelperFresh(bits, length, 1, ch.lowerEarly);
      HelperFresh(lower.bits, lower.length, 1025, ch.upperEarly);
    } else {
      var upper := Helper(bits, length, 1025, ch.upperEarly);
      HelperFresh(bits, length, 1025, ch.upperEarly);
      HelperFresh(upper.bits, upper.length, 1, ch.lowerEarly);
    }
  }

  /** The index behind position `k` of the lease, if any. */
  function Behind(f: Found, k: nat): (i: Option<nat>)
    ensures i.Some? ==> Takes(f, i.value)
  {
    if k < WINDOW then
      if k < |f.lower| then Some(f.lower[k]) else None
    else
      if k - WINDOW < |f.upper| then Some(f.upper[k - WINDOW]) else None
  }

  lemma LeaseAt(f: Found, k: nat)
    requires |f.lower| <= WINDOW && |f.upper| <= WINDOW && k < 2 * WINDOW
    ensures Lease(f)[k] == if Behind(f, k).Some? then Behind(f, k).value % 65536 else 0
  {
  }

  lemma PositionOf(f: Found, i: nat) returns (k: nat)
    requires |f.lower| <= WINDOW && |f.upper| <= WINDOW && Takes(f, i)
    ensures k < 2 * WINDOW && Behind(f, k) == Some(i) && Lease(f)[k] == i % 65536
  {
    if i in f.lower {
      k :| 0 <= k < |f.lower| && f.lower[k] == i;
    } else {
      var j :| 0 <= j < |f.upper| && f.upper[j] == i;
      k := WINDOW + j;
    }
    LeaseAt(f, k);
  }

  /** The non-zero ports of a lease are what the indices taken are cut down to. */
  lemma LeasePorts(f: Found, p: uint16)
    requires |f.lower| <= WINDOW && |f.upper| <= WINDOW && p != 0
    ensures p in Lease(f) <==> exists i: nat :: Takes(f, i) && i % 65536 == p
  {
    if p in Lease(f) {
      var k :| 0 <= k < 2 * WINDOW && Lease(f)[k] == p;
      LeaseAt(f, k);
      assert Takes(f, Behind(f, k).value);
    }
    if i: nat :| Takes(f, i) && i % 65536 == p {
      var k := PositionOf(f, i);
    }
  }

  lemma BehindDiffers(bits: set<nat>, f: Found, k: nat, l: nat)
    requires Fresh(bits, f) && k < l && Behind(f, k).Some? && Behind(f, l).Some?
    ensures Behind(f, k) != Behind(f, l)
  {
  }

  lemma LeaseOnce(bits: set<nat>, f: Found)
    requires |f.lower| <= WINDOW && |f.upper| <= WINDOW && Fresh(bits, f)
    requires forall i: nat, j: nat :: Takes(f, i) && Takes(f, j) && i != j && i % 65536 == j % 65536 ==> i % 65536 == 0
    ensures OnceEach(Lease(f))
  {
    forall k, l | 0 <= k < l < 2 * WINDOW && Lease(f)[k] == Lease(f)[l]
      ensures Lease(f)[k] == 0
    {
      LeaseAt(f, k);
      LeaseAt(f, l);
      if Behind(f, k).Some? && Behind(f, l).Some? {
        BehindDiffers(bits, f, k, l);
      }
    }
  }

  lemma LeaseTwice(f: Found, i: nat, j: nat)
    requires |f.lower| <= WINDOW && |f.upper| <= WINDOW
    requires Takes(f, i) && Takes(f, j) && i != j && i % 65536 == j % 65536 != 0
    ensures !OnceEach(Lease(f))
  {
    var k := PositionOf(f, i);
    var l := PositionOf(f, j);
    assert k != l;
    if k < l {
      assert Lease(f)[k] == Lease(f)[l];
    } else {
      assert Lease(f)[l] == Lease(f)[k];
    }
  }

  /** An index too large for a port, which is cut down to a port that may be in use. */
  predicate CutDown(f: Found, i: nat) {
    Takes(f, i) && i >= 65536 && i % 65536 != 0
  }

  /** That port is held by another container, or comes twice in this lease, or its own bit is still clear. */
  ghost predicate Collides(s: Leases, c: nat, f: Found, i: nat) {
    || (exists d :: d != c && Leased(s, d, i % 65536))
    || (exists j: nat :: Takes(f, j) && j != i && j % 65536 == i % 65536)
    || i % 65536 !in f.bits
  }

  /** Only the assigned container's lease changes. */
  lemma AssignLeased(s: Leases, c: nat, ch: Choice, d: nat, p: uint16)
    requires ChoiceOk(ch)
    ensures var f := ScanBoth(s.bits, s.length, ch);
            Leased(AssignStep(s, c, ch), d, p) <==>
            if d == c then p != 0 && exists i: nat :: Takes(f, i) && i % 65536 == p else Leased(s, d, p)
  {
    if p != 0 {
      LeasePorts(ScanBoth(s.bits, s.length, ch), p);
    }
  }

  lemma CollisionBreaks(s: Leases, c: nat, ch: Choice, i: nat)
    requires ChoiceOk(ch)
    requires var f := ScanBoth(s.bits, s.length, ch);
             CutDown(f, i) && Collides(s, c, f, i)
    ensures !Disjoint(AssignStep(s, c, ch))
  {
    var f, t := ScanBoth(s.bits, s.length, ch), AssignStep(s, c, ch);
    if d :| d != c && Leased(s, d, i % 65536) {
      AssignLeased(s, c, ch, c, i % 65536);
      AssignLeased(s, c, ch, d, i % 65536);
    } else if j: nat :| Takes(f, j) && j != i && j % 65536 == i % 65536 {
      LeaseTwice(f, i, j);
      assert c in t.out && t.am[c] == Lease(f);
    } else {
      AssignLeased(s, c, ch, c, i % 65536);
    }
  }

  /** Without a collision every port taken is reserved and was nobody else's. */
  lemma TakenIsFree(s: Leases, c: nat, f: Found, i: nat)
    requires Disjoint(s) && Fresh(s.bits, f) && Takes(f, i) && i % 65536 != 0
    requires CutDown(f, i) ==> !Collides(s, c, f, i)
    ensures i % 65536 in f.bits && forall d :: Leased(s, d, i % 65536) ==> d == c
  {
  }

  ghost predicate NoCollision(s: Leases, c: nat, f: Found) {
    forall i: nat :: CutDown(f, i) ==> !Collides(s, c, f, i)
  }

  lemma LeasedApart(s: Leases, c: nat, ch: Choice, d: nat, p: uint16)
    requires Disjoint(s) && ChoiceOk(ch) && NoCollision(s, c, ScanBoth(s.bits, s.length, ch))
    requires Leased(AssignStep(s, c, ch), d, p)
    ensures p in AssignStep(s, c, ch).bits
    ensures forall e :: Leased(AssignStep(s, c, ch), e, p) ==> e == d
  {
    var f, t := ScanBoth(s.bits, s.length, ch), AssignStep(s, c, ch);
    BothFresh(s.bits, s.length, ch);
    forall e
      ensures Leased(t, e, p) ==> if e == c then exists i: nat :: Takes(f, i) && i % 65536 == p else Leased(s, e, p)
    {
      AssignLeased(s, c, ch, e, p);
    }
    if i: nat :| Takes(f, i) && i % 65536 == p {
      TakenIsFree(s, c, f, i);
    }
  }

  lemma CollisionFreeOnce(s: Leases, c: nat, f: Found)
    requires |f.lower| <= WINDOW && |f.upper| <= WINDOW && Fresh(s.bits, f) && NoCollision(s, c, f)
    ensures OnceEach(Lease(f))
  {
    forall i: nat, j: nat | Takes(f, i) && Takes(f, j) && i != j && i % 65536 == j % 65536
      ensures i % 65536 == 0
    {
      assert CutDown(f, i) || CutDown(f, j) || i % 65536 == 0;
    }
    LeaseOnce(s.bits, f);
  }

  lemma NoCollisionKeeps(s: Leases, c: nat, ch: Choice)
    requires Disjoint(s) && ChoiceOk(ch) && NoCollision(s, c, ScanBoth(s.bits, s.length, ch))
    ensures Disjoint(AssignStep(s, c, ch))
  {
    var t := AssignStep(s, c, ch);
    BothFresh(s.bits, s.length, ch);
    CollisionFreeOnce(s, c, ScanBoth(s.bits, s.length, ch));
    forall d, p | Leased(t, d, p)
      ensures p in t.bits && forall e :: Leased(t, e, p) ==> e == d
    {
      LeasedApart(s, c, ch, d, p);
    }
  }

  /** An assignment keeps leases disjoint and reserved exactly when no index that is cut down collides. */
  lemma AssignDisjointIff(s: Leases, c: nat, ch: Choice)
    requires Disjoint(s) && ChoiceOk(ch)
    ensures Disjoint(AssignStep(s, c, ch)) <==> NoCollision(s, c, ScanBoth(s.bits, s.length, ch))
  {
    var f := ScanBoth(s.bits, s.length, ch);
    if i: nat :| CutDown(f, i) && Collides(s, c, f, i) {
      CollisionBreaks(s, c, ch, i);
    } else {
      NoCollisionKeeps(s, c, ch);
    }
  }

  /** Every index taken is below 65536, so that none is cut down. */
  predicate Fits(f: Found) {
    (forall i :: i in f.lower ==> i < 65536) && (forall i :: i in f.upper ==> i < 65536)
  }

  /** A port that was reserved before is not taken. */
  lemma ReservedNotTaken(bits: set<nat>, f: Found, p: uint16)
    requires Fresh(bits, f) && Fits(f) && p in bits
    ensures p in f.bits && forall i: nat :: Takes(f, i) ==> i % 65536 != p
  {
  }

  /** A port the release would clear is held by a container that is not released. */
  ghost predicate TakesFromOthers(s: Leases, c: nat, im: set<uint16>) {
    c in s.am && exists d, p :: d != c && Leased(s, d, p) && p in s.am[c] && p !in im
  }

  /** A release keeps leases disjoint and reserved exactly when it takes no port of another container. */
  lemma ReleaseDisjointIff(s: Leases, c: nat, im: set<uint16>)
    requires Disjoint(s)
    ensures Disjoint(ReleaseStep(s, c, im)) <==> !TakesFromOthers(s, c, im)
  {
    var t := ReleaseStep(s, c, im);
    if c in s.am {
      assert forall d, p :: Leased(t, d, p) <==> d != c && Leased(s, d, p);
      if TakesFromOthers(s, c, im) {
        var d, p :| d != c && Leased(s, d, p) && p in s.am[c] && p !in im;
        assert Leased(t, d, p) && p !in t.bits;
      } else {
        forall d, p | Leased(t, d, p)
          ensures p in t.bits
        {
          assert Leased(s, d, p);
        }
      }
    }
  }

  /** The ports kept at releases stay reserved and are nobody's. */
  ghost predicate KeptAside(s: Leases) {
    forall p :: p in s.kept ==> p != 0 && p in s.bits && forall c :: !Leased(s, c, p)
  }

  lemma KeptNotTaken(s: Leases, c: nat, ch: Choice, d: nat, p: uint16)
    requires KeptAside(s) && p in s.kept && ChoiceOk(ch) && Fits(ScanBoth(s.bits, s.length, ch))
    ensures p in AssignStep(s, c, ch).bits && !Leased(AssignStep(s, c, ch), d, p)
  {
    BothFresh(s.bits, s.length, ch);
    ReservedNotTaken(s.bits, ScanBoth(s.bits, s.length, ch), p);
    AssignLeased(s, c, ch, d, p);
  }

  lemma AssignKeepsAside(s: Leases, c: nat, ch: Choice)
    requires KeptAside(s) && ChoiceOk(ch) && Fits(ScanBoth(s.bits, s.length, ch))
    ensures KeptAside(AssignStep(s, c, ch))
  {
    var t := AssignStep(s, c, ch);
    forall p, d | p in s.kept
      ensures p in t.bits && !Leased(t, d, p)
    {
      KeptNotTaken(s, c, ch, d, p);
    }
    assert forall p :: p in t.kept ==> p in t.bits && !Leased(t, c, p);
  }

  lemma ReleaseKeepsAside(s: Leases, c: nat, im: set<uint16>)
    requires Disjoint(s) && KeptAside(s) && (c in s.out || c !in s.am)
    ensures KeptAside(ReleaseStep(s, c, im))
  {
    var t := ReleaseStep(s, c, im);
    assert forall d, p :: Leased(t, d, p) ==> Leased(s, d, p) && (c in s.am ==> d != c);
    forall p | p in t.kept
      ensures p != 0 && p in t.bits && forall d :: !Leased(t, d, p)
    {
      assert p in s.kept <==> !Leased(s, c, p);
    }
  }

  /**
   A container not released yet takes nothing from others; of its own ports exactly those with a
   mapping stay reserved, and they are kept.
   */
  lemma FirstReleaseSafe(s: Leases, c: nat, im: set<uint16>)
    requires Disjoint(s) && KeptAside(s) && (c in s.out || c !in s.am)
    ensures Disjoint(ReleaseStep(s, c, im)) && KeptAside(ReleaseStep(s, c, im))
    ensures forall p :: Leased(s, c, p) ==> (p in ReleaseStep(s, c, im).bits <==> p in im)
    ensures forall p :: Leased(s, c, p) && p in im ==> p in ReleaseStep(s, c, im).kept
  {
    ReleaseDisjointIff(s, c, im);
    if TakesFromOthers(s, c, im) {
      var d, p :| d != c && Leased(s, d, p) && p in s.am[c] && p !in im;
      assert Leased(s, c, p);
    }
    ReleaseKeepsAside(s, c, im);
  }

  /** A helper that goes on by itself only reserves bits: nobody's lease changes. */
  lemma LingerSafe(s: Leases, i: nat)
    requires i < |s.late|
    ensures Disjoint(s) ==> Disjoint(LingerStep(s, i))
    ensures KeptAside(s) ==> KeptAside(LingerStep(s, i))
    ensures forall c, p :: Leased(LingerStep(s, i), c, p) <==> Leased(s, c, p)
  {
    var t := LingerStep(s, i);
    assert t.am == s.am && t.out == s.out && t.kept == s.kept && s.bits <= t.bits;
    assert forall c, p :: Leased(t, c, p) <==> Leased(s, c, p);
  }

  datatype Event = Assign(c: nat, ch: Choice) | Release(c: nat, im: set<uint16>) | Linger(i: nat)

  /** No index is cut down, and no container is released twice without being assigned again. */
  predicate Admissible(s: Leases, ev: Event) {
    match ev
    case Assign(_, ch) => ChoiceOk(ch) && Fits(ScanBoth(s.bits, s.length, ch))
    case Release(c, _) => c in s.out || c !in s.am
    case Linger(i) => i < |s.late|
  }

  function Step(s: Leases, ev: Event): Leases
    requires Admissible(s, ev)
  {
    match ev
    case Assign(c, ch) => AssignStep(s, c, ch)
    case Release(c, im) => ReleaseStep(s, c, im)
    case Linger(i) => LingerStep(s, i)
  }

  /** The leases after a run, or `None` when some event is not admissible. */
  function Run(s: Leases, evs: seq<Event>): Option<Leases> {
    if evs == [] then Some(s)
    else
      var before := Run(s, evs[..|evs| - 1]);
      if before.None? || !Admissible(before.value, evs[|evs| - 1]) then None
      else Some(Step(before.value, evs[|evs| - 1]))
  }

  /**
   Over every admissible run no port is leased twice and every leased port is reserved.  A port kept
   at a release, since it still had a mapping, stays reserved and is never leased again: it leaks.
   */
  lemma {:induction false} LeasesDisjoint(s: Leases, evs: seq<Event>, t: Leases)
    requires Disjoint(s) && KeptAside(s) && Run(s, evs) == Some(t)
    ensures Disjoint(t) && KeptAside(t) && s.kept <= t.kept
  {
    if evs == [] {
    } else {
      var n := |evs| - 1;
      var u := Run(s, evs[..n]).value;
      LeasesDisjoint(s, evs[..n], u);
      match evs[n]
      case Assign(c, ch) =>
        AssignDisjointIff(u, c, ch);
        AssignKeepsAside(u, c, ch);
      case Release(c, im) => FirstReleaseSafe(u, c, im);
      case Linger(i) => LingerSafe(u, i);
    }
  }

  lemma InitDisjoint()
    ensures Disjoint(Init()) && KeptAside(Init())
  {
  }

  /** With bit 1 clear, whoever scans first from bit 1 leases port 1. */
  lemma PortOneLeased(s: Leases, c: nat, ch: Choice)
    requires 1 !in s.bits && s.length == 65536 && ChoiceOk(ch) && ch.lowerFirst
    ensures Leased(AssignStep(s, c, ch), c, 1)
  {
    NextClearIff(s.bits, 1, s.length, 1);
    AssignLeased(s, c, ch, c, 1);
    assert Takes(ScanBoth(s.bits, s.length, ch), 1);
  }

  /** The lease kept in `am` lets a second release of container 0 free a port of container 1. */
  lemma SecondReleaseBreaks(ch: Choice)
    requires ChoiceOk(ch) && ch.lowerFirst
    ensures var s := AssignStep(ReleaseStep(AssignStep(Init(), 0, ch), 0, {}), 1, ch);
            && Leased(s, 1, 1)
            && 1 !in ReleaseStep(s, 0, {}).bits
  {
    var a := AssignStep(Init(), 0, ch);
    PortOneLeased(Init(), 0, ch);
    FirstLength(ch);
    PortOneLeased(ReleaseStep(a, 0, {}), 1, ch);
  }

  lemma FirstLength(ch: Choice)
    requires ChoiceOk(ch) && ch.lowerFirst
    ensures AssignStep(Init(), 0, ch).length == 65536
  {
  }

  /** The bits below `x`, from 1, and below `y`, from 1025, are set. */
  ghost predicate Filled(s: Leases, x: nat, y: nat) {
    s.length == 65536 && forall k :: k in s.bits <==> 1 <= k < x || 1025 <= k < y
  }

  const LOWER_FIRST := Choice(true, 0, 0)

  lemma LowerFills(s: Leases, x: nat, y: nat)
    requires Filled(s, x, y) && 1 <= x && (x < 1025 <= y || 1025 <= x == y) && x + WINDOW <= 65536
    ensures var h := Helper(s.bits, s.length, 1, 0);
            && h.length == 65536
            && (forall k :: k in h.bits <==> 1 <= k < x + WINDOW || 1025 <= k < y)
            && h.found == FreeIn(s.bits, x, x + WINDOW)
  {
    NextClearIff(s.bits, 1, s.length, x);
  }

  /** An assignment takes the next hundred ports of both ranges, until the lower range runs into the upper. */
  lemma AssignFills(s: Leases, c: nat, x: nat, y: nat)
    requires Filled(s, x, y) && 1 <= x && (x < 1025 <= y || 1025 <= x == y) && y + 2 * WINDOW <= 65536
    requires x < 1025 ==> x + WINDOW <= y
    ensures Fits(ScanBoth(s.bits, s.length, LOWER_FIRST))
    ensures var t, u := AssignStep(s, c, LOWER_FIRST), Max(y, x + WINDOW) + WINDOW;
            if x + WINDOW < 1025 then Filled(t, x + WINDOW, u) else Filled(t, u, u)
  {
    LowerFills(s, x, y);
    var lower := Helper(s.bits, s.length, 1, 0);
    NextClearIff(lower.bits, 1025, lower.length, Max(y, x + WINDOW));
  }

  /** How far the two ranges reach after `n` assignments. */
  function LowEnd(n: nat): nat {
    if n <= 10 then 1 + 100 * n else 2125 + 200 * (n - 11)
  }

  function HighEnd(n: nat): nat {
    if n <= 10 then 1025 + 100 * n else LowEnd(n)
  }

  lemma FillStep(n: nat, s: Leases)
    requires n < 328 && Filled(s, LowEnd(n), HighEnd(n)) && (n > 0 ==> Leased(s, 0, 1))
    ensures Fits(ScanBoth(s.bits, s.length, LOWER_FIRST))
    ensures Filled(AssignStep(s, n, LOWER_FIRST), LowEnd(n + 1), HighEnd(n + 1))
    ensures Leased(AssignStep(s, n, LOWER_FIRST), 0, 1)
  {
    AssignFills(s, n, LowEnd(n), HighEnd(n));
    if n == 0 {
      PortOneLeased(s, 0, LOWER_FIRST);
    } else {
      AssignLeased(s, n, LOWER_FIRST, 0, 1);
    }
  }

  /** Assignments to one container after the other, from the empty allocator. */
  lemma {:induction false} FillUp(n: nat) returns (evs: seq<Event>, s: Leases)
    requires n <= 328
    ensures Run(Init(), evs) == Some(s) && Filled(s, LowEnd(n), HighEnd(n))
    ensures n > 0 ==> Leased(s, 0, 1)
  {
    if n == 0 {
      evs, s := [], Init();
    } else {
      var before, u := FillUp(n - 1);
      FillStep(n - 1, u);
      evs, s := Then(before, u, Assign(n - 1, LOWER_FIRST));
    }
  }

  lemma Then(evs: seq<Event>, s: Leases, ev: Event) returns (evs': seq<Event>, t: Leases)
    requires Run(Init(), evs) == Some(s) && Admissible(s, ev)
    ensures Run(Init(), evs') == Some(t) && t == Step(s, ev)
  {
    assert (evs + [ev])[..|evs|] == evs;
    return evs + [ev], Step(s, ev);
  }

  /**
   After 328 assignments, none released, the next window starts at 65525 and runs over 65537, which is
   cut down to port 1: container 328 is handed the port that container 0 holds.
   */
  lemma {:induction false} WrapReached() returns (evs: seq<Event>, s: Leases)
    ensures Run(Init(), evs) == Some(s) && Disjoint(s)
    ensures Leased(s, 0, 1) && Leased(AssignStep(s, 328, LOWER_FIRST), 328, 1)
    ensures !Disjoint(AssignStep(s, 328, LOWER_FIRST))
  {
    evs, s := FillUp(328);
    InitDisjoint();
    LeasesDisjoint(Init(), evs, s);
    var x := LowEnd(328);
    NextClearIff(s.bits, 1, s.length, x);
    var f := ScanBoth(s.bits, s.length, LOWER_FIRST);
    assert 65537 in FreeIn(s.bits, x, x + WINDOW);
    assert CutDown(f, 65537);
    AssignLeased(s, 328, LOWER_FIRST, 328, 1);
    CollisionBreaks(s, 328, LOWER_FIRST, 65537);
  }

  /** A window is found where it was after another scan, which may have extended the bitset by set bits. */
  lemma SeekApart(bits: set<nat>, other: set<nat>, length: nat, offset: nat, size: nat)
    requires length <= size && forall i :: length <= i < size ==> i in other
    requires NextClear(bits, offset, length).Some? ==> NextClear(bits, offset, length).value !in other
    ensures PortScan.Sought(bits + other, size, offset) == PortScan.Sought(bits, length, offset)
  {
    var found := NextClear(bits, offset, length);
    if found.Some? {
      NextClearIff(bits, offset, length, found.value);
      NextClearIff(bits + other, offset, size, found.value);
    } else {
      NoneClear(bits, offset, length);
      NoneClear(bits + other, offset, size);
    }
  }

  /** Where a helper stands when its buffer is copied. */
  function StopsAt(w: PortScan.Window, early: nat): nat {
    w.start + if w.early then early else WINDOW
  }

  /** A helper finds the same window and the same indices after another has scanned outside it. */
  lemma HelperApart(bits: set<nat>, other: set<nat>, length: nat, offset: nat, early: nat, size: nat)
    requires early <= WINDOW && length <= size && forall i :: length <= i < size ==> i in other
    requires var k := WindowStart(bits, length, offset); forall i :: k <= i < k + WINDOW ==> i !in other
    ensures var w := PortScan.Sought(bits, length, offset);
            var h := Helper(bits + other, size, offset, early);
            && h.bits == bits + other + Span(w.start, StopsAt(w, early))
            && h.found == FreeIn(bits, w.start, StopsAt(w, early))
  {
    var w := PortScan.Sought(bits, length, offset);
    SeekApart(bits, other, length, offset, size);
    FreeInSame(bits + other, bits, w.start, StopsAt(w, early));
  }

  /** Without a clear bit from 1 on there is none from 1025 on, and both helpers scan from 0. */
  lemma LowerFinds(bits: set<nat>, length: nat)
    requires !PortScan.Overlap(PortScan.Sought(bits, length, 1), PortScan.Sought(bits, length, 1025))
    ensures NextClear(bits, 1, length).Some?
  {
    NoneClear(bits, 1, length);
    NoneClear(bits, 1025, length);
  }

  lemma HelperSeen(bits: set<nat>, length: nat, offset: nat, early: nat)
    requires early <= WINDOW
    ensures var w, h := PortScan.Sought(bits, length, offset), Helper(bits, length, offset, early);
            && h.bits == bits + Span(w.start, StopsAt(w, early))
            && h.length == Max(length, StopsAt(w, early))
            && h.found == FreeIn(bits, w.start, StopsAt(w, early))
            && w.start <= StopsAt(w, early) <= w.start + WINDOW
  {
  }

  lemma StartsInside(bits: set<nat>, length: nat, offset: nat)
    ensures WindowStart(bits, length, offset) <= length
  {
    var found := NextClear(bits, offset, length);
    if found.Some? {
      NextClearIff(bits, offset, length, found.value);
    }
  }

  /** A second helper finds its own window beside that of the first. */
  lemma SecondApart(bits: set<nat>, length: nat, first: nat, second: nat, early: nat, lateEarly: nat)
    requires early <= WINDOW && lateEarly <= WINDOW
    requires !PortScan.Overlap(PortScan.Sought(bits, length, first), PortScan.Sought(bits, length, second))
    ensures var v, w := PortScan.Sought(bits, length, first), PortScan.Sought(bits, length, second);
            var g := Helper(bits, length, first, early);
            var h := Helper(g.bits, g.length, second, lateEarly);
            && h.bits == bits + Span(v.start, StopsAt(v, early)) + Span(w.start, StopsAt(w, lateEarly))
            && g.found == FreeIn(bits, v.start, StopsAt(v, early))
            && h.found == FreeIn(bits, w.start, StopsAt(w, lateEarly))
  {
    var v := PortScan.Sought(bits, length, first);
    HelperSeen(bits, length, first, early);
    StartsInside(bits, length, first);
    HelperApart(bits, Span(v.start, StopsAt(v, early)), length, second, lateEarly, Max(length, StopsAt(v, early)));
  }

  ghost predicate ScannedApart(bits: set<nat>, length: nat, ch: Choice, f: Found) {
    var to := StopsAt(PortScan.Sought(bits, length, 1025), ch.upperEarly);
    PortScan.ScannedTo(bits, length, to, f.bits, f.lower, f.upper)
  }

  lemma LowerFirstApart(bits: set<nat>, length: nat, ch: Choice)
    requires ChoiceOk(ch) && ch.lowerFirst && NextClear(bits, 1, length).Some?
    requires !PortScan.Overlap(PortScan.Sought(bits, length, 1), PortScan.Sought(bits, length, 1025))
    ensures ScannedApart(bits, length, ch, ScanBoth(bits, length, ch))
  {
    SecondApart(bits, length, 1, 1025, ch.lowerEarly, ch.upperEarly);
  }

  lemma UpperFirstApart(bits: set<nat>, length: nat, ch: Choice)
    requires ChoiceOk(ch) && !ch.lowerFirst && NextClear(bits, 1, length).Some?
    requires !PortScan.Overlap(PortScan.Sought(bits, length, 1), PortScan.Sought(bits, length, 1025))
    ensures ScannedApart(bits, length, ch, ScanBoth(bits, length, ch))
  {
    SecondApart(bits, length, 1025, 1, ch.upperEarly, ch.lowerEarly);
    var low, up := WindowStart(bits, length, 1), PortScan.Sought(bits, length, 1025);
    EitherOrder(bits, Span(low, low + WINDOW), Span(up.start, StopsAt(up, ch.upperEarly)));
  }

  lemma EitherOrder(a: set<nat>, b: set<nat>, c: set<nat>)
    ensures a + b + c == a + c + b
  {
  }

  lemma ScansApart(bits: set<nat>, length: nat, ch: Choice)
    requires ChoiceOk(ch)
    requires !PortScan.Overlap(PortScan.Sought(bits, length, 1), PortScan.Sought(bits, length, 1025))
    ensures ScannedApart(bits, length, ch, ScanBoth(bits, length, ch))
  {
    LowerFinds(bits, length);
    if ch.lowerFirst {
      LowerFirstApart(bits, length, ch);
    } else {
      UpperFirstApart(bits, length, ch);
    }
  }

  lemma InterleavedScan(bits: set<nat>, length: nat, ch: Choice, schedule: seq<bool>, s: PortScan.Scan)
    requires ChoiceOk(ch)
    requires !PortScan.Overlap(PortScan.Sought(bits, length, 1), PortScan.Sought(bits, length, 1025))
    requires PortScan.Runs(PortScan.Start(bits), schedule, length) == Some(s)
    requires PortScan.HandedOver(s.lower) && PortScan.HandedOver(s.upper)
    requires PortScan.Sought(bits, length, 1025).early ==> ch.upperEarly == PortScan.Reached(s.upper, 0)
    ensures var f := ScanBoth(bits, length, ch);
            f.bits == s.bits && f.lower == PortScan.Held(s.lower) && f.upper == PortScan.Held(s.upper)
  {
    LowerFinds(bits, length);
    PortScan.WhenHandedOver(bits, length, schedule, s);
    ScansApart(bits, length, ch);
    var up := PortScan.Sought(bits, length, 1025);
    assert StopsAt(up, ch.upperEarly) == if up.early then PortScan.Reached(s.upper, 0) else up.start + WINDOW;
  }

  /**
   Running the helpers one after the other, in either order, is what every interleaving of their
   steps amounts to while their windows are disjoint: whenever both buffers are with the receiver, the
   bitset and the lease are those of the assignment step, for the part an early helper has scanned by then.
   */
  lemma InterleavedAssign(st: Leases, c: nat, ch: Choice, schedule: seq<bool>, s: PortScan.Scan)
    requires ChoiceOk(ch)
    requires !PortScan.Overlap(PortScan.Sought(st.bits, st.length, 1), PortScan.Sought(st.bits, st.length, 1025))
    requires PortScan.Runs(PortScan.Start(st.bits), schedule, st.length) == Some(s)
    requires PortScan.HandedOver(s.lower) && PortScan.HandedOver(s.upper)
    requires PortScan.Sought(st.bits, st.length, 1025).early ==> ch.upperEarly == PortScan.Reached(s.upper, 0)
    ensures AssignStep(st, c, ch).bits == s.bits
    ensures |PortScan.Held(s.lower)| <= WINDOW && |PortScan.Held(s.upper)| <= WINDOW
    ensures AssignStep(st, c, ch).am[c] == Buffer(PortScan.Held(s.lower)) + Buffer(PortScan.Held(s.upper))
  {
    InterleavedScan(st.bits, st.length, ch, schedule, s);
  }
}
