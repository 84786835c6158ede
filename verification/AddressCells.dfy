/**
 The port map with shared address cells: every port of an address points at one cell, so that one
 write re-addresses them all.  It stands for a plain map from ports to addresses.
 */
module AddressCells {
  import opened Words

  /** `im` from ports and `rm` from addresses to cells; `val` is what the cells hold. */
  datatype Cells<C> = Cells(im: map<uint16, C>, rm: map<uint32, C>, val: map<C, uint32>)

  function Init<C>(): Cells<C> {
    Cells(map[], map[], map[])
  }

  /** Every cell referred to exists, and different addresses have different cells. */
  predicate Wf<C(==)>(s: Cells<C>) {
    && (forall p :: p in s.im ==> s.im[p] in s.val)
    && (forall a :: a in s.rm ==> s.rm[a] in s.val)
    && (forall a, b :: a in s.rm && b in s.rm && s.rm[a] == s.rm[b] ==> a == b)
  }

  /** The plain map the cells stand for. */
  function View<C>(s: Cells<C>): map<uint16, uint32>
    requires Wf(s)
  {
    map p | p in s.im :: s.val[s.im[p]]
  }

  /** `c` is the cell allocated when the address has none. */
  function SetStep<C>(s: Cells<C>, port: uint16, addr: uint32, c: C): Cells<C> {
    if addr in s.rm then s.(im := s.im[port := s.rm[addr]])
    else Cells(s.im[port := c], s.rm[addr := c], s.val[c := addr])
  }

  /** The cell of `oldAddr` is rewritten; `rm` keeps filing it under `oldAddr`. */
  function ReplaceStep<C>(s: Cells<C>, oldAddr: uint32, newAddr: uint32): Cells<C> {
    if oldAddr in s.rm then s.(val := s.val[s.rm[oldAddr] := newAddr]) else s
  }

  function DeleteStep<C>(s: Cells<C>, port: uint16): Cells<C> {
    s.(im := s.im - {port})
  }

  lemma StepsWf<C>(s: Cells<C>, port: uint16, a: uint32, b: uint32, c: C)
    requires Wf(s)
    ensures c !in s.val ==> Wf(SetStep(s, port, a, c))
    ensures Wf(ReplaceStep(s, a, b))
    ensures Wf(DeleteStep(s, port))
  {
  }

  /** Re-addressing on the plain map. */
  function Replaced(m: map<uint16, uint32>, oldAddr: uint32, newAddr: uint32): map<uint16, uint32> {
    map p | p in m :: if m[p] == oldAddr then newAddr else m[p]
  }

  /** `Set` does what it says exactly when the address has no cell yet or its cell still holds it. */
  lemma SetRefinesIff<C>(s: Cells<C>, port: uint16, addr: uint32, c: C)
    requires Wf(s) && c !in s.val
    ensures Wf(SetStep(s, port, addr, c))
    ensures View(SetStep(s, port, addr, c)) == View(s)[port := addr] <==>
            addr !in s.rm || s.val[s.rm[addr]] == addr
  {
    StepsWf(s, port, addr, addr, c);
    var v := View(SetStep(s, port, addr, c));
    assert v[port] == if addr in s.rm then s.val[s.rm[addr]] else addr;
    assert v.Keys == View(s).Keys + {port};
    assert forall p :: p in s.im && p != port ==> v[p] == View(s)[p];
  }

  /** The ports at `oldAddr` are those sharing its cell, and that cell holds it, or rewriting changes nothing anyway. */
  predicate Accounted<C(==)>(s: Cells<C>, oldAddr: uint32, newAddr: uint32)
    requires Wf(s)
  {
    forall p :: p in s.im ==>
      var held := s.val[s.im[p]];
      if oldAddr in s.rm && s.im[p] == s.rm[oldAddr] then held == oldAddr || held == newAddr
      else held != oldAddr || oldAddr == newAddr
  }

  /** `Replace` re-addresses exactly the ports of `oldAddr` when, and only when, they are accounted for. */
  lemma ReplaceRefinesIff<C>(s: Cells<C>, oldAddr: uint32, newAddr: uint32)
    requires Wf(s)
    ensures Wf(ReplaceStep(s, oldAddr, newAddr))
    ensures View(ReplaceStep(s, oldAddr, newAddr)) == Replaced(View(s), oldAddr, newAddr) <==>
            Accounted(s, oldAddr, newAddr)
  {
    var t := ReplaceStep(s, oldAddr, newAddr);
    assert forall p :: p in s.im ==>
        View(t)[p] == if oldAddr in s.rm && s.im[p] == s.rm[oldAddr] then newAddr else s.val[s.im[p]];
    assert View(t).Keys == Replaced(View(s), oldAddr, newAddr).Keys;
    if View(t) == Replaced(View(s), oldAddr, newAddr) {
      forall p | p in s.im
        ensures View(t)[p] == Replaced(View(s), oldAddr, newAddr)[p]
      {
      }
    }
  }

  datatype Event<C> =
    | Set(port: uint16, addr: uint32, c: C)
    | Replace(oldAddr: uint32, newAddr: uint32)
    | Delete(port: uint16)

  /**
   A run so far: the cells, the plain map built from the same calls, the addresses replaced while
   they had a cell, and the addresses put in their place.
   */
  datatype History<C> = History(cells: Cells<C>, plain: map<uint16, uint32>, retired: set<uint32>, targets: set<uint32>)

  /** A replaced address is not set or replaced again, and what replaced it is not replaced in turn. */
  predicate Admissible<C(==)>(h: History<C>, ev: Event<C>) {
    match ev
    case Set(_, addr, c) => c !in h.cells.val && addr !in h.retired
    case Replace(o, _) => o !in h.retired && o !in h.targets
    case Delete(_) => true
  }

  function Step<C>(h: History<C>, ev: Event<C>): History<C> {
    match ev
    case Set(port, addr, c) => h.(cells := SetStep(h.cells, port, addr, c), plain := h.plain[port := addr])
    case Replace(o, n) =>
      History(ReplaceStep(h.cells, o, n), Replaced(h.plain, o, n),
              if o in h.cells.rm then h.retired + {o} else h.retired,
              if o in h.cells.rm then h.targets + {n} else h.targets)
    case Delete(port) => h.(cells := DeleteStep(h.cells, port), plain := h.plain - {port})
  }

  function Run<C(==)>(evs: seq<Event<C>>): Option<History<C>> {
    if evs == [] then Some(History(Init(), map[], {}, {}))
    else
      var before := Run(evs[..|evs| - 1]);
      if before.None? || !Admissible(before.value, evs[|evs| - 1]) then None
      else Some(Step(before.value, evs[|evs| - 1]))
  }

  predicate Filed<C(==)>(s: Cells<C>, c: C) {
    exists a :: a in s.rm && s.rm[a] == c
  }

  /** A cell in use is filed under an address it holds, or under a replaced one whose replacement it holds. */
  ghost predicate Consistent<C>(h: History<C>) {
    && Wf(h.cells)
    && View(h.cells) == h.plain
    && (forall p :: p in h.cells.im ==> Filed(h.cells, h.cells.im[p]))
    && (forall a :: a in h.cells.rm ==>
          var held := h.cells.val[h.cells.rm[a]];
          if a in h.retired then held in h.targets else held == a)
  }

  lemma SetConsistent<C>(h: History<C>, port: uint16, addr: uint32, c: C)
    requires Consistent(h) && c !in h.cells.val && addr !in h.retired
    ensures Consistent(Step(h, Set(port, addr, c)))
  {
    SetRefinesIff(h.cells, port, addr, c);
    var t := SetStep(h.cells, port, addr, c);
    assert addr in t.rm && t.im[port] == t.rm[addr];
    forall p | p in t.im
      ensures Filed(t, t.im[p])
    {
      if p != port {
        var a :| a in h.cells.rm && h.cells.rm[a] == h.cells.im[p];
        assert a in t.rm && t.rm[a] == t.im[p];
      }
    }
  }

  lemma ReplaceConsistent<C>(h: History<C>, o: uint32, n: uint32)
    requires Consistent(h) && o !in h.retired && o !in h.targets
    ensures Consistent(Step(h, Event<C>.Replace(o, n)))
  {
  }

  lemma DeleteConsistent<C>(h: History<C>, port: uint16)
    requires Consistent(h)
    ensures Consistent(Step(h, Event<C>.Delete(port)))
  {
  }

  /** Over every admissible run the shared cells stand for the plain map built by the same calls. */
  lemma {:induction false} RefinesPlainMap<C>(evs: seq<Event<C>>)
    requires Run(evs).Some?
    ensures Consistent(Run(evs).value)
  {
    if evs == [] {
      assert View(Init<C>()) == map[];
    } else {
      var n := |evs| - 1;
      RefinesPlainMap(evs[..n]);
      var h := Run(evs[..n]).value;
      match evs[n]
      case Set(port, addr, c) => SetConsistent(h, port, addr, c);
      case Replace(a, b) => ReplaceConsistent(h, a, b);
      case Delete(port) => DeleteConsistent(h, port);
    }
  }

  /**
   Neither condition holds of every run: once `a` was replaced by `b`, setting a port to `a` gives it
   `b`, and replacing `b` leaves the port at `b`.
   */
  lemma {:induction false} ReplacedAddressReturns<C>(p: uint16, q: uint16, a: uint32, b: uint32, d: uint32, c: C, e: C)
    requires p != q && a != b && b != d && c != e
    ensures var s := ReplaceStep(SetStep(Init<C>(), p, a, c), a, b);
            && Wf(s) && View(s) == map[p := b]
            && View(SetStep(s, q, a, e)) == map[p := b, q := b]
            && View(ReplaceStep(s, b, d)) == map[p := b]
  {
  }
}
