/**
 The flow dispatcher as a state machine: the ring of container connections, the flow table and the
 goroutines that watch assigned flows.  Every method, and every firing of a watcher, is one step.
 An element and the container registered with it share one identity, the order of registration.
 */
module FlowSpec {
  import opened Words
  import opened RingSeq

  datatype Conn = NilConn | Conn(socket: nat)

  /**
   `fluxes` and `maxFluxes` belong to the container; `hasContainer` and `hasMap` say that the element
   still points at its container and at the flow table.
   */
  datatype Elem =
    Elem(conn: Conn, ports: set<uint16>, hasContainer: bool, hasMap: bool, fluxes: int8, maxFluxes: int8)

  /**
   A goroutine waiting on its ticker.  One started by the `Delete` of an element reaches the flow table
   through the pointer of that element, `via`; one started by `Get` has the table itself, and forgets the
   flow's container when it expires.
   */
  datatype Watcher = Watcher(birth: nat, elem: nat, crc: uint16, timeout: int, via: Option<nat>)

  datatype State = State(
    elems: seq<Elem>,
    ring: seq<nat>,
    cursor: Option<nat>,
    crc2conn: map<uint16, Conn>,
    crc2lock: map<uint16, nat>,
    usage: map<uint16, int>,
    crcContainer: map<uint16, nat>,
    watchers: set<Watcher>,
    births: nat,
    sems: nat,
    fluxMaxAge: int)

  /** Nanoseconds given to a migrated flow. */
  const MIGRATION_AGE := 500_000

  function Init(fluxMaxAge: int): State {
    State([], [], None, map[], map[], map[], map[], {}, 0, 0, fluxMaxAge)
  }

  function IncFluxes(f: int8): int8 {
    Wrap8(f + 1)
  }

  function DecFluxes(f: int8): int8 {
    if f > 1 then f - 1 else 0
  }

  /** Every identity held anywhere names a registered element, a started watcher or an issued semaphore. */
  predicate InRange(s: State) {
    && NoDup(s.ring)
    && (forall e :: e in s.ring ==> e < |s.elems|)
    && (s.cursor.Some? ==> s.cursor.value < |s.elems|)
    && (forall w :: w in s.watchers ==> w.elem < |s.elems| && w.birth < s.births)
    && (forall w :: w in s.watchers && w.via.Some? ==> w.via.value < |s.elems|)
    && (forall crc :: crc in s.crcContainer ==> s.crcContainer[crc] < |s.elems|)
    && (forall crc :: crc in s.crc2lock ==> s.crc2lock[crc] < s.sems)
  }

  function AddStep(s: State, conn: Conn, maxFluxes: int8): State {
    s.(elems := s.elems + [Elem(conn, {}, true, true, 0, maxFluxes)],
       ring := s.ring + [|s.elems|],
       cursor := if s.ring == [] then Some(|s.elems|) else s.cursor)
  }

  predicate Hit(s: State, crc: uint16)
    requires InRange(s)
  {
    && crc in s.crc2conn
    && crc in s.crcContainer
    && s.elems[s.crcContainer[crc]].fluxes <= s.elems[s.crcContainer[crc]].maxFluxes
  }

  /** The flow table after a miss was given to element `c`. */
  function Assign(s: State, crc: uint16, c: nat): State
    requires c < |s.elems|
  {
    var el := s.elems[c];
    s.(elems := s.elems[c := el.(ports := el.ports + {crc}, fluxes := IncFluxes(el.fluxes))],
       crc2conn := s.crc2conn[crc := el.conn],
       crc2lock := s.crc2lock[crc := s.sems],
       crcContainer := s.crcContainer[crc := c],
       watchers := s.watchers + {Watcher(s.births, c, crc, s.fluxMaxAge, None)},
       births := s.births + 1,
       sems := s.sems + 1)
  }

  datatype GetResult = GetPanic | Got(s: State, conn: Conn, sem: Option<nat>)

  function GetStep(s: State, crc: uint16, now: int): GetResult
    requires InRange(s)
  {
    var t := s.(usage := s.usage[crc := now]);
    if Hit(s, crc) then
      Got(t, s.crc2conn[crc], Lookup(s.crc2lock, crc))
    else if s.cursor.None? || !s.elems[s.cursor.value].hasContainer then
      GetPanic
    else
      var c := s.cursor.value;
      Got(Assign(t.(cursor := Succ(s.ring, c)), crc, c), s.elems[c].conn, Some(s.sems))
  }

  /** The watcher can reach the flow table. */
  predicate ReachesMap(s: State, w: Watcher)
    requires InRange(s) && w in s.watchers
  {
    w.via.Some? ==> s.elems[w.via.value].hasMap
  }

  /** The flow of a watcher forgotten, and the watcher gone. */
  function Expire(s: State, w: Watcher): State
    requires w.elem < |s.elems|
  {
    var el := s.elems[w.elem];
    s.(elems := s.elems[w.elem := el.(fluxes := DecFluxes(el.fluxes))],
       crc2conn := s.crc2conn - {w.crc},
       crcContainer := if w.via.None? then s.crcContainer - {w.crc} else s.crcContainer,
       watchers := s.watchers - {w})
  }

  /**
   One tick of a watcher; `None` when it dereferences nil: the table pointer it reads through, on any
   tick, or the container of its element, when the flow has expired.
   */
  function TickStep(s: State, w: Watcher, now: int): Option<State>
    requires InRange(s) && w in s.watchers
  {
    if !ReachesMap(s, w) then
      None
    else if w.crc in s.usage && now - s.usage[w.crc] > w.timeout then
      if s.elems[w.elem].hasContainer then Some(Expire(s, w)) else None
    else
      Some(s)
  }

  /** The first critical section of `Delete`, and the nil links left by the second. */
  function Unlink(s: State, e: nat): State {
    s.(ring := Without(s.ring, e),
       cursor := if |s.ring| > 1 && s.cursor == Some(e) then Succ(s.ring, e) else s.cursor)
  }

  function MigrationWatchers(birth: nat, e: nat, r: nat, ports: set<uint16>): set<Watcher> {
    set p | p in ports :: Watcher(birth, r, p, MIGRATION_AGE, Some(e))
  }

  /** The flows of `e` handed to `r`, which the table names from now on for every port `e` ever had. */
  function Migrate(s: State, e: nat, r: nat): State
    requires e < |s.elems| && r < |s.elems|
  {
    var ports := s.elems[e].ports;
    var el := s.elems[r];
    s.(elems := s.elems[r := el.(ports := el.ports + ports, fluxes := Wrap8(el.fluxes + |ports|))],
       crc2conn := s.crc2conn + map p | p in ports :: el.conn,
       watchers := s.watchers + MigrationWatchers(s.births, e, r, ports),
       births := s.births + 1)
  }

  /** What a repeated `Delete` does: the element's own pointers become nil. */
  function Abandon(s: State, e: nat): State
    requires e < |s.elems|
  {
    s.(elems := s.elems[e := s.elems[e].(conn := NilConn, hasContainer := false, hasMap := false)])
  }

  /** The rest of a first `Delete`, once the element is out of the ring. */
  function Vacate(s: State, e: nat): Option<State>
    requires e < |s.elems|
  {
    var el := s.elems[e];
    if el.ports == {} then
      Some(s.(elems := s.elems[e := el.(hasContainer := false)]))
    else if s.cursor.None? || s.cursor.value >= |s.elems| || !s.elems[s.cursor.value].hasContainer || !el.hasMap then
      None
    else
      Some(Migrate(s.(cursor := Succ(s.ring, s.cursor.value)), e, s.cursor.value))
  }

  function DeleteStep(s: State, e: nat): Option<State>
    requires InRange(s) && e < |s.elems|
  {
    if e in s.ring then Vacate(Unlink(s, e), e) else Some(Abandon(s, e))
  }

  datatype Event =
    | Add(conn: Conn, maxFluxes: int8)
    | Get(crc: uint16, now: int)
    | Tick(w: Watcher, now: int)
    | Stop(w: Watcher)
    | Delete(e: nat)

  /**
   A ticker fires only for a watcher still outstanding, a watcher stops only once its element's stop
   channel is closed, and `Delete` is called on registered elements.  A watcher of a deleted element
   whose ticker is ready too may take either branch of its select.
   */
  predicate Enabled(s: State, ev: Event) {
    match ev
    case Tick(w, _) => w in s.watchers
    case Stop(w) => w in s.watchers && w.elem !in s.ring
    case Delete(e) => e < |s.elems|
    case _ => true
  }

  /** `None` is a panic, which ends the process. */
  function Step(s: State, ev: Event): (r: Option<State>)
    requires InRange(s) && Enabled(s, ev)
  {
    match ev
    case Add(conn, maxFluxes) => Some(AddStep(s, conn, maxFluxes))
    case Get(crc, now) => var g := GetStep(s, crc, now); if g.Got? then Some(g.s) else None
    case Tick(w, now) => TickStep(s, w, now)
    case Stop(w) => Some(s.(watchers := s.watchers - {w}))
    case Delete(e) => DeleteStep(s, e)
  }
}
