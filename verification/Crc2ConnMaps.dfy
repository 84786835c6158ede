/** The flow table over the linked pool: each method is one step of the flow state machine. */
module Crc2ConnMaps {
  import opened Words
  import opened RingSeq
  import opened FlowSpec
  import opened ConnPools
  import FlowRun

  /** What `Get` returns; the handle of the semaphore stands for the semaphore. */
  datatype Answer = Panicked | Answered(conn: Conn, sem: Option<nat>)

  class Crc2ConnMap {
    const connPool: ConnPool
    const fluxMaxAge: int

    /** What each registered element carries, by id, and the container registered with it. */
    var elems: seq<Elem>

    var crc2conn: map<uint16, Conn>
    var crc2lock: map<uint16, nat>
    var crcFluxUsageMap: map<uint16, int>
    var crcContainer: map<uint16, nat>

    /** The goroutines watching flows, and how many starts and semaphores there have been. */
    var watchers: set<Watcher>
    var births: nat
    var sems: nat

    ghost function Model(): State
      reads this, connPool`Members, connPool`currElem
    {
      State(elems, Ids(connPool.Members),
            if connPool.currElem == null then None else Some(connPool.currElem.id),
            crc2conn, crc2lock, crcFluxUsageMap, crcContainer, watchers, births, sems, fluxMaxAge)
    }

    ghost predicate Wired()
      reads this, connPool, connPool.Repr, connPool.Members
    {
      connPool.Valid() && |connPool.All| == |elems|
    }

    ghost predicate Valid()
      reads this, connPool, connPool.Repr, connPool.Members
    {
      Wired() && FlowRun.Sound(Model())
    }

    constructor (fluxMaxAge: int)
      ensures Valid() && fresh(connPool) && Model() == Init(fluxMaxAge)
    {
      this.fluxMaxAge := fluxMaxAge;
      elems := [];
      crc2conn, crc2lock, crcFluxUsageMap, crcContainer := map[], map[], map[], map[];
      watchers, births, sems := {}, 0, 0;
      connPool := new ConnPool();
      new;
      FlowRun.InitSound(fluxMaxAge);
    }

    /** `Next` on the pool, by id; `None` is the nil dereference of an unset cursor. */
    method Advance() returns (c: Option<nat>)
      requires Wired()
      modifies connPool`currElem
      ensures Wired()
      ensures c == old(Model()).cursor
      ensures c.Some? ==> c.value < |elems| && Model() == old(Model()).(cursor := Succ(old(Model()).ring, c.value))
    {
      if connPool.currElem != null {
        connPool.IdsAgree(connPool.currElem);
      }
      var cpe := connPool.Next();
      c := if cpe == null then None else Some(cpe.id);
    }

    /** `AddCrc` on the chosen element and the critical section that enters the flow in the table. */
    method Enter(c: nat, crc: uint16)
      requires c < |elems|
      modifies `elems, `crc2conn, `crc2lock, `crcContainer, `sems
      ensures var s := old(Model());
              Model() == s.(elems := s.elems[c := s.elems[c].(ports := s.elems[c].ports + {crc})],
                            crc2conn := s.crc2conn[crc := s.elems[c].conn],
                            crc2lock := s.crc2lock[crc := s.sems],
                            crcContainer := s.crcContainer[crc := c],
                            sems := s.sems + 1)
    {
      elems := elems[c := elems[c].(ports := elems[c].ports + {crc})];
      crc2conn := crc2conn[crc := elems[c].conn];
      crc2lock := crc2lock[crc := sems];
      crcContainer := crcContainer[crc := c];
      sems := sems + 1;
    }

    /** `IncFluxes` on the container of an element, and the goroutine that watches the flow. */
    method Watch(c: nat, crc: uint16)
      requires c < |elems|
      modifies `elems, `watchers, `births
      ensures var s := old(Model());
              Model() == s.(elems := s.elems[c := s.elems[c].(fluxes := IncFluxes(s.elems[c].fluxes))],
                            watchers := s.watchers + {Watcher(s.births, c, crc, s.fluxMaxAge, None)},
                            births := s.births + 1)
    {
      elems := elems[c := elems[c].(fluxes := IncFluxes(elems[c].fluxes))];
      watchers := watchers + {Watcher(births, c, crc, fluxMaxAge, None)};
      births := births + 1;
    }

    /** The part of `Get` after `Next` returned element `c`. */
    method Place(c: nat, crc: uint16) returns (r: Answer)
      requires c < |elems|
      modifies `elems, `crc2conn, `crc2lock, `crcContainer, `sems, `watchers, `births
      ensures |elems| == old(|elems|)
      ensures r.Panicked? <==> !old(elems)[c].hasContainer
      ensures r.Answered? ==> Model() == Assign(old(Model()), crc, c)
      ensures r.Answered? ==> r == Answered(old(elems)[c].conn, Some(old(sems)))
    {
      Enter(c, crc);
      if !elems[c].hasContainer {
        return Panicked;
      }
      Watch(c, crc);
      r := Answered(elems[c].conn, Some(sems - 1));
    }

    /** The part of `Get` after a miss. */
    method Miss(crc: uint16) returns (r: Answer)
      requires Wired()
      modifies this, connPool`currElem
      ensures r.Panicked? <==> (var s := old(Model());
                                s.cursor.None? || s.cursor.value >= |s.elems| || !s.elems[s.cursor.value].hasContainer)
      ensures r.Answered? ==> Wired()
      ensures r.Answered? ==> var s := old(Model());
                              var c := s.cursor.value;
                              && Model() == Assign(s.(cursor := Succ(s.ring, c)), crc, c)
                              && r == Answered(s.elems[c].conn, Some(s.sems))
    {
      var c := Advance();
      if c.None? {
        return Panicked;
      }
      r := Place(c.value, crc);
    }

    /** Looks the flow up, assigning it to the next element of the ring when the table does not answer. */
    method Get(crc: uint16, now: int) returns (r: Answer)
      requires Valid()
      modifies this, connPool`currElem
      ensures r.Panicked? <==> GetStep(old(Model()), crc, now).GetPanic?
      ensures r.Answered? ==> Valid() && GetStep(old(Model()), crc, now) == Got(Model(), r.conn, r.sem)
      ensures r.Answered? ==> crcFluxUsageMap == old(crcFluxUsageMap)[crc := now]
    {
      ghost var s := Model();
      var hit := && crc in crc2conn && crc in crcContainer
                 && elems[crcContainer[crc]].fluxes <= elems[crcContainer[crc]].maxFluxes;
      var lock := Lookup(crc2lock, crc);
      crcFluxUsageMap := crcFluxUsageMap[crc := now];
      if hit {
        r := Answered(crc2conn[crc], lock);
      } else {
        r := Miss(crc);
      }
      if r.Answered? {
        FlowRun.GetSound(s, crc, now);
      }
    }
  
    /** `DecFluxes`, and the critical section that forgets the flow. */
    method Forget(w: Watcher)
      requires w.elem < |elems|
      modifies `elems, `crc2conn, `crcContainer, `watchers
      ensures Model() == Expire(old(Model()), w)
    {
      elems := elems[w.elem := elems[w.elem].(fluxes := DecFluxes(elems[w.elem].fluxes))];
      crc2conn := crc2conn - {w.crc};
      if w.via.None? {
        crcContainer := crcContainer - {w.crc};
      }
      watchers := watchers - {w};
    }

    /** One tick of the goroutine `w`; false is the nil dereference of a dropped table pointer or container. */
    method Tick(w: Watcher, now: int) returns (ok: bool)
      requires Valid() && w in watchers
      modifies `elems, `crc2conn, `crcContainer, `watchers
      ensures ok <==> TickStep(old(Model()), w, now).Some?
      ensures ok ==> Valid() && Some(Model()) == TickStep(old(Model()), w, now)
    {
      ghost var s := Model();
      if w.via.Some? && !elems[w.via.value].hasMap {
        return false;
      }
      ok := true;
      if w.crc in crcFluxUsageMap {
        var deltaT := now - crcFluxUsageMap[w.crc];
        if deltaT > w.timeout {
          if !elems[w.elem].hasContainer {
            return false;
          }
          Forget(w);
        }
      }
      FlowRun.TickSound(s, w, now);
    }

    method Insert(conn: Conn, maxFluxes: int8) returns (elem: ConnPoolElem)
      requires Wired()
      modifies `elems, connPool, connPool.Repr`next, connPool.Repr`prev
      ensures Wired() && elem in connPool.Repr && elem.id == |old(elems)|
      ensures Model() == AddStep(old(Model()), conn, maxFluxes)
    {
      ghost var members := connPool.Members;
      var id := |elems|;
      elems := elems + [Elem(conn, {}, true, true, 0, maxFluxes)];
      elem := connPool.Add(id);
      IdsSnoc(members, elem);
    }

    /** Registration of a container: a new element at the tail of the pool. */
    method Add(conn: Conn, maxFluxes: int8) returns (elem: ConnPoolElem)
      requires Valid()
      modifies `elems, connPool, connPool.Repr`next, connPool.Repr`prev
      ensures Valid() && elem in connPool.Repr && elem.id == |old(elems)|
      ensures |elems| == elem.id + 1 && elems[elem.id].conn == conn && elems[elem.id].maxFluxes == maxFluxes
      ensures Model() == AddStep(old(Model()), conn, maxFluxes)
    {
      FlowRun.AddSound(Model(), conn, maxFluxes);
      elem := Insert(conn, maxFluxes);
    }

    /** One flow of a removed element handed to `r`. */
    method RerouteOne(port: uint16, e: nat, r: nat, birth: nat)
      requires r < |elems|
      modifies `elems, `crc2conn, `watchers
      ensures crc2conn == old(crc2conn)[port := old(elems)[r].conn]
      ensures elems == old(elems)[r := old(elems)[r].(fluxes := IncFluxes(old(elems)[r].fluxes))]
      ensures watchers == old(watchers) + {Watcher(birth, r, port, MIGRATION_AGE, Some(e))}
    {
      crc2conn := crc2conn[port := elems[r].conn];
      elems := elems[r := elems[r].(fluxes := IncFluxes(elems[r].fluxes))];
      watchers := watchers + {Watcher(birth, r, port, MIGRATION_AGE, Some(e))};
    }

    /** The loop over the ports of a removed element: reroute, count and watch each of its flows. */
    method Reroute(e: nat, r: nat)
      requires e < |elems| && r < |elems|
      modifies `elems, `crc2conn, `watchers, `births
      ensures elems == old(elems)[r := Counting(old(elems)[r], old(elems)[e].ports)]
      ensures crc2conn == old(crc2conn) + To(old(elems)[e].ports, old(elems)[r].conn)
      ensures watchers == old(watchers) + MigrationWatchers(old(births), e, r, old(elems)[e].ports)
      ensures births == old(births) + 1
    {
      ghost var el, table, ws := elems[r], crc2conn, watchers;
      var ports, birth := elems[e].ports, births;
      var todo := ports;
      births := births + 1;
      ghost var done: set<uint16> := {};
      while todo != {}
        invariant ports == done + todo && done !! todo
        invariant births == birth + 1
        invariant elems == old(elems)[r := Counting(el, done)]
        invariant crc2conn == table + To(done, el.conn)
        invariant watchers == ws + MigrationWatchers(birth, e, r, done)
        decreases |todo|
      {
        var port :| port in todo;
        OneMoreCount(el, done, port);
        OneMoreRoute(table, el.conn, done, port);
        OneMoreWatcher(ws, birth, e, r, done, port);
        RerouteOne(port, e, r, birth);
        todo, done := todo - {port}, done + {port};
      }
    }

    /** The second loop: the flows join the ports of `r`. */
    method MovePorts(e: nat, r: nat)
      requires e < |elems| && r < |elems|
      modifies `elems
      ensures elems == old(elems)[r := old(elems)[r].(ports := old(elems)[r].ports + old(elems)[e].ports)]
    {
      var todo := elems[e].ports;
      ghost var el, ports, done := elems[r], todo, {};
      while todo != {}
        invariant ports == done + todo
        invariant elems == old(elems)[r := el.(ports := el.ports + done)]
        decreases |todo|
      {
        var key :| key in todo;
        elems := elems[r := elems[r].(ports := elems[r].ports + {key})];
        assert el.ports + done + {key} == el.ports + (done + {key});
        todo, done := todo - {key}, done + {key};
      }
    }

    /** The migration of every flow of the removed element `e` to `r`. */
    method HandOver(e: nat, r: nat)
      requires e < |elems| && r < |elems|
      modifies `elems, `crc2conn, `watchers, `births
      ensures Model() == Migrate(old(Model()), e, r)
    {
      Reroute(e, r);
      MovePorts(e, r);
    }

    /** Everything a first `Delete` does once the element is out of the ring; false is a nil dereference. */
    method Retire(e: nat) returns (ok: bool)
      requires Wired() && e < |elems|
      modifies this, connPool`currElem
      ensures ok <==> Vacate(old(Model()), e).Some?
      ensures ok ==> Wired() && Vacate(old(Model()), e) == Some(Model())
    {
      if elems[e].ports == {} {
        elems := elems[e := elems[e].(hasContainer := false)];
        return true;
      }
      var r := Advance();
      if r.None? || !elems[r.value].hasContainer || !elems[e].hasMap {
        return false;
      }
      HandOver(e, r.value);
      return true;
    }

    /** `Unlink` on the pool, by id. */
    method Detach(ce: ConnPoolElem) returns (alive: bool)
      requires Wired() && ce in connPool.Repr
      modifies connPool`headElem, connPool`tailElem, connPool`currElem, connPool`Members, connPool`Pos
      modifies connPool.Repr`next, connPool.Repr`prev, ce`stopped
      ensures Wired()
      ensures alive <==> ce.id in old(Model()).ring
      ensures Model() == if alive then Unlink(old(Model()), ce.id) else old(Model())
    {
      connPool.IdsAgree(ce);
      alive := connPool.Unlink(ce);
    }

    method Remove(ce: ConnPoolElem) returns (ok: bool)
      requires Wired() && InRange(Model()) && ce in connPool.Repr
      modifies this, connPool`headElem, connPool`tailElem, connPool`currElem, connPool`Members, connPool`Pos
      modifies connPool.Repr`next, connPool.Repr`prev, ce`stopped
      ensures ok <==> DeleteStep(old(Model()), ce.id).Some?
      ensures ok ==> Wired() && DeleteStep(old(Model()), ce.id) == Some(Model())
    {
      var alive := Detach(ce);
      if alive {
        ok := Retire(ce.id);
      } else {
        elems := elems[ce.id := elems[ce.id].(conn := NilConn, hasContainer := false, hasMap := false)];
        ok := true;
      }
    }

    /** Removes an element and migrates its flows; a second call only drops what the element still points at. */
    method Delete(ce: ConnPoolElem)
      requires Valid() && ce in connPool.Repr
      modifies this, connPool`headElem, connPool`tailElem, connPool`currElem, connPool`Members, connPool`Pos
      modifies connPool.Repr`next, connPool.Repr`prev, ce`stopped
      ensures Valid()
      ensures DeleteStep(old(Model()), ce.id) == Some(Model())
    {
      FlowRun.DeleteTotal(Model(), ce.id);
      var ok := Remove(ce);
    }
  }

  function To(ports: set<uint16>, conn: Conn): map<uint16, Conn> {
    map p | p in ports :: conn
  }

  /** An element whose container counts the flows in `ports` on top of its own. */
  function Counting(el: Elem, ports: set<uint16>): Elem {
    el.(fluxes := Wrap8(el.fluxes + |ports|))
  }

  lemma OneMoreCount(el: Elem, done: set<uint16>, port: uint16)
    requires port !in done
    ensures Counting(el, done + {port}) == Counting(el, done).(fluxes := IncFluxes(Counting(el, done).fluxes))
  {
    Wrap8Twice(el.fluxes + |done|, 1);
  }

  lemma OneMoreRoute(table: map<uint16, Conn>, conn: Conn, done: set<uint16>, port: uint16)
    ensures table + To(done + {port}, conn) == (table + To(done, conn))[port := conn]
  {
  }

  lemma OneMoreWatcher(ws: set<Watcher>, birth: nat, e: nat, r: nat, done: set<uint16>, port: uint16)
    ensures ws + MigrationWatchers(birth, e, r, done + {port}) ==
            ws + MigrationWatchers(birth, e, r, done) + {Watcher(birth, r, port, MIGRATION_AGE, Some(e))}
  {
  }
}
