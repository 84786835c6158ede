/** `PortCntMapping`: ports to container addresses through shared cells, with the timers that expire them. */
module PortCntMappings {
  import opened Words
  import opened AddressCells
  import LeaseTimers

  /** The target of the source's `*uint32`. */
  class Cell {
    var addr: uint32

    constructor (addr: uint32)
      ensures this.addr == addr
    {
      this.addr := addr;
    }
  }

  class PortCntMapping {
    var im: map<uint16, Cell>
    var rm: map<uint32, Cell>
    var lum: map<uint16, int>
    const leaseTimeout: int
    /** The goroutines of `time.AfterFunc`. */
    var timers: set<LeaseTimers.Timer>
    var births: nat

    /** Every cell ever allocated here. */
    ghost var Repr: set<Cell>
    /** When each port was last set. */
    ghost var LastSet: map<uint16, int>

    ghost function Model(): Cells<Cell>
      reads this, Repr
    {
      Cells(im, rm, map c | c in Repr :: c.addr)
    }

    /** The mappings as the timers see them at time `now`. */
    ghost function Timing(now: int): LeaseTimers.Clock
      reads this
    {
      LeaseTimers.Clock(now, im.Keys, lum, timers, births, LastSet)
    }

    ghost predicate Valid()
      reads this, Repr
    {
      Wf(Model())
    }

    constructor (timeout: int)
      ensures Valid() && Model() == Init() && leaseTimeout == timeout
      ensures forall now :: Timing(now) == LeaseTimers.Init(now)
    {
      im, rm, lum, leaseTimeout, timers, births := map[], map[], map[], timeout, {}, 0;
      Repr, LastSet := {}, map[];
    }

    /** Zero stands for no mapping. */
    method Get(port: uint16) returns (addr: uint32)
      requires Valid()
      ensures addr == if port in View(Model()) then View(Model())[port] else 0
    {
      if port !in im {
        return 0;
      }
      return im[port].addr;
    }

    /** The port is pointed at the cell of the address, which is allocated when there is none. */
    method Point(port: uint16, addr: uint32)
      requires Valid()
      modifies `im, `rm, `Repr
      ensures Valid() && fresh(Repr - old(Repr)) && im.Keys == old(im.Keys) + {port}
      ensures addr in rm && (addr !in old(rm) ==> rm[addr] !in old(Repr))
      ensures Model() == SetStep(old(Model()), port, addr, rm[addr])
    {
      if addr in rm {
        im := im[port := rm[addr]];
      } else {
        var c := new Cell(addr);
        rm := rm[addr := c];
        im := im[port := c];
        Repr := Repr + {c};
      }
    }

    method Set(port: uint16, addr: uint32, now: int)
      requires Valid()
      modifies this
      ensures Valid() && fresh(Repr - old(Repr))
      ensures addr in rm && (addr !in old(rm) ==> rm[addr] !in old(Repr))
      ensures Model() == SetStep(old(Model()), port, addr, rm[addr])
      ensures Timing(now) == LeaseTimers.SetStep(old(Timing(now)), port, leaseTimeout)
    {
      Point(port, addr);
      lum := lum[port := now];
      timers := timers + {LeaseTimers.Timer(births, port, now + leaseTimeout, false)};
      births, LastSet := births + 1, LastSet[port := now];
    }

    method Replace(oldAddr: uint32, newAddr: uint32)
      requires Valid()
      modifies Repr
      ensures Valid() && Model() == ReplaceStep(old(Model()), oldAddr, newAddr)
    {
      if oldAddr in rm {
        assert rm[oldAddr] in Model().val;
        rm[oldAddr].addr := newAddr;
      }
    }

    method Delete(port: uint16)
      requires Valid()
      modifies `im
      ensures Valid() && Model() == DeleteStep(old(Model()), port)
      ensures forall now ::
                Timing(now) == LeaseTimers.Step(old(Timing(now)), LeaseTimers.Delete(port), leaseTimeout)
    {
      im := im - {port};
    }

    /** The look of a timer, under the read lock: the chain goes on to delete, or sleeps for another timeout. */
    method Look(t: LeaseTimers.Timer, now: int)
      requires Valid() && t in timers && !t.expiring
      modifies `timers
      ensures Valid() && Model() == old(Model())
      ensures Timing(now) == LeaseTimers.LookStep(old(Timing(now)), t, leaseTimeout)
    {
      if t.port !in lum || lum[t.port] + leaseTimeout < now {
        timers := timers - {t} + {t.(expiring := true)};
      } else {
        timers := timers - {t} + {t.(due := now + leaseTimeout)};
      }
    }

    /** The deletion under the write lock, which does not look again. */
    method Drop(t: LeaseTimers.Timer)
      requires Valid() && t in timers && t.expiring
      modifies `im, `lum, `timers
      ensures Valid() && Model() == DeleteStep(old(Model()), t.port)
      ensures forall now :: Timing(now) == LeaseTimers.DropStep(old(Timing(now)), t)
    {
      im := im - {t.port};
      lum := lum - {t.port};
      timers := timers - {t};
    }
  }
}
