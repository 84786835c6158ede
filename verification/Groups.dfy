/** The groups of containers that carry out the requests of scale-down passes. */
module Groups {
  import opened Words
  import ScaleDown

  /** A group of containers created together: how many it keeps going, and the ids it created. */
  datatype Group = Group(size: int, ids: set<uint16>)

  datatype Event = Create(id: uint16) | Receive(id: uint16)

  predicate Accepts(g: Group, ev: Event) {
    ev.Receive? && ev.id in g.ids
  }

  function Step(g: Group, ev: Event): Group {
    match ev
    case Create(id) => g.(ids := g.ids + {id})
    case Receive(id) => if id in g.ids then Group(g.size - 1, g.ids - {id}) else g
  }

  function Run(g: Group, evs: seq<Event>): Group {
    if evs == [] then g else Step(Run(g, evs[..|evs| - 1]), evs[|evs| - 1])
  }

  /** How many requests the group accepted, in all or for one id. */
  function Accepted(g: Group, evs: seq<Event>, only: Option<uint16>): nat {
    if evs == [] then 0
    else
      var init, last := evs[..|evs| - 1], evs[|evs| - 1];
      Accepted(g, init, only) +
      if Accepts(Run(g, init), last) && (only.None? || only.value == last.id) then 1 else 0
  }

  function Creations(evs: seq<Event>, id: uint16): nat {
    if evs == [] then 0
    else Creations(evs[..|evs| - 1], id) + if evs[|evs| - 1] == Create(id) then 1 else 0
  }

  /** The size falls by exactly one per accepted request, and an id is accepted at most once per creation. */
  lemma {:induction false} Conserves(g: Group, evs: seq<Event>, id: uint16)
    ensures Run(g, evs).size == g.size - Accepted(g, evs, None)
    ensures Accepted(g, evs, Some(id)) + (if id in Run(g, evs).ids then 1 else 0) <=
            Creations(evs, id) + (if id in g.ids then 1 else 0)
  {
    if evs == [] {
    } else {
      Conserves(g, evs[..|evs| - 1], id);
    }
  }

  /** The id was created, or there to begin with, and has not been received since. */
  predicate Outstanding(g: Group, evs: seq<Event>, id: uint16) {
    if evs == [] then id in g.ids
    else
      var last := evs[|evs| - 1];
      last == Create(id) || (last != Receive(id) && Outstanding(g, evs[..|evs| - 1], id))
  }

  /** A group accepts exactly the ids it created and has not been asked for since. */
  lemma {:induction false} AcceptsIff(g: Group, evs: seq<Event>, id: uint16)
    ensures Accepts(Run(g, evs), Receive(id)) <==> Outstanding(g, evs, id)
  {
    if evs == [] {
    } else {
      AcceptsIff(g, evs[..|evs| - 1], id);
    }
  }

  class DropFunction {
    var size: int
    var cntIdMap: set<uint16>

    ghost function Model(): Group
      reads this
    {
      Group(size, cntIdMap)
    }

    constructor (size: int)
      ensures Model() == Group(size, {})
    {
      this.size, cntIdMap := size, {};
    }

    /**
     The branch of the select that takes an id from the removal channel; `ok` is false when the element
     of an accepted id is no longer registered, and using it is a nil dereference.
     */
    method Receive(cntId: uint16, cep: ScaleDown.ConnElemProvisioner) returns (accepted: bool, ok: bool)
      modifies this, cep`c2p
      ensures accepted <==> Accepts(old(Model()), Event.Receive(cntId))
      ensures ok <==> !accepted || cntId in cep.c2e
      ensures ok ==> Model() == Step(old(Model()), Event.Receive(cntId))
      ensures cep.c2p == if accepted then old(cep.c2p) - {cntId} else old(cep.c2p)
    {
      accepted, ok := cntId in cntIdMap, true;
      if accepted {
        cntIdMap := cntIdMap - {cntId};
        cep.c2p := cep.c2p - {cntId};
        if cntId !in cep.c2e {
          return accepted, false;
        }
        size := size - 1;
      }
    }

    /** The creation loop, for the ids the random source yields. */
    method CreateAll(cntIds: seq<uint16>)
      modifies `cntIdMap
      ensures Model() == Run(old(Model()), Creating(cntIds))
      ensures size == old(size) && cntIdMap == old(cntIdMap) + set id | id in cntIds
    {
      for i := 0 to |cntIds|
        invariant Model() == Run(old(Model()), Creating(cntIds[..i]))
        invariant cntIdMap == old(cntIdMap) + set id | id in cntIds[..i]
      {
        assert Creating(cntIds[..i + 1])[..i] == Creating(cntIds[..i]);
        assert cntIds[..i + 1] == cntIds[..i] + [cntIds[i]];
        cntIdMap := cntIdMap + {cntIds[i]};
      }
      assert cntIds[..|cntIds|] == cntIds;
    }
  }

  function Creating(ids: seq<uint16>): seq<Event> {
    seq(|ids|, i requires 0 <= i < |ids| => Create(ids[i]))
  }
}
