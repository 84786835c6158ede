/** A scale-down pass over the provisioner's maps, interleaved with the groups that receive its requests. */
module ScaleDown {
  import opened Words
  import opened RingSeq

  /** A removal channel; `queue` holds the ids sent and not yet received. */
  datatype Chan = Chan(capacity: nat, queue: seq<uint16>)

  /** Elements and instances by container id; instances with a nil channel are not in `chans`. */
  datatype Registry = Registry(c2e: map<uint16, nat>, c2p: map<uint16, nat>, chans: map<nat, Chan>)

  /** The elements that are alive, and those whose container is a replica. */
  datatype Fleet = Fleet(alive: set<nat>, repl: set<nat>)

  predicate HasChan(r: Registry, id: uint16) {
    id in r.c2p && r.c2p[id] in r.chans
  }

  /** A live element that is no replica and has a channel to post to. */
  predicate Postable(r: Registry, f: Fleet, id: uint16) {
    id in r.c2e && r.c2e[id] in f.alive && r.c2e[id] !in f.repl && HasChan(r, id)
  }

  /** A dead element, or a live one that is no replica and has no channel to post to. */
  predicate Purgeable(r: Registry, f: Fleet, id: uint16) {
    id in r.c2e && (r.c2e[id] !in f.alive || (r.c2e[id] !in f.repl && !HasChan(r, id)))
  }

  /** A send blocks on a full channel, and for ever on an unbuffered one nobody receives from. */
  predicate CanPost(r: Registry, id: uint16)
    requires HasChan(r, id)
  {
    |r.chans[r.c2p[id]].queue| < r.chans[r.c2p[id]].capacity
  }

  predicate WithinCapacity(r: Registry) {
    forall i :: i in r.chans ==> |r.chans[i].queue| <= r.chans[i].capacity
  }

  function Post(r: Registry, id: uint16): Registry
    requires HasChan(r, id)
  {
    var i := r.c2p[id];
    r.(chans := r.chans[i := r.chans[i].(queue := r.chans[i].queue + [id])])
  }

  /** The ids of `posted` that went to instance `inst`. */
  function SentTo(posted: seq<uint16>, c2p: map<uint16, nat>, inst: nat): seq<uint16> {
    if posted == [] then []
    else
      var init, id := posted[..|posted| - 1], posted[|posted| - 1];
      SentTo(init, c2p, inst) + if Lookup(c2p, id) == Some(inst) then [id] else []
  }

  /** What the first turns of a pass choose to post; `seen[k]` is what turn `k` finds alive. */
  function Chosen(r: Registry, order: seq<uint16>, seen: seq<Fleet>): seq<uint16>
    requires |seen| <= |order|
    decreases |seen|
  {
    if seen == [] then []
    else
      var k := |seen| - 1;
      Chosen(r, order, seen[..k]) + if Postable(r, seen[k], order[k]) then [order[k]] else []
  }

  /** What they purge. */
  function Purged(r: Registry, order: seq<uint16>, seen: seq<Fleet>): set<uint16>
    requires |seen| <= |order|
    decreases |seen|
  {
    if seen == [] then {}
    else
      var k := |seen| - 1;
      Purged(r, order, seen[..k]) + if Purgeable(r, seen[k], order[k]) then {order[k]} else {}
  }

  /** What is chosen was visited and fit to be posted at its turn, comes once, and in the order of the visits. */
  lemma {:induction false} ChosenIff(r: Registry, order: seq<uint16>, seen: seq<Fleet>, k: nat)
    requires NoDup(order) && |seen| <= |order| && k < |order|
    ensures NoDup(Chosen(r, order, seen))
    ensures order[k] in Chosen(r, order, seen) <==> k < |seen| && Postable(r, seen[k], order[k])
    ensures order[k] in Purged(r, order, seen) <==> k < |seen| && Purgeable(r, seen[k], order[k])
    decreases |seen|
  {
    if seen == [] {
    } else {
      var n := |seen| - 1;
      ChosenIff(r, order, seen[..n], k);
      ChosenIff(r, order, seen[..n], n);
      AppendNoDup(Chosen(r, order, seen[..n]), order[n]);
    }
  }

  /**
   A pass under way, and the groups.  The pass holds the read lock of the registry throughout; a group
   that has accepted an id, or creates containers, waits for the write lock.  `taken` is what the
   groups have received.
   */
  datatype Race = Race(
    reg: Registry,
    order: seq<uint16>,
    seen: seq<Fleet>,
    sending: Option<uint16>,
    posted: seq<uint16>,
    left: nat,
    groups: map<nat, set<uint16>>,
    waiting: set<nat>,
    taken: map<nat, seq<uint16>>)

  /** `busy` are the groups already about to ask for the lock when the pass takes it. */
  function Start(r: Registry, order: seq<uint16>, want: nat, groups: map<nat, set<uint16>>, busy: set<nat>): Race {
    Race(r, order, [], None, [], want, groups, busy, map i | i in r.chans :: [])
  }

  datatype Event =
    /** The pass looks at the next entry, finding alive what the fleet says. */
    | Turn(f: Fleet)
    /** The send it is at goes through. */
    | Send
    /** A group takes the next id from its channel. */
    | Receive(inst: nat)
    /** A group starts to create containers. */
    | Create(inst: nat)

  predicate Enabled(s: Race, ev: Event) {
    match ev
    case Turn(_) => s.sending.None? && s.left > 0 && |s.seen| < |s.order|
    case Send => s.sending.Some? && s.left > 0 && HasChan(s.reg, s.sending.value) && CanPost(s.reg, s.sending.value)
    case Receive(i) =>
      i in s.groups && i !in s.waiting && i in s.reg.chans && i in s.taken && s.reg.chans[i].queue != []
    case Create(i) => i in s.groups && i !in s.waiting
  }

  function TurnStep(s: Race, f: Fleet): Race
    requires Enabled(s, Turn(f))
  {
    var id := s.order[|s.seen|];
    s.(seen := s.seen + [f],
       sending := if Postable(s.reg, f, id) then Some(id) else None,
       reg := if Purgeable(s.reg, f, id) then s.reg.(c2e := s.reg.c2e - {id}) else s.reg)
  }

  function ReceiveStep(s: Race, i: nat): Race
    requires Enabled(s, Receive(i))
  {
    var c := s.reg.chans[i];
    var id := c.queue[0];
    s.(reg := s.reg.(chans := s.reg.chans[i := c.(queue := c.queue[1..])]),
       taken := s.taken[i := s.taken[i] + [id]],
       groups := s.groups[i := s.groups[i] - {id}],
       waiting := if id in s.groups[i] then s.waiting + {i} else s.waiting)
  }

  function Step(s: Race, ev: Event): Race
    requires Enabled(s, ev)
  {
    match ev
    case Turn(f) => TurnStep(s, f)
    case Send => s.(reg := Post(s.reg, s.sending.value), posted := s.posted + [s.sending.value],
                    sending := None, left := s.left - 1)
    case Receive(i) => ReceiveStep(s, i)
    case Create(i) => s.(waiting := s.waiting + {i})
  }

  function Run(s: Race, evs: seq<Event>): Option<Race> {
    if evs == [] then Some(s)
    else
      var before := Run(s, evs[..|evs| - 1]);
      if before.None? || !Enabled(before.value, evs[|evs| - 1]) then None
      else Some(Step(before.value, evs[|evs| - 1]))
  }

  /** The id a pass is about to send, if any. */
  function Pending(s: Race): seq<uint16> {
    if s.sending.Some? then [s.sending.value] else []
  }

  /** The pass has posted, or is about to, what its turns chose, and has purged what they found purgeable. */
  predicate OnPlan(r: Registry, want: nat, s: Race) {
    && |s.seen| <= |s.order|
    && s.reg.c2p == r.c2p
    && s.reg.chans.Keys == r.chans.Keys
    && s.reg.c2e == r.c2e - Purged(r, s.order, s.seen)
    && s.posted + Pending(s) == Chosen(r, s.order, s.seen)
    && |s.posted| + s.left == want
    && (s.sending.Some? ==> s.left > 0 && HasChan(r, s.sending.value))
  }

  /** Every id sent to a channel, before the pass or by it, is in the channel or was received, in order. */
  predicate Conserved(r: Registry, s: Race) {
    && s.reg.chans.Keys == r.chans.Keys == s.taken.Keys
    && WithinCapacity(s.reg)
    && forall i :: i in r.chans ==>
        && s.reg.chans[i].capacity == r.chans[i].capacity
        && s.taken[i] + s.reg.chans[i].queue == r.chans[i].queue + SentTo(s.posted, r.c2p, i)
  }

  /** An entry not visited yet is as it was. */
  lemma SameBeforeTurn(r: Registry, want: nat, s: Race, f: Fleet)
    requires OnPlan(r, want, s) && NoDup(s.order) && |s.seen| < |s.order|
    ensures var id := s.order[|s.seen|];
            && (Postable(s.reg, f, id) <==> Postable(r, f, id))
            && (Purgeable(s.reg, f, id) <==> Purgeable(r, f, id))
  {
    ChosenIff(r, s.order, s.seen, |s.seen|);
  }

  /** What one more turn chooses and purges. */
  lemma OneMoreTurn(r: Registry, order: seq<uint16>, seen: seq<Fleet>, f: Fleet)
    requires |seen| < |order|
    ensures var id := order[|seen|];
            && Chosen(r, order, seen + [f]) ==
               Chosen(r, order, seen) + (if Postable(r, f, id) then [id] else [])
            && Purged(r, order, seen + [f]) ==
               Purged(r, order, seen) + (if Purgeable(r, f, id) then {id} else {})
  {
    assert (seen + [f])[..|seen|] == seen;
  }

  lemma PurgeMore(c2e: map<uint16, nat>, gone: set<uint16>, more: set<uint16>)
    ensures c2e - gone - more == c2e - (gone + more)
  {
  }

  lemma TurnOnPlan(r: Registry, want: nat, s: Race, f: Fleet)
    requires OnPlan(r, want, s) && NoDup(s.order) && Enabled(s, Turn(f))
    ensures OnPlan(r, want, TurnStep(s, f))
  {
    var id := s.order[|s.seen|];
    SameBeforeTurn(r, want, s, f);
    OneMoreTurn(r, s.order, s.seen, f);
    PurgeMore(r.c2e, Purged(r, s.order, s.seen), if Purgeable(r, f, id) then {id} else {});
    var t := TurnStep(s, f);
    assert t.reg.c2e == s.reg.c2e - if Purgeable(r, f, id) then {id} else {};
    assert s.posted + [] == s.posted;
  }

  lemma SendOnPlan(r: Registry, want: nat, s: Race)
    requires OnPlan(r, want, s) && Enabled(s, Send)
    ensures OnPlan(r, want, Step(s, Send))
  {
    assert s.posted + [s.sending.value] + [] == s.posted + [s.sending.value];
  }

  lemma SendConserved(r: Registry, want: nat, s: Race)
    requires OnPlan(r, want, s) && Conserved(r, s) && Enabled(s, Send)
    ensures Conserved(r, Step(s, Send))
  {
    var id := s.sending.value;
    assert (s.posted + [id])[..|s.posted|] == s.posted;
    var t := Step(s, Send);
    forall i | i in r.chans
      ensures t.taken[i] + t.reg.chans[i].queue == r.chans[i].queue + SentTo(t.posted, r.c2p, i)
    {
      var q, more := s.reg.chans[i].queue, if r.c2p[id] == i then [id] else [];
      assert SentTo(t.posted, r.c2p, i) == SentTo(s.posted, r.c2p, i) + more;
      assert s.taken[i] + (q + more) == s.taken[i] + q + more;
    }
  }

  lemma ReceiveConserved(r: Registry, s: Race, i: nat)
    requires Conserved(r, s) && Enabled(s, Receive(i))
    ensures Conserved(r, Step(s, Receive(i)))
  {
    var q := s.reg.chans[i].queue;
    assert s.taken[i] + q == s.taken[i] + [q[0]] + q[1..];
  }

  lemma StepSafe(r: Registry, want: nat, s: Race, ev: Event)
    requires OnPlan(r, want, s) && Conserved(r, s) && NoDup(s.order) && Enabled(s, ev)
    ensures OnPlan(r, want, Step(s, ev)) && Conserved(r, Step(s, ev))
  {
    match ev
    case Turn(f) => TurnOnPlan(r, want, s, f);
    case Send =>
      SendOnPlan(r, want, s);
      SendConserved(r, want, s);
    case Receive(i) => ReceiveConserved(r, s, i);
    case Create(_) =>
  }

  /**
   For every iteration order, whatever dies during the pass and however the groups receive meanwhile:
   the pass posts at most `want` ids, exactly those its turns chose up to the one it is at, purges
   exactly what its turns found purgeable, and no id sent to a channel is lost or reordered.
   */
  lemma {:induction false} PassSafe(r: Registry, order: seq<uint16>, want: nat, groups: map<nat, set<uint16>>,
                                    busy: set<nat>, evs: seq<Event>, s: Race)
    requires NoDup(order) && WithinCapacity(r) && Run(Start(r, order, want, groups, busy), evs) == Some(s)
    ensures s.order == order && OnPlan(r, want, s) && Conserved(r, s)
  {
    if evs == [] {
    } else {
      var n := |evs| - 1;
      var before := Run(Start(r, order, want, groups, busy), evs[..n]).value;
      PassSafe(r, order, want, groups, busy, evs[..n], before);
      StepSafe(r, want, before, evs[n]);
    }
  }

  /** The pass is at a send on a full channel, and whoever should receive waits for the lock the pass holds. */
  predicate Deadlocked(s: Race) {
    && s.sending.Some?
    && HasChan(s.reg, s.sending.value)
    && !CanPost(s.reg, s.sending.value)
    && (s.reg.c2p[s.sending.value] !in s.groups || s.reg.c2p[s.sending.value] in s.waiting)
  }

  /** Whatever the others do then, the pass stays where it is. */
  lemma {:induction false} DeadlockLasts(s: Race, evs: seq<Event>, t: Race)
    requires Deadlocked(s) && Run(s, evs) == Some(t)
    ensures Deadlocked(t) && t.seen == s.seen && t.posted == s.posted
  {
    if evs == [] {
    } else {
      DeadlockLasts(s, evs[..|evs| - 1], Run(s, evs[..|evs| - 1]).value);
    }
  }

  /** The pass has still a send or a turn before it. */
  predicate Unfinished(s: Race) {
    s.sending.Some? || (s.left > 0 && |s.seen| < |s.order|)
  }

  /** Some schedule takes the pass further. */
  ghost predicate CanGoOn(s: Race) {
    exists evs, t :: Run(s, evs) == Some(t) && (|t.posted| > |s.posted| || |t.seen| > |s.seen|)
  }

  lemma RunOne(s: Race, ev: Event)
    requires Enabled(s, ev)
    ensures Run(s, [ev]) == Some(Step(s, ev))
  {
    assert [ev][..0] == [];
  }

  lemma RunTwo(s: Race, a: Event, b: Event)
    requires Enabled(s, a) && Enabled(Step(s, a), b)
    ensures Run(s, [a, b]) == Some(Step(Step(s, a), b))
  {
    RunOne(s, a);
    assert [a, b][..1] == [a];
  }

  /** A pass that is not finished can go on exactly when it is not deadlocked. */
  lemma {:induction false} GoesOnIff(r: Registry, want: nat, s: Race)
    requires OnPlan(r, want, s) && Conserved(r, s) && Unfinished(s)
    requires forall i :: i in s.groups && i in s.reg.chans ==> s.reg.chans[i].capacity > 0
    ensures CanGoOn(s) <==> !Deadlocked(s)
  {
    if Deadlocked(s) {
      forall evs, t | Run(s, evs) == Some(t)
        ensures |t.posted| == |s.posted| && |t.seen| == |s.seen|
      {
        DeadlockLasts(s, evs, t);
      }
    } else if s.sending.None? {
      RunOne(s, Turn(Fleet({}, {})));
      assert |TurnStep(s, Fleet({}, {})).seen| > |s.seen|;
    } else if CanPost(s.reg, s.sending.value) {
      RunOne(s, Send);
      assert |Step(s, Send).posted| > |s.posted|;
    } else {
      SendAfterReceipt(s, s.reg.c2p[s.sending.value]);
    }
  }

  /** A group that is free makes room. */
  lemma SendAfterReceipt(s: Race, i: nat)
    requires s.sending.Some? && s.left > 0 && HasChan(s.reg, s.sending.value) && s.reg.c2p[s.sending.value] == i
    requires i in s.groups && i !in s.waiting && i in s.taken
    requires 0 < s.reg.chans[i].capacity == |s.reg.chans[i].queue|
    ensures CanGoOn(s)
  {
    RunTwo(s, Receive(i), Send);
    assert |Step(Step(s, Receive(i)), Send).posted| > |s.posted|;
  }

  lemma Assoc(a: seq<uint16>, b: seq<uint16>, c: seq<uint16>)
    ensures a + b + c == a + (b + c)
  {
  }

  lemma SentToSnoc(a: seq<uint16>, id: uint16, c2p: map<uint16, nat>, i: nat)
    ensures SentTo(a + [id], c2p, i) == SentTo(a, c2p, i) + if Lookup(c2p, id) == Some(i) then [id] else []
  {
    assert (a + [id])[..|a|] == a;
  }

  lemma SplitLast(a: seq<uint16>, b: seq<uint16>)
    requires b != []
    ensures b == b[..|b| - 1] + [b[|b| - 1]] && a + b == a + b[..|b| - 1] + [b[|b| - 1]]
  {
  }

  lemma {:induction false} SentToJoin(a: seq<uint16>, b: seq<uint16>, c2p: map<uint16, nat>, i: nat)
    ensures SentTo(a + b, c2p, i) == SentTo(a, c2p, i) + SentTo(b, c2p, i)
  {
    if b == [] {
      assert a + b == a;
    } else {
      var init, last := b[..|b| - 1], b[|b| - 1];
      var more := if Lookup(c2p, last) == Some(i) then [last] else [];
      SplitLast(a, b);
      SentToJoin(a, init, c2p, i);
      assert SentTo(b, c2p, i) == SentTo(init, c2p, i) + more by { SentToSnoc(init, last, c2p, i); }
      assert SentTo(a + b, c2p, i) == SentTo(a + init, c2p, i) + more by { SentToSnoc(a + init, last, c2p, i); }
      Assoc(SentTo(a, c2p, i), SentTo(init, c2p, i), more);
    }
  }

  /** What the pass could still send. */
  function Ahead(s: Race): seq<uint16>
    requires |s.seen| <= |s.order|
  {
    Pending(s) + s.order[|s.seen|..]
  }

  /** Every channel has room for all that could still be sent to it. */
  predicate Roomy(s: Race) {
    && |s.seen| <= |s.order|
    && forall i :: i in s.reg.chans ==>
        |s.reg.chans[i].queue| + |SentTo(Ahead(s), s.reg.c2p, i)| <= s.reg.chans[i].capacity
  }

  lemma SentToHead(id: uint16, rest: seq<uint16>, c2p: map<uint16, nat>, i: nat)
    ensures |SentTo([id] + rest, c2p, i)| == |SentTo(rest, c2p, i)| + if Lookup(c2p, id) == Some(i) then 1 else 0
  {
    SentToJoin([id], rest, c2p, i);
    assert SentTo([id], c2p, i) == SentTo([], c2p, i) + if Lookup(c2p, id) == Some(i) then [id] else [];
  }

  lemma TurnRoomy(s: Race, f: Fleet)
    requires Roomy(s) && Enabled(s, Turn(f))
    ensures Roomy(TurnStep(s, f))
  {
    var id, rest := s.order[|s.seen|], s.order[|s.seen| + 1..];
    assert Ahead(s) == [id] + rest;
    assert Ahead(TurnStep(s, f)) == if Postable(s.reg, f, id) then [id] + rest else rest;
    forall i | i in s.reg.chans
      ensures |SentTo(Ahead(TurnStep(s, f)), s.reg.c2p, i)| <= |SentTo(Ahead(s), s.reg.c2p, i)|
    {
      SentToHead(id, rest, s.reg.c2p, i);
    }
  }

  lemma SendRoomy(s: Race)
    requires Roomy(s) && Enabled(s, Send)
    ensures Roomy(Step(s, Send))
  {
    var id, rest, t := s.sending.value, s.order[|s.seen|..], Step(s, Send);
    assert Ahead(s) == [id] + rest && Ahead(t) == rest;
    forall i | i in s.reg.chans
      ensures |t.reg.chans[i].queue| + |SentTo(rest, s.reg.c2p, i)| <= t.reg.chans[i].capacity
    {
      SentToHead(id, rest, s.reg.c2p, i);
    }
  }

  lemma StepRoomy(s: Race, ev: Event)
    requires Roomy(s) && Enabled(s, ev)
    ensures Roomy(Step(s, ev))
  {
    match ev
    case Turn(f) => TurnRoomy(s, f);
    case Send => SendRoomy(s);
    case Receive(_) => assert Ahead(Step(s, ev)) == Ahead(s);
    case Create(_) => assert Ahead(Step(s, ev)) == Ahead(s);
  }

  lemma RoomyNotDeadlocked(s: Race)
    requires Roomy(s)
    ensures !Deadlocked(s)
  {
    if s.sending.Some? && HasChan(s.reg, s.sending.value) {
      SentToHead(s.sending.value, s.order[|s.seen|..], s.reg.c2p, s.reg.c2p[s.sending.value]);
    }
  }

  /** With such room no schedule deadlocks the pass. */
  lemma {:induction false} RoomyNeverDeadlocks(s: Race, evs: seq<Event>, t: Race)
    requires Roomy(s) && Run(s, evs) == Some(t)
    ensures Roomy(t) && !Deadlocked(t)
  {
    if evs == [] {
    } else {
      var n := |evs| - 1;
      var before := Run(s, evs[..n]).value;
      RoomyNeverDeadlocks(s, evs[..n], before);
      StepRoomy(before, evs[n]);
    }
    RoomyNotDeadlocked(t);
  }

  lemma Then(s: Race, evs: seq<Event>, t: Race, ev: Event) returns (evs': seq<Event>, u: Race)
    requires Run(s, evs) == Some(t) && Enabled(t, ev)
    ensures Run(s, evs') == Some(u) && u == Step(t, ev)
  {
    assert (evs + [ev])[..|evs|] == evs;
    return evs + [ev], Step(t, ev);
  }

  function AddInstance(r: Registry, id: uint16, inst: nat): Registry {
    r.(c2p := r.c2p[id := inst])
  }

  function AddConnElem(r: Registry, id: uint16, e: nat): Registry {
    r.(c2e := r.c2e[id := e])
  }

  /** A group of `n` once it has created containers 1 to `k` and they have registered. */
  function Grown(n: nat, k: uint16): Registry {
    if k == 0 then Registry(map[], map[], map[0 := Chan(n + 1, [])])
    else AddConnElem(AddInstance(Grown(n, k - 1), k, 0), k, k)
  }

  /** Containers 1 to `m` are registered with the one group, whose channel has room for `n + 1` ids. */
  predicate Holds(r: Registry, n: nat, m: uint16, queue: seq<uint16>) {
    && (forall id: uint16 :: 1 <= id <= m ==> id in r.c2e && r.c2e[id] == id && id in r.c2p && r.c2p[id] == 0)
    && r.chans == map[0 := Chan(n + 1, queue)]
  }

  lemma {:induction false} GrownHolds(n: nat, k: uint16)
    ensures Holds(Grown(n, k), n, k, [])
  {
    if k == 0 {
    } else {
      GrownHolds(n, k - 1);
    }
  }

  function Ids(m: uint16): seq<uint16> {
    seq(m, i requires 0 <= i < m => i + 1)
  }

  function Everyone(m: uint16): Fleet {
    Fleet(set id | id in Ids(m) :: id as nat, {})
  }

  /** The pass over them has had `k` turns, and is at the send of an id or between two turns. */
  ghost predicate At(s: Race, n: nat, m: uint16, queue: seq<uint16>, k: nat, sending: Option<uint16>, left: nat) {
    && Holds(s.reg, n, m, queue)
    && s.order == Ids(m)
    && |s.seen| == k
    && s.sending == sending
    && s.left == left
    && 0 in s.groups
  }

  lemma TurnAt(s: Race, n: nat, m: uint16, queue: seq<uint16>, k: uint16, left: nat)
    requires At(s, n, m, queue, k, None, left) && k < m && left > 0
    ensures Enabled(s, Turn(Everyone(m))) && At(Step(s, Turn(Everyone(m))), n, m, queue, k + 1, Some(k + 1), left)
  {
    assert s.order[k] == k + 1 && k + 1 in Ids(m);
    assert Postable(s.reg, Everyone(m), k + 1) && !Purgeable(s.reg, Everyone(m), k + 1);
  }

  lemma SendAt(s: Race, n: nat, m: uint16, queue: seq<uint16>, k: uint16, left: nat)
    requires At(s, n, m, queue, k, Some(k), left) && 1 <= k <= m && left > 0 && |queue| < n + 1
    ensures Enabled(s, Send) && At(Step(s, Send), n, m, queue + [k], k, None, left - 1)
  {
    assert Step(s, Send).reg.chans == map[0 := Chan(n + 1, queue + [k])];
  }

  lemma {:induction false} TurnAndSend(s0: Race, evs: seq<Event>, s: Race, n: nat, m: uint16, queue: seq<uint16>,
                                       k: uint16, left: nat)
      returns (evs': seq<Event>, t: Race)
    requires Run(s0, evs) == Some(s) && At(s, n, m, queue, k, None, left) && k < m && left > 0 && |queue| < n + 1
    ensures Run(s0, evs') == Some(t) && At(t, n, m, queue + [k + 1], k + 1, None, left - 1)
    ensures t.groups == s.groups && t.taken == s.taken && t.waiting == s.waiting
  {
    TurnAt(s, n, m, queue, k, left);
    evs', t := Then(s0, evs, s, Turn(Everyone(m)));
    SendAt(t, n, m, queue, k + 1, left);
    evs', t := Then(s0, evs', t, Send);
  }

  lemma ReceiveAt(s: Race, n: nat, m: uint16, id: uint16, k: nat, left: nat)
    requires At(s, n, m, [id], k, None, left) && id in s.groups[0] && 0 !in s.waiting && 0 in s.taken
    ensures Enabled(s, Receive(0))
    ensures At(Step(s, Receive(0)), n, m, [], k, None, left) && 0 in Step(s, Receive(0)).waiting
  {
    assert [id][1..] == [];
    assert Step(s, Receive(0)).reg.chans == map[0 := Chan(n + 1, [])];
  }

  /** The pass goes on until the channel is full, with nobody receiving. */
  lemma {:induction false} Fill(s0: Race, evs: seq<Event>, s: Race, n: nat, m: uint16, queue: seq<uint16>, k: uint16,
                                left: nat)
      returns (evs': seq<Event>, t: Race, full: seq<uint16>)
    requires Run(s0, evs) == Some(s) && At(s, n, m, queue, k, None, left)
    requires |queue| <= n + 1 && k + (n + 1 - |queue|) <= m && n + 1 - |queue| <= left
    ensures Run(s0, evs') == Some(t) && t.waiting == s.waiting && |full| == n + 1
    ensures At(t, n, m, full, k + (n + 1 - |queue|), None, left - (n + 1 - |queue|))
    decreases n + 1 - |queue|
  {
    if |queue| == n + 1 {
      evs', t, full := evs, s, queue;
    } else {
      evs', t := TurnAndSend(s0, evs, s, n, m, queue, k, left);
      evs', t, full := Fill(s0, evs', t, n, m, queue + [k + 1], k + 1, left - 1);
    }
  }

  /**
   A group of `n` that has created its containers twice, as it does when its timer fires before the first
   ones are gone.  It accepts the first id of a pass and waits for the lock; the pass fills its channel
   and waits for the group.
   */
  lemma {:induction false} DeadlockReached(n: nat, ids: set<uint16>) returns (evs: seq<Event>, s: Race)
    requires 3 <= n && 2 * n < 65536 && 1 in ids
    ensures Run(Start(Grown(n, 2 * n), Ids(2 * n), n + 3, map[0 := ids], {}), evs) == Some(s) && Deadlocked(s)
  {
    var m: uint16 := 2 * n;
    var s0 := Start(Grown(n, m), Ids(m), n + 3, map[0 := ids], {});
    GrownHolds(n, m);
    evs, s := TurnAndSend(s0, [], s0, n, m, [], 0, n + 3);
    assert [] + [0 + 1] == [1];
    ReceiveAt(s, n, m, 1, 1, n + 2);
    evs, s := Then(s0, evs, s, Receive(0));
    var queue;
    evs, s, queue := Fill(s0, evs, s, n, m, [], 1, n + 2);
    TurnAt(s, n, m, queue, n + 2, 1);
    evs, s := Then(s0, evs, s, Turn(Everyone(m)));
  }

  /** An id can be purged after it was posted and before it is received: its element died in between. */
  lemma {:induction false} PurgedBeforeReceipt(r: Registry, id: uint16, f: Fleet, later: Fleet)
      returns (s: Race, t: Race)
    requires Postable(r, f, id) && CanPost(r, id) && r.c2e[id] !in later.alive
    ensures Run(Start(r, [id], 1, map[], {}), [Turn(f), Send]) == Some(s)
    ensures Run(Start(s.reg, [id], 1, map[], {}), [Turn(later)]) == Some(t)
    ensures r.c2p[id] in t.reg.chans && id in t.reg.chans[r.c2p[id]].queue && id !in t.reg.c2e
  {
    var s0 := Start(r, [id], 1, map[], {});
    RunTwo(s0, Turn(f), Send);
    s := Step(Step(s0, Turn(f)), Send);
    var t0 := Start(s.reg, [id], 1, map[], {});
    RunOne(t0, Turn(later));
    t := Step(t0, Turn(later));
  }

  class ConnElemProvisioner {
    var c2e: map<uint16, nat>
    var c2p: map<uint16, nat>
    var chans: map<nat, Chan>

    ghost function Model(): Registry
      reads this
    {
      Registry(c2e, c2p, chans)
    }

    constructor ()
      ensures Model() == Registry(map[], map[], map[])
    {
      c2e, c2p, chans := map[], map[], map[];
    }

    /** One turn of the loop, up to its send, for the id the map iteration yields. */
    method Visit(ghost s: Race, id: uint16, f: Fleet) returns (ghost t: Race, send: bool)
      requires s.reg == Model() && Enabled(s, Turn(f)) && s.order[|s.seen|] == id
      modifies `c2e
      ensures t == Step(s, Turn(f)) && t.reg == Model()
      ensures t.sending == if send then Some(id) else None
    {
      t, send := Step(s, Turn(f)), false;
      if id in c2e {
        var e := c2e[id];
        if e in f.alive && e !in f.repl {
          if id !in c2p || c2p[id] !in chans {
            c2e := c2e - {id};
          } else {
            send := true;
          }
        } else if e !in f.alive {
          c2e := c2e - {id};
        }
      }
    }

    /** The send; false when the channel is full, where it blocks. */
    method TrySend(ghost s: Race, id: uint16) returns (ghost t: Race, sent: bool)
      requires s.reg == Model() && s.sending == Some(id) && HasChan(s.reg, id) && s.left > 0
      modifies `chans
      ensures sent <==> Enabled(s, Send)
      ensures t == (if sent then Step(s, Send) else s) && t.reg == Model()
    {
      var c := chans[c2p[id]];
      t, sent := s, |c.queue| < c.capacity;
      if sent {
        t := Step(s, Send);
        chans := chans[c2p[id] := c.(queue := c.queue + [id])];
      }
    }

    /** What the groups do while a send blocks: group `i`, if it is free, takes the next id of its channel. */
    method Receipt(ghost s0: Race, ghost evs: seq<Event>, ghost s: Race, i: nat, groups: map<nat, set<uint16>>,
                   waiting: set<nat>)
        returns (ghost evs': seq<Event>, ghost t: Race, groups': map<nat, set<uint16>>, waiting': set<nat>)
      requires Run(s0, evs) == Some(s) && s.reg == Model() && s.groups == groups && s.waiting == waiting
      requires s.taken.Keys == chans.Keys
      modifies `chans
      ensures Run(s0, evs') == Some(t) && t.reg == Model() && t.groups == groups' && t.waiting == waiting'
      ensures t == if Enabled(s, Receive(i)) then Step(s, Receive(i)) else s
      ensures t.taken.Keys == chans.Keys
    {
      evs', t, groups', waiting' := evs, s, groups, waiting;
      if i in groups && i !in waiting && i in chans && chans[i].queue != [] {
        evs', t := Then(s0, evs, s, Receive(i));
        var c := chans[i];
        var id := c.queue[0];
        chans := chans[i := c.(queue := c.queue[1..])];
        if id in groups[i] {
          waiting' := waiting + {i};
        }
        groups' := groups[i := groups[i] - {id}];
      }
    }

    /** A send that waits for room: before each new attempt the next group of `receipts` may receive. */
    method SendWhenRoom(ghost s0: Race, ghost evs: seq<Event>, ghost s: Race, id: uint16,
                        groups: map<nat, set<uint16>>, waiting: set<nat>, receipts: seq<nat>)
        returns (ghost evs': seq<Event>, ghost t: Race, groups': map<nat, set<uint16>>, waiting': set<nat>,
                 receipts': seq<nat>, sent: bool)
      requires Run(s0, evs) == Some(s) && s.reg == Model() && s.groups == groups && s.waiting == waiting
      requires s.taken.Keys == chans.Keys && s.sending == Some(id) && HasChan(s.reg, id) && s.left > 0
      modifies `chans
      ensures Run(s0, evs') == Some(t) && t.reg == Model() && t.groups == groups' && t.waiting == waiting'
      ensures t.taken.Keys == chans.Keys && t.order == s.order && t.seen == s.seen
      ensures t.posted == (if sent then s.posted + [id] else s.posted) && |t.posted| + t.left == |s.posted| + s.left
      ensures if sent then t.sending == None else t.sending == Some(id) && !Enabled(t, Send) && receipts' == []
    {
      evs', t, groups', waiting', receipts' := evs, s, groups, waiting, receipts;
      while !CanPost(Registry(c2e, c2p, chans), id) && receipts' != []
        invariant Run(s0, evs') == Some(t) && t.reg == Model() && t.groups == groups' && t.waiting == waiting'
        invariant t.order == s.order && t.seen == s.seen && t.posted == s.posted && t.left == s.left
        invariant t.sending == Some(id) && HasChan(t.reg, id) && t.taken.Keys == chans.Keys
        decreases |receipts'|
      {
        evs', t, groups', waiting' := Receipt(s0, evs', t, receipts'[0], groups', waiting');
        receipts' := receipts'[1..];
      }
      ghost var u;
      u, sent := TrySend(t, id);
      if sent {
        evs', t := Then(s0, evs', t, Send);
      }
    }

    /** A whole turn, with its send if it has one. */
    method TakeTurn(ghost s0: Race, ghost evs: seq<Event>, ghost s: Race, id: uint16, f: Fleet,
                    groups: map<nat, set<uint16>>, waiting: set<nat>, receipts: seq<nat>)
        returns (ghost evs': seq<Event>, ghost t: Race, groups': map<nat, set<uint16>>, waiting': set<nat>,
                 receipts': seq<nat>, sent: bool, blocked: bool)
      requires Run(s0, evs) == Some(s) && s.reg == Model() && s.groups == groups && s.waiting == waiting
      requires s.taken.Keys == chans.Keys && Enabled(s, Turn(f)) && s.order[|s.seen|] == id
      modifies `c2e, `chans
      ensures Run(s0, evs') == Some(t) && t.reg == Model() && t.groups == groups' && t.waiting == waiting'
      ensures t.taken.Keys == chans.Keys && t.order == s.order && t.seen == s.seen + [f]
      ensures t.posted == (if sent then s.posted + [id] else s.posted) && |t.posted| + t.left == |s.posted| + s.left
      ensures if blocked then t.sending == Some(id) && !Enabled(t, Send) else t.sending == None
    {
      var send;
      evs', t := Then(s0, evs, s, Turn(f));
      t, send := Visit(s, id, f);
      groups', waiting', receipts', sent, blocked := groups, waiting, receipts, false, false;
      if send {
        evs', t, groups', waiting', receipts', sent := SendWhenRoom(s0, evs', t, id, groups, waiting, receipts);
        blocked := !sent;
      }
    }

    /**
     The scale-down branch of `InstantiateFunctions`, in the order the map iteration happens to take.
     `receipts` says which groups receive, in turn, whenever a send blocks; when they are used up and it
     still blocks, so does the method.
     */
    method ScaleDown(order: seq<uint16>, fleets: seq<Fleet>, delta: int, groups: map<nat, set<uint16>>, busy: set<nat>,
                     receipts: seq<nat>)
        returns (ghost evs: seq<Event>, ghost s: Race, posted: seq<uint16>, blocked: bool)
      requires delta < 0 && |fleets| == |order|
      modifies `c2e, `chans
      ensures Run(Start(old(Model()), order, -delta, groups, busy), evs) == Some(s)
      ensures s.reg == Model() && s.posted == posted && s.seen <= fleets
      ensures if blocked then s.sending.Some? && !Enabled(s, Send) else !Unfinished(s)
    {
      ghost var s0 := Start(Model(), order, -delta, groups, busy);
      evs, s, posted, blocked := [], s0, [], false;
      var gs, waiting, left, k := groups, busy, receipts, 0;
      while k < |order| && delta + |posted| < 0
        invariant Run(s0, evs) == Some(s) && s.reg == Model() && s.order == order && s.sending == None
        invariant s.groups == gs && s.waiting == waiting && s.taken.Keys == chans.Keys
        invariant s.posted == posted && |posted| + s.left == -delta
        invariant k <= |order| && s.seen == fleets[..k]
      {
        var sent;
        assert fleets[..k + 1] == fleets[..k] + [fleets[k]];
        evs, s, gs, waiting, left, sent, blocked :=
          TakeTurn(s0, evs, s, order[k], fleets[k], gs, waiting, left);
        if sent {
          posted := posted + [order[k]];
        }
        if blocked {
          return;
        }
        k := k + 1;
      }
    }
  }
}
