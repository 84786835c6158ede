/** The circular doubly-linked pool of container connections, as linked objects. */
module ConnPools {
  import opened Words
  import opened RingSeq

  /** The links and the stop channel of a pool element; what it carries is kept by its id. */
  class ConnPoolElem {
    const id: nat
    var prev: ConnPoolElem?
    var next: ConnPoolElem?
    var stopped: bool

    constructor (id: nat)
      ensures this.id == id && prev == null && next == null && !stopped
    {
      this.id, prev, next, stopped := id, null, null, false;
    }

    predicate IsAlive()
      reads `prev
    {
      prev != null
    }
  }

  /** The element before position `i`, wrapping from the first to the last. */
  function Before<T>(s: seq<T>, i: nat): T
    requires i < |s|
  {
    if i == 0 then s[|s| - 1] else s[i - 1]
  }

  /** `pos` gives the one position of every element of `ms`. */
  ghost predicate Ranked(ms: seq<ConnPoolElem>, pos: map<ConnPoolElem, nat>) {
    && (forall e :: e in pos ==> pos[e] < |ms| && ms[pos[e]] == e)
    && (forall i :: 0 <= i < |ms| ==> ms[i] in pos && pos[ms[i]] == i)
  }

  ghost predicate NextLinked(ms: seq<ConnPoolElem>)
    reads ms`next
  {
    forall i {:trigger ms[i].next} :: 0 <= i < |ms| ==> ms[i].next == After(ms, i)
  }

  ghost predicate PrevLinked(ms: seq<ConnPoolElem>)
    reads ms`prev
  {
    forall i {:trigger ms[i].prev} :: 0 <= i < |ms| ==> ms[i].prev == Before(ms, i)
  }

  ghost predicate Running(ms: seq<ConnPoolElem>)
    reads ms`stopped
  {
    forall i {:trigger ms[i].stopped} :: 0 <= i < |ms| ==> !ms[i].stopped
  }

  predicate Dead(e: ConnPoolElem)
    reads e`next, e`prev, e`stopped
  {
    e.next == null && e.prev == null && e.stopped
  }

  /** The positions left once `ce` is cut out. */
  ghost function CutPos(pos: map<ConnPoolElem, nat>, ce: ConnPoolElem): map<ConnPoolElem, nat>
    requires ce in pos
  {
    map e | e in pos && e != ce && pos[e] != pos[ce] :: if pos[e] < pos[ce] then pos[e] else pos[e] - 1
  }

  lemma RankedCut(ms: seq<ConnPoolElem>, pos: map<ConnPoolElem, nat>, ce: ConnPoolElem)
    requires Ranked(ms, pos) && ce in pos
    ensures Ranked(Cut(ms, pos[ce]), CutPos(pos, ce))
    ensures CutPos(pos, ce).Keys == pos.Keys - {ce}
  {
  }

  lemma RankedSnoc(ms: seq<ConnPoolElem>, pos: map<ConnPoolElem, nat>, e: ConnPoolElem)
    requires Ranked(ms, pos) && e !in pos
    ensures Ranked(ms + [e], pos[e := |ms|])
  {
  }

  /** The ring as the state machine sees it. */
  ghost function Ids(ms: seq<ConnPoolElem>): (r: seq<nat>)
    ensures |r| == |ms|
    ensures forall i :: 0 <= i < |r| ==> r[i] == ms[i].id
  {
    seq(|ms|, i requires 0 <= i < |ms| => ms[i].id)
  }

  lemma IdsSnoc(ms: seq<ConnPoolElem>, e: ConnPoolElem)
    ensures Ids(ms + [e]) == Ids(ms) + [e.id]
  {
  }

  class ConnPool {
    var currElem: ConnPoolElem?
    var headElem: ConnPoolElem?
    var tailElem: ConnPoolElem?

    /** The members from head to tail with their positions. */
    ghost var Members: seq<ConnPoolElem>
    ghost var Pos: map<ConnPoolElem, nat>

    /** Every element ever added, in order of registration. */
    ghost var All: seq<ConnPoolElem>
    ghost var Repr: set<ConnPoolElem>

    ghost predicate Registered()
      reads this
    {
      && (forall i {:trigger All[i]} :: 0 <= i < |All| ==> All[i] in Repr && All[i].id == i)
      && (forall e :: e in Repr ==> e.id < |All| && All[e.id] == e)
      && Ranked(Members, Pos)
      && Pos.Keys <= Repr
    }

    ghost predicate Linked()
      reads this, Members`next, Members`prev, Members`stopped
    {
      && NextLinked(Members)
      && PrevLinked(Members)
      && Running(Members)
    }

    ghost predicate OthersDead()
      reads this, Repr`next, Repr`prev, Repr`stopped
    {
      forall e :: e in Repr && e !in Pos ==> Dead(e)
    }

    predicate EndsAt(ms: seq<ConnPoolElem>)
      reads this
    {
      if ms == [] then headElem == null && tailElem == null
      else headElem == ms[0] && tailElem == ms[|ms| - 1]
    }

    ghost predicate CursorIn(live: set<ConnPoolElem>)
      reads this
    {
      && (currElem != null ==> currElem in Repr)
      && (live != {} ==> currElem in live)
    }

    /** The links form one ring through the members and nothing else. */
    ghost predicate Valid()
      reads this, Repr`next, Repr`prev, Repr`stopped, Members`next, Members`prev, Members`stopped
    {
      Registered() && Linked() && OthersDead() && EndsAt(Members) && CursorIn(Pos.Keys)
    }

    constructor ()
      ensures Valid() && Members == [] && All == [] && currElem == null
    {
      currElem, headElem, tailElem := null, null, null;
      Members, Pos, All, Repr := [], map[], [], {};
    }

    /** `IsAlive` tells members from deleted elements. */
    lemma AliveIff(e: ConnPoolElem)
      requires Valid() && e in Repr
      ensures e.IsAlive() <==> e in Pos
      ensures e.IsAlive() <==> e.next != null
    {
    }

    /** The links of a member are its neighbours on the ring, both members. */
    lemma Neighbours(e: ConnPoolElem)
      requires Valid() && e in Pos
      ensures e.next == After(Members, Pos[e]) && e.next in Pos
      ensures e.prev == Before(Members, Pos[e]) && e.prev in Pos
      ensures e.next == e <==> |Members| == 1
    {
    }

    method LinkFirst(elem: ConnPoolElem)
      requires headElem == null
      modifies `headElem, `tailElem, `currElem, elem`next, elem`prev
      ensures NextLinked([elem]) && PrevLinked([elem]) && EndsAt([elem]) && currElem == elem
    {
      headElem := elem;
      tailElem := elem;
      elem.next := elem;
      elem.prev := elem;
      currElem := headElem;
    }

    /** The new element goes right after the tail and right before the head. */
    method LinkLast(elem: ConnPoolElem)
      requires Registered() && NextLinked(Members) && PrevLinked(Members) && EndsAt(Members)
      requires headElem != null && tailElem != null && elem !in Pos
      modifies `tailElem, headElem`prev, tailElem`next, elem`next, elem`prev
      ensures NextLinked(Members + [elem]) && PrevLinked(Members + [elem]) && EndsAt(Members + [elem])
    {
      ghost var n, ms, tail, head := |Members|, Members + [elem], tailElem, headElem;
      assert Pos[head] == 0 && Pos[tail] == n - 1;
      tailElem.next := elem;
      elem.prev := tailElem;
      elem.next := headElem;
      headElem.prev := elem;
      tailElem := elem;
      forall i | 0 <= i <= n
        ensures ms[i].next == After(ms, i) && ms[i].prev == Before(ms, i)
      {
        if i < n {
          assert ms[i] == Members[i] && Pos[ms[i]] == i;
          assert old(Members[i].next) == After(Members, i) && old(Members[i].prev) == Before(Members, i);
        }
      }
    }

    method Add(id: nat) returns (elem: ConnPoolElem)
      requires Valid() && id == |All|
      modifies this, Repr`next, Repr`prev
      ensures Valid() && fresh(elem)
      ensures Members == old(Members) + [elem] && All == old(All) + [elem] && Repr == old(Repr) + {elem}
      ensures currElem == if old(Members) == [] then elem else old(currElem)
    {
      elem := new ConnPoolElem(id);
      if headElem == null {
        LinkFirst(elem);
        assert Members + [elem] == [elem];
      } else {
        assert Members[0] in Pos && Members[|Members| - 1] in Pos;
        LinkLast(elem);
        assert OthersDead();
      }
      Enrol(elem);
    }

    /** Counts a linked element among the members. */
    ghost method Enrol(elem: ConnPoolElem)
      requires Registered() && Running(Members) && OthersDead() && elem !in Repr
      requires elem.id == |All| && !elem.stopped
      requires NextLinked(Members + [elem]) && PrevLinked(Members + [elem]) && EndsAt(Members + [elem])
      requires currElem != null && (currElem == elem || currElem in Pos)
      modifies `Members, `Pos, `All, `Repr
      ensures Valid()
      ensures Members == old(Members) + [elem] && All == old(All) + [elem] && Repr == old(Repr) + {elem}
    {
      RankedSnoc(Members, Pos, elem);
      Pos := Pos[elem := |Members|];
      Members := Members + [elem];
      All := All + [elem];
      Repr := Repr + {elem};
    }

    /** What the `next` field of an element holds. */
    ghost function NextOf(e: ConnPoolElem): ConnPoolElem?
      requires Registered()
      reads this
    {
      if e in Pos then After(Members, Pos[e]) else null
    }

    /** Null stands for the nil dereference of an unset cursor. */
    method Next() returns (res: ConnPoolElem?)
      requires Valid()
      modifies `currElem
      ensures res == old(currElem)
      ensures res == null ==> currElem == null
      ensures res != null ==> currElem == NextOf(res)
      ensures Valid()
    {
      res := currElem;
      if res != null {
        if res in Pos {
          Neighbours(res);
        }
        currElem := res.next;
      }
    }

    /** The first half of joining the neighbours of `ce`: its predecessor skips it. */
    method SkipForward(ce: ConnPoolElem)
      requires Registered() && NextLinked(Members) && ce in Pos && |Members| > 1
      requires ce.prev == Before(Members, Pos[ce])
      modifies ce.prev`next
      ensures NextLinked(Cut(Members, Pos[ce]))
      ensures ce.next == old(ce.next)
    {
      ghost var r, i := Cut(Members, Pos[ce]), Pos[ce];
      assert ce.next == Members[i].next;
      ce.prev.next := ce.next;
    }

    /** The second half: its successor skips it. */
    method SkipBack(ce: ConnPoolElem)
      requires Registered() && PrevLinked(Members) && ce in Pos && |Members| > 1
      requires ce.next == After(Members, Pos[ce])
      modifies ce.next`prev
      ensures PrevLinked(Cut(Members, Pos[ce]))
      ensures ce.prev == old(ce.prev)
    {
      ghost var r, i := Cut(Members, Pos[ce]), Pos[ce];
      assert ce.prev == Members[i].prev;
      ce.next.prev := ce.prev;
    }

    /** Moves cursor, head and tail off `ce`, whose links are still in place. */
    method MoveOff(ce: ConnPoolElem)
      requires Registered() && ce in Pos && |Members| > 1
      requires ce.next == After(Members, Pos[ce]) && ce.prev == Before(Members, Pos[ce])
      requires EndsAt(Members)
      modifies `headElem, `tailElem, `currElem
      ensures EndsAt(Cut(Members, Pos[ce]))
      ensures currElem == if old(currElem) == ce then ce.next else old(currElem)
    {
      if currElem == ce {
        currElem := ce.next;
      }
      if headElem == ce {
        headElem := ce.next;
      }
      if tailElem == ce {
        tailElem := ce.prev;
      }
    }
  
    /** `ce` is about to leave: everything but its own fields is as the ring without it requires. */
    ghost predicate Detached(ce: ConnPoolElem)
      requires Registered()
      reads this, Repr, Members, if ce in Pos then Cut(Members, Pos[ce]) else []
    {
      && ce in Pos
      && NextLinked(Cut(Members, Pos[ce]))
      && PrevLinked(Cut(Members, Pos[ce]))
      && Running(Members)
      && OthersDead()
      && EndsAt(Cut(Members, Pos[ce]))
      && CursorIn(Pos.Keys - {ce})
    }

    /** The neighbours of `ce` joined, in both directions. */
    method Bypass(ce: ConnPoolElem)
      requires Valid() && ce in Pos && |Members| > 1
      modifies Repr`next, Repr`prev
      ensures NextLinked(Cut(Members, Pos[ce])) && PrevLinked(Cut(Members, Pos[ce])) && OthersDead()
      ensures ce.next == old(ce.next) && ce.prev == old(ce.prev)
    {
      Neighbours(ce);
      SkipForward(ce);
      SkipBack(ce);
    }

    method DetachShared(ce: ConnPoolElem)
      requires Valid() && ce in Pos && |Members| > 1
      modifies `headElem, `tailElem, `currElem, Repr`next, Repr`prev
      ensures Registered() && Detached(ce)
      ensures currElem == if old(currElem) == ce then old(NextOf(ce)) else old(currElem)
    {
      Neighbours(ce);
      Bypass(ce);
      MoveOff(ce);
      assert currElem in Pos.Keys - {ce};
    }

    method DetachSole(ce: ConnPoolElem)
      requires Valid() && ce in Pos && |Members| == 1
      modifies `headElem, `tailElem
      ensures Registered() && Detached(ce)
    {
      headElem := null;
      tailElem := null;
    }

    /** Strikes a dead element off the members. */
    ghost method Strike(ce: ConnPoolElem)
      requires Registered() && ce in Pos && Dead(ce) && OthersDead()
      requires var r := Cut(Members, Pos[ce]); NextLinked(r) && PrevLinked(r) && Running(r) && EndsAt(r)
      requires CursorIn(Pos.Keys - {ce})
      modifies `Members, `Pos
      ensures Valid() && Members == Cut(old(Members), old(Pos)[ce])
      ensures Pos.Keys == old(Pos).Keys - {ce}
    {
      RankedCut(Members, Pos, ce);
      Members, Pos := Cut(Members, Pos[ce]), CutPos(Pos, ce);
    }

    /** The second critical section: closes the stop channel and drops the links. */
    method Retire(ce: ConnPoolElem)
      requires Registered() && Detached(ce)
      modifies `Members, `Pos, ce`next, ce`prev, ce`stopped
      ensures Valid() && Members == Cut(old(Members), old(Pos)[ce])
      ensures Pos.Keys == old(Pos).Keys - {ce}
    {
      ghost var r := Cut(Members, Pos[ce]);
      assert forall k :: 0 <= k < |r| ==> r[k] != ce && r[k] in Members;
      ce.stopped := true;
      ce.next := null;
      ce.prev := null;
      Strike(ce);
    }

    /**
     The two critical sections of `Delete`; false when `ce` was already out of the ring.  Deleting
     the sole member leaves the cursor on it.
     */
    method Unlink(ce: ConnPoolElem) returns (alive: bool)
      requires Valid() && ce in Repr
      modifies `headElem, `tailElem, `currElem, `Members, `Pos, Repr`next, Repr`prev, ce`stopped
      ensures Valid()
      ensures alive <==> ce in old(Pos)
      ensures alive ==> Members == Cut(old(Members), old(Pos)[ce])
      ensures !alive ==> Members == old(Members)
      ensures currElem == if alive && |old(Members)| > 1 && old(currElem) == ce then old(NextOf(ce)) else old(currElem)
    {
      AliveIff(ce);
      if ce in Pos {
        Neighbours(ce);
      }
      if ce.next == ce {
        DetachSole(ce);
      } else if ce.prev == null || ce.next == null {
        return false;
      } else {
        DetachShared(ce);
      }
      Retire(ce);
      return true;
    }

    method SizeNoLock() returns (i: nat)
      requires Valid()
      ensures i == |Members|
    {
      if headElem == null {
        return 0;
      }
      i := 1;
      var curr := headElem;
      while curr != tailElem
        invariant 1 <= i <= |Members| && curr == Members[i - 1]
        decreases |Members| - i
      {
        assert Members[i - 1].next == After(Members, i - 1);
        curr := curr.next;
        i := i + 1;
      }
      assert Members[|Members| - 1] in Pos;
    }

    /** The capped count stops one short of the tail: an `n`-ring reports at most six and never `n`. */
    method Size() returns (i: nat)
      requires Valid()
      ensures i == if |Members| == 0 then 0 else if |Members| <= 7 then |Members| - 1 else 6
    {
      i := 0;
      var curr := headElem;
      while curr != tailElem
        invariant i <= 6
        invariant Members == [] ==> i == 0 && curr == null
        invariant Members != [] ==> i < |Members| && curr == Members[i]
        decreases |Members| - i
      {
        if i > 5 {
          break;
        }
        assert Members[i].next == After(Members, i);
        curr := curr.next;
        i := i + 1;
      }
    }
  
    /** Membership, successors and removal on the linked ring are those of the sequence of ids. */
    lemma IdsAgree(e: ConnPoolElem)
      requires Registered() && e in Repr
      ensures NoDup(Ids(Members))
      ensures e.id in Ids(Members) <==> e in Pos
      ensures Succ(Ids(Members), e.id) == if NextOf(e) == null then None else Some(NextOf(e).id)
      ensures e in Pos ==> Without(Ids(Members), e.id) == Ids(Cut(Members, Pos[e]))
    {
    }
  }
}
