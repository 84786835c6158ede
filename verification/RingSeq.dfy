/** Duplicate-free sequences read as rings: position, cyclic successor and removal. */
module RingSeq {
  import opened Words

  predicate NoDup<T(==)>(s: seq<T>) {
    forall i, j :: 0 <= i < j < |s| ==> s[i] != s[j]
  }

  predicate First<T(==)>(s: seq<T>, x: T, i: nat) {
    i < |s| && s[i] == x && forall j :: 0 <= j < i ==> s[j] != x
  }

  lemma {:induction false} FirstExists<T>(s: seq<T>, x: T)
    requires x in s
    ensures exists i: nat :: First(s, x, i)
  {
    if s[0] == x {
      assert First(s, x, 0);
    } else {
      FirstExists(s[1..], x);
      var i: nat :| First(s[1..], x, i);
      assert First(s, x, i + 1);
    }
  }

  /** Position of the first occurrence. */
  function Index<T(==)>(s: seq<T>, x: T): (i: nat)
    requires x in s
    ensures i < |s| && s[i] == x
    ensures forall j :: 0 <= j < i ==> s[j] != x
  {
    FirstExists(s, x);
    var i: nat :| i < |s| && First(s, x, i);
    i
  }

  /** The element after position `i`, wrapping from the last to the first. */
  function After<T>(s: seq<T>, i: nat): T
    requires i < |s|
  {
    if i + 1 == |s| then s[0] else s[i + 1]
  }

  /** What the `next` link of `x` holds: its cyclic successor, or nil once `x` is out of the ring. */
  function Succ<T(==)>(s: seq<T>, x: T): (r: Option<T>)
    ensures r.Some? <==> x in s
    ensures r.Some? ==> r.value in s
  {
    if x in s then Some(After(s, Index(s, x))) else None
  }

  /** The sequence without position `i`. */
  function Cut<T>(s: seq<T>, i: nat): (r: seq<T>)
    requires i < |s|
    ensures |r| == |s| - 1
    ensures forall k :: 0 <= k < i ==> r[k] == s[k]
    ensures forall k :: i <= k < |s| - 1 ==> r[k] == s[k + 1]
  {
    s[..i] + s[i + 1..]
  }

  /** Order-preserving removal of the first occurrence of `x`. */
  function Without<T(==)>(s: seq<T>, x: T): (r: seq<T>)
    ensures x !in s ==> r == s
    ensures x in s ==> |r| == |s| - 1
  {
    if x in s then Cut(s, Index(s, x)) else s
  }

  lemma WithoutMembers<T>(s: seq<T>, x: T)
    requires NoDup(s)
    ensures NoDup(Without(s, x))
    ensures forall y :: y in Without(s, x) <==> y in s && y != x
  {
  }

  lemma AppendNoDup<T>(s: seq<T>, x: T)
    requires NoDup(s) && x !in s
    ensures NoDup(s + [x])
  {
  }

  /** Ring position reached from position `start` after `r` steps. */
  function Turn(start: nat, r: nat, n: nat): (i: nat)
    requires start < n && r < n
    ensures i < n
  {
    if start + r < n then start + r else start + r - n
  }

  /** The elements successive moves of a cursor on `x` return, and where it ends. */
  function Visits<T(==)>(s: seq<T>, x: T, k: nat): (r: (seq<T>, T))
    requires x in s
    ensures r.1 in s && |r.0| == k
  {
    if k == 0 then ([], x)
    else
      var (seen, at) := Visits(s, x, k - 1);
      (seen + [at], Succ(s, at).value)
  }

  lemma AfterTurn<T>(s: seq<T>, start: nat, k: nat)
    requires NoDup(s) && start < |s| && k < |s|
    ensures Succ(s, s[Turn(start, k, |s|)]) == Some(s[if k + 1 < |s| then Turn(start, k + 1, |s|) else start])
  {
  }

  lemma {:induction false} VisitsEnd<T>(s: seq<T>, x: T, k: nat)
    requires NoDup(s) && x in s && k <= |s|
    ensures Visits(s, x, k).1 == if k < |s| then s[Turn(Index(s, x), k, |s|)] else x
  {
    if k == 0 {
    } else {
      VisitsEnd(s, x, k - 1);
      AfterTurn(s, Index(s, x), k - 1);
    }
  }

  lemma {:induction false} VisitsAt<T>(s: seq<T>, x: T, k: nat, j: nat)
    requires NoDup(s) && x in s && j < k <= |s|
    ensures Visits(s, x, k).0[j] == s[Turn(Index(s, x), j, |s|)]
  {
    if j < k - 1 {
      VisitsAt(s, x, k - 1, j);
    } else {
      VisitsEnd(s, x, j);
    }
  }

  lemma RotateUnique<T>(s: seq<T>, i: nat, v: seq<T>)
    requires i < |s| == |v|
    requires forall j :: 0 <= j < |s| ==> v[j] == s[Turn(i, j, |s|)]
    ensures v == s[i..] + s[..i]
  {
  }

  lemma {:induction false} VisitsRotate<T>(s: seq<T>, x: T)
    requires NoDup(s) && x in s
    ensures Visits(s, x, |s|).0 == s[Index(s, x)..] + s[..Index(s, x)]
  {
    var i, v := Index(s, x), Visits(s, x, |s|).0;
    forall j | 0 <= j < |s|
      ensures v[j] == s[Turn(i, j, |s|)]
    {
      VisitsAt(s, x, |s|, j);
    }
    RotateUnique(s, i, v);
  }

  lemma RotateMultiset<T>(s: seq<T>, i: nat)
    requires i <= |s|
    ensures multiset(s[i..] + s[..i]) == multiset(s)
  {
    assert s == s[..i] + s[i..];
  }

  /** As many moves as there are members return each member once, in ring order, and restore the cursor. */
  lemma FullTurn<T>(s: seq<T>, x: T)
    requires NoDup(s) && x in s
    ensures Visits(s, x, |s|).0 == s[Index(s, x)..] + s[..Index(s, x)]
    ensures multiset(Visits(s, x, |s|).0) == multiset(s)
    ensures Visits(s, x, |s|).1 == x
  {
    VisitsEnd(s, x, |s|);
    VisitsRotate(s, x);
    RotateMultiset(s, Index(s, x));
  }
}
