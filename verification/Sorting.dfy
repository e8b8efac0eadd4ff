/** A stable sort by a number, as the app sorts what it keeps by time. */
module Sorting {
  import opened Subsequences

  function Placed<T>(e: T, s: seq<T>, rank: T -> int): seq<T> {
    if s == [] || rank(e) <= rank(s[0]) then [e] + s else [s[0]] + Placed(e, s[1..], rank)
  }

  /** The least first; as they came where equal. */
  function Sorted<T>(s: seq<T>, rank: T -> int): seq<T> {
    if s == [] then [] else Placed(s[0], Sorted(s[1..], rank), rank)
  }

  lemma {:induction false} PlacedHas<T>(e: T, s: seq<T>, rank: T -> int)
    ensures multiset(Placed(e, s, rank)) == multiset{e} + multiset(s)
  {
    if s != [] && rank(e) > rank(s[0]) {
      PlacedHas(e, s[1..], rank);
      assert s == [s[0]] + s[1..];
    }
  }

  lemma {:induction false} SortedHas<T>(s: seq<T>, rank: T -> int)
    ensures multiset(Sorted(s, rank)) == multiset(s) && |Sorted(s, rank)| == |s|
  {
    if s != [] {
      SortedHas(s[1..], rank);
      PlacedHas(s[0], Sorted(s[1..], rank), rank);
      assert s == [s[0]] + s[1..];
    }
    assert |multiset(Sorted(s, rank))| == |Sorted(s, rank)| && |multiset(s)| == |s|;
  }

  lemma SortedIn<T>(s: seq<T>, rank: T -> int, x: T)
    ensures x in Sorted(s, rank) <==> x in s
  {
    SortedHas(s, rank);
    assert x in Sorted(s, rank) <==> x in multiset(Sorted(s, rank));
    assert x in s <==> x in multiset(s);
  }

  lemma SortedOne<T>(s: seq<T>, rank: T -> int)
    requires |s| == 1
    ensures Sorted(s, rank) == s
  {
    assert Sorted(s[1..], rank) == [];
  }

  /** Without repeats in any order, if in one. */
  lemma SameRepeats<T>(a: seq<T>, b: seq<T>)
    requires multiset(a) == multiset(b) && NoRepeats(a)
    ensures NoRepeats(b)
  {
    forall i, j | 0 <= i < j < |b|
      ensures b[i] != b[j]
    {
      if b[i] == b[j] {
        Twice(b, i, j);
        OnceOnly(a, b[i]);
        assert false;
      }
    }
  }

  lemma Twice<T>(s: seq<T>, i: nat, j: nat)
    requires i < j < |s| && s[i] == s[j]
    ensures multiset(s)[s[i]] >= 2
  {
    assert s == s[..j] + s[j..];
    assert s[i] == s[..j][i] && s[i] == s[j..][0];
    assert s[i] in multiset(s[..j]) && s[i] in multiset(s[j..]);
  }

  lemma {:induction false} OnceOnly<T>(s: seq<T>, x: T)
    requires NoRepeats(s)
    ensures multiset(s)[x] <= 1
  {
    if s != [] {
      assert s == [s[0]] + s[1..];
      assert NoRepeats(s[1..]);
      OnceOnly(s[1..], x);
      if s[0] == x {
        assert x !in s[1..];
        assert x !in multiset(s[1..]);
      }
    }
  }
}
