/** The elements of a sequence that are in a set, in their order; and sequences without repeats. */
module Subsequences {
  ghost predicate NoRepeats<T>(s: seq<T>) {
    forall i, j :: 0 <= i < j < |s| ==> s[i] != s[j]
  }

  ghost function Elements<T>(s: seq<T>): set<T> {
    set x | x in s
  }

  function Only<T(==)>(s: seq<T>, keep: set<T>): seq<T> {
    if s == [] then [] else (if s[0] in keep then [s[0]] else []) + Only(s[1..], keep)
  }

  lemma {:induction false} OnlyHas<T>(s: seq<T>, keep: set<T>)
    ensures forall x :: x in Only(s, keep) <==> x in s && x in keep
    ensures NoRepeats(s) ==> NoRepeats(Only(s, keep))
  {
    if s != [] {
      OnlyHas(s[1..], keep);
      assert s == [s[0]] + s[1..];
      if NoRepeats(s) {
        assert forall i :: 0 <= i < |s[1..]| ==> s[1..][i] == s[i + 1];
        assert s[0] !in Only(s[1..], keep);
      }
    }
  }

  lemma OnlyHasOne<T>(s: seq<T>, keep: set<T>, x: T)
    ensures x in Only(s, keep) <==> x in s && x in keep
  {
    OnlyHas(s, keep);
  }

  lemma {:induction false} OnlyJoin<T>(s: seq<T>, t: seq<T>, keep: set<T>)
    ensures Only(s + t, keep) == Only(s, keep) + Only(t, keep)
  {
    if s == [] {
      assert s + t == t;
    } else {
      assert (s + t)[1..] == s[1..] + t;
      OnlyJoin(s[1..], t, keep);
      JoinAgain(if s[0] in keep then [s[0]] else [], Only(s[1..], keep), Only(t, keep));
    }
  }

  lemma JoinAgain<T>(a: seq<T>, b: seq<T>, c: seq<T>)
    ensures (a + b) + c == a + (b + c)
  {
  }

  lemma {:induction false} OnlyAll<T>(s: seq<T>, keep: set<T>)
    requires forall x :: x in s ==> x in keep
    ensures Only(s, keep) == s
  {
    if s != [] {
      assert s[0] in s && forall x :: x in s[1..] ==> x in s;
      OnlyAll(s[1..], keep);
    }
  }

  lemma {:induction false} OnlyNone<T>(s: seq<T>, keep: set<T>)
    requires forall x :: x in s ==> x !in keep
    ensures Only(s, keep) == []
  {
    if s != [] {
      assert s[0] in s && forall x :: x in s[1..] ==> x in s;
      OnlyNone(s[1..], keep);
    }
  }

  lemma {:induction false} OnlyTwice<T>(s: seq<T>, a: set<T>, b: set<T>)
    ensures Only(Only(s, a), b) == Only(s, a * b)
  {
    if s != [] {
      OnlyTwice(s[1..], a, b);
      OnlyJoin(if s[0] in a then [s[0]] else [], Only(s[1..], a), b);
      assert Only([s[0]], b) == if s[0] in b then [s[0]] else [];
    }
  }

  /** Only what is in the sequence matters of what is kept. */
  lemma {:induction false} OnlySame<T>(s: seq<T>, a: set<T>, b: set<T>)
    requires forall x :: x in s ==> (x in a <==> x in b)
    ensures Only(s, a) == Only(s, b)
  {
    if s != [] {
      assert s[0] in s && forall x :: x in s[1..] ==> x in s;
      OnlySame(s[1..], a, b);
    }
  }

  /** Where the first element kept is: everything before it is not kept. */
  lemma {:induction false} FirstKept<T>(s: seq<T>, keep: set<T>) returns (j: nat)
    requires Only(s, keep) != []
    ensures j < |s| && s[j] == Only(s, keep)[0] && s[j] in keep
    ensures forall i :: 0 <= i < j ==> s[i] !in keep
  {
    if s[0] in keep {
      j := 0;
    } else {
      var k := FirstKept(s[1..], keep);
      j := k + 1;
    }
  }
}
