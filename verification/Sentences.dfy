/**
 * Where a reply's text is cut into sentences as it comes (the loop of
 * Speech.push, app/src/sessions.ts:419-437): nothing is lost, and how the text
 * came in pieces matters exactly when a long run of words can be cut before its
 * sentence's end is seen.
 */
module Sentences {
  import opened Options
  import opened Subsequences
  import opened Text

  predicate IsEnder(c: char) {
    c == '.' || c == '!' || c == '?' || c == '\U{2026}'
  }

  predicate IsCloser(c: char) {
    c == '"' || c == '\'' || c == ')' || c == ']'
  }

  const LONG: nat := 220

  predicate HasWord(s: string) {
    exists i :: 0 <= i < |s| && !IsSpace(s[i])
  }

  // ---- A sentence's end --------------------------------------------------------------------

  /** Where the run of enders from `i` stops. */
  function Enders(s: string, i: nat): (j: nat)
    requires i <= |s|
    ensures i <= j <= |s| && (j < |s| ==> !IsEnder(s[j]))
    ensures forall k :: i <= k < j ==> IsEnder(s[k])
    decreases |s| - i
  {
    if i < |s| && IsEnder(s[i]) then Enders(s, i + 1) else i
  }

  /** Where the run of line breaks from `i` stops. */
  function Breaks(s: string, i: nat): (j: nat)
    requires i <= |s|
    ensures i <= j <= |s| && (j < |s| ==> s[j] != '\n')
    ensures forall k :: i <= k < j ==> s[k] == '\n'
    decreases |s| - i
  {
    if i < |s| && s[i] == '\n' then Breaks(s, i + 1) else i
  }

  /** The end of a match at `i`: enders, perhaps a closing mark, and then a space to come; or line breaks. */
  function MatchAt(s: string, i: nat): (r: Option<nat>)
    requires i < |s|
    ensures r.Some? ==> i < r.value <= |s|
  {
    if IsEnder(s[i]) then
      var j := Enders(s, i);
      if j + 1 < |s| && IsCloser(s[j]) && IsSpace(s[j + 1]) then Some(j + 1)
      else if j < |s| && IsSpace(s[j]) then Some(j)
      else None
    else if s[i] == '\n' then Some(Breaks(s, i))
    else None
  }

  /** The end of the first match from `i` on. */
  function FirstEnd(s: string, i: nat): (r: Option<nat>)
    requires i <= |s|
    ensures r.Some? ==> i < r.value <= |s|
    decreases |s| - i
  {
    if i == |s| then None
    else if MatchAt(s, i).Some? then MatchAt(s, i)
    else FirstEnd(s, i + 1)
  }

  // ---- A cut -------------------------------------------------------------------------------------

  function LastComma(s: string, k: int): int
    requires k < |s|
    decreases k + 1
  {
    if k < 0 then -1 else if s[k] == ',' && k + 1 < |s| && s[k + 1] == ' ' then k else LastComma(s, k - 1)
  }

  function LastBlank(s: string, k: int): int
    requires k < |s|
    decreases k + 1
  {
    if k < 0 then -1 else if s[k] == ' ' then k else LastBlank(s, k - 1)
  }

  /** The place of the next cut: the first match's end, or in text over LONG the last comma past 40 or the last blank (0 or less is none). */
  function Cut(s: string): (at: int)
    ensures at <= |s|
  {
    var end := FirstEnd(s, 0);
    if end.Some? then end.value
    else if |s| > LONG then
      var comma := LastComma(s, LONG);
      CommaIsIn(s, LONG);
      BlankIsIn(s, LONG);
      if comma > 40 then comma + 1 else LastBlank(s, LONG)
    else -1
  }

  lemma CommaIsIn(s: string, k: int)
    requires k < |s|
    ensures LastComma(s, k) < |s|
    decreases k + 1
  {
  }

  lemma BlankIsIn(s: string, k: int)
    requires k < |s|
    ensures LastBlank(s, k) < |s|
    decreases k + 1
  {
  }

  /** Where the next piece ends (0: there is none yet): the words after it must have begun. */
  function PieceEnd(s: string): (at: nat)
    ensures at < |s| || at == 0
  {
    var at := Cut(s);
    if at <= 0 || !HasWord(s[at..]) then 0 else at
  }

  /** The pieces cut off a text, and what is left. */
  function Pieces(s: string): (r: (seq<string>, string))
    decreases |s|
  {
    var at := PieceEnd(s);
    if at == 0 then ([], s)
    else
      var rest := Pieces(s[at..]);
      ([s[..at]] + rest.0, rest.1)
  }

  // ---- Nothing is lost --------------------------------------------------------------------------------

  function Joined(pieces: seq<string>): string {
    if pieces == [] then "" else pieces[0] + Joined(pieces[1..])
  }

  lemma {:induction false} PiecesLoseNothing(s: string)
    ensures Joined(Pieces(s).0) + Pieces(s).1 == s
    ensures PieceEnd(Pieces(s).1) == 0
    decreases |s|
  {
    var at := PieceEnd(s);
    if at != 0 {
      PiecesLoseNothing(s[at..]);
      var rest := Pieces(s[at..]);
      assert ([s[..at]] + rest.0)[1..] == rest.0;
      assert s == s[..at] + s[at..];
    }
  }

  // ---- What is seen of a text before the rest comes ----------------------------------------------------

  lemma {:induction false} EndersAgain(s: string, t: string, i: nat)
    requires i <= |s|
    ensures if Enders(s, i) < |s| then Enders(s + t, i) == Enders(s, i) else Enders(s + t, i) >= |s|
    decreases |s| - i
  {
    if i < |s| && IsEnder(s[i]) {
      EndersAgain(s, t, i + 1);
    }
  }

  lemma {:induction false} BreaksAgain(s: string, t: string, i: nat)
    requires i <= |s|
    ensures if Breaks(s, i) < |s| then Breaks(s + t, i) == Breaks(s, i) else Breaks(s + t, i) >= |s|
    decreases |s| - i
  {
    if i < |s| && s[i] == '\n' {
      BreaksAgain(s, t, i + 1);
    }
  }

  /** A match that stops before the text does is one whatever comes, and only such a one is seen before that comes. */
  lemma MatchAgain(s: string, t: string, i: nat)
    requires i < |s|
    ensures MatchAt(s, i).Some? && MatchAt(s, i).value < |s| ==> MatchAt(s + t, i) == MatchAt(s, i)
    ensures MatchAt(s + t, i).Some? && MatchAt(s + t, i).value < |s| ==> MatchAt(s, i) == MatchAt(s + t, i)
  {
    EndersAgain(s, t, i);
    BreaksAgain(s, t, i);
  }

  /** Text after which a word has begun has its first sentence's end where it has it, whatever comes. */
  lemma {:induction false} FirstEndAgain(s: string, t: string, i: nat)
    requires i <= |s| && FirstEnd(s, i).Some? && FirstEnd(s, i).value < |s|
    ensures FirstEnd(s + t, i) == FirstEnd(s, i)
    decreases |s| - i
  {
    MatchAgain(s, t, i);
    if MatchAt(s, i).None? {
      FirstEndAgain(s, t, i + 1);
      if MatchAt(s + t, i).Some? {
        NoneAfterAnOpenRun(s, t, i);
        assert false;
      }
    }
  }

  /** A run of enders that the end of the text leaves open has no match after it. */
  lemma NoneAfterAnOpenRun(s: string, t: string, i: nat)
    requires i < |s| && MatchAt(s, i).None? && MatchAt(s + t, i).Some?
    ensures FirstEnd(s, i + 1).None?
  {
    EndersAgain(s, t, i);
    var j := Enders(s, i);
    assert IsEnder(s[i]);
    assert j == |s| || (j + 1 == |s| && IsCloser(s[j]));
    NoMatchIn(s, i + 1, j);
  }

  lemma {:induction false} NoMatchIn(s: string, i: nat, j: nat)
    requires i <= |s| && (j == |s| || (j + 1 == |s| && IsCloser(s[j])))
    requires forall k :: i <= k < j ==> IsEnder(s[k])
    ensures FirstEnd(s, i).None?
    decreases |s| - i
  {
    if i < |s| {
      NoMatchIn(s, i + 1, j);
      var e := Enders(s, i);
      if IsEnder(s[i]) {
        assert e == j;
      }
    }
  }

  /** An end found within what came so far was found before the rest came. */
  lemma {:induction false} FirstEndBefore(s: string, t: string, i: nat)
    requires i <= |s| && FirstEnd(s + t, i).Some? && FirstEnd(s + t, i).value < |s|
    ensures FirstEnd(s, i) == FirstEnd(s + t, i)
    decreases |s| - i
  {
    if i < |s| {
      MatchAgain(s, t, i);
      MatchStays(s, t, i);
      if MatchAt(s + t, i).None? {
        FirstEndBefore(s, t, i + 1);
      }
    }
  }

  /** A match stays one, though perhaps a longer one, whatever comes. */
  lemma MatchStays(s: string, t: string, i: nat)
    requires i < |s|
    ensures MatchAt(s, i).Some? ==> MatchAt(s + t, i).Some?
  {
    EndersAgain(s, t, i);
  }

  lemma {:induction false} FirstEndStays(s: string, t: string, i: nat)
    requires i <= |s| && FirstEnd(s, i).Some?
    ensures FirstEnd(s + t, i).Some?
    decreases |s| - i
  {
    MatchStays(s, t, i);
    if MatchAt(s, i).None? {
      FirstEndStays(s, t, i + 1);
    }
  }

  // ---- The long cut ------------------------------------------------------------------------------------

  /** More text changes neither the comma nor the blank of a long cut, once 222 characters are there. */
  lemma {:induction false} CommaAgain(s: string, t: string, k: int)
    requires k + 1 < |s|
    ensures LastComma(s + t, k) == LastComma(s, k)
    decreases k + 1
  {
    if k >= 0 {
      CommaAgain(s, t, k - 1);
    }
  }

  lemma {:induction false} BlankAgain(s: string, t: string, k: int)
    requires k < |s|
    ensures LastBlank(s + t, k) == LastBlank(s, k)
    decreases k + 1
  {
    if k >= 0 {
      BlankAgain(s, t, k - 1);
    }
  }

  lemma LongCutAgain(s: string, t: string)
    requires |s| > LONG + 1 && FirstEnd(s, 0).None? && FirstEnd(s + t, 0).None?
    ensures Cut(s + t) == Cut(s)
  {
    CommaAgain(s, t, LONG);
    BlankAgain(s, t, LONG);
  }

  lemma WordStays(s: string, t: string)
    requires HasWord(s)
    ensures HasWord(s + t)
  {
    var i :| 0 <= i < |s| && !IsSpace(s[i]);
    assert (s + t)[i] == s[i];
  }

  // ---- Text whose first piece depends on how it came ----------------------------------------------------

  /** The most of the text's first `k` characters that shows no sentence's end. */
  function Unseen(s: string, k: nat): (u: nat)
    requires k <= |s|
    ensures u <= k && FirstEnd(s[..u], 0).None?
    ensures forall j :: u < j <= k ==> FirstEnd(s[..j], 0).Some?
  {
    if k == 0 || FirstEnd(s[..k], 0).None? then k else Unseen(s, k - 1)
  }

  /** The text's first `k` characters alone are cut, and elsewhere than the whole text is. */
  predicate CutEarly(s: string, k: nat)
    requires k <= |s|
  {
    PieceEnd(s[..k]) != 0 && PieceEnd(s[..k]) != PieceEnd(s)
  }

  /**
   * The long cut comes before the whole text's: of the first 221 characters,
   * or of all that show no sentence's end. (A comma that is the 221st is seen
   * as one to cut at only with the blank after it.)
   */
  predicate TwoWays(s: string) {
    |s| > LONG && (CutEarly(s, LONG + 1) || CutEarly(s, Unseen(s, |s|)))
  }

  /** No piece of the text can be cut two ways. */
  predicate CutAlike(s: string)
    decreases |s|
  {
    !TwoWays(s) && (PieceEnd(s) != 0 ==> CutAlike(s[PieceEnd(s)..]))
  }

  /** What part of a text is cut at a sentence's end, the whole is. */
  lemma EarlyIsLong(s: string, k: nat)
    requires k <= |s| && CutEarly(s, k)
    ensures FirstEnd(s[..k], 0).None? && k > LONG && HasWord(s[..k])
  {
    hide FirstEnd, IsSpace;
    var p := s[..k];
    assert s == p + s[k..];
    PieceIsLong(p);
    if FirstEnd(p, 0).Some? {
      SeenIsCut(p, s[k..]);
      assert false;
    }
  }

  /** A piece cut where no end is seen is cut from a long text, and a word comes after it. */
  lemma PieceIsLong(p: string)
    requires PieceEnd(p) != 0
    ensures HasWord(p) && (FirstEnd(p, 0).None? ==> |p| > LONG)
  {
    hide FirstEnd, IsSpace;
    var at := PieceEnd(p);
    var word :| 0 <= word < |p[at..]| && !IsSpace(p[at..][word]);
    assert p[at + word] == p[at..][word];
  }

  lemma SeenIsCut(p: string, t: string)
    requires PieceEnd(p) != 0 && FirstEnd(p, 0).Some?
    ensures PieceEnd(p + t) == PieceEnd(p)
  {
    var at := PieceEnd(p);
    FirstEndAgain(p, t, 0);
    assert (p + t)[at..] == p[at..] + t;
    WordStays(p[at..], t);
  }

  /** Two places of the text show that it can be cut two ways, when any does. */
  lemma EarlyIsTwoWays(s: string, k: nat)
    requires k <= |s| && CutEarly(s, k)
    ensures TwoWays(s)
  {
    EarlyIsLong(s, k);
    var u := Unseen(s, |s|);
    if k > LONG + 1 {
      assert s[..u] == s[..k] + s[k..u];
      UnseenIsCut(s[..k], s[k..u]);
    }
  }

  lemma UnseenIsCut(p: string, t: string)
    requires |p| > LONG + 1 && PieceEnd(p) != 0 && FirstEnd(p, 0).None? && FirstEnd(p + t, 0).None?
    ensures PieceEnd(p + t) == PieceEnd(p)
  {
    var at := PieceEnd(p);
    LongCutAgain(p, t);
    assert (p + t)[at..] == p[at..] + t;
    WordStays(p[at..], t);
  }

  // ---- How the text came does not matter, exactly when -----------------------------------------------------

  /** Text no piece of which can be cut two ways is cut the same, part of it first or all at once. */
  lemma {:induction false} CutInParts(s: string, t: string)
    requires CutAlike(s + t)
    ensures
      var first := Pieces(s);
      Pieces(s + t) == (first.0 + Pieces(first.1 + t).0, Pieces(first.1 + t).1) && CutAlike(first.1 + t)
    decreases |s|
  {
    hide PieceEnd, TwoWays;
    var at := PieceEnd(s);
    if at != 0 {
      assert (s + t)[..|s|] == s;
      if PieceEnd(s + t) != at {
        EarlyIsTwoWays(s + t, |s|);
        assert false;
      }
      assert (s + t)[at..] == s[at..] + t;
      CutInParts(s[at..], t);
      PiecesFirst(s, t, at);
    } else {
      assert [] + Pieces(s + t).0 == Pieces(s + t).0;
    }
  }

  lemma PiecesFirst(s: string, t: string, at: nat)
    requires 0 < at < |s| && PieceEnd(s) == at && PieceEnd(s + t) == at
    requires
      var first := Pieces(s[at..]);
      Pieces(s[at..] + t) == (first.0 + Pieces(first.1 + t).0, Pieces(first.1 + t).1)
    ensures
      var first := Pieces(s);
      Pieces(s + t) == (first.0 + Pieces(first.1 + t).0, Pieces(first.1 + t).1)
  {
    hide PieceEnd;
    var first := Pieces(s[at..]);
    assert (s + t)[at..] == s[at..] + t && (s + t)[..at] == s[..at];
    JoinAgain([s[..at]], first.0, Pieces(first.1 + t).0);
  }

  /** The text fed in chunks: the pieces cut, and what is left. */
  function Fed(left: string, chunks: seq<string>): (seq<string>, string)
    decreases |chunks|
  {
    if chunks == [] then ([], left)
    else
      var first := Pieces(left + chunks[0]);
      var rest := Fed(first.1, chunks[1..]);
      (first.0 + rest.0, rest.1)
  }

  /** Nothing of what was fed is lost, however it is cut. */
  lemma {:induction false} FedLosesNothing(left: string, chunks: seq<string>)
    ensures Joined(Fed(left, chunks).0) + Fed(left, chunks).1 == left + Joined(chunks)
    decreases |chunks|
  {
    if chunks != [] {
      var first := Pieces(left + chunks[0]);
      PiecesLoseNothing(left + chunks[0]);
      FedLosesNothing(first.1, chunks[1..]);
      JoinedBoth(first.0, Fed(first.1, chunks[1..]).0);
      var rest := Fed(first.1, chunks[1..]);
      hide Pieces, Fed, Joined;
      JoinAgain(Joined(first.0), Joined(rest.0), rest.1);
      JoinAgain(Joined(first.0), first.1, Joined(chunks[1..]));
      JoinAgain(left, chunks[0], Joined(chunks[1..]));
    }
  }

  lemma {:induction false} JoinedBoth(a: seq<string>, b: seq<string>)
    ensures Joined(a + b) == Joined(a) + Joined(b)
  {
    if a == [] {
      assert a + b == b;
    } else {
      assert (a + b)[1..] == a[1..] + b;
      JoinedBoth(a[1..], b);
    }
  }

  /** For such text the pieces do not depend on the chunks it came in. */
  lemma {:induction false} ChunksDoNotMatter(left: string, chunks: seq<string>)
    requires PieceEnd(left) == 0 && CutAlike(left + Joined(chunks))
    ensures Fed(left, chunks) == Pieces(left + Joined(chunks))
    decreases |chunks|
  {
    hide CutAlike, PieceEnd, Pieces;
    if chunks == [] {
      assert left + Joined(chunks) == left;
      NothingCut(left);
    } else {
      var b, more := left + chunks[0], Joined(chunks[1..]);
      assert left + Joined(chunks) == b + more;
      CutInParts(b, more);
      PiecesLoseNothing(b);
      ChunksDoNotMatter(Pieces(b).1, chunks[1..]);
    }
  }

  lemma NothingCut(s: string)
    requires PieceEnd(s) == 0
    ensures Pieces(s) == ([], s)
  {
  }

  /** Part of a text reaching 221 characters and a word past the first piece is cut there as the text is. */
  lemma PartIsCut(s: string, k: nat)
    requires PieceEnd(s) != 0 && PieceEnd(s) + LONG < k <= |s| && HasWord(s[PieceEnd(s)..k])
    ensures PieceEnd(s[..k]) == PieceEnd(s)
  {
    var p, t, at := s[..k], s[k..], PieceEnd(s);
    assert s == p + t && p[at..] == s[at..k];
    if FirstEnd(s, 0).Some? {
      FirstEndBefore(p, t, 0);
    } else {
      if FirstEnd(p, 0).Some? {
        FirstEndStays(p, t, 0);
        assert false;
      }
      LongCutAgain(p, t);
    }
  }

  /** Text that can be cut two ways is, in two chunks. */
  lemma {:induction false} CutTwoWays(s: string) returns (k: nat)
    requires !CutAlike(s)
    ensures LONG < k <= |s| && HasWord(s[..k])
    ensures Fed("", [s[..k], s[k..]]) != Pieces(s)
    decreases |s|
  {
    hide PieceEnd, Pieces, Fed;
    if TwoWays(s) {
      k := if CutEarly(s, LONG + 1) then LONG + 1 else Unseen(s, |s|);
      EarlyIsLong(s, k);
      CutEarlyDiffers(s, k);
    } else {
      var at := PieceEnd(s);
      var r := s[at..];
      var j := CutTwoWays(r);
      k := at + j;
      assert s[at..k] == r[..j] && s[k..] == r[j..];
      assert s[..k] == s[..at] + r[..j];
      JoinedHasWord(s[..at], r[..j]);
      PartIsCut(s, k);
      FirstCut(s[..k], at);
      FirstCut(s, at);
      assert s[..k][at..] == r[..j] && s[..k][..at] == s[..at];
      FedAfter(s[..at], s[..k], r[..j], r[j..]);
      if Fed("", [s[..k], s[k..]]) == Pieces(s) {
        SameAfter(s[..at], Fed("", [r[..j], r[j..]]), Pieces(r));
        assert false;
      }
    }
  }

  lemma JoinedHasWord(s: string, t: string)
    requires HasWord(t)
    ensures HasWord(s + t)
  {
    var i :| 0 <= i < |t| && !IsSpace(t[i]);
    assert (s + t)[|s| + i] == t[i];
  }

  lemma FirstCut(s: string, at: nat)
    requires PieceEnd(s) == at != 0
    ensures Pieces(s) == ([s[..at]] + Pieces(s[at..]).0, Pieces(s[at..]).1)
  {
  }

  /** The first chunk's first piece put before what the rest of it and the second are cut into. */
  lemma FedAfter(piece: string, a: string, rest: string, b: string)
    requires Pieces(a) == ([piece] + Pieces(rest).0, Pieces(rest).1)
    ensures Fed("", [a, b]) == ([piece] + Fed("", [rest, b]).0, Fed("", [rest, b]).1)
  {
    hide Pieces;
    FedTwo(a, b);
    FedTwo(rest, b);
    JoinAgain([piece], Pieces(rest).0, Pieces(Pieces(rest).1 + b).0);
  }

  lemma SameAfter(piece: string, a: (seq<string>, string), b: (seq<string>, string))
    requires ([piece] + a.0, a.1) == ([piece] + b.0, b.1)
    ensures a == b
  {
    assert a.0 == ([piece] + a.0)[1..] && b.0 == ([piece] + b.0)[1..];
  }

  lemma FedTwo(a: string, b: string)
    ensures
      var left := Pieces(a).1;
      Fed("", [a, b]) == (Pieces(a).0 + Pieces(left + b).0, Pieces(left + b).1)
  {
    hide Pieces;
    var left := Pieces(a).1;
    assert "" + a == a && [a, b][1..] == [b] && [b][1..] == [];
    assert Fed(left, [b]) == (Pieces(left + b).0 + [], Pieces(left + b).1);
    assert Pieces(left + b).0 + [] == Pieces(left + b).0;
  }

  lemma CutEarlyDiffers(s: string, k: nat)
    requires k <= |s| && CutEarly(s, k)
    ensures Fed("", [s[..k], s[k..]]) != Pieces(s)
  {
    var a := s[..k];
    var at := PieceEnd(a);
    FirstCut(a, at);
    hide PieceEnd, Fed, Pieces;
    FedTwo(a, s[k..]);
    var fed := Fed("", [a, s[k..]]);
    assert fed.0[0] == a[..at] && |fed.0[0]| == at;
    if PieceEnd(s) == 0 {
      NothingCut(s);
    } else {
      FirstCut(s, PieceEnd(s));
      assert Pieces(s).0[0] == s[..PieceEnd(s)] && |Pieces(s).0[0]| == PieceEnd(s);
    }
  }

  /** The pieces do not depend on the chunks a text comes in exactly when no piece of it can be cut two ways. */
  lemma ChunksDoNotMatterIff(s: string)
    ensures CutAlike(s) <==> forall chunks :: Joined(chunks) == s ==> Fed("", chunks) == Pieces(s)
  {
    hide CutAlike, Fed, Pieces, Joined;
    if CutAlike(s) {
      forall chunks | Joined(chunks) == s
        ensures Fed("", chunks) == Pieces(s)
      {
        assert "" + s == s;
        ChunksDoNotMatter("", chunks);
      }
    } else {
      var k := CutTwoWays(s);
      var chunks := [s[..k], s[k..]];
      assert Joined(chunks) == s by {
        JoinedTwo(s[..k], s[k..]);
      }
    }
  }

  lemma JoinedTwo(a: string, b: string)
    ensures Joined([a, b]) == a + b
  {
    assert [a, b][1..] == [b] && [b][1..] == [];
    assert Joined([b]) == b + "" == b;
  }

  // ---- Text whose sentences are short ------------------------------------------------------------------

  /** No 220 characters of the text lack a sentence's end. */
  predicate Steady(s: string)
    decreases |s|
  {
    var end := FirstEnd(s, 0);
    if end.None? then |s| <= LONG
    else end.value <= LONG && (HasWord(s[end.value..]) ==> Steady(s[end.value..]))
  }

  lemma {:induction false} SteadyIsCutAlike(s: string)
    requires Steady(s)
    ensures CutAlike(s)
    decreases |s|
  {
    hide TwoWays, FirstEnd, LastComma, LastBlank, HasWord;
    SteadyIsOneWay(s);
    if PieceEnd(s) != 0 {
      SteadyIsCutAlike(s[PieceEnd(s)..]);
    }
  }

  lemma SteadyIsOneWay(s: string)
    requires Steady(s)
    ensures !TwoWays(s)
  {
    hide CutEarly, FirstEnd, HasWord;
    if TwoWays(s) {
      var k := if CutEarly(s, LONG + 1) then LONG + 1 else Unseen(s, |s|);
      EarlyIsLong(s, k);
      assert s == s[..k] + s[k..];
      FirstEndBefore(s[..k], s[k..], 0);
      assert false;
    }
  }

  /**
   * Text that can be cut two ways: a hundred letters, a space, as many and
   * thirty more, then a sentence's end. Cut as one sentence when it comes at once; at
   * the space when the end comes after.
   */
  lemma ChunksMatterOnce()
    ensures exists s: string, t: string :: Fed("", [s, t]) != Fed("", [s + t])
  {
    hide Pieces, Fed;
    var word := seq(100, _ => 'w');
    var s, t := word + " " + word + seq(30, _ => 'w'), ". W";
    CutAtTheBlank(s);
    CutAtTheEnd(s, t, s + t);
    FirstFed(s + t, []);
    FirstFed(s, [t]);
    assert [s] + [t] == [s, t] && [s + t] + [] == [s + t];
    assert |(s + t)[..232]| == 232 && |s[..100]| == 100;
  }

  lemma CutAtTheBlank(s: string)
    requires |s| == 231 && s[100] == ' ' && forall i :: 0 <= i < 231 && i != 100 ==> s[i] == 'w'
    ensures Pieces(s).0 != [] && Pieces(s).0[0] == s[..100]
  {
    NoEndIn(s, 0);
    BlankAt(s, 220, 100);
    NoCommaIn(s, 220);
    assert HasWord(s[100..]) by { assert s[100..][1] == 'w'; }
  }

  lemma CutAtTheEnd(s: string, t: string, all: string)
    requires |s| == 231 && s[100] == ' ' && (forall i :: 0 <= i < 231 && i != 100 ==> s[i] == 'w') && t == ". W" && all == s + t
    ensures Pieces(all).0 != [] && Pieces(all).0[0] == all[..232]
  {
    assert all[231] == '.' && all[232] == ' ' && all[233] == 'W';
    EndsAt(all, 0, 231);
    assert HasWord(all[232..]) by { assert all[232..][1] == 'W'; }
  }

  /** The first piece fed is the first of the first chunk, when that has one. */
  lemma FirstFed(s: string, more: seq<string>)
    requires Pieces(s).0 != []
    ensures Fed("", [s] + more).0 != [] && Fed("", [s] + more).0[0] == Pieces(s).0[0]
  {
    hide Pieces;
    assert "" + s == s && ([s] + more)[1..] == more;
  }

  lemma {:induction false} NoEndIn(s: string, i: nat)
    requires i <= |s| && forall k :: i <= k < |s| ==> !IsEnder(s[k]) && s[k] != '\n'
    ensures FirstEnd(s, i).None?
    decreases |s| - i
  {
    if i < |s| {
      NoEndIn(s, i + 1);
    }
  }

  lemma {:induction false} EndsAt(s: string, i: nat, e: nat)
    requires i <= e && e + 1 < |s| && s[e] == '.' && s[e + 1] == ' '
    requires forall k :: i <= k < e ==> !IsEnder(s[k]) && s[k] != '\n'
    ensures FirstEnd(s, i) == Some(e + 1)
    decreases e - i
  {
    if i < e {
      EndsAt(s, i + 1, e);
    } else {
      assert Enders(s, e) == e + 1;
    }
  }

  lemma {:induction false} BlankAt(s: string, k: int, b: nat)
    requires b <= k < |s| && s[b] == ' ' && forall i :: b < i <= k ==> s[i] != ' '
    ensures LastBlank(s, k) == b
    decreases k
  {
    if b < k {
      BlankAt(s, k - 1, b);
    }
  }

  lemma {:induction false} NoCommaIn(s: string, k: int)
    requires k < |s| && forall i :: 0 <= i < |s| ==> s[i] != ','
    ensures LastComma(s, k) == -1
    decreases k + 1
  {
    if k >= 0 {
      NoCommaIn(s, k - 1);
    }
  }
}
