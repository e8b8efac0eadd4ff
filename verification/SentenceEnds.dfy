/**
 * Where a reply's text is cut, told from its characters (the expression and the
 * searches of Speech.push, app/src/sessions.ts:421-433).
 */
module SentenceEnds {
  import opened Options
  import opened Text
  import opened Sentences

  /** From `i` to `e`: full stops and the like, perhaps a closing mark after them, with a space to come. */
  ghost predicate EndsBy(s: string, i: nat, e: nat) {
    && i < e < |s| && IsSpace(s[e])
    && exists m :: i < m <= e && (forall k :: i <= k < m ==> s[k] in {'.', '!', '?', '\U{2026}'})
         && (m == e || (m + 1 == e && s[m] in {'"', '\'', ')', ']'}))
  }

  /** From `i` to `e`: line breaks, all there are. */
  ghost predicate BreaksBy(s: string, i: nat, e: nat) {
    i < e <= |s| && (forall k :: i <= k < e ==> s[k] == '\n') && (e < |s| ==> s[e] != '\n')
  }

  ghost predicate MatchesBy(s: string, i: nat, e: nat) {
    EndsBy(s, i, e) || BreaksBy(s, i, e)
  }

  /** The first sentence of the text ends at `e`. */
  ghost predicate IsEnd(s: string, e: nat) {
    exists i: nat :: MatchesBy(s, i, e) && forall j: nat, f: nat :: j < i ==> !MatchesBy(s, j, f)
  }

  ghost predicate NoEnd(s: string) {
    forall e: nat :: !IsEnd(s, e)
  }

  lemma MatchIs(s: string, i: nat, e: nat)
    requires i < |s|
    ensures MatchAt(s, i) == Some(e) <==> MatchesBy(s, i, e)
  {
    var j, b := Enders(s, i), Breaks(s, i);
    if EndsBy(s, i, e) {
      var m :| i < m <= e && (forall k :: i <= k < m ==> s[k] in {'.', '!', '?', '\U{2026}'})
        && (m == e || (m + 1 == e && s[m] in {'"', '\'', ')', ']'}));
      assert s[i] in {'.', '!', '?', '\U{2026}'};
      assert !IsEnder(s[m]);
      assert m == j;
    }
    if BreaksBy(s, i, e) {
      assert s[i] == '\n';
      assert b == e;
    }
    if MatchAt(s, i) == Some(e) {
      if IsEnder(s[i]) {
        assert EndsBy(s, i, e);
      } else {
        assert BreaksBy(s, i, e);
      }
    }
  }

  lemma {:induction false} FirstEndFrom(s: string, i: nat)
    requires i <= |s| && forall j: nat, f: nat :: j < i ==> !MatchesBy(s, j, f)
    ensures forall e: nat :: FirstEnd(s, i) == Some(e) <==> IsEnd(s, e)
    decreases |s| - i
  {
    if i < |s| {
      forall e: nat
        ensures MatchAt(s, i) == Some(e) <==> MatchesBy(s, i, e)
      {
        MatchIs(s, i, e);
      }
      hide MatchAt, MatchesBy;
      if MatchAt(s, i).None? {
        FirstEndFrom(s, i + 1);
      } else {
        TheFirst(s, i, MatchAt(s, i).value);
      }
    } else {
      PastTheEnd(s);
    }
  }

  lemma PastTheEnd(s: string)
    ensures forall i: nat, e: nat :: i >= |s| ==> !MatchesBy(s, i, e)
  {
  }

  lemma TheFirst(s: string, i: nat, e: nat)
    requires MatchesBy(s, i, e) && (forall f: nat :: MatchesBy(s, i, f) ==> f == e)
    requires forall j: nat, f: nat :: j < i ==> !MatchesBy(s, j, f)
    ensures forall f: nat :: IsEnd(s, f) <==> f == e
  {
    hide MatchesBy;
    forall f: nat | IsEnd(s, f)
      ensures f == e
    {
      var k: nat :| MatchesBy(s, k, f) && forall j: nat, g: nat :: j < k ==> !MatchesBy(s, j, g);
      assert k == i;
    }
  }

  // ---- The long cut -----------------------------------------------------------------------------

  /** The last comma with a blank after it, of those from the 42nd to the 221st character. */
  ghost predicate IsCommaCut(s: string, at: nat) {
    && 41 < at <= 221 && at < |s| && s[at - 1] == ',' && s[at] == ' '
    && forall k :: at <= k <= 220 && k + 1 < |s| ==> !(s[k] == ',' && s[k + 1] == ' ')
  }

  /** The last blank of the first 221 characters. */
  ghost predicate IsBlankCut(s: string, at: nat) {
    at <= 220 && at < |s| && s[at] == ' ' && forall k :: at < k <= 220 && k < |s| ==> s[k] != ' '
  }

  lemma {:induction false} CommaIs(s: string, k: int)
    requires -1 <= k < |s|
    ensures
      var c := LastComma(s, k);
      && -1 <= c <= k && (c >= 0 ==> s[c] == ',' && c + 1 < |s| && s[c + 1] == ' ')
      && forall j :: c < j <= k && j + 1 < |s| ==> !(s[j] == ',' && s[j + 1] == ' ')
    decreases k + 1
  {
    if k >= 0 {
      CommaIs(s, k - 1);
    }
  }

  lemma {:induction false} BlankIs(s: string, k: int)
    requires -1 <= k < |s|
    ensures
      var b := LastBlank(s, k);
      -1 <= b <= k && (b >= 0 ==> s[b] == ' ') && forall j :: b < j <= k ==> s[j] != ' '
    decreases k + 1
  {
    if k >= 0 {
      BlankIs(s, k - 1);
    }
  }

  ghost predicate WordAfter(s: string, at: nat) {
    exists i :: at <= i < |s| && !IsSpace(s[i])
  }

  /** The text's first piece, when there is one: to its first sentence's end; to a comma, or else a blank, of a long text with none; and a word must have begun after it. */
  lemma PieceEndIff(s: string, at: nat)
    requires at > 0
    ensures PieceEnd(s) == at <==>
      WordAfter(s, at)
      && (IsEnd(s, at)
          || (NoEnd(s) && |s| > 220 && (IsCommaCut(s, at) || ((forall k: nat :: !IsCommaCut(s, k)) && IsBlankCut(s, at)))))
  {
    FirstEndFrom(s, 0);
    WordIs(s, at);
    hide IsEnd, FirstEnd, HasWord, WordAfter;
    if FirstEnd(s, 0).Some? {
      assert IsEnd(s, FirstEnd(s, 0).value);
    } else if |s| > LONG {
      LongCutIs(s, at);
    }
    CutWithWord(s, at);
  }

  lemma WordIs(s: string, at: nat)
    ensures at <= |s| ==> (HasWord(s[at..]) <==> WordAfter(s, at))
    ensures WordAfter(s, at) ==> at < |s|
  {
    if WordAfter(s, at) {
      var i :| at <= i < |s| && !IsSpace(s[i]);
      assert s[at..][i - at] == s[i];
    }
  }

  lemma CutWithWord(s: string, at: nat)
    requires at > 0 && (WordAfter(s, at) ==> at < |s|) && (at <= |s| ==> (HasWord(s[at..]) <==> WordAfter(s, at)))
    ensures PieceEnd(s) == at <==> Cut(s) == at && WordAfter(s, at)
  {
    hide Cut, HasWord, WordAfter;
  }

  lemma LongCutIs(s: string, at: nat)
    requires |s| > LONG && FirstEnd(s, 0).None? && at > 0
    ensures Cut(s) == at <==> IsCommaCut(s, at) || ((forall k: nat :: !IsCommaCut(s, k)) && IsBlankCut(s, at))
  {
    hide FirstEnd;
    CommaIs(s, LONG);
    BlankIs(s, LONG);
    var c, b := LastComma(s, LONG), LastBlank(s, LONG);
    hide LastComma, LastBlank;
    if c > 40 {
      assert IsCommaCut(s, c + 1);
    } else {
      forall k: nat
        ensures !IsCommaCut(s, k)
      {
      }
    }
  }
}
