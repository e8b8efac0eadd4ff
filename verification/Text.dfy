/** Characters and strings as JavaScript's regular expressions see them. */
module Text {
  import opened Subsequences

  predicate IsDigit(c: char) {
    '0' <= c <= '9'
  }

  /** The white space of a JavaScript regular expression, and of trim. */
  predicate IsSpace(c: char) {
    || '\U{0009}' <= c <= '\U{000d}' || c == ' ' || c == '\U{00a0}' || c == '\U{1680}' || '\U{2000}' <= c <= '\U{200a}'
    || c == '\U{2028}' || c == '\U{2029}' || c == '\U{202f}' || c == '\U{205f}' || c == '\U{3000}' || c == '\U{feff}'
  }

  predicate AllDigits(s: string) {
    forall i :: 0 <= i < |s| ==> IsDigit(s[i])
  }

  function TrimStart(s: string): (r: string)
    ensures |r| <= |s| && (r != "" ==> !IsSpace(r[0]))
    ensures s == s[..|s| - |r|] + r && forall i :: 0 <= i < |s| - |r| ==> IsSpace(s[i])
  {
    if s != "" && IsSpace(s[0]) then TrimStart(s[1..]) else s
  }

  function TrimEnd(s: string): (r: string)
    ensures |r| <= |s| && (r != "" ==> !IsSpace(r[|r| - 1])) && r == s[..|r|]
    ensures forall i :: |r| <= i < |s| ==> IsSpace(s[i])
  {
    if s != "" && IsSpace(s[|s| - 1]) then TrimEnd(s[..|s| - 1]) else s
  }

  function Trim(s: string): string {
    TrimEnd(TrimStart(s))
  }

  /** What is left of a string without some of its characters. */
  function Keep(s: string, keep: char -> bool): (r: string)
    ensures |r| <= |s|
    ensures forall i :: 0 <= i < |r| ==> keep(r[i])
  {
    if s == "" then "" else (if keep(s[0]) then [s[0]] else "") + Keep(s[1..], keep)
  }

  lemma {:induction false} KeepJoin(s: string, t: string, keep: char -> bool)
    ensures Keep(s + t, keep) == Keep(s, keep) + Keep(t, keep)
  {
    if s == "" {
      assert s + t == t;
    } else {
      assert (s + t)[1..] == s[1..] + t;
      KeepJoin(s[1..], t, keep);
      JoinAgain(if keep(s[0]) then [s[0]] else "", Keep(s[1..], keep), Keep(t, keep));
    }
  }

  lemma {:induction false} KeepAll(s: string, keep: char -> bool)
    requires forall i :: 0 <= i < |s| ==> keep(s[i])
    ensures Keep(s, keep) == s
  {
    if s != "" {
      KeepAll(s[1..], keep);
    }
  }

  lemma {:induction false} KeepNone(s: string, keep: char -> bool)
    requires forall i :: 0 <= i < |s| ==> !keep(s[i])
    ensures Keep(s, keep) == ""
  {
    if s != "" {
      KeepNone(s[1..], keep);
    }
  }

  lemma TrimmedTwice(s: string)
    ensures Trim(Trim(s)) == Trim(s)
  {
    var a := TrimStart(s);
    var b := TrimEnd(a);
    if b != "" {
      assert b[0] == a[0];
    }
  }

  lemma TrimNothing(s: string)
    requires s != "" && !IsSpace(s[0]) && !IsSpace(s[|s| - 1])
    ensures Trim(s) == s
  {
  }

  lemma TrimFrom(s: string)
    requires s != "" && !IsSpace(s[0])
    ensures Trim(s) != "" && |Trim(s)| <= |s| && Trim(s) == s[..|Trim(s)|]
    ensures forall i :: 0 <= i < |s| && !IsSpace(s[i]) ==> i < |Trim(s)|
  {
    hide IsSpace;
    assert TrimStart(s) == s;
  }

  lemma NotSpace(c: char)
    requires IsDigit(c) || c == '+' || c == '('
    ensures !IsSpace(c)
  {
  }
}
