/**
 * Printing numbers (app/src/phoneNumbers.ts:323-376), and exactly which of them
 * are read back from what is printed.
 */
module PhoneDisplay {
  import opened Options
  import opened Subsequences
  import opened Text
  import opened PhoneNumbers

  // ---- Printing -------------------------------------------------------------------------------

  /** A string's slice, as JavaScript's: a negative place is from its end. */
  function Slice(s: string, from: int, to: int): string {
    var f := At(|s|, from);
    var t := At(|s|, to);
    if f < t then s[f..t] else ""
  }

  function At(length: nat, place: int): (at: nat)
    ensures at <= length
  {
    if place < 0 then (if length + place < 0 then 0 else length + place) else if place > length then length else place
  }

  function Spaced(a: string, b: string): string {
    a + " " + b
  }

  /** The digits spaced after every third, while more than four are left. */
  function GroupsOf(d: string): string {
    if |d| <= 4 then d else Spaced(d[..3], GroupsOf(d[3..]))
  }

  function JoinSpaced(parts: seq<string>): string {
    if parts == [] then "" else if |parts| == 1 then parts[0] else Spaced(parts[0], JoinSpaced(parts[1..]))
  }

  method Groups(d: string) returns (joined: string)
    ensures joined == GroupsOf(d)
  {
    var out: seq<string> := [];
    var rest := d;
    while |rest| > 4
      invariant d != "" ==> rest != ""
      invariant GroupsOf(d) == Behind(out, GroupsOf(rest))
      decreases |rest|
    {
      BehindMore(out, rest[..3], GroupsOf(rest[3..]));
      out := out + [rest[..3]];
      rest := rest[3..];
    }
    if rest != "" {
      JoinedBehind(out, rest);
      out := out + [rest];
    }
    joined := JoinSpaced(out);
  }

  /** `last` after the parts. */
  function Behind(parts: seq<string>, last: string): string {
    if parts == [] then last else Spaced(parts[0], Behind(parts[1..], last))
  }

  lemma {:induction false} BehindMore(parts: seq<string>, next: string, last: string)
    ensures Behind(parts + [next], last) == Behind(parts, Spaced(next, last))
  {
    if parts == [] {
      assert Behind([next], last) == Spaced(next, Behind([], last));
    } else {
      assert (parts + [next])[1..] == parts[1..] + [next];
      BehindMore(parts[1..], next, last);
    }
  }

  lemma {:induction false} JoinedBehind(parts: seq<string>, last: string)
    ensures JoinSpaced(parts + [last]) == Behind(parts, last)
  {
    if parts != [] {
      assert (parts + [last])[1..] == parts[1..] + [last];
      JoinedBehind(parts[1..], last);
    }
  }

  /** The digits after the calling code, printed for the country's own people. */
  function National(c: Country, n: string): string
    requires n != ""
  {
    if c.dial == "61" then
      if n[0] == '1' then
        if |n| == 10 then Spaced(Slice(n, 0, 4), Spaced(Slice(n, 4, 7), Slice(n, 7, |n|))) else GroupsOf(n)
      else if n[0] == '4' || n[0] == '5' then "0" + Spaced(Slice(n, 0, 3), Spaced(Slice(n, 3, 6), Slice(n, 6, |n|)))
      else "0" + Spaced(n[..1], Spaced(Slice(n, 1, 5), Slice(n, 5, |n|)))
    else if c.dial == "64" then "0" + Spaced(Slice(n, 0, |n| - 7), Spaced(Slice(n, -7, -4), Slice(n, -4, |n|)))
    else if c.dial == "44" then
      if n[0] == '2' && |n| == 10 then "0" + Spaced(Slice(n, 0, 2), Spaced(Slice(n, 2, 6), Slice(n, 6, |n|)))
      else "0" + Spaced(Slice(n, 0, 4), Slice(n, 4, |n|))
    else if c.dial == "1" then "(" + Spaced(Slice(n, 0, 3) + ")", Slice(n, 3, 6) + "-" + Slice(n, 6, |n|))
    else c.trunk + GroupsOf(n)
  }

  /** A number's digits after its calling code, as it is written abroad. */
  function AbroadDigits(cc: string, n: string): string
    requires n != ""
  {
    if cc == "61" then
      if n[0] == '4' || n[0] == '5' then Spaced(Slice(n, 0, 3), Spaced(Slice(n, 3, 6), Slice(n, 6, |n|)))
      else Spaced(n[..1], Spaced(Slice(n, 1, 5), Slice(n, 5, |n|)))
    else if cc == "64" then Spaced(Slice(n, 0, |n| - 7), Spaced(Slice(n, -7, -4), Slice(n, -4, |n|)))
    else if cc == "44" then
      if n[0] == '2' && |n| == 10 then Spaced(Slice(n, 0, 2), Spaced(Slice(n, 2, 6), Slice(n, 6, |n|)))
      else Spaced(Slice(n, 0, 4), Slice(n, 4, |n|))
    else if cc == "1" && |n| == 10 then Spaced(Slice(n, 0, 3), Spaced(Slice(n, 3, 6), Slice(n, 6, |n|)))
    else GroupsOf(n)
  }

  /** What is shown for a caller id: the national or the international form of what was read, or the text trimmed. */
  function Display(raw: string, r: Reader): string
    requires CountryOk(r.country)
  {
    var text := Trim(raw);
    var e164 := ToE164(text, r);
    if e164.None? then text
    else
      var (cc, n) := SplitE164(e164.value);
      RestIsLong(text, r);
      if cc == r.country.dial then National(r.country, n) else "+" + Spaced(cc, AbroadDigits(cc, n))
  }

  // ---- The digits printed ----------------------------------------------------------------------------

  lemma SpacedKeeps(a: string, b: string)
    ensures Keep(Spaced(a, b), Unmarked()) == Keep(a, Unmarked()) + Keep(b, Unmarked())
  {
    KeepJoin(a + " ", b, Unmarked());
    KeepJoin(a, " ", Unmarked());
    KeepNone(" ", Unmarked());
    assert Keep(a, Unmarked()) + "" == Keep(a, Unmarked());
  }

  lemma DigitsKept(s: string)
    requires AllDigits(s)
    ensures Keep(s, Unmarked()) == s
  {
    KeepAll(s, Unmarked());
  }

  lemma ThreeKeep(a: string, b: string, c: string)
    requires AllDigits(a) && AllDigits(b) && AllDigits(c)
    ensures Keep(Spaced(a, Spaced(b, c)), Unmarked()) == a + b + c
  {
    hide Spaced, AllDigits, Unmarked;
    SpacedKeeps(a, Spaced(b, c));
    SpacedKeeps(b, c);
    DigitsKept(a);
    DigitsKept(b);
    DigitsKept(c);
    JoinAgain(a, b, c);
  }

  lemma {:induction false} GroupsKeep(d: string)
    requires AllDigits(d)
    ensures Keep(GroupsOf(d), Unmarked()) == d
    decreases |d|
  {
    hide Spaced, Unmarked;
    if |d| <= 4 {
      DigitsKept(d);
    } else {
      SpacedKeeps(d[..3], GroupsOf(d[3..]));
      DigitsKept(d[..3]);
      GroupsKeep(d[3..]);
      assert d == d[..3] + d[3..];
    }
  }

  /** What is printed before a local number's digits. */
  function Prefix(c: Country, n: string): string
    requires n != ""
  {
    if c.dial == "61" then (if n[0] == '1' then "" else "0")
    else if c.dial == "64" || c.dial == "44" then "0"
    else if c.dial == "1" then ""
    else c.trunk
  }

  lemma SliceIs(n: string, from: int, to: int, a: nat, b: nat)
    requires a == At(|n|, from) && b == At(|n|, to) && a <= b
    ensures Slice(n, from, to) == n[a..b]
  {
  }

  lemma CutInThree(n: string, i: nat, j: nat)
    requires AllDigits(n)
    ensures Slice(n, 0, i) + Slice(n, i, j) + Slice(n, j, |n|) == n || i > j
    ensures AllDigits(Slice(n, 0, i)) && AllDigits(Slice(n, i, j)) && AllDigits(Slice(n, j, |n|))
  {
    if i <= j {
      var a, b := At(|n|, i), At(|n|, j);
      assert a <= b;
      SliceIs(n, 0, i, 0, a);
      SliceIs(n, i, j, a, b);
      SliceIs(n, j, |n|, b, |n|);
      assert n[..a] + n[a..b] + n[b..] == n;
    }
  }

  lemma InThree(n: string, i: nat, j: nat)
    requires AllDigits(n) && i <= j
    ensures Keep(Spaced(Slice(n, 0, i), Spaced(Slice(n, i, j), Slice(n, j, |n|))), Unmarked()) == n
  {
    hide Slice, AllDigits, Spaced;
    CutInThree(n, i, j);
    ThreeKeep(Slice(n, 0, i), Slice(n, i, j), Slice(n, j, |n|));
  }

  lemma InTwo(n: string, i: nat)
    requires AllDigits(n)
    ensures Keep(Spaced(Slice(n, 0, i), Slice(n, i, |n|)), Unmarked()) == n
  {
    hide Spaced;
    CutInThree(n, i, i);
    assert Slice(n, i, i) == "";
    SpacedKeeps(Slice(n, 0, i), Slice(n, i, |n|));
    DigitsKept(Slice(n, 0, i));
    DigitsKept(Slice(n, i, |n|));
    assert Slice(n, 0, i) + "" == Slice(n, 0, i);
  }

  lemma FromTheEnd(n: string)
    requires |n| >= 7
    ensures Slice(n, -7, -4) == Slice(n, |n| - 7, |n| - 4) && Slice(n, -4, |n|) == Slice(n, |n| - 4, |n|)
    ensures Slice(n, 0, 1) == n[..1]
  {
  }

  /** What is left of a number after its calling code. */
  predicate IsRest(n: string) {
    |n| >= 4 && AllDigits(n)
  }

  /** The digits printed: the number's, but New Zealand's slices overlap in one of fewer than seven. */
  function PrintedDigits(cc: string, n: string): string
    requires |n| >= 4
  {
    if cc == "64" && |n| < 7 then n[..2 * |n| - 7] + n else n
  }

  lemma OverlappingSlices(n: string)
    requires 4 <= |n| < 7
    ensures Slice(n, 0, |n| - 7) == n[..2 * |n| - 7] && Slice(n, -7, -4) == n[..|n| - 4] && Slice(n, -4, |n|) == n[|n| - 4..]
  {
  }

  lemma ZealandKeeps(n: string)
    requires IsRest(n)
    ensures Keep(Spaced(Slice(n, 0, |n| - 7), Spaced(Slice(n, -7, -4), Slice(n, -4, |n|))), Unmarked()) == PrintedDigits("64", n)
  {
    hide Slice, Spaced, Keep;
    if |n| >= 7 {
      FromTheEnd(n);
      InThree(n, |n| - 7, |n| - 4);
    } else {
      OverlappingSlices(n);
      var a, b, c := n[..2 * |n| - 7], n[..|n| - 4], n[|n| - 4..];
      ThreeKeep(a, b, c);
      assert b + c == n;
      JoinAgain(a, b, c);
    }
  }

  lemma AbroadKeeps(cc: string, n: string)
    requires IsRest(n)
    ensures Keep(AbroadDigits(cc, n), Unmarked()) == PrintedDigits(cc, n)
  {
    hide Slice, Spaced, AllDigits, Keep;
    if cc == "61" {
      FirstCut(n);
      InThree(n, 3, 6);
      InThree(n, 1, 5);
    } else if cc == "64" {
      ZealandKeeps(n);
    } else if cc == "44" {
      InThree(n, 2, 6);
      InTwo(n, 4);
    } else if cc == "1" {
      InThree(n, 3, 6);
      GroupsKeep(n);
    } else {
      GroupsKeep(n);
    }
  }

  lemma FirstCut(n: string)
    requires n != ""
    ensures Slice(n, 0, 1) == n[..1]
  {
  }

  lemma ZeroKept(s: string)
    ensures Keep("0" + s, Unmarked()) == "0" + Keep(s, Unmarked())
  {
    KeepJoin("0", s, Unmarked());
    KeepAll("0", Unmarked());
  }

  lemma NationalKeeps(c: Country, n: string)
    requires CountryOk(c) && IsRest(n)
    ensures Keep(National(c, n), Unmarked()) == Prefix(c, n) + PrintedDigits(c.dial, n)
  {
    hide Slice, Spaced, AllDigits, Keep, CountryOk;
    if c.dial == "61" {
      AustralianKeeps(c, n);
    } else if c.dial == "64" {
      ZealandKeeps(n);
      ZeroKept(Spaced(Slice(n, 0, |n| - 7), Spaced(Slice(n, -7, -4), Slice(n, -4, |n|))));
    } else if c.dial == "44" {
      InThree(n, 2, 6);
      InTwo(n, 4);
      ZeroKept(Spaced(Slice(n, 0, 2), Spaced(Slice(n, 2, 6), Slice(n, 6, |n|))));
      ZeroKept(Spaced(Slice(n, 0, 4), Slice(n, 4, |n|)));
    } else if c.dial == "1" {
      AmericanKeeps(n);
      assert "" + n == n;
    } else {
      GroupsKeep(n);
      TrunkKept(c, GroupsOf(n));
    }
  }

  lemma AustralianKeeps(c: Country, n: string)
    requires c.dial == "61" && IsRest(n)
    ensures Keep(National(c, n), Unmarked()) == Prefix(c, n) + n
  {
    hide Slice, Spaced, AllDigits, Keep;
    FirstCut(n);
    InThree(n, 4, 7);
    InThree(n, 3, 6);
    InThree(n, 1, 5);
    GroupsKeep(n);
    ZeroKept(Spaced(Slice(n, 0, 3), Spaced(Slice(n, 3, 6), Slice(n, 6, |n|))));
    ZeroKept(Spaced(n[..1], Spaced(Slice(n, 1, 5), Slice(n, 5, |n|))));
    assert "" + n == n;
  }

  lemma TrunkKept(c: Country, s: string)
    requires CountryOk(c)
    ensures Keep(c.trunk + s, Unmarked()) == c.trunk + Keep(s, Unmarked())
  {
    KeepJoin(c.trunk, s, Unmarked());
    KeepAll(c.trunk, Unmarked());
  }

  lemma AmericanKeeps(n: string)
    requires AllDigits(n)
    ensures Keep("(" + Spaced(Slice(n, 0, 3) + ")", Slice(n, 3, 6) + "-" + Slice(n, 6, |n|)), Unmarked()) == n
  {
    hide Spaced, Keep;
    var a, b, c := Slice(n, 0, 3), Slice(n, 3, 6), Slice(n, 6, |n|);
    CutInThree(n, 3, 6);
    hide Slice, AllDigits;
    KeepJoin("(", Spaced(a + ")", b + "-" + c), Unmarked());
    KeepNone("(", Unmarked());
    SpacedKeeps(a + ")", b + "-" + c);
    KeepJoin(a, ")", Unmarked());
    KeepNone(")", Unmarked());
    KeepJoin(b + "-", c, Unmarked());
    KeepJoin(b, "-", Unmarked());
    KeepNone("-", Unmarked());
    DigitsKept(a);
    DigitsKept(b);
    DigitsKept(c);
    assert a + "" == a && b + "" == b && "" + (a + (b + c)) == a + b + c;
  }

  // ---- What is printed is read as a number -----------------------------------------------------------

  /** No "(0)" in it, and it begins with a digit, a plus or a bracket. */
  predicate PrintedWell(x: string) {
    BeginsAsNumber(x) && (forall i :: 1 <= i < |x| ==> x[i] != '(') && (x[0] == '(' ==> |x| > 2 && IsDigit(x[1]) && x[2] != ')')
    && (exists i :: 0 <= i < |x| && IsDigit(x[i]))
  }

  lemma PrintedNotDropped(x: string)
    requires PrintedWell(x)
    ensures DropBracketed(Trim(x)) == Trim(x)
  {
    hide IsSpace, Trim, IsDigit;
    NotSpace(x[0]);
    TrimFrom(x);
    var t := Trim(x);
    if x[0] == '(' {
      NotSpace(x[1]);
      AfterTheBracket(x, t);
    } else {
      NotBracketed(t);
    }
  }

  lemma AfterTheBracket(x: string, t: string)
    requires PrintedWell(x) && x[0] == '(' && 2 <= |t| <= |x| && t == x[..|t|]
    ensures DropBracketed(t) == t
  {
    forall i | 0 <= i < |t[1..]|
      ensures t[1..][i] != '('
    {
      assert t[1..][i] == x[i + 1];
    }
    NotBracketed(t[1..]);
  }

  lemma PrintedReads(x: string, r: Reader)
    requires ReaderOk(r) && PrintedWell(x)
    ensures ToE164(x, r) == ReadNumber(r.country, Keep(x, Unmarked()))
  {
    var i :| 0 <= i < |x| && IsDigit(x[i]);
    PrintedNotDropped(x);
    hide ReaderOk, Trim, DropBracketed, ToE164, ReadNumber, Keep, Unmarked;
    ReadPlain(x, r, i);
  }

  /** Nothing but digits and spaces. */
  predicate Plain(s: string) {
    forall i :: 0 <= i < |s| ==> IsDigit(s[i]) || s[i] == ' '
  }

  lemma SpacedPlain(a: string, b: string)
    requires Plain(a) && Plain(b)
    ensures Plain(Spaced(a, b))
  {
  }

  lemma SlicePlain(n: string, from: int, to: int)
    requires AllDigits(n)
    ensures Plain(Slice(n, from, to))
  {
  }

  lemma {:induction false} GroupsPlain(d: string)
    requires AllDigits(d)
    ensures Plain(GroupsOf(d)) && (d != "" ==> GroupsOf(d) != "" && GroupsOf(d)[0] == d[0])
    decreases |d|
  {
    if |d| > 4 {
      GroupsPlain(d[3..]);
      hide Plain;
      SlicePlain(d, 0, 3);
      assert Slice(d, 0, 3) == d[..3];
      SpacedPlain(d[..3], GroupsOf(d[3..]));
    }
  }

  lemma PartsPlain(n: string, i: int, j: int, k: int, l: int)
    requires AllDigits(n)
    ensures Plain(Spaced(Slice(n, 0, i), Spaced(Slice(n, j, k), Slice(n, l, |n|)))) && Plain(Spaced(Slice(n, 0, i), Slice(n, j, |n|)))
  {
    hide Slice, AllDigits, Plain, Spaced;
    SlicePlain(n, 0, i);
    SlicePlain(n, j, k);
    SlicePlain(n, l, |n|);
    SlicePlain(n, j, |n|);
    SpacedPlain(Slice(n, j, k), Slice(n, l, |n|));
    SpacedPlain(Slice(n, 0, i), Spaced(Slice(n, j, k), Slice(n, l, |n|)));
    SpacedPlain(Slice(n, 0, i), Slice(n, j, |n|));
  }

  lemma AbroadPlain(cc: string, n: string)
    requires IsRest(n)
    ensures Plain(AbroadDigits(cc, n))
  {
    hide Slice, Plain, Spaced, AllDigits;
    FirstCut(n);
    PartsPlain(n, 3, 3, 6, 6);
    PartsPlain(n, 1, 1, 5, 5);
    PartsPlain(n, |n| - 7, -7, -4, -4);
    PartsPlain(n, 2, 2, 6, 6);
    PartsPlain(n, 4, 4, 0, 0);
    GroupsPlain(n);
  }

  lemma ZeroPlain(s: string)
    requires Plain(s)
    ensures PrintedWell("0" + s)
  {
    assert IsDigit(("0" + s)[0]);
  }

  lemma DigitFirst(s: string)
    requires Plain(s) && s != "" && IsDigit(s[0])
    ensures PrintedWell(s)
  {
  }

  lemma NationalPrinted(c: Country, n: string)
    requires CountryOk(c) && IsRest(n)
    ensures PrintedWell(National(c, n))
  {
    hide Slice, Plain, Spaced, CountryOk, AllDigits, PrintedWell;
    GroupsPlain(n);
    if c.dial == "61" && n[0] == '1' {
      TollFreePrinted(n);
    } else if c.dial == "61" || c.dial == "64" || c.dial == "44" {
      FirstCut(n);
      PartsPlain(n, 3, 3, 6, 6);
      PartsPlain(n, 1, 1, 5, 5);
      PartsPlain(n, |n| - 7, -7, -4, -4);
      PartsPlain(n, 2, 2, 6, 6);
      PartsPlain(n, 4, 4, 0, 0);
      ZeroPlain(if c.dial == "61" then (if n[0] == '4' || n[0] == '5' then Spaced(Slice(n, 0, 3), Spaced(Slice(n, 3, 6), Slice(n, 6, |n|))) else Spaced(n[..1], Spaced(Slice(n, 1, 5), Slice(n, 5, |n|))))
                else if c.dial == "64" then Spaced(Slice(n, 0, |n| - 7), Spaced(Slice(n, -7, -4), Slice(n, -4, |n|)))
                else if n[0] == '2' && |n| == 10 then Spaced(Slice(n, 0, 2), Spaced(Slice(n, 2, 6), Slice(n, 6, |n|)))
                else Spaced(Slice(n, 0, 4), Slice(n, 4, |n|)));
    } else if c.dial == "1" {
      AmericanPrinted(n);
    } else {
      TrunkPrinted(c, n);
    }
  }

  lemma TollFreePrinted(n: string)
    requires AllDigits(n) && |n| >= 4
    ensures PrintedWell(Spaced(Slice(n, 0, 4), Spaced(Slice(n, 4, 7), Slice(n, 7, |n|)))) && PrintedWell(GroupsOf(n))
  {
    GroupsPlain(n);
    DigitFirst(GroupsOf(n));
    PartsPlain(n, 4, 4, 7, 7);
    var x := Spaced(Slice(n, 0, 4), Spaced(Slice(n, 4, 7), Slice(n, 7, |n|)));
    assert x[0] == n[0];
    DigitFirst(x);
  }

  lemma TrunkPrinted(c: Country, n: string)
    requires CountryOk(c) && AllDigits(n) && |n| >= 4
    ensures PrintedWell(c.trunk + GroupsOf(n))
  {
    GroupsPlain(n);
    var x := c.trunk + GroupsOf(n);
    assert x[0] == if c.trunk == "" then GroupsOf(n)[0] else c.trunk[0];
    DigitFirst(x);
  }

  lemma AmericanPrinted(n: string)
    requires AllDigits(n) && |n| >= 4
    ensures PrintedWell("(" + Spaced(Slice(n, 0, 3) + ")", Slice(n, 3, 6) + "-" + Slice(n, 6, |n|)))
  {
    var x := "(" + Spaced(Slice(n, 0, 3) + ")", Slice(n, 3, 6) + "-" + Slice(n, 6, |n|));
    assert x[1] == n[0] && x[2] == n[1] && IsDigit(x[1]);
  }

  // ---- Printing, then reading ------------------------------------------------------------------------------

  /** A local number's digits as printed, read: itself, exactly when it fits its country and does not begin as a call abroad does. */
  lemma DigitsAgainIff(c: Country, n: string)
    requires CountryOk(c) && AllDigits(n) && |n| >= 4
    ensures ReadDigits(c, Prefix(c, n) + n) == Some("+" + c.dial + n) <==> Fits(c, n) && !Abroad(c, Prefix(c, n) + n)
  {
    hide International, Fits;
    var s := Prefix(c, n) + n;
    var e := "+" + c.dial + n;
    if c.exit != "" && StartsWith(s, c.exit) {
      AbroadIsShorter(c, s[|c.exit|..], |e|);
    } else if c.dial != "1" && StartsWith(s, "00") {
      AbroadIsShorter(c, s[2..], |e|);
    } else {
      LocalAgainIff(c, n);
    }
  }

  lemma AbroadIsShorter(c: Country, d: string, most: nat)
    requires |d| + 1 < most
    ensures International(d).Some? ==> |International(d).value| < most
  {
    hide International;
    if International(d).Some? {
      InternationalIs(d);
    }
  }

  lemma LocalAgainIff(c: Country, n: string)
    requires CountryOk(c) && AllDigits(n) && |n| >= 4 && !Abroad(c, Prefix(c, n) + n)
    ensures ReadDigits(c, Prefix(c, n) + n) == Some("+" + c.dial + n) <==> Fits(c, n)
  {
    var s := Prefix(c, n) + n;
    hide International, AllDigits;
    if Prefix(c, n) == c.trunk {
      assert s[|c.trunk|..] == n;
      if !Fits(c, n) {
        NotItself(c, n, s);
      }
    } else {
      assert s == n;
      OtherPrefix(c, n);
    }
  }

  /** The calling code's path gives another number. */
  lemma NotItself(c: Country, n: string, s: string)
    requires CountryOk(c) && s == c.trunk + n && |n| >= 4 && !Fits(c, n) && !Abroad(c, s)
    ensures ReadDigits(c, s) != Some("+" + c.dial + n)
  {
    hide Fits, International;
    assert s[|c.trunk|..] == n;
    if c.trunk == "" {
      assert s == n;
    }
    if c.dial == "1" {
      AmericanTrunk(c, n, s);
    } else {
      TrunkIsNoDial(c, n, s);
    }
  }

  lemma TrunkIsNoDial(c: Country, n: string, s: string)
    requires CountryOk(c) && s == c.trunk + n && c.dial != "1"
    ensures "+" + s != "+" + c.dial + n
  {
    var a, b := "+" + s, "+" + c.dial + n;
    if |c.trunk| == |c.dial| {
      assert a[1] == c.trunk[0] && b[1] == c.dial[0];
    } else {
      assert |a| != |b|;
    }
  }

  lemma AmericanTrunk(c: Country, n: string, s: string)
    requires CountryOk(c) && s == c.trunk + n && c.dial == "1" && |n| >= 4
    ensures "+" + c.dial + s != "+" + c.dial + n
  {
    assert |"+" + c.dial + s| != |"+" + c.dial + n|;
  }

  /** Australia's numbers that begin with 1, and North America's: printed without the trunk. */
  lemma OtherPrefix(c: Country, n: string)
    requires CountryOk(c) && AllDigits(n) && |n| >= 4 && !Abroad(c, n) && Prefix(c, n) != c.trunk && Prefix(c, n) == ""
    ensures ReadDigits(c, n) == Some("+" + c.dial + n) <==> Fits(c, n)
  {
    hide International;
    if c.dial == "1" {
      assert n[..1] == [n[0]];
      if n[0] == '1' {
        assert |"+" + c.dial + n[1..]| != |"+" + c.dial + n|;
        assert |"+" + n| != |"+" + c.dial + n|;
      }
    } else {
      assert c.dial == "61" && n[0] == '1';
    }
  }

  lemma RestIsDigits(e: string)
    requires IsE164(e)
    ensures
      var (cc, n) := SplitE164(e);
      AllDigits(cc) && AllDigits(n) && cc + n == e[1..] && e == "+" + cc + n && (n != "" ==> |cc| >= 1 && IsDigit(cc[0]))
  {
    var d := e[1..];
    assert e == "+" + d;
    var (cc, n) := SplitE164(e);
    assert d == cc + n && "+" + cc + n == "+" + (cc + n);
  }

  /** New Zealand's short numbers, printed with digits twice, are never read as themselves. */
  lemma ShortNotItself(c: Country, n: string)
    requires CountryOk(c) && c.dial == "64" && IsRest(n) && |n| < 7
    ensures !Fits(c, n) && ReadDigits(c, Prefix(c, n) + PrintedDigits(c.dial, n)) != Some("+" + c.dial + n)
  {
    hide International;
    var s := Prefix(c, n) + PrintedDigits(c.dial, n);
    assert s == "0" + PrintedDigits("64", n) && "+" + c.dial + n == "+64" + n;
    assert |s| == 3 * |n| - 6 && s[1] == n[0] && c.exit == "00";
    if StartsWith(s, "00") {
      assert s[..2][1] == n[0];
      ShortAbroad(n, s[2..]);
    } else {
      assert |s[1..]| != |n| && |"+64" + s[1..]| == 3 + |s[1..]|;
      assert s[0] != c.dial[0];
    }
  }

  lemma ShortAbroad(n: string, d: string)
    requires IsRest(n) && |n| < 7 && n[0] == '0' && "00" + d == "0" + PrintedDigits("64", n)
    ensures International(d) != Some("+64" + n)
  {
    hide Trunk0;
    var e := "+64" + n;
    assert |d| == 3 * |n| - 8;
    if International(d) == Some(e) {
      var k := DialLength(d);
      assert |d| <= |e| <= |d| + 1;
      assert |n| == 5;
      if |e| == |d| + 1 {
        assert e[1..] == d[..k] + d[k..] == d;
        ShortTrunk(d, n);
      }
      assert false;
    }
  }

  lemma ShortTrunk(d: string, n: string)
    requires d == "64" + n && n != "" && n[0] == '0'
    ensures International(d) != Some("+64" + n)
  {
    assert d[..2] == "64" && d[2..] == n && DialLength(d) == 2;
    assert |"+64" + n[1..]| != |"+64" + n|;
  }

  /**
   * A number of the country itself, printed and read again, is the number
   * exactly when it fits the country and, as printed, does not begin as a call
   * abroad does.
   */
  lemma LocalRoundTripIff(raw: string, r: Reader)
    requires ReaderOk(r) && ToE164(raw, r).Some?
    requires SplitE164(ToE164(raw, r).value).0 == r.country.dial
    ensures
      var c, n := r.country, SplitE164(ToE164(raw, r).value).1;
      n != "" && (ToE164(Display(raw, r), r) == ToE164(raw, r) <==> Fits(c, n) && !Abroad(c, Prefix(c, n) + n))
  {
    hide ToE164, Fits, Abroad, ReaderOk, CountryOk, SplitE164, National, Prefix, PrintedDigits, IsE164;
    var c, e := r.country, ToE164(raw, r).value;
    OkCountry(r);
    SameTrimmed(raw, r);
    RestIsLong(raw, r);
    ReadIsE164(raw, r);
    RestIsDigits(e);
    var n := SplitE164(e).1;
    NationalPrinted(c, n);
    NationalKeeps(c, n);
    PrintedReads(National(c, n), r);
    PrintedAgainIff(c, n);
  }

  lemma PrintedAgainIff(c: Country, n: string)
    requires CountryOk(c) && IsRest(n)
    ensures ReadNumber(c, Prefix(c, n) + PrintedDigits(c.dial, n)) == Some("+" + c.dial + n) <==> Fits(c, n) && !Abroad(c, Prefix(c, n) + n)
  {
    hide ReadNumber, ReadDigits, Abroad;
    PrefixIsDigits(c, n, PrintedDigits(c.dial, n));
    if c.dial == "64" && |n| < 7 {
      ShortNotItself(c, n);
    } else {
      DigitsAgainIff(c, n);
    }
  }

  lemma PrefixIsDigits(c: Country, n: string, d: string)
    requires CountryOk(c) && AllDigits(d) && n != "" && d != ""
    ensures ReadNumber(c, Prefix(c, n) + d) == ReadDigits(c, Prefix(c, n) + d)
  {
    hide ReadDigits;
  }

  /** Printed abroad, a number is read as itself: a short one of New Zealand when what is doubled is the trunk. */
  predicate ComesBack(e: string)
    requires |SplitE164(e).1| >= 4
  {
    var (cc, n) := SplitE164(e);
    if cc == "64" && |n| < 7 then |n| == 4 && n[0] == '0' else ReadsAsItself(e)
  }

  /**
   * A number of another country: exactly when no trunk is left after its
   * calling code, and it has seven digits (New Zealand's short ones: when the
   * digit printed twice is a trunk).
   */
  lemma ForeignRoundTripIff(raw: string, r: Reader)
    requires ReaderOk(r) && ToE164(raw, r).Some?
    requires SplitE164(ToE164(raw, r).value).0 != r.country.dial
    ensures
      var e := ToE164(raw, r).value;
      |SplitE164(e).1| >= 4 && (ToE164(Display(raw, r), r) == ToE164(raw, r) <==> ComesBack(e))
  {
    hide ToE164, ReaderOk, CountryOk, SplitE164, AbroadDigits, PrintedDigits, IsE164, International, ReadsAsItself, ComesBack;
    var e := ToE164(raw, r).value;
    OkCountry(r);
    SameTrimmed(raw, r);
    RestIsLong(raw, r);
    ReadIsE164(raw, r);
    RestIsDigits(e);
    var (cc, n) := SplitE164(e);
    ForeignPrinted(cc, n);
    PrintedReads("+" + Spaced(cc, AbroadDigits(cc, n)), r);
    ForeignAgainIff(e, r.country);
  }

  lemma ForeignAgainIff(e: string, c: Country)
    requires IsE164(e) && IsRest(SplitE164(e).1)
    ensures
      var (cc, n) := SplitE164(e);
      ReadNumber(c, "+" + cc + PrintedDigits(cc, n)) == Some(e) <==> ComesBack(e)
  {
    hide International, ReadsAsItself, SplitE164, IsE164, ReadNumber;
    RestIsDigits(e);
    var (cc, n) := SplitE164(e);
    var d := cc + PrintedDigits(cc, n);
    assert "+" + cc + PrintedDigits(cc, n) == "+" + d && ("+" + d)[1..] == d;
    PlusRead("+" + d, c);
    if cc == "64" && |n| < 7 {
      assert e == "+64" + n;
      ShortForeign(n, d);
    } else {
      assert d == e[1..];
      InternationalAgainIff(e);
    }
  }

  lemma ShortForeign(n: string, d: string)
    requires IsRest(n) && |n| < 7 && d == "64" + PrintedDigits("64", n)
    ensures International(d) == Some("+64" + n) <==> |n| == 4 && n[0] == '0'
  {
    var rest := PrintedDigits("64", n);
    assert d[..2] == "64" && d[2..] == rest && rest[0] == n[0] && |rest| == 3 * |n| - 7;
    assert DialLength(d) == 2 && AllDigits(d) && d[0] == '6';
    assert |"+64" + rest[1..]| == 2 + |rest| && |"+64" + rest| == 3 + |rest|;
    assert rest[..1] == [n[0]] && "+" + d[..2] == "+64";
    if |n| == 4 {
      assert rest[1..] == n;
    }
  }

  lemma ForeignPrinted(cc: string, n: string)
    requires IsRest(n) && cc != "" && AllDigits(cc)
    ensures PrintedWell("+" + Spaced(cc, AbroadDigits(cc, n)))
    ensures Keep("+" + Spaced(cc, AbroadDigits(cc, n)), Unmarked()) == "+" + cc + PrintedDigits(cc, n)
  {
    hide AbroadDigits;
    AbroadPlain(cc, n);
    AbroadKeeps(cc, n);
    var rest, printed := Spaced(cc, AbroadDigits(cc, n)), PrintedDigits(cc, n);
    SpacedKeeps(cc, AbroadDigits(cc, n));
    DigitsKept(cc);
    PlusKept(rest);
    assert "+" + (cc + printed) == "+" + cc + printed;
    PlusPrinted(cc, AbroadDigits(cc, n));
  }

  lemma PlusKept(s: string)
    ensures Keep("+" + s, Unmarked()) == "+" + Keep(s, Unmarked())
  {
    KeepJoin("+", s, Unmarked());
    KeepAll("+", Unmarked());
  }

  lemma PlusPrinted(cc: string, s: string)
    requires Plain(s) && cc != "" && AllDigits(cc)
    ensures PrintedWell("+" + Spaced(cc, s))
  {
    assert ("+" + Spaced(cc, s))[1] == cc[0];
  }

  lemma PlusRead(e: string, c: Country)
    requires |e| > 1 && e[0] == '+'
    ensures ReadNumber(c, e) == (if AllDigits(e[1..]) then International(e[1..]) else None)
  {
    hide International;
  }

  /** What is no number is shown as it is, and is still none. */
  lemma NoNumberRoundTrip(raw: string, r: Reader)
    requires CountryOk(r.country) && ToE164(raw, r).None?
    ensures Display(raw, r) == Trim(raw) && ToE164(Display(raw, r), r).None?
  {
    hide ToE164, CountryOk;
    SameTrimmed(raw, r);
  }

  /** No number of the country, as it is written there, begins as a call abroad does. */
  predicate Clear(c: Country) {
    |c.lead| > 0 && |c.exit| >= 2 && '0' !in c.lead[0] && c.exit[if c.trunk == "0" then 1 else 0] !in c.lead[0]
  }

  lemma ClearIsNotAbroad(c: Country, n: string)
    requires CountryOk(c) && Clear(c) && n != "" && Fits(c, n)
    ensures !Abroad(c, Prefix(c, n) + n)
  {
    assert n[0] in c.lead[0];
    var s, k := Prefix(c, n) + n, if c.trunk == "0" then 1 else 0;
    assert |Prefix(c, n)| == k && s[k] == n[0];
    Unlike(s, c.exit, k);
    Unlike(s, "00", k);
  }

  lemma Unlike(s: string, prefix: string, k: nat)
    requires k < |s| && k < |prefix| && s[k] != prefix[k]
    ensures !StartsWith(s, prefix)
  {
    if |s| >= |prefix| {
      assert s[..|prefix|][k] == s[k];
    }
  }
}
