/**
 * Which numbers are read, and as what (app/src/phoneNumbers.ts): every way of
 * writing a country's number, and the two of them that are taken for another.
 */
module NumbersRead {
  import opened Options
  import opened Text
  import opened PhoneNumbers
  import opened PhoneDisplay
  import opened Countries

  // ---- Calling codes ---------------------------------------------------------------------

  const TWO_DIGITS: set<string> := {
    "20", "27", "30", "31", "32", "33", "34", "36", "39", "40", "41", "43", "44", "45", "46", "47", "48", "49", "51", "52", "53", "54",
    "55", "56", "57", "58", "60", "61", "62", "63", "64", "65", "66", "81", "82", "84", "86", "90", "91", "92", "93", "94", "95", "98"
  }

  lemma TwoDigitCodes(a: char, b: char)
    ensures TwoDigits(a, b) <==> [a, b] in TWO_DIGITS
  {
    var s := [a, b];
    assert s[0] == a && s[1] == b;
    assert TwoDigits(a, b) ==> s in TWO_DIGITS;
  }

  /** One digit (1 or 7), two (those listed), or three. */
  predicate IsCode(cc: string) {
    AllDigits(cc) && cc != "" && cc[0] != '0' &&
    if cc[0] == '1' || cc[0] == '7' then |cc| == 1 else cc in TWO_DIGITS || (|cc| == 3 && cc[..2] !in TWO_DIGITS)
  }

  lemma CodeLength(cc: string, rest: string)
    requires IsCode(cc) && |cc| + |rest| >= 3
    ensures DialLength(cc + rest) == |cc|
  {
    hide TwoDigits;
    var d := cc + rest;
    assert d[0] == cc[0];
    if cc[0] != '1' && cc[0] != '7' {
      assert |cc| >= 2 by { TwoLong(cc); }
      assert d[1] == cc[1] && cc[..2] == [cc[0], cc[1]];
      TwoDigitCodes(cc[0], cc[1]);
      TwoLong(cc);
    }
  }

  lemma TwoLong(cc: string)
    ensures cc in TWO_DIGITS ==> |cc| == 2 && cc[..2] == cc
  {
  }

  // ---- Numbers given with their country -------------------------------------------------------

  /** A trunk of 0 after a calling code of a country that has one is not part of the number. */
  ghost function WithoutTrunk(cc: string, rest: string): string {
    if rest != "" && rest[0] == '0' && InTable(COUNTRIES, cc) then rest[1..] else rest
  }

  ghost function AsInternational(cc: string, rest: string): Option<string> {
    if 7 <= |cc| + |rest| <= 15 && |WithoutTrunk(cc, rest)| >= 4 then Some("+" + cc + WithoutTrunk(cc, rest)) else None
  }

  lemma InternationalGives(cc: string, rest: string)
    requires IsCode(cc) && AllDigits(rest)
    ensures International(cc + rest) == AsInternational(cc, rest)
  {
    hide InTable, Trunk0, DialLength, COUNTRIES, TWO_DIGITS;
    var d := cc + rest;
    if 7 <= |d| {
      CodeLength(cc, rest);
      assert d[..|cc|] == cc && d[|cc|..] == rest;
      TrunksAreTheTables(cc);
      assert StartsWith(rest, "0") <==> rest != "" && rest[0] == '0' by {
        if rest != "" {
          assert rest[..1] == [rest[0]];
        }
      }
    }
  }

  /** A number with a plus and its calling code is read as it is, but a trunk after the code. */
  lemma ReadWithPlus(cc: string, rest: string, r: Reader)
    requires ReaderOk(r) && IsCode(cc) && AllDigits(rest)
    ensures ToE164("+" + cc + rest, r) == AsInternational(cc, rest)
  {
    var s := "+" + (cc + rest);
    assert s == "+" + cc + rest && s[1..] == cc + rest;
    assert Numeric(s);
    hide ReaderOk, ToE164, AsInternational, IsCode, International, Numeric;
    InternationalGives(cc, rest);
    CompactAgain(s, r);
  }

  lemma NoPlus(d: string)
    requires AllDigits(d) && d != ""
    ensures Numeric(d) && d[0] != '+'
  {
    assert IsDigit(d[0]);
  }

  /** It begins with these. */
  predicate Begins(s: string, first: string) {
    |first| <= |s| && s[..|first|] == first
  }

  lemma OutRead(c: Country, d: string)
    requires CountryOk(c) && AllDigits(d) && d != ""
    ensures ReadNumber(c, c.exit + d) == International(d) && Numeric(c.exit + d)
  {
    hide International, Fits;
    var s := c.exit + d;
    NoPlus(s);
    assert s[..|c.exit|] == c.exit && s[|c.exit|..] == d;
  }

  lemma ZerosRead(c: Country, d: string)
    requires CountryOk(c) && AllDigits(d) && d != "" && c.dial != "1" && !Begins("00" + d, c.exit)
    ensures ReadNumber(c, "00" + d) == International(d)
  {
    hide International, Fits;
    var s := "00" + d;
    NoPlus(s);
    assert s[..2] == "00" && s[2..] == d;
  }

  lemma PlusRead(c: Country, d: string)
    requires AllDigits(d) && d != ""
    ensures ReadNumber(c, "+" + d) == International(d) && Numeric("+" + d) && Numeric("00" + d)
  {
    hide International;
    NoPlus("00" + d);
    assert ("+" + d)[1..] == d;
  }

  /** What a country's calls abroad begin with is a plus; so is 00, but in North America and where it begins that. */
  lemma ReadAbroad(d: string, r: Reader)
    requires ReaderOk(r) && AllDigits(d) && d != ""
    ensures ToE164(r.country.exit + d, r) == ToE164("+" + d, r)
    ensures r.country.dial != "1" && !Begins("00" + d, r.country.exit) ==> ToE164("00" + d, r) == ToE164("+" + d, r)
  {
    hide ReaderOk, ToE164, ReadNumber, Numeric, CountryOk, Begins;
    var c := r.country;
    OkCountry(r);
    PlusRead(c, d);
    OutRead(c, d);
    CompactAgain("+" + d, r);
    CompactAgain(c.exit + d, r);
    CompactAgain("00" + d, r);
    if c.dial != "1" && !Begins("00" + d, c.exit) {
      ZerosRead(c, d);
    }
  }

  // ---- Numbers of the country itself ------------------------------------------------------------

  /** What the table says of a country's number without its trunk: how long it is, and what it starts with. */
  predicate NumberOf(c: Country, n: string) {
    && AllDigits(n) && c.least <= |n| <= c.most && |c.lead| <= |n|
    && forall k :: 0 <= k < |c.lead| ==> n[k] in c.lead[k]
  }

  predicate Told(c: Country) {
    && c.exit != "" && c.exit[0] == '0' && (c.code == "IT" <==> c.dial == "39") && (c.code == "JP" <==> c.dial == "81")
    && (c.trunk == "" && c.dial != "39" ==> |c.dial| + c.least > c.most)
    && (c.dial == "39" ==> c == Country("IT", "39", "", "00", 6, 11, [{'0', '3'}]))
    && (c.dial == "81" ==> c == Country("JP", "81", "0", "010", 9, 10, [D19]))
  }

  lemma Table1Told()
    ensures forall c :: c in TABLE1 ==> Told(c)
  {
  }

  lemma Table2Told()
    ensures forall c :: c in TABLE2 ==> Told(c)
  {
  }

  lemma Table3Told()
    ensures forall c :: c in TABLE3 ==> Told(c)
  {
  }

  lemma Table4Told()
    ensures forall c :: c in TABLE4 ==> Told(c)
  {
  }

  lemma Table5Told()
    ensures forall c :: c in TABLE5 ==> Told(c)
  {
  }

  lemma Table6Told()
    ensures forall c :: c in TABLE6 ==> Told(c)
  {
  }

  lemma Table7Told()
    ensures forall c :: c in TABLE7 ==> Told(c)
  {
  }

  lemma Table8Told()
    ensures forall c :: c in TABLE8 ==> Told(c)
  {
  }

  lemma AllTold()
    ensures forall c :: c in COUNTRIES ==> Told(c)
  {
    hide Told;
    Table1Told();
    Table2Told();
    Table3Told();
    Table4Told();
    Table5Told();
    Table6Told();
    Table7Told();
    Table8Told();
  }

  lemma NumberFits(c: Country, n: string)
    requires NumberOf(c, n) && CountryOk(c)
    ensures Fits(c, n) && n != "" && n[0] in c.lead[0]
  {
  }

  /** A number read as a call abroad is shorter than what was written. */
  lemma AbroadIsShorter(c: Country, s: string)
    requires CountryOk(c) && Abroad(c, s) && ReadDigits(c, s).Some?
    ensures |ReadDigits(c, s).value| < |s|
  {
    hide International, Fits;
    if StartsWith(s, c.exit) {
      InternationalIs(s[|c.exit|..]);
    } else {
      InternationalIs(s[2..]);
    }
  }

  lemma TrunkRead(c: Country, n: string)
    requires CountryOk(c) && NumberOf(c, n)
    ensures ReadDigits(c, c.trunk + n) == Some("+" + c.dial + n) <==> !Abroad(c, c.trunk + n)
  {
    var s := c.trunk + n;
    assert s[..|c.trunk|] == c.trunk && s[|c.trunk|..] == n;
    NumberFits(c, n);
    hide International, Fits, CountryOk;
    if Abroad(c, s) && ReadDigits(c, s).Some? {
      AbroadIsShorter(c, s);
    }
  }

  lemma JapanAbroadIff(n: string)
    requires |n| >= 2
    ensures "0" + n != "" && (Begins("0" + n, "010") <==> Begins(n, "10"))
  {
    var s := "0" + n;
    assert s[..3] == ['0', n[0], n[1]] && n[..2] == [n[0], n[1]];
  }

  lemma TrunkAbroadIff(c: Country, n: string)
    requires CountryOk(c) && Told(c) && NumberOf(c, n) && (c.dial != "81" && c.dial != "39" ==> Clear(c))
    ensures Abroad(c, c.trunk + n) <==> (c.dial == "81" && Begins(n, "10")) || (c.dial == "39" && Begins(n, "00"))
  {
    var s := c.trunk + n;
    NumberFits(c, n);
    if c.dial == "81" {
      assert s[1] == n[0];
      Unlike(s, "00", 1);
      JapanAbroadIff(n);
    } else if c.dial == "39" {
      assert s == n;
    } else {
      ClearTrunk(c, n);
    }
  }

  lemma ClearTrunk(c: Country, n: string)
    requires CountryOk(c) && Told(c) && NumberOf(c, n) && Clear(c)
    ensures !Abroad(c, c.trunk + n)
  {
    var s := c.trunk + n;
    NumberFits(c, n);
    if c.trunk == "0" {
      assert s[1] == n[0];
      Unlike(s, "00", 1);
      Unlike(s, c.exit, 1);
    } else {
      assert s[0] != '0';
      Unlike(s, "00", 0);
      Unlike(s, c.exit, 0);
    }
  }

  lemma CodeRead(c: Country, n: string)
    requires CountryOk(c) && Told(c) && NumberOf(c, n)
    ensures ReadDigits(c, c.dial + n) == Some("+" + c.dial + n) <==> !(c.dial == "39" && |n| <= 9)
  {
    var s := c.dial + n;
    assert s[0] == c.dial[0] && s[..|c.dial|] == c.dial && s[|c.dial|..] == n && "+" + s == "+" + c.dial + n;
    NumberFits(c, n);
    Unlike(s, "00", 0);
    Unlike(s, c.exit, 0);
    if c.trunk != "" && c.dial != "1" {
      Unlike(s, c.trunk, 0);
    }
    if c.dial == "39" && |n| <= 9 {
      assert Fits(c, s);
      assert |"+" + c.dial + s| > |"+" + s|;
    }
  }

  lemma PlainRead(c: Country, n: string)
    requires CountryOk(c) && Told(c) && NumberOf(c, n) && c.dial == "1"
    ensures ReadDigits(c, n) == Some("+" + c.dial + n)
  {
    NumberFits(c, n);
    Unlike(n, c.exit, 0);
    Unlike(n, c.trunk, 0);
  }

  /**
   * Every number of every country of the table, written as it is dialled
   * there, is read: but Japan's that begin with 10 and Italy's with 00, which
   * begin as a call abroad. With its calling code and no plus it is read too,
   * but Italy's of nine digits or fewer, which with the code are one of its
   * longer numbers. In North America the trunk may be left out.
   */
  lemma EveryNumberIsRead(n: string, r: Reader)
    requires ReaderOk(r) && r.country in COUNTRIES && NumberOf(r.country, n)
    ensures
      var c := r.country;
      && (ToE164(c.trunk + n, r) == Some("+" + c.dial + n) <==> !(c.code == "JP" && Begins(n, "10")) && !(c.code == "IT" && Begins(n, "00")))
      && (ToE164(c.dial + n, r) == Some("+" + c.dial + n) <==> !(c.code == "IT" && |n| <= 9))
      && (c.dial == "1" ==> ToE164(n, r) == Some("+" + c.dial + n))
  {
    hide ReaderOk, CountryOk, NumberOf, Clear, Told, ToE164, ReadNumber, COUNTRIES, Begins;
    OkCountry(r);
    AllTold();
    AllClearButTwo();
    InTheTable(n, r);
  }

  lemma InTheTable(n: string, r: Reader)
    requires ReaderOk(r) && CountryOk(r.country) && Told(r.country) && NumberOf(r.country, n)
    requires r.country.code != "JP" && r.country.code != "IT" ==> Clear(r.country)
    ensures
      var c := r.country;
      && (ToE164(c.trunk + n, r) == Some("+" + c.dial + n) <==> !(c.code == "JP" && Begins(n, "10")) && !(c.code == "IT" && Begins(n, "00")))
      && (ToE164(c.dial + n, r) == Some("+" + c.dial + n) <==> !(c.code == "IT" && |n| <= 9))
      && (c.dial == "1" ==> ToE164(n, r) == Some("+" + c.dial + n))
  {
    var c := r.country;
    CodesAre(c);
    WrittenAreDigits(c, n);
    hide ReaderOk, CountryOk, Told, NumberOf, Clear, ToE164, ReadDigits, Abroad, Begins;
    TrunkRead(c, n);
    TrunkAbroadIff(c, n);
    CodeRead(c, n);
    DigitsRead(c.trunk + n, r);
    DigitsRead(c.dial + n, r);
    DigitsRead(n, r);
    if c.dial == "1" {
      PlainRead(c, n);
    }
  }

  lemma CodesAre(c: Country)
    requires Told(c)
    ensures (c.code == "IT" <==> c.dial == "39") && (c.code == "JP" <==> c.dial == "81")
  {
  }

  lemma WrittenAreDigits(c: Country, n: string)
    requires CountryOk(c) && NumberOf(c, n)
    ensures n != "" && AllDigits(n) && AllDigits(c.trunk + n) && AllDigits(c.dial + n)
  {
  }

  lemma DigitsRead(s: string, r: Reader)
    requires ReaderOk(r) && AllDigits(s) && s != ""
    ensures ToE164(s, r) == ReadDigits(r.country, s)
  {
    hide ReaderOk, ReadDigits, ToE164;
    NoPlus(s);
    CompactAgain(s, r);
  }

  /** Digits that do not begin a call abroad are read only as a number of the country, written in one of these ways. */
  lemma OnlyTheseAreRead(s: string, r: Reader)
    requires ReaderOk(r) && AllDigits(s) && s != "" && ToE164(s, r).Some?
    requires !Begins(s, r.country.exit) && (r.country.dial == "1" || !Begins(s, "00"))
    ensures exists n :: IsOneOf(s, r.country, n) && ToE164(s, r) == Some("+" + r.country.dial + n)
  {
    hide ReaderOk, ToE164, ReadDigits, IsOneOf, Begins;
    OkCountry(r);
    DigitsRead(s, r);
    var n := OneWayRead(r.country, s);
  }

  lemma OneWayRead(c: Country, s: string) returns (n: string)
    requires CountryOk(c) && AllDigits(s) && s != "" && ReadDigits(c, s).Some? && !Begins(s, c.exit) && (c.dial == "1" || !Begins(s, "00"))
    ensures IsOneOf(s, c, n) && ReadDigits(c, s) == Some("+" + c.dial + n)
  {
    Cut(s, c.trunk);
    Cut(s, c.dial);
    TrunkIs(c);
    hide International, Fits, NumberOf, CountryOk, AllDigits;
    n := if c.trunk != "" && StartsWith(s, c.trunk) && Fits(c, s[|c.trunk|..]) then s[|c.trunk|..] else if (c.trunk == "" || c.dial == "1") && Fits(c, s) then s else s[|c.dial|..];
    FitsIs(c, n);
  }

  lemma TrunkIs(c: Country)
    requires CountryOk(c)
    ensures c.exit != "" && (c.trunk == "" || c.trunk == "0" || c.trunk == "1")
  {
  }

  lemma Cut(s: string, first: string)
    requires AllDigits(s)
    ensures StartsWith(s, first) ==> s == first + s[|first|..] && AllDigits(s[|first|..]) && "+" + s == "+" + first + s[|first|..]
    ensures "" + s == s
  {
  }

  lemma FitsIs(c: Country, n: string)
    requires AllDigits(n)
    ensures Fits(c, n) <==> NumberOf(c, n)
  {
  }

  predicate IsOneOf(s: string, c: Country, n: string) {
    NumberOf(c, n) && (s == c.trunk + n || s == c.dial + n || (c.dial == "1" && s == n))
  }

  /** An Italian number of eight digits with its code is taken for one of ten. */
  lemma ItalysThirtyNine(r: Reader)
    requires ReaderOk(r) && r.country == TABLE5[3]
    ensures NumberOf(r.country, "06123456") && ToE164("3906123456", r) == Some("+393906123456")
  {
    ItalianDigits(r.country);
    hide ReaderOk, ToE164, COUNTRIES, TABLE5, Begins, NumberOf;
    InCountries();
    EveryNumberIsRead("3906123456", r);
  }

  lemma ItalianDigits(c: Country)
    requires c == TABLE5[3]
    ensures NumberOf(c, "06123456") && NumberOf(c, "3906123456") && !Begins("3906123456", "00")
    ensures c.trunk + "3906123456" == "3906123456" && "+" + c.dial + "3906123456" == "+393906123456" && c.code == "IT"
  {
    hide Begins;
    ItalianWritten();
    assert AllDigits("06123456") && AllDigits("3906123456");
  }

  lemma ItalianWritten()
    ensures !Begins("3906123456", "00") && "" + "3906123456" == "3906123456" && "+" + "39" + "3906123456" == "+393906123456"
  {
    assert "3906123456"[..2] == "39";
  }

  lemma InCountries()
    ensures TABLE5[3] in COUNTRIES
  {
    assert TABLE5[3] in TABLE5;
  }

  // ---- How they are written -------------------------------------------------------------------------

  const MARKS: string := " -./()\t\U{2010}\U{2011}\U{2012}\U{2013}\U{2014}\U{2015}\U{00a0}\U{feff}"

  /** It begins with a digit, or a plus and one. */
  predicate BeginsWithDigit(x: string) {
    x != "" && (IsDigit(x[0]) || (x[0] == '+' && |x| > 1 && IsDigit(x[1])))
  }

  lemma PlainText(x: string, r: Reader)
    requires ReaderOk(r) && BeginsWithDigit(x) && !HasBracketed(x)
    ensures ToE164(x, r) == ReadNumber(r.country, Keep(x, Unmarked()))
  {
    hide ReaderOk, ToE164, ReadNumber, Keep, DropBracketed, Trim, HasBracketed;
    var i := if IsDigit(x[0]) then 0 else 1;
    TrimFromDigit(x);
    NothingBracketed(Trim(x));
    ReadPlain(x, r, i);
  }

  lemma TrimFromDigit(x: string)
    requires BeginsWithDigit(x)
    ensures Trim(x) == x[..|Trim(x)|] && |Trim(x)| <= |x| && (!HasBracketed(x) ==> !HasBracketed(Trim(x)))
  {
    hide Trim, IsSpace;
    NotSpace(x[0]);
    TrimFrom(x);
    if HasBracketed(Trim(x)) {
      var i :| 0 <= i < |Trim(x)| && BracketAt(Trim(x), i);
      assert BracketAt(x, i);
    }
  }

  /** Spaces, dashes, dots, slashes and brackets among the digits do not matter. */
  lemma MarksDoNotMatter(x: string, mark: char, y: string, r: Reader)
    requires ReaderOk(r) && mark in MARKS && BeginsWithDigit(x) && !HasBracketed(x + [mark] + y) && !HasBracketed(x + y)
    ensures ToE164(x + [mark] + y, r) == ToE164(x + y, r)
  {
    MarkNotKept(mark);
    hide ReaderOk, ToE164, ReadNumber, Keep, HasBracketed;
    PlainText(x + [mark] + y, r);
    PlainText(x + y, r);
    KeepJoin(x, y, Unmarked());
    KeepJoin(x + [mark], y, Unmarked());
    KeepJoin(x, [mark], Unmarked());
    assert Keep(x, Unmarked()) + "" == Keep(x, Unmarked());
  }

  lemma MarkNotKept(mark: char)
    requires mark in MARKS
    ensures Keep([mark], Unmarked()) == ""
  {
    KeepNone([mark], Unmarked());
  }

  /** Nor does a trunk in brackets. */
  lemma BracketedTrunk(x: string, y: string, r: Reader)
    requires ReaderOk(r) && BeginsWithDigit(x) && !HasBracketed(x + y) && '(' !in x
    ensures ToE164(x + "(0)" + y, r) == ToE164(x + y, r)
  {
    hide ReaderOk, ToE164, ReadNumber, Keep, HasBracketed, Trim, DropBracketed, IsHidden, Stripped;
    var z := x + "(0)" + y;
    PlainText(x + y, r);
    var mid := TrimmedAfter(x, y);
    TrunkDropped(x, y[..mid]);
    DigitsAreShown(x, z, r);
    NothingAfter(x, y, mid);
    RestUnbracketed(x, y, mid);
    NothingBracketed(y[..mid]);
    KeptOf(z, x + y[..mid], r);
  }

  lemma DigitsAreShown(x: string, z: string, r: Reader)
    requires ReaderOk(r) && BeginsWithDigit(x) && |z| >= |x| && z[..|x|] == x
    ensures !IsHidden(z, r) && !IsTel(Trim(z))
  {
    hide IsHidden, Trim, ReaderOk;
    assert z[0] == x[0] && (|x| > 1 ==> z[1] == x[1]);
    NotHidden(z, r, if IsDigit(x[0]) then 0 else 1);
  }

  lemma KeptOf(z: string, plain: string, r: Reader)
    requires !IsHidden(z, r) && !IsTel(Trim(z)) && DropBracketed(Trim(z)) == plain
    ensures ToE164(z, r) == ReadNumber(r.country, Keep(plain, Unmarked()))
  {
    hide IsHidden, Trim, DropBracketed, ReadNumber, Keep, IsTel;
  }

  /** How much of `y` is left when the whole is trimmed. */
  lemma TrimmedAfter(x: string, y: string) returns (mid: nat)
    requires BeginsWithDigit(x)
    ensures mid <= |y| && Trim(x + "(0)" + y) == x + "(0)" + y[..mid] && forall i :: mid <= i < |y| ==> IsSpace(y[i])
  {
    hide Trim, IsSpace;
    var z := x + "(0)" + y;
    var n := |x| + 3;
    assert z[0] == x[0] && z[|x|] == '(' && z[n - 1] == ')';
    NoBracketSpace();
    NotSpace(z[0]);
    TrimFrom(z);
    mid := |Trim(z)| - n;
    assert z[..n + mid] == x + "(0)" + y[..mid];
    forall i | mid <= i < |y|
      ensures IsSpace(y[i])
    {
      assert z[n + i] == y[i];
    }
  }

  lemma NoBracketSpace()
    ensures !IsSpace(')')
  {
  }

  lemma {:induction false} TrunkDropped(x: string, y: string)
    requires '(' !in x
    ensures DropBracketed(x + "(0)" + y) == x + DropBracketed(y)
  {
    var z := x + "(0)" + y;
    if x == "" {
      assert z[3..] == y;
    } else {
      assert z[0] == x[0] && z[1..] == x[1..] + "(0)" + y;
      TrunkDropped(x[1..], y);
      assert x == [x[0]] + x[1..];
    }
  }

  lemma RestUnbracketed(x: string, y: string, mid: nat)
    requires mid <= |y| && !HasBracketed(x + y)
    ensures !HasBracketed(y[..mid])
  {
    if HasBracketed(y[..mid]) {
      var i :| 0 <= i < |y[..mid]| && BracketAt(y[..mid], i);
      assert BracketAt(x + y, |x| + i);
    }
  }

  lemma NothingAfter(x: string, y: string, mid: nat)
    requires mid <= |y| && forall i :: mid <= i < |y| ==> IsSpace(y[i])
    ensures Keep(x + y[..mid], Unmarked()) == Keep(x + y, Unmarked())
  {
    hide Keep, IsSpace;
    assert x + y == (x + y[..mid]) + y[mid..];
    KeepJoin(x + y[..mid], y[mid..], Unmarked());
    SpaceNotKept(y[mid..]);
    assert Keep(x + y[..mid], Unmarked()) + "" == Keep(x + y[..mid], Unmarked());
  }

  /** How a link to a number begins, in either case. */
  predicate TelWritten(t: string) {
    |t| == 4 && t[0] in "tT" && t[1] in "eE" && t[2] in "lL" && t[3] == ':'
  }

  /** A link's beginning is left out, where that makes no word for a hidden caller. */
  lemma LinkIsRead(t: string, x: string, r: Reader)
    requires ReaderOk(r) && TelWritten(t) && BeginsWithDigit(x) && !HasBracketed(x) && !r.hiddenWord(Trim(t + x))
    ensures ToE164(t + x, r) == ToE164(x, r)
  {
    hide ReaderOk, ToE164, ReadNumber, Keep, HasBracketed, Trim, DropBracketed, IsHidden, Stripped;
    PlainText(x, r);
    var mid := TrimmedLink(t, x);
    LinkIsShown(t, x, mid, r);
    assert "" + x == x;
    RestUnbracketed("", x, mid);
    NothingBracketed(x[..mid]);
    NothingAfter("", x, mid);
    assert "" + x[..mid] == x[..mid];
    LinkStripped(t, x, mid, r);
  }

  lemma TrimmedLink(t: string, x: string) returns (mid: nat)
    requires TelWritten(t) && BeginsWithDigit(x)
    ensures 1 <= mid <= |x| && (IsDigit(x[0]) || mid >= 2) && Trim(t + x) == t + x[..mid] && forall i :: mid <= i < |x| ==> IsSpace(x[i])
  {
    hide Trim;
    var z := t + x;
    assert !IsSpace(z[0]);
    assert z[4] == x[0] && (|x| > 1 ==> z[5] == x[1]);
    NotSpace(x[0]);
    if !IsDigit(x[0]) {
      NotSpace(x[1]);
    }
    TrimFrom(z);
    mid := |Trim(z)| - 4;
    assert z[..4 + mid] == t + x[..mid];
    forall i | mid <= i < |x|
      ensures IsSpace(x[i])
    {
      assert z[4 + i] == x[i];
    }
  }

  lemma LinkIsShown(t: string, x: string, mid: nat, r: Reader)
    requires ReaderOk(r) && TelWritten(t) && BeginsWithDigit(x) && 1 <= mid <= |x| && (IsDigit(x[0]) || mid >= 2)
    requires Trim(t + x) == t + x[..mid] && !r.hiddenWord(Trim(t + x))
    ensures !IsHidden(t + x, r)
  {
    hide CountryOk, Trim;
    var text := t + x[..mid];
    assert text[4] == x[0] && (mid > 1 ==> text[5] == x[1]);
    assert r.letter(text[if IsDigit(x[0]) then 4 else 5]);
  }

  lemma LinkStripped(t: string, x: string, mid: nat, r: Reader)
    requires TelWritten(t) && mid <= |x| && Trim(t + x) == t + x[..mid] && !IsHidden(t + x, r)
    ensures ToE164(t + x, r) == ReadNumber(r.country, Keep(DropBracketed(x[..mid]), Unmarked()))
  {
    hide IsHidden, Trim, DropBracketed, ReadNumber, Keep;
    assert IsTel(t + x[..mid]) && (t + x[..mid])[4..] == x[..mid];
  }

  // ---- Two numbers as one person --------------------------------------------------------------------

  /** A number's digits, with no plus before them. */
  function Bare(s: string): string {
    if s != "" && s[0] == '+' then s[1..] else s
  }

  /** What a number is known by: what it is read as, or itself. */
  function Known(s: string, r: Reader): string {
    if ToE164(s, r).Some? then ToE164(s, r).value else s
  }

  predicate EndAlike(a: string, b: string) {
    |a| >= 8 && |b| >= 8 && a[if |a| > 9 then |a| - 9 else 0..] == b[if |b| > 9 then |b| - 9 else 0..]
  }

  /** Two numbers are one person's exactly when they are read as one; or one of them is not read, and they are the same or end in the same nine digits, both being eight digits or more. */
  lemma OnePersonIff(a: string, b: string, r: Reader)
    requires ReaderOk(r) && Numeric(a) && Numeric(b)
    ensures SamePerson(a, b, r) <==>
      || Known(a, r) == Known(b, r)
      || ((ToE164(a, r).None? || ToE164(b, r).None?) && EndAlike(Bare(Known(a, r)), Bare(Known(b, r))))
  {
    KnownIs(a, r);
    KnownIs(b, r);
    EndAlikeIff(Known(a, r), Known(b, r));
    SameByKeys(a, b, r);
    hide *;
  }

  lemma SameByKeys(a: string, b: string, r: Reader)
    requires !IsHidden(a, r) && !IsHidden(b, r)
    ensures SamePerson(a, b, r) <==>
      || PhoneKey(a, r) == PhoneKey(b, r)
      || ((ToE164(a, r).None? || ToE164(b, r).None?) && Tail(PhoneKey(a, r)).Some? && Tail(PhoneKey(a, r)) == Tail(PhoneKey(b, r)))
  {
    hide IsHidden, PhoneKey, ToE164, Tail;
  }

  lemma KnownIs(a: string, r: Reader)
    requires ReaderOk(r) && Numeric(a)
    ensures !IsHidden(a, r) && PhoneKey(a, r) == Known(a, r) && Numeric(Known(a, r))
  {
    CompactAgain(a, r);
    hide ReaderOk, ToE164, IsHidden, Numeric, Compact, Trim, CountryOk, IsE164;
    if ToE164(a, r).Some? {
      OkCountry(r);
      ReadIsE164(a, r);
      DigitsOfE164(ToE164(a, r).value);
    }
  }

  lemma EndAlikeIff(a: string, b: string)
    requires Numeric(a) && Numeric(b)
    ensures Tail(a).Some? && Tail(a) == Tail(b) <==> EndAlike(Bare(a), Bare(b))
  {
    hide Numeric, Bare, DigitsOf;
    BareIs(a);
    BareIs(b);
  }

  lemma BareIs(a: string)
    requires Numeric(a)
    ensures DigitsOf(a) == Bare(a)
  {
    if a[0] == '+' {
      assert a == "+" + a[1..];
      KeepJoin("+", a[1..], c => IsDigit(c));
      KeepAll(a[1..], c => IsDigit(c));
      KeepNone("+", c => IsDigit(c));
    } else {
      KeepAll(a, c => IsDigit(c));
    }
  }

  /** A sender that is no number is one with those written alike, and with no number. */
  lemma ANamesOwn(a: string, b: string, r: Reader)
    requires ReaderOk(r) && !IsHidden(a, r) && ToE164(a, r).None? && !Numeric(Compact(Trim(a)))
    ensures PhoneKey(a, r) == Trim(a) && (SamePerson(a, b, r) <==> Trim(b) == Trim(a))
  {
    NoNumber(Trim(a));
    KeyIsText(a, r);
    if !IsHidden(b, r) {
      KeyOrText(b, r);
      SameByKeys(a, b, r);
      TailIsNumeric(Trim(a));
    }
    SameShown(a, b, r);
    hide *;
  }

  lemma KeyIsText(a: string, r: Reader)
    requires !IsHidden(a, r) && ToE164(a, r).None? && !Numeric(Compact(Trim(a)))
    ensures PhoneKey(a, r) == Trim(a)
  {
    hide IsHidden, ToE164, Numeric, Compact, Trim;
  }

  lemma TailIsNumeric(key: string)
    ensures Tail(key).Some? ==> Numeric(key)
  {
  }

  lemma SameShown(a: string, b: string, r: Reader)
    ensures SamePerson(a, b, r) ==> !IsHidden(b, r)
    ensures Trim(a) == Trim(b) ==> IsHidden(a, r) == IsHidden(b, r) && ToE164(a, r) == ToE164(b, r) && PhoneKey(a, r) == PhoneKey(b, r)
  {
    SameTrimmed(a, r);
    SameTrimmed(b, r);
    hide IsHidden, ToE164, Numeric, Compact, Trim, Tail;
  }

  lemma NoNumber(t: string)
    requires !Numeric(Compact(t))
    ensures !Numeric(t)
  {
    hide Numeric, Compact;
    if Numeric(t) {
      NumericKept(t);
    }
  }

  lemma KeyOrText(b: string, r: Reader)
    requires ReaderOk(r) && !IsHidden(b, r)
    ensures Numeric(PhoneKey(b, r)) || (ToE164(b, r).None? && PhoneKey(b, r) == Trim(b))
  {
    hide ReaderOk, ToE164, IsHidden, Compact, Trim, Numeric, IsE164, CountryOk;
    if ToE164(b, r).Some? {
      OkCountry(r);
      ReadIsE164(b, r);
      DigitsOfE164(ToE164(b, r).value);
    }
  }
}
