/**
 * Phone numbers as people's keys (app/src/phoneNumbers.ts): reading a caller id
 * as E.164, and printing it.
 */
module PhoneNumbers {
  import opened Options
  import opened Text

  /** A country's numbers; `lead` is what the first digits of one may be. */
  datatype Country = Country(code: string, dial: string, trunk: string, exit: string, least: nat, most: nat, lead: seq<set<char>>)

  const D09: set<char> := {'0', '1', '2', '3', '4', '5', '6', '7', '8', '9'}
  const D19: set<char> := {'1', '2', '3', '4', '5', '6', '7', '8', '9'}
  const D29: set<char> := {'2', '3', '4', '5', '6', '7', '8', '9'}

  // ---- The countries -----------------------------------------------------------------------

  /** The calling codes of two digits. */
  predicate TwoDigits(a: char, b: char) {
    match a
    case '2' => b == '0' || b == '7'
    case '3' => '0' <= b <= '4' || b == '6' || b == '9'
    case '4' => b == '0' || b == '1' || '3' <= b <= '9'
    case '5' => '1' <= b <= '8'
    case '6' => '0' <= b <= '6'
    case '8' => b == '1' || b == '2' || b == '4' || b == '6'
    case '9' => '0' <= b <= '5' || b == '8'
    case _ => false
  }

  /** How many digits of a number are its calling code. */
  function DialLength(d: string): nat {
    var n := if d != "" && (d[0] == '1' || d[0] == '7') then 1 else if |d| >= 2 && TwoDigits(d[0], d[1]) then 2 else 3;
    if n <= |d| then n else |d|
  }

  function SplitE164(e164: string): (string, string) {
    var d := if e164 != "" && e164[0] == '+' then e164[1..] else e164;
    (d[..DialLength(d)], d[DialLength(d)..])
  }

  /** What every country of the table is. */
  predicate CountryOk(c: Country) {
    && c.dial != "" && AllDigits(c.dial) && c.dial[0] != '0'
    && (if c.dial[0] == '1' || c.dial[0] == '7' then |c.dial| == 1
        else if |c.dial| == 2 then TwoDigits(c.dial[0], c.dial[1]) else |c.dial| == 3 && !TwoDigits(c.dial[0], c.dial[1]))
    && (c.trunk == "" || c.trunk == "0" || c.trunk == "1") && (c.trunk == "1" <==> c.dial == "1")
    && |c.exit| >= 2 && AllDigits(c.exit)
    && 4 <= c.least && |c.dial| + c.most <= 15
    && |c.lead| > 0 && c.lead[0] <= D09 && (c.dial == "1" ==> c.lead[0] <= D29)
    && (c.dial == "64" || c.dial == "61" || c.dial == "44" ==> c.trunk == "0") && (c.dial == "61" ==> '1' !in c.lead[0])
    && (c.dial == "64" ==> c.least >= 8 && c.exit == "00") && (Trunk0(c.dial) ==> '0' !in c.lead[0])
  }

  /** The calling codes of the countries whose trunk is 0 (of the table of countries: Countries.TrunksAreTheTables). */
  predicate Trunk0(dial: string) {
    if |dial| == 2 then
      match dial[0]
      case '2' => dial[1] == '7'
      case '3' => dial[1] == '1' || dial[1] == '2' || dial[1] == '3'
      case '4' => dial[1] == '1' || dial[1] == '3' || dial[1] == '4' || dial[1] == '6' || dial[1] == '9'
      case '5' => dial[1] == '4' || dial[1] == '5'
      case '6' => dial[1] == '0' || dial[1] == '1' || dial[1] == '2' || dial[1] == '3' || dial[1] == '4' || dial[1] == '6'
      case '8' => dial[1] == '1' || dial[1] == '2' || dial[1] == '4' || dial[1] == '6'
      case '9' => dial[1] == '1'
      case _ => false
    else dial == "353" || dial == "358" || dial == "886" || dial == "971" || dial == "972"
  }

  predicate StartsWith(s: string, prefix: string) {
    |prefix| <= |s| && s[..|prefix|] == prefix
  }

  // ---- Reading a caller id -------------------------------------------------------------------

  /** With which country a number is read; `letter` is a letter or number of any script, `hiddenWord` a word for a hidden caller. */
  datatype Reader = Reader(country: Country, letter: char -> bool, hiddenWord: string -> bool)

  /** Digits are numbers, and such a word starts with a letter. */
  ghost predicate ReaderOk(r: Reader) {
    && CountryOk(r.country)
    && (forall c :: IsDigit(c) ==> r.letter(c))
    && (forall s: string :: r.hiddenWord(s) ==> s != "" && !IsDigit(s[0]) && s[0] != '+' && s[0] != '(')
  }

  predicate IsHidden(raw: string, r: Reader) {
    var text := Trim(raw);
    text == "" || (forall i :: 0 <= i < |text| ==> !r.letter(text[i])) || r.hiddenWord(text)
  }

  predicate IsTel(s: string) {
    |s| >= 4 && (s[0] == 't' || s[0] == 'T') && (s[1] == 'e' || s[1] == 'E') && (s[2] == 'l' || s[2] == 'L') && s[3] == ':'
  }

  /** Every "(0)" taken out. */
  function DropBracketed(s: string): string {
    if |s| >= 3 && s[0] == '(' && s[1] == '0' && s[2] == ')' then DropBracketed(s[3..])
    else if s == "" then ""
    else [s[0]] + DropBracketed(s[1..])
  }

  predicate IsBracket(c: char) {
    IsSpace(c) || c == '-' || c == '.' || c == '/' || c == '(' || c == ')'
  }

  /** Spaces, brackets and dashes, which reading ignores. */
  predicate IsMark(c: char) {
    IsBracket(c) || '\U{2010}' <= c <= '\U{2015}'
  }

  function Unmarked(): char -> bool {
    c => !IsMark(c)
  }

  function Stripped(text: string): string {
    Keep(DropBracketed(if IsTel(text) then text[4..] else text), Unmarked())
  }

  /** Digits, and perhaps a plus before them. */
  predicate Numeric(s: string) {
    var d := if s != "" && s[0] == '+' then s[1..] else s;
    d != "" && AllDigits(d)
  }

  /** Digits after an international prefix. */
  function International(d: string): Option<string> {
    if !(7 <= |d| <= 15 && AllDigits(d) && d[0] != '0') then None
    else
      var (cc, rest) := (d[..DialLength(d)], d[DialLength(d)..]);
      var nsn := if StartsWith(rest, "0") && Trunk0(cc) then rest[1..] else rest;
      if |nsn| >= 4 then Some("+" + cc + nsn) else None
  }

  predicate Fits(c: Country, nsn: string) {
    c.least <= |nsn| <= c.most && |c.lead| <= |nsn| && forall k :: 0 <= k < |c.lead| ==> nsn[k] in c.lead[k]
  }

  /** It begins as a call abroad does. */
  predicate Abroad(c: Country, s: string) {
    (c.exit != "" && StartsWith(s, c.exit)) || (c.dial != "1" && StartsWith(s, "00"))
  }

  function ReadDigits(c: Country, s: string): Option<string> {
    if c.exit != "" && StartsWith(s, c.exit) then International(s[|c.exit|..])
    else if c.dial != "1" && StartsWith(s, "00") then International(s[2..])
    else if c.trunk != "" && StartsWith(s, c.trunk) && Fits(c, s[|c.trunk|..]) then Some("+" + c.dial + s[|c.trunk|..])
    else if (c.trunk == "" || c.dial == "1") && Fits(c, s) then Some("+" + c.dial + s)
    else if StartsWith(s, c.dial) && Fits(c, s[|c.dial|..]) then Some("+" + s)
    else None
  }

  function ReadNumber(c: Country, s: string): Option<string> {
    if !Numeric(s) then None else if s[0] == '+' then International(s[1..]) else ReadDigits(c, s)
  }

  function ToE164(raw: string, r: Reader): Option<string> {
    if IsHidden(raw, r) then None else ReadNumber(r.country, Stripped(Trim(raw)))
  }

  // ---- What reading gives -----------------------------------------------------------------------

  /** E.164, section 6: at most fifteen digits, the first not 0. */
  predicate IsE164(e: string) {
    2 <= |e| <= 16 && e[0] == '+' && AllDigits(e[1..]) && e[1] != '0'
  }

  lemma SplitInvertsJoin(c: Country, rest: string)
    requires CountryOk(c)
    ensures SplitE164("+" + c.dial + rest) == (c.dial, rest)
  {
    var d := c.dial + rest;
    assert "+" + c.dial + rest == "+" + d && ("+" + d)[1..] == d;
    assert d[..|c.dial|] == c.dial && d[|c.dial|..] == rest;
    assert d[0] == c.dial[0] && (|c.dial| >= 2 ==> d[1] == c.dial[1]);
  }

  lemma InternationalIs(d: string)
    requires International(d).Some?
    ensures IsE164(International(d).value) && |International(d).value| <= |d| + 1
  {
    hide Trunk0;
    var n := DialLength(d);
    assert 1 <= n <= 3;
    var cc, rest := d[..n], d[n..];
    var nsn := if StartsWith(rest, "0") && Trunk0(cc) then rest[1..] else rest;
    PlusIsE164(d, cc, nsn);
  }

  lemma PlusIsE164(d: string, cc: string, nsn: string)
    requires AllDigits(cc) && AllDigits(nsn) && cc != "" && cc[0] != '0' && |cc| + |nsn| <= |d| <= 15
    ensures IsE164("+" + cc + nsn) && |"+" + cc + nsn| <= |d| + 1
  {
    assert ("+" + cc + nsn)[1..] == cc + nsn;
  }

  lemma LocalIs(c: Country, nsn: string)
    requires CountryOk(c) && AllDigits(nsn) && |nsn| <= c.most && nsn != ""
    ensures IsE164("+" + c.dial + nsn)
  {
    assert ("+" + c.dial + nsn)[1..] == c.dial + nsn;
  }

  /** Every number read has at most fifteen digits, whatever country it is read for. */
  lemma ReadIsE164(raw: string, r: Reader)
    requires CountryOk(r.country) && ToE164(raw, r).Some?
    ensures IsE164(ToE164(raw, r).value)
  {
    hide Stripped, IsHidden, CountryOk, ReadNumber, IsE164;
    NumberIsE164(r.country, Stripped(Trim(raw)));
  }

  lemma NumberIsE164(c: Country, s: string)
    requires CountryOk(c) && ReadNumber(c, s).Some?
    ensures IsE164(ReadNumber(c, s).value)
  {
    hide International, CountryOk, ReadDigits, IsE164;
    if s[0] == '+' {
      InternationalIs(s[1..]);
    } else {
      DigitsAreE164(c, s);
    }
  }

  lemma DigitsAreE164(c: Country, s: string)
    requires CountryOk(c) && AllDigits(s) && ReadDigits(c, s).Some?
    ensures IsE164(ReadDigits(c, s).value)
  {
    hide International, IsE164;
    if c.exit != "" && StartsWith(s, c.exit) {
      InternationalIs(s[|c.exit|..]);
    } else if c.dial != "1" && StartsWith(s, "00") {
      InternationalIs(s[2..]);
    } else if c.trunk != "" && StartsWith(s, c.trunk) && Fits(c, s[|c.trunk|..]) {
      LocalIs(c, s[|c.trunk|..]);
    } else if (c.trunk == "" || c.dial == "1") && Fits(c, s) {
      LocalIs(c, s);
    } else {
      assert s == c.dial + s[|c.dial|..];
      assert "+" + s == "+" + c.dial + s[|c.dial|..];
      LocalIs(c, s[|c.dial|..]);
    }
  }

  // ---- Reading again ---------------------------------------------------------------------------------

  lemma DialAgain(d: string, x: string)
    requires |d| >= 3
    ensures DialLength(d[..DialLength(d)] + x) == DialLength(d)
  {
  }

  /** An international number read again is itself, unless a trunk is left after its calling code, or it is short. */
  predicate ReadsAsItself(e: string) {
    var (cc, n) := SplitE164(e);
    8 <= |e| <= 16 && |n| >= 4 && !(StartsWith(n, "0") && Trunk0(cc))
  }

  lemma InternationalAgainIff(e: string)
    requires IsE164(e)
    ensures International(e[1..]) == Some(e) <==> ReadsAsItself(e)
  {
    hide Trunk0;
    var d := e[1..];
    var n := DialLength(d);
    assert e == "+" + d;
    assert d == d[..n] + d[n..];
    if 7 <= |d| {
      var rest := d[n..];
      var nsn := if StartsWith(rest, "0") && Trunk0(d[..n]) then rest[1..] else rest;
      assert "+" + d[..n] + nsn == "+" + (d[..n] + nsn);
      assert ("+" + (d[..n] + nsn))[1..] == d[..n] + nsn;
    }
  }

  lemma {:induction false} NotBracketed(s: string)
    requires forall i :: 0 <= i < |s| ==> s[i] != '('
    ensures DropBracketed(s) == s
  {
    if s != "" {
      NotBracketed(s[1..]);
    }
  }

  lemma KeptTrimmed(s: string)
    ensures Keep(Trim(s), Unmarked()) == Keep(s, Unmarked())
  {
    hide IsSpace, TrimStart, TrimEnd, Keep;
    var a := TrimStart(s);
    var b := TrimEnd(a);
    var front, back := s[..|s| - |a|], a[|b|..];
    assert a == b + back;
    KeepJoin(front, a, Unmarked());
    KeepJoin(b, back, Unmarked());
    SpaceNotKept(front);
    SpaceNotKept(back);
    assert Keep(b, Unmarked()) + "" == Keep(b, Unmarked());
  }

  lemma SpaceNotKept(s: string)
    requires forall i :: 0 <= i < |s| ==> IsSpace(s[i])
    ensures Keep(s, Unmarked()) == ""
  {
    hide IsSpace;
    KeepNone(s, Unmarked());
  }

  predicate BeginsAsNumber(x: string) {
    x != "" && (IsDigit(x[0]) || x[0] == '+' || x[0] == '(')
  }

  lemma NotHidden(x: string, r: Reader, i: nat)
    requires ReaderOk(r) && BeginsAsNumber(x) && i < |x| && IsDigit(x[i])
    ensures !IsHidden(x, r) && Trim(x) != "" && Trim(x)[0] == x[0]
  {
    hide CountryOk, Trim, IsSpace, IsDigit;
    NotSpace(x[0]);
    NotSpace(x[i]);
    TrimFrom(x);
    var text := Trim(x);
    assert text[i] == x[i] && text[0] == x[0];
    assert r.letter(text[i]);
    NoWord(text, r);
  }

  lemma NoWord(text: string, r: Reader)
    requires ReaderOk(r) && BeginsAsNumber(text)
    ensures !r.hiddenWord(text)
  {
    hide CountryOk;
  }

  /** Text that begins as a number does, with no bracketed trunk, is read by its digits. */
  lemma ReadPlain(x: string, r: Reader, i: nat)
    requires ReaderOk(r) && BeginsAsNumber(x) && i < |x| && IsDigit(x[i])
    requires DropBracketed(Trim(x)) == Trim(x)
    ensures ToE164(x, r) == ReadNumber(r.country, Keep(x, Unmarked()))
  {
    hide ReadNumber, DropBracketed, ReaderOk, IsHidden, Keep, Trim, Unmarked;
    NotHidden(x, r, i);
    KeptTrimmed(x);
    assert !IsTel(Trim(x));
  }

  /** An E.164 number is read as an international one. */
  lemma ReadsE164(e: string, r: Reader)
    requires ReaderOk(r) && IsE164(e)
    ensures ToE164(e, r) == International(e[1..])
  {
    hide International, ReaderOk, DropBracketed, Keep, Trim, ToE164, Unmarked, ReadDigits;
    E164Plain(e);
    ReadPlain(e, r, 1);
  }

  lemma E164Plain(e: string)
    requires IsE164(e)
    ensures Trim(e) == e && DropBracketed(e) == e && Keep(e, Unmarked()) == e && Numeric(e) && IsDigit(e[1])
  {
    forall i | 0 <= i < |e|
      ensures e[i] != '(' && !IsMark(e[i])
    {
      assert i > 0 ==> IsDigit(e[1..][i - 1]);
    }
    assert IsDigit(e[1..][0]) && IsDigit(e[1..][|e| - 2]);
    TrimNothing(e);
    NotBracketed(e);
    KeepAll(e, Unmarked());
  }

  // ---- A caller's key --------------------------------------------------------------------------------

  function Compact(text: string): string {
    Keep(text, c => !IsBracket(c))
  }

  function PhoneKey(raw: string, r: Reader): string {
    if IsHidden(raw, r) then ""
    else if ToE164(raw, r).Some? then ToE164(raw, r).value
    else if Numeric(Compact(Trim(raw))) then Compact(Trim(raw))
    else Trim(raw)
  }

  lemma SameTrimmed(raw: string, r: Reader)
    ensures ToE164(Trim(raw), r) == ToE164(raw, r) && IsHidden(Trim(raw), r) == IsHidden(raw, r)
  {
    TrimmedTwice(raw);
  }

  /** Whether a key is its own key: what is read leaves no trunk after the calling code; what is not is no number without "(0)". */
  predicate KeyStays(raw: string, r: Reader) {
    if IsHidden(raw, r) then true
    else if ToE164(raw, r).Some? then
      var e := ToE164(raw, r).value;
      var (cc, n) := SplitE164(e);
      !(StartsWith(n, "0") && Trunk0(cc) && |e| >= 8 && |n| >= 5)
    else
      var compact := Compact(Trim(raw));
      !Numeric(compact) || ReadNumber(r.country, compact) in {None, Some(compact)}
  }

  lemma ShortOrTrunk(e: string)
    requires IsE164(e)
    ensures
      var (cc, n) := SplitE164(e);
      |n| >= 4 ==> (International(e[1..]) in {None, Some(e)} <==> !(StartsWith(n, "0") && Trunk0(cc) && |e| >= 8 && |n| >= 5))
  {
    InternationalAgainIff(e);
    hide Trunk0;
  }

  /** What is left of an international number after its calling code is never short. */
  lemma RestIsLong(raw: string, r: Reader)
    requires CountryOk(r.country) && ToE164(raw, r).Some?
    ensures |SplitE164(ToE164(raw, r).value).1| >= 4
  {
    hide Stripped, IsHidden, CountryOk, ReadNumber;
    NumberRestIsLong(r.country, Stripped(Trim(raw)));
  }

  lemma NumberRestIsLong(c: Country, s: string)
    requires CountryOk(c) && ReadNumber(c, s).Some?
    ensures |SplitE164(ReadNumber(c, s).value).1| >= 4
  {
    hide International, CountryOk, ReadDigits, SplitE164;
    if s[0] == '+' {
      InternationalRest(s[1..]);
    } else {
      DigitsRest(c, s);
    }
  }

  lemma InternationalRest(d: string)
    requires International(d).Some?
    ensures |SplitE164(International(d).value).1| >= 4
  {
    hide Trunk0;
    var n := DialLength(d);
    var rest := d[n..];
    var nsn := if StartsWith(rest, "0") && Trunk0(d[..n]) then rest[1..] else rest;
    DialAgain(d, nsn);
    assert International(d).value[1..] == d[..n] + nsn;
  }

  lemma DigitsRest(c: Country, s: string)
    requires CountryOk(c) && ReadDigits(c, s).Some?
    ensures |SplitE164(ReadDigits(c, s).value).1| >= 4
  {
    hide International, SplitE164;
    if c.exit != "" && StartsWith(s, c.exit) {
      InternationalRest(s[|c.exit|..]);
    } else if c.dial != "1" && StartsWith(s, "00") {
      InternationalRest(s[2..]);
    } else if c.trunk != "" && StartsWith(s, c.trunk) && Fits(c, s[|c.trunk|..]) {
      SplitInvertsJoin(c, s[|c.trunk|..]);
    } else if (c.trunk == "" || c.dial == "1") && Fits(c, s) {
      SplitInvertsJoin(c, s);
    } else {
      assert s == c.dial + s[|c.dial|..];
      assert "+" + s == "+" + c.dial + s[|c.dial|..];
      SplitInvertsJoin(c, s[|c.dial|..]);
    }
  }

  /** A key is its own key exactly when it stays. */
  lemma KeyAgainIff(raw: string, r: Reader)
    requires ReaderOk(r)
    ensures PhoneKey(PhoneKey(raw, r), r) == PhoneKey(raw, r) <==> KeyStays(raw, r)
  {
    hide IsHidden, ToE164, ReaderOk, Numeric, Trim, Compact;
    if IsHidden(raw, r) {
      EmptyIsHidden(r);
    } else if ToE164(raw, r).Some? {
      E164KeyAgain(raw, r);
    } else if Numeric(Compact(Trim(raw))) {
      NumericKeyAgain(Compact(Trim(raw)), r);
    } else {
      SameTrimmed(raw, r);
      TrimmedTwice(raw);
    }
  }

  lemma NumericKeyAgain(s: string, r: Reader)
    requires ReaderOk(r) && Numeric(s)
    ensures PhoneKey(s, r) == s <==> ReadNumber(r.country, s) in {None, Some(s)}
  {
    CompactAgain(s, r);
    hide IsHidden, ToE164, ReaderOk, Numeric, Trim, Compact, ReadNumber;
  }

  // ---- The same, told from the text ----------------------------------------------------------------------

  /** The digits given after "+", or after what begins a call abroad. */
  function GivenAbroad(c: Country, s: string): Option<string> {
    if s != "" && s[0] == '+' then Some(s[1..])
    else if c.exit != "" && StartsWith(s, c.exit) then Some(s[|c.exit|..])
    else if c.dial != "1" && StartsWith(s, "00") then Some(s[2..])
    else None
  }

  /** A trunk written twice after a calling code that has one, before four digits or more. */
  predicate DoubledTrunk(d: string) {
    var n := DialLength(d);
    |d| <= 15 && |d[n..]| >= 6 && d[n] == '0' && d[n + 1] == '0' && Trunk0(d[..n])
  }

  /** The number is written with its trunk twice. */
  predicate WritesTrunkTwice(c: Country, s: string) {
    Numeric(s) && GivenAbroad(c, s).Some? && DoubledTrunk(GivenAbroad(c, s).value)
  }

  predicate BracketAt(s: string, i: nat) {
    i + 3 <= |s| && s[i] == '(' && s[i + 1] == '0' && s[i + 2] == ')'
  }

  /** "(0)" is somewhere in it. */
  predicate HasBracketed(s: string) {
    exists i :: 0 <= i < |s| && BracketAt(s, i)
  }

  lemma {:induction false} NothingBracketed(s: string)
    requires !HasBracketed(s)
    ensures DropBracketed(s) == s
  {
    if s != "" {
      if HasBracketed(s[1..]) {
        var i :| 0 <= i < |s[1..]| && BracketAt(s[1..], i);
        assert BracketAt(s, i + 1);
        assert false;
      }
      assert !BracketAt(s, 0);
      NothingBracketed(s[1..]);
    }
  }

  lemma {:induction false} KeptAlike(s: string)
    requires forall i :: 0 <= i < |s| && !IsBracket(s[i]) ==> !IsMark(s[i])
    ensures Keep(s, Unmarked()) == Compact(s)
  {
    if s != "" {
      KeptAlike(s[1..]);
    }
  }

  lemma {:induction false} CompactHas(s: string, i: nat)
    requires i < |s| && !IsBracket(s[i])
    ensures exists j :: 0 <= j < |Compact(s)| && Compact(s)[j] == s[i]
  {
    var rest := Compact(s[1..]);
    if i == 0 {
      assert Compact(s)[0] == s[0];
    } else {
      CompactHas(s[1..], i - 1);
      var j :| 0 <= j < |rest| && rest[j] == s[i];
      var k := if IsBracket(s[0]) then j else j + 1;
      assert Compact(s)[k] == rest[j];
    }
  }

  /** With no "(0)" in it, what reads as digits when its spaces and brackets are gone is read as those digits. */
  lemma CompactIsStripped(text: string)
    requires !HasBracketed(text) && Numeric(Compact(text))
    ensures Stripped(text) == Compact(text)
  {
    hide Keep, IsBracket, Compact;
    var s := Compact(text);
    NumericPlain(s);
    forall i | 0 <= i < |text| && !IsBracket(text[i])
      ensures !IsMark(text[i]) && text[i] != 't' && text[i] != 'T'
    {
      CompactHas(text, i);
      var j :| 0 <= j < |s| && s[j] == text[i];
    }
    NotTel(text);
    NothingBracketed(text);
    KeptAlike(text);
  }

  lemma NotTel(text: string)
    requires forall i :: 0 <= i < |text| && !IsBracket(text[i]) ==> text[i] != 't' && text[i] != 'T'
    ensures !IsTel(text)
  {
    assert !IsBracket('t') && !IsBracket('T');
  }

  /** What is read leaves a trunk exactly when it was written twice. */
  lemma LeavesTrunkIff(c: Country, s: string)
    requires CountryOk(c)
    ensures WritesTrunkTwice(c, s) <==>
      ReadNumber(c, s).Some? &&
      var e := ReadNumber(c, s).value;
      var (cc, n) := SplitE164(e);
      StartsWith(n, "0") && Trunk0(cc) && |e| >= 8 && |n| >= 5
  {
    hide International, SplitE164, Trunk0, Fits, CountryOk;
    if Numeric(s) {
      if GivenAbroad(c, s).Some? {
        var d := GivenAbroad(c, s).value;
        InternationalLeavesIff(d);
        assert ReadNumber(c, s) == International(d);
      } else if ReadNumber(c, s).Some? {
        LocalLeavesNone(c, s);
      }
    }
  }

  lemma LocalLeavesNone(c: Country, s: string)
    requires CountryOk(c) && Numeric(s) && GivenAbroad(c, s).None? && ReadNumber(c, s).Some?
    ensures
      var (cc, n) := SplitE164(ReadNumber(c, s).value);
      !(StartsWith(n, "0") && Trunk0(cc))
  {
    hide SplitE164, Trunk0, ReadNumber;
    var n := LocalNumber(c, s);
    SplitInvertsJoin(c, n);
    assert n[0] in c.lead[0];
    assert StartsWith(n, "0") ==> n[0] == '0' by {
      assert n[..1] == [n[0]];
    }
  }

  lemma LocalNumber(c: Country, s: string) returns (n: string)
    requires Numeric(s) && GivenAbroad(c, s).None? && ReadNumber(c, s).Some?
    ensures Fits(c, n) && ReadNumber(c, s).value == "+" + c.dial + n
  {
    hide International, Fits;
    if c.trunk != "" && StartsWith(s, c.trunk) && Fits(c, s[|c.trunk|..]) {
      n := s[|c.trunk|..];
    } else if (c.trunk == "" || c.dial == "1") && Fits(c, s) {
      n := s;
    } else {
      n := s[|c.dial|..];
      assert s == c.dial + n && "+" + s == "+" + c.dial + n;
    }
  }

  lemma InternationalLeavesIff(d: string)
    requires AllDigits(d)
    ensures DoubledTrunk(d) <==>
      International(d).Some? &&
      var e := International(d).value;
      var (cc, n) := SplitE164(e);
      StartsWith(n, "0") && Trunk0(cc) && |e| >= 8 && |n| >= 5
  {
    var k := DialLength(d);
    var cc, rest := d[..k], d[k..];
    TrunkCode(cc);
    hide Trunk0;
    if rest != "" {
      assert rest[..1] == [rest[0]];
    }
    if International(d).Some? {
      var nsn := if StartsWith(rest, "0") && Trunk0(cc) then rest[1..] else rest;
      SplitAgain(d, nsn);
      assert nsn[..1] == [nsn[0]];
    }
  }

  lemma SplitAgain(d: string, nsn: string)
    requires |d| >= 3
    ensures SplitE164("+" + d[..DialLength(d)] + nsn) == (d[..DialLength(d)], nsn)
  {
    var k := DialLength(d);
    DialAgain(d, nsn);
    assert "+" + d[..k] + nsn == "+" + (d[..k] + nsn);
    assert ("+" + (d[..k] + nsn))[1..] == d[..k] + nsn;
    assert (d[..k] + nsn)[..k] == d[..k] && (d[..k] + nsn)[k..] == nsn;
  }

  lemma TrunkCode(cc: string)
    ensures Trunk0(cc) ==> |cc| >= 2 && cc[0] != '0'
  {
  }

  /** Its spaces and brackets gone but the bracketed trunk kept, it is no number, or that one. */
  predicate BracketStays(raw: string, r: Reader) {
    var compact := Compact(Trim(raw));
    !Numeric(compact) || ReadNumber(r.country, compact) in {None, Some(compact)}
  }

  /**
   * A key is its own key exactly when the trunk is not written twice after a
   * calling code that has one; but where "(0)" is written, and the number
   * without it is not one, that with it must be none either.
   */
  lemma KeyAgainByText(raw: string, r: Reader)
    requires ReaderOk(r)
    ensures PhoneKey(PhoneKey(raw, r), r) == PhoneKey(raw, r) <==>
      || IsHidden(raw, r)
      || (&& !WritesTrunkTwice(r.country, Stripped(Trim(raw)))
          && (HasBracketed(Trim(raw)) && !Readable(raw, r) ==> BracketStays(raw, r)))
  {
    hide IsHidden, ReaderOk, Trim, Compact, Stripped, ReadNumber, SplitE164, WritesTrunkTwice, Numeric, HasBracketed, Trunk0, PhoneKey;
    var s, compact := Stripped(Trim(raw)), Compact(Trim(raw));
    KeyAgainIff(raw, r);
    OkCountry(r);
    LeavesTrunkIff(r.country, s);
    if !HasBracketed(Trim(raw)) && Numeric(compact) {
      CompactIsStripped(Trim(raw));
    }
  }

  lemma EmptyIsHidden(r: Reader)
    ensures IsHidden("", r)
  {
  }

  lemma E164KeyAgain(raw: string, r: Reader)
    requires ReaderOk(r) && !IsHidden(raw, r) && ToE164(raw, r).Some?
    ensures PhoneKey(ToE164(raw, r).value, r) == ToE164(raw, r).value <==> KeyStays(raw, r)
  {
    hide ToE164, ReaderOk, CountryOk, SplitE164, International, IsE164, Trunk0;
    var e := ToE164(raw, r).value;
    OkCountry(r);
    ReadIsE164(raw, r);
    RestIsLong(raw, r);
    ShortOrTrunk(e);
    ReadsE164(e, r);
    KeyOfE164(e, r);
  }

  lemma OkCountry(r: Reader)
    requires ReaderOk(r)
    ensures CountryOk(r.country)
  {
  }

  lemma KeyOfE164(e: string, r: Reader)
    requires ReaderOk(r) && IsE164(e)
    ensures PhoneKey(e, r) == if ToE164(e, r).Some? then ToE164(e, r).value else e
  {
    hide ToE164, ReaderOk, Compact, IsHidden, Keep, Trim;
    E164Plain(e);
    NotHidden(e, r, 1);
    CompactE164(e);
  }

  lemma CompactE164(e: string)
    requires IsE164(e)
    ensures Compact(e) == e
  {
    forall i | 0 <= i < |e|
      ensures !IsBracket(e[i])
    {
      assert i > 0 ==> IsDigit(e[1..][i - 1]);
    }
    KeepAll(e, c => !IsBracket(c));
  }

  /** A number's digits as they are: every character of them is one, but a plus before them. */
  lemma NumericPlain(s: string)
    requires Numeric(s)
    ensures forall i :: 0 <= i < |s| ==> IsDigit(s[i]) || (i == 0 && s[0] == '+')
    ensures exists i :: 0 <= i < |s| && IsDigit(s[i])
  {
    if s[0] == '+' {
      forall i | 1 <= i < |s|
        ensures IsDigit(s[i])
      {
        assert s[i] == s[1..][i - 1];
      }
      assert IsDigit(s[1]);
    } else {
      assert IsDigit(s[0]);
    }
  }

  lemma CompactAgain(s: string, r: Reader)
    requires ReaderOk(r) && Numeric(s)
    ensures ToE164(s, r) == ReadNumber(r.country, s) && Compact(Trim(s)) == s && !IsHidden(s, r)
  {
    hide ReaderOk, ToE164, Trim, IsSpace;
    NumericPlain(s);
    var i :| 0 <= i < |s| && IsDigit(s[i]);
    NumericKept(s);
    NotHidden(s, r, i);
    ReadPlain(s, r, i);
  }

  lemma NumericKept(s: string)
    requires Numeric(s)
    ensures Trim(s) == s && DropBracketed(s) == s && Keep(s, Unmarked()) == s && Compact(s) == s && BeginsAsNumber(s)
  {
    NumericPlain(s);
    hide IsSpace, Trim, Keep, DropBracketed, Numeric;
    forall i | 0 <= i < |s|
      ensures s[i] != '(' && !IsMark(s[i]) && !IsBracket(s[i])
    {
      NotSpace(s[i]);
    }
    TrimNothing(s);
    NotBracketed(s);
    KeepAll(s, Unmarked());
    KeepAll(s, c => !IsBracket(c));
  }

  // ---- One person, and an index of them ----------------------------------------------------------------

  function DigitsOf(s: string): string {
    Keep(s, c => IsDigit(c))
  }

  /** The last nine of a number's digits (none: it is no number of eight digits or more). */
  function Tail(key: string): Option<string> {
    var d := DigitsOf(key);
    if Numeric(key) && |d| >= 8 then Some(if |d| > 9 then d[|d| - 9..] else d) else None
  }

  predicate Readable(raw: string, r: Reader) {
    ToE164(raw, r).Some?
  }

  predicate SamePerson(a: string, b: string, r: Reader) {
    !IsHidden(a, r) && !IsHidden(b, r) &&
    (PhoneKey(a, r) == PhoneKey(b, r)
     || (!(Readable(a, r) && Readable(b, r)) && Tail(PhoneKey(a, r)).Some? && Tail(PhoneKey(a, r)) == Tail(PhoneKey(b, r))))
  }

  /** Anyone is themselves, but a hidden caller; and it goes both ways. */
  lemma SameIsSymmetric(a: string, b: string, r: Reader)
    ensures SamePerson(a, a, r) <==> !IsHidden(a, r)
    ensures SamePerson(a, b, r) <==> SamePerson(b, a, r)
  {
    hide PhoneKey, IsHidden, Readable, Tail;
  }

  /** The same person's numbers, both read, are one number. */
  lemma SameWhenRead(a: string, b: string, r: Reader)
    requires Readable(a, r) && Readable(b, r)
    ensures SamePerson(a, b, r) <==> ToE164(a, r) == ToE164(b, r)
  {
    hide Tail, Numeric;
  }

  /** Of two numbers the same person's as a third: they are one person's exactly when one of them is not read, or both are one number. */
  lemma SameIsTransitiveIff(a: string, b: string, c: string, r: Reader)
    requires SamePerson(a, b, r) && SamePerson(b, c, r)
    ensures SamePerson(a, c, r) <==> !(Readable(a, r) && Readable(c, r)) || ToE164(a, r) == ToE164(c, r)
  {
    hide IsHidden, ToE164, Tail, Numeric, Compact, Trim;
  }

  /** What an index keeps of who was added. */
  datatype Index = Index(keys: set<string>, readableTails: set<string>, otherTails: set<string>)

  function Added(i: Index, raw: string, r: Reader): Index {
    if IsHidden(raw, r) then i
    else
      var key := PhoneKey(raw, r);
      var tail := Tail(key);
      var j := i.(keys := i.keys + {key});
      if tail.None? then j
      else if Readable(raw, r) then j.(readableTails := j.readableTails + {tail.value})
      else j.(otherTails := j.otherTails + {tail.value})
  }

  function IndexOf(members: seq<string>, r: Reader): Index {
    if members == [] then Index({}, {}, {}) else Added(IndexOf(members[..|members| - 1], r), members[|members| - 1], r)
  }

  predicate Holds(i: Index, raw: string, r: Reader) {
    !IsHidden(raw, r) &&
    var key := PhoneKey(raw, r);
    var tail := Tail(key);
    key in i.keys || (tail.Some? && (tail.value in i.otherTails || (!Readable(raw, r) && tail.value in i.readableTails)))
  }

  lemma AddedHolds(i: Index, raw: string, x: string, r: Reader)
    ensures Holds(Added(i, raw, r), x, r) <==> Holds(i, x, r) || SamePerson(raw, x, r)
  {
    hide PhoneKey, IsHidden, Readable, Tail;
  }

  /** After any additions, asking the index is scanning them all. */
  lemma {:induction false} IndexIsScan(members: seq<string>, x: string, r: Reader)
    ensures Holds(IndexOf(members, r), x, r) <==> exists k :: 0 <= k < |members| && SamePerson(members[k], x, r)
  {
    hide Holds, Added, SamePerson;
    if members == [] {
      NothingHeld(x, r);
    } else {
      var n := |members| - 1;
      var before := members[..n];
      IndexIsScan(before, x, r);
      AddedHolds(IndexOf(before, r), members[n], x, r);
      if Holds(IndexOf(before, r), x, r) {
        var k :| 0 <= k < |before| && SamePerson(before[k], x, r);
        assert SamePerson(members[k], x, r);
      }
      if exists k :: 0 <= k < |members| && SamePerson(members[k], x, r) {
        var k :| 0 <= k < |members| && SamePerson(members[k], x, r);
        assert k < n ==> SamePerson(before[k], x, r);
      }
    }
  }

  lemma NothingHeld(x: string, r: Reader)
    ensures !Holds(Index({}, {}, {}), x, r)
  {
  }

  class PersonIndex {
    const reader: Reader
    var keys: set<string>
    var readableTails: set<string>
    var otherTails: set<string>
    ghost var members: seq<string>

    ghost predicate Valid()
      reads this
    {
      Index(keys, readableTails, otherTails) == IndexOf(members, reader)
    }

    constructor (reader: Reader)
      ensures Valid() && members == [] && this.reader == reader
    {
      this.reader := reader;
      keys, readableTails, otherTails, members := {}, {}, {}, [];
    }

    method Add(raw: string)
      requires Valid()
      modifies this
      ensures Valid() && members == old(members) + [raw]
    {
      hide PhoneKey, Tail, Readable, IsHidden;
      assert (members + [raw])[..|members|] == members;
      members := members + [raw];
      if IsHidden(raw, reader) {
        return;
      }
      var key := PhoneKey(raw, reader);
      var tail := Tail(key);
      keys := keys + {key};
      if tail.Some? {
        if Readable(raw, reader) {
          readableTails := readableTails + {tail.value};
        } else {
          otherTails := otherTails + {tail.value};
        }
      }
    }

    /** Looks the three sets up in place of scanning `members`. */
    method Has(raw: string) returns (held: bool)
      requires Valid()
      ensures held <==> exists k :: 0 <= k < |members| && SamePerson(members[k], raw, reader)
    {
      hide SamePerson, IndexOf;
      IndexIsScan(members, raw, reader);
      if IsHidden(raw, reader) {
        return false;
      }
      var key := PhoneKey(raw, reader);
      if key in keys {
        return true;
      }
      var tail := Tail(key);
      if tail.None? {
        return false;
      }
      held := tail.value in otherTails || (!Readable(raw, reader) && tail.value in readableTails);
    }
  }
}
