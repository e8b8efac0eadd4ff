/**
 * The countries a number can be read for (app/src/phoneNumbers.ts:31-73), and
 * what holds of numbers for each of them.
 */
module Countries {
  import opened Options
  import opened Text
  import opened PhoneNumbers
  import opened PhoneDisplay

  const TABLE1: seq<Country> := [
    Country("AU", "61", "0", "0011", 9, 9, [{'2', '3', '4', '7', '8'}]),
    Country("NZ", "64", "0", "00", 8, 10, [D29]),
    Country("GB", "44", "0", "00", 9, 10, [D19]),
    Country("IE", "353", "0", "00", 7, 9, [D19]),
    Country("US", "1", "1", "011", 10, 10, [D29, D09, D09, D29])
  ]

  const TABLE2: seq<Country> := [
    Country("CA", "1", "1", "011", 10, 10, [D29, D09, D09, D29]),
    Country("IN", "91", "0", "00", 10, 10, [D19]),
    Country("SG", "65", "", "000", 8, 8, [{'3', '6', '8', '9'}]),
    Country("HK", "852", "", "001", 8, 8, [D29]),
    Country("MY", "60", "0", "00", 8, 10, [D19])
  ]

  const TABLE3: seq<Country> := [
    Country("PH", "63", "0", "00", 8, 10, [D29]),
    Country("ID", "62", "0", "001", 8, 12, [D19]),
    Country("TH", "66", "0", "001", 8, 9, [D29]),
    Country("VN", "84", "0", "00", 9, 10, [D19]),
    Country("CN", "86", "0", "00", 9, 11, [D19])
  ]

  const TABLE4: seq<Country> := [
    Country("JP", "81", "0", "010", 9, 10, [D19]),
    Country("KR", "82", "0", "001", 8, 10, [D19]),
    Country("TW", "886", "0", "002", 8, 9, [D29]),
    Country("ZA", "27", "0", "00", 9, 9, [D19]),
    Country("AE", "971", "0", "00", 8, 9, [D29])
  ]

  const TABLE5: seq<Country> := [
    Country("IL", "972", "0", "00", 8, 9, [D29]),
    Country("DE", "49", "0", "00", 6, 11, [D19]),
    Country("FR", "33", "0", "00", 9, 9, [D19]),
    Country("IT", "39", "", "00", 6, 11, [{'0', '3'}]),
    Country("ES", "34", "", "00", 9, 9, [{'6', '7', '8', '9'}])
  ]

  const TABLE6: seq<Country> := [
    Country("NL", "31", "0", "00", 9, 9, [D19]),
    Country("BE", "32", "0", "00", 8, 9, [D19]),
    Country("CH", "41", "0", "00", 9, 9, [D19]),
    Country("AT", "43", "0", "00", 4, 13, [D19]),
    Country("SE", "46", "0", "00", 7, 9, [D19])
  ]

  const TABLE7: seq<Country> := [
    Country("NO", "47", "", "00", 8, 8, [D29]),
    Country("DK", "45", "", "00", 8, 8, [D29]),
    Country("FI", "358", "0", "00", 5, 10, [D19]),
    Country("PL", "48", "", "00", 9, 9, [D19]),
    Country("PT", "351", "", "00", 9, 9, [{'2', '9'}])
  ]

  const TABLE8: seq<Country> := [
    Country("GR", "30", "", "00", 10, 10, [{'2', '6'}]),
    Country("BR", "55", "0", "00", 10, 11, [D19]),
    Country("MX", "52", "", "00", 10, 10, [D19]),
    Country("AR", "54", "0", "00", 10, 10, [D19]),
    Country("FJ", "679", "", "00", 7, 7, [D29]),
    Country("PG", "675", "", "00", 7, 8, [D19])
  ]

  /** In eight parts, in the source's order. */
  const COUNTRIES: seq<Country> := TABLE1 + TABLE2 + TABLE3 + TABLE4 + TABLE5 + TABLE6 + TABLE7 + TABLE8

  lemma Table1Ok()
    ensures forall c :: c in TABLE1 ==> CountryOk(c)
  {
  }

  lemma Table2Ok()
    ensures forall c :: c in TABLE2 ==> CountryOk(c)
  {
  }

  lemma Table3Ok()
    ensures forall c :: c in TABLE3 ==> CountryOk(c)
  {
  }

  lemma Table4Ok()
    ensures forall c :: c in TABLE4 ==> CountryOk(c)
  {
  }

  lemma Table5Ok()
    ensures forall c :: c in TABLE5 ==> CountryOk(c)
  {
  }

  lemma Table6Ok()
    ensures forall c :: c in TABLE6 ==> CountryOk(c)
  {
  }

  lemma Table7Ok()
    ensures forall c :: c in TABLE7 ==> CountryOk(c)
  {
  }

  lemma Table8Ok()
    ensures forall c :: c in TABLE8 ==> CountryOk(c)
  {
  }

  lemma Table1Clear()
    ensures forall c :: c in TABLE1 && c.code != "JP" && c.code != "IT" ==> Clear(c)
  {
  }

  lemma Table2Clear()
    ensures forall c :: c in TABLE2 && c.code != "JP" && c.code != "IT" ==> Clear(c)
  {
  }

  lemma Table3Clear()
    ensures forall c :: c in TABLE3 && c.code != "JP" && c.code != "IT" ==> Clear(c)
  {
  }

  lemma Table4Clear()
    ensures forall c :: c in TABLE4 && c.code != "JP" && c.code != "IT" ==> Clear(c)
  {
  }

  lemma Table5Clear()
    ensures forall c :: c in TABLE5 && c.code != "JP" && c.code != "IT" ==> Clear(c)
  {
  }

  lemma Table6Clear()
    ensures forall c :: c in TABLE6 && c.code != "JP" && c.code != "IT" ==> Clear(c)
  {
  }

  lemma Table7Clear()
    ensures forall c :: c in TABLE7 && c.code != "JP" && c.code != "IT" ==> Clear(c)
  {
  }

  lemma Table8Clear()
    ensures forall c :: c in TABLE8 && c.code != "JP" && c.code != "IT" ==> Clear(c)
  {
  }

  lemma AllClearButTwo()
    ensures forall c :: c in COUNTRIES && c.code != "JP" && c.code != "IT" ==> Clear(c)
  {
    hide Clear;
    Table1Clear();
    Table2Clear();
    Table3Clear();
    Table4Clear();
    Table5Clear();
    Table6Clear();
    Table7Clear();
    Table8Clear();
  }

  lemma CountriesOk()
    ensures forall c :: c in COUNTRIES ==> CountryOk(c)
  {
    hide CountryOk;
    Table1Ok();
    Table2Ok();
    Table3Ok();
    Table4Ok();
    Table5Ok();
    Table6Ok();
    Table7Ok();
    Table8Ok();
  }

  // ---- The trunks ------------------------------------------------------------------------

  /** A country of the table by its calling code, its trunk being 0. */
  ghost predicate InTable(table: seq<Country>, dial: string) {
    exists i :: 0 <= i < |table| && table[i].dial == dial && table[i].trunk == "0"
  }

  lemma Table1Trunks(dial: string)
    ensures InTable(TABLE1, dial) <==> dial == "61" || dial == "64" || dial == "44" || dial == "353"
  {
    assert TABLE1[0].dial == "61" && TABLE1[0].trunk == "0";
    assert TABLE1[1].dial == "64" && TABLE1[1].trunk == "0";
    assert TABLE1[2].dial == "44" && TABLE1[2].trunk == "0";
    assert TABLE1[3].dial == "353" && TABLE1[3].trunk == "0";
  }

  lemma Table2Trunks(dial: string)
    ensures InTable(TABLE2, dial) <==> dial == "91" || dial == "60"
  {
    assert TABLE2[1].dial == "91" && TABLE2[1].trunk == "0";
    assert TABLE2[4].dial == "60" && TABLE2[4].trunk == "0";
  }

  lemma Table3Trunks(dial: string)
    ensures InTable(TABLE3, dial) <==> dial == "63" || dial == "62" || dial == "66" || dial == "84" || dial == "86"
  {
    assert TABLE3[0].dial == "63" && TABLE3[0].trunk == "0";
    assert TABLE3[1].dial == "62" && TABLE3[1].trunk == "0";
    assert TABLE3[2].dial == "66" && TABLE3[2].trunk == "0";
    assert TABLE3[3].dial == "84" && TABLE3[3].trunk == "0";
    assert TABLE3[4].dial == "86" && TABLE3[4].trunk == "0";
  }

  lemma Table4Trunks(dial: string)
    ensures InTable(TABLE4, dial) <==> dial == "81" || dial == "82" || dial == "886" || dial == "27" || dial == "971"
  {
    assert TABLE4[0].dial == "81" && TABLE4[0].trunk == "0";
    assert TABLE4[1].dial == "82" && TABLE4[1].trunk == "0";
    assert TABLE4[2].dial == "886" && TABLE4[2].trunk == "0";
    assert TABLE4[3].dial == "27" && TABLE4[3].trunk == "0";
    assert TABLE4[4].dial == "971" && TABLE4[4].trunk == "0";
  }

  lemma Table5Trunks(dial: string)
    ensures InTable(TABLE5, dial) <==> dial == "972" || dial == "49" || dial == "33"
  {
    assert TABLE5[0].dial == "972" && TABLE5[0].trunk == "0";
    assert TABLE5[1].dial == "49" && TABLE5[1].trunk == "0";
    assert TABLE5[2].dial == "33" && TABLE5[2].trunk == "0";
  }

  lemma Table6Trunks(dial: string)
    ensures InTable(TABLE6, dial) <==> dial == "31" || dial == "32" || dial == "41" || dial == "43" || dial == "46"
  {
    assert TABLE6[0].dial == "31" && TABLE6[0].trunk == "0";
    assert TABLE6[1].dial == "32" && TABLE6[1].trunk == "0";
    assert TABLE6[2].dial == "41" && TABLE6[2].trunk == "0";
    assert TABLE6[3].dial == "43" && TABLE6[3].trunk == "0";
    assert TABLE6[4].dial == "46" && TABLE6[4].trunk == "0";
  }

  lemma Table7Trunks(dial: string)
    ensures InTable(TABLE7, dial) <==> dial == "358"
  {
    assert TABLE7[2].dial == "358" && TABLE7[2].trunk == "0";
  }

  lemma Table8Trunks(dial: string)
    ensures InTable(TABLE8, dial) <==> dial == "55" || dial == "54"
  {
    assert TABLE8[1].dial == "55" && TABLE8[1].trunk == "0";
    assert TABLE8[3].dial == "54" && TABLE8[3].trunk == "0";
  }

  lemma TrunkCodes(dial: string)
    ensures Trunk0(dial) <==> dial == "61" || dial == "64" || dial == "44" || dial == "353" || dial == "91" || dial == "60" || dial == "63" || dial == "62" || dial == "66" || dial == "84" || dial == "86" || dial == "81" || dial == "82" || dial == "886" || dial == "27" || dial == "971" || dial == "972" || dial == "49" || dial == "33" || dial == "31" || dial == "32" || dial == "41" || dial == "43" || dial == "46" || dial == "358" || dial == "55" || dial == "54"
  {
    if |dial| == 2 {
      assert dial == [dial[0], dial[1]];
    }
  }

  lemma InJoined(a: seq<Country>, b: seq<Country>, dial: string)
    ensures InTable(a + b, dial) <==> InTable(a, dial) || InTable(b, dial)
  {
    var all := a + b;
    if InTable(a, dial) {
      var i :| 0 <= i < |a| && a[i].dial == dial && a[i].trunk == "0";
      assert all[i] == a[i];
    }
    if InTable(b, dial) {
      var i :| 0 <= i < |b| && b[i].dial == dial && b[i].trunk == "0";
      assert all[|a| + i] == b[i];
    }
  }

  lemma InParts(dial: string)
    ensures InTable(COUNTRIES, dial) <==> InTable(TABLE1, dial) || InTable(TABLE2, dial) || InTable(TABLE3, dial) || InTable(TABLE4, dial) || InTable(TABLE5, dial) || InTable(TABLE6, dial) || InTable(TABLE7, dial) || InTable(TABLE8, dial)
  {
    hide InTable;
    InJoined(TABLE1, TABLE2, dial);
    InJoined(TABLE1 + TABLE2, TABLE3, dial);
    InJoined(TABLE1 + TABLE2 + TABLE3, TABLE4, dial);
    InJoined(TABLE1 + TABLE2 + TABLE3 + TABLE4, TABLE5, dial);
    InJoined(TABLE1 + TABLE2 + TABLE3 + TABLE4 + TABLE5, TABLE6, dial);
    InJoined(TABLE1 + TABLE2 + TABLE3 + TABLE4 + TABLE5 + TABLE6, TABLE7, dial);
    InJoined(TABLE1 + TABLE2 + TABLE3 + TABLE4 + TABLE5 + TABLE6 + TABLE7, TABLE8, dial);
  }

  /** The calling codes with a trunk of 0 are those of the table's countries with one. */
  lemma TrunksAreTheTables(dial: string)
    ensures Trunk0(dial) <==> InTable(COUNTRIES, dial)
  {
    hide InTable, Trunk0;
    TrunkCodes(dial);
    InParts(dial);
    Table1Trunks(dial);
    Table2Trunks(dial);
    Table3Trunks(dial);
    Table4Trunks(dial);
    Table5Trunks(dial);
    Table6Trunks(dial);
    Table7Trunks(dial);
    Table8Trunks(dial);
  }

  // ---- What holds of numbers for them ---------------------------------------------------

  /** In every country of the table but Japan and Italy, every number of it that fits is printed so that it is read back. */
  lemma LocalRoundTrip(raw: string, r: Reader)
    requires ReaderOk(r) && r.country in COUNTRIES && r.country.code != "JP" && r.country.code != "IT" && ToE164(raw, r).Some?
    requires
      var (cc, n) := SplitE164(ToE164(raw, r).value);
      cc == r.country.dial && Fits(r.country, n)
    ensures ToE164(Display(raw, r), r) == ToE164(raw, r)
  {
    hide ToE164, Fits, Abroad, ReaderOk, CountryOk, SplitE164, National, Prefix, IsE164, Clear;
    OkCountry(r);
    AllClearButTwo();
    RestIsLong(raw, r);
    ClearIsNotAbroad(r.country, SplitE164(ToE164(raw, r).value).1);
    LocalRoundTripIff(raw, r);
  }

  // ---- Numbers that do not come back ----------------------------------------------------------------------

  /** A number of a country, written with its calling code, is read as itself. */
  lemma GivenNumber(c: Country, n: string, r: Reader)
    requires ReaderOk(r) && CountryOk(c) && AllDigits(n) && 6 <= |n| <= 12 && !(n[0] == '0' && Trunk0(c.dial))
    ensures
      var e := "+" + c.dial + n;
      IsE164(e) && ToE164(e, r) == Some(e) && SplitE164(e) == (c.dial, n)
  {
    var e := "+" + c.dial + n;
    SplitInvertsJoin(c, n);
    assert e[1..] == c.dial + n;
    assert StartsWith(n, "0") ==> n[0] == '0' by {
      assert n[..1] == [n[0]];
    }
    hide ToE164, ReaderOk, International, SplitE164, Trunk0;
    InternationalAgainIff(e);
    ReadsE164(e, r);
  }

  /** In Japan a number that begins with 10 is printed with its trunk, as a call abroad begins. */
  lemma JapansTen(r: Reader)
    requires ReaderOk(r) && r.country == TABLE4[0]
    ensures
      var e := "+81101234567";
      && ToE164(e, r) == Some(e) && SplitE164(e) == ("81", "101234567") && Fits(r.country, "101234567")
      && ToE164(Display(e, r), r) != ToE164(e, r)
  {
    hide ToE164, ReaderOk, CountryOk, SplitE164, Trunk0;
    var e, n := "+81101234567", "101234567";
    assert e == "+" + r.country.dial + n;
    OkCountry(r);
    GivenNumber(r.country, n, r);
    assert ("0" + n)[..3] == "010";
    assert Abroad(r.country, Prefix(r.country, n) + n);
    LocalRoundTripIff(e, r);
  }

  /** In Italy, where a number's own 0 is dialled, one that begins with 00. */
  lemma ItalysZeros(r: Reader)
    requires ReaderOk(r) && r.country == TABLE5[3]
    ensures
      var e := "+390012345678";
      && ToE164(e, r) == Some(e) && SplitE164(e) == ("39", "0012345678") && Fits(r.country, "0012345678")
      && ToE164(Display(e, r), r) != ToE164(e, r)
  {
    hide ToE164, ReaderOk, CountryOk, SplitE164;
    hide Display, Prefix, Abroad, Trunk0, Fits;
    var e, n := "+390012345678", "0012345678";
    ItalianNumber(r.country, n);
    ItalianFits(r.country, n);
    OkCountry(r);
    GivenNumber(r.country, n, r);
    LocalRoundTripIff(e, r);
  }

  lemma ItalianNumber(c: Country, n: string)
    requires c == TABLE5[3] && n == "0012345678"
    ensures AllDigits(n) && Abroad(c, Prefix(c, n) + n) && "+" + c.dial + n == "+390012345678"
  {
    hide Trunk0, Fits;
    assert Prefix(c, n) == "" && "" + n == n && n[..2] == "00";
  }

  lemma ItalianFits(c: Country, n: string)
    requires c == TABLE5[3] && n == "0012345678"
    ensures !Trunk0(c.dial) && Fits(c, n)
  {
  }

  /** An Australian number with its trunk written twice, read in America: it keeps one, and is not printed so that it comes back. */
  lemma TrunkTwice(r: Reader)
    requires ReaderOk(r) && r.country == TABLE1[4]
    ensures
      var raw, e := "+6100412345678", "+610412345678";
      && ToE164(raw, r) == Some(e)
      && ToE164(Display(raw, r), r) != ToE164(raw, r)
      && PhoneKey(PhoneKey(raw, r), r) != PhoneKey(raw, r)
  {
    hide ToE164, ReaderOk, CountryOk, PhoneKey, SplitE164, Display;
    var raw, e := "+6100412345678", "+610412345678";
    TwiceRead();
    TwiceGiven();
    ReadsE164(raw, r);
    AustralianSplit("0412345678");
    OkCountry(r);
    NotHidden(raw, r, 1);
    hide International, IsHidden, KeyStays, ComesBack;
    LeavesATrunk(raw, e, r);
    KeyAgainIff(raw, r);
    ForeignRoundTripIff(raw, r);
  }

  lemma LeavesATrunk(raw: string, e: string, r: Reader)
    requires e == "+610412345678" && SplitE164(e) == ("61", "0412345678") && Trunk0("61")
    requires !IsHidden(raw, r) && ToE164(raw, r) == Some(e)
    ensures !KeyStays(raw, r) && !ComesBack(e)
  {
    hide SplitE164, Trunk0, IsHidden, ToE164;
    assert StartsWith("0412345678", "0");
  }

  lemma AustralianSplit(n: string)
    ensures SplitE164("+61" + n) == ("61", n) && Trunk0("61")
  {
    Table1Ok();
    assert TABLE1[0] in TABLE1;
    SplitInvertsJoin(TABLE1[0], n);
    assert "+" + "61" + n == "+61" + n;
  }

  lemma TwiceGiven()
    ensures IsE164("+6100412345678") && "+6100412345678"[1..] == "6100412345678"
  {
  }

  lemma TwiceRead()
    ensures International("6100412345678") == Some("+610412345678") && "+61" + "0412345678" == "+610412345678"
  {
    var d := "6100412345678";
    assert DialLength(d) == 2 && d[..2] == "61" && d[2..] == "00412345678";
    var nsn := d[2..][1..];
    assert d[2..][..1] == "0" && nsn == "0412345678" && |nsn| == 10 && Trunk0(d[..2]);
    assert "+" + d[..2] + nsn == "+610412345678";
    assert International(d) == Some("+" + d[..2] + nsn);
  }

  /** An Australian mobile, its trunk in brackets and no country: no number without the trunk, and its key is one with it. */
  lemma KeyReadAgain(r: Reader)
    requires ReaderOk(r) && r.country == TABLE1[0]
    ensures
      var raw := "(0)412 345 678";
      PhoneKey(raw, r) == "0412345678" && PhoneKey("0412345678", r) == "+61412345678"
  {
    var raw, compact, plain := "(0)412 345 678", "0412345678", "412345678";
    assert BeginsAsNumber(raw) && IsDigit(raw[1]);
    BracketedText(raw);
    NotRead(plain);
    ReadWithTrunk(compact);
    hide ReaderOk, CountryOk, PhoneKey, Trim, Stripped, Compact, ReadNumber, IsHidden, Numeric;
    CompactAgain(compact, r);
    NotHidden(raw, r, 1);
    KeyOf(raw, r);
    CompactRead(compact, r);
  }

  lemma CompactRead(s: string, r: Reader)
    requires ToE164(s, r).Some? && !IsHidden(s, r)
    ensures PhoneKey(s, r) == ToE164(s, r).value
  {
  }

  lemma KeyOf(raw: string, r: Reader)
    requires !IsHidden(raw, r)
    ensures
      PhoneKey(raw, r) ==
      var e, compact := ReadNumber(r.country, Stripped(Trim(raw))), Compact(Trim(raw));
      if e.Some? then e.value else if Numeric(compact) then compact else Trim(raw)
  {
  }

  lemma ReadWithTrunk(s: string)
    requires s == "0412345678"
    ensures ReadNumber(TABLE1[0], s) == Some("+61412345678") && Numeric(s)
  {
    hide International;
    var n := s[1..];
    assert n == "412345678" && s[..1] == "0" && Fits(TABLE1[0], n);
    Unlike(s, "0011", 1);
    Unlike(s, "00", 1);
    assert "+" + "61" + n == "+61412345678";
  }

  lemma BracketedText(raw: string)
    requires raw == "(0)412 345 678"
    ensures Trim(raw) == raw && Stripped(raw) == "412345678" && Compact(raw) == "0412345678"
  {
    hide Trim, Compact, Keep, IsMark, IsBracket, IsSpace, DropBracketed;
    var rest := "412 345 678";
    assert raw == "(0)" + rest && raw[0] == '(' && IsDigit(raw[|raw| - 1]);
    NotSpace(raw[0]);
    NotSpace(raw[|raw| - 1]);
    TrimNothing(raw);
    SpacedOut(rest);
    BracketDropped(raw, rest);
    CompactAfter(raw, rest);
  }

  lemma BracketDropped(raw: string, rest: string)
    requires raw == "(0)" + rest && DropBracketed(rest) == rest
    ensures DropBracketed(raw) == rest
  {
    assert raw[3..] == rest;
  }

  lemma CompactAfter(raw: string, rest: string)
    requires raw == "(0)" + rest
    ensures Compact(raw) == "0" + Compact(rest)
  {
    KeepJoin("(0)", rest, c => !IsBracket(c));
    TheTrunk();
  }

  lemma SpacedOut(rest: string)
    requires rest == "412 345 678"
    ensures DropBracketed(rest) == rest && Keep(rest, Unmarked()) == "412345678" == Compact(rest)
  {
    assert forall i :: 0 <= i < |rest| ==> rest[i] != '(' && (IsDigit(rest[i]) || rest[i] == ' ');
    assert rest == Spaced("412", Spaced("345", "678"));
    assert "412" + "345" + "678" == "412345678";
    hide Keep, Compact, DropBracketed, Spaced;
    NotBracketed(rest);
    ThreeKeep("412", "345", "678");
    KeptAlike(rest);
  }

  lemma TheTrunk()
    ensures Keep("(0)", c => !IsBracket(c)) == "0"
  {
    hide Keep;
    assert "(0)" == "(" + "0)" && "0)" == "0" + ")" && "" + "0" == "0" && "0" + "" == "0";
    KeepJoin("(", "0)", c => !IsBracket(c));
    KeepJoin("0", ")", c => !IsBracket(c));
    KeepNone("(", c => !IsBracket(c));
    KeepAll("0", c => !IsBracket(c));
    KeepNone(")", c => !IsBracket(c));
  }

  /** Three numbers, the middle one not read in Australia: its nine digits end both others, which are an Australian and an American. */
  lemma NotTransitive(r: Reader)
    requires ReaderOk(r) && r.country == TABLE1[0]
    ensures SamePerson("+61412345678", "412345678", r) && SamePerson("412345678", "+12412345678", r)
    ensures !SamePerson("+61412345678", "+12412345678", r)
  {
    var a, b, c := "+61412345678", "412345678", "+12412345678";
    hide ReaderOk, PhoneKey, ToE164, Tail, IsHidden, DialLength;
    ExampleA();
    ExampleC();
    ReadExample(a, r, 2);
    ReadExample(c, r, 1);
    UnreadExample(b, r);
    hide SamePerson;
    SameByTail(a, b, r);
    SameByTail(c, b, r);
    SameIsSymmetric(c, b, r);
    SameWhenRead(a, c, r);
  }

  lemma ExampleA()
    ensures
      var e := "+61412345678";
      (forall i :: 1 <= i < |e| ==> '1' <= e[i] <= '9') && DialLength(e[1..]) == 2 && e[1..][2..] == "412345678"
  {
  }

  lemma ExampleC()
    ensures
      var e := "+12412345678";
      (forall i :: 1 <= i < |e| ==> '1' <= e[i] <= '9') && DialLength(e[1..]) == 1 && e[1..][2..] == "412345678"
  {
  }

  lemma SameByTail(a: string, b: string, r: Reader)
    requires !IsHidden(a, r) && !IsHidden(b, r) && !Readable(b, r)
    requires Tail(PhoneKey(a, r)).Some? && Tail(PhoneKey(a, r)) == Tail(PhoneKey(b, r))
    ensures SamePerson(a, b, r)
  {
  }

  lemma ReadExample(e: string, r: Reader, n: nat)
    requires ReaderOk(r) && 10 <= |e| - 1 <= 15 && e[0] == '+' && (forall i :: 1 <= i < |e| ==> '1' <= e[i] <= '9') && DialLength(e[1..]) == n <= 2
    ensures !IsHidden(e, r) && ToE164(e, r) == Some(e) && PhoneKey(e, r) == e && Tail(e) == Some(e[1..][|e[1..]| - 9..])
  {
    NoZeroReads(e, n);
    hide ReaderOk, ToE164, PhoneKey, IsHidden, Trunk0, International, Tail, ReadsAsItself, IsE164;
    InternationalAgainIff(e);
    ReadsE164(e, r);
    KeyOfE164(e, r);
    NotHidden(e, r, 1);
    TailOfE164(e);
  }

  lemma TailOfE164(e: string)
    requires IsE164(e) && |e| > 10
    ensures Tail(e) == Some(e[1..][|e[1..]| - 9..])
  {
    DigitsOfE164(e);
    hide DigitsOf, IsE164, Numeric;
  }

  lemma NoZeroReads(e: string, n: nat)
    requires 10 <= |e| - 1 <= 15 && e[0] == '+' && (forall i :: 1 <= i < |e| ==> '1' <= e[i] <= '9') && DialLength(e[1..]) == n <= 2
    ensures IsE164(e) && ReadsAsItself(e) && IsDigit(e[1])
  {
    hide Trunk0;
    assert forall i :: 0 <= i < |e| - 1 ==> e[1..][i] == e[i + 1];
    assert e[1..][n..][0] == e[n + 1];
  }

  lemma DigitsOfE164(e: string)
    requires IsE164(e)
    ensures DigitsOf(e) == e[1..] && Numeric(e)
  {
    assert e == "+" + e[1..];
    KeepJoin("+", e[1..], c => IsDigit(c));
    KeepAll(e[1..], c => IsDigit(c));
    KeepNone("+", c => IsDigit(c));
  }

  lemma UnreadExample(b: string, r: Reader)
    requires ReaderOk(r) && r.country == TABLE1[0] && b == "412345678"
    ensures !IsHidden(b, r) && ToE164(b, r) == None && PhoneKey(b, r) == b && Tail(b) == Some(b)
  {
    NotRead(b);
    UnreadKey(b, r);
    TailOfDigits(b);
  }

  lemma UnreadKey(b: string, r: Reader)
    requires ReaderOk(r) && Numeric(b) && ReadNumber(r.country, b) == None
    ensures !IsHidden(b, r) && ToE164(b, r) == None && PhoneKey(b, r) == b
  {
    CompactAgain(b, r);
    hide ReaderOk, ToE164, IsHidden, ReadNumber, CountryOk, Compact, Keep, Trim;
  }

  lemma TailOfDigits(b: string)
    requires AllDigits(b) && 8 <= |b| <= 9
    ensures Tail(b) == Some(b)
  {
    KeepAll(b, c => IsDigit(c));
    hide Keep;
    assert b[0] != '+' by { assert IsDigit(b[0]); }
  }

  lemma NotRead(b: string)
    requires b == "412345678"
    ensures ReadNumber(TABLE1[0], b) == None && Numeric(b) && AllDigits(b)
  {
    hide Fits, International;
    assert b[0] == '4';
  }
}
