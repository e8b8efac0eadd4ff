/**
 * How a number that was read is printed (app/src/phoneNumbers.ts:323-376),
 * digit by digit: at home, and in another country.
 */
module PhonePrinted {
  import opened Options
  import opened Text
  import opened PhoneNumbers
  import opened PhoneDisplay

  lemma CodeSplits(cc: string, n: string)
    requires cc == "1" || cc == "61" || cc == "64" || cc == "44"
    ensures SplitE164("+" + cc + n) == (cc, n)
  {
    var d := cc + n;
    assert "+" + cc + n == "+" + d && ("+" + d)[1..] == d;
    assert d[..|cc|] == cc && d[|cc|..] == n && d[0] == cc[0] && (|cc| == 2 ==> d[1] == cc[1]);
  }

  lemma WithSpace(a: string, b: string)
    ensures "+" + Spaced(a, b) == "+" + a + " " + b
  {
  }

  /** What is shown of a number of this country: as it is written at home, or abroad. */
  lemma ShownAs(raw: string, r: Reader, cc: string, n: string)
    requires CountryOk(r.country) && (cc == "1" || cc == "61" || cc == "64" || cc == "44") && n != ""
    requires ToE164(raw, r) == Some("+" + cc + n)
    ensures Display(raw, r) == if cc == r.country.dial then National(r.country, n) else "+" + cc + " " + AbroadDigits(cc, n)
  {
    SameTrimmed(raw, r);
    CodeSplits(cc, n);
    WithSpace(cc, AbroadDigits(cc, n));
    hide ToE164, CountryOk, SplitE164, National, AbroadDigits, Trim, Spaced, Keep, Fits;
  }

  /** In Australia: mobiles in threes, others by area and fours; abroad the same, without the trunk. */
  lemma AustraliansAre(raw: string, r: Reader, n: string)
    requires CountryOk(r.country) && ToE164(raw, r) == Some("+61" + n) && |n| == 9 && n[0] != '1'
    ensures
      var digits := if n[0] == '4' || n[0] == '5' then n[..3] + " " + n[3..6] + " " + n[6..] else n[..1] + " " + n[1..5] + " " + n[5..];
      Display(raw, r) == if r.country.dial == "61" then "0" + digits else "+61 " + digits
  {
    hide ToE164, CountryOk, Display;
    assert "+" + "61" + n == "+61" + n;
    ShownAs(raw, r, "61", n);
    assert n[6..] == n[6..9] && n[5..] == n[5..9];
  }

  /** Its numbers of ten digits that begin with 1 have no trunk. */
  lemma ThirteenHundreds(raw: string, r: Reader, n: string)
    requires CountryOk(r.country) && ToE164(raw, r) == Some("+61" + n) && |n| == 10 && n[0] == '1' && r.country.dial == "61"
    ensures Display(raw, r) == n[..4] + " " + n[4..7] + " " + n[7..]
  {
    hide ToE164, CountryOk, Display;
    assert "+" + "61" + n == "+61" + n;
    ShownAs(raw, r, "61", n);
    assert n[7..] == n[7..10];
  }

  lemma NewZealandDigits(c: Country, n: string)
    requires c.dial == "64" && |n| >= 8
    ensures
      var k := |n| - 7;
      var digits := n[..k] + " " + n[k..k + 3] + " " + n[k + 3..];
      National(c, n) == "0" + digits && AbroadDigits("64", n) == digits
  {
    var k := |n| - 7;
    assert Slice(n, 0, k) == n[..k] && Slice(n, -7, -4) == n[k..k + 3] && Slice(n, -4, |n|) == n[k + 3..];
    hide Slice;
  }

  /** In New Zealand the last seven in three and four. */
  lemma NewZealandersAre(raw: string, r: Reader, n: string)
    requires CountryOk(r.country) && ToE164(raw, r) == Some("+64" + n) && |n| >= 8
    ensures
      var k := |n| - 7;
      var digits := n[..k] + " " + n[k..k + 3] + " " + n[k + 3..];
      Display(raw, r) == if r.country.dial == "64" then "0" + digits else "+64 " + digits
  {
    hide ToE164, CountryOk, Display, National, AbroadDigits;
    assert "+" + "64" + n == "+64" + n;
    ShownAs(raw, r, "64", n);
    NewZealandDigits(r.country.(dial := "64"), n);
    SameDial(r.country, n);
  }

  lemma SameDial(c: Country, n: string)
    requires n != ""
    ensures c.dial == "64" ==> National(c, n) == National(c.(dial := "64"), n)
    ensures c.dial == "44" ==> National(c, n) == National(c.(dial := "44"), n)
  {
    hide National;
    assert c.dial == "64" ==> c.(dial := "64") == c;
    assert c.dial == "44" ==> c.(dial := "44") == c;
  }

  lemma LondonDigits(c: Country, n: string)
    requires c.dial == "44" && |n| == 10 && n[0] == '2'
    ensures
      var digits := n[..2] + " " + n[2..6] + " " + n[6..];
      National(c, n) == "0" + digits && AbroadDigits("44", n) == digits
  {
    assert Slice(n, 0, 2) == n[..2] && Slice(n, 2, 6) == n[2..6] && Slice(n, 6, |n|) == n[6..];
    hide Slice;
  }

  lemma OtherBritonDigits(c: Country, n: string)
    requires c.dial == "44" && 9 <= |n| <= 10 && !(|n| == 10 && n[0] == '2')
    ensures
      var digits := n[..4] + " " + n[4..];
      National(c, n) == "0" + digits && AbroadDigits("44", n) == digits
  {
    assert Slice(n, 0, 4) == n[..4] && Slice(n, 4, |n|) == n[4..];
    hide Slice;
  }

  /** In Britain London's as two, four and four; the others after four. */
  lemma BritonsAre(raw: string, r: Reader, n: string)
    requires CountryOk(r.country) && ToE164(raw, r) == Some("+44" + n) && 9 <= |n| <= 10
    ensures
      var digits := if n[0] == '2' && |n| == 10 then n[..2] + " " + n[2..6] + " " + n[6..] else n[..4] + " " + n[4..];
      Display(raw, r) == if r.country.dial == "44" then "0" + digits else "+44 " + digits
  {
    hide ToE164, CountryOk, Display, National, AbroadDigits;
    assert "+" + "44" + n == "+44" + n;
    ShownAs(raw, r, "44", n);
    SameDial(r.country, n);
    if n[0] == '2' && |n| == 10 {
      LondonDigits(r.country.(dial := "44"), n);
    } else {
      OtherBritonDigits(r.country.(dial := "44"), n);
    }
  }

  /** In North America the area in brackets. */
  lemma NorthAmericansAre(raw: string, r: Reader, n: string)
    requires CountryOk(r.country) && ToE164(raw, r) == Some("+1" + n) && |n| == 10
    ensures Display(raw, r) ==
      if r.country.dial == "1" then "(" + n[..3] + ") " + n[3..6] + "-" + n[6..] else "+1 " + n[..3] + " " + n[3..6] + " " + n[6..]
  {
    hide ToE164, CountryOk, Display;
    assert "+" + "1" + n == "+1" + n;
    ShownAs(raw, r, "1", n);
    assert n[6..] == n[6..10];
  }
}
