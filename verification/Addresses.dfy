/**
 * What counts as this computer or its network, by an address as it is written
 * (shared/capabilities/local.ts): reading an IPv6 address (RFC 4291, section
 * 2.2), and three rules, each wider than the one before.
 */
module Addresses {
  import opened Options
  import opened Subsequences
  import opened Text

  // ---- Splitting and joining ------------------------------------------------------------------

  function Split(s: string, c: char): (r: seq<string>)
    ensures |r| >= 1
  {
    if s == "" then [""]
    else if s[0] == c then [""] + Split(s[1..], c)
    else
      var r := Split(s[1..], c);
      [[s[0]] + r[0]] + r[1..]
  }

  function Join(parts: seq<string>, c: char): string {
    if parts == [] then "" else if |parts| == 1 then parts[0] else parts[0] + [c] + Join(parts[1..], c)
  }

  lemma {:induction false} SplitNone(s: string, c: char)
    requires c !in s
    ensures Split(s, c) == [s]
  {
    if s != "" {
      SplitNone(s[1..], c);
      assert [s[0]] + s[1..] == s;
    }
  }

  lemma {:induction false} SplitFirst(a: string, t: string, c: char)
    requires c !in a
    ensures Split(a + [c] + t, c) == [a] + Split(t, c)
  {
    var s := a + [c] + t;
    if a == "" {
      assert s[1..] == t;
    } else {
      assert s[1..] == a[1..] + [c] + t;
      SplitFirst(a[1..], t, c);
      assert [a[0]] + a[1..] == a;
    }
  }

  ghost predicate NoneHas(parts: seq<string>, c: char) {
    forall i :: 0 <= i < |parts| ==> c !in parts[i]
  }

  lemma {:induction false} SplitJoin(parts: seq<string>, c: char)
    requires parts != [] && NoneHas(parts, c)
    ensures Split(Join(parts, c), c) == parts
  {
    if |parts| == 1 {
      SplitNone(parts[0], c);
    } else {
      SplitFirst(parts[0], Join(parts[1..], c), c);
      SplitJoin(parts[1..], c);
    }
  }

  // ---- Numbers -------------------------------------------------------------------------------------

  predicate IsHexDigit(c: char) {
    IsDigit(c) || 'a' <= c <= 'f' || 'A' <= c <= 'F'
  }

  function HexValue(c: char): (v: nat)
    requires IsHexDigit(c)
    ensures v < 16
  {
    if IsDigit(c) then (c as int) - ('0' as int) else if 'a' <= c then (c as int) - ('a' as int) + 10 else (c as int) - ('A' as int) + 10
  }

  predicate IsGroup(s: string) {
    1 <= |s| <= 4 && forall i :: 0 <= i < |s| ==> IsHexDigit(s[i])
  }

  function GroupValue(s: string): nat
    requires forall i :: 0 <= i < |s| ==> IsHexDigit(s[i])
  {
    if s == "" then 0 else GroupValue(s[..|s| - 1]) * 16 + HexValue(s[|s| - 1])
  }

  predicate IsOctet(s: string) {
    1 <= |s| <= 3 && AllDigits(s) && Decimal(s) <= 255
  }

  function Decimal(s: string): nat
    requires AllDigits(s)
  {
    if s == "" then 0 else Decimal(s[..|s| - 1]) * 10 + ((s[|s| - 1] as int) - ('0' as int))
  }

  function GroupNumber(s: string): nat
    requires IsGroup(s)
  {
    GroupValue(s)
  }

  function Octet(s: string): (n: nat)
    requires IsOctet(s)
    ensures n <= 255
  {
    Decimal(s)
  }

  function HexDigit(n: nat): (c: char)
    requires n < 16
    ensures IsHexDigit(c) && HexValue(c) == n
  {
    if n < 10 then ('0' as int + n) as char else ('a' as int + n - 10) as char
  }

  /** A number's hexadecimal digits, without leading zeros. */
  function Hex(n: nat): string {
    if n < 16 then [HexDigit(n)] else Hex(n / 16) + [HexDigit(n % 16)]
  }

  lemma HexReads(n: nat)
    requires n < 65536
    ensures IsGroup(Hex(n)) && GroupNumber(Hex(n)) == n
  {
    HexIs(n, 4);
  }

  function Power16(k: nat): nat {
    if k == 0 then 1 else 16 * Power16(k - 1)
  }

  lemma {:induction false} HexIs(n: nat, k: nat)
    requires k >= 1 && n < Power16(k)
    ensures 1 <= |Hex(n)| <= k && (forall i :: 0 <= i < |Hex(n)| ==> IsHexDigit(Hex(n)[i])) && GroupValue(Hex(n)) == n
    decreases k
  {
    if n < 16 {
      assert Hex(n)[..0] == "";
    } else {
      assert k > 1;
      HexIs(n / 16, k - 1);
      var h := Hex(n / 16);
      assert Hex(n)[..|h|] == h;
    }
  }

  // ---- IPv4 -------------------------------------------------------------------------------------------

  type Octets = seq<nat>

  function Ipv4(host: string): (r: Option<Octets>)
    ensures r.Some? ==> |r.value| == 4
  {
    var parts := Split(host, '.');
    if |parts| == 4 && IsOctet(parts[0]) && IsOctet(parts[1]) && IsOctet(parts[2]) && IsOctet(parts[3])
    then Some([Octet(parts[0]), Octet(parts[1]), Octet(parts[2]), Octet(parts[3])])
    else None
  }

  predicate Ipv4IsLocal(four: Octets)
    requires |four| == 4
  {
    var a, b := four[0], four[1];
    || a == 0 || a == 127 || a == 10 || (a == 172 && 16 <= b <= 31) || (a == 192 && b == 168) || (a == 169 && b == 254)
    || (a == 100 && 64 <= b <= 127)
  }

  predicate Ipv4StaysHere(four: Octets)
    requires |four| == 4
  {
    Ipv4IsLocal(four) && four[0] != 0 && four[0] != 100
  }

  // ---- IPv6 -------------------------------------------------------------------------------------------

  type Groups = seq<nat>

  /** After the last colon, and before it (with it). */
  function LastColon(s: string): Option<nat> {
    if s == "" then None else if s[|s| - 1] == ':' then Some(|s| - 1) else LastColon(s[..|s| - 1])
  }

  /** Four runs of digits, dots between. */
  predicate LooksDotted(s: string) {
    var parts := Split(s, '.');
    |parts| == 4 && forall i :: 0 <= i < 4 ==> parts[i] != "" && AllDigits(parts[i])
  }

  /** A dotted tail as two groups (none: it is no IPv4 address). */
  function WithoutTail(bare: string): Option<string> {
    LastColonIsIn(bare);
    var colon := LastColon(bare);
    if colon.None? || !LooksDotted(bare[colon.value + 1..]) then Some(bare)
    else
      var four := Ipv4(bare[colon.value + 1..]);
      if four.None? then None
      else Some(bare[..colon.value + 1] + Hex(four.value[0] * 256 + four.value[1]) + ":" + Hex(four.value[2] * 256 + four.value[3]))
  }

  lemma LastColonIsIn(s: string)
    ensures LastColon(s).Some? ==> LastColon(s).value < |s| && s[LastColon(s).value] == ':'
  {
  }

  /** The parts between double colons. */
  function Halves(s: string): (r: seq<string>)
    ensures |r| >= 1
  {
    if |s| < 2 then [s]
    else if s[0] == ':' && s[1] == ':' then [""] + Halves(s[2..])
    else
      var r := Halves(s[1..]);
      [[s[0]] + r[0]] + r[1..]
  }

  function Values(parts: seq<string>): (r: Groups)
    requires forall i :: 0 <= i < |parts| ==> IsGroup(parts[i])
    ensures |r| == |parts| && forall i :: 0 <= i < |parts| ==> r[i] == GroupNumber(parts[i])
  {
    seq(|parts|, i requires 0 <= i < |parts| => GroupNumber(parts[i]))
  }

  function Side(text: string): Option<Groups> {
    if text == "" then Some([])
    else
      var parts := Split(text, ':');
      if forall i :: 0 <= i < |parts| ==> IsGroup(parts[i]) then Some(Values(parts)) else None
  }

  function Zeros(n: nat): Groups {
    seq(n, i => 0)
  }

  function ReadGroups(bare: string): (r: Option<Groups>)
    ensures r.Some? ==> |r.value| == 8
  {
    var halves := Halves(bare);
    if |halves| > 2 then None
    else
      var head, rest := Side(halves[0]), if |halves| == 2 then Side(halves[1]) else Some([]);
      if head.None? || rest.None? then None
      else if |halves| == 1 then (if |head.value| == 8 then head else None)
      else if |head.value| + |rest.value| <= 7 then Some(head.value + Zeros(8 - |head.value| - |rest.value|) + rest.value)
      else None
  }

  function Unbracketed(host: string): string {
    if |host| >= 2 && host[0] == '[' && host[|host| - 1] == ']' then host[1..|host| - 1] else host
  }

  function Ipv6Groups(host: string): (r: Option<Groups>)
    ensures r.Some? ==> |r.value| == 8
  {
    var bare := Unbracketed(host);
    if ':' !in bare then None
    else
      var plain := WithoutTail(Split(bare, '%')[0]);
      if plain.None? then None else ReadGroups(plain.value)
  }

  // ---- Reading a spelling ---------------------------------------------------------------------------------

  ghost predicate AreGroups(parts: seq<string>) {
    forall i :: 0 <= i < |parts| ==> IsGroup(parts[i])
  }

  /** Only hexadecimal digits and colons: no zone, no bracket, no dotted tail. */
  predicate Hexes(s: string) {
    forall i :: 0 <= i < |s| ==> IsHexDigit(s[i]) || s[i] == ':'
  }

  lemma {:induction false} JoinIsHexes(parts: seq<string>)
    requires AreGroups(parts)
    ensures Hexes(Join(parts, ':')) && (parts != [] ==> Join(parts, ':') != "")
  {
    if |parts| > 1 {
      JoinIsHexes(parts[1..]);
    }
  }

  lemma NoTail(s: string)
    requires Hexes(s)
    ensures WithoutTail(s) == Some(s)
  {
    LastColonIsIn(s);
    var colon := LastColon(s);
    if colon.Some? {
      var tail := s[colon.value + 1..];
      assert forall i :: 0 <= i < |tail| ==> tail[i] == s[colon.value + 1 + i];
      assert '.' !in tail;
      SplitNone(tail, '.');
    }
  }

  /** Such text is read as it is, with or without brackets. */
  lemma ReadsHexes(s: string)
    requires Hexes(s) && ':' in s
    ensures Ipv6Groups(s) == ReadGroups(s) && Ipv6Groups("[" + s + "]") == ReadGroups(s)
  {
    hide ReadGroups, WithoutTail;
    assert '%' !in s && s[0] != '[';
    SplitNone(s, '%');
    NoTail(s);
    assert Unbracketed("[" + s + "]") == s;
  }

  lemma {:induction false} OneHalf(s: string)
    requires forall i :: 0 <= i < |s| - 1 ==> !(s[i] == ':' && s[i + 1] == ':')
    ensures Halves(s) == [s]
  {
    if |s| >= 2 {
      assert forall i :: 0 <= i < |s[1..]| ==> s[1..][i] == s[i + 1];
      OneHalf(s[1..]);
      assert [s[0]] + s[1..] == s;
    }
  }

  /** Before a double colon, nothing ending in one. */
  lemma {:induction false} TwoHalves(a: string, b: string)
    requires (forall i :: 0 <= i < |a| - 1 ==> !(a[i] == ':' && a[i + 1] == ':')) && (a != "" ==> a[|a| - 1] != ':')
    requires forall i :: 0 <= i < |b| - 1 ==> !(b[i] == ':' && b[i + 1] == ':')
    ensures Halves(a + "::" + b) == [a, b]
    decreases |a|
  {
    var s := a + "::" + b;
    if a == "" {
      assert s[2..] == b;
      OneHalf(b);
    } else {
      assert s[1..] == a[1..] + "::" + b;
      assert forall i :: 0 <= i < |a[1..]| ==> a[1..][i] == a[i + 1];
      assert a[1..] != "" ==> a[1..][|a[1..]| - 1] == a[|a| - 1];
      TwoHalves(a[1..], b);
      assert s[0] == a[0] && (a != "" && |a| == 1 ==> a[0] != ':');
      assert |a| > 1 ==> s[1] == a[1];
      assert [a[0]] + a[1..] == a;
    }
  }

  /** Groups joined: no double colon, and no colon at an end. */
  lemma {:induction false} JoinedWell(parts: seq<string>)
    requires AreGroups(parts)
    ensures
      var s := Join(parts, ':');
      && (forall i :: 0 <= i < |s| - 1 ==> !(s[i] == ':' && s[i + 1] == ':'))
      && (s != "" ==> s[0] != ':' && s[|s| - 1] != ':')
    decreases |parts|
  {
    if |parts| == 1 {
      assert parts[0] == Join(parts, ':');
    } else if |parts| > 1 {
      JoinedWell(parts[1..]);
      JoinIsHexes(parts[1..]);
      var first, rest := parts[0], Join(parts[1..], ':');
      var s := first + ":" + rest;
      assert s == Join(parts, ':');
      forall i | 0 <= i < |s| - 1
        ensures !(s[i] == ':' && s[i + 1] == ':')
      {
        if i < |first| {
          assert s[i] == first[i];
        } else if i == |first| {
          assert s[i + 1] == rest[0];
        } else {
          assert s[i] == rest[i - |first| - 1] && s[i + 1] == rest[i - |first|];
        }
      }
      assert s[0] == first[0] && s[|s| - 1] == rest[|rest| - 1];
    }
  }

  lemma SideReads(parts: seq<string>)
    requires AreGroups(parts)
    ensures Side(Join(parts, ':')) == Some(Values(parts))
  {
    if parts != [] {
      forall i | 0 <= i < |parts|
        ensures ':' !in parts[i]
      {
        assert IsGroup(parts[i]);
      }
      JoinIsHexes(parts);
      SplitJoin(parts, ':');
    }
  }

  /** Eight groups, written out in any digits, are read back. */
  lemma FullReads(parts: seq<string>)
    requires |parts| == 8 && AreGroups(parts)
    ensures Ipv6Groups(Join(parts, ':')) == Some(Values(parts)) && Ipv6Groups("[" + Join(parts, ':') + "]") == Some(Values(parts))
  {
    hide Ipv6Groups, AreGroups, Side, Halves;
    var s := Join(parts, ':');
    JoinIsHexes(parts);
    JoinedWell(parts);
    OneHalf(s);
    SideReads(parts);
    HasColon(parts);
    ReadsHexes(s);
  }

  lemma HasColon(parts: seq<string>)
    requires |parts| >= 2
    ensures ':' in Join(parts, ':')
  {
    assert Join(parts, ':')[|parts[0]|] == ':';
  }

  /** With a run of zeros left out at a double colon. */
  lemma ShortReads(a: seq<string>, b: seq<string>)
    requires AreGroups(a) && AreGroups(b) && |a| + |b| <= 7
    ensures
      var s := Join(a, ':') + "::" + Join(b, ':');
      var g := Values(a) + Zeros(8 - |a| - |b|) + Values(b);
      Ipv6Groups(s) == Some(g) && Ipv6Groups("[" + s + "]") == Some(g)
  {
    hide Ipv6Groups, AreGroups, Side, Halves;
    var left, right := Join(a, ':'), Join(b, ':');
    var s := left + "::" + right;
    JoinIsHexes(a);
    JoinIsHexes(b);
    JoinedWell(a);
    JoinedWell(b);
    TwoHalves(left, right);
    SideReads(a);
    SideReads(b);
    assert s[|left|] == ':';
    assert Hexes(s);
    ReadsHexes(s);
  }

  // ---- A dotted tail -----------------------------------------------------------------------------------------

  lemma {:induction false} LastColonAt(a: string, t: string)
    requires ':' !in t && a != "" && a[|a| - 1] == ':'
    ensures LastColon(a + t) == Some(|a| - 1)
    decreases |t|
  {
    var s := a + t;
    if t == "" {
      assert s == a;
    } else {
      assert s[..|s| - 1] == a + t[..|t| - 1];
      assert s[|s| - 1] == t[|t| - 1];
      LastColonAt(a, t[..|t| - 1]);
    }
  }

  lemma {:induction false} JoinedOctets(parts: seq<string>)
    requires forall i :: 0 <= i < |parts| ==> AllDigits(parts[i])
    ensures forall i :: 0 <= i < |Join(parts, '.')| ==> IsDigit(Join(parts, '.')[i]) || Join(parts, '.')[i] == '.'
  {
    if |parts| > 1 {
      JoinedOctets(parts[1..]);
    }
  }

  /** A dotted tail after a colon is read as the two groups it is. */
  lemma TailReads(before: string, parts: seq<string>)
    requires before != "" && before[|before| - 1] == ':' && Hexes(before)
    requires |parts| == 4 && forall i :: 0 <= i < 4 ==> IsOctet(parts[i])
    ensures
      var hi, lo := Octet(parts[0]) * 256 + Octet(parts[1]), Octet(parts[2]) * 256 + Octet(parts[3]);
      && IsGroup(Hex(hi)) && GroupNumber(Hex(hi)) == hi && IsGroup(Hex(lo)) && GroupNumber(Hex(lo)) == lo
      && Ipv6Groups(before + Join(parts, '.')) == Ipv6Groups(before + Hex(hi) + ":" + Hex(lo))
      && Ipv6Groups("[" + (before + Join(parts, '.')) + "]") == Ipv6Groups(before + Hex(hi) + ":" + Hex(lo))
  {
    hide IsGroup, IsOctet, ReadGroups, Hex, Ipv6Groups, GroupNumber;
    var hi, lo := Octet(parts[0]) * 256 + Octet(parts[1]), Octet(parts[2]) * 256 + Octet(parts[3]);
    HexReads(hi);
    HexReads(lo);
    TailSplits(before, parts);
    HexTail(before, hi, lo);
  }

  lemma TailSplits(before: string, parts: seq<string>)
    requires before != "" && before[|before| - 1] == ':' && Hexes(before)
    requires |parts| == 4 && forall i :: 0 <= i < 4 ==> IsOctet(parts[i])
    ensures
      var hi, lo := Octet(parts[0]) * 256 + Octet(parts[1]), Octet(parts[2]) * 256 + Octet(parts[3]);
      && Ipv6Groups(before + Join(parts, '.')) == ReadGroups(before + Hex(hi) + ":" + Hex(lo))
      && Ipv6Groups("[" + (before + Join(parts, '.')) + "]") == ReadGroups(before + Hex(hi) + ":" + Hex(lo))
  {
    hide ReadGroups, Hex, IsOctet, Octet, Hexes, Join, Split, Ipv4, LooksDotted, LastColon, Ipv6Groups, Unbracketed;
    var tail := Join(parts, '.');
    var s := before + tail;
    OctetsDotted(parts);
    LastColonAt(before, tail);
    assert s[|before|..] == tail && s[..|before|] == before;
    PlainStart(before, tail);
    PlainRead(s, s);
    PlainRead("[" + s + "]", s);
  }

  lemma PlainRead(host: string, bare: string)
    requires Unbracketed(host) == bare && ':' in bare && Split(bare, '%') == [bare] && WithoutTail(bare).Some?
    ensures Ipv6Groups(host) == ReadGroups(WithoutTail(bare).value)
  {
    hide ReadGroups, WithoutTail, Split, Unbracketed;
  }

  /** Four octets joined by dots: digits and dots, split back to them. */
  lemma OctetsDotted(parts: seq<string>)
    requires |parts| == 4 && forall i :: 0 <= i < 4 ==> IsOctet(parts[i])
    ensures
      var tail := Join(parts, '.');
      && (forall i :: 0 <= i < |tail| ==> IsDigit(tail[i]) || tail[i] == '.') && tail != ""
      && ':' !in tail && LooksDotted(tail)
      && Ipv4(tail) == Some([Octet(parts[0]), Octet(parts[1]), Octet(parts[2]), Octet(parts[3])])
  {
    hide Join, Decimal, Split;
    forall i | 0 <= i < 4
      ensures '.' !in parts[i] && AllDigits(parts[i]) && parts[i] != ""
    {
      assert IsOctet(parts[i]);
    }
    JoinedOctets(parts);
    JoinedSome(parts);
    SplitJoin(parts, '.');
  }

  lemma JoinedSome(parts: seq<string>)
    requires |parts| == 4
    ensures Join(parts, '.') != ""
  {
  }

  lemma PlainStart(before: string, tail: string)
    requires before != "" && before[|before| - 1] == ':' && Hexes(before)
    requires forall i :: 0 <= i < |tail| ==> IsDigit(tail[i]) || tail[i] == '.'
    ensures
      var s := before + tail;
      Unbracketed(s) == s && Unbracketed("[" + s + "]") == s && ':' in s && Split(s, '%') == [s]
  {
    var s := before + tail;
    forall i | 0 <= i < |s|
      ensures s[i] != '%' && s[i] != '['
    {
      assert if i < |before| then s[i] == before[i] else s[i] == tail[i - |before|];
    }
    SplitNone(s, '%');
    assert s[|before| - 1] == ':';
  }

  lemma HexTail(before: string, hi: nat, lo: nat)
    requires before != "" && before[|before| - 1] == ':' && Hexes(before) && hi < 65536 && lo < 65536
    ensures Ipv6Groups(before + Hex(hi) + ":" + Hex(lo)) == ReadGroups(before + Hex(hi) + ":" + Hex(lo))
  {
    hide ReadGroups, Ipv6Groups;
    HexReads(hi);
    HexReads(lo);
    var s := before + Hex(hi) + ":" + Hex(lo);
    assert s[|before| - 1] == ':';
    assert Hexes(s);
    ReadsHexes(s);
  }

  /** Groups before others, with a colon after each. */
  function Leading(parts: seq<string>): string {
    if parts == [] then "" else parts[0] + ":" + Leading(parts[1..])
  }

  lemma {:induction false} LeadingIsHexes(parts: seq<string>)
    requires AreGroups(parts)
    ensures Hexes(Leading(parts))
    ensures if parts == [] then Leading(parts) == "" else Leading(parts) != "" && Leading(parts)[|Leading(parts)| - 1] == ':'
  {
    if parts != [] {
      LeadingIsHexes(parts[1..]);
    }
  }

  lemma {:induction false} LeadingJoin(parts: seq<string>, x: string, y: string)
    ensures Join(parts + [x, y], ':') == Leading(parts) + x + ":" + y
  {
    if parts == [] {
      assert parts + [x, y] == [x, y];
      assert "" + x == x;
    } else {
      assert (parts + [x, y])[1..] == parts[1..] + [x, y];
      LeadingJoin(parts[1..], x, y);
      assert Leading(parts) + x + ":" + y == parts[0] + ":" + (Leading(parts[1..]) + x + ":" + y);
    }
  }

  /** The two groups a dotted tail is. */
  function TailGroups(parts: seq<string>): (r: Groups)
    requires |parts| == 4 && forall i :: 0 <= i < 4 ==> IsOctet(parts[i])
    ensures |r| == 2
  {
    [Octet(parts[0]) * 256 + Octet(parts[1]), Octet(parts[2]) * 256 + Octet(parts[3])]
  }

  lemma ValuesWith(a: seq<string>, hi: nat, lo: nat)
    requires AreGroups(a) && hi < 65536 && lo < 65536
    ensures AreGroups(a + [Hex(hi), Hex(lo)]) && Values(a + [Hex(hi), Hex(lo)]) == Values(a) + [hi, lo]
  {
    hide Hex, GroupNumber, IsGroup;
    HexReads(hi);
    HexReads(lo);
  }

  /** Six groups and a dotted tail are read back, in brackets or not. */
  lemma DottedFullReads(a: seq<string>, parts: seq<string>)
    requires |a| == 6 && AreGroups(a) && |parts| == 4 && forall i :: 0 <= i < 4 ==> IsOctet(parts[i])
    ensures
      var s, g := Leading(a) + Join(parts, '.'), Values(a) + TailGroups(parts);
      Ipv6Groups(s) == Some(g) && Ipv6Groups("[" + s + "]") == Some(g)
  {
    hide Ipv6Groups, AreGroups, Leading, Join, Hex, IsOctet, Values, GroupNumber, IsGroup;
    var t := TailGroups(parts);
    LeadingIsHexes(a);
    TailReads(Leading(a), parts);
    ValuesWith(a, t[0], t[1]);
    LeadingJoin(a, Hex(t[0]), Hex(t[1]));
    FullReads(a + [Hex(t[0]), Hex(t[1])]);
  }

  /** And with a run of zeros left out before it. */
  lemma DottedShortReads(a: seq<string>, b: seq<string>, parts: seq<string>)
    requires AreGroups(a) && AreGroups(b) && |a| + |b| <= 5 && |parts| == 4 && forall i :: 0 <= i < 4 ==> IsOctet(parts[i])
    ensures
      var s := Join(a, ':') + "::" + Leading(b) + Join(parts, '.');
      var g := Values(a) + Zeros(6 - |a| - |b|) + Values(b) + TailGroups(parts);
      Ipv6Groups(s) == Some(g) && Ipv6Groups("[" + s + "]") == Some(g)
  {
    hide Ipv6Groups, Leading, Join, Hex, Octet, IsGroup;
    var t := TailGroups(parts);
    var left, right := Values(a) + Zeros(6 - |a| - |b|), Values(b);
    JoinAgain(left, right, t);
    hide IsOctet, Values, Zeros, AreGroups;
    DottedAsGroups(a, b, parts);
    ShortWith(a, b, t[0], t[1]);
  }

  lemma ShortWith(a: seq<string>, b: seq<string>, hi: nat, lo: nat)
    requires AreGroups(a) && AreGroups(b) && |a| + |b| <= 5 && hi < 65536 && lo < 65536
    ensures Ipv6Groups(Join(a, ':') + "::" + Join(b + [Hex(hi), Hex(lo)], ':')) == Some(Values(a) + Zeros(6 - |a| - |b|) + (Values(b) + [hi, lo]))
  {
    hide Ipv6Groups, Join, Hex, IsGroup, GroupNumber, Zeros;
    var right := Values(b) + [hi, lo];
    var parts := b + [Hex(hi), Hex(lo)];
    ValuesWith(b, hi, lo);
    assert |parts| == |b| + 2;
    hide Values, AreGroups;
    ShortReadsTo(a, parts, 6 - |a| - |b|, right);
  }

  lemma ShortReadsTo(a: seq<string>, b: seq<string>, n: nat, right: Groups)
    requires AreGroups(a) && AreGroups(b) && |a| + n + |b| == 8 && n > 0 && Values(b) == right
    ensures Ipv6Groups(Join(a, ':') + "::" + Join(b, ':')) == Some(Values(a) + Zeros(n) + right)
  {
    hide Ipv6Groups, Join, Values, IsGroup, Zeros;
    ShortReads(a, b);
  }

  lemma DottedAsGroups(a: seq<string>, b: seq<string>, parts: seq<string>)
    requires AreGroups(a) && AreGroups(b) && |parts| == 4 && forall i :: 0 <= i < 4 ==> IsOctet(parts[i])
    ensures
      var s, t := Join(a, ':') + "::" + Leading(b) + Join(parts, '.'), TailGroups(parts);
      var plain := Join(a, ':') + "::" + Join(b + [Hex(t[0]), Hex(t[1])], ':');
      Ipv6Groups(s) == Ipv6Groups(plain) && Ipv6Groups("[" + s + "]") == Ipv6Groups(plain)
  {
    hide Ipv6Groups, AreGroups, Leading, Join, Hex, IsOctet, GroupNumber, IsGroup;
    var t, before := TailGroups(parts), Join(a, ':') + "::" + Leading(b);
    var x, y := Hex(t[0]), Hex(t[1]);
    LeadingIsHexes(b);
    JoinIsHexes(a);
    BeforeTail(Join(a, ':'), Leading(b));
    TailReads(before, parts);
    LeadingJoin(b, x, y);
    var left := Join(a, ':') + "::";
    JoinAgain(left, Leading(b), x);
    JoinAgain(left, Leading(b) + x, ":");
    JoinAgain(left, Leading(b) + x + ":", y);
  }

  lemma BeforeTail(a: string, b: string)
    requires Hexes(a) && Hexes(b) && (b != "" ==> b[|b| - 1] == ':')
    ensures
      var before := a + "::" + b;
      Hexes(before) && before != "" && before[|before| - 1] == ':'
  {
  }

  // ---- Three rules ---------------------------------------------------------------------------------------------

  function Dotted(hi: nat, lo: nat): (r: Octets)
    ensures |r| == 4
  {
    [hi / 256, hi % 256, lo / 256, lo % 256]
  }

  function Inverted(n: nat): nat {
    if n <= 65535 then 65535 - n else 0
  }

  predicate ZeroFrom(g: Groups, from: nat, to: nat)
    requires from <= to <= |g|
  {
    forall i :: from <= i < to ==> g[i] == 0
  }

  /** fc00::/7 and fe80::/10. */
  predicate Ipv6Private(g: Groups)
    requires |g| == 8
  {
    g[0] / 512 == 0x7e || g[0] / 64 == 0x3fa
  }

  predicate Ipv6IsLocal(g: Groups)
    requires |g| == 8
  {
    if ZeroFrom(g, 0, 7) then g[7] <= 1
    else if ZeroFrom(g, 0, 5) && g[5] == 0xffff then Ipv4IsLocal(Dotted(g[6], g[7]))
    else if g[0] == 0x64 && g[1] == 0xff9b && ZeroFrom(g, 2, 6) then Ipv4IsLocal(Dotted(g[6], g[7]))
    else if g[0] == 0x64 && g[1] == 0xff9b && g[2] == 1 then true
    else if g[0] == 0x2002 then Ipv4IsLocal(Dotted(g[1], g[2]))
    else if g[0] == 0x2001 && g[1] == 0 then Ipv4IsLocal(Dotted(Inverted(g[6]), Inverted(g[7])))
    else Ipv6Private(g)
  }

  function LowerChar(c: char): char {
    if 'A' <= c <= 'Z' then ((c as int) - ('A' as int) + ('a' as int)) as char else c
  }

  function Lower(s: string): (r: string)
    ensures |r| == |s| && forall i :: 0 <= i < |s| ==> r[i] == LowerChar(s[i])
  {
    seq(|s|, i requires 0 <= i < |s| => LowerChar(s[i]))
  }

  /** Lower case, without a final dot. */
  function PlainName(hostname: string): string {
    var host := Lower(hostname);
    if host != "" && host[|host| - 1] == '.' then host[..|host| - 1] else host
  }

  predicate EndsWith(s: string, end: string) {
    |end| <= |s| && s[|s| - |end|..] == end
  }

  predicate IsLocalName(host: string) {
    || host == "localhost" || EndsWith(host, ".localhost") || EndsWith(host, ".local") || EndsWith(host, ".internal")
    || EndsWith(host, ".lan") || EndsWith(host, ".home.arpa")
  }

  predicate WrittenAsIpv6(host: string) {
    ':' in host || (host != "" && host[0] == '[')
  }

  predicate IsLocal(hostname: string) {
    var host := PlainName(hostname);
    if host == "" then false
    else if IsLocalName(host) then true
    else if WrittenAsIpv6(host) then Ipv6Groups(host).Some? && Ipv6IsLocal(Ipv6Groups(host).value)
    else if Ipv4(host).Some? then Ipv4IsLocal(Ipv4(host).value)
    else '.' !in host
  }

  predicate IsLoopback(hostname: string) {
    var host := PlainName(hostname);
    if host == "localhost" || EndsWith(host, ".localhost") then true
    else if WrittenAsIpv6(host) then Ipv6Groups(host).Some? && ZeroFrom(Ipv6Groups(host).value, 0, 7) && Ipv6Groups(host).value[7] == 1
    else Ipv4(host).Some? && Ipv4(host).value[0] == 127
  }

  predicate IsPrivateNetwork(hostname: string) {
    var host := PlainName(hostname);
    if host == "" then false
    else if WrittenAsIpv6(host) then
      Ipv6Groups(host).Some? &&
      var g := Ipv6Groups(host).value;
      if ZeroFrom(g, 0, 7) then g[7] == 1
      else if ZeroFrom(g, 0, 5) && g[5] == 0xffff then Ipv4StaysHere(Dotted(g[6], g[7]))
      else Ipv6Private(g)
    else if Ipv4(host).Some? then Ipv4StaysHere(Ipv4(host).value)
    else IsLoopback(host) || ('.' in host && IsLocal(host))
  }

  /** A name of no brackets or colons, or one that is an address: and not one of a local name besides. */
  predicate NameOrAddress(hostname: string) {
    var host := PlainName(hostname);
    !WrittenAsIpv6(host) || (Ipv6Groups(host).Some? && !IsLocalName(host))
  }

  lemma PlainIsLower(hostname: string)
    ensures Lower(PlainName(hostname)) == PlainName(hostname)
  {
  }

  /** A name with one final dot at most is read again as it was. */
  lemma PlainAgain(hostname: string)
    requires !EndsWith(hostname, "..")
    ensures PlainName(PlainName(hostname)) == PlainName(hostname)
  {
    PlainIsLower(hostname);
    var host := PlainName(hostname);
    var n := |hostname|;
    assert n >= 2 ==> hostname[n - 2..] == [hostname[n - 2], hostname[n - 1]];
  }

  /** This computer alone is a private network. */
  lemma LoopbackIsPrivate(hostname: string)
    requires NameOrAddress(hostname) && IsLoopback(hostname)
    ensures IsPrivateNetwork(hostname)
  {
    hide Ipv6Groups, Split, Ipv4IsLocal;
    LoopbackAgain(hostname);
    hide PlainName;
    var host := PlainName(hostname);
    if !WrittenAsIpv6(host) && Ipv4(host).Some? && (host == "localhost" || EndsWith(host, ".localhost")) {
      NoLocalAddress(host);
    }
    EmptyIsNone();
    LoopbackStays(host);
  }

  /** A name of this computer has one final dot at most. */
  lemma LoopbackAgain(hostname: string)
    ensures
      var host := PlainName(hostname);
      host == "localhost" || EndsWith(host, ".localhost") ==> PlainName(host) == host
  {
    if EndsWith(hostname, "..") {
      EndsInDot(hostname);
      NotLoopbackName(PlainName(hostname));
    } else {
      PlainAgain(hostname);
    }
  }

  lemma LoopbackStays(host: string)
    ensures Ipv4(host).Some? && Ipv4(host).value[0] == 127 ==> Ipv4StaysHere(Ipv4(host).value)
  {
    hide Ipv4;
  }

  lemma EmptyIsNone()
    ensures Ipv4("") == None
  {
  }

  /** A name that ends in letters is no IPv4 address. */
  lemma NoLocalAddress(host: string)
    requires IsLocalName(host)
    ensures Ipv4(host).None?
  {
    LastOfSplit(host, '.');
    EndsInLetter(host);
  }

  lemma EndsInLetter(host: string)
    requires IsLocalName(host)
    ensures host != "" && 'a' <= host[|host| - 1] <= 'z'
  {
  }

  lemma {:induction false} LastOfSplit(s: string, c: char)
    ensures s != "" && s[|s| - 1] != c ==>
      var r := Split(s, c);
      r[|r| - 1] != "" && r[|r| - 1][|r[|r| - 1]| - 1] == s[|s| - 1]
  {
    if |s| > 1 && s[|s| - 1] != c {
      assert s[1..][|s[1..]| - 1] == s[|s| - 1];
      LastOfSplit(s[1..], c);
    }
  }

  /** A private network written as a name, or as an IPv4 address, is local when it has one final dot at most. */
  lemma NameIsLocal(hostname: string)
    requires !WrittenAsIpv6(PlainName(hostname)) && !EndsWith(hostname, "..") && IsPrivateNetwork(hostname)
    ensures IsLocal(hostname)
  {
    hide Ipv6Groups, Split, Ipv4IsLocal;
    PlainAgain(hostname);
    var host := PlainName(hostname);
    hide PlainName;
    if Ipv4(host).Some? && IsLocalName(host) {
      NoLocalAddress(host);
    } else if Ipv4(host).None? && IsLoopback(host) {
      assert host == "localhost" || EndsWith(host, ".localhost");
    }
  }

  lemma Ipv6PrivateIsLocal(g: Groups)
    requires |g| == 8
    ensures Ipv6Private(g) && !ZeroFrom(g, 0, 7) && !(ZeroFrom(g, 0, 5) && g[5] == 0xffff) ==> Ipv6IsLocal(g)
    ensures !ZeroFrom(g, 0, 7) && ZeroFrom(g, 0, 5) && g[5] == 0xffff && Ipv4StaysHere(Dotted(g[6], g[7])) ==> Ipv6IsLocal(g)
  {
    hide Ipv4IsLocal;
  }

  /** A name with two final dots: what is a private network by its own reading of itself again is not local. */
  lemma TwoDotsDiffer()
    ensures IsPrivateNetwork("localhost..") && !IsLocal("localhost..") && !IsLoopback("localhost..")
  {
    var host := "localhost.";
    TwoDotsPlain();
    NoAddress(host);
    LastIsDot(host);
    hide PlainName, Split, Ipv4, IsLocalName, Ipv6Groups;
    assert '.' in host by { assert host[9] == '.'; }
    assert !EndsWith(host, ".localhost") && host != "localhost" by { NotLoopbackName(host); }
  }

  lemma TwoDotsPlain()
    ensures PlainName("localhost..") == "localhost." && PlainName("localhost.") == "localhost"
  {
    assert Lower("localhost..") == "localhost..";
    assert Lower("localhost.") == "localhost.";
  }

  lemma NoAddress(host: string)
    requires host == "localhost."
    ensures Ipv4(host).None? && !WrittenAsIpv6(host)
  {
    assert host == "localhost" + ['.'] + "";
    SplitFirst("localhost", "", '.');
  }

  lemma NotLoopbackName(host: string)
    requires host != "" && host[|host| - 1] == '.'
    ensures !EndsWith(host, ".localhost") && host != "localhost"
  {
    if EndsWith(host, ".localhost") || host == "localhost" {
      EndsInLetter(host);
    }
  }

  lemma LastIsDot(host: string)
    requires host != "" && host[|host| - 1] == '.'
    ensures !IsLocalName(host)
  {
    if IsLocalName(host) {
      EndsInLetter(host);
    }
  }

  lemma {:induction false} SplitEnds(s: string, c: char)
    requires s != "" && s[|s| - 1] == c
    ensures Split(s, c)[|Split(s, c)| - 1] == ""
  {
    if |s| > 1 {
      assert s[1..][|s[1..]| - 1] == c;
      SplitEnds(s[1..], c);
      MoreParts(s[1..], c);
    }
  }

  lemma {:induction false} MoreParts(s: string, c: char)
    requires s != "" && s[|s| - 1] == c
    ensures |Split(s, c)| >= 2
  {
    if |s| > 1 && s[0] != c {
      assert s[1..][|s[1..]| - 1] == c;
      MoreParts(s[1..], c);
    }
  }

  /** A private network is local exactly when it is written as an IPv6 address, or its name does not end in two dots. */
  lemma PrivateIsLocalIff(hostname: string)
    requires IsPrivateNetwork(hostname)
    ensures IsLocal(hostname) <==> WrittenAsIpv6(PlainName(hostname)) || !EndsWith(hostname, "..")
  {
    if WrittenAsIpv6(PlainName(hostname)) {
      hide Ipv6Groups, PlainName, IsLocalName, Ipv4IsLocal;
      Ipv6PrivateIsLocal(Ipv6Groups(PlainName(hostname)).value);
    } else if EndsWith(hostname, "..") {
      EndsInDot(hostname);
      LastIsDot(PlainName(hostname));
      SplitEnds(PlainName(hostname), '.');
      hide Split, PlainName, IsLocalName;
    } else {
      NameIsLocal(hostname);
    }
  }

  lemma EndsInDot(hostname: string)
    requires EndsWith(hostname, "..")
    ensures PlainName(hostname) != "" && PlainName(hostname)[|PlainName(hostname)| - 1] == '.' && '.' in PlainName(hostname)
  {
    var n := |hostname|;
    assert hostname[n - 2..][0] == '.' && hostname[n - 2..][1] == '.';
    assert hostname[n - 2] == '.' && hostname[n - 1] == '.';
    assert PlainName(hostname)[n - 2] == '.';
  }
}
