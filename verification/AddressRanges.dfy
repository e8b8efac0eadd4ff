/**
 * Which addresses the three rules of shared/capabilities/local.ts (:75-149) take
 * for this computer's, its network's, or kept from others: by range.
 */
module AddressRanges {
  import opened Options
  import opened Text
  import opened Addresses

  /** Four octets as one number. */
  function Value(four: Octets): nat
    requires |four| == 4
  {
    four[0] * 0x100_0000 + four[1] * 0x1_0000 + four[2] * 0x100 + four[3]
  }

  predicate AreOctets(four: Octets) {
    |four| == 4 && four[0] < 256 && four[1] < 256 && four[2] < 256 && four[3] < 256
  }

  /** From the first address of a range to its last. */
  predicate Between(v: nat, first: nat, last: nat) {
    first <= v <= last
  }

  /** 10.0.0.0/8, 127.0.0.0/8, 169.254.0.0/16, 172.16.0.0/12 and 192.168.0.0/16. */
  predicate KeptHere(v: nat) {
    || Between(v, 0x0a00_0000, 0x0aff_ffff) || Between(v, 0x7f00_0000, 0x7fff_ffff) || Between(v, 0xa9fe_0000, 0xa9fe_ffff)
    || Between(v, 0xac10_0000, 0xac1f_ffff) || Between(v, 0xc0a8_0000, 0xc0a8_ffff)
  }

  /** And 0.0.0.0/8 and 100.64.0.0/10. */
  predicate KeptOrShared(v: nat) {
    KeptHere(v) || Between(v, 0, 0x00ff_ffff) || Between(v, 0x6440_0000, 0x647f_ffff)
  }

  lemma LocalRanges(four: Octets)
    requires AreOctets(four)
    ensures Ipv4IsLocal(four) <==> KeptOrShared(Value(four))
    ensures Ipv4StaysHere(four) <==> KeptHere(Value(four))
  {
  }

  /** An IPv4 address written within an IPv6 one, by its two groups. */
  predicate InLocal(hi: nat, lo: nat) {
    KeptOrShared(hi * 0x1_0000 + lo)
  }

  predicate AreGroups8(g: Groups) {
    |g| == 8 && forall i :: 0 <= i < 8 ==> g[i] < 0x1_0000
  }

  lemma DottedValue(hi: nat, lo: nat)
    requires hi < 0x1_0000 && lo < 0x1_0000
    ensures AreOctets(Dotted(hi, lo)) && Value(Dotted(hi, lo)) == hi * 0x1_0000 + lo
  {
    assert hi == hi / 256 * 256 + hi % 256 && lo == lo / 256 * 256 + lo % 256;
  }

  /** fc00::/7 and fe80::/10. */
  predicate UniqueOrLink(g: Groups)
    requires |g| == 8
  {
    0xfc00 <= g[0] <= 0xfdff || 0xfe80 <= g[0] <= 0xfebf
  }

  lemma PrivateGroups(g: Groups)
    requires AreGroups8(g)
    ensures Ipv6Private(g) <==> UniqueOrLink(g)
  {
    var a := g[0];
    assert a == a / 512 * 512 + a % 512 && a == a / 64 * 64 + a % 64;
  }

  /** ::/128 and ::1/128; the IPv4 addresses mapped, translated (64:ff9b::/96), in 6to4 (2002::/16) and in Teredo (2001::/32, inverted); 64:ff9b:1::/48; and the private ones. */
  predicate LocalGroups(g: Groups)
    requires AreGroups8(g)
  {
    var mapped := g[0] == 0 && g[1] == 0 && g[2] == 0 && g[3] == 0 && g[4] == 0;
    if mapped && g[5] == 0 && g[6] == 0 then g[7] == 0 || g[7] == 1
    else if mapped && g[5] == 0xffff then InLocal(g[6], g[7])
    else if g[0] == 0x64 && g[1] == 0xff9b && g[2] == 0 && g[3] == 0 && g[4] == 0 && g[5] == 0 then InLocal(g[6], g[7])
    else if g[0] == 0x64 && g[1] == 0xff9b && g[2] == 1 then true
    else if g[0] == 0x2002 then InLocal(g[1], g[2])
    else if g[0] == 0x2001 && g[1] == 0 then InLocal(0xffff - g[6], 0xffff - g[7])
    else UniqueOrLink(g)
  }

  lemma LocalIsGroups(g: Groups)
    requires AreGroups8(g)
    ensures Ipv6IsLocal(g) <==> LocalGroups(g)
  {
    hide Ipv4IsLocal, Dotted, KeptOrShared, Value, Ipv6Private, UniqueOrLink;
    PrivateGroups(g);
    InDotted(g[6], g[7]);
    InDotted(g[1], g[2]);
    InDotted(Inverted(g[6]), Inverted(g[7]));
    ZerosAre(g);
  }

  lemma InDotted(hi: nat, lo: nat)
    requires hi < 0x1_0000 && lo < 0x1_0000
    ensures Ipv4IsLocal(Dotted(hi, lo)) <==> InLocal(hi, lo)
    ensures Ipv4StaysHere(Dotted(hi, lo)) <==> KeptHere(hi * 0x1_0000 + lo)
  {
    hide Ipv4IsLocal, Ipv4StaysHere, KeptOrShared, KeptHere, Dotted, Value;
    DottedValue(hi, lo);
    LocalRanges(Dotted(hi, lo));
  }

  lemma ZerosAre(g: Groups)
    requires |g| == 8
    ensures ZeroFrom(g, 0, 7) <==> g[0] == 0 && g[1] == 0 && g[2] == 0 && g[3] == 0 && g[4] == 0 && g[5] == 0 && g[6] == 0
    ensures ZeroFrom(g, 0, 5) <==> g[0] == 0 && g[1] == 0 && g[2] == 0 && g[3] == 0 && g[4] == 0
    ensures ZeroFrom(g, 2, 6) <==> g[2] == 0 && g[3] == 0 && g[4] == 0 && g[5] == 0
  {
  }

  // ---- Of what is written --------------------------------------------------------------------

  /** It is written as these octets, or as these groups. */
  predicate Reads4(host: string, four: Octets) {
    !WrittenAsIpv6(host) && Ipv4(host) == Some(four)
  }

  predicate Reads6(host: string, g: Groups) {
    WrittenAsIpv6(host) && Ipv6Groups(host) == Some(g)
  }

  /** A name of this network: such a one, or one of no dots. */
  predicate NameOfHere(host: string) {
    IsLocalName(host) || '.' !in host
  }

  /** An address or a name, local or not: by the ranges, and by its ending. */
  lemma LocalIs(hostname: string)
    requires PlainName(hostname) != ""
    ensures
      var host := PlainName(hostname);
      && (forall four :: AreOctets(four) && Reads4(host, four) && !IsLocalName(host) ==> (IsLocal(hostname) <==> KeptOrShared(Value(four))))
      && (forall g :: AreGroups8(g) && Reads6(host, g) && !IsLocalName(host) ==> (IsLocal(hostname) <==> LocalGroups(g)))
      && (!WrittenAsIpv6(host) && Ipv4(host).None? ==> (IsLocal(hostname) <==> NameOfHere(host)))
  {
    hide Ipv4IsLocal, Ipv6IsLocal, KeptOrShared, LocalGroups, Ipv4, Ipv6Groups, PlainName, IsLocalName, Value;
    forall four | AreOctets(four)
      ensures Ipv4IsLocal(four) <==> KeptOrShared(Value(four))
    {
      LocalRanges(four);
    }
    forall g | AreGroups8(g)
      ensures Ipv6IsLocal(g) <==> LocalGroups(g)
    {
      LocalIsGroups(g);
    }
  }

  /** This computer alone: 127.0.0.0/8, ::1, and the names under localhost. */
  lemma LoopbackIs(hostname: string)
    ensures
      var host := PlainName(hostname);
      var named := host == "localhost" || EndsWith(host, ".localhost");
      && (named ==> IsLoopback(hostname))
      && (forall four :: AreOctets(four) && Reads4(host, four) && !named ==> (IsLoopback(hostname) <==> Between(Value(four), 0x7f00_0000, 0x7fff_ffff)))
      && (forall g :: |g| == 8 && Reads6(host, g) && !named ==> (IsLoopback(hostname) <==> g == [0, 0, 0, 0, 0, 0, 0, 1]))
      && (!named && !WrittenAsIpv6(host) && Ipv4(host).None? ==> !IsLoopback(hostname))
  {
    hide Ipv4, Ipv6Groups, PlainName;
    forall g | |g| == 8
      ensures ZeroFrom(g, 0, 7) && g[7] == 1 <==> g == [0, 0, 0, 0, 0, 0, 0, 1]
    {
      ZerosAre(g);
    }
  }

  /** A private network: the ranges kept here, and no translated address. */
  lemma PrivateIs(hostname: string)
    requires PlainName(hostname) != ""
    ensures
      var host := PlainName(hostname);
      && (forall four :: AreOctets(four) && Reads4(host, four) ==> (IsPrivateNetwork(hostname) <==> KeptHere(Value(four))))
      && (forall g :: AreGroups8(g) && Reads6(host, g) ==>
            (IsPrivateNetwork(hostname) <==>
              g == [0, 0, 0, 0, 0, 0, 0, 1] || (g[..6] == [0, 0, 0, 0, 0, 0xffff] && KeptHere(g[6] * 0x1_0000 + g[7])) || UniqueOrLink(g)))
  {
    hide Ipv4, Ipv6Groups, PlainName, Ipv4StaysHere, KeptHere, Value, Ipv6Private, UniqueOrLink, Dotted;
    forall four | AreOctets(four)
      ensures Ipv4StaysHere(four) <==> KeptHere(Value(four))
    {
      LocalRanges(four);
    }
    forall g | AreGroups8(g) && Reads6(PlainName(hostname), g)
      ensures IsPrivateNetwork(hostname) <==>
        g == [0, 0, 0, 0, 0, 0, 0, 1] || (g[..6] == [0, 0, 0, 0, 0, 0xffff] && KeptHere(g[6] * 0x1_0000 + g[7])) || UniqueOrLink(g)
    {
      PrivateGroups(g);
      ZerosAre(g);
      InDotted(g[6], g[7]);
      ZeroIsNotUnique(g);
      assert g[..6] == [g[0], g[1], g[2], g[3], g[4], g[5]];
    }
  }

  lemma ZeroIsNotUnique(g: Groups)
    requires |g| == 8
    ensures g[0] == 0 ==> !UniqueOrLink(g)
  {
  }

  // ---- How they are written ---------------------------------------------------------------------

  function Digit(n: nat): (c: char)
    requires n < 10
    ensures IsDigit(c) && c as int == '0' as int + n
  {
    ('0' as int + n) as char
  }

  /** A number's decimal digits, without leading zeros. */
  function Digits(n: nat): string {
    if n < 10 then [Digit(n)] else Digits(n / 10) + [Digit(n % 10)]
  }

  lemma {:induction false} DigitsAre(n: nat, most: nat)
    requires (most == 1 && n < 10) || (most == 2 && n < 100) || (most == 3 && n < 1000)
    ensures 1 <= |Digits(n)| <= most && AllDigits(Digits(n)) && Decimal(Digits(n)) == n
  {
    if n < 10 {
      assert Digits(n)[..0] == "";
    } else {
      DigitsAre(n / 10, most - 1);
      assert Digits(n)[..|Digits(n)| - 1] == Digits(n / 10);
    }
  }

  /** Four numbers up to 255 with dots between are read as those. */
  lemma OctetsAreRead(four: Octets)
    requires AreOctets(four)
    ensures Ipv4(Digits(four[0]) + "." + Digits(four[1]) + "." + Digits(four[2]) + "." + Digits(four[3])) == Some(four)
  {
    var parts := seq(4, i requires 0 <= i < 4 => Digits(four[i]));
    forall i | 0 <= i < 4
      ensures IsOctet(parts[i]) && Octet(parts[i]) == four[i] && '.' !in parts[i]
    {
      DigitsAre(four[i], 3);
    }
    SplitJoin(parts, '.');
    JoinedFour(parts);
    assert four == [four[0], four[1], four[2], four[3]];
    hide Digits, Split, IsOctet, Octet;
  }

  lemma JoinedFour(parts: seq<string>)
    requires |parts| == 4
    ensures Join(parts, '.') == parts[0] + "." + parts[1] + "." + parts[2] + "." + parts[3]
  {
    assert Join(parts[3..], '.') == parts[3];
    assert Join(parts[2..], '.') == parts[2] + "." + parts[3] by {
      assert parts[2..][1..] == parts[3..];
    }
    assert Join(parts[1..], '.') == parts[1] + "." + parts[2] + "." + parts[3] by {
      assert parts[1..][1..] == parts[2..];
    }
  }

  /** Letters are read in either case. */
  lemma LettersAreLowered(i: nat)
    requires i < 26
    ensures LowerChar("ABCDEFGHIJKLMNOPQRSTUVWXYZ"[i]) == "abcdefghijklmnopqrstuvwxyz"[i]
    ensures i < 6 ==> var c := "ABCDEF"[i]; IsHexDigit(c) && HexValue(c) == 10 + i
  {
    var upper, lower := "ABCDEFGHIJKLMNOPQRSTUVWXYZ", "abcdefghijklmnopqrstuvwxyz";
    assert upper[i] as int == 'A' as int + i && lower[i] as int == 'a' as int + i;
    assert i < 6 ==> "ABCDEF"[i] as int == 'A' as int + i;
  }

  /** "::" is at this place. */
  predicate RunAt(s: string, i: nat) {
    i + 2 <= |s| && s[i] == ':' && s[i + 1] == ':'
  }

  lemma {:induction false} OneRun(s: string, i: nat)
    requires RunAt(s, i)
    ensures |Halves(s)| >= 2
  {
    if !RunAt(s, 0) {
      assert RunAt(s[1..], i - 1);
      OneRun(s[1..], i - 1);
    }
  }

  lemma {:induction false} TwoRuns(s: string, i: nat, j: nat)
    requires RunAt(s, i) && RunAt(s, j) && i + 2 <= j
    ensures |Halves(s)| >= 3
  {
    if RunAt(s, 0) {
      assert RunAt(s[2..], j - 2);
      OneRun(s[2..], j - 2);
    } else {
      assert RunAt(s[1..], i - 1) && RunAt(s[1..], j - 1);
      TwoRuns(s[1..], i - 1, j - 1);
    }
  }

  /** Where zeros are left out twice there is no address. */
  lemma TwoRunsAreNone(bare: string, i: nat, j: nat)
    requires RunAt(bare, i) && RunAt(bare, j) && i + 2 <= j
    ensures ReadGroups(bare) == None
  {
    TwoRuns(bare, i, j);
  }
}
