/** Which host names count as this machine or this compose network: `packages/db/src/env-target.ts`. */
module LocalAddress {

  import opened Text
  import opened Wrappers

  // ---------------------------------------------------------------- digits

  const DIGITS := "0123456789abcdef"

  /** The value of a lower-case digit, or 16 for a character that is no digit at all. */
  function CharValue(c: char): (v: nat)
    ensures v <= 16
    ensures v < 16 ==> DIGITS[v] == c
  {
    if '0' <= c <= '9' then (c - '0') as nat
    else if 'a' <= c <= 'f' then (c - 'a') as nat + 10
    else 16
  }

  lemma CharValueOfDigit(d: nat)
    requires d < 16
    ensures CharValue(DIGITS[d]) == d
  {
  }

  /** The two bases in use. Arithmetic goes through `Times` and `Div` so that it stays linear. */
  datatype Base = Decimal | Hex {
    function Radix(): nat { if Decimal? then 10 else 16 }
    function Times(n: nat): nat { if Decimal? then 10 * n else 16 * n }
    function Div(n: nat): nat { if Decimal? then n / 10 else n / 16 }
    function Mod(n: nat): (r: nat)
      ensures r < 16
    { if Decimal? then n % 10 else n % 16 }
    function Pow(width: nat): nat { if width == 0 then 1 else Times(Pow(width - 1)) }
  }

  /** `/^[0-9a-f]{1,4}$/` in hexadecimal with four digits, `/^\d{1,3}$/` in decimal with three. */
  predicate IsNumeral(g: string, base: Base, most: nat) {
    1 <= |g| <= most && forall i :: 0 <= i < |g| ==> CharValue(g[i]) < base.Radix()
  }

  /** `Number.parseInt(g, 16)` and `Number(g)` on the numerals the two patterns let through. */
  function NumeralValue(g: string, base: Base): nat {
    if g == "" then 0 else base.Times(NumeralValue(g[..|g| - 1], base)) + CharValue(g[|g| - 1])
  }

  /** The numeral of `n` in exactly `width` digits, leading zeros included. */
  function Numeral(n: nat, base: Base, width: nat): (g: string)
    ensures |g| == width
  {
    if width == 0 then "" else Numeral(base.Div(n), base, width - 1) + [DIGITS[base.Mod(n)]]
  }

  lemma {:induction false} ValueOfNumeral(n: nat, base: Base, width: nat)
    requires n < base.Pow(width)
    ensures NumeralValue(Numeral(n, base, width), base) == n
    ensures forall i :: 0 <= i < width ==> CharValue(Numeral(n, base, width)[i]) < base.Radix()
  {
    if width > 0 {
      var g := Numeral(n, base, width);
      ValueOfNumeral(base.Div(n), base, width - 1);
      assert g[..width - 1] == Numeral(base.Div(n), base, width - 1);
      CharValueOfDigit(base.Mod(n));
    }
  }

  lemma LastDigit(n: nat, base: Base, d: nat)
    requires d < base.Radix()
    ensures base.Div(base.Times(n) + d) == n && base.Mod(base.Times(n) + d) == d
  {
  }

  lemma StaysBelow(n: nat, power: nat, base: Base, d: nat)
    requires n < power && d < base.Radix()
    ensures base.Times(n) + d < base.Times(power)
  {
  }

  lemma {:induction false} NumeralValueFits(g: string, base: Base)
    requires forall i :: 0 <= i < |g| ==> CharValue(g[i]) < base.Radix()
    ensures NumeralValue(g, base) < base.Pow(|g|)
  {
    if g != "" {
      var init := g[..|g| - 1];
      NumeralValueFits(init, base);
      StaysBelow(NumeralValue(init, base), base.Pow(|g| - 1), base, CharValue(g[|g| - 1]));
    }
  }

  lemma {:induction false} NumeralOfValue(g: string, base: Base)
    requires forall i :: 0 <= i < |g| ==> CharValue(g[i]) < base.Radix()
    ensures NumeralValue(g, base) < base.Pow(|g|)
    ensures Numeral(NumeralValue(g, base), base, |g|) == g
  {
    NumeralValueFits(g, base);
    if g != "" {
      var init, last := g[..|g| - 1], CharValue(g[|g| - 1]);
      var n := NumeralValue(init, base);
      NumeralOfValue(init, base);
      LastDigit(n, base, last);
      OneDigitMore(base.Times(n) + last, base, |g|, n, last);
      assert NumeralValue(g, base) == base.Times(n) + last;
      assert Numeral(n, base, |g| - 1) + [DIGITS[last]] == init + [g[|g| - 1]] == g;
    }
  }

  lemma OneDigitMore(m: nat, base: Base, width: nat, n: nat, last: nat)
    requires width > 0 && base.Div(m) == n && base.Mod(m) == last
    ensures Numeral(m, base, width) == Numeral(n, base, width - 1) + [DIGITS[last]]
  {
  }

  // ---------------------------------------------------------------- IPv4

  const MAX_OCTET := 255

  /** The four octets of a dotted quad, or nothing. Leading zeros are accepted and read as decimal. */
  function Ipv4Octets(hostname: string): (r: Option<seq<nat>>)
    ensures r.Some? ==> |r.value| == 4 && forall i :: 0 <= i < 4 ==> r.value[i] <= MAX_OCTET
  {
    var parts := Split(hostname, '.');
    if |parts| != 4 then None
    else if exists i :: 0 <= i < 4 && !(IsNumeral(parts[i], Decimal, 3) && NumeralValue(parts[i], Decimal) <= MAX_OCTET) then None
    else Some(seq(4, i requires 0 <= i < 4 => NumeralValue(parts[i], Decimal)))
  }

  predicate IsPrivateIpv4(hostname: string) {
    match Ipv4Octets(hostname)
    case None => false
    case Some(octets) => PrivateOctets(octets[0], octets[1])
  }

  predicate PrivateOctets(first: nat, second: nat) {
    if first == 127 || first == 10 then true
    else if first == 172 && second >= 16 && second <= 31 then true
    else first == 192 && second == 168
  }

  function Ipv4Value(o: seq<nat>): nat
    requires |o| == 4
  {
    ((o[0] * 256 + o[1]) * 256 + o[2]) * 256 + o[3]
  }

  /** 127.0.0.0/8, 10.0.0.0/8, 172.16.0.0/12 and 192.168.0.0/16 as ranges of the 32-bit address. */
  predicate PrivateIpv4Value(a: nat) {
    0x7f00_0000 <= a <= 0x7fff_ffff || 0x0a00_0000 <= a <= 0x0aff_ffff ||
    0xac10_0000 <= a <= 0xac1f_ffff || 0xc0a8_0000 <= a <= 0xc0a8_ffff
  }

  /** The numerals of a list of numbers, each in its own width. */
  function Numerals(v: seq<nat>, widths: seq<nat>, base: Base): (gs: seq<string>)
    requires |v| == |widths|
    ensures |gs| == |v|
  {
    seq(|v|, i requires 0 <= i < |v| => Numeral(v[i], base, widths[i]))
  }

  /** Every number fits its width, and every width is between one and `most`. */
  ghost predicate Fits(v: seq<nat>, widths: seq<nat>, base: Base, most: nat) {
    |v| == |widths| && forall i :: 0 <= i < |v| ==> 1 <= widths[i] <= most && v[i] < base.Pow(widths[i])
  }

  lemma NumeralsAreNumerals(v: seq<nat>, widths: seq<nat>, base: Base, most: nat)
    requires Fits(v, widths, base, most)
    ensures forall i :: 0 <= i < |v| ==>
      IsNumeral(Numerals(v, widths, base)[i], base, most) && NumeralValue(Numerals(v, widths, base)[i], base) == v[i]
    ensures AllFree(Numerals(v, widths, base), ':') && AllFree(Numerals(v, widths, base), '.')
  {
    var gs := Numerals(v, widths, base);
    forall i | 0 <= i < |v|
      ensures IsNumeral(gs[i], base, most) && NumeralValue(gs[i], base) == v[i] && ':' !in gs[i] && '.' !in gs[i]
    {
      ValueOfNumeral(v[i], base, widths[i]);
      NumeralsHaveNoSeparator(gs[i], base, most);
    }
  }

  lemma NumeralsHaveNoSeparator(g: string, base: Base, most: nat)
    requires IsNumeral(g, base, most)
    ensures ':' !in g && '.' !in g
  {
    assert CharValue(':') == 16 && CharValue('.') == 16;
  }

  /** `gs` are the numerals of the numbers they stand for. */
  lemma NumeralsAreSpellings(gs: seq<string>, base: Base, most: nat) returns (v: seq<nat>, widths: seq<nat>)
    requires forall i :: 0 <= i < |gs| ==> IsNumeral(gs[i], base, most)
    ensures v == seq(|gs|, i requires 0 <= i < |gs| => NumeralValue(gs[i], base))
    ensures Fits(v, widths, base, most) && Numerals(v, widths, base) == gs
  {
    v := seq(|gs|, i requires 0 <= i < |gs| => NumeralValue(gs[i], base));
    widths := seq(|gs|, i requires 0 <= i < |gs| => |gs[i]|);
    forall i | 0 <= i < |gs| ensures v[i] < base.Pow(widths[i]) && Numeral(v[i], base, widths[i]) == gs[i] {
      NumeralOfValue(gs[i], base);
    }
    assert Numerals(v, widths, base) == gs;
  }

  ghost predicate SpellsIpv4(hostname: string, o: seq<nat>, widths: seq<nat>) {
    |o| == 4 && Fits(o, widths, Decimal, 3) && (forall i :: 0 <= i < 4 ==> o[i] <= MAX_OCTET) &&
    hostname == Join(Numerals(o, widths, Decimal), '.')
  }

  /** A dotted quad is read exactly as its decimal spellings say, and nothing else is. */
  lemma Ipv4OctetsExactly(hostname: string, o: seq<nat>)
    ensures Ipv4Octets(hostname) == Some(o) <==> exists widths :: SpellsIpv4(hostname, o, widths)
  {
    if Ipv4Octets(hostname) == Some(o) {
      var parts := Split(hostname, '.');
      var v, widths := NumeralsAreSpellings(parts, Decimal, 3);
      JoinOfSplit(hostname, '.');
      assert v == o;
      assert SpellsIpv4(hostname, o, widths);
    }
    forall widths | SpellsIpv4(hostname, o, widths) ensures Ipv4Octets(hostname) == Some(o) {
      NumeralsAreNumerals(o, widths, Decimal, 3);
      SplitOfJoin(Numerals(o, widths, Decimal), '.');
      assert Ipv4Octets(hostname).value == o;
    }
  }

  lemma PrivateOctetsIsRange(o: seq<nat>)
    requires |o| == 4 && forall i :: 0 <= i < 4 ==> o[i] <= MAX_OCTET
    ensures PrivateOctets(o[0], o[1]) <==> PrivateIpv4Value(Ipv4Value(o))
  {
    assert Ipv4Value(o) == 0x100_0000 * o[0] + 0x1_0000 * o[1] + (256 * o[2] + o[3]);
  }

  /** The private test is a test of the 32-bit address, whatever leading zeros it was written with. */
  lemma IsPrivateIpv4Exactly(hostname: string)
    ensures IsPrivateIpv4(hostname) <==>
      exists o, widths :: SpellsIpv4(hostname, o, widths) && PrivateIpv4Value(Ipv4Value(o))
  {
    if Ipv4Octets(hostname).Some? {
      var o := Ipv4Octets(hostname).value;
      Ipv4OctetsExactly(hostname, o);
      var widths :| SpellsIpv4(hostname, o, widths);
      PrivateOctetsIsRange(o);
      if IsPrivateIpv4(hostname) {
        assert SpellsIpv4(hostname, o, widths) && PrivateIpv4Value(Ipv4Value(o));
      }
    }
    forall o, widths | SpellsIpv4(hostname, o, widths) && PrivateIpv4Value(Ipv4Value(o))
      ensures IsPrivateIpv4(hostname)
    {
      Ipv4OctetsExactly(hostname, o);
      PrivateOctetsIsRange(o);
    }
  }

  // ---------------------------------------------------------------- IPv6: splitting on "::"

  /** `address.split("::")`: leftmost pairs, not overlapping. */
  function SplitPair(s: string): (halves: seq<string>)
    ensures |halves| >= 1
  {
    if s == "" then [""]
    else if s[0] == ':' && |s| > 1 && s[1] == ':' then [""] + SplitPair(s[2..])
    else var rest := SplitPair(s[1..]); [[s[0]] + rest[0]] + rest[1..]
  }

  predicate PairAt(s: string, i: nat)
    requires i < |s| - 1
  {
    s[i] == ':' && s[i + 1] == ':'
  }

  ghost predicate NoPair(s: string) {
    forall i :: 0 <= i < |s| - 1 ==> !PairAt(s, i)
  }

  lemma NoPairTail(s: string)
    requires s != "" && NoPair(s)
    ensures NoPair(s[1..])
    ensures |s| > 1 ==> !(s[0] == ':' && s[1] == ':')
  {
    assert |s| > 1 ==> !PairAt(s, 0);
    forall i | 0 <= i < |s[1..]| - 1 ensures !PairAt(s[1..], i) {
      assert !PairAt(s, i + 1);
    }
  }

  lemma {:induction false} SplitPairNone(s: string)
    requires NoPair(s)
    ensures SplitPair(s) == [s]
  {
    if s != "" {
      NoPairTail(s);
      SplitPairNone(s[1..]);
      assert s == [s[0]] + s[1..];
    }
  }

  lemma {:induction false} SplitPairAt(a: string, b: string)
    requires NoPair(a) && (a != "" ==> a[|a| - 1] != ':')
    ensures SplitPair(a + "::" + b) == [a] + SplitPair(b)
  {
    var whole := a + "::" + b;
    if a == "" {
      assert whole[2..] == b;
    } else {
      NoPairTail(a);
      assert whole[1..] == a[1..] + "::" + b;
      SplitPairAt(a[1..], b);
      assert a == [a[0]] + a[1..];
      assert whole[1] == (if |a| > 1 then a[1] else ':');
    }
  }

  lemma OneCharMore(c: char, rest: seq<string>)
    requires rest != []
    ensures var halves := [[c] + rest[0]] + rest[1..];
      |halves| == |rest| && halves[0] == [c] + rest[0] &&
      (|rest| == 2 ==> halves[1] == rest[1] && halves[0] + "::" + halves[1] == [c] + (rest[0] + "::" + rest[1]))
  {
    if |rest| == 2 { assert [c] + (rest[0] + "::" + rest[1]) == ([c] + rest[0]) + "::" + rest[1]; }
  }

  /** What one or two halves say about the text they came from. */
  lemma {:induction false} PairOfHalves(s: string)
    ensures |SplitPair(s)| == 1 ==> s == SplitPair(s)[0]
    ensures |SplitPair(s)| == 2 ==> s == SplitPair(s)[0] + "::" + SplitPair(s)[1]
  {
    if s == "" {
    } else if s[0] == ':' && |s| > 1 && s[1] == ':' {
      PairOfHalves(s[2..]);
      assert s == "" + "::" + s[2..];
    } else {
      PairOfHalves(s[1..]);
      OneCharMore(s[0], SplitPair(s[1..]));
      assert s == [s[0]] + s[1..];
    }
  }

  /** Joined numerals never hold two colons in a row, nor start or end on one. */
  lemma {:induction false} JoinedNumeralsHaveNoPair(gs: seq<string>)
    requires gs != [] && AllGroups(gs)
    ensures var j := Join(gs, ':'); j != "" && NoPair(j) && j[0] != ':' && j[|j| - 1] != ':'
  {
    NumeralsHaveNoSeparator(gs[0], Hex, 4);
    var j := Join(gs, ':');
    if |gs| > 1 {
      JoinedNumeralsHaveNoPair(gs[1..]);
      var rest := Join(gs[1..], ':');
      forall i | 0 <= i < |j| - 1 ensures !PairAt(j, i) {
        if i > |gs[0]| {
          assert !PairAt(rest, i - |gs[0]| - 1);
        }
      }
    }
  }

  // ---------------------------------------------------------------- IPv6: the parser and its language

  /** `part === "" ? [] : part.split(":")`. */
  function ToGroups(part: string): seq<string> {
    if part == "" then [] else Split(part, ':')
  }

  predicate AllGroups(gs: seq<string>) {
    forall i :: 0 <= i < |gs| ==> IsNumeral(gs[i], Hex, 4)
  }

  function GroupValues(gs: seq<string>): (v: seq<nat>)
    ensures |v| == |gs| && forall i :: 0 <= i < |gs| ==> v[i] == NumeralValue(gs[i], Hex)
  {
    seq(|gs|, i requires 0 <= i < |gs| => NumeralValue(gs[i], Hex))
  }

  function Filler(count: nat): (gs: seq<string>)
    ensures |gs| == count && forall i :: 0 <= i < count ==> gs[i] == "0"
  {
    seq(count, i => "0")
  }

  /** The eight 16-bit groups of an address, or nothing. */
  function Ipv6Groups(address: string): (r: Option<seq<nat>>)
    ensures r.Some? ==> |r.value| == 8 && forall i :: 0 <= i < 8 ==> r.value[i] < 0x1_0000
  {
    var halves := SplitPair(address);
    if |halves| > 2 then None
    else if |halves| == 2 then Expand(ToGroups(halves[0]), ToGroups(halves[1]), true)
    else Expand(ToGroups(halves[0]), [], false)
  }

  /** The groups either side of the elision, with what it stands for put back. */
  function Expand(head: seq<string>, tail: seq<string>, elided: bool): (r: Option<seq<nat>>)
    ensures r.Some? ==> |r.value| == 8 && forall i :: 0 <= i < 8 ==> r.value[i] < 0x1_0000
  {
    var missing := 8 - |head| - |tail|;
    if (if elided then missing < 1 else missing != 0) then None
    else
      var groups := head + Filler(missing) + tail;
      if AllGroups(groups) then
        SixteenBitGroups(groups);
        Some(GroupValues(groups))
      else None
  }

  lemma SixteenBitGroups(gs: seq<string>)
    requires AllGroups(gs)
    ensures forall i :: 0 <= i < |gs| ==> NumeralValue(gs[i], Hex) < 0x1_0000
  {
    assert Hex.Pow(1) == 16 && Hex.Pow(2) == 256 && Hex.Pow(3) == 4096 && Hex.Pow(4) == 65536;
    forall i | 0 <= i < |gs| ensures NumeralValue(gs[i], Hex) < 0x1_0000 {
      NumeralOfValue(gs[i], Hex);
      assert |gs[i]| == 1 || |gs[i]| == 2 || |gs[i]| == 3 || |gs[i]| == 4;
    }
  }

  /** Either no elision (form 1 of section 2.2 of RFC 4291) or one run of zero groups left out (form 2). */
  datatype Elision = Full | Elide(at: nat, count: nat)

  ghost predicate ValidSpelling(v: seq<nat>, widths: seq<nat>, e: Elision) {
    |v| == 8 && Fits(v, widths, Hex, 4) &&
    (e.Elide? ==> 1 <= e.count && e.at + e.count <= 8 && forall i :: e.at <= i < e.at + e.count ==> v[i] == 0)
  }

  function Print(v: seq<nat>, widths: seq<nat>, e: Elision): string
    requires |v| == |widths| == 8
    requires e.Elide? ==> e.at + e.count <= 8
  {
    match e
    case Full => Join(Numerals(v, widths, Hex), ':')
    case Elide(at, count) =>
      Join(Numerals(v[..at], widths[..at], Hex), ':') + "::" +
      Join(Numerals(v[at + count..], widths[at + count..], Hex), ':')
  }

  ghost predicate SpellsIpv6(address: string, v: seq<nat>) {
    exists widths, e :: ValidSpelling(v, widths, e) && address == Print(v, widths, e)
  }

  lemma GroupsJoinBack(gs: seq<string>)
    requires AllGroups(gs)
    ensures var j := Join(gs, ':');
      ToGroups(j) == gs && NoPair(j) && (j != "" ==> j[0] != ':' && j[|j| - 1] != ':')
  {
    if gs != [] {
      forall i | 0 <= i < |gs| ensures ':' !in gs[i] { NumeralsHaveNoSeparator(gs[i], Hex, 4); }
      SplitOfJoin(gs, ':');
      JoinedNumeralsHaveNoPair(gs);
    }
  }

  lemma ValuesAcrossElision(v0: seq<nat>, w0: seq<nat>, v1: seq<nat>, w1: seq<nat>, count: nat)
    requires Fits(v0, w0, Hex, 4) && Fits(v1, w1, Hex, 4)
    ensures var gs := Numerals(v0, w0, Hex) + Filler(count) + Numerals(v1, w1, Hex);
      AllGroups(gs) && GroupValues(gs) == v0 + seq(count, i => 0) + v1
  {
    NumeralsAreNumerals(v0, w0, Hex, 4);
    NumeralsAreNumerals(v1, w1, Hex, 4);
    var gs := Numerals(v0, w0, Hex) + Filler(count) + Numerals(v1, w1, Hex);
    var zeros := seq(count, i => 0);
    assert NumeralValue("0", Hex) == 0;
    forall i | 0 <= i < |gs| ensures IsNumeral(gs[i], Hex, 4) && NumeralValue(gs[i], Hex) == (v0 + zeros + v1)[i] {
      if |v0| <= i < |v0| + count {
        assert gs[i] == "0" && (v0 + zeros + v1)[i] == zeros[i - |v0|];
      }
    }
  }

  lemma ParseOfFull(gs: seq<string>)
    requires AllGroups(gs) && |gs| == 8
    ensures Ipv6Groups(Join(gs, ':')) == Some(GroupValues(gs))
  {
    GroupsJoinBack(gs);
    SplitPairNone(Join(gs, ':'));
    assert gs + Filler(0) + [] == gs;
  }

  lemma ParseOfElided(head: seq<string>, tail: seq<string>)
    requires AllGroups(head) && AllGroups(tail)
    ensures Ipv6Groups(Join(head, ':') + "::" + Join(tail, ':')) == Expand(head, tail, true)
  {
    var a, b := Join(head, ':'), Join(tail, ':');
    var address := a + "::" + b;
    assert SplitPair(address) == [a] + [b] by {
      GroupsJoinBack(head);
      GroupsJoinBack(tail);
      SplitPairAt(a, b);
      SplitPairNone(b);
    }
    assert SplitPair(address)[0] == a && SplitPair(address)[1] == b;
    assert ToGroups(a) == head && ToGroups(b) == tail by {
      GroupsJoinBack(head);
      GroupsJoinBack(tail);
    }
  }

  lemma ParseOfFullPrint(v: seq<nat>, widths: seq<nat>)
    requires |v| == 8 && Fits(v, widths, Hex, 4)
    ensures Ipv6Groups(Join(Numerals(v, widths, Hex), ':')) == Some(v)
  {
    NumeralsAreNumerals(v, widths, Hex, 4);
    ParseOfFull(Numerals(v, widths, Hex));
    assert GroupValues(Numerals(v, widths, Hex)) == v;
  }

  lemma ParseOfElidedPrint(v0: seq<nat>, w0: seq<nat>, v1: seq<nat>, w1: seq<nat>, count: nat)
    requires Fits(v0, w0, Hex, 4) && Fits(v1, w1, Hex, 4) && |v0| + count + |v1| == 8 && count >= 1
    ensures Ipv6Groups(Join(Numerals(v0, w0, Hex), ':') + "::" + Join(Numerals(v1, w1, Hex), ':')) ==
      Some(v0 + seq(count, i => 0) + v1)
  {
    NumeralsAreNumerals(v0, w0, Hex, 4);
    NumeralsAreNumerals(v1, w1, Hex, 4);
    ParseOfElided(Numerals(v0, w0, Hex), Numerals(v1, w1, Hex));
    ExpandElided(v0, w0, v1, w1, count);
  }

  lemma ExpandElided(v0: seq<nat>, w0: seq<nat>, v1: seq<nat>, w1: seq<nat>, count: nat)
    requires Fits(v0, w0, Hex, 4) && Fits(v1, w1, Hex, 4) && |v0| + count + |v1| == 8 && count >= 1
    ensures Expand(Numerals(v0, w0, Hex), Numerals(v1, w1, Hex), true) == Some(v0 + seq(count, i => 0) + v1)
  {
    ValuesAcrossElision(v0, w0, v1, w1, count);
  }

  /** Parsing undoes printing, whatever run of zeros was elided and however the groups were padded. */
  lemma ParseOfPrint(v: seq<nat>, widths: seq<nat>, e: Elision)
    requires ValidSpelling(v, widths, e)
    ensures Ipv6Groups(Print(v, widths, e)) == Some(v)
  {
    match e {
      case Full => ParseOfFullPrint(v, widths);
      case Elide(at, count) =>
        ParseOfElidedPrint(v[..at], widths[..at], v[at + count..], widths[at + count..], count);
        assert v == v[..at] + seq(count, i => 0) + v[at + count..];
    }
  }

  lemma GroupsOfPart(part: string)
    ensures Join(ToGroups(part), ':') == part
  {
    JoinOfSplit(part, ':');
  }

  lemma PrintOfElided(head: seq<string>, tail: seq<string>) returns (v: seq<nat>, widths: seq<nat>, e: Elision)
    requires AllGroups(head) && AllGroups(tail) && |head| + |tail| <= 7
    ensures ValidSpelling(v, widths, e)
    ensures v == GroupValues(head + Filler(8 - |head| - |tail|) + tail)
    ensures Print(v, widths, e) == Join(head, ':') + "::" + Join(tail, ':')
  {
    var at, count := |head|, 8 - |head| - |tail|;
    var v0, w0 := NumeralsAreSpellings(head, Hex, 4);
    var v1, w1 := NumeralsAreSpellings(tail, Hex, 4);
    ValuesAcrossElision(v0, w0, v1, w1, count);
    v := v0 + seq(count, i => 0) + v1;
    widths := w0 + seq(count, i => 1) + w1;
    e := Elide(at, count);
    assert Hex.Pow(1) == 16;
    assert v[..at] == v0 && widths[..at] == w0 && v[at + count..] == v1 && widths[at + count..] == w1;
  }

  lemma PartsAreGroups(head: seq<string>, tail: seq<string>)
    requires Expand(head, tail, true).Some?
    ensures AllGroups(head) && AllGroups(tail) && |head| + |tail| <= 7
    ensures Expand(head, tail, true).value == GroupValues(head + Filler(8 - |head| - |tail|) + tail)
  {
    var count := 8 - |head| - |tail|;
    var groups := head + Filler(count) + tail;
    assert head == groups[..|head|] && tail == groups[|head| + count..];
  }

  lemma PrintOfFullParse(address: string) returns (widths: seq<nat>, e: Elision)
    requires Ipv6Groups(address).Some? && |SplitPair(address)| == 1
    ensures ValidSpelling(Ipv6Groups(address).value, widths, e)
    ensures address == Print(Ipv6Groups(address).value, widths, e)
  {
    PairOfHalves(address);
    GroupsOfPart(address);
    var groups := ToGroups(address);
    assert groups + Filler(0) + [] == groups;
    var v, w := NumeralsAreSpellings(groups, Hex, 4);
    assert v == Ipv6Groups(address).value;
    widths, e := w, Full;
  }

  lemma PrintOfElidedParse(address: string) returns (widths: seq<nat>, e: Elision)
    requires Ipv6Groups(address).Some? && |SplitPair(address)| == 2
    ensures ValidSpelling(Ipv6Groups(address).value, widths, e)
    ensures address == Print(Ipv6Groups(address).value, widths, e)
  {
    var halves := SplitPair(address);
    PairOfHalves(address);
    GroupsOfPart(halves[0]);
    GroupsOfPart(halves[1]);
    var head, tail := ToGroups(halves[0]), ToGroups(halves[1]);
    assert Ipv6Groups(address) == Expand(head, tail, true);
    PartsAreGroups(head, tail);
    var v;
    v, widths, e := PrintOfElided(head, tail);
  }

  /** Whatever parses was printed that way. */
  lemma PrintOfParse(address: string) returns (widths: seq<nat>, e: Elision)
    requires Ipv6Groups(address).Some?
    ensures ValidSpelling(Ipv6Groups(address).value, widths, e)
    ensures address == Print(Ipv6Groups(address).value, widths, e)
  {
    if |SplitPair(address)| == 1 {
      widths, e := PrintOfFullParse(address);
    } else {
      widths, e := PrintOfElidedParse(address);
    }
  }

  /** `ipv6Groups` accepts exactly the lower-case forms 1 and 2, and reads each as the groups it spells. */
  lemma Ipv6GroupsExactly(address: string, v: seq<nat>)
    ensures Ipv6Groups(address) == Some(v) <==> SpellsIpv6(address, v)
  {
    if Ipv6Groups(address) == Some(v) {
      var widths, e := PrintOfParse(address);
      assert ValidSpelling(v, widths, e) && address == Print(v, widths, e);
    }
    forall widths, e | ValidSpelling(v, widths, e) && address == Print(v, widths, e)
      ensures Ipv6Groups(address) == Some(v)
    {
      ParseOfPrint(v, widths, e);
    }
  }

  // ---------------------------------------------------------------- IPv6: the verdict

  /** The 128-bit address. */
  function Ipv6Value(v: seq<nat>): nat
    requires |v| == 8
  {
    Shift16(Shift16(Shift16(Shift16(Shift16(Shift16(Shift16(v[0], v[1]), v[2]), v[3]), v[4]), v[5]), v[6]), v[7])
  }

  function Shift16(high: nat, low: nat): nat { high * 0x1_0000 + low }

  /** The unique-local range: the top seven bits are 1111110 (section 3.1 of RFC 4193). */
  const ULA_FIRST: nat := 0xfc00_0000_0000_0000_0000_0000_0000_0000
  const ULA_LAST: nat := 0xfdff_ffff_ffff_ffff_ffff_ffff_ffff_ffff
  /** ::ffff:0:0/96, the IPv4-mapped range (section 2.5.5.2 of RFC 4291). */
  const MAPPED_FIRST: nat := 0xffff_0000_0000

  /** Loopback (section 2.5.3 of RFC 4291), unique-local, or a private IPv4 address mapped into IPv6. */
  predicate LocalIpv6Value(a: nat) {
    a == 1 || ULA_FIRST <= a <= ULA_LAST || (MAPPED_FIRST <= a && PrivateIpv4Value(a - MAPPED_FIRST))
  }

  /** `octets.join(".")` of four numbers, each printed the way JavaScript prints it. */
  function DottedQuad(o: seq<nat>): string
    requires |o| == 4
  {
    Join(Numerals(o, seq(4, i requires 0 <= i < 4 => ShortestWidth(o[i])), Decimal), '.')
  }

  function ShortestWidth(n: nat): nat { if n < 10 then 1 else if n < 100 then 2 else 3 }

  function MappedOctets(high: nat, low: nat): (o: seq<nat>)
    ensures |o| == 4
  {
    [high / 256, high % 256, low / 256, low % 256]
  }

  /** `a & b`, bit by bit. */
  function And(a: nat, b: nat): nat {
    if a == 0 || b == 0 then 0 else 2 * And(a / 2, b / 2) + (if a % 2 == 1 && b % 2 == 1 then 1 else 0)
  }

  /** `(g & 0xfe00) === 0xfc00` on a 16-bit group. */
  predicate HasUlaPrefix(g: nat) { And(g, 0xfe00) == 0xfc00 }

  lemma AndShifted(a: nat, b: nat)
    ensures And(a, 2 * b) == 2 * And(a / 2, b)
  {
  }

  lemma AndOfOnes(a: nat, b: nat)
    requires And(a / 2, b) == a / 2
    ensures And(a, 2 * b + 1) == a
  {
  }

  lemma AndShiftedByThree(a: nat, b: nat)
    ensures And(a, 8 * b) == 8 * And(a / 8, b)
  {
    AndShifted(a, 4 * b);
    AndShifted(a / 2, 2 * b);
    AndShifted(a / 4, b);
    assert a / 2 / 2 == a / 4 && a / 4 / 2 == a / 8;
  }

  /** The mask drops the low nine bits and keeps the seven above them. */
  lemma MaskKeepsSeven(g: nat)
    requires g < 0x1_0000
    ensures And(g, 0xfe00) == 512 * (g / 512)
  {
    AndShiftedByThree(g, 0x1fc0);
    AndShiftedByThree(g / 8, 0x3f8);
    AndShiftedByThree(g / 64, 0x7f);
    assert g / 8 / 8 == g / 64 && g / 64 / 8 == g / 512;
    SevenOnes(g / 512);
  }

  lemma SevenOnes(j: nat)
    requires j < 128
    ensures And(j, 0x7f) == j
  {
    assert j / 64 / 2 == 0;
    AndOfOnes(j / 64, 0);
    AndOfOnes(j / 32, 1);
    AndOfOnes(j / 16, 3);
    AndOfOnes(j / 8, 7);
    AndOfOnes(j / 4, 15);
    AndOfOnes(j / 2, 31);
    AndOfOnes(j, 63);
  }

  lemma UlaPrefixIsRange(g: nat)
    requires g < 0x1_0000
    ensures HasUlaPrefix(g) <==> 0xfc00 <= g <= 0xfdff
  {
    MaskKeepsSeven(g);
  }

  predicate IsLocalIpv6(hostname: string) {
    if ':' !in hostname then false
    else match Ipv6Groups(Split(hostname, '%')[0])
      case None => false
      case Some(groups) => LocalGroups(groups)
  }

  predicate LocalGroups(groups: seq<nat>)
    requires |groups| == 8 && forall i :: 0 <= i < 8 ==> groups[i] < 0x1_0000
  {
    if forall i :: 0 <= i < 8 ==> groups[i] == (if i == 7 then 1 else 0) then true
    else if (forall i :: 0 <= i < 5 ==> groups[i] == 0) && groups[5] == 0xffff then
      IsPrivateIpv4(DottedQuad(MappedOctets(groups[6], groups[7])))
    else HasUlaPrefix(groups[0])
  }

  lemma MappedIsPrivate(high: nat, low: nat)
    requires high < 0x1_0000 && low < 0x1_0000
    ensures IsPrivateIpv4(DottedQuad(MappedOctets(high, low))) <==> PrivateIpv4Value(Shift16(high, low))
  {
    var o := MappedOctets(high, low);
    assert Ipv4Octets(DottedQuad(o)) == Some(o) by {
      var widths := seq(4, i requires 0 <= i < 4 => ShortestWidth(o[i]));
      assert Decimal.Pow(1) == 10 && Decimal.Pow(2) == 100 && Decimal.Pow(3) == 1000;
      assert SpellsIpv4(DottedQuad(o), o, widths);
      Ipv4OctetsExactly(DottedQuad(o), o);
    }
    PrivateOctetsIsRange(o);
    MappedQuadValue(high, low);
  }

  lemma MappedQuadValue(high: nat, low: nat)
    ensures Ipv4Value(MappedOctets(high, low)) == Shift16(high, low)
  {
    assert high / 256 * 256 + high % 256 == high && low / 256 * 256 + low % 256 == low;
  }

  /** Eight groups below a first one are a number below the 113th bit. */
  lemma TailBound(v: seq<nat>) returns (low: nat)
    requires |v| == 8 && forall i :: 0 <= i < 8 ==> v[i] < 0x1_0000
    ensures low < 0x1_0000_0000_0000_0000_0000_0000_0000
    ensures Ipv6Value(v) == v[0] * 0x1_0000_0000_0000_0000_0000_0000_0000 + low
  {
    low := Shift16(Shift16(Shift16(Shift16(Shift16(Shift16(v[1], v[2]), v[3]), v[4]), v[5]), v[6]), v[7]);
  }

  lemma SmallValue(v: seq<nat>)
    requires |v| == 8 && forall i :: 0 <= i < 8 ==> v[i] < 0x1_0000
    ensures Ipv6Value(v) < 0x1_0000_0000_0000 <==> forall i :: 0 <= i < 5 ==> v[i] == 0
    ensures (forall i :: 0 <= i < 5 ==> v[i] == 0) ==> Ipv6Value(v) == v[5] * 0x1_0000_0000 + Shift16(v[6], v[7])
  {
    var high := Shift16(Shift16(Shift16(Shift16(v[0], v[1]), v[2]), v[3]), v[4]);
    assert high == 0 <==> v[0] == 0 && v[1] == 0 && v[2] == 0 && v[3] == 0 && v[4] == 0;
    assert Ipv6Value(v) == high * 0x1_0000_0000_0000 + v[5] * 0x1_0000_0000 + Shift16(v[6], v[7]);
  }

  /** The comparisons on groups are comparisons on the 128-bit value. */
  lemma LocalGroupsIsValue(v: seq<nat>)
    requires |v| == 8 && forall i :: 0 <= i < 8 ==> v[i] < 0x1_0000
    ensures LocalGroups(v) <==> LocalIpv6Value(Ipv6Value(v))
  {
    UlaPrefixIsRange(v[0]);
    MappedIsPrivate(v[6], v[7]);
    SmallValue(v);
    var low := TailBound(v);
    var a, quad := Ipv6Value(v), Shift16(v[6], v[7]);
    assert 0xfc00 <= v[0] <= 0xfdff <==> ULA_FIRST <= a <= ULA_LAST;
    if forall i :: 0 <= i < 5 ==> v[i] == 0 {
      assert v[5] == 0xffff <==> MAPPED_FIRST <= a;
    }
  }

  /**
   * The verdict is about the 128-bit address, zone index aside: true exactly when the text spells an address
   * that is loopback, unique-local or a mapped private one.
   */
  lemma IsLocalIpv6Exactly(hostname: string)
    ensures IsLocalIpv6(hostname) <==>
      exists v :: |v| == 8 && SpellsIpv6(Split(hostname, '%')[0], v) && LocalIpv6Value(Ipv6Value(v))
  {
    var address := Split(hostname, '%')[0];
    if Ipv6Groups(address).Some? {
      var v := Ipv6Groups(address).value;
      Ipv6GroupsExactly(address, v);
      LocalGroupsIsValue(v);
      SpellingsHaveColons(hostname, v);
    }
    forall v | |v| == 8 && SpellsIpv6(address, v) ensures Ipv6Groups(address) == Some(v) {
      Ipv6GroupsExactly(address, v);
    }
  }

  /** Two spellings of one address, zone index or not, always get one verdict. */
  lemma SpellingNeverDecides(one: string, other: string, v: seq<nat>)
    requires SpellsIpv6(Split(one, '%')[0], v) && SpellsIpv6(Split(other, '%')[0], v)
    ensures IsLocalIpv6(one) == IsLocalIpv6(other)
  {
    Ipv6GroupsExactly(Split(one, '%')[0], v);
    Ipv6GroupsExactly(Split(other, '%')[0], v);
    SpellingsHaveColons(one, v);
    SpellingsHaveColons(other, v);
  }

  /** The quick test for a colon never refuses an address. */
  lemma SpellingsHaveColons(hostname: string, v: seq<nat>)
    requires SpellsIpv6(Split(hostname, '%')[0], v)
    ensures ':' in hostname
  {
    var address := Split(hostname, '%')[0];
    var widths, e :| ValidSpelling(v, widths, e) && address == Print(v, widths, e);
    assert ':' in address by {
      if e.Elide? {
        var a := Join(Numerals(v[..e.at], widths[..e.at], Hex), ':');
        assert address[|a|] == ':';
      } else {
        var gs := Numerals(v, widths, Hex);
        assert address == gs[0] + [':'] + Join(gs[1..], ':');
        assert address[|gs[0]|] == ':';
      }
    }
    FirstPartIsPrefix(hostname, '%');
  }

  lemma {:induction false} FirstPartIsPrefix(s: string, sep: char)
    ensures Split(s, sep)[0] <= s
  {
    if s != "" {
      FirstPartIsPrefix(s[1..], sep);
    }
  }

  // ---------------------------------------------------------------- the host test

  const LOCAL_HOSTNAMES: set<string> := {"localhost", "postgres", "db"}

  /** The judgement `isLocalDatabaseUrl` passes on a bare, lower-cased host name. */
  predicate IsLocalHost(hostname: string) {
    if hostname == "" then false
    else hostname in LOCAL_HOSTNAMES || IsPrivateIpv4(hostname) || IsLocalIpv6(hostname)
  }

  /**
   * The judgement, exactly: a host is local when it is one of the three names, spells a private or loopback IPv4
   * address, or spells, any zone aside, a local IPv6 one.
   */
  lemma IsLocalHostExactly(hostname: string)
    ensures IsLocalHost(hostname) <==>
      hostname in {"localhost", "postgres", "db"} ||
      (exists o, widths :: SpellsIpv4(hostname, o, widths) && PrivateIpv4Value(Ipv4Value(o))) ||
      (exists v :: |v| == 8 && SpellsIpv6(Split(hostname, '%')[0], v) && LocalIpv6Value(Ipv6Value(v)))
  {
    IsPrivateIpv4Exactly(hostname);
    IsLocalIpv6Exactly(hostname);
    if IsPrivateIpv4(hostname) { Ipv4HasDotsOnly(hostname); }
  }

  lemma Ipv4HasDotsOnly(hostname: string)
    requires IsPrivateIpv4(hostname)
    ensures '.' in hostname && ':' !in hostname
  {
    IsPrivateIpv4Exactly(hostname);
    var o, widths :| SpellsIpv4(hostname, o, widths);
    NumeralsAreNumerals(o, widths, Decimal, 3);
    var gs := Numerals(o, widths, Decimal);
    assert hostname[|gs[0]|] == '.';
    JoinHasOnly(gs, '.', ':');
  }

  lemma NamesHaveNoSeparators(hostname: string)
    requires hostname in LOCAL_HOSTNAMES
    ensures '.' !in hostname && ':' !in hostname
  {
  }

  /** No host name is judged by two of the three tests, so their order never matters. */
  lemma HostTestsAreDisjoint(hostname: string)
    ensures !(IsPrivateIpv4(hostname) && IsLocalIpv6(hostname))
    ensures !(hostname in LOCAL_HOSTNAMES && (IsPrivateIpv4(hostname) || IsLocalIpv6(hostname)))
  {
    if IsPrivateIpv4(hostname) { Ipv4HasDotsOnly(hostname); }
    if hostname in LOCAL_HOSTNAMES { NamesHaveNoSeparators(hostname); }
  }

  lemma {:induction false} JoinHasOnly(parts: seq<string>, sep: char, c: char)
    requires c != sep && AllFree(parts, c)
    ensures c !in Join(parts, sep)
  {
    if |parts| > 1 {
      JoinHasOnly(parts[1..], sep, c);
    }
  }
}
