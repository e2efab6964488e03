/**
 Address classification of the egress guard: every spelling a resolver accepts for a 32-bit
 address, and the IPv6 forms that embed one, must be judged alike.
 */
module Addresses {
  import opened Text

  // ── Numeric parts ──────────────────────────────────────────────────────────

  /** `parse_numeric_part`: `0x` hexadecimal, leading-zero octal, else decimal; within 64 bits. */
  function ParsePart(p: string): Option<nat> {
    var lower := Lower(p);
    if p == "" then None
    else if StartsWith(lower, "0x") then InRadix(lower[2..], 16)
    else if |p| > 1 && p[0] == '0' then InRadix(p, 8)
    else InRadix(p, 10)
  }

  function InRadix(s: string, radix: nat): Option<nat>
    requires radix <= 16
  {
    if s != "" && AllDigits(s, radix) && Numeral(s, radix) < U64_LIMIT then Some(Numeral(s, radix)) else None
  }

  predicate HasHexPrefix(p: string) {
    |p| >= 2 && p[0] == '0' && (p[1] == 'x' || p[1] == 'X')
  }

  /** The spellings of a number: decimal, octal or hexadecimal, with any number of leading zeros in the last two. */
  predicate Spells(p: string, n: nat) {
    || (HasHexPrefix(p) && |p| > 2 && AllDigits(p[2..], 16) && Numeral(p[2..], 16) == n)
    || (|p| > 1 && p[0] == '0' && AllDigits(p, 8) && Numeral(p, 8) == n)
    || (p != "" && (|p| == 1 || p[0] != '0') && AllDigits(p, 10) && Numeral(p, 10) == n)
  }

  lemma LowerDigit(c: char)
    ensures DigitValue(LowerChar(c)) == DigitValue(c)
  {
  }

  lemma {:induction false} LowerNumeral(s: string)
    ensures AllDigits(Lower(s), 16) <==> AllDigits(s, 16)
    ensures AllDigits(s, 16) ==> Numeral(Lower(s), 16) == Numeral(s, 16)
  {
    forall i | 0 <= i < |s| ensures DigitValue(Lower(s)[i]) == DigitValue(s[i]) { LowerDigit(s[i]); }
    if s != "" {
      var t := s[..|s| - 1];
      assert Lower(s)[..|s| - 1] == Lower(t);
      LowerNumeral(t);
    }
  }

  lemma HexPrefix(p: string)
    ensures StartsWith(Lower(p), "0x") <==> HasHexPrefix(p)
    ensures HasHexPrefix(p) ==> Lower(p)[2..] == Lower(p[2..])
  {
    if |p| >= 2 {
      var l := Lower(p);
      assert l[..2] == [l[0], l[1]];
      assert l[0] == '0' <==> p[0] == '0';
      assert l[1] == 'x' <==> p[1] == 'x' || p[1] == 'X';
    }
  }

  /** A part is read as `n` exactly when it spells `n`, up to the 64-bit limit. */
  lemma ParsePartIff(p: string, n: nat)
    ensures ParsePart(p) == Some(n) <==> Spells(p, n) && n < U64_LIMIT
  {
    HexPrefix(p);
    if HasHexPrefix(p) {
      LowerNumeral(p[2..]);
      assert DigitValue(p[1]) == 16;
    }
  }

  // ── Dotted forms ───────────────────────────────────────────────────────────

  type Address = n: nat | n < U32_LIMIT

  /** `inet_aton`: all parts but the last are bytes from the top, the last takes what is left. */
  function Assemble(nums: seq<nat>): Option<nat> {
    if |nums| == 1 then
      if nums[0] < U32_LIMIT then Some(nums[0]) else None
    else if |nums| == 2 then
      if nums[0] > 0xff || nums[1] > 0xff_ffff then None else Some(nums[0] * 0x100_0000 + nums[1])
    else if |nums| == 3 then
      if nums[0] > 0xff || nums[1] > 0xff || nums[2] > 0xffff then None
      else Some(nums[0] * 0x100_0000 + nums[1] * 0x1_0000 + nums[2])
    else if |nums| == 4 then
      if nums[0] > 0xff || nums[1] > 0xff || nums[2] > 0xff || nums[3] > 0xff then None
      else Some(nums[0] * 0x100_0000 + nums[1] * 0x1_0000 + nums[2] * 0x100 + nums[3])
    else None
  }

  /** The numbers that write an address in `k` parts. */
  function Parts(a: Address, k: nat): (r: seq<nat>)
    requires 1 <= k <= 4
    ensures |r| == k
  {
    if k == 1 then [a]
    else if k == 2 then [a / 0x100_0000, a % 0x100_0000]
    else if k == 3 then [a / 0x100_0000, a / 0x1_0000 % 0x100, a % 0x1_0000]
    else [a / 0x100_0000, a / 0x1_0000 % 0x100, a / 0x100 % 0x100, a % 0x100]
  }

  lemma Recompose(a: Address)
    ensures a == a / 0x100_0000 * 0x100_0000 + a % 0x100_0000
    ensures a == a / 0x100_0000 * 0x100_0000 + a / 0x1_0000 % 0x100 * 0x1_0000 + a % 0x1_0000
    ensures a == a / 0x100_0000 * 0x100_0000 + a / 0x1_0000 % 0x100 * 0x1_0000 + a / 0x100 % 0x100 * 0x100 + a % 0x100
    ensures a / 0x100_0000 <= 0xff
  {
    assert a / 0x1_0000 == a / 0x100 / 0x100;
    assert a / 0x100_0000 == a / 0x1_0000 / 0x100;
  }

  lemma Decompose(x: nat, y: nat, z: nat, w: nat)
    requires x <= 0xff && y <= 0xff && z <= 0xff && w <= 0xff
    ensures var a := x * 0x100_0000 + y * 0x1_0000 + z * 0x100 + w;
            && a / 0x100_0000 == x && a / 0x1_0000 % 0x100 == y && a / 0x100 % 0x100 == z && a % 0x100 == w
            && a % 0x100_0000 == y * 0x1_0000 + z * 0x100 + w && a % 0x1_0000 == z * 0x100 + w
  {
    var a := x * 0x100_0000 + y * 0x1_0000 + z * 0x100 + w;
    assert a / 0x100 == x * 0x1_0000 + y * 0x100 + z;
    assert a / 0x1_0000 == x * 0x100 + y;
  }

  /** Assembling numbers gives `a` exactly when they are the parts of `a`. */
  lemma AssembleIff(nums: seq<nat>, a: Address)
    ensures Assemble(nums) == Some(a) <==> 1 <= |nums| <= 4 && nums == Parts(a, |nums|)
  {
    Recompose(a);
    if |nums| == 2 && Assemble(nums) == Some(a) {
      var t := nums[1];
      assert t / 0x1_0000 <= 0xff;
      Decompose(nums[0], t / 0x1_0000, t / 0x100 % 0x100, t % 0x100);
      assert t == t / 0x1_0000 * 0x1_0000 + t / 0x100 % 0x100 * 0x100 + t % 0x100 by { LowBytes(t); }
    } else if |nums| == 3 && Assemble(nums) == Some(a) {
      var t := nums[2];
      Decompose(nums[0], nums[1], t / 0x100, t % 0x100);
    } else if |nums| == 4 && Assemble(nums) == Some(a) {
      Decompose(nums[0], nums[1], nums[2], nums[3]);
    }
  }

  lemma LowBytes(t: nat)
    ensures t == t / 0x1_0000 * 0x1_0000 + t / 0x100 % 0x100 * 0x100 + t % 0x100
  {
    assert t / 0x1_0000 == t / 0x100 / 0x100;
  }

  /** Each part read as a number, or nothing. */
  function ParseParts(parts: seq<string>, read: string -> Option<nat>): Option<seq<nat>> {
    if parts == [] then Some([])
    else
      var init :- ParseParts(parts[..|parts| - 1], read);
      var n :- read(parts[|parts| - 1]);
      Some(init + [n])
  }

  /** The dotted-part path of `parse_ipv4_any`. */
  function Dotted(host: string): Option<nat> {
    var parts := Split(host, '.');
    if |parts| > 4 then None
    else
      var nums :- ParseParts(parts, ParsePart);
      Assemble(nums)
  }

  /** The standard library's strict reader: four decimal bytes without leading zeros. */
  predicate IsStrictByte(p: string) {
    1 <= |p| <= 3 && AllDigits(p, 10) && (|p| == 1 || p[0] != '0') && Numeral(p, 10) <= 0xff
  }

  function StrictQuad(host: string): Option<nat> {
    var ps := Split(host, '.');
    if |ps| == 4 && IsStrictByte(ps[0]) && IsStrictByte(ps[1]) && IsStrictByte(ps[2]) && IsStrictByte(ps[3]) then
      Some(Numeral(ps[0], 10) * 0x100_0000 + Numeral(ps[1], 10) * 0x1_0000
           + Numeral(ps[2], 10) * 0x100 + Numeral(ps[3], 10))
    else None
  }

  /** `parse_ipv4_any` */
  method ParseIpv4Any(host: string) returns (r: Option<nat>)
    ensures r == Dotted(host)
  {
    var quad := StrictQuad(host);
    if quad.Some? {
      FastPathIsRedundant(host);
      return quad;
    }
    var parts := Split(host, '.');
    if |parts| > 4 {
      return None;
    }
    var nums := [];
    for i := 0 to |parts|
      invariant ParseParts(parts[..i], ParsePart) == Some(nums)
    {
      assert parts[..i + 1][..i] == parts[..i];
      var n := ParsePart(parts[i]);
      if n.None? {
        NoPartsAfterNone(parts, i + 1, ParsePart);
        return None;
      }
      nums := nums + [n.value];
    }
    assert parts[..|parts|] == parts;
    r := Assemble(nums);
  }

  lemma {:induction false} NoPartsAfterNone(parts: seq<string>, i: nat, read: string -> Option<nat>)
    requires i <= |parts| && ParseParts(parts[..i], read) == None
    ensures ParseParts(parts, read) == None
    decreases |parts| - i
  {
    if i < |parts| {
      assert parts[..i + 1][..i] == parts[..i];
      NoPartsAfterNone(parts, i + 1, read);
    } else {
      assert parts[..i] == parts;
    }
  }

  lemma {:induction false} ParsePartsIff(parts: seq<string>, nums: seq<nat>, read: string -> Option<nat>)
    ensures ParseParts(parts, read) == Some(nums) <==>
            |parts| == |nums| && forall i :: 0 <= i < |parts| ==> read(parts[i]) == Some(nums[i])
    decreases |parts|
  {
    if parts == [] {
      assert |nums| == 0 ==> nums == [];
    } else if nums != [] {
      var n := |parts| - 1;
      ParsePartsIff(parts[..n], nums[..|nums| - 1], read);
      assert nums == nums[..|nums| - 1] + [nums[|nums| - 1]];
    }
  }

  /** The strict reader never disagrees with the general one. */
  lemma FastPathIsRedundant(host: string)
    ensures StrictQuad(host).Some? ==> Dotted(host) == StrictQuad(host)
  {
    if StrictQuad(host).Some? {
      StrictParts(Split(host, '.'));
    }
  }

  lemma StrictParts(ps: seq<string>)
    requires |ps| == 4 && IsStrictByte(ps[0]) && IsStrictByte(ps[1]) && IsStrictByte(ps[2]) && IsStrictByte(ps[3])
    ensures ParseParts(ps, ParsePart) ==
            Some([Numeral(ps[0], 10), Numeral(ps[1], 10), Numeral(ps[2], 10), Numeral(ps[3], 10)])
  {
    StrictPart(ps[0]);
    StrictPart(ps[1]);
    StrictPart(ps[2]);
    StrictPart(ps[3]);
    ParsePartsIff(ps, [Numeral(ps[0], 10), Numeral(ps[1], 10), Numeral(ps[2], 10), Numeral(ps[3], 10)], ParsePart);
  }

  lemma StrictPart(p: string)
    requires IsStrictByte(p)
    ensures ParsePart(p) == Some(Numeral(p, 10))
  {
    ParsePartIff(p, Numeral(p, 10));
  }

  ghost predicate SpellsAddress(parts: seq<string>, a: Address) {
    1 <= |parts| <= 4 && forall i :: 0 <= i < |parts| ==> Spells(parts[i], Parts(a, |parts|)[i])
  }

  lemma SpellingHasNoDot(p: string, n: nat)
    requires Spells(p, n)
    ensures '.' !in p && ':' !in p && p != "" && p[0] != '[' && p[0] != '.'
    ensures forall i :: 0 <= i < |p| ==> p[i] == 'x' || p[i] == 'X' || DigitValue(p[i]) < 16
  {
    forall i | 0 <= i < |p| ensures p[i] == 'x' || p[i] == 'X' || DigitValue(p[i]) < 16 {
      if HasHexPrefix(p) && i >= 2 && AllDigits(p[2..], 16) {
        assert p[2..][i - 2] == p[i];
      }
    }
  }

  lemma PartsAreSmall(a: Address, k: nat, i: nat)
    requires 1 <= k <= 4 && i < k
    ensures Parts(a, k)[i] < U64_LIMIT
  {
  }

  /** A host is read as `a` exactly when it is a spelling of `a` in one to four parts. */
  lemma DottedIff(host: string, a: Address)
    ensures Dotted(host) == Some(a) <==> SpellsAddress(Split(host, '.'), a)
  {
    var parts := Split(host, '.');
    var k := |parts|;
    if k <= 4 {
      var nums := Parts(a, k);
      ParsePartsIff(parts, nums, ParsePart);
      AssembleIff(nums, a);
      forall i | 0 <= i < k ensures ParsePart(parts[i]) == Some(nums[i]) <==> Spells(parts[i], nums[i]) {
        PartsAreSmall(a, k, i);
        ParsePartIff(parts[i], nums[i]);
      }
      var got := ParseParts(parts, ParsePart);
      if got.Some? {
        AssembleIff(got.value, a);
        ParsePartsIff(parts, got.value, ParsePart);
      }
    }
  }

  /** Every decimal, octal or hexadecimal spelling of an address in one to four parts is read as that address. */
  lemma EverySpelling(a: Address, parts: seq<string>)
    requires SpellsAddress(parts, a)
    ensures Dotted(Join(parts, '.')) == Some(a)
  {
    forall i | 0 <= i < |parts| ensures '.' !in parts[i] { SpellingHasNoDot(parts[i], Parts(a, |parts|)[i]); }
    SplitJoin(parts, '.');
    DottedIff(Join(parts, '.'), a);
  }

  // ── Ranges ─────────────────────────────────────────────────────────────────

  function Octet(a: Address, i: nat): nat
    requires i < 4
  {
    Parts(a, 4)[i]
  }

  /** `is_private_ipv4`, octet by octet. */
  predicate IsPrivate(a: Address) {
    var o0, o1 := Octet(a, 0), Octet(a, 1);
    || o0 == 127
    || o0 == 10 || (o0 == 172 && 16 <= o1 <= 31) || (o0 == 192 && o1 == 168)
    || (o0 == 169 && o1 == 254)
    || a == 0
    || (o0 == 255 && o1 == 255 && Octet(a, 2) == 255 && Octet(a, 3) == 255)
    || o0 == 0
    || (o0 == 100 && 64 <= o1 <= 127)
    || a == 0xa9fe_a9fe
  }

  /** A block of addresses: those that agree with `base` above its low `size` addresses. */
  datatype Block = Block(base: nat, size: nat)

  predicate InBlock(a: nat, b: Block) {
    b.size > 0 && a / b.size == b.base / b.size
  }

  /** 127/8, 10/8, 172.16/12, 192.168/16, 169.254/16, 0/8, 100.64/10, 255.255.255.255/32 */
  const PRIVATE_BLOCKS: seq<Block> := [
    Block(0x7f00_0000, 0x100_0000), Block(0x0a00_0000, 0x100_0000), Block(0xac10_0000, 0x10_0000),
    Block(0xc0a8_0000, 0x1_0000), Block(0xa9fe_0000, 0x1_0000), Block(0, 0x100_0000),
    Block(0x6440_0000, 0x40_0000), Block(0xffff_ffff, 1)]

  lemma BlockTable(a: Address)
    ensures (exists i :: 0 <= i < |PRIVATE_BLOCKS| && InBlock(a, PRIVATE_BLOCKS[i])) <==>
            || a / 0x100_0000 == 0x7f || a / 0x100_0000 == 0x0a || a / 0x10_0000 == 0xac1
            || a / 0x1_0000 == 0xc0a8 || a / 0x1_0000 == 0xa9fe || a / 0x100_0000 == 0
            || a / 0x40_0000 == 0x191 || a == 0xffff_ffff
  {
    var bs := PRIVATE_BLOCKS;
    assert InBlock(a, bs[0]) <==> a / 0x100_0000 == 0x7f;
    assert InBlock(a, bs[1]) <==> a / 0x100_0000 == 0x0a;
    assert InBlock(a, bs[2]) <==> a / 0x10_0000 == 0xac1;
    assert InBlock(a, bs[3]) <==> a / 0x1_0000 == 0xc0a8;
    assert InBlock(a, bs[4]) <==> a / 0x1_0000 == 0xa9fe;
    assert InBlock(a, bs[5]) <==> a / 0x100_0000 == 0;
    assert InBlock(a, bs[6]) <==> a / 0x40_0000 == 0x191;
    assert InBlock(a, bs[7]) <==> a == 0xffff_ffff;
  }

  /** The octet tests deny exactly the addresses of the eight blocks. */
  lemma PrivateIffInBlock(a: Address)
    ensures IsPrivate(a) <==> exists i :: 0 <= i < |PRIVATE_BLOCKS| && InBlock(a, PRIVATE_BLOCKS[i])
  {
    BlockTable(a);
    TopBits(a);
  }

  lemma TopBits(a: Address)
    ensures var o0, o1 := Octet(a, 0), Octet(a, 1);
            && (a / 0x1_0000 == o0 * 0x100 + o1)
            && (a / 0x10_0000 == 0xac1 <==> o0 == 172 && 16 <= o1 <= 31)
            && (a / 0x40_0000 == 0x191 <==> o0 == 100 && 64 <= o1 <= 127)
            && (a == 0xffff_ffff <==> o0 == 255 && o1 == 255 && Octet(a, 2) == 255 && Octet(a, 3) == 255)
  {
    Recompose(a);
    assert a / 0x100_0000 == a / 0x1_0000 / 0x100;
    assert a / 0x10_0000 == a / 0x1_0000 / 0x10;
    assert a / 0x40_0000 == a / 0x1_0000 / 0x40;
  }

  // ── IPv6 ───────────────────────────────────────────────────────────────────

  predicate IsSegments(s: seq<nat>) {
    |s| == 8 && forall i :: 0 <= i < 8 ==> s[i] < 0x1_0000
  }

  type Segments = s: seq<nat> | IsSegments(s) witness [0, 0, 0, 0, 0, 0, 0, 0]

  /** The address in the last two segments. */
  function LowAddress(s: Segments): Address {
    s[6] * 0x1_0000 + s[7]
  }

  /** `embedded_ipv4`: mapped, or compatible except for `::` and `::1`. */
  function Embedded(s: Segments): Option<Address> {
    if s[..5] == [0, 0, 0, 0, 0] && s[5] == 0xffff then Some(LowAddress(s))
    else if s[..6] == [0, 0, 0, 0, 0, 0] && (s[6] != 0 || s[7] > 1) then Some(LowAddress(s))
    else None
  }

  /** `is_private_ipv6`: loopback, unspecified, fe80::/10, fc00::/7 */
  predicate IsPrivate6(s: Segments) {
    || s == [0, 0, 0, 0, 0, 0, 0, 1]
    || s == [0, 0, 0, 0, 0, 0, 0, 0]
    || s[0] / 0x40 == 0xfe80 / 0x40
    || s[0] / 0x200 == 0xfc00 / 0x200
  }

  /** The address-range stage on an IPv6 literal. */
  predicate Denied6(s: Segments) {
    (Embedded(s).Some? && IsPrivate(Embedded(s).value)) || IsPrivate6(s)
  }

  /** `::ffff:a.b.c.d` */
  function Mapped(a: Address): Segments {
    [0, 0, 0, 0, 0, 0xffff, a / 0x1_0000, a % 0x1_0000]
  }

  /** `::a.b.c.d` */
  function Compatible(a: Address): Segments {
    [0, 0, 0, 0, 0, 0, a / 0x1_0000, a % 0x1_0000]
  }

  /** An embedded address is judged as the address itself, `::` and `::1` included. */
  lemma EmbeddedJudgedAlike(a: Address)
    ensures Denied6(Mapped(a)) <==> IsPrivate(a)
    ensures Denied6(Compatible(a)) <==> IsPrivate(a)
  {
    var m, c := Mapped(a), Compatible(a);
    assert LowAddress(m) == a && LowAddress(c) == a;
    assert m[..5] == [0, 0, 0, 0, 0] && c[..6] == [0, 0, 0, 0, 0, 0];
    assert c[..5] == c[..6][..5];
    assert m[5] == 0xffff && c[5] == 0;
    if a <= 1 {
      assert Octet(a, 0) == 0;
    }
  }

  /** The 112 bits after the first segment. */
  function Low6(s: Segments): (n: nat)
    ensures n < 0x1_0000_0000_0000_0000_0000_0000_0000
  {
    s[1] * 0x1_0000_0000_0000_0000_0000_0000 + s[2] * 0x1_0000_0000_0000_0000_0000 + s[3] * 0x1_0000_0000_0000_0000
    + s[4] * 0x1_0000_0000_0000 + s[5] * 0x1_0000_0000 + s[6] * 0x1_0000 + s[7]
  }

  /** An IPv6 address as a number of 128 bits. */
  function Value6(s: Segments): nat {
    s[0] * 0x1_0000_0000_0000_0000_0000_0000_0000 + Low6(s)
  }

  /** ::/128, ::1/128, fe80::/10, fc00::/7 */
  const PRIVATE_BLOCKS6: seq<Block> := [
    Block(0, 1), Block(1, 1),
    Block(0xfe80_0000_0000_0000_0000_0000_0000_0000, 0x40_0000_0000_0000_0000_0000_0000_0000),
    Block(0xfc00_0000_0000_0000_0000_0000_0000_0000, 0x200_0000_0000_0000_0000_0000_0000_0000)]

  ghost predicate InPrivateBlock(a: Address) {
    exists i :: 0 <= i < |PRIVATE_BLOCKS| && InBlock(a, PRIVATE_BLOCKS[i])
  }

  ghost predicate InPrivateBlock6(s: Segments) {
    exists i :: 0 <= i < |PRIVATE_BLOCKS6| && InBlock(Value6(s), PRIVATE_BLOCKS6[i])
  }

  /** The mapped or compatible form of an address in a private block. */
  ghost predicate EmbedsPrivate(s: Segments) {
    exists a: Address {:trigger Mapped(a)} :: InPrivateBlock(a) && (s == Mapped(a) || s == Compatible(a))
  }

  lemma FirstBits(v: nat, first: nat, low: nat)
    requires v == first * 0x1_0000_0000_0000_0000_0000_0000_0000 + low && low < 0x1_0000_0000_0000_0000_0000_0000_0000
    ensures v / 0x40_0000_0000_0000_0000_0000_0000_0000 == first / 0x40
    ensures v / 0x200_0000_0000_0000_0000_0000_0000_0000 == first / 0x200
  {
    assert v / 0x1_0000_0000_0000_0000_0000_0000_0000 == first;
  }

  lemma SmallValue6(s: Segments)
    ensures Value6(s) == 0 <==> s == [0, 0, 0, 0, 0, 0, 0, 0]
    ensures Value6(s) == 1 <==> s == [0, 0, 0, 0, 0, 0, 0, 1]
  {
  }

  lemma BlockTable6(s: Segments)
    ensures InPrivateBlock6(s) <==> IsPrivate6(s)
  {
    var bs, v := PRIVATE_BLOCKS6, Value6(s);
    SmallValue6(s);
    FirstBits(v, s[0], Low6(s));
    assert InBlock(v, bs[0]) <==> v == 0;
    assert InBlock(v, bs[1]) <==> v == 1;
    assert InBlock(v, bs[2]) <==> s[0] / 0x40 == 0x3fa;
    assert InBlock(v, bs[3]) <==> s[0] / 0x200 == 0x7e;
  }

  /**
   The segment tests deny exactly the addresses in the four prefix blocks of IPv6 and the embedded forms
   of those in the eight of IPv4.
   */
  lemma Denied6IffInBlock(s: Segments)
    ensures Denied6(s) <==> InPrivateBlock6(s) || EmbedsPrivate(s)
  {
    BlockTable6(s);
    if Denied6(s) && !IsPrivate6(s) {
      var a := Embedded(s).value;
      PrivateIffInBlock(a);
      EmbeddedIsForm(s);
    }
    if EmbedsPrivate(s) {
      var a: Address :| InPrivateBlock(a) && (s == Mapped(a) || s == Compatible(a));
      PrivateIffInBlock(a);
      EmbeddedJudgedAlike(a);
    }
  }

  lemma EmbeddedIsForm(s: Segments)
    requires Embedded(s).Some?
    ensures var a := Embedded(s).value; s == Mapped(a) || s == Compatible(a)
  {
    var a := Embedded(s).value;
    assert a / 0x1_0000 == s[6] && a % 0x1_0000 == s[7];
    assert s == s[..5] + [s[5], s[6], s[7]] && s == s[..6] + [s[6], s[7]];
  }

  // ── The whole check ────────────────────────────────────────────────────────

  type Parser6 = string -> Option<Segments>

  function StripBrackets(host: string): string {
    if |host| >= 2 && host[0] == '[' && host[|host| - 1] == ']' then host[1..|host| - 1] else host
  }

  predicate IsLocalhost(host: string) {
    Lower(host) == "localhost" || EndsWith(Lower(host), ".localhost")
  }

  /** `ssrf_check`; `parse6` is the standard library's IPv6 reader. */
  predicate SsrfDenied(host: string, parse6: Parser6) {
    var h := StripBrackets(host);
    || IsLocalhost(h)
    || (if ':' in h then parse6(h).Some? && Denied6(parse6(h).value)
        else Dotted(h).Some? && Dotted(h).value < U32_LIMIT && IsPrivate(Dotted(h).value))
  }

  lemma {:induction false} JoinChars(parts: seq<string>, sep: char, c: char)
    requires |parts| > 0 && c != sep && forall i :: 0 <= i < |parts| ==> c !in parts[i]
    ensures c !in Join(parts, sep)
  {
    if |parts| > 1 {
      JoinChars(parts[1..], sep, c);
    }
  }

  lemma SpelledHostIsPlain(a: Address, parts: seq<string>)
    requires SpellsAddress(parts, a)
    ensures var h := Join(parts, '.');
            ':' !in h && h != "" && h[0] != '[' && 't' !in h && 'T' !in h
  {
    forall i | 0 <= i < |parts| ensures ':' !in parts[i] && 't' !in parts[i] && 'T' !in parts[i] {
      SpellingHasNoDot(parts[i], Parts(a, |parts|)[i]);
    }
    SpellingHasNoDot(parts[0], Parts(a, |parts|)[0]);
    JoinChars(parts, '.', ':');
    JoinChars(parts, '.', 't');
    JoinChars(parts, '.', 'T');
  }

  lemma NotLocalhost(h: string)
    requires 't' !in h && 'T' !in h
    ensures !IsLocalhost(h)
  {
    var l := Lower(h);
    assert 't' !in l by {
      assert forall i :: 0 <= i < |l| ==> l[i] == LowerChar(h[i]) && h[i] in h;
    }
    assert "localhost"[8] == 't' && ".localhost"[9] == 't';
  }

  /**
   For every address and every spelling of it, and for every IPv6 literal that reads as its mapped or
   compatible form, the address stage gives the one verdict of the range tests.
   */
  lemma SpellingsJudgedAlike(a: Address, parts: seq<string>, parse6: Parser6)
    requires SpellsAddress(parts, a)
    ensures SsrfDenied(Join(parts, '.'), parse6) <==> IsPrivate(a)
  {
    var h := Join(parts, '.');
    SpelledHostIsPlain(a, parts);
    NotLocalhost(h);
    EverySpelling(a, parts);
    assert StripBrackets(h) == h;
  }

  /**
   Every host without a colon, whatever its text: the address stage denies it if and only if it is
   `localhost`, ends in `.localhost`, or spells a private address.
   */
  lemma ColonFreeDeniedIff(host: string, parse6: Parser6)
    requires ':' !in host
    ensures var h := StripBrackets(host);
            SsrfDenied(host, parse6) <==>
            IsLocalhost(h) || exists a: Address :: IsPrivate(a) && SpellsAddress(Split(h, '.'), a)
  {
    var h := StripBrackets(host);
    assert ':' !in h;
    if Dotted(h).Some? && Dotted(h).value < U32_LIMIT {
      DottedIff(h, Dotted(h).value);
    }
    forall a: Address ensures Dotted(h) == Some(a) <==> SpellsAddress(Split(h, '.'), a) {
      DottedIff(h, a);
    }
  }

  /**
   Every host with a colon, whatever its text: the address stage denies it if and only if it ends in
   `.localhost` or reads as an IPv6 address in a private block, or as an embedded form of an IPv4 one.
   */
  lemma ColonDeniedIff(host: string, parse6: Parser6)
    requires ':' in StripBrackets(host)
    ensures var h := StripBrackets(host);
            SsrfDenied(host, parse6) <==>
            || EndsWith(Lower(h), ".localhost")
            || (parse6(h).Some? && (InPrivateBlock6(parse6(h).value) || EmbedsPrivate(parse6(h).value)))
  {
    var h := StripBrackets(host);
    if parse6(h).Some? {
      Denied6IffInBlock(parse6(h).value);
    }
    var k :| 0 <= k < |h| && h[k] == ':';
    assert Lower(h)[k] == ':';
    assert ':' !in "localhost";
  }

  lemma LiteralsJudgedAlike(a: Address, lit: string, parse6: Parser6)
    requires ':' in lit && lit[0] != '[' && 't' !in lit && 'T' !in lit
    requires parse6(lit) == Some(Mapped(a)) || parse6(lit) == Some(Compatible(a))
    ensures SsrfDenied(lit, parse6) <==> IsPrivate(a)
    ensures SsrfDenied("[" + lit + "]", parse6) <==> IsPrivate(a)
  {
    NotLocalhost(lit);
    EmbeddedJudgedAlike(a);
    assert StripBrackets(lit) == lit;
    var b := "[" + lit + "]";
    assert b[0] == '[' && b[|b| - 1] == ']' && b[1..|b| - 1] == lit;
  }
}
