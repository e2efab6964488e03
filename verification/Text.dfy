/**
 Strings, digits and whitespace as the Rust and Python sources use them.

 A `char` is a Unicode scalar value, as in Rust; a `string` is a sequence of them.
 */
module Text {

  datatype Option<+T> = None | Some(value: T) {
    predicate IsFailure() { None? }
    function PropagateFailure<U>(): Option<U> requires None? { None }
    function Extract(): T requires Some? { value }
  }

  // ── Prefixes and suffixes ──────────────────────────────────────────────────

  predicate StartsWith(s: string, p: string) {
    |p| <= |s| && s[..|p|] == p
  }

  predicate EndsWith(s: string, p: string) {
    |p| <= |s| && s[|s| - |p|..] == p
  }

  /** `strip_prefix(p).unwrap_or(s)` */
  function StripPrefix(s: string, p: string): string {
    if StartsWith(s, p) then s[|p|..] else s
  }

  lemma StartsWithConcat(p: string, t: string)
    ensures StartsWith(p + t, p) && (p + t)[|p|..] == t
  {
    assert (p + t)[..|p|] == p;
  }

  // ── Sequences ──────────────────────────────────────────────────────────────

  lemma Reassociate<T>(a: seq<T>, b: seq<T>, c: seq<T>)
    ensures (a + b) + c == a + (b + c)
  {
  }

  /** The position of the first `x`, or the length. */
  function Index<T(==)>(s: seq<T>, x: T): (i: nat)
    ensures i <= |s|
    ensures i < |s| ==> s[i] == x
    ensures forall k :: 0 <= k < i ==> s[k] != x
  {
    if s == [] || s[0] == x then 0 else 1 + Index(s[1..], x)
  }

  /** The position of the last `x`, or -1. */
  function LastIndex<T(==)>(s: seq<T>, x: T): (i: int)
    ensures -1 <= i < |s|
    ensures i >= 0 ==> s[i] == x
    ensures i == -1 <==> x !in s
    ensures forall k :: i < k < |s| ==> s[k] != x
  {
    if s == [] then -1 else if s[|s| - 1] == x then |s| - 1 else LastIndex(s[..|s| - 1], x)
  }

  lemma IndexIs<T>(s: seq<T>, x: T, i: nat)
    requires i <= |s| && (i < |s| ==> s[i] == x) && forall k :: 0 <= k < i ==> s[k] != x
    ensures Index(s, x) == i
  {
  }

  lemma LastIndexIs<T>(s: seq<T>, x: T, i: nat)
    requires i < |s| && s[i] == x && forall k :: i < k < |s| ==> s[k] != x
    ensures LastIndex(s, x) == i
  {
  }

  function Concat<T>(pieces: seq<seq<T>>): seq<T> {
    if pieces == [] then [] else pieces[0] + Concat(pieces[1..])
  }

  lemma {:induction false} ConcatSnoc<T>(pieces: seq<seq<T>>, p: seq<T>)
    ensures Concat(pieces + [p]) == Concat(pieces) + p
  {
    if pieces == [] {
      assert pieces + [p] == [p] && [p][1..] == [];
    } else {
      ConcatSnoc(pieces[1..], p);
      assert (pieces + [p])[1..] == pieces[1..] + [p];
    }
  }

  // ── Whitespace ─────────────────────────────────────────────────────────────

  /** Unicode White_Space, the set Rust's `trim` removes. */
  predicate IsWhitespace(c: char) {
    var n := c as int;
    || 0x9 <= n <= 0xD || n == 0x20 || n == 0x85 || n == 0xA0 || n == 0x1680
    || 0x2000 <= n <= 0x200A || n == 0x2028 || n == 0x2029 || n == 0x202F || n == 0x205F || n == 0x3000
  }

  function TrimStart(s: string): string {
    if s != "" && IsWhitespace(s[0]) then TrimStart(s[1..]) else s
  }

  function TrimEnd(s: string): string {
    if s != "" && IsWhitespace(s[|s| - 1]) then TrimEnd(s[..|s| - 1]) else s
  }

  function Trim(s: string): string {
    TrimEnd(TrimStart(s))
  }

  predicate IsBlank(s: string) {
    forall i :: 0 <= i < |s| ==> IsWhitespace(s[i])
  }

  /** Whitespace around a text that has none at its ends is trimmed away. */
  lemma {:induction false} TrimMargins(lead: string, s: string, trail: string)
    requires IsBlank(lead) && IsBlank(trail)
    requires s != "" && !IsWhitespace(s[0]) && !IsWhitespace(s[|s| - 1])
    ensures Trim(lead + s + trail) == s
    decreases |lead| + |trail|
  {
    if lead != "" {
      assert (lead + s + trail)[1..] == lead[1..] + s + trail;
      TrimMargins(lead[1..], s, trail);
    } else {
      assert lead + s + trail == s + trail;
      TrimTrail(s, trail);
    }
  }

  lemma {:induction false} TrimTrail(s: string, trail: string)
    requires IsBlank(trail) && s != "" && !IsWhitespace(s[|s| - 1])
    ensures TrimEnd(s + trail) == s
  {
    if trail == "" {
      assert s + trail == s;
    } else {
      var n := |trail| - 1;
      assert (s + trail)[..|s + trail| - 1] == s + trail[..n];
      TrimTrail(s, trail[..n]);
    }
  }

  /** Trimming takes nothing but whitespace, at both ends. */
  lemma TrimParts(s: string) returns (lead: string, trail: string)
    ensures IsBlank(lead) && IsBlank(trail) && s == lead + Trim(s) + trail
  {
    lead := TrimStartPart(s);
    trail := TrimEndPart(TrimStart(s));
    Reassociate(lead, Trim(s), trail);
  }

  lemma {:induction false} TrimStartPart(s: string) returns (lead: string)
    ensures IsBlank(lead) && s == lead + TrimStart(s)
  {
    if s != "" && IsWhitespace(s[0]) {
      lead := TrimStartPart(s[1..]);
      lead := [s[0]] + lead;
    } else {
      lead := "";
    }
  }

  lemma {:induction false} TrimEndPart(s: string) returns (trail: string)
    ensures IsBlank(trail) && s == TrimEnd(s) + trail
  {
    if s != "" && IsWhitespace(s[|s| - 1]) {
      trail := TrimEndPart(s[..|s| - 1]);
      trail := trail + [s[|s| - 1]];
    } else {
      trail := "";
    }
  }

  /** A braced text is what is left of it, in any margins and with or without a prefix, after trimming and stripping. */
  lemma BracedSurvives(p: string, s: string, lead: string, trail: string)
    requires |s| > 1 && s[0] == '{' && s[|s| - 1] == '}' && p != "" && p[0] == 'A' && IsBlank(lead) && IsBlank(trail)
    ensures StripPrefix(Trim(lead + s + trail), p) == s && StripPrefix(Trim(lead + (p + s) + trail), p) == s
  {
    var t := p + s;
    assert t[0] == 'A' && t[|t| - 1] == '}';
    TrimMargins(lead, s, trail);
    TrimMargins(lead, t, trail);
    StartsWithConcat(p, s);
    assert !StartsWith(s, p);
  }

  // ── Order ──────────────────────────────────────────────────────────────────

  /** The order of strings: by code point, a proper prefix first. */
  predicate Before(a: string, b: string) {
    b != "" && (a == "" || a[0] < b[0] || (a[0] == b[0] && Before(a[1..], b[1..])))
  }

  lemma {:induction false} BeforeTotal(a: string, b: string)
    ensures a == b || Before(a, b) || Before(b, a)
    ensures !(Before(a, b) && Before(b, a)) && !Before(a, a)
  {
    if a != "" && b != "" {
      BeforeTotal(a[1..], b[1..]);
      assert a == [a[0]] + a[1..] && b == [b[0]] + b[1..];
    }
    if a != "" {
      BeforeTotal(a[1..], a[1..]);
    }
  }

  lemma {:induction false} BeforeTransitive(a: string, b: string, c: string)
    requires Before(a, b) && Before(b, c)
    ensures Before(a, c)
  {
    if a != "" && a[0] == b[0] == c[0] {
      BeforeTransitive(a[1..], b[1..], c[1..]);
    }
  }

  // ── Case ───────────────────────────────────────────────────────────────────

  function LowerChar(c: char): char {
    if 'A' <= c <= 'Z' then (c as int + 32) as char else c
  }

  /** ASCII lower-casing. */
  function Lower(s: string): (r: string)
    ensures |r| == |s|
    ensures forall i :: 0 <= i < |s| ==> r[i] == LowerChar(s[i])
  {
    seq(|s|, i requires 0 <= i < |s| => LowerChar(s[i]))
  }

  // ── Digits ─────────────────────────────────────────────────────────────────

  const HEX_DIGITS := "0123456789abcdef"

  function DigitChar(d: nat): char
    requires d < 16
  {
    HEX_DIGITS[d]
  }

  /** The value of a digit character, or 16 for a character that is no hexadecimal digit. */
  function DigitValue(c: char): (d: nat)
    ensures d <= 16
  {
    if '0' <= c <= '9' then c as int - '0' as int
    else if 'a' <= c <= 'f' then c as int - 'a' as int + 10
    else if 'A' <= c <= 'F' then c as int - 'A' as int + 10
    else 16
  }

  lemma DigitCharValue(d: nat)
    requires d < 16
    ensures DigitValue(DigitChar(d)) == d
  {
  }

  predicate AllDigits(s: string, radix: nat) {
    forall i :: 0 <= i < |s| ==> DigitValue(s[i]) < radix
  }

  /** The number spelled by `s`, most significant digit first. */
  function Numeral(s: string, radix: nat): nat
    requires radix <= 16 && AllDigits(s, radix)
  {
    if s == "" then 0 else Numeral(s[..|s| - 1], radix) * radix + DigitValue(s[|s| - 1])
  }

  /** Rust's integer `Display`: decimal without leading zeros. */
  function Decimal(n: nat): (s: string)
    ensures s != ""
  {
    if n < 10 then [DigitChar(n)] else Decimal(n / 10) + [DigitChar(n % 10)]
  }

  /** Printing in decimal loses nothing, and adds no leading zero. */
  lemma {:induction false} DecimalRoundTrip(n: nat)
    ensures AllDigits(Decimal(n), 10) && Numeral(Decimal(n), 10) == n
    ensures |Decimal(n)| > 1 ==> Decimal(n)[0] != '0'
    ensures n > 0 ==> Decimal(n)[0] != '0'
  {
    if n < 10 {
      DigitCharValue(n);
      assert Decimal(n)[..0] == "";
    } else {
      DecimalRoundTrip(n / 10);
      DigitCharValue(n % 10);
      var s := Decimal(n);
      assert s[..|s| - 1] == Decimal(n / 10);
    }
  }

  const U64_LIMIT: nat := 0x1_0000_0000_0000_0000
  const U32_LIMIT: nat := 0x1_0000_0000

  /** `str::parse::<u64>()`: an optional `+`, at least one decimal digit, no overflow. */
  function ParseU64(s: string): (r: Option<nat>)
    ensures r.Some? ==> r.value < U64_LIMIT
  {
    var d := if StartsWith(s, "+") then s[1..] else s;
    if d != "" && AllDigits(d, 10) && Numeral(d, 10) < U64_LIMIT then Some(Numeral(d, 10)) else None
  }

  lemma ParseU64Decimal(n: nat)
    requires n < U64_LIMIT
    ensures ParseU64(Decimal(n)) == Some(n)
  {
    DecimalRoundTrip(n);
    assert DigitValue(Decimal(n)[0]) < 10;
  }

  // ── Splitting and joining ──────────────────────────────────────────────────

  /** `split(sep)`: always at least one piece. */
  function Split(s: string, sep: char): (r: seq<string>)
    ensures |r| > 0
  {
    if s == "" then [""]
    else if s[0] == sep then [""] + Split(s[1..], sep)
    else
      var r := Split(s[1..], sep);
      [[s[0]] + r[0]] + r[1..]
  }

  function Join(parts: seq<string>, sep: char): string
    requires |parts| > 0
  {
    if |parts| == 1 then parts[0] else parts[0] + [sep] + Join(parts[1..], sep)
  }

  /** Splitting undoes joining exactly when no piece holds the separator. */
  lemma {:induction false} SplitJoin(parts: seq<string>, sep: char)
    requires |parts| > 0
    requires forall i :: 0 <= i < |parts| ==> sep !in parts[i]
    ensures Split(Join(parts, sep), sep) == parts
  {
    var p, s := parts[0], Join(parts, sep);
    if |parts| == 1 {
      SplitPlain(p, sep);
      assert parts == [p];
    } else {
      var t := Join(parts[1..], sep);
      SplitAtSeparator(p, t, sep);
      assert s == p + ([sep] + t);
      SplitJoin(parts[1..], sep);
      assert parts == [p] + parts[1..];
    }
  }

  lemma {:induction false} SplitPlain(p: string, sep: char)
    requires sep !in p
    ensures Split(p, sep) == [p]
  {
    if p != "" {
      SplitPlain(p[1..], sep);
      assert [p[0]] + p[1..] == p;
    }
  }

  lemma {:induction false} SplitAtSeparator(p: string, t: string, sep: char)
    requires sep !in p
    ensures Split(p + ([sep] + t), sep) == [p] + Split(t, sep)
  {
    var s := p + ([sep] + t);
    if p == "" {
      assert s[1..] == t;
    } else {
      assert s[1..] == p[1..] + ([sep] + t);
      SplitAtSeparator(p[1..], t, sep);
      assert [p[0]] + p[1..] == p;
    }
  }

  /** Joining undoes splitting, and no piece holds the separator. */
  lemma {:induction false} JoinSplit(s: string, sep: char)
    ensures Join(Split(s, sep), sep) == s
    ensures forall i :: 0 <= i < |Split(s, sep)| ==> sep !in Split(s, sep)[i]
  {
    if s != "" {
      JoinSplit(s[1..], sep);
      var r := Split(s[1..], sep);
      if s[0] == sep {
        assert ([""] + r)[1..] == r;
      } else {
        var q := [[s[0]] + r[0]] + r[1..];
        assert q[1..] == r[1..];
      }
      assert s == [s[0]] + s[1..];
    }
  }
}
