/** UTF-8 (RFC 3629): the encoder behind `as_bytes` and the strict reader behind `from_utf8`. */
module Utf8 {
  import opened Text

  type byte = x: int | 0 <= x < 256

  const NEWLINE: byte := 0x0A

  function EncodeChar(c: char): (r: seq<byte>)
    ensures 1 <= |r| <= 4
    ensures forall i :: 0 <= i < |r| && r[i] < 0x80 ==> r == [c as int]
  {
    var n := c as int;
    if n < 0x80 then [n]
    else if n < 0x800 then [0xC0 + n / 0x40, 0x80 + n % 0x40]
    else if n < 0x1_0000 then [0xE0 + n / 0x1000, 0x80 + n / 0x40 % 0x40, 0x80 + n % 0x40]
    else [0xF0 + n / 0x4_0000, 0x80 + n / 0x1000 % 0x40, 0x80 + n / 0x40 % 0x40, 0x80 + n % 0x40]
  }

  function Encode(s: string): seq<byte> {
    if s == "" then [] else EncodeChar(s[0]) + Encode(s[1..])
  }

  /** The payload of a continuation byte, or 0x40 for any other byte. */
  function Continuation(b: byte): nat {
    if 0x80 <= b < 0xC0 then b - 0x80 else 0x40
  }

  /** The first character of `bs` and how many bytes spell it: shortest form, no surrogates. */
  function DecodeChar(bs: seq<byte>): (r: Option<(char, nat)>)
    ensures r.Some? ==> 1 <= r.value.1 <= |bs|
  {
    if bs == [] then None
    else
      var a := bs[0];
      var x := if |bs| > 1 then Continuation(bs[1]) else 0x40;
      var y := if |bs| > 2 then Continuation(bs[2]) else 0x40;
      var z := if |bs| > 3 then Continuation(bs[3]) else 0x40;
      if a < 0x80 then Some((a as char, 1))
      else if 0xC2 <= a < 0xE0 && x < 0x40 then Some((((a - 0xC0) * 0x40 + x) as char, 2))
      else if 0xE0 <= a < 0xF0 && x < 0x40 && y < 0x40 then
        var n := (a - 0xE0) * 0x1000 + x * 0x40 + y;
        if 0x800 <= n < 0xD800 || 0xE000 <= n then Some((n as char, 3)) else None
      else if 0xF0 <= a < 0xF5 && x < 0x40 && y < 0x40 && z < 0x40 then
        var n := (a - 0xF0) * 0x4_0000 + x * 0x1000 + y * 0x40 + z;
        if 0x1_0000 <= n < 0x11_0000 then Some((n as char, 4)) else None
      else None
  }

  function Decode(bs: seq<byte>): Option<string>
    decreases |bs|
  {
    if bs == [] then Some("")
    else
      match DecodeChar(bs)
      case None => None
      case Some((c, used)) =>
        match Decode(bs[used..])
        case None => None
        case Some(s) => Some([c] + s)
  }

  lemma SplitDigits(n: nat)
    ensures n == n / 0x40 * 0x40 + n % 0x40
    ensures n == n / 0x1000 * 0x1000 + n / 0x40 % 0x40 * 0x40 + n % 0x40
    ensures n == n / 0x4_0000 * 0x4_0000 + n / 0x1000 % 0x40 * 0x1000 + n / 0x40 % 0x40 * 0x40 + n % 0x40
  {
    assert n / 0x1000 == n / 0x40 / 0x40;
    assert n / 0x4_0000 == n / 0x1000 / 0x40;
  }

  lemma DecodeEncodedChar(c: char, rest: seq<byte>)
    ensures DecodeChar(EncodeChar(c) + rest) == Some((c, |EncodeChar(c)|))
  {
    SplitDigits(c as int);
    var e := EncodeChar(c);
    var bs := e + rest;
    assert bs[0] == e[0];
    assert |e| > 1 ==> bs[1] == e[1];
    assert |e| > 2 ==> bs[2] == e[2];
    assert |e| > 3 ==> bs[3] == e[3];
  }

  /** Every string survives encoding. */
  lemma {:induction false} DecodeEncode(s: string)
    ensures Decode(Encode(s)) == Some(s)
  {
    if s != "" {
      var e := EncodeChar(s[0]);
      DecodeEncodedChar(s[0], Encode(s[1..]));
      assert (e + Encode(s[1..]))[|e|..] == Encode(s[1..]);
      DecodeEncode(s[1..]);
      assert [s[0]] + s[1..] == s;
    }
  }

  lemma EncodeTwo(a: nat, x: nat)
    requires 2 <= a < 0x20 && x < 0x40
    ensures EncodeChar((a * 0x40 + x) as char) == [0xC0 + a, 0x80 + x]
  {
    var n := a * 0x40 + x;
    assert n / 0x40 == a && n % 0x40 == x;
  }

  lemma EncodeThree(a: nat, x: nat, y: nat)
    requires a < 0x10 && x < 0x40 && y < 0x40
    requires var n := a * 0x1000 + x * 0x40 + y; 0x800 <= n < 0xD800 || 0xE000 <= n
    ensures EncodeChar((a * 0x1000 + x * 0x40 + y) as char) == [0xE0 + a, 0x80 + x, 0x80 + y]
  {
    var n := a * 0x1000 + x * 0x40 + y;
    assert n / 0x40 == a * 0x40 + x && n % 0x40 == y;
    assert n / 0x1000 == a && n / 0x40 % 0x40 == x;
  }

  lemma EncodeFour(a: nat, x: nat, y: nat, z: nat)
    requires a < 5 && x < 0x40 && y < 0x40 && z < 0x40
    requires 0x1_0000 <= a * 0x4_0000 + x * 0x1000 + y * 0x40 + z < 0x11_0000
    ensures EncodeChar((a * 0x4_0000 + x * 0x1000 + y * 0x40 + z) as char) == [0xF0 + a, 0x80 + x, 0x80 + y, 0x80 + z]
  {
    var n := a * 0x4_0000 + x * 0x1000 + y * 0x40 + z;
    assert n / 0x40 == a * 0x1000 + x * 0x40 + y && n % 0x40 == z;
    assert n / 0x1000 == a * 0x40 + x;
    assert n / 0x4_0000 == a && n / 0x1000 % 0x40 == x && n / 0x40 % 0x40 == y;
  }

  /** The bytes read for a character are its encoding. */
  lemma ReadIsEncoding(bs: seq<byte>)
    requires DecodeChar(bs).Some?
    ensures var (c, used) := DecodeChar(bs).value; EncodeChar(c) == bs[..used]
  {
    var a, used := bs[0], DecodeChar(bs).value.1;
    if a < 0x80 {
      assert bs[..1] == [a];
    } else if a < 0xE0 {
      EncodeTwo(a - 0xC0, bs[1] - 0x80);
      assert bs[..2] == [a, bs[1]];
    } else if a < 0xF0 {
      EncodeThree(a - 0xE0, bs[1] - 0x80, bs[2] - 0x80);
      assert bs[..3] == [a, bs[1], bs[2]];
    } else {
      EncodeFour(a - 0xF0, bs[1] - 0x80, bs[2] - 0x80, bs[3] - 0x80);
      assert bs[..4] == [a, bs[1], bs[2], bs[3]];
    }
  }

  lemma EncodeCons(c: char, rest: string)
    ensures Encode([c] + rest) == EncodeChar(c) + Encode(rest)
  {
    assert ([c] + rest)[1..] == rest;
  }

  lemma FirstDecoded(bs: seq<byte>) returns (c: char, tail: seq<byte>)
    requires bs != [] && Decode(bs).Some?
    ensures bs == EncodeChar(c) + tail && |tail| < |bs|
    ensures Decode(tail).Some? && Decode(bs).value == [c] + Decode(tail).value
  {
    ReadIsEncoding(bs);
    c, tail := DecodeChar(bs).value.0, bs[DecodeChar(bs).value.1..];
  }

  lemma {:induction false} EncodeDecoded(bs: seq<byte>)
    requires Decode(bs).Some?
    ensures Encode(Decode(bs).value) == bs
    decreases |bs|
  {
    if bs != [] {
      var c, tail := FirstDecoded(bs);
      EncodeDecoded(tail);
      EncodeCons(c, Decode(tail).value);
    }
  }

  /** Bytes are read as a text if and only if they are its encoding: no other spelling is tolerated. */
  lemma DecodesIff(bs: seq<byte>, s: string)
    ensures Decode(bs) == Some(s) <==> bs == Encode(s)
  {
    DecodeEncode(s);
    if Decode(bs).Some? {
      EncodeDecoded(bs);
    }
  }

  /** A byte below 0x80 in an encoding is one of the string's own ASCII characters. */
  lemma {:induction false} EncodeAscii(s: string, i: nat)
    requires i < |Encode(s)| && Encode(s)[i] < 0x80
    ensures Encode(s)[i] as char in s
  {
    var e := EncodeChar(s[0]);
    if i < |e| {
      assert Encode(s)[i] == e[i];
    } else {
      assert Encode(s)[i] == Encode(s[1..])[i - |e|];
      EncodeAscii(s[1..], i - |e|);
    }
  }
}
