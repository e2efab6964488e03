/**
 JSON text (RFC 8259): the compact printer the sources rely on, and an independent
 recursive-descent reader of the whole grammar, proved to undo it.

 Numbers are kept as their tokens.
 */
module Json {
  import opened Text

  datatype Json =
    | Null
    | Bool(b: bool)
    | Num(token: string)
    | Str(s: string)
    | Arr(elems: seq<Json>)
    | Obj(members: seq<Member>)

  datatype Member = Member(key: string, value: Json)

  /** The value under a key; a repeated key keeps its last value. */
  function Get(ms: seq<Member>, key: string): Option<Json> {
    if ms == [] then None
    else
      var m := ms[|ms| - 1];
      if m.key == key then Some(m.value) else Get(ms[..|ms| - 1], key)
  }

  /** The last member under a key has this value. */
  ghost predicate Has(ms: seq<Member>, key: string, j: Json) {
    exists i {:trigger ms[i]} ::
      0 <= i < |ms| && ms[i] == Member(key, j) && forall k :: i < k < |ms| ==> ms[k].key != key
  }

  lemma {:induction false} GetIff(ms: seq<Member>, key: string, j: Json)
    ensures Get(ms, key) == Some(j) <==> Has(ms, key, j)
  {
    if ms != [] {
      var n := |ms| - 1;
      var init := ms[..n];
      GetIff(init, key, j);
      if ms[n].key != key {
        assert forall i :: 0 <= i < n ==> init[i] == ms[i];
        if Has(init, key, j) {
          var i :| 0 <= i < n && init[i] == Member(key, j) && forall k :: i < k < n ==> init[k].key != key;
          assert ms[i] == Member(key, j) && forall k :: i < k < |ms| ==> ms[k].key != key;
        }
        if Has(ms, key, j) {
          var i :| 0 <= i < |ms| && ms[i] == Member(key, j) && forall k :: i < k < |ms| ==> ms[k].key != key;
          assert init[i] == Member(key, j) && forall k :: i < k < n ==> init[k].key != key;
        }
      }
    }
  }

  // ── Printing ───────────────────────────────────────────────────────────────

  /** One character of a string literal, as `write_json_str` emits it. */
  function EscapeChar(c: char): (r: string)
    ensures r != ""
  {
    if c == '"' then "\\\""
    else if c == '\\' then "\\\\"
    else if c == '\n' then "\\n"
    else if c == '\r' then "\\r"
    else if c == '\t' then "\\t"
    else if c as int < 0x20 then "\\u00" + [DigitChar(c as int / 16), DigitChar(c as int % 16)]
    else [c]
  }

  function Escape(s: string): string {
    if s == "" then "" else EscapeChar(s[0]) + Escape(s[1..])
  }

  /** A string literal with its quotes. */
  function Quote(s: string): string {
    "\"" + Escape(s) + "\""
  }

  function Print(j: Json): string {
    match j
    case Null => "null"
    case Bool(b) => if b then "true" else "false"
    case Num(token) => token
    case Str(s) => Quote(s)
    case Arr(es) => "[" + PrintElems(es) + "]"
    case Obj(ms) => "{" + PrintMembers(ms) + "}"
  }

  function PrintElems(es: seq<Json>): string {
    if es == [] then ""
    else if |es| == 1 then Print(es[0])
    else Print(es[0]) + "," + PrintElems(es[1..])
  }

  function PrintMember(m: Member): string {
    Quote(m.key) + ":" + Print(m.value)
  }

  function PrintMembers(ms: seq<Member>): string {
    if ms == [] then ""
    else if |ms| == 1 then PrintMember(ms[0])
    else PrintMember(ms[0]) + "," + PrintMembers(ms[1..])
  }

  // ── Numbers (section 6) ────────────────────────────────────────────────────

  predicate IsDigit(c: char) {
    '0' <= c <= '9'
  }

  predicate IsNumChar(c: char) {
    IsDigit(c) || c == '-' || c == '+' || c == '.' || c == 'e' || c == 'E'
  }

  function SkipDigits(s: string): (r: string)
    ensures |r| <= |s|
    ensures AllNumChars(s) ==> AllNumChars(r)
  {
    if s != "" && IsDigit(s[0]) then SkipDigits(s[1..]) else s
  }

  predicate AllNumChars(s: string) {
    forall i :: 0 <= i < |s| ==> IsNumChar(s[i])
  }

  /** `[ "e" / "E" [ "-" / "+" ] 1*DIGIT ]`, the whole of `s` */
  predicate IsExponent(s: string) {
    s == "" || (
      && (s[0] == 'e' || s[0] == 'E')
      && var d := if |s| > 1 && (s[1] == '-' || s[1] == '+') then s[2..] else s[1..];
         d != "" && SkipDigits(d) == ""
    )
  }

  /** `[ "." 1*DIGIT ] [ exp ]` */
  predicate IsFraction(s: string) {
    if s != "" && s[0] == '.' then
      |s| > 1 && IsDigit(s[1]) && IsExponent(SkipDigits(s[1..]))
    else
      IsExponent(s)
  }

  /** `number = [ "-" ] int [ frac ] [ exp ]`, with `int` zero or a numeral without leading zero */
  predicate IsNumber(s: string) {
    var d := if s != "" && s[0] == '-' then s[1..] else s;
    && AllNumChars(s)
    && d != "" && IsDigit(d[0])
    && IsFraction(if d[0] == '0' then d[1..] else SkipDigits(d))
  }

  /** The longest run of number characters at the front. */
  function NumberRun(s: string): (n: nat)
    ensures n <= |s|
    ensures AllNumChars(s[..n])
    ensures n < |s| ==> !IsNumChar(s[n])
  {
    if s == "" || !IsNumChar(s[0]) then 0
    else
      var n := NumberRun(s[1..]);
      assert s[..n + 1] == [s[0]] + s[1..][..n];
      n + 1
  }

  // ── Reading ────────────────────────────────────────────────────────────────

  function SkipWs(s: string): (r: string)
    ensures |r| <= |s|
  {
    if s != "" && (s[0] == ' ' || s[0] == '\t' || s[0] == '\n' || s[0] == '\r') then SkipWs(s[1..]) else s
  }

  /** Four hexadecimal digits. */
  function Hex4(s: string): (r: Option<nat>)
    requires |s| >= 4
    ensures r.Some? ==> r.value < 0x10000
  {
    var a, b, c, d := DigitValue(s[0]), DigitValue(s[1]), DigitValue(s[2]), DigitValue(s[3]);
    if a < 16 && b < 16 && c < 16 && d < 16 then Some(((a * 16 + b) * 16 + c) * 16 + d) else None
  }

  predicate IsScalar(n: int) {
    0 <= n < 0xD800 || 0xE000 <= n < 0x11_0000
  }

  /** The character a two-character escape stands for (section 7). */
  function ShortEscape(c: char): Option<char> {
    if c == '"' || c == '\\' || c == '/' then Some(c)
    else if c == 'b' then Some('\U{0008}')
    else if c == 'f' then Some('\U{000C}')
    else if c == 'n' then Some('\n')
    else if c == 'r' then Some('\r')
    else if c == 't' then Some('\t')
    else None
  }

  /**
   One `\u` escape, `s` starting just after the `u`: a scalar value, or a surrogate pair.
   The result is the character and the number of input characters used.
   */
  function UnicodeEscape(s: string): (r: Option<(char, nat)>)
    ensures r.Some? ==> 4 <= r.value.1 <= |s|
  {
    if |s| < 4 || Hex4(s).None? then None
    else
      var hi := Hex4(s).value;
      if IsScalar(hi) then Some((hi as char, 4))
      else if 0xD800 <= hi < 0xDC00 && |s| >= 10 && s[4] == '\\' && s[5] == 'u' && Hex4(s[6..]).Some? then
        var lo := Hex4(s[6..]).value;
        if 0xDC00 <= lo < 0xE000 then
          Some(((0x10000 + (hi - 0xD800) * 0x400 + (lo - 0xDC00)) as char, 10))
        else None
      else None
  }

  /** The rest of a string literal after its opening quote. */
  function ParseChars(s: string): (r: Option<(string, string)>)
    ensures r.Some? ==> |r.value.1| < |s|
    decreases |s|
  {
    if s == "" then None
    else if s[0] == '"' then Some(("", s[1..]))
    else if s[0] as int < 0x20 then None
    else if s[0] != '\\' then Prepend(s[0], ParseChars(s[1..]))
    else if |s| < 2 then None
    else if s[1] == 'u' then
      match UnicodeEscape(s[2..])
      case None => None
      case Some((c, used)) => Prepend(c, ParseChars(s[2 + used..]))
    else
      match ShortEscape(s[1])
      case None => None
      case Some(c) => Prepend(c, ParseChars(s[2..]))
  }

  function Prepend(c: char, r: Option<(string, string)>): Option<(string, string)> {
    match r
    case None => None
    case Some((v, rest)) => Some(([c] + v, rest))
  }

  /** A value with the input that follows it. */
  function ParseValue(s: string): (r: Option<(Json, string)>)
    ensures r.Some? ==> |r.value.1| < |s|
    decreases |s|, 1
  {
    var t := SkipWs(s);
    if t == "" then None
    else if t[0] == '"' then
      match ParseChars(t[1..])
      case None => None
      case Some((v, rest)) => Some((Str(v), rest))
    else if t[0] == '[' then
      var u := SkipWs(t[1..]);
      if u != "" && u[0] == ']' then Some((Arr([]), u[1..]))
      else
        match ParseElems(u)
        case None => None
        case Some((es, rest)) => Some((Arr(es), rest))
    else if t[0] == '{' then
      var u := SkipWs(t[1..]);
      if u != "" && u[0] == '}' then Some((Obj([]), u[1..]))
      else
        match ParseMembers(u)
        case None => None
        case Some((ms, rest)) => Some((Obj(ms), rest))
    else if t[0] == 'n' then if StartsWith(t, "null") then Some((Null, t[4..])) else None
    else if t[0] == 't' then if StartsWith(t, "true") then Some((Bool(true), t[4..])) else None
    else if t[0] == 'f' then if StartsWith(t, "false") then Some((Bool(false), t[5..])) else None
    else
      var n := NumberRun(t);
      if IsNumber(t[..n]) then Some((Num(t[..n]), t[n..])) else None
  }

  /** Array elements up to and including the closing bracket. */
  function ParseElems(s: string): (r: Option<(seq<Json>, string)>)
    ensures r.Some? ==> |r.value.1| < |s|
    decreases |s|, 2
  {
    match ParseValue(s)
    case None => None
    case Some((v, r1)) =>
      var r2 := SkipWs(r1);
      if r2 != "" && r2[0] == ']' then Some(([v], r2[1..]))
      else if r2 != "" && r2[0] == ',' then
        match ParseElems(r2[1..])
        case None => None
        case Some((vs, rest)) => Some(([v] + vs, rest))
      else None
  }

  /** Object members up to and including the closing brace. */
  function ParseMembers(s: string): (r: Option<(seq<Member>, string)>)
    ensures r.Some? ==> |r.value.1| < |s|
    decreases |s|, 2
  {
    var t := SkipWs(s);
    if t == "" || t[0] != '"' then None
    else
      match ParseChars(t[1..])
      case None => None
      case Some((key, r1)) =>
        var r2 := SkipWs(r1);
        if r2 == "" || r2[0] != ':' then None
        else
          match ParseValue(r2[1..])
          case None => None
          case Some((v, r3)) =>
            var r4 := SkipWs(r3);
            if r4 != "" && r4[0] == '}' then Some(([Member(key, v)], r4[1..]))
            else if r4 != "" && r4[0] == ',' then
              match ParseMembers(r4[1..])
              case None => None
              case Some((ms, rest)) => Some(([Member(key, v)] + ms, rest))
            else None
  }

  /** A whole document. */
  function Parse(s: string): Option<Json> {
    match ParseValue(s)
    case None => None
    case Some((j, rest)) => if SkipWs(rest) == "" then Some(j) else None
  }

  // ── Round trip ─────────────────────────────────────────────────────────────

  /** Every number token obeys the number grammar. */
  predicate Valid(j: Json) {
    match j
    case Num(token) => IsNumber(token)
    case Arr(es) => forall i :: 0 <= i < |es| ==> Valid(es[i])
    case Obj(ms) => forall i :: 0 <= i < |ms| ==> Valid(ms[i].value)
    case _ => true
  }

  /** What may follow a value without extending it. */
  predicate Ends(rest: string) {
    rest == "" || !IsNumChar(rest[0])
  }

  lemma ParseEscapedChar(c: char, rest: string)
    ensures ParseChars(EscapeChar(c) + rest) == Prepend(c, ParseChars(rest))
  {
    var e := EscapeChar(c);
    var s := e + rest;
    assert s[|e|..] == rest;
    if c != '"' && c != '\\' && c != '\n' && c != '\r' && c != '\t' && c as int < 0x20 {
      DigitCharValue(c as int / 16);
      DigitCharValue(c as int % 16);
      assert s[2..][4..] == rest;
      assert Hex4(s[2..]) == Some(c as int);
    }
  }

  /** Reading an escaped string literal yields the string and leaves what follows. */
  lemma {:induction false} ParseEscaped(v: string, rest: string)
    ensures ParseChars(Escape(v) + "\"" + rest) == Some((v, rest))
  {
    if v == "" {
      assert Escape(v) + "\"" + rest == "\"" + rest;
    } else {
      var tail := Escape(v[1..]) + "\"" + rest;
      ParseEscaped(v[1..], rest);
      assert ParseChars(EscapeChar(v[0]) + tail) == Some((v, rest)) by {
        ParseEscapedChar(v[0], tail);
        assert [v[0]] + v[1..] == v;
      }
      assert Escape(v) + "\"" + rest == EscapeChar(v[0]) + tail by {
        Reassociate(EscapeChar(v[0]), Escape(v[1..]), "\"");
        Reassociate(EscapeChar(v[0]), Escape(v[1..]) + "\"", rest);
      }
    }
  }

  lemma {:induction false} NumberRunAt(token: string, rest: string)
    requires AllNumChars(token) && Ends(rest)
    ensures NumberRun(token + rest) == |token|
  {
    if token == "" {
      assert token + rest == rest;
    } else {
      assert (token + rest)[1..] == token[1..] + rest;
      NumberRunAt(token[1..], rest);
    }
  }

  lemma ParseNumber(token: string, rest: string)
    requires IsNumber(token) && Ends(rest)
    ensures ParseValue(token + rest) == Some((Num(token), rest))
  {
    var s := token + rest;
    assert s[0] == token[0] && IsNumChar(token[0]);
    assert SkipWs(s) == s;
    NumberRunAt(token, rest);
    assert s[..|token|] == token && s[|token|..] == rest;
  }

  lemma ParseString(v: string, rest: string)
    ensures ParseValue(Quote(v) + rest) == Some((Str(v), rest))
  {
    var s := Quote(v) + rest;
    assert s[0] == '"';
    assert s[1..] == Escape(v) + "\"" + rest;
    ParseEscaped(v, rest);
  }

  lemma ParseWord(w: string, rest: string)
    requires w == "null" || w == "true" || w == "false"
    ensures ParseValue(w + rest) ==
            Some((if w == "null" then Null else Bool(w == "true"), rest))
  {
    var s := w + rest;
    StartsWithConcat(w, rest);
    assert s[0] == w[0];
    assert SkipWs(s) == s;
  }

  /** A printed value starts with a character that is neither whitespace nor a closing bracket. */
  lemma PrintStart(j: Json)
    requires Valid(j)
    ensures StartsToken(Print(j)) && Print(j)[0] != ']'
  {
  }

  lemma PrintElemsStart(es: seq<Json>)
    requires es != [] && Valid(es[0])
    ensures StartsToken(PrintElems(es)) && PrintElems(es)[0] != ']'
  {
    PrintStart(es[0]);
  }

  /** Reading a printed value yields it and leaves what follows. */
  lemma {:induction false} ParsePrint(j: Json, rest: string)
    requires Valid(j) && Ends(rest)
    ensures ParseValue(Print(j) + rest) == Some((j, rest))
    decreases j, 1
  {
    match j
    case Null => ParseWord("null", rest);
    case Bool(b) => ParseWord(if b then "true" else "false", rest);
    case Num(token) => ParseNumber(token, rest);
    case Str(v) => ParseString(v, rest);
    case Arr(es) =>
      if es != [] {
        ParsePrintElems(es, rest);
        PrintElemsStart(es);
      }
      ParseArray(es, PrintElems(es), rest);
    case Obj(ms) =>
      if ms != [] {
        ParsePrintMembers(ms, rest);
      }
      ParseObject(ms, PrintMembers(ms), rest);
  }

  predicate StartsToken(s: string) {
    s != "" && s[0] != ' ' && s[0] != '\t' && s[0] != '\n' && s[0] != '\r'
  }

  function MakeArr(r: Option<(seq<Json>, string)>): Option<(Json, string)> {
    match r case None => None case Some((es, rest)) => Some((Arr(es), rest))
  }

  function MakeObj(r: Option<(seq<Member>, string)>): Option<(Json, string)> {
    match r case None => None case Some((ms, rest)) => Some((Obj(ms), rest))
  }

  lemma OpenBracket(s: string, t: string)
    requires s != "" && s[0] == '[' && s[1..] == t && StartsToken(t)
    ensures ParseValue(s) == if t[0] == ']' then Some((Arr([]), t[1..])) else MakeArr(ParseElems(t))
  {
    assert SkipWs(s) == s && SkipWs(t) == t;
  }

  lemma OpenBrace(s: string, t: string)
    requires s != "" && s[0] == '{' && s[1..] == t && StartsToken(t)
    ensures ParseValue(s) == if t[0] == '}' then Some((Obj([]), t[1..])) else MakeObj(ParseMembers(t))
  {
    assert SkipWs(s) == s && SkipWs(t) == t;
  }

  /** The text inside a pair of brackets, seen from the opening one. */
  lemma Bracketed(open: string, body: string, close: string, rest: string)
    requires |open| == 1
    ensures (open + body + close) + rest == open + (body + (close + rest))
    ensures (open + (body + (close + rest)))[1..] == body + (close + rest)
  {
  }

  lemma ParseArray(es: seq<Json>, body: string, rest: string)
    requires body == PrintElems(es)
    requires es != [] ==> StartsToken(body) && body[0] != ']'
    requires es != [] ==> ParseElems(body + ("]" + rest)) == Some((es, rest))
    ensures ParseValue(Print(Arr(es)) + rest) == Some((Arr(es), rest))
  {
    Bracketed("[", body, "]", rest);
    var t := body + ("]" + rest);
    assert es == [] ==> t[1..] == rest;
    OpenBracket("[" + t, t);
  }

  lemma ParseObject(ms: seq<Member>, body: string, rest: string)
    requires body == PrintMembers(ms)
    requires ms != [] ==> body != "" && body[0] == '"'
    requires ms != [] ==> ParseMembers(body + ("}" + rest)) == Some((ms, rest))
    ensures ParseValue(Print(Obj(ms)) + rest) == Some((Obj(ms), rest))
  {
    Bracketed("{", body, "}", rest);
    var t := body + ("}" + rest);
    assert ms == [] ==> t[1..] == rest;
    OpenBrace("{" + t, t);
  }

  function ParseAfterElem(v: Json, r: string): Option<(seq<Json>, string)> {
    if r != "" && r[0] == ']' then Some(([v], r[1..]))
    else if r != "" && r[0] == ',' then
      match ParseElems(r[1..])
      case None => None
      case Some((vs, rest)) => Some(([v] + vs, rest))
    else None
  }

  lemma ParseElem(s: string, v: Json, after: string)
    requires ParseValue(s) == Some((v, after)) && SkipWs(after) == after
    ensures ParseElems(s) == ParseAfterElem(v, after)
  {
  }

  lemma LastElem(v: Json, rest: string)
    ensures ParseAfterElem(v, "]" + rest) == Some(([v], rest))
  {
    assert ("]" + rest)[1..] == rest;
  }

  lemma NextElem(v: Json, tail: string, vs: seq<Json>, rest: string)
    requires ParseElems(tail) == Some((vs, rest))
    ensures ParseAfterElem(v, "," + tail) == Some(([v] + vs, rest))
  {
    assert ("," + tail)[1..] == tail;
  }

  lemma ElemsGlue(a: string, b: string, end: string)
    ensures a + "," + b + end == a + ("," + (b + end))
  {
  }

  lemma ElemsLast(first: string, v: Json, rest: string)
    requires ParseValue(first + ("]" + rest)) == Some((v, "]" + rest))
    ensures ParseElems(first + ("]" + rest)) == Some(([v], rest))
  {
    ParseElem(first + ("]" + rest), v, "]" + rest);
    LastElem(v, rest);
  }

  lemma ElemsStep(first: string, v: Json, t: string, end: string, vs: seq<Json>, rest: string)
    requires ParseValue(first + ("," + (t + end))) == Some((v, "," + (t + end)))
    requires ParseElems(t + end) == Some((vs, rest))
    ensures ParseElems(first + "," + t + end) == Some(([v] + vs, rest))
  {
    ElemsGlue(first, t, end);
    ParseElem(first + ("," + (t + end)), v, "," + (t + end));
    NextElem(v, t + end, vs, rest);
  }

  lemma {:induction false} ParsePrintElems(es: seq<Json>, rest: string)
    requires es != [] && forall i :: 0 <= i < |es| ==> Valid(es[i])
    ensures ParseElems(PrintElems(es) + ("]" + rest)) == Some((es, rest))
    decreases es, 0
  {
    var v, end := es[0], "]" + rest;
    if |es| == 1 {
      ParsePrint(v, end);
      ElemsLast(Print(v), v, rest);
      assert es == [v];
    } else {
      var t := PrintElems(es[1..]);
      ParsePrintElems(es[1..], rest);
      ParsePrint(v, "," + (t + end));
      ElemsStep(Print(v), v, t, end, es[1..], rest);
      assert es == [v] + es[1..];
    }
  }

  /** Reading a key, its colon and the value after it, one member deep. */
  lemma ParseMemberAt(s: string, key: string, text: string)
    requires s != "" && s[0] == '"' && ParseChars(s[1..]) == Some((key, ":" + text))
    ensures ParseMembers(s) ==
            match ParseValue(text)
            case None => None
            case Some((v, r)) => ParseAfterMember(Member(key, v), SkipWs(r))
  {
    assert SkipWs(s) == s;
    assert (":" + text)[1..] == text;
    assert SkipWs(":" + text) == ":" + text;
  }

  lemma ParseMember(key: string, text: string)
    ensures ParseMembers(Quote(key) + ":" + text) ==
            match ParseValue(text)
            case None => None
            case Some((v, r)) => ParseAfterMember(Member(key, v), SkipWs(r))
  {
    var s := Quote(key) + ":" + text;
    QuotedKey(Escape(key), text);
    ParseEscaped(key, ":" + text);
    ParseMemberAt(s, key, text);
  }

  lemma QuotedKey(body: string, text: string)
    ensures var s := "\"" + body + "\"" + ":" + text;
            s[0] == '"' && s[1..] == body + "\"" + (":" + text)
  {
  }

  function ParseAfterMember(m: Member, r: string): Option<(seq<Member>, string)> {
    if r != "" && r[0] == '}' then Some(([m], r[1..]))
    else if r != "" && r[0] == ',' then
      match ParseMembers(r[1..])
      case None => None
      case Some((ms, rest)) => Some(([m] + ms, rest))
    else None
  }

  /** The text after the first of `ms`: `end`, or a comma and the other members. */
  function AfterMember(ms: seq<Member>, end: string): (r: string)
    requires ms != []
    ensures |ms| > 1 ==> r != "" && r[0] == ',' && r[1..] == PrintMembers(ms[1..]) + end
  {
    if |ms| == 1 then end else "," + (PrintMembers(ms[1..]) + end)
  }

  lemma Glue(q: string, v: string, t: string, end: string)
    ensures (q + ":" + v) + end == q + ":" + (v + end)
    ensures (q + ":" + v) + "," + t + end == q + ":" + (v + ("," + (t + end)))
  {
  }

  lemma PrintMembersSplit(ms: seq<Member>, end: string)
    requires ms != []
    ensures PrintMembers(ms) + end ==
            Quote(ms[0].key) + ":" + (Print(ms[0].value) + AfterMember(ms, end))
  {
    Glue(Quote(ms[0].key), Print(ms[0].value), PrintMembers(ms[1..]), end);
  }

  lemma MembersLast(key: string, value: string, v: Json, rest: string)
    requires ParseValue(value + ("}" + rest)) == Some((v, "}" + rest))
    ensures ParseMembers(Quote(key) + ":" + value + ("}" + rest)) == Some(([Member(key, v)], rest))
  {
    Glue(Quote(key), value, "", "}" + rest);
    ParseMember(key, value + ("}" + rest));
    assert ("}" + rest)[1..] == rest && SkipWs("}" + rest) == "}" + rest;
  }

  lemma MembersStep(key: string, value: string, v: Json, t: string, end: string, ms: seq<Member>, rest: string)
    requires ParseValue(value + ("," + (t + end))) == Some((v, "," + (t + end)))
    requires ParseMembers(t + end) == Some((ms, rest))
    ensures ParseMembers(Quote(key) + ":" + value + "," + t + end) == Some(([Member(key, v)] + ms, rest))
  {
    Glue(Quote(key), value, t, end);
    var after := "," + (t + end);
    ParseMember(key, value + after);
    assert after[1..] == t + end && SkipWs(after) == after;
  }

  lemma {:induction false} ParsePrintMembers(ms: seq<Member>, rest: string)
    requires ms != [] && forall i :: 0 <= i < |ms| ==> Valid(ms[i].value)
    ensures ParseMembers(PrintMembers(ms) + ("}" + rest)) == Some((ms, rest))
    decreases ms, 0
  {
    var m, end := ms[0], "}" + rest;
    if |ms| == 1 {
      ParsePrint(m.value, end);
      MembersLast(m.key, Print(m.value), m.value, rest);
      assert ms == [m];
    } else {
      var t := PrintMembers(ms[1..]);
      ParsePrintMembers(ms[1..], rest);
      ParsePrint(m.value, "," + (t + end));
      MembersStep(m.key, Print(m.value), m.value, t, end, ms[1..], rest);
      assert ms == [m] + ms[1..];
    }
  }

  /** The round trip: the reader gives back every printed document. */
  lemma ParsePrintDocument(j: Json)
    requires Valid(j)
    ensures Parse(Print(j)) == Some(j)
  {
    ParsePrint(j, "");
    assert Print(j) + "" == Print(j);
  }

  // ── Non-finite numbers ─────────────────────────────────────────────────────

  /** The `Display` spellings of the floats JSON has no number for. */
  predicate IsNonFinite(token: string) {
    token == "NaN" || token == "inf" || token == "-inf"
  }

  lemma ParseNonFinite(token: string, rest: string)
    requires IsNonFinite(token)
    ensures ParseValue(token + rest) == None
  {
    var s := token + rest;
    assert s[0] == token[0] && s[1] == token[1];
    assert SkipWs(s) == s;
    if token == "-inf" {
      assert s == "-" + s[1..];
      NumberRunAt("-", s[1..]);
      assert s[..1] == "-";
    }
  }

  /** A flat object whose first bad value is a non-finite number is not JSON. */
  lemma MembersBadFirst(ms: seq<Member>, rest: string)
    requires ms != [] && ms[0].value.Num? && IsNonFinite(ms[0].value.token)
    ensures ParseMembers(PrintMembers(ms) + rest) == None
  {
    var after := AfterMember(ms, rest);
    PrintMembersSplit(ms, rest);
    ParseNonFinite(ms[0].value.token, after);
    ParseMember(ms[0].key, ms[0].value.token + after);
  }

  lemma MembersBadLater(key: string, value: string, v: Json, t: string, rest: string)
    requires ParseValue(value + ("," + (t + rest))) == Some((v, "," + (t + rest)))
    requires ParseMembers(t + rest) == None
    ensures ParseMembers(Quote(key) + ":" + value + "," + t + rest) == None
  {
    Glue(Quote(key), value, t, rest);
    var after := "," + (t + rest);
    ParseMember(key, value + after);
    assert after[1..] == t + rest && SkipWs(after) == after;
  }

  lemma {:induction false} MembersWithNonFinite(ms: seq<Member>, bad: nat, rest: string)
    requires bad < |ms|
    requires forall i :: 0 <= i < bad ==> Valid(ms[i].value)
    requires ms[bad].value.Num? && IsNonFinite(ms[bad].value.token)
    ensures ParseMembers(PrintMembers(ms) + rest) == None
  {
    if bad == 0 {
      MembersBadFirst(ms, rest);
    } else {
      var m, t := ms[0], PrintMembers(ms[1..]);
      MembersWithNonFinite(ms[1..], bad - 1, rest);
      ParsePrint(m.value, "," + (t + rest));
      MembersBadLater(m.key, Print(m.value), m.value, t, rest);
    }
  }

  lemma ObjectWithNonFinite(ms: seq<Member>, bad: nat)
    requires bad < |ms|
    requires forall i :: 0 <= i < bad ==> Valid(ms[i].value)
    requires ms[bad].value.Num? && IsNonFinite(ms[bad].value.token)
    ensures Parse(Print(Obj(ms))) == None
  {
    MembersWithNonFinite(ms, bad, "}");
    var t := PrintMembers(ms) + "}";
    assert Print(Obj(ms))[1..] == t;
    assert t[0] == '"';
    OpenBrace(Print(Obj(ms)), t);
  }

  // ── Decimal numbers are JSON numbers ───────────────────────────────────────

  lemma {:induction false} SkipAllDigits(s: string)
    requires forall i :: 0 <= i < |s| ==> IsDigit(s[i])
    ensures SkipDigits(s) == ""
  {
    if s != "" {
      SkipAllDigits(s[1..]);
    }
  }

  lemma {:induction false} DecimalIsDigits(n: nat)
    ensures forall i :: 0 <= i < |Decimal(n)| ==> IsDigit(Decimal(n)[i])
  {
    if n >= 10 {
      DecimalIsDigits(n / 10);
    }
  }

  lemma DecimalIsNumber(n: nat)
    ensures IsNumber(Decimal(n))
  {
    DecimalIsDigits(n);
    DecimalRoundTrip(n);
    SkipAllDigits(Decimal(n));
    var s := Decimal(n);
    assert IsDigit(s[0]);
    if s[0] == '0' {
      assert s[1..] == "";
    }
  }

  // ── The appending writers ──────────────────────────────────────────────────

  /** `write_json_str`: append `value` as a string literal. */
  method WriteJsonStr(out: string, value: string) returns (r: string)
    ensures r == out + Quote(value)
  {
    r := out + "\"";
    ghost var start := r;
    for i := 0 to |value|
      invariant r == start + Escape(value[..i])
    {
      EscapeSnoc(value[..i], value[i]);
      assert value[..i + 1] == value[..i] + [value[i]];
      Reassociate(start, Escape(value[..i]), EscapeChar(value[i]));
      r := r + EscapeChar(value[i]);
    }
    assert value[..|value|] == value;
    Requote(out, Escape(value));
    r := r + "\"";
  }

  predicate Plain(s: string) {
    forall i :: 0 <= i < |s| ==> 'a' <= s[i] <= 'z' || 'A' <= s[i] <= 'Z' || s[i] == '_'
  }

  lemma {:induction false} EscapePlain(s: string)
    requires Plain(s)
    ensures Escape(s) == s
  {
    if s != "" {
      EscapePlain(s[1..]);
      assert [s[0]] + s[1..] == s;
    }
  }

  lemma Requote(out: string, body: string)
    ensures out + "\"" + body + "\"" == out + ("\"" + body + "\"")
  {
  }

  lemma {:induction false} EscapeSnoc(s: string, c: char)
    ensures Escape(s + [c]) == Escape(s) + EscapeChar(c)
  {
    if s == "" {
      assert s + [c] == [c] && [c][1..] == "";
      assert EscapeChar(c) + "" == EscapeChar(c) == "" + EscapeChar(c);
    } else {
      EscapeSnoc(s[1..], c);
      assert (s + [c])[1..] == s[1..] + [c];
      Reassociate(EscapeChar(s[0]), Escape(s[1..]), EscapeChar(c));
    }
  }

  /** No control character survives escaping. */
  lemma {:induction false} EscapeHasNoControls(s: string)
    ensures forall i :: 0 <= i < |Escape(s)| ==> Escape(s)[i] as int >= 0x20
  {
    if s != "" {
      EscapeHasNoControls(s[1..]);
    }
  }
}
