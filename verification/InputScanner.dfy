/**
 The operator-to-agent half of the wire protocol: the kernel's field scanner, which finds a key by
 substring search and never parses the object around it.
 */
module InputScanner {
  import opened Text
  import opened Json
  import opened Priorities

  datatype OperatorInput = OperatorInput(
    text: string,
    priority: Priority,
    messageId: Option<string>,
    replyTo: Option<string>,
    force: Option<string>)

  // ── The scanner ────────────────────────────────────────────────────────────

  function Needle(key: string): string {
    "\"" + key + "\""
  }

  /** What follows the first occurrence of `needle` in `s`. */
  function AfterFirst(s: string, needle: string): Option<string> {
    if StartsWith(s, needle) then Some(s[|needle|..])
    else if s == "" then None
    else AfterFirst(s[1..], needle)
  }

  /** `AfterFirst` cuts at the leftmost occurrence, and finds one whenever there is one. */
  lemma {:induction false} AfterFirstIsLeftmost(s: string, needle: string, p: nat)
    requires p <= |s| && StartsWith(s[p..], needle)
    requires forall q :: 0 <= q < p ==> !StartsWith(s[q..], needle)
    ensures AfterFirst(s, needle) == Some(s[p + |needle|..])
  {
    if p == 0 {
      assert s[0..] == s;
    } else {
      assert s[0..] == s;
      assert forall q :: 0 <= q < p ==> s[q + 1..] == s[1..][q..];
      AfterFirstIsLeftmost(s[1..], needle, p - 1);
    }
  }

  /** `u32::from_str_radix(hex, 16)`: a leading `+` is tolerated. */
  function HexNumber(hex: string): Option<nat> {
    var d := if StartsWith(hex, "+") then hex[1..] else hex;
    if d != "" && AllDigits(d, 16) then Some(Numeral(d, 16)) else None
  }

  /** `char::from_u32(code).unwrap_or('\u{FFFD}')` */
  function ScalarOr(code: nat): char {
    if IsScalar(code) then code as char else '\U{FFFD}'
  }

  /** One escape, `s` starting just after the backslash: the character and the input used. */
  function UnescapeOne(s: string): (r: Option<(char, nat)>)
    requires s != ""
    ensures r.Some? ==> 1 <= r.value.1 <= |s|
  {
    if s[0] == 'u' then
      var n := if |s| < 5 then |s| else 5;
      var code :- HexNumber(s[1..n]);
      Some((ScalarOr(code), n))
    else if ShortEscape(s[0]).Some? then Some((ShortEscape(s[0]).value, 1))
    else Some((s[0], 1))
  }

  /** The text up to the closing unescaped quote, decoded. */
  function Unescape(body: string): Option<string>
    decreases |body|
  {
    if body == "" then None
    else if body[0] == '"' then Some("")
    else if body[0] != '\\' then Cons(body[0], Unescape(body[1..]))
    else if |body| == 1 then None
    else
      match UnescapeOne(body[1..])
      case None => None
      case Some((c, used)) => Cons(c, Unescape(body[1 + used..]))
  }

  function Cons(c: char, r: Option<string>): Option<string> {
    match r case None => None case Some(v) => Some([c] + v)
  }

  /** The string value after a key: `:`, then a literal, with whitespace tolerated around the colon. */
  function ValueAfterKey(s: string): Option<string> {
    var t := TrimStart(s);
    if t == "" || t[0] != ':' then None
    else
      var u := TrimStart(t[1..]);
      if u == "" || u[0] != '"' then None else Unescape(u[1..])
  }

  function Extract(src: string, key: string): Option<string> {
    match AfterFirst(src, Needle(key))
    case None => None
    case Some(rest) => ValueAfterKey(rest)
  }

  function Onto(out: string, r: Option<string>): Option<string> {
    match r case None => None case Some(v) => Some(out + v)
  }

  /** `extract_json_string` */
  method ExtractJsonString(src: string, key: string) returns (r: Option<string>)
    ensures r == Extract(src, key)
  {
    var after := AfterFirst(src, Needle(key));
    if after.None? {
      return None;
    }
    var t := TrimStart(after.value);
    if t == "" || t[0] != ':' {
      return None;
    }
    t := TrimStart(t[1..]);
    if t == "" || t[0] != '"' {
      return None;
    }
    var body, out, i := t[1..], "", 0;
    assert body[0..] == body;
    assert Onto("", Unescape(body)) == Unescape(body) by {
      assert Unescape(body).Some? ==> "" + Unescape(body).value == Unescape(body).value;
    }
    while i < |body|
      invariant i <= |body|
      invariant Onto(out, Unescape(body[i..])) == Unescape(body)
    {
      ghost var rest := body[i..];
      var c := body[i];
      if c == '"' {
        assert out + "" == out;
        return Some(out);
      } else if c != '\\' {
        OntoCons(out, c, Unescape(body[i + 1..]));
        assert rest[1..] == body[i + 1..];
        out, i := out + [c], i + 1;
      } else if i + 1 == |body| {
        return None;
      } else {
        var one := UnescapeOne(body[i + 1..]);
        assert rest[1..] == body[i + 1..];
        if one.None? {
          return None;
        }
        var (d, used) := one.value;
        assert rest[1 + used..] == body[i + 1 + used..];
        OntoCons(out, d, Unescape(body[i + 1 + used..]));
        out, i := out + [d], i + 1 + used;
      }
    }
    return None;
  }

  lemma OntoCons(out: string, c: char, r: Option<string>)
    ensures Onto(out + [c], r) == Onto(out, Cons(c, r))
  {
    if r.Some? {
      assert out + [c] + r.value == out + ([c] + r.value);
    }
  }

  const INPUT_PREFIX := "ANIMA_IN "

  /** What `parse_input_line` extracts from a line. */
  function Parsed(line: string): Option<OperatorInput> {
    var l := StripPrefix(Trim(line), INPUT_PREFIX);
    var text :- Extract(l, "text");
    var priority := Extract(l, "priority");
    Some(OperatorInput(
           text,
           if priority.Some? then ParsePriority(priority.value) else Normal,
           Extract(l, "message_id"), Extract(l, "reply_to"), Extract(l, "force")))
  }

  /** `parse_input_line` */
  method ParseInputLine(line: string) returns (r: Option<OperatorInput>)
    ensures r == Parsed(line)
  {
    var l := StripPrefix(Trim(line), INPUT_PREFIX);
    var text := ExtractJsonString(l, "text");
    if text.None? {
      return None;
    }
    var priority := ExtractJsonString(l, "priority");
    var force := ExtractJsonString(l, "force");
    var messageId := ExtractJsonString(l, "message_id");
    var replyTo := ExtractJsonString(l, "reply_to");
    r := Some(OperatorInput(
                text.value,
                if priority.Some? then ParsePriority(priority.value) else Normal,
                messageId, replyTo, force));
  }

  // ── Spellings: every way to write a string literal ─────────────────────────

  /**
   One character of a literal as the scanner takes it: itself, a backslash and any letter but `u`, a `\u`
   escape, or one with a plus sign for its first digit.
   */
  datatype Unit = Raw(c: char) | Short(letter: char) | Hex(digits: string) | Plus(digits: string)

  predicate ValidUnit(u: Unit) {
    match u
    case Raw(c) => c != '"' && c != '\\'
    case Short(l) => l != 'u'
    case Hex(d) => |d| == 4 && AllDigits(d, 16)
    case Plus(d) => |d| == 3 && AllDigits(d, 16)
  }

  function UnitText(u: Unit): string {
    match u
    case Raw(c) => [c]
    case Short(l) => ['\\', l]
    case Hex(d) => "\\u" + d
    case Plus(d) => "\\u+" + d
  }

  /** An escape that JSON does not have stands for its letter, and a lone surrogate for U+FFFD. */
  function UnitValue(u: Unit): char
    requires ValidUnit(u)
  {
    match u
    case Raw(c) => c
    case Short(l) => if ShortEscape(l).Some? then ShortEscape(l).value else l
    case Hex(d) => if IsScalar(Numeral(d, 16)) then Numeral(d, 16) as char else '\U{FFFD}'
    case Plus(d) => if IsScalar(Numeral(d, 16)) then Numeral(d, 16) as char else '\U{FFFD}'
  }

  predicate ValidSpelling(us: seq<Unit>) {
    forall i :: 0 <= i < |us| ==> ValidUnit(us[i])
  }

  function SpelledText(us: seq<Unit>): string {
    if us == [] then "" else UnitText(us[0]) + SpelledText(us[1..])
  }

  function SpelledValue(us: seq<Unit>): string
    requires ValidSpelling(us)
  {
    if us == [] then "" else [UnitValue(us[0])] + SpelledValue(us[1..])
  }

  lemma UnescapeHex(d: string, rest: string)
    requires ValidUnit(Hex(d))
    ensures Unescape("\\u" + d + rest) == Cons(UnitValue(Hex(d)), Unescape(rest))
  {
    var s := "\\u" + d + rest;
    var t := s[1..];
    assert t == "u" + (d + rest);
    assert t[1..5] == d;
    assert DigitValue(d[0]) < 16;
    assert !StartsWith(d, "+");
    assert UnescapeOne(t) == Some((UnitValue(Hex(d)), 5));
    assert s[6..] == rest;
  }

  lemma UnescapePlus(d: string, rest: string)
    requires ValidUnit(Plus(d))
    ensures Unescape("\\u+" + d + rest) == Cons(UnitValue(Plus(d)), Unescape(rest))
  {
    var s := "\\u+" + d + rest;
    var t := s[1..];
    assert t == "u" + ("+" + d + rest);
    assert t[1..5] == "+" + d;
    StartsWithConcat("+", d);
    assert UnescapeOne(t) == Some((UnitValue(Plus(d)), 5));
    assert s[6..] == rest;
  }

  lemma UnescapeUnit(u: Unit, rest: string)
    requires ValidUnit(u)
    ensures Unescape(UnitText(u) + rest) == Cons(UnitValue(u), Unescape(rest))
  {
    match u
    case Raw(c) => assert ([c] + rest)[1..] == rest;
    case Short(l) => UnescapeShort(l, rest);
    case Hex(d) => UnescapeHex(d, rest);
    case Plus(d) => UnescapePlus(d, rest);
  }

  lemma UnescapeShort(l: char, rest: string)
    requires l != 'u'
    ensures Unescape(['\\', l] + rest) == Cons(UnitValue(Short(l)), Unescape(rest))
  {
    var s := ['\\', l] + rest;
    assert s[1..][0] == l && s[2..] == rest;
    assert UnescapeOne(s[1..]) == Some((UnitValue(Short(l)), 1));
  }

  /** The scanner decodes every spelling of a value to that value. */
  lemma {:induction false} UnescapeSpelled(us: seq<Unit>, rest: string)
    requires ValidSpelling(us)
    ensures Unescape(SpelledText(us) + ("\"" + rest)) == Some(SpelledValue(us))
  {
    if us == [] {
      assert SpelledText(us) + ("\"" + rest) == "\"" + rest;
    } else {
      var tail := SpelledText(us[1..]) + ("\"" + rest);
      assert SpelledText(us) + ("\"" + rest) == UnitText(us[0]) + tail;
      UnescapeUnit(us[0], tail);
      UnescapeSpelled(us[1..], rest);
    }
  }

  /** The first unit of a body that decodes and is not at its end. */
  lemma FirstUnit(body: string) returns (u: Unit, rest: string)
    requires body != "" && body[0] != '"' && Unescape(body).Some?
    ensures ValidUnit(u) && body == UnitText(u) + rest && |rest| < |body|
  {
    if body[0] != '\\' {
      u, rest := Raw(body[0]), body[1..];
    } else if body[1] != 'u' {
      u, rest := Short(body[1]), body[2..];
    } else {
      u, rest := FirstHex(body);
    }
  }

  lemma FirstHex(body: string) returns (u: Unit, rest: string)
    requires |body| >= 2 && body[0] == '\\' && body[1] == 'u' && Unescape(body).Some?
    ensures ValidUnit(u) && body == UnitText(u) + rest && |rest| < |body|
  {
    var t := body[1..];
    var used := UnescapeOne(t).value.1;
    assert Unescape(body[1 + used..]).Some?;
    assert |body| >= 6;
    var hex := t[1..5];
    rest := body[6..];
    assert body == "\\u" + hex + rest;
    if StartsWith(hex, "+") {
      u := Plus(hex[1..]);
      assert "\\u" + hex == "\\u+" + hex[1..];
    } else {
      u := Hex(hex);
    }
  }

  /** `us` and the quote after it open the text `body`. */
  ghost predicate Opens(us: seq<Unit>, body: string, rest: string) {
    ValidSpelling(us) && body == SpelledText(us) + ("\"" + rest)
  }

  /** Whatever the scanner decodes is a spelling, up to its closing quote, of the value it returns. */
  lemma {:induction false} DecodedIsSpelled(body: string) returns (us: seq<Unit>, rest: string)
    requires Unescape(body).Some?
    ensures Opens(us, body, rest) && SpelledValue(us) == Unescape(body).value
    decreases |body|
  {
    if body[0] == '"' {
      us, rest := [], body[1..];
      assert SpelledText([]) + ("\"" + rest) == body;
    } else {
      var u, more := FirstUnit(body);
      UnescapeUnit(u, more);
      var vs;
      vs, rest := DecodedIsSpelled(more);
      us := [u] + vs;
      assert us[1..] == vs;
      assert UnitText(u) + (SpelledText(vs) + ("\"" + rest)) == SpelledText(us) + ("\"" + rest);
    }
  }

  /** A text is decoded to a value if and only if it opens with a spelling of that value and a quote. */
  lemma DecodesIff(body: string, v: string)
    ensures Unescape(body) == Some(v) <==> exists us, rest :: Opens(us, body, rest) && SpelledValue(us) == v
  {
    if Unescape(body).Some? {
      var us, rest := DecodedIsSpelled(body);
      assert Opens(us, body, rest);
    }
    forall us, rest | Opens(us, body, rest) ensures Unescape(body) == Some(SpelledValue(us)) {
      UnescapeSpelled(us, rest);
    }
  }

  // ── Where the needle can occur in a flat object ────────────────────────────

  /** What a member holds: a string literal, or a number, `true`, `false` or `null`. */
  datatype Value = Literal(spelling: seq<Unit>) | Bare(token: string)

  /** The whitespace around the parts of a member. */
  datatype Gaps = Gaps(beforeKey: string, beforeColon: string, afterColon: string, afterValue: string)

  datatype Field = Field(key: string, value: Value, gaps: Gaps)

  predicate ValidGaps(g: Gaps) {
    IsBlank(g.beforeKey) && IsBlank(g.beforeColon) && IsBlank(g.afterColon) && IsBlank(g.afterValue)
  }

  predicate ValidValue(v: Value) {
    match v
    case Literal(us) => ValidSpelling(us)
    case Bare(token) => token != "" && !IsWhitespace(token[0]) && '"' !in token
  }

  predicate IsIdentifier(k: string) {
    k != "" && forall i :: 0 <= i < |k| ==> 'a' <= k[i] <= 'z' || k[i] == '_'
  }

  predicate ValidField(f: Field) {
    IsIdentifier(f.key) && ValidValue(f.value) && ValidGaps(f.gaps)
  }

  predicate AllValid(fs: seq<Field>) {
    forall i :: 0 <= i < |fs| ==> ValidField(fs[i])
  }

  function ValueThen(v: Value, t: string): string {
    match v
    case Literal(us) => "\"" + (SpelledText(us) + ("\"" + t))
    case Bare(token) => token + t
  }

  /** What follows a member's key. */
  function AfterKey(f: Field, t: string): string {
    f.gaps.beforeColon + (":" + (f.gaps.afterColon + ValueThen(f.value, f.gaps.afterValue + t)))
  }

  /** The members of a flat object and its closing brace. */
  function FieldsText(fs: seq<Field>): string
    decreases |fs|, 1
  {
    if fs == [] then "}" else fs[0].gaps.beforeKey + (Needle(fs[0].key) + AfterKey(fs[0], RestText(fs)))
  }

  /** What follows the first member. */
  function RestText(fs: seq<Field>): string
    requires fs != []
    decreases |fs|, 0
  {
    if |fs| == 1 then "}" else "," + FieldsText(fs[1..])
  }

  /** A literal whose written text hides `key`: it is the key, or ends in a quote and the key. */
  predicate Hides(text: string, key: string) {
    text == key || EndsWith(text, "\"" + key)
  }

  /** What the scanner finds: the string under `key`, unless an earlier literal hides it. */
  function Found(fs: seq<Field>, key: string): Option<string>
    requires AllValid(fs)
  {
    if fs == [] then None
    else
      assert ValidField(fs[0]);
      match fs[0].value
      case Literal(us) =>
        if fs[0].key == key then Some(SpelledValue(us))
        else if Hides(SpelledText(us), key) then None
        else Found(fs[1..], key)
      case Bare(_) => if fs[0].key == key then None else Found(fs[1..], key)
  }

  lemma SkipOne(s: string, key: string)
    requires s != "" && !StartsWith(s, Needle(key))
    ensures Extract(s, key) == Extract(s[1..], key)
  {
  }

  lemma {:induction false} SkipPlain(p: string, t: string, key: string)
    requires '"' !in p
    ensures Extract(p + t, key) == Extract(t, key)
  {
    if p == "" {
      assert p + t == t;
    } else {
      assert (p + t)[0] == p[0] && (p + t)[1..] == p[1..] + t;
      assert Needle(key)[0] == '"';
      assert !StartsWith(p + t, Needle(key));
      SkipOne(p + t, key);
      SkipPlain(p[1..], t, key);
    }
  }

  /** A character after a closing quote: whitespace, or one that structures the object. */
  predicate IsBreak(c: char) {
    IsWhitespace(c) || c == ':' || c == ',' || c == '}'
  }

  /** A quote that the key cannot follow. */
  lemma SkipClosing(t: string, key: string)
    requires IsIdentifier(key) && t != "" && IsBreak(t[0])
    ensures Extract("\"" + t, key) == Extract(t, key)
  {
    var s := "\"" + t;
    assert s[1..] == t;
    assert Needle(key)[1] == key[0] && s[1] == t[0];
    SkipOne(s, key);
  }

  /** After a value: whitespace, then a comma or the closing brace. */
  predicate EndsValue(t: string) {
    var u := TrimStart(t);
    t != "" && IsBreak(t[0]) && u != "" && (u[0] == ',' || u[0] == '}')
  }

  lemma {:induction false} GapTrimmed(g: string, t: string)
    requires IsBlank(g) && t != "" && !IsWhitespace(t[0])
    ensures TrimStart(g + t) == t && '"' !in g
    ensures g == "" || IsWhitespace((g + t)[0])
  {
    if g == "" {
      assert g + t == t;
    } else {
      assert (g + t)[1..] == g[1..] + t;
      GapTrimmed(g[1..], t);
    }
  }

  lemma StartsWithStep(c: char, s: string, d: char, p: string)
    ensures StartsWith([c] + s, [d] + p) <==> c == d && StartsWith(s, p)
  {
    if |p| <= |s| {
      assert ([c] + s)[..|p| + 1] == [c] + s[..|p|];
      assert ([c] + s[..|p|])[1..] == s[..|p|];
      assert ([d] + p)[1..] == p;
    }
  }

  lemma NeedleAt(t: string, key: string)
    ensures StartsWith("\"" + t, Needle(key)) <==> StartsWith(t, key + "\"")
  {
    StartsWithStep('"', t, '"', key + "\"");
    assert "\"" + (key + "\"") == Needle(key);
  }

  /** Text without quotes, up to a quote, matches the key only if it is the key. */
  lemma {:induction false} PlainMatch(p: string, t: string, key: string)
    requires '"' !in p && '"' !in key
    ensures StartsWith(p + ("\"" + t), key + "\"") <==> p == key
  {
    if p == "" {
      MatchAtQuote(t, key);
    } else {
      if key != "" {
        PlainMatch(p[1..], t, key[1..]);
      }
      MatchStep(p[0], p[1..], "\"" + t, key);
      assert [p[0]] + p[1..] == p;
    }
  }

  lemma HeadTail(p: string, q: string)
    requires p != "" && q != ""
    ensures p == q <==> p[0] == q[0] && p[1..] == q[1..]
  {
    assert p == [p[0]] + p[1..] && q == [q[0]] + q[1..];
  }

  lemma MatchAtQuote(t: string, key: string)
    requires '"' !in key
    ensures StartsWith("" + ("\"" + t), key + "\"") <==> key == ""
  {
    assert "" + ("\"" + t) == ['"'] + t;
    if key == "" {
      assert key + "\"" == ['"'] + "";
      StartsWithStep('"', t, '"', "");
    } else {
      assert key + "\"" == [key[0]] + (key[1..] + "\"");
      StartsWithStep('"', t, key[0], key[1..] + "\"");
    }
  }

  /** Matching a key against text that starts with `c`, given the match of what follows `c`. */
  lemma MatchStep(c: char, more: string, t: string, key: string)
    requires c != '"'
    requires key != "" && c == key[0] ==> (StartsWith(more + t, key[1..] + "\"") <==> more == key[1..])
    ensures StartsWith([c] + more + t, key + "\"") <==> [c] + more == key
  {
    assert [c] + more + t == [c] + (more + t);
    if key == "" {
      assert key + "\"" == ['"'] + "";
      StartsWithStep(c, more + t, '"', "");
    } else {
      assert key + "\"" == [key[0]] + (key[1..] + "\"");
      StartsWithStep(c, more + t, key[0], key[1..] + "\"");
      HeadTail([c] + more, key);
      assert ([c] + more)[1..] == more;
    }
  }

  lemma UnitShape(u: Unit)
    requires ValidUnit(u)
    ensures UnitText(u) != "" && UnitText(u)[0] != '"'
    ensures |UnitText(u)| == 1 || UnitText(u)[0] == '\\'
    ensures |UnitText(u)| == 1 <==> u.Raw?
    ensures u != Short('"') ==> '"' !in UnitText(u)
  {
    if u.Hex? {
      assert forall i :: 0 <= i < 4 ==> DigitValue(u.digits[i]) < 16;
    }
  }

  /** Matching a key against the text of one unit and more. */
  lemma MatchUnit(text: string, tail: string, t: string, key: string)
    requires text != "" && text[0] != '"' && (|text| == 1 || text[0] == '\\') && '\\' !in key
    requires |text| == 1 && key != "" ==> (StartsWith(tail + t, key[1..] + "\"") <==> tail == key[1..])
    ensures StartsWith(text + tail + t, key + "\"") <==> text + tail == key
  {
    var c, more := text[0], text[1..] + tail;
    assert text + tail == [c] + more;
    if |text| == 1 {
      assert more == tail;
    }
    MatchStep(c, more, t, key);
  }

  /** A spelled literal, up to its closing quote, matches the key only if its text is the key. */
  lemma {:induction false} SpelledMatch(us: seq<Unit>, t: string, key: string)
    requires ValidSpelling(us) && '"' !in key && '\\' !in key
    ensures StartsWith(SpelledText(us) + ("\"" + t), key + "\"") <==> SpelledText(us) == key
  {
    if us == [] {
      MatchAtQuote(t, key);
    } else {
      UnitShape(us[0]);
      if us[0].Raw? && key != "" {
        SpelledMatch(us[1..], t, key[1..]);
      }
      MatchUnit(UnitText(us[0]), SpelledText(us[1..]), "\"" + t, key);
    }
  }

  /** Past another key, its colon and the gaps. */
  lemma SkipKey(other: string, before: string, after: string, t: string, key: string)
    requires IsIdentifier(key) && IsIdentifier(other) && key != other && IsBlank(before) && IsBlank(after)
    ensures Extract(Needle(other) + (before + (":" + (after + t))), key) == Extract(t, key)
  {
    var colon := ":" + (after + t);
    var u := "\"" + (before + colon);
    var s := "\"" + (other + u);
    assert s == Needle(other) + (before + colon);
    NeedleAt(other + u, key);
    PlainMatch(other, before + colon, key);
    SkipOne(s, key);
    assert s[1..] == other + u;
    SkipPlain(other, u, key);
    GapTrimmed(before, colon);
    SkipClosing(before + colon, key);
    SkipPlain(before, colon, key);
    SkipPlain(":", after + t, key);
    assert '"' !in after by { GapTrimmed(after, ":"); }
    SkipPlain(after, t, key);
  }

  lemma {:induction false} EndsWithPlain(p: string, t: string, key: string)
    requires '"' !in p
    ensures EndsWith(p + t, "\"" + key) <==> EndsWith(t, "\"" + key)
  {
    var s, n := p + t, "\"" + key;
    if |n| <= |t| {
      assert s[|s| - |n|..] == t[|t| - |n|..];
    } else if |n| <= |s| {
      assert s[|s| - |n|] == p[|s| - |n|];
      assert s[|s| - |n|..][0] == s[|s| - |n|] && n[0] == '"';
    }
  }

  lemma EndsWithEscapedQuote(t: string, key: string)
    ensures EndsWith("\\\"" + t, "\"" + key) <==> t == key || EndsWith(t, "\"" + key)
  {
    assert "\\\"" + t == "\\" + ("\"" + t);
    EndsWithPlain("\\", "\"" + t, key);
    EndsWithQuote(t, key);
  }

  lemma EndsWithQuote(t: string, key: string)
    ensures EndsWith("\"" + t, "\"" + key) <==> t == key || EndsWith(t, "\"" + key)
  {
    var s, n := "\"" + t, "\"" + key;
    if |n| <= |t| {
      assert s[|s| - |n|..] == t[|t| - |n|..];
    } else if |n| == |s| {
      assert s[0..] == s;
      assert s[1..] == t && n[1..] == key;
    }
  }

  /** Through the body of a literal, from any of its units. */
  lemma {:induction false} ScanBody(us: seq<Unit>, t: string, key: string)
    requires ValidSpelling(us) && IsIdentifier(key) && EndsValue(t)
    ensures Extract(SpelledText(us) + ("\"" + t), key) ==
            if EndsWith(SpelledText(us), "\"" + key) then None else Extract(t, key)
  {
    if us == [] {
      assert SpelledText(us) + ("\"" + t) == "\"" + t;
      SkipClosing(t, key);
    } else {
      UnitShape(us[0]);
      ScanBody(us[1..], t, key);
      if us[0] == Short('"') {
        AtQuote(us[1..], t, key);
        ScanEscapedQuote(SpelledText(us[1..]), "\"" + t, key);
      } else {
        ScanUnit(UnitText(us[0]), SpelledText(us[1..]), "\"" + t, key);
      }
    }
  }

  lemma ScanUnit(text: string, tail: string, t: string, key: string)
    requires '"' !in text
    ensures Extract(text + tail + t, key) == Extract(tail + t, key)
    ensures EndsWith(text + tail, "\"" + key) <==> EndsWith(tail, "\"" + key)
  {
    EndsWithPlain(text, tail, key);
    Reassociate(text, tail, t);
    SkipPlain(text, tail + t, key);
  }

  lemma ScanEscapedQuote(tail: string, t: string, key: string)
    ensures Extract("\\\"" + tail + t, key) == Extract("\"" + (tail + t), key)
    ensures EndsWith("\\\"" + tail, "\"" + key) <==> tail == key || EndsWith(tail, "\"" + key)
  {
    EndsWithEscapedQuote(tail, key);
    assert "\\\"" + tail + t == "\\" + ("\"" + (tail + t));
    SkipPlain("\\", "\"" + (tail + t), key);
  }

  /** At a quote inside a literal, or at the one that opens it. */
  lemma AtQuote(us: seq<Unit>, t: string, key: string)
    requires ValidSpelling(us) && IsIdentifier(key) && EndsValue(t)
    ensures var rest := SpelledText(us) + ("\"" + t);
            Extract("\"" + rest, key) == if SpelledText(us) == key then None else Extract(rest, key)
  {
    var rest := SpelledText(us) + ("\"" + t);
    NeedleAt(rest, key);
    SpelledMatch(us, t, key);
    if SpelledText(us) == key {
      assert "\"" + rest == Needle(key) + t;
      assert ("\"" + rest)[|Needle(key)|..] == t;
    } else {
      SkipOne("\"" + rest, key);
      assert ("\"" + rest)[1..] == rest;
    }
  }

  /** The scanner on a flat object of identifier keys, however spaced: exactly `Found`, so never a wrong string. */
  lemma {:induction false} ExtractFromFields(fs: seq<Field>, key: string)
    requires IsIdentifier(key) && AllValid(fs)
    ensures Extract(FieldsText(fs), key) == Found(fs, key)
    decreases |fs|
  {
    if fs == [] {
      SkipPlain("}", "", key);
      assert "}" + "" == "}";
      assert Extract("", key) == None;
    } else {
      var f, t := fs[0], RestText(fs);
      assert ValidField(f);
      RestEnds(fs);
      FieldAtFront(f, t, key);
      if f.key != key {
        AfterField(fs, key);
        ExtractFromFields(fs[1..], key);
      }
    }
  }

  lemma RestEnds(fs: seq<Field>)
    requires fs != []
    ensures RestText(fs) != "" && (RestText(fs)[0] == ',' || RestText(fs)[0] == '}')
  {
  }

  /** One member, and what the scanner does with it. */
  lemma FieldAtFront(f: Field, t: string, key: string)
    requires IsIdentifier(key) && ValidField(f) && t != "" && (t[0] == ',' || t[0] == '}')
    ensures Extract(f.gaps.beforeKey + (Needle(f.key) + AfterKey(f, t)), key) ==
            if f.key == key then (if f.value.Literal? then Some(SpelledValue(f.value.spelling)) else None)
            else if f.value.Literal? && Hides(SpelledText(f.value.spelling), key) then None
            else Extract(t, key)
  {
    var g, u := f.gaps, f.gaps.afterValue + t;
    GapTrimmed(g.beforeKey, Needle(f.key));
    SkipPlain(g.beforeKey, Needle(f.key) + AfterKey(f, t), key);
    GapTrimmed(g.afterValue, t);
    if f.key == key {
      ReadField(key, f.value, g.beforeColon, g.afterColon, u);
    } else {
      SkipKey(f.key, g.beforeColon, g.afterColon, ValueThen(f.value, u), key);
      match f.value {
        case Literal(us) =>
          AtQuote(us, u, key);
          ScanBody(us, u, key);
        case Bare(token) => SkipPlain(token, u, key);
      }
      SkipPlain(g.afterValue, t, key);
    }
  }

  lemma AfterField(fs: seq<Field>, key: string)
    requires fs != []
    ensures Extract(RestText(fs), key) == Extract(FieldsText(fs[1..]), key)
  {
    if |fs| == 1 {
      assert fs[1..] == [];
    } else {
      SkipPlain(",", FieldsText(fs[1..]), key);
    }
  }

  lemma ReadField(key: string, v: Value, before: string, after: string, t: string)
    requires IsIdentifier(key) && ValidValue(v) && IsBlank(before) && IsBlank(after)
    ensures Extract(Needle(key) + (before + (":" + (after + ValueThen(v, t)))), key) ==
            if v.Literal? then Some(SpelledValue(v.spelling)) else None
  {
    var value := ValueThen(v, t);
    var colon := ":" + (after + value);
    StartsWithConcat(Needle(key), before + colon);
    assert AfterFirst(Needle(key) + (before + colon), Needle(key)) == Some(before + colon);
    GapTrimmed(before, colon);
    assert colon[1..] == after + value;
    GapTrimmed(after, value);
    if v.Literal? {
      assert value[1..] == SpelledText(v.spelling) + ("\"" + t);
      UnescapeSpelled(v.spelling, t);
    }
  }

  // ── Operator input, printed in field order by any JSON printer ─────────────

  /** A printer's choice of spelling for every string. */
  ghost predicate IsSpelling(spell: string -> seq<Unit>) {
    forall v :: ValidSpelling(spell(v)) && SpelledValue(spell(v)) == v
  }

  /**
   How an input is printed: the spelling of every string, the whitespace around the member of every key,
   and whether an absent field is written as `null` or left out.
   */
  datatype Printer = Printer(spell: string -> seq<Unit>, gaps: string -> Gaps, nulls: string -> bool)

  ghost predicate IsPrinter(how: Printer) {
    IsSpelling(how.spell) && forall key :: ValidGaps(how.gaps(key))
  }

  function StrField(key: string, v: string, how: Printer): (f: Field)
    requires IsPrinter(how) && IsIdentifier(key)
    ensures ValidField(f)
  {
    Field(key, Literal(how.spell(v)), how.gaps(key))
  }

  function OptField(key: string, o: Option<string>, how: Printer): (fs: seq<Field>)
    requires IsPrinter(how) && IsIdentifier(key)
    ensures AllValid(fs)
  {
    if o.Some? then [StrField(key, o.value, how)]
    else if how.nulls(key) then [Field(key, Bare("null"), how.gaps(key))]
    else []
  }

  function Options(i: OperatorInput, how: Printer): (fs: seq<Field>)
    requires IsPrinter(how)
    ensures AllValid(fs)
  {
    OptField("message_id", i.messageId, how)
    + (OptField("reply_to", i.replyTo, how) + (OptField("force", i.force, how) + []))
  }

  /** The fields in declaration order. */
  function InputFields(i: OperatorInput, how: Printer): (fs: seq<Field>)
    requires IsPrinter(how)
    ensures AllValid(fs)
  {
    [StrField("text", i.text, how)]
    + ([StrField("priority", PriorityName(i.priority), how)] + Options(i, how))
  }

  function InputText(i: OperatorInput, how: Printer): string
    requires IsPrinter(how)
  {
    "{" + FieldsText(InputFields(i, how))
  }

  predicate HiddenBy(v: string, key: string, spell: string -> seq<Unit>) {
    Hides(SpelledText(spell(v)), key)
  }

  predicate HiddenByOpt(o: Option<string>, key: string, spell: string -> seq<Unit>) {
    o.Some? && HiddenBy(o.value, key, spell)
  }

  /** The input that arrives: `text` always, every other field unless an earlier value hides its key. */
  function Arrives(i: OperatorInput, spell: string -> seq<Unit>): OperatorInput {
    OperatorInput(
      i.text,
      if HiddenBy(i.text, "priority", spell) then Normal else i.priority,
      if HiddenBy(i.text, "message_id", spell) then None else i.messageId,
      if HiddenBy(i.text, "reply_to", spell) || HiddenByOpt(i.messageId, "reply_to", spell) then None
      else i.replyTo,
      if HiddenBy(i.text, "force", spell) || HiddenByOpt(i.messageId, "force", spell)
         || HiddenByOpt(i.replyTo, "force", spell) then None
      else i.force)
  }

  /** Whatever the spelling, a literal hides a key only if its value is the key or ends in a quote and the key. */
  lemma {:induction false} HidesByValue(us: seq<Unit>, key: string)
    requires ValidSpelling(us) && IsIdentifier(key)
    ensures SpelledText(us) == key ==> SpelledValue(us) == key
    ensures EndsWith(SpelledText(us), "\"" + key) ==> EndsWith(SpelledValue(us), "\"" + key)
  {
    if us == [] {
    } else {
      var tail, value := SpelledText(us[1..]), SpelledValue(us[1..]);
      HidesByValue(us[1..], key);
      RawText(us, key);
      if us[0] == Short('"') {
        EndsWithEscapedQuote(tail, key);
        RawText(us[1..], key);
        EndsWithQuote(value, key);
      } else {
        EndsWithPlain(UnitText(us[0]), tail, key);
        EndsWithCons(UnitValue(us[0]), value, "\"" + key);
      }
    }
  }

  lemma EndsWithCons(c: char, v: string, n: string)
    ensures EndsWith(v, n) ==> EndsWith([c] + v, n)
  {
    if EndsWith(v, n) {
      assert ([c] + v)[|v| + 1 - |n|..] == v[|v| - |n|..];
    }
  }

  /** Text without a backslash is its own value. */
  lemma {:induction false} RawText(us: seq<Unit>, text: string)
    requires ValidSpelling(us) && '\\' !in text
    ensures SpelledText(us) == text ==> SpelledValue(us) == text
  {
    if us != [] && SpelledText(us) == text {
      assert text[0] == UnitText(us[0])[0];
      assert us[0].Raw?;
      assert text[1..] == SpelledText(us[1..]);
      RawText(us[1..], text[1..]);
      assert text == [text[0]] + text[1..];
    }
  }

  lemma PriorityHidesNothing(p: Priority, key: string, spell: string -> seq<Unit>)
    requires IsSpelling(spell) && IsIdentifier(key)
    ensures !HiddenBy(PriorityName(p), key, spell)
  {
    var n := PriorityName(p);
    HidesByValue(spell(n), key);
    assert 'A' <= n[0] <= 'Z';
    assert '"' !in n;
    EndsWithPlain(n, "", key);
    assert n + "" == n;
  }

  lemma FoundCons(name: string, v: string, fs: seq<Field>, key: string, how: Printer)
    requires IsPrinter(how) && IsIdentifier(name) && AllValid(fs)
    ensures var all := [StrField(name, v, how)] + fs;
            && AllValid(all)
            && Found(all, key) ==
               if name == key then Some(v) else if HiddenBy(v, key, how.spell) then None else Found(fs, key)
  {
    assert ([StrField(name, v, how)] + fs)[1..] == fs;
  }

  lemma FoundOpt(name: string, o: Option<string>, fs: seq<Field>, key: string, how: Printer)
    requires IsPrinter(how) && IsIdentifier(name) && AllValid(fs)
    requires forall k :: 0 <= k < |fs| ==> fs[k].key != name
    ensures var all := OptField(name, o, how) + fs;
            && AllValid(all)
            && Found(all, key) ==
               if name == key then o else if HiddenByOpt(o, key, how.spell) then None else Found(fs, key)
  {
    var all := OptField(name, o, how) + fs;
    if o.Some? {
      FoundCons(name, o.value, fs, key, how);
    } else if how.nulls(name) {
      assert ValidValue(Bare("null"));
      assert all[1..] == fs;
    } else {
      assert all == fs;
      NotFound(fs, name);
    }
  }

  lemma {:induction false} NotFound(fs: seq<Field>, key: string)
    requires AllValid(fs) && forall k :: 0 <= k < |fs| ==> fs[k].key != key
    ensures Found(fs, key) == None
  {
    if fs != [] {
      NotFound(fs[1..], key);
    }
  }

  lemma FoundInOptions(i: OperatorInput, key: string, how: Printer)
    requires IsPrinter(how)
    ensures Found(Options(i, how), key) ==
            if "message_id" == key then i.messageId
            else if HiddenByOpt(i.messageId, key, how.spell) then None
            else if "reply_to" == key then i.replyTo
            else if HiddenByOpt(i.replyTo, key, how.spell) then None
            else if "force" == key then i.force
            else None
  {
    KeysAreIdentifiers();
    KeysDiffer();
    FoundInThree("message_id", i.messageId, "reply_to", i.replyTo, "force", i.force, key, how);
  }

  lemma KeysDiffer()
    ensures "message_id" != "reply_to" && "message_id" != "force" && "reply_to" != "force"
  {
    assert "message_id"[0] == 'm' && "reply_to"[0] == 'r' && "force"[0] == 'f';
  }

  lemma FoundInThree(a: string, x: Option<string>, b: string, y: Option<string>, c: string, z: Option<string>,
                     key: string, how: Printer)
    requires IsPrinter(how) && IsIdentifier(a) && IsIdentifier(b) && IsIdentifier(c) && a != b && a != c && b != c
    ensures Found(OptField(a, x, how) + (OptField(b, y, how) + (OptField(c, z, how) + [])), key) ==
            if a == key then x
            else if HiddenByOpt(x, key, how.spell) then None
            else if b == key then y
            else if HiddenByOpt(y, key, how.spell) then None
            else if c == key then z
            else None
  {
    var fs := OptField(c, z, how) + [];
    FoundOpt(c, z, [], key, how);
    FoundOpt(b, y, fs, key, how);
    FoundOpt(a, x, OptField(b, y, how) + fs, key, how);
  }

  /** What is found when a text and a plain value come before other fields. */
  lemma FoundAfterTwo(name: string, v: string, second: string, w: string, fs: seq<Field>, key: string, how: Printer)
    requires IsPrinter(how) && IsIdentifier(name) && IsIdentifier(second) && !HiddenBy(w, key, how.spell)
    requires AllValid(fs)
    ensures var all := [StrField(name, v, how)] + ([StrField(second, w, how)] + fs);
            && AllValid(all)
            && Found(all, key) ==
               if name == key then Some(v) else if HiddenBy(v, key, how.spell) then None
               else if second == key then Some(w) else Found(fs, key)
  {
    FoundCons(second, w, fs, key, how);
    FoundCons(name, v, [StrField(second, w, how)] + fs, key, how);
  }

  lemma TwoKeys()
    ensures IsIdentifier("text") && IsIdentifier("priority")
  {
  }

  lemma FoundInFields(i: OperatorInput, key: string, how: Printer)
    requires IsPrinter(how) && IsIdentifier(key)
    ensures Found(InputFields(i, how), key) ==
            if "text" == key then Some(i.text)
            else if HiddenBy(i.text, key, how.spell) then None
            else if "priority" == key then Some(PriorityName(i.priority))
            else Found(Options(i, how), key)
  {
    FoundInOptions(i, key, how);
    PriorityHidesNothing(i.priority, key, how.spell);
    TwoKeys();
    FoundAfterTwo("text", i.text, "priority", PriorityName(i.priority), Options(i, how), key, how);
  }

  lemma BracedFields(fs: seq<Field>, key: string)
    requires IsIdentifier(key) && AllValid(fs)
    ensures Extract("{" + FieldsText(fs), key) == Found(fs, key)
  {
    ExtractFromFields(fs, key);
    SkipPlain("{", FieldsText(fs), key);
  }

  /** What the scanner finds under `key` in a printed input. */
  lemma FoundInInput(i: OperatorInput, key: string, how: Printer)
    requires IsPrinter(how) && IsIdentifier(key)
    ensures Extract(InputText(i, how), key) ==
            if "text" == key then Some(i.text)
            else if HiddenBy(i.text, key, how.spell) then None
            else if "priority" == key then Some(PriorityName(i.priority))
            else Found(Options(i, how), key)
  {
    FoundInFields(i, key, how);
    BracedFields(InputFields(i, how), key);
  }

  lemma {:induction false} FieldsTextEnd(fs: seq<Field>)
    ensures FieldsText(fs) != "" && FieldsText(fs)[|FieldsText(fs)| - 1] == '}'
    decreases |fs|
  {
    if fs != [] {
      if |fs| > 1 {
        FieldsTextEnd(fs[1..]);
      }
      FieldEnd(fs[0], RestText(fs));
    }
  }

  lemma FieldEnd(f: Field, r: string)
    requires r != ""
    ensures var s := f.gaps.beforeKey + (Needle(f.key) + AfterKey(f, r)); s != "" && s[|s| - 1] == r[|r| - 1]
  {
    var t := ValueThen(f.value, f.gaps.afterValue + r);
    assert t != "" && t[|t| - 1] == r[|r| - 1];
    var u := AfterKey(f, r);
    assert u != "" && u[|u| - 1] == t[|t| - 1];
  }

  /**
   The kernel reads every operator input printed as a flat object in field order, by any JSON
   printer, with whitespace anywhere between its parts and around it, with or without the serial
   prefix: it always recovers `text`, and recovers each other field unless an earlier literal hides
   its key, in which case that field is taken as absent.
   */
  lemma ParsedPrintedInput(i: OperatorInput, how: Printer, lead: string, trail: string)
    requires IsPrinter(how) && IsBlank(lead) && IsBlank(trail)
    ensures Parsed(lead + InputText(i, how) + trail) == Some(Arrives(i, how.spell))
    ensures Parsed(lead + (INPUT_PREFIX + InputText(i, how)) + trail) == Some(Arrives(i, how.spell))
  {
    var s := InputText(i, how);
    FieldsTextEnd(InputFields(i, how));
    BracedSurvives(INPUT_PREFIX, s, lead, trail);
    FoundInInput(i, "text", how);
    FoundPriority(i, how);
    FoundMessageId(i, how);
    FoundReplyTo(i, how);
    FoundForce(i, how);
    ParsedFrom(lead + s + trail, s, Arrives(i, how.spell));
    ParsedFrom(lead + (INPUT_PREFIX + s) + trail, s, Arrives(i, how.spell));
  }

  lemma ParsedFrom(line: string, l: string, want: OperatorInput)
    requires l == StripPrefix(Trim(line), INPUT_PREFIX)
    requires Extract(l, "text") == Some(want.text)
    requires Extract(l, "priority") == Some(PriorityName(want.priority))
             || (Extract(l, "priority") == None && want.priority == Normal)
    requires Extract(l, "message_id") == want.messageId && Extract(l, "reply_to") == want.replyTo
    requires Extract(l, "force") == want.force
    ensures Parsed(line) == Some(want)
  {
    var name := PriorityName(want.priority);
    assert "" + name + "" == name;
    assert Names(name, want.priority);
    PriorityRoundTrip(want.priority, name);
  }

  lemma FoundPriority(i: OperatorInput, how: Printer)
    requires IsPrinter(how)
    ensures Extract(InputText(i, how), "priority") ==
            if HiddenBy(i.text, "priority", how.spell) then None else Some(PriorityName(i.priority))
  {
    FoundInInput(i, "priority", how);
  }

  lemma FoundMessageId(i: OperatorInput, how: Printer)
    requires IsPrinter(how)
    ensures Extract(InputText(i, how), "message_id") == Arrives(i, how.spell).messageId
  {
    FoundInInput(i, "message_id", how);
    FoundInOptions(i, "message_id", how);
  }

  lemma FoundReplyTo(i: OperatorInput, how: Printer)
    requires IsPrinter(how)
    ensures Extract(InputText(i, how), "reply_to") == Arrives(i, how.spell).replyTo
  {
    FoundInInput(i, "reply_to", how);
    FoundInOptions(i, "reply_to", how);
  }

  lemma FoundForce(i: OperatorInput, how: Printer)
    requires IsPrinter(how)
    ensures Extract(InputText(i, how), "force") == Arrives(i, how.spell).force
  {
    FoundInInput(i, "force", how);
    FoundInOptions(i, "force", how);
  }

  // ── The crate's own writer as a printer ────────────────────────────────────

  function WriterUnit(c: char): Unit {
    if c == '"' || c == '\\' then Short(c)
    else if c == '\n' then Short('n')
    else if c == '\r' then Short('r')
    else if c == '\t' then Short('t')
    else if c as int < 0x20 then Hex("00" + [DigitChar(c as int / 16), DigitChar(c as int % 16)])
    else Raw(c)
  }

  lemma HexUnit(c: char)
    requires c as int < 0x20
    ensures var d := "00" + [DigitChar(c as int / 16), DigitChar(c as int % 16)];
            AllDigits(d, 16) && Numeral(d, 16) == c as int
  {
    var hi, lo := DigitChar(c as int / 16), DigitChar(c as int % 16);
    DigitCharValue(c as int / 16);
    DigitCharValue(c as int % 16);
    assert Numeral("", 16) == 0;
    NumeralSnoc("", '0', 16);
    NumeralSnoc("" + ['0'], '0', 16);
    NumeralSnoc("" + ['0'] + ['0'], hi, 16);
    NumeralSnoc("" + ['0'] + ['0'] + [hi], lo, 16);
    assert "" + ['0'] + ['0'] + [hi] + [lo] == "00" + [hi, lo];
  }

  lemma NumeralSnoc(s: string, c: char, radix: nat)
    requires radix <= 16 && AllDigits(s, radix) && DigitValue(c) < radix
    ensures AllDigits(s + [c], radix) && Numeral(s + [c], radix) == Numeral(s, radix) * radix + DigitValue(c)
  {
    assert (s + [c])[..|s|] == s;
  }

  lemma WriterUnitCorrect(c: char)
    ensures ValidUnit(WriterUnit(c)) && UnitValue(WriterUnit(c)) == c && UnitText(WriterUnit(c)) == EscapeChar(c)
  {
    if c as int < 0x20 {
      HexUnit(c);
    }
  }

  /** The spelling `write_json_str` chooses. */
  function Writer(v: string): seq<Unit> {
    if v == "" then [] else [WriterUnit(v[0])] + Writer(v[1..])
  }

  lemma {:induction false} WriterText(v: string)
    ensures ValidSpelling(Writer(v)) && SpelledValue(Writer(v)) == v && SpelledText(Writer(v)) == Escape(v)
  {
    if v != "" {
      WriterText(v[1..]);
      WriterUnitCorrect(v[0]);
      assert Writer(v)[1..] == Writer(v[1..]);
      assert [v[0]] + v[1..] == v;
    }
  }

  lemma WriterIsSpelling()
    ensures IsSpelling(Writer)
  {
    forall v: string ensures ValidSpelling(Writer(v)) && SpelledValue(Writer(v)) == v { WriterText(v); }
  }

  /** The value itself tells whether it hides a key. */
  predicate ValueHides(v: string, key: string) {
    v == key || EndsWith(v, "\"" + key)
  }

  lemma {:induction false} WriterHides(v: string, key: string)
    requires IsIdentifier(key)
    ensures HiddenBy(v, key, Writer) <==> ValueHides(v, key)
  {
    WriterText(v);
    HidesByValue(Writer(v), key);
    if v == key {
      EscapePlain(v);
    } else if EndsWith(v, "\"" + key) {
      EscapeEndsWith(v, key);
    }
  }

  lemma {:induction false} EscapeEndsWith(v: string, key: string)
    requires IsIdentifier(key) && EndsWith(v, "\"" + key)
    ensures EndsWith(Escape(v), "\"" + key)
  {
    if |v| == |key| + 1 {
      assert v[0..] == v;
      EscapePlain(key);
      assert v[1..] == key;
      EndsWithEscapedQuote(key, key);
    } else {
      assert v[1..][|v[1..]| - |key| - 1..] == v[|v| - |key| - 1..];
      EscapeEndsWith(v[1..], key);
      EndsWithAppend(EscapeChar(v[0]), Escape(v[1..]), "\"" + key);
    }
  }

  lemma EndsWithAppend(a: string, v: string, n: string)
    requires EndsWith(v, n)
    ensures EndsWith(a + v, n)
  {
    assert (a + v)[|a + v| - |n|..] == v[|v| - |n|..];
  }

  predicate OptValueHides(o: Option<string>, key: string) {
    o.Some? && ValueHides(o.value, key)
  }

  /** Some field of the input is hidden from the scanner by an earlier value. */
  predicate LosesField(i: OperatorInput) {
    || (i.priority != Normal && ValueHides(i.text, "priority"))
    || (i.messageId.Some? && ValueHides(i.text, "message_id"))
    || (i.replyTo.Some? && (ValueHides(i.text, "reply_to") || OptValueHides(i.messageId, "reply_to")))
    || (i.force.Some? && (ValueHides(i.text, "force") || OptValueHides(i.messageId, "force")
                          || OptValueHides(i.replyTo, "force")))
  }

  /** What arrives of an input written by the crate's own writer, told by its values alone. */
  function ArrivesByValue(i: OperatorInput): OperatorInput {
    OperatorInput(
      i.text,
      if ValueHides(i.text, "priority") then Normal else i.priority,
      if ValueHides(i.text, "message_id") then None else i.messageId,
      if ValueHides(i.text, "reply_to") || OptValueHides(i.messageId, "reply_to") then None else i.replyTo,
      if ValueHides(i.text, "force") || OptValueHides(i.messageId, "force") || OptValueHides(i.replyTo, "force")
      then None else i.force)
  }

  lemma WriterHidesOpt(o: Option<string>, key: string)
    requires IsIdentifier(key)
    ensures HiddenByOpt(o, key, Writer) <==> OptValueHides(o, key)
  {
    if o.Some? {
      WriterHides(o.value, key);
    }
  }

  lemma KeysAreIdentifiers()
    ensures IsIdentifier("priority") && IsIdentifier("message_id") && IsIdentifier("reply_to") && IsIdentifier("force")
  {
  }

  lemma ArrivesWritten(i: OperatorInput)
    ensures Arrives(i, Writer) == ArrivesByValue(i)
  {
    assert forall v, key :: IsIdentifier(key) ==> (HiddenBy(v, key, Writer) <==> ValueHides(v, key)) by {
      forall v, key | IsIdentifier(key) ensures HiddenBy(v, key, Writer) <==> ValueHides(v, key) {
        WriterHides(v, key);
      }
    }
    KeysAreIdentifiers();
    WriterHidesOpt(i.messageId, "reply_to");
    WriterHidesOpt(i.messageId, "force");
    WriterHidesOpt(i.replyTo, "force");
  }

  lemma ParsedInput(i: OperatorInput, how: Printer)
    requires IsPrinter(how)
    ensures Parsed(InputText(i, how)) == Some(Arrives(i, how.spell))
  {
    ParsedPrintedInput(i, how, "", "");
    assert "" + InputText(i, how) + "" == InputText(i, how);
  }

  lemma ArrivesUnchangedIff(i: OperatorInput)
    ensures ArrivesByValue(i) == i <==> !LosesField(i)
  {
  }

  /** With the crate's own spelling, whatever the whitespace, the round trip holds exactly when no field is lost. */
  lemma InputRoundTrip(i: OperatorInput, how: Printer)
    requires IsPrinter(how) && how.spell == Writer
    ensures Parsed(InputText(i, how)) == Some(ArrivesByValue(i))
    ensures Parsed(InputText(i, how)) == Some(i) <==> !LosesField(i)
  {
    ParsedInput(i, how);
    ArrivesWritten(i);
    ArrivesUnchangedIff(i);
  }

  /** An urgent message whose text is the word `priority` arrives at normal urgency. */
  lemma UrgencyLost(i: OperatorInput, how: Printer)
    requires i == OperatorInput("priority", Critical, None, None, None) && IsPrinter(how) && how.spell == Writer
    ensures Parsed(InputText(i, how)) == Some(i.(priority := Normal))
  {
    InputRoundTrip(i, how);
  }

  /** The tightest way to print: no whitespace, and absent fields left out. */
  const COMPACT := Printer(Writer, _ => Gaps("", "", "", ""), _ => false)

  lemma CompactIsPrinter()
    ensures IsPrinter(COMPACT)
  {
    WriterIsSpelling();
  }
}
