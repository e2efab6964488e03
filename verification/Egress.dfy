/** URL screening: taking a URL apart, and the four-way policy of the egress guard. */
module Egress {
  import opened Text
  import opened Addresses

  // ── Cutting text ───────────────────────────────────────────────────────────

  /** `split(c).next()` */
  function Until(s: string, c: char): string {
    s[..Index(s, c)]
  }

  lemma {:induction false} IndexOfConcat(p: string, t: string, c: char)
    requires c !in p
    ensures Index(p + t, c) == |p| + Index(t, c)
  {
    if p == "" {
      assert p + t == t;
    } else {
      assert (p + t)[1..] == p[1..] + t;
      IndexOfConcat(p[1..], t, c);
    }
  }

  /** The authority of what follows `://`, by three successive splits. */
  function Authority(rest: string): string {
    Until(Until(Until(rest, '/'), '?'), '#')
  }

  function Min3(a: nat, b: nat, c: nat): nat {
    var m := if a < b then a else b;
    if m < c then m else c
  }

  /** The three splits cut at the earliest of the three characters. */
  lemma AuthorityIsEarliestCut(rest: string)
    ensures Authority(rest) == rest[..Min3(Index(rest, '/'), Index(rest, '?'), Index(rest, '#'))]
  {
    UntilTwice(rest, Index(rest, '/'), '?');
    var t := Until(Until(rest, '/'), '?');
    var n := |t|;
    assert t == rest[..n];
    UntilTwice(rest, n, '#');
  }

  lemma UntilTwice(s: string, n: nat, c: char)
    requires n <= |s|
    ensures Until(s[..n], c) == s[..if Index(s, c) < n then Index(s, c) else n]
  {
    var j := Index(s, c);
    IndexIs(s[..n], c, if j < n then j else n);
  }

  /** The position of the first `://`, or the length. */
  function SchemeEnd(s: string): (i: nat)
    ensures i <= |s| && (i < |s| ==> i + 3 <= |s|)
  {
    if s == "" || StartsWith(s, "://") then 0 else 1 + SchemeEnd(s[1..])
  }

  /** The authority without userinfo. */
  function AfterUserinfo(authority: string): string {
    var at := Index(authority, '@');
    if at < |authority| then authority[at + 1..] else authority
  }

  /** The host without port: up to the bracket of an IPv6 literal, else up to a last colon and digits. */
  function WithoutPort(authority: string): string {
    if authority != "" && authority[0] == '[' then
      var close := Index(authority, ']');
      if close < |authority| then authority[..close + 1] else authority
    else
      var colon := LastIndex(authority, ':');
      if colon >= 0 && AllDigits(authority[colon + 1..], 10) then authority[..colon] else authority
  }

  /** `parse_scheme_host` */
  function SchemeHost(url: string): Option<(string, string)> {
    var sep := SchemeEnd(url);
    if sep == |url| then None
    else
      var host := WithoutPort(AfterUserinfo(Authority(url[sep + 3..])));
      if host == "" then None else Some((Lower(url[..sep]), host))
  }

  // ── Assembled URLs (section 3.2 of RFC 3986) ───────────────────────────────

  /** `host`: a name or IPv4 address, or a bracketed IPv6 literal. */
  datatype Host = Name(text: string) | Literal(inner: string)

  function HostText(h: Host): string {
    match h case Name(t) => t case Literal(i) => "[" + i + "]"
  }

  datatype Url = Url(scheme: string, userinfo: Option<string>, host: Host, port: Option<string>, tail: string)

  /** None of the characters that delimit an authority or its userinfo. */
  predicate Undelimited(s: string) {
    '/' !in s && '?' !in s && '#' !in s && '@' !in s
  }

  predicate WellFormed(u: Url) {
    && ':' !in u.scheme
    && (u.userinfo.Some? ==> Undelimited(u.userinfo.value))
    && (match u.host
        case Name(t) => Undelimited(t) && ':' !in t && (t != "" ==> t[0] != '[')
        case Literal(i) => Undelimited(i) && ']' !in i)
    && (u.port.Some? ==> AllDigits(u.port.value, 10))
    && (u.tail == "" || u.tail[0] == '/' || u.tail[0] == '?' || u.tail[0] == '#')
  }

  function UserinfoText(u: Url): string {
    if u.userinfo.Some? then u.userinfo.value + "@" else ""
  }

  function PortText(u: Url): string {
    if u.port.Some? then ":" + u.port.value else ""
  }

  function HostPort(u: Url): string {
    HostText(u.host) + PortText(u)
  }

  function UrlText(u: Url): string {
    u.scheme + "://" + ((UserinfoText(u) + HostPort(u)) + u.tail)
  }

  lemma {:induction false} SchemeEndAt(scheme: string, rest: string)
    requires ':' !in scheme
    ensures SchemeEnd(scheme + "://" + rest) == |scheme|
  {
    var s := scheme + "://" + rest;
    if scheme == "" {
      assert s == "://" + rest;
      StartsWithConcat("://", rest);
    } else {
      assert s[0] == scheme[0] && scheme[0] != ':';
      assert !StartsWith(s, "://") by { assert "://"[0] == ':'; assert |s| >= 3 ==> s[..3][0] == s[0]; }
      assert s[1..] == scheme[1..] + "://" + rest;
      SchemeEndAt(scheme[1..], rest);
    }
  }

  lemma AuthorityAt(auth: string, tail: string)
    requires '/' !in auth && '?' !in auth && '#' !in auth
    requires tail == "" || tail[0] == '/' || tail[0] == '?' || tail[0] == '#'
    ensures Authority(auth + tail) == auth
  {
    AuthorityIsEarliestCut(auth + tail);
    IndexOfConcat(auth, tail, '/');
    IndexOfConcat(auth, tail, '?');
    IndexOfConcat(auth, tail, '#');
    assert (auth + tail)[..|auth|] == auth;
  }

  lemma DigitsAreUndelimited(p: string)
    requires AllDigits(p, 10)
    ensures Undelimited(p) && ':' !in p && '[' !in p && ']' !in p
  {
    assert forall i :: 0 <= i < |p| ==> '0' <= p[i] <= '9';
  }

  lemma HostPortIsUndelimited(u: Url)
    requires WellFormed(u)
    ensures Undelimited(HostPort(u))
  {
    if u.port.Some? {
      DigitsAreUndelimited(u.port.value);
    }
  }

  lemma AfterUserinfoAt(u: Url)
    requires WellFormed(u)
    ensures AfterUserinfo(UserinfoText(u) + HostPort(u)) == HostPort(u)
  {
    HostPortIsUndelimited(u);
    var hp := HostPort(u);
    if u.userinfo.Some? {
      var ui := u.userinfo.value;
      assert UserinfoText(u) + hp == ui + ("@" + hp);
      IndexOfConcat(ui, "@" + hp, '@');
      assert (ui + ("@" + hp))[|ui| + 1..] == hp;
    } else {
      assert UserinfoText(u) + hp == hp;
      IndexOfConcat(hp, "", '@');
      assert hp + "" == hp;
    }
  }

  lemma {:induction false} LastColonAt(p: string, d: string)
    requires ':' !in d
    ensures LastIndex(p + ":" + d, ':') == |p|
  {
    var s := p + ":" + d;
    if d == "" {
      assert s[|s| - 1] == ':';
    } else {
      assert s[|s| - 1] == d[|d| - 1];
      assert s[..|s| - 1] == p + ":" + d[..|d| - 1];
      LastColonAt(p, d[..|d| - 1]);
    }
  }

  lemma WithoutNoPort(t: string)
    requires ':' !in t && (t != "" ==> t[0] != '[')
    ensures WithoutPort(t) == t
  {
  }

  lemma WithoutDigits(t: string, port: string)
    requires (t != "" ==> t[0] != '[') && AllDigits(port, 10)
    ensures WithoutPort(t + (":" + port)) == t
  {
    var hp := t + (":" + port);
    DigitsAreUndelimited(port);
    assert hp[0] != '[' by { assert hp[0] == if t != "" then t[0] else ':'; }
    assert hp == t + ":" + port;
    LastColonAt(t, port);
    assert hp[|t| + 1..] == port && hp[..|t|] == t;
  }

  lemma WithoutPortAt(u: Url)
    requires WellFormed(u)
    ensures WithoutPort(HostPort(u)) == HostText(u.host)
  {
    var h, hp := HostText(u.host), HostPort(u);
    match u.host
    case Literal(inner) =>
      assert hp == ("[" + inner) + ("]" + PortText(u));
      IndexOfConcat("[" + inner, "]" + PortText(u), ']');
      assert hp[..|inner| + 2] == h;
    case Name(t) =>
      if u.port.Some? {
        WithoutDigits(t, u.port.value);
      } else {
        assert hp == t;
        WithoutNoPort(t);
      }
  }

  /** Every well-formed URL gives back its lower-cased scheme and its host, and nothing when it has no host. */
  lemma SchemeHostRecovers(u: Url)
    requires WellFormed(u)
    ensures SchemeHost(UrlText(u)) == if u.host == Name("") then None else Some((Lower(u.scheme), HostText(u.host)))
  {
    var auth := UserinfoText(u) + HostPort(u);
    var rest := auth + u.tail;
    var url := u.scheme + "://" + rest;
    SchemeEndAt(u.scheme, rest);
    assert url[..|u.scheme|] == u.scheme && url[|u.scheme| + 3..] == rest;
    HostPortIsUndelimited(u);
    AuthorityAt(auth, u.tail);
    AfterUserinfoAt(u);
    WithoutPortAt(u);
  }

  /** A text without `://` is no URL. */
  lemma {:induction false} NoSeparator(s: string)
    requires forall i :: 0 <= i <= |s| ==> !StartsWith(s[i..], "://")
    ensures SchemeEnd(s) == |s| && SchemeHost(s) == None
  {
    if s != "" {
      assert s[0..] == s;
      assert forall i :: 0 <= i <= |s[1..]| ==> s[1..][i..] == s[i + 1..];
      NoSeparator(s[1..]);
    }
  }

  // ── Host patterns ──────────────────────────────────────────────────────────

  function TrimEndDots(s: string): string {
    if s != "" && s[|s| - 1] == '.' then TrimEndDots(s[..|s| - 1]) else s
  }

  function TrimStartDots(s: string): string {
    if s != "" && s[0] == '.' then TrimStartDots(s[1..]) else s
  }

  /** `host_matches` */
  predicate HostMatches(host: string, pattern: string) {
    var h := TrimEndDots(host);
    var p := TrimEndDots(TrimStartDots(pattern));
    || Lower(h) == Lower(p)
    || EndsWith(h, "." + p)
    || EndsWith(Lower(h), "." + Lower(p))
  }

  /** The labels of a name, lower-cased. */
  function Labels(name: string): seq<string> {
    Split(Lower(name), '.')
  }

  predicate LabelSuffix(of: seq<string>, tail: seq<string>) {
    |tail| <= |of| && of[|of| - |tail|..] == tail
  }

  lemma {:induction false} SplitConcat(p: string, t: string, sep: char)
    ensures Split(p + ([sep] + t), sep) == Split(p, sep) + Split(t, sep)
  {
    var s := p + ([sep] + t);
    if p == "" {
      assert s == [sep] + t && s[1..] == t;
    } else {
      assert s[1..] == p[1..] + ([sep] + t);
      SplitConcat(p[1..], t, sep);
    }
  }

  lemma {:induction false} JoinAppend(a: seq<string>, b: seq<string>, sep: char)
    requires |a| > 0 && |b| > 0
    ensures Join(a + b, sep) == Join(a, sep) + [sep] + Join(b, sep)
  {
    if |a| == 1 {
      assert (a + b)[1..] == b;
    } else {
      assert (a + b)[1..] == a[1..] + b;
      JoinAppend(a[1..], b, sep);
    }
  }

  lemma SuffixHasLabels(h: string, p: string)
    requires EndsWith(h, "." + p)
    ensures LabelSuffix(Split(h, '.'), Split(p, '.'))
  {
    var q := h[..|h| - |p| - 1];
    assert h == q + ("." + p);
    SplitConcat(q, p, '.');
  }

  lemma LabelsMakeSuffix(h: string, p: string)
    requires LabelSuffix(Split(h, '.'), Split(p, '.')) && h != p
    ensures EndsWith(h, "." + p)
  {
    var hs, ps := Split(h, '.'), Split(p, '.');
    JoinSplit(h, '.');
    JoinSplit(p, '.');
    var front := hs[..|hs| - |ps|];
    assert hs == front + ps;
    assert |front| == 0 ==> hs == ps;
    JoinAppend(front, ps, '.');
    EndsWithJoined(h, Join(front, '.'), p);
  }

  lemma EndsWithJoined(h: string, q: string, p: string)
    requires h == q + ['.'] + p
    ensures EndsWith(h, "." + p)
  {
    assert h == q + ("." + p);
    assert h[|h| - |p| - 1..] == "." + p;
  }

  /** Being a name or a subdomain of it is exactly a question of whole labels. */
  lemma SuffixIffLabels(h: string, p: string)
    ensures h == p || EndsWith(h, "." + p) <==> LabelSuffix(Split(h, '.'), Split(p, '.'))
  {
    if EndsWith(h, "." + p) {
      SuffixHasLabels(h, p);
    } else if LabelSuffix(Split(h, '.'), Split(p, '.')) && h != p {
      LabelsMakeSuffix(h, p);
    }
  }

  lemma EndsWithLower(h: string, p: string)
    requires EndsWith(h, p)
    ensures EndsWith(Lower(h), Lower(p))
  {
    assert Lower(h)[|h| - |p|..] == Lower(h[|h| - |p|..]);
  }

  lemma MatchIffLabels(h: string, p: string)
    ensures Lower(h) == Lower(p) || EndsWith(h, "." + p) || EndsWith(Lower(h), "." + Lower(p)) <==>
            LabelSuffix(Labels(h), Labels(p))
  {
    SuffixIffLabels(Lower(h), Lower(p));
    if EndsWith(h, "." + p) {
      EndsWithLower(h, "." + p);
      assert Lower("." + p) == "." + Lower(p);
    }
  }

  /** A pattern matches exactly the hosts whose last labels are its own, in any letter case. */
  lemma HostMatchesIffLabels(host: string, pattern: string)
    ensures HostMatches(host, pattern) <==>
            LabelSuffix(Labels(TrimEndDots(host)), Labels(TrimEndDots(TrimStartDots(pattern))))
  {
    MatchIffLabels(TrimEndDots(host), TrimEndDots(TrimStartDots(pattern)));
  }

  // ── The guard ──────────────────────────────────────────────────────────────

  datatype Guard = Guard(allowedSchemes: seq<string>, blocklist: seq<string>, allowlist: Option<seq<string>>)

  datatype Reason =
    | ForbiddenScheme(scheme: string)
    | SsrfPrivateAddress(address: string)
    | BlocklistedHost(host: string)
    | HostNotAllowed(host: string)

  datatype Verdict = Allow | Deny(reason: Reason)

  ghost predicate SchemeAllowed(g: Guard, scheme: string) {
    exists i :: 0 <= i < |g.allowedSchemes| && Lower(g.allowedSchemes[i]) == Lower(scheme)
  }

  ghost predicate OnList(host: string, list: seq<string>) {
    exists i :: 0 <= i < |list| && HostMatches(host, list[i])
  }

  /** The four conditions of the policy. */
  ghost predicate Permitted(g: Guard, url: string, parse6: Parser6) {
    SchemeHost(url).Some? &&
    var (scheme, host) := SchemeHost(url).value;
    var h := StripBrackets(host);
    && SchemeAllowed(g, scheme)
    && !SsrfDenied(h, parse6)
    && !OnList(h, g.blocklist)
    && (g.allowlist.Some? ==> OnList(h, g.allowlist.value))
  }

  /** However a private address is spelled, and whatever surrounds it in the URL, the policy denies it. */
  lemma PrivateNeverPermitted(g: Guard, u: Url, a: Address, parts: seq<string>, parse6: Parser6)
    requires SpellsAddress(parts, a) && IsPrivate(a)
    requires u.host == Name(Join(parts, '.')) && WellFormed(u)
    ensures !Permitted(g, UrlText(u), parse6)
  {
    SpelledHostIsPlain(a, parts);
    SchemeHostRecovers(u);
    SpellingsJudgedAlike(a, parts, parse6);
  }

  /** Nor is a bracketed literal that reads as an address of a private block, or as an embedded form of one. */
  lemma PrivateLiteralNeverPermitted(g: Guard, u: Url, lit: string, s: Segments, parse6: Parser6)
    requires ':' in lit && parse6(lit) == Some(s) && (InPrivateBlock6(s) || EmbedsPrivate(s))
    requires u.host == Literal(lit) && WellFormed(u)
    ensures !Permitted(g, UrlText(u), parse6)
  {
    SchemeHostRecovers(u);
    var b := "[" + lit + "]";
    assert b[0] == '[' && b[|b| - 1] == ']' && b[1..|b| - 1] == lit;
    assert StripBrackets(b) == lit && StripBrackets(lit) == lit;
    ColonDeniedIff(lit, parse6);
  }

  /** A literal outside those blocks is permitted whenever the scheme and the lists allow it. */
  lemma PublicLiteralIsLeftToTheLists(g: Guard, u: Url, lit: string, s: Segments, parse6: Parser6)
    requires ':' in lit && parse6(lit) == Some(s) && !InPrivateBlock6(s) && !EmbedsPrivate(s)
    requires !EndsWith(Lower(lit), ".localhost")
    requires u.host == Literal(lit) && WellFormed(u)
    ensures Permitted(g, UrlText(u), parse6) <==>
            && SchemeAllowed(g, Lower(u.scheme))
            && !OnList(lit, g.blocklist)
            && (g.allowlist.Some? ==> OnList(lit, g.allowlist.value))
  {
    SchemeHostRecovers(u);
    var b := "[" + lit + "]";
    assert b[0] == '[' && b[|b| - 1] == ']' && b[1..|b| - 1] == lit;
    assert StripBrackets(b) == lit && StripBrackets(lit) == lit;
    ColonDeniedIff(lit, parse6);
  }

  lemma LastLabel(h: string, name: string, dotted: string)
    requires '.' !in name && dotted == "." + name
    ensures Lower(h) == name || EndsWith(Lower(h), dotted) <==> LabelSuffix(Labels(h), [name])
  {
    SuffixIffLabels(Lower(h), name);
    SplitPlain(name, '.');
  }

  /** The names that are denied as this host: those whose last label is `localhost`. */
  lemma LocalhostIffLabel(h: string)
    ensures IsLocalhost(h) <==> LabelSuffix(Labels(h), ["localhost"])
  {
    var name, dotted := "localhost", ".localhost";
    assert dotted[1..] == name;
    LastLabel(h, name, dotted);
  }

  method AnyMatch(host: string, list: seq<string>) returns (found: bool)
    ensures found <==> OnList(host, list)
  {
    for i := 0 to |list|
      invariant forall k :: 0 <= k < i ==> !HostMatches(host, list[k])
    {
      if HostMatches(host, list[i]) {
        return true;
      }
    }
    return false;
  }

  method AnyScheme(scheme: string, g: Guard) returns (found: bool)
    ensures found <==> SchemeAllowed(g, scheme)
  {
    for i := 0 to |g.allowedSchemes|
      invariant forall k :: 0 <= k < i ==> Lower(g.allowedSchemes[k]) != Lower(scheme)
    {
      if Lower(g.allowedSchemes[i]) == Lower(scheme) {
        return true;
      }
    }
    return false;
  }

  /** `check_url`: allowed exactly when permitted; denied for the first condition that fails. */
  method CheckUrl(g: Guard, url: string, parse6: Parser6) returns (v: Verdict)
    ensures v == Allow <==> Permitted(g, url, parse6)
    ensures SchemeHost(url).None? ==> v == Deny(ForbiddenScheme("<unparseable>"))
    ensures SchemeHost(url).Some? ==>
              var (scheme, host) := SchemeHost(url).value;
              var h := StripBrackets(host);
              var passed, safe := SchemeAllowed(g, scheme), !SsrfDenied(h, parse6);
              && (v == Deny(ForbiddenScheme(scheme)) <==> !passed)
              && (v == Deny(SsrfPrivateAddress(StripBrackets(h))) <==> passed && !safe)
              && (v == Deny(BlocklistedHost(h)) <==> passed && safe && OnList(h, g.blocklist))
              && (v == Deny(HostNotAllowed(h)) <==>
                    passed && safe && !OnList(h, g.blocklist) && g.allowlist.Some? && !OnList(h, g.allowlist.value))
  {
    var parsed := SchemeHost(url);
    if parsed.None? {
      return Deny(ForbiddenScheme("<unparseable>"));
    }
    var (scheme, host) := parsed.value;
    var ok := AnyScheme(scheme, g);
    if !ok {
      return Deny(ForbiddenScheme(scheme));
    }
    var h := StripBrackets(host);
    if SsrfDenied(h, parse6) {
      return Deny(SsrfPrivateAddress(StripBrackets(h)));
    }
    var blocked := AnyMatch(h, g.blocklist);
    if blocked {
      return Deny(BlocklistedHost(h));
    }
    if g.allowlist.Some? {
      var listed := AnyMatch(h, g.allowlist.value);
      if !listed {
        return Deny(HostNotAllowed(h));
      }
    }
    return Allow;
  }
}
