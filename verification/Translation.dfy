/**
 What an audit entry does to the links and what it shows, read off the JSON itself: which variants and
 fields count, and what a missing or mistyped field stands for.
 */
module Translation {
  import opened Text
  import opened Utf8
  import opened Json
  import opened Correlation
  import opened AuditTailer
  import Events

  // ── Fields ─────────────────────────────────────────────────────────────────

  /** The fields of the first variant of an entry: none unless they are an object. */
  ghost predicate IsEntry(value: Json, variant: string, fields: seq<Member>) {
    value.Obj? && (forall i :: 0 <= i < |value.members| ==> !Before(value.members[i].key, variant)) &&
    exists j :: Has(value.members, variant, j) && fields == (if j.Obj? then j.members else [])
  }

  /** Decimal digits for `n`, within 64 bits. */
  predicate IsNat(j: Json, n: nat) {
    j.Num? && j.token != "" && AllDigits(j.token, 10) && Numeral(j.token, 10) == n < U64_LIMIT
  }

  ghost predicate HasNat(fs: seq<Member>, key: string, n: nat) {
    exists j :: Has(fs, key, j) && IsNat(j, n)
  }

  /** The number under a key, or 0 when there is none. */
  ghost predicate NatUnder(fs: seq<Member>, key: string, n: nat) {
    HasNat(fs, key, n) || (n == 0 && forall k :: !HasNat(fs, key, k))
  }

  /** The string under a key, or the empty one. */
  ghost predicate TextUnder(fs: seq<Member>, key: string, s: string) {
    Has(fs, key, Str(s)) || (s == "" && forall t :: !Has(fs, key, Str(t)))
  }

  ghost predicate OptTextUnder(fs: seq<Member>, key: string, s: Option<string>) {
    if s.Some? then Has(fs, key, Str(s.value)) else forall t :: !Has(fs, key, Str(t))
  }

  /** True only when it says so. */
  ghost predicate BoolUnder(fs: seq<Member>, key: string, b: bool) {
    b <==> Has(fs, key, Bool(true))
  }

  /** The number under a key, or zero. */
  ghost predicate FloatUnder(fs: seq<Member>, key: string, f: Events.Float) {
    || (f.Finite? && Has(fs, key, Num(f.token)))
    || (f == Events.Finite("0") && forall t: string :: IsNumber(t) ==> !Has(fs, key, Num(t)))
  }

  lemma NatFieldIff(e: Entry, key: string, n: nat)
    ensures AsU64(Get(e.fields, key)) == Some(n) <==> HasNat(e.fields, key, n)
    ensures NatField(e, key) == n <==> NatUnder(e.fields, key, n)
  {
    HasNatIff(e.fields, key);
  }

  lemma HasNatIff(fs: seq<Member>, key: string)
    ensures forall k: nat :: HasNat(fs, key, k) <==> AsU64(Get(fs, key)) == Some(k)
  {
    forall j ensures Has(fs, key, j) <==> Get(fs, key) == Some(j) { GetIff(fs, key, j); }
  }

  lemma TextFieldIff(e: Entry, key: string, s: string)
    ensures StrField(e, key) == s <==> TextUnder(e.fields, key, s)
  {
    forall j ensures Has(e.fields, key, j) <==> Get(e.fields, key) == Some(j) { GetIff(e.fields, key, j); }
  }

  lemma OptTextIff(e: Entry, key: string, s: Option<string>)
    ensures AsStr(Get(e.fields, key)) == s <==> OptTextUnder(e.fields, key, s)
  {
    forall j ensures Has(e.fields, key, j) <==> Get(e.fields, key) == Some(j) { GetIff(e.fields, key, j); }
  }

  lemma BoolFieldIff(e: Entry, key: string, b: bool)
    ensures BoolField(e, key) == b <==> BoolUnder(e.fields, key, b)
  {
    GetIff(e.fields, key, Bool(true));
  }

  lemma FloatFieldIff(e: Entry, key: string, f: Events.Float)
    ensures FloatField(e, key) == f <==> FloatUnder(e.fields, key, f)
  {
    forall j ensures Has(e.fields, key, j) <==> Get(e.fields, key) == Some(j) { GetIff(e.fields, key, j); }
  }

  // ── The entry of a value ───────────────────────────────────────────────────

  lemma {:induction false} LeastKeyIsLeast(ms: seq<Member>)
    requires ms != []
    ensures exists i :: 0 <= i < |ms| && ms[i].key == LeastKey(ms)
    ensures forall i :: 0 <= i < |ms| ==> !Before(ms[i].key, LeastKey(ms))
  {
    if |ms| == 1 {
      BeforeTotal(ms[0].key, ms[0].key);
    } else {
      LeastKeyIsLeast(ms[1..]);
      LeastOfTwo(ms[0].key, ms[1..]);
      assert forall i :: 0 < i < |ms| ==> ms[i] == ms[1..][i - 1];
      var j :| 0 <= j < |ms[1..]| && ms[1..][j].key == LeastKey(ms[1..]);
      assert ms[j + 1].key == LeastKey(ms[1..]);
    }
  }

  lemma LeastOfTwo(a: string, rest: seq<Member>)
    requires rest != [] && forall i :: 0 <= i < |rest| ==> !Before(rest[i].key, LeastKey(rest))
    ensures var k := LeastKey(rest);
            var m := if Before(k, a) then k else a;
            !Before(a, m) && forall i :: 0 <= i < |rest| ==> !Before(rest[i].key, m)
  {
    var k := LeastKey(rest);
    BeforeTotal(k, a);
    BeforeTotal(a, a);
    if !Before(k, a) {
      forall i | 0 <= i < |rest| ensures !Before(rest[i].key, a) {
        if Before(rest[i].key, a) && a != k {
          BeforeTransitive(rest[i].key, a, k);
        }
      }
    }
  }

  lemma {:induction false} KeyIsHad(ms: seq<Member>, key: string)
    requires exists i :: 0 <= i < |ms| && ms[i].key == key
    ensures Get(ms, key).Some?
  {
    if ms[|ms| - 1].key != key {
      var i :| 0 <= i < |ms| && ms[i].key == key;
      assert ms[..|ms| - 1][i].key == key;
      KeyIsHad(ms[..|ms| - 1], key);
    }
  }

  /** The entry of a value is the one under its first key. */
  lemma EntryIff(value: Json, variant: string, fs: seq<Member>)
    ensures EntryOf(value) == Some(Entry(variant, fs)) <==> IsEntry(value, variant, fs)
  {
    if value.Obj? && value.members != [] {
      var ms := value.members;
      LeastKeyIsLeast(ms);
      KeyIsHad(ms, LeastKey(ms));
      forall j ensures Has(ms, variant, j) <==> Get(ms, variant) == Some(j) { GetIff(ms, variant, j); }
      BeforeTotal(variant, LeastKey(ms));
    }
  }

  lemma EntryAt(value: Json, variant: string, fs: seq<Member>) returns (e: Entry)
    requires IsEntry(value, variant, fs)
    ensures EntryOf(value) == Some(e) && e.variant == variant && e.fields == fs
  {
    EntryIff(value, variant, fs);
    e := Entry(variant, fs);
  }

  // ── What each entry does ───────────────────────────────────────────────────

  function Held(links: Links, t: nat): Option<string> {
    if t in links then Some(links[t]) else None
  }

  // The variants by name, each an instance of the chains of tests in `EventOf` and `ActionOf`.

  lemma LinkEntry(e: Entry, t: nat, m: string)
    requires e.variant == "OperatorMessageLinked"
    requires AsU64(Get(e.fields, "task_id")) == Some(t) && AsStr(Get(e.fields, "message_id")) == Some(m)
    ensures ActionOf(e) == Linked(t, m) && forall links :: ShownFor(links, e) == None
  {
  }

  lemma CompletionEntry(e: Entry)
    requires e.variant == "TaskCompleted"
    ensures ActionOf(e) == Replied(NatField(e, "task_id"))
    ensures EventOf(e) == Event(Events.AgentMessage(NatField(e, "task_id"), None,
                                                    NatField(e, "tokens_emitted") % U32_LIMIT, StrField(e, "response")))
    ensures forall links :: ShownFor(links, e).Some?
  {
  }

  lemma GateEntry(e: Entry)
    requires e.variant == "GateDecision"
    ensures ActionOf(e) == if GateTask(e).Some? then Gated(GateTask(e).value, BoolField(e, "invoke")) else Ignored
    ensures EventOf(e) == Event(Events.Gate(
      None, BoolField(e, "invoke"), AsStr(Get(e.fields, "cost_class")), FloatField(e, "value_score"),
      FloatField(e, "threshold_applied"), BoolField(e, "override_active"), StrField(e, "reasoning")))
    ensures forall links :: ShownFor(links, e).Some?
  {
  }

  lemma VitalsEntry(e: Entry)
    requires e.variant == "InteroceptiveSnapshot"
    ensures ActionOf(e) == Ignored
    ensures EventOf(e) == Event(Events.Vitals(
      FloatField(e, "thermal_load"), FloatField(e, "compute_pressure"), FloatField(e, "memory_pressure"),
      FloatField(e, "power_budget"), FloatField(e, "financial_budget"), FloatField(e, "attention_demand"),
      FloatField(e, "aggregate_stress")))
    ensures forall links :: ShownFor(links, e).Some?
  {
  }

  lemma LinkApplied(links: Links, t: nat, m: string, low: nat)
    requires |links| >= 256 ==> IsLeast(links.Keys, low)
    ensures Apply(links, Linked(t, m)) == (if |links| < 256 then links else links - {low})[t := m]
  {
    if |links| >= 256 {
      assert Least(links.Keys) <= low <= Least(links.Keys);
    }
  }

  lemma TranslatedEntry(links: Links, value: Json, e: Entry, a: Action, event: Events.Event, after: Links, shown: Shown)
    requires EntryOf(value) == Some(e) && ActionOf(e) == a && EventOf(e) == Event(event) && ShownFor(links, e).Some?
    requires Apply(links, a) == after && WithMessage(Event(event), Stamp(links, a)) == shown
    ensures Translated(links, value) == (after, Some(shown))
  {
  }

  lemma StartEffect(links: Links, t: Events.U64, prompt: string)
    ensures Apply(links, Started(t)) == links
    ensures WithMessage(Event(Events.TaskStarted(t, None, prompt)), Stamp(links, Started(t))) ==
            Event(Events.TaskStarted(t, Held(links, t), prompt))
  {
  }

  lemma CompletionEffect(links: Links, t: Events.U64, n: Events.U32, text: string)
    ensures Apply(links, Replied(t)) == links - {t}
    ensures WithMessage(Event(Events.AgentMessage(t, None, n, text)), Stamp(links, Replied(t))) ==
            Event(Events.AgentMessage(t, Held(links, t), n, text))
  {
  }

  lemma FailureEffect(links: Links, t: nat, error: string)
    ensures Apply(links, Failed(t)) == links - {t}
    ensures WithMessage(Event(FailureEvent(t, error, None)), Stamp(links, Failed(t))) ==
            Event(FailureEvent(t, error, Held(links, t)))
    ensures WithMessage(Event(FailureEvent(t, error, None)), Stamp(links, Ignored)) ==
            Event(FailureEvent(t, error, None))
  {
  }

  lemma GateEffect(links: Links, ev: Events.Event, t: Option<nat>)
    requires ev.Gate? && ev.messageId == if t.Some? then Held(links, t.value) else None
    ensures var a := if t.Some? then Gated(t.value, ev.invoke) else Ignored;
            && Apply(links, a) == (if t.Some? && !ev.invoke then links - {t.value} else links)
            && WithMessage(Event(Unstamped(ev)), Stamp(links, a)) == Event(ev)
  {
  }

  lemma NatIs(e: Entry, key: string, n: nat)
    requires NatUnder(e.fields, key, n)
    ensures NatField(e, key) == n
  {
    NatFieldIff(e, key, n);
  }

  lemma TextIs(e: Entry, key: string, s: string)
    requires TextUnder(e.fields, key, s)
    ensures StrField(e, key) == s
  {
    TextFieldIff(e, key, s);
  }

  /** A link is remembered, in place of the lowest task when there is no room; it shows nothing. */
  lemma LinkTranslated(links: Links, value: Json, fs: seq<Member>, t: nat, m: string, low: nat)
    requires IsEntry(value, "OperatorMessageLinked", fs) && HasNat(fs, "task_id", t) && Has(fs, "message_id", Str(m))
    requires |links| >= 256 ==> IsLeast(links.Keys, low)
    ensures Translated(links, value) == ((if |links| < 256 then links else links - {low})[t := m], None)
  {
    var e := EntryAt(value, "OperatorMessageLinked", fs);
    assert AsU64(Get(e.fields, "task_id")) == Some(t) by { NatFieldIff(e, "task_id", t); }
    assert AsStr(Get(e.fields, "message_id")) == Some(m) by { OptTextIff(e, "message_id", Some(m)); }
    LinkEntry(e, t, m);
    LinkApplied(links, t, m, low);
  }

  /** A link without a task or a message does nothing. */
  lemma BadLinkTranslated(links: Links, value: Json, fs: seq<Member>)
    requires IsEntry(value, "OperatorMessageLinked", fs)
    requires (forall t :: !HasNat(fs, "task_id", t)) || forall m :: !Has(fs, "message_id", Str(m))
    ensures Translated(links, value) == (links, None)
  {
    var e := EntryAt(value, "OperatorMessageLinked", fs);
    HasNatIff(fs, "task_id");
    OptTextIff(e, "message_id", None);
  }

  lemma StartFields(e: Entry, t: nat, prompt: string)
    requires e.variant == "TaskStarted" && NatUnder(e.fields, "task_id", t) && TextUnder(e.fields, "prompt", prompt)
    ensures ActionOf(e) == Started(t) && forall links :: ShownFor(links, e).Some?
    ensures EventOf(e) == Event(Events.TaskStarted(t, None, prompt))
  {
    NatIs(e, "task_id", t);
    TextIs(e, "prompt", prompt);
  }

  lemma StartTranslated(links: Links, value: Json, fs: seq<Member>, t: nat, prompt: string)
    requires IsEntry(value, "TaskStarted", fs) && NatUnder(fs, "task_id", t) && TextUnder(fs, "prompt", prompt)
    ensures Translated(links, value) == (links, Some(Event(Events.TaskStarted(t, Held(links, t), prompt))))
  {
    var e := EntryAt(value, "TaskStarted", fs);
    StartFields(e, t, prompt);
    StartEffect(links, t, prompt);
    TranslatedEntry(links, value, e, Started(t), Events.TaskStarted(t, None, prompt), links,
                    Event(Events.TaskStarted(t, Held(links, t), prompt)));
  }

  lemma CompletionFields(e: Entry, t: nat, n: nat, text: string)
    requires e.variant == "TaskCompleted" && NatUnder(e.fields, "task_id", t)
    requires NatUnder(e.fields, "tokens_emitted", n) && TextUnder(e.fields, "response", text)
    ensures ActionOf(e) == Replied(t) && forall links :: ShownFor(links, e).Some?
    ensures EventOf(e) == Event(Events.AgentMessage(t, None, n % U32_LIMIT, text))
  {
    NatIs(e, "task_id", t);
    NatIs(e, "tokens_emitted", n);
    TextIs(e, "response", text);
    CompletionEntry(e);
  }

  /** A reply carries its task's message and releases the link; its token count wraps at 32 bits. */
  lemma CompletionTranslated(links: Links, value: Json, fs: seq<Member>, t: nat, n: nat, text: string)
    requires IsEntry(value, "TaskCompleted", fs) && NatUnder(fs, "task_id", t)
    requires NatUnder(fs, "tokens_emitted", n) && TextUnder(fs, "response", text)
    ensures Translated(links, value) ==
            (links - {t}, Some(Event(Events.AgentMessage(t, Held(links, t), n % 0x1_0000_0000, text))))
  {
    var e := EntryAt(value, "TaskCompleted", fs);
    CompletionFields(e, t, n, text);
    CompletionEffect(links, t, n % U32_LIMIT, text);
    TranslatedEntry(links, value, e, Replied(t), Events.AgentMessage(t, None, n % U32_LIMIT, text), links - {t},
                    Event(Events.AgentMessage(t, Held(links, t), n % U32_LIMIT, text)));
  }

  function FailureEvent(t: nat, error: string, id: Option<string>): Events.Event {
    Events.Audit("TaskFailed", "task " + Decimal(t) + " failed: " + error, id)
  }

  lemma FailureFields(e: Entry, t: Option<nat>, error: string)
    requires e.variant == "TaskFailed" && TextUnder(e.fields, "error", error)
    requires if t.Some? then HasNat(e.fields, "task_id", t.value) else forall k :: !HasNat(e.fields, "task_id", k)
    ensures ActionOf(e) == (if t.Some? then Failed(t.value) else Ignored) && forall links :: ShownFor(links, e).Some?
    ensures EventOf(e) == Event(FailureEvent(if t.Some? then t.value else 0, error, None))
  {
    HasNatIff(e.fields, "task_id");
    TextIs(e, "error", error);
  }

  /** So does a failure, if it names its task. */
  lemma FailureTranslated(links: Links, value: Json, fs: seq<Member>, t: nat, error: string)
    requires IsEntry(value, "TaskFailed", fs) && HasNat(fs, "task_id", t) && TextUnder(fs, "error", error)
    ensures Translated(links, value) == (links - {t}, Some(Event(FailureEvent(t, error, Held(links, t)))))
  {
    var e := EntryAt(value, "TaskFailed", fs);
    FailureFields(e, Some(t), error);
    FailureEffect(links, t, error);
    TranslatedEntry(links, value, e, Failed(t), FailureEvent(t, error, None), links - {t},
                    Event(FailureEvent(t, error, Held(links, t))));
  }

  lemma NamelessFailureTranslated(links: Links, value: Json, fs: seq<Member>, error: string)
    requires IsEntry(value, "TaskFailed", fs) && forall t :: !HasNat(fs, "task_id", t)
    requires TextUnder(fs, "error", error)
    ensures Translated(links, value) == (links, Some(Event(FailureEvent(0, error, None))))
  {
    var e := EntryAt(value, "TaskFailed", fs);
    FailureFields(e, None, error);
    FailureEffect(links, 0, error);
    TranslatedEntry(links, value, e, Ignored, FailureEvent(0, error, None), links, Event(FailureEvent(0, error, None)));
  }

  /** The id of a sensory event names a task by its digits, with or without a plus sign. */
  ghost predicate NamesTask(id: string, t: nat) {
    exists digits {:trigger AllDigits(digits, 10)} ::
      digits != "" && AllDigits(digits, 10) && Numeral(digits, 10) == t < U64_LIMIT &&
      (id == "sensory-" + digits || id == "sensory-+" + digits)
  }

  ghost predicate GateFor(fs: seq<Member>, t: nat) {
    exists id :: Has(fs, "event_id", Str(id)) && NamesTask(id, t)
  }

  lemma ParsedU64Iff(s: string, t: nat)
    ensures ParseU64(s) == Some(t) <==>
            exists digits {:trigger AllDigits(digits, 10)} ::
              digits != "" && AllDigits(digits, 10) && Numeral(digits, 10) == t < U64_LIMIT &&
              (s == digits || s == "+" + digits)
  {
    forall digits: string | digits != "" && AllDigits(digits, 10)
      ensures ParseU64(digits) == ParseU64("+" + digits) ==
              if Numeral(digits, 10) < U64_LIMIT then Some(Numeral(digits, 10)) else None
    {
      assert DigitValue(digits[0]) < 10;
      StartsWithConcat("+", digits);
    }
    if ParseU64(s) == Some(t) {
      var digits := if StartsWith(s, "+") then s[1..] else s;
      assert AllDigits(digits, 10);
      assert StartsWith(s, "+") ==> s == "+" + digits;
    }
  }

  lemma SensoryIff(id: string, prefix: string, t: nat)
    requires |prefix| == 8
    ensures StartsWith(id, prefix) && ParseU64(id[8..]) == Some(t) <==>
            exists digits {:trigger AllDigits(digits, 10)} ::
              digits != "" && AllDigits(digits, 10) && Numeral(digits, 10) == t < U64_LIMIT &&
              (id == prefix + digits || id == prefix + ("+" + digits))
  {
    forall digits: string | id == prefix + digits || id == prefix + ("+" + digits)
      ensures StartsWith(id, prefix) && id[8..] == (if id == prefix + digits then digits else "+" + digits)
    {
      StartsWithConcat(prefix, digits);
      StartsWithConcat(prefix, "+" + digits);
    }
    if StartsWith(id, prefix) {
      ParsedU64Iff(id[8..], t);
      assert id == prefix + id[8..];
    }
    forall digits: string | digits != "" && AllDigits(digits, 10) && Numeral(digits, 10) == t < U64_LIMIT
      ensures ParseU64(digits) == Some(t) && ParseU64("+" + digits) == Some(t)
    {
      ParsedU64Iff(digits, t);
      ParsedU64Iff("+" + digits, t);
    }
  }

  lemma GateTaskIff(e: Entry, t: nat)
    ensures GateTask(e) == Some(t) <==> GateFor(e.fields, t)
  {
    forall j ensures Has(e.fields, "event_id", j) <==> Get(e.fields, "event_id") == Some(j) {
      GetIff(e.fields, "event_id", j);
    }
    var id := AsStr(Get(e.fields, "event_id"));
    if id.Some? {
      SensoryIff(id.value, "sensory-", t);
      SensoryNames(id.value, t);
    }
  }

  lemma SensoryNames(id: string, t: nat)
    ensures NamesTask(id, t) <==>
            exists digits {:trigger AllDigits(digits, 10)} ::
              digits != "" && AllDigits(digits, 10) && Numeral(digits, 10) == t < U64_LIMIT &&
              (id == "sensory-" + digits || id == "sensory-" + ("+" + digits))
  {
    assert forall digits: string {:trigger AllDigits(digits, 10)} ::
        "sensory-+" + digits == "sensory-" + ("+" + digits);
  }

  /** The fields a gate event shows. */
  ghost predicate ShowsGate(fs: seq<Member>, ev: Events.Event) {
    && ev.Gate? && BoolUnder(fs, "invoke", ev.invoke) && OptTextUnder(fs, "cost_class", ev.costClass)
    && FloatUnder(fs, "value_score", ev.valueScore) && FloatUnder(fs, "threshold_applied", ev.threshold)
    && BoolUnder(fs, "override_active", ev.overrideActive) && TextUnder(fs, "reasoning", ev.reasoning)
  }

  function Unstamped(ev: Events.Event): Events.Event
    requires ev.Gate?
  {
    match ev case Gate(_, invoke, cost, value, threshold, over, reasoning) =>
      Events.Gate(None, invoke, cost, value, threshold, over, reasoning)
  }

  lemma GateFields(e: Entry, ev: Events.Event)
    requires ShowsGate(e.fields, ev)
    ensures Unstamped(ev) ==
            Events.Gate(None, BoolField(e, "invoke"), AsStr(Get(e.fields, "cost_class")), FloatField(e, "value_score"),
                        FloatField(e, "threshold_applied"), BoolField(e, "override_active"), StrField(e, "reasoning"))
  {
    BoolFieldIff(e, "invoke", ev.invoke);
    OptTextIff(e, "cost_class", ev.costClass);
    FloatFieldIff(e, "value_score", ev.valueScore);
    FloatFieldIff(e, "threshold_applied", ev.threshold);
    BoolFieldIff(e, "override_active", ev.overrideActive);
    TextFieldIff(e, "reasoning", ev.reasoning);
  }

  /** A gate decision carries the message of the task it names; a blocked one releases the link. */
  lemma GateTranslated(links: Links, value: Json, fs: seq<Member>, ev: Events.Event, t: Option<nat>)
    requires IsEntry(value, "GateDecision", fs) && ShowsGate(fs, ev)
    requires if t.Some? then GateFor(fs, t.value) else forall k :: !GateFor(fs, k)
    requires ev.messageId == if t.Some? then Held(links, t.value) else None
    ensures Translated(links, value) ==
            (if t.Some? && !ev.invoke then links - {t.value} else links, Some(Event(ev)))
  {
    var e := EntryAt(value, "GateDecision", fs);
    GateParts(e, ev, t);
    GateEffect(links, ev, t);
    TranslatedEntry(links, value, e, if t.Some? then Gated(t.value, ev.invoke) else Ignored, Unstamped(ev),
                    if t.Some? && !ev.invoke then links - {t.value} else links, Event(ev));
  }

  lemma GateParts(e: Entry, ev: Events.Event, t: Option<nat>)
    requires e.variant == "GateDecision" && ShowsGate(e.fields, ev)
    requires if t.Some? then GateFor(e.fields, t.value) else forall k :: !GateFor(e.fields, k)
    ensures ActionOf(e) == (if t.Some? then Gated(t.value, ev.invoke) else Ignored)
    ensures EventOf(e) == Event(Unstamped(ev)) && forall links :: ShownFor(links, e).Some?
  {
    GateFields(e, ev);
    GateEntry(e);
    GateAction(e, ev.invoke, t);
  }

  lemma GateAction(e: Entry, invoke: bool, t: Option<nat>)
    requires e.variant == "GateDecision" && BoolField(e, "invoke") == invoke
    requires if t.Some? then GateFor(e.fields, t.value) else forall k :: !GateFor(e.fields, k)
    ensures ActionOf(e) == if t.Some? then Gated(t.value, invoke) else Ignored
  {
    GateEntry(e);
    if t.Some? {
      GateTaskIff(e, t.value);
    } else if GateTask(e).Some? {
      GateTaskIff(e, GateTask(e).value);
      assert false;
    }
  }

  ghost predicate ShowsVitals(fs: seq<Member>, ev: Events.Event) {
    && ev.Vitals? && FloatUnder(fs, "thermal_load", ev.thermalLoad)
    && FloatUnder(fs, "compute_pressure", ev.computePressure) && FloatUnder(fs, "memory_pressure", ev.memoryPressure)
    && FloatUnder(fs, "power_budget", ev.powerBudget) && FloatUnder(fs, "financial_budget", ev.financialBudget)
    && FloatUnder(fs, "attention_demand", ev.attentionDemand) && FloatUnder(fs, "aggregate_stress", ev.aggregateStress)
  }

  lemma VitalsTranslated(links: Links, value: Json, fs: seq<Member>, ev: Events.Event)
    requires IsEntry(value, "InteroceptiveSnapshot", fs) && ShowsVitals(fs, ev)
    ensures Translated(links, value) == (links, Some(Event(ev)))
  {
    var e := EntryAt(value, "InteroceptiveSnapshot", fs);
    FloatFieldIff(e, "thermal_load", ev.thermalLoad);
    FloatFieldIff(e, "compute_pressure", ev.computePressure);
    FloatFieldIff(e, "memory_pressure", ev.memoryPressure);
    FloatFieldIff(e, "power_budget", ev.powerBudget);
    FloatFieldIff(e, "financial_budget", ev.financialBudget);
    FloatFieldIff(e, "attention_demand", ev.attentionDemand);
    FloatFieldIff(e, "aggregate_stress", ev.aggregateStress);
    VitalsEntry(e);
  }

  /** Every other entry is a notice that leaves the links alone, and what is no entry does nothing at all. */
  lemma OtherTranslated(links: Links, value: Json)
    requires forall v, fs :: IsEntry(value, v, fs) ==>
               v !in {"OperatorMessageLinked", "TaskStarted", "TaskCompleted", "TaskFailed", "GateDecision",
                      "InteroceptiveSnapshot"}
    ensures Translated(links, value).0 == links
    ensures forall v, fs :: IsEntry(value, v, fs) ==> Translated(links, value).1 == Some(Notice(Entry(v, fs)))
    ensures (forall v, fs :: !IsEntry(value, v, fs)) ==> Translated(links, value).1 == None
  {
    forall v, fs ensures IsEntry(value, v, fs) <==> EntryOf(value) == Some(Entry(v, fs)) {
      EntryIff(value, v, fs);
    }
    if EntryOf(value).Some? {
      var e := EntryOf(value).value;
      assert IsEntry(value, e.variant, e.fields);
    }
  }

  // ── Lines of a followed file ───────────────────────────────────────────────

  /** A printed object on a line of its own, with any whitespace before the newline, is the value on that line. */
  lemma PrintedLineHolds(j: Json, trail: string)
    requires j.Obj? && Valid(j) && IsBlank(trail)
    ensures ValueOnLine(Encode(Print(j) + trail)) == Some(j)
  {
    DecodeEncode(Print(j) + trail);
    TrimTrail(Print(j), trail);
    ParsePrintDocument(j);
  }

  function ActionOnValue(value: Json): Action {
    match EntryOf(value) case None => Ignored case Some(e) => ActionOf(e)
  }

  /** The entry links a task to a message. */
  ghost predicate Linking(value: Json, t: nat, m: string) {
    exists fs ::
      IsEntry(value, "OperatorMessageLinked", fs) && HasNat(fs, "task_id", t) && Has(fs, "message_id", Str(m))
  }

  /** The entry settles a task: it is its reply, its failure, or the blocked gate before it. */
  ghost predicate Settling(value: Json, t: nat) {
    || (exists fs :: IsEntry(value, "TaskCompleted", fs) && NatUnder(fs, "task_id", t))
    || (exists fs :: IsEntry(value, "TaskFailed", fs) && HasNat(fs, "task_id", t))
    || (exists fs :: IsEntry(value, "GateDecision", fs) && GateFor(fs, t) && !Has(fs, "invoke", Bool(true)))
  }

  lemma LinkAction(e: Entry, t: nat, m: string)
    ensures ActionOf(e) == Linked(t, m) <==>
            && e.variant == "OperatorMessageLinked"
            && AsU64(Get(e.fields, "task_id")) == Some(t) && AsStr(Get(e.fields, "message_id")) == Some(m)
  {
  }

  lemma SettleAction(e: Entry, t: nat)
    ensures Settles(ActionOf(e), t) <==>
            || (e.variant == "TaskCompleted" && NatField(e, "task_id") == t)
            || (e.variant == "TaskFailed" && AsU64(Get(e.fields, "task_id")) == Some(t))
            || (e.variant == "GateDecision" && GateTask(e) == Some(t) && !BoolField(e, "invoke"))
  {
  }

  lemma EntryOnly(value: Json, e: Entry)
    requires EntryOf(value) == Some(e)
    ensures forall v, fs :: IsEntry(value, v, fs) <==> v == e.variant && fs == e.fields
  {
    forall v, fs ensures IsEntry(value, v, fs) <==> v == e.variant && fs == e.fields {
      EntryIff(value, v, fs);
    }
  }

  lemma NoEntry(value: Json)
    requires EntryOf(value) == None
    ensures forall v, fs :: !IsEntry(value, v, fs)
  {
    forall v, fs ensures !IsEntry(value, v, fs) {
      EntryIff(value, v, fs);
    }
  }

  lemma LinkingIff(value: Json, t: nat, m: string)
    ensures ActionOnValue(value) == Linked(t, m) <==> Linking(value, t, m)
  {
    if EntryOf(value).Some? {
      var e := EntryOf(value).value;
      EntryOnly(value, e);
      LinkAction(e, t, m);
      NatFieldIff(e, "task_id", t);
      OptTextIff(e, "message_id", Some(m));
    } else {
      NoEntry(value);
    }
  }

  lemma SettlingOfEntry(value: Json, e: Entry, t: nat)
    requires EntryOf(value) == Some(e)
    ensures Settling(value, t) <==>
            || (e.variant == "TaskCompleted" && NatUnder(e.fields, "task_id", t))
            || (e.variant == "TaskFailed" && HasNat(e.fields, "task_id", t))
            || (e.variant == "GateDecision" && GateFor(e.fields, t) && !Has(e.fields, "invoke", Bool(true)))
  {
    EntryOnly(value, e);
  }

  lemma SettlingIff(value: Json, t: nat)
    ensures Settles(ActionOnValue(value), t) <==> Settling(value, t)
  {
    if EntryOf(value).Some? {
      var e := EntryOf(value).value;
      SettleAction(e, t);
      SettlingOfEntry(value, e, t);
      NatFieldIff(e, "task_id", t);
      GateTaskIff(e, t);
      BoolFieldIff(e, "invoke", BoolField(e, "invoke"));
    } else {
      NoEntry(value);
    }
  }

  ghost predicate LinksOn(line: seq<byte>, t: nat, m: string) {
    ValueOnLine(line).Some? && Linking(ValueOnLine(line).value, t, m)
  }

  ghost predicate SettlesOn(line: seq<byte>, t: nat) {
    ValueOnLine(line).Some? && Settling(ValueOnLine(line).value, t)
  }

  lemma LineIff(line: seq<byte>, t: nat)
    ensures forall m :: ActionOnLine(line) == Linked(t, m) <==> LinksOn(line, t, m)
    ensures Settles(ActionOnLine(line), t) <==> SettlesOn(line, t)
  {
    var j := ValueOnLine(line);
    if j.Some? {
      assert ActionOnLine(line) == ActionOnValue(j.value);
      SettlingIff(j.value, t);
      forall m ensures ActionOnLine(line) == Linked(t, m) <==> LinksOn(line, t, m) {
        LinkingIff(j.value, t, m);
      }
    }
  }

  /** Line `i` links the task to the message, and no later line links or settles it. */
  ghost predicate LastWord(lines: seq<seq<byte>>, i: nat, t: nat, m: string) {
    && i < |lines| && LinksOn(lines[i], t, m)
    && forall k :: i < k < |lines| ==> !SettlesOn(lines[k], t) && forall other :: !LinksOn(lines[k], t, other)
  }

  /** Links that hold a message for a task only if it is the last word of the lines on it. */
  ghost predicate Faithful(lines: seq<seq<byte>>, links: Links) {
    forall t :: t in links ==> exists i :: LastWord(lines, i, t, links[t])
  }

  lemma TrackedIsFaithful(lines: seq<seq<byte>>)
    ensures Faithful(lines, Tracked(Actions(lines, ActionOnLine)))
  {
    var h := Actions(lines, ActionOnLine);
    var links := Tracked(h);
    forall t | t in links ensures exists i :: LastWord(lines, i, t, links[t]) {
      TrackedIsCurrent(h, t);
      var i := CurrentIsLinked(h, t);
      LineIff(lines[i], t);
      forall k | i < k < |lines| ensures !SettlesOn(lines[k], t) && forall other :: !LinksOn(lines[k], t, other) {
        LineIff(lines[k], t);
        assert h[k] == ActionOnLine(lines[k]);
      }
      assert LastWord(lines, i, t, links[t]);
    }
  }

  lemma NotBoth(line: seq<byte>, t: nat, m: string)
    ensures !(LinksOn(line, t, m) && SettlesOn(line, t))
  {
    LineIff(line, t);
  }

  lemma NotLastWord(lines: seq<seq<byte>>, k: nat, t: nat, m: string, i: nat)
    requires i < |lines| && SettlesOn(lines[i], t) && (i < k < |lines| ==> !LinksOn(lines[k], t, m))
    ensures !LastWord(lines, k, t, m)
  {
    if k == i {
      NotBoth(lines[i], t, m);
    }
  }

  /** After a line that settles a task, its links hold nothing for it until a line links it again. */
  lemma SettledIsSilent(lines: seq<seq<byte>>, links: Links, i: nat, t: nat)
    requires Faithful(lines, links) && i < |lines| && SettlesOn(lines[i], t)
    requires forall k, m :: i < k < |lines| ==> !LinksOn(lines[k], t, m)
    ensures t !in links
  {
    if t in links {
      var m := links[t];
      var k :| LastWord(lines, k, t, m);
      NotLastWord(lines, k, t, m, i);
      assert false;
    }
  }

  /**
   Every event published from a followed file is what the value on one of its lines shows under links
   that are the last words of the lines before it.
   */
  lemma FollowedFileIsTranslated(obs: seq<Observation>, clock: nat -> int, interval: nat, k: nat)
    returns (m: nat, i: nat, links: Links)
    requires obs != [] && Growing(obs)
    requires k < |Polls(obs, TranslatedLine, clock, interval).published|
    ensures m <= |obs[|obs| - 1].content|
    ensures var lines := CompleteLines(obs[|obs| - 1].content[..m]);
            var (end, shown) := Polls(obs, TranslatedLine, clock, interval).published[k];
            && i < |lines| && end == |Concat(lines[..i + 1])| && Faithful(lines[..i], links)
            && ValueOnLine(lines[i]).Some? && Translated(links, ValueOnLine(lines[i]).value).1 == Some(shown)
  {
    m := TailerIsOnePass(obs, TranslatedLine, clock, interval);
    var lines := CompleteLines(obs[|obs| - 1].content[..m]);
    TranslatedLineFollows();
    i := PublishedComesFromHistory(lines, k, TranslatedLine, ActionOnLine, clock, interval);
    links := Tracked(Actions(lines[..i], ActionOnLine));
    TrackedIsFaithful(lines[..i]);
  }
}
