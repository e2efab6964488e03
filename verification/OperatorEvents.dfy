/**
 The agent-to-operator half of the wire protocol: the hand-written NDJSON writer of
 `OperatorEvent`, and an independent tagged reader that must give every event back.
 */
module OperatorEvents {
  import opened Text
  import opened Json
  import opened Events
  import opened Priorities

  // ── The tagged object of an event ──────────────────────────────────────────

  function StrOrNull(o: Option<string>): Json {
    if o.Some? then Str(o.value) else Null
  }

  function Strs(ss: seq<string>): seq<Json> {
    seq(|ss|, i requires 0 <= i < |ss| => Str(ss[i]))
  }

  // The members each event is written as: tag first, fields in declaration order.

  function Loads(e: Event): seq<Member>
    requires e.Vitals?
  {
    [Member("thermal_load", Num(Display(e.thermalLoad))), Member("compute_pressure", Num(Display(e.computePressure))),
     Member("memory_pressure", Num(Display(e.memoryPressure)))]
  }

  function Budgets(e: Event): seq<Member>
    requires e.Vitals?
  {
    [Member("power_budget", Num(Display(e.powerBudget))), Member("financial_budget", Num(Display(e.financialBudget))),
     Member("attention_demand", Num(Display(e.attentionDemand))),
     Member("aggregate_stress", Num(Display(e.aggregateStress)))]
  }

  function VitalsMembers(e: Event): seq<Member>
    requires e.Vitals?
  {
    [Member("type", Str("Vitals"))] + (Loads(e) + Budgets(e))
  }

  function StateMembers(e: Event): seq<Member>
    requires e.State?
  {
    var State(lifecycle, phase, depth) := e;
    [Member("type", Str("State")), Member("lifecycle", Str(lifecycle)), Member("sleep_phase", StrOrNull(phase)),
      Member("agenda_depth", Num(Decimal(depth)))]
  }

  function AcceptedMembers(e: Event): seq<Member>
    requires e.Accepted?
  {
    var Accepted(id, priority, forced, force, reply, text) := e;
    [Member("type", Str("Accepted")), Member("message_id", Str(id)), Member("priority", Str(PriorityName(priority))),
      Member("forced", Bool(forced)), Member("force_reason", StrOrNull(force)),
      Member("reply_to", StrOrNull(reply)), Member("text", Str(text))]
  }

  function AgentQuestionMembers(e: Event): seq<Member>
    requires e.AgentQuestion?
  {
    var AgentQuestion(task, question, text, options, reason) := e;
    [Member("type", Str("AgentQuestion")), Member("task_id", Num(Decimal(task))), Member("question_id", Str(question)),
      Member("text", Str(text)), Member("options", Arr(Strs(options))), Member("reason", Str(reason))]
  }

  function GateMembers(e: Event): seq<Member>
    requires e.Gate?
  {
    var Gate(id, invoke, cost, value, threshold, over, reasoning) := e;
    [Member("type", Str("Gate")), Member("message_id", StrOrNull(id)), Member("invoke", Bool(invoke)),
      Member("cost_class", StrOrNull(cost)), Member("value_score", Num(Display(value))),
      Member("threshold", Num(Display(threshold))), Member("override_active", Bool(over)),
      Member("reasoning", Str(reasoning))]
  }

  function AuditMembers(e: Event): seq<Member>
    requires e.Audit?
  {
    var Audit(what, detail, id) := e;
    [Member("type", Str("Audit")), Member("kind", Str(what)), Member("detail", Str(detail)),
      Member("message_id", StrOrNull(id))]
  }

  function TaskStartedMembers(e: Event): seq<Member>
    requires e.TaskStarted?
  {
    var TaskStarted(task, id, prompt) := e;
    [Member("type", Str("TaskStarted")), Member("task_id", Num(Decimal(task))), Member("message_id", StrOrNull(id)),
      Member("prompt", Str(prompt))]
  }

  function AgentMessageMembers(e: Event): seq<Member>
    requires e.AgentMessage?
  {
    var AgentMessage(task, id, tokens, text) := e;
    [Member("type", Str("AgentMessage")), Member("task_id", Num(Decimal(task))), Member("message_id", StrOrNull(id)),
      Member("tokens", Num(Decimal(tokens))), Member("text", Str(text))]
  }

  function HeartbeatMembers(e: Event): seq<Member>
    requires e.Heartbeat?
  {
    var Heartbeat(secs) := e;
    [Member("type", Str("Heartbeat")), Member("uptime_secs", Num(Decimal(secs)))]
  }

  function Members(e: Event): seq<Member> {
    match e
    case Vitals(_, _, _, _, _, _, _) => VitalsMembers(e)
    case State(_, _, _) => StateMembers(e)
    case Accepted(_, _, _, _, _, _) => AcceptedMembers(e)
    case AgentQuestion(_, _, _, _, _) => AgentQuestionMembers(e)
    case Gate(_, _, _, _, _, _, _) => GateMembers(e)
    case Audit(_, _, _) => AuditMembers(e)
    case TaskStarted(_, _, _) => TaskStartedMembers(e)
    case AgentMessage(_, _, _, _) => AgentMessageMembers(e)
    case Heartbeat(_) => HeartbeatMembers(e)
  }

  /** The NDJSON line of an event. */
  function Line(e: Event): string {
    Print(Obj(Members(e)))
  }

  // ── The writer ─────────────────────────────────────────────────────────────

  /** A line under construction: an open object holding the tag and `ms`. */
  ghost predicate Open(s: string, kind: string, ms: seq<Member>) {
    s == "{" + PrintMembers([Member("type", Str(kind))] + ms)
  }

  lemma {:induction false} PrintMembersSnoc(ms: seq<Member>, m: Member)
    requires ms != []
    ensures PrintMembers(ms + [m]) == PrintMembers(ms) + "," + PrintMember(m)
  {
    if |ms| == 1 {
      assert (ms + [m])[1..] == [m];
    } else {
      PrintMembersSnoc(ms[1..], m);
      assert (ms + [m])[1..] == ms[1..] + [m];
      Associate(PrintMember(ms[0]), PrintMembers(ms[1..]), PrintMember(m));
    }
  }

  lemma Associate(a: string, b: string, c: string)
    ensures a + "," + (b + "," + c) == (a + "," + b) + "," + c
  {
  }

  lemma OpenNext(s: string, kind: string, ms: seq<Member>, key: string, value: Json)
    requires Open(s, kind, ms) && Plain(key)
    ensures Open(s + (",\"" + key + "\":") + Print(value), kind, ms + [Member(key, value)])
  {
    EscapePlain(key);
    var all, m := [Member("type", Str(kind))] + ms, Member(key, value);
    PrintMembersSnoc(all, m);
    assert [Member("type", Str(kind))] + (ms + [m]) == all + [m];
    Reshape(PrintMembers(all), key, Print(value));
  }

  lemma Reshape(b: string, key: string, v: string)
    ensures "{" + b + (",\"" + key + "\":") + v == "{" + (b + "," + ("\"" + key + "\"" + ":" + v))
  {
  }

  /** `{"type":"…"`, the opening of every line. */
  method OpenTagged(kind: string) returns (s: string)
    requires Plain(kind)
    ensures Open(s, kind, [])
  {
    s := "{\"type\":\"" + kind + "\"";
    EscapePlain("type");
    EscapePlain(kind);
    TagText(kind);
    var m := Member("type", Str(kind));
    assert [m] + [] == [m];
    assert PrintMembers([m]) == PrintMember(m);
  }

  lemma TagText(kind: string)
    ensures "{\"type\":\"" + kind + "\"" == "{" + (("\"" + "type" + "\"") + ":" + ("\"" + kind + "\""))
  {
    assert "{\"type\":\"" == "{" + ("\"" + "type" + "\"") + ":" + "\"";
  }

  method PutStr(s: string, key: string, value: string,
                ghost kind: string, ghost ms: seq<Member>)
    returns (r: string, ghost ns: seq<Member>)
    requires Open(s, kind, ms) && Plain(key)
    ensures ns == ms + [Member(key, Str(value))] && Open(r, kind, ns)
  {
    ns := ms + [Member(key, Str(value))];
    OpenNext(s, kind, ms, key, Str(value));
    r := WriteJsonStr(s + (",\"" + key + "\":"), value);
  }

  method PutOptStr(s: string, key: string, value: Option<string>,
                ghost kind: string, ghost ms: seq<Member>)
    returns (r: string, ghost ns: seq<Member>)
    requires Open(s, kind, ms) && Plain(key)
    ensures ns == ms + [Member(key, StrOrNull(value))] && Open(r, kind, ns)
  {
    ns := ms + [Member(key, StrOrNull(value))];
    OpenNext(s, kind, ms, key, StrOrNull(value));
    r := s + (",\"" + key + "\":");
    match value
    case Some(v) => r := WriteJsonStr(r, v);
    case None => r := r + "null";
  }

  method PutNum(s: string, key: string, token: string,
                ghost kind: string, ghost ms: seq<Member>)
    returns (r: string, ghost ns: seq<Member>)
    requires Open(s, kind, ms) && Plain(key)
    ensures ns == ms + [Member(key, Num(token))] && Open(r, kind, ns)
  {
    ns := ms + [Member(key, Num(token))];
    OpenNext(s, kind, ms, key, Num(token));
    r := s + (",\"" + key + "\":") + token;
  }

  method PutBool(s: string, key: string, b: bool,
                ghost kind: string, ghost ms: seq<Member>)
    returns (r: string, ghost ns: seq<Member>)
    requires Open(s, kind, ms) && Plain(key)
    ensures ns == ms + [Member(key, Bool(b))] && Open(r, kind, ns)
  {
    ns := ms + [Member(key, Bool(b))];
    OpenNext(s, kind, ms, key, Bool(b));
    r := s + (",\"" + key + "\":") + if b then "true" else "false";
  }

  method PutLoads(s: string, e: Event) returns (r: string)
    requires e.Vitals? && Open(s, "Vitals", [])
    ensures Open(r, "Vitals", Loads(e))
  {
    ghost var ms := [];
    r, ms := PutNum(s, "thermal_load", Display(e.thermalLoad), "Vitals", ms);
    r, ms := PutNum(r, "compute_pressure", Display(e.computePressure), "Vitals", ms);
    r, ms := PutNum(r, "memory_pressure", Display(e.memoryPressure), "Vitals", ms);
    assert ms == Loads(e);
  }

  method PutBudgets(s: string, e: Event, ghost ms: seq<Member>) returns (r: string)
    requires e.Vitals? && Open(s, "Vitals", ms)
    ensures Open(r, "Vitals", ms + Budgets(e))
  {
    ghost var ns := ms;
    r, ns := PutNum(s, "power_budget", Display(e.powerBudget), "Vitals", ns);
    r, ns := PutNum(r, "financial_budget", Display(e.financialBudget), "Vitals", ns);
    r, ns := PutNum(r, "attention_demand", Display(e.attentionDemand), "Vitals", ns);
    r, ns := PutNum(r, "aggregate_stress", Display(e.aggregateStress), "Vitals", ns);
    assert ns == ms + Budgets(e);
  }

  method PutDecision(s: string, id: Option<string>, invoke: bool, cost: Option<string>, ghost kind: string)
    returns (r: string, ghost ns: seq<Member>)
    requires Open(s, kind, [])
    ensures ns == [Member("message_id", StrOrNull(id)), Member("invoke", Bool(invoke)),
                   Member("cost_class", StrOrNull(cost))]
    ensures Open(r, kind, ns)
  {
    r, ns := PutOptStr(s, "message_id", id, kind, []);
    r, ns := PutBool(r, "invoke", invoke, kind, ns);
    r, ns := PutOptStr(r, "cost_class", cost, kind, ns);
  }

  method PutQuestion(s: string, task: U64, question: string, text: string, ghost kind: string)
    returns (r: string, ghost ns: seq<Member>)
    requires Open(s, kind, [])
    ensures ns == [Member("task_id", Num(Decimal(task))), Member("question_id", Str(question)),
                   Member("text", Str(text))]
    ensures Open(r, kind, ns)
  {
    r, ns := PutNum(s, "task_id", Decimal(task), kind, []);
    r, ns := PutStr(r, "question_id", question, kind, ns);
    r, ns := PutStr(r, "text", text, kind, ns);
  }

  method PutScores(s: string, value: Float, threshold: Float, ghost kind: string, ghost ms: seq<Member>)
    returns (r: string, ghost ns: seq<Member>)
    requires Open(s, kind, ms)
    ensures ns == ms + [Member("value_score", Num(Display(value))), Member("threshold", Num(Display(threshold)))]
    ensures Open(r, kind, ns)
  {
    r, ns := PutNum(s, "value_score", Display(value), kind, ms);
    r, ns := PutNum(r, "threshold", Display(threshold), kind, ns);
  }

  method PutForce(s: string, forced: bool, force: Option<string>, reply: Option<string>,
                  ghost kind: string, ghost ms: seq<Member>)
    returns (r: string, ghost ns: seq<Member>)
    requires Open(s, kind, ms)
    ensures ns == ms + [Member("forced", Bool(forced)), Member("force_reason", StrOrNull(force)),
                        Member("reply_to", StrOrNull(reply))]
    ensures Open(r, kind, ns)
  {
    r, ns := PutBool(s, "forced", forced, kind, ms);
    r, ns := PutOptStr(r, "force_reason", force, kind, ns);
    r, ns := PutOptStr(r, "reply_to", reply, kind, ns);
  }

  /** The `options` loop: `[`, the literals separated by commas, `]`. */
  method WriteStrs(out: string, values: seq<string>) returns (r: string)
    ensures r == out + Print(Arr(Strs(values)))
  {
    r := out + "[";
    ghost var start := r;
    for i := 0 to |values|
      invariant r == start + PrintElems(Strs(values[..i]))
    {
      ghost var done := PrintElems(Strs(values[..i]));
      StrsSnoc(values, i);
      if i > 0 {
        r := r + ",";
      }
      r := WriteJsonStr(r, values[i]);
      Commas(start, done, Print(Str(values[i])), i > 0);
    }
    assert values[..|values|] == values;
    Bracketed(out, PrintElems(Strs(values)));
    r := r + "]";
  }

  lemma StrsSnoc(values: seq<string>, i: nat)
    requires i < |values|
    ensures PrintElems(Strs(values[..i + 1])) ==
            (if i == 0 then "" else PrintElems(Strs(values[..i])) + ",") + Print(Str(values[i]))
    ensures i == 0 ==> PrintElems(Strs(values[..i])) == ""
  {
    assert Strs(values[..i + 1]) == Strs(values[..i]) + [Str(values[i])];
    PrintElemsSnoc(Strs(values[..i]), Str(values[i]));
  }

  lemma Commas(start: string, done: string, v: string, more: bool)
    ensures more ==> start + done + "," + v == start + (done + "," + v)
    ensures !more && done == "" ==> start + done + v == start + ("" + v)
  {
  }

  lemma Bracketed(out: string, body: string)
    ensures out + "[" + body + "]" == out + ("[" + body + "]")
  {
  }

  lemma {:induction false} PrintElemsSnoc(es: seq<Json>, e: Json)
    ensures PrintElems(es + [e]) == (if es == [] then "" else PrintElems(es) + ",") + Print(e)
  {
    if |es| == 0 {
      assert es + [e] == [e];
    } else if |es| == 1 {
      assert (es + [e])[1..] == [e];
    } else {
      PrintElemsSnoc(es[1..], e);
      assert (es + [e])[1..] == es[1..] + [e];
      Associate(Print(es[0]), PrintElems(es[1..]), Print(e));
    }
  }

  method PutStrs(s: string, key: string, values: seq<string>,
                ghost kind: string, ghost ms: seq<Member>)
    returns (r: string, ghost ns: seq<Member>)
    requires Open(s, kind, ms) && Plain(key)
    ensures ns == ms + [Member(key, Arr(Strs(values)))] && Open(r, kind, ns)
  {
    ns := ms + [Member(key, Arr(Strs(values)))];
    OpenNext(s, kind, ms, key, Arr(Strs(values)));
    r := WriteStrs(s + (",\"" + key + "\":"), values);
  }

  method WriteVitals(e: Event) returns (s: string)
    requires e.Vitals?
    ensures s == Print(Obj(VitalsMembers(e)))
  {
    s := OpenTagged("Vitals");
    s := PutLoads(s, e);
    s := PutBudgets(s, e, Loads(e));
    s := s + "}";
  }

  method WriteState(e: Event) returns (s: string)
    requires e.State?
    ensures s == Print(Obj(StateMembers(e)))
  {
    var State(lifecycle, phase, depth) := e;
    ghost var kind, all := "State", StateMembers(e);
    s := OpenTagged("State");
    ghost var ms := [];
    s, ms := PutStr(s, "lifecycle", lifecycle, kind, ms);
    s, ms := PutOptStr(s, "sleep_phase", phase, kind, ms);
    s, ms := PutNum(s, "agenda_depth", Decimal(depth), kind, ms);
    assert [Member("type", Str(kind))] + ms == all;
    s := s + "}";
  }

  method WriteAccepted(e: Event) returns (s: string)
    requires e.Accepted?
    ensures s == Print(Obj(AcceptedMembers(e)))
  {
    var Accepted(id, priority, forced, force, reply, text) := e;
    ghost var kind, all := "Accepted", AcceptedMembers(e);
    s := OpenTagged("Accepted");
    ghost var ms := [];
    s, ms := PutStr(s, "message_id", id, kind, ms);
    s, ms := PutStr(s, "priority", PriorityName(priority), kind, ms);
    s, ms := PutForce(s, forced, force, reply, kind, ms);
    s, ms := PutStr(s, "text", text, kind, ms);
    assert [Member("type", Str(kind))] + ms == all;
    s := s + "}";
  }

  method WriteAgentQuestion(e: Event) returns (s: string)
    requires e.AgentQuestion?
    ensures s == Print(Obj(AgentQuestionMembers(e)))
  {
    var AgentQuestion(task, question, text, options, reason) := e;
    ghost var kind, all := "AgentQuestion", AgentQuestionMembers(e);
    s := OpenTagged("AgentQuestion");
    ghost var ms := [];
    s, ms := PutQuestion(s, task, question, text, kind);
    s, ms := PutStrs(s, "options", options, kind, ms);
    s, ms := PutStr(s, "reason", reason, kind, ms);
    assert [Member("type", Str(kind))] + ms == all;
    s := s + "}";
  }

  method WriteGate(e: Event) returns (s: string)
    requires e.Gate?
    ensures s == Print(Obj(GateMembers(e)))
  {
    var Gate(id, invoke, cost, value, threshold, over, reasoning) := e;
    ghost var kind, all, ms := "Gate", GateMembers(e), [];
    s := OpenTagged("Gate");
    s, ms := PutDecision(s, id, invoke, cost, kind);
    s, ms := PutScores(s, value, threshold, kind, ms);
    s, ms := PutBool(s, "override_active", over, kind, ms);
    s, ms := PutStr(s, "reasoning", reasoning, kind, ms);
    assert [Member("type", Str(kind))] + ms == all;
    s := s + "}";
  }

  method WriteAudit(e: Event) returns (s: string)
    requires e.Audit?
    ensures s == Print(Obj(AuditMembers(e)))
  {
    var Audit(what, detail, id) := e;
    ghost var kind, all := "Audit", AuditMembers(e);
    s := OpenTagged("Audit");
    ghost var ms := [];
    s, ms := PutStr(s, "kind", what, kind, ms);
    s, ms := PutStr(s, "detail", detail, kind, ms);
    s, ms := PutOptStr(s, "message_id", id, kind, ms);
    assert [Member("type", Str(kind))] + ms == all;
    s := s + "}";
  }

  method WriteTaskStarted(e: Event) returns (s: string)
    requires e.TaskStarted?
    ensures s == Print(Obj(TaskStartedMembers(e)))
  {
    var TaskStarted(task, id, prompt) := e;
    ghost var kind, all := "TaskStarted", TaskStartedMembers(e);
    s := OpenTagged("TaskStarted");
    ghost var ms := [];
    s, ms := PutNum(s, "task_id", Decimal(task), kind, ms);
    s, ms := PutOptStr(s, "message_id", id, kind, ms);
    s, ms := PutStr(s, "prompt", prompt, kind, ms);
    assert [Member("type", Str(kind))] + ms == all;
    s := s + "}";
  }

  method WriteAgentMessage(e: Event) returns (s: string)
    requires e.AgentMessage?
    ensures s == Print(Obj(AgentMessageMembers(e)))
  {
    var AgentMessage(task, id, tokens, text) := e;
    ghost var kind, all := "AgentMessage", AgentMessageMembers(e);
    s := OpenTagged("AgentMessage");
    ghost var ms := [];
    s, ms := PutNum(s, "task_id", Decimal(task), kind, ms);
    s, ms := PutOptStr(s, "message_id", id, kind, ms);
    s, ms := PutNum(s, "tokens", Decimal(tokens), kind, ms);
    s, ms := PutStr(s, "text", text, kind, ms);
    assert [Member("type", Str(kind))] + ms == all;
    s := s + "}";
  }

  method WriteHeartbeat(e: Event) returns (s: string)
    requires e.Heartbeat?
    ensures s == Print(Obj(HeartbeatMembers(e)))
  {
    var Heartbeat(secs) := e;
    ghost var kind, all := "Heartbeat", HeartbeatMembers(e);
    s := OpenTagged("Heartbeat");
    ghost var ms := [];
    s, ms := PutNum(s, "uptime_secs", Decimal(secs), kind, ms);
    assert [Member("type", Str(kind))] + ms == all;
    s := s + "}";
  }

  /** `to_ndjson` */
  method ToNdjson(e: Event) returns (s: string)
    ensures s == Line(e)
  {
    match e
    case Vitals(_, _, _, _, _, _, _) => s := WriteVitals(e);
    case State(_, _, _) => s := WriteState(e);
    case Accepted(_, _, _, _, _, _) => s := WriteAccepted(e);
    case AgentQuestion(_, _, _, _, _) => s := WriteAgentQuestion(e);
    case Gate(_, _, _, _, _, _, _) => s := WriteGate(e);
    case Audit(_, _, _) => s := WriteAudit(e);
    case TaskStarted(_, _, _) => s := WriteTaskStarted(e);
    case AgentMessage(_, _, _, _) => s := WriteAgentMessage(e);
    case Heartbeat(_) => s := WriteHeartbeat(e);
  }

  // ── The tagged reader ──────────────────────────────────────────────────────

  datatype Found = Absent | Once(value: Json) | Repeated

  /** A repeated key is an error for the reader, wherever it stands. */
  function Lookup(ms: seq<Member>, key: string): Found {
    if ms == [] then Absent
    else
      var later := Lookup(ms[1..], key);
      if ms[0].key != key then later
      else if later.Absent? then Once(ms[0].value)
      else Repeated
  }

  function GetStr(ms: seq<Member>, key: string): Option<string> {
    match Lookup(ms, key)
    case Once(Str(s)) => Some(s)
    case _ => None
  }

  /** An optional string: absent and null both mean none. */
  function GetOptStr(ms: seq<Member>, key: string): Option<Option<string>> {
    match Lookup(ms, key)
    case Absent => Some(None)
    case Once(Null) => Some(None)
    case Once(Str(s)) => Some(Some(s))
    case _ => None
  }

  function GetBool(ms: seq<Member>, key: string): Option<bool> {
    match Lookup(ms, key)
    case Once(Bool(b)) => Some(b)
    case _ => None
  }

  function GetFloat(ms: seq<Member>, key: string): Option<Float> {
    match Lookup(ms, key)
    case Once(Num(t)) => if IsNumber(t) then Some(Finite(t)) else None
    case _ => None
  }

  /** An unsigned integer below `limit`: digits only. */
  function GetNat(ms: seq<Member>, key: string, limit: nat): (r: Option<nat>)
    ensures r.Some? ==> r.value < limit
  {
    match Lookup(ms, key)
    case Once(Num(t)) =>
      if t != "" && AllDigits(t, 10) && Numeral(t, 10) < limit then Some(Numeral(t, 10)) else None
    case _ => None
  }

  function GetStrs(ms: seq<Member>, key: string): Option<seq<string>> {
    match Lookup(ms, key)
    case Once(Arr(es)) =>
      if forall i :: 0 <= i < |es| ==> es[i].Str? then
        Some(seq(|es|, i requires 0 <= i < |es| => es[i].s))
      else None
    case _ => None
  }

  /** Unlike `ParsePriority`, the reader takes the exact names only. */
  function GetPriority(ms: seq<Member>, key: string): Option<Priority> {
    var s :- GetStr(ms, key);
    if s == "Low" then Some(Low)
    else if s == "Normal" then Some(Normal)
    else if s == "High" then Some(High)
    else if s == "Critical" then Some(Critical)
    else None
  }

  function ReadVitals(ms: seq<Member>): Option<Event> {
    var a :- GetFloat(ms, "thermal_load");
    var b :- GetFloat(ms, "compute_pressure");
    var c :- GetFloat(ms, "memory_pressure");
    var d :- GetFloat(ms, "power_budget");
    var f :- GetFloat(ms, "financial_budget");
    var g :- GetFloat(ms, "attention_demand");
    var h :- GetFloat(ms, "aggregate_stress");
    Some(Vitals(a, b, c, d, f, g, h))
  }

  function ReadState(ms: seq<Member>): Option<Event> {
    var lifecycle :- GetStr(ms, "lifecycle");
    var phase :- GetOptStr(ms, "sleep_phase");
    var depth :- GetNat(ms, "agenda_depth", U32_LIMIT);
    Some(State(lifecycle, phase, depth))
  }

  function ReadAccepted(ms: seq<Member>): Option<Event> {
    var id :- GetStr(ms, "message_id");
    var priority :- GetPriority(ms, "priority");
    var forced :- GetBool(ms, "forced");
    var force :- GetOptStr(ms, "force_reason");
    var reply :- GetOptStr(ms, "reply_to");
    var text :- GetStr(ms, "text");
    Some(Accepted(id, priority, forced, force, reply, text))
  }

  function ReadAgentQuestion(ms: seq<Member>): Option<Event> {
    var task :- GetNat(ms, "task_id", U64_LIMIT);
    var question :- GetStr(ms, "question_id");
    var text :- GetStr(ms, "text");
    var options :- GetStrs(ms, "options");
    var reason :- GetStr(ms, "reason");
    Some(AgentQuestion(task, question, text, options, reason))
  }

  function ReadGate(ms: seq<Member>): Option<Event> {
    var id :- GetOptStr(ms, "message_id");
    var invoke :- GetBool(ms, "invoke");
    var cost :- GetOptStr(ms, "cost_class");
    var value :- GetFloat(ms, "value_score");
    var threshold :- GetFloat(ms, "threshold");
    var over :- GetBool(ms, "override_active");
    var reasoning :- GetStr(ms, "reasoning");
    Some(Gate(id, invoke, cost, value, threshold, over, reasoning))
  }

  function ReadAudit(ms: seq<Member>): Option<Event> {
    var what :- GetStr(ms, "kind");
    var detail :- GetStr(ms, "detail");
    var id :- GetOptStr(ms, "message_id");
    Some(Audit(what, detail, id))
  }

  function ReadTaskStarted(ms: seq<Member>): Option<Event> {
    var task :- GetNat(ms, "task_id", U64_LIMIT);
    var id :- GetOptStr(ms, "message_id");
    var prompt :- GetStr(ms, "prompt");
    Some(TaskStarted(task, id, prompt))
  }

  function ReadAgentMessage(ms: seq<Member>): Option<Event> {
    var task :- GetNat(ms, "task_id", U64_LIMIT);
    var id :- GetOptStr(ms, "message_id");
    var tokens :- GetNat(ms, "tokens", U32_LIMIT);
    var text :- GetStr(ms, "text");
    Some(AgentMessage(task, id, tokens, text))
  }

  function ReadHeartbeat(ms: seq<Member>): Option<Event> {
    var secs :- GetNat(ms, "uptime_secs", U64_LIMIT);
    Some(Heartbeat(secs))
  }

  /** The event of a tagged object, whatever the order of its members. */
  function ReadEvent(ms: seq<Member>): Option<Event> {
    var kind :- GetStr(ms, "type");
    if kind == "Vitals" then ReadVitals(ms)
    else if kind == "State" then ReadState(ms)
    else if kind == "Accepted" then ReadAccepted(ms)
    else if kind == "AgentQuestion" then ReadAgentQuestion(ms)
    else if kind == "Gate" then ReadGate(ms)
    else if kind == "Audit" then ReadAudit(ms)
    else if kind == "TaskStarted" then ReadTaskStarted(ms)
    else if kind == "AgentMessage" then ReadAgentMessage(ms)
    else if kind == "Heartbeat" then ReadHeartbeat(ms)
    else None
  }

  const TELEMETRY_PREFIX := "ANIMA_TLM "

  /** `event_from_line`: trim, drop the serial prefix if there, read the object. */
  function EventFromLine(line: string): Option<Event> {
    match Parse(StripPrefix(Trim(line), TELEMETRY_PREFIX))
    case Some(Obj(ms)) => ReadEvent(ms)
    case _ => None
  }

  // ── Round trip ─────────────────────────────────────────────────────────────

  ghost predicate DistinctKeys(ms: seq<Member>) {
    forall i, j :: 0 <= i < j < |ms| ==> ms[i].key != ms[j].key
  }

  lemma {:induction false} LookupNone(ms: seq<Member>, key: string)
    requires forall i :: 0 <= i < |ms| ==> ms[i].key != key
    ensures Lookup(ms, key) == Absent
  {
    if ms != [] {
      LookupNone(ms[1..], key);
    }
  }

  lemma {:induction false} LookupAt(ms: seq<Member>, i: nat)
    requires DistinctKeys(ms) && i < |ms|
    ensures Lookup(ms, ms[i].key) == Once(ms[i].value)
  {
    if i == 0 {
      LookupNone(ms[1..], ms[0].key);
    } else {
      LookupAt(ms[1..], i - 1);
    }
  }

  lemma ReadStateMembers(e: Event)
    requires e.State?
    ensures ReadEvent(StateMembers(e)) == Some(e)
  {
    var ms := StateMembers(e);
    assert DistinctKeys(ms);
    LookupAt(ms, 0);
    LookupAt(ms, 1);
    LookupAt(ms, 2);
    LookupAt(ms, 3);
    DecimalRoundTrip(e.agendaDepth);
  }

  lemma ReadStrAt(ms: seq<Member>, i: nat, s: string)
    requires DistinctKeys(ms) && i < |ms| && ms[i].value == Str(s)
    ensures GetStr(ms, ms[i].key) == Some(s)
  {
    LookupAt(ms, i);
  }

  lemma ReadOptStrAt(ms: seq<Member>, i: nat, s: Option<string>)
    requires DistinctKeys(ms) && i < |ms| && ms[i].value == StrOrNull(s)
    ensures GetOptStr(ms, ms[i].key) == Some(s)
  {
    LookupAt(ms, i);
  }

  lemma ReadNatAt(ms: seq<Member>, i: nat, n: nat, limit: nat)
    requires DistinctKeys(ms) && i < |ms| && ms[i].value == Num(Decimal(n)) && n < limit
    ensures GetNat(ms, ms[i].key, limit) == Some(n)
  {
    LookupAt(ms, i);
    DecimalRoundTrip(n);
  }

  lemma ReadStrsAt(ms: seq<Member>, i: nat, ss: seq<string>)
    requires DistinctKeys(ms) && i < |ms| && ms[i].value == Arr(Strs(ss))
    ensures GetStrs(ms, ms[i].key) == Some(ss)
  {
    LookupAt(ms, i);
    var es := Strs(ss);
    assert ss == seq(|es|, k requires 0 <= k < |es| => es[k].s);
  }

  lemma AcceptedKeysDistinct(e: Event)
    requires e.Accepted?
    ensures DistinctKeys(AcceptedMembers(e))
  {
  }

  lemma ReadVerdict(e: Event)
    requires e.Accepted?
    ensures var ms := AcceptedMembers(e);
            && GetStr(ms, "type") == Some("Accepted")
            && GetStr(ms, "message_id") == Some(e.acceptedId)
            && GetPriority(ms, "priority") == Some(e.priority)
            && GetBool(ms, "forced") == Some(e.forced)
  {
    var ms := AcceptedMembers(e);
    AcceptedKeysDistinct(e);
    ReadStrAt(ms, 0, "Accepted");
    ReadStrAt(ms, 1, e.acceptedId);
    ReadStrAt(ms, 2, PriorityName(e.priority));
    LookupAt(ms, 3);
  }

  lemma ReadAcceptedText(e: Event)
    requires e.Accepted?
    ensures var ms := AcceptedMembers(e);
            && GetOptStr(ms, "force_reason") == Some(e.forceReason)
            && GetOptStr(ms, "reply_to") == Some(e.replyTo)
            && GetStr(ms, "text") == Some(e.text)
  {
    var ms := AcceptedMembers(e);
    AcceptedKeysDistinct(e);
    ReadOptStrAt(ms, 4, e.forceReason);
    ReadOptStrAt(ms, 5, e.replyTo);
    ReadStrAt(ms, 6, e.text);
  }

  lemma QuestionKeysDistinct(e: Event)
    requires e.AgentQuestion?
    ensures DistinctKeys(AgentQuestionMembers(e))
  {
  }

  lemma ReadQuestion(e: Event)
    requires e.AgentQuestion?
    ensures var ms := AgentQuestionMembers(e);
            && GetStr(ms, "type") == Some("AgentQuestion")
            && GetNat(ms, "task_id", U64_LIMIT) == Some(e.taskId)
            && GetStr(ms, "question_id") == Some(e.questionId)
  {
    var ms := AgentQuestionMembers(e);
    QuestionKeysDistinct(e);
    ReadStrAt(ms, 0, "AgentQuestion");
    ReadNatAt(ms, 1, e.taskId, U64_LIMIT);
    ReadStrAt(ms, 2, e.questionId);
  }

  lemma ReadQuestionText(e: Event)
    requires e.AgentQuestion?
    ensures var ms := AgentQuestionMembers(e);
            && GetStr(ms, "text") == Some(e.text)
            && GetStrs(ms, "options") == Some(e.options)
            && GetStr(ms, "reason") == Some(e.reason)
  {
    var ms := AgentQuestionMembers(e);
    QuestionKeysDistinct(e);
    ReadStrAt(ms, 3, e.text);
    ReadStrsAt(ms, 4, e.options);
    ReadStrAt(ms, 5, e.reason);
  }

  lemma GateKeysDistinct(e: Event)
    requires e.Gate?
    ensures DistinctKeys(GateMembers(e))
  {
  }

  lemma ReadDecision(e: Event)
    requires e.Gate?
    ensures var ms := GateMembers(e);
            && GetStr(ms, "type") == Some("Gate")
            && GetOptStr(ms, "message_id") == Some(e.messageId)
            && GetBool(ms, "invoke") == Some(e.invoke)
            && GetOptStr(ms, "cost_class") == Some(e.costClass)
  {
    var ms := GateMembers(e);
    GateKeysDistinct(e);
    LookupAt(ms, 0);
    LookupAt(ms, 1);
    LookupAt(ms, 2);
    LookupAt(ms, 3);
  }

  lemma ReadScores(e: Event)
    requires e.Gate? && AllFinite(e)
    ensures var ms := GateMembers(e);
            && GetFloat(ms, "value_score") == Some(e.valueScore)
            && GetFloat(ms, "threshold") == Some(e.threshold)
            && GetBool(ms, "override_active") == Some(e.overrideActive)
            && GetStr(ms, "reasoning") == Some(e.reasoning)
  {
    var ms := GateMembers(e);
    GateKeysDistinct(e);
    ReadFloatAt(ms, 4, e.valueScore);
    ReadFloatAt(ms, 5, e.threshold);
    LookupAt(ms, 6);
    LookupAt(ms, 7);
  }

  lemma ReadAuditMembers(e: Event)
    requires e.Audit?
    ensures ReadEvent(AuditMembers(e)) == Some(e)
  {
    var ms := AuditMembers(e);
    assert DistinctKeys(ms);
    LookupAt(ms, 0);
    LookupAt(ms, 1);
    LookupAt(ms, 2);
    LookupAt(ms, 3);
  }

  lemma ReadTaskStartedMembers(e: Event)
    requires e.TaskStarted?
    ensures ReadEvent(TaskStartedMembers(e)) == Some(e)
  {
    var ms := TaskStartedMembers(e);
    assert DistinctKeys(ms);
    ReadStrAt(ms, 0, "TaskStarted");
    ReadNatAt(ms, 1, e.taskId, U64_LIMIT);
    ReadOptStrAt(ms, 2, e.messageId);
    ReadStrAt(ms, 3, e.prompt);
  }

  lemma AgentMessageKeysDistinct(e: Event)
    requires e.AgentMessage?
    ensures DistinctKeys(AgentMessageMembers(e))
  {
  }

  lemma ReadAgentMessageMembers(e: Event)
    requires e.AgentMessage?
    ensures ReadEvent(AgentMessageMembers(e)) == Some(e)
  {
    var ms := AgentMessageMembers(e);
    AgentMessageKeysDistinct(e);
    ReadStrAt(ms, 0, "AgentMessage");
    ReadNatAt(ms, 1, e.taskId, U64_LIMIT);
    ReadOptStrAt(ms, 2, e.messageId);
    ReadNatAt(ms, 3, e.tokens, U32_LIMIT);
    ReadStrAt(ms, 4, e.text);
  }

  lemma ReadHeartbeatMembers(e: Event)
    requires e.Heartbeat?
    ensures ReadEvent(HeartbeatMembers(e)) == Some(e)
  {
    var ms := HeartbeatMembers(e);
    assert DistinctKeys(ms);
    LookupAt(ms, 0);
    LookupAt(ms, 1);
    DecimalRoundTrip(e.uptimeSecs);
  }

  lemma VitalsKeysDistinct(e: Event)
    requires e.Vitals?
    ensures DistinctKeys(VitalsMembers(e))
  {
  }

  lemma ReadFloatAt(ms: seq<Member>, i: nat, f: Float)
    requires DistinctKeys(ms) && i < |ms| && ms[i].value == Num(Display(f)) && f.Finite?
    ensures GetFloat(ms, ms[i].key) == Some(f)
  {
    LookupAt(ms, i);
  }

  lemma ReadLoads(e: Event)
    requires e.Vitals? && AllFinite(e)
    ensures var ms := VitalsMembers(e);
            && GetStr(ms, "type") == Some("Vitals")
            && GetFloat(ms, "thermal_load") == Some(e.thermalLoad)
            && GetFloat(ms, "compute_pressure") == Some(e.computePressure)
            && GetFloat(ms, "memory_pressure") == Some(e.memoryPressure)
  {
    var ms := VitalsMembers(e);
    VitalsKeysDistinct(e);
    LookupAt(ms, 0);
    ReadFloatAt(ms, 1, e.thermalLoad);
    ReadFloatAt(ms, 2, e.computePressure);
    ReadFloatAt(ms, 3, e.memoryPressure);
  }

  lemma ReadBudgets(e: Event)
    requires e.Vitals? && AllFinite(e)
    ensures var ms := VitalsMembers(e);
            && GetFloat(ms, "power_budget") == Some(e.powerBudget)
            && GetFloat(ms, "financial_budget") == Some(e.financialBudget)
            && GetFloat(ms, "attention_demand") == Some(e.attentionDemand)
            && GetFloat(ms, "aggregate_stress") == Some(e.aggregateStress)
  {
    var ms := VitalsMembers(e);
    VitalsKeysDistinct(e);
    ReadFloatAt(ms, 4, e.powerBudget);
    ReadFloatAt(ms, 5, e.financialBudget);
    ReadFloatAt(ms, 6, e.attentionDemand);
    ReadFloatAt(ms, 7, e.aggregateStress);
  }

  lemma ReadVitalsMembers(e: Event)
    requires e.Vitals? && AllFinite(e)
    ensures ReadEvent(VitalsMembers(e)) == Some(e)
  {
    ReadLoads(e);
    ReadBudgets(e);
  }

  lemma ReadAcceptedMembers(e: Event)
    requires e.Accepted?
    ensures ReadEvent(AcceptedMembers(e)) == Some(e)
  {
    ReadVerdict(e);
    ReadAcceptedText(e);
  }

  lemma ReadAgentQuestionMembers(e: Event)
    requires e.AgentQuestion?
    ensures ReadEvent(AgentQuestionMembers(e)) == Some(e)
  {
    ReadQuestion(e);
    ReadQuestionText(e);
  }

  lemma ReadGateMembers(e: Event)
    requires e.Gate? && AllFinite(e)
    ensures ReadEvent(GateMembers(e)) == Some(e)
  {
    ReadDecision(e);
    ReadScores(e);
  }

  /** The reader undoes the member list of every finite event. */
  lemma ReadMembers(e: Event)
    requires AllFinite(e)
    ensures ReadEvent(Members(e)) == Some(e)
  {
    match e
    case Vitals(_, _, _, _, _, _, _) => ReadVitalsMembers(e);
    case State(_, _, _) => ReadStateMembers(e);
    case Accepted(_, _, _, _, _, _) => ReadAcceptedMembers(e);
    case AgentQuestion(_, _, _, _, _) => ReadAgentQuestionMembers(e);
    case Gate(_, _, _, _, _, _, _) => ReadGateMembers(e);
    case Audit(_, _, _) => ReadAuditMembers(e);
    case TaskStarted(_, _, _) => ReadTaskStartedMembers(e);
    case AgentMessage(_, _, _, _) => ReadAgentMessageMembers(e);
    case Heartbeat(_) => ReadHeartbeatMembers(e);
  }

  predicate AllValid(ms: seq<Member>) {
    forall i :: 0 <= i < |ms| ==> Valid(ms[i].value)
  }

  lemma VitalsValid(e: Event)
    requires e.Vitals? && AllFinite(e)
    ensures AllValid(VitalsMembers(e))
  {
    assert AllValid(Loads(e));
    assert AllValid(Budgets(e));
  }

  lemma StateValid(e: Event)
    requires e.State?
    ensures AllValid(StateMembers(e))
  {
    DecimalIsNumber(e.agendaDepth);
  }

  lemma TaskStartedValid(e: Event)
    requires e.TaskStarted?
    ensures AllValid(TaskStartedMembers(e))
  {
    DecimalIsNumber(e.taskId);
  }

  lemma AgentMessageValid(e: Event)
    requires e.AgentMessage?
    ensures AllValid(AgentMessageMembers(e))
  {
    DecimalIsNumber(e.taskId);
    DecimalIsNumber(e.tokens);
  }

  lemma QuestionValid(e: Event)
    requires e.AgentQuestion?
    ensures AllValid(AgentQuestionMembers(e))
  {
    DecimalIsNumber(e.taskId);
  }

  lemma HeartbeatValid(e: Event)
    requires e.Heartbeat?
    ensures AllValid(HeartbeatMembers(e))
  {
    DecimalIsNumber(e.uptimeSecs);
  }

  lemma AcceptedValid(e: Event)
    requires e.Accepted?
    ensures AllValid(AcceptedMembers(e))
  {
  }

  lemma GateValid(e: Event)
    requires e.Gate? && AllFinite(e)
    ensures AllValid(GateMembers(e))
  {
  }

  lemma AuditValid(e: Event)
    requires e.Audit?
    ensures AllValid(AuditMembers(e))
  {
  }

  lemma MembersValid(e: Event)
    requires AllFinite(e)
    ensures AllValid(Members(e))
  {
    match e
    case Vitals(_, _, _, _, _, _, _) => VitalsValid(e);
    case State(_, _, _) => StateValid(e);
    case Accepted(_, _, _, _, _, _) => AcceptedValid(e);
    case AgentQuestion(_, _, _, _, _) => QuestionValid(e);
    case Gate(_, _, _, _, _, _, _) => GateValid(e);
    case Audit(_, _, _) => AuditValid(e);
    case TaskStarted(_, _, _) => TaskStartedValid(e);
    case AgentMessage(_, _, _, _) => AgentMessageValid(e);
    case Heartbeat(_) => HeartbeatValid(e);
  }

  /** A position whose value is the text of a non-finite float, every earlier value being JSON. */
  ghost predicate FirstBad(ms: seq<Member>, bad: nat) {
    && bad < |ms| && AllValid(ms[..bad])
    && ms[bad].value.Num? && IsNonFinite(ms[bad].value.token)
  }

  lemma FirstBadAfter(pre: seq<Member>, ms: seq<Member>, b: nat)
    requires AllValid(pre) && FirstBad(ms, b)
    ensures FirstBad(pre + ms, |pre| + b)
  {
    assert (pre + ms)[..|pre| + b] == pre + ms[..b];
    assert (pre + ms)[|pre| + b] == ms[b];
  }

  lemma BadLoads(e: Event) returns (bad: nat)
    requires e.Vitals? && !(e.thermalLoad.Finite? && e.computePressure.Finite? && e.memoryPressure.Finite?)
    ensures FirstBad(Loads(e), bad)
  {
    bad := if !e.thermalLoad.Finite? then 0 else if !e.computePressure.Finite? then 1 else 2;
  }

  lemma BadBudgets(e: Event) returns (bad: nat)
    requires e.Vitals?
    requires !(e.powerBudget.Finite? && e.financialBudget.Finite? && e.attentionDemand.Finite? &&
               e.aggregateStress.Finite?)
    ensures FirstBad(Budgets(e), bad)
  {
    bad := if !e.powerBudget.Finite? then 0 else if !e.financialBudget.Finite? then 1
           else if !e.attentionDemand.Finite? then 2 else 3;
  }

  lemma FirstBadThen(ms: seq<Member>, b: nat, more: seq<Member>)
    requires FirstBad(ms, b)
    ensures FirstBad(ms + more, b)
  {
    assert (ms + more)[..b] == ms[..b];
  }

  lemma BadVitals(e: Event) returns (bad: nat)
    requires e.Vitals? && !AllFinite(e)
    ensures FirstBad(VitalsMembers(e), bad)
  {
    var tag := [Member("type", Str("Vitals"))];
    if e.thermalLoad.Finite? && e.computePressure.Finite? && e.memoryPressure.Finite? {
      var b := BadBudgets(e);
      FirstBadAfter(Loads(e), Budgets(e), b);
      bad := |Loads(e)| + b;
    } else {
      bad := BadLoads(e);
      FirstBadThen(Loads(e), bad, Budgets(e));
    }
    FirstBadAfter(tag, Loads(e) + Budgets(e), bad);
    bad := 1 + bad;
  }

  lemma BadGate(e: Event) returns (bad: nat)
    requires e.Gate? && !AllFinite(e)
    ensures FirstBad(GateMembers(e), bad)
  {
    bad := if !e.valueScore.Finite? then 4 else 5;
  }

  lemma NonFiniteUnreadable(e: Event)
    requires !AllFinite(e)
    ensures Parse(Line(e)) == None
  {
    var bad;
    if e.Vitals? {
      bad := BadVitals(e);
    } else {
      bad := BadGate(e);
    }
    forall i | 0 <= i < bad ensures Valid(Members(e)[i].value) {
      assert Members(e)[..bad][i] == Members(e)[i];
    }
    ObjectWithNonFinite(Members(e), bad);
  }

  /**
   The interoperability contract: a written line, bare or behind the serial prefix, reads back as
   exactly the event that was written when its floats are finite, and as nothing otherwise, whatever
   whitespace surrounds it.
   */
  lemma NdjsonRoundTrip(e: Event, lead: string, trail: string)
    requires IsBlank(lead) && IsBlank(trail)
    ensures EventFromLine(lead + Line(e) + trail) == if AllFinite(e) then Some(e) else None
    ensures EventFromLine(lead + (TELEMETRY_PREFIX + Line(e)) + trail) == if AllFinite(e) then Some(e) else None
  {
    var ms := Members(e);
    BracedSurvives(TELEMETRY_PREFIX, Line(e), lead, trail);
    if AllFinite(e) {
      MembersValid(e);
      ParsePrintDocument(Obj(ms));
      ReadMembers(e);
    } else {
      NonFiniteUnreadable(e);
    }
  }
}
