/**
 The Plan / Act / Observe / Revise loop as a peer of a request/reply protocol: whatever the other
 side sends, or fails to send, the loop's conversation is one the protocol allows, and it ends.
 */
module AgentLoop {
  import opened Text
  import opened Json

  const MAX_TOOL_CALLS: nat := 10

  // ── The conversation ───────────────────────────────────────────────────────

  datatype Purpose = Plan | Revise

  /** What the loop sends. */
  datatype Frame =
    | LlmRequest(requestId: string, purpose: Purpose)
    | ToolCall(callId: string, tool: string, args: string)
    | InvokeComplete(toolCallsMade: nat)
    | CortexError

  /** What a received message is to the loop. */
  datatype Reply =
    | ToolResponse(callId: Option<Json>)
    | LlmResponse(requestId: Option<Json>)
    | Control
    | Unrelated
    | NotAnObject

  function Classify(v: Json): Reply {
    if !v.Obj? then NotAnObject
    else
      var kind := Get(v.members, "type");
      if kind == Some(Str("ToolResponse")) then ToolResponse(Get(v.members, "call_id"))
      else if kind == Some(Str("LlmResponse")) then LlmResponse(Get(v.members, "request_id"))
      else if kind == Some(Str("Shutdown")) || kind == Some(Str("Cancel")) || kind == Some(Str("CortexError")) then
        Control
      else Unrelated
  }

  datatype Awaited = ToolReply(callId: string) | LlmReply(requestId: string)

  /** A tool reply must echo the call id; an LLM reply may omit the request id but not contradict it. */
  predicate Answers(w: Awaited, r: Reply) {
    match w
    case ToolReply(id) => r == ToolResponse(Some(Str(id)))
    case LlmReply(id) =>
      r.LlmResponse? && (r.requestId == None || r.requestId == Some(Null) || r.requestId == Some(Str(id)))
  }

  /** Messages on which waiting for a reply is given up. */
  predicate Stops(r: Reply) {
    r == Control || r == NotAnObject
  }

  /** What a receive brings: a message with what it is to the loop, or a failure. */
  datatype Receipt = Got(reply: Reply, value: Json) | Lost

  /** A conversation: frames sent and receipts. */
  datatype Event = Sent(frame: Frame) | Received(receipt: Receipt)

  predicate IsAnswer(w: Awaited, e: Event) {
    e.Received? && e.receipt.Got? && Answers(w, e.receipt.reply)
  }

  // ── The protocol ───────────────────────────────────────────────────────────

  datatype Phase = Ready | Waiting(awaited: Awaited) | Aborting | Finished | Violated

  /** Where a conversation stands, and what it has cost so far. */
  datatype Progress = Progress(phase: Phase, toolCalls: nat, llmRequests: nat, mayRevise: bool)

  const OPENING := Progress(Ready, 0, 0, false)

  /** One event; `tools` are the names on offer. */
  function Advance(p: Progress, e: Event, tools: set<string>): Progress {
    match e
    case Sent(LlmRequest(id, Plan)) =>
      if p == OPENING then Progress(Waiting(LlmReply(id)), 0, 1, false) else p.(phase := Violated)
    case Sent(LlmRequest(id, Revise)) =>
      if p.phase == Ready && p.mayRevise then
        Progress(Waiting(LlmReply(id)), p.toolCalls, p.llmRequests + 1, false)
      else p.(phase := Violated)
    case Sent(ToolCall(id, tool, _)) =>
      if p.phase == Ready && tool in tools && p.toolCalls < MAX_TOOL_CALLS then
        Progress(Waiting(ToolReply(id)), p.toolCalls + 1, p.llmRequests, true)
      else p.(phase := Violated)
    case Sent(InvokeComplete(n)) =>
      if p.phase == Ready && n == p.toolCalls then p.(phase := Finished) else p.(phase := Violated)
    case Sent(CortexError) =>
      if p.phase == Ready || p.phase == Aborting then p.(phase := Finished) else p.(phase := Violated)
    case Received(r) =>
      if !p.phase.Waiting? then p.(phase := Violated)
      else if r.Lost? then p.(phase := Aborting)
      else if Answers(p.phase.awaited, r.reply) then p.(phase := Ready)
      else if Stops(r.reply) then p.(phase := Aborting)
      else p
  }

  function After(trace: seq<Event>, tools: set<string>): Progress {
    if trace == [] then OPENING
    else Advance(After(trace[..|trace| - 1], tools), trace[|trace| - 1], tools)
  }

  lemma AfterSnoc(trace: seq<Event>, e: Event, tools: set<string>)
    ensures After(trace + [e], tools) == Advance(After(trace, tools), e, tools)
  {
    assert (trace + [e])[..|trace|] == trace;
  }

  // ── What the protocol guarantees, read off a trace ─────────────────────────

  predicate IsTerminal(e: Event) {
    e.Sent? && (e.frame.InvokeComplete? || e.frame.CortexError?)
  }

  predicate IsRequest(e: Event) {
    e.Sent? && (e.frame.ToolCall? || e.frame.LlmRequest?)
  }

  function Count(trace: seq<Event>, which: Event -> bool): nat {
    if trace == [] then 0
    else Count(trace[..|trace| - 1], which) + if which(trace[|trace| - 1]) then 1 else 0
  }

  /** The tool calls of a conversation, in order. */
  function Calls(trace: seq<Event>): seq<(string, string)> {
    if trace == [] then []
    else Calls(trace[..|trace| - 1]) + CallIn(trace[|trace| - 1])
  }

  function CallIn(e: Event): seq<(string, string)> {
    if IsToolCall(e) then [(e.frame.tool, e.frame.args)] else []
  }

  lemma CallsSnoc(trace: seq<Event>, e: Event)
    ensures Calls(trace + [e]) == Calls(trace) + CallIn(e)
  {
    assert (trace + [e])[..|trace|] == trace;
  }

  predicate IsToolCall(e: Event) { e.Sent? && e.frame.ToolCall? }

  predicate IsLlmRequest(e: Event) { e.Sent? && e.frame.LlmRequest? }

  lemma {:induction false} CountsMatch(trace: seq<Event>, tools: set<string>)
    requires !After(trace, tools).phase.Violated?
    ensures var p := After(trace, tools);
            && Count(trace, IsToolCall) == p.toolCalls <= MAX_TOOL_CALLS
            && Count(trace, IsLlmRequest) == p.llmRequests
            && p.llmRequests + (if p.mayRevise then 1 else 0) <= p.toolCalls + 1
            && Count(trace, IsTerminal) == (if p.phase == Finished then 1 else 0)
            && (p.phase == Finished ==> trace != [] && IsTerminal(trace[|trace| - 1]))
  {
    if trace != [] {
      NotViolatedBefore(trace, tools);
      CountsMatch(trace[..|trace| - 1], tools);
    }
  }

  lemma NotViolatedBefore(trace: seq<Event>, tools: set<string>)
    requires trace != [] && !After(trace, tools).phase.Violated?
    ensures !After(trace[..|trace| - 1], tools).phase.Violated?
  {
  }

  /** Every tool call of an allowed conversation names a tool on offer. */
  lemma {:induction false} CallsAreAvailable(trace: seq<Event>, tools: set<string>, i: nat)
    requires !After(trace, tools).phase.Violated?
    requires i < |trace| && IsToolCall(trace[i])
    ensures trace[i].frame.tool in tools
  {
    var n := |trace| - 1;
    if i < n {
      NotViolatedBefore(trace, tools);
      CallsAreAvailable(trace[..n], tools, i);
    }
  }

  function AwaitedBy(f: Frame): Awaited
    requires f.ToolCall? || f.LlmRequest?
  {
    if f.ToolCall? then ToolReply(f.callId) else LlmReply(f.requestId)
  }

  /** While a reply is awaited, nothing has been sent since the request, and nothing has answered it. */
  lemma {:induction false} WaitingSince(trace: seq<Event>, tools: set<string>) returns (i: nat)
    requires After(trace, tools).phase.Waiting?
    ensures i < |trace| && IsRequest(trace[i]) && After(trace, tools).phase.awaited == AwaitedBy(trace[i].frame)
    ensures forall j :: i < j < |trace| ==> trace[j].Received?
  {
    var n := |trace| - 1;
    if IsRequest(trace[n]) {
      i := n;
    } else {
      i := WaitingSince(trace[..n], tools);
    }
  }

  /** Between two requests of an allowed conversation lies the first one's answer, and no other request before it. */
  lemma {:induction false} AnsweredBeforeNext(trace: seq<Event>, tools: set<string>, i: nat, j: nat)
    returns (k: nat)
    requires !After(trace, tools).phase.Violated?
    requires i < j < |trace| && IsRequest(trace[i]) && IsRequest(trace[j])
    requires forall m :: i < m < j ==> !IsRequest(trace[m])
    ensures i < k < j && IsAnswer(AwaitedBy(trace[i].frame), trace[k])
  {
    var n := |trace| - 1;
    if j < n {
      NotViolatedBefore(trace, tools);
      k := AnsweredBeforeNext(trace[..n], tools, i, j);
    } else {
      k := AnsweredSince(trace[..j], tools, i);
    }
  }

  /** Once ready again after a request, its answer has been received. */
  lemma {:induction false} AnsweredSince(trace: seq<Event>, tools: set<string>, i: nat) returns (k: nat)
    requires After(trace, tools).phase == Ready
    requires i < |trace| && IsRequest(trace[i]) && forall m :: i < m < |trace| ==> !IsRequest(trace[m])
    ensures i < k < |trace| && IsAnswer(AwaitedBy(trace[i].frame), trace[k])
  {
    k := |trace| - 1;
    var p := trace[..k];
    assert After(trace, tools) == Advance(After(p, tools), trace[k], tools);
    var w := WaitingSince(p, tools);
    assert w == i;
  }

  // ── Plans ──────────────────────────────────────────────────────────────────

  datatype PlanStep = PlanStep(tool: string, args: string, description: string)

  /** Python exceptions as the loop tells them apart: `_revise` forgives only the first kind. */
  datatype Raised = ValueError | OtherError

  datatype Result<+T> = Ok(value: T) | Raise(error: Raised)

  datatype Observation =
    | Observed(tool: string, description: string, failed: bool, result: Json)
    | SkippedStep(index: nat, tool: string)
    | IgnoredRevision

  /** The names on offer; a tool without a name makes reading them fail. */
  function Names(tools: seq<Option<string>>): set<string> {
    set i | 0 <= i < |tools| && tools[i].Some? :: tools[i].value
  }

  /** Absent and null alike. */
  predicate Missing(o: Option<Json>) {
    o == None || o == Some(Null)
  }

  /** `_normalise_args`: always a JSON document, or an error. */
  function NormaliseArgs(args: Option<Json>): Option<string> {
    match args
    case None => Some("{}")
    case Some(Null) => Some("{}")
    case Some(Str(s)) => if Parse(s).Some? then Some(s) else None
    case Some(j) => Some(Print(j))
  }

  lemma NormalisedArgsAreJson(args: Option<Json>)
    requires args.Some? ==> Valid(args.value)
    ensures NormaliseArgs(args).Some? ==> Parse(NormaliseArgs(args).value).Some?
  {
    ParsePrintDocument(Obj([]));
    assert Print(Obj([])) == "{}";
    match args
    case Some(Str(s)) =>
    case Some(j) => ParsePrintDocument(j);
    case None =>
  }

  datatype Reading = Bad | UnknownTool(tool: string) | Good(step: PlanStep)

  /** One entry of a proposed plan. */
  function ReadStep(entry: Json, names: set<string>): Reading {
    if !entry.Obj? then Bad
    else
      var tool, description := Get(entry.members, "tool_name"), Get(entry.members, "description");
      match tool
      case Some(Str(t)) =>
        if t == "" then Bad
        else if t !in names then UnknownTool(t)
        else
          var args := NormaliseArgs(Get(entry.members, "args"));
          if args.None? then Bad
          else Good(PlanStep(t, args.value, Describe(description)))
      case _ => Bad
  }

  function Describe(o: Option<Json>): string {
    match o case None => "" case Some(Str(s)) => s case Some(j) => Print(j)
  }

  /** The usable steps of a proposed plan in order, or nothing if an entry is malformed. */
  function ReadSteps(raw: seq<Json>, names: set<string>): Option<seq<PlanStep>> {
    if raw == [] then Some([])
    else
      var steps :- ReadSteps(raw[..|raw| - 1], names);
      match ReadStep(raw[|raw| - 1], names)
      case Bad => None
      case UnknownTool(_) => Some(steps)
      case Good(step) => Some(steps + [step])
  }

  /** Python's `strip` takes four control characters for whitespace that Rust does not. */
  predicate IsPythonWhitespace(c: char) {
    IsWhitespace(c) || 0x1C <= c as int <= 0x1F
  }

  function StripStart(s: string): string {
    if s != "" && IsPythonWhitespace(s[0]) then StripStart(s[1..]) else s
  }

  function Strip(s: string): string {
    if s != "" && IsPythonWhitespace(s[|s| - 1]) then Strip(s[..|s| - 1]) else StripStart(s)
  }

  /** `_extract_plan_from_content`: the whole text, or else the span from the first `[` to the last `]`. */
  function PlanInContent(content: Json): Option<Json> {
    if !content.Str? then None
    else
      var text := Strip(content.s);
      if Parse(text).Some? then Parse(text)
      else
        var start, end := Index(text, '['), LastIndex(text, ']');
        if start < |text| && end > start then Parse(text[start..end + 1]) else None
  }

  /** The value a reply proposes as a plan. */
  function Proposed(reply: seq<Member>): Option<Json> {
    var direct, content := Get(reply, "plan"), Get(reply, "content");
    if !Missing(direct) then direct else if Missing(content) then None else PlanInContent(content.value)
  }

  /** Neither field: no plan is offered. */
  predicate OffersNothing(reply: seq<Member>) {
    Missing(Get(reply, "plan")) && Missing(Get(reply, "content"))
  }

  /** `_parse_llm_plan` */
  function ParsedPlan(reply: seq<Member>, tools: seq<Option<string>>): Result<seq<PlanStep>> {
    var raw := Proposed(reply);
    if raw.None? || !raw.value.Arr? then Raise(ValueError)
    else if None in tools then Raise(OtherError)
    else
      match ReadSteps(raw.value.elems, Names(tools))
      case None => Raise(ValueError)
      case Some(steps) => if steps == [] then Raise(ValueError) else Ok(steps)
  }

  /** The observations reading a plan leaves: one for each unknown tool before the first malformed entry. */
  function Skips(raw: seq<Json>, names: set<string>): seq<Observation> {
    if raw == [] then []
    else
      var n := |raw| - 1;
      var before := Skips(raw[..n], names);
      match ReadStep(raw[n], names)
      case UnknownTool(t) => if ReadSteps(raw[..n], names).Some? then before + [SkippedStep(n, t)] else before
      case _ => before
  }

  function SkippedIn(reply: seq<Member>, tools: seq<Option<string>>): seq<Observation> {
    var raw := Proposed(reply);
    if raw.None? || !raw.value.Arr? || None in tools then [] else Skips(raw.value.elems, Names(tools))
  }

  ghost predicate AllAvailable(plan: seq<PlanStep>, names: set<string>) {
    forall i :: 0 <= i < |plan| ==> plan[i].tool in names
  }

  lemma {:induction false} ReadStepsAvailable(raw: seq<Json>, names: set<string>)
    ensures ReadSteps(raw, names).Some? ==> AllAvailable(ReadSteps(raw, names).value, names)
  {
    if raw != [] {
      ReadStepsAvailable(raw[..|raw| - 1], names);
    }
  }

  /** Whatever the model answers, a plan that is accepted is non-empty and names only tools on offer. */
  lemma ParsedPlanAvailable(reply: seq<Member>, tools: seq<Option<string>>)
    ensures var r := ParsedPlan(reply, tools);
            r.Ok? ==> r.value != [] && AllAvailable(r.value, Names(tools))
  {
    var raw := Proposed(reply);
    if raw.Some? && raw.value.Arr? {
      ReadStepsAvailable(raw.value.elems, Names(tools));
    }
  }

  // ── The mock plan ──────────────────────────────────────────────────────────

  /** The hermetic plan: `clock` and `echo` where on offer, else the first tool. */
  function MockSteps(tools: seq<Option<string>>, description: string): seq<PlanStep> {
    var payload := if |description| > 80 then description[..80] else description;
    var clock := if Some("clock") in tools then [PlanStep("clock", "{}", "Record current wall time")] else [];
    var echo := if Some("echo") in tools then
                  [PlanStep("echo", Print(Obj([Member("payload", Str(payload))])),
                            "Echo task description to confirm tool round-trip")]
                else [];
    if clock + echo != [] || tools == [] || tools[0].None? then clock + echo
    else [PlanStep(tools[0].value, "{}", "Call " + tools[0].value)]
  }

  lemma NamesAre(tools: seq<Option<string>>, t: string)
    ensures t in Names(tools) <==> Some(t) in tools
  {
    if Some(t) in tools {
      var i :| 0 <= i < |tools| && tools[i] == Some(t);
      assert tools[i].value == t;
    }
  }

  lemma MockStepsAvailable(tools: seq<Option<string>>, description: string)
    ensures AllAvailable(MockSteps(tools, description), Names(tools)) && |MockSteps(tools, description)| <= 2
    ensures tools != [] && None !in tools ==> MockSteps(tools, description) != []
  {
    NamesAre(tools, "clock");
    NamesAre(tools, "echo");
    if tools != [] && tools[0].Some? {
      NamesAre(tools, tools[0].value);
    }
  }

  function ToolAndArgs(plan: seq<PlanStep>): seq<(string, string)> {
    seq(|plan|, i requires 0 <= i < |plan| => (plan[i].tool, plan[i].args))
  }

  /** Python truth of a decoded JSON value. */
  predicate Truthy(j: Json) {
    match j
    case Null => false
    case Bool(b) => b
    case Num(t) => HasNonZeroDigit(t)
    case Str(s) => s != ""
    case Arr(es) => es != []
    case Obj(ms) => ms != []
  }

  /** A digit other than zero before any exponent. */
  predicate HasNonZeroDigit(t: string) {
    t != "" && t[0] != 'e' && t[0] != 'E' && ('1' <= t[0] <= '9' || HasNonZeroDigit(t[1..]))
  }

  /** `_observe` on a tool reply. */
  function Observe(step: PlanStep, reply: seq<Member>): Observation {
    var error, result := Get(reply, "error"), Get(reply, "result");
    if error.Some? && Truthy(error.value) then Observed(step.tool, step.description, true, error.value)
    else Observed(step.tool, step.description, false, if result.Some? then result.value else Str(""))
  }

  // ── Waiting for a reply ────────────────────────────────────────────────────

  /** A receipt on which waiting ends. */
  predicate EndsWait(w: Awaited, r: Receipt) {
    r.Lost? || Answers(w, r.reply) || Stops(r.reply)
  }

  /** The first receipt on which waiting ends. */
  function WaitEnd(w: Awaited, rs: seq<Receipt>): (n: nat)
    ensures n <= |rs| && (forall i :: 0 <= i < n ==> !EndsWait(w, rs[i])) && (n < |rs| ==> EndsWait(w, rs[n]))
  {
    if rs == [] || EndsWait(w, rs[0]) then 0 else 1 + WaitEnd(w, rs[1..])
  }

  function MembersOf(v: Json): seq<Member> {
    if v.Obj? then v.members else []
  }

  function ReplyIn(w: Awaited, r: Receipt): Result<seq<Member>> {
    if r.Got? && Answers(w, r.reply) then Ok(MembersOf(r.value)) else Raise(OtherError)
  }

  /** The receipts of a wait, those still to come, and the reply waited for. */
  datatype Wait = Wait(heard: seq<Receipt>, rest: seq<Receipt>, reply: Result<seq<Member>>)

  /**
   `_recv_until` on what is to come: everything up to the first receipt that ends the wait. A peer that
   sends no such message meets the deadline.
   */
  function Hear(w: Awaited, inbox: seq<Receipt>): Wait {
    var n := WaitEnd(w, inbox);
    if n == |inbox| then Wait(inbox + [Lost], [], Raise(OtherError))
    else Wait(inbox[..n + 1], inbox[n + 1..], ReplyIn(w, inbox[n]))
  }

  function Events(rs: seq<Receipt>): (es: seq<Event>)
    ensures |es| == |rs|
  {
    if rs == [] then [] else Events(rs[..|rs| - 1]) + [Received(rs[|rs| - 1])]
  }

  // ── The episode as a function of the peer ──────────────────────────────────

  datatype Config = Config(mock: bool, taskId: string, description: string, tools: seq<Option<string>>)

  datatype State = State(
    inbox: seq<Receipt>, trace: seq<Event>, plan: seq<PlanStep>, observations: seq<Observation>, toolCalls: nat)

  datatype Done<+T> = Done(state: State, result: Result<T>)

  /** Send a request and wait for its reply. */
  function Ask(s: State, f: Frame): (d: Done<seq<Member>>)
    requires f.ToolCall? || f.LlmRequest?
    ensures d.state.toolCalls == s.toolCalls && d.state.plan == s.plan
  {
    var h := Hear(AwaitedBy(f), s.inbox);
    Done(s.(inbox := h.rest, trace := s.trace + [Sent(f)] + Events(h.heard)), h.reply)
  }

  function PlanId(c: Config, n: nat): string {
    "llm-plan-" + Decimal(n) + "-" + c.taskId
  }

  function ReviseId(c: Config, n: nat): string {
    "llm-revise-" + Decimal(n) + "-" + c.taskId
  }

  function CallId(c: Config, n: nat): string {
    "call-" + Decimal(n) + "-" + c.taskId
  }

  /** Read the plan in a reply, noting the steps skipped. */
  function Parsed(c: Config, s: State, reply: seq<Member>): Done<seq<PlanStep>> {
    Done(s.(observations := s.observations + SkippedIn(reply, c.tools)), ParsedPlan(reply, c.tools))
  }

  /** `_llm_plan` */
  function LlmPlanned(c: Config, s: State): Done<seq<PlanStep>> {
    var a := Ask(s, LlmRequest(PlanId(c, s.toolCalls), Plan));
    if a.result.Raise? then Done(a.state, Raise(a.result.error)) else Parsed(c, a.state, a.result.value)
  }

  /** `_plan` */
  function Planned(c: Config, s: State): Done<seq<PlanStep>> {
    if c.mock then Done(s, if None in c.tools then Raise(OtherError) else Ok(MockSteps(c.tools, c.description)))
    else LlmPlanned(c, s)
  }

  /** `_act` and `_observe` on a step */
  function Acted(c: Config, s: State, step: PlanStep): (d: Done<()>)
    ensures d.state.toolCalls == s.toolCalls + 1 && d.state.plan == s.plan
  {
    var a := Ask(s.(toolCalls := s.toolCalls + 1), ToolCall(CallId(c, s.toolCalls), step.tool, step.args));
    if a.result.Raise? then Done(a.state, Raise(a.result.error))
    else Done(a.state.(observations := a.state.observations + [Observe(step, a.result.value)]), Ok(()))
  }

  function Within(steps: seq<PlanStep>, budget: nat): seq<PlanStep> {
    if |steps| > budget then steps[..budget] else steps
  }

  /** What a reply to a revision request does. */
  function Amended(c: Config, s: State, reply: seq<Member>): (d: Done<()>)
    requires s.toolCalls <= MAX_TOOL_CALLS
    ensures d.state.toolCalls == s.toolCalls && d.state.trace == s.trace && d.state.inbox == s.inbox
  {
    if OffersNothing(reply) then Done(s, Ok(()))
    else
      var p := Parsed(c, s, reply);
      match p.result
      case Ok(steps) => Done(p.state.(plan := Within(steps, MAX_TOOL_CALLS - s.toolCalls)), Ok(()))
      case Raise(OtherError) => Done(p.state, Raise(OtherError))
      case Raise(ValueError) => Done(p.state.(observations := p.state.observations + [IgnoredRevision]), Ok(()))
  }

  /** `_revise` */
  function Revised(c: Config, s: State): (d: Done<()>)
    ensures d.state.toolCalls == s.toolCalls
  {
    if c.mock || s.plan == [] || s.toolCalls >= MAX_TOOL_CALLS then Done(s, Ok(()))
    else
      var a := Ask(s, LlmRequest(ReviseId(c, s.toolCalls), Revise));
      if a.result.Raise? then Done(a.state, Raise(a.result.error)) else Amended(c, a.state, a.result.value)
  }

  /** The loop from a state on. */
  function Turns(c: Config, s: State): (d: Done<()>)
    decreases MAX_TOOL_CALLS - s.toolCalls
  {
    if s.plan == [] || s.toolCalls >= MAX_TOOL_CALLS then Done(s, Ok(()))
    else
      var a := Acted(c, s.(plan := s.plan[1..]), s.plan[0]);
      if a.result.Raise? then a
      else
        var v := Revised(c, a.state);
        if v.result.Raise? then v else Turns(c, v.state)
  }

  function Start(inbox: seq<Receipt>): State {
    State(inbox, [], [], [], 0)
  }

  /** The guarded part of `run`. */
  function Driven(c: Config, inbox: seq<Receipt>): Done<()> {
    var p := Planned(c, Start(inbox));
    if p.result.Raise? then Done(p.state, Raise(p.result.error)) else Turns(c, p.state.(plan := p.result.value))
  }

  function Farewell(d: Done<()>): Event {
    Sent(if d.result.Ok? then InvokeComplete(d.state.toolCalls) else CortexError)
  }

  /** `run` against a peer that sends `inbox`. */
  function Episode(c: Config, inbox: seq<Receipt>): Done<()> {
    var d := Driven(c, inbox);
    d.(state := d.state.(trace := d.state.trace + [Farewell(d)]))
  }

  // ── The loop itself ────────────────────────────────────────────────────────

  /** What a receive can bring: a message, the deadline, a closed socket, a transport or decoding error. */
  datatype Incoming = Message(value: Json) | Deadline | Closed | Unreadable

  /** A receive, with the way messages are read. */
  function Taken(read: Json -> Reply, m: Incoming): Receipt {
    match m case Message(v) => Got(read(v), v) case _ => Lost
  }

  function TakenAll(read: Json -> Reply, ms: seq<Incoming>): seq<Receipt> {
    if ms == [] then [] else [Taken(read, ms[0])] + TakenAll(read, ms[1..])
  }

  class Loop {
    const config: Config
    const read: Json -> Reply
    var inbox: seq<Incoming>
    var trace: seq<Event>
    var plan: seq<PlanStep>
    var observations: seq<Observation>
    var toolCalls: nat

    constructor (config: Config, inbox: seq<Incoming>)
      ensures this.inbox == inbox && this.config == config && read == Classify
      ensures Now() == Start(TakenAll(Classify, inbox))
    {
      this.config, this.read, this.inbox, this.trace, this.plan := config, Classify, inbox, [], [];
      this.observations, this.toolCalls := [], 0;
    }

    ghost function Now(): State
      reads this
    {
      State(TakenAll(read, inbox), trace, plan, observations, toolCalls)
    }

    method Send(f: Frame)
      modifies this`trace
      ensures trace == old(trace) + [Sent(f)]
    {
      trace := trace + [Sent(f)];
    }

    /** `_recv_until` */
    method RecvUntil(w: Awaited) returns (r: Result<seq<Member>>)
      modifies this`trace, this`inbox
      ensures var h := Hear(w, TakenAll(read, old(inbox)));
              trace == old(trace) + Events(h.heard) && TakenAll(read, inbox) == h.rest && r == h.reply
    {
      ghost var start, coming := trace, TakenAll(read, inbox);
      ghost var all, seen: seq<Receipt> := coming, [];
      ghost var h := Hear(w, all);
      assert start + [] == start && [] + all == all;
      while true
        invariant all == seen + coming && |seen| <= WaitEnd(w, all)
        invariant coming == TakenAll(read, inbox) && trace == start + Events(seen)
        decreases |coming|
      {
        var m := Receive(coming);
        WaitStep(w, start, seen, coming, m);
        trace := trace + [Received(m)];
        assert EndsWait(w, m) ==> h == Wait(seen + [m], TakenAll(read, inbox), ReplyIn(w, m));
        if m.Lost? {
          return Raise(OtherError);
        }
        if Answers(w, m.reply) {
          return Ok(MembersOf(m.value));
        }
        if Stops(m.reply) {
          return Raise(OtherError);
        }
        seen, coming := seen + [m], coming[1..];
      }
    }

    /** The next message, read; a silent peer meets the deadline. */
    method Receive(ghost coming: seq<Receipt>) returns (r: Receipt)
      requires coming == TakenAll(read, inbox)
      modifies this`inbox
      ensures r == if coming == [] then Lost else coming[0]
      ensures TakenAll(read, inbox) == if coming == [] then [] else coming[1..]
    {
      if inbox == [] {
        return Lost;
      }
      r := Taken(read, inbox[0]);
      inbox := inbox[1..];
    }

    /** Send a request and wait for its reply. */
    method Request(f: Frame) returns (r: Result<seq<Member>>)
      requires f.ToolCall? || f.LlmRequest?
      modifies this`trace, this`inbox
      ensures Done(Now(), r) == Ask(old(Now()), f)
    {
      ghost var s := Now();
      ghost var h := Hear(AwaitedBy(f), s.inbox);
      Send(f);
      r := RecvUntil(AwaitedBy(f));
      assert Now() == s.(inbox := h.rest, trace := s.trace + [Sent(f)] + Events(h.heard));
    }

    /** `_parse_llm_plan`, with the observations it leaves even when it fails. */
    method ParseLlmPlan(reply: seq<Member>) returns (r: Result<seq<PlanStep>>)
      modifies this`observations
      ensures r == ParsedPlan(reply, config.tools)
      ensures observations == old(observations) + SkippedIn(reply, config.tools)
    {
      assert observations + [] == observations;
      var raw := Get(reply, "plan");
      if Missing(raw) {
        var content := Get(reply, "content");
        if Missing(content) {
          return Raise(ValueError);
        }
        raw := PlanInContent(content.value);
        if raw.None? {
          return Raise(ValueError);
        }
      }
      assert raw == Proposed(reply);
      if !raw.value.Arr? {
        return Raise(ValueError);
      }
      if None in config.tools {
        return Raise(OtherError);
      }
      var steps := ReadEntries(raw.value.elems);
      if steps.None? || steps.value == [] {
        return Raise(ValueError);
      }
      r := Ok(steps.value);
    }

    method ReadEntries(entries: seq<Json>) returns (r: Option<seq<PlanStep>>)
      modifies this`observations
      ensures r == ReadSteps(entries, Names(config.tools))
      ensures observations == old(observations) + Skips(entries, Names(config.tools))
    {
      var steps, names := [], Names(config.tools);
      ghost var start := observations;
      assert start + [] == start;
      for i := 0 to |entries|
        invariant ReadSteps(entries[..i], names) == Some(steps)
        invariant observations == start + Skips(entries[..i], names)
      {
        assert entries[..i + 1][..i] == entries[..i];
        var one := ReadStep(entries[i], names);
        match one
        case Bad =>
          BadStaysBad(entries, i + 1, names);
          return None;
        case UnknownTool(t) => observations := observations + [SkippedStep(i, t)];
        case Good(step) => steps := steps + [step];
      }
      assert entries[..|entries|] == entries;
      r := Some(steps);
    }

    /** `_llm_plan` */
    method LlmPlan() returns (r: Result<seq<PlanStep>>)
      modifies this`trace, this`inbox, this`observations
      ensures Done(Now(), r) == LlmPlanned(config, old(Now()))
    {
      var reply := Request(LlmRequest(PlanId(config, toolCalls), Plan));
      if reply.Raise? {
        return Raise(reply.error);
      }
      r := ParseLlmPlan(reply.value);
    }

    /** `_mock_plan` */
    method MockPlan() returns (r: Result<seq<PlanStep>>)
      ensures r == if None in config.tools then Raise(OtherError) else Ok(MockSteps(config.tools, config.description))
    {
      var tools := config.tools;
      if None in tools {
        return Raise(OtherError);
      }
      var steps: seq<PlanStep> := [];
      NamesAre(tools, "clock");
      NamesAre(tools, "echo");
      if "clock" in Names(tools) {
        steps := steps + [PlanStep("clock", "{}", "Record current wall time")];
      }
      if "echo" in Names(tools) {
        var payload := if |config.description| > 80 then config.description[..80] else config.description;
        steps := steps + [PlanStep("echo", Print(Obj([Member("payload", Str(payload))])),
                                   "Echo task description to confirm tool round-trip")];
      }
      if steps == [] && tools != [] {
        assert tools[0] in tools && tools[0].Some?;
        var first := tools[0].value;
        steps := steps + [PlanStep(first, "{}", "Call " + first)];
      }
      assert steps == MockSteps(tools, config.description);
      r := Ok(steps);
    }

    /** `_act` and `_observe` */
    method Act(step: PlanStep) returns (r: Result<()>)
      modifies this`trace, this`inbox, this`observations, this`toolCalls
      ensures Done(Now(), r) == Acted(config, old(Now()), step)
    {
      var id := CallId(config, toolCalls);
      toolCalls := toolCalls + 1;
      var reply := Request(ToolCall(id, step.tool, step.args));
      if reply.Raise? {
        return Raise(reply.error);
      }
      observations := observations + [Observe(step, reply.value)];
      r := Ok(());
    }

    /** What `_revise` does with a reply. */
    method Amend(reply: seq<Member>) returns (r: Result<()>)
      requires toolCalls <= MAX_TOOL_CALLS
      modifies this`observations, this`plan
      ensures Done(Now(), r) == Amended(config, old(Now()), reply)
    {
      if Missing(Get(reply, "plan")) && Missing(Get(reply, "content")) {
        return Ok(());
      }
      var budget := MAX_TOOL_CALLS - toolCalls;
      var revised := ParseLlmPlan(reply);
      match revised {
        case Raise(ValueError) => observations := observations + [IgnoredRevision];
        case Raise(OtherError) => return Raise(OtherError);
        case Ok(steps) => plan := if |steps| > budget then steps[..budget] else steps;
      }
      r := Ok(());
    }

    /** `_revise` */
    method ReviseLeftover() returns (r: Result<()>)
      modifies this`trace, this`inbox, this`observations, this`plan
      ensures Done(Now(), r) == Revised(config, old(Now()))
    {
      if config.mock || plan == [] || toolCalls >= MAX_TOOL_CALLS {
        return Ok(());
      }
      var reply := Request(LlmRequest(ReviseId(config, toolCalls), Revise));
      if reply.Raise? {
        return Raise(reply.error);
      }
      r := Amend(reply.value);
    }

    /** The guarded part of `run`. */
    method Drive() returns (r: Result<()>)
      requires Now() == Start(TakenAll(read, inbox))
      modifies this
      ensures Done(Now(), r) == Driven(config, TakenAll(read, old(inbox)))
    {
      var first;
      if config.mock {
        first := MockPlan();
      } else {
        first := LlmPlan();
      }
      if first.Raise? {
        return Raise(first.error);
      }
      plan := first.value;
      ghost var all := Turns(config, Now());
      while plan != [] && toolCalls < MAX_TOOL_CALLS
        invariant Turns(config, Now()) == all
        decreases MAX_TOOL_CALLS - toolCalls
      {
        var step := plan[0];
        plan := plan[1..];
        var acted := Act(step);
        if acted.Raise? {
          return acted;
        }
        var revised := ReviseLeftover();
        if revised.Raise? {
          return revised;
        }
      }
      r := Ok(());
    }

    /**
     `run`: the whole conversation is the episode the peer's messages determine. The rest follows from
     the theorems about episodes, and is repeated here for the loop.
     */
    method Run() returns (r: Result<()>)
      requires Now() == Start(TakenAll(read, inbox))
      modifies this
      ensures Done(Now(), r) == Episode(config, TakenAll(read, old(inbox)))
      ensures After(trace, Names(config.tools)).phase == Finished && toolCalls <= MAX_TOOL_CALLS
      ensures r.Ok? <==> !PlanRejected(config, TakenAll(read, old(inbox))) && NoStop(trace)
    {
      ghost var coming := TakenAll(read, inbox);
      EpisodeIsAllowed(config, coming);
      CompletesIff(config, coming);
      r := Drive();
      if r.Ok? {
        Send(InvokeComplete(toolCalls));
      } else {
        Send(CortexError);
      }
    }
  }

  // ── Every episode keeps the protocol ───────────────────────────────────────

  lemma EventsSnoc(rs: seq<Receipt>, r: Receipt)
    ensures Events(rs + [r]) == Events(rs) + [Received(r)]
  {
    assert (rs + [r])[..|rs|] == rs;
  }

  /** How the events of a wait grow by one receipt. */
  lemma EventsStep(start: seq<Event>, all: seq<Receipt>, k: nat)
    requires k <= |all|
    ensures start + Events(all[..0]) == start
    ensures var r := if k < |all| then all[k] else Lost;
            start + Events(all[..k] + [r]) == start + Events(all[..k]) + [Received(r)]
    ensures if k < |all| then all[..k] + [all[k]] == all[..k + 1] else all[..k] == all
  {
    EventsSnoc(all[..k], if k < |all| then all[k] else Lost);
  }

  /** One more receive of a wait: it goes on, or this receipt, or the deadline, ends it. */
  lemma WaitStep(w: Awaited, start: seq<Event>, seen: seq<Receipt>, coming: seq<Receipt>, m: Receipt)
    requires |seen| <= WaitEnd(w, seen + coming) && m == if coming == [] then Lost else coming[0]
    ensures start + Events(seen) + [Received(m)] == start + Events(seen + [m])
    ensures EndsWait(w, m) ==>
              Hear(w, seen + coming) == Wait(seen + [m], if coming == [] then [] else coming[1..], ReplyIn(w, m))
    ensures !EndsWait(w, m) ==>
              && coming != []
              && |seen + [m]| <= WaitEnd(w, seen + coming) && seen + [m] + coming[1..] == seen + coming
  {
    EventsOneMore(start, seen, m);
    if coming == [] {
      assert seen + coming == seen;
    } else if EndsWait(w, m) {
      assert (seen + coming)[|seen|] == m;
      HearEndsAt(w, seen, coming);
    } else {
      assert (seen + coming)[|seen|] == m;
    }
  }

  lemma HearEndsAt(w: Awaited, seen: seq<Receipt>, coming: seq<Receipt>)
    requires coming != [] && WaitEnd(w, seen + coming) == |seen|
    ensures Hear(w, seen + coming) == Wait(seen + [coming[0]], coming[1..], ReplyIn(w, coming[0]))
  {
    var all, k := seen + coming, |seen|;
    assert all[..k + 1] == seen + [coming[0]] && all[k + 1..] == coming[1..];
  }

  lemma {:induction false} AfterPrefix(w: Awaited, rs: seq<Receipt>, k: nat, trace: seq<Event>, tools: set<string>)
    requires After(trace, tools).phase == Waiting(w) && k <= WaitEnd(w, rs)
    ensures After(trace + Events(rs[..k]), tools) == After(trace, tools)
  {
    if k == 0 {
      assert trace + Events(rs[..0]) == trace;
    } else {
      AfterPrefix(w, rs, k - 1, trace, tools);
      EventsStep(trace, rs, k - 1);
      AfterSnoc(trace + Events(rs[..k - 1]), Received(rs[k - 1]), tools);
    }
  }

  /** Waiting ends ready after an answer and aborting otherwise, whatever comes. */
  lemma HearIsAllowed(w: Awaited, inbox: seq<Receipt>, trace: seq<Event>, tools: set<string>)
    requires After(trace, tools).phase == Waiting(w)
    ensures var h := Hear(w, inbox);
            After(trace + Events(h.heard), tools) ==
            After(trace, tools).(phase := if h.reply.Ok? then Ready else Aborting)
  {
    var n := WaitEnd(w, inbox);
    AfterPrefix(w, inbox, n, trace, tools);
    EventsStep(trace, inbox, n);
    AfterSnoc(trace + Events(inbox[..n]), Received(if n < |inbox| then inbox[n] else Lost), tools);
  }

  lemma AskIsAllowed(s: State, f: Frame, tools: set<string>)
    requires f.ToolCall? || f.LlmRequest?
    requires Advance(After(s.trace, tools), Sent(f), tools).phase == Waiting(AwaitedBy(f))
    ensures var d := Ask(s, f);
            After(d.state.trace, tools) ==
            Advance(After(s.trace, tools), Sent(f), tools).(phase := if d.result.Ok? then Ready else Aborting)
  {
    AfterSnoc(s.trace, Sent(f), tools);
    HearIsAllowed(AwaitedBy(f), s.inbox, s.trace + [Sent(f)], tools);
  }

  /** Between turns: ready, the calls counted, and only tools on offer in the plan. */
  ghost predicate Steady(c: Config, s: State) {
    var p := After(s.trace, Names(c.tools));
    p.phase == Ready && p.toolCalls == s.toolCalls <= MAX_TOOL_CALLS && AllAvailable(s.plan, Names(c.tools))
  }

  /** Where a result leaves the conversation: steady, or about to say that it failed. */
  ghost predicate Standing<T>(c: Config, d: Done<T>) {
    var p := After(d.state.trace, Names(c.tools));
    && p.toolCalls == d.state.toolCalls <= MAX_TOOL_CALLS
    && (p.phase == Ready || (d.result.Raise? && p.phase == Aborting))
  }

  lemma PlannedIsAllowed(c: Config, inbox: seq<Receipt>)
    ensures var d := Planned(c, Start(inbox));
            Standing(c, d) && (d.result.Ok? ==> AllAvailable(d.result.value, Names(c.tools)))
  {
    if c.mock {
      MockStepsAvailable(c.tools, c.description);
    } else {
      var f := LlmRequest(PlanId(c, 0), Plan);
      AskIsAllowed(Start(inbox), f, Names(c.tools));
      var a := Ask(Start(inbox), f);
      if a.result.Ok? {
        ParsedPlanAvailable(a.result.value, c.tools);
      }
    }
  }

  lemma ActedIsAllowed(c: Config, s: State, step: PlanStep)
    requires Steady(c, s) && s.toolCalls < MAX_TOOL_CALLS && step.tool in Names(c.tools)
    ensures var d := Acted(c, s, step);
            Standing(c, d) && (d.result.Ok? ==> Steady(c, d.state) && After(d.state.trace, Names(c.tools)).mayRevise)
  {
    AskIsAllowed(s.(toolCalls := s.toolCalls + 1), ToolCall(CallId(c, s.toolCalls), step.tool, step.args),
                 Names(c.tools));
  }

  lemma RevisedIsAllowed(c: Config, s: State)
    requires Steady(c, s) && After(s.trace, Names(c.tools)).mayRevise
    ensures var d := Revised(c, s); Standing(c, d) && (d.result.Ok? ==> Steady(c, d.state))
  {
    if !(c.mock || s.plan == [] || s.toolCalls >= MAX_TOOL_CALLS) {
      var f := LlmRequest(ReviseId(c, s.toolCalls), Revise);
      AskIsAllowed(s, f, Names(c.tools));
      var a := Ask(s, f);
      if a.result.Ok? {
        ParsedPlanAvailable(a.result.value, c.tools);
      }
    }
  }

  lemma {:induction false} TurnsAreAllowed(c: Config, s: State)
    requires Steady(c, s)
    ensures Standing(c, Turns(c, s))
    decreases MAX_TOOL_CALLS - s.toolCalls
  {
    if s.plan != [] && s.toolCalls < MAX_TOOL_CALLS {
      var t := s.(plan := s.plan[1..]);
      ActedIsAllowed(c, t, s.plan[0]);
      var a := Acted(c, t, s.plan[0]);
      if a.result.Ok? {
        RevisedIsAllowed(c, a.state);
        var v := Revised(c, a.state);
        if v.result.Ok? {
          TurnsAreAllowed(c, v.state);
        }
      }
    }
  }

  lemma DrivenIsAllowed(c: Config, inbox: seq<Receipt>)
    ensures Standing(c, Driven(c, inbox))
  {
    PlannedIsAllowed(c, inbox);
    var p := Planned(c, Start(inbox));
    if p.result.Ok? {
      TurnsAreAllowed(c, p.state.(plan := p.result.value));
    }
  }

  /**
   Whatever the peer sends, the conversation is one the protocol allows, it has ended, and it says
   how many calls were made. That the loop ends at all, though every revision may lengthen the plan,
   is the termination of `Turns`.
   */
  lemma EpisodeIsAllowed(c: Config, inbox: seq<Receipt>)
    ensures var d := Episode(c, inbox);
            var p := After(d.state.trace, Names(c.tools));
            && p.phase == Finished && p.toolCalls == d.state.toolCalls <= MAX_TOOL_CALLS
            && d.state.trace[|d.state.trace| - 1] ==
               Sent(if d.result.Ok? then InvokeComplete(d.state.toolCalls) else CortexError)
  {
    DrivenIsAllowed(c, inbox);
    var d := Driven(c, inbox);
    EndsWell(d.state.trace, d.state.toolCalls, d.result.Ok?, Names(c.tools));
  }

  lemma Parting(p: Progress, ok: bool, tools: set<string>)
    requires p.phase == Ready || (!ok && p.phase == Aborting)
    ensures Advance(p, Sent(if ok then InvokeComplete(p.toolCalls) else CortexError), tools) == p.(phase := Finished)
  {
  }

  lemma EndsWell(trace: seq<Event>, n: nat, ok: bool, tools: set<string>)
    requires var p := After(trace, tools); p.toolCalls == n && (p.phase == Ready || (!ok && p.phase == Aborting))
    ensures var p := After(trace + [Sent(if ok then InvokeComplete(n) else CortexError)], tools);
            p.phase == Finished && p.toolCalls == n
  {
    AfterSnoc(trace, Sent(if ok then InvokeComplete(n) else CortexError), tools);
    Parting(After(trace, tools), ok, tools);
  }

  // ── The receipts of an episode are the peer's messages ─────────────────────

  /** The receipts in a conversation. */
  function Receipts(trace: seq<Event>): seq<Receipt> {
    if trace == [] then []
    else
      var before, e := Receipts(trace[..|trace| - 1]), trace[|trace| - 1];
      if e.Sent? then before else before + [e.receipt]
  }

  lemma ReceiptsSnoc(trace: seq<Event>, e: Event)
    ensures Receipts(trace + [e]) == if e.Sent? then Receipts(trace) else Receipts(trace) + [e.receipt]
  {
    assert (trace + [e])[..|trace|] == trace;
  }

  lemma {:induction false} ReceiptsOfEvents(trace: seq<Event>, rs: seq<Receipt>)
    ensures Receipts(trace + Events(rs)) == Receipts(trace) + rs
  {
    if rs == [] {
      assert trace + [] == trace;
    } else {
      var init, r := rs[..|rs| - 1], rs[|rs| - 1];
      assert rs == init + [r];
      ReceiptsOfEvents(trace, init);
      EventsOneMore(trace, init, r);
      ReceiptsOneMore(trace + Events(init), r);
      Reassociate(Receipts(trace), init, [r]);
    }
  }

  lemma ReceiptsOneMore(trace: seq<Event>, r: Receipt)
    ensures Receipts(trace + [Received(r)]) == Receipts(trace) + [r]
  {
    ReceiptsSnoc(trace, Received(r));
  }

  /** What was heard so far and what is still to come. */
  function Flow(s: State): seq<Receipt> {
    Receipts(s.trace) + s.inbox
  }

  /** Nothing is heard that the peer did not send, nor twice, nor out of order; only a failed wait adds silence. */
  ghost predicate Kept<T>(flow: seq<Receipt>, d: Done<T>) {
    || Flow(d.state) == flow
    || (Flow(d.state) == flow + [Lost] && d.state.inbox == [] && d.result.Raise?)
  }

  lemma AskKeeps(s: State, f: Frame)
    requires f.ToolCall? || f.LlmRequest?
    ensures Kept(Flow(s), Ask(s, f)) && (Ask(s, f).result.Ok? ==> Flow(Ask(s, f).state) == Flow(s))
  {
    var h, n := Hear(AwaitedBy(f), s.inbox), WaitEnd(AwaitedBy(f), s.inbox);
    ReceiptsSnoc(s.trace, Sent(f));
    ReceiptsOfEvents(s.trace + [Sent(f)], h.heard);
    HeardAndRest(Receipts(s.trace), s.inbox, n);
  }

  lemma HeardAndRest(before: seq<Receipt>, inbox: seq<Receipt>, n: nat)
    requires n <= |inbox|
    ensures before + (inbox + [Lost]) + [] == before + inbox + [Lost]
    ensures n < |inbox| ==> before + inbox[..n + 1] + inbox[n + 1..] == before + inbox
  {
  }

  lemma PlannedKeeps(c: Config, s: State)
    ensures Kept(Flow(s), Planned(c, s)) && (Planned(c, s).result.Ok? ==> Flow(Planned(c, s).state) == Flow(s))
  {
    if !c.mock {
      AskKeeps(s, LlmRequest(PlanId(c, s.toolCalls), Plan));
    }
  }

  lemma ActedKeeps(c: Config, s: State, step: PlanStep)
    ensures Kept(Flow(s), Acted(c, s, step))
    ensures Acted(c, s, step).result.Ok? ==> Flow(Acted(c, s, step).state) == Flow(s)
  {
    AskKeeps(s.(toolCalls := s.toolCalls + 1), ToolCall(CallId(c, s.toolCalls), step.tool, step.args));
  }

  lemma RevisedKeeps(c: Config, s: State)
    ensures Kept(Flow(s), Revised(c, s)) && (Revised(c, s).result.Ok? ==> Flow(Revised(c, s).state) == Flow(s))
  {
    if !(c.mock || s.plan == [] || s.toolCalls >= MAX_TOOL_CALLS) {
      AskKeeps(s, LlmRequest(ReviseId(c, s.toolCalls), Revise));
    }
  }

  lemma {:induction false} TurnsKeep(c: Config, s: State, flow: seq<Receipt>)
    requires Flow(s) == flow
    ensures Kept(flow, Turns(c, s))
    decreases MAX_TOOL_CALLS - s.toolCalls
  {
    if s.plan != [] && s.toolCalls < MAX_TOOL_CALLS {
      var t := s.(plan := s.plan[1..]);
      ActedKeeps(c, t, s.plan[0]);
      var a := Acted(c, t, s.plan[0]);
      if a.result.Ok? {
        RevisedKeeps(c, a.state);
        var v := Revised(c, a.state);
        if v.result.Ok? {
          TurnsKeep(c, v.state, flow);
        }
      }
    }
  }

  lemma DrivenKeeps(c: Config, inbox: seq<Receipt>)
    ensures Kept(inbox, Driven(c, inbox))
  {
    assert Flow(Start(inbox)) == inbox;
    PlannedKeeps(c, Start(inbox));
    var p := Planned(c, Start(inbox));
    if p.result.Ok? {
      TurnsKeep(c, p.state.(plan := p.result.value), inbox);
    }
  }

  /**
   For every peer, what the whole conversation heard, followed by what is left unread, is what the
   peer sent, in order; only a failed run that read everything adds the silence after it.
   */
  lemma EpisodeHearsThePeer(c: Config, inbox: seq<Receipt>)
    ensures var d := Episode(c, inbox);
            || Receipts(d.state.trace) + d.state.inbox == inbox
            || (Receipts(d.state.trace) == inbox + [Lost] && d.state.inbox == [] && d.result.Raise?)
  {
    DrivenKeeps(c, inbox);
    var d := Driven(c, inbox);
    ReceiptsSnoc(d.state.trace, Farewell(d));
    assert Receipts(d.state.trace) + [] == Receipts(d.state.trace);
  }

  // ── When an episode completes ──────────────────────────────────────────────

  /** A receipt on which the run is given up. */
  predicate IsStop(r: Receipt) {
    r.Lost? || Stops(r.reply)
  }

  predicate NoStop(trace: seq<Event>) {
    forall i :: 0 <= i < |trace| && trace[i].Received? ==> !IsStop(trace[i].receipt)
  }

  lemma {:induction false} EventsAt(rs: seq<Receipt>, i: nat)
    requires i < |rs|
    ensures Events(rs)[i] == Received(rs[i])
  {
    if i < |rs| - 1 {
      EventsAt(rs[..|rs| - 1], i);
    }
  }

  lemma NoStopEvents(rs: seq<Receipt>)
    ensures NoStop(Events(rs)) <==> forall i :: 0 <= i < |rs| ==> !IsStop(rs[i])
  {
    var es := Events(rs);
    forall i | 0 <= i < |rs| ensures es[i] == Received(rs[i]) {
      EventsAt(rs, i);
    }
    assert NoStop(es) ==> forall i :: 0 <= i < |rs| ==> es[i].Received? && !IsStop(es[i].receipt);
  }

  lemma HearStopsIff(w: Awaited, inbox: seq<Receipt>)
    ensures Hear(w, inbox).reply.Ok? <==> NoStop(Events(Hear(w, inbox).heard))
  {
    var rs, n := Hear(w, inbox).heard, WaitEnd(w, inbox);
    NoStopEvents(rs);
    forall i | 0 <= i < n ensures !IsStop(rs[i]) {
      assert !EndsWait(w, inbox[i]);
    }
    assert IsStop(rs[n]) <==> Hear(w, inbox).reply.Raise?;
  }

  lemma NoStopAppend(a: seq<Event>, b: seq<Event>)
    ensures NoStop(a + b) <==> NoStop(a) && NoStop(b)
  {
    assert forall i :: 0 <= i < |a| ==> a[i] == (a + b)[i];
    assert forall i :: 0 <= i < |b| ==> b[i] == (a + b)[|a| + i];
  }

  lemma AskStopsIff(s: State, f: Frame)
    requires (f.ToolCall? || f.LlmRequest?) && NoStop(s.trace)
    ensures Ask(s, f).result.Ok? <==> NoStop(Ask(s, f).state.trace)
  {
    var h := Hear(AwaitedBy(f), s.inbox);
    HearStopsIff(AwaitedBy(f), s.inbox);
    NoStopAppend(s.trace, [Sent(f)]);
    NoStopAppend(s.trace + [Sent(f)], Events(h.heard));
  }

  lemma RevisedStopsIff(c: Config, s: State)
    requires NoStop(s.trace) && None !in c.tools
    ensures Revised(c, s).result.Ok? <==> NoStop(Revised(c, s).state.trace)
  {
    if !(c.mock || s.plan == [] || s.toolCalls >= MAX_TOOL_CALLS) {
      AskStopsIff(s, LlmRequest(ReviseId(c, s.toolCalls), Revise));
    }
  }

  lemma {:induction false} TurnsStopIff(c: Config, s: State)
    requires NoStop(s.trace) && None !in c.tools
    ensures Turns(c, s).result.Ok? <==> NoStop(Turns(c, s).state.trace)
    decreases MAX_TOOL_CALLS - s.toolCalls
  {
    if s.plan != [] && s.toolCalls < MAX_TOOL_CALLS {
      var t, step := s.(plan := s.plan[1..]), s.plan[0];
      AskStopsIff(t.(toolCalls := t.toolCalls + 1), ToolCall(CallId(c, t.toolCalls), step.tool, step.args));
      var a := Acted(c, t, step);
      if a.result.Ok? {
        RevisedStopsIff(c, a.state);
        var v := Revised(c, a.state);
        if v.result.Ok? {
          TurnsStopIff(c, v.state);
        }
      }
    }
  }

  /** No plan could be made: a tool has no name, or the reply to the plan request is rejected. */
  predicate PlanRejected(c: Config, inbox: seq<Receipt>) {
    if c.mock then None in c.tools
    else
      var reply := Hear(LlmReply(PlanId(c, 0)), inbox).reply;
      reply.Ok? && ParsedPlan(reply.value, c.tools).Raise?
  }

  /**
   A run ends in `InvokeComplete` if and only if the plan was not rejected and no receive failed or
   brought a message that stops it. A bad revision never fails a run.
   */
  lemma CompletesIff(c: Config, inbox: seq<Receipt>)
    ensures var d := Episode(c, inbox);
            d.result.Ok? <==> !PlanRejected(c, inbox) && NoStop(d.state.trace)
  {
    var s, p := Start(inbox), Planned(c, Start(inbox));
    if !c.mock {
      AskStopsIff(s, LlmRequest(PlanId(c, 0), Plan));
    }
    var d := Driven(c, inbox);
    NoStopAppend(d.state.trace, [Farewell(d)]);
    if p.result.Ok? {
      NamedWhenPlanned(c, s);
      TurnsStopIff(c, p.state.(plan := p.result.value));
    }
  }

  lemma NamedWhenPlanned(c: Config, s: State)
    ensures Planned(c, s).result.Ok? ==> None !in c.tools
  {
  }

  /** A run that completes has used up its plan or its budget. */
  lemma {:induction false} TurnsUseUp(c: Config, s: State)
    requires s.toolCalls <= MAX_TOOL_CALLS
    ensures var d := Turns(c, s); d.result.Ok? ==> d.state.plan == [] || d.state.toolCalls == MAX_TOOL_CALLS
    decreases MAX_TOOL_CALLS - s.toolCalls
  {
    if s.plan != [] && s.toolCalls < MAX_TOOL_CALLS {
      var a := Acted(c, s.(plan := s.plan[1..]), s.plan[0]);
      if a.result.Ok? && Revised(c, a.state).result.Ok? {
        TurnsUseUp(c, Revised(c, a.state).state);
      }
    }
  }

  // ── Where the calls come from ──────────────────────────────────────────────

  lemma ReceiptIsNoCall(trace: seq<Event>, r: Receipt)
    ensures Calls(trace + [Received(r)]) == Calls(trace)
  {
    CallsSnoc(trace, Received(r));
    assert Calls(trace) + [] == Calls(trace);
  }

  lemma EventsOneMore(trace: seq<Event>, init: seq<Receipt>, r: Receipt)
    ensures trace + Events(init + [r]) == trace + Events(init) + [Received(r)]
  {
    EventsSnoc(init, r);
  }

  lemma {:induction false} CallsOfEvents(trace: seq<Event>, rs: seq<Receipt>)
    ensures Calls(trace + Events(rs)) == Calls(trace)
  {
    if rs == [] {
      assert trace + [] == trace;
    } else {
      var init, r := rs[..|rs| - 1], rs[|rs| - 1];
      assert rs == init + [r];
      CallsOfEvents(trace, init);
      EventsOneMore(trace, init, r);
      ReceiptIsNoCall(trace + Events(init), r);
    }
  }

  lemma CallsOfAsk(s: State, f: Frame)
    requires f.ToolCall? || f.LlmRequest?
    ensures Calls(Ask(s, f).state.trace) == Calls(s.trace) + CallIn(Sent(f))
  {
    CallsSnoc(s.trace, Sent(f));
    CallsOfEvents(s.trace + [Sent(f)], Hear(AwaitedBy(f), s.inbox).heard);
  }

  /** The reply to a request is a message the peer was still to send. */
  lemma AskReadsInbox(s: State, f: Frame)
    requires f.ToolCall? || f.LlmRequest?
    ensures var a := Ask(s, f);
            && (forall r :: r in a.state.inbox ==> r in s.inbox)
            && (a.result.Ok? ==> exists r :: r in s.inbox && r.Got? && MembersOf(r.value) == a.result.value)
  {
    var n := WaitEnd(AwaitedBy(f), s.inbox);
    if n < |s.inbox| {
      assert s.inbox[n] in s.inbox;
    }
  }

  /** A call of the mock plan, or of a plan in one of the peer's messages. */
  ghost predicate Offers(c: Config, sent: seq<Receipt>, call: (string, string)) {
    if c.mock then call in ToolAndArgs(MockSteps(c.tools, c.description))
    else exists r :: r in sent && r.Got? && Proposes(c, MembersOf(r.value), call)
  }

  predicate Proposes(c: Config, reply: seq<Member>, call: (string, string)) {
    var p := ParsedPlan(reply, c.tools);
    p.Ok? && call in ToolAndArgs(p.value)
  }

  ghost predicate Backed(c: Config, sent: seq<Receipt>, calls: seq<(string, string)>) {
    forall call :: call in calls ==> Offers(c, sent, call)
  }

  /** What is to come was sent; what was called and what is planned was offered. */
  ghost predicate Sourced(c: Config, sent: seq<Receipt>, s: State) {
    && (forall r :: r in s.inbox ==> r in sent)
    && Backed(c, sent, Calls(s.trace)) && Backed(c, sent, ToolAndArgs(s.plan))
  }

  /** A plan accepted from one of the peer's messages, cut to any length, is backed. */
  lemma AcceptedIsBacked(c: Config, sent: seq<Receipt>, reply: seq<Member>, budget: nat)
    requires !c.mock && ParsedPlan(reply, c.tools).Ok?
    requires exists r :: r in sent && r.Got? && MembersOf(r.value) == reply
    ensures Backed(c, sent, ToolAndArgs(Within(ParsedPlan(reply, c.tools).value, budget)))
  {
    var steps := ParsedPlan(reply, c.tools).value;
    var cut := Within(steps, budget);
    forall call | call in ToolAndArgs(cut) ensures Offers(c, sent, call) {
      var i :| 0 <= i < |cut| && ToolAndArgs(cut)[i] == call;
      assert ToolAndArgs(steps)[i] == call;
      assert Proposes(c, reply, call);
    }
  }

  lemma PlannedIsSourced(c: Config, inbox: seq<Receipt>)
    ensures var p := Planned(c, Start(inbox));
            && Sourced(c, inbox, p.state)
            && (p.result.Ok? ==> Backed(c, inbox, ToolAndArgs(p.result.value)))
  {
    var s := Start(inbox);
    if !c.mock {
      var f := LlmRequest(PlanId(c, 0), Plan);
      CallsOfAsk(s, f);
      AskReadsInbox(s, f);
      var a := Ask(s, f);
      if a.result.Ok? && ParsedPlan(a.result.value, c.tools).Ok? {
        AcceptedIsBacked(c, inbox, a.result.value, |ParsedPlan(a.result.value, c.tools).value|);
      }
    }
  }

  lemma ActedIsSourced(c: Config, sent: seq<Receipt>, s: State, step: PlanStep)
    requires Sourced(c, sent, s) && Offers(c, sent, (step.tool, step.args))
    ensures Sourced(c, sent, Acted(c, s, step).state)
  {
    var t, f := s.(toolCalls := s.toolCalls + 1), ToolCall(CallId(c, s.toolCalls), step.tool, step.args);
    CallsOfAsk(t, f);
    AskReadsInbox(t, f);
  }

  lemma AmendedIsSourced(c: Config, sent: seq<Receipt>, s: State, reply: seq<Member>)
    requires Sourced(c, sent, s) && !c.mock && s.toolCalls <= MAX_TOOL_CALLS
    requires exists r :: r in sent && r.Got? && MembersOf(r.value) == reply
    ensures Sourced(c, sent, Amended(c, s, reply).state)
  {
    if ParsedPlan(reply, c.tools).Ok? {
      AcceptedIsBacked(c, sent, reply, MAX_TOOL_CALLS - s.toolCalls);
    }
  }

  lemma RevisedIsSourced(c: Config, sent: seq<Receipt>, s: State)
    requires Sourced(c, sent, s)
    ensures Sourced(c, sent, Revised(c, s).state)
  {
    if !(c.mock || s.plan == [] || s.toolCalls >= MAX_TOOL_CALLS) {
      var f := LlmRequest(ReviseId(c, s.toolCalls), Revise);
      CallsOfAsk(s, f);
      AskReadsInbox(s, f);
      var a := Ask(s, f);
      if a.result.Ok? {
        AmendedIsSourced(c, sent, a.state, a.result.value);
      }
    }
  }

  lemma {:induction false} TurnsAreSourced(c: Config, sent: seq<Receipt>, s: State)
    requires Sourced(c, sent, s)
    ensures Sourced(c, sent, Turns(c, s).state)
    decreases MAX_TOOL_CALLS - s.toolCalls
  {
    if s.plan != [] && s.toolCalls < MAX_TOOL_CALLS {
      var t, step := s.(plan := s.plan[1..]), s.plan[0];
      assert ToolAndArgs(s.plan) == [(step.tool, step.args)] + ToolAndArgs(t.plan);
      ActedIsSourced(c, sent, t, step);
      var a := Acted(c, t, step);
      if a.result.Ok? {
        RevisedIsSourced(c, sent, a.state);
        var v := Revised(c, a.state);
        if v.result.Ok? {
          TurnsAreSourced(c, sent, v.state);
        }
      }
    }
  }

  /** For every peer, every call made is one of the mock plan, or of a plan accepted from one of its messages. */
  lemma CallsWereOffered(c: Config, inbox: seq<Receipt>)
    ensures Backed(c, inbox, Calls(Episode(c, inbox).state.trace))
  {
    PlannedIsSourced(c, inbox);
    var p := Planned(c, Start(inbox));
    if p.result.Ok? {
      TurnsAreSourced(c, inbox, p.state.(plan := p.result.value));
    }
    var d := Driven(c, inbox);
    CallsSnoc(d.state.trace, Farewell(d));
    assert Calls(d.state.trace) + [] == Calls(d.state.trace);
  }

  lemma ActedCalls(c: Config, s: State, step: PlanStep)
    ensures Calls(Acted(c, s, step).state.trace) == Calls(s.trace) + [(step.tool, step.args)]
  {
    CallsOfAsk(s.(toolCalls := s.toolCalls + 1), ToolCall(CallId(c, s.toolCalls), step.tool, step.args));
  }

  lemma MockTurn(c: Config, s: State)
    requires c.mock && s.plan != [] && s.toolCalls < MAX_TOOL_CALLS
    ensures var a := Acted(c, s.(plan := s.plan[1..]), s.plan[0]);
            Turns(c, s) == if a.result.Ok? then Turns(c, a.state) else a
  {
  }

  lemma CallFirst(calls: seq<(string, string)>, plan: seq<PlanStep>)
    requires plan != []
    ensures calls + [(plan[0].tool, plan[0].args)] + ToolAndArgs(plan[1..]) == calls + ToolAndArgs(plan)
  {
    assert ToolAndArgs(plan) == [(plan[0].tool, plan[0].args)] + ToolAndArgs(plan[1..]);
  }

  lemma {:induction false} MockTurns(c: Config, s: State)
    requires c.mock && s.toolCalls + |s.plan| <= MAX_TOOL_CALLS
    ensures var d := Turns(c, s); d.result.Ok? ==> Calls(d.state.trace) == Calls(s.trace) + ToolAndArgs(s.plan)
    decreases |s.plan|
  {
    if s.plan == [] {
      assert Calls(s.trace) + ToolAndArgs([]) == Calls(s.trace);
    } else {
      MockTurn(c, s);
      var t := s.(plan := s.plan[1..]);
      ActedCalls(c, t, s.plan[0]);
      MockTurns(c, Acted(c, t, s.plan[0]).state);
      CallFirst(Calls(s.trace), s.plan);
    }
  }

  /** A completed mock run makes exactly the calls of the mock plan, in order. */
  lemma MockCallsItsPlan(c: Config, inbox: seq<Receipt>)
    requires c.mock
    ensures var d := Episode(c, inbox);
            d.result.Ok? ==> Calls(d.state.trace) == ToolAndArgs(MockSteps(c.tools, c.description))
  {
    MockStepsAvailable(c.tools, c.description);
    var s := Start(inbox).(plan := MockSteps(c.tools, c.description));
    MockTurns(c, s);
    assert [] + ToolAndArgs(s.plan) == ToolAndArgs(s.plan);
    var d := Driven(c, inbox);
    CallsSnoc(d.state.trace, Farewell(d));
    assert Calls(d.state.trace) + [] == Calls(d.state.trace);
  }

  lemma {:induction false} BadStaysBad(entries: seq<Json>, i: nat, names: set<string>)
    requires i <= |entries| && ReadSteps(entries[..i], names) == None
    ensures ReadSteps(entries, names) == None && Skips(entries, names) == Skips(entries[..i], names)
    decreases |entries| - i
  {
    if i < |entries| {
      assert entries[..i + 1][..i] == entries[..i];
      BadStaysBad(entries, i + 1, names);
    } else {
      assert entries[..i] == entries;
    }
  }

}
