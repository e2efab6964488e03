/** What the messages of the peer mean to the loop, read off their JSON: replies, and the plans in them. */
module PlanReading {
  import opened Text
  import opened Json
  import opened AgentLoop

  // ── Replies ────────────────────────────────────────────────────────────────

  /** A message of a type. */
  ghost predicate IsKind(v: Json, kind: string) {
    v.Obj? && Has(v.members, "type", Str(kind))
  }

  ghost predicate LacksKey(ms: seq<Member>, key: string) {
    forall i :: 0 <= i < |ms| ==> ms[i].key != key
  }

  /** A tool reply answers the call whose id it echoes, and only that. */
  lemma AnswersCallIff(v: Json, id: string)
    ensures Answers(ToolReply(id), Classify(v)) <==>
            IsKind(v, "ToolResponse") && Has(v.members, "call_id", Str(id))
  {
    if v.Obj? {
      Kinds(v);
      GetIff(v.members, "call_id", Str(id));
    }
  }

  /** An LLM reply answers the request whose id it echoes, and any when it gives none. */
  lemma AnswersRequestIff(v: Json, id: string)
    ensures Answers(LlmReply(id), Classify(v)) <==>
            && IsKind(v, "LlmResponse")
            && (|| LacksKey(v.members, "request_id") || Has(v.members, "request_id", Null)
                || Has(v.members, "request_id", Str(id)))
  {
    if v.Obj? {
      Kinds(v);
      GetIff(v.members, "request_id", Null);
      GetIff(v.members, "request_id", Str(id));
      LacksIff(v.members, "request_id");
    }
  }

  /** The messages that end a run early: shutdown, cancellation, an error of the peer, or what is no object. */
  lemma StopsIff(v: Json)
    ensures Stops(Classify(v)) <==> !v.Obj? || IsKind(v, "Shutdown") || IsKind(v, "Cancel") || IsKind(v, "CortexError")
  {
    if v.Obj? {
      Kinds(v);
    }
  }

  lemma Kinds(v: Json)
    requires v.Obj?
    ensures forall kind :: IsKind(v, kind) <==> Get(v.members, "type") == Some(Str(kind))
  {
    forall kind ensures IsKind(v, kind) <==> Get(v.members, "type") == Some(Str(kind)) {
      GetIff(v.members, "type", Str(kind));
    }
  }

  lemma {:induction false} LacksIff(ms: seq<Member>, key: string)
    ensures Get(ms, key) == None <==> LacksKey(ms, key)
  {
    if ms != [] {
      var n := |ms| - 1;
      LacksIff(ms[..n], key);
      assert LacksKey(ms, key) ==> forall i :: 0 <= i < n ==> ms[..n][i] == ms[i];
      assert LacksKey(ms[..n], key) && ms[n].key != key ==> LacksKey(ms, key) by {
        assert forall i :: 0 <= i < n ==> ms[..n][i] == ms[i];
      }
    }
  }

  // ── The entries of a plan ──────────────────────────────────────────────────

  ghost predicate HasTool(entry: Json, tool: string) {
    entry.Obj? && tool != "" && Has(entry.members, "tool_name", Str(tool))
  }

  /** No arguments are an empty object, a string must itself be JSON, and anything else is printed. */
  ghost predicate ArgsRead(ms: seq<Member>, args: string) {
    || ((LacksKey(ms, "args") || Has(ms, "args", Null)) && args == "{}")
    || (Has(ms, "args", Str(args)) && Parse(args).Some?)
    || exists j :: Has(ms, "args", j) && !j.Null? && !j.Str? && args == Print(j)
  }

  ghost predicate DescriptionRead(ms: seq<Member>, text: string) {
    || (LacksKey(ms, "description") && text == "")
    || Has(ms, "description", Str(text))
    || exists j :: Has(ms, "description", j) && !j.Str? && text == Print(j)
  }

  /** The entry asks for this step. */
  ghost predicate AsksFor(entry: Json, step: PlanStep) {
    HasTool(entry, step.tool) && ArgsRead(entry.members, step.args) && DescriptionRead(entry.members, step.description)
  }

  ghost predicate AsksForUnknown(entry: Json, names: set<string>) {
    exists tool :: tool !in names && HasTool(entry, tool)
  }

  lemma ArgsIff(ms: seq<Member>, args: string)
    ensures NormaliseArgs(Get(ms, "args")) == Some(args) <==> ArgsRead(ms, args)
  {
    forall j ensures Has(ms, "args", j) <==> Get(ms, "args") == Some(j) { GetIff(ms, "args", j); }
    LacksIff(ms, "args");
  }

  lemma DescriptionIff(ms: seq<Member>, text: string)
    ensures Describe(Get(ms, "description")) == text <==> DescriptionRead(ms, text)
  {
    forall j ensures Has(ms, "description", j) <==> Get(ms, "description") == Some(j) { GetIff(ms, "description", j); }
    LacksIff(ms, "description");
  }

  lemma ToolIff(entry: Json, tool: string)
    requires entry.Obj?
    ensures Get(entry.members, "tool_name") == Some(Str(tool)) && tool != "" <==> HasTool(entry, tool)
  {
    GetIff(entry.members, "tool_name", Str(tool));
  }

  lemma StepIff(entry: Json, names: set<string>, step: PlanStep)
    ensures ReadStep(entry, names) == Good(step) <==> step.tool in names && AsksFor(entry, step)
  {
    if entry.Obj? {
      ToolIff(entry, step.tool);
      ArgsIff(entry.members, step.args);
      DescriptionIff(entry.members, step.description);
    }
  }

  lemma UnknownIff(entry: Json, names: set<string>)
    ensures ReadStep(entry, names).UnknownTool? <==> AsksForUnknown(entry, names)
  {
    if entry.Obj? {
      forall tool ensures Get(entry.members, "tool_name") == Some(Str(tool)) && tool != "" <==> HasTool(entry, tool) {
        ToolIff(entry, tool);
      }
    }
  }

  /** The steps that a list of entries asks for, those with unknown tools left out. */
  ghost predicate Selects(es: seq<Json>, names: set<string>, steps: seq<PlanStep>) {
    if es == [] then steps == []
    else
      var init, last := es[..|es| - 1], es[|es| - 1];
      || (AsksForUnknown(last, names) && Selects(init, names, steps))
      || (steps != [] && steps[|steps| - 1].tool in names && AsksFor(last, steps[|steps| - 1]) &&
          Selects(init, names, steps[..|steps| - 1]))
  }

  lemma {:induction false} ReadStepsIff(es: seq<Json>, names: set<string>, steps: seq<PlanStep>)
    ensures ReadSteps(es, names) == Some(steps) <==> Selects(es, names, steps)
  {
    if es != [] {
      var init, last := es[..|es| - 1], es[|es| - 1];
      UnknownIff(last, names);
      ReadStepsIff(init, names, steps);
      if steps != [] {
        ReadStepsIff(init, names, steps[..|steps| - 1]);
        StepIff(last, names, steps[|steps| - 1]);
        assert steps == steps[..|steps| - 1] + [steps[|steps| - 1]];
      }
      var r := ReadStep(last, names);
      if r.Good? {
        StepIff(last, names, r.step);
      }
    }
  }

  // ── Where a plan is found ──────────────────────────────────────────────────

  predicate IsPythonBlank(s: string) {
    forall i :: 0 <= i < |s| ==> IsPythonWhitespace(s[i])
  }

  predicate NoMargins(s: string) {
    s == "" || (!IsPythonWhitespace(s[0]) && !IsPythonWhitespace(s[|s| - 1]))
  }

  /** `body` is the text without the whitespace around it. */
  ghost predicate StripsTo(text: string, body: string) {
    NoMargins(body) && exists lead, trail {:trigger lead + body + trail} ::
      IsPythonBlank(lead) && IsPythonBlank(trail) && text == lead + body + trail
  }

  lemma {:induction false} StripStartParts(s: string) returns (lead: string)
    ensures IsPythonBlank(lead) && s == lead + StripStart(s)
    ensures StripStart(s) == "" || !IsPythonWhitespace(StripStart(s)[0])
  {
    if s != "" && IsPythonWhitespace(s[0]) {
      lead := StripStartParts(s[1..]);
      lead := [s[0]] + lead;
    } else {
      lead := "";
    }
  }

  lemma OneMoreTrailing(lead: string, body: string, trail: string, last: char)
    ensures lead + body + trail + [last] == lead + body + (trail + [last])
  {
  }

  lemma {:induction false} StripParts(s: string) returns (lead: string, trail: string)
    ensures IsPythonBlank(lead) && IsPythonBlank(trail) && s == lead + Strip(s) + trail && NoMargins(Strip(s))
  {
    if s != "" && IsPythonWhitespace(s[|s| - 1]) {
      var init, last := s[..|s| - 1], s[|s| - 1];
      lead, trail := StripParts(init);
      assert s == init + [last];
      OneMoreTrailing(lead, Strip(init), trail, last);
      trail := trail + [last];
    } else {
      lead := StripStartParts(s);
      trail := "";
      assert Strip(s) != "" ==> Strip(s)[|Strip(s)| - 1] == s[|s| - 1];
    }
  }

  lemma {:induction false} StripStartMargin(lead: string, body: string)
    requires IsPythonBlank(lead) && (body == "" || !IsPythonWhitespace(body[0]))
    ensures StripStart(lead + body) == body
  {
    if lead == "" {
      assert lead + body == body;
    } else {
      assert (lead + body)[1..] == lead[1..] + body;
      StripStartMargin(lead[1..], body);
    }
  }

  lemma {:induction false} StripMargins(lead: string, body: string, trail: string)
    requires IsPythonBlank(lead) && IsPythonBlank(trail) && NoMargins(body)
    ensures Strip(lead + body + trail) == body
    decreases |lead| + |trail|
  {
    var s := lead + body + trail;
    if trail != "" {
      var n := |trail| - 1;
      assert s[..|s| - 1] == lead + body + trail[..n];
      StripMargins(lead, body, trail[..n]);
    } else if body == "" && lead != "" {
      var n := |lead| - 1;
      assert s[..|s| - 1] == lead[..n] + body + trail;
      StripMargins(lead[..n], body, trail);
    } else {
      assert s == lead + body;
      StripStartMargin(lead, body);
    }
  }

  lemma StripsToIff(text: string, body: string)
    ensures Strip(text) == body <==> StripsTo(text, body)
  {
    var lead, trail := StripParts(text);
    assert Strip(text) == body ==> text == lead + body + trail;
    forall l, t | IsPythonBlank(l) && IsPythonBlank(t) && NoMargins(body) && text == l + body + t
      ensures Strip(text) == body
    {
      StripMargins(l, body, t);
    }
  }

  /** The first opening bracket and the last closing one. */
  ghost predicate Widest(body: string, i: nat, j: nat) {
    && i < j < |body| && body[i] == '[' && body[j] == ']'
    && (forall k :: 0 <= k < i ==> body[k] != '[') && forall k :: j < k < |body| ==> body[k] != ']'
  }

  /** The widest part of a text from an opening bracket to a closing one. */
  ghost predicate Bracketed(body: string, span: string) {
    exists i: nat, j: nat :: Widest(body, i, j) && span == body[i..j + 1]
  }

  lemma WidestIff(body: string, i: nat, j: nat)
    ensures Widest(body, i, j) <==> i == Index(body, '[') && j == LastIndex(body, ']') && i < j
  {
    if Widest(body, i, j) {
      IndexIs(body, '[', i);
      LastIndexIs(body, ']', j);
    }
  }

  lemma BracketedIff(body: string, span: string, start: nat, end: int)
    requires start == Index(body, '[') && end == LastIndex(body, ']')
    ensures Bracketed(body, span) <==> end > start && span == body[start..end + 1]
  {
    if end > start {
      WidestIff(body, start, end);
    }
    forall i: nat, j: nat | Widest(body, i, j) ensures i == start && j == end {
      WidestIff(body, i, j);
    }
  }

  /** The JSON in a text whose margins are gone. */
  ghost predicate JsonInBody(body: string, j: Json, parse: string -> Option<Json>) {
    || parse(body) == Some(j)
    || (parse(body) == None && exists span :: Bracketed(body, span) && parse(span) == Some(j))
  }

  lemma JsonInBodyIff(body: string, j: Json, parse: string -> Option<Json>, start: nat, end: int)
    requires start == Index(body, '[') && end == LastIndex(body, ']')
    ensures JsonInBody(body, j, parse) <==>
            if parse(body).Some? then parse(body) == Some(j)
            else end > start && parse(body[start..end + 1]) == Some(j)
  {
    assert forall span :: Bracketed(body, span) <==> end > start && span == body[start..end + 1] by {
      forall span ensures Bracketed(body, span) <==> end > start && span == body[start..end + 1] {
        BracketedIff(body, span, start, end);
      }
    }
  }

  /** The JSON in a text: the whole of it without its margins, or else its bracketed part. */
  ghost predicate JsonIn(text: string, j: Json) {
    exists body :: StripsTo(text, body) && JsonInBody(body, j, Parse)
  }

  lemma JsonInStripped(text: string, j: Json)
    ensures JsonIn(text, j) <==> JsonInBody(Strip(text), j, Parse)
  {
    forall body ensures StripsTo(text, body) <==> body == Strip(text) { StripsToIff(text, body); }
  }

  lemma PlanInStripped(text: string, body: string, start: nat, end: int)
    requires body == Strip(text) && start == Index(body, '[') && end == LastIndex(body, ']')
    ensures PlanInContent(Str(text)) ==
            if Parse(body).Some? then Parse(body) else if end > start then Parse(body[start..end + 1]) else None
  {
  }

  lemma PlanInBodyIff(text: string, body: string, start: nat, end: int, j: Json)
    requires body == Strip(text) && start == Index(body, '[') && end == LastIndex(body, ']')
    ensures PlanInContent(Str(text)) == Some(j) <==> JsonInBody(body, j, Parse)
  {
    PlanInStripped(text, body, start, end);
    JsonInBodyIff(body, j, Parse, start, end);
  }

  lemma JsonInIff(text: string, j: Json)
    ensures PlanInContent(Str(text)) == Some(j) <==> JsonIn(text, j)
  {
    JsonInStripped(text, j);
    PlanInBodyIff(text, Strip(text), Index(Strip(text), '['), LastIndex(Strip(text), ']'), j);
  }

  /** What a reply offers for a plan: under `plan`, or without one in its `content`. */
  ghost predicate Offered(reply: seq<Member>, j: Json) {
    || (Has(reply, "plan", j) && !j.Null?)
    || ((LacksKey(reply, "plan") || Has(reply, "plan", Null)) &&
        exists text :: Has(reply, "content", Str(text)) && JsonIn(text, j))
  }

  lemma ContentIff(reply: seq<Member>, j: Json)
    ensures var content := Get(reply, "content");
            content.Some? && PlanInContent(content.value) == Some(j) <==>
            exists text :: Has(reply, "content", Str(text)) && JsonIn(text, j)
  {
    var content := Get(reply, "content");
    forall text ensures Has(reply, "content", Str(text)) <==> content == Some(Str(text)) {
      GetIff(reply, "content", Str(text));
    }
    if content.Some? && content.value.Str? {
      JsonInIff(content.value.s, j);
    }
  }

  lemma OfferedIff(reply: seq<Member>, j: Json)
    ensures Proposed(reply) == Some(j) <==> Offered(reply, j)
  {
    GetIff(reply, "plan", j);
    GetIff(reply, "plan", Null);
    LacksIff(reply, "plan");
    ContentIff(reply, j);
    NothingInNull();
  }

  /** A `null` content offers as little as none. */
  lemma NothingInNull()
    ensures PlanInContent(Null) == None
  {
  }

  /**
   A plan is accepted if and only if a list is offered, every tool on offer has a name, every entry asks
   for a step or for an unknown tool, and there is a step: the steps are those asked for, in order.
   */
  lemma PlanAcceptedIff(reply: seq<Member>, tools: seq<Option<string>>, steps: seq<PlanStep>)
    ensures ParsedPlan(reply, tools) == Ok(steps) <==>
            && None !in tools && steps != []
            && exists es :: Offered(reply, Arr(es)) && Selects(es, Names(tools), steps)
  {
    var raw := Proposed(reply);
    forall j ensures raw == Some(j) <==> Offered(reply, j) { OfferedIff(reply, j); }
    if raw.Some? && raw.value.Arr? {
      ReadStepsIff(raw.value.elems, Names(tools), steps);
    }
  }

  /** The only other failure than a bad plan: a list is offered, but a tool on offer has no name. */
  lemma PlanUnreadableIff(reply: seq<Member>, tools: seq<Option<string>>)
    ensures ParsedPlan(reply, tools) == Raise(OtherError) <==> None in tools && exists es :: Offered(reply, Arr(es))
  {
    var raw := Proposed(reply);
    forall j ensures raw == Some(j) <==> Offered(reply, j) { OfferedIff(reply, j); }
  }

  // ── The mock plan ──────────────────────────────────────────────────────────

  /** A call without arguments. */
  predicate IsBareCall(step: PlanStep, tool: string) {
    step.tool == tool && step.args == "{}"
  }

  /** The echo of the first eighty characters of a description, as JSON whatever is in it. */
  predicate IsEcho(step: PlanStep, description: string) {
    step.tool == "echo" &&
    Parse(step.args) ==
    Some(Obj([Member("payload", Str(if |description| <= 80 then description else description[..80]))]))
  }

  /** The mock plan: the clock, then the echo, as far as they are on offer, and otherwise the first tool. */
  lemma MockPlanIs(tools: seq<Option<string>>, description: string)
    ensures var steps, clock, echo := MockSteps(tools, description), Some("clock") in tools, Some("echo") in tools;
            && (clock ==> steps != [] && IsBareCall(steps[0], "clock"))
            && (echo ==> steps != [] && IsEcho(steps[|steps| - 1], description))
            && |steps| == (if clock && echo then 2
                           else if clock || echo || (tools != [] && tools[0].Some?) then 1
                           else 0)
            && (!clock && !echo && tools != [] && tools[0].Some? ==> IsBareCall(steps[0], tools[0].value))
  {
    ParsePrintDocument(Obj([Member("payload", Str(if |description| > 80 then description[..80] else description))]));
  }
}
