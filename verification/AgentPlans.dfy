/**
 What an episode must say next, read off the conversation so far: an account kept event by event, which
 knows nothing of how the loop is written and determines the whole conversation from what the peer sends.
 */
module AgentPlans {
  import opened Text
  import opened Json
  import opened AgentLoop

  // ── The account ────────────────────────────────────────────────────────────

  /**
   The calls due, those made, the request that awaits its answer, whether the last answer was to a call,
   and whether the run has failed.
   */
  datatype Ledger = Ledger(
    due: seq<(string, string)>, calls: nat, awaits: Option<Frame>, opening: bool, called: bool, failed: bool)

  /** Before anything is said: a mock run has its plan, and a tool without a name spoils it. */
  function Blank(c: Config): Ledger {
    if c.mock then Ledger(ToolAndArgs(MockSteps(c.tools, c.description)), 0, None, false, false, None in c.tools)
    else Ledger([], 0, None, true, false, false)
  }

  /** A plan as it is due: no more of it than calls are left. */
  function Affordable(steps: seq<PlanStep>, calls: nat): seq<(string, string)> {
    var left := if calls < MAX_TOOL_CALLS then MAX_TOOL_CALLS - calls else 0;
    ToolAndArgs(if |steps| <= left then steps else steps[..left])
  }

  /** The answer to a request for a plan, or for a revision, which may offer none and may be unusable. */
  function Advised(c: Config, l: Ledger, purpose: Purpose, reply: seq<Member>): Ledger {
    match ParsedPlan(reply, c.tools)
    case Ok(steps) => l.(due := Affordable(steps, l.calls))
    case Raise(error) => l.(failed := purpose == Plan || error == OtherError)
  }

  function Heed(c: Config, l: Ledger, e: Event): Ledger {
    match e
    case Sent(ToolCall(_, _, _)) =>
      l.(awaits := Some(e.frame), due := if l.due == [] then [] else l.due[1..], calls := l.calls + 1)
    case Sent(LlmRequest(_, _)) => l.(awaits := Some(e.frame), opening := false, called := false)
    case Sent(_) => l.(awaits := None)
    case Received(r) =>
      if l.awaits.None? || !IsRequest(Sent(l.awaits.value)) then l
      else if r.Got? && Answers(AwaitedBy(l.awaits.value), r.reply) then
        var answered := l.(awaits := None, called := l.awaits.value.ToolCall?);
        if l.awaits.value.ToolCall? then answered
        else Advised(c, answered, l.awaits.value.purpose, MembersOf(r.value))
      else if IsStop(r) then l.(awaits := None, failed := true)
      else l
  }

  function Book(c: Config, trace: seq<Event>): Ledger {
    if trace == [] then Blank(c) else Heed(c, Book(c, trace[..|trace| - 1]), trace[|trace| - 1])
  }

  lemma BookSnoc(c: Config, trace: seq<Event>, e: Event)
    ensures Book(c, trace + [e]) == Heed(c, Book(c, trace), e)
  {
    assert (trace + [e])[..|trace|] == trace;
  }

  /** The one frame to send when nothing is awaited. */
  function Expected(c: Config, l: Ledger): Frame {
    if l.failed then CortexError
    else if l.opening then LlmRequest("llm-plan-" + Decimal(l.calls) + "-" + c.taskId, Plan)
    else if l.due == [] then InvokeComplete(l.calls)
    else if l.called && !c.mock then LlmRequest("llm-revise-" + Decimal(l.calls) + "-" + c.taskId, Revise)
    else ToolCall("call-" + Decimal(l.calls) + "-" + c.taskId, l.due[0].0, l.due[0].1)
  }

  /** An event the account allows: a receipt while something is awaited, the expected frame otherwise. */
  predicate Fits(c: Config, l: Ledger, e: Event) {
    if e.Received? then l.awaits.Some? else l.awaits.None? && e.frame == Expected(c, l)
  }

  ghost predicate Dictated(c: Config, trace: seq<Event>) {
    forall i :: 0 <= i < |trace| ==> Fits(c, Book(c, trace[..i]), trace[i])
  }

  lemma DictatedSnoc(c: Config, trace: seq<Event>, e: Event)
    requires Dictated(c, trace) && Fits(c, Book(c, trace), e)
    ensures Dictated(c, trace + [e])
  {
    var t := trace + [e];
    forall i | 0 <= i < |t| ensures Fits(c, Book(c, t[..i]), t[i]) {
      assert t[..i] == if i < |trace| then trace[..i] else trace;
    }
  }

  // ── The loop keeps to it ───────────────────────────────────────────────────

  lemma {:induction false} WaitingFits(c: Config, trace: seq<Event>, f: Frame, inbox: seq<Receipt>, k: nat)
    requires f.ToolCall? || f.LlmRequest?
    requires Dictated(c, trace) && Book(c, trace).awaits == Some(f) && k <= WaitEnd(AwaitedBy(f), inbox)
    ensures Dictated(c, trace + Events(inbox[..k])) && Book(c, trace + Events(inbox[..k])) == Book(c, trace)
  {
    if k == 0 {
      assert trace + Events(inbox[..0]) == trace;
    } else {
      WaitingFits(c, trace, f, inbox, k - 1);
      EventsStep(trace, inbox, k - 1);
      WaitsOn(c, trace + Events(inbox[..k - 1]), f, inbox[k - 1]);
    }
  }

  lemma WaitsOn(c: Config, trace: seq<Event>, f: Frame, r: Receipt)
    requires (f.ToolCall? || f.LlmRequest?) && Dictated(c, trace) && Book(c, trace).awaits == Some(f)
    requires !EndsWait(AwaitedBy(f), r)
    ensures Dictated(c, trace + [Received(r)]) && Book(c, trace + [Received(r)]) == Book(c, trace)
  {
    BookSnoc(c, trace, Received(r));
    DictatedSnoc(c, trace, Received(r));
  }

  /** The last receipt of a wait. */
  function LastHeard(w: Awaited, inbox: seq<Receipt>): Receipt {
    var n := WaitEnd(w, inbox);
    if n < |inbox| then inbox[n] else Lost
  }

  lemma HearingFits(c: Config, trace: seq<Event>, f: Frame, inbox: seq<Receipt>)
    requires f.ToolCall? || f.LlmRequest?
    requires Dictated(c, trace) && Book(c, trace).awaits == Some(f)
    ensures var t, r := trace + Events(Hear(AwaitedBy(f), inbox).heard), LastHeard(AwaitedBy(f), inbox);
            Dictated(c, t) && Book(c, t) == Heed(c, Book(c, trace), Received(r))
  {
    var n := WaitEnd(AwaitedBy(f), inbox);
    WaitingFits(c, trace, f, inbox, n);
    EventsStep(trace, inbox, n);
    BookSnoc(c, trace + Events(inbox[..n]), Received(LastHeard(AwaitedBy(f), inbox)));
    DictatedSnoc(c, trace + Events(inbox[..n]), Received(LastHeard(AwaitedBy(f), inbox)));
  }

  lemma LastReply(w: Awaited, inbox: seq<Receipt>)
    ensures var r := LastHeard(w, inbox);
            && Hear(w, inbox).reply == ReplyIn(w, r)
            && (Hear(w, inbox).reply.Raise? ==> IsStop(r) && !(r.Got? && Answers(w, r.reply)))
  {
  }

  /** Asking as expected keeps to the account, and its outcome is what the account makes of the last receipt. */
  lemma AskFits(c: Config, s: State, f: Frame)
    requires f.ToolCall? || f.LlmRequest?
    requires Dictated(c, s.trace) && Fits(c, Book(c, s.trace), Sent(f))
    ensures var d, r := Ask(s, f), LastHeard(AwaitedBy(f), s.inbox);
            && Dictated(c, d.state.trace)
            && Book(c, d.state.trace) == Heed(c, Heed(c, Book(c, s.trace), Sent(f)), Received(r))
            && d.result == ReplyIn(AwaitedBy(f), r)
            && (d.result.Raise? ==> IsStop(r) && !(r.Got? && Answers(AwaitedBy(f), r.reply)))
  {
    BookSnoc(c, s.trace, Sent(f));
    DictatedSnoc(c, s.trace, Sent(f));
    HearingFits(c, s.trace + [Sent(f)], f, s.inbox);
    LastReply(AwaitedBy(f), s.inbox);
  }

  /** Between turns the account has the leftover plan as due. */
  ghost predicate Accounted(c: Config, s: State, called: bool) {
    && Dictated(c, s.trace) && s.toolCalls <= MAX_TOOL_CALLS
    && Book(c, s.trace) == Ledger(Affordable(s.plan, s.toolCalls), s.toolCalls, None, false, called, false)
  }

  /** A run given up: the account has it failed, so that only the error is left to send. */
  ghost predicate GivenUp(c: Config, trace: seq<Event>) {
    Dictated(c, trace) && Book(c, trace).awaits.None? && Book(c, trace).failed
  }

  lemma AffordableRest(plan: seq<PlanStep>, n: nat)
    requires plan != [] && n < MAX_TOOL_CALLS
    ensures var due := Affordable(plan, n);
            due != [] && due[0] == (plan[0].tool, plan[0].args) && due[1..] == Affordable(plan[1..], n + 1)
  {
  }

  lemma NoneAffordable(plan: seq<PlanStep>, n: nat)
    requires n <= MAX_TOOL_CALLS
    ensures Affordable(plan, n) == [] <==> plan == [] || n == MAX_TOOL_CALLS
  {
  }

  /** A call and the receipt that ends the wait for its reply, in the account. */
  lemma CallHeeded(c: Config, l: Ledger, f: Frame, r: Receipt)
    requires f.ToolCall? && l.due != [] && EndsWait(AwaitedBy(f), r)
    ensures var m := Heed(c, Heed(c, l, Sent(f)), Received(r));
            if r.Got? && Answers(AwaitedBy(f), r.reply) then
              m == Ledger(l.due[1..], l.calls + 1, None, l.opening, true, l.failed)
            else m.awaits.None? && m.failed
  {
  }

  lemma LastEnds(w: Awaited, inbox: seq<Receipt>)
    ensures EndsWait(w, LastHeard(w, inbox))
  {
  }

  lemma ActedFits(c: Config, s: State, called: bool)
    requires Accounted(c, s, called) && s.plan != [] && s.toolCalls < MAX_TOOL_CALLS && (c.mock || !called)
    ensures var a := Acted(c, s.(plan := s.plan[1..]), s.plan[0]);
            if a.result.Ok? then Accounted(c, a.state, true) else GivenUp(c, a.state.trace)
  {
    var step := s.plan[0];
    AffordableRest(s.plan, s.toolCalls);
    var t := s.(plan := s.plan[1..], toolCalls := s.toolCalls + 1);
    var f := ToolCall(CallId(c, s.toolCalls), step.tool, step.args);
    var r := LastHeard(AwaitedBy(f), s.inbox);
    AskFits(c, t, f);
    LastEnds(AwaitedBy(f), s.inbox);
    CallHeeded(c, Book(c, s.trace), f, r);
    assert Acted(c, s.(plan := s.plan[1..]), step).state.trace == Ask(t, f).state.trace;
  }

  lemma NothingOffered(reply: seq<Member>, tools: seq<Option<string>>)
    requires OffersNothing(reply)
    ensures ParsedPlan(reply, tools) == Raise(ValueError)
  {
  }

  lemma AmendedFits(c: Config, s: State, reply: seq<Member>, l: Ledger)
    requires s.toolCalls <= MAX_TOOL_CALLS
    requires l == Ledger(Affordable(s.plan, s.toolCalls), s.toolCalls, None, false, false, false)
    ensures var v, m := Amended(c, s, reply), Advised(c, l, Revise, reply);
            if v.result.Ok? then m == l.(due := Affordable(v.state.plan, s.toolCalls)) else m.failed && m.awaits.None?
  {
    if OffersNothing(reply) {
      NothingOffered(reply, c.tools);
    }
  }

  /** A turn may follow: a revision was asked for since the last call, unless there is no point. */
  ghost predicate CanGoOn(c: Config, s: State, called: bool) {
    Accounted(c, s, called) && (c.mock || !called || Affordable(s.plan, s.toolCalls) == [])
  }

  lemma RevisedFits(c: Config, s: State)
    requires Accounted(c, s, true)
    ensures var v := Revised(c, s);
            if v.result.Ok? then
              exists called :: CanGoOn(c, v.state, called)
            else GivenUp(c, v.state.trace)
  {
    NoneAffordable(s.plan, s.toolCalls);
    if c.mock || s.plan == [] || s.toolCalls >= MAX_TOOL_CALLS {
      assert CanGoOn(c, Revised(c, s).state, true);
    } else {
      var f := LlmRequest(ReviseId(c, s.toolCalls), Revise);
      AskFits(c, s, f);
      var a := Ask(s, f);
      if a.result.Ok? {
        AmendedFits(c, a.state, a.result.value, Book(c, s.trace).(called := false));
        assert Revised(c, s).result.Ok? ==> CanGoOn(c, Revised(c, s).state, false);
      }
    }
  }

  /** A run that ends well has nothing due, and any other is given up. */
  ghost predicate EndFits(c: Config, d: Done<()>) {
    if d.result.Ok? then
      exists called :: Accounted(c, d.state, called) && Affordable(d.state.plan, d.state.toolCalls) == []
    else GivenUp(c, d.state.trace)
  }

  lemma {:induction false} TurnsFit(c: Config, s: State, called: bool)
    requires CanGoOn(c, s, called)
    ensures EndFits(c, Turns(c, s))
    decreases MAX_TOOL_CALLS - s.toolCalls
  {
    NoneAffordable(s.plan, s.toolCalls);
    if s.plan != [] && s.toolCalls < MAX_TOOL_CALLS {
      ActedFits(c, s, called);
      var a := Acted(c, s.(plan := s.plan[1..]), s.plan[0]);
      if a.result.Ok? {
        RevisedFits(c, a.state);
        var v := Revised(c, a.state);
        if v.result.Ok? {
          var again :| CanGoOn(c, v.state, again);
          TurnsFit(c, v.state, again);
        }
      }
    }
  }

  lemma MockStart(c: Config, inbox: seq<Receipt>)
    requires c.mock && None !in c.tools
    ensures Accounted(c, Start(inbox).(plan := MockSteps(c.tools, c.description)), false)
  {
    MockStepsAvailable(c.tools, c.description);
  }

  /** A request for a first plan and the receipt that ends the wait for it, in the account. */
  lemma AdviceHeeded(c: Config, l: Ledger, f: Frame, r: Receipt)
    requires f.LlmRequest? && f.purpose == Plan && EndsWait(AwaitedBy(f), r)
    ensures var m := Heed(c, Heed(c, l, Sent(f)), Received(r));
            if r.Got? && Answers(AwaitedBy(f), r.reply) && ParsedPlan(MembersOf(r.value), c.tools).Ok? then
              m == Ledger(Affordable(ParsedPlan(MembersOf(r.value), c.tools).value, l.calls), l.calls, None, false,
                          false, l.failed)
            else m.awaits.None? && m.failed
  {
  }

  lemma PlanAsked(c: Config, inbox: seq<Receipt>)
    requires !c.mock
    ensures var p := LlmPlanned(c, Start(inbox));
            if p.result.Ok? then Accounted(c, p.state.(plan := p.result.value), false) else GivenUp(c, p.state.trace)
  {
    var f := LlmRequest(PlanId(c, 0), Plan);
    AskFits(c, Start(inbox), f);
    LastEnds(AwaitedBy(f), inbox);
    AdviceHeeded(c, Blank(c), f, LastHeard(AwaitedBy(f), inbox));
  }

  lemma DrivenFits(c: Config, inbox: seq<Receipt>)
    ensures EndFits(c, Driven(c, inbox))
  {
    if c.mock {
      if None !in c.tools {
        MockStart(c, inbox);
      }
    } else {
      PlanAsked(c, inbox);
    }
    var p := Planned(c, Start(inbox));
    if p.result.Ok? {
      TurnsFit(c, p.state.(plan := p.result.value), false);
    }
  }

  /** Every event of every episode is the one the account of the events before it calls for. */
  lemma EpisodeIsDictated(c: Config, inbox: seq<Receipt>)
    ensures Dictated(c, Episode(c, inbox).state.trace)
  {
    DrivenFits(c, inbox);
    var d := Driven(c, inbox);
    DictatedSnoc(c, d.state.trace, Farewell(d));
  }

  // ── The account leaves no choice ───────────────────────────────────────────

  /** One closing frame, at the end. */
  ghost predicate Closed(trace: seq<Event>) {
    && trace != [] && IsTerminal(trace[|trace| - 1])
    && forall i :: 0 <= i < |trace| - 1 ==> !IsTerminal(trace[i])
  }

  lemma {:induction false} NoneCounted(trace: seq<Event>, which: Event -> bool)
    ensures Count(trace, which) == 0 <==> forall i :: 0 <= i < |trace| ==> !which(trace[i])
  {
    if trace != [] {
      NoneCounted(trace[..|trace| - 1], which);
    }
  }

  lemma EpisodeIsClosed(c: Config, inbox: seq<Receipt>)
    ensures Closed(Episode(c, inbox).state.trace)
  {
    EpisodeIsAllowed(c, inbox);
    var trace := Episode(c, inbox).state.trace;
    CountsMatch(trace, Names(c.tools));
    NoneCounted(trace[..|trace| - 1], IsTerminal);
  }

  lemma {:induction false} ReceiptsOfPrefix(trace: seq<Event>, n: nat)
    requires n <= |trace|
    ensures Receipts(trace[..n]) <= Receipts(trace)
    decreases |trace| - n
  {
    if n == |trace| {
      assert trace[..n] == trace;
    } else {
      ReceiptsSnoc(trace[..n], trace[n]);
      assert trace[..n] + [trace[n]] == trace[..n + 1];
      ReceiptsOfPrefix(trace, n + 1);
    }
  }

  lemma HeardNext(trace: seq<Event>, n: nat, flow: seq<Receipt>)
    requires n < |trace| && trace[n].Received? && Receipts(trace) <= flow
    ensures |Receipts(trace[..n])| < |flow| && trace[n].receipt == flow[|Receipts(trace[..n])|]
  {
    ReceiptsSnoc(trace[..n], trace[n]);
    assert trace[..n] + [trace[n]] == trace[..n + 1];
    ReceiptsOfPrefix(trace, n + 1);
    assert Receipts(trace[..n + 1])[|Receipts(trace[..n])|] == trace[n].receipt;
  }

  lemma SameNext(c: Config, a: seq<Event>, b: seq<Event>, n: nat, flow: seq<Receipt>)
    requires n < |a| && n < |b| && a[..n] == b[..n] && Dictated(c, a) && Dictated(c, b)
    requires Receipts(a) <= flow && Receipts(b) <= flow
    ensures a[n] == b[n]
  {
    assert Fits(c, Book(c, a[..n]), a[n]) && Fits(c, Book(c, b[..n]), b[n]);
    if a[n].Received? {
      HeardNext(a, n, flow);
      HeardNext(b, n, flow);
    }
  }

  lemma NoShorter(a: seq<Event>, b: seq<Event>, n: nat)
    requires Closed(a) && Closed(b) && n < |a| && n <= |b| && a[..n] == b[..n]
    ensures n < |b|
  {
    assert n > 0 ==> a[n - 1] == a[..n][n - 1] == b[n - 1];
  }

  /** A closed conversation that the account allows, in which nothing is heard but what flows in. */
  ghost predicate Rival(c: Config, trace: seq<Event>, flow: seq<Receipt>) {
    Dictated(c, trace) && Closed(trace) && Receipts(trace) <= flow
  }

  lemma SameStep(c: Config, a: seq<Event>, b: seq<Event>, n: nat, flow: seq<Receipt>)
    requires Rival(c, a, flow) && Rival(c, b, flow) && n < |a| && n <= |b| && a[..n] == b[..n]
    ensures n < |b| && a[..n + 1] == b[..n + 1]
  {
    NoShorter(a, b, n);
    SameNext(c, a, b, n, flow);
    OneLonger(a, b, n);
  }

  lemma OneLonger(a: seq<Event>, b: seq<Event>, n: nat)
    requires n < |a| && n < |b| && a[..n] == b[..n] && a[n] == b[n]
    ensures a[..n + 1] == b[..n + 1]
  {
    assert a[..n + 1] == a[..n] + [a[n]] && b[..n + 1] == b[..n] + [b[n]];
  }

  lemma {:induction false} SamePrefix(c: Config, a: seq<Event>, b: seq<Event>, n: nat, flow: seq<Receipt>)
    requires Rival(c, a, flow) && Rival(c, b, flow) && n <= |a|
    ensures n <= |b| && a[..n] == b[..n]
  {
    if n > 0 {
      SamePrefix(c, a, b, n - 1, flow);
      SameStep(c, a, b, n - 1, flow);
    }
  }

  /** Whatever the peer sends, there is one closed conversation that the account allows: the loop's. */
  lemma EpisodeIsDetermined(c: Config, inbox: seq<Receipt>, trace: seq<Event>)
    ensures trace == Episode(c, inbox).state.trace <==>
            Rival(c, trace, inbox + [Lost])
  {
    var t, flow := Episode(c, inbox).state.trace, inbox + [Lost];
    EpisodeIsDictated(c, inbox);
    EpisodeIsClosed(c, inbox);
    EpisodeHearsThePeer(c, inbox);
    assert inbox <= flow && (forall a, b: seq<Receipt> :: a + b == inbox ==> a <= flow);
    assert Rival(c, t, flow);
    if Rival(c, trace, flow) {
      SamePrefix(c, trace, t, |trace|, flow);
      SamePrefix(c, t, trace, |t|, flow);
      assert trace[..|trace|] == trace && t[..|t|] == t;
    }
  }

  // ── Plans are followed ─────────────────────────────────────────────────────

  /** The event at `k` is the first answer to the request for a plan or a revision sent at `q`. */
  predicate AnswersPlanning(trace: seq<Event>, q: nat, k: nat) {
    && q < k < |trace| && IsLlmRequest(trace[q]) && IsAnswer(AwaitedBy(trace[q].frame), trace[k])
    && forall m :: q < m < k ==> trace[m].Received? && !EndsWait(AwaitedBy(trace[q].frame), trace[m].receipt)
  }

  /** The event at `k` brings a plan that can be used. */
  ghost predicate Brings(c: Config, trace: seq<Event>, k: nat, steps: seq<PlanStep>) {
    && (exists q :: AnswersPlanning(trace, q, k))
    && ParsedPlan(MembersOf(trace[k].receipt.value), c.tools) == Ok(steps)
  }

  /** What is awaited is the last frame sent, and nothing since has ended the wait. */
  lemma {:induction false} AwaitedSince(c: Config, trace: seq<Event>) returns (q: nat)
    requires Book(c, trace).awaits.Some?
    ensures q < |trace| && trace[q] == Sent(Book(c, trace).awaits.value) && IsRequest(trace[q])
    ensures forall m :: q < m < |trace| ==> trace[m].Received? && !EndsWait(AwaitedBy(trace[q].frame), trace[m].receipt)
  {
    q := |trace| - 1;
    if !IsRequest(trace[q]) {
      q := AwaitedSince(c, trace[..q]);
    }
  }

  lemma {:induction false} StillAwaited(c: Config, trace: seq<Event>, q: nat, k: nat)
    requires q < k <= |trace| && IsRequest(trace[q])
    requires forall m :: q < m < k ==> trace[m].Received? && !EndsWait(AwaitedBy(trace[q].frame), trace[m].receipt)
    ensures Book(c, trace[..k]).awaits == Some(trace[q].frame)
  {
    BookSnoc(c, trace[..k - 1], trace[k - 1]);
    assert trace[..k - 1] + [trace[k - 1]] == trace[..k];
    if q < k - 1 {
      StillAwaited(c, trace, q, k - 1);
    }
  }

  lemma CallsCounted(c: Config, trace: seq<Event>)
    ensures Book(c, trace).calls == |Calls(trace)|
  {
    if trace != [] {
      CallsCounted(c, trace[..|trace| - 1]);
    }
  }

  /** The event is no answer with a usable plan. */
  predicate NoPlan(c: Config, l: Ledger, e: Event) {
    l.awaits.Some? && l.awaits.value.LlmRequest? && IsAnswer(AwaitedBy(l.awaits.value), e) ==>
      ParsedPlan(MembersOf(e.receipt.value), c.tools).Raise?
  }

  /** One event of the account: what was called and what is due stay the same, unless a usable plan comes. */
  lemma DueKept(c: Config, l: Ledger, e: Event)
    requires Fits(c, l, e) && NoPlan(c, l, e)
    ensures CallIn(e) + Heed(c, l, e).due == l.due
  {
  }

  lemma DuePlanned(c: Config, l: Ledger, e: Event, steps: seq<PlanStep>)
    requires l.awaits.Some? && l.awaits.value.LlmRequest? && IsAnswer(AwaitedBy(l.awaits.value), e)
    requires ParsedPlan(MembersOf(e.receipt.value), c.tools) == Ok(steps)
    ensures Heed(c, l, e).due == Affordable(steps, l.calls)
  {
  }

  /** What was called so far and what is due. */
  function Agenda(c: Config, trace: seq<Event>): seq<(string, string)> {
    Calls(trace) + Book(c, trace).due
  }

  /** No usable plan comes in between. */
  ghost predicate NoneBrought(c: Config, trace: seq<Event>, lo: nat, hi: nat) {
    forall m, other :: lo <= m < hi ==> !Brings(c, trace, m, other)
  }

  lemma {:induction false} AgendaKept(c: Config, trace: seq<Event>, lo: nat, hi: nat)
    requires Dictated(c, trace) && lo <= hi <= |trace| && NoneBrought(c, trace, lo, hi)
    ensures Agenda(c, trace[..hi]) == Agenda(c, trace[..lo])
    decreases hi
  {
    if lo < hi {
      AgendaKept(c, trace, lo, hi - 1);
      PlanKept(c, trace, hi - 1);
    }
  }

  lemma PlanBrought(c: Config, trace: seq<Event>, k: nat, steps: seq<PlanStep>)
    requires Brings(c, trace, k, steps)
    ensures var before := Calls(trace[..k]);
            Agenda(c, trace[..k + 1]) == before + Affordable(steps, |before|)
  {
    assert trace[..k] + [trace[k]] == trace[..k + 1];
    BookSnoc(c, trace[..k], trace[k]);
    CallsSnoc(trace[..k], trace[k]);
    var q :| AnswersPlanning(trace, q, k);
    StillAwaited(c, trace, q, k);
    DuePlanned(c, Book(c, trace[..k]), trace[k], steps);
    CallsCounted(c, trace[..k]);
    assert Calls(trace[..k]) + [] == Calls(trace[..k]);
  }

  lemma PlanKept(c: Config, trace: seq<Event>, n: nat)
    requires Dictated(c, trace) && n < |trace| && forall other :: !Brings(c, trace, n, other)
    ensures Agenda(c, trace[..n + 1]) == Agenda(c, trace[..n])
  {
    var t, e := trace[..n], trace[n];
    assert Fits(c, Book(c, t), e);
    assert NoPlan(c, Book(c, t), e) by { UnusableUnlessBrought(c, trace, n); }
    AgendaStep(c, t, e);
    assert t + [e] == trace[..n + 1];
  }

  lemma AgendaStep(c: Config, trace: seq<Event>, e: Event)
    requires Fits(c, Book(c, trace), e) && NoPlan(c, Book(c, trace), e)
    ensures Agenda(c, trace + [e]) == Agenda(c, trace)
  {
    BookSnoc(c, trace, e);
    CallsSnoc(trace, e);
    DueKept(c, Book(c, trace), e);
    Reassociate(Calls(trace), CallIn(e), Heed(c, Book(c, trace), e).due);
  }

  lemma UnusableUnlessBrought(c: Config, trace: seq<Event>, n: nat)
    requires n < |trace| && forall other :: !Brings(c, trace, n, other)
    ensures NoPlan(c, Book(c, trace[..n]), trace[n])
  {
    var l, e := Book(c, trace[..n]), trace[n];
    if l.awaits.Some? && l.awaits.value.LlmRequest? && IsAnswer(AwaitedBy(l.awaits.value), e) {
      var q := AwaitedSince(c, trace[..n]);
      assert AnswersPlanning(trace, q, n);
      var p := ParsedPlan(MembersOf(e.receipt.value), c.tools);
      assert p.Ok? ==> Brings(c, trace, n, p.value);
    }
  }

  lemma AgendaSince(c: Config, trace: seq<Event>, k: nat, steps: seq<PlanStep>, i: nat)
    requires Dictated(c, trace) && Brings(c, trace, k, steps) && k < i <= |trace| && NoneBrought(c, trace, k + 1, i)
    ensures Agenda(c, trace[..i]) == Calls(trace[..k]) + Affordable(steps, |Calls(trace[..k])|)
  {
    assert Agenda(c, trace[..i]) == Agenda(c, trace[..k + 1]) by { AgendaKept(c, trace, k + 1, i); }
    PlanBrought(c, trace, k, steps);
  }

  lemma FollowedIn(c: Config, trace: seq<Event>, k: nat, steps: seq<PlanStep>, i: nat)
    requires Dictated(c, trace) && Brings(c, trace, k, steps) && k < i <= |trace| && NoneBrought(c, trace, k + 1, i)
    ensures var before := Calls(trace[..k]);
            var all := before + Affordable(steps, |before|);
            Calls(trace[..i]) <= all && (Book(c, trace[..i]).due == [] ==> Calls(trace[..i]) == all)
  {
    AgendaSince(c, trace, k, steps, i);
    PrefixOfSum(Calls(trace[..i]), Book(c, trace[..i]).due, Agenda(c, trace[..i]));
  }

  lemma PrefixOfSum(a: seq<(string, string)>, b: seq<(string, string)>, sum: seq<(string, string)>)
    requires a + b == sum
    ensures a <= sum && (b == [] ==> a == sum)
  {
  }

  /**
   The calls after a usable plan, in any episode: those of the plan in order, as far as calls are left, up
   to the next usable plan; and all of them if the run completes first.
   */
  lemma PlanIsFollowed(c: Config, inbox: seq<Receipt>, k: nat, steps: seq<PlanStep>, i: nat)
    requires var trace := Episode(c, inbox).state.trace;
             Brings(c, trace, k, steps) && k < i <= |trace| && NoneBrought(c, trace, k + 1, i)
    ensures var d := Episode(c, inbox);
            var before := Calls(d.state.trace[..k]);
            && Calls(d.state.trace[..i]) <= before + Affordable(steps, |before|)
            && (i == |d.state.trace| && d.result.Ok? ==> Calls(d.state.trace) == before + Affordable(steps, |before|))
  {
    var trace := Episode(c, inbox).state.trace;
    EpisodeIsDictated(c, inbox);
    NothingDue(c, inbox);
    FollowedIn(c, trace, k, steps, i);
    assert trace[..|trace|] == trace;
  }

  /** A completed run has nothing due. */
  lemma NothingDue(c: Config, inbox: seq<Receipt>)
    ensures var d := Episode(c, inbox); d.result.Ok? ==> Book(c, d.state.trace).due == []
  {
    var trace := Episode(c, inbox).state.trace;
    var n := |trace| - 1;
    EpisodeIsAllowed(c, inbox);
    EpisodeIsDictated(c, inbox);
    assert Fits(c, Book(c, trace[..n]), trace[n]);
    BookSnoc(c, trace[..n], trace[n]);
    assert trace[..n] + [trace[n]] == trace;
  }
}
