/** What the loop writes down: the answers to its calls, and nothing else that looks like one. */
module AgentNotes {
  import opened Text
  import opened Json
  import opened AgentLoop
  import opened AgentPlans

  // ── What is observed ───────────────────────────────────────────────────────

  /** A tool, whether its call failed, and what came back. */
  datatype Seen = Seen(tool: string, failed: bool, result: Json)

  function SeenIn(tool: string, reply: seq<Member>): Seen {
    var error, result := Get(reply, "error"), Get(reply, "result");
    if error.Some? && Truthy(error.value) then Seen(tool, true, error.value)
    else if result.Some? then Seen(tool, false, result.value)
    else Seen(tool, false, Str(""))
  }

  /** What an event lets the loop see: the answer to a call. */
  function Sight(l: Ledger, e: Event): seq<Seen> {
    if l.awaits.Some? && l.awaits.value.ToolCall? && IsAnswer(AwaitedBy(l.awaits.value), e) then
      [SeenIn(l.awaits.value.tool, MembersOf(e.receipt.value))]
    else []
  }

  function Sights(c: Config, trace: seq<Event>): seq<Seen> {
    if trace == [] then []
    else
      var n := |trace| - 1;
      Sights(c, trace[..n]) + Sight(Book(c, trace[..n]), trace[n])
  }

  /** What the loop wrote down of its calls. */
  function Noted(obs: seq<Observation>): seq<Seen> {
    if obs == [] then []
    else
      var o := obs[|obs| - 1];
      Noted(obs[..|obs| - 1]) + if o.Observed? then [Seen(o.tool, o.failed, o.result)] else []
  }

  lemma SightsSnoc(c: Config, trace: seq<Event>, e: Event)
    ensures Sights(c, trace + [e]) == Sights(c, trace) + Sight(Book(c, trace), e)
  {
    assert (trace + [e])[..|trace|] == trace;
  }

  lemma NotedSnoc(obs: seq<Observation>, o: Observation)
    ensures Noted(obs + [o]) == Noted(obs) + if o.Observed? then [Seen(o.tool, o.failed, o.result)] else []
  {
    assert (obs + [o])[..|obs|] == obs;
  }

  lemma {:induction false} NotedSkips(obs: seq<Observation>, more: seq<Observation>)
    requires forall i :: 0 <= i < |more| ==> !more[i].Observed?
    ensures Noted(obs + more) == Noted(obs)
  {
    if more == [] {
      assert obs + more == obs;
    } else {
      var n := |more| - 1;
      NotedSkips(obs, more[..n]);
      NotedSnoc(obs + more[..n], more[n]);
      assert obs + more[..n] + [more[n]] == obs + more;
      assert Noted(obs) + [] == Noted(obs);
    }
  }

  lemma {:induction false} SkipsNoteNothing(raw: seq<Json>, names: set<string>)
    ensures forall i :: 0 <= i < |Skips(raw, names)| ==> !Skips(raw, names)[i].Observed?
  {
    if raw != [] {
      SkipsNoteNothing(raw[..|raw| - 1], names);
    }
  }

  lemma ReadingNotesNothing(c: Config, s: State, reply: seq<Member>)
    ensures Noted(Parsed(c, s, reply).state.observations) == Noted(s.observations)
  {
    var raw := Proposed(reply);
    if raw.Some? && raw.value.Arr? {
      SkipsNoteNothing(raw.value.elems, Names(c.tools));
    }
    NotedSkips(s.observations, SkippedIn(reply, c.tools));
  }

  lemma AmendingNotesNothing(c: Config, s: State, reply: seq<Member>)
    requires s.toolCalls <= MAX_TOOL_CALLS
    ensures Noted(Amended(c, s, reply).state.observations) == Noted(s.observations)
  {
    ReadingNotesNothing(c, s, reply);
    NotedSnoc(Parsed(c, s, reply).state.observations, IgnoredRevision);
    assert Noted(s.observations) + [] == Noted(s.observations);
  }

  lemma {:induction false} WaitingSeesNothing(c: Config, trace: seq<Event>, f: Frame, inbox: seq<Receipt>, k: nat)
    requires f.ToolCall? || f.LlmRequest?
    requires Dictated(c, trace) && Book(c, trace).awaits == Some(f) && k <= WaitEnd(AwaitedBy(f), inbox)
    ensures Sights(c, trace + Events(inbox[..k])) == Sights(c, trace)
  {
    if k == 0 {
      assert trace + Events(inbox[..0]) == trace;
    } else {
      WaitingSeesNothing(c, trace, f, inbox, k - 1);
      WaitingFits(c, trace, f, inbox, k - 1);
      EventsStep(trace, inbox, k - 1);
      SightsSnoc(c, trace + Events(inbox[..k - 1]), Received(inbox[k - 1]));
      assert Sights(c, trace) + [] == Sights(c, trace);
    }
  }

  /** What asking lets the loop see: the answer to a call, if there is one. */
  lemma AskSees(c: Config, s: State, f: Frame)
    requires f.ToolCall? || f.LlmRequest?
    requires Dictated(c, s.trace) && Fits(c, Book(c, s.trace), Sent(f))
    ensures var a := Ask(s, f);
            Sights(c, a.state.trace) ==
            Sights(c, s.trace) + if f.ToolCall? && a.result.Ok? then [SeenIn(f.tool, a.result.value)] else []
  {
    BookSnoc(c, s.trace, Sent(f));
    DictatedSnoc(c, s.trace, Sent(f));
    SightsSnoc(c, s.trace, Sent(f));
    assert Sights(c, s.trace) + [] == Sights(c, s.trace);
    HearingSees(c, s.trace + [Sent(f)], f, s.inbox);
    LastSight(Book(c, s.trace + [Sent(f)]), f, s.inbox);
  }

  lemma HearingSees(c: Config, trace: seq<Event>, f: Frame, inbox: seq<Receipt>)
    requires (f.ToolCall? || f.LlmRequest?) && Dictated(c, trace) && Book(c, trace).awaits == Some(f)
    ensures Sights(c, trace + Events(Hear(AwaitedBy(f), inbox).heard)) ==
            Sights(c, trace) + Sight(Book(c, trace), Received(LastHeard(AwaitedBy(f), inbox)))
  {
    var n := WaitEnd(AwaitedBy(f), inbox);
    WaitingSeesNothing(c, trace, f, inbox, n);
    WaitingFits(c, trace, f, inbox, n);
    EventsStep(trace, inbox, n);
    SightsSnoc(c, trace + Events(inbox[..n]), Received(LastHeard(AwaitedBy(f), inbox)));
  }

  lemma LastSight(l: Ledger, f: Frame, inbox: seq<Receipt>)
    requires (f.ToolCall? || f.LlmRequest?) && l.awaits == Some(f)
    ensures var r := Hear(AwaitedBy(f), inbox).reply;
            Sight(l, Received(LastHeard(AwaitedBy(f), inbox))) ==
            if f.ToolCall? && r.Ok? then [SeenIn(f.tool, r.value)] else []
  {
  }

  /** What is noted so far are the answers seen so far. */
  predicate Noting(c: Config, s: State) {
    Noted(s.observations) == Sights(c, s.trace)
  }

  lemma ActedNotes(c: Config, s: State, called: bool)
    requires Accounted(c, s, called) && s.plan != [] && s.toolCalls < MAX_TOOL_CALLS && (c.mock || !called)
    requires Noting(c, s)
    ensures var a := Acted(c, s.(plan := s.plan[1..]), s.plan[0]).state; Noting(c, a)
  {
    var step := s.plan[0];
    AffordableRest(s.plan, s.toolCalls);
    var t := s.(plan := s.plan[1..], toolCalls := s.toolCalls + 1);
    var f := ToolCall(CallId(c, s.toolCalls), step.tool, step.args);
    AskSees(c, t, f);
    NotingACall(Sights(c, s.trace), s.observations, step, Ask(t, f).result);
  }

  /** Noting the answer to a call, if there is one. */
  lemma NotingACall(sights: seq<Seen>, obs: seq<Observation>, step: PlanStep, r: Result<seq<Member>>)
    requires Noted(obs) == sights
    ensures r.Ok? ==> Noted(obs + [Observe(step, r.value)]) == sights + [SeenIn(step.tool, r.value)]
    ensures sights + [] == sights
  {
    if r.Ok? {
      NotedSnoc(obs, Observe(step, r.value));
    }
  }

  lemma RevisedNotes(c: Config, s: State)
    requires Accounted(c, s, true) && Noting(c, s)
    ensures var v := Revised(c, s).state; Noting(c, v)
  {
    if !(c.mock || s.plan == [] || s.toolCalls >= MAX_TOOL_CALLS) {
      NoneAffordable(s.plan, s.toolCalls);
      var f := LlmRequest(ReviseId(c, s.toolCalls), Revise);
      AskSees(c, s, f);
      assert Sights(c, s.trace) + [] == Sights(c, s.trace);
      var a := Ask(s, f);
      if a.result.Ok? {
        AmendingNotesNothing(c, a.state, a.result.value);
      }
    }
  }

  /** One turn: a step, and what is made of the plan after it. */
  function Turn(c: Config, s: State): (d: Done<()>)
    requires s.plan != []
    ensures d.result.Ok? ==> d.state.toolCalls == s.toolCalls + 1
  {
    var a := Acted(c, s.(plan := s.plan[1..]), s.plan[0]);
    if a.result.Raise? then a else Revised(c, a.state)
  }

  lemma TurnFirst(c: Config, s: State)
    requires s.plan != [] && s.toolCalls < MAX_TOOL_CALLS
    ensures Turns(c, s) == if Turn(c, s).result.Raise? then Turn(c, s) else Turns(c, Turn(c, s).state)
  {
  }

  lemma TurnNotes(c: Config, s: State, called: bool)
    requires CanGoOn(c, s, called) && Noting(c, s) && s.plan != [] && s.toolCalls < MAX_TOOL_CALLS
    ensures Noting(c, Turn(c, s).state)
    ensures Turn(c, s).result.Ok? ==> exists again :: CanGoOn(c, Turn(c, s).state, again)
  {
    NoneAffordable(s.plan, s.toolCalls);
    ActedFits(c, s, called);
    ActedNotes(c, s, called);
    var a := Acted(c, s.(plan := s.plan[1..]), s.plan[0]);
    if a.result.Ok? {
      RevisedFits(c, a.state);
      RevisedNotes(c, a.state);
    }
  }

  lemma {:induction false} TurnsNote(c: Config, s: State, called: bool)
    requires CanGoOn(c, s, called)
    requires Noting(c, s)
    ensures var d := Turns(c, s).state; Noting(c, d)
    decreases MAX_TOOL_CALLS - s.toolCalls
  {
    if s.plan != [] && s.toolCalls < MAX_TOOL_CALLS {
      TurnNotes(c, s, called);
      var t := Turn(c, s);
      if t.result.Ok? {
        var again :| CanGoOn(c, t.state, again);
        TurnsNote(c, t.state, again);
      }
      TurnFirst(c, s);
    }
  }

  lemma PlanningNotes(c: Config, inbox: seq<Receipt>)
    ensures var p := Planned(c, Start(inbox)).state; Noting(c, p)
  {
    if !c.mock {
      var f := LlmRequest(PlanId(c, 0), Plan);
      AskSees(c, Start(inbox), f);
      var a := Ask(Start(inbox), f);
      if a.result.Ok? {
        ReadingNotesNothing(c, a.state, a.result.value);
      }
    }
  }

  lemma DrivenNotes(c: Config, inbox: seq<Receipt>)
    ensures Noting(c, Driven(c, inbox).state)
  {
    PlanningNotes(c, inbox);
    if c.mock {
      if None !in c.tools {
        MockStart(c, inbox);
      }
    } else {
      PlanAsked(c, inbox);
    }
    var p := Planned(c, Start(inbox));
    if p.result.Ok? {
      TurnsNote(c, p.state.(plan := p.result.value), false);
    }
  }

  /** Every episode notes exactly the answers to its calls, in order, each as a failure if it says so. */
  lemma AnswersAreNoted(c: Config, inbox: seq<Receipt>)
    ensures var d := Episode(c, inbox).state; Noted(d.observations) == Sights(c, d.trace)
  {
    DrivenNotes(c, inbox);
    var d := Driven(c, inbox);
    SightsSnoc(c, d.state.trace, Farewell(d));
    assert Sights(c, d.state.trace) + [] == Sights(c, d.state.trace);
  }
}
