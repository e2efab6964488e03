/**
 Alert rules over evaluation passes: many rules interleaved in one tracker list behave, rule by
 rule, like one tracker run alone on that rule's own signal.
 */
module Alerts {
  import opened Text

  datatype AlertState = Normal | Firing

  datatype Tracker = Tracker(ruleId: string, state: AlertState, consecutiveFiring: nat, totalFires: nat)

  datatype Transition = NewlyFiring | StillFiring | NewlyResolved | StillNormal

  datatype Rule = Rule(id: string, description: string, enabled: bool)

  datatype Kind = Fired | Resolved

  datatype AlertEvent = AlertEvent(rule: Rule, kind: Kind)

  /** A rule with the value of its condition in one pass. */
  datatype Check = Check(rule: Rule, fires: bool)

  // ── One tracker ────────────────────────────────────────────────────────────

  function Fresh(id: string): Tracker {
    Tracker(id, Normal, 0, 0)
  }

  function Next(t: Tracker, fires: bool): Tracker {
    match (t.state, fires)
    case (Normal, true) => t.(state := Firing, consecutiveFiring := 1, totalFires := t.totalFires + 1)
    case (Firing, true) => t.(consecutiveFiring := t.consecutiveFiring + 1)
    case (Firing, false) => t.(state := Normal, consecutiveFiring := 0)
    case (Normal, false) => t
  }

  function TransitionOf(state: AlertState, fires: bool): Transition {
    match (state, fires)
    case (Normal, true) => NewlyFiring
    case (Firing, true) => StillFiring
    case (Firing, false) => NewlyResolved
    case (Normal, false) => StillNormal
  }

  /** The event of a transition, if it has one. */
  function KindsOf(t: Transition): seq<Kind> {
    match t
    case NewlyFiring => [Fired]
    case NewlyResolved => [Resolved]
    case _ => []
  }

  // ── One list of trackers ───────────────────────────────────────────────────

  function Position(ts: seq<Tracker>, id: string): (i: nat)
    ensures i <= |ts|
    ensures i < |ts| ==> ts[i].ruleId == id
    ensures forall k :: 0 <= k < i ==> ts[k].ruleId != id
  {
    if ts == [] || ts[0].ruleId == id then 0 else 1 + Position(ts[1..], id)
  }

  /** The list after one rule of a pass. */
  function AfterCheck(ts: seq<Tracker>, c: Check): seq<Tracker> {
    if !c.rule.enabled then ts
    else
      var pos := Position(ts, c.rule.id);
      var us := if pos == |ts| then ts + [Fresh(c.rule.id)] else ts;
      us[pos := Next(us[pos], c.fires)]
  }

  function StateOf(ts: seq<Tracker>, id: string): AlertState {
    var pos := Position(ts, id);
    if pos == |ts| then Normal else ts[pos].state
  }

  function EventsOf(ts: seq<Tracker>, c: Check): seq<AlertEvent> {
    if !c.rule.enabled then []
    else
      match TransitionOf(StateOf(ts, c.rule.id), c.fires)
      case NewlyFiring => [AlertEvent(c.rule, Fired)]
      case NewlyResolved => [AlertEvent(c.rule, Resolved)]
      case _ => []
  }

  function AfterPass(ts: seq<Tracker>, checks: seq<Check>): seq<Tracker> {
    if checks == [] then ts
    else AfterCheck(AfterPass(ts, checks[..|checks| - 1]), checks[|checks| - 1])
  }

  function PassEvents(ts: seq<Tracker>, checks: seq<Check>): seq<AlertEvent> {
    if checks == [] then []
    else
      var n := |checks| - 1;
      PassEvents(ts, checks[..n]) + EventsOf(AfterPass(ts, checks[..n]), checks[n])
  }

  class TrackerList {
    var trackers: seq<Tracker>

    constructor ()
      ensures trackers == []
    {
      trackers := [];
    }

    /** `advance` on the tracker at `pos`. */
    method Advance(pos: nat, fires: bool) returns (t: Transition)
      requires pos < |trackers|
      modifies this
      ensures trackers == old(trackers)[pos := Next(old(trackers)[pos], fires)]
      ensures t == TransitionOf(old(trackers)[pos].state, fires)
    {
      var x := trackers[pos];
      match (x.state, fires)
      case (Normal, true) =>
        trackers := trackers[pos := x.(state := Firing, consecutiveFiring := 1, totalFires := x.totalFires + 1)];
        return NewlyFiring;
      case (Firing, true) =>
        trackers := trackers[pos := x.(consecutiveFiring := x.consecutiveFiring + 1)];
        return StillFiring;
      case (Firing, false) =>
        trackers := trackers[pos := x.(state := Normal, consecutiveFiring := 0)];
        return NewlyResolved;
      case (Normal, false) =>
        return StillNormal;
    }

    /** `evaluate` */
    method Evaluate(checks: seq<Check>) returns (events: seq<AlertEvent>)
      modifies this
      ensures trackers == AfterPass(old(trackers), checks)
      ensures events == PassEvents(old(trackers), checks)
    {
      events := [];
      for i := 0 to |checks|
        invariant trackers == AfterPass(old(trackers), checks[..i])
        invariant events == PassEvents(old(trackers), checks[..i])
      {
        var c := checks[i];
        assert checks[..i + 1][..i] == checks[..i];
        if c.rule.enabled {
          var pos := Position(trackers, c.rule.id);
          if pos == |trackers| {
            trackers := trackers + [Fresh(c.rule.id)];
          }
          var t := Advance(pos, c.fires);
          match t {
            case NewlyFiring => events := events + [AlertEvent(c.rule, Fired)];
            case NewlyResolved => events := events + [AlertEvent(c.rule, Resolved)];
            case _ =>
          }
        }
      }
      assert checks[..|checks|] == checks;
    }
  }

  // ── The registry ───────────────────────────────────────────────────────────

  /** The trackers of every other rule, in order. */
  function Without(ts: seq<Tracker>, id: string): seq<Tracker> {
    if ts == [] then []
    else (if ts[0].ruleId == id then [] else [ts[0]]) + Without(ts[1..], id)
  }

  datatype RegistryError = AlreadyExists(id: string) | NotFound(id: string)

  class Registry {
    var rules: map<string, Rule>
    var trackers: seq<Tracker>

    ghost predicate Valid()
      reads this
    {
      forall id :: id in rules ==> rules[id].id == id
    }

    constructor ()
      ensures Valid() && rules == map[] && trackers == []
    {
      rules, trackers := map[], [];
    }

    method Add(rule: Rule) returns (error: Option<RegistryError>)
      requires Valid()
      modifies this`rules
      ensures Valid()
      ensures rule.id in old(rules) ==> error == Some(AlreadyExists(rule.id)) && rules == old(rules)
      ensures rule.id !in old(rules) ==> error == None && rules == old(rules)[rule.id := rule]
    {
      if rule.id in rules {
        return Some(AlreadyExists(rule.id));
      }
      rules := rules[rule.id := rule];
      return None;
    }

    /** Removing a rule forgets its tracker too. */
    method Remove(id: string) returns (removed: Option<Rule>)
      requires Valid()
      modifies this
      ensures Valid()
      ensures id in old(rules) ==>
                removed == Some(old(rules)[id]) && rules == old(rules) - {id} && trackers == Without(old(trackers), id)
      ensures id !in old(rules) ==> removed == None && rules == old(rules) && trackers == old(trackers)
    {
      if id !in rules {
        return None;
      }
      removed := Some(rules[id]);
      rules := rules - {id};
      var kept := [];
      for i := 0 to |trackers|
        invariant trackers == old(trackers) && rules == old(rules) - {id}
        invariant kept == Without(trackers[..i], id)
      {
        assert trackers[..i + 1] == trackers[..i] + [trackers[i]];
        WithoutSnoc(trackers[..i], trackers[i], id);
        if trackers[i].ruleId != id {
          kept := kept + [trackers[i]];
        }
      }
      assert trackers[..|trackers|] == trackers;
      trackers := kept;
    }

    method SetEnabled(id: string, enabled: bool) returns (ok: bool)
      requires Valid()
      modifies this`rules
      ensures Valid() && ok == (id in old(rules))
      ensures rules == if ok then old(rules)[id := old(rules)[id].(enabled := enabled)] else old(rules)
    {
      if id !in rules {
        return false;
      }
      rules := rules[id := rules[id].(enabled := enabled)];
      return true;
    }

    /** `list`: the rules in the order of their ids. */
    method List() returns (list: seq<Rule>)
      requires Valid()
      ensures IsListing(rules, list)
    {
      list := [];
      var left := rules.Keys;
      while left != {}
        invariant left <= rules.Keys && SortedById(list)
        invariant forall r :: r in list <==> r.id in rules && r.id !in left && rules[r.id] == r
        decreases |left|
      {
        var id :| id in left;
        InsertRuleSorts(rules[id], list);
        list := InsertRule(rules[id], list);
        left := left - {id};
      }
    }

    method UpdateTrackers(ts: seq<Tracker>)
      modifies this`trackers
      ensures trackers == ts
    {
      trackers := ts;
    }
  }

  lemma {:induction false} WithoutSnoc(ts: seq<Tracker>, t: Tracker, id: string)
    ensures Without(ts + [t], id) == Without(ts, id) + if t.ruleId == id then [] else [t]
  {
    var whole := ts + [t];
    if ts == [] {
      assert whole == [t] && whole[1..] == [];
    } else {
      assert whole[0] == ts[0] && whole[1..] == ts[1..] + [t];
      WithoutSnoc(ts[1..], t, id);
      var head, last := if ts[0].ruleId == id then [] else [ts[0]], if t.ruleId == id then [] else [t];
      assert Without(whole, id) == head + Without(whole[1..], id);
      assert head + (Without(ts[1..], id) + last) == (head + Without(ts[1..], id)) + last;
    }
  }

  // ── Whole runs ─────────────────────────────────────────────────────────────

  /** What happens to the tracker list: a rule is checked in a pass, or a rule is removed. */
  datatype Act = Checked(check: Check) | Removed(id: string)

  function Run(h: seq<Act>): seq<Tracker> {
    if h == [] then []
    else
      var ts := Run(h[..|h| - 1]);
      match h[|h| - 1]
      case Checked(c) => AfterCheck(ts, c)
      case Removed(id) => Without(ts, id)
  }

  /** The kinds of one rule's events since the rule was last removed. */
  function KindsSince(h: seq<Act>, id: string): seq<Kind> {
    if h == [] then []
    else
      var init := h[..|h| - 1];
      match h[|h| - 1]
      case Checked(c) => KindsSince(init, id) + KindsFor(EventsOf(Run(init), c), id)
      case Removed(r) => if r == id then [] else KindsSince(init, id)
  }

  function KindsFor(events: seq<AlertEvent>, id: string): seq<Kind> {
    if events == [] then []
    else KindsFor(events[..|events| - 1], id) +
         if events[|events| - 1].rule.id == id then [events[|events| - 1].kind] else []
  }

  /** One rule's own signal: its conditions over the passes where it was enabled, since it was last removed. */
  function Signal(h: seq<Act>, id: string): seq<bool> {
    if h == [] then []
    else
      var init := h[..|h| - 1];
      match h[|h| - 1]
      case Checked(c) => if c.rule.enabled && c.rule.id == id then Signal(init, id) + [c.fires] else Signal(init, id)
      case Removed(r) => if r == id then [] else Signal(init, id)
  }

  /** A tracker run alone on a signal. */
  function Alone(id: string, signal: seq<bool>): (t: Tracker)
    ensures t.ruleId == id
  {
    if signal == [] then Fresh(id) else Next(Alone(id, signal[..|signal| - 1]), signal[|signal| - 1])
  }

  function AloneKinds(id: string, signal: seq<bool>): seq<Kind> {
    if signal == [] then []
    else
      var n := |signal| - 1;
      AloneKinds(id, signal[..n]) + KindsOf(TransitionOf(Alone(id, signal[..n]).state, signal[n]))
  }

  function Lookup(ts: seq<Tracker>, id: string): Option<Tracker> {
    var pos := Position(ts, id);
    if pos == |ts| then None else Some(ts[pos])
  }

  lemma PositionIs(ts: seq<Tracker>, id: string, i: nat)
    requires i <= |ts| && (i < |ts| ==> ts[i].ruleId == id) && forall k :: 0 <= k < i ==> ts[k].ruleId != id
    ensures Position(ts, id) == i
  {
  }

  lemma AfterCheckLookup(ts: seq<Tracker>, c: Check, id: string)
    ensures Lookup(AfterCheck(ts, c), id) ==
            if c.rule.enabled && c.rule.id == id then
              Some(Next(if Lookup(ts, id).Some? then Lookup(ts, id).value else Fresh(id), c.fires))
            else Lookup(ts, id)
  {
    if c.rule.enabled {
      var p, q := Position(ts, c.rule.id), Position(ts, id);
      var us := AfterCheck(ts, c);
      assert forall k :: 0 <= k < |ts| ==> us[k].ruleId == ts[k].ruleId;
      if c.rule.id == id || q < |ts| {
        PositionIs(us, id, q);
      } else {
        PositionIs(us, id, |us|);
      }
    }
  }

  lemma {:induction false} WithoutLookup(ts: seq<Tracker>, gone: string, id: string)
    ensures Lookup(Without(ts, gone), id) == if gone == id then None else Lookup(ts, id)
  {
    if ts != [] {
      WithoutLookup(ts[1..], gone, id);
      var rest := Without(ts[1..], gone);
      LookupCons(ts[0], ts[1..], id);
      assert [ts[0]] + ts[1..] == ts;
      if ts[0].ruleId != gone {
        LookupCons(ts[0], rest, id);
      } else {
        assert [] + rest == rest;
      }
    }
  }

  lemma LookupCons(t: Tracker, ts: seq<Tracker>, id: string)
    ensures Lookup([t] + ts, id) == if t.ruleId == id then Some(t) else Lookup(ts, id)
  {
    assert ([t] + ts)[1..] == ts;
  }

  lemma KindsForOne(ts: seq<Tracker>, c: Check, id: string)
    ensures KindsFor(EventsOf(ts, c), id) ==
            if c.rule.enabled && c.rule.id == id then KindsOf(TransitionOf(StateOf(ts, id), c.fires)) else []
  {
    var es := EventsOf(ts, c);
    if es != [] {
      assert es[..0] == [];
    }
  }

  /**
   Over every run of passes, enablings and removals: the tracker a rule has is the one its own signal
   alone would produce, and so are its events, however the rules are interleaved.
   */
  lemma {:induction false} RuleRunsAlone(h: seq<Act>, id: string)
    ensures Lookup(Run(h), id) == if Signal(h, id) == [] then None else Some(Alone(id, Signal(h, id)))
    ensures KindsSince(h, id) == AloneKinds(id, Signal(h, id))
  {
    if h != [] {
      var init := h[..|h| - 1];
      RuleRunsAlone(init, id);
      match h[|h| - 1]
      case Checked(c) =>
        AfterCheckLookup(Run(init), c, id);
        KindsForOne(Run(init), c, id);
        if c.rule.enabled && c.rule.id == id {
          var s := Signal(init, id);
          assert (s + [c.fires])[..|s|] == s;
        }
      case Removed(gone) => WithoutLookup(Run(init), gone, id);
    }
  }

  function Checks(checks: seq<Check>): seq<Act> {
    if checks == [] then [] else Checks(checks[..|checks| - 1]) + [Checked(checks[|checks| - 1])]
  }

  lemma {:induction false} KindsForAppend(a: seq<AlertEvent>, b: seq<AlertEvent>, id: string)
    ensures KindsFor(a + b, id) == KindsFor(a, id) + KindsFor(b, id)
  {
    if b == [] {
      assert a + b == a;
    } else {
      var n := |b| - 1;
      assert (a + b)[..|a + b| - 1] == a + b[..n];
      KindsForAppend(a, b[..n], id);
    }
  }

  lemma CheckExtendsRun(h: seq<Act>, c: Check, id: string)
    ensures Run(h + [Checked(c)]) == AfterCheck(Run(h), c)
    ensures KindsSince(h + [Checked(c)], id) == KindsSince(h, id) + KindsFor(EventsOf(Run(h), c), id)
  {
    assert (h + [Checked(c)])[..|h|] == h;
  }

  lemma {:induction false} PassExtendsTrackers(h: seq<Act>, checks: seq<Check>)
    ensures Run(h + Checks(checks)) == AfterPass(Run(h), checks)
  {
    if checks == [] {
      assert h + [] == h;
    } else {
      var init, c := checks[..|checks| - 1], checks[|checks| - 1];
      PassExtendsTrackers(h, init);
      assert h + (Checks(init) + [Checked(c)]) == h + Checks(init) + [Checked(c)];
      CheckExtendsRun(h + Checks(init), c, "");
    }
  }

  lemma CheckExtendsKinds(before: seq<Kind>, h: seq<Act>, es: seq<AlertEvent>, c: Check, id: string)
    requires KindsSince(h, id) == before + KindsFor(es, id)
    ensures KindsSince(h + [Checked(c)], id) == before + KindsFor(es + EventsOf(Run(h), c), id)
  {
    var more := EventsOf(Run(h), c);
    CheckExtendsRun(h, c, id);
    KindsForAppend(es, more, id);
    assert before + KindsFor(es, id) + KindsFor(more, id) == before + (KindsFor(es, id) + KindsFor(more, id));
  }

  /** A pass extends the history by its checks, and publishes those events and no others. */
  lemma {:induction false} PassExtendsRun(h: seq<Act>, checks: seq<Check>, id: string)
    ensures Run(h + Checks(checks)) == AfterPass(Run(h), checks)
    ensures KindsSince(h + Checks(checks), id) == KindsSince(h, id) + KindsFor(PassEvents(Run(h), checks), id)
  {
    PassExtendsTrackers(h, checks);
    if checks == [] {
      assert h + [] == h;
      assert KindsSince(h, id) + [] == KindsSince(h, id);
    } else {
      var init, c := checks[..|checks| - 1], checks[|checks| - 1];
      assert checks == init + [c];
      PassExtendsRun(h, init, id);
      PassStep(h, init, c, id);
    }
  }

  lemma PassStep(h: seq<Act>, init: seq<Check>, c: Check, id: string)
    requires Run(h + Checks(init)) == AfterPass(Run(h), init)
    requires KindsSince(h + Checks(init), id) == KindsSince(h, id) + KindsFor(PassEvents(Run(h), init), id)
    ensures KindsSince(h + Checks(init + [c]), id) == KindsSince(h, id) + KindsFor(PassEvents(Run(h), init + [c]), id)
  {
    PassEventsSnoc(Run(h), init, c);
    ChecksSnoc(h, init, c);
    CheckExtendsKinds(KindsSince(h, id), h + Checks(init), PassEvents(Run(h), init), c, id);
  }

  lemma ChecksSnoc(h: seq<Act>, init: seq<Check>, c: Check)
    ensures h + Checks(init + [c]) == h + Checks(init) + [Checked(c)]
  {
    assert (init + [c])[..|init|] == init;
  }

  lemma PassEventsSnoc(ts: seq<Tracker>, init: seq<Check>, c: Check)
    ensures PassEvents(ts, init + [c]) == PassEvents(ts, init) + EventsOf(AfterPass(ts, init), c)
  {
    assert (init + [c])[..|init|] == init;
  }

  // ── A pass over the registry ───────────────────────────────────────────────

  /** The checks of a pass: every rule with the value of its condition. */
  function ChecksOf(rules: seq<Rule>, fires: Rule -> bool): seq<Check> {
    if rules == [] then []
    else
      var last := rules[|rules| - 1];
      ChecksOf(rules[..|rules| - 1], fires) + [Check(last, fires(last))]
  }

  /** A rule's own value in a pass, if it is registered and enabled. */
  function OwnSignal(rules: map<string, Rule>, fires: Rule -> bool, id: string): seq<bool> {
    if id in rules && rules[id].enabled then [fires(rules[id])] else []
  }

  ghost predicate SortedById(list: seq<Rule>) {
    forall i, j :: 0 <= i < j < |list| ==> Before(list[i].id, list[j].id)
  }

  /** The registered rules, each once, in the order of their ids. */
  ghost predicate IsListing(rules: map<string, Rule>, list: seq<Rule>) {
    SortedById(list) && forall r :: r in list <==> r.id in rules && rules[r.id] == r
  }

  function InsertRule(r: Rule, list: seq<Rule>): seq<Rule> {
    if list == [] || Before(r.id, list[0].id) then [r] + list else [list[0]] + InsertRule(r, list[1..])
  }

  lemma {:induction false} InsertRuleSorts(r: Rule, list: seq<Rule>)
    requires SortedById(list) && forall q :: q in list ==> q.id != r.id
    ensures SortedById(InsertRule(r, list))
    ensures forall q :: q in InsertRule(r, list) <==> q == r || q in list
  {
    if list != [] {
      BeforeTotal(r.id, list[0].id);
      assert list[0] in list && list == [list[0]] + list[1..];
      if Before(r.id, list[0].id) {
        forall k | 0 < k < |list| ensures Before(r.id, list[k].id) {
          BeforeTransitive(r.id, list[0].id, list[k].id);
        }
      } else {
        var rest := InsertRule(r, list[1..]);
        InsertRuleSorts(r, list[1..]);
        forall k | 0 <= k < |rest| ensures Before(list[0].id, rest[k].id) {
          assert rest[k] in rest;
        }
      }
    }
  }

  /** The values of a rule's condition in a list of rules. */
  function ListSignal(list: seq<Rule>, fires: Rule -> bool, id: string): seq<bool> {
    if list == [] then []
    else
      var before, r := ListSignal(list[..|list| - 1], fires, id), list[|list| - 1];
      if r.enabled && r.id == id then before + [fires(r)] else before
  }

  lemma {:induction false} SignalOfChecks(h: seq<Act>, list: seq<Rule>, fires: Rule -> bool, id: string)
    ensures Signal(h + Checks(ChecksOf(list, fires)), id) == Signal(h, id) + ListSignal(list, fires, id)
  {
    if list == [] {
      assert h + [] == h;
      assert Signal(h, id) + [] == Signal(h, id);
    } else {
      var init, last := list[..|list| - 1], list[|list| - 1];
      SignalOfChecks(h, init, fires, id);
      CheckExtendsSignal(h, ChecksOf(init, fires), Check(last, fires(last)), id);
    }
  }

  lemma {:induction false} AbsentIsSilent(list: seq<Rule>, fires: Rule -> bool, id: string)
    requires forall r :: r in list ==> r.id != id
    ensures ListSignal(list, fires, id) == []
  {
    if list != [] {
      AbsentIsSilent(list[..|list| - 1], fires, id);
    }
  }

  /** In a sorted list a rule is seen once. */
  lemma {:induction false} ListedOnce(list: seq<Rule>, fires: Rule -> bool, r: Rule)
    requires SortedById(list) && r in list
    ensures ListSignal(list, fires, r.id) == if r.enabled then [fires(r)] else []
  {
    var init, last := list[..|list| - 1], list[|list| - 1];
    assert list == init + [last];
    OneRulePerId(init, last, r);
    if r.id == last.id {
      AbsentIsSilent(init, fires, r.id);
    } else {
      ListedOnce(init, fires, r);
    }
  }

  lemma CheckExtendsSignal(h: seq<Act>, init: seq<Check>, c: Check, id: string)
    ensures Signal(h + Checks(init + [c]), id) ==
            Signal(h + Checks(init), id) + if c.rule.enabled && c.rule.id == id then [c.fires] else []
  {
    assert (init + [c])[..|init|] == init;
    var before, whole := h + Checks(init), h + Checks(init + [c]);
    assert whole == before + [Checked(c)] && whole[..|whole| - 1] == before;
  }

  /** In a sorted list the last rule's id is nobody else's. */
  lemma OneRulePerId(init: seq<Rule>, last: Rule, r: Rule)
    requires SortedById(init + [last]) && r in init + [last]
    ensures SortedById(init)
    ensures if r.id == last.id then r == last && (forall q :: q in init ==> q.id != r.id) else r in init
  {
    var list := init + [last];
    forall k | 0 <= k < |init| ensures init[k].id != last.id {
      assert Before(list[k].id, list[|init|].id);
      BeforeTotal(last.id, last.id);
    }
    assert forall i :: 0 <= i < |init| ==> init[i] == list[i];
  }

  /**
   A pass over the registry: its rules in order, the trackers stored back. The trackers stay those of
   the whole history, the events are what the history gains, and each registered and enabled rule sees
   its own condition exactly once.
   */
  method RunPass(registry: Registry, fires: Rule -> bool, ghost h: seq<Act>)
    returns (events: seq<AlertEvent>, ghost g: seq<Act>)
    requires registry.Valid() && registry.trackers == Run(h)
    modifies registry`trackers
    ensures registry.Valid() && registry.trackers == Run(g) && h <= g
    ensures forall id :: KindsSince(g, id) == KindsSince(h, id) + KindsFor(events, id)
    ensures forall id :: Signal(g, id) == Signal(h, id) + OwnSignal(registry.rules, fires, id)
  {
    var rules := registry.List();
    var checks := [];
    for i := 0 to |rules|
      invariant checks == ChecksOf(rules[..i], fires)
    {
      assert rules[..i + 1][..i] == rules[..i];
      checks := checks + [Check(rules[i], fires(rules[i]))];
    }
    assert rules[..|rules|] == rules;
    g := h + Checks(checks);
    var list := new TrackerList();
    list.trackers := registry.trackers;
    events := list.Evaluate(checks);
    registry.UpdateTrackers(list.trackers);
    PassExtendsRun(h, checks, "");
    PassMeaning(registry.rules, rules, fires, h, checks, events);
  }

  lemma PassMeaning(rules: map<string, Rule>, list: seq<Rule>, fires: Rule -> bool, h: seq<Act>, checks: seq<Check>,
                    events: seq<AlertEvent>)
    requires IsListing(rules, list) && (forall id :: id in rules ==> rules[id].id == id)
    requires checks == ChecksOf(list, fires) && events == PassEvents(Run(h), checks)
    ensures forall id :: KindsSince(h + Checks(checks), id) == KindsSince(h, id) + KindsFor(events, id)
    ensures forall id :: Signal(h + Checks(checks), id) == Signal(h, id) + OwnSignal(rules, fires, id)
  {
    forall id ensures KindsSince(h + Checks(checks), id) == KindsSince(h, id) + KindsFor(events, id) {
      PassExtendsRun(h, checks, id);
    }
    forall id ensures Signal(h + Checks(checks), id) == Signal(h, id) + OwnSignal(rules, fires, id) {
      SignalOfChecks(h, list, fires, id);
      if id in rules {
        ListedOnce(list, fires, rules[id]);
      } else {
        AbsentIsSilent(list, fires, id);
      }
    }
  }

  ghost predicate DistinctIds(ts: seq<Tracker>) {
    forall i, j :: 0 <= i < j < |ts| ==> ts[i].ruleId != ts[j].ruleId
  }

  lemma {:induction false} WithoutIds(ts: seq<Tracker>, id: string)
    ensures DistinctIds(ts) ==> DistinctIds(Without(ts, id))
    ensures forall t :: t in Without(ts, id) ==> t in ts
  {
    if ts != [] {
      WithoutIds(ts[1..], id);
      var rest := Without(ts[1..], id);
      if DistinctIds(ts) {
        forall k | 0 <= k < |rest| ensures rest[k].ruleId != ts[0].ruleId {
          assert rest[k] in ts[1..];
        }
      }
      if ts[0].ruleId == id {
        assert Without(ts, id) == rest;
      }
    }
  }

  /** Tracker ids stay distinct in every run. */
  lemma {:induction false} IdsStayDistinct(h: seq<Act>)
    ensures DistinctIds(Run(h))
  {
    if h != [] {
      var ts := Run(h[..|h| - 1]);
      IdsStayDistinct(h[..|h| - 1]);
      match h[|h| - 1]
      case Checked(c) =>
        var p := Position(ts, c.rule.id);
      case Removed(id) => WithoutIds(ts, id);
    }
  }

  // ── What a tracker alone does ──────────────────────────────────────────────

  /** How many times the signal turns true. */
  function Rises(s: seq<bool>): nat {
    if s == [] then 0
    else
      var n := |s| - 1;
      Rises(s[..n]) + if s[n] && (n == 0 || !s[n - 1]) then 1 else 0
  }

  /** The length of the run of true at the end. */
  function TrailingRun(s: seq<bool>): nat {
    if s == [] || !s[|s| - 1] then 0 else 1 + TrailingRun(s[..|s| - 1])
  }

  predicate Alternates(kinds: seq<Kind>) {
    forall i :: 0 <= i < |kinds| ==> kinds[i] == if i % 2 == 0 then Fired else Resolved
  }

  function CountFired(kinds: seq<Kind>): nat {
    if kinds == [] then 0
    else CountFired(kinds[..|kinds| - 1]) + if kinds[|kinds| - 1].Fired? then 1 else 0
  }

  lemma CountFiredSnoc(kinds: seq<Kind>, k: Kind)
    ensures CountFired(kinds + [k]) == CountFired(kinds) + if k.Fired? then 1 else 0
  {
    assert (kinds + [k])[..|kinds|] == kinds;
  }

  lemma {:induction false} AloneCounts(id: string, s: seq<bool>)
    ensures var t := Alone(id, s);
            && (t.state == Firing <==> s != [] && s[|s| - 1])
            && t.consecutiveFiring == TrailingRun(s)
            && t.totalFires == Rises(s)
  {
    if s != [] {
      var n := |s| - 1;
      AloneCounts(id, s[..n]);
      assert n > 0 ==> s[..n][n - 1] == s[n - 1];
    }
  }

  /** One step of a tracker, whatever its events were before: they go on alternating. */
  lemma StepAlternates(t: Tracker, fires: bool, before: seq<Kind>)
    requires Alternates(before) && (|before| % 2 == 1 <==> t.state == Firing)
    ensures var u, kinds := Next(t, fires), before + KindsOf(TransitionOf(t.state, fires));
            && Alternates(kinds)
            && (|kinds| % 2 == 1 <==> u.state == Firing)
            && CountFired(kinds) - CountFired(before) == u.totalFires - t.totalFires
  {
    match TransitionOf(t.state, fires)
    case NewlyFiring => CountFiredSnoc(before, Fired);
    case NewlyResolved => CountFiredSnoc(before, Resolved);
    case _ => assert before + [] == before;
  }

  lemma {:induction false} AloneAlternates(id: string, s: seq<bool>)
    ensures Alternates(AloneKinds(id, s))
    ensures |AloneKinds(id, s)| % 2 == 1 <==> Alone(id, s).state == Firing
    ensures CountFired(AloneKinds(id, s)) == Alone(id, s).totalFires
  {
    if s != [] {
      var n := |s| - 1;
      AloneAlternates(id, s[..n]);
      StepAlternates(Alone(id, s[..n]), s[n], AloneKinds(id, s[..n]));
    }
  }

  /**
   For every signal: the tracker fires exactly while the signal is true, counts the current run and
   the rises, and its events alternate Fired, Resolved, starting with Fired.
   */
  lemma AloneIsEdgeDetector(id: string, s: seq<bool>)
    ensures var t, kinds := Alone(id, s), AloneKinds(id, s);
            && (t.state == Firing <==> s != [] && s[|s| - 1])
            && t.consecutiveFiring == TrailingRun(s)
            && t.totalFires == Rises(s) == CountFired(kinds)
            && Alternates(kinds)
            && (|kinds| % 2 == 1 <==> t.state == Firing)
  {
    AloneCounts(id, s);
    AloneAlternates(id, s);
  }

  /** Both together, for a rule in a run of many. */
  lemma RuleBehaviour(h: seq<Act>, id: string)
    ensures Alternates(KindsSince(h, id))
    ensures Lookup(Run(h), id).Some? ==>
              var t := Lookup(Run(h), id).value;
              && t.totalFires == CountFired(KindsSince(h, id))
              && t.consecutiveFiring == TrailingRun(Signal(h, id))
  {
    RuleRunsAlone(h, id);
    AloneIsEdgeDetector(id, Signal(h, id));
  }

  // ── The whole run, removals included ───────────────────────────────────────

  /** The kinds of all of a rule's events, whether or not it was removed in between. */
  function AllKinds(h: seq<Act>, id: string): seq<Kind> {
    if h == [] then []
    else
      var init, a := h[..|h| - 1], h[|h| - 1];
      if a.Checked? then AllKinds(init, id) + KindsFor(EventsOf(Run(init), a.check), id) else AllKinds(init, id)
  }

  /** Step `i` removes the rule while its tracker is firing. */
  predicate RemovesFiring(h: seq<Act>, i: nat, id: string)
    requires i < |h|
  {
    h[i] == Removed(id) && StateOf(Run(h[..i]), id) == Firing
  }

  /** Step `j` publishes Fired for the rule. */
  predicate FiresAt(h: seq<Act>, j: nat, id: string)
    requires j < |h|
  {
    h[j].Checked? && KindsFor(EventsOf(Run(h[..j]), h[j].check), id) == [Fired]
  }

  /** The rule was removed while firing, and fired again later. */
  ghost predicate CutShort(h: seq<Act>, id: string) {
    exists i, j :: 0 <= i < j < |h| && RemovesFiring(h, i, id) && FiresAt(h, j, id)
  }

  ghost predicate WasCut(h: seq<Act>, id: string) {
    exists i :: 0 <= i < |h| && RemovesFiring(h, i, id)
  }

  lemma CutShortSnoc(h: seq<Act>, a: Act, id: string)
    ensures WasCut(h + [a], id) <==> WasCut(h, id) || RemovesFiring(h + [a], |h|, id)
    ensures CutShort(h + [a], id) <==> CutShort(h, id) || (WasCut(h, id) && FiresAt(h + [a], |h|, id))
  {
    var g := h + [a];
    assert forall i :: 0 <= i < |h| ==> g[i] == h[i] && g[..i] == h[..i];
    assert forall i :: 0 <= i < |h| ==> (RemovesFiring(g, i, id) <==> RemovesFiring(h, i, id));
    assert forall i :: 0 <= i < |h| ==> (FiresAt(g, i, id) <==> FiresAt(h, i, id));
  }

  /** What one step does to a rule's state and events. */
  lemma StepOfRule(h: seq<Act>, a: Act, id: string)
    ensures var s, own := StateOf(Run(h), id), a.Checked? && a.check.rule.enabled && a.check.rule.id == id;
            && AllKinds(h + [a], id) == AllKinds(h, id) + (if own then KindsOf(TransitionOf(s, a.check.fires)) else [])
            && StateOf(Run(h + [a]), id) ==
               (if own then if a.check.fires then Firing else Normal else if a == Removed(id) then Normal else s)
            && (FiresAt(h + [a], |h|, id) <==> own && KindsOf(TransitionOf(s, a.check.fires)) == [Fired])
            && (RemovesFiring(h + [a], |h|, id) <==> a == Removed(id) && s == Firing)
  {
    var g := h + [a];
    assert g[..|h|] == h;
    match a
    case Checked(c) =>
      AfterCheckLookup(Run(h), c, id);
      KindsForOne(Run(h), c, id);
    case Removed(gone) =>
      WithoutLookup(Run(h), gone, id);
      assert AllKinds(h, id) + [] == AllKinds(h, id);
  }

  /** How a rule's events stand with its state: in step, or left open by a removal, or broken. */
  predicate InStep(kinds: seq<Kind>, s: AlertState, cut: bool, short: bool) {
    if short then !Alternates(kinds)
    else Alternates(kinds) && if cut then |kinds| % 2 == 1 && s == Normal else (|kinds| % 2 == 1 <==> s == Firing)
  }

  lemma KeepsInStep(kinds: seq<Kind>, s: AlertState, cut: bool, short: bool, fires: bool)
    requires InStep(kinds, s, cut, short)
    ensures var more := KindsOf(TransitionOf(s, fires));
            InStep(kinds + more, if fires then Firing else Normal, cut, short || (cut && more == [Fired]))
  {
    var more := KindsOf(TransitionOf(s, fires));
    if short {
      assert forall i :: 0 <= i < |kinds| ==> kinds[i] == (kinds + more)[i];
    } else if more == [] {
      assert kinds + more == kinds;
    } else {
      assert (kinds + more)[|kinds|] == more[0];
    }
  }

  lemma {:induction false} AlwaysInStep(h: seq<Act>, id: string)
    ensures InStep(AllKinds(h, id), StateOf(Run(h), id), WasCut(h, id), CutShort(h, id))
  {
    if h != [] {
      var init, a := h[..|h| - 1], h[|h| - 1];
      assert h == init + [a];
      AlwaysInStep(init, id);
      CutShortSnoc(init, a, id);
      StepOfRule(init, a, id);
      var kinds, s := AllKinds(init, id), StateOf(Run(init), id);
      if a.Checked? && a.check.rule.enabled && a.check.rule.id == id {
        KeepsInStep(kinds, s, WasCut(init, id), CutShort(init, id), a.check.fires);
      } else {
        assert kinds + [] == kinds;
      }
    }
  }

  /**
   Over a whole run with removals, a rule's events alternate if and only if it never fired again after
   being removed while firing, which shows in its tracker before the removal.
   */
  lemma AlternatesIff(h: seq<Act>, id: string)
    ensures Alternates(AllKinds(h, id)) <==> !CutShort(h, id)
  {
    AlwaysInStep(h, id);
  }

  /** A firing rule that is removed, added again and fires: two Fired in a row. */
  lemma RemovalRepeatsFired(rule: Rule)
    requires rule.enabled
    ensures var fire := Checked(Check(rule, true));
            AllKinds([fire, Removed(rule.id), fire], rule.id) == [Fired, Fired]
  {
    var fire, gone := Checked(Check(rule, true)), Removed(rule.id);
    StepOfRule([], fire, rule.id);
    StepOfRule([fire], gone, rule.id);
    StepOfRule([fire, gone], fire, rule.id);
    assert [] + [fire] == [fire] && [fire] + [gone] == [fire, gone] && [fire, gone] + [fire] == [fire, gone, fire];
    assert AllKinds([fire], rule.id) == [] + [Fired];
  }
}
