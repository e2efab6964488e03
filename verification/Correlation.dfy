/**
 Which operator message an audit entry concerns: a bounded map from task to message, driven by the
 audit log and proved against a specification read off the log's history.
 */
module Correlation {
  import opened Text
  import opened Json
  import Events

  const MAX_TRACKED_LINKS: nat := 256

  // ── Audit entries as JSON values ───────────────────────────────────────────

  /** An externally tagged entry: the variant name and its fields (none unless an object). */
  datatype Entry = Entry(variant: string, fields: seq<Member>)

  function LeastKey(ms: seq<Member>): string
    requires ms != []
  {
    if |ms| == 1 then ms[0].key
    else
      var k := LeastKey(ms[1..]);
      if Before(k, ms[0].key) then k else ms[0].key
  }

  /** The entry of a parsed line: the first key of the object and the object under it. */
  function EntryOf(j: Json): Option<Entry> {
    if !j.Obj? || j.members == [] then None
    else
      var variant := LeastKey(j.members);
      match Get(j.members, variant)
      case Some(Obj(fields)) => Some(Entry(variant, fields))
      case _ => Some(Entry(variant, []))
  }

  function AsU64(o: Option<Json>): (r: Option<nat>)
    ensures r.Some? ==> r.value < U64_LIMIT
  {
    match o
    case Some(Num(t)) =>
      if t != "" && AllDigits(t, 10) && Numeral(t, 10) < U64_LIMIT then Some(Numeral(t, 10)) else None
    case _ => None
  }

  function AsStr(o: Option<Json>): Option<string> {
    match o case Some(Str(s)) => Some(s) case _ => None
  }

  function StrField(e: Entry, key: string): string {
    match AsStr(Get(e.fields, key)) case Some(s) => s case None => ""
  }

  function NatField(e: Entry, key: string): (r: nat)
    ensures r < U64_LIMIT
  {
    match AsU64(Get(e.fields, key)) case Some(n) => n case None => 0
  }

  function BoolField(e: Entry, key: string): bool {
    match Get(e.fields, key) case Some(Bool(b)) => b case _ => false
  }

  function FloatField(e: Entry, key: string): Events.Float {
    match Get(e.fields, key)
    case Some(Num(t)) => if IsNumber(t) then Events.Finite(t) else Events.Finite("0")
    case _ => Events.Finite("0")
  }

  // ── From entries to events ─────────────────────────────────────────────────

  /**
   What the operator is shown. `Notice` stands for the state, question and audit renderings, which
   depend on their own entry alone and carry no message id.
   */
  datatype Shown = Event(event: Events.Event) | Notice(entry: Entry)

  /** `event_from_audit_value`: no message id yet. */
  function EventOf(e: Entry): Shown {
    if e.variant == "TaskStarted" then
      Event(Events.TaskStarted(NatField(e, "task_id"), None, StrField(e, "prompt")))
    else if e.variant == "TaskCompleted" then
      Event(Events.AgentMessage(
              NatField(e, "task_id"), None, NatField(e, "tokens_emitted") % U32_LIMIT, StrField(e, "response")))
    else if e.variant == "TaskFailed" then
      Event(Events.Audit(
              "TaskFailed", "task " + Decimal(NatField(e, "task_id")) + " failed: " + StrField(e, "error"), None))
    else if e.variant == "GateDecision" then
      Event(Events.Gate(
              None, BoolField(e, "invoke"), AsStr(Get(e.fields, "cost_class")), FloatField(e, "value_score"),
              FloatField(e, "threshold_applied"), BoolField(e, "override_active"), StrField(e, "reasoning")))
    else if e.variant == "InteroceptiveSnapshot" then
      Event(Events.Vitals(
              FloatField(e, "thermal_load"), FloatField(e, "compute_pressure"), FloatField(e, "memory_pressure"),
              FloatField(e, "power_budget"), FloatField(e, "financial_budget"), FloatField(e, "attention_demand"),
              FloatField(e, "aggregate_stress")))
    else Notice(e)
  }

  /** The task a gate decision names: `sensory-<task>`. */
  function GateTask(e: Entry): Option<nat> {
    var id :- AsStr(Get(e.fields, "event_id"));
    if StartsWith(id, "sensory-") then ParseU64(id[8..]) else None
  }

  /** A gate decision for `sensory-` and a decimal task number names that task. */
  lemma GateNamesTask(e: Entry, task: nat)
    requires task < U64_LIMIT && AsStr(Get(e.fields, "event_id")) == Some("sensory-" + Decimal(task))
    ensures GateTask(e) == Some(task)
  {
    var id := "sensory-" + Decimal(task);
    StartsWithConcat("sensory-", Decimal(task));
    assert |"sensory-"| == 8 && id[8..] == Decimal(task);
    ParseU64Decimal(task);
  }

  /** What an entry says about correlation. */
  datatype Action =
    | Linked(task: nat, message: string)
    | Started(task: nat)
    | Replied(task: nat)
    | Failed(task: nat)
    | Gated(task: nat, invoke: bool)
    | Ignored

  function ActionOf(e: Entry): Action {
    if e.variant == "OperatorMessageLinked" then
      match (AsU64(Get(e.fields, "task_id")), AsStr(Get(e.fields, "message_id")))
      case (Some(t), Some(m)) => Linked(t, m)
      case _ => Ignored
    else if e.variant == "TaskStarted" then Started(NatField(e, "task_id"))
    else if e.variant == "TaskCompleted" then Replied(NatField(e, "task_id"))
    else if e.variant == "TaskFailed" then
      match AsU64(Get(e.fields, "task_id")) case Some(t) => Failed(t) case None => Ignored
    else if e.variant == "GateDecision" then
      match GateTask(e) case Some(t) => Gated(t, BoolField(e, "invoke")) case None => Ignored
    else Ignored
  }

  function WithMessage(s: Shown, id: Option<string>): Shown {
    match s
    case Event(e) =>
      if e.TaskStarted? || e.AgentMessage? || e.Audit? || e.Gate? then Event(e.(messageId := id)) else s
    case Notice(_) => s
  }

  // ── One step ───────────────────────────────────────────────────────────────

  type Links = map<nat, string>

  ghost predicate IsLeast(s: set<nat>, r: nat) {
    r in s && forall k :: k in s ==> r <= k
  }

  lemma LeastExists(s: set<nat>)
    requires s != {}
    ensures exists r :: IsLeast(s, r)
  {
    var x :| x in s;
    var rest := s - {x};
    assert forall k :: k in s ==> k == x || k in rest;
    if rest == {} {
      assert IsLeast(s, x);
    } else {
      LeastExists(rest);
      var y :| IsLeast(rest, y);
      assert IsLeast(s, if x <= y then x else y);
    }
  }

  function Least(s: set<nat>): (r: nat)
    requires s != {}
    ensures r in s && forall k :: k in s ==> r <= k
  {
    LeastExists(s);
    var r :| r in s && forall k :: k in s ==> r <= k;
    r
  }

  /** The map after an entry; a full map first drops its lowest task. */
  function Apply(links: Links, a: Action): Links {
    match a
    case Linked(t, m) =>
      (if |links| >= MAX_TRACKED_LINKS && links.Keys != {} then links - {Least(links.Keys)} else links)[t := m]
    case Replied(t) => links - {t}
    case Failed(t) => links - {t}
    case Gated(t, invoke) => if invoke then links else links - {t}
    case Started(_) => links
    case Ignored => links
  }

  function TaskOf(a: Action): Option<nat> {
    match a
    case Linked(_, _) => None
    case Ignored => None
    case _ => Some(a.task)
  }

  function MessageFor(links: Links, task: nat): Option<string> {
    if task in links then Some(links[task]) else None
  }

  /** The message id an entry's event carries. */
  function Stamp(links: Links, a: Action): Option<string> {
    match TaskOf(a) case Some(t) => MessageFor(links, t) case None => None
  }

  /** The event of an entry under the links before it; link entries show nothing. */
  function ShownFor(links: Links, e: Entry): Option<Shown> {
    if e.variant == "OperatorMessageLinked" then None
    else Some(WithMessage(EventOf(e), Stamp(links, ActionOf(e))))
  }

  /** The links after a value and the event it shows; what is no entry does nothing. */
  function Translated(links: Links, value: Json): (Links, Option<Shown>) {
    match EntryOf(value)
    case None => (links, None)
    case Some(e) => (Apply(links, ActionOf(e)), ShownFor(links, e))
  }

  class CorrelationTracker {
    var links: Links

    constructor ()
      ensures links == map[]
    {
      links := map[];
    }

    method Link(task: nat, message: string)
      modifies this
      ensures links == Apply(old(links), Linked(task, message))
    {
      if |links| >= MAX_TRACKED_LINKS {
        assert links.Keys != {};
        var oldest := Least(links.Keys);
        links := links - {oldest};
      }
      links := links[task := message];
    }

    /** The part of `translate` for every entry that is not a link. */
    method Show(e: Entry) returns (event: Shown)
      requires e.variant != "OperatorMessageLinked"
      modifies this
      ensures links == Apply(old(links), ActionOf(e))
      ensures ShownFor(old(links), e) == Some(event)
    {
      var failed := if e.variant == "TaskFailed" then AsU64(Get(e.fields, "task_id")) else None;
      event := EventOf(e);
      match event {
        case Event(Audit(_, _, _)) =>
          if failed.Some? {
            event := WithMessage(event, MessageFor(links, failed.value));
          }
        case Event(TaskStarted(t, _, _)) =>
          event := WithMessage(event, MessageFor(links, t));
        case Event(AgentMessage(t, _, _, _)) =>
          event := WithMessage(event, MessageFor(links, t));
          links := links - {t};
        case Event(Gate(_, invoke, _, _, _, _, _)) =>
          var task := GateTask(e);
          if task.Some? {
            event := WithMessage(event, MessageFor(links, task.value));
            if !invoke {
              links := links - {task.value};
            }
          }
        case _ =>
      }
      if failed.Some? {
        links := links - {failed.value};
      }
    }

    /** `translate` */
    method Translate(value: Json) returns (shown: Option<Shown>)
      modifies this
      ensures (links, shown) == Translated(old(links), value)
    {
      var entry := EntryOf(value);
      if entry.None? {
        return None;
      }
      var e := entry.value;
      if e.variant == "OperatorMessageLinked" {
        var task, message := AsU64(Get(e.fields, "task_id")), AsStr(Get(e.fields, "message_id"));
        if task.None? || message.None? {
          return None;
        }
        Link(task.value, message.value);
        return None;
      }
      var event := Show(e);
      shown := Some(event);
    }
  }

  // ── Whole runs ─────────────────────────────────────────────────────────────

  /** The tracker's map after a history of entries. */
  function Tracked(h: seq<Action>): Links {
    if h == [] then map[] else Apply(Tracked(h[..|h| - 1]), h[|h| - 1])
  }

  lemma TrackedSnoc(h: seq<Action>, a: Action)
    ensures Tracked(h + [a]) == Apply(Tracked(h), a)
  {
    assert (h + [a])[..|h|] == h;
  }

  predicate Settles(a: Action, t: nat) {
    a == Replied(t) || a == Failed(t) || a == Gated(t, false)
  }

  predicate LinksTask(a: Action, t: nat) {
    a.Linked? && a.task == t
  }

  /** The specification: the message of the task's most recent link, unless the task settled since. */
  function Current(h: seq<Action>, t: nat): Option<string> {
    if h == [] then None
    else
      var a := h[|h| - 1];
      if LinksTask(a, t) then Some(a.message)
      else if Settles(a, t) then None
      else Current(h[..|h| - 1], t)
  }

  /** What `Current` means: the link stands while nothing newer concerns the task. */
  lemma {:induction false} LinkStands(h: seq<Action>, i: nat, t: nat)
    requires i < |h| && LinksTask(h[i], t)
    requires forall j :: i < j < |h| ==> !LinksTask(h[j], t) && !Settles(h[j], t)
    ensures Current(h, t) == Some(h[i].message)
  {
    if i + 1 < |h| {
      LinkStands(h[..|h| - 1], i, t);
    }
  }

  /** And only so is a message current. */
  lemma {:induction false} CurrentIsLinked(h: seq<Action>, t: nat) returns (i: nat)
    requires Current(h, t).Some?
    ensures i < |h| && h[i] == Linked(t, Current(h, t).value)
    ensures forall j :: i < j < |h| ==> !LinksTask(h[j], t) && !Settles(h[j], t)
  {
    i := |h| - 1;
    if !LinksTask(h[i], t) {
      i := CurrentIsLinked(h[..i], t);
    }
  }

  /** A settled task has no message until it is linked again. */
  lemma {:induction false} SettledStays(h: seq<Action>, i: nat, t: nat)
    requires i < |h| && Settles(h[i], t)
    requires forall j :: i < j < |h| ==> !LinksTask(h[j], t)
    ensures Current(h, t) == None
  {
    if i + 1 < |h| {
      SettledStays(h[..|h| - 1], i, t);
    }
  }

  /** Refinement: whatever the tracker holds for a task is what the history says of it. */
  lemma {:induction false} TrackedIsCurrent(h: seq<Action>, t: nat)
    ensures t in Tracked(h) ==> Current(h, t) == Some(Tracked(h)[t])
  {
    if h != [] {
      TrackedIsCurrent(h[..|h| - 1], t);
    }
  }

  /**
   Over every history: a message id stamped on a start, reply, failure or gate event is the one of
   that task's most recent link, with no settling entry since.
   */
  lemma {:induction false} StampIsSound(h: seq<Action>, a: Action)
    ensures Stamp(Tracked(h), a).Some? ==>
              TaskOf(a).Some? && Current(h, TaskOf(a).value) == Stamp(Tracked(h), a)
  {
    if TaskOf(a).Some? {
      TrackedIsCurrent(h, TaskOf(a).value);
    }
  }

  /** The map is bounded in every run. */
  lemma {:induction false} TrackedIsBounded(h: seq<Action>)
    ensures |Tracked(h)| <= MAX_TRACKED_LINKS
  {
    if h != [] {
      TrackedIsBounded(h[..|h| - 1]);
      ApplyIsBounded(Tracked(h[..|h| - 1]), h[|h| - 1]);
    }
  }

  lemma DropSize(links: Links, t: nat)
    ensures |links - {t}| == |links| - if t in links then 1 else 0
  {
    assert (links - {t}).Keys == links.Keys - {t};
    assert |links.Keys - {t}| == |links.Keys| - if t in links then 1 else 0;
  }

  lemma PutSize(links: Links, t: nat, m: string)
    ensures |links[t := m]| == |links| + if t in links then 0 else 1
  {
    assert links[t := m].Keys == links.Keys + {t};
    assert t in links ==> links.Keys + {t} == links.Keys;
  }

  lemma ApplyIsBounded(links: Links, a: Action)
    requires |links| <= MAX_TRACKED_LINKS
    ensures |Apply(links, a)| <= MAX_TRACKED_LINKS
  {
    match a
    case Linked(t, m) =>
      if |links| >= MAX_TRACKED_LINKS {
        assert links.Keys != {};
        DropSize(links, Least(links.Keys));
        PutSize(links - {Least(links.Keys)}, t, m);
      } else {
        PutSize(links, t, m);
      }
    case Replied(t) => DropSize(links, t);
    case Failed(t) => DropSize(links, t);
    case Gated(t, _) => DropSize(links, t);
    case _ =>
  }

  // ── When nothing is evicted ────────────────────────────────────────────────

  /** The map an unbounded tracker would hold: every linked, unsettled task. */
  function Unsettled(h: seq<Action>): Links {
    if h == [] then map[]
    else
      var m, a := Unsettled(h[..|h| - 1]), h[|h| - 1];
      match a
      case Linked(t, msg) => m[t := msg]
      case Replied(t) => m - {t}
      case Failed(t) => m - {t}
      case Gated(t, invoke) => if invoke then m else m - {t}
      case _ => m
  }

  lemma {:induction false} UnsettledIsCurrent(h: seq<Action>, t: nat)
    ensures MessageFor(Unsettled(h), t) == Current(h, t)
  {
    if h != [] {
      UnsettledIsCurrent(h[..|h| - 1], t);
    }
  }

  /** A link finds room, or re-links the lowest task itself. */
  ghost predicate HasRoom(m: Links, t: nat) {
    |m| < MAX_TRACKED_LINKS || (t in m && forall k :: k in m ==> t <= k)
  }

  ghost predicate AlwaysRoom(h: seq<Action>) {
    forall i :: 0 <= i < |h| && h[i].Linked? ==> HasRoom(Unsettled(h[..i]), h[i].task)
  }

  ghost predicate NeverForgets(h: seq<Action>) {
    forall i :: 0 <= i <= |h| ==> Tracked(h[..i]) == Unsettled(h[..i])
  }

  lemma StepKeepsAll(m: Links, a: Action)
    requires a.Linked? && |m| <= MAX_TRACKED_LINKS
    ensures Apply(m, a) == m[a.task := a.message] <==> HasRoom(m, a.task)
  {
    if |m| >= MAX_TRACKED_LINKS {
      assert m.Keys != {};
      var o := Least(m.Keys);
      assert o != a.task ==> o !in Apply(m, a) && o in m[a.task := a.message];
      assert o == a.task ==> (m - {o})[o := a.message] == m[o := a.message];
      assert HasRoom(m, a.task) ==> a.task <= o;
    }
  }

  lemma {:induction false} RoomMeansMemory(h: seq<Action>)
    requires AlwaysRoom(h)
    ensures Tracked(h) == Unsettled(h)
  {
    if h != [] {
      var p := h[..|h| - 1];
      assert forall i :: 0 <= i < |p| ==> h[..i] == p[..i];
      RoomMeansMemory(p);
      TrackedIsBounded(p);
      if h[|h| - 1].Linked? {
        StepKeepsAll(Unsettled(p), h[|h| - 1]);
      }
    }
  }

  lemma RoomMeansNeverForgets(h: seq<Action>)
    requires AlwaysRoom(h)
    ensures NeverForgets(h)
  {
    forall i | 0 <= i <= |h| ensures Tracked(h[..i]) == Unsettled(h[..i]) {
      assert forall k :: 0 <= k < i ==> h[..i][..k] == h[..k];
      RoomMeansMemory(h[..i]);
    }
  }

  lemma MemoryMeansRoom(h: seq<Action>, i: nat)
    requires NeverForgets(h) && i < |h| && h[i].Linked?
    ensures HasRoom(Unsettled(h[..i]), h[i].task)
  {
    assert h[..i + 1] == h[..i] + [h[i]];
    LinkSnoc(h[..i], h[i].task, h[i].message);
    TrackedIsBounded(h[..i]);
    StepKeepsAll(Unsettled(h[..i]), h[i]);
  }

  /** The tracker forgets no unsettled link in any prefix of a run exactly when every link found room. */
  lemma NeverForgetsIff(h: seq<Action>)
    ensures NeverForgets(h) <==> AlwaysRoom(h)
  {
    if AlwaysRoom(h) {
      RoomMeansNeverForgets(h);
    }
    if NeverForgets(h) {
      forall i | 0 <= i < |h| && h[i].Linked? ensures HasRoom(Unsettled(h[..i]), h[i].task) {
        MemoryMeansRoom(h, i);
      }
    }
  }

  /** Tasks 0 to n - 1 linked one after the other. */
  predicate FirstLinks(h: seq<Action>, n: nat) {
    |h| == n && forall i :: 0 <= i < n ==> h[i] == Linked(i, "a")
  }

  lemma LinkSnoc(h: seq<Action>, t: nat, m: string)
    ensures Tracked(h + [Linked(t, m)]) == Apply(Tracked(h), Linked(t, m))
    ensures Unsettled(h + [Linked(t, m)]) == Unsettled(h)[t := m]
  {
    assert (h + [Linked(t, m)])[..|h|] == h;
  }

  /** The links of tasks 0 to n - 1, and no others. */
  ghost predicate LinksBelow(m: Links, n: nat) {
    |m| == n && forall k: nat :: k in m <==> k < n
  }

  ghost predicate FitsBelow(h: seq<Action>, n: nat) {
    Tracked(h) == Unsettled(h) && LinksBelow(Unsettled(h), n)
  }

  lemma FitsOneMore(h: seq<Action>, n: nat)
    requires FitsBelow(h, n) && n < MAX_TRACKED_LINKS
    ensures FitsBelow(h + [Linked(n, "a")], n + 1)
  {
    LinkSnoc(h, n, "a");
    OneMoreFits(Unsettled(h), n);
  }

  lemma {:induction false} FirstLinksFit(n: nat) returns (h: seq<Action>)
    requires n <= MAX_TRACKED_LINKS
    ensures FirstLinks(h, n) && FitsBelow(h, n)
  {
    if n == 0 {
      h := [];
    } else {
      var g := FirstLinksFit(n - 1);
      FitsOneMore(g, n - 1);
      h := g + [Linked(n - 1, "a")];
    }
  }

  lemma OneMoreFits(m: Links, n: nat)
    requires LinksBelow(m, n) && n < MAX_TRACKED_LINKS
    ensures Apply(m, Linked(n, "a")) == m[n := "a"] && LinksBelow(m[n := "a"], n + 1)
  {
    PutSize(m, n, "a");
  }

  lemma RenewedFull(m: Links, t: nat)
    requires LinksBelow(m, MAX_TRACKED_LINKS) && 0 < t < MAX_TRACKED_LINKS
    ensures 0 in m[t := "b"] && |m[t := "b"]| == MAX_TRACKED_LINKS && 0 !in Apply(m, Linked(t, "b"))
  {
    PutSize(m, t, "b");
    assert 0 in m && Least(m.Keys) == 0;
  }

  /**
   Renewing a link can forget another: with 256 tasks linked, renewing one that is not the lowest
   drops the lowest, which is still unsettled.
   */
  lemma RenewalForgets(t: nat) returns (h: seq<Action>)
    requires 0 < t < MAX_TRACKED_LINKS
    ensures |h| == MAX_TRACKED_LINKS + 1
    ensures FirstLinks(h[..MAX_TRACKED_LINKS], MAX_TRACKED_LINKS) && h[MAX_TRACKED_LINKS] == Linked(t, "b")
    ensures 0 in Unsettled(h) && 0 !in Tracked(h) && |Unsettled(h)| == MAX_TRACKED_LINKS
  {
    var g := FirstLinksFit(MAX_TRACKED_LINKS);
    LinkSnoc(g, t, "b");
    RenewedFull(Unsettled(g), t);
    h := g + [Linked(t, "b")];
  }

  /** Task ids are minted in order: every link names a task above all linked before. */
  ghost predicate FreshIds(h: seq<Action>) {
    forall i, j :: 0 <= i < j < |h| && h[i].Linked? && h[j].Linked? ==> h[i].task < h[j].task
  }

  lemma {:induction false} UnsettledBelow(h: seq<Action>, bound: nat, t: nat)
    requires forall i :: 0 <= i < |h| && h[i].Linked? ==> h[i].task < bound
    ensures t in Unsettled(h) ==> t < bound
  {
    if h != [] {
      UnsettledBelow(h[..|h| - 1], bound, t);
    }
  }

  /**
   With ids minted in order, nothing is ever forgotten exactly when at most 256 linked tasks are
   unsettled at any time.
   */
  lemma FreshNeverForgetsIff(h: seq<Action>)
    requires FreshIds(h)
    ensures NeverForgets(h) <==> forall i :: 0 <= i <= |h| ==> |Unsettled(h[..i])| <= MAX_TRACKED_LINKS
  {
    if NeverForgets(h) {
      forall i | 0 <= i <= |h| ensures |Unsettled(h[..i])| <= MAX_TRACKED_LINKS {
        TrackedIsBounded(h[..i]);
      }
    }
    if forall i :: 0 <= i <= |h| ==> |Unsettled(h[..i])| <= MAX_TRACKED_LINKS {
      forall i | 0 <= i < |h| && h[i].Linked? ensures HasRoom(Unsettled(h[..i]), h[i].task) {
        UnsettledBelow(h[..i], h[i].task, h[i].task);
        PutSize(Unsettled(h[..i]), h[i].task, h[i].message);
        assert h[..i + 1][..i] == h[..i];
        assert Unsettled(h[..i + 1]) == Unsettled(h[..i])[h[i].task := h[i].message];
      }
      NeverForgetsIff(h);
    }
  }

  /** Then every event of a task carries exactly the id the history gives the task. */
  lemma StampIsExact(h: seq<Action>, a: Action)
    requires AlwaysRoom(h) && TaskOf(a).Some?
    ensures Stamp(Tracked(h), a) == Current(h, TaskOf(a).value)
  {
    RoomMeansMemory(h);
    UnsettledIsCurrent(h, TaskOf(a).value);
  }
}
