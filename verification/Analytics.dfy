/**
 Token and latency reports over an audit log: two passes over hash maps, proved to be filters and
 sums over the log, with nothing lost between the tier rows and the total.
 */
module Analytics {
  import opened Text
  import opened Statistics

  datatype Entry =
    | TaskStarted(task: nat, tier: nat)
    | TaskCompleted(task: nat, tokens: nat)
    | TaskFailed(task: nat)
    | CortexInvoked(latencyMs: nat)
    | CortexFault
    | CortexCompleted(toolCalls: nat)
    | Other

  // ── What the reports should say ────────────────────────────────────────────

  /** The tier named by the last start entry of a task, anywhere in the log. */
  function LastTier(log: seq<Entry>, task: nat): Option<nat> {
    if log == [] then None
    else
      var e := log[|log| - 1];
      if e.TaskStarted? && e.task == task then Some(e.tier) else LastTier(log[..|log| - 1], task)
  }

  /** A start of the task that no later one replaces. */
  ghost predicate StartsLast(log: seq<Entry>, i: nat, task: nat, tier: nat) {
    && i < |log| && log[i] == TaskStarted(task, tier)
    && forall j :: i < j < |log| ==> !(log[j].TaskStarted? && log[j].task == task)
  }

  /** A later start replaces an earlier one, and only a start does. */
  lemma {:induction false} LastTierIff(log: seq<Entry>, task: nat, tier: nat)
    ensures LastTier(log, task) == Some(tier) <==> exists i :: StartsLast(log, i, task, tier)
  {
    if log != [] {
      var n := |log| - 1;
      var init := log[..n];
      LastTierIff(init, task, tier);
      if log[n].TaskStarted? && log[n].task == task {
        assert log[n].tier == tier ==> StartsLast(log, n, task, tier);
      } else {
        forall i ensures StartsLast(init, i, task, tier) <==> StartsLast(log, i, task, tier) {
          assert forall j :: 0 <= j < n ==> init[j] == log[j];
        }
      }
    }
  }

  /** The token counts of the completions. */
  function Tokens(log: seq<Entry>): seq<nat> {
    if log == [] then []
    else
      var before, e := Tokens(log[..|log| - 1]), log[|log| - 1];
      if e.TaskCompleted? then before + [e.tokens] else before
  }

  function Failures(log: seq<Entry>): nat {
    if log == [] then 0 else Failures(log[..|log| - 1]) + if log[|log| - 1].TaskFailed? then 1 else 0
  }

  /** A number of tasks and the tokens they emitted. */
  datatype Tally = Tally(tasks: nat, tokens: nat) {
    function Plus(other: Tally): Tally {
      Tally(tasks + other.tasks, tokens + other.tokens)
    }
  }

  /** The completions in `part` whose task's last start in `log` names one of `tiers` (None: has no start). */
  function TallyOf(log: seq<Entry>, part: seq<Entry>, tiers: set<Option<nat>>): Tally {
    if part == [] then Tally(0, 0)
    else
      var e := part[|part| - 1];
      var before := TallyOf(log, part[..|part| - 1], tiers);
      if e.TaskCompleted? && LastTier(log, e.task) in tiers then before.Plus(Tally(1, e.tokens)) else before
  }

  // ── The token report ───────────────────────────────────────────────────────

  datatype TierRow = TierRow(tier: nat, tasks: nat, totalTokens: nat, meanTokens: real)

  datatype TokenReport = TokenReport(
    totalTokens: nat, tasksCompleted: nat, tasksFailed: nat, perTask: Option<Stats>, byTier: seq<TierRow>)

  function RowOf(tier: nat, t: Tally): TierRow {
    TierRow(tier, t.tasks, t.tokens, if t.tasks > 0 then t.tokens as real / t.tasks as real else 0.0)
  }

  predicate AscendingTiers(rows: seq<TierRow>) {
    forall i, j :: 0 <= i < j < |rows| ==> rows[i].tier < rows[j].tier
  }

  /** The stable sort by tier, one row at a time. */
  function InsertRow(r: TierRow, rows: seq<TierRow>): seq<TierRow> {
    if rows == [] || r.tier < rows[0].tier then [r] + rows else [rows[0]] + InsertRow(r, rows[1..])
  }

  lemma {:induction false} InsertRowSorts(r: TierRow, rows: seq<TierRow>)
    requires AscendingTiers(rows) && forall q :: q in rows ==> q.tier != r.tier
    ensures AscendingTiers(InsertRow(r, rows))
    ensures forall q :: q in InsertRow(r, rows) <==> q == r || q in rows
  {
    if rows != [] && rows[0].tier < r.tier {
      InsertRowSorts(r, rows[1..]);
      var rest := InsertRow(r, rows[1..]);
      assert rows == [rows[0]] + rows[1..];
      assert forall k :: 0 <= k < |rest| ==> rest[k] in rest;
    }
  }

  /** A row for exactly the tiers with a matched completion, each the filter and sum over the log. */
  ghost predicate IsTierTable(log: seq<Entry>, rows: seq<TierRow>) {
    && AscendingTiers(rows)
    && (forall r :: r in rows ==>
          var t := TallyOf(log, log, {Some(r.tier)});
          t.tasks > 0 && r == RowOf(r.tier, t))
    && (forall tier: nat :: TallyOf(log, log, {Some(tier)}).tasks > 0 ==> exists r :: r in rows && r.tier == tier)
  }

  ghost predicate HasTiers(log: seq<Entry>, tiers: map<nat, nat>) {
    forall task: nat :: LastTier(log, task) == if task in tiers then Some(tiers[task]) else None
  }

  ghost predicate HasTallies(log: seq<Entry>, part: seq<Entry>, agg: map<nat, Tally>) {
    forall tier: nat ::
      TallyOf(log, part, {Some(tier)}) == (if tier in agg then agg[tier] else Tally(0, 0)) &&
      (tier in agg ==> agg[tier].tasks > 0)
  }

  /** First pass: tiers by task, and failures. */
  method TiersByTask(log: seq<Entry>) returns (tiers: map<nat, nat>, failed: nat)
    ensures HasTiers(log, tiers) && failed == Failures(log)
  {
    tiers, failed := map[], 0;
    for i := 0 to |log|
      invariant HasTiers(log[..i], tiers) && failed == Failures(log[..i])
    {
      assert log[..i + 1][..i] == log[..i];
      match log[i] {
        case TaskStarted(task, tier) => tiers := tiers[task := tier];
        case TaskFailed(_) => failed := failed + 1;
        case _ =>
      }
    }
    assert log[..|log|] == log;
  }

  /** Second pass: tokens, and a tally per tier. */
  method Aggregate(log: seq<Entry>, tiers: map<nat, nat>) returns (all: seq<nat>, agg: map<nat, Tally>)
    requires HasTiers(log, tiers)
    ensures all == Tokens(log) && HasTallies(log, log, agg)
  {
    all, agg := [], map[];
    for i := 0 to |log|
      invariant all == Tokens(log[..i]) && HasTallies(log, log[..i], agg)
    {
      assert log[..i + 1][..i] == log[..i];
      match log[i] {
        case TaskCompleted(task, tokens) =>
          all := all + [tokens];
          if task in tiers {
            var tier := tiers[task];
            var before := if tier in agg then agg[tier] else Tally(0, 0);
            agg := agg[tier := Tally(before.tasks + 1, before.tokens + tokens)];
          }
        case _ =>
      }
    }
    assert log[..|log|] == log;
  }

  /** The map's rows, taken in any order, then in tier order. */
  method Rows(agg: map<nat, Tally>) returns (rows: seq<TierRow>)
    ensures AscendingTiers(rows)
    ensures forall r :: r in rows <==> r.tier in agg && r == RowOf(r.tier, agg[r.tier])
  {
    rows := [];
    var left := agg.Keys;
    while left != {}
      invariant left <= agg.Keys && AscendingTiers(rows)
      invariant forall r :: r in rows <==> r.tier in agg && r.tier !in left && r == RowOf(r.tier, agg[r.tier])
      decreases |left|
    {
      var tier :| tier in left;
      InsertRowSorts(RowOf(tier, agg[tier]), rows);
      rows := InsertRow(RowOf(tier, agg[tier]), rows);
      left := left - {tier};
    }
  }

  /** `compute_token_report` */
  method ComputeTokenReport(log: seq<Entry>) returns (report: TokenReport)
    ensures report.totalTokens == Sum(Tokens(log))
    ensures report.tasksCompleted == |Tokens(log)| && report.tasksFailed == Failures(log)
    ensures report.perTask == FromSamples(Tokens(log))
    ensures IsTierTable(log, report.byTier)
  {
    var tiers, failed := TiersByTask(log);
    var all, agg := Aggregate(log, tiers);
    var rows := Rows(agg);
    assert forall tier :: tier in agg ==> RowOf(tier, agg[tier]) in rows;
    report := TokenReport(Sum(all), |all|, failed, FromSamples(all), rows);
  }

  // ── Conservation ───────────────────────────────────────────────────────────

  lemma {:induction false} TallyUnion(log: seq<Entry>, part: seq<Entry>, a: set<Option<nat>>, b: set<Option<nat>>)
    requires a !! b
    ensures TallyOf(log, part, a + b) == TallyOf(log, part, a).Plus(TallyOf(log, part, b))
  {
    if part != [] {
      TallyUnion(log, part[..|part| - 1], a, b);
    }
  }

  lemma {:induction false} TallyNone(log: seq<Entry>, part: seq<Entry>)
    ensures TallyOf(log, part, {}) == Tally(0, 0)
  {
    if part != [] {
      TallyNone(log, part[..|part| - 1]);
    }
  }

  ghost predicate Covers(log: seq<Entry>, part: seq<Entry>, tiers: set<Option<nat>>) {
    forall e :: e in part && e.TaskCompleted? ==> LastTier(log, e.task) in tiers
  }

  lemma {:induction false} TallyCovered(log: seq<Entry>, part: seq<Entry>, tiers: set<Option<nat>>)
    requires Covers(log, part, tiers)
    ensures TallyOf(log, part, tiers) == Tally(|Tokens(part)|, Sum(Tokens(part)))
  {
    if part != [] {
      var init, e := part[..|part| - 1], part[|part| - 1];
      TallyCovered(log, init, tiers);
      if e.TaskCompleted? {
        assert (Tokens(init) + [e.tokens])[..|Tokens(init)|] == Tokens(init);
      }
    }
  }

  /** A matched completion makes its tier's tally positive. */
  lemma {:induction false} MatchedIsTallied(log: seq<Entry>, part: seq<Entry>, e: Entry)
    requires e in part && e.TaskCompleted?
    ensures TallyOf(log, part, {LastTier(log, e.task)}).tasks > 0
  {
    if part[|part| - 1] != e {
      MatchedIsTallied(log, part[..|part| - 1], e);
    }
  }

  function TiersOf(rows: seq<TierRow>): set<Option<nat>> {
    if rows == [] then {} else {Some(rows[0].tier)} + TiersOf(rows[1..])
  }

  function SumRows(rows: seq<TierRow>): Tally {
    if rows == [] then Tally(0, 0) else Tally(rows[0].tasks, rows[0].totalTokens).Plus(SumRows(rows[1..]))
  }

  lemma {:induction false} TiersOfMembers(rows: seq<TierRow>, o: Option<nat>)
    ensures o in TiersOf(rows) <==> o.Some? && exists r :: r in rows && r.tier == o.value
  {
    if rows != [] {
      TiersOfMembers(rows[1..], o);
      assert rows == [rows[0]] + rows[1..];
      assert rows[0] in rows;
    }
  }

  lemma {:induction false} RowsAddUp(log: seq<Entry>, rows: seq<TierRow>)
    requires AscendingTiers(rows)
    requires forall r :: r in rows ==> r == RowOf(r.tier, TallyOf(log, log, {Some(r.tier)}))
    ensures SumRows(rows) == TallyOf(log, log, TiersOf(rows))
  {
    if rows == [] {
      TallyNone(log, log);
    } else {
      RowsAddUp(log, rows[1..]);
      TiersOfMembers(rows[1..], Some(rows[0].tier));
      assert rows[0] in rows;
      TallyUnion(log, log, {Some(rows[0].tier)}, TiersOf(rows[1..]));
    }
  }

  /**
   For every log: the tier rows and the completions of tasks never started add up, in tasks and in
   tokens, to the totals of the report.
   */
  lemma TierTotalsConserve(log: seq<Entry>, rows: seq<TierRow>)
    requires IsTierTable(log, rows)
    ensures SumRows(rows).Plus(TallyOf(log, log, {None})) == Tally(|Tokens(log)|, Sum(Tokens(log)))
  {
    RowsAddUp(log, rows);
    TiersOfMembers(rows, None);
    TallyUnion(log, log, TiersOf(rows), {None});
    var tiers := TiersOf(rows) + {None};
    forall e | e in log && e.TaskCompleted? ensures LastTier(log, e.task) in tiers {
      MatchedIsTallied(log, log, e);
      TiersOfMembers(rows, LastTier(log, e.task));
    }
    TallyCovered(log, log, tiers);
  }

  /** The table is determined by the log: the order in which the map gives up its rows does not matter. */
  lemma {:induction false} TableIsUnique(log: seq<Entry>, a: seq<TierRow>, b: seq<TierRow>)
    requires IsTierTable(log, a) && IsTierTable(log, b)
    ensures a == b
  {
    forall r ensures r in a <==> r in b {
    }
    SameRows(a, b);
  }

  lemma {:induction false} SameRows(a: seq<TierRow>, b: seq<TierRow>)
    requires AscendingTiers(a) && AscendingTiers(b) && forall r :: r in a <==> r in b
    ensures a == b
  {
    if a == [] {
      assert forall k :: 0 <= k < |b| ==> b[k] in a;
    } else {
      assert a[0] in b && b[0] in a;
      assert a[0] == b[0];
      forall r ensures r in a[1..] <==> r in b[1..] {
        assert r in a[1..] <==> r in a && r != a[0];
        assert r in b[1..] <==> r in b && r != b[0];
      }
      SameRows(a[1..], b[1..]);
    }
  }

  // ── The latency report ─────────────────────────────────────────────────────

  datatype LatencyReport = LatencyReport(
    firstAction: Option<Stats>, invocations: nat, faults: nat, faultRatePct: real,
    totalToolCalls: nat, meanToolCalls: real)

  function Latencies(log: seq<Entry>): seq<nat> {
    if log == [] then []
    else
      var before, e := Latencies(log[..|log| - 1]), log[|log| - 1];
      if e.CortexInvoked? then before + [e.latencyMs] else before
  }

  function ToolCalls(log: seq<Entry>): seq<nat> {
    if log == [] then []
    else
      var before, e := ToolCalls(log[..|log| - 1]), log[|log| - 1];
      if e.CortexCompleted? then before + [e.toolCalls] else before
  }

  function Faults(log: seq<Entry>): nat {
    if log == [] then 0 else Faults(log[..|log| - 1]) + if log[|log| - 1].CortexFault? then 1 else 0
  }

  lemma SumSnoc(s: seq<nat>, x: nat)
    ensures Sum(s + [x]) == Sum(s) + x
  {
    assert (s + [x])[..|s|] == s;
  }

  /** `compute_latency_report` */
  method ComputeLatencyReport(log: seq<Entry>) returns (report: LatencyReport)
    ensures report.firstAction == FromSamples(Latencies(log)) && report.invocations == |Latencies(log)|
    ensures report.faults == Faults(log) && report.totalToolCalls == Sum(ToolCalls(log))
    ensures report.faultRatePct ==
            if Latencies(log) == [] then 0.0 else Faults(log) as real / |Latencies(log)| as real * 100.0
    ensures report.meanToolCalls ==
            if ToolCalls(log) == [] then 0.0 else Sum(ToolCalls(log)) as real / |ToolCalls(log)| as real
  {
    var samples, invocations, faults, calls, completions := [], 0, 0, 0, 0;
    for i := 0 to |log|
      invariant samples == Latencies(log[..i]) && invocations == |samples|
      invariant faults == Faults(log[..i])
      invariant calls == Sum(ToolCalls(log[..i])) && completions == |ToolCalls(log[..i])|
    {
      assert log[..i + 1][..i] == log[..i];
      match log[i] {
        case CortexInvoked(ms) => invocations, samples := invocations + 1, samples + [ms];
        case CortexFault => faults := faults + 1;
        case CortexCompleted(n) =>
          SumSnoc(ToolCalls(log[..i]), n);
          calls, completions := calls + n, completions + 1;
        case _ =>
      }
    }
    assert log[..|log|] == log;
    var rate := if invocations > 0 then faults as real / invocations as real * 100.0 else 0.0;
    var mean := if completions > 0 then calls as real / completions as real else 0.0;
    report := LatencyReport(FromSamples(samples), invocations, faults, rate, calls, mean);
  }
}
