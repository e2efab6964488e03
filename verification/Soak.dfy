/**
 The live soak run: a manifest replaced by rename after every iteration, an append-only log, and a
 process that may die between any two disk effects and be started again.
 */
module Soak {
  import opened Text
  import opened Statistics

  datatype Outcome = Success | Timeout | UnscheduledExit(code: int) | DryRun

  datatype Record = Record(iteration: nat, latencyMs: nat, outcome: Outcome)

  /** `sample` stands for the mean and the 95th percentile, which are computed from it alone. */
  datatype Counts = Counts(successful: nat, timeouts: nat, unscheduled: nat, sample: seq<nat>)

  datatype Manifest = Manifest(total: nat, completed: nat, counts: Counts, iterations: seq<Record>)

  /** What the emulator reports for one iteration. */
  datatype Boot = Boot(outcome: Outcome, latencyMs: nat)

  // ── A manifest as a summary of its records ─────────────────────────────────

  /** The counts with one more record. */
  function Counted(c: Counts, r: Record): Counts {
    match r.outcome
    case Timeout => c.(timeouts := c.timeouts + 1)
    case UnscheduledExit(_) => c.(unscheduled := c.unscheduled + 1)
    case _ => c.(successful := c.successful + 1, sample := c.sample + [r.latencyMs])
  }

  function CountsOf(rs: seq<Record>): Counts {
    if rs == [] then Counts(0, 0, 0, []) else Counted(CountsOf(rs[..|rs| - 1]), rs[|rs| - 1])
  }

  /** The manifest that `total` and the records determine. */
  function Summary(total: nat, rs: seq<Record>): Manifest {
    Manifest(total, |rs|, CountsOf(rs), rs)
  }

  /** The records of the first `k` boots, the first numbered `first`. */
  function Numbered(first: nat, boots: seq<Boot>, k: nat): (rs: seq<Record>)
    requires k <= |boots|
    ensures |rs| == k
  {
    if k == 0 then [] else Numbered(first, boots, k - 1) + [RecordOf(first + k - 1, boots[k - 1])]
  }

  function RecordOf(iteration: nat, boot: Boot): Record {
    Record(iteration, boot.latencyMs, boot.outcome)
  }

  // ── One start of the process ───────────────────────────────────────────────

  /** How the process ended: its loop finished (with or without failures), a boot could not be run, or it died. */
  datatype Ending = Finished(allOk: bool) | BootError | Died

  /** Where in `save_manifest` the process dies. */
  datatype Point = BeforeWrite | BeforeRename | BeforeAppend

  /** When the process dies: after `saves` whole saves, at a point of the next one. */
  datatype Death = Death(saves: nat, at: Point) {
    function Renames(): nat {
      if at.BeforeAppend? then saves + 1 else saves
    }
  }

  /** How far one start gets with so many iterations to do, boots it can run, and saves it lives for. */
  function Reached(todo: nat, boots: nat, saves: nat): nat {
    Min(todo, Min(boots, saves))
  }

  /** Where a start stops: done, out of boots, or dead. */
  lemma ReachedAt(todo: nat, boots: nat, death: Death, k: nat)
    requires k <= todo && k <= boots && k <= death.saves
    requires k == todo || k == boots || k == death.saves
    ensures Reached(todo, boots, death.saves) == k
    ensures Reached(todo, boots, death.Renames()) ==
            if k < todo && k < boots && death.at.BeforeAppend? then k + 1 else k
  {
  }

  /** What a manifest is about: the target and the records so far. */
  datatype Progress = Progress(total: nat, records: seq<Record>) {
    function Todo(): nat {
      if |records| < total then total - |records| else 0
    }

    /** The records after `k` more iterations. */
    function Then(boots: seq<Boot>, k: nat): seq<Record>
      requires k <= |boots|
    {
      records + Numbered(|records| + 1, boots, k)
    }

    lemma ThenNothing(boots: seq<Boot>)
      ensures Then(boots, 0) == records
    {
    }

    lemma ThenOneMore(boots: seq<Boot>, k: nat, log: seq<Record>, r: Record)
      requires k < |boots| && r == RecordOf(|records| + 1 + k, boots[k])
      ensures Then(boots, k + 1) == Then(boots, k) + [r]
      ensures var first := |records| + 1; log + Numbered(first, boots, k + 1) == log + Numbered(first, boots, k) + [r]
    {
    }
  }

  /** The progress a start works from. */
  function Resumed(found: Option<Progress>, iterations: nat): Progress {
    match found
    case Some(p) => p.(total := if p.total >= iterations then p.total else iterations)
    case None => Progress(iterations, [])
  }

  /** One start: its `--iterations`, the boots it can run, and when it dies. */
  datatype Start = Start(iterations: nat, boots: seq<Boot>, death: Death)

  /** The progress in `manifest.json`, if there is one, and the log. */
  datatype Disk = Disk(progress: Option<Progress>, log: seq<Record>)

  function SavedBy(d: Disk, s: Start): nat {
    Reached(Resumed(d.progress, s.iterations).Todo(), |s.boots|, s.death.Renames())
  }

  function LoggedBy(d: Disk, s: Start): nat {
    Reached(Resumed(d.progress, s.iterations).Todo(), |s.boots|, s.death.saves)
  }

  /** The progress after `k` more iterations; without any the manifest is not written. */
  function Advanced(found: Option<Progress>, iterations: nat, boots: seq<Boot>, k: nat): Option<Progress>
    requires k <= |boots|
  {
    var p := Resumed(found, iterations);
    if k == 0 then found else Some(p.(records := p.Then(boots, k)))
  }

  /** What a start leaves on disk: the iterations reached, numbered on from those found there. */
  function AfterStart(d: Disk, s: Start): Disk {
    var first := |Resumed(d.progress, s.iterations).records| + 1;
    Disk(Advanced(d.progress, s.iterations, s.boots, SavedBy(d, s)),
         d.log + Numbered(first, s.boots, LoggedBy(d, s)))
  }

  /** The manifest of some progress. */
  function Written(p: Option<Progress>): Option<Manifest> {
    match p case Some(p) => Some(Summary(p.total, p.records)) case None => None
  }

  class OutputDirectory {
    var manifest: Option<Manifest>
    var tmp: Option<Manifest>
    var log: seq<Record>
    var death: Death

    constructor ()
      ensures manifest == None && log == []
    {
      manifest, tmp, log, death := None, None, [], Death(0, BeforeWrite);
    }

    /** `save_manifest`: write the temporary file, rename it, append the last record to the log. */
    method SaveManifest(m: Manifest) returns (alive: bool)
      requires m.iterations != []
      modifies this
      ensures alive == (old(death).saves > 0)
      ensures death == if alive then old(death).(saves := old(death).saves - 1) else old(death)
      ensures manifest == if old(death).Renames() > 0 then Some(m) else old(manifest)
      ensures log == if alive then old(log) + [m.iterations[|m.iterations| - 1]] else old(log)
    {
      if death == Death(0, BeforeWrite) {
        return false;
      }
      tmp := Some(m);
      if death == Death(0, BeforeRename) {
        return false;
      }
      manifest, tmp := tmp, None;
      if death.saves == 0 {
        return false;
      }
      log := log + [m.iterations[|m.iterations| - 1]];
      death := death.(saves := death.saves - 1);
      return true;
    }

    /** `run_soak`, live: wherever the process dies and however many boots can be run. */
    method RunSoak(iterations: nat, boots: seq<Boot>, ghost d: Disk) returns (ending: Ending)
      requires manifest == Written(d.progress) && log == d.log
      modifies this
      ensures var s := Start(iterations, boots, old(death));
              && manifest == Written(AfterStart(d, s).progress)
              && log == AfterStart(d, s).log
              && (ending.Finished? <==> LoggedBy(d, s) == Resumed(d.progress, iterations).Todo())
              && (ending == BootError ==> LoggedBy(d, s) == |boots|)
              && (ending == Died ==> LoggedBy(d, s) == old(death).saves)
              && (ending.Finished? ==> ending.allOk == AllOk(Records(AfterStart(d, s))))
    {
      var m := Resume(iterations, d);
      ghost var p, saved, logged := Resumed(d.progress, iterations), 0, 0;
      assert p.records + [] == p.records;
      ending, saved, logged := RunIterations(m, boots, p);
      assert saved == SavedBy(d, Start(iterations, boots, old(death)));
      assert logged == LoggedBy(d, Start(iterations, boots, old(death)));
    }

    /** The loop over the iterations still to do. */
    method RunIterations(start: Manifest, boots: seq<Boot>, ghost p: Progress)
      returns (ending: Ending, ghost saved: nat, ghost logged: nat)
      requires start == Summary(p.total, p.records)
      modifies this
      ensures saved == Reached(p.Todo(), |boots|, old(death).Renames())
      ensures logged == Reached(p.Todo(), |boots|, old(death).saves)
      ensures manifest == if saved == 0 then old(manifest) else Some(Summary(p.total, p.Then(boots, saved)))
      ensures log == old(log) + Numbered(|p.records| + 1, boots, logged)
      ensures ending.Finished? <==> logged == p.Todo()
      ensures ending == BootError ==> logged == |boots|
      ensures ending == Died ==> logged == old(death).saves
      ensures ending.Finished? ==> ending.allOk == AllOk(p.Then(boots, logged))
    {
      var m, allOk := start, start.counts.timeouts == 0 && start.counts.unscheduled == 0;
      var first, todo := m.completed + 1, if m.completed < m.total then m.total - m.completed else 0;
      p.ThenNothing(boots);
      assert log + [] == log;
      assert first == |p.records| + 1 && todo == p.Todo();
      for k := 0 to todo
        invariant k <= |boots| && k <= old(death).saves && death == old(death).(saves := old(death).saves - k)
        invariant Tracks(m, allOk, p.total, p.Then(boots, k))
        invariant manifest == if k == 0 then old(manifest) else Some(Summary(p.total, p.Then(boots, k)))
        invariant log == old(log) + Numbered(first, boots, k)
      {
        if k == |boots| {
          ReachedAt(todo, |boots|, old(death), k);
          return BootError, k, k;
        }
        var record, alive := RecordOf(first + k, boots[k]), false;
        p.ThenOneMore(boots, k, old(log), record);
        m, allOk, alive := Iterate(m, allOk, record, p.total, p.Then(boots, k));
        if !alive {
          ReachedAt(todo, |boots|, old(death), k);
          return Died, if death.at.BeforeAppend? then k + 1 else k, k;
        }
      }
      ReachedAt(todo, |boots|, old(death), todo);
      return Finished(allOk), todo, todo;
    }

    /** One iteration's bookkeeping, saved. */
    method Iterate(m: Manifest, allOk: bool, r: Record, ghost total: nat, ghost rs: seq<Record>)
      returns (m': Manifest, allOk': bool, alive: bool)
      requires Tracks(m, allOk, total, rs)
      modifies this
      ensures Tracks(m', allOk', total, rs + [r])
      ensures alive == (old(death).saves > 0)
      ensures death == if alive then old(death).(saves := old(death).saves - 1) else old(death)
      ensures manifest == if old(death).Renames() > 0 then Some(Summary(total, rs + [r])) else old(manifest)
      ensures log == if alive then old(log) + [r] else old(log)
    {
      m', allOk' := AddRecord(m, allOk, r, total, rs);
      alive := SaveManifest(m');
    }

    /** The manifest to go on from: the one on disk, its target raised, or a new one. */
    method Resume(iterations: nat, ghost d: Disk) returns (m: Manifest)
      requires manifest == Written(d.progress)
      ensures m == Written(Some(Resumed(d.progress, iterations))).value
    {
      match manifest
      case Some(found) => m := found.(total := if found.total >= iterations then found.total else iterations);
      case None => m := Manifest(iterations, 0, Counts(0, 0, 0, []), []);
    }
  }

  predicate AllOk(rs: seq<Record>) {
    CountsOf(rs).timeouts == 0 && CountsOf(rs).unscheduled == 0
  }

  /** The loop's variables are those of the records so far. */
  ghost predicate Tracks(m: Manifest, allOk: bool, total: nat, rs: seq<Record>) {
    m == Summary(total, rs) && allOk == AllOk(rs)
  }

  /** The bookkeeping of one iteration. */
  method AddRecord(m: Manifest, allOk: bool, r: Record, ghost total: nat, ghost rs: seq<Record>)
    returns (m': Manifest, allOk': bool)
    requires Tracks(m, allOk, total, rs)
    ensures Tracks(m', allOk', total, rs + [r])
  {
    var c := m.counts;
    allOk' := allOk;
    match r.outcome {
      case Success => c := c.(successful := c.successful + 1, sample := c.sample + [r.latencyMs]);
      case DryRun => c := c.(successful := c.successful + 1, sample := c.sample + [r.latencyMs]);
      case Timeout => c, allOk' := c.(timeouts := c.timeouts + 1), false;
      case UnscheduledExit(_) => c, allOk' := c.(unscheduled := c.unscheduled + 1), false;
    }
    m' := m.(counts := c, iterations := m.iterations + [r], completed := m.completed + 1);
    assert (rs + [r])[..|rs|] == rs;
  }

  // ── Any number of crashes and resumes ──────────────────────────────────────

  function AfterStarts(starts: seq<Start>): Disk {
    if starts == [] then Disk(None, []) else AfterStart(AfterStarts(starts[..|starts| - 1]), starts[|starts| - 1])
  }

  function Records(d: Disk): seq<Record> {
    match d.progress case Some(p) => p.records case None => []
  }

  /** How many starts died after a rename and before its append. */
  function DiedBetween(starts: seq<Start>): nat {
    if starts == [] then 0
    else
      var d, s := AfterStarts(starts[..|starts| - 1]), starts[|starts| - 1];
      DiedBetween(starts[..|starts| - 1]) + if SavedBy(d, s) != LoggedBy(d, s) then 1 else 0
  }

  /** Iterations are numbered 1, 2, 3, … */
  predicate NumberedFromOne(rs: seq<Record>) {
    forall i :: 0 <= i < |rs| ==> rs[i].iteration == i + 1
  }

  /** The log is in order, without repeats, and every line is the manifest's record of that iteration. */
  predicate LogOf(log: seq<Record>, rs: seq<Record>) {
    && (forall i, j :: 0 <= i < j < |log| ==> log[i].iteration < log[j].iteration)
    && (forall i :: 0 <= i < |log| ==> 1 <= log[i].iteration <= |rs| && log[i] == rs[log[i].iteration - 1])
  }

  lemma {:induction false} NumberedAt(first: nat, boots: seq<Boot>, k: nat, i: nat)
    requires i < k <= |boots|
    ensures Numbered(first, boots, k)[i] == RecordOf(first + i, boots[i])
  {
    if i < k - 1 {
      NumberedAt(first, boots, k - 1, i);
    }
  }

  lemma {:induction false} NumberedPrefix(first: nat, boots: seq<Boot>, k: nat, n: nat)
    requires k <= n <= |boots|
    ensures Numbered(first, boots, k) == Numbered(first, boots, n)[..k]
  {
    if k < n {
      NumberedPrefix(first, boots, k, n - 1);
    }
  }

  /** How many records satisfy a predicate. */
  function HowMany(rs: seq<Record>, p: Record -> bool): nat {
    if rs == [] then 0 else HowMany(rs[..|rs| - 1], p) + if p(rs[|rs| - 1]) then 1 else 0
  }

  /** The latencies of the iterations that neither timed out nor ended unscheduled. */
  function Latencies(rs: seq<Record>): seq<nat> {
    if rs == [] then []
    else
      var r := rs[|rs| - 1];
      Latencies(rs[..|rs| - 1]) + if r.outcome == Success || r.outcome == DryRun then [r.latencyMs] else []
  }

  /** The counts are what their names say, and every iteration is in one of them. */
  lemma {:induction false} EveryIterationCounted(rs: seq<Record>)
    ensures var c := CountsOf(rs);
            && c.successful + c.timeouts + c.unscheduled == |rs|
            && c.timeouts == HowMany(rs, (r: Record) => r.outcome.Timeout?)
            && c.unscheduled == HowMany(rs, (r: Record) => r.outcome.UnscheduledExit?)
            && |c.sample| == c.successful && c.sample == Latencies(rs)
  {
    if rs != [] {
      EveryIterationCounted(rs[..|rs| - 1]);
    }
  }

  lemma NumberingContinues(rs: seq<Record>, boots: seq<Boot>, k: nat)
    requires NumberedFromOne(rs) && k <= |boots|
    ensures NumberedFromOne(rs + Numbered(|rs| + 1, boots, k))
  {
    var more := Numbered(|rs| + 1, boots, k);
    forall i | 0 <= i < |more| ensures more[i].iteration == |rs| + 1 + i {
      NumberedAt(|rs| + 1, boots, k, i);
    }
  }

  lemma LogContinues(log: seq<Record>, rs: seq<Record>, more: seq<Record>, k: nat)
    requires LogOf(log, rs) && NumberedFromOne(rs + more) && k <= |more|
    ensures LogOf(log + more[..k], rs + more)
  {
    assert forall i :: 0 <= i < k ==> more[i] == (rs + more)[|rs| + i];
  }

  /** What holds of the disk after any starts. */
  ghost predicate Good(d: Disk) {
    && NumberedFromOne(Records(d))
    && LogOf(d.log, Records(d))
    && (d.progress.Some? ==> |Records(d)| <= d.progress.value.total)
  }

  /** Good survives more records, numbered on, of which the first ones are logged. */
  lemma GoodGrows(d: Disk, total: nat, boots: seq<Boot>, saved: nat, logged: nat)
    requires Good(d) && logged <= saved <= |boots| && |Records(d)| + saved <= total
    ensures var rs, first := Records(d), |Records(d)| + 1;
            Good(Disk(Some(Progress(total, rs + Numbered(first, boots, saved))),
                      d.log + Numbered(first, boots, logged)))
  {
    var rs, first := Records(d), |Records(d)| + 1;
    NumberingContinues(rs, boots, saved);
    NumberedPrefix(first, boots, logged, saved);
    LogContinues(d.log, rs, Numbered(first, boots, saved), logged);
  }

  lemma ReachedOrder(d: Disk, s: Start)
    ensures LoggedBy(d, s) <= SavedBy(d, s) <= LoggedBy(d, s) + 1
    ensures SavedBy(d, s) <= |s.boots|
    ensures SavedBy(d, s) > 0 ==>
              |Records(d)| + SavedBy(d, s) <= Resumed(d.progress, s.iterations).total
  {
  }

  lemma StartGrows(d: Disk, s: Start)
    ensures var e := AfterStart(d, s);
            && Records(d) <= Records(e) && d.log <= e.log
            && |Records(e)| == |Records(d)| + SavedBy(d, s)
            && |e.log| == |d.log| + LoggedBy(d, s)
  {
  }

  /** One start: the records and the log only grow, and the log misses at most the last record saved. */
  lemma StartKeepsGood(d: Disk, s: Start)
    requires Good(d)
    ensures var e := AfterStart(d, s);
            && Good(e)
            && Records(d) <= Records(e) && d.log <= e.log
            && LoggedBy(d, s) <= SavedBy(d, s) <= LoggedBy(d, s) + 1
            && |Records(e)| == |Records(d)| + SavedBy(d, s)
            && |e.log| == |d.log| + LoggedBy(d, s)
  {
    ReachedOrder(d, s);
    StartGrows(d, s);
    if SavedBy(d, s) == 0 {
      assert d.log + [] == d.log;
    } else {
      GoodGrows(d, Resumed(d.progress, s.iterations).total, s.boots, SavedBy(d, s), LoggedBy(d, s));
    }
  }

  /**
   After any number of crashes and resumes: iterations are numbered 1 to completed and are at most the
   total, the log never repeats or contradicts an iteration, and it misses exactly one iteration for
   each start that died between a rename and its append.
   */
  lemma {:induction false} SoakIsConsistent(starts: seq<Start>)
    ensures var d := AfterStarts(starts);
            && Good(d)
            && |Records(d)| == |d.log| + DiedBetween(starts)
  {
    if starts != [] {
      var init := starts[..|starts| - 1];
      SoakIsConsistent(init);
      StartKeepsGood(AfterStarts(init), starts[|starts| - 1]);
    }
  }

  /** The manifest's own accounting: completed is successes plus timeouts plus unscheduled exits. */
  lemma ManifestAddsUp(starts: seq<Start>)
    ensures var written := Written(AfterStarts(starts).progress);
            written.Some? ==>
              var m := written.value;
              m.completed == |m.iterations| == m.counts.successful + m.counts.timeouts + m.counts.unscheduled <= m.total
  {
    SoakIsConsistent(starts);
    EveryIterationCounted(Records(AfterStarts(starts)));
  }

  /** Nothing recorded is ever rewritten or forgotten by a later start. */
  lemma {:induction false} RecordsOnlyGrow(starts: seq<Start>, n: nat)
    requires n <= |starts|
    ensures Records(AfterStarts(starts[..n])) <= Records(AfterStarts(starts))
    ensures AfterStarts(starts[..n]).log <= AfterStarts(starts).log
  {
    if n == |starts| {
      assert starts[..n] == starts;
    } else {
      var init := starts[..|starts| - 1];
      assert init[..n] == starts[..n];
      RecordsOnlyGrow(init, n);
      SoakIsConsistent(init);
      StartKeepsGood(AfterStarts(init), starts[|starts| - 1]);
    }
  }

  /** A start that saves anything leaves the target at the larger of the one it found and its own. */
  lemma TargetIsRaised(d: Disk, s: Start)
    ensures var found, left := d.progress, AfterStart(d, s).progress;
            left != found ==>
              && left.Some?
              && left.value.total >= s.iterations && (found.Some? ==> left.value.total >= found.value.total)
              && (left.value.total == s.iterations || (found.Some? && left.value.total == found.value.total))
  {
  }

  /** A start that lives long enough and can run its boots completes the soak, whatever happened before. */
  lemma {:induction false} LastStartCompletes(starts: seq<Start>, s: Start)
    requires var todo := Resumed(AfterStarts(starts).progress, s.iterations).Todo();
             |s.boots| >= todo && s.death.saves >= todo
    ensures var total := Resumed(AfterStarts(starts).progress, s.iterations).total;
            |Records(AfterStart(AfterStarts(starts), s))| == total
  {
    SoakIsConsistent(starts);
    StartKeepsGood(AfterStarts(starts), s);
  }

  // ── The statistics of a sample ─────────────────────────────────────────────

  /** `compute_stats`: the sum and count of the mean, and the 95th percentile by rank. */
  function ComputeStats(latencies: seq<nat>): (nat, nat, nat) {
    if latencies == [] then (0, 1, 0)
    else
      SortSorts(latencies);
      (Sum(latencies), |latencies|, Sort(latencies)[Min(|latencies| * 95 / 100, |latencies| - 1)])
  }

  /** The percentile of a soak is the percentile of a report on the same samples. */
  lemma SoakP95IsPercentile(latencies: seq<nat>)
    requires latencies != []
    ensures IsPercentile(latencies, ComputeStats(latencies).2, 95)
    ensures ComputeStats(latencies).2 == FromSamples(latencies).value.p95
  {
    RankIsPercentile(latencies, 95);
  }
}
