/**
 Percentiles of a sample: taken from the sorted copy, proved about the samples as they came.
 */
module Statistics {
  import opened Text

  predicate Ascending(s: seq<nat>) {
    forall i, j :: 0 <= i <= j < |s| ==> s[i] <= s[j]
  }

  function Insert(x: nat, s: seq<nat>): (r: seq<nat>)
    ensures r != []
  {
    if s == [] || x <= s[0] then [x] + s else [s[0]] + Insert(x, s[1..])
  }

  function Sort(s: seq<nat>): seq<nat> {
    if s == [] then [] else Insert(s[0], Sort(s[1..]))
  }

  function Sum(s: seq<nat>): nat {
    if s == [] then 0 else Sum(s[..|s| - 1]) + s[|s| - 1]
  }

  lemma {:induction false} InsertAdds(x: nat, s: seq<nat>)
    ensures multiset(Insert(x, s)) == multiset{x} + multiset(s) && |Insert(x, s)| == |s| + 1
  {
    if s != [] && x > s[0] {
      InsertAdds(x, s[1..]);
      assert s == [s[0]] + s[1..];
    }
  }

  lemma {:induction false} InsertKeepsOrder(x: nat, s: seq<nat>)
    requires Ascending(s)
    ensures Ascending(Insert(x, s)) && Insert(x, s)[0] == (if s == [] || x <= s[0] then x else s[0])
  {
    if s != [] && x > s[0] {
      InsertKeepsOrder(x, s[1..]);
    }
  }

  lemma {:induction false} SortSorts(s: seq<nat>)
    ensures Ascending(Sort(s)) && multiset(Sort(s)) == multiset(s) && |Sort(s)| == |s|
  {
    if s != [] {
      SortSorts(s[1..]);
      InsertAdds(s[0], Sort(s[1..]));
      InsertKeepsOrder(s[0], Sort(s[1..]));
      assert s == [s[0]] + s[1..];
    }
  }

  // ── Counting samples ───────────────────────────────────────────────────────

  /** How many samples are at most `v`. */
  function AtMost(s: seq<nat>, v: nat): nat {
    if s == [] then 0 else (if s[0] <= v then 1 else 0) + AtMost(s[1..], v)
  }

  lemma {:induction false} AtMostInsert(x: nat, s: seq<nat>, v: nat)
    ensures AtMost(Insert(x, s), v) == (if x <= v then 1 else 0) + AtMost(s, v)
  {
    var r := Insert(x, s);
    if s == [] || x <= s[0] {
      assert r[1..] == s;
    } else {
      assert r[1..] == Insert(x, s[1..]);
      AtMostInsert(x, s[1..], v);
    }
  }

  lemma {:induction false} AtMostSort(s: seq<nat>, v: nat)
    ensures AtMost(Sort(s), v) == AtMost(s, v)
  {
    if s != [] {
      AtMostSort(s[1..], v);
      AtMostInsert(s[0], Sort(s[1..]), v);
    }
  }

  /** In an ascending sequence the first `k` are the ones at most `v` when `v` splits it there. */
  lemma {:induction false} AtMostAscending(s: seq<nat>, v: nat, k: nat)
    requires Ascending(s) && k <= |s|
    ensures (forall i :: 0 <= i < k ==> s[i] <= v) ==> AtMost(s, v) >= k
    ensures (forall i :: k <= i < |s| ==> v < s[i]) ==> AtMost(s, v) <= k
  {
    if s != [] {
      var rest := s[1..];
      AtMostAscending(rest, v, if k > 0 then k - 1 else 0);
      assert forall i :: 1 <= i < |s| ==> s[i] == rest[i - 1];
      if k > 0 {
        assert (forall i :: 0 <= i < k ==> s[i] <= v) ==> forall i :: 0 <= i < k - 1 ==> rest[i] <= v;
      }
    }
  }

  /**
   The sample of rank `k` in sorted order, said of the samples in any order: it is one of them, more
   than `k` samples are at most it, and no more than `k` are below it.
   */
  lemma RankCounts(s: seq<nat>, k: nat)
    requires k < |s|
    ensures |Sort(s)| == |s| && Sort(s)[k] in s
    ensures AtMost(s, Sort(s)[k]) >= k + 1
    ensures Sort(s)[k] > 0 ==> AtMost(s, Sort(s)[k] - 1) <= k
  {
    SortSorts(s);
    var t := Sort(s);
    assert t[k] in multiset(t);
    AtMostSort(s, t[k]);
    AtMostAscending(t, t[k], k + 1);
    if t[k] > 0 {
      AtMostSort(s, t[k] - 1);
      AtMostAscending(t, t[k] - 1, k);
    }
  }

  // ── The summary ────────────────────────────────────────────────────────────

  datatype Stats = Stats(count: nat, total: nat, mean: real, min: nat, max: nat, p50: nat, p95: nat, p99: nat)

  function Min(a: nat, b: nat): nat {
    if a <= b then a else b
  }

  /** `from_samples` */
  function FromSamples(samples: seq<nat>): Option<Stats> {
    if samples == [] then None
    else
      SortSorts(samples);
      var s, n := Sort(samples), |samples|;
      Some(Stats(n, Sum(samples), Sum(samples) as real / n as real, s[0], s[n - 1], s[n / 2],
                 s[Min(n * 95 / 100, n - 1)], s[Min(n * 99 / 100, n - 1)]))
  }

  /** `p` is a sample with more than `percent` of the samples at or below it and at most that many below. */
  ghost predicate IsPercentile(samples: seq<nat>, p: nat, percent: nat) {
    && p in samples
    && AtMost(samples, p) * 100 > percent * |samples|
    && (p > 0 ==> AtMost(samples, p - 1) * 100 <= percent * |samples|)
  }

  lemma RankIsPercentile(samples: seq<nat>, percent: nat)
    requires samples != [] && percent < 100
    ensures |Sort(samples)| == |samples| && |samples| * percent / 100 < |samples|
    ensures IsPercentile(samples, Sort(samples)[|samples| * percent / 100], percent)
  {
    var k := |samples| * percent / 100;
    assert |samples| * percent <= |samples| * 99;
    RankCounts(samples, k);
  }

  lemma Extremes(samples: seq<nat>)
    requires samples != []
    ensures |Sort(samples)| == |samples| && Ascending(Sort(samples))
    ensures Sort(samples)[0] in samples && Sort(samples)[|samples| - 1] in samples
    ensures forall x :: x in samples ==> Sort(samples)[0] <= x <= Sort(samples)[|samples| - 1]
  {
    SortSorts(samples);
    var s, n := Sort(samples), |samples|;
    assert s[0] in multiset(s) && s[n - 1] in multiset(s);
    forall x | x in samples ensures s[0] <= x <= s[n - 1] {
      assert x in multiset(s);
      var i :| 0 <= i < n && s[i] == x;
    }
  }

  lemma RanksAscend(n: nat)
    requires n > 0
    ensures n * 50 / 100 == n / 2 && n / 2 <= n * 95 / 100 <= n * 99 / 100 <= n - 1
  {
  }

  /** For every non-empty sample: the percentiles are ordered and are what their names say. */
  lemma StatsMeaning(samples: seq<nat>)
    requires samples != []
    ensures var r := FromSamples(samples).value;
            && r.min <= r.p50 <= r.p95 <= r.p99 <= r.max
            && r.min in samples && r.max in samples && (forall x :: x in samples ==> r.min <= x <= r.max)
            && IsPercentile(samples, r.p50, 50)
            && IsPercentile(samples, r.p95, 95)
            && IsPercentile(samples, r.p99, 99)
  {
    var n := |samples|;
    Extremes(samples);
    RankIsPercentile(samples, 50);
    RankIsPercentile(samples, 95);
    RankIsPercentile(samples, 99);
    RanksAscend(n);
  }
}
