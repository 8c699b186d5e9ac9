/**
 Adding up the metrics of trials: the dictionary the loop fills, and the sums it must hold.
 */
module Aggregation {
  import opened Ordering
  import opened Trials

  /* ---------- Sums over lists ---------- */

  function Sum<T>(f: T -> int, xs: seq<T>): int
  {
    if xs == [] then 0 else f(xs[0]) + Sum(f, xs[1..])
  }

  lemma {:induction false} SumJoin<T>(f: T -> int, xs: seq<T>, ys: seq<T>)
    ensures Sum(f, xs + ys) == Sum(f, xs) + Sum(f, ys)
  {
    if xs == [] {
      assert xs + ys == ys;
    } else {
      SumJoin(f, xs[1..], ys);
      assert (xs + ys)[1..] == xs[1..] + ys;
    }
  }

  /** A sum does not depend on the order of its terms. */
  lemma {:induction false} SumPermuted<T>(f: T -> int, xs: seq<T>, ys: seq<T>)
    requires multiset(xs) == multiset(ys)
    ensures Sum(f, xs) == Sum(f, ys)
  {
    assert |multiset(xs)| == |xs| && |multiset(ys)| == |ys|;
    if xs != [] {
      assert xs[0] in multiset(ys);
      var k :| 0 <= k < |ys| && ys[k] == xs[0];
      var rest := ys[..k] + ys[k + 1..];
      assert ys == ys[..k] + ([ys[k]] + ys[k + 1..]);
      assert multiset(rest) == multiset(ys) - multiset{xs[0]};
      MultisetTail(xs);
      SumPermuted(f, xs[1..], rest);
      SumJoin(f, ys[..k], [ys[k]] + ys[k + 1..]);
      SumJoin(f, ys[..k], ys[k + 1..]);
      assert ([ys[k]] + ys[k + 1..])[1..] == ys[k + 1..];
    }
  }

  lemma {:induction false} SumBound<T>(f: T -> int, xs: seq<T>, low: int, high: int)
    requires forall i :: 0 <= i < |xs| ==> low <= f(xs[i]) <= high
    ensures |xs| * low <= Sum(f, xs) <= |xs| * high
  {
    if xs != [] {
      SumBound(f, xs[1..], low, high);
    }
  }

  lemma {:induction false} SumZero<T>(f: T -> int, xs: seq<T>)
    requires forall i :: 0 <= i < |xs| ==> f(xs[i]) == 0
    ensures Sum(f, xs) == 0
  {
    if xs != [] {
      SumZero(f, xs[1..]);
    }
  }

  /** A sum that has only one term. */
  lemma {:induction false} SumSingle<T>(f: T -> int, xs: seq<T>, k: nat)
    requires k < |xs| && forall i :: 0 <= i < |xs| && i != k ==> f(xs[i]) == 0
    ensures Sum(f, xs) == f(xs[k])
  {
    if k == 0 {
      SumZero(f, xs[1..]);
    } else {
      SumSingle(f, xs[1..], k - 1);
    }
  }

  /* ---------- What the totals are ---------- */

  datatype Part = Numerator | Denominator

  function Component(m: Metric, p: Part): int
  {
    match p
    case Numerator => m.numerator
    case Denominator => m.denominator
  }

  /** What a metric contributes to the total for an id. */
  function Share(id: Text, p: Part): Metric -> int
  {
    (m: Metric) => if m.id == id then Component(m, p) else 0
  }

  /** What a trial contributes to the total for an id. */
  function TrialShare(id: Text, p: Part): Trial -> int
  {
    (t: Trial) => Sum(Share(id, p), t.content.metrics)
  }

  /** The total over all trials. */
  function Total(ts: seq<Trial>, id: Text, p: Part): int
  {
    Sum(TrialShare(id, p), ts)
  }

  ghost predicate Measured(ts: seq<Trial>, id: Text)
  {
    exists i, j :: 0 <= i < |ts| && 0 <= j < |ts[i].content.metrics| && ts[i].content.metrics[j].id == id
  }

  /** `AggregateExactMetric` lists one row per metric measured, sorted by id, with the exact totals. */
  ghost predicate IsAggregate(ts: seq<Trial>, rows: seq<Metric>)
  {
    Strict(rows, MetricKey) &&
    (forall i :: 0 <= i < |rows| ==>
      Measured(ts, rows[i].id) &&
      rows[i].numerator == Total(ts, rows[i].id, Numerator) &&
      rows[i].denominator == Total(ts, rows[i].id, Denominator)) &&
    forall id :: Measured(ts, id) ==> exists i :: 0 <= i < |rows| && rows[i].id == id
  }

  lemma TotalPermuted(ts: seq<Trial>, us: seq<Trial>, id: Text)
    requires multiset(ts) == multiset(us)
    ensures forall p :: Total(ts, id, p) == Total(us, id, p)
    ensures Measured(ts, id) ==> Measured(us, id)
  {
    forall p ensures Total(ts, id, p) == Total(us, id, p) {
      SumPermuted(TrialShare(id, p), ts, us);
    }
    if Measured(ts, id) {
      var i, j :| 0 <= i < |ts| && 0 <= j < |ts[i].content.metrics| && ts[i].content.metrics[j].id == id;
      assert ts[i] in multiset(us);
      var k :| 0 <= k < |us| && us[k] == ts[i];
    }
  }

  lemma AggregateCovers(ts: seq<Trial>, us: seq<Trial>, rows: seq<Metric>, others: seq<Metric>)
    requires multiset(ts) == multiset(us) && IsAggregate(ts, rows) && IsAggregate(us, others)
    ensures forall i :: 0 <= i < |rows| ==> rows[i] in others
  {
    forall i | 0 <= i < |rows| ensures rows[i] in others {
      var id := rows[i].id;
      TotalPermuted(ts, us, id);
      var k :| 0 <= k < |others| && others[k].id == id;
      assert others[k] == rows[i];
    }
  }

  /** The rows are determined by the trials, in whatever order they come. */
  lemma AggregateUnique(ts: seq<Trial>, us: seq<Trial>, rows: seq<Metric>, others: seq<Metric>)
    requires multiset(ts) == multiset(us) && IsAggregate(ts, rows) && IsAggregate(us, others)
    ensures rows == others
  {
    AggregateCovers(ts, us, rows, others);
    AggregateCovers(us, ts, others, rows);
    SameElements(rows, others, MetricKey);
    SortedUnique(rows, others, MetricKey);
  }

  /* ---------- The bound of an aggregate ---------- */

  /** The check of the constructor of an aggregate row. */
  predicate RowOk(m: Metric)
  {
    0 <= m.numerator <= MAX_COMPONENT * MAX_EPISODES && 1 <= m.denominator <= MAX_COMPONENT * MAX_EPISODES
  }

  predicate AllMetricsOk(ts: seq<Trial>)
  {
    forall i :: 0 <= i < |ts| ==> MetricsOk(ts[i].content.metrics)
  }

  /** A trial measures an id at most once. */
  lemma {:induction false} ShareBound(ms: seq<Metric>, id: Text, p: Part)
    requires MetricsOk(ms)
    ensures 0 <= Sum(Share(id, p), ms) <= MAX_COMPONENT
    ensures (exists j :: 0 <= j < |ms| && ms[j].id == id) && p == Denominator ==> 1 <= Sum(Share(id, p), ms)
  {
    if j :| 0 <= j < |ms| && ms[j].id == id {
      forall i | 0 <= i < |ms| && i != j ensures Share(id, p)(ms[i]) == 0 {
        assert MetricKey(ms[i]) != MetricKey(ms[j]) by {
          if i < j {
            DifferentKey(ms, i, j);
          } else {
            DifferentKey(ms, j, i);
          }
        }
      }
      SumSingle(Share(id, p), ms, j);
      assert MetricOk(ms[j]);
    } else {
      SumZero(Share(id, p), ms);
    }
  }

  lemma DifferentKey(ms: seq<Metric>, i: nat, j: nat)
    requires DistinctKeys(ms, MetricKey) && i < j < |ms|
    ensures MetricKey(ms[i]) != MetricKey(ms[j])
  {
  }

  lemma {:induction false} SumAtLeast<T>(f: T -> int, xs: seq<T>, k: nat)
    requires k < |xs| && forall i :: 0 <= i < |xs| ==> 0 <= f(xs[i])
    ensures f(xs[k]) <= Sum(f, xs)
  {
    SumBoundBelow(f, xs[1..]);
    if k > 0 {
      SumAtLeast(f, xs[1..], k - 1);
    }
  }

  lemma {:induction false} SumBoundBelow<T>(f: T -> int, xs: seq<T>)
    requires forall i :: 0 <= i < |xs| ==> 0 <= f(xs[i])
    ensures 0 <= Sum(f, xs)
  {
    if xs != [] {
      SumBoundBelow(f, xs[1..]);
    }
  }

  /** The totals of verified trials satisfy the bound, so no aggregate row is ever refused. */
  lemma AggregateBounded(ts: seq<Trial>, rows: seq<Metric>)
    requires IsAggregate(ts, rows) && AllMetricsOk(ts) && |ts| <= MAX_EPISODES
    ensures forall i :: 0 <= i < |rows| ==> RowOk(rows[i])
  {
    forall k | 0 <= k < |rows| ensures RowOk(rows[k]) {
      var id := rows[k].id;
      forall i, p | 0 <= i < |ts| ensures 0 <= TrialShare(id, p)(ts[i]) <= MAX_COMPONENT {
        ShareBound(ts[i].content.metrics, id, p);
      }
      SumBound(TrialShare(id, Numerator), ts, 0, MAX_COMPONENT);
      SumBound(TrialShare(id, Denominator), ts, 0, MAX_COMPONENT);
      var i, j :| 0 <= i < |ts| && 0 <= j < |ts[i].content.metrics| && ts[i].content.metrics[j].id == id;
      ShareBound(ts[i].content.metrics, id, Denominator);
      SumAtLeast(TrialShare(id, Denominator), ts, i);
    }
  }

  /* ---------- The loop ---------- */

  /** The two sums a metric id is mapped to. */
  datatype Pair = Pair(numerator: int, denominator: int)

  ghost predicate Occurs(ms: seq<Metric>, id: Text)
  {
    exists i :: 0 <= i < |ms| && ms[i].id == id
  }

  lemma OccursJoin(ms: seq<Metric>, ns: seq<Metric>, id: Text)
    ensures Occurs(ms + ns, id) <==> Occurs(ms, id) || Occurs(ns, id)
  {
    var all := ms + ns;
    if Occurs(ms, id) {
      var i :| 0 <= i < |ms| && ms[i].id == id;
      assert all[i].id == id;
    }
    if Occurs(ns, id) {
      var i :| 0 <= i < |ns| && ns[i].id == id;
      assert all[|ms| + i].id == id;
    }
    if Occurs(all, id) {
      var i :| 0 <= i < |all| && all[i].id == id;
      assert if i < |ms| then ms[i].id == id else ns[i - |ms|].id == id;
    }
  }

  lemma OccursOne(m: Metric, id: Text)
    ensures Occurs([m], id) <==> m.id == id
  {
    assert [m][0] == m;
  }

  function Sums(seen: seq<Metric>, id: Text): Pair
  {
    Pair(Sum(Share(id, Numerator), seen), Sum(Share(id, Denominator), seen))
  }

  /** What the dictionary holds once the metrics seen are added up; keys lists its keys as inserted. */
  ghost predicate Adds(seen: seq<Metric>, keys: seq<Text>, totals: map<Text, Pair>)
  {
    DistinctKeys(keys, Identity) &&
    (forall i :: 0 <= i < |keys| ==> keys[i] in totals) &&
    (forall id :: id in totals <==> Occurs(seen, id)) &&
    (forall id {:trigger id in keys} :: id in totals ==> id in keys) &&
    forall id {:trigger totals[id]} :: id in totals ==> totals[id] == Sums(seen, id)
  }

  lemma {:induction false} SumNext(id: Text, p: Part, seen: seq<Metric>, m: Metric)
    ensures Sum(Share(id, p), seen + [m]) == Sum(Share(id, p), seen) + Share(id, p)(m)
  {
    SumJoin(Share(id, p), seen, [m]);
  }

  lemma {:induction false} SumAbsent(id: Text, p: Part, seen: seq<Metric>)
    requires !Occurs(seen, id)
    ensures Sum(Share(id, p), seen) == 0
  {
    SumZero(Share(id, p), seen);
  }

  /** An id not in the dictionary starts at zero. */
  function Increased(totals: map<Text, Pair>, m: Metric): map<Text, Pair>
  {
    var t := if m.id in totals then totals[m.id] else Pair(0, 0);
    totals[m.id := Pair(t.numerator + m.numerator, t.denominator + m.denominator)]
  }

  lemma AddsNext(seen: seq<Metric>, keys: seq<Text>, totals: map<Text, Pair>, m: Metric)
    requires Adds(seen, keys, totals)
    ensures Adds(seen + [m], if m.id in totals then keys else keys + [m.id], Increased(totals, m))
  {
    var keys' := if m.id in totals then keys else keys + [m.id];
    var totals' := Increased(totals, m);
    var seen' := seen + [m];
    forall id ensures id in totals' <==> Occurs(seen', id) {
      OccursJoin(seen, [m], id);
      OccursOne(m, id);
    }
    forall id | id in totals'
      ensures totals'[id] == Sums(seen', id)
      ensures id in keys'
    {
      SumNext(id, Numerator, seen, m);
      SumNext(id, Denominator, seen, m);
      if id !in totals {
        SumAbsent(id, Numerator, seen);
        SumAbsent(id, Denominator, seen);
        assert keys'[|keys|] == id;
      } else {
        assert id in keys;
      }
    }
    forall i, j | 0 <= i < j < |keys'| ensures Identity(keys'[i]) != Identity(keys'[j]) {
      if j == |keys| {
        assert keys[i] in totals;
      }
    }
  }

  /** All metrics of all trials. */
  function Pooled(ts: seq<Trial>): seq<Metric>
  {
    if ts == [] then [] else ts[0].content.metrics + Pooled(ts[1..])
  }

  lemma {:induction false} PooledTotal(ts: seq<Trial>, id: Text, p: Part)
    ensures Sum(Share(id, p), Pooled(ts)) == Total(ts, id, p)
  {
    if ts != [] {
      SumJoin(Share(id, p), ts[0].content.metrics, Pooled(ts[1..]));
      PooledTotal(ts[1..], id, p);
    }
  }

  lemma MeasuredFirst(t: Trial, ts: seq<Trial>, id: Text)
    ensures Measured([t] + ts, id) <==> Occurs(t.content.metrics, id) || Measured(ts, id)
  {
    var all := [t] + ts;
    assert all[0] == t;
    if Measured(all, id) {
      var i, j :| 0 <= i < |all| && 0 <= j < |all[i].content.metrics| && all[i].content.metrics[j].id == id;
      assert i > 0 ==> ts[i - 1].content.metrics[j].id == id;
    }
    if Measured(ts, id) {
      var i, j :| 0 <= i < |ts| && 0 <= j < |ts[i].content.metrics| && ts[i].content.metrics[j].id == id;
      assert all[i + 1].content.metrics[j].id == id;
    }
  }

  lemma {:induction false} PooledMeasured(ts: seq<Trial>, id: Text)
    ensures Measured(ts, id) <==> Occurs(Pooled(ts), id)
  {
    if ts != [] {
      PooledMeasured(ts[1..], id);
      OccursJoin(ts[0].content.metrics, Pooled(ts[1..]), id);
      MeasuredFirst(ts[0], ts[1..], id);
      assert ts == [ts[0]] + ts[1..];
    }
  }

  function Rows(keys: seq<Text>, totals: map<Text, Pair>): (r: seq<Metric>)
    requires forall i :: 0 <= i < |keys| ==> keys[i] in totals
    ensures |r| == |keys|
    ensures forall i :: 0 <= i < |keys| ==>
              r[i] == Metric(keys[i], totals[keys[i]].numerator, totals[keys[i]].denominator)
  {
    seq(|keys|, i requires 0 <= i < |keys| => Metric(keys[i], totals[keys[i]].numerator, totals[keys[i]].denominator))
  }

  /** The row for a key holds the totals of the trials. */
  lemma {:induction false} RowExact(ts: seq<Trial>, keys: seq<Text>, totals: map<Text, Pair>, id: Text)
    requires Adds(Pooled(ts), keys, totals)
    ensures id in totals <==> Measured(ts, id)
    ensures id in totals ==>
              totals[id].numerator == Total(ts, id, Numerator) && totals[id].denominator == Total(ts, id, Denominator)
  {
    PooledMeasured(ts, id);
    PooledTotal(ts, id, Numerator);
    PooledTotal(ts, id, Denominator);
  }

  lemma {:induction false} SortedKeys(seen: seq<Metric>, keys: seq<Text>, totals: map<Text, Pair>)
    requires Adds(seen, keys, totals)
    ensures Strict(Sort(keys, Identity), Identity)
    ensures forall i :: 0 <= i < |Sort(keys, Identity)| ==> Sort(keys, Identity)[i] in totals
    ensures forall id :: id in totals ==> id in Sort(keys, Identity)
  {
    var sorted := Sort(keys, Identity);
    SortSorted(keys, Identity);
    DistinctKeysMultiset(keys, sorted, Identity);
    forall i | 0 <= i < |sorted| ensures sorted[i] in totals {
      SortMember(keys, Identity, sorted[i]);
    }
    forall id | id in totals ensures id in sorted {
      SortMember(keys, Identity, id);
    }
  }

  lemma RowsStrict(sorted: seq<Text>, totals: map<Text, Pair>)
    requires Strict(sorted, Identity) && forall i :: 0 <= i < |sorted| ==> sorted[i] in totals
    ensures Strict(Rows(sorted, totals), MetricKey)
  {
    var rows := Rows(sorted, totals);
    forall i, j | 0 <= i < j < |rows|
      ensures MetricKey(rows[i]) != MetricKey(rows[j]) && Leq(MetricKey(rows[i]), MetricKey(rows[j]))
    {
      assert Identity(sorted[i]) != Identity(sorted[j]) && Leq(Identity(sorted[i]), Identity(sorted[j]));
    }
  }

  lemma {:induction false} RowsAggregate(ts: seq<Trial>, keys: seq<Text>, totals: map<Text, Pair>, sorted: seq<Text>)
    requires Adds(Pooled(ts), keys, totals) && Strict(sorted, Identity)
    requires forall i :: 0 <= i < |sorted| ==> sorted[i] in totals
    requires forall id :: id in totals ==> id in sorted
    ensures IsAggregate(ts, Rows(sorted, totals))
  {
    var rows := Rows(sorted, totals);
    RowsStrict(sorted, totals);
    forall i | 0 <= i < |rows|
      ensures Measured(ts, rows[i].id)
      ensures rows[i].numerator == Total(ts, rows[i].id, Numerator)
      ensures rows[i].denominator == Total(ts, rows[i].id, Denominator)
    {
      RowExact(ts, keys, totals, sorted[i]);
    }
    forall id | Measured(ts, id) ensures exists i :: 0 <= i < |rows| && rows[i].id == id {
      RowExact(ts, keys, totals, id);
      var k :| 0 <= k < |sorted| && sorted[k] == id;
      assert rows[k].id == id;
    }
  }

  lemma PooledNext(ts: seq<Trial>, i: nat)
    requires i < |ts|
    ensures Pooled(ts[i..]) == ts[i].content.metrics + Pooled(ts[i + 1..])
  {
    assert ts[i..][1..] == ts[i + 1..];
  }

  lemma SeenNext(seen: seq<Metric>, metrics: seq<Metric>, j: nat)
    requires j < |metrics|
    ensures (seen + [metrics[j]]) + metrics[j + 1..] == seen + metrics[j..]
  {
  }

  /** The inner loop of `_report_from_evidence`: one trial's metrics go into the dictionary. */
  method AddTrial(metrics: seq<Metric>, keys0: seq<Text>, totals0: map<Text, Pair>, ghost seen0: seq<Metric>)
      returns (keys: seq<Text>, totals: map<Text, Pair>)
    requires Adds(seen0, keys0, totals0)
    ensures Adds(seen0 + metrics, keys, totals)
  {
    keys, totals := keys0, totals0;
    ghost var seen := seen0;
    var j := 0;
    assert metrics[0..] == metrics;
    while j < |metrics|
      invariant 0 <= j <= |metrics| && seen + metrics[j..] == seen0 + metrics
      invariant Adds(seen, keys, totals)
    {
      AddsNext(seen, keys, totals, metrics[j]);
      SeenNext(seen, metrics, j);
      seen := seen + [metrics[j]];
      keys := if metrics[j].id in totals then keys else keys + [metrics[j].id];
      totals := Increased(totals, metrics[j]);
      j := j + 1;
    }
    assert seen + metrics[j..] == seen;
  }

  /** The metric loop of `_report_from_evidence` and the rows built from its dictionary. */
  method Aggregate(trials: seq<Trial>) returns (rows: seq<Metric>)
    ensures IsAggregate(trials, rows)
  {
    var keys: seq<Text> := [];
    var totals: map<Text, Pair> := map[];
    ghost var seen: seq<Metric> := [];
    var i := 0;
    assert trials[0..] == trials;
    while i < |trials|
      invariant 0 <= i <= |trials| && Pooled(trials) == seen + Pooled(trials[i..])
      invariant Adds(seen, keys, totals)
    {
      PooledNext(trials, i);
      assert (seen + trials[i].content.metrics) + Pooled(trials[i + 1..]) == Pooled(trials);
      keys, totals := AddTrial(trials[i].content.metrics, keys, totals, seen);
      seen := seen + trials[i].content.metrics;
      i := i + 1;
    }
    assert trials[i..] == [];
    assert seen == Pooled(trials);
    SortedKeys(seen, keys, totals);
    RowsAggregate(trials, keys, totals, Sort(keys, Identity));
    rows := Rows(Sort(keys, Identity), totals);
  }
}
