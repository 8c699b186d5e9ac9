/**
 The dependency check of requests and plans: Kahn's algorithm with a sorted ready list.

 The mapping from steps to dependencies is given as a map together with its insertion order.
 */
module Dependencies {
  import opened Ordering

  type Deps = map<Text, seq<Text>>

  function TextKey(t: Text): Key
  {
    t
  }

  function SortTexts(ts: seq<Text>): (r: seq<Text>)
    ensures multiset(r) == multiset(ts) && |r| == |ts|
  {
    Sort(ts, TextKey)
  }

  /** keys lists the steps of the mapping, each once. */
  ghost predicate IsMapping(deps: Deps, keys: seq<Text>)
  {
    Distinct(keys) && forall s :: s in keys <==> s in deps
  }

  ghost predicate AllKnown(deps: Deps)
  {
    forall s, d :: s in deps && d in deps[s] ==> d in deps
  }

  /* ---------- What a good order is ---------- */

  /** Every dependency of s is already emitted, and s itself is not. */
  predicate IsReady(deps: Deps, emitted: seq<Text>, s: Text)
  {
    s in deps && s !in emitted && forall d :: d in deps[s] ==> d in emitted
  }

  /** Every step once, and after all its dependencies. */
  ghost predicate IsTopological(deps: Deps, o: seq<Text>)
  {
    Distinct(o) && (forall s :: s in o <==> s in deps) &&
    forall i :: 0 <= i < |o| ==> o[i] in deps && forall d :: d in deps[o[i]] ==> d in o[..i]
  }

  /** Lexicographic order on lists of steps. */
  predicate Precedes(a: seq<Text>, b: seq<Text>)
  {
    b != [] && (a == [] || Less(a[0], b[0]) || (a[0] == b[0] && Precedes(a[1..], b[1..])))
  }

  /** The topological order that comes first lexicographically. */
  ghost predicate IsLeastOrder(deps: Deps, o: seq<Text>)
  {
    IsTopological(deps, o) && forall o' :: IsTopological(deps, o') ==> o == o' || Precedes(o, o')
  }

  /** Each step of c depends on the next one, and the last on the first. */
  ghost predicate IsCycle(deps: Deps, c: seq<Text>)
  {
    c != [] && (forall i :: 0 <= i < |c| ==> c[i] in deps) &&
    (forall i :: 0 <= i < |c| - 1 ==> c[i + 1] in deps[c[i]]) && c[0] in deps[c[|c| - 1]]
  }

  ghost predicate Acyclic(deps: Deps)
  {
    forall c :: !IsCycle(deps, c)
  }

  /* ---------- Greedy orders are least ---------- */

  /** Every emitted step was the least of the steps that were ready. */
  ghost predicate Greedy(deps: Deps, o: seq<Text>)
  {
    forall i :: 0 <= i < |o| ==>
      IsReady(deps, o[..i], o[i]) && forall s: Text :: IsReady(deps, o[..i], s) ==> Leq(o[i], s)
  }

  lemma GreedyDistinct(deps: Deps, o: seq<Text>)
    requires Greedy(deps, o)
    ensures Distinct(o) && forall s :: s in o ==> s in deps
  {
    forall i, j | 0 <= i < j < |o| ensures o[i] != o[j] {
      assert IsReady(deps, o[..j], o[j]);
      assert o[..j][i] == o[i];
    }
    forall s | s in o ensures s in deps {
      var i :| 0 <= i < |o| && o[i] == s;
      assert IsReady(deps, o[..i], o[i]);
    }
  }

  lemma {:induction false} DistinctCount(o: seq<Text>, m: set<Text>)
    requires Distinct(o) && forall s :: s in o ==> s in m
    ensures |o| <= |m|
    ensures |o| == |m| ==> forall s :: s in m ==> s in o
  {
    if o != [] {
      var n := |o| - 1;
      var m' := m - {o[n]};
      assert o[n] in m;
      forall s | s in o[..n] ensures s in m' {
        var i :| 0 <= i < n && o[..n][i] == s;
        assert o[i] != o[n];
      }
      DistinctCount(o[..n], m');
      assert forall s :: s in m ==> s in m' || s == o[n];
      assert forall s :: s in o[..n] ==> s in o;
    }
  }

  /** A greedy order that emits every step is topological. */
  lemma GreedyTopological(deps: Deps, o: seq<Text>)
    requires Greedy(deps, o) && |o| == |deps|
    ensures IsTopological(deps, o)
  {
    GreedyDistinct(deps, o);
    assert |deps.Keys| == |deps|;
    DistinctCount(o, deps.Keys);
    forall i | 0 <= i < |o| ensures o[i] in deps && forall d :: d in deps[o[i]] ==> d in o[..i] {
      assert IsReady(deps, o[..i], o[i]);
    }
  }

  /** In a topological order, the step after a prefix is ready. */
  lemma NextIsReady(deps: Deps, o: seq<Text>, i: nat)
    requires IsTopological(deps, o) && i < |o|
    ensures IsReady(deps, o[..i], o[i])
  {
    assert o[i] !in o[..i];
  }

  lemma {:induction false} PrecedesAt(a: seq<Text>, b: seq<Text>, i: nat)
    requires i < |a| && i < |b| && a[..i] == b[..i] && Less(a[i], b[i])
    ensures Precedes(a, b)
    decreases i
  {
    if i > 0 {
      assert a[0] == a[..i][0] && b[0] == b[..i][0];
      assert a[1..][..i - 1] == a[..i][1..] && b[1..][..i - 1] == b[..i][1..];
      PrecedesAt(a[1..], b[1..], i - 1);
    }
  }

  lemma {:induction false} GreedyPrecedes(deps: Deps, o: seq<Text>, o': seq<Text>, i: nat)
    requires Greedy(deps, o) && IsTopological(deps, o') && |o| == |o'|
    requires i <= |o| && o[..i] == o'[..i]
    ensures o == o' || Precedes(o, o')
    decreases |o| - i
  {
    if i == |o| {
      assert o[..i] == o && o'[..i] == o';
    } else if o[i] == o'[i] {
      assert o[..i + 1] == o[..i] + [o[i]] && o'[..i + 1] == o'[..i] + [o'[i]];
      GreedyPrecedes(deps, o, o', i + 1);
    } else {
      NextIsReady(deps, o', i);
      assert Leq(o[i], o'[i]);
      LessTrichotomy(o[i], o'[i]);
      PrecedesAt(o, o', i);
    }
  }

  /** A greedy order that emits every step is the least topological order. */
  lemma GreedyLeast(deps: Deps, o: seq<Text>)
    requires Greedy(deps, o) && |o| == |deps|
    ensures IsLeastOrder(deps, o)
  {
    GreedyTopological(deps, o);
    forall o' | IsTopological(deps, o') ensures o == o' || Precedes(o, o') {
      SameLength(deps, o, o');
      assert o[..0] == o'[..0];
      GreedyPrecedes(deps, o, o', 0);
    }
  }

  lemma SameLength(deps: Deps, o: seq<Text>, o': seq<Text>)
    requires IsTopological(deps, o) && IsTopological(deps, o')
    ensures |o| == |o'|
  {
    DistinctLength(o, deps.Keys);
    DistinctLength(o', deps.Keys);
  }

  lemma {:induction false} DistinctLength(o: seq<Text>, m: set<Text>)
    requires Distinct(o) && forall s :: s in o <==> s in m
    ensures |o| == |m|
  {
    if o != [] {
      var n := |o| - 1;
      assert o[n] in m;
      forall s ensures s in o[..n] <==> s in m - {o[n]} {
        if s in o[..n] {
          var i :| 0 <= i < n && o[..n][i] == s;
          assert o[i] != o[n];
        }
        if s in m - {o[n]} {
          var i :| 0 <= i < |o| && o[i] == s;
          assert o[..n][i] == s;
        }
      }
      DistinctLength(o[..n], m - {o[n]});
    } else {
      assert forall s :: s in m ==> s in o;
      assert m == {};
    }
  }

  lemma {:induction false} PrecedesAntisymmetric(a: seq<Text>, b: seq<Text>)
    requires Precedes(a, b) && Precedes(b, a)
    ensures false
  {
    if a != [] && b != [] {
      LessAsymmetric(a[0], b[0]);
      LessIrreflexive(a[0]);
      PrecedesAntisymmetric(a[1..], b[1..]);
    }
  }

  /** There is at most one least order. */
  lemma LeastOrderUnique(deps: Deps, a: seq<Text>, b: seq<Text>)
    requires IsLeastOrder(deps, a) && IsLeastOrder(deps, b)
    ensures a == b
  {
    if a != b {
      PrecedesAntisymmetric(a, b);
    }
  }

  /* ---------- Cycles ---------- */

  /** Along a cycle, positions in a topological order would decrease for ever. */
  lemma {:induction false} PositionsDecrease(deps: Deps, o: seq<Text>, c: seq<Text>, k: nat, p: nat)
    requires IsTopological(deps, o) && IsCycle(deps, c) && k < |c|
    requires p < |o| && o[p] == c[0]
    ensures exists q :: 0 <= q <= p && q < |o| && o[q] == c[k]
    decreases k
  {
    if k > 0 {
      PositionsDecrease(deps, o, c, k - 1, p);
      var q :| 0 <= q <= p && q < |o| && o[q] == c[k - 1];
      assert c[k - 1 + 1] in deps[c[k - 1]];
      assert c[k] in o[..q];
      var r :| 0 <= r < q && o[..q][r] == c[k];
      assert o[r] == c[k];
    } else {
      assert o[p] == c[0];
    }
  }

  lemma NoCycle(deps: Deps, o: seq<Text>, c: seq<Text>)
    requires IsTopological(deps, o)
    ensures !IsCycle(deps, c)
  {
    if IsCycle(deps, c) {
      assert c[0] in o;
      var p :| 0 <= p < |o| && o[p] == c[0];
      PositionsDecrease(deps, o, c, |c| - 1, p);
    }
  }

  /** A topological order excludes cycles. */
  lemma TopologicalIsAcyclic(deps: Deps, o: seq<Text>)
    requires IsTopological(deps, o)
    ensures Acyclic(deps)
  {
    forall c ensures !IsCycle(deps, c) {
      NoCycle(deps, o, c);
    }
  }

  /** Each step of the walk depends on the next one. */
  ghost predicate IsWalk(deps: Deps, w: seq<Text>)
  {
    (forall i :: 0 <= i < |w| ==> w[i] in deps) && forall i :: 0 <= i < |w| - 1 ==> w[i + 1] in deps[w[i]]
  }

  lemma CloseWalk(deps: Deps, w: seq<Text>, i: nat)
    requires IsWalk(deps, w) && i < |w| && w[i] in deps[w[|w| - 1]]
    ensures IsCycle(deps, w[i..]) && forall s :: s in w[i..] ==> s in w
  {
    var c := w[i..];
    forall k | 0 <= k < |c| ensures c[k] in deps && c[k] in w {
      assert c[k] == w[i + k];
    }
    forall k | 0 <= k < |c| - 1 ensures c[k + 1] in deps[c[k]] {
      assert c[k] == w[i + k] && c[k + 1] == w[i + k + 1];
    }
    assert c[|c| - 1] == w[|w| - 1] && c[0] == w[i];
  }

  lemma ExtendWalk(deps: Deps, w: seq<Text>, d: Text)
    requires IsWalk(deps, w) && Distinct(w) && w != [] && d in deps && d !in w && d in deps[w[|w| - 1]]
    ensures IsWalk(deps, w + [d]) && Distinct(w + [d])
  {
  }

  ghost predicate DependsWithin(deps: Deps, u: set<Text>, s: Text)
  {
    s in deps && exists d :: d in deps[s] && d in u
  }

  /** Every step of u depends on a step of u. */
  ghost predicate Blocked(deps: Deps, u: set<Text>)
  {
    forall s {:trigger DependsWithin(deps, u, s)} :: s in u ==> DependsWithin(deps, u, s)
  }

  /** A walk through steps that all depend on one another comes back to itself. */
  lemma {:induction false} FindCycle(deps: Deps, u: set<Text>, w: seq<Text>) returns (c: seq<Text>)
    requires Blocked(deps, u)
    requires w != [] && Distinct(w) && IsWalk(deps, w) && forall s :: s in w ==> s in u
    ensures IsCycle(deps, c) && forall s :: s in c ==> s in u
    decreases |u| - |w|
  {
    DistinctCount(w, u);
    var last := w[|w| - 1];
    assert last in w && DependsWithin(deps, u, last);
    var d :| d in deps[last] && d in u;
    if d in w {
      var i :| 0 <= i < |w| && w[i] == d;
      CloseWalk(deps, w, i);
      c := w[i..];
    } else {
      assert DependsWithin(deps, u, d);
      ExtendWalk(deps, w, d);
      DistinctCount(w + [d], u);
      c := FindCycle(deps, u, w + [d]);
    }
  }

  /** When some steps remain and none is ready, they contain a cycle. */
  lemma StuckMeansCycle(deps: Deps, emitted: seq<Text>) returns (c: seq<Text>)
    requires AllKnown(deps) && (exists s :: s in deps && s !in emitted)
    requires forall s: Text :: !IsReady(deps, emitted, s)
    ensures IsCycle(deps, c) && forall s :: s in c ==> s !in emitted
  {
    var u := set s | s in deps && s !in emitted;
    forall s | s in u ensures DependsWithin(deps, u, s) {
      assert !IsReady(deps, emitted, s);
      var d :| d in deps[s] && d !in emitted;
      assert d in u;
    }
    var s :| s in deps && s !in emitted;
    assert s in u;
    assert Blocked(deps, u);
    assert IsWalk(deps, [s]);
    assert Distinct([s]);
    c := FindCycle(deps, u, [s]);
  }

  /* ---------- The counters of the algorithm ---------- */

  /** How many dependencies of the list are not emitted yet, repetitions counted. */
  function PendingCount(ds: seq<Text>, emitted: seq<Text>): nat
  {
    if ds == [] then 0 else (if ds[0] in emitted then 0 else 1) + PendingCount(ds[1..], emitted)
  }

  lemma {:induction false} PendingZero(ds: seq<Text>, emitted: seq<Text>)
    ensures PendingCount(ds, emitted) == 0 <==> forall d :: d in ds ==> d in emitted
  {
    if ds != [] {
      PendingZero(ds[1..], emitted);
      assert ds == [ds[0]] + ds[1..];
    }
  }

  lemma {:induction false} PendingAfter(ds: seq<Text>, emitted: seq<Text>, c: Text)
    requires c !in emitted
    ensures PendingCount(ds, emitted + [c]) + multiset(ds)[c] == PendingCount(ds, emitted)
  {
    if ds != [] {
      PendingAfter(ds[1..], emitted, c);
      assert ds == [ds[0]] + ds[1..];
    }
  }

  lemma {:induction false} PendingNone(ds: seq<Text>)
    ensures PendingCount(ds, []) == |ds|
  {
    if ds != [] {
      PendingNone(ds[1..]);
    }
  }

  lemma CountPush(ts: seq<Text>, i: nat, x: Text)
    requires i < |ts|
    ensures multiset(ts[..i + 1])[x] == multiset(ts[..i])[x] + if ts[i] == x then 1 else 0
  {
    assert ts[..i + 1] == ts[..i] + [ts[i]];
  }

  lemma CountPart(ts: seq<Text>, i: nat, x: Text)
    requires i <= |ts|
    ensures multiset(ts[..i])[x] <= multiset(ts)[x]
  {
    assert ts == ts[..i] + ts[i..];
  }

  /** dependents[d] lists every step as often as `given` lists d for it. */
  ghost predicate Inverted(given: Deps, dependents: Deps)
  {
    dependents.Keys == given.Keys &&
    forall d, s: Text :: d in dependents ==> multiset(dependents[d])[s] == if s in given then multiset(given[s])[d] else 0
  }

  /** indegree counts the dependencies not emitted yet; ready lists the ready steps, sorted. */
  ghost predicate Counts(deps: Deps, emitted: seq<Text>, indegree: map<Text, int>)
  {
    indegree.Keys == deps.Keys && forall s :: s in deps ==> indegree[s] == PendingCount(deps[s], emitted)
  }

  ghost predicate ListsReady(deps: Deps, emitted: seq<Text>, ready: seq<Text>)
  {
    SortedBy(ready, TextKey) && Distinct(ready) && forall s: Text :: s in ready <==> IsReady(deps, emitted, s)
  }

  ghost predicate KahnState(
      deps: Deps, dependents: Deps, emitted: seq<Text>, indegree: map<Text, int>, ready: seq<Text>)
  {
    AllKnown(deps) && Inverted(deps, dependents) &&
    Greedy(deps, emitted) && Counts(deps, emitted, indegree) && ListsReady(deps, emitted, ready)
  }

  /* ---------- One emission ---------- */

  lemma TailMember(ready: seq<Text>, s: Text)
    requires Distinct(ready) && ready != []
    ensures s in ready[1..] <==> s in ready && s != ready[0]
  {
    assert ready == [ready[0]] + ready[1..];
  }

  lemma ReadyCount(deps: Deps, emitted: seq<Text>, indegree: map<Text, int>, s: Text)
    requires Counts(deps, emitted, indegree) && s in deps
    ensures IsReady(deps, emitted, s) <==> s !in emitted && indegree[s] == 0
  {
    PendingZero(deps[s], emitted);
  }

  lemma GreedyPush(deps: Deps, emitted: seq<Text>, ready: seq<Text>)
    requires Greedy(deps, emitted) && ListsReady(deps, emitted, ready) && ready != []
    ensures Greedy(deps, emitted + [ready[0]])
  {
    var o := emitted + [ready[0]];
    assert ready[0] in ready;
    forall i | 0 <= i < |o|
      ensures IsReady(deps, o[..i], o[i]) && forall s: Text :: IsReady(deps, o[..i], s) ==> Leq(o[i], s)
    {
      if i < |emitted| {
        assert o[..i] == emitted[..i];
      } else {
        assert o[..i] == emitted;
        forall s: Text | IsReady(deps, emitted, s) ensures Leq(ready[0], s) {
          var k :| 0 <= k < |ready| && ready[k] == s;
          LessIrreflexive(ready[0]);
        }
      }
    }
  }

  lemma SortKeepsTexts(ready: seq<Text>, d: Text)
    requires Distinct(ready) && d !in ready
    ensures var r := SortTexts(ready + [d]);
      SortedBy(r, TextKey) && Distinct(r) && forall s: Text :: s in r <==> s in ready || s == d
  {
    var r := SortTexts(ready + [d]);
    SortSorted(ready + [d], TextKey);
    assert DistinctKeys(ready + [d], TextKey);
    DistinctKeysMultiset(ready + [d], r, TextKey);
    forall i, j | 0 <= i < j < |r| ensures r[i] != r[j] {
      assert TextKey(r[i]) != TextKey(r[j]);
    }
    forall s: Text ensures s in r <==> s in ready || s == d {
      SortMember(ready + [d], TextKey, s);
    }
  }

  /** The counters after c is emitted and the first i of its dependents are processed. */
  ghost predicate RelaxedCounts(deps: Deps, emitted: seq<Text>, list: seq<Text>, i: nat, indegree: map<Text, int>)
    requires i <= |list|
  {
    indegree.Keys == deps.Keys &&
    forall s :: s in deps ==> indegree[s] == PendingCount(deps[s], emitted) - multiset(list[..i])[s]
  }

  /** The ready list meanwhile: the steps whose counter is zero. */
  ghost predicate RelaxedReady(deps: Deps, emitted: seq<Text>, c: Text, indegree: map<Text, int>, ready: seq<Text>)
    requires indegree.Keys == deps.Keys
  {
    SortedBy(ready, TextKey) && Distinct(ready) &&
    forall s: Text :: s in ready <==> s in deps && s !in emitted && s != c && indegree[s] == 0
  }

  lemma RelaxStartReady(deps: Deps, emitted: seq<Text>, indegree: map<Text, int>, ready: seq<Text>)
    requires Counts(deps, emitted, indegree) && ListsReady(deps, emitted, ready) && ready != []
    ensures RelaxedReady(deps, emitted, ready[0], indegree, ready[1..])
  {
    forall s: Text
      ensures s in ready[1..] <==> s in deps && s !in emitted && s != ready[0] && indegree[s] == 0
    {
      TailMember(ready, s);
      if s in deps {
        ReadyCount(deps, emitted, indegree, s);
      }
    }
    TailSorted(ready);
  }

  lemma TailSorted(ready: seq<Text>)
    requires SortedBy(ready, TextKey) && Distinct(ready) && ready != []
    ensures SortedBy(ready[1..], TextKey) && Distinct(ready[1..])
  {
  }

  lemma RelaxNextCounts(deps: Deps, emitted: seq<Text>, list: seq<Text>, i: nat, indegree: map<Text, int>)
    requires i < |list| && list[i] in deps && RelaxedCounts(deps, emitted, list, i, indegree)
    ensures RelaxedCounts(deps, emitted, list, i + 1, indegree[list[i] := indegree[list[i]] - 1])
  {
    var indegree' := indegree[list[i] := indegree[list[i]] - 1];
    forall s | s in deps ensures indegree'[s] == PendingCount(deps[s], emitted) - multiset(list[..i + 1])[s] {
      CountPush(list, i, s);
    }
  }

  /** Before its occurrence at i is processed, list[i] still counts a dependency on c. */
  lemma {:induction false} StillPending(
      deps: Deps, emitted: seq<Text>, c: Text, list: seq<Text>, i: nat, indegree: map<Text, int>, d: Text)
    requires i < |list| && list[i] == d && d in deps && d in indegree && c !in emitted
    requires multiset(list)[d] == multiset(deps[d])[c]
    requires indegree[d] == PendingCount(deps[d], emitted) - multiset(list[..i])[d]
    ensures indegree[d] > 0 && c in deps[d] && !IsReady(deps, emitted, d)
  {
    CountPush(list, i, d);
    CountPart(list, i + 1, d);
    PendingAfter(deps[d], emitted, c);
    assert c in multiset(deps[d]);
  }

  lemma RelaxNextReady(
      deps: Deps, emitted: seq<Text>, c: Text, d: Text, indegree: map<Text, int>, ready: seq<Text>)
    requires indegree.Keys == deps.Keys && d in deps && indegree[d] > 0 && d !in emitted && d != c
    requires RelaxedReady(deps, emitted, c, indegree, ready)
    ensures var indegree' := indegree[d := indegree[d] - 1];
      RelaxedReady(deps, emitted, c, indegree', if indegree'[d] == 0 then SortTexts(ready + [d]) else ready)
  {
    if indegree[d] == 1 {
      SortKeepsTexts(ready, d);
    }
  }

  lemma RelaxDone(
      deps: Deps, emitted: seq<Text>, c: Text, list: seq<Text>,
      indegree: map<Text, int>, ready: seq<Text>)
    requires AllKnown(deps) && c in deps && c !in emitted
    requires forall s :: s in deps ==> multiset(list)[s] == multiset(deps[s])[c]
    requires RelaxedCounts(deps, emitted, list, |list|, indegree) && RelaxedReady(deps, emitted, c, indegree, ready)
    ensures Counts(deps, emitted + [c], indegree) && ListsReady(deps, emitted + [c], ready)
  {
    assert list[..|list|] == list;
    forall s | s in deps ensures indegree[s] == PendingCount(deps[s], emitted + [c]) {
      PendingAfter(deps[s], emitted, c);
    }
    forall s: Text ensures s in ready <==> IsReady(deps, emitted + [c], s) {
      if s in deps {
        ReadyCount(deps, emitted + [c], indegree, s);
      }
    }
  }

  /** The dependencies of an emitted step are emitted. */
  lemma EmittedClosed(deps: Deps, emitted: seq<Text>, d: Text)
    requires Greedy(deps, emitted) && d in emitted
    ensures d in deps && forall x :: x in deps[d] ==> x in emitted
  {
    var i :| 0 <= i < |emitted| && emitted[i] == d;
    assert IsReady(deps, emitted[..i], emitted[i]);
  }

  /* ---------- The algorithm ---------- */

  datatype Order =
    | Ordered(steps: seq<Text>)
    | MissingDependencies(step: Text, missing: set<Text>)
    | SelfDependency(step: Text)
    | Cyclic

  /** The first check: every dependency names another step of the mapping. */
  method CheckReferences(deps: Deps, keys: seq<Text>) returns (r: Order)
    requires IsMapping(deps, keys)
    ensures r.Ordered? ==> AllKnown(deps) && forall s :: s in deps ==> s !in deps[s]
    ensures r.MissingDependencies? ==> r.step in deps && r.missing != {}
    ensures r.MissingDependencies? ==> r.missing == (set d | d in deps[r.step]) - deps.Keys
    ensures r.SelfDependency? ==> r.step in deps && r.step in deps[r.step]
    ensures !r.Cyclic?
  {
    var i := 0;
    while i < |keys|
      invariant 0 <= i <= |keys|
      invariant forall k, d :: 0 <= k < i && d in deps[keys[k]] ==> d in deps
      invariant forall k :: 0 <= k < i ==> keys[k] !in deps[keys[k]]
    {
      var step := keys[i];
      assert step in keys;
      var missing := (set d | d in deps[step]) - deps.Keys;
      assert forall d :: d in deps[step] && d !in deps ==> d in missing;
      if missing != {} {
        return MissingDependencies(step, missing);
      }
      if step in deps[step] {
        return SelfDependency(step);
      }
      i := i + 1;
    }
    forall s | s in deps ensures s !in deps[s] && forall d :: d in deps[s] ==> d in deps {
      assert s in keys;
      var k :| 0 <= k < |keys| && keys[k] == s;
    }
    return Ordered([]);
  }

  lemma InvertOne(given: Deps, dependents: Deps, s: Text, d: Text)
    requires Inverted(given, dependents) && s in given && d in given
    ensures Inverted(given[s := given[s] + [d]], dependents[d := dependents[d] + [s]])
  {
  }

  /** dependents inverts what is given, and the first j dependencies of the step. */
  ghost predicate StepInverting(given: Deps, step: Text, ds: seq<Text>, j: nat, dependents: Deps)
    requires j <= |ds|
  {
    Inverted(given[step := ds[..j]], dependents)
  }

  lemma StepNext(given: Deps, step: Text, ds: seq<Text>, j: nat, dependents: Deps)
    requires j < |ds| && step in given && ds[j] in given && StepInverting(given, step, ds, j, dependents)
    ensures ds[j] in dependents
    ensures StepInverting(given, step, ds, j + 1, dependents[ds[j] := dependents[ds[j]] + [step]])
  {
    var so := given[step := ds[..j]];
    assert so[step := so[step] + [ds[j]]] == given[step := ds[..j + 1]] by {
      assert ds[..j + 1] == ds[..j] + [ds[j]];
    }
    InvertOne(so, dependents, step, ds[j]);
  }

  lemma StepStarts(given: Deps, step: Text, ds: seq<Text>, dependents: Deps)
    requires step in given && given[step] == [] && Inverted(given, dependents)
    ensures StepInverting(given, step, ds, 0, dependents)
  {
    assert given[step := ds[..0]] == given;
  }

  lemma StepDone(given: Deps, step: Text, ds: seq<Text>, dependents: Deps)
    requires StepInverting(given, step, ds, |ds|, dependents)
    ensures Inverted(given[step := ds], dependents)
  {
    assert ds[..|ds|] == ds;
  }

  /** `dependents[dependency].append(step)` for every dependency of one step. */
  method InvertStep(deps: Deps, ghost given: Deps, step: Text, dependents0: Deps) returns (dependents: Deps)
    requires step in deps && step in given && given[step] == [] && Inverted(given, dependents0)
    requires forall d :: d in deps[step] ==> d in given
    ensures Inverted(given[step := deps[step]], dependents)
  {
    dependents := dependents0;
    var ds := deps[step];
    var j := 0;
    StepStarts(given, step, ds, dependents);
    while j < |ds|
      invariant 0 <= j <= |ds| && StepInverting(given, step, ds, j, dependents)
    {
      assert ds[j] in ds;
      StepNext(given, step, ds, j, dependents);
      dependents := dependents[ds[j] := dependents[ds[j]] + [step]];
      j := j + 1;
    }
    StepDone(given, step, ds, dependents);
  }

  /** The dependencies of the first i keys; none yet for the others. */
  ghost predicate GivenUpTo(deps: Deps, keys: seq<Text>, i: nat, given: Deps)
  {
    given.Keys == deps.Keys &&
    forall k :: 0 <= k < |keys| && keys[k] in deps ==> given[keys[k]] == if k < i then deps[keys[k]] else []
  }

  function NoLists(deps: Deps): Deps
  {
    map s | s in deps :: []
  }

  lemma NothingGiven(deps: Deps, keys: seq<Text>)
    ensures GivenUpTo(deps, keys, 0, NoLists(deps)) && Inverted(NoLists(deps), NoLists(deps))
  {
  }

  lemma GivenNext(deps: Deps, keys: seq<Text>, i: nat, given: Deps)
    requires Distinct(keys) && i < |keys| && keys[i] in deps && GivenUpTo(deps, keys, i, given)
    ensures GivenUpTo(deps, keys, i + 1, given[keys[i] := deps[keys[i]]])
  {
  }

  lemma KeyFacts(deps: Deps, keys: seq<Text>, i: nat, given: Deps)
    requires IsMapping(deps, keys) && AllKnown(deps) && i < |keys| && GivenUpTo(deps, keys, i, given)
    ensures keys[i] in deps && keys[i] in given && given[keys[i]] == []
    ensures forall d :: d in deps[keys[i]] ==> d in given
  {
    assert keys[i] in keys;
  }

  lemma AllGiven(deps: Deps, keys: seq<Text>, given: Deps)
    requires IsMapping(deps, keys) && GivenUpTo(deps, keys, |keys|, given)
    ensures given == deps
  {
    forall s | s in deps ensures given[s] == deps[s] {
      assert s in keys;
    }
  }

  /** The state of the outer loop that inverts the mapping. */
  ghost predicate Inverting(deps: Deps, keys: seq<Text>, i: nat, given: Deps, dependents: Deps)
  {
    IsMapping(deps, keys) && AllKnown(deps) && GivenUpTo(deps, keys, i, given) && Inverted(given, dependents)
  }

  method InvertKey(deps: Deps, keys: seq<Text>, i: nat, ghost given: Deps, dependents0: Deps)
      returns (dependents: Deps, ghost given': Deps)
    requires i < |keys| && Inverting(deps, keys, i, given, dependents0)
    ensures Inverting(deps, keys, i + 1, given', dependents)
  {
    KeyFacts(deps, keys, i, given);
    GivenNext(deps, keys, i, given);
    dependents := InvertStep(deps, given, keys[i], dependents0);
    given' := given[keys[i] := deps[keys[i]]];
  }

  lemma InvertingDone(deps: Deps, keys: seq<Text>, given: Deps, dependents: Deps)
    requires Inverting(deps, keys, |keys|, given, dependents)
    ensures Inverted(deps, dependents)
  {
    AllGiven(deps, keys, given);
  }

  /** `dependents[dependency].append(step_id)`, over all steps and all their dependencies. */
  method Invert(deps: Deps, keys: seq<Text>) returns (dependents: Deps)
    requires IsMapping(deps, keys) && AllKnown(deps)
    ensures Inverted(deps, dependents)
  {
    dependents := NoLists(deps);
    ghost var given := NoLists(deps);
    NothingGiven(deps, keys);
    var i := 0;
    while i < |keys|
      invariant 0 <= i <= |keys| && Inverting(deps, keys, i, given, dependents)
    {
      dependents, given := InvertKey(deps, keys, i, given, dependents);
      i := i + 1;
    }
    InvertingDone(deps, keys, given, dependents);
  }

  /** The steps of `keys` that have no dependency. */
  function Roots(deps: Deps, keys: seq<Text>): seq<Text>
    requires forall i :: 0 <= i < |keys| ==> keys[i] in deps
  {
    if keys == [] then []
    else (if deps[keys[0]] == [] then [keys[0]] else []) + Roots(deps, keys[1..])
  }

  lemma {:induction false} RootsMembers(deps: Deps, keys: seq<Text>)
    requires Distinct(keys) && forall i :: 0 <= i < |keys| ==> keys[i] in deps
    ensures Distinct(Roots(deps, keys))
    ensures forall s: Text :: s in Roots(deps, keys) <==> s in keys && deps[s] == []
  {
    if keys != [] {
      RootsMembers(deps, keys[1..]);
      assert keys == [keys[0]] + keys[1..];
      assert keys[0] !in keys[1..];
    }
  }

  lemma InitiallyReady(deps: Deps, s: Text)
    ensures IsReady(deps, [], s) <==> s in deps && deps[s] == []
  {
    if s in deps && deps[s] != [] {
      assert deps[s][0] in deps[s];
    }
  }

  lemma KeysInMapping(deps: Deps, keys: seq<Text>)
    requires IsMapping(deps, keys)
    ensures forall i :: 0 <= i < |keys| ==> keys[i] in deps
  {
    assert forall i :: 0 <= i < |keys| ==> keys[i] in keys;
  }

  lemma {:induction false} InitialReady(deps: Deps, keys: seq<Text>)
    requires IsMapping(deps, keys) && forall i :: 0 <= i < |keys| ==> keys[i] in deps
    ensures ListsReady(deps, [], SortTexts(Roots(deps, keys)))
  {
    var roots := Roots(deps, keys);
    RootsMembers(deps, keys);
    SortDistinct(roots);
    forall s: Text ensures s in SortTexts(roots) <==> IsReady(deps, [], s) {
      InitiallyReady(deps, s);
    }
  }

  function Degrees(deps: Deps): map<Text, int>
  {
    map s | s in deps :: |deps[s]|
  }

  lemma InitialCounts(deps: Deps)
    ensures Counts(deps, [], Degrees(deps))
  {
    forall s | s in deps ensures |deps[s]| == PendingCount(deps[s], []) {
      PendingNone(deps[s]);
    }
  }

  lemma {:induction false} Initially(deps: Deps, keys: seq<Text>, dependents: Deps)
    requires IsMapping(deps, keys) && AllKnown(deps) && Inverted(deps, dependents)
    requires forall i :: 0 <= i < |keys| ==> keys[i] in deps
    ensures KahnState(deps, dependents, [], Degrees(deps), SortTexts(Roots(deps, keys)))
  {
    InitialReady(deps, keys);
    InitialCounts(deps);
  }

  lemma EmissionStarts(deps: Deps, dependents: Deps, emitted: seq<Text>, indegree: map<Text, int>, ready: seq<Text>)
    requires KahnState(deps, dependents, emitted, indegree, ready) && ready != []
    ensures ready[0] in deps && ready[0] in dependents && IsReady(deps, emitted, ready[0])
    ensures RelaxedCounts(deps, emitted, SortTexts(dependents[ready[0]]), 0, indegree)
    ensures RelaxedReady(deps, emitted, ready[0], indegree, ready[1..])
    ensures Greedy(deps, emitted + [ready[0]]) && |emitted| < |deps|
  {
    assert ready[0] in ready;
    RelaxStartReady(deps, emitted, indegree, ready);
    GreedyPush(deps, emitted, ready);
    GreedyLength(deps, emitted + [ready[0]]);
  }

  lemma EmissionDone(
      deps: Deps, dependents: Deps, emitted: seq<Text>, c: Text, indegree: map<Text, int>, ready: seq<Text>)
    requires AllKnown(deps) && Inverted(deps, dependents) && IsReady(deps, emitted, c)
    requires Greedy(deps, emitted + [c])
    requires var list := SortTexts(dependents[c]);
      RelaxedCounts(deps, emitted, list, |list|, indegree) && RelaxedReady(deps, emitted, c, indegree, ready)
    ensures KahnState(deps, dependents, emitted + [c], indegree, ready)
  {
    DependentsOf(deps, dependents, c, SortTexts(dependents[c]));
    RelaxDone(deps, emitted, c, SortTexts(dependents[c]), indegree, ready);
  }

  lemma GreedyLength(deps: Deps, o: seq<Text>)
    requires Greedy(deps, o)
    ensures |o| <= |deps|
  {
    GreedyDistinct(deps, o);
    DistinctCount(o, deps.Keys);
    assert |deps.Keys| == |deps|;
  }

  lemma SortDistinct(ts: seq<Text>)
    requires Distinct(ts)
    ensures var r := SortTexts(ts);
      SortedBy(r, TextKey) && Distinct(r) && forall s: Text :: s in r <==> s in ts
  {
    var r := SortTexts(ts);
    SortSorted(ts, TextKey);
    DistinctKeysMultiset(ts, r, TextKey);
    forall i, j | 0 <= i < j < |r| ensures r[i] != r[j] {
      assert TextKey(r[i]) != TextKey(r[j]);
    }
    forall s: Text ensures s in r <==> s in ts {
      SortMember(ts, TextKey, s);
    }
  }

  /** The dependents of an emitted step, as the inner loop sees them. */
  lemma DependentsOf(deps: Deps, dependents: Deps, c: Text, list: seq<Text>)
    requires Inverted(deps, dependents) && c in deps && list == SortTexts(dependents[c])
    ensures forall s :: s in deps ==> multiset(list)[s] == multiset(deps[s])[c]
    ensures forall i :: 0 <= i < |list| ==> list[i] in deps
  {
    forall i | 0 <= i < |list| ensures list[i] in deps {
      assert list[i] in multiset(list);
      assert multiset(dependents[c])[list[i]] > 0;
    }
  }

  /** The inner loop: the counters of the dependents of c are decremented. */
  method Relax(
      deps: Deps, ghost dependents: Deps, ghost emitted: seq<Text>, c: Text, list: seq<Text>,
      indegree0: map<Text, int>, ready0: seq<Text>)
      returns (indegree: map<Text, int>, ready: seq<Text>)
    requires Inverted(deps, dependents) && c in deps && list == SortTexts(dependents[c])
    requires Greedy(deps, emitted) && IsReady(deps, emitted, c)
    requires RelaxedCounts(deps, emitted, list, 0, indegree0) && RelaxedReady(deps, emitted, c, indegree0, ready0)
    ensures RelaxedCounts(deps, emitted, list, |list|, indegree) && RelaxedReady(deps, emitted, c, indegree, ready)
  {
    indegree, ready := indegree0, ready0;
    DependentsOf(deps, dependents, c, list);
    var i := 0;
    while i < |list|
      invariant 0 <= i <= |list|
      invariant RelaxedCounts(deps, emitted, list, i, indegree) && RelaxedReady(deps, emitted, c, indegree, ready)
    {
      var d := list[i];
      StillPending(deps, emitted, c, list, i, indegree, d);
      if d in emitted {
        EmittedClosed(deps, emitted, d);
      }
      RelaxNextCounts(deps, emitted, list, i, indegree);
      RelaxNextReady(deps, emitted, c, d, indegree, ready);
      indegree := indegree[d := indegree[d] - 1];
      if indegree[d] == 0 {
        ready := SortTexts(ready + [d]);
      }
      i := i + 1;
    }
  }

  /**
   `_validate_dependency_graph`: the least topological order of the steps, or why there is none.
   When the steps form a cycle, one exists among the steps that were not emitted.
   */
  method ValidateDependencyGraph(deps: Deps, keys: seq<Text>) returns (r: Order, ghost emitted: seq<Text>)
    requires IsMapping(deps, keys)
    ensures r.Ordered? ==> IsLeastOrder(deps, r.steps)
    ensures r.Ordered? <==> AllKnown(deps) && Acyclic(deps)
    ensures r.MissingDependencies? ==> r.step in deps && r.missing != {}
    ensures r.MissingDependencies? ==> r.missing == (set d | d in deps[r.step]) - deps.Keys
    ensures r.SelfDependency? ==> r.step in deps && r.step in deps[r.step]
    ensures r.Cyclic? ==> AllKnown(deps) && Greedy(deps, emitted) && forall s: Text :: !IsReady(deps, emitted, s)
    ensures r.Cyclic? ==> exists c :: IsCycle(deps, c) && forall s :: s in c ==> s !in emitted
  {
    emitted := [];
    r := CheckReferences(deps, keys);
    if !r.Ordered? {
      if r.SelfDependency? {
        assert IsCycle(deps, [r.step]);
      } else {
        MissingIsUnknown(deps, r.step, r.missing);
      }
      return;
    }
    var dependents := Invert(deps, keys);
    KeysInMapping(deps, keys);
    var indegree, ready := Degrees(deps), SortTexts(Roots(deps, keys));
    Initially(deps, keys, dependents);
    var ordered: seq<Text> := [];
    while ready != []
      invariant KahnState(deps, dependents, ordered, indegree, ready)
      decreases |deps| - |ordered|
    {
      EmissionStarts(deps, dependents, ordered, indegree, ready);
      var current := ready[0];
      ready := ready[1..];
      indegree, ready := Relax(deps, dependents, ordered, current, SortTexts(dependents[current]), indegree, ready);
      EmissionDone(deps, dependents, ordered, current, indegree, ready);
      ordered := ordered + [current];
    }
    emitted := ordered;
    if |ordered| != |keys| {
      ghost var c := Unfinished(deps, keys, ordered);
      return Cyclic, emitted;
    }
    DistinctLength(keys, deps.Keys);
    GreedyLeast(deps, ordered);
    TopologicalIsAcyclic(deps, ordered);
    return Ordered(ordered), emitted;
  }

  lemma MissingIsUnknown(deps: Deps, step: Text, missing: set<Text>)
    requires step in deps && missing == (set d | d in deps[step]) - deps.Keys && missing != {}
    ensures !AllKnown(deps)
  {
    var d :| d in missing;
  }

  lemma Unfinished(deps: Deps, keys: seq<Text>, o: seq<Text>) returns (c: seq<Text>)
    requires IsMapping(deps, keys) && AllKnown(deps)
    requires Greedy(deps, o) && |o| != |keys| && forall s: Text :: !IsReady(deps, o, s)
    ensures IsCycle(deps, c) && forall s :: s in c ==> s !in o
  {
    GreedyDistinct(deps, o);
    assert exists s :: s in deps && s !in o by {
      if forall s :: s in deps ==> s in o {
        DistinctLength(o, deps.Keys);
        DistinctLength(keys, deps.Keys);
      }
    }
    c := StuckMeansCycle(deps, o);
  }
}
