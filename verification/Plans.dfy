/**
 Plans and requests put their parts in a canonical order: steps in the least order that respects
 their dependencies, everything else sorted by key.
 */
module Plans {
  import opened Ordering
  import opened Merging
  import opened Executive
  import D = Dependencies

  datatype PlanStep = PlanStep(
    step: Text,
    capability: Text,
    parameters: Json,
    dependencies: seq<Text>,
    preconditions: seq<Precondition>,
    context: seq<ContextRequirement>,
    approvals: seq<Approval>,
    constraints: seq<Constraint>,
    expected: ExpectedResult,
    failure: FailurePolicy)

  /* ---------- Items indexed by step ---------- */

  /** `{item.step_id: item for item in items}`: a later item replaces an earlier one. */
  function ById<T>(items: seq<T>, id: T -> Text): map<Text, T>
  {
    if items == [] then map[]
    else
      var n := |items| - 1;
      ById(items[..n], id)[id(items[n]) := items[n]]
  }

  ghost predicate Indexes<T>(m: map<Text, T>, items: seq<T>, id: T -> Text)
  {
    (forall i :: 0 <= i < |items| ==> id(items[i]) in m) &&
    forall k :: k in m ==> m[k] in items && id(m[k]) == k
  }

  lemma {:induction false} ByIdIndexes<T>(items: seq<T>, id: T -> Text)
    ensures Indexes(ById(items, id), items, id)
    ensures |ById(items, id)| <= |items|
    ensures |ById(items, id)| == |items| <==> DistinctKeys(items, id)
  {
    if items != [] {
      var n := |items| - 1;
      var m := ById(items[..n], id);
      ByIdIndexes(items[..n], id);
      DistinctPrefix(items, id, m);
      IndexesNext(items, id, m);
      if id(items[n]) in m {
        assert m[id(items[n]) := items[n]].Keys == m.Keys;
      } else {
        assert m[id(items[n]) := items[n]].Keys == m.Keys + {id(items[n])};
      }
      assert forall k: map<Text, T> :: |k| == |k.Keys|;
    }
  }

  lemma IndexesNext<T>(items: seq<T>, id: T -> Text, m: map<Text, T>)
    requires items != []
    requires var n := |items| - 1; Indexes(m, items[..n], id)
    ensures var n := |items| - 1; Indexes(m[id(items[n]) := items[n]], items, id)
  {
    var n := |items| - 1;
    var m' := m[id(items[n]) := items[n]];
    forall i | 0 <= i < |items| ensures id(items[i]) in m' {
      if i < n {
        assert items[..n][i] == items[i];
      }
    }
    forall k | k in m' ensures m'[k] in items && id(m'[k]) == k {
      if k != id(items[n]) {
        assert m[k] in items[..n];
      }
    }
  }

  /** The last id repeats an earlier one exactly when it is already indexed. */
  lemma DistinctPrefix<T>(items: seq<T>, id: T -> Text, m: map<Text, T>)
    requires items != []
    requires var n := |items| - 1; Indexes(m, items[..n], id)
    ensures var n := |items| - 1;
      DistinctKeys(items, id) <==> DistinctKeys(items[..n], id) && id(items[n]) !in m
  {
    var n := |items| - 1;
    if id(items[n]) in m {
      assert m[id(items[n])] in items[..n];
      var i :| 0 <= i < n && items[..n][i] == m[id(items[n])];
      assert id(items[i]) == id(items[n]);
    }
    if DistinctKeys(items[..n], id) && id(items[n]) !in m {
      forall i, j | 0 <= i < j < |items| ensures id(items[i]) != id(items[j]) {
        assert items[..n][i] == items[i];
        if j < n {
          assert items[..n][j] == items[j];
        }
      }
    }
    if DistinctKeys(items, id) {
      forall i, j | 0 <= i < j < n ensures id(items[..n][i]) != id(items[..n][j]) {
        assert items[..n][i] == items[i] && items[..n][j] == items[j];
      }
    }
  }

  /** `{item.step_id: item.dependencies for item in items}` */
  function DependenciesById<T>(m: map<Text, T>, dependencies: T -> seq<Text>): D.Deps
  {
    map k | k in m :: dependencies(m[k])
  }

  function DependencyMap<T>(items: seq<T>, id: T -> Text, dependencies: T -> seq<Text>): D.Deps
  {
    DependenciesById(ById(items, id), dependencies)
  }

  lemma IndexUnique<T>(items: seq<T>, id: T -> Text, m: map<Text, T>, i: nat)
    requires DistinctKeys(items, id) && Indexes(m, items, id) && i < |items|
    ensures id(items[i]) in m && m[id(items[i])] == items[i]
  {
    var k := id(items[i]);
    assert k in m && m[k] in items;
    var j :| 0 <= j < |items| && items[j] == m[k];
    assert id(items[j]) == id(items[i]);
  }

  /** The index does not depend on the order of the items. */
  lemma {:induction false} IndexPermuted<T>(a: seq<T>, b: seq<T>, id: T -> Text)
    requires DistinctKeys(a, id) && DistinctKeys(b, id) && SameItems(a, b)
    ensures ById(a, id) == ById(b, id)
  {
    ByIdIndexes(a, id);
    ByIdIndexes(b, id);
    var m, n := ById(a, id), ById(b, id);
    forall k | k in m ensures k in n && n[k] == m[k] {
      IndexPart(a, b, id, m, n, k);
    }
    forall k | k in n ensures k in m {
      IndexPart(b, a, id, n, m, k);
    }
  }

  lemma IndexPart<T>(a: seq<T>, b: seq<T>, id: T -> Text, m: map<Text, T>, n: map<Text, T>, k: Text)
    requires DistinctKeys(b, id) && Indexes(m, a, id) && Indexes(n, b, id) && SameItems(a, b) && k in m
    ensures k in n && n[k] == m[k]
  {
    assert m[k] in a;
    assert m[k] in b;
    var i :| 0 <= i < |b| && b[i] == m[k];
    IndexUnique(b, id, n, i);
  }

  lemma PermutedItems<T>(a: seq<T>, b: seq<T>)
    requires multiset(a) == multiset(b)
    ensures SameItems(a, b)
  {
    forall i | 0 <= i < |a| ensures a[i] in b {
      assert a[i] in multiset(b);
    }
    forall i | 0 <= i < |b| ensures b[i] in a {
      assert b[i] in multiset(a);
    }
  }

  /* ---------- Plans ---------- */

  function StepId(s: PlanStep): Text
  {
    s.step
  }

  function StepDependencies(s: PlanStep): seq<Text>
  {
    s.dependencies
  }

  function StepMap(steps: seq<PlanStep>): D.Deps
  {
    DependencyMap(steps, StepId, StepDependencies)
  }

  /** The steps of the plan, in the least order that puts every step after its dependencies. */
  ghost predicate IsPlan(steps: seq<PlanStep>, plan: seq<PlanStep>)
  {
    DistinctKeys(steps, StepId) && multiset(plan) == multiset(steps) &&
    D.IsLeastOrder(StepMap(steps), Map(StepId, plan))
  }

  /** What the plan constructor demands of its steps. */
  ghost predicate Plannable(steps: seq<PlanStep>)
  {
    steps != [] && |steps| <= MAX_PLAN_STEPS && DistinctKeys(steps, StepId) &&
    D.AllKnown(StepMap(steps)) && D.Acyclic(StepMap(steps))
  }

  lemma {:induction false} KeysOf<T>(items: seq<T>, id: T -> Text, dependencies: T -> seq<Text>)
    requires DistinctKeys(items, id)
    ensures D.IsMapping(DependencyMap(items, id, dependencies), Map(id, items))
  {
    ByIdIndexes(items, id);
    var m := ById(items, id);
    var keys := Map(id, items);
    forall s ensures s in keys <==> s in m {
      if s in m {
        assert m[s] in items;
        var i :| 0 <= i < |items| && items[i] == m[s];
        assert keys[i] == s;
      }
    }
  }

  /** A permutation of the steps can be planned just as well. */
  lemma PlannablePermuted(a: seq<PlanStep>, b: seq<PlanStep>)
    requires multiset(a) == multiset(b) && Plannable(a)
    ensures Plannable(b) && StepMap(a) == StepMap(b)
  {
    PermutedItems(a, b);
    DistinctKeysMultiset(a, b, StepId);
    IndexPermuted(a, b, StepId);
    assert |multiset(a)| == |a| && |multiset(b)| == |b|;
  }

  /** The plan does not depend on the order in which the steps are given. */
  lemma PlanOrderIrrelevant(a: seq<PlanStep>, b: seq<PlanStep>, p: seq<PlanStep>, q: seq<PlanStep>)
    requires multiset(a) == multiset(b) && IsPlan(a, p) && IsPlan(b, q)
    ensures p == q
  {
    PermutedItems(a, b);
    IndexPermuted(a, b, StepId);
    D.LeastOrderUnique(StepMap(a), Map(StepId, p), Map(StepId, q));
    assert |p| == |Map(StepId, p)| == |q|;
    forall i | 0 <= i < |p| ensures p[i] == q[i] {
      assert Map(StepId, p)[i] == Map(StepId, q)[i];
      StepAt(a, p, i);
      StepAt(b, q, i);
    }
  }

  lemma {:induction false} StepAt(steps: seq<PlanStep>, plan: seq<PlanStep>, i: nat)
    requires DistinctKeys(steps, StepId) && multiset(plan) == multiset(steps) && i < |plan|
    ensures StepId(plan[i]) in ById(steps, StepId) && ById(steps, StepId)[StepId(plan[i])] == plan[i]
  {
    assert plan[i] in multiset(steps);
    var k :| 0 <= k < |steps| && steps[k] == plan[i];
    ByIdIndexes(steps, StepId);
    IndexUnique(steps, StepId, ById(steps, StepId), k);
  }

  /** Planning a plan changes nothing. */
  lemma PlanIdempotent(steps: seq<PlanStep>, plan: seq<PlanStep>)
    requires Plannable(steps) && IsPlan(steps, plan)
    ensures Plannable(plan) && IsPlan(plan, plan)
  {
    PlannablePermuted(steps, plan);
  }

  /** `tuple(by_id[step_id] for step_id in order)` */
  function Arrange<T>(m: map<Text, T>, order: seq<Text>): (r: seq<T>)
    requires forall i :: 0 <= i < |order| ==> order[i] in m
    ensures |r| == |order| && forall i :: 0 <= i < |order| ==> r[i] == m[order[i]]
  {
    if order == [] then [] else [m[order[0]]] + Arrange(m, order[1..])
  }

  function StepKeyOf(s: PlanStep): Key
  {
    s.step
  }

  lemma {:induction false} ArrangedIsPlan(steps: seq<PlanStep>, order: seq<Text>, plan: seq<PlanStep>)
    requires DistinctKeys(steps, StepId) && D.IsLeastOrder(StepMap(steps), order)
    requires forall i :: 0 <= i < |order| ==> order[i] in ById(steps, StepId)
    requires plan == Arrange(ById(steps, StepId), order)
    ensures IsPlan(steps, plan)
  {
    var m := ById(steps, StepId);
    ByIdIndexes(steps, StepId);
    forall i | 0 <= i < |plan| ensures plan[i] in steps && StepId(plan[i]) == order[i] {
      assert order[i] in m;
    }
    assert Map(StepId, plan) == order;
    forall i | 0 <= i < |steps| ensures steps[i] in plan {
      IndexUnique(steps, StepId, m, i);
      assert StepId(steps[i]) in StepMap(steps);
      assert StepId(steps[i]) in order;
      var k :| 0 <= k < |order| && order[k] == StepId(steps[i]);
      assert plan[k] == steps[i];
    }
    assert DistinctKeys(plan, StepKeyOf) by {
      forall i, j | 0 <= i < j < |plan| ensures StepKeyOf(plan[i]) != StepKeyOf(plan[j]) {
        assert order[i] != order[j];
      }
    }
    assert DistinctKeys(steps, StepKeyOf) by {
      forall i, j | 0 <= i < j < |steps| ensures StepKeyOf(steps[i]) != StepKeyOf(steps[j]) {
        assert StepId(steps[i]) != StepId(steps[j]);
      }
    }
    SameElements(plan, steps, StepKeyOf);
  }

  lemma {:induction false} OrderKnown(steps: seq<PlanStep>, order: seq<Text>)
    requires D.IsTopological(StepMap(steps), order)
    ensures forall i :: 0 <= i < |order| ==> order[i] in ById(steps, StepId)
  {
    forall i | 0 <= i < |order| ensures order[i] in ById(steps, StepId) {
      assert order[i] in order;
    }
  }

  datatype Planning =
    | Planned(steps: seq<PlanStep>)
    | NoSteps
    | TooManySteps
    | RepeatedStep
    | BadDependencies(why: D.Order)

  /** The constructor of `Plan`. */
  method MakePlan(steps: seq<PlanStep>) returns (r: Planning)
    ensures r.Planned? <==> Plannable(steps)
    ensures r.Planned? ==> IsPlan(steps, r.steps)
  {
    if steps == [] {
      return NoSteps;
    }
    if |steps| > MAX_PLAN_STEPS {
      return TooManySteps;
    }
    var byId := ById(steps, StepId);
    ByIdIndexes(steps, StepId);
    if |byId| != |steps| {
      return RepeatedStep;
    }
    KeysOf(steps, StepId, StepDependencies);
    var order, _ := D.ValidateDependencyGraph(DependenciesById(byId, StepDependencies), Map(StepId, steps));
    if !order.Ordered? {
      return BadDependencies(order);
    }
    OrderKnown(steps, order.steps);
    var plan := Arrange(byId, order.steps);
    ArrangedIsPlan(steps, order.steps, plan);
    return Planned(plan);
  }
}
