/**
 The declarative planner: what a request and the contracts it names are merged into, and the plan
 built from them.
 */
module Planner {
  import opened Basics
  import opened Ordering
  import opened Merging
  import opened Executive
  import opened Plans
  import opened Requests

  type Registry = map<Text, Definition>

  predicate RegistryOk(registry: Registry)
  {
    (forall c :: c in registry ==> registry[c].capability == c) &&
    forall c {:trigger DefinitionOk(registry[c])} :: c in registry ==> DefinitionOk(registry[c])
  }

  function CapabilityOf(i: Invocation): Text
  {
    i.capability
  }

  function DefinitionId(d: Definition): Text
  {
    d.capability
  }

  function DefinitionKey(d: Definition): Key
  {
    d.capability
  }

  /** `sorted(set(texts))` */
  function SortedSet(texts: seq<Text>): seq<Text>
  {
    if texts == [] then []
    else
      var rest := SortedSet(texts[1..]);
      if texts[0] in rest then rest else Insert(texts[0], rest, Identity)
  }

  lemma {:induction false} SortedSetFacts(texts: seq<Text>)
    ensures Strict(SortedSet(texts), Identity)
    ensures forall t: Text :: t in SortedSet(texts) <==> t in texts
    ensures |SortedSet(texts)| <= |texts|
  {
    if texts != [] {
      var rest := SortedSet(texts[1..]);
      SortedSetFacts(texts[1..]);
      assert texts == [texts[0]] + texts[1..];
      if texts[0] !in rest {
        var r := Insert(texts[0], rest, Identity);
        InsertSorted(texts[0], rest, Identity);
        assert DistinctKeys([texts[0]] + rest, Identity);
        assert multiset(r) == multiset([texts[0]] + rest);
        DistinctKeysMultiset([texts[0]] + rest, r, Identity);
        forall t: Text ensures t in r <==> t in texts {
          assert t in r <==> t in multiset(r);
          assert t in multiset([texts[0]] + rest) <==> t == texts[0] || t in rest;
        }
      }
    }
  }

  /** `request.requested_capabilities` */
  function Capabilities(request: Request): seq<Text>
  {
    SortedSet(Map(CapabilityOf, request.invocations))
  }

  lemma CapabilityRequested(request: Request, c: Text)
    ensures c in Capabilities(request) <==>
      exists i :: 0 <= i < |request.invocations| && request.invocations[i].capability == c
    ensures Strict(Capabilities(request), Identity) && |Capabilities(request)| <= |request.invocations|
  {
    var named := Map(CapabilityOf, request.invocations);
    SortedSetFacts(named);
    if c in named {
      var i :| 0 <= i < |named| && named[i] == c;
      assert request.invocations[i].capability == c;
    }
    if i :| 0 <= i < |request.invocations| && request.invocations[i].capability == c {
      assert named[i] == c;
    }
  }

  /* ---------- Merges over the request and its contracts ---------- */

  function ContextOf(d: Definition): seq<ContextRequirement>
  {
    d.context
  }

  function ApprovalsOf(d: Definition): seq<Approval>
  {
    d.approvals
  }

  function AssumptionsOf(d: Definition): seq<Assumption>
  {
    d.assumptions
  }

  function ConstraintsOf(d: Definition): seq<Constraint>
  {
    d.constraints
  }

  lemma {:induction false} FlattenMember<T>(collections: seq<seq<T>>, x: T)
    ensures x in Flatten(collections) <==> exists i :: 0 <= i < |collections| && x in collections[i]
  {
    if collections != [] {
      FlattenMember(collections[1..], x);
      if i :| 0 <= i < |collections| && x in collections[i] {
        if i > 0 {
          assert collections[1..][i - 1] == collections[i];
        }
      }
      if x in Flatten(collections[1..]) {
        var i :| 0 <= i < |collections[1..]| && x in collections[1..][i];
        assert collections[i + 1] == collections[1..][i];
      }
    }
  }

  /** The request's own items, then those of the contracts. */
  function Gather<T>(own: seq<T>, part: Definition -> seq<T>, definitions: seq<Definition>): seq<seq<T>>
  {
    [own] + Map(part, definitions)
  }

  lemma GatherMember<T>(own: seq<T>, part: Definition -> seq<T>, definitions: seq<Definition>, x: T)
    ensures x in Flatten(Gather(own, part, definitions)) <==>
      x in own || exists i :: 0 <= i < |definitions| && x in part(definitions[i])
  {
    var cs := Gather(own, part, definitions);
    FlattenMember(cs, x);
    assert cs[0] == own;
    if i :| 0 <= i < |definitions| && x in part(definitions[i]) {
      assert cs[i + 1] == part(definitions[i]);
    }
    if i :| 0 <= i < |cs| && x in cs[i] {
      if i > 0 {
        assert cs[i] == part(definitions[i - 1]);
      }
    }
  }

  /** m merges the own items with those of all the contracts, and is not too long. */
  ghost predicate MergeOf<T>(
      own: seq<T>, part: Definition -> seq<T>, definitions: seq<Definition>, key: T -> Key, m: seq<T>)
  {
    IsMerge(Flatten(Gather(own, part, definitions)), key, m) && |m| <= MAX_REQUEST_ITEMS
  }

  lemma MergeOfUnique<T>(
      own: seq<T>, part: Definition -> seq<T>, definitions: seq<Definition>, key: T -> Key, m: seq<T>, n: seq<T>)
    requires MergeOf(own, part, definitions, key, m) && MergeOf(own, part, definitions, key, n)
    ensures m == n
  {
    var all := Flatten(Gather(own, part, definitions));
    MergeUnique(all, all, key, m, n);
  }

  lemma MergedMember<T>(
      own: seq<T>, part: Definition -> seq<T>, definitions: seq<Definition>, key: T -> Key, m: seq<T>, x: T)
    requires IsMerge(Flatten(Gather(own, part, definitions)), key, m)
    ensures x in m <==> x in own || exists i :: 0 <= i < |definitions| && x in part(definitions[i])
  {
    GatherMember(own, part, definitions, x);
    var all := Flatten(Gather(own, part, definitions));
    if x in all {
      var i :| 0 <= i < |all| && all[i] == x;
    }
    if x in m {
      var i :| 0 <= i < |m| && m[i] == x;
    }
  }

  lemma PartIncluded<T>(own: seq<T>, part: Definition -> seq<T>, definitions: seq<Definition>, d: Definition)
    requires d in definitions
    ensures Included(Flatten(Gather(own, part, [d])), Flatten(Gather(own, part, definitions)))
  {
    var some, all := Flatten(Gather(own, part, [d])), Flatten(Gather(own, part, definitions));
    forall i | 0 <= i < |some| ensures some[i] in all {
      GatherMember(own, part, [d], some[i]);
      GatherMember(own, part, definitions, some[i]);
    }
  }

  /** Merging with one of the contracts only cannot fail where merging with all succeeds. */
  lemma PartMerges<T>(
      own: seq<T>, part: Definition -> seq<T>, definitions: seq<Definition>, d: Definition, key: T -> Key, m: seq<T>)
    requires MergeOf(own, part, definitions, key, m) && d in definitions
    ensures Compatible(Flatten(Gather(own, part, [d])), key)
  {
    PartIncluded(own, part, definitions, d);
    MergeCompatible(Flatten(Gather(own, part, definitions)), key, m);
    CompatiblePart(Flatten(Gather(own, part, [d])), Flatten(Gather(own, part, definitions)), key);
  }

  lemma PartFits<T>(
      own: seq<T>, part: Definition -> seq<T>, definitions: seq<Definition>, d: Definition, key: T -> Key, m: seq<T>,
      n: seq<T>)
    requires MergeOf(own, part, definitions, key, m) && d in definitions
    requires IsMerge(Flatten(Gather(own, part, [d])), key, n)
    ensures |n| <= MAX_REQUEST_ITEMS
  {
    PartIncluded(own, part, definitions, d);
    MergeMonotonic(Flatten(Gather(own, part, [d])), Flatten(Gather(own, part, definitions)), key, n, m);
  }

  method MergePart<T(==)>(
      own: seq<T>, part: Definition -> seq<T>, ghost definitions: seq<Definition>, d: Definition, key: T -> Key,
      ghost m: seq<T>)
      returns (r: Merge<T>)
    requires MergeOf(own, part, definitions, key, m) && d in definitions
    ensures r.Merged? && MergeOf(own, part, [d], key, r.items)
  {
    PartMerges(own, part, definitions, d, key, m);
    var parts := Gather(own, part, [d]);
    r := MergeAll(parts, key, MAX_REQUEST_ITEMS);
    if r.Overflow? {
      ghost var n :| IsMerge(Flatten(parts), key, n) && |n| > MAX_REQUEST_ITEMS;
      PartFits(own, part, definitions, d, key, m, n);
    }
  }

  /* ---------- Plan steps ---------- */

  /** `PlanStep.__init__`; None when it raises. */
  function MakeStep(s: PlanStep): Option<PlanStep>
  {
    if !DistinctKeys(Sort(s.dependencies, Identity), Identity) || s.step in s.dependencies then None
    else if !TupleAccepted(s.preconditions, PreconditionKey) || !TupleAccepted(s.context, ContextKey) then None
    else if !TupleAccepted(s.approvals, ApprovalKey) || !TupleAccepted(s.constraints, ConstraintKey) then None
    else
      Some(s.(dependencies := Sort(s.dependencies, Identity),
           preconditions := Sort(s.preconditions, PreconditionKey),
           context := Sort(s.context, ContextKey),
           approvals := Sort(s.approvals, ApprovalKey),
           constraints := Sort(s.constraints, ConstraintKey)))
  }

  predicate StepCanonical(s: PlanStep)
  {
    Strict(s.dependencies, Identity) && s.step !in s.dependencies && Tuple(s.preconditions, PreconditionKey) &&
    Tuple(s.context, ContextKey) && Tuple(s.approvals, ApprovalKey) && Tuple(s.constraints, ConstraintKey)
  }

  /** A step whose parts are in order already is built as it is. */
  lemma CanonicalStep(s: PlanStep)
    requires StepCanonical(s)
    ensures MakeStep(s) == Some(s)
  {
    SortOfSorted(s.dependencies, Identity);
    CanonicalTuple(s.preconditions, PreconditionKey);
    CanonicalTuple(s.context, ContextKey);
    CanonicalTuple(s.approvals, ApprovalKey);
    CanonicalTuple(s.constraints, ConstraintKey);
  }

  lemma {:induction false} CanonicalTuple<T>(xs: seq<T>, key: T -> Key)
    requires Tuple(xs, key)
    ensures TupleAccepted(xs, key) && Sort(xs, key) == xs
  {
    SortOfSorted(xs, key);
  }

  /** The step that carries out an invocation under its contract. */
  ghost predicate StepFrom(request: Request, d: Definition, i: Invocation, s: PlanStep)
  {
    s.step == i.step && s.capability == i.capability && s.parameters == i.parameters &&
    s.dependencies == i.dependencies && s.preconditions == d.preconditions &&
    s.expected == d.expected && s.failure == d.failure &&
    MergeOf(request.required, ContextOf, [d], ContextKey, s.context) &&
    MergeOf(request.approvals, ApprovalsOf, [d], ApprovalKey, s.approvals) &&
    MergeOf(request.constraints, ConstraintsOf, [d], ConstraintKey, s.constraints)
  }

  lemma StepFromUnique(request: Request, d: Definition, i: Invocation, s: PlanStep, t: PlanStep)
    requires StepFrom(request, d, i, s) && StepFrom(request, d, i, t)
    ensures s == t
  {
    MergeOfUnique(request.required, ContextOf, [d], ContextKey, s.context, t.context);
    MergeOfUnique(request.approvals, ApprovalsOf, [d], ApprovalKey, s.approvals, t.approvals);
    MergeOfUnique(request.constraints, ConstraintsOf, [d], ConstraintKey, s.constraints, t.constraints);
  }

  lemma StepFromCanonical(request: Request, d: Definition, i: Invocation, s: PlanStep)
    requires StepFrom(request, d, i, s) && InvocationOk(i) && DefinitionOk(d)
    ensures StepCanonical(s)
  {
  }

  ghost predicate StepOf(request: Request, registry: Registry, i: Invocation, s: PlanStep)
  {
    i.capability in registry && StepFrom(request, registry[i.capability], i, s)
  }

  /** One step per invocation, in the order of the invocations. */
  ghost predicate StepsFrom(request: Request, registry: Registry, steps: seq<PlanStep>)
  {
    |steps| == |request.invocations| &&
    forall k :: 0 <= k < |steps| ==> StepOf(request, registry, request.invocations[k], steps[k])
  }

  lemma StepCopies(request: Request, registry: Registry, steps: seq<PlanStep>, k: nat)
    requires StepsFrom(request, registry, steps) && k < |steps|
    ensures steps[k].step == request.invocations[k].step && steps[k].capability == request.invocations[k].capability
    ensures steps[k].dependencies == request.invocations[k].dependencies
  {
    assert StepOf(request, registry, request.invocations[k], steps[k]);
  }

  /** The plan of a request: its steps in the least order that respects their dependencies. */
  ghost predicate PlanFrom(request: Request, registry: Registry, plan: seq<PlanStep>)
  {
    exists steps :: StepsFrom(request, registry, steps) && IsPlan(steps, plan)
  }

  lemma StepsFromUnique(request: Request, registry: Registry, a: seq<PlanStep>, b: seq<PlanStep>)
    requires StepsFrom(request, registry, a) && StepsFrom(request, registry, b)
    ensures a == b
  {
    forall k | 0 <= k < |a| ensures a[k] == b[k] {
      var i := request.invocations[k];
      assert StepOf(request, registry, i, a[k]) && StepOf(request, registry, i, b[k]);
      StepFromUnique(request, registry[i.capability], i, a[k], b[k]);
    }
  }

  lemma PlanFromUnique(request: Request, registry: Registry, p: seq<PlanStep>, q: seq<PlanStep>)
    requires PlanFrom(request, registry, p) && PlanFrom(request, registry, q)
    ensures p == q
  {
    var a :| StepsFrom(request, registry, a) && IsPlan(a, p);
    var b :| StepsFrom(request, registry, b) && IsPlan(b, q);
    StepsFromUnique(request, registry, a, b);
    PlanOrderIrrelevant(a, b, p, q);
  }

  /** The steps have the dependencies of the invocations, so they can be planned. */
  lemma StepsPlannable(request: Request, registry: Registry, steps: seq<PlanStep>)
    requires StepsFit(request) && StepsFrom(request, registry, steps)
    ensures Plannable(steps)
  {
    var all := request.invocations;
    forall i, j | 0 <= i < j < |steps| ensures StepId(steps[i]) != StepId(steps[j]) {
      assert InvocationStep(all[i]) != InvocationStep(all[j]);
      StepCopies(request, registry, steps, i);
      StepCopies(request, registry, steps, j);
    }
    StepMapSame(request, registry, steps);
  }

  ghost predicate SameSteps(all: seq<Invocation>, steps: seq<PlanStep>)
  {
    |steps| == |all| &&
    forall k :: 0 <= k < |steps| ==> steps[k].step == all[k].step && steps[k].dependencies == all[k].dependencies
  }

  lemma StepMapSame(request: Request, registry: Registry, steps: seq<PlanStep>)
    requires StepsFrom(request, registry, steps)
    requires DistinctKeys(request.invocations, InvocationStep) && DistinctKeys(steps, StepId)
    ensures StepMap(steps) == InvocationMap(request.invocations)
  {
    forall k | 0 <= k < |steps|
      ensures steps[k].step == request.invocations[k].step
      ensures steps[k].dependencies == request.invocations[k].dependencies
    {
      StepCopies(request, registry, steps, k);
    }
    SameStepsSameMap(request.invocations, steps);
  }

  lemma {:induction false} StepFound(all: seq<Invocation>, steps: seq<PlanStep>, k: Text, b: map<Text, Invocation>)
    requires SameSteps(all, steps) && DistinctKeys(all, InvocationStep) && Indexes(b, all, InvocationStep)
    requires k in ById(steps, StepId)
    ensures k in b && ById(steps, StepId)[k].dependencies == b[k].dependencies
  {
    var a := ById(steps, StepId);
    ByIdIndexes(steps, StepId);
    assert a[k] in steps;
    var i :| 0 <= i < |steps| && steps[i] == a[k];
    IndexUnique(all, InvocationStep, b, i);
  }

  lemma {:induction false} InvocationFound(all: seq<Invocation>, steps: seq<PlanStep>, k: Text, a: map<Text, PlanStep>)
    requires SameSteps(all, steps) && DistinctKeys(steps, StepId) && Indexes(a, steps, StepId)
    requires k in ById(all, InvocationStep)
    ensures k in a
  {
    var b := ById(all, InvocationStep);
    ByIdIndexes(all, InvocationStep);
    assert b[k] in all;
    var i :| 0 <= i < |all| && all[i] == b[k];
    IndexUnique(steps, StepId, a, i);
  }

  lemma SameStepsSameMap(all: seq<Invocation>, steps: seq<PlanStep>)
    requires SameSteps(all, steps) && DistinctKeys(all, InvocationStep) && DistinctKeys(steps, StepId)
    ensures StepMap(steps) == InvocationMap(all)
  {
    var a, b := ById(steps, StepId), ById(all, InvocationStep);
    ByIdIndexes(steps, StepId);
    ByIdIndexes(all, InvocationStep);
    forall k: Text | k in a ensures k in b && StepDependencies(a[k]) == InvocationDependencies(b[k]) {
      StepFound(all, steps, k, b);
    }
    forall k: Text | k in b ensures k in a {
      InvocationFound(all, steps, k, a);
    }
    DependenciesAgree(a, b, StepDependencies, InvocationDependencies);
  }

  lemma DependenciesAgree<S, T>(a: map<Text, S>, b: map<Text, T>, f: S -> seq<Text>, g: T -> seq<Text>)
    requires forall k :: k in a ==> k in b && f(a[k]) == g(b[k])
    requires forall k :: k in b ==> k in a
    ensures DependenciesById(a, f) == DependenciesById(b, g)
  {
  }

  /** What merging over all the contracts gave: the plan can rely on it. */
  datatype Merges = Merges(
    context: seq<ContextRequirement>,
    approvals: seq<Approval>,
    assumptions: seq<Assumption>,
    constraints: seq<Constraint>)

  ghost predicate MergesOf(request: Request, definitions: seq<Definition>, m: Merges)
  {
    MergeOf(request.required, ContextOf, definitions, ContextKey, m.context) &&
    MergeOf(request.approvals, ApprovalsOf, definitions, ApprovalKey, m.approvals) &&
    MergeOf(request.assumptions, AssumptionsOf, definitions, AssumptionKey, m.assumptions) &&
    MergeOf(request.constraints, ConstraintsOf, definitions, ConstraintKey, m.constraints)
  }

  lemma MergesUnique(request: Request, definitions: seq<Definition>, m: Merges, n: Merges)
    requires MergesOf(request, definitions, m) && MergesOf(request, definitions, n)
    ensures m == n
  {
    MergeOfUnique(request.required, ContextOf, definitions, ContextKey, m.context, n.context);
    MergeOfUnique(request.approvals, ApprovalsOf, definitions, ApprovalKey, m.approvals, n.approvals);
    MergeOfUnique(request.assumptions, AssumptionsOf, definitions, AssumptionKey, m.assumptions, n.assumptions);
    MergeOfUnique(request.constraints, ConstraintsOf, definitions, ConstraintKey, m.constraints, n.constraints);
  }

  /** One iteration of the planner's loop. */
  method BuildStep(
      request: Request, d: Definition, i: Invocation, ghost definitions: seq<Definition>, ghost m: Merges)
      returns (s: Option<PlanStep>)
    requires InvocationOk(i) && DefinitionOk(d) && d in definitions && MergesOf(request, definitions, m)
    ensures s.Some? && StepFrom(request, d, i, s.value)
  {
    var context := MergePart(request.required, ContextOf, definitions, d, ContextKey, m.context);
    var approvals := MergePart(request.approvals, ApprovalsOf, definitions, d, ApprovalKey, m.approvals);
    var constraints := MergePart(request.constraints, ConstraintsOf, definitions, d, ConstraintKey, m.constraints);
    var raw := PlanStep(
      i.step, i.capability, i.parameters, i.dependencies, d.preconditions, context.items, approvals.items,
      constraints.items, d.expected, d.failure);
    StepFromCanonical(request, d, i, raw);
    CanonicalStep(raw);
    s := MakeStep(raw);
  }

  /** byId finds every requested contract, and only contracts that were merged. */
  ghost predicate Finds(request: Request, registry: Registry, byId: Registry, definitions: seq<Definition>)
  {
    forall k :: 0 <= k < |request.invocations| ==>
      var c := request.invocations[k].capability;
      c in registry && c in byId && byId[c] == registry[c] && byId[c] in definitions
  }

  method BuildNext(
      request: Request, registry: Registry, byId: Registry, k: nat, ghost definitions: seq<Definition>, ghost m: Merges)
      returns (s: PlanStep)
    requires k < |request.invocations| && InvocationOk(request.invocations[k])
    requires RegistryOk(registry) && MergesOf(request, definitions, m) && Finds(request, registry, byId, definitions)
    ensures StepOf(request, registry, request.invocations[k], s)
  {
    var i := request.invocations[k];
    var made := BuildStep(request, byId[i.capability], i, definitions, m);
    s := made.value;
  }

  method BuildSteps(
      request: Request, registry: Registry, byId: Registry, ghost definitions: seq<Definition>, ghost m: Merges)
      returns (steps: seq<PlanStep>)
    requires All(request.invocations, InvocationOk) && RegistryOk(registry) && MergesOf(request, definitions, m)
    requires Finds(request, registry, byId, definitions)
    ensures StepsFrom(request, registry, steps)
  {
    steps := [];
    var k := 0;
    while k < |request.invocations|
      invariant 0 <= k <= |request.invocations| && |steps| == k
      invariant forall j :: 0 <= j < k ==> StepOf(request, registry, request.invocations[j], steps[j])
    {
      assert InvocationOk(request.invocations[k]);
      var s := BuildNext(request, registry, byId, k, definitions, m);
      steps := steps + [s];
      k := k + 1;
    }
  }

  /** `DeclarativePlanner.build_plan`: it cannot fail after the merges over all contracts succeeded. */
  method BuildPlan(
      request: Request, registry: Registry, byId: Registry, ghost definitions: seq<Definition>, ghost m: Merges)
      returns (p: Planning)
    requires All(request.invocations, InvocationOk) && StepsFit(request)
    requires RegistryOk(registry) && MergesOf(request, definitions, m)
    requires Finds(request, registry, byId, definitions)
    ensures p.Planned? && PlanFrom(request, registry, p.steps)
  {
    var steps := BuildSteps(request, registry, byId, definitions, m);
    StepsPlannable(request, registry, steps);
    p := MakePlan(steps);
  }
}
