/**
 The constructor of `ExecutiveRequest`: every tuple of the request is put in its canonical order.
 */
module Requests {
  import opened Basics
  import opened Ordering
  import opened Executive
  import opened Plans
  import D = Dependencies
  import G = JsonGraph

  function InvocationStep(i: Invocation): Text
  {
    i.step
  }

  function InvocationDependencies(i: Invocation): seq<Text>
  {
    i.dependencies
  }

  function InvocationMap(invocations: seq<Invocation>): D.Deps
  {
    DependencyMap(invocations, InvocationStep, InvocationDependencies)
  }

  /** `_typed_tuple`: at most so many items, no two with the same key. */
  predicate TupleAccepted<T>(xs: seq<T>, key: T -> Key)
  {
    |xs| <= MAX_REQUEST_ITEMS && DistinctKeys(Sort(xs, key), key)
  }

  /** `_context_tuple`: at most so many requirements, none twice. */
  predicate ContextsAccepted(xs: seq<ContextRequirement>)
  {
    |xs| <= MAX_CONTEXT_REQUIREMENTS && Distinct(Sort(xs, ContextKey))
  }

  predicate Disjoint<T(==)>(xs: seq<T>, ys: seq<T>)
  {
    forall i :: 0 <= i < |xs| ==> xs[i] !in ys
  }

  /** The request with every tuple in its canonical order. */
  function Normalized(raw: Request): Request
  {
    raw.(invocations := Sort(raw.invocations, StepKey),
    required := Sort(raw.required, ContextKey),
    optional := Sort(raw.optional, ContextKey),
    constraints := Sort(raw.constraints, ConstraintKey),
    approvals := Sort(raw.approvals, ApprovalKey),
    assumptions := Sort(raw.assumptions, AssumptionKey))
  }

  predicate ContextsFit(raw: Request)
  {
    ContextsAccepted(raw.required) && ContextsAccepted(raw.optional) &&
    Disjoint(Sort(raw.required, ContextKey), Sort(raw.optional, ContextKey)) &&
    |raw.required| + |raw.optional| <= MAX_CONTEXT_REQUIREMENTS
  }

  predicate TuplesFit(raw: Request)
  {
    TupleAccepted(raw.constraints, ConstraintKey) && TupleAccepted(raw.approvals, ApprovalKey) &&
    TupleAccepted(raw.assumptions, AssumptionKey)
  }

  ghost predicate StepsFit(raw: Request)
  {
    raw.invocations != [] && |raw.invocations| <= MAX_PLAN_STEPS && DistinctKeys(raw.invocations, InvocationStep) &&
    D.AllKnown(InvocationMap(raw.invocations)) && D.Acyclic(InvocationMap(raw.invocations))
  }

  /** What the constructor demands: a request is built exactly from such arguments. */
  ghost predicate Acceptable(raw: Request)
  {
    StepsFit(raw) && ContextsFit(raw) && TuplesFit(raw) && G.WithinBounds(RequestDocument(Normalized(raw)))
  }

  lemma {:induction false} SortedIndex(invocations: seq<Invocation>)
    ensures var sorted := Sort(invocations, StepKey);
      DistinctKeys(sorted, InvocationStep) <==> DistinctKeys(invocations, InvocationStep)
    ensures var sorted := Sort(invocations, StepKey);
      DistinctKeys(invocations, InvocationStep) ==> InvocationMap(sorted) == InvocationMap(invocations)
  {
    var sorted := Sort(invocations, StepKey);
    if DistinctKeys(invocations, InvocationStep) {
      DistinctKeysMultiset(invocations, sorted, InvocationStep);
      PermutedItems(invocations, sorted);
      IndexPermuted(invocations, sorted, InvocationStep);
    }
    if DistinctKeys(sorted, InvocationStep) {
      DistinctKeysMultiset(sorted, invocations, InvocationStep);
    }
  }

  /** `ExecutiveRequest.__init__` */
  method MakeRequest(raw: Request) returns (r: Option<Request>)
    ensures r.Some? <==> Acceptable(raw)
    ensures r.Some? ==> r.value == Normalized(raw)
  {
    if raw.invocations == [] || |raw.invocations| > MAX_PLAN_STEPS {
      return None;
    }
    var invocations := Sort(raw.invocations, StepKey);
    SortedIndex(raw.invocations);
    var byId := ById(invocations, InvocationStep);
    ByIdIndexes(invocations, InvocationStep);
    if |byId| != |invocations| {
      return None;
    }
    KeysOf(invocations, InvocationStep, InvocationDependencies);
    var order, _ := D.ValidateDependencyGraph(
      DependenciesById(byId, InvocationDependencies), Map(InvocationStep, invocations));
    if !order.Ordered? || !ContextsFit(raw) || !TuplesFit(raw) {
      return None;
    }
    var request := Normalized(raw);
    if !G.WithinBounds(RequestDocument(request)) {
      return None;
    }
    return Some(request);
  }

  /* ---------- The order of the arguments does not matter ---------- */

  /** The same request with the items of its tuples in another order. */
  ghost predicate SameUpToOrder(a: Request, b: Request)
  {
    a.id == b.id && a.objective == b.objective && a.kind == b.kind && a.policy == b.policy &&
    a.metadata == b.metadata && multiset(a.invocations) == multiset(b.invocations) &&
    multiset(a.required) == multiset(b.required) && multiset(a.optional) == multiset(b.optional) &&
    multiset(a.constraints) == multiset(b.constraints) && multiset(a.approvals) == multiset(b.approvals) &&
    multiset(a.assumptions) == multiset(b.assumptions)
  }

  lemma {:induction false} TuplePermuted<T>(xs: seq<T>, ys: seq<T>, key: T -> Key)
    requires multiset(xs) == multiset(ys) && TupleAccepted(xs, key)
    ensures TupleAccepted(ys, key) && Sort(xs, key) == Sort(ys, key)
  {
    DistinctKeysMultiset(Sort(xs, key), xs, key);
    SortCanonical(xs, ys, key);
    assert |multiset(xs)| == |xs| && |multiset(ys)| == |ys|;
  }

  lemma DistinctContexts(xs: seq<ContextRequirement>)
    requires Distinct(xs)
    ensures DistinctKeys(xs, ContextKey)
  {
    forall i, j | 0 <= i < j < |xs| ensures ContextKey(xs[i]) != ContextKey(xs[j]) {
      if ContextKey(xs[i]) == ContextKey(xs[j]) {
        ContextKeyInjective(xs[i], xs[j]);
      }
    }
  }

  lemma {:induction false} ContextsPermuted(xs: seq<ContextRequirement>, ys: seq<ContextRequirement>)
    requires multiset(xs) == multiset(ys) && ContextsAccepted(xs)
    ensures ContextsAccepted(ys) && Sort(xs, ContextKey) == Sort(ys, ContextKey) && |xs| == |ys|
  {
    DistinctContexts(Sort(xs, ContextKey));
    TuplePermuted(xs, ys, ContextKey);
  }

  lemma DistinctSteps(invocations: seq<Invocation>)
    requires DistinctKeys(invocations, InvocationStep)
    ensures DistinctKeys(invocations, StepKey)
  {
    forall i, j | 0 <= i < j < |invocations| ensures StepKey(invocations[i]) != StepKey(invocations[j]) {
      assert InvocationStep(invocations[i]) != InvocationStep(invocations[j]);
    }
  }

  lemma {:induction false} InvocationsPermuted(a: seq<Invocation>, b: seq<Invocation>)
    requires multiset(a) == multiset(b) && DistinctKeys(a, InvocationStep)
    ensures DistinctKeys(b, InvocationStep) && InvocationMap(a) == InvocationMap(b) && |a| == |b|
    ensures Sort(a, StepKey) == Sort(b, StepKey)
  {
    DistinctKeysMultiset(a, b, InvocationStep);
    PermutedItems(a, b);
    IndexPermuted(a, b, InvocationStep);
    DistinctSteps(a);
    SortCanonical(a, b, StepKey);
    assert |multiset(a)| == |a| && |multiset(b)| == |b|;
  }

  lemma StepsPermuted(a: Request, b: Request)
    requires SameUpToOrder(a, b) && StepsFit(a)
    ensures StepsFit(b) && Sort(a.invocations, StepKey) == Sort(b.invocations, StepKey)
  {
    InvocationsPermuted(a.invocations, b.invocations);
  }

  lemma ContextPartsPermuted(a: Request, b: Request)
    requires SameUpToOrder(a, b) && ContextsFit(a)
    ensures ContextsFit(b)
    ensures Sort(a.required, ContextKey) == Sort(b.required, ContextKey)
    ensures Sort(a.optional, ContextKey) == Sort(b.optional, ContextKey)
  {
    ContextsPermuted(a.required, b.required);
    ContextsPermuted(a.optional, b.optional);
  }

  lemma TuplePartsPermuted(a: Request, b: Request)
    requires SameUpToOrder(a, b) && TuplesFit(a)
    ensures TuplesFit(b)
    ensures Sort(a.constraints, ConstraintKey) == Sort(b.constraints, ConstraintKey)
    ensures Sort(a.approvals, ApprovalKey) == Sort(b.approvals, ApprovalKey)
    ensures Sort(a.assumptions, AssumptionKey) == Sort(b.assumptions, AssumptionKey)
  {
    TuplePermuted(a.constraints, b.constraints, ConstraintKey);
    TuplePermuted(a.approvals, b.approvals, ApprovalKey);
    TuplePermuted(a.assumptions, b.assumptions, AssumptionKey);
  }

  lemma SameParts(a: Request, b: Request)
    requires SameUpToOrder(a, b) && Sort(a.invocations, StepKey) == Sort(b.invocations, StepKey)
    requires Sort(a.required, ContextKey) == Sort(b.required, ContextKey)
    requires Sort(a.optional, ContextKey) == Sort(b.optional, ContextKey)
    requires Sort(a.constraints, ConstraintKey) == Sort(b.constraints, ConstraintKey)
    requires Sort(a.approvals, ApprovalKey) == Sort(b.approvals, ApprovalKey)
    requires Sort(a.assumptions, AssumptionKey) == Sort(b.assumptions, AssumptionKey)
    ensures Normalized(a) == Normalized(b)
  {
  }

  /** Requests that differ only in the order of their parts are the same request. */
  lemma RequestOrderIrrelevant(a: Request, b: Request)
    requires SameUpToOrder(a, b) && Acceptable(a)
    ensures Acceptable(b) && Normalized(a) == Normalized(b)
  {
    StepsPermuted(a, b);
    ContextPartsPermuted(a, b);
    TuplePartsPermuted(a, b);
    SameParts(a, b);
  }

  /** Building a request from the parts of a request changes nothing. */
  lemma RequestIdempotent(raw: Request)
    requires Acceptable(raw)
    ensures Acceptable(Normalized(raw)) && Normalized(Normalized(raw)) == Normalized(raw)
  {
    RequestOrderIrrelevant(raw, Normalized(raw));
  }

  /** What every constructed request satisfies. */
  ghost predicate RequestOk(r: Request)
  {
    RequestStored(r) && StepsFit(r) && Tuple(r.required, ContextKey) && Tuple(r.optional, ContextKey) &&
    Tuple(r.constraints, ConstraintKey) && Tuple(r.approvals, ApprovalKey) && Tuple(r.assumptions, AssumptionKey)
  }

  lemma {:induction false} SortedContexts(xs: seq<ContextRequirement>)
    requires ContextsAccepted(xs)
    ensures Tuple(Sort(xs, ContextKey), ContextKey)
  {
    SortSorted(xs, ContextKey);
    DistinctContexts(Sort(xs, ContextKey));
  }

  lemma {:induction false} SortedTuple<T>(xs: seq<T>, key: T -> Key)
    requires TupleAccepted(xs, key)
    ensures Tuple(Sort(xs, key), key)
  {
    SortSorted(xs, key);
  }

  lemma {:induction false} SortedAll<T>(xs: seq<T>, key: T -> Key, p: T -> bool)
    requires All(xs, p)
    ensures All(Sort(xs, key), p)
  {
    var r := Sort(xs, key);
    forall i | 0 <= i < |r| ensures p(r[i]) {
      SortMember(xs, key, r[i]);
    }
  }

  /** The constructor gives requests whose tuples are sorted, without repetitions and not too long. */
  lemma NormalizedOk(raw: Request)
    requires RequestStored(raw) && Acceptable(raw)
    ensures RequestOk(Normalized(raw))
  {
    SortedAll(raw.invocations, StepKey, InvocationOk);
    SortedAll(raw.constraints, ConstraintKey, ConstraintOk);
    SortedIndex(raw.invocations);
    SortedContexts(raw.required);
    SortedContexts(raw.optional);
    SortedTuple(raw.constraints, ConstraintKey);
    SortedTuple(raw.approvals, ApprovalKey);
    SortedTuple(raw.assumptions, AssumptionKey);
  }
}
