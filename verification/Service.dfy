/**
 What the service assembles, why the decision's constructor accepts it, and `evaluate` itself.
 */
module Service {
  import opened Basics
  import opened Ordering
  import opened Merging
  import opened Executive
  import opened Plans
  import opened Requests
  import opened References
  import opened Planner
  import opened Decisions
  import opened Evaluation

  /** What `evaluate` is given; requestPrint is the fingerprint the request was built with. */
  datatype Inputs = Inputs(
    request: Request,
    requestPrint: Fingerprint,
    registry: Registry,
    snapshot: Snapshot,
    env: Environment)

  ghost predicate InputsOk(x: Inputs)
  {
    RequestOk(x.request) && x.requestPrint.kind.RequestPrint? && RegistryOk(x.registry)
  }

  /** What `evaluate` collects before it decides. */
  datatype Assembly = Assembly(contractPrint: Fingerprint, merges: Merges, references: seq<Reference>)

  function Contracted(x: Inputs): seq<Definition>
  {
    Known(x.registry, Capabilities(x.request))
  }

  ghost predicate Gathered(x: Inputs, g: Assembly)
  {
    ContractPrintOf(x.registry, Capabilities(x.request), x.env.engine) == Some(g.contractPrint) &&
    MergesOf(x.request, Contracted(x), g.merges) &&
    ReferencesFor(x.snapshot, g.merges.context, x.request.optional, x.env.digest) == Some(g.references)
  }

  function SituationOf(x: Inputs, g: Assembly): Situation
  {
    Situation(
      Unregistered(x.registry, Capabilities(x.request)),
      Unavailable(x.registry, Capabilities(x.request)),
      InState(g.references, Conflicted) != [],
      InState(g.references, Unknown) != [],
      g.merges.approvals != [],
      x.request.policy)
  }

  ghost predicate Chosen(x: Inputs, g: Assembly, c: Choice)
  {
    CalledFor(SituationOf(x, g), c) && (c.plan.Some? ==> PlanFrom(x.request, x.registry, c.plan.value))
  }

  const ALL_REASONS: seq<Reason> :=
    [Ready, MissingContext, ConflictedContext, ApprovalRequired, CapabilityUnavailable, UnknownCapability]

  function Pick<T(==)>(all: seq<T>, reasons: set<T>): seq<T>
  {
    if all == [] then [] else (if all[0] in reasons then [all[0]] else []) + Pick(all[1..], reasons)
  }

  /** `_ordered_reasons` */
  function OrderedReasons(reasons: set<Reason>): seq<Reason>
  {
    Pick(ALL_REASONS, reasons)
  }

  /** The arguments `evaluate` passes to the constructor of the decision. */
  function Assemble(x: Inputs, g: Assembly, c: Choice): Arguments
  {
    Arguments(
      x.request.id, x.snapshot.owner, c.kind, OrderedReasons(c.reasons), x.env.explain(c.branch), x.snapshot.version,
      x.requestPrint, g.contractPrint, g.references, g.merges.assumptions, Capabilities(x.request),
      g.merges.approvals, g.merges.constraints, c.plan)
  }

  /* ---------- Reasons ---------- */

  lemma {:induction false} PickMembers<T>(all: seq<T>, reasons: set<T>, r: T)
    ensures r in Pick(all, reasons) <==> r in all && r in reasons
  {
    if all != [] {
      PickMembers(all[1..], reasons, r);
      assert all == [all[0]] + all[1..];
    }
  }

  lemma {:induction false} PickStrict<T>(all: seq<T>, reasons: set<T>, rank: T -> Key)
    requires Strict(all, rank)
    ensures Strict(Pick(all, reasons), rank)
  {
    if all != [] {
      var rest := Pick(all[1..], reasons);
      assert Strict(all[1..], rank) by {
        assert forall i :: 0 <= i < |all| - 1 ==> all[1..][i] == all[i + 1];
      }
      PickStrict(all[1..], reasons, rank);
      if all[0] in reasons {
        forall k | 0 <= k < |rest| ensures Leq(rank(all[0]), rank(rest[k])) && rank(all[0]) != rank(rest[k]) {
          PickMembers(all[1..], reasons, rest[k]);
          var j :| 0 <= j < |all| - 1 && all[1..][j] == rest[k];
          assert all[j + 1] == rest[k];
        }
        StrictFront(all[0], rest, rank);
      }
    }
  }

  lemma AllReasonsStrict()
    ensures Strict(ALL_REASONS, ReasonRank)
    ensures forall r: Reason :: r in ALL_REASONS
  {
    forall r: Reason ensures r in ALL_REASONS {
      match r
      case Ready => assert ALL_REASONS[0] == r;
      case MissingContext => assert ALL_REASONS[1] == r;
      case ConflictedContext => assert ALL_REASONS[2] == r;
      case ApprovalRequired => assert ALL_REASONS[3] == r;
      case CapabilityUnavailable => assert ALL_REASONS[4] == r;
      case UnknownCapability => assert ALL_REASONS[5] == r;
    }
    forall i, j | 0 <= i < j < 6
      ensures Leq(ReasonRank(ALL_REASONS[i]), ReasonRank(ALL_REASONS[j]))
      ensures ReasonRank(ALL_REASONS[i]) != ReasonRank(ALL_REASONS[j])
    {
      assert ReasonRank(ALL_REASONS[i])[0] == i && ReasonRank(ALL_REASONS[j])[0] == j;
    }
  }

  /** The ordered reasons are the given ones, each once, in the order of the enumeration. */
  lemma ReasonsOrdered(reasons: set<Reason>)
    ensures Strict(OrderedReasons(reasons), ReasonRank) && SetOf(OrderedReasons(reasons)) == reasons
    ensures reasons != {} ==> OrderedReasons(reasons) != []
  {
    AllReasonsStrict();
    PickStrict(ALL_REASONS, reasons, ReasonRank);
    forall r: Reason ensures r in OrderedReasons(reasons) <==> r in reasons {
      PickMembers(ALL_REASONS, reasons, r);
    }
    if reasons != {} {
      var r :| r in reasons;
      assert r in OrderedReasons(reasons);
    }
  }

  /* ---------- The plan covers the merges ---------- */

  /** A merged item is the request's own, or comes from the contract of some invocation. */
  lemma Origin<T>(
      request: Request, registry: Registry, own: seq<T>, part: Definition -> seq<T>, key: T -> Key, m: seq<T>, x: T)
    returns (k: nat)
    requires RegistryOk(registry) && request.invocations != []
    requires MergeOf(own, part, Known(registry, Capabilities(request)), key, m) && x in m
    ensures k < |request.invocations|
    ensures x in own ||
      (request.invocations[k].capability in registry && x in part(registry[request.invocations[k].capability]))
  {
    var definitions := Known(registry, Capabilities(request));
    MergedMember(own, part, definitions, key, m, x);
    k := 0;
    if x !in own {
      var i :| 0 <= i < |definitions| && x in part(definitions[i]);
      KnownMembers(registry, Capabilities(request), definitions[i]);
      CapabilityRequested(request, definitions[i].capability);
      k :| 0 <= k < |request.invocations| && request.invocations[k].capability == definitions[i].capability;
    }
  }

  lemma InStep<T>(own: seq<T>, part: Definition -> seq<T>, d: Definition, key: T -> Key, m: seq<T>, x: T)
    requires MergeOf(own, part, [d], key, m)
    ensures x in m <==> x in own || x in part(d)
  {
    MergedMember(own, part, [d], key, m, x);
    if x in part(d) {
      assert x in part([d][0]);
    }
  }

  lemma {:induction false} FromStep<T>(
      request: Request, registry: Registry, own: seq<T>, part: Definition -> seq<T>, key: T -> Key, m: seq<T>, k: nat,
      x: T)
    requires RegistryOk(registry) && MergeOf(own, part, Known(registry, Capabilities(request)), key, m)
    requires k < |request.invocations| && request.invocations[k].capability in registry
    requires x in own || x in part(registry[request.invocations[k].capability])
    ensures x in m
  {
    var definitions := Known(registry, Capabilities(request));
    var d := registry[request.invocations[k].capability];
    CapabilityRequested(request, d.capability);
    KnownMembers(registry, Capabilities(request), d);
    MergedMember(own, part, definitions, key, m, x);
    if x in part(d) {
      var i :| 0 <= i < |definitions| && definitions[i] == d;
    }
  }

  lemma PlanMembers(steps: seq<PlanStep>, plan: seq<PlanStep>, s: PlanStep)
    requires multiset(steps) == multiset(plan)
    ensures s in plan <==> s in steps
  {
    assert s in plan <==> s in multiset(plan);
    assert s in steps <==> s in multiset(steps);
  }

  lemma {:induction false} CapabilityInPlan(
      request: Request, registry: Registry, steps: seq<PlanStep>, plan: seq<PlanStep>, k: nat)
    requires StepsFrom(request, registry, steps) && multiset(steps) == multiset(plan) && k < |request.invocations|
    ensures request.invocations[k].capability in StepCapabilities(plan)
  {
    StepCopies(request, registry, steps, k);
    PlanMembers(steps, plan, steps[k]);
  }

  lemma CapabilityOfStep(request: Request, registry: Registry, steps: seq<PlanStep>, plan: seq<PlanStep>, i: nat)
    requires StepsFrom(request, registry, steps) && multiset(steps) == multiset(plan) && i < |plan|
    ensures plan[i].capability in Capabilities(request)
  {
    PlanMembers(steps, plan, plan[i]);
    var k :| 0 <= k < |steps| && steps[k] == plan[i];
    StepCopies(request, registry, steps, k);
    CapabilityRequested(request, plan[i].capability);
  }

  lemma {:induction false} PlanCapabilities(
      request: Request, registry: Registry, steps: seq<PlanStep>, plan: seq<PlanStep>)
    requires StepsFrom(request, registry, steps) && multiset(steps) == multiset(plan)
    ensures StepCapabilities(plan) == SetOf(Capabilities(request))
  {
    forall c: Text ensures c in StepCapabilities(plan) <==> c in Capabilities(request) {
      if c in StepCapabilities(plan) {
        var i :| 0 <= i < |plan| && plan[i].capability == c;
        CapabilityOfStep(request, registry, steps, plan, i);
      }
      if c in Capabilities(request) {
        CapabilityRequested(request, c);
        var k :| 0 <= k < |request.invocations| && request.invocations[k].capability == c;
        CapabilityInPlan(request, registry, steps, plan, k);
      }
    }
  }

  lemma {:induction false} ContextInPlan(
      request: Request, registry: Registry, m: Merges, steps: seq<PlanStep>, plan: seq<PlanStep>,
      x: ContextRequirement)
    requires RegistryOk(registry) && request.invocations != []
    requires MergesOf(request, Known(registry, Capabilities(request)), m)
    requires StepsFrom(request, registry, steps) && multiset(steps) == multiset(plan) && x in m.context
    ensures x in StepContexts(plan)
  {
    var k := Origin(request, registry, request.required, ContextOf, ContextKey, m.context, x);
    var i := request.invocations[k];
    assert StepOf(request, registry, i, steps[k]);
    InStep(request.required, ContextOf, registry[i.capability], ContextKey, steps[k].context, x);
    PlanMembers(steps, plan, steps[k]);
  }

  lemma {:induction false} ApprovalInPlan(
      request: Request, registry: Registry, m: Merges, steps: seq<PlanStep>, plan: seq<PlanStep>, x: Approval)
    requires RegistryOk(registry) && request.invocations != []
    requires MergesOf(request, Known(registry, Capabilities(request)), m)
    requires StepsFrom(request, registry, steps) && multiset(steps) == multiset(plan)
    ensures x in m.approvals <==> x in StepApprovals(plan)
  {
    if x in m.approvals {
      var k := Origin(request, registry, request.approvals, ApprovalsOf, ApprovalKey, m.approvals, x);
      var i := request.invocations[k];
      assert StepOf(request, registry, i, steps[k]);
      InStep(request.approvals, ApprovalsOf, registry[i.capability], ApprovalKey, steps[k].approvals, x);
      PlanMembers(steps, plan, steps[k]);
    }
    if x in StepApprovals(plan) {
      var j :| 0 <= j < |plan| && x in plan[j].approvals;
      PlanMembers(steps, plan, plan[j]);
      var k :| 0 <= k < |steps| && steps[k] == plan[j];
      var i := request.invocations[k];
      assert StepOf(request, registry, i, steps[k]);
      InStep(request.approvals, ApprovalsOf, registry[i.capability], ApprovalKey, steps[k].approvals, x);
      FromStep(request, registry, request.approvals, ApprovalsOf, ApprovalKey, m.approvals, k, x);
    }
  }

  /** The required references are references to the merged context. */
  lemma {:induction false} RequiredAreMerged(
      snapshot: Snapshot, context: seq<ContextRequirement>, optional: seq<ContextRequirement>, digest: Text -> Text,
      refs: seq<Reference>, c: ContextRequirement)
    requires Strict(context, ContextKey) && Strict(optional, ContextKey)
    requires ReferencesFor(snapshot, context, optional, digest) == Some(refs)
    ensures c in RequiredSet(refs) <==> c in context
  {
    var first, rest := ReferencesInOrder(snapshot, context, optional, digest, refs);
    if c in RequiredSet(refs) {
      var i :| 0 <= i < |refs| && refs[i].required && refs[i].requirement == c;
      assert i < |first|;
    }
    if c in context {
      var i :| 0 <= i < |context| && context[i] == c;
      assert refs[i] == first[i];
    }
  }

  lemma {:induction false} CoverageOfSteps(
      request: Request, registry: Registry, m: Merges, refs: seq<Reference>, steps: seq<PlanStep>, plan: seq<PlanStep>)
    requires RegistryOk(registry) && request.invocations != []
    requires MergesOf(request, Known(registry, Capabilities(request)), m)
    requires StepsFrom(request, registry, steps) && multiset(steps) == multiset(plan)
    requires forall c :: c in RequiredSet(refs) ==> c in m.context
    ensures PlanCovers(plan, Capabilities(request), refs, m.approvals)
  {
    PlanCapabilities(request, registry, steps, plan);
    forall c | c in RequiredSet(refs) ensures c in StepContexts(plan) {
      ContextInPlan(request, registry, m, steps, plan, c);
    }
    forall a: Approval ensures a in SetOf(m.approvals) <==> a in StepApprovals(plan) {
      ApprovalInPlan(request, registry, m, steps, plan, a);
    }
  }

  lemma {:induction false} CoverageOfPlan(
      request: Request, registry: Registry, snapshot: Snapshot, digest: Text -> Text, m: Merges,
      refs: seq<Reference>, plan: seq<PlanStep>)
    requires RegistryOk(registry) && request.invocations != [] && Tuple(request.optional, ContextKey)
    requires MergesOf(request, Known(registry, Capabilities(request)), m)
    requires ReferencesFor(snapshot, m.context, request.optional, digest) == Some(refs)
    requires PlanFrom(request, registry, plan)
    ensures PlanCovers(plan, Capabilities(request), refs, m.approvals)
  {
    var steps :| StepsFrom(request, registry, steps) && IsPlan(steps, plan);
    forall c | c in RequiredSet(refs) ensures c in m.context {
      RequiredAreMerged(snapshot, m.context, request.optional, digest, refs, c);
    }
    CoverageOfSteps(request, registry, m, refs, steps, plan);
  }

  /* ---------- The constructor accepts what the service assembles ---------- */

  /** The parts of the arguments come sorted already. */
  lemma {:induction false} AssembledSorted(
      request: Request, registry: Registry, m: Merges, refs: seq<Reference>, a: Arguments)
    requires MergesOf(request, Known(registry, Capabilities(request)), m) && Strict(refs, ReferenceKey)
    requires a.references == refs && a.assumptions == m.assumptions && a.approvals == m.approvals
    requires a.constraints == m.constraints && a.capabilities == Capabilities(request)
    ensures Sorted(a) == a
  {
    SortedSetFacts(Map(CapabilityOf, request.invocations));
    SortOfSorted(a.references, ReferenceKey);
    SortOfSorted(a.assumptions, AssumptionKey);
    SortOfSorted(a.approvals, ApprovalKey);
    SortOfSorted(a.constraints, ConstraintKey);
    SortOfSorted(a.capabilities, Identity);
  }

  lemma {:induction false} MergedTuple<T>(
      own: seq<T>, part: Definition -> seq<T>, definitions: seq<Definition>, key: T -> Key, m: seq<T>)
    requires MergeOf(own, part, definitions, key, m)
    ensures |m| <= MAX_REQUEST_ITEMS && DistinctKeys(Sort(m, key), key)
  {
    SortOfSorted(m, key);
  }

  lemma CapabilitiesAccepted(request: Request)
    requires request.invocations != [] && |request.invocations| <= MAX_PLAN_STEPS
    ensures |Capabilities(request)| <= MAX_PLAN_STEPS && Distinct(Capabilities(request))
    ensures Capabilities(request) != []
  {
    var cs := Capabilities(request);
    CapabilityRequested(request, request.invocations[0].capability);
    forall i, j | 0 <= i < j < |cs| ensures cs[i] != cs[j] {
      assert Identity(cs[i]) != Identity(cs[j]);
    }
  }

  ghost predicate ListsAssembled(
      request: Request, registry: Registry, snapshot: Snapshot, digest: Text -> Text, m: Merges, a: Arguments)
  {
    MergesOf(request, Known(registry, Capabilities(request)), m) &&
    ReferencesFor(snapshot, m.context, request.optional, digest) == Some(a.references) &&
    a.assumptions == m.assumptions && a.approvals == m.approvals && a.constraints == m.constraints &&
    a.capabilities == Capabilities(request) && a.requestPrint.kind.RequestPrint? && a.contractPrint.kind.ContractPrint?
  }

  lemma {:induction false} ReferencesAccepted(
      snapshot: Snapshot, required: seq<ContextRequirement>, optional: seq<ContextRequirement>, digest: Text -> Text,
      refs: seq<Reference>)
    requires Strict(required, ContextKey) && Strict(optional, ContextKey)
    requires ReferencesFor(snapshot, required, optional, digest) == Some(refs)
    ensures Strict(refs, ReferenceKey) && Sort(refs, ReferenceKey) == refs
    ensures Distinct(Map(RequirementOf, refs))
  {
    var _, _ := ReferencesInOrder(snapshot, required, optional, digest, refs);
    SortOfSorted(refs, ReferenceKey);
    RequirementsDistinct(snapshot, required, optional, digest, refs);
  }

  /** The lists are refused only when there are too many references. */
  lemma ListsAccepted(
      request: Request, registry: Registry, snapshot: Snapshot, digest: Text -> Text, m: Merges, a: Arguments)
    requires request.invocations != [] && |request.invocations| <= MAX_PLAN_STEPS
    requires Tuple(request.optional, ContextKey) && ListsAssembled(request, registry, snapshot, digest, m, a)
    requires a.reasons != [] && Strict(a.reasons, ReasonRank)
    ensures CheckLists(a) == if |a.references| > MAX_CONTEXT_REQUIREMENTS then Some(TooManyReferences) else None
  {
    var definitions := Known(registry, Capabilities(request));
    ReferencesAccepted(snapshot, m.context, request.optional, digest, a.references);
    MergedTuple(request.assumptions, AssumptionsOf, definitions, AssumptionKey, m.assumptions);
    MergedTuple(request.approvals, ApprovalsOf, definitions, ApprovalKey, m.approvals);
    MergedTuple(request.constraints, ConstraintsOf, definitions, ConstraintKey, m.constraints);
    CapabilitiesAccepted(request);
  }

  lemma PartsAccepted(s: Situation, c: Choice, a: Arguments)
    requires CalledFor(s, c) && a.kind == c.kind && a.reasons == OrderedReasons(c.reasons) && a.plan == c.plan
    requires s.missing == (InState(a.references, Unknown) != [])
    requires s.conflicted == (InState(a.references, Conflicted) != []) && s.approvals == (a.approvals != [])
    requires a.plan.Some? ==> PlanCovers(a.plan.value, a.capabilities, a.references, a.approvals)
    ensures CheckParts(a) == None
  {
    ReasonsOrdered(c.reasons);
    ChoiceShape(s, c);
  }

  /** The assembled arguments pass every check but those on sizes. */
  lemma AssembledChecked(x: Inputs, g: Assembly, c: Choice, a: Arguments)
    requires x.requestPrint.kind.RequestPrint? && RegistryOk(x.registry)
    requires x.request.invocations != [] && |x.request.invocations| <= MAX_PLAN_STEPS
    requires Tuple(x.request.optional, ContextKey)
    requires Gathered(x, g) && Chosen(x, g, c) && a == Assemble(x, g, c)
    ensures CheckLists(a) == if |g.references| > MAX_CONTEXT_REQUIREMENTS then Some(TooManyReferences) else None
    ensures Sorted(a) == a && CheckParts(a) == None
  {
    ReasonsOrdered(c.reasons);
    ChoiceShape(SituationOf(x, g), c);
    ListsAccepted(x.request, x.registry, x.snapshot, x.env.digest, g.merges, a);
    ReferencesAccepted(x.snapshot, g.merges.context, x.request.optional, x.env.digest, g.references);
    AssembledSorted(x.request, x.registry, g.merges, g.references, a);
    if c.plan.Some? {
      CoverageOfPlan(x.request, x.registry, x.snapshot, x.env.digest, g.merges, g.references, c.plan.value);
    }
    PartsAccepted(SituationOf(x, g), c, a);
  }

  /**
   The service and the constructor agree: whatever `evaluate` assembles is accepted, unless there
   are more than 128 references or the JSON engine rejects one of the two documents.
   */
  lemma AssembledAccepted(x: Inputs, g: Assembly, c: Choice)
    requires InputsOk(x) && Gathered(x, g) && Chosen(x, g, c)
    ensures Construct(Assemble(x, g, c), x.env.engine) ==
      if |g.references| > MAX_CONTEXT_REQUIREMENTS then Refused(TooManyReferences)
      else Seal(Assemble(x, g, c), x.env.engine)
  {
    AssembledChecked(x, g, c, Assemble(x, g, c));
  }

  /* ---------- There is only one thing to decide ---------- */

  lemma GatheredUnique(x: Inputs, g: Assembly, h: Assembly)
    requires Gathered(x, g) && Gathered(x, h)
    ensures g == h
  {
    MergesUnique(x.request, Contracted(x), g.merges, h.merges);
  }

  lemma ChosenUnique(x: Inputs, g: Assembly, c: Choice, d: Choice)
    requires Chosen(x, g, c) && Chosen(x, g, d)
    ensures c == d
  {
    if c.plan.Some? {
      PlanFromUnique(x.request, x.registry, c.plan.value, d.plan.value);
    }
    CalledForUnique(SituationOf(x, g), c, d);
  }

  /* ---------- The service ---------- */

  /** One of the four merges of `evaluate`. */
  method MergeFrom<T(==)>(own: seq<T>, part: Definition -> seq<T>, definitions: seq<Definition>, key: T -> Key)
      returns (r: Merge<T>)
    ensures r.Merged? ==> MergeOf(own, part, definitions, key, r.items)
    ensures r.Merged? <==> exists m :: MergeOf(own, part, definitions, key, m)
  {
    r := MergeAll(Gather(own, part, definitions), key, MAX_REQUEST_ITEMS);
    ghost var all := Flatten(Gather(own, part, definitions));
    if m :| MergeOf(own, part, definitions, key, m) {
      MergeCompatible(all, key, m);
      if r.Overflow? {
        ghost var n :| IsMerge(all, key, n) && |n| > MAX_REQUEST_ITEMS;
        MergeUnique(all, all, key, m, n);
      }
    }
    if r.Merged? {
      assert MergeOf(own, part, definitions, key, r.items);
    }
  }

  datatype Failure = Conflict | TooManyItems | BadReference

  datatype Collection = Collected(merges: Merges, references: seq<Reference>) | Failed(why: Failure)

  ghost predicate Collects(
      request: Request, definitions: seq<Definition>, snapshot: Snapshot, digest: Text -> Text, m: Merges,
      refs: seq<Reference>)
  {
    MergesOf(request, definitions, m) && ReferencesFor(snapshot, m.context, request.optional, digest) == Some(refs)
  }

  function WhyFailed<T>(r: Merge<T>): Failure
    requires !r.Merged?
  {
    if r.Conflicting? then Conflict else TooManyItems
  }

  /** The merges of `evaluate` and its references, in the order it computes them. */
  method Collect(request: Request, definitions: seq<Definition>, snapshot: Snapshot, digest: Text -> Text)
      returns (r: Collection)
    ensures r.Collected? ==> Collects(request, definitions, snapshot, digest, r.merges, r.references)
    ensures r.Collected? <==> exists m, refs :: Collects(request, definitions, snapshot, digest, m, refs)
  {
    var context := MergeFrom(request.required, ContextOf, definitions, ContextKey);
    if !context.Merged? {
      return Failed(WhyFailed(context));
    }
    var refs := ReferencesFor(snapshot, context.items, request.optional, digest);
    if refs.None? {
      if m, rs :| Collects(request, definitions, snapshot, digest, m, rs) {
        MergeOfUnique(request.required, ContextOf, definitions, ContextKey, m.context, context.items);
      }
      return Failed(BadReference);
    }
    var approvals := MergeFrom(request.approvals, ApprovalsOf, definitions, ApprovalKey);
    if !approvals.Merged? {
      return Failed(WhyFailed(approvals));
    }
    var assumptions := MergeFrom(request.assumptions, AssumptionsOf, definitions, AssumptionKey);
    if !assumptions.Merged? {
      return Failed(WhyFailed(assumptions));
    }
    var constraints := MergeFrom(request.constraints, ConstraintsOf, definitions, ConstraintKey);
    if !constraints.Merged? {
      return Failed(WhyFailed(constraints));
    }
    r := Collected(
      Merges(context.items, approvals.items, assumptions.items, constraints.items), refs.value);
    assert Collects(request, definitions, snapshot, digest, r.merges, r.references);
  }

  method CheckParameters(registry: Registry, invocations: seq<Invocation>) returns (ok: bool)
    requires All(invocations, InvocationOk)
    ensures ok <==> ParametersFit(registry, invocations)
  {
    ok := true;
    var k := 0;
    while k < |invocations|
      invariant 0 <= k <= |invocations| && ok == ParametersFit(registry, invocations[..k])
    {
      var i := invocations[k];
      FitNext(registry, invocations, k);
      if i.capability in registry && !ParametersMatch(registry[i.capability], i.parameters) {
        return false;
      }
      k := k + 1;
    }
    assert invocations[..k] == invocations;
  }

  lemma FitNext(registry: Registry, invocations: seq<Invocation>, k: nat)
    requires k < |invocations| && All(invocations, InvocationOk)
    ensures All(invocations[..k], InvocationOk) && All(invocations[..k + 1], InvocationOk)
    ensures InvocationOk(invocations[k])
    ensures ParametersFit(registry, invocations[..k + 1]) <==>
      ParametersFit(registry, invocations[..k]) &&
      (invocations[k].capability in registry ==>
        ParametersMatch(registry[invocations[k].capability], invocations[k].parameters))
  {
    var a, b := invocations[..k], invocations[..k + 1];
    assert b[k] == invocations[k];
    assert forall j :: 0 <= j < k ==> a[j] == b[j] && a[j] == invocations[j];
  }

  lemma {:induction false} FindsAll(request: Request, registry: Registry, definitions: seq<Definition>)
    requires RegistryOk(registry) && definitions == Known(registry, Capabilities(request))
    requires !Unregistered(registry, Capabilities(request))
    ensures Finds(request, registry, ById(definitions, DefinitionId), definitions)
  {
    ByIdIndexes(definitions, DefinitionId);
    forall k | 0 <= k < |request.invocations|
      ensures var c := request.invocations[k].capability;
        c in registry && c in ById(definitions, DefinitionId) &&
        ById(definitions, DefinitionId)[c] == registry[c] && registry[c] in definitions
    {
      FindsOne(request, registry, definitions, request.invocations[k].capability, ById(definitions, DefinitionId));
    }
  }

  lemma {:induction false} FindsOne(
      request: Request, registry: Registry, definitions: seq<Definition>, c: Text, byId: map<Text, Definition>)
    requires RegistryOk(registry) && definitions == Known(registry, Capabilities(request))
    requires !Unregistered(registry, Capabilities(request)) && Indexes(byId, definitions, DefinitionId)
    requires exists k :: 0 <= k < |request.invocations| && request.invocations[k].capability == c
    ensures c in registry && c in byId && byId[c] == registry[c] && registry[c] in definitions
  {
    var capabilities := Capabilities(request);
    CapabilityRequested(request, c);
    var i :| 0 <= i < |capabilities| && capabilities[i] == c;
    KnownMembers(registry, capabilities, registry[c]);
    var k :| 0 <= k < |definitions| && definitions[k] == registry[c];
    assert DefinitionId(definitions[k]) in byId;
    KnownMembers(registry, capabilities, byId[c]);
  }

  /** The lists `evaluate` branches on. */
  datatype Blocking = Blocking(
    unknown: seq<Text>,
    unavailable: seq<Text>,
    missing: seq<ContextRequirement>,
    conflicted: seq<ContextRequirement>)

  predicate Blocks(s: Situation, b: Blocking)
  {
    s.unregistered == (b.unknown != []) && s.unavailable == (b.unavailable != []) &&
    s.missing == (b.missing != []) && s.conflicted == (b.conflicted != [])
  }

  /** The branches of `evaluate` that make no plan. */
  method Decline(ghost s: Situation, b: Blocking, policy: MissingContextPolicy) returns (c: Choice)
    requires !Clear(s) && Blocks(s, b) && s.policy == policy
    ensures CalledFor(s, c) && c.plan.None?
  {
    var reasons: set<Reason> := {};
    if b.unknown != [] {
      reasons := reasons + {UnknownCapability};
      if b.unavailable != [] {
        reasons := reasons + {CapabilityUnavailable};
      }
      if b.missing != [] {
        reasons := reasons + {MissingContext};
      }
      if b.conflicted != [] {
        reasons := reasons + {ConflictedContext};
      }
      return Choice(AbsentCapability, Rejected, reasons, None);
    } else if b.unavailable != [] {
      reasons := reasons + {CapabilityUnavailable};
      if b.missing != [] {
        reasons := reasons + {MissingContext};
      }
      if b.conflicted != [] {
        reasons := reasons + {ConflictedContext};
      }
      return Choice(UnavailableCapability, Deferred, reasons, None);
    } else if b.conflicted != [] {
      reasons := reasons + {ConflictedContext};
      if b.missing != [] {
        reasons := reasons + {MissingContext};
      }
      return Choice(ConflictingContext, Deferred, reasons, None);
    }
    reasons := reasons + {MissingContext};
    if policy.Defer? {
      return Choice(DeferredContext, Deferred, reasons, None);
    }
    return Choice(AskedContext, RequestInformation, reasons, None);
  }

  /** The branch of `evaluate` that made a plan. */
  method Offer(ghost s: Situation, approvals: seq<Approval>, plan: seq<PlanStep>) returns (c: Choice)
    requires Clear(s) && s.approvals == (approvals != [])
    ensures CalledFor(s, c) && c.plan == Some(plan)
  {
    if approvals != [] {
      return Choice(AwaitingApproval, RequestApproval, {ApprovalRequired}, Some(plan));
    }
    return Choice(ReadyNow, Propose, {Ready}, Some(plan));
  }

  /** The whole choice; the planner is called only when nothing stands in the way. */
  method Decide(
      request: Request, registry: Registry, definitions: seq<Definition>, m: Merges, b: Blocking, ghost s: Situation)
      returns (c: Option<Choice>)
    requires All(request.invocations, InvocationOk) && StepsFit(request) && RegistryOk(registry)
    requires definitions == Known(registry, Capabilities(request)) && MergesOf(request, definitions, m)
    requires Blocks(s, b) && s.approvals == (m.approvals != []) && s.policy == request.policy
    requires s.unregistered == Unregistered(registry, Capabilities(request))
    ensures c.Some? && CalledFor(s, c.value)
    ensures c.value.plan.Some? ==> PlanFrom(request, registry, c.value.plan.value)
  {
    if b.unknown != [] || b.unavailable != [] || b.conflicted != [] || b.missing != [] {
      var choice := Decline(s, b, request.policy);
      return Some(choice);
    }
    FindsAll(request, registry, definitions);
    var planning := BuildPlan(request, registry, ById(definitions, DefinitionId), definitions, m);
    if !planning.Planned? {
      return None;
    }
    var choice := Offer(s, m.approvals, planning.steps);
    return Some(choice);
  }

  datatype Outcome =
    | Decided(decision: Decision)
    | OwnerMismatch
    | ContractsTooLarge
    | InvalidParameters
    | CollectionFailed(why: Failure)
    | PlanningFailed
    | DecisionRefused(refusal: Refusal)

  /** d is the decision on the inputs. */
  ghost predicate Decides(x: Inputs, d: Decision)
  {
    exists g, c :: DecidesBy(x, g, c, d)
  }

  ghost predicate Decidable(x: Inputs)
  {
    exists d :: Decides(x, d)
  }

  ghost predicate DecidesBy(x: Inputs, g: Assembly, c: Choice, d: Decision)
  {
    Gathered(x, g) && Chosen(x, g, c) && |g.references| <= MAX_CONTEXT_REQUIREMENTS &&
    Seal(Assemble(x, g, c), x.env.engine) == Constructed(d)
  }

  /** Only what was gathered and chosen decides. */
  lemma DecidesOnly(x: Inputs, g: Assembly, c: Choice, d: Decision)
    requires Gathered(x, g) && Chosen(x, g, c) && Decides(x, d)
    ensures DecidesBy(x, g, c, d)
  {
    var h, e :| DecidesBy(x, h, e, d);
    GatheredUnique(x, g, h);
    ChosenUnique(x, g, c, e);
  }

  /** At most one decision is possible: it does not depend on how the service computes it. */
  lemma DecisionUnique(x: Inputs, a: Decision, b: Decision)
    requires Decides(x, a) && Decides(x, b)
    ensures a == b
  {
    var g, c :| DecidesBy(x, g, c, a);
    DecidesOnly(x, g, c, b);
  }

  lemma NothingCollected(x: Inputs)
    requires !exists m, refs :: Collects(x.request, Contracted(x), x.snapshot, x.env.digest, m, refs)
    ensures !Decidable(x)
  {
    if d :| Decides(x, d) {
      var g, c :| DecidesBy(x, g, c, d);
      assert Collects(x.request, Contracted(x), x.snapshot, x.env.digest, g.merges, g.references);
    }
  }

  lemma NoContracts(x: Inputs, g: Assembly)
    requires ContractPrintOf(x.registry, Capabilities(x.request), x.env.engine) == None
    ensures !Gathered(x, g)
  {
  }

  lemma NothingDecided(x: Inputs)
    requires forall g :: !Gathered(x, g)
    ensures !Decidable(x)
  {
  }

  lemma RefusedHere(x: Inputs, g: Assembly, c: Choice, made: Construction)
    requires Gathered(x, g) && Chosen(x, g, c) && made.Refused?
    requires |g.references| > MAX_CONTEXT_REQUIREMENTS || made == Seal(Assemble(x, g, c), x.env.engine)
    ensures !Decidable(x)
  {
    if d :| Decides(x, d) {
      DecidesOnly(x, g, c, d);
    }
  }

  lemma DecidedHere(x: Inputs, g: Assembly, c: Choice, made: Construction)
    requires Gathered(x, g) && Chosen(x, g, c) && made.Constructed?
    requires |g.references| <= MAX_CONTEXT_REQUIREMENTS && made == Seal(Assemble(x, g, c), x.env.engine)
    ensures Decides(x, made.decision)
  {
    assert DecidesBy(x, g, c, made.decision);
  }

  /** `ExecutiveService.evaluate`, for the owner the service is configured with. */
  method Evaluate(owner: Text, x: Inputs) returns (r: Outcome)
    requires InputsOk(x)
    ensures r.OwnerMismatch? <==> x.snapshot.owner != owner
    ensures !r.PlanningFailed?
    ensures r.DecisionRefused? ==> r.refusal in {TooManyReferences, ContextTooLarge, DecisionTooLarge}
    ensures r.ContractsTooLarge? ==> ContractPrintOf(x.registry, Capabilities(x.request), x.env.engine) == None
    ensures r.InvalidParameters? ==> !ParametersFit(x.registry, x.request.invocations)
    ensures r.Decided? ==> Decides(x, r.decision)
    ensures r.Decided? <==>
      x.snapshot.owner == owner && ParametersFit(x.registry, x.request.invocations) && Decidable(x)
  {
    if x.snapshot.owner != owner {
      return OwnerMismatch;
    }
    var capabilities := Capabilities(x.request);
    var contractPrint := ContractPrintOf(x.registry, capabilities, x.env.engine);
    if contractPrint.None? {
      forall g ensures !Gathered(x, g) {
        NoContracts(x, g);
      }
      NothingDecided(x);
      return ContractsTooLarge;
    }
    var definitions, unknown, unavailable := LookUp(x.registry, capabilities);
    var ok := CheckParameters(x.registry, x.request.invocations);
    if !ok {
      return InvalidParameters;
    }
    var collection := Collect(x.request, definitions, x.snapshot, x.env.digest);
    if collection.Failed? {
      NothingCollected(x);
      return CollectionFailed(collection.why);
    }
    var g := Assembly(contractPrint.value, collection.merges, collection.references);
    r := Finish(x, definitions, unknown, unavailable, g);
  }

  /** The second half of `evaluate`: choosing, planning and constructing. */
  method Finish(x: Inputs, definitions: seq<Definition>, unknown: seq<Text>, unavailable: seq<Text>, g: Assembly)
      returns (r: Outcome)
    requires InputsOk(x) && Gathered(x, g) && definitions == Contracted(x)
    requires unknown != [] <==> Unregistered(x.registry, Capabilities(x.request))
    requires unavailable != [] <==> Unavailable(x.registry, Capabilities(x.request))
    ensures r.Decided? || r.DecisionRefused?
    ensures r.DecisionRefused? ==> r.refusal in {TooManyReferences, ContextTooLarge, DecisionTooLarge}
    ensures r.DecisionRefused? ==> !Decidable(x)
    ensures r.Decided? ==> Decides(x, r.decision)
  {
    var missing, conflicted := InState(g.references, Unknown), InState(g.references, Conflicted);
    var choice := Decide(
      x.request, x.registry, definitions, g.merges, Blocking(unknown, unavailable, missing, conflicted),
      SituationOf(x, g));
    if choice.None? {
      return PlanningFailed;
    }
    r := Submit(x, g, choice.value);
  }

  /** The call of the constructor. */
  method Submit(x: Inputs, g: Assembly, c: Choice) returns (r: Outcome)
    requires InputsOk(x) && Gathered(x, g) && Chosen(x, g, c)
    ensures r.Decided? || r.DecisionRefused?
    ensures r.DecisionRefused? ==> r.refusal in {TooManyReferences, ContextTooLarge, DecisionTooLarge}
    ensures r.DecisionRefused? ==> !Decidable(x)
    ensures r.Decided? ==> Decides(x, r.decision)
  {
    var made := Construct(Assemble(x, g, c), x.env.engine);
    AssembledAccepted(x, g, c);
    SealOutcome(Assemble(x, g, c), x.env.engine);
    if made.Refused? {
      RefusedHere(x, g, c, made);
      return DecisionRefused(made.why);
    }
    DecidedHere(x, g, c, made);
    return Decided(made.decision);
  }

  lemma SealOutcome(a: Arguments, engine: Engine)
    ensures Seal(a, engine).Constructed? || Seal(a, engine).why in {ContextTooLarge, DecisionTooLarge}
  {
  }

  /* ---------- What a decision says ---------- */

  predicate HasReason(d: Decision, r: Reason)
  {
    r in d.arguments.reasons
  }

  lemma SealParts(a: Arguments, engine: Engine, d: Decision)
    requires Seal(a, engine) == Constructed(d)
    ensures d.arguments == a
    ensures d.missing == InState(a.references, Unknown) && d.conflicted == InState(a.references, Conflicted)
    ensures FingerprintOf(ContextPrint, RelevantDocument(a.references), engine) == Some(d.contextPrint)
  {
  }

  lemma DecisionParts(x: Inputs, g: Assembly, c: Choice, d: Decision)
    requires DecidesBy(x, g, c, d)
    ensures d.arguments == Assemble(x, g, c)
    ensures d.missing == InState(g.references, Unknown) && d.conflicted == InState(g.references, Conflicted)
    ensures FingerprintOf(ContextPrint, RelevantDocument(g.references), x.env.engine) == Some(d.contextPrint)
  {
    SealParts(Assemble(x, g, c), x.env.engine, d);
  }

  /** The reasons of a decision are exactly the conditions that hold of its inputs. */
  lemma DecisionReasons(x: Inputs, d: Decision)
    requires Decides(x, d)
    ensures HasReason(d, UnknownCapability) <==> Unregistered(x.registry, Capabilities(x.request))
    ensures HasReason(d, CapabilityUnavailable) <==> Unavailable(x.registry, Capabilities(x.request))
    ensures HasReason(d, MissingContext) <==> d.missing != []
    ensures HasReason(d, ConflictedContext) <==> d.conflicted != []
    ensures HasReason(d, ApprovalRequired) <==> d.arguments.kind.RequestApproval?
    ensures HasReason(d, Ready) <==> d.arguments.kind.Propose?
    ensures d.arguments.kind.Rejected? <==> Unregistered(x.registry, Capabilities(x.request))
  {
    var g, c :| DecidesBy(x, g, c, d);
    DecisionParts(x, g, c, d);
    SameReasons(d, c);
    assert CalledFor(SituationOf(x, g), c);
  }

  lemma SameReasons(d: Decision, c: Choice)
    requires d.arguments.reasons == OrderedReasons(c.reasons)
    ensures forall r: Reason :: HasReason(d, r) <==> r in c.reasons
  {
    ReasonsOrdered(c.reasons);
    forall r: Reason ensures HasReason(d, r) <==> r in c.reasons {
      assert r in SetOf(OrderedReasons(c.reasons)) <==> r in OrderedReasons(c.reasons);
    }
  }

  /**
   A plan is present exactly in proposals and approval requests, and it names the capabilities, the
   required context and the approvals of the decision.
   */
  lemma DecisionPlan(x: Inputs, d: Decision)
    requires InputsOk(x) && Decides(x, d)
    ensures d.arguments.plan.Some? <==> d.arguments.kind.Propose? || d.arguments.kind.RequestApproval?
    ensures d.arguments.plan.Some? ==>
      var a := d.arguments;
      PlanFrom(x.request, x.registry, a.plan.value) &&
      PlanCovers(a.plan.value, a.capabilities, a.references, a.approvals)
    ensures d.arguments.plan.Some? ==> d.missing == [] && d.conflicted == []
  {
    var g, c :| DecidesBy(x, g, c, d);
    DecisionParts(x, g, c, d);
    if c.plan.Some? {
      CoverageOfPlan(x.request, x.registry, x.snapshot, x.env.digest, g.merges, g.references, c.plan.value);
    }
  }
}
