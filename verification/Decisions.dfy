/**
 The constructor of `ExecutiveDecision`: an independent check of everything the service assembled.
 */
module Decisions {
  import opened Basics
  import opened Ordering
  import opened Executive
  import opened Plans
  import opened References
  import J = JsonTree

  datatype DecisionType = Propose | RequestInformation | RequestApproval | Deferred | Rejected

  /** In the order of the enumeration, which is the order reasons are listed in. */
  datatype Reason = Ready | MissingContext | ConflictedContext | ApprovalRequired | CapabilityUnavailable | UnknownCapability

  function ReasonRank(r: Reason): (k: Key)
    ensures |k| == 1
  {
    match r
    case Ready => [0]
    case MissingContext => [1]
    case ConflictedContext => [2]
    case ApprovalRequired => [3]
    case CapabilityUnavailable => [4]
    case UnknownCapability => [5]
  }

  datatype FingerprintKind = RequestPrint | ContractPrint | ContextPrint | DecisionPrint

  datatype Fingerprint = Fingerprint(kind: FingerprintKind, digest: Text)

  /** The digest of a document's canonical text; None for documents the JSON engine rejects. */
  type Engine = Json -> Option<Text>

  /** `fingerprint_document` */
  function FingerprintOf(kind: FingerprintKind, document: Json, engine: Engine): Option<Fingerprint>
  {
    match engine(document)
    case None => None
    case Some(t) => Some(Fingerprint(kind, t))
  }

  function KindText(k: FingerprintKind): string
  {
    match k
    case RequestPrint => "request"
    case ContractPrint => "capability_contract"
    case ContextPrint => "relevant_context"
    case DecisionPrint => "decision"
  }

  function FingerprintText(f: Fingerprint): Text
  {
    Word(KindText(f.kind)) + Word(":sha256:") + f.digest
  }

  datatype Arguments = Arguments(
    requestId: Text,
    owner: Text,
    kind: DecisionType,
    reasons: seq<Reason>,
    explanation: Text,
    version: Text,
    requestPrint: Fingerprint,
    contractPrint: Fingerprint,
    references: seq<Reference>,
    assumptions: seq<Assumption>,
    capabilities: seq<Text>,
    approvals: seq<Approval>,
    constraints: seq<Constraint>,
    plan: Option<seq<PlanStep>>)

  datatype Decision = Decision(
    arguments: Arguments,
    missing: seq<ContextRequirement>,
    conflicted: seq<ContextRequirement>,
    contextPrint: Fingerprint,
    decisionPrint: Fingerprint)

  /** The required references in a given state. */
  function InState(refs: seq<Reference>, state: ContextState): (cs: seq<ContextRequirement>)
    ensures cs != [] <==> exists i :: 0 <= i < |refs| && refs[i].required && refs[i].state == state
  {
    if refs == [] then []
    else
      var rest := InState(refs[1..], state);
      if refs[0].required && refs[0].state == state then [refs[0].requirement] + rest else rest
  }

  /* ---------- Checks on the shape of a decision ---------- */

  predicate ReasonsFor(kind: DecisionType, reasons: set<Reason>)
  {
    match kind
    case Propose => reasons == {Ready}
    case RequestInformation => reasons == {MissingContext}
    case RequestApproval => reasons == {ApprovalRequired}
    case Deferred => reasons <= {MissingContext, ConflictedContext, CapabilityUnavailable}
    case Rejected =>
      UnknownCapability in reasons &&
      reasons <= {UnknownCapability, CapabilityUnavailable, MissingContext, ConflictedContext}
  }

  /** Which parts a decision of each kind must and must not have. */
  predicate PartsFor(kind: DecisionType, missing: bool, conflicted: bool, approvals: bool, plan: bool)
  {
    match kind
    case Propose => plan && !missing && !conflicted && !approvals
    case RequestApproval => plan && approvals && !missing && !conflicted
    case RequestInformation => !plan && missing && !conflicted
    case _ => !plan
  }

  /** `_validate_shape` */
  predicate ShapeOk(
      kind: DecisionType, reasons: set<Reason>, missing: bool, conflicted: bool, approvals: bool, plan: bool)
  {
    ReasonsFor(kind, reasons) && (MissingContext in reasons <==> missing) &&
    (ConflictedContext in reasons <==> conflicted) && PartsFor(kind, missing, conflicted, approvals, plan)
  }

  function SetOf<T(==,!new)>(xs: seq<T>): (s: set<T>)
    ensures forall x :: x in s <==> x in xs
  {
    set x | x in xs
  }

  function StepCapabilities(steps: seq<PlanStep>): (s: set<Text>)
    ensures forall c: Text :: c in s <==> exists i :: 0 <= i < |steps| && steps[i].capability == c
  {
    if steps == [] then {} else {steps[0].capability} + StepCapabilities(steps[1..])
  }

  function StepContexts(steps: seq<PlanStep>): (s: set<ContextRequirement>)
    ensures forall c :: c in s <==> exists i :: 0 <= i < |steps| && c in steps[i].context
  {
    if steps == [] then {} else SetOf(steps[0].context) + StepContexts(steps[1..])
  }

  function StepApprovals(steps: seq<PlanStep>): (s: set<Approval>)
    ensures forall a :: a in s <==> exists i :: 0 <= i < |steps| && a in steps[i].approvals
  {
    if steps == [] then {} else SetOf(steps[0].approvals) + StepApprovals(steps[1..])
  }

  function RequiredSet(refs: seq<Reference>): (s: set<ContextRequirement>)
    ensures forall c :: c in s <==> exists i :: 0 <= i < |refs| && refs[i].required && refs[i].requirement == c
  {
    if refs == [] then {} else (if refs[0].required then {refs[0].requirement} else {}) + RequiredSet(refs[1..])
  }

  /** The plan covers what the decision says it needs. */
  predicate PlanCovers(
      steps: seq<PlanStep>, capabilities: seq<Text>, refs: seq<Reference>, approvals: seq<Approval>)
  {
    StepCapabilities(steps) == SetOf(capabilities) && RequiredSet(refs) <= StepContexts(steps) &&
    StepApprovals(steps) == SetOf(approvals)
  }

  /* ---------- Documents ---------- */

  const STEP_FIELDS := [
    "capability_id", "constraints", "dependencies", "expected_result", "failure_policy", "parameters",
    "preconditions", "required_approvals", "required_context", "step_id"]
  const DECISION_FIELDS := [
    "assumptions", "capability_contract_fingerprint", "conflicted_context", "constraints", "decision_type",
    "explanation", "missing_context", "owner_subject", "proposed_plan", "reason_codes",
    "relevant_context_fingerprint", "request_fingerprint", "request_id", "required_approvals",
    "required_capabilities", "schema"]

  function StepItems(s: PlanStep): (js: seq<Json>)
    ensures |js| == 10
  {
    [J.Str(s.capability), List(ConstraintDocument, s.constraints), List(TextDocument, s.dependencies),
     Literal(ExpectedText(s.expected)), Literal(FailureText(s.failure)), s.parameters,
     List(PreconditionDocument, s.preconditions), List(ApprovalDocument, s.approvals),
     List(ContextDocument, s.context), J.Str(s.step)]
  }

  function StepDocument(s: PlanStep): Json
  {
    Record(STEP_FIELDS, StepItems(s))
  }

  function DecisionTypeText(k: DecisionType): string
  {
    match k
    case Propose => "propose"
    case RequestInformation => "request_information"
    case RequestApproval => "request_approval"
    case Deferred => "defer"
    case Rejected => "reject"
  }

  function ReasonText(r: Reason): string
  {
    match r
    case Ready => "ready_for_safety_review"
    case MissingContext => "missing_required_context"
    case ConflictedContext => "conflicted_required_context"
    case ApprovalRequired => "approval_required"
    case CapabilityUnavailable => "capability_unavailable"
    case UnknownCapability => "unknown_capability"
  }

  function ReasonDocument(r: Reason): Json
  {
    Literal(ReasonText(r))
  }

  function PlanDocument(plan: Option<seq<PlanStep>>): Json
  {
    match plan
    case None => J.Null
    case Some(steps) => List(StepDocument, steps)
  }

  function DecisionItems(
      a: Arguments, missing: seq<ContextRequirement>, conflicted: seq<ContextRequirement>, context: Fingerprint)
    : (js: seq<Json>)
    ensures |js| == 16
  {
    [List(AssumptionDocument, a.assumptions), J.Str(FingerprintText(a.contractPrint)),
     List(ContextDocument, conflicted), List(ConstraintDocument, a.constraints), Literal(DecisionTypeText(a.kind)),
     J.Str(a.explanation), List(ContextDocument, missing), J.Str(a.owner), PlanDocument(a.plan),
     List(ReasonDocument, a.reasons), J.Str(FingerprintText(context)), J.Str(FingerprintText(a.requestPrint)),
     J.Str(a.requestId), List(ApprovalDocument, a.approvals), List(TextDocument, a.capabilities),
     Literal("ayyo.executive.decision.v1")]
  }

  function DecisionDocument(
      a: Arguments, missing: seq<ContextRequirement>, conflicted: seq<ContextRequirement>, context: Fingerprint): Json
  {
    Record(DECISION_FIELDS, DecisionItems(a, missing, conflicted, context))
  }

  lemma DecisionNames()
    ensures DistinctNames(DECISION_FIELDS)
  {
  }

  lemma StepNames()
    ensures DistinctNames(STEP_FIELDS)
  {
  }

  /** The parameters in a step are those of an invocation and of stored constraints. */
  predicate StepStored(s: PlanStep)
  {
    Stored(s.parameters) && All(s.constraints, ConstraintOk)
  }

  predicate ArgumentsStored(a: Arguments)
  {
    All(a.constraints, ConstraintOk) && (a.plan.Some? ==> All(a.plan.value, StepStored))
  }

  lemma StepItemsWellFormed(s: PlanStep, js: seq<Json>)
    requires StepStored(s) && js == StepItems(s)
    ensures forall i :: 0 <= i < |js| ==> J.WellFormed(js[i])
  {
    ConstraintsWellFormed(s.constraints);
    TextsWellFormed(s.dependencies);
    PreconditionsWellFormed(s.preconditions);
    ApprovalsWellFormed(s.approvals);
    ContextsWellFormed(s.context);
  }

  lemma StepWellFormed(s: PlanStep)
    requires StepStored(s)
    ensures J.WellFormed(StepDocument(s))
  {
    StepNames();
    StepItemsWellFormed(s, StepItems(s));
    RecordWellFormed(STEP_FIELDS, StepItems(s));
  }

  lemma PlanWellFormed(steps: seq<PlanStep>)
    requires All(steps, StepStored)
    ensures J.WellFormed(List(StepDocument, steps))
  {
    forall i | 0 <= i < |steps| ensures J.WellFormed(StepDocument(steps[i])) {
      StepWellFormed(steps[i]);
    }
  }

  lemma ReasonsWellFormed(reasons: seq<Reason>)
    ensures J.WellFormed(List(ReasonDocument, reasons))
  {
    ListWellFormed(ReasonDocument, Anything<Reason>, reasons);
  }

  lemma DecisionItemsWellFormed(
      a: Arguments, missing: seq<ContextRequirement>, conflicted: seq<ContextRequirement>, context: Fingerprint,
      js: seq<Json>)
    requires ArgumentsStored(a) && js == DecisionItems(a, missing, conflicted, context)
    ensures forall i :: 0 <= i < |js| ==> J.WellFormed(js[i])
  {
    AssumptionsWellFormed(a.assumptions);
    ContextsWellFormed(conflicted);
    ContextsWellFormed(missing);
    ConstraintsWellFormed(a.constraints);
    ReasonsWellFormed(a.reasons);
    ApprovalsWellFormed(a.approvals);
    TextsWellFormed(a.capabilities);
    if a.plan.Some? {
      PlanWellFormed(a.plan.value);
    }
  }

  lemma DecisionDocumentWellFormed(
      a: Arguments, missing: seq<ContextRequirement>, conflicted: seq<ContextRequirement>, context: Fingerprint)
    requires ArgumentsStored(a)
    ensures J.WellFormed(DecisionDocument(a, missing, conflicted, context))
  {
    DecisionNames();
    DecisionItemsWellFormed(a, missing, conflicted, context, DecisionItems(a, missing, conflicted, context));
    RecordWellFormed(DECISION_FIELDS, DecisionItems(a, missing, conflicted, context));
  }

  /* ---------- The constructor ---------- */

  datatype Refusal =
    | BadReasons
    | WrongPrint
    | TooManyReferences
    | RepeatedRequirement
    | BadTuple
    | BadCapabilities
    | WrongShape
    | PlanMismatch
    | ContextTooLarge
    | DecisionTooLarge

  datatype Construction = Constructed(decision: Decision) | Refused(why: Refusal)

  /** The arguments with every tuple sorted. */
  function Sorted(a: Arguments): Arguments
  {
    a.(references := Sort(a.references, ReferenceKey),
    assumptions := Sort(a.assumptions, AssumptionKey),
    approvals := Sort(a.approvals, ApprovalKey),
    constraints := Sort(a.constraints, ConstraintKey),
    capabilities := Sort(a.capabilities, Identity))
  }

  /** The checks on the lists of the arguments. */
  function CheckLists(a: Arguments): Option<Refusal>
  {
    if a.reasons == [] || !Strict(a.reasons, ReasonRank) then Some(BadReasons)
    else if !a.requestPrint.kind.RequestPrint? || !a.contractPrint.kind.ContractPrint? then Some(WrongPrint)
    else if |a.references| > MAX_CONTEXT_REQUIREMENTS then Some(TooManyReferences)
    else if !Distinct(Map(RequirementOf, Sort(a.references, ReferenceKey))) then Some(RepeatedRequirement)
    else if |a.assumptions| > MAX_REQUEST_ITEMS || !DistinctKeys(Sort(a.assumptions, AssumptionKey), AssumptionKey) then
      Some(BadTuple)
    else if |a.approvals| > MAX_REQUEST_ITEMS || !DistinctKeys(Sort(a.approvals, ApprovalKey), ApprovalKey) then
      Some(BadTuple)
    else if |a.constraints| > MAX_REQUEST_ITEMS || !DistinctKeys(Sort(a.constraints, ConstraintKey), ConstraintKey) then
      Some(BadTuple)
    else if |a.capabilities| > MAX_PLAN_STEPS || !Distinct(a.capabilities) || a.capabilities == [] then
      Some(BadCapabilities)
    else None
  }

  /** The checks that relate the parts of sorted arguments. */
  function CheckParts(a: Arguments): Option<Refusal>
  {
    if !ShapeOk(
        a.kind, SetOf(a.reasons), InState(a.references, Unknown) != [], InState(a.references, Conflicted) != [],
        a.approvals != [], a.plan.Some?)
    then Some(WrongShape)
    else if a.plan.Some? && !PlanCovers(a.plan.value, a.capabilities, a.references, a.approvals) then
      Some(PlanMismatch)
    else None
  }

  /** The last step: the fingerprints. */
  function Seal(a: Arguments, engine: Engine): Construction
  {
    match FingerprintOf(ContextPrint, RelevantDocument(a.references), engine)
    case None => Refused(ContextTooLarge)
    case Some(context) =>
      var missing, conflicted := InState(a.references, Unknown), InState(a.references, Conflicted);
      match FingerprintOf(DecisionPrint, DecisionDocument(a, missing, conflicted, context), engine)
      case None => Refused(DecisionTooLarge)
      case Some(own) => Constructed(Decision(a, missing, conflicted, context, own))
  }

  /** `ExecutiveDecision.__init__` */
  function Construct(a: Arguments, engine: Engine): Construction
  {
    match CheckLists(a)
    case Some(why) => Refused(why)
    case None =>
      match CheckParts(Sorted(a))
      case Some(why) => Refused(why)
      case None => Seal(Sorted(a), engine)
  }
}
