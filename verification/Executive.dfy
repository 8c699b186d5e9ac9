/**
 The immutable records of Executive Cognition and the JSON documents they are fingerprinted by.

 A record keeps its JSON parameters in canonical member order: that order is what the source
 compares records by.  The documents are injective, so equal documents mean equal records.
 */
module Executive {
  import opened Ordering
  import J = JsonTree

  type Json = J.Json

  const MAX_PLAN_STEPS: nat := 64
  const MAX_CONTEXT_REQUIREMENTS: nat := 128
  const MAX_REQUEST_ITEMS: nat := 128

  /* ---------- Records ---------- */

  /** A domain of personal context and the predicate asked for in it. */
  datatype ContextRequirement = ContextRequirement(domain: Text, topic: Text)

  datatype Approval = Approval(id: Text, description: Text)

  datatype Assumption = Assumption(id: Text, description: Text)

  datatype Precondition = Precondition(id: Text, description: Text)

  datatype Constraint = Constraint(id: Text, description: Text, parameters: Json)

  datatype Invocation = Invocation(step: Text, capability: Text, dependencies: seq<Text>, parameters: Json)

  datatype ParameterType = StringType | IntegerType | NumberType | BooleanType | ObjectType | ArrayType | JsonType

  datatype Parameter = Parameter(name: Text, kind: ParameterType, required: bool)

  datatype ExpectedResult = Information | StateChange | Communication | PhysicalEffect

  datatype FailurePolicy = StopPlan | DeferDependents

  datatype Definition = Definition(
    capability: Text,
    description: Text,
    available: bool,
    parameters: seq<Parameter>,
    context: seq<ContextRequirement>,
    approvals: seq<Approval>,
    assumptions: seq<Assumption>,
    preconditions: seq<Precondition>,
    constraints: seq<Constraint>,
    expected: ExpectedResult,
    failure: FailurePolicy)

  datatype RequestType = Task | InformationRequest

  datatype MissingContextPolicy = AskForInformation | Defer

  datatype Request = Request(
    id: Text,
    objective: Text,
    kind: RequestType,
    invocations: seq<Invocation>,
    required: seq<ContextRequirement>,
    optional: seq<ContextRequirement>,
    constraints: seq<Constraint>,
    approvals: seq<Approval>,
    assumptions: seq<Assumption>,
    policy: MissingContextPolicy,
    metadata: Json)

  /* ---------- Sort keys ---------- */

  function ContextKey(c: ContextRequirement): Key
  {
    PairKey(c.domain, c.topic)
  }

  function ApprovalKey(a: Approval): Key
  {
    a.id
  }

  function AssumptionKey(a: Assumption): Key
  {
    a.id
  }

  function PreconditionKey(p: Precondition): Key
  {
    p.id
  }

  function ConstraintKey(c: Constraint): Key
  {
    c.id
  }

  function ParameterKey(p: Parameter): Key
  {
    p.name
  }

  function StepKey(i: Invocation): Key
  {
    i.step
  }

  lemma ContextKeyInjective(a: ContextRequirement, b: ContextRequirement)
    requires ContextKey(a) == ContextKey(b)
    ensures a == b
  {
    PairKeyInjective(a.domain, a.topic, b.domain, b.topic);
  }

  /* ---------- What every constructed record satisfies ---------- */

  /** A JSON object in canonical order: what a record stores after copying and canonicalising. */
  predicate Stored(j: Json)
  {
    j.Obj? && J.WellFormed(j) && J.InOrder(j)
  }

  /** Dependencies are unique and sorted, and do not name the step itself. */
  predicate InvocationOk(i: Invocation)
  {
    Stored(i.parameters) && Strict(i.dependencies, Identity) && i.step !in i.dependencies
  }

  /** Sorted by key, every key once, and not too many. */
  predicate Tuple<T>(xs: seq<T>, key: T -> Key)
  {
    Strict(xs, key) && |xs| <= MAX_REQUEST_ITEMS
  }

  predicate ConstraintsStored(cs: seq<Constraint>)
  {
    forall i :: 0 <= i < |cs| ==> Stored(cs[i].parameters)
  }

  predicate DefinitionOk(d: Definition)
  {
    Tuple(d.parameters, ParameterKey) && Tuple(d.context, ContextKey) && Tuple(d.approvals, ApprovalKey) &&
    Tuple(d.assumptions, AssumptionKey) && Tuple(d.preconditions, PreconditionKey) &&
    Tuple(d.constraints, ConstraintKey) && ConstraintsStored(d.constraints)
  }

  /* ---------- Documents ---------- */

  function Words(names: seq<string>): (r: seq<Text>)
    ensures |r| == |names| && forall i :: 0 <= i < |names| ==> r[i] == Word(names[i])
  {
    if names == [] then [] else [Word(names[0])] + Words(names[1..])
  }

  ghost predicate DistinctNames(names: seq<string>)
  {
    forall i, j :: 0 <= i < j < |names| ==> names[i] != names[j]
  }

  lemma {:induction false} WordsDistinct(names: seq<string>)
    requires DistinctNames(names)
    ensures Distinct(Words(names))
  {
    forall i, j | 0 <= i < j < |names| ensures Words(names)[i] != Words(names)[j] {
      if Word(names[i]) == Word(names[j]) {
        WordInjective(names[i], names[j]);
      }
    }
  }

  /** A document with the given members. */
  function Record(names: seq<string>, items: seq<Json>): Json
  {
    J.Obj(Words(names), items)
  }

  function Literal(s: string): Json
  {
    J.Str(Word(s))
  }

  /** Equal documents with the same members have equal members. */
  lemma RecordSame(names: seq<string>, xs: seq<Json>, ys: seq<Json>)
    requires DistinctNames(names) && |xs| == |names| && |ys| == |names|
    requires J.Same(Record(names, xs), Record(names, ys))
    ensures forall i :: 0 <= i < |names| ==> J.Same(xs[i], ys[i])
  {
    var keys := Words(names);
    forall i | 0 <= i < |names| ensures J.Same(xs[i], ys[i]) {
      assert keys[i] == keys[i];
    }
  }

  lemma RecordWellFormed(names: seq<string>, xs: seq<Json>)
    requires DistinctNames(names) && |xs| == |names| && forall i :: 0 <= i < |xs| ==> J.WellFormed(xs[i])
    ensures J.WellFormed(Record(names, xs))
  {
    WordsDistinct(names);
  }

  /** The document f gives for an element determines the element, among those that satisfy p. */
  ghost predicate Determines<T(!new)>(f: T -> Json, p: T -> bool)
  {
    forall x, y :: p(x) && p(y) && J.Same(f(x), f(y)) ==> x == y
  }

  ghost predicate Yields<T(!new)>(f: T -> Json, p: T -> bool)
  {
    forall x :: p(x) ==> J.WellFormed(f(x))
  }

  predicate All<T>(xs: seq<T>, p: T -> bool)
  {
    forall i :: 0 <= i < |xs| ==> p(xs[i])
  }

  predicate Anything<T>(x: T)
  {
    true
  }

  function List<T>(f: T -> Json, xs: seq<T>): Json
  {
    J.Arr(seq(|xs|, i requires 0 <= i < |xs| => f(xs[i])))
  }

  lemma ListSame<T(!new)>(f: T -> Json, p: T -> bool, xs: seq<T>, ys: seq<T>)
    requires Determines(f, p) && All(xs, p) && All(ys, p) && J.Same(List(f, xs), List(f, ys))
    ensures xs == ys
  {
    assert |xs| == |ys|;
    forall i | 0 <= i < |xs| ensures xs[i] == ys[i] {
      assert J.Same(List(f, xs).items[i], List(f, ys).items[i]);
    }
  }

  lemma ListWellFormed<T(!new)>(f: T -> Json, p: T -> bool, xs: seq<T>)
    requires Yields(f, p) && All(xs, p)
    ensures J.WellFormed(List(f, xs))
  {
  }

  function TextDocument(t: Text): Json
  {
    J.Str(t)
  }

  const CONTEXT_FIELDS := ["domain", "predicate"]
  const APPROVAL_FIELDS := ["approval_id", "description"]
  const ASSUMPTION_FIELDS := ["assumption_id", "description"]
  const PRECONDITION_FIELDS := ["description", "precondition_id"]
  const CONSTRAINT_FIELDS := ["constraint_id", "description", "parameters"]
  const PARAMETER_FIELDS := ["name", "required", "value_type"]
  const INVOCATION_FIELDS := ["capability_id", "dependencies", "parameters", "step_id"]

  function ContextDocument(c: ContextRequirement): Json
  {
    Record(CONTEXT_FIELDS, [J.Str(c.domain), J.Str(c.topic)])
  }

  function ApprovalDocument(a: Approval): Json
  {
    Record(APPROVAL_FIELDS, [J.Str(a.id), J.Str(a.description)])
  }

  function AssumptionDocument(a: Assumption): Json
  {
    Record(ASSUMPTION_FIELDS, [J.Str(a.id), J.Str(a.description)])
  }

  function PreconditionDocument(p: Precondition): Json
  {
    Record(PRECONDITION_FIELDS, [J.Str(p.description), J.Str(p.id)])
  }

  function ConstraintDocument(c: Constraint): Json
  {
    Record(CONSTRAINT_FIELDS, [J.Str(c.id), J.Str(c.description), c.parameters])
  }

  function TypeText(t: ParameterType): string
  {
    match t
    case StringType => "string"
    case IntegerType => "integer"
    case NumberType => "number"
    case BooleanType => "boolean"
    case ObjectType => "object"
    case ArrayType => "array"
    case JsonType => "json"
  }

  function ParameterDocument(p: Parameter): Json
  {
    Record(PARAMETER_FIELDS, [J.Str(p.name), J.Bool(p.required), Literal(TypeText(p.kind))])
  }

  function InvocationItems(i: Invocation): (js: seq<Json>)
    ensures |js| == 4
  {
    [J.Str(i.capability), List(TextDocument, i.dependencies), i.parameters, J.Str(i.step)]
  }

  function InvocationDocument(i: Invocation): Json
  {
    Record(INVOCATION_FIELDS, InvocationItems(i))
  }

  const REQUEST_FIELDS := [
    "assumptions", "constraints", "invocations", "metadata", "missing_context_policy", "objective",
    "optional_context", "request_id", "request_type", "required_approvals", "required_context", "schema"]

  function PolicyText(p: MissingContextPolicy): string
  {
    if p.Defer? then "defer" else "request_information"
  }

  function RequestTypeText(k: RequestType): string
  {
    if k.Task? then "task" else "information"
  }

  function RequestItems(r: Request): (js: seq<Json>)
    ensures |js| == 12
  {
    [List(AssumptionDocument, r.assumptions), List(ConstraintDocument, r.constraints),
     List(InvocationDocument, r.invocations), r.metadata, Literal(PolicyText(r.policy)), J.Str(r.objective),
     List(ContextDocument, r.optional), J.Str(r.id), Literal(RequestTypeText(r.kind)),
     List(ApprovalDocument, r.approvals), List(ContextDocument, r.required),
     Literal("ayyo.executive.request.v1")]
  }

  function RequestDocument(r: Request): Json
  {
    Record(REQUEST_FIELDS, RequestItems(r))
  }

  const DEFINITION_FIELDS := [
    "assumptions", "availability", "capability_id", "constraints", "description", "expected_result",
    "failure_policy", "parameters", "preconditions", "required_approvals", "required_context"]
  const UNKNOWN_FIELDS := ["capability_id", "availability"]
  const REGISTRY_FIELDS := ["capabilities", "schema"]

  function AvailabilityText(available: bool): string
  {
    if available then "available_for_proposal" else "unavailable"
  }

  function ExpectedText(e: ExpectedResult): string
  {
    match e
    case Information => "information"
    case StateChange => "proposed_state_change"
    case Communication => "proposed_communication"
    case PhysicalEffect => "proposed_physical_effect"
  }

  function FailureText(f: FailurePolicy): string
  {
    if f.StopPlan? then "stop_plan" else "defer_dependents"
  }

  function DefinitionItems(d: Definition): (js: seq<Json>)
    ensures |js| == 11
  {
    [List(AssumptionDocument, d.assumptions), Literal(AvailabilityText(d.available)), J.Str(d.capability),
     List(ConstraintDocument, d.constraints), J.Str(d.description), Literal(ExpectedText(d.expected)),
     Literal(FailureText(d.failure)), List(ParameterDocument, d.parameters),
     List(PreconditionDocument, d.preconditions), List(ApprovalDocument, d.approvals),
     List(ContextDocument, d.context)]
  }

  function DefinitionDocument(d: Definition): Json
  {
    Record(DEFINITION_FIELDS, DefinitionItems(d))
  }

  /* ---------- Documents determine records ---------- */

  lemma SmallNames()
    ensures DistinctNames(CONTEXT_FIELDS) && DistinctNames(APPROVAL_FIELDS) && DistinctNames(ASSUMPTION_FIELDS)
    ensures DistinctNames(PRECONDITION_FIELDS) && DistinctNames(CONSTRAINT_FIELDS)
    ensures DistinctNames(PARAMETER_FIELDS) && DistinctNames(INVOCATION_FIELDS)
    ensures DistinctNames(UNKNOWN_FIELDS) && DistinctNames(REGISTRY_FIELDS)
  {
  }

  lemma RequestNames()
    ensures DistinctNames(REQUEST_FIELDS)
  {
  }

  lemma DefinitionNames()
    ensures DistinctNames(DEFINITION_FIELDS)
  {
  }

  lemma TextDetermines()
    ensures Determines(TextDocument, Anything<Text>) && Yields(TextDocument, Anything<Text>)
  {
  }

  lemma ContextDetermines()
    ensures Determines(ContextDocument, Anything<ContextRequirement>)
    ensures Yields(ContextDocument, Anything<ContextRequirement>)
  {
    SmallNames();
    forall x: ContextRequirement, y: ContextRequirement | J.Same(ContextDocument(x), ContextDocument(y)) ensures x == y {
      RecordSame(CONTEXT_FIELDS, [J.Str(x.domain), J.Str(x.topic)], [J.Str(y.domain), J.Str(y.topic)]);
      assert J.Same(J.Str(x.domain), J.Str(y.domain)) && J.Same(J.Str(x.topic), J.Str(y.topic));
    }
    forall x: ContextRequirement ensures J.WellFormed(ContextDocument(x)) {
      RecordWellFormed(CONTEXT_FIELDS, [J.Str(x.domain), J.Str(x.topic)]);
    }
  }

  lemma TwoTexts(names: seq<string>, a: Text, b: Text, c: Text, d: Text)
    requires DistinctNames(names) && |names| == 2
    requires J.Same(Record(names, [J.Str(a), J.Str(b)]), Record(names, [J.Str(c), J.Str(d)]))
    ensures a == c && b == d
  {
    var xs, ys := [J.Str(a), J.Str(b)], [J.Str(c), J.Str(d)];
    RecordSame(names, xs, ys);
    assert J.Same(xs[0], ys[0]) && J.Same(xs[1], ys[1]);
  }

  lemma ApprovalDetermines()
    ensures Determines(ApprovalDocument, Anything<Approval>) && Yields(ApprovalDocument, Anything<Approval>)
  {
    SmallNames();
    forall x: Approval, y: Approval | J.Same(ApprovalDocument(x), ApprovalDocument(y)) ensures x == y {
      TwoTexts(APPROVAL_FIELDS, x.id, x.description, y.id, y.description);
    }
    forall x: Approval ensures J.WellFormed(ApprovalDocument(x)) {
      RecordWellFormed(APPROVAL_FIELDS, [J.Str(x.id), J.Str(x.description)]);
    }
  }

  lemma AssumptionDetermines()
    ensures Determines(AssumptionDocument, Anything<Assumption>) && Yields(AssumptionDocument, Anything<Assumption>)
  {
    SmallNames();
    forall x: Assumption, y: Assumption | J.Same(AssumptionDocument(x), AssumptionDocument(y)) ensures x == y {
      TwoTexts(ASSUMPTION_FIELDS, x.id, x.description, y.id, y.description);
    }
    forall x: Assumption ensures J.WellFormed(AssumptionDocument(x)) {
      RecordWellFormed(ASSUMPTION_FIELDS, [J.Str(x.id), J.Str(x.description)]);
    }
  }

  lemma PreconditionDetermines()
    ensures Determines(PreconditionDocument, Anything<Precondition>)
    ensures Yields(PreconditionDocument, Anything<Precondition>)
  {
    SmallNames();
    forall x: Precondition, y: Precondition | J.Same(PreconditionDocument(x), PreconditionDocument(y)) ensures x == y {
      TwoTexts(PRECONDITION_FIELDS, x.description, x.id, y.description, y.id);
    }
    forall x: Precondition ensures J.WellFormed(PreconditionDocument(x)) {
      RecordWellFormed(PRECONDITION_FIELDS, [J.Str(x.description), J.Str(x.id)]);
    }
  }

  lemma {:induction false} StoredSame(a: Json, b: Json)
    requires Stored(a) && Stored(b) && J.Same(a, b)
    ensures a == b
  {
    J.NormalIffSame(a, b);
    J.InOrderNormal(a);
    J.InOrderNormal(b);
  }

  predicate ConstraintOk(c: Constraint)
  {
    Stored(c.parameters)
  }

  lemma ConstraintDetermines()
    ensures Determines(ConstraintDocument, ConstraintOk) && Yields(ConstraintDocument, ConstraintOk)
  {
    SmallNames();
    forall x: Constraint, y: Constraint
      | ConstraintOk(x) && ConstraintOk(y) && J.Same(ConstraintDocument(x), ConstraintDocument(y))
      ensures x == y
    {
      var xs := [J.Str(x.id), J.Str(x.description), x.parameters];
      var ys := [J.Str(y.id), J.Str(y.description), y.parameters];
      RecordSame(CONSTRAINT_FIELDS, xs, ys);
      assert J.Same(xs[0], ys[0]) && J.Same(xs[1], ys[1]) && J.Same(xs[2], ys[2]);
      StoredSame(x.parameters, y.parameters);
    }
    forall x: Constraint | ConstraintOk(x) ensures J.WellFormed(ConstraintDocument(x)) {
      RecordWellFormed(CONSTRAINT_FIELDS, [J.Str(x.id), J.Str(x.description), x.parameters]);
    }
  }

  lemma LiteralSame(a: string, b: string)
    requires J.Same(Literal(a), Literal(b))
    ensures a == b
  {
    WordInjective(a, b);
  }

  lemma TypeTextInjective(a: ParameterType, b: ParameterType)
    requires TypeText(a) == TypeText(b)
    ensures a == b
  {
  }

  lemma ParameterDetermines()
    ensures Determines(ParameterDocument, Anything<Parameter>) && Yields(ParameterDocument, Anything<Parameter>)
  {
    SmallNames();
    forall x: Parameter, y: Parameter | J.Same(ParameterDocument(x), ParameterDocument(y)) ensures x == y {
      var xs := [J.Str(x.name), J.Bool(x.required), Literal(TypeText(x.kind))];
      var ys := [J.Str(y.name), J.Bool(y.required), Literal(TypeText(y.kind))];
      RecordSame(PARAMETER_FIELDS, xs, ys);
      assert J.Same(xs[0], ys[0]) && J.Same(xs[1], ys[1]) && J.Same(xs[2], ys[2]);
      LiteralSame(TypeText(x.kind), TypeText(y.kind));
      TypeTextInjective(x.kind, y.kind);
    }
    forall x: Parameter ensures J.WellFormed(ParameterDocument(x)) {
      RecordWellFormed(PARAMETER_FIELDS, [J.Str(x.name), J.Bool(x.required), Literal(TypeText(x.kind))]);
    }
  }

  lemma TextsSame(xs: seq<Text>, ys: seq<Text>)
    requires J.Same(List(TextDocument, xs), List(TextDocument, ys))
    ensures xs == ys
  {
    TextDetermines();
    ListSame(TextDocument, Anything<Text>, xs, ys);
  }

  lemma TextsWellFormed(xs: seq<Text>)
    ensures J.WellFormed(List(TextDocument, xs))
  {
    TextDetermines();
    ListWellFormed(TextDocument, Anything<Text>, xs);
  }

  lemma InvocationDetermined(x: Invocation, y: Invocation)
    requires InvocationOk(x) && InvocationOk(y) && J.Same(InvocationDocument(x), InvocationDocument(y))
    ensures x == y
  {
    SmallNames();
    var xs, ys := InvocationItems(x), InvocationItems(y);
    RecordSame(INVOCATION_FIELDS, xs, ys);
    assert J.Same(xs[0], ys[0]) && J.Same(xs[1], ys[1]) && J.Same(xs[2], ys[2]) && J.Same(xs[3], ys[3]);
    TextsSame(x.dependencies, y.dependencies);
    StoredSame(x.parameters, y.parameters);
  }

  lemma InvocationWellFormed(x: Invocation)
    requires InvocationOk(x)
    ensures J.WellFormed(InvocationDocument(x))
  {
    SmallNames();
    TextsWellFormed(x.dependencies);
    RecordWellFormed(INVOCATION_FIELDS, InvocationItems(x));
  }

  lemma InvocationDetermines()
    ensures Determines(InvocationDocument, InvocationOk) && Yields(InvocationDocument, InvocationOk)
  {
    forall x: Invocation, y: Invocation
      | InvocationOk(x) && InvocationOk(y) && J.Same(InvocationDocument(x), InvocationDocument(y))
      ensures x == y
    {
      InvocationDetermined(x, y);
    }
    forall x: Invocation | InvocationOk(x) ensures J.WellFormed(InvocationDocument(x)) {
      InvocationWellFormed(x);
    }
  }

  lemma ContextsSame(xs: seq<ContextRequirement>, ys: seq<ContextRequirement>)
    requires J.Same(List(ContextDocument, xs), List(ContextDocument, ys))
    ensures xs == ys
  {
    ContextDetermines();
    ListSame(ContextDocument, Anything<ContextRequirement>, xs, ys);
  }

  lemma ContextsWellFormed(xs: seq<ContextRequirement>)
    ensures J.WellFormed(List(ContextDocument, xs))
  {
    ContextDetermines();
    ListWellFormed(ContextDocument, Anything<ContextRequirement>, xs);
  }

  lemma ApprovalsSame(xs: seq<Approval>, ys: seq<Approval>)
    requires J.Same(List(ApprovalDocument, xs), List(ApprovalDocument, ys))
    ensures xs == ys
  {
    ApprovalDetermines();
    ListSame(ApprovalDocument, Anything<Approval>, xs, ys);
  }

  lemma ApprovalsWellFormed(xs: seq<Approval>)
    ensures J.WellFormed(List(ApprovalDocument, xs))
  {
    ApprovalDetermines();
    ListWellFormed(ApprovalDocument, Anything<Approval>, xs);
  }

  lemma AssumptionsSame(xs: seq<Assumption>, ys: seq<Assumption>)
    requires J.Same(List(AssumptionDocument, xs), List(AssumptionDocument, ys))
    ensures xs == ys
  {
    AssumptionDetermines();
    ListSame(AssumptionDocument, Anything<Assumption>, xs, ys);
  }

  lemma AssumptionsWellFormed(xs: seq<Assumption>)
    ensures J.WellFormed(List(AssumptionDocument, xs))
  {
    AssumptionDetermines();
    ListWellFormed(AssumptionDocument, Anything<Assumption>, xs);
  }

  lemma PreconditionsSame(xs: seq<Precondition>, ys: seq<Precondition>)
    requires J.Same(List(PreconditionDocument, xs), List(PreconditionDocument, ys))
    ensures xs == ys
  {
    PreconditionDetermines();
    ListSame(PreconditionDocument, Anything<Precondition>, xs, ys);
  }

  lemma PreconditionsWellFormed(xs: seq<Precondition>)
    ensures J.WellFormed(List(PreconditionDocument, xs))
  {
    PreconditionDetermines();
    ListWellFormed(PreconditionDocument, Anything<Precondition>, xs);
  }

  lemma ConstraintsSame(xs: seq<Constraint>, ys: seq<Constraint>)
    requires All(xs, ConstraintOk) && All(ys, ConstraintOk)
    requires J.Same(List(ConstraintDocument, xs), List(ConstraintDocument, ys))
    ensures xs == ys
  {
    ConstraintDetermines();
    ListSame(ConstraintDocument, ConstraintOk, xs, ys);
  }

  lemma ConstraintsWellFormed(xs: seq<Constraint>)
    requires All(xs, ConstraintOk)
    ensures J.WellFormed(List(ConstraintDocument, xs))
  {
    ConstraintDetermines();
    ListWellFormed(ConstraintDocument, ConstraintOk, xs);
  }

  lemma ParametersSame(xs: seq<Parameter>, ys: seq<Parameter>)
    requires J.Same(List(ParameterDocument, xs), List(ParameterDocument, ys))
    ensures xs == ys
  {
    ParameterDetermines();
    ListSame(ParameterDocument, Anything<Parameter>, xs, ys);
  }

  lemma ParametersWellFormed(xs: seq<Parameter>)
    ensures J.WellFormed(List(ParameterDocument, xs))
  {
    ParameterDetermines();
    ListWellFormed(ParameterDocument, Anything<Parameter>, xs);
  }

  lemma InvocationsSame(xs: seq<Invocation>, ys: seq<Invocation>)
    requires All(xs, InvocationOk) && All(ys, InvocationOk)
    requires J.Same(List(InvocationDocument, xs), List(InvocationDocument, ys))
    ensures xs == ys
  {
    InvocationDetermines();
    ListSame(InvocationDocument, InvocationOk, xs, ys);
  }

  lemma InvocationsWellFormed(xs: seq<Invocation>)
    requires All(xs, InvocationOk)
    ensures J.WellFormed(List(InvocationDocument, xs))
  {
    InvocationDetermines();
    ListWellFormed(InvocationDocument, InvocationOk, xs);
  }

  /** What the documents need to know about a request. */
  predicate RequestStored(r: Request)
  {
    All(r.invocations, InvocationOk) && All(r.constraints, ConstraintOk) && Stored(r.metadata)
  }

  lemma RequestDocumentWellFormed(r: Request)
    requires RequestStored(r)
    ensures J.WellFormed(RequestDocument(r))
  {
    RequestNames();
    RequestItemsWellFormed(r, RequestItems(r));
    RecordWellFormed(REQUEST_FIELDS, RequestItems(r));
  }

  lemma RequestItemsWellFormed(r: Request, js: seq<Json>)
    requires RequestStored(r) && js == RequestItems(r)
    ensures forall i :: 0 <= i < |js| ==> J.WellFormed(js[i])
  {
    AssumptionsWellFormed(r.assumptions);
    ConstraintsWellFormed(r.constraints);
    InvocationsWellFormed(r.invocations);
    ContextsWellFormed(r.optional);
    ContextsWellFormed(r.required);
    ApprovalsWellFormed(r.approvals);
  }

  /** Requests with the same document are the same request. */
  lemma RequestDocumentInjective(a: Request, b: Request)
    requires RequestStored(a) && RequestStored(b) && J.Same(RequestDocument(a), RequestDocument(b))
    ensures a == b
  {
    RequestNames();
    RecordSame(REQUEST_FIELDS, RequestItems(a), RequestItems(b));
    RequestLists(a, b, RequestItems(a), RequestItems(b));
    RequestScalars(a, b, RequestItems(a), RequestItems(b));
  }

  lemma RequestScalars(a: Request, b: Request, xs: seq<Json>, ys: seq<Json>)
    requires RequestStored(a) && RequestStored(b) && xs == RequestItems(a) && ys == RequestItems(b)
    requires forall i :: 0 <= i < 12 ==> J.Same(xs[i], ys[i])
    ensures a.metadata == b.metadata && a.policy == b.policy && a.objective == b.objective && a.id == b.id
    ensures a.kind == b.kind
  {
    assert J.Same(xs[3], ys[3]) && J.Same(xs[4], ys[4]) && J.Same(xs[5], ys[5]) && J.Same(xs[7], ys[7]);
    assert J.Same(xs[8], ys[8]);
    StoredSame(a.metadata, b.metadata);
    LiteralSame(PolicyText(a.policy), PolicyText(b.policy));
    LiteralSame(RequestTypeText(a.kind), RequestTypeText(b.kind));
  }

  lemma RequestLists(a: Request, b: Request, xs: seq<Json>, ys: seq<Json>)
    requires RequestStored(a) && RequestStored(b) && xs == RequestItems(a) && ys == RequestItems(b)
    requires forall i :: 0 <= i < 12 ==> J.Same(xs[i], ys[i])
    ensures a.assumptions == b.assumptions && a.constraints == b.constraints && a.invocations == b.invocations
    ensures a.optional == b.optional && a.approvals == b.approvals && a.required == b.required
  {
    assert J.Same(xs[0], ys[0]) && J.Same(xs[1], ys[1]) && J.Same(xs[2], ys[2]);
    assert J.Same(xs[6], ys[6]) && J.Same(xs[9], ys[9]) && J.Same(xs[10], ys[10]);
    AssumptionsSame(a.assumptions, b.assumptions);
    ConstraintsSame(a.constraints, b.constraints);
    InvocationsSame(a.invocations, b.invocations);
    ContextsSame(a.optional, b.optional);
    ApprovalsSame(a.approvals, b.approvals);
    ContextsSame(a.required, b.required);
  }

  predicate DefinitionStored(d: Definition)
  {
    All(d.constraints, ConstraintOk)
  }

  lemma DefinitionDocumentWellFormed(d: Definition)
    requires DefinitionStored(d)
    ensures J.WellFormed(DefinitionDocument(d))
  {
    DefinitionNames();
    DefinitionItemsWellFormed(d, DefinitionItems(d));
    RecordWellFormed(DEFINITION_FIELDS, DefinitionItems(d));
  }

  lemma DefinitionItemsWellFormed(d: Definition, js: seq<Json>)
    requires DefinitionStored(d) && js == DefinitionItems(d)
    ensures forall i :: 0 <= i < |js| ==> J.WellFormed(js[i])
  {
    AssumptionsWellFormed(d.assumptions);
    ConstraintsWellFormed(d.constraints);
    ParametersWellFormed(d.parameters);
    PreconditionsWellFormed(d.preconditions);
    ApprovalsWellFormed(d.approvals);
    ContextsWellFormed(d.context);
  }

  lemma DefinitionLists(a: Definition, b: Definition, xs: seq<Json>, ys: seq<Json>)
    requires DefinitionStored(a) && DefinitionStored(b) && xs == DefinitionItems(a) && ys == DefinitionItems(b)
    requires forall i :: 0 <= i < 11 ==> J.Same(xs[i], ys[i])
    ensures a.assumptions == b.assumptions && a.constraints == b.constraints && a.parameters == b.parameters
    ensures a.preconditions == b.preconditions && a.approvals == b.approvals && a.context == b.context
  {
    assert J.Same(xs[0], ys[0]) && J.Same(xs[3], ys[3]) && J.Same(xs[7], ys[7]);
    assert J.Same(xs[8], ys[8]) && J.Same(xs[9], ys[9]) && J.Same(xs[10], ys[10]);
    AssumptionsSame(a.assumptions, b.assumptions);
    ConstraintsSame(a.constraints, b.constraints);
    ParametersSame(a.parameters, b.parameters);
    PreconditionsSame(a.preconditions, b.preconditions);
    ApprovalsSame(a.approvals, b.approvals);
    ContextsSame(a.context, b.context);
  }

  lemma ExpectedTextInjective(a: ExpectedResult, b: ExpectedResult)
    requires ExpectedText(a) == ExpectedText(b)
    ensures a == b
  {
  }

  /** Capability contracts with the same document are the same contract. */
  lemma DefinitionDocumentInjective(a: Definition, b: Definition)
    requires DefinitionStored(a) && DefinitionStored(b) && J.Same(DefinitionDocument(a), DefinitionDocument(b))
    ensures a == b
  {
    DefinitionNames();
    RecordSame(DEFINITION_FIELDS, DefinitionItems(a), DefinitionItems(b));
    DefinitionLists(a, b, DefinitionItems(a), DefinitionItems(b));
    DefinitionScalars(a, b, DefinitionItems(a), DefinitionItems(b));
  }

  lemma DefinitionScalars(a: Definition, b: Definition, xs: seq<Json>, ys: seq<Json>)
    requires DefinitionStored(a) && DefinitionStored(b) && xs == DefinitionItems(a) && ys == DefinitionItems(b)
    requires forall i :: 0 <= i < 11 ==> J.Same(xs[i], ys[i])
    ensures a.available == b.available && a.capability == b.capability && a.description == b.description
    ensures a.expected == b.expected && a.failure == b.failure
  {
    assert J.Same(xs[1], ys[1]) && J.Same(xs[2], ys[2]) && J.Same(xs[4], ys[4]);
    assert J.Same(xs[5], ys[5]) && J.Same(xs[6], ys[6]);
    LiteralSame(AvailabilityText(a.available), AvailabilityText(b.available));
    LiteralSame(ExpectedText(a.expected), ExpectedText(b.expected));
    ExpectedTextInjective(a.expected, b.expected);
    LiteralSame(FailureText(a.failure), FailureText(b.failure));
  }
}
