/**
 `ExecutiveService.evaluate`: from a request, the registered contracts and one context snapshot to
 a decision.  The service and the decision's constructor decide independently what a decision must
 look like; the constructor turns the service down only because of a size limit.
 */
module Evaluation {
  import opened Basics
  import opened Ordering
  import opened Executive
  import opened Plans
  import opened Planner
  import opened Decisions
  import J = JsonTree

  /** Which of its explanations a decision carries. */
  datatype Branch =
    | AbsentCapability
    | UnavailableCapability
    | ConflictingContext
    | DeferredContext
    | AskedContext
    | AwaitingApproval
    | ReadyNow

  /** SHA-256 of values, fingerprints of documents, and the wording of the explanations. */
  datatype Environment = Environment(digest: Text -> Text, engine: Engine, explain: Branch -> Text)

  /* ---------- The contracts a request depends on ---------- */

  datatype Contract = Contract(capability: Text, definition: Option<Definition>)

  function ContractFor(registry: Registry, c: Text): Contract
  {
    Contract(c, if c in registry then Some(registry[c]) else None)
  }

  function Contracts(registry: Registry, capabilities: seq<Text>): (r: seq<Contract>)
    ensures |r| == |capabilities|
    ensures forall i :: 0 <= i < |r| ==> r[i] == ContractFor(registry, capabilities[i])
  {
    if capabilities == [] then [] else [ContractFor(registry, capabilities[0])] + Contracts(registry, capabilities[1..])
  }

  function ContractDocument(c: Contract): Json
  {
    match c.definition
    case None => Record(UNKNOWN_FIELDS, [J.Str(c.capability), Literal("unknown")])
    case Some(d) => DefinitionDocument(d)
  }

  function RegistryDocument(registry: Registry, capabilities: seq<Text>): Json
  {
    Record(REGISTRY_FIELDS,
           [List(ContractDocument, Contracts(registry, capabilities)),
            Literal("ayyo.executive.capability-contract.v1")])
  }

  predicate ContractOk(c: Contract)
  {
    c.definition.Some? ==> DefinitionStored(c.definition.value) && c.definition.value.capability == c.capability
  }

  lemma ContractDetermined(a: Contract, b: Contract)
    requires ContractOk(a) && ContractOk(b) && J.Same(ContractDocument(a), ContractDocument(b))
    ensures a == b
  {
    if a.definition.Some? && b.definition.Some? {
      DefinitionDocumentInjective(a.definition.value, b.definition.value);
    } else if a.definition.None? && b.definition.None? {
      SmallNames();
      var xs := [J.Str(a.capability), Literal("unknown")];
      var ys := [J.Str(b.capability), Literal("unknown")];
      RecordSame(UNKNOWN_FIELDS, xs, ys);
      assert J.Same(xs[0], ys[0]);
    }
  }

  lemma ContractWellFormed(c: Contract)
    requires ContractOk(c)
    ensures J.WellFormed(ContractDocument(c))
  {
    if c.definition.Some? {
      DefinitionDocumentWellFormed(c.definition.value);
    } else {
      SmallNames();
      RecordWellFormed(UNKNOWN_FIELDS, [J.Str(c.capability), Literal("unknown")]);
    }
  }

  lemma ContractDetermines()
    ensures Determines(ContractDocument, ContractOk) && Yields(ContractDocument, ContractOk)
  {
    forall a: Contract, b: Contract
      | ContractOk(a) && ContractOk(b) && J.Same(ContractDocument(a), ContractDocument(b))
      ensures a == b
    {
      ContractDetermined(a, b);
    }
    forall c: Contract | ContractOk(c) ensures J.WellFormed(ContractDocument(c)) {
      ContractWellFormed(c);
    }
  }

  lemma {:induction false} ContractsOk(registry: Registry, capabilities: seq<Text>)
    requires RegistryOk(registry)
    ensures All(Contracts(registry, capabilities), ContractOk)
  {
    forall i | 0 <= i < |capabilities| ensures ContractOk(Contracts(registry, capabilities)[i]) {
      if capabilities[i] in registry {
        assert DefinitionOk(registry[capabilities[i]]);
      }
    }
  }

  lemma ContractListSame(a: seq<Contract>, b: seq<Contract>)
    requires All(a, ContractOk) && All(b, ContractOk)
    requires J.Same(List(ContractDocument, a), List(ContractDocument, b))
    ensures a == b
  {
    ContractDetermines();
    ListSame(ContractDocument, ContractOk, a, b);
  }

  lemma RegistryDocumentWellFormed(registry: Registry, capabilities: seq<Text>)
    requires RegistryOk(registry)
    ensures J.WellFormed(RegistryDocument(registry, capabilities))
  {
    SmallNames();
    ContractsOk(registry, capabilities);
    ContractDetermines();
    ListWellFormed(ContractDocument, ContractOk, Contracts(registry, capabilities));
    RecordWellFormed(
      REGISTRY_FIELDS,
      [List(ContractDocument, Contracts(registry, capabilities)), Literal("ayyo.executive.capability-contract.v1")]);
  }

  /** The document determines the contract of every capability, and which ones are unknown. */
  lemma {:induction false} RegistryDocumentInjective(r: Registry, s: Registry, capabilities: seq<Text>)
    requires RegistryOk(r) && RegistryOk(s)
    requires J.Same(RegistryDocument(r, capabilities), RegistryDocument(s, capabilities))
    ensures Contracts(r, capabilities) == Contracts(s, capabilities)
  {
    SmallNames();
    ContractsOk(r, capabilities);
    ContractsOk(s, capabilities);
    var last := Literal("ayyo.executive.capability-contract.v1");
    var xs := [List(ContractDocument, Contracts(r, capabilities)), last];
    var ys := [List(ContractDocument, Contracts(s, capabilities)), last];
    RecordSame(REGISTRY_FIELDS, xs, ys);
    assert J.Same(xs[0], ys[0]);
    ContractListSame(Contracts(r, capabilities), Contracts(s, capabilities));
  }

  /** `fingerprint_for`, on identifiers that are unique and sorted. */
  function ContractPrintOf(registry: Registry, capabilities: seq<Text>, engine: Engine): Option<Fingerprint>
  {
    FingerprintOf(ContractPrint, RegistryDocument(registry, capabilities), engine)
  }

  /** The registered contracts among the requested ones, in order. */
  function Known(registry: Registry, capabilities: seq<Text>): seq<Definition>
  {
    if capabilities == [] then []
    else
      (if capabilities[0] in registry then [registry[capabilities[0]]] else []) + Known(registry, capabilities[1..])
  }

  predicate Unregistered(registry: Registry, capabilities: seq<Text>)
  {
    exists i :: 0 <= i < |capabilities| && capabilities[i] !in registry
  }

  predicate Unavailable(registry: Registry, capabilities: seq<Text>)
  {
    exists i :: 0 <= i < |capabilities| && capabilities[i] in registry && !registry[capabilities[i]].available
  }

  lemma {:induction false} KnownMembers(registry: Registry, capabilities: seq<Text>, d: Definition)
    requires RegistryOk(registry)
    ensures d in Known(registry, capabilities) <==>
      d.capability in capabilities && d.capability in registry && registry[d.capability] == d
  {
    if capabilities != [] {
      KnownMembers(registry, capabilities[1..], d);
      assert capabilities == [capabilities[0]] + capabilities[1..];
    }
  }

  lemma {:induction false} KnownSorted(registry: Registry, capabilities: seq<Text>)
    requires RegistryOk(registry) && Strict(capabilities, Identity)
    ensures Strict(Known(registry, capabilities), DefinitionKey)
  {
    if capabilities != [] {
      var rest := Known(registry, capabilities[1..]);
      assert Strict(capabilities[1..], Identity) by {
        assert forall i :: 0 <= i < |capabilities| - 1 ==> capabilities[1..][i] == capabilities[i + 1];
      }
      KnownSorted(registry, capabilities[1..]);
      if capabilities[0] in registry {
        forall i | 0 <= i < |rest|
          ensures Leq(capabilities[0], rest[i].capability) && capabilities[0] != rest[i].capability
        {
          KnownMembers(registry, capabilities[1..], rest[i]);
          var k :| 0 <= k < |capabilities| - 1 && capabilities[1..][k] == rest[i].capability;
          assert Identity(capabilities[0]) != Identity(capabilities[k + 1]);
        }
        StrictFront(registry[capabilities[0]], rest, DefinitionKey);
      }
    }
  }

  lemma {:induction false} KnownPush(registry: Registry, capabilities: seq<Text>, i: nat)
    requires i < |capabilities|
    ensures Known(registry, capabilities[..i + 1]) ==
      Known(registry, capabilities[..i]) + (if capabilities[i] in registry then [registry[capabilities[i]]] else [])
    decreases i
  {
    if i > 0 {
      KnownPush(registry, capabilities[1..], i - 1);
      assert capabilities[1..][..i] == capabilities[..i + 1][1..];
      assert capabilities[1..][..i - 1] == capabilities[..i][1..];
    }
  }

  /** The loop over the requested capabilities. */
  method LookUp(registry: Registry, capabilities: seq<Text>)
      returns (definitions: seq<Definition>, unknown: seq<Text>, unavailable: seq<Text>)
    ensures definitions == Known(registry, capabilities)
    ensures unknown != [] <==> Unregistered(registry, capabilities)
    ensures unavailable != [] <==> Unavailable(registry, capabilities)
  {
    definitions, unknown, unavailable := [], [], [];
    var i := 0;
    while i < |capabilities|
      invariant 0 <= i <= |capabilities|
      invariant definitions == Known(registry, capabilities[..i])
      invariant unknown != [] <==> Unregistered(registry, capabilities[..i])
      invariant unavailable != [] <==> Unavailable(registry, capabilities[..i])
    {
      var c := capabilities[i];
      KnownPush(registry, capabilities, i);
      PrefixFlags(registry, capabilities, i);
      if c !in registry {
        unknown := unknown + [c];
      } else {
        definitions := definitions + [registry[c]];
        if !registry[c].available {
          unavailable := unavailable + [c];
        }
      }
      i := i + 1;
    }
    assert capabilities[..i] == capabilities;
  }

  lemma PrefixFlags(registry: Registry, capabilities: seq<Text>, i: nat)
    requires i < |capabilities|
    ensures Unregistered(registry, capabilities[..i + 1]) <==>
      Unregistered(registry, capabilities[..i]) || capabilities[i] !in registry
    ensures Unavailable(registry, capabilities[..i + 1]) <==>
      Unavailable(registry, capabilities[..i]) ||
      (capabilities[i] in registry && !registry[capabilities[i]].available)
  {
    var a, b := capabilities[..i], capabilities[..i + 1];
    assert b == a + [capabilities[i]];
    if k :| 0 <= k < |a| && a[k] !in registry {
      assert b[k] == a[k];
    }
    if k :| 0 <= k < |a| && a[k] in registry && !registry[a[k]].available {
      assert b[k] == a[k];
    }
    assert b[i] == capabilities[i];
  }

  /* ---------- Parameters ---------- */

  /** `_matches_parameter_type`: a boolean is not an integer, and an integer is a number. */
  predicate HasType(j: Json, t: ParameterType)
  {
    match t
    case StringType => j.Str?
    case IntegerType => j.Int?
    case NumberType => j.Int? || j.Float?
    case BooleanType => j.Bool?
    case ObjectType => j.Obj?
    case ArrayType => j.Arr?
    case JsonType => true
  }

  /** `validate_parameters`: only declared members, of their types, and none missing that is required. */
  predicate ParametersMatch(d: Definition, parameters: Json)
    requires parameters.Obj? && |parameters.keys| == |parameters.items|
  {
    (forall i :: 0 <= i < |parameters.keys| ==>
      exists k :: 0 <= k < |d.parameters| && d.parameters[k].name == parameters.keys[i] &&
                  HasType(parameters.items[i], d.parameters[k].kind)) &&
    forall k :: 0 <= k < |d.parameters| && d.parameters[k].required ==> d.parameters[k].name in parameters.keys
  }

  /** The parameters of every invocation of a registered capability match its contract. */
  predicate ParametersFit(registry: Registry, invocations: seq<Invocation>)
    requires All(invocations, InvocationOk)
  {
    forall k :: 0 <= k < |invocations| && invocations[k].capability in registry ==>
      ParametersMatch(registry[invocations[k].capability], invocations[k].parameters)
  }

  /* ---------- The choice of a decision ---------- */

  /** What the choice depends on. */
  datatype Situation = Situation(
    unregistered: bool,
    unavailable: bool,
    conflicted: bool,
    missing: bool,
    approvals: bool,
    policy: MissingContextPolicy)

  datatype Choice = Choice(branch: Branch, kind: DecisionType, reasons: set<Reason>, plan: Option<seq<PlanStep>>)

  /** Nothing stands in the way of a plan. */
  predicate Clear(s: Situation)
  {
    !s.unregistered && !s.unavailable && !s.conflicted && !s.missing
  }

  /** The decision a situation calls for, and exactly the reasons that hold of it. */
  predicate CalledFor(s: Situation, c: Choice)
  {
    (c.kind.Rejected? <==> s.unregistered) &&
    (c.kind.Propose? <==> Clear(s) && !s.approvals) &&
    (c.kind.RequestApproval? <==> Clear(s) && s.approvals) &&
    (c.kind.RequestInformation? <==>
      !s.unregistered && !s.unavailable && !s.conflicted && s.missing && s.policy.AskForInformation?) &&
    (UnknownCapability in c.reasons <==> s.unregistered) &&
    (CapabilityUnavailable in c.reasons <==> s.unavailable) &&
    (ConflictedContext in c.reasons <==> s.conflicted) &&
    (MissingContext in c.reasons <==> s.missing) &&
    (ApprovalRequired in c.reasons <==> c.kind.RequestApproval?) &&
    (Ready in c.reasons <==> c.kind.Propose?) &&
    (c.plan.Some? <==> Clear(s)) && c.branch == BranchFor(s, c.kind)
  }

  /** The explanation goes with the kind of decision and with what was looked at first. */
  function BranchFor(s: Situation, kind: DecisionType): Branch
  {
    match kind
    case Rejected => AbsentCapability
    case Propose => ReadyNow
    case RequestApproval => AwaitingApproval
    case RequestInformation => AskedContext
    case Deferred =>
      if s.unavailable then UnavailableCapability
      else if s.conflicted then ConflictingContext
      else DeferredContext
  }

  /** A situation calls for one choice only, up to the plan. */
  lemma CalledForUnique(s: Situation, a: Choice, b: Choice)
    requires CalledFor(s, a) && CalledFor(s, b) && a.plan == b.plan
    ensures a == b
  {
    forall r: Reason ensures r in a.reasons <==> r in b.reasons {
      match r
      case Ready =>
      case MissingContext =>
      case ConflictedContext =>
      case ApprovalRequired =>
      case CapabilityUnavailable =>
      case UnknownCapability =>
    }
  }

  /** Every choice that is called for has a shape the constructor accepts. */
  lemma ChoiceShape(s: Situation, c: Choice)
    requires CalledFor(s, c)
    ensures c.reasons != {}
    ensures ShapeOk(c.kind, c.reasons, s.missing, s.conflicted, s.approvals, c.plan.Some?)
  {
    forall r: Reason | r in c.reasons
      ensures c.kind.Deferred? ==> r in {MissingContext, ConflictedContext, CapabilityUnavailable}
      ensures c.kind.Rejected? ==> r in {UnknownCapability, CapabilityUnavailable, MissingContext, ConflictedContext}
      ensures c.kind.Propose? ==> r == Ready
      ensures c.kind.RequestApproval? ==> r == ApprovalRequired
      ensures c.kind.RequestInformation? ==> r == MissingContext
    {
      match r
      case Ready =>
      case MissingContext =>
      case ConflictedContext =>
      case ApprovalRequired =>
      case CapabilityUnavailable =>
      case UnknownCapability =>
    }
  }
}
