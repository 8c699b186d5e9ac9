/**
 A request that the service can decide on, but whose decision the constructor refuses: its optional
 context and the context its contract requires are together more than 128 references.
 */
module Oversize {
  import opened Basics
  import opened Ordering
  import opened Merging
  import opened Executive
  import opened Plans
  import opened Requests
  import opened References
  import opened Planner
  import opened Decisions
  import opened Evaluation
  import opened Service
  import opened Documents
  import D = Dependencies
  import J = JsonTree
  import G = JsonGraph

  const CAPABILITY: Text := [3]
  const NEEDED := ContextRequirement([1], [1])

  function Optional(i: CodePoint): ContextRequirement
  {
    ContextRequirement([2], [i])
  }

  /** As many optional requirements as a request may have. */
  function Optionals(): (r: seq<ContextRequirement>)
    ensures |r| == MAX_CONTEXT_REQUIREMENTS && forall i :: 0 <= i < |r| ==> r[i] == Optional(i)
  {
    seq(MAX_CONTEXT_REQUIREMENTS, i requires 0 <= i < MAX_CONTEXT_REQUIREMENTS => Optional(i))
  }

  /** A contract that requires one more item of context, and is not available. */
  function Contract(): Definition
  {
    Definition(CAPABILITY, [4], false, [], [NEEDED], [], [], [], [], Information, StopPlan)
  }

  function OneStep(): Invocation
  {
    Invocation([7], CAPABILITY, [], J.Obj([], []))
  }

  function Asked(): Request
  {
    Request([5], [6], Task, [OneStep()], [], Optionals(), [], [], [], Defer, J.Obj([], []))
  }

  function Example(digest: Text -> Text, explain: Branch -> Text): Inputs
  {
    Inputs(
      Asked(), Fingerprint(RequestPrint, []), map[CAPABILITY := Contract()], Snapshot([8], [9], map[]),
      Environment(digest, CanonicalEngine(digest), explain))
  }

  /* ---------- The request and the registry are valid ---------- */

  lemma OptionalsStrict()
    ensures Strict(Optionals(), ContextKey)
  {
    var xs := Optionals();
    forall i, j | 0 <= i < j < |xs|
      ensures Leq(ContextKey(xs[i]), ContextKey(xs[j])) && ContextKey(xs[i]) != ContextKey(xs[j])
    {
      var a: Text, b: Text := [i], [j];
      PairKeyOrder([2], a, [2], b);
      assert Less(a, b);
      LessAsymmetric(ContextKey(xs[i]), ContextKey(xs[j]));
      LessIrreflexive(ContextKey(xs[i]));
    }
  }

  lemma NoCycle(deps: D.Deps, step: Text, c: seq<Text>)
    requires deps == map[step := []]
    ensures !D.IsCycle(deps, c)
  {
  }

  lemma OneStepFits()
    ensures StepsFit(Asked())
  {
    var steps := [OneStep()];
    var deps := InvocationMap(steps);
    assert ById(steps[..0], InvocationStep) == map[];
    assert deps == map[OneStep().step := []];
    forall c ensures !D.IsCycle(deps, c) {
      NoCycle(deps, OneStep().step, c);
    }
  }

  lemma ExampleOk(digest: Text -> Text, explain: Branch -> Text)
    ensures InputsOk(Example(digest, explain))
  {
    OptionalsStrict();
    OneStepFits();
  }

  /* ---------- The contract fits the bounds of the JSON engine ---------- */

  predicate Small(j: Json)
  {
    J.Size(j) <= 8 && J.Depth(j) <= 3 && J.Chars(j) <= 40 && G.ScalarsOk(j)
  }

  lemma {:induction false} SmallAll(js: seq<Json>)
    requires forall i :: 0 <= i < |js| ==> Small(js[i])
    ensures J.SizeAll(js) <= 8 * |js| && J.DepthAll(js) <= 4 && J.CharsAll(js) <= 40 * |js|
  {
    if js != [] {
      assert forall i :: 0 <= i < |js| - 1 ==> js[1..][i] == js[i + 1];
      SmallAll(js[1..]);
    }
  }

  lemma {:induction false} KeysShort(keys: seq<Text>)
    requires forall i :: 0 <= i < |keys| ==> |keys[i]| <= 40
    ensures J.KeyChars(keys) <= 40 * |keys|
  {
    if keys != [] {
      KeysShort(keys[1..]);
    }
  }

  lemma WordEncodable(s: string)
    ensures G.Encodable(Word(s))
  {
  }

  lemma LiteralSmall(s: string)
    requires |s| <= 40
    ensures Small(Literal(s))
  {
    WordEncodable(s);
  }

  /** A document of at most a dozen small parts with short names. */
  lemma RecordBounded(names: seq<string>, items: seq<Json>)
    requires |names| == |items| <= 12 && forall i :: 0 <= i < |names| ==> |names[i]| <= 40
    requires forall i :: 0 <= i < |items| ==> Small(items[i])
    ensures var j := Record(names, items);
      J.Size(j) <= 97 && J.Depth(j) <= 4 && J.Chars(j) <= 960 && G.ScalarsOk(j)
  {
    SmallAll(items);
    KeysShort(Words(names));
    forall i | 0 <= i < |names| ensures G.Encodable(Words(names)[i]) {
      WordEncodable(names[i]);
    }
  }

  lemma {:induction false} FirstItem(js: seq<Json>)
    requires js != []
    ensures J.SizeAll(js) == J.Size(js[0]) + J.SizeAll(js[1..])
    ensures J.CharsAll(js) == J.Chars(js[0]) + J.CharsAll(js[1..])
    ensures J.DepthAll(js) <= 1 + J.Depth(js[0]) + J.DepthAll(js[1..])
  {
  }

  lemma {:induction false} NoItems(js: seq<Json>)
    requires js == []
    ensures J.SizeAll(js) == 0 && J.CharsAll(js) == 0 && J.DepthAll(js) == 0
  {
  }

  lemma {:induction false} TwoItems(a: Json, b: Json)
    ensures J.SizeAll([a, b]) == J.Size(a) + J.Size(b) && J.CharsAll([a, b]) == J.Chars(a) + J.Chars(b)
    ensures J.DepthAll([a, b]) <= 2 + J.Depth(a) + J.Depth(b)
  {
    FirstItem([a, b]);
    assert [a, b][1..] == [b];
    FirstItem([b]);
    NoItems([b][1..]);
  }

  lemma {:induction false} OneItem(j: Json)
    ensures var a := J.Arr([j]);
      J.Size(a) == 1 + J.Size(j) && J.Depth(a) <= 1 + J.Depth(j) && J.Chars(a) == J.Chars(j)
    ensures G.ScalarsOk(j) ==> G.ScalarsOk(J.Arr([j]))
  {
    FirstItem([j]);
    NoItems([j][1..]);
  }

  lemma ListOne<T>(f: T -> Json, x: T)
    ensures List(f, [x]) == J.Arr([f(x)])
  {
  }

  lemma {:induction false} TwoKeys(keys: seq<Text>)
    requires |keys| == 2
    ensures J.KeyChars(keys) == |keys[0]| + |keys[1]|
  {
    var last := keys[1..];
    assert last[1..] == [];
    assert J.KeyChars(last) == |keys[1]|;
  }

  /** The measures of a record of two parts. */
  lemma {:induction false} PairBounds(names: seq<string>, a: Json, b: Json)
    requires |names| == 2 && G.ScalarsOk(a) && G.ScalarsOk(b)
    ensures var j := Record(names, [a, b]);
      J.Size(j) == 1 + J.Size(a) + J.Size(b) && J.Depth(j) <= 2 + J.Depth(a) + J.Depth(b) &&
      J.Chars(j) == |names[0]| + |names[1]| + J.Chars(a) + J.Chars(b) && G.ScalarsOk(j)
  {
    TwoItems(a, b);
    TwoKeys(Words(names));
    WordEncodable(names[0]);
    WordEncodable(names[1]);
  }

  lemma NeededSmall()
    ensures Small(List(ContextDocument, [NEEDED]))
  {
    ListOne(ContextDocument, NEEDED);
    PairBounds(CONTEXT_FIELDS, J.Str(NEEDED.domain), J.Str(NEEDED.topic));
    OneItem(ContextDocument(NEEDED));
  }

  lemma EmptySmall<T>(f: T -> Json, none: seq<T>)
    requires none == []
    ensures Small(List(f, none))
  {
  }

  lemma TextSmall(t: Text)
    requires |t| <= 40 && G.Encodable(t)
    ensures Small(J.Str(t))
  {
  }

  lemma ElevenSmall(js: seq<Json>)
    requires |js| == 11 && Small(js[0]) && Small(js[1]) && Small(js[2]) && Small(js[3]) && Small(js[4]) && Small(js[5])
    requires Small(js[6]) && Small(js[7]) && Small(js[8]) && Small(js[9]) && Small(js[10])
    ensures forall i :: 0 <= i < |js| ==> Small(js[i])
  {
  }

  lemma ListsSmall(d: Definition)
    requires d.assumptions == [] && d.constraints == [] && d.parameters == [] && d.preconditions == [] && d.approvals == []
    ensures Small(List(AssumptionDocument, d.assumptions)) && Small(List(ConstraintDocument, d.constraints))
    ensures Small(List(ParameterDocument, d.parameters)) && Small(List(PreconditionDocument, d.preconditions))
    ensures Small(List(ApprovalDocument, d.approvals))
  {
    EmptySmall(AssumptionDocument, d.assumptions);
    EmptySmall(ConstraintDocument, d.constraints);
    EmptySmall(ParameterDocument, d.parameters);
    EmptySmall(PreconditionDocument, d.preconditions);
    EmptySmall(ApprovalDocument, d.approvals);
  }

  lemma TextsSmall(d: Definition)
    requires |d.capability| <= 40 && |d.description| <= 40 && G.Encodable(d.capability) && G.Encodable(d.description)
    ensures Small(J.Str(d.capability)) && Small(J.Str(d.description)) && Small(Literal(AvailabilityText(d.available)))
    ensures Small(Literal(ExpectedText(d.expected))) && Small(Literal(FailureText(d.failure)))
  {
    TextSmall(d.capability);
    TextSmall(d.description);
    LiteralSmall(AvailabilityText(d.available));
    LiteralSmall(ExpectedText(d.expected));
    LiteralSmall(FailureText(d.failure));
  }

  /** A contract with short texts, one short requirement, and nothing else, has small parts. */
  lemma PartsSmall(d: Definition, js: seq<Json>)
    requires d.assumptions == [] && d.constraints == [] && d.parameters == [] && d.preconditions == [] && d.approvals == []
    requires |d.capability| <= 40 && |d.description| <= 40 && G.Encodable(d.capability) && G.Encodable(d.description)
    requires Small(List(ContextDocument, d.context)) && js == DefinitionItems(d)
    ensures forall i :: 0 <= i < |js| ==> Small(js[i])
  {
    ListsSmall(d);
    TextsSmall(d);
    ElevenSmall(js);
  }

  lemma ContractItemsSmall(js: seq<Json>)
    requires js == DefinitionItems(Contract())
    ensures forall i :: 0 <= i < |js| ==> Small(js[i])
  {
    NeededSmall();
    PartsSmall(Contract(), js);
  }

  lemma ContractBounded()
    ensures var j := DefinitionDocument(Contract());
      J.Size(j) <= 97 && J.Depth(j) <= 4 && J.Chars(j) <= 960 && G.ScalarsOk(j)
  {
    ContractItemsSmall(DefinitionItems(Contract()));
    RecordBounded(DEFINITION_FIELDS, DefinitionItems(Contract()));
  }

  lemma {:induction false} ListedBounded(names: seq<string>, one: Json, b: Json)
    requires |names| == 2 && |names[0]| <= 40 && |names[1]| <= 40 && G.ScalarsOk(one) && Small(b)
    requires J.Size(one) <= 97 && J.Depth(one) <= 4 && J.Chars(one) <= 960
    ensures G.WithinBounds(Record(names, [J.Arr([one]), b]))
  {
    OneItem(one);
    PairBounds(names, J.Arr([one]), b);
  }

  lemma {:induction false} RegistryShape(registry: Registry)
    requires registry == map[CAPABILITY := Contract()]
    ensures List(ContractDocument, Contracts(registry, [CAPABILITY])) == J.Arr([DefinitionDocument(Contract())])
  {
    var c := ContractFor(registry, CAPABILITY);
    assert Contracts(registry, [CAPABILITY]) == [c];
    ListOne(ContractDocument, c);
    assert ContractDocument(c) == DefinitionDocument(Contract());
  }

  lemma RegistryBounded(registry: Registry)
    requires registry == map[CAPABILITY := Contract()]
    ensures G.WithinBounds(RegistryDocument(registry, [CAPABILITY]))
  {
    var one, schema := DefinitionDocument(Contract()), Literal("ayyo.executive.capability-contract.v1");
    assert G.WithinBounds(Record(REGISTRY_FIELDS, [J.Arr([one]), schema])) by {
      ContractBounded();
      LiteralSmall("ayyo.executive.capability-contract.v1");
      ListedBounded(REGISTRY_FIELDS, one, schema);
    }
    RegistryShape(registry);
  }

  /* ---------- The example is gathered, and refused ---------- */

  lemma {:induction false} OptionalsRemain(optional: seq<ContextRequirement>)
    requires NEEDED !in optional
    ensures |OnlyOptional([NEEDED], optional)| == |optional|
  {
    if optional != [] {
      OptionalsRemain(optional[1..]);
    }
  }

  lemma ReferencesExist(x: Inputs) returns (refs: seq<Reference>)
    requires x.snapshot.results == map[] && x.request == Asked()
    ensures ReferencesFor(x.snapshot, [NEEDED], x.request.optional, x.env.digest) == Some(refs)
    ensures |refs| == MAX_CONTEXT_REQUIREMENTS + 1
  {
    var made := ReferencesFor(x.snapshot, [NEEDED], x.request.optional, x.env.digest);
    assert made.Some?;
    ReferenceCount(x.snapshot, [NEEDED], x.request.optional, x.env.digest);
    OptionalsRemain(x.request.optional);
    refs := made.value;
  }

  lemma OneCapability()
    ensures Capabilities(Asked()) == [CAPABILITY]
  {
    assert Map(CapabilityOf, [OneStep()]) == [CAPABILITY];
    assert SortedSet([CAPABILITY][1..]) == [];
  }

  lemma {:induction false} OneKnown(registry: Registry)
    requires registry == map[CAPABILITY := Contract()]
    ensures Known(registry, [CAPABILITY]) == [Contract()]
  {
    assert Known(registry, [CAPABILITY][1..]) == [];
  }

  lemma OneMerge<T>(part: Definition -> seq<T>, key: T -> Key, m: seq<T>)
    requires part(Contract()) == m && |m| <= 1
    ensures MergeOf([], part, [Contract()], key, m)
  {
    var all := Gather([], part, [Contract()]);
    assert all == [[], m];
    assert all[1..] == [m] && [m][1..] == [];
    assert Flatten([m]) == m && Flatten(all) == m;
  }

  lemma ExampleMerges(m: Merges)
    requires m == Merges([NEEDED], [], [], [])
    ensures MergesOf(Asked(), [Contract()], m)
  {
    OneMerge(ContextOf, ContextKey, m.context);
    OneMerge(ApprovalsOf, ApprovalKey, m.approvals);
    OneMerge(AssumptionsOf, AssumptionKey, m.assumptions);
    OneMerge(ConstraintsOf, ConstraintKey, m.constraints);
  }

  /** What an unavailable capability calls for. */
  function Defers(s: Situation): Choice
  {
    Choice(
      UnavailableCapability, Deferred,
      {CapabilityUnavailable} + (if s.conflicted then {ConflictedContext} else {}) +
      (if s.missing then {MissingContext} else {}),
      None)
  }

  lemma ExampleGathered(x: Inputs, digest: Text -> Text, explain: Branch -> Text) returns (g: Assembly)
    requires x == Example(digest, explain)
    ensures Gathered(x, g) && |g.references| == MAX_CONTEXT_REQUIREMENTS + 1
  {
    ExampleOk(digest, explain);
    OneCapability();
    OneKnown(x.registry);
    RegistryDocumentWellFormed(x.registry, [CAPABILITY]);
    RegistryBounded(x.registry);
    var merges := Merges([NEEDED], [], [], []);
    ExampleMerges(merges);
    var refs := ReferencesExist(x);
    g := Assembly(ContractPrintOf(x.registry, [CAPABILITY], x.env.engine).value, merges, refs);
  }

  lemma DefersCalledFor(s: Situation)
    requires !s.unregistered && s.unavailable
    ensures CalledFor(s, Defers(s))
  {
  }

  lemma ExampleChosen(x: Inputs, g: Assembly, digest: Text -> Text, explain: Branch -> Text)
    requires x == Example(digest, explain)
    ensures Chosen(x, g, Defers(SituationOf(x, g)))
  {
    OneCapability();
    var cs := [CAPABILITY];
    assert x.registry[cs[0]] == Contract();
    assert !Unregistered(x.registry, cs) && Unavailable(x.registry, cs);
    DefersCalledFor(SituationOf(x, g));
  }

  /** The service gathers and chooses, and the constructor of the decision refuses. */
  lemma TooManyReferencesOccurs(digest: Text -> Text, explain: Branch -> Text)
    returns (x: Inputs, g: Assembly, c: Choice)
    ensures InputsOk(x) && x.env.engine == CanonicalEngine(digest) && Gathered(x, g) && Chosen(x, g, c)
    ensures |g.references| > MAX_CONTEXT_REQUIREMENTS
    ensures Construct(Assemble(x, g, c), x.env.engine) == Refused(TooManyReferences)
  {
    x := Example(digest, explain);
    ExampleOk(digest, explain);
    g := ExampleGathered(x, digest, explain);
    c := Defers(SituationOf(x, g));
    ExampleChosen(x, g, digest, explain);
    AssembledAccepted(x, g, c);
  }
}
