/**
 Fingerprints by the real JSON engine: the documents of the service are always JSON values, so the
 engine rejects them only for their size.
 */
module Documents {
  import opened Basics
  import opened Ordering
  import opened JsonText
  import opened Executive
  import opened Plans
  import opened References
  import opened Planner
  import opened Decisions
  import opened Evaluation
  import opened Service
  import J = JsonTree
  import G = JsonGraph

  /** Digests canonical texts; rejects what the JSON engine rejects. */
  function CanonicalEngine(digest: Text -> Text): Engine
  {
    (j: Json) => if J.WellFormed(j) && G.WithinBounds(j) then Some(digest(Print(j))) else None
  }

  ghost predicate Injective(digest: Text -> Text)
  {
    forall a, b :: digest(a) == digest(b) ==> a == b
  }

  /** With an injective digest, equal fingerprints mean equal documents. */
  lemma {:induction false} FingerprintDetermines(kind: FingerprintKind, a: Json, b: Json, digest: Text -> Text)
    requires Injective(digest)
    requires FingerprintOf(kind, a, CanonicalEngine(digest)).Some?
    requires FingerprintOf(kind, a, CanonicalEngine(digest)) == FingerprintOf(kind, b, CanonicalEngine(digest))
    ensures J.WellFormed(a) && J.WellFormed(b) && J.Same(a, b)
  {
    var engine := CanonicalEngine(digest);
    assert engine(a).Some? && engine(a) == engine(b);
    assert digest(Print(a)) == digest(Print(b));
    PrintIffSame(a, b);
  }

  /* ---------- The parameters of merged parts are stored ones ---------- */

  lemma {:induction false} StoredConstraints(
      own: seq<Constraint>, definitions: seq<Definition>, m: seq<Constraint>)
    requires MergeOf(own, ConstraintsOf, definitions, ConstraintKey, m) && All(own, ConstraintOk)
    requires All(definitions, DefinitionStored)
    ensures All(m, ConstraintOk)
  {
    forall i | 0 <= i < |m| ensures ConstraintOk(m[i]) {
      MergedMember(own, ConstraintsOf, definitions, ConstraintKey, m, m[i]);
      if m[i] in own {
        var k :| 0 <= k < |own| && own[k] == m[i];
      } else {
        var d :| 0 <= d < |definitions| && m[i] in ConstraintsOf(definitions[d]);
        var cs := definitions[d].constraints;
        var k :| 0 <= k < |cs| && cs[k] == m[i];
        assert DefinitionStored(definitions[d]);
      }
    }
  }

  lemma {:induction false} KnownConstraints(registry: Registry, capabilities: seq<Text>)
    requires RegistryOk(registry)
    ensures All(Known(registry, capabilities), DefinitionStored)
  {
    var ds := Known(registry, capabilities);
    forall i | 0 <= i < |ds| ensures DefinitionStored(ds[i]) {
      KnownMembers(registry, capabilities, ds[i]);
      assert DefinitionOk(registry[ds[i].capability]);
    }
  }

  lemma StepsStored(request: Request, registry: Registry, steps: seq<PlanStep>, plan: seq<PlanStep>)
    requires RegistryOk(registry) && StepsFrom(request, registry, steps) && multiset(steps) == multiset(plan)
    requires All(request.invocations, InvocationOk) && All(request.constraints, ConstraintOk)
    ensures All(plan, StepStored)
  {
    forall j | 0 <= j < |plan| ensures StepStored(plan[j]) {
      PlanMembers(steps, plan, plan[j]);
      var k :| 0 <= k < |steps| && steps[k] == plan[j];
      StepIsStored(request, registry, request.invocations[k], steps[k]);
    }
  }

  lemma OnlyDefinition(d: Definition)
    requires DefinitionStored(d)
    ensures All([d], DefinitionStored)
  {
  }

  lemma StepIsStored(request: Request, registry: Registry, i: Invocation, s: PlanStep)
    requires RegistryOk(registry) && StepOf(request, registry, i, s) && InvocationOk(i)
    requires All(request.constraints, ConstraintOk)
    ensures StepStored(s)
  {
    var d := registry[i.capability];
    assert DefinitionOk(d);
    assert DefinitionStored(d);
    OnlyDefinition(d);
    StoredConstraints(request.constraints, [d], s.constraints);
  }

  lemma PlanStored(request: Request, registry: Registry, plan: seq<PlanStep>)
    requires RegistryOk(registry) && PlanFrom(request, registry, plan)
    requires All(request.invocations, InvocationOk) && All(request.constraints, ConstraintOk)
    ensures All(plan, StepStored)
  {
    var steps :| StepsFrom(request, registry, steps) && IsPlan(steps, plan);
    StepsStored(request, registry, steps, plan);
  }

  lemma AssembledStored(x: Inputs, g: Assembly, c: Choice, a: Arguments)
    requires All(x.request.invocations, InvocationOk) && All(x.request.constraints, ConstraintOk)
    requires RegistryOk(x.registry) && MergesOf(x.request, Contracted(x), g.merges)
    requires c.plan.Some? ==> PlanFrom(x.request, x.registry, c.plan.value)
    requires a.constraints == g.merges.constraints && a.plan == c.plan
    ensures ArgumentsStored(a)
  {
    KnownConstraints(x.registry, Capabilities(x.request));
    StoredConstraints(x.request.constraints, Contracted(x), g.merges.constraints);
    if c.plan.Some? {
      PlanStored(x.request, x.registry, c.plan.value);
    }
  }

  /* ---------- Refusals are about size ---------- */

  lemma {:induction false} EngineRejects(kind: FingerprintKind, j: Json, digest: Text -> Text)
    requires J.WellFormed(j)
    ensures FingerprintOf(kind, j, CanonicalEngine(digest)).None? <==> !G.WithinBounds(j)
  {
  }

  /** The fingerprint of the relevant context. */
  function RelevantPrint(refs: seq<Reference>, digest: Text -> Text): Fingerprint
  {
    RelevantDocumentWellFormed(refs);
    Fingerprint(ContextPrint, digest(Print(RelevantDocument(refs))))
  }

  /** One of the two documents that the constructor fingerprints is beyond the bounds of the engine. */
  predicate TooBig(a: Arguments, digest: Text -> Text)
  {
    var missing, conflicted := InState(a.references, Unknown), InState(a.references, Conflicted);
    !G.WithinBounds(RelevantDocument(a.references)) ||
    !G.WithinBounds(DecisionDocument(a, missing, conflicted, RelevantPrint(a.references, digest)))
  }

  lemma ContextPrinted(refs: seq<Reference>, digest: Text -> Text)
    ensures FingerprintOf(ContextPrint, RelevantDocument(refs), CanonicalEngine(digest)) ==
      if G.WithinBounds(RelevantDocument(refs)) then Some(RelevantPrint(refs, digest)) else None
  {
    RelevantDocumentWellFormed(refs);
  }

  /** The fingerprints are refused exactly if one of the documents is too big. */
  lemma SealRefuses(a: Arguments, digest: Text -> Text)
    requires ArgumentsStored(a)
    ensures Seal(a, CanonicalEngine(digest)).Refused? <==> TooBig(a, digest)
  {
    var missing, conflicted := InState(a.references, Unknown), InState(a.references, Conflicted);
    var context := RelevantPrint(a.references, digest);
    ContextPrinted(a.references, digest);
    DecisionDocumentWellFormed(a, missing, conflicted, context);
    EngineRejects(DecisionPrint, DecisionDocument(a, missing, conflicted, context), digest);
  }

  /** The constructor turns the service down exactly for more than 128 references or too big a document. */
  lemma RefusedOnlyForSize(x: Inputs, digest: Text -> Text, g: Assembly, c: Choice)
    requires InputsOk(x) && x.env.engine == CanonicalEngine(digest) && Gathered(x, g) && Chosen(x, g, c)
    ensures Construct(Assemble(x, g, c), x.env.engine).Refused? <==>
      |g.references| > MAX_CONTEXT_REQUIREMENTS || TooBig(Assemble(x, g, c), digest)
  {
    AssembledAccepted(x, g, c);
    AssembledStored(x, g, c, Assemble(x, g, c));
    SealRefuses(Assemble(x, g, c), digest);
  }

  lemma {:induction false} ReferenceCount(
      s: Snapshot, required: seq<ContextRequirement>, optional: seq<ContextRequirement>, digest: Text -> Text)
    ensures var refs := ReferencesFor(s, required, optional, digest);
      refs.Some? ==> |refs.value| == |required| + |OnlyOptional(required, optional)|
  {
  }
}
