/**
 `ExecutiveService.revalidate`: is a decision still the decision, or is it stale, and why.
 */
module Revalidation {
  import opened Basics
  import opened Ordering
  import opened Executive
  import opened References
  import opened Planner
  import opened Decisions
  import opened Evaluation
  import opened Service
  import opened Documents

  /** In the order of the enumeration. */
  datatype StaleReason = RequestChanged | OwnerChanged | ContractChanged | ContextChanged

  function StaleRank(r: StaleReason): Key
  {
    match r
    case RequestChanged => [0]
    case OwnerChanged => [1]
    case ContractChanged => [2]
    case ContextChanged => [3]
  }

  /** What is compared: as the decision recorded it, or as it is now. */
  datatype Basis = Basis(
    version: Text,
    owner: Text,
    requestPrint: Fingerprint,
    contractPrint: Fingerprint,
    contextPrint: Fingerprint)

  datatype Report = Report(current: bool, reasons: seq<StaleReason>, prior: Basis, now: Basis)

  function Recorded(d: Decision): Basis
  {
    Basis(
      d.arguments.version, d.arguments.owner, d.arguments.requestPrint, d.arguments.contractPrint, d.contextPrint)
  }

  predicate KindsOk(b: Basis)
  {
    b.requestPrint.kind.RequestPrint? && b.contractPrint.kind.ContractPrint? && b.contextPrint.kind.ContextPrint?
  }

  /** The reasons the constructor of the result recomputes for itself. */
  function Expected(prior: Basis, now: Basis): set<StaleReason>
  {
    (if prior.requestPrint != now.requestPrint then {RequestChanged} else {}) +
    (if prior.owner != now.owner then {OwnerChanged} else {}) +
    (if prior.contractPrint != now.contractPrint then {ContractChanged} else {}) +
    (if prior.contextPrint != now.contextPrint then {ContextChanged} else {})
  }

  /** `RevalidationResult.__post_init__` */
  predicate ReportOk(r: Report)
  {
    Strict(r.reasons, StaleRank) && (r.current <==> r.reasons == []) && KindsOk(r.prior) && KindsOk(r.now) &&
    SetOf(r.reasons) == Expected(r.prior, r.now)
  }

  const ALL_STALE: seq<StaleReason> := [RequestChanged, OwnerChanged, ContractChanged, ContextChanged]

  /** `tuple(sorted(reasons, key=rank))` */
  function OrderedStale(reasons: set<StaleReason>): seq<StaleReason>
  {
    Pick(ALL_STALE, reasons)
  }

  lemma AllStaleStrict()
    ensures Strict(ALL_STALE, StaleRank)
    ensures forall r: StaleReason :: r in ALL_STALE
  {
    forall r: StaleReason ensures r in ALL_STALE {
      match r
      case RequestChanged => assert ALL_STALE[0] == r;
      case OwnerChanged => assert ALL_STALE[1] == r;
      case ContractChanged => assert ALL_STALE[2] == r;
      case ContextChanged => assert ALL_STALE[3] == r;
    }
    forall i, j | 0 <= i < j < 4
      ensures Leq(StaleRank(ALL_STALE[i]), StaleRank(ALL_STALE[j]))
      ensures StaleRank(ALL_STALE[i]) != StaleRank(ALL_STALE[j])
    {
      assert StaleRank(ALL_STALE[i])[0] == i && StaleRank(ALL_STALE[j])[0] == j;
    }
  }

  lemma StaleOrdered(reasons: set<StaleReason>)
    ensures Strict(OrderedStale(reasons), StaleRank) && SetOf(OrderedStale(reasons)) == reasons
  {
    AllStaleStrict();
    PickStrict(ALL_STALE, reasons, StaleRank);
    forall r: StaleReason ensures r in OrderedStale(reasons) <==> r in reasons {
      PickMembers(ALL_STALE, reasons, r);
    }
  }

  /** The comparisons of `revalidate`. */
  method Compare(prior: Basis, now: Basis) returns (reasons: set<StaleReason>)
    ensures reasons == Expected(prior, now)
  {
    reasons := {};
    if now.requestPrint != prior.requestPrint {
      reasons := reasons + {RequestChanged};
    }
    if now.owner != prior.owner {
      reasons := reasons + {OwnerChanged};
    }
    if now.contractPrint != prior.contractPrint {
      reasons := reasons + {ContractChanged};
    }
    if now.contextPrint != prior.contextPrint {
      reasons := reasons + {ContextChanged};
    }
  }

  /** The result object; None when its constructor raises, which it does not. */
  method MakeReport(prior: Basis, now: Basis) returns (r: Option<Report>)
    requires KindsOk(prior) && KindsOk(now)
    ensures r.Some? && r.value.prior == prior && r.value.now == now && ReportOk(r.value)
  {
    var reasons := Compare(prior, now);
    var ordered := OrderedStale(reasons);
    StaleOrdered(reasons);
    var report := Report(ordered == [], ordered, prior, now);
    if !ReportOk(report) {
      return None;
    }
    return Some(report);
  }

  /** The requirements of the required references, or of the others, in their order. */
  function Named(refs: seq<Reference>, required: bool): seq<ContextRequirement>
  {
    if refs == [] then []
    else (if refs[0].required == required then [refs[0].requirement] else []) + Named(refs[1..], required)
  }

  /** What revalidation reads off the present registry and snapshot. */
  ghost predicate Observed(
      d: Decision, registry: Registry, snapshot: Snapshot, env: Environment, contract: Fingerprint, context: Fingerprint)
  {
    ContractPrintOf(registry, d.arguments.capabilities, env.engine) == Some(contract) &&
    exists refs :: ReferencesNow(d, snapshot, env, refs) &&
      FingerprintOf(ContextPrint, RelevantDocument(refs), env.engine) == Some(context)
  }

  ghost predicate ReferencesNow(d: Decision, snapshot: Snapshot, env: Environment, refs: seq<Reference>)
  {
    var prior := d.arguments.references;
    ReferencesFor(snapshot, Named(prior, true), Named(prior, false), env.digest) == Some(refs)
  }

  datatype Revalidated =
    | Reported(report: Report)
    | OwnerMismatch
    | ContractsTooLarge
    | BadReference
    | ContextTooLarge
    | ReportRefused

  /** `ExecutiveService.revalidate`; requestPrint is the fingerprint of the request as it is now. */
  method Revalidate(
      owner: Text, d: Decision, requestPrint: Fingerprint, registry: Registry, snapshot: Snapshot, env: Environment)
      returns (r: Revalidated)
    requires KindsOk(Recorded(d)) && requestPrint.kind.RequestPrint?
    ensures !r.ReportRefused?
    ensures r.Reported? ==>
      Observed(d, registry, snapshot, env, r.report.now.contractPrint, r.report.now.contextPrint)
    ensures r.Reported? ==>
      r.report.prior == Recorded(d) && r.report.now.requestPrint == requestPrint &&
      r.report.now.owner == snapshot.owner && r.report.now.version == snapshot.version && ReportOk(r.report)
    ensures r.Reported? <==>
      snapshot.owner == owner && exists contract, context :: Observed(d, registry, snapshot, env, contract, context)
  {
    if snapshot.owner != owner {
      return Revalidated.OwnerMismatch;
    }
    var contract := ContractPrintOf(registry, d.arguments.capabilities, env.engine);
    if contract.None? {
      return Revalidated.ContractsTooLarge;
    }
    var prior := d.arguments.references;
    var refs := ReferencesFor(snapshot, Named(prior, true), Named(prior, false), env.digest);
    if refs.None? {
      return Revalidated.BadReference;
    }
    var context := FingerprintOf(ContextPrint, RelevantDocument(refs.value), env.engine);
    if context.None? {
      return Revalidated.ContextTooLarge;
    }
    ObservedBy(d, registry, snapshot, env, contract.value, context.value, refs.value);
    var now := Basis(snapshot.version, snapshot.owner, requestPrint, contract.value, context.value);
    var report := MakeReport(Recorded(d), now);
    if report.None? {
      return ReportRefused;
    }
    return Reported(report.value);
  }

  lemma ObservedBy(
      d: Decision, registry: Registry, snapshot: Snapshot, env: Environment, contract: Fingerprint,
      context: Fingerprint, refs: seq<Reference>)
    requires ContractPrintOf(registry, d.arguments.capabilities, env.engine) == Some(contract)
    requires ReferencesNow(d, snapshot, env, refs)
    requires FingerprintOf(ContextPrint, RelevantDocument(refs), env.engine) == Some(context)
    ensures Observed(d, registry, snapshot, env, contract, context)
  {
  }

  /* ---------- What the recorded references name ---------- */

  lemma Reassociate<T>(a: seq<T>, b: seq<T>, c: seq<T>)
    ensures a + (b + c) == (a + b) + c
  {
  }

  lemma {:induction false} NamedJoin(a: seq<Reference>, b: seq<Reference>, required: bool)
    ensures Named(a + b, required) == Named(a, required) + Named(b, required)
  {
    if a == [] {
      assert [] + b == b;
    } else {
      NamedJoin(a[1..], b, required);
      assert (a + b)[1..] == a[1..] + b && (a + b)[0] == a[0];
      var own := if a[0].required == required then [a[0].requirement] else [];
      assert Named(a, required) == own + Named(a[1..], required);
      assert Named(a + b, required) == own + Named(a[1..] + b, required);
      Reassociate(own, Named(a[1..], required), Named(b, required));
    }
  }

  lemma {:induction false} NamedAll(refs: seq<Reference>, cs: seq<ContextRequirement>, required: bool)
    requires |refs| == |cs|
    requires forall i :: 0 <= i < |refs| ==> refs[i].requirement == cs[i] && refs[i].required == required
    ensures Named(refs, required) == cs && Named(refs, !required) == []
  {
    if refs != [] {
      NamedAll(refs[1..], cs[1..], required);
    }
  }

  lemma {:induction false} OnlyOptionalAgain(required: seq<ContextRequirement>, optional: seq<ContextRequirement>)
    ensures OnlyOptional(required, OnlyOptional(required, optional)) == OnlyOptional(required, optional)
  {
    if optional != [] {
      OnlyOptionalAgain(required, optional[1..]);
      var rest := OnlyOptional(required, optional[1..]);
      if optional[0] in required {
        assert [] + rest == rest;
      } else {
        assert ([optional[0]] + rest)[1..] == rest;
      }
    }
  }

  lemma {:induction false} RequiredOnlyJoin(a: seq<Reference>, b: seq<Reference>)
    requires forall i :: 0 <= i < |a| ==> a[i].required
    requires forall i :: 0 <= i < |b| ==> !b[i].required
    ensures RequiredOnly(a + b) == a
  {
    if a == [] {
      assert [] + b == b;
      RequiredOnlyNone(b);
    } else {
      RequiredOnlyJoin(a[1..], b);
      var all := a + b;
      assert all[1..] == a[1..] + b && all[0] == a[0];
      assert RequiredOnly(all) == [a[0]] + RequiredOnly(all[1..]);
    }
  }

  lemma {:induction false} RequiredOnlyNone(b: seq<Reference>)
    requires forall i :: 0 <= i < |b| ==> !b[i].required
    ensures RequiredOnly(b) == []
  {
    if b != [] {
      RequiredOnlyNone(b[1..]);
    }
  }

  /** The references of a decision name what was required, and what was only optional. */
  lemma {:induction false} NamesRecorded(
      s: Snapshot, required: seq<ContextRequirement>, optional: seq<ContextRequirement>, digest: Text -> Text,
      refs: seq<Reference>)
    requires Strict(required, ContextKey) && Strict(optional, ContextKey)
    requires ReferencesFor(s, required, optional, digest) == Some(refs)
    ensures Named(refs, true) == required && Named(refs, false) == OnlyOptional(required, optional)
  {
    var first, rest := ReferencesInOrder(s, required, optional, digest, refs);
    OnlyOptionalStrict(required, optional);
    MatchesStrict(s, OnlyOptional(required, optional), false, digest, rest);
    NamedJoin(first, rest, true);
    NamedJoin(first, rest, false);
    NamedAll(first, required, true);
    NamedAll(rest, OnlyOptional(required, optional), false);
    assert required + [] == required;
  }

  /** Asking again for what a decision recorded asks for the same references. */
  lemma {:induction false} AskAgain(
      s: Snapshot, t: Snapshot, required: seq<ContextRequirement>, optional: seq<ContextRequirement>,
      digest: Text -> Text, refs: seq<Reference>)
    requires Strict(required, ContextKey) && Strict(optional, ContextKey)
    requires ReferencesFor(s, required, optional, digest) == Some(refs)
    ensures ReferencesFor(t, Named(refs, true), Named(refs, false), digest) ==
      ReferencesFor(t, required, optional, digest)
  {
    NamesRecorded(s, required, optional, digest, refs);
    OnlyOptionalAgain(required, optional);
  }

  /** What the document of the relevant context lists: one reference for each required item. */
  lemma {:induction false} RelevantAre(
      s: Snapshot, required: seq<ContextRequirement>, optional: seq<ContextRequirement>, digest: Text -> Text,
      refs: seq<Reference>)
    requires Strict(required, ContextKey) && Strict(optional, ContextKey)
    requires ReferencesFor(s, required, optional, digest) == Some(refs)
    ensures Matches(s, required, true, digest, Sort(RequiredOnly(refs), ReferenceKey))
  {
    var first, rest := ReferencesInOrder(s, required, optional, digest, refs);
    RequiredOnlyJoin(first, rest);
    MatchesStrict(s, required, true, digest, first);
    SortOfSorted(first, ReferenceKey);
  }

  /** Both snapshots give the same references for the required context. */
  ghost predicate SameContext(s: Snapshot, t: Snapshot, required: seq<ContextRequirement>, digest: Text -> Text)
  {
    forall i :: 0 <= i < |required| ==>
      MakeReference(s, required[i], true, digest) == MakeReference(t, required[i], true, digest)
  }

  lemma {:induction false} SameContextSameDocument(
      s: Snapshot, t: Snapshot, required: seq<ContextRequirement>, optional: seq<ContextRequirement>,
      digest: Text -> Text, refs: seq<Reference>, now: seq<Reference>)
    requires Strict(required, ContextKey) && Strict(optional, ContextKey)
    requires ReferencesFor(s, required, optional, digest) == Some(refs)
    requires ReferencesFor(t, required, optional, digest) == Some(now)
    ensures SameContext(s, t, required, digest) <==>
      Sort(RequiredOnly(refs), ReferenceKey) == Sort(RequiredOnly(now), ReferenceKey)
  {
    RelevantAre(s, required, optional, digest, refs);
    RelevantAre(t, required, optional, digest, now);
    var a, b := Sort(RequiredOnly(refs), ReferenceKey), Sort(RequiredOnly(now), ReferenceKey);
    if SameContext(s, t, required, digest) {
      forall i | 0 <= i < |a| ensures a[i] == b[i] {
        assert MakeReference(s, required[i], true, digest) == Some(a[i]);
        assert MakeReference(t, required[i], true, digest) == Some(b[i]);
      }
    }
    if a == b {
      forall i | 0 <= i < |required|
        ensures MakeReference(s, required[i], true, digest) == MakeReference(t, required[i], true, digest)
      {
        assert MakeReference(s, required[i], true, digest) == Some(a[i]);
        assert MakeReference(t, required[i], true, digest) == Some(b[i]);
      }
    }
  }

  /* ---------- When a decision is stale ---------- */

  /** The context of a decision is fingerprinted alike exactly when the required context is the same. */
  lemma ContextPrintsAgree(
      s: Snapshot, t: Snapshot, required: seq<ContextRequirement>, optional: seq<ContextRequirement>,
      digest: Text -> Text, engineDigest: Text -> Text, refs: seq<Reference>, now: seq<Reference>,
      p: Fingerprint, q: Fingerprint)
    requires Strict(required, ContextKey) && Strict(optional, ContextKey) && Injective(engineDigest)
    requires ReferencesFor(s, required, optional, digest) == Some(refs)
    requires ReferencesFor(t, required, optional, digest) == Some(now)
    requires FingerprintOf(ContextPrint, RelevantDocument(refs), CanonicalEngine(engineDigest)) == Some(p)
    requires FingerprintOf(ContextPrint, RelevantDocument(now), CanonicalEngine(engineDigest)) == Some(q)
    ensures p == q <==> SameContext(s, t, required, digest)
  {
    SameContextSameDocument(s, t, required, optional, digest, refs, now);
    if p == q {
      FingerprintDetermines(ContextPrint, RelevantDocument(refs), RelevantDocument(now), engineDigest);
      RelevantDocumentInjective(refs, now);
    }
  }

  /** Every requested capability has the same contract in both registries, or none in either. */
  ghost predicate SameContracts(a: Registry, b: Registry, capabilities: seq<Text>)
  {
    forall i :: 0 <= i < |capabilities| ==> ContractFor(a, capabilities[i]) == ContractFor(b, capabilities[i])
  }

  lemma ContractPrintsAgree(
      a: Registry, b: Registry, capabilities: seq<Text>, engineDigest: Text -> Text, p: Fingerprint, q: Fingerprint)
    requires RegistryOk(a) && RegistryOk(b) && Injective(engineDigest)
    requires ContractPrintOf(a, capabilities, CanonicalEngine(engineDigest)) == Some(p)
    requires ContractPrintOf(b, capabilities, CanonicalEngine(engineDigest)) == Some(q)
    ensures p == q <==> SameContracts(a, b, capabilities)
  {
    if p == q {
      FingerprintDetermines(
        ContractPrint, RegistryDocument(a, capabilities), RegistryDocument(b, capabilities), engineDigest);
      RegistryDocumentInjective(a, b, capabilities);
      forall i | 0 <= i < |capabilities| ensures ContractFor(a, capabilities[i]) == ContractFor(b, capabilities[i]) {
        assert Contracts(a, capabilities)[i] == Contracts(b, capabilities)[i];
      }
    }
    if SameContracts(a, b, capabilities) {
      assert Contracts(a, capabilities) == Contracts(b, capabilities);
    }
  }

  lemma RequestPrintsAgree(a: Request, b: Request, engineDigest: Text -> Text, p: Fingerprint, q: Fingerprint)
    requires RequestStored(a) && RequestStored(b) && Injective(engineDigest)
    requires FingerprintOf(RequestPrint, RequestDocument(a), CanonicalEngine(engineDigest)) == Some(p)
    requires FingerprintOf(RequestPrint, RequestDocument(b), CanonicalEngine(engineDigest)) == Some(q)
    ensures p == q <==> a == b
  {
    if p == q {
      FingerprintDetermines(RequestPrint, RequestDocument(a), RequestDocument(b), engineDigest);
      RequestDocumentInjective(a, b);
    }
  }

  /** The request carries the fingerprint of its document. */
  ghost predicate PrintedBy(x: Inputs, engineDigest: Text -> Text)
  {
    x.env.engine == CanonicalEngine(engineDigest) &&
    FingerprintOf(RequestPrint, RequestDocument(x.request), x.env.engine) == Some(x.requestPrint)
  }

  /** The required context of a decision, as it was merged. */
  function RequiredContext(d: Decision): seq<ContextRequirement>
  {
    Named(d.arguments.references, true)
  }

  ghost predicate Reports(d: Decision, y: Inputs, r: Report)
  {
    Observed(d, y.registry, y.snapshot, y.env, r.now.contractPrint, r.now.contextPrint) &&
    r.prior == Recorded(d) && r.now.requestPrint == y.requestPrint && r.now.owner == y.snapshot.owner && ReportOk(r)
  }

  lemma RecordedContext(x: Inputs, d: Decision) returns (g: Assembly, c: Choice)
    requires InputsOk(x) && Decides(x, d)
    ensures DecidesBy(x, g, c, d) && d.arguments == Assemble(x, g, c)
    ensures FingerprintOf(ContextPrint, RelevantDocument(g.references), x.env.engine) == Some(d.contextPrint)
    ensures Strict(g.merges.context, ContextKey) && RequiredContext(d) == g.merges.context
  {
    g, c :| DecidesBy(x, g, c, d);
    DecisionParts(x, g, c, d);
    NamesRecorded(x.snapshot, g.merges.context, x.request.optional, x.env.digest, g.references);
  }

  lemma ContextStale(x: Inputs, y: Inputs, engineDigest: Text -> Text, d: Decision, r: Report)
    requires InputsOk(x) && Decides(x, d) && x.env.engine == CanonicalEngine(engineDigest) && y.env == x.env
    requires Injective(engineDigest) && Reports(d, y, r)
    ensures r.prior.contextPrint == r.now.contextPrint <==>
      SameContext(x.snapshot, y.snapshot, RequiredContext(d), x.env.digest)
  {
    var g, c := RecordedContext(x, d);
    var now :| ReferencesNow(d, y.snapshot, y.env, now) &&
      FingerprintOf(ContextPrint, RelevantDocument(now), y.env.engine) == Some(r.now.contextPrint);
    AskAgain(x.snapshot, y.snapshot, g.merges.context, x.request.optional, x.env.digest, g.references);
    ContextPrintsAgree(
      x.snapshot, y.snapshot, g.merges.context, x.request.optional, x.env.digest, engineDigest, g.references, now,
      d.contextPrint, r.now.contextPrint);
  }

  lemma ContractStale(x: Inputs, y: Inputs, engineDigest: Text -> Text, d: Decision, r: Report)
    requires InputsOk(x) && Decides(x, d) && x.env.engine == CanonicalEngine(engineDigest) && y.env == x.env
    requires RegistryOk(y.registry) && Injective(engineDigest) && Reports(d, y, r)
    ensures r.prior.contractPrint == r.now.contractPrint <==>
      SameContracts(x.registry, y.registry, Capabilities(x.request))
  {
    var g, c := RecordedContext(x, d);
    ContractPrintsAgree(
      x.registry, y.registry, Capabilities(x.request), engineDigest, g.contractPrint, r.now.contractPrint);
  }

  /**
   With an injective digest a decision is stale exactly when the request, the owner, the contract of
   a requested capability or the reference to a required context changed; each reason is reported
   exactly when it applies.  Neither optional context nor the snapshot version matters.
   */
  lemma StaleExactly(x: Inputs, y: Inputs, engineDigest: Text -> Text, d: Decision, r: Report)
    requires InputsOk(x) && InputsOk(y) && y.env == x.env && Injective(engineDigest)
    requires PrintedBy(x, engineDigest) && PrintedBy(y, engineDigest) && Decides(x, d) && Reports(d, y, r)
    ensures RequestChanged in r.reasons <==> y.request != x.request
    ensures OwnerChanged in r.reasons <==> y.snapshot.owner != x.snapshot.owner
    ensures ContractChanged in r.reasons <==> !SameContracts(x.registry, y.registry, Capabilities(x.request))
    ensures ContextChanged in r.reasons <==>
      !SameContext(x.snapshot, y.snapshot, RequiredContext(d), x.env.digest)
    ensures r.current <==>
      y.request == x.request && y.snapshot.owner == x.snapshot.owner &&
      SameContracts(x.registry, y.registry, Capabilities(x.request)) &&
      SameContext(x.snapshot, y.snapshot, RequiredContext(d), x.env.digest)
  {
    var g, c := RecordedContext(x, d);
    RequestPrintsAgree(x.request, y.request, engineDigest, x.requestPrint, y.requestPrint);
    ContractStale(x, y, engineDigest, d, r);
    ContextStale(x, y, engineDigest, d, r);
    ReportReasons(r);
  }

  lemma ReportReasons(r: Report)
    requires ReportOk(r)
    ensures RequestChanged in r.reasons <==> r.prior.requestPrint != r.now.requestPrint
    ensures OwnerChanged in r.reasons <==> r.prior.owner != r.now.owner
    ensures ContractChanged in r.reasons <==> r.prior.contractPrint != r.now.contractPrint
    ensures ContextChanged in r.reasons <==> r.prior.contextPrint != r.now.contextPrint
    ensures r.current <==>
      r.prior.requestPrint == r.now.requestPrint && r.prior.owner == r.now.owner &&
      r.prior.contractPrint == r.now.contractPrint && r.prior.contextPrint == r.now.contextPrint
  {
    forall s: StaleReason ensures s in r.reasons <==> s in Expected(r.prior, r.now) {
      assert s in r.reasons <==> s in SetOf(r.reasons);
    }
    if r.reasons == [] {
      assert Expected(r.prior, r.now) == {};
      assert RequestChanged !in Expected(r.prior, r.now) && OwnerChanged !in Expected(r.prior, r.now);
      assert ContractChanged !in Expected(r.prior, r.now) && ContextChanged !in Expected(r.prior, r.now);
    } else {
      assert r.reasons[0] in Expected(r.prior, r.now);
    }
  }

  /** Nothing has changed: revalidation sees what the decision recorded, whatever the digest. */
  lemma UnchangedObserved(x: Inputs, d: Decision)
    requires InputsOk(x) && Decides(x, d)
    ensures Observed(d, x.registry, x.snapshot, x.env, d.arguments.contractPrint, d.contextPrint)
  {
    var g, c := RecordedContext(x, d);
    AskAgain(x.snapshot, x.snapshot, g.merges.context, x.request.optional, x.env.digest, g.references);
    assert ReferencesNow(d, x.snapshot, x.env, g.references);
  }

  lemma ObservedUnique(
      d: Decision, registry: Registry, snapshot: Snapshot, env: Environment, a: Fingerprint, b: Fingerprint,
      p: Fingerprint, q: Fingerprint)
    requires Observed(d, registry, snapshot, env, a, p) && Observed(d, registry, snapshot, env, b, q)
    ensures a == b && p == q
  {
  }

  lemma UnchangedCurrent(x: Inputs, d: Decision, r: Report)
    requires InputsOk(x) && Decides(x, d) && Reports(d, x, r)
    ensures r.current && r.reasons == []
  {
    var g, c := RecordedContext(x, d);
    UnchangedObserved(x, d);
    ObservedUnique(
      d, x.registry, x.snapshot, x.env, d.arguments.contractPrint, r.now.contractPrint, d.contextPrint,
      r.now.contextPrint);
    ReportReasons(r);
  }

  lemma PrintKinds(x: Inputs, d: Decision)
    requires InputsOk(x) && Decides(x, d)
    ensures KindsOk(Recorded(d))
  {
    var g, c := RecordedContext(x, d);
    KindOfPrint(ContextPrint, RelevantDocument(g.references), x.env.engine, d.contextPrint);
    KindOfPrint(
      ContractPrint, RegistryDocument(x.registry, Capabilities(x.request)), x.env.engine, g.contractPrint);
    assert Recorded(d).requestPrint == x.requestPrint && Recorded(d).contractPrint == g.contractPrint;
  }

  lemma KindOfPrint(kind: FingerprintKind, j: Json, engine: Engine, p: Fingerprint)
    requires FingerprintOf(kind, j, engine) == Some(p)
    ensures p.kind == kind
  {
  }

  /** Revalidating with the same request, registry and snapshot always succeeds and is current. */
  method RevalidateUnchanged(x: Inputs, d: Decision) returns (r: Revalidated)
    requires InputsOk(x) && Decides(x, d)
    ensures r.Reported? && r.report.current && r.report.reasons == []
  {
    PrintKinds(x, d);
    UnchangedObserved(x, d);
    r := Revalidate(x.snapshot.owner, d, x.requestPrint, x.registry, x.snapshot, x.env);
    UnchangedCurrent(x, d, r.report);
  }
}
