/**
 Context references: which evidence of the owner's personal context a decision rests on.
 Memory and conflict identifiers are given by their text, the order they are sorted in.
 */
module References {
  import opened Basics
  import opened Ordering
  import opened Executive
  import J = JsonTree

  datatype ContextState = Unknown | Resolved | Conflicted

  datatype Reference = Reference(
    requirement: ContextRequirement,
    required: bool,
    state: ContextState,
    digests: seq<Text>,
    memories: seq<Text>,
    conflicts: seq<Text>)

  /** One value of a context entry: its canonical text and the memories that support it. */
  datatype EntryValue = EntryValue(canonical: Text, evidence: seq<Text>)

  datatype Entry = Entry(values: seq<EntryValue>, conflicts: seq<Text>)

  datatype ContextResult = ContextResult(state: ContextState, entry: Option<Entry>)

  /** One snapshot of the personal context; what it does not list is unknown. */
  datatype Snapshot = Snapshot(owner: Text, version: Text, results: map<ContextRequirement, ContextResult>)

  function GetContext(s: Snapshot, c: ContextRequirement): ContextResult
  {
    if c in s.results then s.results[c] else ContextResult(Unknown, None)
  }

  /** The checks of `ContextReference.__post_init__`. */
  predicate ReferenceOk(r: Reference)
  {
    Strict(r.digests, Identity) && Strict(r.memories, Identity) && Strict(r.conflicts, Identity) &&
    match r.state {
      case Unknown => r.digests == [] && r.memories == [] && r.conflicts == []
      case Resolved => |r.digests| == 1 && r.memories != [] && r.conflicts == []
      case Conflicted => |r.digests| >= 2 && |r.memories| >= 2 && r.conflicts != []
    }
  }

  function Digests(values: seq<EntryValue>, digest: Text -> Text): (r: seq<Text>)
    ensures |r| == |values|
  {
    if values == [] then [] else [digest(values[0].canonical)] + Digests(values[1..], digest)
  }

  function Evidence(values: seq<EntryValue>): seq<Text>
  {
    if values == [] then [] else values[0].evidence + Evidence(values[1..])
  }

  /** `_context_reference`; None when it raises. */
  function MakeReference(s: Snapshot, c: ContextRequirement, required: bool, digest: Text -> Text): (r: Option<Reference>)
    ensures r.Some? ==> r.value.requirement == c && r.value.required == required && ReferenceOk(r.value)
    ensures r.Some? ==> r.value.state == GetContext(s, c).state
  {
    var result := GetContext(s, c);
    if result.state.Unknown? then Some(Reference(c, required, Unknown, [], [], []))
    else if result.entry.None? then None
    else
      var entry := result.entry.value;
      var r := Reference(
        c, required, result.state, Sort(Digests(entry.values, digest), Identity),
        Sort(Evidence(entry.values), Identity), entry.conflicts);
      if ReferenceOk(r) then Some(r) else None
  }

  function MakeReferences(s: Snapshot, cs: seq<ContextRequirement>, required: bool, digest: Text -> Text)
    : (r: Option<seq<Reference>>)
    ensures r.Some? ==> |r.value| == |cs|
    ensures r.Some? ==> forall i :: 0 <= i < |cs| ==> MakeReference(s, cs[i], required, digest) == Some(r.value[i])
    ensures r.None? ==> exists i :: 0 <= i < |cs| && MakeReference(s, cs[i], required, digest).None?
  {
    if cs == [] then Some([])
    else
      match MakeReference(s, cs[0], required, digest)
      case None => None
      case Some(first) =>
        match MakeReferences(s, cs[1..], required, digest)
        case None => None
        case Some(rest) => Some([first] + rest)
  }

  /** The optional requirements that are not required anyway. */
  function OnlyOptional(required: seq<ContextRequirement>, optional: seq<ContextRequirement>): seq<ContextRequirement>
  {
    if optional == [] then []
    else (if optional[0] in required then [] else [optional[0]]) + OnlyOptional(required, optional[1..])
  }

  function ReferenceKey(r: Reference): Key
  {
    [if r.required then 0 else 1] + ContextKey(r.requirement)
  }

  /** `_references_for` */
  function ReferencesFor(
      s: Snapshot, required: seq<ContextRequirement>, optional: seq<ContextRequirement>, digest: Text -> Text)
    : Option<seq<Reference>>
  {
    match MakeReferences(s, required, true, digest)
    case None => None
    case Some(first) =>
      match MakeReferences(s, OnlyOptional(required, optional), false, digest)
      case None => None
      case Some(rest) => Some(Sort(first + rest, ReferenceKey))
  }

  /* ---------- What the references are ---------- */

  lemma {:induction false} OnlyOptionalMembers(required: seq<ContextRequirement>, optional: seq<ContextRequirement>)
    ensures forall c :: c in OnlyOptional(required, optional) <==> c in optional && c !in required
  {
    if optional != [] {
      OnlyOptionalMembers(required, optional[1..]);
      assert optional == [optional[0]] + optional[1..];
    }
  }

  lemma {:induction false} OnlyOptionalStrict(required: seq<ContextRequirement>, optional: seq<ContextRequirement>)
    requires Strict(optional, ContextKey)
    ensures Strict(OnlyOptional(required, optional), ContextKey)
  {
    if optional != [] {
      StrictTail(optional, ContextKey);
      OnlyOptionalStrict(required, optional[1..]);
      OnlyOptionalMembers(required, optional[1..]);
      var rest := OnlyOptional(required, optional[1..]);
      if optional[0] !in required {
        forall i | 0 <= i < |rest|
          ensures Leq(ContextKey(optional[0]), ContextKey(rest[i])) && ContextKey(optional[0]) != ContextKey(rest[i])
        {
          assert rest[i] in optional[1..];
          var k :| 0 <= k < |optional| - 1 && optional[1..][k] == rest[i];
          assert optional[k + 1] == rest[i];
        }
        StrictFront(optional[0], rest, ContextKey);
      }
    }
  }

  /** refs are the references for the requirements cs, one by one. */
  ghost predicate Matches(
      s: Snapshot, cs: seq<ContextRequirement>, required: bool, digest: Text -> Text, refs: seq<Reference>)
  {
    |refs| == |cs| && forall i :: 0 <= i < |cs| ==> MakeReference(s, cs[i], required, digest) == Some(refs[i])
  }

  lemma MatchesStrict(
      s: Snapshot, cs: seq<ContextRequirement>, required: bool, digest: Text -> Text, refs: seq<Reference>)
    requires Matches(s, cs, required, digest, refs) && Strict(cs, ContextKey)
    ensures Strict(refs, ReferenceKey)
    ensures forall i :: 0 <= i < |refs| ==> refs[i].requirement == cs[i] && refs[i].required == required
  {
    forall i | 0 <= i < |refs| ensures refs[i].requirement == cs[i] && refs[i].required == required {
      assert MakeReference(s, cs[i], required, digest) == Some(refs[i]);
    }
    forall i, j | 0 <= i < j < |refs|
      ensures Leq(ReferenceKey(refs[i]), ReferenceKey(refs[j])) && ReferenceKey(refs[i]) != ReferenceKey(refs[j])
    {
      SameRank(refs[i], refs[j]);
    }
  }

  lemma SameRank(a: Reference, b: Reference)
    requires a.required == b.required
    ensures Less(ReferenceKey(b), ReferenceKey(a)) <==> Less(ContextKey(b.requirement), ContextKey(a.requirement))
    ensures ReferenceKey(a) == ReferenceKey(b) <==> ContextKey(a.requirement) == ContextKey(b.requirement)
  {
    var x, y := ReferenceKey(a), ReferenceKey(b);
    assert x[1..] == ContextKey(a.requirement) && y[1..] == ContextKey(b.requirement);
    assert x[0] == y[0];
  }

  lemma StrictJoin(a: seq<Reference>, b: seq<Reference>)
    requires Strict(a, ReferenceKey) && Strict(b, ReferenceKey)
    requires forall i :: 0 <= i < |a| ==> a[i].required
    requires forall i :: 0 <= i < |b| ==> !b[i].required
    ensures Strict(a + b, ReferenceKey)
  {
    var r := a + b;
    forall i, j | 0 <= i < j < |r|
      ensures Leq(ReferenceKey(r[i]), ReferenceKey(r[j])) && ReferenceKey(r[i]) != ReferenceKey(r[j])
    {
      if j < |a| {
        assert r[i] == a[i] && r[j] == a[j];
      } else if i >= |a| {
        assert r[i] == b[i - |a|] && r[j] == b[j - |a|];
      } else {
        assert ReferenceKey(r[i])[0] == 0 && ReferenceKey(r[j])[0] == 1;
      }
    }
  }

  /** The references for canonical requirements come out in canonical order: required ones first. */
  lemma ReferencesInOrder(
      s: Snapshot, required: seq<ContextRequirement>, optional: seq<ContextRequirement>, digest: Text -> Text,
      refs: seq<Reference>)
    returns (first: seq<Reference>, rest: seq<Reference>)
    requires Strict(required, ContextKey) && Strict(optional, ContextKey)
    requires ReferencesFor(s, required, optional, digest) == Some(refs)
    ensures refs == first + rest && Strict(refs, ReferenceKey)
    ensures Matches(s, required, true, digest, first)
    ensures Matches(s, OnlyOptional(required, optional), false, digest, rest)
    ensures forall i :: 0 <= i < |first| ==> first[i].required && first[i].requirement == required[i]
    ensures forall i :: 0 <= i < |rest| ==> !rest[i].required
  {
    first := MakeReferences(s, required, true, digest).value;
    rest := MakeReferences(s, OnlyOptional(required, optional), false, digest).value;
    OnlyOptionalStrict(required, optional);
    MatchesStrict(s, required, true, digest, first);
    MatchesStrict(s, OnlyOptional(required, optional), false, digest, rest);
    StrictJoin(first, rest);
    SortOfSorted(first + rest, ReferenceKey);
  }

  function RequirementOf(r: Reference): ContextRequirement
  {
    r.requirement
  }

  /** No requirement is referenced twice. */
  lemma {:induction false} RequirementsDistinct(
      s: Snapshot, required: seq<ContextRequirement>, optional: seq<ContextRequirement>, digest: Text -> Text,
      refs: seq<Reference>)
    requires Strict(required, ContextKey) && Strict(optional, ContextKey)
    requires ReferencesFor(s, required, optional, digest) == Some(refs)
    ensures Distinct(Map(RequirementOf, refs))
  {
    var first, rest := ReferencesInOrder(s, required, optional, digest, refs);
    var only := OnlyOptional(required, optional);
    OnlyOptionalMembers(required, optional);
    OnlyOptionalStrict(required, optional);
    MatchesStrict(s, only, false, digest, rest);
    var names := Map(RequirementOf, refs);
    forall i, j | 0 <= i < j < |names| ensures names[i] != names[j] {
      if j < |first| {
        assert names[i] == required[i] && names[j] == required[j];
        assert ContextKey(required[i]) != ContextKey(required[j]);
      } else {
        assert names[j] == only[j - |first|];
        assert names[j] in only;
        if i < |first| {
          assert names[i] == required[i];
          assert names[i] in required;
        } else {
          assert names[i] == only[i - |first|];
          assert ContextKey(only[i - |first|]) != ContextKey(only[j - |first|]);
        }
      }
    }
  }

  /* ---------- The document of the relevant context ---------- */

  const REFERENCE_FIELDS :=
    ["conflict_ids", "domain", "memory_ids", "predicate", "required", "state", "value_digests"]
  const CONTEXT_DOCUMENT_FIELDS := ["references", "schema"]

  function StateText(s: ContextState): string
  {
    match s
    case Unknown => "unknown"
    case Resolved => "resolved"
    case Conflicted => "conflicted"
  }

  function ReferenceItems(r: Reference): (js: seq<Json>)
    ensures |js| == 7
  {
    [List(TextDocument, r.conflicts), J.Str(r.requirement.domain), List(TextDocument, r.memories),
     J.Str(r.requirement.topic), J.Bool(r.required), Literal(StateText(r.state)), List(TextDocument, r.digests)]
  }

  function ReferenceDocument(r: Reference): Json
  {
    Record(REFERENCE_FIELDS, ReferenceItems(r))
  }

  function RequiredOnly(refs: seq<Reference>): (r: seq<Reference>)
    ensures forall i :: 0 <= i < |r| ==> r[i].required && r[i] in refs
  {
    if refs == [] then []
    else
      var rest := RequiredOnly(refs[1..]);
      if refs[0].required then [refs[0]] + rest else rest
  }

  /** What `relevant_context_fingerprint` digests: the required references only. */
  function RelevantDocument(refs: seq<Reference>): Json
  {
    Record(CONTEXT_DOCUMENT_FIELDS,
           [List(ReferenceDocument, Sort(RequiredOnly(refs), ReferenceKey)),
            Literal("ayyo.executive.relevant-context.v1")])
  }

  lemma ReferenceNames()
    ensures DistinctNames(REFERENCE_FIELDS) && DistinctNames(CONTEXT_DOCUMENT_FIELDS)
  {
  }

  lemma StateTextInjective(a: ContextState, b: ContextState)
    requires StateText(a) == StateText(b)
    ensures a == b
  {
  }

  lemma ReferenceDetermined(a: Reference, b: Reference)
    requires J.Same(ReferenceDocument(a), ReferenceDocument(b))
    ensures a == b
  {
    ReferenceNames();
    var xs, ys := ReferenceItems(a), ReferenceItems(b);
    RecordSame(REFERENCE_FIELDS, xs, ys);
    assert J.Same(xs[0], ys[0]) && J.Same(xs[1], ys[1]) && J.Same(xs[2], ys[2]) && J.Same(xs[3], ys[3]);
    assert J.Same(xs[4], ys[4]) && J.Same(xs[5], ys[5]) && J.Same(xs[6], ys[6]);
    TextsSame(a.conflicts, b.conflicts);
    TextsSame(a.memories, b.memories);
    TextsSame(a.digests, b.digests);
    LiteralSame(StateText(a.state), StateText(b.state));
    StateTextInjective(a.state, b.state);
  }

  lemma ReferenceWellFormed(r: Reference)
    ensures J.WellFormed(ReferenceDocument(r))
  {
    ReferenceNames();
    TextsWellFormed(r.conflicts);
    TextsWellFormed(r.memories);
    TextsWellFormed(r.digests);
    RecordWellFormed(REFERENCE_FIELDS, ReferenceItems(r));
  }

  lemma ReferenceDetermines()
    ensures Determines(ReferenceDocument, Anything<Reference>) && Yields(ReferenceDocument, Anything<Reference>)
  {
    forall x: Reference, y: Reference | J.Same(ReferenceDocument(x), ReferenceDocument(y)) ensures x == y {
      ReferenceDetermined(x, y);
    }
    forall x: Reference ensures J.WellFormed(ReferenceDocument(x)) {
      ReferenceWellFormed(x);
    }
  }

  lemma RelevantDocumentWellFormed(refs: seq<Reference>)
    ensures J.WellFormed(RelevantDocument(refs))
  {
    ReferenceNames();
    ReferenceDetermines();
    var sorted := Sort(RequiredOnly(refs), ReferenceKey);
    ListWellFormed(ReferenceDocument, Anything<Reference>, sorted);
    RecordWellFormed(
      CONTEXT_DOCUMENT_FIELDS,
      [List(ReferenceDocument, sorted), Literal("ayyo.executive.relevant-context.v1")]);
  }

  /** The document of the relevant context determines the required references. */
  lemma {:induction false} RelevantDocumentInjective(a: seq<Reference>, b: seq<Reference>)
    requires J.Same(RelevantDocument(a), RelevantDocument(b))
    ensures Sort(RequiredOnly(a), ReferenceKey) == Sort(RequiredOnly(b), ReferenceKey)
  {
    ReferenceNames();
    ReferenceDetermines();
    var xs, ys := Sort(RequiredOnly(a), ReferenceKey), Sort(RequiredOnly(b), ReferenceKey);
    var last := Literal("ayyo.executive.relevant-context.v1");
    RecordSame(CONTEXT_DOCUMENT_FIELDS, [List(ReferenceDocument, xs), last], [List(ReferenceDocument, ys), last]);
    assert J.Same([List(ReferenceDocument, xs), last][0], [List(ReferenceDocument, ys), last][0]);
    ListSame(ReferenceDocument, Anything<Reference>, xs, ys);
  }
}
