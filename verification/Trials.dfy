/**
 The evidence of offline evaluation: corpora of demonstration episodes, candidate policies and
 the results of trials, and the checks that rebuild each of them.
 */
module Trials {
  import opened Basics
  import opened Ordering

  const MAX_EPISODES: nat := 16
  const MAX_REASONS: nat := 8
  const MAX_METRICS: nat := 8
  const MAX_COMPONENT: nat := 1_000_000_000

  datatype Partition = CandidateEvidence | HoldoutEvaluation

  /** What an episode or a trial ended with. */
  datatype Outcome = Success | Failure | Deferred | Rejected | Incomplete | Unknown

  datatype Episode = Episode(id: Text, hash: Text, partition: Partition, outcome: Outcome)

  datatype EvidenceSet = EvidenceSet(id: Text, hash: Text, partition: Partition, episodes: seq<Episode>)

  datatype Corpus = Corpus(candidates: EvidenceSet, holdout: EvidenceSet)

  datatype Candidate = Candidate(id: Text, hash: Text, evidenceId: Text, evidenceHash: Text)

  datatype Status = Match | Mismatch | Unfinished

  datatype TrialReason = ExpectedObserved | DifferentObserved | ResultUnavailable | ResultRejected | UnsupportedResult

  datatype Metric = Metric(id: Text, numerator: int, denominator: int)

  datatype Observation = Observation(
    candidateId: Text,
    candidateHash: Text,
    episode: Text,
    episodeHash: Text,
    expected: Outcome,
    observed: Option<Outcome>,
    status: Status,
    reasons: seq<TrialReason>,
    metrics: seq<Metric>,
    source: Text,
    sourceHash: Text)

  /** A trial result carries the identity that its content hashes to. */
  datatype Trial = Trial(id: Text, content: Observation)

  /** The content hashes of evidence, and the checks of values that are not modelled. */
  datatype Hashes = Hashes(
    trial: Observation -> Text,
    setHash: (Partition, seq<Episode>) -> Text,
    setId: (Partition, Text) -> Text,
    fits: Corpus -> bool,
    genuine: Candidate -> bool)

  function EpisodeKey(e: Episode): Key
  {
    e.id
  }

  function MetricKey(m: Metric): Key
  {
    m.id
  }

  function ReasonText(r: TrialReason): string
  {
    match r
    case ExpectedObserved => "expected_outcome_observed"
    case DifferentObserved => "different_outcome_observed"
    case ResultUnavailable => "result_unavailable"
    case ResultRejected => "result_rejected"
    case UnsupportedResult => "unsupported_result"
  }

  function ReasonKey(r: TrialReason): Key
  {
    Word(ReasonText(r))
  }

  /* ---------- Trials ---------- */

  predicate MetricOk(m: Metric)
  {
    0 <= m.numerator <= MAX_COMPONENT && 1 <= m.denominator <= MAX_COMPONENT
  }

  predicate MetricsOk(ms: seq<Metric>)
  {
    |ms| <= MAX_METRICS && DistinctKeys(ms, MetricKey) && forall i :: 0 <= i < |ms| ==> MetricOk(ms[i])
  }

  /** The reasons that may be given for a status. */
  function Allowed(s: Status): set<TrialReason>
  {
    match s
    case Match => {ExpectedObserved}
    case Mismatch => {DifferentObserved}
    case Unfinished => {ResultUnavailable, ResultRejected, UnsupportedResult}
  }

  predicate ReasonsOk(s: Status, rs: seq<TrialReason>)
  {
    1 <= |rs| <= MAX_REASONS && DistinctKeys(rs, ReasonKey) && forall i :: 0 <= i < |rs| ==> rs[i] in Allowed(s)
  }

  predicate StatusOk(c: Observation)
  {
    match c.status
    case Match => c.observed == Some(c.expected)
    case Mismatch => c.observed.Some? && c.observed != Some(c.expected)
    case Unfinished => c.observed.None?
  }

  predicate ObservationOk(c: Observation)
  {
    StatusOk(c) && ReasonsOk(c.status, c.reasons) && MetricsOk(c.metrics)
  }

  /** Reasons and metrics are stored sorted. */
  function Arranged(c: Observation): Observation
  {
    c.(reasons := Sort(c.reasons, ReasonKey), metrics := Sort(c.metrics, MetricKey))
  }

  /** `OfflineTrialResult._initialize` */
  function MakeTrial(h: Hashes, c: Observation): Option<Trial>
  {
    if ObservationOk(c) then Some(Trial(h.trial(Arranged(c)), Arranged(c))) else None
  }

  /** `verify_trial_result`: the trial is what its own content builds. */
  predicate TrialVerified(h: Hashes, t: Trial)
  {
    MakeTrial(h, t.content) == Some(t)
  }

  /** `OfflineTrialResult.__init__`: a trial of a candidate on a holdout episode. */
  function RecordTrial(
      h: Hashes, c: Candidate, e: Episode, observed: Option<Outcome>, status: Status,
      reasons: seq<TrialReason>, metrics: seq<Metric>, source: Text, sourceHash: Text): Option<Trial>
  {
    if h.genuine(c) && e.partition == HoldoutEvaluation then
      MakeTrial(h, Observation(
        c.id, c.hash, e.id, e.hash, e.outcome, observed, status, reasons, metrics, source, sourceHash))
    else
      None
  }

  lemma {:induction false} SortedAllowed(s: Status, rs: seq<TrialReason>)
    ensures ReasonsOk(s, Sort(rs, ReasonKey)) <==> ReasonsOk(s, rs)
  {
    var sorted := Sort(rs, ReasonKey);
    if ReasonsOk(s, rs) {
      DistinctKeysMultiset(rs, sorted, ReasonKey);
      forall i | 0 <= i < |sorted| ensures sorted[i] in Allowed(s) {
        SortMember(rs, ReasonKey, sorted[i]);
      }
    }
    if ReasonsOk(s, sorted) {
      DistinctKeysMultiset(sorted, rs, ReasonKey);
      forall i | 0 <= i < |rs| ensures rs[i] in Allowed(s) {
        SortMember(rs, ReasonKey, rs[i]);
      }
    }
  }

  lemma {:induction false} SortedMetricsOk(ms: seq<Metric>)
    ensures MetricsOk(Sort(ms, MetricKey)) <==> MetricsOk(ms)
  {
    var sorted := Sort(ms, MetricKey);
    if MetricsOk(ms) {
      DistinctKeysMultiset(ms, sorted, MetricKey);
      forall i | 0 <= i < |sorted| ensures MetricOk(sorted[i]) {
        SortMember(ms, MetricKey, sorted[i]);
      }
    }
    if MetricsOk(sorted) {
      DistinctKeysMultiset(sorted, ms, MetricKey);
      forall i | 0 <= i < |ms| ensures MetricOk(ms[i]) {
        SortMember(ms, MetricKey, ms[i]);
      }
    }
  }

  /** A trial verifies exactly if its content is valid and sorted and its identity is the hash of its content. */
  lemma TrialVerifiedExactly(h: Hashes, t: Trial)
    ensures TrialVerified(h, t) <==>
            ObservationOk(t.content) && SortedBy(t.content.reasons, ReasonKey) && SortedBy(t.content.metrics, MetricKey) &&
            t.id == h.trial(t.content)
  {
    var c := t.content;
    SortSorted(c.reasons, ReasonKey);
    SortSorted(c.metrics, MetricKey);
    if SortedBy(c.reasons, ReasonKey) && SortedBy(c.metrics, MetricKey) {
      SortOfSorted(c.reasons, ReasonKey);
      SortOfSorted(c.metrics, MetricKey);
      assert Arranged(c) == c;
    }
  }

  /** Every constructed trial verifies. */
  lemma TrialMadeVerified(h: Hashes, c: Observation)
    requires MakeTrial(h, c).Some?
    ensures TrialVerified(h, MakeTrial(h, c).value)
  {
    SortedAllowed(c.status, c.reasons);
    SortedMetricsOk(c.metrics);
    SortSorted(c.reasons, ReasonKey);
    SortSorted(c.metrics, MetricKey);
    TrialVerifiedExactly(h, MakeTrial(h, c).value);
  }

  lemma {:induction false} ObservationPermuted(c: Observation, reasons: seq<TrialReason>, metrics: seq<Metric>)
    requires multiset(reasons) == multiset(c.reasons) && multiset(metrics) == multiset(c.metrics)
    requires ObservationOk(c)
    ensures ObservationOk(c.(reasons := reasons, metrics := metrics))
    ensures Sort(reasons, ReasonKey) == Sort(c.reasons, ReasonKey)
    ensures Sort(metrics, MetricKey) == Sort(c.metrics, MetricKey)
  {
    SortCanonical(c.reasons, reasons, ReasonKey);
    SortCanonical(c.metrics, metrics, MetricKey);
    SortedAllowed(c.status, c.reasons);
    SortedAllowed(c.status, reasons);
    SortedMetricsOk(c.metrics);
    SortedMetricsOk(metrics);
  }

  /** The order in which reasons and metrics are given does not matter, not even to the identity. */
  lemma TrialOrderIrrelevant(h: Hashes, c: Observation, reasons: seq<TrialReason>, metrics: seq<Metric>)
    requires multiset(reasons) == multiset(c.reasons) && multiset(metrics) == multiset(c.metrics)
    ensures MakeTrial(h, c.(reasons := reasons, metrics := metrics)) == MakeTrial(h, c)
  {
    var d := c.(reasons := reasons, metrics := metrics);
    assert d.(reasons := c.reasons, metrics := c.metrics) == c;
    if ObservationOk(d) {
      ObservationPermuted(d, c.reasons, c.metrics);
    }
    if ObservationOk(c) {
      ObservationPermuted(c, reasons, metrics);
    }
  }

  lemma DifferAt<T>(xs: seq<T>, key: T -> Key, i: nat, j: nat)
    requires DistinctKeys(xs, key) && i < j < |xs|
    ensures xs[i] != xs[j]
  {
    assert key(xs[i]) != key(xs[j]);
  }

  lemma OnlyReason(s: Status, rs: seq<TrialReason>, r: TrialReason)
    requires ReasonsOk(s, rs) && Allowed(s) == {r}
    ensures rs == [r]
  {
    assert forall i :: 0 <= i < |rs| ==> rs[i] == r;
    if |rs| >= 2 {
      DifferAt(rs, ReasonKey, 0, 1);
      assert false;
    }
  }

  /** The status of a valid trial adds nothing to its outcomes, nor do the reasons of a finished one. */
  lemma StatusDetermined(c: Observation)
    requires ObservationOk(c)
    ensures c.status == if c.observed.None? then Unfinished else if c.observed.value == c.expected then Match else Mismatch
    ensures c.status == Match ==> c.reasons == [ExpectedObserved]
    ensures c.status == Mismatch ==> c.reasons == [DifferentObserved]
  {
    if c.status == Match {
      OnlyReason(c.status, c.reasons, ExpectedObserved);
    } else if c.status == Mismatch {
      OnlyReason(c.status, c.reasons, DifferentObserved);
    }
  }

  /* ---------- Corpora ---------- */

  /** The constructor of an evidence set. */
  function MakeSet(h: Hashes, p: Partition, es: seq<Episode>): Option<EvidenceSet>
  {
    var sorted := Sort(es, EpisodeKey);
    if 1 <= |es| <= MAX_EPISODES && (forall i :: 0 <= i < |es| ==> es[i].partition == p) &&
       DistinctKeys(sorted, EpisodeKey) then
      Some(EvidenceSet(h.setId(p, h.setHash(p, sorted)), h.setHash(p, sorted), p, sorted))
    else
      None
  }

  predicate Disjoint(a: seq<Episode>, b: seq<Episode>)
  {
    forall i, j :: 0 <= i < |a| && 0 <= j < |b| ==> a[i].id != b[j].id
  }

  /** `DemonstrationEvaluationCorpus._initialize` */
  function MakeCorpus(h: Hashes, candidates: seq<Episode>, holdout: seq<Episode>): Option<Corpus>
  {
    var a, b := MakeSet(h, CandidateEvidence, candidates), MakeSet(h, HoldoutEvaluation, holdout);
    if a.Some? && b.Some? && Disjoint(a.value.episodes, b.value.episodes) && h.fits(Corpus(a.value, b.value)) then
      Some(Corpus(a.value, b.value))
    else
      None
  }

  /** `verify_corpus`: the corpus is what its own episodes build. */
  predicate CorpusVerified(h: Hashes, c: Corpus)
  {
    MakeCorpus(h, c.candidates.episodes, c.holdout.episodes) == Some(c)
  }

  /** What a verified corpus says of the episodes held out. */
  predicate HoldoutOk(c: Corpus)
  {
    1 <= |c.holdout.episodes| <= MAX_EPISODES && Strict(c.holdout.episodes, EpisodeKey) &&
    Disjoint(c.candidates.episodes, c.holdout.episodes) &&
    forall i :: 0 <= i < |c.holdout.episodes| ==> c.holdout.episodes[i].partition == HoldoutEvaluation
  }

  lemma CorpusVerifiedOk(h: Hashes, c: Corpus)
    requires CorpusVerified(h, c)
    ensures HoldoutOk(c)
  {
    SortSorted(c.holdout.episodes, EpisodeKey);
  }

  /** Every constructed corpus verifies, and is the same for any order of the episodes. */
  lemma CorpusMadeVerified(h: Hashes, a: seq<Episode>, b: seq<Episode>, a': seq<Episode>, b': seq<Episode>)
    requires MakeCorpus(h, a, b).Some? && multiset(a) == multiset(a') && multiset(b) == multiset(b')
    ensures CorpusVerified(h, MakeCorpus(h, a, b).value)
    ensures MakeCorpus(h, a', b') == MakeCorpus(h, a, b)
  {
    SetRebuilt(h, CandidateEvidence, a, a');
    SetRebuilt(h, HoldoutEvaluation, b, b');
    SetRebuilt(h, CandidateEvidence, a, Sort(a, EpisodeKey));
    SetRebuilt(h, HoldoutEvaluation, b, Sort(b, EpisodeKey));
  }

  lemma SetRebuilt(h: Hashes, p: Partition, es: seq<Episode>, es': seq<Episode>)
    requires MakeSet(h, p, es).Some? && multiset(es) == multiset(es')
    ensures MakeSet(h, p, es') == MakeSet(h, p, es)
  {
    assert |multiset(es)| == |es| && |multiset(es')| == |es'|;
    DistinctKeysMultiset(Sort(es, EpisodeKey), es, EpisodeKey);
    SortCanonical(es, es', EpisodeKey);
    forall i | 0 <= i < |es'| ensures es'[i].partition == p {
      assert es'[i] in multiset(es);
    }
  }
}
