/**
 Offline evaluation: trials are checked against a corpus and aggregated into a report, and a
 report is verified by building it again from the trials it carries.
 */
module OfflineEvaluation {
  import opened Basics
  import opened Ordering
  import opened Trials
  import opened Aggregation

  datatype Verdict = MeetsCriteria | DoesNotMeetCriteria | NotComplete

  datatype ReportReason = AllMatch | OutcomeMismatch | MissingTrial | UnfinishedTrial

  datatype Count<T> = Count(value: T, count: int)

  datatype Body = Body(
    candidate: Text,
    candidateHash: Text,
    corpus: Corpus,
    trials: seq<Trial>,
    trialIds: seq<Text>,
    evaluated: seq<Text>,
    missing: seq<Text>,
    unfinished: seq<Text>,
    statusCounts: seq<Count<Status>>,
    outcomeCounts: seq<Count<Outcome>>,
    metrics: seq<Metric>,
    covered: int,
    holdoutSize: int,
    reasons: seq<ReportReason>,
    verdict: Verdict)

  datatype Report = Report(id: Text, body: Body)

  /** The hash of a report's content, and whether its serialised form is within bounds. */
  datatype Engine = Engine(hashes: Hashes, report: Body -> Text, fits: Report -> bool)

  datatype Error = TrialError | LineageError | PartitionError | IntegrityError

  datatype Result<T> = Done(value: T) | Refused(error: Error)

  function TrialKey(t: Trial): Key
  {
    t.content.episode
  }

  function TrialId(t: Trial): Key
  {
    t.id
  }

  /* ---------- Which trials are admitted ---------- */

  predicate HasEpisode(es: seq<Episode>, id: Text)
  {
    exists i :: 0 <= i < |es| && es[i].id == id
  }

  /** `holdout_by_id.get`: the ids of the episodes are distinct. */
  function FindEpisode(es: seq<Episode>, id: Text): Option<Episode>
  {
    if es == [] then None else if es[0].id == id then Some(es[0]) else FindEpisode(es[1..], id)
  }

  /** What the check of one trial raises. */
  function Fault(c: Corpus, id: Text, hash: Text, t: Trial): Option<Error>
  {
    var reference := FindEpisode(c.holdout.episodes, t.content.episode);
    if t.content.candidateId != id || t.content.candidateHash != hash then Some(LineageError)
    else if HasEpisode(c.candidates.episodes, t.content.episode) then Some(PartitionError)
    else if reference.None? then Some(TrialError)
    else if t.content.episodeHash != reference.value.hash then Some(TrialError)
    else if t.content.expected != reference.value.outcome then Some(TrialError)
    else None
  }

  predicate Wellmade(h: Hashes, ts: seq<Trial>)
  {
    |ts| <= MAX_EPISODES && (forall i :: 0 <= i < |ts| ==> TrialVerified(h, ts[i])) &&
    DistinctKeys(ts, TrialKey) && DistinctKeys(ts, TrialId)
  }

  predicate Faultless(c: Corpus, id: Text, hash: Text, ts: seq<Trial>)
  {
    forall i :: 0 <= i < |ts| ==> Fault(c, id, hash, ts[i]).None?
  }

  predicate Admissible(h: Hashes, c: Corpus, id: Text, hash: Text, ts: seq<Trial>)
  {
    Wellmade(h, ts) && Faultless(c, id, hash, ts)
  }

  /** The error is that of the first trial found at fault. */
  ghost predicate FirstFault(c: Corpus, id: Text, hash: Text, ts: seq<Trial>, error: Error)
  {
    exists k :: 0 <= k < |ts| && Fault(c, id, hash, ts[k]) == Some(error) && Faultless(c, id, hash, ts[..k])
  }

  /** The loop of `_verified_ordered_trials`. */
  method CheckTrials(c: Corpus, id: Text, hash: Text, ts: seq<Trial>) returns (fault: Option<Error>)
    ensures fault.None? ==> Faultless(c, id, hash, ts)
    ensures fault.Some? ==> FirstFault(c, id, hash, ts, fault.value)
  {
    var i := 0;
    while i < |ts|
      invariant 0 <= i <= |ts| && Faultless(c, id, hash, ts[..i])
    {
      fault := Fault(c, id, hash, ts[i]);
      if fault.Some? {
        return;
      }
      assert ts[..i + 1] == ts[..i] + [ts[i]];
      i := i + 1;
    }
    assert ts[..i] == ts;
    return None;
  }

  /** `_verified_ordered_trials` */
  method OrderTrials(h: Hashes, c: Corpus, id: Text, hash: Text, ts: seq<Trial>) returns (r: Result<seq<Trial>>)
    ensures r.Done? <==> Admissible(h, c, id, hash, ts)
    ensures r.Done? ==> SortedBy(r.value, TrialKey) && multiset(r.value) == multiset(ts)
    ensures r.Refused? && !Wellmade(h, ts) ==> r.error == TrialError
    ensures r.Refused? && Wellmade(h, ts) ==> FirstFault(c, id, hash, ts, r.error)
  {
    if !Wellmade(h, ts) {
      return Refused(TrialError);
    }
    var fault := CheckTrials(c, id, hash, ts);
    if fault.Some? {
      FirstFaultIsFault(c, id, hash, ts, fault.value);
      return Refused(fault.value);
    }
    SortSorted(ts, TrialKey);
    return Done(Sort(ts, TrialKey));
  }

  lemma FirstFaultIsFault(c: Corpus, id: Text, hash: Text, ts: seq<Trial>, error: Error)
    requires FirstFault(c, id, hash, ts, error)
    ensures !Faultless(c, id, hash, ts)
  {
  }

  lemma {:induction false} FindEpisodeExactly(es: seq<Episode>, id: Text)
    ensures FindEpisode(es, id).Some? <==> HasEpisode(es, id)
    ensures FindEpisode(es, id).Some? ==> FindEpisode(es, id).value in es && FindEpisode(es, id).value.id == id
  {
    if es != [] && es[0].id != id {
      FindEpisodeExactly(es[1..], id);
      if HasEpisode(es, id) {
        var i :| 0 <= i < |es| && es[i].id == id;
        assert es[1..][i - 1].id == id;
      }
    }
  }

  lemma AdmissiblePermuted(h: Hashes, c: Corpus, id: Text, hash: Text, ts: seq<Trial>, us: seq<Trial>)
    requires multiset(ts) == multiset(us) && Admissible(h, c, id, hash, ts)
    ensures Admissible(h, c, id, hash, us)
  {
    assert |multiset(ts)| == |ts| && |multiset(us)| == |us|;
    DistinctKeysMultiset(ts, us, TrialKey);
    DistinctKeysMultiset(ts, us, TrialId);
    forall i | 0 <= i < |us| ensures TrialVerified(h, us[i]) && Fault(c, id, hash, us[i]).None? {
      assert us[i] in multiset(ts);
    }
  }

  /* ---------- What a report must say ---------- */

  predicate Supplied(ts: seq<Trial>, episode: Text)
  {
    exists i :: 0 <= i < |ts| && ts[i].content.episode == episode
  }

  /** A trial of the episode observed an outcome, or did not. */
  ghost predicate Tried(ts: seq<Trial>, episode: Text, finished: bool)
  {
    exists i :: 0 <= i < |ts| && ts[i].content.episode == episode && ts[i].content.observed.Some? == finished
  }

  ghost predicate Named(ts: seq<Trial>, id: Text)
  {
    exists i :: 0 <= i < |ts| && ts[i].id == id
  }

  /** A trial observed what the episode historically ended with. */
  ghost predicate Reproduced(ts: seq<Trial>, e: Episode)
  {
    exists i :: 0 <= i < |ts| && ts[i].content.episode == e.id && ts[i].content.observed == Some(e.outcome)
  }

  ghost predicate AllTried(es: seq<Episode>, ts: seq<Trial>)
  {
    forall k :: 0 <= k < |es| ==> Tried(ts, es[k].id, true)
  }

  ghost predicate AllReproduced(es: seq<Episode>, ts: seq<Trial>)
  {
    forall k :: 0 <= k < |es| ==> Reproduced(ts, es[k])
  }

  ghost predicate SomeMissing(es: seq<Episode>, ts: seq<Trial>)
  {
    exists k :: 0 <= k < |es| && !Supplied(ts, es[k].id)
  }

  ghost predicate SomeUnfinished(es: seq<Episode>, ts: seq<Trial>)
  {
    exists k :: 0 <= k < |es| && Tried(ts, es[k].id, false)
  }

  /** xs lists what satisfies p, sorted and without repetition. */
  ghost predicate Lists(xs: seq<Text>, p: Text -> bool)
  {
    Strict(xs, Identity) && forall x :: x in xs <==> p(x)
  }

  function StatusIs(s: Status): Trial -> int
  {
    (t: Trial) => if t.content.status == s then 1 else 0
  }

  function OutcomeIs(o: Outcome): Episode -> int
  {
    (e: Episode) => if e.outcome == o then 1 else 0
  }

  function StatusCounts(ts: seq<Trial>): seq<Count<Status>>
  {
    [Count(Match, Sum(StatusIs(Match), ts)), Count(Mismatch, Sum(StatusIs(Mismatch), ts)),
     Count(Unfinished, Sum(StatusIs(Unfinished), ts))]
  }

  function OutcomeCounts(es: seq<Episode>): seq<Count<Outcome>>
  {
    [Count(Success, Sum(OutcomeIs(Success), es)), Count(Failure, Sum(OutcomeIs(Failure), es)),
     Count(Deferred, Sum(OutcomeIs(Deferred), es)), Count(Rejected, Sum(OutcomeIs(Rejected), es)),
     Count(Incomplete, Sum(OutcomeIs(Incomplete), es)), Count(Unknown, Sum(OutcomeIs(Unknown), es))]
  }

  ghost function VerdictOn(es: seq<Episode>, ts: seq<Trial>): Verdict
  {
    if !AllTried(es, ts) then NotComplete else if AllReproduced(es, ts) then MeetsCriteria else DoesNotMeetCriteria
  }

  ghost function ReasonsOn(es: seq<Episode>, ts: seq<Trial>): seq<ReportReason>
  {
    (if SomeMissing(es, ts) then [MissingTrial] else []) +
    (if SomeUnfinished(es, ts) then [UnfinishedTrial] else []) +
    (if !AllTried(es, ts) then [] else if AllReproduced(es, ts) then [AllMatch] else [OutcomeMismatch])
  }

  ghost function NamedIn(ts: seq<Trial>): Text -> bool
  {
    (id: Text) => Named(ts, id)
  }

  ghost function TriedIn(ts: seq<Trial>, finished: bool): Text -> bool
  {
    (id: Text) => Tried(ts, id, finished)
  }

  ghost function MissingFrom(es: seq<Episode>, ts: seq<Trial>): Text -> bool
  {
    (id: Text) => HasEpisode(es, id) && !Supplied(ts, id)
  }

  /** The lists of ids. */
  ghost predicate ListsOn(es: seq<Episode>, ts: seq<Trial>, b: Body)
  {
    Lists(b.trialIds, NamedIn(ts)) && Lists(b.evaluated, TriedIn(ts, true)) &&
    Lists(b.unfinished, TriedIn(ts, false)) && Lists(b.missing, MissingFrom(es, ts))
  }

  /** What the body of a report says of the trials supplied, in whatever order they came. */
  ghost predicate IsBody(c: Corpus, id: Text, hash: Text, ts: seq<Trial>, b: Body)
  {
    var es := c.holdout.episodes;
    b.corpus == c && b.candidate == id && b.candidateHash == hash &&
    SortedBy(b.trials, TrialKey) && multiset(b.trials) == multiset(ts) &&
    ListsOn(es, ts, b) &&
    b.statusCounts == StatusCounts(ts) && b.outcomeCounts == OutcomeCounts(es) &&
    IsAggregate(ts, b.metrics) &&
    b.covered == |b.evaluated| && b.holdoutSize == |es| &&
    b.reasons == ReasonsOn(es, ts) && b.verdict == VerdictOn(es, ts)
  }

  ghost predicate IsReport(e: Engine, c: Corpus, id: Text, hash: Text, ts: seq<Trial>, r: Report)
  {
    IsBody(c, id, hash, ts, r.body) && r.id == e.report(r.body)
  }

  /* ---------- A report depends on the trials alone, not on their order ---------- */

  lemma ListsUnique(xs: seq<Text>, ys: seq<Text>, p: Text -> bool, q: Text -> bool)
    requires Lists(xs, p) && Lists(ys, q) && forall x :: p(x) <==> q(x)
    ensures xs == ys
  {
    SameElements(xs, ys, Identity);
    SortedUnique(xs, ys, Identity);
  }

  lemma TrialsPermuted(ts: seq<Trial>, us: seq<Trial>, id: Text)
    requires multiset(ts) == multiset(us)
    ensures Named(ts, id) ==> Named(us, id)
    ensures Supplied(ts, id) ==> Supplied(us, id)
    ensures forall f :: Tried(ts, id, f) ==> Tried(us, id, f)
  {
    forall i | 0 <= i < |ts| ensures exists j :: 0 <= j < |us| && us[j] == ts[i] {
      assert ts[i] in multiset(us);
    }
  }

  lemma ReproducedPermuted(ts: seq<Trial>, us: seq<Trial>, e: Episode)
    requires multiset(ts) == multiset(us) && Reproduced(ts, e)
    ensures Reproduced(us, e)
  {
    var i :| 0 <= i < |ts| && ts[i].content.episode == e.id && ts[i].content.observed == Some(e.outcome);
    assert ts[i] in multiset(us);
    var j :| 0 <= j < |us| && us[j] == ts[i];
  }

  lemma ListsPermuted(es: seq<Episode>, ts: seq<Trial>, us: seq<Trial>, b: Body, d: Body)
    requires multiset(ts) == multiset(us) && ListsOn(es, ts, b) && ListsOn(es, us, d)
    ensures b.trialIds == d.trialIds && b.evaluated == d.evaluated && b.unfinished == d.unfinished
    ensures b.missing == d.missing
  {
    forall id: Text
      ensures Named(ts, id) == Named(us, id) && Supplied(ts, id) == Supplied(us, id)
      ensures Tried(ts, id, true) == Tried(us, id, true) && Tried(ts, id, false) == Tried(us, id, false)
    {
      TrialsPermuted(ts, us, id);
      TrialsPermuted(us, ts, id);
    }
    ListsUnique(b.trialIds, d.trialIds, NamedIn(ts), NamedIn(us));
    ListsUnique(b.evaluated, d.evaluated, TriedIn(ts, true), TriedIn(us, true));
    ListsUnique(b.unfinished, d.unfinished, TriedIn(ts, false), TriedIn(us, false));
    ListsUnique(b.missing, d.missing, MissingFrom(es, ts), MissingFrom(es, us));
  }

  lemma FindingsPermuted(es: seq<Episode>, ts: seq<Trial>, us: seq<Trial>)
    requires multiset(ts) == multiset(us)
    ensures VerdictOn(es, ts) == VerdictOn(es, us) && ReasonsOn(es, ts) == ReasonsOn(es, us)
  {
    forall k | 0 <= k < |es|
      ensures Supplied(ts, es[k].id) == Supplied(us, es[k].id) && Reproduced(ts, es[k]) == Reproduced(us, es[k])
      ensures Tried(ts, es[k].id, true) == Tried(us, es[k].id, true)
      ensures Tried(ts, es[k].id, false) == Tried(us, es[k].id, false)
    {
      TrialsPermuted(ts, us, es[k].id);
      TrialsPermuted(us, ts, es[k].id);
      if Reproduced(ts, es[k]) {
        ReproducedPermuted(ts, us, es[k]);
      }
      if Reproduced(us, es[k]) {
        ReproducedPermuted(us, ts, es[k]);
      }
    }
  }

  lemma CountsPermuted(ts: seq<Trial>, us: seq<Trial>)
    requires multiset(ts) == multiset(us)
    ensures StatusCounts(ts) == StatusCounts(us)
  {
    SumPermuted(StatusIs(Match), ts, us);
    SumPermuted(StatusIs(Mismatch), ts, us);
    SumPermuted(StatusIs(Unfinished), ts, us);
  }

  /** The report is the same for any order of the trials: there is only one. */
  lemma ReportUnique(e: Engine, c: Corpus, id: Text, hash: Text, ts: seq<Trial>, us: seq<Trial>, r: Report, s: Report)
    requires multiset(ts) == multiset(us) && DistinctKeys(ts, TrialKey)
    requires IsReport(e, c, id, hash, ts, r) && IsReport(e, c, id, hash, us, s)
    ensures r == s
  {
    var es := c.holdout.episodes;
    DistinctKeysMultiset(ts, r.body.trials, TrialKey);
    SortedUnique(r.body.trials, s.body.trials, TrialKey);
    ListsPermuted(es, ts, us, r.body, s.body);
    FindingsPermuted(es, ts, us);
    CountsPermuted(ts, us);
    AggregateUnique(ts, us, r.body.metrics, s.body.metrics);
  }

  lemma ListsOnPermuted(es: seq<Episode>, ts: seq<Trial>, us: seq<Trial>, b: Body)
    requires multiset(ts) == multiset(us) && ListsOn(es, ts, b)
    ensures ListsOn(es, us, b)
  {
    forall x: Text
      ensures NamedIn(ts)(x) == NamedIn(us)(x) && MissingFrom(es, ts)(x) == MissingFrom(es, us)(x)
      ensures TriedIn(ts, true)(x) == TriedIn(us, true)(x) && TriedIn(ts, false)(x) == TriedIn(us, false)(x)
    {
      TrialsPermuted(ts, us, x);
      TrialsPermuted(us, ts, x);
    }
  }

  lemma AggregatePermuted(ts: seq<Trial>, us: seq<Trial>, rows: seq<Metric>)
    requires multiset(ts) == multiset(us) && IsAggregate(ts, rows)
    ensures IsAggregate(us, rows)
  {
    forall id: Text
      ensures Measured(ts, id) == Measured(us, id) && forall p :: Total(ts, id, p) == Total(us, id, p)
    {
      TotalPermuted(ts, us, id);
      TotalPermuted(us, ts, id);
    }
  }

  /** A report of some trials is the report of the same trials in any other order. */
  lemma ReportPermuted(e: Engine, c: Corpus, id: Text, hash: Text, ts: seq<Trial>, us: seq<Trial>, r: Report)
    requires multiset(ts) == multiset(us) && IsReport(e, c, id, hash, ts, r)
    ensures IsReport(e, c, id, hash, us, r)
  {
    var es := c.holdout.episodes;
    ListsOnPermuted(es, ts, us, r.body);
    AggregatePermuted(ts, us, r.body.metrics);
    FindingsPermuted(es, ts, us);
    CountsPermuted(ts, us);
  }
}
