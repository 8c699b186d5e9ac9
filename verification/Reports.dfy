/**
 How a report is built and verified, and what every report guarantees.
 */
module Reports {
  import opened Basics
  import opened Ordering
  import opened Merging
  import opened Trials
  import opened Aggregation
  import opened OfflineEvaluation

  /** What the trials admitted for a corpus satisfy. */
  ghost predicate Evidence(h: Hashes, c: Corpus, id: Text, hash: Text, ts: seq<Trial>)
  {
    HoldoutOk(c) && Admissible(h, c, id, hash, ts)
  }

  /** An admitted trial is of an episode held out, and expects what that episode ended with. */
  ghost predicate Refers(es: seq<Episode>, t: Trial)
  {
    exists k :: 0 <= k < |es| && es[k].id == t.content.episode && es[k].outcome == t.content.expected
  }

  predicate Valid(ts: seq<Trial>)
  {
    DistinctKeys(ts, TrialKey) && forall i :: 0 <= i < |ts| ==> ObservationOk(ts[i].content)
  }

  lemma EvidenceRefers(h: Hashes, c: Corpus, id: Text, hash: Text, ts: seq<Trial>)
    requires Evidence(h, c, id, hash, ts)
    ensures Valid(ts) && DistinctKeys(ts, TrialId)
    ensures forall i :: 0 <= i < |ts| ==> Refers(c.holdout.episodes, ts[i])
  {
    var es := c.holdout.episodes;
    forall i | 0 <= i < |ts| ensures ObservationOk(ts[i].content) && Refers(es, ts[i]) {
      TrialVerifiedExactly(h, ts[i]);
      assert Fault(c, id, hash, ts[i]).None?;
      FindEpisodeExactly(es, ts[i].content.episode);
    }
  }

  /* ---------- The lists ---------- */

  /** The episodes of the trials with or without an observed outcome. */
  function EpisodesWhere(ts: seq<Trial>, finished: bool): seq<Text>
  {
    if ts == [] then []
    else (if (ts[0].content.status != Unfinished) == finished then [ts[0].content.episode] else []) +
         EpisodesWhere(ts[1..], finished)
  }

  function Absent(es: seq<Episode>, ts: seq<Trial>): seq<Text>
  {
    if es == [] then []
    else (if Supplied(ts, es[0].id) then [] else [es[0].id]) + Absent(es[1..], ts)
  }

  function Ids(ts: seq<Trial>): (r: seq<Text>)
    ensures |r| == |ts| && forall i :: 0 <= i < |ts| ==> r[i] == ts[i].id
  {
    seq(|ts|, i requires 0 <= i < |ts| => ts[i].id)
  }

  lemma {:induction false} EpisodesWhereMembers(ts: seq<Trial>, finished: bool, x: Text)
    ensures x in EpisodesWhere(ts, finished) <==>
            exists i :: 0 <= i < |ts| && ts[i].content.episode == x && (ts[i].content.status != Unfinished) == finished
  {
    if ts != [] {
      var rest := EpisodesWhere(ts[1..], finished);
      EpisodesWhereMembers(ts[1..], finished, x);
      if x in rest {
        var i :| 0 <= i < |ts| - 1 && ts[1..][i].content.episode == x &&
                 (ts[1..][i].content.status != Unfinished) == finished;
        assert ts[i + 1].content.episode == x;
      }
      if i :| 0 <= i < |ts| && ts[i].content.episode == x && (ts[i].content.status != Unfinished) == finished {
        assert i > 0 ==> ts[1..][i - 1].content.episode == x;
      }
    }
  }

  lemma {:induction false} EpisodesWhereStrict(ts: seq<Trial>, finished: bool)
    requires Strict(ts, TrialKey)
    ensures Strict(EpisodesWhere(ts, finished), Identity)
  {
    if ts != [] {
      var rest := EpisodesWhere(ts[1..], finished);
      StrictTail(ts, TrialKey);
      EpisodesWhereStrict(ts[1..], finished);
      forall k | 0 <= k < |rest|
        ensures Leq(ts[0].content.episode, rest[k]) && ts[0].content.episode != rest[k]
      {
        EpisodesWhereMembers(ts[1..], finished, rest[k]);
        var i :| 0 <= i < |ts| - 1 && ts[1..][i].content.episode == rest[k];
        assert TrialKey(ts[1..][i]) == rest[k];
      }
      StrictFront(ts[0].content.episode, rest, Identity);
    }
  }

  lemma {:induction false} AbsentMembers(es: seq<Episode>, ts: seq<Trial>, x: Text)
    ensures x in Absent(es, ts) <==> HasEpisode(es, x) && !Supplied(ts, x)
  {
    if es != [] {
      AbsentMembers(es[1..], ts, x);
      assert HasEpisode(es, x) <==> es[0].id == x || HasEpisode(es[1..], x) by {
        if HasEpisode(es[1..], x) {
          var i :| 0 <= i < |es| - 1 && es[1..][i].id == x;
          assert es[i + 1].id == x;
        }
        if i :| 0 <= i < |es| && es[i].id == x {
          assert i > 0 ==> es[1..][i - 1].id == x;
        }
      }
    }
  }

  lemma {:induction false} AbsentDistinct(es: seq<Episode>, ts: seq<Trial>)
    requires Strict(es, EpisodeKey)
    ensures Strict(Absent(es, ts), Identity)
  {
    if es != [] {
      var rest := Absent(es[1..], ts);
      StrictTail(es, EpisodeKey);
      AbsentDistinct(es[1..], ts);
      forall k | 0 <= k < |rest| ensures Leq(es[0].id, rest[k]) && es[0].id != rest[k] {
        AbsentMembers(es[1..], ts, rest[k]);
        var i :| 0 <= i < |es| - 1 && es[1..][i].id == rest[k];
        assert EpisodeKey(es[1..][i]) == rest[k];
      }
      StrictFront(es[0].id, rest, Identity);
    }
  }

  lemma {:induction false} EpisodesWhereLists(ts: seq<Trial>, finished: bool)
    requires Valid(ts) && SortedBy(ts, TrialKey)
    ensures Lists(EpisodesWhere(ts, finished), TriedIn(ts, finished))
  {
    EpisodesWhereStrict(ts, finished);
    forall x ensures x in EpisodesWhere(ts, finished) <==> TriedIn(ts, finished)(x) {
      EpisodesWhereMembers(ts, finished, x);
      assert forall i :: 0 <= i < |ts| ==> (ts[i].content.status != Unfinished) == ts[i].content.observed.Some?;
    }
  }

  lemma {:induction false} AbsentLists(es: seq<Episode>, ts: seq<Trial>)
    requires Strict(es, EpisodeKey)
    ensures Lists(Sort(Absent(es, ts), Identity), MissingFrom(es, ts))
  {
    AbsentDistinct(es, ts);
    SortOfSorted(Absent(es, ts), Identity);
    forall x ensures x in Absent(es, ts) <==> MissingFrom(es, ts)(x) {
      AbsentMembers(es, ts, x);
    }
  }

  lemma IdsLists(ts: seq<Trial>)
    requires DistinctKeys(ts, TrialId)
    ensures Lists(Sort(Ids(ts), Identity), NamedIn(ts))
  {
    var ids, sorted := Ids(ts), Sort(Ids(ts), Identity);
    forall i, j | 0 <= i < j < |ids| ensures Identity(ids[i]) != Identity(ids[j]) {
      assert TrialId(ts[i]) != TrialId(ts[j]);
    }
    SortSorted(ids, Identity);
    DistinctKeysMultiset(ids, sorted, Identity);
    forall x: Text ensures x in sorted <==> NamedIn(ts)(x) {
      SortMember(ids, Identity, x);
      if Named(ts, x) {
        var i :| 0 <= i < |ts| && ts[i].id == x;
        assert ids[i] == x;
      }
    }
  }

  /* ---------- The verdict ---------- */

  predicate AnyMismatch(ts: seq<Trial>)
  {
    exists i :: 0 <= i < |ts| && ts[i].content.status == Mismatch
  }

  lemma OnlyTrial(ts: seq<Trial>, i: nat, j: nat)
    requires DistinctKeys(ts, TrialKey) && i < |ts| && j < |ts| && ts[i].content.episode == ts[j].content.episode
    ensures i == j
  {
    assert TrialKey(ts[i]) == TrialKey(ts[j]);
  }

  lemma OnlyEpisode(es: seq<Episode>, i: nat, j: nat)
    requires DistinctKeys(es, EpisodeKey) && i < |es| && j < |es| && es[i].id == es[j].id
    ensures i == j
  {
    assert EpisodeKey(es[i]) == EpisodeKey(es[j]);
  }

  /** The only trial of an episode observed a different outcome. */
  lemma MismatchOnly(ts: seq<Trial>, i: nat, e: Episode)
    requires Valid(ts) && i < |ts| && ts[i].content.status == Mismatch
    requires ts[i].content.episode == e.id && ts[i].content.expected == e.outcome
    ensures !Reproduced(ts, e)
  {
    forall j | 0 <= j < |ts| && ts[j].content.episode == e.id ensures ts[j].content.observed != Some(e.outcome) {
      OnlyTrial(ts, i, j);
    }
  }

  /** All episodes are reproduced exactly if all are tried and no trial observed a different outcome. */
  lemma ReproducedExactly(es: seq<Episode>, ts: seq<Trial>)
    requires Valid(ts) && DistinctKeys(es, EpisodeKey) && forall i :: 0 <= i < |ts| ==> Refers(es, ts[i])
    requires AllTried(es, ts)
    ensures AllReproduced(es, ts) <==> !AnyMismatch(ts)
  {
    if AnyMismatch(ts) {
      var i :| 0 <= i < |ts| && ts[i].content.status == Mismatch;
      assert Refers(es, ts[i]);
      var k :| 0 <= k < |es| && es[k].id == ts[i].content.episode && es[k].outcome == ts[i].content.expected;
      MismatchOnly(ts, i, es[k]);
    } else {
      forall k | 0 <= k < |es| ensures Reproduced(ts, es[k]) {
        assert Tried(ts, es[k].id, true);
        var i :| 0 <= i < |ts| && ts[i].content.episode == es[k].id && ts[i].content.observed.Some?;
        assert Refers(es, ts[i]);
        var m :| 0 <= m < |es| && es[m].id == ts[i].content.episode && es[m].outcome == ts[i].content.expected;
        OnlyEpisode(es, k, m);
        assert ts[i].content.status == Match;
      }
    }
  }

  lemma SomeTried(es: seq<Episode>, ts: seq<Trial>)
    requires Valid(ts) && forall i :: 0 <= i < |ts| ==> Refers(es, ts[i])
    ensures forall x :: Tried(ts, x, false) ==> SomeUnfinished(es, ts)
  {
    forall x | Tried(ts, x, false) ensures SomeUnfinished(es, ts) {
      var i :| 0 <= i < |ts| && ts[i].content.episode == x && ts[i].content.observed.None?;
      assert Refers(es, ts[i]);
      var k :| 0 <= k < |es| && es[k].id == ts[i].content.episode;
      assert Tried(ts, es[k].id, false);
    }
  }

  /** The lists that the findings are read from. */
  ghost predicate Judged(es: seq<Episode>, ts: seq<Trial>, missing: seq<Text>, unfinished: seq<Text>)
  {
    Valid(ts) && DistinctKeys(es, EpisodeKey) && (forall i :: 0 <= i < |ts| ==> Refers(es, ts[i])) &&
    Lists(missing, MissingFrom(es, ts)) && Lists(unfinished, TriedIn(ts, false))
  }

  /** The lists of missing and of unfinished episodes are empty exactly if there are none such. */
  lemma FindingsExactly(es: seq<Episode>, ts: seq<Trial>, missing: seq<Text>, unfinished: seq<Text>)
    requires Judged(es, ts, missing, unfinished)
    ensures missing != [] <==> SomeMissing(es, ts)
    ensures unfinished != [] <==> SomeUnfinished(es, ts)
    ensures AllTried(es, ts) <==> !SomeMissing(es, ts) && !SomeUnfinished(es, ts)
  {
    if missing != [] {
      assert MissingFrom(es, ts)(missing[0]);
      var k :| 0 <= k < |es| && es[k].id == missing[0];
      assert !Supplied(ts, es[k].id);
    }
    if SomeMissing(es, ts) {
      var k :| 0 <= k < |es| && !Supplied(ts, es[k].id);
      assert MissingFrom(es, ts)(es[k].id);
    }
    SomeTried(es, ts);
    if unfinished != [] {
      assert TriedIn(ts, false)(unfinished[0]);
    }
    if SomeUnfinished(es, ts) {
      var k :| 0 <= k < |es| && Tried(ts, es[k].id, false);
      assert TriedIn(ts, false)(es[k].id);
      UnfinishedNotTried(ts, es[k].id);
    }
    forall k | 0 <= k < |es| && Supplied(ts, es[k].id) ensures Tried(ts, es[k].id, true) || Tried(ts, es[k].id, false) {
      var i :| 0 <= i < |ts| && ts[i].content.episode == es[k].id;
      assert Tried(ts, es[k].id, ts[i].content.observed.Some?);
    }
  }

  /** An episode has one trial, so it is not both tried and unfinished. */
  lemma UnfinishedNotTried(ts: seq<Trial>, x: Text)
    requires DistinctKeys(ts, TrialKey)
    ensures !(Tried(ts, x, false) && Tried(ts, x, true))
  {
    if Tried(ts, x, false) && Tried(ts, x, true) {
      var i :| 0 <= i < |ts| && ts[i].content.episode == x && ts[i].content.observed.None?;
      var j :| 0 <= j < |ts| && ts[j].content.episode == x && ts[j].content.observed.Some?;
      OnlyTrial(ts, i, j);
    }
  }

  /* ---------- Building a report ---------- */

  predicate CountsOk<T>(cs: seq<Count<T>>)
  {
    forall i :: 0 <= i < |cs| ==> 0 <= cs[i].count <= MAX_EPISODES
  }

  /** What the constructors of the parts of a report check. */
  predicate PartsOk(b: Body)
  {
    CountsOk(b.statusCounts) && CountsOk(b.outcomeCounts) && forall i :: 0 <= i < |b.metrics| ==> RowOk(b.metrics[i])
  }

  /** `OfflineEvaluationReport._create` */
  function Create(e: Engine, b: Body): Option<Report>
  {
    var r := Report(e.report(b), b);
    if PartsOk(b) && e.fits(r) then Some(r) else None
  }

  lemma StatusCountsBounded(ts: seq<Trial>)
    requires |ts| <= MAX_EPISODES
    ensures CountsOk(StatusCounts(ts))
  {
    forall s ensures 0 <= Sum(StatusIs(s), ts) <= MAX_EPISODES {
      SumBound(StatusIs(s), ts, 0, 1);
    }
  }

  lemma OutcomeCountsBounded(es: seq<Episode>)
    requires |es| <= MAX_EPISODES
    ensures CountsOk(OutcomeCounts(es))
  {
    forall o ensures 0 <= Sum(OutcomeIs(o), es) <= MAX_EPISODES {
      SumBound(OutcomeIs(o), es, 0, 1);
    }
  }

  /** No part of a report is ever refused. */
  lemma PartsBounded(h: Hashes, c: Corpus, id: Text, hash: Text, ts: seq<Trial>, b: Body)
    requires Evidence(h, c, id, hash, ts) && IsBody(c, id, hash, ts, b)
    ensures PartsOk(b)
  {
    EvidenceRefers(h, c, id, hash, ts);
    StatusCountsBounded(ts);
    OutcomeCountsBounded(c.holdout.episodes);
    forall i | 0 <= i < |ts| ensures MetricsOk(ts[i].content.metrics) {
      assert ObservationOk(ts[i].content);
    }
    AggregateBounded(ts, b.metrics);
  }

  /** The findings of `_report_from_evidence`. */
  method Judge(es: seq<Episode>, ts: seq<Trial>, missing: seq<Text>, unfinished: seq<Text>)
      returns (reasons: seq<ReportReason>, verdict: Verdict)
    requires Judged(es, ts, missing, unfinished)
    ensures reasons == ReasonsOn(es, ts) && verdict == VerdictOn(es, ts)
  {
    FindingsExactly(es, ts, missing, unfinished);
    if AllTried(es, ts) {
      ReproducedExactly(es, ts);
    }
    reasons := [];
    if missing != [] {
      reasons := reasons + [MissingTrial];
    }
    if unfinished != [] {
      reasons := reasons + [UnfinishedTrial];
    }
    if missing != [] || unfinished != [] {
      verdict := NotComplete;
    } else if AnyMismatch(ts) {
      reasons := reasons + [OutcomeMismatch];
      verdict := DoesNotMeetCriteria;
    } else {
      reasons := reasons + [AllMatch];
      verdict := MeetsCriteria;
    }
  }

  /** The body of the report of trials already in order. */
  method Summarise(ghost h: Hashes, c: Corpus, id: Text, hash: Text, ordered: seq<Trial>) returns (b: Body)
    requires Evidence(h, c, id, hash, ordered) && SortedBy(ordered, TrialKey)
    ensures IsBody(c, id, hash, ordered, b)
  {
    var es := c.holdout.episodes;
    EvidenceRefers(h, c, id, hash, ordered);
    var evaluated, unfinished := EpisodesWhere(ordered, true), EpisodesWhere(ordered, false);
    var missing := Sort(Absent(es, ordered), Identity);
    EpisodesWhereLists(ordered, true);
    EpisodesWhereLists(ordered, false);
    AbsentLists(es, ordered);
    IdsLists(ordered);
    var metrics := Aggregate(ordered);
    var reasons, verdict := Judge(es, ordered, missing, unfinished);
    b := Body(
      id, hash, c, ordered, Sort(Ids(ordered), Identity), evaluated, missing, unfinished, StatusCounts(ordered),
      OutcomeCounts(es), metrics, |evaluated|, |es|, reasons, verdict);
  }

  /** A report of the trials would be too large to serialise. */
  ghost predicate TooLarge(e: Engine, c: Corpus, id: Text, hash: Text, ts: seq<Trial>)
  {
    exists r :: IsReport(e, c, id, hash, ts, r) && !e.fits(r)
  }

  /** `_report_from_evidence` */
  method BuildReport(e: Engine, c: Corpus, id: Text, hash: Text, ts: seq<Trial>) returns (r: Result<Report>)
    requires HoldoutOk(c)
    ensures r.Done? ==> Evidence(e.hashes, c, id, hash, ts) && IsReport(e, c, id, hash, ts, r.value) && e.fits(r.value)
    ensures r.Refused? && !Wellmade(e.hashes, ts) ==> r.error == TrialError
    ensures r.Refused? && Wellmade(e.hashes, ts) && !Faultless(c, id, hash, ts) ==> FirstFault(c, id, hash, ts, r.error)
    ensures r.Refused? && Admissible(e.hashes, c, id, hash, ts) ==>
              r.error == IntegrityError && TooLarge(e, c, id, hash, ts)
  {
    var ordered := OrderTrials(e.hashes, c, id, hash, ts);
    if ordered.Refused? {
      return Refused(ordered.error);
    }
    AdmissiblePermuted(e.hashes, c, id, hash, ts, ordered.value);
    var b := Summarise(e.hashes, c, id, hash, ordered.value);
    PartsBounded(e.hashes, c, id, hash, ordered.value, b);
    ghost var report := Report(e.report(b), b);
    ReportPermuted(e, c, id, hash, ordered.value, ts, report);
    var made := Create(e, b);
    if made.None? {
      assert IsReport(e, c, id, hash, ts, report) && !e.fits(report);
      return Refused(IntegrityError);
    }
    return Done(made.value);
  }

  /* ---------- Verifying a report ---------- */

  /** The report is the one its own trials have. */
  ghost predicate ReportVerified(e: Engine, r: Report)
  {
    CorpusVerified(e.hashes, r.body.corpus) && e.fits(r) &&
    Admissible(e.hashes, r.body.corpus, r.body.candidate, r.body.candidateHash, r.body.trials) &&
    IsReport(e, r.body.corpus, r.body.candidate, r.body.candidateHash, r.body.trials, r)
  }

  lemma RebuiltSame(e: Engine, r: Report, s: Report)
    requires ReportVerified(e, r)
    requires IsReport(e, r.body.corpus, r.body.candidate, r.body.candidateHash, r.body.trials, s)
    ensures r == s
  {
    ReportUnique(e, r.body.corpus, r.body.candidate, r.body.candidateHash, r.body.trials, r.body.trials, r, s);
  }

  /** `verify_evaluation_report`: rebuild the report from its evidence and compare. */
  method VerifyReport(e: Engine, r: Report) returns (ok: bool)
    ensures ok <==> ReportVerified(e, r)
  {
    var c := r.body.corpus;
    if !CorpusVerified(e.hashes, c) {
      return false;
    }
    CorpusVerifiedOk(e.hashes, c);
    var rebuilt := BuildReport(e, c, r.body.candidate, r.body.candidateHash, r.body.trials);
    if ReportVerified(e, r) {
      if rebuilt.Done? {
        RebuiltSame(e, r, rebuilt.value);
      } else {
        var s :| IsReport(e, c, r.body.candidate, r.body.candidateHash, r.body.trials, s) && !e.fits(s);
        RebuiltSame(e, r, s);
        assert false;
      }
    }
    ok := rebuilt == Done(r);
  }

  /** A report built from any admissible trials verifies: verification repeats the same computation. */
  lemma BuiltVerified(e: Engine, c: Corpus, id: Text, hash: Text, ts: seq<Trial>, r: Report)
    requires CorpusVerified(e.hashes, c) && Admissible(e.hashes, c, id, hash, ts)
    requires IsReport(e, c, id, hash, ts, r) && e.fits(r)
    ensures ReportVerified(e, r)
  {
    AdmissiblePermuted(e.hashes, c, id, hash, ts, r.body.trials);
    ReportPermuted(e, c, id, hash, ts, r.body.trials, r);
  }

  predicate Belongs(candidate: Candidate, c: Corpus)
  {
    candidate.evidenceId == c.candidates.id && candidate.evidenceHash == c.candidates.hash
  }

  /** What `evaluate_offline` asks of the corpus and the candidate. */
  predicate Suitable(e: Engine, c: Corpus, candidate: Candidate)
  {
    CorpusVerified(e.hashes, c) && e.hashes.genuine(candidate) && Belongs(candidate, c)
  }

  /** `evaluate_offline`: its final verification never fails. */
  method Evaluate(e: Engine, c: Corpus, candidate: Candidate, ts: seq<Trial>) returns (r: Result<Report>)
    ensures r.Done? <==>
            Suitable(e, c, candidate) && Admissible(e.hashes, c, candidate.id, candidate.hash, ts) &&
            !TooLarge(e, c, candidate.id, candidate.hash, ts)
    ensures r.Done? ==> IsReport(e, c, candidate.id, candidate.hash, ts, r.value) && ReportVerified(e, r.value)
    ensures !Suitable(e, c, candidate) ==> r == Refused(LineageError)
    ensures Suitable(e, c, candidate) && !Wellmade(e.hashes, ts) ==> r == Refused(TrialError)
    ensures Suitable(e, c, candidate) && Wellmade(e.hashes, ts) && !Faultless(c, candidate.id, candidate.hash, ts) ==>
              r.Refused? && FirstFault(c, candidate.id, candidate.hash, ts, r.error)
    ensures Suitable(e, c, candidate) && Admissible(e.hashes, c, candidate.id, candidate.hash, ts) && r.Refused? ==>
              r.error == IntegrityError
  {
    if !Suitable(e, c, candidate) {
      return Refused(LineageError);
    }
    CorpusVerifiedOk(e.hashes, c);
    r := BuildReport(e, c, candidate.id, candidate.hash, ts);
    if r.Done? {
      BuiltVerified(e, c, candidate.id, candidate.hash, ts, r.value);
      FittingOnly(e, c, candidate.id, candidate.hash, ts, r.value);
      var ok := VerifyReport(e, r.value);
      r := if ok then r else Refused(IntegrityError);
    }
  }

  lemma FittingOnly(e: Engine, c: Corpus, id: Text, hash: Text, ts: seq<Trial>, r: Report)
    requires Admissible(e.hashes, c, id, hash, ts) && IsReport(e, c, id, hash, ts, r) && e.fits(r)
    ensures !TooLarge(e, c, id, hash, ts)
  {
    if TooLarge(e, c, id, hash, ts) {
      var s :| IsReport(e, c, id, hash, ts, s) && !e.fits(s);
      ReportUnique(e, c, id, hash, ts, ts, r, s);
    }
  }

  /* ---------- What a report guarantees ---------- */

  /** A verified report is the report of admitted trials. */
  lemma VerifiedEvidence(e: Engine, r: Report)
    requires ReportVerified(e, r)
    ensures Evidence(e.hashes, r.body.corpus, r.body.candidate, r.body.candidateHash, r.body.trials)
  {
    CorpusVerifiedOk(e.hashes, r.body.corpus);
  }

  lemma UnionSize(xs: seq<Text>, ys: seq<Text>, zs: seq<Text>, es: seq<Episode>)
    requires Strict(xs, Identity) && Strict(ys, Identity) && Strict(zs, Identity) && Strict(es, EpisodeKey)
    requires forall x :: HasEpisode(es, x) <==> x in xs || x in ys || x in zs
    requires forall x :: !(x in xs && x in ys) && !(x in xs && x in zs) && !(x in ys && x in zs)
    ensures |xs| + |ys| + |zs| == |es|
  {
    var all, ids := xs + ys + zs, EpisodeIds(es);
    forall i, j | 0 <= i < j < |all| ensures Identity(all[i]) != Identity(all[j]) {
      Apart(xs, ys, zs, i, j);
    }
    forall i, j | 0 <= i < j < |ids| ensures Identity(ids[i]) != Identity(ids[j]) {
      assert EpisodeKey(es[i]) != EpisodeKey(es[j]);
    }
    forall i | 0 <= i < |ids| ensures ids[i] in all {
      assert HasEpisode(es, ids[i]);
    }
    forall i | 0 <= i < |all| ensures all[i] in ids {
      assert HasEpisode(es, all[i]);
      var k :| 0 <= k < |es| && es[k].id == all[i];
      assert ids[k] == all[i];
    }
    DistinctSubset(all, ids, Identity);
    DistinctSubset(ids, all, Identity);
  }

  function EpisodeIds(es: seq<Episode>): (r: seq<Text>)
    ensures |r| == |es| && forall i :: 0 <= i < |es| ==> r[i] == es[i].id
  {
    seq(|es|, i requires 0 <= i < |es| => es[i].id)
  }

  lemma Apart(xs: seq<Text>, ys: seq<Text>, zs: seq<Text>, i: nat, j: nat)
    requires DistinctKeys(xs, Identity) && DistinctKeys(ys, Identity) && DistinctKeys(zs, Identity)
    requires forall x :: !(x in xs && x in ys) && !(x in xs && x in zs) && !(x in ys && x in zs)
    requires i < j < |xs + ys + zs|
    ensures (xs + ys + zs)[i] != (xs + ys + zs)[j]
  {
    var a, b := |xs|, |xs| + |ys|;
    if j < a {
      assert Identity(xs[i]) != Identity(xs[j]);
    } else if a <= i && j < b {
      assert Identity(ys[i - a]) != Identity(ys[j - a]);
    } else if b <= i {
      assert Identity(zs[i - b]) != Identity(zs[j - b]);
    } else if i < a && j < b {
      assert xs[i] in xs && ys[j - a] in ys;
    } else if i < a {
      assert xs[i] in xs && zs[j - b] in zs;
    } else {
      assert ys[i - a] in ys && zs[j - b] in zs;
    }
  }

  /** Every episode held out is evaluated, unfinished or missing, and only one of these; nothing else is listed. */
  lemma Partition(h: Hashes, c: Corpus, id: Text, hash: Text, ts: seq<Trial>, b: Body)
    requires Evidence(h, c, id, hash, ts) && IsBody(c, id, hash, ts, b)
    ensures forall x :: HasEpisode(c.holdout.episodes, x) <==> x in b.evaluated || x in b.unfinished || x in b.missing
    ensures forall x :: !(x in b.evaluated && x in b.unfinished) && !(x in b.evaluated && x in b.missing)
    ensures forall x :: !(x in b.unfinished && x in b.missing)
    ensures |b.evaluated| + |b.unfinished| + |b.missing| == b.holdoutSize
  {
    var es := c.holdout.episodes;
    forall x: Text
      ensures HasEpisode(es, x) <==> x in b.evaluated || x in b.unfinished || x in b.missing
      ensures !(x in b.evaluated && x in b.unfinished) && !(x in b.evaluated && x in b.missing)
      ensures !(x in b.unfinished && x in b.missing)
    {
      PartitionAt(h, c, id, hash, ts, x);
      assert x in b.evaluated <==> TriedIn(ts, true)(x);
      assert x in b.unfinished <==> TriedIn(ts, false)(x);
      assert x in b.missing <==> MissingFrom(es, ts)(x);
    }
    UnionSize(b.evaluated, b.unfinished, b.missing, es);
  }

  lemma PartitionAt(h: Hashes, c: Corpus, id: Text, hash: Text, ts: seq<Trial>, x: Text)
    requires Evidence(h, c, id, hash, ts)
    ensures Supplied(ts, x) <==> Tried(ts, x, true) || Tried(ts, x, false)
    ensures Supplied(ts, x) ==> HasEpisode(c.holdout.episodes, x)
    ensures !(Tried(ts, x, true) && Tried(ts, x, false))
  {
    var es := c.holdout.episodes;
    EvidenceRefers(h, c, id, hash, ts);
    UnfinishedNotTried(ts, x);
    if Supplied(ts, x) {
      var i :| 0 <= i < |ts| && ts[i].content.episode == x;
      assert Tried(ts, x, ts[i].content.observed.Some?);
      assert Refers(es, ts[i]);
    }
  }

  lemma {:induction false} StatusTotal(ts: seq<Trial>)
    ensures Sum(StatusIs(Match), ts) + Sum(StatusIs(Mismatch), ts) + Sum(StatusIs(Unfinished), ts) == |ts|
    ensures Sum(StatusIs(Unfinished), ts) == |EpisodesWhere(ts, false)|
  {
    if ts != [] {
      StatusTotal(ts[1..]);
    }
  }

  lemma {:induction false} OutcomeTotal(es: seq<Episode>)
    ensures Sum(OutcomeIs(Success), es) + Sum(OutcomeIs(Failure), es) + Sum(OutcomeIs(Deferred), es) +
            Sum(OutcomeIs(Rejected), es) + Sum(OutcomeIs(Incomplete), es) + Sum(OutcomeIs(Unknown), es) == |es|
  {
    if es != [] {
      OutcomeTotal(es[1..]);
    }
  }

  /** Status counts add up to the trials, outcome counts to the episodes, and coverage to the finished trials. */
  lemma CountsExact(h: Hashes, c: Corpus, id: Text, hash: Text, ts: seq<Trial>, b: Body)
    requires Evidence(h, c, id, hash, ts) && IsBody(c, id, hash, ts, b)
    ensures |b.statusCounts| == 3 && |b.outcomeCounts| == 6
    ensures b.statusCounts[0].count + b.statusCounts[1].count + b.statusCounts[2].count == |ts|
    ensures b.statusCounts[0].count + b.statusCounts[1].count == b.covered
    ensures b.statusCounts[2].count == |b.unfinished|
    ensures b.outcomeCounts[0].count + b.outcomeCounts[1].count + b.outcomeCounts[2].count +
            b.outcomeCounts[3].count + b.outcomeCounts[4].count + b.outcomeCounts[5].count == b.holdoutSize
  {
    OutcomeTotal(c.holdout.episodes);
    AdmissiblePermuted(h, c, id, hash, ts, b.trials);
    EvidenceRefers(h, c, id, hash, b.trials);
    CountsPermuted(ts, b.trials);
    StatusTotal(b.trials);
    EpisodesWhereLists(b.trials, true);
    EpisodesWhereLists(b.trials, false);
    ListsOnPermuted(c.holdout.episodes, ts, b.trials, b);
    ListsUnique(b.evaluated, EpisodesWhere(b.trials, true), TriedIn(b.trials, true), TriedIn(b.trials, true));
    ListsUnique(b.unfinished, EpisodesWhere(b.trials, false), TriedIn(b.trials, false), TriedIn(b.trials, false));
    WhereTotal(b.trials);
    assert |multiset(ts)| == |ts| && |multiset(b.trials)| == |b.trials|;
  }

  lemma {:induction false} WhereTotal(ts: seq<Trial>)
    ensures |EpisodesWhere(ts, true)| + |EpisodesWhere(ts, false)| == |ts|
  {
    if ts != [] {
      WhereTotal(ts[1..]);
    }
  }

  lemma ReproducedTried(es: seq<Episode>, ts: seq<Trial>)
    requires AllReproduced(es, ts)
    ensures AllTried(es, ts)
  {
    forall k | 0 <= k < |es| ensures Tried(ts, es[k].id, true) {
      assert Reproduced(ts, es[k]);
    }
  }

  lemma VerdictExactly(es: seq<Episode>, ts: seq<Trial>, missing: seq<Text>, unfinished: seq<Text>)
    requires Judged(es, ts, missing, unfinished)
    ensures VerdictOn(es, ts) == MeetsCriteria <==> AllReproduced(es, ts)
    ensures VerdictOn(es, ts) == NotComplete <==> missing != [] || unfinished != []
  {
    FindingsExactly(es, ts, missing, unfinished);
    if AllReproduced(es, ts) {
      ReproducedTried(es, ts);
    }
  }

  lemma GivenExactly(es: seq<Episode>, ts: seq<Trial>)
    ensures AllMatch in ReasonsOn(es, ts) <==> VerdictOn(es, ts) == MeetsCriteria
    ensures OutcomeMismatch in ReasonsOn(es, ts) <==> VerdictOn(es, ts) == DoesNotMeetCriteria
    ensures MissingTrial in ReasonsOn(es, ts) <==> SomeMissing(es, ts)
    ensures UnfinishedTrial in ReasonsOn(es, ts) <==> SomeUnfinished(es, ts)
  {
    var first := if SomeMissing(es, ts) then [MissingTrial] else [];
    var second := if SomeUnfinished(es, ts) then [UnfinishedTrial] else [];
    var third :=
      if !AllTried(es, ts) then [] else if AllReproduced(es, ts) then [AllMatch] else [OutcomeMismatch];
    assert ReasonsOn(es, ts) == first + second + third;
  }

  lemma FindingsGiven(es: seq<Episode>, ts: seq<Trial>, missing: seq<Text>, unfinished: seq<Text>)
    requires Judged(es, ts, missing, unfinished)
    ensures AllMatch in ReasonsOn(es, ts) <==> VerdictOn(es, ts) == MeetsCriteria
    ensures OutcomeMismatch in ReasonsOn(es, ts) <==> VerdictOn(es, ts) == DoesNotMeetCriteria
    ensures MissingTrial in ReasonsOn(es, ts) <==> missing != []
    ensures UnfinishedTrial in ReasonsOn(es, ts) <==> unfinished != []
  {
    GivenExactly(es, ts);
    FindingsExactly(es, ts, missing, unfinished);
  }

  lemma JudgedBody(h: Hashes, c: Corpus, id: Text, hash: Text, ts: seq<Trial>, b: Body)
    requires Evidence(h, c, id, hash, ts) && IsBody(c, id, hash, ts, b)
    ensures Judged(c.holdout.episodes, ts, b.missing, b.unfinished)
    ensures b.verdict == VerdictOn(c.holdout.episodes, ts) && b.reasons == ReasonsOn(c.holdout.episodes, ts)
  {
    EvidenceRefers(h, c, id, hash, ts);
  }

  /** The criteria are met exactly if every episode held out has a trial that observed its historical outcome. */
  lemma MeetsExactly(h: Hashes, c: Corpus, id: Text, hash: Text, ts: seq<Trial>, b: Body)
    requires Evidence(h, c, id, hash, ts) && IsBody(c, id, hash, ts, b)
    ensures b.verdict == MeetsCriteria <==> AllReproduced(c.holdout.episodes, ts)
    ensures b.verdict == NotComplete <==> b.missing != [] || b.unfinished != []
    ensures b.verdict == NotComplete <==> b.covered < b.holdoutSize
  {
    JudgedBody(h, c, id, hash, ts, b);
    VerdictExactly(c.holdout.episodes, ts, b.missing, b.unfinished);
    Partition(h, c, id, hash, ts, b);
  }

  /** Each reason is given exactly if its finding holds. */
  lemma ReasonsExactly(h: Hashes, c: Corpus, id: Text, hash: Text, ts: seq<Trial>, b: Body)
    requires Evidence(h, c, id, hash, ts) && IsBody(c, id, hash, ts, b)
    ensures AllMatch in b.reasons <==> b.verdict == MeetsCriteria
    ensures OutcomeMismatch in b.reasons <==> b.verdict == DoesNotMeetCriteria
    ensures MissingTrial in b.reasons <==> b.missing != []
    ensures UnfinishedTrial in b.reasons <==> b.unfinished != []
  {
    JudgedBody(h, c, id, hash, ts, b);
    FindingsGiven(c.holdout.episodes, ts, b.missing, b.unfinished);
  }

  /** Whether the trials are evaluated, and to what report, does not depend on their order. */
  lemma OrderIrrelevant(e: Engine, c: Corpus, id: Text, hash: Text, ts: seq<Trial>, us: seq<Trial>)
    requires multiset(ts) == multiset(us)
    ensures Admissible(e.hashes, c, id, hash, ts) <==> Admissible(e.hashes, c, id, hash, us)
    ensures TooLarge(e, c, id, hash, ts) <==> TooLarge(e, c, id, hash, us)
    ensures forall r :: IsReport(e, c, id, hash, ts, r) <==> IsReport(e, c, id, hash, us, r)
  {
    if Admissible(e.hashes, c, id, hash, ts) {
      AdmissiblePermuted(e.hashes, c, id, hash, ts, us);
    }
    if Admissible(e.hashes, c, id, hash, us) {
      AdmissiblePermuted(e.hashes, c, id, hash, us, ts);
    }
    forall r ensures IsReport(e, c, id, hash, ts, r) <==> IsReport(e, c, id, hash, us, r) {
      if IsReport(e, c, id, hash, ts, r) {
        ReportPermuted(e, c, id, hash, ts, us, r);
      }
      if IsReport(e, c, id, hash, us, r) {
        ReportPermuted(e, c, id, hash, us, ts, r);
      }
    }
  }

  /** A trial the candidate recorded on an episode the corpus holds out is never at fault. */
  lemma RecordedFaultless(
      h: Hashes, c: Corpus, candidate: Candidate, k: nat, observed: Option<Outcome>, status: Status,
      reasons: seq<TrialReason>, metrics: seq<Metric>, source: Text, sourceHash: Text)
    requires HoldoutOk(c) && k < |c.holdout.episodes|
    ensures var t := RecordTrial(h, candidate, c.holdout.episodes[k], observed, status, reasons, metrics, source, sourceHash);
            t.Some? ==> TrialVerified(h, t.value) && Fault(c, candidate.id, candidate.hash, t.value).None?
  {
    var e := c.holdout.episodes[k];
    var t := RecordTrial(h, candidate, e, observed, status, reasons, metrics, source, sourceHash);
    if t.Some? {
      TrialMadeVerified(h, Observation(
        candidate.id, candidate.hash, e.id, e.hash, e.outcome, observed, status, reasons, metrics, source, sourceHash));
      FindEpisodeExactly(c.holdout.episodes, e.id);
      var m :| 0 <= m < |c.holdout.episodes| &&
               c.holdout.episodes[m] == FindEpisode(c.holdout.episodes, e.id).value;
      OnlyEpisode(c.holdout.episodes, k, m);
    }
  }

  /** Faultless trials of different episodes are never too many. */
  lemma CountImplied(c: Corpus, id: Text, hash: Text, ts: seq<Trial>)
    requires HoldoutOk(c) && Faultless(c, id, hash, ts) && DistinctKeys(ts, TrialKey)
    ensures |ts| <= MAX_EPISODES
  {
    var es := c.holdout.episodes;
    var supplied, ids := seq(|ts|, i requires 0 <= i < |ts| => ts[i].content.episode), EpisodeIds(es);
    forall i, j | 0 <= i < j < |supplied| ensures Identity(supplied[i]) != Identity(supplied[j]) {
      assert TrialKey(ts[i]) != TrialKey(ts[j]);
    }
    forall i | 0 <= i < |supplied| ensures supplied[i] in ids {
      assert Fault(c, id, hash, ts[i]).None?;
      FindEpisodeExactly(es, supplied[i]);
      var k :| 0 <= k < |es| && es[k].id == supplied[i];
      assert ids[k] == supplied[i];
    }
    DistinctSubset(supplied, ids, Identity);
  }

  /** A report that verifies has all these guarantees of the trials it carries, however it came about. */
  lemma VerifiedGuarantees(e: Engine, r: Report)
    requires ReportVerified(e, r)
    ensures var es, b := r.body.corpus.holdout.episodes, r.body;
      (forall x :: HasEpisode(es, x) <==> x in b.evaluated || x in b.unfinished || x in b.missing) &&
      |b.evaluated| + |b.unfinished| + |b.missing| == |es| &&
      (b.verdict == MeetsCriteria <==> AllReproduced(es, b.trials)) &&
      (b.verdict == NotComplete <==> b.covered < |es|) &&
      IsAggregate(b.trials, b.metrics) && forall i :: 0 <= i < |b.metrics| ==> RowOk(b.metrics[i])
  {
    var c, b := r.body.corpus, r.body;
    VerifiedEvidence(e, r);
    Partition(e.hashes, c, b.candidate, b.candidateHash, b.trials, b);
    MeetsExactly(e.hashes, c, b.candidate, b.candidateHash, b.trials, b);
    PartsBounded(e.hashes, c, b.candidate, b.candidateHash, b.trials, b);
  }
}
