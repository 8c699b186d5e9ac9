/**
 Properties of whole runs of the depth adapter.
 */
module DepthTheorems {
  import opened Basics
  import opened Ordering
  import opened Depth
  import opened DepthInvariants

  /* ---------- Lifecycle ---------- */

  /** In a reachable state the check for a half-configured active adapter never fires. */
  lemma DeadBranch(cfg: Config, s: State, h: Half, now: int)
    requires Invariant(cfg, s)
    ensures Enter(cfg, s, h, now) != Refuse(MalformedInput, Errored, 0)
  {
  }

  lemma {:induction false} FinalizedAbsorbing(cfg: Config, r: Run, m: nat, n: nat)
    requires IsRun(cfg, r)
    requires m <= n <= |r.calls| && r.states[m].lifecycle.Finalized?
    ensures r.states[n].lifecycle.Finalized?
    decreases n
  {
    if m < n {
      FinalizedAbsorbing(cfg, r, m, n - 1);
      assert Linked(cfg, r, n - 1);
      StaysFinalized(cfg, r.states[n - 1], r.calls[n - 1]);
    }
  }

  lemma StaysFinalized(cfg: Config, s: State, c: Call)
    requires s.lifecycle.Finalized?
    ensures Next(cfg, s, c).state.lifecycle.Finalized?
  {
  }

  /** The two states agree on the fields that only lifecycle calls set. */
  ghost predicate SameStage(s: State, t: State)
  {
    t.source == s.source && t.calibration == s.calibration && t.lifecycle == s.lifecycle &&
    t.session == s.session && t.epoch == s.epoch
  }

  lemma EvictStage(cfg: Config, s: State, time: int)
    ensures SameStage(s, Evict(cfg, s, time)) && Evict(cfg, s, time).last == s.last
  {
    EvictThins(cfg, s, time);
  }

  lemma PairStage(s: State, time: int)
    requires s.source.Some? && s.calibration.Some? && s.session.Some?
    ensures SameStage(s, TryPair(s, time).state)
    ensures TryPair(s, time).state.last == s.last || TryPair(s, time).state.last == Some(time)
  {
  }

  lemma StoreStage(s: State, h: Half)
    ensures SameStage(s, Store(s, h)) && Store(s, h).last == s.last
  {
  }

  /** The submission passed the entry checks, and nothing of its kind and time is pending. */
  ghost predicate Accepted(cfg: Config, s: State, h: Half, now: int)
  {
    Enter(cfg, s, h, now).Pass? && Pending(s, h).None?
  }

  /** The state in which the pair is looked for. */
  function Stored(cfg: Config, s: State, h: Half): State
  {
    Evict(cfg, Store(s, h), HeaderOf(h).time)
  }

  lemma StoredStage(cfg: Config, s: State, h: Half)
    ensures SameStage(s, Stored(cfg, s, h)) && Stored(cfg, s, h).last == s.last
  {
    StoreStage(s, h);
    EvictStage(cfg, Store(s, h), HeaderOf(h).time);
  }

  lemma SubmitStored(cfg: Config, s: State, h: Half, now: int)
    requires Accepted(cfg, s, h, now)
    ensures var t := Stored(cfg, s, h);
      t.source.Some? && t.calibration.Some? && t.session.Some? &&
      Submit(cfg, s, h, now) == TryPair(t, HeaderOf(h).time)
  {
    StoredStage(cfg, s, h);
  }

  lemma SubmitAside(cfg: Config, s: State, h: Half, now: int)
    requires !Accepted(cfg, s, h, now)
    ensures SameStage(s, Submit(cfg, s, h, now).state) && Submit(cfg, s, h, now).state.last == s.last
    ensures Submit(cfg, s, h, now).reply.Quiet? || Submit(cfg, s, h, now).reply == Raised(BadClock)
  {
  }

  /** A submission changes none of these fields. */
  lemma SubmitFrame(cfg: Config, s: State, h: Half, now: int)
    ensures SameStage(s, Submit(cfg, s, h, now).state)
    ensures !Submit(cfg, s, h, now).reply.Opened?
  {
    if Accepted(cfg, s, h, now) {
      SubmitStored(cfg, s, h, now);
      StoredStage(cfg, s, h);
      PairStage(Stored(cfg, s, h), HeaderOf(h).time);
    } else {
      SubmitAside(cfg, s, h, now);
    }
  }

  /** An activation takes the next epoch until the epochs saturate; nothing else changes it. */
  lemma EpochNext(cfg: Config, s: State, c: Call)
    requires Invariant(cfg, s)
    ensures var r := Next(cfg, s, c);
      r.state.epoch == if r.reply.Opened? then Inc(s.epoch) else s.epoch
    ensures Next(cfg, s, c).reply.Opened? ==> s.lifecycle.Inactive?
  {
    match c
    case CallSubmit(h, now) => SubmitFrame(cfg, s, h, now);
    case CallConfigure(_, _) =>
    case CallActivate =>
    case CallDeactivate =>
    case CallCleanup =>
    case CallShutdown =>
  }

  /** No activation among calls i to n - 1. */
  ghost predicate SameStint(r: Run, i: nat, n: nat)
    requires n <= |r.replies|
  {
    forall k :: i <= k < n ==> !r.replies[k].Opened?
  }

  lemma EpochStep(cfg: Config, r: Run, n: nat)
    requires IsRun(cfg, r) && n < |r.calls|
    ensures r.states[n].epoch <= MAX_COUNT
    ensures r.states[n + 1].epoch == if r.replies[n].Opened? then Inc(r.states[n].epoch) else r.states[n].epoch
  {
    assert Linked(cfg, r, n);
    Reachable(cfg, r, n);
    EpochNext(cfg, r.states[n], r.calls[n]);
  }

  lemma {:induction false} EpochsGrow(cfg: Config, r: Run, i: nat, n: nat)
    requires IsRun(cfg, r)
    requires i <= n <= |r.calls|
    ensures r.states[i].epoch <= r.states[n].epoch
    ensures r.states[n].epoch < MAX_COUNT && !SameStint(r, i, n) ==>
      r.states[i].epoch < r.states[n].epoch
    decreases n
  {
    if i < n {
      EpochsGrow(cfg, r, i, n - 1);
      EpochStep(cfg, r, n - 1);
    }
  }

  /* ---------- Admissions ---------- */

  lemma OnlyStoredPairs(cfg: Config, s: State, h: Half, now: int)
    requires Submit(cfg, s, h, now).reply.Admitted? || Submit(cfg, s, h, now).reply == Raised(AdmissionRefused)
    ensures Accepted(cfg, s, h, now)
  {
    if !Accepted(cfg, s, h, now) {
      SubmitAside(cfg, s, h, now);
    }
  }

  /** The identities of calibration and source that an admission compares. */
  predicate SameIdentities(s: State)
    requires s.source.Some? && s.calibration.Some?
  {
    s.calibration.value.calibrationId == s.source.value.calibrationId &&
    s.calibration.value.recordId == s.source.value.recordId
  }

  /** Frame f was put together from the two halves. */
  ghost predicate Joins(f: Frame, image: Image, info: Info)
  {
    f.width == image.width == info.calibration.width && f.height == image.height == info.calibration.height &&
    f.pixels == image.pixels && f.calibrationId == info.calibration.calibrationId &&
    f.time == image.header.time == info.header.time && f.session == image.header.session == info.header.session
  }

  lemma PairOutcome(s: State, time: int)
    requires s.source.Some? && s.calibration.Some? && s.session.Some? && ImagesHeld(s) && InfosHeld(s)
    ensures var r := TryPair(s, time).reply;
      r.Admitted? || r == Raised(AdmissionRefused) <==>
      time in s.images && time in s.infos && s.images[time].width == s.infos[time].calibration.width &&
      s.images[time].height == s.infos[time].calibration.height
    ensures TryPair(s, time).reply == Raised(AdmissionRefused) ==> !SameIdentities(s)
    ensures TryPair(s, time).reply.Admitted? ==>
      var a := TryPair(s, time).reply.admission;
      SameIdentities(s) && AdmissionOk(a) && a.requirement == RequirementOf(s.source.value) &&
      a.session == s.session.value && a.frame.time == time && time in s.images && time in s.infos &&
      Joins(a.frame, s.images[time], s.infos[time])
  {
  }

  lemma AcceptedState(s: State, time: int)
    requires s.source.Some? && s.calibration.Some? && s.session.Some?
    requires TryPair(s, time).reply.Admitted?
    ensures TryPair(s, time).state.last == Some(time)
  {
  }

  /** The half h and the other one, whichever came first. */
  ghost predicate Completes(s: State, h: Half, image: Image, info: Info)
  {
    match h
    case ImageHalf(x) => image == x && x.header.time in s.infos && info == s.infos[x.header.time]
    case InfoHalf(x) => info == x && x.header.time in s.images && image == s.images[x.header.time]
  }

  lemma StoredFrame(cfg: Config, s: State, h: Half, now: int)
    requires Invariant(cfg, s) && Accepted(cfg, s, h, now)
    ensures var t := Stored(cfg, s, h);
      SameStage(s, t) && t.last == s.last && t.source.Some? && t.calibration.Some? && t.session.Some? &&
      ImagesHeld(t) && InfosHeld(t)
  {
    PassMeansActive(cfg, s, h, now);
    StoredStage(cfg, s, h);
    StoreKeeps(cfg, s, h, now);
    EvictKeeps(cfg, Store(s, h), HeaderOf(h).time);
  }

  lemma StoredHalves(cfg: Config, s: State, h: Half, now: int)
    requires Invariant(cfg, s) && Accepted(cfg, s, h, now)
    requires var t, time := Stored(cfg, s, h), HeaderOf(h).time; time in t.images && time in t.infos
    ensures var t, time := Stored(cfg, s, h), HeaderOf(h).time;
      Completes(s, h, t.images[time], t.infos[time])
  {
    EvictThins(cfg, Store(s, h), HeaderOf(h).time);
  }

  /**
   Every admission matches the requirement of the source in place, joins the submitted half with the
   pending one of the same time and session, lies within retention and future skew of the clock of
   the completing call, and is later than what was accepted before in the session.
   */
  lemma AdmissionSound(cfg: Config, s: State, h: Half, now: int, a: Admission)
    returns (image: Image, info: Info)
    requires Invariant(cfg, s) && Submit(cfg, s, h, now).reply == Admitted(a)
    ensures s.source.Some? && s.session == Some(a.session) && s.lifecycle.Active?
    ensures AdmissionOk(a) && a.requirement == RequirementOf(s.source.value)
    ensures Completes(s, h, image, info) && Joins(a.frame, image, info)
    ensures now - cfg.retention <= a.frame.time <= now + cfg.skew && a.frame.time == HeaderOf(h).time
    ensures s.last.Some? ==> s.last.value < a.frame.time
    ensures Submit(cfg, s, h, now).state.last == Some(a.frame.time)
  {
    OnlyStoredPairs(cfg, s, h, now);
    PassMeansActive(cfg, s, h, now);
    StoredFrame(cfg, s, h, now);
    var t, time := Stored(cfg, s, h), HeaderOf(h).time;
    SubmitStored(cfg, s, h, now);
    PairOutcome(t, time);
    AcceptedState(t, time);
    StoredHalves(cfg, s, h, now);
    image, info := t.images[time], t.infos[time];
  }

  /** A pair is turned down by the admission exactly when calibration and source differ in identity. */
  lemma RefusedExactly(cfg: Config, s: State, h: Half, now: int)
    requires Invariant(cfg, s) && s.source.Some? && s.calibration.Some?
    requires Submit(cfg, s, h, now).reply.Admitted? || Submit(cfg, s, h, now).reply == Raised(AdmissionRefused)
    ensures Submit(cfg, s, h, now).reply == Raised(AdmissionRefused) <==> !SameIdentities(s)
  {
    OnlyStoredPairs(cfg, s, h, now);
    StoredFrame(cfg, s, h, now);
    SubmitStored(cfg, s, h, now);
    PairOutcome(Stored(cfg, s, h), HeaderOf(h).time);
  }

  /* ---------- When calibration and source fit ---------- */

  /** The calibration in place belongs to the source in place. */
  predicate Fitting(s: State)
  {
    s.source.Some? && s.calibration.Some? ==> CalibrationFits(s.calibration.value, s.source.value)
  }

  /** Call c puts a source in place, or removes the one in place. */
  predicate Places(s: State, c: Call)
  {
    match c
    case CallConfigure(resolved, _) => (s.lifecycle.Unconfigured? || s.lifecycle.Inactive?) && resolved.Some?
    case CallCleanup => !s.lifecycle.Active? && !s.lifecycle.Finalized?
    case CallShutdown => true
    case _ => false
  }

  /** The new source fits the calibration given with it, or the one in place if the one given does not fit. */
  predicate PlacesFitting(s: State, c: Call)
    requires Places(s, c)
  {
    match c
    case CallConfigure(resolved, calibration) =>
      calibration.None? || CalibrationFits(calibration.value, resolved.value) ||
      s.calibration.None? || CalibrationFits(s.calibration.value, resolved.value)
    case _ => true
  }

  /** Exactly when calibration and source fit after a call. */
  lemma FittingExactly(cfg: Config, s: State, c: Call)
    ensures Fitting(Next(cfg, s, c).state) <==> if Places(s, c) then PlacesFitting(s, c) else Fitting(s)
  {
    if c.CallSubmit? {
      SubmitFrame(cfg, s, c.half, c.now);
    }
  }

  /** Call m is the last one before n that concerns the source in place. */
  ghost predicate LastPlacing(r: Run, m: nat, n: nat)
    requires |r.states| == |r.calls| + 1 && n <= |r.calls|
  {
    m < n && Places(r.states[m], r.calls[m]) && forall k :: m < k < n ==> !Places(r.states[k], r.calls[k])
  }

  /** Over a run, calibration and source fit exactly if the last call that concerned the source left them so. */
  lemma {:induction false} FitsExactly(cfg: Config, r: Run, n: nat)
    requires IsRun(cfg, r) && n <= |r.calls|
    ensures Fitting(r.states[n]) <==>
      forall m: nat :: LastPlacing(r, m, n) ==> PlacesFitting(r.states[m], r.calls[m])
    decreases n
  {
    if n > 0 {
      var k: nat := n - 1;
      assert Linked(cfg, r, k);
      FittingExactly(cfg, r.states[k], r.calls[k]);
      FitsExactly(cfg, r, k);
      if Places(r.states[k], r.calls[k]) {
        assert forall m: nat :: LastPlacing(r, m, n) <==> m == k;
      } else {
        assert forall m: nat :: LastPlacing(r, m, n) <==> LastPlacing(r, m, k);
      }
    }
  }

  /** Call i installed this calibration, which fits the source configured with it. */
  ghost predicate InstalledBy(r: Run, i: nat, n: nat, c: Calibration)
    requires n <= |r.calls|
  {
    i < n && r.calls[i].CallConfigure? && r.calls[i].resolved.Some? && r.calls[i].calibration == Some(c) &&
    CalibrationFits(c, r.calls[i].resolved.value)
  }

  lemma CalibrationKept(cfg: Config, s: State, c: Call)
    ensures var t := Next(cfg, s, c).state;
      t.calibration == s.calibration || t.calibration == None ||
      (c.CallConfigure? && c.resolved.Some? && t.calibration == c.calibration &&
      CalibrationFits(t.calibration.value, c.resolved.value))
  {
    if c.CallSubmit? {
      SubmitFrame(cfg, s, c.half, c.now);
    }
  }

  /** The calibration in place was installed together with a source it fits. */
  lemma {:induction false} CalibrationInstalled(cfg: Config, r: Run, n: nat) returns (i: nat)
    requires IsRun(cfg, r) && n <= |r.calls| && r.states[n].calibration.Some?
    ensures InstalledBy(r, i, n, r.states[n].calibration.value)
    decreases n
  {
    var k: nat := if n > 0 then n - 1 else 0;
    assert n > 0;
    assert Linked(cfg, r, k);
    CalibrationKept(cfg, r.states[k], r.calls[k]);
    if r.states[n].calibration == r.states[k].calibration {
      i := CalibrationInstalled(cfg, r, k);
    } else {
      i := k;
    }
  }

  /* ---------- Runs without a failed configuration ---------- */

  /** No configuration among the first n calls failed on its calibration. */
  ghost predicate Clean(r: Run, n: nat)
    requires n <= |r.replies|
  {
    forall k :: 0 <= k < n ==> r.replies[k] != Raised(WrongCalibration)
  }

  lemma {:induction false} CleanFits(cfg: Config, r: Run, n: nat)
    requires IsRun(cfg, r)
    requires n <= |r.calls| && Clean(r, n)
    ensures Fitting(r.states[n])
    decreases n
  {
    if n > 0 {
      CleanFits(cfg, r, n - 1);
      assert Linked(cfg, r, n - 1) && r.replies[n - 1] != Raised(WrongCalibration);
      FittingExactly(cfg, r.states[n - 1], r.calls[n - 1]);
    }
  }

  /** On such runs no admission is turned down. */
  lemma CleanNeverRefused(cfg: Config, r: Run, n: nat)
    requires IsRun(cfg, r)
    requires n < |r.calls| && Clean(r, n)
    ensures r.replies[n] != Raised(AdmissionRefused)
  {
    var s := r.states[n];
    Reachable(cfg, r, n);
    assert Linked(cfg, r, n);
    CleanFits(cfg, r, n);
    match r.calls[n]
    case CallSubmit(h, now) =>
      if Submit(cfg, s, h, now).reply == Raised(AdmissionRefused) {
        OnlyStoredPairs(cfg, s, h, now);
        PassMeansActive(cfg, s, h, now);
        RefusedExactly(cfg, s, h, now);
      }
    case _ =>
  }

  /* ---------- Times increase within a session ---------- */

  /** Since call i accepted time t, the adapter is inactive or has accepted nothing earlier. */
  lemma {:induction false} LastGrows(cfg: Config, r: Run, i: nat, n: nat, t: int)
    requires IsRun(cfg, r)
    requires i <= n <= |r.calls| && SameStint(r, i, n)
    requires r.states[i].last.Some? && t <= r.states[i].last.value
    ensures var s := r.states[n];
      s.lifecycle.Active? ==> s.last.Some? && t <= s.last.value
    decreases n
  {
    if i < n {
      LastGrows(cfg, r, i, n - 1, t);
      assert Linked(cfg, r, n - 1);
      Reachable(cfg, r, n - 1);
      assert !r.replies[n - 1].Opened?;
      LastKept(cfg, r.states[n - 1], r.calls[n - 1], t);
    }
  }

  lemma LastKept(cfg: Config, s: State, c: Call, t: int)
    requires Invariant(cfg, s) && !Next(cfg, s, c).reply.Opened?
    requires s.lifecycle.Active? ==> s.last.Some? && t <= s.last.value
    ensures LastAtLeast(Next(cfg, s, c).state, t)
  {
    if c.CallSubmit? {
      SubmitFrame(cfg, s, c.half, c.now);
      SubmitLast(cfg, s, c.half, c.now);
      StageLast(s, Submit(cfg, s, c.half, c.now).state, t);
    } else {
      LifecycleLast(cfg, s, c, t);
    }
  }

  ghost predicate LastAtLeast(s: State, t: int)
  {
    s.lifecycle.Active? ==> s.last.Some? && t <= s.last.value
  }

  lemma StageLast(s: State, u: State, t: int)
    requires SameStage(s, u) && LastAtLeast(s, t)
    requires u.last == s.last || (u.last.Some? && (s.last.Some? ==> s.last.value < u.last.value))
    ensures LastAtLeast(u, t)
  {
  }

  lemma LifecycleLast(cfg: Config, s: State, c: Call, t: int)
    requires Invariant(cfg, s) && !c.CallSubmit? && !Next(cfg, s, c).reply.Opened? && LastAtLeast(s, t)
    ensures LastAtLeast(Next(cfg, s, c).state, t)
  {
  }

  /** A submission leaves the last accepted time, or makes it the submitted one. */
  lemma SubmitLast(cfg: Config, s: State, h: Half, now: int)
    requires Invariant(cfg, s)
    ensures var u := Submit(cfg, s, h, now).state;
      u.last == s.last || (u.last == Some(HeaderOf(h).time) && (s.last.Some? ==> s.last.value < u.last.value))
  {
    if Accepted(cfg, s, h, now) {
      PassMeansActive(cfg, s, h, now);
      SubmitStored(cfg, s, h, now);
      StoredStage(cfg, s, h);
      PairStage(Stored(cfg, s, h), HeaderOf(h).time);
    } else {
      SubmitAside(cfg, s, h, now);
    }
  }

  lemma AdmittedAt(cfg: Config, r: Run, n: nat) returns (image: Image, info: Info)
    requires IsRun(cfg, r)
    requires n < |r.calls| && r.replies[n].Admitted?
    ensures Invariant(cfg, r.states[n]) && r.states[n].lifecycle.Active? && r.calls[n].CallSubmit?
    ensures var a := r.replies[n].admission;
      r.states[n].session == Some(a.session) && r.states[n + 1].last == Some(a.frame.time) &&
      (r.states[n].last.Some? ==> r.states[n].last.value < a.frame.time) &&
      Completes(r.states[n], r.calls[n].half, image, info) && Joins(a.frame, image, info)
  {
    Reachable(cfg, r, n);
    assert Linked(cfg, r, n);
    image, info := AdmissionSound(
      cfg, r.states[n], r.calls[n].half, r.calls[n].now, r.replies[n].admission);
  }

  /** Without an activation in between, a later admission has a later time. */
  lemma StintIncreases(cfg: Config, r: Run, i: nat, j: nat)
    requires IsRun(cfg, r)
    requires i < j < |r.calls| && SameStint(r, i, j)
    requires r.replies[i].Admitted? && r.replies[j].Admitted?
    ensures r.replies[i].admission.frame.time < r.replies[j].admission.frame.time
  {
    var _, _ := AdmittedAt(cfg, r, i);
    var _, _ := AdmittedAt(cfg, r, j);
    LastGrows(cfg, r, i + 1, j, r.replies[i].admission.frame.time);
  }

  ghost predicate Injective(f: (Text, int) -> Text)
  {
    forall a, m, b, n :: f(a, m) == f(b, n) ==> a == b && m == n
  }

  /** With injective session identities, one identity names one stint, until the epochs saturate. */
  lemma SessionIsStint(cfg: Config, r: Run, i: nat, j: nat)
    requires IsRun(cfg, r)
    requires i < j < |r.calls| && Injective(cfg.sessionId) && r.states[j].epoch < MAX_COUNT
    requires r.states[i].lifecycle.Active? && r.states[j].lifecycle.Active?
    requires r.states[i].session == r.states[j].session
    ensures SameStint(r, i, j)
  {
    Reachable(cfg, r, i);
    Reachable(cfg, r, j);
    EpochsGrow(cfg, r, i, j);
  }

  /** Admitted times strictly increase within a session. */
  lemma SessionIncreases(cfg: Config, r: Run, i: nat, j: nat)
    requires IsRun(cfg, r)
    requires i < j < |r.calls| && Injective(cfg.sessionId) && r.states[j].epoch < MAX_COUNT
    requires r.replies[i].Admitted? && r.replies[j].Admitted?
    requires r.replies[i].admission.session == r.replies[j].admission.session
    ensures r.replies[i].admission.frame.time < r.replies[j].admission.frame.time
  {
    var _, _ := AdmittedAt(cfg, r, i);
    var _, _ := AdmittedAt(cfg, r, j);
    SessionIsStint(cfg, r, i, j);
    StintIncreases(cfg, r, i, j);
  }
}
