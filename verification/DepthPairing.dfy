/**
 The depth adapter over runs, continued: where the halves of an admission come from, when a stored
 half is paired, what every submission is answered, and what a failed configuration leaves behind.
 */
module DepthPairing {
  import opened Basics
  import opened Ordering
  import opened Depth
  import opened DepthInvariants
  import opened DepthTheorems

  /* ---------- Provenance ---------- */

  /** Half h was submitted by one of the calls before n, with no activation since. */
  ghost predicate Came(r: Run, n: nat, h: Half)
    requires n <= |r.calls| && n <= |r.replies|
  {
    exists i :: SubmittedAt(r, i, n, h)
  }

  ghost predicate SubmittedAt(r: Run, i: nat, n: nat, h: Half)
    requires n <= |r.calls| && n <= |r.replies|
  {
    i < n && r.calls[i].CallSubmit? && r.calls[i].half == h && SameStint(r, i, n)
  }

  /** Everything pending was submitted in the present session. */
  ghost predicate PendingCame(r: Run, n: nat)
    requires n <= |r.calls| && n <= |r.replies| && n < |r.states|
  {
    (forall t {:trigger t in r.states[n].images} :: t in r.states[n].images ==>
      Came(r, n, ImageHalf(r.states[n].images[t]))) &&
    forall t {:trigger t in r.states[n].infos} :: t in r.states[n].infos ==> Came(r, n, InfoHalf(r.states[n].infos[t]))
  }

  /** What is pending after a call was pending before it, or is what the call submitted. */
  ghost predicate Inherits(s: State, c: Call, t: State)
  {
    (forall k {:trigger k in t.images} :: k in t.images ==>
      (k in s.images && t.images[k] == s.images[k]) || (c.CallSubmit? && c.half == ImageHalf(t.images[k]))) &&
    forall k {:trigger k in t.infos} :: k in t.infos ==>
      (k in s.infos && t.infos[k] == s.infos[k]) || (c.CallSubmit? && c.half == InfoHalf(t.infos[k]))
  }

  lemma StoredInherits(cfg: Config, s: State, h: Half, now: int)
    ensures Inherits(s, CallSubmit(h, now), Stored(cfg, s, h))
  {
    EvictThins(cfg, Store(s, h), HeaderOf(h).time);
  }

  lemma PairInherits(s: State, t: State, c: Call, time: int)
    requires Inherits(s, c, t) && t.source.Some? && t.calibration.Some? && t.session.Some?
    ensures Inherits(s, c, TryPair(t, time).state)
  {
    PairMaps(t, time);
    InheritsPart(s, t, TryPair(t, time).state, c);
  }

  lemma PairMaps(t: State, time: int)
    requires t.source.Some? && t.calibration.Some? && t.session.Some?
    ensures var u := TryPair(t, time).state;
      (u.images == t.images && u.infos == t.infos) || (u.images == t.images - {time} && u.infos == t.infos - {time})
  {
    if time in t.images && time in t.infos {
      var a := PairState(t, time);
      SettledMaps(Unpair(t, time), a, time);
    }
  }

  lemma PairState(t: State, time: int) returns (a: Availability)
    requires t.source.Some? && t.calibration.Some? && t.session.Some? && time in t.images && time in t.infos
    ensures var u := TryPair(t, time).state;
      u == Mismatch(Unpair(t, time), time) || u == Accept(Unpair(t, time), a, time)
  {
    a := FrameOf(Unpair(t, time), t.images[time], t.infos[time], time).availability;
  }

  lemma SettledMaps(u: State, a: Availability, time: int)
    ensures var m, n := Mismatch(u, time), Accept(u, a, time);
      m.images == u.images && m.infos == u.infos && n.images == u.images && n.infos == u.infos
  {
  }

  lemma InheritsPart(s: State, t: State, u: State, c: Call)
    requires Inherits(s, c, t) && Kept(t.images, u.images) && Kept(t.infos, u.infos)
    ensures Inherits(s, c, u)
  {
  }

  lemma NextInherits(cfg: Config, s: State, c: Call)
    ensures Inherits(s, c, Next(cfg, s, c).state)
    ensures Next(cfg, s, c).reply.Opened? ==> Next(cfg, s, c).state.images == map[] && Next(cfg, s, c).state.infos == map[]
  {
    match c
    case CallSubmit(h, now) =>
      SubmitFrame(cfg, s, h, now);
      if Accepted(cfg, s, h, now) {
        StoredInherits(cfg, s, h, now);
        SubmitStored(cfg, s, h, now);
        PairInherits(s, Stored(cfg, s, h), c, HeaderOf(h).time);
      }
    case CallConfigure(_, _) =>
    case CallActivate =>
    case CallDeactivate =>
    case CallCleanup =>
    case CallShutdown =>
  }

  lemma CameNext(r: Run, n: nat, h: Half)
    requires n < |r.calls| && n < |r.replies| && !r.replies[n].Opened?
    requires Came(r, n, h) || (r.calls[n].CallSubmit? && r.calls[n].half == h)
    ensures Came(r, n + 1, h)
  {
    if Came(r, n, h) {
      var i :| SubmittedAt(r, i, n, h);
      assert SubmittedAt(r, i, n + 1, h);
    } else {
      assert SubmittedAt(r, n, n + 1, h);
    }
  }

  lemma {:induction false} EverythingCame(cfg: Config, r: Run, n: nat)
    requires IsRun(cfg, r) && n <= |r.calls|
    ensures PendingCame(r, n)
    decreases n
  {
    if n > 0 {
      EverythingCame(cfg, r, n - 1);
      assert Linked(cfg, r, n - 1);
      NextInherits(cfg, r.states[n - 1], r.calls[n - 1]);
      if !r.replies[n - 1].Opened? {
        InheritedCame(r, n - 1);
      }
    }
  }

  lemma InheritedCame(r: Run, n: nat)
    requires n < |r.calls| && n < |r.replies| && n + 1 < |r.states| && !r.replies[n].Opened?
    requires PendingCame(r, n) && Inherits(r.states[n], r.calls[n], r.states[n + 1])
    ensures PendingCame(r, n + 1)
  {
    var s := r.states[n + 1];
    forall t | t in s.images ensures Came(r, n + 1, ImageHalf(s.images[t])) {
      CameNext(r, n, ImageHalf(s.images[t]));
    }
    forall t | t in s.infos ensures Came(r, n + 1, InfoHalf(s.infos[t])) {
      CameNext(r, n, InfoHalf(s.infos[t]));
    }
  }

  /**
   Every admission joins one image and one camera info that were both submitted, with the
   admission's time, in the session the admission names.
   */
  lemma AdmissionProvenance(cfg: Config, r: Run, n: nat) returns (image: Image, info: Info, i: nat, k: nat)
    requires IsRun(cfg, r) && n < |r.calls| && r.replies[n].Admitted?
    ensures Joins(r.replies[n].admission.frame, image, info)
    ensures SubmittedAt(r, i, n + 1, ImageHalf(image)) && SubmittedAt(r, k, n + 1, InfoHalf(info)) && (i == n || k == n)
    ensures r.states[n].session == Some(r.replies[n].admission.session)
  {
    image, info := AdmittedAt(cfg, r, n);
    EverythingCame(cfg, r, n);
    var time := HeaderOf(r.calls[n].half).time;
    match r.calls[n].half
    case ImageHalf(_) =>
      assert time in r.states[n].infos;
      CameNext(r, n, InfoHalf(info));
      i := n;
      k :| SubmittedAt(r, k, n + 1, InfoHalf(info));
    case InfoHalf(_) =>
      assert time in r.states[n].images;
      CameNext(r, n, ImageHalf(image));
      k := n;
      i :| SubmittedAt(r, i, n + 1, ImageHalf(image));
  }

  /* ---------- Pairing completeness ---------- */

  predicate SameKind(h: Half, g: Half)
  {
    h.ImageHalf? == g.ImageHalf?
  }

  /** The pending times of h's kind that are later than its own. */
  function LaterThan(s: State, h: Half): set<int>
  {
    match h
    case ImageHalf(image) => Later(s.images, image.header.time)
    case InfoHalf(info) => Later(s.infos, info.header.time)
  }

  ghost predicate IsPending(s: State, h: Half)
  {
    Pending(s, h) == Some(h)
  }

  /**
   What can end the wait of a pending half: deactivation or shutdown, a stored half too much later,
   eight later halves of its kind once the call has stored its own, or the half it waits for.
   */
  ghost predicate Disturbs(cfg: Config, s: State, c: Call, h: Half)
  {
    match c
    case CallSubmit(g, now) =>
      Accepted(cfg, s, g, now) &&
      (HeaderOf(g).time > HeaderOf(h).time + cfg.pairWait || |LaterThan(Store(s, g), h)| >= MAX_PENDING ||
       (!SameKind(g, h) && HeaderOf(g).time == HeaderOf(h).time))
    case CallDeactivate => true
    case CallShutdown => true
    case _ => false
  }

  lemma StillStored(cfg: Config, s: State, g: Half, h: Half)
    requires IsPending(s, h) && Pending(s, g).None?
    requires HeaderOf(g).time <= HeaderOf(h).time + cfg.pairWait && |LaterThan(Store(s, g), h)| < MAX_PENDING
    ensures IsPending(Stored(cfg, s, g), h)
  {
    EvictThins(cfg, Store(s, g), HeaderOf(g).time);
    StoreKeepsPending(s, g, h);
    Survived(cfg, Store(s, g), h, HeaderOf(g).time);
  }

  lemma StoreKeepsPending(s: State, g: Half, h: Half)
    requires IsPending(s, h) && Pending(s, g).None?
    ensures IsPending(Store(s, g), h)
  {
  }

  lemma Survived(cfg: Config, s: State, h: Half, newest: int)
    requires IsPending(s, h) && HeaderOf(h).time >= newest - cfg.pairWait && |LaterThan(s, h)| < MAX_PENDING
    ensures IsPending(Evict(cfg, s, newest), h)
  {
    EvictThins(cfg, s, newest);
    match h
    case ImageHalf(image) => assert Survives(s.images, newest - cfg.pairWait, image.header.time);
    case InfoHalf(info) => assert Survives(s.infos, newest - cfg.pairWait, info.header.time);
  }

  /** Pairing at another time leaves h alone. */
  lemma PairElsewhere(s: State, h: Half, time: int)
    requires s.source.Some? && s.calibration.Some? && s.session.Some?
    requires IsPending(s, h) && (time != HeaderOf(h).time || time !in s.images || time !in s.infos)
    ensures IsPending(TryPair(s, time).state, h)
  {
  }

  /** A pending half stays pending unless the call disturbs it. */
  lemma StaysPending(cfg: Config, s: State, c: Call, h: Half)
    requires Invariant(cfg, s) && IsPending(s, h) && !Disturbs(cfg, s, c, h)
    ensures IsPending(Next(cfg, s, c).state, h)
  {
    match c
    case CallSubmit(g, now) =>
      if Accepted(cfg, s, g, now) {
        StillStored(cfg, s, g, h);
        SubmitStored(cfg, s, g, now);
        OtherKindAbsent(cfg, s, g, h, now);
        PairElsewhere(Stored(cfg, s, g), h, HeaderOf(g).time);
      }
    case CallConfigure(_, _) => PendingMeansActive(cfg, s, h);
    case CallActivate => PendingMeansActive(cfg, s, h);
    case CallCleanup => PendingMeansActive(cfg, s, h);
  }

  lemma PendingMeansActive(cfg: Config, s: State, h: Half)
    requires Invariant(cfg, s) && IsPending(s, h)
    ensures s.lifecycle.Active?
  {
  }

  lemma OtherKindAbsent(cfg: Config, s: State, g: Half, h: Half, now: int)
    requires Invariant(cfg, s) && IsPending(s, h) && Accepted(cfg, s, g, now)
    requires SameKind(g, h) || HeaderOf(g).time != HeaderOf(h).time
    ensures HeaderOf(g).time != HeaderOf(h).time
  {
  }

  lemma {:induction false} StaysPendingOver(cfg: Config, r: Run, i: nat, n: nat, h: Half)
    requires IsRun(cfg, r) && i <= n <= |r.calls| && IsPending(r.states[i], h)
    requires forall k :: i <= k < n ==> !Disturbs(cfg, r.states[k], r.calls[k], h)
    ensures IsPending(r.states[n], h)
    decreases n
  {
    if i < n {
      StaysPendingOver(cfg, r, i, n - 1, h);
      Reachable(cfg, r, n - 1);
      assert Linked(cfg, r, n - 1);
      StaysPending(cfg, r.states[n - 1], r.calls[n - 1], h);
    }
  }

  /** The other half of the same measurement, with the same dimensions. */
  predicate Counterparts(h: Half, g: Half)
  {
    match (h, g)
    case (ImageHalf(a), InfoHalf(b)) =>
      a.header.time == b.header.time && a.width == b.calibration.width && a.height == b.calibration.height
    case (InfoHalf(b), ImageHalf(a)) =>
      a.header.time == b.header.time && a.width == b.calibration.width && a.height == b.calibration.height
    case _ => false
  }

  lemma FewLater<T>(pending: map<int, T>, t: int)
    requires t in pending && |pending| <= MAX_PENDING
    ensures |Later(pending, t)| < MAX_PENDING
  {
    SubsetSize(Later(pending, t), pending.Keys - {t});
    assert |pending.Keys| == |pending|;
  }

  lemma CounterpartFew(s: State, h: Half, g: Half)
    requires Held(s) && IsPending(s, h) && Counterparts(h, g)
    ensures |LaterThan(Store(s, g), h)| < MAX_PENDING
  {
    match h
    case ImageHalf(image) => FewLater(s.images, image.header.time);
    case InfoHalf(info) => FewLater(s.infos, info.header.time);
  }

  lemma StorePends(s: State, g: Half)
    ensures IsPending(Store(s, g), g) && LaterThan(Store(s, g), g) == LaterThan(s, g)
  {
    match g
    case ImageHalf(image) =>
      assert Later(s.images[image.header.time := image], image.header.time) == Later(s.images, image.header.time);
    case InfoHalf(info) =>
      assert Later(s.infos[info.header.time := info], info.header.time) == Later(s.infos, info.header.time);
  }

  /** Both halves are there when the pair is looked for. */
  lemma BothStored(cfg: Config, s: State, h: Half, g: Half, now: int)
    requires ConfigOk(cfg) && Invariant(cfg, s) && IsPending(s, h) && Counterparts(h, g)
    requires Accepted(cfg, s, g, now) && |LaterThan(s, g)| < MAX_PENDING
    ensures IsPending(Stored(cfg, s, g), h) && IsPending(Stored(cfg, s, g), g)
  {
    CounterpartFew(s, h, g);
    StillStored(cfg, s, g, h);
    StorePends(s, g);
    Survived(cfg, Store(s, g), g, HeaderOf(g).time);
  }

  lemma NotPendingTwice(cfg: Config, s: State, h: Half, g: Half)
    requires Invariant(cfg, s) && IsPending(s, h) && Counterparts(h, g)
    ensures Pending(s, g).None?
  {
  }

  /** A valid counterpart of a pending half completes it. */
  lemma CounterpartCompletes(cfg: Config, s: State, h: Half, g: Half, now: int)
    requires ConfigOk(cfg) && Invariant(cfg, s) && IsPending(s, h) && Counterparts(h, g)
    requires Enter(cfg, s, g, now).Pass? && |LaterThan(s, g)| < MAX_PENDING
    ensures Submit(cfg, s, g, now).reply.Admitted? || Submit(cfg, s, g, now).reply == Raised(AdmissionRefused)
  {
    NotPendingTwice(cfg, s, h, g);
    BothStored(cfg, s, h, g, now);
    StoredFrame(cfg, s, g, now);
    SubmitStored(cfg, s, g, now);
    PairOutcome(Stored(cfg, s, g), HeaderOf(g).time);
  }

  /**
   Pairing completeness: a half that is pending after call i and that no call up to n disturbs is
   completed by its valid counterpart at call n, if fewer than eight later halves of the counterpart's
   kind are pending.  The pair is admitted exactly if calibration and source agree in identity, and
   always on a run without a failed configuration.
   */
  lemma PairingCompletes(cfg: Config, r: Run, i: nat, n: nat, h: Half, g: Half, now: int)
    requires ConfigOk(cfg) && IsRun(cfg, r) && i <= n < |r.calls|
    requires IsPending(r.states[i], h)
    requires forall k :: i <= k < n ==> !Disturbs(cfg, r.states[k], r.calls[k], h)
    requires r.calls[n] == CallSubmit(g, now) && Counterparts(h, g)
    requires Enter(cfg, r.states[n], g, now).Pass? && |LaterThan(r.states[n], g)| < MAX_PENDING
    ensures r.states[n].source.Some? && r.states[n].calibration.Some?
    ensures r.replies[n].Admitted? <==> SameIdentities(r.states[n])
    ensures r.replies[n].Admitted? ==> r.replies[n].admission.frame.time == HeaderOf(h).time
    ensures Clean(r, n) ==> r.replies[n].Admitted?
  {
    var s := r.states[n];
    StaysPendingOver(cfg, r, i, n, h);
    Reachable(cfg, r, n);
    assert Linked(cfg, r, n);
    CounterpartCompletes(cfg, s, h, g, now);
    PendingMeansActive(cfg, s, h);
    RefusedExactly(cfg, s, g, now);
    if r.replies[n].Admitted? {
      var _, _ := AdmissionSound(cfg, s, g, now, r.replies[n].admission);
    }
    if Clean(r, n) {
      CleanNeverRefused(cfg, r, n);
    }
  }

  /* ---------- Every submission is answered once ---------- */

  function Answers(l: Ledger): nat
  {
    l.refused + l.duplicates + l.storedImages + l.storedInfos
  }

  /**
   A submission that returns, or whose admission is turned down, counts as exactly one of refused,
   duplicate and stored; one with an invalid clock counts as nothing.
   */
  lemma SubmitAnswers(cfg: Config, s: State, h: Half, now: int)
    ensures var r := Submit(cfg, s, h, now);
      Answers(r.state.ledger) == Answers(s.ledger) + if r.reply == Raised(BadClock) then 0 else 1
    ensures Submit(cfg, s, h, now).reply == Raised(BadClock) ==> Submit(cfg, s, h, now).state == s
    ensures var l, m := s.ledger, Submit(cfg, s, h, now).state.ledger;
      m.storedImages + m.storedInfos == l.storedImages + l.storedInfos + if Accepted(cfg, s, h, now) then 1 else 0
  {
    if Accepted(cfg, s, h, now) {
      SubmitStored(cfg, s, h, now);
      EvictThins(cfg, Store(s, h), HeaderOf(h).time);
      PairLedger(Stored(cfg, s, h), HeaderOf(h).time);
    }
  }

  lemma PairLedger(s: State, time: int)
    requires s.source.Some? && s.calibration.Some? && s.session.Some?
    ensures Answers(TryPair(s, time).state.ledger) == Answers(s.ledger)
    ensures TryPair(s, time).state.ledger.storedImages == s.ledger.storedImages
    ensures TryPair(s, time).state.ledger.storedInfos == s.ledger.storedInfos
    ensures TryPair(s, time).reply != Raised(BadClock)
  {
  }

  /** How many of the first n calls are submissions with a valid clock. */
  ghost function Submissions(r: Run, n: nat): nat
    requires n <= |r.calls| && n <= |r.replies|
  {
    if n == 0 then 0
    else
      Submissions(r, n - 1) + if r.calls[n - 1].CallSubmit? && r.replies[n - 1] != Raised(BadClock) then 1 else 0
  }

  /** Over a run, the submissions are the refused, the duplicate and the stored ones. */
  lemma {:induction false} AllAnswered(cfg: Config, r: Run, n: nat)
    requires IsRun(cfg, r) && n <= |r.calls|
    ensures Submissions(r, n) == Answers(r.states[n].ledger)
    decreases n
  {
    if n > 0 {
      AllAnswered(cfg, r, n - 1);
      assert Linked(cfg, r, n - 1);
      var s, c := r.states[n - 1], r.calls[n - 1];
      if c.CallSubmit? {
        SubmitAnswers(cfg, s, c.half, c.now);
      }
    }
  }

  /* ---------- The diagnostics can always be built ---------- */

  /** The checks of `DepthDiagnostics.__post_init__` on its numbers. */
  predicate DiagnosticsOk(d: Diagnostics)
  {
    0 <= d.accepted <= MAX_COUNT && 0 <= d.rejected <= MAX_COUNT && 0 <= d.duplicate <= MAX_COUNT &&
    0 <= d.evicted <= MAX_COUNT && 0 <= d.pendingImages <= MAX_PENDING && 0 <= d.pendingInfos <= MAX_PENDING &&
    0 <= d.time <= MAX_TIME
  }

  /** The diagnostics are valid, and so are the values that the next ones report. */
  ghost predicate InBounds(s: State)
  {
    Counted(s) && |s.images| <= MAX_PENDING && |s.infos| <= MAX_PENDING && DiagnosticsOk(s.diagnostics)
  }

  lemma StoredInBounds(cfg: Config, s: State, h: Half)
    requires InBounds(s) && Pending(s, h).None? && 0 <= HeaderOf(h).time <= MAX_TIME
    ensures InBounds(Stored(cfg, s, h))
  {
    var t := Store(s, h);
    EvictThins(cfg, t, HeaderOf(h).time);
    EvictSmall(cfg, t, HeaderOf(h).time);
    EvictReports(cfg, t, HeaderOf(h).time);
  }

  lemma EvictReports(cfg: Config, s: State, time: int)
    ensures var e := Evict(cfg, s, time);
      e.diagnostics == s.diagnostics || e.diagnostics == Diagnose(e, PendingEvicted, Degraded, time)
  {
  }

  lemma SettledInBounds(u: State, availability: Availability, time: int)
    requires Counted(u) && |u.images| <= MAX_PENDING && |u.infos| <= MAX_PENDING && 0 <= time <= MAX_TIME
    ensures DiagnosticsOk(Mismatch(u, time).diagnostics) && DiagnosticsOk(Accept(u, availability, time).diagnostics)
  {
    IncSaturated(u.ledger.accepted);
    IncSaturated(u.ledger.refused + u.ledger.mismatched);
  }

  lemma PairReports(s: State, time: int)
    requires s.source.Some? && s.calibration.Some? && s.session.Some? && time in s.images && time in s.infos
    ensures var u, d := Unpair(s, time), TryPair(s, time).state.diagnostics;
      d == Mismatch(u, time).diagnostics || exists a :: d == Accept(u, a, time).diagnostics
  {
  }

  lemma PairInBounds(s: State, time: int)
    requires s.source.Some? && s.calibration.Some? && s.session.Some? && InBounds(s) && 0 <= time <= MAX_TIME
    ensures DiagnosticsOk(TryPair(s, time).state.diagnostics)
  {
    if time in s.images && time in s.infos {
      RemoveOne(s.images, time);
      RemoveOne(s.infos, time);
      var u := Unpair(s, time);
      SettledInBounds(u, Available, time);
      PairReports(s, time);
      forall a ensures DiagnosticsOk(Accept(u, a, time).diagnostics) {
        SettledInBounds(u, a, time);
      }
    }
  }

  lemma RefusedInBounds(s: State, event: Event, availability: Availability, time: int)
    requires InBounds(s) && 0 <= time <= MAX_TIME
    ensures DiagnosticsOk(Reject(s, event, availability, time).diagnostics)
    ensures DiagnosticsOk(Duplicate(s, time).diagnostics)
  {
    IncSaturated(s.ledger.refused + s.ledger.mismatched);
    IncSaturated(s.ledger.duplicates);
  }

  lemma RefusalTime(cfg: Config, s: State, h: Half, now: int)
    requires Enter(cfg, s, h, now).Refuse?
    ensures Enter(cfg, s, h, now).time in {0, HeaderOf(h).time}
  {
  }

  lemma AsideInBounds(cfg: Config, s: State, h: Half, now: int)
    requires InBounds(s) && !Accepted(cfg, s, h, now) && 0 <= HeaderOf(h).time <= MAX_TIME
    ensures DiagnosticsOk(Submit(cfg, s, h, now).state.diagnostics)
  {
    match Enter(cfg, s, h, now)
    case NoClock =>
    case Refuse(event, availability, at) =>
      RefusalTime(cfg, s, h, now);
      RefusedInBounds(s, event, availability, at);
    case Repeat => RefusedInBounds(s, MalformedInput, Errored, HeaderOf(h).time);
    case Pass => RefusedInBounds(s, RepeatedTimestamp, Degraded, HeaderOf(h).time);
  }

  /** After every call the diagnostics pass the checks of their constructor. */
  lemma DiagnosticsKept(cfg: Config, s: State, c: Call)
    requires Invariant(cfg, s) && DiagnosticsOk(s.diagnostics)
    requires c.CallSubmit? ==> 0 <= HeaderOf(c.half).time <= MAX_TIME
    ensures DiagnosticsOk(Next(cfg, s, c).state.diagnostics)
  {
    match c
    case CallSubmit(h, now) =>
      if Accepted(cfg, s, h, now) {
        StoredInBounds(cfg, s, h);
        SubmitStored(cfg, s, h, now);
        PairInBounds(Stored(cfg, s, h), HeaderOf(h).time);
      } else {
        AsideInBounds(cfg, s, h, now);
      }
    case CallConfigure(_, _) => LifecycleInBounds(cfg, s, c);
    case CallActivate => LifecycleInBounds(cfg, s, c);
    case CallDeactivate => LifecycleInBounds(cfg, s, c);
    case CallCleanup => LifecycleInBounds(cfg, s, c);
    case CallShutdown => LifecycleInBounds(cfg, s, c);
  }

  /** A lifecycle call reports with nothing pending and at time zero, or not at all. */
  lemma LifecycleReports(cfg: Config, s: State, c: Call)
    requires !c.CallSubmit?
    ensures var t := Next(cfg, s, c).state;
      t.diagnostics == s.diagnostics ||
      (t.diagnostics.pendingImages == 0 && t.diagnostics.pendingInfos == 0 && t.diagnostics.time == 0 &&
      t.diagnostics.accepted == s.accepted && t.diagnostics.rejected == s.rejected &&
      t.diagnostics.duplicate == s.duplicate && t.diagnostics.evicted == s.evicted)
  {
  }

  lemma LifecycleInBounds(cfg: Config, s: State, c: Call)
    requires InBounds(s) && !c.CallSubmit?
    ensures DiagnosticsOk(Next(cfg, s, c).state.diagnostics)
  {
    LifecycleReports(cfg, s, c);
    ReportsInBounds(s, Next(cfg, s, c).state.diagnostics);
  }

  lemma ReportsInBounds(s: State, d: Diagnostics)
    requires InBounds(s)
    requires d == s.diagnostics ||
      (d.pendingImages == 0 && d.pendingInfos == 0 && d.time == 0 && d.accepted == s.accepted &&
      d.rejected == s.rejected && d.duplicate == s.duplicate && d.evicted == s.evicted)
    ensures DiagnosticsOk(d)
  {
  }

  /* ---------- After a failed configuration ---------- */

  function ExampleSource(name: Text): Source
  {
    Source(
      name, [1], Sensor([2], [3]), [4], [5], [6], name, [7], [[8]], 1, 64, 1, 64, name, name, name)
  }

  function ExampleCalibration(s: Source): Calibration
  {
    Calibration(s.id, s.sensor, s.mountFrame, s.sensor.frame, s.calibrationId, s.recordId, 2, 2)
  }

  function ExampleHeader(s: Source, session: Text): Header
  {
    Header(s.id, session, s.robot, s.sensor, s.sensor.frame, 100, s.provenance)
  }

  function ExampleImage(s: Source, session: Text): Image
  {
    Image(ExampleHeader(s, session), 2, 2, Pixels([8], 4, 8, false, 4, 0, 1.0, 1.0, [9]))
  }

  /** A configuration that fails, then a complete measurement of the source it left in place. */
  function ExampleCalls(cfg: Config): seq<Call>
  {
    var a, b := ExampleSource([10]), ExampleSource([11]);
    var c := ExampleCalibration(a);
    var session := cfg.sessionId(b.manifest, 1);
    [CallConfigure(Some(a), Some(c)), CallConfigure(Some(b), Some(c)), CallActivate,
     CallSubmit(ImageHalf(ExampleImage(b, session)), 100),
     CallSubmit(InfoHalf(Info(ExampleHeader(b, session), c)), 100)]
  }

  /**
   A failed configuration leaves the new source with the old calibration.  The pair of that source
   is then counted as accepted, and only afterwards turned down by the admission.
   */
  lemma FailedConfigureRefuses(cfg: Config, r: Run)
    requires ConfigOk(cfg) && IsRun(cfg, r) && r.calls == ExampleCalls(cfg)
    ensures r.replies[1] == Raised(WrongCalibration) && !Fitting(r.states[2])
    ensures r.replies[4] == Raised(AdmissionRefused)
    ensures r.states[5].accepted == 1 && r.states[5].last == Some(100)
  {
    ExampleConfigured(cfg, r);
    ExampleSubmitted(cfg, r);
  }

  lemma ExampleSubmitted(cfg: Config, r: Run)
    requires ConfigOk(cfg) && IsRun(cfg, r) && r.calls == ExampleCalls(cfg) && ExampleActive(cfg, r.states[3])
    ensures r.replies[4] == Raised(AdmissionRefused)
    ensures r.states[5].accepted == 1 && r.states[5].last == Some(100)
  {
    var b := ExampleSource([11]);
    var session := cfg.sessionId(b.manifest, 1);
    var image := ExampleImage(b, session);
    assert Linked(cfg, r, 3) && Linked(cfg, r, 4);
    ExampleFirst(cfg, r.states[3], image);
    Reachable(cfg, r, 4);
    ExampleSecond(cfg, r.states[4], image, Info(ExampleHeader(b, session), ExampleCalibration(ExampleSource([10]))));
  }

  lemma ExampleConfigured(cfg: Config, r: Run)
    requires IsRun(cfg, r) && r.calls == ExampleCalls(cfg)
    ensures r.replies[1] == Raised(WrongCalibration) && !Fitting(r.states[2])
    ensures ExampleActive(cfg, r.states[3])
  {
    var a, b := ExampleSource([10]), ExampleSource([11]);
    var c := ExampleCalibration(a);
    assert Linked(cfg, r, 0) && Linked(cfg, r, 1) && Linked(cfg, r, 2);
    assert a.id[0] != b.id[0];
    assert r.states[1] == Configure(BlankState(), Some(a), Some(c)).state;
    assert r.states[2] == Configure(r.states[1], Some(b), Some(c)).state;
    assert r.states[3] == Activate(cfg, r.states[2]).state;
  }

  /** The second source is active with the calibration of the first. */
  ghost predicate ExampleActive(cfg: Config, s: State)
  {
    var a, b := ExampleSource([10]), ExampleSource([11]);
    s.source == Some(b) && s.calibration == Some(ExampleCalibration(a)) && s.lifecycle.Active? &&
    s.session == Some(cfg.sessionId(b.manifest, 1)) && s.images == map[] && s.infos == map[] && s.last == None &&
    s.accepted == 0 && s.evicted == 0
  }

  lemma ExampleFirst(cfg: Config, s: State, image: Image)
    requires ConfigOk(cfg) && ExampleActive(cfg, s)
    requires image == ExampleImage(ExampleSource([11]), cfg.sessionId(ExampleSource([11]).manifest, 1))
    ensures var t := Submit(cfg, s, ImageHalf(image), 100).state;
      SameStage(s, t) && t.images == map[100 := image] && t.infos == map[] && t.last == None && t.accepted == 0
  {
    var h := ImageHalf(image);
    assert image.pixels.encoding == ExampleSource([11]).encodings[0];
    assert Enter(cfg, s, h, 100).Pass?;
    var u := Store(s, h);
    EvictThins(cfg, u, 100);
    assert Later(u.images, 100) == {};
    assert Survives(u.images, 100 - cfg.pairWait, 100);
    assert Trim(u.images, 100 - cfg.pairWait) == map[100 := image];
    assert Trim(u.infos, 100 - cfg.pairWait) == map[];
    SubmitStored(cfg, s, h, 100);
    StoredStage(cfg, s, h);
  }

  /** The image of the example is pending. */
  ghost predicate ExampleWaiting(cfg: Config, s: State, image: Image)
  {
    var a, b := ExampleSource([10]), ExampleSource([11]);
    s.source == Some(b) && s.calibration == Some(ExampleCalibration(a)) && s.lifecycle.Active? &&
    s.session == Some(cfg.sessionId(b.manifest, 1)) && s.images == map[100 := image] && s.infos == map[] &&
    s.last == None && s.accepted == 0
  }

  lemma PairCounts(cfg: Config, s: State, h: Half, now: int)
    requires Submit(cfg, s, h, now).reply == Raised(AdmissionRefused)
    ensures Submit(cfg, s, h, now).state.last == Some(HeaderOf(h).time)
    ensures Submit(cfg, s, h, now).state.accepted == Inc(s.accepted)
  {
    OnlyStoredPairs(cfg, s, h, now);
    SubmitStored(cfg, s, h, now);
    EvictThins(cfg, Store(s, h), HeaderOf(h).time);
  }

  lemma ExampleSecond(cfg: Config, s: State, image: Image, info: Info)
    requires ConfigOk(cfg) && Invariant(cfg, s) && ExampleWaiting(cfg, s, image)
    requires image == ExampleImage(ExampleSource([11]), cfg.sessionId(ExampleSource([11]).manifest, 1))
    requires info.header == image.header && info.calibration == ExampleCalibration(ExampleSource([10]))
    ensures var step := Submit(cfg, s, InfoHalf(info), 100);
      step.reply == Raised(AdmissionRefused) && step.state.accepted == 1 && step.state.last == Some(100)
  {
    assert Enter(cfg, s, InfoHalf(info), 100).Pass?;
    assert LaterThan(s, InfoHalf(info)) == {};
    CounterpartCompletes(cfg, s, ImageHalf(image), InfoHalf(info), 100);
    assert ExampleSource([10]).calibrationId[0] != ExampleSource([11]).calibrationId[0];
    RefusedExactly(cfg, s, InfoHalf(info), 100);
    PairCounts(cfg, s, InfoHalf(info), 100);
  }
}
