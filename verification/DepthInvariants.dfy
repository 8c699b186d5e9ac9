/**
 What every reachable state of the depth adapter satisfies.
 */
module DepthInvariants {
  import opened Basics
  import opened Depth

  /** A pending map holds items under their own times, of the current session. */
  ghost predicate ImagesHeld(s: State)
  {
    forall t {:trigger t in s.images} :: t in s.images ==>
      s.images[t].header.time == t && Some(s.images[t].header.session) == s.session
  }

  ghost predicate InfosHeld(s: State)
  {
    forall t {:trigger t in s.infos} :: t in s.infos ==>
      s.infos[t].header.time == t && Some(s.infos[t].header.session) == s.session &&
      Some(s.infos[t].calibration) == s.calibration
  }

  ghost predicate Held(s: State)
  {
    ImagesHeld(s) && InfosHeld(s) && |s.images| <= MAX_PENDING && |s.infos| <= MAX_PENDING
  }

  ghost predicate Unshared(s: State)
  {
    forall t :: t in s.images ==> t !in s.infos
  }

  /** What the lifecycle state says about the other fields. */
  ghost predicate Staged(cfg: Config, s: State)
  {
    (s.lifecycle.Active? ==>
      s.source.Some? && s.calibration.Some? && s.session == Some(cfg.sessionId(s.source.value.manifest, s.epoch))) &&
    (!s.lifecycle.Active? ==> s.session == None && s.last == None && s.images == map[] && s.infos == map[]) &&
    (s.lifecycle.Finalized? ==> s.source == None) &&
    (s.lifecycle.Unconfigured? || s.lifecycle.Finalized? ==> s.calibration == None) &&
    0 <= s.epoch <= MAX_COUNT && (s.lifecycle.Active? ==> s.epoch >= 1)
  }

  /** Conservation: nothing stored is lost, and the counters count what happened until they saturate. */
  ghost predicate Balanced(s: State)
  {
    var l := s.ledger;
    l.storedImages == |s.images| + l.paired + l.evictedImages + l.clearedImages &&
    l.storedInfos == |s.infos| + l.paired + l.evictedInfos + l.clearedInfos &&
    l.paired == l.accepted + l.mismatched
  }

  ghost predicate Counted(s: State)
  {
    var l := s.ledger;
    s.accepted == Saturated(l.accepted) && s.rejected == Saturated(l.refused + l.mismatched) &&
    s.duplicate == Saturated(l.duplicates) && s.evicted == Saturated(l.evictedImages + l.evictedInfos)
  }

  ghost predicate Invariant(cfg: Config, s: State)
  {
    Held(s) && Unshared(s) && Staged(cfg, s) && Balanced(s) && Counted(s)
  }

  /* ---------- Counters ---------- */

  lemma IncSaturated(n: nat)
    ensures Inc(Saturated(n)) == Saturated(n + 1)
  {
  }

  lemma {:induction false} AddSaturated(n: nat, k: nat)
    ensures AddSaturating(Saturated(n), k) == Saturated(n + k)
    decreases k
  {
    if k > 0 {
      IncSaturated(n);
      AddSaturated(n + 1, k - 1);
    }
  }

  /* ---------- Eviction ---------- */

  ghost predicate Kept<T>(pending: map<int, T>, r: map<int, T>)
  {
    forall t {:trigger t in r} :: t in r ==> t in pending && r[t] == pending[t]
  }

  lemma RemoveOne<T>(pending: map<int, T>, k: int)
    requires k in pending
    ensures |pending - {k}| == |pending| - 1 && (pending - {k}).Keys == pending.Keys - {k}
  {
    assert (pending - {k}).Keys == pending.Keys - {k};
    assert |(pending - {k}).Keys| == |pending - {k}|;
    assert |pending.Keys| == |pending|;
  }

  /** The earliest of some times. */
  lemma {:induction false} Earliest(s: set<int>) returns (k: int)
    requires s != {}
    ensures k in s && forall j :: j in s ==> k <= j
    decreases |s|
  {
    k := SomeElement(s);
    var rest := s - {k};
    assert forall i :: i in s ==> i == k || i in rest;
    if rest != {} {
      var j := Earliest(rest);
      k := if j < k then j else k;
    }
  }

  /** At most eight items are left. */
  lemma TrimSmall<T>(pending: map<int, T>, cutoff: int)
    ensures |Trim(pending, cutoff)| <= MAX_PENDING
  {
    var r := Trim(pending, cutoff);
    assert |r.Keys| == |r|;
    if r.Keys != {} {
      var k := Earliest(r.Keys);
      assert r.Keys - {k} <= Later(pending, k);
      SubsetSize(r.Keys - {k}, Later(pending, k));
    }
  }

  lemma TrimKeeps<T>(pending: map<int, T>, cutoff: int)
    ensures Kept(pending, Trim(pending, cutoff)) && |Trim(pending, cutoff)| <= |pending|
  {
    SubmapSize(Trim(pending, cutoff), pending);
  }

  /* ---------- The lifecycle calls keep the invariant ---------- */

  lemma BlankInvariant(cfg: Config)
    ensures Invariant(cfg, BlankState())
  {
  }

  lemma ClearBalances(s: State)
    requires Balanced(s) && Counted(s)
    ensures Balanced(ClearPending(s)) && Counted(ClearPending(s))
    ensures ClearPending(s).images == map[] && ClearPending(s).infos == map[]
  {
  }

  /** With nothing pending, only the stage and the counters matter. */
  lemma EmptyInvariant(cfg: Config, s: State)
    requires s.images == map[] && s.infos == map[] && Staged(cfg, s) && Balanced(s) && Counted(s)
    ensures Invariant(cfg, s)
  {
  }

  lemma ConfigureKeeps(cfg: Config, s: State, resolved: Option<Source>, calibration: Option<Calibration>)
    requires Invariant(cfg, s)
    ensures Invariant(cfg, Configure(s, resolved, calibration).state)
  {
    var t := Configure(s, resolved, calibration).state;
    if t != s {
      ClearBalances(s.(source := resolved, session := None));
      EmptyInvariant(cfg, t);
    }
  }

  lemma ActivateKeeps(cfg: Config, s: State)
    requires Invariant(cfg, s)
    ensures Invariant(cfg, Activate(cfg, s).state)
  {
    var t := Activate(cfg, s).state;
    if t != s {
      ClearBalances(s);
      EmptyInvariant(cfg, t);
    }
  }

  lemma DeactivateKeeps(cfg: Config, s: State)
    requires Invariant(cfg, s)
    ensures Invariant(cfg, Deactivate(s).state)
  {
    var t := Deactivate(s).state;
    if t != s {
      ClearBalances(s);
      EmptyInvariant(cfg, t);
    }
  }

  lemma CleanupKeeps(cfg: Config, s: State)
    requires Invariant(cfg, s)
    ensures Invariant(cfg, Cleanup(s).state)
  {
    var t := Cleanup(s).state;
    if t != s {
      ClearBalances(s);
      EmptyInvariant(cfg, t);
    }
  }

  lemma ShutdownKeeps(cfg: Config, s: State)
    requires Invariant(cfg, s)
    ensures Invariant(cfg, Shutdown(s).state)
  {
    ClearBalances(s);
    EmptyInvariant(cfg, Shutdown(s).state);
  }

  /* ---------- Submissions keep the invariant ---------- */

  /** The invariant while a half of time t has just been stored. */
  ghost predicate Storing(cfg: Config, s: State, t: int)
  {
    ImagesHeld(s) && InfosHeld(s) && Staged(cfg, s) && Balanced(s) && Counted(s) &&
    forall k :: k in s.images && k in s.infos ==> k == t
  }

  lemma RefusalKeeps(cfg: Config, s: State, event: Event, availability: Availability, time: int)
    requires Invariant(cfg, s)
    ensures Invariant(cfg, Reject(s, event, availability, time)) && Invariant(cfg, Duplicate(s, time))
  {
    IncSaturated(s.ledger.refused + s.ledger.mismatched);
    IncSaturated(s.ledger.duplicates);
  }

  lemma Added<T>(m: map<int, T>, t: int, x: T)
    requires t !in m
    ensures |m[t := x]| == |m| + 1
  {
    assert m[t := x].Keys == m.Keys + {t};
    assert |m[t := x].Keys| == |m[t := x]| && |m.Keys| == |m|;
  }

  lemma StoreKeeps(cfg: Config, s: State, h: Half, now: int)
    requires Invariant(cfg, s) && Enter(cfg, s, h, now).Pass? && Pending(s, h).None?
    ensures Storing(cfg, Store(s, h), HeaderOf(h).time)
    ensures Store(s, h).source.Some? && Store(s, h).calibration.Some? && Store(s, h).session.Some?
  {
    match h
    case ImageHalf(image) => Added(s.images, image.header.time, image);
    case InfoHalf(info) => Added(s.infos, info.header.time, info);
  }

  /** e is s with some pending items dropped. */
  ghost predicate Thinned(s: State, e: State)
  {
    Kept(s.images, e.images) && Kept(s.infos, e.infos) &&
    e.ledger == s.ledger.(evictedImages := e.ledger.evictedImages, evictedInfos := e.ledger.evictedInfos) &&
    |s.images| == |e.images| + e.ledger.evictedImages - s.ledger.evictedImages &&
    |s.infos| == |e.infos| + e.ledger.evictedInfos - s.ledger.evictedInfos &&
    e == s.(images := e.images, infos := e.infos, evicted := e.evicted, diagnostics := e.diagnostics, ledger := e.ledger)
  }

  lemma ThinThins(s: State, images: map<int, Image>, infos: map<int, Info>, t: int)
    requires |images| <= |s.images| && |infos| <= |s.infos| && Kept(s.images, images) && Kept(s.infos, infos)
    ensures Thinned(s, Thin(s, images, infos, t))
    ensures Thin(s, images, infos, t).images == images && Thin(s, images, infos, t).infos == infos
    ensures Counted(s) ==> Counted(Thin(s, images, infos, t))
  {
    if Counted(s) {
      var k := |s.images| - |images| + |s.infos| - |infos|;
      AddSaturated(s.ledger.evictedImages + s.ledger.evictedInfos, k);
    }
  }

  lemma EvictIsThin(cfg: Config, s: State, t: int, images: map<int, Image>, infos: map<int, Info>)
    requires images == Trim(s.images, t - cfg.pairWait) && infos == Trim(s.infos, t - cfg.pairWait)
    requires |images| <= |s.images| && |infos| <= |s.infos|
    ensures Evict(cfg, s, t) == Thin(s, images, infos, t)
  {
  }

  lemma EvictThins(cfg: Config, s: State, t: int)
    ensures Thinned(s, Evict(cfg, s, t))
    ensures Evict(cfg, s, t).images == Trim(s.images, t - cfg.pairWait)
    ensures Evict(cfg, s, t).infos == Trim(s.infos, t - cfg.pairWait)
    ensures Counted(s) ==> Counted(Evict(cfg, s, t))
  {
    var images, infos := Trim(s.images, t - cfg.pairWait), Trim(s.infos, t - cfg.pairWait);
    TrimKeeps(s.images, t - cfg.pairWait);
    TrimKeeps(s.infos, t - cfg.pairWait);
    EvictIsThin(cfg, s, t, images, infos);
    ThinThins(s, images, infos, t);
  }

  lemma ThinnedKeeps(cfg: Config, s: State, e: State, t: int)
    requires Storing(cfg, s, t) && s.lifecycle.Active? && Thinned(s, e) && Counted(e)
    ensures Storing(cfg, e, t) && e.lifecycle.Active?
  {
  }

  lemma EvictSmall(cfg: Config, s: State, t: int)
    ensures |Evict(cfg, s, t).images| <= MAX_PENDING && |Evict(cfg, s, t).infos| <= MAX_PENDING
  {
    EvictThins(cfg, s, t);
    TrimSmall(s.images, t - cfg.pairWait);
    TrimSmall(s.infos, t - cfg.pairWait);
  }

  lemma EvictKeeps(cfg: Config, s: State, t: int)
    requires Storing(cfg, s, t) && s.lifecycle.Active?
    ensures Storing(cfg, Evict(cfg, s, t), t) && Evict(cfg, s, t).lifecycle.Active?
    ensures |Evict(cfg, s, t).images| <= MAX_PENDING && |Evict(cfg, s, t).infos| <= MAX_PENDING
  {
    EvictThins(cfg, s, t);
    EvictSmall(cfg, s, t);
    ThinnedKeeps(cfg, s, Evict(cfg, s, t), t);
  }

  lemma UnpairBalances(s: State, t: int)
    requires t in s.images && t in s.infos && ImagesHeld(s) && InfosHeld(s) && Balanced(s) && Counted(s)
    requires |s.images| <= MAX_PENDING && |s.infos| <= MAX_PENDING
    requires forall k :: k in s.images && k in s.infos ==> k == t
    ensures Held(Unpair(s, t)) && Unshared(Unpair(s, t)) && Counted(Unpair(s, t))
    ensures var u, l := Unpair(s, t), Unpair(s, t).ledger;
      l.storedImages == |u.images| + l.paired + l.evictedImages + l.clearedImages &&
      l.storedInfos == |u.infos| + l.paired + l.evictedInfos + l.clearedInfos &&
      l.paired == l.accepted + l.mismatched + 1
  {
    RemoveOne(s.images, t);
    RemoveOne(s.infos, t);
  }

  lemma PairKeeps(cfg: Config, s: State, t: int)
    requires Storing(cfg, s, t) && s.lifecycle.Active?
    requires |s.images| <= MAX_PENDING && |s.infos| <= MAX_PENDING
    ensures Invariant(cfg, TryPair(s, t).state)
  {
    if t in s.images && t in s.infos {
      UnpairBalances(s, t);
      SettleKeeps(cfg, Unpair(s, t), s.images[t], s.infos[t], t);
    }
  }

  /** The pair taken out is either mismatched or accepted. */
  lemma SettleKeeps(cfg: Config, u: State, image: Image, info: Info, t: int)
    requires Held(u) && Unshared(u) && Staged(cfg, u) && Counted(u) && u.lifecycle.Active?
    requires var l := u.ledger;
      l.storedImages == |u.images| + l.paired + l.evictedImages + l.clearedImages &&
      l.storedInfos == |u.infos| + l.paired + l.evictedInfos + l.clearedInfos &&
      l.paired == l.accepted + l.mismatched + 1
    ensures Invariant(cfg, Mismatch(u, t))
    ensures Invariant(cfg, Accept(u, FrameOf(u, image, info, t).availability, t))
  {
    IncSaturated(u.ledger.accepted);
    IncSaturated(u.ledger.refused + u.ledger.mismatched);
  }

  lemma PassMeansActive(cfg: Config, s: State, h: Half, now: int)
    requires Enter(cfg, s, h, now).Pass?
    ensures s.lifecycle.Active? && s.source.Some? && s.calibration.Some? && s.session.Some?
    ensures HeaderOf(h).session == s.session.value && FromSource(HeaderOf(h), s.source.value)
    ensures now - cfg.retention <= HeaderOf(h).time <= now + cfg.skew
    ensures s.last.Some? ==> s.last.value < HeaderOf(h).time
  {
  }

  lemma SubmitKeeps(cfg: Config, s: State, h: Half, now: int)
    requires Invariant(cfg, s)
    ensures Invariant(cfg, Submit(cfg, s, h, now).state)
  {
    var time := HeaderOf(h).time;
    match Enter(cfg, s, h, now)
    case NoClock =>
    case Refuse(event, availability, at) => RefusalKeeps(cfg, s, event, availability, at);
    case Repeat => RefusalKeeps(cfg, s, MalformedInput, Errored, time);
    case Pass =>
      match Pending(s, h)
      case Some(_) => RefusalKeeps(cfg, s, RepeatedTimestamp, Degraded, time);
      case None =>
        PassMeansActive(cfg, s, h, now);
        StoreKeeps(cfg, s, h, now);
        EvictKeeps(cfg, Store(s, h), time);
        PairKeeps(cfg, Evict(cfg, Store(s, h), time), time);
  }

  lemma NextKeeps(cfg: Config, s: State, c: Call)
    requires Invariant(cfg, s)
    ensures Invariant(cfg, Next(cfg, s, c).state)
  {
    match c
    case CallConfigure(resolved, calibration) => ConfigureKeeps(cfg, s, resolved, calibration);
    case CallActivate => ActivateKeeps(cfg, s);
    case CallDeactivate => DeactivateKeeps(cfg, s);
    case CallCleanup => CleanupKeeps(cfg, s);
    case CallShutdown => ShutdownKeeps(cfg, s);
    case CallSubmit(h, now) => SubmitKeeps(cfg, s, h, now);
  }

  /** Every reachable state satisfies the invariant. */
  lemma {:induction false} Reachable(cfg: Config, r: Run, n: nat)
    requires IsRun(cfg, r) && n < |r.states|
    ensures Invariant(cfg, r.states[n])
    decreases n
  {
    if n == 0 {
      BlankInvariant(cfg);
    } else {
      Reachable(cfg, r, n - 1);
      assert Linked(cfg, r, n - 1);
      NextKeeps(cfg, r.states[n - 1], r.calls[n - 1]);
    }
  }
}
