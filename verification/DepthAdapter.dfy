/**
 The depth source registry and the lifecycle adapter as mutable objects.  Every method does exactly
 one step of the state machine on the adapter's state.
 */
module DepthAdapter {
  import opened Basics
  import opened Ordering
  import opened Depth
  import opened DepthInvariants

  const MAX_SOURCES: nat := 16

  /* ---------- The registry ---------- */

  datatype Registration = Added | AlreadyThere | ConflictingSource | RegistryFull

  /** A small explicit allowlist of sources. */
  class Registry {
    var sources: map<Text, Source>

    predicate Valid()
      reads this
    {
      |sources| <= MAX_SOURCES && forall id :: id in sources ==> sources[id].id == id
    }

    constructor ()
      ensures Valid() && sources == map[]
    {
      sources := map[];
    }

    /** `register`: a source is registered once; a different one cannot take its identity. */
    method Register(source: Source) returns (r: Registration)
      requires Valid()
      modifies this
      ensures Valid()
      ensures r.Added? ==> source.id !in old(sources) && sources == old(sources)[source.id := source]
      ensures !r.Added? ==> sources == old(sources)
      ensures r.AlreadyThere? <==> source.id in old(sources) && old(sources)[source.id] == source
      ensures r.ConflictingSource? <==> source.id in old(sources) && old(sources)[source.id] != source
      ensures r.RegistryFull? <==> source.id !in old(sources) && |old(sources)| >= MAX_SOURCES
    {
      if source.id in sources {
        return if sources[source.id] == source then AlreadyThere else ConflictingSource;
      }
      if |sources| >= MAX_SOURCES {
        return RegistryFull;
      }
      assert sources[source.id := source].Keys == sources.Keys + {source.id};
      assert |sources.Keys| == |sources| && |sources[source.id := source].Keys| == |sources[source.id := source]|;
      sources := sources[source.id := source];
      return Added;
    }

    /** `resolve`; None when it raises. */
    function Resolve(id: Text): Option<Source>
      reads this
    {
      if id in sources then Some(sources[id]) else None
    }
  }

  /* ---------- Eviction from one pending map ---------- */

  lemma {:induction false} AddOne(n: int, k: nat)
    ensures AddSaturating(n, k + 1) == Inc(AddSaturating(n, k))
    decreases k
  {
    if k > 0 {
      AddOne(Inc(n), k - 1);
    }
  }

  /** left holds the items of pending from some time on that is not before the cutoff. */
  ghost predicate UpperPart<T>(pending: map<int, T>, cutoff: int, left: map<int, T>)
  {
    Kept(pending, left) && (forall t :: t in left ==> t >= cutoff) &&
    (forall t, k :: t in left && k in pending && k > t ==> k in left) &&
    ((forall t :: t in pending && t >= cutoff ==> t in left) || |left| >= MAX_PENDING)
  }

  lemma LeftIsFew<T>(pending: map<int, T>, cutoff: int, left: map<int, T>, t: int)
    requires UpperPart(pending, cutoff, left) && |left| <= MAX_PENDING && t in left
    ensures Survives(pending, cutoff, t)
  {
    SubsetSize(Later(pending, t), left.Keys - {t});
    assert |left.Keys| == |left|;
  }

  lemma GoneIsEarly<T>(pending: map<int, T>, cutoff: int, left: map<int, T>, t: int)
    requires UpperPart(pending, cutoff, left) && t in pending && t !in left
    ensures !Survives(pending, cutoff, t)
  {
    if t >= cutoff {
      assert left.Keys <= Later(pending, t) by {
        forall k | k in left ensures k in Later(pending, t) {
          assert k in pending;
        }
      }
      SubsetSize(left.Keys, Later(pending, t));
      assert |left.Keys| == |left|;
    }
  }

  lemma UpperPartIsTrim<T>(pending: map<int, T>, cutoff: int, left: map<int, T>)
    requires UpperPart(pending, cutoff, left) && |left| <= MAX_PENDING
    ensures left == Trim(pending, cutoff)
  {
    forall t ensures t in left <==> t in Trim(pending, cutoff) {
      if t in left {
        LeftIsFew(pending, cutoff, left, t);
      } else if t in pending {
        GoneIsEarly(pending, cutoff, left, t);
      }
    }
  }

  lemma DropEarliest<T>(pending: map<int, T>, cutoff: int, left: map<int, T>, m: int)
    requires UpperPart(pending, cutoff, left) && |left| > MAX_PENDING
    requires m in left && forall k :: k in left ==> m <= k
    ensures UpperPart(pending, cutoff, left - {m}) && |left - {m}| == |left| - 1
  {
    RemoveOne(left, m);
  }

  /** `min(pending)` */
  method Minimum(times: set<int>) returns (m: int)
    requires times != {}
    ensures m in times && forall k :: k in times ==> m <= k
  {
    m := Choose(times);
    var rest := times - {m};
    while rest != {}
      invariant rest <= times && m in times && forall k :: k in times ==> m <= k || k in rest
      decreases |rest|
    {
      var t := Choose(rest);
      m := if t < m then t else m;
      rest := rest - {t};
    }
  }

  method Choose(times: set<int>) returns (t: int)
    requires times != {}
    ensures t in times
  {
    ghost var x := SomeElement(times);
    t :| t in times;
  }

  /** What is left while the times in `old` are still to be deleted. */
  ghost predicate Deleting<T>(pending: map<int, T>, cutoff: int, left: map<int, T>, late: set<int>)
  {
    Kept(pending, left) && (forall t :: t in left ==> t >= cutoff || t in late) &&
    (forall t :: t in late ==> t in left && t < cutoff) && forall t :: t in pending && t >= cutoff ==> t in left
  }

  lemma DeleteOne<T>(pending: map<int, T>, cutoff: int, left: map<int, T>, late: set<int>, t: int)
    requires Deleting(pending, cutoff, left, late) && t in late
    ensures Deleting(pending, cutoff, left - {t}, late - {t}) && |left - {t}| == |left| - 1
  {
    RemoveOne(left, t);
  }

  lemma DeletedIsUpper<T>(pending: map<int, T>, cutoff: int, left: map<int, T>)
    requires Deleting(pending, cutoff, left, {})
    ensures UpperPart(pending, cutoff, left)
  {
  }

  /** The eviction loops on one of the two pending maps: by age first, then by number. */
  method EvictFrom<T>(pending: map<int, T>, cutoff: int, evicted0: int) returns (left: map<int, T>, evicted: int)
    ensures left == Trim(pending, cutoff) && |left| <= |pending|
    ensures evicted == AddSaturating(evicted0, |pending| - |left|)
  {
    left, evicted := pending, evicted0;
    var late := set t | t in pending && t < cutoff;
    while late != {}
      invariant Deleting(pending, cutoff, left, late) && |left| <= |pending|
      invariant evicted == AddSaturating(evicted0, |pending| - |left|)
      decreases |late|
    {
      var t := Choose(late);
      DeleteOne(pending, cutoff, left, late, t);
      AddOne(evicted0, |pending| - |left|);
      left := left - {t};
      evicted := Inc(evicted);
      late := late - {t};
    }
    DeletedIsUpper(pending, cutoff, left);
    while |left| > MAX_PENDING
      invariant UpperPart(pending, cutoff, left) && |left| <= |pending|
      invariant evicted == AddSaturating(evicted0, |pending| - |left|)
      decreases |left|
    {
      assert |left.Keys| == |left|;
      var m := Minimum(left.Keys);
      DropEarliest(pending, cutoff, left, m);
      AddOne(evicted0, |pending| - |left|);
      left := left - {m};
      evicted := Inc(evicted);
    }
    UpperPartIsTrim(pending, cutoff, left);
  }

  lemma {:induction false} AddBoth(n: int, i: nat, j: nat)
    ensures AddSaturating(AddSaturating(n, i), j) == AddSaturating(n, i + j)
    decreases i
  {
    if i > 0 {
      AddBoth(Inc(n), i - 1, j);
    }
  }

  lemma EvictKeepsStage(cfg: Config, s: State, time: int)
    ensures var e := Evict(cfg, s, time);
      e.source == s.source && e.calibration == s.calibration && e.session == s.session
  {
    EvictThins(cfg, s, time);
  }

  lemma StoreKeepsStage(s: State, h: Half)
    ensures var t := Store(s, h); t.source == s.source && t.calibration == s.calibration && t.session == s.session
  {
  }

  /* ---------- The adapter ---------- */

  class Adapter {
    const cfg: Config
    const registry: Registry
    var source: Option<Source>
    var calibration: Option<Calibration>
    var lifecycle: Lifecycle
    var session: Option<Text>
    var epoch: int
    var images: map<int, Image>
    var infos: map<int, Info>
    var last: Option<int>
    var accepted: int
    var rejected: int
    var duplicate: int
    var evicted: int
    var diagnostics: Diagnostics
    ghost var ledger: Ledger

    ghost function View(): State
      reads this
    {
      State(
        source, calibration, lifecycle, session, epoch, images, infos, last, accepted, rejected, duplicate, evicted,
        diagnostics, ledger)
    }

    ghost predicate Valid()
      reads this
    {
      ConfigOk(cfg) && Invariant(cfg, View())
    }

    constructor (registry: Registry, cfg: Config)
      requires ConfigOk(cfg)
      ensures Valid() && View() == BlankState() && this.cfg == cfg && this.registry == registry
    {
      this.registry, this.cfg := registry, cfg;
      source, calibration, lifecycle, session, epoch := None, None, Unconfigured, None, 0;
      images, infos, last := map[], map[], None;
      accepted, rejected, duplicate, evicted := 0, 0, 0, 0;
      diagnostics := BLANK_DIAGNOSTICS;
      ledger := BLANK_LEDGER;
      new;
      assert this.cfg == cfg;
      assert View() == BlankState();
      BlankInvariant(cfg);
      assert Invariant(cfg, BlankState());
      assert Invariant(this.cfg, View());
    }

    method Note(event: Event, availability: Availability, time: int)
      modifies this`diagnostics
      ensures diagnostics == Diagnose(old(View()), event, availability, time)
      ensures View() == old(View()).(diagnostics := diagnostics)
    {
      diagnostics := Diagnostics(
        if source.Some? then Some(source.value.id) else None, session, lifecycle, calibration.Some?, event,
        availability, accepted, rejected, duplicate, evicted, |images|, |infos|, time);
    }

    method Clear()
      modifies this`images, this`infos, this`ledger
      ensures View() == ClearPending(old(View()))
    {
      ledger := ledger.(clearedImages := ledger.clearedImages + |images|,
                        clearedInfos := ledger.clearedInfos + |infos|);
      images, infos := map[], map[];
    }

    method ConfigureSource(sourceId: Text, wanted: Option<Calibration>) returns (reply: Reply)
      requires Valid()
      modifies this
      ensures Valid()
      ensures Step(View(), reply) == Configure(old(View()), registry.Resolve(sourceId), wanted)
    {
      ConfigureKeeps(cfg, View(), registry.Resolve(sourceId), wanted);
      if !lifecycle.Unconfigured? && !lifecycle.Inactive? {
        return Raised(BadLifecycle);
      }
      var resolved := registry.Resolve(sourceId);
      if resolved.None? {
        return Raised(UnknownSource);
      }
      source := resolved;
      session := None;
      Clear();
      if wanted.None? {
        calibration, lifecycle := None, Inactive;
        Note(CalibrationMissing, Unavailable, 0);
        return Done;
      }
      if !CalibrationFits(wanted.value, resolved.value) {
        return Raised(WrongCalibration);
      }
      calibration, lifecycle := wanted, Inactive;
      Note(Configured, Unavailable, 0);
      return Done;
    }

    method ActivateSource() returns (reply: Reply)
      requires Valid()
      modifies this
      ensures Valid()
      ensures Step(View(), reply) == Activate(cfg, old(View()))
    {
      ActivateKeeps(cfg, View());
      if !lifecycle.Inactive? {
        return Raised(BadLifecycle);
      }
      if source.None? || calibration.None? {
        return Raised(NotCalibrated);
      }
      epoch := Inc(epoch);
      session := Some(cfg.sessionId(source.value.manifest, epoch));
      lifecycle := Active;
      Clear();
      last := None;
      Note(AcquisitionActive, Unavailable, 0);
      return Opened(session.value);
    }

    method DeactivateSource() returns (reply: Reply)
      requires Valid()
      modifies this
      ensures Valid()
      ensures Step(View(), reply) == Deactivate(old(View()))
    {
      DeactivateKeeps(cfg, View());
      if !lifecycle.Active? {
        return Raised(BadLifecycle);
      }
      lifecycle := Inactive;
      Clear();
      last := None;
      Note(LifecycleInactive, Unavailable, 0);
      session := None;
      return Done;
    }

    method CleanUp() returns (reply: Reply)
      requires Valid()
      modifies this
      ensures Valid()
      ensures Step(View(), reply) == Cleanup(old(View()))
    {
      CleanupKeeps(cfg, View());
      if lifecycle.Active? {
        return Raised(BadLifecycle);
      }
      if lifecycle.Finalized? {
        return Raised(BadLifecycle);
      }
      Clear();
      source, calibration, session, last := None, None, None, None;
      lifecycle := Unconfigured;
      Note(NotConfigured, Unavailable, 0);
      return Done;
    }

    method ShutDownSource() returns (reply: Reply)
      requires Valid()
      modifies this
      ensures Valid()
      ensures Step(View(), reply) == Shutdown(old(View()))
    {
      ShutdownKeeps(cfg, View());
      Clear();
      lifecycle, session, last := Finalized, None, None;
      Note(ShutDown, Unavailable, 0);
      source, calibration := None, None;
      return Done;
    }

    method RejectWith(event: Event, availability: Availability, time: int)
      modifies this`rejected, this`ledger, this`diagnostics
      ensures View() == Reject(old(View()), event, availability, time)
    {
      rejected := Inc(rejected);
      ledger := ledger.(refused := ledger.refused + 1);
      Note(event, availability, time);
    }

    method CountDuplicate(time: int)
      modifies this`duplicate, this`ledger, this`diagnostics
      ensures View() == Duplicate(old(View()), time)
    {
      duplicate := Inc(duplicate);
      ledger := ledger.(duplicates := ledger.duplicates + 1);
      Note(RepeatedTimestamp, Degraded, time);
    }

    /** `_validate_common`: passes, or has accounted for the refusal. */
    method ValidateCommon(h: Header, now: int) returns (entry: Entry)
      modifies this`rejected, this`duplicate, this`ledger, this`diagnostics
      ensures entry == Common(cfg, old(View()), h, now)
      ensures View() ==
        match entry
        case Pass => old(View())
        case NoClock => old(View())
        case Repeat => Duplicate(old(View()), h.time)
        case Refuse(event, availability, at) => Reject(old(View()), event, availability, at)
    {
      if !lifecycle.Active? {
        RejectWith(LifecycleInactive, Unavailable, 0);
        return Refuse(LifecycleInactive, Unavailable, 0);
      }
      if source.None? || calibration.None? || session.None? {
        RejectWith(MalformedInput, Errored, 0);
        return Refuse(MalformedInput, Errored, 0);
      }
      if !(0 <= now <= MAX_COUNT) {
        return NoClock;
      }
      if h.session != session.value {
        RejectWith(SessionMismatch, Errored, h.time);
        return Refuse(SessionMismatch, Errored, h.time);
      }
      if !FromSource(h, source.value) {
        RejectWith(WrongSource, Errored, h.time);
        return Refuse(WrongSource, Errored, h.time);
      }
      if h.frame != source.value.sensor.frame {
        RejectWith(WrongFrame, Errored, h.time);
        return Refuse(WrongFrame, Errored, h.time);
      }
      if h.time > now + cfg.skew {
        RejectWith(FutureFrame, Errored, h.time);
        return Refuse(FutureFrame, Errored, h.time);
      }
      if h.time < now - cfg.retention {
        RejectWith(StaleFrame, Stale, h.time);
        return Refuse(StaleFrame, Stale, h.time);
      }
      if last.Some? {
        if h.time < last.value {
          RejectWith(ClockRegression, Errored, h.time);
          return Refuse(ClockRegression, Errored, h.time);
        }
        if h.time == last.value {
          CountDuplicate(h.time);
          return Repeat;
        }
      }
      return Pass;
    }

    /** `_evict_pending` */
    method EvictPending(newest: int)
      modifies this`images, this`infos, this`evicted, this`ledger, this`diagnostics
      ensures View() == Evict(cfg, old(View()), newest)
    {
      var cutoff := newest - cfg.pairWait;
      var images', evicted1 := EvictFrom(images, cutoff, evicted);
      var infos', evicted2 := EvictFrom(infos, cutoff, evicted1);
      AddBoth(evicted, |images| - |images'|, |infos| - |infos'|);
      EvictIsThin(cfg, View(), newest, images', infos');
      Keep(images', infos', evicted2, newest);
    }

    /** The pending maps and the counter after eviction, and the event if the counter moved. */
    method Keep(images': map<int, Image>, infos': map<int, Info>, evicted': int, newest: int)
      requires |images'| <= |images| && |infos'| <= |infos|
      requires evicted' == AddSaturating(evicted, |images| - |images'| + |infos| - |infos'|)
      modifies this`images, this`infos, this`evicted, this`ledger, this`diagnostics
      ensures View() == Thin(old(View()), images', infos', newest)
    {
      var before := evicted;
      ledger := ledger.(evictedImages := ledger.evictedImages + (|images| - |images'|),
                        evictedInfos := ledger.evictedInfos + (|infos| - |infos'|));
      images, infos, evicted := images', infos', evicted';
      if evicted != before {
        Note(PendingEvicted, Degraded, newest);
      }
    }

    method TakePair(time: int)
      modifies this`images, this`infos, this`ledger
      ensures View() == Unpair(old(View()), time)
    {
      images, infos := images - {time}, infos - {time};
      ledger := ledger.(paired := ledger.paired + 1);
    }

    method CountMismatch(time: int)
      modifies this`rejected, this`ledger, this`diagnostics
      ensures View() == Mismatch(old(View()), time)
    {
      rejected := Inc(rejected);
      ledger := ledger.(mismatched := ledger.mismatched + 1);
      Note(PairMismatch, Errored, time);
    }

    method CountAccepted(availability: Availability, time: int)
      modifies this`last, this`accepted, this`ledger, this`diagnostics
      ensures View() == Accept(old(View()), availability, time)
    {
      last := Some(time);
      accepted := Inc(accepted);
      ledger := ledger.(accepted := ledger.accepted + 1);
      Note(FrameAccepted, availability, time);
    }

    /** `_try_pair` */
    method Pair(time: int) returns (reply: Reply)
      requires source.Some? && calibration.Some? && session.Some?
      modifies this`images, this`infos, this`last, this`accepted, this`rejected, this`ledger, this`diagnostics
      ensures Step(View(), reply) == TryPair(old(View()), time)
    {
      if time !in images || time !in infos {
        return Quiet;
      }
      var image, info := images[time], infos[time];
      TakePair(time);
      if image.width != info.calibration.width || image.height != info.calibration.height {
        CountMismatch(time);
        return Quiet;
      }
      var frame := Frame(
        source.value.robot, source.value.sensor, image.width, image.height, image.pixels,
        info.calibration.calibrationId, calibration.value.recordId, source.value.manifest, session.value, time,
        source.value.provenance, if image.pixels.invalid != 0 then Degraded else Available);
      CountAccepted(frame.availability, time);
      var health := Health(
        source.value.robot, source.value.sensor, diagnostics.availability, time, source.value.provenance);
      var admission := Admission(frame, health, RequirementOf(source.value), session.value, diagnostics);
      return if AdmissionOk(admission) then Admitted(admission) else Raised(AdmissionRefused);
    }

    method StoreImage(image: Image)
      modifies this`images, this`ledger
      ensures View() == Store(old(View()), ImageHalf(image))
    {
      images := images[image.header.time := image];
      ledger := ledger.(storedImages := ledger.storedImages + 1);
    }

    method StoreInfo(info: Info)
      modifies this`infos, this`ledger
      ensures View() == Store(old(View()), InfoHalf(info))
    {
      infos := infos[info.header.time := info];
      ledger := ledger.(storedInfos := ledger.storedInfos + 1);
    }

    /** What both kinds of submission do once the half is stored. */
    method EvictAndPair(time: int) returns (reply: Reply)
      requires source.Some? && calibration.Some? && session.Some?
      modifies this
      ensures Step(View(), reply) == TryPair(Evict(cfg, old(View()), time), time)
    {
      EvictKeepsStage(cfg, View(), time);
      EvictPending(time);
      reply := Pair(time);
    }

    method EnterImage(image: Image, now: int) returns (reply: Reply)
      modifies this
      ensures Step(View(), reply) == Submit(cfg, old(View()), ImageHalf(image), now)
    {
      ghost var before := View();
      var time := image.header.time;
      var entry := ValidateCommon(image.header, now);
      if !entry.Pass? {
        return if entry.NoClock? then Raised(BadClock) else Quiet;
      }
      if image.pixels.encoding !in source.value.encodings {
        RejectWith(UnsupportedEncoding, Errored, time);
        return Quiet;
      }
      if time in images {
        if images[time] == image {
          CountDuplicate(time);
        } else {
          RejectWith(RepeatedTimestamp, Degraded, time);
        }
        return Quiet;
      }
      StoreImage(image);
      StoreKeepsStage(before, ImageHalf(image));
      reply := EvictAndPair(time);
    }

    method EnterInfo(info: Info, now: int) returns (reply: Reply)
      modifies this
      ensures Step(View(), reply) == Submit(cfg, old(View()), InfoHalf(info), now)
    {
      ghost var before := View();
      var time := info.header.time;
      var entry := ValidateCommon(info.header, now);
      if !entry.Pass? {
        return if entry.NoClock? then Raised(BadClock) else Quiet;
      }
      if Some(info.calibration) != calibration {
        RejectWith(CalibrationInvalid, Errored, time);
        return Quiet;
      }
      if time in infos {
        if infos[time] == info {
          CountDuplicate(time);
        } else {
          RejectWith(RepeatedTimestamp, Degraded, time);
        }
        return Quiet;
      }
      StoreInfo(info);
      StoreKeepsStage(before, InfoHalf(info));
      reply := EvictAndPair(time);
    }

    /** `submit_image` */
    method SubmitImage(image: Image, now: int) returns (reply: Reply)
      requires Valid()
      modifies this
      ensures Valid()
      ensures Step(View(), reply) == Submit(cfg, old(View()), ImageHalf(image), now)
    {
      SubmitKeeps(cfg, View(), ImageHalf(image), now);
      reply := EnterImage(image, now);
    }

    /** `submit_camera_info` */
    method SubmitInfo(info: Info, now: int) returns (reply: Reply)
      requires Valid()
      modifies this
      ensures Valid()
      ensures Step(View(), reply) == Submit(cfg, old(View()), InfoHalf(info), now)
    {
      SubmitKeeps(cfg, View(), InfoHalf(info), now);
      reply := EnterInfo(info, now);
    }
  }
}
