/**
 The depth lifecycle adapter as a state machine over its calls.

 The ledger of a state is history: it counts, without bound, what the saturating counters of the
 adapter count, and what happens to the halves that were stored.
 */
module Depth {
  import opened Basics
  import opened Ordering

  const MAX_PENDING: nat := 8
  const MAX_COUNT: int := 0x7FFF_FFFF_FFFF_FFFF
  const MAX_TIME: int := 0x7FFF_FFFF_FFFF_FFFF

  /* ---------- Records ---------- */

  datatype Sensor = Sensor(id: Text, frame: Text)

  datatype Source = Source(
    id: Text,
    robot: Text,
    sensor: Sensor,
    mountFrame: Text,
    producer: Text,
    implementation: Text,
    provenance: Text,
    classification: Text,
    encodings: seq<Text>,
    minWidth: int,
    maxWidth: int,
    minHeight: int,
    maxHeight: int,
    calibrationId: Text,
    recordId: Text,
    manifest: Text)

  datatype Calibration = Calibration(
    sourceId: Text,
    sensor: Sensor,
    mountFrame: Text,
    opticalFrame: Text,
    calibrationId: Text,
    recordId: Text,
    width: int,
    height: int)

  /** What both halves of a measurement say about where and when they come from. */
  datatype Header = Header(
    sourceId: Text,
    session: Text,
    robot: Text,
    sensor: Sensor,
    frame: Text,
    time: int,
    provenance: Text)

  datatype Pixels = Pixels(
    encoding: Text,
    step: int,
    size: int,
    bigEndian: bool,
    valid: int,
    invalid: int,
    minimum: real,
    maximum: real,
    payload: Text)

  datatype Image = Image(header: Header, width: int, height: int, pixels: Pixels)

  datatype Info = Info(header: Header, calibration: Calibration)

  /** One half of a measurement. */
  datatype Half = ImageHalf(image: Image) | InfoHalf(info: Info)

  datatype Availability = Available | Degraded | Errored | Stale | Unavailable

  datatype Frame = Frame(
    robot: Text,
    sensor: Sensor,
    width: int,
    height: int,
    pixels: Pixels,
    calibrationId: Text,
    recordId: Text,
    manifest: Text,
    session: Text,
    time: int,
    provenance: Text,
    availability: Availability)

  datatype Requirement = Requirement(
    sourceId: Text,
    robot: Text,
    sensor: Sensor,
    producer: Text,
    implementation: Text,
    provenance: Text,
    classification: Text,
    calibrationId: Text,
    recordId: Text,
    manifest: Text)

  datatype Health = Health(robot: Text, sensor: Sensor, availability: Availability, time: int, provenance: Text)

  datatype Lifecycle = Unconfigured | Inactive | Active | Finalized

  datatype Event =
    | NotConfigured
    | CalibrationMissing
    | Configured
    | AcquisitionActive
    | FrameAccepted
    | LifecycleInactive
    | SessionMismatch
    | WrongSource
    | WrongFrame
    | UnsupportedEncoding
    | CalibrationInvalid
    | PairMismatch
    | StaleFrame
    | FutureFrame
    | ClockRegression
    | RepeatedTimestamp
    | PendingEvicted
    | MalformedInput
    | ShutDown

  datatype Diagnostics = Diagnostics(
    sourceId: Option<Text>,
    session: Option<Text>,
    lifecycle: Lifecycle,
    calibrated: bool,
    event: Event,
    availability: Availability,
    accepted: int,
    rejected: int,
    duplicate: int,
    evicted: int,
    pendingImages: int,
    pendingInfos: int,
    time: int)

  datatype Admission = Admission(
    frame: Frame,
    health: Health,
    requirement: Requirement,
    session: Text,
    diagnostics: Diagnostics)

  /** The time bounds, and the session identity as a function of manifest and epoch. */
  datatype Config = Config(pairWait: int, retention: int, skew: int, sessionId: (Text, int) -> Text)

  /** The checks of the adapter's constructor. */
  predicate ConfigOk(c: Config)
  {
    0 <= c.pairWait <= 1_000_000_000 && c.pairWait < c.retention <= 300_000_000_000 && 0 <= c.skew <= 1_000_000_000
  }

  datatype Ledger = Ledger(
    refused: nat,
    duplicates: nat,
    storedImages: nat,
    storedInfos: nat,
    paired: nat,
    accepted: nat,
    mismatched: nat,
    evictedImages: nat,
    evictedInfos: nat,
    clearedImages: nat,
    clearedInfos: nat)

  datatype State = State(
    source: Option<Source>,
    calibration: Option<Calibration>,
    lifecycle: Lifecycle,
    session: Option<Text>,
    epoch: int,
    images: map<int, Image>,
    infos: map<int, Info>,
    last: Option<int>,
    accepted: int,
    rejected: int,
    duplicate: int,
    evicted: int,
    diagnostics: Diagnostics,
    ledger: Ledger)

  /* ---------- Shared helpers ---------- */

  function Inc(n: int): int
  {
    if n + 1 < MAX_COUNT then n + 1 else MAX_COUNT
  }

  /** A counter that stops at its maximum. */
  function Saturated(n: nat): int
  {
    if n < MAX_COUNT then n else MAX_COUNT
  }

  function Diagnose(s: State, event: Event, availability: Availability, time: int): Diagnostics
  {
    Diagnostics(
      if s.source.Some? then Some(s.source.value.id) else None, s.session, s.lifecycle, s.calibration.Some?, event,
      availability, s.accepted, s.rejected, s.duplicate, s.evicted, |s.images|, |s.infos|, time)
  }

  /** `_set_event` */
  function SetEvent(s: State, event: Event, availability: Availability, time: int): State
  {
    s.(diagnostics := Diagnose(s, event, availability, time))
  }

  /** `_clear_pending` */
  function ClearPending(s: State): State
  {
    s.(images := map[], infos := map[],
    ledger := s.ledger.(clearedImages := s.ledger.clearedImages + |s.images|,
    clearedInfos := s.ledger.clearedInfos + |s.infos|))
  }

  const BLANK_DIAGNOSTICS :=
    Diagnostics(None, None, Unconfigured, false, NotConfigured, Unavailable, 0, 0, 0, 0, 0, 0, 0)

  const BLANK_LEDGER := Ledger(0, 0, 0, 0, 0, 0, 0, 0, 0, 0, 0)

  /** The state of a new adapter. */
  function BlankState(): State
  {
    State(
      None, None, Unconfigured, None, 0, map[], map[], None, 0, 0, 0, 0, BLANK_DIAGNOSTICS, BLANK_LEDGER)
  }

  datatype Problem = BadLifecycle | UnknownSource | WrongCalibration | NotCalibrated | BadClock | AdmissionRefused

  datatype Reply = Done | Opened(session: Text) | Quiet | Admitted(admission: Admission) | Raised(problem: Problem)

  datatype Step = Step(state: State, reply: Reply)

  /* ---------- Lifecycle ---------- */

  predicate CalibrationFits(c: Calibration, s: Source)
  {
    c.sensor == s.sensor && c.sourceId == s.id && c.mountFrame == s.mountFrame && c.opticalFrame == s.sensor.frame &&
    c.calibrationId == s.calibrationId && c.recordId == s.recordId && s.minWidth <= c.width <= s.maxWidth &&
    s.minHeight <= c.height <= s.maxHeight
  }

  /** `configure`; resolved is what the registry knows under the identity asked for. */
  function Configure(s: State, resolved: Option<Source>, calibration: Option<Calibration>): Step
  {
    if !s.lifecycle.Unconfigured? && !s.lifecycle.Inactive? then Step(s, Raised(BadLifecycle))
    else if resolved.None? then Step(s, Raised(UnknownSource))
    else
      // The new source is in place before the calibration is checked.
      var t := ClearPending(s.(source := resolved, session := None));
      match calibration
      case None =>
        Step(SetEvent(t.(calibration := None, lifecycle := Inactive), CalibrationMissing, Unavailable, 0), Done)
      case Some(c) =>
        if !CalibrationFits(c, resolved.value) then Step(t, Raised(WrongCalibration))
        else Step(SetEvent(t.(calibration := calibration, lifecycle := Inactive), Configured, Unavailable, 0), Done)
  }

  /** `activate` */
  function Activate(cfg: Config, s: State): Step
  {
    if !s.lifecycle.Inactive? then Step(s, Raised(BadLifecycle))
    else if s.source.None? || s.calibration.None? then Step(s, Raised(NotCalibrated))
    else
      var epoch := Inc(s.epoch);
      var id := cfg.sessionId(s.source.value.manifest, epoch);
      var t := ClearPending(s.(epoch := epoch, session := Some(id), lifecycle := Active)).(last := None);
      Step(SetEvent(t, AcquisitionActive, Unavailable, 0), Opened(id))
  }

  /** `deactivate` */
  function Deactivate(s: State): Step
  {
    if !s.lifecycle.Active? then Step(s, Raised(BadLifecycle))
    else
      var t := ClearPending(s.(lifecycle := Inactive)).(last := None);
      Step(SetEvent(t, LifecycleInactive, Unavailable, 0).(session := None), Done)
  }

  /** `cleanup` */
  function Cleanup(s: State): Step
  {
    if s.lifecycle.Active? || s.lifecycle.Finalized? then Step(s, Raised(BadLifecycle))
    else
      var t := ClearPending(s).(source := None, calibration := None, session := None, last := None,
                                lifecycle := Unconfigured);
      Step(SetEvent(t, NotConfigured, Unavailable, 0), Done)
  }

  /** `shutdown` */
  function Shutdown(s: State): Step
  {
    var t := ClearPending(s).(lifecycle := Finalized, session := None, last := None);
    Step(SetEvent(t, ShutDown, Unavailable, 0).(source := None, calibration := None), Done)
  }

  /* ---------- Entry checks ---------- */

  function HeaderOf(h: Half): Header
  {
    match h
    case ImageHalf(image) => image.header
    case InfoHalf(info) => info.header
  }

  /** What the entry checks make of a submission. */
  datatype Entry =
    | Pass
    | Refuse(event: Event, availability: Availability, time: int)
    | Repeat
    | NoClock

  function FromSource(h: Header, s: Source): bool
  {
    h.sourceId == s.id && h.robot == s.robot && h.sensor == s.sensor && h.provenance == s.provenance
  }

  /** `_validate_common` */
  function Common(cfg: Config, s: State, h: Header, now: int): Entry
  {
    if !s.lifecycle.Active? then Refuse(LifecycleInactive, Unavailable, 0)
    else if s.source.None? || s.calibration.None? || s.session.None? then Refuse(MalformedInput, Errored, 0)
    else if !(0 <= now <= MAX_COUNT) then NoClock
    else if h.session != s.session.value then Refuse(SessionMismatch, Errored, h.time)
    else if !FromSource(h, s.source.value) then Refuse(WrongSource, Errored, h.time)
    else if h.frame != s.source.value.sensor.frame then Refuse(WrongFrame, Errored, h.time)
    else if h.time > now + cfg.skew then Refuse(FutureFrame, Errored, h.time)
    else if h.time < now - cfg.retention then Refuse(StaleFrame, Stale, h.time)
    else if s.last.Some? && h.time < s.last.value then Refuse(ClockRegression, Errored, h.time)
    else if s.last.Some? && h.time == s.last.value then Repeat
    else Pass
  }

  /** The check that only one kind of half undergoes. */
  function Own(s: State, h: Half): Entry
    requires s.source.Some?
  {
    match h
    case ImageHalf(image) =>
      if image.pixels.encoding !in s.source.value.encodings then Refuse(UnsupportedEncoding, Errored, image.header.time)
      else Pass
    case InfoHalf(info) =>
      if Some(info.calibration) != s.calibration then Refuse(CalibrationInvalid, Errored, info.header.time) else Pass
  }

  function Enter(cfg: Config, s: State, h: Half, now: int): Entry
  {
    var e := Common(cfg, s, HeaderOf(h), now);
    if e.Pass? then Own(s, h) else e
  }

  /** `_reject` */
  function Reject(s: State, event: Event, availability: Availability, time: int): State
  {
    SetEvent(
      s.(rejected := Inc(s.rejected), ledger := s.ledger.(refused := s.ledger.refused + 1)), event, availability, time)
  }

  function Duplicate(s: State, time: int): State
  {
    SetEvent(
      s.(duplicate := Inc(s.duplicate), ledger := s.ledger.(duplicates := s.ledger.duplicates + 1)),
      RepeatedTimestamp, Degraded, time)
  }

  /** A different half with the time of a pending one. */
  function Conflict(s: State, time: int): State
  {
    Reject(s, RepeatedTimestamp, Degraded, time)
  }

  /* ---------- Storing and evicting ---------- */

  function Store(s: State, h: Half): State
  {
    match h
    case ImageHalf(image) =>
      s.(images := s.images[image.header.time := image],
      ledger := s.ledger.(storedImages := s.ledger.storedImages + 1))
    case InfoHalf(info) =>
      s.(infos := s.infos[info.header.time := info], ledger := s.ledger.(storedInfos := s.ledger.storedInfos + 1))
  }

  /** The pending times after t. */
  function Later<T>(pending: map<int, T>, t: int): set<int>
  {
    set k | k in pending && k > t
  }

  predicate Survives<T>(pending: map<int, T>, cutoff: int, t: int)
  {
    t >= cutoff && |Later(pending, t)| < MAX_PENDING
  }

  /** Eviction leaves the items that are recent enough and have fewer than eight later ones. */
  function Trim<T>(pending: map<int, T>, cutoff: int): map<int, T>
  {
    map t | t in pending && Survives(pending, cutoff, t) :: pending[t]
  }

  lemma TrimShrinks<T>(pending: map<int, T>, cutoff: int)
    ensures |Trim(pending, cutoff)| <= |pending|
  {
    SubmapSize(Trim(pending, cutoff), pending);
  }

  lemma SomeElement<T>(s: set<T>) returns (x: T)
    requires s != {}
    ensures x in s
  {
    x :| x in s;
  }

  lemma {:induction false} SubsetSize(a: set<int>, b: set<int>)
    requires a <= b
    ensures |a| <= |b|
    decreases |a|
  {
    if a != {} {
      var x := SomeElement(a);
      SubsetSize(a - {x}, b - {x});
    }
  }

  lemma SubmapSize<T>(a: map<int, T>, b: map<int, T>)
    requires a.Keys <= b.Keys
    ensures |a| <= |b|
  {
    SubsetSize(a.Keys, b.Keys);
    assert |a.Keys| == |a| && |b.Keys| == |b|;
  }

  function AddSaturating(n: int, k: nat): int
    decreases k
  {
    if k == 0 then n else AddSaturating(Inc(n), k - 1)
  }

  /** Only the given items stay; the others count as evicted. */
  function Thin(s: State, images: map<int, Image>, infos: map<int, Info>, newest: int): State
    requires |images| <= |s.images| && |infos| <= |s.infos|
  {
    var i, j := |s.images| - |images|, |s.infos| - |infos|;
    var t := s.(images := images, infos := infos, evicted := AddSaturating(s.evicted, i + j),
                ledger := s.ledger.(evictedImages := s.ledger.evictedImages + i,
                evictedInfos := s.ledger.evictedInfos + j));
    if t.evicted != s.evicted then SetEvent(t, PendingEvicted, Degraded, newest) else t
  }

  /** `_evict_pending` */
  function Evict(cfg: Config, s: State, newest: int): State
  {
    TrimShrinks(s.images, newest - cfg.pairWait);
    TrimShrinks(s.infos, newest - cfg.pairWait);
    Thin(s, Trim(s.images, newest - cfg.pairWait), Trim(s.infos, newest - cfg.pairWait), newest)
  }

  /* ---------- Pairing ---------- */

  function RequirementOf(s: Source): Requirement
  {
    Requirement(
      s.id, s.robot, s.sensor, s.producer, s.implementation, s.provenance, s.classification, s.calibrationId,
      s.recordId, s.manifest)
  }

  /** `matches_unsealed` */
  predicate Matches(r: Requirement, f: Frame)
  {
    f.robot == r.robot && f.sensor == r.sensor && f.provenance == r.provenance &&
    f.calibrationId == r.calibrationId && f.recordId == r.recordId && f.manifest == r.manifest
  }

  /** The checks of `DepthCameraAdmission.__init__`. */
  predicate AdmissionOk(a: Admission)
  {
    a.diagnostics.session == Some(a.session) && a.frame.session == a.session && Matches(a.requirement, a.frame) &&
    a.health.sensor == a.frame.sensor && a.health.provenance == a.frame.provenance && a.health.time == a.frame.time
  }

  function FrameOf(s: State, image: Image, info: Info, time: int): Frame
    requires s.source.Some? && s.calibration.Some? && s.session.Some?
  {
    var source := s.source.value;
    Frame(
      source.robot, source.sensor, image.width, image.height, image.pixels, info.calibration.calibrationId,
      s.calibration.value.recordId, source.manifest, s.session.value, time, source.provenance,
      if image.pixels.invalid != 0 then Degraded else Available)
  }

  function Unpair(s: State, time: int): State
  {
    s.(images := s.images - {time}, infos := s.infos - {time}, ledger := s.ledger.(paired := s.ledger.paired + 1))
  }

  function Mismatch(s: State, time: int): State
  {
    SetEvent(
      s.(rejected := Inc(s.rejected), ledger := s.ledger.(mismatched := s.ledger.mismatched + 1)),
      PairMismatch, Errored, time)
  }

  function Accept(s: State, availability: Availability, time: int): State
  {
    SetEvent(
      s.(last := Some(time), accepted := Inc(s.accepted),
      ledger := s.ledger.(accepted := s.ledger.accepted + 1)), FrameAccepted, availability, time)
  }

  /** What an accepted frame is handed over as. */
  function AdmissionOf(s: State, f: Frame): Admission
    requires s.source.Some? && s.session.Some?
  {
    var source := s.source.value;
    Admission(
      f, Health(source.robot, source.sensor, s.diagnostics.availability, f.time, source.provenance),
      RequirementOf(source), s.session.value, s.diagnostics)
  }

  /** `_try_pair`: the state has accepted the pair before the admission is checked. */
  function TryPair(s: State, time: int): Step
    requires s.source.Some? && s.calibration.Some? && s.session.Some?
  {
    if time !in s.images || time !in s.infos then Step(s, Quiet)
    else
      var image, info := s.images[time], s.infos[time];
      var t := Unpair(s, time);
      if image.width != info.calibration.width || image.height != info.calibration.height then
        Step(Mismatch(t, time), Quiet)
      else
        var f := FrameOf(t, image, info, time);
        var u := Accept(t, f.availability, time);
        var a := AdmissionOf(u, f);
        if AdmissionOk(a) then Step(u, Admitted(a)) else Step(u, Raised(AdmissionRefused))
  }

  /* ---------- Submissions ---------- */

  function Pending(s: State, h: Half): Option<Half>
  {
    match h
    case ImageHalf(image) =>
      if image.header.time in s.images then Some(ImageHalf(s.images[image.header.time])) else None
    case InfoHalf(info) =>
      if info.header.time in s.infos then Some(InfoHalf(s.infos[info.header.time])) else None
  }

  /** `submit_image` and `submit_camera_info` */
  function Submit(cfg: Config, s: State, h: Half, now: int): Step
  {
    var time := HeaderOf(h).time;
    match Enter(cfg, s, h, now)
    case NoClock => Step(s, Raised(BadClock))
    case Refuse(event, availability, at) => Step(Reject(s, event, availability, at), Quiet)
    case Repeat => Step(Duplicate(s, time), Quiet)
    case Pass =>
      match Pending(s, h)
      case Some(existing) => Step(if existing == h then Duplicate(s, time) else Conflict(s, time), Quiet)
      case None => TryPair(Evict(cfg, Store(s, h), time), time)
  }

  /* ---------- Runs ---------- */

  datatype Call =
    | CallConfigure(resolved: Option<Source>, calibration: Option<Calibration>)
    | CallActivate
    | CallDeactivate
    | CallCleanup
    | CallShutdown
    | CallSubmit(half: Half, now: int)

  function Next(cfg: Config, s: State, c: Call): Step
  {
    match c
    case CallConfigure(resolved, calibration) => Configure(s, resolved, calibration)
    case CallActivate => Activate(cfg, s)
    case CallDeactivate => Deactivate(s)
    case CallCleanup => Cleanup(s)
    case CallShutdown => Shutdown(s)
    case CallSubmit(h, now) => Submit(cfg, s, h, now)
  }

  /** A run: the state before and after every call, and what the call answered. */
  datatype Run = Run(calls: seq<Call>, states: seq<State>, replies: seq<Reply>)

  ghost predicate Linked(cfg: Config, r: Run, n: int)
  {
    0 <= n < |r.calls| && |r.states| == |r.calls| + 1 && |r.replies| == |r.calls| &&
    Next(cfg, r.states[n], r.calls[n]) == Step(r.states[n + 1], r.replies[n])
  }

  ghost predicate IsRun(cfg: Config, r: Run)
  {
    |r.states| == |r.calls| + 1 && |r.replies| == |r.calls| && r.states[0] == BlankState() &&
    forall n {:trigger Linked(cfg, r, n)} :: 0 <= n < |r.calls| ==> Linked(cfg, r, n)
  }

  /** Every sequence of calls has a run. */
  lemma {:induction false} RunOf(cfg: Config, calls: seq<Call>) returns (r: Run)
    ensures IsRun(cfg, r) && r.calls == calls
  {
    if calls == [] {
      r := Run([], [BlankState()], []);
    } else {
      var n := |calls| - 1;
      var before := RunOf(cfg, calls[..n]);
      var step := Next(cfg, before.states[n], calls[n]);
      r := Run(calls, before.states + [step.state], before.replies + [step.reply]);
      forall k | 0 <= k < |calls| ensures Linked(cfg, r, k) {
        assert k < n ==> Linked(cfg, before, k);
      }
    }
  }
}
