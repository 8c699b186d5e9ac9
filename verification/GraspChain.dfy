/**
 The evidence chain of a grasp: pregrasp, established grasp, hold and release.  Each predicate lists
 the checks of one evidence constructor, over the reals.

 The angle of a rotation is a function of the absolute dot product of two quaternions.  Where the
 source binds evidence by the content hash of other evidence, that other evidence itself is named.
 */
module GraspChain {
  import opened Basics
  import opened Ordering
  import opened Quaternions
  import opened Poses

  const MAX_TIMESTAMP: int := 0x7FFF_FFFF_FFFF_FFFF
  const FRESHNESS: int := 500_000_000
  const ALIGNMENT_TRANSLATION: real := 0.012
  const ALIGNMENT_ROTATION: real := 0.10
  const HOLD_TRANSLATION: real := 0.005
  const HOLD_ROTATION: real := 0.05
  const MAXIMUM_TELEPORT: real := 1.0
  const MINIMUM_RELEASE_CHANGE: real := 0.005
  const METRIC_TOLERANCE: real := 0.000000000001
  const HELD_BOUND: real := 0.017 + 2.0 * METRIC_TOLERANCE
  const RELEASED_BOUND: real := MINIMUM_RELEASE_CHANGE - METRIC_TOLERANCE
  const MAX_SAMPLES: nat := 4096
  const EXPECTED_POSITION := Vector(0.02, 0.0, -0.17)
  const EXPECTED_ORIENTATION := Quaternion(0.0, 0.0, 0.0, 1.0)

  datatype Kind = EndEffector | GraspObject

  /** The request: run stands for its identity, its fingerprint and its run session. */
  datatype Request = Request(run: Text, item: Text, execution: Text)

  datatype PoseEvidence = PoseEvidence(run: Text, kind: Kind, pose: Pose, time: int, sequence: int)

  datatype Fixture = Fixture(run: Text, attached: bool, time: int, sequence: int)

  datatype Contact = Contact(run: Text, item: Text, time: int)

  datatype Pregrasp = Pregrasp(
    request: Request,
    hand: PoseEvidence,
    item: PoseEvidence,
    fixture: Fixture,
    evaluated: int,
    translationError: real,
    rotationError: real,
    translationTolerance: real,
    rotationTolerance: real)

  datatype Grasp = Grasp(pregrasp: Pregrasp, contact: Contact, fixture: Fixture, established: int)

  datatype Sample = Sample(inLimits: bool, selfFree: bool, environmentFree: bool, objectChecked: bool)

  datatype CollisionProof = CollisionProof(request: Request, grasp: Grasp, samples: seq<Sample>)

  /** The result of the reviewed motion. */
  datatype Motion = Motion(completed: bool, executed: bool, execution: Text, completedAt: int)

  datatype Hold = Hold(
    grasp: Grasp,
    proof: CollisionProof,
    motion: Motion,
    hand: PoseEvidence,
    item: PoseEvidence,
    fixture: Fixture,
    evaluated: int,
    translationChange: real,
    rotationChange: real,
    displacement: real,
    translationTolerance: real,
    rotationTolerance: real,
    maximumTeleport: real)

  /** The stability observation after the release, with the times of its parts. */
  datatype Stability = Stability(stable: bool, stateTime: int, baseTime: int, controllerTime: int)

  datatype Release = Release(
    hold: Hold,
    requested: int,
    fixture: Fixture,
    hand: PoseEvidence,
    item: PoseEvidence,
    stability: Stability,
    evaluated: int,
    change: real,
    minimum: real)

  /* ---------- Checks ---------- */

  type Angle = real -> real

  function QuaternionDot(a: Quaternion, b: Quaternion): real
  {
    a.x * b.x + a.y * b.y + a.z * b.z + a.w * b.w
  }

  /** `_rotation_distance` */
  function RotationDistance(angle: Angle, a: Quaternion, b: Quaternion): real
  {
    var dot := Absolute(QuaternionDot(a, b));
    angle(if dot > 1.0 then 1.0 else dot)
  }

  predicate Near(a: real, b: real)
  {
    Absolute(a - b) <= METRIC_TOLERANCE
  }

  /** metric is the distance of a and b, up to the tolerance on metrics. */
  ghost predicate Measures(metric: real, a: Vector, b: Vector)
  {
    exists d: real :: IsDistance(d, a, b) && Near(metric, d)
  }

  /** metric is the angle between a and b, up to the tolerance on metrics. */
  ghost predicate Turns(metric: real, angle: Angle, a: Quaternion, b: Quaternion)
  {
    Near(metric, RotationDistance(angle, a, b))
  }

  predicate TimeOk(t: int)
  {
    0 <= t <= MAX_TIMESTAMP
  }

  predicate PoseOk(p: PoseEvidence, run: Text, kind: Kind)
  {
    p.run == run && p.kind == kind && TimeOk(p.time) && p.sequence >= 1
  }

  predicate FixtureOk(f: Fixture, run: Text, attached: bool)
  {
    f.run == run && f.attached == attached && TimeOk(f.time) && f.sequence >= 1
  }

  /** Observed no later than `at`, and at most the freshness bound before it. */
  predicate Fresh(time: int, at: int)
  {
    0 <= at - time <= FRESHNESS
  }

  function Relative(hand: PoseEvidence, item: PoseEvidence): Pose
  {
    RelativePose(hand.pose, item.pose)
  }

  /* The checks of each constructor come in two parts: records, times and bounds; and geometry. */

  predicate PregraspRecordOk(e: Pregrasp)
  {
    var run := e.request.run;
    PoseOk(e.hand, run, EndEffector) && PoseOk(e.item, run, GraspObject) && FixtureOk(e.fixture, run, false) &&
    TimeOk(e.evaluated) &&
    Fresh(e.hand.time, e.evaluated) && Fresh(e.item.time, e.evaluated) && Fresh(e.fixture.time, e.evaluated) &&
    0.0 < e.translationTolerance <= ALIGNMENT_TRANSLATION && 0.0 < e.rotationTolerance <= ALIGNMENT_ROTATION &&
    e.translationError <= e.translationTolerance && e.rotationError <= e.rotationTolerance
  }

  ghost predicate PregraspGeometryOk(e: Pregrasp, angle: Angle)
  {
    var relative := Relative(e.hand, e.item);
    NearUnit(e.hand.pose.orientation) && NearUnit(e.item.pose.orientation) &&
    Measures(e.translationError, relative.position, EXPECTED_POSITION) &&
    Turns(e.rotationError, angle, relative.orientation, EXPECTED_ORIENTATION)
  }

  /** `PregraspEvidence.__post_init__` */
  ghost predicate PregraspOk(e: Pregrasp, angle: Angle)
  {
    PregraspRecordOk(e) && PregraspGeometryOk(e, angle)
  }

  predicate GraspRecordOk(e: Grasp)
  {
    var p := e.pregrasp;
    e.contact.run == p.request.run && TimeOk(e.contact.time) && FixtureOk(e.fixture, p.request.run, true) &&
    e.contact.item == p.request.item && e.contact.time >= p.evaluated && e.fixture.sequence > p.fixture.sequence &&
    e.fixture.time >= e.contact.time && TimeOk(e.established) && e.established >= e.fixture.time &&
    e.established - e.contact.time <= FRESHNESS
  }

  /** `GraspEstablishedEvidence.__post_init__` */
  ghost predicate GraspOk(e: Grasp, angle: Angle)
  {
    PregraspOk(e.pregrasp, angle) && GraspRecordOk(e)
  }

  predicate SampleFree(s: Sample)
  {
    s.inLimits && s.selfFree && s.environmentFree && s.objectChecked
  }

  predicate ProofOk(p: CollisionProof)
  {
    2 <= |p.samples| <= MAX_SAMPLES && forall i :: 0 <= i < |p.samples| ==> SampleFree(p.samples[i])
  }

  /** Observed after the motion, and fresh when evaluated. */
  predicate Since(time: int, start: int, evaluated: int)
  {
    time >= start && Fresh(time, evaluated)
  }

  predicate HoldRecordOk(e: Hold)
  {
    var request := e.grasp.pregrasp.request;
    ProofOk(e.proof) && e.motion.completed && e.motion.executed && e.motion.execution == request.execution &&
    e.proof.request == request && e.proof.grasp == e.grasp && PoseOk(e.hand, request.run, EndEffector) &&
    PoseOk(e.item, request.run, GraspObject) && FixtureOk(e.fixture, request.run, true) &&
    e.fixture.sequence > e.grasp.fixture.sequence && TimeOk(e.evaluated) &&
    Since(e.hand.time, e.motion.completedAt, e.evaluated) && Since(e.item.time, e.motion.completedAt, e.evaluated) &&
    Since(e.fixture.time, e.motion.completedAt, e.evaluated) &&
    0.0 < e.translationTolerance <= HOLD_TRANSLATION && 0.0 < e.rotationTolerance <= HOLD_ROTATION &&
    e.maximumTeleport == MAXIMUM_TELEPORT && e.translationChange <= e.translationTolerance &&
    e.rotationChange <= e.rotationTolerance && e.displacement <= e.maximumTeleport
  }

  ghost predicate HoldGeometryOk(e: Hold, angle: Angle)
  {
    var p := e.grasp.pregrasp;
    var initial, final := Relative(p.hand, p.item), Relative(e.hand, e.item);
    NearUnit(e.hand.pose.orientation) && NearUnit(e.item.pose.orientation) &&
    Measures(e.translationChange, initial.position, final.position) &&
    Turns(e.rotationChange, angle, initial.orientation, final.orientation) &&
    Measures(e.displacement, p.item.pose.position, e.item.pose.position)
  }

  /** `HoldEvidence.__post_init__` */
  ghost predicate HoldOk(e: Hold, angle: Angle)
  {
    GraspOk(e.grasp, angle) && HoldRecordOk(e) && HoldGeometryOk(e, angle)
  }

  predicate ReleaseRecordOk(e: Release)
  {
    var run := e.hold.grasp.pregrasp.request.run;
    FixtureOk(e.fixture, run, false) && PoseOk(e.hand, run, EndEffector) && PoseOk(e.item, run, GraspObject) &&
    e.fixture.sequence > e.hold.fixture.sequence && e.stability.stable && TimeOk(e.requested) && TimeOk(e.evaluated) &&
    e.requested >= e.hold.evaluated && Since(e.fixture.time, e.requested, e.evaluated) &&
    Since(e.hand.time, e.requested, e.evaluated) && Since(e.item.time, e.requested, e.evaluated) &&
    Since(e.stability.stateTime, e.requested, e.evaluated) && Since(e.stability.baseTime, e.requested, e.evaluated) &&
    Since(e.stability.controllerTime, e.requested, e.evaluated) && e.minimum == MINIMUM_RELEASE_CHANGE &&
    e.change >= e.minimum
  }

  ghost predicate ReleaseGeometryOk(e: Release)
  {
    NearUnit(e.hand.pose.orientation) && NearUnit(e.item.pose.orientation) &&
    Measures(e.change, Relative(e.hold.hand, e.hold.item).position, Relative(e.hand, e.item).position)
  }

  /** `ReleaseEvidence.__post_init__` */
  ghost predicate ReleaseOk(e: Release, angle: Angle)
  {
    HoldOk(e.hold, angle) && ReleaseRecordOk(e) && ReleaseGeometryOk(e)
  }

  /* ---------- What a release implies ---------- */

  /** The parts of a release that bound the position of the held object. */
  lemma ReleaseMetrics(e: Release, angle: Angle)
    requires ReleaseOk(e, angle)
    ensures var p, h := e.hold.grasp.pregrasp, e.hold;
      Measures(p.translationError, Relative(p.hand, p.item).position, EXPECTED_POSITION) &&
      p.translationError <= ALIGNMENT_TRANSLATION &&
      Measures(h.translationChange, Relative(p.hand, p.item).position, Relative(h.hand, h.item).position) &&
      h.translationChange <= HOLD_TRANSLATION
  {
  }

  lemma WithinBound(length: real, error: real, change: real, aligned: real, moved: real)
    requires 0.0 <= aligned && 0.0 <= moved && length <= (moved + aligned) * (moved + aligned)
    requires Near(error, aligned) && error <= ALIGNMENT_TRANSLATION && Near(change, moved) && change <= HOLD_TRANSLATION
    ensures length <= HELD_BOUND * HELD_BOUND
  {
    assert moved + aligned <= HELD_BOUND;
    SquareMonotone(moved + aligned, HELD_BOUND);
  }

  /** The object was held within 0.017 + 2e-12 of the reviewed grasp offset. */
  lemma HeldPosition(e: Release, angle: Angle)
    requires ReleaseOk(e, angle)
    ensures LengthSquared(Minus(Relative(e.hold.hand, e.hold.item).position, EXPECTED_POSITION)) <=
      HELD_BOUND * HELD_BOUND
  {
    ReleaseMetrics(e, angle);
    var p, h := e.hold.grasp.pregrasp, e.hold;
    var initial, held := Relative(p.hand, p.item).position, Relative(h.hand, h.item).position;
    var aligned: real :| IsDistance(aligned, initial, EXPECTED_POSITION) && Near(p.translationError, aligned);
    var moved: real :| IsDistance(moved, initial, held) && Near(h.translationChange, moved);
    DistanceSymmetric(initial, held, moved);
    TriangleSquared(held, initial, EXPECTED_POSITION, moved, aligned);
    WithinBound(LengthSquared(Minus(held, EXPECTED_POSITION)), p.translationError, h.translationChange, aligned, moved);
  }

  /** The released object has moved away from where it was held, by at least 0.005 - 1e-12. */
  lemma ReleasedMoved(e: Release, angle: Angle)
    requires ReleaseOk(e, angle)
    ensures LengthSquared(Minus(Relative(e.hold.hand, e.hold.item).position, Relative(e.hand, e.item).position)) >=
      RELEASED_BOUND * RELEASED_BOUND
  {
    var a, b := Relative(e.hold.hand, e.hold.item).position, Relative(e.hand, e.item).position;
    var m: real :| IsDistance(m, a, b) && Near(e.change, m);
    SquareMonotone(RELEASED_BOUND, m);
  }

  /* ---------- The order of a release ---------- */

  function PregraspTimes(p: Pregrasp): set<int>
  {
    {p.hand.time, p.item.time, p.fixture.time}
  }

  function HoldTimes(h: Hold): set<int>
  {
    {h.hand.time, h.item.time, h.fixture.time}
  }

  function ReleaseTimes(e: Release): set<int>
  {
    {e.hand.time, e.item.time, e.fixture.time, e.stability.stateTime, e.stability.baseTime, e.stability.controllerTime}
  }

  /** The runs that the evidence of a release names. */
  function Runs(e: Release): set<Text>
  {
    var h, g, p := e.hold, e.hold.grasp, e.hold.grasp.pregrasp;
    {e.hand.run, e.item.run, e.fixture.run, h.hand.run, h.item.run, h.fixture.run, h.proof.request.run, g.contact.run,
     g.fixture.run, p.hand.run, p.item.run, p.fixture.run}
  }

  /** The fixture states in the order of the evidence. */
  function Fixtures(e: Release): seq<Fixture>
  {
    [e.hold.grasp.pregrasp.fixture, e.hold.grasp.fixture, e.hold.fixture, e.fixture]
  }

  /**
   All evidence of a release belongs to one run.  The fixture is seen detached, attached, attached and
   detached, and never twice the same.  Times are ordered from the pregrasp to the established grasp, and
   from the completed motion over the hold to the release; each evaluation follows what it evaluates, fresh.
   */
  lemma Timeline(e: Release, angle: Angle)
    requires ReleaseOk(e, angle)
    ensures Runs(e) == {e.hold.grasp.pregrasp.request.run}
    ensures var fs := Fixtures(e);
      (forall i, j :: 0 <= i < j < |fs| ==> fs[i].sequence < fs[j].sequence) &&
      forall i :: 0 <= i < |fs| ==> (fs[i].attached <==> i == 1 || i == 2)
    ensures var g, p := e.hold.grasp, e.hold.grasp.pregrasp;
      (forall t :: t in PregraspTimes(p) ==> t <= p.evaluated <= t + FRESHNESS && t <= g.contact.time) &&
      p.evaluated <= g.contact.time <= g.fixture.time <= g.established <= g.contact.time + FRESHNESS
    ensures forall s :: s in HoldTimes(e.hold) ==>
      e.hold.motion.completedAt <= s <= e.hold.evaluated <= s + FRESHNESS && s <= e.requested
    ensures forall t :: t in ReleaseTimes(e) ==> e.hold.evaluated <= e.requested <= t <= e.evaluated <= t + FRESHNESS
    ensures forall s, t :: s in HoldTimes(e.hold) && t in ReleaseTimes(e) ==> s <= t
  {
  }

  /* ---------- The sign of a rotation ---------- */

  lemma DotNegated(a: Quaternion, b: Quaternion)
    ensures QuaternionDot(Negate(a), b) == -QuaternionDot(a, b)
  {
  }

  /** A measured angle does not depend on the sign of the parent's quaternion. */
  lemma DistanceUnsigned(parent: Pose, child: Pose, b: Quaternion, angle: Angle)
    ensures RotationDistance(angle, RelativePose(Flipped(parent), child).orientation, b) ==
      RotationDistance(angle, RelativePose(parent, child).orientation, b)
  {
    ParentSign(parent, child);
    DotNegated(RelativePose(parent, child).orientation, b);
  }

  /* ---------- What a release does not imply ---------- */

  /** The evidence up to the established grasp, observed k nanoseconds later. */
  function ShiftGrasp(g: Grasp, k: int): Grasp
  {
    var p := g.pregrasp;
    Grasp(
      p.(hand := p.hand.(time := p.hand.time + k), item := p.item.(time := p.item.time + k),
      fixture := p.fixture.(time := p.fixture.time + k), evaluated := p.evaluated + k),
      g.contact.(time := g.contact.time + k), g.fixture.(time := g.fixture.time + k), g.established + k)
  }

  function ShiftRelease(e: Release, k: int): Release
  {
    var g := ShiftGrasp(e.hold.grasp, k);
    e.(hold := e.hold.(grasp := g, proof := e.hold.proof.(grasp := g)))
  }

  predicate ShiftFits(g: Grasp, k: int)
  {
    var p := g.pregrasp;
    TimeOk(p.hand.time + k) && TimeOk(p.item.time + k) && TimeOk(p.fixture.time + k) && TimeOk(p.evaluated + k) &&
    TimeOk(g.contact.time + k) && TimeOk(g.fixture.time + k) && TimeOk(g.established + k)
  }

  lemma ShiftedGrasp(g: Grasp, k: int, angle: Angle)
    requires GraspOk(g, angle) && ShiftFits(g, k)
    ensures GraspOk(ShiftGrasp(g, k), angle)
  {
    ShiftedPregrasp(g, k, angle);
  }

  lemma ShiftedPregrasp(g: Grasp, k: int, angle: Angle)
    requires PregraspOk(g.pregrasp, angle) && ShiftFits(g, k)
    ensures PregraspOk(ShiftGrasp(g, k).pregrasp, angle)
  {
    var p, q := g.pregrasp, ShiftGrasp(g, k).pregrasp;
    assert Relative(q.hand, q.item) == Relative(p.hand, p.item);
  }

  lemma ShiftedHold(e: Hold, k: int, angle: Angle)
    requires HoldOk(e, angle) && ShiftFits(e.grasp, k)
    ensures var g := ShiftGrasp(e.grasp, k); HoldOk(e.(grasp := g, proof := e.proof.(grasp := g)), angle)
  {
    ShiftedGrasp(e.grasp, k, angle);
    var p, q := e.grasp.pregrasp, ShiftGrasp(e.grasp, k).pregrasp;
    assert Relative(q.hand, q.item) == Relative(p.hand, p.item);
  }

  /**
   The chain does not order the two segments: moving everything up to the established grasp in time,
   even past the completed motion, keeps a release valid exactly as long as the times remain timestamps.
   */
  lemma SegmentsUnordered(e: Release, k: int, angle: Angle)
    requires ReleaseOk(e, angle)
    ensures ReleaseOk(ShiftRelease(e, k), angle) <==> ShiftFits(e.hold.grasp, k)
    ensures ShiftRelease(e, k).hold.grasp.established == e.hold.grasp.established + k
    ensures ShiftRelease(e, k).hold.motion.completedAt == e.hold.motion.completedAt
  {
    if ShiftFits(e.hold.grasp, k) {
      ShiftedHold(e.hold, k, angle);
    }
  }

  /* ---------- A grasp established after everything else ---------- */

  function ExamplePose(i: Quaternion, v: Vector, kind: Kind, time: int): PoseEvidence
  {
    PoseEvidence([], kind, Pose(v, i), time, 1)
  }

  function ExampleGrasp(i: Quaternion, o: Vector, a: Vector, t: int): Grasp
  {
    var hand, item := ExamplePose(i, o, EndEffector, t), ExamplePose(i, a, GraspObject, t);
    var p := Pregrasp(
      Request([], [], []), hand, item, Fixture([], false, t, 1), t, 0.0, 0.0, ALIGNMENT_TRANSLATION,
      ALIGNMENT_ROTATION);
    Grasp(p, Contact([], [], t), Fixture([], true, t, 2), t)
  }

  function ExampleHold(i: Quaternion, o: Vector, a: Vector, t: int): Hold
  {
    var hand, item := ExamplePose(i, o, EndEffector, 0), ExamplePose(i, a, GraspObject, 0);
    var grasp, free := ExampleGrasp(i, o, a, t), Sample(true, true, true, true);
    Hold(
      grasp, CollisionProof(Request([], [], []), grasp, [free, free]), Motion(true, true, [], 0), hand, item,
      Fixture([], true, 0, 3), 0, 0.0, 0.0, 0.0, HOLD_TRANSLATION, HOLD_ROTATION, MAXIMUM_TELEPORT)
  }

  /** A grasp at time t; the motion, the hold and the release at time 0. */
  function ExampleRelease(i: Quaternion, o: Vector, a: Vector, b: Vector, t: int): Release
  {
    Release(
      ExampleHold(i, o, a, t), 0, Fixture([], false, 0, 4), ExamplePose(i, o, EndEffector, 0),
      ExamplePose(i, b, GraspObject, 0), Stability(true, 0, 0, 0), 0, 1.0, MINIMUM_RELEASE_CHANGE)
  }

  /** What the example asks of a hand at o, an item at a, and the released item at b, all with orientation i. */
  ghost predicate ExampleFits(i: Quaternion, o: Vector, a: Vector, b: Vector, angle: Angle)
  {
    var held, released := RelativePose(Pose(o, i), Pose(a, i)), RelativePose(Pose(o, i), Pose(b, i));
    NearUnit(i) && Measures(0.0, held.position, EXPECTED_POSITION) && Measures(0.0, held.position, held.position) &&
    Measures(0.0, a, a) && Measures(1.0, held.position, released.position) &&
    Turns(0.0, angle, held.orientation, EXPECTED_ORIENTATION) &&
    Turns(0.0, angle, held.orientation, held.orientation)
  }

  lemma ExampleRecordsOk(i: Quaternion, o: Vector, a: Vector, b: Vector, t: int)
    requires TimeOk(t)
    ensures PregraspRecordOk(ExampleGrasp(i, o, a, t).pregrasp) && GraspRecordOk(ExampleGrasp(i, o, a, t))
    ensures HoldRecordOk(ExampleHold(i, o, a, t)) && ReleaseRecordOk(ExampleRelease(i, o, a, b, t))
  {
  }

  lemma ExamplePregraspGeometryOk(i: Quaternion, o: Vector, a: Vector, b: Vector, t: int, angle: Angle)
    requires ExampleFits(i, o, a, b, angle)
    ensures PregraspGeometryOk(ExampleGrasp(i, o, a, t).pregrasp, angle)
  {
    var p := ExampleGrasp(i, o, a, t).pregrasp;
    assert NearUnit(p.hand.pose.orientation) && NearUnit(p.item.pose.orientation);
    assert Measures(p.translationError, Relative(p.hand, p.item).position, EXPECTED_POSITION);
    assert Turns(p.rotationError, angle, Relative(p.hand, p.item).orientation, EXPECTED_ORIENTATION);
  }

  lemma ExampleHoldGeometryOk(i: Quaternion, o: Vector, a: Vector, b: Vector, t: int, angle: Angle)
    requires ExampleFits(i, o, a, b, angle)
    ensures HoldGeometryOk(ExampleHold(i, o, a, t), angle)
  {
    var h := ExampleHold(i, o, a, t);
    var p := h.grasp.pregrasp;
    assert NearUnit(h.hand.pose.orientation) && NearUnit(h.item.pose.orientation);
    assert Measures(h.translationChange, Relative(p.hand, p.item).position, Relative(h.hand, h.item).position);
    assert Turns(h.rotationChange, angle, Relative(p.hand, p.item).orientation, Relative(h.hand, h.item).orientation);
    assert Measures(h.displacement, p.item.pose.position, h.item.pose.position);
  }

  lemma ExampleReleaseGeometryOk(i: Quaternion, o: Vector, a: Vector, b: Vector, t: int, angle: Angle)
    requires ExampleFits(i, o, a, b, angle)
    ensures ReleaseGeometryOk(ExampleRelease(i, o, a, b, t))
  {
  }

  lemma ExampleReleaseOk(i: Quaternion, o: Vector, a: Vector, b: Vector, t: int, angle: Angle)
    requires ExampleFits(i, o, a, b, angle) && TimeOk(t)
    ensures ReleaseOk(ExampleRelease(i, o, a, b, t), angle)
  {
    ExampleRecordsOk(i, o, a, b, t);
    ExamplePregraspGeometryOk(i, o, a, b, t, angle);
    ExampleHoldGeometryOk(i, o, a, b, t, angle);
    ExampleReleaseGeometryOk(i, o, a, b, t, angle);
  }

  lemma IdentityNearUnit(i: Quaternion)
    requires IsIdentity(i)
    ensures NearUnit(i)
  {
    IdentityNorm(i);
    var n: real := 1.0;
    assert NormIs(i, n);
  }

  lemma LengthOnAxis(v: Vector, d: real)
    requires v.x == -d && v.y == 0.0 && v.z == 0.0
    ensures LengthSquared(v) == d * d
  {
  }

  /** Moving by d along the first axis covers the distance d. */
  lemma MovedAlong(a: Vector, b: Vector, d: real)
    requires d >= 0.0 && b == Vector(a.x + d, a.y, a.z)
    ensures Measures(d, a, b)
  {
    LengthOnAxis(Minus(a, b), d);
    assert IsDistance(d, a, b);
    assert Near(d, d);
  }

  /** The angle between equal rotations. */
  lemma NoRotation(i: Quaternion, j: Quaternion, angle: Angle)
    requires IsIdentity(i) && j == i && angle(1.0) == 0.0
    ensures Turns(0.0, angle, i, j)
  {
    assert QuaternionDot(i, j) == 1.0;
  }

  lemma ExampleFitting(i: Quaternion, a: Vector, b: Vector, angle: Angle)
    requires IsIdentity(i) && a == EXPECTED_POSITION && angle(1.0) == 0.0
    requires Measures(0.0, a, a) && Measures(1.0, a, b)
    ensures ExampleFits(i, ORIGIN, a, b, angle)
  {
    IdentityNearUnit(i);
    IdentityRelative(i, a);
    IdentityRelative(i, b);
    NoRotation(i, i, angle);
    NoRotation(i, EXPECTED_ORIENTATION, angle);
  }

  lemma ExampleExists(angle: Angle) returns (i: Quaternion, o: Vector, a: Vector, b: Vector)
    requires angle(1.0) == 0.0
    ensures ExampleFits(i, o, a, b, angle)
  {
    i, o, a := EXPECTED_ORIENTATION, ORIGIN, EXPECTED_POSITION;
    b := Vector(a.x + 1.0, a.y, a.z);
    MovedAlong(a, a, 0.0);
    MovedAlong(a, b, 1.0);
    ExampleFitting(i, a, b, angle);
  }

  /** A valid release whose grasp is established after the motion, after the hold and after the release itself. */
  lemma GraspAfterRelease(angle: Angle) returns (e: Release)
    requires angle(1.0) == 0.0
    ensures ReleaseOk(e, angle)
    ensures e.hold.grasp.established > e.hold.motion.completedAt
    ensures e.hold.grasp.established > e.hold.evaluated && e.hold.grasp.established > e.evaluated
  {
    var i, o, a, b := ExampleExists(angle);
    ExampleReleaseOk(i, o, a, b, 1, angle);
    e := ExampleRelease(i, o, a, b, 1);
  }
}
