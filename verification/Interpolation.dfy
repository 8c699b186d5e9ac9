/**
 Bounded joint interpolation over the reals, the joint catalog's checks, and what collision-free
 plan evidence inherits from them.
 */
module Interpolation {
  import opened Basics
  import opened Ordering

  const MAX_WAYPOINTS: int := 129
  const MAX_JOINTS: nat := 8

  /* ---------- The interpolation ---------- */

  datatype Config = Config(step: real, maxWaypoints: int)

  /** The bounds checked by the planner configuration. */
  predicate ConfigOk(c: Config)
  {
    0.0 < c.step <= 0.25 && 2 <= c.maxWaypoints <= MAX_WAYPOINTS
  }

  function Ceiling(a: real): int
  {
    -((-a).Floor)
  }

  function LargestDelta(start: seq<real>, goal: seq<real>): real
    requires |start| == |goal| > 0
  {
    var d := Absolute(goal[0] - start[0]);
    if |start| == 1 then d
    else
      var rest := LargestDelta(start[1..], goal[1..]);
      if rest > d then rest else d
  }

  /** The number of equal segments. */
  function Segments(delta: real, step: real): int
    requires step > 0.0
  {
    var n := Ceiling(delta / step);
    if n > 1 then n else 1
  }

  function Waypoint(start: seq<real>, goal: seq<real>, index: nat, steps: nat): (w: seq<real>)
    requires |start| == |goal| && steps > 0
    ensures |w| == |start|
  {
    seq(|start|, j requires 0 <= j < |start| =>
      start[j] + (goal[j] - start[j]) * (index as real / steps as real))
  }

  function Waypoints(start: seq<real>, goal: seq<real>, steps: nat): (ws: seq<seq<real>>)
    requires |start| == |goal| && steps > 0
    ensures |ws| == steps + 1
  {
    seq(steps + 1, index requires 0 <= index <= steps => Waypoint(start, goal, index, steps))
  }

  /** `_deterministic_joint_positions`; None when it raises. */
  function Interpolate(c: Config, start: seq<real>, goal: seq<real>): Option<seq<seq<real>>>
    requires ConfigOk(c) && |start| == |goal| > 0
  {
    var delta := LargestDelta(start, goal);
    if delta > c.step * (c.maxWaypoints - 1) as real then None
    else
      var steps := Segments(delta, c.step);
      if steps + 1 > c.maxWaypoints then None else Some(Waypoints(start, goal, steps))
  }

  /* ---------- Arithmetic ---------- */

  lemma CeilingBounds(a: real)
    ensures Ceiling(a) as real - 1.0 < a <= Ceiling(a) as real
  {
  }

  lemma TimesAtMost(q: real, b: real, n: real, a: real)
    requires b > 0.0 && q * b == a
    ensures q <= n <==> a <= n * b
  {
    if q <= n {
      Scaled(q, n, b);
    } else {
      ScaledStrictly(n, q, b);
    }
  }

  /** A quotient by a positive number is at most n exactly when the dividend is at most n times it. */
  lemma QuotientAtMost(a: real, b: real, n: real)
    requires b > 0.0
    ensures a / b <= n <==> a <= n * b
  {
    assert (a / b) * b == a;
    TimesAtMost(a / b, b, n, a);
  }

  lemma Scaled(a: real, b: real, c: real)
    requires a <= b && c >= 0.0
    ensures a * c <= b * c
  {
    ProductNonnegative(b - a, c);
    assert (b - a) * c == b * c - a * c;
  }

  lemma ScaledStrictly(a: real, b: real, c: real)
    requires a < b && c > 0.0
    ensures a * c < b * c
  {
    ProductPositive(b - a, c);
    assert (b - a) * c == b * c - a * c;
  }

  /** The fewest equal segments, at least one, that are no longer than the step. */
  lemma SegmentsFewest(delta: real, step: real, n: int)
    requires step > 0.0 && n >= 1
    ensures Segments(delta, step) <= n <==> delta <= step * n as real
  {
    var q := delta / step;
    CeilingBounds(q);
    QuotientAtMost(delta, step, n as real);
    assert n as real * step == step * n as real;
    if q <= n as real {
      assert Ceiling(q) as real < n as real + 1.0;
      assert Ceiling(q) < n + 1;
    }
  }

  lemma {:induction false} LargestDeltaIs(start: seq<real>, goal: seq<real>)
    requires |start| == |goal| > 0
    ensures forall j :: 0 <= j < |start| ==> Absolute(goal[j] - start[j]) <= LargestDelta(start, goal)
    ensures exists j :: 0 <= j < |start| && Absolute(goal[j] - start[j]) == LargestDelta(start, goal)
  {
    if |start| == 1 {
      assert Absolute(goal[0] - start[0]) == LargestDelta(start, goal);
    } else {
      LargestDeltaIs(start[1..], goal[1..]);
      var rest := LargestDelta(start[1..], goal[1..]);
      var k :| 0 <= k < |start| - 1 && Absolute(goal[1..][k] - start[1..][k]) == rest;
      var at := if rest > Absolute(goal[0] - start[0]) then k + 1 else 0;
      assert Absolute(goal[at] - start[at]) == LargestDelta(start, goal);
      forall j | 0 <= j < |start| ensures Absolute(goal[j] - start[j]) <= LargestDelta(start, goal) {
        if j > 0 {
          assert goal[j] == goal[1..][j - 1] && start[j] == start[1..][j - 1];
        }
      }
    }
  }

  /* ---------- The cap ---------- */

  /** The second check of the cap never fails after the first one: it is redundant. */
  lemma {:induction false} SecondCapImplied(c: Config, start: seq<real>, goal: seq<real>)
    requires ConfigOk(c) && |start| == |goal| > 0
    ensures Interpolate(c, start, goal).Some? <==>
      LargestDelta(start, goal) <= c.step * (c.maxWaypoints - 1) as real
    ensures Interpolate(c, start, goal).Some? ==> 2 <= |Interpolate(c, start, goal).value| <= c.maxWaypoints
  {
    SegmentsFewest(LargestDelta(start, goal), c.step, c.maxWaypoints - 1);
  }

  /* ---------- The path ---------- */

  lemma EndPoints(start: seq<real>, goal: seq<real>, steps: nat)
    requires |start| == |goal| && steps > 0
    ensures Waypoints(start, goal, steps)[0] == start && Waypoints(start, goal, steps)[steps] == goal
  {
    assert 0 as real / steps as real == 0.0;
    assert steps as real / steps as real == 1.0;
    forall j | 0 <= j < |start|
      ensures Waypoint(start, goal, 0, steps)[j] == start[j] && Waypoint(start, goal, steps, steps)[j] == goal[j]
    {
    }
  }

  lemma AbsoluteProduct(a: real, b: real)
    requires b >= 0.0
    ensures Absolute(a * b) == Absolute(a) * b
  {
    if a < 0.0 {
      assert (-a) * b >= 0.0;
    } else {
      assert a * b >= 0.0;
    }
  }

  lemma FractionStep(index: nat, steps: nat)
    requires steps > 0
    ensures (index + 1) as real / steps as real - index as real / steps as real == 1.0 / steps as real
  {
  }

  lemma DifferenceOf(a: real, d: real, f: real, g: real)
    ensures (a + d * g) - (a + d * f) == d * (g - f)
  {
  }

  /** Between neighbours a joint moves by its total change divided by the number of segments. */
  lemma NeighbourMove(start: seq<real>, goal: seq<real>, steps: nat, index: nat, j: nat)
    requires |start| == |goal| && steps > 0 && index < steps && j < |start|
    ensures Absolute(Waypoint(start, goal, index + 1, steps)[j] - Waypoint(start, goal, index, steps)[j]) ==
      Absolute(goal[j] - start[j]) * (1.0 / steps as real)
  {
    var d := goal[j] - start[j];
    var f, g := index as real / steps as real, (index + 1) as real / steps as real;
    FractionStep(index, steps);
    DifferenceOf(start[j], d, f, g);
    assert 1.0 / steps as real >= 0.0;
    AbsoluteProduct(d, 1.0 / steps as real);
  }

  lemma ShareAtMost(d: real, step: real, n: real)
    requires n > 0.0
    ensures d * (1.0 / n) <= step <==> d <= step * n
  {
    var q := d * (1.0 / n);
    var r := 1.0 / n;
    assert r * n == 1.0;
    assert q * n == d * (r * n);
    if q <= step {
      Scaled(q, step, n);
    } else {
      ScaledStrictly(step, q, n);
    }
  }

  lemma ShareBound(move: real, d: real, delta: real, step: real, n: int)
    requires n > 0 && move == d * (1.0 / n as real) && d <= delta <= step * n as real
    ensures move <= step
  {
    ShareAtMost(d, step, n as real);
  }

  /** The path consists of the waypoints of the chosen number of segments. */
  lemma {:induction false} PathIs(c: Config, start: seq<real>, goal: seq<real>, ws: seq<seq<real>>)
    requires ConfigOk(c) && |start| == |goal| > 0 && Interpolate(c, start, goal) == Some(ws)
    ensures var n := Segments(LargestDelta(start, goal), c.step);
      n >= 1 && ws == Waypoints(start, goal, n)
  {
  }

  /** The path leads from the start to the goal. */
  lemma PathEnds(c: Config, start: seq<real>, goal: seq<real>, ws: seq<seq<real>>)
    requires ConfigOk(c) && |start| == |goal| > 0 && Interpolate(c, start, goal) == Some(ws)
    ensures |ws| >= 2 && ws[0] == start && ws[|ws| - 1] == goal
  {
    PathIs(c, start, goal, ws);
    EndPoints(start, goal, |ws| - 1);
  }

  lemma WaypointMoves(
      start: seq<real>, goal: seq<real>, n: nat, ws: seq<seq<real>>, index: nat, j: nat, delta: real, step: real)
    requires |start| == |goal| && n > 0 && ws == Waypoints(start, goal, n) && index < n && j < |start|
    requires Absolute(goal[j] - start[j]) <= delta <= step * n as real
    ensures |ws[index + 1]| == |ws[index]| == |start| && Absolute(ws[index + 1][j] - ws[index][j]) <= step
  {
    MoveBound(start, goal, n, index, j, delta, step);
    assert ws[index] == Waypoint(start, goal, index, n) && ws[index + 1] == Waypoint(start, goal, index + 1, n);
  }

  lemma {:induction false} DeltaAt(start: seq<real>, goal: seq<real>, j: nat)
    requires |start| == |goal| && j < |start|
    ensures Absolute(goal[j] - start[j]) <= LargestDelta(start, goal)
  {
    LargestDeltaIs(start, goal);
  }

  lemma SegmentsEnough(delta: real, step: real)
    requires step > 0.0
    ensures Segments(delta, step) >= 1 && delta <= step * Segments(delta, step) as real
  {
    SegmentsFewest(delta, step, Segments(delta, step));
  }

  lemma PathParts(c: Config, start: seq<real>, goal: seq<real>, ws: seq<seq<real>>, j: nat)
    returns (delta: real, n: nat)
    requires ConfigOk(c) && |start| == |goal| > 0 && Interpolate(c, start, goal) == Some(ws) && j < |start|
    ensures n > 0 && ws == Waypoints(start, goal, n) && |ws| == n + 1
    ensures Absolute(goal[j] - start[j]) <= delta <= c.step * n as real
  {
    delta := LargestDelta(start, goal);
    n := Segments(delta, c.step);
    DeltaAt(start, goal, j);
    SegmentsEnough(delta, c.step);
  }

  /** No joint moves by more than the interpolation step between neighbours. */
  lemma StepBound(c: Config, start: seq<real>, goal: seq<real>, ws: seq<seq<real>>, index: nat, j: nat)
    requires ConfigOk(c) && |start| == |goal| > 0 && Interpolate(c, start, goal) == Some(ws) && j < |start|
    requires index + 1 < |ws|
    ensures |ws[index + 1]| == |ws[index]| == |start| && Absolute(ws[index + 1][j] - ws[index][j]) <= c.step
  {
    var delta, n := PathParts(c, start, goal, ws, j);
    WaypointMoves(start, goal, n, ws, index, j, delta, c.step);
  }

  lemma MoveBound(start: seq<real>, goal: seq<real>, n: nat, index: nat, j: nat, delta: real, step: real)
    requires |start| == |goal| && n > 0 && index < n && j < |start|
    requires Absolute(goal[j] - start[j]) <= delta <= step * n as real
    ensures Absolute(Waypoint(start, goal, index + 1, n)[j] - Waypoint(start, goal, index, n)[j]) <= step
  {
    NeighbourMove(start, goal, n, index, j);
    ShareBound(
      Absolute(Waypoint(start, goal, index + 1, n)[j] - Waypoint(start, goal, index, n)[j]),
      Absolute(goal[j] - start[j]), delta, step, n);
  }

  lemma MoveTooFew(start: seq<real>, goal: seq<real>, n: nat, j: nat, step: real)
    requires |start| == |goal| && n > 0 && j < |start|
    requires Absolute(Waypoint(start, goal, 1, n)[j] - Waypoint(start, goal, 0, n)[j]) <= step
    ensures Absolute(goal[j] - start[j]) <= step * n as real
  {
    NeighbourMove(start, goal, n, 0, j);
    ShareAtMost(Absolute(goal[j] - start[j]), step, n as real);
  }

  lemma LargestMoves(start: seq<real>, goal: seq<real>) returns (j: nat)
    requires |start| == |goal| > 0
    ensures j < |start| && Absolute(goal[j] - start[j]) == LargestDelta(start, goal)
  {
    LargestDeltaIs(start, goal);
    j :| 0 <= j < |start| && Absolute(goal[j] - start[j]) == LargestDelta(start, goal);
  }

  /** Equal segments that keep to the step: each joint's first move is short enough. */
  ghost predicate KeepsStep(start: seq<real>, goal: seq<real>, n: nat, step: real)
    requires |start| == |goal| && n > 0
  {
    forall j :: 0 <= j < |start| ==>
      Absolute(Waypoint(start, goal, 1, n)[j] - Waypoint(start, goal, 0, n)[j]) <= step
  }

  lemma {:induction false} KeptStep(start: seq<real>, goal: seq<real>, n: nat, step: real)
    requires |start| == |goal| > 0 && n > 0 && KeepsStep(start, goal, n, step)
    ensures LargestDelta(start, goal) <= step * n as real
  {
    var j := LargestMoves(start, goal);
    MoveTooFew(start, goal, n, j, step);
  }

  /** Any path of equal segments that keeps to the step has at least as many segments. */
  lemma FewestSegments(c: Config, start: seq<real>, goal: seq<real>, ws: seq<seq<real>>, n: nat)
    requires ConfigOk(c) && |start| == |goal| > 0 && Interpolate(c, start, goal) == Some(ws) && n >= 1
    requires KeepsStep(start, goal, n, c.step)
    ensures |ws| <= n + 1
  {
    KeptStep(start, goal, n, c.step);
    SegmentsFewest(LargestDelta(start, goal), c.step, n);
    PathIs(c, start, goal, ws);
  }

  predicate Within(p: seq<real>, lower: seq<real>, upper: seq<real>)
  {
    |p| == |lower| == |upper| && forall j :: 0 <= j < |p| ==> lower[j] <= p[j] <= upper[j]
  }

  lemma PartOf(e: real, f: real)
    requires e >= 0.0 && 0.0 <= f <= 1.0
    ensures 0.0 <= e * f <= e
  {
    ProductNonnegative(e, f);
    Scaled(f, 1.0, e);
  }

  lemma PartOfNegative(d: real, f: real)
    requires d <= 0.0 && 0.0 <= f <= 1.0
    ensures d <= d * f <= 0.0
  {
    ProductNonnegative(f, -d);
    assert f * (-d) == -(d * f);
    ProductNonnegative(1.0 - f, -d);
    assert (1.0 - f) * (-d) == -d + d * f;
  }

  lemma ConvexUp(a: real, d: real, f: real, low: real, high: real)
    requires d >= 0.0 && low <= a && a + d <= high && 0.0 <= f <= 1.0
    ensures low <= a + d * f <= high
  {
    PartOf(d, f);
  }

  lemma ConvexDown(a: real, d: real, f: real, low: real, high: real)
    requires d <= 0.0 && a <= high && low <= a + d && 0.0 <= f <= 1.0
    ensures low <= a + d * f <= high
  {
    PartOfNegative(d, f);
  }

  lemma Convex(a: real, d: real, f: real, low: real, high: real)
    requires low <= a <= high && low <= a + d <= high && 0.0 <= f <= 1.0
    ensures low <= a + d * f <= high
  {
    if d >= 0.0 {
      ConvexUp(a, d, f, low, high);
    } else {
      ConvexDown(a, d, f, low, high);
    }
  }

  /** Every waypoint between two positions within the joint limits is within them. */
  lemma WithinLimits(start: seq<real>, goal: seq<real>, steps: nat, index: nat, lower: seq<real>, upper: seq<real>)
    requires steps > 0 && index <= steps && Within(start, lower, upper) && Within(goal, lower, upper)
    ensures Within(Waypoint(start, goal, index, steps), lower, upper)
  {
    var f := index as real / steps as real;
    QuotientAtMost(index as real, steps as real, 1.0);
    assert f >= 0.0;
    forall j | 0 <= j < |start| ensures lower[j] <= Waypoint(start, goal, index, steps)[j] <= upper[j] {
      Convex(start[j], goal[j] - start[j], f, lower[j], upper[j]);
    }
  }

  /* ---------- The joint catalog ---------- */

  datatype Joint = Joint(name: Text, fixed: bool, lower: real, upper: real)

  /** The chain of joints, the names of the movable ones in chain order, and the robot's other joints. */
  datatype Catalog = Catalog(chain: seq<Joint>, planning: seq<Text>, robot: set<Text>)

  datatype Position = Position(name: Text, value: real)

  datatype Problem =
    | DuplicateJoint
    | FixedJoint(name: Text)
    | WrongArmJoint(name: Text)
    | UnknownJoint(name: Text)
    | MissingJoint
    | OrderMismatch
    | BelowLimit(name: Text)
    | AboveLimit(name: Text)

  function JointFor(chain: seq<Joint>, name: Text): Option<Joint>
  {
    if chain == [] then None
    else if chain[0].name == name then Some(chain[0])
    else JointFor(chain[1..], name)
  }

  /** The planning names are distinct movable joints of the chain. */
  predicate CatalogOk(c: Catalog)
  {
    Distinct(c.planning) && c.planning != [] && |c.planning| <= MAX_JOINTS &&
    forall i :: 0 <= i < |c.planning| ==>
      JointFor(c.chain, c.planning[i]).Some? && !JointFor(c.chain, c.planning[i]).value.fixed
  }

  function NameOf(p: Position): Text
  {
    p.name
  }

  function ValueOf(p: Position): real
  {
    p.value
  }

  /** What is wrong with the first name that is not a planning joint. */
  function FirstForeign(c: Catalog, names: seq<Text>): Option<Problem>
  {
    if names == [] then None
    else if names[0] in c.planning then FirstForeign(c, names[1..])
    else
      var joint := JointFor(c.chain, names[0]);
      if joint.Some? && joint.value.fixed then Some(FixedJoint(names[0]))
      else if names[0] in c.robot then Some(WrongArmJoint(names[0]))
      else Some(UnknownJoint(names[0]))
  }

  function FirstOutside(c: Catalog, positions: seq<Position>): Option<Problem>
    requires forall i :: 0 <= i < |positions| ==> JointFor(c.chain, positions[i].name).Some?
  {
    if positions == [] then None
    else
      var joint := JointFor(c.chain, positions[0].name).value;
      if positions[0].value < joint.lower then Some(BelowLimit(positions[0].name))
      else if positions[0].value > joint.upper then Some(AboveLimit(positions[0].name))
      else FirstOutside(c, positions[1..])
  }

  /** `validate_positions`: None when the positions are accepted. */
  function ValidatePositions(c: Catalog, positions: seq<Position>): Option<Problem>
    requires CatalogOk(c)
  {
    var names := Map(NameOf, positions);
    if !Distinct(names) then Some(DuplicateJoint)
    else if FirstForeign(c, names).Some? then FirstForeign(c, names)
    else if exists i :: 0 <= i < |c.planning| && c.planning[i] !in names then Some(MissingJoint)
    else if names != c.planning then Some(OrderMismatch)
    else
      assert forall i :: 0 <= i < |positions| ==> names[i] == positions[i].name;
      FirstOutside(c, positions)
  }

  function Lower(c: Catalog): (r: seq<real>)
    requires CatalogOk(c)
    ensures |r| == |c.planning|
  {
    seq(|c.planning|, i requires 0 <= i < |c.planning| => JointFor(c.chain, c.planning[i]).value.lower)
  }

  function Upper(c: Catalog): (r: seq<real>)
    requires CatalogOk(c)
    ensures |r| == |c.planning|
  {
    seq(|c.planning|, i requires 0 <= i < |c.planning| => JointFor(c.chain, c.planning[i]).value.upper)
  }

  lemma {:induction false} NoForeign(c: Catalog, names: seq<Text>)
    ensures FirstForeign(c, names) == None <==> forall i :: 0 <= i < |names| ==> names[i] in c.planning
    ensures FirstForeign(c, names).Some? ==>
      FirstForeign(c, names).value.FixedJoint? || FirstForeign(c, names).value.WrongArmJoint? ||
      FirstForeign(c, names).value.UnknownJoint?
  {
    if names != [] {
      NoForeign(c, names[1..]);
      assert forall i :: 0 < i < |names| ==> names[i] == names[1..][i - 1];
    }
  }

  lemma {:induction false} NoneOutside(c: Catalog, positions: seq<Position>)
    requires forall i :: 0 <= i < |positions| ==> JointFor(c.chain, positions[i].name).Some?
    ensures FirstOutside(c, positions) == None <==>
      forall i :: 0 <= i < |positions| ==> WithinJoint(c, positions[i])
  {
    if positions != [] {
      NoneOutside(c, positions[1..]);
      assert forall i :: 0 < i < |positions| ==> positions[i] == positions[1..][i - 1];
    }
  }

  lemma {:induction false} AcceptedNames(c: Catalog, positions: seq<Position>)
    requires CatalogOk(c) && ValidatePositions(c, positions) == None
    ensures Map(NameOf, positions) == c.planning
  {
  }

  lemma {:induction false} NamedPositions(c: Catalog, positions: seq<Position>)
    requires CatalogOk(c) && Map(NameOf, positions) == c.planning
    ensures forall i :: 0 <= i < |positions| ==> JointFor(c.chain, positions[i].name).Some?
    ensures ValidatePositions(c, positions) == FirstOutside(c, positions)
  {
    var names := Map(NameOf, positions);
    NoForeign(c, names);
    forall i | 0 <= i < |positions| ensures JointFor(c.chain, positions[i].name).Some? {
      assert names[i] == positions[i].name;
    }
  }

  /** Positions are accepted exactly when they name the planning joints in order, within their limits. */
  lemma {:induction false} ValidPositions(c: Catalog, positions: seq<Position>)
    requires CatalogOk(c)
    ensures ValidatePositions(c, positions) == None <==>
      Map(NameOf, positions) == c.planning && Within(Map(ValueOf, positions), Lower(c), Upper(c))
  {
    if ValidatePositions(c, positions) == None {
      AcceptedNames(c, positions);
    }
    if Map(NameOf, positions) == c.planning {
      NamedPositions(c, positions);
      NoneOutside(c, positions);
      WithinNamed(c, positions);
    }
  }

  predicate WithinJoint(c: Catalog, p: Position)
  {
    var joint := JointFor(c.chain, p.name);
    joint.Some? && joint.value.lower <= p.value <= joint.value.upper
  }

  lemma {:induction false} JointAt(c: Catalog, positions: seq<Position>, i: nat)
    requires CatalogOk(c) && Map(NameOf, positions) == c.planning && i < |positions|
    ensures i < |c.planning| && Map(ValueOf, positions)[i] == positions[i].value
    ensures WithinJoint(c, positions[i]) <==> Lower(c)[i] <= positions[i].value <= Upper(c)[i]
  {
    assert Map(NameOf, positions)[i] == positions[i].name;
  }

  lemma PointwiseWithin(c: Catalog, positions: seq<Position>, values: seq<real>, lower: seq<real>, upper: seq<real>)
    requires |values| == |positions| == |lower| == |upper|
    requires forall i :: 0 <= i < |positions| ==> (WithinJoint(c, positions[i]) <==> lower[i] <= values[i] <= upper[i])
    ensures Within(values, lower, upper) <==> forall i :: 0 <= i < |positions| ==> WithinJoint(c, positions[i])
  {
  }

  lemma {:induction false} JointsAt(
      c: Catalog, positions: seq<Position>, values: seq<real>, lower: seq<real>, upper: seq<real>)
    requires CatalogOk(c) && Map(NameOf, positions) == c.planning
    requires values == Map(ValueOf, positions) && lower == Lower(c) && upper == Upper(c)
    ensures |values| == |positions| == |lower| == |upper|
    ensures forall i :: 0 <= i < |positions| ==> (WithinJoint(c, positions[i]) <==> lower[i] <= values[i] <= upper[i])
  {
    forall i | 0 <= i < |positions| ensures WithinJoint(c, positions[i]) <==> lower[i] <= values[i] <= upper[i] {
      JointAt(c, positions, i);
    }
  }

  lemma {:induction false} WithinNamed(c: Catalog, positions: seq<Position>)
    requires CatalogOk(c) && Map(NameOf, positions) == c.planning
    ensures Within(Map(ValueOf, positions), Lower(c), Upper(c)) <==>
      forall i :: 0 <= i < |positions| ==> WithinJoint(c, positions[i])
  {
    JointsAt(c, positions, Map(ValueOf, positions), Lower(c), Upper(c));
    PointwiseWithin(c, positions, Map(ValueOf, positions), Lower(c), Upper(c));
  }

  /* ---------- Collision-free plan evidence ---------- */

  datatype Request = Request(catalog: Catalog, config: Config, start: seq<Position>, goal: seq<Position>)

  datatype Proof = Proof(waypoints: seq<seq<real>>, selfFree: seq<bool>, environmentFree: seq<bool>)

  datatype Evidence = Evidence(request: Request, proof: Option<Proof>, waypoints: seq<seq<Position>>, colliding: seq<Text>)

  /** What the constructors of the request establish. */
  predicate RequestOk(r: Request)
  {
    CatalogOk(r.catalog) && ConfigOk(r.config) && ValidatePositions(r.catalog, r.start) == None &&
    ValidatePositions(r.catalog, r.goal) == None
  }

  function Values(ps: seq<Position>): seq<real>
  {
    Map(ValueOf, ps)
  }

  function Paths(ws: seq<seq<Position>>): (r: seq<seq<real>>)
    ensures |r| == |ws| && forall i :: 0 <= i < |ws| ==> r[i] == Values(ws[i])
  {
    seq(|ws|, i requires 0 <= i < |ws| => Values(ws[i]))
  }

  predicate AllTrue(flags: seq<bool>)
  {
    forall i :: 0 <= i < |flags| ==> flags[i]
  }

  /** The collision proof has one flag of each kind per waypoint, and its path is the planner's. */
  predicate ProofOk(r: Request, p: Proof)
    requires RequestOk(r) && |r.start| == |r.goal| > 0
  {
    |p.selfFree| == |p.waypoints| && |p.environmentFree| == |p.waypoints| &&
    Interpolate(r.config, Values(r.start), Values(r.goal)) == Some(p.waypoints)
  }

  lemma RequestSizes(r: Request)
    requires RequestOk(r)
    ensures |r.start| == |r.goal| == |r.catalog.planning| > 0
  {
    ValidPositions(r.catalog, r.start);
    ValidPositions(r.catalog, r.goal);
    assert |Map(NameOf, r.start)| == |r.start| && |Map(NameOf, r.goal)| == |r.goal|;
  }

  /** The checks made on evidence that reports a collision-free plan. */
  predicate CollisionFree(e: Evidence)
    requires RequestOk(e.request)
  {
    RequestSizes(e.request);
    e.proof.Some? && ProofOk(e.request, e.proof.value) &&
    AllTrue(e.proof.value.selfFree) && AllTrue(e.proof.value.environmentFree) &&
    2 <= |e.waypoints| <= e.request.config.maxWaypoints && e.colliding == [] &&
    (forall i :: 0 <= i < |e.waypoints| ==> ValidatePositions(e.request.catalog, e.waypoints[i]) == None) &&
    e.waypoints[0] == e.request.start && e.waypoints[|e.waypoints| - 1] == e.request.goal &&
    Interpolate(e.request.config, Values(e.request.start), Values(e.request.goal)) == Some(Paths(e.waypoints))
  }

  /** Joint j moves by no more than the step after waypoint index. */
  predicate StepKept(ws: seq<seq<Position>>, index: nat, j: nat, step: real)
    requires index + 1 < |ws|
  {
    j < |ws[index]| && j < |ws[index + 1]| && Absolute(ws[index + 1][j].value - ws[index][j].value) <= step
  }

  lemma EvidenceStep(e: Evidence, index: nat, j: nat)
    requires RequestOk(e.request) && CollisionFree(e) && index + 1 < |e.waypoints| && j < |e.request.start|
    ensures StepKept(e.waypoints, index, j, e.request.config.step)
  {
    RequestSizes(e.request);
    var start, goal, ws := Values(e.request.start), Values(e.request.goal), Paths(e.waypoints);
    StepBound(e.request.config, start, goal, ws, index, j);
    assert ws[index] == Values(e.waypoints[index]) && ws[index + 1] == Values(e.waypoints[index + 1]);
  }

  /** The waypoint names the planning joints in order, within their limits. */
  predicate WithinCatalog(c: Catalog, positions: seq<Position>)
    requires CatalogOk(c)
  {
    Map(NameOf, positions) == c.planning && Within(Values(positions), Lower(c), Upper(c))
  }

  /**
   Collision-free evidence inherits every guarantee of the path: end points, waypoint cap, joint limits
   and collision flags at each waypoint, and the step bound with the fewest equal segments that keep it.
   */
  lemma EvidencePath(e: Evidence)
    requires RequestOk(e.request) && CollisionFree(e)
    ensures 2 <= |e.waypoints| <= e.request.config.maxWaypoints
    ensures e.waypoints[0] == e.request.start && e.waypoints[|e.waypoints| - 1] == e.request.goal
    ensures |e.request.start| == |e.request.goal| > 0
    ensures e.proof.value.waypoints == Paths(e.waypoints)
    ensures |e.proof.value.selfFree| == |e.waypoints| && |e.proof.value.environmentFree| == |e.waypoints|
    ensures forall i :: 0 <= i < |e.waypoints| ==> e.proof.value.selfFree[i] && e.proof.value.environmentFree[i]
    ensures forall i :: 0 <= i < |e.waypoints| ==> WithinCatalog(e.request.catalog, e.waypoints[i])
    ensures forall index: nat, j: nat :: index + 1 < |e.waypoints| && j < |e.request.start| ==>
      StepKept(e.waypoints, index, j, e.request.config.step)
    ensures var start, goal := Values(e.request.start), Values(e.request.goal);
      forall n: nat :: n >= 1 && KeepsStep(start, goal, n, e.request.config.step) ==> |e.waypoints| <= n + 1
  {
    var r := e.request;
    RequestSizes(r);
    var start, goal, ws := Values(r.start), Values(r.goal), Paths(e.waypoints);
    assert e.proof.value.waypoints == ws;
    forall i | 0 <= i < |e.waypoints| ensures WithinCatalog(r.catalog, e.waypoints[i]) {
      ValidPositions(r.catalog, e.waypoints[i]);
    }
    forall index: nat, j: nat | index + 1 < |e.waypoints| && j < |r.start|
      ensures StepKept(e.waypoints, index, j, r.config.step)
    {
      EvidenceStep(e, index, j);
    }
    forall n: nat | n >= 1 && KeepsStep(start, goal, n, r.config.step) ensures |e.waypoints| <= n + 1 {
      FewestSegments(r.config, start, goal, ws, n);
    }
  }

  /**
   The validation of every waypoint is redundant: an interpolation between accepted positions is
   accepted position by position.
   */
  lemma PathAccepted(r: Request, ws: seq<seq<Position>>, i: nat)
    requires RequestOk(r) && |r.start| == |r.goal| > 0
    requires Interpolate(r.config, Values(r.start), Values(r.goal)) == Some(Paths(ws))
    requires i < |ws| && Map(NameOf, ws[i]) == r.catalog.planning
    ensures ValidatePositions(r.catalog, ws[i]) == None
  {
    var c := r.catalog;
    ValidPositions(c, r.start);
    ValidPositions(c, r.goal);
    var start, goal := Values(r.start), Values(r.goal);
    var n := Segments(LargestDelta(start, goal), r.config.step);
    WithinLimits(start, goal, n, i, Lower(c), Upper(c));
    assert Paths(ws)[i] == Waypoints(start, goal, n)[i];
    ValidPositions(c, ws[i]);
  }
}
