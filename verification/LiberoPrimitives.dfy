/**
 * The bounded recovery primitives of one LIBERO arm: servo moves, gripper
 * commands, the joint sweep, and semantic pick and place.  The simulator, its
 * critic and its semantic sensors are functions of the commands issued so far.
 */
module LiberoPrimitives {
  import opened Wrappers

  datatype Vec = Vec(x: real, y: real, z: real)
  {
    function Plus(v: Vec): Vec { Vec(x + v.x, y + v.y, z + v.z) }
    function Minus(v: Vec): Vec { Vec(x - v.x, y - v.y, z - v.z) }
    function Scaled(k: real): Vec { Vec(x * k, y * k, z * k) }
    function Up(h: real): Vec { Vec(x, y, z + h) }

    /** Squared length: distances are compared without square roots. */
    function Norm2(): real { x * x + y * y + z * z }
  }

  datatype Command = Command(move: Vec, pitch: real, yaw: real, gripper: real)

  const OPEN: real := -1.0
  const CLOSE: real := 1.0
  const PI: real := 3.141592653589793

  datatype Status = Status(eef: Vec, interrupted: bool, terminated: bool, truncated: bool)
  {
    predicate Over() { terminated || truncated }
    predicate Terminal() { interrupted || terminated || truncated }
  }

  datatype JointPlan = JointPlan(
    qpos: real, qvel: real, lower: real, upper: real, satisfied: bool,
    approach: Vec, press: Vec, tangent: Option<Vec>,     // the tangent may be malformed
    slide: bool)

  datatype Sidecar = Sidecar(
    posesKnown: bool, targetKnown: bool, finite: bool, success: bool,
    manipulated: Vec, target: Vec,
    graspRetained: bool, contact: bool, eefDistance: Option<real>, objectHeight: Option<real>)

  datatype World = World(
    after: seq<Command> -> Status,
    plan: seq<Command> -> Option<JointPlan>,             // `None`: the plan is incomplete
    sidecar: seq<Command> -> Sidecar,
    pitchError: (seq<Command>, real) -> real,
    yawError: (seq<Command>, real) -> real)

  datatype PrimitiveError = NotPermitted | BadParameter | PlanIncomplete | BadTangent

  function Clip(x: real, bound: real): (r: real)
    requires bound >= 0.0
    ensures -bound <= r <= bound && (-bound <= x <= bound ==> r == x)
    ensures (x > bound ==> r == bound) && (x < -bound ==> r == -bound)
  {
    if x < -bound then -bound else if x > bound then bound else x
  }

  function ClipVec(v: Vec, bound: real): (r: Vec)
    requires bound >= 0.0
    ensures Bounded(r, bound)
  {
    Vec(Clip(v.x, bound), Clip(v.y, bound), Clip(v.z, bound))
  }

  predicate Bounded(v: Vec, bound: real)
  {
    -bound <= v.x <= bound && -bound <= v.y <= bound && -bound <= v.z <= bound
  }

  function Abs(x: real): real
  {
    if x < 0.0 then -x else x
  }

  function Max(a: real, b: real): real
  {
    if a >= b then a else b
  }

  // ---- What a stretch of commands looks like -----------------------------

  /** Every command after the first `from`, except possibly the last, left the episode non-terminal. */
  ghost predicate Calm(w: World, history: seq<Command>, from: nat)
  {
    forall k | from < k < |history| :: !w.after(history[..k]).Terminal()
  }

  /** All commands from `from` on drive the gripper the same way. */
  predicate Holds(history: seq<Command>, from: nat, gripper: real)
  {
    forall k | from <= k < |history| :: history[k].gripper == gripper
  }

  /** No command from `from` on moves or turns the arm. */
  predicate KeepsStill(history: seq<Command>, from: nat)
  {
    forall k | from <= k < |history| ::
      history[k].move == Vec(0.0, 0.0, 0.0) && history[k].pitch == 0.0 && history[k].yaw == 0.0
  }

  lemma CalmThenOne(w: World, history: seq<Command>, from: nat, c: Command)
    requires from <= |history| && Calm(w, history, from)
    requires |history| > from ==> !w.after(history).Terminal()
    ensures Calm(w, history + [c], from)
  {
    forall k | from < k < |history| + 1 ensures !w.after((history + [c])[..k]).Terminal() {
      assert (history + [c])[..k] == history[..k];
      assert history[..|history|] == history;
    }
  }

  lemma CalmAtStart(w: World, history: seq<Command>)
    ensures Calm(w, history, |history|)
  {
  }

  lemma CalmJoins(w: World, history: seq<Command>, from: nat, middle: nat)
    requires from <= middle <= |history| && Calm(w, history[..middle], from) && Calm(w, history, middle)
    requires from < middle < |history| ==> !w.after(history[..middle]).Terminal()
    ensures Calm(w, history, from)
  {
    forall k | from < k < |history| ensures !w.after(history[..k]).Terminal() {
      if k < middle {
        assert history[..middle][..k] == history[..k];
      }
    }
  }

  /** What has been commanded, and the status as last observed. */
  datatype Moment = Moment(history: seq<Command>, status: Status)
  {
    /** A later moment: more commands with the status after the last of them, or the same moment. */
    ghost predicate Leads(w: World, later: Moment)
    {
      && history <= later.history
      && (|later.history| > |history| ==> later.status == w.after(later.history))
      && (|later.history| == |history| ==> later == this)
    }

    /** The status after the first `n` commands of a later history. */
    function At(w: World, later: seq<Command>, n: nat): Status
      requires |history| <= n <= |later|
    {
      if n == |history| then status else w.after(later[..n])
    }
  }

  /** A pose to servo to: a position and, when given, an orientation. */
  datatype Goal = Goal(at: Vec, pitch: Option<real>, yaw: Option<real>, tol: real)
  {
    function PitchError(w: World, history: seq<Command>): real
    {
      if pitch.None? then 0.0 else w.pitchError(history, pitch.value)
    }

    function YawError(w: World, history: seq<Command>): real
    {
      if yaw.None? then 0.0 else w.yawError(history, yaw.value)
    }

    predicate Met(w: World, history: seq<Command>, eef: Vec)
    {
      at.Minus(eef).Norm2() < tol * tol && Abs(PitchError(w, history)) < 0.05 && Abs(YawError(w, history)) < 0.05
    }
  }

  /**
   * The translation commanded against an offset: for an action unit of 5 cm
   * and steps of at most that, exactly the offset clipped per axis.
   */
  function Servo(offset: Vec, stepClip: real): (m: Vec)
    requires stepClip >= 0.0
    ensures Bounded(m, 1.0)
    ensures stepClip <= 0.05 ==> m.Scaled(0.05) == ClipVec(offset, stepClip)
  {
    ClipVec(ClipVec(offset, stepClip).Scaled(1.0 / 0.05), 1.0)
  }

  /** The rotation commanded against an error: proportional up to 0.08 radians, towards the goal, and never full speed. */
  function Turn(error: real): (r: real)
    ensures -0.8 <= r <= 0.8 && (-0.08 <= error <= 0.08 ==> r * 0.1 == error)
    ensures (error > 0.0 <==> r > 0.0) && (error < 0.0 <==> r < 0.0)
  {
    Clip(Clip(error, 0.08) / 0.1, 1.0)
  }

  /**
   * Command `k` was given short of the goal, and moves and turns from where
   * the arm is towards it, clipped per axis and to the controller's range.
   */
  predicate ServosAt(w: World, start: Moment, history: seq<Command>, goal: Goal, stepClip: real, k: nat)
    requires |start.history| <= k < |history| && stepClip >= 0.0
  {
    var eef := start.At(w, history, k).eef;
    && !goal.Met(w, history[..k], eef)
    && history[k].move == Servo(goal.at.Minus(eef), stepClip)
    && history[k].pitch == Turn(goal.PitchError(w, history[..k]))
    && history[k].yaw == Turn(goal.YawError(w, history[..k]))
  }

  lemma MetIff(w: World, goal: Goal, history: seq<Command>, eef: Vec, pitchError: real, yawError: real)
    requires pitchError == (if goal.pitch.None? then 0.0 else w.pitchError(history, goal.pitch.value))
    requires yawError == (if goal.yaw.None? then 0.0 else w.yawError(history, goal.yaw.value))
    ensures goal.PitchError(w, history) == pitchError && goal.YawError(w, history) == yawError
    ensures goal.Met(w, history, eef)
      <==> goal.at.Minus(eef).Norm2() < goal.tol * goal.tol && Abs(pitchError) < 0.05 && Abs(yawError) < 0.05
  {
  }

  lemma ServosStay(w: World, start: Moment, history: seq<Command>, goal: Goal, stepClip: real, c: Command)
    requires |start.history| <= |history| && stepClip >= 0.0
    requires forall k | |start.history| <= k < |history| :: ServosAt(w, start, history, goal, stepClip, k)
    requires !goal.Met(w, history, start.At(w, history, |history|).eef)
    requires c.move == Servo(goal.at.Minus(start.At(w, history, |history|).eef), stepClip)
    requires c.pitch == Turn(goal.PitchError(w, history)) && c.yaw == Turn(goal.YawError(w, history))
    ensures forall k | |start.history| <= k < |history| + 1 :: ServosAt(w, start, history + [c], goal, stepClip, k)
  {
    hide Servo, Turn, Goal.Met, Goal.PitchError, Goal.YawError;
    assert history[..|history|] == history;
    forall k | |start.history| <= k < |history| + 1 ensures ServosAt(w, start, history + [c], goal, stepClip, k) {
      assert (history + [c])[..k] == history[..k];
      if k < |history| {
        assert ServosAt(w, start, history, goal, stepClip, k);
      }
    }
  }

  // ---- Waypoints ---------------------------------------------------------

  /** `n` segments of length `m` cover a distance whose square is `d2`. */
  predicate Reaches(n: nat, m: real, d2: real)
  {
    (n as real * m) * (n as real * m) >= d2
  }

  /** The least number of segments of length `m`, from `n` on, that reach. */
  function SegmentsFrom(d2: real, m: real, n: nat): (r: nat)
    requires m > 0.0 && n >= 1
    ensures r >= n && Reaches(r, m, d2)
    ensures forall k: nat | n <= k < r :: !Reaches(k, m, d2)
    decreases (d2 / (m * m)).Floor + 1 - n
  {
    if Reaches(n, m, d2) then n
    else
      ShortReach(d2, m, n);
      SegmentsFrom(d2, m, n + 1)
  }

  lemma ShortReach(d2: real, m: real, n: nat)
    requires m > 0.0 && n >= 1 && !Reaches(n, m, d2)
    ensures n <= (d2 / (m * m)).Floor
  {
    var k, q := n as real, m * m;
    assert (k * m) * (k * m) == (k * k) * q;
    assert k * k >= k;
    assert (k * k) * q >= k * q;
    assert k * q < d2;
    assert d2 / q * q == d2;
    if d2 / q <= k {
      assert d2 / q * q <= k * q;
    }
  }

  function SegmentCount(d2: real, m: real): (r: nat)
    requires m > 0.0
    ensures r >= 1
  {
    SegmentsFrom(d2, m, 1)
  }

  function Waypoint(start: Vec, target: Vec, index: nat, count: nat): Vec
    requires 1 <= count && index <= count
  {
    start.Plus(target.Minus(start).Scaled(index as real / count as real))
  }

  lemma StepsAdd(a: real, b: real, i: real, n: real)
    requires n > 0.0
    ensures (a + b * ((i + 1.0) / n)) - (a + b * (i / n)) == b / n
  {
    assert (i + 1.0) / n - i / n == 1.0 / n;
    assert b * ((i + 1.0) / n) - b * (i / n) == b * ((i + 1.0) / n - i / n);
    assert b * (1.0 / n) == b / n;
  }

  lemma ShortSegments(x: real, y: real, z: real, n: real, m: real)
    requires n >= 1.0 && (n * m) * (n * m) >= x * x + y * y + z * z
    ensures (x / n) * (x / n) + (y / n) * (y / n) + (z / n) * (z / n) <= m * m
  {
    var u, v, t := x / n, y / n, z / n;
    assert u * n == x && v * n == y && t * n == z;
    var s, q := u * u + v * v + t * t, n * n;
    assert q >= 1.0;
    assert x * x == (u * n) * (u * n) == (u * u) * q;
    assert y * y == (v * n) * (v * n) == (v * v) * q;
    assert z * z == (t * n) * (t * n) == (t * t) * q;
    assert s * q == (u * u) * q + (v * v) * q + (t * t) * q;
    assert (n * m) * (n * m) == (m * m) * q;
    assert s * q <= (m * m) * q;
    if s > m * m {
      ScaleKeepsOrder(s, m * m, q);
    }
  }

  lemma ScaleKeepsOrder(a: real, b: real, q: real)
    requires a > b && q > 0.0
    ensures a * q > b * q
  {
  }

  lemma ScaleKeepsWeakOrder(a: real, b: real, q: real)
    requires a <= b && q > 0.0
    ensures a * q <= b * q
  {
  }

  lemma WaypointGap(start: Vec, target: Vec, index: nat, count: nat)
    requires index < count
    ensures var d, n := target.Minus(start), count as real;
      Waypoint(start, target, index + 1, count).Minus(Waypoint(start, target, index, count)) == Vec(d.x / n, d.y / n, d.z / n)
  {
    var d, n, i := target.Minus(start), count as real, index as real;
    StepsAdd(start.x, d.x, i, n);
    StepsAdd(start.y, d.y, i, n);
    StepsAdd(start.z, d.z, i, n);
  }

  lemma WaypointEnds(start: Vec, target: Vec, count: nat)
    requires count >= 1
    ensures Waypoint(start, target, 0, count) == start && Waypoint(start, target, count, count) == target
  {
    assert count as real / count as real == 1.0 && 0.0 / count as real == 0.0;
  }

  /** Waypoints start where the arm is, end at the target, are at most `m` apart, and are as few as possible. */
  lemma WaypointsAreBounded(start: Vec, target: Vec, m: real, index: nat)
    requires m > 0.0 && index < SegmentCount(target.Minus(start).Norm2(), m)
    ensures var n := SegmentCount(target.Minus(start).Norm2(), m);
      && Waypoint(start, target, 0, n) == start && Waypoint(start, target, n, n) == target
      && Waypoint(start, target, index + 1, n).Minus(Waypoint(start, target, index, n)).Norm2() <= m * m
      && (forall k: nat | 1 <= k < n :: !Reaches(k, m, target.Minus(start).Norm2()))
  {
    hide Waypoint;
    var d := target.Minus(start);
    var n := SegmentCount(d.Norm2(), m);
    WaypointEnds(start, target, n);
    WaypointGap(start, target, index, n);
    ShortSegments(d.x, d.y, d.z, n as real, m);
  }

  // ---- Sweep commands ----------------------------------------------------

  datatype Fixture = Fixture(lowerGoal: bool, sweepStep: real, slide: bool, slideGrasp: bool, steady: bool, target: real)
  {
    function Distance(p: JointPlan): real { Abs(p.qpos - target) }
    /** Positive while the joint moves towards the end it is to reach. */
    function Velocity(p: JointPlan): (v: real)
      ensures v > 0.0 <==> (if lowerGoal then p.qvel < 0.0 else p.qvel > 0.0)
    {
      if lowerGoal then -p.qvel else p.qvel
    }

    function Grip(): (g: real)
      ensures g == 1.0 || g == -1.0
      ensures g == -1.0 <==> slide && !slideGrasp
    {
      if slide && !slideGrasp then OPEN else CLOSE
    }

    function Push(tangent: Vec, sign: real): Command
    {
      var m := ClipVec(tangent.Scaled(sign * (sweepStep / 0.05)), 0.4);
      Command(m.(z := m.z - (if slide then 0.4 else 0.02)), 0.0, 0.0, Grip())
    }

    predicate Responds(before: JointPlan, after: JointPlan)
    {
      Distance(after) < Distance(before) - 0.0001 || Velocity(after) > 0.005
    }

    predicate Diverges(start: JointPlan, after: JointPlan)
    {
      var moved := Distance(after) - Distance(start);
      moved > 0.0002
      && (moved > 0.01 || Velocity(after) - Velocity(start) < -0.005 || Max(Abs(after.qvel), Abs(start.qvel)) < 0.005)
    }
  }

  /** The reversals decided in the first `n` windows of three pushes: one per window that ends up diverging, at most three. */
  function Turns(w: World, f: Fixture, history: seq<Command>, from: nat, n: nat): (r: nat)
    requires from + 3 * n <= |history|
    ensures r <= n && r <= MAXIMUM_REVERSALS
  {
    if n == 0 then 0
    else
      var turns := Turns(w, f, history, from, n - 1);
      var start, after := w.plan(history[..from + 3 * (n - 1)]), w.plan(history[..from + 3 * n]);
      if start.Some? && after.Some? && f.Diverges(start.value, after.value) && turns < 3 then turns + 1 else turns
  }

  function Sign(turns: nat): real
  {
    if turns % 2 == 0 then 1.0 else -1.0
  }

  /**
   * Command `k` was given short of the goal, and pushes along the planned
   * tangent, the first one when steady, else the current one, in the sense
   * left by the reversals of the windows before it.
   */
  ghost predicate PushesAlongTangent(w: World, f: Fixture, history: seq<Command>, from: nat, k: nat)
    requires from <= k < |history|
  {
    var current, p := w.plan(history[..k]), w.plan(history[..if f.steady then from else k]);
    && current.Some? && !current.value.satisfied && p.Some? && p.value.tangent.Some?
    && history[k] == f.Push(p.value.tangent.value, Sign(Turns(w, f, history, from, (k - from) / 3)))
  }

  /** The joint responded to command `k`. */
  predicate RespondsAt(w: World, f: Fixture, history: seq<Command>, k: nat)
    requires k < |history|
  {
    var before, after := w.plan(history[..k]), w.plan(history[..k + 1]);
    before.Some? && after.Some? && f.Responds(before.value, after.value)
  }

  ghost predicate Responded(w: World, f: Fixture, history: seq<Command>, from: nat, to: nat)
    requires to <= |history|
  {
    exists k: nat :: from <= k < to && RespondsAt(w, f, history, k)
  }

  lemma PushGrip(f: Fixture, tangent: Vec, sign: real)
    ensures f.Push(tangent, sign).gripper == f.Grip()
  {
  }

  /** For an action unit of 5 cm, a push moves exactly one sweep step along the tangent, and 2 cm or 1 mm down. */
  lemma PushMeans(f: Fixture, tangent: Vec, sign: real)
    requires 0.0 <= f.sweepStep <= 0.015 && Bounded(tangent, 1.0) && (sign == 1.0 || sign == -1.0)
    ensures var c := f.Push(tangent, sign);
      && c.move.Scaled(0.05) == tangent.Scaled(sign * f.sweepStep).Up(if f.slide then -0.02 else -0.001)
      && c.pitch == c.yaw == 0.0
  {
    hide Clip, Fixture.Push, Vec.Scaled, ClipVec;
    var k, d := sign * (f.sweepStep / 0.05), sign * f.sweepStep;
    var m := ClipVec(tangent.Scaled(k), 0.4);
    PushParts(f, tangent, sign, k, m);
    PushAxes(tangent, sign, f.sweepStep, k, d, m);
    ScaledPush(m, tangent, d, if f.slide then 0.4 else 0.02);
  }

  lemma PushAxes(t: Vec, sign: real, step: real, k: real, d: real, m: Vec)
    requires 0.0 <= step <= 0.015 && Bounded(t, 1.0) && (sign == 1.0 || sign == -1.0)
    requires k == sign * (step / 0.05) && d == sign * step
    requires m == Vec(Clip(t.x * k, 0.4), Clip(t.y * k, 0.4), Clip(t.z * k, 0.4))
    ensures m.x * 0.05 == t.x * d && m.y * 0.05 == t.y * d && m.z * 0.05 == t.z * d
  {
    hide Clip;
    PushAxis(t.x, sign, step, k, d, m.x);
    PushAxis(t.y, sign, step, k, d, m.y);
    PushAxis(t.z, sign, step, k, d, m.z);
  }

  lemma ScaledPush(m: Vec, t: Vec, d: real, down: real)
    requires m.x * 0.05 == t.x * d && m.y * 0.05 == t.y * d && m.z * 0.05 == t.z * d
    ensures m.(z := m.z - down).Scaled(0.05) == t.Scaled(d).Up(-(down * 0.05))
  {
  }

  lemma PushParts(f: Fixture, tangent: Vec, sign: real, k: real, m: Vec)
    requires k == sign * (f.sweepStep / 0.05) && m == ClipVec(tangent.Scaled(k), 0.4)
    ensures f.Push(tangent, sign) == Command(m.(z := m.z - (if f.slide then 0.4 else 0.02)), 0.0, 0.0, f.Grip())
    ensures m == Vec(Clip(tangent.x * k, 0.4), Clip(tangent.y * k, 0.4), Clip(tangent.z * k, 0.4))
  {
    hide Clip;
  }

  lemma PushAxis(t: real, sign: real, step: real, k: real, d: real, m: real)
    requires 0.0 <= step <= 0.015 && -1.0 <= t <= 1.0 && (sign == 1.0 || sign == -1.0) && k == sign * (step / 0.05)
    requires d == sign * step && m == Clip(t * k, 0.4)
    ensures m * 0.05 == t * d
  {
    var u := step / 0.05;
    SmallProduct(t, u, t * u);
    if sign == 1.0 {
      assert t * k == t * u;
    } else {
      assert k == -u;
      assert t * k == -(t * u);
    }
    assert (t * u) * 0.05 == t * step;
  }

  lemma NoNegative(a: real, b: real, p: real)
    requires a >= 0.0 && b >= 0.0 && p == a * b
    ensures p >= 0.0
  {
  }

  lemma SmallProduct(t: real, u: real, p: real)
    requires -1.0 <= t <= 1.0 && 0.0 <= u <= 0.3 && p == t * u
    ensures -0.3 <= p <= 0.3
  {
    var a, b := 1.0 + t, 1.0 - t;
    NoNegative(a, u, a * u);
    NoNegative(b, u, b * u);
    assert a * u == u + p && b * u == u - p;
  }

  lemma {:induction false} TurnsStay(w: World, f: Fixture, history: seq<Command>, longer: seq<Command>, from: nat, n: nat)
    requires history <= longer && from + 3 * n <= |history|
    ensures Turns(w, f, longer, from, n) == Turns(w, f, history, from, n)
  {
    hide Fixture.Diverges;
    if n > 0 {
      TurnsStay(w, f, history, longer, from, n - 1);
      assert longer[..from + 3 * (n - 1)] == history[..from + 3 * (n - 1)];
      assert longer[..from + 3 * n] == history[..from + 3 * n];
    }
  }

  lemma PushStays(w: World, f: Fixture, history: seq<Command>, longer: seq<Command>, from: nat, k: nat)
    requires history <= longer && from <= k < |history| && PushesAlongTangent(w, f, history, from, k)
    ensures PushesAlongTangent(w, f, longer, from, k)
  {
    hide Fixture.Push, Turns, Sign;
    assert longer[..k] == history[..k] && longer[..from] == history[..from];
    TurnsStay(w, f, history, longer, from, (k - from) / 3);
  }

  lemma PushesStay(w: World, f: Fixture, history: seq<Command>, from: nat, c: Command)
    requires from <= |history| && forall k | from <= k < |history| :: PushesAlongTangent(w, f, history, from, k)
    requires var current, p := w.plan(history), w.plan(history[..if f.steady then from else |history|]);
      && current.Some? && !current.value.satisfied && p.Some? && p.value.tangent.Some?
      && c == f.Push(p.value.tangent.value, Sign(Turns(w, f, history, from, (|history| - from) / 3)))
    ensures forall k | from <= k < |history| + 1 :: PushesAlongTangent(w, f, history + [c], from, k)
  {
    hide Fixture.Push, Turns, Sign;
    var longer := history + [c];
    var n := |history|;
    assert longer[..n] == history && longer[..from] == history[..from] && history[..n] == history;
    TurnsStay(w, f, history, longer, from, (n - from) / 3);
    assert PushesAlongTangent(w, f, longer, from, n);
    forall k | from <= k < n ensures PushesAlongTangent(w, f, longer, from, k) {
      PushStays(w, f, history, longer, from, k);
    }
  }

  lemma RespondedOneMore(w: World, f: Fixture, history: seq<Command>, from: nat, c: Command)
    requires from <= |history|
    ensures var longer := history + [c];
      && Responded(w, f, longer, from, |history|) == Responded(w, f, history, from, |history|)
      && Responded(w, f, longer, from, |longer|)
         == (Responded(w, f, history, from, |history|) || RespondsAt(w, f, longer, |history|))
  {
    hide RespondsAt;
    var longer := history + [c];
    forall k: nat | k < |history| ensures RespondsAt(w, f, longer, k) == RespondsAt(w, f, history, k) {
      RespondsStay(w, f, history, longer, k);
    }
  }

  lemma RespondsStay(w: World, f: Fixture, history: seq<Command>, longer: seq<Command>, k: nat)
    requires history <= longer && k < |history|
    ensures RespondsAt(w, f, longer, k) == RespondsAt(w, f, history, k)
  {
    assert longer[..k] == history[..k] && longer[..k + 1] == history[..k + 1];
  }

  datatype Sweep = Sweep(satisfied: bool, responded: bool, used: nat, reversals: nat)
  {
    /** Windows whose outcome decided on a reversal: one that ended the sweep did not. */
    function Windows(ended: bool): nat
    {
      if ended && used > 0 && used % 3 == 0 then used / 3 - 1 else used / 3
    }
  }

  /** A sweep under way: `n` whole windows, `steps` pushes since, and the sense the reversals so far leave. */
  ghost predicate Sweeping(w: World, f: Fixture, history: seq<Command>, from: nat, n: nat, steps: nat, window: JointPlan,
                           sign: real, reversals: nat)
  {
    && steps <= 3 && |history| == from + 3 * n + steps && w.plan(history[..from + 3 * n]) == Some(window)
    && reversals == Turns(w, f, history, from, n) && sign == Sign(reversals)
    && forall k | from <= k < |history| :: PushesAlongTangent(w, f, history, from, k)
  }

  lemma SweepStarts(w: World, f: Fixture, history: seq<Command>, window: JointPlan)
    requires w.plan(history) == Some(window)
    ensures Sweeping(w, f, history, |history|, 0, 0, window, 1.0, 0)
    ensures !Responded(w, f, history, |history|, |history|)
  {
    assert history[..|history|] == history;
  }

  lemma SweepPushes(w: World, f: Fixture, history: seq<Command>, from: nat, n: nat, steps: nat, window: JointPlan,
                    sign: real, reversals: nat, c: Command)
    requires Sweeping(w, f, history, from, n, steps, window, sign, reversals) && steps < 3
    requires var current, p := w.plan(history), w.plan(history[..if f.steady then from else |history|]);
      && current.Some? && !current.value.satisfied && p.Some? && p.value.tangent.Some?
      && c == f.Push(p.value.tangent.value, sign)
    ensures Sweeping(w, f, history + [c], from, n, steps + 1, window, sign, reversals)
  {
    hide Fixture.Push, PushesAlongTangent, Turns, Sign;
    assert (|history| - from) / 3 == n;
    PushesStay(w, f, history, from, c);
    TurnsStay(w, f, history, history + [c], from, n);
    assert (history + [c])[..from + 3 * n] == history[..from + 3 * n];
  }

  lemma WindowEnds(w: World, f: Fixture, history: seq<Command>, from: nat, n: nat, window: JointPlan,
                   sign: real, reversals: nat, after: JointPlan)
    requires Sweeping(w, f, history, from, n, 3, window, sign, reversals) && w.plan(history) == Some(after)
    ensures Sweeping(w, f, history, from, n + 1, 0, after,
                     if f.Diverges(window, after) && reversals < 3 then -sign else sign,
                     if f.Diverges(window, after) && reversals < 3 then reversals + 1 else reversals)
  {
    hide Fixture.Push, PushesAlongTangent, Turns, Sign, Fixture.Diverges;
    assert history[..from + 3 * (n + 1)] == history;
    NextTurn(w, f, history, from, n, window, after);
  }

  /** What one sweep does, and what its result says. */
  ghost predicate Swept(w: World, f: Fixture, start: Moment, end: Moment, budget: nat, x: Sweep)
  {
    && start.Leads(w, end) && (|end.history| > |start.history| ==> !start.status.Terminal())
    && (forall k | |start.history| <= k < |end.history| :: PushesAlongTangent(w, f, end.history, |start.history|, k))
    && x.used == |end.history| - |start.history| <= budget
    && (x.used < budget ==> end.status.Terminal() || x.satisfied)
    && w.plan(end.history).Some? && x.satisfied == w.plan(end.history).value.satisfied
    && x.reversals == Turns(w, f, end.history, |start.history|, x.Windows(end.status.Terminal() || x.satisfied))
    && (x.responded <==>
          Responded(w, f, end.history, |start.history|,
                    if x.used > 0 && end.status.Terminal() then |end.history| - 1 else |end.history|))
  }

  datatype JointReport = JointReport(
    startQpos: real, finalQpos: real, goalSatisfied: bool, sweepSteps: nat, directContactSteps: nat,
    recontacted: bool, reversals: nat, stepsUsed: nat, interrupted: bool, terminated: bool)

  const MAXIMUM_REVERSALS: nat := 3
  const RECONTACT_STEPS: nat := 108

  /** One servo move between two moments, with the gripper driven one way. */
  ghost predicate Servoed(w: World, start: Moment, end: Moment, goal: Goal, gripper: real, clip: real, steps: nat)
    requires clip > 0.0
  {
    && start.Leads(w, end) && Holds(end.history, |start.history|, gripper)
    && Leg(w, start, end.history, |start.history|, |end.history|, goal, clip, steps)
  }

  ghost predicate Held(w: World, start: Moment, end: Moment, gripper: real, steps: nat)
  {
    && start.Leads(w, end) && Holds(end.history, |start.history|, gripper) && KeepsStill(end.history, |start.history|)
    && |end.history| - |start.history| <= steps
    && (|end.history| - |start.history| < steps ==> end.status.Terminal())
  }

  /** The moments at which the moves of a recontact ended. */
  datatype Contact = Contact(lifted: Moment, above: Moment, pressed: Moment)

  function RetreatTo(p: JointPlan, eef: Vec): Vec
  {
    eef.(z := Max(eef.z + 0.045, p.approach.z))
  }

  /** Lift away, return above the fixture, press, and settle, each towards the plan of its moment and none after anything terminal. */
  ghost predicate Recontacted(w: World, f: Fixture, closeSteps: nat, start: Moment, p: Contact, end: Moment)
  {
    && w.plan(start.history).Some?
    && var retreat := RetreatTo(w.plan(start.history).value, start.status.eef);
       && Servoed(w, start, p.lifted, Goal(retreat, None, None, 0.008), OPEN, 0.012, 36)
       && (if p.lifted.status.Terminal() then p.above == p.lifted
           else
             && w.plan(p.lifted.history).Some?
             && var approach := w.plan(p.lifted.history).value.approach;
                Servoed(w, p.lifted, p.above, Goal(approach.(z := Max(approach.z, retreat.z)), None, None, 0.01),
                        if f.slide && f.slideGrasp then CLOSE else OPEN, 0.02, 40))
       && (if p.above.status.Terminal() then p.pressed == p.above
           else
             && w.plan(p.above.history).Some?
             && Servoed(w, p.above, p.pressed, Goal(w.plan(p.above.history).value.press, None, None, 0.005), OPEN, 0.012, 32))
       && (if p.pressed.status.Terminal() then end == p.pressed else Held(w, p.pressed, end, f.Grip(), closeSteps))
  }

  /** A whole joint interaction: the direct sweep, the recontact if one was needed, and the rest of the sweep. */
  datatype JointRun = JointRun(swept: Moment, direct: Sweep, contact: Option<Contact>, contacted: Moment, rest: Option<Sweep>)

  /** The report of a joint interaction, against the plans before and after it and the sweeps it made. */
  predicate ReportTells(r: JointReport, start: JointPlan, final: JointPlan, x: JointRun, used: nat, status: Status)
  {
    && r.startQpos == start.qpos && r.finalQpos == final.qpos && r.goalSatisfied == final.satisfied
    && r.directContactSteps == x.direct.used && r.recontacted == x.contact.Some? && r.stepsUsed == used
    && r.sweepSteps == x.direct.used + (if x.rest.Some? then x.rest.value.used else 0)
    && r.reversals == x.direct.reversals + (if x.rest.Some? then x.rest.value.reversals else 0)
    && r.interrupted == status.interrupted && r.terminated == status.terminated
  }

  function DirectBudget(f: Fixture, maxSweepSteps: nat): nat
  {
    if f.slide && f.slideGrasp then 0 else if maxSweepSteps < 12 then maxSweepSteps else 12
  }

  ghost predicate Interacted(w: World, f: Fixture, maxSweepSteps: nat, closeSteps: nat, start: Moment, x: JointRun, end: Moment)
  {
    && Swept(w, f, start, x.swept, DirectBudget(f, maxSweepSteps), x.direct)
    && (x.contact.Some? <==> !x.direct.satisfied && !x.swept.status.Terminal() && !x.direct.responded)
    && (if x.contact.Some? then Recontacted(w, f, closeSteps, x.swept, x.contact.value, x.contacted) else x.contacted == x.swept)
    && (x.rest.Some? <==> !x.direct.satisfied && !x.contacted.status.Terminal())
    && (if x.rest.Some? then x.direct.used <= maxSweepSteps
                             && Swept(w, f, x.contacted, end, maxSweepSteps - x.direct.used, x.rest.value)
        else end == x.contacted)
  }

  // ---- Pick and place ----------------------------------------------------

  datatype PickPlace = PickPlace(
    graspOffset: Vec, retreatHeight: real, approachHeight: real, closeSteps: nat, confirmSteps: nat,
    liftHeight: real, targetHeight: real, carryHeight: real, maxStepsPerMove: nat, graspPoseMaxSteps: Option<nat>,
    moveClip: real, liftClip: Option<real>, transportClip: Option<real>, contactLift: real,
    maxSegment: Option<real>, verticalFirst: bool, pitch: Option<real>, yaw: Option<real>)
  {
    function LiftClip(): real { if liftClip.None? then moveClip else liftClip.value }
    function TransportClip(): real { if transportClip.None? then moveClip else transportClip.value }
    function GraspSteps(): nat { if graspPoseMaxSteps.None? then maxStepsPerMove else graspPoseMaxSteps.value }
    function Facing(at: Vec): Goal { Goal(at, pitch, yaw, 0.012) }

    predicate Valid()
    {
      && 0.0 <= retreatHeight <= 0.08 && 1 <= closeSteps <= 32 && 1 <= confirmSteps <= 8 && confirmSteps <= closeSteps
      && 1 <= maxStepsPerMove <= 140
      && (graspPoseMaxSteps.Some? ==> 1 <= graspPoseMaxSteps.value <= 140)
      && 0.005 <= moveClip <= 0.05 && 0.005 <= LiftClip() <= 0.05 && 0.005 <= TransportClip() <= 0.05
      && 0.005 <= contactLift <= 0.05
      && (maxSegment.Some? ==> 0.1 <= maxSegment.value <= 0.5)
      && (pitch.Some? ==> -PI <= pitch.value <= PI) && (yaw.Some? ==> -PI <= yaw.value <= PI)
    }
  }

  datatype PlaceStatus =
    | StateUnavailable | AlreadySuccess | InvalidPose
    | EndedEarly | RetreatNotReached | ApproachNotReached | GraspPoseNotReached | GraspNotVerified
    | LiftNotReached | LostDuringLift | ClearanceNotReached | LostDuringClearance
    | CarryNotReached | LostDuringCarry | PlaceNotReached | Released

  /** The outcome of one move: how far it ended from the last waypoint it headed for, and which one that was. */
  datatype MoveResult = MoveResult(distance2: real, eef: Vec, target: Option<Vec>, waypoints: nat, segments: nat)
  {
    predicate Reached() { distance2 <= 0.025 * 0.025 }

    /** The move headed for its last waypoint, the target itself. */
    predicate Complete() { waypoints == segments }

    /** A contact-limited descent still above the target: aligned in the plane, and not far off in height. */
    predicate AlignedForRelease() { target.Some? && Aligned(target.value, eef) }
  }

  predicate Aligned(target: Vec, eef: Vec)
  {
    var d := eef.Minus(target);
    d.x * d.x + d.y * d.y <= 0.025 * 0.025 && -0.01 <= d.z <= 0.075
  }

  predicate Near(target: Vec, eef: Vec)
  {
    target.Minus(eef).Norm2() <= 0.025 * 0.025
  }

  /** The status and the moves made while the object was held. */
  datatype PlaceReport = PlaceReport(
    status: PlaceStatus, lift: Option<MoveResult>, clearance: Option<MoveResult>, carry: Option<MoveResult>,
    place: Option<MoveResult>)

  function Ended(status: PlaceStatus): PlaceReport
  {
    PlaceReport(status, None, None, None, None)
  }

  /** The moments at which the phases of one run ended; a phase that was not reached ends where the run did. */
  datatype Phases = Phases(picked: Moment, lifted: Moment, cleared: Moment, carried: Moment, placed: Moment)

  /** Retained: the grasp helper says so, or contact within reach and, when asked, a measured rise. */
  predicate Retained(s: Sidecar, objectHeight: real, rise: Option<real>)
  {
    s.graspRetained
    || (s.contact && s.eefDistance.Some? && s.eefDistance.value <= 0.12
        && (rise.Some? ==> s.objectHeight.Some? && s.objectHeight.value >= objectHeight + rise.value))
  }

  const RELEASE_STEPS: nat := 12

  /** Gripper commands from `from` on: open, then closed, then open again. */
  ghost predicate OpenCloseOpen(history: seq<Command>, from: nat, closing: nat, opening: nat)
  {
    && from <= closing <= opening <= |history|
    && (forall k | from <= k < closing :: history[k].gripper == OPEN)
    && (forall k | closing <= k < opening :: history[k].gripper == CLOSE)
    && (forall k | opening <= k < |history| :: history[k].gripper == OPEN)
  }

  /** The final opening: at most twelve commands, and only with retention confirmed after lift and after carry. */
  ghost predicate SafeRelease(w: World, q: PickPlace, history: seq<Command>, from: nat, opening: nat, p: Phases, r: PlaceReport)
    requires from <= opening <= |history|
  {
    && |history| - opening <= RELEASE_STEPS
    && (|history| > opening ==>
          && r.status == Released && p.lifted.history <= p.carried.history <= history[..opening] && from <= |p.lifted.history|
          && var height := w.sidecar(history[..from]).manipulated.z;
             && Retained(w.sidecar(p.lifted.history), height, Some(q.contactLift))
             && Retained(w.sidecar(p.carried.history), height, Some(q.contactLift)))
  }

  // ---- One move, possibly through waypoints ------------------------------

  function Segments(q: PickPlace, start: Vec, target: Vec): (n: nat)
    requires q.Valid()
    ensures n >= 1 && (q.maxSegment.None? ==> n == 1)
  {
    if q.maxSegment.None? then 1 else SegmentCount(target.Minus(start).Norm2(), q.maxSegment.value)
  }

  /** One servo phase: towards one goal, in its budget, ended early only there or by something terminal. */
  ghost predicate Leg(w: World, start: Moment, history: seq<Command>, from: nat, to: nat, goal: Goal, clip: real, steps: nat)
    requires |start.history| <= from <= to <= |history| && clip > 0.0
  {
    && to - from <= steps
    && (forall k | from <= k < to :: ServosAt(w, start, history, goal, clip, k))
    && var s := start.At(w, history, to);
       to - from < steps ==> goal.Met(w, history[..to], s.eef) || (from < to && s.Terminal())
  }

  /** The legs head for the first, the second, ... waypoint; all but the last ended there, with nothing terminal. */
  ghost predicate Legs(w: World, q: PickPlace, start: Moment, history: seq<Command>, target: Vec, segments: nat, clip: real, steps: nat,
                       ends: seq<nat>)
    requires clip > 0.0
  {
    && 1 <= |ends| <= segments + 1 && ends[0] == |start.history| && ends[|ends| - 1] == |history|
    && (forall i | 0 <= i < |ends| :: |start.history| <= ends[i] <= |history|)
    && (forall i | 0 <= i < |ends| - 1 ::
          ends[i] <= ends[i + 1]
          && Leg(w, start, history, ends[i], ends[i + 1],
                 q.Facing(Waypoint(start.status.eef, target, i + 1, segments)), clip, steps))
    && (forall i | 0 < i < |ends| - 1 ::
          var s := start.At(w, history, ends[i]);
          !s.Terminal() && Near(Waypoint(start.status.eef, target, i, segments), s.eef))
  }

  /** What one move does, and what its result says. */
  ghost predicate Moved(w: World, q: PickPlace, start: Moment, end: Moment, target: Vec, clip: real, steps: nat,
                        r: MoveResult, ends: seq<nat>)
    requires q.Valid() && clip > 0.0
  {
    && start.Leads(w, end) && Calm(w, end.history, |start.history|)
    && r.segments == Segments(q, start.status.eef, target) && 1 <= r.waypoints <= r.segments && |ends| == r.waypoints + 1
    && Legs(w, q, start, end.history, target, r.segments, clip, steps, ends)
    && (r.waypoints < r.segments ==> end.status.Terminal() || !r.Reached())
    && r.eef == end.status.eef
    && var last := Waypoint(start.status.eef, target, r.waypoints, r.segments);
       r.distance2 == last.Minus(r.eef).Norm2() && r.target == (if q.pitch.Some? || q.yaw.Some? then None else Some(last))
  }

  ghost predicate Went(w: World, q: PickPlace, start: Moment, end: Moment, target: Vec, clip: real, r: MoveResult)
    requires q.Valid() && clip > 0.0
  {
    WentWithin(w, q, start, end, target, clip, q.maxStepsPerMove, r)
  }

  ghost predicate WentWithin(w: World, q: PickPlace, start: Moment, end: Moment, target: Vec, clip: real, steps: nat, r: MoveResult)
    requires q.Valid() && clip > 0.0
  {
    exists ends :: Moved(w, q, start, end, target, clip, steps, r, ends)
  }

  lemma LegStays(w: World, start: Moment, history: seq<Command>, longer: seq<Command>, from: nat, to: nat, goal: Goal,
                 clip: real, steps: nat)
    requires |start.history| <= from <= to <= |history| && clip > 0.0 && history <= longer
    requires Leg(w, start, history, from, to, goal, clip, steps)
    ensures Leg(w, start, longer, from, to, goal, clip, steps)
  {
    hide Servo, Turn, Goal.Met, Goal.PitchError, Goal.YawError;
    assert longer[..from] == history[..from] && longer[..to] == history[..to];
    forall k | from <= k < to ensures ServosAt(w, start, longer, goal, clip, k) {
      assert ServosAt(w, start, history, goal, clip, k);
      assert longer[..k] == history[..k];
    }
  }

  /** A servo phase that starts at a later moment, seen from the start of the move. */
  lemma LegRebased(w: World, start: Moment, middle: Moment, history: seq<Command>, goal: Goal, clip: real, steps: nat)
    requires start.Leads(w, middle) && middle.history <= history && clip > 0.0
    requires Leg(w, middle, history, |middle.history|, |history|, goal, clip, steps)
    ensures Leg(w, start, history, |middle.history|, |history|, goal, clip, steps)
  {
    hide Servo, Turn, Goal.Met, Goal.PitchError, Goal.YawError;
    assert history[..|middle.history|] == middle.history && history[..|history|] == history;
    forall k | |middle.history| <= k < |history| ensures ServosAt(w, start, history, goal, clip, k) {
      assert ServosAt(w, middle, history, goal, clip, k);
    }
  }

  lemma LegsGrow(w: World, q: PickPlace, start: Moment, middle: Moment, history: seq<Command>, target: Vec, segments: nat, clip: real,
                 steps: nat, ends: seq<nat>)
    requires clip > 0.0 && Legs(w, q, start, middle.history, target, segments, clip, steps, ends) && |ends| <= segments
    requires start.Leads(w, middle) && middle.history <= history
    requires |ends| > 1 ==>
      !middle.status.Terminal() && Near(Waypoint(start.status.eef, target, |ends| - 1, segments), middle.status.eef)
    requires Leg(w, middle, history, |middle.history|, |history|,
                 q.Facing(Waypoint(start.status.eef, target, |ends|, segments)), clip, steps)
    ensures Legs(w, q, start, history, target, segments, clip, steps, ends + [|history|])
  {
    hide Leg, Waypoint, Near;
    var more := ends + [|history|];
    forall i | 0 <= i < |more| - 1
      ensures more[i] <= more[i + 1]
      ensures Leg(w, start, history, more[i], more[i + 1], q.Facing(Waypoint(start.status.eef, target, i + 1, segments)), clip, steps)
    {
      if i < |ends| - 1 {
        LegStays(w, start, middle.history, history, ends[i], ends[i + 1],
                 q.Facing(Waypoint(start.status.eef, target, i + 1, segments)), clip, steps);
      } else {
        LegRebased(w, start, middle, history, q.Facing(Waypoint(start.status.eef, target, |ends|, segments)), clip, steps);
      }
    }
    forall i | 0 < i < |more| - 1
      ensures var s := start.At(w, history, more[i]);
        !s.Terminal() && Near(Waypoint(start.status.eef, target, i, segments), s.eef)
    {
      assert history[..more[i]] == middle.history[..more[i]];
      if i == |ends| - 1 {
        assert middle.history[..|middle.history|] == middle.history;
      }
    }
  }

  /** A waypoint short of the target is more than 0.05 away from it. */
  lemma WaypointsAreApart(start: Vec, target: Vec, m: real, index: nat)
    requires m >= 0.1 && 1 <= index < SegmentCount(target.Minus(start).Norm2(), m)
    ensures var n := SegmentCount(target.Minus(start).Norm2(), m);
      target.Minus(Waypoint(start, target, index, n)).Norm2() > 0.0025
  {
    hide SegmentCount, Waypoint;
    var d := target.Minus(start);
    var n := SegmentCount(d.Norm2(), m);
    FewerSegments(d.Norm2(), m);
    HalfTheBound(n as real, m);
    LongSegments(d.x, d.y, d.z, n as real, ((n - 1) as real * m) * ((n - 1) as real * m));
    LeftToGo(start, target, index, n);
    StretchedIsLonger(d.x / n as real, d.y / n as real, d.z / n as real, (n - index) as real);
  }

  lemma LeftToGo(start: Vec, target: Vec, index: nat, n: nat)
    requires 1 <= index < n
    ensures var d, k := target.Minus(start), (n - index) as real;
      target.Minus(Waypoint(start, target, index, n))
      == Vec(k * (d.x / n as real), k * (d.y / n as real), k * (d.z / n as real))
  {
    var d := target.Minus(start);
    RestOfTheWay(start.x, d.x, index as real, n as real);
    RestOfTheWay(start.y, d.y, index as real, n as real);
    RestOfTheWay(start.z, d.z, index as real, n as real);
  }

  lemma FewerSegments(d2: real, m: real)
    requires m > 0.0 && SegmentCount(d2, m) > 1
    ensures !Reaches(SegmentCount(d2, m) - 1, m, d2)
  {
  }

  lemma RestOfTheWay(a: real, b: real, i: real, n: real)
    requires n > 0.0
    ensures (a + b) - (a + b * (i / n)) == (n - i) * (b / n)
  {
    assert b * (i / n) == i * (b / n);
    assert n * (b / n) == b;
  }

  lemma StretchedIsLonger(x: real, y: real, z: real, k: real)
    requires k >= 1.0
    ensures (k * x) * (k * x) + (k * y) * (k * y) + (k * z) * (k * z) >= x * x + y * y + z * z
  {
    StretchedSquare(x, k);
    StretchedSquare(y, k);
    StretchedSquare(z, k);
  }

  lemma StretchedSquare(x: real, k: real)
    requires k >= 1.0
    ensures (k * x) * (k * x) >= x * x
  {
    var q := x * x;
    assert (k * x) * (k * x) == (k * k) * q;
    assert k * k >= 1.0;
    assert (k * k - 1.0) * q >= 0.0;
  }

  lemma LongSegments(x: real, y: real, z: real, n: real, e: real)
    requires n > 0.0 && 0.0025 * (n * n) <= e < x * x + y * y + z * z
    ensures (x / n) * (x / n) + (y / n) * (y / n) + (z / n) * (z / n) > 0.0025
  {
    var s, q := (x / n) * (x / n) + (y / n) * (y / n) + (z / n) * (z / n), n * n;
    assert s * q == x * x + y * y + z * z by { SegmentSquares(x, y, z, n); }
    if s <= 0.0025 {
      ScaleKeepsWeakOrder(s, 0.0025, q);
    }
  }

  lemma SegmentSquares(x: real, y: real, z: real, n: real)
    requires n > 0.0
    ensures ((x / n) * (x / n) + (y / n) * (y / n) + (z / n) * (z / n)) * (n * n) == x * x + y * y + z * z
  {
    var u, v, t, q := x / n, y / n, z / n, n * n;
    assert u * n == x && v * n == y && t * n == z;
    assert x * x == (u * u) * q;
    assert y * y == (v * v) * q;
    assert z * z == (t * t) * q;
  }

  /** With as few segments as possible, more than one, each is longer than half the bound. */
  lemma HalfTheBound(n: real, m: real)
    requires n >= 2.0 && m >= 0.1
    ensures ((n - 1.0) * m) * ((n - 1.0) * m) >= 0.0025 * (n * n)
  {
    var a := (n - 1.0) * m;
    assert a >= (n - 1.0) * 0.1;
    assert (n - 1.0) * 0.1 >= 0.05 * n;
    var b := 0.05 * n;
    assert a * a >= a * b;
    assert a * b >= b * b;
    assert b * b == 0.0025 * (n * n);
  }

  /** Nothing is within 0.025 of two points more than 0.05 apart. */
  lemma NotNearBoth(a: Vec, b: Vec, eef: Vec)
    requires a.Minus(b).Norm2() > 0.0025
    ensures !Near(a, eef) || !Near(b, eef)
  {
    hide Vec.Norm2;
    NormOfDifference(a.Minus(eef), b.Minus(eef));
    assert a.Minus(eef).Minus(b.Minus(eef)) == a.Minus(b);
  }

  lemma NormOfDifference(u: Vec, v: Vec)
    ensures u.Minus(v).Norm2() <= 2.0 * u.Norm2() + 2.0 * v.Norm2()
  {
    Parallelogram(u.x, v.x, u.x - v.x);
    Parallelogram(u.y, v.y, u.y - v.y);
    Parallelogram(u.z, v.z, u.z - v.z);
  }

  lemma Parallelogram(x: real, y: real, d: real)
    requires d == x - y
    ensures d * d <= 2.0 * (x * x) + 2.0 * (y * y)
  {
    var z := x + y;
    assert z * z >= 0.0 by { if z < 0.0 { assert z * z == (-z) * (-z); } }
    assert d * d + z * z == 2.0 * (x * x) + 2.0 * (y * y);
  }

  /**
   * The exact condition for a move to be where it was sent: a move that
   * counts as reached is at its target if and only if it consumed all its
   * waypoints, and it consumes them all unless it is segmented and the critic
   * interrupts (or the episode ends) at a waypoint in between.
   */
  lemma ReachedIsAtTargetIff(w: World, q: PickPlace, start: Moment, end: Moment, target: Vec, clip: real, steps: nat,
                             r: MoveResult, ends: seq<nat>)
    requires q.Valid() && clip > 0.0 && Moved(w, q, start, end, target, clip, steps, r, ends) && r.Reached()
    ensures Near(target, end.status.eef) <==> r.Complete()
    ensures !r.Complete() ==> q.maxSegment.Some? && end.status.Terminal()
  {
    hide Waypoint, SegmentCount, Legs, Calm, Moment.Leads;
    var from := start.status.eef;
    if r.Complete() {
      WaypointEnds(from, target, r.segments);
    } else {
      WaypointsAreApart(from, target, q.maxSegment.value, r.waypoints);
      NotNearBoth(target, Waypoint(from, target, r.waypoints, r.segments), end.status.eef);
    }
  }

  // ---- Picking the object up ---------------------------------------------

  /** The retreat, the approach and the descent: the moments they ended at and what they reported. */
  datatype Descent = Descent(
    retreated: Moment, retreat: MoveResult, above: Moment, approach: Option<MoveResult>, down: Option<MoveResult>,
    failure: Option<PlaceStatus>)

  function MoveFailure(end: Moment, r: MoveResult, notReached: PlaceStatus): Option<PlaceStatus>
  {
    if end.status.Over() then Some(EndedEarly) else if !r.Reached() then Some(notReached) else None
  }

  /** Straight up, above the grasp position, then down to it, each only after the one before was reached. */
  ghost predicate Descended(w: World, q: PickPlace, grasp: Vec, start: Moment, d: Descent, end: Moment)
    requires q.Valid()
  {
    && Went(w, q, start, d.retreated, start.status.eef.Up(q.retreatHeight), q.moveClip, d.retreat)
    && var failure := MoveFailure(d.retreated, d.retreat, RetreatNotReached);
       if failure.Some? then d.failure == failure && end == d.retreated else Approached(w, q, grasp, d, end)
  }

  ghost predicate Approached(w: World, q: PickPlace, grasp: Vec, d: Descent, end: Moment)
    requires q.Valid()
  {
    && d.approach.Some? && Went(w, q, d.retreated, d.above, grasp.Up(q.approachHeight), q.moveClip, d.approach.value)
    && var failure := MoveFailure(d.above, d.approach.value, ApproachNotReached);
       if failure.Some? then d.failure == failure && end == d.above
       else
         && d.down.Some? && WentWithin(w, q, d.above, end, grasp, q.moveClip, q.GraspSteps(), d.down.value)
         && d.failure == MoveFailure(end, d.down.value, GraspPoseNotReached)
  }

  /** After the first `m` commands retention had been read often enough in a row, at the earliest from the start of the closing. */
  ghost predicate ConfirmedAt(w: World, q: PickPlace, history: seq<Command>, from: nat, height: real, m: nat)
    requires m <= |history|
  {
    from + q.confirmSteps <= m + 1 && forall j: nat | m < j + q.confirmSteps && j <= m :: Retained(w.sidecar(history[..j]), height, None)
  }

  /** The last `stable` readings were of a retained object, and the one before them, if any, was not. */
  ghost predicate Streak(w: World, history: seq<Command>, from: nat, height: real, stable: nat)
    requires from <= |history|
  {
    && from + stable <= |history| + 1
    && (forall j: nat | |history| < j + stable && j <= |history| :: Retained(w.sidecar(history[..j]), height, None))
    && (from + stable < |history| + 1 ==> !Retained(w.sidecar(history[..|history| - stable]), height, None))
  }

  /** Close in place until the grasp is confirmed, the budget is spent, or something terminal happens. */
  ghost predicate Closed(w: World, q: PickPlace, height: real, start: Moment, end: Moment, failure: Option<PlaceStatus>)
  {
    var from, n := |start.history|, |end.history|;
    && start.Leads(w, end) && n - from <= q.closeSteps
    && Holds(end.history, from, CLOSE) && KeepsStill(end.history, from) && Calm(w, end.history, from)
    && (forall m: nat | from <= m < n :: !ConfirmedAt(w, q, end.history, from, height, m))
    && (!ConfirmedAt(w, q, end.history, from, height, n) ==> n - from == q.closeSteps || (n > from && end.status.Terminal()))
    && failure == (if end.status.Over() then Some(EndedEarly)
                   else if ConfirmedAt(w, q, end.history, from, height, n) then None else Some(GraspNotVerified))
  }

  /** A pick: where the descent ended, and whether and why the pick failed. */
  datatype PickTrace = PickTrace(descent: Descent, reached: Moment, failure: Option<PlaceStatus>)

  ghost predicate Picked(w: World, q: PickPlace, manipulated: Vec, start: Moment, t: PickTrace, end: Moment)
    requires q.Valid()
  {
    && Descended(w, q, manipulated.Plus(q.graspOffset), start, t.descent, t.reached)
    && if t.descent.failure.Some? then t.failure == t.descent.failure && end == t.reached
       else Closed(w, q, manipulated.z, t.reached, end, t.failure)
  }

  lemma FirstReading(w: World, history: seq<Command>, height: real)
    ensures Streak(w, history, |history|, height, if Retained(w.sidecar(history), height, None) then 1 else 0)
  {
    hide Retained;
    assert history[..|history|] == history;
  }

  lemma NextReading(w: World, history: seq<Command>, longer: seq<Command>, from: nat, height: real, stable: nat)
    requires from <= |history| && history <= longer && |longer| == |history| + 1 && Streak(w, history, from, height, stable)
    ensures Streak(w, longer, from, height, if Retained(w.sidecar(longer), height, None) then stable + 1 else 0)
  {
    hide Retained;
    assert longer[..|longer|] == longer;
    forall j | 0 <= j <= |history| ensures longer[..j] == history[..j] { }
  }

  lemma StreakConfirms(w: World, q: PickPlace, history: seq<Command>, from: nat, height: real, stable: nat)
    requires from <= |history| && Streak(w, history, from, height, stable) && 1 <= q.confirmSteps
    ensures ConfirmedAt(w, q, history, from, height, |history|) <==> stable >= q.confirmSteps
  {
    hide Retained;
    if stable < q.confirmSteps && from + stable < |history| + 1 {
      var j := |history| - stable;
      assert |history| < j + q.confirmSteps && j <= |history|;
    }
  }

  lemma ConfirmedStays(w: World, q: PickPlace, history: seq<Command>, longer: seq<Command>, from: nat, height: real, m: nat)
    requires history <= longer && m <= |history|
    ensures ConfirmedAt(w, q, longer, from, height, m) == ConfirmedAt(w, q, history, from, height, m)
  {
    hide Retained;
    forall j: nat | j <= m ensures longer[..j] == history[..j] { }
  }

  // ---- Carrying the object -----------------------------------------------

  /** Where the object is to be put: the target as seen after the lift, or as seen at entry. */
  function PlaceTarget(w: World, lifted: seq<Command>, entryTarget: Vec): Vec
  {
    if w.sidecar(lifted).targetKnown then w.sidecar(lifted).target else entryTarget
  }

  /** Near the place position, or contact-limited above it. */
  predicate AtPlace(place: Vec, eef: Vec)
  {
    Near(place, eef) || Aligned(place, eef)
  }

  /** Why a move with the object held fails, if it does. */
  function HeldFailure(w: World, q: PickPlace, height: real, end: Moment, r: MoveResult, notReached: PlaceStatus,
                       lost: PlaceStatus): Option<PlaceStatus>
  {
    if end.status.Over() then Some(EndedEarly)
    else if !r.Reached() then Some(notReached)
    else if !Retained(w.sidecar(end.history), height, Some(q.contactLift)) then Some(lost)
    else None
  }

  function LowerFailure(end: Moment, r: MoveResult): Option<PlaceStatus>
  {
    if end.status.Over() then Some(EndedEarly)
    else if !r.Reached() && !r.AlignedForRelease() then Some(PlaceNotReached)
    else None
  }

  datatype Plan = Plan(height: real, entryTarget: Vec, offset: Vec, grasp: Vec)
  {
    function LiftTo(q: PickPlace): Vec { grasp.Up(q.liftHeight) }

    function CarryTo(w: World, q: PickPlace, lifted: Moment): Vec
    {
      PlaceTarget(w, lifted.history, entryTarget).Plus(offset).Up(q.carryHeight)
    }

    function PlaceAt(w: World, q: PickPlace, lifted: Moment): Vec
    {
      PlaceTarget(w, lifted.history, entryTarget).Plus(offset).Up(q.targetHeight)
    }
  }

  predicate NeedsClearance(q: PickPlace, lifted: Moment, carry: Vec)
  {
    q.verticalFirst && lifted.status.eef.z < carry.z - 0.012
  }

  ghost predicate LiftPhase(w: World, q: PickPlace, plan: Plan, p: Phases, r: PlaceReport)
    requires q.Valid()
  {
    && r.lift.Some? && Went(w, q, p.picked, p.lifted, plan.LiftTo(q), q.LiftClip(), r.lift.value)
    && var failure := HeldFailure(w, q, plan.height, p.lifted, r.lift.value, LiftNotReached, LostDuringLift);
       if failure.Some? then r.status == failure.value && p.cleared == p.carried == p.placed == p.lifted
       else ClearancePhase(w, q, plan, p, r)
  }

  ghost predicate ClearancePhase(w: World, q: PickPlace, plan: Plan, p: Phases, r: PlaceReport)
    requires q.Valid()
  {
    var carry := plan.CarryTo(w, q, p.lifted);
    if !NeedsClearance(q, p.lifted, carry) then p.cleared == p.lifted && CarryPhase(w, q, plan, p, r)
    else
      && r.clearance.Some?
      && Went(w, q, p.lifted, p.cleared, p.lifted.status.eef.(z := carry.z), q.TransportClip(), r.clearance.value)
      && var failure := HeldFailure(w, q, plan.height, p.cleared, r.clearance.value, ClearanceNotReached, LostDuringClearance);
         if failure.Some? then r.status == failure.value && p.carried == p.placed == p.cleared
         else CarryPhase(w, q, plan, p, r)
  }

  ghost predicate CarryPhase(w: World, q: PickPlace, plan: Plan, p: Phases, r: PlaceReport)
    requires q.Valid()
  {
    && r.carry.Some? && Went(w, q, p.cleared, p.carried, plan.CarryTo(w, q, p.lifted), q.TransportClip(), r.carry.value)
    && var failure := HeldFailure(w, q, plan.height, p.carried, r.carry.value, CarryNotReached, LostDuringCarry);
       if failure.Some? then r.status == failure.value && p.placed == p.carried else LowerPhase(w, q, plan, p, r)
  }

  ghost predicate LowerPhase(w: World, q: PickPlace, plan: Plan, p: Phases, r: PlaceReport)
    requires q.Valid()
  {
    && r.place.Some? && Went(w, q, p.carried, p.placed, plan.PlaceAt(w, q, p.lifted), q.TransportClip(), r.place.value)
    && var failure := LowerFailure(p.placed, r.place.value);
       r.status == if failure.Some? then failure.value else Released
  }

  /** The lift, carry and place positions of a run that releases, each exactly as far as its move is complete. */
  ghost predicate CarriedThrough(w: World, q: PickPlace, plan: Plan, p: Phases, r: PlaceReport)
  {
    && r.lift.Some? && r.carry.Some? && r.place.Some?
    && (Near(plan.LiftTo(q), p.lifted.status.eef) <==> r.lift.value.Complete())
    && (Near(plan.CarryTo(w, q, p.lifted), p.carried.status.eef) <==> r.carry.value.Complete())
    && (r.place.value.Complete() ==> AtPlace(plan.PlaceAt(w, q, p.lifted), p.placed.status.eef))
    && (!r.lift.value.Complete() ==> q.maxSegment.Some? && p.lifted.status.interrupted)
    && (!r.carry.value.Complete() ==> q.maxSegment.Some? && p.carried.status.interrupted)
    && (!r.place.value.Complete() ==> q.maxSegment.Some? && (p.placed.status.interrupted || !r.place.value.Reached()))
  }

  lemma HeldArrives(w: World, q: PickPlace, start: Moment, end: Moment, target: Vec, clip: real, r: MoveResult)
    requires q.Valid() && clip > 0.0 && Went(w, q, start, end, target, clip, r) && r.Reached() && !end.status.Over()
    ensures Near(target, end.status.eef) <==> r.Complete()
    ensures !r.Complete() ==> q.maxSegment.Some? && end.status.interrupted
  {
    hide Moved, Near;
    var ends :| Moved(w, q, start, end, target, clip, q.maxStepsPerMove, r, ends);
    ReachedIsAtTargetIff(w, q, start, end, target, clip, q.maxStepsPerMove, r, ends);
  }

  lemma LowerArrives(w: World, q: PickPlace, start: Moment, end: Moment, place: Vec, clip: real, r: MoveResult)
    requires q.Valid() && clip > 0.0 && Went(w, q, start, end, place, clip, r) && LowerFailure(end, r).None?
    ensures r.Complete() ==> AtPlace(place, end.status.eef)
    ensures !r.Complete() ==> q.maxSegment.Some? && (end.status.interrupted || !r.Reached())
  {
    hide Near, Aligned, Legs, Calm, Moment.Leads, Waypoint, SegmentCount;
    if r.Reached() {
      HeldArrives(w, q, start, end, place, clip, r);
    } else if r.Complete() {
      WaypointEnds(start.status.eef, place, r.segments);
    }
  }

  /** A run releases only past both retention checks, at positions that are as planned exactly when the moves were complete. */
  lemma ReleasedWasCarried(w: World, q: PickPlace, plan: Plan, p: Phases, r: PlaceReport)
    requires q.Valid() && LiftPhase(w, q, plan, p, r) && r.status == Released
    ensures !p.placed.status.Over() && CarriedThrough(w, q, plan, p, r)
    ensures Retained(w.sidecar(p.lifted.history), plan.height, Some(q.contactLift))
    ensures Retained(w.sidecar(p.carried.history), plan.height, Some(q.contactLift))
  {
    hide Went, Retained, Near, AtPlace, PickPlace.Valid, Plan.LiftTo, Plan.CarryTo, Plan.PlaceAt, NeedsClearance,
      MoveResult.Complete, MoveResult.Reached, MoveResult.AlignedForRelease;
    assert q.LiftClip() > 0.0 && q.TransportClip() > 0.0 by { ClipsArePositive(q); }
    HeldArrives(w, q, p.picked, p.lifted, plan.LiftTo(q), q.LiftClip(), r.lift.value);
    HeldArrives(w, q, p.cleared, p.carried, plan.CarryTo(w, q, p.lifted), q.TransportClip(), r.carry.value);
    LowerArrives(w, q, p.carried, p.placed, plan.PlaceAt(w, q, p.lifted), q.TransportClip(), r.place.value);
  }

  lemma ClipsArePositive(q: PickPlace)
    requires q.Valid()
    ensures q.LiftClip() > 0.0 && q.TransportClip() > 0.0 && q.moveClip > 0.0
  {
  }

  lemma Joins(w: World, a: Moment, b: Moment, c: Moment)
    requires a.Leads(w, b) && b.Leads(w, c)
    ensures a.Leads(w, c)
  {
  }

  class Primitives {
    const world: World
    const privilegedActions: bool
    var history: seq<Command>
    var status: Status

    constructor (w: World, privileged: bool)
      ensures world == w && privilegedActions == privileged && history == [] && status == w.after([])
    {
      world, privilegedActions, history, status := w, privileged, [], w.after([]);
    }

    ghost function Now(): Moment
      reads this
    {
      Moment(history, status)
    }

    /** Acknowledge the proposal that authorized the next recovery action. */
    method BeginRecoveryStep()
      modifies this`status
      ensures status == old(status).(interrupted := false)
    {
      status := status.(interrupted := false);
    }

    /** One command; the client refuses to step an episode that is over. */
    method StepEnv(c: Command)
      requires !status.Over()
      modifies this
      ensures history == old(history) + [c] && status == world.after(history)
    {
      history := history + [c];
      status := world.after(history);
    }

    /** Servo to a position and, when given, an orientation; used for both plain moves and pose moves. */
    method MovePose(target: Vec, pitch: Option<real>, yaw: Option<real>, gripper: real, stepClip: real, tol: real,
                    maxSteps: nat)
      returns (distance2: real)
      requires !status.Over() && stepClip > 0.0
      modifies this
      ensures old(Now()).Leads(world, Now()) && Calm(world, history, |old(history)|)
      ensures Holds(history, |old(history)|, gripper)
      ensures forall k | |old(history)| <= k < |history| ::
                Bounded(history[k].move, 1.0) && -0.8 <= history[k].pitch <= 0.8 && -0.8 <= history[k].yaw <= 0.8
      ensures Leg(world, old(Now()), history, |old(history)|, |history|, Goal(target, pitch, yaw, tol), stepClip, maxSteps)
      ensures distance2 == target.Minus(status.eef).Norm2()
    {
      hide ServosAt, Servo, Turn, Goal.Met, Abs, Vec.Norm2, Calm, ClipVec;
      CalmAtStart(world, history);
      ghost var from, start := |history|, Now();
      ghost var goal := Goal(target, pitch, yaw, tol);
      assert history[..|history|] == history;
      for step := 0 to maxSteps
        invariant forall k | from <= k < |history| :: ServosAt(world, start, history, goal, stepClip, k)
        invariant old(history) <= history && |history| == from + step
        invariant step > 0 ==> status == world.after(history) && !status.Terminal()
        invariant step == 0 ==> status == old(status) && history == old(history)
        invariant Calm(world, history, from) && Holds(history, from, gripper)
        invariant forall k | from <= k < |history| ::
                    Bounded(history[k].move, 1.0) && -0.8 <= history[k].pitch <= 0.8 && -0.8 <= history[k].yaw <= 0.8
      {
        var diff := target.Minus(status.eef);
        var pitchError := if pitch.None? then 0.0 else world.pitchError(history, pitch.value);
        var yawError := if yaw.None? then 0.0 else world.yawError(history, yaw.value);
        assert history[..|history|] == history;
        MetIff(world, goal, history, status.eef, pitchError, yawError);
        if diff.Norm2() < tol * tol && Abs(pitchError) < 0.05 && Abs(yawError) < 0.05 {
          break;
        }
        var c := Command(Servo(diff, stepClip), Turn(pitchError), Turn(yawError), gripper);
        CalmThenOne(world, history, from, c);
        ServosStay(world, start, history, goal, stepClip, c);
        StepEnv(c);
        assert history[..|history|] == history;
        if status.Terminal() {
          break;
        }
      }
      distance2 := target.Minus(status.eef).Norm2();
    }

    /** Hold the pose and drive the gripper: all the steps, unless something terminal comes first. */
    method HoldGripper(gripper: real, steps: nat)
      requires !status.Over()
      modifies this
      ensures old(Now()).Leads(world, Now()) && Calm(world, history, |old(history)|)
      ensures |history| <= |old(history)| + steps && (steps > 0 ==> |history| > |old(history)|)
      ensures |history| < |old(history)| + steps ==> status.Terminal()
      ensures Holds(history, |old(history)|, gripper) && KeepsStill(history, |old(history)|)
    {
      ghost var from := |history|;
      for step := 0 to steps
        invariant old(history) <= history && |history| == from + step
        invariant step > 0 ==> status == world.after(history) && !status.Terminal()
        invariant step == 0 ==> status == old(status) && history == old(history)
        invariant Calm(world, history, from) && Holds(history, from, gripper) && KeepsStill(history, from)
      {
        var c := Command(Vec(0.0, 0.0, 0.0), 0.0, 0.0, gripper);
        CalmThenOne(world, history, from, c);
        StepEnv(c);
        if status.Terminal() {
          break;
        }
      }
    }

    /** Sweep the contact along the tangent, reversing when the joint moves away. */
    method SweepOnce(f: Fixture, budget: nat) returns (r: Result<Sweep, PrimitiveError>)
      modifies this
      ensures old(Now()).Leads(world, Now()) && |history| <= |old(history)| + budget
      ensures |history| > |old(history)| ==> !old(status).Terminal()
      ensures Calm(world, history, |old(history)|) && Holds(history, |old(history)|, f.Grip())
      ensures forall k | |old(history)| <= k < |history| :: PushesAlongTangent(world, f, history, |old(history)|, k)
      ensures r.Ok? ==> Swept(world, f, old(Now()), Now(), budget, r.value)
      ensures r.Err? ==>
        var plan := world.plan(history);
        (r.error == PlanIncomplete && plan.None?) || (r.error == BadTangent && plan.Some? && !plan.value.satisfied)
    {
      hide Fixture.Push, PushesAlongTangent, Calm, Turns, Sign, Responded, Fixture.Responds, Fixture.Diverges, RespondsAt,
        Fixture.Grip, Sweeping, Swept, Holds;
      CalmAtStart(world, history);
      ghost var start, from, n := Now(), |history|, 0;
      HoldsNothing(history, f.Grip());
      assert history[..from] == history;
      var sign, reversals, responded, windowSteps, used := 1.0, 0, false, 0, 0;
      var window := world.plan(history);
      if window.None? {
        return Err(PlanIncomplete);
      }
      SweepStarts(world, f, history, window.value);
      var reference := window.value.tangent;
      for i := 0 to budget
        invariant used == i == 3 * n + windowSteps && windowSteps < 3 && window.Some?
        invariant old(history) <= history && |history| == from + used && history[..from] == old(history)
        invariant Sweeping(world, f, history, from, n, windowSteps, window.value, sign, reversals)
        invariant responded <==> Responded(world, f, history, from, |history|)
        invariant world.plan(old(history)).Some? && reference == world.plan(old(history)).value.tangent
        invariant world.plan(history).Some? && (used > 0 ==> !world.plan(history).value.satisfied)
        invariant used > 0 ==> status == world.after(history) && !status.Terminal() && !old(status).Terminal()
        invariant used == 0 ==> status == old(status) && history == old(history)
        invariant Calm(world, history, from) && Holds(history, from, f.Grip())
      {
        if status.Terminal() {
          break;
        }
        var current := world.plan(history);
        if current.None? {
          return Err(PlanIncomplete);
        }
        if current.value.satisfied {
          break;
        }
        var tangent := if f.steady then reference else current.value.tangent;
        if tangent.None? {
          SweepSoFar(world, f, history, from, n, windowSteps, window.value, sign, reversals);
          return Err(BadTangent);
        }
        var c := f.Push(tangent.value, sign);
        ghost var before := history;
        assert before[..|before|] == before;
        SweepPushes(world, f, history, from, n, windowSteps, window.value, sign, reversals, c);
        PushGoesOn(world, f, history, from, tangent.value, sign);
        StepEnv(c);
        assert history[..from] == old(history);
        used := used + 1;
        windowSteps := windowSteps + 1;
        if status.Terminal() {
          break;
        }
        var after := world.plan(history);
        if after.None? {
          SweepSoFar(world, f, history, from, n, windowSteps, window.value, sign, reversals);
          return Err(PlanIncomplete);
        }
        RespondedLast(world, f, before, history, current.value, after.value);
        if f.Responds(current.value, after.value) {
          responded := true;
        }
        if after.value.satisfied {
          break;
        }
        if windowSteps < 3 {
          continue;
        }
        WindowEnds(world, f, history, from, n, window.value, sign, reversals, after.value);
        if f.Diverges(window.value, after.value) && reversals < MAXIMUM_REVERSALS {
          sign := -sign;
          reversals := reversals + 1;
        }
        window := after;
        windowSteps := 0;
        n := n + 1;
      }
      SweepSoFar(world, f, history, from, n, windowSteps, window.value, sign, reversals);
      var final := world.plan(history);
      if final.None? {
        return Err(PlanIncomplete);
      }
      r := Ok(Sweep(final.value.satisfied, responded, used, reversals));
      SweepEnds(world, f, start, Now(), budget, n, windowSteps, window.value, sign, r.value);
    }

    /** Lift away, return above the fixture, press, and settle the gripper: at most 108 moves and the settling steps. */
    method Recontact(f: Fixture, closeSteps: nat) returns (r: Result<(), PrimitiveError>, ghost p: Contact)
      requires !status.Terminal()
      modifies this
      ensures old(Now()).Leads(world, Now()) && |history| <= |old(history)| + RECONTACT_STEPS + closeSteps
      ensures Calm(world, history, |old(history)|)
      ensures r.Ok? ==> Recontacted(world, f, closeSteps, old(Now()), p, Now())
      ensures r.Err? ==> r.error == PlanIncomplete && world.plan(history).None?
    {
      hide Calm, Holds, ServosAt, Goal.Met, Fixture.Grip, KeepsStill, Bounded;
      CalmAtStart(world, history);
      ghost var start := Now();
      p := Contact(start, start, start);
      var current := world.plan(history);
      if current.None? {
        return Err(PlanIncomplete), p;
      }
      var retreat := status.eef.(z := Max(status.eef.z + 0.045, current.value.approach.z));
      var _ := MovePose(retreat, None, None, OPEN, 0.012, 0.008, 36);
      p := Contact(Now(), Now(), Now());
      if !status.Terminal() {
        current := world.plan(history);
        if current.None? {
          return Err(PlanIncomplete), p;
        }
        var approach := current.value.approach.(z := Max(current.value.approach.z, retreat.z));
        var _ := MovePose(approach, None, None, if f.slide && f.slideGrasp then CLOSE else OPEN, 0.02, 0.01, 40);
        CalmOn(world, history, start, p.lifted);
        p := Contact(p.lifted, Now(), Now());
      }
      if !status.Terminal() {
        current := world.plan(history);
        if current.None? {
          return Err(PlanIncomplete), p;
        }
        var _ := MovePose(current.value.press, None, None, OPEN, 0.012, 0.005, 32);
        CalmOn(world, history, start, p.above);
        p := Contact(p.lifted, p.above, Now());
      }
      if !status.Terminal() {
        HoldGripper(f.Grip(), closeSteps);
        CalmOn(world, history, start, p.pressed);
      }
      return Ok(()), p;
    }

    /** A short sweep in direct contact, then, without a response, a recontact and the rest of the sweep. */
    method SweepWithRecontact(f: Fixture, directBudget: nat, maxSweepSteps: nat, closeSteps: nat)
      returns (r: Result<(nat, nat, bool, nat), PrimitiveError>, ghost x: JointRun)
      requires directBudget == DirectBudget(f, maxSweepSteps)
      modifies this
      ensures old(Now()).Leads(world, Now()) && |history| - |old(history)| <= maxSweepSteps + RECONTACT_STEPS + closeSteps
      ensures |history| > |old(history)| ==> !old(status).Terminal()
      ensures Calm(world, history, |old(history)|)
      ensures r.Ok? ==>
        && Interacted(world, f, maxSweepSteps, closeSteps, old(Now()), x, Now())
        && r.value == (x.direct.used + (if x.rest.Some? then x.rest.value.used else 0), x.direct.used, x.contact.Some?,
                       x.direct.reversals + (if x.rest.Some? then x.rest.value.reversals else 0))
      ensures r.Err? ==> r.error == PlanIncomplete || r.error == BadTangent
    {
      hide Calm, Holds, PushesAlongTangent, Fixture.Grip, Turns, Responded, Recontacted, Swept, Moment.Leads;
      CalmAtStart(world, history);
      ghost var start := Now();
      x := JointRun(start, Sweep(false, false, 0, 0), None, start, None);
      var direct := SweepOnce(f, directBudget);
      if direct.Err? {
        return Err(direct.error), x;
      }
      SweptCounts(world, f, start, Now(), directBudget, direct.value);
      var satisfied, recontacted := direct.value.satisfied, false;
      var sweepSteps, reversals := direct.value.used, direct.value.reversals;
      x := JointRun(Now(), direct.value, None, Now(), None);
      if !satisfied && !status.Terminal() && !direct.value.responded {
        recontacted := true;
        var contact, p := Recontact(f, closeSteps);
        CalmThrough(world, start, x.swept, Now());
        if contact.Err? {
          return Err(contact.error), x;
        }
        x := x.(contact := Some(p), contacted := Now());
      }
      if !satisfied && !status.Terminal() {
        var rest := SweepOnce(f, maxSweepSteps - direct.value.used);
        CalmThrough(world, start, x.contacted, Now());
        if rest.Err? {
          return Err(rest.error), x;
        }
        sweepSteps, reversals := sweepSteps + rest.value.used, reversals + rest.value.reversals;
        x := x.(rest := Some(rest.value));
      }
      return Ok((sweepSteps, direct.value.used, recontacted, reversals)), x;
    }

    /**
     * Servo a fixture joint to one end of its range.  No command is issued
     * after one that made the episode terminal (nor any if it already was),
     * the sweeps take at most `maxSweepSteps` commands, and the whole run at
     * most 108 more and the settling steps.
     */
    method SemanticJointInteract(lowerGoal: bool, maxSweepSteps: int, sweepStep: real, closeSteps: int, slideGrasp: bool)
      returns (r: Result<JointReport, PrimitiveError>, ghost x: JointRun)
      modifies this
      ensures old(Now()).Leads(world, Now()) && Calm(world, history, |old(history)|)
      ensures var permitted := privilegedActions && 1 <= maxSweepSteps <= 64 && 1 <= closeSteps <= 8 && 0.001 <= sweepStep <= 0.015;
        && (!permitted ==> history == old(history) && r == Err(if privilegedActions then BadParameter else NotPermitted))
        && (|history| > |old(history)| ==>
              !old(status).Terminal() && |history| - |old(history)| <= maxSweepSteps + RECONTACT_STEPS + closeSteps)
        && (permitted && r.Err? ==> r.error == PlanIncomplete || r.error == BadTangent)
      ensures r.Ok? ==>
        && 1 <= maxSweepSteps <= 64 && 1 <= closeSteps <= 8
        && world.plan(old(history)).Some? && world.plan(history).Some?
        && var start, final := world.plan(old(history)).value, world.plan(history).value;
           var target := if lowerGoal then start.lower else start.upper;
           var steady := target - 0.04 <= start.qpos <= target + 0.04;
           && Interacted(world, Fixture(lowerGoal, sweepStep, start.slide, slideGrasp, steady, target), maxSweepSteps, closeSteps,
                         old(Now()), x, Now())
           && ReportTells(r.value, start, final, x, |history| - |old(history)|, status)
    {
      hide Calm, Interacted, Moment.Leads;
      Stays(world, Now());
      CalmAtStart(world, history);
      ghost var before := Now();
      x := JointRun(before, Sweep(false, false, 0, 0), None, before, None);
      if !privilegedActions {
        return Err(NotPermitted), x;
      }
      if !(1 <= maxSweepSteps <= 64) || !(1 <= closeSteps <= 8) || !(0.001 <= sweepStep <= 0.015) {
        return Err(BadParameter), x;
      }
      var start := world.plan(history);
      if start.None? {
        return Err(PlanIncomplete), x;
      }
      var slide := start.value.slide;
      var target := if lowerGoal then start.value.lower else start.value.upper;
      var f := Fixture(lowerGoal, sweepStep, slide, slideGrasp, Abs(start.value.qpos - target) <= 0.04, target);
      var directBudget := if slide && slideGrasp then 0 else if maxSweepSteps < 12 then maxSweepSteps else 12;
      var actionsBefore := |history|;
      var swept;
      swept, x := SweepWithRecontact(f, directBudget, maxSweepSteps, closeSteps);
      if swept.Err? {
        return Err(swept.error), x;
      }
      var final := world.plan(history);
      if final.None? {
        return Err(PlanIncomplete), x;
      }
      var (sweepSteps, directSteps, recontacted, reversals) := swept.value;
      LeadsOn(world, before, before, Now());
      return Ok(JointReport(start.value.qpos, final.value.qpos, final.value.satisfied, sweepSteps, directSteps,
                            recontacted, reversals, |history| - actionsBefore, status.interrupted, status.terminated)), x;
    }

    // ---- Pick and place --------------------------------------------------

    method MoveOnce(q: PickPlace, target: Vec, gripper: real, clip: real, budget: nat)
      returns (distance2: real, goal: Option<Vec>)
      requires !status.Over() && clip > 0.0
      modifies this
      ensures old(Now()).Leads(world, Now()) && Calm(world, history, |old(history)|)
      ensures Holds(history, |old(history)|, gripper)
      ensures Leg(world, old(Now()), history, |old(history)|, |history|, q.Facing(target), clip, budget)
      ensures distance2 == target.Minus(status.eef).Norm2()
      ensures goal == if q.pitch.Some? || q.yaw.Some? then None else Some(target)
    {
      hide ServosAt, Calm, Goal.Met;
      distance2 := MovePose(target, q.pitch, q.yaw, gripper, clip, 0.012, budget);
      goal := if q.pitch.Some? || q.yaw.Some? then None else Some(target);
    }

    /** Move directly, or through bounded waypoints until one is not reached or the episode turns terminal. */
    method Move(q: PickPlace, target: Vec, gripper: real, clip: real, budget: Option<nat>)
      returns (r: MoveResult, ghost ends: seq<nat>)
      requires !status.Over() && clip > 0.0 && q.Valid()
      modifies this
      ensures var steps := if budget.None? then q.maxStepsPerMove else budget.value;
        && Moved(world, q, old(Now()), Now(), target, clip, steps, r, ends)
        && |history| - |old(history)| <= r.waypoints * steps
      ensures Holds(history, |old(history)|, gripper)
    {
      hide Legs, Leg, SegmentCount, Waypoint, Calm, Near, Moment.Leads, PickPlace.Valid, Vec.Norm2, Holds, PickPlace.Facing;
      ValidSegment(q);
      var steps := if budget.None? then q.maxStepsPerMove else budget.value;
      var start := status.eef;
      var count := if q.maxSegment.None? then 1 else SegmentCount(target.Minus(start).Norm2(), q.maxSegment.value);
      ghost var before := Now();
      ends := [|history|];
      NoLegs(world, q, before, target, count, clip, steps);
      var distance2, goal := MoveOnce(q, Waypoint(start, target, 1, count), gripper, clip, steps);
      LeadsOn(world, before, before, Now());
      LegInBudget(world, before, history, q.Facing(Waypoint(start, target, 1, count)), clip, steps);
      LegsGrow(world, q, before, before, history, target, count, clip, steps, ends);
      assert 1 * steps == steps;
      ends := ends + [|history|];
      r := MoveResult(distance2, status.eef, goal, 1, count);
      while r.waypoints < count && !status.Terminal() && r.Reached()
        invariant before.Leads(world, Now()) && Calm(world, history, |before.history|)
        invariant Holds(history, |before.history|, gripper)
        invariant r.segments == count && 1 <= r.waypoints <= count && |ends| == r.waypoints + 1
        invariant Legs(world, q, before, history, target, count, clip, steps, ends)
        invariant |history| - |before.history| <= r.waypoints * steps
        invariant r.eef == status.eef
        invariant r.distance2 == Waypoint(start, target, r.waypoints, count).Minus(status.eef).Norm2()
        invariant r.target == if q.pitch.Some? || q.yaw.Some? then None else Some(Waypoint(start, target, r.waypoints, count))
        decreases count - r.waypoints
      {
        ghost var middle := Now();
        ReachedIsNear(Waypoint(start, target, r.waypoints, count), r);
        var next := r.waypoints + 1;
        distance2, goal := MoveOnce(q, Waypoint(start, target, next, count), gripper, clip, steps);
        LeadsOn(world, before, middle, Now());
        LegInBudget(world, middle, history, q.Facing(Waypoint(start, target, next, count)), clip, steps);
        LegsGrow(world, q, before, middle, history, target, count, clip, steps, ends);
        CalmThrough(world, before, middle, Now());
        HoldsJoin(middle.history, history, |before.history|, gripper);
        assert next * steps == r.waypoints * steps + steps;
        ends := ends + [|history|];
        r := MoveResult(distance2, status.eef, goal, next, count);
      }
    }

    /** Retreat, approach and descend, with the gripper open. */
    method Descend(q: PickPlace, grasp: Vec) returns (failure: Option<PlaceStatus>, ghost d: Descent)
      requires !status.Over() && q.Valid()
      modifies this
      ensures old(Now()).Leads(world, Now()) && Holds(history, |old(history)|, OPEN)
      ensures failure == d.failure != Some(Released) && Descended(world, q, grasp, old(Now()), d, Now())
      ensures failure.None? ==> !status.Over() && (Near(grasp, status.eef) || (q.maxSegment.Some? && status.interrupted))
    {
      hide Moved, Went, WentWithin, Near, MoveResult.Reached, PickPlace.Valid, Moment.Leads, Holds;
      ClipsArePositive(q);
      ghost var start := Now();
      var retreat, ends := Move(q, status.eef.Up(q.retreatHeight), OPEN, q.moveClip, None);
      MovedWent(world, q, start, Now(), start.status.eef.Up(q.retreatHeight), q.moveClip, q.maxStepsPerMove, retreat, ends);
      d := Descent(Now(), retreat, Now(), None, None, MoveFailure(Now(), retreat, RetreatNotReached));
      if status.Over() {
        return Some(EndedEarly), d;
      }
      if !retreat.Reached() {
        return Some(RetreatNotReached), d;
      }
      var approach;
      approach, ends := Move(q, grasp.Up(q.approachHeight), OPEN, q.moveClip, None);
      MovedWent(world, q, d.retreated, Now(), grasp.Up(q.approachHeight), q.moveClip, q.maxStepsPerMove, approach, ends);
      MovesJoin(world, start, d.retreated, Now(), OPEN);
      d := Descent(d.retreated, retreat, Now(), Some(approach), None, MoveFailure(Now(), approach, ApproachNotReached));
      if status.Over() {
        return Some(EndedEarly), d;
      }
      if !approach.Reached() {
        return Some(ApproachNotReached), d;
      }
      var down;
      down, ends := Move(q, grasp, OPEN, q.moveClip, q.graspPoseMaxSteps);
      MovedWent(world, q, d.above, Now(), grasp, q.moveClip, q.GraspSteps(), down, ends);
      MovesJoin(world, start, d.above, Now(), OPEN);
      d := d.(down := Some(down), failure := MoveFailure(Now(), down, GraspPoseNotReached));
      if status.Over() {
        return Some(EndedEarly), d;
      }
      if !down.Reached() {
        return Some(GraspPoseNotReached), d;
      }
      DownIsThere(world, q, d.above, Now(), grasp, q.moveClip, q.GraspSteps(), down, ends);
      return None, d;
    }

    /** Close step by step until retention has been confirmed often enough in a row. */
    method CloseUntilRetained(q: PickPlace, height: real) returns (failure: Option<PlaceStatus>)
      requires !status.Over() && q.Valid()
      modifies this
      ensures Closed(world, q, height, old(Now()), Now(), failure)
      ensures failure != Some(Released)
    {
      hide Retained, Streak, ConfirmedAt, Calm, Holds, KeepsStill;
      ghost var start, from := Now(), |history|;
      var stable := if Retained(world.sidecar(history), height, None) then 1 else 0;
      FirstReading(world, history, height);
      NothingYet(world, history, CLOSE);
      var used := 0;
      while used < q.closeSteps && stable < q.confirmSteps && !status.Over()
        invariant start.Leads(world, Now()) && |history| - from == used <= q.closeSteps
        invariant Holds(history, from, CLOSE) && KeepsStill(history, from) && Calm(world, history, from)
        invariant used > 0 ==> !status.Terminal()
        invariant Streak(world, history, from, height, stable)
        invariant forall m: nat | from <= m < |history| :: !ConfirmedAt(world, q, history, from, height, m)
        decreases q.closeSteps - used
      {
        ghost var before := Now();
        StreakConfirms(world, q, history, from, height, stable);
        HoldGripper(CLOSE, 1);
        StillJoins(world, start, before, Now(), CLOSE);
        NextReading(world, before.history, history, from, height, stable);
        forall m: nat | from <= m < |history| ensures !ConfirmedAt(world, q, history, from, height, m) {
          ConfirmedStays(world, q, before.history, history, from, height, m);
        }
        used := used + 1;
        stable := if Retained(world.sidecar(history), height, None) then stable + 1 else 0;
        if status.Terminal() {
          break;
        }
      }
      StreakConfirms(world, q, history, from, height, stable);
      if status.Over() {
        return Some(EndedEarly);
      }
      return if stable < q.confirmSteps then Some(GraspNotVerified) else None;
    }

    /** Open on the way down to the grasp position, then close: success only with retention. */
    method Pick(q: PickPlace, manipulated: Vec) returns (failure: Option<PlaceStatus>, ghost t: PickTrace)
      requires !status.Over() && q.Valid()
      modifies this
      ensures old(Now()).Leads(world, t.reached) && t.reached.Leads(world, Now())
      ensures Holds(t.reached.history, |old(history)|, OPEN) && Holds(history, |t.reached.history|, CLOSE)
      ensures failure == t.failure != Some(Released) && Picked(world, q, manipulated, old(Now()), t, Now())
      ensures failure.None? ==>
        && !status.Over() && Retained(world.sidecar(history), manipulated.z, None)
        && (Near(manipulated.Plus(q.graspOffset), t.reached.status.eef) || (q.maxSegment.Some? && t.reached.status.interrupted))
    {
      hide Retained, Near, Descended, Closed, PickPlace.Valid, Moment.Leads, Holds;
      ghost var descent: Descent;
      failure, descent := Descend(q, manipulated.Plus(q.graspOffset));
      ghost var reached := Now();
      Stays(world, reached);
      NothingYet(world, history, CLOSE);
      if failure.None? {
        failure := CloseUntilRetained(q, manipulated.z);
        ClosedRetains(world, q, manipulated.z, reached, Now(), failure);
      }
      t := PickTrace(descent, reached, failure);
    }

    /** One move with the object held, after which it must still be retained: the lift, the clearance, the carry. */
    method MoveHeld(q: PickPlace, height: real, target: Vec, clip: real, notReached: PlaceStatus, lost: PlaceStatus)
      returns (failure: Option<PlaceStatus>, r: MoveResult)
      requires !status.Over() && q.Valid() && clip > 0.0
      modifies this
      ensures Went(world, q, old(Now()), Now(), target, clip, r) && old(Now()).Leads(world, Now())
      ensures Holds(history, |old(history)|, CLOSE)
      ensures failure == HeldFailure(world, q, height, Now(), r, notReached, lost)
    {
      hide Retained, Moved, Went, PickPlace.Valid;
      ghost var ends: seq<nat>;
      r, ends := Move(q, target, CLOSE, clip, None);
      MovedWent(world, q, old(Now()), Now(), target, clip, q.maxStepsPerMove, r, ends);
      if status.Over() {
        return Some(EndedEarly), r;
      }
      if !r.Reached() {
        return Some(notReached), r;
      }
      return if Retained(world.sidecar(history), height, Some(q.contactLift)) then None else Some(lost), r;
    }

    /** Lift, carry and lower with the gripper closed, re-checking retention after every phase. */
    method Transport(q: PickPlace, plan: Plan) returns (r: PlaceReport, ghost p: Phases)
      requires !status.Over() && q.Valid()
      modifies this
      ensures p.picked == old(Now()) && p.placed == Now() && Ordered(world, p)
      ensures Holds(history, |old(history)|, CLOSE)
      ensures LiftPhase(world, q, plan, p, r)
    {
      hide Retained, Went, PickPlace.Valid, PlaceTarget, Holds;
      ClipsArePositive(q);
      ghost var picked := Now();
      HoldsJoin(history, history, |history|, CLOSE);
      var failure, lift := MoveHeld(q, plan.height, plan.grasp.Up(q.liftHeight), q.LiftClip(), LiftNotReached, LostDuringLift);
      ghost var lifted := Now();
      r := PlaceReport(if failure.Some? then failure.value else Released, Some(lift), None, None, None);
      if failure.Some? {
        return r, Phases(picked, lifted, lifted, lifted, lifted);
      }
      var target := if world.sidecar(history).targetKnown then world.sidecar(history).target else plan.entryTarget;
      var carry := target.Plus(plan.offset).Up(q.carryHeight);
      assert carry == plan.CarryTo(world, q, lifted) by { SeenTarget(world, history, plan.entryTarget); }
      assert target == PlaceTarget(world, lifted.history, plan.entryTarget) by { SeenTarget(world, history, plan.entryTarget); }
      if q.verticalFirst && status.eef.z < carry.z - 0.012 {
        var clearance;
        failure, clearance := MoveHeld(q, plan.height, status.eef.(z := carry.z), q.TransportClip(), ClearanceNotReached,
                                       LostDuringClearance);
        HoldsJoin(lifted.history, history, |picked.history|, CLOSE);
        r := r.(clearance := Some(clearance));
        if failure.Some? {
          return r.(status := failure.value), Phases(picked, lifted, Now(), Now(), Now());
        }
      }
      ghost var cleared := Now();
      var carried, placed;
      failure, carried := MoveHeld(q, plan.height, carry, q.TransportClip(), CarryNotReached, LostDuringCarry);
      HoldsJoin(cleared.history, history, |picked.history|, CLOSE);
      r := r.(carry := Some(carried));
      ghost var p3 := Now();
      if failure.Some? {
        return r.(status := failure.value), Phases(picked, lifted, cleared, p3, p3);
      }
      failure, placed := Lower(q, target.Plus(plan.offset).Up(q.targetHeight));
      HoldsJoin(p3.history, history, |picked.history|, CLOSE);
      r := r.(place := Some(placed), status := if failure.Some? then failure.value else Released);
      p := Phases(picked, lifted, cleared, p3, Now());
    }

    method Lower(q: PickPlace, place: Vec) returns (failure: Option<PlaceStatus>, r: MoveResult)
      requires !status.Over() && q.Valid()
      modifies this
      ensures q.TransportClip() > 0.0 && Went(world, q, old(Now()), Now(), place, q.TransportClip(), r)
      ensures old(Now()).Leads(world, Now()) && Holds(history, |old(history)|, CLOSE)
      ensures failure == LowerFailure(Now(), r)
    {
      hide Moved, Went, PickPlace.Valid, Aligned;
      ClipsArePositive(q);
      ghost var ends: seq<nat>;
      r, ends := Move(q, place, CLOSE, q.TransportClip(), None);
      MovedWent(world, q, old(Now()), Now(), place, q.TransportClip(), q.maxStepsPerMove, r, ends);
      if status.Over() {
        return Some(EndedEarly), r;
      }
      return if r.Reached() || r.AlignedForRelease() then None else Some(PlaceNotReached), r;
    }

    /**
     * Semantic pick and place.  The commanded gripper opens, then closes, then
     * opens again; the last opening is at most twelve commands and happens
     * only after retention was confirmed after the lift and after the carry.
     * An object already held is never released before that.
     */
    method PrivilegedPickPlace(q: PickPlace)
      returns (r: Result<PlaceReport, PrimitiveError>, ghost t: PickTrace, ghost p: Phases)
      requires !status.Over()
      modifies this
      ensures var refusal := Refusal(privilegedActions, old(world.sidecar(history)), q);
        if refusal.Some? then r == refusal.value && history == old(history)
        else
          && r.Ok? && PlaceRun(world, q, old(Now()), t, p, r.value, Now())
          && HandledSafely(world, q, old(Now()), t, p, r.value, Now())
    {
      ghost var before := Now();
      t := PickTrace(NoDescent(before), before, None);
      p := Phases(before, before, before, before, before);
      assert history[..|history|] == history;
      if !privilegedActions {
        return Err(NotPermitted), t, p;
      }
      var entry := world.sidecar(history);
      if !entry.posesKnown {
        return Ok(Ended(StateUnavailable)), t, p;
      }
      if entry.success {
        return Ok(Ended(AlreadySuccess)), t, p;
      }
      if !q.Valid() {
        return Err(BadParameter), t, p;
      }
      if !entry.finite {
        return Ok(Ended(InvalidPose)), t, p;
      }
      hide Retained, LiftPhase, PickPlace.Valid, HandledSafely, Holds, Picked, Held, Ordered, Moment.Leads;
      var plan := Plan(entry.manipulated.z, entry.target, q.graspOffset, entry.manipulated.Plus(q.graspOffset));
      Stays(world, before);
      NothingYet(world, history, OPEN);
      NothingYet(world, history, CLOSE);
      if entry.graspRetained {
        plan := plan.(grasp := status.eef, offset := status.eef.Minus(entry.manipulated));
      } else {
        var failure: Option<PlaceStatus>;
        failure, t := Pick(q, entry.manipulated);
        if failure.Some? {
          p := Phases(Now(), Now(), Now(), Now(), Now());
          PickFailedSafely(world, q, before, t, Now(), Ended(failure.value));
          return Ok(Ended(failure.value)), t, p;
        }
      }
      var report;
      report, p := Deliver(q, plan);
      DeliveredSafely(world, q, before, t, plan, p, report, Now());
      return Ok(report), t, p;
    }

    /** Carry the object and, when it got there, open the gripper. */
    method Deliver(q: PickPlace, plan: Plan) returns (r: PlaceReport, ghost p: Phases)
      requires !status.Over() && q.Valid()
      modifies this
      ensures p.picked == old(Now()) && Ordered(world, p) && p.placed.Leads(world, Now())
      ensures Holds(p.placed.history, |old(history)|, CLOSE) && Holds(history, |p.placed.history|, OPEN)
      ensures LiftPhase(world, q, plan, p, r)
      ensures if r.status == Released then Held(world, p.placed, Now(), OPEN, RELEASE_STEPS) && |history| > |p.placed.history|
              else Now() == p.placed
    {
      hide Retained, CarriedThrough, Near, LiftPhase, PickPlace.Valid, Holds, Held, Ordered;
      r, p := Transport(q, plan);
      NothingYet(world, history, OPEN);
      Stays(world, Now());
      if r.status == Released {
        ReleasedWasCarried(world, q, plan, p, r);
        HoldGripper(OPEN, RELEASE_STEPS);
        StillHeld(world, p.placed, Now(), OPEN, RELEASE_STEPS);
      }
    }
  }

  /** The run in gripper terms, the retention checks behind the release, and the positions behind it. */
  ghost predicate HandledSafely(w: World, q: PickPlace, start: Moment, t: PickTrace, p: Phases, r: PlaceReport, end: Moment)
  {
    && start.Leads(w, t.reached) && t.reached.Leads(w, p.picked) && Ordered(w, p) && p.placed.Leads(w, end)
    && OpenCloseOpen(end.history, |start.history|, |t.reached.history|, |p.placed.history|)
    && SafeRelease(w, q, end.history, |start.history|, |p.placed.history|, p, r)
    && (r.status == Released ==>
          PlacedAsPlanned(w, q, start, t.reached, p, r) && |end.history| > |p.placed.history|)
  }

  lemma PickFailedSafely(w: World, q: PickPlace, start: Moment, t: PickTrace, end: Moment, r: PlaceReport)
    requires start.Leads(w, t.reached) && t.reached.Leads(w, end) && r.status != Released
    requires Holds(t.reached.history, |start.history|, OPEN) && Holds(end.history, |t.reached.history|, CLOSE)
    ensures HandledSafely(w, q, start, t, Phases(end, end, end, end, end), r, end)
  {
    hide Holds, OpenCloseOpen, SafeRelease;
    PickedTrace(t.reached.history, end.history, |start.history|);
    NotReleased(w, q, end.history, |start.history|, Phases(end, end, end, end, end), r);
  }

  lemma DeliveredSafely(w: World, q: PickPlace, start: Moment, t: PickTrace, plan: Plan, p: Phases, r: PlaceReport, end: Moment)
    requires start.Leads(w, t.reached) && t.reached.Leads(w, p.picked) && Ordered(w, p) && p.placed.Leads(w, end) && q.Valid()
    requires Holds(t.reached.history, |start.history|, OPEN) && Holds(p.picked.history, |t.reached.history|, CLOSE)
    requires Holds(p.placed.history, |p.picked.history|, CLOSE) && Holds(end.history, |p.placed.history|, OPEN)
    requires LiftPhase(w, q, plan, p, r)
    requires if r.status == Released then Held(w, p.placed, end, OPEN, RELEASE_STEPS) && |end.history| > |p.placed.history|
             else end == p.placed
    requires var entry := w.sidecar(start.history);
      if entry.graspRetained then plan == HeldPlan(w, q, start) && t.reached == start
      else
        && plan == PickPlan(w, q, start)
        && (Near(plan.grasp, t.reached.status.eef) || (q.maxSegment.Some? && t.reached.status.interrupted))
    ensures HandledSafely(w, q, start, t, p, r, end)
  {
    hide Holds, OpenCloseOpen, SafeRelease, LiftPhase, Held, Near, CarriedThrough, Retained, PickPlace.Valid;
    PickedTrace(t.reached.history, p.picked.history, |start.history|);
    CarriedTrace(p.picked.history, p.placed.history, |start.history|, |t.reached.history|);
    ReleasedTrace(p.placed.history, end.history, |start.history|, |t.reached.history|);
    if r.status == Released {
      ReleasedWasCarried(w, q, plan, p, r);
      ReleasedSafely(w, q, end.history, end.status, start, plan, p, r);
    } else {
      NotReleased(w, q, end.history, |start.history|, p, r);
    }
  }

  function NoDescent(start: Moment): Descent
  {
    Descent(start, MoveResult(0.0, start.status.eef, None, 0, 0), start, None, None, None)
  }

  /** When a run is refused without a command, and with what. */
  function Refusal(privileged: bool, entry: Sidecar, q: PickPlace): Option<Result<PlaceReport, PrimitiveError>>
  {
    if !privileged then Some(Err(NotPermitted))
    else if !entry.posesKnown then Some(Ok(Ended(StateUnavailable)))
    else if entry.success then Some(Ok(Ended(AlreadySuccess)))
    else if !q.Valid() then Some(Err(BadParameter))
    else if !entry.finite then Some(Ok(Ended(InvalidPose)))
    else None
  }

  /** A whole run: the pick unless the object is held already, the carry, and the release that ends it. */
  ghost predicate PlaceRun(w: World, q: PickPlace, start: Moment, t: PickTrace, p: Phases, r: PlaceReport, end: Moment)
    requires q.Valid()
  {
    && (if w.sidecar(start.history).graspRetained then
          t.reached == p.picked == start && LiftPhase(w, q, HeldPlan(w, q, start), p, r)
        else
          && Picked(w, q, w.sidecar(start.history).manipulated, start, t, p.picked)
          && if t.failure.Some? then r == Ended(t.failure.value) && p == Phases(p.picked, p.picked, p.picked, p.picked, p.picked)
             else LiftPhase(w, q, PickPlan(w, q, start), p, r))
    && (if r.status == Released then Held(w, p.placed, end, OPEN, RELEASE_STEPS) else end == p.placed)
  }

  lemma StillHeld(w: World, start: Moment, end: Moment, gripper: real, steps: nat)
    requires start.Leads(w, end) && Holds(end.history, |start.history|, gripper) && KeepsStill(end.history, |start.history|)
    requires |end.history| - |start.history| <= steps
    requires |end.history| - |start.history| < steps ==> end.status.Terminal()
    ensures Held(w, start, end, gripper, steps)
  {
  }

  /** How an object already held is carried: from where the arm is, keeping the offset it is held at. */
  function HeldPlan(w: World, q: PickPlace, before: Moment): Plan
  {
    var entry := w.sidecar(before.history);
    Plan(entry.manipulated.z, entry.target, before.status.eef.Minus(entry.manipulated), before.status.eef)
  }

  /** How an object still to be picked is carried: from the grasp position, keeping the grasp offset. */
  function PickPlan(w: World, q: PickPlace, before: Moment): Plan
  {
    var entry := w.sidecar(before.history);
    Plan(entry.manipulated.z, entry.target, q.graspOffset, entry.manipulated.Plus(q.graspOffset))
  }

  /**
   * An object that keeps the offset it is grasped at is lifted straight up,
   * carried to the carrying height above the target and put down at the
   * placing height above it, whether it was picked or held already.
   */
  lemma CarriedToTheTarget(w: World, q: PickPlace, start: Moment, plan: Plan, lifted: Moment)
    requires plan == HeldPlan(w, q, start) || plan == PickPlan(w, q, start)
    ensures var held := w.sidecar(start.history).manipulated;
      var target := if w.sidecar(lifted.history).targetKnown then w.sidecar(lifted.history).target
                    else w.sidecar(start.history).target;
      && plan.height == held.z && plan.grasp.Minus(held) == plan.offset
      && plan.LiftTo(q).Minus(plan.offset) == held.Up(q.liftHeight)
      && plan.CarryTo(w, q, lifted).Minus(plan.offset) == target.Up(q.carryHeight)
      && plan.PlaceAt(w, q, lifted).Minus(plan.offset) == target.Up(q.targetHeight)
  {
  }

  ghost predicate Ordered(w: World, p: Phases)
  {
    p.picked.Leads(w, p.lifted) && p.lifted.Leads(w, p.cleared) && p.cleared.Leads(w, p.carried) && p.carried.Leads(w, p.placed)
  }

  /**
   * The object was grasped where planned (unless the critic interrupted the
   * segmented descent, or it was already held), and then carried through.
   */
  ghost predicate PlacedAsPlanned(w: World, q: PickPlace, before: Moment, reached: Moment, p: Phases, r: PlaceReport)
  {
    if w.sidecar(before.history).graspRetained then CarriedThrough(w, q, HeldPlan(w, q, before), p, r)
    else
      && (Near(PickPlan(w, q, before).grasp, reached.status.eef) || (q.maxSegment.Some? && reached.status.interrupted))
      && CarriedThrough(w, q, PickPlan(w, q, before), p, r)
  }

  lemma ReleasedSafely(w: World, q: PickPlace, history: seq<Command>, end: Status, before: Moment, plan: Plan, p: Phases, r: PlaceReport)
    requires before.history <= p.picked.history && Ordered(w, p) && p.placed.history <= history
    requires Held(w, p.placed, Moment(history, end), OPEN, RELEASE_STEPS) && r.status == Released
    requires plan.height == w.sidecar(before.history).manipulated.z
    requires Retained(w.sidecar(p.lifted.history), plan.height, Some(q.contactLift))
    requires Retained(w.sidecar(p.carried.history), plan.height, Some(q.contactLift))
    ensures SafeRelease(w, q, history, |before.history|, |p.placed.history|, p, r)
  {
    hide Retained;
    assert history[..|before.history|] == before.history && history[..|p.placed.history|] == p.placed.history;
  }

  lemma NotReleased(w: World, q: PickPlace, history: seq<Command>, from: nat, p: Phases, r: PlaceReport)
    requires from <= |history|
    ensures SafeRelease(w, q, history, from, |history|, p, r)
  {
  }

  lemma SweepSoFar(w: World, f: Fixture, history: seq<Command>, from: nat, n: nat, steps: nat, window: JointPlan,
                   sign: real, reversals: nat)
    requires Sweeping(w, f, history, from, n, steps, window, sign, reversals)
    ensures from + 3 * n <= |history| && reversals == Turns(w, f, history, from, n)
    ensures forall k | from <= k < |history| :: PushesAlongTangent(w, f, history, from, k)
  {
    hide Turns, PushesAlongTangent, Sign;
  }

  lemma HoldsNothing(history: seq<Command>, gripper: real)
    ensures Holds(history, |history|, gripper)
  {
  }

  lemma PushGoesOn(w: World, f: Fixture, history: seq<Command>, from: nat, tangent: Vec, sign: real)
    requires from <= |history| && Calm(w, history, from) && Holds(history, from, f.Grip())
    requires |history| > from ==> !w.after(history).Terminal()
    ensures var longer := history + [f.Push(tangent, sign)];
      && Calm(w, longer, from) && Holds(longer, from, f.Grip())
      && Responded(w, f, longer, from, |history|) == Responded(w, f, history, from, |history|)
      && Responded(w, f, longer, from, |longer|)
         == (Responded(w, f, history, from, |history|) || RespondsAt(w, f, longer, |history|))
  {
    hide Responded, RespondsAt, Calm, Fixture.Push, Fixture.Grip;
    var c := f.Push(tangent, sign);
    PushGrip(f, tangent, sign);
    RespondedOneMore(w, f, history, from, c);
    CalmThenOne(w, history, from, c);
  }

  lemma SweepEnds(w: World, f: Fixture, start: Moment, end: Moment, budget: nat, n: nat, steps: nat, window: JointPlan,
                  sign: real, x: Sweep)
    requires start.Leads(w, end) && (|end.history| > |start.history| ==> !start.status.Terminal())
    requires Sweeping(w, f, end.history, |start.history|, n, steps, window, sign, x.reversals)
    requires x.used == 3 * n + steps <= budget
    requires w.plan(end.history).Some? && x.satisfied == w.plan(end.history).value.satisfied
    requires var ended := end.status.Terminal() || x.satisfied;
      && (x.used < budget || steps == 3 ==> ended) && (steps == 0 && x.used > 0 ==> !ended)
    requires x.responded <==>
      Responded(w, f, end.history, |start.history|,
                if x.used > 0 && end.status.Terminal() then |end.history| - 1 else |end.history|)
    ensures Swept(w, f, start, end, budget, x)
  {
    hide Turns, PushesAlongTangent, Sign, Responded;
  }

  lemma RespondedLast(w: World, f: Fixture, before: seq<Command>, history: seq<Command>, current: JointPlan, after: JointPlan)
    requires before <= history && |history| == |before| + 1
    requires w.plan(before) == Some(current) && w.plan(history) == Some(after)
    ensures RespondsAt(w, f, history, |before|) == f.Responds(current, after)
  {
    hide Fixture.Responds;
    assert history[..|before|] == before && history[..|before| + 1] == history;
  }

  lemma NextTurn(w: World, f: Fixture, history: seq<Command>, from: nat, n: nat, start: JointPlan, after: JointPlan)
    requires from + 3 * (n + 1) <= |history|
    requires w.plan(history[..from + 3 * n]) == Some(start) && w.plan(history[..from + 3 * (n + 1)]) == Some(after)
    ensures var turns := Turns(w, f, history, from, n);
      && Turns(w, f, history, from, n + 1) == (if f.Diverges(start, after) && turns < 3 then turns + 1 else turns)
      && Sign(turns + 1) == -Sign(turns)
  {
    hide Fixture.Diverges;
  }

  lemma NoLegs(w: World, q: PickPlace, start: Moment, target: Vec, segments: nat, clip: real, steps: nat)
    requires clip > 0.0
    ensures Legs(w, q, start, start.history, target, segments, clip, steps, [|start.history|])
  {
  }

  lemma ReachedIsNear(waypoint: Vec, r: MoveResult)
    requires r.Reached() && r.distance2 == waypoint.Minus(r.eef).Norm2()
    ensures Near(waypoint, r.eef)
  {
  }

  lemma LegInBudget(w: World, start: Moment, history: seq<Command>, goal: Goal, clip: real, steps: nat)
    requires |start.history| <= |history| && clip > 0.0
    requires Leg(w, start, history, |start.history|, |history|, goal, clip, steps)
    ensures |history| - |start.history| <= steps
  {
  }

  lemma CalmOn(w: World, history: seq<Command>, start: Moment, middle: Moment)
    requires start.Leads(w, middle) && middle.history <= history && !middle.status.Terminal()
    requires Calm(w, middle.history, |start.history|) && Calm(w, history, |middle.history|)
    ensures Calm(w, history, |start.history|)
  {
    assert history[..|middle.history|] == middle.history;
    CalmJoins(w, history, |start.history|, |middle.history|);
  }

  lemma NothingYet(w: World, history: seq<Command>, gripper: real)
    ensures Holds(history, |history|, gripper) && KeepsStill(history, |history|) && Calm(w, history, |history|)
  {
  }

  lemma MovesJoin(w: World, start: Moment, middle: Moment, end: Moment, gripper: real)
    requires start.Leads(w, middle) && middle.Leads(w, end)
    requires Holds(middle.history, |start.history|, gripper) && Holds(end.history, |middle.history|, gripper)
    ensures start.Leads(w, end) && Holds(end.history, |start.history|, gripper)
  {
    HoldsJoin(middle.history, end.history, |start.history|, gripper);
  }

  lemma StillJoins(w: World, start: Moment, middle: Moment, end: Moment, gripper: real)
    requires start.Leads(w, middle) && middle.Leads(w, end) && (middle == start || !middle.status.Terminal())
    requires Holds(middle.history, |start.history|, gripper) && Holds(end.history, |middle.history|, gripper)
    requires KeepsStill(middle.history, |start.history|) && KeepsStill(end.history, |middle.history|)
    requires Calm(w, middle.history, |start.history|) && Calm(w, end.history, |middle.history|)
    ensures start.Leads(w, end) && Holds(end.history, |start.history|, gripper)
    ensures KeepsStill(end.history, |start.history|) && Calm(w, end.history, |start.history|)
  {
    HoldsJoin(middle.history, end.history, |start.history|, gripper);
    forall k | |start.history| <= k < |middle.history| ensures end.history[k] == middle.history[k] { }
    if middle != start {
      CalmOn(w, end.history, start, middle);
    }
  }

  lemma ClosedRetains(w: World, q: PickPlace, height: real, start: Moment, end: Moment, failure: Option<PlaceStatus>)
    requires q.Valid() && Closed(w, q, height, start, end, failure)
    ensures start.Leads(w, end) && Holds(end.history, |start.history|, CLOSE)
    ensures failure.None? ==> !end.status.Over() && Retained(w.sidecar(end.history), height, None)
  {
    hide Retained, Calm, Holds, KeepsStill;
    assert end.history[..|end.history|] == end.history;
  }

  lemma DownIsThere(w: World, q: PickPlace, start: Moment, end: Moment, target: Vec, clip: real, steps: nat, r: MoveResult, ends: seq<nat>)
    requires q.Valid() && clip > 0.0 && Moved(w, q, start, end, target, clip, steps, r, ends) && r.Reached() && !end.status.Over()
    ensures Near(target, end.status.eef) || (q.maxSegment.Some? && end.status.interrupted)
  {
    hide Moved, Near, MoveResult.Reached, MoveResult.Complete;
    ReachedIsAtTargetIff(w, q, start, end, target, clip, steps, r, ends);
  }

  lemma MovedWent(w: World, q: PickPlace, start: Moment, end: Moment, target: Vec, clip: real, steps: nat, r: MoveResult,
                  ends: seq<nat>)
    requires q.Valid() && clip > 0.0 && Moved(w, q, start, end, target, clip, steps, r, ends)
    ensures WentWithin(w, q, start, end, target, clip, steps, r) && start.Leads(w, end)
    ensures steps == q.maxStepsPerMove ==> Went(w, q, start, end, target, clip, r)
  {
    hide PickPlace.Valid, Legs, Waypoint, Calm;
  }

  lemma Stays(w: World, start: Moment)
    ensures start.Leads(w, start)
  {
  }

  lemma LeadsOn(w: World, start: Moment, middle: Moment, end: Moment)
    requires (middle == start || start.Leads(w, middle)) && middle.Leads(w, end)
    ensures start.history <= middle.history <= end.history && start.Leads(w, middle)
  {
  }

  lemma ValidSegment(q: PickPlace)
    requires q.Valid()
    ensures q.maxSegment.Some? ==> q.maxSegment.value >= 0.1
  {
  }

  lemma CalmThrough(w: World, start: Moment, middle: Moment, end: Moment)
    requires start.Leads(w, middle) && middle.Leads(w, end) && !middle.status.Terminal()
    requires Calm(w, middle.history, |start.history|) && Calm(w, end.history, |middle.history|)
    ensures start.Leads(w, end) && Calm(w, end.history, |start.history|)
    ensures |start.history| <= |middle.history| <= |end.history|
    ensures |middle.history| == |start.history| ==> middle == start
  {
    CalmOn(w, end.history, start, middle);
  }

  lemma SweptCounts(w: World, f: Fixture, start: Moment, end: Moment, budget: nat, x: Sweep)
    requires Swept(w, f, start, end, budget, x)
    ensures start.Leads(w, end) && x.used == |end.history| - |start.history| <= budget
    ensures x.reversals <= MAXIMUM_REVERSALS && 3 * x.reversals <= x.used
    ensures x.used == 0 ==> end == start
  {
  }

  /** The bounds on a joint interaction, from what it did. */
  lemma InteractedBounds(w: World, f: Fixture, maxSweepSteps: nat, closeSteps: nat, start: Moment, x: JointRun, end: Moment)
    requires Interacted(w, f, maxSweepSteps, closeSteps, start, x, end)
    ensures var used := x.direct.used + (if x.rest.Some? then x.rest.value.used else 0);
      var reversals := x.direct.reversals + (if x.rest.Some? then x.rest.value.reversals else 0);
      && x.direct.used <= 12 && used <= maxSweepSteps && reversals <= 2 * MAXIMUM_REVERSALS && 3 * reversals <= used
      && start.history <= end.history && used <= |end.history| - |start.history|
      && |end.history| - |start.history| <= used + (if x.contact.Some? then RECONTACT_STEPS + closeSteps else 0)
  {
    hide Swept, Recontacted;
    SweptCounts(w, f, start, x.swept, DirectBudget(f, maxSweepSteps), x.direct);
    if x.contact.Some? {
      RecontactCounts(w, f, closeSteps, x.swept, x.contact.value, x.contacted);
    }
    if x.rest.Some? {
      SweptCounts(w, f, x.contacted, end, maxSweepSteps - x.direct.used, x.rest.value);
    }
  }

  lemma RecontactCounts(w: World, f: Fixture, closeSteps: nat, start: Moment, p: Contact, end: Moment)
    requires Recontacted(w, f, closeSteps, start, p, end)
    ensures start.Leads(w, end) && |end.history| - |start.history| <= RECONTACT_STEPS + closeSteps
  {
    hide ServosAt, Goal.Met, Holds, KeepsStill;
  }

  lemma SeenTarget(w: World, lifted: seq<Command>, entryTarget: Vec)
    ensures PlaceTarget(w, lifted, entryTarget) == if w.sidecar(lifted).targetKnown then w.sidecar(lifted).target else entryTarget
  {
  }

  lemma HoldsJoin(middle: seq<Command>, history: seq<Command>, from: nat, gripper: real)
    requires from <= |middle| && middle <= history && Holds(middle, from, gripper) && Holds(history, |middle|, gripper)
    ensures Holds(history, from, gripper)
  {
    forall k | from <= k < |middle| ensures history[k] == middle[k] { }
  }

  lemma PickedTrace(descended: seq<Command>, history: seq<Command>, from: nat)
    requires from <= |descended| && descended <= history
    requires Holds(descended, from, OPEN) && Holds(history, |descended|, CLOSE)
    ensures OpenCloseOpen(history, from, |descended|, |history|)
  {
    forall k | from <= k < |descended| ensures history[k] == descended[k] { }
  }

  lemma CarriedTrace(picked: seq<Command>, history: seq<Command>, from: nat, closing: nat)
    requires picked <= history && OpenCloseOpen(picked, from, closing, |picked|) && Holds(history, |picked|, CLOSE)
    ensures OpenCloseOpen(history, from, closing, |history|)
  {
    forall k | from <= k < |picked| ensures history[k] == picked[k] { }
  }

  lemma ReleasedTrace(carried: seq<Command>, history: seq<Command>, from: nat, closing: nat)
    requires carried <= history && OpenCloseOpen(carried, from, closing, |carried|) && Holds(history, |carried|, OPEN)
    ensures OpenCloseOpen(history, from, closing, |carried|)
  {
    forall k | from <= k < |carried| ensures history[k] == carried[k] { }
  }
}
