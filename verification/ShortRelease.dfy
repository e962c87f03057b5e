/**
 * A concrete run of segmented pick and place that releases the object short of
 * its target.
 */
module ShortRelease {
  import opened Wrappers
  import opened LiberoPrimitives

  /** A held object 0.3 from its target; the arm gets 0.1 further with every command after the first, and the critic objects to each. */
  function ShortWorld(): World
  {
    World((h: seq<Command>) => ShortStatus(|h|), (h: seq<Command>) => None,
          (h: seq<Command>) => Sidecar(true, true, true, false, ZERO, Vec(0.3, 0.0, 0.0), true, true, None, None),
          (h: seq<Command>, x: real) => 0.0, (h: seq<Command>, x: real) => 0.0)
  }

  const ZERO := Vec(0.0, 0.0, 0.0)

  function ShortStatus(n: nat): Status
  {
    Status(if n == 0 then ZERO else if n == 1 then Vec(0.0, 0.0, 0.05) else if n == 2 then Vec(0.1, 0.0, 0.05)
           else Vec(0.2, 0.0, 0.05), n > 0, false, false)
  }

  function ShortPlan(): PickPlace
  {
    PickPlace(ZERO, 0.025, 0.055, 24, 4, 0.05, 0.05, 0.05, 48, None, 0.025, None, None, 0.02, Some(0.1), false, None, None)
  }

  lemma LeastSegments(d2: real, n: nat)
    requires n >= 1 && Reaches(n, 0.1, d2) && (n > 1 ==> !Reaches(n - 1, 0.1, d2))
    ensures SegmentCount(d2, 0.1) == n
  {
    var r := SegmentCount(d2, 0.1);
    if r < n {
      FurtherReaches(r, n - 1, 0.1, d2);
    }
  }

  lemma FurtherReaches(a: nat, b: nat, m: real, d2: real)
    requires a <= b && m > 0.0 && Reaches(a, m, d2)
    ensures Reaches(b, m, d2)
  {
    var x, y := a as real * m, b as real * m;
    assert x <= y by { ScaleKeepsWeakOrder(a as real, b as real, m); }
    assert x * x <= x * y <= y * y;
  }

  /** In that world a move to somewhere else is one command, and ends with the first waypoint. */
  lemma StopsAtFirst(q: PickPlace, start: Moment, end: Moment, target: Vec, clip: real, r: MoveResult)
    requires q.Valid() && clip > 0.0 && Went(ShortWorld(), q, start, end, target, clip, r)
    requires var first := Waypoint(start.status.eef, target, 1, Segments(q, start.status.eef, target));
      first.Minus(start.status.eef).Norm2() >= 0.012 * 0.012
    ensures r.waypoints == 1 && r.segments == Segments(q, start.status.eef, target)
    ensures end.status == ShortStatus(|start.history| + 1) && |end.history| == |start.history| + 1
    ensures r.distance2 == Waypoint(start.status.eef, target, 1, r.segments).Minus(end.status.eef).Norm2()
    ensures r.eef == end.status.eef
  {
    hide Waypoint, Segments, ServosAt, Near;
    var w := ShortWorld();
    var ends :| Moved(w, q, start, end, target, clip, q.maxStepsPerMove, r, ends);
    assert Leg(w, start, end.history, ends[0], ends[1], q.Facing(Waypoint(start.status.eef, target, 0 + 1, r.segments)), clip,
               q.maxStepsPerMove);
    assert ends[1] > |start.history|;
    assert |start.history| + 1 < |end.history| ==> !w.after(end.history[..|start.history| + 1]).Terminal();
    assert 1 < |ends| - 1 ==> !start.At(w, end.history, ends[1]).Terminal();
  }

  /** One phase of the run: `n` segments, of which the first one ends at `first`. */
  lemma ShortMove(start: Moment, end: Moment, target: Vec, n: nat, first: Vec, r: MoveResult)
    requires Went(ShortWorld(), ShortPlan(), start, end, target, 0.025, r) && start.status == ShortStatus(|start.history|)
    requires n >= 1 && Reaches(n, 0.1, target.Minus(start.status.eef).Norm2())
    requires n > 1 ==> !Reaches(n - 1, 0.1, target.Minus(start.status.eef).Norm2())
    requires first == Waypoint(start.status.eef, target, 1, n) && first.Minus(start.status.eef).Norm2() >= 0.012 * 0.012
    requires ShortStatus(|start.history| + 1).eef == first
    ensures |end.history| == |start.history| + 1 && end.status == ShortStatus(|start.history| + 1)
    ensures r.waypoints == 1 && r.segments == n && r.Reached() && r.eef == first
  {
    hide Went, SegmentCount, Waypoint, Reaches, ShortStatus, ShortWorld;
    LeastSegments(target.Minus(start.status.eef).Norm2(), n);
    StopsAtFirst(ShortPlan(), start, end, target, 0.025, r);
    assert first.Minus(first).Norm2() == 0.0;
  }

  lemma ShortLift(p: Phases, r: MoveResult)
    requires p.picked == Moment([], ShortStatus(0))
    requires Went(ShortWorld(), ShortPlan(), p.picked, p.lifted, Vec(0.0, 0.0, 0.05), 0.025, r)
    ensures |p.lifted.history| == 1 && p.lifted.status == ShortStatus(1) && r.Reached()
  {
    hide Went;
    ShortMove(p.picked, p.lifted, Vec(0.0, 0.0, 0.05), 1, Vec(0.0, 0.0, 0.05), r);
  }

  lemma ShortCarry(p: Phases, r: MoveResult)
    requires |p.cleared.history| == 1 && p.cleared.status == ShortStatus(1)
    requires Went(ShortWorld(), ShortPlan(), p.cleared, p.carried, Vec(0.3, 0.0, 0.05), 0.025, r)
    ensures |p.carried.history| == 2 && p.carried.status == ShortStatus(2) && r.Reached() && !r.Complete()
  {
    hide Went;
    ShortMove(p.cleared, p.carried, Vec(0.3, 0.0, 0.05), 3, Vec(0.1, 0.0, 0.05), r);
  }

  lemma ShortPlace(p: Phases, r: MoveResult)
    requires |p.carried.history| == 2 && p.carried.status == ShortStatus(2)
    requires Went(ShortWorld(), ShortPlan(), p.carried, p.placed, Vec(0.3, 0.0, 0.05), 0.025, r)
    ensures p.placed.status == ShortStatus(3) && r.Reached() && !r.Complete() && r.eef == Vec(0.2, 0.0, 0.05)
  {
    hide Went;
    ShortMove(p.carried, p.placed, Vec(0.3, 0.0, 0.05), 2, Vec(0.2, 0.0, 0.05), r);
  }

  lemma ShortTargets(plan: Plan, lifted: Moment)
    requires plan == HeldPlan(ShortWorld(), ShortPlan(), Moment([], ShortStatus(0)))
    ensures var w, q := ShortWorld(), ShortPlan();
      && q.Valid() && q.LiftClip() == q.TransportClip() == 0.025 && !q.verticalFirst
      && plan.LiftTo(q) == Vec(0.0, 0.0, 0.05) && plan.CarryTo(w, q, lifted) == plan.PlaceAt(w, q, lifted) == Vec(0.3, 0.0, 0.05)
  {
  }

  lemma NothingIsLost(q: PickPlace, height: real, end: Moment, r: MoveResult, n: nat, notReached: PlaceStatus, lost: PlaceStatus)
    requires end.status == ShortStatus(n) && r.Reached()
    ensures HeldFailure(ShortWorld(), q, height, end, r, notReached, lost).None? && LowerFailure(end, r).None?
  {
  }

  lemma ShortRun(p: Phases, r: PlaceReport)
    requires var before := Moment([], ShortStatus(0));
      p.picked == before && LiftPhase(ShortWorld(), ShortPlan(), HeldPlan(ShortWorld(), ShortPlan(), before), p, r)
    ensures r.status == Released && r.carry.Some? && !r.carry.value.Complete() && r.place.Some?
    ensures r.place.value.eef == Vec(0.2, 0.0, 0.05)
  {
    hide Went, HeldFailure, LowerFailure, ShortWorld, ShortPlan, ShortStatus, HeldPlan, Plan.LiftTo, Plan.CarryTo, Plan.PlaceAt,
      PickPlace.LiftClip, PickPlace.TransportClip, PickPlace.Valid, MoveResult.Reached, MoveResult.Complete;
    var w, q := ShortWorld(), ShortPlan();
    var plan := HeldPlan(w, q, p.picked);
    ShortTargets(plan, p.lifted);
    ShortLift(p, r.lift.value);
    NothingIsLost(q, plan.height, p.lifted, r.lift.value, 1, LiftNotReached, LostDuringLift);
    assert p.cleared == p.lifted;
    ShortCarry(p, r.carry.value);
    NothingIsLost(q, plan.height, p.carried, r.carry.value, 2, CarryNotReached, LostDuringCarry);
    ShortPlace(p, r.place.value);
    NothingIsLost(q, plan.height, p.placed, r.place.value, 3, CarryNotReached, LostDuringCarry);
  }

  /**
   * A concrete run: the critic interrupts at every command, so the carry and
   * the lowering each stop at their first waypoint, count as reached, and the
   * object is released 0.1 short of its target.
   */
  method ReleasesShortOfTarget() returns (r: PlaceReport)
    ensures r.status == Released && r.carry.Some? && !r.carry.value.Complete() && r.place.Some?
    ensures r.place.value.eef == Vec(0.2, 0.0, 0.05)
    ensures !AtPlace(ShortWorld().sidecar([]).target.Up(ShortPlan().targetHeight), r.place.value.eef)
  {
    hide LiftPhase, Retained, PlacedAsPlanned, SafeRelease, OpenCloseOpen;
    var arm := new Primitives(ShortWorld(), true);
    var outcome, t, p := arm.PrivilegedPickPlace(ShortPlan());
    ShortRun(p, outcome.value);
    r := outcome.value;
  }
}
