/** The dishwasher task program: progress memory of one tool epoch, and the guard on an approved action suffix. */
module SlideDishwasher {
  import opened Wrappers
  import opened PlainValues
  import opened ActionContract

  // ---- Progress ----------------------------------------------------------

  /** One observation after an action; readings are absent when missing or not finite. */
  datatype Seen = Seen(residual: Option<real>, remaining: Option<real>, contact: bool, atBoundary: bool)

  datatype Progress = Progress(
    lastResidual: Option<real>, cumulative: real, recent: seq<real>, coupled: bool, epoch: nat)

  /** A proposal, with the tool epoch it was made in. */
  datatype Advice =
    | TerminalHandoff(remaining: real, epoch: nat)
    | Stagnation(residual: real, epoch: nat)
    | PrematureDisengagement(projection: real, epoch: nat)

  const WINDOW: nat := 8
  const COUPLING_PROGRESS: real := 0.025
  const STALLED_PROGRESS: real := 0.002

  function Gain(last: Option<real>, residual: real): (g: real)
    ensures g >= 0.0 && (last.Some? ==> g >= last.value - residual)
    ensures g == 0.0 || (last.Some? && g == last.value - residual)
  {
    if last.None? || last.value - residual < 0.0 then 0.0 else last.value - residual
  }

  function LastN<T>(s: seq<T>, n: nat): (r: seq<T>)
    ensures |s| <= n ==> r == s
  {
    if |s| <= n then s else s[|s| - n..]
  }

  function Sum(xs: seq<real>): real
  {
    if xs == [] then 0.0 else Sum(xs[..|xs| - 1]) + xs[|xs| - 1]
  }

  function AfterReset(s: Progress, residual: Option<real>): Progress
  {
    Progress(residual, 0.0, [], false, s.epoch + 1)
  }

  function AfterAction(s: Progress, o: Seen): Progress
  {
    if o.residual.None? then s
    else
      var gain := Gain(s.lastResidual, o.residual.value);
      var cumulative := s.cumulative + gain;
      Progress(o.residual, cumulative, LastN(s.recent + [gain], WINDOW),
               s.coupled || (cumulative >= COUPLING_PROGRESS && o.contact), s.epoch)
  }

  /** What the program proposes at a chunk boundary. */
  function Advise(s: Progress, o: Seen): Option<Advice>
  {
    if o.residual.None? || !o.atBoundary || !s.coupled then None
    else if o.remaining.Some? && o.remaining.value <= 0.04 then Some(TerminalHandoff(o.remaining.value, s.epoch))
    else if |s.recent| >= 6 && Sum(LastN(s.recent, 6)) < 0.008 then Some(Stagnation(o.residual.value, s.epoch))
    else None
  }

  function After(s: Progress, os: seq<Seen>): Progress
  {
    if os == [] then s else AfterAction(After(s, os[..|os| - 1]), os[|os| - 1])
  }

  /** The gains of all readings so far, in order: an independent record the window and the sum are checked against. */
  function Gains(last: Option<real>, os: seq<Seen>): seq<real>
    decreases |os|
  {
    if os == [] then []
    else if os[0].residual.None? then Gains(last, os[1..])
    else [Gain(last, os[0].residual.value)] + Gains(os[0].residual, os[1..])
  }

  function LastResidual(last: Option<real>, os: seq<Seen>): Option<real>
  {
    if os == [] then last
    else if os[|os| - 1].residual.Some? then os[|os| - 1].residual
    else LastResidual(last, os[..|os| - 1])
  }

  lemma {:induction false} GainsSnoc(last: Option<real>, os: seq<Seen>)
    requires os != []
    ensures var front, o := os[..|os| - 1], os[|os| - 1];
      Gains(last, os) == Gains(last, front)
                         + (if o.residual.Some? then [Gain(LastResidual(last, front), o.residual.value)] else [])
    decreases |os|
  {
    if |os| > 1 {
      var next := if os[0].residual.Some? then os[0].residual else last;
      GainsSnoc(next, os[1..]);
      assert os[1..][..|os| - 2] == os[..|os| - 1][1..];
      LastResidualCons(last, os[..|os| - 1]);
    }
  }

  lemma {:induction false} LastResidualCons(last: Option<real>, os: seq<Seen>)
    requires os != []
    ensures LastResidual(last, os) == LastResidual(if os[0].residual.Some? then os[0].residual else last, os[1..])
  {
    if |os| > 1 && os[|os| - 1].residual.None? {
      LastResidualCons(last, os[..|os| - 1]);
      assert os[..|os| - 1][1..] == os[1..][..|os| - 2];
    }
  }

  lemma LastNSnoc<T>(xs: seq<T>, x: T, n: nat)
    requires n > 0
    ensures LastN(LastN(xs, n) + [x], n) == LastN(xs + [x], n)
  {
  }

  lemma SumSnoc(xs: seq<real>, x: real)
    ensures Sum(xs + [x]) == Sum(xs) + x
  {
    assert (xs + [x])[..|xs|] == xs;
  }

  /** Reading `i` had enough progress behind it, and contact. */
  predicate CouplesAt(s: Progress, os: seq<Seen>, i: int)
    requires 0 <= i < |os|
  {
    os[i].residual.Some? && os[i].contact && Sum(Gains(s.lastResidual, os[..i + 1])) >= 0.025
  }

  ghost predicate EverCoupled(s: Progress, os: seq<Seen>)
  {
    exists i :: 0 <= i < |os| && CouplesAt(s, os, i)
  }

  /** The state is a function of the whole trace since the reset. */
  lemma {:induction false} ProgressMeaning(s: Progress, os: seq<Seen>)
    requires s.cumulative == 0.0 && s.recent == [] && !s.coupled
    ensures var t, gains := After(s, os), Gains(s.lastResidual, os);
      && t.lastResidual == LastResidual(s.lastResidual, os)
      && t.cumulative == Sum(gains)
      && t.recent == LastN(gains, 8)
      && (t.coupled <==> EverCoupled(s, os))
      && t.epoch == s.epoch
    decreases |os|
  {
    if os != [] {
      var n := |os| - 1;
      var front, o := os[..n], os[n];
      ProgressMeaning(s, front);
      GainsSnoc(s.lastResidual, os);
      var gains := Gains(s.lastResidual, front);
      if o.residual.Some? {
        var gain := Gain(LastResidual(s.lastResidual, front), o.residual.value);
        SumSnoc(gains, gain);
        LastNSnoc(gains, gain, WINDOW);
      } else {
        assert gains + [] == gains;
      }
      assert os[..n + 1] == os;
      CouplingSnoc(s, os);
    }
  }

  lemma CouplingSnoc(s: Progress, os: seq<Seen>)
    requires os != []
    ensures EverCoupled(s, os) <==> EverCoupled(s, os[..|os| - 1]) || CouplesAt(s, os, |os| - 1)
  {
    hide CouplesAt;
    var n := |os| - 1;
    var front := os[..n];
    forall i | 0 <= i < n ensures CouplesAt(s, front, i) == CouplesAt(s, os, i) {
      SameCoupling(s, front, os, i);
    }
    if EverCoupled(s, front) {
      var i :| 0 <= i < n && CouplesAt(s, front, i);
      assert CouplesAt(s, os, i);
    }
    if EverCoupled(s, os) && !CouplesAt(s, os, n) {
      var i :| 0 <= i < |os| && CouplesAt(s, os, i);
      assert CouplesAt(s, front, i);
    }
  }

  lemma SameCoupling(s: Progress, front: seq<Seen>, os: seq<Seen>, i: nat)
    requires front <= os && i < |front|
    ensures CouplesAt(s, front, i) == CouplesAt(s, os, i)
  {
    assert front[..i + 1] == os[..i + 1];
  }

  /** What the program proposes before a command with the given projection on the success axis. */
  function Review(s: Progress, projection: real): Option<Advice>
  {
    if s.coupled && s.recent != [] && s.recent[|s.recent| - 1] <= STALLED_PROGRESS && projection <= -0.05
    then Some(PrematureDisengagement(projection, s.epoch)) else None
  }

  /** The last reading with a residual is `k`, and it gained next to nothing on the one before, if there was one. */
  ghost predicate StalledAt(s: Progress, os: seq<Seen>, k: int)
  {
    && 0 <= k < |os| && os[k].residual.Some? && (forall j | k < j < |os| :: os[j].residual.None?)
    && var before := LastResidual(s.lastResidual, os[..k]);
       before.Some? ==> before.value - os[k].residual.value <= 0.002
  }

  lemma {:induction false} LastGain(s: Progress, os: seq<Seen>)
    ensures var gains := Gains(s.lastResidual, os);
      (gains != [] && gains[|gains| - 1] <= STALLED_PROGRESS) <==> exists k :: StalledAt(s, os, k)
    decreases |os|
  {
    if os != [] {
      var n := |os| - 1;
      GainsSnoc(s.lastResidual, os);
      if os[n].residual.Some? {
        assert StalledAt(s, os, n) <==> Gain(LastResidual(s.lastResidual, os[..n]), os[n].residual.value) <= STALLED_PROGRESS;
      } else {
        LastGain(s, os[..n]);
        forall k | 0 <= k < n ensures StalledAt(s, os, k) <==> StalledAt(s, os[..n], k) {
          assert os[..n][..k] == os[..k];
        }
        if k :| StalledAt(s, os[..n], k) {
          assert StalledAt(s, os, k);
        }
      }
    }
  }

  /**
   * Over any readings since a reset, whatever went before it, a command is put
   * up for review exactly when it pulls back, the tool had coupled (at some
   * reading with contact, enough progress lay behind it), and the last reading
   * had stalled.  The proposal carries the projection and the new epoch.
   */
  lemma ReviewMeaning(s: Progress, residual: Option<real>, os: seq<Seen>, projection: real)
    ensures var start := AfterReset(s, residual); var review := Review(After(start, os), projection);
      && start.lastResidual == residual
      && (review.Some? <==> projection <= -0.05 && EverCoupled(start, os) && exists k :: StalledAt(start, os, k))
      && (review.Some? ==> review.value == PrematureDisengagement(projection, s.epoch + 1))
  {
    hide EverCoupled, StalledAt, After;
    var start := AfterReset(s, residual);
    ProgressMeaning(start, os);
    LastGain(start, os);
  }

  // ---- Advice at a chunk boundary ----------------------------------------

  /** The last reading is complete enough, ends a chunk, and the tool had coupled by then. */
  ghost predicate Advisable(s: Progress, os: seq<Seen>)
  {
    os != [] && os[|os| - 1].residual.Some? && os[|os| - 1].atBoundary && EverCoupled(s, os)
  }

  predicate NearSuccess(o: Seen)
  {
    o.remaining.Some? && o.remaining.value <= 0.04
  }

  /** There were at least six readings, and the last six moved the total by less than 8 mm. */
  predicate Stagnant(s: Progress, os: seq<Seen>)
  {
    var gains := Gains(s.lastResidual, os);
    |gains| >= 6 && Sum(gains) - Sum(gains[..|gains| - 6]) < 0.008
  }

  lemma {:induction false} SumSplits(xs: seq<real>, n: nat)
    requires n <= |xs|
    ensures Sum(xs) == Sum(xs[..n]) + Sum(xs[n..])
    decreases |xs|
  {
    if n == |xs| {
      assert xs[..n] == xs;
    } else {
      var front := xs[..|xs| - 1];
      SumSplits(front, n);
      assert front[..n] == xs[..n] && front[n..] + [xs[|xs| - 1]] == xs[n..];
      SumSnoc(front[n..], xs[|xs| - 1]);
    }
  }

  lemma LastSix(gains: seq<real>)
    requires |gains| >= 6
    ensures |LastN(gains, 8)| >= 6
    ensures Sum(LastN(LastN(gains, 8), 6)) == Sum(gains) - Sum(gains[..|gains| - 6])
  {
    SumSplits(gains, |gains| - 6);
    assert LastN(LastN(gains, 8), 6) == gains[|gains| - 6..];
  }

  /**
   * Over any readings since a reset, whatever went before it: at the end of a
   * chunk with a coupled tool, the handoff is proposed exactly when the
   * remaining distance is at most 4 cm, and stagnation exactly when it is not
   * and the last six readings made next to no progress.  Nothing else is.
   */
  lemma AdviceMeaning(s: Progress, residual: Option<real>, os: seq<Seen>)
    requires os != []
    ensures var start := AfterReset(s, residual); var o := os[|os| - 1]; var advice := Advise(After(start, os), o);
      && start.lastResidual == residual
      && (advice.Some? <==> Advisable(start, os) && (NearSuccess(o) || Stagnant(start, os)))
      && (advice.Some? ==>
            advice.value == if NearSuccess(o) then TerminalHandoff(o.remaining.value, s.epoch + 1)
                            else Stagnation(o.residual.value, s.epoch + 1))
  {
    hide EverCoupled, After, Gains, Sum, LastN;
    var start := AfterReset(s, residual);
    ProgressMeaning(start, os);
    var gains := Gains(start.lastResidual, os);
    if |gains| >= 6 {
      LastSix(gains);
    } else {
      assert LastN(gains, 8) == gains;
    }
  }

  /** Cumulative progress never falls, covers at least the net drop of the residual, and coupling is sticky. */
  lemma {:induction false} ProgressIsMonotone(s: Progress, os: seq<Seen>)
    ensures var t := After(s, os);
      && t.cumulative >= s.cumulative
      && (s.coupled ==> t.coupled)
      && (s.lastResidual.Some? ==>
            t.lastResidual.Some? && t.cumulative - s.cumulative >= s.lastResidual.value - t.lastResidual.value)
    decreases |os|
  {
    if os != [] {
      ProgressIsMonotone(s, os[..|os| - 1]);
    }
  }

  // ---- Projection on the success axis ------------------------------------

  predicate Unit(axis: seq<real>)
  {
    |axis| == 3 && Dot(axis, axis) == 1.0
  }

  function Dot(a: seq<real>, b: seq<real>): real
    requires |a| == 3 && |b| == 3
  {
    a[0] * b[0] + a[1] * b[1] + a[2] * b[2]
  }

  function Shifted(p: seq<real>, axis: seq<real>, amount: real): (r: seq<real>)
    requires |p| == 3 && |axis| == 3
    ensures |r| == 3
  {
    [p[0] + amount * axis[0], p[1] + amount * axis[1], p[2] + amount * axis[2]]
  }

  function Clipped(p: seq<real>): (r: seq<real>)
    requires |p| == 3
    ensures Within(r, 3, -1.0, 1.0)
  {
    [Clip(p[0], -1.0, 1.0), Clip(p[1], -1.0, 1.0), Clip(p[2], -1.0, 1.0)]
  }

  /** Only a translation whose projection is below the minimum is changed, and only along the axis. */
  function Guard(a: Action, axis: seq<real>, minimum: real): (r: Action)
    requires InBounds(a) && |axis| == 3
    ensures InBounds(r)
  {
    var projection := Dot(a.position, axis);
    if projection < minimum then a.(position := Clipped(Shifted(a.position, axis, minimum - projection))) else a
  }

  lemma ClipKeepsSign(p: real, a: real, c: real, x: real, q: real)
    requires -1.0 <= p <= 1.0 && c >= 0.0 && x == p + c * a && q == Clip(x, -1.0, 1.0)
    ensures q * a >= p * a
  {
    var d := q - p;
    if a >= 0.0 {
      assert c * a >= 0.0;
      assert d >= 0.0;
    } else {
      assert c * a <= 0.0;
      assert d <= 0.0;
    }
    assert d * a >= 0.0;
  }

  /** A clip that bites costs projection. */
  lemma ClipLoses(p: real, a: real, c: real, x: real, q: real)
    requires -1.0 <= p <= 1.0 && c >= 0.0 && x == p + c * a && q == Clip(x, -1.0, 1.0)
    ensures x * a >= q * a && (x != q ==> x * a > q * a)
  {
    if a > 0.0 {
      assert c * a >= 0.0;
      assert (x - q) * a >= 0.0 && (x != q ==> (x - q) * a > 0.0);
    } else if a < 0.0 {
      assert c * a <= 0.0;
      assert (x - q) * a >= 0.0 && (x != q ==> (x - q) * a > 0.0);
    } else {
      assert c * a == 0.0;
    }
  }

  lemma ShiftReaches(p: seq<real>, axis: seq<real>, c: real)
    requires |p| == 3 && Unit(axis)
    ensures Dot(Shifted(p, axis, c), axis) == Dot(p, axis) + c
  {
    assert (p[0] + c * axis[0]) * axis[0] == p[0] * axis[0] + c * (axis[0] * axis[0]);
    assert (p[1] + c * axis[1]) * axis[1] == p[1] * axis[1] + c * (axis[1] * axis[1]);
    assert (p[2] + c * axis[2]) * axis[2] == p[2] * axis[2] + c * (axis[2] * axis[2]);
    assert c * (axis[0] * axis[0]) + c * (axis[1] * axis[1]) + c * (axis[2] * axis[2]) == c * Dot(axis, axis);
  }

  /**
   * The guard keeps every other component and the bounds, leaves a sufficient
   * projection alone, never lowers one, and raises an insufficient one at most
   * to the minimum, and to exactly the minimum if and only if no clip bites.
   */
  lemma GuardRaisesProjection(a: Action, axis: seq<real>, minimum: real)
    requires InBounds(a) && Unit(axis)
    ensures var r, p := Guard(a, axis, minimum), Dot(a.position, axis);
      && r == a.(position := r.position) && InBounds(r)
      && (p >= minimum ==> r == a)
      && Dot(r.position, axis) >= p
      && (p < minimum ==>
            && Dot(r.position, axis) <= minimum
            && (Dot(r.position, axis) == minimum <==> Within(Shifted(a.position, axis, minimum - p), 3, -1.0, 1.0))
            && (Within(Shifted(a.position, axis, minimum - p), 3, -1.0, 1.0) ==>
                  r.position == Shifted(a.position, axis, minimum - p)))
  {
    var p := Dot(a.position, axis);
    if p < minimum {
      ShiftReaches(a.position, axis, minimum - p);
      ClippedShiftAdvances(a.position, axis, minimum - p);
      ClippedShiftFallsShort(a.position, axis, minimum - p);
    }
  }

  lemma ClippedShiftAdvances(p: seq<real>, axis: seq<real>, c: real)
    requires Within(p, 3, -1.0, 1.0) && |axis| == 3 && c >= 0.0
    ensures Dot(Clipped(Shifted(p, axis, c)), axis) >= Dot(p, axis)
  {
    hide Dot, Clipped, Shifted;
    var q := Clipped(Shifted(p, axis, c));
    ClippedAt(p, axis, c, 0);
    ClippedAt(p, axis, c, 1);
    ClippedAt(p, axis, c, 2);
    DotCompares(q, p, axis);
  }

  lemma ClippedShiftFallsShort(p: seq<real>, axis: seq<real>, c: real)
    requires Within(p, 3, -1.0, 1.0) && |axis| == 3 && c >= 0.0
    ensures var s := Shifted(p, axis, c);
      && Dot(s, axis) >= Dot(Clipped(s), axis)
      && (Dot(s, axis) == Dot(Clipped(s), axis) <==> Clipped(s) == s)
  {
    hide Dot, Clipped, Shifted;
    var s := Shifted(p, axis, c);
    FallsShortAt(p, axis, c, 0);
    FallsShortAt(p, axis, c, 1);
    FallsShortAt(p, axis, c, 2);
    DotCompares(s, Clipped(s), axis);
    assert Clipped(s) != s ==> Clipped(s)[0] != s[0] || Clipped(s)[1] != s[1] || Clipped(s)[2] != s[2];
  }

  lemma FallsShortAt(p: seq<real>, axis: seq<real>, c: real, i: nat)
    requires Within(p, 3, -1.0, 1.0) && |axis| == 3 && c >= 0.0 && i < 3
    ensures var s := Shifted(p, axis, c);
      s[i] * axis[i] >= Clipped(s)[i] * axis[i] && (s[i] != Clipped(s)[i] ==> s[i] * axis[i] > Clipped(s)[i] * axis[i])
  {
    hide Clip;
    var s := Shifted(p, axis, c);
    assert s[i] == p[i] + c * axis[i];
    assert Clipped(s)[i] == Clip(s[i], -1.0, 1.0);
    ClipLoses(p[i], axis[i], c, s[i], Clipped(s)[i]);
  }

  lemma ClippedAt(p: seq<real>, axis: seq<real>, c: real, i: nat)
    requires Within(p, 3, -1.0, 1.0) && |axis| == 3 && c >= 0.0 && i < 3
    ensures Clipped(Shifted(p, axis, c))[i] * axis[i] >= p[i] * axis[i]
  {
    hide Clip;
    var s := Shifted(p, axis, c);
    assert s[i] == p[i] + c * axis[i];
    assert Clipped(s)[i] == Clip(s[i], -1.0, 1.0);
    ClipKeepsSign(p[i], axis[i], c, s[i], Clipped(s)[i]);
  }

  lemma DotCompares(q: seq<real>, p: seq<real>, axis: seq<real>)
    requires |q| == 3 && |p| == 3 && |axis| == 3
    requires q[0] * axis[0] >= p[0] * axis[0] && q[1] * axis[1] >= p[1] * axis[1] && q[2] * axis[2] >= p[2] * axis[2]
    ensures Dot(q, axis) >= Dot(p, axis)
    ensures q[0] * axis[0] > p[0] * axis[0] || q[1] * axis[1] > p[1] * axis[1] || q[2] * axis[2] > p[2] * axis[2]
            ==> Dot(q, axis) > Dot(p, axis)
  {
    assert Dot(q, axis) - Dot(p, axis)
           == (q[0] * axis[0] - p[0] * axis[0]) + (q[1] * axis[1] - p[1] * axis[1]) + (q[2] * axis[2] - p[2] * axis[2]);
  }

  /** The success direction as read: absent when missing or not finite. */
  datatype Direction = Direction(reading: Option<seq<real>>, norm: real)
  {
    /** `norm` is the length of the reading; square roots are not computed here. */
    predicate Measured()
    {
      norm >= 0.0 && (reading.Some? && |reading.value| == 3 ==> norm * norm == Dot(reading.value, reading.value))
    }

    predicate Usable()
    {
      reading.Some? && |reading.value| == 3 && norm >= 0.000000001
    }

    function Axis(): (axis: seq<real>)
      requires Usable()
      ensures |axis| == 3
    {
      [reading.value[0] / norm, reading.value[1] / norm, reading.value[2] / norm]
    }
  }

  /** The normalized direction has length one, and points along the reading. */
  lemma AxisIsUnit(d: Direction)
    requires d.Measured() && d.Usable()
    ensures Unit(d.Axis()) && forall i | 0 <= i < 3 :: d.Axis()[i] * d.norm == d.reading.value[i]
  {
    var v, n := d.reading.value, d.norm;
    var axis := d.Axis();
    Quotient(v[0], n);
    Quotient(v[1], n);
    Quotient(v[2], n);
    Square(n);
    UnitLength(axis[0], axis[1], axis[2], v[0], v[1], v[2], n, n * n);
  }

  lemma Quotient(x: real, n: real)
    requires n > 0.0
    ensures x / n * n == x
  {
  }

  lemma Square(n: real)
    requires n > 0.0
    ensures n * n > 0.0
  {
  }

  lemma UnitLength(a: real, b: real, c: real, x: real, y: real, z: real, n: real, q: real)
    requires a * n == x && b * n == y && c * n == z && q == n * n && q > 0.0
    requires q == x * x + y * y + z * z
    ensures a * a + b * b + c * c == 1.0
  {
    var xx, yy, zz := x * x, y * y, z * z;
    ScaledSquare(a, n, x, q, xx);
    ScaledSquare(b, n, y, q, yy);
    ScaledSquare(c, n, z, q, zz);
    Cancel(a * a, b * b, c * c, xx, yy, zz, q);
  }

  lemma ScaledSquare(a: real, n: real, x: real, q: real, xx: real)
    requires a * n == x && q == n * n && xx == x * x
    ensures (a * a) * q == xx
  {
    assert (a * a) * (n * n) == (a * n) * (a * n);
  }

  lemma Cancel(a: real, b: real, c: real, aq: real, bq: real, cq: real, q: real)
    requires a * q == aq && b * q == bq && c * q == cq && aq + bq + cq == q > 0.0
    ensures a + b + c == 1.0
  {
    var s := a + b + c;
    assert s * q == a * q + b * q + c * q;
    OneFactor(s, q, s * q);
  }

  lemma OneFactor(s: real, q: real, sq: real)
    requires sq == s * q && sq == q > 0.0
    ensures s == 1.0
  {
    assert sq / q == s;
  }

  datatype GuardError = NoPendingAction | NoAxis | BadAction

  /** Guard a whole approved suffix; the result is in stable serialized form. */
  method GuardTerminalSuffix(actions: seq<Value>, direction: Direction, minimum: real)
    returns (r: Result<seq<Value>, GuardError>)
    requires direction.Measured()
    ensures r.Ok? <==>
      actions != [] && direction.Usable() && forall i | 0 <= i < |actions| :: CanonicalAction(actions[i], UNIT_SCALE).Some?
    ensures r.Ok? ==>
      && |r.value| == |actions|
      && forall i | 0 <= i < |actions| ::
           var a := CanonicalAction(actions[i], UNIT_SCALE).value;
           && SerializableAction(r.value[i]) == Some(r.value[i])
           && CanonicalAction(r.value[i], UNIT_SCALE) == Some(Guard(a, direction.Axis(), minimum))
  {
    hide CanonicalAction, Guard, Serialize, SerializableAction;
    if actions == [] {
      return Err(NoPendingAction);
    }
    if !direction.Usable() {
      return Err(NoAxis);
    }
    var axis := direction.Axis();
    var transformed: seq<Value> := [];
    for i := 0 to |actions|
      invariant |transformed| == i
      invariant forall k | 0 <= k < i :: CanonicalAction(actions[k], UNIT_SCALE).Some?
      invariant forall k | 0 <= k < i ::
        var a := CanonicalAction(actions[k], UNIT_SCALE).value;
        && SerializableAction(transformed[k]) == Some(transformed[k])
        && CanonicalAction(transformed[k], UNIT_SCALE) == Some(Guard(a, axis, minimum))
    {
      var action := CanonicalAction(actions[i], UNIT_SCALE);
      if action.None? {
        return Err(BadAction);
      }
      var guarded := Guard(action.value, axis, minimum);
      CanonicalOfSerialized(guarded);
      transformed := transformed + [Serialize(guarded)];
    }
    return Ok(transformed);
  }

  /** The program memory of one episode. */
  class SlideDishwasherProgramState {
    var lastResidual: Option<real>
    var cumulative: real
    var recent: seq<real>
    var coupled: bool
    var epoch: nat

    function State(): Progress
      reads this
    {
      Progress(lastResidual, cumulative, recent, coupled, epoch)
    }

    constructor ()
      ensures State() == Progress(None, 0.0, [], false, 0)
    {
      lastResidual, cumulative, recent, coupled, epoch := None, 0.0, [], false, 0;
    }

    method Reset(residual: Option<real>)
      modifies this
      ensures State() == AfterReset(old(State()), residual)
    {
      lastResidual, cumulative, recent, coupled := residual, 0.0, [], false;
      epoch := epoch + 1;
    }

    /** Before a command: only a coupled, stalled tool about to pull back is proposed for review. */
    method BeforeAction(a: Action, axis: seq<real>) returns (r: Option<Advice>)
      requires InBounds(a) && |axis| == 3
      ensures r == Review(State(), Dot(a.position, axis))
    {
      var projection := Dot(a.position, axis);
      var collapsed := recent != [] && recent[|recent| - 1] <= STALLED_PROGRESS;
      if coupled && collapsed && projection <= -0.05 {
        return Some(PrematureDisengagement(projection, epoch));
      }
      return None;
    }

    method AfterActionObserved(o: Seen) returns (r: Option<Advice>)
      modifies this
      ensures State() == AfterAction(old(State()), o) && r == Advise(State(), o)
    {
      hide Sum, LastN, Gain;
      if o.residual.None? {
        return None;
      }
      var gain := Gain(lastResidual, o.residual.value);
      lastResidual := o.residual;
      cumulative := cumulative + gain;
      recent := LastN(recent + [gain], WINDOW);
      if cumulative >= COUPLING_PROGRESS && o.contact {
        coupled := true;
      }
      if !o.atBoundary {
        return None;
      }
      if coupled && o.remaining.Some? && o.remaining.value <= 0.04 {
        return Some(TerminalHandoff(o.remaining.value, epoch));
      }
      if coupled && |recent| >= 6 && Sum(LastN(recent, 6)) < 0.008 {
        return Some(Stagnation(o.residual.value, epoch));
      }
      return None;
    }
  }
}
