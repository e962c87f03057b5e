/** What the critic's history features mean over a whole episode, and the body-tree walk of the contact sensor. */
module CriticHistory {
  import opened Wrappers

  /** One semantic reading; `grasp` is absent when the sensor has no grasp feature. */
  datatype Reading = Reading(grasp: Option<bool>, success: bool, distance: Option<real>)

  datatype History = History(grasped: bool, everGrasped: bool, everReleased: bool, distance: Option<real>)

  const EMPTY := History(false, false, false, None)

  datatype Features = Features(
    everGrasped: bool, retained: bool, releasedNow: bool, everReleased: bool, stage: nat, progress: Option<real>)

  /** Enrich one reading: the features it gets (none without a grasp feature) and the history after it. */
  function Enrich(r: Reading, h: History): (Option<Features>, History)
  {
    if r.grasp.None? then (None, h)
    else
      var grasped := r.grasp.value;
      var everGrasped := h.everGrasped || grasped;
      var releasedNow := h.grasped && !grasped;
      var everReleased := h.everReleased || releasedNow;
      var stage := if r.success then 3 else if everReleased then 2 else if grasped then 1 else 0;
      var progress := if r.distance.Some? && h.distance.Some? then Some(-(r.distance.value - h.distance.value)) else None;
      (Some(Features(everGrasped, everGrasped && grasped, releasedNow, everReleased, stage, progress)),
       History(grasped, everGrasped, everReleased, if r.distance.Some? then r.distance else h.distance))
  }

  function After(rs: seq<Reading>): History
  {
    if rs == [] then EMPTY else Enrich(rs[|rs| - 1], After(rs[..|rs| - 1])).1
  }

  /** The features of reading `i` in an episode. */
  function FeaturesAt(rs: seq<Reading>, i: nat): Option<Features>
    requires i < |rs|
  {
    Enrich(rs[i], After(rs[..i])).0
  }

  // ---- Meaning of the flags ----------------------------------------------

  predicate GraspedAt(rs: seq<Reading>, j: int)
    requires 0 <= j < |rs|
  {
    rs[j].grasp == Some(true)
  }

  predicate FreeAt(rs: seq<Reading>, k: int)
    requires 0 <= k < |rs|
  {
    rs[k].grasp == Some(false)
  }

  ghost predicate EverGrasped(rs: seq<Reading>)
  {
    exists j :: 0 <= j < |rs| && GraspedAt(rs, j)
  }

  /** Grasped at some reading and not at a later one. */
  ghost predicate EverReleased(rs: seq<Reading>)
  {
    exists j, k :: 0 <= j < k < |rs| && GraspedAt(rs, j) && FreeAt(rs, k)
  }

  /** The last reading that had a grasp feature was a grasp. */
  ghost predicate LastGrasped(rs: seq<Reading>)
  {
    exists j :: 0 <= j < |rs| && GraspedAt(rs, j) && forall k | j < k < |rs| :: rs[k].grasp.None?
  }

  /** How the three meanings of a trace relate to those of the trace without its last reading. */
  lemma GrowMeaning(rs: seq<Reading>)
    requires rs != []
    ensures var front := rs[..|rs| - 1];
      && (EverGrasped(front) ==> EverGrasped(rs)) && (EverReleased(front) ==> EverReleased(rs))
      && (EverGrasped(rs) ==> EverGrasped(front) || GraspedAt(rs, |rs| - 1))
      && (rs[|rs| - 1].grasp.None? ==> (LastGrasped(rs) <==> LastGrasped(front)))
      && (EverReleased(rs) ==> EverReleased(front) || (FreeAt(rs, |rs| - 1) && EverGrasped(front)))
  {
    var n := |rs| - 1;
    var front := rs[..n];
    assert forall j | 0 <= j < n :: GraspedAt(rs, j) == GraspedAt(front, j) && FreeAt(rs, j) == FreeAt(front, j);
    if EverGrasped(front) {
      var j :| 0 <= j < n && GraspedAt(front, j);
      assert GraspedAt(rs, j);
    }
    if EverReleased(front) {
      var j, k :| 0 <= j < k < n && GraspedAt(front, j) && FreeAt(front, k);
      assert GraspedAt(rs, j) && FreeAt(rs, k);
    }
    if rs[n].grasp.None? && LastGrasped(front) {
      var j :| 0 <= j < n && GraspedAt(front, j) && forall k | j < k < n :: front[k].grasp.None?;
      assert GraspedAt(rs, j) && forall k | j < k < |rs| :: rs[k].grasp.None?;
    }
    if rs[n].grasp.None? && LastGrasped(rs) {
      var j :| 0 <= j < |rs| && GraspedAt(rs, j) && forall k | j < k < |rs| :: rs[k].grasp.None?;
      assert GraspedAt(front, j) && forall k | j < k < n :: front[k].grasp.None?;
    }
  }

  lemma GraspedLast(rs: seq<Reading>)
    requires rs != []
    ensures GraspedAt(rs, |rs| - 1) ==> LastGrasped(rs)
  {
  }

  /** When something was grasped but the last graspable reading was not a grasp, it was released. */
  lemma {:induction false} GraspedThenNot(rs: seq<Reading>)
    requires EverGrasped(rs) && !LastGrasped(rs)
    ensures EverReleased(rs)
  {
    var n := |rs| - 1;
    var front := rs[..n];
    GrowMeaning(rs);
    assert forall j | 0 <= j < n :: GraspedAt(rs, j) == GraspedAt(front, j) && FreeAt(rs, j) == FreeAt(front, j);
    GraspedLast(rs);
    match rs[n].grasp
    case None => GraspedThenNot(front);
    case Some(grasped) =>
      if !grasped {
        var j :| 0 <= j < |rs| && GraspedAt(rs, j);
        assert FreeAt(rs, n) && j < n;
      }
  }

  /** The history holds exactly what happened. */
  lemma {:induction false} HistoryMeaning(rs: seq<Reading>)
    ensures var h := After(rs);
      && (h.everGrasped <==> EverGrasped(rs)) && (h.everReleased <==> EverReleased(rs))
      && (h.grasped <==> LastGrasped(rs))
  {
    if rs != [] {
      var n := |rs| - 1;
      var front := rs[..n];
      HistoryMeaning(front);
      GrowMeaning(rs);
      if rs[n].grasp == Some(true) {
        assert GraspedAt(rs, n);
      } else if rs[n].grasp == Some(false) {
        assert FreeAt(rs, n) && !LastGrasped(rs);
        if LastGrasped(front) {
          var j :| 0 <= j < n && GraspedAt(front, j) && forall k | j < k < n :: front[k].grasp.None?;
          assert GraspedAt(rs, j);
        } else if EverGrasped(front) {
          GraspedThenNot(front);
        }
      }
    }
  }

  /**
   * A reading has features exactly when it has a grasp feature, and they are
   * the facts of the trace up to it: the flags, the stage (success, else
   * released, else grasped, else none) and the progress since the last
   * reading with a distance.
   */
  lemma FeaturesMeanTheTrace(rs: seq<Reading>, i: nat)
    requires i < |rs|
    ensures FeaturesAt(rs, i).Some? <==> rs[i].grasp.Some?
    ensures rs[i].grasp.Some? ==>
      var f, seen, last := FeaturesAt(rs, i).value, rs[..i + 1], LastDistance(rs[..i]);
      && (f.everGrasped <==> EverGrasped(seen))
      && (f.retained <==> GraspedAt(rs, i))
      && (f.everReleased <==> EverReleased(seen))
      && (f.releasedNow <==> FreeAt(rs, i) && LastGrasped(rs[..i]))
      && f.stage <= 3
      && (f.stage == 3 <==> rs[i].success)
      && (f.stage == 2 <==> !rs[i].success && EverReleased(seen))
      && (f.stage == 1 <==> !rs[i].success && !EverReleased(seen) && GraspedAt(rs, i))
      && (f.progress.Some? <==> rs[i].distance.Some? && last.Some?)
      && (f.progress.Some? ==> f.progress.value == last.value - rs[i].distance.value)
  {
    hide EverGrasped, EverReleased, LastGrasped, LastDistance, FirstDistance, TotalProgress;
    HistoryMeaning(rs[..i + 1]);
    HistoryMeaning(rs[..i]);
    ProgressTelescopes(rs[..i]);
    assert rs[..i + 1][..i] == rs[..i];
  }

  lemma {:induction false} HistoryGrows(rs: seq<Reading>, i: nat)
    requires i <= |rs|
    ensures After(rs[..i]).everReleased ==> After(rs).everReleased
    ensures After(rs[..i]).grasped ==> After(rs).grasped || After(rs).everReleased
    decreases |rs| - i
  {
    if i == |rs| {
      assert rs[..i] == rs;
    } else {
      HistoryGrows(rs, i + 1);
      assert rs[..i + 1][..i] == rs[..i];
    }
  }

  /** The stage never falls, except from the success stage. */
  lemma StageIsMonotone(rs: seq<Reading>, i: nat, j: nat)
    requires i < j < |rs| && rs[i].grasp.Some? && rs[j].grasp.Some? && !rs[i].success
    ensures FeaturesAt(rs, i).value.stage <= FeaturesAt(rs, j).value.stage <= 3
  {
    assert rs[..i + 1][..i] == rs[..i];
    assert rs[..j][..i + 1] == rs[..i + 1];
    HistoryGrows(rs[..j], i + 1);
  }

  /** The history record of one episode, updated in place by every reading. */
  class EpisodeHistory {
    var grasped: bool
    var everGrasped: bool
    var everReleased: bool
    var distance: Option<real>

    function State(): History
      reads this
    {
      History(grasped, everGrasped, everReleased, distance)
    }

    constructor ()
      ensures State() == EMPTY
    {
      grasped, everGrasped, everReleased, distance := false, false, false, None;
    }

    method Observe(r: Reading) returns (f: Option<Features>)
      modifies this
      ensures (f, State()) == Enrich(r, old(State()))
    {
      if r.grasp.None? {
        return None;
      }
      var now := r.grasp.value;
      everGrasped := everGrasped || now;
      var releasedNow := grasped && !now;
      everReleased := everReleased || releasedNow;
      var stage := 0;
      if r.success {
        stage := 3;
      } else if everReleased {
        stage := 2;
      } else if now {
        stage := 1;
      }
      var progress := None;
      if r.distance.Some? {
        if distance.Some? {
          progress := Some(-(r.distance.value - distance.value));
        }
        distance := r.distance;
      }
      grasped := now;
      return Some(Features(everGrasped, everGrasped && now, releasedNow, everReleased, stage, progress));
    }
  }

  // ---- Progress telescopes -----------------------------------------------

  /** Everything reported as target progress so far. */
  function TotalProgress(rs: seq<Reading>): real
  {
    if rs == [] then 0.0
    else
      var f := FeaturesAt(rs, |rs| - 1);
      TotalProgress(rs[..|rs| - 1]) + (if f.Some? && f.value.progress.Some? then f.value.progress.value else 0.0)
  }

  /** The first and the last distance seen together with a grasp feature. */
  function FirstDistance(rs: seq<Reading>): Option<real>
  {
    if rs == [] then None
    else if rs[0].grasp.Some? && rs[0].distance.Some? then rs[0].distance
    else FirstDistance(rs[1..])
  }

  function LastDistance(rs: seq<Reading>): Option<real>
  {
    if rs == [] then None
    else
      var last := rs[|rs| - 1];
      if last.grasp.Some? && last.distance.Some? then last.distance else LastDistance(rs[..|rs| - 1])
  }

  lemma {:induction false} FirstDistanceAppend(rs: seq<Reading>)
    requires rs != []
    ensures var front, last := rs[..|rs| - 1], rs[|rs| - 1];
      FirstDistance(rs) == if FirstDistance(front).Some? then FirstDistance(front)
                           else if last.grasp.Some? && last.distance.Some? then last.distance else None
  {
    if |rs| > 1 {
      FirstDistanceAppend(rs[1..]);
      assert rs[1..][..|rs| - 2] == rs[..|rs| - 1][1..];
    }
  }

  /** Reported progress telescopes to the first distance minus the last, whatever gaps the readings have. */
  lemma {:induction false} ProgressTelescopes(rs: seq<Reading>)
    ensures After(rs).distance == LastDistance(rs) && (FirstDistance(rs).Some? <==> LastDistance(rs).Some?)
    ensures TotalProgress(rs) == if FirstDistance(rs).Some? then FirstDistance(rs).value - LastDistance(rs).value else 0.0
  {
    if rs != [] {
      ProgressTelescopes(rs[..|rs| - 1]);
      FirstDistanceAppend(rs);
    }
  }

  // ---- Body tree ---------------------------------------------------------

  /** The body reached from `body` by `n` steps to the parent; negative once the walk leaves the tree. */
  function Up(parents: seq<int>, body: int, n: nat): int
  {
    if n == 0 then body
    else
      var b := Up(parents, body, n - 1);
      if 0 <= b < |parents| then parents[b] else b
  }

  ghost predicate Descends(parents: seq<int>, body: int, ancestor: int)
  {
    ancestor >= 0 && exists n: nat :: Up(parents, body, n) == ancestor
  }

  lemma {:induction false} UpShift(parents: seq<int>, body: int, n: nat)
    ensures Up(parents, body, n + 1) == Up(parents, Up(parents, body, 1), n)
  {
    if n > 0 {
      UpShift(parents, body, n - 1);
    }
  }

  lemma {:induction false} UpSum(parents: seq<int>, body: int, a: nat, b: nat)
    ensures Up(parents, body, a + b) == Up(parents, Up(parents, body, a), b)
  {
    if b > 0 {
      UpSum(parents, body, a, b - 1);
    }
  }

  /** A walk that came back to an earlier body meets no new one. */
  lemma {:induction false} WalkRepeats(parents: seq<int>, body: int, n: nat, j: nat, m: nat) returns (k: nat)
    requires j < n && Up(parents, body, n) == Up(parents, body, j)
    ensures k < n && Up(parents, body, m) == Up(parents, body, k)
    decreases m
  {
    if m < n {
      k := m;
    } else {
      UpSum(parents, body, n, m - n);
      UpSum(parents, body, j, m - n);
      k := WalkRepeats(parents, body, n, j, m - n + j);
    }
  }

  lemma {:induction false} WalkStays(parents: seq<int>, body: int, n: nat, m: nat)
    requires n <= m && Up(parents, body, n + 1) == Up(parents, body, n)
    ensures Up(parents, body, m) == Up(parents, body, n)
    decreases m
  {
    if m > n {
      WalkStays(parents, body, n, m - 1);
    }
  }

  /** A walk that stays, or repeats itself, meets only the bodies it has met. */
  lemma MeetsNoMore(parents: seq<int>, body: int, n: nat, m: nat) returns (k: nat)
    requires || Up(parents, body, n + 1) == Up(parents, body, n)
             || exists j: nat :: j < n && Up(parents, body, j) == Up(parents, body, n)
    ensures k <= n && Up(parents, body, m) == Up(parents, body, k)
  {
    hide Up;
    if m <= n {
      k := m;
    } else if Up(parents, body, n + 1) == Up(parents, body, n) {
      WalkStays(parents, body, n, m);
      k := n;
    } else {
      var j: nat :| j < n && Up(parents, body, j) == Up(parents, body, n);
      k := WalkRepeats(parents, body, n, j, m);
    }
  }

  function BodiesBelow(n: nat): (r: set<int>)
    ensures forall b :: b in r <==> 0 <= b < n
  {
    if n == 0 then {} else BodiesBelow(n - 1) + {n - 1}
  }

  /** The walk reaches a body the parent table does not list. */
  ghost predicate Leaves(parents: seq<int>, body: int)
  {
    exists n: nat :: Up(parents, body, n) >= |parents|
  }

  /**
   * Whether `body` is `ancestor` or below it: walk up until the root, a
   * missing parent or a repeated body.  Without a parent table only a body
   * itself counts; a walk off the table raises an index error (`None`).
   */
  method DescendsFrom(table: Option<seq<int>>, body: int, ancestor: int) returns (r: Option<bool>)
    ensures table.None? ==> r == Some(body == ancestor)
    ensures table.Some? ==>
      && (r == Some(true) <==> Descends(table.value, body, ancestor))
      && (r.None? <==> !Descends(table.value, body, ancestor) && Leaves(table.value, body))
  {
    if table.None? {
      return Some(body == ancestor);
    }
    var parents := table.value;
    var current: int, seen: set<int> := body, {};
    ghost var walk: seq<int> := [];
    while current >= 0 && current !in seen
      invariant current == Up(parents, body, |walk|)
      invariant forall k: nat | k < |walk| :: walk[k] == Up(parents, body, k) < |parents|
      invariant forall b :: b in seen <==> b in walk
      invariant ancestor !in walk && seen <= BodiesBelow(|parents|)
      decreases BodiesBelow(|parents|) - seen
    {
      hide BodiesBelow, Leaves, Descends;
      if current == ancestor {
        FoundAt(parents, body, ancestor, |walk|);
        return Some(true);
      }
      if current >= |parents| {
        assert Up(parents, body, |walk| + 1) == current;
        Missed(parents, body, ancestor, walk, current);
        return None;
      }
      var parent := parents[current];
      assert Up(parents, body, |walk| + 1) == parent;
      if parent == current {
        Missed(parents, body, ancestor, walk, current);
        return Some(false);
      }
      seen := seen + {current};
      walk := walk + [current];
      current := parent;
    }
    if current >= 0 {
      ghost var j: nat :| j < |walk| && walk[j] == current;
      assert Up(parents, body, j) == Up(parents, body, |walk|);
    } else {
      assert Up(parents, body, |walk| + 1) == current;
    }
    Missed(parents, body, ancestor, walk, current);
    return Some(false);
  }

  lemma FoundAt(parents: seq<int>, body: int, ancestor: int, n: nat)
    requires ancestor >= 0 && Up(parents, body, n) == ancestor
    ensures Descends(parents, body, ancestor)
  {
  }

  /** A finished walk that did not meet the ancestor never does, and leaves the table only where it ended. */
  lemma Missed(parents: seq<int>, body: int, ancestor: int, walk: seq<int>, current: int)
    requires current == Up(parents, body, |walk|) && (current != ancestor || current < 0 || current in walk)
    requires forall k: nat | k < |walk| :: walk[k] == Up(parents, body, k) < |parents|
    requires ancestor !in walk
    requires || Up(parents, body, |walk| + 1) == current
             || exists j: nat :: j < |walk| && Up(parents, body, j) == Up(parents, body, |walk|)
    ensures !Descends(parents, body, ancestor)
    ensures Leaves(parents, body) <==> current >= |parents|
  {
    hide Up;
    forall m: nat ensures Up(parents, body, m) == current || Up(parents, body, m) in walk {
      var k := MeetsNoMore(parents, body, |walk|, m);
      if k < |walk| {
        assert walk[k] == Up(parents, body, m);
      }
    }
  }
}
