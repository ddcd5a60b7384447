/** Value-level model of one obstacle's piecewise motion (RRTStar/obstacle_handler.py,
    Obstacle.transform) and of a whole collection advanced tick by tick
    (Obstacle_Handler.transform). The classes in module Obstacles are proved
    to follow these functions. */
module ObstacleMotion {

  /** An axis-aligned box [x_min, y_min, x_max, y_max]: lower-left and upper-right corner. */
  datatype Box = Box(xMin: real, yMin: real, xMax: real, yMax: real)

  /** Displacement applied to a box on every tick of a segment. */
  datatype Velocity = Velocity(dx: real, dy: real)

  /** One entry of the movement schedule: a velocity and how long it lasts. */
  datatype Segment = Segment(velocity: Velocity, duration: real)

  /** The state of one obstacle: its box, whether it moves at all, the segments
      still to perform (front first) and the time spent in the front segment. */
  datatype ObstacleState = ObstacleState(box: Box, isDynamic: bool, schedule: seq<Segment>, elapsed: real)

  function Width(b: Box): real { b.xMax - b.xMin }

  function Height(b: Box): real { b.yMax - b.yMin }

  /** Lower-left corner really is below and left of the upper-right one. */
  predicate Ordered(b: Box) { b.xMin <= b.xMax && b.yMin <= b.yMax }

  /** Rigid translation: both corners move by v. */
  function Translate(b: Box, v: Velocity): (r: Box)
    ensures Width(r) == Width(b) && Height(r) == Height(b)
    ensures r.xMin - b.xMin == v.dx && r.yMin - b.yMin == v.dy
  {
    Box(b.xMin + v.dx, b.yMin + v.dy, b.xMax + v.dx, b.yMax + v.dy)
  }

  /** The displacement of c ticks at velocity v. */
  function Scale(v: Velocity, c: real): Velocity
  {
    Velocity(c * v.dx, c * v.dy)
  }

  /** The obstacle moves on the next tick: it is dynamic and has a segment left. */
  predicate Moving(o: ObstacleState)
  {
    o.isDynamic && o.schedule != []
  }

  /** Every duration is positive, and the time spent in the front segment is
      below that segment's duration. */
  predicate WellFormed(o: ObstacleState)
  {
    (forall k :: 0 <= k < |o.schedule| ==> o.schedule[k].duration > 0.0) &&
    (o.schedule != [] ==> o.elapsed < o.schedule[0].duration)
  }

  /** One tick of length dt. A moving obstacle is translated by the front
      velocity and dt is added to the elapsed time; when that reaches the front
      duration the segment is dropped and the elapsed time restarts at 0 (any
      excess is discarded). A static or exhausted obstacle is left as it is. */
  function Step(o: ObstacleState, dt: real): (r: ObstacleState)
    ensures r.isDynamic == o.isDynamic
    ensures Width(r.box) == Width(o.box) && Height(r.box) == Height(o.box)
    ensures !Moving(o) ==> r == o
    ensures Moving(o) ==> r.box == Translate(o.box, o.schedule[0].velocity)
    ensures r.schedule == o.schedule || (o.schedule != [] && r.schedule == o.schedule[1..])
    ensures r.schedule != o.schedule ==> r.elapsed == 0.0 && o.elapsed + dt >= o.schedule[0].duration
    ensures Moving(o) ==> (|r.schedule| < |o.schedule| <==> o.elapsed + dt >= o.schedule[0].duration)
    ensures Moving(o) && r.schedule == o.schedule ==> r.elapsed == o.elapsed + dt
  {
    if Moving(o) then
      var segment := o.schedule[0];
      var box := Translate(o.box, segment.velocity);
      var elapsed := o.elapsed + dt;
      if elapsed >= segment.duration then
        ObstacleState(box, o.isDynamic, o.schedule[1..], 0.0)
      else
        ObstacleState(box, o.isDynamic, o.schedule, elapsed)
    else
      o
  }

  lemma StepKeepsWellFormed(o: ObstacleState, dt: real)
    requires WellFormed(o)
    ensures WellFormed(Step(o, dt))
  {
  }

  /** n ticks of length dt. */
  function Iterate(o: ObstacleState, dt: real, n: nat): ObstacleState
    decreases n
  {
    if n == 0 then o else Iterate(Step(o, dt), dt, n - 1)
  }

  lemma {:induction false} IterateSplit(o: ObstacleState, dt: real, m: nat, n: nat)
    ensures Iterate(o, dt, m + n) == Iterate(Iterate(o, dt, m), dt, n)
    decreases m
  {
    if m > 0 {
      IterateSplit(Step(o, dt), dt, m - 1, n);
    }
  }

  /** Over any number of ticks the obstacle keeps its size (so a well-ordered box
      stays well ordered), its dynamic flag and its well-formedness; what is left of
      its schedule is a suffix of the original, at most one segment shorter per tick. */
  lemma {:induction false} IterateKeepsShape(o: ObstacleState, dt: real, n: nat)
    ensures var r := Iterate(o, dt, n);
      r.isDynamic == o.isDynamic &&
      Width(r.box) == Width(o.box) && Height(r.box) == Height(o.box) &&
      (Ordered(o.box) ==> Ordered(r.box)) &&
      (WellFormed(o) ==> WellFormed(r)) &&
      |r.schedule| <= |o.schedule| &&
      |o.schedule| - |r.schedule| <= n &&
      r.schedule == o.schedule[|o.schedule| - |r.schedule|..]
    decreases n
  {
    if n > 0 {
      var s := Step(o, dt);
      if WellFormed(o) {
        StepKeepsWellFormed(o, dt);
      }
      IterateKeepsShape(s, dt, n - 1);
      var r := Iterate(s, dt, n - 1);
      assert r == Iterate(o, dt, n);
      if s.schedule != o.schedule {
        assert s.schedule[|s.schedule| - |r.schedule|..] == o.schedule[|o.schedule| - |r.schedule|..];
      }
    }
  }

  /** An obstacle that does not move on the next tick never moves again. */
  lemma {:induction false} ExhaustedStaysStatic(o: ObstacleState, dt: real, n: nat)
    requires !Moving(o)
    ensures Iterate(o, dt, n) == o
    decreases n
  {
    if n > 0 {
      assert Step(o, dt) == o;
      ExhaustedStaysStatic(o, dt, n - 1);
    }
  }

  /** Once an obstacle stops moving after m ticks, every later tick leaves it as it is. */
  lemma StaticFrom(o: ObstacleState, dt: real, m: nat)
    requires !Moving(Iterate(o, dt, m))
    ensures forall n :: n >= m ==> Iterate(o, dt, n) == Iterate(o, dt, m)
  {
    forall n | n >= m
      ensures Iterate(o, dt, n) == Iterate(o, dt, m)
    {
      IterateSplit(o, dt, m, n - m);
      ExhaustedStaysStatic(Iterate(o, dt, m), dt, n - m);
    }
  }

  /** With unit ticks, k ticks that stay inside the front segment translate the
      box by k times its velocity and add k to the elapsed time. */
  lemma {:induction false} SegmentInProgress(o: ObstacleState, k: nat)
    requires Moving(o) && o.elapsed + k as real < o.schedule[0].duration
    ensures Iterate(o, 1.0, k)
         == o.(box := Translate(o.box, Scale(o.schedule[0].velocity, k as real)),
               elapsed := o.elapsed + k as real)
    decreases k
  {
    var v := o.schedule[0].velocity;
    if k == 0 {
      assert Translate(o.box, Scale(v, 0.0)) == o.box;
    } else {
      var s := Step(o, 1.0);
      assert s == o.(box := Translate(o.box, v), elapsed := o.elapsed + 1.0);
      SegmentInProgress(s, k - 1);
      assert Translate(Translate(o.box, v), Scale(v, (k - 1) as real)) == Translate(o.box, Scale(v, k as real));
    }
  }

  /** With unit ticks a fresh segment of integer duration d is consumed after
      exactly d ticks (not earlier), having moved the box by d times its velocity;
      the elapsed time is back at 0 and the next segment is at the front. */
  lemma {:induction false} SegmentConsumed(o: ObstacleState, d: nat)
    requires Moving(o) && o.elapsed == 0.0 && d >= 1 && o.schedule[0].duration == d as real
    ensures Iterate(o, 1.0, d)
         == ObstacleState(Translate(o.box, Scale(o.schedule[0].velocity, d as real)), true, o.schedule[1..], 0.0)
    ensures forall k :: 0 <= k < d ==> Iterate(o, 1.0, k).schedule == o.schedule
  {
    var v := o.schedule[0].velocity;
    SegmentInProgress(o, d - 1);
    IterateSplit(o, 1.0, d - 1, 1);
    var mid := Iterate(o, 1.0, d - 1);
    assert Iterate(mid, 1.0, 1) == Step(mid, 1.0);
    assert Translate(Translate(o.box, Scale(v, (d - 1) as real)), v) == Translate(o.box, Scale(v, d as real));
    forall k | 0 <= k < d
      ensures Iterate(o, 1.0, k).schedule == o.schedule
    {
      SegmentInProgress(o, k);
    }
  }

  /** One tick applied to every obstacle of an ordered collection. */
  function StepAll(os: seq<ObstacleState>, dt: real): (r: seq<ObstacleState>)
    ensures |r| == |os|
    ensures forall k :: 0 <= k < |os| ==> r[k] == Step(os[k], dt)
  {
    if os == [] then [] else [Step(os[0], dt)] + StepAll(os[1..], dt)
  }

  /** n ticks applied to a collection. */
  function IterateAll(os: seq<ObstacleState>, dt: real, n: nat): (r: seq<ObstacleState>)
    ensures |r| == |os|
    decreases n
  {
    if n == 0 then os else IterateAll(StepAll(os, dt), dt, n - 1)
  }

  /** After any number of ticks the k-th obstacle of the collection is the k-th
      obstacle advanced on its own: order is kept and obstacles do not interact. */
  lemma {:induction false} IterateAllAt(os: seq<ObstacleState>, dt: real, n: nat)
    ensures forall k :: 0 <= k < |os| ==> IterateAll(os, dt, n)[k] == Iterate(os[k], dt, n)
    decreases n
  {
    if n > 0 {
      IterateAllAt(StepAll(os, dt), dt, n - 1);
    }
  }

  /** The last tick of n + 1 is one more StepAll after n ticks. */
  lemma {:induction false} IterateAllLast(os: seq<ObstacleState>, dt: real, n: nat)
    ensures IterateAll(os, dt, n + 1) == StepAll(IterateAll(os, dt, n), dt)
    decreases n
  {
    if n > 0 {
      IterateAllLast(StepAll(os, dt), dt, n - 1);
    }
  }

  /** The boxes of a collection, in the collection's order. */
  function Boxes(os: seq<ObstacleState>): (r: seq<Box>)
    ensures |r| == |os|
    ensures forall k :: 0 <= k < |os| ==> r[k] == os[k].box
  {
    seq(|os|, k requires 0 <= k < |os| => os[k].box)
  }
}
