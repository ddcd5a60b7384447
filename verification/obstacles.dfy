/** The mutable obstacle objects of RRTStar/obstacle_handler.py: class Obstacle
    (a box stored as a 4-element buffer, two parallel schedule lists and a time
    accumulator) and class ObstacleHandler (Obstacle_Handler in the source: an
    ordered list of obstacles and a fixed tick length). Each method is proved to
    follow the value-level functions of module ObstacleMotion. */
module Obstacles {
  import opened ObstacleMotion

  /** The box held in a coordinate buffer [x_min, y_min, x_max, y_max]. */
  function BoxOf(coords: array<real>): Box
    reads coords
    requires coords.Length == 4
  {
    Box(coords[0], coords[1], coords[2], coords[3])
  }

  /** The schedule described by the parallel movement and duration lists. */
  function Schedule(movements: seq<Velocity>, steps: seq<real>): (r: seq<Segment>)
    requires |movements| == |steps|
    ensures |r| == |movements|
    ensures forall k :: 0 <= k < |r| ==> r[k] == Segment(movements[k], steps[k])
  {
    seq(|movements|, k requires 0 <= k < |movements| => Segment(movements[k], steps[k]))
  }

  class Obstacle {
    /** The box, updated element by element in place. */
    const coords: array<real>
    var isDynamic: bool
    /** Per-tick displacement of each remaining segment, front first. */
    var movementList: seq<Velocity>
    /** Duration of each remaining segment, parallel to movementList. */
    var stepList: seq<real>
    /** Time spent so far in the front segment. */
    var currTimeStep: real

    /** The buffer holds four coordinates and the two schedule lists are parallel. */
    ghost predicate Valid()
      reads this
    {
      coords.Length == 4 && |movementList| == |stepList|
    }

    /** The value this object stands for. */
    ghost function State(): ObstacleState
      reads this, coords
      requires coords.Length == 4 && |movementList| == |stepList|
    {
      ObstacleState(BoxOf(coords), isDynamic, Schedule(movementList, stepList), currTimeStep)
    }

    /** A static obstacle is built with isDynamic false and empty lists. */
    constructor (coords: array<real>, isDynamic: bool, movementList: seq<Velocity>, stepList: seq<real>)
      requires coords.Length == 4 && |movementList| == |stepList|
      ensures Valid() && this.coords == coords
      ensures State() == ObstacleState(BoxOf(coords), isDynamic, Schedule(movementList, stepList), 0.0)
    {
      this.coords := coords;
      this.isDynamic := isDynamic;
      this.movementList := movementList;
      this.stepList := stepList;
      this.currTimeStep := 0.0;
    }

    /** Advances the obstacle by one tick of length stepSize and returns its box. */
    method Transform(stepSize: real) returns (r: Box)
      requires Valid()
      modifies this, coords
      ensures Valid()
      ensures State() == Step(old(State()), stepSize)
      ensures isDynamic == old(isDynamic)
      ensures (movementList == old(movementList) && stepList == old(stepList)) ||
              (old(movementList) != [] && movementList == old(movementList)[1..] && stepList == old(stepList)[1..])
      ensures !(old(isDynamic) && old(movementList) != []) ==>
        coords[..] == old(coords[..]) && movementList == old(movementList) && stepList == old(stepList) &&
        currTimeStep == old(currTimeStep)
      ensures r == State().box
    {
      ghost var before := State();
      if isDynamic && |movementList| > 0 {
        var movement := movementList[0];
        coords[0] := coords[0] + movement.dx;
        coords[2] := coords[2] + movement.dx;
        coords[1] := coords[1] + movement.dy;
        coords[3] := coords[3] + movement.dy;
        currTimeStep := currTimeStep + stepSize;
        if currTimeStep >= stepList[0] {
          movementList := movementList[1..];
          stepList := stepList[1..];
          currTimeStep := 0.0;
          assert Schedule(movementList, stepList) == before.schedule[1..];
        }
      }
      r := BoxOf(coords);
    }
  }

  /** The states of a sequence of obstacles, in order. */
  ghost function StatesOf(os: seq<Obstacle>): (r: seq<ObstacleState>)
    reads os, set o | o in os :: o.coords
    requires forall k :: 0 <= k < |os| ==> os[k].coords.Length == 4 && |os[k].movementList| == |os[k].stepList|
    ensures |r| == |os|
    ensures forall k :: 0 <= k < |os| ==> r[k] == os[k].State()
  {
    if os == [] then [] else [os[0].State()] + StatesOf(os[1..])
  }

  lemma {:induction false} StatesOfAppend(os: seq<Obstacle>, o: Obstacle)
    requires forall k :: 0 <= k < |os| ==> os[k].coords.Length == 4 && |os[k].movementList| == |os[k].stepList|
    requires o.coords.Length == 4 && |o.movementList| == |o.stepList|
    ensures StatesOf(os + [o]) == StatesOf(os) + [o.State()]
  {
    var a, b := StatesOf(os + [o]), StatesOf(os) + [o.State()];
    assert |a| == |b|;
    forall k | 0 <= k < |a| ensures a[k] == b[k] {
      if k < |os| {
        assert (os + [o])[k] == os[k];
      }
    }
  }

  class ObstacleHandler {
    /** The obstacles in insertion order. */
    var obstacles: seq<Obstacle>
    /** Tick length handed to every obstacle. */
    var stepSize: real

    /** The coordinate buffers of the obstacles. */
    ghost function Buffers(): set<array<real>>
      reads this
    {
      set o | o in obstacles :: o.coords
    }

    /** No two obstacles share a coordinate buffer (so no obstacle occurs twice). */
    ghost predicate Distinct()
      reads this
    {
      forall i, j :: 0 <= i < j < |obstacles| ==> obstacles[i].coords != obstacles[j].coords
    }

    /** The obstacles are distinct and each of them is valid. */
    ghost predicate Valid()
      reads this, obstacles
    {
      Distinct() && forall i :: 0 <= i < |obstacles| ==> obstacles[i].Valid()
    }

    /** The values of the obstacles, in insertion order. */
    ghost function States(): seq<ObstacleState>
      reads this, obstacles, Buffers()
      requires Valid()
    {
      StatesOf(obstacles)
    }

    constructor (stepSize: real)
      ensures Valid() && obstacles == [] && this.stepSize == stepSize
    {
      obstacles := [];
      this.stepSize := stepSize;
    }

    /** Appends an obstacle at the end of the collection. */
    method AddObstacle(obstacle: Obstacle)
      requires Valid() && obstacle.Valid()
      requires forall o :: o in obstacles ==> o.coords != obstacle.coords
      modifies this
      ensures Valid() && obstacles == old(obstacles) + [obstacle] && stepSize == old(stepSize)
      ensures States() == old(States()) + [obstacle.State()]
    {
      ghost var before := obstacles;
      StatesOfAppend(obstacles, obstacle);
      obstacles := obstacles + [obstacle];
      forall k | 0 <= k < |obstacles|
        ensures obstacles[k].Valid()
      {
        if k < |before| {
          assert obstacles[k] == before[k];
        }
      }
      forall i, j | 0 <= i < j < |obstacles|
        ensures obstacles[i].coords != obstacles[j].coords
      {
        assert obstacles[i] == before[i];
        if j < |before| {
          assert obstacles[j] == before[j];
        } else {
          assert before[i] in before;
        }
      }
    }

    /** Advances the obstacle at position i by one tick; the others keep their state. */
    method TransformAt(i: nat)
      requires Valid() && i < |obstacles|
      modifies obstacles[i], obstacles[i].coords
      ensures Valid()
      ensures States() == old(States())[i := Step(old(States())[i], stepSize)]
    {
      ghost var before := States();
      var obstacle := obstacles[i];
      var _ := obstacle.Transform(stepSize);
      forall k | 0 <= k < |obstacles| && k != i
        ensures obstacles[k].Valid() && obstacles[k].State() == before[k]
      {
        assert obstacles[k].coords != obstacle.coords;
      }
      assert States() == before[i := Step(before[i], stepSize)];
    }

    /** Advances every obstacle by one tick of length stepSize, in list order. */
    method Transform()
      requires Valid()
      modifies obstacles, Buffers()
      ensures Valid() && obstacles == old(obstacles) && stepSize == old(stepSize)
      ensures States() == StepAll(old(States()), stepSize)
    {
      ghost var before := States();
      var i := 0;
      while i < |obstacles|
        invariant 0 <= i <= |obstacles|
        invariant Valid() && |States()| == |before|
        invariant forall k :: 0 <= k < |before| ==> States()[k] == if k < i then Step(before[k], stepSize) else before[k]
      {
        TransformAt(i);
        i := i + 1;
      }
    }

    /** A fresh copy of the boxes, one per obstacle, in insertion order. */
    method GetObstacles() returns (snapshot: seq<Box>)
      requires Valid()
      ensures |snapshot| == |obstacles|
      ensures forall k :: 0 <= k < |obstacles| ==> snapshot[k] == obstacles[k].State().box
      ensures snapshot == Boxes(States())
    {
      snapshot := [];
      var i := 0;
      while i < |obstacles|
        invariant 0 <= i <= |obstacles|
        invariant |snapshot| == i
        invariant forall k :: 0 <= k < i ==> snapshot[k] == obstacles[k].State().box
      {
        snapshot := snapshot + [BoxOf(obstacles[i].coords)];
        i := i + 1;
      }
    }
  }
}
