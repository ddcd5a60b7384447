/** The debug set-up of RRTStar/rrt_star.py (main): three obstacles (two moving,
    one static) on a handler with unit ticks, start (140, 60), goal (180, 60),
    the planner options, and a budget of 100 iterations. */
module DebugScenario {
  import opened ObstacleMotion
  import opened Obstacles
  import opened ControlLoop

  const SimLoop: nat := 100
  const Start := Point(140.0, 60.0)
  const End := Point(180.0, 60.0)
  const DebugHyperparameters := Hyperparameters(1.0, 16000, 1.0, 1.0, 10.0)

  /** Half a unit left per tick for 10 ticks, half a unit right for 10, one unit down for 5. */
  const FirstSchedule :=
    [Segment(Velocity(-0.5, 0.0), 10.0), Segment(Velocity(0.5, 0.0), 10.0), Segment(Velocity(0.0, -1.0), 5.0)]

  /** One unit up for 10 ticks, down for 5, up for 10, down for 20. */
  const SecondSchedule :=
    [Segment(Velocity(0.0, 1.0), 10.0), Segment(Velocity(0.0, -1.0), 5.0),
     Segment(Velocity(0.0, 1.0), 10.0), Segment(Velocity(0.0, -1.0), 20.0)]

  /** The obstacles of main, in the order they are added. */
  const InitialObstacles := [FirstObstacle, SecondObstacle, ThirdObstacle]

  lemma FirstScheduleAt20(b: Box)
    ensures Iterate(ObstacleState(b, true, FirstSchedule, 0.0), 1.0, 20) == ObstacleState(b, true, FirstSchedule[2..], 0.0)
  {
    var o0 := ObstacleState(b, true, FirstSchedule, 0.0);
    var rest1 := [Segment(Velocity(0.5, 0.0), 10.0), Segment(Velocity(0.0, -1.0), 5.0)];
    assert FirstSchedule[1..] == rest1;
    assert rest1[1..] == FirstSchedule[2..];
    SegmentConsumed(o0, 10);
    var b1 := Box(b.xMin - 5.0, b.yMin, b.xMax - 5.0, b.yMax);
    assert Translate(b, Scale(Velocity(-0.5, 0.0), 10.0)) == b1;
    var o1 := ObstacleState(b1, true, rest1, 0.0);
    assert Iterate(o0, 1.0, 10) == o1;
    SegmentConsumed(o1, 10);
    assert Translate(b1, Scale(Velocity(0.5, 0.0), 10.0)) == b;
    IterateSplit(o0, 1.0, 10, 10);
  }

  lemma FirstScheduleAt25(b: Box)
    ensures Iterate(ObstacleState(b, true, FirstSchedule, 0.0), 1.0, 25)
         == ObstacleState(Box(b.xMin, b.yMin - 5.0, b.xMax, b.yMax - 5.0), true, [], 0.0)
  {
    var o0 := ObstacleState(b, true, FirstSchedule, 0.0);
    FirstScheduleAt20(b);
    var o2 := ObstacleState(b, true, FirstSchedule[2..], 0.0);
    assert FirstSchedule[2..] == [Segment(Velocity(0.0, -1.0), 5.0)];
    SegmentConsumed(o2, 5);
    IterateSplit(o0, 1.0, 20, 5);
  }

  /** Whatever box it starts from, an obstacle on the first schedule is back at
      that box after 20 ticks, 5 below it after 25, and from then on never moves. */
  lemma FirstScheduleRoundTrip(b: Box)
    ensures Iterate(ObstacleState(b, true, FirstSchedule, 0.0), 1.0, 20).box == b
    ensures forall n :: n >= 25 ==>
      Iterate(ObstacleState(b, true, FirstSchedule, 0.0), 1.0, n)
        == ObstacleState(Box(b.xMin, b.yMin - 5.0, b.xMax, b.yMax - 5.0), true, [], 0.0)
  {
    FirstScheduleAt20(b);
    FirstScheduleAt25(b);
    StaticFrom(ObstacleState(b, true, FirstSchedule, 0.0), 1.0, 25);
  }

  /** The planner is handed the first obstacle's row only; from the 25th call on
      that row no longer changes. */
  lemma PlannerViewSettles(planner: PlanRequest -> PlanResult)
    ensures var r := Run(InitialObstacles, 1.0, Start, Config(End, DebugHyperparameters, SimLoop, planner));
      forall k :: 24 <= k < |r.requests| ==> r.requests[k].obs == Box(158.0, 53.0, 162.0, 57.0)
  {
    var r := Run(InitialObstacles, 1.0, Start, Config(End, DebugHyperparameters, SimLoop, planner));
    RunAdvancesBeforePlanning(InitialObstacles, 1.0, Start, Config(End, DebugHyperparameters, SimLoop, planner));
    FirstScheduleRoundTrip(InitialObstacles[0].box);
    forall k | 24 <= k < |r.requests|
      ensures r.requests[k].obs == Box(158.0, 53.0, 162.0, 57.0)
    {
      IterateAllAt(InitialObstacles, 1.0, k + 1);
    }
  }

  /** Allocates an obstacle standing for initial, with a fresh coordinate buffer
      holding its box and the given movement and duration lists. */
  method NewObstacle(initial: ObstacleState, movements: seq<Velocity>, steps: seq<real>) returns (obstacle: Obstacle)
    requires |movements| == |steps|
    requires initial.schedule == Schedule(movements, steps) && initial.elapsed == 0.0
    ensures fresh(obstacle) && fresh(obstacle.coords)
    ensures obstacle.Valid() && obstacle.State() == initial
  {
    var b := initial.box;
    var coords := new real[] [b.xMin, b.yMin, b.xMax, b.yMax];
    obstacle := new Obstacle(coords, initial.isDynamic, movements, steps);
  }

  /** Allocates an obstacle standing for initial and appends it to the handler. */
  method AddNewObstacle(handler: ObstacleHandler, initial: ObstacleState, movements: seq<Velocity>, steps: seq<real>)
    returns (obstacle: Obstacle)
    requires handler.Valid()
    requires |movements| == |steps|
    requires initial.schedule == Schedule(movements, steps) && initial.elapsed == 0.0
    modifies handler
    ensures fresh(obstacle) && fresh(obstacle.coords)
    ensures handler.Valid() && handler.stepSize == old(handler.stepSize)
    ensures handler.obstacles == old(handler.obstacles) + [obstacle]
    ensures handler.States() == old(handler.States()) + [initial]
  {
    ghost var before := handler.States();
    obstacle := NewObstacle(initial, movements, steps);
    assert handler.Valid() && handler.States() == before;
    handler.AddObstacle(obstacle);
  }

  const FirstObstacle := ObstacleState(Box(158.0, 58.0, 162.0, 62.0), true, FirstSchedule, 0.0)
  const SecondObstacle := ObstacleState(Box(170.0, 55.0, 175.0, 60.0), true, SecondSchedule, 0.0)
  const ThirdObstacle := ObstacleState(Box(165.0, 60.0, 170.0, 65.0), false, [], 0.0)

  /** The parallel movement and duration lists main passes for the two moving obstacles. */
  const FirstMovements := [Velocity(-0.5, 0.0), Velocity(0.5, 0.0), Velocity(0.0, -1.0)]
  const FirstSteps := [10.0, 10.0, 5.0]
  const SecondMovements := [Velocity(0.0, 1.0), Velocity(0.0, -1.0), Velocity(0.0, 1.0), Velocity(0.0, -1.0)]
  const SecondSteps := [10.0, 5.0, 10.0, 20.0]

  /** Zipping those lists gives the two schedules. */
  lemma DebugListsMatchSchedules()
    ensures Schedule(FirstMovements, FirstSteps) == FirstSchedule
    ensures Schedule(SecondMovements, SecondSteps) == SecondSchedule
  {
  }

  /** The arguments of one obstacle construction in main: the initial state it
      stands for, and the movement and duration lists passed for it. */
  datatype Setup = Setup(initial: ObstacleState, movements: seq<Velocity>, steps: seq<real>)

  /** The lists are parallel and zip to the initial state's schedule, which
      starts with nothing elapsed. */
  predicate Fits(s: Setup)
  {
    |s.movements| == |s.steps| &&
    s.initial.schedule == Schedule(s.movements, s.steps) && s.initial.elapsed == 0.0
  }

  function Initials(setups: seq<Setup>): (r: seq<ObstacleState>)
    ensures |r| == |setups| && forall k :: 0 <= k < |setups| ==> r[k] == setups[k].initial
  {
    seq(|setups|, k requires 0 <= k < |setups| => setups[k].initial)
  }

  lemma InitialsSnoc(setups: seq<Setup>, i: nat)
    requires i < |setups|
    ensures Initials(setups[..i + 1]) == Initials(setups[..i]) + [setups[i].initial]
  {
    assert Initials(setups[..i + 1])[..i] == Initials(setups[..i]);
  }

  /** A handler with tick length stepSize and one freshly allocated obstacle per
      setup, added in order. */
  method BuildHandler(stepSize: real, setups: seq<Setup>) returns (handler: ObstacleHandler)
    requires forall k :: 0 <= k < |setups| ==> Fits(setups[k])
    ensures fresh(handler) && forall o :: o in handler.obstacles ==> fresh(o) && fresh(o.coords)
    ensures handler.Valid() && handler.stepSize == stepSize
    ensures handler.States() == Initials(setups)
  {
    handler := new ObstacleHandler(stepSize);
    var i := 0;
    while i < |setups|
      invariant 0 <= i <= |setups|
      invariant fresh(handler) && forall o :: o in handler.obstacles ==> fresh(o) && fresh(o.coords)
      invariant handler.Valid() && handler.stepSize == stepSize
      invariant handler.States() == Initials(setups[..i])
    {
      var setup := setups[i];
      var _ := AddNewObstacle(handler, setup.initial, setup.movements, setup.steps);
      InitialsSnoc(setups, i);
      i := i + 1;
    }
  }

  /** The three obstacles main builds, in the order it adds them. */
  const DebugSetups := [
    Setup(FirstObstacle, FirstMovements, FirstSteps),
    Setup(SecondObstacle, SecondMovements, SecondSteps),
    Setup(ThirdObstacle, [], [])]

  lemma DebugSetupsFit()
    ensures forall k :: 0 <= k < |DebugSetups| ==> Fits(DebugSetups[k])
    ensures Initials(DebugSetups) == InitialObstacles
  {
    DebugListsMatchSchedules();
    assert Fits(DebugSetups[0]) && Fits(DebugSetups[1]) && Fits(DebugSetups[2]);
  }

  /** Builds the handler as main does and runs the loop on it. */
  method RunDebugScenario(planner: PlanRequest -> PlanResult)
    returns (outcome: Outcome, start: Point, iterations: nat, requests: seq<PlanRequest>)
    ensures var r := Run(InitialObstacles, 1.0, Start, Config(End, DebugHyperparameters, SimLoop, planner));
      outcome == r.outcome && start == r.start && iterations == r.iterations && requests == r.requests
    ensures iterations <= SimLoop
  {
    DebugSetupsFit();
    var handler := BuildHandler(1.0, DebugSetups);
    RunWithinBudget(InitialObstacles, 1.0, Start, Config(End, DebugHyperparameters, SimLoop, planner));
    outcome, start, iterations, requests := Simulate(handler, Start, End, DebugHyperparameters, SimLoop, planner);
  }
}
