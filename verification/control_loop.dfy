/** The receding-horizon simulation loop of RRTStar/rrt_star.py (main): every
    iteration advances the obstacles one tick, snapshots them, asks the planner
    for a path, moves the start to the path's second waypoint when the planner
    succeeded, and stops once that waypoint is within 1.0 of the goal or after
    simLoop iterations. The planner is a function parameter. */
module ControlLoop {
  import opened ObstacleMotion
  import opened Obstacles

  datatype Point = Point(x: real, y: real)

  /** The planner's tuning options, passed through unchanged. */
  datatype Hyperparameters = Hyperparameters(
    stepSize: real,
    maxIterations: int,
    endDistThreshold: real,
    obstacleClearance: real,
    laneWidth: real)

  /** What the planner is given on one iteration: the iteration index (the
      planner is randomised, so it may answer differently each time), the current
      start, the goal, the obstacle row taken from the snapshot, and the options. */
  datatype PlanRequest = PlanRequest(tick: nat, start: Point, end: Point, obs: Box, hyperparameters: Hyperparameters)

  /** The planner's answer: waypoint coordinates and a success flag. */
  datatype PlanResult = PlanResult(pathX: seq<real>, pathY: seq<real>, success: bool)

  /** How a run ends. NoObstacleRow and PathTooShort are the two places where
      the source indexes past the end of a list and raises IndexError: the
      snapshot has no row 0, or the path has no waypoint 1. */
  datatype Outcome = GoalReached | Exhausted | NoObstacleRow | PathTooShort

  /** What stays fixed during a run. */
  datatype Config = Config(end: Point, hyperparameters: Hyperparameters, simLoop: nat, planner: PlanRequest -> PlanResult)

  /** The final state of a run and the planner calls it made, in order. */
  datatype RunResult = RunResult(
    outcome: Outcome,
    start: Point,
    iterations: nat,
    obstacles: seq<ObstacleState>,
    requests: seq<PlanRequest>)

  /** The path has a second waypoint. */
  predicate HasLookahead(p: PlanResult)
  {
    |p.pathX| >= 2 && |p.pathY| >= 2
  }

  /** The second waypoint of the path. */
  function Lookahead(p: PlanResult): Point
    requires HasLookahead(p)
  {
    Point(p.pathX[1], p.pathY[1])
  }

  function SquaredDistance(a: Point, b: Point): real
  {
    (a.x - b.x) * (a.x - b.x) + (a.y - b.y) * (a.y - b.y)
  }

  /** Within Euclidean distance 1.0 of the goal (compared squared). */
  predicate NearGoal(p: Point, end: Point)
  {
    SquaredDistance(p, end) <= 1.0
  }

  /** The answer lets the loop go on to another iteration. */
  predicate Continues(p: PlanResult, end: Point)
  {
    HasLookahead(p) && !NearGoal(Lookahead(p), end)
  }

  /** The start after an answer: the second waypoint on success, unchanged on failure. */
  function NextStart(p: PlanResult, start: Point): (r: Point)
    requires HasLookahead(p)
    ensures p.success ==> r == Point(p.pathX[1], p.pathY[1])
    ensures !p.success ==> r == start
  {
    if p.success then Lookahead(p) else start
  }

  /** The loop from iteration i on, with obstacles obs, the current start and the
      planner calls made so far. */
  function RunFrom(obs: seq<ObstacleState>, dt: real, start: Point, cfg: Config, i: nat, requests: seq<PlanRequest>): (r: RunResult)
    requires i <= cfg.simLoop
    ensures i <= r.iterations <= cfg.simLoop
    ensures r.outcome == Exhausted ==> r.iterations == cfg.simLoop
    ensures r.outcome != Exhausted ==> r.iterations > i
    ensures |requests| <= |r.requests|
    ensures r.outcome == NoObstacleRow <==> i < cfg.simLoop && obs == []
    decreases cfg.simLoop - i
  {
    if i == cfg.simLoop then
      RunResult(Exhausted, start, i, obs, requests)
    else
      var advanced := StepAll(obs, dt);
      var snapshot := Boxes(advanced);
      if |snapshot| == 0 then
        RunResult(NoObstacleRow, start, i + 1, advanced, requests)
      else
        var request := PlanRequest(i, start, cfg.end, snapshot[0], cfg.hyperparameters);
        var plan := cfg.planner(request);
        if !HasLookahead(plan) then
          RunResult(PathTooShort, start, i + 1, advanced, requests + [request])
        else if NearGoal(Lookahead(plan), cfg.end) then
          RunResult(GoalReached, NextStart(plan, start), i + 1, advanced, requests + [request])
        else
          RunFrom(advanced, dt, NextStart(plan, start), cfg, i + 1, requests + [request])
  }

  /** The whole loop, from the initial obstacles and start. */
  function Run(obs0: seq<ObstacleState>, dt: real, start0: Point, cfg: Config): (r: RunResult)
    ensures r.iterations <= cfg.simLoop
    ensures r.outcome == NoObstacleRow <==> cfg.simLoop > 0 && obs0 == []
  {
    RunFrom(obs0, dt, start0, cfg, 0, [])
  }

  /** The loop only appends planner calls: the calls already made stay, in order,
      at the head of the run's list of calls. */
  lemma {:induction false} RunFromKeepsPrefix(obs: seq<ObstacleState>, dt: real, start: Point, cfg: Config, i: nat, requests: seq<PlanRequest>)
    requires i <= cfg.simLoop
    ensures var r := RunFrom(obs, dt, start, cfg, i, requests);
      |requests| <= |r.requests| && r.requests[..|requests|] == requests
    decreases cfg.simLoop - i
  {
    if i < cfg.simLoop {
      var advanced := StepAll(obs, dt);
      if |Boxes(advanced)| > 0 {
        var request := PlanRequest(i, start, cfg.end, Boxes(advanced)[0], cfg.hyperparameters);
        var plan := cfg.planner(request);
        if HasLookahead(plan) && !NearGoal(Lookahead(plan), cfg.end) {
          var next := requests + [request];
          RunFromKeepsPrefix(advanced, dt, NextStart(plan, start), cfg, i + 1, next);
          var r := RunFrom(advanced, dt, NextStart(plan, start), cfg, i + 1, next);
          assert r.requests[..|requests|] == r.requests[..|next|][..|requests|];
        }
      }
    }
  }

  /** The k-th planner call (from 0) of a run: goal and options as configured,
      and the first obstacle as it is after k + 1 ticks. */
  ghost predicate IsRequest(obs0: seq<ObstacleState>, dt: real, cfg: Config, k: nat, request: PlanRequest)
  {
    request.tick == k && request.end == cfg.end && request.hyperparameters == cfg.hyperparameters &&
    |obs0| > 0 && request.obs == IterateAll(obs0, dt, k + 1)[0].box
  }

  /** requests are the planner calls of the first |requests| iterations: each
      call is made from the start the previous answer left, and every answer but
      possibly the last let the loop go on. */
  ghost predicate Trace(obs0: seq<ObstacleState>, dt: real, start0: Point, cfg: Config, requests: seq<PlanRequest>)
  {
    (forall k :: 0 <= k < |requests| ==> IsRequest(obs0, dt, cfg, k, requests[k])) &&
    (|requests| > 0 ==> requests[0].start == start0) &&
    (forall k :: 0 <= k < |requests| - 1 ==>
       Continues(cfg.planner(requests[k]), cfg.end) &&
       requests[k + 1].start == NextStart(cfg.planner(requests[k]), requests[k].start))
  }

  /** r is an end of the loop started from obs0 and start0: it used at most the
      budget, advanced the obstacles once per iteration, made the calls of a
      trace, and stopped for the reason its outcome names. */
  ghost predicate Explains(obs0: seq<ObstacleState>, dt: real, start0: Point, cfg: Config, r: RunResult)
  {
    r.iterations <= cfg.simLoop &&
    r.obstacles == IterateAll(obs0, dt, r.iterations) &&
    Trace(obs0, dt, start0, cfg, r.requests) &&
    match r.outcome
    case NoObstacleRow =>
      obs0 == [] && cfg.simLoop > 0 && r.iterations == 1 && r.requests == [] && r.start == start0
    case Exhausted =>
      r.iterations == cfg.simLoop && |r.requests| == r.iterations &&
      (r.requests == [] ==> r.start == start0) &&
      (r.requests != [] ==>
         var last := r.requests[|r.requests| - 1];
         Continues(cfg.planner(last), cfg.end) && r.start == NextStart(cfg.planner(last), last.start))
    case GoalReached =>
      |r.requests| == r.iterations > 0 &&
      var last := r.requests[|r.requests| - 1];
      HasLookahead(cfg.planner(last)) && NearGoal(Lookahead(cfg.planner(last)), cfg.end) &&
      r.start == NextStart(cfg.planner(last), last.start)
    case PathTooShort =>
      |r.requests| == r.iterations > 0 &&
      var last := r.requests[|r.requests| - 1];
      !HasLookahead(cfg.planner(last)) && r.start == last.start
  }

  /** A trace extended by the next call made from the right start is a trace. */
  lemma TraceExtend(obs0: seq<ObstacleState>, dt: real, start0: Point, cfg: Config, requests: seq<PlanRequest>, request: PlanRequest)
    requires Trace(obs0, dt, start0, cfg, requests)
    requires IsRequest(obs0, dt, cfg, |requests|, request)
    requires requests == [] ==> request.start == start0
    requires requests != [] ==>
      var last := requests[|requests| - 1];
      Continues(cfg.planner(last), cfg.end) && request.start == NextStart(cfg.planner(last), last.start)
    ensures Trace(obs0, dt, start0, cfg, requests + [request])
  {
    var requests', n := requests + [request], |requests|;
    forall k | 0 <= k <= n
      ensures IsRequest(obs0, dt, cfg, k, requests'[k])
    {
      if k < n {
        assert requests'[k] == requests[k];
      }
    }
    forall k | 0 <= k < n
      ensures Continues(cfg.planner(requests'[k]), cfg.end)
      ensures requests'[k + 1].start == NextStart(cfg.planner(requests'[k]), requests'[k].start)
    {
      assert requests'[k] == requests[k];
      if k + 1 < n {
        assert requests'[k + 1] == requests[k + 1];
      }
    }
    if n > 0 {
      assert requests'[0] == requests[0];
    }
  }

  lemma {:induction false} RunFromExplained(
    obs0: seq<ObstacleState>, dt: real, start0: Point, cfg: Config, i: nat, start: Point, requests: seq<PlanRequest>)
    requires i <= cfg.simLoop && |obs0| > 0 && |requests| == i
    requires Trace(obs0, dt, start0, cfg, requests)
    requires requests == [] ==> start == start0
    requires requests != [] ==>
      Continues(cfg.planner(requests[i - 1]), cfg.end) &&
      start == NextStart(cfg.planner(requests[i - 1]), requests[i - 1].start)
    ensures Explains(obs0, dt, start0, cfg, RunFrom(IterateAll(obs0, dt, i), dt, start, cfg, i, requests))
    decreases cfg.simLoop - i
  {
    var obs := IterateAll(obs0, dt, i);
    if i < cfg.simLoop {
      IterateAllLast(obs0, dt, i);
      var advanced := StepAll(obs, dt);
      assert advanced == IterateAll(obs0, dt, i + 1);
      var request := PlanRequest(i, start, cfg.end, Boxes(advanced)[0], cfg.hyperparameters);
      var plan := cfg.planner(request);
      var requests' := requests + [request];
      assert IsRequest(obs0, dt, cfg, i, request);
      TraceExtend(obs0, dt, start0, cfg, requests, request);
      if Continues(plan, cfg.end) {
        RunFromExplained(obs0, dt, start0, cfg, i + 1, NextStart(plan, start), requests');
      }
    }
  }

  /** Every run is explained by its outcome (see Explains). */
  lemma RunExplained(obs0: seq<ObstacleState>, dt: real, start0: Point, cfg: Config)
    ensures Explains(obs0, dt, start0, cfg, Run(obs0, dt, start0, cfg))
  {
    if |obs0| > 0 {
      RunFromExplained(obs0, dt, start0, cfg, 0, start0, []);
    }
  }

  /** The loop body runs at most simLoop times; it runs exactly simLoop times
      when the budget is what stops it, and at least once when there is a budget. */
  lemma RunWithinBudget(obs0: seq<ObstacleState>, dt: real, start0: Point, cfg: Config)
    ensures var r := Run(obs0, dt, start0, cfg);
      r.iterations <= cfg.simLoop &&
      (r.outcome == Exhausted ==> r.iterations == cfg.simLoop) &&
      (cfg.simLoop > 0 ==> r.iterations >= 1)
  {
    RunExplained(obs0, dt, start0, cfg);
  }

  /** Each iteration advances the obstacles exactly once before the planner is
      called: call k sees the first obstacle as it is after k + 1 ticks, and the
      run leaves the obstacles advanced once per iteration. */
  lemma RunAdvancesBeforePlanning(obs0: seq<ObstacleState>, dt: real, start0: Point, cfg: Config)
    ensures var r := Run(obs0, dt, start0, cfg);
      r.obstacles == IterateAll(obs0, dt, r.iterations) &&
      (r.outcome != NoObstacleRow ==> |r.requests| == r.iterations) &&
      forall k :: 0 <= k < |r.requests| ==>
        r.requests[k].tick == k && r.requests[k].obs == IterateAll(obs0, dt, k + 1)[0].box
  {
    RunExplained(obs0, dt, start0, cfg);
    var r := Run(obs0, dt, start0, cfg);
    forall k | 0 <= k < |r.requests|
      ensures r.requests[k].tick == k && r.requests[k].obs == IterateAll(obs0, dt, k + 1)[0].box
    {
      assert IsRequest(obs0, dt, cfg, k, r.requests[k]);
    }
  }

  /** Every planner call receives the configured goal and options. */
  lemma RunKeepsEndAndHyperparameters(obs0: seq<ObstacleState>, dt: real, start0: Point, cfg: Config)
    ensures var r := Run(obs0, dt, start0, cfg);
      forall k :: 0 <= k < |r.requests| ==>
        r.requests[k].end == cfg.end && r.requests[k].hyperparameters == cfg.hyperparameters
  {
    RunExplained(obs0, dt, start0, cfg);
    var r := Run(obs0, dt, start0, cfg);
    forall k | 0 <= k < |r.requests|
      ensures r.requests[k].end == cfg.end && r.requests[k].hyperparameters == cfg.hyperparameters
    {
      assert IsRequest(obs0, dt, cfg, k, r.requests[k]);
    }
  }

  /** The first call starts from start0. After a successful answer the next call
      starts from that answer's second waypoint; after a failed one it starts
      from the same point as before. */
  lemma RunStartRule(obs0: seq<ObstacleState>, dt: real, start0: Point, cfg: Config)
    ensures var r := Run(obs0, dt, start0, cfg);
      (r.requests != [] ==> r.requests[0].start == start0) &&
      forall k :: 0 <= k < |r.requests| - 1 ==>
        var plan := cfg.planner(r.requests[k]);
        HasLookahead(plan) &&
        (plan.success ==> r.requests[k + 1].start == Lookahead(plan)) &&
        (!plan.success ==> r.requests[k + 1].start == r.requests[k].start)
  {
    RunExplained(obs0, dt, start0, cfg);
  }

  /** The loop stops on the first answer whose second waypoint is within 1.0 of
      the goal, whether or not that answer reports success. */
  lemma RunStopsAtFirstGoal(obs0: seq<ObstacleState>, dt: real, start0: Point, cfg: Config)
    ensures var r := Run(obs0, dt, start0, cfg);
      (forall k :: 0 <= k < |r.requests| - 1 ==>
         var plan := cfg.planner(r.requests[k]);
         HasLookahead(plan) && !NearGoal(Lookahead(plan), cfg.end)) &&
      (r.outcome == GoalReached <==>
         r.requests != [] &&
         HasLookahead(cfg.planner(r.requests[|r.requests| - 1])) &&
         NearGoal(Lookahead(cfg.planner(r.requests[|r.requests| - 1])), cfg.end))
  {
    RunExplained(obs0, dt, start0, cfg);
  }

  /** With a planner that always fails and never puts its second waypoint within
      1.0 of the goal, every call starts from start0, the start never moves, and
      the loop runs out its whole budget. */
  lemma AlwaysFailingPlannerExhausts(obs0: seq<ObstacleState>, dt: real, start0: Point, cfg: Config)
    requires |obs0| > 0
    requires forall request :: !cfg.planner(request).success && Continues(cfg.planner(request), cfg.end)
    ensures var r := Run(obs0, dt, start0, cfg);
      r.outcome == Exhausted && r.iterations == cfg.simLoop && r.start == start0 &&
      forall k :: 0 <= k < |r.requests| ==> r.requests[k].start == start0
  {
    RunExplained(obs0, dt, start0, cfg);
    var r := Run(obs0, dt, start0, cfg);
    var k := 0;
    while k < |r.requests|
      invariant k <= |r.requests|
      invariant forall j :: 0 <= j < k ==> r.requests[j].start == start0
    {
      if k > 0 {
        assert r.requests[k].start == NextStart(cfg.planner(r.requests[k - 1]), r.requests[k - 1].start);
      }
      k := k + 1;
    }
  }

  /** The goal test looks at the answer's second waypoint, not at the start: a
      failed answer whose second waypoint is the goal ends the loop after one
      iteration with the start still 40 away from the goal. */
  const GoalEchoPlanner: PlanRequest -> PlanResult :=
    (request: PlanRequest) => PlanResult([request.start.x, request.end.x], [request.start.y, request.end.y], false)

  lemma FailedAnswerCanEndRun(obs0: seq<ObstacleState>, dt: real, hyperparameters: Hyperparameters)
    requires |obs0| > 0
    ensures var r := Run(obs0, dt, Point(140.0, 60.0), Config(Point(180.0, 60.0), hyperparameters, 100, GoalEchoPlanner));
      r.outcome == GoalReached && r.iterations == 1 &&
      r.start == Point(140.0, 60.0) && !NearGoal(r.start, Point(180.0, 60.0))
  {
    var cfg := Config(Point(180.0, 60.0), hyperparameters, 100, GoalEchoPlanner);
    assert Boxes(StepAll(obs0, dt)) != [];
    assert Run(obs0, dt, Point(140.0, 60.0), cfg) == RunFrom(obs0, dt, Point(140.0, 60.0), cfg, 0, []);
  }

  /** A planner that always succeeds with a one-unit step along x. */
  const StepRightPlanner: PlanRequest -> PlanResult :=
    (request: PlanRequest) => PlanResult([request.start.x, request.start.x + 1.0], [request.start.y, request.start.y], true)

  lemma {:induction false} StepRightFrom(
    obs: seq<ObstacleState>, dt: real, hyperparameters: Hyperparameters, simLoop: nat, i: nat, requests: seq<PlanRequest>)
    requires 39 <= simLoop && i <= 38 && |obs| > 0
    ensures var r := RunFrom(obs, dt, Point(140.0 + i as real, 60.0),
                             Config(Point(180.0, 60.0), hyperparameters, simLoop, StepRightPlanner), i, requests);
      r.outcome == GoalReached && r.iterations == 39 && r.start == Point(179.0, 60.0)
    decreases 38 - i
  {
    var cfg := Config(Point(180.0, 60.0), hyperparameters, simLoop, StepRightPlanner);
    var advanced := StepAll(obs, dt);
    var request := PlanRequest(i, Point(140.0 + i as real, 60.0), cfg.end, Boxes(advanced)[0], hyperparameters);
    var plan := StepRightPlanner(request);
    assert Lookahead(plan) == Point(140.0 + (i + 1) as real, 60.0);
    if i < 38 {
      var d := 39.0 - i as real;
      assert SquaredDistance(Lookahead(plan), cfg.end) == d * d;
      assert d * d >= 2.0 * d >= 4.0;
      StepRightFrom(advanced, dt, hyperparameters, simLoop, i + 1, requests + [request]);
    }
  }

  /** With a planner that steps one unit toward the goal each time, the run from
      (140, 60) to (180, 60) reaches the goal on iteration 39 and ends with the
      start within 1.0 of the goal. */
  lemma StepRightPlannerReachesGoal(obs0: seq<ObstacleState>, dt: real, hyperparameters: Hyperparameters)
    requires |obs0| > 0
    ensures var r := Run(obs0, dt, Point(140.0, 60.0), Config(Point(180.0, 60.0), hyperparameters, 100, StepRightPlanner));
      r.outcome == GoalReached && r.iterations == 39 && NearGoal(r.start, Point(180.0, 60.0))
  {
    StepRightFrom(obs0, dt, hyperparameters, 100, 0, []);
  }

  /** The first two statements of an iteration: every obstacle takes one tick,
      then the boxes are copied out. */
  method Advance(handler: ObstacleHandler) returns (snapshot: seq<Box>)
    requires handler.Valid()
    modifies handler.obstacles, handler.Buffers()
    ensures handler.Valid() && handler.obstacles == old(handler.obstacles) && handler.stepSize == old(handler.stepSize)
    ensures handler.States() == StepAll(old(handler.States()), handler.stepSize)
    ensures snapshot == Boxes(handler.States())
  {
    handler.Transform();
    snapshot := handler.GetObstacles();
  }

  /** The loop of main over a live handler; proved to be Run on the handler's
      initial obstacle values. */
  method Simulate(
    handler: ObstacleHandler, start0: Point, end: Point, hyperparameters: Hyperparameters,
    simLoop: nat, planner: PlanRequest -> PlanResult)
    returns (outcome: Outcome, start: Point, iterations: nat, requests: seq<PlanRequest>)
    requires handler.Valid()
    modifies handler.obstacles, handler.Buffers()
    ensures handler.Valid() && handler.obstacles == old(handler.obstacles) && handler.stepSize == old(handler.stepSize)
    ensures var r := Run(old(handler.States()), handler.stepSize, start0, Config(end, hyperparameters, simLoop, planner));
      outcome == r.outcome && start == r.start && iterations == r.iterations &&
      requests == r.requests && handler.States() == r.obstacles
  {
    ghost var cfg := Config(end, hyperparameters, simLoop, planner);
    ghost var obs0 := handler.States();
    outcome, start, requests := Exhausted, start0, [];
    var i := 0;
    while i < simLoop
      invariant i <= simLoop
      invariant handler.Valid() && handler.obstacles == old(handler.obstacles) && handler.stepSize == old(handler.stepSize)
      invariant Run(obs0, handler.stepSize, start0, cfg) == RunFrom(handler.States(), handler.stepSize, start, cfg, i, requests)
    {
      var snapshot := Advance(handler);
      if |snapshot| == 0 {
        outcome, i := NoObstacleRow, i + 1;
        break;
      }
      var request := PlanRequest(i, start, end, snapshot[0], hyperparameters);
      var plan := planner(request);
      requests := requests + [request];
      if |plan.pathX| < 2 || |plan.pathY| < 2 {
        outcome, i := PathTooShort, i + 1;
        break;
      }
      if plan.success {
        start := Point(plan.pathX[1], plan.pathY[1]);
      }
      i := i + 1;
      if NearGoal(Point(plan.pathX[1], plan.pathY[1]), end) {
        outcome := GoalReached;
        break;
      }
    }
    iterations := i;
  }
}
