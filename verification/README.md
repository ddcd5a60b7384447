# Piecewise-moving obstacles and the receding-horizon loop of the RRT* debug script

This project models two pieces of the RRT* debug setup.

The first is the obstacle model in `RRTStar/obstacle_handler.py`. An `Obstacle` holds an
axis-aligned box `[x_min, y_min, x_max, y_max]` in a four-element buffer. It also holds two
parallel queues: the per-tick displacement of each movement segment and the duration of each
segment. A time accumulator records how long the front segment has run. One tick translates
the box by the front displacement and adds the tick length to the accumulator. When the
accumulator reaches the front duration, both queue heads are dropped and the accumulator
restarts at 0. A static obstacle, or one whose schedule is used up, does not move.
`Obstacle_Handler` (class `ObstacleHandler` here) keeps the obstacles in insertion order,
advances all of them by one fixed tick length, and hands out a copy of their boxes.

The second is the simulation loop of `main` in `RRTStar/rrt_star.py`. Each iteration:

1. advances the obstacles;
2. takes a snapshot;
3. hands the first row of the snapshot, the current start, the goal and the options to the
   planner;
4. on success, moves the start to the second waypoint of the returned path;
5. stops when that waypoint is within 1.0 of the goal, or after `sim_loop` iterations.

The planner is a foreign call, so it is a function parameter here. Each request carries the
iteration index, which lets a randomised planner answer differently on every call.

The project is split into modules:

- `ObstacleMotion` (`obstacle_motion.dfy`) holds the value-level model:
  - `Step` is one tick of one obstacle;
  - `Iterate` is n ticks of one obstacle;
  - `StepAll` and `IterateAll` do the same for an ordered collection;
  - lemmas state what those ticks preserve and how a schedule is consumed.
- `Obstacles` (`obstacles.dfy`) holds the two classes, with the fields the source updates in
  place. Each method is proved to follow `Step` / `StepAll`, through `State()` / `States()`,
  which map live objects to values.
- `ControlLoop` (`control_loop.dfy`) holds the pure specification of the loop (`RunFrom` /
  `Run`), a description of every possible run (`Explains`) proved for all runs, and the
  corollaries. It also holds the method `Simulate`, the loop over a live handler, with its
  early `break`s, proved equal to `Run`.
- `DebugScenario` (`debug_scenario.dfy`) holds the concrete set-up of `main`: three obstacles,
  start (140, 60), goal (180, 60), a budget of 100 iterations, and what can be proved about
  that set-up for any planner.

Real numbers stand for Python floats. Nothing here models rounding.

Where the code behaves unexpectedly, the model follows the code:

- The goal test (`RRTStar/rrt_star.py:86`) looks at the second waypoint of the latest answer,
  even when that answer reports failure. It does not look at the updated start.
  `ControlLoop.FailedAnswerCanEndRun` shows a run that ends with
  `GoalReached` after one iteration while the start is still 40 away from the goal.
- Only the first obstacle's row of the snapshot reaches the planner
  (`RRTStar/rrt_star.py:73` indexes the snapshot with `[0]`). `PlanRequest.obs` is therefore a
  single box.
- `RRTStar/rrt_star.py:6` imports `ObstacleHandler`, but the class is declared as
  `Obstacle_Handler` (`RRTStar/obstacle_handler.py:32`). The model uses one class and names it
  `ObstacleHandler`.
- The comment at `RRTStar/rrt_star.py:34` describes a different schedule from the one the code
  builds on line 35. `DebugScenario.FirstSchedule` follows the code: half a unit left for 10
  ticks, half a unit right for 10, then one unit down for 5.
- Two places in the loop index past the end of a list and would raise `IndexError`. The model
  turns them into outcomes:
  - an empty snapshot, at line 73, becomes `NoObstacleRow`;
  - an answer with fewer than two waypoints, at line 82 or line 86, becomes `PathTooShort`.

## Model

| member | source | states |
|---|---|---|
| ObstacleMotion.Translate | RRTStar/obstacle_handler.py:14-18 | The box moves rigidly: width and height are kept, and the lower-left corner moves by exactly (dx, dy). |
| ObstacleMotion.Step | RRTStar/obstacle_handler.py:11-28 | The dynamic flag and the box size are kept. A static or exhausted obstacle is returned unchanged. Otherwise the box is translated by the front velocity. The schedule is unchanged or loses exactly its front segment, and it loses it if and only if elapsed + dt reaches the front duration. A popped segment resets the elapsed time to 0; otherwise exactly dt is added. |
| ObstacleMotion.StepKeepsWellFormed | RRTStar/obstacle_handler.py:19-24 | With positive durations, the time spent in the front segment stays below that segment's duration after a tick. |
| ObstacleMotion.IterateKeepsShape | RRTStar/obstacle_handler.py:11-28 | After any number of ticks, the dynamic flag, width and height are kept, so an ordered box stays ordered, and well-formedness is kept. The remaining schedule is a suffix of the original, at most one segment shorter per tick. |
| ObstacleMotion.ExhaustedStaysStatic | RRTStar/obstacle_handler.py:12-28 | An obstacle that does not move on the next tick (static, or schedule empty) never moves or changes again. |
| ObstacleMotion.StaticFrom | RRTStar/obstacle_handler.py:12-24 | Once an obstacle has stopped moving after m ticks, every later tick count gives the same state. |
| ObstacleMotion.SegmentInProgress | RRTStar/obstacle_handler.py:13-20 | With unit ticks, k ticks that stay inside the front segment translate the box by k times its velocity and add k to the elapsed time. |
| ObstacleMotion.SegmentConsumed | RRTStar/obstacle_handler.py:19-24 | With unit ticks, a fresh segment of integer duration d is consumed after exactly d ticks, and not earlier. It moves the box by d times its velocity, then leaves the next segment at the front with nothing elapsed. |
| ObstacleMotion.IterateSplit | RRTStar/obstacle_handler.py:11-28 | m + n ticks are m ticks followed by n ticks. |
| ObstacleMotion.StepAll | RRTStar/obstacle_handler.py:50-52 | One tick of a collection keeps its length and applies Step to each obstacle at its own position. |
| ObstacleMotion.IterateAllAt | RRTStar/obstacle_handler.py:50-52 | After n ticks of the collection, the k-th obstacle is the k-th obstacle advanced n ticks on its own. Order is kept and obstacles do not interact. |
| ObstacleMotion.IterateAllLast | RRTStar/obstacle_handler.py:50-52 | n + 1 ticks of a collection are n ticks followed by one more tick. |
| Obstacles.Obstacle.constructor | RRTStar/obstacle_handler.py:4-9 | The new obstacle keeps the buffer it was given. It stands for its box, flag and schedule with nothing elapsed. |
| Obstacles.Obstacle.Transform | RRTStar/obstacle_handler.py:11-28 | The new state is Step of the old state, and the lists stay parallel. Either both lists are unchanged, or both have lost their head. A static or exhausted obstacle changes no field. The returned box is the new box. |
| Obstacles.StatesOfAppend | RRTStar/obstacle_handler.py:47-48 | The states of a list with one more obstacle are the old states followed by that obstacle's state. |
| Obstacles.ObstacleHandler.constructor | RRTStar/obstacle_handler.py:43-45 | A new handler holds no obstacles and the given tick length. |
| Obstacles.ObstacleHandler.AddObstacle | RRTStar/obstacle_handler.py:47-48 | The obstacle is appended at the end; nothing is removed or reordered. The states are the old states followed by the new obstacle's state, and the tick length is unchanged. |
| Obstacles.ObstacleHandler.TransformAt | RRTStar/obstacle_handler.py:51-52 | Advancing the obstacle at one position changes that obstacle's state by Step and no other obstacle's state. |
| Obstacles.ObstacleHandler.Transform | RRTStar/obstacle_handler.py:50-52 | The new states are StepAll of the old states with the handler's tick length. The list of obstacles (length and order) and the tick length are unchanged. |
| Obstacles.ObstacleHandler.GetObstacles | RRTStar/obstacle_handler.py:54-58 | The snapshot holds one box per obstacle, in insertion order, and equals the boxes of the current states. The method changes nothing, so two calls with no tick in between return the same value. |
| ControlLoop.NextStart | RRTStar/rrt_star.py:81-84 | After a successful answer the start becomes the answer's second waypoint (pathX[1], pathY[1]); after a failed answer it stays where it was. |
| ControlLoop.RunFrom | RRTStar/rrt_star.py:67-88 | The loop from iteration i on. Each iteration ticks the obstacles, snapshots them, and calls the planner on row 0 with the current start. An empty snapshot (the IndexError at line 73) ends the run as NoObstacleRow. An answer with fewer than two waypoints (the IndexError at line 82 or 86) ends it as PathTooShort. The goal test is made on the answer's second waypoint, and the budget ends the run as Exhausted. The contract proves the run ends between iteration i and the budget, ends exactly at the budget when Exhausted, never shortens the list of calls already made, and ends as NoObstacleRow exactly when there are no obstacles and budget is left. |
| ControlLoop.RunFromKeepsPrefix | RRTStar/rrt_star.py:67-88 | The loop only appends planner calls: the calls already made before iteration i stay, in order, at the head of the run's list of calls. |
| ControlLoop.Run | RRTStar/rrt_star.py:67-88 | The whole loop from iteration 0 with no calls made yet. It uses at most the budget, and it ends as NoObstacleRow exactly when there are no obstacles and the budget is positive. |
| ControlLoop.RunFromExplained | RRTStar/rrt_star.py:67-88 | Induction over the iterations: every run from iteration i on, continuing a valid trace, is explained by its outcome. |
| ControlLoop.TraceExtend | RRTStar/rrt_star.py:72-86 | A trace extended by the next call, made from the start the last answer left, is still a trace. |
| ControlLoop.RunExplained | RRTStar/rrt_star.py:67-88 | Every run uses at most the budget. Its obstacles are advanced once per iteration. Its planner calls form a trace. It stops exactly for the reason its outcome names: budget, goal, empty snapshot, or short path. |
| ControlLoop.RunWithinBudget | RRTStar/rrt_star.py:63-67 | The loop body runs at most simLoop times. It runs exactly simLoop times when the budget is what stops it, and at least once when there is a budget. |
| ControlLoop.RunAdvancesBeforePlanning | RRTStar/rrt_star.py:72-76 | Call k sees the first obstacle as it is after k + 1 ticks, so the obstacles are advanced exactly once before each snapshot and call. The run leaves the obstacles advanced once per iteration. |
| ControlLoop.RunKeepsEndAndHyperparameters | RRTStar/rrt_star.py:52-76 | Every planner call receives the configured goal and options unchanged. |
| ControlLoop.RunStartRule | RRTStar/rrt_star.py:81-84 | The first call starts from the initial start. After a successful answer, the next call starts from that answer's second waypoint; after a failed one, it starts from the same point as before. |
| ControlLoop.RunStopsAtFirstGoal | RRTStar/rrt_star.py:86-88 | Every answer but the last had a second waypoint farther than 1.0 from the goal. The outcome is GoalReached if and only if the last answer's second waypoint is within 1.0 of the goal, whether or not that answer reported success. |
| ControlLoop.AlwaysFailingPlannerExhausts | RRTStar/rrt_star.py:67-88 | With a planner that always fails and never comes within 1.0 of the goal, every call starts from the initial start, the start never moves, and exactly simLoop iterations run. |
| ControlLoop.FailedAnswerCanEndRun | RRTStar/rrt_star.py:81-88 | A failed answer whose second waypoint is the goal ends the loop after one iteration with GoalReached, while the start stays at (140, 60), not within 1.0 of the goal. |
| ControlLoop.StepRightFrom | RRTStar/rrt_star.py:67-88 | From iteration i ≤ 38 at (140 + i, 60), a planner that steps one unit right reaches the goal on iteration 39 at (179, 60). |
| ControlLoop.StepRightPlannerReachesGoal | RRTStar/rrt_star.py:67-88 | From (140, 60) to (180, 60), with any non-empty obstacle list, a planner that steps one unit toward the goal ends in GoalReached after 39 iterations, with the start within 1.0 of the goal. |
| ControlLoop.Advance | RRTStar/rrt_star.py:72-73 | The handler is advanced by one tick: its states become StepAll of the old states. The snapshot then equals the boxes of the new states. |
| ControlLoop.Simulate | RRTStar/rrt_star.py:67-88 | The loop over a live handler returns the outcome, final start, iteration count and planner calls of Run on the handler's initial states. It leaves the handler with Run's final obstacle states, and keeps its list of obstacles and tick length. |
| DebugScenario.DebugListsMatchSchedules | RRTStar/rrt_star.py:35-39 | The movement and duration lists passed in main zip to the two schedules. |
| DebugScenario.FirstScheduleAt20 | RRTStar/rrt_star.py:35 | From any box, an obstacle on the first schedule is back at that box after 20 unit ticks, with only the last segment left. |
| DebugScenario.FirstScheduleAt25 | RRTStar/rrt_star.py:35 | After 25 unit ticks, the obstacle is 5 below its starting box and its schedule is empty. |
| DebugScenario.FirstScheduleRoundTrip | RRTStar/rrt_star.py:35 | The obstacle is back at its box after 20 ticks. From tick 25 on, it sits 5 below that box and never moves again. |
| DebugScenario.PlannerViewSettles | RRTStar/rrt_star.py:22-73 | For any planner, from the 25th call on, the box handed to the planner is always [158, 53, 162, 57]. |
| DebugScenario.InitialsSnoc | RRTStar/rrt_star.py:35-44 | The initial states of one more setup are the old ones followed by that setup's state. |
| DebugScenario.DebugSetupsFit | RRTStar/rrt_star.py:21-44 | The three constructions of main are well-formed, and they stand for the three initial obstacle states. |
| DebugScenario.NewObstacle | RRTStar/rrt_star.py:35-43 | A freshly allocated obstacle, with a fresh buffer, stands for the given initial state. |
| DebugScenario.AddNewObstacle | RRTStar/rrt_star.py:35-44 | Constructing an obstacle and adding it appends exactly its initial state to the handler's states. |
| DebugScenario.BuildHandler | RRTStar/rrt_star.py:29-44 | The handler holds one fresh obstacle per setup, in order, and its states are the setups' initial states. |
| DebugScenario.RunDebugScenario | RRTStar/rrt_star.py:17-88 | Building the handler as main does and running the loop gives Run on the three initial obstacles, from (140, 60) to (180, 60), with a budget of 100. It uses at most 100 iterations. |

## Left out

- The RRT* planner (`rrt_star_wrapper.apply_rrt_star`) is not part of this model. It is a function parameter, so every property here holds for every planner that does not modify its arguments.
- The planner is assumed to leave the dictionaries it is handed unchanged. The source passes it the mutable `initial_conditions` and `hyperparameters` dicts (`RRTStar/rrt_star.py:46-58, 76`), which a planner could rewrite; the model's planner is a pure function of a `PlanRequest` value and cannot.
- ControlLoop.RunKeepsEndAndHyperparameters: relies on that assumption. A planner that rewrote `initial_conditions['end']` or `hyperparameters` would change what later calls receive.
- ControlLoop.RunStartRule: its failure case relies on that assumption. A planner that rewrote `initial_conditions['start']` and then failed would move the next call's start.
- Plotting, the escape-key handler, pausing and saving frames (`RRTStar/rrt_star.py:90-121, 125-128`) are not modelled: they are display and file output. That block's `(obs, dynamic) = obs_handler.get_obstacles()` (line 98) would fail with three obstacles on the first iteration that does not stop; since the block is not modelled, this failure is not either.
- Printing and timing are not modelled: `time.time()`, `total_time` and the average at the end. They are console output and wall-clock values.
- Floating-point rounding is not modelled. `np.hypot(...) <= 1.0` becomes a squared distance `<= 1.0` over reals.
- numpy arrays are not modelled. The snapshot is a sequence of `Box` values, so it cannot alias the live buffers.
- The Python list that `main` passes as `coords` stays shared with `conds`. That sharing is not modelled: each obstacle gets its own buffer.
- Obstacles.ObstacleHandler.constructor: takes the tick length as a required argument. The source's default of 1.0 (`RRTStar/obstacle_handler.py:43`) is not modelled; the scenario passes 1.0 explicitly, as `main` does.
- Obstacles.Obstacle: the movement and duration lists are `seq` values held by the obstacle. The source keeps the caller's own list objects and pops them in place (`RRTStar/obstacle_handler.py:7-8, 22-23`). The model therefore does not capture that the caller's lists shrink as well, nor that two obstacles given the same lists would consume each other's schedule.
- Obstacles.ObstacleHandler.AddObstacle: requires that the new obstacle shares no coordinate buffer with one already held. The source accepts the same obstacle, or the same list, twice, and would then move that box twice per tick. The class model needs distinct buffers to reason about each obstacle on its own.
- Obstacles.Obstacle.constructor: requires parallel movement and duration lists. The source does not check this: unequal lists raise `IndexError` or leave extra entries. A dynamic obstacle built with no lists (`None`) raises `TypeError` on its first tick; a static one is given empty lists here.
