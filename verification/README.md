# EasyFullControl command layer, modelled in Dafny

This project models the command layer of the RMF fleet adapter's
`EasyFullControl` API (`rmf_fleet_adapter/src/rmf_fleet_adapter/agv/EasyFullControl.cpp`).
That layer sits between the traffic planner and a user's robot driver. It
turns a plan into navigation commands that are handed to the driver one at
a time. It tracks which command is live. It reconciles the poses the
driver reports with the navigation graph. It lets a command override the
robot's schedule with a stubborn route.

The modules follow the structure of the source file:

- `Types` (`types.dfy`): the navigation graph, plan waypoints, plan starts,
  destinations and the fleet's navigation parameters, as values.
- `Robot` (`robot.dfy`): the objects the layer shares with the rest of the
  adapter.
  - `ActivityIdentifier`: its `live` flag stands for a non-empty update
    function.
  - `StubbornOverride`: the token behind a `Stubbornness` handle.
  - `RobotContext`: its calls into the itinerary, the planner and the
    location state are kept as a ghost log of `Effect`s.
- `Location` (`location.dfy`): `Data::update_location`'s decision
  structure.
  - The hinted waypoints are tried first, then the hinted lanes, then the
    whole-graph search.
  - Distances, lane lengths and projections of the reported point are
    abstract inputs (`Geometry`).
  - The whole-graph result of `compute_plan_starts` is the input
    `fallback`.
  - `Reconciled` states what one update must produce, and
    `ReconciledDeterministic` shows that this statement leaves no choice.
- `Execution` (`execution.dfy`): `CommandExecution::Implementation` and
  `ProgressTracker` as classes.
  - `CommandData` holds the data of a command and its schedule override.
  - `CommandExecution` holds a command's identifier and its `finisher`.
  - `ProgressTracker` holds the reversed queue, the current identifier and
    the one-shot completion flag.
  - Ghost state records the tracker's original queue, the commands begun,
    the number of completions and the number of `next()` calls.
- `PathFollow` (`pathfollow.dfy`): `follow_new_path`'s loops.
  - the search for the initial map;
  - the scan for where the plan connects to the robot's current start set;
  - the clamp of the first start index;
  - the loop that builds one command per step, merging turns in place
    when rotation commands are skipped.
- `Docking` (`docking.dfy`): `DockFinder` over a tagged datatype of lane
  events, and `dock`'s first-match search over lanes.
- `Handle` (`handle.dfy`): `EasyCommandHandle` with `stop`,
  `follow_new_path` and `dock`.
- `Registry` (`registry.dfy`): the name registry in
  `EasyFullControl::add_robot`.

Tasks scheduled on the robot's worker are modelled as running at once, in
the order they are scheduled. A `weak_ptr` that may have expired is
modelled in one of three ways:

- a nullable reference: the robot context;
- an `alive` flag: the progress tracker, which only the command handle
  owns;
- an `expired` flag: the stubbornness token, gone once the caller drops
  its handle.

The user's callbacks are modelled as follows:

- Beginning a command appends it to the tracker's `begun` log. The
  command's `request` says which callback receives it and with what
  destination or dock name.
- The stop callback's calls are the handle's `stopRequests` log.

Two behaviours of the code are worth knowing when reading the model:

- A new path (lines 977-980) or a dock command (lines 1134-1137) replaces
  the handle's tracker without clearing the identifier of the command that
  was current. So the replaced command stays live (`okay()`) beside the new
  one, until it is finished or its identifier is cleared some other way.
  `FollowNewPath` and `Dock` state that the previous identifier keeps its
  liveness.
- `EasyRobotUpdateHandle::update_position` calls the identifier's update
  function without checking that it is still set (lines 1209-1212). That
  function is not part of this model.

## Model

| member | source | states |
|---|---|---|
| Robot.StubbornOverride.Drop | rmf_fleet_adapter/src/rmf_fleet_adapter/agv/EasyFullControl.cpp:59-70 | once the caller's handle is gone, the token is expired and no longer holds stubbornness, so an override can no longer reach it |
| Robot.RobotContext.AssignPlanId | rmf_fleet_adapter/src/rmf_fleet_adapter/agv/EasyFullControl.cpp:466 | each plan id drawn from the itinerary is fresh: it is the next unused id, the counter moves past it, and the draw is logged |
| Execution.Reversed | rmf_fleet_adapter/src/rmf_fleet_adapter/agv/EasyFullControl.cpp:663 | the reversed queue has the queue's length |
| Execution.ReversedAppend | rmf_fleet_adapter/src/rmf_fleet_adapter/agv/EasyFullControl.cpp:663 | reversing a concatenation swaps the reversed parts |
| Execution.ReversedElements | rmf_fleet_adapter/src/rmf_fleet_adapter/agv/EasyFullControl.cpp:663 | the reversed queue holds exactly the commands of the queue |
| Execution.ReversedTwice | rmf_fleet_adapter/src/rmf_fleet_adapter/agv/EasyFullControl.cpp:624-626 | reversing the reversed queue gives back the queue, so popping from the back yields the commands in their original order |
| Execution.ReversedLast | rmf_fleet_adapter/src/rmf_fleet_adapter/agv/EasyFullControl.cpp:639-640 | the back of a reversed non-empty queue is the queue's first command, so it is the first one `next()` pops |
| Execution.CommandData.ReleaseStubbornness | rmf_fleet_adapter/src/rmf_fleet_adapter/agv/EasyFullControl.cpp:88-98 | afterwards the override's token holds no stubbornness and its expiry is unchanged; a token that held nothing is left untouched, so a second release changes nothing |
| Execution.CommandData.UpdateLocation | rmf_fleet_adapter/src/rmf_fleet_adapter/agv/EasyFullControl.cpp:100-382 | under an override: a delay for the override's plan id when its route has points, then the whole-graph starts when there is a planner. Without an override: with no planner, nothing is written. Otherwise, for the unique reconciliation: an abort leaves the context untouched; any other result writes exactly its starts, then reports an arrival estimate for the last hinted waypoint when there is one |
| Execution.CommandExecution.Make | rmf_fleet_adapter/src/rmf_fleet_adapter/agv/EasyFullControl.cpp:477-505 | a new command has a fresh live identifier and no finisher yet, so it is okay |
| Execution.CommandExecution.Okay | rmf_fleet_adapter/src/rmf_fleet_adapter/agv/EasyFullControl.cpp:519-532 | a command without an identifier is never okay; with one, it is okay while the identifier holds its update function. `Make` yields an okay command, and `Finish` with the context present leaves it not okay |
| Execution.CommandExecution.Finish | rmf_fleet_adapter/src/rmf_fleet_adapter/agv/EasyFullControl.cpp:392-423 | without the context, or once the identifier is cleared, nothing changes, so a second finish is a no-op. With the context present, `okay()` (lines 519-532) is false afterwards. On the first call: under an override, stubbornness is released, the override token's expiry is left as it was, and exactly one replan is requested; the robot's location, planner and plan ids stay as they were, and the tracker is not advanced. Otherwise a tracker still held by someone advances exactly once and stays held: with commands waiting, the next one is begun, becomes current and is wired back to the tracker, and the completion is not run; with none waiting, the completion runs. Only the tracker and that command can change. A dropped tracker (after a stop or a replacement) is untouched |
| Execution.CommandExecution.OverrideSchedule | rmf_fleet_adapter/src/rmf_fleet_adapter/agv/EasyFullControl.cpp:425-475 | the returned token is fresh. On a finished command, without the context or without a planner, nothing changes and the token holds nothing. Otherwise: the previous token is released and its expiry is unchanged; the planner stays as it was; the next plan id carries the new route to the itinerary; the override records that route, plan id and token; the robot becomes stubborn and the token holds that stubbornness |
| Execution.ProgressTracker.Make | rmf_fleet_adapter/src/rmf_fleet_adapter/agv/EasyFullControl.cpp:659-668 | a new tracker keeps its queue reversed, has begun nothing, has not completed, and has no current identifier |
| Execution.ProgressTracker.Next | rmf_fleet_adapter/src/rmf_fleet_adapter/agv/EasyFullControl.cpp:630-657 | with commands waiting, it begins the next command of the original queue in order: that command becomes current, its finisher is wired back to this tracker, and the completion flag is untouched. No other waiting command is touched. With none waiting, the current identifier becomes null and the completion has run. Throughout: the begun commands followed by the waiting ones are the original queue; the completion runs at most once and only with nothing waiting; once it has run, every command has been begun |
| Location.ScanWaypoints | rmf_fleet_adapter/src/rmf_fleet_adapter/agv/EasyFullControl.cpp:126-153 | an out-of-graph hinted waypoint is reported exactly when there is one; no match exactly when no hint is within the merge distance; a match is the closest eligible hint, the earliest winning ties |
| Location.MatchedWaypointUnique | rmf_fleet_adapter/src/rmf_fleet_adapter/agv/EasyFullControl.cpp:146-151 | the strict-minimum, earliest-wins rule picks at most one hinted waypoint |
| Location.ExitStarts | rmf_fleet_adapter/src/rmf_fleet_adapter/agv/EasyFullControl.cpp:161-187 | every start comes from an open lane of the list, sitting at that lane's exit; every open lane of the list yields its start |
| Location.LaneStarts | rmf_fleet_adapter/src/rmf_fleet_adapter/agv/EasyFullControl.cpp:233-247 | a robot on a lane starts at the lane's exit on that lane, and, exactly when the graph has a lane back from the exit to the entry, also at the entry on that reverse lane; nothing else |
| Location.StartsAtWaypoint | rmf_fleet_adapter/src/rmf_fleet_adapter/agv/EasyFullControl.cpp:157-188 | aborts exactly when a lane leaving the waypoint is outside the graph; otherwise the waypoint's own start followed by one start per open leaving lane |
| Location.ScanLanes | rmf_fleet_adapter/src/rmf_fleet_adapter/agv/EasyFullControl.cpp:191-231 | an out-of-graph hinted lane is reported exactly when there is one; closed lanes and lanes the point does not project onto are passed over; a match is the closest eligible lane, the earliest winning ties |
| Location.MatchedLaneUnique | rmf_fleet_adapter/src/rmf_fleet_adapter/agv/EasyFullControl.cpp:224-230 | the strict-minimum, earliest-wins rule picks at most one hinted lane |
| Location.ReconciledDeterministic | rmf_fleet_adapter/src/rmf_fleet_adapter/agv/EasyFullControl.cpp:124-259 | the statement of what one update produces admits exactly one result: one of abort, waypoint match, lane match or whole-graph fallback, with its starts |
| Location.Reconcile | rmf_fleet_adapter/src/rmf_fleet_adapter/agv/EasyFullControl.cpp:124-259 | the scans produce a result meeting that statement. Hinted lanes count only when no hinted waypoint is eligible, and the whole-graph fallback only when no hinted lane is eligible either. A lane match yields its exit start, plus its entry start through the reverse lane when there is one. Any out-of-range index aborts |
| PathFollow.FindInitialMap | rmf_fleet_adapter/src/rmf_fleet_adapter/agv/EasyFullControl.cpp:800-823 | no map exactly when no plan waypoint is on the graph; otherwise the map of the first plan waypoint that is |
| PathFollow.MatchWaypoint | rmf_fleet_adapter/src/rmf_fleet_adapter/agv/EasyFullControl.cpp:833-843 | true exactly when some current start sits on the plan waypoint's graph waypoint |
| PathFollow.MatchLane | rmf_fleet_adapter/src/rmf_fleet_adapter/agv/EasyFullControl.cpp:845-861 | true exactly when some current start is on one of the plan waypoint's approach lanes |
| PathFollow.ConnectionAt | rmf_fleet_adapter/src/rmf_fleet_adapter/agv/EasyFullControl.cpp:830-862 | what one plan index contributes to the scan lies at that index or just before it: a lane hit gives the index before, a waypoint hit the index itself |
| PathFollow.LastConnection | rmf_fleet_adapter/src/rmf_fleet_adapter/agv/EasyFullControl.cpp:828-862 | the connection of a scan over a prefix lies inside that prefix |
| PathFollow.LastConnectionIsLast | rmf_fleet_adapter/src/rmf_fleet_adapter/agv/EasyFullControl.cpp:828-870 | the scan finds nothing exactly when no plan index connects, and otherwise it finds what the last connecting plan index contributes |
| PathFollow.FindConnection | rmf_fleet_adapter/src/rmf_fleet_adapter/agv/EasyFullControl.cpp:828-862 | the nested loops compute the scan's connection, the last match in scan order winning, and it is a plan index |
| PathFollow.SizeSub | rmf_fleet_adapter/src/rmf_fleet_adapter/agv/EasyFullControl.cpp:872-875 | unsigned size arithmetic: the difference when it is not negative, otherwise wrapped around the size range |
| PathFollow.FirstApproachAsWritten | rmf_fleet_adapter/src/rmf_fleet_adapter/agv/EasyFullControl.cpp:872-876 | as written: a connection before the last plan index is kept, and one at the last index is pulled back to the one before it |
| PathFollow.SingleWaypointPlanUnderflows | rmf_fleet_adapter/src/rmf_fleet_adapter/agv/EasyFullControl.cpp:872-886 | as written, a one-waypoint plan that connects gives a start index of the largest size value and a next index that wraps to 0. The command loop then runs and reads the plan outside its only entry |
| PathFollow.FirstApproach | rmf_fleet_adapter/src/rmf_fleet_adapter/agv/EasyFullControl.cpp:872-879 | from two plan waypoints on, the first command starts before the last plan index: at the connection, or pulled back to the one before last. With fewer than two there is no command |
| PathFollow.FirstApproachAgrees | rmf_fleet_adapter/src/rmf_fleet_adapter/agv/EasyFullControl.cpp:872-876 | from two plan waypoints on, the corrected start index equals the one the code computes |
| PathFollow.CommandWaypoints | rmf_fleet_adapter/src/rmf_fleet_adapter/agv/EasyFullControl.cpp:883-905 | the command's waypoint list has no duplicates. It starts with the graph waypoint of the step's start when there is one. It holds exactly that waypoint and the entry and exit of every approach lane |
| PathFollow.NextCommand | rmf_fleet_adapter/src/rmf_fleet_adapter/agv/EasyFullControl.cpp:883-945 | one step's command. It targets the next plan index, or the one after that when that index is only a turn in place and rotations are skipped; the skip is reported exactly then. It takes its position from the target, its graph index from the next plan index, and that index's map or else the previous map. Its lanes are the next index's approach lanes |
| PathFollow.ChainExtend | rmf_fleet_adapter/src/rmf_fleet_adapter/agv/EasyFullControl.cpp:878-975 | appending the command that leaves where the last one ended keeps the commands chained |
| PathFollow.ChainIncreases | rmf_fleet_adapter/src/rmf_fleet_adapter/agv/EasyFullControl.cpp:921-974 | along a chain of commands, target indices strictly increase |
| PathFollow.CoverExtend | rmf_fleet_adapter/src/rmf_fleet_adapter/agv/EasyFullControl.cpp:921-974 | a command that ends at the next uncovered plan index, or one past a skipped turn in place, extends the range of plan indices reached |
| PathFollow.Decompose | rmf_fleet_adapter/src/rmf_fleet_adapter/agv/EasyFullControl.cpp:872-975 | from the first start index: each command leaves where the previous one ended, target indices strictly increase, and the last targets the final plan index. Every plan index after the start is a target or a skipped turn in place. There is at least one command exactly when the plan has two waypoints or more |
| Docking.DockFinder.constructor | rmf_fleet_adapter/src/rmf_fleet_adapter/agv/EasyFullControl.cpp:988-992 | a new finder looks for the given dock and has found nothing |
| Docking.DockFinder.Execute | rmf_fleet_adapter/src/rmf_fleet_adapter/agv/EasyFullControl.cpp:994-1007 | the finder has found its dock exactly when it had already, or the event is a dock event with the name it looks for; every other kind of event changes nothing |
| Docking.FindDockLane | rmf_fleet_adapter/src/rmf_fleet_adapter/agv/EasyFullControl.cpp:1043-1064 | no lane exactly when no lane's entry or exit event is a dock of that name; otherwise the lowest-numbered such lane |
| Handle.EasyCommandHandle.constructor | rmf_fleet_adapter/src/rmf_fleet_adapter/agv/EasyFullControl.cpp:726-737 | a new handle has no context and no tracker |
| Handle.EasyCommandHandle.Stop | rmf_fleet_adapter/src/rmf_fleet_adapter/agv/EasyFullControl.cpp:740-759 | without a tracker, or without a current identifier, nothing changes, so a repeated stop is a no-op. Otherwise: the current identifier is cleared; the tracker is dropped, so no later finish can advance it; the stop callback receives that identifier once |
| Handle.EasyCommandHandle.StartTracker | rmf_fleet_adapter/src/rmf_fleet_adapter/agv/EasyFullControl.cpp:977-980 | the previous tracker is dropped. A fresh tracker over the queue has begun its first command, or completed at once on an empty queue. Only the first command is touched, no command's schedule override changes, and the identifier of the command that was current keeps its liveness |
| Handle.BeginQueue | rmf_fleet_adapter/src/rmf_fleet_adapter/agv/EasyFullControl.cpp:977-980 | a fresh tracker over the queue (made as at lines 659-668), after its first `next()`: the first command is begun, current and wired back to it, or the completion has run on an empty queue |
| Handle.EasyCommandHandle.NavigationQueue | rmf_fleet_adapter/src/rmf_fleet_adapter/agv/EasyFullControl.cpp:947-968 | one fresh command per step, in order. Each navigates to its step's destination with the step's waypoints and lanes, ends facing the destination's heading, and estimates arrival at the step's target. Each is built with fresh data that has no schedule override (line 954), so it can be finished or overridden. The commands, their identifiers and their data are pairwise distinct, so finishing one leaves the others live |
| Handle.EasyCommandHandle.FollowFromLocation | rmf_fleet_adapter/src/rmf_fleet_adapter/agv/EasyFullControl.cpp:825-981 | once the plan is known to start on its initial map: when no plan waypoint or approach lane meets the robot's current location, exactly one replan is requested and the location, planner and plan ids stay as they were; otherwise the robot context is untouched, the old tracker is dropped, and a fresh tracker follows the plan from the last connection found. Either way, the identifier of the command that was current keeps its liveness |
| Handle.EasyCommandHandle.FollowConnected | rmf_fleet_adapter/src/rmf_fleet_adapter/agv/EasyFullControl.cpp:872-981 | a fresh tracker carries a decomposition of the plan from the clamped connection, on the plan's initial map; its commands are pairwise distinct, with distinct identifiers and data, and every one has fresh data with no schedule override. It is non-empty exactly from two plan waypoints on. The previous tracker is dropped, but the identifier of its current command is not cleared |
| Handle.EasyCommandHandle.BuildQueue | rmf_fleet_adapter/src/rmf_fleet_adapter/agv/EasyFullControl.cpp:872-968 | the decomposition of the plan from the clamped connection, and one fresh command carrying each of its steps, pairwise distinct and none with a schedule override; there are commands exactly from two plan waypoints on |
| Handle.EasyCommandHandle.FollowNewPath | rmf_fleet_adapter/src/rmf_fleet_adapter/agv/EasyFullControl.cpp:762-981 | nothing changes without the context, for an empty plan, without an estimator or completion callback, without a planner, or with no plan waypoint on the graph. A plan that does not connect to the current location only requests a replan; the location and the plan ids stay as they were. Otherwise a fresh tracker carries the plan's decomposition, in pairwise distinct commands with fresh data and no schedule override, and the old tracker is dropped. In every case the identifier that was current keeps its liveness: it is not cleared |
| Handle.EasyCommandHandle.Dock | rmf_fleet_adapter/src/rmf_fleet_adapter/agv/EasyFullControl.cpp:1015-1138 | nothing changes without the context or without a planner. Otherwise a fresh tracker holds exactly one docking command and begins it. The command has fresh data with no schedule override (lines 1079 and 1105). Its waypoints are the entry and exit of the first lane leading to the dock and its lanes are that lane, and its estimates become delays of the current plan. When no lane leads there, it has no waypoints or lanes and discards its estimates. The identifier that was current keeps its liveness: it is not cleared |
| Registry.FleetRobots.constructor | rmf_fleet_adapter/src/rmf_fleet_adapter/agv/EasyFullControl.cpp:2011 | a new fleet has no robot names registered |
| Registry.FleetRobots.AddRobot | rmf_fleet_adapter/src/rmf_fleet_adapter/agv/EasyFullControl.cpp:2011-2072 | a registered name is refused and the registry is unchanged. Any other name is taken after the call. An empty start set or a missing callback refuses the robot, but its name stays claimed with no handle, so a retry is refused as a duplicate. Only a robot passing both checks gets a fresh, unattached command handle |

## Left out

- Floating-point geometry is left out. This covers distances, projections, lane lengths and the division by a zero-length lane. They are abstract `Geometry` inputs.
- Trajectory interpolation, times and delays are left out:
  - the arrival-time formula of `update_location` (lines 262-277);
  - the override delay computation of `overridden_update` (lines 286-360);
  - the dock's expected arrival (lines 1088-1098).
- Only the calls are logged: `CumulativeDelay(planId)`, and `EstimateArrival` with the report target and the final waypoint.
- `Interpolate::positions` is not part of this model. An override route is assumed to have one trajectory point per path position.
- `compute_plan_starts` is not part of this model. Its result is the parameter `fallback` in `update_location` and `starts` in `add_robot`.
- The robot's worker, rxcpp and thread hand-off are modelled as immediate in-order execution. Concurrency is not modelled.
- ROS logging, node clocks and the `fleet_handle->add_robot` registration are left out. These are I/O and middleware.
- `TriggerOnce` is not part of this model. It is taken to run its callback at most once, which is the `fired` flag.
- `Stubbornness` and its `release()` are not part of this model. `OverrideSchedule` returns the token itself; `StubbornOverride.Drop` models the caller letting go of its handle.
- `EasyRobotUpdateHandle::update_position` and the rest of `EasyRobotUpdateHandle` are not part of this model. They are worker plumbing.
- The Configuration, InitializeRobot and Destination accessors, and configuration file parsing, are left out.
- Execution.CommandExecution.Finish: finishing a command that no tracker has begun yet (its finisher is still empty) advances nothing in the model. The source would call an empty function there; the tracker always sets the finisher before handing a command out.
- Handle.EasyCommandHandle.FollowNewPath: the plan's graph indices and approach lanes are required to exist in the planner's graph. The source reads them from the graph unchecked, since the planner built the plan from that graph.
- PathFollow.CommandWaypoints: states which waypoints the list holds, that it has no duplicates, and which one comes first. It does not state the order of the rest (the order of first appearance).
- Location.ExitStarts: states which starts come out, not their order. The order is pinned where it matters, by `StartsAtWaypoint` and `Reconciled` equating the starts with this function.
- Integer widths: indices are unbounded. The unsigned wrap-around is modelled only where it changes behaviour, in the first start index of `follow_new_path`.

## Findings

| source | as written | input that shows it | evidently intended | confidence | as-written member | corrected member |
|---|---|---|---|---|---|---|
| rmf_fleet_adapter/src/rmf_fleet_adapter/agv/EasyFullControl.cpp:872-876 | when the connection is at or past the last plan index, `i0 = waypoints.size() - 2` is computed in `size_t` | a plan of one waypoint whose graph waypoint is in the robot's current start set: `i0` wraps to the largest size value and `i1 = i0 + 1` wraps to 0, so the loop runs and reads `waypoints[i0]` far out of range | no out-of-range read. The comment at line 874 asks for at least one command to approach the final waypoint, but a command is formed from a pair of plan waypoints and a one-waypoint plan has none; the corrected model issues no command there, so the new tracker completes at once | not executed; depends on the planner handing over a one-waypoint plan | PathFollow.SingleWaypointPlanUnderflows | PathFollow.FirstApproach |
