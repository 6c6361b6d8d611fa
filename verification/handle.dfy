/**
 * The command handle the fleet adapter drives for one robot: it stops the
 * current activity, turns a new plan into a sequence of navigation
 * commands, and issues a docking command, each time through a fresh
 * progress tracker that begins the commands one at a time.
 */
module Handle {
  import opened Types
  import opened Robot
  import opened Execution
  import opened PathFollow
  import opened Docking

  /**
   * `queue` carries `cmds` one for one: each command navigates to its
   * destination, may report itself on the command's waypoints and lanes,
   * ends facing the destination's heading, and estimates arrival at the
   * command's plan index.
   */
  ghost predicate Carries(queue: seq<CommandExecution>, cmds: seq<NavCommand>,
                          context: RobotContext?, params: NavParams)
    reads set k | 0 <= k < |queue| :: queue[k].data
  {
    && |queue| == |cmds|
    && Separate(queue)
    && forall k :: 0 <= k < |queue| ==>
         && queue[k].data.scheduleOverride.None? && queue[k].data.Valid()
         && queue[k].context == context
         && queue[k].request == Navigate(cmds[k].destination)
         && queue[k].data.waypoints == cmds[k].waypoints
         && queue[k].data.lanes == cmds[k].lanes
         && queue[k].data.finalOrientation == Some(cmds[k].destination.position.yaw)
         && queue[k].data.params == params
         && queue[k].data.arrival == ToPath(cmds[k].targetIndex)
  }

  /** No two commands of `queue` share the command itself, its identifier or its data. */
  predicate Separate(queue: seq<CommandExecution>)
  {
    forall i, j :: 0 <= i < j < |queue| ==>
      && queue[i] != queue[j]
      && queue[i].identifier != queue[j].identifier
      && queue[i].data != queue[j].data
  }

  /** A queue carrying `cmds` still carries them once `e` is appended carrying `cmd`. */
  lemma CarriesAppend(queue: seq<CommandExecution>, cmds: seq<NavCommand>, e: CommandExecution, cmd: NavCommand,
                      context: RobotContext?, params: NavParams)
    requires Carries(queue, cmds, context, params)
    requires Carries([e], [cmd], context, params)
    requires forall k :: 0 <= k < |queue| ==>
      queue[k] != e && queue[k].identifier != e.identifier && queue[k].data != e.data
    ensures Carries(queue + [e], cmds + [cmd], context, params)
  {
    var q := queue + [e];
    assert forall k :: 0 <= k < |queue| ==> q[k] == queue[k];
  }

  /**
   * Tracker `t` has begun the first command of its queue, or completed at
   * once on an empty queue; every command in it still has a live
   * identifier.
   */
  ghost predicate Begun(t: ProgressTracker)
    reads t, set c | c in t.original, set c | c in t.original :: c.identifier
  {
    && t.Valid() && t.alive && t.advances == 1
    && (t.original == [] ==> t.fired)
    && (t.original != [] ==>
          && t.begun == [t.original[0]]
          && t.currentIdentifier == t.original[0].identifier
          && t.original[0].finisher == t)
    && forall k :: 0 <= k < |t.original| ==>
         t.original[k].identifier != null && t.original[k].identifier.live
  }

  /**
   * Tracker `t` follows the plan from start index `first`: it has begun,
   * and its queue carries a decomposition of the plan from there on the
   * map the plan starts on.
   */
  ghost predicate Following(t: ProgressTracker, g: Graph, wps: seq<PlanWaypoint>, skip: bool, first: nat,
                            context: RobotContext?, params: NavParams)
    requires PlanFitsGraph(g, wps)
    reads t, set c | c in t.original, set c | c in t.original :: c.identifier,
          set c | c in t.original :: c.data
  {
    && Begun(t)
    && exists m, cmds ::
         && IsInitialMap(g, wps, m)
         && Decomposition(g, wps, skip, first, m, cmds)
         && Carries(t.original, cmds, context, params)
  }

  /** A begun tracker whose queue carries a decomposition of the plan follows that plan. */
  lemma FollowingIntro(t: ProgressTracker, g: Graph, wps: seq<PlanWaypoint>, skip: bool, first: nat,
                       context: RobotContext?, params: NavParams, m: string, cmds: seq<NavCommand>)
    requires PlanFitsGraph(g, wps) && Begun(t)
    requires IsInitialMap(g, wps, m) && Decomposition(g, wps, skip, first, m, cmds)
    requires Carries(t.original, cmds, context, params)
    ensures Following(t, g, wps, skip, first, context, params)
  {
  }

  /** A fresh tracker over `queue` that has begun its first command, or completed at once. */
  method BeginQueue(queue: seq<CommandExecution>) returns (t: ProgressTracker)
    requires forall k :: 0 <= k < |queue| ==> queue[k].identifier != null && queue[k].identifier.live
    modifies if queue == [] then {} else {queue[0]}
    ensures fresh(t) && t.original == queue && Begun(t)
    ensures queue == [] ==> t.begun == []
  {
    t := new ProgressTracker.Make(queue);
    if queue != [] {
      ReversedLast(queue);
    }
    t.Next();
  }

  class EasyCommandHandle {
    var context: RobotContext?   // the weak context reference: null until attached, or once expired
    const params: NavParams
    var currentProgress: ProgressTracker?
    ghost var stopRequests: seq<ActivityIdentifier>   // what the user's stop callback was called with

    constructor (params: NavParams)
      ensures this.params == params
      ensures context == null && currentProgress == null && stopRequests == []
    {
      this.params := params;
      context := null;
      currentProgress := null;
      stopRequests := [];
    }

    /**
     * Stops the current activity: its identifier loses its update function,
     * the tracker is dropped (so no later finish can advance it), and the
     * user's stop callback receives the identifier. Without a tracker or
     * without a current identifier nothing happens, so a second stop is a
     * no-op.
     */
    method Stop()
      modifies this, currentProgress
      modifies if currentProgress == null then {} else {currentProgress.currentIdentifier}
      ensures context == old(context)
      ensures old(currentProgress) == null || old(currentProgress.currentIdentifier) == null ==>
        && unchanged(this)
        && (old(currentProgress) != null ==> unchanged(old(currentProgress)))
      ensures old(currentProgress) != null && old(currentProgress.currentIdentifier) != null ==>
        var id := old(currentProgress.currentIdentifier);
        && !id.live
        && currentProgress == null
        && !old(currentProgress).alive
        && old(currentProgress).reverseQueue == old(currentProgress.reverseQueue)
        && old(currentProgress).fired == old(currentProgress.fired)
        && stopRequests == old(stopRequests) + [id]
    {
      if currentProgress == null {
        return;
      }
      var activity := currentProgress.currentIdentifier;
      if activity == null {
        return;
      }
      // Prevent any further updates through this activity.
      activity.live := false;
      currentProgress.alive := false;
      currentProgress := null;
      stopRequests := stopRequests + [activity];
    }

    /**
     * Replaces the current tracker, which no one else holds, by a fresh
     * tracker over `queue`, and begins the first command (or completes at
     * once when the queue is empty).
     */
    method StartTracker(queue: seq<CommandExecution>)
      requires forall k :: 0 <= k < |queue| ==> queue[k].identifier != null && queue[k].identifier.live
      modifies this, currentProgress, if queue == [] then {} else {queue[0]}
      ensures old(currentProgress) != null && old(currentProgress.currentIdentifier) != null ==>
        old(currentProgress.currentIdentifier).live == old(currentProgress.currentIdentifier.live)
      ensures context == old(context) && stopRequests == old(stopRequests)
      ensures old(currentProgress) != null ==>
        && !old(currentProgress).alive
        && old(currentProgress).reverseQueue == old(currentProgress.reverseQueue)
        && old(currentProgress).fired == old(currentProgress.fired)
      ensures currentProgress != null && fresh(currentProgress)
      ensures currentProgress.original == queue && Begun(currentProgress)
      ensures queue == [] ==> currentProgress.begun == []
      ensures forall k :: 0 <= k < |queue| ==> queue[k].data.scheduleOverride == old(queue[k].data.scheduleOverride)
    {
      if currentProgress != null {
        currentProgress.alive := false;
      }
      currentProgress := BeginQueue(queue);
    }

    /** One navigation command execution per command, in order, each with a fresh live identifier. */
    method NavigationQueue(cmds: seq<NavCommand>) returns (queue: seq<CommandExecution>)
      ensures Carries(queue, cmds, context, params)
      ensures forall k :: 0 <= k < |queue| ==>
        && fresh(queue[k]) && fresh(queue[k].data) && queue[k].identifier != null
        && fresh(queue[k].identifier) && queue[k].identifier.live
    {
      queue := [];
      var k := 0;
      while k < |cmds|
        invariant 0 <= k <= |cmds|
        invariant Carries(queue, cmds[..k], context, params)
        invariant forall j :: 0 <= j < k ==>
          && fresh(queue[j]) && fresh(queue[j].data) && queue[j].identifier != null
          && fresh(queue[j].identifier) && queue[j].identifier.live
      {
        var cmd := cmds[k];
        var data := new CommandData(cmd.waypoints, cmd.lanes, Some(cmd.destination.position.yaw),
                                    params, ToPath(cmd.targetIndex));
        var execution := new CommandExecution.Make(context, data, Navigate(cmd.destination));
        assert Carries(queue, cmds[..k], context, params);
        CarriesAppend(queue, cmds[..k], execution, cmd, context, params);
        assert cmds[..k + 1] == cmds[..k] + [cmd];
        queue := queue + [execution];
        k := k + 1;
      }
      assert cmds[..k] == cmds;
    }

    /**
     * Follows a new plan. Nothing happens without the robot context, for an
     * empty plan, without an arrival estimator or a completion callback,
     * without a planner, or when no plan waypoint is on the graph. When the
     * plan does not connect to the robot's current location, a replan is
     * requested and nothing else changes. Otherwise a fresh tracker carries
     * the plan's decomposition into commands and begins the first one (or
     * completes at once when there is none). The identifier of the command
     * that was current is not cleared, so that command stays as live as it
     * was.
     */
    method FollowNewPath(wps: seq<PlanWaypoint>, hasEstimator: bool, hasCallback: bool)
      requires context != null && context.planner.Some? ==> PlanFitsGraph(context.planner.value.graph, wps)
      modifies this, context, currentProgress
      ensures old(currentProgress) != null && old(currentProgress.currentIdentifier) != null ==>
        old(currentProgress.currentIdentifier).live == old(currentProgress.currentIdentifier.live)
      ensures context == old(context) && stopRequests == old(stopRequests)
      ensures context != null ==> context.planner == old(context.planner)
      ensures context == null || wps == [] || !hasEstimator || !hasCallback
              || context.planner.None? || NoGraphIndex(wps) ==>
        && unchanged(this)
        && (old(currentProgress) != null ==> unchanged(old(currentProgress)))
        && (context != null ==> unchanged(context))
      ensures context != null && wps != [] && hasEstimator && hasCallback
              && context.planner.Some? && !NoGraphIndex(wps)
              && LastConnection(wps, old(context.location), |wps|).None? ==>
        && unchanged(this)
        && (old(currentProgress) != null ==> unchanged(old(currentProgress)))
        && context.effects == old(context.effects) + [Effect.RequestReplan]
        && context.location == old(context.location)
        && context.currentPlanId == old(context.currentPlanId)
        && context.nextPlanId == old(context.nextPlanId)
      ensures context != null && wps != [] && hasEstimator && hasCallback
              && context.planner.Some? && !NoGraphIndex(wps)
              && LastConnection(wps, old(context.location), |wps|).Some? ==>
        && unchanged(context)
        && (old(currentProgress) != null ==> !old(currentProgress).alive)
        && currentProgress != null && fresh(currentProgress)
        && Following(currentProgress, context.planner.value.graph, wps, params.skipRotationCommands,
             FirstApproach(LastConnection(wps, old(context.location), |wps|).value, |wps|), context, params)
        && (|wps| >= 2 <==> currentProgress.original != [])
        && forall k :: 0 <= k < |currentProgress.original| ==>
              fresh(currentProgress.original[k]) && fresh(currentProgress.original[k].data) && fresh(currentProgress.original[k].identifier)
    {
      if context == null {
        return;
      }
      if wps == [] || !hasEstimator || !hasCallback {
        // A new path with invalid parameters is ignored.
        return;
      }
      if context.planner.None? {
        return;
      }
      var g := context.planner.value.graph;
      var initialMap := FindInitialMap(g, wps);
      if initialMap.None? {
        return;
      }
      FollowFromLocation(g, wps, initialMap.value);
    }

    /**
     * The part of following a plan after it is known to start on
     * `initialMap` of the planner's graph `g`: a replan when the plan does
     * not connect to the robot's current location, a fresh tracker otherwise.
     */
    method FollowFromLocation(g: Graph, wps: seq<PlanWaypoint>, initialMap: string)
      requires context != null && context.planner.Some? && g == context.planner.value.graph
      requires PlanFitsGraph(g, wps) && IsInitialMap(g, wps, initialMap)
      modifies this, context, currentProgress
      ensures context == old(context) && stopRequests == old(stopRequests)
      ensures context.planner == old(context.planner)
      ensures old(currentProgress) != null && old(currentProgress.currentIdentifier) != null ==>
        old(currentProgress.currentIdentifier).live == old(currentProgress.currentIdentifier.live)
      ensures LastConnection(wps, old(context.location), |wps|).None? ==>
        && unchanged(this)
        && (old(currentProgress) != null ==> unchanged(old(currentProgress)))
        && context.effects == old(context.effects) + [Effect.RequestReplan]
        && context.location == old(context.location)
        && context.currentPlanId == old(context.currentPlanId)
        && context.nextPlanId == old(context.nextPlanId)
      ensures LastConnection(wps, old(context.location), |wps|).Some? ==>
        && unchanged(context)
        && (old(currentProgress) != null ==> !old(currentProgress).alive)
        && currentProgress != null && fresh(currentProgress)
        && Following(currentProgress, g, wps, params.skipRotationCommands,
             FirstApproach(LastConnection(wps, old(context.location), |wps|).value, |wps|), context, params)
        && (|wps| >= 2 <==> currentProgress.original != [])
        && forall k :: 0 <= k < |currentProgress.original| ==>
              fresh(currentProgress.original[k]) && fresh(currentProgress.original[k].data) && fresh(currentProgress.original[k].identifier)
    {
      var found := FindConnection(wps, context.location);
      if found.None? {
        // The robot drifted away from where the plan starts: ask for a new plan.
        context.RequestReplan();
        return;
      }
      FollowConnected(g, wps, found.value, initialMap);
    }

    /**
     * The commands for following the plan from the connection `found`, on
     * `initialMap`: its decomposition from the clamped start index, and one
     * fresh command execution carrying each step.
     */
    method BuildQueue(g: Graph, wps: seq<PlanWaypoint>, found: nat, initialMap: string)
      returns (queue: seq<CommandExecution>, cmds: seq<NavCommand>)
      requires PlanFitsGraph(g, wps) && found < |wps|
      ensures Decomposition(g, wps, params.skipRotationCommands, FirstApproach(found, |wps|), initialMap, cmds)
      ensures |wps| >= 2 <==> queue != []
      ensures Carries(queue, cmds, context, params)
      ensures forall k :: 0 <= k < |queue| ==>
        && fresh(queue[k]) && fresh(queue[k].data) && queue[k].identifier != null
        && fresh(queue[k].identifier) && queue[k].identifier.live
    {
      cmds := Decompose(g, wps, params.skipRotationCommands, found, initialMap);
      queue := NavigationQueue(cmds);
    }

    /**
     * The part of following a plan after it is known to connect at plan
     * index `found` and to start on `initialMap`.
     */
    method FollowConnected(g: Graph, wps: seq<PlanWaypoint>, found: nat, initialMap: string)
      requires PlanFitsGraph(g, wps) && found < |wps| && IsInitialMap(g, wps, initialMap)
      modifies this, currentProgress
      ensures old(currentProgress) != null && old(currentProgress.currentIdentifier) != null ==>
        old(currentProgress.currentIdentifier).live == old(currentProgress.currentIdentifier.live)
      ensures context == old(context) && stopRequests == old(stopRequests)
      ensures old(currentProgress) != null ==> !old(currentProgress).alive
      ensures currentProgress != null && fresh(currentProgress)
      ensures Following(currentProgress, g, wps, params.skipRotationCommands,
                        FirstApproach(found, |wps|), context, params)
      ensures |wps| >= 2 <==> currentProgress.original != []
      ensures forall k :: 0 <= k < |currentProgress.original| ==>
        && fresh(currentProgress.original[k]) && fresh(currentProgress.original[k].data)
        && fresh(currentProgress.original[k].identifier)
    {
      var queue, cmds := BuildQueue(g, wps, found, initialMap);
      StartTracker(queue);
      assert Carries(queue, cmds, context, params);
      FollowingIntro(currentProgress, g, wps, params.skipRotationCommands, FirstApproach(found, |wps|),
                     context, params, initialMap, cmds);
    }

    /**
     * Docks at the dock called `dockName`. Nothing happens without the
     * robot context or without a planner. Otherwise a fresh tracker holds
     * exactly one docking command and begins it: the command may report
     * itself on the two ends of the first lane leading to that dock and on
     * that lane, with arrival estimates turned into delays of the current
     * plan; when no lane leads to the dock, it carries no waypoints and no
     * lanes and discards its estimates. As for a new path, the identifier
     * of the command that was current is not cleared.
     */
    method Dock(dockName: string)
      modifies this, currentProgress
      ensures old(currentProgress) != null && old(currentProgress.currentIdentifier) != null ==>
        old(currentProgress.currentIdentifier).live == old(currentProgress.currentIdentifier.live)
      ensures context == old(context) && stopRequests == old(stopRequests)
      ensures context == null || context.planner.None? ==>
        && unchanged(this)
        && (old(currentProgress) != null ==> unchanged(old(currentProgress)))
      ensures context != null && context.planner.Some? ==>
        var g := context.planner.value.graph;
        var t := currentProgress;
        && (old(currentProgress) != null ==> !old(currentProgress).alive)
        && t != null && fresh(t) && t.Valid() && t.alive
        && |t.original| == 1 && t.begun == t.original
        && var c := t.original[0];
           && fresh(c) && fresh(c.data) && c.context == context && c.request == DockAt(dockName)
           && c.identifier != null && fresh(c.identifier) && c.identifier.live
           && t.currentIdentifier == c.identifier && c.finisher == t
           && c.data.finalOrientation.None? && c.data.params == params
           && c.data.scheduleOverride.None? && c.data.Valid()
           && (NoDockLane(g, dockName) ==>
                 c.data.waypoints == [] && c.data.lanes == [] && c.data.arrival == Discard)
           && (forall i: nat :: IsFirstDockLane(g, dockName, i) ==>
                 && c.data.waypoints == [g.lanes[i].entry.waypoint, g.lanes[i].exit.waypoint]
                 && c.data.lanes == [i]
                 && c.data.arrival == DockDelay(context.currentPlanId))
    {
      if context == null {
        return;
      }
      var planId := context.currentPlanId;
      if context.planner.None? {
        return;
      }
      var g := context.planner.value.graph;
      var foundLane := FindDockLane(g, dockName);
      var data;
      if foundLane.None? {
        // Without the dock on the graph, location updates cannot be placed.
        data := new CommandData([], [], None, params, Discard);
      } else {
        var lane := g.lanes[foundLane.value];
        data := new CommandData([lane.entry.waypoint, lane.exit.waypoint], [foundLane.value], None,
                                params, DockDelay(planId));
      }
      var cmd := new CommandExecution.Make(context, data, DockAt(dockName));
      StartTracker([cmd]);
    }
  }
}
