/**
 * Location reconciliation: how a command maps a reported pose onto the
 * navigation graph. The command's hinted waypoints are tried first, then
 * its hinted lanes, then a search of the whole graph. Distances and
 * projections of the reported point are given as inputs; what is modelled
 * is which starts are produced, in what order, and when nothing is written.
 */
module Location {
  import opened Types

  /**
   * The geometry of one reported point, as functions of waypoint and lane
   * ids: the distance to a waypoint, the length of a lane, the projection of
   * the point along a lane from its entry, and its distance from the lane.
   */
  datatype Geometry = Geometry(
    waypointDistance: nat -> real,
    laneLength: nat -> real,
    laneProjection: nat -> real,
    laneDistance: nat -> real)

  /** Result of one scan over hinted ids; `at` is the position of the winning hint. */
  datatype Scan = InvalidIndex | NoMatch | Matched(at: nat)

  /**
   * Result of one reconciliation: nothing is written (`Abort`), or the
   * starts to write and which of the three sources produced them (`at` is
   * the position of the matching hint).
   */
  datatype Reconciliation =
    | Abort
    | OnWaypoint(at: nat, starts: seq<PlanStart>)
    | OnLane(at: nat, starts: seq<PlanStart>)
    | WholeGraph(starts: seq<PlanStart>)

  /** A hinted waypoint close enough to merge onto. */
  predicate WaypointEligible(geo: Geometry, params: NavParams, w: nat)
  {
    geo.waypointDistance(w) <= params.maxMergeWaypointDistance
  }

  /** A hinted lane that is open, whose projection lies on it, and that is close enough. */
  predicate LaneEligible(closed: set<nat>, geo: Geometry, params: NavParams, l: nat)
  {
    && l !in closed
    && 0.0 <= geo.laneProjection(l) <= geo.laneLength(l)
    && geo.laneDistance(l) <= params.maxMergeLaneDistance
  }

  predicate NoEligibleWaypoint(geo: Geometry, params: NavParams, hints: seq<nat>)
  {
    forall j :: 0 <= j < |hints| ==> !WaypointEligible(geo, params, hints[j])
  }

  predicate NoEligibleLane(closed: set<nat>, geo: Geometry, params: NavParams, hints: seq<nat>)
  {
    forall j :: 0 <= j < |hints| ==> !LaneEligible(closed, geo, params, hints[j])
  }

  /**
   * Position `k` holds the winning hinted waypoint: it is eligible, strictly
   * closer than every eligible hint before it, and no farther than every
   * eligible hint after it (the earliest of the closest wins).
   */
  ghost predicate IsMatchedWaypoint(geo: Geometry, params: NavParams, hints: seq<nat>, k: nat)
  {
    && k < |hints|
    && WaypointEligible(geo, params, hints[k])
    && (forall j :: 0 <= j < k && WaypointEligible(geo, params, hints[j]) ==>
          geo.waypointDistance(hints[k]) < geo.waypointDistance(hints[j]))
    && (forall j :: k < j < |hints| && WaypointEligible(geo, params, hints[j]) ==>
          geo.waypointDistance(hints[k]) <= geo.waypointDistance(hints[j]))
  }

  /** Position `k` holds the winning hinted lane, by the same rule on lane distance. */
  ghost predicate IsMatchedLane(closed: set<nat>, geo: Geometry, params: NavParams, hints: seq<nat>, k: nat)
  {
    && k < |hints|
    && LaneEligible(closed, geo, params, hints[k])
    && (forall j :: 0 <= j < k && LaneEligible(closed, geo, params, hints[j]) ==>
          geo.laneDistance(hints[k]) < geo.laneDistance(hints[j]))
    && (forall j :: k < j < |hints| && LaneEligible(closed, geo, params, hints[j]) ==>
          geo.laneDistance(hints[k]) <= geo.laneDistance(hints[j]))
  }

  /** The winning hinted waypoint is unique. */
  lemma MatchedWaypointUnique(geo: Geometry, params: NavParams, hints: seq<nat>, k1: nat, k2: nat)
    requires IsMatchedWaypoint(geo, params, hints, k1)
    requires IsMatchedWaypoint(geo, params, hints, k2)
    ensures k1 == k2
  {
  }

  /** The winning hinted lane is unique. */
  lemma MatchedLaneUnique(closed: set<nat>, geo: Geometry, params: NavParams, hints: seq<nat>, k1: nat, k2: nat)
    requires IsMatchedLane(closed, geo, params, hints, k1)
    requires IsMatchedLane(closed, geo, params, hints, k2)
    ensures k1 == k2
  {
  }

  /**
   * The starts for the open lanes among `ls`, in order: one start per open
   * lane, at the lane's exit waypoint.
   */
  function ExitStarts(g: Graph, closed: set<nat>, ls: seq<nat>): (r: seq<PlanStart>)
    requires AllBelow(ls, |g.lanes|)
    ensures |r| <= |ls|
    ensures forall s :: s in r ==>
      && s.lane.Some? && s.lane.value in ls && s.lane.value !in closed
      && s.waypoint == g.lanes[s.lane.value].exit.waypoint
    ensures forall l :: l in ls && l !in closed ==>
      PlanStart(g.lanes[l].exit.waypoint, Some(l)) in r
  {
    if ls == [] then []
    else
      var last := ls[|ls| - 1];
      var front := ExitStarts(g, closed, ls[..|ls| - 1]);
      assert forall l :: l in ls ==> l == last || l in ls[..|ls| - 1];
      if last in closed then front
      else front + [PlanStart(g.lanes[last].exit.waypoint, Some(last))]
  }

  /** Scanning one more leaving lane adds its exit start exactly when the lane is open. */
  lemma ExitStartsStep(g: Graph, closed: set<nat>, ls: seq<nat>, i: nat)
    requires i < |ls| && AllBelow(ls[..i], |g.lanes|) && ls[i] < |g.lanes|
    ensures AllBelow(ls[..i + 1], |g.lanes|)
    ensures ExitStarts(g, closed, ls[..i + 1]) ==
      ExitStarts(g, closed, ls[..i])
      + (if ls[i] in closed then [] else [PlanStart(g.lanes[ls[i]].exit.waypoint, Some(ls[i]))])
  {
    var ext := ls[..i + 1];
    assert ext[..|ext| - 1] == ls[..i];
  }

  /**
   * The starts for a robot found on lane `l`: at the lane's exit, and at its
   * entry by way of the reverse lane when the graph has one.
   */
  function LaneStarts(g: Graph, l: nat): (r: seq<PlanStart>)
    requires l < |g.lanes|
    ensures 1 <= |r| <= 2
    ensures r[0] == PlanStart(g.lanes[l].exit.waypoint, Some(l))
    ensures |r| == 2 <==> g.LaneFrom(g.lanes[l].exit.waypoint, g.lanes[l].entry.waypoint).Some?
    ensures |r| == 2 ==>
      r[1] == PlanStart(g.lanes[l].entry.waypoint, g.LaneFrom(g.lanes[l].exit.waypoint, g.lanes[l].entry.waypoint))
  {
    var wp0 := g.lanes[l].entry.waypoint;
    var wp1 := g.lanes[l].exit.waypoint;
    [PlanStart(wp1, Some(l))] +
      match g.LaneFrom(wp1, wp0)
      case Some(reverse) => [PlanStart(wp0, Some(reverse))]
      case None => []
  }

  /**
   * The scan over the command's hinted waypoints: any hint outside the graph
   * stops the update; otherwise the closest eligible hint wins.
   */
  method ScanWaypoints(numWaypoints: nat, geo: Geometry, params: NavParams, hints: seq<nat>)
    returns (r: Scan)
    ensures r.InvalidIndex? <==> !AllBelow(hints, numWaypoints)
    ensures r.NoMatch? <==>
      AllBelow(hints, numWaypoints) && NoEligibleWaypoint(geo, params, hints)
    ensures r.Matched? ==> IsMatchedWaypoint(geo, params, hints, r.at)
  {
    // The source keeps the pair (waypoint, distance); the model keeps the
    // hint's position instead of the waypoint itself.
    var best: Option<(nat, real)> := None;
    var i := 0;
    while i < |hints|
      invariant 0 <= i <= |hints|
      invariant AllBelow(hints[..i], numWaypoints)
      invariant best.None? <==> NoEligibleWaypoint(geo, params, hints[..i])
      invariant best.Some? ==>
        && best.value.0 < i
        && best.value.1 == geo.waypointDistance(hints[best.value.0])
        && IsMatchedWaypoint(geo, params, hints[..i], best.value.0)
    {
      var wp := hints[i];
      if wp >= numWaypoints {
        return InvalidIndex;
      }
      var dist := geo.waypointDistance(wp);
      if dist <= params.maxMergeWaypointDistance {
        if best.None? || dist < best.value.1 {
          best := Some((i, dist));
        }
      }
      assert hints[..i + 1] == hints[..i] + [wp];
      i := i + 1;
    }
    assert hints[..i] == hints;
    r := if best.Some? then Matched(best.value.0) else NoMatch;
  }

  /**
   * The starts at a matched waypoint `w`: the waypoint itself, then one
   * start per open lane leaving it. Any lane id outside the graph stops the
   * update.
   */
  method StartsAtWaypoint(g: Graph, closed: set<nat>, w: nat) returns (r: Option<seq<PlanStart>>)
    ensures r.None? <==> !AllBelow(g.LanesFrom(w), |g.lanes|)
    ensures r.Some? ==> r.value == [PlanStart(w, None)] + ExitStarts(g, closed, g.LanesFrom(w))
  {
    var leaving := g.LanesFrom(w);
    var starts := [PlanStart(w, None)];
    var i := 0;
    while i < |leaving|
      invariant 0 <= i <= |leaving|
      invariant AllBelow(leaving[..i], |g.lanes|)
      invariant starts == [PlanStart(w, None)] + ExitStarts(g, closed, leaving[..i])
    {
      var laneId := leaving[i];
      if laneId >= |g.lanes| {
        return None;
      }
      ExitStartsStep(g, closed, leaving, i);
      if laneId !in closed {
        starts := starts + [PlanStart(g.lanes[laneId].exit.waypoint, Some(laneId))];
      }
      assert starts == [PlanStart(w, None)] + ExitStarts(g, closed, leaving[..i + 1]);
      i := i + 1;
    }
    assert leaving[..i] == leaving;
    r := Some(starts);
  }

  /**
   * The scan over the command's hinted lanes: any hint outside the graph
   * stops the update; closed lanes and lanes the point does not project onto
   * are passed over; otherwise the closest eligible lane wins.
   */
  method ScanLanes(g: Graph, closed: set<nat>, geo: Geometry, params: NavParams, hints: seq<nat>)
    returns (r: Scan)
    ensures r.InvalidIndex? <==> !AllBelow(hints, |g.lanes|)
    ensures r.NoMatch? <==>
      AllBelow(hints, |g.lanes|) && NoEligibleLane(closed, geo, params, hints)
    ensures r.Matched? ==> IsMatchedLane(closed, geo, params, hints, r.at)
  {
    var best: Option<(nat, real)> := None;
    var i := 0;
    while i < |hints|
      invariant 0 <= i <= |hints|
      invariant AllBelow(hints[..i], |g.lanes|)
      invariant best.None? <==> NoEligibleLane(closed, geo, params, hints[..i])
      invariant best.Some? ==>
        && best.value.0 < i
        && best.value.1 == geo.laneDistance(hints[best.value.0])
        && IsMatchedLane(closed, geo, params, hints[..i], best.value.0)
    {
      var laneId := hints[i];
      if laneId >= |g.lanes| {
        return InvalidIndex;
      }
      assert hints[..i + 1] == hints[..i] + [laneId];
      if laneId in closed {
        i := i + 1;
        continue;
      }
      var proj := geo.laneProjection(laneId);
      if proj < 0.0 || geo.laneLength(laneId) < proj {
        i := i + 1;
        continue;
      }
      var dist := geo.laneDistance(laneId);
      if dist <= params.maxMergeLaneDistance {
        if best.None? || dist < best.value.1 {
          best := Some((i, dist));
        }
      }
      i := i + 1;
    }
    assert hints[..i] == hints;
    r := if best.Some? then Matched(best.value.0) else NoMatch;
  }

  /**
   * What one reconciliation of a reported point against a command's hints
   * must produce. Exactly one source of starts is used: the winning hinted
   * waypoint, else the winning hinted lane, else the whole-graph search
   * whose result is `fallback`. An out-of-range hinted waypoint, an
   * out-of-range lane id leaving the matched waypoint, or (when no waypoint
   * matched) an out-of-range hinted lane aborts the update.
   */
  ghost predicate Reconciled(
    g: Graph, closed: set<nat>, waypoints: seq<nat>, lanes: seq<nat>,
    geo: Geometry, params: NavParams, fallback: seq<PlanStart>, r: Reconciliation)
  {
    && (!AllBelow(waypoints, |g.waypoints|) ==> r.Abort?)
    && (r.OnWaypoint? ==>
          && AllBelow(waypoints, |g.waypoints|)
          && IsMatchedWaypoint(geo, params, waypoints, r.at)
          && AllBelow(g.LanesFrom(waypoints[r.at]), |g.lanes|)
          && r.starts == [PlanStart(waypoints[r.at], None)]
                         + ExitStarts(g, closed, g.LanesFrom(waypoints[r.at])))
    && (r.OnLane? ==>
          && AllBelow(waypoints, |g.waypoints|)
          && NoEligibleWaypoint(geo, params, waypoints)
          && AllBelow(lanes, |g.lanes|)
          && IsMatchedLane(closed, geo, params, lanes, r.at)
          && r.starts == LaneStarts(g, lanes[r.at]))
    && (r.WholeGraph? <==>
          && AllBelow(waypoints, |g.waypoints|)
          && NoEligibleWaypoint(geo, params, waypoints)
          && AllBelow(lanes, |g.lanes|)
          && NoEligibleLane(closed, geo, params, lanes))
    && (r.WholeGraph? ==> r.starts == fallback)
    && (forall k: nat :: IsMatchedWaypoint(geo, params, waypoints, k) ==>
          AllBelow(waypoints, |g.waypoints|) ==>
          (r.Abort? <==> !AllBelow(g.LanesFrom(waypoints[k]), |g.lanes|)))
    && (AllBelow(waypoints, |g.waypoints|) && NoEligibleWaypoint(geo, params, waypoints) ==>
          (r.Abort? <==> !AllBelow(lanes, |g.lanes|)))
  }

  /** The reconciliation contract leaves no choice: it determines the result. */
  lemma ReconciledDeterministic(
    g: Graph, closed: set<nat>, waypoints: seq<nat>, lanes: seq<nat>,
    geo: Geometry, params: NavParams, fallback: seq<PlanStart>,
    r1: Reconciliation, r2: Reconciliation)
    requires Reconciled(g, closed, waypoints, lanes, geo, params, fallback, r1)
    requires Reconciled(g, closed, waypoints, lanes, geo, params, fallback, r2)
    ensures r1 == r2
  {
    if r1.OnWaypoint? && r2.OnWaypoint? {
      MatchedWaypointUnique(geo, params, waypoints, r1.at, r2.at);
    } else if r1.OnLane? && r2.OnLane? {
      MatchedLaneUnique(closed, geo, params, lanes, r1.at, r2.at);
    }
  }

  /**
   * One reconciliation of a reported point against a command's hints, by
   * the scans the command runs: its result is the one `Reconciled` allows.
   */
  method Reconcile(
    g: Graph, closed: set<nat>, waypoints: seq<nat>, lanes: seq<nat>,
    geo: Geometry, params: NavParams, fallback: seq<PlanStart>)
    returns (r: Reconciliation)
    ensures Reconciled(g, closed, waypoints, lanes, geo, params, fallback, r)
  {
    var onWaypoint := ScanWaypoints(|g.waypoints|, geo, params, waypoints);
    if onWaypoint.InvalidIndex? {
      return Abort;
    }
    if onWaypoint.Matched? {
      forall k | IsMatchedWaypoint(geo, params, waypoints, k)
        ensures k == onWaypoint.at
      {
        MatchedWaypointUnique(geo, params, waypoints, k, onWaypoint.at);
      }
      var starts := StartsAtWaypoint(g, closed, waypoints[onWaypoint.at]);
      if starts.None? {
        return Abort;
      }
      return OnWaypoint(onWaypoint.at, starts.value);
    }
    var onLane := ScanLanes(g, closed, geo, params, lanes);
    match onLane
    case InvalidIndex => r := Abort;
    case Matched(at) => r := OnLane(at, LaneStarts(g, lanes[at]));
    case NoMatch => r := WholeGraph(fallback);
  }
}
