/**
 * The per-robot objects the command layer shares with the rest of the
 * adapter: the activity identifier of a command, the stubbornness token of
 * a schedule override, and the robot context whose outside effects (replan
 * requests, plan ids, itinerary writes, location writes) are kept as a log.
 */
module Robot {
  import opened Types

  /**
   * Identifies the currently active command. `live` says whether it still
   * holds its update function; clearing it is the only thing that stops a
   * finished or stopped command from acting on the robot again.
   */
  class ActivityIdentifier {
    var live: bool

    constructor ()
      ensures live
    {
      live := true;
    }
  }

  /**
   * The shared object behind a Stubbornness handle. `held` says whether it
   * still holds the scheduler's stubbornness; `expired` says that the
   * caller's handle is gone, so a schedule override can no longer reach it.
   */
  class StubbornOverride {
    var held: bool
    var expired: bool

    /** An expired token has been destroyed, and with it its stubbornness. */
    ghost predicate Valid()
      reads this
    {
      expired ==> !held
    }

    constructor ()
      ensures Valid() && !held && !expired
    {
      held := false;
      expired := false;
    }

    /** The caller lets go of its handle: the token is destroyed. */
    method Drop()
      modifies this
      ensures Valid() && expired && !held
    {
      expired := true;
      held := false;
    }
  }

  /** What a command reports its arrival estimates to. */
  datatype ArrivalReport =
    | ToPath(targetIndex: nat)   // the path's estimator, for this plan waypoint
    | DockDelay(planId: nat)     // a cumulative delay on this plan id
    | Discard                    // nothing

  /** A route on one map; the trajectory interpolation is not modelled. */
  datatype Route = Route(mapName: string, path: seq<Pose>)

  /** A call the command layer makes into its collaborators. */
  datatype Effect =
    | RequestReplan
    | AssignPlanId(planId: nat)
    | SetItinerary(planId: nat, route: Route)
    | BeStubborn
    | SetLocation(starts: seq<PlanStart>)
    | CumulativeDelay(planId: nat)
    | EstimateArrival(report: ArrivalReport, waypoint: nat)

  /** The planner configuration: its graph and its lane closures. */
  datatype PlannerConfig = PlannerConfig(graph: Graph, closedLanes: set<nat>)

  /** The robot's context as far as the command layer reads and writes it. */
  class RobotContext {
    var planner: Option<PlannerConfig>
    var location: seq<PlanStart>
    var currentPlanId: nat
    var nextPlanId: nat
    ghost var effects: seq<Effect>

    constructor (planner: Option<PlannerConfig>, location: seq<PlanStart>, planId: nat)
      ensures this.planner == planner && this.location == location
      ensures currentPlanId == planId && nextPlanId == planId + 1 && effects == []
    {
      this.planner := planner;
      this.location := location;
      currentPlanId := planId;
      nextPlanId := planId + 1;
      effects := [];
    }

    method RequestReplan()
      modifies this
      ensures effects == old(effects) + [Effect.RequestReplan]
      ensures planner == old(planner) && location == old(location)
      ensures currentPlanId == old(currentPlanId) && nextPlanId == old(nextPlanId)
    {
      effects := effects + [Effect.RequestReplan];
    }

    /** Draws a fresh plan id from the itinerary. */
    method AssignPlanId() returns (id: nat)
      modifies this
      ensures id == old(nextPlanId) && nextPlanId == id + 1
      ensures effects == old(effects) + [Effect.AssignPlanId(id)]
      ensures planner == old(planner) && location == old(location)
      ensures currentPlanId == old(currentPlanId)
    {
      id := nextPlanId;
      nextPlanId := nextPlanId + 1;
      effects := effects + [Effect.AssignPlanId(id)];
    }

    /** Publishes `route` to the itinerary under plan `id`. */
    method SetItinerary(id: nat, route: Route)
      modifies this
      ensures currentPlanId == id
      ensures effects == old(effects) + [Effect.SetItinerary(id, route)]
      ensures planner == old(planner) && location == old(location)
      ensures nextPlanId == old(nextPlanId)
    {
      currentPlanId := id;
      effects := effects + [Effect.SetItinerary(id, route)];
    }

    method BeStubborn()
      modifies this
      ensures effects == old(effects) + [Effect.BeStubborn]
      ensures planner == old(planner) && location == old(location)
      ensures currentPlanId == old(currentPlanId) && nextPlanId == old(nextPlanId)
    {
      effects := effects + [Effect.BeStubborn];
    }

    method SetLocation(starts: seq<PlanStart>)
      modifies this
      ensures location == starts
      ensures effects == old(effects) + [Effect.SetLocation(starts)]
      ensures planner == old(planner)
      ensures currentPlanId == old(currentPlanId) && nextPlanId == old(nextPlanId)
    {
      location := starts;
      effects := effects + [Effect.SetLocation(starts)];
    }

    method CumulativeDelay(id: nat)
      modifies this
      ensures effects == old(effects) + [Effect.CumulativeDelay(id)]
      ensures planner == old(planner) && location == old(location)
      ensures currentPlanId == old(currentPlanId) && nextPlanId == old(nextPlanId)
    {
      effects := effects + [Effect.CumulativeDelay(id)];
    }

    method EstimateArrival(report: ArrivalReport, waypoint: nat)
      modifies this
      ensures effects == old(effects) + [Effect.EstimateArrival(report, waypoint)]
      ensures planner == old(planner) && location == old(location)
      ensures currentPlanId == old(currentPlanId) && nextPlanId == old(nextPlanId)
    {
      effects := effects + [Effect.EstimateArrival(report, waypoint)];
    }
  }
}
