/**
 * Values shared by the fleet-adapter model: the navigation graph as the
 * command layer sees it, plan waypoints, plan starts, destinations and the
 * navigation parameters of a fleet.
 */
module Types {

  datatype Option<+T> = None | Some(value: T)

  /** A position in a map frame together with a heading. */
  datatype Pose = Pose(x: real, y: real, yaw: real)

  /** The closed set of events a lane entry or exit can carry. */
  datatype LaneEvent =
    | DoorOpen(doorName: string)
    | DoorClose(doorName: string)
    | LiftSessionBegin(liftName: string, floorName: string)
    | LiftDoorOpen(liftName: string, floorName: string)
    | LiftSessionEnd(liftName: string, floorName: string)
    | LiftMove(liftName: string, floorName: string)
    | Wait(seconds: real)
    | Dock(dockName: string)

  /** One end of a lane: the waypoint it sits on and its optional event. */
  datatype LaneNode = LaneNode(waypoint: nat, event: Option<LaneEvent>)

  /** A directed lane of the navigation graph. */
  datatype Lane = Lane(entry: LaneNode, exit: LaneNode)

  datatype Waypoint = Waypoint(mapName: string)

  /**
   * The navigation graph. `lanesFrom` is the graph's own table of the lanes
   * leaving each waypoint and `laneBetween` its table of the lane joining
   * two waypoints; both are kept as given, since the graph is built
   * elsewhere and the code that reads them checks the ids it gets back.
   */
  datatype Graph = Graph(
    waypoints: seq<Waypoint>,
    lanes: seq<Lane>,
    lanesFrom: seq<seq<nat>>,
    laneBetween: map<(nat, nat), nat>)
  {
    /** The ids of the lanes leaving waypoint `w`. */
    function LanesFrom(w: nat): seq<nat>
    {
      if w < |lanesFrom| then lanesFrom[w] else []
    }

    /** The lane going from `from` to `to`, if the graph has one. */
    function LaneFrom(from: nat, to: nat): Option<nat>
    {
      if (from, to) in laneBetween then Some(laneBetween[(from, to)]) else None
    }
  }

  /**
   * A hypothesis of where the robot is on the graph: on a waypoint, or on a
   * lane heading for the given waypoint. Its time, heading and raw position
   * are the same for every start of one update and are not modelled.
   */
  datatype PlanStart = PlanStart(waypoint: nat, lane: Option<nat>)

  /** One waypoint of a plan handed to the command layer. */
  datatype PlanWaypoint = PlanWaypoint(
    position: Pose,
    graphIndex: Option<nat>,
    approachLanes: seq<nat>)

  /** Where a navigation command sends the robot. */
  datatype Destination = Destination(
    mapName: string,
    position: Pose,
    graphIndex: Option<nat>)

  /** The thresholds and switches of a fleet's navigation. */
  datatype NavParams = NavParams(
    maxMergeWaypointDistance: real,
    maxMergeLaneDistance: real,
    minLaneLength: real,
    skipRotationCommands: bool)

  /** True when every id in `ids` is below `bound`. */
  predicate AllBelow(ids: seq<nat>, bound: nat)
  {
    forall i :: 0 <= i < |ids| ==> ids[i] < bound
  }

  /** True when no element occurs twice in `s`. */
  predicate NoDuplicates<T(==)>(s: seq<T>)
  {
    forall i, j :: 0 <= i < j < |s| ==> s[i] != s[j]
  }
}
