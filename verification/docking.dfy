/**
 * Looking up a dock on the navigation graph: the lane events are visited
 * by a finder that remembers whether it has seen a dock of the wanted
 * name, and the lanes are searched in order for the first such lane.
 */
module Docking {
  import opened Types

  /** `event` is a dock event of the dock called `name`. */
  predicate IsDock(event: Option<LaneEvent>, name: string)
  {
    event.Some? && event.value.Dock? && event.value.dockName == name
  }

  /** The entry or the exit of `lane` carries a dock event for `name`. */
  predicate LeadsToDock(lane: Lane, name: string)
  {
    IsDock(lane.entry.event, name) || IsDock(lane.exit.event, name)
  }

  /** Lane `i` is the lowest-numbered lane leading to a dock called `name`. */
  predicate IsFirstDockLane(g: Graph, name: string, i: nat)
  {
    && i < |g.lanes|
    && LeadsToDock(g.lanes[i], name)
    && forall j :: 0 <= j < i ==> !LeadsToDock(g.lanes[j], name)
  }

  /** No lane of the graph leads to a dock called `name`. */
  predicate NoDockLane(g: Graph, name: string)
  {
    forall i :: 0 <= i < |g.lanes| ==> !LeadsToDock(g.lanes[i], name)
  }

  /** Visits lane events, remembering whether one was the dock it looks for. */
  class DockFinder {
    const lookingFor: string
    var found: bool

    constructor (dockName: string)
      ensures lookingFor == dockName && !found
    {
      lookingFor := dockName;
      found := false;
    }

    /** Every kind of event but a dock of the wanted name leaves the finder as it was. */
    method Execute(event: LaneEvent)
      modifies this
      ensures found <==> old(found) || (event.Dock? && event.dockName == lookingFor)
    {
      match event {
        case DoorOpen(_) =>
        case DoorClose(_) =>
        case LiftSessionBegin(_, _) =>
        case LiftDoorOpen(_, _) =>
        case LiftSessionEnd(_, _) =>
        case LiftMove(_, _) =>
        case Wait(_) =>
        case Dock(dockName) =>
          if lookingFor == dockName {
            found := true;
          }
      }
    }
  }

  /**
   * The lowest-numbered lane whose entry or exit event is a dock called
   * `name`, or nothing when no lane has one.
   */
  method FindDockLane(g: Graph, name: string) returns (foundLane: Option<nat>)
    ensures foundLane.None? <==> NoDockLane(g, name)
    ensures foundLane.Some? ==> IsFirstDockLane(g, name, foundLane.value)
  {
    var finder := new DockFinder(name);
    foundLane := None;
    var i := 0;
    while i < |g.lanes|
      invariant 0 <= i <= |g.lanes|
      invariant finder.lookingFor == name && !finder.found
      invariant forall j :: 0 <= j < i ==> !LeadsToDock(g.lanes[j], name)
    {
      var lane := g.lanes[i];
      if lane.entry.event.Some? {
        finder.Execute(lane.entry.event.value);
      }
      if lane.exit.event.Some? {
        finder.Execute(lane.exit.event.value);
      }
      if finder.found {
        foundLane := Some(i);
        return;
      }
      i := i + 1;
    }
  }
}
