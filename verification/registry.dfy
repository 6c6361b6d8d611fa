/**
 * The fleet's registry of robot names: adding a robot claims its name
 * before anything else is checked, and only a robot that passes every
 * check gets a command handle under that name.
 */
module Registry {
  import opened Types
  import opened Handle

  class FleetRobots {
    const params: NavParams
    var cmdHandles: map<string, EasyCommandHandle?>

    constructor (params: NavParams)
      ensures this.params == params && cmdHandles == map[]
    {
      this.params := params;
      cmdHandles := map[];
    }

    /**
     * Adds the robot `name`, whose start set on the graph is `starts` and
     * whose navigation, stop and dock callbacks are all given or not. A name
     * already registered is refused and the registry is left alone. Any
     * other name is claimed at once, so after the call it is always taken:
     * an empty start set or a missing callback refuses the robot but leaves
     * its name claimed with no handle, and a later add under that name is
     * refused as a duplicate. Only a robot passing both checks gets a fresh
     * command handle, not yet attached to a robot context.
     */
    method AddRobot(name: string, starts: seq<PlanStart>, callbacksGiven: bool) returns (added: bool)
      modifies this
      ensures added <==> name !in old(cmdHandles) && starts != [] && callbacksGiven
      ensures name in cmdHandles
      ensures name in old(cmdHandles) ==> cmdHandles == old(cmdHandles)
      ensures name !in old(cmdHandles) && !added ==> cmdHandles == old(cmdHandles)[name := null]
      ensures added ==>
        var handle := cmdHandles[name];
        && cmdHandles == old(cmdHandles)[name := handle]
        && handle != null && fresh(handle)
        && handle.params == params && handle.context == null && handle.currentProgress == null
    {
      if name in cmdHandles {
        // A robot of that name was added before.
        return false;
      }
      cmdHandles := cmdHandles[name := null];
      if starts == [] {
        // The robot's initial location does not place it on the graph.
        return false;
      }
      if !callbacksGiven {
        return false;
      }
      var handle := new EasyCommandHandle(params);
      cmdHandles := cmdHandles[name := handle];
      added := true;
    }
  }
}
