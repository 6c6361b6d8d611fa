/**
 * How a command handle turns a plan's waypoints into navigation commands:
 * the map the plan starts on, the point where the plan connects to the
 * robot's current location, and the chain of commands from there to the
 * end of the plan.
 */
module PathFollow {
  import opened Types

  /**
   * One navigation command: where to go, the graph waypoints and lanes the
   * robot may report itself on meanwhile, and the plan index whose arrival
   * it estimates.
   */
  datatype NavCommand = NavCommand(
    destination: Destination,
    waypoints: seq<nat>,
    lanes: seq<nat>,
    targetIndex: nat)

  /** The planner hands over plans whose indices exist in its graph. */
  predicate PlanFitsGraph(g: Graph, wps: seq<PlanWaypoint>)
  {
    forall i :: 0 <= i < |wps| ==>
      && (wps[i].graphIndex.Some? ==> wps[i].graphIndex.value < |g.waypoints|)
      && AllBelow(wps[i].approachLanes, |g.lanes|)
  }

  predicate NoGraphIndex(wps: seq<PlanWaypoint>)
  {
    forall i :: 0 <= i < |wps| ==> wps[i].graphIndex.None?
  }

  /** `m` is the map of the first plan waypoint that is on the graph. */
  predicate IsInitialMap(g: Graph, wps: seq<PlanWaypoint>, m: string)
    requires PlanFitsGraph(g, wps)
  {
    exists i :: 0 <= i < |wps| && wps[i].graphIndex.Some?
      && (forall j :: 0 <= j < i ==> wps[j].graphIndex.None?)
      && m == g.waypoints[wps[i].graphIndex.value].mapName
  }

  /** The map of the first plan waypoint on the graph, if there is one. */
  method FindInitialMap(g: Graph, wps: seq<PlanWaypoint>) returns (m: Option<string>)
    requires PlanFitsGraph(g, wps)
    ensures m.None? <==> NoGraphIndex(wps)
    ensures m.Some? ==> IsInitialMap(g, wps, m.value)
  {
    m := None;
    var i := 0;
    while i < |wps|
      invariant 0 <= i <= |wps|
      invariant forall j :: 0 <= j < i ==> wps[j].graphIndex.None?
    {
      if wps[i].graphIndex.Some? {
        m := Some(g.waypoints[wps[i].graphIndex.value].mapName);
        return;
      }
      i := i + 1;
    }
  }

  // ---------------------------------------------------------------------------
  // Connection to the current location

  /** Some start of the location sits on graph waypoint `w`. */
  predicate WaypointTouches(w: nat, location: seq<PlanStart>)
  {
    exists l :: 0 <= l < |location| && location[l].waypoint == w
  }

  /** Some start of the location is on one of `lanes`. */
  predicate LaneTouches(lanes: seq<nat>, location: seq<PlanStart>)
  {
    exists a, l :: 0 <= a < |lanes| && 0 <= l < |location| && location[l].lane == Some(lanes[a])
  }

  /**
   * What plan index `i` says about the connection: a start on one of its
   * approach lanes (for i > 0) places the robot before it, at i - 1; failing
   * that, a start on its graph waypoint places the robot at i.
   */
  function ConnectionAt(wps: seq<PlanWaypoint>, location: seq<PlanStart>, i: nat): (r: Option<nat>)
    requires i < |wps|
    ensures r.Some? ==> r.value <= i <= r.value + 1
  {
    if i > 0 && LaneTouches(wps[i].approachLanes, location) then Some(i - 1)
    else if wps[i].graphIndex.Some? && WaypointTouches(wps[i].graphIndex.value, location) then Some(i)
    else None
  }

  /** The connection found by scanning plan indices below `upto` in order, the last one winning. */
  function LastConnection(wps: seq<PlanWaypoint>, location: seq<PlanStart>, upto: nat): (r: Option<nat>)
    requires upto <= |wps|
    ensures r.Some? ==> r.value < upto
  {
    if upto == 0 then None
    else if ConnectionAt(wps, location, upto - 1).Some? then ConnectionAt(wps, location, upto - 1)
    else LastConnection(wps, location, upto - 1)
  }

  /**
   * The scan finds nothing exactly when no plan index connects, and what it
   * finds comes from the last plan index that connects.
   */
  lemma {:induction false} LastConnectionIsLast(wps: seq<PlanWaypoint>, location: seq<PlanStart>, upto: nat)
    requires upto <= |wps|
    ensures LastConnection(wps, location, upto).None? <==>
      forall i :: 0 <= i < upto ==> ConnectionAt(wps, location, i).None?
    ensures LastConnection(wps, location, upto).Some? ==>
      exists i :: 0 <= i < upto
        && ConnectionAt(wps, location, i) == LastConnection(wps, location, upto)
        && forall j :: i < j < upto ==> ConnectionAt(wps, location, j).None?
  {
    if upto > 0 {
      LastConnectionIsLast(wps, location, upto - 1);
      if ConnectionAt(wps, location, upto - 1).None? {
        var r := LastConnection(wps, location, upto - 1);
        if r.Some? {
          var i :| 0 <= i < upto - 1
            && ConnectionAt(wps, location, i) == r
            && forall j :: i < j < upto - 1 ==> ConnectionAt(wps, location, j).None?;
          assert forall j :: i < j < upto ==> ConnectionAt(wps, location, j).None?;
        }
      }
    }
  }

  /** Whether a start of the location sits on graph waypoint `w`. */
  method MatchWaypoint(w: nat, location: seq<PlanStart>) returns (hit: bool)
    ensures hit <==> WaypointTouches(w, location)
  {
    hit := false;
    var l := 0;
    while l < |location|
      invariant 0 <= l <= |location|
      invariant hit <==> exists k :: 0 <= k < l && location[k].waypoint == w
    {
      if location[l].waypoint == w {
        hit := true;
      }
      l := l + 1;
    }
  }

  /** Whether a start of the location is on one of `lanes`. */
  method MatchLane(lanes: seq<nat>, location: seq<PlanStart>) returns (hit: bool)
    ensures hit <==> LaneTouches(lanes, location)
  {
    hit := false;
    var a := 0;
    while a < |lanes|
      invariant 0 <= a <= |lanes|
      invariant hit <==> exists b, l :: 0 <= b < a && 0 <= l < |location| && location[l].lane == Some(lanes[b])
    {
      var l := 0;
      while l < |location|
        invariant 0 <= l <= |location|
        invariant hit <==>
          (exists b, k :: 0 <= b < a && 0 <= k < |location| && location[k].lane == Some(lanes[b]))
          || (exists k :: 0 <= k < l && location[k].lane == Some(lanes[a]))
      {
        if location[l].lane.Some? && lanes[a] == location[l].lane.value {
          hit := true;
        }
        l := l + 1;
      }
      a := a + 1;
    }
  }

  /** Scans the plan for its connection to the current location. */
  method FindConnection(wps: seq<PlanWaypoint>, location: seq<PlanStart>) returns (found: Option<nat>)
    ensures found == LastConnection(wps, location, |wps|)
    ensures found.Some? ==> found.value < |wps|
  {
    found := None;
    var i := 0;
    while i < |wps|
      invariant 0 <= i <= |wps|
      invariant found == LastConnection(wps, location, i)
    {
      var before := found;
      var wp := wps[i];
      if wp.graphIndex.Some? {
        var hit := MatchWaypoint(wp.graphIndex.value, location);
        if hit {
          found := Some(i);
        }
      }
      if i > 0 {
        var hit := MatchLane(wp.approachLanes, location);
        if hit {
          found := Some(i - 1);
        }
      }
      assert found == (if ConnectionAt(wps, location, i).Some? then ConnectionAt(wps, location, i) else before);
      i := i + 1;
    }
  }

  // ---------------------------------------------------------------------------
  // Where the first command starts

  /** The number of values of the unsigned size type. */
  const SizeRange: nat := 0x1_0000_0000_0000_0000

  /** Unsigned subtraction of the size type, wrapping around below zero. */
  function SizeSub(a: nat, b: nat): (r: nat)
    requires a < SizeRange && b < SizeRange
    ensures r < SizeRange
    ensures b <= a ==> r == a - b
    ensures a < b ==> r == SizeRange + a - b
  {
    (a - b) % SizeRange
  }

  /**
   * The first command's start index as written: a connection at or past the
   * last plan index is pulled back to the one before it, computed in the
   * unsigned size type.
   */
  function FirstApproachAsWritten(found: nat, n: nat): (r: nat)
    requires 1 <= n < SizeRange && found < n
    ensures found < n - 1 ==> r == found
    ensures n >= 2 && found == n - 1 ==> r == n - 2
  {
    if found >= SizeSub(n, 1) then SizeSub(n, 2) else found
  }

  /**
   * A plan of one waypoint that connects to the location: the start index
   * wraps to the largest size value, the index after it wraps to 0, so the
   * loop over commands runs and reads the plan far outside its single entry.
   */
  lemma SingleWaypointPlanUnderflows()
    ensures FirstApproachAsWritten(0, 1) == SizeRange - 1
    ensures (FirstApproachAsWritten(0, 1) + 1) % SizeRange < 1
    ensures FirstApproachAsWritten(0, 1) >= 1
  {
  }

  /**
   * The first command's start index: a connection at or past the last plan
   * index is pulled back to the one before it, and a plan of fewer than two
   * waypoints leaves no command to issue.
   */
  function FirstApproach(found: nat, n: nat): (r: nat)
    requires found < n
    ensures n >= 2 ==> r + 1 < n
    ensures n < 2 ==> r + 1 >= n
    ensures found + 1 < n ==> r == found
    ensures found + 1 >= n && n >= 2 ==> r == n - 2
  {
    if found + 1 >= n then (if n >= 2 then n - 2 else 0) else found
  }

  /** From two waypoints on, the code as written and the corrected start index agree. */
  lemma FirstApproachAgrees(found: nat, n: nat)
    requires 2 <= n < SizeRange && found < n
    ensures FirstApproachAsWritten(found, n) == FirstApproach(found, n)
  {
  }

  // ---------------------------------------------------------------------------
  // The commands

  /** Some lane of `lanes` enters or leaves graph waypoint `w`. */
  predicate EndOf(g: Graph, lanes: seq<nat>, w: nat)
    requires AllBelow(lanes, |g.lanes|)
  {
    exists k :: 0 <= k < |lanes| && (g.lanes[lanes[k]].entry.waypoint == w || g.lanes[lanes[k]].exit.waypoint == w)
  }

  /**
   * `ws` lists each waypoint once: the start waypoint first when there is
   * one, and then every waypoint a lane of `lanes` enters or leaves, and
   * nothing else.
   */
  ghost predicate CoversOnce(g: Graph, start: Option<nat>, lanes: seq<nat>, ws: seq<nat>)
    requires AllBelow(lanes, |g.lanes|)
  {
    && NoDuplicates(ws)
    && (start.Some? ==> |ws| > 0 && ws[0] == start.value)
    && forall w :: w in ws <==> (start == Some(w) || EndOf(g, lanes, w))
  }

  /** The waypoints a command may report itself on. */
  method CommandWaypoints(g: Graph, start: Option<nat>, lanes: seq<nat>) returns (ws: seq<nat>)
    requires AllBelow(lanes, |g.lanes|)
    ensures CoversOnce(g, start, lanes, ws)
  {
    ws := if start.Some? then [start.value] else [];
    var k := 0;
    while k < |lanes|
      invariant 0 <= k <= |lanes|
      invariant NoDuplicates(ws)
      invariant start.Some? ==> |ws| > 0 && ws[0] == start.value
      invariant forall w :: w in ws <==> (start == Some(w) || EndOf(g, lanes[..k], w))
    {
      var lane := g.lanes[lanes[k]];
      if lane.entry.waypoint !in ws {
        ws := ws + [lane.entry.waypoint];
      }
      if lane.exit.waypoint !in ws {
        ws := ws + [lane.exit.waypoint];
      }
      forall w
        ensures EndOf(g, lanes[..k + 1], w) <==>
          (EndOf(g, lanes[..k], w) || w == lane.entry.waypoint || w == lane.exit.waypoint)
      {
        if EndOf(g, lanes[..k + 1], w) {
          var j :| 0 <= j < k + 1 && (g.lanes[lanes[..k + 1][j]].entry.waypoint == w
                                     || g.lanes[lanes[..k + 1][j]].exit.waypoint == w);
          if j < k {
            assert lanes[..k][j] == lanes[..k + 1][j];
          }
        }
        if EndOf(g, lanes[..k], w) {
          var j :| 0 <= j < k && (g.lanes[lanes[..k][j]].entry.waypoint == w
                                 || g.lanes[lanes[..k][j]].exit.waypoint == w);
          assert lanes[..k + 1][j] == lanes[..k][j];
        }
        if w == lane.entry.waypoint || w == lane.exit.waypoint {
          assert lanes[..k + 1][k] == lanes[k];
        }
      }
      k := k + 1;
    }
    assert lanes[..k] == lanes;
  }

  /**
   * With rotation commands skipped, plan index `i` is only a turn in place:
   * the next plan index is on the same graph waypoint.
   */
  predicate SkipsRotation(wps: seq<PlanWaypoint>, skip: bool, i: nat)
  {
    && skip
    && i + 1 < |wps|
    && wps[i].graphIndex.Some? && wps[i + 1].graphIndex.Some?
    && wps[i].graphIndex.value == wps[i + 1].graphIndex.value
  }

  /**
   * `c` is the command that leaves plan index `s`, the map of the previous
   * command (or the initial map) being `prevMap`: it heads for plan index
   * s + 1, or for s + 2 when s + 1 is only a turn in place; it keeps the
   * graph index of s + 1, the map of s + 1 when that is on the graph and
   * `prevMap` otherwise; its lanes are the approach lanes of s + 1, and its
   * waypoints are the graph waypoint of s and the ends of those lanes.
   */
  ghost predicate CommandAt(g: Graph, wps: seq<PlanWaypoint>, skip: bool, s: nat, prevMap: string, c: NavCommand)
    requires PlanFitsGraph(g, wps) && s + 1 < |wps|
  {
    var wp1 := wps[s + 1];
    var t := if SkipsRotation(wps, skip, s + 1) then s + 2 else s + 1;
    && c.targetIndex == t
    && c.destination.position == wps[t].position
    && c.destination.graphIndex == wp1.graphIndex
    && c.destination.mapName ==
         (if wp1.graphIndex.Some? then g.waypoints[wp1.graphIndex.value].mapName else prevMap)
    && c.lanes == wp1.approachLanes
    && CoversOnce(g, wps[s].graphIndex, wp1.approachLanes, c.waypoints)
  }

  /** Where command k starts: at `first`, and after that where the previous command ended. */
  function StartOf(cmds: seq<NavCommand>, first: nat, k: nat): nat
    requires k <= |cmds|
  {
    if k == 0 then first else cmds[k - 1].targetIndex
  }

  /** The map in force before command k. */
  function MapBefore(cmds: seq<NavCommand>, initialMap: string, k: nat): string
    requires k <= |cmds|
  {
    if k == 0 then initialMap else cmds[k - 1].destination.mapName
  }

  /** Plan index j is the target of some command. */
  predicate Targeted(cmds: seq<NavCommand>, j: nat)
  {
    exists k :: 0 <= k < |cmds| && cmds[k].targetIndex == j
  }

  /** Each command leaves from where the previous one ended, the first from `first`. */
  ghost predicate Chained(g: Graph, wps: seq<PlanWaypoint>, skip: bool, first: nat,
                          initialMap: string, cmds: seq<NavCommand>)
    requires PlanFitsGraph(g, wps)
  {
    forall k :: 0 <= k < |cmds| ==>
      StartOf(cmds, first, k) + 1 < |wps|
      && CommandAt(g, wps, skip, StartOf(cmds, first, k), MapBefore(cmds, initialMap, k), cmds[k])
  }

  /**
   * Every plan index strictly between `first` and `bound` is a target, or a
   * turn in place skipped on the way to the target after it.
   */
  predicate Covered(wps: seq<PlanWaypoint>, skip: bool, first: nat, bound: nat, cmds: seq<NavCommand>)
  {
    forall j: nat :: first < j < bound ==> Reached(wps, skip, cmds, j)
  }

  /** Plan index j is a target, or a turn in place skipped on the way to the next target. */
  predicate Reached(wps: seq<PlanWaypoint>, skip: bool, cmds: seq<NavCommand>, j: nat)
  {
    Targeted(cmds, j) || (SkipsRotation(wps, skip, j) && Targeted(cmds, j + 1))
  }

  /**
   * `cmds` is a decomposition of the plan from start index `first`: the
   * commands are chained, the last one ends on the final plan index, and
   * every plan index after `first` is reached.
   */
  ghost predicate Decomposition(g: Graph, wps: seq<PlanWaypoint>, skip: bool, first: nat,
                                initialMap: string, cmds: seq<NavCommand>)
    requires PlanFitsGraph(g, wps)
  {
    && Chained(g, wps, skip, first, initialMap, cmds)
    && (|cmds| > 0 ==> cmds[|cmds| - 1].targetIndex == |wps| - 1)
    && Covered(wps, skip, first, |wps|, cmds)
  }

  /** Appending the command that leaves where the chain ended keeps it chained. */
  lemma ChainExtend(g: Graph, wps: seq<PlanWaypoint>, skip: bool, first: nat,
                    initialMap: string, cmds: seq<NavCommand>, c: NavCommand)
    requires PlanFitsGraph(g, wps)
    requires Chained(g, wps, skip, first, initialMap, cmds)
    requires StartOf(cmds, first, |cmds|) + 1 < |wps|
    requires CommandAt(g, wps, skip, StartOf(cmds, first, |cmds|), MapBefore(cmds, initialMap, |cmds|), c)
    ensures Chained(g, wps, skip, first, initialMap, cmds + [c])
  {
    var ext := cmds + [c];
    forall k | 0 <= k < |ext|
      ensures StartOf(ext, first, k) + 1 < |wps|
      ensures CommandAt(g, wps, skip, StartOf(ext, first, k), MapBefore(ext, initialMap, k), ext[k])
    {
      if k < |cmds| {
        assert ext[k] == cmds[k];
        assert StartOf(ext, first, k) == StartOf(cmds, first, k);
        assert MapBefore(ext, initialMap, k) == MapBefore(cmds, initialMap, k);
        assert CommandAt(g, wps, skip, StartOf(cmds, first, k), MapBefore(cmds, initialMap, k), cmds[k]);
      } else {
        assert k == |cmds| && ext[k] == c;
        assert StartOf(ext, first, k) == StartOf(cmds, first, |cmds|);
        assert MapBefore(ext, initialMap, k) == MapBefore(cmds, initialMap, |cmds|);
      }
    }
  }

  /** Along a chain, each command ends past where the previous one ended. */
  lemma ChainIncreases(g: Graph, wps: seq<PlanWaypoint>, skip: bool, first: nat,
                       initialMap: string, cmds: seq<NavCommand>)
    requires PlanFitsGraph(g, wps)
    requires Chained(g, wps, skip, first, initialMap, cmds)
    ensures forall k :: 0 < k < |cmds| ==> cmds[k - 1].targetIndex < cmds[k].targetIndex
  {
    forall k | 0 < k < |cmds|
      ensures cmds[k - 1].targetIndex < cmds[k].targetIndex
    {
      assert CommandAt(g, wps, skip, StartOf(cmds, first, k), MapBefore(cmds, initialMap, k), cmds[k]);
    }
  }

  /** A command ending at `bound`, or one past a skipped turn there, extends the covered range. */
  lemma CoverExtend(wps: seq<PlanWaypoint>, skip: bool, first: nat, bound: nat,
                    cmds: seq<NavCommand>, c: NavCommand)
    requires Covered(wps, skip, first, bound, cmds)
    requires c.targetIndex == bound || (c.targetIndex == bound + 1 && SkipsRotation(wps, skip, bound))
    ensures Covered(wps, skip, first, c.targetIndex + 1, cmds + [c])
  {
    var ext := cmds + [c];
    assert ext[|cmds|] == c;
    forall j: nat | first < j < c.targetIndex + 1
      ensures Reached(wps, skip, ext, j)
    {
      if j == c.targetIndex {
        assert ext[|cmds|].targetIndex == j;
      } else if j == bound {
        assert ext[|cmds|].targetIndex == j + 1;
      } else {
        assert Reached(wps, skip, cmds, j);
        if Targeted(cmds, j) {
          var k :| 0 <= k < |cmds| && cmds[k].targetIndex == j;
          assert ext[k] == cmds[k];
        } else {
          var k :| 0 <= k < |cmds| && cmds[k].targetIndex == j + 1;
          assert ext[k] == cmds[k];
        }
      }
    }
  }

  /**
   * The command leaving plan index `i0`, and whether it skips a turn in
   * place so that the next command leaves one plan index later.
   */
  method NextCommand(g: Graph, wps: seq<PlanWaypoint>, skip: bool, i0: nat, prevMap: string)
    returns (c: NavCommand, skipNext: bool)
    requires PlanFitsGraph(g, wps) && i0 + 1 < |wps|
    ensures CommandAt(g, wps, skip, i0, prevMap, c)
    ensures skipNext <==> SkipsRotation(wps, skip, i0 + 1)
  {
    var i1 := i0 + 1;
    var wp1 := wps[i1];
    var cmdWps := CommandWaypoints(g, wps[i0].graphIndex, wp1.approachLanes);
    var cmdLanes := wp1.approachLanes;
    var mapName := prevMap;
    if wp1.graphIndex.Some? {
      mapName := g.waypoints[wp1.graphIndex.value].mapName;
    }
    var target := i1;
    skipNext := false;
    if skip {
      var i2 := i1 + 1;
      if i2 < |wps| {
        var wp2 := wps[i2];
        if wp1.graphIndex.Some? && wp2.graphIndex.Some? {
          if wp1.graphIndex.value == wp2.graphIndex.value {
            target := i2;
            skipNext := true;
          }
        }
      }
    }
    c := NavCommand(Destination(mapName, wps[target].position, wp1.graphIndex), cmdWps, cmdLanes, target);
  }

  /**
   * Builds the commands from the plan index the robot connects at. From
   * two plan waypoints on there is at least one command; target indices
   * strictly increase along the chain.
   */
  method Decompose(g: Graph, wps: seq<PlanWaypoint>, skip: bool, found: nat, initialMap: string)
    returns (cmds: seq<NavCommand>)
    requires PlanFitsGraph(g, wps) && found < |wps|
    ensures Decomposition(g, wps, skip, FirstApproach(found, |wps|), initialMap, cmds)
    ensures |wps| >= 2 <==> |cmds| > 0
    ensures forall k :: 0 < k < |cmds| ==> cmds[k - 1].targetIndex < cmds[k].targetIndex
  {
    var n := |wps|;
    var first := FirstApproach(found, n);
    var i0 := first;
    var i1 := i0 + 1;
    var mapName := initialMap;
    cmds := [];
    while i1 < n
      invariant i1 == i0 + 1 && first <= i0 < n
      invariant i0 == StartOf(cmds, first, |cmds|)
      invariant mapName == MapBefore(cmds, initialMap, |cmds|)
      invariant Chained(g, wps, skip, first, initialMap, cmds)
      invariant Covered(wps, skip, first, i1, cmds)
      decreases n - i1
    {
      var c, skipNext := NextCommand(g, wps, skip, i0, mapName);
      ChainExtend(g, wps, skip, first, initialMap, cmds, c);
      CoverExtend(wps, skip, first, i1, cmds, c);
      cmds := cmds + [c];
      assert StartOf(cmds, first, |cmds|) == c.targetIndex;
      assert MapBefore(cmds, initialMap, |cmds|) == c.destination.mapName;
      mapName := c.destination.mapName;
      if skipNext {
        i0 := i0 + 1;
        i1 := i1 + 1;
      }
      i0 := i0 + 1;
      i1 := i1 + 1;
    }
    ChainIncreases(g, wps, skip, first, initialMap, cmds);
  }
}
