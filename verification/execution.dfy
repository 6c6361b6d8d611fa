/**
 * Command execution and its sequencing: the data of one command, the
 * command itself (its activity identifier, its schedule override and its
 * finishing), and the progress tracker that begins a queue of commands one
 * at a time and fires a one-shot completion when the queue runs out.
 *
 * The robot's serialized worker is modelled as running each scheduled task
 * at the point where it is scheduled, in order.
 */
module Execution {
  import opened Types
  import opened Robot
  import opened Location

  /** A route that temporarily replaces the planned one, and its stubbornness token. */
  datatype ScheduleOverride = ScheduleOverride(route: Route, planId: nat, stubborn: StubbornOverride)

  /** The user callback a command's `begin` hands it to. */
  datatype Request =
    | Navigate(destination: Destination)
    | DockAt(dockName: string)

  /** The sequence `s` back to front. */
  function Reversed<T>(s: seq<T>): (r: seq<T>)
    ensures |r| == |s|
  {
    if s == [] then [] else [s[|s| - 1]] + Reversed(s[..|s| - 1])
  }

  /** Reversing a concatenation reverses the parts and swaps them. */
  lemma {:induction false} ReversedAppend<T>(a: seq<T>, b: seq<T>)
    ensures Reversed(a + b) == Reversed(b) + Reversed(a)
  {
    if b == [] {
      assert a + b == a;
    } else {
      var n := |b| - 1;
      assert (a + b)[..|a + b| - 1] == a + b[..n];
      ReversedAppend(a, b[..n]);
    }
  }

  /** Reversing keeps exactly the elements of the sequence. */
  lemma {:induction false} ReversedElements<T>(s: seq<T>)
    ensures forall x :: x in Reversed(s) <==> x in s
  {
    if s != [] {
      var n := |s| - 1;
      ReversedElements(s[..n]);
      assert s == s[..n] + [s[n]];
    }
  }

  /** The back of the reversed sequence is the front of the sequence: it is popped first. */
  lemma {:induction false} ReversedLast<T>(s: seq<T>)
    requires s != []
    ensures Reversed(s)[|s| - 1] == s[0]
  {
    var n := |s| - 1;
    if n > 0 {
      ReversedLast(s[..n]);
      assert Reversed(s) == [s[n]] + Reversed(s[..n]);
    }
  }

  /** Reversing twice gives back the original sequence. */
  lemma {:induction false} ReversedTwice<T>(s: seq<T>)
    ensures Reversed(Reversed(s)) == s
  {
    if s != [] {
      var n := |s| - 1;
      ReversedAppend([s[n]], Reversed(s[..n]));
      ReversedTwice(s[..n]);
      assert Reversed([s[n]]) == [s[n]];
      assert s == s[..n] + [s[n]];
    }
  }

  /** The data a command's location updates work from. */
  class CommandData {
    const waypoints: seq<nat>
    const lanes: seq<nat>
    const finalOrientation: Option<real>
    const params: NavParams
    const arrival: ArrivalReport
    var scheduleOverride: Option<ScheduleOverride>

    /** The stubbornness token the current override refers to, if any. */
    ghost function TokenFrame(): set<object>
      reads this
    {
      if scheduleOverride.Some? then {scheduleOverride.value.stubborn} else {}
    }

    ghost predicate Valid()
      reads this, TokenFrame()
    {
      scheduleOverride.Some? ==> scheduleOverride.value.stubborn.Valid()
    }

    constructor (waypoints: seq<nat>, lanes: seq<nat>, finalOrientation: Option<real>,
                 params: NavParams, arrival: ArrivalReport)
      ensures Valid() && scheduleOverride.None?
      ensures this.waypoints == waypoints && this.lanes == lanes
      ensures this.finalOrientation == finalOrientation
      ensures this.params == params && this.arrival == arrival
    {
      this.waypoints := waypoints;
      this.lanes := lanes;
      this.finalOrientation := finalOrientation;
      this.params := params;
      this.arrival := arrival;
      scheduleOverride := None;
    }

    /**
     * Lets go of the stubbornness of the current override, if there is one
     * and its token can still be reached. Afterwards the token never holds
     * stubbornness, and a second call changes nothing.
     */
    method ReleaseStubbornness()
      requires Valid()
      modifies TokenFrame()
      ensures Valid()
      ensures scheduleOverride.Some? ==> !scheduleOverride.value.stubborn.held
      ensures scheduleOverride.Some? ==>
        scheduleOverride.value.stubborn.expired == old(scheduleOverride.value.stubborn.expired)
      ensures scheduleOverride.Some? && !old(scheduleOverride.value.stubborn.held) ==>
        unchanged(scheduleOverride.value.stubborn)
    {
      if scheduleOverride.Some? {
        var stubborn := scheduleOverride.value.stubborn;
        if !stubborn.expired {
          stubborn.held := false;
        }
      }
    }

    /**
     * A location update of the command. Under a schedule override the
     * itinerary's delay is refreshed (when the override route has points)
     * and the whole-graph starts are written; otherwise the reconciliation
     * decides the starts, and a successful update also reports an arrival
     * estimate for the last hinted waypoint. Without a planner, or when the
     * reconciliation aborts, no location is written.
     */
    method UpdateLocation(context: RobotContext, geo: Geometry, fallback: seq<PlanStart>)
      modifies context
      ensures context.planner == old(context.planner)
      ensures context.currentPlanId == old(context.currentPlanId)
      ensures context.nextPlanId == old(context.nextPlanId)
      ensures scheduleOverride.Some? ==>
        var delay := if |scheduleOverride.value.route.path| > 0
          then [Effect.CumulativeDelay(scheduleOverride.value.planId)] else [];
        if context.planner.None? then
          context.location == old(context.location)
          && context.effects == old(context.effects) + delay
        else
          context.location == fallback
          && context.effects == old(context.effects) + delay + [Effect.SetLocation(fallback)]
      ensures scheduleOverride.None? && context.planner.None? ==> unchanged(context)
      ensures scheduleOverride.None? && context.planner.Some? ==>
        var config := context.planner.value;
        forall r: Reconciliation ::
          Reconciled(config.graph, config.closedLanes, waypoints, lanes, geo, params, fallback, r) ==>
          && (r.Abort? ==> unchanged(context))
          && (!r.Abort? ==>
                && context.location == r.starts
                && context.effects == old(context.effects) + [Effect.SetLocation(r.starts)]
                   + (if |waypoints| > 0
                      then [Effect.EstimateArrival(arrival, waypoints[|waypoints| - 1])] else []))
    {
      if scheduleOverride.Some? {
        var o := scheduleOverride.value;
        if |o.route.path| > 0 {
          context.CumulativeDelay(o.planId);
        }
        if context.planner.None? {
          return;
        }
        context.SetLocation(fallback);
        return;
      }
      if context.planner.None? {
        return;
      }
      var config := context.planner.value;
      var r := Reconcile(config.graph, config.closedLanes, waypoints, lanes, geo, params, fallback);
      forall r' | Reconciled(config.graph, config.closedLanes, waypoints, lanes, geo, params, fallback, r')
        ensures r' == r
      {
        ReconciledDeterministic(config.graph, config.closedLanes, waypoints, lanes, geo, params, fallback, r', r);
      }
      if r.Abort? {
        return;
      }
      context.SetLocation(r.starts);
      if |waypoints| > 0 {
        context.EstimateArrival(arrival, waypoints[|waypoints| - 1]);
      }
    }
  }

  /**
   * One issued command. Beginning it hands it to the user callback that
   * `request` names; `finisher` is the progress tracker its completion
   * advances (null until a tracker begins it).
   */
  class CommandExecution {
    const context: RobotContext?   // the weak context reference: null once expired
    const data: CommandData
    const identifier: ActivityIdentifier?
    const request: Request
    var finisher: ProgressTracker?

    /** A new command with a fresh, live identifier and no finisher yet. */
    constructor Make(context: RobotContext?, data: CommandData, request: Request)
      ensures this.context == context && this.data == data && this.request == request
      ensures identifier != null && fresh(identifier) && identifier.live
      ensures finisher == null && Okay()
    {
      this.context := context;
      this.data := data;
      this.request := request;
      identifier := new ActivityIdentifier();
      finisher := null;
    }

    /**
     * Whether the command may still act: it has an identifier that still
     * holds its update function. A new command is okay, and a finished one
     * is not (see `Make` and `Finish`).
     */
    predicate Okay(): (ok: bool)
      reads this, identifier
      ensures ok ==> identifier != null
    {
      if identifier == null then false else identifier.live
    }

    /**
     * Reports the command finished. The first call with the robot context
     * present clears the identifier; then, under a schedule override, it
     * releases the override's stubbornness and asks for a replan without
     * advancing the sequence, and otherwise it advances the finisher
     * (when that tracker is still held by someone) exactly once. Any later
     * call sees the cleared identifier and does nothing.
     */
    method Finish()
      requires identifier != null && data.Valid()
      requires finisher != null && finisher.alive ==> finisher.Valid()
      modifies identifier, context, data.TokenFrame()
      modifies if finisher == null then {} else finisher.NextFrame()
      ensures data.Valid()
      ensures context == null || !old(identifier.live) ==>
        && unchanged(identifier)
        && (context != null ==> unchanged(context))
        && unchanged(data.TokenFrame())
        && (old(finisher) != null ==> unchanged(old(finisher)))
      ensures context != null ==> !Okay()
      ensures context != null && old(identifier.live) && data.scheduleOverride.Some? ==>
        && !data.scheduleOverride.value.stubborn.held
        && data.scheduleOverride.value.stubborn.expired == old(data.scheduleOverride.value.stubborn.expired)
        && context.effects == old(context.effects) + [Effect.RequestReplan]
        && context.location == old(context.location) && context.planner == old(context.planner)
        && context.currentPlanId == old(context.currentPlanId)
        && context.nextPlanId == old(context.nextPlanId)
        && (old(finisher) != null ==> unchanged(old(finisher)))
      ensures context != null && old(identifier.live) && data.scheduleOverride.None? ==>
        && unchanged(context)
        && (old(finisher) != null && !old(finisher.alive) ==> unchanged(old(finisher)))
        && (old(finisher) != null && old(finisher.alive) ==>
              var f := old(finisher);
              && f.Valid() && f.alive
              && f.advances == old(f.advances) + 1
              && f.original == old(f.original)
              && (old(f.reverseQueue) == [] ==> f.fired && f.begun == old(f.begun))
              && (old(f.reverseQueue) != [] ==>
                    var c := old(f.reverseQueue)[|old(f.reverseQueue)| - 1];
                    && f.begun == old(f.begun) + [c]
                    && f.currentIdentifier == c.identifier
                    && c.finisher == f
                    && f.fired == old(f.fired)))
    {
      if context == null {
        return;
      }
      if !identifier.live {
        // This activity has already finished.
        return;
      }
      identifier.live := false;
      if data.scheduleOverride.Some? {
        data.ReleaseStubbornness();
        context.RequestReplan();
      } else if finisher != null && finisher.alive {
        finisher.Next();
      }
    }

    /**
     * Installs a schedule override along `path` on `mapName`. Nothing
     * happens once the command is finished, without the robot context, or
     * without a planner; otherwise the previous override's stubbornness is
     * released, a fresh plan id carries the new route to the itinerary, and
     * the returned token holds the robot's stubbornness.
     */
    method OverrideSchedule(mapName: string, path: seq<Pose>) returns (handle: StubbornOverride)
      requires identifier != null && data.Valid()
      modifies context, data, data.TokenFrame()
      ensures fresh(handle) && handle.Valid() && data.Valid()
      ensures context == null || !identifier.live || old(context.planner).None? ==>
        && !handle.held && !handle.expired
        && unchanged(data)
        && unchanged(old(data.TokenFrame()))
        && (context != null ==> unchanged(context))
      ensures context != null && identifier.live && old(context.planner).Some? ==>
        var id := old(context.nextPlanId);
        var route := Route(mapName, path);
        && data.scheduleOverride == Some(ScheduleOverride(route, id, handle))
        && handle.held && !handle.expired
        && (old(data.scheduleOverride).Some? ==>
              && !old(data.scheduleOverride).value.stubborn.held
              && old(data.scheduleOverride).value.stubborn.expired
                 == old(data.scheduleOverride.value.stubborn.expired))
        && context.planner == old(context.planner)
        && context.effects == old(context.effects)
             + [Effect.AssignPlanId(id), Effect.SetItinerary(id, route), Effect.BeStubborn]
        && context.currentPlanId == id && context.nextPlanId == id + 1
        && context.location == old(context.location)
    {
      handle := new StubbornOverride();
      if context == null {
        return;
      }
      if !identifier.live {
        // Nothing to do: this command is finished.
        return;
      }
      if context.planner.None? {
        return;
      }
      data.ReleaseStubbornness();
      var route := Route(mapName, path);
      var id := context.AssignPlanId();
      context.SetItinerary(id, route);
      data.scheduleOverride := Some(ScheduleOverride(route, id, handle));
      context.BeStubborn();
      handle.held := true;
    }
  }

  /**
   * Begins a queue of commands one at a time. The queue is kept reversed so
   * that the next command comes off the back. Ghost state records the queue
   * it was made with, the commands begun so far, how often the one-shot
   * completion has run and how often `Next` has been called.
   */
  class ProgressTracker {
    var reverseQueue: seq<CommandExecution>
    var currentIdentifier: ActivityIdentifier?
    var fired: bool   // the one-shot completion has run
    var alive: bool   // some owner still holds the tracker
    ghost var original: seq<CommandExecution>
    ghost var begun: seq<CommandExecution>
    ghost var completions: nat
    ghost var advances: nat

    /** What beginning the next command may change: the tracker and that command. */
    ghost function NextFrame(): set<object>
      reads this
    {
      if reverseQueue == [] then {this} else {this, reverseQueue[|reverseQueue| - 1]}
    }

    /**
     * The commands begun, followed by those waiting, are the original queue
     * in order; the completion has run at most once and only with nothing
     * waiting; the current identifier is that of the last command begun, or
     * null before the first one and after completion.
     */
    ghost predicate Valid()
      reads this
    {
      && begun + Reversed(reverseQueue) == original
      && (fired ==> reverseQueue == [])
      && completions == (if fired then 1 else 0)
      && currentIdentifier == (if fired || begun == [] then null else begun[|begun| - 1].identifier)
    }

    constructor Make(queue: seq<CommandExecution>)
      ensures Valid() && alive && !fired
      ensures original == queue && begun == [] && reverseQueue == Reversed(queue)
      ensures currentIdentifier == null && advances == 0
    {
      reverseQueue := Reversed(queue);
      currentIdentifier := null;
      fired := false;
      alive := true;
      original := queue;
      begun := [];
      completions := 0;
      advances := 0;
      new;
      ReversedTwice(queue);
      assert begun + Reversed(reverseQueue) == queue;
    }

    /**
     * Begins the next command: it becomes current, its finisher is wired
     * back to this tracker, and it is handed to its user callback. With
     * nothing left, the current identifier is cleared and the one-shot
     * completion runs if it has not run yet.
     */
    method Next()
      requires Valid()
      modifies NextFrame()
      ensures Valid()
      ensures original == old(original) && alive == old(alive)
      ensures advances == old(advances) + 1
      ensures fired ==> begun == original
      ensures old(reverseQueue) == [] ==>
        && begun == old(begun) && reverseQueue == [] && fired && currentIdentifier == null
      ensures old(reverseQueue) != [] ==>
        var c := old(reverseQueue)[|old(reverseQueue)| - 1];
        && c == original[|old(begun)|]
        && begun == old(begun) + [c]
        && reverseQueue == old(reverseQueue)[..|old(reverseQueue)| - 1]
        && currentIdentifier == c.identifier
        && c.finisher == this
        && fired == old(fired)
    {
      advances := advances + 1;
      if reverseQueue == [] {
        currentIdentifier := null;
        if !fired {
          fired := true;
          completions := completions + 1;
        }
        return;
      }
      var n := |reverseQueue| - 1;
      var current := reverseQueue[n];
      assert Reversed(reverseQueue) == [current] + Reversed(reverseQueue[..n]);
      reverseQueue := reverseQueue[..n];
      currentIdentifier := current.identifier;
      current.finisher := this;
      // `begin` hands the command to the user callback its request names.
      begun := begun + [current];
    }
  }
}
