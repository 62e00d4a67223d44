/** The manager's methods as they run when no other thread interferes: the sweep loops themselves. */
module LifecycleManager {
  import opened Lifecycle
  import opened LifecycleRuns

  class Manager {
    var stage: Stage
    var closing: bool
    var attempted: bool
    var startStatus: Status
    var closeStatus: Status
    var components: seq<Component>
    ghost var log: seq<Call>

    ghost predicate Quiet()
      reads this
    {
      stage != Starting && stage != Closing && !closing && (attempted ==> stage == Closed || stage == Failed)
    }

    /** The fields as the state machine has them. */
    ghost function View(): Lifecycle.Manager
      reads this
    {
      Lifecycle.Manager(stage, closing, attempted, startStatus, closeStatus, components)
    }

    constructor ()
      ensures Quiet() && stage == Created && components == [] && log == []
    {
      stage, closing, attempted := Created, false, false;
      startStatus, closeStatus := Ok, Ok;
      components := [];
      log := [];
    }

    method Add(name: string) returns (ok: bool)
      requires Quiet()
      modifies this`components
      ensures Quiet() && ok == AddAccepted(old(View()), name)
      ensures components == if ok then old(components) + [Component(name, Created)] else old(components)
    {
      if stage != Created {
        return false;
      }
      for i := 0 to |components|
        invariant forall j | 0 <= j < i :: components[j].name != name
      {
        if components[i].name == name {
          return false;
        }
      }
      components := components + [Component(name, Created)];
      ok := true;
    }

    method SetStage(i: nat, s: Stage)
      requires i < |components|
      modifies this`components
      ensures components == old(components)[i := old(components)[i].(stage := s)]
      ensures View() == Mark(old(View()), i, s)
    {
      components := components[i := components[i].(stage := s)];
    }

    /** Closes components `i - 1` down to `0`, whatever the closes return. */
    method RollBack(i: nat, closes: nat -> Status, ghost s: Status) returns (ghost rolled: seq<Call>)
      requires i < |components|
      modifies this`components, this`log
      ensures |components| == |old(components)| && log == old(log) + rolled && |rolled| == i
      ensures forall k | 0 <= k < i :: rolled[k] == Call.Close(i - 1 - k, closes(i - 1 - k))
      ensures forall k | 0 <= k < i :: components[k].stage == if closes(k).Ok? then Closed else Failed
      ensures forall k | i <= k < |components| :: components[k] == old(components)[k]
      ensures RolledBack(View(), log, closes, 0, s) == RolledBack(old(View()), old(log), closes, i, s)
    {
      rolled := [];
      var j: nat := i;
      while j > 0
        invariant j <= i && |components| == |old(components)|
        invariant log == old(log) + rolled && |rolled| == i - j
        invariant forall k | 0 <= k < i - j :: rolled[k] == Call.Close(i - 1 - k, closes(i - 1 - k))
        invariant RolledBack(View(), log, closes, j, s) == RolledBack(old(View()), old(log), closes, i, s)
      {
        j := j - 1;
        var status := closes(j);
        log, rolled := log + [Call.Close(j, status)], rolled + [Call.Close(j, status)];
        SetStage(j, if status.Ok? then Closed else Failed);
      }
      RolledStages(old(View()), old(log), closes, i, s);
    }

    /** Starts component `k` and records the result. */
    method StartOne(k: nat, status: Status)
      requires k < |components|
      modifies this`components, this`log
      ensures |components| == |old(components)| && log == old(log) + [Call.Start(k, status)]
      ensures View() == Mark(Mark(old(View()), k, Starting), k, if status.Ok? then Started else Failed)
    {
      SetStage(k, Starting);
      log := log + [Call.Start(k, status)];
      SetStage(k, if status.Ok? then Started else Failed);
    }

    /** The loop of `start`, up to the first failure. */
    method StartUp(starts: nat -> Status, ghost closes: nat -> Status)
      returns (status: Status, count: nat, ghost started: seq<Call>)
      modifies this`components, this`log
      ensures |components| == |old(components)| && log == old(log) + started && |started| == count <= |components|
      ensures StartsInOrder(started) && forall k | 0 <= k < |started| :: started[k].s == starts(k)
      ensures status.Ok? ==> !StartFailed(started) && |started| == |components|
      ensures status.Err? ==> started != [] && status == started[|started| - 1].s
      ensures StartedFrom(old(View()), old(log), starts, closes, 0) ==
                if status.Ok? then StartedFrom(View(), log, starts, closes, |components|)
                else RolledBack(View(), log, closes, count - 1, status)
    {
      started, count := [], 0;
      ghost var goal := StartedFrom(View(), log, starts, closes, 0);
      while count < |components|
        invariant count <= |components| == |old(components)| && log == old(log) + started && |started| == count
        invariant StartsInOrder(started) && !StartFailed(started)
        invariant forall j | 0 <= j < count :: started[j].s == starts(j)
        invariant StartedFrom(View(), log, starts, closes, count) == goal
      {
        status := starts(count);
        StartOne(count, status);
        started, count := started + [Call.Start(count, status)], count + 1;
        if status.Err? {
          return;
        }
      }
      status := Ok;
    }

    /** The sweep of `start`, with its rollback after a failure. */
    method StartSweep(starts: nat -> Status, closes: nat -> Status)
      returns (status: Status, ghost started: seq<Call>, ghost rolled: seq<Call>)
      modifies this`components, this`log
      ensures |components| == |old(components)| && log == old(log) + started + rolled
      ensures StartsInOrder(started) && RollsInOrder(started, rolled)
      ensures forall k | 0 <= k < |started| :: started[k].s == starts(k)
      ensures status.Ok? ==> !StartFailed(started) && |started| == |components| && rolled == []
      ensures status.Err? ==> started != [] && status == started[|started| - 1].s && |rolled| == |started| - 1
      ensures StartedFrom(old(View()), old(log), starts, closes, 0) ==
                Swept(View().(stage := if status.Ok? then Started else Failed, startStatus := status), log, status)
    {
      rolled := [];
      var count;
      status, count, started := StartUp(starts, closes);
      if status.Err? {
        rolled := RollBack(count - 1, closes, status);
      }
    }

    /** `start`: the calls go up to the first failure, and a failure closes exactly what was started. */
    method Start(starts: nat -> Status, closes: nat -> Status)
      returns (status: Status, ghost started: seq<Call>, ghost rolled: seq<Call>)
      requires Quiet()
      modifies this
      ensures Quiet() && |components| == |old(components)| && log == old(log) + started + rolled
      ensures old(stage) != Created ==> started == rolled == [] && stage == old(stage)
      ensures StartsInOrder(started) && RollsInOrder(started, rolled)
      ensures forall k | 0 <= k < |started| :: started[k].s == starts(k)
      ensures |rolled| == if StartFailed(started) then |started| - 1 else 0
      ensures old(stage) == Created ==>
                if StartFailed(started) then stage == Failed && status == startStatus == started[|started| - 1].s
                else stage == Started && status == Ok && |started| == |components|
      ensures Swept(View(), log, status) == StartOutcome(old(View()), old(log), starts, closes)
    {
      if stage == Started {
        return Ok, [], [];
      }
      if stage == Closing || stage == Closed {
        return FAILED, [], [];
      }
      if stage == Failed {
        return if startStatus.Ok? then FAILED else startStatus, [], [];
      }
      stage, startStatus := Starting, Ok;
      components := Reset(components);
      status, started, rolled := StartSweep(starts, closes);
      stage, startStatus := if status.Ok? then Started else Failed, status;
    }

    /** Closes component `i`, or leaves it when the time is up, and records the result. */
    method CloseOne(i: nat, result: Status, late: bool)
      requires i < |components| && (late ==> result == DEADLINE)
      modifies this`components, this`log
      ensures |components| == |old(components)| && log == old(log) + [CloseCallOf(i, result, late)]
      ensures View() == Mark(Mark(old(View()), i, Closing), i, if result.Ok? then Closed else Failed)
    {
      SetStage(i, Closing);
      log := log + [CloseCallOf(i, result, late)];
      SetStage(i, if result.Ok? then Closed else Failed);
    }

    /** The loop of `close` over the components at `todo`. */
    method CloseSweep(todo: seq<nat>, goOn: bool, closes: nat -> Status, expired: nat -> bool)
      returns (final: Status, ghost closed: seq<Call>)
      requires forall k | 0 <= k < |todo| :: todo[k] < |components|
      modifies this`components, this`log
      ensures |components| == |old(components)| && log == old(log) + closed
      ensures ClosesInOrder(todo, closed) && final == FirstError(closed)
      ensures goOn || final.Ok? ==> |closed| == |todo|
      ensures ClosedFrom(old(View()), old(log), todo, |todo|, Ok, goOn, closes, expired) ==
                Swept(Finish(View(), final), log, final)
    {
      closed := [];
      final := Ok;
      ghost var goal := ClosedFrom(View(), log, todo, |todo|, Ok, goOn, closes, expired);
      var k: nat := |todo|;
      while k > 0
        invariant k <= |todo| && |components| == |old(components)| && log == old(log) + closed && |closed| == |todo| - k
        invariant ClosesInOrder(todo, closed) && final == FirstError(closed) && (final.Ok? || goOn)
        invariant ClosedFrom(View(), log, todo, k, final, goOn, closes, expired) == goal
      {
        k := k - 1;
        var late := expired(k);
        var result := if late then DEADLINE else closes(todo[k]);
        ghost var call := CloseCallOf(todo[k], result, late);
        ghost var before, calls := View(), log;
        CloseOne(todo[k], result, late);
        ClosedStep(before, calls, todo, k, final, goOn, closes, expired, View(), call);
        ClosesGrow(todo, closed, k, call);
        closed := closed + [call];
        final := Combine(final, result);
        if result.Err? && !goOn {
          return;
        }
      }
    }

    /** `close`: once only; downwards through what is not closed yet; the first failure is the result. */
    method Close(goOn: bool, closes: nat -> Status, expired: nat -> bool)
      returns (status: Status, ghost closed: seq<Call>)
      requires Quiet()
      modifies this
      ensures Quiet() && attempted && |components| == |old(components)| && log == old(log) + closed
      ensures status == closeStatus
      ensures old(attempted) ==> closed == [] && status == old(closeStatus) && stage == old(stage)
      ensures !old(attempted) ==>
                && var targets := Open(old(components), |old(components)|);
                && ClosesInOrder(targets, closed)
                && status == FirstError(closed)
                && (goOn || status.Ok? ==> |closed| == |targets|)
                && stage == if status.Ok? then Closed else Failed
      ensures Swept(View(), log, status) == CloseOutcome(old(View()), old(log), goOn, closes, expired)
    {
      if attempted {
        return closeStatus, [];
      }
      closing, stage := true, Closing;
      var todo := Open(components, |components|);
      status, closed := CloseSweep(todo, goOn, closes, expired);
      stage := if status.Ok? then Closed else Failed;
      closeStatus, attempted, closing := status, true, false;
    }
  }
}
