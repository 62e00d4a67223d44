/**
 What `start` and `close` compute when no other thread interferes, as functions of the manager, and the proof
 that each is a run of the state machine by one thread.
 */
module LifecycleRuns {
  import opened Lifecycle

  // ----------------------------------------------------- runs of the machine

  predicate By(t: nat, step: Step) {
    step == BeginStart(t) || (step.BeginClose? && step.t == t) || (step.Move? && step.t == t)
  }

  /** Where a run by thread `t` began, its steps, and where it is. */
  datatype Trail = Trail(t: nat, start: State, steps: seq<Step>, now: State)

  /** It is a run of the machine, all its steps are those of the thread, and `t` is one. */
  ghost predicate Genuine(tr: Trail) {
    && Runs(tr.start, tr.steps, tr.now)
    && tr.t < |tr.now.threads|
    && forall i | 0 <= i < |tr.steps| :: By(tr.t, tr.steps[i])
  }

  type Run = tr: Trail | Genuine(tr) ghost witness Trail(0, Fresh(1), [], Fresh(1))

  function PhaseOf(tr: Run): Phase { tr.now.threads[tr.t] }

  /** The same thread's run, further on. */
  predicate Continues(r: Run, tr: Run) { r.t == tr.t && r.start == tr.start }

  lemma {:induction false} RunsOn(st: State, steps: seq<Step>, now: State, step: Step)
    requires Runs(st, steps, now) && Enabled(now, step)
    ensures Runs(st, steps + [step], Apply(now, step))
    decreases |steps|
  {
    if steps == [] {
      assert [step][1..] == [];
      assert steps + [step] == [step];
    } else {
      RunsOn(Apply(st, steps[0]), steps[1..], now, step);
      assert (steps + [step])[1..] == steps[1..] + [step];
    }
  }

  lemma {:induction false} Further(tr: Run, step: Step) returns (r: Run)
    requires By(tr.t, step) && Enabled(tr.now, step)
    ensures Continues(r, tr) && r.now == Apply(tr.now, step)
  {
    RunsOn(tr.start, tr.steps, tr.now, step);
    r := Trail(tr.t, tr.start, tr.steps + [step], Apply(tr.now, step));
  }

  lemma {:induction false} StartMarkMove(st: State, t: nat, k: nat, move: Step)
    requires t < |st.threads| && st.threads[t] == StartMark(k) && k < |st.m.components| && move.Move? && move.t == t
    ensures Enabled(st, move) && Apply(st, move) == Go(st.(m := Mark(st.m, k, Starting)), t, StartCall(k))
  {
  }

  lemma {:induction false} StartCallMove(st: State, t: nat, k: nat, move: Step, call: Call)
    requires t < |st.threads| && st.threads[t] == StartCall(k) && move.Move? && move.t == t
    requires call == Start(k, move.result)
    ensures Enabled(st, move)
    ensures Apply(st, move) ==
              Go(st.(log := st.log + [call], started := st.started + [call]), t, StartDone(k, move.result))
  {
  }

  lemma {:induction false} StartDoneMove(st: State, t: nat, k: nat, s: Status, move: Step)
    requires t < |st.threads| && st.threads[t] == StartDone(k, s) && move.Move? && move.t == t
    ensures Enabled(st, move)
    ensures Apply(st, move) == Go(st.(m := Mark(st.m, k, if s.Ok? then Started else Failed)), t, AfterStart(k, s))
  {
  }

  /** Where the sweep stands after one component. */
  function AfterStart(k: nat, s: Status): Phase { if s.Ok? then StartMark(k + 1) else RollCall(k, k, s) }

  /** One component of a start sweep: marked, started, marked again. */
  lemma {:induction false} StartTurn(tr: Run, k: nat, s: Status) returns (r: Run)
    requires PhaseOf(tr) == StartMark(k) && k < |tr.now.m.components|
    ensures Continues(r, tr)
    ensures r.now.m == Mark(Mark(tr.now.m, k, Starting), k, if s.Ok? then Started else Failed)
    ensures r.now.log == tr.now.log + [Start(k, s)]
    ensures PhaseOf(r) == AfterStart(k, s)
  {
    var t, move := tr.t, Move(tr.t, s, false);
    StartMarkMove(tr.now, t, k, move);
    var a := Further(tr, move);
    StartCallMove(a.now, t, k, move, Start(k, s));
    var b := Further(a, move);
    StartDoneMove(b.now, t, k, s, move);
    r := Further(b, move);
  }

  lemma {:induction false} RollCallMove(st: State, t: nat, i: nat, j: nat, s: Status, move: Step, call: Call)
    requires t < |st.threads| && st.threads[t] == RollCall(i, j, s) && j > 0 && move.Move? && move.t == t
    requires call == Close(j - 1, move.result)
    ensures Enabled(st, move)
    ensures Apply(st, move) ==
              Go(st.(log := st.log + [call], rolled := st.rolled + [call]), t, RollMark(i, j - 1, move.result, s))
  {
  }

  lemma {:induction false} RollMarkMove(st: State, t: nat, i: nat, j: nat, result: Status, s: Status, move: Step)
    requires t < |st.threads| && st.threads[t] == RollMark(i, j, result, s) && move.Move? && move.t == t
    ensures Enabled(st, move)
    ensures Apply(st, move) == Go(st.(m := Mark(st.m, j, if result.Ok? then Closed else Failed)), t, RollCall(i, j, s))
  {
  }

  /** One component of a rollback: closed, then marked. */
  lemma {:induction false} RollTurn(tr: Run, i: nat, j: nat, s: Status, result: Status) returns (r: Run)
    requires PhaseOf(tr) == RollCall(i, j, s) && j > 0
    ensures Continues(r, tr)
    ensures r.now.m == Mark(tr.now.m, j - 1, if result.Ok? then Closed else Failed)
    ensures r.now.log == tr.now.log + [Close(j - 1, result)]
    ensures PhaseOf(r) == RollCall(i, j - 1, s)
  {
    var t, move := tr.t, Move(tr.t, result, false);
    RollCallMove(tr.now, t, i, j, s, move, Close(j - 1, result));
    var a := Further(tr, move);
    RollMarkMove(a.now, t, i, j - 1, result, s, move);
    r := Further(a, move);
  }

  /** The close call, or its omission when the time is up. */
  function CloseCallOf(i: nat, result: Status, late: bool): Call {
    if late then Skip(i, DEADLINE) else Close(i, result)
  }

  /** Where the sweep stands after one component. */
  function AfterClose(k: nat, final: Status, goOn: bool, s: Status): Phase {
    if s.Ok? then CloseMark(k, final, goOn)
    else if goOn then CloseMark(k, Combine(final, s), goOn)
    else CloseAbort(s)
  }

  lemma {:induction false} MarkMove(st: State, t: nat, k: nat, final: Status, goOn: bool, move: Step, i: nat)
    requires t < |st.threads| && st.threads[t] == CloseMark(k, final, goOn) && 0 < k <= |st.targets|
    requires i == st.targets[k - 1] && move.Move? && move.t == t
    ensures Enabled(st, move)
    ensures Apply(st, move) == Go(st.(m := Mark(st.m, i, Closing)), t, CloseCall(k - 1, final, goOn))
  {
  }

  lemma {:induction false} CallMove(st: State, t: nat, k: nat, final: Status, goOn: bool, move: Step, call: Call)
    requires t < |st.threads| && st.threads[t] == CloseCall(k, final, goOn) && k < |st.targets|
    requires move.Move? && move.t == t && call == CloseCallOf(st.targets[k], move.result, move.expired)
    ensures Enabled(st, move)
    ensures Apply(st, move) ==
              Go(st.(log := st.log + [call], closed := st.closed + [call]), t, CloseDone(k, call.s, final, goOn))
  {
  }

  lemma {:induction false} DoneMove(st: State, t: nat, k: nat, s: Status, final: Status, goOn: bool, move: Step, i: nat)
    requires t < |st.threads| && st.threads[t] == CloseDone(k, s, final, goOn) && k < |st.targets|
    requires i == st.targets[k] && move.Move? && move.t == t
    ensures Enabled(st, move)
    ensures Apply(st, move) ==
              Go(st.(m := Mark(st.m, i, if s.Ok? then Closed else Failed)), t, AfterClose(k, final, goOn, s))
  {
  }

  /** One component of a close sweep: marked, closed, marked again. */
  lemma {:induction false} CloseTurn(
    tr: Run, k: nat, final: Status, goOn: bool, result: Status, late: bool, i: nat, call: Call) returns (r: Run)
    requires PhaseOf(tr) == CloseMark(k, final, goOn) && 0 < k <= |tr.now.targets|
    requires i == tr.now.targets[k - 1] && call == CloseCallOf(i, result, late)
    ensures Continues(r, tr) && r.now.targets == tr.now.targets
    ensures r.now.m == Mark(Mark(tr.now.m, i, Closing), i, if call.s.Ok? then Closed else Failed)
    ensures r.now.log == tr.now.log + [call]
    ensures PhaseOf(r) == AfterClose(k - 1, final, goOn, call.s)
  {
    var t, move := tr.t, Move(tr.t, result, late);
    MarkMove(tr.now, t, k, final, goOn, move, i);
    var a := Further(tr, move);
    CallMove(a.now, t, k - 1, final, goOn, move, call);
    var b := Further(a, move);
    DoneMove(b.now, t, k - 1, call.s, final, goOn, move, i);
    r := Further(b, move);
  }

  /** A call begins and, since nothing is in progress, gets past its wait. */
  lemma {:induction false} EnterRun(st: State, t: nat, begin: Step) returns (r: Run)
    requires t < |st.threads| && st.threads[t].Idle? && !Busy(st.m)
    requires begin == BeginStart(t) || (begin.BeginClose? && begin.t == t)
    ensures r.t == t && r.start == st
    ensures begin.BeginStart? ==> r.now == EnterStart(Go(st, t, StartWait), t)
    ensures begin.BeginClose? ==> r.now == EnterClose(Go(st, t, CloseWait(begin.goOn)), t, begin.goOn)
  {
    r := Trail(t, st, [], st);
    r := Further(r, begin);
    r := Further(r, Move(t, Ok, false));
  }

  lemma {:induction false} StartEnters(st: State, t: nat) returns (r: Run)
    requires t < |st.threads| && st.threads[t].Idle? && !Busy(st.m)
    ensures r.t == t && r.start == st && r.now.log == st.log
    ensures st.m.stage == Created ==>
              && r.now.m == st.m.(stage := Starting, startStatus := Ok, components := Reset(st.m.components))
              && PhaseOf(r) == StartMark(0)
    ensures st.m.stage != Created ==> r.now.m == st.m && PhaseOf(r) == StartReturned(StartAnswer(st.m))
  {
    r := EnterRun(st, t, BeginStart(t));
  }

  /** What `start` answers when there is nothing to start. */
  function StartAnswer(m: Lifecycle.Manager): Status {
    if m.stage == Started then Ok
    else if m.stage == Failed && m.startStatus.Err? then m.startStatus
    else FAILED
  }

  lemma {:induction false} CloseEnters(st: State, t: nat, goOn: bool) returns (r: Run)
    requires t < |st.threads| && st.threads[t].Idle? && !Busy(st.m)
    ensures r.t == t && r.start == st && r.now.log == st.log
    ensures st.m.attempted ==> r.now.m == st.m && PhaseOf(r) == CloseReturned(st.m.closeStatus)
    ensures !st.m.attempted ==>
              && r.now.m == st.m.(closing := true, stage := Closing)
              && r.now.targets == Open(st.m.components, |st.m.components|)
              && PhaseOf(r) == CloseMark(|r.now.targets|, Ok, goOn)
  {
    r := EnterRun(st, t, BeginClose(t, goOn));
  }

  /** The critical section that ends a start sweep. */
  lemma {:induction false} StartEnds(tr: Run, i: nat, s: Status) returns (r: Run)
    requires PhaseOf(tr) == if s.Ok? then StartMark(|tr.now.m.components|) else RollCall(i, 0, s)
    ensures Continues(r, tr) && r.now.log == tr.now.log
    ensures r.now.m == tr.now.m.(stage := if s.Ok? then Started else Failed, startStatus := s)
    ensures PhaseOf(r) == StartReturned(s)
  {
    r := Further(tr, Move(tr.t, Ok, false));
  }

  /** The critical section that ends a close sweep. */
  lemma {:induction false} CloseEnds(tr: Run, s: Status, goOn: bool) returns (r: Run)
    requires PhaseOf(tr) == CloseMark(0, s, goOn) || PhaseOf(tr) == CloseAbort(s)
    ensures Continues(r, tr) && r.now.log == tr.now.log
    ensures r.now.m == Finish(tr.now.m, s) && PhaseOf(r) == CloseReturned(s)
  {
    r := Further(tr, Move(tr.t, Ok, false));
  }

  // ------------------------------------------------------ the sweeps as functions

  /** The manager and the calls after a sweep, and the status returned. */
  datatype Swept = Swept(m: Lifecycle.Manager, log: seq<Call>, status: Status)

  /** Closing components `j - 1` down to `0`; the failure `s` is what the start then returns. */
  function RolledBack(m: Lifecycle.Manager, log: seq<Call>, closes: nat -> Status, j: nat, s: Status): Swept
    decreases j
  {
    if j == 0 then Swept(m.(stage := Failed, startStatus := s), log, s)
    else
      var r := closes(j - 1);
      RolledBack(Mark(m, j - 1, if r.Ok? then Closed else Failed), log + [Close(j - 1, r)], closes, j - 1, s)
  }

  /** Starting components from `k` on. */
  function StartedFrom(
    m: Lifecycle.Manager, log: seq<Call>, starts: nat -> Status, closes: nat -> Status, k: nat): Swept
    decreases |m.components| - k
  {
    if k >= |m.components| then Swept(m.(stage := Started, startStatus := Ok), log, Ok)
    else
      var s := starts(k);
      var marked := Mark(Mark(m, k, Starting), k, if s.Ok? then Started else Failed);
      if s.Ok? then StartedFrom(marked, log + [Start(k, s)], starts, closes, k + 1)
      else RolledBack(marked, log + [Start(k, s)], closes, k, s)
  }

  /** `start` as a whole. */
  function StartOutcome(m: Lifecycle.Manager, log: seq<Call>, starts: nat -> Status, closes: nat -> Status): Swept {
    if m.stage != Created then Swept(m, log, StartAnswer(m))
    else
      var begun := m.(stage := Starting, startStatus := Ok, components := Reset(m.components));
      StartedFrom(begun, log, starts, closes, 0)
  }

  /** Closing the targets below position `k`, from the last one down. */
  function ClosedFrom(
    m: Lifecycle.Manager, log: seq<Call>, targets: seq<nat>, k: nat, final: Status, goOn: bool,
    closes: nat -> Status, expired: nat -> bool): Swept
    requires k <= |targets|
    decreases k
  {
    if k == 0 then Swept(Finish(m, final), log, final)
    else
      var i := targets[k - 1];
      var call := CloseCallOf(i, closes(i), expired(k - 1));
      var marked := Mark(Mark(m, i, Closing), i, if call.s.Ok? then Closed else Failed);
      if call.s.Err? && !goOn then Swept(Finish(marked, call.s), log + [call], call.s)
      else ClosedFrom(marked, log + [call], targets, k - 1, Combine(final, call.s), goOn, closes, expired)
  }

  /** `close` as a whole. */
  function CloseOutcome(
    m: Lifecycle.Manager, log: seq<Call>, goOn: bool, closes: nat -> Status, expired: nat -> bool): Swept
  {
    if m.attempted then Swept(m, log, m.closeStatus)
    else
      var targets := Open(m.components, |m.components|);
      ClosedFrom(m.(closing := true, stage := Closing), log, targets, |targets|, Ok, goOn, closes, expired)
  }

  /** A rollback records each result at its component and leaves the others alone. */
  lemma {:induction false} RolledStages(m: Lifecycle.Manager, log: seq<Call>, closes: nat -> Status, j: nat, s: Status)
    requires j <= |m.components|
    ensures var after := RolledBack(m, log, closes, j, s).m.components;
            && |after| == |m.components|
            && (forall k | 0 <= k < j :: after[k].stage == if closes(k).Ok? then Closed else Failed)
            && (forall k | j <= k < |after| :: after[k] == m.components[k])
    decreases j
  {
    if j > 0 {
      var r := closes(j - 1);
      RolledStages(Mark(m, j - 1, if r.Ok? then Closed else Failed), log + [Close(j - 1, r)], closes, j - 1, s);
    }
  }

  lemma {:induction false} ClosesGrow(targets: seq<nat>, closed: seq<Call>, k: nat, call: Call)
    requires ClosesInOrder(targets, closed) && |closed| + k + 1 == |targets| && !call.Start? && call.i == targets[k]
    ensures ClosesInOrder(targets, closed + [call])
    ensures FirstError(closed + [call]) == Combine(FirstError(closed), call.s)
  {
    assert (closed + [call])[..|closed|] == closed;
  }

  lemma {:induction false} RolledStep(
    m: Lifecycle.Manager, log: seq<Call>, closes: nat -> Status, j: nat, s: Status, marked: Lifecycle.Manager)
    requires marked == Mark(m, j, if closes(j).Ok? then Closed else Failed)
    ensures RolledBack(m, log, closes, j + 1, s) == RolledBack(marked, log + [Close(j, closes(j))], closes, j, s)
  {
  }

  lemma {:induction false} StartedStep(
    m: Lifecycle.Manager, log: seq<Call>, starts: nat -> Status, closes: nat -> Status, k: nat,
    marked: Lifecycle.Manager, s: Status)
    requires k < |m.components| && s == starts(k)
    requires marked == Mark(Mark(m, k, Starting), k, if s.Ok? then Started else Failed)
    ensures StartedFrom(m, log, starts, closes, k) ==
              if s.Ok? then StartedFrom(marked, log + [Start(k, s)], starts, closes, k + 1)
              else RolledBack(marked, log + [Start(k, s)], closes, k, s)
  {
  }

  /** A component closed with `call` leaves the rest of the sweep, or ends it. */
  lemma {:induction false} ClosedStep(
    m: Lifecycle.Manager, log: seq<Call>, targets: seq<nat>, k: nat, final: Status, goOn: bool,
    closes: nat -> Status, expired: nat -> bool, marked: Lifecycle.Manager, call: Call)
    requires k < |targets| && call == CloseCallOf(targets[k], closes(targets[k]), expired(k))
    requires marked == Mark(Mark(m, targets[k], Closing), targets[k], if call.s.Ok? then Closed else Failed)
    ensures ClosedFrom(m, log, targets, k + 1, final, goOn, closes, expired) ==
              if call.s.Err? && !goOn then Swept(Finish(marked, call.s), log + [call], call.s)
              else ClosedFrom(marked, log + [call], targets, k, Combine(final, call.s), goOn, closes, expired)
  {
  }

  // ---------------------------------------------------- the sweeps are such runs

  ghost predicate Reaches(r: Run, swept: Swept, phase: Phase) {
    r.now.m == swept.m && r.now.log == swept.log && PhaseOf(r) == phase
  }

  lemma {:induction false} RollbackIsRun(tr: Run, closes: nat -> Status, i: nat, j: nat, s: Status) returns (r: Run)
    requires PhaseOf(tr) == RollCall(i, j, s) && s.Err?
    ensures Continues(r, tr) && Reaches(r, RolledBack(tr.now.m, tr.now.log, closes, j, s), StartReturned(s))
    decreases j
  {
    if j == 0 {
      r := StartEnds(tr, i, s);
    } else {
      var next := RollTurn(tr, i, j, s, closes(j - 1));
      RolledStep(tr.now.m, tr.now.log, closes, j - 1, s, next.now.m);
      r := RollbackIsRun(next, closes, i, j - 1, s);
    }
  }

  lemma {:induction false} StartSweepIsRun(tr: Run, starts: nat -> Status, closes: nat -> Status, k: nat)
    returns (r: Run)
    requires PhaseOf(tr) == StartMark(k) && k <= |tr.now.m.components|
    ensures Continues(r, tr)
    ensures var swept := StartedFrom(tr.now.m, tr.now.log, starts, closes, k);
            Reaches(r, swept, StartReturned(swept.status))
    decreases |tr.now.m.components| - k
  {
    if k == |tr.now.m.components| {
      r := StartEnds(tr, 0, Ok);
    } else {
      var next := StartTurn(tr, k, starts(k));
      StartedStep(tr.now.m, tr.now.log, starts, closes, k, next.now.m, starts(k));
      if starts(k).Ok? {
        r := StartSweepIsRun(next, starts, closes, k + 1);
      } else {
        RolledStatus(next.now.m, next.now.log, closes, k, starts(k));
        r := RollbackIsRun(next, closes, k, k, starts(k));
      }
    }
  }

  lemma {:induction false} RolledStatus(
    m: Lifecycle.Manager, log: seq<Call>, closes: nat -> Status, j: nat, s: Status)
    ensures RolledBack(m, log, closes, j, s).status == s
    decreases j
  {
    if j > 0 {
      var r := closes(j - 1);
      RolledStatus(Mark(m, j - 1, if r.Ok? then Closed else Failed), log + [Close(j - 1, r)], closes, j - 1, s);
    }
  }

  lemma {:induction false} CloseSweepIsRun(
    tr: Run, k: nat, final: Status, goOn: bool, closes: nat -> Status, expired: nat -> bool) returns (r: Run)
    requires k <= |tr.now.targets| && PhaseOf(tr) == CloseMark(k, final, goOn) && (final.Ok? || goOn)
    ensures Continues(r, tr)
    ensures var swept := ClosedFrom(tr.now.m, tr.now.log, tr.now.targets, k, final, goOn, closes, expired);
            Reaches(r, swept, CloseReturned(swept.status))
    decreases k
  {
    if k == 0 {
      r := CloseEnds(tr, final, goOn);
    } else {
      var i := tr.now.targets[k - 1];
      var call := CloseCallOf(i, closes(i), expired(k - 1));
      var next := CloseTurn(tr, k, final, goOn, closes(i), expired(k - 1), i, call);
      ClosedStep(tr.now.m, tr.now.log, tr.now.targets, k - 1, final, goOn, closes, expired, next.now.m, call);
      if call.s.Err? && !goOn {
        r := CloseEnds(next, call.s, goOn);
      } else {
        r := CloseSweepIsRun(next, k - 1, Combine(final, call.s), goOn, closes, expired);
      }
    }
  }

  /** `start` by an idle thread, when nothing is in progress, is a run of the machine with the same calls, the
      same final state and the same status. */
  lemma {:induction false} StartIsRun(st: State, t: nat, starts: nat -> Status, closes: nat -> Status) returns (r: Run)
    requires t < |st.threads| && st.threads[t].Idle? && !Busy(st.m)
    ensures r.t == t && r.start == st
    ensures var swept := StartOutcome(st.m, st.log, starts, closes); Reaches(r, swept, StartReturned(swept.status))
  {
    r := StartEnters(st, t);
    if st.m.stage == Created { r := StartSweepIsRun(r, starts, closes, 0); }
  }

  /** And so is `close`. */
  lemma {:induction false} CloseIsRun(st: State, t: nat, goOn: bool, closes: nat -> Status, expired: nat -> bool)
    returns (r: Run)
    requires t < |st.threads| && st.threads[t].Idle? && !Busy(st.m)
    ensures r.t == t && r.start == st
    ensures var swept := CloseOutcome(st.m, st.log, goOn, closes, expired);
            Reaches(r, swept, CloseReturned(swept.status))
  {
    r := CloseEnters(st, t, goOn);
    if !st.m.attempted { r := CloseSweepIsRun(r, |r.now.targets|, Ok, goOn, closes, expired); }
  }
}
