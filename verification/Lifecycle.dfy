/**
 The lifecycle manager as a state machine.  Any number of threads call `add`, `start`, `waitIdle` and `close`;
 a step is one critical section or one component call, and component calls happen outside the lock with
 arbitrary results.
 */
module Lifecycle {

  datatype Status = Ok | Err(code: int)

  /** `combineStatus`: the first failure wins. */
  function Combine(current: Status, next: Status): Status {
    if current.Err? then current else next
  }

  datatype Stage = Created | Starting | Started | Closing | Closed | Failed

  datatype Component = Component(name: string, stage: Stage)

  /** The fields under the lock. */
  datatype Manager = Manager(
    stage: Stage, closing: bool, attempted: bool, startStatus: Status, closeStatus: Status,
    components: seq<Component>)

  /** Where one call of a thread stands. `k` counts components, `s` is the failure being rolled back,
      `final` the combined status so far. */
  datatype Phase =
    | Idle
    | StartWait
    | StartMark(k: nat)
    | StartCall(k: nat)
    | StartDone(k: nat, result: Status)
    | RollCall(i: nat, j: nat, s: Status)
    | RollMark(i: nat, j: nat, result: Status, s: Status)
    | CloseWait(goOn: bool)
    | CloseMark(k: nat, final: Status, goOn: bool)
    | CloseCall(k: nat, final: Status, goOn: bool)
    | CloseDone(k: nat, result: Status, final: Status, goOn: bool)
    | CloseAbort(result: Status)
    | StartReturned(status: Status)
    | CloseReturned(status: Status)
    | TimedOut

  predicate InStart(p: Phase) {
    p.StartMark? || p.StartCall? || p.StartDone? || p.RollCall? || p.RollMark?
  }

  predicate InClose(p: Phase) {
    p.CloseMark? || p.CloseCall? || p.CloseDone? || p.CloseAbort?
  }

  predicate Sweeping(p: Phase) { InStart(p) || InClose(p) }

  /** A component call and its result; `Skip` is a close that was not made because the time was up. */
  datatype Call = Start(i: nat, s: Status) | Close(i: nat, s: Status) | Skip(i: nat, s: Status)

  datatype Sweeper = NoOne | Thread(t: nat)

  /** `log` is every component call in order.  It is also kept in three parts: `started` the start calls,
      `rolled` the closes of a rollback and `closed` those of the close sweep over `targets`. */
  datatype State = State(
    m: Manager, threads: seq<Phase>, sweeper: Sweeper, starts: nat, closes: nat,
    log: seq<Call>, started: seq<Call>, rolled: seq<Call>, closed: seq<Call>, targets: seq<nat>, goOn: bool)

  // -------------------------------------------------------------------- steps

  datatype Step =
    | Add(name: string)
    | BeginStart(t: nat)
    | BeginClose(t: nat, goOn: bool)
    | WaitIdle
    | TimeOut(t: nat)
    | Move(t: nat, result: Status, expired: bool)

  predicate AddAccepted(m: Manager, name: string) {
    m.stage == Created && forall i | 0 <= i < |m.components| :: m.components[i].name != name
  }

  predicate Busy(m: Manager) { m.stage == Starting || m.closing }

  function Mark(m: Manager, i: nat, stage: Stage): Manager {
    if i < |m.components| then m.(components := m.components[i := m.components[i].(stage := stage)]) else m
  }

  /** The components a close sweep takes on: those not closed already, by index. */
  function Open(components: seq<Component>, n: nat): (r: seq<nat>)
    requires n <= |components|
    ensures forall x :: x in r <==> 0 <= x < n && components[x].stage != Closed
    ensures forall i | 0 <= i < |r| :: r[i] < n
    ensures forall i, j | 0 <= i < j < |r| :: r[i] < r[j]
  {
    if n == 0 then []
    else if components[n - 1].stage != Closed then Open(components, n - 1) + [n - 1]
    else Open(components, n - 1)
  }

  function Reset(components: seq<Component>): (r: seq<Component>)
    ensures |r| == |components| && forall i | 0 <= i < |r| :: r[i].name == components[i].name
  {
    seq(|components|, i requires 0 <= i < |components| => components[i].(stage := Created))
  }

  function Go(st: State, t: nat, p: Phase): State
    requires t < |st.threads|
  {
    st.(threads := st.threads[t := p])
  }

  /** `start` once it has the lock and no start is in progress. */
  function EnterStart(st: State, t: nat): State
    requires t < |st.threads|
  {
    match st.m.stage
    case Started => Go(st, t, StartReturned(Ok))
    case Created =>
      Go(st.(m := st.m.(stage := Starting, startStatus := Ok, components := Reset(st.m.components)),
             sweeper := Thread(t), starts := st.starts + 1), t, StartMark(0))
    case Failed => Go(st, t, StartReturned(if st.m.startStatus.Ok? then FAILED else st.m.startStatus))
    case _ => Go(st, t, StartReturned(FAILED))
  }

  const FAILED := Err(0)
  const DEADLINE := Err(1)

  function MoveStart(st: State, t: nat, result: Status): State
    requires t < |st.threads| && InStart(st.threads[t])
  {
    match st.threads[t]
    case StartMark(k) =>
      if k < |st.m.components| then Go(st.(m := Mark(st.m, k, Starting)), t, StartCall(k))
      else Go(st.(m := st.m.(stage := Started, startStatus := Ok), sweeper := NoOne), t, StartReturned(Ok))
    case StartCall(k) =>
      Go(st.(log := st.log + [Start(k, result)], started := st.started + [Start(k, result)]), t, StartDone(k, result))
    case StartDone(k, s) =>
      if s.Ok? then Go(st.(m := Mark(st.m, k, Started)), t, StartMark(k + 1))
      else Go(st.(m := Mark(st.m, k, Failed)), t, RollCall(k, k, s))
    case RollCall(i, j, s) =>
      if j > 0 then
        Go(st.(log := st.log + [Close(j - 1, result)], rolled := st.rolled + [Close(j - 1, result)]),
           t, RollMark(i, j - 1, result, s))
      else Go(st.(m := st.m.(stage := Failed, startStatus := s), sweeper := NoOne), t, StartReturned(s))
    case RollMark(i, j, r, s) =>
      Go(st.(m := Mark(st.m, j, if r.Ok? then Closed else Failed)), t, RollCall(i, j, s))
  }

  /** `close` once it has the lock and neither sweep is in progress. */
  function EnterClose(st: State, t: nat, goOn: bool): State
    requires t < |st.threads|
  {
    if st.m.attempted then Go(st, t, CloseReturned(st.m.closeStatus))
    else
      var targets := Open(st.m.components, |st.m.components|);
      Go(st.(m := st.m.(closing := true, stage := Closing), sweeper := Thread(t), closes := st.closes + 1,
             targets := targets, goOn := goOn), t, CloseMark(|targets|, Ok, goOn))
  }

  function Finish(m: Manager, status: Status): Manager {
    m.(stage := if status.Ok? then Closed else Failed, closeStatus := status, attempted := true, closing := false)
  }

  function MoveClose(st: State, t: nat, result: Status, expired: bool): State
    requires t < |st.threads| && InClose(st.threads[t])
  {
    match st.threads[t]
    case CloseMark(k, final, goOn) =>
      if 0 < k <= |st.targets|
      then Go(st.(m := Mark(st.m, st.targets[k - 1], Closing)), t, CloseCall(k - 1, final, goOn))
      else Go(st.(m := Finish(st.m, final), sweeper := NoOne), t, CloseReturned(final))
    case CloseCall(k, final, goOn) =>
      var i := if k < |st.targets| then st.targets[k] else 0;
      var call := if expired then Skip(i, DEADLINE) else Close(i, result);
      Go(st.(log := st.log + [call], closed := st.closed + [call]), t, CloseDone(k, call.s, final, goOn))
    case CloseDone(k, s, final, goOn) =>
      var i := if k < |st.targets| then st.targets[k] else 0;
      if s.Ok? then Go(st.(m := Mark(st.m, i, Closed)), t, CloseMark(k, final, goOn))
      else
        Go(st.(m := Mark(st.m, i, Failed)), t, if goOn then CloseMark(k, Combine(final, s), goOn) else CloseAbort(s))
    case CloseAbort(s) => Go(st.(m := Finish(st.m, s), sweeper := NoOne), t, CloseReturned(s))
  }

  predicate Enabled(st: State, step: Step) {
    match step
    case Add(_) => true
    case BeginStart(t) => t < |st.threads| && st.threads[t].Idle?
    case BeginClose(t, _) => t < |st.threads| && st.threads[t].Idle?
    case WaitIdle => st.m.stage != Starting
    case TimeOut(t) => t < |st.threads| && st.threads[t].CloseWait? && Busy(st.m)
    case Move(t, _, _) =>
      && t < |st.threads|
      && (|| (st.threads[t].StartWait? && st.m.stage != Starting)
          || (st.threads[t].CloseWait? && !Busy(st.m))
          || Sweeping(st.threads[t]))
  }

  function Apply(st: State, step: Step): State
    requires Enabled(st, step)
  {
    match step
    case Add(name) =>
      if AddAccepted(st.m, name)
      then st.(m := st.m.(components := st.m.components + [Component(name, Created)]))
      else st
    case BeginStart(t) => Go(st, t, StartWait)
    case BeginClose(t, goOn) => Go(st, t, CloseWait(goOn))
    case WaitIdle => st
    case TimeOut(t) => Go(st, t, TimedOut)
    case Move(t, result, expired) =>
      if st.threads[t].StartWait? then EnterStart(st, t)
      else if st.threads[t].CloseWait? then EnterClose(st, t, st.threads[t].goOn)
      else if InStart(st.threads[t]) then MoveStart(st, t, result)
      else MoveClose(st, t, result, expired)
  }

  // ---------------------------------------------------------------- invariant

  function Now(st: State): Phase {
    if st.sweeper.Thread? && st.sweeper.t < |st.threads| then st.threads[st.sweeper.t] else Idle
  }

  /** Only the sweeper is in a sweep. */
  ghost predicate OneSweeper(st: State) {
    && (st.sweeper.Thread? ==> st.sweeper.t < |st.threads| && Sweeping(st.threads[st.sweeper.t]))
    && (forall t | 0 <= t < |st.threads| && Sweeping(st.threads[t]) :: st.sweeper == Thread(t))
  }

  /** The manager's stage tells which sweep is on, and each is begun at most once. */
  ghost predicate StageOk(m: Manager, now: Phase, starts: nat, closes: nat) {
    && (InStart(now) <==> m.stage == Starting)
    && (InClose(now) <==> m.closing)
    && (m.closing <==> m.stage == Closing)
    && starts <= 1
    && closes == (if m.closing || m.attempted then 1 else 0)
    && !(m.closing && m.attempted)
    && (m.stage == Created ==> starts == 0 && !m.attempted)
    && (m.attempted ==> m.stage == Closed || m.stage == Failed)
    && (m.stage == Starting ==> !m.attempted)
  }

  ghost predicate AnswersOk(st: State) {
    forall t | 0 <= t < |st.threads| && st.threads[t].CloseReturned? ::
      st.m.attempted && st.threads[t].status == st.m.closeStatus
  }

  /** Start calls go up from zero and stop at the first failure. */
  ghost predicate StartsInOrder(started: seq<Call>) {
    forall k | 0 <= k < |started| ::
      started[k].Start? && started[k].i == k && (k + 1 < |started| ==> started[k].s.Ok?)
  }

  predicate StartFailed(started: seq<Call>) {
    started != [] && started[|started| - 1].s.Err?
  }

  /** Rollback closes go down from just below the failed component. */
  ghost predicate RollsInOrder(started: seq<Call>, rolled: seq<Call>) {
    forall k | 0 <= k < |rolled| :: rolled[k].Close? && rolled[k].i == |started| - 2 - k
  }

  ghost predicate StartOk(n: nat, stage: Stage, now: Phase, started: seq<Call>, rolled: seq<Call>) {
    && StartsInOrder(started) && RollsInOrder(started, rolled) && |started| <= n
    && (stage == Created ==> started == [])
    && match now
       case StartMark(k) => |started| == k && !StartFailed(started) && rolled == []
       case StartCall(k) => |started| == k < n && !StartFailed(started) && rolled == []
       case StartDone(k, s) => |started| == k + 1 && started[k].s == s && rolled == []
       case RollCall(i, j, s) => |started| == i + 1 && started[i].s == s && s.Err? && j <= i && |rolled| == i - j
       case RollMark(i, j, r, s) =>
         |started| == i + 1 && started[i].s == s && s.Err? && j < i && |rolled| == i - j && rolled[|rolled| - 1].s == r
       case _ => |rolled| == if StartFailed(started) then |started| - 1 else 0
  }

  /** How many of the rollback closes have been recorded in the component table. */
  function Marked(now: Phase, rolled: seq<Call>): nat {
    if now.RollMark? && rolled != [] then |rolled| - 1 else |rolled|
  }

  ghost predicate MarksOk(components: seq<Component>, now: Phase, closes: nat, rolled: seq<Call>, targets: seq<nat>) {
    && (closes == 0 ==> forall k | 0 <= k < Marked(now, rolled) ::
          rolled[k].s.Ok? && rolled[k].i < |components| ==> components[rolled[k].i].stage == Closed)
    && (closes > 0 ==> forall k | 0 <= k < |rolled| :: rolled[k].s.Ok? ==> rolled[k].i !in targets)
  }

  /** A component is closed, or left out of the close sweep, only because the rollback closed it. */
  ghost predicate CoveredOk(components: seq<Component>, closes: nat, rolled: seq<Call>, targets: seq<nat>) {
    && (closes == 0 ==> forall i: nat | i < |components| && components[i].stage == Closed :: Close(i, Ok) in rolled)
    && (closes > 0 ==> forall i: nat | i < |components| :: i in targets || Close(i, Ok) in rolled)
  }

  function FirstError(calls: seq<Call>): Status {
    if calls == [] then Ok
    else Combine(FirstError(calls[..|calls| - 1]), calls[|calls| - 1].s)
  }

  ghost predicate Ascending(targets: seq<nat>) {
    forall i, j | 0 <= i < j < |targets| :: targets[i] < targets[j]
  }

  /** Close calls go down through the targets. */
  ghost predicate ClosesInOrder(targets: seq<nat>, closed: seq<Call>) {
    && |closed| <= |targets|
    && forall k | 0 <= k < |closed| :: !closed[k].Start? && closed[k].i == targets[|targets| - 1 - k]
  }

  ghost predicate CloseOk(m: Manager, now: Phase, closes: nat, targets: seq<nat>, closed: seq<Call>, goOn: bool) {
    && Ascending(targets) && ClosesInOrder(targets, closed)
    && (closes == 0 ==> targets == [] && closed == [])
    && (m.attempted ==>
          && m.closeStatus == FirstError(closed)
          && (goOn || m.closeStatus.Ok? ==> |closed| == |targets|))
    && match now
       case CloseMark(k, final, g) =>
         |closed| + k == |targets| && final == FirstError(closed) && g == goOn && (final.Ok? || g)
       case CloseCall(k, final, g) =>
         |closed| + k + 1 == |targets| && final == FirstError(closed) && g == goOn && (final.Ok? || g)
       case CloseDone(k, s, final, g) =>
         && |closed| + k == |targets| && g == goOn && (final.Ok? || g) && FirstError(closed) == Combine(final, s)
       case CloseAbort(s) => s == FirstError(closed) && s.Err? && !goOn
       case _ => true
  }

  ghost predicate Inv(st: State) {
    && OneSweeper(st)
    && StageOk(st.m, Now(st), st.starts, st.closes)
    && AnswersOk(st)
    && st.log == st.started + st.rolled + st.closed
    && StartOk(|st.m.components|, st.m.stage, Now(st), st.started, st.rolled)
    && MarksOk(st.m.components, Now(st), st.closes, st.rolled, st.targets)
    && CoveredOk(st.m.components, st.closes, st.rolled, st.targets)
    && CloseOk(st.m, Now(st), st.closes, st.targets, st.closed, st.goOn)
  }

  // ------------------------------------------------------ what each step keeps

  /** A thread outside the sweeps moves between phases outside the sweeps. */
  lemma {:induction false} OutsiderMoves(st: State, t: nat, p: Phase)
    requires Inv(st) && t < |st.threads| && !Sweeping(st.threads[t]) && !Sweeping(p)
    requires p.CloseReturned? ==> st.m.attempted && p.status == st.m.closeStatus
    ensures Inv(Go(st, t, p))
  {
    assert Now(Go(st, t, p)) == Now(st);
  }

  lemma {:induction false} AddKeeps(st: State, name: string)
    requires Inv(st)
    ensures Inv(Apply(st, Add(name)))
  {
  }

  lemma {:induction false} EnterStartKeeps(st: State, t: nat)
    requires Inv(st) && t < |st.threads| && st.threads[t].StartWait? && st.m.stage != Starting
    ensures Inv(EnterStart(st, t))
  {
    if st.m.stage == Created {
      var after := EnterStart(st, t);
      assert st.sweeper == NoOne;
      assert Now(after) == StartMark(0);
    } else {
      OutsiderMoves(st, t, EnterStart(st, t).threads[t]);
    }
  }

  lemma {:induction false} EnterCloseKeeps(st: State, t: nat, goOn: bool)
    requires Inv(st) && t < |st.threads| && st.threads[t].CloseWait? && !Busy(st.m)
    ensures Inv(EnterClose(st, t, goOn))
  {
    if st.m.attempted {
      OutsiderMoves(st, t, CloseReturned(st.m.closeStatus));
    } else {
      var after := EnterClose(st, t, goOn);
      assert st.sweeper == NoOne;
      assert Now(after) == CloseMark(|after.targets|, Ok, goOn);
      forall k | 0 <= k < |st.rolled| && st.rolled[k].s.Ok? ensures st.rolled[k].i !in after.targets {
        assert Marked(Now(st), st.rolled) == |st.rolled|;
      }
    }
  }

  lemma {:induction false} StartMarkKeeps(st: State, t: nat, result: Status)
    requires Inv(st) && t < |st.threads| && st.threads[t].StartMark?
    ensures Inv(MoveStart(st, t, result))
  {
    assert st.sweeper == Thread(t);
  }

  lemma {:induction false} StartCallKeeps(st: State, t: nat, result: Status)
    requires Inv(st) && t < |st.threads| && st.threads[t].StartCall?
    ensures Inv(MoveStart(st, t, result))
  {
    assert st.sweeper == Thread(t);
    assert st.rolled == [] && st.closed == [];
  }

  lemma {:induction false} StartDoneKeeps(st: State, t: nat, result: Status)
    requires Inv(st) && t < |st.threads| && st.threads[t].StartDone?
    ensures Inv(MoveStart(st, t, result))
  {
    assert st.sweeper == Thread(t);
  }

  lemma {:induction false} RollCallKeeps(st: State, t: nat, result: Status)
    requires Inv(st) && t < |st.threads| && st.threads[t].RollCall? && st.threads[t].j > 0
    ensures Inv(MoveStart(st, t, result))
  {
    assert st.sweeper == Thread(t);
    assert st.closed == [];
  }

  lemma {:induction false} RollEndKeeps(st: State, t: nat, result: Status)
    requires Inv(st) && t < |st.threads| && st.threads[t].RollCall? && st.threads[t].j == 0
    ensures Inv(MoveStart(st, t, result))
  {
    assert st.sweeper == Thread(t);
  }

  lemma {:induction false} RollMarkKeeps(st: State, t: nat, result: Status)
    requires Inv(st) && t < |st.threads| && st.threads[t].RollMark?
    ensures Inv(MoveStart(st, t, result))
  {
    assert st.sweeper == Thread(t);
  }

  lemma {:induction false} CloseMarkKeeps(st: State, t: nat, result: Status, expired: bool)
    requires Inv(st) && t < |st.threads| && st.threads[t].CloseMark?
    ensures Inv(MoveClose(st, t, result, expired))
  {
    assert st.sweeper == Thread(t);
  }

  lemma {:induction false} CloseCallKeeps(st: State, t: nat, result: Status, expired: bool)
    requires Inv(st) && t < |st.threads| && st.threads[t].CloseCall?
    ensures Inv(MoveClose(st, t, result, expired))
  {
    assert st.sweeper == Thread(t);
    var after := MoveClose(st, t, result, expired);
    assert after.closed[..|st.closed|] == st.closed;
  }

  /** Recording a component's stage touches nothing the invariant says about a close sweep. */
  lemma {:induction false} MarkInClose(st: State, i: nat, stage: Stage)
    requires Inv(st) && InClose(Now(st))
    ensures Inv(st.(m := Mark(st.m, i, stage)))
  {
    assert Now(st.(m := Mark(st.m, i, stage))) == Now(st);
  }

  lemma {:induction false} CloseGoesOn(st: State, t: nat, p: Phase)
    requires Inv(st) && t < |st.threads| && st.threads[t].CloseDone?
    requires var d := st.threads[t];
             if d.result.Err? && !d.goOn then p == CloseAbort(d.result)
             else p == CloseMark(d.k, Combine(d.final, d.result), d.goOn)
    ensures Inv(Go(st, t, p))
  {
    assert st.sweeper == Thread(t);
  }

  lemma {:induction false} CloseDoneKeeps(st: State, t: nat, result: Status, expired: bool)
    requires Inv(st) && t < |st.threads| && st.threads[t].CloseDone?
    ensures Inv(MoveClose(st, t, result, expired))
  {
    assert st.sweeper == Thread(t);
    var d := st.threads[t];
    var i := if d.k < |st.targets| then st.targets[d.k] else 0;
    var marked := st.(m := Mark(st.m, i, if d.result.Ok? then Closed else Failed));
    MarkInClose(st, i, if d.result.Ok? then Closed else Failed);
    CloseGoesOn(marked, t, if d.result.Err? && !d.goOn then CloseAbort(d.result)
                           else CloseMark(d.k, Combine(d.final, d.result), d.goOn));
  }

  lemma {:induction false} CloseAbortKeeps(st: State, t: nat, result: Status, expired: bool)
    requires Inv(st) && t < |st.threads| && st.threads[t].CloseAbort?
    ensures Inv(MoveClose(st, t, result, expired))
  {
    assert st.sweeper == Thread(t);
  }

  lemma {:induction false} StepKeeps(st: State, step: Step)
    requires Inv(st) && Enabled(st, step)
    ensures Inv(Apply(st, step))
  {
    match step {
      case Add(name) => AddKeeps(st, name);
      case BeginStart(t) => OutsiderMoves(st, t, StartWait);
      case BeginClose(t, goOn) => OutsiderMoves(st, t, CloseWait(goOn));
      case WaitIdle =>
      case TimeOut(t) => OutsiderMoves(st, t, TimedOut);
      case Move(t, result, expired) => MoveKeeps(st, t, result, expired);
    }
  }

  lemma {:induction false} MoveKeeps(st: State, t: nat, result: Status, expired: bool)
    requires Inv(st) && Enabled(st, Move(t, result, expired))
    ensures Inv(Apply(st, Move(t, result, expired)))
  {
    match st.threads[t] {
      case StartWait => EnterStartKeeps(st, t);
      case CloseWait(goOn) => EnterCloseKeeps(st, t, goOn);
      case StartMark(_) => StartMarkKeeps(st, t, result);
      case StartCall(_) => StartCallKeeps(st, t, result);
      case StartDone(_, _) => StartDoneKeeps(st, t, result);
      case RollCall(_, j, _) => if j > 0 { RollCallKeeps(st, t, result); } else { RollEndKeeps(st, t, result); }
      case RollMark(_, _, _, _) => RollMarkKeeps(st, t, result);
      case CloseMark(_, _, _) => CloseMarkKeeps(st, t, result, expired);
      case CloseCall(_, _, _) => CloseCallKeeps(st, t, result, expired);
      case CloseDone(_, _, _, _) => CloseDoneKeeps(st, t, result, expired);
      case CloseAbort(_) => CloseAbortKeeps(st, t, result, expired);
    }
  }

  // --------------------------------------------------------------------- runs

  function Fresh(threads: nat): State {
    State(Manager(Created, false, false, Ok, Ok, []), seq(threads, _ => Idle), NoOne, 0, 0, [], [], [], [], [], true)
  }

  ghost predicate Runs(st: State, steps: seq<Step>, end: State)
    decreases |steps|
  {
    if steps == [] then st == end
    else Enabled(st, steps[0]) && Runs(Apply(st, steps[0]), steps[1..], end)
  }

  ghost predicate Reachable(st: State) {
    exists threads: nat, steps: seq<Step> :: Runs(Fresh(threads), steps, st)
  }

  lemma {:induction false} RunKeeps(st: State, steps: seq<Step>, end: State)
    requires Inv(st) && Runs(st, steps, end)
    ensures Inv(end)
    decreases |steps|
  {
    if steps != [] {
      StepKeeps(st, steps[0]);
      RunKeeps(Apply(st, steps[0]), steps[1..], end);
    }
  }

  lemma {:induction false} ReachableInv(st: State)
    requires Reachable(st)
    ensures Inv(st)
  {
    var threads: nat, steps: seq<Step> :| Runs(Fresh(threads), steps, st);
    RunKeeps(Fresh(threads), steps, st);
  }

  /** At most one start sweep and one close sweep ever run, and no two threads sweep at once. */
  lemma {:induction false} SweepsExclude(st: State, t: nat, u: nat)
    requires Reachable(st) && t < |st.threads| && u < |st.threads|
    ensures st.starts <= 1 && st.closes <= 1
    ensures Sweeping(st.threads[t]) && Sweeping(st.threads[u]) ==> t == u
  {
    ReachableInv(st);
  }

  ghost predicate SameNames(m: Manager, n: Manager) {
    && |m.components| == |n.components|
    && forall i | 0 <= i < |m.components| :: m.components[i].name == n.components[i].name
  }

  lemma {:induction false} StartKeepsNames(st: State, t: nat, result: Status)
    requires t < |st.threads| && InStart(st.threads[t])
    ensures SameNames(st.m, MoveStart(st, t, result).m)
  {
  }

  lemma {:induction false} CloseKeepsNames(st: State, t: nat, result: Status, expired: bool)
    requires t < |st.threads| && InClose(st.threads[t])
    ensures SameNames(st.m, MoveClose(st, t, result, expired).m)
  {
  }

  /** While a sweep runs the component list is fixed, whatever the other threads do. */
  lemma {:induction false} ListIsFixed(st: State, step: Step, t: nat)
    requires Reachable(st) && Enabled(st, step) && t < |st.threads| && Sweeping(st.threads[t])
    ensures SameNames(st.m, Apply(st, step).m)
  {
    ReachableInv(st);
    assert st.m.stage != Created;
    if step.Move? {
      var p := st.threads[step.t];
      if InStart(p) {
        StartKeepsNames(st, step.t, step.result);
      } else if InClose(p) {
        CloseKeepsNames(st, step.t, step.result, step.expired);
      }
    }
  }

  /** Every close that does not time out returns the status of the one completed sweep, and that
      status never changes. */
  lemma {:induction false} ClosesAgree(st: State, t: nat, u: nat)
    requires Reachable(st) && t < |st.threads| && u < |st.threads|
    requires st.threads[t].CloseReturned? && st.threads[u].CloseReturned?
    ensures st.threads[t].status == st.threads[u].status == st.m.closeStatus
  {
    ReachableInv(st);
  }

  lemma {:induction false} CloseStatusIsFinal(st: State, step: Step)
    requires Reachable(st) && Enabled(st, step) && st.m.attempted
    ensures Apply(st, step).m.attempted && Apply(st, step).m.closeStatus == st.m.closeStatus
  {
    ReachableInv(st);
  }

  /** The calls of every run: starts 0, 1, ... up to the first failure; if component `i` failed, closes of
      i-1, i-2, ... each once, all of them when no sweep is in progress; then the close sweep. */
  lemma {:induction false} RollbackOrder(st: State)
    requires Reachable(st)
    ensures st.log == st.started + st.rolled + st.closed
    ensures StartsInOrder(st.started) && RollsInOrder(st.started, st.rolled)
    ensures st.rolled != [] ==> StartFailed(st.started)
    ensures st.sweeper == NoOne && StartFailed(st.started) ==> |st.rolled| == |st.started| - 1
  {
    ReachableInv(st);
  }

  /** Close calls go down through the components that were not closed; the result is the first failure
      in that order, and with continue-on-error none is left out. */
  lemma {:induction false} CloseOrder(st: State)
    requires Reachable(st)
    ensures Ascending(st.targets) && ClosesInOrder(st.targets, st.closed)
    ensures st.m.attempted ==> st.m.closeStatus == FirstError(st.closed)
    ensures st.m.attempted && st.goOn ==> |st.closed| == |st.targets|
  {
    ReachableInv(st);
  }

  lemma {:induction false} FirstErrorIsFirst(calls: seq<Call>)
    ensures FirstError(calls).Ok? <==> forall k | 0 <= k < |calls| :: calls[k].s.Ok?
    ensures FirstError(calls).Err? ==>
              exists k | 0 <= k < |calls| :: calls[k].s == FirstError(calls) && forall j | 0 <= j < k :: calls[j].s.Ok?
    decreases |calls|
  {
    if calls != [] {
      var n := |calls| - 1;
      FirstErrorIsFirst(calls[..n]);
      if FirstError(calls[..n]).Err? {
        var k :| && 0 <= k < n && calls[..n][k].s == FirstError(calls[..n])
                 && forall j | 0 <= j < k :: calls[..n][j].s.Ok?;
        assert calls[k].s == FirstError(calls) && forall j | 0 <= j < k :: calls[j].s == calls[..n][j].s;
      } else {
        assert forall j | 0 <= j < n :: calls[j].s == calls[..n][j].s;
      }
    }
  }

  /** After a close that continues on errors, every component was closed by the rollback or has had its
      turn in the sweep. */
  lemma {:induction false} NoneForgotten(st: State, i: nat)
    requires Reachable(st) && st.m.attempted && st.goOn && i < |st.m.components|
    ensures Close(i, Ok) in st.rolled || exists k :: 0 <= k < |st.closed| && st.closed[k].i == i
  {
    ReachableInv(st);
    if i in st.targets {
      var x :| 0 <= x < |st.targets| && st.targets[x] == i;
      assert st.closed[|st.targets| - 1 - x].i == i;
    }
  }

  /** No component is closed again after one of its closes returned Ok. */
  lemma {:induction false} NeverClosedAgain(st: State, x: nat, y: nat)
    requires Reachable(st) && x < y < |st.log|
    requires st.log[x].Close? && st.log[x].s.Ok? && st.log[y].Close?
    ensures st.log[x].i != st.log[y].i
  {
    ReachableInv(st);
    var a, b := |st.started|, |st.started| + |st.rolled|;
    assert forall k | 0 <= k < a :: st.log[k] == st.started[k];
    if y < b {
      assert st.log[x] == st.rolled[x - a] && st.log[y] == st.rolled[y - a];
    } else if x < b {
      assert st.log[x] == st.rolled[x - a] && st.log[y] == st.closed[y - b];
      assert st.log[y].i in st.targets;
    } else {
      assert st.log[x] == st.closed[x - b] && st.log[y] == st.closed[y - b];
    }
  }
}
