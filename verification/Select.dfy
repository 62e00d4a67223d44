/**
 `select` over bounded channels as a state machine.  Any number of selectors and other threads interleave;
 a step is one critical section, except that a channel operation keeps the channel locked while it notifies
 the waiters one by one, so between two notifications anything not needing that lock can happen.
 */
module Select {

  type Value(==)

  // ----------------------------------------------------------------- channels

  /** `pending` are the waiters the current lock holder has still to notify; the channel is locked
      while there are any.  `sent` and `received` record the values in order. */
  datatype Chan = Chan(
    capacity: nat, queue: seq<Value>, closed: bool, waiters: seq<nat>, pending: seq<nat>,
    sent: seq<Value>, received: seq<Value>)

  predicate Locked(c: Chan) { c.pending != [] }

  predicate CanPush(c: Chan) { !c.closed && |c.queue| < c.capacity }

  function Pushed(c: Chan, v: Value): Chan {
    c.(queue := c.queue + [v], sent := c.sent + [v], pending := c.waiters)
  }

  function Popped(c: Chan): Chan
    requires c.queue != []
  {
    c.(queue := c.queue[1..], received := c.received + [c.queue[0]], pending := c.waiters)
  }

  function Closed(c: Chan): Chan {
    c.(closed := true, pending := c.waiters)
  }

  /** First in, first out, and never over capacity. */
  ghost predicate ChanOk(c: Chan) {
    |c.queue| <= c.capacity && c.received + c.queue == c.sent
  }

  // ---------------------------------------------------------------- selectors

  /** `External` stands for timers and cancellation, whose readiness is decided elsewhere. */
  datatype Op = Recv(ch: nat) | Send(ch: nat, value: Value) | External | Otherwise

  predicate OnChannel(op: Op) { op.Recv? || op.Send? }

  /** What `tryRun` takes as a reason not to wait. */
  predicate Ready(c: Chan, op: Op) {
    match op
    case Recv(_) => c.queue != [] || c.closed
    case Send(_, _) => c.closed || |c.queue| < c.capacity
    case _ => false
  }

  datatype Phase =
    | Attaching(next: nat)
    | Observing
    | Trying(observed: nat, order: seq<nat>, at: nat)
    | Waiting(observed: nat)
    | Done(index: nat)
    | Failed

  predicate Finished(p: Phase) { p.Done? || p.Failed? }

  /** `generation` is the selector's waiter; `commits` records the channel operations it performed. */
  datatype Selector = Selector(ops: seq<Op>, generation: nat, phase: Phase, commits: seq<nat>)

  datatype State = State(chans: seq<Chan>, sels: seq<Selector>)

  ghost predicate OpsInRange(ops: seq<Op>, chans: nat) {
    forall i | 0 <= i < |ops| && OnChannel(ops[i]) :: ops[i].ch < chans
  }

  /** An order to try the operations in: each one except `otherwise`, once. */
  ghost predicate IsOrder(ops: seq<Op>, order: seq<nat>) {
    && (forall k | 0 <= k < |order| :: order[k] < |ops| && !ops[order[k]].Otherwise?)
    && (forall i | 0 <= i < |ops| && !ops[i].Otherwise? :: i in order)
    && (forall j, k | 0 <= j < k < |order| :: order[j] != order[k])
  }

  /** Operation `i`, tried under generation `g`, needs no further look: it is not ready, or the
      generation has moved on, or the notification that will move it is under way. */
  ghost predicate Settled(chans: seq<Chan>, s: nat, sel: Selector, i: nat, g: nat)
    requires OpsInRange(sel.ops, |chans|) && i < |sel.ops|
  {
    OnChannel(sel.ops[i]) ==>
      sel.generation != g || s in chans[sel.ops[i].ch].pending || !Ready(chans[sel.ops[i].ch], sel.ops[i])
  }

  /** How many operations have been attached. */
  function Attached(sel: Selector): nat {
    if sel.phase.Attaching? then sel.phase.next else if Finished(sel.phase) then 0 else |sel.ops|
  }

  ghost predicate Listed(chans: seq<Chan>, s: nat, sel: Selector)
    requires OpsInRange(sel.ops, |chans|)
  {
    forall i | 0 <= i < |sel.ops| && i < Attached(sel) && OnChannel(sel.ops[i]) :: s in chans[sel.ops[i].ch].waiters
  }

  ghost predicate Watched(chans: seq<Chan>, s: nat, sel: Selector)
    requires OpsInRange(sel.ops, |chans|)
  {
    match sel.phase
    case Trying(g, order, at) =>
      && g <= sel.generation && at <= |order| && IsOrder(sel.ops, order)
      && (forall k | 0 <= k < at :: Settled(chans, s, sel, order[k], g))
    case Waiting(g) =>
      && g <= sel.generation
      && (forall i | 0 <= i < |sel.ops| :: Settled(chans, s, sel, i, g))
    case _ => true
  }

  /** Nothing is performed before the end, and at most the returned operation by then. */
  ghost predicate CommitsOnce(sel: Selector) {
    match sel.phase
    case Done(i) => sel.commits == [] || sel.commits == [i]
    case Failed => |sel.commits| <= 1
    case _ => sel.commits == []
  }

  ghost predicate SelectorOk(chans: seq<Chan>, s: nat, sel: Selector) {
    && OpsInRange(sel.ops, |chans|)
    && (sel.phase.Attaching? ==> sel.phase.next <= |sel.ops|)
    && Listed(chans, s, sel)
    && Watched(chans, s, sel)
    && CommitsOnce(sel)
  }

  ghost predicate Inv(st: State) {
    && (forall ch | 0 <= ch < |st.chans| :: ChanOk(st.chans[ch]))
    && (forall s | 0 <= s < |st.sels| :: SelectorOk(st.chans, s, st.sels[s]))
  }

  // -------------------------------------------------------------------- steps

  datatype Step =
    | Attach(s: nat)
    | AttachFails(s: nat)
    | Observe(s: nat, order: seq<nat>)
    | Try(s: nat, fires: bool, handlerOk: bool)
    | GiveUp(s: nat, handlerOk: bool)
    | Wake(s: nat)
    | TimeOut(s: nat)
    | Notify(ch: nat)
    | Drop(ch: nat)
    | Push(ch: nat, value: Value)
    | Pop(ch: nat)
    | Close(ch: nat)
    | Nudge(ch: nat)
    | Signal(s: nat)

  predicate Free(st: State, ch: nat) {
    ch < |st.chans| && !Locked(st.chans[ch])
  }

  /** The channel an operation works on, if any, is not locked. */
  predicate OpFree(st: State, op: Op) {
    OnChannel(op) ==> Free(st, op.ch)
  }

  function Without(ids: seq<nat>, s: nat): (r: seq<nat>)
    ensures forall x :: x in r <==> x in ids && x != s
  {
    if ids == [] then [] else (if ids[0] == s then [] else [ids[0]]) + Without(ids[1..], s)
  }

  predicate HasOtherwise(ops: seq<Op>) {
    exists i | 0 <= i < |ops| :: ops[i].Otherwise?
  }

  ghost predicate Enabled(st: State, step: Step) {
    match step
    case Attach(s) =>
      && s < |st.sels| && st.sels[s].phase.Attaching?
      && (st.sels[s].phase.next < |st.sels[s].ops| ==> OpFree(st, st.sels[s].ops[st.sels[s].phase.next]))
    case AttachFails(s) => s < |st.sels| && st.sels[s].phase.Attaching?
    case Observe(s, order) => s < |st.sels| && st.sels[s].phase.Observing? && IsOrder(st.sels[s].ops, order)
    case Try(s, _, _) =>
      && s < |st.sels| && st.sels[s].phase.Trying?
      && st.sels[s].phase.at < |st.sels[s].phase.order|
      && st.sels[s].phase.order[st.sels[s].phase.at] < |st.sels[s].ops|
      && OpFree(st, st.sels[s].ops[st.sels[s].phase.order[st.sels[s].phase.at]])
    case GiveUp(s, _) =>
      s < |st.sels| && st.sels[s].phase.Trying? && st.sels[s].phase.at == |st.sels[s].phase.order|
    case Wake(s) =>
      s < |st.sels| && st.sels[s].phase.Waiting? && st.sels[s].generation != st.sels[s].phase.observed
    case TimeOut(s) => s < |st.sels| && st.sels[s].phase.Waiting?
    case Notify(ch) => ch < |st.chans| && Locked(st.chans[ch]) && st.chans[ch].pending[0] < |st.sels|
    case Drop(ch) =>
      && ch < |st.chans| && Locked(st.chans[ch])
      && (st.chans[ch].pending[0] < |st.sels| ==> Finished(st.sels[st.chans[ch].pending[0]].phase))
    case Push(ch, _) => Free(st, ch) && CanPush(st.chans[ch])
    case Pop(ch) => Free(st, ch) && st.chans[ch].queue != []
    case Close(ch) => Free(st, ch)
    case Nudge(ch) => Free(st, ch)
    case Signal(s) => s < |st.sels|
  }

  function SetPhase(sel: Selector, phase: Phase): Selector { sel.(phase := phase) }

  /** `ChannelWaiter::notify`. */
  function Awoken(sel: Selector): Selector { sel.(generation := sel.generation + 1) }

  function Ended(sel: Selector, i: nat, handlerOk: bool, commits: seq<nat>): Selector {
    sel.(phase := if handlerOk then Done(i) else Failed, commits := sel.commits + commits)
  }

  /** The selector after `tryRun` of operation `i`. */
  function Tried(c: Chan, sel: Selector, i: nat, fires: bool, handlerOk: bool): Selector
    requires sel.phase.Trying? && i < |sel.ops|
  {
    var next := SetPhase(sel, sel.phase.(at := sel.phase.at + 1));
    match sel.ops[i]
    case Recv(_) =>
      if c.queue != [] then Ended(sel, i, handlerOk, [i])
      else if c.closed then Ended(sel, i, handlerOk, [])
      else next
    case Send(_, _) =>
      if c.closed then SetPhase(sel, Failed)
      else if |c.queue| >= c.capacity then next
      else Ended(sel, i, handlerOk, [i])
    case _ => if fires then Ended(sel, i, handlerOk, []) else next
  }

  /** The channel after `tryRun`. */
  function Run(c: Chan, op: Op): Chan {
    match op
    case Recv(_) => if c.queue != [] then Popped(c) else c
    case Send(_, v) => if CanPush(c) then Pushed(c, v) else c
    case _ => c
  }

  ghost function Gave(sel: Selector, handlerOk: bool): Selector
    requires sel.phase.Trying?
  {
    if i :| 0 <= i < |sel.ops| && sel.ops[i].Otherwise? then Ended(sel, i, handlerOk, [])
    else SetPhase(sel, Waiting(sel.phase.observed))
  }

  function AttachedOne(sel: Selector): Selector
    requires sel.phase.Attaching?
  {
    SetPhase(sel, if sel.phase.next < |sel.ops| then Attaching(sel.phase.next + 1) else Observing)
  }

  const NOWHERE := Chan(0, [], false, [], [], [], [])

  function ChanOf(st: State, op: Op): Chan
    requires OpFree(st, op)
  {
    if OnChannel(op) then st.chans[op.ch] else NOWHERE
  }

  function WithChan(st: State, op: Op, c: Chan): seq<Chan>
    requires OpFree(st, op)
  {
    if OnChannel(op) then st.chans[op.ch := c] else st.chans
  }

  function AddWaiter(c: Chan, s: nat): Chan { c.(waiters := c.waiters + [s]) }

  /** The next waiter has expired and is erased from the list. */
  function Dropped(c: Chan): Chan
    requires Locked(c)
  {
    c.(pending := c.pending[1..], waiters := Without(c.waiters, c.pending[0]))
  }

  ghost function Apply(st: State, step: Step): State
    requires Enabled(st, step)
  {
    match step
    case Attach(s) =>
      var sel := st.sels[s];
      var sels := st.sels[s := AttachedOne(sel)];
      if sel.phase.next < |sel.ops| then
        var op := sel.ops[sel.phase.next];
        State(WithChan(st, op, AddWaiter(ChanOf(st, op), s)), sels)
      else State(st.chans, sels)
    case AttachFails(s) => st.(sels := st.sels[s := SetPhase(st.sels[s], Failed)])
    case Observe(s, order) =>
      st.(sels := st.sels[s := SetPhase(st.sels[s], Trying(st.sels[s].generation, order, 0))])
    case Try(s, fires, handlerOk) =>
      var sel := st.sels[s];
      var i := sel.phase.order[sel.phase.at];
      var c := ChanOf(st, sel.ops[i]);
      State(WithChan(st, sel.ops[i], Run(c, sel.ops[i])), st.sels[s := Tried(c, sel, i, fires, handlerOk)])
    case GiveUp(s, handlerOk) => st.(sels := st.sels[s := Gave(st.sels[s], handlerOk)])
    case Wake(s) => st.(sels := st.sels[s := SetPhase(st.sels[s], Observing)])
    case TimeOut(s) => st.(sels := st.sels[s := SetPhase(st.sels[s], Observing)])
    case Notify(ch) =>
      var c := st.chans[ch];
      var h := c.pending[0];
      State(st.chans[ch := c.(pending := c.pending[1..])], st.sels[h := Awoken(st.sels[h])])
    case Drop(ch) =>
      st.(chans := st.chans[ch := Dropped(st.chans[ch])])
    case Push(ch, v) => st.(chans := st.chans[ch := Pushed(st.chans[ch], v)])
    case Pop(ch) => st.(chans := st.chans[ch := Popped(st.chans[ch])])
    case Close(ch) => st.(chans := st.chans[ch := Closed(st.chans[ch])])
    case Nudge(ch) => st.(chans := st.chans[ch := st.chans[ch].(pending := st.chans[ch].waiters)])
    case Signal(s) => st.(sels := st.sels[s := Awoken(st.sels[s])])
  }

  // ------------------------------------------------------ what each step keeps

  /** A channel operation leaves the channel as it is or starts notifying all its waiters. */
  lemma {:induction false} ChanChanges(chans: seq<Chan>, s: nat, sel: Selector, ch: nat, c: Chan)
    requires SelectorOk(chans, s, sel) && ch < |chans|
    requires c.waiters == chans[ch].waiters && (c == chans[ch] || c.pending == c.waiters)
    ensures SelectorOk(chans[ch := c], s, sel)
  {
    var after := chans[ch := c];
    assert Listed(after, s, sel);
    forall i, g | 0 <= i < |sel.ops| && (sel.phase.Trying? || sel.phase.Waiting?) && Settled(chans, s, sel, i, g)
      ensures Settled(after, s, sel, i, g)
    {
    }
  }

  lemma {:induction false} AddsWaiter(chans: seq<Chan>, s: nat, sel: Selector, ch: nat, added: nat)
    requires SelectorOk(chans, s, sel) && ch < |chans|
    ensures SelectorOk(chans[ch := AddWaiter(chans[ch], added)], s, sel)
  {
    var after := chans[ch := AddWaiter(chans[ch], added)];
    forall i, g: nat | 0 <= i < |sel.ops| && Settled(chans, s, sel, i, g)
      ensures Settled(after, s, sel, i, g)
    {
    }
  }

  lemma {:induction false} OneNotified(chans: seq<Chan>, s: nat, sel: Selector, ch: nat)
    requires SelectorOk(chans, s, sel) && ch < |chans| && Locked(chans[ch])
    ensures var after := chans[ch := chans[ch].(pending := chans[ch].pending[1..])];
            if s == chans[ch].pending[0] then SelectorOk(after, s, Awoken(sel))
            else SelectorOk(after, s, sel)
  {
    var after := chans[ch := chans[ch].(pending := chans[ch].pending[1..])];
    var sel' := if s == chans[ch].pending[0] then Awoken(sel) else sel;
    assert chans[ch].pending == [chans[ch].pending[0]] + chans[ch].pending[1..];
    forall i, g: nat | 0 <= i < |sel.ops| && g <= sel.generation && Settled(chans, s, sel, i, g)
      ensures Settled(after, s, sel', i, g)
    {
    }
  }

  lemma {:induction false} OneDropped(chans: seq<Chan>, s: nat, sel: Selector, ch: nat)
    requires SelectorOk(chans, s, sel) && ch < |chans| && Locked(chans[ch])
    requires s == chans[ch].pending[0] ==> Finished(sel.phase)
    ensures SelectorOk(chans[ch := Dropped(chans[ch])], s, sel)
  {
    var after := chans[ch := Dropped(chans[ch])];
    assert chans[ch].pending == [chans[ch].pending[0]] + chans[ch].pending[1..];
    if !Finished(sel.phase) {
      forall i, g: nat | 0 <= i < |sel.ops| && Settled(chans, s, sel, i, g)
        ensures Settled(after, s, sel, i, g)
      {
      }
    }
  }

  lemma {:induction false} SelectorTries(chans: seq<Chan>, s: nat, sel: Selector, c: Chan, fires: bool, handlerOk: bool)
    requires SelectorOk(chans, s, sel) && sel.phase.Trying? && sel.phase.at < |sel.phase.order|
    requires var op := sel.ops[sel.phase.order[sel.phase.at]]; OnChannel(op) ==> c == chans[op.ch]
    ensures var i := sel.phase.order[sel.phase.at];
            var c' := Run(c, sel.ops[i]);
            var after := if OnChannel(sel.ops[i]) then chans[sel.ops[i].ch := c'] else chans;
            SelectorOk(after, s, Tried(c, sel, i, fires, handlerOk))
  {
    var i := sel.phase.order[sel.phase.at];
    if Run(c, sel.ops[i]) == c {
      var after := if OnChannel(sel.ops[i]) then chans[sel.ops[i].ch := c] else chans;
      assert after == chans;
    }
  }

  lemma {:induction false} SelectorGivesUp(chans: seq<Chan>, s: nat, sel: Selector, handlerOk: bool)
    requires SelectorOk(chans, s, sel) && sel.phase.Trying? && sel.phase.at == |sel.phase.order|
    ensures SelectorOk(chans, s, Gave(sel, handlerOk))
  {
    var g, order := sel.phase.observed, sel.phase.order;
    var w := SetPhase(sel, Waiting(g));
    if !HasOtherwise(sel.ops) {
      forall i | 0 <= i < |sel.ops| ensures Settled(chans, s, w, i, g) {
        assert !sel.ops[i].Otherwise?;
        assert i in order;
        var k :| 0 <= k < |order| && order[k] == i;
        assert Settled(chans, s, sel, order[k], g);
      }
    }
  }

  lemma {:induction false} ChanMoves(st: State, ch: nat, c: Chan)
    requires Inv(st) && ch < |st.chans| && ChanOk(c)
    requires c.waiters == st.chans[ch].waiters && (c == st.chans[ch] || c.pending == c.waiters)
    ensures Inv(st.(chans := st.chans[ch := c]))
  {
    forall s | 0 <= s < |st.sels| ensures SelectorOk(st.chans[ch := c], s, st.sels[s]) {
      ChanChanges(st.chans, s, st.sels[s], ch, c);
    }
  }

  lemma {:induction false} SelectorMoves(st: State, s: nat, sel: Selector)
    requires Inv(st) && s < |st.sels| && SelectorOk(st.chans, s, sel)
    ensures Inv(st.(sels := st.sels[s := sel]))
  {
  }

  lemma {:induction false} TryKeeps(st: State, step: Step)
    requires Inv(st) && step.Try? && Enabled(st, step)
    ensures Inv(Apply(st, step))
  {
    var s, sel := step.s, st.sels[step.s];
    var i := sel.phase.order[sel.phase.at];
    var op := sel.ops[i];
    var c := ChanOf(st, op);
    var chans := WithChan(st, op, Run(c, op));
    assert SelectorOk(st.chans, s, sel);
    SelectorTries(st.chans, s, sel, c, step.fires, step.handlerOk);
    forall r | 0 <= r < |st.sels| ensures SelectorOk(chans, r, st.sels[r]) {
      if OnChannel(op) { ChanChanges(st.chans, r, st.sels[r], op.ch, Run(c, op)); }
    }
    forall ch | 0 <= ch < |chans| ensures ChanOk(chans[ch]) { }
  }

  lemma {:induction false} AttachKeeps(st: State, step: Step)
    requires Inv(st) && step.Attach? && Enabled(st, step)
    ensures Inv(Apply(st, step))
  {
    var s, sel := step.s, st.sels[step.s];
    assert SelectorOk(st.chans, s, sel);
    if sel.phase.next < |sel.ops| && OnChannel(sel.ops[sel.phase.next]) {
      var ch := sel.ops[sel.phase.next].ch;
      var chans := st.chans[ch := AddWaiter(st.chans[ch], s)];
      forall r | 0 <= r < |st.sels| ensures SelectorOk(chans, r, st.sels[r]) {
        AddsWaiter(st.chans, r, st.sels[r], ch, s);
      }
      assert s in chans[ch].waiters;
    }
  }

  lemma {:induction false} NotifyKeeps(st: State, step: Step)
    requires Inv(st) && (step.Notify? || step.Drop?) && Enabled(st, step)
    ensures Inv(Apply(st, step))
  {
    var after := Apply(st, step);
    forall r | 0 <= r < |st.sels| ensures SelectorOk(after.chans, r, after.sels[r]) {
      assert SelectorOk(st.chans, r, st.sels[r]);
      if step.Notify? { OneNotified(st.chans, r, st.sels[r], step.ch); }
      else { OneDropped(st.chans, r, st.sels[r], step.ch); }
    }
    assert ChanOk(st.chans[step.ch]);
  }

  lemma {:induction false} StepKeeps(st: State, step: Step)
    requires Inv(st) && Enabled(st, step)
    ensures Inv(Apply(st, step))
  {
    match step {
      case Attach(_) => AttachKeeps(st, step);
      case Try(_, _, _) => TryKeeps(st, step);
      case Notify(_) => NotifyKeeps(st, step);
      case Drop(_) => NotifyKeeps(st, step);
      case Push(ch, v) =>
        assert ChanOk(st.chans[ch]);
        ChanMoves(st, ch, Pushed(st.chans[ch], v));
      case Pop(ch) =>
        assert ChanOk(st.chans[ch]);
        ChanMoves(st, ch, Popped(st.chans[ch]));
      case Close(ch) =>
        assert ChanOk(st.chans[ch]);
        ChanMoves(st, ch, Closed(st.chans[ch]));
      case Nudge(ch) =>
        assert ChanOk(st.chans[ch]);
        ChanMoves(st, ch, st.chans[ch].(pending := st.chans[ch].waiters));
      case Signal(s) =>
        assert SelectorOk(st.chans, s, st.sels[s]);
        SelectorMoves(st, s, Awoken(st.sels[s]));
      case GiveUp(s, handlerOk) =>
        assert SelectorOk(st.chans, s, st.sels[s]);
        SelectorGivesUp(st.chans, s, st.sels[s], handlerOk);
        SelectorMoves(st, s, Gave(st.sels[s], handlerOk));
      case _ =>
        assert SelectorOk(st.chans, step.s, st.sels[step.s]);
        SelectorMoves(st, step.s, Apply(st, step).sels[step.s]);
    }
  }

  // --------------------------------------------------------------------- runs

  /** New channels and selectors that have not begun. */
  ghost predicate Initial(st: State) {
    && (forall ch | 0 <= ch < |st.chans| :: st.chans[ch] == NOWHERE.(capacity := st.chans[ch].capacity))
    && (forall s | 0 <= s < |st.sels| ::
          && OpsInRange(st.sels[s].ops, |st.chans|)
          && st.sels[s] == Selector(st.sels[s].ops, 0, Attaching(0), []))
  }

  ghost predicate Runs(st: State, steps: seq<Step>, end: State)
    decreases |steps|
  {
    if steps == [] then st == end
    else Enabled(st, steps[0]) && Runs(Apply(st, steps[0]), steps[1..], end)
  }

  lemma {:induction false} RunKeeps(st: State, steps: seq<Step>, end: State)
    requires Inv(st) && Runs(st, steps, end)
    ensures Inv(end)
    decreases |steps|
  {
    if steps != [] {
      StepKeeps(st, steps[0]);
      RunKeeps(Apply(st, steps[0]), steps[1..], end);
    }
  }

  /** No wake-up is lost: in every reachable state, a selector blocked under the generation it observed
      has no ready channel operation, unless the channel's lock holder is still to notify it. */
  lemma {:induction false} NoLostWakeUp(start: State, steps: seq<Step>, st: State, s: nat, i: nat)
    requires Initial(start) && Runs(start, steps, st)
    requires s < |st.sels| && st.sels[s].phase == Waiting(st.sels[s].generation)
    requires i < |st.sels[s].ops| && OnChannel(st.sels[s].ops[i])
    ensures st.sels[s].ops[i].ch < |st.chans|
    ensures Ready(st.chans[st.sels[s].ops[i].ch], st.sels[s].ops[i]) ==> s in st.chans[st.sels[s].ops[i].ch].pending
  {
    RunKeeps(start, steps, st);
    assert SelectorOk(st.chans, s, st.sels[s]);
    assert Settled(st.chans, s, st.sels[s], i, st.sels[s].generation);
  }

  /** The lock holder's next notification, or the erasure of a waiter that no longer exists. */
  function HolderStep(st: State, ch: nat): Step
    requires ch < |st.chans| && Locked(st.chans[ch])
  {
    if st.chans[ch].pending[0] < |st.sels| then Notify(ch) else Drop(ch)
  }

  /** The notification under way always arrives: wherever a blocked selector stands in the list, the lock
      holder's remaining steps, which nothing can disable, reach it and let it wake. */
  lemma {:induction false} NotifiedWakes(st: State, ch: nat, s: nat, k: nat) returns (steps: seq<Step>, end: State)
    requires ch < |st.chans| && k < |st.chans[ch].pending| && st.chans[ch].pending[k] == s
    requires s < |st.sels| && st.sels[s].phase.Waiting? && st.sels[s].phase.observed <= st.sels[s].generation
    ensures Runs(st, steps, end) && |steps| == k + 1
    ensures forall i | 0 <= i < |steps| :: steps[i] == Notify(ch) || steps[i] == Drop(ch)
    ensures Enabled(end, Wake(s)) && end.sels[s].phase == st.sels[s].phase
    decreases k
  {
    var step := HolderStep(st, ch);
    var next := Apply(st, step);
    assert next.chans[ch].pending == st.chans[ch].pending[1..];
    if k == 0 {
      steps, end := [step], next;
      assert [step][1..] == [];
    } else {
      var rest: seq<Step>;
      rest, end := NotifiedWakes(next, ch, s, k - 1);
      steps := [step] + rest;
      assert steps[1..] == rest;
    }
  }

  /** No other thread's step takes a waiting notification away: the list only changes by the holder's steps. */
  lemma {:induction false} OnlyHolderNotifies(st: State, step: Step, ch: nat)
    requires Enabled(st, step) && ch < |st.chans| && Locked(st.chans[ch])
    requires step != Notify(ch) && step != Drop(ch)
    ensures ch < |Apply(st, step).chans| && Apply(st, step).chans[ch].pending == st.chans[ch].pending
  {
  }

  /** In every reachable state a select has performed at most one channel operation, none while it is
      still going, and on success only the one whose index it returns. */
  lemma {:induction false} AtMostOneCommit(start: State, steps: seq<Step>, st: State, s: nat)
    requires Initial(start) && Runs(start, steps, st) && s < |st.sels|
    ensures |st.sels[s].commits| <= 1
    ensures !Finished(st.sels[s].phase) ==> st.sels[s].commits == []
    ensures st.sels[s].phase.Done? && st.sels[s].commits != [] ==> st.sels[s].commits == [st.sels[s].phase.index]
  {
    RunKeeps(start, steps, st);
    assert SelectorOk(st.chans, s, st.sels[s]);
  }

  /** Every reachable channel is first in, first out and within its capacity. */
  lemma {:induction false} FirstInFirstOut(start: State, steps: seq<Step>, st: State, ch: nat)
    requires Initial(start) && Runs(start, steps, st) && ch < |st.chans|
    ensures st.chans[ch].received <= st.chans[ch].sent && |st.chans[ch].queue| <= st.chans[ch].capacity
    ensures st.chans[ch].received + st.chans[ch].queue == st.chans[ch].sent
  {
    RunKeeps(start, steps, st);
    assert ChanOk(st.chans[ch]);
  }
}
