/**
 The unbuffered channel: a slot guarded by a lock, and senders that first wait for the slot to be free and
 then for it to be emptied.  A value is named by the send call that brings it, so a run with any number of
 senders, receivers, cancellations, timeouts and closes is a sequence of critical sections.
 */
module Rendezvous {

  datatype Handoff = Empty | Full(sender: nat)

  /** The fields under the lock. */
  datatype Slot = Slot(handoff: Handoff, closed: bool, sent: nat, received: nat, rejected: nat)

  function Filled(slot: Slot, sender: nat): Slot { slot.(handoff := Full(sender)) }

  function Taken(slot: Slot): Slot {
    slot.(handoff := Empty, sent := slot.sent + 1, received := slot.received + 1)
  }

  function Cleared(slot: Slot): Slot { slot.(handoff := Empty) }

  function Refused(slot: Slot): Slot { slot.(rejected := slot.rejected + 1) }

  function Shut(slot: Slot): Slot {
    Slot(Empty, true, slot.sent, slot.received, slot.rejected + if slot.handoff.Full? then 1 else 0)
  }

  datatype Received = Got(sender: nat) | Drained | Nothing

  /** The critical sections of the channel, each between two waits. */
  class UnbufferedChannel {
    var handoff: Handoff
    var closed: bool
    var sent: nat
    var received: nat
    var rejected: nat

    ghost function View(): Slot
      reads this
    {
      Slot(handoff, closed, sent, received, rejected)
    }

    constructor ()
      ensures View() == Slot(Empty, false, 0, 0, 0)
    {
      handoff, closed := Empty, false;
      sent, received, rejected := 0, 0, 0;
    }

    /** The first half of `send`, once its wait is over. */
    method Offer(sender: nat) returns (placed: bool)
      requires closed || handoff.Empty?
      modifies this
      ensures placed == !old(closed)
      ensures View() == if placed then Filled(old(View()), sender) else Refused(old(View()))
    {
      if closed {
        rejected := rejected + 1;
        return false;
      }
      handoff := Full(sender);
      placed := true;
    }

    /** The end of `send`, once its second wait is over without cancellation. */
    method Settle() returns (ok: bool)
      requires closed || handoff.Empty?
      modifies this
      ensures ok <==> !(old(closed) && old(handoff).Full?)
      ensures View() == if ok then old(View()) else Refused(old(View()))
    {
      ok := !(closed && handoff.Full?);
      if !ok {
        rejected := rejected + 1;
      }
    }

    /** What a cancelled or timed-out sender does in its second half: it empties the slot, whoever filled it. */
    method Withdraw()
      modifies this
      ensures View() == Cleared(old(View()))
    {
      if handoff.Full? {
        handoff := Empty;
      }
    }

    /** `popUnlocked`. */
    method Take() returns (r: Received)
      modifies this
      ensures r == if old(handoff).Full? then Got(old(handoff).sender) else if old(closed) then Drained else Nothing
      ensures View() == if r.Got? then Taken(old(View())) else old(View())
    {
      if handoff.Empty? {
        return if closed then Drained else Nothing;
      }
      r := Got(handoff.sender);
      handoff := Empty;
      sent, received := sent + 1, received + 1;
    }

    method Close()
      modifies this
      ensures View() == Shut(old(View()))
    {
      closed := true;
      if handoff.Full? {
        handoff := Empty;
        rejected := rejected + 1;
      }
    }
  }

  // --------------------------------------------------------------------- runs

  datatype Phase = Arriving | Placed | ReturnedOk | ReturnedError

  /** `delivered` lists the sends whose value a receiver took; `dropped` the sends whose value was
      thrown out of the slot. */
  datatype State = State(slot: Slot, sends: seq<Phase>, delivered: seq<nat>, dropped: set<nat>)

  datatype Step =
    | Offer(i: nat)
    | Abandon(i: nat)
    | Settle(i: nat)
    | Cancel(i: nat)
    | TimeOut(i: nat)
    | Take
    | Close

  predicate InPhase(st: State, i: nat, phase: Phase) {
    i < |st.sends| && st.sends[i] == phase
  }

  /** When the waits of the source let the step happen. */
  predicate Enabled(st: State, step: Step) {
    match step
    case Offer(i) => InPhase(st, i, Arriving) && (st.slot.closed || st.slot.handoff.Empty?)
    case Abandon(i) => InPhase(st, i, Arriving)
    case Settle(i) => InPhase(st, i, Placed) && (st.slot.closed || st.slot.handoff.Empty?)
    case Cancel(i) => InPhase(st, i, Placed)
    case TimeOut(i) => InPhase(st, i, Placed) && !st.slot.closed && st.slot.handoff.Full?
    case Take => st.slot.handoff.Full?
    case Close => true
  }

  function Thrown(st: State): set<nat> {
    if st.slot.handoff.Full? then {st.slot.handoff.sender} else {}
  }

  function Apply(st: State, step: Step): State
    requires Enabled(st, step)
  {
    match step
    case Offer(i) =>
      if st.slot.closed then st.(slot := Refused(st.slot), sends := st.sends[i := ReturnedError])
      else st.(slot := Filled(st.slot, i), sends := st.sends[i := Placed])
    case Abandon(i) => st.(sends := st.sends[i := ReturnedError])
    case Settle(i) =>
      if st.slot.closed && st.slot.handoff.Full?
      then st.(slot := Refused(st.slot), sends := st.sends[i := ReturnedError])
      else st.(sends := st.sends[i := ReturnedOk])
    case Cancel(i) =>
      State(Cleared(st.slot), st.sends[i := ReturnedError], st.delivered, st.dropped + Thrown(st))
    case TimeOut(i) =>
      State(Cleared(st.slot), st.sends[i := ReturnedError], st.delivered, st.dropped + Thrown(st))
    case Take => st.(slot := Taken(st.slot), delivered := st.delivered + [st.slot.handoff.sender])
    case Close => st.(slot := Shut(st.slot), dropped := st.dropped + Thrown(st))
  }

  ghost predicate Distinct(ids: seq<nat>) {
    forall j, k | 0 <= j < k < |ids| :: ids[j] != ids[k]
  }

  /** Every send is in exactly one of four places: not yet in the slot, in the slot, delivered, or dropped. */
  ghost predicate Placing(st: State, i: nat)
    requires i < |st.sends|
  {
    && !(i in st.delivered && i in st.dropped)
    && (st.sends[i] == Arriving ==> i !in st.delivered && i !in st.dropped && st.slot.handoff != Full(i))
    && (st.slot.handoff == Full(i) ==> st.sends[i] == Placed && i !in st.delivered && i !in st.dropped)
    && (st.sends[i] == Placed ==> st.slot.handoff == Full(i) || i in st.delivered || i in st.dropped)
    && (st.sends[i] == ReturnedOk ==> i in st.delivered || i in st.dropped)
  }

  ghost predicate Inv(st: State) {
    && (forall i | 0 <= i < |st.sends| :: Placing(st, i))
    && (st.slot.handoff.Full? ==> st.slot.handoff.sender < |st.sends| && !st.slot.closed)
    && (forall k | 0 <= k < |st.delivered| :: st.delivered[k] < |st.sends|)
    && Distinct(st.delivered)
    && st.slot.sent == st.slot.received == |st.delivered|
  }

  lemma {:induction false} StepKeeps(st: State, step: Step)
    requires Inv(st) && Enabled(st, step)
    ensures Inv(Apply(st, step))
  {
    var after := Apply(st, step);
    forall i | 0 <= i < |after.sends| ensures Placing(after, i) {
      assert Placing(st, i);
    }
    if step.Take? {
      var i := st.slot.handoff.sender;
      assert Placing(st, i);
      forall k | 0 <= k < |st.delivered| ensures st.delivered[k] != i {
        assert st.delivered[k] in st.delivered;
      }
    }
  }

  ghost predicate Runs(st: State, steps: seq<Step>, end: State)
    decreases |steps|
  {
    if steps == [] then st == end
    else Enabled(st, steps[0]) && Runs(Apply(st, steps[0]), steps[1..], end)
  }

  function Start(senders: nat): State {
    State(Slot(Empty, false, 0, 0, 0), seq(senders, _ => Arriving), [], {})
  }

  lemma {:induction false} RunKeeps(st: State, steps: seq<Step>, end: State)
    requires Inv(st) && Runs(st, steps, end)
    ensures Inv(end)
    decreases |steps|
  {
    if steps != [] {
      StepKeeps(st, steps[0]);
      RunKeeps(Apply(st, steps[0]), steps[1..], end);
    }
  }

  /** A step that can throw a value out of the slot. */
  predicate Throws(step: Step) { step.Cancel? || step.TimeOut? || step.Close? }

  lemma {:induction false} NothingThrown(st: State, steps: seq<Step>, end: State)
    requires Runs(st, steps, end) && forall k | 0 <= k < |steps| :: !Throws(steps[k])
    ensures end.dropped == st.dropped
    decreases |steps|
  {
    if steps != [] {
      NothingThrown(Apply(st, steps[0]), steps[1..], end);
    }
  }

  /** In every run each value is delivered at most once and the two counters stay equal to the number
      of deliveries. */
  lemma {:induction false} DeliveredAtMostOnce(senders: nat, steps: seq<Step>, end: State)
    requires Runs(Start(senders), steps, end)
    ensures Distinct(end.delivered)
    ensures end.slot.sent == end.slot.received == |end.delivered|
  {
    RunKeeps(Start(senders), steps, end);
  }

  /** Some close, cancellation or timeout happened while the value of send `i` was in the slot. */
  ghost predicate ThrownDuring(st: State, steps: seq<Step>, end: State, i: nat)
    requires Runs(st, steps, end)
    decreases |steps|
  {
    steps != [] &&
    ((Throws(steps[0]) && st.slot.handoff == Full(i)) || ThrownDuring(Apply(st, steps[0]), steps[1..], end, i))
  }

  lemma {:induction false} DroppedIff(st: State, steps: seq<Step>, end: State, i: nat)
    requires Runs(st, steps, end)
    ensures i in end.dropped <==> i in st.dropped || ThrownDuring(st, steps, end, i)
    decreases |steps|
  {
    if steps != [] {
      DroppedIff(Apply(st, steps[0]), steps[1..], end, i);
    }
  }

  /** In every run, a send that returned Ok had its value received exactly if no close, cancellation or
      timeout happened while the value was in the slot. */
  lemma {:induction false} OkMeansReceivedIff(senders: nat, steps: seq<Step>, end: State, i: nat)
    requires Runs(Start(senders), steps, end) && InPhase(end, i, ReturnedOk)
    ensures i in end.delivered <==> !ThrownDuring(Start(senders), steps, end, i)
  {
    RunKeeps(Start(senders), steps, end);
    assert Placing(end, i);
    DroppedIff(Start(senders), steps, end, i);
  }

  /** Without close, cancellation and timed sends, Ok means received. */
  lemma {:induction false} OkMeansReceived(senders: nat, steps: seq<Step>, end: State, i: nat)
    requires Runs(Start(senders), steps, end) && InPhase(end, i, ReturnedOk)
    requires forall k | 0 <= k < |steps| :: !Throws(steps[k])
    ensures i in end.delivered
  {
    NothingThrown(Start(senders), steps, end);
    RunKeeps(Start(senders), steps, end);
    assert Placing(end, i);
  }

  /** And then at most one value is waiting in the channel: all other placed sends have been received. */
  lemma {:induction false} OnlyOneWaits(senders: nat, steps: seq<Step>, end: State, i: nat)
    requires Runs(Start(senders), steps, end) && InPhase(end, i, Placed)
    requires forall k | 0 <= k < |steps| :: !Throws(steps[k])
    ensures end.slot.handoff == Full(i) <==> i !in end.delivered
  {
    NothingThrown(Start(senders), steps, end);
    RunKeeps(Start(senders), steps, end);
    assert Placing(end, i);
  }

  lemma {:induction false} RunsOne(st: State, step: Step, rest: seq<Step>, end: State)
    requires Enabled(st, step) && Runs(Apply(st, step), rest, end)
    ensures Runs(st, [step] + rest, end)
  {
    assert ([step] + rest)[1..] == rest;
  }

  /** A close between the two waits makes the sender return Ok for a value nobody received. */
  lemma {:induction false} CloseLosesValue() returns (end: State)
    ensures Runs(Start(1), [Offer(0)] + ([Close] + ([Settle(0)] + [])), end)
    ensures InPhase(end, 0, ReturnedOk) && 0 !in end.delivered
  {
    var a := Start(1);
    var b := Apply(a, Offer(0));
    var c := Apply(b, Close);
    end := Apply(c, Settle(0));
    RunsOne(c, Settle(0), [], end);
    RunsOne(b, Close, [Settle(0)] + [], end);
    RunsOne(a, Offer(0), [Close] + ([Settle(0)] + []), end);
  }

  /** The cancellation of a send that was already received throws out the next sender's value, and
      that sender returns Ok: no close is needed. */
  lemma {:induction false} CancelLosesOtherValue() returns (end: State)
    ensures Runs(Start(2), [Offer(0)] + ([Take] + ([Offer(1)] + ([Cancel(0)] + ([Settle(1)] + [])))), end)
    ensures InPhase(end, 1, ReturnedOk) && 1 !in end.delivered
  {
    var a := Start(2);
    var b := Apply(a, Offer(0));
    var c := Apply(b, Take);
    var d := Apply(c, Offer(1));
    var e := Apply(d, Cancel(0));
    end := Apply(e, Settle(1));
    RunsOne(e, Settle(1), [], end);
    RunsOne(d, Cancel(0), [Settle(1)] + [], end);
    RunsOne(c, Offer(1), [Cancel(0)] + ([Settle(1)] + []), end);
    RunsOne(b, Take, [Offer(1)] + ([Cancel(0)] + ([Settle(1)] + [])), end);
    RunsOne(a, Offer(0), [Take] + ([Offer(1)] + ([Cancel(0)] + ([Settle(1)] + []))), end);
  }
}
