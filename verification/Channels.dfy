/** The bounded channel and the select order as the objects that run under the channel's lock. */
module Channels {
  import opened Select

  /** The waiters of the selects in progress.  A waiter that is not here any more has expired: the
      channels' weak references to it no longer resolve. */
  class Waiters {
    var generation: map<nat, nat>

    constructor ()
      ensures generation == map[]
    {
      generation := map[];
    }

    method Notify(id: nat)
      requires id in generation
      modifies this
      ensures generation == old(generation)[id := old(generation)[id] + 1]
    {
      generation := generation[id := generation[id] + 1];
    }
  }

  datatype SendStatus = Sent | ChannelClosed | ChannelFull

  datatype Received = Got(value: Value) | Drained | ChannelEmpty

  /** The first `k` waiters that have not expired, in order. */
  function Live(ids: seq<nat>, k: nat, alive: map<nat, nat>): seq<nat>
    requires k <= |ids|
  {
    if k == 0 then [] else Live(ids, k - 1, alive) + (if ids[k - 1] in alive then [ids[k - 1]] else [])
  }

  /** The generations after the first `k` waiters have been notified. */
  function Bumped(generation: map<nat, nat>, ids: seq<nat>, k: nat): map<nat, nat>
    requires k <= |ids|
  {
    if k == 0 then generation
    else
      var r := Bumped(generation, ids, k - 1);
      if ids[k - 1] in r then r[ids[k - 1] := r[ids[k - 1]] + 1] else r
  }

  lemma {:induction false} NeverBack(generation: map<nat, nat>, ids: seq<nat>, k: nat, id: nat)
    requires k <= |ids|
    ensures id in Bumped(generation, ids, k) <==> id in generation
    ensures id in generation ==> Bumped(generation, ids, k)[id] >= generation[id]
  {
    if k > 0 { NeverBack(generation, ids, k - 1, id); }
  }

  /** Notifying leaves no live waiter on the generation it had. */
  lemma {:induction false} EveryoneMovesOn(generation: map<nat, nat>, ids: seq<nat>, k: nat, id: nat)
    requires k <= |ids| && id in ids[..k] && id in generation
    ensures id in Bumped(generation, ids, k) && Bumped(generation, ids, k)[id] > generation[id]
  {
    assert ids[..k] == ids[..k - 1] + [ids[k - 1]];
    if id != ids[k - 1] { EveryoneMovesOn(generation, ids, k - 1, id); } else { NeverBack(generation, ids, k - 1, id); }
  }

  /** Going past one waiter of the list: erased or kept. */
  lemma {:induction false} PassOne<T>(head: seq<T>, all: seq<T>, k: nat)
    requires k < |all|
    ensures (head + all[k..])[|head|] == all[k]
    ensures (head + all[k..])[..|head|] + (head + all[k..])[|head| + 1..] == head + all[k + 1..]
    ensures head + all[k..] == (head + [all[k]]) + all[k + 1..]
  {
  }

  class BoundedChannel {
    const capacity: nat
    var queue: seq<Value>
    var closed: bool
    var sent: nat
    var received: nat
    var rejected: nat
    const selects: Waiters
    var waiters: seq<nat>
    ghost var accepted: seq<Value>
    ghost var delivered: seq<Value>

    /** The channel as the state machine of `select` sees it, between two critical sections. */
    ghost function View(): Chan
      reads this
    {
      Chan(capacity, queue, closed, waiters, [], accepted, delivered)
    }

    /** First in first out within the capacity, and the statistics count what went through. */
    ghost predicate Valid()
      reads this
    {
      ChanOk(View()) && sent == |accepted| && received == |delivered|
    }

    constructor (capacity: nat, selects: Waiters)
      requires capacity > 0
      ensures Valid() && this.selects == selects && this.capacity == capacity && queue == [] && !closed && waiters == []
    {
      this.capacity, this.selects := capacity, selects;
      queue, closed, waiters := [], false, [];
      sent, received, rejected := 0, 0, 0;
      accepted, delivered := [], [];
    }

    /** Every waiter that is still alive has been notified and the others are forgotten. */
    twostate predicate Notified()
      reads this, selects
    {
      && selects.generation == Bumped(old(selects.generation), old(waiters), |old(waiters)|)
      && waiters == Live(old(waiters), |old(waiters)|, old(selects.generation))
    }

    /** The loop has passed `k` waiters of the original list and stands at position `i` of what is left. */
    ghost predicate Passed(all: seq<nat>, alive: map<nat, nat>, k: nat, i: nat)
      reads this, selects
    {
      && k <= |all| && i == |Live(all, k, alive)|
      && waiters == Live(all, k, alive) + all[k..]
      && selects.generation == Bumped(alive, all, k)
    }

    method NotifyOne(i: nat, ghost all: seq<nat>, ghost alive: map<nat, nat>, ghost k: nat) returns (next: nat)
      requires Passed(all, alive, k, i) && i < |waiters|
      modifies this`waiters, selects
      ensures Passed(all, alive, k + 1, next)
    {
      PassOne(Live(all, k, alive), all, k);
      NeverBack(alive, all, k, waiters[i]);
      if waiters[i] !in selects.generation {
        waiters := waiters[..i] + waiters[i + 1..];
        next := i;
      } else {
        selects.Notify(waiters[i]);
        next := i + 1;
      }
    }

    method NotifyWaiters()
      modifies this`waiters, selects
      ensures Notified()
    {
      ghost var all, alive := waiters, selects.generation;
      ghost var k: nat := 0;
      var i: nat := 0;
      while i < |waiters|
        invariant Passed(all, alive, k, i)
        decreases |all| - k
      {
        i := NotifyOne(i, all, alive, k);
        k := k + 1;
      }
      assert k == |all| && all[k..] == [];
    }

    method AddWaiter(id: nat)
      modifies this`waiters
      ensures waiters == old(waiters) + [id]
    {
      waiters := waiters + [id];
    }

    /** `pushUnlocked`. */
    method Push(value: Value) returns (status: SendStatus)
      requires Valid()
      modifies this, selects
      ensures Valid()
      ensures status == if old(closed) then ChannelClosed else if |old(queue)| >= capacity then ChannelFull else Sent
      ensures status.Sent? ==> Notified() && View() == Pushed(old(View()), value).(pending := [], waiters := waiters)
      ensures !status.Sent? ==> View() == old(View()) && selects.generation == old(selects.generation)
    {
      if closed {
        rejected := rejected + 1;
        return ChannelClosed;
      }
      if |queue| >= capacity {
        return ChannelFull;
      }
      queue, accepted := queue + [value], accepted + [value];
      sent := sent + 1;
      NotifyWaiters();
      status := Sent;
    }

    /** `popUnlocked`. */
    method Pop() returns (r: Received)
      requires Valid()
      modifies this, selects
      ensures Valid()
      ensures r == if old(queue) != [] then Got(old(queue)[0]) else if old(closed) then Drained else ChannelEmpty
      ensures r.Got? ==> Notified() && View() == Popped(old(View())).(pending := [], waiters := waiters)
      ensures !r.Got? ==> View() == old(View()) && selects.generation == old(selects.generation)
    {
      if queue == [] {
        return if closed then Drained else ChannelEmpty;
      }
      var value := queue[0];
      queue, delivered := queue[1..], delivered + [value];
      received := received + 1;
      NotifyWaiters();
      r := Got(value);
    }

    method Close()
      requires Valid()
      modifies this, selects
      ensures Valid() && Notified() && View() == Closed(old(View())).(pending := [], waiters := waiters)
    {
      closed := true;
      NotifyWaiters();
    }

    /** What is in the queue is what was sent and not yet received. */
    method Size() returns (n: nat)
      requires Valid()
      ensures n == sent - received && n <= capacity
    {
      assert |accepted| == |delivered| + |queue|;
      n := |queue|;
    }
  }

  // -------------------------------------------------------------------- order

  /** `shuffleSelectOrder`: swaps from the end with positions drawn by `pick`. */
  method ShuffleSelectOrder(order: array<nat>, pick: nat -> nat)
    requires forall i: nat :: pick(i) <= i
    modifies order
    ensures multiset(order[..]) == multiset(old(order[..]))
  {
    if order.Length < 2 {
      return;
    }
    var i := order.Length - 1;
    while i > 0
      invariant i < order.Length
      invariant multiset(order[..]) == multiset(old(order[..]))
    {
      var j := pick(i);
      order[i], order[j] := order[j], order[i];
      i := i - 1;
    }
  }

  lemma {:induction false} Occurs(order: seq<nat>, k: nat)
    requires k < |order|
    ensures order[k] in multiset(order)
    ensures forall j | 0 <= j < k :: order[j] == order[k] ==> multiset(order)[order[k]] >= 2
  {
    forall j | 0 <= j < k && order[j] == order[k] ensures multiset(order)[order[k]] >= 2 {
      assert order == order[..j] + [order[j]] + order[j + 1..k] + [order[k]] + order[k + 1..];
    }
  }

  lemma {:induction false} OccursOnce(order: seq<nat>, x: nat)
    requires forall j, k | 0 <= j < k < |order| :: order[j] != order[k]
    ensures multiset(order)[x] <= 1
    decreases |order|
  {
    if order != [] {
      var n := |order| - 1;
      OccursOnce(order[..n], x);
      assert order == order[..n] + [order[n]];
      if x == order[n] { assert x !in order[..n]; }
    }
  }

  /** Whatever the random source, a shuffled order still tries every operation exactly once. */
  lemma {:induction false} ShuffledIsOrder(ops: seq<Op>, before: seq<nat>, after: seq<nat>)
    requires IsOrder(ops, before) && multiset(before) == multiset(after)
    ensures IsOrder(ops, after)
  {
    forall k | 0 <= k < |after| ensures after[k] in before {
      Occurs(after, k);
    }
    forall i | i in before ensures i in after {
      assert i in multiset(before);
    }
    forall j, k | 0 <= j < k < |after| ensures after[j] != after[k] {
      OccursOnce(before, after[k]);
      Occurs(after, k);
    }
  }
}
