/** The bounded FIFO queue between the event loop and the workers. Each locked section is one
    step; waiting on a condition variable is an enabling condition of the step. */
module Queueing {
  import opened Bytes

  datatype PushStatus = PushOk | PushFull | PushClosed
  datatype PopStatus = PopOk | PopClosed | PopStopped

  datatype Queue<T> = Queue(items: seq<T>, capacity: nat, closed: bool)

  class BoundedQueue<T> {
    var items: seq<T>
    const capacity: nat
    var closed: bool
    var onPush: bool  // a notification callback is registered
    ghost var accepted: seq<T>  // everything ever pushed

    /** What is held is the newest part of what was accepted. */
    ghost predicate Valid()
      reads this
    {
      && 0 < capacity && |items| <= capacity
      && |items| <= |accepted| && items == accepted[|accepted| - |items|..]
    }

    function Model(): Queue<T>
      reads this
    {
      Queue(items, capacity, closed)
    }

    constructor (capacity: nat)
      requires capacity > 0
      ensures Valid() && Model() == Queue([], capacity, false) && !onPush && accepted == []
    {
      this.capacity := capacity;
      items, closed, onPush, accepted := [], false, false, [];
    }

    method SetOnPush(callback: bool)
      modifies this
      ensures Model() == old(Model()) && onPush == callback && accepted == old(accepted)
    {
      onPush := callback;
    }

    /** Runs once the wait is over; `notify` says that the callback runs after the lock. */
    method Push(item: T) returns (status: PushStatus, notify: bool)
      requires Valid()
      requires closed || |items| < capacity
      modifies this
      ensures Valid() && onPush == old(onPush)
      ensures (Model(), status) == Offer(old(Model()), item)
      ensures status != PushFull
      ensures notify == (status == PushOk && onPush)
      ensures accepted == if status == PushOk then old(accepted) + [item] else old(accepted)
      ensures status == PushClosed <==> old(closed)
      ensures status == PushOk <==> !old(closed) && |old(items)| < capacity
      ensures items == if status == PushOk then old(items) + [item] else old(items)
    {
      if closed {
        return PushClosed, false;
      }
      items := items + [item];
      accepted := accepted + [item];
      return PushOk, onPush;
    }

    method TryPush(item: T) returns (status: PushStatus, notify: bool)
      requires Valid()
      modifies this
      ensures Valid() && onPush == old(onPush)
      ensures (Model(), status) == Offer(old(Model()), item)
      ensures notify == (status == PushOk && onPush)
      ensures accepted == if status == PushOk then old(accepted) + [item] else old(accepted)
      ensures status == PushClosed <==> old(closed)
      ensures status == PushOk <==> !old(closed) && |old(items)| < capacity
      ensures items == if status == PushOk then old(items) + [item] else old(items)
    {
      if closed {
        return PushClosed, false;
      }
      if |items| >= capacity {
        return PushFull, false;
      }
      items := items + [item];
      accepted := accepted + [item];
      return PushOk, onPush;
    }

    /** Runs once an item is there, the queue is closed, or a stop was requested. */
    method Pop(stopRequested: bool) returns (status: PopStatus, out: Option<T>)
      requires Valid()
      requires closed || items != [] || stopRequested
      modifies this
      ensures Valid() && onPush == old(onPush) && accepted == old(accepted)
      ensures (Model(), out) == Take(old(Model()))
      ensures if old(items) == [] then out == None && items == []
              else out == Some(old(items)[0]) && items == old(items)[1..]
      ensures status == PopOk <==> old(items) != []
      ensures status == PopClosed <==> old(items) == [] && closed
    {
      var satisfied := closed || items != [];
      if !satisfied {
        return PopStopped, None;
      }
      if items == [] {
        return PopClosed, None;
      }
      out := Some(items[0]);
      items := items[1..];
      status := PopOk;
    }

    method TryPop() returns (out: Option<T>)
      requires Valid()
      modifies this
      ensures Valid() && onPush == old(onPush) && accepted == old(accepted)
      ensures (Model(), out) == Take(old(Model()))
      ensures if old(items) == [] then out == None && items == []
              else out == Some(old(items)[0]) && items == old(items)[1..]
    {
      if items == [] {
        return None;
      }
      out := Some(items[0]);
      items := items[1..];
    }

    method Close()
      modifies this
      ensures Model() == old(Model()).(closed := true) && onPush == old(onPush) && accepted == old(accepted)
    {
      closed := true;
    }
  }

  /** What a push does: refused when closed, refused when full, otherwise at the back. */
  function Offer<T>(q: Queue<T>, item: T): (Queue<T>, PushStatus) {
    if q.closed then (q, PushClosed)
    else if |q.items| >= q.capacity then (q, PushFull)
    else (q.(items := q.items + [item]), PushOk)
  }

  /** What a pop does: the front item, if any, closed or not. */
  function Take<T>(q: Queue<T>): (Queue<T>, Option<T>) {
    if q.items == [] then (q, None) else (q.(items := q.items[1..]), Some(q.items[0]))
  }

  // Histories --------------------------------------------------------------------------

  datatype Action<T> = DoPush(item: T) | DoPop | DoClose

  datatype History<T> = History(q: Queue<T>, accepted: seq<T>, popped: seq<T>, acceptedAtClose: Option<nat>)

  function Perform<T>(h: History<T>, a: Action<T>): History<T> {
    match a
    case DoPush(item) =>
      var r := Offer(h.q, item);
      h.(q := r.0, accepted := if r.1 == PushOk then h.accepted + [item] else h.accepted)
    case DoPop =>
      var r := Take(h.q);
      h.(q := r.0, popped := if r.1.Some? then h.popped + [r.1.value] else h.popped)
    case DoClose =>
      h.(q := h.q.(closed := true), acceptedAtClose := if h.q.closed then h.acceptedAtClose else Some(|h.accepted|))
  }

  function PerformAll<T>(h: History<T>, actions: seq<Action<T>>): History<T>
    decreases |actions|
  {
    if actions == [] then h else PerformAll(Perform(h, actions[0]), actions[1..])
  }

  /** First in, first out, nothing lost or invented, never over capacity, nothing after close. */
  predicate Fifo<T(==)>(h: History<T>) {
    && h.popped + h.q.items == h.accepted
    && |h.q.items| <= h.q.capacity
    && (h.q.closed <==> h.acceptedAtClose.Some?)
    && (h.acceptedAtClose.Some? ==> |h.accepted| == h.acceptedAtClose.value)
  }

  /** Every interleaving of pushes, pops and closes keeps the queue a FIFO. */
  lemma {:induction false} EveryHistoryIsFifo<T>(h: History<T>, actions: seq<Action<T>>)
    requires Fifo(h)
    ensures Fifo(PerformAll(h, actions))
    ensures PerformAll(h, actions).q.capacity == h.q.capacity
    ensures h.accepted <= PerformAll(h, actions).accepted && h.popped <= PerformAll(h, actions).popped
    decreases |actions|
  {
    if actions != [] {
      var h' := Perform(h, actions[0]);
      match actions[0] {
        case DoPush(item) =>
          assert h.popped + (h.q.items + [item]) == (h.popped + h.q.items) + [item];
        case DoPop =>
          if h.q.items != [] {
            assert (h.popped + [h.q.items[0]]) + h.q.items[1..] == h.popped + h.q.items;
          }
        case DoClose =>
      }
      EveryHistoryIsFifo(h', actions[1..]);
    }
  }
}
