/** The worker's loop body: pop a request, dispatch it, push its completion. */
module WorkerPool {
  import opened Bytes
  import opened Queueing
  import opened Requests
  import opened Storage
  import opened Linearization
  import opened Dispatcher
  import opened MapLaws
  import opened Store
  import Pipeline
  import Replies

  /** The completion queue when a worker's wait for room ends: other workers added some completions
      and the loop took some away. */
  function Waited(q: Queue<Pipeline.Completion>, others: seq<Pipeline.Completion>,
                  drained: nat): Queue<Pipeline.Completion>
    requires drained <= |q.items| + |others|
  {
    q.(items := (q.items + others)[drained..])
  }

  /** The wait is over: there is room, or the queue is closed. */
  predicate WaitEnds(q: Queue<Pipeline.Completion>, others: seq<Pipeline.Completion>, drained: nat) {
    && drained <= |q.items| + |others| <= q.capacity + drained
    && (q.closed ==> others == [])
    && (q.closed || |q.items| + |others| < q.capacity + drained)
  }

  method WaitForRoom(completions: BoundedQueue<Pipeline.Completion>, others: seq<Pipeline.Completion>, drained: nat)
    requires completions.Valid() && WaitEnds(completions.Model(), others, drained)
    modifies completions
    ensures completions.Valid() && completions.Model() == Waited(old(completions.Model()), others, drained)
    ensures completions.accepted == old(completions.accepted) + others
  {
    completions.items := (completions.items + others)[drained..];
    completions.accepted := completions.accepted + others;
  }

  /** One turn of a worker, once its wait for work is over. It leaves only when no item is queued or
      the completion queue is closed; otherwise exactly the front item is popped, executed, and its
      reply queued under the tag it came with, after the wait for room that `others` and `drained`
      describe. */
  method WorkerTurn(work: BoundedQueue<Pipeline.WorkItem>, completions: BoundedQueue<Pipeline.Completion>, store: Store,
                    stopRequested: bool, now: int, gap: Option<Shard>, others: seq<Pipeline.Completion>, drained: nat)
      returns (again: bool, ghost response: string)
    requires work.Valid() && completions.Valid() && store.Valid()
    requires work.closed || work.items != [] || stopRequested
    requires work.items != [] ==> WaitEnds(completions.Model(), others, drained)
    modifies work, completions, store.shards
    ensures work.Valid() && completions.Valid()
    ensures work.Model() == Queueing.Take(old(work.Model())).0
    ensures again <==> old(work.items) != [] && !completions.closed
    ensures old(work.items) == [] ==>
              completions.Model() == old(completions.Model()) && forall c | c in store.shards :: unchanged(c)
    ensures old(work.items) != [] ==>
              var item := old(work.items)[0];
              completions.Model() == Offer(Waited(old(completions.Model()), others, drained),
                                           Pipeline.Completion(item.fd, item.tag, response)).0
    ensures old(work.items) != [] && !old(work.items)[0].command.Ping? ==>
              var command := old(work.items)[0].command;
              var home := old(store.shards[store.Index(command.key)].Model());
              && store.Sectioned(command, now, gap)
              && response == Replies.Encode(ReplyOf(FirstSection(home, command, now).answer))
    ensures old(work.items) != [] && old(work.items)[0].command.Ping? ==>
              response == Replies.Encode(ReplyOf(Pong)) && forall c | c in store.shards :: unchanged(c)
  {
    hide Store.Index, FirstSection, ReplyOf, Replies.Encode, AnsweredWith, SeenIn;
    response := "";
    var status, popped := work.Pop(stopRequested);
    if status != PopOk {
      return false, response;
    }
    var item := popped.value;
    var text := Dispatch(store, item.command, now, gap);
    response := text;
    WaitForRoom(completions, others, drained);
    var pushed, notify := completions.Push(Pipeline.Completion(item.fd, item.tag, text));
    again := pushed == PushOk;
  }
}
