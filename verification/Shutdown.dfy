/** Shutting the workers down: once the work queue is closed and nobody drains completions, the
    workers finish exactly when everything still in the pipeline fits the completion queue. */
module Shutdown {
  import opened Bytes
  import opened Parser
  import opened Queueing
  import opened Requests
  import opened Loop
  import opened Pipeline
  import opened PipelineSteps
  import opened PipelineGuarantees

  predicate WorkerStep(step: Step) {
    step.Pop? || step.Dispatch? || step.PushCompletion? || step.Notify? || step.Exit?
  }

  /** What happens once the pool is being destroyed: workers move, and stop is requested. */
  predicate ShutdownStep(step: Step) {
    WorkerStep(step) || step.StopWorkers?
  }

  function WorkerMoves(steps: seq<Step>): nat {
    if steps == [] then 0 else (if WorkerStep(steps[0]) then 1 else 0) + WorkerMoves(steps[1..])
  }

  // Nothing is lost --------------------------------------------------------------------

  /** The request a worker has popped and not yet executed. */
  function HeldToken(w: Worker): multiset<Tag> {
    if w.Holding? then multiset{w.item.tag} else multiset{}
  }

  /** Popped requests are dispatched exactly once, or still in a worker's hands. */
  predicate Balanced(s: State) {
    Sum(s.popped, ItemToken) == Sum(s.dispatched, CompletionToken) + Sum(s.workers, HeldToken)
  }

  lemma HeldUpdate(workers: seq<Worker>, i: nat, w: Worker)
    requires i < |workers|
    ensures Sum(workers[i := w], HeldToken) + HeldToken(workers[i]) == Sum(workers, HeldToken) + HeldToken(w)
  {
    SumUpdate(workers, HeldToken, i, w);
  }

  lemma HeldSame(workers: seq<Worker>, i: nat, w: Worker)
    requires i < |workers| && !workers[i].Holding? && !w.Holding?
    ensures Sum(workers[i := w], HeldToken) == Sum(workers, HeldToken)
  {
    hide Sum;
    HeldUpdate(workers, i, w);
    var a, b := Sum(workers[i := w], HeldToken), Sum(workers, HeldToken);
    assert a == a + multiset{} && b == b + multiset{};
  }

  lemma PopBalanced(s: State, cfg: Config, i: nat)
    requires Balanced(s) && Enabled(s, cfg, Pop(i))
    ensures Balanced(Apply(s, cfg, Pop(i)))
  {
    hide Sum;
    var item := s.work.items[0];
    SumSnoc(s.popped, ItemToken, item);
    HeldUpdate(s.workers, i, Holding(item));
    assert Sum(s.workers[i := Holding(item)], HeldToken) == Sum(s.workers, HeldToken) + multiset{item.tag};
  }

  lemma DispatchBalanced(s: State, cfg: Config, i: nat, response: string)
    requires Balanced(s) && Enabled(s, cfg, Dispatch(i, response))
    ensures Balanced(Apply(s, cfg, Dispatch(i, response)))
  {
    hide Sum;
    var item := s.workers[i].item;
    var done := Completion(item.fd, item.tag, response);
    SumSnoc(s.dispatched, CompletionToken, done);
    HeldUpdate(s.workers, i, Ready(done));
    assert Sum(s.workers[i := Ready(done)], HeldToken) + multiset{item.tag} == Sum(s.workers, HeldToken);
  }

  lemma StepBalanced(s: State, cfg: Config, step: Step)
    requires Balanced(s) && Enabled(s, cfg, step)
    ensures Balanced(Apply(s, cfg, step))
  {
    hide Sum, ApplyParse, ApplyDrain;
    match step
    case Pop(i) => PopBalanced(s, cfg, i);
    case Dispatch(i, response) => DispatchBalanced(s, cfg, i, response);
    case PushCompletion(i) => HeldSame(s.workers, i, Notifying);
    case Notify(i) => HeldSame(s.workers, i, Idle);
    case Exit(i) => HeldSame(s.workers, i, Exited);
    case ParseTurn(flushed) => ParseFrame(s, cfg, flushed);
    case Drain(flushed) => DrainFrame(s, cfg, flushed);
    case _ =>
  }

  lemma {:induction false} RunBalanced(s: State, cfg: Config, steps: seq<Step>, t: State)
    requires Balanced(s) && Run(s, cfg, steps, t)
    ensures Balanced(t)
    decreases |steps|
  {
    hide Balanced, Enabled, Apply;
    if steps != [] {
      StepBalanced(s, cfg, steps[0]);
      RunBalanced(Apply(s, cfg, steps[0]), cfg, steps[1..], t);
    }
  }

  /** In every run from the start, each accepted request is queued, held, or dispatched once. */
  lemma EveryRunBalanced(workCapacity: nat, completionCapacity: nat, workers: nat, cfg: Config, steps: seq<Step>,
                         t: State)
    requires Run(Init(workCapacity, completionCapacity, workers), cfg, steps, t)
    ensures Sum(t.accepted, ItemToken)
            == Sum(t.dispatched, CompletionToken) + Sum(t.workers, HeldToken) + Sum(t.work.items, ItemToken)
  {
    hide Run, Inv;
    var s := Init(workCapacity, completionCapacity, workers);
    SumNone(seq(workers, _ => Idle), HeldToken);
    RunBalanced(s, cfg, steps, t);
    InitInv(workCapacity, completionCapacity, workers, cfg);
    RunInv(s, cfg, steps, t);
    QueueFacts(t, cfg);
    SumAppend(t.popped, t.work.items);
  }

  lemma QueueFacts(s: State, cfg: Config)
    requires Inv(s, cfg)
    ensures QueuesOk(s)
  {
  }

  lemma {:induction false} SumAppend(a: seq<WorkItem>, b: seq<WorkItem>)
    ensures Sum(a + b, ItemToken) == Sum(a, ItemToken) + Sum(b, ItemToken)
  {
    if a == [] {
      assert a + b == b;
    } else {
      assert (a + b)[1..] == a[1..] + b;
      SumAppend(a[1..], b);
      assert ItemToken(a[0]) + (Sum(a[1..], ItemToken) + Sum(b, ItemToken))
          == (ItemToken(a[0]) + Sum(a[1..], ItemToken)) + Sum(b, ItemToken);
    }
  }

  // How much is in the pipeline --------------------------------------------------------

  function Carries(w: Worker): nat {
    if w.Holding? || w.Ready? then 1 else 0
  }

  /** Queued work plus held items plus waiting completions. */
  function Load(s: State): nat {
    |s.work.items| + Total(s.workers, Carries) + |s.completions.items|
  }

  function StepWeight(w: Worker): nat {
    match w
    case Holding(_) => 8
    case Ready(_) => 7
    case Notifying => 3
    case Idle => 1
    case Exited => 0
  }

  /** What is left for the workers to do. */
  function Remaining(s: State): nat {
    10 * |s.work.items| + Total(s.workers, StepWeight)
  }

  /** The queue is closed, the completions fit, and a queued item still has a worker. */
  predicate Closing(s: State) {
    && s.work.closed
    && QueuesOk(s)
    && ((exists i | 0 <= i < |s.workers| :: !s.workers[i].Exited?) || s.work.items == [])
  }

  lemma WorkerStepFacts(s: State, cfg: Config, step: Step)
    requires Closing(s) && Enabled(s, cfg, step) && WorkerStep(step)
    ensures var s' := Apply(s, cfg, step);
            && Closing(s')
            && Load(s') == Load(s)
            && Remaining(s') < Remaining(s)
            && s'.completions.capacity == s.completions.capacity
            && s'.accepted == s.accepted
  {
    hide Total;
    var s' := Apply(s, cfg, step);
    TotalUpdate(s.workers, Carries, step.i, s'.workers[step.i]);
    TotalUpdate(s.workers, StepWeight, step.i, s'.workers[step.i]);
    if step.Pop? {
      assert s'.popped + s'.work.items == s.popped + s.work.items;
    }
    if !step.Exit? {
      assert !s'.workers[step.i].Exited?;
    }
  }

  lemma StopFacts(s: State, cfg: Config)
    requires Closing(s)
    ensures var s' := Apply(s, cfg, StopWorkers);
            && Closing(s') && Load(s') == Load(s) && Remaining(s') == Remaining(s)
            && s'.completions == s.completions && s'.accepted == s.accepted
  {
  }

  lemma {:induction false} ShutdownRunFacts(s: State, cfg: Config, steps: seq<Step>, t: State)
    requires Closing(s) && Run(s, cfg, steps, t) && forall k | 0 <= k < |steps| :: ShutdownStep(steps[k])
    ensures Closing(t) && Load(t) == Load(s) && t.completions.capacity == s.completions.capacity
            && t.accepted == s.accepted
    ensures WorkerMoves(steps) + Remaining(t) <= Remaining(s)
    decreases |steps|
  {
    hide Enabled, Apply, Closing, Load, Remaining, WorkerStep;
    if steps != [] {
      assert ShutdownStep(steps[0]);
      assert forall k | 0 <= k < |steps[1..]| :: steps[1..][k] == steps[k + 1];
      if WorkerStep(steps[0]) {
        WorkerStepFacts(s, cfg, steps[0]);
      } else {
        StopFacts(s, cfg);
      }
      ShutdownRunFacts(Apply(s, cfg, steps[0]), cfg, steps[1..], t);
    }
  }

  predicate AllExited(s: State) {
    forall i | 0 <= i < |s.workers| :: s.workers[i].Exited?
  }

  /** No worker can move. */
  ghost predicate Finished(s: State, cfg: Config) {
    forall step | WorkerStep(step) :: !Enabled(s, cfg, step)
  }

  lemma FinishedWorkers(s: State, cfg: Config, i: nat)
    requires Closing(s) && Finished(s, cfg) && i < |s.workers|
    ensures s.workers[i].Exited? || (s.workers[i].Ready? && |s.completions.items| == s.completions.capacity)
  {
    assert !Enabled(s, cfg, Pop(i)) && !Enabled(s, cfg, Exit(i));
    assert !Enabled(s, cfg, Dispatch(i, "")) && !Enabled(s, cfg, Notify(i)) && !Enabled(s, cfg, PushCompletion(i));
  }

  lemma FinishedIff(s: State, cfg: Config)
    requires Closing(s) && Finished(s, cfg)
    ensures AllExited(s) <==> Load(s) <= s.completions.capacity
    ensures AllExited(s) ==> s.work.items == []
  {
    hide Enabled, WorkerStep;
    forall i | 0 <= i < |s.workers|
      ensures s.workers[i].Exited? || (s.workers[i].Ready? && |s.completions.items| == s.completions.capacity)
    {
      FinishedWorkers(s, cfg, i);
    }
    if AllExited(s) {
      TotalNone(s.workers, Carries);
    } else {
      var i :| 0 <= i < |s.workers| && !s.workers[i].Exited?;
      TotalSome(s.workers, Carries, i);
    }
  }

  /** Shutdown drain, exactly. Let the work queue be closed and nobody drain completions. The
      workers make finitely many moves, whenever stop is requested, and when none of them can move
      any more, all have left and every accepted request was dispatched exactly once if and only if
      queued work plus held items plus waiting completions fitted the completion queue to begin
      with. */
  lemma ShutdownDrains(s: State, cfg: Config, steps: seq<Step>, t: State)
    requires Closing(s) && Balanced(s)
    requires Run(s, cfg, steps, t) && forall k | 0 <= k < |steps| :: ShutdownStep(steps[k])
    requires Finished(t, cfg)
    ensures WorkerMoves(steps) <= Remaining(s)
    ensures AllExited(t) <==> Load(s) <= s.completions.capacity
    ensures AllExited(t) ==> t.work.items == [] && t.popped == s.accepted
    ensures AllExited(t) ==> Sum(s.accepted, ItemToken) == Sum(t.dispatched, CompletionToken)
  {
    hide Enabled, ShutdownStep, Load, Remaining, Run;
    ShutdownRunFacts(s, cfg, steps, t);
    RunBalanced(s, cfg, steps, t);
    FinishedIff(t, cfg);
    if AllExited(t) {
      assert t.popped + t.work.items == t.accepted;
      assert t.popped + [] == t.popped;
      SumNone(t.workers, HeldToken);
    }
  }

  /** A stop request never loses a queued item: a worker leaves only when none is queued. */
  lemma ExitNeedsEmptyQueue(s: State, cfg: Config, i: nat)
    requires Enabled(s, cfg, Exit(i))
    ensures s.work.items == [] && Sum(Apply(s, cfg, Exit(i)).workers, HeldToken) == Sum(s.workers, HeldToken)
  {
    hide Sum;
    HeldSame(s.workers, i, Exited);
  }

  // Every shutdown ---------------------------------------------------------------------

  /** The pool before shutdown: no worker has left. */
  predicate AllAtWork(s: State) {
    !s.work.closed && !s.stopping && forall i | 0 <= i < |s.workers| :: !s.workers[i].Exited?
  }

  lemma StepAllAtWork(s: State, cfg: Config, step: Step)
    requires AllAtWork(s) && Enabled(s, cfg, step) && !step.CloseWork? && !step.StopWorkers?
    ensures AllAtWork(Apply(s, cfg, step))
  {
    hide ApplyParse, ApplyDrain;
    if step.ParseTurn? {
      ParseFrame(s, cfg, step.flushed);
    } else if step.Drain? {
      DrainFrame(s, cfg, step.flushed);
    }
  }

  lemma {:induction false} RunAllAtWork(s: State, cfg: Config, steps: seq<Step>, t: State)
    requires AllAtWork(s) && Run(s, cfg, steps, t) && NoShutdown(steps)
    ensures AllAtWork(t)
    decreases |steps|
  {
    hide AllAtWork, Enabled, Apply;
    if steps != [] {
      StepAllAtWork(s, cfg, steps[0]);
      RunAllAtWork(Apply(s, cfg, steps[0]), cfg, steps[1..], t);
    }
  }

  lemma BalancedAtFirst(workCapacity: nat, completionCapacity: nat, workers: nat)
    ensures Balanced(Init(workCapacity, completionCapacity, workers))
  {
    SumNone(seq(workers, _ => Idle), HeldToken);
  }

  lemma ClosedNow(s: State, cfg: Config)
    requires AllAtWork(s) && QueuesOk(s) && Balanced(s) && |s.workers| > 0
    ensures var c := Apply(s, cfg, CloseWork);
            && Closing(c) && Balanced(c) && Load(c) == Load(s)
            && c.completions == s.completions && c.accepted == s.accepted
  {
    hide Sum;
    assert !s.workers[0].Exited?;
  }

  /** Neither closed nor stopped so far. */
  predicate NoShutdown(steps: seq<Step>) {
    forall k | 0 <= k < |steps| :: !steps[k].CloseWork? && !steps[k].StopWorkers?
  }

  lemma BeforeShutdown(workCapacity: nat, completionCapacity: nat, workers: nat, cfg: Config, before: seq<Step>,
                       s: State)
    requires Run(Init(workCapacity, completionCapacity, workers), cfg, before, s) && NoShutdown(before)
    ensures AllAtWork(s) && QueuesOk(s) && Balanced(s)
    ensures |s.workers| == workers && s.completions.capacity == completionCapacity
  {
    hide Run, Inv, Balanced, QueuesOk;
    var start := Init(workCapacity, completionCapacity, workers);
    BalancedAtFirst(workCapacity, completionCapacity, workers);
    RunBalanced(start, cfg, before, s);
    RunAllAtWork(start, cfg, before, s);
    RunCapacities(start, cfg, before, s);
    InitInv(workCapacity, completionCapacity, workers, cfg);
    RunInv(start, cfg, before, s);
    QueueFacts(s, cfg);
  }

  /** A shutdown of a server that ran in any way before: the pool closes the work queue, the loop
      drains no more, and the workers move, with stop requested at any time, until none can. */
  ghost predicate IsShutdown(workCapacity: nat, completionCapacity: nat, workers: nat, cfg: Config,
                             before: seq<Step>, s: State, steps: seq<Step>, t: State) {
    && Run(Init(workCapacity, completionCapacity, workers), cfg, before, s) && NoShutdown(before)
    && Run(Apply(s, cfg, CloseWork), cfg, steps, t) && (forall k | 0 <= k < |steps| :: ShutdownStep(steps[k]))
    && Finished(t, cfg)
  }

  /** In every shutdown all workers leave, and every accepted request was dispatched exactly once,
      if and only if what is in the pipeline fits the completion queue. */
  lemma EveryShutdownDrains(workCapacity: nat, completionCapacity: nat, workers: nat, cfg: Config,
                            before: seq<Step>, s: State, steps: seq<Step>, t: State)
    requires workers > 0 && IsShutdown(workCapacity, completionCapacity, workers, cfg, before, s, steps, t)
    ensures AllExited(t) <==> Load(s) <= completionCapacity
    ensures AllExited(t) ==> t.work.items == [] && Sum(s.accepted, ItemToken) == Sum(t.dispatched, CompletionToken)
  {
    hide Run, Sum, ShutdownStep, Finished, AllExited, Apply, Closing, Balanced, QueuesOk, Load, AllAtWork, Init,
         NoShutdown;
    BeforeShutdown(workCapacity, completionCapacity, workers, cfg, before, s);
    ClosedNow(s, cfg);
    ShutdownDrains(Apply(s, cfg, CloseWork), cfg, steps, t);
  }

  /** From a closed work queue the workers can always be run until none can move. */
  lemma RunToTheEnd(s: State, cfg: Config) returns (steps: seq<Step>, t: State)
    requires Closing(s)
    ensures Run(s, cfg, steps, t) && (forall k | 0 <= k < |steps| :: ShutdownStep(steps[k])) && Finished(t, cfg)
    decreases Remaining(s)
  {
    hide Enabled, Apply, Closing, Remaining, WorkerStep;
    if Finished(s, cfg) {
      steps, t := [], s;
    } else {
      var step :| WorkerStep(step) && Enabled(s, cfg, step);
      WorkerStepFacts(s, cfg, step);
      var more;
      more, t := RunToTheEnd(Apply(s, cfg, step), cfg);
      steps := [step] + more;
      assert steps[1..] == more;
    }
  }
}
