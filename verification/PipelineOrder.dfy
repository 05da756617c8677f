/** The channels of the gateway keep requests in order and, short of an idle exit, deliver them all. */
module PipelineOrder {
  import opened Pipeline

  /** What a task has received, followed by what is queued, is what was accepted, in order. An idle
      exit cuts that off: the task has then received a first part. */
  predicate InOrder(task: Task) {
    && (if task.idled then task.received <= task.accepted && !task.Open()
        else task.accepted == task.received + task.queue)
    && (!task.Open() ==> task.queue == [])
    && (task.phase.Collecting? ==> OpenBatch(task.phase.batch, task.received))
  }

  /** The open batch is the last of what was received. */
  predicate OpenBatch(batch: seq<Request>, received: seq<Request>) {
    |batch| <= |received| && batch == received[|received| - |batch|..]
  }

  ghost predicate AllInOrder(tasks: seq<Task>) {
    forall t | 0 <= t < |tasks| :: InOrder(tasks[t])
  }

  lemma TaskChanged(s: State, t: nat, task: Task)
    requires AllInOrder(s.tasks) && t < |s.tasks| && InOrder(task)
    ensures AllInOrder(WithTask(s, t, task).tasks)
  {
    hide InOrder;
  }

  lemma ReceiveInOrder(s: State, t: nat)
    requires AllInOrder(s.tasks) && t < |s.tasks| && s.tasks[t].queue != []
    requires s.tasks[t].phase.Receiving? || s.tasks[t].phase.Collecting?
    ensures AllInOrder(DoReceive(s, t).tasks)
  {
    var task, after := s.tasks[t], DoReceive(s, t).tasks[t];
    assert InOrder(task);
    assert task.queue == [task.queue[0]] + task.queue[1..];
    assert after.received + after.queue == task.received + task.queue;
    assert InOrder(after);
    TaskChanged(s, t, after);
  }

  lemma TrySendInOrder(cfg: Config, s: State, a: nat)
    requires AllInOrder(s.tasks) && Enabled(cfg, s, TrySend(a))
    ensures AllInOrder(DoTrySend(cfg, s, a).tasks)
  {
    var at, t := s.attempts[a], s.attempts[a].stage.task;
    var task := s.tasks[t];
    assert InOrder(task);
    if task.Open() && |task.queue| < cfg.queueDepth {
      var grown := task.(queue := task.queue + [at.req], accepted := task.accepted + [at.req]);
      assert task.received + task.queue + [at.req] == task.received + (task.queue + [at.req]);
      TaskChanged(s, t, grown);
    }
  }

  /** A task that moves on without touching its channel. */
  lemma PhaseInOrder(s: State, t: nat, task: Task)
    requires AllInOrder(s.tasks) && t < |s.tasks|
    requires task == s.tasks[t].(phase := task.phase)
    requires !task.phase.Collecting? && (!task.Open() ==> task.queue == []) && (task.idled ==> !task.Open())
    ensures AllInOrder(WithTask(s, t, task).tasks)
  {
    assert InOrder(s.tasks[t]);
    TaskChanged(s, t, task);
  }

  lemma IdleExitInOrder(s: State, t: nat)
    requires AllInOrder(s.tasks) && t < |s.tasks| && s.tasks[t].phase.Receiving?
    ensures AllInOrder(DoIdleExit(s, t).tasks)
  {
    assert InOrder(s.tasks[t]);
    TaskChanged(s, t, DoIdleExit(s, t).tasks[t]);
  }

  lemma FindSenderInOrder(s: State, a: nat)
    requires AllInOrder(s.tasks) && a < |s.attempts|
    ensures AllInOrder(DoFindSender(s, a).tasks)
  {
    hide KeyOf;
  }

  /** A parcel is submitted between two batches. */
  lemma SubmitParcelInOrder(cfg: Config, s: State, t: nat)
    requires AllInOrder(s.tasks) && t < |s.tasks| && s.tasks[t].phase.Submitting?
    ensures AllInOrder(DoSubmitParcel(cfg, s, t).tasks)
  {
    var after := DoSubmitParcel(cfg, s, t).tasks[t];
    assert InOrder(s.tasks[t]);
    PhaseInOrder(s, t, after);
  }

  lemma InOrderStep(cfg: Config, s: State, step: Step)
    requires AllInOrder(s.tasks) && Enabled(cfg, s, step)
    ensures AllInOrder(Next(cfg, s, step).tasks)
  {
    hide InOrder;
    match step
    case FindSender(a) => FindSenderInOrder(s, a);
    case TrySend(a) => TrySendInOrder(cfg, s, a);
    case Receive(t) => ReceiveInOrder(s, t);
    case Flush(t, waitMs) => FlushInOrder(cfg, s, t, waitMs);
    case SubmitParcel(t) => SubmitParcelInOrder(cfg, s, t);
    case IdleExit(t) => IdleExitInOrder(s, t);
    case ClosedExit(t) => ClosedExitInOrder(s, t);
    case RemoveKey(t) => RemoveKeyInOrder(s, t);
    case _ =>
  }

  lemma FlushInOrder(cfg: Config, s: State, t: nat, waitMs: nat)
    requires AllInOrder(s.tasks) && t < |s.tasks| && s.tasks[t].phase.Collecting?
    ensures AllInOrder(DoFlush(cfg, s, t, waitMs).tasks)
  {
    assert InOrder(s.tasks[t]);
    PhaseInOrder(s, t, DoFlush(cfg, s, t, waitMs).tasks[t]);
  }

  lemma ClosedExitInOrder(s: State, t: nat)
    requires AllInOrder(s.tasks) && t < |s.tasks| && s.tasks[t].phase.Receiving? && s.tasks[t].queue == []
    ensures AllInOrder(WithTask(s, t, s.tasks[t].(phase := Leaving)).tasks)
  {
    assert InOrder(s.tasks[t]);
    PhaseInOrder(s, t, s.tasks[t].(phase := Leaving));
  }

  lemma RemoveKeyInOrder(s: State, t: nat)
    requires AllInOrder(s.tasks) && t < |s.tasks| && s.tasks[t].phase.Leaving?
    ensures AllInOrder(WithTask(s, t, s.tasks[t].(phase := Ended)).tasks)
  {
    assert InOrder(s.tasks[t]);
    PhaseInOrder(s, t, s.tasks[t].(phase := Ended));
  }

  lemma {:induction false} InOrderRun(cfg: Config, s: State, steps: seq<Step>)
    requires AllInOrder(s.tasks) && IsRun(cfg, s, steps)
    ensures AllInOrder(After(cfg, s, steps).tasks)
    decreases steps
  {
    if steps == [] {
    } else {
      InOrderStep(cfg, s, steps[0]);
      InOrderRun(cfg, Next(cfg, s, steps[0]), steps[1..]);
    }
  }

  /** Over every run and for every task: requests are received in the order in which they were
      accepted, the open batch is the last of them, and until an idle exit none is missing. */
  lemma ArrivalOrder(cfg: Config, steps: seq<Step>, t: nat)
    requires IsRun(cfg, INITIAL, steps) && t < |After(cfg, INITIAL, steps).tasks|
    ensures var task := After(cfg, INITIAL, steps).tasks[t];
            && task.received <= task.accepted
            && (!task.idled ==> task.accepted == task.received + task.queue)
            && (task.phase.Collecting? ==> OpenBatch(task.phase.batch, task.received))
  {
    InOrderRun(cfg, INITIAL, steps);
    assert InOrder(After(cfg, INITIAL, steps).tasks[t]);
  }

  /** Whoever took the task's sender out of the map and when: a task that left because its channel was
      closed has received everything its channel ever accepted. */
  lemma RemovalLosesNothing(cfg: Config, steps: seq<Step>, t: nat)
    requires IsRun(cfg, INITIAL, steps) && t < |After(cfg, INITIAL, steps).tasks|
    ensures var task := After(cfg, INITIAL, steps).tasks[t];
            !task.Open() && !task.idled ==> task.received == task.accepted
  {
    InOrderRun(cfg, INITIAL, steps);
    var task := After(cfg, INITIAL, steps).tasks[t];
    assert InOrder(task);
    assert task.received + [] == task.received;
  }
}
