/** Conservation, isolation and capacity of the gateway over every run. */
module PipelineTheorems {
  import Demux
  import opened Planning
  import opened Jobs
  import opened Pipeline

  lemma {:induction false} CountAppend<X>(a: seq<X>, b: seq<X>, f: X -> multiset<Request>, r: Request)
    ensures Count(a + b, f, r) == Count(a, f, r) + Count(b, f, r)
  {
    if a == [] {
      assert a + b == b;
    } else {
      assert (a + b)[1..] == a[1..] + b;
      CountAppend(a[1..], b, f, r);
    }
  }

  lemma CountSnoc<X>(xs: seq<X>, x: X, f: X -> multiset<Request>, r: Request)
    ensures Count(xs + [x], f, r) == Count(xs, f, r) + f(x)[r]
  {
    CountAppend(xs, [x], f, r);
    assert [x][1..] == [];
  }

  lemma CountWithout<X>(xs: seq<X>, i: nat, f: X -> multiset<Request>, r: Request)
    requires i < |xs|
    ensures Count(Without(xs, i), f, r) + f(xs[i])[r] == Count(xs, f, r)
  {
    CountAppend(xs[..i], xs[i + 1..], f, r);
    CountSnoc(xs[..i], xs[i], f, r);
    CountAppend(xs[..i] + [xs[i]], xs[i + 1..], f, r);
    assert xs == xs[..i] + [xs[i]] + xs[i + 1..];
  }

  lemma CountUpdate<X>(xs: seq<X>, i: nat, x: X, f: X -> multiset<Request>, r: Request)
    requires i < |xs|
    ensures Count(xs[i := x], f, r) + f(xs[i])[r] == Count(xs, f, r) + f(x)[r]
  {
    CountWithout(xs, i, f, r);
    CountWithout(xs[i := x], i, f, r);
    assert Without(xs[i := x], i) == Without(xs, i);
  }

  // ---------------------------------------------------------------------------------------------
  // Conservation
  // ---------------------------------------------------------------------------------------------

  function Entering(step: Step): multiset<Request> {
    if step.Submit? then multiset{step.req} else multiset{}
  }

  lemma AttemptLeaves(s: State, a: nat, r: Request)
    requires a < |s.attempts|
    ensures Everywhere(s.(attempts := Without(s.attempts, a)), r) + InAttempt(s.attempts[a])[r] == Everywhere(s, r)
  {
    hide Count;
    CountWithout(s.attempts, a, InAttempt, r);
  }

  lemma AttemptMoves(s: State, a: nat, at: Attempt, r: Request)
    requires a < |s.attempts| && at.req == s.attempts[a].req
    ensures Everywhere(s.(attempts := s.attempts[a := at]), r) == Everywhere(s, r)
  {
    hide Count;
    CountUpdate(s.attempts, a, at, InAttempt, r);
  }

  lemma RejectedAdded(s: State, req: Request, error: EnqueueError, r: Request)
    ensures Everywhere(s.(rejected := s.rejected + multiset{req}, refused := s.refused[req.id := error]), r)
            == Everywhere(s, r) + multiset{req}[r]
  {
    hide Count;
  }

  lemma TaskConserves(s: State, t: nat, task: Task, r: Request)
    requires t < |s.tasks|
    ensures Everywhere(WithTask(s, t, task), r) + InTask(s.tasks[t])[r] == Everywhere(s, r) + InTask(task)[r]
  {
    hide Count;
    CountUpdate(s.tasks, t, task, InTask, r);
  }

  lemma TrySendConserves(cfg: Config, s: State, a: nat, r: Request)
    requires a < |s.attempts| && s.attempts[a].stage.Holding? && s.attempts[a].stage.task < |s.tasks|
    ensures Everywhere(DoTrySend(cfg, s, a), r) == Everywhere(s, r)
  {
    hide Everywhere, InPhase;
    var at, t := s.attempts[a], s.attempts[a].stage.task;
    var task := s.tasks[t];
    AttemptMoves(s, a, at.(stage := Stale(t)), r);
    AttemptLeaves(s, a, r);
    RejectedAdded(s.(attempts := Without(s.attempts, a)), at.req, QueueFull, r);
    var grown := task.(queue := task.queue + [at.req], accepted := task.accepted + [at.req]);
    TaskConserves(s, t, grown, r);
    AttemptLeaves(WithTask(s, t, grown), a, r);
  }

  lemma MapFree(s: State, batchers: map<Key, nat>, r: Request)
    ensures Everywhere(s.(batchers := batchers), r) == Everywhere(s, r)
  {
    hide Count;
  }

  lemma TaskOpened(s: State, task: Task, r: Request)
    requires InTask(task)[r] == 0
    ensures Everywhere(s.(tasks := s.tasks + [task]), r) == Everywhere(s, r)
  {
    hide Count;
    CountSnoc(s.tasks, task, InTask, r);
  }

  lemma SenderFound(s: State, a: nat, r: Request)
    requires a < |s.attempts| && KeyOf(s.attempts[a].req) in s.batchers
    ensures Everywhere(DoFindSender(s, a), r) == Everywhere(s, r)
  {
    hide Everywhere, KeyOf;
    var at := s.attempts[a];
    AttemptMoves(s, a, Attempt(at.req, Holding(s.batchers[KeyOf(at.req)]), at.tries + 1), r);
  }

  lemma SenderMade(s: State, a: nat, r: Request)
    requires a < |s.attempts| && KeyOf(s.attempts[a].req) !in s.batchers
    ensures Everywhere(DoFindSender(s, a), r) == Everywhere(s, r)
  {
    var at, key := s.attempts[a], KeyOf(s.attempts[a].req);
    var empty := Task(key, at.req.op.maxBatchSize, [], Receiving, [], [], false);
    assert InTask(empty)[r] == 0;
    hide Everywhere, KeyOf, InTask;
    var s1 := s.(attempts := s.attempts[a := Attempt(at.req, Holding(|s.tasks|), at.tries + 1)]);
    AttemptMoves(s, a, s1.attempts[a], r);
    var s2 := s1.(batchers := s.batchers[key := |s.tasks|]);
    MapFree(s1, s2.batchers, r);
    TaskOpened(s2, empty, r);
  }

  lemma FindSenderConserves(s: State, a: nat, r: Request)
    requires a < |s.attempts|
    ensures Everywhere(DoFindSender(s, a), r) == Everywhere(s, r)
  {
    hide Everywhere, KeyOf, DoFindSender;
    if KeyOf(s.attempts[a].req) in s.batchers {
      SenderFound(s, a, r);
    } else {
      SenderMade(s, a, r);
    }
  }

  lemma RemoveStaleConserves(s: State, a: nat, r: Request)
    requires a < |s.attempts|
    ensures Everywhere(DoRemoveStale(s, a), r) == Everywhere(s, r)
  {
    hide Everywhere, KeyOf;
    var at := s.attempts[a];
    var s' := s.(batchers := s.batchers - {KeyOf(at.req)});
    MapFree(s, s'.batchers, r);
    AttemptMoves(s', a, at.(stage := Looking), r);
    AttemptLeaves(s', a, r);
    RejectedAdded(s'.(attempts := Without(s.attempts, a)), at.req, BatcherClosed, r);
  }

  lemma ReceiveConserves(s: State, t: nat, r: Request)
    requires t < |s.tasks| && s.tasks[t].queue != []
    requires s.tasks[t].phase.Receiving? || s.tasks[t].phase.Collecting?
    ensures Everywhere(DoReceive(s, t), r) == Everywhere(s, r)
  {
    hide Everywhere;
    var task := s.tasks[t];
    TaskConserves(s, t, DoReceive(s, t).tasks[t], r);
    assert task.queue == [task.queue[0]] + task.queue[1..];
  }

  lemma FlushConserves(cfg: Config, s: State, t: nat, waitMs: nat, r: Request)
    requires t < |s.tasks| && s.tasks[t].phase.Collecting?
    ensures Everywhere(DoFlush(cfg, s, t, waitMs), r) == Everywhere(s, r)
  {
    hide Everywhere, Segments;
    SegmentsConcat(Encode(cfg), cfg.limit, s.tasks[t].phase.batch);
    TaskConserves(s, t, DoFlush(cfg, s, t, waitMs).tasks[t], r);
  }

  lemma FirstParcel(parcels: seq<seq<Request>>, waitMs: nat, r: Request)
    requires parcels != []
    ensures InPhase(Submitting(parcels, waitMs))[r]
            == multiset(parcels[0])[r] + InPhase(Submitting(parcels[1..], waitMs))[r]
  {
    assert Flatten(parcels) == parcels[0] + Flatten(parcels[1..]);
  }

  lemma NoParcels(waitMs: nat, r: Request)
    ensures InPhase(Submitting([], waitMs))[r] == InPhase(Receiving)[r] == 0
  {
  }

  lemma JobAdded(s: State, job: Job, r: Request)
    ensures Everywhere(s.(jobs := s.jobs + [job]), r) == Everywhere(s, r) + multiset(job.requests)[r]
  {
    hide Count;
    CountSnoc(s.jobs, job, InJob, r);
  }

  lemma ResolvedAdded(s: State, reqs: seq<Request>, ends: Demux.Clients, r: Request)
    ensures Everywhere(s.(resolved := s.resolved + multiset(reqs), ends := ends), r)
            == Everywhere(s, r) + multiset(reqs)[r]
  {
    hide Count;
  }

  lemma SubmitParcelConserves(cfg: Config, s: State, t: nat, r: Request)
    requires t < |s.tasks| && s.tasks[t].phase.Submitting?
    ensures Everywhere(DoSubmitParcel(cfg, s, t), r) == Everywhere(s, r)
  {
    hide Everywhere, ParcelReply, AllEnd, InPhase;
    var task := s.tasks[t];
    var parcels, waitMs := task.phase.parcels, task.phase.waitMs;
    if parcels == [] {
      NoParcels(waitMs, r);
      TaskConserves(s, t, task.(phase := Receiving), r);
    } else {
      FirstParcel(parcels, waitMs, r);
      var left := task.(phase := Submitting(parcels[1..], waitMs));
      TaskConserves(s, t, left, r);
      var s' := WithTask(s, t, left);
      JobAdded(s', Job(task.key, parcels[0], waitMs), r);
      ResolvedAdded(s', parcels[0], DoSubmitParcel(cfg, s, t).ends, r);
    }
  }

  lemma IdleExitConserves(s: State, t: nat, r: Request)
    requires t < |s.tasks| && s.tasks[t].phase.Receiving?
    ensures Everywhere(DoIdleExit(s, t), r) == Everywhere(s, r)
  {
    hide Count;
    CountUpdate(s.tasks, t, DoIdleExit(s, t).tasks[t], InTask, r);
  }

  lemma TakeJobConserves(cfg: Config, s: State, r: Request)
    requires Enabled(cfg, s, TakeJob)
    ensures Everywhere(Next(cfg, s, TakeJob), r) == Everywhere(s, r)
  {
    hide Count;
    CountWithout(s.jobs, 0, InJob, r);
    assert Without(s.jobs, 0) == s.jobs[1..];
  }

  lemma SpawnConserves(cfg: Config, s: State, outcome: Outcome, r: Request)
    requires Enabled(cfg, s, Spawn(outcome))
    ensures Everywhere(Next(cfg, s, Spawn(outcome)), r) == Everywhere(s, r)
  {
    hide Count;
    CountSnoc(s.running, Running(s.held.value, outcome), InRunning, r);
  }

  lemma {:induction false} AllSettled(reqs: seq<Request>, ends: Demux.Clients)
    requires forall i | 0 <= i < |reqs| :: reqs[i].id in ends && !ends[reqs[i].id].Live()
    ensures Settled(reqs, ends) == reqs
  {
    if reqs == [] {
    } else {
      AllSettled(reqs[1..], ends);
      assert reqs == [reqs[0]] + reqs[1..];
    }
  }

  /** The dispatcher of a job uses up all of the job's sinks. */
  lemma JobSettlesAll(cfg: Config, run: Running)
    ensures var ends, requests := EndsOf(cfg, run), run.job.requests;
            ends.Keys == ReqIds(requests) && Settled(requests, ends) == requests
            && forall id | id in ends :: !ends[id].Live()
  {
    JobSettles(cfg.lib, cfg.alive, run.job.key.mode, ReqIds(run.job.requests), run.job.waitMs, run.outcome);
    hide JobEnds;
    AllSettled(run.job.requests, EndsOf(cfg, run));
  }

  lemma FinishJobConserves(cfg: Config, s: State, j: nat, r: Request)
    requires j < |s.running|
    ensures Everywhere(DoFinishJob(cfg, s, j), r) == Everywhere(s, r)
  {
    JobSettlesAll(cfg, s.running[j]);
    hide Count, EndsOf, Settled;
    CountWithout(s.running, j, InRunning, r);
  }

  lemma SubmitConserves(cfg: Config, s: State, req: Request, r: Request)
    requires Enabled(cfg, s, Submit(req))
    ensures Everywhere(Next(cfg, s, Submit(req)), r) == Everywhere(s, r) + multiset{req}[r]
  {
    hide Count;
    CountSnoc(s.attempts, Attempt(req, Looking, 0), InAttempt, r);
  }

  lemma RemoveKeyConserves(cfg: Config, s: State, t: nat, r: Request)
    requires Enabled(cfg, s, RemoveKey(t))
    ensures Everywhere(Next(cfg, s, RemoveKey(t)), r) == Everywhere(s, r)
  {
    hide Everywhere;
    var s' := WithTask(s, t, s.tasks[t].(phase := Ended));
    TaskConserves(s, t, s'.tasks[t], r);
    MapFree(s', s.batchers - {s.tasks[t].key}, r);
  }

  /** Every step moves requests from stage to stage; none is lost, none is copied. */
  lemma StepConserves(cfg: Config, s: State, step: Step, r: Request)
    requires Enabled(cfg, s, step)
    ensures Everywhere(Next(cfg, s, step), r) == Everywhere(s, r) + Entering(step)[r]
  {
    hide Everywhere;
    match step
    case Submit(req) => SubmitConserves(cfg, s, req, r);
    case FindSender(a) => FindSenderConserves(s, a, r);
    case TrySend(a) => TrySendConserves(cfg, s, a, r);
    case RemoveStale(a) => RemoveStaleConserves(s, a, r);
    case Receive(t) => ReceiveConserves(s, t, r);
    case Flush(t, waitMs) => FlushConserves(cfg, s, t, waitMs, r);
    case SubmitParcel(t) => SubmitParcelConserves(cfg, s, t, r);
    case IdleExit(t) => IdleExitConserves(s, t, r);
    case ClosedExit(t) => TaskConserves(s, t, s.tasks[t].(phase := Leaving), r);
    case RemoveKey(t) => RemoveKeyConserves(cfg, s, t, r);
    case TakeJob => TakeJobConserves(cfg, s, r);
    case Spawn(outcome) => SpawnConserves(cfg, s, outcome, r);
    case FinishJob(j) => FinishJobConserves(cfg, s, j, r);
  }

  lemma SubmittedStep(cfg: Config, s: State, step: Step)
    requires Enabled(cfg, s, step)
    ensures Next(cfg, s, step).submitted == s.submitted + Entering(step)
  {
    hide HasSender, KeyOf, FreshId, DoFindSender, DoTrySend, DoRemoveStale, DoReceive, DoFlush, DoSubmitParcel,
         DoFinishJob;
  }

  /** Every request handed in is in one stage, once. */
  ghost predicate Conserved(s: State) {
    forall r :: Everywhere(s, r) == s.submitted[r] <= 1
  }

  lemma ConservedStep(cfg: Config, s: State, step: Step)
    requires Conserved(s) && Enabled(cfg, s, step)
    ensures Conserved(Next(cfg, s, step))
  {
    hide Everywhere, Next;
    SubmittedStep(cfg, s, step);
    forall r ensures Everywhere(Next(cfg, s, step), r) == Next(cfg, s, step).submitted[r] <= 1 {
      StepConserves(cfg, s, step, r);
    }
  }

  lemma {:induction false} ConservedRun(cfg: Config, s: State, steps: seq<Step>)
    requires Conserved(s) && IsRun(cfg, s, steps)
    ensures Conserved(After(cfg, s, steps))
    decreases steps
  {
    if steps == [] {
    } else {
      ConservedStep(cfg, s, steps[0]);
      ConservedRun(cfg, Next(cfg, s, steps[0]), steps[1..]);
    }
  }

  /** In every reachable state each accepted request is in exactly one stage, and has been answered,
      rejected or dropped at most once in all. */
  lemma {:induction false} Conservation(cfg: Config, steps: seq<Step>, r: Request)
    requires IsRun(cfg, INITIAL, steps)
    ensures var s := After(cfg, INITIAL, steps);
            && Everywhere(s, r) == s.submitted[r] <= 1
            && s.resolved[r] + s.rejected[r] + s.dropped[r] <= 1
  {
    assert Conserved(INITIAL);
    ConservedRun(cfg, INITIAL, steps);
  }

  // ---------------------------------------------------------------------------------------------
  // What can be lost
  // ---------------------------------------------------------------------------------------------

  /** Only an idle exit drops anything, and exactly what is in that task's queue at that moment. */
  lemma DroppedStep(cfg: Config, s: State, step: Step)
    requires Enabled(cfg, s, step)
    ensures Next(cfg, s, step).dropped ==
            s.dropped + if step.IdleExit? then multiset(s.tasks[step.t].queue) else multiset{}
  {
    hide HasSender, KeyOf, FreshId, DoFindSender, DoTrySend, DoRemoveStale, DoReceive, DoFlush, DoSubmitParcel,
         DoFinishJob;
  }

  ghost predicate IdlesOnlyWhenEmpty(cfg: Config, s: State, steps: seq<Step>)
    requires IsRun(cfg, s, steps)
    decreases steps
  {
    steps != [] ==>
      && (steps[0].IdleExit? ==> s.tasks[steps[0].t].queue == [])
      && IdlesOnlyWhenEmpty(cfg, Next(cfg, s, steps[0]), steps[1..])
  }

  /** A run drops nothing exactly when no task leaves idle while its queue is not empty. */
  lemma {:induction false} DropsIff(cfg: Config, s: State, steps: seq<Step>)
    requires IsRun(cfg, s, steps)
    ensures s.dropped <= After(cfg, s, steps).dropped
    ensures After(cfg, s, steps).dropped == s.dropped <==> IdlesOnlyWhenEmpty(cfg, s, steps)
    decreases steps
  {
    if steps == [] {
    } else {
      var s' := Next(cfg, s, steps[0]);
      DroppedStep(cfg, s, steps[0]);
      DropsIff(cfg, s', steps[1..]);
      if steps[0].IdleExit? && s.tasks[steps[0].t].queue != [] {
        var x := s.tasks[steps[0].t].queue[0];
        assert x in s.tasks[steps[0].t].queue;
        assert s'.dropped[x] > s.dropped[x];
      }
    }
  }

  /** Once a channel has no sender it never has one again: `None` after draining is final. */
  lemma {:induction false} SendersGoneForGood(cfg: Config, s: State, step: Step, t: nat)
    requires Enabled(cfg, s, step) && t < |s.tasks| && !HasSender(s, t)
    ensures t < |Next(cfg, s, step).tasks| && !HasSender(Next(cfg, s, step), t)
  {
    match step
    case FindSender(a) => FindNoSender(s, a, t);
    case TrySend(a) => TryNoSender(cfg, s, a, t);
    case RemoveStale(a) => RemoveNoSender(s, a, t);
    case _ => OtherNoSender(cfg, s, step, t);
  }

  lemma FindNoSender(s: State, a: nat, t: nat)
    requires a < |s.attempts| && t < |s.tasks| && !HasSender(s, t)
    ensures t < |DoFindSender(s, a).tasks| && !HasSender(DoFindSender(s, a), t)
  {
    hide KeyOf;
  }

  lemma TryNoSender(cfg: Config, s: State, a: nat, t: nat)
    requires a < |s.attempts| && s.attempts[a].stage.Holding? && s.attempts[a].stage.task < |s.tasks|
    requires t < |s.tasks| && !HasSender(s, t)
    ensures t < |DoTrySend(cfg, s, a).tasks| && !HasSender(DoTrySend(cfg, s, a), t)
  {
    assert !Owns(s.attempts[a], t);
  }

  lemma RemoveNoSender(s: State, a: nat, t: nat)
    requires a < |s.attempts| && t < |s.tasks| && !HasSender(s, t)
    ensures !HasSender(DoRemoveStale(s, a), t)
  {
    hide KeyOf;
  }

  /** The steps that handle no sender. */
  lemma TaskStepSenders(cfg: Config, s: State, step: Step)
    requires Enabled(cfg, s, step)
    requires step.Receive? || step.Flush? || step.SubmitParcel? || step.IdleExit? || step.ClosedExit?
    ensures var s' := Next(cfg, s, step);
            s'.attempts == s.attempts && s'.batchers == s.batchers && |s'.tasks| == |s.tasks|
  {
    hide Segments, HasSender, DoSubmitParcel, AllEnd, Encode, FreshId;
  }

  lemma JobStepSenders(cfg: Config, s: State, step: Step)
    requires Enabled(cfg, s, step) && (step.TakeJob? || step.Spawn? || step.FinishJob?)
    ensures var s' := Next(cfg, s, step);
            s'.attempts == s.attempts && s'.batchers == s.batchers && s'.tasks == s.tasks
  {
    hide EndsOf, Settled, FreshId, HasSender;
  }

  lemma OtherNoSender(cfg: Config, s: State, step: Step, t: nat)
    requires Enabled(cfg, s, step) && t < |s.tasks| && !HasSender(s, t)
    requires !step.FindSender? && !step.TrySend? && !step.RemoveStale?
    ensures t < |Next(cfg, s, step).tasks| && !HasSender(Next(cfg, s, step), t)
  {
    hide HasSender, KeyOf;
    var s' := Next(cfg, s, step);
    if step.Submit? {
      assert s'.attempts == s.attempts + [Attempt(step.req, Looking, 0)];
    } else if step.RemoveKey? {
      assert forall k | k in s'.batchers :: k in s.batchers && s'.batchers[k] == s.batchers[k];
    } else if step.TakeJob? || step.Spawn? || step.FinishJob? {
      JobStepSenders(cfg, s, step);
      hide Next;
    } else {
      TaskStepSenders(cfg, s, step);
      hide Next;
    }
    SendersShrink(s, s', t);
  }

  lemma SendersShrink(s: State, s': State, t: nat)
    requires !HasSender(s, t)
    requires s.attempts <= s'.attempts && forall i | |s.attempts| <= i < |s'.attempts| :: s'.attempts[i].stage.Looking?
    requires forall k | k in s'.batchers :: k in s.batchers && s'.batchers[k] == s.batchers[k]
    ensures !HasSender(s', t)
  {
    assert forall i | 0 <= i < |s.attempts| :: s'.attempts[i] == s.attempts[i];
  }

  // ---------------------------------------------------------------------------------------------
  // Isolation
  // ---------------------------------------------------------------------------------------------

  /** The request agrees with the batch key in everything the key is made of, and its response
      channel is of the kind the key's invocations answer. */
  predicate Carries(key: Key, req: Request) {
    && KeyOf(req) == key
    && req.op.target == key.target && req.httpMethod == key.httpMethod && req.route == key.route
    && req.op.mode == key.mode == req.sink
  }

  predicate AllCarry(key: Key, reqs: seq<Request>) {
    forall i | 0 <= i < |reqs| :: Carries(key, reqs[i])
  }

  predicate PurePhase(key: Key, phase: Phase) {
    match phase
    case Collecting(batch) => AllCarry(key, batch)
    case Submitting(parcels, _) => forall i | 0 <= i < |parcels| :: AllCarry(key, parcels[i])
    case _ => true
  }

  predicate PureTask(task: Task) {
    AllCarry(task.key, task.queue) && PurePhase(task.key, task.phase)
  }

  ghost predicate TasksPure(tasks: seq<Task>) {
    forall t | 0 <= t < |tasks| :: PureTask(tasks[t])
  }

  ghost predicate MapGood(batchers: map<Key, nat>, tasks: seq<Task>) {
    forall k | k in batchers :: batchers[k] < |tasks| && tasks[batchers[k]].key == k
  }

  ghost predicate GoodAttempt(a: Attempt, tasks: seq<Task>) {
    FromHandler(a.req) &&
    (!a.stage.Looking? ==> a.stage.task < |tasks| && tasks[a.stage.task].key == KeyOf(a.req))
  }

  ghost predicate AttemptsGood(attempts: seq<Attempt>, tasks: seq<Task>) {
    forall i | 0 <= i < |attempts| :: GoodAttempt(attempts[i], tasks)
  }

  predicate PureJob(job: Job) {
    AllCarry(job.key, job.requests)
  }

  ghost predicate JobsPure(jobs: seq<Job>) {
    forall j | 0 <= j < |jobs| :: PureJob(jobs[j])
  }

  ghost predicate RunningPure(running: seq<Running>) {
    forall j | 0 <= j < |running| :: PureJob(running[j].job)
  }

  ghost predicate Isolated(s: State) {
    && TasksPure(s.tasks) && MapGood(s.batchers, s.tasks) && AttemptsGood(s.attempts, s.tasks)
    && JobsPure(s.jobs) && RunningPure(s.running) && (s.held.Some? ==> PureJob(s.held.value))
  }

  /** Tasks are added at the end and keep their keys. */
  ghost predicate KeysKept(before: seq<Task>, after: seq<Task>) {
    |before| <= |after| && forall t | 0 <= t < |before| :: after[t].key == before[t].key
  }

  lemma KeysKeptKeeps(s: State, after: seq<Task>)
    requires KeysKept(s.tasks, after)
    ensures MapGood(s.batchers, s.tasks) ==> MapGood(s.batchers, after)
    ensures AttemptsGood(s.attempts, s.tasks) ==> AttemptsGood(s.attempts, after)
  {
  }

  lemma WithTaskIsolated(s: State, t: nat, task: Task)
    requires Isolated(s) && t < |s.tasks| && task.key == s.tasks[t].key && PureTask(task)
    ensures Isolated(WithTask(s, t, task))
  {
    hide PureTask, JobsPure, RunningPure, MapGood, AttemptsGood, PureJob;
    KeysKeptKeeps(s, s.tasks[t := task]);
  }

  lemma {:induction false} SegmentsCarry(encode: Encoder<Request>, limit: nat, key: Key, batch: seq<Request>)
    requires AllCarry(key, batch)
    ensures forall i | 0 <= i < |Segments(encode, limit, batch)| :: AllCarry(key, Segments(encode, limit, batch)[i])
    decreases |batch|
  {
    if !Whole(encode, limit, batch) {
      SegmentsCarry(encode, limit, key, batch[..|batch| / 2]);
      SegmentsCarry(encode, limit, key, batch[|batch| / 2..]);
    }
  }

  lemma FindSenderIsolated(s: State, a: nat)
    requires Isolated(s) && a < |s.attempts|
    ensures Isolated(DoFindSender(s, a))
  {
    hide Carries, KeyOf, JobsPure, RunningPure, PureJob;
    KeysKeptKeeps(s, DoFindSender(s, a).tasks);
  }

  lemma TrySendIsolated(cfg: Config, s: State, a: nat)
    requires Isolated(s) && a < |s.attempts| && s.attempts[a].stage.Holding? && s.attempts[a].stage.task < |s.tasks|
    ensures Isolated(DoTrySend(cfg, s, a))
  {
    var at := s.attempts[a];
    var t := at.stage.task;
    var task := s.tasks[t];
    assert GoodAttempt(at, s.tasks);
    if task.Open() && |task.queue| < cfg.queueDepth {
      var grown := task.(queue := task.queue + [at.req], accepted := task.accepted + [at.req]);
      QueueGrows(task, at.req);
      hide PureTask, JobsPure, RunningPure, GoodAttempt, MapGood, PureJob, KeyOf;
      WithTaskIsolated(s, t, grown);
    } else {
      hide PureTask, JobsPure, RunningPure, MapGood, PureJob, KeyOf;
    }
  }

  lemma QueueGrows(task: Task, req: Request)
    requires PureTask(task) && FromHandler(req) && KeyOf(req) == task.key
    ensures PureTask(task.(queue := task.queue + [req], accepted := task.accepted + [req]))
  {
  }

  lemma RemoveStaleIsolated(s: State, a: nat)
    requires Isolated(s) && a < |s.attempts|
    ensures Isolated(DoRemoveStale(s, a))
  {
    hide PureTask, JobsPure, RunningPure, PureJob, KeyOf;
  }

  lemma ReceiveIsolated(s: State, t: nat)
    requires Isolated(s) && t < |s.tasks| && s.tasks[t].queue != []
    requires s.tasks[t].phase.Receiving? || s.tasks[t].phase.Collecting?
    ensures Isolated(DoReceive(s, t))
  {
    assert PureTask(s.tasks[t]);
    var task := DoReceive(s, t).tasks[t];
    assert PureTask(task) by { hide Carries; }
    hide Isolated, PureTask;
    WithTaskIsolated(s, t, task);
  }

  lemma FlushIsolated(cfg: Config, s: State, t: nat, waitMs: nat)
    requires Isolated(s) && t < |s.tasks| && s.tasks[t].phase.Collecting?
    ensures Isolated(DoFlush(cfg, s, t, waitMs))
  {
    assert PureTask(s.tasks[t]);
    SegmentsCarry(Encode(cfg), cfg.limit, s.tasks[t].key, s.tasks[t].phase.batch);
    hide Isolated, Segments, Carries;
    WithTaskIsolated(s, t, DoFlush(cfg, s, t, waitMs).tasks[t]);
  }

  lemma JobAppended(s: State, job: Job)
    requires Isolated(s) && PureJob(job)
    ensures Isolated(s.(jobs := s.jobs + [job]))
  {
    hide PureTask, PureJob, MapGood, AttemptsGood, TasksPure;
  }

  lemma ParcelOff(task: Task)
    requires PureTask(task) && task.phase.Submitting? && task.phase.parcels != []
    ensures PureTask(task.(phase := Submitting(task.phase.parcels[1..], task.phase.waitMs)))
    ensures PureJob(Job(task.key, task.phase.parcels[0], task.phase.waitMs))
  {
    hide Carries;
  }

  lemma SubmitParcelIsolated(cfg: Config, s: State, t: nat)
    requires Isolated(s) && t < |s.tasks| && s.tasks[t].phase.Submitting?
    ensures Isolated(DoSubmitParcel(cfg, s, t))
  {
    var task := s.tasks[t];
    assert PureTask(task);
    if task.phase.parcels == [] {
      hide Carries, Isolated;
      WithTaskIsolated(s, t, task.(phase := Receiving));
    } else {
      ParcelOff(task);
      var left := task.(phase := Submitting(task.phase.parcels[1..], task.phase.waitMs));
      WithTaskIsolated(s, t, left);
      JobAppended(WithTask(s, t, left), Job(task.key, task.phase.parcels[0], task.phase.waitMs));
      hide PureTask, PureJob, JobsPure, RunningPure, MapGood, AttemptsGood, TasksPure, ParcelReply, AllEnd;
    }
  }

  /** A task that leaves, or has left, with an empty queue or its old one. */
  lemma LeaveIsolated(s: State, t: nat, task: Task)
    requires Isolated(s) && t < |s.tasks| && task.key == s.tasks[t].key
    requires (task.queue == [] || task.queue == s.tasks[t].queue) && (task.phase.Leaving? || task.phase.Ended?)
    ensures Isolated(WithTask(s, t, task))
    ensures Isolated(WithTask(s, t, task).(batchers := s.batchers - {task.key}))
  {
    assert PureTask(s.tasks[t]) && PureTask(task);
    WithTaskIsolated(s, t, task);
    hide PureTask, JobsPure, RunningPure, PureJob, AttemptsGood, TasksPure;
  }

  lemma JobStepIsolated(cfg: Config, s: State, step: Step)
    requires Isolated(s) && Enabled(cfg, s, step) && (step.TakeJob? || step.Spawn? || step.FinishJob?)
    ensures Isolated(Next(cfg, s, step))
  {
    hide PureTask, PureJob, AttemptsGood, TasksPure, MapGood;
  }

  lemma {:induction false} IsolatedStep(cfg: Config, s: State, step: Step)
    requires Isolated(s) && Enabled(cfg, s, step)
    ensures Isolated(Next(cfg, s, step))
  {
    match step
    case Submit(req) => SubmitIsolated(cfg, s, req);
    case FindSender(a) => FindSenderIsolated(s, a);
    case TrySend(a) => TrySendIsolated(cfg, s, a);
    case RemoveStale(a) => RemoveStaleIsolated(s, a);
    case Receive(t) => ReceiveIsolated(s, t);
    case Flush(t, waitMs) => FlushIsolated(cfg, s, t, waitMs);
    case SubmitParcel(t) => SubmitParcelIsolated(cfg, s, t);
    case IdleExit(t) => IdleExitIsolated(s, t);
    case ClosedExit(t) => LeaveIsolated(s, t, s.tasks[t].(phase := Leaving));
    case RemoveKey(t) => LeaveIsolated(s, t, s.tasks[t].(phase := Ended));
    case _ => JobStepIsolated(cfg, s, step);
  }

  lemma SubmitIsolated(cfg: Config, s: State, req: Request)
    requires Isolated(s) && Enabled(cfg, s, Submit(req))
    ensures Isolated(Next(cfg, s, Submit(req)))
  {
    hide PureTask, JobsPure, RunningPure, PureJob, MapGood, TasksPure;
  }

  lemma IdleExitIsolated(s: State, t: nat)
    requires Isolated(s) && t < |s.tasks|
    ensures Isolated(DoIdleExit(s, t))
  {
    LeaveIsolated(s, t, s.tasks[t].(queue := [], phase := Leaving, idled := true));
    hide PureTask, JobsPure, RunningPure, PureJob, MapGood, TasksPure, AttemptsGood;
  }

  lemma {:induction false} IsolatedRun(cfg: Config, s: State, steps: seq<Step>)
    requires Isolated(s) && IsRun(cfg, s, steps)
    ensures Isolated(After(cfg, s, steps))
    decreases steps
  {
    if steps == [] {
    } else {
      IsolatedStep(cfg, s, steps[0]);
      IsolatedRun(cfg, Next(cfg, s, steps[0]), steps[1..]);
    }
  }

  /** Requests of different keys never share a channel, a batch or an invocation, even while several
      tasks of one key are alive; in particular no flush meets a sink of the wrong kind. */
  lemma KeysOverRuns(cfg: Config, steps: seq<Step>)
    requires IsRun(cfg, INITIAL, steps)
    ensures var s := After(cfg, INITIAL, steps);
            && (forall t | 0 <= t < |s.tasks| :: PureTask(s.tasks[t]))
            && (forall j | 0 <= j < |s.jobs| :: AllCarry(s.jobs[j].key, s.jobs[j].requests))
            && (s.held.Some? ==> AllCarry(s.held.value.key, s.held.value.requests))
            && (forall j | 0 <= j < |s.running| :: AllCarry(s.running[j].job.key, s.running[j].job.requests))
  {
    IsolatedRun(cfg, INITIAL, steps);
  }

  // ---------------------------------------------------------------------------------------------
  // Capacity
  // ---------------------------------------------------------------------------------------------

  function BatchRoom(task: Task): nat {
    if task.maxBatch < 1 then 1 else task.maxBatch
  }

  predicate TaskWithin(cfg: Config, task: Task) {
    && |task.queue| <= cfg.queueDepth
    && (task.phase.Collecting? ==> 1 <= |task.phase.batch| <= BatchRoom(task))
  }

  ghost predicate WithinLimits(cfg: Config, s: State) {
    && (forall t | 0 <= t < |s.tasks| :: TaskWithin(cfg, s.tasks[t]))
    && |s.jobs| <= JobQueueDepth(cfg)
    && |s.running| <= cfg.maxInflight
  }

  lemma TaskWithinLimits(cfg: Config, s: State, t: nat, task: Task)
    requires WithinLimits(cfg, s) && t < |s.tasks| && TaskWithin(cfg, task)
    ensures WithinLimits(cfg, WithTask(s, t, task))
  {
    hide TaskWithin;
  }

  lemma ReceiveLimits(cfg: Config, s: State, t: nat)
    requires WithinLimits(cfg, s) && Enabled(cfg, s, Receive(t))
    ensures WithinLimits(cfg, DoReceive(s, t))
  {
    assert TaskWithin(cfg, s.tasks[t]);
    TaskWithinLimits(cfg, s, t, DoReceive(s, t).tasks[t]);
  }

  lemma SubmitParcelLimits(cfg: Config, s: State, t: nat)
    requires WithinLimits(cfg, s) && t < |s.tasks| && s.tasks[t].phase.Submitting?
    ensures WithinLimits(cfg, DoSubmitParcel(cfg, s, t))
  {
    var s' := DoSubmitParcel(cfg, s, t);
    assert TaskWithin(cfg, s.tasks[t]);
    assert |s'.jobs| <= JobQueueDepth(cfg) && TaskWithin(cfg, s'.tasks[t]) by { hide Encode, AllEnd; }
    hide TaskWithin, DoSubmitParcel;
    TaskWithinLimits(cfg, s, t, s'.tasks[t]);
  }

  /** A task whose queue does not grow and that is not collecting afterwards. */
  lemma OtherTaskLimits(cfg: Config, s: State, t: nat, task: Task)
    requires WithinLimits(cfg, s) && t < |s.tasks|
    requires |task.queue| <= |s.tasks[t].queue| && !task.phase.Collecting?
    ensures WithinLimits(cfg, WithTask(s, t, task))
  {
    assert TaskWithin(cfg, s.tasks[t]);
    TaskWithinLimits(cfg, s, t, task);
  }

  lemma TrySendLimits(cfg: Config, s: State, a: nat)
    requires WithinLimits(cfg, s) && Enabled(cfg, s, TrySend(a))
    ensures WithinLimits(cfg, DoTrySend(cfg, s, a))
  {
    var t := s.attempts[a].stage.task;
    assert TaskWithin(cfg, s.tasks[t]);
    if s.tasks[t].Open() && |s.tasks[t].queue| < cfg.queueDepth {
      TaskWithinLimits(cfg, s, t, DoTrySend(cfg, s, a).tasks[t]);
    }
    hide TaskWithin;
  }

  lemma FindSenderLimits(cfg: Config, s: State, a: nat)
    requires WithinLimits(cfg, s) && a < |s.attempts|
    ensures WithinLimits(cfg, DoFindSender(s, a))
  {
    hide KeyOf;
  }

  lemma JobLimits(cfg: Config, s: State, step: Step)
    requires WithinLimits(cfg, s) && Enabled(cfg, s, step)
    requires step.Submit? || step.RemoveStale? || step.TakeJob? || step.Spawn? || step.FinishJob?
    ensures WithinLimits(cfg, Next(cfg, s, step))
  {
    hide TaskWithin, HasSender, KeyOf, EndsOf, Settled, Encode;
  }

  lemma LimitsStep(cfg: Config, s: State, step: Step)
    requires WithinLimits(cfg, s) && Enabled(cfg, s, step)
    ensures WithinLimits(cfg, Next(cfg, s, step))
  {
    match step
    case Receive(t) => ReceiveLimits(cfg, s, t);
    case SubmitParcel(t) => SubmitParcelLimits(cfg, s, t);
    case Flush(t, waitMs) => OtherTaskLimits(cfg, s, t, DoFlush(cfg, s, t, waitMs).tasks[t]);
    case IdleExit(t) => OtherTaskLimits(cfg, s, t, DoIdleExit(s, t).tasks[t]);
    case ClosedExit(t) => OtherTaskLimits(cfg, s, t, s.tasks[t].(phase := Leaving));
    case RemoveKey(t) => OtherTaskLimits(cfg, s, t, s.tasks[t].(phase := Ended));
    case TrySend(a) => TrySendLimits(cfg, s, a);
    case FindSender(a) => FindSenderLimits(cfg, s, a);
    case _ => JobLimits(cfg, s, step);
  }

  lemma {:induction false} LimitsRun(cfg: Config, s: State, steps: seq<Step>)
    requires WithinLimits(cfg, s) && IsRun(cfg, s, steps)
    ensures WithinLimits(cfg, After(cfg, s, steps))
    decreases steps
  {
    if steps == [] {
    } else {
      LimitsStep(cfg, s, steps[0]);
      LimitsRun(cfg, Next(cfg, s, steps[0]), steps[1..]);
    }
  }

  /** Queues, batches, queued and running jobs stay within their bounds over every run; unfinished
      accepted jobs never exceed the job queue, one held job, and the running ones. */
  lemma Capacity(cfg: Config, steps: seq<Step>)
    requires IsRun(cfg, INITIAL, steps)
    ensures var s := After(cfg, INITIAL, steps);
            var depth := if cfg.maxPending < 1 then 1 else cfg.maxPending;
            && (forall t | 0 <= t < |s.tasks| ::
                  && |s.tasks[t].queue| <= cfg.queueDepth
                  && (s.tasks[t].phase.Collecting? ==>
                        |s.tasks[t].phase.batch| == 1 || 1 <= |s.tasks[t].phase.batch| <= s.tasks[t].maxBatch))
            && |s.jobs| <= depth && |s.running| <= cfg.maxInflight
            && |s.jobs| + (if s.held.Some? then 1 else 0) + |s.running| <= depth + 1 + cfg.maxInflight
  {
    LimitsRun(cfg, INITIAL, steps);
    var s := After(cfg, INITIAL, steps);
    assert forall t | 0 <= t < |s.tasks| :: TaskWithin(cfg, s.tasks[t]);
  }
}
