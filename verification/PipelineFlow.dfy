/** How requests flow through the gateway: what a flush makes of a batch, when a task stops, the order of jobs,
    and that batching does happen. */
module PipelineFlow {
  import opened Wire
  import opened Planning
  import opened Jobs
  import opened Pipeline
  import opened PipelineTheorems
  import opened PipelineKeys
  import opened EvictionRaces

  // ---------------------------------------------------------------------------------------------
  // Flushing
  // ---------------------------------------------------------------------------------------------

  /** The piece need not, or cannot, be cut: it cannot be encoded, its payload fits, or it is one request. */
  predicate Uncut(cfg: Config, piece: seq<Request>) {
    var payload := cfg.encode(ItemsOf(cfg, piece));
    payload.None? || |payload.value| <= cfg.limit || |piece| == 1
  }

  lemma {:induction false} SegmentsUncut<I>(encode: Encoder<I>, limit: nat, items: seq<I>)
    requires items != []
    ensures forall i | 0 <= i < |Segments(encode, limit, items)| ::
              var piece := Segments(encode, limit, items)[i];
              encode(piece).None? || |encode(piece).value| <= limit || |piece| == 1
    decreases |items|
  {
    if !Whole(encode, limit, items) {
      SegmentsUncut(encode, limit, items[..|items| / 2]);
      SegmentsUncut(encode, limit, items[|items| / 2..]);
    }
  }

  /** A flush cuts the batch into pieces that make it up in order, none empty; a piece is left alone as soon as
      it need not be cut, the whole batch first of all. The wait is passed on. */
  lemma FlushCuts(cfg: Config, s: State, t: nat, waitMs: nat)
    requires Enabled(cfg, s, Flush(t, waitMs)) && s.tasks[t].phase.batch != []
    ensures var phase := Next(cfg, s, Flush(t, waitMs)).tasks[t].phase;
            var batch := s.tasks[t].phase.batch;
            && phase.Submitting? && phase.waitMs == waitMs
            && Flatten(phase.parcels) == batch
            && (forall i | 0 <= i < |phase.parcels| :: phase.parcels[i] != [] && Uncut(cfg, phase.parcels[i]))
            && (Uncut(cfg, batch) ==> phase.parcels == [batch])
  {
    var batch := s.tasks[t].phase.batch;
    SegmentsConcat(Encode(cfg), cfg.limit, batch);
    SegmentsUncut(Encode(cfg), cfg.limit, batch);
  }

  predicate PiecesUncut(cfg: Config, phase: Phase) {
    phase.Submitting? ==> forall i | 0 <= i < |phase.parcels| :: phase.parcels[i] != [] && Uncut(cfg, phase.parcels[i])
  }

  /** Every piece on its way is uncut, and every wait reported with it is that of a flush of the run. */
  ghost predicate PiecesOf(cfg: Config, s: State, waits: set<nat>) {
    && (forall t | 0 <= t < |s.tasks| ::
          && PiecesUncut(cfg, s.tasks[t].phase)
          && (s.tasks[t].phase.Collecting? ==> s.tasks[t].phase.batch != [])
          && (s.tasks[t].phase.Submitting? ==> s.tasks[t].phase.waitMs in waits))
    && (forall j | 0 <= j < |s.jobs| :: s.jobs[j].waitMs in waits)
    && (s.held.Some? ==> s.held.value.waitMs in waits)
    && (forall j | 0 <= j < |s.running| :: s.running[j].job.waitMs in waits)
    && (forall j | 0 <= j < |s.finished| :: s.finished[j].job.waitMs in waits)
  }

  /** The waits of the flushes of a run. */
  function Waits(steps: seq<Step>): set<nat> {
    set step | step in steps && step.Flush? :: step.waitMs
  }

  lemma FlushPieces(cfg: Config, s: State, t: nat, waitMs: nat, waits: set<nat>)
    requires PiecesOf(cfg, s, waits) && Enabled(cfg, s, Flush(t, waitMs))
    ensures PiecesOf(cfg, DoFlush(cfg, s, t, waitMs), waits + {waitMs})
  {
    FlushCuts(cfg, s, t, waitMs);
    hide Segments, Encode, Uncut;
  }

  lemma SubmitPieces(cfg: Config, s: State, t: nat, waits: set<nat>)
    requires PiecesOf(cfg, s, waits) && Enabled(cfg, s, SubmitParcel(t))
    ensures PiecesOf(cfg, DoSubmitParcel(cfg, s, t), waits)
  {
    hide Uncut, ParcelReply, AllEnd;
    assert PiecesUncut(cfg, DoSubmitParcel(cfg, s, t).tasks[t].phase);
  }

  lemma TaskPieces(cfg: Config, s: State, t: nat, task: Task, waits: set<nat>)
    requires PiecesOf(cfg, s, waits) && t < |s.tasks|
    requires !task.phase.Submitting? && (task.phase.Collecting? ==> task.phase.batch != [])
    ensures PiecesOf(cfg, WithTask(s, t, task), waits)
  {
    hide Uncut;
  }

  lemma JobPieces(cfg: Config, s: State, step: Step, waits: set<nat>)
    requires PiecesOf(cfg, s, waits) && Enabled(cfg, s, step)
    requires step.Submit? || step.FindSender? || step.RemoveStale? || step.TakeJob? || step.Spawn? || step.FinishJob?
    ensures PiecesOf(cfg, Next(cfg, s, step), waits)
  {
    hide Uncut, HasSender, KeyOf, FreshId, EndsOf, Settled;
  }

  lemma TrySendPieces(cfg: Config, s: State, a: nat, waits: set<nat>)
    requires PiecesOf(cfg, s, waits) && Enabled(cfg, s, TrySend(a))
    ensures PiecesOf(cfg, DoTrySend(cfg, s, a), waits)
  {
    hide PiecesUncut;
  }

  lemma PiecesStep(cfg: Config, s: State, step: Step, waits: set<nat>)
    requires PiecesOf(cfg, s, waits) && Enabled(cfg, s, step)
    ensures PiecesOf(cfg, Next(cfg, s, step), waits + Waits([step]))
  {
    assert waits <= waits + Waits([step]);
    match step
    case Flush(t, waitMs) =>
      assert [step][0] == step && waitMs in Waits([step]);
      FlushPieces(cfg, s, t, waitMs, waits);
      MoreWaits(cfg, Next(cfg, s, step), waits + {waitMs}, waits + Waits([step]));
    case _ =>
      OtherPieces(cfg, s, step, waits);
      MoreWaits(cfg, Next(cfg, s, step), waits, waits + Waits([step]));
  }

  lemma OtherPieces(cfg: Config, s: State, step: Step, waits: set<nat>)
    requires PiecesOf(cfg, s, waits) && Enabled(cfg, s, step) && !step.Flush?
    ensures PiecesOf(cfg, Next(cfg, s, step), waits)
  {
    hide PiecesOf;
    match step
    case SubmitParcel(t) => SubmitPieces(cfg, s, t, waits);
    case TrySend(a) => TrySendPieces(cfg, s, a, waits);
    case Receive(t) => TaskPieces(cfg, s, t, DoReceive(s, t).tasks[t], waits);
    case IdleExit(t) => IdlePieces(cfg, s, t, waits);
    case ClosedExit(t) => TaskPieces(cfg, s, t, s.tasks[t].(phase := Leaving), waits);
    case RemoveKey(t) => RemovePieces(cfg, s, t, waits);
    case _ => JobPieces(cfg, s, step, waits);
  }

  lemma IdlePieces(cfg: Config, s: State, t: nat, waits: set<nat>)
    requires PiecesOf(cfg, s, waits) && t < |s.tasks|
    ensures PiecesOf(cfg, DoIdleExit(s, t), waits)
  {
    hide PiecesUncut, AllEnd;
    assert PiecesUncut(cfg, DoIdleExit(s, t).tasks[t].phase) by { NotSubmitting(cfg, Leaving); }
  }

  lemma RemovePieces(cfg: Config, s: State, t: nat, waits: set<nat>)
    requires PiecesOf(cfg, s, waits) && t < |s.tasks| && s.tasks[t].phase.Leaving?
    ensures PiecesOf(cfg, Next(cfg, s, RemoveKey(t)), waits)
  {
    hide PiecesUncut;
    assert PiecesUncut(cfg, Ended) by { NotSubmitting(cfg, Ended); }
  }

  lemma NotSubmitting(cfg: Config, phase: Phase)
    requires !phase.Submitting?
    ensures PiecesUncut(cfg, phase)
  {
  }

  lemma MoreWaits(cfg: Config, s: State, waits: set<nat>, more: set<nat>)
    requires PiecesOf(cfg, s, waits) && waits <= more
    ensures PiecesOf(cfg, s, more)
  {
    hide PiecesUncut;
  }

  lemma {:induction false} PiecesRun(cfg: Config, s: State, steps: seq<Step>, waits: set<nat>)
    requires PiecesOf(cfg, s, waits) && IsRun(cfg, s, steps)
    ensures PiecesOf(cfg, After(cfg, s, steps), waits + Waits(steps))
    decreases steps
  {
    if steps == [] {
      assert waits + Waits(steps) == waits;
    } else {
      PiecesStep(cfg, s, steps[0], waits);
      hide PiecesOf, Next, Enabled;
      PiecesRun(cfg, Next(cfg, s, steps[0]), steps[1..], waits + Waits([steps[0]]));
      assert steps == [steps[0]] + steps[1..];
      assert waits + Waits([steps[0]]) + Waits(steps[1..]) == waits + Waits(steps);
    }
  }

  /** Over every run: no piece that is submitted could have been cut further to fit, and the wait that a job
      reports is that of a flush. */
  lemma PiecesOverRuns(cfg: Config, steps: seq<Step>)
    requires IsRun(cfg, INITIAL, steps)
    ensures PiecesOf(cfg, After(cfg, INITIAL, steps), Waits(steps))
  {
    PiecesRun(cfg, INITIAL, steps, {});
    assert {} + Waits(steps) == Waits(steps);
  }

  // ---------------------------------------------------------------------------------------------
  // When a task stops, and the order of jobs
  // ---------------------------------------------------------------------------------------------

  /** Nobody has a sender of the task's channel. */
  predicate Unsendable(s: State, t: nat) {
    && (forall k | k in s.batchers :: s.batchers[k] != t)
    && forall a | 0 <= a < |s.attempts| :: s.attempts[a].stage.Looking? || s.attempts[a].stage.task != t
  }

  /** A task goes on from batch to batch until it is idle, or until its queue is empty and nobody holds a sender
      of its channel. */
  lemma StopsOnlyWhen(cfg: Config, s: State, step: Step, t: nat)
    requires Enabled(cfg, s, step) && t < |s.tasks| && s.tasks[t].Open()
    ensures var s' := Next(cfg, s, step);
            t < |s'.tasks| &&
            (!s'.tasks[t].Open() ==>
               && s.tasks[t].phase.Receiving?
               && (step == IdleExit(t)
                   || (step == ClosedExit(t) && s.tasks[t].queue == [] && Unsendable(s, t))))
  {
    if step.IdleExit? || step.ClosedExit? || step.RemoveKey? {
      hide AllEnd;
      if step.ClosedExit? && step.t == t {
        assert forall a | 0 <= a < |s.attempts| :: !Owns(s.attempts[a], t);
      }
    } else {
      OthersStayOpen(cfg, s, step, t);
      hide Next;
    }
  }

  lemma OthersStayOpen(cfg: Config, s: State, step: Step, t: nat)
    requires Enabled(cfg, s, step) && t < |s.tasks| && s.tasks[t].Open()
    requires !step.IdleExit? && !step.ClosedExit? && !step.RemoveKey?
    ensures t < |Next(cfg, s, step).tasks| && Next(cfg, s, step).tasks[t].Open()
  {
    hide HasSender, KeyOf, FreshId, EndsOf, Settled, Segments, ParcelReply, AllEnd, Encode;
  }

  /** The jobs that the steps put into the queue, and those they take out. */
  ghost function Queued(cfg: Config, s: State, steps: seq<Step>): seq<Job>
    requires IsRun(cfg, s, steps)
    decreases steps
  {
    if steps == [] then []
    else
      var s' := Next(cfg, s, steps[0]);
      (if |s'.jobs| > |s.jobs| then s'.jobs[|s.jobs|..] else []) + Queued(cfg, s', steps[1..])
  }

  ghost function Taken(cfg: Config, s: State, steps: seq<Step>): seq<Job>
    requires IsRun(cfg, s, steps)
    decreases steps
  {
    if steps == [] then []
    else
      var s' := Next(cfg, s, steps[0]);
      (if s.held.None? && s'.held.Some? then [s'.held.value] else []) + Taken(cfg, s', steps[1..])
  }

  lemma JobsStep(cfg: Config, s: State, step: Step)
    requires Enabled(cfg, s, step)
    ensures var s' := Next(cfg, s, step);
            (if s.held.None? && s'.held.Some? then [s'.held.value] else []) + s'.jobs
            == s.jobs + (if |s'.jobs| > |s.jobs| then s'.jobs[|s.jobs|..] else [])
  {
    hide HasSender, KeyOf, FreshId, EndsOf, Settled, Segments, ParcelReply, AllEnd, Encode;
    var s' := Next(cfg, s, step);
    if step.TakeJob? {
      assert s.jobs == [s.jobs[0]] + s'.jobs;
    }
  }

  /** Invocations are started in the order in which their jobs were queued, and none is lost on the way. */
  lemma {:induction false} JobsInOrder(cfg: Config, s: State, steps: seq<Step>)
    requires IsRun(cfg, s, steps)
    ensures Taken(cfg, s, steps) + After(cfg, s, steps).jobs == s.jobs + Queued(cfg, s, steps)
    decreases steps
  {
    if steps == [] {
      assert [] + s.jobs == s.jobs + [];
    } else {
      JobsStep(cfg, s, steps[0]);
      var s' := Next(cfg, s, steps[0]);
      var took := if s.held.None? && s'.held.Some? then [s'.held.value] else [];
      var put := if |s'.jobs| > |s.jobs| then s'.jobs[|s.jobs|..] else [];
      hide Next, Enabled;
      JobsInOrder(cfg, s', steps[1..]);
      Joined(took, Taken(cfg, s', steps[1..]), After(cfg, s', steps[1..]).jobs, s'.jobs,
             s.jobs, put, Queued(cfg, s', steps[1..]));
    }
  }

  lemma Joined<X>(took: seq<X>, more: seq<X>, rest: seq<X>, mid: seq<X>, before: seq<X>, put: seq<X>, puts: seq<X>)
    requires took + mid == before + put && more + rest == mid + puts
    ensures (took + more) + rest == before + (put + puts)
  {
    assert (took + more) + rest == took + (more + rest) == took + (mid + puts) == (took + mid) + puts;
    assert (before + put) + puts == before + (put + puts);
  }

  // ---------------------------------------------------------------------------------------------
  // What a request can be waiting for
  // ---------------------------------------------------------------------------------------------

  /** A task that is leaving or has left holds nothing in its queue. */
  ghost predicate LeftEmpty(s: State) {
    forall t | 0 <= t < |s.tasks| :: s.tasks[t].Open() || s.tasks[t].queue == []
  }

  lemma TaskLeftEmpty(s: State, t: nat, task: Task)
    requires LeftEmpty(s) && t < |s.tasks| && (task.Open() || task.queue == [])
    ensures LeftEmpty(WithTask(s, t, task))
  {
  }

  lemma TrySendLeftEmpty(cfg: Config, s: State, a: nat)
    requires LeftEmpty(s) && Enabled(cfg, s, TrySend(a))
    ensures LeftEmpty(DoTrySend(cfg, s, a))
  {
  }

  lemma OthersLeftEmpty(cfg: Config, s: State, step: Step)
    requires LeftEmpty(s) && Enabled(cfg, s, step)
    requires step.Submit? || step.FindSender? || step.RemoveStale? || step.TakeJob? || step.Spawn? || step.FinishJob?
    ensures LeftEmpty(Next(cfg, s, step))
  {
    hide HasSender, KeyOf, FreshId, EndsOf, Settled;
  }

  lemma LeftEmptyStep(cfg: Config, s: State, step: Step)
    requires LeftEmpty(s) && Enabled(cfg, s, step)
    ensures LeftEmpty(Next(cfg, s, step))
  {
    hide HasSender, KeyOf, FreshId, EndsOf, Settled, Segments, ParcelReply, AllEnd, Encode, DoTrySend,
         DoFindSender, DoRemoveStale;
    match step
    case TrySend(a) => TrySendLeftEmpty(cfg, s, a);
    case Receive(t) => TaskLeftEmpty(s, t, DoReceive(s, t).tasks[t]);
    case Flush(t, waitMs) => TaskLeftEmpty(s, t, DoFlush(cfg, s, t, waitMs).tasks[t]);
    case SubmitParcel(t) => TaskLeftEmpty(s, t, DoSubmitParcel(cfg, s, t).tasks[t]);
    case IdleExit(t) => TaskLeftEmpty(s, t, DoIdleExit(s, t).tasks[t]);
    case ClosedExit(t) => TaskLeftEmpty(s, t, s.tasks[t].(phase := Leaving));
    case RemoveKey(t) => TaskLeftEmpty(s, t, s.tasks[t].(phase := Ended));
    case _ => OthersLeftEmpty(cfg, s, step);
  }

  lemma {:induction false} LeftEmptyRun(cfg: Config, s: State, steps: seq<Step>)
    requires LeftEmpty(s) && IsRun(cfg, s, steps)
    ensures LeftEmpty(After(cfg, s, steps))
    decreases steps
  {
    if steps == [] {
    } else {
      LeftEmptyStep(cfg, s, steps[0]);
      hide LeftEmpty, Next, Enabled;
      LeftEmptyRun(cfg, Next(cfg, s, steps[0]), steps[1..]);
    }
  }

  /** The `enqueue` call can go on. */
  predicate CallMoves(cfg: Config, s: State, a: nat) {
    Enabled(cfg, s, FindSender(a)) || Enabled(cfg, s, TrySend(a)) || Enabled(cfg, s, RemoveStale(a))
  }

  /** The task is live, and takes in its next request; or it cuts its full batch, or submits the next piece. */
  predicate TaskMoves(cfg: Config, s: State, t: nat)
    requires t < |s.tasks|
  {
    var task := s.tasks[t];
    if task.phase.Collecting? && |task.phase.batch| >= task.maxBatch then Enabled(cfg, s, Flush(t, 0))
    else if task.phase.Submitting? then Enabled(cfg, s, SubmitParcel(t))
    else Enabled(cfg, s, Receive(t))
  }

  /** Nothing is held up but by the bound on running invocations: each `enqueue` call can go on, each task with a
      request in its queue is live and moves, an open batch can be flushed at any time, a task between batches can
      leave when it is idle or nobody can send to it any more, the next job can be taken unless one is held, the
      held one can be spawned unless `maxInflight` run, and a running one can finish. */
  ghost predicate OnlyTheBound(cfg: Config, s: State) {
    && (forall a: nat | a < |s.attempts| :: CallMoves(cfg, s, a))
    && (forall t: nat | t < |s.tasks| && s.tasks[t].queue != [] :: TaskMoves(cfg, s, t))
    && (forall t: nat, w: nat | t < |s.tasks| && s.tasks[t].phase.Collecting? :: Enabled(cfg, s, Flush(t, w)))
    && (forall t: nat | t < |s.tasks| && s.tasks[t].phase.Receiving? && s.tasks[t].queue == [] ::
          Enabled(cfg, s, IdleExit(t)) && (Unsendable(s, t) ==> Enabled(cfg, s, ClosedExit(t))))
    && (s.jobs != [] ==> s.held.Some? || Enabled(cfg, s, TakeJob))
    && (s.held.Some? ==> |s.running| == cfg.maxInflight || forall outcome :: Enabled(cfg, s, Spawn(outcome)))
    && (forall j: nat | j < |s.running| :: Enabled(cfg, s, FinishJob(j)))
  }

  lemma AllMove(cfg: Config, s: State)
    requires AttemptsGood(s.attempts, s.tasks) && LeftEmpty(s) && |s.running| <= cfg.maxInflight
    ensures OnlyTheBound(cfg, s)
  {
    hide KeyOf, FreshId, FromHandler;
    forall a: nat | a < |s.attempts| ensures CallMoves(cfg, s, a) {
      assert GoodAttempt(s.attempts[a], s.tasks);
    }
  }

  /** Over every run. */
  lemma NothingElseHoldsUp(cfg: Config, steps: seq<Step>)
    requires IsRun(cfg, INITIAL, steps)
    ensures OnlyTheBound(cfg, After(cfg, INITIAL, steps))
  {
    IsolatedRun(cfg, INITIAL, steps);
    LimitsRun(cfg, INITIAL, steps);
    LeftEmptyRun(cfg, INITIAL, steps);
    hide After, IsRun, TasksPure, MapGood, AttemptsGood, JobsPure, RunningPure, TaskWithin, LeftEmpty, OnlyTheBound;
    AllMove(cfg, After(cfg, INITIAL, steps));
  }

  // ---------------------------------------------------------------------------------------------
  // Batching happens
  // ---------------------------------------------------------------------------------------------

  /** Distinct requests of handlers, all mates of the first. */
  ghost predicate OneBatch(reqs: seq<Request>) {
    && reqs != []
    && (forall i | 0 <= i < |reqs| :: FromHandler(reqs[i]) && Mates(reqs[0], reqs[i]))
    && forall i, j | 0 <= i < j < |reqs| :: reqs[i].id != reqs[j].id
  }

  /** One task has been sent `queue` of all that was submitted, and has received the rest. */
  function Gathering(reqs: seq<Request>, queue: seq<Request>, phase: Phase, received: seq<Request>): State
    requires reqs != []
  {
    var key := KeyOf(reqs[0]);
    INITIAL.(batchers := map[key := 0], submitted := multiset(reqs),
             tasks := [Task(key, reqs[0].op.maxBatchSize, queue, phase, reqs, received, false)])
  }

  lemma OpenExactly(cfg: Config, req: Request) returns (s: State)
    requires FromHandler(req)
    ensures Reachable(cfg, s)
    ensures s == INITIAL.(attempts := [Attempt(req, Holding(0), 1)], batchers := map[KeyOf(req) := 0],
                          tasks := [Task(KeyOf(req), req.op.maxBatchSize, [], Receiving, [], [], false)],
                          submitted := multiset{req})
  {
    hide KeyOf, Reachable, DoReceive, DoFlush, DoSubmitParcel, DoFinishJob, HasSender;
    Start(cfg);
    s := Reach(cfg, INITIAL, Submit(req));
    s := Reach(cfg, s, FindSender(0));
  }

  lemma EnqueuedFirst(cfg: Config, req: Request)
    requires FromHandler(req) && cfg.queueDepth >= 1
    ensures Reachable(cfg, Gathering([req], [req], Receiving, []))
  {
    hide KeyOf, Reachable, DoReceive, DoFlush, DoSubmitParcel, DoFinishJob, HasSender;
    var s := OpenExactly(cfg, req);
    s := Reach(cfg, s, TrySend(0));
    assert [] + [req] == [req];
    assert s == Gathering([req], [req], Receiving, []);
  }

  /** One more request is on its way into the channel. */
  function Arriving(reqs: seq<Request>, attempt: Attempt): State
    requires reqs != []
  {
    Gathering(reqs, reqs, Receiving, []).(attempts := [attempt], submitted := multiset(reqs + [attempt.req]))
  }

  lemma ArrivesLooking(cfg: Config, reqs: seq<Request>, req: Request)
    requires reqs != [] && FromHandler(req) && forall i | 0 <= i < |reqs| :: reqs[i].id != req.id
    requires Reachable(cfg, Gathering(reqs, reqs, Receiving, []))
    ensures Reachable(cfg, Arriving(reqs, Attempt(req, Looking, 0)))
  {
    hide KeyOf, Reachable, DoFindSender, DoTrySend, DoReceive, DoFlush, DoSubmitParcel, DoFinishJob, HasSender;
    var s := Gathering(reqs, reqs, Receiving, []);
    assert FreshId(s, req.id);
    s := Reach(cfg, s, Submit(req));
    assert s == Arriving(reqs, Attempt(req, Looking, 0));
  }

  lemma ArrivesHolding(cfg: Config, reqs: seq<Request>, req: Request)
    requires reqs != [] && Mates(reqs[0], req) && Reachable(cfg, Arriving(reqs, Attempt(req, Looking, 0)))
    ensures Reachable(cfg, Arriving(reqs, Attempt(req, Holding(0), 1)))
  {
    OneKeyIff(reqs[0], req);
    hide KeyOf, Reachable, DoTrySend, DoReceive, DoFlush, DoSubmitParcel, DoFinishJob, HasSender, Mates;
    var s := Reach(cfg, Arriving(reqs, Attempt(req, Looking, 0)), FindSender(0));
    assert s == Arriving(reqs, Attempt(req, Holding(0), 1));
  }

  lemma ArrivesQueued(cfg: Config, reqs: seq<Request>, req: Request)
    requires reqs != [] && |reqs| < cfg.queueDepth && Reachable(cfg, Arriving(reqs, Attempt(req, Holding(0), 1)))
    ensures Reachable(cfg, Gathering(reqs + [req], reqs + [req], Receiving, []))
  {
    hide KeyOf, Reachable, DoFindSender, DoReceive, DoFlush, DoSubmitParcel, DoFinishJob, HasSender;
    var s := Reach(cfg, Arriving(reqs, Attempt(req, Holding(0), 1)), TrySend(0));
    assert s == Gathering(reqs + [req], reqs + [req], Receiving, []);
  }

  lemma EnqueuedMore(cfg: Config, reqs: seq<Request>, req: Request)
    requires reqs != [] && FromHandler(req) && Mates(reqs[0], req) && |reqs| < cfg.queueDepth
    requires forall i | 0 <= i < |reqs| :: reqs[i].id != req.id
    requires Reachable(cfg, Gathering(reqs, reqs, Receiving, []))
    ensures Reachable(cfg, Gathering(reqs + [req], reqs + [req], Receiving, []))
  {
    hide Reachable, Gathering, Arriving, Mates, FromHandler;
    ArrivesLooking(cfg, reqs, req);
    ArrivesHolding(cfg, reqs, req);
    ArrivesQueued(cfg, reqs, req);
  }

  lemma Enqueued(cfg: Config, reqs: seq<Request>, n: nat)
    requires OneBatch(reqs) && 1 <= n <= |reqs| <= cfg.queueDepth
    ensures Reachable(cfg, Gathering(reqs[..n], reqs[..n], Receiving, []))
    decreases n
  {
    hide Reachable, Mates, FromHandler, Gathering;
    assert reqs[..n] == reqs[..n - 1] + [reqs[n - 1]];
    if n == 1 {
      EnqueuedFirst(cfg, reqs[0]);
      assert reqs[..1] == [reqs[0]];
    } else {
      Enqueued(cfg, reqs, n - 1);
      EnqueuedMore(cfg, reqs[..n - 1], reqs[n - 1]);
    }
  }

  lemma Collected(cfg: Config, reqs: seq<Request>, n: nat)
    requires OneBatch(reqs) && 1 <= n <= |reqs| <= cfg.queueDepth && |reqs| <= reqs[0].op.maxBatchSize
    ensures Reachable(cfg, Gathering(reqs, reqs[n..], Collecting(reqs[..n]), reqs[..n]))
    decreases n
  {
    hide KeyOf, Reachable, DoFlush, DoSubmitParcel, DoFinishJob, HasSender, OneBatch;
    if n == 1 {
      Enqueued(cfg, reqs, |reqs|);
      assert reqs[..|reqs|] == reqs;
      var s := Reach(cfg, Gathering(reqs, reqs, Receiving, []), Receive(0));
      assert [] + [reqs[0]] == reqs[..1];
      assert s == Gathering(reqs, reqs[1..], Collecting(reqs[..1]), reqs[..1]);
    } else {
      Collected(cfg, reqs, n - 1);
      assert reqs[..n] == reqs[..n - 1] + [reqs[n - 1]] && reqs[n - 1..][1..] == reqs[n..];
      var s := Reach(cfg, Gathering(reqs, reqs[n - 1..], Collecting(reqs[..n - 1]), reqs[..n - 1]), Receive(0));
      assert s == Gathering(reqs, reqs[n..], Collecting(reqs[..n]), reqs[..n]);
    }
  }

  lemma KeyMode(req: Request)
    ensures KeyOf(req).mode == req.op.mode
  {
  }

  lemma SubmittedAlone(cfg: Config, reqs: seq<Request>, waitMs: nat) returns (s: State)
    requires reqs != [] && Reachable(cfg, Gathering(reqs, [], Submitting([reqs], waitMs), reqs))
    requires var payload := cfg.encode(ItemsOf(cfg, reqs)); payload.Some? && |payload.value| <= cfg.limit
    ensures Reachable(cfg, s)
    ensures s == Gathering(reqs, [], Submitting([], waitMs), reqs).(jobs := [Job(KeyOf(reqs[0]), reqs, waitMs)])
  {
    hide KeyOf, Reachable, HasSender;
    var before := Gathering(reqs, [], Submitting([reqs], waitMs), reqs);
    s := Reach(cfg, before, SubmitParcel(0));
    assert [reqs][1..] == [];
  }

  /** Any requests that may share a batch, and fit the queue, the maximum and the payload limit, can be collected
      into one batch, invoked as one job, and ended as that job's reply says. */
  lemma BatchServed(cfg: Config, reqs: seq<Request>, waitMs: nat, outcome: Outcome)
    requires OneBatch(reqs) && |reqs| <= cfg.queueDepth && |reqs| <= reqs[0].op.maxBatchSize && cfg.maxInflight >= 1
    requires var payload := cfg.encode(ItemsOf(cfg, reqs)); payload.Some? && |payload.value| <= cfg.limit
    ensures var run := Running(Job(KeyOf(reqs[0]), reqs, waitMs), outcome);
            exists s :: Reachable(cfg, s) && s.submitted == multiset(reqs) && s.finished == [run]
                        && s.ends == JobEnds(cfg.lib, cfg.alive, reqs[0].op.mode, ReqIds(reqs), waitMs, outcome)
  {
    assert reqs != [];
    KeyMode(reqs[0]);
    hide KeyOf, Reachable, OneBatch, JobEnds, ReqIds;
    Flushed(cfg, reqs, waitMs);
    var s := SubmittedAlone(cfg, reqs, waitMs);
    s := JobRun(cfg, Job(KeyOf(reqs[0]), reqs, waitMs), outcome, s);
  }

  lemma Flushed(cfg: Config, reqs: seq<Request>, waitMs: nat)
    requires OneBatch(reqs) && |reqs| <= cfg.queueDepth && |reqs| <= reqs[0].op.maxBatchSize
    requires Uncut(cfg, reqs)
    ensures Reachable(cfg, Gathering(reqs, [], Submitting([reqs], waitMs), reqs))
  {
    assert reqs != [];
    hide KeyOf, Reachable, HasSender, OneBatch, DoReceive;
    Collected(cfg, reqs, |reqs|);
    assert reqs[|reqs|..] == [] && reqs[..|reqs|] == reqs;
    var s := Gathering(reqs, [], Collecting(reqs), reqs);
    FlushCuts(cfg, s, 0, waitMs);
    hide Segments, Encode, Uncut;
    s := Reach(cfg, s, Flush(0, waitMs));
    assert s == Gathering(reqs, [], Submitting([reqs], waitMs), reqs);
  }

  /** One queued job, and nothing else under way. */
  lemma JobRun(cfg: Config, job: Job, outcome: Outcome, before: State) returns (s: State)
    requires Reachable(cfg, before) && cfg.maxInflight >= 1
    requires before.jobs == [job] && before.held.None? && before.running == [] && before.finished == []
    requires before.ends == map[]
    ensures Reachable(cfg, s) && s.submitted == before.submitted && s.finished == [Running(job, outcome)]
    ensures s.ends == EndsOf(cfg, Running(job, outcome))
  {
    hide Reachable, EndsOf;
    s := TakeFirst(cfg, before);
    s := SpawnFirst(cfg, s, outcome);
    s := FinishFirst(cfg, s);
    assert before.ends + EndsOf(cfg, Running(job, outcome)) == EndsOf(cfg, Running(job, outcome));
  }

  lemma TakeFirst(cfg: Config, s: State) returns (s': State)
    requires Reachable(cfg, s) && s.held.None? && s.jobs != []
    ensures Reachable(cfg, s') && s' == s.(jobs := s.jobs[1..], held := Some(s.jobs[0]))
  {
    hide Reachable, HasSender, FreshId;
    s' := Reach(cfg, s, TakeJob);
  }

  lemma SpawnFirst(cfg: Config, s: State, outcome: Outcome) returns (s': State)
    requires Reachable(cfg, s) && s.held.Some? && s.running == [] && cfg.maxInflight >= 1
    ensures Reachable(cfg, s') && s' == s.(held := None, running := [Running(s.held.value, outcome)])
  {
    hide Reachable, HasSender, FreshId;
    s' := Reach(cfg, s, Spawn(outcome));
  }

  lemma FinishFirst(cfg: Config, s: State) returns (s': State)
    requires Reachable(cfg, s) && |s.running| == 1
    ensures Reachable(cfg, s') && s'.submitted == s.submitted
    ensures s'.ends == s.ends + EndsOf(cfg, s.running[0]) && s'.finished == s.finished + s.running
  {
    hide Reachable, HasSender, FreshId, EndsOf, Settled;
    s' := Reach(cfg, s, FinishJob(0));
  }
}
