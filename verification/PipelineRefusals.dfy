/** When the gateway turns a request away, and how large its batches get, over every run. */
module PipelineRefusals {
  import opened Wire
  import opened Demux
  import opened Planning
  import opened Pipeline
  import opened PipelineTheorems
  import opened FlushBatch
  import opened PipelineSinks
  import opened PipelineKeys

  // ---------------------------------------------------------------------------------------------
  // Refused by `enqueue`
  // ---------------------------------------------------------------------------------------------

  /** An attempt counts its looks into the map: none or one before it looks, one or two after. */
  ghost predicate TriesCount(s: State) {
    forall a | 0 <= a < |s.attempts| ::
      if s.attempts[a].stage.Looking? then s.attempts[a].tries <= 1 else 1 <= s.attempts[a].tries <= 2
  }

  lemma TrySendTries(cfg: Config, s: State, a: nat)
    requires TriesCount(s) && Enabled(cfg, s, TrySend(a))
    ensures TriesCount(DoTrySend(cfg, s, a))
  {
  }

  lemma RemoveStaleTries(s: State, a: nat)
    requires TriesCount(s) && a < |s.attempts| && s.attempts[a].stage.Stale?
    ensures TriesCount(DoRemoveStale(s, a))
  {
    hide KeyOf;
  }

  lemma TriesStep(cfg: Config, s: State, step: Step)
    requires TriesCount(s) && Enabled(cfg, s, step)
    ensures TriesCount(Next(cfg, s, step))
  {
    hide HasSender, KeyOf, FreshId;
    match step
    case TrySend(a) => TrySendTries(cfg, s, a);
    case RemoveStale(a) => RemoveStaleTries(s, a);
    case FindSender(_) =>
    case Submit(_) =>
    case _ =>
      OthersAttempts(cfg, s, step);
      hide Next;
  }

  lemma {:induction false} TriesRun(cfg: Config, s: State, steps: seq<Step>)
    requires TriesCount(s) && IsRun(cfg, s, steps)
    ensures TriesCount(After(cfg, s, steps))
    decreases steps
  {
    if steps == [] {
    } else {
      TriesStep(cfg, s, steps[0]);
      hide TriesCount, Next, Enabled;
      TriesRun(cfg, Next(cfg, s, steps[0]), steps[1..]);
    }
  }

  /** The request of this attempt meets a live task whose queue holds as many requests as it may. */
  predicate MeetsFullQueue(cfg: Config, s: State, step: Step, id: Id) {
    step.TrySend? && step.a < |s.attempts| && s.attempts[step.a].req.id == id &&
    var stage := s.attempts[step.a].stage;
    stage.Holding? && stage.task < |s.tasks| &&
    var task := s.tasks[stage.task];
    !task.phase.Leaving? && !task.phase.Ended? && |task.queue| == cfg.queueDepth
  }

  /** The second sender the attempt was given is that of a task which has left, too. */
  predicate FindsClosedTwice(s: State, step: Step, id: Id) {
    step.RemoveStale? && step.a < |s.attempts| && s.attempts[step.a].req.id == id && s.attempts[step.a].tries == 2
  }

  lemma TrySendRefuses(cfg: Config, s: State, a: nat, id: Id)
    requires WithinLimits(cfg, s) && Enabled(cfg, s, TrySend(a)) && id !in s.refused
    ensures id in DoTrySend(cfg, s, a).refused <==> MeetsFullQueue(cfg, s, TrySend(a), id)
    ensures id in DoTrySend(cfg, s, a).refused ==> DoTrySend(cfg, s, a).refused[id] == QueueFull
  {
    assert TaskWithin(cfg, s.tasks[s.attempts[a].stage.task]);
  }

  lemma RemoveStaleRefuses(s: State, a: nat, id: Id)
    requires TriesCount(s) && a < |s.attempts| && s.attempts[a].stage.Stale? && id !in s.refused
    ensures id in DoRemoveStale(s, a).refused <==> FindsClosedTwice(s, RemoveStale(a), id)
    ensures id in DoRemoveStale(s, a).refused ==> DoRemoveStale(s, a).refused[id] == BatcherClosed
  {
    hide KeyOf;
  }

  /** Over every run, `enqueue` refuses a request with "queue full" if and only if it meets a full queue,
      and with "batcher closed" if and only if it was sent to a task that has left, twice. */
  lemma RefusedExactlyWhen(cfg: Config, steps: seq<Step>, step: Step, id: Id)
    requires IsRun(cfg, INITIAL, steps) && Enabled(cfg, After(cfg, INITIAL, steps), step)
    requires id !in After(cfg, INITIAL, steps).refused
    ensures var s := After(cfg, INITIAL, steps);
            var refused := Next(cfg, s, step).refused;
            && (id in refused <==> MeetsFullQueue(cfg, s, step, id) || FindsClosedTwice(s, step, id))
            && (MeetsFullQueue(cfg, s, step, id) ==> refused[id] == QueueFull)
            && (FindsClosedTwice(s, step, id) ==> refused[id] == BatcherClosed)
  {
    LimitsRun(cfg, INITIAL, steps);
    TriesRun(cfg, INITIAL, steps);
    var s := After(cfg, INITIAL, steps);
    hide After, IsRun, WithinLimits, TriesCount;
    if step.TrySend? {
      TrySendRefuses(cfg, s, step.a, id);
      hide MeetsFullQueue, DoTrySend;
    } else if step.RemoveStale? {
      RemoveStaleRefuses(s, step.a, id);
      hide FindsClosedTwice, DoRemoveStale;
    } else if step.Submit? {
      hide FreshId;
    } else {
      OthersRefuseNobody(cfg, s, step);
      hide Next;
    }
  }

  // ---------------------------------------------------------------------------------------------
  // Refused by the job queue
  // ---------------------------------------------------------------------------------------------

  /** Every request of the parcel is answered like this, and nobody else. */
  ghost predicate AllAnswered(s: State, s': State, parcel: seq<Request>, response: Response) {
    && s'.jobs == s.jobs
    && (forall r | r in parcel :: r.id in s'.ends && s'.ends[r.id] == Answered(response))
    && (forall id | id in s'.ends :: id in s.ends || exists r :: r in parcel && r.id == id)
  }

  lemma AllEnded(ends: Clients, parcel: seq<Request>, c: Client)
    ensures forall r | r in parcel :: r.id in (ends + AllEnd(parcel, c)) && (ends + AllEnd(parcel, c))[r.id] == c
    ensures forall id | id in ends + AllEnd(parcel, c) :: id in ends || exists r :: r in parcel && r.id == id
  {
    forall r | r in parcel ensures r.id in ReqIds(parcel) {
      var i :| 0 <= i < |parcel| && parcel[i] == r;
      assert parcel[i].id == r.id;
    }
    forall id | id in ReqIds(parcel) ensures exists r :: r in parcel && r.id == id {
      var i :| 0 <= i < |parcel| && parcel[i].id == id;
      assert parcel[i] in parcel;
    }
  }

  /** The reply to a parcel, in figures. */
  lemma ReplyInFigures(cfg: Config, full: bool, parcel: seq<Request>, waitMs: nat)
    requires DistinctReqs(parcel)
    ensures var meta := Some(Meta(|parcel|, waitMs));
            ParcelReply(cfg, full, parcel, waitMs) ==
            match cfg.encode(ItemsOf(cfg, parcel))
            case None => Some(Response(500, [], Text(NotInvoked(EncodeFailed)), meta))
            case Some(payload) =>
              if |payload| > cfg.limit then Some(Response(502, [], Text(NotInvoked(PayloadTooLarge)), meta))
              else if full then Some(Response(429, [], Text(Overloaded), meta))
              else None
  {
    CountIds(parcel);
  }

  lemma PieceAt(cfg: Config, s: State, t: nat)
    requires t < |s.tasks| && s.tasks[t].phase.Submitting? && s.tasks[t].phase.parcels != []
    requires DistinctReqs(s.tasks[t].phase.parcels[0])
    requires |s.jobs| <= if cfg.maxPending < 1 then 1 else cfg.maxPending
    ensures var s' := DoSubmitParcel(cfg, s, t);
            var piece, waitMs := s.tasks[t].phase.parcels[0], s.tasks[t].phase.waitMs;
            var meta := Some(Meta(|piece|, waitMs));
            match cfg.encode(ItemsOf(cfg, piece))
            case None => AllAnswered(s, s', piece, Response(500, [], Text(NotInvoked(EncodeFailed)), meta))
            case Some(payload) =>
              if |payload| > cfg.limit then
                AllAnswered(s, s', piece, Response(502, [], Text(NotInvoked(PayloadTooLarge)), meta))
              else if |s.jobs| == if cfg.maxPending < 1 then 1 else cfg.maxPending then
                AllAnswered(s, s', piece, Response(429, [], Text(Overloaded), meta))
              else
                s'.jobs == s.jobs + [Job(s.tasks[t].key, piece, waitMs)] && s'.ends == s.ends
  {
    var piece, waitMs := s.tasks[t].phase.parcels[0], s.tasks[t].phase.waitMs;
    var full := |s.jobs| >= JobQueueDepth(cfg);
    ReplyInFigures(cfg, full, piece, waitMs);
    hide ParcelReply, AllEnd, DistinctReqs, Encode, ItemsOf;
    var reply := ParcelReply(cfg, full, piece, waitMs);
    if reply.Some? {
      AllEnded(s.ends, piece, Answered(reply.value));
    }
  }

  /** Over every run, each piece of a flushed batch is answered 500 if it cannot be encoded, 502 if its payload
      is over the limit, 429 if the job queue then holds max(1, maxPending) jobs, with the number of its own
      requests as batch size, and becomes a job otherwise. */
  lemma PieceSubmitted(cfg: Config, steps: seq<Step>, t: nat)
    requires IsRun(cfg, INITIAL, steps) && Enabled(cfg, After(cfg, INITIAL, steps), SubmitParcel(t))
    requires After(cfg, INITIAL, steps).tasks[t].phase.parcels != []
    ensures var s := After(cfg, INITIAL, steps);
            var s' := Next(cfg, s, SubmitParcel(t));
            var piece, waitMs := s.tasks[t].phase.parcels[0], s.tasks[t].phase.waitMs;
            var meta := Some(Meta(|piece|, waitMs));
            match cfg.encode(ItemsOf(cfg, piece))
            case None => AllAnswered(s, s', piece, Response(500, [], Text(NotInvoked(EncodeFailed)), meta))
            case Some(payload) =>
              if |payload| > cfg.limit then
                AllAnswered(s, s', piece, Response(502, [], Text(NotInvoked(PayloadTooLarge)), meta))
              else if |s.jobs| == if cfg.maxPending < 1 then 1 else cfg.maxPending then
                AllAnswered(s, s', piece, Response(429, [], Text(Overloaded), meta))
              else
                s'.jobs == s.jobs + [Job(s.tasks[t].key, piece, waitMs)] && s'.ends == s.ends
  {
    InitialSinks();
    SinkInvRun(cfg, INITIAL, steps);
    LimitsRun(cfg, INITIAL, steps);
    var s := After(cfg, INITIAL, steps);
    hide After, IsRun, EndsAgree, RefusalsAgree, Sound, TaskWithin, AllAnswered, DistinctReqs, DoSubmitParcel, ItemsOf;
    ParcelDistinct(s, t);
    PieceAt(cfg, s, t);
  }

  // ---------------------------------------------------------------------------------------------
  // The size of batches
  // ---------------------------------------------------------------------------------------------

  /** The task was made for some request of its key, with the maximum of that request's operation. */
  ghost predicate MaxFrom(submitted: multiset<Request>, task: Task) {
    exists r :: r in submitted && KeyOf(r) == task.key && r.op.maxBatchSize == task.maxBatch
  }

  ghost predicate MaximaFrom(s: State) {
    && (forall a | 0 <= a < |s.attempts| :: s.attempts[a].req in s.submitted)
    && forall t | 0 <= t < |s.tasks| :: MaxFrom(s.submitted, s.tasks[t])
  }

  predicate Attempted(attempts: seq<Attempt>, req: Request) {
    exists a :: 0 <= a < |attempts| && attempts[a].req == req
  }

  ghost predicate SameTasks(before: seq<Task>, after: seq<Task>) {
    |after| == |before|
    && forall t | 0 <= t < |before| :: after[t].key == before[t].key && after[t].maxBatch == before[t].maxBatch
  }

  /** All other steps keep the tasks' keys and maxima, and let attempts only go on or end. */
  ghost predicate ShapeKept(s: State, s': State) {
    && s'.submitted == s.submitted && SameTasks(s.tasks, s'.tasks)
    && forall a | 0 <= a < |s'.attempts| :: Attempted(s.attempts, s'.attempts[a].req)
  }

  lemma KeptMaxima(s: State, s': State)
    requires MaximaFrom(s) && ShapeKept(s, s')
    ensures MaximaFrom(s')
  {
    hide KeyOf;
    forall t | 0 <= t < |s'.tasks| ensures MaxFrom(s'.submitted, s'.tasks[t]) {
      assert MaxFrom(s.submitted, s.tasks[t]);
    }
  }

  lemma SubmitMaxima(s: State, s': State, req: Request)
    requires MaximaFrom(s) && s'.tasks == s.tasks && s'.submitted == s.submitted + multiset{req}
    requires s'.attempts == s.attempts + [Attempt(req, Looking, 0)]
    ensures MaximaFrom(s')
  {
    hide KeyOf;
    forall t | 0 <= t < |s'.tasks| ensures MaxFrom(s'.submitted, s'.tasks[t]) {
      assert MaxFrom(s.submitted, s.tasks[t]);
    }
  }

  lemma FindSenderMaxima(s: State, a: nat)
    requires MaximaFrom(s) && a < |s.attempts|
    ensures MaximaFrom(DoFindSender(s, a))
  {
    hide KeyOf;
    var s' := DoFindSender(s, a);
    forall t | 0 <= t < |s'.tasks| ensures MaxFrom(s'.submitted, s'.tasks[t]) {
      if t < |s.tasks| {
        assert MaxFrom(s.submitted, s.tasks[t]);
      } else {
        assert s.attempts[a].req in s.submitted;
      }
    }
  }

  lemma TrySendShape(cfg: Config, s: State, a: nat)
    requires Enabled(cfg, s, TrySend(a))
    ensures ShapeKept(s, DoTrySend(cfg, s, a))
  {
    var s' := DoTrySend(cfg, s, a);
    forall i | 0 <= i < |s'.attempts|
      ensures Attempted(s.attempts, s'.attempts[i].req)
    {
      var b := if |s'.attempts| == |s.attempts| || i < a then i else i + 1;
      assert s.attempts[b].req == s'.attempts[i].req;
    }
  }

  lemma RemoveStaleShape(s: State, a: nat)
    requires a < |s.attempts| && s.attempts[a].stage.Stale?
    ensures ShapeKept(s, DoRemoveStale(s, a))
  {
    hide KeyOf;
    var s' := DoRemoveStale(s, a);
    forall i | 0 <= i < |s'.attempts|
      ensures Attempted(s.attempts, s'.attempts[i].req)
    {
      var b := if |s'.attempts| == |s.attempts| || i < a then i else i + 1;
      assert s.attempts[b].req == s'.attempts[i].req;
    }
  }

  lemma SameShape(s: State, s': State)
    requires s'.attempts == s.attempts && s'.submitted == s.submitted && SameTasks(s.tasks, s'.tasks)
    ensures ShapeKept(s, s')
  {
    forall a | 0 <= a < |s'.attempts| ensures Attempted(s.attempts, s'.attempts[a].req) {
      assert s.attempts[a].req == s'.attempts[a].req;
    }
  }

  lemma OthersShape(cfg: Config, s: State, step: Step)
    requires Enabled(cfg, s, step)
    requires !step.FindSender? && !step.Submit? && !step.TrySend? && !step.RemoveStale?
    ensures ShapeKept(s, Next(cfg, s, step))
  {
    hide Next, SameTasks, ShapeKept;
    OthersAttempts(cfg, s, step);
    OthersTasks(cfg, s, step);
    SameShape(s, Next(cfg, s, step));
  }

  lemma OthersAttempts(cfg: Config, s: State, step: Step)
    requires Enabled(cfg, s, step)
    requires !step.FindSender? && !step.Submit? && !step.TrySend? && !step.RemoveStale?
    ensures Next(cfg, s, step).attempts == s.attempts && Next(cfg, s, step).submitted == s.submitted
  {
    hide HasSender, DoReceive, DoFlush, DoSubmitParcel, DoIdleExit, DoFinishJob;
  }

  lemma OneTaskSame(s: State, t: nat, task: Task)
    requires t < |s.tasks| && task.key == s.tasks[t].key && task.maxBatch == s.tasks[t].maxBatch
    ensures SameTasks(s.tasks, WithTask(s, t, task).tasks)
  {
  }

  lemma OthersTasks(cfg: Config, s: State, step: Step)
    requires Enabled(cfg, s, step)
    requires !step.FindSender? && !step.Submit? && !step.TrySend? && !step.RemoveStale?
    ensures SameTasks(s.tasks, Next(cfg, s, step).tasks)
  {
    hide HasSender, FreshId, EndsOf, Settled, Segments, ParcelReply, AllEnd, Encode;
    match step
    case Receive(t) => OneTaskSame(s, t, DoReceive(s, t).tasks[t]);
    case Flush(t, waitMs) => OneTaskSame(s, t, DoFlush(cfg, s, t, waitMs).tasks[t]);
    case SubmitParcel(t) => OneTaskSame(s, t, DoSubmitParcel(cfg, s, t).tasks[t]);
    case IdleExit(t) => OneTaskSame(s, t, DoIdleExit(s, t).tasks[t]);
    case ClosedExit(t) => OneTaskSame(s, t, s.tasks[t].(phase := Leaving));
    case RemoveKey(t) => OneTaskSame(s, t, s.tasks[t].(phase := Ended));
    case _ =>
  }

  lemma MaximaStep(cfg: Config, s: State, step: Step)
    requires MaximaFrom(s) && Enabled(cfg, s, step)
    ensures MaximaFrom(Next(cfg, s, step))
  {
    hide MaxFrom, KeyOf, HasSender, FreshId;
    match step
    case FindSender(a) => FindSenderMaxima(s, a);
    case Submit(req) => SubmitMaxima(s, Next(cfg, s, step), req);
    case TrySend(a) => TrySendShape(cfg, s, a); KeptMaxima(s, Next(cfg, s, step));
    case RemoveStale(a) => RemoveStaleShape(s, a); KeptMaxima(s, Next(cfg, s, step));
    case _ =>
      OthersShape(cfg, s, step);
      hide Next;
      KeptMaxima(s, Next(cfg, s, step));
  }

  lemma {:induction false} MaximaRun(cfg: Config, s: State, steps: seq<Step>)
    requires MaximaFrom(s) && IsRun(cfg, s, steps)
    ensures MaximaFrom(After(cfg, s, steps))
    decreases steps
  {
    if steps == [] {
    } else {
      MaximaStep(cfg, s, steps[0]);
      hide MaximaFrom, Next, Enabled;
      MaximaRun(cfg, Next(cfg, s, steps[0]), steps[1..]);
    }
  }

  ghost predicate MaximaAgree(submitted: multiset<Request>) {
    forall p, q | p in submitted && q in submitted && Mates(p, q) :: p.op.maxBatchSize == q.op.maxBatchSize
  }

  lemma BatchWithin(cfg: Config, submitted: multiset<Request>, task: Task, r: Request)
    requires task.phase.Collecting? && r in task.phase.batch && r in submitted
    requires TaskWithin(cfg, task) && AllCarry(task.key, task.phase.batch) && MaxFrom(submitted, task)
    requires MaximaAgree(submitted)
    ensures |task.phase.batch| == 1 || |task.phase.batch| <= r.op.maxBatchSize
  {
    hide KeyOf, Mates;
    var q :| q in submitted && KeyOf(q) == task.key && q.op.maxBatchSize == task.maxBatch;
    var i :| 0 <= i < |task.phase.batch| && task.phase.batch[i] == r;
    assert Carries(task.key, r);
    OneKeyIff(q, r);
  }

  lemma BatchOf(cfg: Config, s: State, t: nat, r: Request)
    requires Sound(s) && WithinLimits(cfg, s) && MaximaFrom(s) && MaximaAgree(s.submitted)
    requires t < |s.tasks| && PureTask(s.tasks[t]) && s.tasks[t].phase.Collecting? && r in s.tasks[t].phase.batch
    ensures |s.tasks[t].phase.batch| == 1 || |s.tasks[t].phase.batch| <= r.op.maxBatchSize
  {
    hide KeyOf, Sound, MaxFrom, TaskWithin, DistinctReqs, AllCarry, MaximaAgree;
    BatchDistinct(s, t);
    BatchWithin(cfg, s.submitted, s.tasks[t], r);
  }

  /** Over every run in which requests that may share a batch agree on the maximum, no batch is larger than its own
      requests' operation allows. */
  lemma BatchesWithinMaximum(cfg: Config, steps: seq<Step>, t: nat, r: Request)
    requires IsRun(cfg, INITIAL, steps) && t < |After(cfg, INITIAL, steps).tasks|
    requires var s := After(cfg, INITIAL, steps);
             && s.tasks[t].phase.Collecting? && r in s.tasks[t].phase.batch
             && MaximaAgree(s.submitted)
    ensures var size := |After(cfg, INITIAL, steps).tasks[t].phase.batch|;
            size == 1 || size <= r.op.maxBatchSize
  {
    hide After, IsRun, EndsAgree, RefusalsAgree, Sound, WithinLimits, MaximaFrom, MaximaAgree, PureTask;
    InitialSinks();
    InitialLimits(cfg);
    SinkInvRun(cfg, INITIAL, steps);
    LimitsRun(cfg, INITIAL, steps);
    MaximaRun(cfg, INITIAL, steps);
    KeysOverRuns(cfg, steps);
    BatchOf(cfg, After(cfg, INITIAL, steps), t, r);
  }

  lemma InitialLimits(cfg: Config)
    ensures WithinLimits(cfg, INITIAL) && MaximaFrom(INITIAL)
  {
  }
}
