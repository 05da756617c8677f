/** The gateway from enqueue to the end of a job, as one step machine: HTTP handlers enqueue, one
    task per batch key collects and flushes, a bounded job queue feeds a bounded set of running
    invocations, and idle tasks leave while handlers may still hold their senders. */
module Pipeline {
  import opened Wire
  import opened Planning
  import opened Jobs
  import opened Demux

  datatype Dimension = HeaderDim(name: string) | QueryDim(name: string)
  datatype Operation = Operation(target: string, httpMethod: string, route: string, mode: Mode,
                                 dims: seq<Dimension>, maxBatchSize: nat)

  /** A pending request with the operation it matched; `sink` is the kind of its response channel,
      and the channel itself is known by the request's id. */
  datatype Request = Request(id: Id, op: Operation, httpMethod: string, route: string,
                             headers: map<string, string>, query: map<string, string>, sink: Mode)

  function ReqIds(reqs: seq<Request>): set<Id> {
    set i | 0 <= i < |reqs| :: reqs[i].id
  }

  datatype Key = Key(target: string, httpMethod: string, route: string, mode: Mode, values: seq<Option<string>>)

  function Lookup(m: map<string, string>, name: string): Option<string> {
    if name in m then Some(m[name]) else None
  }

  function DimensionValue(dim: Dimension, req: Request): Option<string> {
    match dim
    case HeaderDim(name) => Lookup(req.headers, name)
    case QueryDim(name) => Lookup(req.query, name)
  }

  function KeyOf(req: Request): Key {
    Key(req.op.target, req.op.httpMethod, req.op.route, req.op.mode,
        seq(|req.op.dims|, i requires 0 <= i < |req.op.dims| => DimensionValue(req.op.dims[i], req)))
  }

  datatype Phase =
    | Receiving
    | Collecting(batch: seq<Request>)
    | Submitting(parcels: seq<seq<Request>>, waitMs: nat)
    | Leaving
    | Ended

  /** A batcher task and the channel it reads; `accepted` and `received` are the histories of both
      ends of the channel, `idled` says that the task left for want of requests. */
  datatype Task = Task(key: Key, maxBatch: nat, queue: seq<Request>, phase: Phase,
                       accepted: seq<Request>, received: seq<Request>, idled: bool)
  {
    predicate Open() { !phase.Leaving? && !phase.Ended? }
  }

  /** Where an `enqueue` call is: `Holding` and `Stale` own a sender clone of that task's channel. */
  datatype Stage = Looking | Holding(task: nat) | Stale(task: nat)
  datatype Attempt = Attempt(req: Request, stage: Stage, tries: nat)

  datatype Job = Job(key: Key, requests: seq<Request>, waitMs: nat)

  /** A spawned job and what its invocation will come to; clients may see parts of it before it ends. */
  datatype Running = Running(job: Job, outcome: Outcome)

  datatype EnqueueError = QueueFull | BatcherClosed

  datatype Config = Config(maxInflight: nat, maxPending: nat, queueDepth: nat, limit: nat,
                           event: Request -> Bytes, encode: Encoder<BatchItem>,
                           lib: Lib, alive: (Id, nat) -> bool)

  function ItemsOf(cfg: Config, reqs: seq<Request>): (items: seq<BatchItem>)
    ensures |items| == |reqs|
  {
    seq(|reqs|, i requires 0 <= i < |reqs| => BatchItem(reqs[i].id, cfg.event(reqs[i])))
  }

  /** `build_payload_bytes` on the requests themselves. */
  function Encode(cfg: Config): Encoder<Request> {
    reqs => cfg.encode(ItemsOf(cfg, reqs))
  }

  /** `finished` lists the jobs that are over, `ends` says what became of each sink that was used,
      `refused` what `enqueue` returned to the handler of each request it did not take. */
  datatype State = State(
    attempts: seq<Attempt>,
    batchers: map<Key, nat>,
    tasks: seq<Task>,
    jobs: seq<Job>,
    held: Option<Job>,
    running: seq<Running>,
    submitted: multiset<Request>,
    resolved: multiset<Request>,
    rejected: multiset<Request>,
    dropped: multiset<Request>,
    finished: seq<Running>,
    ends: Clients,
    refused: map<Id, EnqueueError>)

  const INITIAL := State([], map[], [], [], None, [], multiset{}, multiset{}, multiset{}, multiset{}, [], map[], map[])

  datatype Step =
    | Submit(req: Request)
    | FindSender(a: nat)
    | TrySend(a: nat)
    | RemoveStale(a: nat)
    | Receive(t: nat)
    | Flush(t: nat, waitMs: nat)
    | SubmitParcel(t: nat)
    | IdleExit(t: nat)
    | ClosedExit(t: nat)
    | RemoveKey(t: nat)
    | TakeJob
    | Spawn(outcome: Outcome)
    | FinishJob(j: nat)

  function JobQueueDepth(cfg: Config): nat {
    if cfg.maxPending < 1 then 1 else cfg.maxPending
  }

  /** The enqueue call owns a sender clone of task t's channel. */
  predicate Owns(a: Attempt, t: nat) {
    !a.stage.Looking? && a.stage.task == t
  }

  /** Some live sender of task t's channel exists: in the map, or cloned by an enqueue in progress. */
  predicate HasSender(s: State, t: nat) {
    || (exists k | k in s.batchers :: s.batchers[k] == t)
    || (exists i | 0 <= i < |s.attempts| :: Owns(s.attempts[i], t))
  }

  /** The HTTP handler copies the matched method and route, makes a sink of the operation's mode, and
      draws a fresh id. */
  predicate FromHandler(req: Request) {
    req.httpMethod == req.op.httpMethod && req.route == req.op.route && req.sink == req.op.mode
  }

  predicate FreshId(s: State, id: Id) {
    forall r | r in s.submitted :: r.id != id
  }

  predicate Enabled(cfg: Config, s: State, step: Step) {
    match step
    case Submit(req) => FromHandler(req) && FreshId(s, req.id)
    case FindSender(a) => a < |s.attempts| && s.attempts[a].stage.Looking?
    case TrySend(a) => a < |s.attempts| && s.attempts[a].stage.Holding? && s.attempts[a].stage.task < |s.tasks|
    case RemoveStale(a) => a < |s.attempts| && s.attempts[a].stage.Stale?
    case Receive(t) => t < |s.tasks| && s.tasks[t].queue != []
                       && (s.tasks[t].phase.Receiving?
                           || (s.tasks[t].phase.Collecting? && |s.tasks[t].phase.batch| < s.tasks[t].maxBatch))
    case Flush(t, _) => t < |s.tasks| && s.tasks[t].phase.Collecting?
    case SubmitParcel(t) => t < |s.tasks| && s.tasks[t].phase.Submitting?
    case IdleExit(t) => t < |s.tasks| && s.tasks[t].phase.Receiving?
    case ClosedExit(t) => t < |s.tasks| && s.tasks[t].phase.Receiving? && s.tasks[t].queue == [] && !HasSender(s, t)
    case RemoveKey(t) => t < |s.tasks| && s.tasks[t].phase.Leaving?
    case TakeJob => s.held.None? && s.jobs != []
    case Spawn(_) => s.held.Some? && |s.running| < cfg.maxInflight
    case FinishJob(j) => j < |s.running|
  }

  function Without<X>(xs: seq<X>, i: nat): seq<X>
    requires i < |xs|
  {
    xs[..i] + xs[i + 1..]
  }

  function WithTask(s: State, t: nat, task: Task): State
    requires t < |s.tasks|
  {
    s.(tasks := s.tasks[t := task])
  }

  /** The occupied or vacant map entry, under its lock. */
  function DoFindSender(s: State, a: nat): (s': State)
    requires a < |s.attempts|
    ensures s' == s.(attempts := s'.attempts, batchers := s'.batchers, tasks := s'.tasks)
  {
    var at := s.attempts[a];
    var key := KeyOf(at.req);
    if key in s.batchers then
      s.(attempts := s.attempts[a := Attempt(at.req, Holding(s.batchers[key]), at.tries + 1)])
    else
      var t := |s.tasks|;
      s.(attempts := s.attempts[a := Attempt(at.req, Holding(t), at.tries + 1)],
         batchers := s.batchers[key := t],
         tasks := s.tasks + [Task(key, at.req.op.maxBatchSize, [], Receiving, [], [], false)])
  }

  function DoTrySend(cfg: Config, s: State, a: nat): (s': State)
    requires a < |s.attempts| && s.attempts[a].stage.Holding? && s.attempts[a].stage.task < |s.tasks|
    ensures s' == s.(attempts := s'.attempts, tasks := s'.tasks, rejected := s'.rejected, refused := s'.refused)
  {
    var at := s.attempts[a];
    var t := at.stage.task;
    var task := s.tasks[t];
    if !task.Open() then s.(attempts := s.attempts[a := at.(stage := Stale(t))])
    else if |task.queue| >= cfg.queueDepth then
      s.(attempts := Without(s.attempts, a), rejected := s.rejected + multiset{at.req},
         refused := s.refused[at.req.id := QueueFull])
    else
      WithTask(s, t, task.(queue := task.queue + [at.req], accepted := task.accepted + [at.req]))
      .(attempts := Without(s.attempts, a))
  }

  /** `batchers.remove(&key)`, whatever sender is there by now, then retry once. */
  function DoRemoveStale(s: State, a: nat): (s': State)
    requires a < |s.attempts|
    ensures s' == s.(attempts := s'.attempts, batchers := s'.batchers, rejected := s'.rejected, refused := s'.refused)
  {
    var at := s.attempts[a];
    var s' := s.(batchers := s.batchers - {KeyOf(at.req)});
    if at.tries < 2 then s'.(attempts := s.attempts[a := at.(stage := Looking)])
    else s'.(attempts := Without(s.attempts, a), rejected := s.rejected + multiset{at.req},
             refused := s.refused[at.req.id := BatcherClosed])
  }

  function DoReceive(s: State, t: nat): (s': State)
    requires t < |s.tasks| && s.tasks[t].queue != []
    requires s.tasks[t].phase.Receiving? || s.tasks[t].phase.Collecting?
    ensures s' == s.(tasks := s'.tasks)
  {
    var task := s.tasks[t];
    var batch := if task.phase.Receiving? then [] else task.phase.batch;
    WithTask(s, t, task.(queue := task.queue[1..], phase := Collecting(batch + [task.queue[0]]),
                         received := task.received + [task.queue[0]]))
  }

  function DoFlush(cfg: Config, s: State, t: nat, waitMs: nat): (s': State)
    requires t < |s.tasks| && s.tasks[t].phase.Collecting?
    ensures s' == s.(tasks := s'.tasks)
  {
    var task := s.tasks[t];
    WithTask(s, t, task.(phase := Submitting(Segments(Encode(cfg), cfg.limit, task.phase.batch), waitMs)))
  }

  /** The reply to all requests of a parcel that does not become a job. */
  function ParcelReply(cfg: Config, full: bool, parcel: seq<Request>, waitMs: nat): Option<Response> {
    var meta := Meta(|ReqIds(parcel)|, waitMs);
    match Encode(cfg)(parcel)
    case None => Some(TextResponse(500, NotInvoked(EncodeFailed), meta))
    case Some(payload) =>
      if |payload| > cfg.limit then Some(TextResponse(BAD_GATEWAY, NotInvoked(PayloadTooLarge), meta))
      else if full then Some(TextResponse(429, Overloaded, meta))
      else None
  }

  /** The same end for the sinks of all these requests. */
  function AllEnd(reqs: seq<Request>, c: Client): Clients {
    map id | id in ReqIds(reqs) :: c
  }

  /** One plan of the flushed batch: failed at once, queued, or refused by the full job queue. */
  function DoSubmitParcel(cfg: Config, s: State, t: nat): (s': State)
    requires t < |s.tasks| && s.tasks[t].phase.Submitting?
    ensures |s'.tasks| == |s.tasks| && s'.tasks == s.tasks[t := s'.tasks[t]]
    ensures s' == s.(tasks := s'.tasks, jobs := s'.jobs, resolved := s'.resolved, ends := s'.ends)
  {
    var task := s.tasks[t];
    if task.phase.parcels == [] then WithTask(s, t, task.(phase := Receiving))
    else
      var parcel, waitMs := task.phase.parcels[0], task.phase.waitMs;
      var s' := WithTask(s, t, task.(phase := Submitting(task.phase.parcels[1..], waitMs)));
      match ParcelReply(cfg, |s.jobs| >= JobQueueDepth(cfg), parcel, waitMs)
      case None => s'.(jobs := s.jobs + [Job(task.key, parcel, waitMs)])
      case Some(reply) =>
        s'.(resolved := s.resolved + multiset(parcel), ends := s.ends + AllEnd(parcel, Answered(reply)))
  }

  /** The receiver goes, and with it whatever slipped into the queue meanwhile. */
  function DoIdleExit(s: State, t: nat): (s': State)
    requires t < |s.tasks|
    ensures s' == s.(tasks := s'.tasks, dropped := s'.dropped, ends := s'.ends)
  {
    var task := s.tasks[t];
    WithTask(s, t, task.(queue := [], phase := Leaving, idled := true))
    .(dropped := s.dropped + multiset(task.queue), ends := s.ends + AllEnd(task.queue, Dropped))
  }

  function EndsOf(cfg: Config, run: Running): Clients {
    JobEnds(cfg.lib, cfg.alive, run.job.key.mode, ReqIds(run.job.requests), run.job.waitMs, run.outcome)
  }

  /** The requests whose sinks the dispatcher has used up. */
  function Settled(reqs: seq<Request>, ends: Clients): seq<Request> {
    if reqs == [] then []
    else
      (if reqs[0].id in ends && !ends[reqs[0].id].Live() then [reqs[0]] else []) + Settled(reqs[1..], ends)
  }

  function DoFinishJob(cfg: Config, s: State, j: nat): (s': State)
    requires j < |s.running|
    ensures s' == s.(running := s'.running, resolved := s'.resolved, ends := s'.ends, finished := s'.finished)
  {
    var run := s.running[j];
    var ends := EndsOf(cfg, run);
    s.(running := Without(s.running, j), resolved := s.resolved + multiset(Settled(run.job.requests, ends)),
       ends := s.ends + ends, finished := s.finished + [run])
  }

  function Next(cfg: Config, s: State, step: Step): State
    requires Enabled(cfg, s, step)
  {
    match step
    case Submit(req) =>
      s.(attempts := s.attempts + [Attempt(req, Looking, 0)], submitted := s.submitted + multiset{req})
    case FindSender(a) => DoFindSender(s, a)
    case TrySend(a) => DoTrySend(cfg, s, a)
    case RemoveStale(a) => DoRemoveStale(s, a)
    case Receive(t) => DoReceive(s, t)
    case Flush(t, waitMs) => DoFlush(cfg, s, t, waitMs)
    case SubmitParcel(t) => DoSubmitParcel(cfg, s, t)
    case IdleExit(t) => DoIdleExit(s, t)
    case ClosedExit(t) => WithTask(s, t, s.tasks[t].(phase := Leaving))
    case RemoveKey(t) =>
      WithTask(s, t, s.tasks[t].(phase := Ended)).(batchers := s.batchers - {s.tasks[t].key})
    case TakeJob => s.(jobs := s.jobs[1..], held := Some(s.jobs[0]))
    case Spawn(outcome) => s.(held := None, running := s.running + [Running(s.held.value, outcome)])
    case FinishJob(j) => DoFinishJob(cfg, s, j)
  }

  ghost predicate IsRun(cfg: Config, s: State, steps: seq<Step>)
    decreases steps
  {
    steps != [] ==> Enabled(cfg, s, steps[0]) && IsRun(cfg, Next(cfg, s, steps[0]), steps[1..])
  }

  ghost function After(cfg: Config, s: State, steps: seq<Step>): State
    requires IsRun(cfg, s, steps)
    decreases steps
  {
    if steps == [] then s else After(cfg, Next(cfg, s, steps[0]), steps[1..])
  }

  // ---------------------------------------------------------------------------------------------
  // Where the requests are
  // ---------------------------------------------------------------------------------------------

  function InPhase(phase: Phase): multiset<Request> {
    match phase
    case Collecting(batch) => multiset(batch)
    case Submitting(parcels, _) => multiset(Flatten(parcels))
    case _ => multiset{}
  }

  function InTask(task: Task): multiset<Request> {
    multiset(task.queue) + InPhase(task.phase)
  }

  function InJob(job: Job): multiset<Request> {
    multiset(job.requests)
  }

  function InRunning(run: Running): multiset<Request> {
    InJob(run.job)
  }

  function InAttempt(a: Attempt): multiset<Request> {
    multiset{a.req}
  }

  /** How often `r` occurs in a row of stages. */
  function Count<X>(xs: seq<X>, f: X -> multiset<Request>, r: Request): nat {
    if xs == [] then 0 else f(xs[0])[r] + Count(xs[1..], f, r)
  }

  function InHeld(held: Option<Job>): multiset<Request> {
    if held.None? then multiset{} else InJob(held.value)
  }

  /** How often `r` occurs in all stages together. */
  function Everywhere(s: State, r: Request): nat {
    Count(s.attempts, InAttempt, r) + Count(s.tasks, InTask, r) + Count(s.jobs, InJob, r) + InHeld(s.held)[r]
    + Count(s.running, InRunning, r) + s.resolved[r] + s.rejected[r] + s.dropped[r]
  }
}
