/** Who shares a batch, in terms of the requests' own headers and query parameters. */
module PipelineKeys {
  import opened Wire
  import opened Pipeline
  import opened PipelineTheorems

  /** The request has this value where the dimension looks. */
  predicate Bears(dim: Dimension, req: Request, value: string) {
    match dim
    case HeaderDim(name) => name in req.headers && req.headers[name] == value
    case QueryDim(name) => name in req.query && req.query[name] == value
  }

  /** Both have the same value, or neither has one. */
  ghost predicate Alike(dim: Dimension, r: Request, dim': Dimension, q: Request) {
    forall value :: Bears(dim, r, value) <==> Bears(dim', q, value)
  }

  /** The requests may share a batch: same function, method, route and invocation mode, and alike in
      every dimension of their batch keys. */
  ghost predicate Mates(r: Request, q: Request) {
    && r.op.target == q.op.target && r.op.httpMethod == q.op.httpMethod && r.op.route == q.op.route
    && r.op.mode == q.op.mode
    && |r.op.dims| == |q.op.dims|
    && forall i | 0 <= i < |r.op.dims| :: Alike(r.op.dims[i], r, q.op.dims[i], q)
  }

  lemma ValueBorne(dim: Dimension, req: Request, value: string)
    ensures Bears(dim, req, value) <==> DimensionValue(dim, req) == Some(value)
  {
  }

  lemma AlikeIff(dim: Dimension, r: Request, dim': Dimension, q: Request)
    ensures Alike(dim, r, dim', q) <==> DimensionValue(dim, r) == DimensionValue(dim', q)
  {
    forall value ensures Bears(dim, r, value) <==> DimensionValue(dim, r) == Some(value) {
      ValueBorne(dim, r, value);
    }
    forall value ensures Bears(dim', q, value) <==> DimensionValue(dim', q) == Some(value) {
      ValueBorne(dim', q, value);
    }
    hide Bears, DimensionValue;
    var u, v := DimensionValue(dim, r), DimensionValue(dim', q);
    if u.Some? {
      assert Bears(dim, r, u.value);
    }
    if v.Some? {
      assert Bears(dim', q, v.value);
    }
  }

  /** Two requests have one batch key if and only if they are mates. */
  lemma OneKeyIff(r: Request, q: Request)
    ensures KeyOf(r) == KeyOf(q) <==> Mates(r, q)
  {
    hide Alike, DimensionValue;
    if KeyOf(r) == KeyOf(q) {
      assert |KeyOf(r).values| == |KeyOf(q).values|;
      forall i | 0 <= i < |r.op.dims| ensures Alike(r.op.dims[i], r, q.op.dims[i], q) {
        assert KeyOf(r).values[i] == KeyOf(q).values[i];
        AlikeIff(r.op.dims[i], r, q.op.dims[i], q);
      }
    }
    if Mates(r, q) {
      forall i | 0 <= i < |r.op.dims| ensures KeyOf(r).values[i] == KeyOf(q).values[i] {
        AlikeIff(r.op.dims[i], r, q.op.dims[i], q);
      }
      assert KeyOf(r).values == KeyOf(q).values;
    }
  }

  /** For one operation this is plain: each header and each parameter of its key is in both requests with
      the same value, or in neither. */
  lemma MatesOfOneOperation(r: Request, q: Request, i: nat)
    requires Mates(r, q) && r.op.dims == q.op.dims && i < |r.op.dims|
    ensures match r.op.dims[i]
            case HeaderDim(n) =>
              (n in r.headers <==> n in q.headers) && (n in r.headers ==> r.headers[n] == q.headers[n])
            case QueryDim(n) =>
              (n in r.query <==> n in q.query) && (n in r.query ==> r.query[n] == q.query[n])
  {
    var dim := r.op.dims[i];
    assert Alike(dim, r, dim, q);
    match dim
    case HeaderDim(n) =>
      if n in r.headers {
        assert Bears(dim, r, r.headers[n]);
      } else if n in q.headers {
        assert Bears(dim, q, q.headers[n]);
      }
    case QueryDim(n) =>
      if n in r.query {
        assert Bears(dim, r, r.query[n]);
      } else if n in q.query {
        assert Bears(dim, q, q.query[n]);
      }
  }

  /** Queued for the task, in its open batch, or in a piece of the batch it is submitting. */
  predicate InStage(task: Task, r: Request) {
    || r in task.queue
    || (task.phase.Collecting? && r in task.phase.batch)
    || (task.phase.Submitting? && exists i :: 0 <= i < |task.phase.parcels| && r in task.phase.parcels[i])
  }

  ghost predicate AllMates(reqs: seq<Request>) {
    forall r, q | r in reqs && q in reqs :: Mates(r, q) && r.sink == q.op.mode
  }

  lemma StageCarries(task: Task, r: Request)
    requires PureTask(task) && InStage(task, r)
    ensures Carries(task.key, r)
  {
    hide Carries;
  }

  lemma CarryAllMates(key: Key, reqs: seq<Request>)
    requires AllCarry(key, reqs)
    ensures AllMates(reqs)
  {
    hide KeyOf, Mates;
    forall r, q | r in reqs && q in reqs ensures Mates(r, q) && r.sink == q.op.mode {
      assert Carries(key, r) && Carries(key, q);
      OneKeyIff(r, q);
    }
  }

  /** Over every run, several live tasks of one key included: requests that share a channel, a batch or a
      job are mates, and their response channels are of the kind that the job answers. */
  lemma BatchKeyIsolation(cfg: Config, steps: seq<Step>)
    requires IsRun(cfg, INITIAL, steps)
    ensures var s := After(cfg, INITIAL, steps);
            && (forall t, r, q | 0 <= t < |s.tasks| && InStage(s.tasks[t], r) && InStage(s.tasks[t], q) ::
                  Mates(r, q) && r.sink == q.op.mode)
            && (forall j | 0 <= j < |s.jobs| :: AllMates(s.jobs[j].requests))
            && (s.held.Some? ==> AllMates(s.held.value.requests))
            && (forall j | 0 <= j < |s.running| ::
                  AllMates(s.running[j].job.requests)
                  && forall r | r in s.running[j].job.requests :: r.sink == s.running[j].job.key.mode)
  {
    KeysOverRuns(cfg, steps);
    var s := After(cfg, INITIAL, steps);
    hide After, IsRun, PureTask, Mates, InStage, AllMates, KeyOf;
    forall t, r, q | 0 <= t < |s.tasks| && InStage(s.tasks[t], r) && InStage(s.tasks[t], q)
      ensures Mates(r, q) && r.sink == q.op.mode
    {
      StageCarries(s.tasks[t], r);
      StageCarries(s.tasks[t], q);
      OneKeyIff(r, q);
    }
    forall j | 0 <= j < |s.jobs| ensures AllMates(s.jobs[j].requests) {
      CarryAllMates(s.jobs[j].key, s.jobs[j].requests);
    }
    if s.held.Some? {
      CarryAllMates(s.held.value.key, s.held.value.requests);
    }
    forall j | 0 <= j < |s.running| ensures AllMates(s.running[j].job.requests) {
      CarryAllMates(s.running[j].job.key, s.running[j].job.requests);
    }
    forall j, r | 0 <= j < |s.running| && r in s.running[j].job.requests
      ensures r.sink == s.running[j].job.key.mode
    {
      assert Carries(s.running[j].job.key, r);
    }
  }

  /** The converse, over every run: an `enqueue` call whose request is a mate of one that a mapped task
      holds is given the sender of that very task. */
  lemma MatesMeet(cfg: Config, steps: seq<Step>, a: nat, t: nat, r: Request)
    requires IsRun(cfg, INITIAL, steps)
    requires var s := After(cfg, INITIAL, steps);
             && a < |s.attempts| && s.attempts[a].stage.Looking?
             && t < |s.tasks| && (exists k :: k in s.batchers && s.batchers[k] == t)
             && InStage(s.tasks[t], r) && Mates(s.attempts[a].req, r)
    ensures var s := After(cfg, INITIAL, steps);
            var s' := Next(cfg, s, FindSender(a));
            s'.attempts[a].stage == Holding(t) && s'.tasks == s.tasks && s'.batchers == s.batchers
  {
    KeysOverRuns(cfg, steps);
    IsolatedRun(cfg, INITIAL, steps);
    var s := After(cfg, INITIAL, steps);
    hide After, IsRun, PureTask, Mates, InStage, KeyOf, TasksPure, AttemptsGood, JobsPure, RunningPure, PureJob;
    StageCarries(s.tasks[t], r);
    OneKeyIff(s.attempts[a].req, r);
  }
}
