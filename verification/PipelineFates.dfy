/** What becomes of each sink, known as soon as its job runs, and where every end comes from. */
module PipelineFates {
  import opened Wire
  import opened Demux
  import opened Pipeline
  import opened PipelineTheorems
  import opened FlushBatch
  import opened PipelineSinks

  predicate InRun(cfg: Config, run: Running, id: Id, c: Client) {
    id in ReqIds(run.job.requests) && id in EndsOf(cfg, run) && EndsOf(cfg, run)[id] == c
  }

  /** What a sink comes to: how it has ended, or how the running job that holds it will end it. Its
      first message may reach the handler before the job is over. */
  predicate Fated(cfg: Config, s: State, id: Id, c: Client) {
    (id in s.ends && s.ends[id] == c) || exists j :: 0 <= j < |s.running| && InRun(cfg, s.running[j], id, c)
  }

  lemma KeptWithout<X>(xs: seq<X>, j: nat, i: nat)
    requires j < |xs| && i < |xs| && i != j
    ensures exists k :: 0 <= k < |Without(xs, j)| && Without(xs, j)[k] == xs[i]
  {
    var k := if i < j then i else i - 1;
    assert Without(xs, j)[k] == xs[i];
  }

  lemma FinishJobFates(cfg: Config, s: State, j: nat, id: Id, c: Client)
    requires j < |s.running| && Extends(s.ends, DoFinishJob(cfg, s, j).ends) && Fated(cfg, s, id, c)
    ensures Fated(cfg, DoFinishJob(cfg, s, j), id, c)
  {
    hide EndsOf, Settled, ReqIds;
    if !(id in s.ends && s.ends[id] == c) {
      var i :| 0 <= i < |s.running| && InRun(cfg, s.running[i], id, c);
      if i != j {
        KeptWithout(s.running, j, i);
      }
    }
  }

  lemma SpawnFates(cfg: Config, s: State, s': State, run: Running, id: Id, c: Client)
    requires s'.running == s.running + [run] && s'.ends == s.ends && Fated(cfg, s, id, c)
    ensures Fated(cfg, s', id, c)
  {
    hide InRun;
    if !(id in s.ends && s.ends[id] == c) {
      var i :| 0 <= i < |s.running| && InRun(cfg, s.running[i], id, c);
      assert s'.running[i] == s.running[i];
    }
  }

  lemma OthersKeepRunning(cfg: Config, s: State, step: Step)
    requires Enabled(cfg, s, step) && !step.Spawn? && !step.FinishJob?
    ensures Next(cfg, s, step).running == s.running
  {
    hide HasSender, KeyOf, FreshId, DoFindSender, DoTrySend, DoRemoveStale, DoReceive, DoFlush, DoSubmitParcel,
         DoIdleExit;
  }

  /** A fate stands. */
  lemma FateStands(cfg: Config, s: State, step: Step, id: Id, c: Client)
    requires Sound(s) && EndsAgree(s) && Enabled(cfg, s, step) && Fated(cfg, s, id, c)
    ensures Fated(cfg, Next(cfg, s, step), id, c)
  {
    hide InRun, Conserved, UniqueIds, EndsAgree;
    EndsStep(cfg, s, step);
    match step
    case FinishJob(j) => FinishJobFates(cfg, s, j, id, c);
    case Spawn(outcome) => SpawnFates(cfg, s, Next(cfg, s, step), Running(s.held.value, outcome), id, c);
    case _ =>
      OthersKeepRunning(cfg, s, step);
      hide Next;
  }

  lemma CountTwo<X>(xs: seq<X>, i: nat, j: nat, f: X -> multiset<Request>, r: Request)
    requires i < |xs| && j < |xs| && i != j
    ensures f(xs[i])[r] + f(xs[j])[r] <= Count(xs, f, r)
  {
    CountWithout(xs, i, f, r);
    var k := if j < i then j else j - 1;
    CountAt(Without(xs, i), k, f, r);
  }

  lemma RequestOf(s: State, j: nat, id: Id) returns (r: Request)
    requires Sound(s) && j < |s.running| && id in ReqIds(s.running[j].job.requests)
    ensures r.id == id && r in s.submitted && InRunning(s.running[j])[r] >= 1
    ensures s.resolved[r] + s.dropped[r] == 0
  {
    RunningDistinct(s, j);
    r := WithId(s.running[j].job.requests, id);
    assert multiset(s.running[j].job.requests)[r] >= 1;
    RunningBelow(s, j, r);
    hide Everywhere;
    assert Everywhere(s, r) == s.submitted[r] <= 1;
  }

  lemma OneJobPerId(s: State, i: nat, j: nat, id: Id)
    requires Sound(s) && i < |s.running| && j < |s.running|
    requires id in ReqIds(s.running[i].job.requests) && id in ReqIds(s.running[j].job.requests)
    ensures i == j
  {
    var q := RequestOf(s, i, id);
    var r := RequestOf(s, j, id);
    assert q == r;
    assert Everywhere(s, r) == s.submitted[r] <= 1;
    if i != j {
      CountTwo(s.running, i, j, InRunning, r);
    }
  }

  lemma RunningNotEnded(s: State, j: nat, id: Id)
    requires Sound(s) && EndsAgree(s) && j < |s.running| && id in ReqIds(s.running[j].job.requests)
    ensures id !in s.ends
  {
    hide ReqIds, Conserved;
    var r := RequestOf(s, j, id);
  }

  lemma OneRunningFate(cfg: Config, s: State, i: nat, j: nat, id: Id, c: Client, d: Client)
    requires Sound(s) && i < |s.running| && j < |s.running|
    requires InRun(cfg, s.running[i], id, c) && InRun(cfg, s.running[j], id, d)
    ensures c == d
  {
    hide EndsOf, ReqIds, Conserved, UniqueIds;
    OneJobPerId(s, i, j, id);
  }

  /** A sink has at most one fate. */
  lemma OneFate(cfg: Config, s: State, id: Id, c: Client, d: Client)
    requires Sound(s) && EndsAgree(s) && Fated(cfg, s, id, c) && Fated(cfg, s, id, d)
    ensures c == d
  {
    hide EndsOf, ReqIds, Sound, EndsAgree;
    if id in s.ends {
      forall i | 0 <= i < |s.running| ensures id !in ReqIds(s.running[i].job.requests) {
        if id in ReqIds(s.running[i].job.requests) {
          RunningNotEnded(s, i, id);
        }
      }
    } else {
      hide InRun;
      var i :| 0 <= i < |s.running| && InRun(cfg, s.running[i], id, c);
      var j :| 0 <= j < |s.running| && InRun(cfg, s.running[j], id, d);
      OneRunningFate(cfg, s, i, j, id, c, d);
    }
  }

  /** The ends that the gateway itself makes: a refused plan, or an idle exit. */
  predicate GatewayEnd(c: Client) {
    c == Dropped
    || (c.Answered? && c.response.body.Text?
        && (c.response.body.message.NotInvoked? || c.response.body.message.Overloaded?))
  }

  ghost predicate MadeBy(cfg: Config, finished: seq<Running>, id: Id, c: Client) {
    exists j :: 0 <= j < |finished| && InRun(cfg, finished[j], id, c)
  }

  /** Every other end is what one finished job, with one sink per request, made of its own sink. */
  ghost predicate Traced(cfg: Config, s: State) {
    && (forall id | id in s.ends :: GatewayEnd(s.ends[id]) || MadeBy(cfg, s.finished, id, s.ends[id]))
    && (forall j | 0 <= j < |s.finished| :: DistinctReqs(s.finished[j].job.requests))
  }

  lemma TracedMore(cfg: Config, s: State, s': State, reqs: seq<Request>, c: Client)
    requires Traced(cfg, s) && s'.finished == s.finished && s'.ends == s.ends + AllEnd(reqs, c) && GatewayEnd(c)
    ensures Traced(cfg, s')
  {
    hide MadeBy, DistinctReqs;
  }

  lemma MadeByMore(cfg: Config, finished: seq<Running>, run: Running, id: Id, c: Client)
    ensures MadeBy(cfg, finished, id, c) ==> MadeBy(cfg, finished + [run], id, c)
    ensures InRun(cfg, run, id, c) ==> MadeBy(cfg, finished + [run], id, c)
  {
    hide InRun;
    var more := finished + [run];
    assert more[|finished|] == run;
    if i :| 0 <= i < |finished| && InRun(cfg, finished[i], id, c) {
      assert more[i] == finished[i];
    }
  }

  lemma FinishedTraced(cfg: Config, s: State, s': State, run: Running)
    requires Traced(cfg, s) && DistinctReqs(run.job.requests) && EndsOf(cfg, run).Keys == ReqIds(run.job.requests)
    requires s'.finished == s.finished + [run] && s'.ends == s.ends + EndsOf(cfg, run)
    ensures Traced(cfg, s')
  {
    hide EndsOf, DistinctReqs, ReqIds, MadeBy, GatewayEnd;
    forall id | id in s'.ends ensures GatewayEnd(s'.ends[id]) || MadeBy(cfg, s'.finished, id, s'.ends[id]) {
      MadeByMore(cfg, s.finished, run, id, s'.ends[id]);
    }
  }

  lemma FinishJobTraced(cfg: Config, s: State, j: nat)
    requires Sound(s) && Traced(cfg, s) && j < |s.running|
    ensures Traced(cfg, DoFinishJob(cfg, s, j))
  {
    RunningDistinct(s, j);
    JobSettlesAll(cfg, s.running[j]);
    hide EndsOf, Settled, Sound, DistinctReqs, ReqIds, Traced;
    FinishedTraced(cfg, s, DoFinishJob(cfg, s, j), s.running[j]);
  }

  lemma SameTraced(cfg: Config, s: State, s': State)
    requires Traced(cfg, s) && s'.ends == s.ends && s'.finished == s.finished
    ensures Traced(cfg, s')
  {
  }

  lemma SubmitParcelTraced(cfg: Config, s: State, t: nat)
    requires Traced(cfg, s) && t < |s.tasks| && s.tasks[t].phase.Submitting?
    ensures Traced(cfg, DoSubmitParcel(cfg, s, t))
  {
    hide AllEnd, Traced;
    var phase, s' := s.tasks[t].phase, DoSubmitParcel(cfg, s, t);
    if phase.parcels == [] {
      SameTraced(cfg, s, s');
    } else {
      match ParcelReply(cfg, |s.jobs| >= JobQueueDepth(cfg), phase.parcels[0], phase.waitMs)
      case None => SameTraced(cfg, s, s');
      case Some(reply) =>
        TracedMore(cfg, s, s', phase.parcels[0], Answered(reply));
    }
  }

  lemma TracedStep(cfg: Config, s: State, step: Step)
    requires Sound(s) && Traced(cfg, s) && Enabled(cfg, s, step)
    ensures Traced(cfg, Next(cfg, s, step))
  {
    hide Traced, Sound;
    match step
    case SubmitParcel(t) => SubmitParcelTraced(cfg, s, t);
    case IdleExit(t) => TracedMore(cfg, s, DoIdleExit(s, t), s.tasks[t].queue, Dropped);
    case FinishJob(j) => FinishJobTraced(cfg, s, j);
    case _ =>
      OthersSettleNothing(cfg, s, step);
      SameTraced(cfg, s, Next(cfg, s, step));
  }
}
