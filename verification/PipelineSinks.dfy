/** The sinks of the gateway over every run: ids stay distinct, each parcel is given exactly its own
    sinks, and each sink is used at most once and for good. */
module PipelineSinks {
  import opened Wire
  import opened Demux
  import opened Planning
  import opened Jobs
  import opened Pipeline
  import opened PipelineTheorems
  import opened FlushBatch

  // ---------------------------------------------------------------------------------------------
  // Distinct ids
  // ---------------------------------------------------------------------------------------------

  ghost predicate UniqueIds(s: State) {
    forall a, b | a in s.submitted && b in s.submitted && a.id == b.id :: a == b
  }

  /** Conservation with ids that name their requests. */
  ghost predicate Sound(s: State) {
    Conserved(s) && UniqueIds(s)
  }

  lemma UniqueStep(cfg: Config, s: State, step: Step)
    requires UniqueIds(s) && Enabled(cfg, s, step)
    ensures UniqueIds(Next(cfg, s, step))
  {
    SubmittedStep(cfg, s, step);
    hide Next;
  }

  lemma CountAt<X>(xs: seq<X>, i: nat, f: X -> multiset<Request>, r: Request)
    requires i < |xs|
    ensures f(xs[i])[r] <= Count(xs, f, r)
  {
    CountWithout(xs, i, f, r);
  }

  lemma TaskBelow(s: State, t: nat, r: Request)
    requires t < |s.tasks|
    ensures InTask(s.tasks[t])[r] + s.resolved[r] + s.rejected[r] + s.dropped[r] <= Everywhere(s, r)
  {
    hide Count;
    CountAt(s.tasks, t, InTask, r);
  }

  lemma AttemptBelow(s: State, a: nat, r: Request)
    requires a < |s.attempts|
    ensures InAttempt(s.attempts[a])[r] + s.resolved[r] + s.rejected[r] + s.dropped[r] <= Everywhere(s, r)
  {
    hide Count;
    CountAt(s.attempts, a, InAttempt, r);
  }

  lemma RunningBelow(s: State, j: nat, r: Request)
    requires j < |s.running|
    ensures InRunning(s.running[j])[r] + s.resolved[r] + s.rejected[r] + s.dropped[r] <= Everywhere(s, r)
  {
    hide Count;
    CountAt(s.running, j, InRunning, r);
  }

  lemma QueuedJobBelow(s: State, j: nat, r: Request)
    requires j < |s.jobs|
    ensures InJob(s.jobs[j])[r] <= Everywhere(s, r)
  {
    hide Count;
    CountAt(s.jobs, j, InJob, r);
  }

  lemma HeldBelow(s: State, r: Request)
    requires s.held.Some?
    ensures InJob(s.held.value)[r] <= Everywhere(s, r)
  {
    hide Count;
  }

  lemma TwiceInside(reqs: seq<Request>, i: nat, j: nat)
    requires i < j < |reqs| && reqs[i] == reqs[j]
    ensures multiset(reqs)[reqs[i]] >= 2
  {
    assert reqs == reqs[..j] + reqs[j..];
    assert reqs[..j][i] in reqs[..j] && reqs[j..][0] in reqs[j..];
  }

  /** What sits in one stage of a sound state was submitted and has distinct ids. */
  lemma StageDistinct(s: State, reqs: seq<Request>)
    requires Sound(s) && forall r :: multiset(reqs)[r] <= Everywhere(s, r)
    ensures DistinctReqs(reqs) && forall r | r in reqs :: r in s.submitted
  {
    hide Everywhere;
    forall r | r in reqs ensures r in s.submitted {
      assert multiset(reqs)[r] >= 1;
      assert Everywhere(s, r) == s.submitted[r];
    }
    forall i, j | 0 <= i < j < |reqs| ensures reqs[i].id != reqs[j].id {
      assert multiset(reqs)[reqs[i]] <= Everywhere(s, reqs[i]) == s.submitted[reqs[i]] <= 1;
      if reqs[i] == reqs[j] {
        TwiceInside(reqs, i, j);
      }
    }
  }

  lemma QueueDistinct(s: State, t: nat)
    requires Sound(s) && t < |s.tasks|
    ensures DistinctReqs(s.tasks[t].queue) && forall r | r in s.tasks[t].queue :: r in s.submitted
  {
    forall r ensures multiset(s.tasks[t].queue)[r] <= Everywhere(s, r) {
      TaskBelow(s, t, r);
    }
    hide Everywhere;
    StageDistinct(s, s.tasks[t].queue);
  }

  lemma BatchDistinct(s: State, t: nat)
    requires Sound(s) && t < |s.tasks| && s.tasks[t].phase.Collecting?
    ensures DistinctReqs(s.tasks[t].phase.batch) && forall r | r in s.tasks[t].phase.batch :: r in s.submitted
  {
    forall r ensures multiset(s.tasks[t].phase.batch)[r] <= Everywhere(s, r) {
      TaskBelow(s, t, r);
    }
    hide Everywhere;
    StageDistinct(s, s.tasks[t].phase.batch);
  }

  lemma ParcelDistinct(s: State, t: nat)
    requires Sound(s) && t < |s.tasks| && s.tasks[t].phase.Submitting? && s.tasks[t].phase.parcels != []
    ensures DistinctReqs(s.tasks[t].phase.parcels[0]) && forall r | r in s.tasks[t].phase.parcels[0] :: r in s.submitted
    ensures forall r :: multiset(s.tasks[t].phase.parcels[0])[r] + s.resolved[r] + s.dropped[r] <= Everywhere(s, r)
  {
    var phase := s.tasks[t].phase;
    forall r ensures multiset(phase.parcels[0])[r] + s.resolved[r] + s.dropped[r] <= Everywhere(s, r) {
      TaskBelow(s, t, r);
      FirstParcel(phase.parcels, phase.waitMs, r);
    }
    hide Everywhere;
    StageDistinct(s, phase.parcels[0]);
  }

  lemma RunningDistinct(s: State, j: nat)
    requires Sound(s) && j < |s.running|
    ensures DistinctReqs(s.running[j].job.requests) && forall r | r in s.running[j].job.requests :: r in s.submitted
  {
    forall r ensures multiset(s.running[j].job.requests)[r] <= Everywhere(s, r) {
      RunningBelow(s, j, r);
    }
    hide Everywhere;
    StageDistinct(s, s.running[j].job.requests);
  }

  // ---------------------------------------------------------------------------------------------
  // What each step uses up
  // ---------------------------------------------------------------------------------------------

  /** The requests whose sinks the step uses up. */
  function SettledBy(cfg: Config, s: State, step: Step): seq<Request>
    requires Enabled(cfg, s, step)
  {
    match step
    case SubmitParcel(t) =>
      var phase := s.tasks[t].phase;
      if phase.parcels != [] && ParcelReply(cfg, |s.jobs| >= JobQueueDepth(cfg), phase.parcels[0], phase.waitMs).Some?
      then phase.parcels[0] else []
    case IdleExit(t) => s.tasks[t].queue
    case FinishJob(j) => s.running[j].job.requests
    case _ => []
  }

  /** The settled bins, the ends and the requests behind them move together. */
  ghost predicate Settles(s: State, s': State, reqs: seq<Request>) {
    && s'.resolved + s'.dropped == s.resolved + s.dropped + multiset(reqs)
    && s'.ends.Keys == s.ends.Keys + ReqIds(reqs)
    && (forall id | id in s.ends && id !in ReqIds(reqs) :: s'.ends[id] == s.ends[id])
    && (forall id | id in ReqIds(reqs) :: !s'.ends[id].Live())
  }

  lemma NothingSettles(s: State, s': State)
    requires s'.resolved == s.resolved && s'.dropped == s.dropped && s'.ends == s.ends
    ensures Settles(s, s', [])
  {
  }

  lemma SameEndSettles(s: State, s': State, reqs: seq<Request>, c: Client)
    requires s'.resolved + s'.dropped == s.resolved + s.dropped + multiset(reqs)
    requires s'.ends == s.ends + AllEnd(reqs, c) && !c.Live()
    ensures Settles(s, s', reqs)
  {
  }

  lemma SubmitParcelSettles(cfg: Config, s: State, t: nat)
    requires Enabled(cfg, s, SubmitParcel(t))
    ensures Settles(s, DoSubmitParcel(cfg, s, t), SettledBy(cfg, s, SubmitParcel(t)))
  {
    hide ParcelReply, AllEnd, Settles;
    var phase, s' := s.tasks[t].phase, DoSubmitParcel(cfg, s, t);
    if phase.parcels == [] {
      NothingSettles(s, s');
    } else {
      match ParcelReply(cfg, |s.jobs| >= JobQueueDepth(cfg), phase.parcels[0], phase.waitMs)
      case None => NothingSettles(s, s');
      case Some(reply) =>
        assert s'.resolved == s.resolved + multiset(phase.parcels[0]);
        assert s'.resolved + s'.dropped == s.resolved + s.dropped + multiset(phase.parcels[0]);
        SameEndSettles(s, s', phase.parcels[0], Answered(reply));
    }
  }

  lemma IdleExitSettles(s: State, t: nat)
    requires t < |s.tasks|
    ensures Settles(s, DoIdleExit(s, t), s.tasks[t].queue)
    ensures forall id | id in ReqIds(s.tasks[t].queue) :: DoIdleExit(s, t).ends[id] == Dropped
  {
  }

  lemma FinishJobSettles(cfg: Config, s: State, j: nat)
    requires j < |s.running|
    ensures Settles(s, DoFinishJob(cfg, s, j), s.running[j].job.requests)
  {
    JobSettlesAll(cfg, s.running[j]);
    hide EndsOf, Settled;
  }

  lemma StepSettles(cfg: Config, s: State, step: Step)
    requires Enabled(cfg, s, step)
    ensures Settles(s, Next(cfg, s, step), SettledBy(cfg, s, step))
  {
    match step
    case SubmitParcel(t) => SubmitParcelSettles(cfg, s, t);
    case IdleExit(t) => IdleExitSettles(s, t);
    case FinishJob(j) => FinishJobSettles(cfg, s, j);
    case _ =>
      OthersSettleNothing(cfg, s, step);
      NothingSettles(s, Next(cfg, s, step));
  }

  lemma OthersSettleNothing(cfg: Config, s: State, step: Step)
    requires Enabled(cfg, s, step) && !step.SubmitParcel? && !step.IdleExit? && !step.FinishJob?
    ensures var s' := Next(cfg, s, step);
            s'.resolved == s.resolved && s'.dropped == s.dropped && s'.ends == s.ends && s'.finished == s.finished
    ensures SettledBy(cfg, s, step) == []
  {
    hide HasSender, KeyOf, FreshId, DoFindSender, DoTrySend, DoRemoveStale, DoReceive, DoFlush;
  }

  /** What a step settles was submitted, has distinct ids, and was not settled before. */
  lemma SettledFresh(cfg: Config, s: State, step: Step)
    requires Sound(s) && Enabled(cfg, s, step)
    ensures var reqs := SettledBy(cfg, s, step);
            && DistinctReqs(reqs) && (forall r | r in reqs :: r in s.submitted)
            && forall r | r in reqs :: s.resolved[r] + s.dropped[r] == 0
  {
    var reqs := SettledBy(cfg, s, step);
    match step {
      case SubmitParcel(t) =>
        if reqs != [] {
          ParcelDistinct(s, t);
        }
      case IdleExit(t) =>
        QueueDistinct(s, t);
        forall r ensures multiset(reqs)[r] + s.resolved[r] + s.dropped[r] <= Everywhere(s, r) {
          TaskBelow(s, t, r);
        }
      case FinishJob(j) =>
        RunningDistinct(s, j);
        forall r ensures multiset(reqs)[r] + s.resolved[r] + s.dropped[r] <= Everywhere(s, r) {
          RunningBelow(s, j, r);
        }
      case _ =>
    }
    hide Everywhere, ParcelReply;
    forall r | r in reqs ensures s.resolved[r] + s.dropped[r] == 0 {
      assert multiset(reqs)[r] >= 1;
      assert Everywhere(s, r) == s.submitted[r] <= 1;
    }
  }

  // ---------------------------------------------------------------------------------------------
  // Ends
  // ---------------------------------------------------------------------------------------------

  /** A request has been answered or dropped exactly if its sink has an end, and that end is final. */
  ghost predicate EndsAgree(s: State) {
    && (forall r | r in s.submitted :: s.resolved[r] + s.dropped[r] > 0 <==> r.id in s.ends)
    && (forall id | id in s.ends :: !s.ends[id].Live() && exists r :: r in s.submitted && r.id == id)
  }

  lemma MembersById(s: State, reqs: seq<Request>, r: Request)
    requires UniqueIds(s) && r in s.submitted && forall q | q in reqs :: q in s.submitted
    ensures r.id in ReqIds(reqs) <==> r in reqs
  {
    if r.id in ReqIds(reqs) {
      var i :| 0 <= i < |reqs| && reqs[i].id == r.id;
      assert reqs[i] in reqs;
    }
  }

  lemma BinsMove(s: State, s': State, reqs: seq<Request>, r: Request)
    requires Settles(s, s', reqs)
    ensures s'.resolved[r] + s'.dropped[r] == s.resolved[r] + s.dropped[r] + multiset(reqs)[r]
  {
    assert (s'.resolved + s'.dropped)[r] == (s.resolved + s.dropped + multiset(reqs))[r];
  }

  lemma WithId(reqs: seq<Request>, id: Id) returns (r: Request)
    requires id in ReqIds(reqs)
    ensures r in reqs && r.id == id
  {
    var i :| 0 <= i < |reqs| && reqs[i].id == id;
    r := reqs[i];
  }

  lemma UnseenUndecided(s: State, r: Request)
    requires Conserved(s) && r !in s.submitted
    ensures s.resolved[r] + s.rejected[r] + s.dropped[r] == 0
  {
    assert Everywhere(s, r) == s.submitted[r] == 0;
  }

  lemma NewcomerEnds(s: State, s': State, req: Request)
    requires EndsAgree(s) && s'.resolved == s.resolved && s'.dropped == s.dropped && s'.ends == s.ends
    requires s'.submitted == s.submitted + multiset{req} && s.resolved[req] + s.dropped[req] == 0
    requires forall r | r in s.submitted :: r.id != req.id
    ensures EndsAgree(s')
  {
  }

  /** A new request has a fresh id, and neither it nor its id has been settled. */
  lemma SubmitEnds(cfg: Config, s: State, req: Request)
    requires Sound(s) && EndsAgree(s) && Enabled(cfg, s, Submit(req))
    ensures EndsAgree(Next(cfg, s, Submit(req)))
  {
    UnseenUndecided(s, req);
    hide EndsAgree, Conserved, UniqueIds;
    NewcomerEnds(s, Next(cfg, s, Submit(req)), req);
  }

  lemma SettleEnds(s: State, s': State, reqs: seq<Request>)
    requires UniqueIds(s) && EndsAgree(s) && Settles(s, s', reqs) && s'.submitted == s.submitted
    requires forall r | r in reqs :: r in s.submitted && s.resolved[r] + s.dropped[r] == 0
    ensures EndsAgree(s')
    ensures forall id | id in s.ends :: id in s'.ends && s'.ends[id] == s.ends[id]
  {
    hide ReqIds;
    forall r | r in s.submitted ensures s'.resolved[r] + s'.dropped[r] > 0 <==> r.id in s'.ends {
      MembersById(s, reqs, r);
      BinsMove(s, s', reqs, r);
    }
    forall id | id in ReqIds(reqs) ensures id !in s.ends && exists r :: r in s'.submitted && r.id == id {
      var r := WithId(reqs, id);
    }
  }

  /** Every step keeps the ends in agreement, and no sink is used a second time. */
  lemma EndsStep(cfg: Config, s: State, step: Step)
    requires Sound(s) && EndsAgree(s) && Enabled(cfg, s, step)
    ensures EndsAgree(Next(cfg, s, step))
    ensures forall id | id in s.ends :: id in Next(cfg, s, step).ends && Next(cfg, s, step).ends[id] == s.ends[id]
  {
    if step.Submit? {
      SubmitEnds(cfg, s, step.req);
    } else {
      StepSettles(cfg, s, step);
      SettledFresh(cfg, s, step);
      SubmittedStep(cfg, s, step);
      hide Next, SettledBy, EndsAgree, Settles, Conserved;
      SettleEnds(s, Next(cfg, s, step), SettledBy(cfg, s, step));
    }
  }

  /** A request that `enqueue` did not take is the handler's to answer. */
  ghost predicate RefusalsAgree(s: State) {
    && (forall r | r in s.submitted :: s.rejected[r] > 0 <==> r.id in s.refused)
    && (forall id | id in s.refused :: exists r :: r in s.submitted && r.id == id)
  }

  lemma RefusalAdded(s: State, s': State, req: Request, error: EnqueueError)
    requires UniqueIds(s) && RefusalsAgree(s) && req in s.submitted
    requires s'.submitted == s.submitted && s'.rejected == s.rejected + multiset{req}
    requires s'.refused == s.refused[req.id := error]
    ensures RefusalsAgree(s')
  {
    forall r | r in s.submitted ensures s'.rejected[r] > 0 <==> r.id in s'.refused {
      assert s'.rejected[r] == s.rejected[r] + multiset{req}[r];
    }
  }

  lemma RefusalKept(s: State, s': State)
    requires RefusalsAgree(s) && s'.submitted == s.submitted && s'.rejected == s.rejected && s'.refused == s.refused
    ensures RefusalsAgree(s')
  {
  }

  lemma NewcomerRefusals(s: State, s': State, req: Request)
    requires RefusalsAgree(s) && s'.rejected == s.rejected && s'.refused == s.refused
    requires s'.submitted == s.submitted + multiset{req} && s.rejected[req] == 0
    requires forall r | r in s.submitted :: r.id != req.id
    ensures RefusalsAgree(s')
  {
  }

  lemma SubmitRefusals(cfg: Config, s: State, req: Request)
    requires Sound(s) && RefusalsAgree(s) && Enabled(cfg, s, Submit(req))
    ensures RefusalsAgree(Next(cfg, s, Submit(req)))
  {
    UnseenUndecided(s, req);
    hide RefusalsAgree, Conserved, UniqueIds;
    NewcomerRefusals(s, Next(cfg, s, Submit(req)), req);
  }

  /** A request still being enqueued has been submitted, and nothing has become of it yet. */
  lemma AttemptUndecided(s: State, a: nat)
    requires Sound(s) && a < |s.attempts|
    ensures var r := s.attempts[a].req;
            r in s.submitted && s.resolved[r] + s.rejected[r] + s.dropped[r] == 0
  {
    var r := s.attempts[a].req;
    AttemptBelow(s, a, r);
    assert InAttempt(s.attempts[a])[r] == 1;
    hide Everywhere;
    assert Everywhere(s, r) == s.submitted[r] <= 1;
  }

  lemma TrySendRefusals(cfg: Config, s: State, a: nat)
    requires Sound(s) && RefusalsAgree(s) && Enabled(cfg, s, TrySend(a))
    ensures RefusalsAgree(DoTrySend(cfg, s, a))
  {
    hide RefusalsAgree, Conserved, UniqueIds;
    AttemptUndecided(s, a);
    var t := s.attempts[a].stage.task;
    if s.tasks[t].Open() && |s.tasks[t].queue| >= cfg.queueDepth {
      RefusalAdded(s, DoTrySend(cfg, s, a), s.attempts[a].req, QueueFull);
    } else {
      RefusalKept(s, DoTrySend(cfg, s, a));
    }
  }

  lemma RemoveStaleRefusals(s: State, a: nat)
    requires Sound(s) && RefusalsAgree(s) && a < |s.attempts|
    ensures RefusalsAgree(DoRemoveStale(s, a))
  {
    hide RefusalsAgree, Conserved, UniqueIds, KeyOf;
    AttemptUndecided(s, a);
    if s.attempts[a].tries < 2 {
      RefusalKept(s, DoRemoveStale(s, a));
    } else {
      RefusalAdded(s, DoRemoveStale(s, a), s.attempts[a].req, BatcherClosed);
    }
  }

  lemma OthersRefuseNobody(cfg: Config, s: State, step: Step)
    requires Enabled(cfg, s, step) && !step.Submit? && !step.TrySend? && !step.RemoveStale?
    ensures var s' := Next(cfg, s, step);
            s'.submitted == s.submitted && s'.rejected == s.rejected && s'.refused == s.refused
  {
    hide HasSender, KeyOf, FreshId, DoFindSender, DoReceive, DoFlush, DoSubmitParcel, DoIdleExit, DoFinishJob;
  }

  lemma RefusalsStep(cfg: Config, s: State, step: Step)
    requires Sound(s) && RefusalsAgree(s) && Enabled(cfg, s, step)
    ensures RefusalsAgree(Next(cfg, s, step))
  {
    match step
    case Submit(req) => SubmitRefusals(cfg, s, req);
    case TrySend(a) => TrySendRefusals(cfg, s, a);
    case RemoveStale(a) => RemoveStaleRefusals(s, a);
    case _ =>
      OthersRefuseNobody(cfg, s, step);
      hide Next, RefusalsAgree;
      RefusalKept(s, Next(cfg, s, step));
  }

  /** The sink of a handler that listens is not found gone. */
  lemma DeafStep(cfg: Config, s: State, step: Step)
    requires GoneOnlyDeaf(cfg.alive, s.ends) && Enabled(cfg, s, step)
    ensures GoneOnlyDeaf(cfg.alive, Next(cfg, s, step).ends)
  {
    match step
    case SubmitParcel(t) =>
      hide ParcelReply;
    case IdleExit(t) =>
    case FinishJob(j) =>
      var run := s.running[j];
      JobLosesOnlyDeaf(cfg.lib, cfg.alive, run.job.key.mode, ReqIds(run.job.requests), run.job.waitMs, run.outcome);
      hide Deaf, JobEnds, Settled;
    case _ =>
      OthersSettleNothing(cfg, s, step);
  }

  lemma AttemptNotRefused(s: State, a: nat)
    requires Sound(s) && RefusalsAgree(s) && a < |s.attempts|
    ensures s.attempts[a].req.id !in s.refused
  {
    AttemptUndecided(s, a);
    hide Conserved;
  }

  ghost predicate Extends<V>(before: map<Id, V>, after: map<Id, V>) {
    forall id | id in before :: id in after && after[id] == before[id]
  }

  lemma AttemptRefusals(cfg: Config, s: State, step: Step)
    requires Enabled(cfg, s, step) && (step.TrySend? || step.RemoveStale?)
    requires s.attempts[step.a].req.id !in s.refused
    ensures Extends(s.refused, Next(cfg, s, step).refused)
  {
    hide KeyOf;
    if step.TrySend? {
      assert DoTrySend(cfg, s, step.a).refused in {s.refused, s.refused[s.attempts[step.a].req.id := QueueFull]};
    } else {
      assert DoRemoveStale(s, step.a).refused in {s.refused, s.refused[s.attempts[step.a].req.id := BatcherClosed]};
    }
  }

  /** What `enqueue` has told a handler stands. */
  lemma RefusedStands(cfg: Config, s: State, step: Step)
    requires Sound(s) && RefusalsAgree(s) && Enabled(cfg, s, step)
    ensures Extends(s.refused, Next(cfg, s, step).refused)
  {
    if step.TrySend? || step.RemoveStale? {
      AttemptNotRefused(s, step.a);
      hide Conserved, UniqueIds, RefusalsAgree, Extends, Next;
      AttemptRefusals(cfg, s, step);
    } else if step.Submit? {
      hide Conserved, UniqueIds, RefusalsAgree, FreshId;
    } else {
      OthersRefuseNobody(cfg, s, step);
      hide Next;
    }
  }

  // ---------------------------------------------------------------------------------------------
  // Over every run
  // ---------------------------------------------------------------------------------------------

  ghost predicate SinkInv(s: State) {
    Sound(s) && EndsAgree(s) && RefusalsAgree(s)
  }

  lemma SinkInvStep(cfg: Config, s: State, step: Step)
    requires SinkInv(s) && Enabled(cfg, s, step)
    ensures SinkInv(Next(cfg, s, step))
  {
    hide Next, EndsAgree, RefusalsAgree, Conserved, UniqueIds;
    ConservedStep(cfg, s, step);
    UniqueStep(cfg, s, step);
    EndsStep(cfg, s, step);
    RefusalsStep(cfg, s, step);
  }

  lemma {:induction false} SinkInvRun(cfg: Config, s: State, steps: seq<Step>)
    requires SinkInv(s) && IsRun(cfg, s, steps)
    ensures SinkInv(After(cfg, s, steps))
    decreases steps
  {
    hide SinkInv, Enabled, Next;
    if steps == [] {
    } else {
      SinkInvStep(cfg, s, steps[0]);
      SinkInvRun(cfg, Next(cfg, s, steps[0]), steps[1..]);
    }
  }

  lemma InitialSinks()
    ensures SinkInv(INITIAL)
  {
    assert Conserved(INITIAL);
  }

  /** A sink that has been used is never used again, whatever happens afterwards. */
  lemma {:induction false} SinkUsedOnce(cfg: Config, s: State, steps: seq<Step>, id: Id)
    requires SinkInv(s) && IsRun(cfg, s, steps) && id in s.ends
    ensures id in After(cfg, s, steps).ends && After(cfg, s, steps).ends[id] == s.ends[id]
    decreases steps
  {
    hide SinkInv, Enabled, Next;
    if steps == [] {
    } else {
      EndsStepOfInv(cfg, s, steps[0]);
      SinkInvStep(cfg, s, steps[0]);
      SinkUsedOnce(cfg, Next(cfg, s, steps[0]), steps[1..], id);
    }
  }

  lemma EndsStepOfInv(cfg: Config, s: State, step: Step)
    requires SinkInv(s) && Enabled(cfg, s, step)
    ensures forall id | id in s.ends :: id in Next(cfg, s, step).ends && Next(cfg, s, step).ends[id] == s.ends[id]
  {
    hide Next, Conserved;
    EndsStep(cfg, s, step);
  }

  /** How often the request sits in a stage between `enqueue` and the end of its job. */
  function OnItsWay(s: State, r: Request): nat {
    Count(s.attempts, InAttempt, r) + Count(s.tasks, InTask, r) + Count(s.jobs, InJob, r) + InHeld(s.held)[r]
    + Count(s.running, InRunning, r)
  }

  lemma Accounted(s: State, r: Request)
    requires SinkInv(s) && r in s.submitted
    ensures r.id in s.ends ==> !s.ends[r.id].Live() && r.id !in s.refused
    ensures OnItsWay(s, r) + (if r.id in s.refused then 1 else 0) + (if r.id in s.ends then 1 else 0) == 1
  {
    assert Everywhere(s, r) == s.submitted[r] == 1;
    hide Count;
  }

  /** Conservation down to the sinks, over every run: a request handed in is still on its way, once; or
      it was refused, and its handler was told; or its sink has been used, and it is counted there
      and nowhere else. */
  lemma EverySinkAccountedFor(cfg: Config, steps: seq<Step>, r: Request)
    requires IsRun(cfg, INITIAL, steps) && r in After(cfg, INITIAL, steps).submitted
    ensures var s := After(cfg, INITIAL, steps);
            && (r.id in s.ends ==> !s.ends[r.id].Live() && r.id !in s.refused)
            && OnItsWay(s, r) + (if r.id in s.refused then 1 else 0) + (if r.id in s.ends then 1 else 0) == 1
  {
    InitialSinks();
    SinkInvRun(cfg, INITIAL, steps);
    hide OnItsWay, SinkInv;
    Accounted(After(cfg, INITIAL, steps), r);
  }

  /** Over every run, when a task flushes its batch: the ids are distinct, all sinks are of the batch's
      own kind, and each plan is given exactly the sinks of its own parcel. */
  lemma FlushSharesOutSinks(cfg: Config, steps: seq<Step>, t: nat, waitMs: nat)
    requires IsRun(cfg, INITIAL, steps) && t < |After(cfg, INITIAL, steps).tasks|
    requires After(cfg, INITIAL, steps).tasks[t].phase.Collecting?
    ensures var task := After(cfg, INITIAL, steps).tasks[t];
            var batch, mode := task.phase.batch, task.key.mode;
            var parcels := Segments(Encode(cfg), cfg.limit, batch);
            var plans := Plans(cfg.encode, cfg.limit, Segments(cfg.encode, cfg.limit, ItemsOf(cfg, batch)),
                               SinksOf(OfKind(batch, mode)));
            && DistinctReqs(batch)
            && OfKind(batch, mode) == batch
            && OfKind(batch, if mode == BufferedMode then StreamMode else BufferedMode) == []
            && |plans| == |parcels|
            && forall i | 0 <= i < |plans| ::
                 && plans[i].pending == SinksOf(parcels[i]) && |plans[i].pending| == |parcels[i]|
                 && (plans[i].Invoke? <==> ParcelReply(cfg, false, parcels[i], waitMs).None?)
  {
    InitialSinks();
    SinkInvRun(cfg, INITIAL, steps);
    IsolatedRun(cfg, INITIAL, steps);
    var s := After(cfg, INITIAL, steps);
    BatchDistinct(s, t);
    assert PureTask(s.tasks[t]);
    var batch := s.tasks[t].phase.batch;
    OneKind(s.tasks[t].key, batch);
    hide After, IsRun, Segments, Plans, SinksOf, OfKind, ParcelReply, DistinctReqs, Conserved, Isolated, ItemsOf,
         SinkInv;
    forall i: nat | i < |Segments(Encode(cfg), cfg.limit, batch)|
      ensures var parcel := Segments(Encode(cfg), cfg.limit, batch)[i];
              var plans := Plans(cfg.encode, cfg.limit, Segments(cfg.encode, cfg.limit, ItemsOf(cfg, batch)),
                                 SinksOf(batch));
              && |plans| == |Segments(Encode(cfg), cfg.limit, batch)|
              && plans[i].pending == SinksOf(parcel) && |plans[i].pending| == |parcel|
              && (plans[i].Invoke? <==> ParcelReply(cfg, false, parcel, waitMs).None?)
    {
      PlansHoldParcels(cfg, batch, waitMs, i);
    }
    SameCut(cfg, batch);
  }

  lemma {:induction false} OneKind(key: Key, reqs: seq<Request>)
    requires AllCarry(key, reqs)
    ensures OfKind(reqs, key.mode) == reqs
    ensures OfKind(reqs, if key.mode == BufferedMode then StreamMode else BufferedMode) == []
  {
    if reqs == [] {
    } else {
      var n := |reqs| - 1;
      OneKind(key, reqs[..n]);
      assert Carries(key, reqs[n]);
    }
  }

  /** Every queued, held or running job has one sink for each of its requests. */
  lemma JobsHaveDistinctIds(cfg: Config, steps: seq<Step>)
    requires IsRun(cfg, INITIAL, steps)
    ensures var s := After(cfg, INITIAL, steps);
            && (forall j | 0 <= j < |s.jobs| :: DistinctReqs(s.jobs[j].requests))
            && (s.held.Some? ==> DistinctReqs(s.held.value.requests))
            && (forall j | 0 <= j < |s.running| :: DistinctReqs(s.running[j].job.requests))
  {
    InitialSinks();
    SinkInvRun(cfg, INITIAL, steps);
    var s := After(cfg, INITIAL, steps);
    hide After, IsRun, EndsAgree, RefusalsAgree, DistinctReqs;
    forall j | 0 <= j < |s.jobs| ensures DistinctReqs(s.jobs[j].requests) {
      forall r ensures multiset(s.jobs[j].requests)[r] <= Everywhere(s, r) {
        QueuedJobBelow(s, j, r);
      }
      StageDistinct(s, s.jobs[j].requests);
    }
    if s.held.Some? {
      forall r ensures multiset(s.held.value.requests)[r] <= Everywhere(s, r) {
        HeldBelow(s, r);
      }
      StageDistinct(s, s.held.value.requests);
    }
    forall j | 0 <= j < |s.running| ensures DistinctReqs(s.running[j].job.requests) {
      RunningDistinct(s, j);
    }
  }
}
