/** The races around an idle exit do happen: concrete runs for every configuration with room in its
    channels and for all requests. */
module EvictionRaces {
  import opened Pipeline

  ghost predicate Reachable(cfg: Config, s: State) {
    exists steps :: IsRun(cfg, INITIAL, steps) && After(cfg, INITIAL, steps) == s
  }

  lemma {:induction false} RunSnoc(cfg: Config, s: State, steps: seq<Step>, step: Step)
    requires IsRun(cfg, s, steps) && Enabled(cfg, After(cfg, s, steps), step)
    ensures IsRun(cfg, s, steps + [step]) && After(cfg, s, steps + [step]) == Next(cfg, After(cfg, s, steps), step)
    decreases steps
  {
    hide Enabled, Next;
    if steps == [] {
      assert [] + [step] == [step] && [step][1..] == [];
      assert IsRun(cfg, Next(cfg, s, step), [step][1..]);
      assert After(cfg, Next(cfg, s, step), [step][1..]) == Next(cfg, s, step);
    } else {
      assert (steps + [step])[0] == steps[0] && (steps + [step])[1..] == steps[1..] + [step];
      RunSnoc(cfg, Next(cfg, s, steps[0]), steps[1..], step);
    }
  }

  lemma Start(cfg: Config)
    ensures Reachable(cfg, INITIAL)
  {
    assert IsRun(cfg, INITIAL, []) && After(cfg, INITIAL, []) == INITIAL;
  }

  lemma Reach(cfg: Config, s: State, step: Step) returns (s': State)
    requires Reachable(cfg, s) && Enabled(cfg, s, step)
    ensures s' == Next(cfg, s, step) && Reachable(cfg, s')
  {
    hide Enabled, Next, IsRun, After;
    var steps :| IsRun(cfg, INITIAL, steps) && After(cfg, INITIAL, steps) == s;
    RunSnoc(cfg, INITIAL, steps, step);
    s' := Next(cfg, s, step);
  }

  /** A first request opens a task for its key. */
  lemma OpenFirst(cfg: Config, req: Request) returns (s: State)
    requires FromHandler(req)
    ensures Reachable(cfg, s) && s.submitted == multiset{req} && s.dropped == multiset{}
    ensures s.attempts == [Attempt(req, Holding(0), 1)] && s.batchers == map[KeyOf(req) := 0]
    ensures s.tasks == [Task(KeyOf(req), req.op.maxBatchSize, [], Receiving, [], [], false)]
  {
    hide KeyOf, Reachable, DoReceive, DoFlush, DoSubmitParcel, DoFinishJob, HasSender;
    Start(cfg);
    s := Reach(cfg, INITIAL, Submit(req));
    s := Reach(cfg, s, FindSender(0));
  }

  /** Any request can be accepted and then dropped with its task's channel. */
  lemma AcceptedThenDropped(cfg: Config, req: Request)
    requires cfg.queueDepth >= 1 && FromHandler(req)
    ensures exists s :: Reachable(cfg, s) && s.submitted == s.dropped == multiset{req}
  {
    hide KeyOf, Reachable, DoReceive, DoFlush, DoSubmitParcel, DoFinishJob, HasSender;
    var s := OpenFirst(cfg, req);
    s := Reach(cfg, s, TrySend(0));
    assert s.tasks[0].queue == [req];
    s := Reach(cfg, s, IdleExit(0));
  }

  /** The task has left while the enqueue call held its sender, and the call looks again. */
  lemma StaleRetry(cfg: Config, req: Request) returns (s: State)
    requires FromHandler(req)
    ensures Reachable(cfg, s) && s.submitted == multiset{req} && s.dropped == multiset{}
    ensures s.attempts == [Attempt(req, Looking, 1)] && s.batchers == map[]
    ensures |s.tasks| == 1 && s.tasks[0].key == KeyOf(req) && s.tasks[0].phase.Leaving?
  {
    hide KeyOf, Reachable, DoReceive, DoFlush, DoSubmitParcel, DoFinishJob, HasSender;
    s := OpenFirst(cfg, req);
    s := Reach(cfg, s, IdleExit(0));
    s := Reach(cfg, s, TrySend(0));
    s := Reach(cfg, s, RemoveStale(0));
  }

  /** A retry that found its first channel closed has been accepted by a second task. */
  lemma SecondTask(cfg: Config, req: Request) returns (s: State)
    requires cfg.queueDepth >= 1 && FromHandler(req)
    ensures Reachable(cfg, s) && s.submitted == multiset{req} && s.dropped == multiset{}
    ensures s.attempts == [] && s.batchers == map[KeyOf(req) := 1] && |s.tasks| == 2
    ensures s.tasks[0].key == KeyOf(req) && s.tasks[0].phase.Leaving?
    ensures s.tasks[1] == Task(KeyOf(req), req.op.maxBatchSize, [req], Receiving, [req], [], false)
  {
    hide KeyOf, Reachable, DoReceive, DoFlush, DoSubmitParcel, DoIdleExit, DoFinishJob, HasSender;
    s := StaleRetry(cfg, req);
    s := Reach(cfg, s, FindSender(0));
    s := Reach(cfg, s, TrySend(0));
  }

  /** Two tasks of one key can be alive at once: the first task's late removal takes the second
      one's sender out of the map, so a third is opened while the second still has a request. */
  lemma TwoLiveTasks(cfg: Config, early: Request, late: Request)
    requires cfg.queueDepth >= 1 && FromHandler(early) && FromHandler(late)
    requires early.id != late.id && KeyOf(early) == KeyOf(late)
    ensures exists s :: Reachable(cfg, s) && |s.tasks| == 3 && s.batchers == map[KeyOf(late) := 2]
                        && s.tasks[1].key == s.tasks[2].key && s.tasks[1].Open() && s.tasks[2].Open()
                        && s.tasks[1].queue == [early] && s.dropped == multiset{}
  {
    hide KeyOf, Reachable, DoReceive, DoFlush, DoSubmitParcel, DoFinishJob, HasSender;
    hide DoIdleExit, DoTrySend, DoRemoveStale;
    var s := SecondTask(cfg, early);
    s := Reach(cfg, s, RemoveKey(0));
    assert s.batchers == map[];
    s := Reach(cfg, s, Submit(late));
    s := Reach(cfg, s, FindSender(0));
  }
}
