/** What the proxy guarantees over every interleaving in which no pass-through invocation is completed
    again while a completion of it is being forwarded, and which batches it can finish. */
module ProxyTheorems {
  import opened Wire
  import opened Proxy
  import opened ProxyRuns

  lemma {:induction false} ElementsCount(ids: seq<Id>)
    requires NoRepeats(ids)
    ensures |Elements(ids)| == |ids|
  {
    if ids == [] {
      assert Elements(ids) == {};
    } else {
      var front, last := ids[..|ids| - 1], ids[|ids| - 1];
      ElementsCount(front);
      assert ids == front + [last] && last !in front;
      assert Elements(ids) == Elements(front) + {last};
    }
  }

  lemma SplitCount(all: set<Id>, part: set<Id>)
    requires part <= all
    ensures |all - part| + |part| == |all|
  {
    assert all == (all - part) + part;
  }

  lemma Prefix(a: seq<Id>, b: seq<Id>)
    requires NoRepeats(a + b)
    ensures NoRepeats(a) && NoRepeats(b) && Elements(a) !! Elements(b)
    ensures Elements(a + b) == Elements(a) + Elements(b)
  {
    assert forall i | 0 <= i < |a| :: a[i] == (a + b)[i];
    assert forall i | 0 <= i < |b| :: b[i] == (a + b)[|a| + i];
  }

  // ---------------------------------------------------------------------------------------------
  // Exactly once
  // ---------------------------------------------------------------------------------------------

  lemma Disjointness(w: World, s: Sys)
    requires s.inner.active.SmugBatch? && BatchInv(w, s)
    ensures var queued, inflight := Elements(IdsOf(s.inner.active.queue)), s.inner.active.inflight;
            var completed := Elements(s.completed);
            && queued !! inflight !! completed
            && queued + inflight + completed == Elements(IdsOf(s.batch))
            && |s.inner.active.queue| + |inflight| + |s.completed| == |s.batch|
  {
    var taken, queued := TakenIds(s), IdsOf(s.inner.active.queue);
    assert IdsOf(s.batch) == taken + queued;
    Prefix(taken, queued);
    ElementsCount(s.completed);
    ElementsCount(taken);
    hide NoRepeats, Elements, HandedInOrder;
    SplitCount(Elements(taken), Elements(s.completed));
  }

  /** In every reachable live batch the queued, in-flight and completed ids are pairwise disjoint,
      together are the batch's ids, and one line per completed id has been written, in order. */
  lemma ExactlyOnce(w: World, steps: seq<Step>)
    requires IsRun(w, INITIAL, steps) && Calm(w, INITIAL, steps)
    requires After(w, INITIAL, steps).inner.active.SmugBatch?
    ensures var s := After(w, INITIAL, steps);
            var queued, inflight := Elements(IdsOf(s.inner.active.queue)), s.inner.active.inflight;
            var completed := Elements(s.completed);
            && queued !! inflight !! completed
            && queued + inflight + completed == Elements(IdsOf(s.batch))
            && |s.inner.active.queue| + |inflight| + |s.completed| == |s.batch|
            && OwnLines(w, s)
  {
    InvRun(w, INITIAL, steps);
    Disjointness(w, After(w, INITIAL, steps));
  }

  /** Workers are handed the items of the batch in order, each once, each id with its own event; a
      poll that meets an id that is no header value takes it all the same. */
  lemma WorkersGetOwnItems(w: World, steps: seq<Step>)
    requires IsRun(w, INITIAL, steps) && Calm(w, INITIAL, steps)
    ensures var s := After(w, INITIAL, steps);
            s.inner.active.SmugBatch? ==> HandedInOrder(w, s) && s.batch[|s.handed|..] == s.inner.active.queue
    ensures var s := After(w, INITIAL, steps);
            s.inner.active.SmugFinalizing? ==> HandedInOrder(w, s) && |s.handed| == |s.batch|
  {
    InvRun(w, INITIAL, steps);
  }

  /** Two units of work for a queued id, one for an id in flight. */
  function Measure(active: Active): nat {
    match active
    case SmugBatch(_, queue, inflight, _, _) => 2 * |queue| + |inflight|
    case _ => 0
  }

  predicate Progresses(s: Sys, step: Step) {
    s.inner.active.SmugBatch? &&
    match step
    case Poll => s.inner.active.queue != []
    case Post(id, _) => id in s.inner.active.inflight
    case _ => false
  }

  lemma PollMeasure(w: World, s: Sys)
    requires s.inner.active.SmugBatch? && s.inner.active.queue != []
    requires s.inner.active.queue[0].id !in s.inner.active.inflight
    ensures Measure(Next(w, s, Poll).inner.active) == Measure(s.inner.active) - 1
  {
  }

  lemma PostMeasure(w: World, s: Sys, id: Id, posted: Posted)
    requires s.inner.active.SmugBatch? && id in s.inner.active.inflight
    ensures Measure(Next(w, s, Post(id, posted)).inner.active) == Measure(s.inner.active) - 1
  {
    SplitCount(s.inner.active.inflight, {id});
  }

  lemma IdleStep(w: World, s: Sys, step: Step)
    requires Inv(w, s) && s.inner.active.SmugBatch? && Enabled(s, step) && !Progresses(s, step)
    ensures Next(w, s, step) == s
  {
    hide BatchInv;
  }

  /** A live batch moves by deliveries and known completions only, each taking exactly one unit off
      the measure; every other step, in particular a repeated or unknown completion, leaves the
      batch and its lines as they are. */
  lemma MeasureStep(w: World, s: Sys, step: Step)
    requires Inv(w, s) && s.inner.active.SmugBatch? && Enabled(s, step)
    ensures Progresses(s, step) ==> Measure(Next(w, s, step).inner.active) == Measure(s.inner.active) - 1
    ensures !Progresses(s, step) ==> Next(w, s, step) == s
  {
    hide Next, Measure;
    if !Progresses(s, step) {
      IdleStep(w, s, step);
    } else if step.Poll? {
      TakeKeeps(w, s);
      PollMeasure(w, s);
    } else {
      PostMeasure(w, s, step.id, step.posted);
    }
  }

  /** When the stream closes, every id of the batch has been taken once and completed once. */
  lemma ClosesAfterExactlyAll(w: World, s: Sys, step: Step)
    requires Inv(w, s) && s.inner.active.SmugBatch? && Enabled(s, step) && Guarded(s, step)
    requires Next(w, s, step).inner.active.SmugFinalizing?
    ensures var s' := Next(w, s, step);
            && s'.batch == s.batch && s'.finalizers == 1
            && HandedInOrder(w, s') && |s'.handed| == |s.batch|
            && |s'.completed| == |s.batch| == |s'.lines|
            && NoRepeats(s'.completed) && Elements(s'.completed) == Elements(IdsOf(s.batch))
  {
    InvStep(w, s, step);
    var s' := Next(w, s, step);
    ElementsCount(s'.completed);
    ElementsCount(IdsOf(s'.batch));
  }

  // ---------------------------------------------------------------------------------------------
  // One outer invocation at a time
  // ---------------------------------------------------------------------------------------------

  /** A live invocation is never overwritten, and only its own end resets it; a fetch only starts,
      and only returns, while there is no invocation. */
  lemma SingleOuterInvocation(w: World, s: Sys, step: Step)
    requires Inv(w, s) && Enabled(s, step) && Guarded(s, step)
    ensures var s' := Next(w, s, step);
            && s'.fetchers <= 1
            && (s'.fetchers > s.fetchers ==> s.inner == Inner(false, NoInvocation))
            && (step.FetchReturns? ==> s.inner == Inner(true, NoInvocation))
            && (s.inner.active.SmugBatch? ==>
                  || (s'.inner.active.SmugBatch? && s'.inner.active.outerId == s.inner.active.outerId
                      && s'.batch == s.batch)
                  || (s'.inner.active.SmugFinalizing? && step.Post?))
            && (s.inner.active.SmugFinalizing? ==>
                  if step.FinalizeReturns? then s'.inner.active.NoInvocation? && s'.finalizers == 0
                  else s'.inner == s.inner && s'.finalizers == 1)
            && (s.inner.active.PassThrough? ==>
                  if step.ForwardReturns? && step.success then s'.inner.active.NoInvocation?
                  else s'.inner.active.PassThrough? && s'.inner.active.requestId == s.inner.active.requestId)
  {
    InvStep(w, s, step);
  }

  // ---------------------------------------------------------------------------------------------
  // Which batches can finish
  // ---------------------------------------------------------------------------------------------

  predicate WasHanded(s: Sys, id: Id) {
    exists i :: 0 <= i < |s.handed| && s.handed[i].Delivered? && s.handed[i].invocation.id == id
  }

  /** Workers only complete what they were handed, and only what comes back under its own id. */
  predicate Honest(w: World, s: Sys, step: Step) {
    step.Post? && s.inner.active.SmugBatch? ==> WasHanded(s, step.id) && w.comesBack(step.id)
  }

  ghost predicate Honestly(w: World, s: Sys, steps: seq<Step>)
    requires IsRun(w, s, steps)
    decreases steps
  {
    steps != [] ==> Honest(w, s, steps[0]) && Honestly(w, Next(w, s, steps[0]), steps[1..])
  }

  ghost predicate HonestRun(w: World, s: Sys, steps: seq<Step>) {
    IsRun(w, s, steps) && Calm(w, s, steps) && Honestly(w, s, steps)
  }

  ghost predicate CanFinish(w: World, s: Sys) {
    exists steps :: HonestRun(w, s, steps) && After(w, s, steps).inner.active.SmugFinalizing?
  }

  predicate Finishable(w: World, batch: seq<VirtualInvocation>) {
    batch != [] && forall i | 0 <= i < |batch| :: w.headerOk(batch[i].id) && w.comesBack(batch[i].id)
  }

  lemma NothingCompleted(ids: seq<Id>)
    ensures Elements(ids) == {} ==> ids == []
  {
    if ids != [] {
      assert ids[0] in Elements(ids);
    }
  }

  lemma {:induction false} EmptyStays(w: World, s: Sys, steps: seq<Step>)
    requires Inv(w, s) && s.inner.active.SmugBatch? && s.batch == [] && IsRun(w, s, steps)
    ensures After(w, s, steps).inner.active.SmugBatch?
    decreases steps
  {
    if steps == [] {
    } else {
      assert Elements(TakenIds(s)) == {};
      MeasureStep(w, s, steps[0]);
      EmptyStays(w, s, steps[1..]);
    }
  }

  /** A worker is only ever handed an id that is a header value. */
  lemma HandedIsHeader(w: World, s: Sys, id: Id)
    requires HandedInOrder(w, s) && WasHanded(s, id)
    ensures w.headerOk(id)
  {
  }

  lemma BadIdStep(w: World, s: Sys, step: Step, bad: Id)
    requires Inv(w, s) && s.inner.active.SmugBatch? && Enabled(s, step) && Guarded(s, step) && Honest(w, s, step)
    requires !(w.headerOk(bad) && w.comesBack(bad)) && bad in IdsOf(s.batch) && bad !in s.completed
    ensures var s' := Next(w, s, step);
            s'.inner.active.SmugBatch? && s'.batch == s.batch && bad !in s'.completed
  {
    var s' := Next(w, s, step);
    SingleOuterInvocation(w, s, step);
    InvStep(w, s, step);
    if step.Post? {
      HandedIsHeader(w, s, step.id);
    }
    if step.Post? && step.id in s.inner.active.inflight {
      CompleteKeeps(w, s, step.id, step.posted);
      assert Settled(w, s') ==> bad in Elements(s'.completed);
    } else {
      MeasureStep(w, s, step);
    }
  }

  /** An id that no worker can complete keeps its batch live. */
  lemma {:induction false} BadIdStays(w: World, s: Sys, steps: seq<Step>, bad: Id)
    requires Inv(w, s) && s.inner.active.SmugBatch? && HonestRun(w, s, steps)
    requires !(w.headerOk(bad) && w.comesBack(bad)) && bad in IdsOf(s.batch) && bad !in s.completed
    ensures After(w, s, steps).inner.active.SmugBatch?
    decreases steps
  {
    if steps == [] {
    } else {
      var step := steps[0];
      var s' := Next(w, s, step);
      BadIdStep(w, s, step, bad);
      InvStep(w, s, step);
      hide Inv, Next;
      BadIdStays(w, s', steps[1..], bad);
    }
  }

  /** Deliver what is queued, then complete what is in flight. */
  lemma UsefulStep(w: World, s: Sys) returns (step: Step)
    requires Inv(w, s) && s.inner.active.SmugBatch? && Finishable(w, s.batch)
    ensures Progresses(s, step) && Enabled(s, step) && Guarded(s, step) && Honest(w, s, step)
  {
    var a := s.inner.active;
    if a.queue != [] {
      step := Poll;
    } else {
      var id :| id in a.inflight;
      step := Post(id, PostedError);
      var i :| 0 <= i < |s.handed| && TakenIds(s)[i] == id;
      assert s.batch[i].id == id && s.handed[i] == Delivered(s.batch[i]);
    }
  }

  lemma RunCons(w: World, s: Sys, step: Step, rest: seq<Step>)
    requires Enabled(s, step) && Guarded(s, step) && Honest(w, s, step) && HonestRun(w, Next(w, s, step), rest)
    ensures HonestRun(w, s, [step] + rest) && After(w, s, [step] + rest) == After(w, Next(w, s, step), rest)
  {
    assert ([step] + rest)[1..] == rest;
  }

  lemma NoSteps(w: World, s: Sys)
    ensures HonestRun(w, s, []) && After(w, s, []) == s
  {
  }

  lemma {:induction false} Finish(w: World, s: Sys) returns (steps: seq<Step>)
    requires Inv(w, s) && s.inner.active.SmugBatch? && Finishable(w, s.batch)
    ensures HonestRun(w, s, steps) && After(w, s, steps).inner.active.SmugFinalizing?
    ensures After(w, s, steps).batch == s.batch && Inv(w, After(w, s, steps))
    decreases Measure(s.inner.active)
  {
    hide Inv, Next, Measure, Progresses, BatchInv, IsRun, After, HonestRun;
    var step := UsefulStep(w, s);
    InvStep(w, s, step);
    SingleOuterInvocation(w, s, step);
    MeasureStep(w, s, step);
    var s' := Next(w, s, step);
    if s'.inner.active.SmugBatch? {
      var rest := Finish(w, s');
      RunCons(w, s, step, rest);
      steps := [step] + rest;
    } else {
      ClosesAfterExactlyAll(w, s, step);
      NoSteps(w, s');
      RunCons(w, s, step, []);
      steps := [step] + [];
    }
  }

  /** A batch just fetched can be finished by honest workers exactly when it is non-empty and every
      id in it is a header value that comes back; any other batch occupies the proxy for ever. */
  lemma FinishesIff(w: World, s: Sys)
    requires Inv(w, s) && s.inner.active.SmugBatch? && s.handed == []
    ensures CanFinish(w, s) <==> Finishable(w, s.batch)
    ensures !Finishable(w, s.batch) ==>
              forall steps | HonestRun(w, s, steps) :: After(w, s, steps).inner.active.SmugBatch?
  {
    assert TakenIds(s) == [];
    NothingCompleted(s.completed);
    if Finishable(w, s.batch) {
      var steps := Finish(w, s);
    } else {
      forall steps | HonestRun(w, s, steps) ensures After(w, s, steps).inner.active.SmugBatch? {
        if s.batch == [] {
          EmptyStays(w, s, steps);
        } else {
          var i :| 0 <= i < |s.batch| && !(w.headerOk(s.batch[i].id) && w.comesBack(s.batch[i].id));
          assert IdsOf(s.batch)[i] == s.batch[i].id;
          BadIdStays(w, s, steps, s.batch[i].id);
        }
      }
    }
  }

  /** Honest workers can do what they like, the batch stays. */
  ghost predicate Stuck(w: World, s: Sys, batch: seq<VirtualInvocation>) {
    && s.inner.active.SmugBatch? && s.batch == batch && !CanFinish(w, s)
    && forall more | HonestRun(w, s, more) :: After(w, s, more).inner.active.SmugBatch?
  }

  /** It happens: any other batch can be fetched from the start, and then stays whatever honest workers do. */
  lemma StuckFromStart(w: World, outer: Id, batch: seq<VirtualInvocation>)
    requires NoRepeats(IdsOf(batch)) && !Finishable(w, batch)
    ensures exists steps :: HonestRun(w, INITIAL, steps) && Stuck(w, After(w, INITIAL, steps), batch)
  {
    var fetched := FetchReturns(Batch(outer, batch));
    var s1 := Next(w, INITIAL, TryFetch);
    var s2 := Next(w, s1, fetched);
    assert Inv(w, INITIAL);
    hide Inv, HonestRun, IsRun, After;
    InvStep(w, INITIAL, TryFetch);
    InvStep(w, s1, fetched);
    NoSteps(w, s2);
    RunCons(w, s1, fetched, []);
    RunCons(w, INITIAL, TryFetch, [fetched] + []);
    FinishesIff(w, s2);
    var steps := [TryFetch] + ([fetched] + []);
    assert HonestRun(w, INITIAL, steps) && Stuck(w, After(w, INITIAL, steps), batch);
  }

  lemma {:induction false} RunThen(w: World, s: Sys, a: seq<Step>, b: seq<Step>)
    requires HonestRun(w, s, a) && HonestRun(w, After(w, s, a), b)
    ensures HonestRun(w, s, a + b) && After(w, s, a + b) == After(w, After(w, s, a), b)
    decreases a
  {
    if a == [] {
      assert a + b == b;
    } else {
      assert (a + b)[0] == a[0] && (a + b)[1..] == a[1..] + b;
      hide Next, Enabled, Guarded, Honest;
      RunThen(w, Next(w, s, a[0]), a[1..], b);
    }
  }

  /** A closed batch leaves the proxy idle once its response has been sent. */
  lemma ResetAfterFinish(w: World, s: Sys)
    requires Inv(w, s) && s.inner.active.SmugFinalizing?
    ensures HonestRun(w, s, [FinalizeReturns])
    ensures After(w, s, [FinalizeReturns]) == s.(inner := Inner(false, NoInvocation), finalizers := 0)
  {
    NoSteps(w, Next(w, s, FinalizeReturns));
    assert [FinalizeReturns][1..] == [];
    hide Settled;
  }

  /** Every finishable batch can be served from the start: an honest run fetches it, completes each of its ids
      once, and leaves the proxy idle and ready for the next fetch. */
  lemma ServedFromStart(w: World, outer: Id, batch: seq<VirtualInvocation>)
    requires NoRepeats(IdsOf(batch)) && Finishable(w, batch)
    ensures exists steps ::
              && HonestRun(w, INITIAL, steps)
              && After(w, INITIAL, steps).inner == Inner(false, NoInvocation)
              && After(w, INITIAL, steps).batch == batch
              && NoRepeats(After(w, INITIAL, steps).completed)
              && Elements(After(w, INITIAL, steps).completed) == Elements(IdsOf(batch))
  {
    var fetched := FetchReturns(Batch(outer, batch));
    var s1 := Next(w, INITIAL, TryFetch);
    var s2 := Next(w, s1, fetched);
    assert Inv(w, INITIAL);
    hide HonestRun, IsRun, After;
    InvStep(w, INITIAL, TryFetch);
    InvStep(w, s1, fetched);
    hide BatchInv, Next;
    var more := Finish(w, s2);
    var s3 := After(w, s2, more);
    ResetAfterFinish(w, s3);
    RunThen(w, s2, more, [FinalizeReturns]);
    RunCons(w, s1, fetched, more + [FinalizeReturns]);
    RunCons(w, INITIAL, TryFetch, [fetched] + (more + [FinalizeReturns]));
    assert s3.batch == batch && Settled(w, s3);
  }

  /** A pass-through invocation that was handed out is never handed out again: until a fetch brings another
      invocation, every poll comes back empty. */
  lemma {:induction false} PassThroughOnce(w: World, s: Sys, id: Id, steps: seq<Step>)
    requires IsRun(w, s, steps) && (forall step | step in steps :: !step.FetchReturns?)
    requires s.inner.active == PassThrough(id, true) || s.inner.active.NoInvocation?
    ensures TakeNext(w.headerOk, After(w, s, steps).inner).1 == Nothing
    decreases steps
  {
    if steps == [] {
    } else {
      assert steps[0] in steps;
      PassThroughOnce(w, Next(w, s, steps[0]), id, steps[1..]);
    }
  }
}
