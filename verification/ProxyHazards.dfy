/** What the proxy does not promise over runs without restrictions, and exactly when it goes wrong:
    a live batch thrown away by somebody else's reset, and a fetch mark that nobody clears. */
module ProxyHazards {
  import opened Wire
  import opened Proxy
  import opened ProxyRuns

  lemma FetchInvStep(w: World, s: Sys, step: Step)
    requires FetchInv(s) && Enabled(s, step)
    ensures FetchInv(Next(w, s, step))
  {
  }

  lemma {:induction false} FetchInvRun(w: World, s: Sys, steps: seq<Step>)
    requires FetchInv(s) && IsRun(w, s, steps)
    ensures FetchInv(After(w, s, steps))
    decreases steps
  {
    if steps == [] {
    } else {
      FetchInvStep(w, s, steps[0]);
      FetchInvRun(w, Next(w, s, steps[0]), steps[1..]);
    }
  }

  // ---------------------------------------------------------------------------------------------
  // A fetch that was abandoned
  // ---------------------------------------------------------------------------------------------

  /** A `/next` caller has hung up during its fetch and left the mark behind. */
  predicate Abandoned(s: Sys) {
    s.inner.fetchingOuter && s.fetchers == 0
  }

  ghost predicate CanServe(w: World, s: Sys) {
    exists steps :: IsRun(w, s, steps) && !After(w, s, steps).inner.active.NoInvocation?
  }

  lemma RunOf1(w: World, s: Sys, a: Step)
    requires Enabled(s, a)
    ensures IsRun(w, s, [a]) && After(w, s, [a]) == Next(w, s, a)
  {
    assert [a][1..] == [];
    assert IsRun(w, Next(w, s, a), []) && After(w, Next(w, s, a), []) == Next(w, s, a);
  }

  lemma RunOf2(w: World, s: Sys, a: Step, b: Step)
    requires Enabled(s, a) && Enabled(Next(w, s, a), b)
    ensures IsRun(w, s, [a, b]) && After(w, s, [a, b]) == Next(w, Next(w, s, a), b)
  {
    assert [a, b][1..] == [b];
    RunOf1(w, Next(w, s, a), b);
  }

  lemma {:induction false} AbandonedStays(w: World, s: Sys, steps: seq<Step>)
    requires Abandoned(s) && s.inner.active.NoInvocation? && IsRun(w, s, steps)
    ensures Abandoned(After(w, s, steps)) && After(w, s, steps).inner.active.NoInvocation?
    decreases steps
  {
    if steps == [] {
    } else {
      AbandonedStays(w, Next(w, s, steps[0]), steps[1..]);
    }
  }

  lemma ServesUnlessAbandoned(w: World, s: Sys)
    requires FetchInv(s) && s.inner.active.NoInvocation?
    ensures CanServe(w, s) <==> !Abandoned(s)
  {
    if Abandoned(s) {
      forall steps | IsRun(w, s, steps) ensures After(w, s, steps).inner.active.NoInvocation? {
        AbandonedStays(w, s, steps);
      }
    } else if s.fetchers > 0 {
      RunOf1(w, s, FetchReturns(Plain("outer")));
    } else {
      RunOf2(w, s, TryFetch, FetchReturns(Plain("outer")));
    }
  }

  /** After every run, calm or not, that leaves the proxy without an invocation, it can get to one again
      if and only if no fetch was abandoned. */
  lemma ServesAgainIff(w: World, steps: seq<Step>)
    requires IsRun(w, INITIAL, steps) && After(w, INITIAL, steps).inner.active.NoInvocation?
    ensures CanServe(w, After(w, INITIAL, steps)) <==> !Abandoned(After(w, INITIAL, steps))
  {
    FetchInvRun(w, INITIAL, steps);
    ServesUnlessAbandoned(w, After(w, INITIAL, steps));
  }

  /** It happens: the first poll starts a fetch, and its caller hangs up. */
  lemma AbandonedFromStart(w: World)
    ensures exists steps :: IsRun(w, INITIAL, steps) && Abandoned(After(w, INITIAL, steps))
                            && !CanServe(w, After(w, INITIAL, steps))
  {
    RunOf2(w, INITIAL, TryFetch, FetchAbandoned);
    ServesAgainIff(w, [TryFetch, FetchAbandoned]);
  }

  // ---------------------------------------------------------------------------------------------
  // A live batch thrown away
  // ---------------------------------------------------------------------------------------------

  /** The step resets the proxy although a batch is live. */
  predicate Loses(w: World, s: Sys, step: Step) {
    s.inner.active.SmugBatch? && Enabled(s, step) && Next(w, s, step).inner.active.NoInvocation?
  }

  predicate NoPosts(steps: seq<Step>) {
    forall i | 0 <= i < |steps| :: !steps[i].Post?
  }

  /** A live batch can be lost to what is under way already, without any further completion. */
  ghost predicate CanLose(w: World, s: Sys) {
    exists steps, step :: IsRun(w, s, steps) && NoPosts(steps) && Loses(w, After(w, s, steps), step)
  }

  /** Resets under way: forwarded completions and finalise tasks. */
  function Resets(s: Sys): nat {
    |s.forwards| + s.finalizers
  }

  /** One reset too many is under way for the invocation there is. */
  predicate Hazard(s: Sys) {
    match s.inner.active
    case NoInvocation => Resets(s) >= 1 && !Abandoned(s)
    case SmugBatch(_, _, _, _, _) => Resets(s) >= 1
    case _ => Resets(s) >= 2
  }

  lemma LosesNow(w: World, s: Sys, step: Step)
    requires Loses(w, s, step)
    ensures CanLose(w, s)
  {
    assert IsRun(w, s, []) && NoPosts([]) && After(w, s, []) == s;
  }

  lemma LosesLater(w: World, s: Sys, a: Step)
    requires Enabled(s, a) && !a.Post? && CanLose(w, Next(w, s, a))
    ensures CanLose(w, s)
  {
    var steps, step :| IsRun(w, Next(w, s, a), steps) && NoPosts(steps)
        && Loses(w, After(w, Next(w, s, a), steps), step);
    var more := [a] + steps;
    assert more[1..] == steps;
    assert IsRun(w, s, more) && NoPosts(more) && After(w, s, more) == After(w, Next(w, s, a), steps);
  }

  function ResetStep(s: Sys): (step: Step)
    requires Resets(s) >= 1
    ensures Enabled(s, step) && !step.Post?
  {
    if s.forwards != [] then ForwardReturns(true) else FinalizeReturns
  }

  lemma HazardLoses(w: World, s: Sys)
    requires FetchInv(s) && Hazard(s)
    ensures CanLose(w, s)
    decreases match s.inner.active
              case SmugBatch(_, _, _, _, _) => 0
              case NoInvocation => if s.fetchers > 0 then 1 else 2
              case _ => 3
  {
    hide CanLose;
    match s.inner.active
    case SmugBatch(_, _, _, _, _) =>
      LosesNow(w, s, ResetStep(s));
    case NoInvocation =>
      if s.fetchers > 0 {
        var step := FetchReturns(Batch("outer", [VirtualInvocation("r-1", [])]));
        HazardLoses(w, Next(w, s, step));
        LosesLater(w, s, step);
      } else {
        HazardLoses(w, Next(w, s, TryFetch));
        LosesLater(w, s, TryFetch);
      }
    case _ =>
      HazardLoses(w, Next(w, s, ResetStep(s)));
      LosesLater(w, s, ResetStep(s));
  }

  lemma SafeStep(w: World, s: Sys, step: Step)
    requires FetchInv(s) && !Hazard(s) && Enabled(s, step) && !step.Post?
    ensures !Hazard(Next(w, s, step)) && !Loses(w, s, step)
  {
  }

  lemma {:induction false} SafeRun(w: World, s: Sys, steps: seq<Step>)
    requires FetchInv(s) && !Hazard(s) && IsRun(w, s, steps) && NoPosts(steps)
    ensures FetchInv(After(w, s, steps)) && !Hazard(After(w, s, steps))
    decreases steps
  {
    if steps == [] {
    } else {
      SafeStep(w, s, steps[0]);
      FetchInvStep(w, s, steps[0]);
      SafeRun(w, Next(w, s, steps[0]), steps[1..]);
    }
  }

  lemma PostNeverLoses(w: World, s: Sys, id: Id, posted: Posted)
    ensures !Loses(w, s, Post(id, posted))
  {
  }

  lemma LosesIffHazard(w: World, s: Sys)
    requires FetchInv(s)
    ensures CanLose(w, s) <==> Hazard(s)
  {
    if Hazard(s) {
      HazardLoses(w, s);
    } else {
      forall steps, step | IsRun(w, s, steps) && NoPosts(steps) ensures !Loses(w, After(w, s, steps), step) {
        SafeRun(w, s, steps);
        if step.Post? {
          PostNeverLoses(w, After(w, s, steps), step.id, step.posted);
        } else if Enabled(After(w, s, steps), step) {
          SafeStep(w, After(w, s, steps), step);
        }
      }
    }
  }

  /** After every run, calm or not, a live batch can be lost to what is under way if and only if one
      reset too many is. */
  lemma {:induction false} LossIff(w: World, steps: seq<Step>)
    requires IsRun(w, INITIAL, steps)
    ensures CanLose(w, After(w, INITIAL, steps)) <==> Hazard(After(w, INITIAL, steps))
  {
    FetchInvRun(w, INITIAL, steps);
    hide CanLose, Hazard;
    LosesIffHazard(w, After(w, INITIAL, steps));
  }

  lemma InvIsSafe(w: World, s: Sys)
    requires Inv(w, s)
    ensures !Hazard(s)
  {
  }

  /** From the start: as long as no pass-through invocation is completed again while a completion of
      it is being forwarded, no live batch can be lost; the first such completion puts one at risk. */
  lemma SecondCompletionDecides(w: World, steps: seq<Step>, step: Step)
    requires IsRun(w, INITIAL, steps) && Calm(w, INITIAL, steps) && step.Post?
    ensures !CanLose(w, After(w, INITIAL, steps))
    ensures CanLose(w, Next(w, After(w, INITIAL, steps), step)) <==> !Guarded(After(w, INITIAL, steps), step)
  {
    hide CanLose;
    InvRun(w, INITIAL, steps);
    var s := After(w, INITIAL, steps);
    InvIsSafe(w, s);
    LosesIffHazard(w, s);
    FetchInvStep(w, s, step);
    LosesIffHazard(w, Next(w, s, step));
    if Guarded(s, step) {
      InvStep(w, s, step);
      InvIsSafe(w, Next(w, s, step));
    }
  }

  ghost predicate LosesEventually(w: World, s: Sys) {
    exists steps, step :: IsRun(w, s, steps) && Loses(w, After(w, s, steps), step)
  }

  lemma LosesEarlier(w: World, s: Sys, a: Step)
    requires Enabled(s, a) && LosesEventually(w, Next(w, s, a))
    ensures LosesEventually(w, s)
  {
    var steps, step :| IsRun(w, Next(w, s, a), steps) && Loses(w, After(w, Next(w, s, a), steps), step);
    var more := [a] + steps;
    assert more[1..] == steps;
    assert IsRun(w, s, more) && After(w, s, more) == After(w, Next(w, s, a), steps);
  }

  /** It happens: one pass-through invocation is completed twice, then a batch is fetched between the
      two answers of the upstream. */
  lemma LosesFromStart(w: World, outer: Id, first: Posted, second: Posted)
    ensures LosesEventually(w, INITIAL)
  {
    hide LosesEventually;
    var s1 := Next(w, INITIAL, TryFetch);
    var s2 := Next(w, s1, FetchReturns(Plain(outer)));
    var s3 := Next(w, s2, Poll);
    var s4 := Next(w, s3, Post(outer, first));
    var s5 := Next(w, s4, Post(outer, second));
    HazardLoses(w, s5);
    CanLoseIsLoses(w, s5);
    LosesEarlier(w, s4, Post(outer, second));
    LosesEarlier(w, s3, Post(outer, first));
    LosesEarlier(w, s2, Poll);
    LosesEarlier(w, s1, FetchReturns(Plain(outer)));
    LosesEarlier(w, INITIAL, TryFetch);
  }

  lemma CanLoseIsLoses(w: World, s: Sys)
    requires CanLose(w, s)
    ensures LosesEventually(w, s)
  {
    var steps, step :| IsRun(w, s, steps) && NoPosts(steps) && Loses(w, After(w, s, steps), step);
  }
}
