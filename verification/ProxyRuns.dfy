/** All interleavings of the proxy's workers, completions and finalise tasks. */
module ProxyRuns {
  import opened Wire
  import opened Proxy
  import opened Buffered

  /** The locked state, what is under way outside the lock, and the history of the current batch: what
      the polls took from its queue, which completions were accepted in which order with what was
      posted, and the lines written. */
  datatype Sys = Sys(
    inner: Inner,
    fetchers: nat,
    forwards: seq<Id>,
    finalizers: nat,
    batch: seq<VirtualInvocation>,
    handed: seq<Taken>,
    completed: seq<Id>,
    posts: seq<Posted>,
    lines: seq<ResponseItem>)

  /** `headerOk`: the id is a header value, so a worker can be handed it. `comesBack`: a worker that
      was handed it reads it unchanged off the header, and the completion route hands it over
      unchanged. The empty id, one with outer blanks and one with a slash do not come back. */
  datatype World = World(headerOk: Id -> bool, comesBack: Id -> bool, parseReply: Bytes -> Option<Reply>)

  const INITIAL := Sys(Inner(false, NoInvocation), 0, [], 0, [], [], [], [], [])

  /** One locked region of some task, together with the await it ends; `FetchAbandoned` is a `/next`
      caller that hangs up while it waits for the upstream. */
  datatype Step =
    | Poll
    | TryFetch
    | FetchReturns(fetched: Fetched)
    | FetchAbandoned
    | Post(id: Id, posted: Posted)
    | ForwardReturns(success: bool)
    | FinalizeReturns

  /** A batch comes out of `ParseOuterSmugBatch`, which promises distinct ids. */
  predicate Enabled(s: Sys, step: Step) {
    match step
    case FetchReturns(fetched) => s.fetchers > 0 && (fetched.Batch? ==> NoRepeats(IdsOf(fetched.batch)))
    case FetchAbandoned => s.fetchers > 0
    case ForwardReturns(_) => s.forwards != []
    case FinalizeReturns => s.finalizers > 0
    case _ => true
  }

  function Next(w: World, s: Sys, step: Step): Sys
    requires Enabled(s, step)
  {
    match step
    case Poll =>
      var (inner, taken) := TakeNext(w.headerOk, s.inner);
      if s.inner.active.SmugBatch? && !taken.Nothing? then s.(inner := inner, handed := s.handed + [taken])
      else s.(inner := inner)
    case TryFetch =>
      var (inner, should) := StartFetch(s.inner);
      s.(inner := inner, fetchers := if should then s.fetchers + 1 else s.fetchers)
    case FetchReturns(fetched) =>
      var s' := s.(inner := EndFetch(s.inner, fetched), fetchers := s.fetchers - 1);
      if fetched.Batch? then s'.(batch := fetched.batch, handed := [], completed := [], posts := [], lines := [])
      else s'
    case FetchAbandoned => s.(fetchers := s.fetchers - 1)
    case Post(id, posted) =>
      var (inner, r) := Complete(w.parseReply, s.inner, id, posted);
      (match r
       case Forward(requestId) => s.(inner := inner, forwards := s.forwards + [requestId])
       case Local(line, join) =>
         var s' := s.(inner := inner, finalizers := if join then s.finalizers + 1 else s.finalizers);
         if line.Some? then
           s'.(completed := s.completed + [id], posts := s.posts + [posted], lines := s.lines + [line.value])
         else s')
    case ForwardReturns(success) =>
      s.(inner := if success then Reset(s.inner) else s.inner, forwards := s.forwards[1..])
    case FinalizeReturns =>
      s.(inner := Reset(s.inner), finalizers := s.finalizers - 1)
  }

  ghost predicate IsRun(w: World, s: Sys, steps: seq<Step>)
    decreases steps
  {
    steps != [] ==> Enabled(s, steps[0]) && IsRun(w, Next(w, s, steps[0]), steps[1..])
  }

  ghost function After(w: World, s: Sys, steps: seq<Step>): Sys
    requires IsRun(w, s, steps)
    decreases steps
  {
    if steps == [] then s else After(w, Next(w, s, steps[0]), steps[1..])
  }

  /** A pass-through invocation is not completed again while a completion of it is being forwarded. */
  predicate Guarded(s: Sys, step: Step) {
    step.Post? && s.inner.active.PassThrough? && s.inner.active.requestId == step.id ==> s.forwards == []
  }

  /** Runs that keep to that rule. */
  ghost predicate Calm(w: World, s: Sys, steps: seq<Step>)
    requires IsRun(w, s, steps)
    decreases steps
  {
    steps != [] ==> Guarded(s, steps[0]) && Calm(w, Next(w, s, steps[0]), steps[1..])
  }

  // ---------------------------------------------------------------------------------------------
  // The invariant
  // ---------------------------------------------------------------------------------------------

  /** Each poll has taken the next item of the batch: its own id with its own event, or a refusal. */
  ghost predicate HandedInOrder(w: World, s: Sys) {
    && |s.handed| <= |s.batch|
    && forall i | 0 <= i < |s.handed| ::
         s.handed[i] == if w.headerOk(s.batch[i].id) then Delivered(s.batch[i]) else Refused(s.batch[i].id)
  }

  ghost function TakenIds(s: Sys): seq<Id>
    requires |s.handed| <= |s.batch|
  {
    IdsOf(s.batch[..|s.handed|])
  }

  /** One line per completed id, made of what was posted for that id. */
  ghost predicate OwnLines(w: World, s: Sys) {
    && NoRepeats(s.completed)
    && |s.completed| == |s.posts| == |s.lines|
    && forall i | 0 <= i < |s.lines| :: s.lines[i] == LineFor(w.parseReply, s.completed[i], s.posts[i])
  }

  /** The bookkeeping of a live batch: taken in order, in flight until completed, one line each. */
  ghost predicate BatchInv(w: World, s: Sys)
    requires s.inner.active.SmugBatch?
  {
    var a := s.inner.active;
    && NoRepeats(IdsOf(s.batch))
    && HandedInOrder(w, s) && OwnLines(w, s)
    && a.queue == s.batch[|s.handed|..]
    && Elements(s.completed) <= Elements(TakenIds(s))
    && a.inflight == Elements(TakenIds(s)) - Elements(s.completed)
    && a.streamOpen && a.hasJoin
    && (s.batch != [] ==> a.queue != [] || a.inflight != {})
  }

  /** A batch whose stream has been closed: one line per id, in completion order. */
  ghost predicate Settled(w: World, s: Sys) {
    && s.batch != [] && NoRepeats(IdsOf(s.batch))
    && HandedInOrder(w, s) && |s.handed| == |s.batch|
    && OwnLines(w, s)
    && Elements(s.completed) == Elements(IdsOf(s.batch))
  }

  /** At most one fetch, and only while there is no invocation; after a fetch was abandoned its mark
      stays. */
  ghost predicate FetchInv(s: Sys) {
    && s.fetchers <= (if s.inner.fetchingOuter then 1 else 0)
    && (s.inner.fetchingOuter ==> s.inner.active.NoInvocation?)
  }

  ghost predicate Inv(w: World, s: Sys) {
    && FetchInv(s)
    && s.finalizers == (if s.inner.active.SmugFinalizing? then 1 else 0)
    && |s.forwards| <= 1
    && (s.forwards != [] ==> s.inner.active.PassThrough? && s.inner.active.requestId == s.forwards[0])
    && (s.inner.active.SmugBatch? ==> BatchInv(w, s))
    && (s.inner.active.SmugFinalizing? ==> Settled(w, s))
  }

  /** A poll takes an id that was never taken before. */
  lemma TakeKeeps(w: World, s: Sys)
    requires Inv(w, s) && s.inner.active.SmugBatch? && s.inner.active.queue != []
    ensures Inv(w, Next(w, s, Poll))
    ensures s.inner.active.queue[0].id !in Elements(TakenIds(s))
  {
    var n, s' := |s.handed|, Next(w, s, Poll);
    var id := s.batch[n].id;
    assert s.inner.active.queue[0] == s.batch[n];
    assert s.batch[..n + 1] == s.batch[..n] + [s.batch[n]];
    assert TakenIds(s') == TakenIds(s) + [id];
    assert Elements(TakenIds(s')) == Elements(TakenIds(s)) + {id};
    assert id !in Elements(TakenIds(s)) by {
      assert IdsOf(s.batch)[n] == id;
      assert forall i | 0 <= i < n :: TakenIds(s)[i] == IdsOf(s.batch)[i];
    }
  }

  lemma CompleteKeeps(w: World, s: Sys, id: Id, posted: Posted)
    requires Inv(w, s) && s.inner.active.SmugBatch? && id in s.inner.active.inflight
    ensures Inv(w, Next(w, s, Post(id, posted)))
    ensures Next(w, s, Post(id, posted)).completed == s.completed + [id]
    ensures Next(w, s, Post(id, posted)).posts == s.posts + [posted]
  {
    var a, s' := s.inner.active, Next(w, s, Post(id, posted));
    assert s'.completed == s.completed + [id];
    assert Elements(s'.completed) == Elements(s.completed) + {id};
    if a.queue == [] && a.inflight - {id} == {} {
      assert s.batch[..|s.handed|] == s.batch;
      assert Elements(s'.completed) == Elements(IdsOf(s.batch));
    }
  }

  lemma InvStep(w: World, s: Sys, step: Step)
    requires Inv(w, s) && Enabled(s, step) && Guarded(s, step)
    ensures Inv(w, Next(w, s, step))
  {
    var a := s.inner.active;
    if step.Poll? && a.SmugBatch? && a.queue != [] {
      TakeKeeps(w, s);
    } else if step.Post? && a.SmugBatch? && step.id in a.inflight {
      CompleteKeeps(w, s, step.id, step.posted);
    } else {
      OtherKeeps(w, s, step);
    }
  }

  lemma OtherKeeps(w: World, s: Sys, step: Step)
    requires Inv(w, s) && Enabled(s, step) && Guarded(s, step)
    requires !(step.Poll? && s.inner.active.SmugBatch? && s.inner.active.queue != [])
    requires !(step.Post? && s.inner.active.SmugBatch? && step.id in s.inner.active.inflight)
    ensures Inv(w, Next(w, s, step))
  {
    if step.FetchReturns? && step.fetched.Batch? {
      assert step.fetched.batch[0..] == step.fetched.batch;
    }
  }

  lemma {:induction false} InvRun(w: World, s: Sys, steps: seq<Step>)
    requires Inv(w, s) && IsRun(w, s, steps) && Calm(w, s, steps)
    ensures Inv(w, After(w, s, steps))
    decreases steps
  {
    if steps == [] {
    } else {
      InvStep(w, s, steps[0]);
      InvRun(w, Next(w, s, steps[0]), steps[1..]);
    }
  }

  /** What is booked as posted for an id really was posted under that id in the run. */
  ghost predicate Booked(s: Sys, id: Id, posted: Posted) {
    |s.completed| == |s.posts| && exists i :: 0 <= i < |s.posts| && s.completed[i] == id && s.posts[i] == posted
  }

  lemma {:induction false} PostsHappened(w: World, s: Sys, steps: seq<Step>, id: Id, posted: Posted)
    requires IsRun(w, s, steps) && |s.completed| == |s.posts|
    ensures |After(w, s, steps).completed| == |After(w, s, steps).posts|
    ensures Booked(After(w, s, steps), id, posted) ==> Booked(s, id, posted) || Post(id, posted) in steps
    decreases steps
  {
    if steps == [] {
    } else {
      var s' := Next(w, s, steps[0]);
      PostsHappened(w, s', steps[1..], id, posted);
      BookedStep(w, s, steps[0], id, posted);
      assert steps == [steps[0]] + steps[1..];
    }
  }

  lemma BookedStep(w: World, s: Sys, step: Step, id: Id, posted: Posted)
    requires Enabled(s, step) && |s.completed| == |s.posts|
    ensures Booked(Next(w, s, step), id, posted) ==> Booked(s, id, posted) || step == Post(id, posted)
  {
    var s' := Next(w, s, step);
    if i :| 0 <= i < |s'.posts| && s'.completed[i] == id && s'.posts[i] == posted {
      assert i < |s.posts| && !step.FetchReturns? ==> s.completed[i] == id && s.posts[i] == posted;
    }
  }
}
