/** `handle_any` on top of the gateway: many HTTP handlers, the permits that bound how many requests
    are inside, and the answers they take from their own enqueue call and their own sink. */
module Admission {
  import opened Wire
  import opened Demux
  import opened Jobs
  import P = Pipeline
  import T = PipelineTheorems
  import S = PipelineSinks
  import F = PipelineFates

  /** The replies the handler makes up itself. */
  datatype Refusal = TooManyRequests | BodyTooLarge | QueueFull | BatcherClosed | DroppedResponse | TimedOut

  datatype Reply = Refused(refusal: Refusal) | Whole(response: Response) | Stream(head: StreamHead)

  datatype Stage = Arrived | Reading | Enqueueing | AwaitingInit | Returned(reply: Reply) | Cancelled

  /** A streaming response under way; `permit` is the `_permit` of the `PermitStream`. */
  datatype Body = NoBody | Body(permit: bool)

  /** `permit` says that the local `inflight_permit` holds a permit. */
  datatype Handler = Handler(req: P.Request, stage: Stage, permit: bool, body: Body)

  /** `free` is what the semaphore has left. */
  datatype State = State(free: nat, handlers: seq<Handler>, pipe: P.State)

  datatype Step =
    | Arrive(req: P.Request)
    | TryAcquire(h: nat)
    | BodyRead(h: nat, fits: bool)
    | EnqueueReturns(h: nat)
    | InitArrives(h: nat, fate: Client)
    | SenderDropped(h: nat)
    | TimeoutFires(h: nat)
    | BodyOver(h: nat)
    | ClientGone(h: nat)
    | Inside(step: P.Step)

  predicate HasAttempt(attempts: seq<P.Attempt>, req: P.Request) {
    exists i :: 0 <= i < |attempts| && attempts[i].req == req
  }

  predicate StillEnqueueing(p: P.State, req: P.Request) {
    HasAttempt(p.attempts, req)
  }

  /** The first message on the response channel of a sink with this fate. */
  function InitOf(fate: Client): Option<Reply> {
    match fate
    case Answered(response) => Some(Whole(response))
    case Closed(head, _) => Some(Stream(head))
    case HungUp(head, _) => Some(Stream(head))
    case _ => None
  }

  predicate Enabled(cfg: P.Config, s: State, step: Step) {
    match step
    case Arrive(req) => P.FromHandler(req) && P.FreshId(s.pipe, req.id)
                        && forall h | 0 <= h < |s.handlers| :: s.handlers[h].req.id != req.id
    case TryAcquire(h) => h < |s.handlers| && s.handlers[h].stage.Arrived?
    case BodyRead(h, fits) => h < |s.handlers| && s.handlers[h].stage.Reading?
                              && (fits ==> P.Enabled(cfg, s.pipe, P.Submit(s.handlers[h].req)))
    case EnqueueReturns(h) => h < |s.handlers| && s.handlers[h].stage.Enqueueing?
                              && !StillEnqueueing(s.pipe, s.handlers[h].req)
    case InitArrives(h, fate) => h < |s.handlers| && s.handlers[h].stage.AwaitingInit?
                                 && F.Fated(cfg, s.pipe, s.handlers[h].req.id, fate) && InitOf(fate).Some?
    case SenderDropped(h) => h < |s.handlers| && s.handlers[h].stage.AwaitingInit?
                             && F.Fated(cfg, s.pipe, s.handlers[h].req.id, Dropped)
    case TimeoutFires(h) => h < |s.handlers| && s.handlers[h].stage.AwaitingInit?
    case BodyOver(h) => h < |s.handlers| && s.handlers[h].body.Body?
    case ClientGone(h) => h < |s.handlers| && (s.handlers[h].stage.Reading? || s.handlers[h].stage.AwaitingInit?)
    case Inside(step) => !step.Submit? && P.Enabled(cfg, s.pipe, step)
  }

  function Units(held: bool): nat {
    if held then 1 else 0
  }

  function With(s: State, h: nat, handler: Handler): State
    requires h < |s.handlers|
  {
    s.(handlers := s.handlers[h := handler])
  }

  /** The handler's future ends: its locals are dropped, a permit among them goes back. */
  function DropLocals(s: State, h: nat, stage: Stage): State
    requires h < |s.handlers|
  {
    With(s, h, s.handlers[h].(stage := stage, permit := false)).(free := s.free + Units(s.handlers[h].permit))
  }

  function Return(s: State, h: nat, reply: Reply): State
    requires h < |s.handlers|
  {
    DropLocals(s, h, Returned(reply))
  }

  /** The permit moves from the local variable into the response body. */
  function ReturnStream(s: State, h: nat, head: StreamHead): State
    requires h < |s.handlers|
  {
    var handler := s.handlers[h];
    Return(With(s, h, handler.(permit := false, body := Body(handler.permit))), h, Stream(head))
  }

  function DoTryAcquire(s: State, h: nat): State
    requires h < |s.handlers|
  {
    if s.free > 0 then With(s, h, s.handlers[h].(stage := Reading, permit := true)).(free := s.free - 1)
    else Return(s, h, Refused(TooManyRequests))
  }

  function DoEnqueueReturns(s: State, h: nat): State
    requires h < |s.handlers|
  {
    var id := s.handlers[h].req.id;
    if id in s.pipe.refused then
      match s.pipe.refused[id]
      case QueueFull => Return(s, h, Refused(QueueFull))
      case BatcherClosed => Return(s, h, Refused(BatcherClosed))
    else With(s, h, s.handlers[h].(stage := AwaitingInit))
  }

  function DoBodyOver(s: State, h: nat): State
    requires h < |s.handlers| && s.handlers[h].body.Body?
  {
    With(s, h, s.handlers[h].(body := NoBody)).(free := s.free + Units(s.handlers[h].body.permit))
  }

  function Next(cfg: P.Config, s: State, step: Step): State
    requires Enabled(cfg, s, step)
  {
    match step
    case Arrive(req) => s.(handlers := s.handlers + [Handler(req, Arrived, false, NoBody)])
    case TryAcquire(h) => DoTryAcquire(s, h)
    case BodyRead(h, fits) =>
      if fits then
        With(s, h, s.handlers[h].(stage := Enqueueing)).(pipe := P.Next(cfg, s.pipe, P.Submit(s.handlers[h].req)))
      else Return(s, h, Refused(BodyTooLarge))
    case EnqueueReturns(h) => DoEnqueueReturns(s, h)
    case InitArrives(h, fate) =>
      (match InitOf(fate).value
       case Stream(head) => ReturnStream(s, h, head)
       case reply => Return(s, h, reply))
    case SenderDropped(h) => Return(s, h, Refused(DroppedResponse))
    case TimeoutFires(h) => Return(s, h, Refused(TimedOut))
    case BodyOver(h) => DoBodyOver(s, h)
    case ClientGone(h) => DropLocals(s, h, Cancelled)
    case Inside(step) => s.(pipe := P.Next(cfg, s.pipe, step))
  }

  function Initial(max: nat): State {
    State(max, [], P.INITIAL)
  }

  ghost predicate IsRun(cfg: P.Config, s: State, steps: seq<Step>)
    decreases steps
  {
    steps != [] ==> Enabled(cfg, s, steps[0]) && IsRun(cfg, Next(cfg, s, steps[0]), steps[1..])
  }

  ghost function After(cfg: P.Config, s: State, steps: seq<Step>): State
    requires IsRun(cfg, s, steps)
    decreases steps
  {
    if steps == [] then s else After(cfg, Next(cfg, s, steps[0]), steps[1..])
  }

  // ---------------------------------------------------------------------------------------------
  // Permits
  // ---------------------------------------------------------------------------------------------

  /** The permits a handler and its streaming body own. */
  function Owned(handler: Handler): nat {
    Units(handler.permit) + (if handler.body.Body? then Units(handler.body.permit) else 0)
  }

  function Held(handlers: seq<Handler>): nat {
    if handlers == [] then 0 else Held(handlers[..|handlers| - 1]) + Owned(handlers[|handlers| - 1])
  }

  /** Where a permit is owned: by the handler from admission to its return, then by a streaming body. */
  predicate PermitInPlace(handler: Handler) {
    && (handler.permit <==> handler.stage.Reading? || handler.stage.Enqueueing? || handler.stage.AwaitingInit?)
    && (handler.body.Body? ==> handler.stage.Returned? && handler.stage.reply.Stream? && handler.body.permit)
  }

  ghost predicate PermitInv(max: nat, s: State) {
    s.free + Held(s.handlers) == max && forall h | 0 <= h < |s.handlers| :: PermitInPlace(s.handlers[h])
  }

  lemma {:induction false} HeldUpdate(handlers: seq<Handler>, h: nat, to: Handler)
    requires h < |handlers|
    ensures Held(handlers[h := to]) + Owned(handlers[h]) == Held(handlers) + Owned(to)
  {
    var n := |handlers| - 1;
    if h == n {
      assert handlers[h := to][..n] == handlers[..n];
    } else {
      assert handlers[h := to][..n] == handlers[..n][h := to];
      HeldUpdate(handlers[..n], h, to);
    }
  }

  /** One handler moves, and the semaphore takes what it no longer owns, or gives what it now owns. */
  lemma HandlerMoves(max: nat, s: State, s': State, h: nat)
    requires PermitInv(max, s) && h < |s.handlers| && |s'.handlers| == |s.handlers|
    requires s'.handlers == s.handlers[h := s'.handlers[h]] && PermitInPlace(s'.handlers[h])
    requires s'.free + Owned(s'.handlers[h]) == s.free + Owned(s.handlers[h])
    ensures PermitInv(max, s')
  {
    hide Held, PermitInPlace, Owned;
    HeldUpdate(s.handlers, h, s'.handlers[h]);
  }

  lemma NewHandler(max: nat, s: State, s': State, handler: Handler)
    requires PermitInv(max, s) && s'.free == s.free && s'.handlers == s.handlers + [handler]
    requires PermitInPlace(handler) && Owned(handler) == 0
    ensures PermitInv(max, s')
  {
    hide PermitInPlace, Owned;
    assert s'.handlers[..|s.handlers|] == s.handlers;
  }

  lemma PlaceOf(max: nat, s: State, h: nat)
    requires PermitInv(max, s) && h < |s.handlers|
    ensures PermitInPlace(s.handlers[h])
  {
  }

  /** Every return path, the stream's and the abandoned ones included. */
  lemma HandlerStep(cfg: P.Config, max: nat, s: State, step: Step)
    requires PermitInv(max, s) && Enabled(cfg, s, step) && !step.Arrive? && !step.Inside?
    ensures PermitInv(max, Next(cfg, s, step))
  {
    hide P.Next, P.Enabled, F.Fated, StillEnqueueing, PermitInv;
    var s' := Next(cfg, s, step);
    PlaceOf(max, s, step.h);
    assert PermitInPlace(s'.handlers[step.h]);
    HandlerMoves(max, s, s', step.h);
  }

  lemma PermitStep(cfg: P.Config, max: nat, s: State, step: Step)
    requires PermitInv(max, s) && Enabled(cfg, s, step)
    ensures PermitInv(max, Next(cfg, s, step))
  {
    if step.Arrive? {
      hide P.Next, P.Enabled;
      NewHandler(max, s, Next(cfg, s, step), Handler(step.req, Arrived, false, NoBody));
    } else if step.Inside? {
      hide P.Next, P.Enabled, F.Fated, Held;
    } else {
      HandlerStep(cfg, max, s, step);
    }
  }

  lemma {:induction false} PermitRun(cfg: P.Config, max: nat, s: State, steps: seq<Step>)
    requires PermitInv(max, s) && IsRun(cfg, s, steps)
    ensures PermitInv(max, After(cfg, s, steps))
    decreases steps
  {
    hide PermitInv, Enabled, Next;
    if steps == [] {
    } else {
      PermitStep(cfg, max, s, steps[0]);
      PermitRun(cfg, max, Next(cfg, s, steps[0]), steps[1..]);
    }
  }

  /** Over every run: no permit is lost, doubled or held anywhere but where it should be, on whichever
      path handlers return, and a request is turned away for want of one exactly when all are held. */
  lemma PermitsConserved(cfg: P.Config, max: nat, steps: seq<Step>)
    requires IsRun(cfg, Initial(max), steps)
    ensures var s := After(cfg, Initial(max), steps);
            && s.free + Held(s.handlers) == max
            && (forall h | 0 <= h < |s.handlers| :: PermitInPlace(s.handlers[h]))
            && forall h: nat | Enabled(cfg, s, TryAcquire(h)) ::
                 Next(cfg, s, TryAcquire(h)).handlers[h].stage == Returned(Refused(TooManyRequests))
                 <==> Held(s.handlers) == max
  {
    hide P.Next, P.Enabled;
    PermitRun(cfg, max, Initial(max), steps);
  }

  // ---------------------------------------------------------------------------------------------
  // Replies
  // ---------------------------------------------------------------------------------------------

  /** The sink's fate begins with this head. */
  ghost predicate HeadFated(cfg: P.Config, p: P.State, id: Id, head: StreamHead) {
    exists fate :: F.Fated(cfg, p, id, fate) && (fate.Closed? || fate.HungUp?) && fate.head == head
  }

  /** The handler is where its own enqueue call and its own sink have brought it. */
  ghost predicate OwnStage(cfg: P.Config, p: P.State, handler: Handler) {
    var req, id := handler.req, handler.req.id;
    match handler.stage
    case Arrived => P.FreshId(p, id)
    case Reading => P.FreshId(p, id)
    case Cancelled => true
    case Enqueueing => req in p.submitted
    case AwaitingInit => req in p.submitted && !StillEnqueueing(p, req) && id !in p.refused
    case Returned(Whole(response)) => F.Fated(cfg, p, id, Answered(response))
    case Returned(Stream(head)) => HeadFated(cfg, p, id, head)
    case Returned(Refused(refusal)) =>
      match refusal
      case QueueFull => id in p.refused && p.refused[id] == P.QueueFull
      case BatcherClosed => id in p.refused && p.refused[id] == P.BatcherClosed
      case DroppedResponse => F.Fated(cfg, p, id, Dropped)
      case TimedOut => req in p.submitted && !StillEnqueueing(p, req) && id !in p.refused
      case TooManyRequests => P.FreshId(p, id)
      case BodyTooLarge => P.FreshId(p, id)
  }

  /** What the gateway does inside may only add to what handlers go by. */
  ghost predicate Grows(cfg: P.Config, p: P.State, p': P.State) {
    && p.submitted <= p'.submitted && S.Extends(p.refused, p'.refused)
    && (forall id, fate :: F.Fated(cfg, p, id, fate) ==> F.Fated(cfg, p', id, fate))
    && (forall r | r in p.submitted && !StillEnqueueing(p, r) :: !StillEnqueueing(p', r))
    && (forall r | r in p.submitted && !StillEnqueueing(p, r) && r.id in p'.refused :: r.id in p.refused)
  }

  lemma StageStands(cfg: P.Config, p: P.State, p': P.State, handler: Handler)
    requires Grows(cfg, p, p') && OwnStage(cfg, p, handler)
    requires P.FreshId(p, handler.req.id) ==> P.FreshId(p', handler.req.id)
    ensures OwnStage(cfg, p', handler)
  {
    hide F.Fated, StillEnqueueing, P.FreshId;
  }

  lemma ReqsShrink(xs: seq<P.Attempt>, ys: seq<P.Attempt>, a: nat, req: P.Request)
    requires a < |xs|
    requires ys == P.Without(xs, a) || (|ys| == |xs| && ys == xs[a := ys[a]] && ys[a].req == xs[a].req)
    ensures HasAttempt(ys, req) ==> HasAttempt(xs, req)
  {
    if i :| 0 <= i < |ys| && ys[i].req == req {
      var j := if |ys| == |xs| || i < a then i else i + 1;
      assert xs[j].req == req;
    }
  }

  lemma AttemptsShrink(cfg: P.Config, p: P.State, step: P.Step, req: P.Request)
    requires P.Enabled(cfg, p, step) && !step.Submit?
    ensures StillEnqueueing(P.Next(cfg, p, step), req) ==> StillEnqueueing(p, req)
  {
    hide P.DoReceive, P.DoFlush, P.DoSubmitParcel, P.DoIdleExit, P.DoFinishJob, P.HasSender, P.KeyOf, P.FreshId,
         HasAttempt;
    var p' := P.Next(cfg, p, step);
    if step.FindSender? || step.TrySend? || step.RemoveStale? {
      ReqsShrink(p.attempts, p'.attempts, step.a, req);
    } else {
      assert p'.attempts == p.attempts;
    }
  }

  /** Only an enqueue call under way can add to the refusals, and only for its own request. */
  lemma RefusedByAttempt(cfg: P.Config, p: P.State, step: P.Step)
    requires P.Enabled(cfg, p, step) && (step.TrySend? || step.RemoveStale?)
    ensures forall id | id in P.Next(cfg, p, step).refused :: id in p.refused || id == p.attempts[step.a].req.id
  {
    hide P.KeyOf;
    if step.TrySend? {
      assert P.DoTrySend(cfg, p, step.a).refused in {p.refused, p.refused[p.attempts[step.a].req.id := P.QueueFull]};
    } else {
      assert P.DoRemoveStale(p, step.a).refused in {p.refused, p.refused[p.attempts[step.a].req.id := P.BatcherClosed]};
    }
  }

  lemma NewRefusalsEnqueueing(cfg: P.Config, p: P.State, step: P.Step, r: P.Request)
    requires S.Sound(p) && P.Enabled(cfg, p, step) && !step.Submit?
    requires r in p.submitted && r.id in P.Next(cfg, p, step).refused && r.id !in p.refused
    ensures StillEnqueueing(p, r)
  {
    if step.TrySend? || step.RemoveStale? {
      S.AttemptUndecided(p, step.a);
      RefusedByAttempt(cfg, p, step);
      hide T.Conserved, P.Next, P.Enabled;
      assert p.attempts[step.a].req == r;
    } else {
      S.OthersRefuseNobody(cfg, p, step);
      hide P.Next;
    }
  }

  lemma FatesStand(cfg: P.Config, p: P.State, step: P.Step)
    requires S.SinkInv(p) && P.Enabled(cfg, p, step)
    ensures forall id, fate :: F.Fated(cfg, p, id, fate) ==> F.Fated(cfg, P.Next(cfg, p, step), id, fate)
  {
    hide P.Next, P.Enabled, F.Fated, T.Conserved, S.UniqueIds, S.EndsAgree, S.RefusalsAgree;
    forall id, fate | F.Fated(cfg, p, id, fate) ensures F.Fated(cfg, P.Next(cfg, p, step), id, fate) {
      F.FateStands(cfg, p, step, id, fate);
    }
  }

  lemma InsideGrows(cfg: P.Config, p: P.State, step: P.Step)
    requires S.SinkInv(p) && P.Enabled(cfg, p, step) && !step.Submit?
    ensures Grows(cfg, p, P.Next(cfg, p, step))
  {
    hide P.Next, P.Enabled, T.Conserved, S.UniqueIds, S.EndsAgree, S.RefusalsAgree, StillEnqueueing;
    var p' := P.Next(cfg, p, step);
    FatesStand(cfg, p, step);
    S.RefusedStands(cfg, p, step);
    T.SubmittedStep(cfg, p, step);
    forall r | !StillEnqueueing(p, r) ensures !StillEnqueueing(p', r) {
      AttemptsShrink(cfg, p, step, r);
    }
    forall r | r in p.submitted && !StillEnqueueing(p, r) && r.id in p'.refused ensures r.id in p.refused {
      if r.id !in p.refused {
        NewRefusalsEnqueueing(cfg, p, step, r);
      }
    }
  }

  /** A new request disturbs nobody else's. */
  lemma SubmitGrows(cfg: P.Config, p: P.State, req: P.Request)
    requires P.Enabled(cfg, p, P.Submit(req))
    ensures Grows(cfg, p, P.Next(cfg, p, P.Submit(req)))
  {
    hide F.InRun;
    var p' := P.Next(cfg, p, P.Submit(req));
    forall r | r in p.submitted && !StillEnqueueing(p, r) ensures !StillEnqueueing(p', r) {
      assert forall i | 0 <= i < |p'.attempts| :: i < |p.attempts| ==> p'.attempts[i] == p.attempts[i];
      assert r.id != req.id;
    }
  }

  /** Requests are as the handler makes them, each with an id of its own. */
  ghost predicate OwnIds(handlers: seq<Handler>) {
    && (forall h | 0 <= h < |handlers| :: P.FromHandler(handlers[h].req))
    && (forall h, k | 0 <= h < k < |handlers| :: handlers[h].req.id != handlers[k].req.id)
  }

  ghost predicate ReplyInv(cfg: P.Config, s: State) {
    && S.SinkInv(s.pipe) && OwnIds(s.handlers)
    && forall h | 0 <= h < |s.handlers| :: OwnStage(cfg, s.pipe, s.handlers[h])
  }

  /** A request that was admitted and read can always be enqueued. */
  lemma ReadCanEnqueue(cfg: P.Config, s: State, h: nat, fits: bool)
    requires ReplyInv(cfg, s) && h < |s.handlers| && s.handlers[h].stage.Reading?
    ensures Enabled(cfg, s, BodyRead(h, fits))
  {
    assert OwnStage(cfg, s.pipe, s.handlers[h]);
    hide S.SinkInv, P.FreshId;
  }

  /** One handler moves within what the gateway has become. */
  lemma HandlerStands(cfg: P.Config, s: State, s': State, h: nat)
    requires ReplyInv(cfg, s) && S.SinkInv(s'.pipe) && Grows(cfg, s.pipe, s'.pipe)
    requires h < |s.handlers| && |s'.handlers| == |s.handlers| && s'.handlers == s.handlers[h := s'.handlers[h]]
    requires s'.handlers[h].req == s.handlers[h].req && OwnStage(cfg, s'.pipe, s'.handlers[h])
    requires forall k | 0 <= k < |s.handlers| && k != h ::
               P.FreshId(s.pipe, s.handlers[k].req.id) ==> P.FreshId(s'.pipe, s.handlers[k].req.id)
    ensures ReplyInv(cfg, s')
  {
    hide F.Fated, S.SinkInv, Grows, OwnStage, P.FreshId, P.FromHandler;
    forall k | 0 <= k < |s'.handlers| ensures OwnStage(cfg, s'.pipe, s'.handlers[k]) {
      if k != h {
        StageStands(cfg, s.pipe, s'.pipe, s.handlers[k]);
      }
    }
  }

  lemma SameGrows(cfg: P.Config, p: P.State)
    ensures Grows(cfg, p, p)
  {
  }

  lemma OthersStayFresh(handlers: seq<Handler>, p: P.State, p': P.State, h: nat)
    requires OwnIds(handlers) && h < |handlers| && p'.submitted == p.submitted + multiset{handlers[h].req}
    ensures forall k | 0 <= k < |handlers| && k != h ::
              P.FreshId(p, handlers[k].req.id) ==> P.FreshId(p', handlers[k].req.id)
  {
    hide P.FromHandler;
  }

  lemma BodyReadStands(cfg: P.Config, s: State, h: nat)
    requires ReplyInv(cfg, s) && h < |s.handlers| && P.Enabled(cfg, s.pipe, P.Submit(s.handlers[h].req))
    ensures ReplyInv(cfg, With(s, h, s.handlers[h].(stage := Enqueueing))
                          .(pipe := P.Next(cfg, s.pipe, P.Submit(s.handlers[h].req))))
  {
    var req := s.handlers[h].req;
    hide F.Fated, S.SinkInv, Grows, P.Next, P.Enabled, P.FreshId, OwnIds, StillEnqueueing;
    SubmitGrows(cfg, s.pipe, req);
    S.SinkInvStep(cfg, s.pipe, P.Submit(req));
    T.SubmittedStep(cfg, s.pipe, P.Submit(req));
    OthersStayFresh(s.handlers, s.pipe, P.Next(cfg, s.pipe, P.Submit(req)), h);
    var s' := With(s, h, s.handlers[h].(stage := Enqueueing)).(pipe := P.Next(cfg, s.pipe, P.Submit(req)));
    HandlerStands(cfg, s, s', h);
  }

  lemma ArriveStands(cfg: P.Config, s: State, req: P.Request)
    requires ReplyInv(cfg, s) && P.FromHandler(req) && P.FreshId(s.pipe, req.id)
    requires forall h | 0 <= h < |s.handlers| :: s.handlers[h].req.id != req.id
    ensures ReplyInv(cfg, s.(handlers := s.handlers + [Handler(req, Arrived, false, NoBody)]))
  {
    hide S.SinkInv, P.FreshId, P.FromHandler, StillEnqueueing;
    var handler := Handler(req, Arrived, false, NoBody);
    assert OwnStage(cfg, s.pipe, handler);
    hide OwnStage;
  }

  lemma PipeStands(cfg: P.Config, s: State, p': P.State)
    requires ReplyInv(cfg, s) && S.SinkInv(p') && Grows(cfg, s.pipe, p') && p'.submitted == s.pipe.submitted
    ensures ReplyInv(cfg, s.(pipe := p'))
  {
    hide F.Fated, S.SinkInv, Grows, OwnStage, OwnIds;
    forall k | 0 <= k < |s.handlers| ensures OwnStage(cfg, p', s.handlers[k]) {
      StageStands(cfg, s.pipe, p', s.handlers[k]);
    }
  }

  lemma InsideStands(cfg: P.Config, s: State, step: P.Step)
    requires ReplyInv(cfg, s) && !step.Submit? && P.Enabled(cfg, s.pipe, step)
    ensures ReplyInv(cfg, s.(pipe := P.Next(cfg, s.pipe, step)))
  {
    hide F.Fated, S.SinkInv, Grows, OwnStage, P.Next, P.Enabled;
    InsideGrows(cfg, s.pipe, step);
    S.SinkInvStep(cfg, s.pipe, step);
    T.SubmittedStep(cfg, s.pipe, step);
    hide ReplyInv;
    PipeStands(cfg, s, P.Next(cfg, s.pipe, step));
  }

  lemma StageOf(cfg: P.Config, s: State, h: nat)
    requires ReplyInv(cfg, s) && h < |s.handlers|
    ensures S.SinkInv(s.pipe) && OwnStage(cfg, s.pipe, s.handlers[h])
  {
    hide S.SinkInv, OwnStage, OwnIds;
  }

  lemma OutsideStands(cfg: P.Config, s: State, step: Step)
    requires ReplyInv(cfg, s) && Enabled(cfg, s, step) && !step.Inside? && !step.Arrive?
            && !(step.BodyRead? && step.fits)
    ensures ReplyInv(cfg, Next(cfg, s, step))
  {
    hide F.Fated, S.SinkInv, Grows, P.Next, P.Enabled, StillEnqueueing, P.FreshId, OwnIds, ReplyInv;
    StageOf(cfg, s, step.h);
    var s' := Next(cfg, s, step);
    assert s'.pipe == s.pipe && OwnStage(cfg, s.pipe, s'.handlers[step.h]);
    SameGrows(cfg, s.pipe);
    HandlerStands(cfg, s, s', step.h);
  }

  lemma ReplyStep(cfg: P.Config, s: State, step: Step)
    requires ReplyInv(cfg, s) && Enabled(cfg, s, step)
    ensures ReplyInv(cfg, Next(cfg, s, step))
  {
    hide ReplyInv, P.Next, P.Enabled;
    if step.Arrive? {
      ArriveStands(cfg, s, step.req);
    } else if step.Inside? {
      InsideStands(cfg, s, step.step);
    } else if step.BodyRead? && step.fits {
      BodyReadStands(cfg, s, step.h);
    } else {
      OutsideStands(cfg, s, step);
    }
  }

  lemma {:induction false} ReplyRun(cfg: P.Config, s: State, steps: seq<Step>)
    requires ReplyInv(cfg, s) && IsRun(cfg, s, steps)
    ensures ReplyInv(cfg, After(cfg, s, steps))
    decreases steps
  {
    hide ReplyInv, Enabled, Next;
    if steps == [] {
    } else {
      ReplyStep(cfg, s, steps[0]);
      ReplyRun(cfg, Next(cfg, s, steps[0]), steps[1..]);
    }
  }

  lemma NobodyYet(cfg: P.Config, max: nat)
    ensures ReplyInv(cfg, Initial(max))
  {
    S.InitialSinks();
  }

  /** Over every run each handler has what its own request came to: the response or the very head its
      own sink was given, a 502 only for its own dropped sink, a 429 only for its own refused enqueue,
      a timeout only for a request that was accepted. */
  lemma {:induction false} OwnReply(cfg: P.Config, max: nat, steps: seq<Step>)
    requires IsRun(cfg, Initial(max), steps)
    ensures var s := After(cfg, Initial(max), steps);
            && (forall h | 0 <= h < |s.handlers| :: OwnStage(cfg, s.pipe, s.handlers[h]))
            && forall id, c, d | F.Fated(cfg, s.pipe, id, c) && F.Fated(cfg, s.pipe, id, d) :: c == d
  {
    NobodyYet(cfg, max);
    ReplyRun(cfg, Initial(max), steps);
    var s := After(cfg, Initial(max), steps);
    hide After, IsRun, F.Fated, OwnStage, S.EndsAgree, S.Sound;
    forall id, c, d | F.Fated(cfg, s.pipe, id, c) && F.Fated(cfg, s.pipe, id, d) ensures c == d {
      F.OneFate(cfg, s.pipe, id, c, d);
    }
  }

  /** Each refusal has its one occasion: no free permit, a body that does not fit, `enqueue` saying so, the
      handler's own sink dropped, or its timer; and an accepted request waits for its response. */
  lemma RefusedExactlyWhen(cfg: P.Config, s: State, step: Step, h: nat)
    requires Enabled(cfg, s, step) && h < |s.handlers| && !s.handlers[h].stage.Returned?
    ensures var stage, id := Next(cfg, s, step).handlers[h].stage, s.handlers[h].req.id;
            && (stage == Returned(Refused(TooManyRequests)) <==> step == TryAcquire(h) && s.free == 0)
            && (stage == Returned(Refused(BodyTooLarge)) <==> step == BodyRead(h, false))
            && (stage == Returned(Refused(QueueFull)) <==>
                  step == EnqueueReturns(h) && id in s.pipe.refused && s.pipe.refused[id] == P.QueueFull)
            && (stage == Returned(Refused(BatcherClosed)) <==>
                  step == EnqueueReturns(h) && id in s.pipe.refused && s.pipe.refused[id] == P.BatcherClosed)
            && (stage == Returned(Refused(DroppedResponse)) <==> step == SenderDropped(h))
            && (stage == Returned(Refused(TimedOut)) <==> step == TimeoutFires(h))
            && (step == EnqueueReturns(h) && id !in s.pipe.refused ==> stage == AwaitingInit)
            && (step == TryAcquire(h) && s.free > 0 ==> stage == Reading)
            && (step == BodyRead(h, true) ==> stage == Enqueueing)
  {
    hide P.Next, P.Enabled, F.Fated, StillEnqueueing, P.FreshId, P.FromHandler;
  }

  /** A reply once given stands, and what it was made of stands behind it. */
  lemma {:induction false} OneReplyEach(cfg: P.Config, s: State, steps: seq<Step>, h: nat)
    requires ReplyInv(cfg, s) && IsRun(cfg, s, steps) && h < |s.handlers| && s.handlers[h].stage.Returned?
    ensures var t := After(cfg, s, steps);
            h < |t.handlers| && t.handlers[h].stage == s.handlers[h].stage && t.handlers[h].req == s.handlers[h].req
            && OwnStage(cfg, t.pipe, t.handlers[h])
    decreases steps
  {
    if steps == [] {
    } else {
      ReplyStep(cfg, s, steps[0]);
      ReturnedStays(cfg, s, steps[0], h);
      hide ReplyInv, Enabled, Next, OwnStage;
      OneReplyEach(cfg, Next(cfg, s, steps[0]), steps[1..], h);
    }
  }

  lemma ReturnedStays(cfg: P.Config, s: State, step: Step, h: nat)
    requires Enabled(cfg, s, step) && h < |s.handlers| && s.handlers[h].stage.Returned?
    ensures var s' := Next(cfg, s, step);
            h < |s'.handlers| && s'.handlers[h].stage == s.handlers[h].stage && s'.handlers[h].req == s.handlers[h].req
  {
    hide P.Next, P.Enabled, StillEnqueueing;
  }

  // ---------------------------------------------------------------------------------------------
  // Waiting handlers
  // ---------------------------------------------------------------------------------------------

  lemma {:induction false} DeafRun(cfg: P.Config, s: State, steps: seq<Step>)
    requires GoneOnlyDeaf(cfg.alive, s.pipe.ends) && IsRun(cfg, s, steps)
    ensures GoneOnlyDeaf(cfg.alive, After(cfg, s, steps).pipe.ends)
    decreases steps
  {
    if steps == [] {
    } else {
      assert GoneOnlyDeaf(cfg.alive, Next(cfg, s, steps[0]).pipe.ends) by {
        if steps[0].Inside? {
          S.DeafStep(cfg, s.pipe, steps[0].step);
        } else if steps[0].BodyRead? && steps[0].fits {
          S.DeafStep(cfg, s.pipe, P.Submit(s.handlers[steps[0].h].req));
        }
        hide GoneOnlyDeaf, P.Next, P.Enabled, StillEnqueueing;
      }
      hide GoneOnlyDeaf, Enabled, Next;
      DeafRun(cfg, Next(cfg, s, steps[0]), steps[1..]);
    }
  }

  lemma AwaitingFacts(cfg: P.Config, s: State, h: nat)
    requires ReplyInv(cfg, s) && h < |s.handlers| && s.handlers[h].stage.AwaitingInit?
    ensures var req := s.handlers[h].req;
            S.SinkInv(s.pipe) && req in s.pipe.submitted && req.id !in s.pipe.refused && !StillEnqueueing(s.pipe, req)
  {
    hide S.SinkInv, StillEnqueueing;
    assert OwnStage(cfg, s.pipe, s.handlers[h]);
  }

  lemma WaitingAccounted(cfg: P.Config, s: State, h: nat)
    requires ReplyInv(cfg, s) && GoneOnlyDeaf(cfg.alive, s.pipe.ends)
    requires h < |s.handlers| && s.handlers[h].stage.AwaitingInit?
    ensures var req := s.handlers[h].req;
            if req.id in s.pipe.ends then
              S.OnItsWay(s.pipe, req) == 0
              && (cfg.alive(req.id, 0) ==>
                    || Enabled(cfg, s, InitArrives(h, s.pipe.ends[req.id]))
                    || Enabled(cfg, s, SenderDropped(h)))
            else S.OnItsWay(s.pipe, req) == 1 && !StillEnqueueing(s.pipe, req)
  {
    hide ReplyInv, StillEnqueueing, S.OnItsWay, S.SinkInv, P.Enabled;
    AwaitingFacts(cfg, s, h);
    S.Accounted(s.pipe, s.handlers[h].req);
  }

  /** Nobody is forgotten: while a handler waits, its request is either on its way through the gateway,
      in exactly one place, or its sink has been used; and then, unless the very first send missed it,
      it can return with its own answer without running into the timeout. */
  lemma NobodyForgotten(cfg: P.Config, max: nat, steps: seq<Step>, h: nat)
    requires IsRun(cfg, Initial(max), steps) && h < |After(cfg, Initial(max), steps).handlers|
    requires After(cfg, Initial(max), steps).handlers[h].stage.AwaitingInit?
    ensures var s := After(cfg, Initial(max), steps);
            var req := s.handlers[h].req;
            if req.id in s.pipe.ends then
              S.OnItsWay(s.pipe, req) == 0
              && (cfg.alive(req.id, 0) ==>
                    || Enabled(cfg, s, InitArrives(h, s.pipe.ends[req.id]))
                    || Enabled(cfg, s, SenderDropped(h)))
            else S.OnItsWay(s.pipe, req) == 1 && !StillEnqueueing(s.pipe, req)
  {
    NobodyYet(cfg, max);
    ReplyRun(cfg, Initial(max), steps);
    DeafRun(cfg, Initial(max), steps);
    hide After, IsRun, ReplyInv, Enabled, InitOf, S.OnItsWay;
    WaitingAccounted(cfg, After(cfg, Initial(max), steps), h);
  }
}
