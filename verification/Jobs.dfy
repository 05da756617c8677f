/** One invocation job: what its outcome makes of every sink it holds. */
module Jobs {
  import opened Wire
  import opened Promise
  import Framing
  import opened Demux
  import opened StreamDispatch
  import opened Buffered

  datatype Mode = BufferedMode | StreamMode

  /** What the invoker returns. */
  datatype Outcome =
    | InvokeError(detail: string)
    | BufferedReply(parsed: Result<BatchResponse, string>)
    | StreamReply(stream: seq<Item>)

  /** The batch size a job reports is the number of its pending senders. */
  function JobEnv(lib: Lib, alive: (Id, nat) -> bool, ids: set<Id>, waitMs: nat): Env {
    Env(lib, Meta(|ids|, waitMs), alive)
  }

  /** Where every client of the job ends. */
  function JobEnds(lib: Lib, alive: (Id, nat) -> bool, mode: Mode, ids: set<Id>, waitMs: nat,
                   outcome: Outcome): Clients {
    var env := JobEnv(lib, alive, ids, waitMs);
    match outcome
    case InvokeError(detail) => FailAll(env, InvokeFailed(detail), Fresh(ids))
    case BufferedReply(parsed) =>
      if mode == BufferedMode then map id | id in ids :: Answered(AnswerFor(env, parsed, id))
      else FailAll(env, UnexpectedResponse, Fresh(ids))
    case StreamReply(stream) =>
      if mode == StreamMode then Dispatched(env, Fresh(ids), stream).clients
      else FailAll(env, UnexpectedResponse, Fresh(ids))
  }

  lemma FailedAnswers(env: Env, ids: set<Id>, message: Message)
    ensures FailAll(env, message, Fresh(ids))
            == map id | id in ids :: Answered(TextResponse(BAD_GATEWAY, message, env.meta))
  {
  }

  /** `run_invocation_job`, by the dispatchers. */
  method RunInvocationJob(lib: Lib, waitMs: nat, alive: (Id, nat) -> bool, mode: Mode, ids: set<Id>, outcome: Outcome)
    returns (ends: Clients)
    ensures ends == JobEnds(lib, alive, mode, ids, waitMs, outcome)
  {
    hide Dispatched, FailAll, AnswerFor, Fresh, Dispatcher.Valid;
    if mode == StreamMode && outcome.StreamReply? {
      var d, exit := DispatchResponseStream(lib, waitMs, alive, ids, outcome.stream);
      ends := map id | id in d.wire :: d.wire[id].View();
    } else if mode == StreamMode {
      var d := new Dispatcher(lib, waitMs, alive, ids);
      d.FailAllStream(if outcome.InvokeError? then InvokeFailed(outcome.detail) else UnexpectedResponse);
      ends := map id | id in d.wire :: d.wire[id].View();
    } else {
      var env := JobEnv(lib, alive, ids, waitMs);
      var d := new BufferedDispatcher(lib, waitMs, alive, ids);
      if outcome.BufferedReply? {
        d.DispatchBuffered(outcome.parsed);
      } else {
        var message := if outcome.InvokeError? then InvokeFailed(outcome.detail) else UnexpectedResponse;
        d.FailAllBuffered(message);
        FailedAnswers(env, ids, message);
      }
      ends := map id | id in d.answers :: Answered(d.answers[id]);
    }
  }

  /** A failed invocation, or a reply of the wrong kind, is told to every client of the job, with its size. */
  lemma FailureToldToAll(lib: Lib, alive: (Id, nat) -> bool, mode: Mode, ids: set<Id>, waitMs: nat, outcome: Outcome,
                         id: Id)
    requires id in ids
    requires outcome.InvokeError? || (outcome.BufferedReply? <==> mode == StreamMode)
    ensures var ends := JobEnds(lib, alive, mode, ids, waitMs, outcome);
            id in ends
            && ends[id] == Answered(BadGateway(if outcome.InvokeError? then InvokeFailed(outcome.detail)
                                               else UnexpectedResponse, Meta(|ids|, waitMs)))
  {
    hide Dispatched, AnswerFor;
  }

  /** Whatever the outcome, every sink of the job is used up. */
  lemma JobSettles(lib: Lib, alive: (Id, nat) -> bool, mode: Mode, ids: set<Id>, waitMs: nat, outcome: Outcome)
    ensures var ends := JobEnds(lib, alive, mode, ids, waitMs, outcome);
            ends.Keys == ids && forall id | id in ids :: !ends[id].Live()
  {
    if outcome.StreamReply? {
      EveryExitResolves(JobEnv(lib, alive, ids, waitMs), ids, outcome.stream);
    }
    hide Dispatched, AnswerFor;
  }

  // ---------------------------------------------------------------------------------------------
  // The batch size that responses report
  // ---------------------------------------------------------------------------------------------

  /** Whatever the client has been given carries the metadata of its invocation. */
  predicate Stamped(meta: Meta, c: Client) {
    match c
    case Answered(response) => response.meta == Some(meta)
    case Streaming(head, _) => head.meta == meta
    case Closed(head, _) => head.meta == meta
    case HungUp(head, _) => head.meta == meta
    case _ => true
  }

  predicate AllStamped(meta: Meta, cs: Clients) {
    forall id | id in cs :: Stamped(meta, cs[id])
  }

  lemma StampedStep(env: Env, cs: Clients, p: Parsed)
    requires AllStamped(env.meta, cs)
    ensures AllStamped(env.meta, StepAll(env, cs, p).clients)
  {
    if p.Ok? && p.value.id in cs {
      assert Stamped(env.meta, ClientStep(env, cs[p.value.id], p.value).client);
    }
    hide ClientStep;
  }

  lemma {:induction false} StampedRun(env: Env, cs: Clients, ps: seq<Parsed>)
    requires AllStamped(env.meta, cs)
    ensures AllStamped(env.meta, RunAll(env, cs, ps).clients)
    decreases ps
  {
    if ps == [] {
    } else {
      StampedStep(env, cs, ps[0]);
      hide StepAll, AllStamped;
      if StepAll(env, cs, ps[0]).fault.None? {
        StampedRun(env, StepAll(env, cs, ps[0]).clients, ps[1..]);
      }
    }
  }

  lemma StampedDispatch(env: Env, ids: set<Id>, stream: seq<Item>)
    ensures AllStamped(env.meta, Dispatched(env, Fresh(ids), stream).clients)
  {
    var body := Framing.Lines(Cat(stream[..Admitted(stream, 0)]));
    var last := Framing.LastLine(Cat(stream[..Admitted(stream, 0)]));
    hide Framing.Lines, Framing.LastLine, Cat, Admitted, ParseAll;
    StampedRun(env, Fresh(ids), ParseAll(env.lib, body));
    var run := RunLines(env, Fresh(ids), body);
    StampedRun(env, run.clients, ParseAll(env.lib, last));
    hide RunAll;
  }

  /** Every response of a job that carries metadata reports the number of the job's requests. */
  lemma JobReportsItsSize(lib: Lib, alive: (Id, nat) -> bool, mode: Mode, ids: set<Id>, waitMs: nat, outcome: Outcome)
    ensures AllStamped(Meta(|ids|, waitMs), JobEnds(lib, alive, mode, ids, waitMs, outcome))
  {
    if outcome.StreamReply? {
      StampedDispatch(JobEnv(lib, alive, ids, waitMs), ids, outcome.stream);
    }
    hide Dispatched;
  }

  // ---------------------------------------------------------------------------------------------
  // Only a client that no longer listens is given up
  // ---------------------------------------------------------------------------------------------

  /** The send that found the client gone is one that does not find a receiver. */
  predicate Deaf(alive: (Id, nat) -> bool, id: Id, c: Client) {
    match c
    case Gone => !alive(id, 0)
    case HungUp(_, body) => !alive(id, 1 + |body|)
    case _ => true
  }

  predicate GoneOnlyDeaf(alive: (Id, nat) -> bool, cs: Clients) {
    forall id | id in cs :: Deaf(alive, id, cs[id])
  }

  lemma DeafStep(env: Env, c: Client, rec: Record)
    requires Deaf(env.alive, rec.id, c)
    ensures Deaf(env.alive, rec.id, ClientStep(env, c, rec).client)
  {
  }

  lemma {:induction false} DeafRun(env: Env, cs: Clients, ps: seq<Parsed>)
    requires GoneOnlyDeaf(env.alive, cs)
    ensures GoneOnlyDeaf(env.alive, RunAll(env, cs, ps).clients)
    decreases ps
  {
    if ps == [] {
    } else {
      var s := StepAll(env, cs, ps[0]);
      if ps[0].Ok? && ps[0].value.id in cs {
        DeafStep(env, cs[ps[0].value.id], ps[0].value);
      }
      assert GoneOnlyDeaf(env.alive, s.clients) by { hide ClientStep, Deaf; }
      hide StepAll, GoneOnlyDeaf;
      if s.fault.None? {
        DeafRun(env, s.clients, ps[1..]);
      }
    }
  }

  lemma SweptDeaf(env: Env, message: Message, cs: Clients)
    requires GoneOnlyDeaf(env.alive, cs)
    ensures GoneOnlyDeaf(env.alive, FailAll(env, message, cs))
  {
  }

  lemma DeafDispatch(env: Env, ids: set<Id>, stream: seq<Item>)
    ensures GoneOnlyDeaf(env.alive, Dispatched(env, Fresh(ids), stream).clients)
  {
    var body := Framing.Lines(Cat(stream[..Admitted(stream, 0)]));
    var last := Framing.LastLine(Cat(stream[..Admitted(stream, 0)]));
    hide Framing.Lines, Framing.LastLine, Cat, Admitted, ParseAll;
    DeafRun(env, Fresh(ids), ParseAll(env.lib, body));
    hide RunAll, GoneOnlyDeaf, FailAll;
    var run, exit := RunLines(env, Fresh(ids), body), Dispatched(env, Fresh(ids), stream).exit;
    DeafRun(env, run.clients, ParseAll(env.lib, last));
    SweptDeaf(env, exit, run.clients);
    SweptDeaf(env, exit, RunLines(env, run.clients, last).clients);
  }

  lemma JobLosesOnlyDeaf(lib: Lib, alive: (Id, nat) -> bool, mode: Mode, ids: set<Id>, waitMs: nat, outcome: Outcome)
    ensures GoneOnlyDeaf(alive, JobEnds(lib, alive, mode, ids, waitMs, outcome))
  {
    if outcome.StreamReply? {
      DeafDispatch(JobEnv(lib, alive, ids, waitMs), ids, outcome.stream);
    }
    hide Dispatched;
  }

  /** The batch size a client can read off its response. */
  function SizeSeen(c: Client): Option<nat> {
    match c
    case Answered(response) => if response.meta.Some? then Some(response.meta.value.batchSize) else None
    case Closed(head, _) => Some(head.meta.batchSize)
    case HungUp(head, _) => Some(head.meta.batchSize)
    case _ => None
  }
}
