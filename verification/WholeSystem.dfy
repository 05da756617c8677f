/** From the user's handlers to the HTTP responses, over every run of the whole gateway. */
module WholeSystem {
  import opened Wire
  import opened Promise
  import opened Demux
  import Framing
  import opened StreamDispatch
  import opened Select
  import opened Adapter
  import opened EndToEnd
  import opened Spoiled
  import opened Buffered
  import opened WholeResponses
  import opened Jobs
  import opened FlushBatch
  import Proxy
  import R = ProxyRuns
  import D = ProxyDelivery
  import A = Admission
  import F = PipelineFates
  import P = Pipeline
  import S = PipelineSinks

  /** What the user's handlers make of each request, what workers behind a proxy may post for it, and
      how records are written down. */
  datatype Backend = Backend(
    answer: Id -> Handled, world: R.World, posted: (Id, Proxy.Posted) -> bool, encode: Record -> Bytes)

  function IdsIn(reqs: seq<P.Request>): (ids: seq<Id>)
    ensures |ids| == |reqs|
  {
    seq(|reqs|, i requires 0 <= i < |reqs| => reqs[i].id)
  }

  function Answers(backend: Backend, reqs: seq<P.Request>): (handled: seq<Handled>)
    ensures |handled| == |reqs|
  {
    seq(|reqs|, i requires 0 <= i < |reqs| => backend.answer(reqs[i].id))
  }

  /** Who writes a response stream: the adapter, record by record of all items or one whole record an
      item, in any merge; or the proxy, in any calm run. */
  datatype Source =
    | Interleaved(log: seq<(nat, Record)>)
    | Wholes(log: seq<(nat, Record)>)
    | Proxied(steps: seq<R.Step>)

  /** A run of the proxy in which workers post what they may, up to some point of serving these requests. */
  ghost predicate ProxyServes(backend: Backend, ids: set<Id>, steps: seq<R.Step>) {
    && R.IsRun(backend.world, R.INITIAL, steps) && R.Calm(backend.world, R.INITIAL, steps)
    && (forall id, posted | R.Post(id, posted) in steps :: backend.posted(id, posted))
    && var s := R.After(backend.world, R.INITIAL, steps);
       (s.inner.active.SmugBatch? || s.inner.active.SmugFinalizing?) && Elements(Proxy.IdsOf(s.batch)) == ids
  }

  ghost predicate Writes(lib: Lib, backend: Backend, reqs: seq<P.Request>, source: Source) {
    match source
    case Interleaved(log) => Merges(AdapterStreams(lib, IdsIn(reqs), Answers(backend, reqs)), log)
    case Wholes(log) => Merges(WholeStreams(lib, IdsIn(reqs), Answers(backend, reqs)), log)
    case Proxied(steps) => ProxyServes(backend, P.ReqIds(reqs), steps)
  }

  ghost function Written(backend: Backend, source: Source): seq<Record>
    requires source.Proxied? ==> R.IsRun(backend.world, R.INITIAL, source.steps)
  {
    if source.Proxied? then AsRecords(R.After(backend.world, R.INITIAL, source.steps).lines) else Records(source.log)
  }

  /** The bytes written by one of them for these requests, up to any point. */
  ghost predicate Streams(lib: Lib, backend: Backend, reqs: seq<P.Request>, source: Source, bytes: Bytes) {
    && Writes(lib, backend, reqs, source)
    && EncoderLaw(lib, backend.encode, Written(backend, source))
    && PartsDoNotParse(lib, backend.encode, Written(backend, source))
    && bytes <= Framing.Spell(EncodeAll(backend.encode, Written(backend, source)), [])
  }

  /** The bytes are all that it wrote, be the last LF missing, and it wrote an answer for every request that
      can be passed on. */
  ghost predicate InWhole(env: Env, backend: Backend, reqs: seq<P.Request>, source: Source, bytes: Bytes)
    requires Writes(env.lib, backend, reqs, source)
  {
    && EncoderLaw(env.lib, backend.encode, Written(backend, source))
    && Framing.Writes(bytes, EncodeAll(backend.encode, Written(backend, source)))
    && match source
       case Interleaved(_) => forall h | h in Answers(backend, reqs) :: Deliverable(env.lib, h)
       case Wholes(_) => forall h | h in Answers(backend, reqs) :: ServedWhole(env.lib, env.meta, h).Some?
       case Proxied(steps) =>
         var s := R.After(backend.world, R.INITIAL, steps);
         s.inner.active.SmugFinalizing? && D.AllServed(env, backend.world, s.posts)
  }

  function EnvOf(cfg: P.Config, run: P.Running): Env {
    Env(cfg.lib, Meta(|run.job.requests|, run.job.waitMs), cfg.alive)
  }

  /** What came back for the job is the backend's, perhaps cut short, or an error of the invocation. A
      reply of the wrong kind is not looked into. */
  ghost predicate Backed(cfg: P.Config, backend: Backend, run: P.Running) {
    match run.outcome
    case InvokeError(_) => true
    case BufferedReply(parsed) =>
      run.job.key.mode == BufferedMode && parsed.Ok? ==>
        parsed.value ==
        BatchResponse(1, WholeItems(cfg.lib, IdsIn(run.job.requests), Answers(backend, run.job.requests)))
    case StreamReply(stream) =>
      run.job.key.mode == StreamMode ==>
        exists source :: Streams(cfg.lib, backend, run.job.requests, source, Cat(stream[..Admitted(stream, 0)]))
  }

  /** It came back whole, and the answer can be passed on: in a stream all answers of the job, in a
      buffered reply the one for this request. */
  ghost predicate Complete(cfg: P.Config, backend: Backend, run: P.Running, id: Id) {
    match run.outcome
    case InvokeError(_) => false
    case BufferedReply(parsed) =>
      && run.job.key.mode == BufferedMode
      && parsed ==
         Ok(BatchResponse(1, WholeItems(cfg.lib, IdsIn(run.job.requests), Answers(backend, run.job.requests))))
      && ServedWhole(cfg.lib, EnvOf(cfg, run).meta, backend.answer(id)).Some?
    case StreamReply(stream) =>
      && run.job.key.mode == StreamMode && Admitted(stream, 0) == |stream|
      && exists source ::
           && Writes(cfg.lib, backend, run.job.requests, source)
           && InWhole(EnvOf(cfg, run), backend, run.job.requests, source, Cat(stream))
  }

  /** An error text of the gateway's own making. */
  predicate GatewayError(response: Response) {
    response.body.Text? && !response.body.message.Reported?
  }

  /** The answer that some post for this request should get its client, or `None` if it cannot be passed on. */
  ghost predicate ByWorker(env: Env, backend: Backend, id: Id, answer: Option<Response>) {
    exists posted :: backend.posted(id, posted) && D.ServedPost(env, backend.world.parseReply, posted) == answer
  }

  /** The client has been given nothing but its own handler's or worker's answer, or a part of it, or an
      error; it is left without any answer only if its own was refused. */
  ghost predicate OwnFate(env: Env, backend: Backend, id: Id, c: Client) {
    var handled := backend.answer(id);
    match c
    case Answered(response) =>
      || GatewayError(response)
      || (handled.Failed? && response == Response(500, [], Text(Reported("internal error")), Some(env.meta)))
      || Some(response) == ServedWhole(env.lib, env.meta, handled)
      || ByWorker(env, backend, id, Some(response))
    case Closed(head, body) => handled.Returned? && OwnBody(env, handled.response, head, body)
    case HungUp(head, body) => handled.Returned? && OwnBody(env, handled.response, head, body)
    case Gone => true
    case Dropped =>
      || (handled.Returned? && !HeadOk(env.lib, handled.response))
      || ServedWhole(env.lib, env.meta, handled).None?
      || ByWorker(env, backend, id, None)
    case _ => false
  }

  /** The client has been given its own handler's or worker's whole answer, up to where it left. */
  ghost predicate InFull(env: Env, backend: Backend, id: Id, c: Client) {
    var handled := backend.answer(id);
    || (Deliverable(env.lib, handled) && ServedUntilGone(env, handled, c))
    || (c.Answered? && Some(c.response) == ServedWhole(env.lib, env.meta, handled))
    || (c.Answered? && ByWorker(env, backend, id, Some(c.response)))
  }

  lemma RequestIds(reqs: seq<P.Request>)
    requires DistinctReqs(reqs)
    ensures NoRepeats(IdsIn(reqs)) && Elements(IdsIn(reqs)) == P.ReqIds(reqs)
    ensures forall id | id in P.ReqIds(reqs) :: exists k: nat :: k < |reqs| && IdsIn(reqs)[k] == id
  {
    forall id | id in P.ReqIds(reqs) ensures exists k: nat :: k < |reqs| && IdsIn(reqs)[k] == id {
      var i :| 0 <= i < |reqs| && reqs[i].id == id;
      assert IdsIn(reqs)[i] == id;
    }
    forall id | id in P.ReqIds(reqs) ensures id in Elements(IdsIn(reqs)) {
      var k: nat :| k < |reqs| && IdsIn(reqs)[k] == id;
    }
  }

  // ---------------------------------------------------------------------------------------------
  // One job
  // ---------------------------------------------------------------------------------------------

  /** No dispatch ends with a text that only a handler could have made. */
  lemma ExitsAreErrors(env: Env, cs: Clients, stream: seq<Item>)
    ensures !Dispatched(env, cs, stream).exit.Reported?
  {
    hide RunLines, Cat, Admitted;
  }

  lemma PartIsOwn(env: Env, backend: Backend, exit: Message, id: Id, c: Client)
    requires PartlyServed(env, exit, backend.answer(id), c) && !exit.Reported?
    ensures OwnFate(env, backend, id, c)
  {
    hide OwnBody, ServedWhole, ByWorker, HeadOk, HeadOf;
  }

  lemma WholeIsOwn(env: Env, backend: Backend, exit: Message, id: Id, c: Client)
    requires WholeOrError(env, exit, backend.answer(id), c) && !exit.Reported?
    ensures OwnFate(env, backend, id, c)
  {
    hide OwnBody, ServedWhole, ByWorker, HeadOk, HeadOf;
  }

  lemma PostIsOwn(env: Env, backend: Backend, exit: Message, posted: Proxy.Posted, id: Id, c: Client)
    requires D.OwnOrError(env, backend.world, exit, posted, c) && backend.posted(id, posted) && !exit.Reported?
    ensures OwnFate(env, backend, id, c)
  {
    hide OwnBody, ServedWhole, D.ServedPost, HeadOk, HeadOf;
    assert ByWorker(env, backend, id, D.ServedPost(env, backend.world.parseReply, posted));
  }

  /** The client of a request that the proxy served. */
  lemma ProxiedOwn(env: Env, backend: Backend, ids: set<Id>, steps: seq<R.Step>, stream: seq<Item>, id: Id)
    requires ProxyServes(backend, ids, steps) && id in ids
    requires var recs := AsRecords(R.After(backend.world, R.INITIAL, steps).lines);
             && EncoderLaw(env.lib, backend.encode, recs) && PartsDoNotParse(env.lib, backend.encode, recs)
             && Cat(stream[..Admitted(stream, 0)]) <= Framing.Spell(EncodeAll(backend.encode, recs), [])
    ensures var out := Dispatched(env, Fresh(ids), stream);
            id in out.clients && OwnFate(env, backend, id, out.clients[id])
  {
    var w, s := backend.world, R.After(backend.world, R.INITIAL, steps);
    D.NothingOfAnothers(env, backend.encode, w, steps, stream);
    ExitsAreErrors(env, Fresh(ids), stream);
    var out := Dispatched(env, Fresh(ids), stream);
    hide Dispatched, OwnFate, D.OwnOrError, R.IsRun, R.After, R.Calm, AsRecords, EncodeAll, Admitted, Cat;
    if id in s.completed {
      var i :| 0 <= i < |s.completed| && s.completed[i] == id;
      R.PostsHappened(w, R.INITIAL, steps, id, s.posts[i]);
      assert R.Booked(s, id, s.posts[i]);
      PostIsOwn(env, backend, out.exit, s.posts[i], id, out.clients[id]);
    } else {
      ErrorIsOwn(env, backend, id, out.exit);
    }
  }

  lemma ErrorIsOwn(env: Env, backend: Backend, id: Id, message: Message)
    requires !message.Reported?
    ensures OwnFate(env, backend, id, Answered(BadGateway(message, env.meta)))
  {
  }

  /** The k-th client of a stream that was spoiled or cut short anywhere. */
  lemma StreamOwn(env: Env, backend: Backend, reqs: seq<P.Request>, source: Source, stream: seq<Item>, k: nat)
    requires Base64Law(env.lib) && DistinctReqs(reqs) && k < |reqs|
    requires Streams(env.lib, backend, reqs, source, Cat(stream[..Admitted(stream, 0)]))
    ensures var out := Dispatched(env, Fresh(P.ReqIds(reqs)), stream);
            reqs[k].id in out.clients && OwnFate(env, backend, reqs[k].id, out.clients[reqs[k].id])
  {
    var ids, handled := IdsIn(reqs), Answers(backend, reqs);
    RequestIds(reqs);
    assert ids[k] == reqs[k].id && handled[k] == backend.answer(reqs[k].id);
    ExitsAreErrors(env, Fresh(P.ReqIds(reqs)), stream);
    var out := Dispatched(env, Fresh(P.ReqIds(reqs)), stream);
    hide Dispatched, OwnFate, PartlyServed, WholeOrError, Records, EncodeAll, Admitted, Cat, Merges, EncoderLaw,
         ProxyServes, AsRecords, R.After, R.IsRun;
    match source
    case Interleaved(log) =>
      NothingOfAnothers(env, backend.encode, ids, handled, log, stream);
      PartIsOwn(env, backend, out.exit, ids[k], out.clients[ids[k]]);
    case Wholes(log) =>
      WholesCutAnywhere(env, backend.encode, ids, handled, log, stream);
      WholeIsOwn(env, backend, out.exit, ids[k], out.clients[ids[k]]);
    case Proxied(steps) =>
      ProxiedOwn(env, backend, P.ReqIds(reqs), steps, stream, reqs[k].id);
  }

  /** What the dispatch of this stream leaves the client with. */
  ghost predicate ServedInFull(env: Env, backend: Backend, ids: set<Id>, stream: seq<Item>, id: Id) {
    var clients := Dispatched(env, Fresh(ids), stream).clients;
    id in clients && InFull(env, backend, id, clients[id])
  }

  lemma ProxiedInFull(env: Env, backend: Backend, ids: set<Id>, steps: seq<R.Step>, stream: seq<Item>, id: Id)
    requires ProxyServes(backend, ids, steps) && id in ids && Admitted(stream, 0) == |stream|
    requires var s := R.After(backend.world, R.INITIAL, steps);
             && s.inner.active.SmugFinalizing? && D.AllServed(env, backend.world, s.posts)
             && EncoderLaw(env.lib, backend.encode, AsRecords(s.lines))
             && Framing.Writes(Cat(stream), EncodeAll(backend.encode, AsRecords(s.lines)))
    ensures ServedInFull(env, backend, ids, stream, id)
  {
    var w, s := backend.world, R.After(backend.world, R.INITIAL, steps);
    D.ProxyEndToEnd(env, backend.encode, w, steps, stream);
    hide Dispatched, R.IsRun, R.After, R.Calm, AsRecords, EncodeAll, Admitted, Cat, Deliverable, ServedUntilGone,
         D.ServedPost, ServedWhole, D.AllServed;
    assert id in Elements(s.completed);
    var i :| 0 <= i < |s.completed| && s.completed[i] == id;
    assert ByWorker(env, backend, id, D.ServedPost(env, w.parseReply, s.posts[i]));
  }

  /** One client of a complete stream of the interleaved adapter. */
  lemma InterleavedServes(env: Env, encode: Record -> Bytes, ids: seq<Id>, handled: seq<Handled>,
                          log: seq<(nat, Record)>, stream: seq<Item>, k: nat)
    requires NoRepeats(ids) && |ids| == |handled| && Base64Law(env.lib) && k < |ids|
    requires Merges(AdapterStreams(env.lib, ids, handled), log) && EncoderLaw(env.lib, encode, Records(log))
    requires Admitted(stream, 0) == |stream| && Framing.Writes(Cat(stream), EncodeAll(encode, Records(log)))
    requires forall h | h in handled :: Deliverable(env.lib, h)
    ensures var clients := Dispatched(env, Fresh(Elements(ids)), stream).clients;
            && ids[k] in clients && Deliverable(env.lib, handled[k])
            && ServedUntilGone(env, handled[k], clients[ids[k]])
  {
    EveryExitResolves(env, Elements(ids), stream);
    assert ids[k] in Elements(ids);
    hide Dispatched, ServedUntilGone, Deliverable, Admitted, Cat, Records, EncodeAll, AdapterStreams, Elements, Merges;
    assert forall i: nat | i < |ids| :: Deliverable(env.lib, handled[i]);
    AdapterEndToEnd(env, encode, ids, handled, log, stream);
  }

  /** One client of a complete stream of whole responses. */
  lemma WholesServe(env: Env, encode: Record -> Bytes, ids: seq<Id>, handled: seq<Handled>,
                    log: seq<(nat, Record)>, stream: seq<Item>, k: nat)
    requires NoRepeats(ids) && |ids| == |handled| && Base64Law(env.lib) && k < |ids|
    requires Merges(WholeStreams(env.lib, ids, handled), log) && EncoderLaw(env.lib, encode, Records(log))
    requires Admitted(stream, 0) == |stream| && Framing.Writes(Cat(stream), EncodeAll(encode, Records(log)))
    requires forall h | h in handled :: ServedWhole(env.lib, env.meta, h).Some?
    ensures var clients := Dispatched(env, Fresh(Elements(ids)), stream).clients;
            && ids[k] in clients && ServedWhole(env.lib, env.meta, handled[k]).Some?
            && clients[ids[k]] == Answered(ServedWhole(env.lib, env.meta, handled[k]).value)
  {
    EveryExitResolves(env, Elements(ids), stream);
    assert ids[k] in Elements(ids);
    hide Dispatched, ServedWhole, Admitted, Cat, Records, EncodeAll, WholeStreams, Elements, Merges;
    assert forall i: nat | i < |ids| :: ServedWhole(env.lib, env.meta, handled[i]).Some?;
    WholeEndToEnd(env, encode, ids, handled, log, stream);
  }

  lemma InterleavedInFull(env: Env, backend: Backend, reqs: seq<P.Request>, source: Source, stream: seq<Item>, k: nat)
    requires Base64Law(env.lib) && DistinctReqs(reqs) && k < |reqs| && Admitted(stream, 0) == |stream|
    requires Writes(env.lib, backend, reqs, source) && InWhole(env, backend, reqs, source, Cat(stream))
    requires source.Interleaved?
    ensures ServedInFull(env, backend, P.ReqIds(reqs), stream, reqs[k].id)
  {
    hide Dispatched, Admitted, Cat, Base64Law, Merges, EncoderLaw, Records, EncodeAll, Deliverable, ServedUntilGone,
         ServedWhole, ByWorker, AdapterStreams, PartsDoNotParse;
    var ids, handled := IdsIn(reqs), Answers(backend, reqs);
    RequestIds(reqs);
    assert ids[k] == reqs[k].id && handled[k] == backend.answer(reqs[k].id);
    hide P.ReqIds, DistinctReqs, Elements;
    InterleavedServes(env, backend.encode, ids, handled, source.log, stream, k);
  }

  lemma WholesInFull(env: Env, backend: Backend, reqs: seq<P.Request>, source: Source, stream: seq<Item>, k: nat)
    requires Base64Law(env.lib) && DistinctReqs(reqs) && k < |reqs| && Admitted(stream, 0) == |stream|
    requires Writes(env.lib, backend, reqs, source) && InWhole(env, backend, reqs, source, Cat(stream))
    requires source.Wholes?
    ensures ServedInFull(env, backend, P.ReqIds(reqs), stream, reqs[k].id)
  {
    hide Dispatched, Admitted, Cat, Base64Law, Merges, EncoderLaw, Records, EncodeAll, Deliverable, ServedUntilGone,
         ServedWhole, ByWorker, WholeStreams, PartsDoNotParse;
    var ids, handled := IdsIn(reqs), Answers(backend, reqs);
    RequestIds(reqs);
    assert ids[k] == reqs[k].id && handled[k] == backend.answer(reqs[k].id);
    hide P.ReqIds, DistinctReqs, Elements;
    WholesServe(env, backend.encode, ids, handled, source.log, stream, k);
  }

  /** The k-th client of a stream that came back whole. */
  lemma StreamInFull(env: Env, backend: Backend, reqs: seq<P.Request>, source: Source, stream: seq<Item>, k: nat)
    requires Base64Law(env.lib) && DistinctReqs(reqs) && k < |reqs| && Admitted(stream, 0) == |stream|
    requires Writes(env.lib, backend, reqs, source) && InWhole(env, backend, reqs, source, Cat(stream))
    ensures ServedInFull(env, backend, P.ReqIds(reqs), stream, reqs[k].id)
  {
    hide Dispatched, Admitted, Cat, Base64Law, InFull, EncoderLaw, PartsDoNotParse, AsRecords, EncodeAll, DistinctReqs,
         ProxyServes, R.After, R.IsRun;
    match source
    case Interleaved(_) => InterleavedInFull(env, backend, reqs, source, stream, k);
    case Wholes(_) => WholesInFull(env, backend, reqs, source, stream, k);
    case Proxied(steps) => ProxiedInFull(env, backend, P.ReqIds(reqs), steps, stream, reqs[k].id);
  }

  lemma BufferedOwn(env: Env, backend: Backend, reqs: seq<P.Request>, k: nat)
    requires Base64Law(env.lib) && DistinctReqs(reqs) && k < |reqs|
    ensures var id := reqs[k].id;
            var response :=
              AnswerFor(env, Ok(BatchResponse(1, WholeItems(env.lib, IdsIn(reqs), Answers(backend, reqs)))), id);
            && OwnFate(env, backend, id, Answered(response))
            && (ServedWhole(env.lib, env.meta, backend.answer(id)).Some? ==>
                  InFull(env, backend, id, Answered(response)))
  {
    var ids, handled := IdsIn(reqs), Answers(backend, reqs);
    RequestIds(reqs);
    assert ids[k] == reqs[k].id && handled[k] == backend.answer(reqs[k].id);
    BufferedEndToEnd(env, ids, handled, k);
    hide AnswerFor, ServedWhole, WholeItems;
  }

  /** A job leaves its sinks as its dispatcher does. */
  lemma EndsByKind(cfg: P.Config, run: P.Running)
    requires DistinctReqs(run.job.requests)
    ensures var ends, ids, env := P.EndsOf(cfg, run), P.ReqIds(run.job.requests), EnvOf(cfg, run);
            && (run.outcome.StreamReply? && run.job.key.mode == StreamMode ==>
                  ends == Dispatched(env, Fresh(ids), run.outcome.stream).clients)
            && (run.outcome.BufferedReply? && run.job.key.mode == BufferedMode ==>
                  ends == map id | id in ids :: Answered(AnswerFor(env, run.outcome.parsed, id)))
            && (run.outcome.InvokeError? || (run.outcome.StreamReply? <==> run.job.key.mode == BufferedMode) ==>
                  forall id | id in ids ::
                    id in ends && ends[id].Answered? && GatewayError(ends[id].response))
  {
    CountIds(run.job.requests);
    hide P.ReqIds, Dispatched, AnswerFor;
  }

  lemma IndexOf(reqs: seq<P.Request>, id: Id) returns (k: nat)
    requires id in P.ReqIds(reqs)
    ensures k < |reqs| && reqs[k].id == id
  {
    k :| k < |reqs| && reqs[k].id == id;
  }

  /** A job gives each of its clients nothing but its own handler's or worker's answer or an error. */
  lemma JobServesOwn(cfg: P.Config, backend: Backend, run: P.Running, id: Id, c: Client)
    requires Base64Law(cfg.lib) && DistinctReqs(run.job.requests) && Backed(cfg, backend, run)
    requires F.InRun(cfg, run, id, c)
    ensures OwnFate(EnvOf(cfg, run), backend, id, c)
  {
    hide P.EndsOf, DistinctReqs, P.ReqIds, Dispatched, AnswerFor, Streams, ServedWhole, ByWorker, OwnBody, HeadOk,
         InFull, WholeItems, IdsIn, Answers, Cat, Admitted, Base64Law;
    var reqs, env := run.job.requests, EnvOf(cfg, run);
    EndsByKind(cfg, run);
    var k := IndexOf(reqs, id);
    if run.outcome.StreamReply? && run.job.key.mode == StreamMode {
      hide OwnFate;
      var stream := run.outcome.stream;
      var source :| Streams(cfg.lib, backend, reqs, source, Cat(stream[..Admitted(stream, 0)]));
      StreamOwn(env, backend, reqs, source, stream, k);
    } else if run.outcome.BufferedReply? && run.job.key.mode == BufferedMode {
      if run.outcome.parsed.Ok? {
        BufferedOwn(env, backend, reqs, k);
      } else {
        BadReplyIsError(env, run.outcome.parsed, id);
      }
    }
  }

  lemma BadReplyIsError(env: Env, parsed: Result<BatchResponse, string>, id: Id)
    requires parsed.Err?
    ensures GatewayError(AnswerFor(env, parsed, id))
  {
  }

  /** A complete job gives each client that stays its own handler's or worker's whole answer. */
  lemma CompleteJobServes(cfg: P.Config, backend: Backend, run: P.Running, id: Id, c: Client)
    requires Base64Law(cfg.lib) && DistinctReqs(run.job.requests) && Complete(cfg, backend, run, id)
    requires F.InRun(cfg, run, id, c)
    ensures InFull(EnvOf(cfg, run), backend, id, c)
  {
    hide P.EndsOf, DistinctReqs, P.ReqIds, Dispatched, AnswerFor, Writes, InWhole, ServedWhole, InFull, Admitted,
         OwnFate, WholeItems, IdsIn, Answers, Cat, GatewayError, Base64Law;
    var reqs, env := run.job.requests, EnvOf(cfg, run);
    EndsByKind(cfg, run);
    var k := IndexOf(reqs, id);
    if run.outcome.StreamReply? {
      var stream := run.outcome.stream;
      var source :| Writes(cfg.lib, backend, reqs, source)
                    && InWhole(env, backend, reqs, source, Cat(stream));
      StreamInFull(env, backend, reqs, source, stream, k);
    } else {
      BufferedOwn(env, backend, reqs, k);
    }
  }

  // ---------------------------------------------------------------------------------------------
  // Over every run
  // ---------------------------------------------------------------------------------------------

  lemma NothingTraced(cfg: P.Config)
    ensures F.Traced(cfg, P.INITIAL)
  {
  }

  lemma {:induction false} TracedRun(cfg: P.Config, s: A.State, steps: seq<A.Step>)
    requires A.ReplyInv(cfg, s) && F.Traced(cfg, s.pipe) && A.IsRun(cfg, s, steps)
    ensures A.ReplyInv(cfg, A.After(cfg, s, steps)) && F.Traced(cfg, A.After(cfg, s, steps).pipe)
    decreases steps
  {
    if steps == [] {
    } else {
      A.ReplyStep(cfg, s, steps[0]);
      TracedNext(cfg, s, steps[0]);
      hide A.ReplyInv, F.Traced, A.Enabled, A.Next;
      TracedRun(cfg, A.Next(cfg, s, steps[0]), steps[1..]);
    }
  }

  lemma TracedNext(cfg: P.Config, s: A.State, step: A.Step)
    requires A.ReplyInv(cfg, s) && F.Traced(cfg, s.pipe) && A.Enabled(cfg, s, step)
    ensures F.Traced(cfg, A.Next(cfg, s, step).pipe)
  {
    hide F.Traced, P.Next, P.Enabled, F.Fated, S.Sound, A.OwnStage, A.StillEnqueueing;
    if step.Inside? {
      F.TracedStep(cfg, s.pipe, step.step);
    } else if step.BodyRead? && step.fits {
      F.TracedStep(cfg, s.pipe, P.Submit(s.handlers[step.h].req));
    }
  }

  /** The jobs that have been spawned in a run. */
  ghost predicate Spawned(s: P.State, run: P.Running) {
    run in s.finished || run in s.running
  }

  /** A fate is the gateway's own doing, or that of one spawned job that holds the sink. */
  lemma FateSource(cfg: P.Config, s: P.State, id: Id, c: Client) returns (run: Option<P.Running>)
    requires S.Sound(s) && F.Traced(cfg, s) && F.Fated(cfg, s, id, c)
    ensures run.None? ==> F.GatewayEnd(c)
    ensures run.Some? ==>
              Spawned(s, run.value) && DistinctReqs(run.value.job.requests) && F.InRun(cfg, run.value, id, c)
  {
    hide F.InRun, S.Sound, DistinctReqs, F.GatewayEnd;
    if j :| 0 <= j < |s.running| && F.InRun(cfg, s.running[j], id, c) {
      S.RunningDistinct(s, j);
      run := Some(s.running[j]);
    } else if F.MadeBy(cfg, s.finished, id, c) {
      var j :| 0 <= j < |s.finished| && F.InRun(cfg, s.finished[j], id, c);
      run := Some(s.finished[j]);
    } else {
      run := None;
    }
  }

  /** What a reply of the HTTP handler says about the sink behind it. */
  ghost predicate Behind(cfg: P.Config, s: A.State, h: nat, fate: Client)
    requires h < |s.handlers|
  {
    var handler := s.handlers[h];
    && F.Fated(cfg, s.pipe, handler.req.id, fate)
    && match handler.stage
       case Returned(Whole(response)) => fate == Answered(response)
       case Returned(Stream(head)) => (fate.Closed? || fate.HungUp?) && fate.head == head
       case _ => false
  }

  lemma ReplyHasFate(cfg: P.Config, s: A.State, h: nat) returns (fate: Client)
    requires A.ReplyInv(cfg, s) && h < |s.handlers| && s.handlers[h].stage.Returned?
            && !s.handlers[h].stage.reply.Refused?
    ensures Behind(cfg, s, h, fate)
  {
    hide F.Fated, S.SinkInv;
    assert A.OwnStage(cfg, s.pipe, s.handlers[h]);
    match s.handlers[h].stage.reply
    case Whole(response) => fate := Answered(response);
    case Stream(head) =>
      fate :| F.Fated(cfg, s.pipe, s.handlers[h].req.id, fate) && (fate.Closed? || fate.HungUp?) && fate.head == head;
  }

  /** The job that holds the handler's request. */
  ghost predicate Holds(s: A.State, h: nat, run: P.Running)
    requires h < |s.handlers|
  {
    Spawned(s.pipe, run) && s.handlers[h].req.id in P.ReqIds(run.job.requests)
  }

  ghost predicate Answering(s: A.State, h: nat)
    requires h < |s.handlers|
  {
    s.handlers[h].stage.Returned? && !s.handlers[h].stage.reply.Refused?
  }

  /** The reply of the handler, traced to what its own job came to, if it was not the gateway's own doing. */
  lemma ReplySource(cfg: P.Config, max: nat, steps: seq<A.Step>, h: nat) returns (fate: Client, run: Option<P.Running>)
    requires A.IsRun(cfg, A.Initial(max), steps) && h < |A.After(cfg, A.Initial(max), steps).handlers|
    requires Answering(A.After(cfg, A.Initial(max), steps), h)
    ensures var s := A.After(cfg, A.Initial(max), steps);
            && Behind(cfg, s, h, fate)
            && match run
               case None => F.GatewayEnd(fate)
               case Some(r) => Holds(s, h, r) && DistinctReqs(r.job.requests)
                               && F.InRun(cfg, r, s.handlers[h].req.id, fate)
  {
    A.NobodyYet(cfg, max);
    NothingTraced(cfg);
    TracedRun(cfg, A.Initial(max), steps);
    var s := A.After(cfg, A.Initial(max), steps);
    hide A.After, A.IsRun, F.Traced, F.Fated, Spawned, A.OwnStage, F.GatewayEnd, DistinctReqs, P.EndsOf;
    fate := ReplyHasFate(cfg, s, h);
    run := FateSource(cfg, s.pipe, s.handlers[h].req.id, fate);
  }

  /** What the handler returned begins a fate of its own making: its own answer or an error. */
  ghost predicate RepliesOwn(cfg: P.Config, backend: Backend, s: A.State, h: nat, fate: Client, env: Env)
    requires h < |s.handlers|
  {
    && Behind(cfg, s, h, fate) && env.lib == cfg.lib && env.alive == cfg.alive
    && OwnFate(env, backend, s.handlers[h].req.id, fate)
  }

  ghost predicate RepliesInFull(cfg: P.Config, backend: Backend, s: A.State, h: nat, fate: Client, env: Env)
    requires h < |s.handlers|
  {
    && Behind(cfg, s, h, fate) && env.lib == cfg.lib && env.alive == cfg.alive
    && InFull(env, backend, s.handlers[h].req.id, fate)
  }

  /** Over every run of the gateway, whatever other requests meet: if the job that holds a handler's
      request is answered by an adapter or by the proxy, wherever its stream breaks off, then the
      response or streaming head that the handler returns is its own request's handler's or worker's,
      with nothing but that answer's chunks to follow, or a gateway error. */
  lemma OwnAnswerOrError(cfg: P.Config, backend: Backend, max: nat, steps: seq<A.Step>, h: nat)
    requires Base64Law(cfg.lib) && A.IsRun(cfg, A.Initial(max), steps)
    requires h < |A.After(cfg, A.Initial(max), steps).handlers|
    requires Answering(A.After(cfg, A.Initial(max), steps), h)
    requires forall run | Holds(A.After(cfg, A.Initial(max), steps), h, run) :: Backed(cfg, backend, run)
    ensures exists fate, env :: RepliesOwn(cfg, backend, A.After(cfg, A.Initial(max), steps), h, fate, env)
  {
    var fate, run := ReplySource(cfg, max, steps, h);
    var s := A.After(cfg, A.Initial(max), steps);
    var id := s.handlers[h].req.id;
    hide A.After, A.IsRun, Holds, Backed, OwnFate, F.InRun, F.Fated, DistinctReqs, F.GatewayEnd;
    match run
    case Some(r) =>
      JobServesOwn(cfg, backend, r, id, fate);
      assert RepliesOwn(cfg, backend, s, h, fate, EnvOf(cfg, r));
    case None =>
      var env := Env(cfg.lib, Meta(0, 0), cfg.alive);
      GatewayEndIsOwn(env, backend, id, fate);
      assert RepliesOwn(cfg, backend, s, h, fate, env);
  }

  lemma GatewayEndIsOwn(env: Env, backend: Backend, id: Id, c: Client)
    requires F.GatewayEnd(c) && c != Dropped
    ensures OwnFate(env, backend, id, c)
  {
  }

  /** If moreover that job's reply came back whole and what had to be passed on could be, then what the
      handler returns is its own request's handler's or worker's answer, head and all chunks up to where
      the client left, or the gateway never invoked anything for it. */
  lemma OwnAnswerInFull(cfg: P.Config, backend: Backend, max: nat, steps: seq<A.Step>, h: nat)
    requires Base64Law(cfg.lib) && A.IsRun(cfg, A.Initial(max), steps)
    requires h < |A.After(cfg, A.Initial(max), steps).handlers|
    requires Answering(A.After(cfg, A.Initial(max), steps), h)
    requires var s := A.After(cfg, A.Initial(max), steps);
             forall run | Holds(s, h, run) :: Complete(cfg, backend, run, s.handlers[h].req.id)
    ensures var s := A.After(cfg, A.Initial(max), steps);
            || (exists fate :: Behind(cfg, s, h, fate) && F.GatewayEnd(fate))
            || (exists fate, env :: RepliesInFull(cfg, backend, s, h, fate, env))
  {
    var fate, run := ReplySource(cfg, max, steps, h);
    var s := A.After(cfg, A.Initial(max), steps);
    hide A.After, A.IsRun, Holds, Complete, InFull, F.InRun, F.Fated, DistinctReqs, F.GatewayEnd;
    if run.Some? {
      CompleteJobServes(cfg, backend, run.value, s.handlers[h].req.id, fate);
      assert RepliesInFull(cfg, backend, s, h, fate, EnvOf(cfg, run.value));
    }
  }
}
