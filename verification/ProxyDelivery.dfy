/** From what the proxy's workers post to what the gateway's clients get. */
module ProxyDelivery {
  import opened Wire
  import opened Promise
  import opened Framing
  import opened Demux
  import opened StreamDispatch
  import opened EndToEnd
  import opened Buffered
  import opened Spoiled
  import opened Proxy
  import opened ProxyRuns

  /** The answer a worker's completion should get its client, if it can be passed on: the reply's own
      status, headers, cookies and body, or the fixed empty answer. */
  function ServedPost(env: Env, parseReply: Bytes -> Option<Reply>, posted: Posted): Option<Response> {
    match posted
    case PostedError => Some(Response(500, [], Raw(env.lib.utf8("")), Some(env.meta)))
    case PostedResponse(body) =>
      match parseReply(body)
      case None => Some(Response(502, [], Raw(env.lib.utf8("")), Some(env.meta)))
      case Some(reply) =>
        Promised(env.lib, env.meta, reply.status, reply.headers, reply.cookies,
                 TextBytes(env.lib, reply.body, reply.isBase64))
  }

  lemma LineServes(env: Env, parseReply: Bytes -> Option<Reply>, id: Id, posted: Posted)
    ensures var line := LineFor(parseReply, id, posted);
            match ServedPost(env, parseReply, posted)
            case Some(response) => Parts(env.lib, line).Ok? && ItemAnswer(env, line) == response
            case None => Parts(env.lib, line).Err?
  {
    var line := LineFor(parseReply, id, posted);
    ResponseIff(env.lib, env.meta, line.status, line.headers, line.cookies, line.body, line.isBase64);
  }

  /** Each line of a closed batch is the first, and only, line of its id. */
  lemma LinesByIds(w: World, s: Sys)
    requires Settled(w, s)
    ensures forall i | 0 <= i < |s.lines| ::
              && s.lines[i].id == s.completed[i] && s.completed[i] in Elements(IdsOf(s.batch))
              && FirstFor(s.lines, s.completed[i]) == Some(s.lines[i])
    ensures forall id | id in Elements(IdsOf(s.batch)) :: exists i :: 0 <= i < |s.lines| && s.completed[i] == id
  {
    forall i | 0 <= i < |s.lines|
      ensures s.lines[i].id == s.completed[i] && s.completed[i] in Elements(IdsOf(s.batch))
      ensures FirstFor(s.lines, s.completed[i]) == Some(s.lines[i])
    {
      assert s.completed[i] in Elements(s.completed);
      assert forall j | 0 <= j < |s.lines| :: s.lines[j].id == s.completed[j];
      FirstForUnique(s.lines, i);
    }
    forall id | id in Elements(IdsOf(s.batch)) ensures exists i :: 0 <= i < |s.lines| && s.completed[i] == id {
      assert id in Elements(s.completed);
    }
  }

  predicate AllServed(env: Env, w: World, posts: seq<Posted>) {
    forall i | 0 <= i < |posts| :: ServedPost(env, w.parseReply, posts[i]).Some?
  }

  /** The dispatched lines of a closed batch: the client of the i-th completion. */
  ghost predicate OwnAnswers(env: Env, w: World, s: Sys, clients: Clients) {
    && |s.completed| == |s.posts|
    && forall i | 0 <= i < |s.posts| ::
         && s.completed[i] in clients
         && ServedPost(env, w.parseReply, s.posts[i]).Some?
         && clients[s.completed[i]] == Answered(ServedPost(env, w.parseReply, s.posts[i]).value)
  }

  lemma FirstsAreServed(env: Env, w: World, s: Sys)
    requires Settled(w, s)
    ensures FirstsWellFormed(env.lib, Elements(IdsOf(s.batch)), s.lines) <==> AllServed(env, w, s.posts)
  {
    var ids := Elements(IdsOf(s.batch));
    LinesByIds(w, s);
    forall i | 0 <= i < |s.lines|
      ensures Parts(env.lib, s.lines[i]).Ok? <==> ServedPost(env, w.parseReply, s.posts[i]).Some?
    {
      LineServes(env, w.parseReply, s.completed[i], s.posts[i]);
    }
    hide ServedPost, Parts, FirstFor, Elements, IdsOf;
    if AllServed(env, w, s.posts) {
      forall id | id in ids && FirstFor(s.lines, id).Some? ensures Parts(env.lib, FirstFor(s.lines, id).value).Ok? {
        var i :| 0 <= i < |s.lines| && s.completed[i] == id;
      }
    } else {
      var i :| 0 <= i < |s.posts| && ServedPost(env, w.parseReply, s.posts[i]).None?;
      assert s.completed[i] in ids;
    }
  }

  /** Somebody's channel is dropped without an answer. */
  ghost predicate SomebodyDropped(s: Sys, clients: Clients) {
    exists i :: 0 <= i < |s.completed| && s.completed[i] in clients && clients[s.completed[i]] == Dropped
  }

  lemma AnswerIsServed(env: Env, w: World, s: Sys, i: nat)
    requires Settled(w, s) && i < |s.posts|
    ensures var answer := AnswerFor(env, Ok(BatchResponse(1, s.lines)), s.completed[i]);
            s.completed[i] in Elements(IdsOf(s.batch)) &&
            (ServedPost(env, w.parseReply, s.posts[i]).Some? ==>
               Some(answer) == ServedPost(env, w.parseReply, s.posts[i]))
  {
    LinesByIds(w, s);
    LineServes(env, w.parseReply, s.completed[i], s.posts[i]);
  }

  lemma StreamedKeys(env: Env, ids: set<Id>, items: seq<ResponseItem>)
    ensures StreamedEnd(env, ids, items).Keys == ids
  {
  }

  lemma NotAllWellFormed(env: Env, ids: set<Id>, items: seq<ResponseItem>)
    requires !FirstsWellFormed(env.lib, ids, items)
    ensures exists id :: id in ids && id in StreamedEnd(env, ids, items) && StreamedEnd(env, ids, items)[id] == Dropped
  {
    FaultsUnlessWellFormed(env, ids, items);
    SomeoneDropped(env, ids, items);
  }

  lemma ServedReach(env: Env, w: World, s: Sys, i: nat)
    requires Settled(w, s) && AllServed(env, w, s.posts) && i < |s.posts|
    ensures var clients := StreamedEnd(env, Elements(IdsOf(s.batch)), s.lines);
            && s.completed[i] in clients
            && clients[s.completed[i]] == Answered(ServedPost(env, w.parseReply, s.posts[i]).value)
  {
    hide StreamedEnd, AnswerFor, Elements, ServedPost, IdsOf, FirstsWellFormed;
    AgreeIffWellFormed(env, Elements(IdsOf(s.batch)), s.lines);
    FirstsAreServed(env, w, s);
    AnswerIsServed(env, w, s, i);
    StreamedKeys(env, Elements(IdsOf(s.batch)), s.lines);
  }

  lemma UnservedDrop(env: Env, w: World, s: Sys)
    requires Settled(w, s) && !AllServed(env, w, s.posts)
    ensures SomebodyDropped(s, StreamedEnd(env, Elements(IdsOf(s.batch)), s.lines))
  {
    hide StreamedEnd, Elements, IdsOf, FirstsWellFormed, AllServed, Settled, FirstFor;
    var ids := Elements(IdsOf(s.batch));
    FirstsAreServed(env, w, s);
    NotAllWellFormed(env, ids, s.lines);
    var id :| id in ids && id in StreamedEnd(env, ids, s.lines) && StreamedEnd(env, ids, s.lines)[id] == Dropped;
    LinesByIds(w, s);
    SameCounts(w, s);
    var i :| 0 <= i < |s.lines| && s.completed[i] == id;
  }

  lemma SameCounts(w: World, s: Sys)
    requires Settled(w, s)
    ensures |s.completed| == |s.posts| == |s.lines|
  {
  }

  /** The lines, dispatched as a record list. */
  lemma LinesReachClients(env: Env, w: World, s: Sys)
    requires Settled(w, s)
    ensures var clients := StreamedEnd(env, Elements(IdsOf(s.batch)), s.lines);
            if AllServed(env, w, s.posts) then OwnAnswers(env, w, s, clients) else SomebodyDropped(s, clients)
  {
    SameCounts(w, s);
    hide StreamedEnd, Elements, ServedPost, IdsOf, Settled;
    if AllServed(env, w, s.posts) {
      forall i: nat | i < |s.posts|
        ensures var clients := StreamedEnd(env, Elements(IdsOf(s.batch)), s.lines);
                && s.completed[i] in clients
                && clients[s.completed[i]] == Answered(ServedPost(env, w.parseReply, s.posts[i]).value)
      {
        ServedReach(env, w, s, i);
      }
    } else {
      UnservedDrop(env, w, s);
    }
  }

  /** Every run of the proxy up to a closed batch, its bytes sent through the gateway in any chunks:
      each id was posted by a worker in that run, and each client is answered with exactly what was
      posted under its id if all the posts can be passed on; otherwise somebody is dropped. */
  lemma ProxyEndToEnd(env: Env, encode: Record -> Bytes, w: World, steps: seq<Step>, stream: seq<Item>)
    requires IsRun(w, INITIAL, steps) && Calm(w, INITIAL, steps)
    requires After(w, INITIAL, steps).inner.active.SmugFinalizing?
    requires EncoderLaw(env.lib, encode, AsRecords(After(w, INITIAL, steps).lines))
    requires Admitted(stream, 0) == |stream|
             && Writes(Cat(stream), EncodeAll(encode, AsRecords(After(w, INITIAL, steps).lines)))
    ensures var s := After(w, INITIAL, steps);
            && Elements(s.completed) == Elements(IdsOf(s.batch))
            && |s.completed| == |s.posts|
            && (forall i | 0 <= i < |s.posts| :: Post(s.completed[i], s.posts[i]) in steps)
            && var clients := Dispatched(env, Fresh(Elements(IdsOf(s.batch))), stream).clients;
               if AllServed(env, w, s.posts) then OwnAnswers(env, w, s, clients) else SomebodyDropped(s, clients)
  {
    InvRun(w, INITIAL, steps);
    var s := After(w, INITIAL, steps);
    hide IsRun, After, Calm, Inv, Dispatched, OwnAnswers, SomebodyDropped, AllServed, ServedPost, AsRecords,
         EncodeAll, RunAll;
    forall i | 0 <= i < |s.posts| ensures Post(s.completed[i], s.posts[i]) in steps {
      PostsHappened(w, INITIAL, steps, s.completed[i], s.posts[i]);
      assert Booked(s, s.completed[i], s.posts[i]);
    }
    var ids := Elements(IdsOf(s.batch));
    Framed(env, encode, Fresh(ids), AsRecords(s.lines), stream);
    LinesReachClients(env, w, s);
  }

  // ---------------------------------------------------------------------------------------------
  // When a post cannot be passed on, or the bytes are cut short
  // ---------------------------------------------------------------------------------------------

  /** The client's own worker's answer, or a gateway error; nothing only if that answer was refused. */
  predicate OwnOrError(env: Env, w: World, exit: Message, posted: Posted, c: Client) {
    match c
    case Answered(response) =>
      response == BadGateway(exit, env.meta) || Some(response) == ServedPost(env, w.parseReply, posted)
    case Dropped => ServedPost(env, w.parseReply, posted).None?
    case _ => false
  }

  /** Among lines of distinct ids a line is the only record of its id, and other ids have none. */
  lemma {:induction false} OwnOfLines(lines: seq<ResponseItem>, id: Id)
    requires forall i, j | 0 <= i < j < |lines| :: lines[i].id != lines[j].id
    ensures forall i | 0 <= i < |lines| && lines[i].id == id :: Own(AllOk(AsRecords(lines)), id) == [AsRecord(lines[i])]
    ensures (forall i | 0 <= i < |lines| :: lines[i].id != id) ==> Own(AllOk(AsRecords(lines)), id) == []
  {
    if lines == [] {
    } else {
      var ps := AllOk(AsRecords(lines));
      assert ps[0] == Ok(AsRecord(lines[0])) && ps[1..] == AllOk(AsRecords(lines[1..]));
      OwnOfLines(lines[1..], id);
      assert forall i | 0 < i < |lines| :: lines[i] == lines[1..][i - 1];
      assert Own(ps, id) == (if lines[0].id == id then [AsRecord(lines[0])] else []) + Own(ps[1..], id);
    }
  }

  lemma OneLinePart(env: Env, w: World, exit: Message, id: Id, posted: Posted, c: Client)
    requires RanOwnPart(env, [AsRecord(LineFor(w.parseReply, id, posted))], c)
    ensures OwnOrError(env, w, exit, posted, FailClient(env, exit, c))
  {
    var line := LineFor(w.parseReply, id, posted);
    var m: nat :| m <= 1 && RunClient(env, Waiting, [AsRecord(line)][..m]).client == c;
    if m == 0 {
      assert [AsRecord(line)][..0] == [];
    } else {
      assert [AsRecord(line)][..1] == [AsRecord(line)] && [AsRecord(line)][1..] == [];
      LineServes(env, w.parseReply, id, posted);
      StepWaiting(env, line);
      var after := ClientStep(env, Waiting, AsRecord(line)).client;
      assert RunClient(env, after, []).client == after;
    }
  }

  lemma NoLinePart(env: Env, exit: Message, c: Client)
    requires RanOwnPart(env, [], c)
    ensures FailClient(env, exit, c) == Answered(BadGateway(exit, env.meta))
  {
    var none: seq<Record> := [];
    assert none[..0] == none;
  }

  /** The lines of a live or closed batch are made of its posts, and their ids are distinct ids of it. */
  lemma LinesOfBatch(w: World, s: Sys)
    requires Inv(w, s) && (s.inner.active.SmugBatch? || s.inner.active.SmugFinalizing?)
    ensures OwnLines(w, s) && Elements(s.completed) <= Elements(IdsOf(s.batch))
    ensures forall i, j | 0 <= i < j < |s.lines| :: s.lines[i].id != s.lines[j].id
  {
    assert forall i | 0 <= i < |s.lines| :: s.lines[i].id == s.completed[i];
    if s.inner.active.SmugBatch? {
      forall id | id in TakenIds(s) ensures id in IdsOf(s.batch) {
        var i :| 0 <= i < |TakenIds(s)| && TakenIds(s)[i] == id;
        assert IdsOf(s.batch)[i] == id;
      }
    }
  }

  /** What a dispatch of the lines written so far leaves the client of one item with. */
  lemma LinesSoFar(env: Env, w: World, s: Sys, clients: Clients, exit: Message, id: Id)
    requires OwnLines(w, s) && forall i, j | 0 <= i < j < |s.lines| :: s.lines[i].id != s.lines[j].id
    requires id in clients && RanOwnPart(env, Own(AllOk(AsRecords(s.lines)), id), clients[id])
    ensures forall i | 0 <= i < |s.posts| && s.completed[i] == id ::
              OwnOrError(env, w, exit, s.posts[i], FailClient(env, exit, clients[id]))
    ensures id !in s.completed ==>
              FailClient(env, exit, clients[id]) == Answered(BadGateway(exit, env.meta))
  {
    OwnOfLines(s.lines, id);
    assert forall i | 0 <= i < |s.lines| :: s.lines[i].id == s.completed[i];
    hide RanOwnPart, OwnOrError, AsRecord, AsRecords, AllOk, Own, FailClient;
    forall i | 0 <= i < |s.posts| && s.completed[i] == id
      ensures OwnOrError(env, w, exit, s.posts[i], FailClient(env, exit, clients[id]))
    {
      OneLinePart(env, w, exit, id, s.posts[i], clients[id]);
    }
    if id !in s.completed {
      NoLinePart(env, exit, clients[id]);
    }
  }

  lemma BatchSoFar(env: Env, encode: Record -> Bytes, w: World, s: Sys, stream: seq<Item>)
    requires Inv(w, s) && (s.inner.active.SmugBatch? || s.inner.active.SmugFinalizing?)
    requires EncoderLaw(env.lib, encode, AsRecords(s.lines)) && PartsDoNotParse(env.lib, encode, AsRecords(s.lines))
    requires Cat(stream[..Admitted(stream, 0)]) <= Spell(EncodeAll(encode, AsRecords(s.lines)), [])
    ensures var out := Dispatched(env, Fresh(Elements(IdsOf(s.batch))), stream);
            && out.clients.Keys == Elements(IdsOf(s.batch)) && |s.completed| == |s.posts|
            && (forall i | 0 <= i < |s.posts| ::
                  && s.completed[i] in out.clients
                  && OwnOrError(env, w, out.exit, s.posts[i], out.clients[s.completed[i]]))
            && (forall id | id in out.clients && id !in s.completed ::
                  out.clients[id] == Answered(BadGateway(out.exit, env.meta)))
  {
    LinesOfBatch(w, s);
    var ids, recs := Elements(IdsOf(s.batch)), AsRecords(s.lines);
    EveryExitResolves(env, ids, stream);
    var clients := CutAnywhere(env, encode, Fresh(ids), recs, stream);
    hide Dispatched, RanPart, RanOwnPart, OwnOrError, AsRecords, AllOk, Own, Cat, Admitted, Spell, EncodeAll,
         FailClient, IdsOf, Inv;
    var out := Dispatched(env, Fresh(ids), stream);
    forall id | id in ids
      ensures id in clients && out.clients[id] == FailClient(env, out.exit, clients[id])
      ensures forall i | 0 <= i < |s.posts| && s.completed[i] == id ::
              OwnOrError(env, w, out.exit, s.posts[i], out.clients[id])
      ensures id !in s.completed ==> out.clients[id] == Answered(BadGateway(out.exit, env.meta))
    {
      PartOfRecords(env, ids, recs, clients, id);
      LinesSoFar(env, w, s, clients, out.exit, id);
    }
    forall i | 0 <= i < |s.posts| ensures s.completed[i] in ids {
      assert s.completed[i] in Elements(s.completed);
    }
  }

  /** Over every calm run, while a batch is live or closed, wherever the bytes of its outer response
      stop and however the dispatch ends: the client of a completed item gets its own worker's answer
      or a gateway error, and the client of an item not yet completed a gateway error; also in a batch
      that can never finish. */
  lemma NothingOfAnothers(env: Env, encode: Record -> Bytes, w: World, steps: seq<Step>, stream: seq<Item>)
    requires IsRun(w, INITIAL, steps) && Calm(w, INITIAL, steps)
    requires var s := After(w, INITIAL, steps);
             && (s.inner.active.SmugBatch? || s.inner.active.SmugFinalizing?)
             && EncoderLaw(env.lib, encode, AsRecords(s.lines)) && PartsDoNotParse(env.lib, encode, AsRecords(s.lines))
             && Cat(stream[..Admitted(stream, 0)]) <= Spell(EncodeAll(encode, AsRecords(s.lines)), [])
    ensures var s := After(w, INITIAL, steps);
            var out := Dispatched(env, Fresh(Elements(IdsOf(s.batch))), stream);
            && out.clients.Keys == Elements(IdsOf(s.batch)) && |s.completed| == |s.posts|
            && (forall i | 0 <= i < |s.posts| ::
                  && s.completed[i] in out.clients
                  && OwnOrError(env, w, out.exit, s.posts[i], out.clients[s.completed[i]]))
            && (forall id | id in out.clients && id !in s.completed ::
                  out.clients[id] == Answered(BadGateway(out.exit, env.meta)))
  {
    InvRun(w, INITIAL, steps);
    var s := After(w, INITIAL, steps);
    hide IsRun, After, Calm;
    BatchSoFar(env, encode, w, s, stream);
  }
}
