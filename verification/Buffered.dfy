/** `dispatch_buffered`, and how it compares with streaming the same records. */
module Buffered {
  import opened Wire
  import opened Promise
  import opened Demux
  import opened EndToEnd

  datatype ResponseItem = ResponseItem(id: Id, status: nat, headers: map<string, string>, cookies: seq<string>,
                                       body: string, isBase64: bool)
  datatype BatchResponse = BatchResponse(v: int, responses: seq<ResponseItem>)

  /** The first item for an id. */
  function FirstFor(items: seq<ResponseItem>, id: Id): Option<ResponseItem> {
    if items == [] then None
    else if items[0].id == id then Some(items[0])
    else FirstFor(items[1..], id)
  }

  /** With distinct ids every item is the first of its id. */
  lemma {:induction false} FirstForUnique(items: seq<ResponseItem>, i: nat)
    requires i < |items| && forall j, k | 0 <= j < k < |items| :: items[j].id != items[k].id
    ensures FirstFor(items, items[i].id) == Some(items[i])
  {
    if i > 0 {
      assert items[0].id != items[i].id;
      FirstForUnique(items[1..], i - 1);
    }
  }

  function Parts(lib: Lib, item: ResponseItem): Result<Response, PartsError> {
    ResponseParts(lib, item.status, item.headers, item.cookies, item.body, item.isBase64)
  }

  function ErrorText(env: Env, message: Message): Response {
    TextResponse(BAD_GATEWAY, message, env.meta)
  }

  /** A malformed item spoils its own request only. */
  function ItemAnswer(env: Env, item: ResponseItem): Response {
    match Parts(env.lib, item)
    case Err(e) => ErrorText(env, BadItem(e))
    case Ok(resp) => resp.(meta := Some(env.meta))
  }

  /** What the request with this id is answered: decided by the first item carrying the id. */
  function AnswerFor(env: Env, parsed: Result<BatchResponse, string>, id: Id): Response {
    match parsed
    case Err(e) => ErrorText(env, Undecodable(e))
    case Ok(r) =>
      if r.v != 1 then ErrorText(env, WrongVersion(r.v))
      else match FirstFor(r.responses, id)
        case None => ErrorText(env, MissingRecord)
        case Some(item) => ItemAnswer(env, item)
  }

  /** The item at `i` is the first with this id. */
  predicate FirstAt(items: seq<ResponseItem>, id: Id, i: nat) {
    i < |items| && items[i].id == id && forall j | 0 <= j < i :: items[j].id != id
  }

  lemma {:induction false} FirstForIs(items: seq<ResponseItem>, id: Id)
    ensures FirstFor(items, id).None? <==> forall i | 0 <= i < |items| :: items[i].id != id
    ensures forall i: nat | FirstAt(items, id, i) :: FirstFor(items, id) == Some(items[i])
  {
    if items == [] {
    } else {
      FirstForIs(items[1..], id);
      forall i: nat | FirstAt(items, id, i) ensures FirstFor(items, id) == Some(items[i]) {
        if i > 0 {
          assert items[1..][i - 1] == items[i];
          assert FirstAt(items[1..], id, i - 1) by {
            assert forall j | 0 <= j < i - 1 :: items[1..][j] == items[j + 1];
          }
        }
      }
      if items[0].id != id {
        assert forall i | 0 < i < |items| :: items[i] == items[1..][i - 1];
      }
    }
  }

  /** The answer to each request, in figures: 502 for a reply that cannot be decoded, is of another version, or
      has no item for it; otherwise what its first item makes, or 502 if that cannot be passed on. */
  lemma AnswerInFigures(env: Env, parsed: Result<BatchResponse, string>, id: Id)
    ensures var answer := AnswerFor(env, parsed, id);
            match parsed
            case Err(e) => answer == BadGateway(Undecodable(e), env.meta)
            case Ok(r) =>
              if r.v != 1 then answer == BadGateway(WrongVersion(r.v), env.meta)
              else
                && ((forall i | 0 <= i < |r.responses| :: r.responses[i].id != id) ==>
                      answer == BadGateway(MissingRecord, env.meta))
                && forall i: nat | FirstAt(r.responses, id, i) ::
                     var item := r.responses[i];
                     match Promised(env.lib, env.meta, item.status, item.headers, item.cookies,
                                    TextBytes(env.lib, item.body, item.isBase64))
                     case Some(response) => answer == response
                     case None => exists cause :: answer == BadGateway(BadItem(cause), env.meta)
  {
    if parsed.Ok? && parsed.value.v == 1 {
      var items := parsed.value.responses;
      FirstForIs(items, id);
      forall i: nat | FirstAt(items, id, i)
        ensures var item := items[i];
                match Promised(env.lib, env.meta, item.status, item.headers, item.cookies,
                               TextBytes(env.lib, item.body, item.isBase64))
                case Some(response) => AnswerFor(env, parsed, id) == response
                case None => exists cause :: AnswerFor(env, parsed, id) == BadGateway(BadItem(cause), env.meta)
      {
        ItemInFigures(env, items[i]);
      }
    }
  }

  lemma ItemInFigures(env: Env, item: ResponseItem)
    ensures match Promised(env.lib, env.meta, item.status, item.headers, item.cookies,
                           TextBytes(env.lib, item.body, item.isBase64))
            case Some(response) => ItemAnswer(env, item) == response
            case None => exists cause :: ItemAnswer(env, item) == BadGateway(BadItem(cause), env.meta)
  {
    ResponseIff(env.lib, env.meta, item.status, item.headers, item.cookies, item.body, item.isBase64);
    hide ResponseParts, Promised;
    if Parts(env.lib, item).Err? {
      assert ItemAnswer(env, item) == BadGateway(BadItem(Parts(env.lib, item).error), env.meta);
    }
  }

  function AllAnswered(ids: set<Id>, response: Response): map<Id, Response> {
    map id | id in ids :: response
  }

  /** The pending one-shot senders of one invocation and the answers already sent. */
  class BufferedDispatcher {
    const env: Env
    var pending: set<Id>
    var answers: map<Id, Response>

    /** The batch size in the metadata is the number of pending senders. */
    constructor (lib: Lib, waitMs: nat, alive: (Id, nat) -> bool, ids: set<Id>)
      ensures env == Env(lib, Meta(|ids|, waitMs), alive) && pending == ids && answers == map[]
    {
      env, pending, answers := Env(lib, Meta(|ids|, waitMs), alive), ids, map[];
    }

    method Send(id: Id, response: Response)
      requires id in pending && id !in answers
      modifies this
      ensures pending == old(pending) - {id} && answers == old(answers)[id := response]
    {
      pending := pending - {id};
      answers := answers[id := response];
    }

    method FailAllBuffered(message: Message)
      requires pending !! answers.Keys
      modifies this
      ensures pending == {}
      ensures answers == old(answers) + AllAnswered(old(pending), ErrorText(env, message))
    {
      var response := ErrorText(env, message);
      while pending != {}
        invariant pending !! answers.Keys
        invariant answers + AllAnswered(pending, response) == old(answers) + AllAnswered(old(pending), response)
        decreases |pending|
      {
        var id :| id in pending;
        ghost var all := answers + AllAnswered(pending, response);
        Send(id, response);
        assert answers + AllAnswered(pending, response) == all;
      }
    }

    method DispatchBuffered(parsed: Result<BatchResponse, string>)
      requires answers == map[] && env.meta.batchSize == |pending|
      modifies this
      ensures pending == {}
      ensures answers == map id | id in old(pending) :: AnswerFor(env, parsed, id)
    {
      if parsed.Err? {
        FailAllBuffered(Undecodable(parsed.error));
        return;
      }
      var v, items := parsed.value.v, parsed.value.responses;
      if v != 1 {
        FailAllBuffered(WrongVersion(v));
        return;
      }
      ghost var batch := pending;
      var i := 0;
      while i < |items|
        invariant i <= |items| && pending <= batch && answers.Keys == batch - pending
        invariant forall id | id in pending :: FirstFor(items, id) == FirstFor(items[i..], id)
        invariant forall id | id in answers :: answers[id] == AnswerFor(env, parsed, id)
      {
        assert items[i..][0] == items[i] && items[i..][1..] == items[i + 1..];
        if items[i].id in pending {
          Send(items[i].id, ItemAnswer(env, items[i]));
        }
        i := i + 1;
      }
      assert items[i..] == [];
      FailAllBuffered(MissingRecord);
    }
  }

  // ---------------------------------------------------------------------------------------------
  // Against the stream of the same records
  // ---------------------------------------------------------------------------------------------

  function AsRecord(item: ResponseItem): Record {
    Legacy(1, item.id, item.status, item.headers, item.cookies, item.body, item.isBase64)
  }

  function AsRecords(items: seq<ResponseItem>): (recs: seq<Record>)
    ensures |recs| == |items|
  {
    if items == [] then [] else [AsRecord(items[0])] + AsRecords(items[1..])
  }

  ghost predicate FirstsWellFormed(lib: Lib, ids: set<Id>, items: seq<ResponseItem>) {
    forall id | id in ids :: FirstFor(items, id).Some? ==> Parts(lib, FirstFor(items, id).value).Ok?
  }

  /** A stream client too is decided by the first record carrying its id. */
  lemma {:induction false} FirstDecides(env: Env, items: seq<ResponseItem>, id: Id)
    ensures RunClient(env, Waiting, Own(AllOk(AsRecords(items)), id)) ==
            match FirstFor(items, id)
            case None => Stepped(Waiting, None)
            case Some(item) =>
              match Parts(env.lib, item)
              case Err(e) => Stepped(Dropped, Some(BadResponse(e)))
              case Ok(resp) => Stepped(Answered(resp.(meta := Some(env.meta))), None)
  {
    if items == [] {
    } else {
      var ps := AllOk(AsRecords(items));
      assert ps[0] == Ok(AsRecord(items[0])) && ps[1..] == AllOk(AsRecords(items[1..]));
      hide ClientStep, Parts, AsRecords;
      if items[0].id == id {
        var rest := Own(ps[1..], id);
        assert Own(ps, id) == [AsRecord(items[0])] + rest && Own(ps, id)[1..] == rest;
        StepWaiting(env, items[0]);
        RecordVersions(items[1..]);
        OwnVersion(AsRecords(items[1..]), id);
        QuietOnceAnswered(env, ClientStep(env, Waiting, AsRecord(items[0])).client, rest);
      } else {
        assert Own(ps, id) == Own(ps[1..], id);
        FirstDecides(env, items[1..], id);
      }
    }
  }

  lemma StepWaiting(env: Env, item: ResponseItem)
    ensures ClientStep(env, Waiting, AsRecord(item)) ==
            match Parts(env.lib, item)
            case Err(e) => Stepped(Dropped, Some(BadResponse(e)))
            case Ok(resp) => Stepped(Answered(resp.(meta := Some(env.meta))), None)
  {
  }

  lemma QuietOnceAnswered(env: Env, c: Client, recs: seq<Record>)
    requires !c.Live() && forall r | r in recs :: r.v == 1
    ensures RunClient(env, c, recs) == Stepped(c, None)
  {
    DeadClient(env, c, recs);
  }

  lemma {:induction false} OwnVersion(recs: seq<Record>, id: Id)
    requires forall r | r in recs :: r.v == 1
    ensures forall r | r in Own(AllOk(recs), id) :: r.v == 1
  {
    if recs == [] {
    } else {
      assert recs[0] in recs && AllOk(recs)[1..] == AllOk(recs[1..]);
      OwnVersion(recs[1..], id);
    }
  }

  lemma {:induction false} RecordVersions(items: seq<ResponseItem>)
    ensures forall r | r in AsRecords(items) :: r.v == 1 && r.Legacy?
  {
    if items == [] {
    } else {
      RecordVersions(items[1..]);
    }
  }

  /** Where the clients of a streamed invocation end. */
  function StreamedEnd(env: Env, ids: set<Id>, items: seq<ResponseItem>): Clients {
    var r := RunAll(env, Fresh(ids), AllOk(AsRecords(items)));
    FailAll(env, if r.fault.Some? then OfFault(r.fault.value) else MissingRecord, r.clients)
  }

  lemma FaultsUnlessWellFormed(env: Env, ids: set<Id>, items: seq<ResponseItem>)
    requires !FirstsWellFormed(env.lib, ids, items)
    ensures RunAll(env, Fresh(ids), AllOk(AsRecords(items))).fault.Some?
  {
    var id :| id in ids && FirstFor(items, id).Some? && Parts(env.lib, FirstFor(items, id).value).Err?;
    FaultIff(env, Fresh(ids), AllOk(AsRecords(items)));
    FirstDecides(env, items, id);
    assert ClientFaults(env, Fresh(ids), AllOk(AsRecords(items)), id);
  }

  lemma {:induction false} DropAtFault(env: Env, cs: Clients, recs: seq<Record>) returns (id: Id)
    requires forall r | r in recs :: r.v == 1 && r.Legacy?
    requires forall i | i in cs :: !cs[i].Streaming?
    requires RunAll(env, cs, AllOk(recs)).fault.Some?
    ensures id in cs && RunAll(env, cs, AllOk(recs)).clients[id] == Dropped
  {
    var ps := AllOk(recs);
    assert recs[0] in recs && ps[1..] == AllOk(recs[1..]);
    var s := StepAll(env, cs, ps[0]);
    id := recs[0].id;
    if s.fault.None? {
      id := DropAtFault(env, s.clients, recs[1..]);
    }
  }

  /** A faulting stream of whole responses leaves some client dropped unanswered, which no buffered
      dispatch ever does. */
  lemma {:induction false} SomeoneDropped(env: Env, ids: set<Id>, items: seq<ResponseItem>)
    requires RunAll(env, Fresh(ids), AllOk(AsRecords(items))).fault.Some?
    ensures exists id :: id in ids && StreamedEnd(env, ids, items)[id] == Dropped
  {
    RecordVersions(items);
    var id := DropAtFault(env, Fresh(ids), AsRecords(items));
  }

  /** Buffered and streamed dispatch of the same records answer every request alike exactly when the
      first record of every pending id can be turned into a response. */
  lemma AgreeIffWellFormed(env: Env, ids: set<Id>, items: seq<ResponseItem>)
    ensures (forall id | id in ids ::
               StreamedEnd(env, ids, items)[id] == Answered(AnswerFor(env, Ok(BatchResponse(1, items)), id)))
            <==> FirstsWellFormed(env.lib, ids, items)
  {
    var cs, ps := Fresh(ids), AllOk(AsRecords(items));
    var r := RunAll(env, cs, ps);
    FaultIff(env, cs, ps);
    NoneUnparsable(AsRecords(items));
    RecordVersions(items);
    if FirstsWellFormed(env.lib, ids, items) {
      forall id ensures !ClientFaults(env, cs, ps, id) {
        FirstDecides(env, items, id);
        OwnVersion(AsRecords(items), id);
        if id !in ids {
          QuietOnceAnswered(env, Dropped, Own(ps, id));
        }
      }
      forall id | id in ids
        ensures StreamedEnd(env, ids, items)[id] == Answered(AnswerFor(env, Ok(BatchResponse(1, items)), id))
      {
        NonInterference(env, cs, ps, id);
        FirstDecides(env, items, id);
      }
    } else {
      FaultsUnlessWellFormed(env, ids, items);
      SomeoneDropped(env, ids, items);
    }
  }
}
