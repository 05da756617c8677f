/** End to end when every item is answered by one whole record: the adapter without interleaving,
    streamed, perhaps cut short, or buffered. */
module WholeResponses {
  import opened Wire
  import opened Promise
  import opened Framing
  import opened Demux
  import opened StreamDispatch
  import opened Select
  import opened Adapter
  import opened EndToEnd
  import opened Buffered
  import opened Spoiled

  /** The adapter's fixed error answer, also for a streaming body that cannot be buffered. */
  predicate AnswersError(handled: Handled) {
    handled.Failed? || handled.response.body.StreamBody?
  }

  /** The bytes of a buffered body, if its text decodes. */
  function WholeBytes(lib: Lib, r: HandlerResponse): Option<Bytes> {
    match r.body
    case TextBody(s) => TextBytes(lib, s, r.isBase64)
    case BinaryBody(b) => Some(b)
    case _ => TextBytes(lib, "", r.isBase64)
  }

  /** The answer the client should get, in terms of what the handler returned: its own status, headers,
      cookies and body, or the fixed error. */
  function ServedWhole(lib: Lib, meta: Meta, handled: Handled): Option<Response> {
    if AnswersError(handled) then
      Promised(lib, meta, 500, map["content-type" := "text/plain"], [], Some(lib.utf8("internal error")))
    else
      var r := handled.response;
      Promised(lib, meta, if r.status == 0 then 200 else r.status, Named(lib, r.headers), Trimmed(lib, r.cookies),
               WholeBytes(lib, r))
  }

  function WholeStreams(lib: Lib, ids: seq<Id>, handled: seq<Handled>): (streams: seq<seq<Record>>)
    requires |ids| == |handled|
    ensures |streams| == |ids|
  {
    seq(|ids|, k requires 0 <= k < |ids| => [WholeRecord(lib, ids[k], handled[k])])
  }

  /** The fields of the record are the handler's own, in the form the gateway reads. */
  lemma WholeWritten(lib: Lib, meta: Meta, id: Id, handled: Handled)
    requires Base64Law(lib)
    ensures var rec := WholeRecord(lib, id, handled);
            && rec.Legacy? && rec.v == 1 && rec.id == id
            && ServedWhole(lib, meta, handled) ==
               Promised(lib, meta, rec.status, rec.headers, rec.cookies, TextBytes(lib, rec.body, rec.isBase64))
  {
    hide Promised, HeadPasses, HeaderFields, HeadParts, Trimmed, Named, NormalizeHeaders, NormalizeCookies;
    if !AnswersError(handled) {
      CookiesNormalized(lib, handled.response.cookies);
      HeadersNormalized(lib, handled.response.headers);
    }
  }

  /** The record the adapter writes is read as the handler's own answer. */
  lemma WholeParts(lib: Lib, meta: Meta, id: Id, handled: Handled)
    requires Base64Law(lib)
    ensures var rec := WholeRecord(lib, id, handled);
            && rec.Legacy? && rec.v == 1 && rec.id == id
            && var parts := ResponseParts(lib, rec.status, rec.headers, rec.cookies, rec.body, rec.isBase64);
               match ServedWhole(lib, meta, handled)
               case Some(response) => parts == Ok(response.(meta := None)) && response.meta == Some(meta)
               case None => parts.Err?
  {
    var rec := WholeRecord(lib, id, handled);
    ResponseIff(lib, meta, rec.status, rec.headers, rec.cookies, rec.body, rec.isBase64);
    WholeWritten(lib, meta, id, handled);
    hide ResponseParts, HeadParts, HeadPasses, ServedWhole, Promised, TextBytes, WholeRecord;
  }

  lemma WholeRun(env: Env, id: Id, handled: Handled)
    requires Base64Law(env.lib)
    ensures var r := RunClient(env, Waiting, [WholeRecord(env.lib, id, handled)]);
            match ServedWhole(env.lib, env.meta, handled)
            case Some(response) => r == Stepped(Answered(response), None)
            case None => r.fault.Some? && r.client == Dropped
  {
    var rec := WholeRecord(env.lib, id, handled);
    WholeParts(env.lib, env.meta, id, handled);
    assert [rec][1..] == [];
    hide ResponseParts, WholeRecord, ServedWhole;
  }

  /** Each client is answered with its own handler's response exactly when every response can be
      passed on; a single one that cannot spoils the stream for all who still wait. */
  lemma {:induction false} WholeEndToEnd(env: Env, encode: Record -> Bytes, ids: seq<Id>, handled: seq<Handled>,
                                         log: seq<(nat, Record)>, stream: seq<Item>)
    requires NoRepeats(ids) && |ids| == |handled| && Base64Law(env.lib)
    requires Merges(WholeStreams(env.lib, ids, handled), log)
    requires EncoderLaw(env.lib, encode, Records(log))
    requires Admitted(stream, 0) == |stream| && Writes(Cat(stream), EncodeAll(encode, Records(log)))
    ensures var out := Dispatched(env, Fresh(Elements(ids)), stream);
            var all := forall k: nat | k < |ids| :: ServedWhole(env.lib, env.meta, handled[k]).Some?;
            && (out.exit.OfFault? <==> !all)
            && (all ==> forall k: nat | k < |ids| ::
                  out.clients[ids[k]] == Answered(ServedWhole(env.lib, env.meta, handled[k]).value))
  {
    var streams := WholeStreams(env.lib, ids, handled);
    assert Tagged(ids, streams);
    Delivery(env, encode, ids, streams, log, stream);
    forall k: nat | k < |ids|
      ensures OwnFault(env, streams, k) <==> ServedWhole(env.lib, env.meta, handled[k]).None?
      ensures ServedWhole(env.lib, env.meta, handled[k]).Some? ==>
                RunClient(env, Waiting, streams[k]).client == Answered(ServedWhole(env.lib, env.meta, handled[k]).value)
    {
      WholeRun(env, ids[k], handled[k]);
    }
  }

  /** The client's own handler's whole response, or a gateway error; nothing only if that response was
      refused. */
  predicate WholeOrError(env: Env, exit: Message, handled: Handled, c: Client) {
    match c
    case Answered(response) =>
      response == BadGateway(exit, env.meta) || Some(response) == ServedWhole(env.lib, env.meta, handled)
    case Dropped => ServedWhole(env.lib, env.meta, handled).None?
    case _ => false
  }

  lemma WholePart(env: Env, exit: Message, id: Id, handled: Handled, c: Client)
    requires Base64Law(env.lib) && RanOwnPart(env, [WholeRecord(env.lib, id, handled)], c)
    ensures WholeOrError(env, exit, handled, FailClient(env, exit, c))
  {
    var recs := [WholeRecord(env.lib, id, handled)];
    var m: nat :| m <= 1 && RunClient(env, Waiting, recs[..m]).client == c;
    WholeRun(env, id, handled);
    hide ServedWhole, WholeRecord;
    if m == 0 {
      assert recs[..0] == [];
    } else {
      assert recs[..1] == recs;
      hide RunClient;
    }
  }

  /** Also in a stream of whole responses that was spoiled or cut short nobody sees anything of
      another's: each client has its own handler's response or a gateway error, or is dropped because
      its own response was refused. */
  lemma WholesCutAnywhere(env: Env, encode: Record -> Bytes, ids: seq<Id>, handled: seq<Handled>,
                          log: seq<(nat, Record)>, stream: seq<Item>)
    requires NoRepeats(ids) && |ids| == |handled| && Base64Law(env.lib)
    requires Merges(WholeStreams(env.lib, ids, handled), log)
    requires EncoderLaw(env.lib, encode, Records(log)) && PartsDoNotParse(env.lib, encode, Records(log))
    requires Cat(stream[..Admitted(stream, 0)]) <= Spell(EncodeAll(encode, Records(log)), [])
    ensures var out := Dispatched(env, Fresh(Elements(ids)), stream);
            forall k: nat | k < |ids| ::
              ids[k] in out.clients && WholeOrError(env, out.exit, handled[k], out.clients[ids[k]])
  {
    var streams := WholeStreams(env.lib, ids, handled);
    assert Tagged(ids, streams);
    EachItsOwnPart(env, encode, ids, streams, log, stream);
    hide Dispatched, RanOwnPart, WholeOrError, WholeRecord;
    var out := Dispatched(env, Fresh(Elements(ids)), stream);
    forall k: nat | k < |ids|
      ensures ids[k] in out.clients && WholeOrError(env, out.exit, handled[k], out.clients[ids[k]])
    {
      var c :| RanOwnPart(env, streams[k], c) && out.clients[ids[k]] == FailClient(env, out.exit, c);
      WholePart(env, out.exit, ids[k], handled[k], c);
    }
  }

  /** The same record as an item of a buffered response. */
  function WholeItem(lib: Lib, id: Id, handled: Handled): ResponseItem {
    var r := WholeRecord(lib, id, handled);
    ResponseItem(r.id, r.status, r.headers, r.cookies, r.body, r.isBase64)
  }

  function WholeItems(lib: Lib, ids: seq<Id>, handled: seq<Handled>): (items: seq<ResponseItem>)
    requires |ids| == |handled|
    ensures |items| == |ids|
  {
    seq(|ids|, k requires 0 <= k < |ids| => WholeItem(lib, ids[k], handled[k]))
  }

  lemma WholeAnswer(env: Env, id: Id, handled: Handled)
    requires Base64Law(env.lib)
    ensures var answer := ItemAnswer(env, WholeItem(env.lib, id, handled));
            match ServedWhole(env.lib, env.meta, handled)
            case Some(response) => answer == response
            case None => exists cause :: answer == BadGateway(BadItem(cause), env.meta)
  {
    WholeParts(env.lib, env.meta, id, handled);
    hide ResponseParts, WholeRecord, ServedWhole;
    var parts := Parts(env.lib, WholeItem(env.lib, id, handled));
    if parts.Err? {
      assert ItemAnswer(env, WholeItem(env.lib, id, handled)) == BadGateway(BadItem(parts.error), env.meta);
    }
  }

  /** Buffered: each request gets its own handler's response, or a 502 of its own if that response
      cannot be passed on; no other request is touched by it. */
  lemma BufferedEndToEnd(env: Env, ids: seq<Id>, handled: seq<Handled>, k: nat)
    requires NoRepeats(ids) && |ids| == |handled| && Base64Law(env.lib) && k < |ids|
    ensures var answer := AnswerFor(env, Ok(BatchResponse(1, WholeItems(env.lib, ids, handled))), ids[k]);
            match ServedWhole(env.lib, env.meta, handled[k])
            case Some(response) => answer == response
            case None => exists cause :: answer == BadGateway(BadItem(cause), env.meta)
  {
    var items := WholeItems(env.lib, ids, handled);
    WholeAnswer(env, ids[k], handled[k]);
    hide ItemAnswer, ServedWhole, WholeRecord;
    assert forall i | 0 <= i < |items| :: items[i].id == ids[i];
    FirstForUnique(items, k);
    assert items[k] == WholeItem(env.lib, ids[k], handled[k]);
  }
}
