/** The Runtime API proxy: the state behind its mutex, one operation per locked region. */
module Proxy {
  import opened Wire
  import opened Buffered

  datatype VirtualInvocation = VirtualInvocation(id: Id, event: Bytes)

  function IdsOf(invocations: seq<VirtualInvocation>): (ids: seq<Id>)
    ensures |ids| == |invocations|
  {
    seq(|invocations|, i requires 0 <= i < |invocations| => invocations[i].id)
  }

  // ---------------------------------------------------------------------------------------------
  // smug.rs: recognising a batch
  // ---------------------------------------------------------------------------------------------

  /** One element of the outer batch: its request id, if it has one, and its own JSON. */
  datatype OuterItem = OuterItem(requestId: Option<Id>, event: Bytes)
  datatype Envelope = Envelope(v: int, batch: seq<OuterItem>)
  datatype ParseError = MissingId | DuplicateId(id: Id)

  ghost predicate WellIdentified(batch: seq<OuterItem>) {
    && (forall i | 0 <= i < |batch| :: batch[i].requestId.Some?)
    && (forall i, j | 0 <= i < j < |batch| :: batch[i].requestId != batch[j].requestId)
  }

  /** `parse_outer_smug_batch`; no envelope at all stands for a body that is not the expected JSON. */
  method ParseOuterSmugBatch(body: Option<Envelope>) returns (r: Result<Option<seq<VirtualInvocation>>, ParseError>)
    ensures r == Ok(None) <==> body.None? || body.value.v != 1
    ensures r.Err? <==> body.Some? && body.value.v == 1 && !WellIdentified(body.value.batch)
    ensures r.Ok? && r.value.Some? ==>
              var batch, out := body.value.batch, r.value.value;
              && |out| == |batch| && NoRepeats(IdsOf(out))
              && forall i | 0 <= i < |out| :: batch[i] == OuterItem(Some(out[i].id), out[i].event)
  {
    if body.None? || body.value.v != 1 {
      return Ok(None);
    }
    var batch := body.value.batch;
    var out: seq<VirtualInvocation>, seen: set<Id> := [], {};
    var i := 0;
    while i < |batch|
      invariant i == |out| <= |batch|
      invariant forall k | 0 <= k < i :: batch[k] == OuterItem(Some(out[k].id), out[k].event) && out[k].id in seen
      invariant forall id | id in seen :: exists k :: 0 <= k < i && out[k].id == id
      invariant forall k, l | 0 <= k < l < i :: out[k].id != out[l].id
    {
      if batch[i].requestId.None? {
        return Err(MissingId);
      }
      var id := batch[i].requestId.value;
      if id in seen {
        return Err(DuplicateId(id));
      }
      seen := seen + {id};
      out := out + [VirtualInvocation(id, batch[i].event)];
      i := i + 1;
    }
    return Ok(Some(out));
  }

  // ---------------------------------------------------------------------------------------------
  // state.rs and the locked regions of proxy.rs, on values
  // ---------------------------------------------------------------------------------------------

  /** `streamOpen` and `hasJoin` stand for the `Some`-ness of `stream_tx` and `stream_join`. */
  datatype Active =
    | NoInvocation
    | PassThrough(requestId: Id, delivered: bool)
    | SmugBatch(outerId: Id, queue: seq<VirtualInvocation>, inflight: set<Id>, streamOpen: bool, hasJoin: bool)
    | SmugFinalizing

  datatype Inner = Inner(fetchingOuter: bool, active: Active)

  /** `Refused` is the 502 for an id that is no header value, after it went into `inflight`. */
  datatype Taken = Nothing | DeliveredPass(requestId: Id) | Delivered(invocation: VirtualInvocation) | Refused(id: Id)

  datatype Fetched = FetchFailed | Unparsable | Plain(requestId: Id) | Batch(outerId: Id, batch: seq<VirtualInvocation>)

  /** What a worker posts: a response body, or an error. */
  datatype Posted = PostedResponse(body: Bytes) | PostedError

  /** A runtime's reply read as an API Gateway response. */
  datatype Reply = Reply(status: nat, headers: map<string, string>, cookies: seq<string>, body: string, isBase64: bool)

  datatype Completed =
    | Forward(requestId: Id)
    | Local(line: Option<ResponseItem>, finalizeJoin: bool)

  function TakeNext(headerOk: Id -> bool, inner: Inner): (Inner, Taken) {
    match inner.active
    case PassThrough(id, delivered) =>
      if delivered then (inner, Nothing)
      else (inner.(active := PassThrough(id, true)), DeliveredPass(id))
    case SmugBatch(outer, queue, inflight, open, join) =>
      if queue == [] then (inner, Nothing)
      else
        var next := queue[0];
        (inner.(active := SmugBatch(outer, queue[1..], inflight + {next.id}, open, join)),
         if headerOk(next.id) then Delivered(next) else Refused(next.id))
    case _ => (inner, Nothing)
  }

  function TakenId(taken: Taken): Id
    requires !taken.Nothing?
  {
    match taken
    case DeliveredPass(id) => id
    case Delivered(invocation) => invocation.id
    case Refused(id) => id
  }

  /** A completion under this id would be acted upon. */
  predicate Pending(active: Active, id: Id) {
    match active
    case PassThrough(requestId, _) => id == requestId
    case SmugBatch(_, _, inflight, _, _) => id in inflight
    case _ => false
  }

  function StartFetch(inner: Inner): (Inner, bool) {
    if inner.active.NoInvocation? then (inner.(fetchingOuter := true), !inner.fetchingOuter)
    else (inner, false)
  }

  function EndFetch(inner: Inner, fetched: Fetched): Inner {
    match fetched
    case FetchFailed => inner.(fetchingOuter := false)
    case Unparsable => inner.(fetchingOuter := false)
    case Plain(id) => Inner(false, PassThrough(id, false))
    case Batch(outer, batch) => Inner(false, SmugBatch(outer, batch, {}, true, true))
  }

  /** The record of the runtime's reply, or the fixed error record. */
  function LineFor(parseReply: Bytes -> Option<Reply>, id: Id, posted: Posted): ResponseItem {
    match posted
    case PostedResponse(body) =>
      (match parseReply(body)
       case Some(r) => ResponseItem(id, r.status, r.headers, r.cookies, r.body, r.isBase64)
       case None => ErrorLine(id, 502))
    case PostedError => ErrorLine(id, 500)
  }

  function ErrorLine(id: Id, status: nat): ResponseItem {
    ResponseItem(id, status, map[], [], "", false)
  }

  function Complete(parseReply: Bytes -> Option<Reply>, inner: Inner, id: Id, posted: Posted): (Inner, Completed) {
    match inner.active
    case PassThrough(requestId, _) =>
      (inner, if id != requestId then Local(None, false) else Forward(id))
    case SmugBatch(outer, queue, inflight, open, join) =>
      if id !in inflight then (inner, Local(None, false))
      else
        var left := inflight - {id};
        var line := if open then Some(LineFor(parseReply, id, posted)) else None;
        if queue != [] || left != {} then
          (inner.(active := SmugBatch(outer, queue, left, open, join)), Local(line, false))
        else (inner.(active := SmugFinalizing), Local(line, join))
    case _ => (inner, Local(None, false))
  }

  function Reset(inner: Inner): Inner {
    inner.(active := NoInvocation)
  }

  // ---------------------------------------------------------------------------------------------
  // The code
  // ---------------------------------------------------------------------------------------------

  /** `InnerState`; every method runs under the lock. */
  class InnerState {
    var fetchingOuter: bool
    var active: Active

    constructor ()
      ensures Value() == Inner(false, NoInvocation)
    {
      fetchingOuter, active := false, NoInvocation;
    }

    function Value(): Inner
      reads this
    {
      Inner(fetchingOuter, active)
    }

    method TryTakeNext(headerOk: Id -> bool) returns (taken: Taken)
      modifies this
      ensures (Value(), taken) == TakeNext(headerOk, old(Value()))
      ensures taken.Nothing? ==> Value() == old(Value())
      ensures taken.Nothing? <==> match old(active)
                                  case PassThrough(_, delivered) => delivered
                                  case SmugBatch(_, queue, _, _, _) => queue == []
                                  case _ => true
      ensures old(active).SmugBatch? ==>
                && active.SmugBatch?
                && IdsOf(active.queue) == (if taken.Nothing? then [] else IdsOf(old(active).queue)[1..])
                && (!taken.Nothing? ==> TakenId(taken) == old(active).queue[0].id && TakenId(taken) in active.inflight)
                && old(active).inflight <= active.inflight
      ensures old(active).PassThrough? && !taken.Nothing? ==>
                taken == DeliveredPass(old(active).requestId) && active == PassThrough(old(active).requestId, true)
      ensures taken.Delivered? ==> headerOk(taken.invocation.id) && taken.invocation == old(active).queue[0]
      ensures taken.Refused? ==> !headerOk(taken.id)
    {
      taken := Nothing;
      if active.PassThrough? {
        if !active.delivered {
          active := active.(delivered := true);
          taken := DeliveredPass(active.requestId);
        }
      } else if active.SmugBatch? && active.queue != [] {
        var next := active.queue[0];
        active := active.(queue := active.queue[1..]);
        active := active.(inflight := active.inflight + {next.id});
        taken := if headerOk(next.id) then Delivered(next) else Refused(next.id);
      }
    }

    method ShouldFetch() returns (should: bool)
      modifies this
      ensures (Value(), should) == StartFetch(old(Value()))
      ensures should <==> old(Value()) == Inner(false, NoInvocation)
      ensures !should ==> Value() == old(Value())
      ensures should ==> !StartFetch(Value()).1
    {
      should := false;
      if active.NoInvocation? {
        var was := fetchingOuter;
        fetchingOuter := true;
        should := !was;
      }
    }

    method FetchDone(fetched: Fetched)
      modifies this
      ensures Value() == EndFetch(old(Value()), fetched)
      ensures StartFetch(Value()).1 <==> (fetched.FetchFailed? || fetched.Unparsable?) && old(active).NoInvocation?
    {
      fetchingOuter := false;
      match fetched {
        case Plain(id) => active := PassThrough(id, false);
        case Batch(outer, batch) => active := SmugBatch(outer, batch, {}, true, true);
        case FetchFailed =>
        case Unparsable =>
      }
    }

    method HandleCompletion(parseReply: Bytes -> Option<Reply>, id: Id, posted: Posted) returns (r: Completed)
      modifies this
      ensures (Value(), r) == Complete(parseReply, old(Value()), id, posted)
      ensures !Pending(old(active), id) ==> Value() == old(Value()) && r == Local(None, false)
      ensures Pending(old(active), id) && old(active).SmugBatch? ==>
                && !Pending(active, id)
                && r == Local(if old(active).streamOpen then Some(LineFor(parseReply, id, posted)) else None,
                              active.SmugFinalizing? && old(active).hasJoin)
                && (active.SmugFinalizing? <==> old(active).queue == [] && old(active).inflight == {id})
                && forall other | other != id && Pending(old(active), other) :: Pending(active, other)
    {
      r := Local(None, false);
      if active.PassThrough? {
        if id == active.requestId {
          r := Forward(id);
        }
      } else if active.SmugBatch? && id in active.inflight {
        active := active.(inflight := active.inflight - {id});
        var line := if active.streamOpen then Some(LineFor(parseReply, id, posted)) else None;
        if active.queue != [] || active.inflight != {} {
          return Local(line, false);
        }
        var join := active.hasJoin;
        active := active.(hasJoin := false, streamOpen := false);
        active := SmugFinalizing;
        r := Local(line, join);
      }
    }

    /** After a forwarded completion succeeded, and after the finalise task's join: the same lines. */
    method ResetActive()
      modifies this
      ensures Value() == Reset(old(Value()))
      ensures StartFetch(Value()).1 <==> !old(fetchingOuter)
      ensures forall id :: !Pending(active, id)
    {
      active := NoInvocation;
    }
  }
}
