/** Demultiplexing of one record stream to many waiting clients.

    The specification is a per-client automaton that looks at one client's own records only. The
    code keeps a map of pending senders and works on all clients at once; `Dispatcher` is that
    code, proved to move exactly the addressed client one automaton step. */
module Demux {
  import opened Wire
  import opened Promise

  /** What one client has been given so far; `Gone` was never reached with a head, `HungUp` took the
      head and some chunks before it left. */
  datatype Client =
    | Waiting
    | Streaming(head: StreamHead, body: seq<Bytes>)
    | Answered(response: Response)
    | Closed(head: StreamHead, body: seq<Bytes>)
    | Dropped
    | Gone
    | HungUp(head: StreamHead, body: seq<Bytes>)
  {
    predicate Live() { Waiting? || Streaming? }
  }

  type Clients = map<Id, Client>

  /** A line of the stream after parsing. */
  type Parsed = Result<Record, string>

  /** `alive(id, n)` says whether the n-th send to client `id` still finds a receiver. */
  datatype Env = Env(lib: Lib, meta: Meta, alive: (Id, nat) -> bool)

  datatype Stepped = Stepped(client: Client, fault: Option<Fault>)

  /** The stream head a response gets when its first record is not a head. */
  function DefaultHead(env: Env): StreamHead {
    StreamHead(200, [], env.meta)
  }

  /** The client after its head has been sent or found undeliverable. */
  function OpenWith(env: Env, id: Id, head: StreamHead): Client {
    if env.alive(id, 0) then Streaming(head, []) else Gone
  }

  function EnsureOpen(env: Env, id: Id, c: Client): Client {
    if c.Waiting? then OpenWith(env, id, DefaultHead(env)) else c
  }

  /** Both senders of the client are dropped. */
  function Hangup(c: Client): Client {
    match c
    case Waiting => Dropped
    case Streaming(h, b) => Closed(h, b)
    case _ => c
  }

  function PushChunk(env: Env, id: Id, c: Client, bytes: Bytes): Client
    requires c.Streaming?
  {
    if env.alive(id, 1 + |c.body|) then Streaming(c.head, c.body + [bytes]) else HungUp(c.head, c.body)
  }

  /** A chunk for a client whose head has been sent. */
  function BodyStep(env: Env, id: Id, c: Client, body: string, isBase64: bool): Stepped
    requires c.Streaming?
  {
    match DecodeBody(env.lib, body, isBase64)
    case None => Stepped(Hangup(c), Some(BadChunkBody))
    case Some(bytes) => Stepped(PushChunk(env, id, c, bytes), None)
  }

  /** One record addressed to this client. */
  function ClientStep(env: Env, c: Client, rec: Record): Stepped {
    if rec.v != 1 then Stepped(c, Some(UnsupportedVersion(rec.v)))
    else if !c.Live() then Stepped(c, None)
    else match rec
      case Legacy(_, _, status, headers, cookies, body, isBase64) =>
        (match ResponseParts(env.lib, status, headers, cookies, body, isBase64)
         case Err(e) => Stepped(Hangup(c), Some(BadResponse(e)))
         case Ok(resp) =>
           Stepped(if c.Waiting? then Answered(resp.(meta := Some(env.meta))) else Hangup(c), None))
      case Head(_, id, status, headers, cookies) =>
        if c.Streaming? then Stepped(c, None)
        else (match HeadParts(env.lib, status.GetOr(200), headers, cookies)
              case Err(e) => Stepped(Dropped, Some(BadHead(e)))
              case Ok(h) => Stepped(OpenWith(env, id, StreamHead(status.GetOr(200), h, env.meta)), None))
      case Chunk(_, id, body, isBase64) =>
        var started := EnsureOpen(env, id, c);
        if started.Gone? then Stepped(Gone, None) else BodyStep(env, id, started, body.GetOr(""), isBase64)
      case End(_, id) => Stepped(Hangup(EnsureOpen(env, id, c)), None)
      case Error(_, _, status, message) =>
        Stepped(if c.Waiting? then Answered(ErrorAnswer(env, status, message)) else Hangup(c), None)
  }

  function ErrorAnswer(env: Env, status: Option<nat>, message: Option<string>): Response {
    var code := status.GetOr(502);
    TextResponse(if StatusOk(code) then code else BAD_GATEWAY, Reported(message.GetOr("error")), env.meta)
  }

  lemma ChunkAfterHead(env: Env, id: Id, c: Client, body: string, isBase64: bool)
    requires c.Live() && EnsureOpen(env, id, c).Streaming?
    ensures ClientStep(env, c, Chunk(1, id, Some(body), isBase64)) ==
            BodyStep(env, id, EnsureOpen(env, id, c), body, isBase64)
  {
  }

  /** The records of one client, run until the first fault. */
  function RunClient(env: Env, c: Client, recs: seq<Record>): Stepped
    decreases recs
  {
    if recs == [] then Stepped(c, None)
    else
      var s := ClientStep(env, c, recs[0]);
      if s.fault.Some? then s else RunClient(env, s.client, recs[1..])
  }

  /** The records of a parsed stream that carry one id. */
  function Own(ps: seq<Parsed>, id: Id): (own: seq<Record>)
    ensures forall r :: r in own ==> r.id == id
  {
    if ps == [] then []
    else (if ps[0].Ok? && ps[0].value.id == id then [ps[0].value] else []) + Own(ps[1..], id)
  }

  datatype SteppedAll = SteppedAll(clients: Clients, fault: Option<Fault>)

  /** The client an id denotes; ids outside the batch behave like clients already dealt with. */
  function At(cs: Clients, id: Id): Client {
    if id in cs then cs[id] else Dropped
  }

  function StepAll(env: Env, cs: Clients, p: Parsed): SteppedAll {
    match p
    case Err(e) => SteppedAll(cs, Some(BadNdjson(e)))
    case Ok(rec) =>
      var s := ClientStep(env, At(cs, rec.id), rec);
      SteppedAll(if rec.id in cs then cs[rec.id := s.client] else cs, s.fault)
  }

  lemma StepIdle(env: Env, cs: Clients, rec: Record)
    requires rec.v != 1 || !At(cs, rec.id).Live()
    ensures StepAll(env, cs, Ok(rec)) ==
            SteppedAll(cs, if rec.v != 1 then Some(UnsupportedVersion(rec.v)) else None)
  {
  }

  /** `used` counts the lines handled, the faulting one included. */
  datatype Ran = Ran(clients: Clients, fault: Option<Fault>, used: nat)

  function RunAll(env: Env, cs: Clients, ps: seq<Parsed>): (r: Ran)
    ensures r.used <= |ps| && r.clients.Keys == cs.Keys
    ensures r.fault.None? ==> r.used == |ps|
  {
    if ps == [] then Ran(cs, None, 0)
    else
      var s := StepAll(env, cs, ps[0]);
      if s.fault.Some? then Ran(s.clients, s.fault, 1)
      else
        var r := RunAll(env, s.clients, ps[1..]);
        r.(used := r.used + 1)
  }

  /** `fail_all_stream`: everyone still live is answered with an error or has its body closed. */
  function FailClient(env: Env, message: Message, c: Client): Client {
    if c.Waiting? then Answered(TextResponse(BAD_GATEWAY, message, env.meta)) else Hangup(c)
  }

  function FailAll(env: Env, message: Message, cs: Clients): Clients {
    map id | id in cs :: FailClient(env, message, cs[id])
  }

  function Fresh(ids: set<Id>): Clients {
    map id | id in ids :: Waiting
  }

  lemma FailOne(env: Env, message: Message, cs: Clients, id: Id)
    requires id in cs
    ensures FailAll(env, message, cs[id := FailClient(env, message, cs[id])]) == FailAll(env, message, cs)
  {
  }

  // ---------------------------------------------------------------------------------------------
  // Non-interference
  // ---------------------------------------------------------------------------------------------

  lemma {:induction false} RunAppend(env: Env, cs: Clients, a: seq<Parsed>, b: seq<Parsed>)
    ensures var ra := RunAll(env, cs, a);
            RunAll(env, cs, a + b) ==
            if ra.fault.Some? then ra
            else var rb := RunAll(env, ra.clients, b); rb.(used := |a| + rb.used)
  {
    if a == [] {
      assert a + b == b;
    } else {
      assert (a + b)[1..] == a[1..] + b;
      var s := StepAll(env, cs, a[0]);
      if s.fault.None? {
        RunAppend(env, s.clients, a[1..], b);
      }
    }
  }

  /** Whatever the stream does, every client has seen exactly the run of its own records among the
      lines handled before the stream stopped. */
  lemma {:induction false} Projection(env: Env, cs: Clients, ps: seq<Parsed>, id: Id)
    ensures var r := RunAll(env, cs, ps);
            RunClient(env, At(cs, id), Own(ps[..r.used], id)).client == At(r.clients, id)
  {
    var r := RunAll(env, cs, ps);
    if id !in cs {
      DeadClient(env, Dropped, Own(ps[..r.used], id));
    } else if ps != [] {
      var s := StepAll(env, cs, ps[0]);
      var seen := ps[..r.used];
      assert seen[0] == ps[0] && seen[1..] == ps[1..][..r.used - 1];
      if s.fault.None? {
        Projection(env, s.clients, ps[1..], id);
      } else {
        assert seen[1..] == [];
      }
      OwnHead(env, cs, seen, id);
    }
  }

  /** One line, seen from one client: its own record moves it, any other leaves it alone. */
  lemma OwnHead(env: Env, cs: Clients, ps: seq<Parsed>, id: Id)
    requires ps != [] && id in cs
    ensures var s := StepAll(env, cs, ps[0]);
            if ps[0].Ok? && ps[0].value.id == id
            then s == SteppedAll(cs[id := s.clients[id]], s.fault)
                 && ClientStep(env, cs[id], ps[0].value) == Stepped(s.clients[id], s.fault)
                 && Own(ps, id)[0] == ps[0].value && Own(ps, id)[1..] == Own(ps[1..], id)
            else s.clients[id] == cs[id] && Own(ps, id) == Own(ps[1..], id)
  {
  }

  /** A client already dealt with is never touched again. */
  lemma {:induction false} DeadClient(env: Env, c: Client, recs: seq<Record>)
    requires !c.Live()
    ensures RunClient(env, c, recs).client == c
    ensures RunClient(env, c, recs).fault.Some? <==> exists r :: r in recs && r.v != 1
  {
    if recs == [] {
    } else {
      DeadClient(env, c, recs[1..]);
      assert recs == [recs[0]] + recs[1..];
    }
  }

  ghost predicate Unparsable(ps: seq<Parsed>) {
    exists p :: p in ps && p.Err?
  }

  ghost predicate ClientFaults(env: Env, cs: Clients, ps: seq<Parsed>, id: Id) {
    RunClient(env, At(cs, id), Own(ps, id)).fault.Some?
  }

  /** The whole stream faults exactly when a line is no record or some id's own records fault when
      they are run alone. */
  lemma {:induction false} FaultIff(env: Env, cs: Clients, ps: seq<Parsed>)
    ensures RunAll(env, cs, ps).fault.Some? <==>
            Unparsable(ps) || exists id :: ClientFaults(env, cs, ps, id)
  {
    if ps == [] {
    } else {
      var s := StepAll(env, cs, ps[0]);
      assert ps == [ps[0]] + ps[1..];
      if s.fault.Some? {
        if ps[0].Ok? {
          var id := ps[0].value.id;
          assert Own(ps, id)[0] == ps[0].value;
          assert ClientFaults(env, cs, ps, id);
        }
      } else {
        var rest := ps[1..];
        FaultIff(env, s.clients, rest);
        forall id
          ensures ClientFaults(env, cs, ps, id) <==> ClientFaults(env, s.clients, rest, id)
        {
          FaultStep(env, cs, ps, id);
        }
      }
    }
  }

  lemma FaultStep(env: Env, cs: Clients, ps: seq<Parsed>, id: Id)
    requires ps != [] && StepAll(env, cs, ps[0]).fault.None?
    ensures ClientFaults(env, cs, ps, id) <==>
            ClientFaults(env, StepAll(env, cs, ps[0]).clients, ps[1..], id)
  {
    var rec := ps[0].value;
    if rec.id == id {
      assert Own(ps, id) == [rec] + Own(ps[1..], id);
      assert Own(ps, id)[1..] == Own(ps[1..], id);
      assert ClientStep(env, At(cs, id), rec).fault.None?;
    } else {
      assert Own(ps, id) == Own(ps[1..], id);
    }
  }

  /** In a stream without faults every client sees the run of its own records and nothing else. */
  lemma {:induction false} NonInterference(env: Env, cs: Clients, ps: seq<Parsed>, id: Id)
    requires RunAll(env, cs, ps).fault.None? && id in cs
    ensures RunAll(env, cs, ps).clients[id] == RunClient(env, cs[id], Own(ps, id)).client
  {
    Projection(env, cs, ps, id);
    assert ps[..|ps|] == ps;
  }

  /** Two interleavings of the same per-id sequences cannot be told apart by any client. */
  lemma {:induction false} InterleavingsAgree(env: Env, cs: Clients, ps: seq<Parsed>, qs: seq<Parsed>)
    requires !Unparsable(ps) && !Unparsable(qs)
    requires forall id :: Own(ps, id) == Own(qs, id)
    requires RunAll(env, cs, ps).fault.None?
    ensures RunAll(env, cs, qs).fault.None?
    ensures RunAll(env, cs, qs).clients == RunAll(env, cs, ps).clients
  {
    FaultIff(env, cs, ps);
    FaultIff(env, cs, qs);
    forall id ensures ClientFaults(env, cs, qs, id) <==> ClientFaults(env, cs, ps, id) {
      assert Own(ps, id) == Own(qs, id);
    }
    forall id | id in cs
      ensures RunAll(env, cs, qs).clients[id] == RunAll(env, cs, ps).clients[id]
    {
      NonInterference(env, cs, ps, id);
      NonInterference(env, cs, qs, id);
    }
  }

  /** `d` can come after `c`: a sent head is never changed, body chunks are only ever appended, and
      nothing happens to a client after its answer, its close or its loss. */
  predicate Follows(c: Client, d: Client) {
    match c
    case Waiting => true
    case Streaming(h, b) => (d.Streaming? || d.Closed? || d.HungUp?) && d.head == h && b <= d.body
    case _ => d == c
  }

  lemma {:induction false} LifecycleOrder(env: Env, c: Client, recs: seq<Record>)
    ensures Follows(c, RunClient(env, c, recs).client)
    decreases recs
  {
    if recs == [] {
    } else {
      var s := ClientStep(env, c, recs[0]);
      assert Follows(c, s.client);
      if s.fault.None? {
        hide ClientStep;
        LifecycleOrder(env, s.client, recs[1..]);
      }
    }
  }

  // ---------------------------------------------------------------------------------------------
  // Every exit path resolves every client
  // ---------------------------------------------------------------------------------------------

  /** A client is only ever dropped unanswered by its own faulting head or whole-response record. */
  lemma DroppedByOwnFault(env: Env, c: Client, rec: Record)
    requires c != Dropped
    ensures ClientStep(env, c, rec).client == Dropped <==>
            rec.v == 1 && c == Waiting && (rec.Legacy? || rec.Head?) && ClientStep(env, c, rec).fault.Some?
  {
  }

  predicate NoneDropped(cs: Clients) {
    forall id | id in cs :: cs[id] != Dropped
  }

  lemma {:induction false} AtMostOneDropped(env: Env, cs: Clients, ps: seq<Parsed>)
    requires NoneDropped(cs)
    ensures var r := RunAll(env, cs, ps);
            forall id | id in cs && r.clients[id] == Dropped ::
              && r.fault.Some? && ps[r.used - 1].Ok?
              && ps[r.used - 1].value.id == id
              && (ps[r.used - 1].value.Legacy? || ps[r.used - 1].value.Head?)
              && ClientStep(env, Waiting, ps[r.used - 1].value).fault == r.fault
    ensures RunAll(env, cs, ps).fault.None? ==> NoneDropped(RunAll(env, cs, ps).clients)
  {
    if ps == [] {
    } else {
      var s := StepAll(env, cs, ps[0]);
      if ps[0].Ok? && ps[0].value.id in cs {
        DroppedByOwnFault(env, cs[ps[0].value.id], ps[0].value);
      }
      if s.fault.None? {
        AtMostOneDropped(env, s.clients, ps[1..]);
      }
    }
  }

  // ---------------------------------------------------------------------------------------------
  // The code
  // ---------------------------------------------------------------------------------------------

  datatype StreamInit = InitResponse(response: Response) | InitStream(head: StreamHead)
  datatype InitSlot = Unsent | Sent(init: StreamInit) | Abandoned

  /** The two channels to one client: the one-shot `init` slot and the body chunks. */
  datatype Channel = Channel(init: InitSlot, chunks: seq<Bytes>, closed: bool, refused: bool) {
    predicate Valid() {
      && (chunks != [] ==> init.Sent? && init.init.InitStream?)
      && (!closed ==> !refused && (init.Unsent? || (init.Sent? && init.init.InitStream?)))
      && (closed && !refused ==> !init.Unsent?)
    }

    /** What the client at the other end has seen. */
    function View(): Client {
      if refused then
        (match init case Sent(InitStream(h)) => HungUp(h, chunks) case _ => Gone)
      else match init
        case Unsent => Waiting
        case Abandoned => Dropped
        case Sent(InitResponse(r)) => Answered(r)
        case Sent(InitStream(h)) => if closed then Closed(h, chunks) else Streaming(h, chunks)
    }
  }

  function Views(wire: map<Id, Channel>): Clients {
    map id | id in wire :: wire[id].View()
  }

  lemma ViewsUpdate(wire: map<Id, Channel>, id: Id, channel: Channel)
    ensures Views(wire[id := channel]) == Views(wire)[id := channel.View()]
  {
  }

  const FRESH_CHANNEL := Channel(Unsent, [], false, false)

  /** `dispatch_stream_record` and its helpers over the map of pending senders. */
  class Dispatcher {
    const env: Env
    /** Ids whose senders are still held; the flag says that the `init` sender is still there. */
    var pending: map<Id, bool>
    var wire: map<Id, Channel>

    /** The batch size in the metadata is the number of pending senders. */
    constructor (lib: Lib, waitMs: nat, alive: (Id, nat) -> bool, ids: set<Id>)
      ensures Valid() && env == Env(lib, Meta(|ids|, waitMs), alive) && Clients() == Fresh(ids)
    {
      env := Env(lib, Meta(|ids|, waitMs), alive);
      pending := map id | id in ids :: true;
      wire := map id | id in ids :: FRESH_CHANNEL;
    }

    ghost predicate Valid()
      reads this
    {
      && (forall id | id in wire :: wire[id].Valid())
      && (forall id :: id in pending <==> id in wire && !wire[id].closed)
      && (forall id | id in pending :: pending[id] <==> wire[id].init.Unsent?)
    }

    ghost function Clients(): Clients
      reads this
    {
      Views(wire)
    }

    /** A taken `init` sender is used up whether or not the head is accepted. */
    method SendStreamHead(id: Id, init: bool, status: nat, headers: map<string, string>, cookies: seq<string>)
      returns (keep: Result<bool, Fault>)
      requires id in wire && !wire[id].closed && wire[id].Valid()
      requires init <==> wire[id].init.Unsent?
      modifies this`wire
      ensures id in wire && wire == old(wire)[id := wire[id]] && wire[id].Valid()
      ensures !init ==> keep == Ok(true) && wire == old(wire)
      ensures init ==> match HeadParts(env.lib, status, headers, cookies)
                       case Err(e) => keep == Err(BadHead(e)) && wire[id].View() == Dropped && wire[id].closed
                       case Ok(h) => keep == Ok(env.alive(id, 0))
                                     && wire[id].View() == OpenWith(env, id, StreamHead(status, h, env.meta))
                                     && wire[id].closed == !env.alive(id, 0)
      ensures init && HeadPasses(env.lib, status, headers, cookies) && env.alive(id, 0) ==>
                wire[id].View()
                == Streaming(StreamHead(status, HeaderFields(env.lib, headers, cookies), env.meta), [])
      ensures init && !HeadPasses(env.lib, status, headers, cookies) ==> wire[id].View() == Dropped && keep.Err?
    {
      HeadIff(env.lib, status, headers, cookies);
      hide HeadPasses, HeaderFields, HeadParts;
      keep := Ok(true);
      if init {
        match HeadParts(env.lib, status, headers, cookies) {
          case Err(e) =>
            wire := wire[id := wire[id].(init := Abandoned, closed := true)];
            return Err(BadHead(e));
          case Ok(h) =>
            if env.alive(id, 0) {
              wire := wire[id := wire[id].(init := Sent(InitStream(StreamHead(status, h, env.meta))))];
            } else {
              wire := wire[id := wire[id].(init := Abandoned, closed := true, refused := true)];
              return Ok(false);
            }
        }
      }
    }

    /** Dropping an entry drops both of its senders. */
    method DropEntry(id: Id)
      requires id in wire && wire[id].Valid()
      modifies this`wire
      ensures id in wire && wire == old(wire)[id := wire[id]] && wire[id].Valid()
      ensures wire[id].closed && wire[id].View() == Hangup(old(wire[id].View()))
    {
      var slot := wire[id].init;
      if slot == Unsent && !wire[id].refused {
        slot := Abandoned;
      }
      wire := wire[id := wire[id].(init := slot, closed := true)];
    }

    method DispatchStreamRecord(rec: Record) returns (fault: Option<Fault>)
      requires Valid()
      modifies this
      ensures Valid()
      ensures var s := StepAll(env, old(Clients()), Ok(rec));
              Clients() == s.clients && fault == s.fault
    {
      hide ClientStep;
      if rec.v != 1 || rec.id !in pending {
        StepIdle(env, Clients(), rec);
      }
      if rec.v != 1 {
        return Some(UnsupportedVersion(rec.v));
      }
      if rec.id !in pending {
        return None;
      }
      var id, init := rec.id, pending[rec.id];
      pending := pending - {id};
      fault := DispatchTo(id, init, rec);
      ViewsUpdate(old(wire), id, wire[id]);
    }

    /** The entry of `id` has been taken out of the map; a surviving one is put back. */
    method DispatchTo(id: Id, init: bool, rec: Record) returns (fault: Option<Fault>)
      requires id in wire && !wire[id].closed && wire[id].Valid() && id !in pending
      requires init <==> wire[id].init.Unsent?
      requires rec.v == 1 && rec.id == id
      modifies this
      ensures id in wire && wire == old(wire)[id := wire[id]] && wire[id].Valid()
      ensures pending == if wire[id].closed then old(pending) else old(pending)[id := false]
      ensures !wire[id].closed ==> wire[id].init.Sent?
      ensures Stepped(wire[id].View(), fault) == ClientStep(env, old(wire[id].View()), rec)
    {
      fault := None;
      match rec {
        case Legacy(_, _, status, headers, cookies, body, isBase64) =>
          match ResponseParts(env.lib, status, headers, cookies, body, isBase64) {
            case Err(e) =>
              DropEntry(id);
              fault := Some(BadResponse(e));
            case Ok(resp) =>
              AnswerIfUnsent(id, init, resp.(meta := Some(env.meta)));
          }
        case Head(_, _, status, headers, cookies) =>
          var keep := SendStreamHead(id, init, status.GetOr(200), headers, cookies);
          match keep {
            case Err(f) => fault := Some(f);
            case Ok(true) => pending := pending[id := false];
            case Ok(false) =>
          }
        case Chunk(_, _, body, isBase64) =>
          fault := SendChunk(id, init, body.GetOr(""), isBase64);
        case End(_, _) =>
          var keep := SendStreamHead(id, init, 200, map[], []);
          DropEntry(id);
        case Error(_, _, status, message) =>
          AnswerIfUnsent(id, init, ErrorAnswer(env, status, message));
      }
    }

    method AnswerIfUnsent(id: Id, init: bool, response: Response)
      requires id in wire && wire[id].Valid() && !wire[id].closed
      requires init <==> wire[id].init.Unsent?
      modifies this`wire
      ensures id in wire && wire == old(wire)[id := wire[id]] && wire[id].Valid() && wire[id].closed
      ensures wire[id].View() == if init then Answered(response) else Hangup(old(wire[id].View()))
    {
      if init {
        wire := wire[id := wire[id].(init := Sent(InitResponse(response)))];
      }
      wire := wire[id := wire[id].(closed := true)];
    }

    method SendChunk(id: Id, init: bool, body: string, isBase64: bool) returns (fault: Option<Fault>)
      requires id in wire && !wire[id].closed && wire[id].Valid() && id !in pending
      requires init <==> wire[id].init.Unsent?
      modifies this
      ensures id in wire && wire == old(wire)[id := wire[id]] && wire[id].Valid()
      ensures pending == if wire[id].closed then old(pending) else old(pending)[id := false]
      ensures !wire[id].closed ==> wire[id].init.Sent?
      ensures ClientStep(env, old(wire[id].View()), Chunk(1, id, Some(body), isBase64))
              == Stepped(wire[id].View(), fault)
    {
      var keep := SendStreamHead(id, init, 200, map[], []);
      if keep == Ok(false) {
        return None;
      }
      ghost var started := wire[id].View();
      assert started == EnsureOpen(env, id, old(wire[id].View())) && started.Streaming?;
      hide ClientStep, HeadParts;
      fault := SendBody(id, body, isBase64);
      ChunkAfterHead(env, id, old(wire[id].View()), body, isBase64);
    }

    method SendBody(id: Id, body: string, isBase64: bool) returns (fault: Option<Fault>)
      requires id in wire && wire[id].Valid() && wire[id].View().Streaming? && id !in pending
      modifies this
      ensures id in wire && wire == old(wire)[id := wire[id]] && wire[id].Valid()
      ensures pending == if wire[id].closed then old(pending) else old(pending)[id := false]
      ensures !wire[id].closed ==> wire[id].init.Sent?
      ensures Stepped(wire[id].View(), fault) == BodyStep(env, id, old(wire[id].View()), body, isBase64)
    {
      fault := None;
      match DecodeBody(env.lib, body, isBase64) {
        case None =>
          DropEntry(id);
          fault := Some(BadChunkBody);
        case Some(bytes) =>
          if env.alive(id, 1 + |wire[id].chunks|) {
            wire := wire[id := wire[id].(chunks := wire[id].chunks + [bytes])];
            pending := pending[id := false];
          } else {
            wire := wire[id := wire[id].(closed := true, refused := true)];
          }
      }
    }

    method FailEntry(id: Id, message: Message)
      requires Valid() && id in pending
      modifies this
      ensures Valid() && pending == old(pending) - {id}
      ensures id in old(Clients()) && Clients() == old(Clients())[id := FailClient(env, message, old(Clients())[id])]
    {
      var init := pending[id];
      pending := pending - {id};
      AnswerIfUnsent(id, init, TextResponse(BAD_GATEWAY, message, env.meta));
      ViewsUpdate(old(wire), id, wire[id]);
    }

    /** `fail_all_stream`: drain the map, answering the untouched and closing the started. */
    method FailAllStream(message: Message)
      requires Valid()
      modifies this
      ensures Valid() && pending == map[]
      ensures Clients() == FailAll(env, message, old(Clients()))
    {
      ghost var before := Clients();
      while pending != map[]
        invariant Valid()
        invariant FailAll(env, message, Clients()) == FailAll(env, message, before)
        decreases |pending|
      {
        var id :| id in pending;
        assert pending.Keys == (pending - {id}).Keys + {id};
        FailOne(env, message, Clients(), id);
        FailEntry(id, message);
      }
      NothingLeft(env, message, wire);
    }
  }

  lemma NothingLeft(env: Env, message: Message, wire: map<Id, Channel>)
    requires forall id | id in wire :: wire[id].Valid() && wire[id].closed
    ensures FailAll(env, message, Views(wire)) == Views(wire)
  {
    assert forall id | id in wire :: !wire[id].View().Live();
  }
}
