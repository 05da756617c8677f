/** The Rust batch adapter: the records it writes for one item, and what they make the gateway show
    that item's client. */
module Adapter {
  import opened Wire
  import opened Promise
  import opened Demux

  datatype ResponseChunk = TextChunk(text: string) | BinaryChunk(bytes: Bytes)

  datatype ResponseBody =
    | EmptyBody
    | TextBody(text: string)
    | BinaryBody(bytes: Bytes)
    | StreamBody(chunks: seq<ResponseChunk>)

  datatype HandlerResponse = HandlerResponse(
    status: nat, headers: map<string, string>, cookies: seq<string>, body: ResponseBody, isBase64: bool)

  /** What the user's handler made of one item. */
  datatype Handled = Returned(response: HandlerResponse) | Failed

  function NormalizeHeaders(lib: Lib, headers: map<string, string>): map<string, string> {
    map k | k in headers && lib.trim(k) != "" :: headers[k]
  }

  function NormalizeCookies(lib: Lib, cookies: seq<string>): seq<string> {
    if cookies == [] then []
    else
      var c := lib.trim(cookies[0]);
      (if c == "" then [] else [c]) + NormalizeCookies(lib, cookies[1..])
  }

  function StatusOf(status: nat): nat {
    if status == 0 then 200 else status
  }

  function Chunks(body: ResponseBody): seq<ResponseChunk> {
    match body
    case EmptyBody => []
    case TextBody(s) => [TextChunk(s)]
    case BinaryBody(b) => [BinaryChunk(b)]
    case StreamBody(cs) => cs
  }

  function ChunkRecord(lib: Lib, id: Id, isBase64: bool, chunk: ResponseChunk): Record {
    match chunk
    case TextChunk(s) => Chunk(1, id, Some(s), isBase64)
    case BinaryChunk(b) => Chunk(1, id, Some(lib.encode64(b)), true)
  }

  function ChunkRecords(lib: Lib, id: Id, isBase64: bool, chunks: seq<ResponseChunk>): seq<Record> {
    if chunks == [] then []
    else [ChunkRecord(lib, id, isBase64, chunks[0])] + ChunkRecords(lib, id, isBase64, chunks[1..])
  }

  /** The interleaved records of one item, in the order its stream yields them. */
  function StreamRecords(lib: Lib, id: Id, handled: Handled): seq<Record> {
    match handled
    case Failed => [Error(1, id, Some(500), Some("internal error"))]
    case Returned(r) =>
      [Head(1, id, Some(StatusOf(r.status)), NormalizeHeaders(lib, r.headers), NormalizeCookies(lib, r.cookies))]
      + ChunkRecords(lib, id, r.isBase64, Chunks(r.body))
      + [End(1, id)]
  }

  /** The single record of one item when the adapter does not interleave. */
  function WholeRecord(lib: Lib, id: Id, handled: Handled): Record {
    if handled.Failed? || handled.response.body.StreamBody? then
      Legacy(1, id, 500, map["content-type" := "text/plain"], [], "internal error", false)
    else
      var r := handled.response;
      var (body, isBase64) :=
        match r.body
        case EmptyBody => ("", r.isBase64)
        case TextBody(s) => (s, r.isBase64)
        case BinaryBody(b) => (lib.encode64(b), true)
        case StreamBody(_) => ("", false);
      Legacy(1, id, StatusOf(r.status), NormalizeHeaders(lib, r.headers), NormalizeCookies(lib, r.cookies),
             body, isBase64)
  }

  // ---------------------------------------------------------------------------------------------
  // What the client should see, said in terms of the handler's own answer
  // ---------------------------------------------------------------------------------------------

  /** The bytes a chunk stands for, if its text decodes. */
  function ChunkBytes(lib: Lib, isBase64: bool, chunk: ResponseChunk): Option<Bytes> {
    match chunk
    case TextChunk(s) => TextBytes(lib, s, isBase64)
    case BinaryChunk(b) => Some(b)
  }

  predicate Decodable(lib: Lib, isBase64: bool, chunks: seq<ResponseChunk>) {
    forall c | c in chunks :: ChunkBytes(lib, isBase64, c).Some?
  }

  function BodyBytes(lib: Lib, isBase64: bool, chunks: seq<ResponseChunk>): seq<Bytes>
    requires Decodable(lib, isBase64, chunks)
  {
    seq(|chunks|, i requires 0 <= i < |chunks| => ChunkBytes(lib, isBase64, chunks[i]).value)
  }

  /** What the body should arrive as: nothing, one piece, or one for each element of the stream. */
  function Pieces(lib: Lib, r: HandlerResponse): seq<Option<Bytes>> {
    match r.body
    case EmptyBody => []
    case TextBody(s) => [TextBytes(lib, s, r.isBase64)]
    case BinaryBody(b) => [Some(b)]
    case StreamBody(cs) => seq(|cs|, i requires 0 <= i < |cs| => ChunkBytes(lib, r.isBase64, cs[i]))
  }

  /** The header fields with a name. */
  function Named(lib: Lib, headers: map<string, string>): map<string, string> {
    headers - (set k | k in headers && lib.trim(k) == "")
  }

  /** Status, named headers and cookies can be passed on. */
  predicate HeadOk(lib: Lib, r: HandlerResponse) {
    HeadPasses(lib, if r.status == 0 then 200 else r.status, Named(lib, r.headers), Trimmed(lib, r.cookies))
  }

  /** The handler's own status, 200 if it set none, its own headers and cookies. */
  function HeadOf(lib: Lib, r: HandlerResponse, meta: Meta): StreamHead
    requires HeadOk(lib, r)
  {
    StreamHead(if r.status == 0 then 200 else r.status,
               HeaderFields(lib, Named(lib, r.headers), Trimmed(lib, r.cookies)), meta)
  }

  /** An answer the gateway can pass on. */
  predicate Deliverable(lib: Lib, handled: Handled) {
    handled.Returned? ==>
      HeadOk(lib, handled.response) && forall piece | piece in Pieces(lib, handled.response) :: piece.Some?
  }

  /** The handler's status and headers with its body, or the fixed error answer. */
  function Served(env: Env, handled: Handled): Client
    requires Deliverable(env.lib, handled)
  {
    match handled
    case Failed => Answered(Response(500, [], Text(Reported("internal error")), Some(env.meta)))
    case Returned(r) =>
      var pieces := Pieces(env.lib, r);
      Closed(HeadOf(env.lib, r, env.meta), seq(|pieces|, i requires 0 <= i < |pieces| => pieces[i].value))
  }

  /** The whole of the answer, or the part of it that was sent before the client was found gone. */
  predicate ServedUntilGone(env: Env, handled: Handled, c: Client)
    requires Deliverable(env.lib, handled)
  {
    var all := Served(env, handled);
    || c == all || c == Gone
    || (c.HungUp? && all.Closed? && c.head == all.head && c.body <= all.body)
  }

  /** Base64 decoding undoes base64 encoding. */
  ghost predicate Base64Law(lib: Lib) {
    forall b {:trigger lib.encode64(b)} :: lib.base64(lib.encode64(b)) == Some(b)
  }

  ghost predicate Listening(env: Env, id: Id) {
    forall n: nat {:trigger env.alive(id, n)} :: env.alive(id, n)
  }

  // ---------------------------------------------------------------------------------------------
  // One item's records make the gateway serve that item
  // ---------------------------------------------------------------------------------------------

  lemma ChunkStep(env: Env, id: Id, isBase64: bool, chunk: ResponseChunk, head: StreamHead, done: seq<Bytes>)
    requires Base64Law(env.lib)
    ensures ClientStep(env, Streaming(head, done), ChunkRecord(env.lib, id, isBase64, chunk)) ==
            match ChunkBytes(env.lib, isBase64, chunk)
            case None => Stepped(Closed(head, done), Some(BadChunkBody))
            case Some(bytes) => Stepped(PushChunk(env, id, Streaming(head, done), bytes), None)
    ensures Listening(env, id) ==> env.alive(id, 1 + |done|)
  {
  }

  lemma BodyBytesFirst(lib: Lib, isBase64: bool, chunks: seq<ResponseChunk>)
    requires chunks != [] && Decodable(lib, isBase64, chunks)
    ensures Decodable(lib, isBase64, chunks[1..])
    ensures BodyBytes(lib, isBase64, chunks) ==
            [ChunkBytes(lib, isBase64, chunks[0]).value] + BodyBytes(lib, isBase64, chunks[1..])
  {
  }

  /** The chunks and the end of one item. A client that hangs up part-way makes no fault. */
  lemma {:induction false} ChunksRun(env: Env, id: Id, isBase64: bool, chunks: seq<ResponseChunk>,
                                     head: StreamHead, done: seq<Bytes>)
    requires Base64Law(env.lib)
    ensures var r := RunClient(env, Streaming(head, done), ChunkRecords(env.lib, id, isBase64, chunks) + [End(1, id)]);
            && (Decodable(env.lib, isBase64, chunks) ==>
                  && r.fault.None? && (r.client.HungUp? || r.client.Closed?)
                  && r.client.head == head && r.client.body <= done + BodyBytes(env.lib, isBase64, chunks)
                  && (r.client.HungUp? || r.client == Closed(head, done + BodyBytes(env.lib, isBase64, chunks)))
                  && (Listening(env, id) ==> r.client.Closed?))
            && (Listening(env, id) && !Decodable(env.lib, isBase64, chunks) ==> r.fault.Some?)
    decreases |chunks|
  {
    var recs := ChunkRecords(env.lib, id, isBase64, chunks) + [End(1, id)];
    if chunks == [] {
      assert recs == [End(1, id)] && recs[1..] == [];
      assert done + BodyBytes(env.lib, isBase64, chunks) == done;
    } else {
      var rest := ChunkRecords(env.lib, id, isBase64, chunks[1..]) + [End(1, id)];
      assert recs[0] == ChunkRecord(env.lib, id, isBase64, chunks[0]) && recs[1..] == rest;
      assert chunks == [chunks[0]] + chunks[1..];
      ChunkRecordsId(env.lib, id, isBase64, chunks[1..]);
      hide ClientStep, ChunkBytes, ChunkRecords, BodyBytes;
      ChunkStep(env, id, isBase64, chunks[0], head, done);
      var bytes := ChunkBytes(env.lib, isBase64, chunks[0]);
      if bytes.Some? {
        if env.alive(id, 1 + |done|) {
          ChunksRun(env, id, isBase64, chunks[1..], head, done + [bytes.value]);
        } else {
          DeadClient(env, HungUp(head, done), rest);
        }
        if Decodable(env.lib, isBase64, chunks) {
          BodyBytesFirst(env.lib, isBase64, chunks);
          assert done + [bytes.value] + BodyBytes(env.lib, isBase64, chunks[1..])
              == done + BodyBytes(env.lib, isBase64, chunks);
        }
      }
    }
  }

  lemma {:induction false} CookiesNormalized(lib: Lib, cookies: seq<string>)
    ensures NormalizeCookies(lib, cookies) == Trimmed(lib, cookies)
  {
    if cookies == [] {
    } else {
      TrimmedFirst(lib, cookies);
      CookiesNormalized(lib, cookies[1..]);
    }
  }

  lemma HeadersNormalized(lib: Lib, headers: map<string, string>)
    ensures NormalizeHeaders(lib, headers) == Named(lib, headers)
  {
  }

  /** What the adapter writes as the head is the handler's own. */
  lemma HeadWritten(lib: Lib, r: HandlerResponse, meta: Meta)
    ensures var parts := HeadParts(lib, StatusOf(r.status), NormalizeHeaders(lib, r.headers),
                                   NormalizeCookies(lib, r.cookies));
            if HeadOk(lib, r) then parts == Ok(HeadOf(lib, r, meta).headers) else parts.Err?
    ensures HeadOk(lib, r) ==> StatusOf(r.status) == HeadOf(lib, r, meta).status
  {
    CookiesNormalized(lib, r.cookies);
    HeadersNormalized(lib, r.headers);
    HeadIff(lib, StatusOf(r.status), NormalizeHeaders(lib, r.headers), NormalizeCookies(lib, r.cookies));
    hide HeadParts, HeadPasses, HeaderFields;
  }

  /** Its chunks are the pieces of the body. */
  lemma ChunksArePieces(lib: Lib, r: HandlerResponse)
    ensures |Chunks(r.body)| == |Pieces(lib, r)|
    ensures forall i | 0 <= i < |Chunks(r.body)| :: ChunkBytes(lib, r.isBase64, Chunks(r.body)[i]) == Pieces(lib, r)[i]
  {
  }

  lemma HeadStep(env: Env, id: Id, r: HandlerResponse)
    requires HeadOk(env.lib, r)
    ensures ClientStep(env, Waiting, Head(1, id, Some(StatusOf(r.status)), NormalizeHeaders(env.lib, r.headers),
                                          NormalizeCookies(env.lib, r.cookies))) ==
            Stepped(OpenWith(env, id, HeadOf(env.lib, r, env.meta)), None)
  {
    HeadWritten(env.lib, r, env.meta);
    hide HeadParts, HeadOk, StatusOf, NormalizeHeaders, NormalizeCookies;
  }

  lemma HeadRefused(env: Env, id: Id, r: HandlerResponse)
    requires !HeadOk(env.lib, r)
    ensures var s := ClientStep(env, Waiting, Head(1, id, Some(StatusOf(r.status)),
                                                   NormalizeHeaders(env.lib, r.headers),
                                                   NormalizeCookies(env.lib, r.cookies)));
            s.fault.Some? && s.client == Dropped
  {
    HeadWritten(env.lib, r, env.meta);
    hide HeadParts, HeadOk, StatusOf, NormalizeHeaders, NormalizeCookies;
  }

  lemma PiecesDecode(env: Env, r: HandlerResponse)
    ensures (forall piece | piece in Pieces(env.lib, r) :: piece.Some?)
            <==> Decodable(env.lib, r.isBase64, Chunks(r.body))
    ensures Deliverable(env.lib, Returned(r)) ==>
              Served(env, Returned(r))
              == Closed(HeadOf(env.lib, r, env.meta), BodyBytes(env.lib, r.isBase64, Chunks(r.body)))
  {
    ChunksArePieces(env.lib, r);
    hide Pieces, Chunks, ChunkBytes, HeadOk, HeadOf;
    var pieces, chunks := Pieces(env.lib, r), Chunks(r.body);
    if Decodable(env.lib, r.isBase64, chunks) {
      forall piece | piece in pieces ensures piece.Some? {
        var i :| 0 <= i < |pieces| && pieces[i] == piece;
        assert chunks[i] in chunks;
      }
    } else {
      var c :| c in chunks && ChunkBytes(env.lib, r.isBase64, c).None?;
      var i :| 0 <= i < |chunks| && chunks[i] == c;
      assert pieces[i] in pieces;
    }
  }

  /** Run alone, an item's records serve its client exactly when the handler's answer can be passed on. */
  lemma ItemRun(env: Env, id: Id, handled: Handled)
    requires Base64Law(env.lib)
    ensures var r := RunClient(env, Waiting, StreamRecords(env.lib, id, handled));
            && (Deliverable(env.lib, handled) ==>
                  && r.fault.None?
                  && ServedUntilGone(env, handled, r.client)
                  && (Listening(env, id) ==> r.client == Served(env, handled)))
            && (Listening(env, id) && !Deliverable(env.lib, handled) ==> r.fault.Some?)
  {
    var recs := StreamRecords(env.lib, id, handled);
    match handled
    case Failed =>
      assert recs[1..] == [];
    case Returned(r) =>
      var rest := ChunkRecords(env.lib, id, r.isBase64, Chunks(r.body)) + [End(1, id)];
      assert recs[1..] == rest;
      assert Listening(env, id) ==> env.alive(id, 0);
      ChunkRecordsId(env.lib, id, r.isBase64, Chunks(r.body));
      PiecesDecode(env, r);
      if HeadOk(env.lib, r) {
        HeadStep(env, id, r);
        hide ClientStep, HeadOk, HeadOf, ChunkRecords, Pieces, Served;
        if Deliverable(env.lib, handled) {
          assert [] + BodyBytes(env.lib, r.isBase64, Chunks(r.body)) == BodyBytes(env.lib, r.isBase64, Chunks(r.body));
        }
        if env.alive(id, 0) {
          ChunksRun(env, id, r.isBase64, Chunks(r.body), HeadOf(env.lib, r, env.meta), []);
        } else {
          DeadClient(env, Gone, rest);
        }
      } else {
        HeadRefused(env, id, r);
        hide ClientStep, HeadOk, Pieces;
      }
  }

  lemma {:induction false} ChunkRecordsId(lib: Lib, id: Id, isBase64: bool, chunks: seq<ResponseChunk>)
    ensures forall rec | rec in ChunkRecords(lib, id, isBase64, chunks) :: rec.id == id && rec.v == 1
  {
    if chunks == [] {
    } else {
      ChunkRecordsId(lib, id, isBase64, chunks[1..]);
    }
  }

  lemma StreamRecordsId(lib: Lib, id: Id, handled: Handled)
    ensures forall rec | rec in StreamRecords(lib, id, handled) :: rec.id == id
  {
    if handled.Returned? {
      ChunkRecordsId(lib, id, handled.response.isBase64, Chunks(handled.response.body));
    }
  }
}
