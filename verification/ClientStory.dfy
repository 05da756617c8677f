/** What any list of records comes to for the client it is addressed to, told without the automaton: how its
    response is opened, which chunks make its body, and what ends it. */
module ClientStory {
  import opened Wire
  import opened Promise
  import opened Demux

  /** Every record is of this version and for this client. */
  predicate For(id: Id, recs: seq<Record>) {
    forall rec | rec in recs :: rec.v == 1 && rec.id == id
  }

  /** The bytes of a chunk record, if its text decodes; a missing text is empty. */
  function ChunkText(lib: Lib, rec: Record): Option<Bytes>
    requires rec.Chunk?
  {
    TextBytes(lib, if rec.chunkBody.Some? then rec.chunkBody.value else "", rec.isBase64)
  }

  /** The record ends an open response. */
  predicate Closes(lib: Lib, rec: Record) {
    rec.End? || rec.Error? || rec.Legacy? || (rec.Chunk? && ChunkText(lib, rec).None?)
  }

  /** The bytes of the chunks among the records, in order; heads do not count. */
  function BodyOf(lib: Lib, recs: seq<Record>): seq<Bytes>
    requires forall rec | rec in recs :: !Closes(lib, rec)
  {
    if recs == [] then []
    else
      var n := |recs| - 1;
      assert !Closes(lib, recs[n]) && forall rec | rec in recs[..n] :: rec in recs;
      BodyOf(lib, recs[..n]) + (if recs[n].Chunk? then [ChunkText(lib, recs[n]).value] else [])
  }

  /** The response that a whole record makes, if it can be passed on. */
  function WholeOf(env: Env, rec: Record): Option<Response>
    requires rec.Legacy?
  {
    Promised(env.lib, env.meta, rec.status, rec.headers, rec.cookies, TextBytes(env.lib, rec.body, rec.isBase64))
  }

  /** Whether the record that ends an open response ends the whole stream too: an undecodable chunk, or a
      whole record that could not be passed on either. */
  predicate Spoils(env: Env, rec: Record) {
    rec.Chunk? || (rec.Legacy? && WholeOf(env, rec).None?)
  }

  lemma {:induction false} BodyFirst(lib: Lib, recs: seq<Record>)
    requires recs != [] && forall rec | rec in recs :: !Closes(lib, rec)
    ensures !Closes(lib, recs[0]) && forall rec | rec in recs[1..] :: !Closes(lib, rec)
    ensures BodyOf(lib, recs) ==
            (if recs[0].Chunk? then [ChunkText(lib, recs[0]).value] else []) + BodyOf(lib, recs[1..])
  {
    var n := |recs| - 1;
    assert forall rec | rec in recs[1..] :: rec in recs;
    if n == 0 {
      assert recs[..0] == [] && recs[1..] == [];
    } else {
      assert forall rec | rec in recs[..n] :: rec in recs;
      BodyFirst(lib, recs[..n]);
      assert recs[..n][1..] == recs[1..][..n - 1] && recs[1..][n - 1] == recs[n];
    }
  }

  lemma ChunkPushed(env: Env, rec: Record, head: StreamHead, done: seq<Bytes>)
    requires rec.v == 1 && rec.Chunk? && !Closes(env.lib, rec) && env.alive(rec.id, 1 + |done|)
    ensures ClientStep(env, Streaming(head, done), rec) ==
            Stepped(Streaming(head, done + [ChunkText(env.lib, rec).value]), None)
  {
  }

  lemma ChunkLost(env: Env, rec: Record, head: StreamHead, done: seq<Bytes>)
    requires rec.v == 1 && rec.Chunk? && !Closes(env.lib, rec) && !env.alive(rec.id, 1 + |done|)
    ensures ClientStep(env, Streaming(head, done), rec) == Stepped(HungUp(head, done), None)
  {
  }

  lemma HeadIgnored(env: Env, rec: Record, head: StreamHead, done: seq<Bytes>)
    requires rec.v == 1 && rec.Head?
    ensures ClientStep(env, Streaming(head, done), rec) == Stepped(Streaming(head, done), None)
  {
  }

  lemma ClosedBy(env: Env, rec: Record, head: StreamHead, body: seq<Bytes>)
    requires rec.v == 1 && Closes(env.lib, rec)
    ensures var s := ClientStep(env, Streaming(head, body), rec);
            s.client == Closed(head, body) && (s.fault.Some? <==> Spoils(env, rec))
  {
    if rec.Legacy? {
      ResponseIff(env.lib, env.meta, rec.status, rec.headers, rec.cookies, rec.body, rec.isBase64);
      hide ResponseParts, Promised;
    }
  }

  /** The client is there for the first `n` chunks that come after those it has. */
  predicate Stays(env: Env, id: Id, has: nat, n: nat) {
    forall j | has < j <= has + n :: env.alive(id, j)
  }

  lemma StaysMore(env: Env, id: Id, has: nat, n: nat)
    requires Stays(env, id, has, n) && n > 0
    ensures env.alive(id, 1 + has) && Stays(env, id, has + 1, n - 1)
  {
  }

  /** An open response collects its chunks ... */
  lemma {:induction false} Collects(env: Env, id: Id, recs: seq<Record>, head: StreamHead, done: seq<Bytes>)
    requires For(id, recs) && forall rec | rec in recs :: !Closes(env.lib, rec)
    requires Stays(env, id, |done|, |BodyOf(env.lib, recs)|)
    ensures RunClient(env, Streaming(head, done), recs) ==
            Stepped(Streaming(head, done + BodyOf(env.lib, recs)), None)
    decreases |recs|
  {
    if recs == [] {
      assert done + [] == done;
    } else {
      assert recs[0] in recs && forall rec | rec in recs[1..] :: rec in recs;
      BodyFirst(env.lib, recs);
      var rest := BodyOf(env.lib, recs[1..]);
      if recs[0].Chunk? {
        var bytes := ChunkText(env.lib, recs[0]).value;
        ChunkPushed(env, recs[0], head, done);
        hide ClientStep, BodyOf;
        assert done + [bytes] + rest == done + ([bytes] + rest);
        Collects(env, id, recs[1..], head, done + [bytes]);
      } else {
        assert [] + rest == rest;
        Collects(env, id, recs[1..], head, done);
      }
    }
  }

  /** ... as long as the client stays. */
  lemma {:induction false} LeavesAt(env: Env, id: Id, recs: seq<Record>, n: nat, head: StreamHead, done: seq<Bytes>)
    requires For(id, recs) && forall rec | rec in recs :: !Closes(env.lib, rec)
    requires n < |BodyOf(env.lib, recs)| && Stays(env, id, |done|, n) && !env.alive(id, 1 + |done| + n)
    ensures RunClient(env, Streaming(head, done), recs) ==
            Stepped(HungUp(head, done + BodyOf(env.lib, recs)[..n]), None)
    decreases |recs|
  {
    assert recs[0] in recs && forall rec | rec in recs[1..] :: rec in recs;
    BodyFirst(env.lib, recs);
    hide ClientStep, BodyOf, Stays, Closes, ChunkText;
    var body, rest := BodyOf(env.lib, recs), BodyOf(env.lib, recs[1..]);
    if recs[0].Head? {
      assert [] + rest == rest;
      HeadIgnored(env, recs[0], head, done);
      LeavesAt(env, id, recs[1..], n, head, done);
    } else if n == 0 {
      assert done + body[..0] == done;
      ChunkLost(env, recs[0], head, done);
      Over(env, id, HungUp(head, done), recs[1..]);
    } else {
      var bytes := ChunkText(env.lib, recs[0]).value;
      StaysMore(env, id, |done|, n);
      ChunkPushed(env, recs[0], head, done);
      assert done + [bytes] + rest[..n - 1] == done + body[..n];
      LeavesAt(env, id, recs[1..], n - 1, head, done + [bytes]);
    }
  }

  lemma Over(env: Env, id: Id, c: Client, recs: seq<Record>)
    requires !c.Live() && For(id, recs)
    ensures RunClient(env, c, recs) == Stepped(c, None)
  {
    DeadClient(env, c, recs);
  }

  /** ... until the first record that ends it, of whatever kind; what comes later changes nothing. */
  lemma ClosedByFirst(env: Env, id: Id, recs: seq<Record>, k: nat, head: StreamHead, done: seq<Bytes>)
    requires For(id, recs) && k < |recs| && Closes(env.lib, recs[k])
    requires forall rec | rec in recs[..k] :: !Closes(env.lib, rec)
    requires Stays(env, id, |done|, |BodyOf(env.lib, recs[..k])|)
    ensures var r := RunClient(env, Streaming(head, done), recs);
            r.client == Closed(head, done + BodyOf(env.lib, recs[..k])) && (r.fault.Some? <==> Spoils(env, recs[k]))
  {
    hide ClientStep, BodyOf, Closes, Spoils;
    assert recs[k] in recs && forall rec | rec in recs[..k] || rec in recs[k + 1..] :: rec in recs;
    Collects(env, id, recs[..k], head, done);
    var body := done + BodyOf(env.lib, recs[..k]);
    ClosedBy(env, recs[k], head, body);
    var rest := recs[k..];
    assert recs == recs[..k] + rest && rest[0] == recs[k] && rest[1..] == recs[k + 1..];
    RunSplit(env, Streaming(head, done), recs[..k], rest);
    Over(env, id, Closed(head, body), recs[k + 1..]);
  }

  lemma {:induction false} RunSplit(env: Env, c: Client, a: seq<Record>, b: seq<Record>)
    requires RunClient(env, c, a).fault.None?
    ensures RunClient(env, c, a + b) == RunClient(env, RunClient(env, c, a).client, b)
    decreases |a|
  {
    hide ClientStep;
    if a == [] {
      assert a + b == b;
    } else {
      assert (a + b)[1..] == a[1..] + b;
      RunSplit(env, ClientStep(env, c, a[0]).client, a[1..], b);
    }
  }

  /** The head that opens the response, if the first record opens one: its own, or the default one before a
      chunk or an end. */
  function Opening(env: Env, rec: Record): Option<StreamHead> {
    match rec
    case Head(_, _, status, headers, cookies) =>
      var code := if status.Some? then status.value else 200;
      if HeadPasses(env.lib, code, headers, cookies)
      then Some(StreamHead(code, HeaderFields(env.lib, headers, cookies), env.meta)) else None
    case Chunk(_, _, _, _) => Some(StreamHead(200, [], env.meta))
    case End(_, _) => Some(StreamHead(200, [], env.meta))
    case _ => None
  }

  /** The answer of an error record: its own status if that is one, 502 otherwise, and its own message. */
  function ErrorOf(env: Env, rec: Record): Response
    requires rec.Error?
  {
    var code := if rec.errorStatus.Some? && 100 <= rec.errorStatus.value <= 999 then rec.errorStatus.value else 502;
    Response(code, [], Text(Reported(if rec.message.Some? then rec.message.value else "error")), Some(env.meta))
  }

  /** The first record decides: a whole answer or an error is all that a client gets, a head that cannot be
      passed on leaves it without one and spoils the stream. */
  lemma FirstRecord(env: Env, id: Id, recs: seq<Record>)
    requires For(id, recs) && recs != []
    ensures var r := RunClient(env, Waiting, recs);
            match recs[0]
            case Legacy(_, _, _, _, _, _, _) =>
              (match WholeOf(env, recs[0])
               case Some(response) => r == Stepped(Answered(response), None)
               case None => r.client == Dropped && r.fault.Some?)
            case Error(_, _, _, _) => r == Stepped(Answered(ErrorOf(env, recs[0])), None)
            case Head(_, _, _, _, _) =>
              (match Opening(env, recs[0])
               case Some(head) =>
                 r == if env.alive(id, 0) then RunClient(env, Streaming(head, []), recs[1..]) else Stepped(Gone, None)
               case None => r.client == Dropped && r.fault.Some?)
            case _ =>
              r == if env.alive(id, 0) then RunClient(env, Streaming(Opening(env, recs[0]).value, []), recs)
                   else Stepped(Gone, None)
  {
    var rec := recs[0];
    assert rec in recs && forall rec | rec in recs[1..] :: rec in recs;
    match rec
    case Legacy(_, _, status, headers, cookies, body, isBase64) =>
      ResponseIff(env.lib, env.meta, status, headers, cookies, body, isBase64);
      hide ResponseParts, Promised;
      if WholeOf(env, rec).Some? {
        Over(env, id, Answered(WholeOf(env, rec).value), recs[1..]);
      }
    case Error(_, _, _, _) => Over(env, id, Answered(ErrorOf(env, rec)), recs[1..]);
    case Head(_, _, status, headers, cookies) =>
      HeadIff(env.lib, if status.Some? then status.value else 200, headers, cookies);
      hide HeadParts, HeadPasses, HeaderFields;
      if !env.alive(id, 0) && Opening(env, rec).Some? {
        Over(env, id, Gone, recs[1..]);
      }
    case _ =>
      if !env.alive(id, 0) {
        Over(env, id, Gone, recs[1..]);
        return;
      }
      assert ClientStep(env, Waiting, rec) == ClientStep(env, Streaming(Opening(env, rec).value, []), rec);
      hide ClientStep;
  }
}
