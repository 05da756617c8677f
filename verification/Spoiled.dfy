/** What clients have seen of a stream that was spoiled by one bad answer or cut short anywhere. */
module Spoiled {
  import opened Wire
  import opened Promise
  import opened Framing
  import opened Demux
  import opened StreamDispatch
  import opened Select
  import opened Adapter
  import opened EndToEnd

  /** No proper part of a serialized record parses; a part is what a stream cut mid-line leaves. */
  ghost predicate PartsDoNotParse(lib: Lib, encode: Record -> Bytes, recs: seq<Record>) {
    forall r, part: Bytes | r in recs && part < encode(r) :: lib.parse(part).Err?
  }

  lemma SpellSplit(lines: seq<Bytes>, b: Bytes)
    requires lines != [] && b <= Spell(lines, [])
    ensures b <= lines[0] || (lines[0] + [LF] <= b && b[|lines[0]| + 1..] <= Spell(lines[1..], []))
  {
    var whole, n := Spell(lines, []), |lines[0]|;
    assert whole == lines[0] + [LF] + Spell(lines[1..], []);
    if |b| <= n {
      assert b == whole[..|b|] == lines[0][..|b|];
    } else {
      assert b[..n + 1] == whole[..n + 1] == lines[0] + [LF];
      assert b[n + 1..] == whole[n + 1..|b|];
    }
  }

  lemma KeptFirst(line: Bytes, pieces: seq<Bytes>)
    requires CleanLine(line)
    ensures Kept([line] + pieces) == [line] + Kept(pieces)
  {
    assert ([line] + pieces)[1..] == pieces;
  }

  lemma FirstLineOff(first: Bytes, rest: Bytes)
    requires CleanLine(first)
    ensures Lines(first + [LF] + rest) == [first] + Lines(rest)
    ensures Tail(first + [LF] + rest) == Tail(rest)
  {
    hide FindLF, Kept, Terminated, Tail;
    Framing.CutFirst(first, rest);
    KeptFirst(first, Terminated(rest));
  }

  lemma NoLineYet(line: Bytes, b: Bytes)
    requires CleanLine(line) && b <= line
    ensures Lines(b) == [] && Tail(b) == b
  {
    assert forall i | 0 <= i < |b| :: b[i] == line[i];
    Framing.CutNone(b);
  }

  /** `b` holds the first `j` lines and a part of the next one. */
  ghost predicate HoldsLines(lines: seq<Bytes>, b: Bytes, j: nat) {
    && j <= |lines| && Lines(b) == lines[..j]
    && if j == |lines| then Tail(b) == [] else Tail(b) <= lines[j]
  }

  lemma TakeCons<X>(xs: seq<X>, n: nat)
    requires xs != [] && n < |xs|
    ensures xs[..n + 1] == [xs[0]] + xs[1..][..n]
    ensures n + 1 < |xs| ==> xs[n + 1] == xs[1..][n]
  {
  }

  lemma HoldsOneMore(lines: seq<Bytes>, rest: Bytes, more: nat)
    requires lines != [] && CleanLine(lines[0]) && HoldsLines(lines[1..], rest, more)
    ensures HoldsLines(lines, lines[0] + [LF] + rest, more + 1)
  {
    hide Lines, Tail, CleanLine;
    FirstLineOff(lines[0], rest);
    TakeCons(lines, more);
  }

  /** A part of what clean lines spell is some of the lines and a part of the next one. */
  lemma {:induction false} CutLines(lines: seq<Bytes>, b: Bytes) returns (j: nat)
    requires b <= Spell(lines, []) && forall line | line in lines :: CleanLine(line)
    ensures HoldsLines(lines, b, j)
    decreases lines
  {
    if lines == [] {
      Framing.CutNone(b);
      j := 0;
    } else {
      SpellSplit(lines, b);
      assert lines[0] in lines;
      hide Spell, CleanLine;
      if b <= lines[0] {
        NoLineYet(lines[0], b);
        j := 0;
      } else {
        hide HoldsLines;
        var rest := b[|lines[0]| + 1..];
        assert forall line | line in lines[1..] :: line in lines;
        var more := CutLines(lines[1..], rest);
        HoldsOneMore(lines, rest, more);
        assert b == lines[0] + [LF] + rest;
        j := more + 1;
      }
    }
  }

  lemma {:induction false} EncodeSlice(encode: Record -> Bytes, recs: seq<Record>, j: nat)
    requires j <= |recs|
    ensures |EncodeAll(encode, recs)| == |recs|
    ensures EncodeAll(encode, recs)[..j] == EncodeAll(encode, recs[..j])
    ensures j < |recs| ==> EncodeAll(encode, recs)[j] == encode(recs[j])
  {
    if recs == [] {
    } else if j == 0 {
      EncodeSlice(encode, recs[1..], 0);
    } else {
      EncodeSlice(encode, recs[1..], j - 1);
      assert recs[..j] == [recs[0]] + recs[1..][..j - 1];
    }
  }

  /** The clients after some of the records have been run, or up to the first fault among them. */
  ghost predicate RanPart(env: Env, cs: Clients, recs: seq<Record>, clients: Clients) {
    exists m: nat :: m <= |recs| && RunAll(env, cs, AllOk(recs[..m])).clients == clients
  }

  lemma RunEncoded(env: Env, encode: Record -> Bytes, cs: Clients, recs: seq<Record>)
    requires EncoderLaw(env.lib, encode, recs)
    ensures var r := RunAll(env, cs, AllOk(recs));
            RunLines(env, cs, EncodeAll(encode, recs)) == SteppedAll(r.clients, r.fault)
  {
    EncodedParse(env.lib, encode, recs);
  }

  /** Wherever the bytes are cut and however the stream ends, the clients end as after a run of some
      of the records, settled by the sweep. */
  lemma CutAnywhere(env: Env, encode: Record -> Bytes, cs: Clients, recs: seq<Record>, stream: seq<Item>)
    returns (clients: Clients)
    requires EncoderLaw(env.lib, encode, recs) && PartsDoNotParse(env.lib, encode, recs)
    requires Cat(stream[..Admitted(stream, 0)]) <= Spell(EncodeAll(encode, recs), [])
    ensures RanPart(env, cs, recs, clients)
    ensures var out := Dispatched(env, cs, stream); out == Finish(env, clients, out.exit)
  {
    var body, lines := Cat(stream[..Admitted(stream, 0)]), EncodeAll(encode, recs);
    EncodedParse(env.lib, encode, recs);
    var j := CutLines(lines, body);
    EncodeSlice(encode, recs, 0);
    EncodeSlice(encode, recs, j);
    assert EncoderLaw(env.lib, encode, recs[..j]);
    RunEncoded(env, encode, cs, recs[..j]);
    hide RunAll, AllOk, EncodeAll, Lines, Tail, Spell, ParseAll;
    var run := RunLines(env, cs, Lines(body));
    clients := run.clients;
    if run.fault.None? && Admitted(stream, 0) == |stream| {
      clients := TailRun(env, encode, cs, recs, j, Tail(body));
    }
  }

  /** The last line is the whole next record, or no record at all. */
  lemma TailRun(env: Env, encode: Record -> Bytes, cs: Clients, recs: seq<Record>, j: nat, tail: Bytes)
    returns (clients: Clients)
    requires EncoderLaw(env.lib, encode, recs) && PartsDoNotParse(env.lib, encode, recs) && j <= |recs|
    requires if j == |recs| then tail == [] else tail <= encode(recs[j])
    requires RunAll(env, cs, AllOk(recs[..j])).fault.None?
    ensures var before := RunAll(env, cs, AllOk(recs[..j])).clients;
            var line := TrimEnd(tail);
            clients == RunLines(env, before, if line == [] then [] else [line]).clients
    ensures RanPart(env, cs, recs, clients)
  {
    hide RunAll, AllOk;
    var before, line := RunAll(env, cs, AllOk(recs[..j])).clients, TrimEnd(tail);
    TrimmedEnd(tail);
    RunNothing(env, before);
    RunOne(env, before, line);
    clients := RunLines(env, before, if line == [] then [] else [line]).clients;
    if line != [] {
      assert recs[j] in recs;
      if line == encode(recs[j]) {
        OneMore(env, cs, recs, j);
        assert RunAll(env, cs, AllOk(recs[..j + 1])).clients == clients;
      } else {
        assert line < encode(recs[j]);
        assert clients == before;
      }
    }
  }

  lemma OneMore(env: Env, cs: Clients, recs: seq<Record>, j: nat)
    requires j < |recs| && RunAll(env, cs, AllOk(recs[..j])).fault.None?
    ensures RunAll(env, cs, AllOk(recs[..j + 1])).clients ==
            StepAll(env, RunAll(env, cs, AllOk(recs[..j])).clients, Ok(recs[j])).clients
  {
    assert recs[..j + 1] == recs[..j] + [recs[j]];
    AllOkAppend(recs[..j], recs[j]);
    var p: Parsed := Ok(recs[j]);
    RunAppend(env, cs, AllOk(recs[..j]), [p]);
    assert [p][1..] == [];
    var mid := RunAll(env, cs, AllOk(recs[..j])).clients;
    assert RunAll(env, StepAll(env, mid, p).clients, []) == Ran(StepAll(env, mid, p).clients, None, 0);
  }

  /** What one client has seen is a run of some first part of its own records. */
  ghost predicate RanOwnPart(env: Env, own: seq<Record>, c: Client) {
    exists m: nat :: m <= |own| && RunClient(env, Waiting, own[..m]).client == c
  }

  lemma {:induction false} OwnPrefix(ps: seq<Parsed>, n: nat, id: Id)
    requires n <= |ps|
    ensures Own(ps[..n], id) <= Own(ps, id)
  {
    assert ps == ps[..n] + ps[n..];
    OwnAppend(ps[..n], ps[n..], id);
  }

  lemma {:induction false} AllOkSlice(recs: seq<Record>, m: nat)
    requires m <= |recs|
    ensures AllOk(recs)[..m] == AllOk(recs[..m])
  {
    if m == 0 {
    } else {
      AllOkSlice(recs[1..], m - 1);
      assert recs[..m] == [recs[0]] + recs[1..][..m - 1];
    }
  }

  lemma OwnUpTo(recs: seq<Record>, m: nat, used: nat, id: Id)
    requires used <= m <= |recs|
    ensures Own(AllOk(recs[..m])[..used], id) <= Own(AllOk(recs), id)
  {
    AllOkSlice(recs, m);
    OwnPrefix(AllOk(recs), used, id);
    hide AllOk, Own;
    assert AllOk(recs)[..m][..used] == AllOk(recs)[..used];
  }

  /** After a run of some of the records a client has seen a run of a first part of its own. */
  lemma PartOfRecords(env: Env, ids: set<Id>, recs: seq<Record>, clients: Clients, id: Id)
    requires RanPart(env, Fresh(ids), recs, clients) && id in ids
    ensures id in clients && RanOwnPart(env, Own(AllOk(recs), id), clients[id])
  {
    var cs := Fresh(ids);
    var m: nat :| m <= |recs| && RunAll(env, cs, AllOk(recs[..m])).clients == clients;
    hide RunAll, AllOk, Own, RunClient, RanPart;
    var ps := AllOk(recs[..m]);
    var used := RunAll(env, cs, ps).used;
    Projection(env, cs, ps, id);
    OwnUpTo(recs, m, used, id);
    var seen, all := Own(ps[..used], id), Own(AllOk(recs), id);
    assert seen == all[..|seen|];
  }

  lemma PartOfOwn(env: Env, ids: seq<Id>, streams: seq<seq<Record>>, log: seq<(nat, Record)>, clients: Clients, k: nat)
    requires NoRepeats(ids) && Tagged(ids, streams) && Merges(streams, log) && k < |ids|
    requires RanPart(env, Fresh(Elements(ids)), Records(log), clients)
    ensures ids[k] in clients && RanOwnPart(env, streams[k], clients[ids[k]])
  {
    LogTagged(ids, streams, log);
    OwnIsProjection(ids, log, k);
    assert ids[k] in Elements(ids);
    hide RanPart, RanOwnPart, Own, AllOk, Records, Merges, Project, Elements, Fresh;
    PartOfRecords(env, Elements(ids), Records(log), clients, ids[k]);
    MergedPart(streams, log, k);
  }

  lemma MergedPart(streams: seq<seq<Record>>, log: seq<(nat, Record)>, k: nat)
    requires Merges(streams, log) && k < |streams|
    ensures Project(log, k) == streams[k]
  {
  }

  /** For every merge of the producers' streams, every place where the bytes stop and every way the
      dispatch ends, each client holds a run of a first part of its own producer's records, settled
      by the sweep. */
  lemma EachItsOwnPart(env: Env, encode: Record -> Bytes, ids: seq<Id>, streams: seq<seq<Record>>,
                       log: seq<(nat, Record)>, stream: seq<Item>)
    requires NoRepeats(ids) && Tagged(ids, streams) && Merges(streams, log)
    requires EncoderLaw(env.lib, encode, Records(log)) && PartsDoNotParse(env.lib, encode, Records(log))
    requires Cat(stream[..Admitted(stream, 0)]) <= Spell(EncodeAll(encode, Records(log)), [])
    ensures var out := Dispatched(env, Fresh(Elements(ids)), stream);
            forall k: nat | k < |ids| ::
              && ids[k] in out.clients
              && exists c :: RanOwnPart(env, streams[k], c) && out.clients[ids[k]] == FailClient(env, out.exit, c)
  {
    hide Dispatched, RanPart, RanOwnPart, Merges, RunAll, Records, Cat, Admitted, Spell;
    var clients := CutAnywhere(env, encode, Fresh(Elements(ids)), Records(log), stream);
    forall k: nat | k < |ids| ensures ids[k] in clients && RanOwnPart(env, streams[k], clients[ids[k]]) {
      PartOfOwn(env, ids, streams, log, clients, k);
    }
  }

  // ---------------------------------------------------------------------------------------------
  // In terms of what the handlers returned
  // ---------------------------------------------------------------------------------------------

  /** A part of the handler's own answer: its head with some of its first chunks, its fixed error, or
      nothing but a gateway error; nothing at all only if its own head was refused. */
  predicate PartlyServed(env: Env, exit: Message, handled: Handled, c: Client) {
    match c
    case Gone => true
    case HungUp(head, body) => handled.Returned? && OwnBody(env, handled.response, head, body)
    case Dropped => handled.Returned? && !HeadOk(env.lib, handled.response)
    case Answered(response) =>
      || response == BadGateway(exit, env.meta)
      || (handled.Failed? && response == Response(500, [], Text(Reported("internal error")), Some(env.meta)))
    case Closed(head, body) => handled.Returned? && OwnBody(env, handled.response, head, body)
    case _ => false
  }

  predicate OwnBody(env: Env, r: HandlerResponse, head: StreamHead, body: seq<Bytes>) {
    && HeadOk(env.lib, r) && head == HeadOf(env.lib, r, env.meta)
    && |body| <= |Pieces(env.lib, r)|
    && forall i | 0 <= i < |body| :: Pieces(env.lib, r)[i] == Some(body[i])
  }

  lemma {:induction false} ChunkRecordCount(lib: Lib, id: Id, isBase64: bool, chunks: seq<ResponseChunk>)
    ensures |ChunkRecords(lib, id, isBase64, chunks)| == |chunks|
  {
    if chunks == [] {
    } else {
      ChunkRecordCount(lib, id, isBase64, chunks[1..]);
    }
  }

  lemma OwnBodyGrows(env: Env, r: HandlerResponse, head: StreamHead, done: seq<Bytes>, bytes: Bytes)
    requires OwnBody(env, r, head, done) && |done| < |Chunks(r.body)|
    requires ChunkBytes(env.lib, r.isBase64, Chunks(r.body)[|done|]) == Some(bytes)
    ensures OwnBody(env, r, head, done + [bytes])
  {
    ChunksArePieces(env.lib, r);
    hide HeadOk, HeadOf, ChunkBytes, Chunks, Pieces;
  }

  /** The chunk records from the `n`-th chunk on, and the end record. */
  function RestRecords(lib: Lib, id: Id, r: HandlerResponse, n: nat): (recs: seq<Record>)
    requires n <= |Chunks(r.body)|
  {
    ChunkRecords(lib, id, r.isBase64, Chunks(r.body)[n..]) + [End(1, id)]
  }

  lemma RestFirst(lib: Lib, id: Id, r: HandlerResponse, n: nat, m: nat)
    requires n <= |Chunks(r.body)|
    ensures |RestRecords(lib, id, r, n)| == |Chunks(r.body)| - n + 1
    ensures n < |Chunks(r.body)| && 0 < m <= |RestRecords(lib, id, r, n)| ==>
              && RestRecords(lib, id, r, n)[..m][0] == ChunkRecord(lib, id, r.isBase64, Chunks(r.body)[n])
              && RestRecords(lib, id, r, n)[..m][1..] == RestRecords(lib, id, r, n + 1)[..m - 1]
    ensures n == |Chunks(r.body)| ==> RestRecords(lib, id, r, n) == [End(1, id)]
  {
    ChunkRecordCount(lib, id, r.isBase64, Chunks(r.body)[n..]);
    if n < |Chunks(r.body)| && 0 < m <= |RestRecords(lib, id, r, n)| {
      var rest := Chunks(r.body)[n..];
      assert rest[0] == Chunks(r.body)[n] && rest[1..] == Chunks(r.body)[n + 1..];
      var recs := RestRecords(lib, id, r, n);
      assert recs == [ChunkRecord(lib, id, r.isBase64, rest[0])] + RestRecords(lib, id, r, n + 1);
    }
  }

  /** Some of the chunk records, perhaps followed by the end record, extend the body chunk by chunk. */
  lemma {:induction false} ChunksPart(env: Env, id: Id, r: HandlerResponse, head: StreamHead, done: seq<Bytes>, m: nat)
    requires Base64Law(env.lib) && OwnBody(env, r, head, done) && |done| <= |Chunks(r.body)|
    requires m <= |RestRecords(env.lib, id, r, |done|)|
    ensures var c := RunClient(env, Streaming(head, done), RestRecords(env.lib, id, r, |done|)[..m]).client;
            c == Gone || ((c.Streaming? || c.Closed? || c.HungUp?) && OwnBody(env, r, c.head, c.body))
    decreases |Chunks(r.body)| - |done|
  {
    hide ClientStep, ChunkRecord, ChunkBytes, OwnBody, RestRecords, Chunks, Pieces, Base64Law;
    var recs := RestRecords(env.lib, id, r, |done|);
    RestFirst(env.lib, id, r, |done|, m);
    if m == 0 {
      assert recs[..0] == [];
    } else if |done| == |Chunks(r.body)| {
      assert recs[..m] == [End(1, id)] && recs[..m][1..] == [];
      EndCloses(env, id, head, done);
      assert RunClient(env, Closed(head, done), []).client == Closed(head, done);
    } else {
      var chunk := Chunks(r.body)[|done|];
      ChunkStep(env, id, r.isBase64, chunk, head, done);
      var bytes := ChunkBytes(env.lib, r.isBase64, chunk);
      if bytes.Some? {
        if env.alive(id, 1 + |done|) {
          OwnBodyGrows(env, r, head, done, bytes.value);
          RestFirst(env.lib, id, r, |done| + 1, m - 1);
          ChunksPart(env, id, r, head, done + [bytes.value], m - 1);
        } else {
          DeadClient(env, HungUp(head, done), recs[..m][1..]);
        }
      }
    }
  }

  lemma EndCloses(env: Env, id: Id, head: StreamHead, done: seq<Bytes>)
    ensures ClientStep(env, Streaming(head, done), End(1, id)) == Stepped(Closed(head, done), None)
  {
  }

  lemma FailedPart(env: Env, exit: Message, id: Id, m: nat)
    requires m <= 1
    ensures var recs := StreamRecords(env.lib, id, Failed);
            && m <= |recs|
            && PartlyServed(env, exit, Failed, FailClient(env, exit, RunClient(env, Waiting, recs[..m]).client))
  {
    var recs := StreamRecords(env.lib, id, Failed);
    if m == 0 {
      assert recs[..m] == [];
    } else {
      var c := ClientStep(env, Waiting, recs[0]).client;
      assert recs[..m] == recs && recs[1..] == [];
      assert RunClient(env, c, []).client == c;
    }
  }

  /** What a client has after the head and some of the chunk records. */
  lemma HeadThenPart(env: Env, id: Id, r: HandlerResponse, m: nat)
    requires Base64Law(env.lib) && HeadOk(env.lib, r) && m <= |RestRecords(env.lib, id, r, 0)|
    ensures var head := HeadOf(env.lib, r, env.meta);
            var c := RunClient(env, OpenWith(env, id, head), RestRecords(env.lib, id, r, 0)[..m]).client;
            c == Gone || ((c.Streaming? || c.Closed? || c.HungUp?) && OwnBody(env, r, c.head, c.body))
  {
    var head := HeadOf(env.lib, r, env.meta);
    assert OwnBody(env, r, head, []);
    hide HeadOk, HeadOf, RunClient, OwnBody, RestRecords;
    if env.alive(id, 0) {
      ChunksPart(env, id, r, head, [], m);
    } else {
      DeadClient(env, Gone, RestRecords(env.lib, id, r, 0)[..m]);
    }
  }

  lemma RunFirst(env: Env, c: Client, recs: seq<Record>)
    requires recs != []
    ensures var s := ClientStep(env, c, recs[0]);
            RunClient(env, c, recs) == if s.fault.Some? then s else RunClient(env, s.client, recs[1..])
  {
  }

  lemma SliceCons<X>(x: X, rest: seq<X>, m: nat)
    requires 0 < m <= |rest| + 1
    ensures ([x] + rest)[..m][0] == x && ([x] + rest)[..m][1..] == rest[..m - 1]
  {
  }

  lemma StreamSplit(lib: Lib, id: Id, r: HandlerResponse, m: nat)
    requires 0 < m <= |StreamRecords(lib, id, Returned(r))|
    ensures var recs := StreamRecords(lib, id, Returned(r));
            recs[..m][0] == recs[0] && m - 1 <= |RestRecords(lib, id, r, 0)|
            && recs[..m][1..] == RestRecords(lib, id, r, 0)[..m - 1]
            && recs[0] == Head(1, id, Some(StatusOf(r.status)), NormalizeHeaders(lib, r.headers),
                               NormalizeCookies(lib, r.cookies))
  {
    assert Chunks(r.body)[0..] == Chunks(r.body);
    var head := StreamRecords(lib, id, Returned(r))[0];
    assert StreamRecords(lib, id, Returned(r)) == [head] + RestRecords(lib, id, r, 0);
    hide RestRecords, StreamRecords;
    SliceCons(head, RestRecords(lib, id, r, 0), m);
  }

  /** The head comes first; what follows it is a part of the chunk records. */
  lemma ReturnedPart(env: Env, exit: Message, id: Id, r: HandlerResponse, m: nat)
    requires Base64Law(env.lib) && m <= |StreamRecords(env.lib, id, Returned(r))|
    ensures var c := RunClient(env, Waiting, StreamRecords(env.lib, id, Returned(r))[..m]).client;
            PartlyServed(env, exit, Returned(r), FailClient(env, exit, c))
  {
    var recs := StreamRecords(env.lib, id, Returned(r));
    if m == 0 {
      assert recs[..m] == [];
    } else {
      StreamSplit(env.lib, id, r, m);
      RunFirst(env, Waiting, recs[..m]);
      if HeadOk(env.lib, r) {
        HeadStep(env, id, r);
        HeadThenPart(env, id, r, m - 1);
      } else {
        HeadRefused(env, id, r);
      }
      hide RestRecords, StreamRecords, ClientStep, HeadOk, HeadOf, OwnBody, RunClient;
    }
  }

  lemma ItemPart(env: Env, exit: Message, id: Id, handled: Handled, c: Client)
    requires Base64Law(env.lib) && RanOwnPart(env, StreamRecords(env.lib, id, handled), c)
    ensures PartlyServed(env, exit, handled, FailClient(env, exit, c))
  {
    var recs := StreamRecords(env.lib, id, handled);
    var m: nat :| m <= |recs| && RunClient(env, Waiting, recs[..m]).client == c;
    hide PartlyServed, RunClient;
    match handled
    case Failed => FailedPart(env, exit, id, m);
    case Returned(r) => ReturnedPart(env, exit, id, r, m);
  }

  /** Nobody ever sees anything of another's: whichever answers cannot be passed on, wherever the
      bytes stop and however the dispatch ends, each client of the interleaved adapter has a first
      part of its own handler's answer or a gateway error. */
  lemma NothingOfAnothers(env: Env, encode: Record -> Bytes, ids: seq<Id>, handled: seq<Handled>,
                          log: seq<(nat, Record)>, stream: seq<Item>)
    requires NoRepeats(ids) && |ids| == |handled| && Base64Law(env.lib)
    requires Merges(AdapterStreams(env.lib, ids, handled), log)
    requires EncoderLaw(env.lib, encode, Records(log)) && PartsDoNotParse(env.lib, encode, Records(log))
    requires Cat(stream[..Admitted(stream, 0)]) <= Spell(EncodeAll(encode, Records(log)), [])
    ensures var out := Dispatched(env, Fresh(Elements(ids)), stream);
            forall k: nat | k < |ids| ::
              ids[k] in out.clients && PartlyServed(env, out.exit, handled[k], out.clients[ids[k]])
  {
    var streams := AdapterStreams(env.lib, ids, handled);
    AdapterTagged(env.lib, ids, handled);
    EachItsOwnPart(env, encode, ids, streams, log, stream);
    hide Dispatched, RanOwnPart, PartlyServed, StreamRecords;
    var out := Dispatched(env, Fresh(Elements(ids)), stream);
    forall k: nat | k < |ids|
      ensures ids[k] in out.clients && PartlyServed(env, out.exit, handled[k], out.clients[ids[k]])
    {
      var c :| RanOwnPart(env, streams[k], c) && out.clients[ids[k]] == FailClient(env, out.exit, c);
      ItemPart(env, out.exit, ids[k], handled[k], c);
    }
  }
}
