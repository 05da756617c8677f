/** `dispatch_response_stream`: bytes in arbitrary chunks, cut into lines, parsed and handed to the
    demultiplexer, with every way the loop can end. */
module StreamDispatch {
  import opened Wire
  import opened Framing
  import opened Demux

  const MAX_BUFFER_BYTES: nat := 8 * 1024 * 1024

  /** What `stream.recv()` yields; the end of the sequence is the end of the stream. */
  datatype Item = Data(bytes: Bytes) | Failure

  function Cat(stream: seq<Item>): Bytes {
    if stream == [] then []
    else Cat(stream[..|stream| - 1]) + (match stream[|stream| - 1] case Data(b) => b case Failure => [])
  }

  /** Chunk `i` arrives intact and fits the buffer beside the unread rest of what came before. */
  predicate Fits(stream: seq<Item>, i: nat)
    requires i < |stream|
  {
    stream[i].Data? && |Tail(Cat(stream[..i]))| + |stream[i].bytes| <= MAX_BUFFER_BYTES
  }

  /** The number of chunks taken in before the stream fails or overflows the buffer. */
  function Admitted(stream: seq<Item>, from: nat): (k: nat)
    requires from <= |stream|
    ensures from <= k <= |stream|
    ensures forall i | from <= i < k :: Fits(stream, i)
    ensures k < |stream| ==> !Fits(stream, k)
    decreases |stream| - from
  {
    if from == |stream| || !Fits(stream, from) then from else Admitted(stream, from + 1)
  }

  function ParseAll(lib: Lib, lines: seq<Bytes>): (ps: seq<Parsed>)
    ensures |ps| == |lines|
  {
    if lines == [] then [] else [lib.parse(lines[0])] + ParseAll(lib, lines[1..])
  }

  function RunLines(env: Env, cs: Clients, lines: seq<Bytes>): SteppedAll {
    var r := RunAll(env, cs, ParseAll(env.lib, lines));
    SteppedAll(r.clients, r.fault)
  }

  datatype Outcome = Outcome(clients: Clients, exit: Message)

  function Finish(env: Env, cs: Clients, exit: Message): Outcome {
    Outcome(FailAll(env, exit, cs), exit)
  }

  /** The reference: frame everything admitted, run it, and settle whoever is left. */
  function Dispatched(env: Env, cs: Clients, stream: seq<Item>): Outcome {
    var k := Admitted(stream, 0);
    var body := Cat(stream[..k]);
    var run := RunLines(env, cs, Lines(body));
    if run.fault.Some? then Finish(env, run.clients, OfFault(run.fault.value))
    else if k < |stream| then
      Finish(env, run.clients, if stream[k].Failure? then StreamError else StreamTooLarge)
    else
      var last := RunLines(env, run.clients, LastLine(body));
      Finish(env, last.clients, if last.fault.Some? then OfFault(last.fault.value) else MissingRecord)
  }

  lemma {:induction false} ParseAppend(lib: Lib, a: seq<Bytes>, b: seq<Bytes>)
    ensures ParseAll(lib, a + b) == ParseAll(lib, a) + ParseAll(lib, b)
  {
    if a == [] {
      assert a + b == b;
    } else {
      assert (a + b)[1..] == a[1..] + b;
      ParseAppend(lib, a[1..], b);
    }
  }

  lemma RunLinesAppend(env: Env, cs: Clients, a: seq<Bytes>, b: seq<Bytes>)
    ensures var ra := RunLines(env, cs, a);
            RunLines(env, cs, a + b) == if ra.fault.Some? then ra else RunLines(env, ra.clients, b)
  {
    ParseAppend(env.lib, a, b);
    RunAppend(env, cs, ParseAll(env.lib, a), ParseAll(env.lib, b));
  }

  lemma {:induction false} CatSplit(stream: seq<Item>, i: nat, k: nat)
    requires i <= k <= |stream|
    ensures Cat(stream[..i]) <= Cat(stream[..k])
    decreases k
  {
    if i < k {
      assert stream[..k][..k - 1] == stream[..k - 1];
      CatSplit(stream, i, k - 1);
    }
  }

  /** A fault found early is the fault of the whole. */
  lemma FaultStays(env: Env, cs: Clients, a: Bytes, b: Bytes)
    requires a <= b && RunLines(env, cs, Lines(a)).fault.Some?
    ensures RunLines(env, cs, Lines(b)) == RunLines(env, cs, Lines(a))
  {
    assert b == a + b[|a|..];
    LinesAppend(a, b[|a|..]);
    RunLinesAppend(env, cs, Lines(a), Lines(Tail(a) + b[|a|..]));
  }

  /** The state after the complete lines of the first `i` chunks. */
  function AfterChunks(env: Env, cs: Clients, stream: seq<Item>, i: nat): SteppedAll
    requires i <= |stream|
  {
    RunLines(env, cs, Lines(Cat(stream[..i])))
  }

  lemma AfterNothing(env: Env, cs: Clients, stream: seq<Item>)
    ensures AfterChunks(env, cs, stream, 0) == SteppedAll(cs, None) && Tail(Cat(stream[..0])) == []
  {
  }

  lemma AfterStep(env: Env, cs: Clients, stream: seq<Item>, i: nat)
    requires i < |stream| && stream[i].Data? && AfterChunks(env, cs, stream, i).fault.None?
    ensures var input := Tail(Cat(stream[..i])) + stream[i].bytes;
            && AfterChunks(env, cs, stream, i + 1)
               == RunLines(env, AfterChunks(env, cs, stream, i).clients, Lines(input))
            && Tail(Cat(stream[..i + 1])) == Tail(input)
  {
    var body, chunk := Cat(stream[..i]), stream[i].bytes;
    assert stream[..i + 1][..i] == stream[..i];
    assert Cat(stream[..i + 1]) == body + chunk;
    LinesAppend(body, chunk);
    CutAppend(body, chunk);
    RunLinesAppend(env, cs, Lines(body), Lines(Tail(body) + chunk));
  }

  lemma SuffixOfRest(b: Bytes, n: nat, k: nat)
    requires n < |b| && k <= |b[n + 1..]|
    ensures b[|b| - k..] == b[n + 1..][|b[n + 1..]| - k..]
    ensures k < |b[n + 1..]| ==> b[|b| - k - 1] == b[n + 1..][|b[n + 1..]| - k - 1]
    ensures k == |b[n + 1..]| ==> b[|b| - k - 1] == b[n]
  {
  }

  lemma {:induction false} TailSuffix(b: Bytes)
    ensures |Tail(b)| <= |b| && Tail(b) == b[|b| - |Tail(b)|..]
    ensures |Tail(b)| < |b| ==> b[|b| - |Tail(b)| - 1] == LF
    decreases |b|
  {
    var n := FindLF(b, 0);
    if n == |b| {
      assert Tail(b) == b;
    } else {
      assert Tail(b) == Tail(b[n + 1..]);
      hide Tail;
      TailSuffix(b[n + 1..]);
      SuffixOfRest(b, n, |Tail(b)|);
    }
  }

  lemma AfterNothingCut(stream: seq<Item>)
    ensures Tail(Cat(stream[..0])) == []
  {
  }

  lemma BufferFits(stream: seq<Item>, i: nat)
    requires i <= Admitted(stream, 0)
    ensures |Tail(Cat(stream[..i]))| <= MAX_BUFFER_BYTES
  {
    if i == 0 {
      AfterNothingCut(stream);
    } else {
      var before := Cat(stream[..i - 1]);
      assert Fits(stream, i - 1) && stream[..i][..i - 1] == stream[..i - 1];
      assert Cat(stream[..i]) == before + stream[i - 1].bytes;
      hide Tail, Cat, Admitted;
      CutAppend(before, stream[i - 1].bytes);
      TailSuffix(Tail(before) + stream[i - 1].bytes);
    }
  }

  /** Between chunks the buffer is LF-free, within its bound, and exactly what follows the last LF. */
  lemma BufferBetweenChunks(stream: seq<Item>, i: nat)
    requires i <= Admitted(stream, 0)
    ensures var body := Cat(stream[..i]);
            var buffer := Tail(body);
            && NoLF(buffer) && |buffer| <= MAX_BUFFER_BYTES && |buffer| <= |body|
            && buffer == body[|body| - |buffer|..]
            && (|buffer| < |body| ==> body[|body| - |buffer| - 1] == LF)
  {
    hide Tail, Cat, Admitted, Terminated, Spell, NoLF;
    SpellTerminated(Cat(stream[..i]));
    TailSuffix(Cat(stream[..i]));
    BufferFits(stream, i);
  }

  lemma ExitOnFault(env: Env, cs: Clients, stream: seq<Item>, i: nat)
    requires i <= Admitted(stream, 0) && AfterChunks(env, cs, stream, i).fault.Some?
    ensures var a := AfterChunks(env, cs, stream, i);
            Dispatched(env, cs, stream) == Finish(env, a.clients, OfFault(a.fault.value))
  {
    var k := Admitted(stream, 0);
    CatSplit(stream, i, k);
    FaultStays(env, cs, Cat(stream[..i]), Cat(stream[..k]));
  }

  lemma ExitOnChunk(env: Env, cs: Clients, stream: seq<Item>, i: nat)
    requires i <= Admitted(stream, 0) && i < |stream| && !Fits(stream, i)
    requires AfterChunks(env, cs, stream, i).fault.None?
    ensures Dispatched(env, cs, stream) ==
            Finish(env, AfterChunks(env, cs, stream, i).clients,
                   if stream[i].Failure? then StreamError else StreamTooLarge)
  {
    var k := Admitted(stream, 0);
    assert k == i;
  }

  lemma ExitAtEnd(env: Env, cs: Clients, stream: seq<Item>)
    requires Admitted(stream, 0) == |stream| && AfterChunks(env, cs, stream, |stream|).fault.None?
    ensures var last := RunLines(env, AfterChunks(env, cs, stream, |stream|).clients, LastLine(Tail(Cat(stream))));
            Dispatched(env, cs, stream) ==
            Finish(env, last.clients, if last.fault.Some? then OfFault(last.fault.value) else MissingRecord)
  {
    hide RunLines, Admitted, Cat, Terminated, Tail, TrimEnd, Kept, FailAll;
    assert stream[..|stream|] == stream;
    SpellTerminated(Cat(stream));
    Framing.CutNone(Tail(Cat(stream)));
  }

  // In figures, without the framer's own bookkeeping.

  /** The chunk is intact and has room: what follows the last LF so far, and the chunk, are at most 8 MiB. */
  predicate TakenIn(stream: seq<Item>, i: nat)
    requires i < |stream|
  {
    stream[i].Data? && |Tail(Cat(stream[..i]))| + |stream[i].bytes| <= 8388608
  }

  /** The first chunk that cannot be taken in, if there is one. */
  predicate StopsAt(stream: seq<Item>, k: nat) {
    k <= |stream| && (forall i | 0 <= i < k :: TakenIn(stream, i)) && (k < |stream| ==> !TakenIn(stream, k))
  }

  /** Why a dispatch ends: the first fault among the lines taken in; or else the broken stream, or the chunk that
      has no room; or else the end of the stream, and whoever still waits misses a record. */
  lemma ExitsWhen(env: Env, cs: Clients, stream: seq<Item>, k: nat)
    requires StopsAt(stream, k)
    ensures var lines := if k == |stream| then WholeLines(Cat(stream)) else Lines(Cat(stream[..k]));
            var fault := RunLines(env, cs, lines).fault;
            Dispatched(env, cs, stream).exit ==
            if fault.Some? then OfFault(fault.value)
            else if k == |stream| then MissingRecord
            else if stream[k].Failure? then StreamError
            else StreamTooLarge
  {
    assert forall i: nat | i < |stream| :: Fits(stream, i) <==> TakenIn(stream, i);
    assert k == Admitted(stream, 0);
    assert stream[..|stream|] == stream;
    if k == |stream| {
      RunLinesAppend(env, cs, Lines(Cat(stream)), LastLine(Cat(stream)));
    }
  }

  /** How the stream is cut into chunks makes no difference as long as every chunk fits. */
  lemma {:induction false} ChunkingInvariance(env: Env, cs: Clients, s: seq<Item>, t: seq<Item>)
    requires Admitted(s, 0) == |s| && Admitted(t, 0) == |t| && Cat(s) == Cat(t)
    ensures Dispatched(env, cs, s) == Dispatched(env, cs, t)
    ensures var r := RunLines(env, cs, WholeLines(Cat(s)));
            Dispatched(env, cs, s) ==
            Finish(env, r.clients, if r.fault.Some? then OfFault(r.fault.value) else MissingRecord)
  {
    assert s[..|s|] == s && t[..|t|] == t;
    RunLinesAppend(env, cs, Lines(Cat(s)), LastLine(Cat(s)));
  }

  /** One of the lines is a head or whole response for this id that a waiting client has to refuse. */
  ghost predicate Refuses(env: Env, lines: seq<Bytes>, id: Id, fault: Fault) {
    exists line | line in lines ::
      && env.lib.parse(line).Ok?
      && env.lib.parse(line).value.id == id
      && (env.lib.parse(line).value.Legacy? || env.lib.parse(line).value.Head?)
      && ClientStep(env, Waiting, env.lib.parse(line).value).fault == Some(fault)
  }

  lemma {:induction false} ParseAt(lib: Lib, lines: seq<Bytes>, i: nat)
    requires i < |lines|
    ensures ParseAll(lib, lines)[i] == lib.parse(lines[i])
  {
    if i > 0 {
      ParseAt(lib, lines[1..], i - 1);
    }
  }

  /** Running lines can only drop a client together with a fault of its own head or response. */
  lemma LeavesAtMostOne(env: Env, cs: Clients, lines: seq<Bytes>)
    requires NoneDropped(cs)
    ensures var r := RunLines(env, cs, lines);
            && (r.fault.None? ==> NoneDropped(r.clients))
            && (forall a, b | a in cs && b in cs && r.clients[a] == Dropped && r.clients[b] == Dropped :: a == b)
            && (forall a | a in cs && r.clients[a] == Dropped :: r.fault.Some? && Refuses(env, lines, a, r.fault.value))
            && r.clients.Keys == cs.Keys
  {
    var ps := ParseAll(env.lib, lines);
    AtMostOneDropped(env, cs, ps);
    var r := RunAll(env, cs, ps);
    hide RunAll, ParseAll, ClientStep;
    forall a | a in cs && r.clients[a] == Dropped ensures r.fault.Some? && Refuses(env, lines, a, r.fault.value) {
      ParseAt(env.lib, lines, r.used - 1);
      assert lines[r.used - 1] in lines;
    }
  }

  /** Whatever ends the stream, no client is left waiting or with an open body; at most one is
      dropped unanswered, and then the stream ended on the head or whole response carrying its id. */
  lemma EveryExitResolves(env: Env, ids: set<Id>, stream: seq<Item>)
    ensures var out := Dispatched(env, Fresh(ids), stream);
            && out.clients.Keys == ids
            && (forall id | id in ids :: !out.clients[id].Live())
            && (forall a, b | a in ids && b in ids && out.clients[a] == Dropped && out.clients[b] == Dropped :: a == b)
            && (forall a | a in ids && out.clients[a] == Dropped ::
                  out.exit.OfFault? && Refuses(env, WholeLines(Cat(stream[..Admitted(stream, 0)])), a, out.exit.fault))
  {
    hide RunLines, Lines, LastLine, Cat, Admitted, Refuses;
    var cs := Fresh(ids);
    var body := Cat(stream[..Admitted(stream, 0)]);
    LeavesAtMostOne(env, cs, Lines(body));
    RefusesMore(env, Lines(body), LastLine(body));
    var run := RunLines(env, cs, Lines(body));
    if run.fault.None? {
      LeavesAtMostOne(env, run.clients, LastLine(body));
    }
  }

  lemma RefusesMore(env: Env, lines: seq<Bytes>, more: seq<Bytes>)
    ensures forall id, fault | Refuses(env, lines, id, fault) || Refuses(env, more, id, fault) ::
              Refuses(env, lines + more, id, fault)
  {
    hide ClientStep;
    forall id, fault | Refuses(env, lines, id, fault) || Refuses(env, more, id, fault)
      ensures Refuses(env, lines + more, id, fault)
    {
      assert forall line | line in lines || line in more :: line in lines + more;
    }
  }

  // ---------------------------------------------------------------------------------------------
  // The code
  // ---------------------------------------------------------------------------------------------

  lemma RunOne(env: Env, cs: Clients, line: Bytes)
    ensures RunLines(env, cs, [line]) == StepAll(env, cs, env.lib.parse(line))
  {
    var p := env.lib.parse(line);
    assert [line][1..] == [] && [p][1..] == [];
    assert ParseAll(env.lib, [line]) == [p];
    assert RunAll(env, cs, [p][1..]) == Ran(cs, None, 0);
    var s := StepAll(env, cs, p);
    assert RunAll(env, s.clients, [p][1..]) == Ran(s.clients, None, 0);
  }

  lemma RunNothing(env: Env, cs: Clients)
    ensures RunLines(env, cs, []) == SteppedAll(cs, None)
  {
  }

  method HandleLine(d: Dispatcher, line: Bytes) returns (fault: Option<Fault>)
    requires d.Valid()
    modifies d
    ensures d.Valid()
    ensures RunLines(d.env, old(d.Clients()), [line]) == SteppedAll(d.Clients(), fault)
  {
    var p := d.env.lib.parse(line);
    RunOne(d.env, d.Clients(), line);
    match p {
      case Err(e) => fault := Some(BadNdjson(e));
      case Ok(rec) => fault := d.DispatchStreamRecord(rec);
    }
  }

  /** One turn of the inner loop: the line that ends at `nl`. */
  method HandleNext(d: Dispatcher, buffer: Bytes, start: nat, nl: nat, ghost goal: SteppedAll)
    returns (fault: Option<Fault>)
    requires d.Valid() && start <= |buffer| && nl == FindLF(buffer, start) && nl < |buffer|
    requires RunLines(d.env, d.Clients(), Lines(buffer[start..])) == goal
    modifies d
    ensures d.Valid()
    ensures goal == if fault.Some? then SteppedAll(d.Clients(), fault)
                    else RunLines(d.env, d.Clients(), Lines(buffer[nl + 1..]))
    ensures Tail(buffer[start..]) == Tail(buffer[nl + 1..])
  {
    var line := StripCR(buffer[start..nl]);
    CutFirst(buffer, start, nl);
    ghost var rest := Lines(buffer[nl + 1..]);
    if line == [] {
      assert [] + rest == rest;
      return None;
    }
    RunLinesAppend(d.env, d.Clients(), [line], rest);
    fault := HandleLine(d, line);
  }

  /** The inner loop: every complete line of the buffer, then drop what was read. */
  method HandleBuffer(d: Dispatcher, input: Bytes) returns (buffer: Bytes, fault: Option<Fault>)
    requires d.Valid()
    modifies d
    ensures d.Valid()
    ensures RunLines(d.env, old(d.Clients()), Lines(input)) == SteppedAll(d.Clients(), fault)
    ensures fault.None? ==> buffer == Tail(input)
  {
    hide Terminated, Tail, Kept, RunAll, ParseAll, RunLines, Lines;
    var start: nat := 0;
    var nl := FindLF(input, start);
    assert input[start..] == input;
    ghost var goal, tail := RunLines(d.env, d.Clients(), Lines(input[start..])), Tail(input[start..]);
    while nl < |input|
      invariant start <= |input| && nl == FindLF(input, start)
      invariant d.Valid()
      invariant Tail(input[start..]) == tail
      invariant RunLines(d.env, d.Clients(), Lines(input[start..])) == goal
      decreases |input| - start
    {
      fault := HandleNext(d, input, start, nl, goal);
      if fault.Some? {
        buffer := input;
        return;
      }
      start := nl + 1;
      nl := FindLF(input, start);
    }
    CutNone(input, start);
    RunNothing(d.env, d.Clients());
    buffer := input[start..];
    fault := None;
  }

  lemma CutFirst(b: Bytes, start: nat, nl: nat)
    requires start <= |b| && nl == FindLF(b, start) && nl < |b|
    ensures var line := StripCR(b[start..nl]);
            Lines(b[start..]) == (if line == [] then [] else [line]) + Lines(b[nl + 1..])
    ensures Tail(b[start..]) == Tail(b[nl + 1..])
  {
    hide Terminated, Tail, StripCR;
    var piece, rest := b[start..nl], b[nl + 1..];
    assert b[start..] == piece + [LF] + rest;
    Framing.CutFirst(piece, rest);
    assert ([piece] + Terminated(rest))[1..] == Terminated(rest);
  }

  lemma CutNone(b: Bytes, start: nat)
    requires start <= |b| && FindLF(b, start) == |b|
    ensures Lines(b[start..]) == [] && Tail(b[start..]) == b[start..]
  {
    FindShift(b, start);
  }

  lemma FindShift(b: Bytes, start: nat)
    requires start <= |b|
    ensures FindLF(b[start..], 0) == FindLF(b, start) - start
  {
    assert forall i | 0 <= i < |b| - start :: b[start..][i] == b[start + i];
  }

  method HandleTail(d: Dispatcher, buffer: Bytes) returns (fault: Option<Fault>)
    requires d.Valid() && Tail(buffer) == buffer
    modifies d
    ensures d.Valid()
    ensures RunLines(d.env, old(d.Clients()), LastLine(buffer)) == SteppedAll(d.Clients(), fault)
  {
    var end := |buffer|;
    assert buffer[..end] == buffer;
    while end > 0 && (buffer[end - 1] == LF || buffer[end - 1] == CR)
      invariant end <= |buffer| && TrimEnd(buffer[..end]) == TrimEnd(buffer)
    {
      assert buffer[..end][..end - 1] == buffer[..end - 1];
      end := end - 1;
    }
    if end > 0 {
      assert LastLine(buffer) == [buffer[..end]];
      fault := HandleLine(d, buffer[..end]);
    } else {
      fault := None;
    }
  }

  /** `ids` are the keys of the pending map; `d` ends up with nothing pending. */
  method DispatchResponseStream(lib: Lib, waitMs: nat, alive: (Id, nat) -> bool, ids: set<Id>, stream: seq<Item>)
    returns (d: Dispatcher, exit: Message)
    ensures fresh(d) && d.Valid() && d.pending == map[] && d.env == Env(lib, Meta(|ids|, waitMs), alive)
    ensures Outcome(d.Clients(), exit) == Dispatched(d.env, Fresh(ids), stream)
  {
    d := new Dispatcher(lib, waitMs, alive, ids);
    hide RunLines, RunAll, ParseAll, AfterChunks, Dispatched, Terminated, Tail, Lines, LastLine;
    ghost var cs := d.Clients();
    AfterNothing(d.env, cs, stream);
    var buffer: Bytes := [];
    var i := 0;
    while i < |stream|
      invariant i <= Admitted(stream, 0) && fresh(d) && d.Valid()
      invariant buffer == Tail(Cat(stream[..i])) && NoLF(buffer) && |buffer| <= MAX_BUFFER_BYTES
      invariant AfterChunks(d.env, cs, stream, i) == SteppedAll(d.Clients(), None)
    {
      if stream[i].Failure? {
        ExitOnChunk(d.env, cs, stream, i);
        d.FailAllStream(StreamError);
        return d, StreamError;
      }
      if |buffer + stream[i].bytes| > MAX_BUFFER_BYTES {
        ExitOnChunk(d.env, cs, stream, i);
        d.FailAllStream(StreamTooLarge);
        return d, StreamTooLarge;
      }
      AfterStep(d.env, cs, stream, i);
      assert Fits(stream, i);
      var fault;
      buffer, fault := HandleBuffer(d, buffer + stream[i].bytes);
      i := i + 1;
      if fault.Some? {
        ExitOnFault(d.env, cs, stream, i);
        d.FailAllStream(OfFault(fault.value));
        return d, OfFault(fault.value);
      }
      BufferBetweenChunks(stream, i);
    }
    assert stream[..i] == stream;
    assert AfterChunks(d.env, cs, stream, |stream|) == SteppedAll(d.Clients(), None);
    ExitAtEnd(d.env, cs, stream);
    SpellTerminated(Cat(stream));
    Framing.CutNone(buffer);
    var fault := HandleTail(d, buffer);
    exit := if fault.Some? then OfFault(fault.value) else MissingRecord;
    d.FailAllStream(exit);
  }
}
