/** From the producers' records, over every merge and every chunking of the bytes, to the clients. */
module EndToEnd {
  import opened Wire
  import opened Framing
  import opened Demux
  import opened StreamDispatch
  import opened Select
  import opened Adapter

  /** The serializer: one clean line per record, which the gateway parses back. */
  ghost predicate EncoderLaw(lib: Lib, encode: Record -> Bytes, recs: seq<Record>) {
    forall r | r in recs :: CleanLine(encode(r)) && lib.parse(encode(r)) == Ok(r)
  }

  function Records(log: seq<(nat, Record)>): (recs: seq<Record>)
    ensures |recs| == |log|
  {
    if log == [] then [] else Records(log[..|log| - 1]) + [log[|log| - 1].1]
  }

  function EncodeAll(encode: Record -> Bytes, recs: seq<Record>): seq<Bytes> {
    if recs == [] then [] else [encode(recs[0])] + EncodeAll(encode, recs[1..])
  }

  function AllOk(recs: seq<Record>): (ps: seq<Parsed>)
    ensures |ps| == |recs|
  {
    if recs == [] then [] else [Ok(recs[0])] + AllOk(recs[1..])
  }

  /** Every item's stream carries that item's id only. */
  ghost predicate Tagged(ids: seq<Id>, streams: seq<seq<Record>>) {
    && |ids| == |streams|
    && forall k: nat, r: Record | k < |streams| && r in streams[k] :: r.id == ids[k]
  }

  lemma {:induction false} EncodedParse(lib: Lib, encode: Record -> Bytes, recs: seq<Record>)
    requires EncoderLaw(lib, encode, recs)
    ensures ParseAll(lib, EncodeAll(encode, recs)) == AllOk(recs)
    ensures forall line | line in EncodeAll(encode, recs) :: CleanLine(line)
  {
    if recs == [] {
    } else {
      EncodedParse(lib, encode, recs[1..]);
      assert recs[0] in recs;
      var lines := EncodeAll(encode, recs);
      assert lines[0] == encode(recs[0]) && lines[1..] == EncodeAll(encode, recs[1..]);
    }
  }

  lemma {:induction false} OwnAppend(a: seq<Parsed>, b: seq<Parsed>, id: Id)
    ensures Own(a + b, id) == Own(a, id) + Own(b, id)
  {
    if a == [] {
      assert a + b == b;
    } else {
      assert (a + b)[1..] == a[1..] + b;
      OwnAppend(a[1..], b, id);
    }
  }

  lemma {:induction false} AllOkAppend(a: seq<Record>, r: Record)
    ensures AllOk(a + [r]) == AllOk(a) + [Ok(r)]
    ensures forall p | p in AllOk(a) :: p.Ok?
  {
    if a == [] {
      assert a + [r] == [r] && [r][1..] == [];
    } else {
      assert (a + [r])[1..] == a[1..] + [r];
      AllOkAppend(a[1..], r);
    }
  }

  /** In a merge of tagged streams, the records with an item's id are that item's stream. */
  lemma {:induction false} OwnIsProjection(ids: seq<Id>, log: seq<(nat, Record)>, k: nat)
    requires NoRepeats(ids) && k < |ids|
    requires forall e | e in log :: e.0 < |ids| && e.1.id == ids[e.0]
    ensures Own(AllOk(Records(log)), ids[k]) == Project(log, k)
  {
    if log == [] {
    } else {
      var front, last := log[..|log| - 1], log[|log| - 1];
      OwnIsProjection(ids, front, k);
      AllOkAppend(Records(front), last.1);
      var p: Parsed := Ok(last.1);
      OwnAppend(AllOk(Records(front)), [p], ids[k]);
      assert last in log && [p][1..] == [];
    }
  }

  lemma {:induction false} OwnElsewhere(ids: seq<Id>, log: seq<(nat, Record)>, id: Id)
    requires forall e | e in log :: e.0 < |ids| && e.1.id == ids[e.0]
    requires id !in ids
    ensures Own(AllOk(Records(log)), id) == []
  {
    if log == [] {
    } else {
      var front, last := log[..|log| - 1], log[|log| - 1];
      OwnElsewhere(ids, front, id);
      AllOkAppend(Records(front), last.1);
      var p: Parsed := Ok(last.1);
      OwnAppend(AllOk(Records(front)), [p], id);
      assert last in log && [p][1..] == [];
    }
  }

  lemma {:induction false} ProjectIn(log: seq<(nat, Record)>, e: (nat, Record))
    requires e in log
    ensures e.1 in Project(log, e.0)
  {
    var front, last := log[..|log| - 1], log[|log| - 1];
    if e != last {
      assert e in front;
      ProjectIn(front, e);
    }
  }

  lemma LogTagged(ids: seq<Id>, streams: seq<seq<Record>>, log: seq<(nat, Record)>)
    requires Tagged(ids, streams) && Merges(streams, log)
    ensures forall e | e in log :: e.0 < |ids| && e.1.id == ids[e.0]
  {
    forall e | e in log ensures e.0 < |ids| && e.1.id == ids[e.0] {
      ProjectIn(log, e);
      assert Project(log, e.0) == streams[e.0];
    }
  }

  /** The records of a run, framed from bytes cut into any chunks that fit, act as if the record
      list itself had been run. */
  lemma {:induction false} Framed(env: Env, encode: Record -> Bytes, cs: Clients, recs: seq<Record>, stream: seq<Item>)
    requires EncoderLaw(env.lib, encode, recs)
    requires Admitted(stream, 0) == |stream| && Writes(Cat(stream), EncodeAll(encode, recs))
    ensures var r := RunAll(env, cs, AllOk(recs));
            Dispatched(env, cs, stream) ==
            Finish(env, r.clients, if r.fault.Some? then OfFault(r.fault.value) else MissingRecord)
  {
    EncodedParse(env.lib, encode, recs);
    WholeLinesIff(Cat(stream), EncodeAll(encode, recs));
    ChunkingInvariance(env, cs, stream, stream);
  }

  ghost predicate OwnFault(env: Env, streams: seq<seq<Record>>, k: nat)
    requires k < |streams|
  {
    RunClient(env, Waiting, streams[k]).fault.Some?
  }

  /** The general delivery theorem. For every merge of the producers' streams and every chunking of
      its bytes: the dispatch faults exactly when some producer's own records fault, and if none
      does every client ends with the run of its own producer's records. */
  lemma {:induction false} Delivery(env: Env, encode: Record -> Bytes, ids: seq<Id>, streams: seq<seq<Record>>,
                                    log: seq<(nat, Record)>, stream: seq<Item>)
    requires NoRepeats(ids) && Tagged(ids, streams) && Merges(streams, log)
    requires EncoderLaw(env.lib, encode, Records(log))
    requires Admitted(stream, 0) == |stream| && Writes(Cat(stream), EncodeAll(encode, Records(log)))
    ensures var out := Dispatched(env, Fresh(Elements(ids)), stream);
            && (out.exit.OfFault? <==> exists k: nat :: k < |streams| && OwnFault(env, streams, k))
            && (!out.exit.OfFault? ==>
                  forall k: nat | k < |ids| ::
                    out.clients[ids[k]] == FailClient(env, MissingRecord, RunClient(env, Waiting, streams[k]).client))
  {
    var cs, ps := Fresh(Elements(ids)), AllOk(Records(log));
    Framed(env, encode, cs, Records(log), stream);
    hide Dispatched, Writes, EncoderLaw, EncodeAll, Admitted, ClientFaults, OwnFault, RunClient;
    assert Dispatched(env, cs, stream).exit.OfFault? <==> RunAll(env, cs, ps).fault.Some?;
    hide RunAll;
    LogTagged(ids, streams, log);
    forall k: nat | k < |ids| ensures Own(ps, ids[k]) == streams[k] {
      OwnIsProjection(ids, log, k);
    }
    FaultIff(env, cs, ps);
    NoneUnparsable(Records(log));
    FaultSource(env, ids, streams, log);
    if RunAll(env, cs, ps).fault.None? {
      forall k: nat | k < |ids|
        ensures RunAll(env, cs, ps).clients[ids[k]] == RunClient(env, Waiting, streams[k]).client
      {
        NonInterference(env, cs, ps, ids[k]);
      }
    }
  }

  lemma {:induction false} NoneUnparsable(recs: seq<Record>)
    ensures !Unparsable(AllOk(recs))
  {
    if recs == [] {
    } else {
      NoneUnparsable(recs[1..]);
      assert AllOk(recs)[1..] == AllOk(recs[1..]);
    }
  }

  lemma ProducerFault(env: Env, ids: seq<Id>, streams: seq<seq<Record>>, log: seq<(nat, Record)>, k: nat)
    requires NoRepeats(ids) && Tagged(ids, streams) && Merges(streams, log) && k < |ids|
    ensures ClientFaults(env, Fresh(Elements(ids)), AllOk(Records(log)), ids[k]) <==> OwnFault(env, streams, k)
  {
    hide RunClient, Own, AllOk, Records, Project;
    LogTagged(ids, streams, log);
    OwnIsProjection(ids, log, k);
    assert ids[k] in Elements(ids);
  }

  lemma StrangerFault(env: Env, ids: seq<Id>, streams: seq<seq<Record>>, log: seq<(nat, Record)>, id: Id)
    requires Tagged(ids, streams) && Merges(streams, log) && id !in ids
    ensures !ClientFaults(env, Fresh(Elements(ids)), AllOk(Records(log)), id)
  {
    hide RunClient, Own, AllOk, Records, Project;
    LogTagged(ids, streams, log);
    OwnElsewhere(ids, log, id);
    NoRecordsNoFault(env, Dropped);
  }

  /** Only producers can be the source of a fault. */
  lemma FaultSource(env: Env, ids: seq<Id>, streams: seq<seq<Record>>, log: seq<(nat, Record)>)
    requires NoRepeats(ids) && Tagged(ids, streams) && Merges(streams, log)
    ensures (exists id :: ClientFaults(env, Fresh(Elements(ids)), AllOk(Records(log)), id)) <==>
            exists k: nat :: k < |streams| && OwnFault(env, streams, k)
  {
    hide ClientFaults, OwnFault, Merges, AllOk, Records, Fresh, Elements;
    var cs, ps := Fresh(Elements(ids)), AllOk(Records(log));
    if id :| ClientFaults(env, cs, ps, id) {
      if id !in ids {
        StrangerFault(env, ids, streams, log, id);
      }
      var k :| 0 <= k < |ids| && ids[k] == id;
      ProducerFault(env, ids, streams, log, k);
    }
    if k: nat :| k < |streams| && OwnFault(env, streams, k) {
      ProducerFault(env, ids, streams, log, k);
    }
  }

  lemma NoRecordsNoFault(env: Env, c: Client)
    ensures RunClient(env, c, []) == Stepped(c, None)
  {
  }

  // ---------------------------------------------------------------------------------------------
  // The interleaved adapter
  // ---------------------------------------------------------------------------------------------

  function AdapterStreams(lib: Lib, ids: seq<Id>, handled: seq<Handled>): (streams: seq<seq<Record>>)
    requires |ids| == |handled|
    ensures |streams| == |ids|
  {
    seq(|ids|, k requires 0 <= k < |ids| => StreamRecords(lib, ids[k], handled[k]))
  }

  lemma AdapterTagged(lib: Lib, ids: seq<Id>, handled: seq<Handled>)
    requires |ids| == |handled|
    ensures Tagged(ids, AdapterStreams(lib, ids, handled))
  {
    forall k: nat | k < |ids| ensures forall r | r in StreamRecords(lib, ids[k], handled[k]) :: r.id == ids[k] {
      StreamRecordsId(lib, ids[k], handled[k]);
    }
  }

  /** The sweep at the end of the stream finds nothing left to do for a served client. */
  lemma ItemEnds(env: Env, id: Id, handled: Handled)
    requires Base64Law(env.lib)
    ensures var r := RunClient(env, Waiting, StreamRecords(env.lib, id, handled));
            var c := FailClient(env, MissingRecord, r.client);
            && (Deliverable(env.lib, handled) ==>
                  && r.fault.None? && ServedUntilGone(env, handled, c)
                  && (Listening(env, id) ==> c == Served(env, handled)))
            && (Listening(env, id) && !Deliverable(env.lib, handled) ==> r.fault.Some?)
  {
    ItemRun(env, id, handled);
    hide StreamRecords, RunClient, Deliverable;
  }

  /** What each handler returned is what its client sees, for every schedule of the adapter and
      every chunking of the bytes, also while other clients hang up. One answer that cannot be
      passed on to a client that still listens spoils the whole stream. */
  lemma {:induction false} AdapterEndToEnd(env: Env, encode: Record -> Bytes, ids: seq<Id>, handled: seq<Handled>,
                                           log: seq<(nat, Record)>, stream: seq<Item>)
    requires NoRepeats(ids) && |ids| == |handled| && Base64Law(env.lib)
    requires Merges(AdapterStreams(env.lib, ids, handled), log)
    requires EncoderLaw(env.lib, encode, Records(log))
    requires Admitted(stream, 0) == |stream| && Writes(Cat(stream), EncodeAll(encode, Records(log)))
    ensures var out := Dispatched(env, Fresh(Elements(ids)), stream);
            && ((forall k: nat | k < |ids| :: Deliverable(env.lib, handled[k])) ==>
                  && !out.exit.OfFault?
                  && forall k: nat | k < |ids| ::
                       && ServedUntilGone(env, handled[k], out.clients[ids[k]])
                       && (Listening(env, ids[k]) ==> out.clients[ids[k]] == Served(env, handled[k])))
            && ((exists k: nat :: k < |ids| && Listening(env, ids[k]) && !Deliverable(env.lib, handled[k])) ==>
                  out.exit.OfFault?)
  {
    var streams := AdapterStreams(env.lib, ids, handled);
    AdapterTagged(env.lib, ids, handled);
    Delivery(env, encode, ids, streams, log, stream);
    hide Dispatched, Served, ServedUntilGone, Deliverable, StreamRecords, RunClient, FailClient;
    forall k: nat | k < |ids|
      ensures Deliverable(env.lib, handled[k]) ==>
                && !OwnFault(env, streams, k)
                && var c := FailClient(env, MissingRecord, RunClient(env, Waiting, streams[k]).client);
                   ServedUntilGone(env, handled[k], c) && (Listening(env, ids[k]) ==> c == Served(env, handled[k]))
      ensures Listening(env, ids[k]) && !Deliverable(env.lib, handled[k]) ==> OwnFault(env, streams, k)
    {
      ItemEnds(env, ids[k], handled[k]);
    }
  }
}
