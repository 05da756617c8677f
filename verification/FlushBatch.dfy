/** `flush_batch`: from the requests of a batch to the maps of sinks that the invocations carry. */
module FlushBatch {
  import opened Wire
  import Demux
  import opened Planning
  import opened Jobs
  import opened Pipeline

  ghost predicate DistinctReqs(reqs: seq<Request>) {
    forall i, j | 0 <= i < j < |reqs| :: reqs[i].id != reqs[j].id
  }

  /** The sinks by id, a later one replacing an earlier one of the same id. */
  function SinksOf(reqs: seq<Request>): map<Id, Request> {
    if reqs == [] then map[] else SinksOf(reqs[..|reqs| - 1])[reqs[|reqs| - 1].id := reqs[|reqs| - 1]]
  }

  /** The requests whose sink is of this kind. */
  function OfKind(reqs: seq<Request>, mode: Mode): seq<Request> {
    if reqs == [] then []
    else
      var last := reqs[|reqs| - 1];
      OfKind(reqs[..|reqs| - 1], mode) + (if last.sink == mode then [last] else [])
  }

  lemma SnocKind(reqs: seq<Request>, i: nat, mode: Mode)
    requires i < |reqs|
    ensures OfKind(reqs[..i + 1], mode) == OfKind(reqs[..i], mode) + (if reqs[i].sink == mode then [reqs[i]] else [])
    ensures SinksOf(OfKind(reqs[..i + 1], mode)) ==
            if reqs[i].sink == mode then SinksOf(OfKind(reqs[..i], mode))[reqs[i].id := reqs[i]]
            else SinksOf(OfKind(reqs[..i], mode))
  {
    assert reqs[..i + 1][..i] == reqs[..i];
    var before, upTo := OfKind(reqs[..i], mode), reqs[..i + 1];
    assert upTo[|upTo| - 1] == reqs[i] && upTo[..|upTo| - 1] == reqs[..i];
    if reqs[i].sink == mode {
      assert (before + [reqs[i]])[..|before|] == before;
    } else {
      assert before + [] == before;
    }
  }

  lemma {:induction false} KindInside(reqs: seq<Request>, mode: Mode)
    ensures SinksOf(OfKind(reqs, mode)).Keys <= ReqIds(reqs)
  {
    if reqs == [] {
    } else {
      var n := |reqs| - 1;
      KindInside(reqs[..n], mode);
      SnocKind(reqs, n, mode);
      assert reqs[..n + 1] == reqs;
      assert forall i | 0 <= i < n :: reqs[..n][i] == reqs[i];
    }
  }

  lemma ItemIds(cfg: Config, reqs: seq<Request>)
    ensures Ids(ItemsOf(cfg, reqs)) == ReqIds(reqs)
    ensures DistinctReqs(reqs) ==> DistinctIds(ItemsOf(cfg, reqs))
  {
    var items := ItemsOf(cfg, reqs);
    forall id | id in ReqIds(reqs) ensures id in Ids(items) {
      var i :| 0 <= i < |reqs| && reqs[i].id == id;
      assert items[i].id == id;
    }
  }

  lemma NoSinksYet(batch: seq<Request>)
    ensures forall mode :: SinksOf(OfKind(batch[..0], mode)) == map[]
  {
  }

  /** Sinks of the other kind are failed at once; the plans share out those of the batch's own mode. */
  method Flush(cfg: Config, mode: Mode, batch: seq<Request>)
    returns (plans: seq<Plan<Request>>, strays: map<Id, Request>)
    requires DistinctReqs(batch)
    ensures strays == SinksOf(OfKind(batch, if mode == BufferedMode then StreamMode else BufferedMode))
    ensures plans == Plans(cfg.encode, cfg.limit, Segments(cfg.encode, cfg.limit, ItemsOf(cfg, batch)),
                           SinksOf(OfKind(batch, mode)))
  {
    var pendingBuffered: map<Id, Request>, pendingStream: map<Id, Request>, items: seq<BatchItem> := map[], map[], [];
    var i := 0;
    NoSinksYet(batch);
    hide SinksOf, OfKind;
    while i < |batch|
      invariant i <= |batch|
      invariant pendingBuffered == SinksOf(OfKind(batch[..i], BufferedMode))
      invariant pendingStream == SinksOf(OfKind(batch[..i], StreamMode))
      invariant items == ItemsOf(cfg, batch)[..i]
    {
      SnocKind(batch, i, BufferedMode);
      SnocKind(batch, i, StreamMode);
      var req := batch[i];
      match req.sink {
        case BufferedMode => pendingBuffered := pendingBuffered[req.id := req];
        case StreamMode => pendingStream := pendingStream[req.id := req];
      }
      items := items + [BatchItem(req.id, cfg.event(req))];
      i := i + 1;
    }
    assert batch[..i] == batch && items == ItemsOf(cfg, batch);
    ItemIds(cfg, batch);
    KindInside(batch, mode);
    hide Plans, Segments;
    if mode == BufferedMode {
      strays := pendingStream;
      plans := PlanInvocations(cfg.encode, cfg.limit, pendingBuffered, items);
    } else {
      strays := pendingBuffered;
      plans := PlanInvocations(cfg.encode, cfg.limit, pendingStream, items);
    }
  }

  // ---------------------------------------------------------------------------------------------
  // The plans carry the parcels' sinks
  // ---------------------------------------------------------------------------------------------

  lemma IdsOfFront(reqs: seq<Request>)
    requires reqs != [] && DistinctReqs(reqs)
    ensures var n := |reqs| - 1;
            && ReqIds(reqs) == ReqIds(reqs[..n]) + {reqs[n].id} && DistinctReqs(reqs[..n])
            && forall i | 0 <= i < n :: reqs[i].id != reqs[n].id
  {
    var n := |reqs| - 1;
    assert forall i | 0 <= i < n :: reqs[..n][i] == reqs[i];
    forall id | id in ReqIds(reqs) ensures id in ReqIds(reqs[..n]) + {reqs[n].id} {
      var i :| 0 <= i < |reqs| && reqs[i].id == id;
      if i < n {
        assert reqs[..n][i].id == id;
      }
    }
  }

  lemma OneMoreSink(reqs: seq<Request>, sinks: map<Id, Request>, last: Request)
    requires forall i | 0 <= i < |reqs| :: reqs[i].id in sinks && sinks[reqs[i].id] == reqs[i]
    requires forall i | 0 <= i < |reqs| :: reqs[i].id != last.id
    ensures var all, more := reqs + [last], sinks[last.id := last];
            forall i | 0 <= i < |all| :: all[i].id in more && more[all[i].id] == all[i]
  {
  }

  lemma {:induction false} SinksDistinct(reqs: seq<Request>)
    requires DistinctReqs(reqs)
    ensures SinksOf(reqs).Keys == ReqIds(reqs)
    ensures forall i | 0 <= i < |reqs| :: reqs[i].id in SinksOf(reqs) && SinksOf(reqs)[reqs[i].id] == reqs[i]
  {
    if reqs == [] {
    } else {
      var front, last := reqs[..|reqs| - 1], reqs[|reqs| - 1];
      IdsOfFront(reqs);
      assert SinksOf(reqs) == SinksOf(front)[last.id := last];
      hide ReqIds, DistinctReqs, SinksOf;
      SinksDistinct(front);
      OneMoreSink(front, SinksOf(front), last);
      assert reqs == front + [last];
    }
  }

  /** Cutting the items and cutting the requests is the same cut. */
  lemma {:induction false} SameCut(cfg: Config, reqs: seq<Request>)
    ensures var parcels := Segments(Encode(cfg), cfg.limit, reqs);
            var segments := Segments(cfg.encode, cfg.limit, ItemsOf(cfg, reqs));
            |parcels| == |segments| && forall i | 0 <= i < |parcels| :: segments[i] == ItemsOf(cfg, parcels[i])
    decreases |reqs|
  {
    var items := ItemsOf(cfg, reqs);
    assert Encode(cfg)(reqs) == cfg.encode(items);
    if Whole(Encode(cfg), cfg.limit, reqs) {
      assert Whole(cfg.encode, cfg.limit, items);
    } else {
      var mid := |reqs| / 2;
      assert ItemsOf(cfg, reqs[..mid]) == items[..mid] && ItemsOf(cfg, reqs[mid..]) == items[mid..];
      SameCut(cfg, reqs[..mid]);
      SameCut(cfg, reqs[mid..]);
    }
  }

  /** Every parcel consists of requests of the batch, without repetition. */
  lemma {:induction false} ParcelInside(encode: Encoder<Request>, limit: nat, reqs: seq<Request>, i: nat)
    requires i < |Segments(encode, limit, reqs)| && DistinctReqs(reqs)
    ensures DistinctReqs(Segments(encode, limit, reqs)[i])
    ensures forall r | r in Segments(encode, limit, reqs)[i] :: r in reqs
    decreases |reqs|
  {
    if Whole(encode, limit, reqs) {
    } else {
      var mid := |reqs| / 2;
      var left := Segments(encode, limit, reqs[..mid]);
      assert reqs == reqs[..mid] + reqs[mid..];
      if i < |left| {
        ParcelInside(encode, limit, reqs[..mid], i);
      } else {
        ParcelInside(encode, limit, reqs[mid..], i - |left|);
      }
    }
  }

  lemma NarrowedSinks(reqs: seq<Request>, parcel: seq<Request>)
    requires DistinctReqs(reqs) && DistinctReqs(parcel) && forall r | r in parcel :: r in reqs
    ensures Restrict(SinksOf(reqs), ReqIds(parcel)) == SinksOf(parcel)
  {
    SinksDistinct(reqs);
    SinksDistinct(parcel);
    hide SinksOf;
    forall id | id in ReqIds(parcel) ensures id in SinksOf(reqs) && SinksOf(reqs)[id] == SinksOf(parcel)[id] {
      var i :| 0 <= i < |parcel| && parcel[i].id == id;
      assert parcel[i] in reqs;
    }
  }

  /** Each plan of a flushed batch holds exactly the sinks of its own parcel, and is carried out or
      failed as the parcel is. */
  lemma PlansHoldParcels(cfg: Config, batch: seq<Request>, waitMs: nat, i: nat)
    requires DistinctReqs(batch) && i < |Segments(Encode(cfg), cfg.limit, batch)|
    ensures var parcel := Segments(Encode(cfg), cfg.limit, batch)[i];
            var plans := Plans(cfg.encode, cfg.limit, Segments(cfg.encode, cfg.limit, ItemsOf(cfg, batch)),
                               SinksOf(batch));
            && |plans| == |Segments(Encode(cfg), cfg.limit, batch)|
            && plans[i].pending == SinksOf(parcel)
            && plans[i].pending.Keys == ReqIds(parcel) && |plans[i].pending| == |parcel|
            && match ParcelReply(cfg, false, parcel, waitMs)
               case None => plans[i] == Invoke(SinksOf(parcel), Encode(cfg)(parcel).value)
               case Some(reply) => plans[i].Fail? && reply.status == plans[i].status
                                   && reply.body == Text(NotInvoked(plans[i].reason))
  {
    SameCut(cfg, batch);
    ParcelInside(Encode(cfg), cfg.limit, batch, i);
    var parcel := Segments(Encode(cfg), cfg.limit, batch)[i];
    NarrowedSinks(batch, parcel);
    SinksDistinct(parcel);
    ItemIds(cfg, parcel);
    CountIds(parcel);
    var segments := Segments(cfg.encode, cfg.limit, ItemsOf(cfg, batch));
    hide Plans, Segments, SinksOf, Ids, ReqIds, DistinctReqs, ItemsOf;
    PlanAt(cfg.encode, cfg.limit, segments, SinksOf(batch), i);
    assert Encode(cfg)(parcel) == cfg.encode(ItemsOf(cfg, parcel));
    assert Plans(cfg.encode, cfg.limit, segments, SinksOf(batch))[i]
           == PlanFor(cfg.encode, cfg.limit, segments[i], SinksOf(parcel));
  }

  lemma {:induction false} CountIds(reqs: seq<Request>)
    requires DistinctReqs(reqs)
    ensures |ReqIds(reqs)| == |reqs|
  {
    if reqs == [] {
      assert ReqIds(reqs) == {};
    } else {
      var n := |reqs| - 1;
      IdsOfFront(reqs);
      CountIds(reqs[..n]);
      assert forall i | 0 <= i < n :: reqs[..n][i].id != reqs[n].id;
    }
  }

  // ---------------------------------------------------------------------------------------------
  // Batch-size accounting
  // ---------------------------------------------------------------------------------------------

  /** What happens to a plan: whether it meets a full job queue, and what its invocation comes to. */
  datatype Fate = Fate(full: bool, outcome: Outcome)

  /** Where the clients of one parcel end: refused at once, or as its job makes them. */
  function ParcelEnds(cfg: Config, key: Key, waitMs: nat, parcel: seq<Request>, fate: Fate): Demux.Clients {
    match ParcelReply(cfg, fate.full, parcel, waitMs)
    case Some(reply) => AllEnd(parcel, Demux.Answered(reply))
    case None => EndsOf(cfg, Running(Job(key, parcel, waitMs), fate.outcome))
  }

  /** Every request of the parcel gets a response that carries metadata. */
  ghost predicate AllSeen(parcel: seq<Request>, ends: Demux.Clients) {
    forall i | 0 <= i < |parcel| :: parcel[i].id in ends && SizeSeen(ends[parcel[i].id]).Some?
  }

  /** The batch sizes that the responses to the requests of a parcel carry, request by request. */
  ghost function SizesSeen(parcel: seq<Request>, ends: Demux.Clients): seq<nat>
    requires AllSeen(parcel, ends)
  {
    seq(|parcel|, i requires 0 <= i < |parcel| => SizeSeen(ends[parcel[i].id]).value)
  }

  ghost predicate EveryParcelSeen(cfg: Config, key: Key, waitMs: nat, parcels: seq<seq<Request>>, fates: seq<Fate>) {
    && |fates| == |parcels|
    && forall i | 0 <= i < |parcels| :: AllSeen(parcels[i], ParcelEnds(cfg, key, waitMs, parcels[i], fates[i]))
  }

  lemma ParcelsAfterFirst(cfg: Config, key: Key, waitMs: nat, parcels: seq<seq<Request>>, fates: seq<Fate>)
    requires EveryParcelSeen(cfg, key, waitMs, parcels, fates) && parcels != []
    ensures AllSeen(parcels[0], ParcelEnds(cfg, key, waitMs, parcels[0], fates[0]))
    ensures EveryParcelSeen(cfg, key, waitMs, parcels[1..], fates[1..])
  {
    hide AllSeen, ParcelEnds;
    assert forall i | 0 <= i < |parcels| - 1 :: parcels[1..][i] == parcels[i + 1] && fates[1..][i] == fates[i + 1];
  }

  /** All the sizes seen by the clients of one batch. */
  ghost function AllSizes(cfg: Config, key: Key, waitMs: nat, parcels: seq<seq<Request>>, fates: seq<Fate>): seq<nat>
    requires EveryParcelSeen(cfg, key, waitMs, parcels, fates)
  {
    if parcels == [] then []
    else
      ParcelsAfterFirst(cfg, key, waitMs, parcels, fates);
      SizesSeen(parcels[0], ParcelEnds(cfg, key, waitMs, parcels[0], fates[0]))
      + AllSizes(cfg, key, waitMs, parcels[1..], fates[1..])
  }

  lemma ParcelReportsItsSize(cfg: Config, key: Key, waitMs: nat, parcel: seq<Request>, fate: Fate)
    requires DistinctReqs(parcel)
    ensures AllStamped(Meta(|parcel|, waitMs), ParcelEnds(cfg, key, waitMs, parcel, fate))
  {
    CountIds(parcel);
    if ParcelReply(cfg, fate.full, parcel, waitMs).None? {
      JobReportsItsSize(cfg.lib, cfg.alive, key.mode, ReqIds(parcel), waitMs, fate.outcome);
    }
    hide JobEnds, ReqIds, Encode;
  }

  lemma OneParcelSizes(cfg: Config, key: Key, waitMs: nat, parcel: seq<Request>, fate: Fate)
    requires DistinctReqs(parcel) && AllSeen(parcel, ParcelEnds(cfg, key, waitMs, parcel, fate))
    ensures SizesSeen(parcel, ParcelEnds(cfg, key, waitMs, parcel, fate)) == seq(|parcel|, _ => |parcel|)
  {
    ParcelReportsItsSize(cfg, key, waitMs, parcel, fate);
    hide ParcelEnds;
    var ends := ParcelEnds(cfg, key, waitMs, parcel, fate);
    forall i | 0 <= i < |parcel| ensures SizeSeen(ends[parcel[i].id]).value == |parcel| {
      assert Stamped(Meta(|parcel|, waitMs), ends[parcel[i].id]);
    }
  }

  lemma {:induction false} SizesAreReported(cfg: Config, key: Key, waitMs: nat, parcels: seq<seq<Request>>,
                                            fates: seq<Fate>)
    requires EveryParcelSeen(cfg, key, waitMs, parcels, fates)
    requires forall i | 0 <= i < |parcels| :: DistinctReqs(parcels[i])
    ensures AllSizes(cfg, key, waitMs, parcels, fates) == ReportedSizes(parcels)
  {
    if parcels == [] {
    } else {
      ParcelsAfterFirst(cfg, key, waitMs, parcels, fates);
      OneParcelSizes(cfg, key, waitMs, parcels[0], fates[0]);
      hide ParcelEnds, SizesSeen, DistinctReqs, AllSeen;
      SizesAreReported(cfg, key, waitMs, parcels[1..], fates[1..]);
    }
  }

  /** If every request of a flushed batch gets a response that carries metadata, be its plan refused or
      whatever its invocation came to, one over the batch size read off the responses sums up to the
      number of plans. */
  lemma UnitsOfResponses(cfg: Config, key: Key, waitMs: nat, batch: seq<Request>, fates: seq<Fate>)
    requires batch != [] && DistinctReqs(batch)
    requires EveryParcelSeen(cfg, key, waitMs, Segments(Encode(cfg), cfg.limit, batch), fates)
    ensures var parcels := Segments(Encode(cfg), cfg.limit, batch);
            InvocationUnits(AllSizes(cfg, key, waitMs, parcels, fates)) == |parcels| as real
  {
    var parcels := Segments(Encode(cfg), cfg.limit, batch);
    SegmentsConcat(Encode(cfg), cfg.limit, batch);
    forall i | 0 <= i < |parcels| ensures DistinctReqs(parcels[i]) {
      ParcelInside(Encode(cfg), cfg.limit, batch, i);
    }
    hide Segments, EveryParcelSeen, DistinctReqs, InvocationUnits, ReportedSizes;
    SizesAreReported(cfg, key, waitMs, parcels, fates);
    UnitsCountSegments(parcels);
  }
}
