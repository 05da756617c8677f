/** Turning one collected batch into invocations that respect the payload limit. */
module Planning {
  import opened Wire

  /** A batch item: its id and its serialized event. */
  datatype BatchItem = BatchItem(id: Id, event: Bytes)

  /** `build_payload_bytes`; None is a serialization error. */
  type Encoder<!I> = seq<I> -> Option<Bytes>

  datatype Plan<T> =
    | Invoke(pending: map<Id, T>, payload: Bytes)
    | Fail(pending: map<Id, T>, status: nat, reason: Reason)

  function Ids(items: seq<BatchItem>): set<Id> {
    set i | 0 <= i < |items| :: items[i].id
  }

  ghost predicate DistinctIds(items: seq<BatchItem>) {
    forall i, j | 0 <= i < j < |items| :: items[i].id != items[j].id
  }

  function Restrict<T>(m: map<Id, T>, ids: set<Id>): map<Id, T> {
    map id | id in m && id in ids :: m[id]
  }

  predicate Accepts<I>(encode: Encoder<I>, limit: nat, items: seq<I>) {
    encode(items).Some? && |encode(items).value| <= limit
  }

  /** Nothing to halve. */
  predicate Whole<I>(encode: Encoder<I>, limit: nat, items: seq<I>) {
    encode(items).None? || Accepts(encode, limit, items) || |items| <= 1
  }

  /** The cut: a batch stays whole if it fits, cannot be encoded, or has nothing left to halve. */
  function Segments<I>(encode: Encoder<I>, limit: nat, items: seq<I>): (segments: seq<seq<I>>)
    ensures |segments| >= 1
    decreases |items|
  {
    if Whole(encode, limit, items) then [items]
    else
      var mid := |items| / 2;
      Segments(encode, limit, items[..mid]) + Segments(encode, limit, items[mid..])
  }

  function PlanFor<T>(encode: Encoder<BatchItem>, limit: nat, segment: seq<BatchItem>, pending: map<Id, T>): Plan<T> {
    match encode(segment)
    case None => Fail(pending, 500, EncodeFailed)
    case Some(payload) =>
      if |payload| <= limit then Invoke(pending, payload) else Fail(pending, BAD_GATEWAY, PayloadTooLarge)
  }

  /** One plan per segment, holding exactly the senders of that segment's items. */
  function Plans<T>(encode: Encoder<BatchItem>, limit: nat, segments: seq<seq<BatchItem>>, pending: map<Id, T>)
    : (plans: seq<Plan<T>>)
    ensures |plans| == |segments|
  {
    seq(|segments|, i requires 0 <= i < |segments| =>
      PlanFor(encode, limit, segments[i], Restrict(pending, Ids(segments[i]))))
  }

  // ---------------------------------------------------------------------------------------------
  // The code
  // ---------------------------------------------------------------------------------------------

  method SplitPending<T>(pending: map<Id, T>, leftItems: seq<BatchItem>) returns (left: map<Id, T>, right: map<Id, T>)
    ensures left == Restrict(pending, Ids(leftItems))
    ensures right == Restrict(pending, pending.Keys - Ids(leftItems))
  {
    left, right := map[], pending;
    var i := 0;
    while i < |leftItems|
      invariant i <= |leftItems|
      invariant left == Restrict(pending, Ids(leftItems[..i]))
      invariant right == Restrict(pending, pending.Keys - Ids(leftItems[..i]))
    {
      var id := leftItems[i].id;
      assert leftItems[..i + 1] == leftItems[..i] + [leftItems[i]];
      IdsAppend(leftItems[..i], [leftItems[i]]);
      assert Ids([leftItems[i]]) == {id} by { assert [leftItems[i]][0].id == id; }
      if id in right {
        left := left[id := right[id]];
        right := right - {id};
      }
      i := i + 1;
    }
    assert leftItems[..i] == leftItems;
  }

  method PlanInvocations<T>(encode: Encoder<BatchItem>, limit: nat, pending: map<Id, T>, items: seq<BatchItem>)
    returns (plans: seq<Plan<T>>)
    requires DistinctIds(items) && pending.Keys <= Ids(items)
    ensures plans == Plans(encode, limit, Segments(encode, limit, items), pending)
    decreases |items|
  {
    if Whole(encode, limit, items) {
      PlansWhole(encode, limit, items, pending);
    }
    match encode(items) {
      case None => return [Fail(pending, 500, EncodeFailed)];
      case Some(payload) =>
        if |payload| <= limit {
          return [Invoke(pending, payload)];
        }
        if |items| <= 1 {
          return [Fail(pending, BAD_GATEWAY, PayloadTooLarge)];
        }
    }
    hide Segments, Plans, PlanFor;
    var mid := |items| / 2;
    var leftItems, rightItems := items[..mid], items[mid..];
    HalvesDisjoint(items, mid);
    PlansSplit(encode, limit, items, pending);
    var leftPending, rightPending := SplitPending(pending, leftItems);
    assert rightPending == Restrict(pending, Ids(rightItems));
    plans := PlanInvocations(encode, limit, leftPending, leftItems);
    var rest := PlanInvocations(encode, limit, rightPending, rightItems);
    plans := plans + rest;
  }

  lemma PlansWhole<T>(encode: Encoder<BatchItem>, limit: nat, items: seq<BatchItem>, pending: map<Id, T>)
    requires pending.Keys <= Ids(items) && Whole(encode, limit, items)
    ensures Plans(encode, limit, Segments(encode, limit, items), pending) == [PlanFor(encode, limit, items, pending)]
  {
    assert Restrict(pending, Ids(items)) == pending;
  }

  lemma PlansSplit<T>(encode: Encoder<BatchItem>, limit: nat, items: seq<BatchItem>, pending: map<Id, T>)
    requires !Whole(encode, limit, items)
    ensures var left, right := items[..|items| / 2], items[|items| / 2..];
            Plans(encode, limit, Segments(encode, limit, items), pending) ==
            Plans(encode, limit, Segments(encode, limit, left), Restrict(pending, Ids(left)))
            + Plans(encode, limit, Segments(encode, limit, right), Restrict(pending, Ids(right)))
  {
    var left, right := items[..|items| / 2], items[|items| / 2..];
    var ls, rs := Segments(encode, limit, left), Segments(encode, limit, right);
    assert Segments(encode, limit, items) == ls + rs;
    PlansNarrow(encode, limit, ls, pending, Ids(left), left);
    PlansNarrow(encode, limit, rs, pending, Ids(right), right);
    hide Segments;
    PlansAppend(encode, limit, ls, rs, pending);
  }

  lemma PlansAppend<T>(encode: Encoder<BatchItem>, limit: nat, a: seq<seq<BatchItem>>, b: seq<seq<BatchItem>>,
                       pending: map<Id, T>)
    ensures Plans(encode, limit, a + b, pending) == Plans(encode, limit, a, pending) + Plans(encode, limit, b, pending)
  {
    hide PlanFor, Restrict, Ids;
  }

  lemma IdsAppend(a: seq<BatchItem>, b: seq<BatchItem>)
    ensures Ids(a + b) == Ids(a) + Ids(b)
  {
    forall id | id in Ids(a) + Ids(b) ensures id in Ids(a + b) {
      if id in Ids(a) {
        var i :| 0 <= i < |a| && a[i].id == id;
        assert (a + b)[i].id == id;
      } else {
        var i :| 0 <= i < |b| && b[i].id == id;
        assert (a + b)[|a| + i].id == id;
      }
    }
  }

  lemma HalvesDisjoint(items: seq<BatchItem>, mid: nat)
    requires DistinctIds(items) && mid <= |items|
    ensures Ids(items[..mid]) + Ids(items[mid..]) == Ids(items)
    ensures Ids(items[..mid]) !! Ids(items[mid..])
    ensures DistinctIds(items[..mid]) && DistinctIds(items[mid..])
  {
    assert items == items[..mid] + items[mid..];
    IdsAppend(items[..mid], items[mid..]);
  }

  /** Narrowing the senders to a half first makes no difference to the plans of that half. */
  lemma PlansNarrow<T>(encode: Encoder<BatchItem>, limit: nat, segments: seq<seq<BatchItem>>, pending: map<Id, T>,
                       ids: set<Id>, items: seq<BatchItem>)
    requires segments == Segments(encode, limit, items) && ids == Ids(items)
    ensures Plans(encode, limit, segments, Restrict(pending, ids)) == Plans(encode, limit, segments, pending)
  {
    forall i | 0 <= i < |segments|
      ensures Restrict(Restrict(pending, ids), Ids(segments[i])) == Restrict(pending, Ids(segments[i]))
    {
      SegmentInside(encode, limit, items, i);
    }
  }

  lemma {:induction false} SegmentInside(encode: Encoder<BatchItem>, limit: nat, items: seq<BatchItem>, i: nat)
    requires i < |Segments(encode, limit, items)|
    ensures Ids(Segments(encode, limit, items)[i]) <= Ids(items)
    decreases |items|
  {
    var segments := Segments(encode, limit, items);
    if segments != [items] {
      var mid := |items| / 2;
      var left := Segments(encode, limit, items[..mid]);
      assert items == items[..mid] + items[mid..];
      IdsAppend(items[..mid], items[mid..]);
      if i < |left| {
        SegmentInside(encode, limit, items[..mid], i);
      } else {
        SegmentInside(encode, limit, items[mid..], i - |left|);
      }
    }
  }

  // ---------------------------------------------------------------------------------------------
  // The plans partition the batch
  // ---------------------------------------------------------------------------------------------

  function Flatten<I>(segments: seq<seq<I>>): seq<I> {
    if segments == [] then [] else segments[0] + Flatten(segments[1..])
  }

  lemma {:induction false} FlattenAppend<I>(a: seq<seq<I>>, b: seq<seq<I>>)
    ensures Flatten(a + b) == Flatten(a) + Flatten(b)
  {
    if a == [] {
      assert a + b == b;
    } else {
      assert (a + b)[1..] == a[1..] + b;
      FlattenAppend(a[1..], b);
    }
  }

  /** The segments are the batch itself, in order, and none of a non-empty batch's is empty. */
  lemma {:induction false} SegmentsConcat<I>(encode: Encoder<I>, limit: nat, items: seq<I>)
    ensures Flatten(Segments(encode, limit, items)) == items
    ensures items != [] ==>
              forall i | 0 <= i < |Segments(encode, limit, items)| :: Segments(encode, limit, items)[i] != []
    decreases |items|
  {
    var segments := Segments(encode, limit, items);
    if Whole(encode, limit, items) {
      assert segments == [items] && segments[1..] == [];
      assert items + [] == items;
    } else {
      var mid := |items| / 2;
      SegmentsConcat(encode, limit, items[..mid]);
      SegmentsConcat(encode, limit, items[mid..]);
      FlattenAppend(Segments(encode, limit, items[..mid]), Segments(encode, limit, items[mid..]));
      assert items == items[..mid] + items[mid..];
    }
  }

  /** Two segments never share an id, so every sender lands in exactly one plan. */
  lemma {:induction false} SegmentsDisjoint(encode: Encoder<BatchItem>, limit: nat, items: seq<BatchItem>, i: nat,
                                            j: nat)
    requires DistinctIds(items) && i < j < |Segments(encode, limit, items)|
    ensures Ids(Segments(encode, limit, items)[i]) !! Ids(Segments(encode, limit, items)[j])
    decreases |items|
  {
    var mid := |items| / 2;
    var left, right := Segments(encode, limit, items[..mid]), Segments(encode, limit, items[mid..]);
    HalvesDisjoint(items, mid);
    if j < |left| {
      SegmentsDisjoint(encode, limit, items[..mid], i, j);
    } else if i >= |left| {
      SegmentsDisjoint(encode, limit, items[mid..], i - |left|, j - |left|);
    } else {
      SegmentInside(encode, limit, items[..mid], i);
      SegmentInside(encode, limit, items[mid..], j - |left|);
    }
  }

  lemma {:induction false} EveryIdPlanned(encode: Encoder<BatchItem>, limit: nat, items: seq<BatchItem>, id: Id)
    requires id in Ids(items)
    ensures exists i :: 0 <= i < |Segments(encode, limit, items)| && id in Ids(Segments(encode, limit, items)[i])
    decreases |items|
  {
    var segments := Segments(encode, limit, items);
    if segments == [items] {
      assert id in Ids(segments[0]);
    } else {
      var mid := |items| / 2;
      var left, right := Segments(encode, limit, items[..mid]), Segments(encode, limit, items[mid..]);
      assert items == items[..mid] + items[mid..];
      IdsAppend(items[..mid], items[mid..]);
      if id in Ids(items[..mid]) {
        EveryIdPlanned(encode, limit, items[..mid], id);
        var i :| 0 <= i < |left| && id in Ids(left[i]);
        assert segments[i] == left[i];
      } else {
        EveryIdPlanned(encode, limit, items[mid..], id);
        var i :| 0 <= i < |right| && id in Ids(right[i]);
        assert segments[|left| + i] == right[i];
      }
    }
  }

  /** Every plan fits the limit if it invokes, and holds senders of the batch unchanged. */
  ghost predicate Faithful<T>(plans: seq<Plan<T>>, limit: nat, pending: map<Id, T>) {
    forall i | 0 <= i < |plans| ::
      && (plans[i].Invoke? ==> |plans[i].payload| <= limit)
      && (forall id | id in plans[i].pending :: id in pending && plans[i].pending[id] == pending[id])
  }

  ghost predicate Partitions<T>(plans: seq<Plan<T>>, pending: map<Id, T>) {
    && (forall id | id in pending :: exists i :: 0 <= i < |plans| && id in plans[i].pending)
    && (forall i, j | 0 <= i < j < |plans| :: plans[i].pending.Keys !! plans[j].pending.Keys)
  }

  /** Conservation of the senders: each is in exactly one plan, unchanged; an Invoke fits the limit. */
  lemma {:induction false} PlansPartition<T>(encode: Encoder<BatchItem>, limit: nat, items: seq<BatchItem>,
                                             pending: map<Id, T>)
    requires DistinctIds(items) && pending.Keys == Ids(items)
    ensures Faithful(Plans(encode, limit, Segments(encode, limit, items), pending), limit, pending)
    ensures Partitions(Plans(encode, limit, Segments(encode, limit, items), pending), pending)
  {
    hide Segments, Plans, Ids, DistinctIds, Faithful;
    PlansFaithful(encode, limit, Segments(encode, limit, items), pending);
    var segments := Segments(encode, limit, items);
    var plans := Plans(encode, limit, segments, pending);
    forall id | id in pending ensures exists i :: 0 <= i < |plans| && id in plans[i].pending {
      EveryIdPlanned(encode, limit, items, id);
      var i :| 0 <= i < |segments| && id in Ids(segments[i]);
      PlanAt(encode, limit, segments, pending, i);
      assert id in plans[i].pending;
    }
    forall i, j | 0 <= i < j < |plans| ensures plans[i].pending.Keys !! plans[j].pending.Keys {
      SegmentsDisjoint(encode, limit, items, i, j);
      PlanAt(encode, limit, segments, pending, i);
      PlanAt(encode, limit, segments, pending, j);
    }
  }

  lemma PlansFaithful<T>(encode: Encoder<BatchItem>, limit: nat, segments: seq<seq<BatchItem>>, pending: map<Id, T>)
    ensures Faithful(Plans(encode, limit, segments, pending), limit, pending)
  {
    hide Plans, Ids;
    forall i | 0 <= i < |segments|
      ensures var plan := Plans(encode, limit, segments, pending)[i];
              && plan.pending == Restrict(pending, Ids(segments[i]))
              && (plan.Invoke? ==> |plan.payload| <= limit)
    {
      PlanAt(encode, limit, segments, pending, i);
    }
  }

  lemma PlanAt<T>(encode: Encoder<BatchItem>, limit: nat, segments: seq<seq<BatchItem>>, pending: map<Id, T>, i: nat)
    requires i < |segments|
    ensures var plan := Plans(encode, limit, segments, pending)[i];
            && plan == PlanFor(encode, limit, segments[i], Restrict(pending, Ids(segments[i])))
            && plan.pending == Restrict(pending, Ids(segments[i]))
            && (plan.Invoke? ==> |plan.payload| <= limit)
  {
  }

  // ---------------------------------------------------------------------------------------------
  // Which items fail, and how many invocations a split costs
  // ---------------------------------------------------------------------------------------------

  function EventBytes(items: seq<BatchItem>): nat {
    if items == [] then 0 else |items[0].event| + EventBytes(items[1..])
  }

  /** The JSON payload: an envelope, the events, and the commas between them. */
  ghost predicate Additive(encode: Encoder<BatchItem>, envelope: nat) {
    forall items {:trigger encode(items)} ::
      && encode(items).Some?
      && |encode(items).value| == envelope + EventBytes(items) + (if items == [] then 0 else |items| - 1)
  }

  lemma {:induction false} EventBytesAppend(a: seq<BatchItem>, b: seq<BatchItem>)
    ensures EventBytes(a + b) == EventBytes(a) + EventBytes(b)
  {
    if a == [] {
      assert a + b == b;
    } else {
      assert (a + b)[1..] == a[1..] + b;
      EventBytesAppend(a[1..], b);
    }
  }

  /** A part of a batch never needs more bytes than the batch. */
  lemma PartIsSmaller(encode: Encoder<BatchItem>, envelope: nat, limit: nat, a: seq<BatchItem>, b: seq<BatchItem>)
    requires Additive(encode, envelope) && Accepts(encode, limit, a + b)
    ensures Accepts(encode, limit, a) && Accepts(encode, limit, b)
  {
    EventBytesAppend(a, b);
    assert encode(a).Some? && encode(b).Some?;
  }

  /** The plan an item falls into refuses it exactly when the item alone is over the limit. */
  lemma {:induction false} FailsIffTooLargeAlone(encode: Encoder<BatchItem>, envelope: nat, limit: nat,
                                                 items: seq<BatchItem>, i: nat, j: nat)
    requires Additive(encode, envelope)
    requires i < |Segments(encode, limit, items)| && j < |Segments(encode, limit, items)[i]|
    ensures var segment := Segments(encode, limit, items)[i];
            !Accepts(encode, limit, segment) <==> !Accepts(encode, limit, [segment[j]])
    decreases |items|
  {
    var segments := Segments(encode, limit, items);
    assert encode(items).Some?;
    if Accepts(encode, limit, items) || |items| <= 1 {
      assert segments == [items];
      assert items == items[..j] + ([items[j]] + items[j + 1..]);
      if Accepts(encode, limit, items) {
        PartIsSmaller(encode, envelope, limit, items[..j], [items[j]] + items[j + 1..]);
        PartIsSmaller(encode, envelope, limit, [items[j]], items[j + 1..]);
      } else {
        assert items == [items[j]];
      }
    } else {
      var mid := |items| / 2;
      var left := Segments(encode, limit, items[..mid]);
      if i < |left| {
        FailsIffTooLargeAlone(encode, envelope, limit, items[..mid], i, j);
      } else {
        FailsIffTooLargeAlone(encode, envelope, limit, items[mid..], i - |left|, j);
      }
    }
  }

  /** Every run of at most `k` neighbours fits. */
  ghost predicate WindowsFit(encode: Encoder<BatchItem>, limit: nat, items: seq<BatchItem>, k: nat) {
    forall lo: nat, hi: nat | lo <= hi <= |items| && hi - lo <= k :: Accepts(encode, limit, items[lo..hi])
  }

  lemma SliceOfSlice<X>(s: seq<X>, from: nat, to: nat, lo: nat, hi: nat)
    requires from <= to <= |s| && lo <= hi <= to - from
    ensures s[from..to][lo..hi] == s[from + lo..from + hi]
  {
    var part := s[from..to];
    assert forall i | lo <= i < hi :: part[i] == s[from + i];
    assert part[lo..hi] == s[from + lo..from + hi];
  }

  lemma WindowsFitPart(encode: Encoder<BatchItem>, limit: nat, items: seq<BatchItem>, k: nat, from: nat, to: nat)
    requires WindowsFit(encode, limit, items, k) && from <= to <= |items|
    ensures WindowsFit(encode, limit, items[from..to], k)
  {
    forall lo: nat, hi: nat | lo <= hi <= to - from && hi - lo <= k
      ensures Accepts(encode, limit, items[from..to][lo..hi])
    {
      SliceOfSlice(items, from, to, lo, hi);
    }
  }

  ghost predicate AtLeast(segments: seq<seq<BatchItem>>, h: nat) {
    forall i | 0 <= i < |segments| :: |segments[i]| >= h
  }

  ghost predicate AllAccepted(encode: Encoder<BatchItem>, limit: nat, segments: seq<seq<BatchItem>>) {
    forall i | 0 <= i < |segments| :: Accepts(encode, limit, segments[i])
  }

  /** If k neighbours always fit, nothing fails and a split never makes pieces below (k+1)/2 items. */
  lemma {:induction false} SplitEfficiency(encode: Encoder<BatchItem>, limit: nat, items: seq<BatchItem>, k: nat)
    requires k >= 1 && WindowsFit(encode, limit, items, k)
    requires forall s {:trigger encode(s)} :: encode(s).Some?
    ensures var segments, h := Segments(encode, limit, items), (k + 1) / 2;
            && AllAccepted(encode, limit, segments)
            && (|segments| > 1 ==> AtLeast(segments, h) && |segments| * h <= |items|)
    decreases |items|
  {
    assert items[0..|items|] == items;
    if !Whole(encode, limit, items) {
      assert |items| > k;
      var mid, h := |items| / 2, (k + 1) / 2;
      var left, right := Segments(encode, limit, items[..mid]), Segments(encode, limit, items[mid..]);
      WindowsFitPart(encode, limit, items, k, 0, mid);
      WindowsFitPart(encode, limit, items, k, mid, |items|);
      assert items[0..mid] == items[..mid] && items[mid..|items|] == items[mid..];
      assert Segments(encode, limit, items) == left + right;
      hide WindowsFit, Segments, Accepts;
      SplitEfficiency(encode, limit, items[..mid], k);
      SplitEfficiency(encode, limit, items[mid..], k);
      hide AtLeast;
      HalfIsEnough(encode, limit, items[..mid], h);
      HalfIsEnough(encode, limit, items[mid..], h);
      JoinHalves(left, right, h);
    }
  }

  lemma JoinHalves(left: seq<seq<BatchItem>>, right: seq<seq<BatchItem>>, h: nat)
    requires AtLeast(left, h) && AtLeast(right, h)
    ensures AtLeast(left + right, h) && |left + right| * h == |left| * h + |right| * h
  {
  }

  lemma HalfIsEnough(encode: Encoder<BatchItem>, limit: nat, items: seq<BatchItem>, h: nat)
    requires |items| >= h
    requires var segments := Segments(encode, limit, items);
             |segments| > 1 ==> AtLeast(segments, h) && |segments| * h <= |items|
    ensures var segments := Segments(encode, limit, items);
            AtLeast(segments, h) && |segments| * h <= |items|
  {
    var segments := Segments(encode, limit, items);
    if |segments| == 1 {
      assert Whole(encode, limit, items);
    }
  }

  // ---------------------------------------------------------------------------------------------
  // Batch-size accounting
  // ---------------------------------------------------------------------------------------------

  /** The batch size each item's response reports, item by item. */
  function ReportedSizes<I>(segments: seq<seq<I>>): seq<nat> {
    if segments == [] then []
    else seq(|segments[0]|, _ => |segments[0]|) + ReportedSizes(segments[1..])
  }

  ghost predicate AllPositive(sizes: seq<nat>) {
    forall i | 0 <= i < |sizes| :: sizes[i] > 0
  }

  /** The benchmark's estimate: one over the batch size, summed over the responses that carry one. */
  function InvocationUnits(sizes: seq<nat>): real {
    if sizes == [] then 0.0
    else (if sizes[0] > 0 then 1.0 / sizes[0] as real else 0.0) + InvocationUnits(sizes[1..])
  }

  lemma AddFraction(n: nat, m: nat)
    requires n > 0 && m > 0
    ensures m as real / n as real == 1.0 / n as real + (m - 1) as real / n as real
    ensures n as real / n as real == 1.0
  {
  }

  lemma {:induction false} UnitsOfOne(n: nat, m: nat, rest: seq<nat>)
    requires n > 0 && m <= n
    ensures InvocationUnits(seq(m, _ => n) + rest) == m as real / n as real + InvocationUnits(rest)
  {
    var sizes := seq(m, _ => n) + rest;
    if m == 0 {
      assert sizes == rest;
    } else {
      assert sizes[0] == n && sizes[1..] == seq(m - 1, _ => n) + rest;
      UnitsOfOne(n, m - 1, rest);
      AddFraction(n, m);
    }
  }

  lemma {:induction false} UnitsCountSegments<I>(segments: seq<seq<I>>)
    requires forall i | 0 <= i < |segments| :: segments[i] != []
    ensures AllPositive(ReportedSizes(segments))
    ensures InvocationUnits(ReportedSizes(segments)) == |segments| as real
  {
    if segments == [] {
    } else {
      var n, rest := |segments[0]|, ReportedSizes(segments[1..]);
      UnitsCountSegments(segments[1..]);
      assert ReportedSizes(segments) == seq(n, _ => n) + rest;
      hide InvocationUnits, ReportedSizes;
      UnitsOfOne(n, n, rest);
      AddFraction(n, n);
    }
  }

  /** `batch_size` is the number of senders of the plan; with distinct ids that is the plan's item
      count, so the estimate is exactly the number of plans of the batch. */
  lemma {:induction false} UnitsCountPlans<T>(encode: Encoder<BatchItem>, limit: nat, items: seq<BatchItem>,
                                              pending: map<Id, T>)
    requires items != [] && DistinctIds(items) && pending.Keys == Ids(items)
    ensures var segments := Segments(encode, limit, items);
            var plans := Plans(encode, limit, segments, pending);
            && (forall i | 0 <= i < |plans| :: |plans[i].pending| == |segments[i]|)
            && AllPositive(ReportedSizes(segments))
            && InvocationUnits(ReportedSizes(segments)) == |plans| as real
  {
    hide Segments, InvocationUnits, ReportedSizes, Plans, Ids;
    var segments := Segments(encode, limit, items);
    SegmentsConcat(encode, limit, items);
    UnitsCountSegments(segments);
    forall i | 0 <= i < |segments|
      ensures |Plans(encode, limit, segments, pending)[i].pending| == |segments[i]|
    {
      PlanAt(encode, limit, segments, pending, i);
      SegmentInside(encode, limit, items, i);
      SegmentDistinct(encode, limit, items, i);
      assert Restrict(pending, Ids(segments[i])).Keys == Ids(segments[i]);
      IdsCount(segments[i]);
    }
  }

  lemma {:induction false} SegmentDistinct(encode: Encoder<BatchItem>, limit: nat, items: seq<BatchItem>, i: nat)
    requires DistinctIds(items) && i < |Segments(encode, limit, items)|
    ensures DistinctIds(Segments(encode, limit, items)[i])
    decreases |items|
  {
    var segments := Segments(encode, limit, items);
    if segments != [items] {
      var mid := |items| / 2;
      var left := Segments(encode, limit, items[..mid]);
      HalvesDisjoint(items, mid);
      if i < |left| {
        SegmentDistinct(encode, limit, items[..mid], i);
      } else {
        SegmentDistinct(encode, limit, items[mid..], i - |left|);
      }
    }
  }

  lemma {:induction false} IdsCount(items: seq<BatchItem>)
    requires DistinctIds(items)
    ensures |Ids(items)| == |items|
  {
    if items != [] {
      var front, last := items[..|items| - 1], items[|items| - 1];
      IdsCount(front);
      assert items == front + [last];
      IdsAppend(front, [last]);
      assert Ids([last]) == {last.id} by { assert [last][0].id == last.id; }
    } else {
      assert Ids(items) == {};
    }
  }
}
