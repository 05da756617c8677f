/** `ConcurrentSelect`: a bounded number of streams polled together, merged in arrival order. */
module Select {
  datatype Poll<+T> = Ready(item: T) | Finished | Pending

  /** The items that stream `k` contributed to a merged log, in order. */
  function Project<T>(log: seq<(nat, T)>, k: nat): seq<T> {
    if log == [] then []
    else
      var last := log[|log| - 1];
      Project(log[..|log| - 1], k) + (if last.0 == k then [last.1] else [])
  }

  /** `log` is a complete merge: it interleaves the streams, keeps each one's order, loses nothing
      and invents nothing. */
  ghost predicate Merges<T(!new)>(streams: seq<seq<T>>, log: seq<(nat, T)>) {
    && (forall e | e in log :: e.0 < |streams|)
    && (forall k: nat | k < |streams| :: Project(log, k) == streams[k])
  }

  lemma ProjectSnoc<T>(log: seq<(nat, T)>, k: nat, j: nat, x: T)
    ensures Project(log + [(j, x)], k) == Project(log, k) + (if j == k then [x] else [])
  {
    assert (log + [(j, x)])[..|log|] == log;
  }

  class ConcurrentSelect<T(!new)> {
    /** What each item's stream yields over its life. */
    const streams: seq<seq<T>>
    const limit: nat
    /** Position of the iterator that makes the streams. */
    var next: nat
    /** The `SelectAll` set: the started streams and what they still hold. */
    var active: map<nat, seq<T>>
    var exhausted: bool
    ghost var log: seq<(nat, T)>

    constructor (streams: seq<seq<T>>, concurrency: nat)
      ensures Valid() && this.streams == streams && log == []
      ensures limit == if concurrency < 1 then 1 else concurrency
    {
      this.streams := streams;
      limit := if concurrency < 1 then 1 else concurrency;
      next, active, exhausted, log := 0, map[], false, [];
    }

    ghost function Remaining(k: nat): seq<T>
      requires k < |streams|
      reads this
    {
      if k in active then active[k] else if k < next then [] else streams[k]
    }

    ghost predicate Valid()
      reads this
    {
      && limit >= 1 && |active| <= limit && next <= |streams|
      && (exhausted ==> next == |streams|)
      && (forall k | k in active :: k < next)
      && (forall e | e in log :: e.0 < |streams|)
      && (forall k: nat | k < |streams| :: Project(log, k) + Remaining(k) == streams[k])
    }

    method StartNext()
      requires Valid() && next < |streams| && |active| < limit
      modifies this`next, this`active
      ensures Valid() && next == old(next) + 1 && active.Keys == old(active).Keys + {old(next)}
    {
      hide Project;
      ghost var k := next;
      assert k !in active && Remaining(k) == streams[k];
      active := active[next := streams[next]];
      next := next + 1;
      assert forall j: nat | j < |streams| :: Remaining(j) == old(Remaining(j));
    }

    /** Top the set up to the limit. */
    method Fill()
      requires Valid()
      modifies this
      ensures Valid() && log == old(log) && next >= old(next)
      ensures exhausted || |active| == limit
      ensures next == old(next) && exhausted == old(exhausted) ==> active == old(active)
      ensures old(exhausted) ==> exhausted && next == old(next)
      ensures forall k | k in active :: k in old(active) || k >= old(next)
    {
      hide Project;
      while !exhausted && |active| < limit
        invariant Valid() && log == old(log) && next >= old(next)
        invariant next == old(next) && exhausted == old(exhausted) ==> active == old(active)
        invariant old(exhausted) ==> exhausted && next == old(next)
        invariant forall k | k in active :: k in old(active) || k >= old(next)
        decreases |streams| - next, !exhausted
      {
        if next < |streams| {
          StartNext();
        } else {
          exhausted := true;
        }
      }
    }

    /** One poll of the set. `ready` lists the streams that wake up, in the order they are seen;
        ended streams leave the set, the first item found is handed out. */
    method SelectAllPoll(ready: seq<nat>) returns (r: Poll<T>, left: seq<nat>)
      requires Valid()
      modifies this`active, this`log
      ensures Valid()
      ensures |active| <= |old(active)|
      ensures r.Finished? <==> active == map[] && !r.Ready?
      ensures r.Pending? ==> forall k | k in ready :: k !in active
      ensures active.Keys <= old(active).Keys
      ensures match r
              case Ready(x) => exists k: nat :: log == old(log) + [(k, x)]
              case _ => log == old(log)
    {
      left := ready;
      while left != []
        invariant Valid() && log == old(log) && |active| <= |old(active)| && active.Keys <= old(active).Keys
        invariant forall k | k in ready :: k in left || k !in active
        decreases |left|
      {
        var k := left[0];
        left := left[1..];
        if k in active {
          if active[k] == [] {
            assert active.Keys == (active - {k}).Keys + {k};
            active := active - {k};
          } else {
            var x := active[k][0];
            Emit(k);
            return Ready(x), left;
          }
        }
      }
      r := if active == map[] then Finished else Pending;
    }

    method Emit(k: nat)
      requires Valid() && k in active && active[k] != []
      modifies this`active, this`log
      ensures Valid() && active.Keys == old(active).Keys && |active| == |old(active)|
      ensures log == old(log) + [(k, old(active)[k][0])]
    {
      var x := active[k][0];
      forall j: nat | j < |streams| {
        ProjectSnoc(log, j, k, x);
      }
      active := active[k := active[k][1..]];
      log := log + [(k, x)];
    }

    method PollNext(ready: seq<nat>) returns (r: Poll<T>)
      requires Valid()
      modifies this
      ensures Valid()
      ensures match r
              case Ready(x) => exists k: nat :: log == old(log) + [(k, x)]
              case _ => log == old(log)
      ensures r.Finished? ==> Merges(streams, log)
      ensures r.Pending? ==> active != map[] && forall k | k in ready && k in old(active) :: k !in active
    {
      var left := ready;
      while true
        invariant Valid() && log == old(log) && next >= old(next)
        invariant forall k | k in active :: k in old(active) || k >= old(next)
        invariant forall k | k in ready && k in old(active) :: k in left || k !in active
        decreases |streams| - next, !exhausted, |active|
      {
        Fill();
        r, left := SelectAllPoll(left);
        match r {
          case Ready(_) => return;
          case Pending => return;
          case Finished =>
            if exhausted {
              return;
            }
        }
      }
    }
  }
}
