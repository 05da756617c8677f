/** The adapters' worker pools, over every order in which handlers finish. */
module Pool {
  import opened Wire

  /** What a pool does to its items, in order. */
  datatype Happening = Opened(index: nat) | Finished(index: nat)

  function Opens(log: seq<Happening>): nat {
    if log == [] then 0 else Opens(log[..|log| - 1]) + (if log[|log| - 1].Opened? then 1 else 0)
  }

  function InFlight(log: seq<Happening>): set<nat> {
    if log == [] then {}
    else
      var before, last := InFlight(log[..|log| - 1]), log[|log| - 1];
      if last.Opened? then before + {last.index} else before - {last.index}
  }

  /** Items are opened once each, in order, never more than `limit` at a time, and only what is open
      is finished. */
  ghost predicate Orderly(log: seq<Happening>, limit: nat) {
    log != [] ==> Orderly(log[..|log| - 1], limit) && MayFollow(log[..|log| - 1], limit, log[|log| - 1])
  }

  predicate MayFollow(log: seq<Happening>, limit: nat, h: Happening) {
    match h
    case Opened(i) => i == Opens(log) && |InFlight(log)| < limit
    case Finished(i) => i in InFlight(log)
  }

  /** The whole life of `n` items in a pool of the given size. */
  ghost predicate Completes(log: seq<Happening>, limit: nat, n: nat) {
    Orderly(log, limit) && Opens(log) == n && InFlight(log) == {}
  }

  lemma LogSnoc(log: seq<Happening>, limit: nat, h: Happening)
    ensures Opens(log + [h]) == Opens(log) + (if h.Opened? then 1 else 0)
    ensures InFlight(log + [h]) == if h.Opened? then InFlight(log) + {h.index} else InFlight(log) - {h.index}
    ensures Orderly(log + [h], limit) <==> Orderly(log, limit) && MayFollow(log, limit, h)
  {
    assert (log + [h])[..|log|] == log;
  }

  /** How often an item is finished. */
  function FinishCount(log: seq<Happening>, i: nat): nat {
    if log == [] then 0 else FinishCount(log[..|log| - 1], i) + (if log[|log| - 1] == Finished(i) then 1 else 0)
  }

  /** An orderly log finishes an item exactly once or, while it is open or to come, not at all. */
  lemma {:induction false} FinishedOnce(log: seq<Happening>, limit: nat, i: nat)
    requires Orderly(log, limit)
    ensures FinishCount(log, i) == if i < Opens(log) && i !in InFlight(log) then 1 else 0
    ensures i in InFlight(log) ==> i < Opens(log)
    ensures |InFlight(log)| <= limit
  {
    if log == [] {
    } else {
      var before := log[..|log| - 1];
      FinishedOnce(before, limit, i);
      var last := log[|log| - 1];
      if last.Finished? {
        FinishedOnce(before, limit, last.index);
      }
    }
  }

  // ---------------------------------------------------------------------------------------------
  // The Rust adapter: a window of futures
  // ---------------------------------------------------------------------------------------------

  /** Finished indices hold their records, the others nothing yet. */
  ghost predicate Stored<R>(records: seq<R>, out: seq<Option<R>>, next: nat, inflight: set<nat>) {
    && next <= |records| == |out|
    && (forall i | i in inflight :: i < next)
    && (forall i: nat | i < |out| :: out[i] == if i < next && i !in inflight then Some(records[i]) else None)
  }

  /** A pool that has opened the first `next` items, has `inflight` open, and holds the other results. */
  ghost predicate Window<R>(records: seq<R>, out: seq<Option<R>>, log: seq<Happening>, limit: nat,
                            next: nat, inflight: set<nat>)
  {
    Stored(records, out, next, inflight) && Orderly(log, limit) && Opens(log) == next && InFlight(log) == inflight
  }

  /** `normalize_concurrency(concurrency).min(len.max(1))` */
  function PoolLimit(concurrency: nat, n: nat): (limit: nat)
    ensures limit == if concurrency < 1 || n < 1 then 1 else if n < concurrency then n else concurrency
  {
    var wanted, useful := if concurrency < 1 then 1 else concurrency, if n < 1 then 1 else n;
    if wanted < useful then wanted else useful
  }

  /** `BatchAdapter::handle`: `records[i]` is what item i's handler makes; any handler in flight may
      be the next to return. */
  method Handle<R>(records: seq<R>, concurrency: nat) returns (responses: seq<R>, log: seq<Happening>)
    ensures responses == records
    ensures Completes(log, PoolLimit(concurrency, |records|), |records|)
  {
    var n := |records|;
    var limit := PoolLimit(concurrency, n);
    var out: seq<Option<R>> := seq(n, _ => None);
    var next, inflight: set<nat> := 0, {};
    log := [];
    NothingStored(records, out, limit);
    hide Window, Completes;
    while next < n || inflight != {}
      invariant Window(records, out, log, limit, next, inflight) && next <= n
      decreases 2 * (n - next) + |inflight|
    {
      ghost var before := 2 * (n - next) + |inflight|;
      while next < n && |inflight| < limit
        invariant Window(records, out, log, limit, next, inflight) && next <= n
        invariant next < n || inflight != {}
        invariant 2 * (n - next) + |inflight| <= before
      {
        Starts(records, out, log, limit, next, inflight);
        log := log + [Opened(next)];
        inflight := inflight + {next};
        next := next + 1;
      }
      var done :| done in inflight;
      Ends(records, out, log, limit, next, inflight, done);
      log := log + [Finished(done)];
      out := out[done := Some(records[done])];
      inflight := inflight - {done};
    }
    AllFinished(records, out, log, limit);
    responses := Collect(records, out);
  }

  lemma NothingStored<R>(records: seq<R>, out: seq<Option<R>>, limit: nat)
    requires out == seq(|records|, _ => None)
    ensures Window(records, out, [], limit, 0, {})
  {
  }

  /** Opening the next item if there is room ... */
  lemma Starts<R>(records: seq<R>, out: seq<Option<R>>, log: seq<Happening>, limit: nat, next: nat, inflight: set<nat>)
    requires Window(records, out, log, limit, next, inflight) && next < |records| && |inflight| < limit
    ensures Window(records, out, log + [Opened(next)], limit, next + 1, inflight + {next}) && next !in inflight
  {
    hide Orderly, Opens, InFlight;
    LogSnoc(log, limit, Opened(next));
  }

  /** ... and finishing an open one keep the window. */
  lemma Ends<R>(records: seq<R>, out: seq<Option<R>>, log: seq<Happening>, limit: nat, next: nat, inflight: set<nat>,
                done: nat)
    requires Window(records, out, log, limit, next, inflight) && done in inflight
    ensures done < |records| == |out|
    ensures Window(records, out[done := Some(records[done])], log + [Finished(done)], limit, next, inflight - {done})
  {
    hide Orderly, Opens, InFlight;
    LogSnoc(log, limit, Finished(done));
  }

  lemma AllFinished<R>(records: seq<R>, out: seq<Option<R>>, log: seq<Happening>, limit: nat)
    requires Window(records, out, log, limit, |records|, {})
    ensures Stored(records, out, |records|, {}) && Completes(log, limit, |records|)
  {
  }

  /** `out.into_iter().flatten().collect()` when every slot is filled. */
  function Collect<R>(ghost records: seq<R>, out: seq<Option<R>>): (values: seq<R>)
    requires Stored(records, out, |records|, {})
    ensures values == records
  {
    seq(|out|, i requires 0 <= i < |out| => out[i].value)
  }

  // ---------------------------------------------------------------------------------------------
  // The Node adapter: worker loops over a shared counter
  // ---------------------------------------------------------------------------------------------

  datatype Worker = Starting | Busy(index: nat) | Exited

  function Live(workers: seq<Worker>): nat {
    if workers == [] then 0 else (if workers[0].Exited? then 0 else 1) + Live(workers[1..])
  }

  lemma {:induction false} LiveUpdate(workers: seq<Worker>, w: nat, worker: Worker)
    requires w < |workers| && !workers[w].Exited?
    ensures Live(workers[w := worker]) == Live(workers) - (if worker.Exited? then 1 else 0)
  {
    if w == 0 {
      assert workers[w := worker][1..] == workers[1..];
    } else {
      assert workers[w := worker][1..] == workers[1..][w - 1 := worker];
      LiveUpdate(workers[1..], w - 1, worker);
    }
  }

  /** What the busy workers are busy with. */
  function BusyWith(workers: seq<Worker>): set<nat> {
    set w | 0 <= w < |workers| && workers[w].Busy? :: workers[w].index
  }

  ghost predicate OneOwnerEach(workers: seq<Worker>) {
    forall v, w | 0 <= v < w < |workers| && workers[v].Busy? && workers[w].Busy? :: workers[v].index != workers[w].index
  }

  /** A worker that is not busy leaves room for one more. */
  lemma {:induction false} BusyRoom(workers: seq<Worker>)
    ensures |BusyWith(workers)| <= |workers|
    ensures (exists w :: 0 <= w < |workers| && !workers[w].Busy?) ==> |BusyWith(workers)| < |workers|
  {
    if workers == [] {
      assert BusyWith(workers) == {};
    } else {
      var front, last := workers[..|workers| - 1], workers[|workers| - 1];
      BusyRoom(front);
      assert forall w | 0 <= w < |workers| :: workers[w] == if w < |front| then front[w] else last;
      BusySnoc(front, last);
      assert workers == front + [last];
    }
  }

  lemma RoomForOne(workers: seq<Worker>, w: nat)
    requires w < |workers| && !workers[w].Busy?
    ensures |BusyWith(workers)| < |workers|
  {
    BusyRoom(workers);
  }

  lemma BusySnoc(front: seq<Worker>, last: Worker)
    ensures BusyWith(front + [last]) == if last.Busy? then BusyWith(front) + {last.index} else BusyWith(front)
  {
    var all := front + [last];
    assert forall w | 0 <= w < |front| :: all[w] == front[w];
    forall i | i in BusyWith(front) ensures i in BusyWith(all) {
      var w :| 0 <= w < |front| && front[w].Busy? && front[w].index == i;
      assert all[w].index == i;
    }
    if last.Busy? {
      assert all[|front|].index == last.index;
    }
  }

  lemma BusyUpdate(workers: seq<Worker>, w: nat, worker: Worker)
    requires w < |workers| && OneOwnerEach(workers)
    requires worker.Busy? ==> worker.index !in BusyWith(workers)
    ensures OneOwnerEach(workers[w := worker])
    ensures workers[w].Busy? ==> workers[w].index in BusyWith(workers)
    ensures var others := if workers[w].Busy? then BusyWith(workers) - {workers[w].index} else BusyWith(workers);
            BusyWith(workers[w := worker]) == if worker.Busy? then others + {worker.index} else others
  {
    var after := workers[w := worker];
    forall i | i in BusyWith(workers) && !(workers[w].Busy? && workers[w].index == i) ensures i in BusyWith(after) {
      var v :| 0 <= v < |workers| && workers[v].Busy? && workers[v].index == i;
      assert after[v].index == i;
    }
    if worker.Busy? {
      assert after[w].index == worker.index;
    }
  }

  function Mapped<T, R>(items: seq<T>, fn: T -> R): (out: seq<R>)
    ensures |out| == |items|
  {
    seq(|items|, i requires 0 <= i < |items| => fn(items[i]))
  }

  /** `mapConcurrent`: workers share a counter, each claims the next index when its last call is done. */
  class WorkerPool<T, R> {
    const items: seq<T>
    const fn: T -> R
    var next: nat
    var out: seq<Option<R>>
    var workers: seq<Worker>
    ghost var log: seq<Happening>

    constructor (items: seq<T>, concurrency: nat, fn: T -> R)
      requires concurrency >= 1
      ensures Valid() && this.items == items && this.fn == fn && log == []
      ensures |workers| == PoolSize(concurrency, |items|)
      ensures Remaining() == |items| + |workers|
    {
      this.items, this.fn, next := items, fn, 0;
      out := seq(|items|, _ => None);
      var n := if concurrency < |items| then concurrency else |items|;
      workers := seq(n, _ => Starting);
      log := [];
      new;
      AllLive(n);
      NothingStored(Mapped(items, fn), out, n);
    }

    ghost predicate Valid()
      reads this
    {
      Sound(Claimed()) && forall w | 0 <= w < |workers| && workers[w].Exited? :: next >= |items|
    }

    /** The workers, the log and the results agree, with `claimed` items counted off. */
    ghost predicate Sound(claimed: nat)
      reads this
    {
      && |workers| <= |items| && (items != [] ==> workers != []) && OneOwnerEach(workers)
      && Window(Mapped(items, fn), out, log, |workers|, claimed, BusyWith(workers))
    }

    function Claimed(): (n: nat)
      reads this
      ensures n <= |items|
    {
      if next < |items| then next else |items|
    }

    /** Turns left until every worker has exited. */
    ghost function Remaining(): nat
      reads this
    {
      |items| - Claimed() + Live(workers)
    }

    /** One stretch of worker `w` between two awaits: store the result awaited, claim the next item. */
    method Turn(w: nat)
      requires Valid() && w < |workers| && !workers[w].Exited?
      modifies this
      ensures Valid() && |workers| == |old(workers)|
      ensures Remaining() == old(Remaining()) - 1
      ensures log == old(log) + (if old(workers)[w].Busy? then [Finished(old(workers)[w].index)] else [])
                     + (if old(next) < |items| then [Opened(old(next))] else [])
    {
      hide Live, Window, BusyWith, OneOwnerEach;
      if workers[w].Busy? {
        Deliver(w);
      }
      Claim(w);
    }

    /** `out[i] = await fn(items[i], i)`: the worker is free again. */
    method Deliver(w: nat)
      requires Valid() && w < |workers| && workers[w].Busy?
      modifies this`out, this`workers, this`log
      ensures Valid() && workers == old(workers)[w := Starting] && Live(workers) == Live(old(workers))
      ensures log == old(log) + [Finished(old(workers)[w].index)]
    {
      hide Live, Window, BusyWith, OneOwnerEach;
      var done := workers[w].index;
      BusyUpdate(workers, w, Starting);
      LiveUpdate(workers, w, Starting);
      Ends(Mapped(items, fn), out, log, |workers|, Claimed(), BusyWith(workers), done);
      out := out[done := Some(fn(items[done]))];
      workers := workers[w := Starting];
      log := log + [Finished(done)];
    }

    /** `const i = next++; if (i >= items.length) return;` */
    method Claim(w: nat)
      requires Valid() && w < |workers| && workers[w].Starting?
      modifies this`next, this`workers, this`log
      ensures Valid() && next == old(next) + 1 && |workers| == |old(workers)|
      ensures Live(workers) == Live(old(workers)) - (if old(next) < |items| then 0 else 1)
      ensures log == old(log) + (if old(next) < |items| then [Opened(old(next))] else [])
    {
      hide Live, Window, BusyWith, OneOwnerEach;
      var i := next;
      next := next + 1;
      if i >= |items| {
        Retire(w);
      } else {
        TakeItem(w, i);
      }
    }

    method Retire(w: nat)
      requires Valid() && w < |workers| && workers[w].Starting? && next >= |items|
      modifies this`workers
      ensures Valid() && workers == old(workers)[w := Exited] && Live(workers) == Live(old(workers)) - 1
    {
      hide Live, Window, BusyWith, OneOwnerEach;
      BusyUpdate(workers, w, Exited);
      LiveUpdate(workers, w, Exited);
      workers := workers[w := Exited];
    }

    /** Item `i` has just been counted off. */
    method TakeItem(w: nat, i: nat)
      requires next == i + 1 <= |items| && w < |workers| && workers[w].Starting? && Sound(i)
      modifies this`workers, this`log
      ensures Sound(i + 1) && log == old(log) + [Opened(i)]
      ensures workers == old(workers)[w := Busy(i)] && Live(workers) == Live(old(workers))
    {
      hide Live, Window, BusyWith, OneOwnerEach;
      RoomForOne(workers, w);
      Starts(Mapped(items, fn), out, log, |workers|, i, BusyWith(workers));
      BusyUpdate(workers, w, Busy(i));
      LiveUpdate(workers, w, Busy(i));
      workers := workers[w := Busy(i)];
      log := log + [Opened(i)];
    }

    /** When all workers have exited, every item was handled, and every result belongs to its own item. */
    lemma AllDone()
      requires Valid() && Live(workers) == 0
      ensures Completes(log, |workers|, |items|)
      ensures Stored(Mapped(items, fn), out, |items|, {})
    {
      NoneLive(workers);
      if items != [] {
        assert workers[0].Exited?;
      }
      assert BusyWith(workers) == {};
    }
  }

  lemma {:induction false} AllLive(n: nat)
    ensures Live(seq(n, _ => Starting)) == n
  {
    if n > 0 {
      assert seq(n, _ => Starting)[1..] == seq(n - 1, _ => Starting);
      AllLive(n - 1);
    }
  }

  lemma {:induction false} NoneLive(workers: seq<Worker>)
    requires Live(workers) == 0
    ensures forall w | 0 <= w < |workers| :: workers[w].Exited?
  {
    if workers == [] {
    } else {
      NoneLive(workers[1..]);
    }
  }

  function PoolSize(concurrency: nat, n: nat): (size: nat)
    ensures size <= concurrency && size <= n && (size == concurrency || size == n)
  {
    if concurrency < n then concurrency else n
  }

  /** Whichever live worker moves next: the results are the items' own, in item order, and the pool is
      done after exactly as many turns as there are items and workers. */
  method MapConcurrent<T, R>(items: seq<T>, concurrency: nat, fn: T -> R)
    returns (result: seq<R>, turns: nat, ghost log: seq<Happening>)
    requires concurrency >= 1
    ensures result == Mapped(items, fn)
    ensures turns == |items| + PoolSize(concurrency, |items|)
    ensures Completes(log, PoolSize(concurrency, |items|), |items|)
  {
    var pool := new WorkerPool(items, concurrency, fn);
    turns := 0;
    while Live(pool.workers) > 0
      invariant pool.Valid() && fresh(pool) && |pool.workers| == PoolSize(concurrency, |items|)
      invariant turns + pool.Remaining() == |items| + PoolSize(concurrency, |items|)
      decreases pool.Remaining()
    {
      SomeoneLive(pool.workers);
      var w: nat :| w < |pool.workers| && !pool.workers[w].Exited?;
      pool.Turn(w);
      turns := turns + 1;
    }
    pool.AllDone();
    return Collect(Mapped(items, fn), pool.out), turns, pool.log;
  }

  lemma {:induction false} SomeoneLive(workers: seq<Worker>)
    requires Live(workers) > 0
    ensures exists w: nat :: w < |workers| && !workers[w].Exited?
  {
    if workers[0].Exited? {
      SomeoneLive(workers[1..]);
      var w: nat :| w < |workers| - 1 && !workers[1..][w].Exited?;
      assert !workers[w + 1].Exited?;
    }
  }
}
