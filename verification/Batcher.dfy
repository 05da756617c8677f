/** The per-key batcher loops, on a script of what each await returned and what the clock said. */
module Batcher {
  import opened Wire

  /** `Quiet` is an await that only its own timer ended; `Tick` is the sampler's interval. */
  datatype Event<R> = Got(req: R) | ChannelClosed | Quiet | Tick

  /** One await: the clock before it, what ended it, the clock after it. */
  datatype Turn<R> = Turn(before: nat, event: Event<R>, after: nat)

  datatype Cut = Full | Deadline(at: nat) | Closure

  /** A flushed batch: the window it was given, the turns `from..to` it was collected in, and why it
      was cut. */
  datatype Flush<R> = Flush(batch: seq<R>, wait: nat, from: nat, to: nat, cut: Cut)

  datatype Exit = StillRunning | Idle | Closed

  /** What a loop has done with a script so far. */
  datatype Progress<R> = Progress(flushes: seq<Flush<R>>, open: seq<R>, used: nat, exit: Exit)

  /** A timer never ends an await before its deadline. */
  function TimerEnd(deadline: nat, after: nat): (t: nat)
    ensures t >= deadline
  {
    if after < deadline then deadline else after
  }

  function Received<R>(script: seq<Turn<R>>): seq<R> {
    if script == [] then []
    else
      var last := script[|script| - 1].event;
      Received(script[..|script| - 1]) + (if last.Got? then [last.req] else [])
  }

  function Batches<R>(flushes: seq<Flush<R>>): seq<R> {
    if flushes == [] then [] else Batches(flushes[..|flushes| - 1]) + flushes[|flushes| - 1].batch
  }

  function Room(maxBatch: nat): nat {
    if maxBatch < 1 then 1 else maxBatch
  }

  /** The batch that starts with turn `from` was cut at `at`, when its window had passed: its timer
      ended the last await, or the clock was read before the next one. */
  ghost predicate CutByDeadline<R(!new)>(script: seq<Turn<R>>, f: Flush<R>, at: nat)
    requires f.from < f.to <= |script|
  {
    var deadline := script[f.from].after + f.wait;
    && at >= deadline
    && if script[f.to - 1].event.Quiet?
       then at == if script[f.to - 1].after < deadline then deadline else script[f.to - 1].after
       else f.to < |script| && at == script[f.to].before
  }

  /** One flush is right: exactly what arrived in its turns, never empty, never over the maximum, and
      short of it only because its window had passed or the channel had closed. */
  ghost predicate GoodFlush<R(!new)>(maxBatch: nat, script: seq<Turn<R>>, f: Flush<R>) {
    && f.from < f.to <= |script| && script[f.from].event.Got?
    && Received(script[..f.to]) == Received(script[..f.from]) + f.batch
    && 1 <= |f.batch| <= Room(maxBatch)
    && match f.cut
       case Full => |f.batch| == Room(maxBatch)
       case Deadline(at) => CutByDeadline(script, f, at)
       case Closure => script[f.to - 1].event.ChannelClosed?
  }

  ghost predicate Consecutive<R(!new)>(flushes: seq<Flush<R>>) {
    forall i | 0 < i < |flushes| :: flushes[i - 1].to <= flushes[i].from
  }

  /** The abstract segmenter: the flushed batches and the open one are exactly what was received,
      in order, cut only where it may be cut. */
  ghost predicate Segmented<R(!new)>(maxBatch: nat, script: seq<Turn<R>>, p: Progress<R>) {
    && SoFar(maxBatch, script, p.flushes, |script|)
    && p.used <= |script|
    && Batches(p.flushes) + p.open == Received(script[..p.used])
    && |p.open| <= Room(maxBatch)
    && match p.exit
       case StillRunning => p.used == |script|
       case Idle => p.open == [] && p.used > 0 && script[p.used - 1].event.Quiet?
       case Closed => p.open == [] && p.used > 0 && script[p.used - 1].event.ChannelClosed?
  }

  /** Flushes made within the first `n` turns. */
  ghost predicate SoFar<R(!new)>(maxBatch: nat, script: seq<Turn<R>>, flushes: seq<Flush<R>>, n: nat) {
    && Consecutive(flushes)
    && forall f | f in flushes :: GoodFlush(maxBatch, script, f) && f.to <= n
  }

  lemma ReceivedStep<R>(script: seq<Turn<R>>, i: nat)
    requires i < |script|
    ensures Received(script[..i + 1]) ==
            Received(script[..i]) + (if script[i].event.Got? then [script[i].event.req] else [])
  {
    assert script[..i + 1][..i] == script[..i];
  }

  lemma BatchesStep<R>(flushes: seq<Flush<R>>, f: Flush<R>)
    ensures Batches(flushes + [f]) == Batches(flushes) + f.batch
  {
    assert (flushes + [f])[..|flushes|] == flushes;
  }

  /** Between two batches everything received is in a flushed batch; one more flush keeps it so. */
  lemma SoFarFlush<R(!new)>(maxBatch: nat, script: seq<Turn<R>>, flushes: seq<Flush<R>>, i: nat, f: Flush<R>)
    requires SoFar(maxBatch, script, flushes, i) && i <= |script| && Batches(flushes) == Received(script[..i])
    requires GoodFlush(maxBatch, script, f) && f.from == i
    ensures SoFar(maxBatch, script, flushes + [f], f.to)
    ensures i < f.to <= |script| && Batches(flushes + [f]) == Received(script[..f.to])
  {
    BatchesStep(flushes, f);
    assert f.to > i;
    hide Batches, Received, GoodFlush;
    ConsecutiveSnoc(maxBatch, script, flushes, i, f);
    hide Consecutive;
    assert forall g | g in flushes + [f] :: g in flushes || g == f;
  }

  lemma ConsecutiveSnoc<R(!new)>(maxBatch: nat, script: seq<Turn<R>>, flushes: seq<Flush<R>>, i: nat, f: Flush<R>)
    requires SoFar(maxBatch, script, flushes, i) && f.from == i
    ensures Consecutive(flushes + [f])
  {
    hide GoodFlush;
    if flushes != [] {
      assert flushes[|flushes| - 1] in flushes;
    }
  }

  lemma BeforeAnything<R>(script: seq<Turn<R>>)
    ensures Batches<R>([]) == Received(script[..0])
  {
  }

  lemma SoFarGrows<R(!new)>(maxBatch: nat, script: seq<Turn<R>>, flushes: seq<Flush<R>>, i: nat, n: nat)
    requires SoFar(maxBatch, script, flushes, i) && i <= n
    ensures SoFar(maxBatch, script, flushes, n)
  {
  }

  /** No further request was awaited once the window had passed. */
  ghost predicate InWindow<R(!new)>(script: seq<Turn<R>>, f: Flush<R>) {
    f.from < f.to <= |script| &&
    forall j | f.from < j < f.to :: script[j].before < script[f.from].after + f.wait
  }

  /** The inner loop of the fixed-window batcher, for the batch that starts with turn `from`. */
  method CollectFixed<R(!new)>(maxWait: nat, maxBatch: nat, script: seq<Turn<R>>, from: nat)
    returns (flush: Option<Flush<R>>, open: seq<R>)
    requires from < |script| && script[from].event.Got?
    requires forall i | 0 <= i < |script| :: !script[i].event.Tick?
    ensures match flush
            case Some(f) => open == [] && f.from == from && f.wait == maxWait
                            && GoodFlush(maxBatch, script, f) && InWindow(script, f)
            case None => 1 <= |open| <= Room(maxBatch) && Received(script) == Received(script[..from]) + open
  {
    var batch, i, cut := [script[from].event.req], from + 1, Full;
    var flushAt := script[from].after + maxWait;
    ReceivedStep(script, from);
    if maxBatch > 1 {
      while |batch| < maxBatch
        invariant from < i <= |script| && 1 <= |batch| <= maxBatch
        invariant Received(script[..i]) == Received(script[..from]) + batch
        invariant cut == Full && script[i - 1].event.Got?
        invariant forall j | from < j < i :: script[j].before < flushAt
        decreases maxBatch - |batch|
      {
        if i == |script| {
          assert script[..i] == script;
          return None, batch;
        }
        if script[i].before >= flushAt {
          cut := Deadline(script[i].before);
          break;
        }
        ReceivedStep(script, i);
        i := i + 1;
        match script[i - 1].event {
          case Got(req) => batch := batch + [req];
          case ChannelClosed =>
            cut := Closure;
            break;
          case Quiet =>
            cut := Deadline(TimerEnd(flushAt, script[i - 1].after));
            break;
        }
      }
    }
    return Some(Flush(batch, maxWait, from, i, cut)), [];
  }

  method BatcherTaskFixed<R(!new)>(maxWait: nat, maxBatch: nat, script: seq<Turn<R>>) returns (p: Progress<R>)
    requires forall i | 0 <= i < |script| :: !script[i].event.Tick?
    ensures Segmented(maxBatch, script, p)
    ensures forall f | f in p.flushes :: f.wait == maxWait && InWindow(script, f)
  {
    hide Received, Batches, GoodFlush, InWindow;
    var flushes: seq<Flush<R>>, i := [], 0;
    BeforeAnything(script);
    while i < |script|
      invariant i <= |script| && SoFar(maxBatch, script, flushes, i) && Batches(flushes) == Received(script[..i])
      invariant forall f | f in flushes :: f.wait == maxWait && InWindow(script, f)
      decreases |script| - i
    {
      var event := script[i].event;
      SoFarGrows(maxBatch, script, flushes, i, |script|);
      if event.Got? {
        var flush, open := CollectFixed(maxWait, maxBatch, script, i);
        if flush.None? {
          assert script[..|script|] == script;
          return Progress(flushes, open, |script|, StillRunning);
        }
        SoFarFlush(maxBatch, script, flushes, i, flush.value);
        flushes, i := flushes + [flush.value], flush.value.to;
      } else {
        ReceivedStep(script, i);
        assert Batches(flushes) + [] == Batches(flushes);
        return Progress(flushes, [], i + 1, if event.ChannelClosed? then Closed else Idle);
      }
    }
    assert Batches(flushes) + [] == Batches(flushes);
    p := Progress(flushes, [], i, StillRunning);
  }

  // ---------------------------------------------------------------------------------------------
  // The rate estimator and the window it gives, over exact arithmetic
  // ---------------------------------------------------------------------------------------------

  const MAX_COUNT: nat := 0xFFFF_FFFF_FFFF_FFFF

  function Rate(intervalSecs: real, count: nat): real {
    if intervalSecs > 0.0 then count as real / intervalSecs else 0.0
  }

  function Rates(intervalSecs: real, counts: seq<nat>): (rates: seq<real>)
    ensures |rates| == |counts|
  {
    seq(|counts|, i requires 0 <= i < |counts| => Rate(intervalSecs, counts[i]))
  }

  /** The last `n` elements, or all of them. */
  function Last<X>(n: nat, xs: seq<X>): seq<X> {
    if |xs| <= n then xs else xs[|xs| - n..]
  }

  lemma LastDrop<X>(n: nat, xs: seq<X>)
    requires |xs| > n
    ensures Last(n, xs[1..]) == Last(n, xs)
  {
  }

  lemma LastSnoc<X>(n: nat, xs: seq<X>, x: X)
    ensures Last(n, Last(n, xs) + [x]) == Last(n, xs + [x])
  {
  }

  function Total(counts: seq<nat>): nat {
    if counts == [] then 0 else Total(counts[..|counts| - 1]) + counts[|counts| - 1]
  }

  function RealSum(xs: seq<real>): real {
    if xs == [] then 0.0 else RealSum(xs[..|xs| - 1]) + xs[|xs| - 1]
  }

  function Smoothed(samples: seq<real>): real {
    if samples == [] then 0.0 else RealSum(samples) / |samples| as real
  }

  /** Counting saturates. */
  function Bumped(count: nat): nat {
    if count == MAX_COUNT then count else count + 1
  }

  class DynamicRateEstimator {
    const intervalSecs: real
    const windowSize: nat
    var count: nat
    var samples: seq<real>
    /** The counts of all completed intervals. */
    ghost var history: seq<nat>

    ghost predicate Valid()
      reads this
    {
      samples == Last(windowSize, Rates(intervalSecs, history))
    }

    constructor (intervalSecs: real, windowSize: nat)
      ensures Valid() && history == [] && count == 0
      ensures this.intervalSecs == intervalSecs && this.windowSize == windowSize
    {
      this.intervalSecs, this.windowSize := intervalSecs, windowSize;
      count, samples, history := 0, [], [];
    }

    method RecordRequest()
      requires Valid()
      modifies this
      ensures Valid() && history == old(history) && count == Bumped(old(count))
      ensures count == if old(count) == 0xFFFF_FFFF_FFFF_FFFF then old(count) else old(count) + 1
    {
      count := Bumped(count);
    }

    method Tick()
      requires Valid()
      modifies this
      ensures Valid() && history == old(history) + [old(count)] && count == 0
    {
      var rps := Rate(intervalSecs, count);
      ghost var rates := Rates(intervalSecs, history);
      assert Rates(intervalSecs, history + [count]) == rates + [rps];
      LastSnoc(windowSize, rates, rps);
      ghost var goal := Last(windowSize, rates + [rps]);
      history := history + [count];
      count := 0;
      samples := samples + [rps];
      while |samples| > windowSize
        modifies this`samples
        invariant Last(windowSize, samples) == goal
      {
        LastDrop(windowSize, samples);
        samples := samples[1..];
      }
    }

    function SmoothedRps(): (r: real)
      requires Valid()
      reads this
      ensures r == Smoothed(Last(windowSize, Rates(intervalSecs, history)))
    {
      Smoothed(samples)
    }
  }

  /** What the estimator has seen of a script: the counts of the completed intervals, and the open one. */
  datatype Sampled = Sampled(history: seq<nat>, open: nat)

  function SampledBy<R>(script: seq<Turn<R>>): Sampled {
    if script == [] then Sampled([], 0)
    else
      var s := SampledBy(script[..|script| - 1]);
      match script[|script| - 1].event
      case Got(_) => s.(open := Bumped(s.open))
      case Tick => Sampled(s.history + [s.open], 0)
      case _ => s
  }

  lemma SampledStep<R>(script: seq<Turn<R>>, i: nat)
    requires i < |script|
    ensures SampledBy(script[..i + 1]) ==
            var s := SampledBy(script[..i]);
            match script[i].event
            case Got(_) => s.(open := Bumped(s.open))
            case Tick => Sampled(s.history + [s.open], 0)
            case _ => s
  {
    assert script[..i + 1][..i] == script[..i];
  }

  /** Short of saturation the samples account for every request: interval times all rates ever
      sampled, plus the open count, is the number of requests received. */
  lemma SamplesCountRequests<R>(intervalSecs: real, script: seq<Turn<R>>)
    requires intervalSecs > 0.0 && |Received(script)| <= MAX_COUNT
    ensures var s := SampledBy(script);
            RealSum(Rates(intervalSecs, s.history)) * intervalSecs + s.open as real == |Received(script)| as real
  {
    hide RealSum, Rates, SampledBy, Received, Total;
    RatesCountRequests(intervalSecs, SampledBy(script).history);
    SampledTotal(script);
  }

  lemma {:induction false} SampledTotal<R>(script: seq<Turn<R>>)
    requires |Received(script)| <= MAX_COUNT
    ensures Total(SampledBy(script).history) + SampledBy(script).open == |Received(script)|
  {
    if script == [] {
    } else {
      var front := script[..|script| - 1];
      SampledTotal(front);
      var s := SampledBy(front);
      assert (s.history + [s.open])[..|s.history|] == s.history;
    }
  }

  /** The rates account for every request of the completed intervals. */
  lemma {:induction false} RatesCountRequests(intervalSecs: real, counts: seq<nat>)
    requires intervalSecs > 0.0
    ensures RealSum(Rates(intervalSecs, counts)) * intervalSecs == Total(counts) as real
  {
    if counts == [] {
    } else {
      var front, last := counts[..|counts| - 1], counts[|counts| - 1];
      RatesCountRequests(intervalSecs, front);
      var rates := Rates(intervalSecs, counts);
      assert rates[..|rates| - 1] == Rates(intervalSecs, front);
      OneMore(RealSum(Rates(intervalSecs, front)), last as real, intervalSecs);
    }
  }

  lemma OneMore(sum: real, n: real, k: real)
    requires k > 0.0
    ensures (sum + n / k) * k == sum * k + n
  {
  }

  /** `1 / (1 + exp(-x))`, of which only the range and the order matter. */
  ghost predicate SigmoidLike(sigmoid: real -> real) {
    && (forall x {:trigger sigmoid(x)} :: 0.0 < sigmoid(x) < 1.0)
    && (forall x, y {:trigger sigmoid(x), sigmoid(y)} :: x <= y ==> sigmoid(x) <= sigmoid(y))
  }

  function RoundHalfUp(x: real): int {
    (x + 0.5).Floor
  }

  function SigmoidWaitMs(sigmoid: real -> real, rps: real, minWait: nat, maxWait: nat, target: real,
                         steepness: real): nat {
    if maxWait <= minWait then maxWait
    else
      var scaled := minWait as real + sigmoid((rps - target) * steepness) * (maxWait - minWait) as real;
      var rounded := RoundHalfUp(scaled);
      if rounded < minWait then minWait else if rounded > maxWait then maxWait else rounded
  }

  /** The window stays within its bounds and grows with the rate. */
  lemma {:induction false} WaitBoundedAndMonotone(sigmoid: real -> real, low: real, high: real,
                                                  minWait: nat, maxWait: nat, target: real, steepness: real)
    requires SigmoidLike(sigmoid) && minWait <= maxWait && low <= high && steepness > 0.0
    ensures minWait <= SigmoidWaitMs(sigmoid, low, minWait, maxWait, target, steepness)
            <= SigmoidWaitMs(sigmoid, high, minWait, maxWait, target, steepness) <= maxWait
  {
    ScaleOrder(low - target, high - target, steepness);
    var a, b := sigmoid((low - target) * steepness), sigmoid((high - target) * steepness);
    assert a <= b;
    if maxWait > minWait {
      var span := (maxWait - minWait) as real;
      ScaleOrder(a, b, span);
      RoundOrder(minWait as real + a * span, minWait as real + b * span);
    }
  }

  lemma RoundOrder(x: real, y: real)
    requires x <= y
    ensures RoundHalfUp(x) <= RoundHalfUp(y)
  {
  }

  lemma ScaleOrder(a: real, b: real, k: real)
    requires a <= b && k > 0.0
    ensures a * k <= b * k
  {
  }

  // ---------------------------------------------------------------------------------------------
  // The dynamic batcher
  // ---------------------------------------------------------------------------------------------

  datatype DynamicWait = DynamicWait(sigmoid: real -> real, minWait: nat, target: real, steepness: real,
                                     intervalSecs: real, samples: nat)

  /** The smoothed rate after a script: the mean of the last `samples` completed intervals. */
  function RateAfter<R>(dyn: DynamicWait, script: seq<Turn<R>>): real {
    Smoothed(Last(dyn.samples, Rates(dyn.intervalSecs, SampledBy(script).history)))
  }

  /** The window of a batch whose first request is the last thing received. */
  function WindowAfter<R>(dyn: DynamicWait, maxWait: nat, script: seq<Turn<R>>): nat {
    SigmoidWaitMs(dyn.sigmoid, RateAfter(dyn, script), dyn.minWait, maxWait, dyn.target, dyn.steepness)
  }

  // What a window has to be, without the code's own arithmetic.

  /** `rate` is the mean rate of the last `samples` completed intervals: over their whole duration it makes up
      exactly the requests counted in them. Without a completed interval, or without duration, it is zero. */
  ghost predicate MeanRate(dyn: DynamicWait, history: seq<nat>, rate: real) {
    var n := if |history| < dyn.samples then |history| else dyn.samples;
    if n == 0 || dyn.intervalSecs <= 0.0 then rate == 0.0
    else rate * (n as real * dyn.intervalSecs) == Total(history[|history| - n..]) as real
  }

  /** `wait` is the whole number nearest to the point that the sigmoid of the rate marks between the bounds,
      halves upwards; without room between the bounds it is the upper one. */
  ghost predicate NearestWait(dyn: DynamicWait, maxWait: nat, rate: real, wait: nat) {
    if maxWait <= dyn.minWait then wait == maxWait
    else
      var exact := dyn.minWait as real
                   + dyn.sigmoid((rate - dyn.target) * dyn.steepness) * (maxWait - dyn.minWait) as real;
      exact - 0.5 < wait as real <= exact + 0.5
  }

  /** The window that the past up to the batch's first request calls for. */
  ghost predicate RightWindow<R(!new)>(dyn: DynamicWait, maxWait: nat, script: seq<Turn<R>>, wait: nat) {
    exists rate :: MeanRate(dyn, SampledBy(script).history, rate) && NearestWait(dyn, maxWait, rate, wait)
  }

  lemma NearestIsRounded(dyn: DynamicWait, maxWait: nat, rate: real)
    requires SigmoidLike(dyn.sigmoid)
    ensures NearestWait(dyn, maxWait, rate,
                        SigmoidWaitMs(dyn.sigmoid, rate, dyn.minWait, maxWait, dyn.target, dyn.steepness))
  {
    if dyn.minWait < maxWait {
      var share, span := dyn.sigmoid((rate - dyn.target) * dyn.steepness), (maxWait - dyn.minWait) as real;
      assert 0.0 < share < 1.0;
      ScaleOrder(0.0, share, span);
      ScaleOrder(share, 1.0, span);
      assert 0.0 * span <= share * span <= 1.0 * span;
      hide SigmoidLike;
      Rounded(dyn.minWait as real + share * span, dyn.minWait, maxWait);
    }
  }

  lemma Rounded(x: real, low: nat, high: nat)
    requires low as real <= x <= high as real
    ensures low <= RoundHalfUp(x) <= high && x - 0.5 < RoundHalfUp(x) as real <= x + 0.5
  {
  }

  lemma LastRates(intervalSecs: real, counts: seq<nat>, n: nat)
    ensures Last(n, Rates(intervalSecs, counts)) == Rates(intervalSecs, Last(n, counts))
  {
  }

  lemma {:induction false} NoRates(intervalSecs: real, counts: seq<nat>)
    requires intervalSecs <= 0.0
    ensures RealSum(Rates(intervalSecs, counts)) == 0.0
  {
    if counts == [] {
    } else {
      var n := |counts| - 1;
      NoRates(intervalSecs, counts[..n]);
      assert Rates(intervalSecs, counts)[..n] == Rates(intervalSecs, counts[..n]);
    }
  }

  lemma SmoothedIsMean(dyn: DynamicWait, history: seq<nat>)
    ensures MeanRate(dyn, history, Smoothed(Last(dyn.samples, Rates(dyn.intervalSecs, history))))
  {
    hide Rates, RealSum, Total, Smoothed, MeanRate;
    var counts := Last(dyn.samples, history);
    LastRates(dyn.intervalSecs, history, dyn.samples);
    MeanOfRates(dyn.intervalSecs, counts);
    MeanOfLast(dyn, history, counts, Smoothed(Rates(dyn.intervalSecs, counts)));
  }

  lemma MeanOfLast(dyn: DynamicWait, history: seq<nat>, counts: seq<nat>, rate: real)
    requires counts == Last(dyn.samples, history)
    requires if counts == [] || dyn.intervalSecs <= 0.0 then rate == 0.0
             else rate * (|counts| as real * dyn.intervalSecs) == Total(counts) as real
    ensures MeanRate(dyn, history, rate)
  {
    hide Total;
    var n := if |history| < dyn.samples then |history| else dyn.samples;
    assert counts == history[|history| - n..] && |counts| == n;
  }

  lemma MeanOfRates(intervalSecs: real, counts: seq<nat>)
    ensures var rate := Smoothed(Rates(intervalSecs, counts));
            if counts == [] || intervalSecs <= 0.0 then rate == 0.0
            else rate * (|counts| as real * intervalSecs) == Total(counts) as real
  {
    hide RealSum, Rates, Total, Smoothed;
    var rates := Rates(intervalSecs, counts);
    if counts != [] && intervalSecs > 0.0 {
      RatesCountRequests(intervalSecs, counts);
      SmoothedTimes(rates);
      Chain(Smoothed(rates), |counts| as real, intervalSecs, RealSum(rates), Total(counts) as real);
    } else if counts != [] {
      NoRates(intervalSecs, counts);
      SmoothedZero(rates);
    } else {
      NoSamples(rates);
    }
  }

  lemma NoSamples(samples: seq<real>)
    requires samples == []
    ensures Smoothed(samples) == 0.0
  {
  }

  lemma SmoothedZero(samples: seq<real>)
    requires samples != [] && RealSum(samples) == 0.0
    ensures Smoothed(samples) == 0.0
  {
    hide RealSum;
  }

  lemma SmoothedTimes(samples: seq<real>)
    requires samples != []
    ensures Smoothed(samples) * |samples| as real == RealSum(samples)
  {
    hide RealSum;
  }

  lemma Chain(rate: real, n: real, secs: real, sum: real, total: real)
    requires rate * n == sum && sum * secs == total
    ensures rate * (n * secs) == total
  {
  }

  lemma WindowIsRight<R(!new)>(dyn: DynamicWait, maxWait: nat, script: seq<Turn<R>>)
    requires SigmoidLike(dyn.sigmoid)
    ensures RightWindow(dyn, maxWait, script, WindowAfter(dyn, maxWait, script))
  {
    SmoothedIsMean(dyn, SampledBy(script).history);
    NearestIsRounded(dyn, maxWait, RateAfter(dyn, script));
    hide SigmoidLike, SigmoidWaitMs, Smoothed, MeanRate, NearestWait;
  }

  /** The estimator stands where the first `n` turns have brought it. */
  ghost predicate Tracks<R(!new)>(est: DynamicRateEstimator, dyn: DynamicWait, script: seq<Turn<R>>, n: nat)
    reads est
  {
    && n <= |script| && est.Valid()
    && est.intervalSecs == dyn.intervalSecs && est.windowSize == dyn.samples
    && Sampled(est.history, est.count) == SampledBy(script[..n])
  }

  method CollectDynamic<R(!new)>(est: DynamicRateEstimator, dyn: DynamicWait, wait: nat, maxBatch: nat,
                                 script: seq<Turn<R>>, from: nat) returns (flush: Option<Flush<R>>, open: seq<R>)
    requires from < |script| && script[from].event.Got?
    requires Tracks(est, dyn, script, from + 1)
    modifies est
    ensures match flush
            case Some(f) => open == [] && f.from == from && f.wait == wait
                            && GoodFlush(maxBatch, script, f) && Tracks(est, dyn, script, f.to)
            case None => 1 <= |open| <= Room(maxBatch) && Received(script) == Received(script[..from]) + open
  {
    var batch, i, cut := [script[from].event.req], from + 1, Full;
    var flushAt := script[from].after + wait;
    ReceivedStep(script, from);
    hide Received, SampledBy, Last, Rates;
    while |batch| < maxBatch
      invariant from < i <= |script| && 1 <= |batch| <= Room(maxBatch)
      invariant Received(script[..i]) == Received(script[..from]) + batch
      invariant Tracks(est, dyn, script, i)
      invariant cut == Full
      decreases |script| - i
    {
      if i == |script| {
        assert script[..i] == script;
        return None, batch;
      }
      ReceivedStep(script, i);
      SampledStep(script, i);
      var turn := script[i];
      i := i + 1;
      match turn.event {
        case Got(req) =>
          est.RecordRequest();
          batch := batch + [req];
          if |batch| >= maxBatch {
            break;
          }
        case ChannelClosed =>
          cut := Closure;
          break;
        case Tick => est.Tick();
        case Quiet =>
          cut := Deadline(TimerEnd(flushAt, turn.after));
          break;
      }
    }
    return Some(Flush(batch, wait, from, i, cut)), [];
  }

  method BatcherTaskDynamic<R(!new)>(maxWait: nat, maxBatch: nat, dyn: DynamicWait, script: seq<Turn<R>>)
    returns (p: Progress<R>)
    ensures Segmented(maxBatch, script, p)
    ensures forall f | f in p.flushes ::
              f.from < |script| && f.wait == WindowAfter(dyn, maxWait, script[..f.from + 1])
    ensures SigmoidLike(dyn.sigmoid) ==>
              forall f | f in p.flushes ::
                f.from < |script| && RightWindow(dyn, maxWait, script[..f.from + 1], f.wait)
  {
    BeforeAnything(script);
    hide Received, Batches, GoodFlush, Rates, Last, SampledBy, SigmoidLike, RightWindow;
    var est := new DynamicRateEstimator(dyn.intervalSecs, dyn.samples);
    NothingSampled(script);
    var flushes: seq<Flush<R>>, i := [], 0;
    while i < |script|
      invariant i <= |script| && SoFar(maxBatch, script, flushes, i) && Batches(flushes) == Received(script[..i])
      invariant fresh(est) && Tracks(est, dyn, script, i)
      invariant forall f | f in flushes ::
                  f.from < |script| && f.wait == WindowAfter(dyn, maxWait, script[..f.from + 1])
      invariant SigmoidLike(dyn.sigmoid) ==>
                  forall f | f in flushes ::
                    f.from < |script| && RightWindow(dyn, maxWait, script[..f.from + 1], f.wait)
      decreases |script| - i
    {
      var event := script[i].event;
      SoFarGrows(maxBatch, script, flushes, i, |script|);
      SampledStep(script, i);
      if event.Got? {
        est.RecordRequest();
        var wait := SigmoidWaitMs(dyn.sigmoid, est.SmoothedRps(), dyn.minWait, maxWait, dyn.target, dyn.steepness);
        if SigmoidLike(dyn.sigmoid) {
          WindowIsRight(dyn, maxWait, script[..i + 1]);
        }
        var flush, open := CollectDynamic(est, dyn, wait, maxBatch, script, i);
        if flush.None? {
          assert script[..|script|] == script;
          return Progress(flushes, open, |script|, StillRunning);
        }
        SoFarFlush(maxBatch, script, flushes, i, flush.value);
        flushes, i := flushes + [flush.value], flush.value.to;
        if flush.value.cut.Closure? {
          SoFarGrows(maxBatch, script, flushes, i, |script|);
          ClosedAtCut(maxBatch, script, flush.value);
          assert Batches(flushes) + [] == Batches(flushes);
          return Progress(flushes, [], i, Closed);
        }
      } else {
        ReceivedStep(script, i);
        if event.Tick? {
          est.Tick();
          SoFarGrows(maxBatch, script, flushes, i, i + 1);
          i := i + 1;
        } else {
          assert Batches(flushes) + [] == Batches(flushes);
          return Progress(flushes, [], i + 1, if event.ChannelClosed? then Closed else Idle);
        }
      }
    }
    assert Batches(flushes) + [] == Batches(flushes);
    p := Progress(flushes, [], i, StillRunning);
  }

  lemma NothingSampled<R>(script: seq<Turn<R>>)
    ensures SampledBy(script[..0]) == Sampled([], 0)
  {
  }

  lemma ClosedAtCut<R(!new)>(maxBatch: nat, script: seq<Turn<R>>, f: Flush<R>)
    requires GoodFlush(maxBatch, script, f) && f.cut.Closure?
    ensures f.to > 0 && script[f.to - 1].event.ChannelClosed?
  {
  }

  /** Every window the dynamic batcher can choose lies within its bounds, and a busier past never
      gives a shorter one. */
  lemma WindowsBounded<R>(dyn: DynamicWait, maxWait: nat, quiet: seq<Turn<R>>, busy: seq<Turn<R>>)
    requires SigmoidLike(dyn.sigmoid) && dyn.minWait <= maxWait && dyn.steepness > 0.0
    requires RateAfter(dyn, quiet) <= RateAfter(dyn, busy)
    ensures dyn.minWait <= WindowAfter(dyn, maxWait, quiet) <= WindowAfter(dyn, maxWait, busy) <= maxWait
  {
    WaitBoundedAndMonotone(dyn.sigmoid, RateAfter(dyn, quiet), RateAfter(dyn, busy), dyn.minWait, maxWait,
                           dyn.target, dyn.steepness);
  }
}
