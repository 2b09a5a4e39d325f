/** The call monitor of internal/app/observability.go: sixty lazily reset minute
    buckets of counters and histograms, a ring of recent calls, and percentiles
    read off the histograms. */
module CallMonitor {

  datatype Option<+T> = None | Some(value: T)

  const SLOTS := 19
  const WINDOW := 60
  const RING := 128

  /** Upper bounds of the histogram slots; the last slot is open. */
  const BOUNDS: seq<int> := [0, 1, 5, 10, 25, 50, 100, 250, 500, 1000, 2000, 5000, 10000, 30000, 60000, 120000,
                             300000, 3600000, 0x7FFF_FFFF_FFFF_FFFF]

  function Bound(i: nat): int
    requires i < SLOTS
  {
    BOUNDS[i]
  }

  // --------------------------------------------------------------- histograms

  /** The slot of a duration: the first bound that is not below it. */
  predicate InSlot(ms: int, i: nat) {
    i < SLOTS && (i < SLOTS - 1 ==> ms <= Bound(i)) && (i > 0 ==> Bound(i - 1) < ms)
  }

  function SlotFrom(ms: int, i: nat): (r: nat)
    requires i < SLOTS && (i > 0 ==> Bound(i - 1) < ms)
    ensures i <= r && InSlot(ms, r)
    decreases SLOTS - i
  {
    if i == SLOTS - 1 || ms <= Bound(i) then i else SlotFrom(ms, i + 1)
  }

  function Slot(ms: int): (r: nat)
    ensures InSlot(ms, r)
  {
    SlotFrom(ms, 0)
  }

  lemma {:induction false} BoundsIncrease(i: nat, j: nat)
    requires i < j < SLOTS
    ensures Bound(i) < Bound(j)
    decreases j - i
  {
    if i + 1 < j {
      BoundsIncrease(i, j - 1);
    }
    assert Bound(j - 1) < Bound(j);
  }

  lemma SlotMonotone(a: int, b: int)
    requires a <= b
    ensures Slot(a) <= Slot(b)
  {
    hide Bound;
    var i, j := Slot(a), Slot(b);
    if j + 1 < i {
      BoundsIncrease(j, i - 1);
    }
  }

  lemma SlotUnique(ms: int, i: nat)
    requires InSlot(ms, i)
    ensures Slot(ms) == i
  {
    hide Bound;
    var r := Slot(ms);
    if r + 1 < i { BoundsIncrease(r, i - 1); }
    if i + 1 < r { BoundsIncrease(i, r - 1); }
  }

  function Bumped(hist: seq<nat>, ms: int): (r: seq<nat>)
    requires |hist| == SLOTS
    ensures |r| == SLOTS && forall i :: 0 <= i < SLOTS ==> r[i] == hist[i] + (if Slot(ms) == i then 1 else 0)
  {
    hist[Slot(ms) := hist[Slot(ms)] + 1]
  }

  /** sort.Search over the bounds, then one more in that slot. */
  method AddTiming(hist: seq<nat>, ms: int) returns (hist': seq<nat>)
    requires |hist| == SLOTS
    ensures hist' == Bumped(hist, ms)
  {
    hide Bound, Slot;
    var i: nat, j: nat := 0, SLOTS;
    while i < j
      invariant i <= j <= SLOTS
      invariant i > 0 ==> Bound(i - 1) < ms
      invariant j < SLOTS ==> ms <= Bound(j)
    {
      var h := (i + j) / 2;
      if Bound(h) < ms {
        i := h + 1;
      } else {
        j := h;
      }
    }
    if i == SLOTS {
      i := i - 1;
      BoundsIncrease(SLOTS - 2, SLOTS - 1);
    }
    SlotUnique(ms, i);
    hist' := hist[i := hist[i] + 1];
  }

  /** How many samples fall into slot i, into a slot below i, and below a value. */
  function InSlotCount(samples: seq<int>, i: nat): nat
    decreases |samples|
  {
    if |samples| == 0 then 0 else (if Slot(samples[0]) == i then 1 else 0) + InSlotCount(samples[1..], i)
  }

  function BelowSlot(samples: seq<int>, i: nat): nat
    decreases |samples|
  {
    if |samples| == 0 then 0 else (if Slot(samples[0]) < i then 1 else 0) + BelowSlot(samples[1..], i)
  }

  function Below(samples: seq<int>, v: int): nat
    decreases |samples|
  {
    if |samples| == 0 then 0 else (if samples[0] < v then 1 else 0) + Below(samples[1..], v)
  }

  lemma {:induction false} NextSlot(samples: seq<int>, i: nat)
    ensures BelowSlot(samples, i + 1) == BelowSlot(samples, i) + InSlotCount(samples, i)
    decreases |samples|
  {
    if |samples| > 0 {
      NextSlot(samples[1..], i);
    }
  }

  lemma {:induction false} NoSlotBelow(samples: seq<int>)
    ensures BelowSlot(samples, 0) == 0
    decreases |samples|
  {
    if |samples| > 0 {
      NoSlotBelow(samples[1..]);
    }
  }

  /** Slots respect the order of durations. */
  lemma {:induction false} SlotsFollowValues(samples: seq<int>, v: int)
    ensures BelowSlot(samples, Slot(v)) <= Below(samples, v)
    ensures Below(samples, v + 1) <= BelowSlot(samples, Slot(v) + 1)
    decreases |samples|
  {
    if |samples| > 0 {
      SlotsFollowValues(samples[1..], v);
      if samples[0] <= v {
        SlotMonotone(samples[0], v);
      } else {
        SlotMonotone(v, samples[0]);
      }
    }
  }

  /** ceil(0.95 n). */
  function Rank(count: nat): nat { (count * 95 + 99) / 100 }

  /** The first slot from i on at which the running count reaches the threshold. */
  function Reaching(hist: seq<nat>, threshold: nat, n: nat, i: nat): Option<int>
    requires |hist| == SLOTS && i <= SLOTS
    decreases SLOTS - i
  {
    if i == SLOTS then None
    else if n + hist[i] >= threshold then (if i == SLOTS - 1 then None else Some(Bound(i)))
    else Reaching(hist, threshold, n + hist[i], i + 1)
  }

  function PercentileOf(hist: seq<nat>, count: nat): Option<int>
    requires |hist| == SLOTS
  {
    if count == 0 then None else Reaching(hist, Rank(count), 0, 0)
  }

  method Percentile(hist: seq<nat>, count: nat) returns (p: Option<int>)
    requires |hist| == SLOTS
    ensures p == PercentileOf(hist, count)
  {
    if count == 0 {
      return None;
    }
    var threshold := (count * 95 + 99) / 100;
    var n: nat := 0;
    for i := 0 to SLOTS
      invariant PercentileOf(hist, count) == Reaching(hist, threshold, n, i)
    {
      n := n + hist[i];
      if n >= threshold {
        return if i == SLOTS - 1 then None else Some(Bound(i));
      }
    }
    p := None;
  }

  /** hist is the histogram of the samples. */
  predicate Histogram(hist: seq<nat>, samples: seq<int>) {
    |hist| == SLOTS && forall i :: 0 <= i < SLOTS ==> hist[i] == InSlotCount(samples, i)
  }

  /** v is the true 95th percentile by nearest rank: at least 95 in 100 samples are
      at most v, and fewer are below it. */
  predicate NearestRank(samples: seq<int>, v: int) {
    |samples| > 0 && 100 * Below(samples, v) < 95 * |samples| <= 100 * Below(samples, v + 1)
  }

  lemma RankIsShare(count: nat, k: nat)
    ensures k < Rank(count) <==> 100 * k < 95 * count
  {
  }

  /** The slots in milliseconds. */
  lemma SlotOfDuration(ms: int)
    ensures Slot(ms) == if ms <= 0 then 0 else if ms <= 1 then 1 else if ms <= 5 then 2 else if ms <= 10 then 3
        else if ms <= 25 then 4 else if ms <= 50 then 5 else if ms <= 100 then 6 else if ms <= 250 then 7
        else if ms <= 500 then 8 else if ms <= 1000 then 9 else if ms <= 2000 then 10 else if ms <= 5000 then 11
        else if ms <= 10000 then 12 else if ms <= 30000 then 13 else if ms <= 60000 then 14
        else if ms <= 120000 then 15 else if ms <= 300000 then 16 else if ms <= 3600000 then 17 else 18
  {
    var i := Slot(ms);
    assert InSlot(ms, i);
  }

  lemma {:induction false} BelowSlotMonotone(samples: seq<int>, i: nat, j: nat)
    requires i <= j
    ensures BelowSlot(samples, i) <= BelowSlot(samples, j)
    decreases |samples|
  {
    if |samples| > 0 {
      BelowSlotMonotone(samples[1..], i, j);
    }
  }

  lemma RankSlot(samples: seq<int>, v: int, i: nat)
    requires NearestRank(samples, v) && i < SLOTS
    requires 100 * BelowSlot(samples, i) < 95 * |samples| <= 100 * BelowSlot(samples, i + 1)
    ensures Slot(v) == i
  {
    SlotsFollowValues(samples, v);
    if Slot(v) < i {
      BelowSlotMonotone(samples, Slot(v) + 1, i);
    } else if i < Slot(v) {
      BelowSlotMonotone(samples, i + 1, Slot(v));
    }
  }

  lemma {:induction false} ReachingIsRankSlot(hist: seq<nat>, samples: seq<int>, v: int, i: nat)
    requires Histogram(hist, samples) && NearestRank(samples, v) && i <= Slot(v)
    requires BelowSlot(samples, i) < Rank(|samples|)
    ensures Reaching(hist, Rank(|samples|), BelowSlot(samples, i), i)
         == if Slot(v) == SLOTS - 1 then None else Some(Bound(Slot(v)))
    decreases SLOTS - i
  {
    hide Bound, Slot, Rank, InSlotCount, BelowSlot, Below;
    NextSlot(samples, i);
    RankIsShare(|samples|, BelowSlot(samples, i));
    RankIsShare(|samples|, BelowSlot(samples, i + 1));
    if BelowSlot(samples, i + 1) >= Rank(|samples|) {
      RankSlot(samples, v, i);
    } else {
      if Slot(v) == i { SlotsFollowValues(samples, v); }
      ReachingIsRankSlot(hist, samples, v, i + 1);
    }
  }

  /** A reported percentile is the least bound that is not below the true nearest-rank
      95th percentile; nothing is reported exactly when there are no samples or that
      percentile is over an hour. */
  lemma PercentileBoundsTruth(hist: seq<nat>, samples: seq<int>, v: int)
    requires Histogram(hist, samples) && (samples != [] ==> NearestRank(samples, v))
    ensures var p := PercentileOf(hist, |samples|);
            && (p == None <==> samples == [] || v > 3600000)
            && (p.Some? ==> LeastBound(p.value, v))
  {
    NoSlotBelow(samples);
    if samples != [] {
      ReachingIsRankSlot(hist, samples, v, 0);
      SlotOfDuration(v);
      if v <= 3600000 {
        SlotBoundIsLeast(v);
      }
    }
  }

  /** b is the least of the histogram's bounds that is not below v. */
  predicate LeastBound(b: int, v: int) {
    b in BOUNDS && v <= b && forall i :: 0 <= i < SLOTS && v <= Bound(i) ==> b <= Bound(i)
  }

  lemma SlotBoundIsLeast(v: int)
    requires Slot(v) < SLOTS - 1
    ensures LeastBound(Bound(Slot(v)), v)
  {
    var k := Slot(v);
    assert Bound(k) == BOUNDS[k];
    hide Bound;
    forall i | 0 <= i < SLOTS && v <= Bound(i) ensures Bound(k) <= Bound(i) {
      if i < k - 1 {
        BoundsIncrease(i, k - 1);
      } else if k < i {
        BoundsIncrease(k, i);
      }
    }
  }

  lemma {:induction false} BelowMonotone(samples: seq<int>, v: int, w: int)
    requires v <= w
    ensures Below(samples, v) <= Below(samples, w)
    decreases |samples|
  {
    if |samples| > 0 {
      BelowMonotone(samples[1..], v, w);
    }
  }

  lemma {:induction false} AllBelow(samples: seq<int>, low: int, high: int)
    requires forall i :: 0 <= i < |samples| ==> low <= samples[i] < high
    ensures Below(samples, low) == 0 && Below(samples, high) == |samples|
    decreases |samples|
  {
    if |samples| > 0 {
      AllBelow(samples[1..], low, high);
    }
  }

  /** There is exactly one such value, so the percentile is well defined. */
  lemma OneNearestRank(samples: seq<int>, low: int, high: int) returns (v: int)
    requires |samples| > 0 && forall i :: 0 <= i < |samples| ==> low <= samples[i] < high
    ensures NearestRank(samples, v) && forall w :: NearestRank(samples, w) ==> w == v
  {
    AllBelow(samples, low, high);
    v := low;
    while 100 * Below(samples, v + 1) < 95 * |samples|
      invariant low <= v < high && 100 * Below(samples, v) < 95 * |samples|
      decreases high - v
    {
      v := v + 1;
    }
    forall w | NearestRank(samples, w) ensures w == v {
      if w < v { BelowMonotone(samples, w + 1, v); }
      if v < w { BelowMonotone(samples, v + 1, w); }
    }
  }

  // ------------------------------------------------------------ calls and counters

  datatype Outcome = Unset | Fine | Failed | Incomplete

  /** One finished call; durations in milliseconds. `run` is the execution time,
      which counts only when there was an attempt; `first` is the first byte's. */
  datatype Call = Call(
    id: string, status: int, outcome: Outcome, attempts: nat, upstream429: nat,
    queue: int, account: int, wait: int, total: int, run: int, first: Option<int>)

  datatype Timing = Wait | Queue | Account | Execution | First | Total

  datatype Field = Count | Errors | Incompletes | Attempts | Upstream429 | FirstCount | ExecutionCount
                 | Hist(timing: Timing, slot: nat)

  function Duration(c: Call, t: Timing): Option<int> {
    match t
    case Wait => Some(c.wait)
    case Queue => Some(c.queue)
    case Account => Some(c.account)
    case Total => Some(c.total)
    case Execution => if c.attempts > 0 then Some(if c.run < 0 then 0 else c.run) else None
    case First => c.first
  }

  /** What one call adds to one counter. */
  function Increment(c: Call, f: Field): nat {
    match f
    case Count => 1
    case Incompletes => if c.outcome.Incomplete? then 1 else 0
    case Errors => if !c.outcome.Incomplete? && (c.outcome.Failed? || c.status >= 400) then 1 else 0
    case Attempts => c.attempts
    case Upstream429 => c.upstream429
    case FirstCount => if Duration(c, First).Some? then 1 else 0
    case ExecutionCount => if Duration(c, Execution).Some? then 1 else 0
    case Hist(t, i) => if Duration(c, t).Some? && Slot(Duration(c, t).value) == i then 1 else 0
  }

  datatype Bucket = Bucket(
    minute: nat, count: nat, errors: nat, incomplete: nat, attempts: nat, upstream429: nat,
    firstCount: nat, executionCount: nat,
    wait: seq<nat>, queue: seq<nat>, account: seq<nat>, execution: seq<nat>, first: seq<nat>, total: seq<nat>)

  const ZEROS: seq<nat> := [0, 0, 0, 0, 0, 0, 0, 0, 0, 0, 0, 0, 0, 0, 0, 0, 0, 0, 0]

  function Fresh(minute: nat): Bucket {
    Bucket(minute, 0, 0, 0, 0, 0, 0, 0, ZEROS, ZEROS, ZEROS, ZEROS, ZEROS, ZEROS)
  }

  function HistOf(b: Bucket, t: Timing): seq<nat> {
    match t
    case Wait => b.wait
    case Queue => b.queue
    case Account => b.account
    case Execution => b.execution
    case First => b.first
    case Total => b.total
  }

  predicate Sized(b: Bucket) {
    && |b.wait| == |b.queue| == |b.account| == SLOTS
    && |b.execution| == |b.first| == |b.total| == SLOTS
  }

  function Value(b: Bucket, f: Field): nat {
    match f
    case Count => b.count
    case Errors => b.errors
    case Incompletes => b.incomplete
    case Attempts => b.attempts
    case Upstream429 => b.upstream429
    case FirstCount => b.firstCount
    case ExecutionCount => b.executionCount
    case Hist(t, i) => if i < |HistOf(b, t)| then HistOf(b, t)[i] else 0
  }

  function Bump(hist: seq<nat>, d: Option<int>): (r: seq<nat>)
    requires |hist| == SLOTS
    ensures |r| == SLOTS
  {
    if d.Some? then Bumped(hist, d.value) else hist
  }

  function One(b: bool): nat { if b then 1 else 0 }

  function Added(b: Bucket, c: Call): (r: Bucket)
    requires Sized(b)
    ensures Sized(r)
  {
    Bucket(b.minute, b.count + 1,
           b.errors + One(!c.outcome.Incomplete? && (c.outcome.Failed? || c.status >= 400)),
           b.incomplete + One(c.outcome.Incomplete?), b.attempts + c.attempts, b.upstream429 + c.upstream429,
           b.firstCount + One(Duration(c, First).Some?), b.executionCount + One(Duration(c, Execution).Some?),
           Bump(b.wait, Duration(c, Wait)), Bump(b.queue, Duration(c, Queue)), Bump(b.account, Duration(c, Account)),
           Bump(b.execution, Duration(c, Execution)), Bump(b.first, Duration(c, First)),
           Bump(b.total, Duration(c, Total)))
  }

  /** Every counter grows by what the call adds to it. */
  lemma AddedValue(b: Bucket, c: Call, f: Field)
    requires Sized(b)
    ensures Value(Added(b, c), f) == Value(b, f) + Increment(c, f)
  {
    if f.Hist? {
      AddedHist(b, c, f.timing);
      hide Slot, Added, Bumped;
      if f.slot >= SLOTS && Duration(c, f.timing).Some? {
        assert InSlot(Duration(c, f.timing).value, Slot(Duration(c, f.timing).value));
      }
    }
  }

  lemma AddedHist(b: Bucket, c: Call, t: Timing)
    requires Sized(b)
    ensures HistOf(Added(b, c), t) == Bump(HistOf(b, t), Duration(c, t)) && |HistOf(b, t)| == SLOTS
  {
    hide Bump, Duration;
  }

  /** `record`, on the bucket of the call's minute. */
  method AddCall(b: Bucket, c: Call) returns (b': Bucket)
    requires Sized(b)
    ensures b' == Added(b, c)
  {
    hide Bumped, Slot;
    var incomplete, errors := b.incomplete, b.errors;
    if c.outcome == Incomplete {
      incomplete := incomplete + 1;
    } else if c.outcome == Failed || c.status >= 400 {
      errors := errors + 1;
    }
    var wait := AddTiming(b.wait, c.wait);
    var queue := AddTiming(b.queue, c.queue);
    var account := AddTiming(b.account, c.account);
    var total := AddTiming(b.total, c.total);
    var execution, executionCount := b.execution, b.executionCount;
    if c.attempts > 0 {
      executionCount := executionCount + 1;
      execution := AddTiming(execution, if c.run < 0 then 0 else c.run);
    }
    var first, firstCount := b.first, b.firstCount;
    if c.first.Some? {
      firstCount := firstCount + 1;
      first := AddTiming(first, c.first.value);
    }
    b' := Bucket(b.minute, b.count + 1, errors, incomplete, b.attempts + c.attempts,
                 b.upstream429 + c.upstream429, firstCount, executionCount,
                 wait, queue, account, execution, first, total);
  }

  method AddHist(a: seq<nat>, b: seq<nat>) returns (r: seq<nat>)
    requires |a| == |b| == SLOTS
    ensures |r| == SLOTS && forall i :: 0 <= i < SLOTS ==> r[i] == a[i] + b[i]
  {
    r := a;
    for i := 0 to SLOTS
      invariant |r| == SLOTS
      invariant forall j :: 0 <= j < SLOTS ==> r[j] == if j < i then a[j] + b[j] else a[j]
    {
      r := r[i := r[i] + b[i]];
    }
  }

  /** One round of the summation in `snapshot`. */
  method AddBucket(sum: Bucket, b: Bucket) returns (r: Bucket)
    requires Sized(sum) && Sized(b)
    ensures Sized(r) && forall f :: Value(r, f) == Value(sum, f) + Value(b, f)
  {
    var wait := AddHist(sum.wait, b.wait);
    var queue := AddHist(sum.queue, b.queue);
    var account := AddHist(sum.account, b.account);
    var execution := AddHist(sum.execution, b.execution);
    var first := AddHist(sum.first, b.first);
    var total := AddHist(sum.total, b.total);
    r := Bucket(sum.minute, sum.count + b.count, sum.errors + b.errors, sum.incomplete + b.incomplete,
                sum.attempts + b.attempts, sum.upstream429 + b.upstream429, sum.firstCount + b.firstCount,
                sum.executionCount + b.executionCount, wait, queue, account, execution, first, total);
    forall f ensures Value(r, f) == Value(sum, f) + Value(b, f) {
    }
  }
}
