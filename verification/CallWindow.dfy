/** Why sixty lazily reset buckets are exactly the last hour. */
module CallWindow {
  import opened CallMonitor

  /** A recorded call with its minute since the epoch. */
  datatype Event = Event(minute: nat, call: Call)

  type Buckets = b: seq<Bucket> | |b| == WINDOW witness seq(WINDOW, i => Fresh(0))

  function Empty(): Buckets { seq(WINDOW, i => Fresh(0)) }

  /** `record`: a bucket of another minute is reset first. */
  function Recorded(buckets: Buckets, e: Event): (r: Buckets)
    requires forall k :: 0 <= k < WINDOW ==> Sized(buckets[k])
    ensures forall k :: 0 <= k < WINDOW ==> Sized(r[k])
  {
    var k := e.minute % WINDOW;
    var b := if buckets[k].minute == e.minute then buckets[k] else Fresh(e.minute);
    buckets[k := Added(b, e.call)]
  }

  predicate Current(minute: int, now: int) { 0 <= now - minute < WINDOW }

  /** `snapshot`, one counter over the first n buckets. */
  function Summed(buckets: Buckets, now: int, f: Field, n: nat): nat
    requires n <= WINDOW
  {
    if n == 0 then 0
    else Summed(buckets, now, f, n - 1) + (if Current(buckets[n - 1].minute, now) then Value(buckets[n - 1], f) else 0)
  }

  // ------------------------------------------------------------------ history

  /** Minutes: one minute of a slot, the window, and its part in one slot or in the
      slots below n. */
  datatype Minutes =
    | One(minute: nat, slot: nat)
    | Window(now: int)
    | WindowSlot(now: int, slot: nat)
    | WindowBelow(now: int, n: nat)

  predicate Chosen(p: Minutes, m: nat) {
    match p
    case One(minute, slot) => m == minute && m % WINDOW == slot
    case Window(now) => Current(m, now)
    case WindowSlot(now, slot) => Current(m, now) && m % WINDOW == slot
    case WindowBelow(now, n) => Current(m, now) && m % WINDOW < n
  }

  /** The counter over the recorded calls of the chosen minutes. */
  function Tally(h: seq<Event>, chosen: Minutes, f: Field): nat
    decreases |h|
  {
    if |h| == 0 then 0
    else
      Tally(h[..|h| - 1], chosen, f)
      + (if Chosen(chosen, h[|h| - 1].minute) then Increment(h[|h| - 1].call, f) else 0)
  }

  predicate ClockForward(h: seq<Event>) {
    forall i, j :: 0 <= i < j < |h| ==> h[i].minute <= h[j].minute
  }

  function After(h: seq<Event>): (r: Buckets)
    ensures forall k :: 0 <= k < WINDOW ==> Sized(r[k])
    decreases |h|
  {
    if |h| == 0 then Empty() else Recorded(After(h[..|h| - 1]), h[|h| - 1])
  }

  lemma {:induction false} TallySame(h: seq<Event>, p: Minutes, q: Minutes, f: Field)
    requires forall i :: 0 <= i < |h| ==> Chosen(p, h[i].minute) == Chosen(q, h[i].minute)
    ensures Tally(h, p, f) == Tally(h, q, f)
    decreases |h|
  {
    if |h| > 0 {
      TallySame(h[..|h| - 1], p, q, f);
    }
  }

  predicate Disjoint(p: Minutes, q: Minutes, r: Minutes, m: nat) {
    Chosen(p, m) == (Chosen(q, m) || Chosen(r, m)) && !(Chosen(q, m) && Chosen(r, m))
  }

  lemma {:induction false} TallySplit(h: seq<Event>, p: Minutes, q: Minutes, r: Minutes, f: Field)
    requires forall i :: 0 <= i < |h| ==> Disjoint(p, q, r, h[i].minute)
    ensures Tally(h, p, f) == Tally(h, q, f) + Tally(h, r, f)
    decreases |h|
  {
    if |h| > 0 {
      TallySplit(h[..|h| - 1], p, q, r, f);
    }
  }

  lemma {:induction false} TallyNone(h: seq<Event>, p: Minutes, f: Field)
    requires forall i :: 0 <= i < |h| ==> !Chosen(p, h[i].minute)
    ensures Tally(h, p, f) == 0
    decreases |h|
  {
    if |h| > 0 {
      TallyNone(h[..|h| - 1], p, f);
    }
  }

  // -------------------------------------------------------------------- slots

  lemma FreshIsEmpty(minute: nat, f: Field)
    ensures Value(Fresh(minute), f) == 0
  {
    if f.Hist? && f.slot < SLOTS {
      assert HistOf(Fresh(minute), f.timing) == ZEROS;
    }
  }

  /** The bucket of a slot after a call. */
  function Next(b: Bucket, k: nat, e: Event): Bucket
    requires Sized(b)
  {
    if e.minute % WINDOW != k then b
    else Added(if b.minute == e.minute then b else Fresh(e.minute), e.call)
  }

  lemma RecordedAt(buckets: Buckets, e: Event, k: nat)
    requires k < WINDOW && forall i :: 0 <= i < WINDOW ==> Sized(buckets[i])
    ensures Recorded(buckets, e)[k] == Next(buckets[k], k, e)
  {
    hide Added, Fresh;
  }

  lemma AfterStep(h: seq<Event>, k: nat)
    requires |h| > 0 && k < WINDOW
    ensures After(h)[k] == Next(After(h[..|h| - 1])[k], k, h[|h| - 1])
  {
    RecordedAt(After(h[..|h| - 1]), h[|h| - 1], k);
  }

  /** What a bucket says about minute m. */
  function Share(b: Bucket, m: nat, f: Field): nat { if b.minute == m then Value(b, f) else 0 }

  lemma NextMinute(b: Bucket, k: nat, e: Event)
    requires Sized(b)
    ensures Next(b, k, e).minute == if e.minute % WINDOW == k then e.minute else b.minute
  {
    hide Bump, Bumped;
  }

  lemma NextShare(b: Bucket, k: nat, e: Event, m: nat, f: Field)
    requires Sized(b) && m % WINDOW == k
    ensures Share(Next(b, k, e), m, f)
         == if e.minute % WINDOW != k then Share(b, m, f)
            else if e.minute == m then Share(b, m, f) + Increment(e.call, f)
            else 0
  {
    NextMinute(b, k, e);
    var start := if b.minute == e.minute then b else Fresh(e.minute);
    AddedValue(start, e.call, f);
    FreshIsEmpty(e.minute, f);
    hide Added, Increment, Value;
  }

  /** A call of minute m was followed by one of another minute of the same slot. */
  predicate Lost(h: seq<Event>, m: nat) {
    exists i, j :: 0 <= i < j < |h| && h[i].minute == m
                   && h[j].minute % WINDOW == m % WINDOW && h[j].minute != m
  }

  /** The minute occurs. */
  predicate Occurs(h: seq<Event>, m: nat) { exists i :: 0 <= i < |h| && h[i].minute == m }

  lemma NextLost(h: seq<Event>, m: nat)
    requires |h| > 0
    ensures var before, e := h[..|h| - 1], h[|h| - 1];
      && (Occurs(h, m) <==> Occurs(before, m) || e.minute == m)
      && (Lost(h, m) <==>
            Lost(before, m) || (Occurs(before, m) && e.minute % WINDOW == m % WINDOW && e.minute != m))
  {
    var before, e := h[..|h| - 1], h[|h| - 1];
    if i :| 0 <= i < |before| && before[i].minute == m {
      assert h[i].minute == m;
      assert h[|h| - 1] == e;
    }
    if Lost(before, m) {
      var i, j :| 0 <= i < j < |before| && before[i].minute == m
                  && before[j].minute % WINDOW == m % WINDOW && before[j].minute != m;
      assert h[i].minute == m && h[j] == before[j];
    }
    if Lost(h, m) {
      var i, j :| 0 <= i < j < |h| && h[i].minute == m && h[j].minute % WINDOW == m % WINDOW && h[j].minute != m;
      assert before[i].minute == m;
      assert j < |before| ==> before[j] == h[j];
    }
    if Occurs(h, m) {
      var i :| 0 <= i < |h| && h[i].minute == m;
      assert i < |before| ==> before[i].minute == m;
    }
  }

  lemma TallyStep(h: seq<Event>, p: Minutes, f: Field)
    requires |h| > 0
    ensures Tally(h, p, f) == Tally(h[..|h| - 1], p, f)
                              + (if Chosen(p, h[|h| - 1].minute) then Increment(h[|h| - 1].call, f) else 0)
  {
    hide Increment, Chosen;
  }

  /** The bucket of a slot never says more about a minute than was recorded, and it
      says everything exactly when no call of the minute was followed by one of
      another minute of the slot. */
  lemma {:induction false} ShareIsTally(h: seq<Event>, m: nat, f: Field)
    ensures var k := m % WINDOW;
      var share, all := Share(After(h)[k], m, f), Tally(h, One(m, k), f);
      && share <= all
      && (!Occurs(h, m) ==> all == 0)
      && (!Lost(h, m) ==> share == all)
      && (f == Count ==> (Occurs(h, m) <==> all > 0) && (Lost(h, m) ==> share < all))
    decreases |h|
  {
    var k := m % WINDOW;
    hide After, Tally, Share, Next, Increment, Occurs, Lost;
    if |h| == 0 {
      EmptyShare(h, m, f);
    } else {
      var before, e := h[..|h| - 1], h[|h| - 1];
      ShareIsTally(before, m, f);
      AfterStep(h, k);
      NextShare(After(before)[k], k, e, m, f);
      NextLost(h, m);
      TallyStep(h, One(m, k), f);
      assert Increment(e.call, Count) == 1 by { OneEach(e.call); }
    }
  }

  lemma OneEach(c: Call)
    ensures Increment(c, Count) == 1
  {
  }

  lemma EmptyShare(h: seq<Event>, m: nat, f: Field)
    requires h == []
    ensures Share(After(h)[m % WINDOW], m, f) == 0 == Tally(h, One(m, m % WINDOW), f)
    ensures !Occurs(h, m) && !Lost(h, m)
  {
    FreshIsEmpty(0, f);
  }

  /** A bucket is dated with a minute of its slot, or blank. */
  lemma {:induction false} RightSlot(h: seq<Event>, k: nat)
    requires k < WINDOW
    ensures After(h)[k].minute % WINDOW == k || After(h)[k] == Fresh(0)
    decreases |h|
  {
    hide Fresh, Added;
    if |h| > 0 {
      RightSlot(h[..|h| - 1], k);
      AfterStep(h, k);
      NextMinute(After(h[..|h| - 1])[k], k, h[|h| - 1]);
      hide After;
    }
  }

  // ------------------------------------------------------------------- window

  /** No call of the window was followed by a call of the same slot but of another
      minute. */
  predicate NothingLost(h: seq<Event>, now: int) { NothingLostBelow(h, now, WINDOW) }

  predicate NothingLostBelow(h: seq<Event>, now: int, n: nat) {
    forall i, j :: 0 <= i < j < |h| && Current(h[i].minute, now) && h[i].minute % WINDOW < n
                   && h[j].minute % WINDOW == h[i].minute % WINDOW ==>
      h[j].minute == h[i].minute
  }

  /** The minute of the window that falls into slot k. */
  function MinuteOf(now: int, k: nat): int { now - (now - k) % WINDOW }

  lemma OneMinutePerSlot(now: int, k: nat, m: nat)
    requires k < WINDOW
    ensures Current(m, now) && m % WINDOW == k <==> m == MinuteOf(now, k)
  {
    var q, r := (now - k) / WINDOW, (now - k) % WINDOW;
    assert now - k == q * WINDOW + r;
    assert MinuteOf(now, k) == k + q * WINDOW;
    SameRemainder(k, q);
    if Current(m, now) && m % WINDOW == k {
      assert m == m / WINDOW * WINDOW + k;
    }
  }

  lemma SameRemainder(k: nat, q: int)
    requires k < WINDOW
    ensures (k + q * WINDOW) % WINDOW == k
  {
  }

  lemma WindowSplits(now: int, n: nat, m: nat)
    ensures Disjoint(WindowBelow(now, n + 1), WindowBelow(now, n), WindowSlot(now, n), m)
  {
  }

  function Contribution(b: Bucket, now: int, f: Field): nat { if Current(b.minute, now) then Value(b, f) else 0 }

  lemma SlotWithoutMinute(h: seq<Event>, k: nat, now: int, f: Field)
    requires k < WINDOW && MinuteOf(now, k) < 0
    ensures Contribution(After(h)[k], now, f) == 0 == Tally(h, WindowSlot(now, k), f)
  {
    RightSlot(h, k);
    OneMinutePerSlot(now, k, After(h)[k].minute);
    FreshIsEmpty(0, f);
    hide After, MinuteOf, Value;
    forall i | 0 <= i < |h| ensures !Chosen(WindowSlot(now, k), h[i].minute) {
      OneMinutePerSlot(now, k, h[i].minute);
    }
    TallyNone(h, WindowSlot(now, k), f);
  }

  lemma SlotWithMinute(h: seq<Event>, k: nat, now: int, f: Field)
    requires k < WINDOW && MinuteOf(now, k) >= 0
    ensures var m := MinuteOf(now, k);
      && Contribution(After(h)[k], now, f) == Share(After(h)[k], m, f)
      && Tally(h, WindowSlot(now, k), f) == Tally(h, One(m, k), f)
  {
    var m := MinuteOf(now, k);
    RightSlot(h, k);
    OneMinutePerSlot(now, k, After(h)[k].minute);
    OneMinutePerSlot(now, k, m);
    FreshIsEmpty(0, f);
    hide After, MinuteOf, Value;
    forall i | 0 <= i < |h| ensures Chosen(WindowSlot(now, k), h[i].minute) == Chosen(One(m, k), h[i].minute) {
      OneMinutePerSlot(now, k, h[i].minute);
    }
    TallySame(h, WindowSlot(now, k), One(m, k), f);
  }

  /** What is lost of the slots below n + 1. */
  lemma LostSplits(h: seq<Event>, now: int, n: nat)
    requires n < WINDOW
    ensures var m := MinuteOf(now, n);
      NothingLostBelow(h, now, n + 1) <==> NothingLostBelow(h, now, n) && (m >= 0 ==> !Lost(h, m))
  {
    var m := MinuteOf(now, n);
    hide MinuteOf;
    forall i | 0 <= i < |h|
      ensures Current(h[i].minute, now) && h[i].minute % WINDOW == n <==> h[i].minute == m
    {
      OneMinutePerSlot(now, n, h[i].minute);
    }
    hide Current;
    if NothingLostBelow(h, now, n + 1) && m >= 0 {
      assert !Lost(h, m);
    }
    if NothingLostBelow(h, now, n) && (m >= 0 ==> !Lost(h, m)) {
      forall i, j | 0 <= i < j < |h| && Current(h[i].minute, now) && h[i].minute % WINDOW == n
                    && h[j].minute % WINDOW == h[i].minute % WINDOW
        ensures h[j].minute == h[i].minute
      {
      }
    }
  }

  lemma SummedStep(buckets: Buckets, now: int, f: Field, n: nat)
    requires 0 < n <= WINDOW
    ensures Summed(buckets, now, f, n) == Summed(buckets, now, f, n - 1) + Contribution(buckets[n - 1], now, f)
  {
    hide Value, Current;
  }

  lemma SlotIsTally(h: seq<Event>, now: int, f: Field, k: nat)
    requires k < WINDOW
    ensures var part, all := Contribution(After(h)[k], now, f), Tally(h, WindowSlot(now, k), f);
      var lost := MinuteOf(now, k) >= 0 && Lost(h, MinuteOf(now, k));
      && part <= all && (!lost ==> part == all) && (f == Count && lost ==> part < all)
  {
    var m := MinuteOf(now, k);
    hide After, Tally, Contribution, Share, Lost, Occurs;
    if m < 0 {
      SlotWithoutMinute(h, k, now, f);
    } else {
      SlotWithMinute(h, k, now, f);
      OneMinutePerSlot(now, k, m);
      ShareIsTally(h, m, f);
    }
  }

  lemma {:induction false} SumOfSlots(h: seq<Event>, now: int, f: Field, n: nat)
    requires n <= WINDOW
    ensures var sum, all := Summed(After(h), now, f, n), Tally(h, WindowBelow(now, n), f);
      && sum <= all
      && (NothingLostBelow(h, now, n) ==> sum == all)
      && (f == Count && !NothingLostBelow(h, now, n) ==> sum < all)
    decreases n
  {
    hide After, Contribution, Chosen, Tally, Disjoint, Lost, MinuteOf;
    if n == 0 {
      NothingBelowZero(h, now, f);
    } else {
      hide NothingLostBelow;
      SumOfSlots(h, now, f, n - 1);
      SlotIsTally(h, now, f, n - 1);
      LostSplits(h, now, n - 1);
      SummedStep(After(h), now, f, n);
      hide Summed;
      forall i | 0 <= i < |h|
        ensures Disjoint(WindowBelow(now, n), WindowBelow(now, n - 1), WindowSlot(now, n - 1), h[i].minute)
      {
        WindowSplits(now, n - 1, h[i].minute);
      }
      TallySplit(h, WindowBelow(now, n), WindowBelow(now, n - 1), WindowSlot(now, n - 1), f);
    }
  }

  lemma NothingBelowZero(h: seq<Event>, now: int, f: Field)
    ensures Tally(h, WindowBelow(now, 0), f) == 0 && NothingLostBelow(h, now, 0)
  {
    TallyNone(h, WindowBelow(now, 0), f);
  }

  /** The sliding window: every counter of a snapshot is exact over the calls of the
      last sixty minutes as long as no call of the window was overwritten. */
  lemma SnapshotIsLastHour(h: seq<Event>, now: int, f: Field)
    requires NothingLost(h, now)
    ensures Summed(After(h), now, f, WINDOW) == Tally(h, Window(now), f)
  {
    SumOfSlots(h, now, f, WINDOW);
    TallySame(h, WindowBelow(now, WINDOW), Window(now), f);
  }

  /** ... and the number of calls is exact only then, and never too large. */
  lemma CountExactIff(h: seq<Event>, now: int)
    ensures Summed(After(h), now, Count, WINDOW) <= Tally(h, Window(now), Count)
    ensures Summed(After(h), now, Count, WINDOW) == Tally(h, Window(now), Count) <==> NothingLost(h, now)
  {
    SumOfSlots(h, now, Count, WINDOW);
    TallySame(h, WindowBelow(now, WINDOW), Window(now), Count);
    hide Summed, After, Tally;
  }

  predicate NoLater(h: seq<Event>, now: int) { forall i :: 0 <= i < |h| ==> h[i].minute <= now }

  /** A clock that never goes backwards loses nothing. */
  lemma ClockForwardLosesNothing(h: seq<Event>, now: int)
    requires ClockForward(h) && NoLater(h, now)
    ensures NothingLost(h, now)
  {
    forall i, j | 0 <= i < j < |h| && Current(h[i].minute, now)
                  && h[j].minute % WINDOW == h[i].minute % WINDOW
      ensures h[j].minute == h[i].minute
    {
      var k := h[i].minute % WINDOW;
      OneMinutePerSlot(now, k, h[i].minute);
      OneMinutePerSlot(now, k, h[j].minute);
    }
  }

  /** Going back one minute loses nothing; going back an hour does. */
  lemma ClockBackwardLosesCalls(c: Call)
    ensures Summed(After([Event(61, c), Event(60, c)]), 61, Count, WINDOW)
         == Tally([Event(61, c), Event(60, c)], Window(61), Count)
    ensures Summed(After([Event(60, c), Event(0, c)]), 60, Count, WINDOW)
          < Tally([Event(60, c), Event(0, c)], Window(60), Count)
  {
    var far, near := [Event(60, c), Event(0, c)], [Event(61, c), Event(60, c)];
    assert Current(far[0].minute, 60) && far[1].minute % WINDOW == far[0].minute % WINDOW;
    assert !NothingLost(far, 60) && NothingLost(near, 61);
    CountExactIff(far, 60);
    CountExactIff(near, 61);
    hide Summed, After, Tally;
  }

  // -------------------------------------------------------------- percentiles

  /** The durations of one kind among the calls of the chosen minutes. */
  function Samples(h: seq<Event>, chosen: Minutes, t: Timing): seq<int>
    decreases |h|
  {
    if |h| == 0 then []
    else
      var e := h[|h| - 1];
      (if Chosen(chosen, e.minute) && Duration(e.call, t).Some? then [Duration(e.call, t).value] else [])
      + Samples(h[..|h| - 1], chosen, t)
  }

  /** The counter that goes with a histogram. */
  function SampleCount(t: Timing): Field {
    if t.First? then FirstCount else if t.Execution? then ExecutionCount else Count
  }

  lemma IncrementOfSample(c: Call, t: Timing, i: nat)
    ensures Increment(c, SampleCount(t)) == if Duration(c, t).Some? then 1 else 0
    ensures Increment(c, Hist(t, i)) == if Duration(c, t).Some? && Slot(Duration(c, t).value) == i then 1 else 0
  {
    hide Slot;
  }

  lemma SamplesStep(h: seq<Event>, chosen: Minutes, t: Timing)
    requires |h| > 0
    ensures var e, before := h[|h| - 1], Samples(h[..|h| - 1], chosen, t);
      Samples(h, chosen, t) == if Chosen(chosen, e.minute) && Duration(e.call, t).Some?
                               then [Duration(e.call, t).value] + before else before
  {
    hide Chosen, Duration;
    assert [] + Samples(h[..|h| - 1], chosen, t) == Samples(h[..|h| - 1], chosen, t);
  }

  lemma OneMoreSample(v: int, rest: seq<int>, i: nat)
    ensures InSlotCount([v] + rest, i) == (if Slot(v) == i then 1 else 0) + InSlotCount(rest, i)
  {
    hide Slot;
    assert ([v] + rest)[1..] == rest;
  }

  lemma {:induction false} TallyCountsSamples(h: seq<Event>, chosen: Minutes, t: Timing, i: nat)
    ensures Tally(h, chosen, Hist(t, i)) == InSlotCount(Samples(h, chosen, t), i)
    ensures Tally(h, chosen, SampleCount(t)) == |Samples(h, chosen, t)|
    decreases |h|
  {
    if |h| > 0 {
      var e := h[|h| - 1];
      TallyCountsSamples(h[..|h| - 1], chosen, t, i);
      TallyStep(h, chosen, Hist(t, i));
      TallyStep(h, chosen, SampleCount(t));
      IncrementOfSample(e.call, t, i);
      SamplesStep(h, chosen, t);
      hide Slot, Chosen, Tally, Increment, InSlotCount, Duration, Samples, SampleCount;
      if Chosen(chosen, e.minute) && Duration(e.call, t).Some? {
        OneMoreSample(Duration(e.call, t).value, Samples(h[..|h| - 1], chosen, t), i);
      }
    }
  }

  /** Every percentile of a snapshot speaks about exactly the calls of the last hour. */
  lemma SnapshotPercentile(h: seq<Event>, now: int, t: Timing, hist: seq<nat>, v: int)
    requires NothingLost(h, now) && |hist| == SLOTS
    requires forall i :: 0 <= i < SLOTS ==> hist[i] == Summed(After(h), now, Hist(t, i), WINDOW)
    requires Samples(h, Window(now), t) != [] ==> NearestRank(Samples(h, Window(now), t), v)
    ensures var p := PercentileOf(hist, Summed(After(h), now, SampleCount(t), WINDOW));
            && (p == None <==> Samples(h, Window(now), t) == [] || v > 3600000)
            && (p.Some? ==> LeastBound(p.value, v))
  {
    var samples := Samples(h, Window(now), t);
    hide After, Summed, Tally, Samples, NothingLost, NearestRank, InSlotCount, PercentileOf, Slot;
    forall i | 0 <= i < SLOTS ensures hist[i] == InSlotCount(samples, i) {
      SnapshotIsLastHour(h, now, Hist(t, i));
      TallyCountsSamples(h, Window(now), t, i);
    }
    SnapshotIsLastHour(h, now, SampleCount(t));
    TallyCountsSamples(h, Window(now), t, 0);
    PercentileBoundsTruth(hist, samples, v);
  }

  // ------------------------------------------------------ what the counters count

  /** The sum of what each call of the last sixty minutes contributes. */
  function Sum(h: seq<Event>, now: int, worth: Call -> nat): nat
    decreases |h|
  {
    if |h| == 0 then 0
    else
      Sum(h[..|h| - 1], now, worth)
      + (if now - 60 < h[|h| - 1].minute <= now then worth(h[|h| - 1].call) else 0)
  }

  lemma {:induction false} TallyIsSum(h: seq<Event>, now: int, f: Field, worth: Call -> nat)
    requires forall c :: Increment(c, f) == worth(c)
    ensures Tally(h, Window(now), f) == Sum(h, now, worth)
    decreases |h|
  {
    hide Increment;
    if |h| > 0 {
      TallyIsSum(h[..|h| - 1], now, f, worth);
    }
  }

  function Each(c: Call): nat { 1 }

  function WasIncomplete(c: Call): nat { if c.outcome == Incomplete then 1 else 0 }

  function WasError(c: Call): nat {
    if c.outcome != Incomplete && (c.outcome == Failed || c.status >= 400) then 1 else 0
  }

  function ItsAttempts(c: Call): nat { c.attempts }

  function ItsRefusals(c: Call): nat { c.upstream429 }

  function WasTried(c: Call): nat { if c.attempts > 0 then 1 else 0 }

  function WasHeard(c: Call): nat { if c.first.Some? then 1 else 0 }

  /** While nothing of the window was overwritten a snapshot counts, over the calls of
      the last hour: all of them; the incomplete ones; as errors those of the others
      that failed or had an error status; their attempts and upstream refusals; those
      with an attempt and those with a first byte. */
  lemma CountersMean(h: seq<Event>, now: int)
    requires NothingLost(h, now)
    ensures var b := After(h);
      && Summed(b, now, Count, WINDOW) == Sum(h, now, Each)
      && Summed(b, now, Incompletes, WINDOW) == Sum(h, now, WasIncomplete)
      && Summed(b, now, Errors, WINDOW) == Sum(h, now, WasError)
      && Summed(b, now, Attempts, WINDOW) == Sum(h, now, ItsAttempts)
      && Summed(b, now, Upstream429, WINDOW) == Sum(h, now, ItsRefusals)
      && Summed(b, now, ExecutionCount, WINDOW) == Sum(h, now, WasTried)
      && Summed(b, now, FirstCount, WINDOW) == Sum(h, now, WasHeard)
  {
    hide After, Summed, Tally, Sum;
    CounterMeans(h, now, Count, Each);
    CounterMeans(h, now, Incompletes, WasIncomplete);
    CounterMeans(h, now, Errors, WasError);
    CounterMeans(h, now, Attempts, ItsAttempts);
    CounterMeans(h, now, Upstream429, ItsRefusals);
    CounterMeans(h, now, ExecutionCount, WasTried);
    CounterMeans(h, now, FirstCount, WasHeard);
  }

  lemma CounterMeans(h: seq<Event>, now: int, f: Field, worth: Call -> nat)
    requires NothingLost(h, now) && forall c :: Increment(c, f) == worth(c)
    ensures Summed(After(h), now, f, WINDOW) == Sum(h, now, worth)
  {
    SnapshotIsLastHour(h, now, f);
    TallyIsSum(h, now, f, worth);
    hide After, Summed, Tally, Sum, Increment;
  }

  /** An outcome left open counts as an error exactly when the list of recent calls
      shows it as one. */
  lemma OpenOutcomeAgrees(c: Call)
    requires c.outcome.Unset?
    ensures Increment(c, Errors) == 1 <==> Observed(c).outcome == Failed
    ensures Increment(c, Incompletes) == 0
  {
  }

  /** The durations behind the percentiles: each call has its own of every kind, the
      execution time only with an attempt and never below zero, the first byte only
      when one was seen. */
  lemma DurationsMean(h: seq<Event>, e: Event, now: int)
    requires now - 60 < e.minute <= now
    ensures Samples(h + [e], Window(now), Total) == [e.call.total] + Samples(h, Window(now), Total)
    ensures Samples(h + [e], Window(now), Wait) == [e.call.wait] + Samples(h, Window(now), Wait)
    ensures Samples(h + [e], Window(now), Queue) == [e.call.queue] + Samples(h, Window(now), Queue)
    ensures Samples(h + [e], Window(now), Account) == [e.call.account] + Samples(h, Window(now), Account)
    ensures Samples(h + [e], Window(now), First)
         == (if e.call.first.Some? then [e.call.first.value] else []) + Samples(h, Window(now), First)
    ensures Samples(h + [e], Window(now), Execution)
         == (if e.call.attempts == 0 then [] else if e.call.run > 0 then [e.call.run] else [0])
            + Samples(h, Window(now), Execution)
  {
    assert (h + [e])[..|h|] == h && (h + [e])[|h|] == e;
  }

  // ---------------------------------------------------------------- the object

  /** A call without an outcome is remembered by its status. */
  function Observed(c: Call): Call {
    if c.outcome.Unset? then c.(outcome := if c.status >= 400 then Failed else Fine) else c
  }

  /** Newest first, at most as many as the ring holds. */
  function Pushed(recent: seq<Call>, c: Call): seq<Call> {
    [c] + (if |recent| < RING then recent else recent[..RING - 1])
  }

  /** The ring from the newest entry back. */
  function Listed(ring: seq<Call>, next: nat, size: nat): (r: seq<Call>)
    requires |ring| == RING && next < RING && size <= RING
    ensures |r| == size && forall i :: 0 <= i < size ==> r[i] == ring[(next + RING - 1 - i) % RING]
  {
    seq(size, i requires 0 <= i < size => ring[(next + RING - 1 - i) % RING])
  }

  lemma ListedAfterPush(ring: seq<Call>, next: nat, size: nat, c: Call)
    requires |ring| == RING && next < RING && size <= RING
    ensures Listed(ring[next := c], (next + 1) % RING, if size < RING then size + 1 else size)
         == Pushed(Listed(ring, next, size), c)
  {
    var size' := if size < RING then size + 1 else size;
    var before, after := Listed(ring, next, size), Listed(ring[next := c], (next + 1) % RING, size');
    forall i | 0 <= i < size' ensures after[i] == if i == 0 then c else before[i - 1] {
      Backwards(next, i);
    }
  }

  lemma Backwards(next: nat, i: nat)
    requires next < RING && i < RING
    ensures var place := ((next + 1) % RING + RING - 1 - i) % RING;
            if i == 0 then place == next else place == (next + RING - 1 - (i - 1)) % RING && place != next
  {
  }

  class Monitor {
    const buckets: array<Bucket>
    const recent: array<Call>
    var next: nat
    var size: nat

    ghost predicate Valid()
      reads this, buckets, recent
    {
      && buckets.Length == WINDOW && recent.Length == RING && next < RING && size <= RING
      && forall k :: 0 <= k < WINDOW ==> Sized(buckets[k])
    }

    ghost function Recent(): seq<Call>
      requires Valid()
      reads this, buckets, recent
    {
      Listed(recent[..], next, size)
    }

    constructor (blank: Call)
      ensures Valid() && fresh(buckets) && fresh(recent) && buckets[..] == Empty() && Recent() == []
    {
      buckets := new Bucket[WINDOW](_ => Fresh(0));
      recent := new Call[RING](_ => blank);
      next, size := 0, 0;
    }

    method Record(e: Event)
      requires Valid()
      modifies this, buckets, recent
      ensures Valid()
      ensures buckets[..] == Recorded(old(buckets[..]), e)
      ensures Recent() == Pushed(old(Recent()), Observed(e.call))
    {
      var k := e.minute % WINDOW;
      if buckets[k].minute != e.minute {
        buckets[k] := Fresh(e.minute);
      }
      var b := AddCall(buckets[k], e.call);
      buckets[k] := b;
      assert buckets[..] == Recorded(old(buckets[..]), e);
      Remember(e.call);
    }

    method Remember(c: Call)
      requires Valid()
      modifies this, recent
      ensures Valid() && Recent() == Pushed(old(Recent()), Observed(c))
    {
      hide Listed, Pushed;
      var observation := c;
      if observation.outcome == Unset {
        observation := observation.(outcome := if c.status >= 400 then Failed else Fine);
      }
      assert observation == Observed(c);
      ListedAfterPush(recent[..], next, size, observation);
      ghost var before := recent[..];
      recent[next] := observation;
      assert recent[..] == before[next := observation];
      next := (next + 1) % RING;
      if size < RING {
        size := size + 1;
      }
    }

    method Snapshot(now: int) returns (total: Bucket, calls: seq<Call>)
      requires Valid()
      ensures Sized(total) && forall f :: Value(total, f) == Summed(buckets[..], now, f, WINDOW)
      ensures calls == Recent()
    {
      total := Fresh(0);
      forall f ensures Value(total, f) == 0 { FreshIsEmpty(0, f); }
      for k := 0 to WINDOW
        invariant Sized(total) && forall f :: Value(total, f) == Summed(buckets[..], now, f, k)
      {
        if now - buckets[k].minute < 0 || now - buckets[k].minute >= WINDOW {
          continue;
        }
        total := AddBucket(total, buckets[k]);
      }
      calls := [];
      for i := 0 to size
        invariant |calls| == i && forall j :: 0 <= j < i ==> calls[j] == Recent()[j]
      {
        calls := calls + [recent[(next + RING - 1 - i) % RING]];
      }
    }
  }

  function RecentAfter(h: seq<Event>): seq<Call>
    decreases |h|
  {
    if |h| == 0 then [] else Pushed(RecentAfter(h[..|h| - 1]), Observed(h[|h| - 1].call))
  }

  /** The call as it is shown: one without an outcome is judged by its status. */
  predicate ShownAs(shown: Call, c: Call) {
    shown == c.(outcome := if c.outcome != Unset then c.outcome else if c.status < 400 then Fine else Failed)
  }

  /** The ring lists exactly the last 128 calls, newest first. */
  lemma {:induction false} RecentIsLastCalls(h: seq<Event>)
    ensures |RecentAfter(h)| == (if |h| < 128 then |h| else 128)
    ensures forall i :: 0 <= i < |RecentAfter(h)| ==> ShownAs(RecentAfter(h)[i], h[|h| - 1 - i].call)
    decreases |h|
  {
    if |h| > 0 {
      RecentIsLastCalls(h[..|h| - 1]);
    }
  }
}
