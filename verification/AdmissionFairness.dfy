/** Turns are fair over whole runs: the dates the scheduler keeps are positions in
    the history of all starts, and they decide who goes next. */
module AdmissionFairness {
  import opened AdmissionSpec
  import opened AdmissionInvariant
  import opened AdmissionSections
  import opened AdmissionRuns
  import opened AdmissionTheorems

  // -------------------------------------------------------- the history of starts

  /** The keys a dispatch starts, in order. */
  function DispatchStarts(s: Sched): seq<Key>
    requires QueueInRange(s)
    decreases |s.queue|
  {
    if s.active >= s.c.capacity || Pick(s) < 0 then []
    else [Waiter(s, Pick(s)).key] + DispatchStarts(DispatchStep(s))
  }

  /** The dispatch after its first n starts. */
  function Dispatched(s: Sched, n: nat): (r: Sched)
    requires QueueInRange(s) && n <= |DispatchStarts(s)|
    ensures QueueInRange(r)
    decreases n
  {
    hide DispatchStep, Pick;
    if n == 0 then s else Dispatched(DispatchStep(s), n - 1)
  }

  /** The state in which a section begins to dispatch, if it does. */
  function Entry(s: Sched, op: Op): (e: Option<Sched>)
    requires QueueInRange(s)
    ensures e.Some? ==> QueueInRange(e.value)
  {
    match op
    case AcquireOp(key, _, _, bytes) =>
      if s.c.unlimited || OverBudget(s.c, key, bytes) then None else Some(s)
    case BindOp(id, choose) =>
      if id < |s.tickets| && !s.c.unlimited && Bindable(s, id) then Some(Yield(s, id, choose)) else None
    case ParkOp(id) =>
      if |s.tickets| <= id || s.c.unlimited || s.tickets[id].released || !s.tickets[id].running
         || QueueRefusal(s, s.tickets[id]).Some? then None
      else Some(Stop(Enqueue(s.(tickets := s.tickets[id := s.tickets[id].(ready := false)]), id), id))
    case UnparkOp(id) =>
      if |s.tickets| <= id || s.c.unlimited then None
      else Some(s.(tickets := s.tickets[id := s.tickets[id].(ready := true)]))
    case GiveUpOp(id, timeout) =>
      if |s.tickets| <= id || s.c.unlimited || (timeout && s.tickets[id].running) then None
      else Some(Remove(if timeout then Reject(s, ModelQueueTimeout) else s, id))
    case ReleaseOp(id) =>
      if |s.tickets| <= id || s.tickets[id].released then None else Some(Remove(Marked(s, id), id))
    case TickOp => if s.c.unlimited then None else Some(s)
    case PressureOp(_) => None
  }

  /** The key a section starts by itself once its dispatch is over. */
  function Direct(s: Sched, op: Op): seq<Key>
    requires QueueInRange(s)
  {
    if Entry(s, op).None? then []
    else
      match op
      case AcquireOp(key, override, model, bytes) =>
        var t := NewTicket(s.c, key, override, model, bytes);
        var d := Append(Dispatch(s), t);
        if d.active < d.c.capacity && Room(d, t) then [key] else []
      case BindOp(id, choose) =>
        var d := Dispatch(Yield(s, id, choose));
        var t := d.tickets[id];
        if d.active < d.c.capacity && Room(d, t) && choose(BusyAccounts(d)).Free? then [t.key] else []
      case _ => []
  }

  function StepStarts(s: Sched, op: Op): seq<Key>
    requires QueueInRange(s)
  {
    if Entry(s, op).None? then [] else DispatchStarts(Entry(s, op).value) + Direct(s, op)
  }

  function RunStarts(s: Sched, ops: seq<Op>): seq<Key>
    requires QueueInRange(s)
    decreases |ops|
  {
    if |ops| == 0 then [] else StepStarts(s, ops[0]) + RunStarts(Step(s, ops[0]), ops[1..])
  }

  // ------------------------------------------------------------------------- dates

  /** The last start of the key is number n (counting from one). */
  predicate LastStart(h: seq<Key>, k: Key, n: nat) {
    1 <= n <= |h| && h[n - 1] == k && k !in h[n..]
  }

  /** Starts are numbered, and the date of a key is the number of its last start. */
  predicate Dated(s: Sched, h: seq<Key>) {
    s.sequence == |h| && forall k :: k in s.served ==> LastStart(h, k, s.served[k])
  }

  lemma DatedSame(s: Sched, r: Sched, h: seq<Key>)
    requires Dated(s, h) && r.sequence == s.sequence
    requires forall k :: k in r.served ==> k in s.served && r.served[k] == s.served[k]
    ensures Dated(r, h)
  {
  }

  lemma StartDated(s: Sched, id: nat, h: seq<Key>)
    requires Dated(s, h) && id < |s.tickets|
    ensures Dated(Start(s, id), h + [s.tickets[id].key])
  {
    var key := s.tickets[id].key;
    var r, g := Start(s, id), h + [key];
    assert r.served == s.served[key := |g|] && r.sequence == |g|;
    hide Start;
    forall k | k in r.served ensures LastStart(g, k, r.served[k]) {
      if k != key {
        assert g[s.served[k]..] == h[s.served[k]..] + [key];
      }
    }
  }

  lemma DispatchStepDated(s: Sched, h: seq<Key>)
    requires QueueInRange(s) && Pick(s) >= 0 && Dated(s, h)
    ensures Dated(DispatchStep(s), h + [Waiter(s, Pick(s)).key])
  {
    var w := s.(tickets := Scanned(s, |s.queue|), queue := DropAt(s.queue, Pick(s)));
    ScannedHoldings(s);
    DatedSame(s, w, h);
    hide Scanned, Pick, DropAt;
    StartDated(w, s.queue[Pick(s)], h);
  }

  lemma {:induction false} DispatchedDated(s: Sched, n: nat, h: seq<Key>)
    requires QueueInRange(s) && n <= |DispatchStarts(s)| && Dated(s, h)
    ensures Dated(Dispatched(s, n), h + DispatchStarts(s)[..n])
    decreases n
  {
    hide DispatchStep, Pick, Dated;
    if n == 0 {
      assert h + DispatchStarts(s)[..0] == h;
    } else {
      var first := [Waiter(s, Pick(s)).key];
      var rest := DispatchStarts(DispatchStep(s));
      DispatchStepDated(s, h);
      DispatchedDated(DispatchStep(s), n - 1, h + first);
      assert DispatchStarts(s) == first + rest;
      assert h + (first + rest)[..n] == h + first + rest[..n - 1];
    }
  }

  /** The n-th start of a dispatch is the pick of the state before it. */
  lemma {:induction false} NextPick(s: Sched, n: nat)
    requires QueueInRange(s) && n < |DispatchStarts(s)|
    ensures var d := Dispatched(s, n);
      Pick(d) >= 0 && d.active < d.c.capacity && Waiter(d, Pick(d)).key == DispatchStarts(s)[n]
    decreases n
  {
    hide DispatchStep, Pick;
    if n > 0 {
      NextPick(DispatchStep(s), n - 1);
    }
  }

  lemma {:induction false} LoopDated(s: Sched, h: seq<Key>)
    requires QueueInRange(s) && Dated(s, h)
    ensures Dated(DispatchLoop(s), h + DispatchStarts(s))
    decreases |s.queue|
  {
    hide DispatchStep, Pick, Scanned;
    if s.active < s.c.capacity && Pick(s) >= 0 {
      var first := [Waiter(s, Pick(s)).key];
      var rest := DispatchStarts(DispatchStep(s));
      DispatchStepDated(s, h);
      hide Dated;
      LoopDated(DispatchStep(s), h + first);
      assert DispatchStarts(s) == first + rest;
      assert h + (first + rest) == h + first + rest;
    } else {
      assert DispatchStarts(s) == [] && h + [] == h;
      DatedSame(s, DispatchLoop(s), h);
    }
  }

  lemma DispatchDated(s: Sched, h: seq<Key>)
    requires QueueInRange(s) && Dated(s, h)
    ensures Dated(Dispatch(s), h + DispatchStarts(s))
  {
    LoopDated(s, h);
    DatedSame(DispatchLoop(s), Dispatch(s), h + DispatchStarts(s));
  }

  // ---------------------------------------------------------------------- sections

  lemma RemoveDated(s: Sched, id: nat, h: seq<Key>)
    requires QueueInRange(s) && id < |s.tickets| && Dated(s, h)
    ensures Dated(Remove(s, id), h)
  {
    var s1 := ReleaseAccount(s, id);
    var s2 := ReleaseBuffer(s1, id);
    var s3 := Leave(s2, id);
    assert s1.sequence == s.sequence && s1.served == s.served;
    assert s2.sequence == s1.sequence && s2.served == s1.served;
    assert s3.sequence == s2.sequence && s3.served == s2.served;
    hide ReleaseAccount, ReleaseBuffer, Leave;
    DatedSame(s, Remove(s, id), h);
  }

  lemma ParkDated(s: Sched, id: nat, h: seq<Key>)
    requires QueueInRange(s) && Dated(s, h) && id < |s.tickets|
    ensures var s1 := Enqueue(s.(tickets := s.tickets[id := s.tickets[id].(ready := false)]), id);
      Dated(Stop(s1, id), h)
  {
    var s0 := s.(tickets := s.tickets[id := s.tickets[id].(ready := false)]);
    var s1 := Enqueue(s0, id);
    assert s1.served == s.served && s1.sequence == s.sequence by { hide QueueRefusal; }
    hide Enqueue;
    DatedSame(s, Stop(s1, id), h);
  }

  lemma YieldDated(s: Sched, id: nat, choose: Chooser, h: seq<Key>)
    requires Dated(s, h) && id < |s.tickets|
    ensures Dated(Yield(s, id, choose), h)
  {
    var s1 := ReleaseAccount(s, id);
    var s2 := ReleaseBuffer(s1, id);
    assert s1.sequence == s.sequence && s1.served == s.served;
    assert s2.sequence == s1.sequence && s2.served == s1.served;
    hide ReleaseAccount, ReleaseBuffer;
    DatedSame(s, Yield(s, id, choose), h);
  }

  lemma EntryDated(s: Sched, op: Op, h: seq<Key>)
    requires QueueInRange(s) && Dated(s, h) && Entry(s, op).Some?
    ensures Dated(Entry(s, op).value, h)
  {
    hide Remove, Yield, Enqueue, Stop, Dated, QueueRefusal;
    match op
    case AcquireOp(key, override, model, bytes) =>
    case BindOp(id, choose) => YieldDated(s, id, choose, h);
    case ParkOp(id) => ParkDated(s, id, h);
    case UnparkOp(id) => DatedSame(s, Entry(s, op).value, h);
    case GiveUpOp(id, timeout) =>
      var s1 := if timeout then Reject(s, ModelQueueTimeout) else s;
      DatedSame(s, s1, h);
      RemoveDated(s1, id, h);
    case ReleaseOp(id) =>
      DatedSame(s, Marked(s, id), h);
      RemoveDated(Marked(s, id), id, h);
    case TickOp =>
    case PressureOp(high) =>
  }

  lemma AcquireDirect(s: Sched, key: Key, override: int, model: Model, bytes: nat, d: Sched)
    requires QueueInRange(s) && !s.c.unlimited && !OverBudget(s.c, key, bytes)
    requires d == Append(Dispatch(s), NewTicket(s.c, key, override, model, bytes))
    ensures d.tickets[|s.tickets|].key == key
    ensures var starts := d.active < d.c.capacity && Room(d, d.tickets[|s.tickets|]);
      && Direct(s, AcquireOp(key, override, model, bytes)) == (if starts then [key] else [])
      && Acquire(s, key, override, model, bytes) ==
           if starts then Start(d, |s.tickets|) else Enqueue(d, |s.tickets|)
  {
    assert NewTicket(s.c, key, override, model, bytes).key == key;
    hide Dispatch, Start, Enqueue, NewTicket, Room;
  }

  lemma Regroup(h: seq<Key>, a: seq<Key>, b: seq<Key>)
    ensures h + (a + b) == h + a + b
  {
  }

  lemma AppendDated(s: Sched, r: Sched, h: seq<Key>)
    requires Dated(s, h) && r == s.(tickets := r.tickets)
    ensures Dated(r, h)
  {
  }

  lemma ArrivalDated(d: Sched, id: nat, h: seq<Key>)
    requires QueueInRange(d) && Dated(d, h) && id < |d.tickets|
    ensures var starts := d.active < d.c.capacity && Room(d, d.tickets[id]);
      Dated(if starts then Start(d, id) else Enqueue(d, id), h + if starts then [d.tickets[id].key] else [])
  {
    hide Room, Start, Enqueue, Dated;
    StartDated(d, id, h);
    EnqueueDated(d, id, h);
    assert h + [] == h;
  }

  lemma AcquireDated(s: Sched, key: Key, override: int, model: Model, bytes: nat, h: seq<Key>)
    requires QueueInRange(s) && Dated(s, h) && !s.c.unlimited && !OverBudget(s.c, key, bytes)
    ensures Dated(Acquire(s, key, override, model, bytes),
                  h + (DispatchStarts(s) + Direct(s, AcquireOp(key, override, model, bytes))))
  {
    var id := |s.tickets|;
    var g := h + DispatchStarts(s);
    var d := Append(Dispatch(s), NewTicket(s.c, key, override, model, bytes));
    var own := Direct(s, AcquireOp(key, override, model, bytes));
    hide Dispatch, DispatchStarts, Room, Dated, Start, Enqueue, Acquire, Direct, NewTicket;
    AcquireDirect(s, key, override, model, bytes, d);
    Regroup(h, DispatchStarts(s), own);
    DispatchDated(s, h);
    AppendDated(Dispatch(s), d, g);
    ArrivalDated(d, id, g);
  }

  lemma EnqueueDated(s: Sched, id: nat, h: seq<Key>)
    requires QueueInRange(s) && Dated(s, h) && id < |s.tickets|
    ensures Dated(Enqueue(s, id), h) && Dated(Signal(Enqueue(s, id)), h)
  {
    hide QueueRefusal;
    DatedSame(s, Enqueue(s, id), h);
    DatedSame(s, Signal(Enqueue(s, id)), h);
  }

  lemma RetakeDated(s: Sched, id: nat, choose: Chooser, h: seq<Key>)
    requires QueueInRange(s) && Dated(s, h) && id < |s.tickets|
    ensures var starts := s.active < s.c.capacity && Room(s, s.tickets[id]) && choose(BusyAccounts(s)).Free?;
      Dated(Retake(s, id, choose), h + if starts then [s.tickets[id].key] else [])
  {
    var t := s.tickets[id];
    var c := choose(BusyAccounts(s));
    var room := s.active < s.c.capacity && Room(s, t);
    var s1 := s.(tickets := s.tickets[id := if room then Chosen(t, c) else t]);
    RetakeShape(s, id, choose);
    DatedSame(s, s1, h);
    assert s1.tickets[id].key == t.key;
    assert h + [] == h;
    hide Room, Start, Enqueue, Dated, Retake, Chosen;
    if room && c.Free? {
      StartDated(s1, id, h);
      SignalDated(Start(s1, id), h + [t.key]);
    } else {
      EnqueueDated(s1, id, h);
    }
  }

  lemma SignalDated(s: Sched, h: seq<Key>)
    requires Dated(s, h)
    ensures Dated(Signal(s), h)
  {
  }

  lemma BindDirect(s: Sched, id: nat, choose: Chooser, d: Sched)
    requires QueueInRange(s) && id < |s.tickets| && !s.c.unlimited && Bindable(s, id)
    requires d == Dispatch(Yield(s, id, choose))
    ensures Bind(s, id, choose) == Retake(d, id, choose)
    ensures Direct(s, BindOp(id, choose))
         == if d.active < d.c.capacity && Room(d, d.tickets[id]) && choose(BusyAccounts(d)).Free?
            then [d.tickets[id].key] else []
  {
    hide Dispatch, Yield, Room, Retake;
  }

  lemma BindDated(s: Sched, id: nat, choose: Chooser, h: seq<Key>)
    requires QueueInRange(s) && Dated(s, h) && id < |s.tickets| && !s.c.unlimited && Bindable(s, id)
    ensures Dated(Bind(s, id, choose), h + (DispatchStarts(Yield(s, id, choose)) + Direct(s, BindOp(id, choose))))
  {
    var y := Yield(s, id, choose);
    var g := h + DispatchStarts(y);
    var d := Dispatch(y);
    var own := Direct(s, BindOp(id, choose));
    BindDirect(s, id, choose, d);
    hide Dispatch, DispatchStarts, Yield, Room, Retake, Bind, Direct, Dated;
    Regroup(h, DispatchStarts(y), own);
    YieldDated(s, id, choose, h);
    DispatchDated(y, h);
    RetakeDated(d, id, choose, g);
  }

  lemma OthersDated(s: Sched, op: Op, h: seq<Key>)
    requires QueueInRange(s) && Dated(s, h) && Entry(s, op).Some? && !op.AcquireOp? && !op.BindOp?
    ensures Dated(Step(s, op), h + StepStarts(s, op))
  {
    var e := Entry(s, op).value;
    EntryDated(s, op, h);
    DispatchDated(e, h);
    assert DispatchStarts(e) + [] == DispatchStarts(e);
    hide DispatchStarts, Dispatch, Remove, Stop, Enqueue;
    match op
    case ParkOp(id) =>
    case UnparkOp(id) =>
    case GiveUpOp(id, timeout) =>
    case ReleaseOp(id) =>
    case _ =>
  }

  lemma QuietDated(s: Sched, op: Op, h: seq<Key>)
    requires QueueInRange(s) && Dated(s, h) && Entry(s, op).None?
    ensures Dated(Step(s, op), h)
  {
    hide Dispatch, Remove, Stop, Yield, Retake;
    DatedSame(s, Step(s, op), h);
  }

  lemma StepDated(s: Sched, op: Op, h: seq<Key>)
    requires QueueInRange(s) && Dated(s, h)
    ensures Dated(Step(s, op), h + StepStarts(s, op))
  {
    hide DispatchStarts, Acquire, Bind, Park, Unpark, GiveUp, Release, Dispatch, Dated, Direct;
    if Entry(s, op).None? {
      assert h + [] == h;
      QuietDated(s, op, h);
    } else {
      match op
      case AcquireOp(key, override, model, bytes) => AcquireDated(s, key, override, model, bytes, h);
      case BindOp(id, choose) => BindDated(s, id, choose, h);
      case _ => OthersDated(s, op, h);
    }
  }

  lemma {:induction false} RunDated(s: Sched, ops: seq<Op>, h: seq<Key>)
    requires QueueInRange(s) && Dated(s, h)
    ensures Dated(Run(s, ops), h + RunStarts(s, ops))
    decreases |ops|
  {
    hide Step, StepStarts, Dated;
    if |ops| == 0 {
      assert h + [] == h;
    } else {
      StepDated(s, ops[0], h);
      RunDated(Step(s, ops[0]), ops[1..], h + StepStarts(s, ops[0]));
      assert h + (StepStarts(s, ops[0]) + RunStarts(Step(s, ops[0]), ops[1..]))
          == h + StepStarts(s, ops[0]) + RunStarts(Step(s, ops[0]), ops[1..]);
    }
  }

  // ---------------------------------------------------------------------- fairness

  /** Runnable tickets of one key start in queue order. */
  lemma SameKeyInOrder(s: Sched, j: nat)
    requires QueueInRange(s) && j < Pick(s) && Waiter(s, j).key == Waiter(s, Pick(s)).key
    ensures !Runnable(s, Waiter(s, j))
  {
    PickIsFair(s, |s.queue|);
  }

  /** The picked key runs no more tickets than any runnable waiter's key; and
      fewer, if it was itself served more recently. */
  lemma FairTurn(s: Sched, j: nat)
    requires QueueInRange(s) && Pick(s) >= 0 && j < |s.queue| && Runnable(s, Waiter(s, j))
    ensures Get(s.byKey, Waiter(s, Pick(s)).key) <= Get(s.byKey, Waiter(s, j).key)
    ensures Served(s, Waiter(s, Pick(s)).key) > Served(s, Waiter(s, j).key) ==>
      Get(s.byKey, Waiter(s, Pick(s)).key) < Get(s.byKey, Waiter(s, j).key)
  {
    PickIsFair(s, |s.queue|);
  }

  lemma AfterwardsNot(h: seq<Key>, k: Key, n: nat)
    requires n <= |h| && k !in h[n..]
    ensures forall i :: n <= i < |h| ==> h[i] != k
  {
    assert forall i :: n <= i < |h| ==> h[i] == h[n..][i - n];
  }

  lemma LaterDate(s: Sched, h: seq<Key>, i: nat, k: Key, l: Key)
    requires Dated(s, h) && i < |h| && h[i] == k && l !in h[i..] && k in s.served
    ensures Served(s, l) < Served(s, k)
  {
    assert LastStart(h, k, s.served[k]);
    AfterwardsNot(h, k, s.served[k]);
    AfterwardsNot(h, l, i);
    assert l in s.served ==> LastStart(h, l, s.served[l]);
  }

  /** Every state inside a dispatch carries the dates of the history so far. */
  lemma DispatchIsDated(cfg: Config, ops: seq<Op>, op: Op, e: Sched, n: nat)
    requires Entry(Run(Init(NewLimits(cfg)), ops), op) == Some(e) && n <= |DispatchStarts(e)|
    ensures Dated(Dispatched(e, n), RunStarts(Init(NewLimits(cfg)), ops) + DispatchStarts(e)[..n])
  {
    var s0 := Init(NewLimits(cfg));
    var before := RunStarts(s0, ops);
    assert Dated(s0, []) && [] + before == before;
    hide Init, Run, Entry, RunStarts, DispatchStarts, Dispatched, Dated;
    RunDated(s0, ops, []);
    EntryDated(Run(s0, ops), op, before);
    DispatchedDated(e, n, before);
  }

  /** Over any run: when key k was started (at some place i of the history h), is
      still present, and key l has not been started since, then a dispatch that
      picks k again past a runnable waiter of l does so only while k runs strictly
      fewer tickets.  `ops` are the sections before the dispatching one, `e` is
      where its dispatch begins, and n of its starts come before the pick. */
  lemma SecondTurn(cfg: Config, ops: seq<Op>, op: Op, e: Sched, n: nat, h: seq<Key>, i: nat, j: nat)
    requires Entry(Run(Init(NewLimits(cfg)), ops), op) == Some(e)
    requires n < |DispatchStarts(e)| && h == RunStarts(Init(NewLimits(cfg)), ops) + DispatchStarts(e)[..n]
    requires var d, k := Dispatched(e, n), DispatchStarts(e)[n];
      && j < |d.queue| && Runnable(d, Waiter(d, j))
      && i < |h| && h[i] == k && k in d.served && Waiter(d, j).key !in h[i..]
    ensures var d, k := Dispatched(e, n), DispatchStarts(e)[n];
      Get(d.byKey, k) < Get(d.byKey, Waiter(d, j).key)
  {
    hide Init, Run, Entry, RunStarts, DispatchStarts, Dispatched, Pick, Runnable, Dated;
    DispatchIsDated(cfg, ops, op, e, n);
    NextPick(e, n);
    var d := Dispatched(e, n);
    LaterDate(d, h, i, DispatchStarts(e)[n], Waiter(d, j).key);
    FairTurn(d, j);
  }

  /** A section starts a ticket past the queue only when no waiter could run:
      neither an arrival nor a rebind overtakes anybody. */
  lemma DirectStartsOvertakeNobody(s: Sched, op: Op, j: nat)
    requires QueueInRange(s) && Direct(s, op) != []
    requires j < |Dispatch(Entry(s, op).value).queue|
    ensures var d := Dispatch(Entry(s, op).value); !Runnable(d, Waiter(d, j))
  {
    DispatchSettles(Entry(s, op).value);
    hide Dispatch, Runnable, Room, Yield;
  }

  // ------------------------------------------------------------- it does happen

  const TWO_SLOTS := Config(false, 2, 0, 0, map[], 0, 0, 0, 0, 0, 0)
  const ONE := App(1)
  const OTHER := App(2)

  function Ask(key: Key): Op { AcquireOp(key, 0, 0, 0) }

  /** A dispatch that finds no slot or no waiter starts nothing. */
  lemma IdleDispatch(s: Sched)
    requires QueueInRange(s) && (s.active >= s.c.capacity || s.queue == [])
    ensures Dispatch(s) == Signal(s) && DispatchStarts(s) == []
  {
    if s.active < s.c.capacity {
      assert Pick(s) == -1;
      assert Scanned(s, 0) == s.tickets;
    }
  }

  /** Nobody waits and there is room: the request starts at once. */
  lemma AskStarts(s: Sched, key: Key)
    requires QueueInRange(s) && s.c == NewLimits(TWO_SLOTS) && s.queue == [] && s.active < 2 && !s.pressure
    requires !IsShared(key) && Get(s.byKey, key) < 2 && s.buffers == 0
    ensures Step(s, Ask(key)) == Start(Append(Signal(s), NewTicket(s.c, key, 0, 0, 0)), |s.tickets|)
    ensures StepStarts(s, Ask(key)) == [key]
  {
    IdleDispatch(s);
    AcquireDirect(s, key, 0, 0, 0, Append(Dispatch(s), NewTicket(s.c, key, 0, 0, 0)));
    hide Dispatch, Start, DispatchStarts;
  }

  /** Every slot is taken and the queue is short: the request waits. */
  lemma AskWaits(s: Sched, key: Key)
    requires QueueInRange(s) && s.c == NewLimits(TWO_SLOTS) && s.active == 2 && |s.queue| < 16 && !IsShared(key)
    ensures var r := Append(Signal(s), NewTicket(s.c, key, 0, 0, 0));
      Step(s, Ask(key)) == r.(queue := s.queue + [|s.tickets|])
    ensures StepStarts(s, Ask(key)) == []
  {
    IdleDispatch(s);
    var r := Append(Signal(s), NewTicket(s.c, key, 0, 0, 0));
    AcquireDirect(s, key, 0, 0, 0, r);
    FewWaiters(OfKey(key), Waiters(r), |s.queue|);
    hide Dispatch, Start, DispatchStarts, Waiters;
  }

  lemma {:induction false} FewWaiters(m: Measure, ts: seq<Ticket>, n: nat)
    requires m.OfKey? && n <= |ts|
    ensures TotalUpTo(m, ts, n) <= n
  {
    if n > 0 {
      FewWaiters(m, ts, n - 1);
    }
  }

  const WAITING: seq<Op> := [Ask(OTHER)] + ([Ask(ONE)] + [])
  const FOUR: seq<Op> := [Ask(ONE)] + ([Ask(OTHER)] + WAITING)

  /** Two keys run a ticket each and have one more waiting, the other's in front. */
  predicate BothKeysTwice(s: Sched) {
    && QueueInRange(s) && |s.tickets| == 4 && s.queue == [2, 3] && s.active == 2 && !s.pressure
    && s.buffers == 0 && s.c == NewLimits(TWO_SLOTS)
    && s.byKey == map[ONE := 1, OTHER := 1] && s.served == map[ONE := 1, OTHER := 2]
    && (forall i :: 0 <= i < 4 ==>
          && s.tickets[i].key == (if i == 0 || i == 3 then ONE else OTHER)
          && s.tickets[i].limit == 2 && !s.tickets[i].shared && s.tickets[i].bufferBytes == 0
          && s.tickets[i].ready && s.tickets[i].chooser.None? && !s.tickets[i].released
          && !s.tickets[i].accountHeld && s.tickets[i].running == (i < 2) && s.tickets[i].bufferHeld == (i < 2))
  }

  lemma RunOne(s: Sched, op: Op, rest: seq<Op>)
    requires QueueInRange(s)
    ensures Run(s, [op] + rest) == Run(Step(s, op), rest)
    ensures RunStarts(s, [op] + rest) == StepStarts(s, op) + RunStarts(Step(s, op), rest)
  {
    assert ([op] + rest)[1..] == rest;
    hide Step, StepStarts;
  }

  lemma RunTwo(s: Sched, a: Op, m: Sched, b: Op, e: Sched, rest: seq<Op>)
    requires QueueInRange(s) && QueueInRange(m) && QueueInRange(e) && Step(s, a) == m && Step(m, b) == e
    ensures Run(s, [a] + ([b] + rest)) == Run(e, rest)
    ensures RunStarts(s, [a] + ([b] + rest)) == StepStarts(s, a) + (StepStarts(m, b) + RunStarts(e, rest))
  {
    hide Step, StepStarts, Run, RunStarts;
    RunOne(s, a, [b] + rest);
    RunOne(m, b, rest);
  }

  /** The first two requests find a slot each. */
  lemma TwoStart(s0: Sched, s1: Sched, s2: Sched, rest: seq<Op>)
    requires s0 == Init(NewLimits(TWO_SLOTS))
    requires s1 == Start(Append(Signal(s0), NewTicket(s0.c, ONE, 0, 0, 0)), 0)
    requires s2 == Start(Append(Signal(s1), NewTicket(s0.c, OTHER, 0, 0, 0)), 1)
    ensures Run(s0, [Ask(ONE)] + ([Ask(OTHER)] + rest)) == Run(s2, rest)
    ensures RunStarts(s0, [Ask(ONE)] + ([Ask(OTHER)] + rest)) == [ONE] + ([OTHER] + RunStarts(s2, rest))
  {
    AskStarts(s0, ONE);
    AskStarts(s1, OTHER);
    hide Start, Append, Step, StepStarts, Run, RunStarts;
    RunTwo(s0, Ask(ONE), s1, Ask(OTHER), s2, rest);
  }

  /** The other two wait. */
  lemma TwoWait(s2: Sched, s3: Sched, s4: Sched)
    requires QueueInRange(s2) && s2.c == NewLimits(TWO_SLOTS) && s2.active == 2 && s2.queue == [] && |s2.tickets| == 2
    requires s3 == Append(Signal(s2), NewTicket(s2.c, OTHER, 0, 0, 0)).(queue := [2])
    requires s4 == Append(Signal(s3), NewTicket(s2.c, ONE, 0, 0, 0)).(queue := [2, 3])
    ensures QueueInRange(s4)
    ensures Step(s2, Ask(OTHER)) == s3 && StepStarts(s2, Ask(OTHER)) == []
    ensures Step(s3, Ask(ONE)) == s4 && StepStarts(s3, Ask(ONE)) == []
  {
    hide Step, StepStarts, NewTicket, NewLimits;
    AskWaits(s2, OTHER);
    assert s2.queue + [2] == [2] && [2] + [3] == [2, 3];
    AskWaits(s3, ONE);
  }

  lemma FourStates(s0: Sched, s1: Sched, s2: Sched, s3: Sched, s4: Sched)
    requires s0 == Init(NewLimits(TWO_SLOTS))
    requires s1 == Start(Append(Signal(s0), NewTicket(s0.c, ONE, 0, 0, 0)), 0)
    requires s2 == Start(Append(Signal(s1), NewTicket(s0.c, OTHER, 0, 0, 0)), 1)
    requires s3 == Append(Signal(s2), NewTicket(s0.c, OTHER, 0, 0, 0)).(queue := [2])
    requires s4 == Append(Signal(s3), NewTicket(s0.c, ONE, 0, 0, 0)).(queue := [2, 3])
    ensures QueueInRange(s2) && s2.active == 2 && s2.queue == [] && |s2.tickets| == 2 && s2.c == s0.c
    ensures BothKeysTwice(s4)
  {
  }

  lemma RunFour(s0: Sched, s2: Sched, s3: Sched, s4: Sched)
    requires QueueInRange(s0) && QueueInRange(s2) && QueueInRange(s3) && QueueInRange(s4)
    requires forall rest :: Run(s0, [Ask(ONE)] + ([Ask(OTHER)] + rest)) == Run(s2, rest)
    requires forall rest ::
      RunStarts(s0, [Ask(ONE)] + ([Ask(OTHER)] + rest)) == [ONE] + ([OTHER] + RunStarts(s2, rest))
    requires Step(s2, Ask(OTHER)) == s3 && StepStarts(s2, Ask(OTHER)) == []
    requires Step(s3, Ask(ONE)) == s4 && StepStarts(s3, Ask(ONE)) == []
    ensures Run(s0, FOUR) == s4 && RunStarts(s0, FOUR) == [ONE, OTHER]
  {
    assert Run(s4, []) == s4 && RunStarts(s4, []) == [];
    hide Run, RunStarts, Step, StepStarts, QueueInRange;
    RunTwo(s2, Ask(OTHER), s3, Ask(ONE), s4, []);
    assert RunStarts(s2, WAITING) == [];
    assert RunStarts(s0, FOUR) == [ONE] + ([OTHER] + RunStarts(s2, WAITING));
  }

  lemma FourRequests()
    ensures var s0 := Init(NewLimits(TWO_SLOTS));
      BothKeysTwice(Run(s0, FOUR)) && RunStarts(s0, FOUR) == [ONE, OTHER]
  {
    var s0 := Init(NewLimits(TWO_SLOTS));
    var s1 := Start(Append(Signal(s0), NewTicket(s0.c, ONE, 0, 0, 0)), 0);
    var s2 := Start(Append(Signal(s1), NewTicket(s0.c, OTHER, 0, 0, 0)), 1);
    var s3 := Append(Signal(s2), NewTicket(s0.c, OTHER, 0, 0, 0)).(queue := [2]);
    var s4 := Append(Signal(s3), NewTicket(s0.c, ONE, 0, 0, 0)).(queue := [2, 3]);
    hide Run, RunStarts, BothKeysTwice, Start, Append, Step, StepStarts, NewTicket, NewLimits;
    FourStates(s0, s1, s2, s3, s4);
    TwoWait(s2, s3, s4);
    forall rest
      ensures Run(s0, [Ask(ONE)] + ([Ask(OTHER)] + rest)) == Run(s2, rest)
      ensures RunStarts(s0, [Ask(ONE)] + ([Ask(OTHER)] + rest)) == [ONE] + ([OTHER] + RunStarts(s2, rest))
    {
      TwoStart(s0, s1, s2, rest);
    }
    RunFour(s0, s2, s3, s4);
  }

  /** The state in which the section that releases the second ticket dispatches. */
  lemma OtherLeaves(s: Sched)
    requires BothKeysTwice(s)
    ensures var e := Remove(Marked(s, 1), 1);
      && e == s.(tickets := e.tickets, active := 1, byKey := map[ONE := 1])
      && QueueInRange(e) && |e.tickets| == 4 && e.tickets[2] == s.tickets[2] && e.tickets[3] == s.tickets[3]
  {
    var m := Marked(s, 1);
    var a := ReleaseAccount(m, 1);
    var b := ReleaseBuffer(a, 1);
    assert a == m;
    assert b == m.(tickets := b.tickets) && b.tickets[1].running && b.tickets[1].key == OTHER;
    var l := Leave(b, 1);
    assert l == b.(tickets := l.tickets, active := 1, byKey := map[ONE := 1]);
    assert Waiter(l, 0).key == OTHER;
  }

  lemma OtherIsNext(s: Sched, e: Sched)
    requires BothKeysTwice(s) && QueueInRange(e) && |e.tickets| == 4
    requires e == s.(tickets := e.tickets, active := 1, byKey := map[ONE := 1])
    requires e.tickets[2] == s.tickets[2] && e.tickets[3] == s.tickets[3]
    ensures |e.queue| == 2 && Pick(e) == 0 && Waiter(e, 0).key == OTHER
    ensures Waiter(e, 1).key == ONE && Runnable(e, Waiter(e, 1))
  {
    assert Waiter(e, 0) == s.tickets[2] && Waiter(e, 1) == s.tickets[3];
    assert Runnable(e, Waiter(e, 0)) && Runnable(e, Waiter(e, 1));
    assert !Ahead(e, Waiter(e, 1), Waiter(e, 0));
    assert PickUpTo(e, 0) == -1;
    assert PickUpTo(e, 1) == 0;
    hide Runnable, Ahead, BothKeysTwice;
  }

  /** The situation SecondTurn speaks of does occur: after OTHER was started it is
      picked again while a ticket of ONE waits that could run. */
  lemma SecondTurnOccurs() returns (e: Sched)
    ensures var s0 := Init(NewLimits(TWO_SLOTS));
      && Entry(Run(s0, FOUR), ReleaseOp(1)) == Some(e) && RunStarts(s0, FOUR) == [ONE, OTHER]
      && |DispatchStarts(e)| > 0 && DispatchStarts(e)[0] == OTHER && OTHER in e.served
      && 1 < |e.queue| && Waiter(e, 1).key == ONE && Runnable(e, Waiter(e, 1))
  {
    var s := Run(Init(NewLimits(TWO_SLOTS)), FOUR);
    hide Run, Init, RunStarts, Remove, Runnable, Pick, Entry, DispatchStarts;
    FourRequests();
    OtherLeaves(s);
    e := Remove(Marked(s, 1), 1);
    ReleaseEntry(s, 1);
    OtherIsNext(s, e);
    FirstStart(e);
  }

  lemma ReleaseEntry(s: Sched, id: nat)
    requires QueueInRange(s) && id < |s.tickets| && !s.tickets[id].released
    ensures Entry(s, ReleaseOp(id)) == Some(Remove(Marked(s, id), id))
  {
    hide Remove, Yield, Stop, Enqueue;
  }

  lemma FirstStart(s: Sched)
    requires QueueInRange(s) && s.active < s.c.capacity && Pick(s) >= 0
    ensures |DispatchStarts(s)| > 0 && DispatchStarts(s)[0] == Waiter(s, Pick(s)).key
  {
    hide DispatchStep, Pick;
  }
}
