/** What the scheduler promises: no runnable waiter is left behind, no wakeup is
    lost, failed leases stay dead, released state vanishes, and private requests
    keep their reserve. */
module AdmissionTheorems {
  import opened AdmissionSpec
  import opened AdmissionInvariant
  import opened AdmissionSections
  import opened AdmissionRuns

  // ------------------------------------------------------------ no lost work

  /** Either every slot is taken or no queued ticket could start. */
  ghost predicate Settled(s: Sched)
    requires QueueInRange(s)
  {
    s.active >= s.c.capacity || forall i :: 0 <= i < |s.queue| ==> !Runnable(s, s.tickets[s.queue[i]])
  }

  lemma ConsiderRunnable(s: Sched, r: Sched, t: Ticket)
    requires r == s.(tickets := r.tickets)
    ensures Runnable(r, Consider(s, t)) <==> Runnable(s, t)
  {
    assert BusyAccounts(r) == BusyAccounts(s);
  }

  lemma ScanSettles(s: Sched, d: Sched)
    requires QueueInRange(s) && Pick(s) < 0 && d == s.(tickets := Scanned(s, |s.queue|))
    ensures Settled(d)
  {
    PickIsFair(s, |s.queue|);
    forall i | 0 <= i < |d.queue| ensures !Runnable(d, d.tickets[d.queue[i]]) {
      assert !Runnable(s, Waiter(s, i)) && s.queue[i] in s.queue[..|s.queue|];
      ConsiderRunnable(s, d, Waiter(s, i));
    }
  }

  lemma {:induction false} LoopSettles(s: Sched)
    requires QueueInRange(s)
    ensures Settled(DispatchLoop(s))
    decreases |s.queue|
  {
    if s.active < s.c.capacity {
      if Pick(s) >= 0 {
        LoopSettles(DispatchStep(s));
      } else {
        ScanSettles(s, DispatchLoop(s));
      }
      hide Settled, DispatchStep, Scanned;
    }
  }

  lemma DispatchSettles(s: Sched)
    requires QueueInRange(s)
    ensures Settled(Dispatch(s))
  {
    LoopSettles(s);
    SettledSame(DispatchLoop(s), Signal(DispatchLoop(s)));
  }

  /** Settledness looks only at counters and at queued tickets. */
  lemma SettledSame(s: Sched, r: Sched)
    requires QueueInRange(s) && QueueInRange(r) && Settled(s)
    requires r.queue == s.queue && r.c == s.c && r.active >= s.active && r.sharedActive >= s.sharedActive
    requires r.buffers >= s.buffers && r.sharedBuffers >= s.sharedBuffers && (s.pressure ==> r.pressure)
    requires forall k :: Get(r.byKey, k) >= Get(s.byKey, k)
    requires BusyAccounts(s) <= BusyAccounts(r)
    requires forall i :: 0 <= i < |s.queue| ==> r.tickets[r.queue[i]] == s.tickets[s.queue[i]]
    ensures Settled(r)
  {
    if r.active < r.c.capacity {
      forall i | 0 <= i < |r.queue| ensures !Runnable(r, r.tickets[r.queue[i]]) {
        assert !Runnable(s, s.tickets[s.queue[i]]);
      }
    }
  }

  /** Starting a ticket from outside the queue leaves nobody newly runnable. */
  lemma StartSettled(s: Sched, id: nat)
    requires QueueInRange(s) && Settled(s) && id < |s.tickets| && id !in s.queue
    ensures Settled(Start(s, id)) && Settled(Signal(Start(s, id)))
  {
    var r := Start(s, id);
    assert BusyAccounts(s) <= BusyAccounts(r);
    SettledSame(s, r);
    SettledSame(s, Signal(r));
  }

  /** A waiter that could not run anyway leaves nothing behind. */
  lemma QueuedSettled(s: Sched, id: nat)
    requires QueueInRange(s) && Settled(s) && id < |s.tickets|
    requires s.active >= s.c.capacity || !Runnable(s, s.tickets[id])
    ensures Settled(s.(queue := s.queue + [id]))
  {
    var r := s.(queue := s.queue + [id]);
    assert BusyAccounts(r) == BusyAccounts(s);
    if s.active < s.c.capacity {
      forall i | 0 <= i < |r.queue| ensures !Runnable(r, r.tickets[r.queue[i]]) {
        assert i < |s.queue| ==> !Runnable(s, s.tickets[s.queue[i]]);
      }
    }
  }

  lemma EnqueueSettled(s: Sched, id: nat)
    requires QueueInRange(s) && Settled(s) && id < |s.tickets|
    requires s.active >= s.c.capacity || !Runnable(s, s.tickets[id])
    ensures Settled(Enqueue(s, id)) && Settled(Signal(Enqueue(s, id)))
  {
    if QueueRefusal(s, s.tickets[id]).Some? {
      hide Settled;
      SettledSame(s, Enqueue(s, id));
      SettledSame(s, Signal(Enqueue(s, id)));
    } else {
      hide Settled, QueueRefusal;
      QueuedSettled(s, id);
      var r := s.(queue := s.queue + [id]);
      assert Enqueue(s, id) == r;
      hide Enqueue;
      SettledSame(r, Signal(r));
    }
  }

  lemma AcquireSettled(s: Sched, key: Key, override: int, model: Model, bytes: nat)
    requires QueueInRange(s) && Settled(s) && !s.c.unlimited
    ensures Settled(Acquire(s, key, override, model, bytes))
  {
    if !OverBudget(s.c, key, bytes) {
      var d := Dispatch(s);
      var t := NewTicket(s.c, key, override, model, bytes);
      var s1 := Append(d, t);
      DispatchSettles(s);
      hide Dispatch;
      SettledSame(d, s1);
      if s1.active < s1.c.capacity && Room(s1, t) {
        StartSettled(s1, |d.tickets|);
      } else {
        hide Settled, Enqueue;
        EnqueueSettled(s1, |d.tickets|);
      }
    }
  }

  lemma RetakeSettled(s: Sched, id: nat, choose: Chooser)
    requires QueueInRange(s) && Settled(s) && Cleared(s, id) && s.tickets[id].chooser == Some(choose)
    ensures Settled(Retake(s, id, choose))
  {
    var t := s.tickets[id];
    var starts := s.active < s.c.capacity && Room(s, t);
    var u := if starts then Chosen(t, choose(BusyAccounts(s))) else t;
    var s1 := s.(tickets := s.tickets[id := u]);
    assert BusyAccounts(s1) == BusyAccounts(s);
    assert s.tickets[id := t] == s.tickets;
    SettledSame(s, s1);
    if starts && choose(BusyAccounts(s)).Free? {
      StartSettled(s1, id);
    } else if !starts {
      assert s1 == s;
      EnqueueSettled(s, id);
    } else if choose(BusyAccounts(s)).Busy? {
      assert !Runnable(s1, u);
      EnqueueSettled(s1, id);
    }
  }

  lemma BindSettled(s: Sched, id: nat, choose: Chooser)
    requires Inv(s) && Settled(s) && id < |s.tickets|
    ensures Settled(Bind(s, id, choose))
  {
    if Bindable(s, id) && !s.c.unlimited {
      var y := Yield(s, id, choose);
      hide Inv, Settled, Yield, Dispatch, Retake;
      YieldInv(s, id, choose);
      DispatchYielded(y, id, choose);
      DispatchSettles(y);
      RetakeSettled(Dispatch(y), id, choose);
    }
  }

  /** Every critical section keeps the scheduler settled; only memory pressure
      falling can unsettle it. */
  lemma StepSettled(s: Sched, op: Op)
    requires Inv(s) && Settled(s) && op != PressureOp(false)
    ensures Settled(Step(s, op))
  {
    hide HoldersLive, Dispatch, Acquire, Bind, Park, Unpark, GiveUp, Release, Balanced, ServedOk, TicketsOk, Within;
    if s.c.unlimited {
      StepInv(s, op);
      hide Step;
      assert Step(s, op).queue == [];
    } else {
      hide Core, Settled;
      match op
      case AcquireOp(key, override, model, bytes) => AcquireSettled(s, key, override, model, bytes);
      case BindOp(id, choose) => if id < |s.tickets| { BindSettled(s, id, choose); }
      case ParkOp(id) => if id < |s.tickets| { ParkSettled(s, id); }
      case UnparkOp(id) => if id < |s.tickets| { UnparkSettled(s, id); }
      case GiveUpOp(id, timeout) => if id < |s.tickets| { GiveUpSettled(s, id, timeout); }
      case ReleaseOp(id) => if id < |s.tickets| { ReleaseSettled(s, id); }
      case TickOp => DispatchSettles(s);
      case PressureOp(high) => SettledPressure(s, high);
    }
  }

  lemma UnparkSettled(s: Sched, id: nat)
    requires QueueInRange(s) && Settled(s) && id < |s.tickets|
    ensures Settled(Unpark(s, id))
  {
    hide Settled, Dispatch;
    DispatchSettles(s.(tickets := s.tickets[id := s.tickets[id].(ready := true)]));
  }

  lemma GiveUpSettled(s: Sched, id: nat, timeout: bool)
    requires QueueInRange(s) && Settled(s) && id < |s.tickets|
    ensures Settled(GiveUp(s, id, timeout))
  {
    hide Settled, Dispatch, Remove;
    DispatchSettles(Remove(if timeout then Reject(s, ModelQueueTimeout) else s, id));
  }

  lemma ReleaseSettled(s: Sched, id: nat)
    requires QueueInRange(s) && Settled(s) && id < |s.tickets|
    ensures Settled(Release(s, id))
  {
    hide Settled, Dispatch, Remove;
    DispatchSettles(Remove(Marked(s, id), id));
  }

  lemma SettledPressure(s: Sched, high: bool)
    requires QueueInRange(s) && Settled(s) && high
    ensures Settled(s.(pressure := high))
  {
    SettledSame(s, s.(pressure := high));
  }

  lemma ParkSettled(s: Sched, id: nat)
    requires QueueInRange(s) && Settled(s) && id < |s.tickets|
    ensures Settled(Park(s, id))
  {
    if !s.c.unlimited && !s.tickets[id].released && s.tickets[id].running {
      if QueueRefusal(s, s.tickets[id]).Some? {
        SettledSame(s, Enqueue(s, id));
      } else {
        DispatchSettles(Stop(Enqueue(s.(tickets := s.tickets[id := s.tickets[id].(ready := false)]), id), id));
      }
    }
  }

  lemma {:induction false} RunSettled(s: Sched, ops: seq<Op>)
    requires Inv(s) && Settled(s) && PressureOp(false) !in ops
    ensures Settled(Run(s, ops))
    decreases |ops|
  {
    assert QueueInRange(s);
    if |ops| > 0 {
      StepInv(s, ops[0]);
      StepSettled(s, ops[0]);
      hide Inv, Step, Settled;
      RunSettled(Step(s, ops[0]), ops[1..]);
    }
  }

  /** When memory pressure falls, the next tick catches up. */
  lemma TickSettles(s: Sched)
    requires Inv(s)
    ensures Settled(Step(s, TickOp))
  {
    assert QueueOk(s);
    hide Inv, Dispatch;
    DispatchSettles(s);
  }

  // ---------------------------------------------------------------- wakeups

  /** A section that leaves the wake-up count alone starts nobody. */
  predicate Signals(s: Sched, r: Sched) {
    && r.wakeups >= s.wakeups && |s.tickets| <= |r.tickets|
    && (r.wakeups > s.wakeups || forall i :: 0 <= i < |s.tickets| && r.tickets[i].running ==> s.tickets[i].running)
  }

  lemma ParkSignals(s: Sched, id: nat)
    requires QueueInRange(s) && id < |s.tickets|
    ensures Signals(s, Park(s, id)) && Signals(s, Unpark(s, id))
  {
    hide DispatchLoop, Remove;
  }

  lemma EndSignals(s: Sched, id: nat, timeout: bool)
    requires QueueInRange(s) && id < |s.tickets|
    ensures Signals(s, GiveUp(s, id, timeout)) && Signals(s, Release(s, id))
  {
    hide DispatchLoop, Remove;
  }

  lemma StepSignals(s: Sched, op: Op)
    requires Inv(s)
    ensures Signals(s, Step(s, op))
  {
    assert QueueInRange(s);
    hide Inv, Acquire, Bind, Park, Unpark, GiveUp, Release, Dispatch;
    match op
    case AcquireOp(key, override, model, bytes) =>
      if s.c.unlimited { FastSignals(s, key, override, model, bytes); }
      else { AcquireSignals(s, key, override, model, bytes); }
    case BindOp(id, choose) => if id < |s.tickets| { BindSignals(s, id, choose); }
    case ParkOp(id) => if id < |s.tickets| { ParkSignals(s, id); }
    case UnparkOp(id) => if id < |s.tickets| { ParkSignals(s, id); }
    case GiveUpOp(id, timeout) => if id < |s.tickets| { EndSignals(s, id, timeout); }
    case ReleaseOp(id) => if id < |s.tickets| { EndSignals(s, id, true); }
    case TickOp => TickSignals(s);
    case PressureOp(high) => assert Signals(s, s.(pressure := high));
  }

  lemma TickSignals(s: Sched)
    requires QueueInRange(s)
    ensures Signals(s, s) && Signals(s, Dispatch(s))
  {
    hide DispatchLoop;
  }

  lemma FastSignals(s: Sched, key: Key, override: int, model: Model, bytes: nat)
    requires QueueInRange(s) && s.c.unlimited
    ensures var r := Acquire(s, key, override, model, bytes);
      r.wakeups == s.wakeups && |s.tickets| <= |r.tickets|
      && forall i :: 0 <= i < |s.tickets| && r.tickets[i].running ==> s.tickets[i].running
  {
  }

  lemma AcquireSignals(s: Sched, key: Key, override: int, model: Model, bytes: nat)
    requires QueueInRange(s) && !s.c.unlimited
    ensures Acquire(s, key, override, model, bytes) == s || Acquire(s, key, override, model, bytes).wakeups > s.wakeups
  {
    hide DispatchLoop;
  }

  lemma BindSignals(s: Sched, id: nat, choose: Chooser)
    requires QueueInRange(s) && id < |s.tickets|
    ensures Bind(s, id, choose).wakeups > s.wakeups || (s.c.unlimited && Bind(s, id, choose).wakeups == s.wakeups &&
      forall i :: 0 <= i < |s.tickets| && Bind(s, id, choose).tickets[i].running ==> s.tickets[i].running)
      || Bind(s, id, choose) == s
  {
    if !s.c.unlimited && Bindable(s, id) {
      var d := Dispatch(Yield(s, id, choose));
      hide Dispatch, Yield;
      RetakeSignals(d, id, choose);
    }
  }

  lemma RetakeSignals(s: Sched, id: nat, choose: Chooser)
    requires QueueInRange(s) && id < |s.tickets|
    ensures Retake(s, id, choose).wakeups >= s.wakeups
  {
  }

  /** Goroutines blocked in await, each with the channel generation it watches. */
  datatype World = World(s: Sched, parked: map<nat, nat>)

  datatype WorldOp = Section(op: Op) | Block(id: nat)

  function WorldStep(w: World, o: WorldOp): (r: World)
    requires QueueInRange(w.s)
    ensures QueueInRange(r.s)
  {
    match o
    case Section(op) => w.(s := Step(w.s, op))
    case Block(id) =>
      if id < |w.s.tickets| && !w.s.tickets[id].running then w.(parked := w.parked[id := w.s.wakeups]) else w
  }

  function WorldRun(w: World, os: seq<WorldOp>): (r: World)
    requires QueueInRange(w.s)
    ensures QueueInRange(r.s)
    decreases |os|
  {
    if |os| == 0 then w else WorldRun(WorldStep(w, os[0]), os[1..])
  }

  /** A blocked waiter whose channel is still open has not been started. */
  predicate NoLostWakeup(w: World) {
    forall id :: id in w.parked ==>
      id < |w.s.tickets| && w.parked[id] <= w.s.wakeups
      && (w.parked[id] == w.s.wakeups ==> !w.s.tickets[id].running)
  }

  lemma WorldStepNoLostWakeup(w: World, o: WorldOp)
    requires Inv(w.s) && NoLostWakeup(w) && QueueInRange(w.s)
    ensures Inv(WorldStep(w, o).s) && NoLostWakeup(WorldStep(w, o))
  {
    if o.Section? {
      StepInv(w.s, o.op);
      StepSignals(w.s, o.op);
    }
    hide Inv, Step;
  }

  lemma {:induction false} WorldRunNoLostWakeup(w: World, os: seq<WorldOp>)
    requires Inv(w.s) && NoLostWakeup(w)
    ensures Inv(WorldRun(w, os).s) && NoLostWakeup(WorldRun(w, os))
    decreases |os|
  {
    if |os| > 0 {
      assert QueueInRange(w.s);
      hide Inv, NoLostWakeup, WorldStep;
      WorldStepNoLostWakeup(w, os[0]);
      WorldRunNoLostWakeup(WorldStep(w, os[0]), os[1..]);
    }
  }

  // ------------------------------------------------------------ failed leases

  lemma DispatchDead(s: Sched, id: nat)
    requires Core(s) && Dead(s, id)
    ensures Dead(Dispatch(s), id)
  {
    DispatchCore(s);
    hide Core, Dispatch;
  }

  /** Starting or queueing another ticket does not revive a dead one. */
  lemma OthersDead(s: Sched, i: nat, id: nat)
    requires QueueInRange(s) && i < |s.tickets| && i != id && Dead(s, id)
    ensures Dead(Start(s, i), id) && Dead(Signal(Start(s, i)), id)
    ensures Dead(Enqueue(s, i), id) && Dead(Signal(Enqueue(s, i)), id)
  {
    hide QueueRefusal;
  }

  lemma AppendDead(s: Sched, t: Ticket, id: nat)
    requires Dead(s, id)
    ensures Dead(Append(s, t), id)
  {
  }

  lemma AcquireDead(s: Sched, key: Key, override: int, model: Model, bytes: nat, id: nat)
    requires Core(s) && Dead(s, id)
    ensures Dead(Acquire(s, key, override, model, bytes), id)
  {
    if s.c.unlimited {
      AppendDead(s, NewTicket(s.c, key, override, model, bytes), id);
      hide Core, NewTicket, Append, Inc;
    } else {
      var d := Dispatch(s);
      var s1 := Append(d, NewTicket(s.c, key, override, model, bytes));
      AcquireCases(s, key, override, model, bytes);
      DispatchDead(s, id);
      AppendDead(d, NewTicket(s.c, key, override, model, bytes), id);
      assert id < |s.tickets|;
      hide Core, Acquire, Room, NewTicket, Dispatch, Start, Enqueue, Append, Dead;
      OthersDead(s1, |d.tickets|, id);
    }
  }

  lemma BindDead(s: Sched, i: nat, choose: Chooser, id: nat)
    requires Core(s) && i < |s.tickets| && Dead(s, id)
    ensures Dead(Bind(s, i, choose), id)
  {
    if s.c.unlimited {
      ReleaseShapes(s, i);
      hide ReleaseAccount, Core;
    } else if i != id && Bindable(s, i) {
      BindLimitedDead(s, i, choose, id);
    }
  }

  lemma YieldDead(s: Sched, i: nat, choose: Chooser, id: nat)
    requires Core(s) && i < |s.tickets| && Dead(s, id) && !s.c.unlimited && i != id && Bindable(s, i)
    ensures Core(Yield(s, i, choose)) && Dead(Yield(s, i, choose), id) && Cleared(Yield(s, i, choose), i)
  {
    YieldCore(s, i, choose);
    YieldFrame(s, i, choose);
    hide Yield, Core;
  }

  lemma BindLimitedDead(s: Sched, i: nat, choose: Chooser, id: nat)
    requires Core(s) && i < |s.tickets| && Dead(s, id) && !s.c.unlimited && i != id && Bindable(s, i)
    ensures Dead(Bind(s, i, choose), id)
  {
    var y := Yield(s, i, choose);
    YieldDead(s, i, choose, id);
    hide Yield, Core, Dispatch, Retake;
    DispatchCore(y);
    DispatchDead(y, id);
    RetakeDead(Dispatch(y), i, choose, id);
  }

  lemma RetakeDead(s: Sched, i: nat, choose: Chooser, id: nat)
    requires QueueInRange(s) && Cleared(s, i) && i != id && Dead(s, id)
    ensures Dead(Retake(s, i, choose), id)
  {
    var t := s.tickets[i];
    var u := if s.active < s.c.capacity && Room(s, t) then Chosen(t, choose(BusyAccounts(s))) else t;
    var s1 := s.(tickets := s.tickets[i := u]);
    RetakeCases(s, i, choose);
    hide Retake, Room, Chosen, Startable, Start, Enqueue;
    OthersDead(s1, i, id);
  }

  lemma ParkDead(s: Sched, i: nat, id: nat)
    requires Core(s) && i < |s.tickets| && Dead(s, id)
    ensures Dead(Park(s, i), id)
  {
    if !s.c.unlimited && s.tickets[i].running && QueueRefusal(s, s.tickets[i]).None? {
      hide Core, Park, QueueRefusal, Dispatch;
      var r := ParkQueued(s, i);
      DispatchDead(r, id);
    } else {
      assert s.tickets[i].running ==> !s.tickets[i].released by { assert TicketOk(s.c, s.tickets[i]); }
      hide Core;
      ParkRefused(s, i);
      hide Park, QueueRefusal, Dispatch;
    }
  }

  lemma ParkRefused(s: Sched, i: nat)
    requires QueueInRange(s) && i < |s.tickets|
    requires s.c.unlimited || s.tickets[i].released || !s.tickets[i].running || QueueRefusal(s, s.tickets[i]).Some?
    ensures Park(s, i) == s.(rejected := Park(s, i).rejected)
  {
    hide Dispatch, QueueRefusal, Stop;
  }

  lemma UnparkDead(s: Sched, i: nat, id: nat)
    requires Core(s) && i < |s.tickets| && Dead(s, id)
    ensures Dead(Unpark(s, i), id)
  {
    if !s.c.unlimited {
      var s1 := s.(tickets := s.tickets[i := s.tickets[i].(ready := true)]);
      RelabelCore(s, i, s1.tickets[i]);
      hide Core;
      DispatchDead(s1, id);
    }
  }

  lemma GiveUpDead(s: Sched, i: nat, timeout: bool, id: nat)
    requires Core(s) && i < |s.tickets| && !s.c.unlimited && !(timeout && s.tickets[i].running)
    requires Dead(s, id) || i == id
    ensures Dead(GiveUp(s, i, timeout), id)
  {
    var s1 := if timeout then Reject(s, ModelQueueTimeout) else s;
    CounterCore(s, s1);
    RemoveCore(s1, i);
    RemoveFrame(s1, i);
    hide Core, Dispatch, Remove;
    DispatchDead(Remove(s1, i), id);
  }

  lemma ReleaseDead(s: Sched, i: nat, id: nat)
    requires Core(s) && i < |s.tickets| && !s.tickets[i].released
    requires Dead(s, id) || i == id
    ensures Dead(Release(s, i), id)
  {
    RemoveMarkedCore(s, i);
    RemoveFrame(s, i);
    MarkCommutes(s, i);
    hide Core, Dispatch, Remove;
    DispatchDead(Marked(Remove(s, i), i), id);
  }

  lemma StepDead(s: Sched, op: Op, id: nat)
    requires Core(s) && Dead(s, id)
    ensures Dead(Step(s, op), id)
  {
    hide Core, Acquire, Bind, Park, Unpark, Dispatch, Remove;
    match op
    case AcquireOp(key, override, model, bytes) => AcquireDead(s, key, override, model, bytes, id);
    case BindOp(i, choose) => if i < |s.tickets| { BindDead(s, i, choose, id); }
    case ParkOp(i) => if i < |s.tickets| { ParkDead(s, i, id); }
    case UnparkOp(i) => if i < |s.tickets| { UnparkDead(s, i, id); }
    case GiveUpOp(i, timeout) =>
      if i < |s.tickets| && !s.c.unlimited && !(timeout && s.tickets[i].running) { GiveUpDead(s, i, timeout, id); }
    case ReleaseOp(i) => if i < |s.tickets| && !s.tickets[i].released { ReleaseDead(s, i, id); }
    case TickOp => DispatchDead(s, id);
    case PressureOp(high) =>
  }

  lemma {:induction false} RunDead(s: Sched, ops: seq<Op>, id: nat)
    requires Inv(s) && Dead(s, id)
    ensures Dead(Run(s, ops), id)
    decreases |ops|
  {
    assert QueueInRange(s);
    if |ops| > 0 {
      StepInv(s, ops[0]);
      StepDead(s, ops[0], id);
      hide Inv, Step, Dead;
      RunDead(Step(s, ops[0]), ops[1..], id);
    }
  }

  /** A lease whose wait failed never runs again, whatever happens later. */
  lemma FailedWaitNeverRuns(s: Sched, id: nat, timeout: bool, ops: seq<Op>)
    requires Inv(s) && id < |s.tickets| && !s.c.unlimited && !(timeout && s.tickets[id].running)
    ensures Dead(Run(GiveUp(s, id, timeout), ops), id)
  {
    GiveUpInv(s, id, timeout);
    GiveUpDead(s, id, timeout, id);
    hide Inv, GiveUp;
    RunDead(GiveUp(s, id, timeout), ops, id);
  }

  lemma ReleaseTwice(s: Sched, id: nat)
    requires Inv(s) && id < |s.tickets|
    ensures Release(Release(s, id), id) == Release(s, id)
  {
    ReleaseInv(s, id);
  }

  lemma UpToAllZero(m: Measure, ts: seq<Ticket>)
    requires forall i :: 0 <= i < |ts| ==> Weight(m, ts[i]) == 0
    ensures Total(m, ts) == 0
  {
    UpToZero(m, ts, |ts|);
  }

  lemma NothingLeft<K>(m: map<K, int>)
    requires NoZero(m) && forall k :: Get(m, k) == 0
    ensures m == map[]
  {
    assert forall k :: k in m ==> Get(m, k) == m[k];
  }

  /** A lease that was released, or an admission that was refused or gave up
      before its caller got a lease. */
  predicate Ended(s: Sched, i: nat)
    requires i < |s.tickets|
  {
    s.tickets[i].released || (!s.c.unlimited && !s.tickets[i].running && i !in s.queue && s.tickets[i].chooser.None?)
  }

  lemma EndedHoldsNothing(s: Sched, i: nat)
    requires Inv(s) && i < |s.tickets| && Ended(s, i)
    ensures Cleared(s, i) && !InUse(s, i)
  {
    assert TicketOk(s.c, s.tickets[i]) && QueueOk(s);
    hide Core;
  }

  lemma HeadIsMember(q: seq<nat>)
    ensures q == [] || q[0] in q
  {
  }

  /** Once every lease that was granted has been released, and every other
      admission has been refused or given up, every counter, date and queue is
      empty. */
  lemma AllReleasedEmpty(s: Sched)
    requires Inv(s) && forall i :: 0 <= i < |s.tickets| ==> Ended(s, i)
    ensures s.active == 0 && s.sharedActive == 0 && s.buffers == 0 && s.sharedBuffers == 0
    ensures s.byKey == map[] && s.byModel == map[] && s.byAccount == map[]
    ensures s.served == map[] && s.queue == []
  {
    forall i {:trigger s.tickets[i]} | 0 <= i < |s.tickets| ensures Cleared(s, i) && !InUse(s, i) {
      EndedHoldsNothing(s, i);
    }
    forall m: Measure | !m.OfKey? && !m.OfShared? ensures Total(m, s.tickets) == 0 {
      UpToAllZero(m, s.tickets);
    }
    forall k ensures Get(s.byKey, k) == 0 { assert Get(s.byKey, k) == Total(KeyRunning(k), s.tickets); }
    forall x ensures Get(s.byModel, x) == 0 { assert Get(s.byModel, x) == Total(ModelRunning(x), s.tickets); }
    forall u ensures Get(s.byAccount, u) == 0 { assert Get(s.byAccount, u) == Total(AccountUse(u), s.tickets); }
    NothingLeft(s.byKey);
    NothingLeft(s.byModel);
    NothingLeft(s.byAccount);
    HeadIsMember(s.queue);
    assert forall k :: !KeyPresent(s, k);
  }

  /** No key runs more tickets than the largest limit among those it runs. */
  lemma KeyWithinLimit(s: Sched, k: Key, bound: nat)
    requires Inv(s) && !s.c.unlimited
    requires forall i :: 0 <= i < |s.tickets| && s.tickets[i].running && s.tickets[i].key == k ==>
      s.tickets[i].limit <= bound
    ensures Get(s.byKey, k) == Total(KeyRunning(k), s.tickets) <= bound
  {
    TotalSameMeasure(KeyRunning(k), KeyUpTo(k, bound), s.tickets, |s.tickets|);
    assert Total(KeyUpTo(k, bound), s.tickets) <= bound;
  }

  // --------------------------------------------------------- private reserve

  /** Nobody but shared tickets runs or waits. */
  predicate OnlySharedLive(s: Sched) {
    forall i :: 0 <= i < |s.tickets| && (s.tickets[i].running || i in s.queue) ==> s.tickets[i].shared
  }

  lemma OnlySharedCounts(s: Sched)
    requires Inv(s) && !s.c.unlimited && OnlySharedLive(s)
    ensures s.active == s.sharedActive && s.buffers == s.sharedBuffers
    ensures forall k :: !IsShared(k) ==> Get(s.byKey, k) == 0
  {
    TotalSameMeasure(Running, SharedRunning, s.tickets, |s.tickets|);
    TotalSameMeasure(Held, SharedHeld, s.tickets, |s.tickets|);
    forall k | !IsShared(k) ensures Get(s.byKey, k) == 0 {
      forall i | 0 <= i < |s.tickets| ensures Weight(KeyRunning(k), s.tickets[i]) == 0 {
        assert TicketOk(s.c, s.tickets[i]);
      }
      UpToZero(KeyRunning(k), s.tickets, |s.tickets|);
      assert Get(s.byKey, k) == Total(KeyRunning(k), s.tickets);
    }
  }

  lemma {:induction false} TotalSameMeasure(m: Measure, l: Measure, ts: seq<Ticket>, n: nat)
    requires n <= |ts| && forall i :: 0 <= i < n ==> Weight(m, ts[i]) == Weight(l, ts[i])
    ensures TotalUpTo(m, ts, n) == TotalUpTo(l, ts, n)
  {
    if n > 0 {
      TotalSameMeasure(m, l, ts, n - 1);
    }
  }

  lemma ReserveRoom(d: Sched, cfg: Config, t: Ticket)
    requires Inv(d) && d.c == NewLimits(cfg) && !cfg.limitsDisabled && d.c.capacity > 1 && !d.pressure
    requires OnlySharedLive(d) && !t.shared && !IsShared(t.key) && t.limit >= 1 && !t.bufferHeld
    requires t.bufferBytes <= 4 * ResponseLimit(cfg) && t.bufferBytes <= d.c.bufferBudget
    ensures d.active < d.c.capacity && Room(d, t)
  {
    OnlySharedCounts(d);
    assert d.sharedActive <= d.c.sharedCapacity && d.sharedBuffers <= d.c.sharedBufferBudget;
    hide Inv, OnlySharedLive;
  }

  /** With more than one slot and no memory pressure, a private request that
      finds only shared work starts at once exactly when its charge (at most one
      non-stream response) fits the whole buffer budget. */
  lemma PrivateReserve(s: Sched, cfg: Config, key: Key, override: int, model: Model, bytes: nat)
    requires Inv(s) && s.c == NewLimits(cfg) && !cfg.limitsDisabled && s.c.capacity > 1 && !s.pressure
    requires OnlySharedLive(s) && !IsShared(key) && bytes <= 4 * ResponseLimit(cfg)
    ensures var r := Acquire(s, key, override, model, bytes);
      (|r.tickets| == |s.tickets| + 1 && r.tickets[|s.tickets|].running) <==> bytes <= s.c.bufferBudget
  {
    if bytes <= s.c.bufferBudget {
      var d := Dispatch(s);
      var t := NewTicket(s.c, key, override, model, bytes);
      assert QueueOk(s) && ValidLimits(s.c);
      DispatchInv(s);
      hide Inv, Dispatch, Room;
      assert OnlySharedLive(d);
      hide OnlySharedLive;
      ReserveRoom(d, cfg, t);
      assert Room(Append(d, t), t) by { RoomSame(d, Append(d, t), t); }
    }
  }

  lemma RoomSame(s: Sched, r: Sched, t: Ticket)
    requires Room(s, t) && r == s.(tickets := r.tickets)
    ensures Room(r, t)
  {
  }

  /** With a single slot there is no reserve: one shared request blocks it. */
  lemma NoReserveWithOneSlot(cfg: Config)
    requires !cfg.limitsDisabled && cfg.maxConcurrent == 1
    ensures var s := Acquire(Init(NewLimits(cfg)), PortalUser(7), 0, 0, 0);
      s.tickets[0].running && OnlySharedLive(s)
      && !Acquire(s, App(1), 0, 0, 0).tickets[1].running
  {
    var s0 := Init(NewLimits(cfg));
    NewLimitsValid(cfg);
    assert Dispatch(s0) == Signal(s0) by { assert Scanned(s0, 0) == []; }
    var s := Acquire(s0, PortalUser(7), 0, 0, 0);
    assert s.tickets[0].running && s.active == 1 && s.queue == [];
    assert Dispatch(s) == Signal(s);
  }

  // ---------------------------------------------------------------- refusals

  /** The three bounds of the wait queue. */
  predicate QueueBounds(s: Sched)
    requires QueueInRange(s)
  {
    && |s.queue| <= s.c.queueSize
    && Total(OfShared, Waiters(s)) <= s.c.sharedQueue
    && (forall id :: id in s.queue ==>
          Total(OfKey(s.tickets[id].key), Waiters(s)) <= QueueLimit(s.c, IsShared(s.tickets[id].key)))
  }

  lemma JoinedTotals(s: Sched, id: nat)
    requires QueueInRange(s) && id < |s.tickets|
    ensures var r := s.(queue := s.queue + [id]);
      && id in r.queue
      && Total(OfShared, Waiters(r)) == Total(OfShared, Waiters(s)) + Weight(OfShared, s.tickets[id])
      && forall k :: Total(OfKey(k), Waiters(r)) == Total(OfKey(k), Waiters(s)) + Weight(OfKey(k), s.tickets[id])
  {
    var r := s.(queue := s.queue + [id]);
    assert r.queue[|s.queue|] == id;
    assert Waiters(r) == Waiters(s) + [s.tickets[id]];
    TotalsAppend(Waiters(s), s.tickets[id]);
  }

  lemma WithinBounds(s: Sched)
    requires Inv(s) && !s.c.unlimited
    ensures QueueBounds(s) && forall k :: Total(OfKey(k), Waiters(s)) <= QueueLimit(s.c, IsShared(k))
  {
    assert Within(s);
  }

  /** A ticket is refused exactly when queueing it would break a bound, and the
      code names the first one that breaks. */
  lemma RefusedIffQueueWouldOverflow(s: Sched, id: nat)
    requires Inv(s) && !s.c.unlimited && id < |s.tickets|
    ensures QueueRefusal(s, s.tickets[id]).None? <==> QueueBounds(s.(queue := s.queue + [id]))
    ensures var r := s.(queue := s.queue + [id]);
      QueueRefusal(s, s.tickets[id]) == Some(SharedQueueFull) <==> Total(OfShared, Waiters(r)) > s.c.sharedQueue
  {
    assert TicketOk(s.c, s.tickets[id]) && QueueInRange(s);
    hide Waiters, Total, Inv;
    WithinBounds(s);
    JoinedTotals(s, id);
  }

  // -------------------------------------------------------------- every run

  /** From any configuration and after any sections, in either mode: the
      counters are exact, nothing is over its limit, and (unless memory pressure
      has just fallen) no runnable waiter is left behind. */
  lemma EveryRun(cfg: Config, ops: seq<Op>)
    ensures var s := Run(Init(NewLimits(cfg)), ops);
      && Balanced(s) && QueueOk(s)
      && (!cfg.limitsDisabled ==> Within(s))
      && (PressureOp(false) !in ops ==> Settled(s))
  {
    var s0 := Init(NewLimits(cfg));
    NewLimitsValid(cfg);
    InitInv(NewLimits(cfg));
    RunInv(s0, ops);
    if PressureOp(false) !in ops { RunSettled(s0, ops); }
    hide Balanced, Within, Settled;
  }
}
