/** What a lease can rely on over every run: while it runs it holds its bytes and its
    account, while it is parked it waits, and every refusal is counted once. */
module AdmissionLeases {
  import opened AdmissionSpec
  import opened AdmissionInvariant
  import opened AdmissionSections
  import opened AdmissionRuns
  import opened AdmissionTheorems
  import opened AdmissionFairness
  import opened AdmissionLaws

  // ----------------------------------------------------------- running leases

  /** The chooser named this account at some time. */
  ghost predicate Named(choose: Chooser, a: Account) { exists busy: set<Account> :: choose(busy) == Free(a) }

  /** A running lease holds its bytes, and the account its chooser named unless the
      chooser refused; an account comes from nowhere else. */
  ghost predicate Holds(t: Ticket) {
    && (t.running ==> t.bufferHeld && (t.chooser.Some? ==> t.accountHeld || t.selectionErr.Some?))
    && (t.account.Some? ==> t.chooser.Some? && Named(t.chooser.value, t.account.value))
  }

  ghost predicate AllHold(ts: seq<Ticket>) { forall i :: 0 <= i < |ts| ==> Holds(ts[i]) }

  lemma HoldsChosen(t: Ticket, busy: set<Account>)
    requires Holds(t) && !t.running && t.chooser.Some?
    ensures Holds(Chosen(t, t.chooser.value(busy)))
  {
  }

  lemma ScannedHold(s: Sched)
    requires QueueOk(s) && AllHold(s.tickets)
    ensures AllHold(Scanned(s, |s.queue|))
  {
    forall i | 0 <= i < |s.tickets| ensures Holds(Scanned(s, |s.queue|)[i]) {
      var t := s.tickets[i];
      if i in s.queue[..|s.queue|] && t.ready && Room(s, t) && NeedsAccount(t) {
        assert !t.running by { assert i in s.queue; }
        HoldsChosen(t, BusyAccounts(s));
      }
      hide Room;
    }
  }

  /** A waiter that is picked has its account by then, or a refusal. */
  lemma PickedHolds(s: Sched)
    requires QueueOk(s) && AllHold(s.tickets) && Pick(s) >= 0
    ensures Holds(Start(s.(tickets := Scanned(s, |s.queue|)), s.queue[Pick(s)]).tickets[s.queue[Pick(s)]])
  {
    var id := s.queue[Pick(s)];
    var t := s.tickets[id];
    PickIsFair(s, |s.queue|);
    assert id in s.queue[..|s.queue|];
    assert Scanned(s, |s.queue|)[id] == Consider(s, t);
    assert Holds(t) && !t.running;
    StartTakes(s.(tickets := Scanned(s, |s.queue|)), id);
    if NeedsAccount(t) {
      HoldsChosen(t, BusyAccounts(s));
    }
    hide Scanned, Pick, Start, Room;
  }

  lemma DispatchStepHolds(s: Sched)
    requires QueueOk(s) && AllHold(s.tickets) && Pick(s) >= 0
    ensures AllHold(DispatchStep(s).tickets)
  {
    var id := s.queue[Pick(s)];
    var scanned := s.(tickets := Scanned(s, |s.queue|));
    var w := scanned.(queue := DropAt(s.queue, Pick(s)));
    ScannedHold(s);
    PickedHolds(s);
    StartFrame(w, id);
    StartTakes(w, id);
    StartTakes(scanned, id);
    hide Scanned, Pick, Start, DropAt, Holds;
  }

  lemma {:induction false} DispatchHold(s: Sched)
    requires QueueOk(s) && AllHold(s.tickets)
    ensures AllHold(DispatchLoop(s).tickets) && AllHold(Dispatch(s).tickets)
    decreases |s.queue|
  {
    if s.active < s.c.capacity {
      if Pick(s) >= 0 {
        DispatchStepHolds(s);
        DispatchStepFrame(s);
        hide AllHold, DispatchStep, Pick, QueueOk;
        DispatchHold(DispatchStep(s));
      } else {
        ScannedHold(s);
      }
    }
  }

  lemma RemoveHold(s: Sched, id: nat)
    requires QueueOk(s) && TicketsOk(s) && id < |s.tickets| && AllHold(s.tickets)
    ensures AllHold(Remove(s, id).tickets)
  {
    hide AllHold, Remove;
    RemoveFrame(s, id);
    hide QueueOk, TicketsOk;
    RemovedHold(s, Remove(s, id), id);
  }

  lemma RemovedHold(s: Sched, r: Sched, id: nat)
    requires Removed(s, r, id) && AllHold(s.tickets)
    ensures AllHold(r.tickets)
  {
    assert Holds(s.tickets[id]);
  }

  lemma AcquireHold(s: Sched, key: Key, override: int, model: Model, bytes: nat)
    requires Inv(s) && !s.c.unlimited && AllHold(s.tickets)
    ensures AllHold(Acquire(s, key, override, model, bytes).tickets)
  {
    if !OverBudget(s.c, key, bytes) {
      var d := Append(Dispatch(s), NewTicket(s.c, key, override, model, bytes));
      var id := |s.tickets|;
      AcquireSplit(s, key, override, model, bytes, d);
      DispatchHold(s);
      FreshTicket(s.c, key, override, model, bytes);
      assert AllHold(d.tickets);
      StartFrame(d, id);
      StartTakes(d, id);
      hide Inv, Acquire, Dispatch, Start, Enqueue, NewTicket;
    }
  }

  lemma AcquireSplit(s: Sched, key: Key, override: int, model: Model, bytes: nat, d: Sched)
    requires QueueInRange(s) && !s.c.unlimited && !OverBudget(s.c, key, bytes)
    requires d == Append(Dispatch(s), NewTicket(s.c, key, override, model, bytes))
    ensures var r := Acquire(s, key, override, model, bytes); r == Start(d, |s.tickets|) || r == Enqueue(d, |s.tickets|)
  {
    hide Dispatch, NewTicket, Start, Enqueue, Room, Append;
  }

  lemma YieldHold(s: Sched, id: nat, choose: Chooser)
    requires id < |s.tickets| && TicketOk(s.c, s.tickets[id]) && AllHold(s.tickets)
    ensures AllHold(Yield(s, id, choose).tickets)
  {
    YieldFrame(s, id, choose);
    hide Yield;
  }

  lemma BindHold(s: Sched, id: nat, choose: Chooser)
    requires Inv(s) && !s.c.unlimited && id < |s.tickets| && AllHold(s.tickets)
    ensures AllHold(Bind(s, id, choose).tickets)
  {
    if Bindable(s, id) {
      var y := Yield(s, id, choose);
      var d := Dispatch(y);
      assert TicketOk(s.c, s.tickets[id]);
      YieldInv(s, id, choose);
      YieldHold(s, id, choose);
      DispatchYielded(y, id, choose);
      assert QueueOk(y) && QueueInRange(d);
      hide Inv, AllHold, Yield, QueueOk;
      DispatchHold(y);
      hide Dispatch, Retake;
      RetakeHold(d, id, choose);
    }
  }

  lemma RetakeHold(d: Sched, id: nat, choose: Chooser)
    requires QueueInRange(d) && Yielded(d, id, choose) && AllHold(d.tickets)
    ensures AllHold(Retake(d, id, choose).tickets)
  {
    var t, answer := d.tickets[id], choose(BusyAccounts(d));
    var asked := d.(tickets := d.tickets[id := Chosen(t, answer)]);
    assert Holds(t);
    HoldsChosen(t, BusyAccounts(d));
    RetakeSplit(d, id, choose);
    StartFrame(asked, id);
    StartTakes(asked, id);
    hide Retake, Start, Enqueue, Room;
  }

  lemma ParkHold(s: Sched, id: nat)
    requires Inv(s) && !s.c.unlimited && id < |s.tickets| && AllHold(s.tickets)
    ensures AllHold(Park(s, id).tickets)
  {
    if s.tickets[id].running && QueueRefusal(s, s.tickets[id]).None? {
      var r := ParkQueued(s, id);
      hide Park, QueueRefusal;
      assert Holds(s.tickets[id]);
      assert AllHold(r.tickets);
      DispatchHold(r);
    } else {
      assert s.tickets[id].running ==> !s.tickets[id].released by { assert TicketOk(s.c, s.tickets[id]); }
      ParkRefused(s, id);
      hide Park, QueueRefusal;
    }
    hide Inv;
  }

  lemma StepHold(s: Sched, op: Op)
    requires Inv(s) && !s.c.unlimited && AllHold(s.tickets)
    ensures AllHold(Step(s, op).tickets)
  {
    assert QueueOk(s) && TicketsOk(s);
    hide Inv, AllHold, Acquire, Bind, Park, Dispatch, Remove, QueueOk, TicketsOk;
    match op
    case AcquireOp(key, override, model, bytes) => AcquireHold(s, key, override, model, bytes);
    case BindOp(id, choose) => if id < |s.tickets| { BindHold(s, id, choose); }
    case ParkOp(id) => if id < |s.tickets| { ParkHold(s, id); }
    case UnparkOp(id) => if id < |s.tickets| { UnparkHold(s, id); }
    case GiveUpOp(id, timeout) => if id < |s.tickets| { GiveUpHold(s, id, timeout); }
    case ReleaseOp(id) => if id < |s.tickets| { ReleaseHold(s, id); }
    case TickOp => DispatchHold(s);
    case PressureOp(_) =>
  }

  lemma UnparkHold(s: Sched, id: nat)
    requires Inv(s) && !s.c.unlimited && id < |s.tickets| && AllHold(s.tickets)
    ensures AllHold(Unpark(s, id).tickets)
  {
    var s1 := s.(tickets := s.tickets[id := s.tickets[id].(ready := true)]);
    assert QueueOk(s1) by { QueueSame(s, s1); }
    assert AllHold(s1.tickets) by { assert Holds(s.tickets[id]); }
    hide Inv, Dispatch;
    DispatchHold(s1);
  }

  lemma GiveUpHold(s: Sched, id: nat, timeout: bool)
    requires Inv(s) && !s.c.unlimited && id < |s.tickets| && AllHold(s.tickets)
    ensures AllHold(GiveUp(s, id, timeout).tickets)
  {
    var s1 := if timeout then Reject(s, ModelQueueTimeout) else s;
    CounterCore(s, s1);
    RemoveHold(s1, id);
    RemoveCore(s1, id);
    assert QueueOk(Remove(s1, id));
    hide Inv, Core, Dispatch, Remove;
    DispatchHold(Remove(s1, id));
  }

  lemma ReleaseHold(s: Sched, id: nat)
    requires Inv(s) && !s.c.unlimited && id < |s.tickets| && AllHold(s.tickets)
    ensures AllHold(Release(s, id).tickets)
  {
    if !s.tickets[id].released {
      var r := Marked(Remove(s, id), id);
      RemoveHold(s, id);
      RemoveMarkedCore(s, id);
      MarkCommutes(s, id);
      assert QueueOk(r);
      hide Inv, Core, Dispatch, Remove;
      assert Holds(Remove(s, id).tickets[id]);
      assert AllHold(r.tickets);
      DispatchHold(r);
    }
  }

  lemma {:induction false} RunHold(s: Sched, ops: seq<Op>)
    requires Inv(s) && !s.c.unlimited && AllHold(s.tickets)
    ensures AllHold(Run(s, ops).tickets)
    decreases |ops|
  {
    assert QueueInRange(s);
    if |ops| > 0 {
      StepInv(s, ops[0]);
      StepHold(s, ops[0]);
      hide Inv, Step, AllHold;
      RunHold(Step(s, ops[0]), ops[1..]);
    }
  }

  /** In every run under limits a running lease really holds what it was admitted for:
      its response bytes, and - once it was bound - an account that its chooser named,
      unless the chooser refused. */
  lemma RunningLeasesHold(cfg: Config, ops: seq<Op>, id: nat)
    requires !cfg.limitsDisabled
    ensures var s := Run(Init(NewLimits(cfg)), ops);
      id < |s.tickets| && s.tickets[id].running ==>
        var t := s.tickets[id];
        && t.bufferHeld
        && (t.chooser.Some? && t.selectionErr == None ==>
              t.accountHeld && t.account.Some? && Named(t.chooser.value, t.account.value))
  {
    NewLimitsValid(cfg);
    InitInv(NewLimits(cfg));
    RunInv(Init(NewLimits(cfg)), ops);
    RunHold(Init(NewLimits(cfg)), ops);
    hide Run;
    var s := Run(Init(NewLimits(cfg)), ops);
    if id < |s.tickets| { assert TicketOk(s.c, s.tickets[id]) && Holds(s.tickets[id]); }
  }

  // ------------------------------------------------------------ parked leases

  /** A waiter that is not ready is left alone by a dispatch. */
  lemma StepSkipsUnready(s: Sched, id: nat)
    requires QueueOk(s) && Pick(s) >= 0 && id in s.queue && !s.tickets[id].ready
    ensures id in DispatchStep(s).queue && DispatchStep(s).tickets[id] == s.tickets[id]
  {
    var w := s.(tickets := Scanned(s, |s.queue|), queue := DropAt(s.queue, Pick(s)));
    PickIsFair(s, |s.queue|);
    assert s.queue[Pick(s)] != id;
    DropMembers(s.queue, Pick(s));
    StartFrame(w, s.queue[Pick(s)]);
    assert Scanned(s, |s.queue|)[id] == s.tickets[id];
    hide Scanned, DropAt, Start, Pick;
  }

  lemma {:induction false} DispatchSkipsUnready(s: Sched, id: nat)
    requires QueueOk(s) && id in s.queue && !s.tickets[id].ready
    ensures id in DispatchLoop(s).queue && DispatchLoop(s).tickets[id] == s.tickets[id]
    ensures id in Dispatch(s).queue && Dispatch(s).tickets[id] == s.tickets[id]
    decreases |s.queue|
  {
    if s.active < s.c.capacity {
      if Pick(s) >= 0 {
        StepSkipsUnready(s, id);
        DispatchStepFrame(s);
        hide DispatchStep, Pick, QueueOk;
        DispatchSkipsUnready(DispatchStep(s), id);
      } else {
        assert Scanned(s, |s.queue|)[id] == s.tickets[id];
      }
    }
  }

  /** It waits for its upstream, with this ticket. */
  ghost predicate Parked(s: Sched, id: nat, t: Ticket) {
    id < |s.tickets| && id in s.queue && s.tickets[id] == t && !t.ready && !t.running
  }

  /** Parking gives the slot to others and keeps everything else: the ticket waits, not
      ready, with the bytes and the account it held. A full queue leaves it running. */
  lemma ParkKeepsPermits(s: Sched, id: nat)
    requires Inv(s) && !s.c.unlimited && id < |s.tickets| && s.tickets[id].running
    ensures if QueueRefusal(s, s.tickets[id]).None?
            then Parked(Park(s, id), id, s.tickets[id].(ready := false, running := false))
            else Park(s, id) == s.(rejected := Inc(s.rejected, QueueRefusal(s, s.tickets[id]).value))
  {
    if QueueRefusal(s, s.tickets[id]).None? {
      var r := ParkQueued(s, id);
      assert r.queue[|s.queue|] == id;
      DispatchSkipsUnready(r, id);
      hide Core, Park, Dispatch, QueueRefusal;
    } else {
      assert TicketOk(s.c, s.tickets[id]);
      hide Core, QueueRefusal, Dispatch, Stop;
    }
  }

  lemma AcquireParked(s: Sched, key: Key, override: int, model: Model, bytes: nat, id: nat, t: Ticket)
    requires QueueOk(s) && !s.c.unlimited && Parked(s, id, t)
    ensures Parked(Acquire(s, key, override, model, bytes), id, t)
  {
    if !OverBudget(s.c, key, bytes) {
      var d := Append(Dispatch(s), NewTicket(s.c, key, override, model, bytes));
      AcquireSplit(s, key, override, model, bytes, d);
      DispatchSkipsUnready(s, id);
      hide Acquire, Dispatch, NewTicket, QueueOk;
      OtherParked(d, |s.tickets|, id, t);
    }
  }

  /** Starting or queueing another ticket leaves a parked one where it is. */
  lemma OtherParked(s: Sched, i: nat, id: nat, t: Ticket)
    requires QueueInRange(s) && i < |s.tickets| && i != id && Parked(s, id, t)
    ensures Parked(Start(s, i), id, t) && Parked(Signal(Start(s, i)), id, t)
    ensures Parked(Enqueue(s, i), id, t) && Parked(Signal(Enqueue(s, i)), id, t)
  {
    StartFrame(s, i);
    assert id in s.queue + [i];
    hide Start, QueueRefusal;
  }

  lemma YieldParked(s: Sched, i: nat, choose: Chooser, id: nat, t: Ticket)
    requires i < |s.tickets| && TicketOk(s.c, s.tickets[i]) && Parked(s, id, t) && i != id
    ensures Parked(Yield(s, i, choose), id, t)
  {
    YieldFrame(s, i, choose);
    hide Yield;
  }

  lemma RetakeParked(d: Sched, i: nat, choose: Chooser, id: nat, t: Ticket)
    requires QueueInRange(d) && i < |d.tickets| && i != id && Parked(d, id, t)
    ensures Parked(Retake(d, i, choose), id, t)
  {
    var asked := d.(tickets := d.tickets[i := Chosen(d.tickets[i], choose(BusyAccounts(d)))]);
    RetakeSplit(d, i, choose);
    assert Parked(asked, id, t) by { hide Retake, Chosen; }
    hide Retake, Chosen, Room, Start, Enqueue, Parked;
    OtherParked(d, i, id, t);
    OtherParked(asked, i, id, t);
  }

  lemma BindParked(s: Sched, i: nat, choose: Chooser, id: nat, t: Ticket)
    requires Inv(s) && !s.c.unlimited && i < |s.tickets| && Parked(s, id, t)
    ensures Parked(Bind(s, i, choose), id, t)
  {
    if Bindable(s, i) {
      var y := Yield(s, i, choose);
      assert TicketOk(s.c, s.tickets[i]);
      YieldInv(s, i, choose);
      YieldParked(s, i, choose, id, t);
      hide Yield, HoldersLive, DatesInUse, Parked;
      DispatchParked(y, id, t);
      DispatchYielded(y, i, choose);
      hide Core, Dispatch, Retake;
      RetakeParked(Dispatch(y), i, choose, id, t);
    }
  }

  lemma ParkParked(s: Sched, i: nat, id: nat, t: Ticket)
    requires Inv(s) && !s.c.unlimited && i < |s.tickets| && Parked(s, id, t)
    ensures Parked(Park(s, i), id, t)
  {
    if s.tickets[i].running && QueueRefusal(s, s.tickets[i]).None? {
      var r := ParkQueued(s, i);
      assert id in r.queue;
      hide Core, Park, Dispatch, QueueRefusal;
      DispatchParked(r, id, t);
    } else {
      assert s.tickets[i].running ==> !s.tickets[i].released by { assert TicketOk(s.c, s.tickets[i]); }
      ParkRefused(s, i);
      hide Park, QueueRefusal;
    }
  }

  lemma DispatchParked(s: Sched, id: nat, t: Ticket)
    requires Core(s) && Parked(s, id, t)
    ensures Parked(Dispatch(s), id, t)
  {
    DispatchSkipsUnready(s, id);
    hide Dispatch, Core;
  }

  lemma RemovedParked(s: Sched, r: Sched, i: nat, id: nat, t: Ticket)
    requires Removed(s, r, i) && i != id && Parked(s, id, t)
    ensures Parked(r, id, t) && Parked(Marked(r, i), id, t)
  {
  }

  lemma GiveUpParked(s: Sched, i: nat, timeout: bool, id: nat, t: Ticket)
    requires Inv(s) && !s.c.unlimited && i < |s.tickets| && i != id && Parked(s, id, t)
    ensures Parked(GiveUp(s, i, timeout), id, t)
  {
    var s1 := if timeout then Reject(s, ModelQueueTimeout) else s;
    CounterCore(s, s1);
    assert Parked(s1, id, t);
    RemoveCore(s1, i);
    RemoveFrame(s1, i);
    hide Core, Dispatch, Remove, Parked;
    RemovedParked(s1, Remove(s1, i), i, id, t);
    DispatchParked(Remove(s1, i), id, t);
  }

  lemma ReleaseParked(s: Sched, i: nat, id: nat, t: Ticket)
    requires Inv(s) && !s.c.unlimited && i < |s.tickets| && i != id && Parked(s, id, t)
    ensures Parked(Release(s, i), id, t)
  {
    RemoveMarkedCore(s, i);
    RemoveFrame(s, i);
    MarkCommutes(s, i);
    hide Core, Dispatch, Remove, Parked;
    RemovedParked(s, Remove(s, i), i, id, t);
    DispatchParked(Marked(Remove(s, i), i), id, t);
  }

  lemma StepParked(s: Sched, op: Op, id: nat, t: Ticket)
    requires Inv(s) && !s.c.unlimited && Parked(s, id, t)
    requires !Disturbs(op, id)
    ensures Parked(Step(s, op), id, t)
  {
    assert QueueOk(s) && QueueInRange(s);
    hide Inv, QueueOk, Parked, Acquire, Bind, Park, Unpark, GiveUp, Release, Dispatch;
    match op
    case AcquireOp(key, override, model, bytes) => AcquireParked(s, key, override, model, bytes, id, t);
    case BindOp(i, choose) => if i < |s.tickets| { BindParked(s, i, choose, id, t); }
    case ParkOp(i) => if i < |s.tickets| { ParkParked(s, i, id, t); }
    case UnparkOp(i) => if i < |s.tickets| { UnparkParked(s, i, id, t); }
    case GiveUpOp(i, timeout) => if i < |s.tickets| { GiveUpParked(s, i, timeout, id, t); }
    case ReleaseOp(i) => if i < |s.tickets| { ReleaseParked(s, i, id, t); }
    case TickOp => TickParked(s, id, t);
    case PressureOp(high) => PressureParked(s, high, id, t);
  }

  lemma TickParked(s: Sched, id: nat, t: Ticket)
    requires QueueOk(s) && Parked(s, id, t)
    ensures Parked(Dispatch(s), id, t)
  {
    DispatchSkipsUnready(s, id);
    hide Dispatch, QueueOk;
  }

  lemma PressureParked(s: Sched, high: bool, id: nat, t: Ticket)
    requires Parked(s, id, t)
    ensures Parked(s.(pressure := high), id, t)
  {
  }

  lemma UnparkParked(s: Sched, i: nat, id: nat, t: Ticket)
    requires Inv(s) && !s.c.unlimited && i < |s.tickets| && i != id && Parked(s, id, t)
    ensures Parked(Unpark(s, i), id, t)
  {
    var s1 := s.(tickets := s.tickets[i := s.tickets[i].(ready := true)]);
    assert QueueOk(s1) by { QueueSame(s, s1); }
    hide Inv, Dispatch;
    DispatchSkipsUnready(s1, id);
  }

  /** The end of the lease's upstream wait, or of the lease. */
  predicate Disturbs(op: Op, id: nat) {
    match op
    case UnparkOp(i) => i == id
    case GiveUpOp(i, _) => i == id
    case ReleaseOp(i) => i == id
    case _ => false
  }

  /** A parked lease waits with what it holds, whatever else happens, until its own
      upstream wait is over or it is given up or released. */
  lemma {:induction false} ParkedWaits(s: Sched, ops: seq<Op>, id: nat, t: Ticket)
    requires Inv(s) && !s.c.unlimited && Parked(s, id, t)
    requires forall i :: 0 <= i < |ops| ==> !Disturbs(ops[i], id)
    ensures Parked(Run(s, ops), id, t)
    decreases |ops|
  {
    assert QueueInRange(s);
    if |ops| > 0 {
      StepInv(s, ops[0]);
      StepParked(s, ops[0], id, t);
      hide Inv, Step, Parked;
      ParkedWaits(Step(s, ops[0]), ops[1..], id, t);
    }
  }

  /** Once it is over, the lease is ready: it runs, or waits for a start like any other. */
  lemma UnparkedIsReady(s: Sched, id: nat, t: Ticket)
    requires Inv(s) && !s.c.unlimited && Parked(s, id, t)
    ensures var r := Unpark(s, id); r.tickets[id].ready && (r.tickets[id].running || id in r.queue)
  {
    var s1 := s.(tickets := s.tickets[id := t.(ready := true)]);
    assert QueueOk(s1) by { QueueSame(s, s1); }
    DispatchReady(s1, id);
    DispatchLoopFrame(s1);
    hide Inv, DispatchLoop, QueueOk;
  }

  lemma StartReady(s: Sched, i: nat, id: nat)
    requires i < |s.tickets| && id < |s.tickets| && s.tickets[id].ready
    ensures Start(s, i).tickets[id].ready
  {
  }

  lemma {:induction false} DispatchReady(s: Sched, id: nat)
    requires QueueInRange(s) && id < |s.tickets| && s.tickets[id].ready
    ensures DispatchLoop(s).tickets[id].ready
    decreases |s.queue|
  {
    ScannedHoldings(s);
    if s.active < s.c.capacity && Pick(s) >= 0 {
      StartReady(s.(tickets := Scanned(s, |s.queue|), queue := DropAt(s.queue, Pick(s))), s.queue[Pick(s)], id);
      assert DispatchStep(s).tickets[id].ready by { hide Scanned, Pick, DropAt, Start; }
      hide DispatchStep, Scanned, Pick;
      DispatchReady(DispatchStep(s), id);
    }
  }

  // ------------------------------------------------------------ dates of keys

  /** Some ticket of the key runs or waits. */
  predicate RunsOrWaits(s: Sched, k: Key) {
    exists i :: 0 <= i < |s.tickets| && s.tickets[i].key == k && (s.tickets[i].running || i in s.queue)
  }

  /** Forgetting a date changes nothing else, and concerns one key that is absent. */
  lemma ForgetsAbsent(s: Sched, key: Key, k: Key)
    requires QueueInRange(s) && k in s.served && (k == key ==> Get(s.byKey, k) > 0 || QueuedKey(s, k))
    ensures k in ForgetServed(s, key).served && ForgetServed(s, key).served[k] == s.served[k]
  {
  }

  lemma SameQueuedKey(s: Sched, r: Sched, k: Key)
    requires QueueInRange(s) && r == s.(served := r.served) && QueuedKey(r, k)
    ensures QueuedKey(s, k)
  {
    var j :| 0 <= j < |r.queue| && Waiter(r, j).key == k;
    assert Waiter(s, j).key == k;
  }

  lemma LeaveServed(s: Sched, id: nat)
    requires QueueInRange(s) && id < |s.tickets|
    ensures Leave(ReleaseBuffer(ReleaseAccount(s, id), id), id).served == s.served
  {
    var s1 := ReleaseAccount(s, id);
    var s2 := ReleaseBuffer(s1, id);
    assert s1.served == s.served;
    assert s2.served == s1.served;
    assert Leave(s2, id).served == s2.served;
  }

  lemma LeaveKeepsDates(s: Sched, id: nat, k: Key)
    requires Core(s) && id < |s.tickets| && k in s.served && RunsOrWaits(Remove(s, id), k)
    ensures k in Remove(s, id).served && Remove(s, id).served[k] == s.served[k]
  {
    var s3 := Leave(ReleaseBuffer(ReleaseAccount(s, id), id), id);
    var r := ForgetServed(s3, s.tickets[id].key);
    assert Remove(s, id) == r;
    LeaveServed(s, id);
    RemoveCore(s, id);
    hide Leave, ReleaseBuffer, ReleaseAccount, Remove, ForgetServed, Core;
    PresentIsCounted(r, k);
    if QueuedKey(r, k) { SameQueuedKey(s3, r, k); }
    ForgetsAbsent(s3, s.tickets[id].key, k);
  }

  lemma PresentIsCounted(s: Sched, k: Key)
    requires Core(s) && RunsOrWaits(s, k)
    ensures Get(s.byKey, k) > 0 || QueuedKey(s, k)
  {
    var i :| 0 <= i < |s.tickets| && s.tickets[i].key == k && (s.tickets[i].running || i in s.queue);
    if s.tickets[i].running {
      TotalAtLeast(KeyRunning(k), s.tickets, i);
      assert Get(s.byKey, k) == Total(KeyRunning(k), s.tickets);
    } else {
      var j :| 0 <= j < |s.queue| && s.queue[j] == i;
      assert Waiter(s, j).key == k;
    }
  }

  lemma DispatchStepKeepsDates(s: Sched, k: Key)
    requires QueueInRange(s) && Pick(s) >= 0 && k in s.served
    ensures k in DispatchStep(s).served
  {
    var w := s.(tickets := Scanned(s, |s.queue|), queue := DropAt(s.queue, Pick(s)));
    assert w.served == s.served;
    hide Scanned, Pick, DropAt;
  }

  lemma {:induction false} DispatchKeepsDates(s: Sched, k: Key)
    requires QueueInRange(s) && k in s.served
    ensures k in DispatchLoop(s).served
    decreases |s.queue|
  {
    hide DispatchStep, Pick, Scanned;
    if s.active < s.c.capacity && Pick(s) >= 0 {
      DispatchStepKeepsDates(s, k);
      DispatchKeepsDates(DispatchStep(s), k);
    }
  }

  /** What a dispatch leaves running or waiting ran or waited before. */
  lemma PresentBefore(s: Sched, k: Key)
    requires Core(s) && RunsOrWaits(Dispatch(s), k)
    ensures RunsOrWaits(s, k)
  {
    DispatchCore(s);
    var d := Dispatch(s);
    hide Dispatch, Core;
    var i :| 0 <= i < |d.tickets| && d.tickets[i].key == k && (d.tickets[i].running || i in d.queue);
    assert s.tickets[i].key == k && (s.tickets[i].running || i in s.queue);
  }

  /** A key that still runs or waits keeps its date whoever else leaves, so leaving and
      coming back buys no earlier turn. */
  lemma DateKeptWhilePresent(s: Sched, op: Op, k: Key)
    requires Inv(s) && k in s.served && RunsOrWaits(Step(s, op), k)
    ensures k in Step(s, op).served
  {
    assert QueueInRange(s);
    hide Inv, GiveUp, Release;
    if op.GiveUpOp? && op.id < |s.tickets| && !s.c.unlimited && !(op.timeout && s.tickets[op.id].running) {
      DateKeptOnGiveUp(s, op.id, op.timeout, k);
      hide RunsOrWaits, Step;
    } else if op.ReleaseOp? && op.id < |s.tickets| && !s.tickets[op.id].released {
      DateKeptOnRelease(s, op.id, k);
      hide RunsOrWaits, Step;
    } else {
      hide RunsOrWaits, Step;
      DateKeptElsewhere(s, op, k);
    }
  }

  lemma DateKeptOnGiveUp(s: Sched, id: nat, timeout: bool, k: Key)
    requires Inv(s) && id < |s.tickets| && !s.c.unlimited && !(timeout && s.tickets[id].running)
    requires k in s.served && RunsOrWaits(GiveUp(s, id, timeout), k)
    ensures k in GiveUp(s, id, timeout).served
  {
    var s1 := if timeout then Reject(s, ModelQueueTimeout) else s;
    CounterCore(s, s1);
    hide Core, RunsOrWaits, Remove, Dispatch;
    RemoveCore(s1, id);
    DateKeptOnLeave(s1, id, k, Remove(s1, id));
  }

  lemma DateKeptOnRelease(s: Sched, id: nat, k: Key)
    requires Inv(s) && id < |s.tickets| && !s.tickets[id].released
    requires k in s.served && RunsOrWaits(Release(s, id), k)
    ensures k in Release(s, id).served
  {
    assert QueueInRange(s);
    hide Core, RunsOrWaits, Remove, Dispatch;
    MarkCommutes(s, id);
    RemoveMarkedCore(s, id);
    DateKeptOnLeave(s, id, k, Marked(Remove(s, id), id));
  }

  lemma DateKeptOnLeave(s: Sched, id: nat, k: Key, m: Sched)
    requires Core(s) && Core(m) && id < |s.tickets| && k in s.served
    requires m == Remove(s, id) || m == Marked(Remove(s, id), id)
    requires RunsOrWaits(Dispatch(m), k)
    ensures k in Dispatch(m).served
  {
    PresentBefore(m, k);
    assert m.served == Remove(s, id).served && m.queue == Remove(s, id).queue;
    RemoveFrame(s, id);
    assert RunsOrWaits(Remove(s, id), k) by {
      hide Remove, Dispatch, Core;
      var i :| 0 <= i < |m.tickets| && m.tickets[i].key == k && (m.tickets[i].running || i in m.queue);
      assert Remove(s, id).tickets[i].key == k && (Remove(s, id).tickets[i].running || i in Remove(s, id).queue);
    }
    LeaveKeepsDates(s, id, k);
    DispatchKeepsDates(m, k);
    hide Remove, DispatchLoop, Core;
  }

  lemma DateKeptElsewhere(s: Sched, op: Op, k: Key)
    requires QueueInRange(s) && k in s.served
    requires op.GiveUpOp? && op.id < |s.tickets| ==> s.c.unlimited || (op.timeout && s.tickets[op.id].running)
    requires op.ReleaseOp? && op.id < |s.tickets| ==> s.tickets[op.id].released
    ensures k in Step(s, op).served
  {
    hide DispatchLoop, QueueRefusal, Remove, Acquire, Bind, Park;
    match op
    case AcquireOp(key, override, model, bytes) => AcquireKeepsDates(s, key, override, model, bytes, k);
    case BindOp(id, choose) => if id < |s.tickets| { BindKeepsDates(s, id, choose, k); }
    case ParkOp(id) => if id < |s.tickets| { ParkKeepsDates(s, id, k); }
    case UnparkOp(id) =>
      if id < |s.tickets| { DispatchKeepsDates(s.(tickets := s.tickets[id := s.tickets[id].(ready := true)]), k); }
    case TickOp => DispatchKeepsDates(s, k);
    case _ =>
  }

  lemma AcquireKeepsDates(s: Sched, key: Key, override: int, model: Model, bytes: nat, k: Key)
    requires QueueInRange(s) && k in s.served
    ensures k in Acquire(s, key, override, model, bytes).served
  {
    if !s.c.unlimited && !OverBudget(s.c, key, bytes) {
      var d := Append(Dispatch(s), NewTicket(s.c, key, override, model, bytes));
      AcquireSplit(s, key, override, model, bytes, d);
      DispatchKeepsDates(s, k);
      hide Acquire, DispatchLoop, QueueRefusal, NewTicket, Start, Enqueue;
      StartEnqueueServed(d, |s.tickets|, k);
    }
  }

  lemma RetakeKeepsDates(d: Sched, id: nat, choose: Chooser, k: Key)
    requires QueueInRange(d) && id < |d.tickets| && k in d.served
    ensures k in Retake(d, id, choose).served
  {
    var asked := d.(tickets := d.tickets[id := Chosen(d.tickets[id], choose(BusyAccounts(d)))]);
    RetakeSplit(d, id, choose);
    hide Retake, Room, Chosen;
    StartEnqueueServed(d, id, k);
    StartEnqueueServed(asked, id, k);
    hide Start, Enqueue;
  }

  lemma StartEnqueueServed(s: Sched, id: nat, k: Key)
    requires QueueInRange(s) && id < |s.tickets| && k in s.served
    ensures k in Start(s, id).served && k in Enqueue(s, id).served
  {
    hide QueueRefusal;
  }

  lemma BindKeepsDates(s: Sched, id: nat, choose: Chooser, k: Key)
    requires QueueInRange(s) && id < |s.tickets| && k in s.served
    ensures k in Bind(s, id, choose).served
  {
    hide Yield, DispatchLoop, Retake;
    if Bindable(s, id) && !s.c.unlimited {
      YieldServed(s, id, choose);
      DispatchKeepsDates(Yield(s, id, choose), k);
      RetakeKeepsDates(Dispatch(Yield(s, id, choose)), id, choose, k);
    }
  }

  lemma YieldServed(s: Sched, id: nat, choose: Chooser)
    requires id < |s.tickets|
    ensures Yield(s, id, choose).served == s.served
  {
    var s1 := ReleaseAccount(s, id);
    var s2 := ReleaseBuffer(s1, id);
    assert s1.served == s.served;
    assert s2.served == s1.served;
    hide ReleaseAccount, ReleaseBuffer;
  }

  lemma ParkKeepsDates(s: Sched, id: nat, k: Key)
    requires QueueInRange(s) && id < |s.tickets| && k in s.served
    ensures k in Park(s, id).served
  {
    if !s.c.unlimited && !s.tickets[id].released && s.tickets[id].running && QueueRefusal(s, s.tickets[id]).None? {
      var m := Stop(Enqueue(s.(tickets := s.tickets[id := s.tickets[id].(ready := false)]), id), id);
      assert m.served == s.served by { hide QueueRefusal; }
      DispatchKeepsDates(m, k);
    }
    hide DispatchLoop, QueueRefusal, Stop;
  }

  // ---------------------------------------------------------------- rejections

  /** One more rejection of this kind, and no other. */
  ghost predicate Counted(s: Sched, r: Sched, code: Option<Code>) {
    forall c :: Get(r.rejected, c) == Get(s.rejected, c) + if code == Some(c) then 1 else 0
  }

  /** A request under limits that is neither started nor queued was refused for exactly
      one reason, which is counted; one that is started or queued counts nothing. */
  lemma ArrivalRejectionCounted(s: Sched, key: Key, override: int, model: Model, bytes: nat)
    requires Inv(s) && !s.c.unlimited && !OverBudget(s.c, key, bytes)
    ensures |Acquire(s, key, override, model, bytes).tickets| == |s.tickets| + 1
    ensures var r, id := Acquire(s, key, override, model, bytes), |s.tickets|;
      if r.tickets[id].running || id in r.queue then Counted(s, r, None)
      else exists code :: Counted(s, r, Some(code))
  {
    var t := NewTicket(s.c, key, override, model, bytes);
    var d := Append(Dispatch(s), t);
    AcquireSplit(s, key, override, model, bytes, d);
    DispatchInv(s);
    assert d.rejected == s.rejected && |d.tickets| == |s.tickets| + 1;
    assert |s.tickets| !in d.queue by { hide Dispatch, NewTicket; }
    hide Inv, Acquire, Dispatch, NewTicket, Append, QueueRefusal;
    ArrivalCounts(s, d, |s.tickets|);
  }

  lemma ArrivalCounts(s: Sched, d: Sched, id: nat)
    requires QueueInRange(d) && id < |d.tickets| && id !in d.queue && d.rejected == s.rejected
    ensures Start(d, id).tickets[id].running && Counted(s, Start(d, id), None)
    ensures id in Enqueue(d, id).queue ==> Counted(s, Enqueue(d, id), None)
    ensures id !in Enqueue(d, id).queue ==> exists code :: Counted(s, Enqueue(d, id), Some(code))
    ensures Enqueue(d, id).tickets == d.tickets
  {
    StartFrame(d, id);
    EnqueueCounts(d, id);
    hide Start, Enqueue, QueueRefusal, Counted;
    assert Start(d, id).rejected == s.rejected;
    SameCounts(s, d, Start(d, id));
    SameCounts(s, d, Enqueue(d, id));
    if id !in Enqueue(d, id).queue {
      assert Counted(s, Enqueue(d, id), Some(QueueRefusal(d, d.tickets[id]).value));
    }
  }

  lemma SameCounts(s: Sched, d: Sched, r: Sched)
    requires d.rejected == s.rejected
    ensures forall code :: Counted(d, r, code) ==> Counted(s, r, code)
    ensures r.rejected == s.rejected ==> Counted(s, r, None)
  {
  }

  lemma EnqueueCounts(m: Sched, id: nat)
    requires QueueInRange(m) && id < |m.tickets| && id !in m.queue
    ensures var r := Enqueue(m, id);
      && (id in r.queue ==> Counted(m, r, None))
      && (id !in r.queue ==> Counted(m, r, Some(QueueRefusal(m, m.tickets[id]).value)))
      && (id in r.queue <==> QueueRefusal(m, m.tickets[id]).None?)
  {
    EnqueueEnds(m, id);
    hide QueueRefusal;
  }

  /** A wait that times out before its start is counted once; one that is started in
      time, or cancelled, counts nothing. A started lease is spared. */
  lemma TimeoutCounted(s: Sched, id: nat, timeout: bool)
    requires Inv(s) && !s.c.unlimited && id < |s.tickets|
    ensures var r := GiveUp(s, id, timeout);
      && Counted(s, r, if timeout && !s.tickets[id].running then Some(ModelQueueTimeout) else None)
      && (timeout && s.tickets[id].running ==> r == s)
  {
    if !(timeout && s.tickets[id].running) {
      var s1 := if timeout then Reject(s, ModelQueueTimeout) else s;
      RemoveRejected(s1, id);
      hide Inv, Remove, DispatchLoop;
      assert GiveUp(s, id, timeout) == Dispatch(Remove(s1, id));
    }
  }

  lemma RemoveRejected(s: Sched, id: nat)
    requires QueueInRange(s) && id < |s.tickets|
    ensures Remove(s, id).rejected == s.rejected
  {
    var s1 := ReleaseAccount(s, id);
    var s2 := ReleaseBuffer(s1, id);
    assert s1.rejected == s.rejected;
    assert s2.rejected == s1.rejected;
    assert Leave(s2, id).rejected == s2.rejected;
    hide ReleaseAccount, ReleaseBuffer, Leave;
  }
}
