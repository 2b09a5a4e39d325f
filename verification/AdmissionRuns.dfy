/** Binding, parking and arriving keep the invariant; hence whole runs do. */
module AdmissionRuns {
  import opened AdmissionSpec
  import opened AdmissionInvariant
  import opened AdmissionSections

  // ------------------------------------------------------------------- bind

  /** Yielding leaves ticket id with nothing, outside the queue. */
  lemma YieldCore(s: Sched, id: nat, choose: Chooser)
    requires Core(s) && id < |s.tickets| && s.tickets[id].running && !s.c.unlimited
    ensures Core(Yield(s, id, choose))
  {
    var s1 := ReleaseAccount(s, id);
    var s2 := ReleaseBuffer(s1, id);
    var s3 := Stop(s2, id);
    ReleaseAccountCore(s, id);
    ReleaseBufferCore(s1, id);
    YieldFrame(s, id, choose);
    hide ReleaseAccount, ReleaseBuffer;
    StopCore(s2, id);
    assert TicketOk(s3.c, s3.tickets[id]);
    hide Core, Stop;
    RelabelCore(s3, id, s3.tickets[id].(chooser := Some(choose), account := None, selectionErr := None));
  }

  lemma YieldFrame(s: Sched, id: nat, choose: Chooser)
    requires id < |s.tickets| && TicketOk(s.c, s.tickets[id])
    ensures ReleaseAccount(s, id).tickets[id] == s.tickets[id].(accountHeld := false)
    ensures ReleaseBuffer(ReleaseAccount(s, id), id).tickets[id]
        == s.tickets[id].(accountHeld := false, bufferHeld := false)
    ensures Yield(s, id, choose).tickets ==
      s.tickets[id := s.tickets[id].(accountHeld := false, bufferHeld := false, running := false,
                                     chooser := Some(choose), account := None, selectionErr := None)]
  {
    ReleaseShapes(s, id);
    ReleaseShapes(ReleaseAccount(s, id), id);
    hide ReleaseAccount, ReleaseBuffer;
  }

  /** The two ways a retake can end: started with an account, or queued or refused. */
  lemma RetakeShape(s: Sched, id: nat, choose: Chooser)
    requires QueueInRange(s) && id < |s.tickets|
    ensures var t := s.tickets[id];
      var starts := s.active < s.c.capacity && Room(s, t);
      var s1 := s.(tickets := s.tickets[id := if starts then Chosen(t, choose(BusyAccounts(s))) else t]);
      var r := Retake(s, id, choose);
      if starts && choose(BusyAccounts(s)).Free? then r == Signal(Start(s1, id))
      else r == s1 || r == Enqueue(s1, id) || r == Signal(Enqueue(s1, id))
  {
    var t := s.tickets[id];
    assert s.tickets[id := t] == s.tickets;
    assert s.(tickets := s.tickets[id := t]) == s;
    hide Start, Enqueue, Room;
  }

  lemma RetakeCases(s: Sched, id: nat, choose: Chooser)
    requires QueueInRange(s) && Cleared(s, id)
    ensures var t := s.tickets[id];
      var u := if s.active < s.c.capacity && Room(s, t) then Chosen(t, choose(BusyAccounts(s))) else t;
      var s1 := s.(tickets := s.tickets[id := u]);
      var r := Retake(s, id, choose);
      if s.active < s.c.capacity && Room(s, t) && choose(BusyAccounts(s)).Free?
      then r == Signal(Start(s1, id)) && (Startable(s1, id) || s.tickets[id].released)
      else r == s1 || r == Enqueue(s1, id) || r == Signal(Enqueue(s1, id))
  {
    var t := s.tickets[id];
    RetakeShape(s, id, choose);
    hide Retake, Start, Enqueue;
    if s.active < s.c.capacity && Room(s, t) {
      var s1 := s.(tickets := s.tickets[id := Chosen(t, choose(BusyAccounts(s)))]);
      assert BusyAccounts(s1) == BusyAccounts(s);
    }
  }

  lemma ChosenCore(s: Sched, id: nat, c: Choice)
    requires Core(s) && Cleared(s, id) && s.tickets[id].chooser.Some?
    ensures var r := s.(tickets := s.tickets[id := Chosen(s.tickets[id], c)]);
      Core(r) && Cleared(r, id) && r.tickets[id].released == s.tickets[id].released
  {
    var u := Chosen(s.tickets[id], c);
    ChosenFrame(s.tickets[id], c);
    assert TicketOk(s.c, s.tickets[id]) && TicketOk(s.c, u);
    hide Core, Chosen;
    RelabelCore(s, id, u);
  }

  /** A ticket outside the queue and not running tries to start, else waits. */
  lemma RetakeCore(s: Sched, id: nat, choose: Chooser)
    requires Core(s) && !s.c.unlimited && Cleared(s, id) && !s.tickets[id].released
    requires s.tickets[id].chooser == Some(choose)
    ensures Core(Retake(s, id, choose))
  {
    var t := s.tickets[id];
    var starts := s.active < s.c.capacity && Room(s, t);
    var c := choose(BusyAccounts(s));
    var s1 := s.(tickets := s.tickets[id := if starts then Chosen(t, c) else t]);
    assert QueueInRange(s);
    assert s.tickets[id := t] == s.tickets;
    hide Core, Retake, Startable, Start, Room, Chosen, Enqueue, Cleared;
    ChosenCore(s, id, c);
    RetakeCases(s, id, choose);
    if starts && c.Free? {
      StartCore(s1, id);
      CounterCore(Start(s1, id), Signal(Start(s1, id)));
    } else {
      assert Dead(s1, id) by { assert Cleared(s1, id); }
      EnqueueCore(s1, id);
      CounterCore(Enqueue(s1, id), Signal(Enqueue(s1, id)));
    }
  }

  lemma ChosenFrame(t: Ticket, c: Choice)
    ensures Chosen(t, c) == t.(account := Chosen(t, c).account, selectionErr := Chosen(t, c).selectionErr)
  {
  }

  lemma EnqueueCore(s: Sched, id: nat)
    requires Core(s) && !s.c.unlimited && Dead(s, id) && !s.tickets[id].released
    ensures Core(Enqueue(s, id))
  {
    if QueueRefusal(s, s.tickets[id]).Some? {
      CounterCore(s, Enqueue(s, id));
    } else {
      JoinCore(s, id);
    }
    hide Core;
  }

  /** A yielding ticket holds nothing, waits nowhere and is still in use. */
  ghost predicate Yielded(s: Sched, id: nat, choose: Chooser) {
    Cleared(s, id) && !s.tickets[id].released && s.tickets[id].chooser == Some(choose)
  }

  lemma YieldedLive(s: Sched, y: Sched, id: nat, choose: Chooser)
    requires QueueInRange(s) && HoldersLive(s) && DatesInUse(s)
    requires id < |s.tickets| && id !in s.queue && !s.tickets[id].released && y.queue == s.queue && y.c == s.c
    requires y.served == s.served
    requires y.tickets ==
      s.tickets[id := s.tickets[id].(accountHeld := false, bufferHeld := false, running := false,
                                     chooser := Some(choose), account := None, selectionErr := None)]
    ensures HoldersLive(y) && DatesInUse(y) && Yielded(y, id, choose)
  {
    DatesKept(s, y);
  }

  lemma YieldInv(s: Sched, id: nat, choose: Chooser)
    requires Inv(s) && id < |s.tickets| && !s.c.unlimited && Bindable(s, id)
    ensures Inv(Yield(s, id, choose)) && Yielded(Yield(s, id, choose), id, choose)
  {
    YieldCore(s, id, choose);
    assert TicketOk(s.c, s.tickets[id]) && QueueOk(s);
    YieldFrame(s, id, choose);
    assert Yield(s, id, choose).served == s.served;
    hide Yield, Core, HoldersLive, DatesInUse, Yielded;
    YieldedLive(s, Yield(s, id, choose), id, choose);
  }

  lemma DispatchYielded(s: Sched, id: nat, choose: Chooser)
    requires Inv(s) && Yielded(s, id, choose)
    ensures Inv(Dispatch(s)) && Yielded(Dispatch(s), id, choose)
  {
    DispatchInv(s);
    hide Inv, Dispatch;
  }

  lemma BindLimitedInv(s: Sched, id: nat, choose: Chooser)
    requires Inv(s) && id < |s.tickets| && !s.c.unlimited && Bindable(s, id)
    ensures Inv(Bind(s, id, choose))
  {
    var s1 := Yield(s, id, choose);
    var s2 := Dispatch(s1);
    hide Core, HoldersLive, DatesInUse;
    YieldInv(s, id, choose);
    DispatchYielded(s1, id, choose);
    hide Yield, Dispatch;
    RetakeCore(s2, id, choose);
    RetakeHolders(s2, id, choose);
    RetakeDates(s2, id, choose);
  }

  lemma RetakeHolders(s: Sched, id: nat, choose: Chooser)
    requires QueueInRange(s) && Cleared(s, id) && HoldersLive(s) && !s.tickets[id].released
    ensures HoldersLive(Retake(s, id, choose))
  {
    var t := s.tickets[id];
    var starts := s.active < s.c.capacity && Room(s, t);
    var u := if starts then Chosen(t, choose(BusyAccounts(s))) else t;
    var s1 := s.(tickets := s.tickets[id := u]);
    RetakeCases(s, id, choose);
    ChosenFrame(t, choose(BusyAccounts(s)));
    assert HoldersLive(s1) by { hide Retake, Enqueue, Start, Startable; }
    hide Retake, Startable, Room, Chosen, QueueRefusal, Start, HoldersLive, Cleared;
    if starts && choose(BusyAccounts(s)).Free? {
      HoldersStart(s1, id);
    } else {
      HoldersEnqueue(s1, id);
    }
  }

  lemma RetakeDates(s: Sched, id: nat, choose: Chooser)
    requires QueueInRange(s) && Cleared(s, id) && DatesInUse(s)
    ensures DatesInUse(Retake(s, id, choose))
  {
    var t := s.tickets[id];
    var starts := s.active < s.c.capacity && Room(s, t);
    var u := if starts then Chosen(t, choose(BusyAccounts(s))) else t;
    var s1 := s.(tickets := s.tickets[id := u]);
    RetakeCases(s, id, choose);
    ChosenFrame(t, choose(BusyAccounts(s)));
    assert DatesInUse(s1) by {
      hide Retake, Room, Chosen, Start, Startable, Enqueue;
      DatesKept(s, s1);
    }
    hide Retake, Startable, Room, Chosen, QueueRefusal, Start, DatesInUse, Cleared;
    if starts && choose(BusyAccounts(s)).Free? {
      StartDates(s1, id);
      SignalDates(Start(s1, id));
    } else {
      EnqueueDates(s1, id);
      SignalDates(Enqueue(s1, id));
    }
  }

  lemma SignalDates(s: Sched)
    requires DatesInUse(s)
    ensures DatesInUse(Signal(s))
  {
    DatesKept(s, Signal(s));
  }

  lemma EnqueueDates(s: Sched, id: nat)
    requires QueueInRange(s) && DatesInUse(s) && id < |s.tickets|
    ensures DatesInUse(Enqueue(s, id))
  {
    assert forall i :: i in s.queue ==> i in s.queue + [id];
    hide QueueRefusal;
    DatesKept(s, Enqueue(s, id));
  }

  lemma HoldersStart(s: Sched, id: nat)
    requires HoldersLive(s) && id < |s.tickets|
    ensures HoldersLive(Signal(Start(s, id)))
  {
  }

  lemma HoldersEnqueue(s: Sched, id: nat)
    requires QueueInRange(s) && HoldersLive(s) && id < |s.tickets|
    ensures HoldersLive(Enqueue(s, id)) && HoldersLive(Signal(Enqueue(s, id)))
  {
    assert forall i :: i in s.queue ==> i in s.queue + [id];
    hide QueueRefusal;
  }

  lemma TakeAccountBalanced(s: Sched, id: nat, a: Account)
    requires Balanced(s) && id < |s.tickets| && !s.tickets[id].accountHeld
    ensures Balanced(s.(tickets := s.tickets[id := s.tickets[id].(account := Some(a), accountHeld := true)],
                        byAccount := Inc(s.byAccount, a)))
  {
    TotalsUpdate(s.tickets, id, s.tickets[id := s.tickets[id].(account := Some(a), accountHeld := true)]);
    assert Get(s.byAccount, a) == Total(AccountUse(a), s.tickets);
  }

  lemma BindUnlimitedInv(s: Sched, id: nat, choose: Chooser)
    requires Inv(s) && id < |s.tickets| && s.c.unlimited
    ensures Inv(Bind(s, id, choose))
  {
    if Bindable(s, id) && choose({}).Free? {
      var a := choose({}).account;
      var s1 := ReleaseAccount(s, id);
      var u := s1.tickets[id].(account := Some(a), accountHeld := true);
      var r := s1.(tickets := s1.tickets[id := u], byAccount := Inc(s1.byAccount, a));
      ReleaseAccountCore(s, id);
      ReleaseShapes(s, id);
      TakeAccountBalanced(s1, id, a);
      assert s1.served == s.served && r.queue == s.queue;
      DatesKept(s, r);
      hide ReleaseAccount, Balanced;
      assert ServedOk(r) by { ServedSame(s1, r); }
      assert QueueOk(r) by { QueueSame(s1, r); }
    }
  }

  lemma BindInv(s: Sched, id: nat, choose: Chooser)
    requires Inv(s) && id < |s.tickets|
    ensures Inv(Bind(s, id, choose))
  {
    if s.c.unlimited { BindUnlimitedInv(s, id, choose); }
    else if Bindable(s, id) { BindLimitedInv(s, id, choose); }
    hide Inv, Yield, Dispatch, Retake, ReleaseAccount;
  }

  // ------------------------------------------------------------------- park

  lemma ParkInv(s: Sched, id: nat)
    requires Inv(s) && id < |s.tickets|
    ensures Inv(Park(s, id))
  {
    if !s.c.unlimited && s.tickets[id].running {
      if QueueRefusal(s, s.tickets[id]).Some? {
        hide Core;
        CounterCore(s, Park(s, id));
        DatesKept(s, Park(s, id));
      } else {
        ParkJoinInv(s, id);
      }
    }
  }

  /** Parking queues the ticket and only then gives its slot back. */
  lemma ParkShape(s: Sched, id: nat, s1: Sched, s2: Sched)
    requires QueueOk(s) && id < |s.tickets| && s.tickets[id].running && !s.tickets[id].released && !s.c.unlimited
    requires QueueRefusal(s, s.tickets[id]).None?
    requires s1 == s.(tickets := s.tickets[id := s.tickets[id].(ready := false)]) && s2 == Stop(s1, id)
    ensures Park(s, id) == Dispatch(s2.(queue := s.queue + [id]))
    ensures QueueRefusal(s2, s2.tickets[id]).None?
  {
    WaitersSame(s, s1);
    WaitersSame(s1, s2);
    assert QueueRefusal(s1, s1.tickets[id]).None?;
    assert Stop(s1.(queue := s.queue + [id]), id) == s2.(queue := s.queue + [id]);
    hide Dispatch, QueueRefusal, Stop;
  }

  /** A rewritten ticket that joins the queue may hold what it likes. */
  lemma HoldersJoin(s: Sched, r: Sched, id: nat)
    requires HoldersLive(s) && id < |s.tickets| == |r.tickets| && r.c == s.c
    requires forall i :: 0 <= i < |s.tickets| && i != id ==> r.tickets[i] == s.tickets[i]
    requires r.queue == s.queue + [id]
    ensures HoldersLive(r)
  {
    assert forall i :: i in s.queue || i == id ==> i in r.queue;
  }

  lemma DatesJoin(s: Sched, r: Sched, id: nat)
    requires DatesInUse(s) && id < |s.tickets| == |r.tickets| && r.served == s.served
    requires forall i :: 0 <= i < |s.tickets| && i != id ==> r.tickets[i] == s.tickets[i]
    requires r.queue == s.queue + [id] && r.tickets[id].key == s.tickets[id].key
    ensures DatesInUse(r)
  {
    assert forall i :: i in s.queue || i == id ==> i in r.queue;
    DatesKept(s, r);
  }

  /** What parking does to the tickets. */
  lemma ParkTickets(s: Sched, id: nat)
    requires id < |s.tickets|
    ensures var r := Stop(s.(tickets := s.tickets[id := s.tickets[id].(ready := false)]), id);
      && r.tickets == s.tickets[id := s.tickets[id].(ready := false, running := false)]
      && r.queue == s.queue && r.c == s.c && r.served == s.served
  {
  }

  /** The state parking hands to dispatch: still sound, the ticket now waiting. */
  lemma ParkQueued(s: Sched, id: nat) returns (r: Sched)
    requires Core(s) && id < |s.tickets| && !s.c.unlimited && s.tickets[id].running
    requires QueueRefusal(s, s.tickets[id]).None?
    ensures Core(r) && Park(s, id) == Dispatch(r) && r.queue == s.queue + [id] && r.c == s.c && r.served == s.served
    ensures r.tickets == s.tickets[id := s.tickets[id].(ready := false, running := false)]
  {
    var u := s.tickets[id].(ready := false);
    var s1 := s.(tickets := s.tickets[id := u]);
    var s2 := Stop(s1, id);
    r := s2.(queue := s.queue + [id]);
    ParkTickets(s, id);
    assert TicketOk(s.c, s.tickets[id]) && QueueOk(s);
    assert id !in s.queue && !s.tickets[id].released;
    hide Core, Park, QueueRefusal, Dispatch, QueueOk;
    assert Core(s2) by {
      RelabelCore(s, id, u);
      StopCore(s1, id);
    }
    ParkQueuedShape(s, id, s1, s2);
    hide Stop;
    JoinCore(s2, id);
  }

  lemma ParkQueuedShape(s: Sched, id: nat, s1: Sched, s2: Sched)
    requires Core(s) && id < |s.tickets| && s.tickets[id].running && !s.c.unlimited
    requires QueueRefusal(s, s.tickets[id]).None?
    requires s1 == s.(tickets := s.tickets[id := s.tickets[id].(ready := false)]) && s2 == Stop(s1, id)
    ensures Park(s, id) == Dispatch(s2.(queue := s.queue + [id]))
    ensures QueueRefusal(s2, s2.tickets[id]).None?
  {
    assert TicketOk(s.c, s.tickets[id]) && QueueOk(s);
    hide Core, Park, QueueRefusal, Dispatch;
    ParkShape(s, id, s1, s2);
  }

  lemma ParkJoinInv(s: Sched, id: nat)
    requires Inv(s) && id < |s.tickets| && !s.c.unlimited && s.tickets[id].running
    requires QueueRefusal(s, s.tickets[id]).None?
    ensures Inv(Park(s, id))
  {
    hide Core, Park, QueueRefusal;
    var r := ParkQueued(s, id);
    HoldersJoin(s, r, id);
    DatesJoin(s, r, id);
    DispatchInv(r);
  }

  lemma UnparkInv(s: Sched, id: nat)
    requires Inv(s) && id < |s.tickets|
    ensures Inv(Unpark(s, id))
  {
    if !s.c.unlimited {
      var u := s.tickets[id].(ready := true);
      var s1 := s.(tickets := s.tickets[id := u]);
      RelabelCore(s, id, u);
      assert HoldersLive(s1);
      DatesKept(s, s1);
      hide Core, HoldersLive, DatesInUse;
      DispatchInv(s1);
    }
  }

  // ---------------------------------------------------------------- arrivals

  lemma ArriveBalanced(s: Sched, t: Ticket, r: Sched)
    requires Balanced(s) && t.running && !t.bufferHeld && !t.accountHeld
    requires r == Append(s, t).(active := s.active + 1, byKey := Inc(s.byKey, t.key),
                                sharedActive := if t.shared then s.sharedActive + 1 else s.sharedActive,
                                byModel := if t.shared then Inc(s.byModel, t.model) else s.byModel)
    ensures Balanced(r)
  {
    TotalsAppend(s.tickets, t);
    assert Get(s.byKey, t.key) == Total(KeyRunning(t.key), s.tickets);
    assert Get(s.byModel, t.model) == Total(ModelRunning(t.model), s.tickets);
  }

  /** With the limits disabled an arrival changes the counters and adds a ticket. */
  lemma AcquireUnlimitedShape(s: Sched, key: Key, override: int, model: Model, bytes: nat)
    requires QueueInRange(s) && s.c.unlimited
    ensures var t, r := NewTicket(s.c, key, override, model, bytes), Acquire(s, key, override, model, bytes);
      && TicketOk(s.c, t) && t.running && !t.bufferHeld && !t.accountHeld && t.key == key && t.model == model
      && r == Append(s, t).(active := s.active + 1, byKey := Inc(s.byKey, t.key),
                            sharedActive := if t.shared then s.sharedActive + 1 else s.sharedActive,
                            byModel := if t.shared then Inc(s.byModel, t.model) else s.byModel)
      && r.tickets == s.tickets + [t] && r.queue == s.queue && r.served == s.served && r.sequence == s.sequence
      && r.c == s.c
  {
  }

  lemma AcquireUnlimitedInv(s: Sched, key: Key, override: int, model: Model, bytes: nat)
    requires Inv(s) && s.c.unlimited
    ensures Inv(Acquire(s, key, override, model, bytes))
  {
    var t, r := NewTicket(s.c, key, override, model, bytes), Acquire(s, key, override, model, bytes);
    AcquireUnlimitedShape(s, key, override, model, bytes);
    hide Acquire, NewTicket;
    ArriveBalanced(s, t, r);
    hide Balanced, TicketOk;
    assert SameIdentities(s.tickets, r.tickets);
    assert ServedOk(r) by { ServedSame(s, s.(tickets := r.tickets)); }
    assert QueueOk(r) by { QueueSame(s, r); }
    DatesKept(s, r);
  }

  lemma HoldersAppend(s: Sched, t: Ticket)
    requires HoldersLive(s) && !t.bufferHeld && !t.accountHeld
    ensures HoldersLive(Append(s, t))
  {
  }

  lemma DatesAppend(s: Sched, t: Ticket)
    requires DatesInUse(s)
    ensures DatesInUse(Append(s, t))
  {
    DatesKept(s, Append(s, t));
  }

  /** A fresh ticket may start if there is room, or try the queue. */
  lemma AdmitInv(s: Sched, id: nat)
    requires Inv(s) && !s.c.unlimited && Dead(s, id)
    requires !s.tickets[id].released && s.tickets[id].account.None?
    ensures s.active < s.c.capacity && Room(s, s.tickets[id]) ==> Inv(Start(s, id))
    ensures Inv(Enqueue(s, id))
  {
    EnqueueCore(s, id);
    HoldersEnqueue(s, id);
    EnqueueDates(s, id);
    HoldersSignal(Enqueue(s, id));
    if s.active < s.c.capacity && Room(s, s.tickets[id]) {
      assert Startable(s, id);
      hide Core, Startable, Start, HoldersLive, DatesInUse;
      StartCore(s, id);
      HoldersStart(s, id);
      StartDates(s, id);
      HoldersSignal(Start(s, id));
    }
    hide Core, Enqueue, HoldersLive, DatesInUse;
  }

  lemma FreshTicket(c: Limits, key: Key, override: int, model: Model, bytes: nat)
    requires !c.unlimited
    ensures var t := NewTicket(c, key, override, model, bytes);
      TicketOk(c, t) && !t.running && !t.released && !t.bufferHeld && !t.accountHeld && t.account.None?
  {
  }

  lemma AcquireCases(s: Sched, key: Key, override: int, model: Model, bytes: nat)
    requires QueueInRange(s) && !s.c.unlimited
    ensures var t := NewTicket(s.c, key, override, model, bytes);
      var s1 := Append(Dispatch(s), t);
      var r := Acquire(s, key, override, model, bytes);
      || r == s
      || (s1.active < s1.c.capacity && Room(s1, t) && r == Start(s1, |s.tickets|))
      || r == Enqueue(s1, |s.tickets|)
  {
    hide Dispatch, NewTicket, Room, OverBudget, Start, Enqueue;
  }

  lemma AppendFresh(d: Sched, t: Ticket)
    requires QueueInRange(d) && !t.running
    ensures Dead(Append(d, t), |d.tickets|) && Append(d, t).tickets[|d.tickets|] == t
  {
  }

  lemma AcquireLimitedInv(s: Sched, key: Key, override: int, model: Model, bytes: nat)
    requires Inv(s) && !s.c.unlimited
    ensures Inv(Acquire(s, key, override, model, bytes))
  {
    var t := NewTicket(s.c, key, override, model, bytes);
    var d := Dispatch(s);
    AcquireCases(s, key, override, model, bytes);
    FreshTicket(s.c, key, override, model, bytes);
    DispatchInv(s);
    AppendFresh(d, t);
    hide Acquire, NewTicket, TicketOk, Room, Dispatch, Core, HoldersLive, DatesInUse, Start, Enqueue, Append, Dead;
    AppendCore(d, t);
    HoldersAppend(d, t);
    DatesAppend(d, t);
    AdmitInv(Append(d, t), |d.tickets|);
  }

  lemma HoldersSignal(s: Sched)
    ensures HoldersLive(Signal(s)) ==> HoldersLive(s)
  {
  }

  // -------------------------------------------------------------------- runs

  /** One critical section, or a change of memory pressure.  Operations on an
      unknown ticket do nothing. */
  datatype Op =
    | AcquireOp(key: Key, override: int, model: Model, bytes: nat)
    | BindOp(id: nat, choose: Chooser)
    | ParkOp(id: nat)
    | UnparkOp(id: nat)
    | GiveUpOp(id: nat, timeout: bool)
    | ReleaseOp(id: nat)
    | TickOp
    | PressureOp(high: bool)

  function Step(s: Sched, op: Op): (r: Sched)
    requires QueueInRange(s)
    ensures QueueInRange(r) && r.c == s.c && |s.tickets| <= |r.tickets|
  {
    match op
    case AcquireOp(key, override, model, bytes) => Acquire(s, key, override, model, bytes)
    case BindOp(id, choose) => if id < |s.tickets| then Bind(s, id, choose) else s
    case ParkOp(id) => if id < |s.tickets| then Park(s, id) else s
    case UnparkOp(id) => if id < |s.tickets| then Unpark(s, id) else s
    case GiveUpOp(id, timeout) => if id < |s.tickets| then GiveUp(s, id, timeout) else s
    case ReleaseOp(id) => if id < |s.tickets| then Release(s, id) else s
    case TickOp => if s.c.unlimited then s else Dispatch(s)
    case PressureOp(high) => s.(pressure := high)
  }

  function Run(s: Sched, ops: seq<Op>): (r: Sched)
    requires QueueInRange(s)
    ensures QueueInRange(r) && r.c == s.c && |s.tickets| <= |r.tickets|
    decreases |ops|
  {
    hide Step;
    if |ops| == 0 then s else Run(Step(s, ops[0]), ops[1..])
  }

  lemma HoldersPressure(s: Sched, high: bool)
    ensures HoldersLive(s.(pressure := high)) == HoldersLive(s)
  {
  }

  lemma PressureDates(s: Sched, high: bool)
    requires DatesInUse(s)
    ensures DatesInUse(s.(pressure := high))
  {
    DatesKept(s, s.(pressure := high));
  }

  lemma StepInv(s: Sched, op: Op)
    requires Inv(s)
    ensures Inv(Step(s, op))
  {
    hide Core, HoldersLive, DatesInUse, Acquire, Bind, Park, Unpark, GiveUp, Release, Dispatch;
    match op
    case AcquireOp(key, override, model, bytes) =>
      if s.c.unlimited { AcquireUnlimitedInv(s, key, override, model, bytes); }
      else { AcquireLimitedInv(s, key, override, model, bytes); }
    case BindOp(id, choose) =>
      if id < |s.tickets| { BindInv(s, id, choose); }
    case ParkOp(id) => if id < |s.tickets| { ParkInv(s, id); }
    case UnparkOp(id) => if id < |s.tickets| { UnparkInv(s, id); }
    case GiveUpOp(id, timeout) => if id < |s.tickets| { GiveUpInv(s, id, timeout); }
    case ReleaseOp(id) => if id < |s.tickets| { ReleaseInv(s, id); }
    case TickOp => DispatchInv(s);
    case PressureOp(high) =>
      CounterCore(s, s.(pressure := high));
      HoldersPressure(s, high);
      PressureDates(s, high);
  }

  /** Conservation and limits hold after every run, in both modes. */
  lemma {:induction false} RunInv(s: Sched, ops: seq<Op>)
    requires Inv(s)
    ensures Inv(Run(s, ops))
    decreases |ops|
  {
    assert QueueInRange(s);
    hide Inv, Step;
    if |ops| > 0 {
      StepInv(s, ops[0]);
      RunInv(Step(s, ops[0]), ops[1..]);
    }
  }
}
