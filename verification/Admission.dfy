/** The scheduler of internal/app/admission.go in its own form: counters, maps
    and the queue are fields updated under one lock.  Each method is one of the
    source's functions on the locked state, or one critical section of acquire,
    bindProviderAccount, throttle, await and release; its contract says which
    transition of the specification it performs. */
module Admission {
  import opened AdmissionSpec
  import opened AdmissionInvariant

  // What starting a ticket adds to each counter.

  function Charge(t: Ticket): nat { if t.bufferHeld then 0 else t.bufferBytes }

  function SharedCharge(t: Ticket): nat { if t.shared then Charge(t) else 0 }

  function WithAccount(m: map<Account, int>, t: Ticket): map<Account, int> {
    if t.account.Some? && !t.accountHeld then Inc(m, t.account.value) else m
  }

  function WithModel(m: map<Model, int>, t: Ticket): map<Model, int> {
    if t.shared then Inc(m, t.model) else m
  }

  function SharedSlot(t: Ticket): nat { if t.shared then 1 else 0 }

  function Started(t: Ticket): Ticket {
    t.(running := true, bufferHeld := true, accountHeld := t.accountHeld || t.account.Some?)
  }

  class ModelAdmission {
    const c: Limits
    var active: int
    var sharedActive: int
    var byKey: map<Key, int>
    var byModel: map<Model, int>
    var byAccount: map<Account, int>
    var queue: seq<nat>
    var served: map<Key, nat>
    var sequence: nat
    var buffers: int
    var sharedBuffers: int
    var tickets: seq<Ticket>
    var pressure: bool
    var wakeups: nat
    var rejected: map<Code, int>

    function View(): Sched
      reads this
    {
      Sched(c, active, sharedActive, byKey, byModel, byAccount, queue, served, sequence,
            buffers, sharedBuffers, tickets, pressure, wakeups, rejected)
    }

    constructor (cfg: Config)
      ensures View() == Init(NewLimits(cfg))
    {
      c := NewLimits(cfg);
      active, sharedActive, buffers, sharedBuffers := 0, 0, 0, 0;
      byKey, byModel, byAccount, served := map[], map[], map[], map[];
      queue, tickets, rejected := [], [], map[];
      sequence, wakeups, pressure := 0, 0, false;
    }

    /** Mark the ticket running and take every permit it does not hold yet. */
    method StartLocked(id: nat)
      requires id < |tickets|
      modifies this
      ensures View() == Start(old(View()), id)
    {
      hide Start, Inc, Charge, SharedCharge, WithAccount, WithModel, SharedSlot, Started;
      ghost var s0 := View();
      var t := tickets[id];
      tickets := tickets[id := Started(t)];
      buffers, sharedBuffers := buffers + Charge(t), sharedBuffers + SharedCharge(t);
      byAccount := WithAccount(byAccount, t);
      active, sharedActive := active + 1, sharedActive + SharedSlot(t);
      byModel, byKey := WithModel(byModel, t), Inc(byKey, t.key);
      sequence := sequence + 1;
      served := served[t.key := sequence];
      StartIs(s0, id, View());
    }

    /** Ask one waiter's chooser, if it has room; say whether it could run. */
    method Examine(id: nat) returns (free: bool)
      requires id < |tickets|
      modifies this`tickets
      ensures tickets == old(tickets)[id := Consider(old(View()), old(tickets[id]))]
      ensures free == Runnable(old(View()), old(tickets[id]))
    {
      var t := tickets[id];
      free := t.ready && Room(View(), t);
      assert tickets == tickets[id := t];
      if free && NeedsAccount(t) {
        var choice := t.chooser.value(set u | u in byAccount && byAccount[u] >= c.accountLimit);
        tickets := tickets[id := Chosen(t, choice)];
        free := !choice.Busy?;
      }
    }

    /** One scan: ask choosers, remember the fairest runnable waiter. */
    method ScanQueue() returns (pick: int)
      requires QueueInRange(View())
      modifies this`tickets
      ensures tickets == Scanned(old(View()), |queue|)
      ensures pick == Pick(old(View()))
    {
      ghost var s0 := View();
      pick := -1;
      var i := 0;
      assert tickets == Scanned(s0, 0);
      assert Pick(s0) == PickUpTo(s0, |queue|) && PickUpTo(s0, 0) == -1;
      hide Scanned, Consider, Runnable, Ahead, Room, QueueInRange, Pick, PickUpTo;
      while i < |queue|
        invariant 0 <= i <= |queue|
        invariant tickets == Scanned(s0, i)
        invariant pick == PickUpTo(s0, i)
      {
        ScanNext(s0, i);
        ScanLocal(s0, View(), i, pick);
        PickNext(s0, i);
        var free := Examine(queue[i]);
        assert View() == s0.(tickets := Scanned(s0, i + 1));
        if free && (pick < 0 || Ahead(View(), tickets[queue[i]], tickets[queue[pick]])) {
          pick := i;
        }
        i := i + 1;
      }
    }

    method DispatchLocked()
      requires QueueInRange(View())
      modifies this
      ensures View() == Dispatch(old(View()))
    {
      hide DispatchLoop, DispatchStep, Start, Scanned, Pick;
      var stuck := false;
      while active < c.capacity && !stuck
        invariant QueueInRange(View())
        invariant DispatchLoop(old(View())) == if stuck then View() else DispatchLoop(View())
        decreases |queue|, !stuck
      {
        ghost var s0 := View();
        LoopUnfolds(s0);
        var pick := ScanQueue();
        assert View() == s0.(tickets := Scanned(s0, |s0.queue|));
        if pick < 0 {
          stuck := true;
        } else {
          var id := queue[pick];
          queue := queue[..pick] + queue[pick + 1..];
          assert View() == s0.(tickets := Scanned(s0, |s0.queue|), queue := s0.queue[..pick] + s0.queue[pick + 1..]);
          StartLocked(id);
          assert View() == DispatchStep(s0);
        }
      }
      if !stuck { LoopUnfolds(View()); }
      wakeups := wakeups + 1;
    }

    // -------------------------------------------------------------- giving back

    /** Give back the global, shared, model and key permits. */
    method StopLocked(id: nat)
      requires id < |tickets|
      modifies this
      ensures View() == Stop(old(View()), id)
    {
      hide Dec;
      var t := tickets[id];
      active, sharedActive := active - 1, if t.shared then sharedActive - 1 else sharedActive;
      byModel := if t.shared then Dec(byModel, t.model) else byModel;
      byKey := Dec(byKey, t.key);
      tickets := tickets[id := t.(running := false)];
    }

    method ReleaseAccountLocked(id: nat)
      requires id < |tickets|
      modifies this
      ensures View() == ReleaseAccount(old(View()), id)
    {
      hide Dec;
      var t := tickets[id];
      if t.accountHeld && t.account.Some? {
        byAccount := Dec(byAccount, t.account.value);
        tickets := tickets[id := t.(accountHeld := false)];
      }
    }

    method ReleaseBufferLocked(id: nat)
      requires id < |tickets|
      modifies this
      ensures View() == ReleaseBuffer(old(View()), id)
    {
      var t := tickets[id];
      if t.bufferHeld {
        buffers := buffers - t.bufferBytes;
        if t.shared { sharedBuffers := sharedBuffers - t.bufferBytes; }
        tickets := tickets[id := t.(bufferHeld := false)];
      }
    }

    /** Take the ticket out of the queue, if it is there. */
    method DequeueLocked(id: nat)
      requires QueueInRange(View())
      modifies this`queue
      ensures View() == Dequeue(old(View()), id)
    {
      var i := 0;
      while i < |queue| && queue[i] != id
        invariant 0 <= i <= |queue| && queue == old(queue)
        invariant id !in queue[..i]
      {
        i := i + 1;
      }
      assert i == IndexOf(queue, id) by { FirstIndex(queue, id, i); }
      if i < |queue| {
        queue := queue[..i] + queue[i + 1..];
      }
    }

    method KeyIsQueued(key: Key) returns (queued: bool)
      requires QueueInRange(View())
      ensures queued == QueuedKey(View(), key)
    {
      queued := false;
      var i := 0;
      while i < |queue| && !queued
        invariant 0 <= i <= |queue|
        invariant queued <==> exists j :: 0 <= j < i && Waiter(View(), j).key == key
      {
        queued := Waiter(View(), i).key == key;
        i := i + 1;
      }
    }

    method RemoveLocked(id: nat)
      requires QueueInRange(View()) && id < |tickets|
      modifies this
      ensures View() == Remove(old(View()), id)
    {
      hide ReleaseAccount, ReleaseBuffer, Stop, Dequeue, QueuedKey;
      var key := tickets[id].key;
      ReleaseAccountLocked(id);
      ReleaseBufferLocked(id);
      if tickets[id].running { StopLocked(id); } else { DequeueLocked(id); }
      var queued := KeyIsQueued(key);
      if Get(byKey, key) == 0 && !queued {
        served := served - {key};
      }
    }

    /** Join the queue, or say why not. */
    method EnqueueLocked(id: nat) returns (refusal: Option<Code>)
      requires QueueInRange(View()) && id < |tickets|
      modifies this`queue, this`rejected
      ensures refusal == QueueRefusal(old(View()), old(tickets[id]))
      ensures View() == Enqueue(old(View()), id)
    {
      var t := tickets[id];
      var count, sharedCount, i := 0, 0, 0;
      while i < |queue|
        invariant 0 <= i <= |queue|
        invariant sharedCount == TotalUpTo(OfShared, Waiters(View()), i)
        invariant count == TotalUpTo(OfKey(t.key), Waiters(View()), i)
      {
        var q := Waiter(View(), i);
        if q.shared { sharedCount := sharedCount + 1; }
        if q.key == t.key { count := count + 1; }
        i := i + 1;
      }
      refusal := Some(ModelQueueFull);
      if t.shared && sharedCount >= c.sharedQueue {
        refusal := Some(SharedQueueFull);
      } else if count >= QueueLimit(c, t.shared) {
        refusal := Some(KeyQueueFull);
      } else if |queue| < c.queueSize {
        queue := queue + [id];
        return None;
      }
      rejected := Inc(rejected, refusal.value);
    }

    // --------------------------------------------------------- critical sections

    method ArriveUnlimited(t: Ticket)
      requires c.unlimited
      modifies this
      ensures View() == Append(old(View()), t).(active := old(active) + 1, byKey := Inc(old(byKey), t.key),
                          sharedActive := if t.shared then old(sharedActive) + 1 else old(sharedActive),
                          byModel := if t.shared then Inc(old(byModel), t.model) else old(byModel))
    {
      active, byKey := active + 1, Inc(byKey, t.key);
      if t.shared {
        sharedActive, byModel := sharedActive + 1, Inc(byModel, t.model);
      }
      tickets := tickets + [t];
    }

    /** Existing waiters first; then the new ticket starts or joins the queue. */
    method ArriveLimited(t: Ticket) returns (refusal: Option<Code>)
      requires QueueInRange(View())
      modifies this
      ensures var d := Append(Dispatch(old(View())), t); var id := |d.tickets| - 1;
        View() == if d.active < d.c.capacity && Room(d, t) then Start(d, id) else Enqueue(d, id)
      ensures refusal.None? ==> tickets[|tickets| - 1].running || |tickets| - 1 in queue
      ensures refusal.Some? && !t.running ==> !tickets[|tickets| - 1].running && |tickets| - 1 !in queue
    {
      hide Dispatch, Room, QueueRefusal;
      DispatchLocked();
      var id := |tickets|;
      tickets := tickets + [t];
      if active < c.capacity && Room(View(), t) {
        StartLocked(id);
        return None;
      }
      refusal := EnqueueLocked(id);
    }

    /** acquireWithBudget: the new ticket's id, or None when it is turned away.
        A lease runs at once or waits in the queue. */
    method Acquire(key: Key, override: int, model: Model, bytes: nat) returns (lease: Option<nat>)
      requires QueueInRange(View())
      modifies this
      ensures View() == AdmissionSpec.Acquire(old(View()), key, override, model, bytes)
      ensures lease.Some? ==> lease.value == |tickets| - 1 && (tickets[lease.value].running || lease.value in queue)
      ensures lease.None? && |tickets| > old(|tickets|) ==> !tickets[|tickets| - 1].running && |tickets| - 1 !in queue
    {
      var t := NewTicket(c, key, override, model, bytes);
      NewTicketIdle(c, key, override, model, bytes);
      hide Dispatch, NewTicket, OverBudget, Room, QueueRefusal, Inc, Get, Start, Enqueue;
      if c.unlimited {
        ArriveUnlimited(t);
        return Some(|tickets| - 1);
      }
      if OverBudget(c, key, bytes) { return None; }
      var refusal := ArriveLimited(t);
      lease := if refusal.None? then Some(|tickets| - 1) else None;
    }

    /** bindProviderAccount: give every permit back, then retake them together
        with an account. */
    method Bind(id: nat, choose: Chooser)
      requires QueueInRange(View()) && id < |tickets|
      modifies this
      ensures View() == AdmissionSpec.Bind(old(View()), id, choose)
    {
      if !Bindable(View(), id) { return; }
      if c.unlimited {
        var choice := choose({});
        if choice.Free? {
          hide Inc, ReleaseAccount;
          ReleaseAccountLocked(id);
          tickets := tickets[id := tickets[id].(account := Some(choice.account), accountHeld := true)];
          byAccount := Inc(byAccount, choice.account);
        }
        return;
      }
      hide Dispatch, Yield, Retake;
      YieldLocked(id, choose);
      DispatchLocked();
      RetakeLocked(id, choose);
    }

    method YieldLocked(id: nat, choose: Chooser)
      requires id < |tickets|
      modifies this
      ensures View() == Yield(old(View()), id, choose)
    {
      hide ReleaseAccount, ReleaseBuffer, Stop;
      ReleaseAccountLocked(id);
      ReleaseBufferLocked(id);
      StopLocked(id);
      tickets := tickets[id := tickets[id].(chooser := Some(choose), account := None, selectionErr := None)];
    }

    method RetakeLocked(id: nat, choose: Chooser)
      requires QueueInRange(View()) && id < |tickets|
      modifies this
      ensures View() == Retake(old(View()), id, choose)
    {
      hide Start, QueueRefusal, Room;
      if active < c.capacity && Room(View(), tickets[id]) {
        var choice := choose(BusyAccounts(View()));
        tickets := tickets[id := Chosen(tickets[id], choice)];
        if choice.Refused? { return; }
        if choice.Free? {
          StartLocked(id);
          wakeups := wakeups + 1;
          return;
        }
      }
      var refusal := EnqueueLocked(id);
      if refusal.None? {
        wakeups := wakeups + 1;
      }
    }

    /** throttle before the upstream wait. */
    method Park(id: nat)
      requires QueueInRange(View()) && id < |tickets|
      modifies this
      ensures View() == AdmissionSpec.Park(old(View()), id)
    {
      if c.unlimited || tickets[id].released || !tickets[id].running { return; }
      hide Dispatch, QueueRefusal, Stop;
      ghost var s0 := View();
      var was := tickets[id];
      tickets := tickets[id := was.(ready := false)];
      RefusalSame(s0, View(), id);
      var refusal := EnqueueLocked(id);
      if refusal.Some? {
        tickets := tickets[id := was];
        assert tickets == s0.tickets;
        return;
      }
      StopLocked(id);
      DispatchLocked();
    }

    /** throttle after a successful upstream wait. */
    method Unpark(id: nat)
      requires QueueInRange(View()) && id < |tickets|
      modifies this
      ensures View() == AdmissionSpec.Unpark(old(View()), id)
    {
      hide Dispatch;
      if c.unlimited { return; }
      tickets := tickets[id := tickets[id].(ready := true)];
      DispatchLocked();
    }

    /** await giving up; a running ticket cannot time out. */
    method GiveUp(id: nat, timeout: bool)
      requires QueueInRange(View()) && id < |tickets|
      modifies this
      ensures View() == AdmissionSpec.GiveUp(old(View()), id, timeout)
    {
      hide Dispatch, Remove;
      if c.unlimited || (timeout && tickets[id].running) { return; }
      if timeout { rejected := Inc(rejected, ModelQueueTimeout); }
      RemoveLocked(id);
      DispatchLocked();
    }

    method Release(id: nat)
      requires QueueInRange(View()) && id < |tickets|
      modifies this
      ensures View() == AdmissionSpec.Release(old(View()), id)
    {
      hide Dispatch, Remove;
      if tickets[id].released { return; }
      tickets := tickets[id := tickets[id].(released := true)];
      RemoveLocked(id);
      DispatchLocked();
    }
  }

  lemma NewTicketIdle(c: Limits, key: Key, override: int, model: Model, bytes: nat)
    ensures var t := NewTicket(c, key, override, model, bytes);
      t.running == c.unlimited && t.key == key && t.model == model
  {
  }

  lemma {:induction false} FirstIndex(q: seq<nat>, id: nat, i: nat)
    requires i <= |q| && id !in q[..i] && (i < |q| ==> q[i] == id)
    ensures IndexOf(q, id) == i
  {
    if i > 0 {
      assert q[0] in q[..i] && q[1..][..i - 1] == q[..i][1..];
      FirstIndex(q[1..], id, i - 1);
    }
  }

  /** Readiness does not matter to the queue's bounds. */
  lemma RefusalSame(s: Sched, r: Sched, id: nat)
    requires QueueInRange(s) && id < |s.tickets| && r == s.(tickets := s.tickets[id := s.tickets[id].(ready := false)])
    ensures QueueRefusal(r, r.tickets[id]) == QueueRefusal(s, s.tickets[id])
  {
    WaitersSame(s, r);
  }

  lemma StartIs(s: Sched, id: nat, r: Sched)
    requires id < |s.tickets| == |r.tickets|
    requires r.buffers == s.buffers + Charge(s.tickets[id]) && r.active == s.active + 1
    requires r.sharedBuffers == s.sharedBuffers + SharedCharge(s.tickets[id])
    requires r.sharedActive == s.sharedActive + SharedSlot(s.tickets[id])
    requires r.byAccount == WithAccount(s.byAccount, s.tickets[id])
    requires r.byModel == WithModel(s.byModel, s.tickets[id])
    requires r.byKey == Inc(s.byKey, s.tickets[id].key)
    requires r.sequence == s.sequence + 1 && r.served == s.served[s.tickets[id].key := s.sequence + 1]
    requires r.c == s.c && r.queue == s.queue && r.pressure == s.pressure
    requires r.wakeups == s.wakeups && r.rejected == s.rejected
    requires r.tickets == s.tickets[id := Started(s.tickets[id])]
    ensures r == Start(s, id)
  {
    assert r.tickets == Start(s, id).tickets;
  }

  lemma LoopUnfolds(s: Sched)
    requires QueueInRange(s)
    ensures s.active >= s.c.capacity ==> DispatchLoop(s) == s
    ensures s.active < s.c.capacity && Pick(s) < 0 ==> DispatchLoop(s) == s.(tickets := Scanned(s, |s.queue|))
    ensures s.active < s.c.capacity && Pick(s) >= 0 ==> DispatchLoop(s) == DispatchLoop(DispatchStep(s))
    ensures Pick(s) >= 0 ==> var p := Pick(s);
      DispatchStep(s) ==
        Start(s.(tickets := Scanned(s, |s.queue|), queue := s.queue[..p] + s.queue[p + 1..]), s.queue[p])
  {
  }

  /** Whatever a scan has considered so far, the next waiter is judged as before
      the scan, and comparisons of waiters do not change. */
  lemma ScanLocal(s: Sched, r: Sched, i: nat, p: int)
    requires QueueInRange(s) && i < |s.queue| && -1 <= p < i && r == s.(tickets := Scanned(s, i))
    ensures var id := s.queue[i];
      && Consider(r, r.tickets[id]) == Consider(s, s.tickets[id])
      && Runnable(r, r.tickets[id]) == Runnable(s, s.tickets[id])
    ensures var ts := Scanned(s, i + 1); p >= 0 ==>
      Ahead(s.(tickets := ts), ts[s.queue[i]], ts[s.queue[p]]) == Ahead(s, Waiter(s, i), Waiter(s, p))
  {
    ConsiderTwice(s, r, s.tickets[s.queue[i]]);
    ConsiderKey(s);
    hide Consider, Runnable, Room;
  }

  lemma ConsiderKey(s: Sched)
    ensures forall t :: Consider(s, t).key == t.key
  {
  }

  lemma ConsiderTwice(s: Sched, r: Sched, t: Ticket)
    requires r == s.(tickets := r.tickets)
    ensures Consider(r, t) == Consider(s, t) == Consider(r, Consider(s, t))
    ensures Runnable(r, t) == Runnable(s, t) == Runnable(r, Consider(s, t))
    ensures Consider(s, t).key == t.key
  {
    assert BusyAccounts(r) == BusyAccounts(s);
    assert Room(r, t) == Room(s, t) == Room(r, Consider(s, t));
    hide Room;
  }

  /** Scanning one more entry considers one more ticket. */
  lemma PickNext(s: Sched, i: nat)
    requires QueueInRange(s) && i < |s.queue|
    ensures var p := PickUpTo(s, i);
      PickUpTo(s, i + 1) ==
      if Runnable(s, s.tickets[s.queue[i]]) && (p < 0 || Ahead(s, Waiter(s, i), Waiter(s, p))) then i else p
  {
    hide Runnable, Ahead;
  }

  lemma ScanNext(s: Sched, i: nat)
    requires QueueInRange(s) && i < |s.queue|
    ensures Scanned(s, i + 1) == Scanned(s, i)[s.queue[i] := Consider(s, s.tickets[s.queue[i]])]
  {
    assert s.queue[..i + 1] == s.queue[..i] + [s.queue[i]];
  }
}
