/** Every critical section keeps the invariant, in any order, from any run. */
module AdmissionSections {
  import opened AdmissionSpec
  import opened AdmissionInvariant

  // ---------------------------------------------------------------- the scan

  /** A scan selects a runnable waiter no other runnable waiter is ahead of,
      the earliest in the queue among equals; or nothing, when none can run. */
  ghost predicate FairPick(s: Sched, n: nat, p: int)
    requires QueueInRange(s) && n <= |s.queue| && -1 <= p < n
  {
    if p < 0 then forall j :: 0 <= j < n ==> !Runnable(s, Waiter(s, j))
    else
      && Runnable(s, Waiter(s, p))
      && (forall j :: 0 <= j < p && Runnable(s, Waiter(s, j)) ==> Ahead(s, Waiter(s, p), Waiter(s, j)))
      && (forall j :: p < j < n && Runnable(s, Waiter(s, j)) ==> !Ahead(s, Waiter(s, j), Waiter(s, p)))
  }

  lemma {:induction false} PickIsFair(s: Sched, n: nat)
    requires QueueInRange(s) && n <= |s.queue|
    ensures FairPick(s, n, PickUpTo(s, n))
  {
    if n > 0 {
      PickIsFair(s, n - 1);
    }
  }

  // ------------------------------------------------------------- dispatching

  lemma PickStartable(s: Sched, s2: Sched)
    requires QueueOk(s) && TicketsOk(s) && !s.c.unlimited && s.active < s.c.capacity && Pick(s) >= 0
    requires s2 == s.(tickets := Scanned(s, |s.queue|)).(queue := DropAt(s.queue, Pick(s)))
    ensures Startable(s2, s.queue[Pick(s)])
  {
    var id := s.queue[Pick(s)];
    PickIsFair(s, |s.queue|);
    DropMembers(s.queue, Pick(s));
    assert id in s.queue[..|s.queue|];
    assert s2.tickets[id] == Consider(s, s.tickets[id]);
    assert BusyAccounts(s2) == BusyAccounts(s);
  }

  lemma DispatchStepCore(s: Sched)
    requires Core(s) && !s.c.unlimited && s.active < s.c.capacity && Pick(s) >= 0
    ensures Core(DispatchStep(s))
  {
    var s1 := s.(tickets := Scanned(s, |s.queue|));
    ScannedCore(s);
    DropQueueCore(s1, Pick(s));
    PickStartable(s, s1.(queue := DropAt(s.queue, Pick(s))));
    hide Core, Startable, Start, Scanned, QueueOk, TicketsOk;
    StartCore(s1.(queue := DropAt(s.queue, Pick(s))), s.queue[Pick(s)]);
  }

  /** What dispatching may do to the tickets. */
  ghost predicate DispatchFrame(s: Sched, r: Sched) {
    && |r.tickets| == |s.tickets| && r.c == s.c && r.pressure == s.pressure && r.rejected == s.rejected
    && (forall i :: 0 <= i < |s.tickets| ==>
          && SameIdentity(s.tickets[i], r.tickets[i])
          && r.tickets[i].released == s.tickets[i].released
          && (i !in s.queue ==> r.tickets[i] == s.tickets[i])
          && (r.tickets[i].running && i in s.queue ==> i !in r.queue)
          && (i in s.queue && i !in r.queue ==> r.tickets[i].running))
    && (forall i :: i in r.queue ==> i in s.queue)
  }

  lemma DropMembers(q: seq<nat>, p: nat)
    requires p < |q|
    requires forall i, j :: 0 <= i < j < |q| ==> q[i] != q[j]
    ensures forall i :: i in DropAt(q, p) <==> i in q && i != q[p]
  {
    forall i | i in q && i != q[p] ensures i in DropAt(q, p) {
      var j :| 0 <= j < |q| && q[j] == i;
      assert DropAt(q, p)[if j < p then j else j - 1] == i;
    }
  }

  lemma StartFrame(s: Sched, id: nat)
    requires id < |s.tickets|
    ensures SameIdentity(s.tickets[id], Start(s, id).tickets[id])
    ensures Start(s, id).tickets[id].running && Start(s, id).tickets[id].released == s.tickets[id].released
    ensures forall i :: 0 <= i < |s.tickets| && i != id ==> Start(s, id).tickets[i] == s.tickets[i]
  {
  }

  /** The state between taking the pick out of the queue and starting it. */
  lemma PickedFrame(s: Sched, w: Sched)
    requires QueueOk(s) && Pick(s) >= 0
    requires w == s.(tickets := Scanned(s, |s.queue|), queue := DropAt(s.queue, Pick(s)))
    ensures QueueOk(w) && |w.tickets| == |s.tickets|
    ensures forall i :: i in w.queue <==> i in s.queue && i != s.queue[Pick(s)]
    ensures forall i :: 0 <= i < |s.tickets| ==>
      SameHoldings(s.tickets[i], w.tickets[i]) && (i !in s.queue ==> w.tickets[i] == s.tickets[i])
  {
    ScannedHoldings(s);
    DropMembers(s.queue, Pick(s));
    forall i | 0 <= i < |s.tickets| && i !in s.queue ensures w.tickets[i] == s.tickets[i] {
      assert i !in s.queue[..|s.queue|];
    }
    hide Scanned;
  }

  lemma StartedFrame(s: Sched, w: Sched, id: nat, r: Sched)
    requires QueueOk(w) && id < |s.tickets| == |w.tickets| == |r.tickets| && id in s.queue && id !in w.queue
    requires r.queue == w.queue && r.c == w.c == s.c && r.pressure == s.pressure && r.rejected == s.rejected
    requires forall i :: i in w.queue <==> i in s.queue && i != id
    requires forall i :: 0 <= i < |s.tickets| ==>
      SameHoldings(s.tickets[i], w.tickets[i]) && (i !in s.queue ==> w.tickets[i] == s.tickets[i])
    requires forall i :: 0 <= i < |s.tickets| && i != id ==> r.tickets[i] == w.tickets[i]
    requires SameIdentity(w.tickets[id], r.tickets[id]) && r.tickets[id].running
    requires r.tickets[id].released == w.tickets[id].released
    ensures QueueOk(r) && DispatchFrame(s, r)
  {
  }

  lemma DispatchStepFrame(s: Sched)
    requires QueueOk(s) && Pick(s) >= 0
    ensures QueueOk(DispatchStep(s))
    ensures DispatchFrame(s, DispatchStep(s))
  {
    var w := s.(tickets := Scanned(s, |s.queue|), queue := DropAt(s.queue, Pick(s)));
    PickedFrame(s, w);
    StartFrame(w, s.queue[Pick(s)]);
    assert Start(w, s.queue[Pick(s)]).queue == w.queue;
    hide Scanned, DropAt, Pick, Start, QueueOk, DispatchFrame;
    StartedFrame(s, w, s.queue[Pick(s)], DispatchStep(s));
  }

  lemma FrameTransitive(s: Sched, m: Sched, r: Sched)
    requires DispatchFrame(s, m) && DispatchFrame(m, r)
    ensures DispatchFrame(s, r)
  {
  }

  lemma {:induction false} DispatchLoopFrame(s: Sched)
    requires QueueOk(s)
    ensures DispatchFrame(s, DispatchLoop(s)) && QueueOk(DispatchLoop(s))
    decreases |s.queue|
  {
    if s.active < s.c.capacity {
      if Pick(s) >= 0 {
        var m := DispatchStep(s);
        DispatchStepFrame(s);
        DispatchLoopFrame(m);
        FrameTransitive(s, m, DispatchLoop(m));
      } else {
        ScannedHoldings(s);
        forall i | 0 <= i < |s.tickets| && i !in s.queue ensures Scanned(s, |s.queue|)[i] == s.tickets[i] {
          assert i !in s.queue[..|s.queue|];
        }
      }
    }
  }

  lemma {:induction false} DispatchLoopCore(s: Sched)
    requires Core(s)
    ensures Core(DispatchLoop(s))
    decreases |s.queue|
  {
    if s.active < s.c.capacity {
      if Pick(s) >= 0 {
        DispatchStepCore(s);
        DispatchLoopCore(DispatchStep(s));
      } else {
        ScannedCore(s);
      }
    }
  }

  /** Dispatching keeps the invariant and touches only waiters. */
  lemma DispatchCore(s: Sched)
    requires Core(s)
    ensures Core(Dispatch(s)) && DispatchFrame(s, Dispatch(s))
  {
    DispatchLoopCore(s);
    DispatchLoopFrame(s);
    var r := DispatchLoop(s);
    assert Core(Signal(r)) by { CounterCore(r, Signal(r)); }
  }

  /** Wakeups, rejections and memory pressure are not part of the invariant. */
  lemma CounterCore(s: Sched, r: Sched)
    requires Core(s) && r == s.(wakeups := r.wakeups, rejected := r.rejected, pressure := r.pressure)
    ensures Core(r)
  {
    assert Balanced(r) && TicketsOk(r) && QueueOk(r) && ServedOk(r);
    if !s.c.unlimited {
      assert Within(r) by { WithinSame(s, r); }
    }
  }

  lemma DispatchHolders(s: Sched)
    requires Core(s) && HoldersLive(s)
    ensures HoldersLive(Dispatch(s))
  {
    DispatchCore(s);
  }

  /** Dates stay in use while their tickets keep their keys and stay in use. */
  lemma PresentKept(s: Sched, r: Sched, k: Key)
    requires KeyPresent(s, k) && |s.tickets| <= |r.tickets|
    requires forall i :: 0 <= i < |s.tickets| && s.tickets[i].key == k && InUse(s, i) ==>
      r.tickets[i].key == k && InUse(r, i)
    ensures KeyPresent(r, k)
  {
    var i :| 0 <= i < |s.tickets| && s.tickets[i].key == k && InUse(s, i);
    assert r.tickets[i].key == k && InUse(r, i);
  }

  lemma DatesKept(s: Sched, r: Sched)
    requires DatesInUse(s) && |s.tickets| <= |r.tickets| && (forall k :: k in r.served ==> k in s.served)
    requires forall i :: 0 <= i < |s.tickets| && InUse(s, i) ==>
      r.tickets[i].key == s.tickets[i].key && InUse(r, i)
    ensures DatesInUse(r)
  {
    hide InUse;
    forall k | k in r.served ensures KeyPresent(r, k) {
      PresentKept(s, r, k);
    }
  }

  lemma StartDates(s: Sched, id: nat)
    requires DatesInUse(s) && id < |s.tickets|
    ensures DatesInUse(Start(s, id))
  {
    var r := Start(s, id);
    assert r.tickets[id].key == s.tickets[id].key && InUse(r, id);
    assert DatesInUse(r.(served := s.served)) by { DatesKept(s, r.(served := s.served)); }
    forall k | k in s.served ensures KeyPresent(r, k) {
      assert KeyPresent(r.(served := s.served), k);
      PresentKept(r.(served := s.served), r, k);
    }
  }

  lemma StartedDates(s: Sched, w: Sched, id: nat)
    requires DatesInUse(s) && id < |s.tickets| == |w.tickets| && w.served == s.served
    requires forall i :: i in w.queue <==> i in s.queue && i != id
    requires forall i :: 0 <= i < |s.tickets| ==> SameHoldings(s.tickets[i], w.tickets[i])
    ensures DatesInUse(Start(w, id))
  {
    var r := Start(w, id);
    StartFrame(w, id);
    assert r.served.Keys == s.served.Keys + {w.tickets[id].key};
    hide Start;
    assert r.tickets[id].key == s.tickets[id].key && InUse(r, id);
    forall k | k in s.served ensures KeyPresent(r, k) {
      PresentKept(s, r, k);
    }
  }

  lemma DispatchStepDates(s: Sched)
    requires QueueOk(s) && Pick(s) >= 0 && DatesInUse(s)
    ensures DatesInUse(DispatchStep(s))
  {
    var id := s.queue[Pick(s)];
    var w := s.(tickets := Scanned(s, |s.queue|), queue := DropAt(s.queue, Pick(s)));
    PickedFrame(s, w);
    hide Scanned, DropAt, Pick, QueueOk;
    StartFrame(w, id);
    assert w.served == s.served;
    StartedDates(s, w, id);
  }

  lemma {:induction false} DispatchLoopDates(s: Sched)
    requires QueueOk(s) && DatesInUse(s)
    ensures DatesInUse(DispatchLoop(s))
    decreases |s.queue|
  {
    if s.active < s.c.capacity {
      if Pick(s) >= 0 {
        DispatchStepFrame(s);
        DispatchStepDates(s);
        DispatchLoopDates(DispatchStep(s));
      } else {
        ScannedHoldings(s);
        DatesKept(s, s.(tickets := Scanned(s, |s.queue|)));
      }
    }
  }

  lemma DispatchDates(s: Sched)
    requires Core(s) && DatesInUse(s)
    ensures DatesInUse(Dispatch(s))
  {
    DispatchLoopDates(s);
    DatesKept(DispatchLoop(s), Dispatch(s));
  }

  lemma DispatchInv(s: Sched)
    requires Inv(s)
    ensures Inv(Dispatch(s)) && DispatchFrame(s, Dispatch(s))
  {
    DispatchCore(s);
    DispatchHolders(s);
    DispatchDates(s);
    hide Core, HoldersLive, DatesInUse, Dispatch;
  }

  // ---------------------------------------------------------------- removing

  lemma {:induction false} UpToPositive(m: Measure, ts: seq<Ticket>, n: nat) returns (i: nat)
    requires n <= |ts| && TotalUpTo(m, ts, n) > 0
    ensures i < n && Weight(m, ts[i]) > 0
  {
    if Weight(m, ts[n - 1]) > 0 { i := n - 1; } else { i := UpToPositive(m, ts, n - 1); }
  }

  lemma DequeueFrame(s: Sched, id: nat)
    requires QueueOk(s) && id < |s.tickets|
    ensures Dequeue(s, id).tickets == s.tickets && id !in Dequeue(s, id).queue
    ensures forall i :: i != id ==> (i in Dequeue(s, id).queue <==> i in s.queue)
  {
    var p := IndexOf(s.queue, id);
    if p < |s.queue| {
      DropMembers(s.queue, p);
    } else {
      assert s.queue[..|s.queue|] == s.queue;
    }
  }

  lemma LeaveFrame(s: Sched, id: nat)
    requires QueueOk(s) && id < |s.tickets|
    ensures !Leave(s, id).tickets[id].running && id !in Leave(s, id).queue
    ensures Leave(s, id).tickets == s.tickets[id := s.tickets[id].(running := false)]
    ensures forall i :: i != id ==> (i in Leave(s, id).queue <==> i in s.queue)
  {
    if !s.tickets[id].running {
      DequeueFrame(s, id);
      hide Dequeue, QueueOk;
      assert s.tickets == s.tickets[id := s.tickets[id].(running := false)];
    }
  }

  lemma LeaveCore(s: Sched, id: nat)
    requires Core(s) && id < |s.tickets|
    ensures Core(Leave(s, id))
  {
    var p := IndexOf(s.queue, id);
    if s.tickets[id].running {
      StopCore(s, id);
    } else if p < |s.queue| {
      DropQueueCore(s, p);
    }
    hide Core, Stop, DropAt;
  }

  lemma ForgetServedCore(s: Sched, key: Key)
    requires Core(s)
    ensures Core(ForgetServed(s, key))
  {
    var r := ForgetServed(s, key);
    assert Balanced(r);
    assert !s.c.unlimited ==> Within(r) by {
      if !s.c.unlimited { WithinSame(s, r); }
    }
    hide Balanced, Within;
  }

  /** A ticket that can never again be started: no section queues or runs it. */
  ghost predicate Dead(s: Sched, id: nat) {
    id < |s.tickets| && !s.tickets[id].running && id !in s.queue
  }

  ghost predicate Cleared(s: Sched, id: nat) {
    Dead(s, id) && !s.tickets[id].accountHeld && !s.tickets[id].bufferHeld
  }

  /** r is s without ticket id: it holds nothing and waits no more. */
  ghost predicate Removed(s: Sched, r: Sched, id: nat) {
    && id < |s.tickets| == |r.tickets| && Cleared(r, id) && r.c == s.c
    && (forall i :: 0 <= i < |s.tickets| && i != id ==> r.tickets[i] == s.tickets[i])
    && (forall i :: i != id ==> (i in r.queue <==> i in s.queue))
    && r.tickets[id] == s.tickets[id].(accountHeld := false, bufferHeld := false, running := false)
  }

  lemma LeaveRemoves(s: Sched, m: Sched, id: nat)
    requires QueueOk(m) && id < |s.tickets| && m.queue == s.queue && m.c == s.c
    requires m.tickets == s.tickets[id := s.tickets[id].(accountHeld := false, bufferHeld := false)]
    ensures Removed(s, Leave(m, id), id)
  {
    LeaveFrame(m, id);
    hide Leave, QueueOk;
  }

  lemma RemoveFrame(s: Sched, id: nat)
    requires QueueOk(s) && TicketsOk(s) && id < |s.tickets|
    ensures Removed(s, Remove(s, id), id)
  {
    var s1 := ReleaseAccount(s, id);
    var s2 := ReleaseBuffer(s1, id);
    var s3 := Leave(s2, id);
    ReleaseShapes(s, id);
    ReleaseShapes(s1, id);
    hide ReleaseAccount, ReleaseBuffer, TicketsOk, Leave, Removed;
    assert QueueOk(s2) by { QueueSame(s, s2); }
    LeaveRemoves(s, s2, id);
    hide QueueOk;
    var r := ForgetServed(s3, s.tickets[id].key);
    hide ForgetServed;
    assert Removed(s, r, id) by { RemovedSame(s, s3, r, id); }
  }

  lemma RemovedSame(s: Sched, m: Sched, r: Sched, id: nat)
    requires Removed(s, m, id) && r == m.(served := r.served)
    ensures Removed(s, r, id)
  {
  }

  lemma RemoveCore(s: Sched, id: nat)
    requires Core(s) && id < |s.tickets|
    ensures Core(Remove(s, id))
  {
    var s1 := ReleaseAccount(s, id);
    var s2 := ReleaseBuffer(s1, id);
    hide Core, ReleaseAccount, ReleaseBuffer, Leave;
    ReleaseAccountCore(s, id);
    ReleaseBufferCore(s1, id);
    LeaveCore(s2, id);
    ForgetServedCore(Leave(s2, id), s.tickets[id].key);
  }

  lemma ReleaseShapes(s: Sched, id: nat)
    requires id < |s.tickets| && TicketOk(s.c, s.tickets[id])
    ensures ReleaseAccount(s, id).tickets == s.tickets[id := s.tickets[id].(accountHeld := false)]
    ensures ReleaseBuffer(s, id).tickets == s.tickets[id := s.tickets[id].(bufferHeld := false)]
  {
    assert !s.tickets[id].accountHeld ==> s.tickets == s.tickets[id := s.tickets[id].(accountHeld := false)];
    assert !s.tickets[id].bufferHeld ==> s.tickets == s.tickets[id := s.tickets[id].(bufferHeld := false)];
  }

  /** A key that runs or waits has an unreleased ticket. */
  lemma KeyHasTicket(r: Sched, k: Key)
    requires Balanced(r) && TicketsOk(r) && QueueOk(r) && (Get(r.byKey, k) > 0 || QueuedKey(r, k))
    ensures exists i :: 0 <= i < |r.tickets| && r.tickets[i].key == k && !r.tickets[i].released
                        && (r.tickets[i].running || i in r.queue)
  {
    if Get(r.byKey, k) > 0 {
      assert Get(r.byKey, k) == Total(KeyRunning(k), r.tickets);
      var i := UpToPositive(KeyRunning(k), r.tickets, |r.tickets|);
      assert TicketOk(r.c, r.tickets[i]);
    } else {
      var j :| 0 <= j < |r.queue| && Waiter(r, j).key == k;
      assert r.tickets[r.queue[j]].key == k;
    }
  }

  /** After a removal, the key's date survives only while the key is in use. */
  lemma ServedAfterRemove(s: Sched, id: nat, k: Key)
    requires Core(s) && id < |s.tickets| && k in Remove(s, id).served
    ensures exists i :: 0 <= i < |s.tickets| && i != id && s.tickets[i].key == k && !s.tickets[i].released
  {
    var r := Remove(s, id);
    RemoveCore(s, id);
    RemoveFrame(s, id);
    if k == s.tickets[id].key {
      if Get(r.byKey, k) == 0 { KeptIsQueued(s, id); }
      assert Get(r.byKey, k) == Total(KeyRunning(k), r.tickets);
      KeyHasTicket(r, k);
      var i :| 0 <= i < |r.tickets| && r.tickets[i].key == k && !r.tickets[i].released
               && (r.tickets[i].running || i in r.queue);
      assert i != id && r.tickets[i] == s.tickets[i];
    } else {
      assert k in s.served by { RemoveServed(s, id); }
      var i :| 0 <= i < |s.tickets| && s.tickets[i].key == k && !s.tickets[i].released;
      assert i != id;
    }
  }

  lemma RemoveServed(s: Sched, id: nat)
    requires QueueInRange(s) && id < |s.tickets|
    ensures forall k :: k in Remove(s, id).served ==> k in s.served
  {
    var s1 := ReleaseAccount(s, id);
    var s2 := ReleaseBuffer(s1, id);
    assert s1.served == s.served;
    assert s2.served == s1.served;
    assert Leave(s2, id).served == s2.served;
  }

  lemma KeptIsQueued(s: Sched, id: nat)
    requires Core(s) && id < |s.tickets|
    ensures var r := Remove(s, id); var k := s.tickets[id].key;
      k in r.served && Get(r.byKey, k) == 0 ==> QueuedKey(r, k)
  {
    var s2 := Leave(ReleaseBuffer(ReleaseAccount(s, id), id), id);
    var r := Remove(s, id);
    var k := s.tickets[id].key;
    if k in r.served && Get(r.byKey, k) == 0 {
      assert QueuedKey(s2, k);
      var j :| 0 <= j < |s2.queue| && Waiter(s2, j).key == k;
      assert Waiter(r, j).key == k;
    }
  }

  function Marked(s: Sched, id: nat): Sched
    requires id < |s.tickets|
  {
    s.(tickets := s.tickets[id := s.tickets[id].(released := true)])
  }

  lemma UpdateTwice(ts: seq<Ticket>, id: nat, t: Ticket, u: Ticket)
    requires id < |ts|
    ensures ts[id := t][id := u] == ts[id := u]
  {
  }

  lemma MarkAccount(s: Sched, id: nat)
    requires id < |s.tickets|
    ensures ReleaseAccount(Marked(s, id), id) == Marked(ReleaseAccount(s, id), id)
  {
    var t := s.tickets[id];
    UpdateTwice(s.tickets, id, t.(released := true), t.(released := true, accountHeld := false));
    UpdateTwice(s.tickets, id, t.(accountHeld := false), t.(released := true, accountHeld := false));
  }

  lemma MarkBuffer(s: Sched, id: nat)
    requires id < |s.tickets|
    ensures ReleaseBuffer(Marked(s, id), id) == Marked(ReleaseBuffer(s, id), id)
  {
    var t := s.tickets[id];
    UpdateTwice(s.tickets, id, t.(released := true), t.(released := true, bufferHeld := false));
    UpdateTwice(s.tickets, id, t.(bufferHeld := false), t.(released := true, bufferHeld := false));
  }

  lemma MarkLeave(s: Sched, id: nat)
    requires QueueInRange(s) && id < |s.tickets|
    ensures Leave(Marked(s, id), id) == Marked(Leave(s, id), id)
  {
    var t := s.tickets[id];
    UpdateTwice(s.tickets, id, t.(released := true), t.(released := true, running := false));
    UpdateTwice(s.tickets, id, t.(running := false), t.(released := true, running := false));
  }

  lemma MarkForget(s: Sched, id: nat, k: Key)
    requires QueueInRange(s) && id < |s.tickets|
    ensures ForgetServed(Marked(s, id), k) == Marked(ForgetServed(s, k), id)
  {
    var m := Marked(s, id);
    assert forall j :: 0 <= j < |s.queue| ==> Waiter(m, j).key == Waiter(s, j).key;
    assert QueuedKey(m, k) <==> QueuedKey(s, k);
  }

  lemma MarkCommutes(s: Sched, id: nat)
    requires QueueInRange(s) && id < |s.tickets|
    ensures Remove(Marked(s, id), id) == Marked(Remove(s, id), id)
  {
    var s1 := ReleaseAccount(s, id);
    var s2 := ReleaseBuffer(s1, id);
    MarkAccount(s, id);
    MarkBuffer(s1, id);
    MarkLeave(s2, id);
    MarkForget(Leave(s2, id), id, s.tickets[id].key);
    hide ReleaseAccount, ReleaseBuffer, Leave, ForgetServed;
  }

  lemma MarkedCore(s: Sched, id: nat)
    requires Core(s) && Cleared(s, id)
    requires forall k :: k in s.served ==>
      exists i :: 0 <= i < |s.tickets| && i != id && s.tickets[i].key == k && !s.tickets[i].released
    ensures Core(Marked(s, id))
  {
    var r := Marked(s, id);
    assert Balanced(r) by {
      TotalsUpdate(s.tickets, id, r.tickets);
      assert forall m :: Weight(m, r.tickets[id]) == Weight(m, s.tickets[id]);
    }
    assert QueueOk(r) by { QueueSame(s, r); }
    assert ServedOk(r) by {
      forall k | k in r.served
        ensures exists i :: 0 <= i < |r.tickets| && r.tickets[i].key == k && !r.tickets[i].released
      {
        var i :| 0 <= i < |s.tickets| && i != id && s.tickets[i].key == k && !s.tickets[i].released;
        assert r.tickets[i].key == k && !r.tickets[i].released;
      }
    }
    if !s.c.unlimited {
      assert Within(r) by { WithinSame(s, r); }
    }
  }

  // ---------------------------------------------------------------- sections

  lemma RemoveMarkedCore(s: Sched, id: nat)
    requires Core(s) && id < |s.tickets|
    ensures Core(Marked(Remove(s, id), id))
  {
    var r := Remove(s, id);
    RemoveCore(s, id);
    RemoveFrame(s, id);
    forall k | k in r.served
      ensures exists i :: 0 <= i < |r.tickets| && i != id && r.tickets[i].key == k && !r.tickets[i].released
    {
      ServedAfterRemove(s, id, k);
      var i :| 0 <= i < |s.tickets| && i != id && s.tickets[i].key == k && !s.tickets[i].released;
      assert r.tickets[i] == s.tickets[i];
    }
    hide Core, Remove;
    MarkedCore(r, id);
  }

  lemma RemoveHolders(s: Sched, id: nat)
    requires Core(s) && id < |s.tickets| && HoldersLive(s)
    ensures HoldersLive(Remove(s, id)) && HoldersLive(Marked(Remove(s, id), id))
  {
    RemoveFrame(s, id);
    hide Core, Remove;
    RemovedHolders(s, Remove(s, id), id);
  }

  lemma RemovedHolders(s: Sched, r: Sched, id: nat)
    requires HoldersLive(s) && Removed(s, r, id)
    ensures HoldersLive(r) && HoldersLive(Marked(r, id))
  {
  }

  lemma PresentMarked(s: Sched, k: Key, i: nat, id: nat)
    requires i < |s.tickets| && s.tickets[i].key == k && InUse(s, i) && Cleared(s, id)
    requires i != id
    ensures KeyPresent(s, k) && KeyPresent(Marked(s, id), k)
  {
    assert Marked(s, id).tickets[i] == s.tickets[i];
    assert InUse(Marked(s, id), i);
  }

  /** A removed ticket takes the date of its key along, unless another ticket of
      the key runs or waits. */
  lemma RemoveDates(s: Sched, id: nat)
    requires Core(s) && DatesInUse(s) && id < |s.tickets|
    ensures DatesInUse(Remove(s, id)) && DatesInUse(Marked(Remove(s, id), id))
  {
    var r := Remove(s, id);
    RemoveCore(s, id);
    RemoveFrame(s, id);
    RemoveServed(s, id);
    KeptIsQueued(s, id);
    assert Balanced(r) && TicketsOk(r) && QueueOk(r);
    hide Remove, Core, TicketsOk, QueueOk;
    forall k | k in r.served ensures KeyPresent(r, k) && KeyPresent(Marked(r, id), k) {
      if k == s.tickets[id].key {
        assert Get(r.byKey, k) > 0 || QueuedKey(r, k) by {
          assert Get(r.byKey, k) == Total(KeyRunning(k), r.tickets);
        }
        KeyHasTicket(r, k);
        var i :| 0 <= i < |r.tickets| && r.tickets[i].key == k && !r.tickets[i].released
                 && (r.tickets[i].running || i in r.queue);
        PresentMarked(r, k, i, id);
      } else {
        var i :| 0 <= i < |s.tickets| && s.tickets[i].key == k && InUse(s, i);
        assert i != id && r.tickets[i] == s.tickets[i] && InUse(r, i);
        PresentMarked(r, k, i, id);
      }
    }
  }

  lemma ReleaseInv(s: Sched, id: nat)
    requires Inv(s) && id < |s.tickets|
    ensures Inv(Release(s, id)) && Release(s, id).tickets[id].released
  {
    if !s.tickets[id].released {
      var r := Marked(Remove(s, id), id);
      RemoveMarkedCore(s, id);
      RemoveHolders(s, id);
      RemoveDates(s, id);
      RemoveCore(s, id);
      RemoveFrame(s, id);
      MarkCommutes(s, id);
      hide Core, Remove, HoldersLive, DatesInUse;
      DispatchCore(r);
      DispatchHolders(r);
      DispatchDates(r);
    }
  }

  lemma GiveUpInv(s: Sched, id: nat, timeout: bool)
    requires Inv(s) && id < |s.tickets|
    ensures Inv(GiveUp(s, id, timeout))
  {
    var s1 := if timeout then Reject(s, ModelQueueTimeout) else s;
    CounterCore(s, s1);
    DatesKept(s, s1);
    assert HoldersLive(s1);
    hide Core, Remove, HoldersLive, DatesInUse;
    RemoveCore(s1, id);
    RemoveHolders(s1, id);
    RemoveDates(s1, id);
    DispatchHolders(Remove(s1, id));
    DispatchDates(Remove(s1, id));
    DispatchCore(Remove(s1, id));
  }
}
