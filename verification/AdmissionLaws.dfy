/** What each section of the scheduler delivers to the ticket it is about, and what
    it refuses, without a word about how. */
module AdmissionLaws {
  import opened AdmissionSpec
  import opened AdmissionInvariant
  import opened AdmissionSections
  import opened AdmissionRuns
  import opened AdmissionTheorems
  import opened AdmissionFairness

  // -------------------------------------------------------------- configuration

  /** What is configured is taken, apart from the shared bounds, which leave a private
      place; what is not gets its default. */
  lemma ConfiguredLimits(cfg: Config)
    requires !cfg.limitsDisabled
    ensures var c := NewLimits(cfg);
      && !c.unlimited && c.keyLimits == cfg.keyLimits
      && c.capacity == (if cfg.maxConcurrent > 0 then cfg.maxConcurrent else 13)
      && c.queueSize == (if cfg.queueSize > 0 then cfg.queueSize else 32)
      && c.keyQueue == (if cfg.keyQueueSize > 0 then cfg.keyQueueSize else 16)
      && c.userQueue == (if cfg.userQueueSize > 0 then cfg.userQueueSize else 6)
      && c.accountLimit == (if cfg.accountConcurrency > 0 then cfg.accountConcurrency else 4)
      && (cfg.bufferBudget > 0 ==> c.bufferBudget == cfg.bufferBudget)
      && (0 < cfg.sharedConcurrency < c.capacity ==> c.sharedCapacity == cfg.sharedConcurrency)
      && (cfg.sharedConcurrency <= 0 && 12 < c.capacity ==> c.sharedCapacity == 12)
      && (0 < cfg.sharedQueueSize < c.queueSize ==> c.sharedQueue == cfg.sharedQueueSize)
      && (cfg.sharedQueueSize <= 0 && 28 < c.queueSize ==> c.sharedQueue == 28)
      && (c.capacity > 1 ==> c.sharedCapacity < c.capacity) && (c.queueSize > 1 ==> c.sharedQueue < c.queueSize)
  {
  }

  /** The response budget of one full non-stream request is kept from the shared ones;
      by default there is one for every slot. */
  lemma ConfiguredBudget(cfg: Config)
    requires !cfg.limitsDisabled
    ensures var c := NewLimits(cfg);
      var full := 4 * (if cfg.maxResponseBytes > 0 then cfg.maxResponseBytes else 128 * 1024 * 1024);
      && (cfg.bufferBudget <= 0 ==> c.bufferBudget == full * c.capacity)
      && (full <= c.bufferBudget ==> c.bufferBudget - c.sharedBufferBudget == full)
      && (c.bufferBudget < full ==> c.sharedBufferBudget == 0)
  {
    var n := ResponseLimit(cfg);
    assert 4 * n * PositiveOr(cfg.maxConcurrent, 13) == (4 * n) * PositiveOr(cfg.maxConcurrent, 13);
  }

  // ------------------------------------------------------------------ arriving

  /** The ticket of a request: its key, model and charge; its limit is the least of the
      capacity, the key's own limit and the caller's, where they are given. */
  lemma TicketOfRequest(c: Limits, key: Key, override: int, model: Model, bytes: nat)
    requires ValidLimits(c) && !c.unlimited
    ensures var t := NewTicket(c, key, override, model, bytes);
      && t.key == key && t.model == model && t.bufferBytes == bytes && (t.shared <==> key.PortalUser?)
      && t.ready && !t.running && !t.released && !t.bufferHeld && !t.accountHeld && t.chooser.None?
      && 1 <= t.limit <= c.capacity
      && (key in c.keyLimits && c.keyLimits[key] > 0 ==> t.limit <= c.keyLimits[key])
      && (override > 0 ==> t.limit <= override)
      && (|| t.limit == c.capacity
          || (key in c.keyLimits && t.limit == c.keyLimits[key])
          || t.limit == override)
  {
  }

  /** With the limits disabled a request runs at once and is counted. */
  lemma UnlimitedRunsAtOnce(s: Sched, key: Key, override: int, model: Model, bytes: nat)
    requires QueueInRange(s) && s.c.unlimited
    ensures var r := Acquire(s, key, override, model, bytes);
      && |r.tickets| == |s.tickets| + 1 && r.tickets[..|s.tickets|] == s.tickets
      && r.tickets[|s.tickets|].running && !r.tickets[|s.tickets|].released
      && r.tickets[|s.tickets|].key == key && r.tickets[|s.tickets|].model == model
      && (r.tickets[|s.tickets|].shared <==> key.PortalUser?)
      && r.active == s.active + 1 && Get(r.byKey, key) == Get(s.byKey, key) + 1 && r.queue == s.queue
  {
  }

  /** A request is turned away for its charge alone exactly when not even an empty
      scheduler could run it; nothing is left of it then. */
  lemma NeverFitsIff(s: Sched, key: Key, override: int, model: Model, bytes: nat)
    requires Inv(s) && !s.c.unlimited
    ensures OverBudget(s.c, key, bytes) <==>
      !BufferRoom(Init(s.c), NewTicket(s.c, key, override, model, bytes))
    ensures OverBudget(s.c, key, bytes) ==> Acquire(s, key, override, model, bytes) == s
    ensures !OverBudget(s.c, key, bytes) ==>
      var r := Acquire(s, key, override, model, bytes);
      && |r.tickets| == |s.tickets| + 1
      && SameIdentity(r.tickets[|s.tickets|], NewTicket(s.c, key, override, model, bytes))
  {
    if !OverBudget(s.c, key, bytes) {
      var t := NewTicket(s.c, key, override, model, bytes);
      AcquireCases(s, key, override, model, bytes);
      AcquireCreates(s, key, override, model, bytes);
    }
    hide Acquire, Core;
  }

  lemma AcquireCreates(s: Sched, key: Key, override: int, model: Model, bytes: nat)
    requires QueueInRange(s) && !s.c.unlimited && !OverBudget(s.c, key, bytes)
    ensures var r := Acquire(s, key, override, model, bytes);
      && |r.tickets| == |s.tickets| + 1
      && SameIdentity(r.tickets[|s.tickets|], NewTicket(s.c, key, override, model, bytes))
  {
    var d := Append(Dispatch(s), NewTicket(s.c, key, override, model, bytes));
    AcquireDirect(s, key, override, model, bytes, d);
    hide Acquire, Dispatch, NewTicket, Room;
    StartFrame(d, |s.tickets|);
  }

  // ---------------------------------------------------------------------- room

  /** A ticket has room exactly when there is no memory pressure and starting it would
      take nothing over its limit. */
  lemma RoomIff(s: Sched, id: nat)
    requires Inv(s) && !s.c.unlimited && id < |s.tickets| && !s.tickets[id].running
    ensures var t, r := s.tickets[id], Start(s, id);
      Room(s, t) <==>
        && !s.pressure
        && r.byKey[t.key] <= t.limit && r.sharedActive <= s.c.sharedCapacity
        && r.buffers <= s.c.bufferBudget && r.sharedBuffers <= s.c.sharedBufferBudget
  {
    assert Within(s);
    hide Balanced, ServedOk, QueueOk, TicketsOk, KeysWithin, QueueLimit, Total;
  }

  /** Under memory pressure no section starts anybody. */
  lemma PressureStartsNobody(s: Sched, op: Op)
    requires QueueInRange(s) && s.pressure
    ensures StepStarts(s, op) == []
  {
    if Entry(s, op).Some? {
      var e := Entry(s, op).value;
      assert e.pressure by { EntryPressure(s, op); }
      PressedDispatch(e);
      DirectPressure(s, op);
      hide DispatchStarts, Entry, Direct;
    }
  }

  lemma EntryPressure(s: Sched, op: Op)
    requires QueueInRange(s) && Entry(s, op).Some?
    ensures Entry(s, op).value.pressure == s.pressure
  {
    hide QueueRefusal, Remove, Yield, Stop, Enqueue;
    match op
    case AcquireOp(_, _, _, _) =>
    case BindOp(id, choose) => YieldPressure(s, id, choose);
    case ParkOp(id) => ParkPressure(s, id);
    case UnparkOp(_) =>
    case GiveUpOp(id, timeout) => RemovePressure(if timeout then Reject(s, ModelQueueTimeout) else s, id);
    case ReleaseOp(id) => RemovePressure(Marked(s, id), id);
    case TickOp =>
    case PressureOp(_) =>
  }

  lemma YieldPressure(s: Sched, id: nat, choose: Chooser)
    requires id < |s.tickets|
    ensures Yield(s, id, choose).pressure == s.pressure
  {
  }

  lemma ParkPressure(s: Sched, id: nat)
    requires QueueInRange(s) && id < |s.tickets|
    ensures Stop(Enqueue(s.(tickets := s.tickets[id := s.tickets[id].(ready := false)]), id), id).pressure == s.pressure
  {
    hide QueueRefusal;
  }

  lemma RemovePressure(s: Sched, id: nat)
    requires QueueInRange(s) && id < |s.tickets|
    ensures Remove(s, id).pressure == s.pressure
  {
    var s1 := ReleaseAccount(s, id);
    var s2 := ReleaseBuffer(s1, id);
    assert s1.pressure == s.pressure;
    assert s2.pressure == s1.pressure;
    assert Leave(s2, id).pressure == s2.pressure;
    hide ReleaseAccount, ReleaseBuffer, Leave;
  }

  lemma PressedDispatch(s: Sched)
    requires QueueInRange(s) && s.pressure
    ensures DispatchStarts(s) == [] && Dispatch(s).pressure
  {
    PickIsFair(s, |s.queue|);
    assert Pick(s) < 0;
    hide DispatchStep, Scanned;
  }

  lemma DirectPressure(s: Sched, op: Op)
    requires QueueInRange(s) && s.pressure && Entry(s, op).Some? && Dispatch(Entry(s, op).value).pressure
    ensures Direct(s, op) == []
  {
    hide Dispatch, Yield, Remove, QueueRefusal, NewTicket, Stop;
    match op
    case AcquireOp(_, _, _, _) =>
    case BindOp(_, _) =>
    case _ =>
  }

  // ------------------------------------------------------------------- refusals

  /** Why a ticket may not queue: the bound that queueing it would break. The shared
      bound is named before the key's, the key's before the common one. A portal user's
      bound is the smaller of the two. */
  lemma RefusalNamesTheBound(s: Sched, id: nat)
    requires Inv(s) && !s.c.unlimited && id < |s.tickets|
    ensures var r := s.(queue := s.queue + [id]);
      var t := s.tickets[id];
      var bound := if t.key.PortalUser? then Min(s.c.userQueue, s.c.keyQueue) else s.c.keyQueue;
      var sharedBreaks := Total(OfShared, Waiters(r)) > s.c.sharedQueue;
      var keyBreaks := Total(OfKey(t.key), Waiters(r)) > bound;
      && (QueueRefusal(s, t) == Some(SharedQueueFull) <==> sharedBreaks)
      && (QueueRefusal(s, t) == Some(KeyQueueFull) <==> !sharedBreaks && keyBreaks)
      && (QueueRefusal(s, t) == Some(ModelQueueFull) <==>
            !sharedBreaks && !keyBreaks && |s.queue| + 1 > s.c.queueSize)
      && (QueueRefusal(s, t) == None <==> !sharedBreaks && !keyBreaks && |s.queue| + 1 <= s.c.queueSize)
  {
    assert TicketOk(s.c, s.tickets[id]) && Within(s);
    hide Waiters, Total, Inv, Balanced, ServedOk, QueueOk, TicketsOk, KeysWithin;
    WithinBounds(s);
    JoinedTotals(s, id);
  }

  /** When only shared tickets wait, there is a place for a private one. */
  lemma PrivateQueuePlace(s: Sched, cfg: Config, id: nat)
    requires Inv(s) && s.c == NewLimits(cfg) && !cfg.limitsDisabled && s.c.queueSize > 1
    requires id < |s.tickets| && !s.tickets[id].shared
    requires forall i :: 0 <= i < |s.queue| ==> s.tickets[s.queue[i]].shared
    ensures QueueRefusal(s, s.tickets[id]).None?
  {
    assert Within(s) && TicketOk(s.c, s.tickets[id]);
    var w := Waiters(s);
    forall i | 0 <= i < |w|
      ensures Weight(OfShared, w[i]) == 1 && Weight(OfKey(s.tickets[id].key), w[i]) == 0
    {
      assert TicketOk(s.c, s.tickets[s.queue[i]]);
    }
    AllCount(OfShared, w, |w|);
    UpToZero(OfKey(s.tickets[id].key), w, |w|);
    hide Balanced, ServedOk, KeysWithin;
  }

  lemma {:induction false} AllCount(m: Measure, ts: seq<Ticket>, n: nat)
    requires n <= |ts| && forall i :: 0 <= i < n ==> Weight(m, ts[i]) == 1
    ensures TotalUpTo(m, ts, n) == n
  {
    if n > 0 {
      AllCount(m, ts, n - 1);
    }
  }

  // -------------------------------------------------------------------- binding

  /** What a bind delivers with the limits disabled: the ticket holds exactly the
      account chosen. One more use of it is counted, one less of a different account
      held before; nothing else changes. */
  lemma UnlimitedBindDelivers(s: Sched, id: nat, choose: Chooser, a: Account)
    requires Inv(s) && s.c.unlimited && id < |s.tickets| && !s.tickets[id].released && choose({}) == Free(a)
    ensures var t, r := s.tickets[id], Bind(s, id, choose);
      && r == s.(tickets := r.tickets, byAccount := r.byAccount)
      && r.tickets == s.tickets[id := t.(account := Some(a), accountHeld := true)]
      && forall u :: Get(r.byAccount, u) == Get(s.byAccount, u) + Uses(u, Some(a)) - Uses(u, HeldBefore(t))
  {
    var t, s1 := s.tickets[id], ReleaseAccount(s, id);
    assert TicketOk(s.c, t) && Balanced(s);
    hide Inv;
    ReleaseShapes(s, id);
    AccountGivenBack(s, id);
    assert s1.tickets[id := t.(account := Some(a), accountHeld := true)]
        == s.tickets[id := t.(account := Some(a), accountHeld := true)];
    hide ReleaseAccount, Balanced;
  }

  /** Without a choice, or for a released lease, nothing changes. */
  lemma UnlimitedBindIdle(s: Sched, id: nat, choose: Chooser)
    requires QueueInRange(s) && s.c.unlimited && id < |s.tickets|
    requires s.tickets[id].released || !choose({}).Free?
    ensures Bind(s, id, choose) == s
  {
    hide Yield, Dispatch, Retake;
  }

  lemma AccountGivenBack(s: Sched, id: nat)
    requires Balanced(s) && id < |s.tickets| && TicketOk(s.c, s.tickets[id])
    ensures var r := ReleaseAccount(s, id);
      && r == s.(tickets := r.tickets, byAccount := r.byAccount)
      && forall u :: Get(r.byAccount, u) == Get(s.byAccount, u) - Uses(u, HeldBefore(s.tickets[id]))
  {
    var t := s.tickets[id];
    if t.accountHeld {
      TotalAtLeast(AccountUse(t.account.value), s.tickets, id);
      assert Get(s.byAccount, t.account.value) == Total(AccountUse(t.account.value), s.tickets);
      DecFacts(s.byAccount, t.account.value);
    }
  }

  function HeldBefore(t: Ticket): Option<Account> { if t.accountHeld then t.account else None }

  function Uses(u: Account, a: Option<Account>): int { if a == Some(u) then 1 else 0 }

  /** How a bind under limits ends for its ticket, given the state d in which it comes
      to its turn. It runs again with the very account the chooser named, which was not
      full; or the chooser's refusal is recorded; or it waits with its wish and without
      an account; or the queue refused it, which is counted. */
  ghost predicate BindEnded(d: Sched, r: Sched, id: nat, choose: Chooser)
    requires QueueInRange(d) && id < |d.tickets| == |r.tickets|
  {
    var t, answer := r.tickets[id], choose(BusyAccounts(d));
    && t.chooser == Some(choose)
    && (t.running <==> d.active < d.c.capacity && Room(d, d.tickets[id]) && answer.Free?)
    && (t.running ==>
          && t.account == Some(answer.account) && answer.account !in BusyAccounts(d)
          && t.accountHeld && t.bufferHeld && t.selectionErr == None && id !in r.queue)
    && (!t.running ==> !t.accountHeld && !t.bufferHeld)
    && (t.selectionErr.Some? ==> answer == Refused(t.selectionErr.value) && !t.running && id !in r.queue)
    && (!t.running && id !in r.queue && t.selectionErr == None ==>
          QueueRefusal(d, d.tickets[id]).Some?
          && Get(r.rejected, QueueRefusal(d, d.tickets[id]).value)
               == Get(d.rejected, QueueRefusal(d, d.tickets[id]).value) + 1)
  }

  lemma BindEnds(s: Sched, id: nat, choose: Chooser)
    requires Inv(s) && !s.c.unlimited && id < |s.tickets| && Bindable(s, id)
    ensures BindEnded(Dispatch(Yield(s, id, choose)), Bind(s, id, choose), id, choose)
  {
    var y := Yield(s, id, choose);
    var d := Dispatch(y);
    YieldInv(s, id, choose);
    DispatchYielded(y, id, choose);
    YieldClears(s, id, choose);
    DispatchOutside(y, id);
    assert Bind(s, id, choose) == Retake(d, id, choose) by { hide Yield, Dispatch, Retake; }
    hide Inv, Yield, Dispatch, Retake, BindEnded, Bind;
    RetakeEnds(d, id, choose);
  }

  lemma YieldClears(s: Sched, id: nat, choose: Chooser)
    requires id < |s.tickets| && TicketOk(s.c, s.tickets[id])
    ensures Yield(s, id, choose).tickets[id].selectionErr == None && Yield(s, id, choose).tickets[id].account == None
  {
    YieldFrame(s, id, choose);
    hide Yield;
  }

  /** A dispatch does not look at a ticket outside the queue. */
  lemma DispatchOutside(s: Sched, id: nat)
    requires Inv(s) && Dead(s, id)
    ensures Dispatch(s).tickets[id] == s.tickets[id]
  {
    DispatchCore(s);
    hide Dispatch, Core;
  }

  /** The ways through the second half of a rebind. */
  lemma RetakeSplit(d: Sched, id: nat, choose: Chooser)
    requires QueueInRange(d) && id < |d.tickets|
    ensures var t, answer := d.tickets[id], choose(BusyAccounts(d));
      var room := d.active < d.c.capacity && Room(d, t);
      var asked := d.(tickets := d.tickets[id := Chosen(t, answer)]);
      var m, r := if room then asked else d, Retake(d, id, choose);
      if room && answer.Free? then r == Signal(Start(asked, id))
      else if room && answer.Refused? then r == asked
      else r == Enqueue(m, id) || r == Signal(Enqueue(m, id))
  {
    hide Room, QueueRefusal, Start, Enqueue, Chosen;
  }

  lemma EnqueueEnds(m: Sched, id: nat)
    requires QueueInRange(m) && id < |m.tickets| && id !in m.queue
    ensures var r := Enqueue(m, id);
      && r.tickets == m.tickets && (id in r.queue <==> QueueRefusal(m, m.tickets[id]).None?)
      && (QueueRefusal(m, m.tickets[id]).Some? ==>
            var code := QueueRefusal(m, m.tickets[id]).value;
            Get(r.rejected, code) == Get(m.rejected, code) + 1)
  {
    assert id in m.queue + [id] by { assert (m.queue + [id])[|m.queue|] == id; }
    hide QueueRefusal;
  }

  lemma RetakeStarts(d: Sched, id: nat, choose: Chooser)
    requires QueueInRange(d) && Yielded(d, id, choose)
    requires d.active < d.c.capacity && Room(d, d.tickets[id]) && choose(BusyAccounts(d)).Free?
    ensures BindEnded(d, Retake(d, id, choose), id, choose)
  {
    var asked := d.(tickets := d.tickets[id := Chosen(d.tickets[id], choose(BusyAccounts(d)))]);
    RetakeSplit(d, id, choose);
    hide Room, Retake, QueueRefusal;
    StartTakes(asked, id);
    assert Start(asked, id).queue == d.queue;
    hide Start;
  }

  lemma RetakeEnds(d: Sched, id: nat, choose: Chooser)
    requires QueueInRange(d) && Yielded(d, id, choose)
    requires d.tickets[id].selectionErr == None && d.tickets[id].account == None
    ensures BindEnded(d, Retake(d, id, choose), id, choose)
  {
    var t, answer := d.tickets[id], choose(BusyAccounts(d));
    var room := d.active < d.c.capacity && Room(d, t);
    if room && answer.Free? {
      RetakeStarts(d, id, choose);
      hide BindEnded, Retake, Room;
    } else {
      RetakeWaits(d, id, choose);
      hide BindEnded, Retake, Room;
    }
  }

  lemma RetakeWaits(d: Sched, id: nat, choose: Chooser)
    requires QueueInRange(d) && Yielded(d, id, choose)
    requires d.tickets[id].selectionErr == None && d.tickets[id].account == None
    requires !(d.active < d.c.capacity && Room(d, d.tickets[id]) && choose(BusyAccounts(d)).Free?)
    ensures BindEnded(d, Retake(d, id, choose), id, choose)
  {
    var t, answer := d.tickets[id], choose(BusyAccounts(d));
    var room := d.active < d.c.capacity && Room(d, t);
    var asked := d.(tickets := d.tickets[id := Chosen(t, answer)]);
    RetakeSplit(d, id, choose);
    hide Room, Retake, QueueRefusal;
    if !(room && answer.Refused?) {
      var m := if room then asked else d;
      assert m.tickets[id] == t;
      assert QueueRefusal(m, m.tickets[id]) == QueueRefusal(d, t) by { QueueRefusalSame(d, m, id); }
      EnqueueEnds(m, id);
      hide Enqueue, Chosen;
    }
  }

  lemma QueueRefusalSame(d: Sched, m: Sched, id: nat)
    requires QueueInRange(d) && QueueInRange(m) && m.queue == d.queue && m.c == d.c && id < |d.tickets| == |m.tickets|
    requires SameIdentities(d.tickets, m.tickets)
    ensures QueueRefusal(m, m.tickets[id]) == QueueRefusal(d, d.tickets[id])
  {
    WaitersSame(d, m);
    assert SameIdentity(d.tickets[id], m.tickets[id]);
  }

  /** A started ticket holds its bytes and its account. */
  lemma StartTakes(s: Sched, id: nat)
    requires id < |s.tickets|
    ensures var t, u := s.tickets[id], Start(s, id).tickets[id];
      u == t.(running := true, bufferHeld := true, accountHeld := t.accountHeld || t.account.Some?)
  {
  }
}
