/** The invariant every critical section keeps: counters equal what the tickets
    hold, tickets are never both queued and running, and no limit is exceeded. */
module AdmissionInvariant {
  import opened AdmissionSpec

  // ------------------------------------------------------------------ totals

  lemma {:induction false} UpToUpdate(m: Measure, ts: seq<Ticket>, i: nat, t: Ticket, n: nat)
    requires i < |ts| && n <= |ts|
    ensures TotalUpTo(m, ts[i := t], n) ==
      TotalUpTo(m, ts, n) + if i < n then Weight(m, t) - Weight(m, ts[i]) else 0
  {
    if n > 0 {
      UpToUpdate(m, ts, i, t, n - 1);
    }
  }

  /** `us` is `ts` with ticket i rewritten. */
  lemma TotalsUpdate(ts: seq<Ticket>, i: nat, us: seq<Ticket>)
    requires i < |ts| == |us| && us == ts[i := us[i]]
    ensures forall m {:trigger Total(m, us)} :: Total(m, us) == Total(m, ts) - Weight(m, ts[i]) + Weight(m, us[i])
  {
    forall m ensures Total(m, us) == Total(m, ts) - Weight(m, ts[i]) + Weight(m, us[i]) {
      UpToUpdate(m, ts, i, us[i], |ts|);
    }
  }

  /** Totals of the first n tickets only look at the first n weights. */
  lemma {:induction false} UpToSame(m: Measure, ts: seq<Ticket>, us: seq<Ticket>, n: nat)
    requires n <= |ts| && n <= |us|
    requires forall i :: 0 <= i < n ==> Weight(m, ts[i]) == Weight(m, us[i])
    ensures TotalUpTo(m, ts, n) == TotalUpTo(m, us, n)
  {
    if n > 0 {
      UpToSame(m, ts, us, n - 1);
    }
  }

  lemma TotalSame(m: Measure, ts: seq<Ticket>, us: seq<Ticket>)
    requires |ts| == |us|
    requires forall i :: 0 <= i < |ts| ==> Weight(m, ts[i]) == Weight(m, us[i])
    ensures Total(m, ts) == Total(m, us)
  {
    UpToSame(m, ts, us, |ts|);
  }

  lemma TotalsAppend(ts: seq<Ticket>, t: Ticket)
    ensures forall m {:trigger Total(m, ts + [t])} :: Total(m, ts + [t]) == Total(m, ts) + Weight(m, t)
  {
    forall m ensures Total(m, ts + [t]) == Total(m, ts) + Weight(m, t) {
      UpToSame(m, ts + [t], ts, |ts|);
    }
  }

  lemma {:induction false} UpToDrop(m: Measure, ts: seq<Ticket>, p: nat, n: nat)
    requires p < n <= |ts|
    ensures TotalUpTo(m, ts[..p] + ts[p + 1..], n - 1) == TotalUpTo(m, ts, n) - Weight(m, ts[p])
  {
    var us := ts[..p] + ts[p + 1..];
    if p == n - 1 {
      UpToSame(m, us, ts, p);
    } else {
      UpToDrop(m, ts, p, n - 1);
      assert us[n - 2] == ts[n - 1];
    }
  }

  lemma TotalDrop(m: Measure, ts: seq<Ticket>, p: nat)
    requires p < |ts|
    ensures Total(m, ts[..p] + ts[p + 1..]) == Total(m, ts) - Weight(m, ts[p])
  {
    UpToDrop(m, ts, p, |ts|);
  }

  lemma {:induction false} UpToZero(m: Measure, ts: seq<Ticket>, n: nat)
    requires n <= |ts|
    requires forall i :: 0 <= i < n ==> Weight(m, ts[i]) == 0
    ensures TotalUpTo(m, ts, n) == 0
  {
    if n > 0 {
      UpToZero(m, ts, n - 1);
    }
  }

  lemma {:induction false} UpToAtLeast(m: Measure, ts: seq<Ticket>, i: nat, n: nat)
    requires i < n <= |ts|
    ensures Weight(m, ts[i]) <= TotalUpTo(m, ts, n)
  {
    if i < n - 1 {
      UpToAtLeast(m, ts, i, n - 1);
    }
  }

  lemma TotalAtLeast(m: Measure, ts: seq<Ticket>, i: nat)
    requires i < |ts|
    ensures Weight(m, ts[i]) <= Total(m, ts)
  {
    UpToAtLeast(m, ts, i, |ts|);
  }

  // --------------------------------------------------------------- invariant

  predicate NoZero<K>(m: map<K, int>) { forall k :: k in m ==> m[k] != 0 }

  /** Every counter equals what the tickets say. */
  ghost predicate Balanced(s: Sched) {
    && s.active == Total(Running, s.tickets)
    && s.sharedActive == Total(SharedRunning, s.tickets)
    && (forall k {:trigger Total(KeyRunning(k), s.tickets)} :: Get(s.byKey, k) == Total(KeyRunning(k), s.tickets))
    && (forall x {:trigger Total(ModelRunning(x), s.tickets)} :: Get(s.byModel, x) == Total(ModelRunning(x), s.tickets))
    && (forall u {:trigger Total(AccountUse(u), s.tickets)} :: Get(s.byAccount, u) == Total(AccountUse(u), s.tickets))
    && s.buffers == Total(Held, s.tickets)
    && s.sharedBuffers == Total(SharedHeld, s.tickets)
    && NoZero(s.byKey) && NoZero(s.byModel) && NoZero(s.byAccount)
  }

  predicate TicketOk(c: Limits, t: Ticket) {
    && t.shared == IsShared(t.key)
    && (t.released ==> !t.running && !t.accountHeld && !t.bufferHeld)
    && (t.accountHeld ==> t.account.Some?)
    && (!c.unlimited && t.chooser.None? ==> t.account.None?)
    && (c.unlimited ==> !t.bufferHeld)
  }

  predicate TicketsOk(s: Sched) { forall i :: 0 <= i < |s.tickets| ==> TicketOk(s.c, s.tickets[i]) }

  predicate QueueOk(s: Sched) {
    && QueueInRange(s)
    && (forall i, j :: 0 <= i < j < |s.queue| ==> s.queue[i] != s.queue[j])
    && (forall i :: 0 <= i < |s.queue| ==> !s.tickets[s.queue[i]].running && !s.tickets[s.queue[i]].released)
    && (s.c.unlimited ==> s.queue == [])
  }

  /** `served` dates the last start of each key, and only of keys still in use. */
  predicate ServedOk(s: Sched) {
    && (forall k :: k in s.served ==> 1 <= s.served[k] <= s.sequence)
    && (forall k, l :: k in s.served && l in s.served && k != l ==> s.served[k] != s.served[l])
    && (forall k :: k in s.served ==>
          exists i :: 0 <= i < |s.tickets| && s.tickets[i].key == k && !s.tickets[i].released)
    && (!s.c.unlimited ==> forall k :: k in s.byKey ==> k in s.served)
  }

  /** However the limits of a key's tickets differ, the running ones with a limit
      of at most n are at most n. */
  ghost predicate KeysWithin(ts: seq<Ticket>) {
    forall k: Key, n: nat :: Total(KeyUpTo(k, n), ts) <= n
  }

  ghost predicate Within(s: Sched)
    requires QueueInRange(s)
  {
    && s.active <= s.c.capacity
    && s.sharedActive <= s.c.sharedCapacity
    && KeysWithin(s.tickets)
    && (forall u :: u in s.byAccount ==> s.byAccount[u] <= s.c.accountLimit)
    && s.buffers <= s.c.bufferBudget
    && s.sharedBuffers <= s.c.sharedBufferBudget
    && |s.queue| <= s.c.queueSize
    && Total(OfShared, Waiters(s)) <= s.c.sharedQueue
    && (forall k :: Total(OfKey(k), Waiters(s)) <= QueueLimit(s.c, IsShared(k)))
  }

  predicate ValidLimits(c: Limits) {
    && c.capacity >= 1 && c.queueSize >= 1 && c.keyQueue >= 1
    && (!c.unlimited ==>
          && c.userQueue >= 1 && c.sharedQueue >= 1 && c.accountLimit >= 1
          && 1 <= c.sharedCapacity <= c.capacity && c.bufferBudget >= 1
          && 0 <= c.sharedBufferBudget <= c.bufferBudget)
  }

  ghost predicate Core(s: Sched) {
    && ValidLimits(s.c)
    && Balanced(s) && TicketsOk(s) && QueueOk(s) && ServedOk(s)
    && (!s.c.unlimited ==> Within(s))
  }

  /** Only running or queued tickets hold a buffer or an account. */
  predicate HoldersLive(s: Sched) {
    !s.c.unlimited ==>
      forall i :: 0 <= i < |s.tickets| && (s.tickets[i].bufferHeld || s.tickets[i].accountHeld) ==>
        s.tickets[i].running || i in s.queue
  }

  /** The ticket runs, waits, or belongs to a lease that is still to be released. */
  predicate InUse(s: Sched, i: nat)
    requires i < |s.tickets|
  {
    s.tickets[i].running || i in s.queue || (s.tickets[i].chooser.Some? && !s.tickets[i].released)
  }

  predicate KeyPresent(s: Sched, k: Key) {
    exists i :: 0 <= i < |s.tickets| && s.tickets[i].key == k && InUse(s, i)
  }

  /** Only keys with a ticket in use are dated. */
  predicate DatesInUse(s: Sched) { forall k :: k in s.served ==> KeyPresent(s, k) }

  ghost predicate Inv(s: Sched) { Core(s) && HoldersLive(s) && DatesInUse(s) }

  lemma NewLimitsValid(c: Config)
    ensures ValidLimits(NewLimits(c))
  {
    if c.bufferBudget <= 0 {
      assert 4 * ResponseLimit(c) * PositiveOr(c.maxConcurrent, 13) >= 1;
    }
  }

  lemma InitInv(c: Limits)
    requires ValidLimits(c)
    ensures Inv(Init(c))
  {
  }

  // ------------------------------------------------------- elementary updates

  /** A change of one ticket that keeps its name, its limit and its queue class. */
  predicate SameIdentity(t: Ticket, u: Ticket) {
    t.key == u.key && t.limit == u.limit && t.shared == u.shared && t.model == u.model && t.bufferBytes == u.bufferBytes
  }

  predicate SameIdentities(ts: seq<Ticket>, us: seq<Ticket>) {
    |ts| <= |us| && forall i :: 0 <= i < |ts| ==> SameIdentity(ts[i], us[i])
  }

  lemma QueueSame(s: Sched, r: Sched)
    requires QueueOk(s) && r.queue == s.queue && r.c == s.c && |s.tickets| <= |r.tickets|
    requires forall i :: 0 <= i < |s.tickets| && i in s.queue ==>
      r.tickets[i].running == s.tickets[i].running && r.tickets[i].released == s.tickets[i].released
    ensures QueueOk(r)
  {
  }

  lemma WaitersSame(s: Sched, r: Sched)
    requires QueueInRange(s) && QueueInRange(r) && r.queue == s.queue && SameIdentities(s.tickets, r.tickets)
    ensures Total(OfShared, Waiters(r)) == Total(OfShared, Waiters(s))
    ensures forall k :: Total(OfKey(k), Waiters(r)) == Total(OfKey(k), Waiters(s))
  {
    TotalSame(OfShared, Waiters(r), Waiters(s));
    forall k ensures Total(OfKey(k), Waiters(r)) == Total(OfKey(k), Waiters(s)) {
      TotalSame(OfKey(k), Waiters(r), Waiters(s));
    }
  }

  lemma {:induction false} UpToFewer(m: Measure, ts: seq<Ticket>, us: seq<Ticket>, n: nat)
    requires n <= |us|
    requires forall i :: 0 <= i < n && Weight(m, us[i]) > 0 ==> i < |ts| && Weight(m, us[i]) <= Weight(m, ts[i])
    ensures TotalUpTo(m, us, n) <= TotalUpTo(m, ts, if n < |ts| then n else |ts|)
  {
    if n > 0 {
      UpToFewer(m, ts, us, n - 1);
    }
  }

  /** Nobody starts. */
  predicate NoStart(ts: seq<Ticket>, us: seq<Ticket>) {
    forall i :: 0 <= i < |us| && us[i].running ==> i < |ts| && ts[i].running
  }

  lemma KeysSame(ts: seq<Ticket>, us: seq<Ticket>)
    requires KeysWithin(ts) && SameIdentities(ts, us) && NoStart(ts, us)
    ensures KeysWithin(us)
  {
    forall k: Key, n: nat ensures Total(KeyUpTo(k, n), us) <= n {
      UpToFewer(KeyUpTo(k, n), ts, us, |us|);
      assert Total(KeyUpTo(k, n), ts) <= n;
    }
  }

  /** Counters only fall, the queue stays: the limits still hold. */
  lemma WithinSame(s: Sched, r: Sched)
    requires QueueInRange(s) && QueueInRange(r) && Within(s)
    requires r.queue == s.queue && r.c == s.c && SameIdentities(s.tickets, r.tickets)
    requires r.active <= s.active && r.sharedActive <= s.sharedActive
    requires r.buffers <= s.buffers && r.sharedBuffers <= s.sharedBuffers
    requires NoStart(s.tickets, r.tickets)
    requires forall u :: u in r.byAccount ==> u in s.byAccount && r.byAccount[u] <= s.byAccount[u]
    ensures Within(r)
  {
    WaitersSame(s, r);
    KeysSame(s.tickets, r.tickets);
  }

  /** Ticket may be started now: it has room and any account it takes is not full. */
  ghost predicate Startable(s: Sched, id: nat) {
    && id < |s.tickets| && id !in s.queue
    && var t := s.tickets[id];
    && !t.running && !t.released
    && s.active < s.c.capacity && Room(s, t)
    && (t.account.Some? && !t.accountHeld ==> t.account.value !in BusyAccounts(s))
  }

  lemma StartBalanced(s: Sched, id: nat)
    requires Balanced(s) && id < |s.tickets| && !s.tickets[id].running
    ensures Balanced(Start(s, id))
  {
    var t := s.tickets[id];
    TotalsUpdate(s.tickets, id, Start(s, id).tickets);
    assert Get(s.byKey, t.key) == Total(KeyRunning(t.key), s.tickets);
    assert Get(s.byModel, t.model) == Total(ModelRunning(t.model), s.tickets);
    assert t.account.Some? ==> Get(s.byAccount, t.account.value) == Total(AccountUse(t.account.value), s.tickets);
  }

  lemma StartServed(s: Sched, id: nat)
    requires ServedOk(s) && id < |s.tickets| && !s.tickets[id].released
    ensures ServedOk(Start(s, id))
  {
    var r := Start(s, id);
    forall k | k in r.served
      ensures exists i :: 0 <= i < |r.tickets| && r.tickets[i].key == k && !r.tickets[i].released
    {
      if k == s.tickets[id].key {
        assert r.tickets[id].key == k;
      } else {
        var i :| 0 <= i < |s.tickets| && s.tickets[i].key == k && !s.tickets[i].released;
        assert r.tickets[i].key == k && !r.tickets[i].released;
      }
    }
  }

  lemma StartKeys(s: Sched, id: nat)
    requires Balanced(s) && KeysWithin(s.tickets) && id < |s.tickets| && !s.tickets[id].running
    requires Get(s.byKey, s.tickets[id].key) < s.tickets[id].limit
    ensures KeysWithin(Start(s, id).tickets)
  {
    var t := s.tickets[id];
    var us := Start(s, id).tickets;
    TotalsUpdate(s.tickets, id, us);
    forall k: Key, n: nat ensures Total(KeyUpTo(k, n), us) <= n {
      assert Total(KeyUpTo(k, n), s.tickets) <= n;
      assert Get(s.byKey, k) == Total(KeyRunning(k), s.tickets);
      UpToNarrower(KeyUpTo(k, n), KeyRunning(k), s.tickets, |s.tickets|);
    }
  }

  lemma {:induction false} UpToNarrower(m: Measure, l: Measure, ts: seq<Ticket>, n: nat)
    requires n <= |ts| && forall i :: 0 <= i < n ==> Weight(m, ts[i]) <= Weight(l, ts[i])
    ensures TotalUpTo(m, ts, n) <= TotalUpTo(l, ts, n)
  {
    if n > 0 {
      UpToNarrower(m, l, ts, n - 1);
    }
  }

  lemma StartWithin(s: Sched, id: nat)
    requires QueueInRange(s) && Within(s) && Balanced(s) && ValidLimits(s.c) && !s.c.unlimited && Startable(s, id)
    ensures Within(Start(s, id))
  {
    var r := Start(s, id);
    WaitersSame(s, r);
    StartKeys(s, id);
    hide Balanced, KeysWithin;
  }

  lemma StartCore(s: Sched, id: nat)
    requires Core(s) && !s.c.unlimited && Startable(s, id)
    ensures Core(Start(s, id))
  {
    StartBalanced(s, id);
    StartServed(s, id);
    StartWithin(s, id);
    hide Balanced, ServedOk, Within;
    assert QueueOk(Start(s, id)) by { QueueSame(s, Start(s, id)); }
  }

  lemma DecFacts<K>(m: map<K, int>, k: K)
    requires NoZero(m) && Get(m, k) >= 1
    ensures NoZero(Dec(m, k)) && Dec(m, k).Keys <= m.Keys
    ensures forall x :: Get(Dec(m, k), x) == if x == k then Get(m, x) - 1 else Get(m, x)
  {
  }

  lemma StopBalanced(s: Sched, id: nat)
    requires Balanced(s) && id < |s.tickets| && s.tickets[id].running
    ensures Balanced(Stop(s, id))
    ensures Stop(s, id).byKey.Keys <= s.byKey.Keys
    ensures forall k :: k in Stop(s, id).byKey ==> Stop(s, id).byKey[k] <= s.byKey[k]
  {
    var t := s.tickets[id];
    TotalsUpdate(s.tickets, id, Stop(s, id).tickets);
    TotalAtLeast(KeyRunning(t.key), s.tickets, id);
    TotalAtLeast(ModelRunning(t.model), s.tickets, id);
    DecFacts(s.byKey, t.key);
    if t.shared { DecFacts(s.byModel, t.model); }
  }

  /** Rewriting one ticket without touching identity keeps the rest of the invariant. */
  lemma ServedSame(s: Sched, r: Sched)
    requires ServedOk(s) && SameIdentities(s.tickets, r.tickets) && r.c == s.c
    requires r.served == s.served && r.sequence == s.sequence && r.byKey.Keys <= s.byKey.Keys
    requires forall i :: 0 <= i < |s.tickets| && !s.tickets[i].released ==> !r.tickets[i].released
    ensures ServedOk(r)
  {
    forall k | k in r.served
      ensures exists i :: 0 <= i < |r.tickets| && r.tickets[i].key == k && !r.tickets[i].released
    {
      var i :| 0 <= i < |s.tickets| && s.tickets[i].key == k && !s.tickets[i].released;
      assert r.tickets[i].key == k && !r.tickets[i].released;
    }
  }

  /** r is s after rewriting ticket id in a way that takes nothing more. */
  ghost predicate Rewrites(s: Sched, r: Sched, id: nat) {
    && id < |s.tickets| == |r.tickets| && r.tickets == s.tickets[id := r.tickets[id]]
    && SameIdentity(s.tickets[id], r.tickets[id]) && TicketOk(s.c, r.tickets[id])
    && r.tickets[id].released == s.tickets[id].released
    && (r.tickets[id].running ==> s.tickets[id].running)
    && r.queue == s.queue && r.c == s.c && r.served == s.served && r.sequence == s.sequence
    && r.active <= s.active && r.sharedActive <= s.sharedActive
    && r.buffers <= s.buffers && r.sharedBuffers <= s.sharedBuffers
    && (forall k :: k in r.byKey ==> k in s.byKey && r.byKey[k] <= s.byKey[k])
    && (forall u :: u in r.byAccount ==> u in s.byAccount && r.byAccount[u] <= s.byAccount[u])
  }

  lemma RewriteCore(s: Sched, r: Sched, id: nat)
    requires Core(s) && Rewrites(s, r, id) && Balanced(r)
    ensures Core(r)
  {
    hide Balanced;
    assert SameIdentities(s.tickets, r.tickets);
    assert ServedOk(r) by { ServedSame(s, r); }
    assert QueueOk(r) by { QueueSame(s, r); }
    if !s.c.unlimited {
      assert Within(r) by { WithinSame(s, r); }
    }
  }

  lemma StopCore(s: Sched, id: nat)
    requires Core(s) && id < |s.tickets| && s.tickets[id].running
    ensures Core(Stop(s, id))
  {
    StopBalanced(s, id);
    RewriteCore(s, Stop(s, id), id);
  }

  lemma ReleaseAccountBalanced(s: Sched, id: nat)
    requires Balanced(s) && id < |s.tickets| && (s.tickets[id].accountHeld ==> s.tickets[id].account.Some?)
    ensures Balanced(ReleaseAccount(s, id)) && !ReleaseAccount(s, id).tickets[id].accountHeld
    ensures forall u :: u in ReleaseAccount(s, id).byAccount ==>
      u in s.byAccount && ReleaseAccount(s, id).byAccount[u] <= s.byAccount[u]
  {
    var t := s.tickets[id];
    if t.accountHeld {
      TotalsUpdate(s.tickets, id, ReleaseAccount(s, id).tickets);
      TotalAtLeast(AccountUse(t.account.value), s.tickets, id);
      DecFacts(s.byAccount, t.account.value);
    }
  }

  lemma ReleaseAccountCore(s: Sched, id: nat)
    requires Core(s) && id < |s.tickets|
    ensures Core(ReleaseAccount(s, id)) && !ReleaseAccount(s, id).tickets[id].accountHeld
  {
    ReleaseAccountBalanced(s, id);
    RewriteCore(s, ReleaseAccount(s, id), id);
  }

  lemma ReleaseBufferBalanced(s: Sched, id: nat)
    requires Balanced(s) && id < |s.tickets|
    ensures Balanced(ReleaseBuffer(s, id)) && !ReleaseBuffer(s, id).tickets[id].bufferHeld
  {
    if s.tickets[id].bufferHeld {
      TotalsUpdate(s.tickets, id, ReleaseBuffer(s, id).tickets);
    }
  }

  lemma ReleaseBufferCore(s: Sched, id: nat)
    requires Core(s) && id < |s.tickets|
    ensures Core(ReleaseBuffer(s, id)) && !ReleaseBuffer(s, id).tickets[id].bufferHeld
  {
    ReleaseBufferBalanced(s, id);
    RewriteCore(s, ReleaseBuffer(s, id), id);
  }

  /** Rewriting one ticket's readiness, chooser or unheld account. */
  lemma RelabelCore(s: Sched, id: nat, u: Ticket)
    requires Core(s) && id < |s.tickets|
    requires SameIdentity(s.tickets[id], u) && TicketOk(s.c, u)
    requires u.running == s.tickets[id].running && u.released == s.tickets[id].released
    requires u.bufferHeld == s.tickets[id].bufferHeld && u.accountHeld == s.tickets[id].accountHeld
    requires u.accountHeld ==> u.account == s.tickets[id].account
    ensures Core(s.(tickets := s.tickets[id := u]))
  {
    var r := s.(tickets := s.tickets[id := u]);
    assert Balanced(r) by {
      TotalsUpdate(s.tickets, id, r.tickets);
      assert forall m :: Weight(m, u) == Weight(m, s.tickets[id]);
    }
    RewriteCore(s, r, id);
  }

  lemma DropQueueWithin(s: Sched, p: nat)
    requires QueueInRange(s) && Within(s) && p < |s.queue|
    ensures QueueInRange(s.(queue := DropAt(s.queue, p))) && Within(s.(queue := DropAt(s.queue, p)))
  {
    var r := s.(queue := DropAt(s.queue, p));
    assert Waiters(r) == Waiters(s)[..p] + Waiters(s)[p + 1..];
    TotalDrop(OfShared, Waiters(s), p);
    forall k ensures Total(OfKey(k), Waiters(r)) <= QueueLimit(s.c, IsShared(k)) {
      TotalDrop(OfKey(k), Waiters(s), p);
    }
  }

  lemma DropQueueCore(s: Sched, p: nat)
    requires Core(s) && p < |s.queue|
    ensures Core(s.(queue := DropAt(s.queue, p)))
    ensures s.queue[p] !in DropAt(s.queue, p)
  {
    ServedSame(s, s.(queue := DropAt(s.queue, p)));
    if !s.c.unlimited { DropQueueWithin(s, p); }
  }

  lemma JoinWithin(s: Sched, id: nat)
    requires QueueInRange(s) && Within(s) && id < |s.tickets|
    requires s.tickets[id].shared == IsShared(s.tickets[id].key)
    requires QueueRefusal(s, s.tickets[id]).None?
    ensures Within(s.(queue := s.queue + [id]))
  {
    var r := s.(queue := s.queue + [id]);
    assert Waiters(r) == Waiters(s) + [s.tickets[id]];
    TotalsAppend(Waiters(s), s.tickets[id]);
  }

  lemma JoinCore(s: Sched, id: nat)
    requires Core(s) && !s.c.unlimited && id < |s.tickets| && id !in s.queue
    requires !s.tickets[id].running && !s.tickets[id].released
    requires QueueRefusal(s, s.tickets[id]).None?
    ensures Core(s.(queue := s.queue + [id]))
  {
    var r := s.(queue := s.queue + [id]);
    assert Balanced(r);
    assert TicketOk(s.c, s.tickets[id]);
    hide Balanced, QueueRefusal;
    assert ServedOk(r) by { ServedSame(s, r); }
    assert Within(r) by { JoinWithin(s, id); }
    hide Within, ServedOk;
    assert QueueOk(r);
  }

  lemma AppendCore(s: Sched, t: Ticket)
    requires Core(s) && TicketOk(s.c, t)
    requires !t.running && !t.bufferHeld && !t.accountHeld
    ensures Core(Append(s, t))
  {
    var r := Append(s, t);
    assert Balanced(r) by { TotalsAppend(s.tickets, t); }
    hide Balanced;
    assert SameIdentities(s.tickets, r.tickets);
    assert ServedOk(r) by { ServedSame(s, r); }
    assert QueueOk(r) by { QueueSame(s, r); }
    if !s.c.unlimited {
      assert Within(r) by { WithinSame(s, r); }
    }
  }

  /** A scan may only fill in an account or a refusal that nothing counts yet. */
  ghost predicate SameHoldings(t: Ticket, u: Ticket) {
    && SameIdentity(t, u) && t.ready == u.ready && t.running == u.running && t.released == u.released
    && t.bufferHeld == u.bufferHeld && t.accountHeld == u.accountHeld && t.chooser == u.chooser
    && (t.accountHeld || t.chooser.None? ==> t.account == u.account)
  }

  lemma ConsiderHoldings(s: Sched, t: Ticket)
    ensures SameHoldings(t, Consider(s, t))
  {
  }

  lemma ScannedHoldings(s: Sched)
    ensures |Scanned(s, |s.queue|)| == |s.tickets|
    ensures forall i :: 0 <= i < |s.tickets| ==> SameHoldings(s.tickets[i], Scanned(s, |s.queue|)[i])
  {
    forall i | 0 <= i < |s.tickets| ensures SameHoldings(s.tickets[i], Scanned(s, |s.queue|)[i]) {
      ConsiderHoldings(s, s.tickets[i]);
    }
  }

  lemma ScannedBalanced(s: Sched)
    requires TicketsOk(s) && Balanced(s)
    ensures Balanced(s.(tickets := Scanned(s, |s.queue|)))
  {
    ScannedHoldings(s);
    hide Scanned;
    forall m ensures Total(m, Scanned(s, |s.queue|)) == Total(m, s.tickets) {
      TotalSame(m, Scanned(s, |s.queue|), s.tickets);
    }
  }

  lemma ScannedCore(s: Sched)
    requires Core(s)
    ensures Core(s.(tickets := Scanned(s, |s.queue|)))
  {
    var r := s.(tickets := Scanned(s, |s.queue|));
    ScannedBalanced(s);
    ScannedHoldings(s);
    hide Balanced, Scanned;
    assert SameIdentities(s.tickets, r.tickets);
    assert ServedOk(r) by { ServedSame(s, r); }
    assert QueueOk(r) by { QueueSame(s, r); }
    if !s.c.unlimited {
      assert Within(r) by { WithinSame(s, r); }
    }
  }
}
