/** The scheduler state of internal/app/admission.go and every critical section
    of it as a function from state to state.  `tickets` lists every ticket ever
    created; a ticket's position is its identity (the source's pointer). */
module AdmissionSpec {

  datatype Option<+T> = None | Some(value: T)

  /** The admission keys admitModel builds: "portal-user-<id>", "<app id>" or
      "admin-test".  Only the first kind carries the prefix that marks a ticket
      as shared. */
  datatype Key = PortalUser(id: int) | App(id: int) | AdminTest

  /** Model names and account resource keys are only ever compared for equality. */
  type Model = nat
  type Account = nat

  datatype Code =
    | ModelQueueFull | SharedQueueFull | KeyQueueFull | ModelQueueTimeout | Selection(status: int)

  /** What an account chooser answers when told which accounts are full. */
  datatype Choice = Free(account: Account) | Busy | Refused(code: Code)

  /** A chooser never names a full account, and filling accounts never turns
      "all busy" into an answer. */
  ghost predicate SoundChooser(choose: set<Account> -> Choice) {
    && (forall busy :: choose(busy).Free? ==> choose(busy).account !in busy)
    && (forall small, large :: small <= large && choose(small).Busy? ==> choose(large).Busy?)
  }

  type Chooser = choose: set<Account> -> Choice | SoundChooser(choose)
    witness (busy: set<Account>) => Busy

  datatype Ticket = Ticket(
    key: Key, limit: int, shared: bool, model: Model, bufferBytes: nat,
    ready: bool, running: bool, released: bool, bufferHeld: bool,
    chooser: Option<Chooser>, account: Option<Account>, accountHeld: bool,
    selectionErr: Option<Code>)

  datatype Limits = Limits(
    unlimited: bool, capacity: int, queueSize: int, keyQueue: int, userQueue: int,
    sharedQueue: int, sharedCapacity: int, keyLimits: map<Key, int>,
    accountLimit: int, bufferBudget: int, sharedBufferBudget: int)

  datatype Sched = Sched(
    c: Limits, active: int, sharedActive: int,
    byKey: map<Key, int>, byModel: map<Model, int>, byAccount: map<Account, int>,
    queue: seq<nat>, served: map<Key, nat>, sequence: nat,
    buffers: int, sharedBuffers: int, tickets: seq<Ticket>,
    pressure: bool, wakeups: nat, rejected: map<Code, int>)

  // ---------------------------------------------------------------- counters

  function Get<K>(m: map<K, int>, k: K): int { if k in m then m[k] else 0 }

  function Served(s: Sched, key: Key): nat { if key in s.served then s.served[key] else 0 }

  function Inc<K>(m: map<K, int>, k: K): map<K, int> { m[k := Get(m, k) + 1] }

  /** Decrement, deleting the entry when it reaches zero. */
  function Dec<K>(m: map<K, int>, k: K): map<K, int> {
    if Get(m, k) == 1 then m - {k} else m[k := Get(m, k) - 1]
  }

  // ------------------------------------------------------------ construction

  datatype Config = Config(
    limitsDisabled: bool, maxConcurrent: int, queueSize: int, keyQueueSize: int,
    keyLimits: map<Key, int>, userQueueSize: int, sharedQueueSize: int,
    sharedConcurrency: int, accountConcurrency: int, maxResponseBytes: int, bufferBudget: int)

  const DEFAULT_MAX_RESPONSE_BYTES := 134217728

  function PositiveOr(v: int, fallback: int): int { if v > 0 then v else fallback }

  function ResponseLimit(c: Config): int { PositiveOr(c.maxResponseBytes, DEFAULT_MAX_RESPONSE_BYTES) }

  function Min(a: int, b: int): int { if a <= b then a else b }
  function Max(a: int, b: int): int { if a >= b then a else b }

  function NewLimits(c: Config): Limits {
    var capacity := PositiveOr(c.maxConcurrent, 13);
    var queueSize := PositiveOr(c.queueSize, 32);
    var keyQueue := PositiveOr(c.keyQueueSize, 16);
    if c.limitsDisabled then
      Limits(true, capacity, queueSize, keyQueue, 0, 0, 0, map[], 0, 0, 0)
    else
      var sharedQueue := PositiveOr(c.sharedQueueSize, 28);
      var sharedCapacity := PositiveOr(c.sharedConcurrency, 12);
      var budget := if c.bufferBudget > 0 then c.bufferBudget else 4 * ResponseLimit(c) * capacity;
      Limits(false, capacity, queueSize, keyQueue, PositiveOr(c.userQueueSize, 6),
             if queueSize > 1 && sharedQueue >= queueSize then queueSize - 1 else sharedQueue,
             Min(if capacity > 1 && sharedCapacity >= capacity then capacity - 1 else sharedCapacity, capacity),
             c.keyLimits, PositiveOr(c.accountConcurrency, 4),
             budget, Max(0, budget - 4 * ResponseLimit(c)))
  }

  function Init(c: Limits): Sched {
    Sched(c, 0, 0, map[], map[], map[], [], map[], 0, 0, 0, [], false, 0, map[])
  }

  // ---------------------------------------------------------------- room

  predicate IsShared(key: Key) { key.PortalUser? }

  predicate SharedRoom(s: Sched, t: Ticket) { !t.shared || s.sharedActive < s.c.sharedCapacity }

  predicate BufferRoom(s: Sched, t: Ticket) {
    && !s.pressure
    && (t.bufferHeld
        || (s.buffers + t.bufferBytes <= s.c.bufferBudget
            && (!t.shared || s.sharedBuffers + t.bufferBytes <= s.c.sharedBufferBudget)))
  }

  predicate Room(s: Sched, t: Ticket) {
    Get(s.byKey, t.key) < t.limit && SharedRoom(s, t) && BufferRoom(s, t)
  }

  function BusyAccounts(s: Sched): set<Account> {
    set u | u in s.byAccount && s.byAccount[u] >= s.c.accountLimit
  }

  predicate NeedsAccount(t: Ticket) { t.chooser.Some? && !t.accountHeld }

  predicate Runnable(s: Sched, t: Ticket) {
    && t.ready && Room(s, t)
    && (NeedsAccount(t) ==> !t.chooser.value(BusyAccounts(s)).Busy?)
  }

  // ---------------------------------------------------------------- starting

  function Chosen(t: Ticket, choice: Choice): Ticket {
    match choice
    case Free(a) => t.(account := Some(a), selectionErr := None)
    case Busy => t.(account := None, selectionErr := None)
    case Refused(e) => t.(account := None, selectionErr := Some(e))
  }

  /** A scan asks the chooser of every waiter that has room. */
  function Consider(s: Sched, t: Ticket): Ticket {
    if t.ready && Room(s, t) && NeedsAccount(t) then Chosen(t, t.chooser.value(BusyAccounts(s))) else t
  }

  predicate QueueInRange(s: Sched) { forall i :: 0 <= i < |s.queue| ==> s.queue[i] < |s.tickets| }

  function Scanned(s: Sched, n: nat): (r: seq<Ticket>)
    requires n <= |s.queue|
    ensures |r| == |s.tickets|
  {
    seq(|s.tickets|, i requires 0 <= i < |s.tickets| =>
      if i in s.queue[..n] then Consider(s, s.tickets[i]) else s.tickets[i])
  }

  predicate Ahead(s: Sched, t: Ticket, u: Ticket) {
    || Get(s.byKey, t.key) < Get(s.byKey, u.key)
    || (Get(s.byKey, t.key) == Get(s.byKey, u.key) && Served(s, t.key) < Served(s, u.key))
  }

  function Waiter(s: Sched, i: int): Ticket
    requires QueueInRange(s) && 0 <= i < |s.queue|
  {
    s.tickets[s.queue[i]]
  }

  /** Position of the waiter a scan of the first n queue entries selects, or -1. */
  function PickUpTo(s: Sched, n: nat): (p: int)
    requires QueueInRange(s) && n <= |s.queue|
    ensures -1 <= p < n
  {
    if n == 0 then -1
    else
      var p := PickUpTo(s, n - 1);
      if Runnable(s, Waiter(s, n - 1)) && (p < 0 || Ahead(s, Waiter(s, n - 1), Waiter(s, p))) then n - 1 else p
  }

  function Pick(s: Sched): (p: int)
    requires QueueInRange(s)
    ensures -1 <= p < |s.queue|
  {
    PickUpTo(s, |s.queue|)
  }

  /** Take every permit for ticket `id` and mark it running. */
  function Start(s: Sched, id: nat): (r: Sched)
    requires id < |s.tickets|
    ensures r.queue == s.queue && |r.tickets| == |s.tickets| && r.c == s.c && r.wakeups == s.wakeups
    ensures r.rejected == s.rejected && r.pressure == s.pressure
  {
    var t := s.tickets[id];
    var takes := t.account.Some? && !t.accountHeld;
    var bytes := if t.bufferHeld then 0 else t.bufferBytes;
    s.(tickets := s.tickets[id := t.(running := true, bufferHeld := true, accountHeld := t.accountHeld || takes)],
       buffers := s.buffers + bytes,
       sharedBuffers := if t.shared then s.sharedBuffers + bytes else s.sharedBuffers,
       byAccount := if takes then Inc(s.byAccount, t.account.value) else s.byAccount,
       active := s.active + 1,
       sharedActive := if t.shared then s.sharedActive + 1 else s.sharedActive,
       byModel := if t.shared then Inc(s.byModel, t.model) else s.byModel,
       byKey := Inc(s.byKey, t.key),
       sequence := s.sequence + 1,
       served := s.served[t.key := s.sequence + 1])
  }

  function DropAt(q: seq<nat>, p: nat): (r: seq<nat>)
    requires p < |q|
    ensures |r| == |q| - 1
    ensures forall i :: 0 <= i < |r| ==> r[i] == q[if i < p then i else i + 1]
  {
    q[..p] + q[p + 1..]
  }

  /** Scan, take the pick out of the queue and start it. */
  function DispatchStep(s: Sched): (r: Sched)
    requires QueueInRange(s) && Pick(s) >= 0
    ensures QueueInRange(r) && |r.tickets| == |s.tickets| && |r.queue| == |s.queue| - 1 && r.c == s.c
    ensures r.wakeups == s.wakeups && r.rejected == s.rejected && r.pressure == s.pressure
  {
    var p := Pick(s);
    var id := s.queue[p];
    var waiting := s.(tickets := Scanned(s, |s.queue|), queue := DropAt(s.queue, p));
    Start(waiting, id)
  }

  function DispatchLoop(s: Sched): (r: Sched)
    requires QueueInRange(s)
    ensures QueueInRange(r) && |r.tickets| == |s.tickets| && r.c == s.c
    ensures r.wakeups == s.wakeups && r.rejected == s.rejected && r.pressure == s.pressure
    decreases |s.queue|
  {
    if s.active >= s.c.capacity then s
    else
      if Pick(s) < 0 then s.(tickets := Scanned(s, |s.queue|))
      else DispatchLoop(DispatchStep(s))
  }

  function Signal(s: Sched): Sched { s.(wakeups := s.wakeups + 1) }

  function Dispatch(s: Sched): (r: Sched)
    requires QueueInRange(s)
    ensures QueueInRange(r) && |r.tickets| == |s.tickets| && r.c == s.c && r.wakeups == s.wakeups + 1
  {
    Signal(DispatchLoop(s))
  }

  // ---------------------------------------------------------------- stopping

  function Stop(s: Sched, id: nat): (r: Sched)
    requires id < |s.tickets|
    ensures r.queue == s.queue && |r.tickets| == |s.tickets| && r.c == s.c && r.wakeups == s.wakeups
        && r.served == s.served
  {
    var t := s.tickets[id];
    s.(tickets := s.tickets[id := t.(running := false)],
       active := s.active - 1,
       sharedActive := if t.shared then s.sharedActive - 1 else s.sharedActive,
       byModel := if t.shared then Dec(s.byModel, t.model) else s.byModel,
       byKey := Dec(s.byKey, t.key))
  }

  function ReleaseAccount(s: Sched, id: nat): (r: Sched)
    requires id < |s.tickets|
    ensures r.queue == s.queue && |r.tickets| == |s.tickets| && r.c == s.c && r.wakeups == s.wakeups
        && r.served == s.served
  {
    var t := s.tickets[id];
    if !t.accountHeld || t.account.None? then s
    else s.(tickets := s.tickets[id := t.(accountHeld := false)], byAccount := Dec(s.byAccount, t.account.value))
  }

  function ReleaseBuffer(s: Sched, id: nat): (r: Sched)
    requires id < |s.tickets|
    ensures r.queue == s.queue && |r.tickets| == |s.tickets| && r.c == s.c && r.wakeups == s.wakeups
        && r.served == s.served
  {
    var t := s.tickets[id];
    if !t.bufferHeld then s
    else s.(tickets := s.tickets[id := t.(bufferHeld := false)],
            buffers := s.buffers - t.bufferBytes,
            sharedBuffers := if t.shared then s.sharedBuffers - t.bufferBytes else s.sharedBuffers)
  }

  function IndexOf(q: seq<nat>, id: nat): (i: nat)
    ensures i <= |q|
    ensures i < |q| ==> q[i] == id
    ensures id !in q[..i]
  {
    if |q| == 0 || q[0] == id then 0 else 1 + IndexOf(q[1..], id)
  }

  function Dequeue(s: Sched, id: nat): (r: Sched)
    requires QueueInRange(s)
    ensures QueueInRange(r) && r == s.(queue := r.queue)
  {
    var i := IndexOf(s.queue, id);
    if i < |s.queue| then s.(queue := DropAt(s.queue, i)) else s
  }

  predicate QueuedKey(s: Sched, key: Key)
    requires QueueInRange(s)
  {
    exists i :: 0 <= i < |s.queue| && Waiter(s, i).key == key
  }

  function ForgetServed(s: Sched, key: Key): (r: Sched)
    requires QueueInRange(s)
    ensures r == s.(served := r.served)
  {
    if Get(s.byKey, key) == 0 && !QueuedKey(s, key) then s.(served := s.served - {key}) else s
  }

  /** Give up the execution slot, or the place in the queue. */
  function Leave(s: Sched, id: nat): (r: Sched)
    requires QueueInRange(s) && id < |s.tickets|
    ensures QueueInRange(r) && |r.tickets| == |s.tickets| && r.c == s.c && r.wakeups == s.wakeups
  {
    if s.tickets[id].running then Stop(s, id) else Dequeue(s, id)
  }

  function Remove(s: Sched, id: nat): (r: Sched)
    requires QueueInRange(s) && id < |s.tickets|
    ensures QueueInRange(r) && |r.tickets| == |s.tickets| && r.c == s.c && r.wakeups == s.wakeups
  {
    ForgetServed(Leave(ReleaseBuffer(ReleaseAccount(s, id), id), id), s.tickets[id].key)
  }

  // ---------------------------------------------------------------- queueing

  datatype Measure =
    | Running | SharedRunning | KeyRunning(key: Key) | KeyUpTo(key: Key, limit: nat) | ModelRunning(model: Model)
    | AccountUse(account: Account) | Held | SharedHeld
    | OfKey(key: Key) | OfShared

  function Weight(m: Measure, t: Ticket): nat {
    match m
    case Running => if t.running then 1 else 0
    case SharedRunning => if t.running && t.shared then 1 else 0
    case KeyRunning(k) => if t.running && t.key == k then 1 else 0
    case KeyUpTo(k, n) => if t.running && t.key == k && t.limit <= n then 1 else 0
    case ModelRunning(x) => if t.running && t.shared && t.model == x then 1 else 0
    case AccountUse(u) => if t.accountHeld && t.account == Some(u) then 1 else 0
    case Held => if t.bufferHeld then t.bufferBytes else 0
    case SharedHeld => if t.bufferHeld && t.shared then t.bufferBytes else 0
    case OfKey(k) => if t.key == k then 1 else 0
    case OfShared => if t.shared then 1 else 0
  }

  function TotalUpTo(m: Measure, ts: seq<Ticket>, n: nat): nat
    requires n <= |ts|
  {
    if n == 0 then 0 else TotalUpTo(m, ts, n - 1) + Weight(m, ts[n - 1])
  }

  function Total(m: Measure, ts: seq<Ticket>): nat { TotalUpTo(m, ts, |ts|) }

  function Waiters(s: Sched): seq<Ticket>
    requires QueueInRange(s)
  {
    seq(|s.queue|, i requires 0 <= i < |s.queue| => Waiter(s, i))
  }

  function QueueLimit(c: Limits, shared: bool): int {
    if shared && c.userQueue < c.keyQueue then c.userQueue else c.keyQueue
  }

  /** The reason a ticket may not join the queue, if any. */
  function QueueRefusal(s: Sched, t: Ticket): Option<Code>
    requires QueueInRange(s)
  {
    if t.shared && Total(OfShared, Waiters(s)) >= s.c.sharedQueue then Some(SharedQueueFull)
    else if Total(OfKey(t.key), Waiters(s)) >= QueueLimit(s.c, t.shared) then Some(KeyQueueFull)
    else if |s.queue| < s.c.queueSize then None
    else Some(ModelQueueFull)
  }

  function Reject(s: Sched, code: Code): Sched { s.(rejected := Inc(s.rejected, code)) }

  function Enqueue(s: Sched, id: nat): (r: Sched)
    requires QueueInRange(s) && id < |s.tickets|
    ensures QueueInRange(r) && r.tickets == s.tickets && r.c == s.c && r.wakeups == s.wakeups
  {
    match QueueRefusal(s, s.tickets[id])
    case Some(code) => Reject(s, code)
    case None => s.(queue := s.queue + [id])
  }

  // ---------------------------------------------------------------- sections

  function LimitFor(c: Limits, key: Key, override: int): int {
    var l := if 0 < Get(c.keyLimits, key) < c.capacity then c.keyLimits[key] else c.capacity;
    if 0 < override < l then override else l
  }

  function NewTicket(c: Limits, key: Key, override: int, model: Model, bytes: nat): Ticket {
    Ticket(key, if c.unlimited then 0 else LimitFor(c, key, override), IsShared(key), model,
           if c.unlimited then 0 else bytes, true, c.unlimited, false, false, None, None, false, None)
  }

  predicate OverBudget(c: Limits, key: Key, bytes: nat) {
    bytes > c.bufferBudget || (IsShared(key) && bytes > c.sharedBufferBudget)
  }

  function Append(s: Sched, t: Ticket): (r: Sched)
    ensures r.queue == s.queue && |r.tickets| == |s.tickets| + 1 && r.c == s.c
  {
    s.(tickets := s.tickets + [t])
  }

  /** acquireWithBudget up to the point where it starts waiting. */
  function Acquire(s: Sched, key: Key, override: int, model: Model, bytes: nat): (r: Sched)
    requires QueueInRange(s)
    ensures QueueInRange(r) && |s.tickets| <= |r.tickets| <= |s.tickets| + 1 && r.c == s.c
  {
    var t := NewTicket(s.c, key, override, model, bytes);
    if s.c.unlimited then
      var s1 := Append(s, t);
      s1.(active := s.active + 1, byKey := Inc(s.byKey, key),
          sharedActive := if t.shared then s.sharedActive + 1 else s.sharedActive,
          byModel := if t.shared then Inc(s.byModel, model) else s.byModel)
    else if OverBudget(s.c, key, bytes) then s
    else
      var s1 := Append(Dispatch(s), t);
      var id := |s1.tickets| - 1;
      if s1.active < s1.c.capacity && Room(s1, t) then Start(s1, id)
      else Enqueue(s1, id)
  }

  predicate Bindable(s: Sched, id: nat)
    requires id < |s.tickets|
  {
    !s.tickets[id].released && (s.c.unlimited || s.tickets[id].running)
  }

  /** First half of a rebind: every permit goes back, the wish is recorded. */
  function Yield(s: Sched, id: nat, choose: Chooser): (r: Sched)
    requires id < |s.tickets|
    ensures r.queue == s.queue && |r.tickets| == |s.tickets| && r.c == s.c && r.wakeups == s.wakeups
  {
    var s1 := Stop(ReleaseBuffer(ReleaseAccount(s, id), id), id);
    s1.(tickets := s1.tickets[id := s1.tickets[id].(chooser := Some(choose), account := None, selectionErr := None)])
  }

  /** Second half: try at once, else wait; a chooser refusal ends the attempt. */
  function Retake(s: Sched, id: nat, choose: Chooser): (r: Sched)
    requires QueueInRange(s) && id < |s.tickets|
    ensures QueueInRange(r) && |r.tickets| == |s.tickets| && r.c == s.c
  {
    var t := s.tickets[id];
    if s.active < s.c.capacity && Room(s, t) then
      var choice := choose(BusyAccounts(s));
      var s1 := s.(tickets := s.tickets[id := Chosen(t, choice)]);
      if choice.Refused? then s1
      else if choice.Free? then Signal(Start(s1, id))
      else if QueueRefusal(s1, s1.tickets[id]).Some? then Enqueue(s1, id)
      else Signal(Enqueue(s1, id))
    else if QueueRefusal(s, t).Some? then Enqueue(s, id)
    else Signal(Enqueue(s, id))
  }

  /** bindProviderAccount up to the point where it starts waiting. */
  function Bind(s: Sched, id: nat, choose: Chooser): (r: Sched)
    requires QueueInRange(s) && id < |s.tickets|
    ensures QueueInRange(r) && |r.tickets| == |s.tickets| && r.c == s.c
  {
    if !Bindable(s, id) then s
    else if s.c.unlimited then
      match choose({})
      case Free(a) =>
        var s1 := ReleaseAccount(s, id);
        s1.(tickets := s1.tickets[id := s1.tickets[id].(account := Some(a), accountHeld := true)],
            byAccount := Inc(s1.byAccount, a))
      case _ => s
    else
      var s1 := Yield(s, id, choose);
      Retake(Dispatch(s1), id, choose)
  }

  /** throttle before the upstream wait: park in the queue, not ready. */
  function Park(s: Sched, id: nat): (r: Sched)
    requires QueueInRange(s) && id < |s.tickets|
    ensures QueueInRange(r) && |r.tickets| == |s.tickets| && r.c == s.c
  {
    if s.c.unlimited || s.tickets[id].released || !s.tickets[id].running then s
    else if QueueRefusal(s, s.tickets[id]).Some? then Enqueue(s, id)
    else
      var s1 := s.(tickets := s.tickets[id := s.tickets[id].(ready := false)]);
      Dispatch(Stop(Enqueue(s1, id), id))
  }

  /** throttle after a successful upstream wait. */
  function Unpark(s: Sched, id: nat): (r: Sched)
    requires QueueInRange(s) && id < |s.tickets|
    ensures QueueInRange(r) && |r.tickets| == |s.tickets| && r.c == s.c
  {
    if s.c.unlimited then s
    else Dispatch(s.(tickets := s.tickets[id := s.tickets[id].(ready := true)]))
  }

  /** await giving up: the wait budget is spent (`timeout`) or the caller left. */
  function GiveUp(s: Sched, id: nat, timeout: bool): (r: Sched)
    requires QueueInRange(s) && id < |s.tickets|
    ensures QueueInRange(r) && |r.tickets| == |s.tickets| && r.c == s.c
  {
    if s.c.unlimited || (timeout && s.tickets[id].running) then s
    else
      var s1 := if timeout then Reject(s, ModelQueueTimeout) else s;
      Dispatch(Remove(s1, id))
  }

  function Release(s: Sched, id: nat): (r: Sched)
    requires QueueInRange(s) && id < |s.tickets|
    ensures QueueInRange(r) && |r.tickets| == |s.tickets| && r.c == s.c
  {
    if s.tickets[id].released then s
    else
      var s1 := s.(tickets := s.tickets[id := s.tickets[id].(released := true)]);
      Dispatch(Remove(s1, id))
  }
}
