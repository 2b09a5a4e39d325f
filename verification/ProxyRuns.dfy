/** What the bindings of internal/opencode/pool.go keep over failures and
    recoveries in any order. */
module ProxyRuns {
  import opened ProxyPool

  // ------------------------------------------------------------------ balance

  /** Loads of any two eligible proxies differ by at most k. */
  predicate Gap(healthy: seq<bool>, failed: nat, bound: seq<nat>, k: nat) {
    forall a, b :: 0 <= a < |healthy| && 0 <= b < |healthy|
                   && Eligible(healthy, failed, a) && Eligible(healthy, failed, b) ==>
      Load(bound, a) <= Load(bound, b) + k
  }

  lemma {:induction false} GapUpTo(healthy: seq<bool>, failed: nat, before: seq<nat>, after: seq<nat>, k: nat, n: nat)
    requires Rebound(healthy, failed, before, after) && k >= 1 && n <= |before|
    requires Gap(healthy, failed, before, k)
    ensures Gap(healthy, failed, Halfway(before, after, n), k)
    decreases n
  {
    if n == 0 {
      assert Halfway(before, after, 0) == before;
    } else {
      GapUpTo(healthy, failed, before, after, k, n - 1);
      var was, now := Halfway(before, after, n - 1), Halfway(before, after, n);
      assert now == was[n - 1 := after[n - 1]];
      if before[n - 1] != failed {
        assert now == was;
      } else {
        forall a, b | 0 <= a < |healthy| && 0 <= b < |healthy|
                      && Eligible(healthy, failed, a) && Eligible(healthy, failed, b)
          ensures Load(now, a) <= Load(now, b) + k
        {
          LoadAfterMove(was, n - 1, after[n - 1], a);
          LoadAfterMove(was, n - 1, after[n - 1], b);
        }
      }
    }
  }

  /** Rebinding empties the failed proxy and keeps the eligible ones as balanced as
      they were, or within one key of each other. */
  lemma RebindEmptiesAndBalances(healthy: seq<bool>, failed: nat, before: seq<nat>, after: seq<nat>, k: nat)
    requires Rebound(healthy, failed, before, after) && failed < |healthy|
    requires Gap(healthy, failed, before, k)
    ensures Load(after, failed) == 0
    ensures Gap(healthy, failed, after, if k > 1 then k else 1)
  {
    forall j | 0 <= j < |after| ensures after[j] != failed {
      if before[j] == failed {
        assert Replacement(healthy, failed, Halfway(before, after, j), after[j]);
      }
    }
    assert failed !in after;
    var m := if k > 1 then k else 1;
    assert Gap(healthy, failed, before, m);
    GapUpTo(healthy, failed, before, after, m, |before|);
    assert Halfway(before, after, |before|) == after;
  }

  /** The first n keys dealt out in turn. */
  function Dealt(keys: nat, proxies: nat): (r: seq<nat>)
    requires proxies > 0
    ensures |r| == keys
  {
    seq(keys, j requires 0 <= j < keys => j % proxies)
  }

  lemma {:induction false} DealtLoad(keys: nat, proxies: nat) returns (rounds: nat)
    requires proxies > 0
    ensures forall i: nat :: i < proxies ==>
              Load(Dealt(keys, proxies), i) == rounds + (if i < keys % proxies then 1 else 0)
    decreases keys
  {
    if keys == 0 {
      assert Dealt(0, proxies) == [];
      return 0;
    }
    rounds := DealtLoad(keys - 1, proxies);
    var last := (keys - 1) % proxies;
    DealtNext(keys, proxies);
    NextRemainder(keys - 1, proxies);
    hide Dealt, Load;
    forall i: nat | i < proxies
      ensures Load(Dealt(keys, proxies), i) == rounds + (if i <= last then 1 else 0)
    {
      LoadAppend(Dealt(keys - 1, proxies), last, i);
    }
    if last == proxies - 1 {
      rounds := rounds + 1;
    }
  }

  lemma DealtNext(keys: nat, proxies: nat)
    requires proxies > 0 && keys > 0
    ensures Dealt(keys, proxies) == Dealt(keys - 1, proxies) + [(keys - 1) % proxies]
  {
  }

  lemma TimesAtLeast(m: int, b: int, d: nat)
    requires m >= b
    ensures m * d >= b * d
  {
    assert (m - b) * d >= 0;
    assert m * d == (m - b) * d + b * d;
  }

  lemma NextRemainder(n: nat, d: nat)
    requires d > 0
    ensures (n + 1) % d == if n % d == d - 1 then 0 else n % d + 1
  {
    var q, q', r, r' := n / d, (n + 1) / d, n % d, (n + 1) % d;
    var m := q' - q;
    assert m * d == q' * d - q * d;
    assert m * d == r + 1 - r';
    if m >= 2 {
      TimesAtLeast(m, 2, d);
    } else if m <= -1 {
      TimesAtLeast(-1, m, d);
    }
  }

  /** From a fresh pool the first failure leaves the other proxies within one key of
      each other. */
  lemma FirstFailureStaysBalanced(keys: nat, healthy: seq<bool>, failed: nat, after: seq<nat>)
    requires |healthy| > 0 && failed < |healthy| && Rebound(healthy, failed, Dealt(keys, |healthy|), after)
    ensures Gap(healthy, failed, after, 1) && Load(after, failed) == 0
  {
    var rounds := DealtLoad(keys, |healthy|);
    assert forall i: nat :: i < |healthy| ==> rounds <= Load(Dealt(keys, |healthy|), i) <= rounds + 1;
    RebindEmptiesAndBalances(healthy, failed, Dealt(keys, |healthy|), after, 1);
  }

  // --------------------------------------------------------------------- runs

  /** Failures carry the bindings they lead to, since ties are broken at random. */
  datatype Event = Fail(proxy: nat, after: seq<nat>) | Recover(proxy: nat)

  /** The bindings and the proxies currently marked unhealthy. */
  datatype Pool = Pool(bound: seq<nat>, down: set<nat>)

  function Health(proxies: nat, down: set<nat>): seq<bool> { seq(proxies, i => i !in down) }

  /** A failing proxy is marked before its keys move, a recovered one before they
      come back. */
  predicate Legal(proxies: nat, preferred: seq<nat>, p: Pool, e: Event) {
    && e.proxy < proxies && |p.bound| == |preferred|
    && (e.Fail? ==>
          if proxies >= 2 then Rebound(Health(proxies, p.down + {e.proxy}), e.proxy, p.bound, e.after)
          else e.after == p.bound)
  }

  function Next(preferred: seq<nat>, p: Pool, e: Event): Pool
    requires |p.bound| == |preferred|
  {
    match e
    case Fail(f, after) => Pool(after, p.down + {f})
    case Recover(r) => Pool(Restored(preferred, r, p.bound), p.down - {r})
  }

  /** `p` leads to `last` through legal events. */
  predicate Leads(proxies: nat, preferred: seq<nat>, p: Pool, events: seq<Event>, last: Pool)
    decreases |events|
  {
    if |events| == 0 then p == last
    else
      && Legal(proxies, preferred, p, events[0])
      && Leads(proxies, preferred, Next(preferred, p, events[0]), events[1..], last)
  }

  /** Keys whose own proxy is up use it. */
  predicate AtHome(proxies: nat, preferred: seq<nat>, p: Pool) {
    && |p.bound| == |preferred|
    && (forall j :: 0 <= j < |preferred| ==> preferred[j] < proxies && p.bound[j] < proxies)
    && (forall j :: 0 <= j < |preferred| && preferred[j] !in p.down ==> p.bound[j] == preferred[j])
  }

  lemma NextAtHome(proxies: nat, preferred: seq<nat>, p: Pool, e: Event)
    requires AtHome(proxies, preferred, p) && Legal(proxies, preferred, p, e)
    ensures AtHome(proxies, preferred, Next(preferred, p, e))
  {
    if e.Fail? && proxies >= 2 {
      forall j | 0 <= j < |preferred|
        ensures e.after[j] < proxies && (preferred[j] !in p.down + {e.proxy} ==> e.after[j] == preferred[j])
      {
        if p.bound[j] == e.proxy {
          assert Replacement(Health(proxies, p.down + {e.proxy}), e.proxy, Halfway(p.bound, e.after, j), e.after[j]);
        }
      }
    }
  }

  /** In every run, whatever failed and recovered in whatever order, a key whose own
      proxy is up is bound to it: recovery undoes exactly what the failure did. */
  lemma {:induction false} KeysAreAtHome(proxies: nat, preferred: seq<nat>, p: Pool, events: seq<Event>, last: Pool)
    requires AtHome(proxies, preferred, p) && Leads(proxies, preferred, p, events, last)
    ensures AtHome(proxies, preferred, last)
    decreases |events|
  {
    if |events| > 0 {
      NextAtHome(proxies, preferred, p, events[0]);
      hide AtHome, Legal;
      KeysAreAtHome(proxies, preferred, Next(preferred, p, events[0]), events[1..], last);
    }
  }

  /** Hence once every proxy is up again, in any order of recoveries, every key is
      where it started. */
  lemma AllUpMeansPreferred(proxies: nat, preferred: seq<nat>, events: seq<Event>, last: Pool)
    requires forall j :: 0 <= j < |preferred| ==> preferred[j] < proxies
    requires Leads(proxies, preferred, Pool(preferred, {}), events, last) && last.down == {}
    ensures last.bound == preferred
  {
    KeysAreAtHome(proxies, preferred, Pool(preferred, {}), events, last);
  }

  /** Even without knowing what is up: restoring every proxy once, in any order,
      returns every key. */
  lemma {:induction false} RestoringAllReturnsAll(preferred: seq<nat>, bound: seq<nat>, order: seq<nat>)
    requires |bound| == |preferred|
    ensures var r := RestoredInTurn(preferred, bound, order);
            |r| == |bound|
            && forall j :: 0 <= j < |bound| ==> r[j] == if preferred[j] in order then preferred[j] else bound[j]
    decreases |order|
  {
    if |order| > 0 {
      var once := Restored(preferred, order[0], bound);
      RestoringAllReturnsAll(preferred, once, order[1..]);
      forall j | 0 <= j < |bound|
        ensures (preferred[j] in order) <==> (preferred[j] == order[0] || preferred[j] in order[1..])
      {
        assert order == [order[0]] + order[1..];
      }
    }
  }

  function RestoredInTurn(preferred: seq<nat>, bound: seq<nat>, order: seq<nat>): seq<nat>
    requires |bound| == |preferred|
    decreases |order|
  {
    if |order| == 0 then bound else RestoredInTurn(preferred, Restored(preferred, order[0], bound), order[1..])
  }

  // ------------------------------------------------------------ dead bindings

  predicate SomeUp(proxies: nat, down: set<nat>) { exists i :: 0 <= i < proxies && i !in down }

  /** No key sits on a proxy that is down. */
  predicate NobodyStuck(p: Pool) { forall j :: 0 <= j < |p.bound| ==> p.bound[j] !in p.down }

  /** The run never has every proxy down at once. */
  predicate NeverAllDown(proxies: nat, preferred: seq<nat>, p: Pool, events: seq<Event>)
    decreases |events|
  {
    SomeUp(proxies, p.down)
    && (|events| > 0 && |p.bound| == |preferred| ==>
          NeverAllDown(proxies, preferred, Next(preferred, p, events[0]), events[1..]))
  }

  lemma NextNotStuck(proxies: nat, preferred: seq<nat>, p: Pool, e: Event)
    requires AtHome(proxies, preferred, p) && Legal(proxies, preferred, p, e) && NobodyStuck(p)
    requires SomeUp(proxies, Next(preferred, p, e).down)
    ensures NobodyStuck(Next(preferred, p, e))
  {
    if e.Fail? {
      var down := p.down + {e.proxy};
      var healthy := Health(proxies, down);
      var h :| 0 <= h < proxies && h !in down;
      assert healthy[h];
      forall j | 0 <= j < |preferred| ensures e.after[j] !in down {
        if p.bound[j] == e.proxy {
          assert Replacement(healthy, e.proxy, Halfway(p.bound, e.after, j), e.after[j]);
          assert healthy[e.after[j]];
        }
      }
    }
  }

  /** While at least one proxy is up throughout, no key is ever bound to a dead one. */
  lemma {:induction false} NoDeadBindings(proxies: nat, preferred: seq<nat>, p: Pool, events: seq<Event>, last: Pool)
    requires AtHome(proxies, preferred, p) && Leads(proxies, preferred, p, events, last)
    requires NobodyStuck(p) && NeverAllDown(proxies, preferred, p, events)
    ensures NobodyStuck(last)
    decreases |events|
  {
    if |events| > 0 {
      NextNotStuck(proxies, preferred, p, events[0]);
      NextAtHome(proxies, preferred, p, events[0]);
      hide AtHome, Legal, NobodyStuck;
      NoDeadBindings(proxies, preferred, Next(preferred, p, events[0]), events[1..], last);
    }
  }

  /** A key whose proxy is down. */
  predicate Stuck(p: Pool, j: nat)
    requires j < |p.bound|
  {
    p.bound[j] in p.down
  }

  /** What one event does to one key: its proxy failing strands it exactly when no
      proxy is left, and it is freed exactly when its own proxy or the one it sits
      on recovers. */
  lemma NextStuck(proxies: nat, preferred: seq<nat>, p: Pool, e: Event, j: nat)
    requires AtHome(proxies, preferred, p) && Legal(proxies, preferred, p, e) && j < |preferred|
    ensures var q := Next(preferred, p, e);
      |q.bound| == |preferred|
      && (Stuck(q, j) <==>
            match e
            case Fail(f, _) => if p.bound[j] == f then !SomeUp(proxies, q.down) else Stuck(p, j)
            case Recover(r) => Stuck(p, j) && preferred[j] != r && p.bound[j] != r)
      && (q.bound[j] != p.bound[j] ==> e == Recover(preferred[j]) || (e.Fail? && e.proxy == p.bound[j]))
  {
    var q := Next(preferred, p, e);
    if e.Fail? && p.bound[j] == e.proxy && proxies >= 2 {
      var healthy := Health(proxies, q.down);
      assert Replacement(healthy, e.proxy, Halfway(p.bound, e.after, j), e.after[j]);
      if SomeUp(proxies, q.down) {
        var h :| 0 <= h < proxies && h !in q.down;
        assert healthy[h] && h != e.proxy;
        assert healthy[e.after[j]];
      }
    }
  }

  /** With every proxy down, the first recovery leaves nobody stuck exactly when
      every key prefers, or sits on, the proxy that recovers. */
  lemma FirstRecoveryAfterOutage(proxies: nat, preferred: seq<nat>, p: Pool, r: nat)
    requires AtHome(proxies, preferred, p) && r < proxies && !SomeUp(proxies, p.down)
    ensures NobodyStuck(Next(preferred, p, Recover(r))) <==>
              forall j :: 0 <= j < |preferred| ==> preferred[j] == r || p.bound[j] == r
  {
    var q := Next(preferred, p, Recover(r));
    forall j | 0 <= j < |preferred| ensures Stuck(q, j) <==> preferred[j] != r && p.bound[j] != r {
      NextStuck(proxies, preferred, p, Recover(r), j);
    }
    assert forall j :: 0 <= j < |preferred| ==> (q.bound[j] in q.down <==> Stuck(q, j));
  }

  /** Nothing happens to the proxy the key prefers or to the one it sits on. */
  predicate Untouched(events: seq<Event>, home: nat, seat: nat) {
    forall i :: 0 <= i < |events| ==>
      events[i] != Recover(home) && events[i].proxy != seat
  }

  /** At some moment every proxy is down, and from then on nothing happens to the
      key's own proxy or to the one it sits on at that moment. */
  predicate StrandedIn(proxies: nat, preferred: seq<nat>, p: Pool, events: seq<Event>, j: nat)
    requires j < |preferred| == |p.bound|
    decreases |events|
  {
    || (!SomeUp(proxies, p.down) && Untouched(events, preferred[j], p.bound[j]))
    || (|events| > 0 && |Next(preferred, p, events[0]).bound| == |preferred|
        && StrandedIn(proxies, preferred, Next(preferred, p, events[0]), events[1..], j))
  }

  lemma UntouchedFrom(e: Event, rest: seq<Event>, home: nat, seat: nat)
    ensures Untouched([e] + rest, home, seat) <==>
              e != Recover(home) && e.proxy != seat && Untouched(rest, home, seat)
  {
    var events := [e] + rest;
    assert forall i :: 0 <= i < |rest| ==> events[i + 1] == rest[i];
    assert events[0] == e;
  }

  lemma {:induction false} StuckIff(
    proxies: nat, preferred: seq<nat>, p: Pool, events: seq<Event>, last: Pool, j: nat)
    requires AtHome(proxies, preferred, p) && Leads(proxies, preferred, p, events, last) && j < |preferred|
    ensures |last.bound| == |preferred|
    ensures Stuck(last, j) <==>
              || (Stuck(p, j) && Untouched(events, preferred[j], p.bound[j]))
              || StrandedIn(proxies, preferred, p, events, j)
    decreases |events|
  {
    if |events| > 0 {
      var q := Next(preferred, p, events[0]);
      NextStuck(proxies, preferred, p, events[0], j);
      NextAtHome(proxies, preferred, p, events[0]);
      StuckIff(proxies, preferred, q, events[1..], last, j);
      assert events == [events[0]] + events[1..];
      UntouchedFrom(events[0], events[1..], preferred[j], p.bound[j]);
    }
  }

  /** The exact condition, for every key of every pool in every run from the start:
      the key ends on a dead proxy if and only if at some moment all proxies were
      down and its own proxy has not recovered since, nor has anything happened to
      the proxy it sat on. */
  lemma KeyStuckIff(proxies: nat, preferred: seq<nat>, events: seq<Event>, last: Pool, j: nat)
    requires forall i :: 0 <= i < |preferred| ==> preferred[i] < proxies
    requires Leads(proxies, preferred, Pool(preferred, {}), events, last) && j < |preferred|
    ensures |last.bound| == |preferred|
    ensures last.bound[j] in last.down <==> StrandedIn(proxies, preferred, Pool(preferred, {}), events, j)
  {
    StuckIff(proxies, preferred, Pool(preferred, {}), events, last, j);
  }

  /** An instance of it: the first proxy to recover fetches only its own keys, and a
      key of the other stays on a proxy that is down. */
  lemma TotalOutageLeavesKeysStuck() returns (events: seq<Event>, last: Pool)
    ensures Leads(2, [0, 1], Pool([0, 1], {}), events, last)
    ensures SomeUp(2, last.down) && !NobodyStuck(last)
  {
    var home := [0, 1];
    var p0, p1, p2 := Pool(home, {}), Pool([1, 1], {0}), Pool([0, 0], {0, 1});
    last := Pool(home, {0});
    OutageStep(home, p0, 0, 1);
    OutageStep(home, p1, 1, 0);
    OutageStates(home);
    hide Legal, Next, SomeUp, NobodyStuck;
    events := [];
    assert Leads(2, home, last, events, last);
    hide Leads;
    LeadsOn(2, home, p2, Recover(1), events, last);
    events := [Recover(1)] + events;
    LeadsOn(2, home, p1, Fail(1, [0, 0]), events, last);
    events := [Fail(1, [0, 0])] + events;
    LeadsOn(2, home, p0, Fail(0, [1, 1]), events, last);
    events := [Fail(0, [1, 1])] + events;
  }

  lemma OutageStates(home: seq<nat>)
    requires home == [0, 1]
    ensures Next(home, Pool(home, {}), Fail(0, [1, 1])) == Pool([1, 1], {0})
    ensures Next(home, Pool([1, 1], {0}), Fail(1, [0, 0])) == Pool([0, 0], {0, 1})
    ensures Next(home, Pool([0, 0], {0, 1}), Recover(1)) == Pool(home, {0})
    ensures Legal(2, home, Pool([0, 0], {0, 1}), Recover(1))
    ensures SomeUp(2, {0}) && !NobodyStuck(Pool(home, {0}))
  {
    assert Restored(home, 1, [0, 0]) == home;
    assert 1 !in {0} && Pool(home, {0}).bound[0] in {0};
  }

  lemma LeadsOn(proxies: nat, preferred: seq<nat>, p: Pool, e: Event, rest: seq<Event>, last: Pool)
    requires Legal(proxies, preferred, p, e) && Leads(proxies, preferred, Next(preferred, p, e), rest, last)
    ensures Leads(proxies, preferred, p, [e] + rest, last)
  {
    assert ([e] + rest)[1..] == rest;
  }

  /** With two proxies and two keys, everything on the failed one moves to the other. */
  lemma OutageStep(home: seq<nat>, p: Pool, failed: nat, other: nat)
    requires |home| == 2 && failed < 2 && other < 2 && failed != other && |p.bound| == 2
    requires forall j :: 0 <= j < 2 ==> p.bound[j] == failed || p.bound[j] == other
    ensures Legal(2, home, p, Fail(failed, [other, other]))
  {
    hide Load;
    var h := Health(2, p.down + {failed});
    forall i | 0 <= i < 2 ensures Eligible(h, failed, i) <==> i == other {}
  }

  // ------------------------------------------------------------------ cursors

  class NodeCursor {
    const nodes: nat
    var next: nat

    constructor (nodes: nat, start: nat)
      requires nodes > 0 ==> start < nodes
      ensures this.nodes == nodes && next == start
    {
      this.nodes, next := nodes, start;
    }

    /** nodeCursor.Next: the first key in cyclic order that is not cooling down, or
        else the first of those whose cooldown ends earliest; the next call starts
        after it. */
    method Next(until: seq<int>, now: int) returns (choice: Option<nat>, ghost place: nat)
      requires |until| == nodes && (nodes > 0 ==> next < nodes)
      modifies this`next
      ensures nodes == 0 ==> choice.None? && next == old(next)
      ensures nodes > 0 ==>
                && place < nodes && Chosen(until, now, old(next), place)
                && choice == Some(At(old(next), place, nodes)) && next == At(old(next), place + 1, nodes)
    {
      place := 0;
      if nodes == 0 {
        return None, 0;
      }
      var found := Scan(until, now, next);
      place := found;
      Wraps(next + found, nodes);
      choice := Some((next + found) % nodes);
      Wraps(choice.value + 1, nodes);
      next := (choice.value + 1) % nodes;
    }
  }

  method Scan(until: seq<int>, now: int, start: nat) returns (found: nat)
    requires start < |until|
    ensures found < |until| && Chosen(until, now, start, found)
  {
    found := 0;
    var n := |until|;
    var offset := 0;
    while offset < n
      invariant offset <= n && found < n && (offset > 0 ==> found < offset)
      invariant forall k :: 0 <= k < offset ==> Later(until, now, start, k)
      invariant forall k :: 0 <= k < offset ==> until[At(start, found, n)] <= until[At(start, k, n)]
      invariant forall k :: 0 <= k < found ==> until[At(start, found, n)] < until[At(start, k, n)]
    {
      Wraps(start + offset, n);
      Wraps(start + found, n);
      var i := (start + offset) % n;
      if until[i] <= now {
        return offset;
      }
      if offset == 0 || until[i] < until[(start + found) % n] {
        found := offset;
      }
      offset := offset + 1;
    }
    assert Later(until, now, start, found);
  }

  /** The k-th key from `start` is still cooling down. */
  predicate Later(until: seq<int>, now: int, start: nat, k: nat)
    requires start < |until| && k < |until|
  {
    until[At(start, k, |until|)] > now
  }

  /** The k-th place after `start`, going round. */
  function At(start: nat, k: nat, nodes: nat): (r: nat)
    requires start < nodes && k <= nodes
    ensures r < nodes && r == (start + k) % nodes
  {
    Wraps(start + k, nodes);
    if start + k < nodes then start + k else start + k - nodes
  }

  lemma Wraps(n: nat, d: nat)
    requires d > 0 && n < 2 * d
    ensures n % d == if n < d then n else n - d
  {
    var q := n / d;
    assert q * d + n % d == n;
    if q >= 2 {
      TimesAtLeast(q, 2, d);
    } else if q <= -1 {
      TimesAtLeast(-1, q, d);
    }
  }

  /** The k-th key from `start` is the cursor's choice. */
  predicate Chosen(until: seq<int>, now: int, start: nat, k: nat)
    requires start < |until| && k < |until|
  {
    var n := |until|;
    if !Later(until, now, start, k) then forall j :: 0 <= j < k ==> Later(until, now, start, j)
    else
      && (forall j :: 0 <= j < n ==> Later(until, now, start, j))
      && (forall j :: 0 <= j < n ==> until[At(start, k, n)] <= until[At(start, j, n)])
      && (forall j :: 0 <= j < k ==> until[At(start, k, n)] < until[At(start, j, n)])
  }

  /** When some key is ready the choice is ready, and no key from the start up to it
      is; when none is, nobody is ready sooner, nor as soon and nearer the start. */
  lemma ChosenIsFirstReady(until: seq<int>, now: int, start: nat, k: nat)
    requires start < |until| && k < |until| && Chosen(until, now, start, k)
    ensures var n := |until|;
      var soonest := until[(start + k) % n];
      if exists i :: 0 <= i < n && until[i] <= now then
        soonest <= now && forall j :: 0 <= j < k ==> until[At(start, j, n)] > now
      else
        && (forall i :: 0 <= i < n ==> soonest <= until[i])
        && forall j :: 0 <= j < k ==> soonest < until[At(start, j, n)]
  {
    var n := |until|;
    assert At(start, k, n) == (start + k) % n;
    forall i | 0 <= i < n
      ensures until[At(start, k, n)] > now ==> until[At(start, k, n)] <= until[i] && until[i] > now
    {
      var j := if start <= i then i - start else i + n - start;
      assert At(start, j, n) == i;
      assert Later(until, now, start, k) ==> Later(until, now, start, j);
    }
    forall j | 0 <= j < k
      ensures if until[At(start, k, n)] <= now then until[At(start, j, n)] > now
              else until[At(start, k, n)] < until[At(start, j, n)]
    {
      assert Later(until, now, start, k) || Later(until, now, start, j);
    }
  }

  class AnonymousCursor {
    const nodes: nat
    const start: nat
    var offset: nat

    constructor (nodes: nat, start: nat)
      requires nodes > 0 ==> start < nodes
      ensures this.nodes == nodes && this.start == start && offset == 0
    {
      this.nodes, this.start, offset := nodes, start, 0;
    }

    /** anonymousCursor.Next: the next proxy in turn that is healthy and not cooling
        down; a proxy that was passed over or returned is not looked at again. */
    method Next(usable: seq<bool>) returns (choice: Option<nat>)
      requires |usable| == nodes && offset <= nodes && (nodes > 0 ==> start < nodes)
      modifies this`offset
      ensures old(offset) <= offset <= nodes
      ensures nodes > 0 ==> (choice, offset) == Visit(usable, start, old(offset))
      ensures nodes == 0 ==> choice.None?
    {
      if nodes == 0 {
        return None;
      }
      while offset < nodes
        invariant old(offset) <= offset <= nodes
        invariant Visit(usable, start, old(offset)) == Visit(usable, start, offset)
      {
        var i := (start + offset) % nodes;
        Wraps(start + offset, nodes);
        offset := offset + 1;
        if usable[i] {
          return Some(i);
        }
      }
      choice := None;
    }
  }

  function Visit(usable: seq<bool>, start: nat, offset: nat): (Option<nat>, nat)
    requires start < |usable| && offset <= |usable|
    decreases |usable| - offset
  {
    if offset == |usable| then (None, offset)
    else if usable[At(start, offset, |usable|)] then (Some(At(start, offset, |usable|)), offset + 1)
    else Visit(usable, start, offset + 1)
  }

  lemma {:induction false} VisitMovesOn(usable: seq<bool>, start: nat, offset: nat)
    requires start < |usable| && offset <= |usable|
    ensures var (choice, after) := Visit(usable, start, offset);
            && offset <= after <= |usable|
            && (choice.Some? ==>
                  offset < after && choice.value == At(start, after - 1, |usable|) && usable[choice.value])
            && (choice.None? ==> after == |usable|)
            && (forall k :: offset <= k < after && (choice.Some? ==> k < after - 1) ==> !usable[At(start, k, |usable|)])
    decreases |usable| - offset
  {
    if offset < |usable| && !usable[At(start, offset, |usable|)] {
      VisitMovesOn(usable, start, offset + 1);
    }
  }

  predicate AllSized(rounds: seq<seq<bool>>, nodes: nat)
    decreases |rounds|
  {
    |rounds| > 0 ==> |rounds[0]| == nodes && AllSized(rounds[1..], nodes)
  }

  /** The places a cursor stops at over its life; health may change between calls. */
  function Stops(nodes: nat, rounds: seq<seq<bool>>, start: nat, offset: nat): seq<nat>
    requires start < nodes && offset <= nodes && AllSized(rounds, nodes)
    decreases |rounds|
  {
    if |rounds| == 0 then []
    else
      VisitMovesOn(rounds[0], start, offset);
      var (choice, after) := Visit(rounds[0], start, offset);
      (if choice.Some? then [after - 1] else []) + Stops(nodes, rounds[1..], start, after)
  }

  predicate Increasing(s: seq<nat>, low: nat, high: nat) {
    && (forall i :: 0 <= i < |s| ==> low <= s[i] < high)
    && (forall i, j :: 0 <= i < j < |s| ==> s[i] < s[j])
  }

  lemma IncreasingLater(rest: seq<nat>, low: nat, from: nat, high: nat)
    requires low <= from && Increasing(rest, from, high)
    ensures Increasing([] + rest, low, high)
  {
    assert [] + rest == rest;
  }

  lemma IncreasingFrom(first: nat, rest: seq<nat>, low: nat, high: nat)
    requires low <= first < high && Increasing(rest, first + 1, high)
    ensures Increasing([first] + rest, low, high)
  {
  }

  /** The places still to come after one call. */
  lemma StopsUnfold(nodes: nat, rounds: seq<seq<bool>>, start: nat, offset: nat)
    requires start < nodes && offset <= nodes && AllSized(rounds, nodes) && |rounds| > 0
    ensures var (choice, after) := Visit(rounds[0], start, offset);
      && offset <= after <= nodes && (choice.Some? ==> offset < after)
      && Stops(nodes, rounds, start, offset)
           == (if choice.Some? then [after - 1] else []) + Stops(nodes, rounds[1..], start, after)
  {
    VisitMovesOn(rounds[0], start, offset);
    hide Visit;
  }

  lemma {:induction false} StopsIncrease(nodes: nat, rounds: seq<seq<bool>>, start: nat, offset: nat)
    requires start < nodes && offset <= nodes && AllSized(rounds, nodes)
    ensures Increasing(Stops(nodes, rounds, start, offset), offset, nodes)
    decreases |rounds|
  {
    if |rounds| > 0 {
      StopsUnfold(nodes, rounds, start, offset);
      var (choice, after) := Visit(rounds[0], start, offset);
      hide Visit, Stops;
      StopsIncrease(nodes, rounds[1..], start, after);
      var rest := Stops(nodes, rounds[1..], start, after);
      if choice.Some? {
        IncreasingFrom(after - 1, rest, offset, nodes);
      } else {
        IncreasingLater(rest, offset, after, nodes);
      }
    }
  }

  /** A cursor returns each anonymous proxy at most once, however often it is asked
      and however health changes in between. */
  lemma EachProxyAtMostOnce(nodes: nat, rounds: seq<seq<bool>>, start: nat)
    requires start < nodes && AllSized(rounds, nodes)
    ensures var s := Stops(nodes, rounds, start, 0);
            && |s| <= nodes
            && (forall i :: 0 <= i < |s| ==> s[i] < nodes)
            && (forall i, j :: 0 <= i < j < |s| ==> At(start, s[i], nodes) != At(start, s[j], nodes))
  {
    StopsIncrease(nodes, rounds, start, 0);
    var s := Stops(nodes, rounds, start, 0);
    DistinctBounded(s, nodes);
  }

  lemma {:induction false} DistinctBounded(v: seq<nat>, n: nat)
    requires forall i :: 0 <= i < |v| ==> v[i] < n
    requires forall i, j :: 0 <= i < j < |v| ==> v[i] != v[j]
    ensures |v| <= n
    decreases n
  {
    assert |v| > 0 ==> v[0] < n;
    if n > 0 {
      if k :| 0 <= k < |v| && v[k] == n - 1 {
        var w := v[..k] + v[k + 1..];
        DistinctBounded(w, n - 1);
      } else {
        DistinctBounded(v, n - 1);
      }
    }
  }
}
