/** The key and proxy bindings of internal/opencode/pool.go: every key prefers one
    proxy, moves to a least-loaded one when its proxy fails, and comes back when it
    recovers; a load index is kept beside the bindings. */
module ProxyPool {

  datatype Option<+T> = None | Some(value: T)

  /** How many keys are bound to proxy i. */
  function Load(bound: seq<nat>, i: nat): nat { multiset(bound)[i] }

  lemma LoadAfterMove(bound: seq<nat>, j: nat, target: nat, i: nat)
    requires j < |bound|
    ensures Load(bound[j := target], i)
         == Load(bound, i) - (if i == bound[j] then 1 else 0) + (if i == target then 1 else 0)
  {
    assert bound[j] in multiset(bound);
    assert multiset(bound[j := target]) == multiset(bound) - multiset{bound[j]} + multiset{target};
  }

  lemma LoadOfNobody(bound: seq<nat>)
    ensures forall i :: Load(bound[..0], i) == 0
  {
  }

  lemma LoadAppend(bound: seq<nat>, target: nat, i: nat)
    ensures Load(bound + [target], i) == Load(bound, i) + (if i == target then 1 else 0)
  {
  }

  /** Proxies a key may move to: the other healthy ones, or all others when none is. */
  predicate Eligible(healthy: seq<bool>, failed: nat, i: nat) {
    && i < |healthy| && i != failed
    && ((exists h :: 0 <= h < |healthy| && h != failed && healthy[h]) ==> healthy[i])
  }

  /** What one search looks at. */
  predicate Allowed(healthy: seq<bool>, failed: nat, healthyOnly: bool, i: nat) {
    i < |healthy| && i != failed && (healthyOnly ==> healthy[i])
  }

  /** A least-loaded eligible proxy. */
  predicate Replacement(healthy: seq<bool>, failed: nat, bound: seq<nat>, target: nat) {
    && Eligible(healthy, failed, target)
    && forall i :: 0 <= i < |healthy| && Eligible(healthy, failed, i) ==> Load(bound, target) <= Load(bound, i)
  }

  /** With two proxies or more there is always somewhere to go. */
  lemma ReplacementExists(healthy: seq<bool>, failed: nat, bound: seq<nat>)
    requires |healthy| >= 2
    ensures exists target :: Replacement(healthy, failed, bound, target)
  {
    var other := if failed == 0 then 1 else 0;
    var best := other;
    if h :| 0 <= h < |healthy| && h != failed && healthy[h] {
      best := h;
    }
    for i := 0 to |healthy|
      invariant Eligible(healthy, failed, best)
      invariant forall k :: 0 <= k < i && Eligible(healthy, failed, k) ==> Load(bound, best) <= Load(bound, k)
    {
      if Eligible(healthy, failed, i) && Load(bound, i) < Load(bound, best) {
        best := i;
      }
    }
    assert Replacement(healthy, failed, bound, best);
  }

  /** The bindings when key j is reached: those before it moved already. */
  function Halfway(before: seq<nat>, after: seq<nat>, j: nat): seq<nat>
    requires |before| == |after| && j <= |before|
  {
    after[..j] + before[j..]
  }

  /** RebindProxy after its first n keys: keys of other proxies stayed, each key of
      the failed one moved to a replacement chosen under the loads of its moment,
      and the later keys are untouched. */
  predicate ReboundUpTo(healthy: seq<bool>, failed: nat, before: seq<nat>, after: seq<nat>, n: nat) {
    && |after| == |before| && n <= |before|
    && (forall j :: 0 <= j < |before| && (before[j] != failed || n <= j) ==> after[j] == before[j])
    && (forall j :: 0 <= j < n && before[j] == failed ==>
          Replacement(healthy, failed, Halfway(before, after, j), after[j]))
  }

  /** What RebindProxy does. */
  predicate Rebound(healthy: seq<bool>, failed: nat, before: seq<nat>, after: seq<nat>) {
    ReboundUpTo(healthy, failed, before, after, |before|)
  }

  lemma NothingReboundYet(healthy: seq<bool>, failed: nat, bound: seq<nat>)
    ensures ReboundUpTo(healthy, failed, bound, bound, 0) && Moved(bound, bound, 0) == 0
  {
  }

  lemma LaterKeysUntouched(healthy: seq<bool>, failed: nat, before: seq<nat>, now: seq<nat>, n: nat)
    requires ReboundUpTo(healthy, failed, before, now, n) && n < |before|
    ensures |now| == |before| && now[n] == before[n]
  {
  }

  lemma KeyStays(healthy: seq<bool>, failed: nat, before: seq<nat>, now: seq<nat>, n: nat)
    requires ReboundUpTo(healthy, failed, before, now, n) && n < |before| && before[n] != failed
    ensures ReboundUpTo(healthy, failed, before, now, n + 1)
  {
  }

  lemma KeyMoves(healthy: seq<bool>, failed: nat, before: seq<nat>, now: seq<nat>, n: nat, target: nat)
    requires ReboundUpTo(healthy, failed, before, now, n) && n < |before| && before[n] == failed
    requires Replacement(healthy, failed, now, target)
    ensures ReboundUpTo(healthy, failed, before, now[n := target], n + 1)
  {
    var after := now[n := target];
    assert Halfway(before, after, n) == now;
    forall j | 0 <= j < n && before[j] == failed
      ensures Replacement(healthy, failed, Halfway(before, after, j), after[j])
    {
      assert Halfway(before, after, j) == Halfway(before, now, j);
    }
  }

  /** A key that moved starts afresh; the others keep their failures and cooldowns. */
  predicate StartsAfresh(before: seq<nat>, after: seq<nat>, failures: seq<nat>, failures': seq<nat>,
                         cooldown: seq<int>, cooldown': seq<int>)
    requires |before| == |after| == |failures| == |failures'| == |cooldown| == |cooldown'|
  {
    forall j :: 0 <= j < |before| ==>
      (failures'[j], cooldown'[j]) == if after[j] != before[j] then (0, 0) else (failures[j], cooldown[j])
  }

  lemma OneMoreAfresh(before: seq<nat>, now: seq<nat>, failures: seq<nat>, failures': seq<nat>,
                      cooldown: seq<int>, cooldown': seq<int>, j: nat, target: nat)
    requires j < |before| == |now| == |failures| == |failures'| == |cooldown| == |cooldown'|
    requires before[j] != target && StartsAfresh(before, now, failures, failures', cooldown, cooldown')
    ensures StartsAfresh(before, now[j := target], failures, failures'[j := 0], cooldown, cooldown'[j := 0])
  {
  }

  /** So a key comes back with a clean record only if it moved. */
  lemma RecordsFollowMoves(before: seq<nat>, after: seq<nat>, failures: seq<nat>, failures': seq<nat>,
                           cooldown: seq<int>, cooldown': seq<int>, j: nat)
    requires j < |before| == |after| == |failures| == |failures'| == |cooldown| == |cooldown'|
    requires StartsAfresh(before, after, failures, failures', cooldown, cooldown')
    ensures after[j] != before[j] ==> failures'[j] == 0 && cooldown'[j] == 0
    ensures after[j] == before[j] ==> failures'[j] == failures[j] && cooldown'[j] == cooldown[j]
    ensures after == before ==> failures' == failures && cooldown' == cooldown
  {
    if after == before {
      assert forall k :: 0 <= k < |before| ==> failures'[k] == failures[k];
      assert forall k :: 0 <= k < |before| ==> cooldown'[k] == cooldown[k];
    }
  }

  /** How many of the first n keys changed their proxy. */
  function Moved(before: seq<nat>, after: seq<nat>, n: nat): nat
    requires n <= |before| && |after| == |before|
  {
    if n == 0 then 0 else Moved(before, after, n - 1) + if after[n - 1] != before[n - 1] then 1 else 0
  }

  lemma {:induction false} MovedSame(before: seq<nat>, after: seq<nat>, later: seq<nat>, n: nat)
    requires n <= |before| && |after| == |later| == |before| && after[..n] == later[..n]
    ensures Moved(before, after, n) == Moved(before, later, n)
  {
    if n > 0 {
      assert after[n - 1] == after[..n][n - 1] == later[..n][n - 1];
      assert after[..n - 1] == after[..n][..n - 1] == later[..n][..n - 1] == later[..n - 1];
      MovedSame(before, after, later, n - 1);
    }
  }

  lemma OneMoreMoved(before: seq<nat>, now: seq<nat>, j: nat, target: nat)
    requires j < |before| == |now| && now[j] == before[j] != target
    ensures Moved(before, now[j := target], j + 1) == Moved(before, now, j) + 1
  {
    MovedSame(before, now, now[j := target], j);
  }

  lemma SameMoved(before: seq<nat>, now: seq<nat>, j: nat)
    requires j < |before| == |now| && now[j] == before[j]
    ensures Moved(before, now, j + 1) == Moved(before, now, j)
  {
  }

  lemma {:induction false} NothingMoved(bound: seq<nat>, n: nat)
    requires n <= |bound|
    ensures Moved(bound, bound, n) == 0
  {
    if n > 0 {
      NothingMoved(bound, n - 1);
    }
  }

  /** What RestoreProxy does. */
  function Restored(preferred: seq<nat>, recovered: nat, bound: seq<nat>): (r: seq<nat>)
    requires |preferred| == |bound|
    ensures |r| == |bound|
  {
    seq(|bound|, j requires 0 <= j < |bound| => if preferred[j] == recovered then recovered else bound[j])
  }

  // ---------------------------------------------------------------- the object

  class NodePool {
    const proxies: nat
    const preferred: seq<nat>
    const bound: array<nat>
    const failures: array<nat>
    const cooldownUntil: array<int>
    const bindingCount: array<int>

    ghost predicate Valid()
      reads this, bound, failures, cooldownUntil, bindingCount
    {
      && bound.Length == failures.Length == cooldownUntil.Length == |preferred|
      && bindingCount.Length == proxies > 0
      && bound != failures
      && cooldownUntil != bindingCount
      && (forall j :: 0 <= j < |preferred| ==> preferred[j] < proxies && bound[j] < proxies)
      && (forall i :: 0 <= i < proxies ==> bindingCount[i] == Load(bound[..], i))
    }

    /** Keys are dealt out to the proxies in turn; at least one proxy is required. */
    constructor (keys: nat, proxies: nat)
      requires proxies > 0
      ensures Valid() && this.proxies == proxies && |preferred| == keys && bound[..] == preferred
      ensures forall j :: 0 <= j < keys ==> preferred[j] == j % proxies
      ensures fresh(bound) && fresh(failures) && fresh(cooldownUntil) && fresh(bindingCount)
    {
      this.proxies := proxies;
      this.preferred := seq(keys, j requires 0 <= j < keys => j % proxies);
      var b := new nat[keys](_ => 0);
      var f := new nat[keys](_ => 0);
      var c := new int[keys](_ => 0);
      var counts := new int[proxies](_ => 0);
      bound, failures, cooldownUntil, bindingCount := b, f, c, counts;
      new;
      LoadOfNobody(preferred);
      hide Load;
      for i := 0 to keys
        invariant forall j :: 0 <= j < i ==> bound[j] == preferred[j]
        invariant forall p :: 0 <= p < proxies ==> bindingCount[p] == Load(preferred[..i], p)
      {
        var proxyIndex := i % proxies;
        bound[i] := proxyIndex;
        bindingCount[proxyIndex] := bindingCount[proxyIndex] + 1;
        assert preferred[..i + 1] == preferred[..i] + [proxyIndex];
        forall p ensures Load(preferred[..i + 1], p) == Load(preferred[..i], p) + (if p == proxyIndex then 1 else 0) {
          LoadAppend(preferred[..i], proxyIndex, p);
        }
      }
      assert bound[..] == preferred[..keys] == preferred;
    }

    /** replacementLocked: -1 when nothing qualifies; ties fall anywhere, but an
        unused proxy is taken at once. */
    method ReplacementLocked(healthy: seq<bool>, failedProxy: nat, healthyOnly: bool) returns (target: Option<nat>)
      requires Valid() && |healthy| == proxies
      ensures target == None <==> forall i :: 0 <= i < proxies ==> !Allowed(healthy, failedProxy, healthyOnly, i)
      ensures target.Some? ==>
                && target.value < proxies && Allowed(healthy, failedProxy, healthyOnly, target.value)
                && forall i :: 0 <= i < proxies && Allowed(healthy, failedProxy, healthyOnly, i) ==>
                     bindingCount[target.value] <= bindingCount[i]
    {
      var candidates: set<nat> := {};
      var minimum := 0;
      for i := 0 to proxies
        invariant forall c :: c in candidates ==>
            c < i && Allowed(healthy, failedProxy, healthyOnly, c) && bindingCount[c] == minimum
        invariant forall c :: 0 <= c < i && Allowed(healthy, failedProxy, healthyOnly, c) ==>
                    candidates != {} && minimum <= bindingCount[c]
      {
        if i == failedProxy || (healthyOnly && !healthy[i]) {
          continue;
        }
        var count := bindingCount[i];
        if count == 0 {
          assert Allowed(healthy, failedProxy, healthyOnly, i);
          assert forall k :: 0 <= k < proxies ==> bindingCount[k] >= 0;
          return Some(i);
        }
        if candidates == {} || count < minimum {
          minimum, candidates := count, {i};
        } else if count == minimum {
          candidates := candidates + {i};
        }
      }
      if candidates == {} {
        return None;
      }
      var choice :| choice in candidates;
      target := Some(choice);
    }

    /** Both searches of RebindProxy for one key. */
    method Choose(healthy: seq<bool>, failedProxy: nat) returns (target: nat)
      requires Valid() && |healthy| == proxies >= 2
      ensures Replacement(healthy, failedProxy, bound[..], target)
    {
      var found := ReplacementLocked(healthy, failedProxy, true);
      if found.None? {
        found := ReplacementLocked(healthy, failedProxy, false);
        var other := if failedProxy == 0 then 1 else 0;
        assert Allowed(healthy, failedProxy, false, other);
        assert forall i :: 0 <= i < proxies && Eligible(healthy, failedProxy, i) ==>
            Allowed(healthy, failedProxy, false, i);
        forall h | 0 <= h < proxies && h != failedProxy ensures !healthy[h] {
          assert !Allowed(healthy, failedProxy, true, h);
        }
        assert Eligible(healthy, failedProxy, found.value);
      } else {
        assert Allowed(healthy, failedProxy, true, found.value);
        assert forall i :: 0 <= i < proxies && Eligible(healthy, failedProxy, i) ==>
            Allowed(healthy, failedProxy, true, i);
      }
      target := found.value;
    }

    /** One key changes its proxy, with the index. */
    method Move(j: nat, target: nat)
      requires Valid() && j < bound.Length && target < proxies && bound[j] != target
      modifies bound, failures, cooldownUntil, bindingCount
      ensures Valid()
      ensures bound[..] == old(bound[..])[j := target]
      ensures failures[..] == old(failures[..])[j := 0] && cooldownUntil[..] == old(cooldownUntil[..])[j := 0]
    {
      ghost var now := bound[..];
      bindingCount[bound[j]] := bindingCount[bound[j]] - 1;
      bindingCount[target] := bindingCount[target] + 1;
      bound[j] := target;
      failures[j], cooldownUntil[j] := 0, 0;
      assert bound[..] == now[j := target];
      forall i | 0 <= i < proxies ensures bindingCount[i] == Load(bound[..], i) {
        LoadAfterMove(now, j, target, i);
      }
    }

    /** The body of RebindProxy's loop. */
    method RebindKey(healthy: seq<bool>, failedProxy: nat, j: nat) returns (changed: bool, ghost target: nat)
      requires Valid() && |healthy| == proxies >= 2 && j < bound.Length
      modifies bound, failures, cooldownUntil, bindingCount
      ensures Valid() && changed == (old(bound[j]) == failedProxy) && target != failedProxy
      ensures bound[..] == if changed then old(bound[..])[j := target] else old(bound[..])
      ensures failures[..] == if changed then old(failures[..])[j := 0] else old(failures[..])
      ensures cooldownUntil[..] == if changed then old(cooldownUntil[..])[j := 0] else old(cooldownUntil[..])
      ensures changed ==> Replacement(healthy, failedProxy, old(bound[..]), target)
    {
      if bound[j] != failedProxy {
        return false, if failedProxy == 0 then 1 else 0;
      }
      var other := Choose(healthy, failedProxy);
      Move(j, other);
      return true, other;
    }

    /** RebindProxy: one key after the other, each under the loads left by the last. */
    method RebindProxy(healthy: seq<bool>, failedProxy: int) returns (moved: nat)
      requires Valid() && |healthy| == proxies
      modifies bound, failures, cooldownUntil, bindingCount
      ensures Valid()
      ensures proxies >= 2 && 0 <= failedProxy < proxies ==> Rebound(healthy, failedProxy, old(bound[..]), bound[..])
      ensures proxies < 2 || !(0 <= failedProxy < proxies) ==> bound[..] == old(bound[..])
      ensures moved == Moved(old(bound[..]), bound[..], |preferred|)
      ensures StartsAfresh(old(bound[..]), bound[..], old(failures[..]), failures[..], old(cooldownUntil[..]),
          cooldownUntil[..])
    {
      moved := 0;
      NothingMoved(bound[..], bound.Length);
      if proxies < 2 || failedProxy < 0 || failedProxy >= proxies {
        return;
      }
      ghost var before, marks, waits := bound[..], failures[..], cooldownUntil[..];
      NothingReboundYet(healthy, failedProxy, before);
      hide ReboundUpTo, Replacement, Load, Moved, StartsAfresh;
      for j := 0 to bound.Length
        invariant Valid()
        invariant ReboundUpTo(healthy, failedProxy, before, bound[..], j)
        invariant moved == Moved(before, bound[..], j)
        invariant StartsAfresh(before, bound[..], marks, failures[..], waits, cooldownUntil[..])
      {
        hide Valid;
        ghost var was, f, c := bound[..], failures[..], cooldownUntil[..];
        LaterKeysUntouched(healthy, failedProxy, before, was, j);
        var changed, target := RebindKey(healthy, failedProxy, j);
        if changed {
          moved := moved + 1;
          KeyMoves(healthy, failedProxy, before, was, j, target);
          OneMoreMoved(before, was, j, target);
          OneMoreAfresh(before, was, marks, f, waits, c, j, target);
        } else {
          KeyStays(healthy, failedProxy, before, was, j);
          SameMoved(before, was, j);
        }
      }
    }

    method RestoreProxy(recoveredProxy: int) returns (moved: nat)
      requires Valid()
      modifies bound, failures, cooldownUntil, bindingCount
      ensures Valid()
      ensures moved == Moved(old(bound[..]), bound[..], |preferred|)
      ensures bound[..]
           == if 0 <= recoveredProxy < proxies then Restored(preferred, recoveredProxy, old(bound[..]))
              else old(bound[..])
      ensures StartsAfresh(old(bound[..]), bound[..], old(failures[..]), failures[..], old(cooldownUntil[..]),
          cooldownUntil[..])
    {
      moved := 0;
      NothingMoved(bound[..], bound.Length);
      if recoveredProxy < 0 || recoveredProxy >= proxies {
        return;
      }
      ghost var before := bound[..];
      for j := 0 to bound.Length
        invariant Valid()
        invariant forall k :: 0 <= k < j ==>
                    bound[k] == if preferred[k] == recoveredProxy then recoveredProxy else before[k]
        invariant forall k :: j <= k < bound.Length ==> bound[k] == before[k]
        invariant moved == Moved(before, bound[..], j)
        invariant StartsAfresh(before, bound[..], old(failures[..]), failures[..], old(cooldownUntil[..]),
            cooldownUntil[..])
      {
        if preferred[j] == recoveredProxy && bound[j] != recoveredProxy {
          ghost var was := bound[..];
          Move(j, recoveredProxy);
          moved := moved + 1;
          MovedSame(before, was, bound[..], j);
        }
      }
    }
  }
}
