/** Which call a delta belongs to: the index an event gives, or else the place in the
    list, for choices and for calls alike. */
module ToolAliasPositions {
  import opened ToolAliasStream
  import opened ToolAliasWriter

  /** Choice i of an event is number n: by its own index, or by its place. */
  predicate IsChoice(c: Choice, i: nat, n: int) {
    match c.index
    case Some(given) => given == n
    case None => i == n
  }

  /** Call j of a choice is number m. */
  predicate IsCall(c: Call, j: nat, m: int) {
    match c.index
    case Some(given) => given == m
    case None => j == m
  }

  /** The functions of the calls numbered m, in order. */
  function CallsOf(calls: seq<Call>, from: nat, m: int): seq<Fn>
    requires from <= |calls|
    decreases |calls| - from
  {
    if from == |calls| then []
    else
      (if calls[from].fn.Some? && IsCall(calls[from], from, m) then [calls[from].fn.value] else [])
      + CallsOf(calls, from + 1, m)
  }

  /** The functions of all calls that name a position, in the order of the event. */
  function NamedAt(choices: seq<Choice>, from: nat, key: Key): seq<Fn>
    requires from <= |choices|
    decreases |choices| - from
  {
    if from == |choices| then []
    else
      (if IsChoice(choices[from], from, key.choice) then CallsOf(choices[from].calls, 0, key.call) else [])
      + NamedAt(choices, from + 1, key)
  }

  lemma {:induction false} DeltasConcat(a: seq<Item>, b: seq<Item>, key: Key)
    ensures Deltas(a + b, key) == Deltas(a, key) + Deltas(b, key)
    decreases |a|
  {
    if |a| == 0 {
      assert a + b == b;
    } else {
      assert (a + b)[0] == a[0] && (a + b)[1..] == a[1..] + b;
      DeltasConcat(a[1..], b, key);
      var head := if a[0].Delta? && a[0].key == key then [a[0].fn] else [];
      assert head + (Deltas(a[1..], key) + Deltas(b, key)) == head + Deltas(a[1..], key) + Deltas(b, key);
    }
  }

  lemma {:induction false} CallItemsNamed(n: int, calls: seq<Call>, from: nat, key: Key)
    requires from <= |calls|
    ensures Deltas(CallItems(n, calls, from), key) == if key.choice == n then CallsOf(calls, from, key.call) else []
    decreases |calls| - from
  {
    if from < |calls| {
      CallItemsNamed(n, calls, from + 1, key);
      var rest := CallItems(n, calls, from + 1);
      if calls[from].fn.Some? {
        assert CallItems(n, calls, from)[1..] == rest;
      } else {
        assert CallItems(n, calls, from) == rest;
      }
    }
  }

  lemma ChoiceItemsNamed(c: Choice, i: nat, key: Key)
    ensures Deltas(ChoiceItems(c, i), key) == if IsChoice(c, i, key.choice) then CallsOf(c.calls, 0, key.call) else []
  {
    var n := if c.index.Some? then c.index.value else i;
    var calls := CallItems(n, c.calls, 0);
    CallItemsNamed(n, c.calls, 0, key);
    if c.finished {
      DeltasConcat(calls, [Finish(n)], key);
      assert [Finish(n)][1..] == [];
      assert Deltas(calls, key) + [] == Deltas(calls, key);
    } else {
      assert calls + [] == calls;
    }
  }

  /** The deltas an event has for a position are exactly the calls that name it, by
      index where one is given and by place where none is, in their order. */
  lemma {:induction false} EventDeltasNamed(choices: seq<Choice>, from: nat, key: Key)
    requires from <= |choices|
    ensures Deltas(EventItems(choices, from), key) == NamedAt(choices, from, key)
    decreases |choices| - from
  {
    if from < |choices| {
      EventDeltasNamed(choices, from + 1, key);
      ChoiceItemsNamed(choices[from], from, key);
      DeltasConcat(ChoiceItems(choices[from], from), EventItems(choices, from + 1), key);
    }
  }

  lemma FinishInConcat(a: seq<Item>, b: seq<Item>, item: Item)
    ensures item in a + b <==> item in a || item in b
  {
  }

  lemma {:induction false} CallsFinishNothing(n: int, calls: seq<Call>, from: nat, m: int)
    requires from <= |calls|
    ensures Finish(m) !in CallItems(n, calls, from) && Done !in CallItems(n, calls, from)
    decreases |calls| - from
  {
    if from < |calls| {
      CallsFinishNothing(n, calls, from + 1, m);
    }
  }

  lemma ChoiceFinishes(c: Choice, i: nat, n: int)
    ensures Finish(n) in ChoiceItems(c, i) <==> c.finished && IsChoice(c, i, n)
  {
    var number := if c.index.Some? then c.index.value else i;
    CallsFinishNothing(number, c.calls, 0, n);
    hide CallItems;
    FinishInConcat(CallItems(number, c.calls, 0), if c.finished then [Finish(number)] else [], Finish(n));
  }

  /** An event finishes choice n exactly when a choice of that number has a finish
      reason. */
  lemma {:induction false} EventFinishesNamed(choices: seq<Choice>, from: nat, n: int)
    requires from <= |choices|
    ensures Finish(n) in EventItems(choices, from) <==>
              exists i :: from <= i < |choices| && choices[i].finished && IsChoice(choices[i], i, n)
    decreases |choices| - from
  {
    if from < |choices| {
      EventFinishesNamed(choices, from + 1, n);
      ChoiceFinishes(choices[from], from, n);
      hide ChoiceItems, IsChoice;
      FinishInConcat(ChoiceItems(choices[from], from), EventItems(choices, from + 1), Finish(n));
    }
  }

  /** Every call of an event arrives, at its own number. */
  lemma {:induction false} CallArrives(n: int, calls: seq<Call>, from: nat, j: nat, m: int)
    requires from <= j < |calls| && calls[j].fn.Some? && IsCall(calls[j], j, m)
    ensures Delta(Key(n, m), calls[j].fn.value) in CallItems(n, calls, from)
    decreases |calls| - from
  {
    if from < j {
      CallArrives(n, calls, from + 1, j, m);
    }
  }

  /** Two calls of one choice with different indices never share a position: what one
      position receives holds nothing of the other. */
  lemma {:induction false} ParallelCallsStayApart(calls: seq<Call>, from: nat, j: nat, m: int)
    requires from <= j < |calls| && calls[j].fn.Some? && !IsCall(calls[j], j, m)
    ensures CallsOf(calls, from, m) == CallsOf(calls[j := calls[j].(fn := None)], from, m)
    decreases |calls| - from
  {
    var others := calls[j := calls[j].(fn := None)];
    if from < j {
      ParallelCallsStayApart(calls, from + 1, j, m);
    } else {
      assert forall k :: from < k < |calls| ==> others[k] == calls[k];
      SameCalls(calls, others, from + 1, m);
    }
  }

  lemma {:induction false} SameCalls(a: seq<Call>, b: seq<Call>, from: nat, m: int)
    requires from <= |a| == |b| && forall k :: from <= k < |a| ==> a[k] == b[k]
    ensures CallsOf(a, from, m) == CallsOf(b, from, m)
    decreases |a| - from
  {
    if from < |a| {
      SameCalls(a, b, from + 1, m);
    }
  }

  /** The writer on a whole event: without a failure, each position passes on exactly
      what the calls that name it amount to, one after the other. */
  lemma EventAtPosition(t: Tables, cap: nat, st: State, choices: seq<Choice>, key: Key)
    requires !st.failed && !Run(t, cap, st, EventItems(choices, 0)).0.failed
    ensures var (last, out) := Run(t, cap, st, EventItems(choices, 0));
      var r := Feed(t, At(st.partial, key), NamedAt(choices, 0, key));
      r.Fine? && Output(out, key) == Restored(t, r.out) && At(last.partial, key) == r.held
  {
    EventDeltasNamed(choices, 0, key);
    PositionsAreIndependent(t, cap, st, EventItems(choices, 0), key);
  }

  /** No choice finishes over a fragment: in a run that does not fail, nothing of the
      choice is held when its finish arrives. */
  lemma NothingHeldAtFinish(t: Tables, cap: nat, st: State, before: seq<Item>, n: int, after: seq<Item>)
    requires !Run(t, cap, st, before + ([Finish(n)] + after)).0.failed
    ensures forall key :: key in Run(t, cap, st, before).0.partial ==> key.choice != n
  {
    var mid := Run(t, cap, st, before).0;
    RunConcat(t, cap, st, before, [Finish(n)] + after);
    RunStep(t, cap, mid, Finish(n), after);
    FinishClean(t, cap, mid, n);
    hide Run, Step;
    var st1 := Step(t, cap, mid, Finish(n)).0;
    if st1.failed {
      StaysFailed(t, cap, st1, after);
    }
  }

  lemma FinishClean(t: Tables, cap: nat, st: State, n: int)
    ensures !Step(t, cap, st, Finish(n)).0.failed ==> forall key :: key in st.partial ==> key.choice != n
  {
  }
}
