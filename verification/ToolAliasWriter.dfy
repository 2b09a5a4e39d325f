/** The writer object of internal/opencode/tool_alias.go: many positions at once,
    one shared size limit, and the ends of a choice, of the stream and of the
    response. */
module ToolAliasWriter {
  import opened ToolAliasStream

  /** What one event does, in order: a tool-call delta at a position, a choice that
      finishes, the end marker. */
  datatype Item = Delta(key: Key, fn: Fn) | Finish(choice: int) | Done

  datatype State = State(partial: map<Key, Held>, heldBytes: int, failed: bool)

  const EMPTY := State(map[], 0, false)

  function Size(h: Held): nat { |h.name| + |h.arguments| }

  function At(partial: map<Key, Held>, key: Key): Option<Held> {
    if key in partial then Some(partial[key]) else None
  }

  function With(partial: map<Key, Held>, key: Key, h: Option<Held>): map<Key, Held> {
    if h.Some? then partial[key := h.value] else partial - {key}
  }

  function Weight(fn: Fn): nat { |fn.name| + |TextOf(fn.arguments)| }

  /** A delta that would have to be held does not fit any more. */
  predicate Overflows(t: Tables, cap: nat, st: State, key: Key, fn: Fn) {
    var held := At(st.partial, key);
    (fn.name != "" || held.Some?) && Withheld(t, HeldName(held) + fn.name) && Weight(fn) > cap - st.heldBytes
  }

  datatype Emitted = Emitted(key: Key, fn: Fn)

  /** One item; a failed writer does nothing any more. The delta that goes on is
      restored already. */
  function Step(t: Tables, cap: nat, st: State, item: Item): (State, seq<Emitted>) {
    if st.failed then (st, [])
    else
      match item
      case Delta(key, fn) =>
        (match Rewrite(t, At(st.partial, key), fn)
         case Failed => (st.(failed := true), [])
         case Passed(out, held) =>
           if Overflows(t, cap, st, key, fn) then (st.(failed := true), [])
           else (State(With(st.partial, key, held), st.heldBytes + Change(st.partial, key, held), false),
                 [Emitted(key, Restored(t, [out])[0])]))
      case Finish(choice) =>
        (st.(failed := exists key :: key in st.partial && key.choice == choice), [])
      case Done => (st.(failed := st.partial != map[]), [])
  }

  function Change(partial: map<Key, Held>, key: Key, h: Option<Held>): int {
    (if h.Some? then Size(h.value) else 0) - (if key in partial then Size(partial[key]) else 0)
  }

  function Run(t: Tables, cap: nat, st: State, items: seq<Item>): (State, seq<Emitted>)
    decreases |items|
  {
    if |items| == 0 then (st, [])
    else
      var (st1, out1) := Step(t, cap, st, items[0]);
      var (st2, out2) := Run(t, cap, st1, items[1..]);
      (st2, out1 + out2)
  }

  // ------------------------------------------------------------ held bytes

  ghost function Total(partial: map<Key, Held>): nat
    decreases |partial|
  {
    if partial == map[] then 0
    else
      var key :| key in partial;
      Size(partial[key]) + Total(partial - {key})
  }

  lemma {:induction false} TotalWithout(partial: map<Key, Held>, key: Key)
    requires key in partial
    ensures Total(partial) == Size(partial[key]) + Total(partial - {key})
    decreases |partial|
  {
    var k :| k in partial && Total(partial) == Size(partial[k]) + Total(partial - {k});
    if k != key {
      TotalWithout(partial - {k}, key);
      TotalWithout(partial - {key}, k);
      assert partial - {k} - {key} == partial - {key} - {k};
    }
  }

  /** What is held weighs its names and its arguments. */
  lemma HeldIsNamesAndArguments(partial: map<Key, Held>, key: Key, h: Held)
    requires key !in partial
    ensures Total(partial[key := h]) == Total(partial) + |h.name| + |h.arguments|
    ensures Total(map[]) == 0
  {
    TotalWithout(partial[key := h], key);
    assert partial[key := h] - {key} == partial;
  }

  lemma TotalWith(partial: map<Key, Held>, key: Key, h: Option<Held>)
    ensures Total(With(partial, key, h)) == Total(partial) + Change(partial, key, h)
  {
    var rest := partial - {key};
    if key in partial {
      TotalWithout(partial, key);
    } else {
      assert rest == partial;
    }
    if h.Some? {
      TotalWithout(partial[key := h.value], key);
      assert partial[key := h.value] - {key} == rest;
    }
  }

  /** heldBytes is the size of everything that is held, and within the limit. */
  ghost predicate Accounted(cap: nat, st: State) {
    st.heldBytes == Total(st.partial) && st.heldBytes <= cap
  }

  lemma StepAccounted(t: Tables, cap: nat, st: State, item: Item)
    requires Accounted(cap, st)
    ensures Accounted(cap, Step(t, cap, st, item).0)
  {
    if item.Delta? && !st.failed {
      var held := At(st.partial, item.key);
      var r := Rewrite(t, held, item.fn);
      if r.Passed? {
        TotalWith(st.partial, item.key, r.held);
        DeltaSize(t, held, item.fn);
      }
    }
  }

  /** What a delta adds to the held bytes is its own size; a release gives back all
      of them. */
  lemma DeltaSize(t: Tables, held: Option<Held>, fn: Fn)
    ensures var r := Rewrite(t, held, fn);
            r.Passed? && r.held.Some? ==>
              Size(r.held.value) == (if held.Some? then Size(held.value) else 0) + Weight(fn)
              && Withheld(t, HeldName(held) + fn.name) && (fn.name != "" || held.Some?)
  {
  }

  lemma {:induction false} HeldBytesExact(t: Tables, cap: nat, st: State, items: seq<Item>)
    requires Accounted(cap, st)
    ensures Accounted(cap, Run(t, cap, st, items).0)
    decreases |items|
  {
    hide Step, Accounted;
    if |items| > 0 {
      StepAccounted(t, cap, st, items[0]);
      HeldBytesExact(t, cap, Step(t, cap, st, items[0]).0, items[1..]);
    }
  }

  // ------------------------------------------------------------ interleaving

  function Deltas(items: seq<Item>, key: Key): seq<Fn>
    decreases |items|
  {
    if |items| == 0 then []
    else (if items[0].Delta? && items[0].key == key then [items[0].fn] else []) + Deltas(items[1..], key)
  }

  function Output(out: seq<Emitted>, key: Key): seq<Fn>
    decreases |out|
  {
    if |out| == 0 then []
    else (if out[0].key == key then [out[0].fn] else []) + Output(out[1..], key)
  }

  lemma OutputConcat(a: seq<Emitted>, b: seq<Emitted>, key: Key)
    requires |a| <= 1
    ensures Output(a + b, key) == Output(a, key) + Output(b, key)
  {
    if |a| == 1 {
      assert (a + b)[1..] == b && a[1..] == [];
    } else {
      assert a + b == b;
    }
  }

  lemma RestoredConcat(t: Tables, fn: Fn, fns: seq<Fn>)
    ensures Restored(t, [fn] + fns) == Restored(t, [fn]) + Restored(t, fns)
  {
    assert ([fn] + fns)[1..] == fns && [fn][1..] == [];
  }

  /** One step at a position, and at the others. */
  lemma StepAtKey(t: Tables, cap: nat, st: State, item: Item, key: Key)
    requires !st.failed && !Step(t, cap, st, item).0.failed
    ensures var (st1, out) := Step(t, cap, st, item);
            if item.Delta? && item.key == key then
              var r := Rewrite(t, At(st.partial, key), item.fn);
              r.Passed? && At(st1.partial, key) == r.held && Output(out, key) == Restored(t, [r.fn])
            else At(st1.partial, key) == At(st.partial, key) && Output(out, key) == []
  {
    var out := Step(t, cap, st, item).1;
    hide Rewrite;
    if |out| > 0 {
      assert out[1..] == [];
    }
  }

  lemma FeedOne(t: Tables, held: Option<Held>, fn: Fn, rest: seq<Fn>)
    requires Rewrite(t, held, fn).Passed? && Feed(t, Rewrite(t, held, fn).held, rest).Fine?
    ensures var r := Rewrite(t, held, fn); var tail := Feed(t, r.held, rest); var all := Feed(t, held, [fn] + rest);
            all.Fine? && all.held == tail.held && Restored(t, all.out) == Restored(t, [r.fn]) + Restored(t, tail.out)
  {
    assert ([fn] + rest)[1..] == rest;
    var r := Rewrite(t, held, fn);
    RestoredConcat(t, r.fn, Feed(t, r.held, rest).out);
    hide Rewrite, Restored;
  }

  /** A run that does not fail treats every position as if it were alone. */
  lemma {:induction false} PositionsAreIndependent(t: Tables, cap: nat, st: State, items: seq<Item>, key: Key)
    requires !st.failed && !Run(t, cap, st, items).0.failed
    ensures var (last, out) := Run(t, cap, st, items);
            var r := Feed(t, At(st.partial, key), Deltas(items, key));
            r.Fine? && Output(out, key) == Restored(t, r.out) && At(last.partial, key) == r.held
    decreases |items|
  {
    if |items| > 0 {
      hide Step, Rewrite, Restored;
      var (st1, out1) := Step(t, cap, st, items[0]);
      var (last, out2) := Run(t, cap, st1, items[1..]);
      if st1.failed {
        StaysFailed(t, cap, st1, items[1..]);
      }
      StepAtKey(t, cap, st, items[0], key);
      PositionsAreIndependent(t, cap, st1, items[1..], key);
      var rest := Deltas(items[1..], key);
      if items[0].Delta? && items[0].key == key {
        FeedOne(t, At(st.partial, key), items[0].fn, rest);
      } else {
        assert [] + rest == rest;
      }
      StepEmitsOne(t, cap, st, items[0]);
      OutputConcat(out1, out2, key);
    }
  }

  lemma StepEmitsOne(t: Tables, cap: nat, st: State, item: Item)
    ensures |Step(t, cap, st, item).1| <= 1
  {
  }

  lemma {:induction false} StaysFailed(t: Tables, cap: nat, st: State, items: seq<Item>)
    requires st.failed
    ensures Run(t, cap, st, items) == (st, [])
    decreases |items|
  {
    if |items| > 0 {
      StaysFailed(t, cap, st, items[1..]);
      var nothing: seq<Emitted> := [];
      assert Step(t, cap, st, items[0]) == (st, nothing) && nothing + nothing == nothing;
    }
  }

  /** No delta of a choice comes after the choice finished, none after the end. */
  predicate FinishesLast(items: seq<Item>)
    decreases |items|
  {
    |items| == 0
    || (&& (items[0].Finish? ==> forall i :: 0 < i < |items| && items[i].Delta? ==>
          items[i].key.choice != items[0].choice)
        && (items[0].Done? ==> forall i :: 0 < i < |items| ==> !items[i].Delta?)
        && FinishesLast(items[1..]))
  }

  lemma {:induction false} NoDeltas(items: seq<Item>, key: Key)
    requires forall i :: 0 <= i < |items| && items[i].Delta? ==> items[i].key != key
    ensures Deltas(items, key) == []
    decreases |items|
  {
    if |items| > 0 {
      forall i | 0 <= i < |items[1..]| && items[1..][i].Delta? ensures items[1..][i].key != key {
        assert items[1..][i] == items[i + 1];
      }
      NoDeltas(items[1..], key);
    }
  }

  /** What has to be held fits at every moment of the run; what is passed on does not
      count. */
  ghost predicate WithinLimit(t: Tables, cap: nat, partial: map<Key, Held>, items: seq<Item>)
    decreases |items|
  {
    if |items| == 0 then true
    else if !items[0].Delta? then WithinLimit(t, cap, partial, items[1..])
    else
      var r := Rewrite(t, At(partial, items[0].key), items[0].fn);
      r.Passed? ==>
        && Total(With(partial, items[0].key, r.held)) <= cap
        && WithinLimit(t, cap, With(partial, items[0].key, r.held), items[1..])
  }

  /** A delta overflows exactly when what would be held afterwards does not fit. */
  lemma OverflowsIff(t: Tables, cap: nat, st: State, key: Key, fn: Fn)
    requires Accounted(cap, st) && Rewrite(t, At(st.partial, key), fn).Passed?
    ensures var r := Rewrite(t, At(st.partial, key), fn);
      && Total(With(st.partial, key, r.held)) == st.heldBytes + Change(st.partial, key, r.held)
      && (Overflows(t, cap, st, key, fn) <==> Total(With(st.partial, key, r.held)) > cap)
  {
    var held := At(st.partial, key);
    var r := Rewrite(t, held, fn);
    TotalWith(st.partial, key, r.held);
    DeltaSize(t, held, fn);
    NothingHeldNothingGained(t, held, fn);
  }

  lemma NothingHeldNothingGained(t: Tables, held: Option<Held>, fn: Fn)
    requires Rewrite(t, held, fn).Passed?
    ensures Rewrite(t, held, fn).held.Some? <==> (fn.name != "" || held.Some?) && Withheld(t, HeldName(held) + fn.name)
  {
  }

  /** Every position, on its own, goes through and ends with nothing held. */
  ghost predicate EachCompletes(t: Tables, partial: map<Key, Held>, items: seq<Item>) {
    forall key :: Completes(t, At(partial, key), Deltas(items, key))
  }

  predicate Completes(t: Tables, held: Option<Held>, fns: seq<Fn>) {
    Feed(t, held, fns).Fine? && Feed(t, held, fns).held == None
  }

  /** When every position on its own goes through and ends with nothing held, any
      interleaving of them succeeds, with nothing held at the end, if and only if
      what has to be held at each moment is within the size limit. */
  lemma {:induction false} InterleavingSucceeds(t: Tables, cap: nat, st: State, items: seq<Item>)
    requires !st.failed && Accounted(cap, st) && FinishesLast(items) && EachCompletes(t, st.partial, items)
    ensures Run(t, cap, st, items).0 == EMPTY <==> WithinLimit(t, cap, st.partial, items)
    ensures Run(t, cap, st, items).0.failed <==> !WithinLimit(t, cap, st.partial, items)
    decreases |items|
  {
    if |items| == 0 {
      forall key ensures key !in st.partial {
        assert Completes(t, At(st.partial, key), Deltas(items, key));
      }
      assert st.partial == map[];
    } else {
      var st1 := Step(t, cap, st, items[0]).0;
      StepSucceeds(t, cap, st, items);
      StepAccounted(t, cap, st, items[0]);
      hide Step, Accounted, EachCompletes, FinishesLast, Rewrite;
      if st1.failed {
        StaysFailed(t, cap, st1, items[1..]);
      } else {
        InterleavingSucceeds(t, cap, st1, items[1..]);
      }
    }
  }

  /** A position completes after its next delta if it did before. */
  lemma CompletesOn(t: Tables, held: Option<Held>, fn: Fn, rest: seq<Fn>)
    requires Completes(t, held, [fn] + rest)
    ensures Rewrite(t, held, fn).Passed? && Completes(t, Rewrite(t, held, fn).held, rest)
  {
    assert ([fn] + rest)[1..] == rest;
    hide Rewrite;
  }

  lemma DeltaSucceeds(t: Tables, cap: nat, st: State, items: seq<Item>)
    requires !st.failed && Accounted(cap, st) && |items| > 0 && items[0].Delta?
    requires EachCompletes(t, st.partial, items)
    ensures var st1 := Step(t, cap, st, items[0]).0;
      var r := Rewrite(t, At(st.partial, items[0].key), items[0].fn);
      && r.Passed?
      && (st1.failed <==> Total(With(st.partial, items[0].key, r.held)) > cap)
      && (!st1.failed ==> st1.partial == With(st.partial, items[0].key, r.held)
                          && EachCompletes(t, st1.partial, items[1..]))
  {
    var key, fn, rest := items[0].key, items[0].fn, items[1..];
    var r := Rewrite(t, At(st.partial, key), fn);
    assert Completes(t, At(st.partial, key), Deltas(items, key));
    CompletesOn(t, At(st.partial, key), fn, Deltas(rest, key));
    OverflowsIff(t, cap, st, key, fn);
    hide Rewrite, Overflows, Accounted, Change;
    var after := With(st.partial, key, r.held);
    forall k ensures Completes(t, At(after, k), Deltas(rest, k)) {
      assert Completes(t, At(st.partial, k), Deltas(items, k));
      assert k != key ==> [] + Deltas(rest, k) == Deltas(rest, k);
      assert At(after, k) == if k == key then r.held else At(st.partial, k);
    }
  }

  lemma EndSucceeds(t: Tables, cap: nat, st: State, items: seq<Item>)
    requires !st.failed && |items| > 0 && !items[0].Delta? && FinishesLast(items)
    requires EachCompletes(t, st.partial, items)
    ensures Step(t, cap, st, items[0]).0 == st && EachCompletes(t, st.partial, items[1..])
  {
    var rest := items[1..];
    forall key ensures Completes(t, At(st.partial, key), Deltas(rest, key)) {
      assert Completes(t, At(st.partial, key), Deltas(items, key));
      assert [] + Deltas(rest, key) == Deltas(rest, key);
    }
    forall key: Key | key in st.partial && (items[0].Finish? ==> key.choice == items[0].choice)
      ensures Deltas(items, key) != []
    {
      assert Completes(t, At(st.partial, key), Deltas(items, key));
    }
    forall key: Key | items[0].Finish? ==> key.choice == items[0].choice ensures Deltas(items, key) == [] {
      NoDeltas(items, key);
    }
    assert items[0].Done? ==> forall key :: key !in st.partial;
    assert items[0].Done? ==> st.partial == map[];
  }

  /** What the next item does to a run whose positions all complete. */
  lemma StepSucceeds(t: Tables, cap: nat, st: State, items: seq<Item>)
    requires !st.failed && Accounted(cap, st) && FinishesLast(items) && |items| > 0
    requires EachCompletes(t, st.partial, items)
    ensures var st1 := Step(t, cap, st, items[0]).0;
      && (!st1.failed ==> EachCompletes(t, st1.partial, items[1..]))
      && (st1.failed ==> !WithinLimit(t, cap, st.partial, items))
      && (!st1.failed ==>
            (WithinLimit(t, cap, st.partial, items) <==> WithinLimit(t, cap, st1.partial, items[1..])))
  {
    hide EachCompletes, FinishesLast, Step, Accounted, Rewrite;
    if items[0].Delta? {
      DeltaSucceeds(t, cap, st, items);
    } else {
      EndSucceeds(t, cap, st, items);
    }
  }

  /** A position whose deltas are one alias, cut anywhere but at a refused name. */
  ghost predicate AliasCall(t: Tables, fns: seq<Fn>, alias: Name) {
    && alias in t.names && Textual(fns) && Names(fns) == alias
    && (forall k :: 0 <= k <= |fns| ==> Names(fns[..k]) !in t.blocked)
  }

  /** A position whose name is a plain one and arrives whole. */
  predicate PlainCall(t: Tables, fns: seq<Fn>) {
    |fns| > 0 && !Holds(t, fns[0].name) && Names(fns[1..]) == ""
  }

  /** What a stream of cut aliases and of other names does at one position. */
  lemma PositionCompletes(t: Tables, fns: seq<Fn>, alias: Option<Name>)
    requires Sound(t) && Renames(t)
    requires match alias case Some(a) => AliasCall(t, fns, a) case None => Undisturbed(t, "", fns)
    ensures Completes(t, None, fns)
    ensures var out := Restored(t, Feed(t, None, fns).out);
      && Names(out) == (if alias.Some? then t.names[alias.value] else Names(fns))
      && Texts(out) == Texts(fns)
      && (PlainCall(t, fns) ==> out == fns)
  {
    if alias.Some? {
      FragmentsOfAnAlias(t, fns, alias.value);
    } else {
      FragmentsOfAPlainName(t, fns);
    }
    if PlainCall(t, fns) {
      WholePlainName(t, fns);
    }
  }

  /** The streaming rewrite is the whole-message rewrite: any interleaving of cut
      aliases and of plain names that go through undisturbed succeeds if and only if
      what has to be held fits at each moment; it then holds nothing at the end and
      delivers at every position the original name and exactly the arguments that
      came in. */
  lemma StreamEqualsWholeMessage(t: Tables, cap: nat, items: seq<Item>, calls: map<Key, Name>)
    requires Sound(t) && Renames(t) && FinishesLast(items)
    requires forall key :: key !in calls ==> Undisturbed(t, "", Deltas(items, key))
    requires forall key :: key in calls ==> AliasCall(t, Deltas(items, key), calls[key])
    ensures var (last, out) := Run(t, cap, EMPTY, items);
            && (last == EMPTY <==> WithinLimit(t, cap, map[], items))
            && (!last.failed <==> WithinLimit(t, cap, map[], items))
            && (last == EMPTY ==> forall key :: Delivered(t, calls, key, Deltas(items, key), Output(out, key)))
  {
    forall key ensures Completes(t, None, Deltas(items, key)) {
      PositionCompletes(t, Deltas(items, key), AliasAt(calls, key));
    }
    InterleavingSucceeds(t, cap, EMPTY, items);
    var (last, out) := Run(t, cap, EMPTY, items);
    hide Run, Feed, Restored, Undisturbed, AliasCall, WithinLimit, FinishesLast;
    if last == EMPTY {
      forall key ensures Delivered(t, calls, key, Deltas(items, key), Output(out, key)) {
        PositionsAreIndependent(t, cap, EMPTY, items, key);
        PositionCompletes(t, Deltas(items, key), AliasAt(calls, key));
      }
    }
  }

  function AliasAt(calls: map<Key, Name>, key: Key): Option<Name> { if key in calls then Some(calls[key]) else None }

  /** The client's name with the arguments that came in; a plain name that arrived
      whole is not touched at all. */
  predicate Delivered(t: Tables, calls: map<Key, Name>, key: Key, fns: seq<Fn>, out: seq<Fn>) {
    && Texts(out) == Texts(fns)
    && (if key in calls then calls[key] in t.names && Names(out) == t.names[calls[key]] else Names(out) == Names(fns))
    && (PlainCall(t, fns) ==> out == fns)
  }

  lemma {:induction false} RunConcat(t: Tables, cap: nat, st: State, a: seq<Item>, b: seq<Item>)
    ensures var (mid, out1) := Run(t, cap, st, a);
            var (last, out2) := Run(t, cap, mid, b);
            Run(t, cap, st, a + b) == (last, out1 + out2)
    decreases |a|
  {
    hide Step;
    if |a| == 0 {
      assert a + b == b;
      var (last, out2) := Run(t, cap, st, b);
      assert [] + out2 == out2;
    } else {
      assert (a + b)[0] == a[0] && (a + b)[1..] == a[1..] + b;
      var (st1, out0) := Step(t, cap, st, a[0]);
      RunConcat(t, cap, st1, a[1..], b);
      var (mid, out1) := Run(t, cap, st1, a[1..]);
      var (last, out2) := Run(t, cap, mid, b);
      assert out0 + (out1 + out2) == (out0 + out1) + out2;
    }
  }

  /** A stream that reports success at its end marker holds no fragment. */
  lemma NoSilentTruncation(t: Tables, cap: nat, items: seq<Item>)
    ensures var (last, _) := Run(t, cap, EMPTY, items + [Done]); !last.failed ==> last == EMPTY
  {
    RunConcat(t, cap, EMPTY, items, [Done]);
    HeldBytesExact(t, cap, EMPTY, items);
    var mid := Run(t, cap, EMPTY, items).0;
    assert [Done][1..] == [];
    assert Run(t, cap, mid, [Done]).0 == Step(t, cap, mid, Done).0;
    if mid.failed {
    }
  }

  // ------------------------------------------------------------ the object

  datatype Call = Call(index: Option<int>, fn: Option<Fn>)

  datatype Choice = Choice(index: Option<int>, calls: seq<Call>, finished: bool)

  /** An index that is missing or null falls back to the position in the list. */
  function IndexOr(index: Option<int>, position: nat): int { if index.Some? then index.value else position }

  function CallItems(choice: int, calls: seq<Call>, from: nat): seq<Item>
    requires from <= |calls|
    decreases |calls| - from
  {
    if from == |calls| then []
    else
      (if calls[from].fn.Some?
       then [Delta(Key(choice, IndexOr(calls[from].index, from)), calls[from].fn.value)] else [])
      + CallItems(choice, calls, from + 1)
  }

  function ChoiceItems(choice: Choice, position: nat): seq<Item> {
    var index := IndexOr(choice.index, position);
    CallItems(index, choice.calls, 0) + (if choice.finished then [Finish(index)] else [])
  }

  /** The items of an event, in the order rewriteObject visits them. */
  function EventItems(choices: seq<Choice>, from: nat): seq<Item>
    requires from <= |choices|
    decreases |choices| - from
  {
    if from == |choices| then [] else ChoiceItems(choices[from], from) + EventItems(choices, from + 1)
  }

  lemma RunStep(t: Tables, cap: nat, st: State, item: Item, rest: seq<Item>)
    ensures var (st1, out1) := Step(t, cap, st, item);
            var (st2, out2) := Run(t, cap, st1, rest);
            Run(t, cap, st, [item] + rest) == (st2, out1 + out2)
  {
    hide Step;
    assert ([item] + rest)[1..] == rest;
  }

  lemma NothingBefore(out: seq<Emitted>)
    ensures [] + out == out
  {
  }

  lemma NothingAfter(out: seq<Emitted>)
    ensures out + [] == out
  {
  }

  lemma FinishRun(t: Tables, cap: nat, st: State, choice: int)
    ensures Run(t, cap, st, [Item.Finish(choice)]) == Step(t, cap, st, Item.Finish(choice))
    ensures Step(t, cap, st, Item.Finish(choice)).1 == []
        && (st.failed ==> Step(t, cap, st, Item.Finish(choice)).0 == st)
  {
    var item := Item.Finish(choice);
    assert [item][1..] == [];
    NothingAfter(Step(t, cap, st, item).1);
  }

  lemma NothingHeldNothingDropped(partial: map<Key, Held>, key: Key)
    requires key !in partial
    ensures With(partial, key, None) == partial
  {
  }

  class Writer {
    const tables: Tables
    const cap: nat
    var partialTools: map<Key, Held>
    var heldBytes: int
    var failure: bool

    ghost function View(): State
      reads this
    {
      State(partialTools, heldBytes, failure)
    }

    constructor (tables: Tables, cap: nat)
      ensures this.tables == tables && this.cap == cap && View() == EMPTY
    {
      this.tables, this.cap := tables, cap;
      partialTools, heldBytes, failure := map[], 0, false;
    }

    method HoldsToolPrefix(name: Name) returns (holds: bool)
      ensures holds == Holds(tables, name)
    {
      var todo := tables.names.Keys;
      while todo != {}
        invariant todo <= tables.names.Keys
        invariant forall a :: a in tables.names ==> a in todo || !(name <= a)
        decreases |todo|
      {
        var alias :| alias in todo;
        if name <= alias {
          return true;
        }
        todo := todo - {alias};
      }
      var refused := tables.blocked;
      while refused != {}
        invariant refused <= tables.blocked
        invariant forall b :: b in tables.blocked ==> b in refused || !(name <= b)
        decreases |refused|
      {
        var b :| b in refused;
        if name <= b {
          return true;
        }
        refused := refused - {b};
      }
      holds := false;
    }

    method RestoreToolName(fn: Fn) returns (restored: Fn)
      ensures restored == Restored(tables, [fn])[0]
    {
      restored := if fn.name in tables.names then fn.(name := tables.names[fn.name]) else fn;
    }

    method RewriteChatTool(key: Key, fn: Fn) returns (out: seq<Emitted>)
      requires !failure
      modifies this
      ensures (View(), out) == Step(tables, cap, old(View()), Delta(key, fn))
    {
      var known := key in partialTools;
      var partial := if known then partialTools[key] else Held("", "");
      var passed := fn;
      if fn.name != "" || known {
        var candidate := partial.name + fn.name;
        if candidate in tables.blocked {
          failure := true;
          return [];
        }
        var hold := HoldsToolPrefix(candidate);
        hold := candidate !in tables.names && hold;
        if (hold || known) && fn.arguments.Other? {
          failure := true;
          return [];
        }
        var args := if fn.arguments.Value? then fn.arguments.text else "";
        if hold {
          if |fn.name| + |args| > cap - heldBytes {
            failure := true;
            return [];
          }
          partialTools := partialTools[key := Held(candidate, partial.arguments + args)];
          heldBytes := heldBytes + |fn.name| + |args|;
          passed := Fn("", Absent);
        } else if known {
          passed := Fn(candidate, if |partial.arguments| > 0 || fn.arguments.Value?
                                  then Value(partial.arguments + args) else fn.arguments);
          heldBytes := heldBytes - (|partial.name| + |partial.arguments|);
          partialTools := partialTools - {key};
        }
      }
      if !known {
        NothingHeldNothingDropped(old(partialTools), key);
      }
      var restored := RestoreToolName(passed);
      out := [Emitted(key, restored)];
    }

    /** A finish_reason while a fragment of that choice is held is an error. */
    method FinishChoice(choice: int)
      requires !failure
      modifies this`failure
      ensures View() == Step(tables, cap, old(View()), Item.Finish(choice)).0
    {
      failure := exists key :: key in partialTools && key.choice == choice;
    }

    /** "[DONE]" while a fragment is held is an error. */
    method EndOfStream()
      requires !failure
      modifies this`failure
      ensures View() == Step(tables, cap, old(View()), Done).0
    {
      if partialTools != map[] {
        failure := true;
      }
    }

    method RewriteCalls(choice: int, calls: seq<Call>) returns (out: seq<Emitted>)
      requires !failure
      modifies this
      ensures (View(), out) == Run(tables, cap, old(View()), CallItems(choice, calls, 0))
    {
      out := [];
      var i := 0;
      hide Step;
      NothingBefore(Run(tables, cap, View(), CallItems(choice, calls, 0)).1);
      while i < |calls|
        invariant i <= |calls| && !failure
        invariant var (last, more) := Run(tables, cap, View(), CallItems(choice, calls, i));
                  Run(tables, cap, old(View()), CallItems(choice, calls, 0)) == (last, out + more)
      {
        ghost var rest := CallItems(choice, calls, i + 1);
        if calls[i].fn.Some? {
          var key := Key(choice, IndexOr(calls[i].index, i));
          RunStep(tables, cap, View(), Delta(key, calls[i].fn.value), rest);
          var emitted := RewriteChatTool(key, calls[i].fn.value);
          ghost var more := Run(tables, cap, View(), rest).1;
          assert out + (emitted + more) == (out + emitted) + more;
          out := out + emitted;
          if failure {
            StaysFailed(tables, cap, View(), rest);
            assert out + [] == out;
            return;
          }
        } else {
          assert [] + rest == rest;
        }
        i := i + 1;
      }
      assert out + [] == out;
    }

    method RewriteChoice(choice: Choice, position: nat) returns (out: seq<Emitted>)
      requires !failure
      modifies this
      ensures (View(), out) == Run(tables, cap, old(View()), ChoiceItems(choice, position))
    {
      var index := IndexOr(choice.index, position);
      ghost var calls := CallItems(index, choice.calls, 0);
      hide Step;
      out := RewriteCalls(index, choice.calls);
      if choice.finished {
        RunConcat(tables, cap, old(View()), calls, [Item.Finish(index)]);
        FinishRun(tables, cap, View(), index);
        NothingAfter(out);
        if !failure {
          FinishChoice(index);
        }
      } else {
        assert calls + [] == calls;
      }
    }

    /** rewriteObject on a chat event: the calls of every choice in turn, then its
        finish_reason; the first failure ends it. */
    method RewriteObject(choices: seq<Choice>) returns (out: seq<Emitted>)
      requires !failure
      modifies this
      ensures (View(), out) == Run(tables, cap, old(View()), EventItems(choices, 0))
    {
      out := [];
      var i := 0;
      hide Step;
      NothingBefore(Run(tables, cap, View(), EventItems(choices, 0)).1);
      while i < |choices|
        invariant i <= |choices| && !failure
        invariant var (last, more) := Run(tables, cap, View(), EventItems(choices, i));
                  Run(tables, cap, old(View()), EventItems(choices, 0)) == (last, out + more)
      {
        ghost var rest := EventItems(choices, i + 1);
        RunConcat(tables, cap, View(), ChoiceItems(choices[i], i), rest);
        var emitted := RewriteChoice(choices[i], i);
        ghost var more := Run(tables, cap, View(), rest).1;
        assert out + (emitted + more) == (out + emitted) + more;
        out := out + emitted;
        if failure {
          StaysFailed(tables, cap, View(), rest);
          NothingAfter(out);
          return;
        }
        i := i + 1;
      }
      NothingAfter(out);
    }

    /** The response may end only with nothing held and no unfinished frame. */
    method Finish(pending: nat) returns (ok: bool)
      ensures ok <==> !failure && pending == 0 && partialTools == map[]
    {
      ok := !failure && pending == 0 && partialTools == map[];
    }
  }
}
