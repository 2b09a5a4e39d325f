/** The streaming half of internal/opencode/tool_alias.go: tool names arrive in
    arbitrary fragments, interleaved over (choice, call) positions, and are held
    back while they could still become an alias or a refused name. */
module ToolAliasStream {

  type Name = string
  type Text = string

  datatype Option<+T> = None | Some(value: T)

  /** The arguments field of a delta: missing or null, a string, anything else. */
  datatype Arguments = Absent | Value(text: Text) | Other

  /** The function object of one delta; a name that is missing or no string is "". */
  datatype Fn = Fn(name: Name, arguments: Arguments)

  datatype Key = Key(choice: int, call: int)

  datatype Held = Held(name: Name, arguments: Text)

  /** Aliases with their originals, and the names that must not be selected. */
  datatype Tables = Tables(names: map<Name, Name>, blocked: set<Name>)

  // ---------------------------------------------------------- one tool call

  predicate Holds(t: Tables, name: Name) {
    || (exists alias :: alias in t.names && name <= alias)
    || (exists b :: b in t.blocked && name <= b)
  }

  function TextOf(a: Arguments): Text { if a.Value? then a.text else "" }

  function HeldName(h: Option<Held>): Name { if h.Some? then h.value.name else "" }

  function HeldText(h: Option<Held>): Text { if h.Some? then h.value.arguments else "" }

  datatype Outcome = Failed | Passed(fn: Fn, held: Option<Held>)

  predicate Withheld(t: Tables, candidate: Name) { candidate !in t.names && Holds(t, candidate) }

  /** rewriteChatTool for one position, apart from the size limit: the delta that is
      passed on (before names are restored) and what is held afterwards. */
  function Rewrite(t: Tables, held: Option<Held>, fn: Fn): Outcome {
    if fn.name == "" && held.None? then Passed(fn, None)
    else
      var candidate := HeldName(held) + fn.name;
      if candidate in t.blocked then Failed
      else if (Withheld(t, candidate) || held.Some?) && fn.arguments.Other? then Failed
      else if Withheld(t, candidate) then
        Passed(Fn("", Absent), Some(Held(candidate, HeldText(held) + TextOf(fn.arguments))))
      else if held.None? then Passed(fn, None)
      else
        Passed(Fn(candidate,
                  if |HeldText(held)| > 0 || fn.arguments.Value?
                  then Value(HeldText(held) + TextOf(fn.arguments)) else fn.arguments), None)
  }

  datatype Result = Broken | Fine(out: seq<Fn>, held: Option<Held>)

  /** One position's deltas, one after the other. */
  function Feed(t: Tables, held: Option<Held>, fns: seq<Fn>): Result
    decreases |fns|
  {
    if |fns| == 0 then Fine([], held)
    else
      match Rewrite(t, held, fns[0])
      case Failed => Broken
      case Passed(fn, held') =>
        match Feed(t, held', fns[1..])
        case Broken => Broken
        case Fine(out, last) => Fine([fn] + out, last)
  }

  function Names(fns: seq<Fn>): Name
    decreases |fns|
  {
    if |fns| == 0 then "" else fns[0].name + Names(fns[1..])
  }

  function Texts(fns: seq<Fn>): Text
    decreases |fns|
  {
    if |fns| == 0 then "" else TextOf(fns[0].arguments) + Texts(fns[1..])
  }

  /** restoreToolNames on what was passed on. */
  function Restored(t: Tables, fns: seq<Fn>): (r: seq<Fn>)
    ensures |r| == |fns|
    decreases |fns|
  {
    if |fns| == 0 then []
    else [if fns[0].name in t.names then fns[0].(name := t.names[fns[0].name]) else fns[0]] + Restored(t, fns[1..])
  }

  /** Aliases are non-empty, prefix-free and not refused; "" is not refused. */
  predicate Sound(t: Tables) {
    && "" !in t.names && "" !in t.blocked
    && (forall a, b :: a in t.names && b in t.names && a <= b ==> a == b)
    && (forall a :: a in t.names ==> a !in t.blocked)
  }

  predicate Textual(fns: seq<Fn>) { forall i :: 0 <= i < |fns| ==> !fns[i].arguments.Other? }

  /** Nothing is lost, doubled or reordered: whatever the fragments are, what was
      passed on followed by what is still held is what came in. */
  lemma {:induction false} NothingIsLost(t: Tables, held: Option<Held>, fns: seq<Fn>)
    ensures var r := Feed(t, held, fns);
            r.Fine? ==>
              && Names(r.out) + HeldName(r.held) == HeldName(held) + Names(fns)
              && Texts(r.out) + HeldText(r.held) == HeldText(held) + Texts(fns)
              && |r.out| == |fns|
    decreases |fns|
  {
    if |fns| > 0 && Feed(t, held, fns).Fine? {
      var step := Rewrite(t, held, fns[0]);
      RewriteConserves(t, held, fns[0]);
      hide Rewrite;
      NothingIsLost(t, step.held, fns[1..]);
      var tail := Feed(t, step.held, fns[1..]);
      var out := Feed(t, held, fns).out;
      assert out[1..] == tail.out;
      Associate(step.fn.name, Names(tail.out), HeldName(tail.held));
      Associate(step.fn.name, HeldName(step.held), Names(fns[1..]));
      Associate(HeldName(held), fns[0].name, Names(fns[1..]));
      Associate(TextOf(step.fn.arguments), Texts(tail.out), HeldText(tail.held));
      Associate(TextOf(step.fn.arguments), HeldText(step.held), Texts(fns[1..]));
      Associate(HeldText(held), TextOf(fns[0].arguments), Texts(fns[1..]));
    }
  }

  /** Arguments that are no text are never held, joined or dropped: their delta goes
      on as it came, or the writer fails. */
  lemma {:induction false} OtherArgumentsPassUntouched(t: Tables, held: Option<Held>, fns: seq<Fn>)
    ensures var r := Feed(t, held, fns);
            r.Fine? ==>
              |r.out| == |fns| && forall i :: 0 <= i < |fns| && fns[i].arguments.Other? ==> r.out[i] == fns[i]
    decreases |fns|
  {
    if |fns| > 0 && Feed(t, held, fns).Fine? {
      var step := Rewrite(t, held, fns[0]);
      OtherArgumentsPassUntouched(t, step.held, fns[1..]);
      var tail := Feed(t, step.held, fns[1..]);
      assert Feed(t, held, fns).out == [step.fn] + tail.out;
      assert fns[0].arguments.Other? ==> step.fn == fns[0];
      hide Rewrite;
    }
  }

  /** A call that comes without arguments is given none, not even empty ones. */
  lemma {:induction false} NoArgumentsInvented(t: Tables, held: Option<Held>, fns: seq<Fn>)
    requires HeldText(held) == "" && forall i :: 0 <= i < |fns| ==> !fns[i].arguments.Value?
    ensures var r := Feed(t, held, fns);
            r.Fine? ==>
              HeldText(r.held) == "" && forall i :: 0 <= i < |r.out| ==> !r.out[i].arguments.Value?
    decreases |fns|
  {
    if |fns| > 0 && Feed(t, held, fns).Fine? {
      var step := Rewrite(t, held, fns[0]);
      assert HeldText(step.held) == "" && !step.fn.arguments.Value?;
      hide Rewrite;
      NoArgumentsInvented(t, step.held, fns[1..]);
      var tail := Feed(t, step.held, fns[1..]);
      assert Feed(t, held, fns).out == [step.fn] + tail.out;
    }
  }

  lemma RewriteConserves(t: Tables, held: Option<Held>, fn: Fn)
    ensures var r := Rewrite(t, held, fn);
            r.Passed? ==>
              && r.fn.name + HeldName(r.held) == HeldName(held) + fn.name
              && TextOf(r.fn.arguments) + HeldText(r.held) == HeldText(held) + TextOf(fn.arguments)
  {
  }

  lemma Associate(a: Text, b: Text, c: Text)
    ensures (a + b) + c == a + (b + c)
  {
  }

  /** Some cumulative part of the name is a refused name. */
  ghost predicate HitsBlocked(t: Tables, start: Name, fns: seq<Fn>) {
    exists k :: 0 <= k <= |fns| && start + Names(fns[..k]) in t.blocked
  }

  lemma HitsBlockedUnfold(t: Tables, start: Name, fns: seq<Fn>)
    requires |fns| > 0 && start !in t.blocked
    ensures HitsBlocked(t, start, fns) <==> HitsBlocked(t, start + fns[0].name, fns[1..])
  {
    var next := start + fns[0].name;
    forall k | 0 <= k < |fns|
      ensures next + Names(fns[1..][..k]) == start + Names(fns[..k + 1])
    {
      assert fns[..k + 1][1..] == fns[1..][..k];
      Associate(start, fns[0].name, Names(fns[1..][..k]));
    }
    if k :| 0 <= k <= |fns| && start + Names(fns[..k]) in t.blocked {
      assert k > 0 by { assert start + "" == start; }
      assert next + Names(fns[1..][..k - 1]) in t.blocked;
    }
    if k :| 0 <= k <= |fns[1..]| && next + Names(fns[1..][..k]) in t.blocked {
      assert start + Names(fns[..k + 1]) in t.blocked;
    }
  }

  lemma {:induction false} NamelessPass(t: Tables, fns: seq<Fn>)
    requires Names(fns) == ""
    ensures Feed(t, None, fns) == Fine(fns, None) && (Sound(t) ==> Restored(t, fns) == fns)
    decreases |fns|
  {
    if |fns| > 0 {
      assert |fns[0].name + Names(fns[1..])| == 0;
      NamelessPass(t, fns[1..]);
      assert [fns[0]] + fns[1..] == fns;
    }
  }

  lemma {:induction false} AliasRun(t: Tables, held: Option<Held>, fns: seq<Fn>, alias: Name)
    requires Sound(t) && alias in t.names && Textual(fns)
    requires HeldName(held) + Names(fns) == alias && HeldName(held) !in t.names && HeldName(held) !in t.blocked
    ensures Feed(t, held, fns).Broken? <==> HitsBlocked(t, HeldName(held), fns)
    ensures var r := Feed(t, held, fns);
            r.Fine? ==> r.held == None && Names(Restored(t, r.out)) == t.names[alias]
    decreases |fns|
  {
    var start := HeldName(held);
    assert start + "" == start;
    if |fns| > 0 {
      var fn, rest := fns[0], fns[1..];
      var next := start + fn.name;
      Associate(start, fn.name, Names(rest));
      assert next <= alias by { assert alias == next + Names(rest); }
      HitsBlockedUnfold(t, start, fns);
      assert Textual(rest);
      if next in t.blocked {
        assert fn.name == "" ==> next == start;
        assert next + Names(rest[..0]) == next;
      } else if next == alias {
        AliasCompletes(t, held, fns, alias);
      } else {
        assert next !in t.names;
        if fn.name == "" && held.None? {
          assert Rewrite(t, held, fn) == Passed(fn, None) && next == "";
          AliasRun(t, None, rest, alias);
          RestoredNames(t, fn, Feed(t, None, rest));
        } else {
          assert Withheld(t, next);
          var held' := Some(Held(next, HeldText(held) + TextOf(fn.arguments)));
          assert Rewrite(t, held, fn) == Passed(Fn("", Absent), held');
          AliasRun(t, held', rest, alias);
          RestoredNames(t, Fn("", Absent), Feed(t, held', rest));
        }
      }
    }
  }

  /** A delta without a name in front does not change the restored name. */
  lemma RestoredNames(t: Tables, fn: Fn, r: Result)
    requires Sound(t) && fn.name == ""
    ensures r.Fine? ==> Names(Restored(t, [fn] + r.out)) == Names(Restored(t, r.out))
  {
    if r.Fine? {
      assert ([fn] + r.out)[1..] == r.out;
      assert Restored(t, [fn] + r.out) == [fn] + Restored(t, r.out);
      assert ([fn] + Restored(t, r.out))[1..] == Restored(t, r.out);
      assert "" + Names(Restored(t, r.out)) == Names(Restored(t, r.out));
    }
  }

  /** The fragment that completes an alias releases it; what follows is nameless. */
  lemma AliasCompletes(t: Tables, held: Option<Held>, fns: seq<Fn>, alias: Name)
    requires Sound(t) && alias in t.names && Textual(fns) && |fns| > 0
    requires HeldName(held) !in t.names
    requires HeldName(held) + fns[0].name == alias && HeldName(held) + Names(fns) == alias
    ensures !HitsBlocked(t, alias, fns[1..])
    ensures var r := Feed(t, held, fns); r.Fine? && r.held == None && Names(Restored(t, r.out)) == t.names[alias]
  {
    var rest := fns[1..];
    Associate(HeldName(held), fns[0].name, Names(rest));
    assert Names(rest) == "";
    NamelessPass(t, rest);
    forall k | 0 <= k <= |rest|
      ensures alias + Names(rest[..k]) == alias
    {
      NamesPrefix(rest, k);
    }
    var passed := Rewrite(t, held, fns[0]);
    assert HeldName(held) + "" == HeldName(held);
    assert passed.Passed? && passed.fn.name == alias && passed.held == None;
    var out := [passed.fn] + rest;
    assert out[1..] == rest;
    assert Restored(t, out) == [passed.fn.(name := t.names[alias])] + rest;
    assert ([passed.fn.(name := t.names[alias])] + rest)[1..] == rest;
    assert t.names[alias] + "" == t.names[alias];
  }

  lemma {:induction false} NamesPrefix(fns: seq<Fn>, k: nat)
    requires k <= |fns|
    ensures Names(fns[..k]) <= Names(fns)
    decreases k
  {
    if k > 0 {
      assert fns[..k][1..] == fns[1..][..k - 1];
      NamesPrefix(fns[1..], k - 1);
    }
  }

  lemma {:induction false} RestoredTexts(t: Tables, fns: seq<Fn>)
    ensures Texts(Restored(t, fns)) == Texts(fns)
    decreases |fns|
  {
    if |fns| > 0 {
      RestoredTexts(t, fns[1..]);
      assert Restored(t, fns)[1..] == Restored(t, fns[1..]);
    }
  }

  /** Fragmentation invariance with its exact condition: however an alias and its
      arguments are cut into deltas, the stream delivers exactly the original name
      and exactly those arguments and holds nothing back, if and only if no
      cumulative part of the name is itself a refused name. */
  lemma FragmentsOfAnAlias(t: Tables, fns: seq<Fn>, alias: Name)
    requires Sound(t) && alias in t.names && Textual(fns) && Names(fns) == alias
    ensures var r := Feed(t, None, fns);
            && (r.Fine? <==> forall k :: 0 <= k <= |fns| ==> Names(fns[..k]) !in t.blocked)
            && (r.Fine? ==> r.held == None && Names(Restored(t, r.out)) == t.names[alias]
                            && Texts(Restored(t, r.out)) == Texts(fns))
  {
    assert "" + Names(fns) == Names(fns);
    AliasRun(t, None, fns, alias);
    forall k | 0 <= k <= |fns| ensures "" + Names(fns[..k]) == Names(fns[..k]) {}
    var r := Feed(t, None, fns);
    if r.Fine? {
      NothingIsLost(t, None, fns);
      RestoredTexts(t, r.out);
      assert Texts(r.out) + "" == Texts(r.out) && "" + Texts(fns) == Texts(fns);
    }
  }

  /** A name that could not become an alias or a refused name goes through
      untouched when it arrives in one piece. */
  lemma WholePlainName(t: Tables, fns: seq<Fn>)
    requires Sound(t) && |fns| > 0 && !Holds(t, fns[0].name) && Names(fns[1..]) == ""
    ensures Feed(t, None, fns) == Fine(fns, None) && Restored(t, fns) == fns
  {
    NamelessPass(t, fns[1..]);
    assert fns[0].name <= fns[0].name;
    assert [fns[0]] + fns[1..] == fns;
  }

  /** The fragments go through unaltered: from what is held (`start`, "" for
      nothing), each piece completes neither an alias nor a refused name, and the
      last one leaves nothing that could still become one. */
  predicate Undisturbed(t: Tables, start: Name, fns: seq<Fn>)
    decreases |fns|
  {
    if |fns| == 0 then start == ""
    else
      var candidate := start + fns[0].name;
      if candidate == "" then Undisturbed(t, "", fns[1..])
      else
        && candidate !in t.blocked && candidate !in t.names
        && (Holds(t, candidate) || start != "" ==> !fns[0].arguments.Other?)
        && Undisturbed(t, if Holds(t, candidate) then candidate else "", fns[1..])
  }

  /** No alias stands for itself. */
  predicate Renames(t: Tables) { forall a :: a in t.names ==> t.names[a] != a }

  /** A held fragment always has a name. */
  predicate NamedIfHeld(held: Option<Held>) { held.Some? ==> held.value.name != "" }

  /** The stream ends with nothing held and restores nothing. */
  predicate Unaltered(t: Tables, r: Result) { r.Fine? && r.held == None && Restored(t, r.out) == r.out }

  lemma UnalteredStep(t: Tables, fn: Fn, held: Option<Held>, rest: seq<Fn>, r: Result)
    requires Renames(t)
    requires r == match Feed(t, held, rest)
                  case Broken => Broken
                  case Fine(out, last) => Fine([fn] + out, last)
    ensures Unaltered(t, r) <==> fn.name !in t.names && Unaltered(t, Feed(t, held, rest))
  {
    var tail := Feed(t, held, rest);
    if tail.Fine? {
      assert r.out[1..] == tail.out && r.out[0] == fn;
      var restored := Restored(t, r.out);
      assert restored[1..] == Restored(t, tail.out);
      assert restored == r.out <==> restored[0] == fn && restored[1..] == tail.out;
    }
  }

  lemma {:induction false} UnalteredIff(t: Tables, held: Option<Held>, fns: seq<Fn>)
    requires Sound(t) && Renames(t) && NamedIfHeld(held)
    ensures Unaltered(t, Feed(t, held, fns)) <==> Undisturbed(t, HeldName(held), fns)
    decreases |fns|
  {
    if |fns| > 0 {
      var candidate := HeldName(held) + fns[0].name;
      var step := Rewrite(t, held, fns[0]);
      assert fns[0].name == "" && held.None? <==> candidate == "";
      if step.Passed? {
        UnalteredStep(t, step.fn, step.held, fns[1..], Feed(t, held, fns));
        PassedFacts(t, held, fns[0]);
        hide Rewrite;
        UnalteredIff(t, step.held, fns[1..]);
      }
    }
  }

  /** What one delta passes on and holds. */
  lemma PassedFacts(t: Tables, held: Option<Held>, fn: Fn)
    requires Sound(t) && NamedIfHeld(held) && Rewrite(t, held, fn).Passed?
    ensures var candidate := HeldName(held) + fn.name;
      var r := Rewrite(t, held, fn);
      var holds := candidate != "" && Withheld(t, candidate);
      && HeldName(r.held) == (if holds then candidate else "") && (r.held.Some? <==> holds)
      && r.fn.name == (if holds then "" else candidate)
  {
    assert "" + fn.name == fn.name;
  }

  /** Fragmentation of a plain name, with its exact condition: what the stream passes
      on is what came in, name and arguments, if and only if no run of pieces since
      the last one that was let through forms a refused name or an alias, and none
      is left over. */
  lemma FragmentsOfAPlainName(t: Tables, fns: seq<Fn>)
    requires Sound(t) && Renames(t)
    ensures var r := Feed(t, None, fns);
      && (Unaltered(t, r) <==> Undisturbed(t, "", fns))
      && (Unaltered(t, r) ==> Names(r.out) == Names(fns) && Texts(r.out) == Texts(fns))
  {
    UnalteredIff(t, None, fns);
    NothingIsLost(t, None, fns);
    var r := Feed(t, None, fns);
    if Unaltered(t, r) {
      assert Names(r.out) + "" == Names(r.out) && "" + Names(fns) == Names(fns);
      assert Texts(r.out) + "" == Texts(r.out) && "" + Texts(fns) == Texts(fns);
    }
  }

  /** A plain name cut in two passes exactly when its first part is held but is no
      refused name and no alias, or when its second part could not by itself become
      one: a first part that is let through is forgotten. */
  lemma PlainNameCutInTwo(t: Tables, a: Name, b: Name)
    requires Sound(t) && Renames(t) && a != "" && b != "" && !Holds(t, a + b)
    ensures Unaltered(t, Feed(t, None, [Fn(a, Absent), Fn(b, Absent)])) <==>
              if Holds(t, a) then a !in t.blocked && a !in t.names else !Holds(t, b)
  {
    var fns, last := [Fn(a, Absent), Fn(b, Absent)], [Fn(b, Absent)];
    FragmentsOfAPlainName(t, fns);
    assert fns[1..] == last && last[1..] == [];
    assert "" + a == a && "" + b == b && a + b != "";
    NotHeld(t, a);
    NotHeld(t, b);
    NotHeld(t, a + b);
    assert Undisturbed(t, a, last) by { assert last[0].name == b; }
    assert Undisturbed(t, "", last) <==> !Holds(t, b) by {
      if Holds(t, b) { assert !Undisturbed(t, b, last[1..]); }
    }
    assert Undisturbed(t, "", fns) <==>
      a !in t.blocked && a !in t.names && Undisturbed(t, if Holds(t, a) then a else "", last);
  }

  lemma NotHeld(t: Tables, name: Name)
    ensures !Holds(t, name) ==> name !in t.blocked && name !in t.names
  {
    assert name <= name;
  }

  /** An instance: "bread" cut as "b", "read" is refused although the whole
      name passes, because a plain name is forgotten once its first piece is out. */
  lemma PlainNameInPiecesCanFail()
    ensures var t := Tables(map[], {"shell", "read"});
            && Sound(t)
            && Feed(t, None, [Fn("bread", Absent)]) == Fine([Fn("bread", Absent)], None)
            && Feed(t, None, [Fn("b", Absent), Fn("read", Absent)]) == Broken
  {
    var t := Tables(map[], {"shell", "read"});
    var whole, pieces := [Fn("bread", Absent)], [Fn("b", Absent), Fn("read", Absent)];
    assert "b"[0] == 'b' && "bread"[0] == 'b' && "shell"[0] == 's' && "read"[0] == 'r';
    assert !Holds(t, "bread") && !Holds(t, "b");
    WholePlainName(t, whole);
    assert Rewrite(t, None, pieces[0]) == Passed(pieces[0], None);
    assert "" + "read" == "read" && "read" in t.blocked;
    assert pieces[1..] == [Fn("read", Absent)];
    assert Rewrite(t, None, Fn("read", Absent)) == Failed;
  }
}
