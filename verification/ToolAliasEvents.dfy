/** From the bytes an upstream sends to the tool calls a client reads: the event
    stream of SseStream with the alias writer of ToolAliasWriter inside. */
module ToolAliasEvents {
  import opened ToolAliasStream
  import opened ToolAliasWriter
  import opened ToolAliasPositions
  import Bytes
  import Frames = SseFrames
  import Sse = SseStream
  import Request = ToolAliasTheorems
  import Set = ToolAliasSet

  // ---------------------------------------------------------------- payloads

  /** What a payload is: an event with its choices, the end marker, or neither. */
  datatype Payload = NoEvent | EndMark | Event(choices: seq<Choice>)

  const END: string := "[DONE]"

  /** Decoding and encoding of payloads; `write` is what becomes of a payload whose
      deltas are passed on as given. */
  datatype Codec = Codec(decode: string -> Payload, write: (string, seq<Emitted>) -> string) {
    /** What the payload does. */
    function read(p: string): seq<Item> {
      match decode(p)
      case NoEvent => []
      case EndMark => [Done]
      case Event(choices) => EventItems(choices, 0)
    }
  }

  /** One delta passed on for each delta, in order and at its position. */
  predicate Fits(items: seq<Item>, out: seq<Emitted>)
    decreases |items|
  {
    if |items| == 0 then out == []
    else if !items[0].Delta? then Fits(items[1..], out)
    else |out| > 0 && out[0].key == items[0].key && Fits(items[1..], out[1..])
  }

  /** The items with their deltas exchanged. */
  function Replaced(items: seq<Item>, out: seq<Emitted>): seq<Item>
    requires Fits(items, out)
    decreases |items|
  {
    if |items| == 0 then []
    else if !items[0].Delta? then [items[0]] + Replaced(items[1..], out)
    else [Delta(out[0].key, out[0].fn)] + Replaced(items[1..], out[1..])
  }

  /** Encoding is faithful: the payload written reads as the one received with its
      deltas exchanged, and it is the same text or a single trimmed line. */
  ghost predicate Faithful(c: Codec) {
    && (forall p: string :: c.decode(p).EndMark? <==> p == END)
    && forall p: string, out: seq<Emitted> :: Fits(c.read(p), out) ==>
      && c.read(c.write(p, out)) == Replaced(c.read(p), out)
      && (c.write(p, out) == p || ('\n' !in c.write(p, out) && Bytes.Trimmed(c.write(p, out))))
  }

  /** The alias writer on one payload. */
  function Rewrite(t: Tables, cap: nat, c: Codec): Frames.Handler<State> {
    (st: State, payload: string) =>
      var (st1, out) := Run(t, cap, st, c.read(payload));
      if st1.failed then (st1, Frames.None) else (st1, Frames.Some(c.write(payload, out)))
  }

  lemma {:induction false} RunFits(t: Tables, cap: nat, st: State, items: seq<Item>)
    requires !Run(t, cap, st, items).0.failed
    ensures !st.failed && Fits(items, Run(t, cap, st, items).1)
    decreases |items|
  {
    if st.failed {
      StaysFailed(t, cap, st, items);
    }
    if |items| > 0 {
      var (st1, out1) := Step(t, cap, st, items[0]);
      StepFits(t, cap, st, items[0]);
      hide Step;
      RunFits(t, cap, st1, items[1..]);
      var out2 := Run(t, cap, st1, items[1..]).1;
      if items[0].Delta? {
        assert (out1 + out2)[1..] == out2;
      } else {
        assert out1 + out2 == out2;
      }
    }
  }

  lemma StepFits(t: Tables, cap: nat, st: State, item: Item)
    requires !st.failed
    ensures var (st1, out) := Step(t, cap, st, item);
      !st1.failed ==> if item.Delta? then |out| == 1 && out[0].key == item.key else out == []
  {
  }

  lemma RewriteIsOneLine(t: Tables, cap: nat, c: Codec)
    requires Faithful(c)
    ensures Sse.OneLine(Rewrite(t, cap, c))
  {
    forall st: State, p: string | Rewrite(t, cap, c)(st, p).1.Some?
      ensures var q := Rewrite(t, cap, c)(st, p).1.value; q == p || ('\n' !in q && Bytes.Trimmed(q))
    {
      RunFits(t, cap, st, c.read(p));
    }
  }

  // ----------------------------------------------------------------- streams

  /** Everything a sequence of payloads does. */
  function Items(c: Codec, payloads: seq<string>): seq<Item>
    decreases |payloads|
  {
    if |payloads| == 0 then [] else c.read(payloads[0]) + Items(c, payloads[1..])
  }

  lemma FitsDelta(item: Item, rest: seq<Item>, e: Emitted, out: seq<Emitted>)
    requires item.Delta? && e.key == item.key && Fits(rest, out)
    ensures Fits([item] + rest, [e] + out)
    ensures Replaced([item] + rest, [e] + out) == [Delta(e.key, e.fn)] + Replaced(rest, out)
  {
    assert ([item] + rest)[1..] == rest && ([e] + out)[1..] == out;
  }

  lemma FitsOther(item: Item, rest: seq<Item>, out: seq<Emitted>)
    requires !item.Delta? && Fits(rest, out)
    ensures Fits([item] + rest, out) && Replaced([item] + rest, out) == [item] + Replaced(rest, out)
  {
    assert ([item] + rest)[1..] == rest;
  }

  lemma {:induction false} FitsConcat(a: seq<Item>, b: seq<Item>, outA: seq<Emitted>, outB: seq<Emitted>)
    requires Fits(a, outA) && Fits(b, outB)
    ensures Fits(a + b, outA + outB) && Replaced(a + b, outA + outB) == Replaced(a, outA) + Replaced(b, outB)
    decreases |a|
  {
    if |a| == 0 {
      assert a + b == b && outA + outB == outB;
    } else {
      var rest := a[1..];
      assert a + b == [a[0]] + (rest + b);
      if a[0].Delta? {
        assert outA + outB == [outA[0]] + (outA[1..] + outB);
        FitsConcat(rest, b, outA[1..], outB);
        hide Fits, Replaced;
        FitsDelta(a[0], rest + b, outA[0], outA[1..] + outB);
      } else {
        FitsConcat(rest, b, outA, outB);
        hide Fits, Replaced;
        FitsOther(a[0], rest + b, outA + outB);
      }
    }
  }

  lemma {:induction false} DeltasOfReplaced(items: seq<Item>, out: seq<Emitted>, key: Key)
    requires Fits(items, out)
    ensures Deltas(Replaced(items, out), key) == Output(out, key)
    decreases |items|
  {
    if |items| > 0 {
      var r := Replaced(items, out);
      if items[0].Delta? {
        DeltasOfReplaced(items[1..], out[1..], key);
        assert r[1..] == Replaced(items[1..], out[1..]);
      } else {
        DeltasOfReplaced(items[1..], out, key);
        assert r[1..] == Replaced(items[1..], out);
        assert [] + Output(out, key) == Output(out, key);
      }
    }
  }

  /** Rewriting payload after payload is one run over all their items. */
  lemma {:induction false} PayloadsAreOneRun(t: Tables, cap: nat, c: Codec, st: State, payloads: seq<string>)
    requires Faithful(c) && !st.failed
    ensures var (end, out) := Run(t, cap, st, Items(c, payloads));
      var (last, written) := Sse.Rewritten(Rewrite(t, cap, c), st, payloads);
      && last == end && (written.None? <==> end.failed)
      && (written.Some? ==>
            Fits(Items(c, payloads), out) && Items(c, written.value) == Replaced(Items(c, payloads), out))
    decreases |payloads|
  {
    if |payloads| > 0 {
      hide Faithful;
      var first, rest := payloads[0], payloads[1..];
      var (st1, out1) := Run(t, cap, st, c.read(first));
      RunConcat(t, cap, st, c.read(first), Items(c, rest));
      hide Run;
      if st1.failed {
        StaysFailed(t, cap, st1, Items(c, rest));
      } else {
        PayloadsAreOneRun(t, cap, c, st1, rest);
        RunFits(t, cap, st, c.read(first));
        var out2 := Run(t, cap, st1, Items(c, rest)).1;
        var more := Sse.Rewritten(Rewrite(t, cap, c), st1, rest).1;
        if more.Some? {
          FitsConcat(c.read(first), Items(c, rest), out1, out2);
          assert ([c.write(first, out1)] + more.value)[1..] == more.value;
          assert c.read(c.write(first, out1)) == Replaced(c.read(first), out1) by { WriteReads(c, first, out1); }
        }
      }
    }
  }

  lemma WriteReads(c: Codec, p: string, out: seq<Emitted>)
    requires Faithful(c) && Fits(c.read(p), out)
    ensures c.read(c.write(p, out)) == Replaced(c.read(p), out)
  {
  }

  /** The response writer on a stream that arrives in chunks. */
  function Served(t: Tables, cap: nat, c: Codec, chunks: seq<string>): Frames.Sink<State> {
    Frames.FedAll(Sse.FrameHandler(Rewrite(t, cap, c)), Frames.Sink(EMPTY, "", "", false), chunks)
  }

  /** What a text of complete frames does. */
  function ItemsOf(c: Codec, text: string): seq<Item> { Items(c, Sse.Payloads(Sse.Frames(text))) }

  /** The whole response: it fails exactly when the run over its items fails; else the
      bytes sent do what the bytes received do, with the deltas of that run. */
  lemma StreamRunsItsItems(t: Tables, cap: nat, c: Codec, chunks: seq<string>)
    requires Faithful(c)
    ensures var k := Served(t, cap, c, chunks);
      var items := ItemsOf(c, Frames.Joined(chunks));
      var (last, out) := Run(t, cap, EMPTY, items);
      && k.inner == last && (k.failed <==> last.failed)
      && (!k.failed ==>
            && Fits(items, out) && ItemsOf(c, k.down) == Replaced(items, out)
            && k.pending == Sse.Rest(Frames.Joined(chunks))
            && Sse.SameOtherwise(Sse.Frames(Frames.Joined(chunks)), Sse.Frames(k.down)))
  {
    RewriteIsOneLine(t, cap, c);
    Sse.StreamCarriesRewritten(Rewrite(t, cap, c), EMPTY, chunks);
    PayloadsAreOneRun(t, cap, c, EMPTY, Sse.Payloads(Sse.Frames(Frames.Joined(chunks))));
    hide Faithful, Run;
  }

  /** The functions of all calls in a sequence of payloads that name a position. */
  function NamedIn(c: Codec, payloads: seq<string>, key: Key): seq<Fn>
    decreases |payloads|
  {
    if |payloads| == 0 then []
    else
      (match c.decode(payloads[0])
       case Event(choices) => NamedAt(choices, 0, key)
       case _ => [])
      + NamedIn(c, payloads[1..], key)
  }

  lemma {:induction false} PayloadsNamed(c: Codec, payloads: seq<string>, key: Key)
    ensures Deltas(Items(c, payloads), key) == NamedIn(c, payloads, key)
    decreases |payloads|
  {
    if |payloads| > 0 {
      DeltasConcat(c.read(payloads[0]), Items(c, payloads[1..]), key);
      PayloadsNamed(c, payloads[1..], key);
      match c.decode(payloads[0])
      case Event(choices) => EventDeltasNamed(choices, 0, key);
      case _ =>
    }
  }

  /** The tool call a text of complete frames holds at a position, piece by piece. */
  function CallAt(c: Codec, text: string, key: Key): seq<Fn> { NamedIn(c, Sse.Payloads(Sse.Frames(text)), key) }

  /** At every position the client reads the tool it declared, with the arguments that
      came in. `calls` names the declared tools at the positions that use an alias. */
  predicate ClientReads(c: Codec, calls: map<Key, Name>, before: string, after: string, key: Key) {
    && Texts(CallAt(c, after, key)) == Texts(CallAt(c, before, key))
    && Names(CallAt(c, after, key)) == if key in calls then calls[key] else Names(CallAt(c, before, key))
  }

  /** End to end, for the request that declared the tools: whatever the chunks, the
      cuts and the interleaving, the response succeeds if and only if what has to be
      held fits at each moment; then nothing is held when it ends, and the bytes sent
      read, at every position, as the declared name with exactly the arguments that
      came in. */
  lemma ResponseRestoresTools(
    used: set<Name>, anonymous: bool, compatibility: bool, digest: Set.Digest,
    forward: map<Name, Name>, reverse: map<Name, Name>,
    cap: nat, c: Codec, chunks: seq<string>, calls: map<Key, Name>)
    requires Set.Tables(used, anonymous, compatibility, digest, forward, reverse) && "" !in used
    requires Faithful(c) && FinishesLast(ItemsOf(c, Frames.Joined(chunks)))
    requires var t := Request.StreamTables(reverse, compatibility);
      var raw := Frames.Joined(chunks);
      && (forall key :: key in calls ==>
            calls[key] in forward && AliasCall(t, CallAt(c, raw, key), forward[calls[key]]))
      && (forall key :: key !in calls ==> Undisturbed(t, "", CallAt(c, raw, key)))
    ensures var t := Request.StreamTables(reverse, compatibility);
      var items := ItemsOf(c, Frames.Joined(chunks));
      var k := Served(t, cap, c, chunks);
      && (!k.failed <==> WithinLimit(t, cap, map[], items))
      && (!k.failed ==>
            && k.inner == EMPTY && k.pending == Sse.Rest(Frames.Joined(chunks))
            && forall key :: ClientReads(c, calls, Frames.Joined(chunks), k.down, key))
  {
    var t := Request.StreamTables(reverse, compatibility);
    var items := ItemsOf(c, Frames.Joined(chunks));
    var k := Served(t, cap, c, chunks);
    var aliases := map key | key in calls :: forward[calls[key]];
    forall key ensures Deltas(items, key) == CallAt(c, Frames.Joined(chunks), key) {
      PayloadsNamed(c, Sse.Payloads(Sse.Frames(Frames.Joined(chunks))), key);
    }
    Request.LoweredTablesAreSound(used, anonymous, compatibility, digest, forward, reverse);
    StreamEqualsWholeMessage(t, cap, items, aliases);
    StreamRunsItsItems(t, cap, c, chunks);
    var out := Run(t, cap, EMPTY, items).1;
    hide Faithful, Run, ItemsOf, Served, Undisturbed, FinishesLast, WithinLimit;
    if !k.failed {
      forall key ensures ClientReads(c, calls, Frames.Joined(chunks), k.down, key) {
        PayloadsNamed(c, Sse.Payloads(Sse.Frames(k.down)), key);
        assert Deltas(ItemsOf(c, k.down), key) == CallAt(c, k.down, key);
        DeltasOfReplaced(items, out, key);
        assert Delivered(t, aliases, key, Deltas(items, key), Output(out, key));
        if key in calls {
          assert reverse[forward[calls[key]]] == calls[key];
        }
      }
    }
  }
}
