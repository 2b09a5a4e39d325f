/** The server-sent-event reframer of internal/opencode/tool_alias.go: bytes arrive
    in arbitrary chunks, complete frames are rewritten and passed on, the rest
    waits.  What happens to the payload of a frame is a parameter. */
module SseFrames {

  type Chunk = string

  datatype Option<+T> = None | Some(value: T)

  // ------------------------------------------------------------- terminators

  const LF: Chunk := "\n\n"
  const CRLF: Chunk := "\r\n\r\n"

  predicate FoundAt(raw: Chunk, pattern: Chunk, i: nat) {
    i + |pattern| <= |raw| && raw[i..i + |pattern|] == pattern
  }

  /** bytes.Index: the first occurrence at or after `from`. */
  function Index(raw: Chunk, pattern: Chunk, from: nat): (r: Option<nat>)
    requires from <= |raw|
    ensures r.Some? ==> from <= r.value && FoundAt(raw, pattern, r.value)
    ensures forall i :: from <= i && (r.Some? ==> i < r.value) ==> !FoundAt(raw, pattern, i)
    decreases |raw| - from
  {
    if FoundAt(raw, pattern, from) then Some(from)
    else if from == |raw| then None
    else Index(raw, pattern, from + 1)
  }

  datatype Cut = Cut(end: nat, width: nat)

  /** The earlier of the two terminators. */
  function Terminator(raw: Chunk): (r: Option<Cut>)
    ensures r.Some? ==> r.value.width > 0 && r.value.end + r.value.width <= |raw|
  {
    var lf, cr := Index(raw, LF, 0), Index(raw, CRLF, 0);
    if cr.Some? && (lf.None? || cr.value < lf.value) then Some(Cut(cr.value, 4))
    else if lf.Some? then Some(Cut(lf.value, 2))
    else None
  }

  predicate Occurs(raw: Chunk, pattern: Chunk) { exists i: nat :: i <= |raw| && FoundAt(raw, pattern, i) }

  /** A blank line, in either line ending, ends a frame at i. */
  predicate EndsAt(raw: Chunk, i: nat) { FoundAt(raw, LF, i) || FoundAt(raw, CRLF, i) }

  lemma NotBoth(raw: Chunk, i: nat)
    requires FoundAt(raw, LF, i)
    ensures !FoundAt(raw, CRLF, i)
  {
    assert raw[i..i + 2][0] == raw[i] && LF[0] == '\n';
    if i + 4 <= |raw| {
      assert raw[i..i + 4][0] == raw[i] && CRLF[0] == '\r';
    }
  }

  /** Which bytes end a frame: there is no terminator exactly when neither blank line
      occurs; otherwise it is the first place where one does, as wide as that one. */
  lemma TerminatorIsFirstBlankLine(raw: Chunk)
    ensures Terminator(raw).None? <==> !Occurs(raw, LF) && !Occurs(raw, CRLF)
    ensures Terminator(raw).Some? ==>
      var cut := Terminator(raw).value;
      && EndsAt(raw, cut.end) && (forall i: nat :: i < cut.end ==> !EndsAt(raw, i))
      && cut.width == if FoundAt(raw, CRLF, cut.end) then |CRLF| else |LF|
  {
    var lf, cr := Index(raw, LF, 0), Index(raw, CRLF, 0);
    if lf.Some? { NotBoth(raw, lf.value); }
    assert Occurs(raw, LF) <==> lf.Some?;
    assert Occurs(raw, CRLF) <==> cr.Some?;
  }

  lemma FoundLater(raw: Chunk, more: Chunk, pattern: Chunk, i: nat)
    requires i + |pattern| <= |raw|
    ensures FoundAt(raw + more, pattern, i) <==> FoundAt(raw, pattern, i)
  {
    assert (raw + more)[i..i + |pattern|] == raw[i..i + |pattern|];
  }

  lemma IndexStable(raw: Chunk, more: Chunk, pattern: Chunk)
    requires Index(raw, pattern, 0).Some?
    ensures Index(raw + more, pattern, 0) == Index(raw, pattern, 0)
  {
    var i := Index(raw, pattern, 0).value;
    FoundLater(raw, more, pattern, i);
    var j := Index(raw + more, pattern, 0).value;
    FoundLater(raw, more, pattern, j);
  }

  lemma NeverAdjacent(raw: Chunk, p: nat, q: nat)
    requires FoundAt(raw, CRLF, p) && FoundAt(raw, LF, q)
    ensures q != p + 1
  {
    assert raw[p..p + 4][2] == raw[p + 2] && CRLF[2] == '\r';
    assert raw[q..q + 2][1] == raw[q + 1] && LF[1] == '\n';
  }

  /** More bytes never move a terminator that has been seen, nor reveal an earlier
      one: a "\r\n\r\n" cannot begin just before a "\n\n". */
  lemma TerminatorStable(raw: Chunk, more: Chunk)
    requires Terminator(raw).Some?
    ensures Terminator(raw + more) == Terminator(raw)
  {
    var all := raw + more;
    var lf, cr := Index(raw, LF, 0), Index(raw, CRLF, 0);
    var lf', cr' := Index(all, LF, 0), Index(all, CRLF, 0);
    if lf.Some? { IndexStable(raw, more, LF); }
    if cr.Some? { IndexStable(raw, more, CRLF); }
    if cr.None? && cr'.Some? && cr'.value < lf.value {
      if cr'.value + 4 <= |raw| {
        FoundLater(raw, more, CRLF, cr'.value);
      } else {
        FoundLater(raw, more, LF, lf.value);
        NeverAdjacent(all, cr'.value, lf.value);
      }
    }
    if lf.None? && lf'.Some? && lf'.value <= cr.value {
      FoundLater(raw, more, LF, lf'.value);
    }
  }

  // ------------------------------------------------------------- the reframer

  /** What happens to one frame: a new inner state and the bytes to send, or a failure. */
  type Handler<!S> = (S, Chunk) -> (S, Option<Chunk>)

  datatype Sink<S> = Sink(inner: S, pending: Chunk, down: Chunk, failed: bool)

  /** Take complete frames off the front until none is left or one fails. */
  function Drain<S>(handle: Handler<S>, k: Sink<S>): Sink<S>
    decreases |k.pending|
  {
    if k.failed || Terminator(k.pending).None? then k
    else
      var n := Terminator(k.pending).value.end + Terminator(k.pending).value.width;
      var (inner, out) := handle(k.inner, k.pending[..n]);
      if out.None? then Sink(inner, k.pending[n..], k.down, true)
      else Drain(handle, Sink(inner, k.pending[n..], k.down + out.value, false))
  }

  function Fed<S>(handle: Handler<S>, k: Sink<S>, p: Chunk): Sink<S> {
    if k.failed then k else Drain(handle, k.(pending := k.pending + p))
  }

  function FedAll<S>(handle: Handler<S>, k: Sink<S>, chunks: seq<Chunk>): Sink<S>
    decreases |chunks|
  {
    if |chunks| == 0 then k else FedAll(handle, Fed(handle, k, chunks[0]), chunks[1..])
  }

  function Joined(chunks: seq<Chunk>): Chunk
    decreases |chunks|
  {
    if |chunks| == 0 then "" else chunks[0] + Joined(chunks[1..])
  }

  /** The same bytes sent, the same inner state, the same failure and, short of a
      failure, the same bytes waiting. */
  predicate Agree<S(==)>(a: Sink<S>, b: Sink<S>) {
    a.inner == b.inner && a.down == b.down && a.failed == b.failed && (!a.failed ==> a.pending == b.pending)
  }

  lemma {:induction false} DrainExtends<S>(handle: Handler<S>, k: Sink<S>, more: Chunk)
    ensures Agree(Drain(handle, k.(pending := k.pending + more)), Fed(handle, Drain(handle, k), more))
    decreases |k.pending|
  {
    hide Terminator;
    if !k.failed && Terminator(k.pending).Some? {
      TerminatorStable(k.pending, more);
      var n := Terminator(k.pending).value.end + Terminator(k.pending).value.width;
      var all := k.pending + more;
      assert all[..n] == k.pending[..n] && all[n..] == k.pending[n..] + more;
      var (inner, out) := handle(k.inner, k.pending[..n]);
      if out.Some? {
        DrainExtends(handle, Sink(inner, k.pending[n..], k.down + out.value, false), more);
      }
    }
  }

  lemma {:induction false} DrainIsDone<S>(handle: Handler<S>, k: Sink<S>)
    ensures Drain(handle, k).failed || Terminator(Drain(handle, k).pending).None?
    decreases |k.pending|
  {
    hide Terminator;
    if !k.failed && Terminator(k.pending).Some? {
      var n := Terminator(k.pending).value.end + Terminator(k.pending).value.width;
      var (inner, out) := handle(k.inner, k.pending[..n]);
      if out.Some? {
        DrainIsDone(handle, Sink(inner, k.pending[n..], k.down + out.value, false));
      }
    }
  }

  /** What waits after any chunking holds no blank line: every finished frame went on. */
  lemma NoFrameWaits<S>(handle: Handler<S>, inner: S, chunks: seq<Chunk>)
    ensures var k := FedAll(handle, Sink(inner, "", "", false), chunks);
      !k.failed ==> !Occurs(k.pending, LF) && !Occurs(k.pending, CRLF)
  {
    var start := Sink(inner, "", "", false);
    ChunksAsOne(handle, start, chunks);
    DrainIsDone(handle, start.(pending := start.pending + Joined(chunks)));
    TerminatorIsFirstBlankLine(FedAll(handle, start, chunks).pending);
  }

  lemma {:induction false} ChunksAsOne<S>(handle: Handler<S>, k: Sink<S>, chunks: seq<Chunk>)
    requires k.failed || Terminator(k.pending).None?
    ensures Agree(FedAll(handle, k, chunks), Fed(handle, k, Joined(chunks)))
    decreases |chunks|
  {
    hide Terminator;
    if |chunks| == 0 {
      assert k.pending + "" == k.pending;
    } else {
      hide Drain;
      var k1 := Fed(handle, k, chunks[0]);
      var rest := Joined(chunks[1..]);
      if !k.failed {
        DrainIsDone(handle, k.(pending := k.pending + chunks[0]));
        DrainExtends(handle, k.(pending := k.pending + chunks[0]), rest);
        assert k.pending + chunks[0] + rest == k.pending + (chunks[0] + rest);
      }
      ChunksAsOne(handle, k1, chunks[1..]);
    }
  }

  /** Chunking does not matter: the same bytes in any two chunkings leave the same
      bytes sent, the same inner state, the same failure and the same leftover. */
  lemma ChunkingIsIrrelevant<S>(handle: Handler<S>, inner: S, chunks: seq<Chunk>, others: seq<Chunk>)
    requires Joined(chunks) == Joined(others)
    ensures var k := Sink(inner, "", "", false); Agree(FedAll(handle, k, chunks), FedAll(handle, k, others))
  {
    var k := Sink(inner, "", "", false);
    ChunksAsOne(handle, k, chunks);
    ChunksAsOne(handle, k, others);
  }

  /** A handler that changes nothing is invisible: every byte is sent or waiting. */
  lemma {:induction false} UntouchedFramesPass<S>(handle: Handler<S>, k: Sink<S>)
    requires forall s: S, f :: handle(s, f).1 == Some(f)
    ensures var d := Drain(handle, k); d.failed == k.failed && d.down + d.pending == k.down + k.pending
    decreases |k.pending|
  {
    hide Terminator;
    if !k.failed && Terminator(k.pending).Some? {
      var n := Terminator(k.pending).value.end + Terminator(k.pending).value.width;
      var inner := handle(k.inner, k.pending[..n]).0;
      UntouchedFramesPass(handle, Sink(inner, k.pending[n..], k.down + k.pending[..n], false));
      assert k.down + k.pending[..n] + k.pending[n..] == k.down + k.pending;
    }
  }

  /** The writer object. */
  class Reframer<S> {
    const handle: Handler<S>
    var inner: S
    var pending: Chunk
    var down: Chunk
    var failure: bool

    ghost function View(): Sink<S>
      reads this
    {
      Sink(inner, pending, down, failure)
    }

    constructor (handle: Handler<S>, inner: S)
      ensures this.handle == handle && View() == Sink(inner, "", "", false)
    {
      this.handle, this.inner := handle, inner;
      pending, down, failure := "", "", false;
    }

    method Write(p: Chunk) returns (ok: bool)
      modifies this
      ensures View() == Fed(handle, old(View()), p) && ok == !failure
    {
      if failure {
        return false;
      }
      pending := pending + p;
      ghost var start := View();
      while true
        invariant !failure && Drain(handle, View()) == Drain(handle, start)
        decreases |pending|
      {
        var cut := Terminator(pending);
        if cut.None? {
          break;
        }
        var n := cut.value.end + cut.value.width;
        var frame := pending[..n];
        pending := pending[n..];
        var (state, out) := handle(inner, frame);
        inner := state;
        if out.None? {
          failure := true;
          return false;
        }
        down := down + out.value;
      }
      ok := true;
    }
  }
}
