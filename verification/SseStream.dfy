/** The whole event stream of internal/opencode/tool_alias.go: bytes in any chunks
    are cut into frames, each frame is rewritten, and what is sent is again a
    sequence of frames, carrying exactly the rewritten payloads. */
module SseStream {
  import opened Bytes
  import opened SseFrames
  import opened SsePayload

  // ------------------------------------------------------------------- frames

  /** How many bytes the first frame takes. */
  function FrameLength(raw: Chunk): (n: nat)
    requires Terminator(raw).Some?
    ensures 0 < n <= |raw|
  {
    Terminator(raw).value.end + Terminator(raw).value.width
  }

  /** The complete frames of a text, and the bytes after the last of them. */
  function Frames(raw: Chunk): seq<Chunk>
    decreases |raw|
  {
    if Terminator(raw).None? then [] else [raw[..FrameLength(raw)]] + Frames(raw[FrameLength(raw)..])
  }

  function Rest(raw: Chunk): Chunk
    decreases |raw|
  {
    if Terminator(raw).None? then raw else Rest(raw[FrameLength(raw)..])
  }

  /** The only terminator is the one at the end. */
  predicate OneFrame(f: Chunk) { Terminator(f).Some? && FrameLength(f) == |f| }

  lemma CutIsFrame(raw: Chunk)
    requires Terminator(raw).Some?
    ensures OneFrame(raw[..FrameLength(raw)])
  {
    var cut := Terminator(raw).value;
    var n := FrameLength(raw);
    var f := raw[..n];
    assert raw == f + raw[n..];
    var pattern := if cut.width == 4 then CRLF else LF;
    assert FoundAt(raw, pattern, cut.end);
    assert f[cut.end..cut.end + |pattern|] == raw[cut.end..cut.end + |pattern|];
    assert FoundAt(f, pattern, cut.end);
    TerminatorStable(f, raw[n..]);
  }

  /** A frame ends with a blank line, and holds none before. */
  predicate EndsBlank(f: Chunk) {
    var n := |f|;
    || (n >= 2 && FoundAt(f, LF, n - 2) && forall i: nat :: i < n - 2 ==> !EndsAt(f, i))
    || (n >= 4 && FoundAt(f, CRLF, n - 4) && forall i: nat :: i < n - 4 ==> !EndsAt(f, i))
  }

  lemma OneFrameEndsBlank(f: Chunk)
    ensures OneFrame(f) ==> EndsBlank(f)
  {
    TerminatorIsFirstBlankLine(f);
    hide Terminator;
  }

  lemma FrameThenMore(f: Chunk, more: Chunk)
    requires OneFrame(f)
    ensures Frames(f + more) == [f] + Frames(more) && Rest(f + more) == Rest(more)
  {
    TerminatorStable(f, more);
    assert (f + more)[..|f|] == f && (f + more)[|f|..] == more;
    hide Terminator;
  }

  lemma {:induction false} FramesOfJoined(frames: seq<Chunk>)
    requires forall i :: 0 <= i < |frames| ==> OneFrame(frames[i])
    ensures Frames(Joined(frames)) == frames && Rest(Joined(frames)) == ""
    decreases |frames|
  {
    hide OneFrame;
    if |frames| == 0 {
      assert Terminator("").None?;
    } else {
      FramesOfJoined(frames[1..]);
      FrameThenMore(frames[0], Joined(frames[1..]));
    }
  }

  // ---------------------------------------------------------------- rewriting

  /** The frames sent for the frames that came in, unless a rewrite fails. */
  function Sent<S>(rewrite: Handler<S>, inner: S, frames: seq<Chunk>): (S, Option<seq<Chunk>>)
    decreases |frames|
  {
    if |frames| == 0 then (inner, Some([]))
    else
      var (next, out) := FrameOut(rewrite, inner, frames[0]);
      if out.None? then (next, None)
      else
        var (last, more) := Sent(rewrite, next, frames[1..]);
        (last, if more.None? then None else Some([out.value] + more.value))
  }

  /** The payloads of the frames that carry data. */
  function Payloads(frames: seq<Chunk>): seq<string>
    decreases |frames|
  {
    if |frames| == 0 then []
    else (if |Gathered(Lines(frames[0]))| == 0 then [] else [Payload(frames[0])]) + Payloads(frames[1..])
  }

  /** The payloads rewritten one after the other, up to the first failure. */
  function Rewritten<S>(rewrite: Handler<S>, inner: S, payloads: seq<string>): (S, Option<seq<string>>)
    decreases |payloads|
  {
    if |payloads| == 0 then (inner, Some([]))
    else
      var (next, out) := rewrite(inner, payloads[0]);
      if out.None? then (next, None)
      else
        var (last, more) := Rewritten(rewrite, next, payloads[1..]);
        (last, if more.None? then None else Some([out.value] + more.value))
  }

  /** A payload goes on as it is, or becomes a text without line breaks and without
      white space around it, as encoded JSON is. */
  ghost predicate OneLine<S(!new)>(rewrite: Handler<S>) {
    forall s: S, p: string :: rewrite(s, p).1.Some? ==>
      rewrite(s, p).1.value == p || ('\n' !in rewrite(s, p).1.value && Trimmed(rewrite(s, p).1.value))
  }

  /** What one frame becomes: one frame with the same other lines and, if it carries
      data, the rewritten payload. */
  lemma FrameBecomes<S(!new)>(rewrite: Handler<S>, inner: S, frame: Chunk)
    requires OneLine(rewrite) && OneFrame(frame)
    ensures var (next, out) := FrameOut(rewrite, inner, frame);
      if |Gathered(Lines(frame))| == 0 then next == inner && out == Some(frame)
      else
        && (next, out.None?) == (rewrite(inner, Payload(frame)).0, rewrite(inner, Payload(frame)).1.None?)
        && (out.Some? ==>
              && OneFrame(out.value) && |Gathered(Lines(out.value))| > 0
              && Payload(out.value) == rewrite(inner, Payload(frame)).1.value
              && Kept(Lines(out.value)) == Kept(Lines(frame)))
  {
    var (next, out) := rewrite(inner, Payload(frame));
    hide Lines, Kept, Trim;
    if out.Some? && out.value != Payload(frame) {
      RebuiltCarriesPayload(frame, out.value);
      RebuiltIsOneFrame(frame, out.value);
      RebuiltHasData(frame, out.value);
    }
  }

  lemma RebuiltHasData(frame: Chunk, payload: string)
    requires '\n' !in payload && Trimmed(payload)
    ensures |Gathered(Lines(Rebuilt(frame, payload)))| > 0
  {
    RebuiltLines(frame, payload);
    KeptLines(Lines(frame), ["data: " + payload, "", ""]);
    DataTail(payload);
    hide Lines, Kept, Trim, Gathered, Rebuilt;
  }

  /** The same frames, apart from their data lines. */
  predicate SameOtherwise(a: seq<Chunk>, b: seq<Chunk>) {
    |a| == |b| && forall i :: 0 <= i < |a| ==> Kept(Lines(a[i])) == Kept(Lines(b[i]))
  }

  lemma {:induction false} SentCarriesRewritten<S(!new)>(rewrite: Handler<S>, inner: S, frames: seq<Chunk>)
    requires OneLine(rewrite) && forall i :: 0 <= i < |frames| ==> OneFrame(frames[i])
    ensures var (last, sent) := Sent(rewrite, inner, frames);
      var (end, payloads) := Rewritten(rewrite, inner, Payloads(frames));
      && last == end && (sent.None? <==> payloads.None?)
      && (sent.Some? ==>
            && (forall i :: 0 <= i < |sent.value| ==> OneFrame(sent.value[i]))
            && Payloads(sent.value) == payloads.value
            && SameOtherwise(frames, sent.value))
    decreases |frames|
  {
    if |frames| > 0 {
      hide OneLine, OneFrame, FrameOut, Lines, Kept, Gathered, Payload;
      var (next, out) := FrameOut(rewrite, inner, frames[0]);
      var rest := frames[1..];
      FrameBecomes(rewrite, inner, frames[0]);
      if |Gathered(Lines(frames[0]))| == 0 {
        assert [] + Payloads(rest) == Payloads(rest);
      } else {
        assert ([Payload(frames[0])] + Payloads(rest))[1..] == Payloads(rest);
      }
      if out.Some? {
        SentCarriesRewritten(rewrite, next, rest);
        var more := Sent(rewrite, next, rest).1;
        if more.Some? {
          PayloadsCons(out.value, more.value);
        }
      }
    }
  }

  lemma PayloadsCons(f: Chunk, rest: seq<Chunk>)
    ensures Payloads([f] + rest)
         == (if |Gathered(Lines(f))| == 0 then [] else [Payload(f)]) + Payloads(rest)
  {
    assert ([f] + rest)[1..] == rest;
  }

  // ------------------------------------------------------------------- stream

  function FrameHandler<S>(rewrite: Handler<S>): Handler<S> {
    (inner: S, frame: Chunk) => FrameOut(rewrite, inner, frame)
  }

  /** Draining sends the frames of what is pending, one after the other. */
  lemma {:induction false} DrainSends<S(!new)>(rewrite: Handler<S>, k: Sink<S>)
    requires !k.failed
    ensures var d := Drain(FrameHandler(rewrite), k);
      var (last, sent) := Sent(rewrite, k.inner, Frames(k.pending));
      && d.inner == last && (d.failed <==> sent.None?)
      && (sent.Some? ==> d.down == k.down + Joined(sent.value) && d.pending == Rest(k.pending))
    decreases |k.pending|
  {
    hide Terminator, FrameOut;
    if Terminator(k.pending).None? {
      assert k.down + "" == k.down;
    } else {
      var n := FrameLength(k.pending);
      var (inner, out) := FrameOut(rewrite, k.inner, k.pending[..n]);
      var frames := Frames(k.pending);
      assert frames[0] == k.pending[..n] && frames[1..] == Frames(k.pending[n..]);
      if out.Some? {
        var k1 := Sink(inner, k.pending[n..], k.down + out.value, false);
        DrainSends(rewrite, k1);
        var more := Sent(rewrite, inner, frames[1..]).1;
        if more.Some? {
          JoinedCons(out.value, more.value);
          assert k.down + out.value + Joined(more.value) == k.down + (out.value + Joined(more.value));
        }
      }
    }
  }

  lemma JoinedCons(f: Chunk, rest: seq<Chunk>)
    ensures Joined([f] + rest) == f + Joined(rest)
  {
    assert ([f] + rest)[1..] == rest;
  }

  lemma {:induction false} FramesAreFrames(raw: Chunk)
    ensures forall i :: 0 <= i < |Frames(raw)| ==> OneFrame(Frames(raw)[i])
    decreases |raw|
  {
    hide Terminator, OneFrame;
    if Terminator(raw).Some? {
      CutIsFrame(raw);
      FramesAreFrames(raw[FrameLength(raw)..]);
    }
  }

  /** The stream, whatever its chunks: it fails exactly when rewriting the payloads of
      the frames received, in order, fails; otherwise what was sent, cut into frames
      again, has the same frames with the same other lines, carrying exactly the
      rewritten payloads, and only an unfinished frame waits. */
  lemma StreamCarriesRewritten<S(!new)>(rewrite: Handler<S>, inner: S, chunks: seq<Chunk>)
    requires OneLine(rewrite)
    ensures var k := FedAll(FrameHandler(rewrite), Sink(inner, "", "", false), chunks);
      var raw := Joined(chunks);
      var (last, payloads) := Rewritten(rewrite, inner, Payloads(Frames(raw)));
      && k.inner == last && (k.failed <==> payloads.None?)
      && (!k.failed ==>
            && k.pending == Rest(raw) && Rest(k.down) == ""
            && Payloads(Frames(k.down)) == payloads.value
            && SameOtherwise(Frames(raw), Frames(k.down)))
  {
    var raw := Joined(chunks);
    var start := Sink(inner, "", "", false);
    assert Terminator("").None?;
    ChunksAsOne(FrameHandler(rewrite), start, chunks);
    assert start.(pending := "" + raw) == Sink(inner, raw, "", false);
    DrainSends(rewrite, Sink(inner, raw, "", false));
    FramesAreFrames(raw);
    hide OneFrame, OneLine, Terminator, Frames, Drain;
    SentCarriesRewritten(rewrite, inner, Frames(raw));
    var sent := Sent(rewrite, inner, Frames(raw)).1;
    if sent.Some? {
      FramesOfJoined(sent.value);
      assert "" + Joined(sent.value) == Joined(sent.value);
    }
  }

  /** The bytes received are the frames and what waits; each frame ends with the first
      blank line after the last, and what waits holds none. */
  lemma {:induction false} FramesMakeUp(raw: Chunk)
    ensures raw == Joined(Frames(raw)) + Rest(raw)
    ensures forall i :: 0 <= i < |Frames(raw)| ==> EndsBlank(Frames(raw)[i])
    ensures !Occurs(Rest(raw), LF) && !Occurs(Rest(raw), CRLF)
    decreases |raw|
  {
    TerminatorIsFirstBlankLine(raw);
    hide Terminator, EndsBlank, OneFrame, Occurs, EndsAt;
    if Terminator(raw).Some? {
      var n := FrameLength(raw);
      var first, more := raw[..n], Frames(raw[n..]);
      CutIsFrame(raw);
      OneFrameEndsBlank(first);
      FramesMakeUp(raw[n..]);
      assert Frames(raw) == [first] + more;
      JoinedCons(first, more);
      Reassemble(raw, n, Joined(more), Rest(raw[n..]));
    }
  }

  lemma Reassemble(raw: Chunk, n: nat, a: Chunk, b: Chunk)
    requires n <= |raw| && raw[n..] == a + b
    ensures raw == raw[..n] + a + b
  {
    assert raw == raw[..n] + raw[n..];
  }

  /** With a rewriter that changes no payload the stream is invisible: every byte is
      sent or waits, in any chunking. */
  lemma UnchangedStreamPasses<S(!new)>(rewrite: Handler<S>, inner: S, chunks: seq<Chunk>)
    requires forall s: S, p :: rewrite(s, p).1 == Some(p)
    ensures var k := FedAll(FrameHandler(rewrite), Sink(inner, "", "", false), chunks);
      !k.failed && k.down + k.pending == Joined(chunks)
  {
    var start := Sink(inner, "", "", false);
    forall s: S, f ensures FrameHandler(rewrite)(s, f).1 == Some(f) {
      hide Lines, Gathered, Trim;
    }
    assert Terminator("").None?;
    ChunksAsOne(FrameHandler(rewrite), start, chunks);
    assert start.(pending := "" + Joined(chunks)) == Sink(inner, Joined(chunks), "", false);
    UntouchedFramesPass(FrameHandler(rewrite), Sink(inner, Joined(chunks), "", false));
    hide FrameOut, Terminator, Drain;
  }

  /** One frame as the loop of Write handles it. */
  method RewriteFrame<S>(rewrite: Handler<S>, inner: S, frame: Chunk) returns (next: S, out: Option<Chunk>)
    ensures (next, out) == FrameOut(rewrite, inner, frame)
  {
    var lines := Lines(frame);
    var payload := GatherPayload(lines);
    if |payload| == 0 {
      return inner, Some(frame);
    }
    var (state, rewritten) := rewrite(inner, Trim(payload));
    if rewritten.None? {
      return state, None;
    }
    if rewritten.value == Trim(payload) {
      return state, Some(frame);
    }
    var result := Rebuild(lines, rewritten.value);
    return state, Some(result);
  }
}
