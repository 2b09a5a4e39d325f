/** One server-sent-event frame in internal/opencode/tool_alias.go: its data lines
    are gathered into a payload; if rewriting changes the payload the frame is
    rebuilt around it, otherwise it goes on byte for byte. */
module SsePayload {
  import opened Bytes
  import opened SseFrames

  /** bytes.Split on the newline. */
  function Lines(s: string): (lines: seq<string>)
    ensures |lines| > 0 && forall i :: 0 <= i < |lines| ==> '\n' !in lines[i]
  {
    if |s| == 0 then [""]
    else if s[0] == '\n' then [""] + Lines(s[1..])
    else var rest := Lines(s[1..]); [[s[0]] + rest[0]] + rest[1..]
  }

  const DATA: string := "data:"

  predicate IsData(line: string) { DATA <= line }

  predicate IsKept(line: string) { !IsData(line) && |Trim(line)| > 0 }

  /** The data of every data line, each followed by a newline. */
  function Gathered(lines: seq<string>): string
    decreases |lines|
  {
    if |lines| == 0 then ""
    else (if IsData(lines[0]) then Trim(lines[0][5..]) + "\n" else "") + Gathered(lines[1..])
  }

  function Payload(frame: string): string { Trim(Gathered(Lines(frame))) }

  /** The lines that survive a rewrite: event names, ids, comments. */
  function Kept(lines: seq<string>): seq<string>
    decreases |lines|
  {
    if |lines| == 0 then [] else (if IsKept(lines[0]) then [lines[0]] else []) + Kept(lines[1..])
  }

  function Unlines(lines: seq<string>): string
    decreases |lines|
  {
    if |lines| == 0 then "" else lines[0] + "\n" + Unlines(lines[1..])
  }

  function Rebuilt(frame: string, payload: string): string {
    Unlines(Kept(Lines(frame))) + "data: " + payload + "\n\n"
  }

  /** One frame through the rewriter: no data passes, a failure stops, an unchanged
      payload passes the frame as it is. */
  function FrameOut<S>(rewrite: Handler<S>, inner: S, frame: string): (S, Option<string>) {
    if |Gathered(Lines(frame))| == 0 then (inner, Some(frame))
    else
      var (next, out) := rewrite(inner, Payload(frame));
      if out.None? then (next, None)
      else if out.value == Payload(frame) then (next, Some(frame))
      else (next, Some(Rebuilt(frame, out.value)))
  }

  method GatherPayload(lines: seq<string>) returns (payload: string)
    ensures payload == Gathered(lines)
  {
    payload := "";
    for i := 0 to |lines|
      invariant payload + Gathered(lines[i..]) == Gathered(lines)
    {
      assert lines[i..][1..] == lines[i + 1..];
      if DATA <= lines[i] {
        payload := payload + Trim(lines[i][5..]);
        payload := payload + "\n";
      }
    }
    assert lines[|lines|..] == [];
  }

  lemma KeptFrom(lines: seq<string>, i: nat)
    requires i < |lines|
    ensures Unlines(Kept(lines[i..]))
         == (if IsKept(lines[i]) then lines[i] + "\n" else "") + Unlines(Kept(lines[i + 1..]))
  {
    hide Trim;
    var rest := Kept(lines[i + 1..]);
    assert lines[i..][0] == lines[i] && lines[i..][1..] == lines[i + 1..];
    assert ([lines[i]] + rest)[1..] == rest;
    assert [] + rest == rest && "" + Unlines(rest) == Unlines(rest);
  }

  method Rebuild(lines: seq<string>, rewritten: string) returns (result: string)
    ensures result == Unlines(Kept(lines)) + "data: " + rewritten + "\n\n"
  {
    hide Kept, Unlines, Trim;
    result := "";
    assert lines[0..] == lines;
    for i := 0 to |lines|
      invariant result + Unlines(Kept(lines[i..])) == Unlines(Kept(lines))
    {
      var line := lines[i];
      KeptFrom(lines, i);
      ghost var before, rest := result, Unlines(Kept(lines[i + 1..]));
      if !(DATA <= line) && |Trim(line)| > 0 {
        result := result + line + "\n";
        assert before + (line + "\n" + rest) == result + rest;
      } else {
        assert "" + rest == rest;
      }
    }
    assert lines[|lines|..] == [];
    NothingKept();
    assert result + "" == result;
    result := result + "data: " + rewritten + "\n\n";
  }

  lemma NothingKept()
    ensures Unlines(Kept([])) == ""
  {
  }

  // --------------------------------------------------------------- round trip

  lemma TrimmedStays(s: string)
    requires Trimmed(s)
    ensures Trim(s) == s && Trim(" " + s) == s && Trim(s + "\n") == s
  {
    if |s| == 0 {
      TrimmedEmpty();
      assert " " + s == " " && s + "\n" == "\n";
    } else {
      assert "" + s + "" == s && " " + s + "" == " " + s && "" + s + "\n" == s + "\n";
      hide Trim, Trimmed;
      TrimAround("", s, "");
      TrimAround(" ", s, "");
      TrimAround("", s, "\n");
    }
  }

  lemma TrimmedEmpty()
    ensures Trim("") == Trim(" ") == Trim("\n") == ""
  {
    assert TrimLeft(" ") == TrimLeft(" "[1..]) && TrimLeft("\n") == TrimLeft("\n"[1..]);
  }

  lemma {:induction false} LinesOfUnlines(lines: seq<string>, rest: string)
    requires forall i :: 0 <= i < |lines| ==> '\n' !in lines[i]
    ensures Lines(Unlines(lines) + rest) == lines + Lines(rest)
    decreases |lines|
  {
    hide Lines;
    if |lines| == 0 {
      assert lines + Lines(rest) == Lines(rest);
      assert Unlines(lines) + rest == rest;
    } else {
      LinesOfUnlines(lines[1..], rest);
      OneLineOff(lines, rest);
      hide Unlines;
      LineThenRest(lines[0], Unlines(lines[1..]) + rest);
      HeadAndTail(lines, Lines(rest));
    }
  }

  lemma HeadAndTail(lines: seq<string>, more: seq<string>)
    requires |lines| > 0
    ensures [lines[0]] + (lines[1..] + more) == lines + more
  {
  }

  lemma OneLineOff(lines: seq<string>, rest: string)
    requires |lines| > 0
    ensures Unlines(lines) + rest == lines[0] + "\n" + (Unlines(lines[1..]) + rest)
  {
  }

  lemma {:induction false} LineThenRest(line: string, rest: string)
    requires '\n' !in line
    ensures Lines(line + "\n" + rest) == [line] + Lines(rest)
  {
    var s := line + "\n" + rest;
    if |line| == 0 {
      assert s[1..] == rest;
    } else {
      assert s[1..] == line[1..] + "\n" + rest;
      LineThenRest(line[1..], rest);
      assert [s[0]] + line[1..] == line;
    }
  }

  lemma {:induction false} KeptLines(lines: seq<string>, more: seq<string>)
    ensures Kept(Kept(lines) + more) == Kept(lines) + Kept(more)
    ensures Gathered(Kept(lines) + more) == Gathered(more)
    decreases |lines|
  {
    hide Trim;
    if |lines| == 0 {
      assert [] + more == more;
    } else {
      KeptLines(lines[1..], more);
      if IsKept(lines[0]) {
        assert Kept(lines) == [lines[0]] + Kept(lines[1..]);
        assert (Kept(lines) + more)[0] == lines[0] && (Kept(lines) + more)[1..] == Kept(lines[1..]) + more;
      } else {
        assert Kept(lines) == Kept(lines[1..]);
      }
    }
  }

  lemma {:induction false} KeptAreLines(lines: seq<string>)
    requires forall i :: 0 <= i < |lines| ==> '\n' !in lines[i]
    ensures forall i :: 0 <= i < |Kept(lines)| ==> '\n' !in Kept(lines)[i] && |Trim(Kept(lines)[i])| > 0
    decreases |lines|
  {
    if |lines| > 0 {
      KeptAreLines(lines[1..]);
    }
  }

  lemma RebuiltLines(frame: string, payload: string)
    requires '\n' !in payload
    ensures Lines(Rebuilt(frame, payload)) == Kept(Lines(frame)) + ["data: " + payload, "", ""]
  {
    var kept := Kept(Lines(frame));
    KeptAreLines(Lines(frame));
    var line := "data: " + payload;
    assert Rebuilt(frame, payload) == Unlines(kept) + (line + "\n" + "\n");
    LinesOfUnlines(kept, line + "\n" + "\n");
    LineThenRest(line, "\n");
    LineThenRest("", "");
    assert "" + "\n" + "" == "\n";
    assert Lines("") == [""];
    assert [line] + ([""] + [""]) == [line, "", ""];
  }

  lemma DataTail(payload: string)
    requires Trimmed(payload)
    ensures Gathered(["data: " + payload, "", ""]) == payload + "\n" && Kept(["data: " + payload, "", ""]) == []
  {
    var line := "data: " + payload;
    var tail := [line, "", ""];
    assert tail[1..] == ["", ""] && ["", ""][1..] == [""] && [""][1..] == [];
    assert IsData(line) && line[5..] == " " + payload;
    TrimmedStays(payload);
    assert Trim("") == "";
    assert Gathered([""]) == "" && Gathered(["", ""]) == "";
    assert Kept([""]) == [] && Kept(["", ""]) == [] && Kept(tail) == [];
    assert payload + "\n" + "" == payload + "\n";
  }

  /** A rebuilt frame carries exactly the rewritten payload and the frame's other
      lines in order. */
  lemma RebuiltCarriesPayload(frame: string, payload: string)
    requires '\n' !in payload && Trimmed(payload)
    ensures Payload(Rebuilt(frame, payload)) == payload
    ensures Kept(Lines(Rebuilt(frame, payload))) == Kept(Lines(frame))
  {
    var kept := Kept(Lines(frame));
    RebuiltLines(frame, payload);
    KeptLines(Lines(frame), ["data: " + payload, "", ""]);
    DataTail(payload);
    TrimmedStays(payload);
    hide Trim, Kept, Gathered, Lines, Rebuilt;
    assert kept + [] == kept;
  }

  // ----------------------------------------------------- what the lines stand for

  /** The lines that survive are exactly those that are neither data nor blank: each
      line is judged by itself, and their order stays. */
  lemma {:induction false} KeptIsFilter(a: seq<string>, b: seq<string>)
    ensures Kept(a + b) == Kept(a) + Kept(b)
    decreases |a|
  {
    if |a| == 0 {
      assert a + b == b && [] + Kept(b) == Kept(b);
    } else {
      assert (a + b)[0] == a[0] && (a + b)[1..] == a[1..] + b;
      KeptIsFilter(a[1..], b);
      var head := if IsKept(a[0]) then [a[0]] else [];
      assert head + (Kept(a[1..]) + Kept(b)) == head + Kept(a[1..]) + Kept(b);
    }
  }

  lemma KeptOfOne(line: string)
    ensures Kept([line]) == if DATA <= line || Trim(line) == "" then [] else [line]
  {
    assert [line][1..] == [];
  }

  /** A frame as a server writes it: each data line may have padding before and after
      its text, a carriage return included. */
  function DataLines(texts: seq<string>, before: string, after: string): seq<string>
    decreases |texts|
  {
    if |texts| == 0 then [] else [DATA + before + texts[0] + after] + DataLines(texts[1..], before, after)
  }

  function Joint(texts: seq<string>): string
    decreases |texts|
  {
    if |texts| == 0 then "" else texts[0] + "\n" + Joint(texts[1..])
  }

  lemma {:induction false} GatheredData(texts: seq<string>, before: string, after: string)
    requires AllSpace(before) && AllSpace(after)
    requires forall i :: 0 <= i < |texts| ==> |texts[i]| > 0 && Trimmed(texts[i])
    ensures Gathered(DataLines(texts, before, after)) == Joint(texts)
    decreases |texts|
  {
    if |texts| > 0 {
      var line := DATA + before + texts[0] + after;
      assert IsData(line) && line[5..] == before + texts[0] + after;
      TrimAround(before, texts[0], after);
      GatheredData(texts[1..], before, after);
      assert DataLines(texts, before, after)[1..] == DataLines(texts[1..], before, after);
      hide Trim;
      assert texts[0] + "\n" + Joint(texts[1..]) == texts[0] + ("\n" + Joint(texts[1..]));
    }
  }

  lemma {:induction false} GatheredConcat(a: seq<string>, b: seq<string>)
    ensures Gathered(a + b) == Gathered(a) + Gathered(b)
    decreases |a|
  {
    hide Trim;
    if |a| == 0 {
      assert a + b == b;
    } else {
      assert (a + b)[0] == a[0] && (a + b)[1..] == a[1..] + b;
      GatheredConcat(a[1..], b);
      var head := if IsData(a[0]) then Trim(a[0][5..]) + "\n" else "";
      assert head + (Gathered(a[1..]) + Gathered(b)) == head + Gathered(a[1..]) + Gathered(b);
    }
  }

  lemma GatheredOther(line: string)
    requires !(DATA <= line)
    ensures Gathered([line]) == ""
  {
    assert [line][1..] == [];
  }

  /** The payload of a frame is the texts of all its data lines, in order, one per line
      - whatever padding they have, with line feed or carriage return and line feed. */
  lemma PayloadIsDataText(texts: seq<string>, before: string, after: string)
    requires |texts| > 0 && AllSpace(before) && AllSpace(after) && '\n' !in before && '\n' !in after
    requires forall i :: 0 <= i < |texts| ==> |texts[i]| > 0 && Trimmed(texts[i]) && '\n' !in texts[i]
    ensures var payload := Payload(Unlines(DataLines(texts, before, after)) + "\n"); payload + "\n" == Joint(texts)
  {
    var lines := DataLines(texts, before, after);
    DataLinesAreLines(texts, before, after);
    LinesOfUnlines(lines, "\n");
    LineThenRest("", "");
    assert "" + "\n" + "" == "\n" && Lines("") == [""];
    assert Lines(Unlines(lines) + "\n") == lines + [""] + [""];
    GatheredData(texts, before, after);
    GatheredConcat(lines + [""], [""]);
    GatheredConcat(lines, [""]);
    GatheredOther("");
    assert Gathered(Lines(Unlines(lines) + "\n")) == Joint(texts);
    JointTrims(texts);
  }

  lemma {:induction false} DataLinesAreLines(texts: seq<string>, before: string, after: string)
    requires '\n' !in before && '\n' !in after
    requires forall i :: 0 <= i < |texts| ==> '\n' !in texts[i]
    ensures forall i :: 0 <= i < |DataLines(texts, before, after)| ==> '\n' !in DataLines(texts, before, after)[i]
    decreases |texts|
  {
    if |texts| > 0 {
      DataLinesAreLines(texts[1..], before, after);
    }
  }

  /** Texts one per line: trimming takes the last line break and nothing else. */
  lemma {:induction false} JointTrims(texts: seq<string>)
    requires |texts| > 0 && forall i :: 0 <= i < |texts| ==> |texts[i]| > 0 && Trimmed(texts[i]) && '\n' !in texts[i]
    ensures Trim(Joint(texts)) + "\n" == Joint(texts)
  {
    var body := JointBody(texts);
    TrimmedBody(texts);
    TrimAround("", body, "\n");
    assert "" + body + "\n" == body + "\n";
  }

  function JointBody(texts: seq<string>): string
    requires |texts| > 0
    decreases |texts|
  {
    if |texts| == 1 then texts[0] else texts[0] + "\n" + JointBody(texts[1..])
  }

  lemma {:induction false} TrimmedBody(texts: seq<string>)
    requires |texts| > 0 && forall i :: 0 <= i < |texts| ==> |texts[i]| > 0 && Trimmed(texts[i]) && '\n' !in texts[i]
    ensures |JointBody(texts)| > 0 && Trimmed(JointBody(texts)) && JointBody(texts) + "\n" == Joint(texts)
    decreases |texts|
  {
    if |texts| == 1 {
      assert Joint(texts[1..]) == "";
      assert texts[0] + "\n" + "" == texts[0] + "\n";
    } else {
      var rest := JointBody(texts[1..]);
      TrimmedBody(texts[1..]);
      TrimmedLines(texts[0], rest);
      assert texts[0] + "\n" + rest + "\n" == texts[0] + "\n" + (rest + "\n");
    }
  }

  lemma TrimmedLines(first: string, rest: string)
    requires |first| > 0 && |rest| > 0 && Trimmed(first) && Trimmed(rest)
    ensures Trimmed(first + "\n" + rest)
  {
    var s := first + "\n" + rest;
    var e, n := |s|, |rest|;
    assert s[e - 1] == rest[n - 1];
    assert n >= 2 ==> s[e - 2] == rest[n - 2];
    assert n >= 3 ==> s[e - 3] == rest[n - 3];
    assert n == 1 ==> s[e - 2] == '\n';
    assert n == 2 ==> s[e - 3] == '\n';
  }

  // ------------------------------------------------------------ one frame only

  /** Two newlines from `i` on with at most a carriage return between them. */
  predicate GapAt(s: string, i: nat) {
    i + 1 < |s| && s[i] == '\n' && (s[i + 1] == '\n' || (s[i + 1] == '\r' && i + 2 < |s| && s[i + 2] == '\n'))
  }

  ghost predicate Gapless(s: string) { forall i: nat :: !GapAt(s, i) }

  /** A text that does not begin with a blank line. */
  predicate StartsFilled(s: string) {
    |s| > 0 && s[0] != '\n' && (s[0] == '\r' && |s| > 1 ==> s[1] != '\n')
  }

  lemma FilledLine(line: string, rest: string)
    requires '\n' !in line && |Trim(line)| > 0
    ensures StartsFilled(line + "\n" + rest)
  {
    if |line| == 1 {
      assert line[1..] == "" && TrimLeft(line) == if Space(line[0]) then TrimLeft("") else line;
    }
  }

  lemma LineKeepsGapless(line: string, rest: string)
    requires '\n' !in line && Gapless(rest) && StartsFilled(rest)
    ensures Gapless(line + "\n" + rest)
  {
    var s := line + "\n" + rest;
    var n := |line| + 1;
    forall i: nat ensures !GapAt(s, i) {
      if n <= i {
        SameAfter(line + "\n", rest, i - n);
      } else if i < |line| {
        assert s[i] == line[i];
      } else if i + 1 < |s| {
        assert s[n] == rest[0];
        if n + 1 < |s| { assert s[n + 1] == rest[1]; }
      }
    }
  }

  lemma SameAfter(front: string, rest: string, i: nat)
    requires Gapless(rest)
    ensures !GapAt(front + rest, |front| + i)
  {
    assert !GapAt(rest, i);
    var s := front + rest;
    if i < |rest| { assert s[|front| + i] == rest[i]; }
    if i + 1 < |rest| { assert s[|front| + i + 1] == rest[i + 1]; }
    if i + 2 < |rest| { assert s[|front| + i + 2] == rest[i + 2]; }
  }

  lemma {:induction false} UnlinesGapless(lines: seq<string>, rest: string)
    requires forall i :: 0 <= i < |lines| ==> '\n' !in lines[i] && |Trim(lines[i])| > 0
    requires Gapless(rest) && StartsFilled(rest)
    ensures Gapless(Unlines(lines) + rest) && StartsFilled(Unlines(lines) + rest)
    decreases |lines|
  {
    if |lines| == 0 {
      assert Unlines(lines) + rest == rest;
    } else {
      UnlinesGapless(lines[1..], rest);
      var tail := Unlines(lines[1..]) + rest;
      OneLineOff(lines, rest);
      LineKeepsGapless(lines[0], tail);
      FilledLine(lines[0], tail);
    }
  }

  /** A rebuilt frame is one frame: its only terminator is the one at its end. */
  lemma RebuiltIsOneFrame(frame: string, payload: string)
    requires '\n' !in payload
    ensures Terminator(Rebuilt(frame, payload)) == Some(Cut(|Rebuilt(frame, payload)| - 2, 2))
  {
    var kept := Kept(Lines(frame));
    KeptAreLines(Lines(frame));
    hide Trim, Kept, Lines, Terminator;
    var last := "data: " + payload + "\n";
    LastLine(payload);
    UnlinesGapless(kept, last);
    var body := Unlines(kept) + last;
    hide Gapless, Unlines;
    assert Rebuilt(frame, payload) == body + "\n";
    assert body[|body| - 1] == last[|last| - 1] && body[|body| - 2] == last[|last| - 2];
    GaplessThenNewline(body);
  }

  lemma LastLine(payload: string)
    requires '\n' !in payload
    ensures var last := "data: " + payload + "\n";
            Gapless(last) && StartsFilled(last) && |last| > 6 && last[|last| - 1] == '\n' && last[|last| - 2] != '\n'
  {
    var line := "data: " + payload;
    assert '\n' !in line;
    var last := line + "\n";
    forall i: nat ensures !GapAt(last, i) {
      if i < |line| { assert last[i] == line[i]; }
    }
    assert last[0] == 'd' && last[|last| - 2] == line[|line| - 1];
  }

  lemma GaplessThenNewline(body: string)
    requires |body| > 1 && Gapless(body) && body[|body| - 1] == '\n' && body[|body| - 2] != '\n'
    ensures Terminator(body + "\n") == Some(Cut(|body| - 1, 2))
  {
    var all := body + "\n";
    assert all[|body| - 1..|body| + 1] == LF;
    assert FoundAt(all, LF, |body| - 1);
    var lf, cr := Index(all, LF, 0), Index(all, CRLF, 0);
    LfIsGap(body, lf.value);
    if cr.Some? {
      CrlfIsGap(body, cr.value);
    }
  }

  lemma LfIsGap(body: string, i: nat)
    ensures FoundAt(body + "\n", LF, i) && i + 1 < |body| ==> GapAt(body, i)
  {
    var all := body + "\n";
    if FoundAt(all, LF, i) && i + 1 < |body| {
      assert all[i..i + 2][0] == body[i] && all[i..i + 2][1] == body[i + 1];
    }
  }

  lemma CrlfIsGap(body: string, i: nat)
    requires |body| > 0
    ensures FoundAt(body + "\n", CRLF, i) ==> GapAt(body, i + 1) || body[|body| - 1] == '\r'
  {
    var all := body + "\n";
    if FoundAt(all, CRLF, i) {
      assert all[i..i + 4][1] == body[i + 1] && all[i..i + 4][2] == body[i + 2] && all[i..i + 4][3] == all[i + 3];
    }
  }
}
