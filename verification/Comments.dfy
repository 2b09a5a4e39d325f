/** The comment stripper of internal/opencode/config_proxy.go: line and block
    comments become spaces, everything else and every line break stays in place. */
module Comments {

  datatype Option<+T> = None | Some(value: T)

  /** The byte order mark; a char stands for one byte. */
  const BOM: string := [0xEF as char, 0xBB as char, 0xBF as char]

  function WithoutBom(s: string): string { if BOM <= s then s[3..] else s }

  predicate Break(c: char) { c == '\n' || c == '\r' }

  // -------------------------------------------------------------- the stripper

  datatype Mode = Code | Quote | Escape | Line | Block

  function Then(front: string, rest: Option<string>): Option<string> {
    if rest.Some? then Some(front + rest.value) else None
  }

  function Erased(c: char): string { if Break(c) then [c] else " " }

  /** What the rest of the input becomes; None for a block comment left open. */
  function Strip(m: Mode, s: string): Option<string>
    decreases |s|
  {
    if |s| == 0 then (if m.Block? then None else Some(""))
    else
      match m
      case Line => Then(Erased(s[0]), Strip(if Break(s[0]) then Code else Line, s[1..]))
      case Block => if "*/" <= s then Then("  ", Strip(Code, s[2..])) else Then(Erased(s[0]), Strip(Block, s[1..]))
      case Escape => Then([s[0]], Strip(Quote, s[1..]))
      case Quote =>
        Then([s[0]], Strip(if s[0] == '\\' then Escape else if s[0] == '"' then Code else Quote, s[1..]))
      case Code =>
        if s[0] == '"' then Then("\"", Strip(Quote, s[1..]))
        else if "//" <= s then Then("  ", Strip(Line, s[2..]))
        else if "/*" <= s then Then("  ", Strip(Block, s[2..]))
        else Then([s[0]], Strip(Code, s[1..]))
  }

  function StripJSONComments(data: string): Option<string> { Strip(Code, WithoutBom(data)) }

  lemma ThenThen(a: string, b: string, rest: Option<string>)
    ensures Then(a, Then(b, rest)) == Then(a + b, rest)
  {
    if rest.Some? {
      assert a + (b + rest.value) == (a + b) + rest.value;
    }
  }

  /** The mode the flags of the loop stand for. */
  function ModeOf(inString: bool, escaped: bool, lineComment: bool, blockComment: bool): Mode {
    if lineComment then Line else if blockComment then Block
    else if inString then (if escaped then Escape else Quote) else Code
  }

  /** The loop of stripJSONComments. */
  method Run(input: string) returns (result: Option<string>)
    ensures result == StripJSONComments(input)
  {
    var data := if BOM <= input then input[3..] else input;
    var out := "";
    var inString, escaped, lineComment, blockComment := false, false, false, false;
    var i := 0;
    assert Then("", Strip(Code, data)) == Strip(Code, data) by {
      if Strip(Code, data).Some? { assert "" + Strip(Code, data).value == Strip(Code, data).value; }
    }
    assert data[0..] == data;
    while i < |data|
      invariant i <= |data|
      invariant (lineComment || blockComment ==> !inString) && !(lineComment && blockComment) && (escaped ==> inString)
      invariant Then(out, Strip(ModeOf(inString, escaped, lineComment, blockComment), data[i..])) == Strip(Code, data)
    {
      var current := data[i];
      ghost var s, before := data[i..], out;
      ghost var mode := ModeOf(inString, escaped, lineComment, blockComment);
      var two := i + 1 < |data|;
      assert s[1..] == data[i + 1..] && (two ==> s[2..] == data[i + 2..]);
      if lineComment {
        if Break(current) {
          lineComment := false;
          out := out + [current];
        } else {
          out := out + " ";
        }
      } else if blockComment {
        if current == '*' && two && data[i + 1] == '/' {
          out := out + "  ";
          i := i + 1;
          blockComment := false;
        } else if Break(current) {
          out := out + [current];
        } else {
          out := out + " ";
        }
      } else if inString {
        out := out + [current];
        if escaped {
          escaped := false;
        } else if current == '\\' {
          escaped := true;
        } else if current == '"' {
          inString := false;
        }
      } else if current == '"' {
        inString := true;
        out := out + [current];
      } else if current == '/' && two && data[i + 1] == '/' {
        lineComment := true;
        out := out + "  ";
        i := i + 1;
      } else if current == '/' && two && data[i + 1] == '*' {
        blockComment := true;
        out := out + "  ";
        i := i + 1;
      } else {
        out := out + [current];
      }
      i := i + 1;
      ghost var added := out[|before|..];
      assert out == before + added;
      ThenThen(before, added, Strip(ModeOf(inString, escaped, lineComment, blockComment), data[i..]));
    }
    if blockComment {
      return None;
    }
    assert out + "" == out;
    result := Some(out);
  }

  // -------------------------------------------------------- what a text is made of

  /** The parts of a configuration text, in its author's terms. */
  datatype Piece =
    | Plain(c: char)                     // one byte outside strings and comments
    | Text(body: string, closed: bool)   // a string, possibly cut off by the end
    | LineNote(body: string)             // "//" up to the line break
    | BlockNote(body: string)            // "/*" up to the first "*/"

  function Written(p: Piece): string {
    match p
    case Plain(c) => [c]
    case Text(body, closed) => "\"" + body + (if closed then "\"" else "")
    case LineNote(body) => "//" + body
    case BlockNote(body) => "/*" + body + "*/"
  }

  function Blanks(s: string): string
    decreases |s|
  {
    if |s| == 0 then "" else Erased(s[0]) + Blanks(s[1..])
  }

  predicate IsComment(p: Piece) { p.LineNote? || p.BlockNote? }

  /** The same piece without its comment. */
  function Cleared(p: Piece): string {
    if IsComment(p) then Blanks(Written(p)) else Written(p)
  }

  function WrittenAll(ps: seq<Piece>): string
    decreases |ps|
  {
    if |ps| == 0 then "" else Written(ps[0]) + WrittenAll(ps[1..])
  }

  function ClearedAll(ps: seq<Piece>): string
    decreases |ps|
  {
    if |ps| == 0 then "" else Cleared(ps[0]) + ClearedAll(ps[1..])
  }

  /** String bodies: a quote only behind a backslash; `closed` also asks that no
      backslash is left over. */
  predicate Body(s: string, closed: bool)
    decreases |s|
  {
    |s| == 0
    || (if s[0] == '\\' then (if |s| > 1 then Body(s[2..], closed) else !closed)
        else s[0] != '"' && Body(s[1..], closed))
  }

  predicate Closes(s: string, i: nat) { i + 1 < |s| && s[i] == '*' && s[i + 1] == '/' }

  /** A piece before `rest` is read as that piece. */
  predicate Fits(p: Piece, rest: string) {
    match p
    case Plain(c) => c != '"' && (c == '/' ==> |rest| == 0 || (rest[0] != '/' && rest[0] != '*'))
    case Text(body, closed) => Body(body, closed) && (!closed ==> rest == "")
    case LineNote(body) => (forall i :: 0 <= i < |body| ==> !Break(body[i])) && (|rest| > 0 ==> Break(rest[0]))
    case BlockNote(body) => forall i :: 0 <= i < |body| ==> !Closes(body + "*/", i)
  }

  /** The pieces, each read as itself, in front of `rest`. */
  predicate FitBefore(ps: seq<Piece>, rest: string)
    decreases |ps|
  {
    |ps| == 0 || (Fits(ps[0], WrittenAll(ps[1..]) + rest) && FitBefore(ps[1..], rest))
  }

  // ------------------------------------------------------ stripping clears pieces

  lemma {:induction false} StripBody(body: string, closed: bool, rest: string)
    requires Body(body, closed) && (!closed ==> rest == "")
    ensures Strip(Quote, body + (if closed then "\"" + rest else ""))
        == Then(body + (if closed then "\"" else ""), Strip(Code, rest))
    decreases |body|
  {
    var tail := if closed then "\"" + rest else "";
    var end := if closed then "\"" else "";
    var s := body + tail;
    if |body| == 0 {
      assert s == tail && body + end == end;
      if closed {
        assert tail[1..] == rest;
      } else {
        assert Strip(Code, rest) == Some("") && Strip(Quote, s) == Some("");
      }
    } else if body[0] == '\\' {
      if |body| == 1 {
        assert s == "\\" && s[1..] == "";
        assert Strip(Escape, "") == Some("") && Strip(Code, rest) == Some("");
        assert body + end == "\\" && "\\" + "" == "\\";
      } else {
        assert s[1..][0] == body[1] && s[1..][1..] == body[2..] + tail;
        StripBody(body[2..], closed, rest);
        ThenThen([body[1]], body[2..] + end, Strip(Code, rest));
        ThenThen([body[0]], [body[1]] + (body[2..] + end), Strip(Code, rest));
        assert [body[0]] + ([body[1]] + (body[2..] + end)) == body + end;
      }
    } else {
      assert s[1..] == body[1..] + tail;
      StripBody(body[1..], closed, rest);
      ThenThen([body[0]], body[1..] + end, Strip(Code, rest));
      assert [body[0]] + (body[1..] + end) == body + end;
    }
  }

  lemma {:induction false} StripLine(body: string, rest: string)
    requires (forall i :: 0 <= i < |body| ==> !Break(body[i])) && (|rest| > 0 ==> Break(rest[0]))
    ensures Strip(Line, body + rest) == Then(Blanks(body), Strip(Code, rest))
    decreases |body|
  {
    if |body| == 0 {
      assert body + rest == rest;
      if |rest| > 0 {
        assert !("//" <= rest) && !("/*" <= rest);
      }
      if Strip(Code, rest).Some? {
        assert "" + Strip(Code, rest).value == Strip(Code, rest).value;
      }
    } else {
      assert (body + rest)[1..] == body[1..] + rest;
      StripLine(body[1..], rest);
      ThenThen(" ", Blanks(body[1..]), Strip(Code, rest));
    }
  }

  lemma {:induction false} StripBlock(body: string, rest: string)
    requires forall i :: 0 <= i < |body| ==> !Closes(body + "*/", i)
    ensures Strip(Block, body + ("*/" + rest)) == Then(Blanks(body) + "  ", Strip(Code, rest))
    decreases |body|
  {
    var s := body + ("*/" + rest);
    if |body| == 0 {
      assert s == "*/" + rest && s[2..] == rest;
      assert Blanks(body) + "  " == "  ";
    } else {
      assert !Closes(body + "*/", 0);
      assert s[0] == (body + "*/")[0] && s[1] == (body + "*/")[1];
      assert s[1..] == body[1..] + ("*/" + rest);
      forall i | 0 <= i < |body[1..]| ensures !Closes(body[1..] + "*/", i) {
        assert !Closes(body + "*/", i + 1);
        assert (body + "*/")[1..] == body[1..] + "*/";
      }
      StripBlock(body[1..], rest);
      ThenThen(Erased(body[0]), Blanks(body[1..]) + "  ", Strip(Code, rest));
      assert Erased(body[0]) + (Blanks(body[1..]) + "  ") == Blanks(body) + "  ";
    }
  }

  lemma {:induction false} BlanksConcat(a: string, b: string)
    ensures Blanks(a + b) == Blanks(a) + Blanks(b)
    decreases |a|
  {
    if |a| == 0 {
      assert a + b == b;
    } else {
      assert (a + b)[1..] == a[1..] + b;
      BlanksConcat(a[1..], b);
    }
  }

  lemma BlanksOfMark(s: string)
    requires s == "//" || s == "/*" || s == "*/"
    ensures Blanks(s) == "  "
  {
    assert s[1..][1..] == "";
    assert Blanks(s[1..]) == " " + "";
  }

  lemma StripText(p: Piece, rest: string)
    requires p.Text? && Fits(p, rest)
    ensures Strip(Code, Written(p) + rest) == Then(Cleared(p), Strip(Code, rest))
  {
    var s := Written(p) + rest;
    var end := if p.closed then "\"" else "";
    var tail := if p.closed then "\"" + rest else "";
    assert s == "\"" + (p.body + tail) && s[1..] == p.body + tail;
    StripBody(p.body, p.closed, rest);
    ThenThen("\"", p.body + end, Strip(Code, rest));
    assert "\"" + (p.body + end) == Written(p);
  }

  lemma StripLineNote(p: Piece, rest: string)
    requires p.LineNote? && Fits(p, rest)
    ensures Strip(Code, Written(p) + rest) == Then(Cleared(p), Strip(Code, rest))
  {
    var s := Written(p) + rest;
    assert s == "//" + (p.body + rest) && s[2..] == p.body + rest;
    StripLine(p.body, rest);
    ThenThen("  ", Blanks(p.body), Strip(Code, rest));
    BlanksConcat("//", p.body);
    BlanksOfMark("//");
  }

  lemma StripOpening(s: string)
    requires "/*" <= s
    ensures Strip(Code, s) == Then("  ", Strip(Block, s[2..]))
  {
    assert s[0] == '/' && s[1] == '*';
  }

  lemma StripBlockNote(p: Piece, rest: string)
    requires p.BlockNote? && Fits(p, rest)
    ensures Strip(Code, Written(p) + rest) == Then(Cleared(p), Strip(Code, rest))
  {
    var s := Written(p) + rest;
    BlockNoteText(p, rest);
    StripOpening(s);
    assert Cleared(p) == Blanks("/*" + p.body + "*/");
    hide Strip, Blanks, Then, Written, Cleared;
    StripBlock(p.body, rest);
    ThenThen("  ", Blanks(p.body) + "  ", Strip(Code, rest));
    BlanksOfNote(p.body);
  }

  lemma BlockNoteText(p: Piece, rest: string)
    requires p.BlockNote?
    ensures var s := Written(p) + rest; "/*" <= s && s[2..] == p.body + ("*/" + rest)
  {
    assert Written(p) + rest == "/*" + (p.body + ("*/" + rest));
  }

  lemma BlanksOfNote(body: string)
    ensures Blanks("/*" + body + "*/") == "  " + (Blanks(body) + "  ")
  {
    BlanksConcat("/*", body);
    BlanksConcat("/*" + body, "*/");
    BlanksOfMark("/*");
    BlanksOfMark("*/");
  }

  /** One piece at the front is cleared, and the rest is stripped on its own. */
  lemma StripPiece(p: Piece, rest: string)
    requires Fits(p, rest)
    ensures Strip(Code, Written(p) + rest) == Then(Cleared(p), Strip(Code, rest))
  {
    match p
    case Plain(c) =>
      var s := Written(p) + rest;
      assert s[0] == c && s[1..] == rest;
    case Text(_, _) => StripText(p, rest);
    case LineNote(_) => StripLineNote(p, rest);
    case BlockNote(_) => StripBlockNote(p, rest);
  }

  lemma {:induction false} StripAll(ps: seq<Piece>, rest: string)
    requires FitBefore(ps, rest)
    ensures Strip(Code, WrittenAll(ps) + rest) == Then(ClearedAll(ps), Strip(Code, rest))
    decreases |ps|
  {
    if |ps| == 0 {
      assert WrittenAll(ps) + rest == rest;
      if Strip(Code, rest).Some? {
        assert "" + Strip(Code, rest).value == Strip(Code, rest).value;
      }
    } else {
      var more := WrittenAll(ps[1..]) + rest;
      assert WrittenAll(ps) + rest == Written(ps[0]) + more;
      StripPiece(ps[0], more);
      StripAll(ps[1..], rest);
      ThenThen(Cleared(ps[0]), ClearedAll(ps[1..]), Strip(Code, rest));
    }
  }

  // ------------------------------------------------------- every text has pieces

  function BodyLength(s: string): (n: nat)
    ensures n <= |s|
    decreases |s|
  {
    if |s| == 0 || s[0] == '"' then 0
    else if s[0] == '\\' then (if |s| > 1 then 2 + BodyLength(s[2..]) else 1)
    else 1 + BodyLength(s[1..])
  }

  function LineLength(s: string): (n: nat)
    ensures n <= |s| && (forall i :: 0 <= i < n ==> !Break(s[i])) && (n < |s| ==> Break(s[n]))
    decreases |s|
  {
    if |s| == 0 || Break(s[0]) then 0 else 1 + LineLength(s[1..])
  }

  function BlockLength(s: string, from: nat): (n: Option<nat>)
    requires from <= |s|
    ensures n.Some? ==> from <= n.value && Closes(s, n.value)
    ensures forall i :: from <= i && (n.Some? ==> i < n.value) ==> !Closes(s, i)
    decreases |s| - from
  {
    if from == |s| then None else if Closes(s, from) then Some(from) else BlockLength(s, from + 1)
  }

  /** The first piece of a text, or none for a block comment left open. */
  function First(s: string): Option<Piece>
    requires |s| > 0
  {
    if s[0] == '"' then
      var n := BodyLength(s[1..]);
      Some(Text(s[1..][..n], n < |s| - 1))
    else if "//" <= s then Some(LineNote(s[2..][..LineLength(s[2..])]))
    else if "/*" <= s then
      var n := BlockLength(s[2..], 0);
      if n.None? then None else Some(BlockNote(s[2..][..n.value]))
    else Some(Plain(s[0]))
  }

  lemma {:induction false} BodyLengthFits(s: string)
    ensures var n := BodyLength(s); (n < |s| ==> s[n] == '"') && Body(s[..n], n < |s|)
    decreases |s|
  {
    if |s| > 0 && s[0] != '"' {
      if s[0] == '\\' {
        if |s| > 1 {
          BodyLengthFits(s[2..]);
          var n := BodyLength(s);
          assert s[..n][2..] == s[2..][..n - 2];
        }
      } else {
        BodyLengthFits(s[1..]);
        var n := BodyLength(s);
        assert s[..n][1..] == s[1..][..n - 1];
      }
    }
  }

  lemma FirstFits(s: string)
    requires |s| > 0 && First(s).Some?
    ensures var p := First(s).value;
            Written(p) <= s && |Written(p)| > 0 && Fits(p, s[|Written(p)|..])
  {
    if s[0] == '"' {
      FirstText(s);
    } else if "//" <= s {
      var n := LineLength(s[2..]);
      assert s == "//" + s[2..][..n] + s[2 + n..];
    } else if "/*" <= s {
      FirstBlock(s);
    }
  }

  lemma FirstText(s: string)
    requires |s| > 0 && s[0] == '"'
    ensures var p := First(s).value; Written(p) <= s && Fits(p, s[|Written(p)|..])
  {
    var tail := s[1..];
    var n := BodyLength(tail);
    BodyLengthFits(tail);
    var p := First(s).value;
    if n < |tail| {
      assert s == "\"" + tail[..n] + "\"" + tail[n + 1..];
    } else {
      assert s == "\"" + tail[..n] + "" + "";
    }
  }

  lemma FirstBlock(s: string)
    requires "/*" <= s && First(s).Some? && s[0] != '"' && !("//" <= s)
    ensures var p := First(s).value; Written(p) <= s && Fits(p, s[|Written(p)|..])
  {
    var tail := s[2..];
    var n := BlockLength(tail, 0).value;
    var body := tail[..n];
    assert tail[n..n + 2] == "*/";
    assert s == "/*" + body + "*/" + tail[n + 2..];
    forall i | 0 <= i < |body| ensures !Closes(body + "*/", i) {
      assert !Closes(tail, i);
      assert body + "*/" == tail[..n + 2];
    }
  }

  /** A block comment that nothing ends. */
  ghost predicate OpenBlock(s: string) { "/*" <= s && forall i :: 0 <= i ==> !Closes(s[2..], i) }

  /** Every text is pieces, each read as itself, and perhaps a block comment left open. */
  lemma {:induction false} Pieces(s: string) returns (ps: seq<Piece>, rest: string)
    ensures s == WrittenAll(ps) + rest && FitBefore(ps, rest) && (rest == "" || OpenBlock(rest))
    decreases |s|
  {
    if |s| == 0 {
      return [], "";
    }
    if First(s).None? {
      ps, rest := [], s;
      assert WrittenAll(ps) + rest == s;
      return;
    }
    var p := First(s).value;
    FirstFits(s);
    hide First, Written, Fits, WrittenAll, FitBefore;
    var tail := s[|Written(p)|..];
    assert s == Written(p) + tail;
    var more, end := Pieces(tail);
    OnePieceMore(p, more, end);
    ps, rest := [p] + more, end;
  }

  lemma OnePieceMore(p: Piece, ps: seq<Piece>, rest: string)
    requires Fits(p, WrittenAll(ps) + rest) && FitBefore(ps, rest)
    ensures WrittenAll([p] + ps) + rest == Written(p) + (WrittenAll(ps) + rest) && FitBefore([p] + ps, rest)
  {
    hide Fits, Written;
    assert ([p] + ps)[1..] == ps;
  }

  lemma {:induction false} OpenBlockFails(s: string)
    requires forall i :: 0 <= i ==> !Closes(s, i)
    ensures Strip(Block, s) == None
    decreases |s|
  {
    if |s| > 0 {
      assert !Closes(s, 0);
      forall i | 0 <= i ensures !Closes(s[1..], i) {
        assert !Closes(s, i + 1);
      }
      OpenBlockFails(s[1..]);
    }
  }

  // ------------------------------------------------------------------ theorems

  /** Stripping a text clears its comments and nothing else. */
  lemma StrippingClearsComments(ps: seq<Piece>)
    requires FitBefore(ps, "")
    ensures Strip(Code, WrittenAll(ps)) == Some(ClearedAll(ps))
  {
    StripAll(ps, "");
    assert WrittenAll(ps) + "" == WrittenAll(ps) && ClearedAll(ps) + "" == ClearedAll(ps);
  }

  lemma OpenEndFails(s: string, ps: seq<Piece>, rest: string)
    requires s == WrittenAll(ps) + rest && FitBefore(ps, rest) && OpenBlock(rest)
    ensures Strip(Code, s).None?
  {
    StripAll(ps, rest);
    OpenBlockFails(rest[2..]);
    StripOpening(rest);
  }

  lemma NoOpenEnd(s: string, ps: seq<Piece>)
    requires s == WrittenAll(ps) + "" && FitBefore(ps, "")
    ensures Strip(Code, s).Some?
  {
    StrippingClearsComments(ps);
    assert s == WrittenAll(ps);
  }

  /** It fails exactly for a text that ends inside a block comment. */
  lemma FailsIffBlockLeftOpen(s: string)
    ensures Strip(Code, s).None? <==>
              exists ps, rest :: s == WrittenAll(ps) + rest && FitBefore(ps, rest) && OpenBlock(rest)
  {
    var ps, rest := Pieces(s);
    hide Strip, FitBefore, OpenBlock, WrittenAll;
    if rest == "" {
      NoOpenEnd(s, ps);
    }
    forall qs, end | s == WrittenAll(qs) + end && FitBefore(qs, end) && OpenBlock(end)
      ensures Strip(Code, s).None?
    {
      OpenEndFails(s, qs, end);
    }
  }

  /** Nothing moves: same length, line breaks where they were, every byte kept or
      replaced by a space. */
  lemma {:induction false} NothingMoves(m: Mode, s: string)
    ensures var r := Strip(m, s);
            r.Some? ==> |r.value| == |s| && forall i :: 0 <= i < |s| ==>
                          (r.value[i] == s[i] || r.value[i] == ' ') && (s[i] in "\n\r" ==> r.value[i] == s[i])
    decreases |s|
  {
    if |s| > 0 {
      var two := |s| > 1 && ((m == Block && "*/" <= s) || (m == Code && s[0] != '"' && ("//" <= s || "/*" <= s)));
      var next := if m == Code
                  then (if s[0] == '"' then Quote else if "//" <= s then Line else if "/*" <= s then Block else Code)
                  else if m == Block then (if "*/" <= s then Code else Block)
                  else if m == Line then (if Break(s[0]) then Code else Line)
                  else if m == Escape then Quote
                  else if s[0] == '\\' then Escape else if s[0] == '"' then Code else Quote;
      NothingMoves(next, if two then s[2..] else s[1..]);
    }
  }

  lemma {:induction false} BlanksOfLine(s: string)
    requires forall i :: 0 <= i < |s| ==> s[i] !in "\n\r"
    ensures Blanks(s) == seq(|s|, _ => ' ')
    decreases |s|
  {
    if |s| > 0 {
      BlanksOfLine(s[1..]);
      assert !Break(s[0]) by { assert s[0] !in "\n\r"; }
      assert seq(|s|, _ => ' ') == " " + seq(|s| - 1, _ => ' ');
    }
  }

  /** A line comment ends at the first line feed or carriage return, which stays. */
  lemma LineCommentEndsAtEitherBreak(body: string, c: char, rest: string)
    requires (forall i :: 0 <= i < |body| ==> body[i] !in "\n\r") && c in "\n\r"
    ensures Strip(Code, "//" + body + [c] + rest)
         == Then(seq(|body| + 2, _ => ' ') + [c], Strip(Code, rest))
  {
    forall i | 0 <= i < |body| ensures !Break(body[i]) {
      assert body[i] !in "\n\r";
    }
    StripPiece(LineNote(body), [c] + rest);
    assert Written(LineNote(body)) + ([c] + rest) == "//" + body + [c] + rest;
    forall i | 0 <= i < |"//" + body| ensures ("//" + body)[i] !in "\n\r" {
      assert i >= 2 ==> ("//" + body)[i] == body[i - 2];
    }
    BlanksOfLine("//" + body);
    StripPiece(Plain(c), rest);
    ThenThen(seq(|body| + 2, _ => ' '), [c], Strip(Code, rest));
  }

  predicate HasComment(ps: seq<Piece>) { exists i :: 0 <= i < |ps| && IsComment(ps[i]) }

  lemma {:induction false} ClearedDiffers(ps: seq<Piece>)
    ensures |ClearedAll(ps)| == |WrittenAll(ps)|
    ensures ClearedAll(ps) == WrittenAll(ps) <==> !HasComment(ps)
    decreases |ps|
  {
    if |ps| > 0 {
      ClearedDiffers(ps[1..]);
      ClearedPiece(ps[0]);
      SameParts(Written(ps[0]), WrittenAll(ps[1..]), Cleared(ps[0]), ClearedAll(ps[1..]));
      CommentFirstOrLater(ps);
    }
  }

  lemma ClearedPiece(p: Piece)
    ensures |Cleared(p)| == |Written(p)| && (Cleared(p) == Written(p) <==> !IsComment(p))
  {
    BlanksLength(Written(p));
    if IsComment(p) {
      assert Written(p)[0] == '/' && Cleared(p)[0] == ' ';
    }
  }

  lemma SameParts(a: string, b: string, c: string, d: string)
    requires |a| == |c|
    ensures a + b == c + d <==> a == c && b == d
  {
    if a + b == c + d {
      assert a == (a + b)[..|a|] && c == (c + d)[..|a|];
      assert b == (a + b)[|a|..] && d == (c + d)[|a|..];
    }
  }

  lemma CommentFirstOrLater(ps: seq<Piece>)
    requires |ps| > 0
    ensures HasComment(ps) <==> IsComment(ps[0]) || HasComment(ps[1..])
  {
    if i :| 0 <= i < |ps[1..]| && IsComment(ps[1..][i]) {
      assert IsComment(ps[i + 1]);
    }
    if i :| 0 < i < |ps| && IsComment(ps[i]) {
      assert IsComment(ps[1..][i - 1]);
    }
  }

  lemma {:induction false} BlanksLength(s: string)
    ensures |Blanks(s)| == |s|
    decreases |s|
  {
    if |s| > 0 {
      BlanksLength(s[1..]);
    }
  }

  /** A text comes out unchanged if and only if it has no comment. */
  lemma UnchangedIffNoComment(ps: seq<Piece>)
    requires FitBefore(ps, "")
    ensures Strip(Code, WrittenAll(ps)) == Some(WrittenAll(ps)) <==> !HasComment(ps)
  {
    StrippingClearsComments(ps);
    ClearedDiffers(ps);
  }

  /** Stripped text, read again: comments have become blanks. */
  lemma {:induction false} StripAgain(m: Mode, s: string)
    ensures var r := Strip(m, s);
            r.Some? ==> Strip(if m == Line || m == Block then Code else m, r.value) == Some(r.value)
    decreases |s|
  {
    if |s| > 0 && Strip(m, s).Some? {
      match m
      case Line =>
        StripAgain(if Break(s[0]) then Code else Line, s[1..]);
        ReadBlank(Erased(s[0])[0], Strip(m, s).value);
      case Block =>
        if "*/" <= s {
          StripAgain(Code, s[2..]);
          ReadTwoBlanks(Strip(m, s).value);
        } else {
          StripAgain(Block, s[1..]);
          ReadBlank(Erased(s[0])[0], Strip(m, s).value);
        }
      case Escape => StripAgain(Quote, s[1..]); assert Strip(m, s).value[1..] == Strip(Quote, s[1..]).value;
      case Quote =>
        var next := if s[0] == '\\' then Escape else if s[0] == '"' then Code else Quote;
        StripAgain(next, s[1..]);
        assert Strip(m, s).value[1..] == Strip(next, s[1..]).value;
      case Code =>
        if s[0] == '"' {
          StripAgain(Quote, s[1..]);
          assert Strip(m, s).value[1..] == Strip(Quote, s[1..]).value;
        } else if "//" <= s {
          StripAgain(Line, s[2..]);
          ReadTwoBlanks(Strip(m, s).value);
        } else if "/*" <= s {
          StripAgain(Block, s[2..]);
          ReadTwoBlanks(Strip(m, s).value);
        } else {
          StripAgain(Code, s[1..]);
          ReadPlain(s);
        }
    }
  }

  lemma ReadBlank(c: char, out: string)
    requires |out| > 0 && out[0] == c && (c == ' ' || Break(c)) && Strip(Code, out[1..]) == Some(out[1..])
    ensures Strip(Code, out) == Some(out)
  {
    assert [c] + out[1..] == out;
  }

  lemma ReadTwoBlanks(out: string)
    requires |out| > 1 && out[0] == ' ' == out[1] && Strip(Code, out[2..]) == Some(out[2..])
    ensures Strip(Code, out) == Some(out)
  {
    assert out[1..][1..] == out[2..];
    ReadBlank(' ', out[1..]);
    ReadBlank(' ', out);
  }

  lemma ReadPlain(s: string)
    requires |s| > 0 && s[0] != '"' && !("//" <= s) && !("/*" <= s) && Strip(Code, s).Some?
    requires var tail := Strip(Code, s[1..]).value; Strip(Code, tail) == Some(tail)
    ensures var out := Strip(Code, s).value; Strip(Code, out) == Some(out)
  {
    var tail := Strip(Code, s[1..]).value;
    var out := [s[0]] + tail;
    NothingMoves(Code, s[1..]);
    assert out[1..] == tail;
    if s[0] == '/' && |s| > 1 {
      assert s[1] != '/' && s[1] != '*';
      assert tail[0] == s[1] || tail[0] == ' ';
    }
  }

  /** Stripping twice is stripping once, if and only if the input does not begin
      with two byte order marks: only one is removed at a time. */
  lemma IdempotentUnlessTwoMarks(data: string)
    requires StripJSONComments(data).Some?
    ensures var out := StripJSONComments(data).value;
            StripJSONComments(out) == Some(out) <==> !(BOM + BOM <= data)
  {
    var s := WithoutBom(data);
    var out := StripJSONComments(data).value;
    StripAgain(Code, s);
    NothingMoves(Code, s);
    MarkSurvives(s);
    assert BOM + BOM <= data <==> BOM <= data && BOM <= data[3..] by {
      if BOM + BOM <= data { assert data[..6] == BOM + BOM; assert data[..3] == BOM && data[3..6] == BOM; }
      if BOM <= data && BOM <= data[3..] { assert data[..6] == BOM + BOM; }
    }
    if BOM <= out {
      NothingMoves(Code, out[3..]);
      assert StripJSONComments(out).None? || |StripJSONComments(out).value| == |out| - 3;
    }
    assert !(BOM <= data) ==> s == data;
  }

  lemma MarkSurvives(s: string)
    requires Strip(Code, s).Some?
    ensures BOM <= Strip(Code, s).value <==> BOM <= s
  {
    NothingMoves(Code, s);
    var out := Strip(Code, s).value;
    if BOM <= out {
      assert out[0] == BOM[0] && out[1] == BOM[1] && out[2] == BOM[2];
      assert s[..3] == BOM;
    }
    if BOM <= s {
      assert s[0] == BOM[0] && s[1] == BOM[1] && s[2] == BOM[2];
      assert s[1..][0] == s[1] && s[1..][1..] == s[2..];
      assert Strip(Code, s) == Then([s[0]], Strip(Code, s[1..]));
      assert Strip(Code, s[1..]) == Then([s[1]], Strip(Code, s[2..]));
      assert Strip(Code, s[2..]) == Then([s[2]], Strip(Code, s[2..][1..]));
      assert out[..3] == BOM;
    }
  }
}
