/** The JSON complexity scanner of internal/app/request_capacity.go, for every
    JSON value (RFC 8259, sections 2 to 7) in every whitespace layout. */
module Complexity {
  import opened Bytes

  // --------------------------------------------------------------- the scanner

  /** `peak` is the greatest depth seen. */
  datatype Scan = Scan(inString: bool, escaped: bool, depth: int, items: nat, peak: int)

  const START := Scan(false, false, 0, 0, 0)

  function Max(a: int, b: int): (r: int)
    ensures r >= a && r >= b && (r == a || r == b)
  {
    if a < b then b else a
  }

  function Next(st: Scan, c: char): Scan {
    if st.inString then
      if st.escaped then st.(escaped := false)
      else if c == '\\' then st.(escaped := true)
      else if c == '"' then st.(inString := false)
      else st
    else if c == '"' then st.(inString := true)
    else if c == '{' || c == '[' then
      st.(depth := st.depth + 1, items := st.items + 1, peak := Max(st.peak, st.depth + 1))
    else if c == '}' || c == ']' then st.(depth := st.depth - 1)
    else if c == ',' || c == ':' then st.(items := st.items + 1)
    else st
  }

  function Scanned(st: Scan, text: string): Scan
    decreases |text|
  {
    if |text| == 0 then st else Scanned(Next(st, text[0]), text[1..])
  }

  /** A limit of zero or less is switched off. */
  predicate Within(items: int, depth: int, itemsLimit: int, depthLimit: int) {
    (depthLimit > 0 ==> depth <= depthLimit) && (itemsLimit > 0 ==> items <= itemsLimit)
  }

  predicate IsContainer(trimmed: string) { |trimmed| > 0 && (trimmed[0] == '{' || trimmed[0] == '[') }

  /** jsonWithinComplexity on any bytes at all. */
  predicate Accepted(body: string, itemsLimit: int, depthLimit: int) {
    var trimmed := Trim(body);
    IsContainer(trimmed) ==> var st := Scanned(START, trimmed); Within(st.items, st.peak, itemsLimit, depthLimit)
  }

  lemma {:induction false} ScanGrows(st: Scan, text: string)
    ensures Scanned(st, text).items >= st.items && Scanned(st, text).peak >= st.peak
    decreases |text|
  {
    if |text| > 0 {
      ScanGrows(Next(st, text[0]), text[1..]);
    }
  }

  /** The loop, with its early exit. */
  method JsonWithinComplexity(body: string, itemsLimit: int, depthLimit: int) returns (ok: bool)
    ensures ok == Accepted(body, itemsLimit, depthLimit)
  {
    if itemsLimit <= 0 && depthLimit <= 0 {
      return true;
    }
    var trimmed := Trim(body);
    if |trimmed| == 0 || (trimmed[0] != '{' && trimmed[0] != '[') {
      return true;
    }
    var inString, escaped := false, false;
    var depth, items := 0, 0;
    ghost var peak := 0;
    var i := 0;
    while i < |trimmed|
      invariant i <= |trimmed| && items >= 0 && depth <= peak && peak >= 0
      invariant Within(items, peak, itemsLimit, depthLimit)
      invariant Scanned(START, trimmed) == Scanned(Scan(inString, escaped, depth, items, peak), trimmed[i..])
    {
      var c := trimmed[i];
      assert trimmed[i..][1..] == trimmed[i + 1..];
      i := i + 1;
      if inString {
        if escaped {
          escaped := false;
        } else if c == '\\' {
          escaped := true;
        } else if c == '"' {
          inString := false;
        }
        continue;
      }
      match c {
        case '"' => inString := true;
        case '{' => depth, items := depth + 1, items + 1;
        case '[' => depth, items := depth + 1, items + 1;
        case '}' => depth := depth - 1;
        case ']' => depth := depth - 1;
        case ',' => items := items + 1;
        case ':' => items := items + 1;
        case _ =>
      }
      peak := Max(peak, depth);
      if (depthLimit > 0 && depth > depthLimit) || (itemsLimit > 0 && items > itemsLimit) {
        ScanGrows(Scan(inString, escaped, depth, items, peak), trimmed[i..]);
        return false;
      }
    }
    ok := true;
  }

  // ------------------------------------------------------------------ the trees

  /** A JSON value with its layout: every place where whitespace may stand holds
      some. A string is kept in its written form between the quotes. */
  datatype Json =
    | Text(raw: string)
    | Atom(raw: string)
    | Array(inside: string, elements: Elements)
    | Object(inside: string, members: Members)

  datatype Elements = NoElement | Element(before: string, value: Json, after: string, others: Elements)

  datatype Members =
    | NoMember
    | Member(before: string, key: string, mid: string, colon: string, value: Json, after: string, others: Members)

  predicate Blank(s: string) { forall i :: 0 <= i < |s| ==> s[i] in " \t\n\r" }

  /** The written form of a string: a quote or backslash only behind a backslash. */
  predicate StringBody(raw: string)
    decreases |raw|
  {
    |raw| == 0
    || (if raw[0] == '\\' then |raw| > 1 && StringBody(raw[2..]) else raw[0] != '"' && StringBody(raw[1..]))
  }

  /** Numbers, true, false and null are ASCII without quote, bracket, comma or colon. */
  predicate AtomBody(raw: string) {
    |raw| > 0 && forall i :: 0 <= i < |raw| ==> raw[i] !in "\"{}[],:" && !Space(raw[i]) && raw[i] as int < 128
  }

  predicate Valid(j: Json) {
    match j
    case Text(raw) => StringBody(raw)
    case Atom(raw) => AtomBody(raw)
    case Array(inside, elements) => Blank(inside) && ValidElements(elements)
    case Object(inside, members) => Blank(inside) && ValidMembers(members)
  }

  predicate ValidElements(e: Elements) {
    e.Element? ==> Blank(e.before) && Valid(e.value) && Blank(e.after) && ValidElements(e.others)
  }

  predicate ValidMembers(m: Members) {
    m.Member? ==>
      Blank(m.before) && StringBody(m.key) && Blank(m.mid) && Blank(m.colon) && Valid(m.value) && Blank(m.after)
      && ValidMembers(m.others)
  }

  function Quoted(raw: string): string { "\"" + raw + "\"" }

  function Render(j: Json): string {
    match j
    case Text(raw) => Quoted(raw)
    case Atom(raw) => raw
    case Array(inside, elements) => "[" + (inside + (RenderElements(elements) + "]"))
    case Object(inside, members) => "{" + (inside + (RenderMembers(members) + "}"))
  }

  function RenderElements(e: Elements): string {
    match e
    case NoElement => ""
    case Element(before, value, after, others) =>
      before + (Render(value) + (after + (if others.Element? then "," + RenderElements(others) else "")))
  }

  function RenderMembers(m: Members): string {
    match m
    case NoMember => ""
    case Member(before, key, mid, colon, value, after, others) =>
      before + (Quoted(key) + (mid + (":" + (colon + (Render(value) + (after
      + (if others.Member? then "," + RenderMembers(others) else "")))))))
  }

  /** The nesting depth of a value. */
  function Depth(j: Json): nat {
    match j
    case Text(_) => 0
    case Atom(_) => 0
    case Array(_, elements) => 1 + ElementsDepth(elements)
    case Object(_, members) => 1 + MembersDepth(members)
  }

  function ElementsDepth(e: Elements): nat {
    if e.NoElement? then 0 else Max(Depth(e.value), ElementsDepth(e.others))
  }

  function MembersDepth(m: Members): nat {
    if m.NoMember? then 0 else Max(Depth(m.value), MembersDepth(m.others))
  }

  /** Containers, commas and colons of a value. */
  function Items(j: Json): nat {
    match j
    case Text(_) => 0
    case Atom(_) => 0
    case Array(_, elements) => 1 + ElementsItems(elements)
    case Object(_, members) => 1 + MembersItems(members)
  }

  function ElementsItems(e: Elements): nat {
    if e.NoElement? then 0 else Items(e.value) + (if e.others.Element? then 1 else 0) + ElementsItems(e.others)
  }

  function MembersItems(m: Members): nat {
    if m.NoMember? then 0 else 1 + Items(m.value) + (if m.others.Member? then 1 else 0) + MembersItems(m.others)
  }

  // ---------------------------------------------------------------- the theorem

  lemma {:induction false} ScanConcat(st: Scan, a: string, b: string)
    ensures Scanned(st, a + b) == Scanned(Scanned(st, a), b)
    decreases |a|
  {
    if |a| == 0 {
      assert a + b == b;
    } else {
      assert (a + b)[0] == a[0] && (a + b)[1..] == a[1..] + b;
      ScanConcat(Next(st, a[0]), a[1..], b);
    }
  }

  lemma {:induction false} ScanPlain(st: Scan, text: string)
    requires !st.inString && forall i :: 0 <= i < |text| ==> text[i] !in "\"{}[],:"
    ensures Scanned(st, text) == st
    decreases |text|
  {
    if |text| > 0 {
      assert text[0] !in "\"{}[],:";
      assert Next(st, text[0]) == st;
      ScanPlain(st, text[1..]);
    }
  }

  lemma ScanBlank(st: Scan, text: string, rest: string)
    requires !st.inString && Blank(text)
    ensures Scanned(st, text + rest) == Scanned(st, rest)
  {
    forall i | 0 <= i < |text| ensures text[i] !in "\"{}[],:" {
      assert text[i] in " \t\n\r";
    }
    ScanPlain(st, text);
    ScanConcat(st, text, rest);
  }

  lemma {:induction false} ScanInside(st: Scan, raw: string)
    requires st.inString && !st.escaped && StringBody(raw)
    ensures Scanned(st, raw) == st
    decreases |raw|
  {
    if |raw| > 0 {
      if raw[0] == '\\' {
        assert raw[1..][1..] == raw[2..];
        assert Scanned(st, raw) == Scanned(Next(st, raw[0]), raw[1..]) == Scanned(st, raw[2..]);
        ScanInside(st, raw[2..]);
      } else {
        ScanInside(st, raw[1..]);
      }
    }
  }

  lemma ScanQuoted(st: Scan, raw: string, rest: string)
    requires !st.inString && !st.escaped && StringBody(raw)
    ensures Scanned(st, Quoted(raw) + rest) == Scanned(st, rest)
  {
    var inside := st.(inString := true);
    var tail := "\"" + rest;
    assert Quoted(raw) + rest == "\"" + (raw + tail);
    ScanOne(st, '"', raw + tail);
    ScanConcat(inside, raw, tail);
    ScanInside(inside, raw);
    ScanOne(inside, '"', rest);
  }

  lemma ScanOne(st: Scan, c: char, rest: string)
    ensures Scanned(st, [c] + rest) == Scanned(Next(st, c), rest)
  {
    assert ([c] + rest)[1..] == rest;
  }

  /** What scanning a whole value adds. */
  function Passed(st: Scan, items: nat, depth: nat): Scan {
    st.(items := st.items + items, peak := Max(st.peak, st.depth + depth))
  }

  predicate Ready(st: Scan) { !st.inString && !st.escaped && st.depth <= st.peak }

  lemma ScanLast(st: Scan, c: char)
    ensures Scanned(st, [c]) == Next(st, c)
  {
    assert [c][1..] == "";
  }

  lemma {:induction false} ScanValue(st: Scan, j: Json)
    requires Ready(st) && Valid(j)
    ensures Scanned(st, Render(j)) == Passed(st, Items(j), Depth(j))
    decreases j, 1
  {
    match j
    case Text(raw) =>
      ScanQuoted(st, raw, "");
      assert Quoted(raw) + "" == Quoted(raw);
    case Atom(raw) =>
      ScanPlain(st, raw);
    case Array(inside, elements) =>
      var deeper := Next(st, '[');
      var inner := RenderElements(elements);
      assert Render(j) == "[" + (inside + (inner + "]"));
      ScanElements(deeper, elements);
      hide Scanned, Render, RenderElements, Blank;
      ScanOne(st, '[', inside + (inner + "]"));
      ScanBlank(deeper, inside, inner + "]");
      ScanConcat(deeper, inner, "]");
      ScanLast(Passed(deeper, ElementsItems(elements), ElementsDepth(elements)), ']');
    case Object(inside, members) =>
      var deeper := Next(st, '{');
      var inner := RenderMembers(members);
      assert Render(j) == "{" + (inside + (inner + "}"));
      ScanMembers(deeper, members);
      hide Scanned, Render, RenderMembers, Blank;
      ScanOne(st, '{', inside + (inner + "}"));
      ScanBlank(deeper, inside, inner + "}");
      ScanConcat(deeper, inner, "}");
      ScanLast(Passed(deeper, MembersItems(members), MembersDepth(members)), '}');
  }

  lemma JoinedByComma(st: Scan, items: nat, depth: nat, moreItems: nat, moreDepth: nat)
    requires Ready(st)
    ensures Ready(Passed(st, items, depth)) && !Passed(st, items, depth).inString
    ensures var next := Next(Passed(st, items, depth), ',');
            && Ready(next)
            && Passed(next, moreItems, moreDepth) == Passed(st, items + 1 + moreItems, Max(depth, moreDepth))
  {
  }

  lemma AfterColon(st: Scan, items: nat, depth: nat)
    requires Ready(st)
    ensures Ready(Next(st, ':')) && !Next(st, ':').inString
    ensures Passed(Next(st, ':'), items, depth) == Passed(st, 1 + items, depth)
  {
  }

  lemma ElementMeasures(e: Elements)
    requires e.Element?
    ensures ElementsItems(e) == Items(e.value) + (if e.others.Element? then 1 + ElementsItems(e.others) else 0)
    ensures ElementsDepth(e) == if e.others.Element? then Max(Depth(e.value), ElementsDepth(e.others))
        else Depth(e.value)
  {
  }

  lemma MemberMeasures(m: Members)
    requires m.Member?
    ensures MembersItems(m) == 1 + Items(m.value) + (if m.others.Member? then 1 + MembersItems(m.others) else 0)
    ensures MembersDepth(m) == if m.others.Member? then Max(Depth(m.value), MembersDepth(m.others)) else Depth(m.value)
  {
  }

  function MoreElements(e: Elements): string { if e.Element? then "," + RenderElements(e) else "" }

  function MoreMembers(m: Members): string { if m.Member? then "," + RenderMembers(m) else "" }

  lemma {:induction false} ScanElements(st: Scan, e: Elements)
    requires Ready(st) && ValidElements(e)
    ensures Scanned(st, RenderElements(e)) == Passed(st, ElementsItems(e), ElementsDepth(e))
    decreases e, 0
  {
    if e.Element? {
      var value, more := Render(e.value), MoreElements(e.others);
      assert RenderElements(e) == e.before + (value + (e.after + more));
      ElementMeasures(e);
      var (items, depth) := (Items(e.value), Depth(e.value));
      JoinedByComma(st, items, depth, ElementsItems(e.others), ElementsDepth(e.others));
      var st1 := Passed(st, items, depth);
      ScanValue(st, e.value);
      if e.others.Element? {
        ScanElements(Next(st1, ','), e.others);
      }
      hide Scanned, RenderElements, Render, Blank, Items, Depth, ElementsItems, ElementsDepth, Next, Passed, Valid;
      ScanBlank(st, e.before, value + (e.after + more));
      ScanConcat(st, value, e.after + more);
      ScanBlank(st1, e.after, more);
      if e.others.Element? {
        ScanOne(st1, ',', RenderElements(e.others));
      } else {
        ScanNothing(st1);
      }
    }
  }

  lemma ScanNothing(st: Scan)
    ensures Scanned(st, "") == st
  {
  }

  lemma {:induction false} ScanMembers(st: Scan, m: Members)
    requires Ready(st) && ValidMembers(m)
    ensures Scanned(st, RenderMembers(m)) == Passed(st, MembersItems(m), MembersDepth(m))
    decreases m, 0
  {
    if m.Member? {
      var value, more := Render(m.value), MoreMembers(m.others);
      var tail := m.colon + (value + (m.after + more));
      assert RenderMembers(m) == m.before + (Quoted(m.key) + (m.mid + (":" + tail)));
      MemberMeasures(m);
      var (items, depth) := (Items(m.value), Depth(m.value));
      AfterColon(st, items, depth);
      JoinedByComma(st, 1 + items, depth, MembersItems(m.others), MembersDepth(m.others));
      var st1, st2 := Next(st, ':'), Passed(st, 1 + items, depth);
      ScanValue(st1, m.value);
      if m.others.Member? {
        ScanMembers(Next(st2, ','), m.others);
      }
      hide Scanned, RenderMembers, Render, Blank, Quoted, Items, Depth, MembersItems, MembersDepth, Next, Passed,
          Valid, StringBody;
      ScanBlank(st, m.before, Quoted(m.key) + (m.mid + (":" + tail)));
      ScanQuoted(st, m.key, m.mid + (":" + tail));
      ScanBlank(st, m.mid, ":" + tail);
      ScanOne(st, ':', tail);
      ScanBlank(st1, m.colon, value + (m.after + more));
      ScanConcat(st1, value, m.after + more);
      ScanBlank(st2, m.after, more);
      if m.others.Member? {
        ScanOne(st2, ',', RenderMembers(m.others));
      } else {
        ScanNothing(st2);
      }
    }
  }

  lemma RenderTrimmed(j: Json)
    requires Valid(j)
    ensures |Render(j)| > 0 && Trimmed(Render(j)) && (IsContainer(Render(j)) <==> j.Array? || j.Object?)
  {
    var r := Render(j);
    match j
    case Text(raw) => assert r[|r| - 1] == '"' == r[0];
    case Atom(raw) => assert raw[0] !in "\"{}[],:" && raw[0] != '{' && raw[0] != '[';
    case Array(inside, elements) => assert r[0] == '[' && r[|r| - 1] == ']';
    case Object(inside, members) => assert r[0] == '{' && r[|r| - 1] == '}';
  }

  /** The scan decides exactly by the tree: whatever the layout and whatever stands
      in strings, a body is accepted if and only if it is no container or its
      nesting depth and its containers, commas and colons are within the limits
      that are switched on. */
  lemma ScannerMeasuresTree(before: string, j: Json, after: string, itemsLimit: int, depthLimit: int)
    requires Valid(j) && Blank(before) && Blank(after)
    ensures Accepted(before + Render(j) + after, itemsLimit, depthLimit) <==>
              (j.Text? || j.Atom?
               || ((depthLimit <= 0 || Depth(j) <= depthLimit) && (itemsLimit <= 0 || Items(j) <= itemsLimit)))
  {
    RenderTrimmed(j);
    forall s | Blank(s) ensures AllSpace(s) {
      forall i | 0 <= i < |s| ensures Space(s[i]) {
        assert s[i] in " \t\n\r";
      }
    }
    TrimAround(before, Render(j), after);
    ScanValue(START, j);
  }
}
