/**
  The balanced-object scanner of the router (integration/llm_router.py:882-946),
  against a grammar of braces and strings.

  The grammar knows nothing of the scanner: a text is a sequence of plain
  characters, closed strings and closed brace groups, followed by at most one
  piece that is never closed. The scanner returns the top-level groups.
 */
module ObjectScanner {
  import opened Common

  // ----- Grammar -----

  /** A character of a string body: itself, or a backslash and any character. */
  datatype StrChar = Raw(c: char) | Esc(c: char)

  datatype Node =
    | Plain(c: char)
    | Quoted(body: seq<StrChar>)
    | Group(kids: seq<Node>)

  function PrintChar(x: StrChar): string {
    match x case Raw(c) => [c] case Esc(c) => ['\\', c]
  }

  function PrintBody(body: seq<StrChar>): string {
    if body == [] then "" else PrintChar(body[0]) + PrintBody(body[1..])
  }

  function Print(n: Node): string
    decreases n, 0
  {
    match n
    case Plain(c) => [c]
    case Quoted(body) => "\"" + PrintBody(body) + "\""
    case Group(kids) => "{" + PrintAll(kids) + "}"
  }

  function PrintAll(nodes: seq<Node>): string
    decreases nodes, 1
  {
    if nodes == [] then "" else Print(nodes[0]) + PrintAll(nodes[1..])
  }

  predicate BodyOk(body: seq<StrChar>) {
    forall i :: 0 <= i < |body| && body[i].Raw? ==> body[i].c != '"' && body[i].c != '\\'
  }

  /** Inside a group, braces and quotes only occur as group and string delimiters. */
  predicate Inner(n: Node)
    decreases n
  {
    match n
    case Plain(c) => c != '"' && c != '{' && c != '}'
    case Quoted(body) => BodyOk(body)
    case Group(kids) => forall i :: 0 <= i < |kids| ==> Inner(kids[i])
  }

  /** At the top level a stray closing brace is plain text. */
  predicate Top(n: Node) {
    Inner(n) || n == Plain('}')
  }

  predicate AllInner(nodes: seq<Node>) {
    forall i :: 0 <= i < |nodes| ==> Inner(nodes[i])
  }

  predicate AllTop(nodes: seq<Node>) {
    forall i :: 0 <= i < |nodes| ==> Top(nodes[i])
  }

  /** The texts of the top-level groups, in order. */
  function Groups(nodes: seq<Node>): seq<string> {
    if nodes == [] then []
    else (if nodes[0].Group? then [Print(nodes[0])] else []) + Groups(nodes[1..])
  }

  /** Text that is never closed: some open groups, then perhaps an open string that may end in a backslash. */
  datatype Tail = Tail(open: seq<seq<Node>>, str: Option<seq<StrChar>>, backslash: bool)

  predicate TailOk(t: Tail) {
    && (forall i :: 0 <= i < |t.open| ==> AllInner(t.open[i]))
    && (t.str.Some? ==> BodyOk(t.str.value))
    && (t.backslash ==> t.str.Some?)
  }

  function PrintOpen(open: seq<seq<Node>>): string {
    if open == [] then "" else PrintOpen(open[..|open| - 1]) + "{" + PrintAll(open[|open| - 1])
  }

  function PrintStr(t: Tail): string {
    if t.str.None? then "" else "\"" + PrintBody(t.str.value) + if t.backslash then "\\" else ""
  }

  function PrintTail(t: Tail): string {
    PrintOpen(t.open) + PrintStr(t)
  }

  // ----- The scanner as a fold over characters -----

  /** `pending` is the text since the opening brace of the outermost open group. */
  datatype Scan = Scan(depth: nat, pending: string, inString: bool, escaped: bool, results: seq<string>)

  const START: Scan := Scan(0, "", false, false, [])

  function Keep(s: Scan, c: char): Scan {
    if s.depth > 0 then s.(pending := s.pending + [c]) else s
  }

  function Feed(s: Scan, c: char): Scan {
    if s.inString then
      if s.escaped then Keep(s, c).(escaped := false)
      else if c == '\\' then Keep(s, c).(escaped := true)
      else if c == '"' then Keep(s, c).(inString := false)
      else Keep(s, c)
    else if c == '"' then Keep(s, c).(inString := true)
    else if c == '{' then s.(depth := s.depth + 1, pending := s.pending + [c])
    else if c == '}' && s.depth == 0 then s
    else if c == '}' && s.depth == 1 then
      s.(depth := 0, pending := "", results := s.results + [s.pending + [c]])
    else if c == '}' then Keep(s, c).(depth := s.depth - 1)
    else Keep(s, c)
  }

  function FeedAll(s: Scan, text: string): Scan
    decreases |text|
  {
    if text == "" then s else FeedAll(Feed(s, text[0]), text[1..])
  }

  lemma {:induction false} FeedConcat(s: Scan, a: string, b: string)
    ensures FeedAll(s, a + b) == FeedAll(FeedAll(s, a), b)
    decreases |a|
  {
    if a == "" {
      assert a + b == b;
    } else {
      assert (a + b)[1..] == a[1..] + b;
      FeedConcat(Feed(s, a[0]), a[1..], b);
    }
  }

  lemma FeedSnoc(s: Scan, a: string, c: char)
    ensures FeedAll(s, a + [c]) == Feed(FeedAll(s, a), c)
  {
    FeedConcat(s, a, [c]);
    assert [c][1..] == "";
  }

  /** Backslashes and bars occur only where the scanner is inside a string. */
  predicate BarsQuoted(s: Scan, text: string)
    decreases |text|
  {
    text == "" || ((text[0] in "\\|" ==> s.inString) && BarsQuoted(Feed(s, text[0]), text[1..]))
  }

  lemma {:induction false} BarsQuotedSplit(s: Scan, a: string, b: string)
    ensures BarsQuoted(s, a + b) <==> BarsQuoted(s, a) && BarsQuoted(FeedAll(s, a), b)
    decreases |a|
  {
    if a == "" {
      assert a + b == b;
    } else {
      assert (a + b)[1..] == a[1..] + b;
      BarsQuotedSplit(Feed(s, a[0]), a[1..], b);
    }
  }

  /** The scanner returns exactly what the fold collects. */
  method BalancedObjects(text: string) returns (results: seq<string>)
    ensures results == FeedAll(START, text).results
  {
    results := [];
    var depth := 0;
    var start: Option<nat> := None;
    var inString, escaped := false, false;
    for index := 0 to |text|
      invariant 0 <= depth
      invariant depth > 0 <==> start.Some?
      invariant start.Some? ==> start.value <= index
      invariant FeedAll(START, text[..index]) ==
        Scan(depth, if start.Some? then text[start.value..index] else "", inString, escaped, results)
    {
      var c := text[index];
      assert text[..index + 1] == text[..index] + [c];
      FeedSnoc(START, text[..index], c);
      assert start.Some? ==> text[start.value..index + 1] == text[start.value..index] + [c];
      if inString {
        if escaped {
          escaped := false;
        } else if c == '\\' {
          escaped := true;
        } else if c == '"' {
          inString := false;
        }
      } else if c == '"' {
        inString := true;
      } else if c == '{' {
        if depth == 0 {
          start := Some(index);
        }
        depth := depth + 1;
      } else if c == '}' {
        if depth != 0 {
          depth := depth - 1;
          if depth == 0 && start.Some? {
            results := results + [text[start.value..index + 1]];
            start := None;
          }
        }
      }
    }
    assert text[..|text|] == text;
  }

  // ----- From the grammar to the scanner -----

  predicate Normal(s: Scan) {
    !s.inString && !s.escaped && (s.depth == 0 ==> s.pending == "")
  }

  function Absorb(s: Scan, text: string): Scan {
    if s.depth > 0 then s.(pending := s.pending + text) else s
  }

  lemma FeedChar(s: Scan, x: StrChar)
    requires s.inString && !s.escaped && (x.Raw? ==> x.c != '"' && x.c != '\\')
    ensures FeedAll(s, PrintChar(x)) == Absorb(s, PrintChar(x))
  {
    match x
    case Raw(c) =>
      FeedSnoc(s, "", c);
      assert [] + [c] == [c];
    case Esc(c) =>
      FeedSnoc(s, "", '\\');
      FeedSnoc(s, ['\\'], c);
      assert [] + ['\\'] == ['\\'] && ['\\'] + [c] == ['\\', c];
      assert s.pending + ['\\'] + [c] == s.pending + ['\\', c];
  }

  lemma {:induction false} FeedBody(s: Scan, body: seq<StrChar>)
    requires s.inString && !s.escaped && BodyOk(body)
    ensures FeedAll(s, PrintBody(body)) == Absorb(s, PrintBody(body))
    decreases |body|
  {
    if body != [] {
      var first, rest := PrintChar(body[0]), PrintBody(body[1..]);
      FeedConcat(s, first, rest);
      FeedChar(s, body[0]);
      FeedBody(Absorb(s, first), body[1..]);
      AppendAssoc(s.pending, first, rest);
      assert PrintBody(body) == first + rest;
    }
  }

  lemma FeedQuoted(s: Scan, body: seq<StrChar>)
    requires Normal(s) && BodyOk(body)
    ensures FeedAll(s, Print(Quoted(body))) == Absorb(s, Print(Quoted(body)))
  {
    var inner := PrintBody(body);
    var quote := "\"" + inner;
    assert quote[1..] == inner;
    FeedBody(Feed(s, '"'), body);
    AppendAssoc(s.pending, ['"'], inner);
    assert FeedAll(s, quote) == Absorb(s, quote).(inString := true);
    FeedSnoc(s, quote, '"');
    AppendAssoc(s.pending, quote, ['"']);
    assert Print(Quoted(body)) == quote + ['"'];
  }

  /** Inside a group, any grammatical text is absorbed and leaves the depth alone. */
  lemma {:induction false} FeedInner(s: Scan, n: Node)
    requires Normal(s) && s.depth > 0 && Inner(n)
    ensures FeedAll(s, Print(n)) == Absorb(s, Print(n))
    decreases n, 0
  {
    match n
    case Plain(c) =>
      assert [c][1..] == "";
    case Quoted(body) =>
      FeedQuoted(s, body);
    case Group(kids) =>
      FeedGroup(s, kids);
  }

  lemma {:induction false} FeedGroup(s: Scan, kids: seq<Node>)
    requires Normal(s) && AllInner(kids)
    ensures FeedAll(s, Print(Group(kids))) ==
      if s.depth > 0 then Absorb(s, Print(Group(kids))) else s.(results := s.results + [Print(Group(kids))])
    decreases kids, 2
  {
    var open := Feed(s, '{');
    FeedInners(open, kids);
    assert ("{" + PrintAll(kids))[1..] == PrintAll(kids);
    assert Print(Group(kids)) == ("{" + PrintAll(kids)) + ['}'];
    FeedSnoc(s, "{" + PrintAll(kids), '}');
    assert FeedAll(s, "{" + PrintAll(kids)) == Absorb(open, PrintAll(kids));
    assert (s.pending + ['{'] + PrintAll(kids)) + ['}'] == s.pending + Print(Group(kids));
    assert s.pending == "" ==> s.pending + Print(Group(kids)) == Print(Group(kids));
  }

  lemma {:induction false} FeedInners(s: Scan, nodes: seq<Node>)
    requires Normal(s) && s.depth > 0 && AllInner(nodes)
    ensures FeedAll(s, PrintAll(nodes)) == Absorb(s, PrintAll(nodes))
    decreases nodes, 1
  {
    if nodes != [] {
      FeedConcat(s, Print(nodes[0]), PrintAll(nodes[1..]));
      FeedInner(s, nodes[0]);
      FeedInners(Absorb(s, Print(nodes[0])), nodes[1..]);
      assert s.pending + Print(nodes[0]) + PrintAll(nodes[1..]) == s.pending + PrintAll(nodes);
    }
  }

  lemma FeedTopOne(s: Scan, n: Node)
    requires Normal(s) && s.depth == 0 && Top(n)
    ensures FeedAll(s, Print(n)) == s.(results := s.results + if n.Group? then [Print(n)] else [])
  {
    match n {
      case Plain(c) =>
        assert [c][1..] == "";
      case Quoted(body) =>
        FeedQuoted(s, body);
      case Group(kids) =>
        FeedGroup(s, kids);
    }
  }

  lemma AppendAssoc<T>(a: seq<T>, b: seq<T>, c: seq<T>)
    ensures a + b + c == a + (b + c)
  {
  }

  /** At the top level, each group is one result and everything else is skipped. */
  lemma {:induction false} FeedTop(s: Scan, nodes: seq<Node>)
    requires Normal(s) && s.depth == 0 && AllTop(nodes)
    ensures FeedAll(s, PrintAll(nodes)) == s.(results := s.results + Groups(nodes))
    decreases |nodes|
  {
    if nodes != [] {
      var own := if nodes[0].Group? then [Print(nodes[0])] else [];
      var next := s.(results := s.results + own);
      FeedConcat(s, Print(nodes[0]), PrintAll(nodes[1..]));
      FeedTopOne(s, nodes[0]);
      FeedTop(next, nodes[1..]);
      AppendAssoc(s.results, own, Groups(nodes[1..]));
      assert Groups(nodes) == own + Groups(nodes[1..]);
    }
  }

  lemma {:induction false} FeedOpen(s: Scan, open: seq<seq<Node>>)
    requires Normal(s) && s.depth == 0 && forall i :: 0 <= i < |open| ==> AllInner(open[i])
    ensures FeedAll(s, PrintOpen(open)) == s.(depth := |open|, pending := PrintOpen(open))
  {
    if open != [] {
      var n := |open| - 1;
      FeedOpen(s, open[..n]);
      var before := s.(depth := n, pending := PrintOpen(open[..n]));
      FeedConcat(s, PrintOpen(open[..n]), "{" + PrintAll(open[n]));
      assert PrintOpen(open) == PrintOpen(open[..n]) + ("{" + PrintAll(open[n]));
      assert ("{" + PrintAll(open[n]))[1..] == PrintAll(open[n]);
      FeedInners(Feed(before, '{'), open[n]);
    }
  }

  lemma FeedStr(s: Scan, t: Tail)
    requires Normal(s) && TailOk(t)
    ensures FeedAll(s, PrintStr(t)) == Absorb(s, PrintStr(t)).(inString := t.str.Some?, escaped := t.backslash)
  {
    if t.str.Some? {
      var body := PrintBody(t.str.value);
      var quote := "\"" + body;
      assert quote[1..] == body;
      FeedBody(Feed(s, '"'), t.str.value);
      AppendAssoc(s.pending, ['"'], body);
      assert FeedAll(s, quote) == Absorb(s, quote).(inString := true);
      if t.backslash {
        FeedSnoc(s, quote, '\\');
        AppendAssoc(s.pending, quote, ['\\']);
      } else {
        assert quote + "" == quote;
      }
    } else {
      assert s.pending + "" == s.pending;
    }
  }

  lemma FeedTail(s: Scan, t: Tail)
    requires Normal(s) && s.depth == 0 && TailOk(t)
    ensures FeedAll(s, PrintTail(t)).results == s.results
  {
    FeedConcat(s, PrintOpen(t.open), PrintStr(t));
    FeedOpen(s, t.open);
    FeedStr(FeedAll(s, PrintOpen(t.open)), t);
  }

  /** However a text decomposes by the grammar, the scanner returns its top-level groups. */
  lemma ScanOfDecomposition(nodes: seq<Node>, t: Tail)
    requires AllTop(nodes) && TailOk(t)
    ensures FeedAll(START, PrintAll(nodes) + PrintTail(t)).results == Groups(nodes)
  {
    FeedConcat(START, PrintAll(nodes), PrintTail(t));
    FeedTop(START, nodes);
    assert [] + Groups(nodes) == Groups(nodes);
    FeedTail(START.(results := Groups(nodes)), t);
  }

  // ----- Every text decomposes -----

  datatype Parse = Parse(nodes: seq<Node>, tail: Tail)

  predicate ParseOk(p: Parse) {
    AllTop(p.nodes) && TailOk(p.tail)
  }

  function PrintParse(p: Parse): string {
    PrintAll(p.nodes) + PrintTail(p.tail)
  }

  /** Adds a closed node to the innermost open group, or to the top level. */
  function AddNode(p: Parse, n: Node): Parse {
    var open := p.tail.open;
    if open == [] then p.(nodes := p.nodes + [n])
    else p.(tail := p.tail.(open := open[..|open| - 1] + [open[|open| - 1] + [n]]))
  }

  function ParseChar(p: Parse, c: char): Parse {
    var t := p.tail;
    match t.str
    case Some(body) =>
      if t.backslash then p.(tail := t.(str := Some(body + [Esc(c)]), backslash := false))
      else if c == '\\' then p.(tail := t.(backslash := true))
      else if c == '"' then AddNode(p.(tail := t.(str := None)), Quoted(body))
      else p.(tail := t.(str := Some(body + [Raw(c)])))
    case None =>
      if c == '"' then p.(tail := t.(str := Some([])))
      else if c == '{' then p.(tail := t.(open := t.open + [[]]))
      else if c == '}' && t.open != [] then
        AddNode(p.(tail := t.(open := t.open[..|t.open| - 1])), Group(t.open[|t.open| - 1]))
      else AddNode(p, Plain(c))
  }

  lemma {:induction false} PrintBodySnoc(body: seq<StrChar>, x: StrChar)
    ensures PrintBody(body + [x]) == PrintBody(body) + PrintChar(x)
  {
    if body == [] {
      assert body + [x] == [x] && [x][1..] == [];
    } else {
      assert (body + [x])[1..] == body[1..] + [x];
      PrintBodySnoc(body[1..], x);
    }
  }

  lemma {:induction false} PrintAllSnoc(nodes: seq<Node>, n: Node)
    ensures PrintAll(nodes + [n]) == PrintAll(nodes) + Print(n)
  {
    if nodes == [] {
      assert nodes + [n] == [n] && [n][1..] == [];
    } else {
      assert (nodes + [n])[1..] == nodes[1..] + [n];
      PrintAllSnoc(nodes[1..], n);
    }
  }

  lemma AppendAtTop(a: string, x: string)
    ensures a + x + ("" + "") == a + ("" + "") + x
  {
  }

  lemma AppendAtDepth(a: string, front: string, kids: string, x: string)
    ensures a + (front + "{" + (kids + x) + "") == a + (front + "{" + kids + "") + x
  {
  }

  lemma AddNodePrints(p: Parse, n: Node)
    requires ParseOk(p) && p.tail.str.None? && (if p.tail.open == [] then Top(n) else Inner(n))
    ensures ParseOk(AddNode(p, n)) && PrintParse(AddNode(p, n)) == PrintParse(p) + Print(n)
  {
    var open := p.tail.open;
    if open == [] {
      PrintAllSnoc(p.nodes, n);
      AppendAtTop(PrintAll(p.nodes), Print(n));
    } else {
      var k := |open| - 1;
      var open' := AddNode(p, n).tail.open;
      PrintAllSnoc(open[k], n);
      assert open'[..k] == open[..k] && open'[k] == open[k] + [n];
      assert PrintOpen(open') == PrintOpen(open[..k]) + "{" + (PrintAll(open[k]) + Print(n));
      assert AllInner(open'[k]);
      AppendAtDepth(PrintAll(p.nodes), PrintOpen(open[..k]), PrintAll(open[k]), Print(n));
    }
  }

  lemma AppendInside(a: string, b: string, c: string, x: string)
    ensures a + (b + (c + x)) == a + (b + c) + x
  {
  }

  lemma InStringPrints(p: Parse, c: char)
    requires ParseOk(p) && p.tail.str.Some? && (p.tail.backslash || c != '"')
    ensures ParseOk(ParseChar(p, c)) && PrintParse(ParseChar(p, c)) == PrintParse(p) + [c]
  {
    var t := p.tail;
    var body := t.str.value;
    var t' := ParseChar(p, c).tail;
    if t.backslash {
      PrintBodySnoc(body, Esc(c));
    } else if c != '\\' {
      PrintBodySnoc(body, Raw(c));
    }
    assert PrintStr(t') == PrintStr(t) + [c];
    AppendInside(PrintAll(p.nodes), PrintOpen(t.open), PrintStr(t), [c]);
  }

  lemma CloseStringPrints(p: Parse)
    requires ParseOk(p) && p.tail.str.Some? && !p.tail.backslash
    ensures ParseOk(ParseChar(p, '"')) && PrintParse(ParseChar(p, '"')) == PrintParse(p) + ['"']
  {
    var t := p.tail;
    var q := p.(tail := t.(str := None));
    AddNodePrints(q, Quoted(t.str.value));
    assert Print(Quoted(t.str.value)) == PrintStr(t) + "\"";
    AppendInside(PrintAll(p.nodes), PrintOpen(t.open), "", PrintStr(t) + "\"");
    AppendInside(PrintAll(p.nodes), PrintOpen(t.open), PrintStr(t), "\"");
    assert "" + (PrintStr(t) + "\"") == PrintStr(t) + "\"";
  }

  lemma CloseGroupPrints(p: Parse)
    requires ParseOk(p) && p.tail.str.None? && p.tail.open != []
    ensures ParseOk(ParseChar(p, '}')) && PrintParse(ParseChar(p, '}')) == PrintParse(p) + ['}']
  {
    var t := p.tail;
    var k := |t.open| - 1;
    var front, kids := PrintOpen(t.open[..k]), PrintAll(t.open[k]);
    var q := p.(tail := t.(open := t.open[..k]));
    AddNodePrints(q, Group(t.open[k]));
    assert PrintParse(p) == PrintAll(p.nodes) + (front + "{" + kids + "");
    assert PrintParse(q) == PrintAll(p.nodes) + (front + "");
    CloseInside(PrintAll(p.nodes), front, kids);
  }

  lemma CloseInside(a: string, front: string, kids: string)
    ensures a + (front + "") + ("{" + kids + "}") == a + (front + "{" + kids + "") + "}"
  {
  }

  lemma OpenPrints(p: Parse, c: char)
    requires ParseOk(p) && p.tail.str.None? && (c == '"' || c == '{')
    ensures ParseOk(ParseChar(p, c)) && PrintParse(ParseChar(p, c)) == PrintParse(p) + [c]
  {
    assert (p.tail.open + [[]])[..|p.tail.open|] == p.tail.open;
  }

  lemma ParseCharPrints(p: Parse, c: char)
    requires ParseOk(p)
    ensures ParseOk(ParseChar(p, c)) && PrintParse(ParseChar(p, c)) == PrintParse(p) + [c]
  {
    if p.tail.str.Some? {
      if c == '"' && !p.tail.backslash {
        CloseStringPrints(p);
      } else {
        InStringPrints(p, c);
      }
    } else if c == '"' || c == '{' {
      OpenPrints(p, c);
    } else if c == '}' && p.tail.open != [] {
      CloseGroupPrints(p);
    } else {
      AddNodePrints(p, Plain(c));
    }
  }

  lemma {:induction false} EveryTextParses(text: string) returns (p: Parse)
    ensures ParseOk(p) && PrintParse(p) == text
  {
    if text == "" {
      p := Parse([], Tail([], None, false));
      assert PrintOpen([]) == "" && PrintAll([]) == "";
    } else {
      var n := |text| - 1;
      assert text[..n] + [text[n]] == text;
      var q := EveryTextParses(text[..n]);
      ParseCharPrints(q, text[n]);
      p := ParseChar(q, text[n]);
    }
  }

  /**
    The scanner, on every text: the text is nodes followed by an unclosed tail,
    and the results are the groups among the nodes, in order. In particular
    results are disjoint, ordered, and balanced outside strings.
   */
  lemma ScanIsGroups(text: string) returns (nodes: seq<Node>, tail: Tail)
    ensures AllTop(nodes) && TailOk(tail) && text == PrintAll(nodes) + PrintTail(tail)
    ensures FeedAll(START, text).results == Groups(nodes)
  {
    var p := EveryTextParses(text);
    nodes, tail := p.nodes, p.tail;
    ScanOfDecomposition(nodes, tail);
  }

  /** A whole text is its own only result exactly when it is one brace group of the grammar. */
  lemma WholeTextIff(text: string)
    ensures FeedAll(START, text).results == [text] <==> exists kids :: AllInner(kids) && text == Print(Group(kids))
  {
    if kids :| AllInner(kids) && text == Print(Group(kids)) {
      FeedGroup(START, kids);
    }
    if FeedAll(START, text).results == [text] {
      var nodes, tail := ScanIsGroups(text);
      var i := GroupsWitness(nodes);
      assert Inner(nodes[i]) && text == Print(Group(nodes[i].kids));
    }
  }

  lemma {:induction false} GroupsWitness(nodes: seq<Node>) returns (i: nat)
    requires Groups(nodes) != []
    ensures i < |nodes| && nodes[i].Group? && Print(nodes[i]) == Groups(nodes)[0]
  {
    if nodes[0].Group? {
      i := 0;
    } else {
      var j := GroupsWitness(nodes[1..]);
      i := j + 1;
    }
  }
}
