/**
  JSON texts as they may be written by section 2 and section 7 of RFC 8259,
  with any whitespace between tokens and any legal escape of a character, and
  their way through the scanner of the router (integration/llm_router.py:882-946).
 */
module JsonText {
  import opened Common
  import opened ObjectScanner

  // ----- Written JSON -----

  /** A character of a string as it is written: itself, a short escape, or its code in four digits. */
  datatype Written = Itself(c: char) | Short(c: char) | Hex(digits: string)

  datatype Json =
    | Word(word: string)                           // null, true, false
    | Number(digits: string)
    | String(s: seq<Written>)
    | Array(items: seq<Item>, blank: string)
    | Object(members: seq<Member>, blank: string)

  /** A value with the whitespace around it. */
  datatype Item = Item(before: string, value: Json, after: string)

  datatype Member = Member(before: string, name: seq<Written>, after: string, item: Item)

  predicate IsBlank(c: char) {
    c == ' ' || c == '\t' || c == '\n' || c == '\r'
  }

  predicate IsNumberChar(c: char) {
    '0' <= c <= '9' || c == '+' || c == '-' || c == '.' || c == 'e' || c == 'E'
  }

  predicate IsHexDigit(c: char) {
    '0' <= c <= '9' || 'a' <= c <= 'f' || 'A' <= c <= 'F'
  }

  predicate WrittenOk(x: Written) {
    match x
    case Itself(c) => c >= ' ' && c != '"' && c != '\\'
    case Short(c) => c in "\"\\/bfnrt"
    case Hex(digits) => |digits| == 4 && forall i :: 0 <= i < 4 ==> IsHexDigit(digits[i])
  }

  predicate AllWritten(s: seq<Written>) {
    forall i :: 0 <= i < |s| ==> WrittenOk(s[i])
  }

  predicate Blank(text: string) {
    forall i :: 0 <= i < |text| ==> IsBlank(text[i])
  }

  predicate JsonOk(v: Json)
    decreases v
  {
    match v
    case Word(word) => word in {"null", "true", "false"}
    case Number(digits) => forall i :: 0 <= i < |digits| ==> IsNumberChar(digits[i])
    case String(s) => AllWritten(s)
    case Array(items, blank) => Blank(blank) && forall i :: 0 <= i < |items| ==> ItemOk(items[i])
    case Object(members, blank) => Blank(blank) && forall i :: 0 <= i < |members| ==> MemberOk(members[i])
  }

  predicate ItemOk(x: Item)
    decreases x
  {
    Blank(x.before) && JsonOk(x.value) && Blank(x.after)
  }

  predicate MemberOk(m: Member)
    decreases m
  {
    Blank(m.before) && AllWritten(m.name) && Blank(m.after) && ItemOk(m.item)
  }

  function CharText(x: Written): string {
    match x case Itself(c) => [c] case Short(c) => ['\\', c] case Hex(digits) => "\\u" + digits
  }

  function CharsText(s: seq<Written>): string {
    if s == [] then "" else CharText(s[0]) + CharsText(s[1..])
  }

  function StringText(s: seq<Written>): string {
    "\"" + CharsText(s) + "\""
  }

  function Text(v: Json): string
    decreases v, 1
  {
    match v
    case Word(word) => word
    case Number(digits) => digits
    case String(s) => StringText(s)
    case Array(items, blank) => "[" + ItemsText(items) + blank + "]"
    case Object(members, blank) => "{" + (MembersText(members) + blank) + "}"
  }

  function ItemText(x: Item): string
    decreases x, 2
  {
    x.before + Text(x.value) + x.after
  }

  function Comma(more: bool): string {
    if more then "," else ""
  }

  function ItemsText(items: seq<Item>): string
    decreases items, 0
  {
    if items == [] then "" else ItemText(items[0]) + Comma(|items| > 1) + ItemsText(items[1..])
  }

  function MemberText(m: Member): string
    decreases m, 0
  {
    m.before + StringText(m.name) + m.after + ":" + ItemText(m.item)
  }

  function MembersText(members: seq<Member>): string
    decreases members, 0
  {
    if members == [] then "" else MemberText(members[0]) + Comma(|members| > 1) + MembersText(members[1..])
  }

  // ----- A JSON text is grammatical inside a group -----

  /** Outside strings there is neither a backslash nor a bar. */
  predicate Tame(n: Node)
    decreases n
  {
    match n
    case Plain(c) => c != '\\' && c != '|'
    case Quoted(_) => true
    case Group(kids) => forall i :: 0 <= i < |kids| ==> Tame(kids[i])
  }

  predicate AllTame(nodes: seq<Node>) {
    forall i :: 0 <= i < |nodes| ==> Tame(nodes[i])
  }

  /** `nodes` is an inner derivation of `text`. */
  ghost predicate Derives(nodes: seq<Node>, text: string) {
    AllInner(nodes) && AllTame(nodes) && PrintAll(nodes) == text
  }

  lemma {:induction false} PrintAllConcat(a: seq<Node>, b: seq<Node>)
    ensures PrintAll(a + b) == PrintAll(a) + PrintAll(b)
    decreases |a|
  {
    if a == [] {
      assert a + b == b;
    } else {
      assert (a + b)[1..] == a[1..] + b;
      PrintAllConcat(a[1..], b);
    }
  }

  lemma DeriveConcat(a: seq<Node>, s: string, b: seq<Node>, t: string)
    requires Derives(a, s) && Derives(b, t)
    ensures Derives(a + b, s + t)
  {
    PrintAllConcat(a, b);
  }

  predicate IsPlain(c: char) {
    c != '"' && c != '{' && c != '}' && c != '\\' && c != '|'
  }

  lemma {:induction false} DerivePlain(text: string) returns (nodes: seq<Node>)
    requires forall i :: 0 <= i < |text| ==> IsPlain(text[i])
    ensures Derives(nodes, text)
  {
    if text == "" {
      nodes := [];
    } else {
      var rest := DerivePlain(text[1..]);
      nodes := [Plain(text[0])] + rest;
      assert nodes[1..] == rest;
    }
  }

  lemma DeriveOne(n: Node)
    requires Inner(n) && Tame(n)
    ensures Derives([n], Print(n))
  {
    assert [n][1..] == [];
    assert Print(n) + "" == Print(n);
  }

  lemma CharIsBody(x: Written) returns (body: seq<StrChar>)
    requires WrittenOk(x)
    ensures BodyOk(body) && PrintBody(body) == CharText(x)
  {
    match x
    case Itself(c) =>
      body := [Raw(c)];
      assert body[1..] == [];
    case Short(c) =>
      body := [Esc(c)];
      assert body[1..] == [];
    case Hex(digits) =>
      body := HexIsBody(digits);
  }

  lemma HexIsBody(digits: string) returns (body: seq<StrChar>)
    requires forall i :: 0 <= i < |digits| ==> IsHexDigit(digits[i])
    ensures BodyOk(body) && PrintBody(body) == "\\u" + digits
  {
    var raw := RawBody(digits);
    body := [Esc('u')] + raw;
    assert body[1..] == raw;
  }

  lemma {:induction false} RawBody(text: string) returns (body: seq<StrChar>)
    requires forall i :: 0 <= i < |text| ==> text[i] != '"' && text[i] != '\\'
    ensures BodyOk(body) && PrintBody(body) == text
  {
    if text == "" {
      body := [];
    } else {
      var rest := RawBody(text[1..]);
      body := [Raw(text[0])] + rest;
      assert body[1..] == rest;
    }
  }

  lemma {:induction false} PrintBodyConcat(a: seq<StrChar>, b: seq<StrChar>)
    ensures PrintBody(a + b) == PrintBody(a) + PrintBody(b)
    decreases |a|
  {
    if a == [] {
      assert a + b == b;
    } else {
      assert (a + b)[1..] == a[1..] + b;
      PrintBodyConcat(a[1..], b);
    }
  }

  lemma {:induction false} CharsAreBody(s: seq<Written>) returns (body: seq<StrChar>)
    requires AllWritten(s)
    ensures BodyOk(body) && PrintBody(body) == CharsText(s)
  {
    if s == [] {
      body := [];
    } else {
      var first := CharIsBody(s[0]);
      var rest := CharsAreBody(s[1..]);
      body := first + rest;
      PrintBodyConcat(first, rest);
    }
  }

  lemma DeriveString(s: seq<Written>) returns (nodes: seq<Node>)
    requires AllWritten(s)
    ensures Derives(nodes, StringText(s))
  {
    var body := CharsAreBody(s);
    nodes := [Quoted(body)];
    DeriveOne(Quoted(body));
  }

  lemma {:induction false} DeriveText(v: Json) returns (nodes: seq<Node>)
    requires JsonOk(v)
    ensures Derives(nodes, Text(v))
    decreases v, 2
  {
    match v
    case Word(word) => nodes := DeriveWord(word);
    case Number(digits) => nodes := DeriveNumber(digits);
    case String(s) => nodes := DeriveString(s);
    case Array(items, blank) => nodes := DeriveArray(v);
    case Object(members, blank) => nodes := DeriveObject(v);
  }

  lemma DeriveNumber(digits: string) returns (nodes: seq<Node>)
    requires forall i :: 0 <= i < |digits| ==> IsNumberChar(digits[i])
    ensures Derives(nodes, digits)
  {
    nodes := DerivePlain(digits);
  }

  lemma DeriveWord(word: string) returns (nodes: seq<Node>)
    requires word in {"null", "true", "false"}
    ensures Derives(nodes, word)
  {
    if word == "null" {
      nodes := DerivePlain("null");
    } else if word == "true" {
      nodes := DerivePlain("true");
    } else {
      nodes := DerivePlain("false");
    }
  }

  lemma {:induction false} DeriveArray(v: Json) returns (nodes: seq<Node>)
    requires JsonOk(v) && v.Array?
    ensures Derives(nodes, Text(v))
    decreases v, 0
  {
    var text := ItemsText(v.items);
    var open := DerivePlain("[");
    var inside := DeriveItems(v.items);
    var space := DerivePlain(v.blank);
    var close := DerivePlain("]");
    DeriveConcat(open, "[", inside, text);
    DeriveConcat(open + inside, "[" + text, space, v.blank);
    DeriveConcat(open + inside + space, "[" + text + v.blank, close, "]");
    nodes := open + inside + space + close;
  }

  lemma {:induction false} DeriveObject(v: Json) returns (nodes: seq<Node>)
    requires JsonOk(v) && v.Object?
    ensures Derives(nodes, Text(v))
    decreases v, 1
  {
    var inside := DeriveInside(v);
    DeriveOne(Group(inside));
    nodes := [Group(inside)];
  }

  /** What stands between the braces of an object. */
  lemma {:induction false} DeriveInside(v: Json) returns (nodes: seq<Node>)
    requires JsonOk(v) && v.Object?
    ensures Derives(nodes, MembersText(v.members) + v.blank) && Text(v) == Print(Group(nodes))
    decreases v, 0
  {
    var inside := DeriveMembers(v.members);
    var space := DerivePlain(v.blank);
    DeriveConcat(inside, MembersText(v.members), space, v.blank);
    nodes := inside + space;
  }

  lemma {:induction false} DeriveItem(x: Item) returns (nodes: seq<Node>)
    requires ItemOk(x)
    ensures Derives(nodes, ItemText(x))
    decreases x, 2
  {
    var before := DerivePlain(x.before);
    var value := DeriveText(x.value);
    var after := DerivePlain(x.after);
    DeriveConcat(before, x.before, value, Text(x.value));
    DeriveConcat(before + value, x.before + Text(x.value), after, x.after);
    nodes := before + value + after;
  }

  lemma {:induction false} DeriveItems(items: seq<Item>) returns (nodes: seq<Node>)
    requires forall i :: 0 <= i < |items| ==> ItemOk(items[i])
    ensures Derives(nodes, ItemsText(items))
    decreases items, 0
  {
    if items == [] {
      nodes := [];
    } else {
      var first := DeriveItem(items[0]);
      var comma := DerivePlain(Comma(|items| > 1));
      var rest := DeriveItems(items[1..]);
      DeriveConcat(first, ItemText(items[0]), comma, Comma(|items| > 1));
      DeriveConcat(first + comma, ItemText(items[0]) + Comma(|items| > 1), rest, ItemsText(items[1..]));
      nodes := first + comma + rest;
    }
  }

  lemma {:induction false} DeriveMember(m: Member) returns (nodes: seq<Node>)
    requires MemberOk(m)
    ensures Derives(nodes, MemberText(m))
    decreases m, 0
  {
    var before := DerivePlain(m.before);
    var name := DeriveString(m.name);
    var after := DerivePlain(m.after);
    var colon := DerivePlain(":");
    var item := DeriveItem(m.item);
    var t1 := m.before + StringText(m.name);
    DeriveConcat(before, m.before, name, StringText(m.name));
    DeriveConcat(before + name, t1, after, m.after);
    DeriveConcat(before + name + after, t1 + m.after, colon, ":");
    DeriveConcat(before + name + after + colon, t1 + m.after + ":", item, ItemText(m.item));
    nodes := before + name + after + colon + item;
  }

  lemma {:induction false} DeriveMembers(members: seq<Member>) returns (nodes: seq<Node>)
    requires forall i :: 0 <= i < |members| ==> MemberOk(members[i])
    ensures Derives(nodes, MembersText(members))
    decreases members, 0
  {
    if members == [] {
      nodes := [];
    } else {
      var first := DeriveMember(members[0]);
      var comma := DerivePlain(Comma(|members| > 1));
      var rest := DeriveMembers(members[1..]);
      DeriveConcat(first, MemberText(members[0]), comma, Comma(|members| > 1));
      DeriveConcat(first + comma, MemberText(members[0]) + Comma(|members| > 1), rest, MembersText(members[1..]));
      nodes := first + comma + rest;
    }
  }

  /** One object is scanned as one result. */
  lemma FeedObject(s: Scan, v: Json)
    requires Normal(s) && s.depth == 0 && v.Object? && JsonOk(v)
    ensures FeedAll(s, Text(v)) == s.(results := s.results + [Text(v)])
  {
    var inside := DeriveInside(v);
    FeedGroup(s, inside);
  }

  // ----- Backslashes and bars of an object are inside its strings -----

  lemma {:induction false} BodyQuoted(s: Scan, body: seq<StrChar>)
    requires s.inString && !s.escaped && BodyOk(body)
    ensures BarsQuoted(s, PrintBody(body))
    decreases |body|
  {
    if body != [] {
      var first := PrintChar(body[0]);
      FeedChar(s, body[0]);
      assert BarsQuoted(s, first) by {
        assert first == [first[0]] + first[1..];
        assert first[1..] != "" ==> first[1..][1..] == "";
      }
      BodyQuoted(Absorb(s, first), body[1..]);
      BarsQuotedSplit(s, first, PrintBody(body[1..]));
    }
  }

  lemma {:induction false} NodeQuoted(s: Scan, n: Node)
    requires Normal(s) && s.depth > 0 && Inner(n) && Tame(n)
    ensures BarsQuoted(s, Print(n))
    decreases n, 0
  {
    match n
    case Plain(c) =>
      assert [c][1..] == "";
    case Quoted(body) =>
      var open := Feed(s, '"');
      BodyQuoted(open, body);
      FeedBody(open, body);
      BarsQuotedSplit(open, PrintBody(body), "\"");
      assert Print(n)[1..] == PrintBody(body) + "\"";
    case Group(kids) =>
      GroupQuoted(s, kids);
  }

  lemma {:induction false} GroupQuoted(s: Scan, kids: seq<Node>)
    requires Normal(s) && AllInner(kids) && AllTame(kids)
    ensures BarsQuoted(s, Print(Group(kids)))
    decreases kids, 2
  {
    var open := Feed(s, '{');
    NodesQuoted(open, kids);
    FeedInners(open, kids);
    BarsQuotedSplit(open, PrintAll(kids), "}");
    assert Print(Group(kids))[1..] == PrintAll(kids) + "}";
  }

  lemma {:induction false} NodesQuoted(s: Scan, nodes: seq<Node>)
    requires Normal(s) && s.depth > 0 && AllInner(nodes) && AllTame(nodes)
    ensures BarsQuoted(s, PrintAll(nodes))
    decreases nodes, 1
  {
    if nodes != [] {
      NodeQuoted(s, nodes[0]);
      FeedInner(s, nodes[0]);
      NodesQuoted(Absorb(s, Print(nodes[0])), nodes[1..]);
      BarsQuotedSplit(s, Print(nodes[0]), PrintAll(nodes[1..]));
    }
  }

  /** In every written object, backslashes and bars are inside strings, and all strings are closed. */
  lemma ObjectIsQuoted(v: Json)
    requires v.Object? && JsonOk(v)
    ensures BarsQuoted(START, Text(v)) && !FeedAll(START, Text(v)).inString
  {
    var inside := DeriveInside(v);
    GroupQuoted(START, inside);
    FeedObject(START, v);
  }

  // ----- Round trip -----

  /** Model output: objects, each after a gap of other text, and a tail. */
  function Output(parts: seq<(string, Json)>, tail: string): string
    decreases |parts|
  {
    if parts == [] then tail else parts[0].0 + (Text(parts[0].1) + Output(parts[1..], tail))
  }

  function Texts(parts: seq<(string, Json)>): seq<string> {
    if parts == [] then [] else [Text(parts[0].1)] + Texts(parts[1..])
  }

  ghost predicate PartsOk(parts: seq<(string, Json)>) {
    forall i :: 0 <= i < |parts| ==> parts[i].1.Object? && JsonOk(parts[i].1)
  }

  /** Text that closes all its strings and has no opening brace outside them. */
  predicate Gap(text: string) {
    FeedAll(START, text) == START
  }

  /** What was found before does not matter for what is found later. */
  lemma {:induction false} ResultsApart(s: Scan, found: seq<string>, text: string)
    ensures FeedAll(s.(results := found + s.results), text) ==
      FeedAll(s, text).(results := found + FeedAll(s, text).results)
    decreases |text|
  {
    if text != "" {
      var next := Feed(s, text[0]);
      assert Feed(s.(results := found + s.results), text[0]) == next.(results := found + next.results) by {
        if |next.results| > |s.results| {
          var last := s.pending + [text[0]];
          assert found + s.results + [last] == found + (s.results + [last]);
        }
      }
      ResultsApart(next, found, text[1..]);
    }
  }

  lemma FeedFromTop(s: Scan, text: string)
    requires Normal(s) && s.depth == 0
    ensures FeedAll(s, text) == FeedAll(START, text).(results := s.results + FeedAll(START, text).results)
  {
    assert s.results + [] == s.results;
    ResultsApart(START, s.results, text);
  }

  lemma FeedPart(s: Scan, gap: string, v: Json, rest: string)
    requires Normal(s) && s.depth == 0 && Gap(gap) && v.Object? && JsonOk(v)
    ensures FeedAll(s, gap + (Text(v) + rest)) == FeedAll(s.(results := s.results + [Text(v)]), rest)
  {
    FeedConcat(s, gap, Text(v) + rest);
    FeedFromTop(s, gap);
    assert s.results + [] == s.results;
    FeedConcat(s, Text(v), rest);
    FeedObject(s, v);
  }

  lemma {:induction false} FeedOutput(s: Scan, parts: seq<(string, Json)>, tail: string)
    requires Normal(s) && s.depth == 0 && PartsOk(parts) && FeedAll(START, tail).results == []
    requires forall i :: 0 <= i < |parts| ==> Gap(parts[i].0)
    ensures FeedAll(s, Output(parts, tail)).results == s.results + Texts(parts)
    decreases |parts|
  {
    if parts == [] {
      FeedFromTop(s, tail);
    } else {
      var own := [Text(parts[0].1)];
      FeedPart(s, parts[0].0, parts[0].1, Output(parts[1..], tail));
      FeedOutput(s.(results := s.results + own), parts[1..], tail);
      assert s.results + own + Texts(parts[1..]) == s.results + (own + Texts(parts[1..]));
    }
  }

  /**
    For every sequence of JSON objects, however they are written and whatever
    their strings contain, after gaps that close their strings and open no brace
    outside them, the scanner returns exactly the printed objects, in order.
   */
  lemma ScanPrintedObjects(parts: seq<(string, Json)>, tail: string)
    requires PartsOk(parts) && FeedAll(START, tail).results == []
    requires forall i :: 0 <= i < |parts| ==> Gap(parts[i].0)
    ensures FeedAll(START, Output(parts, tail)).results == Texts(parts)
  {
    FeedOutput(START, parts, tail);
    assert [] + Texts(parts) == Texts(parts);
  }

  // ----- Exactly which gaps do harm -----

  /** The number of opening braces. */
  function Braces(text: string): nat {
    multiset(text)['{']
  }

  function AllBraces(texts: seq<string>): nat {
    if texts == [] then 0 else AllBraces(texts[..|texts| - 1]) + Braces(texts[|texts| - 1])
  }

  lemma BracesConcat(a: string, b: string)
    ensures Braces(a + b) == Braces(a) + Braces(b)
  {
    assert multiset(a + b) == multiset(a) + multiset(b);
  }

  lemma {:induction false} AllBracesConcat(a: seq<string>, b: seq<string>)
    ensures AllBraces(a + b) == AllBraces(a) + AllBraces(b)
    decreases |b|
  {
    if b == [] {
      assert a + b == a;
    } else {
      assert (a + b)[..|a + b| - 1] == a + b[..|b| - 1];
      AllBracesConcat(a, b[..|b| - 1]);
    }
  }

  /** Every brace in a result was read once. */
  lemma FeedBraces(s: Scan, c: char)
    ensures Stock(Feed(s, c)) <= Stock(s) + Braces([c])
  {
    var last := s.pending + [c];
    BracesConcat(s.pending, [c]);
    AllBracesConcat(s.results, [last]);
    assert [last][..0] == [];
    assert Braces("") == 0;
  }

  function Stock(s: Scan): nat {
    AllBraces(s.results) + Braces(s.pending)
  }

  lemma {:induction false} FeedAllBraces(s: Scan, text: string)
    ensures Stock(FeedAll(s, text)) <= Stock(s) + Braces(text)
    decreases |text|
  {
    if text != "" {
      FeedBraces(s, text[0]);
      FeedAllBraces(Feed(s, text[0]), text[1..]);
      BracesConcat([text[0]], text[1..]);
      assert text == [text[0]] + text[1..];
    }
  }

  /** Text without an opening brace finds nothing and can only leave a string open. */
  lemma {:induction false} BracelessText(s: Scan, text: string)
    requires s.depth == 0 && '{' !in text && (s.escaped ==> s.inString)
    ensures var s' := FeedAll(s, text);
      s'.depth == 0 && s'.pending == s.pending && s'.results == s.results && (s'.escaped ==> s'.inString)
    decreases |text|
  {
    if text != "" {
      BracelessText(Feed(s, text[0]), text[1..]);
    }
  }

  ghost predicate Braceless(parts: seq<(string, Json)>, tail: string) {
    '{' !in tail && forall i :: 0 <= i < |parts| ==> '{' !in parts[i].0
  }

  lemma {:induction false} OutputBraces(parts: seq<(string, Json)>, tail: string)
    requires Braceless(parts, tail)
    ensures Braces(Output(parts, tail)) == AllBraces(Texts(parts))
    decreases |parts|
  {
    if parts != [] {
      var text, rest := Text(parts[0].1), Output(parts[1..], tail);
      OutputBraces(parts[1..], tail);
      BracesConcat(parts[0].0, text + rest);
      BracesConcat(text, rest);
      AllBracesConcat([text], Texts(parts[1..]));
      assert [text][..0] == [];
    }
  }

  /** A brace that is read inside a string is in no result. */
  lemma BraceInString(s: Scan, body: string)
    requires s.depth == 0 && s.inString && body != "" && body[0] == '{'
    ensures Stock(FeedAll(s, body)) < Stock(s) + Braces(body)
  {
    var rest := body[1..];
    assert body == ['{'] + rest;
    BracesConcat(['{'], rest);
    FeedAllBraces(Feed(s, '{'), rest);
  }

  /** So an object that starts inside an open string is lost, and nothing later can make up for it. */
  lemma BraceLost(s: Scan, parts: seq<(string, Json)>, tail: string)
    requires Normal(s) && s.depth == 0 && parts != [] && parts[0].1.Object? && Braceless(parts, tail)
    requires FeedAll(START, parts[0].0).inString
    ensures FeedAll(s, Output(parts, tail)).results != s.results + Texts(parts)
  {
    var gap, body := parts[0].0, Text(parts[0].1) + Output(parts[1..], tail);
    FeedConcat(s, gap, body);
    BracelessText(s, gap);
    FeedFromTop(s, gap);
    BraceInString(FeedAll(s, gap), body);
    OutputBraces(parts, tail);
    BracesConcat(gap, body);
    AllBracesConcat(s.results, Texts(parts));
  }

  lemma {:induction false} OutputIff(s: Scan, parts: seq<(string, Json)>, tail: string)
    requires Normal(s) && s.depth == 0 && PartsOk(parts) && Braceless(parts, tail)
    ensures FeedAll(s, Output(parts, tail)).results == s.results + Texts(parts)
      <==> forall i :: 0 <= i < |parts| ==> !FeedAll(START, parts[i].0).inString
    decreases |parts|
  {
    if parts == [] {
      FeedFromTop(s, tail);
      BracelessText(START, tail);
    } else if FeedAll(START, parts[0].0).inString {
      BraceLost(s, parts, tail);
    } else {
      var own, rest := [Text(parts[0].1)], parts[1..];
      BracelessText(START, parts[0].0);
      FeedPart(s, parts[0].0, parts[0].1, Output(rest, tail));
      OutputIff(s.(results := s.results + own), rest, tail);
      assert s.results + own + Texts(rest) == s.results + (own + Texts(rest));
      assert forall i :: 0 < i < |parts| ==> parts[i] == rest[i - 1];
    }
  }

  /**
    With gaps that have no opening brace, the scanner returns exactly the printed
    objects if and only if every gap before an object closes its strings.
   */
  lemma ScanPrintedObjectsIff(parts: seq<(string, Json)>, tail: string)
    requires PartsOk(parts) && Braceless(parts, tail)
    ensures FeedAll(START, Output(parts, tail)).results == Texts(parts)
      <==> forall i :: 0 <= i < |parts| ==> !FeedAll(START, parts[i].0).inString
  {
    OutputIff(START, parts, tail);
    assert [] + Texts(parts) == Texts(parts);
  }

  /** One stray quote hides the object after it. */
  lemma QuoteInGapHidesObject()
    ensures FeedAll(START, Output([("\"", Object([], ""))], "")).results == []
  {
    var text := Output([("\"", Object([], ""))], "");
    assert text == ['"', '{', '}'];
    FeedTail(START, Tail([], Some([Raw('{'), Raw('}')]), false));
    assert PrintTail(Tail([], Some([Raw('{'), Raw('}')]), false)) == text by {
      var body := [Raw('{'), Raw('}')];
      assert body[1..] == [Raw('}')] && body[1..][1..] == [];
    }
  }
}
