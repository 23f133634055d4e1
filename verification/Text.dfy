/** Joining, splitting and stripping text, as Python's string methods do. */
module Text {
  /** `" ".join(words)` */
  function Join(words: seq<string>): string {
    if words == [] then "" else if |words| == 1 then words[0] else words[0] + " " + Join(words[1..])
  }

  /** `text.split(" ")` */
  function Split(text: string): (words: seq<string>)
    ensures words != []
  {
    if text == "" then [""]
    else
      var rest := Split(text[1..]);
      if text[0] == ' ' then [""] + rest else [[text[0]] + rest[0]] + rest[1..]
  }

  lemma {:induction false} JoinConcat(a: seq<string>, b: seq<string>)
    requires a != [] && b != []
    ensures Join(a + b) == Join(a) + " " + Join(b)
    decreases |a|
  {
    if |a| == 1 {
      assert (a + b)[1..] == b;
    } else {
      assert (a + b)[1..] == a[1..] + b;
      JoinConcat(a[1..], b);
      assert a[0] + " " + (Join(a[1..]) + " " + Join(b)) == (a[0] + " " + Join(a[1..])) + " " + Join(b);
    }
  }

  lemma {:induction false} SplitWord(word: string, rest: string)
    requires ' ' !in word
    ensures Split(word) == [word]
    ensures Split(word + " " + rest) == [word] + Split(rest)
    decreases |word|
  {
    if word == "" {
      assert "" + " " + rest == " " + rest;
    } else {
      SplitWord(word[1..], rest);
      assert (word + " " + rest)[1..] == word[1..] + " " + rest;
      assert [word[0]] + word[1..] == word;
    }
  }

  /** Words without spaces survive the trip through a sentence. */
  lemma {:induction false} SplitJoin(words: seq<string>)
    requires words != [] && forall i :: 0 <= i < |words| ==> ' ' !in words[i]
    ensures Split(Join(words)) == words
    decreases |words|
  {
    if |words| == 1 {
      SplitWord(words[0], "");
    } else {
      SplitWord(words[0], Join(words[1..]));
      SplitJoin(words[1..]);
      assert words == [words[0]] + words[1..];
    }
  }

  // ----- Whitespace -----

  /** The characters that `str.strip` removes. */
  predicate IsSpace(c: char) {
    || '\U{9}' <= c <= '\U{D}' || '\U{1C}' <= c <= '\U{20}' || c == '\U{85}' || c == '\U{A0}' || c == '\U{1680}'
    || '\U{2000}' <= c <= '\U{200A}' || c == '\U{2028}' || c == '\U{2029}' || c == '\U{202F}'
    || c == '\U{205F}' || c == '\U{3000}'
  }

  function Strip(s: string): string
    decreases |s|
  {
    if s == "" then ""
    else if IsSpace(s[0]) then Strip(s[1..])
    else if IsSpace(s[|s| - 1]) then Strip(s[..|s| - 1])
    else s
  }

  /** Nothing to strip. */
  predicate Trim(s: string) {
    s == "" || (!IsSpace(s[0]) && !IsSpace(s[|s| - 1]))
  }

  lemma {:induction false} StripTrims(s: string)
    ensures Trim(Strip(s))
    ensures Trim(s) ==> Strip(s) == s
    decreases |s|
  {
    if s == "" {
    } else if IsSpace(s[0]) {
      StripTrims(s[1..]);
    } else if IsSpace(s[|s| - 1]) {
      StripTrims(s[..|s| - 1]);
    }
  }

  /** Stripping removes whitespace at both ends, and nothing else. */
  lemma {:induction false} StripKeepsText(s: string) returns (from: nat, to: nat)
    ensures from <= to <= |s| && Strip(s) == s[from..to]
    ensures forall i :: 0 <= i < |s| && !(from <= i < to) ==> IsSpace(s[i])
    decreases |s|
  {
    from, to := 0, |s|;
    if s != "" && IsSpace(s[0]) {
      from, to := StripKeepsText(s[1..]);
      from, to := from + 1, to + 1;
      forall i | 0 <= i < |s| && !(from <= i < to)
        ensures IsSpace(s[i])
      {
        assert i > 0 ==> s[i] == s[1..][i - 1];
      }
    } else if s != "" && IsSpace(s[|s| - 1]) {
      var shorter := s[..|s| - 1];
      from, to := StripKeepsText(shorter);
      assert shorter[from..to] == s[from..to];
      forall i | 0 <= i < |s| && !(from <= i < to)
        ensures IsSpace(s[i])
      {
        assert i < |s| - 1 ==> s[i] == shorter[i];
      }
    }
  }

  lemma {:induction false} JoinTrims(words: seq<string>)
    requires forall i :: 0 <= i < |words| ==> words[i] != "" && Trim(words[i])
    ensures Trim(Join(words)) && (Join(words) == "" <==> words == [])
  {
    if |words| > 1 {
      JoinTrims(words[1..]);
    }
  }
}
