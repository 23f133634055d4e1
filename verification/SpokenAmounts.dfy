/**
  The printers of numbers and amounts (voice/speech_normalizer.py:191-475) and
  the round trip through the listener.
 */
module SpokenAmounts {
  import opened SpokenWords
  import opened NumberWords
  import opened Text

  /** The words of these dictionary entries, as one sentence. */
  function Sentence(codes: Codes): string {
    Join(Spell(codes))
  }

  /** `parts` joins to the same sentence as `codes`. */
  ghost predicate Says(parts: seq<string>, codes: Codes) {
    Join(parts) == Sentence(codes) && (parts == [] <==> codes == [])
  }

  lemma SaysMore(parts: seq<string>, codes: Codes, part: string, more: Codes)
    requires Says(parts, codes) && part == Sentence(more) && more != []
    ensures Says(parts + [part], codes + more)
  {
    assert Spell(codes + more) == Spell(codes) + Spell(more);
    if parts == [] {
      assert parts + [part] == [part] && codes + more == more;
    } else {
      JoinConcat(parts, [part]);
      JoinConcat(Spell(codes), Spell(more));
    }
  }

  lemma OneWord(k: Code)
    ensures Sentence([k]) == Spelling(k)
  {
    assert Spell([k]) == [Spelling(k)];
  }

  /** Appends one word to the parts of a sentence. */
  lemma SaysWord(parts: seq<string>, codes: Codes, k: Code)
    requires Says(parts, codes)
    ensures Says(parts + [Spelling(k)], codes + [k])
  {
    OneWord(k);
    SaysMore(parts, codes, Spelling(k), [k]);
  }

  lemma NothingSaid()
    ensures Says([], [])
  {
  }

  // ----- Printers -----

  method EnBelowHundred(n: nat) returns (text: string)
    requires 20 <= n < 100
    ensures text == Sentence(BelowHundred(English, n))
  {
    var tens, ones := n / 10, n % 10;
    var parts := [EnTens(tens)];
    OneWord(125 + tens);
    if ones != 0 {
      parts := parts + [EnOnes(ones)];
      SaysWord([EnTens(tens)], [125 + tens], 105 + ones);
      assert [125 + tens] + [105 + ones] == BelowHundred(English, n);
    }
    text := Join(parts);
  }

  method EnBelowThousand(n: nat) returns (text: string)
    requires n < 1000
    ensures n > 0 ==> text == Sentence(BelowThousand(English, n))
    ensures n == 0 ==> text == ""
  {
    if n < 20 {
      if n > 0 {
        OneWord(105 + n);
      }
      return EnOnes(n);
    }
    if n < 100 {
      text := EnBelowHundred(n);
      return;
    }
    var rest := n % 100;
    var parts := HundredsParts(English, n / 100);
    if rest != 0 {
      var tail := EnBelowThousand(rest);
      SaysMore(parts, BelowHundred(English, n / 100) + [HundredCode(English)], tail, BelowHundred(English, rest));
      parts := parts + [tail];
    } else {
      assert BelowThousand(English, n) == BelowHundred(English, n / 100) + [HundredCode(English)];
    }
    text := Join(parts);
  }

  /** The digit and the word for hundred. */
  method HundredsParts(l: Language, hundreds: nat) returns (parts: seq<string>)
    requires 0 < hundreds < 10
    ensures Says(parts, BelowHundred(l, hundreds) + [HundredCode(l)])
  {
    var digit := if l == English then EnOnes(hundreds) else HiOnes(hundreds);
    var code: Code := if l == English then 105 + hundreds else hundreds;
    OneWord(code);
    assert BelowHundred(l, hundreds) == [code];
    SaysWord([digit], [code], HundredCode(l));
    parts := [digit] + [Spelling(HundredCode(l))];
  }

  method HiBelowThousand(n: nat) returns (text: string)
    requires n < 1000
    ensures n > 0 ==> text == Sentence(BelowThousand(Hindi, n))
    ensures n == 0 ==> text == HiOnes(0)
  {
    if n < 100 {
      OneWord(n);
      return HiOnes(n);
    }
    var rest := n % 100;
    var parts := HundredsParts(Hindi, n / 100);
    if rest != 0 {
      SaysWord(parts, BelowHundred(Hindi, n / 100) + [HundredCode(Hindi)], rest);
      parts := parts + [HiOnes(rest)];
    } else {
      assert BelowThousand(Hindi, n) == BelowHundred(Hindi, n / 100) + [HundredCode(Hindi)];
    }
    text := Join(parts);
  }

  method SmallNumber(l: Language, n: nat) returns (text: string)
    requires 0 < n < 1000
    ensures text == Sentence(BelowThousand(l, n))
  {
    if l == English {
      text := EnBelowThousand(n);
    } else {
      text := HiBelowThousand(n);
    }
  }

  lemma {:induction false} SomethingSaid(l: Language, n: nat)
    requires n > 0
    ensures Positive(l, n) != [] && (n < 1000 ==> BelowThousand(l, n) != [])
  {
    if n >= 10_000_000 {
      SomethingSaid(l, n / 10_000_000);
    }
  }

  /** Appends a count and its scale word, unless the count is zero. */
  method AppendScaled(l: Language, parts: seq<string>, ghost codes: Codes, count: nat, scale: Code)
    returns (parts': seq<string>)
    requires count < 1000 && Says(parts, codes)
    ensures Says(parts', codes + Scaled(l, count, scale))
  {
    parts' := parts;
    assert codes + [] == codes;
    if count != 0 {
      var small := SmallNumber(l, count);
      SomethingSaid(l, count);
      SaysMore(parts, codes, small, BelowThousand(l, count));
      SaysWord(parts + [small], codes + BelowThousand(l, count), scale);
      parts' := parts + [small] + [Spelling(scale)];
      assert codes + BelowThousand(l, count) + [scale] == codes + Scaled(l, count, scale);
    }
  }

  method AppendUnits(l: Language, parts: seq<string>, ghost codes: Codes, n: nat) returns (parts': seq<string>)
    requires n < 1000 && Says(parts, codes)
    ensures Says(parts', codes + Units(l, n))
  {
    parts' := parts;
    assert codes + [] == codes;
    if n != 0 {
      var small := SmallNumber(l, n);
      SomethingSaid(l, n);
      SaysMore(parts, codes, small, BelowThousand(l, n));
      parts' := parts + [small];
    }
  }

  /** Every integer has a spoken form; the recursion through the crores ends. */
  method IndianNumber(l: Language, n: int) returns (text: string)
    ensures text == Sentence(NumberCodes(l, n))
    decreases n < 0, if n < 0 then -n else n, 1
  {
    if n == 0 {
      text := Word1(ZeroCode(l));
      return;
    }
    if n < 0 {
      var positive := IndianNumber(l, -n);
      SomethingSaid(l, -n);
      text := WordThen(MinusCode(l), positive, Positive(l, -n));
      return;
    }
    var parts := CroreParts(l, n / 10_000_000);
    text := RestOfNumber(l, n, parts);
  }

  method CroreParts(l: Language, crores: nat) returns (parts: seq<string>)
    ensures Says(parts, Crores(l, crores))
    decreases false, crores, 2
  {
    parts := [];
    NothingSaid();
    if crores != 0 {
      var count := IndianNumber(l, crores);
      SomethingSaid(l, crores);
      assert Says([count], Positive(l, crores));
      SaysWord([count], Positive(l, crores), CroreCode(l));
      parts := [count] + [Spelling(CroreCode(l))];
    }
  }

  /** Lakhs, thousands and the rest, after the crores. */
  method RestOfNumber(l: Language, n: nat, crores: seq<string>) returns (text: string)
    requires n > 0 && Says(crores, Crores(l, n / 10_000_000))
    ensures text == Sentence(Positive(l, n))
  {
    var rest := n % 10_000_000;
    var lakh, belowLakh := rest / 100_000, rest % 100_000;
    var thousand, low := belowLakh / 1_000, belowLakh % 1_000;
    ghost var a, b, c := Crores(l, n / 10_000_000), Scaled(l, lakh, LakhCode(l)), Scaled(l, thousand, ThousandCode(l));
    var parts := AppendScaled(l, crores, a, lakh, LakhCode(l));
    parts := AppendScaled(l, parts, a + b, thousand, ThousandCode(l));
    parts := AppendUnits(l, parts, a + b + c, low);
    PartsInOrder(a, b, c, Units(l, low));
    text := Join(parts);
  }

  lemma PartsInOrder(a: Codes, b: Codes, c: Codes, d: Codes)
    ensures a + b + c + d == a + (b + (c + d))
  {
  }

  method Word1(k: Code) returns (text: string)
    ensures text == Sentence([k])
  {
    OneWord(k);
    text := Spelling(k);
  }

  method WordThen(k: Code, rest: string, ghost codes: Codes) returns (text: string)
    requires rest == Sentence(codes) && codes != []
    ensures text == Sentence([k] + codes)
  {
    var word := Word1(k);
    text := word + " " + rest;
    JoinTwo(word, rest);
    assert Says([word], [k]);
    SaysMore([word], [k], rest, codes);
  }

  lemma JoinTwo(a: string, b: string)
    ensures Join([a] + [b]) == a + " " + b
  {
    assert ([a] + [b])[1..] == [b];
  }

  // ----- Round trip -----

  /** Splitting a spoken number at its spaces and listening to the words gives the number back. */
  lemma SpeakListen(l: Language, n: int)
    ensures Denote(Split(Sentence(NumberCodes(l, n)))) == Value(n)
  {
    CodesNonEmpty(l, n);
    SplitSentence(NumberCodes(l, n));
    WordsDenote(l, n);
  }

  /** So no two integers are spoken alike, in either language or across them. */
  lemma SpeechInjective(l: Language, n: int, l': Language, n': int)
    requires Sentence(NumberCodes(l, n)) == Sentence(NumberCodes(l', n'))
    ensures n == n'
  {
    SpeakListen(l, n);
    SpeakListen(l', n');
  }

  lemma CodesNonEmpty(l: Language, n: int)
    ensures NumberCodes(l, n) != []
  {
    if n != 0 {
      SomethingSaid(l, if n < 0 then -n else n);
    }
  }

  lemma SplitSentence(codes: Codes)
    requires codes != []
    ensures Split(Sentence(codes)) == Spell(codes)
  {
    NoSpaces(codes);
    SplitJoin(Spell(codes));
  }

  // ----- Amounts -----

  function RupeeWord(l: Language): string { if l == English then "rupees" else "रुपये" }
  function AndWord(l: Language): string { if l == English then "and" else "और" }
  function PaiseWord(l: Language): string { if l == English then "paise" else "पैसे" }

  /** The first position of `word`, or the length. */
  function Find(words: seq<string>, word: string): nat {
    if words == [] || words[0] == word then 0 else 1 + Find(words[1..], word)
  }

  /** What a listener makes of a spoken amount, in hundredths of a rupee. */
  function DenoteAmount(l: Language, words: seq<string>): Number {
    match l
    case English => DenoteMarked(words, "rupees", "and", "paise")
    case Hindi => DenoteMarked(words, "रुपये", "और", "पैसे")
  }

  /** An amount whose parts are told apart by these words. */
  function DenoteMarked(words: seq<string>, rupeeMark: string, andMark: string, paiseMark: string): Number {
    var i := Find(words, rupeeMark);
    if i >= |words| then NotANumber
    else
      var rest := words[i + 1..];
      match Denote(words[..i])
      case NotANumber => NotANumber
      case Value(rupees) =>
        if rest == [] then Value(rupees * 100)
        else if |rest| < 2 || rest[0] != andMark || rest[|rest| - 1] != paiseMark then NotANumber
        else match Denote(rest[1..|rest| - 1])
          case NotANumber => NotANumber
          case Value(paise) => Value(rupees * 100 + paise)
  }

  function RupeesAndPaiseWords(l: Language, rupees: nat, paise: nat): seq<string> {
    var whole := Spell(NumberCodes(l, rupees)) + [RupeeWord(l)];
    if paise == 0 then whole
    else whole + ([AndWord(l)] + Spell(NumberCodes(l, paise)) + [PaiseWord(l)])
  }

  function AmountWords(l: Language, hundredths: nat): seq<string> {
    RupeesAndPaiseWords(l, hundredths / 100, hundredths % 100)
  }

  lemma {:induction false} FindAfter(words: seq<string>, word: string, rest: seq<string>)
    requires word !in words
    ensures Find(words + [word] + rest, word) == |words|
    decreases |words|
  {
    var all := words + [word] + rest;
    if words == [] {
      assert all[0] == word;
    } else {
      assert all[1..] == words[1..] + [word] + rest;
      FindAfter(words[1..], word, rest);
    }
  }

  lemma RupeeMarks(l: Language)
    ensures Lookup(Mark(RupeeWord(l))) == 140
  {
    if l == English {
      assert Mark("rupees") == 27119519526;
    } else {
      assert Mark("रुपये") == 629905265413;
    }
  }

  lemma RupeeIsNoNumber(l: Language, codes: Codes)
    ensures RupeeWord(l) !in Spell(codes)
  {
    RupeeMarks(l);
    forall i | 0 <= i < |codes| ensures Spell(codes)[i] != RupeeWord(l) {
      Found(codes[i]);
    }
  }

  lemma DenoteRupees(left: seq<string>, rupees: int, rupeeMark: string, andMark: string, paiseMark: string)
    requires rupeeMark !in left && Denote(left) == Value(rupees)
    ensures DenoteMarked(left + [rupeeMark], rupeeMark, andMark, paiseMark) == Value(rupees * 100)
  {
    var words := left + [rupeeMark];
    FindAfter(left, rupeeMark, []);
    assert words + [] == words;
    assert words[..|left|] == left && words[|left| + 1..] == [];
  }

  lemma DenoteBoth(
    left: seq<string>, middle: seq<string>, rupees: int, paise: int, rupeeMark: string, andMark: string, paiseMark: string)
    requires rupeeMark !in left && Denote(left) == Value(rupees) && Denote(middle) == Value(paise)
    ensures DenoteMarked(left + [rupeeMark] + ([andMark] + middle + [paiseMark]), rupeeMark, andMark, paiseMark)
         == Value(rupees * 100 + paise)
  {
    var right := [andMark] + middle + [paiseMark];
    var words := left + [rupeeMark] + right;
    FindAfter(left, rupeeMark, right);
    assert words[..|left|] == left;
    assert words[|left| + 1..] == right;
    assert right[1..|right| - 1] == middle;
    assert right[0] == andMark && right[|right| - 1] == paiseMark;
  }

  lemma RupeesAndPaiseDenote(l: Language, rupees: nat, paise: nat)
    ensures DenoteAmount(l, RupeesAndPaiseWords(l, rupees, paise)) == Value(rupees * 100 + paise)
  {
    RupeeIsNoNumber(l, NumberCodes(l, rupees));
    WordsDenote(l, rupees);
    var left := Spell(NumberCodes(l, rupees));
    if paise == 0 {
      DenoteRupees(left, rupees, RupeeWord(l), AndWord(l), PaiseWord(l));
    } else {
      WordsDenote(l, paise);
      DenoteBoth(left, Spell(NumberCodes(l, paise)), rupees, paise, RupeeWord(l), AndWord(l), PaiseWord(l));
    }
  }

  /** Spoken rupees and paise together are the amount, to the hundredth. */
  lemma AmountWordsDenote(l: Language, hundredths: nat)
    ensures DenoteAmount(l, AmountWords(l, hundredths)) == Value(hundredths)
  {
    RupeesAndPaiseDenote(l, hundredths / 100, hundredths % 100);
    assert hundredths / 100 * 100 + hundredths % 100 == hundredths;
  }

  ghost predicate SingleWords(words: seq<string>) {
    forall i :: 0 <= i < |words| ==> ' ' !in words[i]
  }

  lemma SingleWordsConcat(a: seq<string>, b: seq<string>)
    requires SingleWords(a) && SingleWords(b)
    ensures SingleWords(a + b)
  {
  }

  lemma AmountWordsAreSingle(l: Language, rupees: nat, paise: nat)
    ensures SingleWords(RupeesAndPaiseWords(l, rupees, paise))
  {
    var left, middle := Spell(NumberCodes(l, rupees)), Spell(NumberCodes(l, paise));
    NoSpaces(NumberCodes(l, rupees));
    NoSpaces(NumberCodes(l, paise));
    assert SingleWords([RupeeWord(l)]) && SingleWords([AndWord(l)]) && SingleWords([PaiseWord(l)]);
    SingleWordsConcat(left, [RupeeWord(l)]);
    SingleWordsConcat([AndWord(l)], middle);
    SingleWordsConcat([AndWord(l)] + middle, [PaiseWord(l)]);
    SingleWordsConcat(left + [RupeeWord(l)], [AndWord(l)] + middle + [PaiseWord(l)]);
  }

  lemma SplitAmount(l: Language, hundredths: nat)
    ensures Split(Join(AmountWords(l, hundredths))) == AmountWords(l, hundredths)
  {
    AmountWordsAreSingle(l, hundredths / 100, hundredths % 100);
    SplitJoin(AmountWords(l, hundredths));
  }

  lemma NoSpaces(codes: Codes)
    ensures SingleWords(Spell(codes))
  {
    forall i | 0 <= i < |codes| ensures ' ' !in Spell(codes)[i] {
      Found(codes[i]);
    }
  }

  /**
    `value` is the parsed amount, which the pattern limits to two decimals:
    `hundredths` is the same amount in hundredths.
   */
  method AmountText(l: Language, value: real, ghost hundredths: nat) returns (text: string)
    requires value == hundredths as real / 100.0
    ensures text == Join(AmountWords(l, hundredths))
    ensures DenoteAmount(l, Split(text)) == Value(hundredths)
  {
    var whole, paise := RupeesAndPaise(value, hundredths);
    text := SayAmount(l, whole, paise);
    AmountSpoken(l, hundredths);
  }

  method RupeesAndPaise(value: real, ghost hundredths: nat) returns (whole: nat, paise: nat)
    requires value == hundredths as real / 100.0
    ensures whole == hundredths / 100 && paise == hundredths % 100
  {
    WholeAndPaise(value, hundredths);
    whole := value.Floor;
    paise := ((value - whole as real) * 100.0).Floor;
  }

  lemma AmountSpoken(l: Language, hundredths: nat)
    ensures AmountSpeech(l, hundredths / 100, hundredths % 100) == Join(AmountWords(l, hundredths))
    ensures DenoteAmount(l, Split(Join(AmountWords(l, hundredths)))) == Value(hundredths)
  {
    SplitAmount(l, hundredths);
    AmountWordsDenote(l, hundredths);
    AmountSentence(l, hundredths);
  }

  function AmountSpeech(l: Language, rupees: nat, paise: nat): string {
    var whole := Sentence(NumberCodes(l, rupees)) + " " + RupeeWord(l);
    if paise == 0 then whole
    else whole + " " + AndWord(l) + " " + Sentence(NumberCodes(l, paise)) + " " + PaiseWord(l)
  }

  method SayAmount(l: Language, rupees: nat, paise: nat) returns (text: string)
    ensures text == AmountSpeech(l, rupees, paise)
  {
    var words := IndianNumber(l, rupees);
    text := words + " " + RupeeWord(l);
    if paise != 0 {
      var small := IndianNumber(l, paise);
      text := text + " " + AndWord(l) + " " + small + " " + PaiseWord(l);
    }
  }

  lemma AmountSentence(l: Language, hundredths: nat)
    ensures Join(AmountWords(l, hundredths)) == AmountSpeech(l, hundredths / 100, hundredths % 100)
  {
    var left, middle := Spell(NumberCodes(l, hundredths / 100)), Spell(NumberCodes(l, hundredths % 100));
    CodesNonEmpty(l, hundredths / 100);
    CodesNonEmpty(l, hundredths % 100);
    JoinConcat(left, [RupeeWord(l)]);
    if hundredths % 100 == 0 {
      assert AmountWords(l, hundredths) == left + [RupeeWord(l)];
    } else {
      JoinFive(left + [RupeeWord(l)], AndWord(l), middle, PaiseWord(l));
    }
  }

  lemma WholeAndPaise(value: real, hundredths: nat)
    requires value == hundredths as real / 100.0
    ensures value.Floor == hundredths / 100
    ensures ((value - value.Floor as real) * 100.0).Floor == hundredths % 100
  {
    var w, p := hundredths / 100, hundredths % 100;
    assert hundredths == 100 * w + p;
    assert value == w as real + p as real / 100.0;
  }

  lemma JoinFive(left: seq<string>, a: string, middle: seq<string>, b: string)
    requires left != [] && middle != []
    ensures Join(left + ([a] + middle + [b])) == Join(left) + " " + a + " " + Join(middle) + " " + b
  {
    JoinConcat(left, [a]);
    JoinConcat(left + [a], middle);
    JoinConcat(left + [a] + middle, [b]);
    WordsAssoc(left, [a], middle, [b]);
    assert Join([a]) == a && Join([b]) == b;
  }

  lemma WordsAssoc(a: seq<string>, b: seq<string>, c: seq<string>, d: seq<string>)
    ensures a + b + c + d == a + (b + c + d)
  {
  }
}
