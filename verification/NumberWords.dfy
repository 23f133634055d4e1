/**
  Spoken Indian numbers and amounts (voice/speech_normalizer.py:191-475).

  The printers build strings; `Words` gives the words of those strings, and
  `Denote` is what a listener makes of any word sequence, reading from left to
  right and knowing nothing of the printer.
 */
module NumberWords {
  import opened SpokenWords

  datatype Language = English | Hindi

  // ----- The listener -----

  /** `done` is closed by a scale word; `open` is still being said. */
  datatype Heard = Heard(done: nat, open: nat) | Nonsense

  function Hear(h: Heard, t: Token): Heard {
    match h
    case Nonsense => Nonsense
    case Heard(done, open) =>
      match t
      case Unit(v) => Heard(done, open + v)
      case Hundred => Heard(done, open * 100)
      case Thousand => Heard(done + open * 1_000, 0)
      case Lakh => Heard(done + open * 100_000, 0)
      case Crore => Heard((done + open) * 10_000_000, 0)
      case Minus => Nonsense
      case Unknown => Nonsense
  }

  function HearTokens(h: Heard, tokens: seq<Token>): Heard
    decreases |tokens|
  {
    if tokens == [] then h else HearTokens(Hear(h, tokens[0]), tokens[1..])
  }

  function Tokens(words: seq<string>): seq<Token> {
    seq(|words|, i requires 0 <= i < |words| => Meaning(words[i]))
  }

  datatype Number = Value(value: int) | NotANumber

  function Denote(words: seq<string>): Number {
    DenoteTokens(Tokens(words))
  }

  function DenoteTokens(tokens: seq<Token>): Number {
    var negative := tokens != [] && tokens[0] == Minus;
    match HearTokens(Heard(0, 0), if negative then tokens[1..] else tokens)
    case Heard(done, open) => Value(if negative then -(done + open) else done + open)
    case Nonsense => NotANumber
  }

  lemma {:induction false} HearTokensConcat(h: Heard, a: seq<Token>, b: seq<Token>)
    ensures HearTokens(h, a + b) == HearTokens(HearTokens(h, a), b)
    decreases |a|
  {
    if a == [] {
      assert a + b == b;
    } else {
      assert (a + b)[1..] == a[1..] + b;
      HearTokensConcat(Hear(h, a[0]), a[1..], b);
    }
  }

  // ----- The words of a number, as dictionary entries -----

  type Code = k: nat | k < 140 && k != 125 && k != 126
  type Codes = seq<Code>

  function Spell(codes: Codes): seq<string> {
    seq(|codes|, i requires 0 <= i < |codes| => Spelling(codes[i]))
  }

  function TokensOf(codes: Codes): seq<Token> {
    seq(|codes|, i requires 0 <= i < |codes| => TokenOf(codes[i]))
  }

  function HundredCode(l: Language): Code { if l == English then 135 else 100 }
  function ThousandCode(l: Language): Code { if l == English then 136 else 101 }
  function LakhCode(l: Language): Code { if l == English then 137 else 102 }
  function CroreCode(l: Language): Code { if l == English then 138 else 103 }
  function MinusCode(l: Language): Code { if l == English then 139 else 104 }
  function ZeroCode(l: Language): Code { if l == English then 105 else 0 }

  function BelowHundred(l: Language, n: nat): Codes
    requires 0 < n < 100
  {
    match l
    case Hindi => [n]
    case English =>
      if n < 20 then [105 + n]
      else if n % 10 == 0 then [125 + n / 10]
      else [125 + n / 10, 105 + n % 10]
  }

  function BelowThousand(l: Language, n: nat): Codes
    requires 0 < n < 1000
  {
    if n < 100 then BelowHundred(l, n)
    else BelowHundred(l, n / 100) + [HundredCode(l)] + if n % 100 == 0 then [] else BelowHundred(l, n % 100)
  }

  /** A count of thousands or lakhs with its scale word, or nothing. */
  function Scaled(l: Language, count: nat, scale: Code): Codes
    requires count < 1000
  {
    if count == 0 then [] else BelowThousand(l, count) + [scale]
  }

  function Positive(l: Language, n: nat): Codes
    requires n > 0
    decreases n, 0
  {
    Crores(l, n / 10_000_000) + BelowCrore(l, n % 10_000_000)
  }

  function BelowCrore(l: Language, n: nat): Codes
    requires n < 10_000_000
  {
    Scaled(l, n / 100_000, LakhCode(l)) + BelowLakh(l, n % 100_000)
  }

  function BelowLakh(l: Language, n: nat): Codes
    requires n < 100_000
  {
    Scaled(l, n / 1_000, ThousandCode(l)) + Units(l, n % 1_000)
  }

  function Crores(l: Language, count: nat): Codes
    decreases count, 1
  {
    if count == 0 then [] else Positive(l, count) + [CroreCode(l)]
  }

  function Units(l: Language, n: nat): Codes
    requires n < 1000
  {
    if n == 0 then [] else BelowThousand(l, n)
  }

  function NumberCodes(l: Language, n: int): Codes {
    if n == 0 then [ZeroCode(l)]
    else if n < 0 then [MinusCode(l)] + Positive(l, -n)
    else Positive(l, n)
  }

  // ----- Number words denote the number -----

  function HearCodes(h: Heard, codes: Codes): Heard {
    HearTokens(h, TokensOf(codes))
  }

  lemma HearConcat(h: Heard, a: Codes, b: Codes)
    ensures HearCodes(h, a + b) == HearCodes(HearCodes(h, a), b)
  {
    assert TokensOf(a + b) == TokensOf(a) + TokensOf(b);
    HearTokensConcat(h, TokensOf(a), TokensOf(b));
  }

  lemma HearOne(h: Heard, k: Code)
    ensures HearCodes(h, [k]) == Hear(h, TokenOf(k))
  {
    assert TokensOf([k]) == [TokenOf(k)];
    assert [TokenOf(k)][1..] == [];
    assert HearTokens(Hear(h, TokenOf(k)), []) == Hear(h, TokenOf(k));
  }

  lemma HearBelowHundred(l: Language, n: nat, done: nat, open: nat)
    requires 0 < n < 100
    ensures HearCodes(Heard(done, open), BelowHundred(l, n)) == Heard(done, open + n)
  {
    var h := Heard(done, open);
    if l == Hindi {
      HearOne(h, n);
    } else if n < 20 {
      HearOne(h, 105 + n);
    } else {
      HearOne(h, 125 + n / 10);
      if n % 10 != 0 {
        assert [125 + n / 10, 105 + n % 10] == [125 + n / 10] + [105 + n % 10];
        HearConcat(h, [125 + n / 10], [105 + n % 10]);
        HearOne(Heard(done, open + 10 * (n / 10)), 105 + n % 10);
      }
    }
  }

  lemma HearBelowThousand(l: Language, n: nat, done: nat)
    requires 0 < n < 1000
    ensures HearCodes(Heard(done, 0), BelowThousand(l, n)) == Heard(done, n)
  {
    if n < 100 {
      HearBelowHundred(l, n, done, 0);
    } else {
      var h := Heard(done, 0);
      var high, low := n / 100, n % 100;
      var lead := BelowHundred(l, high) + [HundredCode(l)];
      HearBelowHundred(l, high, done, 0);
      HearConcat(h, BelowHundred(l, high), [HundredCode(l)]);
      HearOne(Heard(done, high), HundredCode(l));
      if low > 0 {
        HearConcat(h, lead, BelowHundred(l, low));
        HearBelowHundred(l, low, done, high * 100);
      } else {
        assert lead + [] == lead;
      }
    }
  }

  lemma HearScaled(l: Language, count: nat, scale: Code, done: nat)
    requires count < 1000 && (TokenOf(scale) == Thousand || TokenOf(scale) == Lakh)
    ensures HearCodes(Heard(done, 0), Scaled(l, count, scale)) ==
      Heard(done + count * if TokenOf(scale) == Lakh then 100_000 else 1_000, 0)
  {
    if count > 0 {
      HearConcat(Heard(done, 0), BelowThousand(l, count), [scale]);
      HearBelowThousand(l, count, done);
      HearOne(Heard(done, count), scale);
    }
  }

  /** What has been said so far amounts to n. */
  predicate AmountsTo(h: Heard, n: nat) {
    h.Heard? && h.done + h.open == n
  }

  lemma HearBelowLakh(l: Language, n: nat, done: nat)
    requires n < 100_000
    ensures AmountsTo(HearCodes(Heard(done, 0), BelowLakh(l, n)), done + n)
  {
    HearConcat(Heard(done, 0), Scaled(l, n / 1_000, ThousandCode(l)), Units(l, n % 1_000));
    HearScaled(l, n / 1_000, ThousandCode(l), done);
    if n % 1_000 > 0 {
      HearBelowThousand(l, n % 1_000, done + n / 1_000 * 1_000);
    }
  }

  lemma HearBelowCrore(l: Language, n: nat, done: nat)
    requires n < 10_000_000
    ensures AmountsTo(HearCodes(Heard(done, 0), BelowCrore(l, n)), done + n)
  {
    HearConcat(Heard(done, 0), Scaled(l, n / 100_000, LakhCode(l)), BelowLakh(l, n % 100_000));
    HearScaled(l, n / 100_000, LakhCode(l), done);
    HearBelowLakh(l, n % 100_000, done + n / 100_000 * 100_000);
  }

  lemma AppendCrore(l: Language, codes: Codes, done: nat, open: nat)
    requires HearCodes(Heard(0, 0), codes) == Heard(done, open)
    ensures HearCodes(Heard(0, 0), codes + [CroreCode(l)]) == Heard((done + open) * 10_000_000, 0)
  {
    HearConcat(Heard(0, 0), codes, [CroreCode(l)]);
    HearOne(Heard(done, open), CroreCode(l));
  }

  lemma AppendRest(l: Language, codes: Codes, done: nat, low: nat)
    requires low < 10_000_000 && HearCodes(Heard(0, 0), codes) == Heard(done, 0)
    ensures AmountsTo(HearCodes(Heard(0, 0), codes + BelowCrore(l, low)), done + low)
  {
    HearConcat(Heard(0, 0), codes, BelowCrore(l, low));
    HearBelowCrore(l, low, done);
  }

  lemma {:induction false} HearPositive(l: Language, n: nat)
    requires n > 0
    ensures AmountsTo(HearCodes(Heard(0, 0), Positive(l, n)), n)
    decreases n, 0
  {
    var crores, low := n / 10_000_000, n % 10_000_000;
    HearCrores(l, crores);
    AppendRest(l, Crores(l, crores), crores * 10_000_000, low);
    assert crores * 10_000_000 + low == n;
  }

  lemma {:induction false} HearCrores(l: Language, count: nat)
    ensures HearCodes(Heard(0, 0), Crores(l, count)) == Heard(count * 10_000_000, 0)
    decreases count, 1
  {
    if count > 0 {
      HearPositive(l, count);
      var h := HearCodes(Heard(0, 0), Positive(l, count));
      AppendCrore(l, Positive(l, count), h.done, h.open);
    }
  }

  lemma {:induction false} NonsenseStays(tokens: seq<Token>)
    ensures HearTokens(Nonsense, tokens) == Nonsense
    decreases |tokens|
  {
    if tokens != [] {
      NonsenseStays(tokens[1..]);
    }
  }

  lemma PositiveDenotes(l: Language, n: nat)
    requires n > 0
    ensures DenoteTokens(TokensOf(Positive(l, n))) == Value(n)
  {
    var tokens := TokensOf(Positive(l, n));
    HearPositive(l, n);
    if tokens != [] && tokens[0] == Minus {
      NonsenseStays(tokens[1..]);
    }
  }

  lemma SpellTokens(codes: Codes)
    ensures Tokens(Spell(codes)) == TokensOf(codes)
  {
    forall i | 0 <= i < |codes| ensures Meaning(Spelling(codes[i])) == TokenOf(codes[i]) {
      Recognised(codes[i]);
    }
  }

  lemma MinusDenotes(l: Language, codes: Codes, done: nat, open: nat)
    requires HearCodes(Heard(0, 0), codes) == Heard(done, open)
    ensures DenoteTokens(TokensOf([MinusCode(l)] + codes)) == Value(0 - done - open)
  {
    var tokens := TokensOf([MinusCode(l)] + codes);
    assert tokens[0] == Minus && tokens[1..] == TokensOf(codes);
  }

  lemma NegativeDenotes(l: Language, n: nat)
    requires n > 0
    ensures DenoteTokens(TokensOf([MinusCode(l)] + Positive(l, n))) == Value(0 - n)
  {
    HearPositive(l, n);
    var h := HearCodes(Heard(0, 0), Positive(l, n));
    MinusDenotes(l, Positive(l, n), h.done, h.open);
  }

  lemma ZeroDenotes(l: Language)
    ensures DenoteTokens(TokensOf([ZeroCode(l)])) == Value(0)
  {
    var codes: Codes := [ZeroCode(l)];
    assert TokensOf(codes) == [Unit(0)];
    SilenceAfterZero();
  }

  lemma SilenceAfterZero()
    ensures DenoteTokens([Unit(0)]) == Value(0)
  {
    assert [Unit(0)][1..] == [];
  }

  lemma CodesDenote(l: Language, n: int)
    ensures DenoteTokens(TokensOf(NumberCodes(l, n))) == Value(n)
  {
    if n == 0 {
      ZeroDenotes(l);
    } else if n < 0 {
      NegativeDenotes(l, -n);
    } else {
      PositiveDenotes(l, n);
    }
  }

  /** For every integer, what the listener makes of its words is that integer. */
  lemma WordsDenote(l: Language, n: int)
    ensures Denote(Spell(NumberCodes(l, n))) == Value(n)
  {
    SpellTokens(NumberCodes(l, n));
    CodesDenote(l, n);
  }
}
