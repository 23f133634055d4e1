/**
  The words of spoken amounts (voice/speech_normalizer.py:25-162): the tables of
  the printer in rows of five, and a dictionary that a listener looks words up in.

  That no two of the 138 words are spelled alike would take some nine thousand
  comparisons, so the dictionary finds a word by its mark, a number that packs
  its length and its first, last and third-last letter, and then compares the
  spelling. These four tell all words apart, and no three of the length and
  single letters, counted from either end, do. The numbers on the shelves are the marks of the words, by
  rising mark so that the lookup is short; each `Found` lemma computes the marks
  of one row of the tables, and `Recognised` draws the conclusion.
 */
module SpokenWords {
  function Row0(u: nat): string {
    match u case 0 => "शून्य" case 1 => "एक" case 2 => "दो" case 3 => "तीन" case _ => "चार"
  }

  function Row1(u: nat): string {
    match u case 0 => "पाँच" case 1 => "छह" case 2 => "सात" case 3 => "आठ" case _ => "नौ"
  }

  function Row2(u: nat): string {
    match u case 0 => "दस" case 1 => "ग्यारह" case 2 => "बारह" case 3 => "तेरह" case _ => "चौदह"
  }

  function Row3(u: nat): string {
    match u case 0 => "पंद्रह" case 1 => "सोलह" case 2 => "सत्रह" case 3 => "अठारह" case _ => "उन्नीस"
  }

  function Row4(u: nat): string {
    match u case 0 => "बीस" case 1 => "इक्कीस" case 2 => "बाईस" case 3 => "तेईस" case _ => "चौबीस"
  }

  function Row5(u: nat): string {
    match u case 0 => "पच्चीस" case 1 => "छब्बीस" case 2 => "सत्ताईस" case 3 => "अट्ठाईस" case _ => "उनतीस"
  }

  function Row6(u: nat): string {
    match u case 0 => "तीस" case 1 => "इकतीस" case 2 => "बत्तीस" case 3 => "तैंतीस" case _ => "चौंतीस"
  }

  function Row7(u: nat): string {
    match u case 0 => "पैंतीस" case 1 => "छत्तीस" case 2 => "सैंतीस" case 3 => "अड़तीस" case _ => "उनतालीस"
  }

  function Row8(u: nat): string {
    match u case 0 => "चालीस" case 1 => "इकतालीस" case 2 => "बयालीस" case 3 => "तैंतालीस" case _ => "चवालीस"
  }

  function Row9(u: nat): string {
    match u case 0 => "पैंतालीस" case 1 => "छियालीस" case 2 => "सैंतालीस" case 3 => "अड़तालीस" case _ => "उनचास"
  }

  function Row10(u: nat): string {
    match u case 0 => "पचास" case 1 => "इक्यावन" case 2 => "बावन" case 3 => "तिरपन" case _ => "चौवन"
  }

  function Row11(u: nat): string {
    match u case 0 => "पचपन" case 1 => "छप्पन" case 2 => "सत्तावन" case 3 => "अट्ठावन" case _ => "उनसठ"
  }

  function Row12(u: nat): string {
    match u case 0 => "साठ" case 1 => "इकसठ" case 2 => "बासठ" case 3 => "तिरसठ" case _ => "चौंसठ"
  }

  function Row13(u: nat): string {
    match u case 0 => "पैंसठ" case 1 => "छियासठ" case 2 => "सड़सठ" case 3 => "अड़सठ" case _ => "उनहत्तर"
  }

  function Row14(u: nat): string {
    match u case 0 => "सत्तर" case 1 => "इकहत्तर" case 2 => "बहत्तर" case 3 => "तिहत्तर" case _ => "चौहत्तर"
  }

  function Row15(u: nat): string {
    match u case 0 => "पचहत्तर" case 1 => "छिहत्तर" case 2 => "सतहत्तर" case 3 => "अठहत्तर" case _ => "उनासी"
  }

  function Row16(u: nat): string {
    match u case 0 => "अस्सी" case 1 => "इक्यासी" case 2 => "बयासी" case 3 => "तिरासी" case _ => "चौरासी"
  }

  function Row17(u: nat): string {
    match u case 0 => "पचासी" case 1 => "छियासी" case 2 => "सत्तासी" case 3 => "अट्ठासी" case _ => "नवासी"
  }

  function Row18(u: nat): string {
    match u case 0 => "नब्बे" case 1 => "इक्यानवे" case 2 => "बानवे" case 3 => "तिरानवे" case _ => "चौरानवे"
  }

  function Row19(u: nat): string {
    match u case 0 => "पचानवे" case 1 => "छियानवे" case 2 => "सत्तानवे" case 3 => "अट्ठानवे" case _ => "निन्यानवे"
  }

  function Row20(u: nat): string {
    match u case 0 => "सौ" case 1 => "हज़ार" case 2 => "लाख" case 3 => "करोड़" case _ => "माइनस"
  }

  function Row21(u: nat): string {
    match u case 0 => "zero" case 1 => "one" case 2 => "two" case 3 => "three" case _ => "four"
  }

  function Row22(u: nat): string {
    match u case 0 => "five" case 1 => "six" case 2 => "seven" case 3 => "eight" case _ => "nine"
  }

  function Row23(u: nat): string {
    match u case 0 => "ten" case 1 => "eleven" case 2 => "twelve" case 3 => "thirteen" case _ => "fourteen"
  }

  function Row24(u: nat): string {
    match u case 0 => "fifteen" case 1 => "sixteen" case 2 => "seventeen" case 3 => "eighteen" case _ => "nineteen"
  }

  function Row25(u: nat): string {
    match u case 0 => "" case 1 => "" case 2 => "twenty" case 3 => "thirty" case _ => "forty"
  }

  function Row26(u: nat): string {
    match u case 0 => "fifty" case 1 => "sixty" case 2 => "seventy" case 3 => "eighty" case _ => "ninety"
  }

  function Row27(u: nat): string {
    match u case 0 => "hundred" case 1 => "thousand" case 2 => "lakh" case 3 => "crore" case _ => "minus"
  }

  /** Entry k: Hindi 0 to 99, Hindi scales, English 0 to 19, English tens, English scales. */
  function Spelling(k: nat): string
    requires k < 140
  {
    var u := k % 5;
    match k / 5
    case 0 => Row0(u) case 1 => Row1(u) case 2 => Row2(u) case 3 => Row3(u) case 4 => Row4(u) case 5 => Row5(u)
    case 6 => Row6(u) case 7 => Row7(u) case 8 => Row8(u) case 9 => Row9(u) case 10 => Row10(u) case 11 => Row11(u)
    case 12 => Row12(u) case 13 => Row13(u) case 14 => Row14(u) case 15 => Row15(u) case 16 => Row16(u)
    case 17 => Row17(u) case 18 => Row18(u) case 19 => Row19(u) case 20 => Row20(u) case 21 => Row21(u)
    case 22 => Row22(u) case 23 => Row23(u) case 24 => Row24(u) case 25 => Row25(u) case 26 => Row26(u)
    case _ => Row27(u)
  }

  /** The entries that the tables leave empty: English tens below twenty. */
  predicate Word(k: nat) {
    k < 140 && k != 125 && k != 126
  }

  // ----- The tables of the printer -----

  function EnOnes(n: nat): string
    requires n < 20
  {
    if n == 0 then "" else Spelling(105 + n)
  }

  function EnTens(n: nat): string
    requires n < 10
  {
    Spelling(125 + n)
  }

  /** The Hindi table has no entry beyond 99. */
  function HiOnes(n: nat): string
    requires n < 100
  {
    Spelling(n)
  }

  // ----- The dictionary -----

  /** What a single word contributes to a number. */
  datatype Token = Unit(v: nat) | Hundred | Thousand | Lakh | Crore | Minus | Unknown

  /** The meaning of entry k. */
  function TokenOf(k: nat): Token {
    if k < 100 then Unit(k)
    else if 105 <= k < 125 then Unit(k - 105)
    else if 125 <= k < 135 then Unit(10 * (k - 125))
    else if k == 100 || k == 135 then Hundred
    else if k == 101 || k == 136 then Thousand
    else if k == 102 || k == 137 then Lakh
    else if k == 103 || k == 138 then Crore
    else Minus
  }

  function Letter(w: string, i: int): nat {
    if 0 <= i < |w| then w[i] as int else 0
  }

  function Mark(w: string): nat {
    |w| + 16 * (Letter(w, 0) + 4096 * (Letter(w, |w| - 1) + 4096 * Letter(w, |w| - 3)))
  }

  // The entries by rising mark, on 12 shelves.

  function Shelf0(mark: nat): nat {
    match mark
    case 152408306 => 1 case 153129058 => 8 case 154702434 => 10 case 154767794 => 6 case 155947618 => 2
    case 156013186 => 9 case 156013442 => 100 case 26044794696 => 136 case 26045056708 => 137
    case 27119191640 => 123 case 27119191655 => 120 case 27119191656 => 119 case _ => 140
  }

  function Shelf1(mark: nat): nat {
    match mark
    case 27119191784 => 124 case 27119191863 => 121 case 27119191865 => 122 case 27119191880 => 118
    case 27119257508 => 105 case 27119912678 => 134 case 27388348005 => 130 case 27656455765 => 113
    case 27925218902 => 133 case 28192343652 => 110 case 28192343780 => 114 case 28997650246 => 117 case _ => 140
  }

  function Shelf2(mark: nat): nat {
    match mark
    case 29535438549 => 139 case 29535831863 => 132 case 29535831878 => 127 case 29802956341 => 138
    case 29802956531 => 106 case 29803808356 => 109 case 30608197255 => 135 case 30608262981 => 108
    case 30609573477 => 129 case 30609573702 => 128 case 30877943603 => 111 case 31145723715 => 115 case _ => 140
  }

  function Shelf3(mark: nat): nat {
    match mark
    case 31145789251 => 107 case 31682594390 => 116 case 31682594613 => 112 case 32220186421 => 131
    case 619165290917 => 64 case 619165291173 => 65 case 620509041381 => 104 case 624265564276 => 61
    case 624267137142 => 21 case 625608266404 => 55 case 625608790435 => 4 case 625609314453 => 49 case _ => 140
  }

  function Shelf4(mark: nat): nat {
    match mark
    case 625609314980 => 50 case 625609314982 => 25 case 628292620867 => 3 case 628293668950 => 38
    case 628293668981 => 31 case 628293669013 => 29 case 628293669286 => 34 case 628293669302 => 36
    case 628293669443 => 30 case 628293669446 => 33 case 628293669542 => 35 case 628293669574 => 32 case _ => 140
  }

  function Shelf5(mark: nat): nat {
    match mark
    case 628293669766 => 37 case 629365837972 => 59 case 629366821733 => 0 case 629367410838 => 19
    case 629368393816 => 98 case 629368393848 => 91 case 629368394151 => 94 case 629368394167 => 96
    case 629368394311 => 93 case 629368394377 => 99 case 629368394406 => 95 case 629368394437 => 92 case _ => 140
  }

  function Shelf6(mark: nat): nat {
    match mark
    case 629368394632 => 97 case 630441152933 => 24 case 630441152950 => 26 case 630441153219 => 20
    case 631513322053 => 63 case 631513846341 => 53 case 632049537827 => 102 case 632051765336 => 48
    case 632051765367 => 41 case 632051765399 => 39 case 632051765669 => 40 case 632051765670 => 44 case _ => 140
  }

  function Shelf7(mark: nat): nat {
    match mark
    case 632051765687 => 46 case 632051765832 => 43 case 632051765928 => 45 case 632051765958 => 42
    case 632051766152 => 47 case 633660806019 => 60 case 633661068163 => 7 case 634734547029 => 68
    case 634734547845 => 67 case 634735596437 => 101 case 635271025316 => 5 case 635271418294 => 66 case _ => 140
  }

  function Shelf8(mark: nat): nat {
    match mark
    case 635271418564 => 62 case 635271942231 => 58 case 635271942263 => 51 case 635271942852 => 52
    case 635271943047 => 57 case 635272990807 => 28 case 635272991428 => 22 case 635272991623 => 27
    case 635273056341 => 18 case 635273056630 => 11 case 635273056964 => 12 case 635273515095 => 88 case _ => 140
  }

  function Shelf9(mark: nat): nat {
    match mark
    case 635273515127 => 81 case 635273515157 => 79 case 635273515430 => 84 case 635273515446 => 86
    case 635273515590 => 83 case 635273515653 => 89 case 635273515685 => 85 case 635273515717 => 82
    case 635273515911 => 87 case 637688910404 => 23 case 637688975940 => 13 case 638762718084 => 16 case _ => 140
  }

  function Shelf10(mark: nat): nat {
    match mark
    case 638762914133 => 103 case 639030038948 => 54 case 639031153060 => 14 case 639298474421 => 56
    case 639298998359 => 78 case 639298998391 => 71 case 639298998423 => 69 case 639298998695 => 74
    case 639298998711 => 76 case 639298998855 => 73 case 639298998951 => 75 case 639298998982 => 72 case _ => 140
  }

  function Shelf11(mark: nat): nat {
    match mark
    case 639298999173 => 70 case 639298999175 => 77 case 639299588774 => 15 case 639299588997 => 17
    case 639300046933 => 80 case 639300506245 => 90 case _ => 140
  }

  /** The entry with this mark, or 140. */
  function Lookup(mark: nat): nat {
    if mark < 27119191784 then Shelf0(mark)
    else if mark < 29535438549 then Shelf1(mark)
    else if mark < 31145789251 then Shelf2(mark)
    else if mark < 625609314980 then Shelf3(mark)
    else if mark < 628293669766 then Shelf4(mark)
    else if mark < 629368394632 then Shelf5(mark)
    else if mark < 632051765687 then Shelf6(mark)
    else if mark < 635271418564 then Shelf7(mark)
    else if mark < 635273515127 then Shelf8(mark)
    else if mark < 638762914133 then Shelf9(mark)
    else if mark < 639298999173 then Shelf10(mark)
    else Shelf11(mark)
  }

  /** The meaning of a word: that of the dictionary entry spelled exactly so. */
  function Meaning(w: string): Token {
    var k := Lookup(Mark(w));
    if Word(k) && Spelling(k) == w then TokenOf(k) else Unknown
  }

  lemma Row0Found(u: nat)
    requires 0 <= u < 5
    ensures Lookup(Mark(Row0(u))) == 0 + u && ' ' !in Row0(u)
  {
    match u
    case 0 => assert Lookup(629366821733) == 0 && Mark(Row0(0)) == 629366821733;
    case 1 => assert Lookup(152408306) == 1 && Mark(Row0(1)) == 152408306;
    case 2 => assert Lookup(155947618) == 2 && Mark(Row0(2)) == 155947618;
    case 3 => assert Lookup(628292620867) == 3 && Mark(Row0(3)) == 628292620867;
    case _ => assert Lookup(625608790435) == 4 && Mark(Row0(4)) == 625608790435;
  }

  lemma Row1Found(u: nat)
    requires 0 <= u < 5
    ensures Lookup(Mark(Row1(u))) == 5 + u && ' ' !in Row1(u)
  {
    match u
    case 0 => assert Lookup(635271025316) == 5 && Mark(Row1(0)) == 635271025316;
    case 1 => assert Lookup(154767794) == 6 && Mark(Row1(1)) == 154767794;
    case 2 => assert Lookup(633661068163) == 7 && Mark(Row1(2)) == 633661068163;
    case 3 => assert Lookup(153129058) == 8 && Mark(Row1(3)) == 153129058;
    case _ => assert Lookup(156013186) == 9 && Mark(Row1(4)) == 156013186;
  }

  lemma Row2Found(u: nat)
    requires 0 <= u < 5
    ensures Lookup(Mark(Row2(u))) == 10 + u && ' ' !in Row2(u)
  {
    match u
    case 0 => assert Lookup(154702434) == 10 && Mark(Row2(0)) == 154702434;
    case 1 => assert Lookup(635273056630) == 11 && Mark(Row2(1)) == 635273056630;
    case 2 => assert Lookup(635273056964) == 12 && Mark(Row2(2)) == 635273056964;
    case 3 => assert Lookup(637688975940) == 13 && Mark(Row2(3)) == 637688975940;
    case _ => assert Lookup(639031153060) == 14 && Mark(Row2(4)) == 639031153060;
  }

  lemma Row3Found(u: nat)
    requires 0 <= u < 5
    ensures Lookup(Mark(Row3(u))) == 15 + u && ' ' !in Row3(u)
  {
    match u
    case 0 => assert Lookup(639299588774) == 15 && Mark(Row3(0)) == 639299588774;
    case 1 => assert Lookup(638762718084) == 16 && Mark(Row3(1)) == 638762718084;
    case 2 => assert Lookup(639299588997) == 17 && Mark(Row3(2)) == 639299588997;
    case 3 => assert Lookup(635273056341) == 18 && Mark(Row3(3)) == 635273056341;
    case _ => assert Lookup(629367410838) == 19 && Mark(Row3(4)) == 629367410838;
  }

  lemma Row4Found(u: nat)
    requires 0 <= u < 5
    ensures Lookup(Mark(Row4(u))) == 20 + u && ' ' !in Row4(u)
  {
    match u
    case 0 => assert Lookup(630441153219) == 20 && Mark(Row4(0)) == 630441153219;
    case 1 => assert Lookup(624267137142) == 21 && Mark(Row4(1)) == 624267137142;
    case 2 => assert Lookup(635272991428) == 22 && Mark(Row4(2)) == 635272991428;
    case 3 => assert Lookup(637688910404) == 23 && Mark(Row4(3)) == 637688910404;
    case _ => assert Lookup(630441152933) == 24 && Mark(Row4(4)) == 630441152933;
  }

  lemma Row5Found(u: nat)
    requires 0 <= u < 5
    ensures Lookup(Mark(Row5(u))) == 25 + u && ' ' !in Row5(u)
  {
    match u
    case 0 => assert Lookup(625609314982) == 25 && Mark(Row5(0)) == 625609314982;
    case 1 => assert Lookup(630441152950) == 26 && Mark(Row5(1)) == 630441152950;
    case 2 => assert Lookup(635272991623) == 27 && Mark(Row5(2)) == 635272991623;
    case 3 => assert Lookup(635272990807) == 28 && Mark(Row5(3)) == 635272990807;
    case _ => assert Lookup(628293669013) == 29 && Mark(Row5(4)) == 628293669013;
  }

  lemma Row6Found(u: nat)
    requires 0 <= u < 5
    ensures Lookup(Mark(Row6(u))) == 30 + u && ' ' !in Row6(u)
  {
    match u
    case 0 => assert Lookup(628293669443) == 30 && Mark(Row6(0)) == 628293669443;
    case 1 => assert Lookup(628293668981) == 31 && Mark(Row6(1)) == 628293668981;
    case 2 => assert Lookup(628293669574) == 32 && Mark(Row6(2)) == 628293669574;
    case 3 => assert Lookup(628293669446) == 33 && Mark(Row6(3)) == 628293669446;
    case _ => assert Lookup(628293669286) == 34 && Mark(Row6(4)) == 628293669286;
  }

  lemma Row7Found(u: nat)
    requires 0 <= u < 5
    ensures Lookup(Mark(Row7(u))) == 35 + u && ' ' !in Row7(u)
  {
    match u
    case 0 => assert Lookup(628293669542) == 35 && Mark(Row7(0)) == 628293669542;
    case 1 => assert Lookup(628293669302) == 36 && Mark(Row7(1)) == 628293669302;
    case 2 => assert Lookup(628293669766) == 37 && Mark(Row7(2)) == 628293669766;
    case 3 => assert Lookup(628293668950) == 38 && Mark(Row7(3)) == 628293668950;
    case _ => assert Lookup(632051765399) == 39 && Mark(Row7(4)) == 632051765399;
  }

  lemma Row8Found(u: nat)
    requires 0 <= u < 5
    ensures Lookup(Mark(Row8(u))) == 40 + u && ' ' !in Row8(u)
  {
    match u
    case 0 => assert Lookup(632051765669) == 40 && Mark(Row8(0)) == 632051765669;
    case 1 => assert Lookup(632051765367) == 41 && Mark(Row8(1)) == 632051765367;
    case 2 => assert Lookup(632051765958) == 42 && Mark(Row8(2)) == 632051765958;
    case 3 => assert Lookup(632051765832) == 43 && Mark(Row8(3)) == 632051765832;
    case _ => assert Lookup(632051765670) == 44 && Mark(Row8(4)) == 632051765670;
  }

  lemma Row9Found(u: nat)
    requires 0 <= u < 5
    ensures Lookup(Mark(Row9(u))) == 45 + u && ' ' !in Row9(u)
  {
    match u
    case 0 => assert Lookup(632051765928) == 45 && Mark(Row9(0)) == 632051765928;
    case 1 => assert Lookup(632051765687) == 46 && Mark(Row9(1)) == 632051765687;
    case 2 => assert Lookup(632051766152) == 47 && Mark(Row9(2)) == 632051766152;
    case 3 => assert Lookup(632051765336) == 48 && Mark(Row9(3)) == 632051765336;
    case _ => assert Lookup(625609314453) == 49 && Mark(Row9(4)) == 625609314453;
  }

  lemma Row10Found(u: nat)
    requires 0 <= u < 5
    ensures Lookup(Mark(Row10(u))) == 50 + u && ' ' !in Row10(u)
  {
    match u
    case 0 => assert Lookup(625609314980) == 50 && Mark(Row10(0)) == 625609314980;
    case 1 => assert Lookup(635271942263) == 51 && Mark(Row10(1)) == 635271942263;
    case 2 => assert Lookup(635271942852) == 52 && Mark(Row10(2)) == 635271942852;
    case 3 => assert Lookup(631513846341) == 53 && Mark(Row10(3)) == 631513846341;
    case _ => assert Lookup(639030038948) == 54 && Mark(Row10(4)) == 639030038948;
  }

  lemma Row11Found(u: nat)
    requires 0 <= u < 5
    ensures Lookup(Mark(Row11(u))) == 55 + u && ' ' !in Row11(u)
  {
    match u
    case 0 => assert Lookup(625608266404) == 55 && Mark(Row11(0)) == 625608266404;
    case 1 => assert Lookup(639298474421) == 56 && Mark(Row11(1)) == 639298474421;
    case 2 => assert Lookup(635271943047) == 57 && Mark(Row11(2)) == 635271943047;
    case 3 => assert Lookup(635271942231) == 58 && Mark(Row11(3)) == 635271942231;
    case _ => assert Lookup(629365837972) == 59 && Mark(Row11(4)) == 629365837972;
  }

  lemma Row12Found(u: nat)
    requires 0 <= u < 5
    ensures Lookup(Mark(Row12(u))) == 60 + u && ' ' !in Row12(u)
  {
    match u
    case 0 => assert Lookup(633660806019) == 60 && Mark(Row12(0)) == 633660806019;
    case 1 => assert Lookup(624265564276) == 61 && Mark(Row12(1)) == 624265564276;
    case 2 => assert Lookup(635271418564) == 62 && Mark(Row12(2)) == 635271418564;
    case 3 => assert Lookup(631513322053) == 63 && Mark(Row12(3)) == 631513322053;
    case _ => assert Lookup(619165290917) == 64 && Mark(Row12(4)) == 619165290917;
  }

  lemma Row13Found(u: nat)
    requires 0 <= u < 5
    ensures Lookup(Mark(Row13(u))) == 65 + u && ' ' !in Row13(u)
  {
    match u
    case 0 => assert Lookup(619165291173) == 65 && Mark(Row13(0)) == 619165291173;
    case 1 => assert Lookup(635271418294) == 66 && Mark(Row13(1)) == 635271418294;
    case 2 => assert Lookup(634734547845) == 67 && Mark(Row13(2)) == 634734547845;
    case 3 => assert Lookup(634734547029) == 68 && Mark(Row13(3)) == 634734547029;
    case _ => assert Lookup(639298998423) == 69 && Mark(Row13(4)) == 639298998423;
  }

  lemma Row14Found(u: nat)
    requires 0 <= u < 5
    ensures Lookup(Mark(Row14(u))) == 70 + u && ' ' !in Row14(u)
  {
    match u
    case 0 => assert Lookup(639298999173) == 70 && Mark(Row14(0)) == 639298999173;
    case 1 => assert Lookup(639298998391) == 71 && Mark(Row14(1)) == 639298998391;
    case 2 => assert Lookup(639298998982) == 72 && Mark(Row14(2)) == 639298998982;
    case 3 => assert Lookup(639298998855) == 73 && Mark(Row14(3)) == 639298998855;
    case _ => assert Lookup(639298998695) == 74 && Mark(Row14(4)) == 639298998695;
  }

  lemma Row15Found(u: nat)
    requires 0 <= u < 5
    ensures Lookup(Mark(Row15(u))) == 75 + u && ' ' !in Row15(u)
  {
    match u
    case 0 => assert Lookup(639298998951) == 75 && Mark(Row15(0)) == 639298998951;
    case 1 => assert Lookup(639298998711) == 76 && Mark(Row15(1)) == 639298998711;
    case 2 => assert Lookup(639298999175) == 77 && Mark(Row15(2)) == 639298999175;
    case 3 => assert Lookup(639298998359) == 78 && Mark(Row15(3)) == 639298998359;
    case _ => assert Lookup(635273515157) == 79 && Mark(Row15(4)) == 635273515157;
  }

  lemma Row16Found(u: nat)
    requires 0 <= u < 5
    ensures Lookup(Mark(Row16(u))) == 80 + u && ' ' !in Row16(u)
  {
    match u
    case 0 => assert Lookup(639300046933) == 80 && Mark(Row16(0)) == 639300046933;
    case 1 => assert Lookup(635273515127) == 81 && Mark(Row16(1)) == 635273515127;
    case 2 => assert Lookup(635273515717) == 82 && Mark(Row16(2)) == 635273515717;
    case 3 => assert Lookup(635273515590) == 83 && Mark(Row16(3)) == 635273515590;
    case _ => assert Lookup(635273515430) == 84 && Mark(Row16(4)) == 635273515430;
  }

  lemma Row17Found(u: nat)
    requires 0 <= u < 5
    ensures Lookup(Mark(Row17(u))) == 85 + u && ' ' !in Row17(u)
  {
    match u
    case 0 => assert Lookup(635273515685) == 85 && Mark(Row17(0)) == 635273515685;
    case 1 => assert Lookup(635273515446) == 86 && Mark(Row17(1)) == 635273515446;
    case 2 => assert Lookup(635273515911) == 87 && Mark(Row17(2)) == 635273515911;
    case 3 => assert Lookup(635273515095) == 88 && Mark(Row17(3)) == 635273515095;
    case _ => assert Lookup(635273515653) == 89 && Mark(Row17(4)) == 635273515653;
  }

  lemma Row18Found(u: nat)
    requires 0 <= u < 5
    ensures Lookup(Mark(Row18(u))) == 90 + u && ' ' !in Row18(u)
  {
    match u
    case 0 => assert Lookup(639300506245) == 90 && Mark(Row18(0)) == 639300506245;
    case 1 => assert Lookup(629368393848) == 91 && Mark(Row18(1)) == 629368393848;
    case 2 => assert Lookup(629368394437) == 92 && Mark(Row18(2)) == 629368394437;
    case 3 => assert Lookup(629368394311) == 93 && Mark(Row18(3)) == 629368394311;
    case _ => assert Lookup(629368394151) == 94 && Mark(Row18(4)) == 629368394151;
  }

  lemma Row19Found(u: nat)
    requires 0 <= u < 5
    ensures Lookup(Mark(Row19(u))) == 95 + u && ' ' !in Row19(u)
  {
    match u
    case 0 => assert Lookup(629368394406) == 95 && Mark(Row19(0)) == 629368394406;
    case 1 => assert Lookup(629368394167) == 96 && Mark(Row19(1)) == 629368394167;
    case 2 => assert Lookup(629368394632) == 97 && Mark(Row19(2)) == 629368394632;
    case 3 => assert Lookup(629368393816) == 98 && Mark(Row19(3)) == 629368393816;
    case _ => assert Lookup(629368394377) == 99 && Mark(Row19(4)) == 629368394377;
  }

  lemma Row20Found(u: nat)
    requires 0 <= u < 5
    ensures Lookup(Mark(Row20(u))) == 100 + u && ' ' !in Row20(u)
  {
    match u
    case 0 => assert Lookup(156013442) == 100 && Mark(Row20(0)) == 156013442;
    case 1 => assert Lookup(634735596437) == 101 && Mark(Row20(1)) == 634735596437;
    case 2 => assert Lookup(632049537827) == 102 && Mark(Row20(2)) == 632049537827;
    case 3 => assert Lookup(638762914133) == 103 && Mark(Row20(3)) == 638762914133;
    case _ => assert Lookup(620509041381) == 104 && Mark(Row20(4)) == 620509041381;
  }

  lemma Row21Found(u: nat)
    requires 0 <= u < 5
    ensures Lookup(Mark(Row21(u))) == 105 + u && ' ' !in Row21(u)
  {
    match u
    case 0 => assert Lookup(27119257508) == 105 && Mark(Row21(0)) == 27119257508;
    case 1 => assert Lookup(29802956531) == 106 && Mark(Row21(1)) == 29802956531;
    case 2 => assert Lookup(31145789251) == 107 && Mark(Row21(2)) == 31145789251;
    case 3 => assert Lookup(30608262981) == 108 && Mark(Row21(3)) == 30608262981;
    case _ => assert Lookup(29803808356) == 109 && Mark(Row21(4)) == 29803808356;
  }

  lemma Row22Found(u: nat)
    requires 0 <= u < 5
    ensures Lookup(Mark(Row22(u))) == 110 + u && ' ' !in Row22(u)
  {
    match u
    case 0 => assert Lookup(28192343652) == 110 && Mark(Row22(0)) == 28192343652;
    case 1 => assert Lookup(30877943603) == 111 && Mark(Row22(1)) == 30877943603;
    case 2 => assert Lookup(31682594613) == 112 && Mark(Row22(2)) == 31682594613;
    case 3 => assert Lookup(27656455765) == 113 && Mark(Row22(3)) == 27656455765;
    case _ => assert Lookup(28192343780) == 114 && Mark(Row22(4)) == 28192343780;
  }

  lemma Row23Found(u: nat)
    requires 0 <= u < 5
    ensures Lookup(Mark(Row23(u))) == 115 + u && ' ' !in Row23(u)
  {
    match u
    case 0 => assert Lookup(31145723715) == 115 && Mark(Row23(0)) == 31145723715;
    case 1 => assert Lookup(31682594390) == 116 && Mark(Row23(1)) == 31682594390;
    case 2 => assert Lookup(28997650246) == 117 && Mark(Row23(2)) == 28997650246;
    case 3 => assert Lookup(27119191880) == 118 && Mark(Row23(3)) == 27119191880;
    case _ => assert Lookup(27119191656) == 119 && Mark(Row23(4)) == 27119191656;
  }

  lemma Row24Found(u: nat)
    requires 0 <= u < 5
    ensures Lookup(Mark(Row24(u))) == 120 + u && ' ' !in Row24(u)
  {
    match u
    case 0 => assert Lookup(27119191655) == 120 && Mark(Row24(0)) == 27119191655;
    case 1 => assert Lookup(27119191863) == 121 && Mark(Row24(1)) == 27119191863;
    case 2 => assert Lookup(27119191865) == 122 && Mark(Row24(2)) == 27119191865;
    case 3 => assert Lookup(27119191640) == 123 && Mark(Row24(3)) == 27119191640;
    case _ => assert Lookup(27119191784) == 124 && Mark(Row24(4)) == 27119191784;
  }

  lemma Row25Found(u: nat)
    requires 2 <= u < 5
    ensures Lookup(Mark(Row25(u))) == 125 + u && ' ' !in Row25(u)
  {
    match u
    case 2 => assert Lookup(29535831878) == 127 && Mark(Row25(2)) == 29535831878;
    case 3 => assert Lookup(30609573702) == 128 && Mark(Row25(3)) == 30609573702;
    case _ => assert Lookup(30609573477) == 129 && Mark(Row25(4)) == 30609573477;
  }

  lemma Row26Found(u: nat)
    requires 0 <= u < 5
    ensures Lookup(Mark(Row26(u))) == 130 + u && ' ' !in Row26(u)
  {
    match u
    case 0 => assert Lookup(27388348005) == 130 && Mark(Row26(0)) == 27388348005;
    case 1 => assert Lookup(32220186421) == 131 && Mark(Row26(1)) == 32220186421;
    case 2 => assert Lookup(29535831863) == 132 && Mark(Row26(2)) == 29535831863;
    case 3 => assert Lookup(27925218902) == 133 && Mark(Row26(3)) == 27925218902;
    case _ => assert Lookup(27119912678) == 134 && Mark(Row26(4)) == 27119912678;
  }

  lemma Row27Found(u: nat)
    requires 0 <= u < 5
    ensures Lookup(Mark(Row27(u))) == 135 + u && ' ' !in Row27(u)
  {
    match u
    case 0 => assert Lookup(30608197255) == 135 && Mark(Row27(0)) == 30608197255;
    case 1 => assert Lookup(26044794696) == 136 && Mark(Row27(1)) == 26044794696;
    case 2 => assert Lookup(26045056708) == 137 && Mark(Row27(2)) == 26045056708;
    case 3 => assert Lookup(29802956341) == 138 && Mark(Row27(3)) == 29802956341;
    case _ => assert Lookup(29535438549) == 139 && Mark(Row27(4)) == 29535438549;
  }

  lemma Found(k: nat)
    requires Word(k)
    ensures Lookup(Mark(Spelling(k))) == k && ' ' !in Spelling(k)
  {
    var u := k % 5;
    match k / 5
    case 0 => Row0Found(u); case 1 => Row1Found(u); case 2 => Row2Found(u); case 3 => Row3Found(u);
    case 4 => Row4Found(u); case 5 => Row5Found(u); case 6 => Row6Found(u); case 7 => Row7Found(u);
    case 8 => Row8Found(u); case 9 => Row9Found(u); case 10 => Row10Found(u); case 11 => Row11Found(u);
    case 12 => Row12Found(u); case 13 => Row13Found(u); case 14 => Row14Found(u); case 15 => Row15Found(u);
    case 16 => Row16Found(u); case 17 => Row17Found(u); case 18 => Row18Found(u); case 19 => Row19Found(u);
    case 20 => Row20Found(u); case 21 => Row21Found(u); case 22 => Row22Found(u); case 23 => Row23Found(u);
    case 24 => Row24Found(u); case 25 => Row25Found(u); case 26 => Row26Found(u); case _ => Row27Found(u);
  }

  /** Every dictionary entry is recognised as itself, and no two are spelled alike. */
  lemma Recognised(k: nat)
    requires Word(k)
    ensures Meaning(Spelling(k)) == TokenOf(k)
    ensures forall j: nat :: Word(j) && Spelling(j) == Spelling(k) ==> j == k
  {
    forall j: nat | Word(j) ensures Lookup(Mark(Spelling(j))) == j {
      Found(j);
    }
  }
}
