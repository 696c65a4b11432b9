/** Amounts in Spanish words: how they are printed, and how they are read back.

    The reader is defined on its own, with its own dictionary and its own grammar, word by word from left to right,
    and reads nothing that is out of place: it knows neither the printer's tables nor how the words were chosen. */
module Words {
  import opened Outcomes
  import opened Rounding

  const UNITS: seq<string> := [
    "", "UNO", "DOS", "TRES", "CUATRO", "CINCO", "SEIS", "SIETE", "OCHO", "NUEVE", "DIEZ", "ONCE",
    "DOCE", "TRECE", "CATORCE", "QUINCE", "DIECISÉIS", "DIECISIETE", "DIECIOCHO", "DIECINUEVE",
    "VEINTE", "VEINTIUNO", "VEINTIDÓS", "VEINTITRÉS", "VEINTICUATRO", "VEINTICINCO", "VEINTISÉIS",
    "VEINTISIETE", "VEINTIOCHO", "VEINTINUEVE"]
  const TENS: seq<string> := [
    "", "", "", "TREINTA", "CUARENTA", "CINCUENTA", "SESENTA", "SETENTA", "OCHENTA", "NOVENTA"]
  const HUNDREDS: seq<string> := [
    "", "CIENTO", "DOSCIENTOS", "TRESCIENTOS", "CUATROCIENTOS", "QUINIENTOS", "SEISCIENTOS",
    "SETECIENTOS", "OCHOCIENTOS", "NOVECIENTOS"]

  const USD := 1
  const EUR := 2

  /** A currency's nouns and suffix, each as the words it is made of. */
  datatype Currency = Currency(singular: seq<string>, plural: seq<string>, suffix: seq<string>)

  /** Any other currency prints as pesos. */
  function CurrencyNamed(code: int): Currency {
    if code == USD then Currency(["DÓLAR", "AMERICANO"], ["DÓLARES", "AMERICANOS"], ["USD"])
    else if code == EUR then Currency(["EURO"], ["EUROS"], ["EUR"])
    else Currency(["PESO"], ["PESOS"], ["M.", "N."])
  }

  // ----- printing

  /** The noun for an amount. */
  function NounOf(units: nat, code: int): seq<string> {
    if units == 1 then CurrencyNamed(code).singular else CurrencyNamed(code).plural
  }

  /** The last word before a noun, "mil" or "millón". */
  function Shortened(word: string): string {
    if word == "UNO" then "UN" else if word == "VEINTIUNO" then "VEINTIÚN" else word
  }

  function HundredsOf(n: nat): seq<string>
    requires n < 1000
  {
    if n < 100 then [] else if n == 100 then ["CIEN"] else [HUNDREDS[n / 100]]
  }

  function TensOf(n: nat): seq<string>
    requires n < 100
  {
    if n == 0 then []
    else if n < 30 then [Shortened(UNITS[n])]
    else if n % 10 == 0 then [TENS[n / 10]]
    else [TENS[n / 10], "Y", Shortened(UNITS[n % 10])]
  }

  function ThousandWords(n: nat): seq<string>
    requires n < 1000
  {
    HundredsOf(n) + TensOf(n % 100)
  }

  function ThousandsOf(thousands: nat): seq<string>
    requires thousands < 1000
  {
    if thousands == 0 then [] else if thousands == 1 then ["MIL"] else ThousandWords(thousands) + ["MIL"]
  }

  function MillionWords(n: nat): seq<string>
    requires n < 1000000
  {
    ThousandsOf(n / 1000) + ThousandWords(n % 1000)
  }

  function MillionsOf(millions: nat): seq<string>
    requires millions < 1000000
  {
    if millions == 0 then [] else if millions == 1 then ["UN", "MILLÓN"] else MillionWords(millions) + ["MILLONES"]
  }

  function IntegerWords(n: nat): seq<string>
    requires n < LIMIT
  {
    if n == 0 then ["CERO"]
    else MillionsOf(n / 1000000) + if n % 1000000 == 0 then ["DE"] else MillionWords(n % 1000000)
  }

  /** The tables end here: from here on the source fails with an index error. */
  const LIMIT: nat := 1000000000000

  function Digit(d: nat): char
    requires d < 10
  {
    ['0', '1', '2', '3', '4', '5', '6', '7', '8', '9'][d]
  }

  function CentsWord(cents: nat): string
    requires cents < 100
  {
    [Digit(cents / 10), Digit(cents % 10)] + "/100"
  }

  /** The words of a whole number of cents. */
  function AmountWords(cents: nat, code: int): seq<string>
    requires cents / 100 < LIMIT
  {
    IntegerWords(cents / 100) + NounOf(cents / 100, code) + ([CentsWord(cents % 100)] + CurrencyNamed(code).suffix)
  }

  function Join(words: seq<string>): string {
    if words == [] then "" else if |words| == 1 then words[0] else words[0] + " " + Join(words[1..])
  }

  /** The tens and units before the last word is shortened. */
  function TensInFull(n: nat): seq<string>
    requires n < 100
  {
    if n == 0 then []
    else if n < 30 then [UNITS[n]]
    else if n % 10 == 0 then [TENS[n / 10]]
    else [TENS[n / 10], "Y", UNITS[n % 10]]
  }

  function LastShortened(words: seq<string>): seq<string> {
    if words == [] then [] else words[..|words| - 1] + [Shortened(words[|words| - 1])]
  }

  /** Tens and hundreds are never shortened. */
  lemma OnlyUnitsShorten()
    ensures forall k :: 0 <= k < |TENS| ==> Shortened(TENS[k]) == TENS[k]
    ensures forall k :: 0 <= k < |HUNDREDS| ==> Shortened(HUNDREDS[k]) == HUNDREDS[k]
    ensures Shortened("CIEN") == "CIEN"
  {
  }

  lemma TensShorten(n: nat)
    requires n < 100
    ensures LastShortened(TensInFull(n)) == TensOf(n)
  {
    OnlyUnitsShorten();
  }

  lemma HundredsStay(n: nat)
    requires n < 1000
    ensures LastShortened(HundredsOf(n)) == HundredsOf(n)
  {
    OnlyUnitsShorten();
  }

  lemma LastOfBoth(a: seq<string>, b: seq<string>)
    ensures LastShortened(a + b) == if b == [] then LastShortened(a) else a + LastShortened(b)
  {
    if b == [] {
      assert a + b == a;
    }
  }

  lemma ThousandShortens(n: nat)
    requires n < 1000
    ensures LastShortened(HundredsOf(n) + TensInFull(n % 100)) == ThousandWords(n)
  {
    LastOfBoth(HundredsOf(n), TensInFull(n % 100));
    TensShorten(n % 100);
    HundredsStay(n);
  }

  method BelowThousand(n: nat) returns (words: seq<string>)
    requires 1 <= n < 1000
    ensures words == ThousandWords(n)
  {
    words := [];
    var hundreds, rest := n / 100, n % 100;
    if hundreds != 0 {
      words := words + [if hundreds == 1 && rest == 0 then "CIEN" else HUNDREDS[hundreds]];
    }
    assert words == HundredsOf(n);
    if rest >= 30 {
      var tens, unit := rest / 10, rest % 10;
      words := words + [TENS[tens]];
      if unit != 0 {
        words := words + ["Y", UNITS[unit]];
      }
    } else if rest != 0 {
      words := words + [UNITS[rest]];
    }
    assert words == HundredsOf(n) + TensInFull(rest);
    ThousandShortens(n);
    words := ShortenLast(words);
  }

  /** A final "uno" is shortened. */
  method ShortenLast(words: seq<string>) returns (shortened: seq<string>)
    requires words != []
    ensures shortened == LastShortened(words)
  {
    shortened := words;
    if words[|words| - 1] == "UNO" {
      shortened := words[|words| - 1 := "UN"];
    } else if words[|words| - 1] == "VEINTIUNO" {
      shortened := words[|words| - 1 := "VEINTIÚN"];
    }
  }

  method BelowMillion(n: nat) returns (words: seq<string>)
    requires 1 <= n < 1000000
    ensures words == MillionWords(n)
  {
    var thousands, rest := n / 1000, n % 1000;
    words := [];
    if thousands != 0 {
      if thousands != 1 {
        var inner := BelowThousand(thousands);
        words := words + inner;
      }
      words := words + ["MIL"];
    }
    assert words == ThousandsOf(thousands);
    if rest != 0 {
      var inner := BelowThousand(rest);
      words := words + inner;
    }
  }

  method Integer(n: nat) returns (words: seq<string>)
    requires n < LIMIT
    ensures words == IntegerWords(n)
  {
    if n == 0 {
      return ["CERO"];
    }
    var millions, rest := n / 1000000, n % 1000000;
    words := [];
    if millions == 1 {
      words := words + ["UN", "MILLÓN"];
    } else if millions != 0 {
      var inner := BelowMillion(millions);
      words := words + (inner + ["MILLONES"]);
    }
    assert words == MillionsOf(millions);
    var tail := [];
    if rest != 0 {
      tail := BelowMillion(rest);
    } else if millions != 0 {
      tail := ["DE"];
    }
    words := words + tail;
  }

  /** The amount rounded to cents, printed so that it reads back; nothing when the tables are too short for it. */
  method AmountInWords(amount: real, code: int) returns (text: Option<string>)
    requires amount >= 0.0
    ensures text == if RoundHalfAway(amount * 100.0) / 100 < LIMIT
                    then Some(Join(AmountWords(RoundHalfAway(amount * 100.0), code))) else None
    ensures text.Some? ==>
              var words, cents := Split(text.value), RoundHalfAway(amount * 100.0);
              && ReadAmount(words) == cents && CurrencyOf(ReadSuffix(words)) == (if code == 1 || code == 2 then code else 0)
              && NounFits(ReadNoun(words), CurrencyOf(ReadSuffix(words)), cents / 100 == 1)
  {
    var currency := CurrencyNamed(code);
    var hundredths: nat := RoundHalfAway(amount * 100.0);
    var units, cents := hundredths / 100, hundredths % 100;
    if units >= LIMIT {
      return None;
    }
    var words := Integer(units);
    var noun := if units == 1 then currency.singular else currency.plural;
    ReadBack(hundredths, code);
    text := Some(Join(words + noun + ([CentsWord(cents)] + currency.suffix)));
  }

  // ----- reading

  datatype Meaning =
    | Adds(amount: nat) | Hundred | Thousands | OneMillion | Millions | And | Of | Zero | Unknown

  /** The reader's number words: below thirty each adds its place, then come the tens from thirty on and the hundreds. */
  const ONES: seq<string> := [
    "", "UN", "DOS", "TRES", "CUATRO", "CINCO", "SEIS", "SIETE", "OCHO", "NUEVE", "DIEZ", "ONCE", "DOCE", "TRECE",
    "CATORCE", "QUINCE", "DIECISÉIS", "DIECISIETE", "DIECIOCHO", "DIECINUEVE", "VEINTE", "VEINTIÚN", "VEINTIDÓS",
    "VEINTITRÉS", "VEINTICUATRO", "VEINTICINCO", "VEINTISÉIS", "VEINTISIETE", "VEINTIOCHO", "VEINTINUEVE"]
  const FROM_THIRTY: seq<string> := ["TREINTA", "CUARENTA", "CINCUENTA", "SESENTA", "SETENTA", "OCHENTA", "NOVENTA"]
  const CENTURIES: seq<string> := [
    "CIENTO", "DOSCIENTOS", "TRESCIENTOS", "CUATROCIENTOS", "QUINIENTOS", "SEISCIENTOS", "SETECIENTOS", "OCHOCIENTOS",
    "NOVECIENTOS"]

  /** A place of a word in a list, or -1. */
  ghost function Position(list: seq<string>, word: string): (i: int)
    ensures -1 <= i < |list|
    ensures if word in list then i >= 0 && list[i] == word else i == -1
  {
    if word in list then
      var i :| 0 <= i < |list| && list[i] == word;
      i
    else -1
  }

  ghost function MeaningOf(word: string): Meaning {
    if SpecialMeaning(word) != Unknown then SpecialMeaning(word)
    else if Position(ONES, word) >= 1 then Adds(Position(ONES, word))
    else if word in FROM_THIRTY then Adds(30 + 10 * Position(FROM_THIRTY, word))
    else if word in CENTURIES then Adds(100 + 100 * Position(CENTURIES, word))
    else Unknown
  }

  function SpecialMeaning(word: string): Meaning {
    if word == "CIEN" then Hundred
    else if word == "MIL" then Thousands
    else if word == "MILLÓN" then OneMillion
    else if word == "MILLONES" then Millions
    else if word == "Y" then And
    else if word == "DE" then Of
    else if word == "CERO" then Zero
    else Unknown
  }

  /** Where a number below a thousand stands: nothing said, hundreds (which "ciento" leaves open), tens, "y" after
      them, all said, or the whole number closed by "de" or "cero". */
  datatype Place = Fresh | Hundreds(short: bool) | Tens | Joined | Full | Closed

  /** What was read so far: whole millions, whole thousands, what was added since, and whether every word was in
      place. */
  datatype Sofar = Sofar(millions: nat, thousands: nat, group: nat, place: Place, clear: bool) {
    function Total(): nat { millions * 1000000 + thousands * 1000 + group }
  }

  const NOTHING := Sofar(0, 0, 0, Fresh, true)

  /** The group can end here. */
  predicate Complete(place: Place) {
    place in {Fresh, Hundreds(false), Tens, Full}
  }

  /** The word can follow: hundreds first, then tens, "y" between tens and units only, "mil" never after a lone "un",
      "millón" after a lone "un" and "millones" after more, "de" right after either, "cero" alone. */
  predicate Fits(sofar: Sofar, meaning: Meaning) {
    match meaning
    case Adds(amount) =>
      if amount >= 100 then sofar.place == Fresh
      else if amount >= 30 || sofar.place != Joined then sofar.place == Fresh || sofar.place.Hundreds?
      else amount < 10
    case Hundred => sofar.place == Fresh
    case And => sofar.place == Tens
    case Thousands => sofar.thousands == 0 && sofar.group != 1 && Complete(sofar.place)
    case OneMillion => sofar.millions == 0 && sofar.thousands == 0 && sofar.group == 1
    case Millions => sofar.millions == 0 && sofar.thousands * 1000 + sofar.group >= 2 && Complete(sofar.place)
    case Of => sofar.millions > 0 && sofar.thousands == 0 && sofar.place == Fresh
    case Zero => sofar == NOTHING
    case Unknown => false
  }

  /** One more word: "mil" on its own is one thousand, and "millones" multiplies all before it. */
  function Hear(sofar: Sofar, meaning: Meaning): Sofar {
    if !Fits(sofar, meaning) then sofar.(clear := false)
    else
      match meaning
      case Adds(amount) =>
        sofar.(group := sofar.group + amount,
               place := if amount >= 100 then Hundreds(amount == 100) else if amount >= 30 then Tens else Full)
      case Hundred => sofar.(group := sofar.group + 100, place := Full)
      case And => sofar.(place := Joined)
      case Thousands => sofar.(thousands := if sofar.group == 0 then 1 else sofar.group, group := 0, place := Fresh)
      case OneMillion => Sofar(1, 0, 0, Fresh, sofar.clear)
      case Millions => Sofar(sofar.thousands * 1000 + sofar.group, 0, 0, Fresh, sofar.clear)
      case _ => sofar.(place := Closed)
  }

  /** A whole number has been said: every word in place, nothing left open, exact millions closed by "de" and nothing
      at all only as "cero". */
  predicate Said(sofar: Sofar) {
    sofar.clear && (sofar.place == Closed || (Complete(sofar.place) && sofar.thousands * 1000 + sofar.group > 0))
  }

  ghost function ReadWords(words: seq<string>, sofar: Sofar): Sofar {
    if words == [] then sofar else ReadWords(words[1..], Hear(sofar, MeaningOf(words[0])))
  }

  /** How many words at the start are number words. */
  ghost function Leading(words: seq<string>): (n: nat)
    ensures n <= |words|
  {
    if words == [] || MeaningOf(words[0]).Unknown? then 0 else 1 + Leading(words[1..])
  }

  function DigitValue(c: char): (d: int)
    ensures -1 <= d < 10
  {
    if '0' <= c <= '9' then c as int - '0' as int else -1
  }

  /** The cents of a word such as `05/100`, or -1. */
  function CentsOf(word: string): int {
    if |word| == 6 && word[2] == '/' && word[3] == '1' && word[4] == word[5] == '0' && DigitValue(word[0]) >= 0 && DigitValue(word[1]) >= 0
    then 10 * DigitValue(word[0]) + DigitValue(word[1]) else -1
  }

  /** Where the cents stand, or the length of the list. */
  function CentsAt(words: seq<string>): (i: nat)
    ensures i <= |words|
    ensures i < |words| ==> CentsOf(words[i]) >= 0
  {
    if words == [] || CentsOf(words[0]) >= 0 then 0 else 1 + CentsAt(words[1..])
  }

  /** Cut at every space. */
  function Split(text: string): (words: seq<string>)
    ensures words != []
  {
    if text == "" then [""]
    else if text[0] == ' ' then [""] + Split(text[1..])
    else [[text[0]] + Split(text[1..])[0]] + Split(text[1..])[1..]
  }

  /** Read a printed amount, in cents: the number words, then the first word that is cents;
      -1 when there is none, or no number said right. */
  ghost function ReadAmount(words: seq<string>): int {
    var at := CentsAt(words);
    if at == |words| || ReadNumber(words) < 0 then -1 else ReadNumber(words) * 100 + CentsOf(words[at])
  }

  /** The words between the number and the cents. */
  ghost function ReadNoun(words: seq<string>): seq<string> {
    if Leading(words) <= CentsAt(words) then words[Leading(words)..CentsAt(words)] else []
  }

  /** The currency a suffix names, or -1. */
  function CurrencyOf(suffix: seq<string>): int {
    if suffix == ["M.", "N."] then 0 else if suffix == ["USD"] then 1 else if suffix == ["EUR"] then 2 else -1
  }

  /** The noun of a currency, for one and for any other number of it. */
  predicate NounFits(noun: seq<string>, currency: int, one: bool) {
    || (currency == 0 && noun == if one then ["PESO"] else ["PESOS"])
    || (currency == 1 && noun == if one then ["DÓLAR", "AMERICANO"] else ["DÓLARES", "AMERICANOS"])
    || (currency == 2 && noun == if one then ["EURO"] else ["EUROS"])
  }

  /** The words after the cents name the currency. */
  function ReadSuffix(words: seq<string>): seq<string> {
    var at := CentsAt(words);
    if at == |words| then [] else After(words, at)
  }

  function After(words: seq<string>, at: nat): seq<string>
    requires at < |words|
  {
    words[at + 1..]
  }

  ghost function ReadNumber(words: seq<string>): int {
    var said := ReadWords(words[..Leading(words)], NOTHING);
    if Said(said) then said.Total() else -1
  }

  // ----- the tables mean what they should

  const SPECIALS: seq<string> := ["CIEN", "MIL", "MILLÓN", "MILLONES", "Y", "DE", "CERO"]
  const NOUNS: seq<string> := ["PESO", "PESOS", "DÓLAR", "DÓLARES", "EURO", "EUROS"]

  lemma WordsAreDistinct()
    ensures forall i, j :: 0 <= i < j < |ONES| ==> ONES[i] != ONES[j]
    ensures forall i, j :: 0 <= i < j < |FROM_THIRTY| ==> FROM_THIRTY[i] != FROM_THIRTY[j]
    ensures forall i, j :: 0 <= i < j < |CENTURIES| ==> CENTURIES[i] != CENTURIES[j]
  {
  }

  lemma WordsAreDisjoint()
    ensures forall i, j :: 0 <= i < |ONES| && 0 <= j < |FROM_THIRTY| ==> ONES[i] != FROM_THIRTY[j]
    ensures forall i, j :: 0 <= i < |ONES| && 0 <= j < |CENTURIES| ==> ONES[i] != CENTURIES[j]
    ensures forall i, j :: 0 <= i < |FROM_THIRTY| && 0 <= j < |CENTURIES| ==> FROM_THIRTY[i] != CENTURIES[j]
  {
  }

  /** The printer's tables hold the reader's words in their places. */
  lemma UnitsAgree()
    ensures UNITS[1 := "UN"][21 := "VEINTIÚN"] == ONES
  {
  }

  lemma ShortOnes(k: nat)
    requires 1 <= k < 30
    ensures Shortened(UNITS[k]) == ONES[k]
  {
    UnitsAgree();
    UnosDiffer(k);
  }

  lemma UnosDiffer(k: nat)
    requires 1 <= k < 30
    ensures UNITS[k] == "UNO" <==> k == 1
    ensures UNITS[k] == "VEINTIUNO" <==> k == 21
  {
  }

  lemma TensAgree(k: nat)
    requires 3 <= k < 10
    ensures TENS[k] == FROM_THIRTY[k - 3]
  {
  }

  lemma HundredsAgree(k: nat)
    requires 1 <= k < 10
    ensures HUNDREDS[k] == CENTURIES[k - 1]
  {
  }

  lemma OnesAreNotSpecial(k: nat)
    requires k < |ONES|
    ensures SpecialMeaning(ONES[k]) == Unknown
  {
  }

  lemma RestAreNotSpecial()
    ensures forall k :: 0 <= k < |FROM_THIRTY| ==> SpecialMeaning(FROM_THIRTY[k]) == Unknown
    ensures forall k :: 0 <= k < |CENTURIES| ==> SpecialMeaning(CENTURIES[k]) == Unknown
  {
  }

  lemma ShortenedMeans(k: nat)
    requires 1 <= k < 30
    ensures MeaningOf(Shortened(UNITS[k])) == Adds(k)
  {
    ShortOnes(k);
    OnesAreNotSpecial(k);
    WordsAreDistinct();
    assert Position(ONES, ONES[k]) == k;
  }

  lemma TenMeans(k: nat)
    requires 3 <= k < 10
    ensures MeaningOf(TENS[k]) == Adds(10 * k)
  {
    TensAgree(k);
    RestAreNotSpecial();
    WordsAreDistinct();
    WordsAreDisjoint();
    assert FROM_THIRTY[k - 3] !in ONES;
    assert Position(FROM_THIRTY, FROM_THIRTY[k - 3]) == k - 3;
  }

  lemma HundredMeans(k: nat)
    requires 1 <= k < 10
    ensures MeaningOf(HUNDREDS[k]) == Adds(100 * k)
  {
    HundredsAgree(k);
    RestAreNotSpecial();
    WordsAreDistinct();
    WordsAreDisjoint();
    assert CENTURIES[k - 1] !in ONES && CENTURIES[k - 1] !in FROM_THIRTY;
    assert Position(CENTURIES, CENTURIES[k - 1]) == k - 1;
  }

  lemma SpecialMeans(word: string)
    requires word in SPECIALS
    ensures MeaningOf(word) == SpecialMeaning(word) != Unknown
  {
  }

  lemma NounsAreNoNumerals(word: string)
    requires word in NOUNS
    ensures word !in ONES && word !in FROM_THIRTY && word !in CENTURIES && SpecialMeaning(word) == Unknown
  {
  }

  /** No noun is a number word, so the number stops before it. */
  lemma NounsMeanNothing(word: string)
    requires word in NOUNS
    ensures MeaningOf(word) == Unknown
  {
    NounsAreNoNumerals(word);
  }

  // ----- reading what was printed

  /** Capital letters only, so neither spaces nor digits. */
  predicate Lettered(word: string) {
    forall i :: 0 <= i < |word| ==> 'A' <= word[i] <= 'Ú'
  }

  predicate AllLettered(words: seq<string>) {
    forall i :: 0 <= i < |words| ==> Lettered(words[i])
  }

  ghost predicate AllMeanNumbers(words: seq<string>) {
    forall i :: 0 <= i < |words| ==> !MeaningOf(words[i]).Unknown?
  }

  /** Reading some number words leads from one state to another. */
  ghost predicate Reads(words: seq<string>, before: Sofar, after: Sofar) {
    ReadWords(words, before) == after && AllMeanNumbers(words) && AllLettered(words)
  }

  lemma UnitsAreLettered(k: nat)
    requires k < |UNITS|
    ensures Lettered(Shortened(UNITS[k]))
  {
  }

  lemma TablesAreLettered()
    ensures forall k :: 0 <= k < |TENS| ==> Lettered(TENS[k])
    ensures forall k :: 0 <= k < |HUNDREDS| ==> Lettered(HUNDREDS[k])
    ensures forall word :: word in SPECIALS ==> Lettered(word)
  {
  }

  lemma {:induction false} ReadOn(a: seq<string>, b: seq<string>, sofar: Sofar)
    ensures ReadWords(a + b, sofar) == ReadWords(b, ReadWords(a, sofar))
  {
    if a == [] {
      assert a + b == b;
    } else {
      assert (a + b)[0] == a[0] && (a + b)[1..] == a[1..] + b;
      ReadOn(a[1..], b, Hear(sofar, MeaningOf(a[0])));
    }
  }

  lemma ReadsNothing(sofar: Sofar)
    ensures Reads([], sofar, sofar)
  {
  }

  lemma ReadsBoth(a: seq<string>, b: seq<string>, start: Sofar, middle: Sofar, end: Sofar)
    requires Reads(a, start, middle) && Reads(b, middle, end)
    ensures Reads(a + b, start, end)
  {
    ReadOn(a, b, start);
  }

  lemma ReadsSpecial(word: string, sofar: Sofar)
    requires word in SPECIALS
    ensures Reads([word], sofar, Hear(sofar, SpecialMeaning(word)))
  {
    SpecialMeans(word);
    TablesAreLettered();
  }

  lemma ReadsHundreds(n: nat, sofar: Sofar)
    requires n < 1000 && sofar.place == Fresh && sofar.group == 0
    ensures Reads(HundredsOf(n), sofar, sofar.(group := n / 100 * 100, place := AfterHundreds(n)))
  {
    if n < 100 {
      ReadsNothing(sofar);
    } else if n == 100 {
      ReadsSpecial("CIEN", sofar);
    } else {
      HundredMeans(n / 100);
      TablesAreLettered();
    }
  }

  function AfterHundreds(n: nat): Place {
    if n < 100 then Fresh else if n == 100 then Full else Hundreds(n / 100 == 1)
  }

  lemma ReadsUnit(n: nat, sofar: Sofar)
    requires 1 <= n < 30 && Fits(sofar, Adds(n))
    ensures Reads([Shortened(UNITS[n])], sofar, sofar.(group := sofar.group + n, place := Full))
  {
    ShortenedMeans(n);
    UnitsAreLettered(n);
  }

  lemma ReadsTen(n: nat, sofar: Sofar)
    requires 3 <= n < 10 && Fits(sofar, Adds(10 * n))
    ensures Reads([TENS[n]], sofar, sofar.(group := sofar.group + 10 * n, place := Tens))
  {
    TenMeans(n);
    TablesAreLettered();
  }

  function AfterTens(n: nat, place: Place): Place {
    if n == 0 then place else if n >= 30 && n % 10 == 0 then Tens else Full
  }

  lemma ReadsTens(n: nat, sofar: Sofar)
    requires n < 100 && (n > 0 ==> sofar.place == Fresh || sofar.place.Hundreds?)
    ensures Reads(TensOf(n), sofar, sofar.(group := sofar.group + n, place := AfterTens(n, sofar.place)))
  {
    if n == 0 {
      ReadsNothing(sofar);
    } else if n < 30 {
      ReadsUnit(n, sofar);
    } else {
      ReadsTen(n / 10, sofar);
      if n % 10 != 0 {
        var next := sofar.(group := sofar.group + 10 * (n / 10), place := Tens);
        var joined := next.(place := Joined);
        ReadsSpecial("Y", next);
        ReadsUnit(n % 10, joined);
        ReadsThree(TENS[n / 10], "Y", Shortened(UNITS[n % 10]), sofar, next, joined, sofar.(group := sofar.group + n, place := Full));
      }
    }
  }

  lemma ReadsThree(first: string, second: string, third: string, start: Sofar, next: Sofar, joined: Sofar, end: Sofar)
    requires Reads([first], start, next) && Reads([second], next, joined) && Reads([third], joined, end)
    ensures Reads([first, second, third], start, end)
  {
    ReadsBoth([first], [second], start, next, joined);
    ReadsBoth([first] + [second], [third], start, joined, end);
    assert [first, second, third] == [first] + [second] + [third];
  }

  /** Where a number below a thousand ends; always where it can. */
  function AfterGroup(n: nat): (place: Place)
    requires n < 1000
    ensures Complete(place) && (n == 0 ==> place == Fresh)
  {
    AfterTens(n % 100, AfterHundreds(n))
  }

  lemma ReadsThousand(n: nat, sofar: Sofar)
    requires n < 1000 && sofar.group == 0 && sofar.place == Fresh
    ensures Reads(ThousandWords(n), sofar, sofar.(group := n, place := AfterGroup(n)))
  {
    var next := sofar.(group := n / 100 * 100, place := AfterHundreds(n));
    ReadsHundreds(n, sofar);
    ReadsTens(n % 100, next);
    ReadsBoth(HundredsOf(n), TensOf(n % 100), sofar, next, sofar.(group := n, place := AfterGroup(n)));
  }

  lemma ReadsThousands(thousands: nat, sofar: Sofar)
    requires thousands < 1000 && sofar.thousands == sofar.group == 0 && sofar.place == Fresh
    ensures Reads(ThousandsOf(thousands), sofar, sofar.(thousands := thousands))
  {
    if thousands == 0 {
      ReadsNothing(sofar);
    } else if thousands == 1 {
      ReadsSpecial("MIL", sofar);
    } else {
      var next := sofar.(group := thousands, place := AfterGroup(thousands));
      ReadsThousand(thousands, sofar);
      ReadsSpecial("MIL", next);
      ReadsBoth(ThousandWords(thousands), ["MIL"], sofar, next, sofar.(thousands := thousands));
    }
  }

  lemma ReadsMillion(n: nat, sofar: Sofar)
    requires n < 1000000 && sofar.thousands == sofar.group == 0 && sofar.place == Fresh
    ensures Reads(MillionWords(n), sofar, sofar.(thousands := n / 1000, group := n % 1000, place := AfterGroup(n % 1000)))
  {
    var next := sofar.(thousands := n / 1000);
    ReadsThousands(n / 1000, sofar);
    ReadsThousand(n % 1000, next);
    ReadsBoth(ThousandsOf(n / 1000), ThousandWords(n % 1000), sofar, next, next.(group := n % 1000, place := AfterGroup(n % 1000)));
  }

  lemma ReadsMillions(millions: nat)
    requires millions < 1000000
    ensures Reads(MillionsOf(millions), NOTHING, NOTHING.(millions := millions))
  {
    if millions == 0 {
      ReadsNothing(NOTHING);
    } else if millions == 1 {
      ReadsOneMillion();
    } else {
      ReadsManyMillions(millions, MillionWords(millions));
    }
  }

  lemma ReadsOneMillion()
    ensures Reads(["UN", "MILLÓN"], NOTHING, NOTHING.(millions := 1))
  {
    var one := NOTHING.(group := 1, place := Full);
    ReadsUn(NOTHING, one);
    ReadsSpecial("MILLÓN", one);
    ReadsTwo("UN", "MILLÓN", NOTHING, one, NOTHING.(millions := 1));
  }

  lemma ReadsUn(sofar: Sofar, one: Sofar)
    requires sofar.place == Fresh && sofar.group == 0 && one == sofar.(group := 1, place := Full)
    ensures Reads(["UN"], sofar, one)
  {
    ReadsUnit(1, sofar);
    assert Shortened(UNITS[1]) == "UN";
  }

  lemma ReadsTwo(first: string, second: string, start: Sofar, next: Sofar, end: Sofar)
    requires Reads([first], start, next) && Reads([second], next, end)
    ensures Reads([first, second], start, end)
  {
    ReadsBoth([first], [second], start, next, end);
    assert [first, second] == [first] + [second];
  }

  lemma ReadsManyMillions(millions: nat, words: seq<string>)
    requires 2 <= millions < 1000000 && words == MillionWords(millions)
    ensures Reads(words + ["MILLONES"], NOTHING, NOTHING.(millions := millions))
  {
    var next := Sofar(0, millions / 1000, millions % 1000, AfterGroup(millions % 1000), true);
    ReadsMillion(millions, NOTHING);
    ReadsSpecial("MILLONES", next);
    ReadsBoth(words, ["MILLONES"], NOTHING, next, NOTHING.(millions := millions));
  }

  /** What is read of a whole number; exact millions and nothing at all are closed. */
  function Heard(n: nat): Sofar {
    Parts(n / 1000000, n % 1000000)
  }

  function Parts(millions: nat, rest: nat): Sofar
    requires rest < 1000000
  {
    Sofar(millions, rest / 1000, rest % 1000, if rest == 0 then Closed else AfterGroup(rest % 1000), true)
  }

  /** A whole number read back is itself, with every word in its place. */
  lemma ReadsInteger(n: nat)
    requires n < LIMIT
    ensures Reads(IntegerWords(n), NOTHING, Heard(n)) && Said(Heard(n)) && Heard(n).Total() == n
  {
    HeardIsSaid(n);
    ReadsHeard(n);
  }

  lemma ReadsHeard(n: nat)
    requires n < LIMIT
    ensures Reads(IntegerWords(n), NOTHING, Heard(n))
  {
    if n == 0 {
      ReadsZero();
      assert IntegerWords(n) == ["CERO"];
    } else {
      ReadsPositive(n, n / 1000000, n % 1000000);
    }
  }

  lemma ReadsZero()
    ensures Reads(["CERO"], NOTHING, Parts(0, 0))
  {
    ReadsSpecial("CERO", NOTHING);
  }

  lemma ReadsPositive(n: nat, millions: nat, rest: nat)
    requires 0 < n < LIMIT && millions == n / 1000000 && rest == n % 1000000
    ensures Reads(IntegerWords(n), NOTHING, Parts(millions, rest))
  {
    ReadsMillions(millions);
    ReadsRest(MillionsOf(millions), millions, rest);
  }

  lemma HeardIsSaid(n: nat)
    ensures Said(Heard(n)) && Heard(n).Total() == n
  {
  }

  lemma ReadsRest(words: seq<string>, millions: nat, rest: nat)
    requires Reads(words, NOTHING, NOTHING.(millions := millions)) && rest < 1000000 && (millions > 0 || rest > 0)
    ensures Reads(words + if rest == 0 then ["DE"] else MillionWords(rest), NOTHING, Parts(millions, rest))
  {
    var next := NOTHING.(millions := millions);
    if rest == 0 {
      ReadsSpecial("DE", next);
      ReadsBoth(words, ["DE"], NOTHING, next, next.(place := Closed));
    } else {
      ReadsMillion(rest, next);
      ReadsBoth(words, MillionWords(rest), NOTHING, next, Parts(millions, rest));
    }
  }

  // ----- finding the parts in the text

  predicate Spaceless(words: seq<string>) {
    forall i, j :: 0 <= i < |words| && 0 <= j < |words[i]| ==> words[i][j] != ' '
  }

  lemma {:induction false} SplitTwo(a: string, b: string)
    ensures Split(a + " " + b) == Split(a) + Split(b)
  {
    var text := a + " " + b;
    if a == "" {
      assert text[0] == ' ' && text[1..] == b;
    } else {
      assert text[0] == a[0] && text[1..] == a[1..] + " " + b;
      SplitTwo(a[1..], b);
    }
  }

  lemma {:induction false} SplitOne(word: string)
    requires forall i :: 0 <= i < |word| ==> word[i] != ' '
    ensures Split(word) == [word]
  {
    if word != "" {
      SplitOne(word[1..]);
      assert word == [word[0]] + word[1..];
    }
  }

  /** Cutting at the spaces undoes joining with them. */
  lemma {:induction false} SplitUndoesJoin(words: seq<string>)
    requires words != [] && Spaceless(words)
    ensures Split(Join(words)) == words
  {
    SplitOne(words[0]);
    if |words| > 1 {
      SplitTwo(words[0], Join(words[1..]));
      SplitUndoesJoin(words[1..]);
      assert words == [words[0]] + words[1..];
    } else {
      assert words == [words[0]];
    }
  }

  lemma CentsReadBack(cents: nat)
    requires cents < 100
    ensures CentsOf(CentsWord(cents)) == cents && Spaceless([CentsWord(cents)])
  {
  }

  lemma {:induction false} LeadingWords(words: seq<string>, tail: seq<string>)
    requires AllMeanNumbers(words) && tail != [] && MeaningOf(tail[0]).Unknown?
    ensures Leading(words + tail) == |words|
  {
    if words == [] {
      assert words + tail == tail;
    } else {
      assert (words + tail)[0] == words[0] && (words + tail)[1..] == words[1..] + tail;
      LeadingWords(words[1..], tail);
    }
  }

  lemma {:induction false} CentsFound(words: seq<string>, tail: seq<string>)
    requires AllLettered(words) && tail != [] && CentsOf(tail[0]) >= 0
    ensures CentsAt(words + tail) == |words|
  {
    if words == [] {
      assert words + tail == tail;
    } else {
      assert Lettered(words[0]);
      assert (words + tail)[0] == words[0] && (words + tail)[1..] == words[1..] + tail;
      CentsFound(words[1..], tail);
    }
  }

  /** The first word of a noun means no number. */
  lemma NounStopsTheNumber(units: nat, code: int)
    ensures NounOf(units, code) != [] && NounOf(units, code)[0] in NOUNS && AllLettered(NounOf(units, code))
  {
  }

  lemma SuffixIsSpaceless(code: int)
    ensures Spaceless(CurrencyNamed(code).suffix)
  {
  }

  lemma ReadsTheNumber(number: seq<string>, tail: seq<string>, total: Sofar)
    requires Reads(number, NOTHING, total) && Said(total) && tail != [] && MeaningOf(tail[0]) == Unknown
    ensures ReadNumber(number + tail) == total.Total() && Leading(number + tail) == |number|
  {
    LeadingWords(number, tail);
    assert (number + tail)[..|number|] == number;
  }

  lemma TailParts(words: seq<string>, word: string, suffix: seq<string>)
    ensures var all := words + ([word] + suffix);
            all[|words|] == word && After(all, |words|) == suffix
  {
  }

  lemma ReadsTheCents(words: seq<string>, at: nat, word: string, suffix: seq<string>, number: nat)
    requires at < |words| && CentsAt(words) == at && words[at] == word && After(words, at) == suffix
    requires ReadNumber(words) == number
    ensures ReadAmount(words) == number * 100 + CentsOf(word) && ReadSuffix(words) == suffix
  {
  }

  /** The number words stop at the noun, and the cents are the first word with digits. */
  lemma ReadsTheAmount(number: seq<string>, noun: seq<string>, word: string, suffix: seq<string>, total: Sofar)
    requires Reads(number, NOTHING, total) && Said(total)
    requires noun != [] && MeaningOf(noun[0]) == Unknown && AllLettered(noun) && CentsOf(word) >= 0
    ensures var words := number + noun + ([word] + suffix);
            && ReadAmount(words) == total.Total() * 100 + CentsOf(word) && ReadSuffix(words) == suffix
            && ReadNoun(words) == noun
  {
    var tail := [word] + suffix;
    NumberThenNoun(number, noun, tail, total);
    CentsFound(number + noun, tail);
    TailParts(number + noun, word, suffix);
    ReadsTheCents(number + noun + tail, |number + noun|, word, suffix, total.Total());
    assert (number + noun + tail)[|number|..|number + noun|] == noun;
  }

  lemma NumberThenNoun(number: seq<string>, noun: seq<string>, tail: seq<string>, total: Sofar)
    requires Reads(number, NOTHING, total) && Said(total) && noun != [] && MeaningOf(noun[0]) == Unknown
    ensures ReadNumber(number + noun + tail) == total.Total() && Leading(number + noun + tail) == |number|
  {
    ReadsTheNumber(number, noun + tail, total);
    assert number + noun + tail == number + (noun + tail);
  }

  lemma AllSpaceless(number: seq<string>, noun: seq<string>, word: string, suffix: seq<string>)
    requires AllLettered(number) && AllLettered(noun) && Spaceless([word]) && Spaceless(suffix)
    ensures Spaceless(number + noun + ([word] + suffix))
  {
    assert [word][0] == word;
  }

  /** What was printed reads back as the same cents of the same currency, under that currency's noun for as many. */
  lemma ReadBack(cents: nat, code: int)
    requires cents / 100 < LIMIT
    ensures var words := Split(Join(AmountWords(cents, code)));
            && ReadAmount(words) == cents && ReadSuffix(words) == CurrencyNamed(code).suffix
            && CurrencyOf(ReadSuffix(words)) == (if code == 1 || code == 2 then code else 0)
            && NounFits(ReadNoun(words), CurrencyOf(ReadSuffix(words)), cents / 100 == 1)
  {
    ReadsInteger(cents / 100);
    CentsReadBack(cents % 100);
    NounStopsTheNumber(cents / 100, code);
    SuffixIsSpaceless(code);
    CurrencyReads(cents / 100, code);
    ReadWhole(cents / 100, cents % 100, IntegerWords(cents / 100), NounOf(cents / 100, code), CentsWord(cents % 100),
              CurrencyNamed(code).suffix);
  }

  lemma CurrencyReads(units: nat, code: int)
    ensures CurrencyOf(CurrencyNamed(code).suffix) == if code == 1 || code == 2 then code else 0
    ensures NounFits(NounOf(units, code), CurrencyOf(CurrencyNamed(code).suffix), units == 1)
  {
  }

  lemma ReadWhole(units: nat, cents: nat, number: seq<string>, noun: seq<string>, word: string, suffix: seq<string>)
    requires Reads(number, NOTHING, Heard(units)) && Said(Heard(units)) && Heard(units).Total() == units
    requires noun != [] && noun[0] in NOUNS && AllLettered(noun) && CentsOf(word) == cents
    requires Spaceless([word]) && Spaceless(suffix)
    ensures var words := Split(Join(number + noun + ([word] + suffix)));
            ReadAmount(words) == units * 100 + cents && ReadSuffix(words) == suffix && ReadNoun(words) == noun
  {
    NounsMeanNothing(noun[0]);
    AllSpaceless(number, noun, word, suffix);
    SplitUndoesJoin(number + noun + ([word] + suffix));
    ReadsTheAmount(number, noun, word, suffix, Heard(units));
  }

  lemma SuffixesDiffer(code: int, other: int)
    requires CurrencyNamed(code).suffix == CurrencyNamed(other).suffix
    ensures CurrencyNamed(code) == CurrencyNamed(other)
  {
    var suffix := CurrencyNamed(code).suffix;
    assert suffix[0] == CurrencyNamed(other).suffix[0];
  }

  /** Two amounts print alike exactly when they are the same cents of the same currency. */
  lemma NoTwoPrintAlike(cents: nat, code: int, others: nat, other: int)
    requires cents / 100 < LIMIT && others / 100 < LIMIT
    ensures Join(AmountWords(cents, code)) == Join(AmountWords(others, other))
            <==> cents == others && CurrencyNamed(code) == CurrencyNamed(other)
  {
    ReadBack(cents, code);
    ReadBack(others, other);
    if Join(AmountWords(cents, code)) == Join(AmountWords(others, other)) {
      SuffixesDiffer(code, other);
    }
  }

  lemma ThousandNeverUno(n: nat, word: string)
    requires n < 1000 && word in ["UNO", "VEINTIUNO"]
    ensures word !in ThousandWords(n)
  {
    OnlyUnitsShorten();
  }

  lemma MillionNeverUno(n: nat, word: string)
    requires n < 1000000 && word in ["UNO", "VEINTIUNO"]
    ensures word !in MillionWords(n)
  {
    ThousandNeverUno(n / 1000, word);
    ThousandNeverUno(n % 1000, word);
    assert word != "MIL";
  }

  /** "Uno" is never printed in full: a noun, "mil" or "millón" always follows. */
  lemma UnoIsShortened(n: nat, word: string)
    requires n < LIMIT && word in ["UNO", "VEINTIUNO"]
    ensures word !in IntegerWords(n)
  {
    MillionNeverUno(n / 1000000, word);
    MillionNeverUno(n % 1000000, word);
    assert word !in ["CERO", "DE", "UN", "MILLÓN", "MILLONES"];
  }
}
