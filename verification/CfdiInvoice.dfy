/** The amounts of a CFDI 4.0 invoice.  Quantities, prices and discounts are exact rationals, rates whole
    millionths, and every rounded figure whole cents.  The scale a decimal is printed with is not modelled. */
module CfdiInvoice {
  import opened Outcomes
  import opened Rounding
  import opened Tables

  const MILLION := 1000000

  /** The rate of an exempt line, as it is stored. */
  const EXEMPT := -1000000

  datatype Line = Line(quantity: real, price: real, discount: real, rate: int, included: bool)

  datatype Amounts = Amounts(subtotal: int, discount: int, total: int, taxes: int, base: real)

  function RateOf(line: Line): real {
    line.rate as real / 1000000.0
  }

  /** Quantity by price, in cents. */
  function Gross(line: Line): real {
    100.0 * line.quantity * line.price
  }

  function Off(line: Line): real {
    Gross(line) * line.discount
  }

  /** The tax is taken out of a price that includes it. */
  predicate Divided(line: Line) {
    line.included && line.rate > 0
  }

  function WithoutTax(x: real, t: real): real
    requires t > 0.0
  {
    x / (1.0 + t)
  }

  function Times(a: real, b: real): real {
    a * b
  }

  function WithTax(x: real, t: real): real {
    x * (1.0 + t)
  }

  function Subtotal(line: Line): int {
    if Divided(line) then RoundHalfAway(WithoutTax(Gross(line), RateOf(line))) else RoundHalfAway(Gross(line))
  }

  function Discount(line: Line): int {
    if Divided(line) then RoundHalfAway(WithoutTax(Off(line), RateOf(line))) else RoundHalfAway(Off(line))
  }

  function GrossDiscount(line: Line): int {
    if line.discount > 0.0 then RoundHalfAway(Off(line)) else 0
  }

  function LineTotal(line: Line): int {
    if line.included || line.rate <= 0 then RoundHalfAway(Gross(line) - GrossDiscount(line) as real)
    else RoundHalfAway(WithTax(Gross(line) - GrossDiscount(line) as real, RateOf(line)))
  }

  function Taxes(line: Line): int {
    LineTotal(line) - Subtotal(line) + Discount(line)
  }

  function LineAmounts(line: Line): Amounts {
    Amounts(Subtotal(line), Discount(line), LineTotal(line), Taxes(line),
            if line.rate > 0 then Taxes(line) as real / RateOf(line) else (Subtotal(line) - Discount(line)) as real)
  }

  /** A line whose discount takes all of it, in cents, is not subject to tax: ObjetoImp 01. */
  predicate NotTaxed(line: Line) {
    Subtotal(line) == Discount(line)
  }

  /** What documents hold: nothing negative, and no discount beyond the whole. */
  predicate Sensible(line: Line) {
    line.quantity >= 0.0 && line.price >= 0.0 && 0.0 <= line.discount <= 1.0
  }

  // ----- one line

  lemma GrossFacts(line: Line)
    requires Sensible(line)
    ensures 0.0 <= Off(line) <= Gross(line)
    ensures line.discount <= 0.0 ==> Off(line) == 0.0
  {
    assert line.quantity * line.price >= 0.0;
  }

  /** What is without its tax, and its tax, make it up again. */
  lemma TaxTakenOut(x: real, t: real, net: real) returns (tax: real)
    requires t > 0.0 && net == WithoutTax(x, t)
    ensures tax == net * t && net + tax == x
  {
    tax := net * t;
    assert net * (1.0 + t) == x;
  }

  lemma TaxPutOn(x: real, t: real) returns (tax: real)
    ensures tax == x * t && WithTax(x, t) == x + tax
  {
    tax := x * t;
  }

  lemma SmallTimes(e: real, bound: real, t: real) returns (et: real)
    requires -bound <= e <= bound && t >= 0.0
    ensures et == e * t && -(bound * t) <= et <= bound * t
  {
    et := e * t;
  }

  /** The tax of a difference is the difference of the taxes. */
  lemma DifferenceTimes(a: real, b: real, t: real, at: real, bt: real, et: real)
    requires at == a * t && bt == b * t && et == (a - b) * t
    ensures et == at - bt
  {
  }

  /** A taxed line at no rate, exempt or zero, has no tax: its total is its subtotal less its discount. */
  lemma UnratedHasNoTax(line: Line)
    requires Sensible(line) && line.rate <= 0 && !NotTaxed(line)
    ensures Taxes(line) == 0
  {
    GrossFacts(line);
    var off := GrossDiscount(line);
    RoundWhole(0);
    assert Discount(line) == off;
  }

  lemma UntaxedDivided(g: real, o: real, t: real, gt: real, ot: real, s: real, off: real, total: int)
    requires 0.0 < t < 1.0 && gt == g * t && ot == o * t
    requires -0.5 <= g - s <= 0.5 && -0.5 <= o - s <= 0.5
    requires -0.5 <= o + ot - off <= 0.5
    requires -0.5 <= g + gt - off - total as real <= 0.5
    requires g + gt >= o + ot
    ensures -1 <= total <= 2
  {
    var et := SmallTimes(g - o, 1.0, t);
    DifferenceTimes(g, o, t, gt, ot, et);
    assert -0.5 <= g + gt - off < 2.5;
  }

  lemma UntaxedAdded(e: real, t: real, et: real, total: int)
    requires -0.5 <= e <= 0.5 && 0.0 < t < 1.0 && et == e * t
    requires -0.5 <= e + et - total as real <= 0.5
    ensures -1 <= total <= 1
  {
    var small := SmallTimes(e, 0.5, t);
    assert small == et;
  }

  lemma UntaxedDividedLine(line: Line)
    requires Sensible(line) && NotTaxed(line) && Divided(line) && line.rate < MILLION
    ensures -1 <= LineTotal(line) <= 2
  {
    GrossFacts(line);
    RoundWhole(0);
    var t := RateOf(line);
    var g, o := WithoutTax(Gross(line), t), WithoutTax(Off(line), t);
    var gt := TaxTakenOut(Gross(line), t, g);
    var ot := TaxTakenOut(Off(line), t, o);
    UntaxedDivided(g, o, t, gt, ot, Subtotal(line) as real, GrossDiscount(line) as real, LineTotal(line));
  }

  lemma UntaxedAddedLine(line: Line)
    requires Sensible(line) && NotTaxed(line) && 0 < line.rate < MILLION && !line.included
    ensures -1 <= LineTotal(line) <= 1
  {
    GrossFacts(line);
    RoundWhole(0);
    var t, e := RateOf(line), Gross(line) - GrossDiscount(line) as real;
    var et := TaxPutOn(e, t);
    UntaxedAdded(e, t, et, LineTotal(line));
  }

  /** The total of a line that is not subject to tax is between minus one cent and two. */
  lemma UntaxedIsTwoCentsAtMost(line: Line)
    requires Sensible(line) && NotTaxed(line) && (line.rate == EXEMPT || 0 <= line.rate < MILLION)
    ensures -1 <= Taxes(line) <= 2
  {
    GrossFacts(line);
    RoundWhole(0);
    assert Taxes(line) == LineTotal(line);
    if Divided(line) {
      UntaxedDividedLine(line);
    } else if line.rate > 0 {
      UntaxedAddedLine(line);
    }
  }

  /** The rate on what is left of the subtotal. */
  function Due(line: Line): real {
    Times(Subtotal(line) as real - Discount(line) as real, RateOf(line))
  }

  /** The rounding errors of a line's parts, put together. */
  lemma DividedErrors(g: real, o: real, t: real, gt: real, ot: real, s: real, d: real, off: real, total: real, due: real)
    requires t > 0.0 && gt == g * t && ot == o * t && due == (s - d) * t
    requires -0.5 <= g - s <= 0.5 && -0.5 <= o - d <= 0.5
    requires -0.5 <= o + ot - off <= 0.5
    requires -0.5 <= g + gt - off - total <= 0.5
    ensures -(2.0 + t) <= total - s + d - due <= 2.0 + t
  {
    var e := (g - s) - (o - d);
    var et := SmallTimes(e, 1.0, t);
    DifferenceTimes(g, o, t, gt, ot, (g - o) * t);
    DifferenceTimes(g - o, e, t, (g - o) * t, et, due);
    assert due == gt - ot - et;
    assert total - s + d - due == (o + ot - off) - (g + gt - off - total) + e + et;
  }

  lemma AddedErrors(g: real, t: real, s: real, d: real, net: real, netTax: real, total: real, due: real)
    requires t > 0.0 && net == g - d && netTax == net * t && due == (s - d) * t
    requires -0.5 <= g - s <= 0.5 && -0.5 <= net + netTax - total <= 0.5
    ensures -(2.0 + t) <= total - s + d - due <= 2.0 + t
  {
    var e := g - s;
    var et := SmallTimes(e, 0.5, t);
    DifferenceTimes(net, e, t, netTax, et, due);
  }

  /** A line of these exact figures and these rounded ones. */
  lemma DividedBound(gross: real, exactOff: real, t: real, s: real, d: real, off: real, total: real)
    requires t > 0.0
    requires -0.5 <= WithoutTax(gross, t) - s <= 0.5 && -0.5 <= WithoutTax(exactOff, t) - d <= 0.5
    requires -0.5 <= exactOff - off <= 0.5 && -0.5 <= gross - off - total <= 0.5
    ensures -(2.0 + t) <= total - s + d - Times(s - d, t) <= 2.0 + t
  {
    var g, o := WithoutTax(gross, t), WithoutTax(exactOff, t);
    var gt := TaxTakenOut(gross, t, g);
    var ot := TaxTakenOut(exactOff, t, o);
    DividedErrors(g, o, t, gt, ot, s, d, off, total, Times(s - d, t));
  }

  lemma DividedTax(line: Line)
    requires Sensible(line) && Divided(line)
    ensures -(2.0 + RateOf(line)) <= LineTotal(line) as real - Subtotal(line) as real + Discount(line) as real - Due(line)
                <= 2.0 + RateOf(line)
  {
    DividedBound(Gross(line), Off(line), RateOf(line), Subtotal(line) as real, Discount(line) as real,
                 GrossDiscount(line) as real, LineTotal(line) as real);
  }

  lemma AddedTax(line: Line)
    requires Sensible(line) && line.rate > 0 && !line.included
    ensures -(2.0 + RateOf(line)) <= LineTotal(line) as real - Subtotal(line) as real + Discount(line) as real - Due(line)
                <= 2.0 + RateOf(line)
  {
    GrossFacts(line);
    RoundWhole(0);
    var t, net := RateOf(line), Gross(line) - GrossDiscount(line) as real;
    assert GrossDiscount(line) == Discount(line);
    var netTax := TaxPutOn(net, t);
    AddedErrors(Gross(line), t, Subtotal(line) as real, Discount(line) as real, net, netTax, LineTotal(line) as real, Due(line));
  }

  /** A rated line's tax is within 0.005 (4 + 2t) of its rate on subtotal less discount: in cents, 2 + t. */
  lemma TaxIsNearTheRate(line: Line)
    requires Sensible(line) && line.rate > 0
    ensures var t := RateOf(line);
            -0.5 * (4.0 + 2.0 * t) <= Taxes(line) as real - Due(line) <= 0.5 * (4.0 + 2.0 * t)
  {
    if Divided(line) {
      DividedTax(line);
    } else {
      AddedTax(line);
    }
    assert Taxes(line) as real == LineTotal(line) as real - Subtotal(line) as real + Discount(line) as real;
  }

  // ----- the figures of a line

  /** Quantity by price, in cents, and the discount's part of it. */
  function Worth(line: Line): real {
    100.0 * line.quantity * line.price
  }

  function Reduction(line: Line): real {
    100.0 * line.quantity * line.price * line.discount
  }

  lemma WorthIsGross(line: Line)
    ensures Gross(line) == Worth(line) && Off(line) == Reduction(line)
  {
  }

  /** Where no tax is taken out of the price, the subtotal and the discount are price by quantity and the discount's
      part of it, to the cent; where it is, they are what makes those up with its tax put back on. */
  lemma SubtotalAndDiscountAreNear(line: Line)
    ensures !(line.included && line.rate > 0) ==>
              -0.5 <= Subtotal(line) as real - Worth(line) <= 0.5 && -0.5 <= Discount(line) as real - Reduction(line) <= 0.5
    ensures line.included && line.rate > 0 ==>
              var t := line.rate as real / 1000000.0;
              && -0.5 * (1.0 + t) <= Times(Subtotal(line) as real, 1.0 + t) - Worth(line) <= 0.5 * (1.0 + t)
              && -0.5 * (1.0 + t) <= Times(Discount(line) as real, 1.0 + t) - Reduction(line) <= 0.5 * (1.0 + t)
  {
    WorthIsGross(line);
    if Divided(line) {
      DividedAreNear(line);
    } else {
      WholeAreNear(line);
    }
  }

  lemma WholeAreNear(line: Line)
    requires !Divided(line)
    ensures -0.5 <= Subtotal(line) as real - Gross(line) <= 0.5 && -0.5 <= Discount(line) as real - Off(line) <= 0.5
  {
  }

  lemma DividedAreNear(line: Line)
    requires Divided(line)
    ensures var t := RateOf(line);
            && -0.5 * (1.0 + t) <= Times(Subtotal(line) as real, 1.0 + t) - Gross(line) <= 0.5 * (1.0 + t)
            && -0.5 * (1.0 + t) <= Times(Discount(line) as real, 1.0 + t) - Off(line) <= 0.5 * (1.0 + t)
  {
    PutBack(Gross(line), RateOf(line), Subtotal(line) as real);
    PutBack(Off(line), RateOf(line), Discount(line) as real);
  }

  lemma PutBack(x: real, t: real, rounded: real)
    requires t > 0.0 && -0.5 <= WithoutTax(x, t) - rounded <= 0.5
    ensures -0.5 * (1.0 + t) <= Times(rounded, 1.0 + t) - x <= 0.5 * (1.0 + t)
  {
    var net := WithoutTax(x, t);
    assert Times(net, 1.0 + t) == x;
    var e := SmallTimes(rounded - net, 0.5, 1.0 + t);
    assert Times(rounded, 1.0 + t) == x + e;
  }

  /** The total is what is charged: price by quantity less its discount, in cents, with the tax put on where the price
      does not include it. */
  lemma TotalIsNear(line: Line)
    requires Sensible(line)
    ensures var off := LineTotalOff(line);
            && -0.5 <= off as real - Reduction(line) <= 0.5
            && (line.included || line.rate <= 0 ==> -0.5 <= LineTotal(line) as real - (Worth(line) - off as real) <= 0.5)
            && (!line.included && line.rate > 0 ==>
                  -0.5 <= LineTotal(line) as real - Times(Worth(line) - off as real, 1.0 + line.rate as real / 1000000.0) <= 0.5)
  {
    GrossFacts(line);
    WorthIsGross(line);
  }

  /** What the discount takes off what is charged, in cents. */
  function LineTotalOff(line: Line): int {
    GrossDiscount(line)
  }

  lemma QuotientTimes(x: real, t: real)
    requires t > 0.0
    ensures Times(x / t, t) == x
  {
  }

  lemma TimesOrder(a: real, b: real, t: real)
    requires t > 0.0 && Times(a, t) <= Times(b, t)
    ensures a <= b
  {
  }

  lemma TimesAdds(a: real, b: real, t: real)
    ensures Times(a + b, t) == Times(a, t) + Times(b, t) && Times(a - b, t) == Times(a, t) - Times(b, t)
  {
  }

  lemma NearQuotient(taxes: real, net: real, t: real, base: real)
    requires t > 0.0 && Times(base, t) == taxes && -(2.0 + t) <= taxes - Times(net, t) <= 2.0 + t
    ensures -((2.0 + t) / t) <= base - net <= (2.0 + t) / t
  {
    var bound := (2.0 + t) / t;
    QuotientTimes(2.0 + t, t);
    TimesAdds(base, net, t);
    TimesAdds(0.0, bound, t);
    TimesOrder(base - net, bound, t);
    TimesOrder(-bound, base - net, t);
  }

  lemma BaseByRate(line: Line)
    requires line.rate > 0
    ensures Times(LineAmounts(line).base, line.rate as real / 1000000.0) == Taxes(line) as real
  {
    QuotientTimes(Taxes(line) as real, RateOf(line));
  }

  /** A rated line's base is what its taxes are the rate of, and is near its subtotal less its discount, within
      (2 + t) / t cents; an unrated line's base is its subtotal less its discount. */
  lemma BaseIsWhatIsTaxed(line: Line)
    requires Sensible(line)
    ensures line.rate > 0 ==>
              var t, base := line.rate as real / 1000000.0, LineAmounts(line).base;
              && Times(base, t) == Taxes(line) as real
              && -((2.0 + t) / t) <= base - (Subtotal(line) - Discount(line)) as real <= (2.0 + t) / t
    ensures line.rate <= 0 ==> LineAmounts(line).base == (Subtotal(line) - Discount(line)) as real
  {
    if line.rate > 0 {
      var t := RateOf(line);
      BaseByRate(line);
      TaxIsNearTheRate(line);
      NearQuotient(Taxes(line) as real, Subtotal(line) as real - Discount(line) as real, t, LineAmounts(line).base);
    }
  }

  // ----- the invoice

  /** Transfers are grouped by factor and rate. */
  datatype Key = Rated(rate: int) | Exempted

  datatype Group = Group(base: real, taxes: int)

  datatype Sums = Sums(subtotal: int, discount: int, total: int, groups: map<Key, Group>, order: seq<Key>)

  function KeyOf(line: Line): Key {
    if line.rate == EXEMPT then Exempted else Rated(line.rate)
  }

  function SubtotalOf(lines: seq<Line>): int {
    if lines == [] then 0 else SubtotalOf(lines[..|lines| - 1]) + Subtotal(lines[|lines| - 1])
  }

  function DiscountOf(lines: seq<Line>): int {
    if lines == [] then 0 else DiscountOf(lines[..|lines| - 1]) + Discount(lines[|lines| - 1])
  }

  function TotalOf(lines: seq<Line>): int {
    if lines == [] then 0 else TotalOf(lines[..|lines| - 1]) + LineTotal(lines[|lines| - 1])
  }

  /** The taxes of the lines not subject to tax, which no transfer carries. */
  function UntaxedOf(lines: seq<Line>): int {
    if lines == [] then 0
    else
      var last := lines[|lines| - 1];
      UntaxedOf(lines[..|lines| - 1]) + if NotTaxed(last) then Taxes(last) else 0
  }

  /** What the taxed lines of a key add up to. */
  function BaseOf(lines: seq<Line>, key: Key): real {
    if lines == [] then 0.0
    else
      var last := lines[|lines| - 1];
      BaseOf(lines[..|lines| - 1], key) + if !NotTaxed(last) && KeyOf(last) == key then LineAmounts(last).base else 0.0
  }

  function TaxesOf(lines: seq<Line>, key: Key): int {
    if lines == [] then 0
    else
      var last := lines[|lines| - 1];
      TaxesOf(lines[..|lines| - 1], key) + if !NotTaxed(last) && KeyOf(last) == key then Taxes(last) else 0
  }

  /** The keys in order of first appearance. */
  function KeysOf(lines: seq<Line>): seq<Key> {
    if lines == [] then []
    else
      var last, earlier := lines[|lines| - 1], KeysOf(lines[..|lines| - 1]);
      if NotTaxed(last) || KeyOf(last) in earlier then earlier else earlier + [KeyOf(last)]
  }

  /** The taxes of the rated groups; groups are already whole cents, so rounding them changes nothing. */
  function RatedColumn(groups: map<Key, Group>): map<Key, int> {
    map k | k in groups && k.Rated? :: RoundHalfAway(groups[k].taxes as real)
  }

  /** TotalImpuestosTrasladados. */
  ghost function Transferred(groups: map<Key, Group>): int {
    Total(RatedColumn(groups))
  }

  ghost predicate Grouped(lines: seq<Line>, groups: map<Key, Group>) {
    && (forall k :: k in groups <==> k in KeysOf(lines))
    && (forall k :: k in groups ==> groups[k] == Group(BaseOf(lines, k), TaxesOf(lines, k)))
  }

  lemma GroupedNext(lines: seq<Line>, next: seq<Line>, line: Line, groups: map<Key, Group>)
    requires next == lines + [line] && Grouped(lines, groups) && !NotTaxed(line)
    ensures var had := if KeyOf(line) in groups then groups[KeyOf(line)] else Group(0.0, 0);
            Grouped(next, groups[KeyOf(line) := Group(had.base + LineAmounts(line).base, had.taxes + Taxes(line))])
    ensures KeysOf(next) == if KeyOf(line) in groups then KeysOf(lines) else KeysOf(lines) + [KeyOf(line)]
  {
    assert next[..|next| - 1] == lines;
    if KeyOf(line) !in groups {
      NoKeyNoGroup(lines, KeyOf(line));
    }
  }

  lemma {:induction false} NoKeyNoGroup(lines: seq<Line>, key: Key)
    requires key !in KeysOf(lines)
    ensures BaseOf(lines, key) == 0.0 && TaxesOf(lines, key) == 0
  {
    if lines != [] {
      NoKeyNoGroup(lines[..|lines| - 1], key);
    }
  }

  /** Add a concept's transfer to its group, which starts at nothing where the key first appears. */
  method AddTransfer(groups: map<Key, Group>, order: seq<Key>, key: Key, amounts: Amounts)
    returns (after: map<Key, Group>, keys: seq<Key>)
    ensures var had := if key in groups then groups[key] else Group(0.0, 0);
            after == groups[key := Group(had.base + amounts.base, had.taxes + amounts.taxes)]
    ensures keys == if key in groups then order else order + [key]
  {
    after, keys := groups, order;
    if key !in after {
      after := after[key := Group(0.0, 0)];
      keys := keys + [key];
    }
    after := after[key := Group(after[key].base + amounts.base, after[key].taxes + amounts.taxes)];
  }

  predicate AddUpTo(lines: seq<Line>, subtotal: int, discount: int, total: int) {
    subtotal == SubtotalOf(lines) && discount == DiscountOf(lines) && total == TotalOf(lines)
  }

  /** A concept's transfer, unless it is not subject to tax. */
  method AddConcept(groups: map<Key, Group>, order: seq<Key>, line: Line, amounts: Amounts,
                    ghost done: seq<Line>, ghost next: seq<Line>)
    returns (after: map<Key, Group>, keys: seq<Key>)
    requires amounts == LineAmounts(line) && next == done + [line]
    requires Grouped(done, groups) && order == KeysOf(done)
    ensures Grouped(next, after) && keys == KeysOf(next)
  {
    if amounts.subtotal == amounts.discount {
      after, keys := groups, order;
    } else {
      GroupedNext(done, next, line, groups);
      after, keys := AddTransfer(groups, order, KeyOf(line), amounts);
    }
  }

  /** The sums of the header, and the transfers grouped as the lines come. */
  method Build(lines: seq<Line>) returns (sums: Sums)
    ensures sums.subtotal == SubtotalOf(lines) && sums.discount == DiscountOf(lines) && sums.total == TotalOf(lines)
    ensures Grouped(lines, sums.groups) && sums.order == KeysOf(lines)
    ensures forall k :: k in sums.groups && k.Rated? && k.rate > 0 ==>
              Times(sums.groups[k].base, k.rate as real / 1000000.0) == sums.groups[k].taxes as real
  {
    var subtotal, discount, total := 0, 0, 0;
    var groups: map<Key, Group> := map[];
    var order: seq<Key> := [];
    for i := 0 to |lines|
      invariant AddUpTo(lines[..i], subtotal, discount, total)
      invariant Grouped(lines[..i], groups) && order == KeysOf(lines[..i])
    {
      var line := lines[i];
      var amounts := LineAmounts(line);
      subtotal, discount, total := subtotal + amounts.subtotal, discount + amounts.discount, total + amounts.total;
      groups, order := AddConcept(groups, order, line, amounts, lines[..i], lines[..i + 1]);
    }
    assert lines[..|lines|] == lines;
    sums := Sums(subtotal, discount, total, groups, order);
    forall k | k in groups && k.Rated? && k.rate > 0
      ensures Times(groups[k].base, k.rate as real / 1000000.0) == groups[k].taxes as real
    {
      BasesMakeTaxes(lines, k.rate);
    }
  }

  // ----- the groups

  lemma {:induction false} BasesMakeTaxes(lines: seq<Line>, rate: int)
    requires rate > 0
    ensures Times(BaseOf(lines, Rated(rate)), rate as real / 1000000.0) == TaxesOf(lines, Rated(rate)) as real
  {
    if lines != [] {
      var rest, last, t := lines[..|lines| - 1], lines[|lines| - 1], rate as real / 1000000.0;
      BasesMakeTaxes(rest, rate);
      if !NotTaxed(last) && KeyOf(last) == Rated(rate) {
        BaseByRate(last);
        TimesAdds(BaseOf(rest, Rated(rate)), LineAmounts(last).base, t);
      }
    }
  }

  /** The lines that carry a transfer of a key. */
  function Carrying(lines: seq<Line>, key: Key): seq<Line> {
    if lines == [] then []
    else
      var last := lines[|lines| - 1];
      Carrying(lines[..|lines| - 1], key) + if !NotTaxed(last) && KeyOf(last) == key then [last] else []
  }

  lemma {:induction false} UnratedBases(lines: seq<Line>, key: Key)
    requires key == Exempted || key == Rated(0)
    requires forall l :: l in lines ==> Chargeable(l)
    ensures var own := Carrying(lines, key);
            BaseOf(lines, key) == (SubtotalOf(own) - DiscountOf(own)) as real && TaxesOf(lines, key) == 0
  {
    if lines != [] {
      var rest, last := lines[..|lines| - 1], lines[|lines| - 1];
      assert last in lines;
      UnratedBases(rest, key);
      if !NotTaxed(last) && KeyOf(last) == key {
        UnratedHasNoTax(last);
        OneMoreLine(Carrying(rest, key), last);
        assert Carrying(lines, key) == Carrying(rest, key) + [last];
        assert LineAmounts(last).base == (Subtotal(last) - Discount(last)) as real;
      } else {
        assert Carrying(lines, key) == Carrying(rest, key);
      }
    }
  }

  lemma OneMoreLine(lines: seq<Line>, last: Line)
    ensures SubtotalOf(lines + [last]) == SubtotalOf(lines) + Subtotal(last)
    ensures DiscountOf(lines + [last]) == DiscountOf(lines) + Discount(last)
  {
    assert (lines + [last])[..|lines|] == lines;
  }

  /** Every rated group has the taxes its base makes at its rate; a group at no rate has no taxes, and its base is its
      lines' subtotals less their discounts. */
  lemma GroupsMakeTheirTaxes(lines: seq<Line>, groups: map<Key, Group>, key: Key)
    requires Grouped(lines, groups) && key in groups && forall l :: l in lines ==> Chargeable(l)
    ensures key.Rated? && key.rate > 0 ==> Times(groups[key].base, key.rate as real / 1000000.0) == groups[key].taxes as real
    ensures key == Exempted || key == Rated(0) ==>
              var own := Carrying(lines, key);
              groups[key].base == (SubtotalOf(own) - DiscountOf(own)) as real && groups[key].taxes == 0
  {
    if key.Rated? && key.rate > 0 {
      BasesMakeTaxes(lines, key.rate);
    } else if key == Exempted || key == Rated(0) {
      UnratedBases(lines, key);
    }
  }

  /** The line carries a transfer of this key: it is subject to tax, exempt or at the key's rate. */
  predicate Carries(line: Line, key: Key) {
    && Subtotal(line) != Discount(line)
    && match key case Exempted => line.rate == EXEMPT case Rated(rate) => line.rate != EXEMPT && line.rate == rate
  }

  predicate SomeCarries(lines: seq<Line>, key: Key) {
    exists i :: 0 <= i < |lines| && Carries(lines[i], key)
  }

  lemma {:induction false} KeysAreCarried(lines: seq<Line>, key: Key)
    ensures key in KeysOf(lines) <==> SomeCarries(lines, key)
  {
    if lines != [] {
      var rest, last := lines[..|lines| - 1], lines[|lines| - 1];
      KeysAreCarried(rest, key);
      assert Carries(last, key) <==> !NotTaxed(last) && KeyOf(last) == key;
      if i :| 0 <= i < |rest| && Carries(rest[i], key) {
        assert Carries(lines[i], key);
      }
      if i :| 0 <= i < |lines| && Carries(lines[i], key) {
        assert i < |rest| ==> Carries(rest[i], key);
      }
    }
  }

  lemma {:induction false} KeysGrow(lines: seq<Line>, n: nat)
    requires n <= |lines|
    ensures KeysOf(lines[..n]) <= KeysOf(lines)
  {
    if n == |lines| {
      assert lines[..n] == lines;
    } else {
      KeysGrow(lines[..|lines| - 1], n);
      assert lines[..|lines| - 1][..n] == lines[..n];
    }
  }

  lemma {:induction false} KeysOnce(lines: seq<Line>)
    ensures forall i, j :: 0 <= i < j < |KeysOf(lines)| ==> KeysOf(lines)[i] != KeysOf(lines)[j]
  {
    if lines != [] {
      KeysOnce(lines[..|lines| - 1]);
    }
  }

  /** There is one group for each factor and rate that some line carries, in the order in which the lines first carry
      them. */
  lemma GroupsFollowTheLines(lines: seq<Line>)
    ensures forall k :: k in KeysOf(lines) <==> SomeCarries(lines, k)
    ensures forall i, j :: 0 <= i < j < |KeysOf(lines)| ==> KeysOf(lines)[i] != KeysOf(lines)[j]
    ensures forall n :: 0 <= n <= |lines| ==> KeysOf(lines[..n]) <= KeysOf(lines)
  {
    forall k ensures k in KeysOf(lines) <==> SomeCarries(lines, k) {
      KeysAreCarried(lines, k);
    }
    KeysOnce(lines);
    forall n | 0 <= n <= |lines| ensures KeysOf(lines[..n]) <= KeysOf(lines) {
      KeysGrow(lines, n);
    }
  }

  // ----- the identity

  function GroupsOf(lines: seq<Line>): map<Key, Group> {
    map k | k in KeysOf(lines) :: Group(BaseOf(lines, k), TaxesOf(lines, k))
  }

  /** Adding a taxed line adds its taxes to its own group's. */
  lemma TransferredNext(lines: seq<Line>)
    requires lines != []
    ensures var last := lines[|lines| - 1];
            Transferred(GroupsOf(lines)) == Transferred(GroupsOf(lines[..|lines| - 1]))
              + if !NotTaxed(last) && last.rate != EXEMPT then Taxes(last) else 0
  {
    var rest, last := lines[..|lines| - 1], lines[|lines| - 1];
    var a, b, k := RatedColumn(GroupsOf(rest)), RatedColumn(GroupsOf(lines)), KeyOf(last);
    forall j | j in b ensures b[j] == TaxesOf(lines, j) {
      RoundWhole(TaxesOf(lines, j));
    }
    forall j | j in a ensures a[j] == TaxesOf(rest, j) {
      RoundWhole(TaxesOf(rest, j));
    }
    if NotTaxed(last) {
      TotalSame(a, b);
    } else {
      if k !in KeysOf(rest) {
        NoKeyNoGroup(rest, k);
      }
      TotalBut(a, b, k);
    }
  }

  /** What the header leaves unexplained is exactly the taxes of the lines not subject to tax. */
  lemma {:induction false} TotalsAgreeButForUntaxed(lines: seq<Line>)
    requires forall l :: l in lines ==> Sensible(l)
    ensures TotalOf(lines) == SubtotalOf(lines) - DiscountOf(lines) + Transferred(GroupsOf(lines)) + UntaxedOf(lines)
  {
    if lines == [] {
      assert RatedColumn(GroupsOf(lines)) == map[];
    } else {
      var rest, last := lines[..|lines| - 1], lines[|lines| - 1];
      assert last in lines;
      TotalsAgreeButForUntaxed(rest);
      TransferredNext(lines);
      if !NotTaxed(last) && last.rate == EXEMPT {
        UnratedHasNoTax(last);
      }
    }
  }

  lemma GroupsAre(lines: seq<Line>, groups: map<Key, Group>)
    requires Grouped(lines, groups)
    ensures groups == GroupsOf(lines)
  {
    forall k ensures k in groups <==> k in GroupsOf(lines) {
    }
    forall k | k in groups ensures groups[k] == GroupsOf(lines)[k] {
    }
  }

  function UntaxedLines(lines: seq<Line>): nat {
    if lines == [] then 0
    else UntaxedLines(lines[..|lines| - 1]) + if NotTaxed(lines[|lines| - 1]) then 1 else 0
  }

  predicate Chargeable(line: Line) {
    Sensible(line) && (line.rate == EXEMPT || 0 <= line.rate < MILLION)
  }

  lemma {:induction false} UntaxedIsSmall(lines: seq<Line>)
    requires forall l :: l in lines ==> Chargeable(l)
    ensures 0 - UntaxedLines(lines) <= UntaxedOf(lines) <= 2 * UntaxedLines(lines)
  {
    if lines != [] {
      var last := lines[|lines| - 1];
      assert last in lines;
      UntaxedIsSmall(lines[..|lines| - 1]);
      if NotTaxed(last) {
        UntaxedIsTwoCentsAtMost(last);
      }
    }
  }

  lemma {:induction false} NoUntaxed(lines: seq<Line>)
    requires forall l :: l in lines ==> !NotTaxed(l)
    ensures UntaxedOf(lines) == 0
  {
    if lines != [] {
      assert lines[|lines| - 1] in lines;
      NoUntaxed(lines[..|lines| - 1]);
    }
  }

  /** The total is subtotal less discount plus transferred taxes, exactly when every line is taxed, and
      between a cent less and two cents more for each line that is not. */
  lemma InvoiceAddsUp(lines: seq<Line>, sums: Sums)
    requires forall l :: l in lines ==> Chargeable(l)
    requires sums.subtotal == SubtotalOf(lines) && sums.discount == DiscountOf(lines) && sums.total == TotalOf(lines)
    requires Grouped(lines, sums.groups)
    ensures var due := sums.subtotal - sums.discount + Transferred(sums.groups);
            && 0 - UntaxedLines(lines) <= sums.total - due <= 2 * UntaxedLines(lines)
            && ((forall l :: l in lines ==> !NotTaxed(l)) ==> sums.total == due)
  {
    GroupsAre(lines, sums.groups);
    TotalsAgreeButForUntaxed(lines);
    UntaxedIsSmall(lines);
    if forall l :: l in lines ==> !NotTaxed(l) {
      NoUntaxed(lines);
    }
  }

  /** Both ends are reached: half a cent wholly discounted leaves minus one cent, and a discounted price
      that includes its tax can leave two. */
  lemma UntaxedBoundsAreReached()
    ensures var line := Line(1.0, 0.005, 1.0, EXEMPT, false);
            Chargeable(line) && NotTaxed(line) && Taxes(line) == -1
    ensures var line := Line(1.0, 0.0753, 0.86, 160000, true);
            Chargeable(line) && NotTaxed(line) && Taxes(line) == 2
  {
    var cent := Line(1.0, 0.005, 1.0, EXEMPT, false);
    assert Gross(cent) == 0.5 && Off(cent) == 0.5;
    assert RoundHalfAway(0.5) == 1 && RoundHalfAway(-0.5) == -1;
    TwoCents(Line(1.0, 0.0753, 0.86, 160000, true));
  }

  lemma TwoCents(line: Line)
    requires line == Line(1.0, 0.0753, 0.86, 160000, true)
    ensures Chargeable(line) && NotTaxed(line) && Taxes(line) == 2
  {
    assert Gross(line) == 7.53 && Off(line) == 6.4758 && RateOf(line) == 0.16;
    assert Subtotal(line) == 6 && Discount(line) == 6;
    assert GrossDiscount(line) == 6 && LineTotal(line) == 2;
  }
}
