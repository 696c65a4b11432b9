/** Splitting a payment over the transfers of the invoice it pays.  Amounts in are exact rationals, in
    millionths of the currency; bases and taxes out are whole millionths. */
module CfdiPayment {
  import opened Outcomes
  import opened Rounding

  datatype Transfer = Rated(base: real, rate: real) | Exempt(base: real)

  datatype DocumentTax = DocumentTax(base: int, tax: Option<int>)

  function RateOf(t: Transfer): real {
    if t.Rated? then t.rate else 0.0
  }

  /** A transfer weighs its base plus its tax. */
  function Weight(t: Transfer): real {
    t.base * (1.0 + RateOf(t))
  }

  function TotalWeight(transfers: seq<Transfer>): real {
    if transfers == [] then 0.0 else TotalWeight(transfers[..|transfers| - 1]) + Weight(transfers[|transfers| - 1])
  }

  predicate Divisible(transfers: seq<Transfer>) {
    if |transfers| == 1 then 1.0 + RateOf(transfers[0]) != 0.0 else |transfers| > 1 ==> TotalWeight(transfers) != 0.0
  }

  /** The amount's part that is the base of one transfer, before rounding. */
  function Share(amount: real, transfers: seq<Transfer>, i: nat): real
    requires i < |transfers| && Divisible(transfers)
  {
    if |transfers| == 1 then amount / (1.0 + RateOf(transfers[0]))
    else Portion(amount, transfers[i].base, TotalWeight(transfers))
  }

  function Portion(amount: real, base: real, total: real): real
    requires total != 0.0
  {
    amount * base / total
  }

  function TaxOn(base: int, t: Transfer): Option<int> {
    if t.Exempt? then None else Some(RoundHalfAway(base as real * t.rate))
  }

  /** A transfer's share as it is written: base and tax, each rounded. */
  function Written(share: real, t: Transfer): DocumentTax {
    DocumentTax(RoundHalfAway(share), TaxOn(RoundHalfAway(share), t))
  }

  function Shares(amount: real, transfers: seq<Transfer>): (shares: seq<real>)
    requires Divisible(transfers)
    ensures |shares| == |transfers|
  {
    seq(|transfers|, i requires 0 <= i < |transfers| => Share(amount, transfers, i))
  }

  ghost predicate AllWritten(shares: seq<real>, transfers: seq<Transfer>, taxes: seq<DocumentTax>) {
    |taxes| == |transfers| == |shares| && forall i :: 0 <= i < |taxes| ==> taxes[i] == Written(shares[i], transfers[i])
  }

  /** The transfers' total weight, one after another. */
  method Weigh(transfers: seq<Transfer>) returns (total: real)
    ensures total == TotalWeight(transfers)
  {
    total := 0.0;
    for i := 0 to |transfers|
      invariant total == TotalWeight(transfers[..i])
    {
      assert transfers[..i + 1][..i] == transfers[..i];
      total := total + Weight(transfers[i]);
    }
    assert transfers[..|transfers|] == transfers;
  }

  /** The amount paid, split in the invoice's own proportions. */
  method DocumentTaxes(amount: real, transfers: seq<Transfer>) returns (taxes: seq<DocumentTax>)
    requires Divisible(transfers)
    ensures AllWritten(Shares(amount, transfers), transfers, taxes)
  {
    taxes := [];
    if transfers == [] {
      return;
    }
    var total := Weigh(transfers);
    for i := 0 to |transfers|
      invariant |taxes| == i && forall k :: 0 <= k < i ==> taxes[k] == Written(Shares(amount, transfers)[k], transfers[k])
    {
      var t := transfers[i];
      var share := if |transfers| == 1 then amount / (1.0 + RateOf(t)) else Portion(amount, t.base, total);
      assert share == Shares(amount, transfers)[i];
      var base := RoundHalfAway(share);
      taxes := taxes + [DocumentTax(base, TaxOn(base, t))];
    }
  }

  // ----- conservation

  /** Bases and taxes, added up. */
  function Sum(taxes: seq<DocumentTax>): int {
    if taxes == [] then 0
    else
      var last := taxes[|taxes| - 1];
      Sum(taxes[..|taxes| - 1]) + last.base + last.tax.Or(0)
  }

  /** Half a millionth for each rounding: 2 + rate of them for each transfer. */
  function Slack(transfers: seq<Transfer>): real {
    if transfers == [] then 0.0 else Slack(transfers[..|transfers| - 1]) + 0.5 * (2.0 + RateOf(transfers[|transfers| - 1]))
  }

  /** No invoice transfers a negative rate. */
  predicate Sensible(transfers: seq<Transfer>) {
    (forall t :: t in transfers ==> RateOf(t) >= 0.0) && (|transfers| > 1 ==> TotalWeight(transfers) > 0.0)
  }

  lemma ErrorTimes(e: real, rate: real, er: real)
    requires -0.5 <= e <= 0.5 && rate >= 0.0 && er == e * rate
    ensures -(0.5 * rate) <= er <= 0.5 * rate
  {
  }

  /** A share grown by its transfer's rate. */
  function Grown(share: real, t: Transfer): real {
    share * (1.0 + RateOf(t))
  }

  /** One transfer's base and tax are near its share grown by its rate. */
  lemma OneTransfer(share: real, t: Transfer, written: DocumentTax)
    requires RateOf(t) >= 0.0 && written == Written(share, t)
    ensures var slack := 0.5 * (2.0 + RateOf(t));
            -slack <= (written.base + written.tax.Or(0)) as real - Grown(share, t) <= slack
  {
    OneIsWritten(share, t, written);
    ProductNear(share, written.base as real, RateOf(t));
    GrownByProduct(share, t);
  }

  lemma ProductNear(share: real, base: real, rate: real)
    requires -0.5 <= base - share <= 0.5 && rate >= 0.0
    ensures -0.5 * rate <= Product(base, rate) - Product(share, rate) <= 0.5 * rate
  {
    var e := base - share;
    var er := e * rate;
    ErrorTimes(e, rate, er);
    assert er == base * rate - share * rate;
  }

  lemma GrownByProduct(share: real, t: Transfer)
    ensures Grown(share, t) == share + Product(share, RateOf(t))
  {
  }

  function GrownSum(shares: seq<real>, transfers: seq<Transfer>): real
    requires |shares| == |transfers|
  {
    if shares == [] then 0.0
    else
      var n := |shares| - 1;
      GrownSum(shares[..n], transfers[..n]) + Grown(shares[n], transfers[n])
  }

  /** Rounded bases and taxes add up to the grown shares, but for the slack. */
  lemma {:induction false} WrittenNear(shares: seq<real>, transfers: seq<Transfer>, taxes: seq<DocumentTax>)
    requires AllWritten(shares, transfers, taxes) && forall t :: t in transfers ==> RateOf(t) >= 0.0
    ensures -Slack(transfers) <= Sum(taxes) as real - GrownSum(shares, transfers) <= Slack(transfers)
  {
    if shares != [] {
      var n := |shares| - 1;
      assert transfers[n] in transfers;
      forall t | t in transfers[..n] ensures t in transfers {
      }
      WrittenNear(shares[..n], transfers[..n], taxes[..n]);
      OneTransfer(shares[n], transfers[n], taxes[n]);
    }
  }

  // ----- the shares are exact

  function Fraction(x: real, total: real): real
    requires total != 0.0
  {
    x / total
  }

  lemma FractionFacts(amount: real, base: real, growth: real, total: real)
    requires total != 0.0
    ensures Portion(amount, base, total) * growth == amount * Fraction(base * growth, total)
  {
    var f := Fraction(base, total);
    assert f * total == base;
    assert Portion(amount, base, total) == amount * f by {
      assert amount * f * total == amount * base;
    }
    assert Fraction(base * growth, total) == f * growth by {
      assert f * growth * total == base * growth;
    }
  }

  lemma FractionAdds(amount: real, x: real, y: real, total: real)
    requires total != 0.0
    ensures amount * Fraction(x + y, total) == amount * Fraction(x, total) + amount * Fraction(y, total)
  {
    assert Fraction(x + y, total) == Fraction(x, total) + Fraction(y, total);
  }

  lemma {:induction false} SharesOf(amount: real, transfers: seq<Transfer>, shares: seq<real>, total: real)
    requires |shares| == |transfers| && total != 0.0
    requires forall i :: 0 <= i < |shares| ==> shares[i] == Portion(amount, transfers[i].base, total)
    ensures GrownSum(shares, transfers) == amount * Fraction(TotalWeight(transfers), total)
  {
    if shares != [] {
      var n := |shares| - 1;
      SharesOf(amount, transfers[..n], shares[..n], total);
      FractionFacts(amount, transfers[n].base, 1.0 + RateOf(transfers[n]), total);
      FractionAdds(amount, TotalWeight(transfers[..n]), Weight(transfers[n]), total);
    }
  }

  /** Before rounding, the split is exact. */
  lemma SharesAreExact(amount: real, transfers: seq<Transfer>)
    requires transfers != [] && Sensible(transfers)
    ensures GrownSum(Shares(amount, transfers), transfers) == amount
  {
    var shares := Shares(amount, transfers);
    if |transfers| == 1 {
      assert shares[..0] == [] && transfers[..0] == [];
      assert transfers[0] in transfers;
    } else {
      SharesOf(amount, transfers, shares, TotalWeight(transfers));
      assert Fraction(TotalWeight(transfers), TotalWeight(transfers)) == 1.0;
    }
  }

  /** A transfer's part of the amount is to its base as the amount to the bases with their taxes, and so each transfer's
      part is to another's as their bases; a single one is the amount without its tax. */
  lemma SharesAreProportional(amount: real, transfers: seq<Transfer>, i: nat, j: nat)
    requires Divisible(transfers) && i < |transfers| && j < |transfers|
    ensures |transfers| == 1 ==> Grown(Shares(amount, transfers)[i], transfers[i]) == amount
    ensures |transfers| > 1 ==> Product(Shares(amount, transfers)[i], TotalWeight(transfers)) == Product(amount, transfers[i].base)
    ensures |transfers| > 1 ==>
              Product(Shares(amount, transfers)[i], transfers[j].base) == Product(Shares(amount, transfers)[j], transfers[i].base)
  {
    if |transfers| > 1 {
      var total := TotalWeight(transfers);
      PortionOf(amount, transfers[i].base, total);
      PortionOf(amount, transfers[j].base, total);
      CrossProducts(amount, transfers[i].base, transfers[j].base, total, Shares(amount, transfers)[i], Shares(amount, transfers)[j]);
    }
  }

  function Product(a: real, b: real): real {
    a * b
  }

  lemma PortionOf(amount: real, base: real, total: real)
    requires total != 0.0
    ensures Product(Portion(amount, base, total), total) == Product(amount, base)
  {
  }

  lemma CrossProducts(amount: real, a: real, b: real, total: real, x: real, y: real)
    requires total != 0.0 && Product(x, total) == Product(amount, a) && Product(y, total) == Product(amount, b)
    ensures Product(x, b) == Product(y, a)
  {
    assert x * b * total == amount * a * b;
    assert y * a * total == amount * b * a;
    SameTimes(x * b, y * a, total);
  }

  lemma SameTimes(x: real, y: real, total: real)
    requires total != 0.0 && x * total == y * total
    ensures x == y
  {
  }

  /** What is written of each transfer is its part and, unless it is exempt, that rounded part's tax, each to half a
      millionth. */
  lemma EachIsWritten(amount: real, transfers: seq<Transfer>, taxes: seq<DocumentTax>, i: nat)
    requires Divisible(transfers) && AllWritten(Shares(amount, transfers), transfers, taxes) && i < |transfers|
    ensures -0.5 <= taxes[i].base as real - Shares(amount, transfers)[i] <= 0.5
    ensures transfers[i].Exempt? <==> taxes[i].tax.None?
    ensures transfers[i].Rated? ==> -0.5 <= taxes[i].tax.value as real - Product(taxes[i].base as real, transfers[i].rate) <= 0.5
  {
    OneIsWritten(Shares(amount, transfers)[i], transfers[i], taxes[i]);
  }

  lemma OneIsWritten(share: real, t: Transfer, written: DocumentTax)
    requires written == Written(share, t)
    ensures -0.5 <= written.base as real - share <= 0.5
    ensures t.Exempt? <==> written.tax.None?
    ensures t.Rated? ==> -0.5 <= written.tax.value as real - Product(written.base as real, t.rate) <= 0.5
  {
  }

  /** Bases plus taxes add up to the amount paid, within 0.0000005 (2 + rate) for each transfer. */
  lemma SplitConservesTheAmount(amount: real, transfers: seq<Transfer>, taxes: seq<DocumentTax>)
    requires transfers != [] && Sensible(transfers) && AllWritten(Shares(amount, transfers), transfers, taxes)
    ensures -Slack(transfers) <= Sum(taxes) as real - amount <= Slack(transfers)
  {
    SharesAreExact(amount, transfers);
    WrittenNear(Shares(amount, transfers), transfers, taxes);
  }
}
