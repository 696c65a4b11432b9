/** The cap, the freeze and "charged once", kept by one month's close. */
module CommissionCap {
  import opened Outcomes
  import opened Rounding
  import opened CommissionRules
  import opened CommissionLaws

  /** What an order line sold for; it does not change once sold. */
  datatype Terms = Terms(price: real, quantity: real)

  /** The rows of one order line: one key and one pair of rates per (agent, participation), never
      more than the full commission at them, and each refund line charged at most once per key. */
  ghost predicate GoodRows(rows: seq<StoredLine>, t: Terms) {
    && (forall r :: r in rows ==> r.labelRate >= 0.0 && r.participationRate >= 0.0)
    && (forall q, r :: q in rows && r in rows && q.Id() == r.Id() ==> KeyOf(q) == KeyOf(r))
    && (forall r :: r in rows ==> Capped(rows, r, t))
    && (forall id :: RefundsOnce(KeyRows(rows, id)))
  }

  ghost predicate Capped(rows: seq<StoredLine>, r: StoredLine, t: Terms) {
    0 <= SalesSum(KeyRows(rows, r.Id())) <= FullCommission(t.price, t.quantity, KeyOf(r).Rate())
  }

  ghost predicate GoodLedger(stored: seq<StoredLine>, terms: map<int, Terms>) {
    forall d :: RowsOf(stored, d) != [] ==> d in terms && GoodRows(RowsOf(stored, d), terms[d])
  }

  /** New rows of a line that has rows are under keys, names and rates it already has. */
  ghost predicate KeepsKeys(before: seq<StoredLine>, added: seq<StoredLine>) {
    forall r :: r in added && RowsOf(before, r.detail) != [] ==>
      exists q :: q in RowsOf(before, r.detail) && KeyOf(q) == KeyOf(r)
  }

  ghost predicate ValidLine(line: CandidateLine, terms: map<int, Terms>) {
    && line.detail in terms
    && terms[line.detail] == Terms(line.price, line.quantity)
    && line.price >= 0.0 && line.quantity >= 0.0 && line.labelRate >= 0.0
  }

  /** What the queries behind a month guarantee, whatever else they return: one candidate per order
      line, at the terms it sold at; one entry per refund line; no negative rate or applied sum. */
  ghost predicate ValidFacts(f: Facts, terms: map<int, Terms>) {
    && DistinctDetails(f.candidates) && DistinctRefunds(f.refunds)
    && (forall c :: c in f.candidates ==> ValidLine(c, terms))
    && (forall k :: k in f.settings.rates ==> f.settings.rates[k] >= 0.0)
    && (forall o :: o in f.money ==> f.money[o].applied >= 0.0)
  }

  lemma FullNonNegative(price: real, quantity: real, rate: real)
    requires price >= 0.0 && quantity >= 0.0 && rate >= 0.0
    ensures FullCommission(price, quantity, rate) >= 0
  {
    var total := price * quantity;
    assert total >= 0.0;
    assert total * rate >= 0.0;
  }

  lemma DueBounds(f: Facts, line: CandidateLine, key: Key, keyRows: seq<StoredLine>)
    requires line.price >= 0.0 && line.quantity >= 0.0 && key.Rate() >= 0.0
    requires forall o :: o in f.money ==> f.money[o].applied >= 0.0
    ensures var due := SaleDue(f, line, key, keyRows);
            due.Some? ==> 0 <= due.value.amount <= FullCommission(line.price, line.quantity, key.Rate())
  {
    var full := FullCommission(line.price, line.quantity, key.Rate());
    FullNonNegative(line.price, line.quantity, key.Rate());
    if SchemeOf(f.settings, key, keyRows) == PartialPayments && line.salesOrder in f.money {
      var m := f.money[line.salesOrder];
      RoundShare(full, PaidRatio(m));
    }
  }

  lemma DerivedRates(line: CandidateLine, settings: Settings)
    requires line.labelRate >= 0.0
    requires forall k :: k in settings.rates ==> settings.rates[k] >= 0.0
    ensures forall k :: k in DerivedKeys(line, settings) ==> k.labelRate >= 0.0 && k.participationRate >= 0.0
  {
    if line.csp.Some? {
      BranchRates(line, settings, Branches(line));
    }
  }

  lemma {:induction false} BranchRates(line: CandidateLine, settings: Settings, branches: seq<(int, int)>)
    requires line.csp.Some? && line.labelRate >= 0.0
    requires forall k :: k in settings.rates ==> settings.rates[k] >= 0.0
    ensures forall k :: k in KeysOfBranches(line, settings, branches) ==> k.labelRate >= 0.0 && k.participationRate >= 0.0
  {
    if branches != [] {
      BranchRates(line, settings, branches[..|branches| - 1]);
    }
  }

  lemma RateNonNegative(k: Key)
    requires k.labelRate >= 0.0 && k.participationRate >= 0.0
    ensures k.Rate() >= 0.0
  {
  }

  /** Every key a month uses has no negative rate, and is the key of the rows the line has. */
  lemma KeysForRates(f: Facts, line: CandidateLine, terms: map<int, Terms>)
    requires ValidFacts(f, terms) && line in f.candidates && GoodLedger(f.stored, terms)
    ensures forall k :: k in KeysFor(f, line) ==> k.labelRate >= 0.0 && k.participationRate >= 0.0
    ensures var rows := RowsOf(f.stored, line.detail);
            && (forall r :: r in rows ==> KeyOf(r) in KeysFor(f, line))
            && (rows != [] ==> forall k :: k in KeysFor(f, line) ==> exists q :: q in rows && KeyOf(q) == k)
  {
    var rows := RowsOf(f.stored, line.detail);
    FrozenKeysOfRows(rows);
    DerivedRates(line, f.settings);
    if rows != [] {
      forall k | k in KeysFor(f, line) ensures k.labelRate >= 0.0 && k.participationRate >= 0.0 {
        var q :| q in rows && KeyOf(q) == k;
      }
      forall r | r in rows ensures KeyOf(r) in KeysFor(f, line) {
        var k :| k in FrozenKeys(rows) && k.Id() == r.Id();
        var q :| q in rows && KeyOf(q) == k;
        assert q.Id() == r.Id();
      }
    }
  }

  /** One key of one candidate: its sale stays within the cap, its refunds stay charged once. */
  lemma KeyStaysGood(f: Facts, line: CandidateLine, key: Key, terms: map<int, Terms>)
    requires ValidFacts(f, terms) && line in f.candidates && GoodLedger(f.stored, terms)
    requires key in KeysFor(f, line)
    ensures var rows := KeyRows(RowsOf(After(f), line.detail), key.Id());
            && 0 <= SalesSum(rows) <= FullCommission(line.price, line.quantity, key.Rate())
            && RefundsOnce(rows)
  {
    var rows := RowsOf(f.stored, line.detail);
    var before := KeyRowsOf(f, line, key);
    KeysForRates(f, line, terms);
    RateNonNegative(key);
    KeyRowsAfter(f, line, key);
    KeyLinesSum(f, line, key);
    KeyLinesStored(f, line, key);
    DueBounds(f, line, key, before);
    FullNonNegative(line.price, line.quantity, key.Rate());
    KeyRowsMatch(rows, key.Id());
    if before != [] {
      var r := before[0];
      assert r in before && r in rows && r.Id() == key.Id();
      SameKey(f, line, key, r);
      assert Capped(rows, r, terms[line.detail]);
    }
    OnceAppend(before, Stored(KeyLines(f, line, key)));
  }

  /** Two keys of one line with the same agent and participation are one. */
  lemma SameKey(f: Facts, line: CandidateLine, key: Key, r: StoredLine)
    requires key in KeysFor(f, line) && KeyOf(r) in KeysFor(f, line) && r.Id() == key.Id()
    ensures KeyOf(r) == key
  {
    KeysForDistinct(f, line);
    assert KeyOf(r).Id() == key.Id();
  }

  lemma OnceAppend(a: seq<StoredLine>, b: seq<StoredLine>)
    requires RefundsOnce(a) && RefundsOnce(b) && RefundIds(a) !! RefundIds(b)
    ensures RefundsOnce(a + b)
  {
    var c := a + b;
    forall i, j | 0 <= i < j < |c| && c[i].movement == Refund && c[j].movement == Refund
      ensures c[i].refund != c[j].refund
    {
      if i < |a| && j >= |a| {
        assert c[i] in a && c[j] in b;
        assert c[i].refund in RefundIds(a) && c[j].refund in RefundIds(b);
      }
    }
  }

  lemma CandidateStaysGood(f: Facts, line: CandidateLine, terms: map<int, Terms>)
    requires ValidFacts(f, terms) && line in f.candidates && GoodLedger(f.stored, terms)
    ensures GoodRows(RowsOf(After(f), line.detail), terms[line.detail])
    ensures KeepsKeys(f.stored, Stored(CandidateLines(f, line)))
  {
    var rows, out := RowsOf(f.stored, line.detail), Stored(CandidateLines(f, line));
    var after := RowsOf(After(f), line.detail);
    RowsAfter(f, line);
    KeysForRates(f, line, terms);
    LinesUnderKeys(f, line, KeysFor(f, line));
    forall r | r in after
      ensures KeyOf(r) in KeysFor(f, line) && r.labelRate >= 0.0 && r.participationRate >= 0.0
      ensures Capped(after, r, terms[line.detail])
    {
      assert r in rows || r in out;
      KeyStaysGood(f, line, KeyOf(r), terms);
    }
    forall q, r | q in after && r in after && q.Id() == r.Id() ensures KeyOf(q) == KeyOf(r) {
      SameKey(f, line, KeyOf(q), r);
    }
    forall id ensures RefundsOnce(KeyRows(after, id)) {
      if HasId(KeysFor(f, line), id) {
        var k :| k in KeysFor(f, line) && k.Id() == id;
        KeyStaysGood(f, line, k, terms);
      } else {
        KeyRowsMatch(after, id);
        forall r | r in after ensures r.Id() != id {
          assert KeyOf(r).Id() == r.Id();
        }
        KeyRowsAll(after, id);
      }
    }
  }

  lemma DetailStaysGood(f: Facts, terms: map<int, Terms>, d: int)
    requires ValidFacts(f, terms) && GoodLedger(f.stored, terms)
    ensures RowsOf(After(f), d) != [] ==> d in terms && GoodRows(RowsOf(After(f), d), terms[d])
    ensures KeepsKeys(f.stored, RowsOf(Stored(MonthLines(f)), d))
  {
    var added := Stored(MonthLines(f));
    MonthRows(f, f.candidates, d);
    if line :| line in f.candidates && line.detail == d {
      CandidateStaysGood(f, line, terms);
    } else {
      assert RowsOf(added, d) == [];
      RowsOfAppend(f.stored, added, d);
      assert RowsOf(After(f), d) == RowsOf(f.stored, d);
    }
  }

  /** A month's close keeps the cap, the single charge of refunds and the frozen keys, whatever
      payments, reversals, refunds, rates and schemes the month finds. */
  lemma CloseKeepsLedgerGood(f: Facts, terms: map<int, Terms>)
    requires ValidFacts(f, terms) && GoodLedger(f.stored, terms)
    ensures GoodLedger(f.stored + Stored(MonthLines(f)), terms)
    ensures KeepsKeys(f.stored, Stored(MonthLines(f)))
  {
    forall d | RowsOf(After(f), d) != []
      ensures d in terms && GoodRows(RowsOf(After(f), d), terms[d])
    {
      DetailStaysGood(f, terms, d);
    }
    forall r | r in Stored(MonthLines(f)) && RowsOf(f.stored, r.detail) != []
      ensures exists q :: q in RowsOf(f.stored, r.detail) && KeyOf(q) == KeyOf(r)
    {
      DetailStaysGood(f, terms, r.detail);
      RowsOfMatch(Stored(MonthLines(f)), r.detail);
    }
  }
}
