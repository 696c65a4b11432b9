/** What one month's computation does to the ledger it reads: the cap, the key freeze, refunds
    charged once, and that a month computed again owes nothing more. */
module CommissionLaws {
  import opened Outcomes
  import opened Rounding
  import opened CommissionRules

  // ----- queries and appended rows

  lemma {:induction false} RowsOfAppend(a: seq<StoredLine>, b: seq<StoredLine>, detail: int)
    ensures RowsOf(a + b, detail) == RowsOf(a, detail) + RowsOf(b, detail)
  {
    if b == [] {
      assert a + b == a;
    } else {
      assert (a + b)[..|a + b| - 1] == a + b[..|b| - 1];
      RowsOfAppend(a, b[..|b| - 1], detail);
    }
  }

  lemma {:induction false} KeyRowsAppend(a: seq<StoredLine>, b: seq<StoredLine>, id: (int, int))
    ensures KeyRows(a + b, id) == KeyRows(a, id) + KeyRows(b, id)
  {
    if b == [] {
      assert a + b == a;
    } else {
      assert (a + b)[..|a + b| - 1] == a + b[..|b| - 1];
      KeyRowsAppend(a, b[..|b| - 1], id);
    }
  }

  lemma {:induction false} SalesSumAppend(a: seq<StoredLine>, b: seq<StoredLine>)
    ensures SalesSum(a + b) == SalesSum(a) + SalesSum(b)
  {
    if b == [] {
      assert a + b == a;
    } else {
      assert (a + b)[..|a + b| - 1] == a + b[..|b| - 1];
      SalesSumAppend(a, b[..|b| - 1]);
    }
  }

  lemma {:induction false} StoredAppend(a: seq<ComputedLine>, b: seq<ComputedLine>)
    ensures Stored(a + b) == Stored(a) + Stored(b)
  {
    if b == [] {
      assert a + b == a;
    } else {
      assert (a + b)[..|a + b| - 1] == a + b[..|b| - 1];
      StoredAppend(a, b[..|b| - 1]);
    }
  }

  /** The rows a query finds are rows of the table that match. */
  lemma {:induction false} RowsOfMatch(rows: seq<StoredLine>, detail: int)
    ensures forall r :: r in RowsOf(rows, detail) <==> r in rows && r.detail == detail
  {
    if rows != [] {
      RowsOfMatch(rows[..|rows| - 1], detail);
    }
  }

  lemma {:induction false} KeyRowsMatch(rows: seq<StoredLine>, id: (int, int))
    ensures forall r :: r in KeyRows(rows, id) <==> r in rows && r.Id() == id
  {
    if rows != [] {
      KeyRowsMatch(rows[..|rows| - 1], id);
    }
  }

  lemma {:induction false} KeyRowsAll(rows: seq<StoredLine>, id: (int, int))
    ensures (forall r :: r in rows ==> r.Id() == id) ==> KeyRows(rows, id) == rows
    ensures (forall r :: r in rows ==> r.Id() != id) ==> KeyRows(rows, id) == []
  {
    if rows != [] {
      var rest, last := rows[..|rows| - 1], rows[|rows| - 1];
      KeyRowsAll(rest, id);
      assert rows == rest + [last] && last in rows && forall r :: r in rest ==> r in rows;
    }
  }

  lemma {:induction false} RowsOfAll(rows: seq<StoredLine>, detail: int)
    ensures (forall r :: r in rows ==> r.detail == detail) ==> RowsOf(rows, detail) == rows
    ensures (forall r :: r in rows ==> r.detail != detail) ==> RowsOf(rows, detail) == []
  {
    if rows != [] {
      var rest, last := rows[..|rows| - 1], rows[|rows| - 1];
      RowsOfAll(rest, detail);
      assert rows == rest + [last] && last in rows && forall r :: r in rest ==> r in rows;
    }
  }

  // ----- the lines of one key

  /** All rows are of one order line and one key. */
  ghost predicate Belong(rows: seq<StoredLine>, detail: int, key: Key) {
    forall r :: r in rows ==> r.detail == detail && KeyOf(r) == key
  }

  lemma StoredOne(line: ComputedLine)
    ensures Stored([line]) == [FromComputed(line)]
    ensures SalesSum(Stored([line])) == if line.movement == Sale then line.commission else 0
  {
    assert [line][..0] == [];
    assert [FromComputed(line)][..0] == [];
  }

  /** The sale commission a key should hold after the month: what it is due by now, or what it had
      when the month does not look at its sale. */
  ghost function DueAfter(f: Facts, line: CandidateLine, key: Key, keyRows: seq<StoredLine>): int {
    match SaleDue(f, line, key, keyRows)
    case None => SalesSum(keyRows)
    case Some(due) => due.amount
  }

  /** A key's sale is at most one line; it brings what is stored to exactly what is due. */
  lemma SaleStored(f: Facts, line: CandidateLine, key: Key, keyRows: seq<StoredLine>)
    ensures var out := Stored(SaleLines(f, line, key, keyRows));
            && Belong(out, line.detail, key) && RefundIds(out) == {}
            && (forall r :: r in out ==>
                  r.scheme == SchemeOf(f.settings, key, keyRows) && r.movement == Sale)
            && SalesSum(keyRows) + SalesSum(out) == DueAfter(f, line, key, keyRows)
            && (HasSale(out) ==> SaleDue(f, line, key, keyRows).Some?)
  {
    var lines := SaleLines(f, line, key, keyRows);
    if lines != [] {
      assert lines == [lines[0]];
      StoredOne(lines[0]);
    }
  }

  ghost predicate DistinctRefunds(refunds: seq<RefundLine>) {
    forall i, j :: 0 <= i < j < |refunds| ==> refunds[i].id != refunds[j].id
  }

  /** No refund line is charged twice among these rows. */
  ghost predicate RefundsOnce(rows: seq<StoredLine>) {
    forall i, j :: 0 <= i < j < |rows| && rows[i].movement == Refund && rows[j].movement == Refund ==>
      rows[i].refund != rows[j].refund
  }

  /** Rows of refunds not stored before, each of a refund line of the order line. */
  ghost predicate Charges(rows: seq<StoredLine>, f: Facts, line: CandidateLine, key: Key, keyRows: seq<StoredLine>, refunds: seq<RefundLine>) {
    forall r :: r in rows ==>
      && r.movement == Refund && r.scheme == SchemeOf(f.settings, key, keyRows)
      && r.refund !in RefundIds(keyRows)
      && exists x :: x in refunds && r.refund == Some(x.id)
  }

  lemma ChargeStored(f: Facts, line: CandidateLine, key: Key, keyRows: seq<StoredLine>, r: RefundLine)
    ensures var out := Stored(RefundCharge(f, line, key, keyRows, r));
            && |out| <= 1 && Belong(out, line.detail, key) && SalesSum(out) == 0
            && Charges(out, f, line, key, keyRows, [r])
            && (out != [] ==> out[0].movement == Refund && out[0].refund == Some(r.id))
            && (RefundCounts(f, line, key, keyRows, r) ==>
                  out != [] || FullCommission(r.price, r.quantity, key.Rate()) == 0)
  {
    var lines := RefundCharge(f, line, key, keyRows, r);
    if lines != [] {
      StoredOne(lines[0]);
      assert lines == [lines[0]];
      assert r in [r];
    }
  }

  lemma {:induction false} RefundsStored(f: Facts, line: CandidateLine, key: Key, keyRows: seq<StoredLine>, refunds: seq<RefundLine>)
    ensures var out := Stored(RefundLines(f, line, key, keyRows, refunds));
            && Belong(out, line.detail, key) && SalesSum(out) == 0
            && Charges(out, f, line, key, keyRows, refunds)
            && (DistinctRefunds(refunds) ==> RefundsOnce(out))
  {
    if refunds != [] {
      var rest, last := refunds[..|refunds| - 1], refunds[|refunds| - 1];
      RefundsStored(f, line, key, keyRows, rest);
      ChargeStored(f, line, key, keyRows, last);
      StoredAppend(RefundLines(f, line, key, keyRows, rest), RefundCharge(f, line, key, keyRows, last));
      assert refunds == rest + [last];
      ChargesJoin(Stored(RefundLines(f, line, key, keyRows, rest)), Stored(RefundCharge(f, line, key, keyRows, last)),
                  f, line, key, keyRows, rest, last);
    }
  }

  lemma ChargesJoin(a: seq<StoredLine>, b: seq<StoredLine>, f: Facts, line: CandidateLine, key: Key, keyRows: seq<StoredLine>,
                    rest: seq<RefundLine>, last: RefundLine)
    requires Belong(a, line.detail, key) && Belong(b, line.detail, key) && SalesSum(a) == 0 && SalesSum(b) == 0
    requires Charges(a, f, line, key, keyRows, rest) && Charges(b, f, line, key, keyRows, [last])
    requires |b| <= 1 && (b != [] ==> b[0].refund == Some(last.id))
    requires DistinctRefunds(rest) ==> RefundsOnce(a)
    ensures Belong(a + b, line.detail, key) && SalesSum(a + b) == 0
    ensures Charges(a + b, f, line, key, keyRows, rest + [last])
    ensures DistinctRefunds(rest + [last]) ==> RefundsOnce(a + b)
  {
    SalesSumAppend(a, b);
    if DistinctRefunds(rest + [last]) {
      DistinctPrefix(rest, last);
      ChargedOnce(a, b, rest, last);
    }
  }

  lemma DistinctPrefix(rest: seq<RefundLine>, last: RefundLine)
    requires DistinctRefunds(rest + [last])
    ensures DistinctRefunds(rest)
  {
    forall i, j | 0 <= i < j < |rest| ensures rest[i].id != rest[j].id {
      assert (rest + [last])[i] == rest[i] && (rest + [last])[j] == rest[j];
    }
  }

  lemma ChargedOnce(a: seq<StoredLine>, b: seq<StoredLine>, rest: seq<RefundLine>, last: RefundLine)
    requires RefundsOnce(a) && |b| <= 1 && (b != [] ==> b[0].refund == Some(last.id))
    requires forall r :: r in a ==> exists x :: x in rest && r.refund == Some(x.id)
    requires DistinctRefunds(rest + [last])
    ensures RefundsOnce(a + b)
  {
    forall r | r in a ensures r.refund != Some(last.id) {
      var x :| x in rest && r.refund == Some(x.id);
      var i :| 0 <= i < |rest| && rest[i] == x;
      assert (rest + [last])[i] == x && (rest + [last])[|rest|] == last;
    }
  }

  /** Every refund due is among the rows stored, unless it earned nothing. */
  lemma {:induction false} RefundsComplete(f: Facts, line: CandidateLine, key: Key, keyRows: seq<StoredLine>, refunds: seq<RefundLine>, r: RefundLine)
    requires r in refunds && RefundCounts(f, line, key, keyRows, r)
    requires FullCommission(r.price, r.quantity, key.Rate()) != 0
    ensures Some(r.id) in RefundIds(Stored(RefundLines(f, line, key, keyRows, refunds)))
  {
    var rest, last := refunds[..|refunds| - 1], refunds[|refunds| - 1];
    var a, b := RefundLines(f, line, key, keyRows, rest), RefundCharge(f, line, key, keyRows, last);
    StoredAppend(a, b);
    if r == last {
      ChargeStored(f, line, key, keyRows, last);
      assert Stored(b)[0] in Stored(a) + Stored(b);
    } else {
      RefundsComplete(f, line, key, keyRows, rest, r);
      var row :| row in Stored(a) && row.movement == Refund && row.refund == Some(r.id);
      assert row in Stored(a) + Stored(b);
    }
  }

  lemma {:induction false} RefundsOfMatch(refunds: seq<RefundLine>, detail: int)
    ensures forall r :: r in RefundsOf(refunds, detail) <==> r in refunds && r.detail == detail
    ensures DistinctRefunds(refunds) ==> DistinctRefunds(RefundsOf(refunds, detail))
  {
    if refunds != [] {
      var rest, last := refunds[..|refunds| - 1], refunds[|refunds| - 1];
      RefundsOfMatch(rest, detail);
      if DistinctRefunds(refunds) {
        forall r | r in RefundsOf(rest, detail) ensures r.id != last.id {
          var i :| 0 <= i < |rest| && rest[i] == r;
        }
      }
    }
  }

  /** The rows one key of one order line adds to what it has. */
  ghost function KeyRowsOf(f: Facts, line: CandidateLine, key: Key): seq<StoredLine> {
    KeyRows(RowsOf(f.stored, line.detail), key.Id())
  }

  lemma KeyLinesSum(f: Facts, line: CandidateLine, key: Key)
    ensures var before, out := KeyRowsOf(f, line, key), Stored(KeyLines(f, line, key));
            SalesSum(before + out) == DueAfter(f, line, key, before)
  {
    var before := KeyRowsOf(f, line, key);
    var refunds := RefundsOf(f.refunds, line.detail);
    var sale, charged := SaleLines(f, line, key, before), RefundLines(f, line, key, before, refunds);
    SaleStored(f, line, key, before);
    RefundsStored(f, line, key, before, refunds);
    StoredAppend(sale, charged);
    SalesSumAppend(Stored(sale), Stored(charged));
    SalesSumAppend(before, Stored(sale) + Stored(charged));
  }

  lemma KeyLinesStored(f: Facts, line: CandidateLine, key: Key)
    ensures var before, out := KeyRowsOf(f, line, key), Stored(KeyLines(f, line, key));
            && Belong(out, line.detail, key)
            && (forall r :: r in out ==> r.scheme == SchemeOf(f.settings, key, before))
            && RefundIds(out) !! RefundIds(before)
            && (DistinctRefunds(f.refunds) ==> RefundsOnce(out))
            && (HasSale(out) ==> SaleDue(f, line, key, before).Some?)
  {
    var before := KeyRowsOf(f, line, key);
    var refunds := RefundsOf(f.refunds, line.detail);
    var sale, charged := SaleLines(f, line, key, before), RefundLines(f, line, key, before, refunds);
    SaleStored(f, line, key, before);
    RefundsStored(f, line, key, before, refunds);
    RefundsOfMatch(f.refunds, line.detail);
    StoredAppend(sale, charged);
    SaleThenCharges(Stored(sale), Stored(charged), f, line, key, before, refunds);
  }

  lemma SaleThenCharges(sale: seq<StoredLine>, charged: seq<StoredLine>, f: Facts, line: CandidateLine, key: Key,
                        before: seq<StoredLine>, refunds: seq<RefundLine>)
    requires Charges(charged, f, line, key, before, refunds)
    requires forall r :: r in sale ==> r.movement == Sale
    ensures RefundIds(sale + charged) !! RefundIds(before)
    ensures RefundsOnce(charged) ==> RefundsOnce(sale + charged)
    ensures HasSale(sale + charged) ==> HasSale(sale)
  {
  }

  // ----- the lines of one candidate

  ghost predicate DistinctIds(keys: seq<Key>) {
    forall i, j :: 0 <= i < j < |keys| ==> keys[i].Id() != keys[j].Id()
  }

  /** Every row of a candidate is under one of its keys. */
  lemma {:induction false} LinesUnderKeys(f: Facts, line: CandidateLine, keys: seq<Key>)
    ensures forall r :: r in Stored(LinesOfKeys(f, line, keys)) ==> r.detail == line.detail && KeyOf(r) in keys
  {
    if keys != [] {
      var rest, last := keys[..|keys| - 1], keys[|keys| - 1];
      LinesUnderKeys(f, line, rest);
      KeyLinesStored(f, line, last);
      StoredAppend(LinesOfKeys(f, line, rest), KeyLines(f, line, last));
      assert forall k :: k in rest || k == last ==> k in keys;
    }
  }

  /** Each key's rows are found again under it, and there are no others. */
  lemma {:induction false} LinesByKey(f: Facts, line: CandidateLine, keys: seq<Key>, id: (int, int))
    requires DistinctIds(keys)
    ensures var out := Stored(LinesOfKeys(f, line, keys));
            && (forall k :: k in keys && k.Id() == id ==> KeyRows(out, id) == Stored(KeyLines(f, line, k)))
            && (!HasId(keys, id) ==> KeyRows(out, id) == [])
  {
    if keys != [] {
      var rest, last := keys[..|keys| - 1], keys[|keys| - 1];
      LinesByKey(f, line, rest, id);
      KeyRowsOfLast(f, line, rest, last, id);
      assert forall k :: k in keys <==> k in rest || k == last;
      if last.Id() == id {
        assert !HasId(rest, id);
      }
    }
  }

  lemma KeyRowsOfLast(f: Facts, line: CandidateLine, rest: seq<Key>, last: Key, id: (int, int))
    ensures KeyRows(Stored(LinesOfKeys(f, line, rest) + KeyLines(f, line, last)), id)
         == KeyRows(Stored(LinesOfKeys(f, line, rest)), id)
            + if last.Id() == id then Stored(KeyLines(f, line, last)) else []
  {
    var a, b := Stored(LinesOfKeys(f, line, rest)), Stored(KeyLines(f, line, last));
    KeyLinesStored(f, line, last);
    StoredAppend(LinesOfKeys(f, line, rest), KeyLines(f, line, last));
    KeyRowsAppend(a, b, id);
    forall r | r in b ensures r.Id() == last.Id() {
      assert KeyOf(r) == last;
    }
    KeyRowsAll(b, id);
  }

  lemma {:induction false} FrozenKeysOfRows(rows: seq<StoredLine>)
    ensures DistinctIds(FrozenKeys(rows))
    ensures forall k :: k in FrozenKeys(rows) ==> exists r :: r in rows && KeyOf(r) == k
    ensures forall r :: r in rows ==> HasId(FrozenKeys(rows), r.Id())
  {
    if rows != [] {
      var rest, last := rows[..|rows| - 1], rows[|rows| - 1];
      FrozenKeysOfRows(rest);
      forall k | k in FrozenKeys(rows) ensures exists r :: r in rows && KeyOf(r) == k {
        if k in FrozenKeys(rest) {
          var r :| r in rest && KeyOf(r) == k;
          assert r in rows;
        } else {
          assert last in rows && KeyOf(last) == k;
        }
      }
      forall r | r in rows ensures HasId(FrozenKeys(rows), r.Id()) {
        if r in rest {
          var k :| k in FrozenKeys(rest) && k.Id() == r.Id();
          assert k in FrozenKeys(rows);
        } else if !HasId(FrozenKeys(rest), last.Id()) {
          assert KeyOf(last) in FrozenKeys(rows);
        }
      }
    }
  }

  /** Rows under keys already frozen freeze nothing new. */
  lemma {:induction false} FrozenKeysStay(rows: seq<StoredLine>, more: seq<StoredLine>)
    requires forall r :: r in more ==> HasId(FrozenKeys(rows), r.Id())
    ensures FrozenKeys(rows + more) == FrozenKeys(rows)
  {
    if more == [] {
      assert rows + more == rows;
    } else {
      assert (rows + more)[..|rows + more| - 1] == rows + more[..|more| - 1];
      FrozenKeysStay(rows, more[..|more| - 1]);
    }
  }

  lemma DerivedKeysDistinct(line: CandidateLine, settings: Settings)
    ensures DistinctIds(DerivedKeys(line, settings))
  {
    if line.csp.Some? {
      var branches := Branches(line);
      assert branches[..0] == [];
      assert KeysOfBranches(line, settings, branches[..1]) == BranchKey(line, settings, branches[0]) by {
        assert branches[..1][..0] == [];
      }
      if |branches| == 2 {
        assert branches[..2][..1] == branches[..1];
        assert branches[..2] == branches;
      } else {
        assert branches[..1] == branches;
      }
    }
  }

  lemma KeysForDistinct(f: Facts, line: CandidateLine)
    ensures DistinctIds(KeysFor(f, line))
  {
    FrozenKeysOfRows(RowsOf(f.stored, line.detail));
    DerivedKeysDistinct(line, f.settings);
  }

  // ----- the month

  ghost predicate DistinctDetails(candidates: seq<CandidateLine>) {
    forall i, j :: 0 <= i < j < |candidates| ==> candidates[i].detail != candidates[j].detail
  }

  /** One more candidate's rows are all of its own order line. */
  lemma NextRows(f: Facts, lines: seq<ComputedLine>, c: CandidateLine, detail: int)
    ensures RowsOf(Stored(lines + CandidateLines(f, c)), detail)
         == RowsOf(Stored(lines), detail) + if c.detail == detail then Stored(CandidateLines(f, c)) else []
  {
    var more := CandidateLines(f, c);
    KeysForDistinct(f, c);
    LinesUnderKeys(f, c, KeysFor(f, c));
    StoredAppend(lines, more);
    RowsOfAppend(Stored(lines), Stored(more), detail);
    RowsOfAll(Stored(more), detail);
  }

  /** What a month stores for an order line is what its one candidate owes. */
  lemma {:induction false} MonthRows(f: Facts, candidates: seq<CandidateLine>, detail: int)
    requires DistinctDetails(candidates)
    ensures var out := Stored(LinesOfCandidates(f, candidates));
            && (forall c :: c in candidates && c.detail == detail ==>
                  RowsOf(out, detail) == Stored(CandidateLines(f, c)))
            && ((forall c :: c in candidates ==> c.detail != detail) ==> RowsOf(out, detail) == [])
  {
    if candidates != [] {
      var rest, last := candidates[..|candidates| - 1], candidates[|candidates| - 1];
      MonthRows(f, rest, detail);
      NextRows(f, LinesOfCandidates(f, rest), last, detail);
      assert forall c :: c in candidates <==> c in rest || c == last;
      if last.detail == detail {
        forall c | c in rest ensures c.detail != detail {
          var i :| 0 <= i < |rest| && rest[i] == c;
        }
      }
    }
  }

  /** The ledger after a month's close. */
  ghost function After(f: Facts): seq<StoredLine> {
    f.stored + Stored(MonthLines(f))
  }

  lemma RowsAfter(f: Facts, line: CandidateLine)
    requires DistinctDetails(f.candidates) && line in f.candidates
    ensures RowsOf(After(f), line.detail) == RowsOf(f.stored, line.detail) + Stored(CandidateLines(f, line))
  {
    RowsOfAppend(f.stored, Stored(MonthLines(f)), line.detail);
    MonthRows(f, f.candidates, line.detail);
  }

  /** The rows of one key after a month: what it had and what it owed. */
  lemma KeyRowsAfter(f: Facts, line: CandidateLine, key: Key)
    requires DistinctDetails(f.candidates) && line in f.candidates && key in KeysFor(f, line)
    ensures KeyRows(RowsOf(After(f), line.detail), key.Id())
         == KeyRowsOf(f, line, key) + Stored(KeyLines(f, line, key))
  {
    RowsAfter(f, line);
    KeysForDistinct(f, line);
    LinesByKey(f, line, KeysFor(f, line), key.Id());
    KeyRowsAppend(RowsOf(f.stored, line.detail), Stored(CandidateLines(f, line)), key.Id());
  }

  /** A key a month looks at holds afterwards exactly what it is due by now: the sale commissions
      of all its months add up to it, whatever was stored before. */
  lemma ExactlyDue(f: Facts, line: CandidateLine, key: Key)
    requires DistinctDetails(f.candidates) && line in f.candidates && key in KeysFor(f, line)
    ensures var due := SaleDue(f, line, key, KeyRowsOf(f, line, key));
            SalesSum(KeyRows(RowsOf(After(f), line.detail), key.Id()))
            == if due.Some? then due.value.amount else SalesSum(KeyRowsOf(f, line, key))
  {
    KeyRowsAfter(f, line, key);
    KeyLinesSum(f, line, key);
  }

  // ----- a month computed again

  lemma KeysAfter(f: Facts, line: CandidateLine, key: Key)
    requires DistinctDetails(f.candidates) && line in f.candidates
    requires key in KeysFor(f.(stored := After(f)), line)
    ensures key in KeysFor(f, line)
  {
    var rows, out := RowsOf(f.stored, line.detail), Stored(CandidateLines(f, line));
    RowsAfter(f, line);
    KeysForDistinct(f, line);
    LinesUnderKeys(f, line, KeysFor(f, line));
    if rows != [] {
      forall r | r in out ensures HasId(FrozenKeys(rows), r.Id()) {
        assert KeyOf(r) in FrozenKeys(rows) && KeyOf(r).Id() == r.Id();
      }
      FrozenKeysStay(rows, out);
    } else {
      assert rows + out == out;
      FrozenKeysOfRows(out);
    }
  }

  lemma SchemeAfter(f: Facts, line: CandidateLine, key: Key)
    ensures var before := KeyRowsOf(f, line, key);
            SchemeOf(f.settings, key, before + Stored(KeyLines(f, line, key))) == SchemeOf(f.settings, key, before)
  {
    var before, out := KeyRowsOf(f, line, key), Stored(KeyLines(f, line, key));
    KeyLinesStored(f, line, key);
    if out != [] {
      assert (before + out)[|before + out| - 1] == out[|out| - 1];
      assert out[|out| - 1] in out;
    } else {
      assert before + out == before;
    }
  }

  /** With its own rows stored, a key is due nothing more on its sale. */
  lemma SaleSettled(f: Facts, line: CandidateLine, key: Key)
    ensures var before := KeyRowsOf(f, line, key);
            SaleLines(f, line, key, before + Stored(KeyLines(f, line, key))) == []
  {
    var before, out := KeyRowsOf(f, line, key), Stored(KeyLines(f, line, key));
    KeyLinesStored(f, line, key);
    KeyLinesSum(f, line, key);
    SchemeAfter(f, line, key);
    var due := SaleDue(f, line, key, before);
    var again := SaleDue(f, line, key, before + out);
    if again.Some? {
      assert due.Some? && again.value.amount == due.value.amount;
      if FullCommission(line.price, line.quantity, key.Rate()) == 0 {
        SaleListed(f, line, key, before);
      }
    }
  }

  /** A sale earning nothing is listed once. */
  lemma SaleListed(f: Facts, line: CandidateLine, key: Key, keyRows: seq<StoredLine>)
    requires keyRows == KeyRowsOf(f, line, key)
    requires SaleDue(f, line, key, keyRows).Some?
    requires FullCommission(line.price, line.quantity, key.Rate()) == 0
    ensures HasSale(keyRows + Stored(KeyLines(f, line, key)))
  {
    var sale := SaleLines(f, line, key, keyRows);
    var charged := RefundLines(f, line, key, keyRows, RefundsOf(f.refunds, line.detail));
    StoredAppend(sale, charged);
    if !HasSale(keyRows) {
      assert sale == [sale[0]];
      StoredOne(sale[0]);
      assert FromComputed(sale[0]) in Stored(sale);
    }
  }

  lemma RefundSettled(f: Facts, line: CandidateLine, key: Key, r: RefundLine)
    requires r in RefundsOf(f.refunds, line.detail)
    ensures RefundCharge(f, line, key, KeyRowsOf(f, line, key) + Stored(KeyLines(f, line, key)), r) == []
  {
    var before, out := KeyRowsOf(f, line, key), Stored(KeyLines(f, line, key));
    KeyLinesStored(f, line, key);
    SchemeAfter(f, line, key);
    var refunds := RefundsOf(f.refunds, line.detail);
    var sale, charged := SaleLines(f, line, key, before), RefundLines(f, line, key, before, refunds);
    StoredAppend(sale, charged);
    if RefundCounts(f, line, key, before + out, r) && FullCommission(r.price, r.quantity, key.Rate()) != 0 {
      assert RefundCounts(f, line, key, before, r);
      RefundsComplete(f, line, key, before, refunds, r);
      assert false;
    }
  }

  lemma {:induction false} RefundsSettled(f: Facts, line: CandidateLine, key: Key, refunds: seq<RefundLine>)
    requires forall r :: r in refunds ==> r in RefundsOf(f.refunds, line.detail)
    ensures RefundLines(f, line, key, KeyRowsOf(f, line, key) + Stored(KeyLines(f, line, key)), refunds) == []
  {
    if refunds != [] {
      RefundsSettled(f, line, key, refunds[..|refunds| - 1]);
      RefundSettled(f, line, key, refunds[|refunds| - 1]);
    }
  }

  lemma KeySettled(f: Facts, line: CandidateLine, key: Key)
    requires DistinctDetails(f.candidates) && line in f.candidates && key in KeysFor(f, line)
    ensures KeyLines(f.(stored := After(f)), line, key) == []
  {
    var again := f.(stored := After(f));
    var keyRows := KeyRows(RowsOf(again.stored, line.detail), key.Id());
    var refunds := RefundsOf(f.refunds, line.detail);
    KeyRowsAfter(f, line, key);
    SaleSettled(f, line, key);
    RefundsSettled(f, line, key, refunds);
    SameRefunds(f, again, line, key, keyRows, refunds);
  }

  lemma {:induction false} SameRefunds(f: Facts, g: Facts, line: CandidateLine, key: Key, keyRows: seq<StoredLine>, refunds: seq<RefundLine>)
    requires g == f.(stored := g.stored)
    ensures RefundLines(g, line, key, keyRows, refunds) == RefundLines(f, line, key, keyRows, refunds)
  {
    if refunds != [] {
      SameRefunds(f, g, line, key, keyRows, refunds[..|refunds| - 1]);
    }
  }

  lemma {:induction false} CandidateSettled(f: Facts, line: CandidateLine, keys: seq<Key>)
    requires DistinctDetails(f.candidates) && line in f.candidates
    requires forall k :: k in keys ==> k in KeysFor(f, line)
    ensures LinesOfKeys(f.(stored := After(f)), line, keys) == []
  {
    if keys != [] {
      CandidateSettled(f, line, keys[..|keys| - 1]);
      KeySettled(f, line, keys[|keys| - 1]);
    }
  }

  lemma {:induction false} CandidatesSettled(f: Facts, candidates: seq<CandidateLine>)
    requires DistinctDetails(f.candidates)
    requires forall c :: c in candidates ==> c in f.candidates
    ensures LinesOfCandidates(f.(stored := After(f)), candidates) == []
  {
    if candidates != [] {
      var last := candidates[|candidates| - 1];
      CandidatesSettled(f, candidates[..|candidates| - 1]);
      var keys := KeysFor(f.(stored := After(f)), last);
      forall k | k in keys ensures k in KeysFor(f, last) {
        KeysAfter(f, last, k);
      }
      CandidateSettled(f, last, keys);
    }
  }

  /** A month computed again on the same facts, its own lines among the stored ones, owes nothing:
      in both schemes, for listings at zero, for late pick-ups, and when keys derived the first
      time are frozen the second. */
  lemma MonthAgainOwesNothing(f: Facts)
    requires DistinctDetails(f.candidates)
    ensures MonthLines(f.(stored := f.stored + Stored(MonthLines(f)))) == []
  {
    CandidatesSettled(f, f.candidates);
  }
}
