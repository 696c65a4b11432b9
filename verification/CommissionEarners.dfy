/** Who earns on an order line, as what and how much, said of the line and the settings alone, and carried to the
    rows a month stores for a line it sees for the first time. */
module CommissionEarners {
  import opened Outcomes
  import opened Rounding
  import opened CommissionRules
  import opened CommissionLaws

  // ----- who earns

  /** A customer's own salesperson who also made the sale earns once, for the lifetime customer (participation 1).
      Otherwise who made the sale earns for channelling it (2), and the customer's salesperson for the field service
      (3); only agents earn. */
  predicate Earns(line: CandidateLine, settings: Settings, agent: int, participation: int) {
    && line.csp.Some? && agent in settings.agents
    && if line.csp.value == line.osp then agent == line.osp && participation == 1
       else || (agent == line.osp && participation == 2)
            || (agent == line.csp.value && participation == 3)
  }

  /** The agent's share for a label and a participation, as the settings have it today. */
  function ShareToday(line: CandidateLine, settings: Settings, agent: int, participation: int): real {
    if line.labelId.Some? && (agent, line.labelId.value, participation) in settings.rates
    then settings.rates[(agent, line.labelId.value, participation)] else 0.0
  }

  function LabelToday(line: CandidateLine): real {
    if line.labelId.None? then 0.0 else line.labelRate
  }

  predicate KeyToday(line: CandidateLine, settings: Settings, k: Key) {
    && Earns(line, settings, k.agent, k.participation)
    && k.participationRate == ShareToday(line, settings, k.agent, k.participation) && k.labelRate == LabelToday(line)
    && k.labelId == line.labelId && k.labelName == line.labelName && Some(k.customerSalesperson) == line.csp
    && k.participationName == if k.participation in settings.participations then settings.participations[k.participation] else ""
  }

  lemma TwoBranches(line: CandidateLine, settings: Settings)
    requires line.csp.Some?
    ensures DerivedKeys(line, settings)
         == if line.csp.value == line.osp then BranchKey(line, settings, (line.osp, LIFETIME_CUSTOMER))
            else BranchKey(line, settings, (line.osp, CHANNELLING)) + BranchKey(line, settings, (line.csp.value, FIELD_SERVICE))
  {
    var branches := Branches(line);
    assert branches[..0] == [] && branches[..1][..0] == [];
    assert KeysOfBranches(line, settings, branches[..1]) == BranchKey(line, settings, branches[0]);
    if |branches| == 2 {
      assert branches[..2] == branches && branches[..2][..1] == branches[..1];
    } else {
      assert branches[..1] == branches;
    }
  }

  lemma BranchKeyIs(line: CandidateLine, settings: Settings, agent: int, participation: int)
    requires line.csp.Some? && (agent in settings.agents ==> Earns(line, settings, agent, participation))
    ensures var keys := BranchKey(line, settings, (agent, participation));
            && (forall k :: k in keys ==> KeyToday(line, settings, k))
            && (agent in settings.agents <==> HasId(keys, (agent, participation)))
            && (forall k :: k in keys ==> k.Id() == (agent, participation)) && |keys| <= 1
  {
    var keys := BranchKey(line, settings, (agent, participation));
    if agent in settings.agents {
      assert keys[0] in keys;
    }
  }

  lemma KeysJoin(a: seq<Key>, b: seq<Key>, id: (int, int))
    ensures HasId(a + b, id) <==> HasId(a, id) || HasId(b, id)
  {
    if HasId(a + b, id) {
      var k :| k in a + b && k.Id() == id;
    }
    if k :| k in a && k.Id() == id {
      assert k in a + b;
    } else if k :| k in b && k.Id() == id {
      assert k in a + b;
    }
  }

  /** A line without stored rows has one key for each who earns on it, and no other, at today's rates. */
  lemma KeysOfANewLine(line: CandidateLine, settings: Settings)
    ensures var keys := DerivedKeys(line, settings);
            && (forall k :: k in keys ==> KeyToday(line, settings, k))
            && (forall agent, participation :: HasId(keys, (agent, participation)) <==> Earns(line, settings, agent, participation))
            && DistinctIds(keys)
  {
    DerivedKeysDistinct(line, settings);
    if line.csp.Some? {
      TwoBranches(line, settings);
      if line.csp.value == line.osp {
        BranchKeyIs(line, settings, line.osp, LIFETIME_CUSTOMER);
      } else {
        BranchKeyIs(line, settings, line.osp, CHANNELLING);
        BranchKeyIs(line, settings, line.csp.value, FIELD_SERVICE);
        var a, b := BranchKey(line, settings, (line.osp, CHANNELLING)), BranchKey(line, settings, (line.csp.value, FIELD_SERVICE));
        forall id: (int, int) ensures HasId(a + b, id) <==> HasId(a, id) || HasId(b, id) {
          KeysJoin(a, b, id);
        }
      }
    }
  }

  /** Later months use, for each agent and participation among a line's stored rows, what its first row says. */
  lemma {:induction false} KeysOfAStoredLine(rows: seq<StoredLine>, i: nat)
    requires i < |rows| && forall j :: 0 <= j < i ==> rows[j].Id() != rows[i].Id()
    ensures exists k :: k in FrozenKeys(rows) && k.Id() == rows[i].Id() && KeptFrom(rows[i], k)
  {
    var rest, last := rows[..|rows| - 1], rows[|rows| - 1];
    if i < |rows| - 1 {
      KeysOfAStoredLine(rest, i);
      var k :| k in FrozenKeys(rest) && k.Id() == rest[i].Id() && KeptFrom(rest[i], k);
      assert k in FrozenKeys(rows);
    } else {
      FrozenKeysOfRows(rest);
      forall k | k in FrozenKeys(rest) ensures k.Id() != last.Id() {
        var r :| r in rest && KeyOf(r) == k;
        assert r.Id() == k.Id();
      }
      assert KeyOf(last) in FrozenKeys(rows);
    }
  }

  predicate KeptFrom(row: StoredLine, k: Key) {
    && k.agent == row.salesperson && k.participation == row.participation && k.participationName == row.participationName
    && k.participationRate == row.participationRate && k.labelId == row.labelId && k.labelName == row.labelName
    && k.labelRate == row.labelRate && k.customerSalesperson == row.customerSalesperson
  }

  // ----- how much

  ghost predicate New(f: Facts, line: CandidateLine) {
    && DistinctDetails(f.candidates) && line in f.candidates
    && forall r :: r in f.stored ==> r.detail != line.detail
  }

  /** The commission of a whole line, in cents: price by quantity by the label's rate by the agent's share. */
  function Whole(line: CandidateLine, settings: Settings, agent: int, participation: int): int {
    RoundHalfAway(line.price * line.quantity * (LabelToday(line) * ShareToday(line, settings, agent, participation)) * 100.0)
  }

  /** Paid in full within the month, or before it while no month was being closed for it. */
  predicate PaidNow(f: Facts, line: CandidateLine) {
    && line.isPaid && line.zeroed.Some?
    && (|| f.monthStart <= line.zeroed.value < f.nextMonth
        || (f.chainStart.Some? && f.chainStart.value <= line.zeroed.value < f.monthStart))
  }

  /** The part of what an order owes that was applied to it, all of it at the most. */
  predicate PaidPart(m: OrderMoney, ratio: real) {
    var owed := m.orderTotal - m.refunded;
    && (owed <= 0.0 ==> ratio == 1.0)
    && (owed > 0.0 ==> ratio * owed == if m.applied < owed then m.applied else owed)
  }

  /** What is earned by now: all of it once paid, or the paid part as money comes in. */
  ghost predicate Earned(f: Facts, line: CandidateLine, agent: int, participation: int, amount: int)
    requires agent in f.settings.agents
  {
    var whole := Whole(line, f.settings, agent, participation);
    match f.settings.agents[agent]
    case FullyPaid => amount == if PaidNow(f, line) then whole else 0
    case PartialPayments =>
      if line.salesOrder !in f.money then amount == 0
      else exists ratio :: PaidPart(f.money[line.salesOrder], ratio) && amount == RoundHalfAway(whole as real * ratio)
  }

  lemma NothingStored(f: Facts, line: CandidateLine, id: (int, int))
    requires New(f, line)
    ensures RowsOf(f.stored, line.detail) == [] && KeyRows([], id) == []
  {
    RowsOfAll(f.stored, line.detail);
  }

  lemma EarnedByKey(f: Facts, line: CandidateLine, k: Key)
    requires New(f, line) && KeyToday(line, f.settings, k)
    ensures KeyRowsOf(f, line, k) == []
    ensures var due := SaleDue(f, line, k, []);
            Earned(f, line, k.agent, k.participation, if due.Some? then due.value.amount else 0)
  {
    NothingStored(f, line, k.Id());
    WholeByKey(line, f.settings, k);
    if f.settings.agents[k.agent] == PartialPayments && line.salesOrder in f.money {
      PaidRatioIsPart(f.money[line.salesOrder], Whole(line, f.settings, k.agent, k.participation));
    }
  }

  lemma WholeByKey(line: CandidateLine, settings: Settings, k: Key)
    requires KeyToday(line, settings, k)
    ensures FullCommission(line.price, line.quantity, k.Rate()) == Whole(line, settings, k.agent, k.participation)
  {
  }

  lemma PaidRatioIsPart(m: OrderMoney, whole: int)
    ensures PaidPart(m, PaidRatio(m)) && ShareOf(whole, PaidRatio(m)) == RoundHalfAway(whole as real * PaidRatio(m))
  {
    RatioIsThePaidPart(m);
  }

  /** After the month that first sees a line, the sale commissions stored for it are, for each who earns on it, what
      is earned by now; every row of it is of one who earns on it, at today's rates and under the agent's scheme. */
  lemma FirstMonthPaysWhoEarns(f: Facts, line: CandidateLine, agent: int, participation: int)
    requires New(f, line)
    ensures var rows := RowsOf(After(f), line.detail);
            && (forall r :: r in rows ==> EarnsRow(f, line, r))
            && (Earns(line, f.settings, agent, participation) ==>
                  Earned(f, line, agent, participation, SalesSum(KeyRows(rows, (agent, participation)))))
            && (!Earns(line, f.settings, agent, participation) ==> KeyRows(rows, (agent, participation)) == [])
  {
    var rows := RowsOf(After(f), line.detail);
    KeysOfANewLine(line, f.settings);
    NothingStored(f, line, (agent, participation));
    RowsAfter(f, line);
    LinesUnderKeys(f, line, KeysFor(f, line));
    forall r | r in rows ensures EarnsRow(f, line, r) {
      assert KeyOf(r) in DerivedKeys(line, f.settings);
      SchemesToday(f, line, r);
    }
    if Earns(line, f.settings, agent, participation) {
      var k :| k in KeysFor(f, line) && k.Id() == (agent, participation);
      ExactlyDue(f, line, k);
      EarnedByKey(f, line, k);
    } else {
      KeyRowsAll(rows, (agent, participation));
    }
  }

  /** Under full payment a new line is listed once it is paid, at nothing if it earns nothing, and not before. */
  lemma FirstMonthListsPaidSales(f: Facts, line: CandidateLine, agent: int, participation: int)
    requires New(f, line) && Earns(line, f.settings, agent, participation) && f.settings.agents[agent] == FullyPaid
    ensures HasSale(KeyRows(RowsOf(After(f), line.detail), (agent, participation))) <==> PaidNow(f, line)
  {
    KeysOfANewLine(line, f.settings);
    NothingStored(f, line, (agent, participation));
    var k :| k in KeysFor(f, line) && k.Id() == (agent, participation);
    KeyRowsAfter(f, line, k);
    assert KeyRowsOf(f, line, k) == [];
    KeyLinesStored(f, line, k);
    if PaidNow(f, line) {
      ListedWhenPaid(f, line, k);
    }
  }

  /** The same, of the rows the month itself stores. */
  lemma MonthPaysWhoEarns(f: Facts, line: CandidateLine, agent: int, participation: int)
    requires New(f, line)
    ensures var rows := KeyRows(RowsOf(Stored(MonthLines(f)), line.detail), (agent, participation));
            && (!Earns(line, f.settings, agent, participation) ==> rows == [])
            && (Earns(line, f.settings, agent, participation) && f.settings.agents[agent] == FullyPaid ==>
                  && SalesSum(rows) == (if PaidNow(f, line) then Whole(line, f.settings, agent, participation) else 0)
                  && (HasSale(rows) <==> PaidNow(f, line)))
  {
    FirstMonthPaysWhoEarns(f, line, agent, participation);
    if Earns(line, f.settings, agent, participation) && f.settings.agents[agent] == FullyPaid {
      FirstMonthListsPaidSales(f, line, agent, participation);
    }
    RowsOfAppend(f.stored, Stored(MonthLines(f)), line.detail);
    RowsOfAll(f.stored, line.detail);
    assert [] + RowsOf(Stored(MonthLines(f)), line.detail) == RowsOf(Stored(MonthLines(f)), line.detail);
  }

  lemma ListedWhenPaid(f: Facts, line: CandidateLine, k: Key)
    requires New(f, line) && KeyToday(line, f.settings, k) && f.settings.agents[k.agent] == FullyPaid && PaidNow(f, line)
    ensures KeyRowsOf(f, line, k) == [] && HasSale([] + Stored(KeyLines(f, line, k)))
  {
    NothingStored(f, line, k.Id());
    var sale, charged := SaleLines(f, line, k, []), RefundLines(f, line, k, [], RefundsOf(f.refunds, line.detail));
    assert |sale| == 1;
    StoredOne(sale[0]);
    assert sale == [sale[0]];
    StoredAppend(sale, charged);
    assert ([] + Stored(KeyLines(f, line, k)))[0] == FromComputed(sale[0]);
  }

  predicate EarnsRow(f: Facts, line: CandidateLine, r: StoredLine) {
    && Earns(line, f.settings, r.salesperson, r.participation)
    && r.participationRate == ShareToday(line, f.settings, r.salesperson, r.participation)
    && r.labelRate == LabelToday(line) && r.labelId == line.labelId && Some(r.customerSalesperson) == line.csp
    && r.scheme == f.settings.agents[r.salesperson]
  }

  lemma SchemesToday(f: Facts, line: CandidateLine, r: StoredLine)
    requires New(f, line) && r in Stored(CandidateLines(f, line))
    ensures r.salesperson in f.settings.agents ==> r.scheme == f.settings.agents[r.salesperson]
  {
    SchemesOfKeys(f, line, KeysFor(f, line));
  }

  lemma {:induction false} SchemesOfKeys(f: Facts, line: CandidateLine, keys: seq<Key>)
    ensures forall r :: r in Stored(LinesOfKeys(f, line, keys)) && r.salesperson in f.settings.agents ==>
              r.scheme == f.settings.agents[r.salesperson]
  {
    if keys != [] {
      var rest, last := keys[..|keys| - 1], keys[|keys| - 1];
      SchemesOfKeys(f, line, rest);
      KeyLinesStored(f, line, last);
      StoredAppend(LinesOfKeys(f, line, rest), KeyLines(f, line, last));
      forall r | r in Stored(KeyLines(f, line, last)) && r.salesperson in f.settings.agents
        ensures r.scheme == f.settings.agents[r.salesperson]
      {
        assert KeyOf(r) == last;
      }
    }
  }

  // ----- which refunds are charged

  ghost predicate Charged(f: Facts, line: CandidateLine, key: Key, keyRows: seq<StoredLine>, r: RefundLine) {
    RefundCounts(f, line, key, keyRows, r) && FullCommission(r.price, r.quantity, key.Rate()) != 0
  }

  lemma {:induction false} OnlyCountingRefunds(f: Facts, line: CandidateLine, key: Key, keyRows: seq<StoredLine>, refunds: seq<RefundLine>,
                                               row: StoredLine)
    requires row in Stored(RefundLines(f, line, key, keyRows, refunds))
    ensures exists r :: r in refunds && row.refund == Some(r.id) && Charged(f, line, key, keyRows, r)
  {
    var rest, last := refunds[..|refunds| - 1], refunds[|refunds| - 1];
    var a, b := RefundLines(f, line, key, keyRows, rest), RefundCharge(f, line, key, keyRows, last);
    ChargeStored(f, line, key, keyRows, last);
    StoredAppend(a, b);
    assert last in refunds;
    if row in Stored(a) {
      OnlyCountingRefunds(f, line, key, keyRows, rest, row);
      var r :| r in rest && row.refund == Some(r.id) && Charged(f, line, key, keyRows, r);
      assert r in refunds;
    } else {
      assert row in Stored(b) && Charged(f, line, key, keyRows, last);
    }
  }

  lemma ChargedExactly(f: Facts, line: CandidateLine, key: Key, keyRows: seq<StoredLine>, refunds: seq<RefundLine>, r: RefundLine)
    requires DistinctRefunds(refunds) && r in refunds
    ensures Some(r.id) in RefundIds(Stored(RefundLines(f, line, key, keyRows, refunds))) <==> Charged(f, line, key, keyRows, r)
  {
    var rows := Stored(RefundLines(f, line, key, keyRows, refunds));
    if row :| row in rows && row.movement == Refund && row.refund == Some(r.id) {
      OnlyCountingRefunds(f, line, key, keyRows, refunds, row);
      SameIdSameRefund(refunds);
    }
    if Charged(f, line, key, keyRows, r) {
      RefundsComplete(f, line, key, keyRows, refunds, r);
    }
  }

  lemma RefundsOfKey(f: Facts, line: CandidateLine, k: Key)
    requires New(f, line) && k in KeysFor(f, line)
    ensures RefundIds(KeyRows(RowsOf(After(f), line.detail), k.Id()))
         == RefundIds(Stored(RefundLines(f, line, k, [], RefundsOf(f.refunds, line.detail))))
  {
    NothingStored(f, line, k.Id());
    KeyRowsAfter(f, line, k);
    var sale, charged := SaleLines(f, line, k, []), RefundLines(f, line, k, [], RefundsOf(f.refunds, line.detail));
    SaleStored(f, line, k, []);
    StoredAppend(sale, charged);
    assert KeyRowsOf(f, line, k) == [];
    SameRefunds(Stored(sale), Stored(charged));
  }

  lemma SameRefunds(a: seq<StoredLine>, b: seq<StoredLine>)
    requires RefundIds(a) == {}
    ensures RefundIds([] + (a + b)) == RefundIds(b)
  {
    forall r | r in a ensures r.movement != Refund {
      assert r.movement == Refund ==> r.refund in RefundIds(a);
    }
    forall id ensures id in RefundIds([] + (a + b)) <==> id in RefundIds(b) {
      if r :| r in b && r.movement == Refund && r.refund == id {
        assert r in [] + (a + b);
      }
    }
  }

  /** The first month charges whoever earns on a line exactly its refunds dated before the month's end that come to
      a cent or more, and to a fully paid agent only once the sale is paid. */
  lemma FirstMonthChargesRefunds(f: Facts, line: CandidateLine, agent: int, participation: int, r: RefundLine)
    requires New(f, line) && DistinctRefunds(f.refunds) && r in f.refunds && r.detail == line.detail
    requires Earns(line, f.settings, agent, participation)
    ensures Some(r.id) in RefundIds(KeyRows(RowsOf(After(f), line.detail), (agent, participation))) <==>
              && r.date < f.nextMonth && (f.settings.agents[agent] == FullyPaid ==> PaidNow(f, line))
              && ChargeFor(line, f.settings, agent, participation, r) != 0
  {
    KeysOfANewLine(line, f.settings);
    NothingStored(f, line, (agent, participation));
    var k :| k in KeysFor(f, line) && k.Id() == (agent, participation);
    var own := RefundsOf(f.refunds, line.detail);
    RefundsOfKey(f, line, k);
    RefundsOfMatch(f.refunds, line.detail);
    ChargedExactly(f, line, k, [], own, r);
    CountsToday(f, line, k, r);
    ChargedToday(f, line, k, r, agent, participation);
  }

  lemma ChargedToday(f: Facts, line: CandidateLine, k: Key, r: RefundLine, agent: int, participation: int)
    requires KeyToday(line, f.settings, k) && k.Id() == (agent, participation)
    requires FullCommission(r.price, r.quantity, k.Rate()) == ChargeFor(line, f.settings, k.agent, k.participation, r)
    requires RefundCounts(f, line, k, [], r) <==>
               r.date < f.nextMonth && (f.settings.agents[k.agent] == FullyPaid ==> PaidNow(f, line))
    ensures Charged(f, line, k, [], r) <==>
              && r.date < f.nextMonth && (f.settings.agents[agent] == FullyPaid ==> PaidNow(f, line))
              && ChargeFor(line, f.settings, agent, participation, r) != 0
  {
  }

  lemma SameIdSameRefund(refunds: seq<RefundLine>)
    requires DistinctRefunds(refunds)
    ensures forall a, b :: a in refunds && b in refunds && a.id == b.id ==> a == b
  {
  }

  lemma CountsToday(f: Facts, line: CandidateLine, k: Key, r: RefundLine)
    requires KeyToday(line, f.settings, k)
    ensures RefundCounts(f, line, k, [], r) <==>
              r.date < f.nextMonth && (f.settings.agents[k.agent] == FullyPaid ==> PaidNow(f, line))
    ensures FullCommission(r.price, r.quantity, k.Rate()) == ChargeFor(line, f.settings, k.agent, k.participation, r)
  {
  }

  /** What a refund takes back, in cents: its own price and quantity at the line's rates. */
  function ChargeFor(line: CandidateLine, settings: Settings, agent: int, participation: int, r: RefundLine): int {
    RoundHalfAway(r.price * r.quantity * (LabelToday(line) * ShareToday(line, settings, agent, participation)) * 100.0)
  }

  // ----- any month, of a line seen before or not

  /** The rows stored for someone's earning on an order line. */
  ghost function StoredFor(rows: seq<StoredLine>, line: CandidateLine, k: Key): seq<StoredLine> {
    KeyRows(RowsOf(rows, line.detail), (k.agent, k.participation))
  }

  /** An agent earns under today's scheme; who is an agent no more, under that of the latest row stored. */
  function SchemeNow(settings: Settings, agent: int, rows: seq<StoredLine>): Scheme {
    if agent in settings.agents then settings.agents[agent]
    else if rows == [] then FullyPaid
    else rows[|rows| - 1].scheme
  }

  function WholeAt(line: CandidateLine, labelRate: real, participationRate: real): int {
    RoundHalfAway(line.price * line.quantity * (labelRate * participationRate) * 100.0)
  }

  predicate SaleAmong(rows: seq<StoredLine>) {
    exists i :: 0 <= i < |rows| && rows[i].movement == Sale
  }

  /** Fully paid in the month, or in an earlier one since the first closed without having been listed. */
  predicate PaidUnlisted(f: Facts, line: CandidateLine, rows: seq<StoredLine>) {
    && line.isPaid && line.zeroed.Some?
    && (|| f.monthStart <= line.zeroed.value < f.nextMonth
        || (f.chainStart.Some? && f.chainStart.value <= line.zeroed.value < f.monthStart && !SaleAmong(rows)))
  }

  lemma SaleAmongIs(rows: seq<StoredLine>)
    ensures HasSale(rows) <==> SaleAmong(rows)
  {
    if r :| r in rows && r.movement == Sale {
      var i :| 0 <= i < |rows| && rows[i] == r;
    }
  }

  /** After a month, what is stored of the sale under one of the line's keys is, under full payment, the whole commission
      if the order counts as paid now, and under partial payments the part of it that is paid; where neither applies it
      is what was stored before. */
  lemma AnyMonthPays(f: Facts, line: CandidateLine, k: Key)
    requires DistinctDetails(f.candidates) && line in f.candidates && k in KeysFor(f, line)
    ensures var before, after := StoredFor(f.stored, line, k), StoredFor(After(f), line, k);
            var whole := WholeAt(line, k.labelRate, k.participationRate);
            match SchemeNow(f.settings, k.agent, before)
            case FullyPaid => SalesSum(after) == if PaidUnlisted(f, line, before) then whole else SalesSum(before)
            case PartialPayments =>
              if line.salesOrder !in f.money then SalesSum(after) == SalesSum(before)
              else exists ratio :: PaidPart(f.money[line.salesOrder], ratio) && SalesSum(after) == RoundHalfAway(whole as real * ratio)
  {
    var before := StoredFor(f.stored, line, k);
    assert before == KeyRowsOf(f, line, k);
    ExactlyDue(f, line, k);
    SaleAmongIs(before);
    DueIs(f, line, k, before);
  }

  lemma DueIs(f: Facts, line: CandidateLine, k: Key, before: seq<StoredLine>)
    requires HasSale(before) <==> SaleAmong(before)
    ensures var due, whole := SaleDue(f, line, k, before), WholeAt(line, k.labelRate, k.participationRate);
            match SchemeNow(f.settings, k.agent, before)
            case FullyPaid => due == if PaidUnlisted(f, line, before) then Some(Due(whole, line.zeroed.value, None)) else None
            case PartialPayments =>
              if line.salesOrder !in f.money then due == None
              else
                due.Some? && exists ratio :: PaidPart(f.money[line.salesOrder], ratio) && due.value.amount == RoundHalfAway(whole as real * ratio)
  {
    WholeIs(line, k);
    assert SchemeNow(f.settings, k.agent, before) == SchemeOf(f.settings, k, before);
    if SchemeOf(f.settings, k, before) == PartialPayments && line.salesOrder in f.money {
      PaidRatioIsPart(f.money[line.salesOrder], WholeAt(line, k.labelRate, k.participationRate));
    }
  }

  lemma WholeIs(line: CandidateLine, k: Key)
    ensures FullCommission(line.price, line.quantity, k.Rate()) == WholeAt(line, k.labelRate, k.participationRate)
  {
  }

  /** Rows the month adds under a key are at the key's rates, under its scheme of now. */
  lemma AnyMonthRecordsKeys(f: Facts, line: CandidateLine, k: Key, r: StoredLine)
    requires DistinctDetails(f.candidates) && line in f.candidates && k in KeysFor(f, line)
    requires r in StoredFor(After(f), line, k) && r !in StoredFor(f.stored, line, k)
    ensures KeptFrom(r, k) && r.scheme == SchemeNow(f.settings, k.agent, StoredFor(f.stored, line, k))
  {
    KeyRowsAfter(f, line, k);
    KeyLinesStored(f, line, k);
  }

  function RefundCharged(k: Key, r: RefundLine): int {
    RoundHalfAway(r.price * r.quantity * (k.labelRate * k.participationRate) * 100.0)
  }

  /** After a month a refund of the line has been charged under a key exactly when it had been, or is dated before the
      month's end, comes to a cent or more, and, under full payment, its sale is listed or counts as paid now. */
  lemma AnyMonthCharges(f: Facts, line: CandidateLine, k: Key, r: RefundLine)
    requires DistinctDetails(f.candidates) && line in f.candidates && k in KeysFor(f, line)
    requires DistinctRefunds(f.refunds) && r in f.refunds && r.detail == line.detail
    ensures var before, after := StoredFor(f.stored, line, k), StoredFor(After(f), line, k);
            Some(r.id) in RefundIds(after) <==>
              || Some(r.id) in RefundIds(before)
              || (&& r.date < f.nextMonth && RefundCharged(k, r) != 0
                  && (SchemeNow(f.settings, k.agent, before) == FullyPaid ==> SaleAmong(before) || PaidUnlisted(f, line, before)))
  {
    var before, own := StoredFor(f.stored, line, k), RefundsOf(f.refunds, line.detail);
    assert before == KeyRowsOf(f, line, k);
    KeyRowsAfter(f, line, k);
    RefundsOfMatch(f.refunds, line.detail);
    ChargedExactly(f, line, k, before, own, r);
    CountsNow(f, line, k, before, r);
    var sale, charged := SaleLines(f, line, k, before), RefundLines(f, line, k, before, own);
    SaleStored(f, line, k, before);
    StoredAppend(sale, charged);
    RefundIdsAfter(before, Stored(sale), Stored(charged));
  }

  lemma CountsNow(f: Facts, line: CandidateLine, k: Key, before: seq<StoredLine>, r: RefundLine)
    ensures Charged(f, line, k, before, r) <==>
              && Some(r.id) !in RefundIds(before) && r.date < f.nextMonth && RefundCharged(k, r) != 0
              && (SchemeNow(f.settings, k.agent, before) == FullyPaid ==> SaleAmong(before) || PaidUnlisted(f, line, before))
  {
    SaleAmongIs(before);
    assert FullCommission(r.price, r.quantity, k.Rate()) == RefundCharged(k, r);
    assert SchemeNow(f.settings, k.agent, before) == SchemeOf(f.settings, k, before);
  }

  lemma RefundIdsAfter(before: seq<StoredLine>, sale: seq<StoredLine>, charged: seq<StoredLine>)
    requires RefundIds(sale) == {}
    ensures RefundIds(before + (sale + charged)) == RefundIds(before) + RefundIds(charged)
  {
    var all := before + (sale + charged);
    forall r | r in sale ensures r.movement != Refund {
      assert r.movement == Refund ==> r.refund in RefundIds(sale);
    }
    forall id ensures id in RefundIds(all) <==> id in RefundIds(before) || id in RefundIds(charged) {
      if r :| r in before && r.movement == Refund && r.refund == id {
        assert r in all;
      } else if r :| r in charged && r.movement == Refund && r.refund == id {
        assert r in all;
      }
    }
  }

  // ----- what each line records

  /** A month's line is of a candidate: at a rate that is its label's by its participation's, its total and its full
      commission those of its own price and quantity; a sale's are the order line's, a refund's the refund's. */
  ghost predicate Records(f: Facts, line: CandidateLine, c: ComputedLine) {
    && c.detail == line.detail && c.salesOrder == line.salesOrder && Figures(c)
    && match c.movement
       case Sale => c.refund == None && c.price == line.price && c.quantity == line.quantity && DatedBy(f, line, c)
       case Refund =>
         exists r :: r in f.refunds && r.detail == line.detail && c.refund == Some(r.id) && c.price == r.price
                     && c.quantity == r.quantity && c.paidDate == r.date && r.date < f.nextMonth
                     && c.commission == c.full && c.share == None
  }

  predicate Figures(c: ComputedLine) {
    && c.rate == c.labelRate * c.participationRate
    && c.total == RoundHalfAway(c.price * c.quantity * 100.0) && c.full == RoundHalfAway(CentsAt(c.price, c.quantity, c.rate))
  }

  /** The cents a quantity at a price makes at a rate. */
  function CentsAt(price: real, quantity: real, rate: real): real {
    price * quantity * rate * 100.0
  }

  lemma FullIsCentsAt(price: real, quantity: real, rate: real)
    ensures FullCommission(price, quantity, rate) == RoundHalfAway(CentsAt(price, quantity, rate))
  {
  }

  lemma FiguresAre(line: CandidateLine, key: Key, scheme: Scheme, movement: Movement, refund: Option<int>, paidDate: Time,
                   price: real, quantity: real, share: Option<int>, commission: int)
    ensures Figures(Line(line, key, scheme, movement, refund, paidDate, price, quantity, LineTotal(price, quantity),
                         FullCommission(price, quantity, key.Rate()), share, commission))
  {
    FullIsCentsAt(price, quantity, key.Rate());
  }

  /** Under full payment the date the order was paid; otherwise its last movement of money, and the part paid. */
  ghost predicate DatedBy(f: Facts, line: CandidateLine, c: ComputedLine) {
    match c.scheme
    case FullyPaid => line.isPaid && line.zeroed == Some(c.paidDate) && c.share == None
    case PartialPayments =>
      && line.salesOrder in f.money && c.paidDate == f.money[line.salesOrder].lastActivity.Or(f.monthStart)
      && exists ratio :: PaidPart(f.money[line.salesOrder], ratio) && c.share == Some(RoundHalfAway(ratio * 1000000.0))
  }

  lemma SaleRecords(f: Facts, line: CandidateLine, key: Key, keyRows: seq<StoredLine>)
    ensures forall c :: c in SaleLines(f, line, key, keyRows) ==> Records(f, line, c)
  {
    var lines := SaleLines(f, line, key, keyRows);
    if lines != [] {
      assert lines == [lines[0]];
      SaleDated(f, line, key, keyRows, lines[0]);
      SaleFigures(f, line, key, keyRows, lines[0]);
    }
  }

  lemma SaleFigures(f: Facts, line: CandidateLine, key: Key, keyRows: seq<StoredLine>, c: ComputedLine)
    requires SaleLines(f, line, key, keyRows) == [c] && DatedBy(f, line, c)
    ensures Records(f, line, c)
  {
    var due := SaleDue(f, line, key, keyRows).value;
    ListedFigures(f, line, key, keyRows, due, c);
  }

  lemma ListedFigures(f: Facts, line: CandidateLine, key: Key, keyRows: seq<StoredLine>, due: Due, c: ComputedLine)
    requires ListedSale(f, line, key, keyRows, due) == [c] && DatedBy(f, line, c)
    ensures Records(f, line, c)
  {
    FiguresAre(line, key, SchemeOf(f.settings, key, keyRows), Sale, None, due.paidDate, line.price, line.quantity, due.share,
               due.amount - SalesSum(keyRows));
  }

  lemma SaleDated(f: Facts, line: CandidateLine, key: Key, keyRows: seq<StoredLine>, c: ComputedLine)
    requires SaleLines(f, line, key, keyRows) == [c]
    ensures DatedBy(f, line, c)
  {
    if SchemeOf(f.settings, key, keyRows) == PartialPayments {
      PaidRatioIsPart(f.money[line.salesOrder], 0);
    }
  }

  lemma {:induction false} RefundsRecord(f: Facts, line: CandidateLine, key: Key, keyRows: seq<StoredLine>, refunds: seq<RefundLine>)
    requires forall r :: r in refunds ==> r in f.refunds && r.detail == line.detail
    ensures forall c :: c in RefundLines(f, line, key, keyRows, refunds) ==> Records(f, line, c)
  {
    if refunds != [] {
      var last := refunds[|refunds| - 1];
      assert last in refunds;
      RefundsRecord(f, line, key, keyRows, refunds[..|refunds| - 1]);
      forall c | c in RefundCharge(f, line, key, keyRows, last) ensures Records(f, line, c) {
        FiguresAre(line, key, SchemeOf(f.settings, key, keyRows), Refund, Some(last.id), last.date, last.price, last.quantity, None,
                   FullCommission(last.price, last.quantity, key.Rate()));
        assert c.refund == Some(last.id);
      }
    }
  }

  lemma {:induction false} KeysRecord(f: Facts, line: CandidateLine, keys: seq<Key>)
    ensures forall c :: c in LinesOfKeys(f, line, keys) ==> Records(f, line, c)
  {
    if keys != [] {
      var last := keys[|keys| - 1];
      KeysRecord(f, line, keys[..|keys| - 1]);
      SaleRecords(f, line, last, KeyRowsOf(f, line, last));
      RefundsOfMatch(f.refunds, line.detail);
      RefundsRecord(f, line, last, KeyRowsOf(f, line, last), RefundsOf(f.refunds, line.detail));
    }
  }

  lemma {:induction false} EveryLineRecords(f: Facts, candidates: seq<CandidateLine>, c: ComputedLine)
    requires c in LinesOfCandidates(f, candidates)
    ensures exists line :: line in candidates && Records(f, line, c)
  {
    var rest, last := candidates[..|candidates| - 1], candidates[|candidates| - 1];
    assert last in candidates;
    KeysRecord(f, last, KeysFor(f, last));
    if c !in CandidateLines(f, last) {
      EveryLineRecords(f, rest, c);
      var line :| line in rest && Records(f, line, c);
      assert line in candidates;
    }
  }
}
