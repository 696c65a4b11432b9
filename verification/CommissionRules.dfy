/** The commission rules for one month: facts in, lines out.

    Money is in cents and shares are in millionths; prices, quantities and rates are exact.  A
    point in time is a number whose floor is its month, so month `m` is `[m, m + 1)`: only the
    order of times and the month they fall in matter here. */
module CommissionRules {
  import opened Outcomes
  import opened Rounding

  type Time = real

  const LIFETIME_CUSTOMER := 1
  const CHANNELLING := 2
  const FIELD_SERVICE := 3

  datatype Scheme = FullyPaid | PartialPayments
  datatype Movement = Sale | Refund

  // ----- facts

  datatype CandidateLine = CandidateLine(
    salesOrder: int, detail: int, osp: int, csp: Option<int>, price: real, quantity: real,
    zeroed: Option<Time>, isPaid: bool,
    labelId: Option<int>, labelName: Option<string>, labelRate: real)

  datatype OrderMoney = OrderMoney(
    applied: real, refunded: real, orderTotal: real, lastActivity: Option<Time>)

  datatype RefundLine = RefundLine(
    id: int, detail: int, date: Time, price: real, quantity: real)

  datatype Settings = Settings(
    agents: map<int, Scheme>, rates: map<(int, int, int), real>, participations: map<int, string>)

  datatype Facts = Facts(
    monthStart: Time, nextMonth: Time, chainStart: Option<Time>,
    candidates: seq<CandidateLine>, money: map<int, OrderMoney>, refunds: seq<RefundLine>,
    stored: seq<StoredLine>, settings: Settings)

  // ----- lines

  datatype ComputedLine = ComputedLine(
    scheme: Scheme, movement: Movement, salesOrder: int, detail: int, refund: Option<int>,
    paidDate: Time, labelId: Option<int>, labelName: Option<string>, labelRate: real,
    salesperson: int, customerSalesperson: int,
    participation: int, participationName: string, participationRate: real, rate: real,
    price: real, quantity: real, total: int, full: int, share: Option<int>, commission: int)

  /** A row of a closed month, as far as later months need it. */
  datatype StoredLine = StoredLine(
    detail: int, salesperson: int,
    participation: int, participationName: string, participationRate: real,
    labelId: Option<int>, labelName: Option<string>, labelRate: real, rate: real,
    customerSalesperson: int, movement: Movement, refund: Option<int>, scheme: Scheme,
    commission: int, full: int)
  {
    function Id(): (int, int) { (salesperson, participation) }
  }

  function FromComputed(line: ComputedLine): StoredLine {
    StoredLine(
      detail := line.detail, salesperson := line.salesperson,
      participation := line.participation, participationName := line.participationName,
      participationRate := line.participationRate,
      labelId := line.labelId, labelName := line.labelName, labelRate := line.labelRate,
      rate := line.rate, customerSalesperson := line.customerSalesperson,
      movement := line.movement, refund := line.refund, scheme := line.scheme,
      commission := line.commission, full := line.full)
  }

  /** Who earns on a line, as what, and at which rates. */
  datatype Key = Key(
    agent: int, participation: int, participationName: string, participationRate: real,
    labelId: Option<int>, labelName: Option<string>, labelRate: real, customerSalesperson: int)
  {
    function Rate(): real { labelRate * participationRate }
    function Id(): (int, int) { (agent, participation) }
  }

  function KeyOf(row: StoredLine): Key {
    Key(row.salesperson, row.participation, row.participationName, row.participationRate,
        row.labelId, row.labelName, row.labelRate, row.customerSalesperson)
  }

  // ----- queries over rows, in stored order

  function RowsOf(rows: seq<StoredLine>, detail: int): seq<StoredLine> {
    if rows == [] then []
    else
      var last := rows[|rows| - 1];
      RowsOf(rows[..|rows| - 1], detail) + if last.detail == detail then [last] else []
  }

  function KeyRows(rows: seq<StoredLine>, id: (int, int)): seq<StoredLine> {
    if rows == [] then []
    else
      var last := rows[|rows| - 1];
      KeyRows(rows[..|rows| - 1], id) + if last.Id() == id then [last] else []
  }

  /** The sum of the stored sale commissions. */
  function SalesSum(rows: seq<StoredLine>): int {
    if rows == [] then 0
    else
      var last := rows[|rows| - 1];
      SalesSum(rows[..|rows| - 1]) + if last.movement == Sale then last.commission else 0
  }

  predicate HasSale(rows: seq<StoredLine>) {
    exists r :: r in rows && r.movement == Sale
  }

  function RefundIds(rows: seq<StoredLine>): set<Option<int>> {
    set r | r in rows && r.movement == Refund :: r.refund
  }

  function RefundsOf(refunds: seq<RefundLine>, detail: int): seq<RefundLine> {
    if refunds == [] then []
    else
      var last := refunds[|refunds| - 1];
      RefundsOf(refunds[..|refunds| - 1], detail) + if last.detail == detail then [last] else []
  }

  // ----- keys

  function Branches(line: CandidateLine): seq<(int, int)>
    requires line.csp.Some?
  {
    if line.csp.value == line.osp then [(line.csp.value, LIFETIME_CUSTOMER)]
    else [(line.osp, CHANNELLING), (line.csp.value, FIELD_SERVICE)]
  }

  /** One branch under today's settings: an agent earns, anyone else does not. */
  function BranchKey(line: CandidateLine, settings: Settings, branch: (int, int)): seq<Key>
    requires line.csp.Some?
  {
    if branch.0 !in settings.agents then []
    else
      var share :=
        if line.labelId.Some? && (branch.0, line.labelId.value, branch.1) in settings.rates
        then settings.rates[(branch.0, line.labelId.value, branch.1)] else 0.0;
      var name :=
        if branch.1 in settings.participations then settings.participations[branch.1] else "";
      [Key(branch.0, branch.1, name, share, line.labelId, line.labelName,
           if line.labelId.Some? then line.labelRate else 0.0, line.csp.value)]
  }

  function KeysOfBranches(line: CandidateLine, settings: Settings, branches: seq<(int, int)>): seq<Key>
    requires line.csp.Some?
  {
    if branches == [] then []
    else
      KeysOfBranches(line, settings, branches[..|branches| - 1])
      + BranchKey(line, settings, branches[|branches| - 1])
  }

  function DerivedKeys(line: CandidateLine, settings: Settings): seq<Key> {
    if line.csp.None? then [] else KeysOfBranches(line, settings, Branches(line))
  }

  predicate HasId(keys: seq<Key>, id: (int, int)) {
    exists k :: k in keys && k.Id() == id
  }

  /** The first stored row of each (agent, participation) fixes its key. */
  function FrozenKeys(rows: seq<StoredLine>): seq<Key> {
    if rows == [] then []
    else
      var earlier := FrozenKeys(rows[..|rows| - 1]);
      var last := rows[|rows| - 1];
      if HasId(earlier, last.Id()) then earlier else earlier + [KeyOf(last)]
  }

  function KeysFor(f: Facts, line: CandidateLine): seq<Key> {
    var rows := RowsOf(f.stored, line.detail);
    if rows != [] then FrozenKeys(rows) else DerivedKeys(line, f.settings)
  }

  // ----- what one key of one line owes this month

  function SchemeOf(settings: Settings, key: Key, keyRows: seq<StoredLine>): Scheme {
    if key.agent in settings.agents then settings.agents[key.agent]
    else if keyRows != [] then keyRows[|keyRows| - 1].scheme
    else FullyPaid
  }

  /** What a line sold for, in cents. */
  function LineTotal(price: real, quantity: real): int {
    RoundHalfAway(price * quantity * 100.0)
  }

  /** The commission of a whole line, in cents. */
  function FullCommission(price: real, quantity: real, rate: real): int {
    RoundHalfAway(price * quantity * rate * 100.0)
  }

  /** How much of its order is settled: net of refunds, and never more than all of it. */
  function PaidRatio(m: OrderMoney): real {
    var owed := m.orderTotal - m.refunded;
    if owed <= 0.0 then 1.0
    else
      var ratio := m.applied / owed;
      if ratio < 1.0 then ratio else 1.0
  }

  function ShareOf(full: int, ratio: real): int {
    RoundHalfAway(full as real * ratio)
  }

  datatype Due = Due(amount: int, paidDate: Time, share: Option<int>)

  predicate SaleCountsNow(f: Facts, line: CandidateLine, hasSale: bool) {
    && line.isPaid
    && line.zeroed.Some?
    && (|| f.monthStart <= line.zeroed.value < f.nextMonth
        || (&& f.chainStart.Some?
            && f.chainStart.value <= line.zeroed.value < f.monthStart
            && !hasSale))
  }

  /** What the key is due by now, if its sale is looked at this month at all. */
  function SaleDue(f: Facts, line: CandidateLine, key: Key, keyRows: seq<StoredLine>): Option<Due> {
    var full := FullCommission(line.price, line.quantity, key.Rate());
    match SchemeOf(f.settings, key, keyRows)
    case FullyPaid =>
      if SaleCountsNow(f, line, HasSale(keyRows)) then Some(Due(full, line.zeroed.value, None))
      else None
    case PartialPayments =>
      if line.salesOrder !in f.money then None
      else
        var m := f.money[line.salesOrder];
        var ratio := PaidRatio(m);
        Some(Due(ShareOf(full, ratio), m.lastActivity.Or(f.monthStart),
                 Some(RoundHalfAway(ratio * 1000000.0))))
  }

  function Line(line: CandidateLine, key: Key, scheme: Scheme, movement: Movement, refund: Option<int>,
                paidDate: Time, price: real, quantity: real, total: int, full: int,
                share: Option<int>, commission: int): ComputedLine
  {
    ComputedLine(
      scheme := scheme, movement := movement, salesOrder := line.salesOrder, detail := line.detail,
      refund := refund, paidDate := paidDate,
      labelId := key.labelId, labelName := key.labelName, labelRate := key.labelRate,
      salesperson := key.agent, customerSalesperson := key.customerSalesperson,
      participation := key.participation, participationName := key.participationName,
      participationRate := key.participationRate, rate := key.Rate(),
      price := price, quantity := quantity, total := total, full := full,
      share := share, commission := commission)
  }

  /** The line of a sale due: nothing when it is all stored, unless it was never listed. */
  function ListedSale(f: Facts, line: CandidateLine, key: Key, keyRows: seq<StoredLine>, due: Due): seq<ComputedLine> {
    var full := FullCommission(line.price, line.quantity, key.Rate());
    var amount := due.amount - SalesSum(keyRows);
    if amount != 0 || (full == 0 && !HasSale(keyRows)) then
      [Line(line, key, SchemeOf(f.settings, key, keyRows), Sale, None, due.paidDate,
            line.price, line.quantity, LineTotal(line.price, line.quantity), full, due.share, amount)]
    else []
  }

  function SaleLines(f: Facts, line: CandidateLine, key: Key, keyRows: seq<StoredLine>): seq<ComputedLine> {
    match SaleDue(f, line, key, keyRows)
    case None => []
    case Some(due) => ListedSale(f, line, key, keyRows, due)
  }

  /** A refund is charged before the month's end, once, and under scheme 1 only with its sale. */
  predicate RefundCounts(f: Facts, line: CandidateLine, key: Key, keyRows: seq<StoredLine>, r: RefundLine) {
    && r.date < f.nextMonth
    && Some(r.id) !in RefundIds(keyRows)
    && (SchemeOf(f.settings, key, keyRows) == FullyPaid ==>
          SaleCountsNow(f, line, HasSale(keyRows)) || HasSale(keyRows))
  }

  function RefundCharge(f: Facts, line: CandidateLine, key: Key, keyRows: seq<StoredLine>, r: RefundLine): seq<ComputedLine> {
    var amount := FullCommission(r.price, r.quantity, key.Rate());
    if RefundCounts(f, line, key, keyRows, r) && amount != 0 then
      [Line(line, key, SchemeOf(f.settings, key, keyRows), Refund, Some(r.id), r.date,
            r.price, r.quantity, LineTotal(r.price, r.quantity), amount, None, amount)]
    else []
  }

  function RefundLines(f: Facts, line: CandidateLine, key: Key, keyRows: seq<StoredLine>, refunds: seq<RefundLine>): seq<ComputedLine> {
    if refunds == [] then []
    else
      RefundLines(f, line, key, keyRows, refunds[..|refunds| - 1])
      + RefundCharge(f, line, key, keyRows, refunds[|refunds| - 1])
  }

  function KeyLines(f: Facts, line: CandidateLine, key: Key): seq<ComputedLine> {
    var keyRows := KeyRows(RowsOf(f.stored, line.detail), key.Id());
    SaleLines(f, line, key, keyRows)
    + RefundLines(f, line, key, keyRows, RefundsOf(f.refunds, line.detail))
  }

  function LinesOfKeys(f: Facts, line: CandidateLine, keys: seq<Key>): seq<ComputedLine> {
    if keys == [] then []
    else LinesOfKeys(f, line, keys[..|keys| - 1]) + KeyLines(f, line, keys[|keys| - 1])
  }

  function CandidateLines(f: Facts, line: CandidateLine): seq<ComputedLine> {
    LinesOfKeys(f, line, KeysFor(f, line))
  }

  function LinesOfCandidates(f: Facts, candidates: seq<CandidateLine>): seq<ComputedLine> {
    if candidates == [] then []
    else
      LinesOfCandidates(f, candidates[..|candidates| - 1])
      + CandidateLines(f, candidates[|candidates| - 1])
  }

  /** Every non-zero commission line the month owes. */
  function MonthLines(f: Facts): seq<ComputedLine> {
    LinesOfCandidates(f, f.candidates)
  }

  /** The rows a close stores. */
  function Stored(lines: seq<ComputedLine>): seq<StoredLine> {
    if lines == [] then [] else Stored(lines[..|lines| - 1]) + [FromComputed(lines[|lines| - 1])]
  }

  // ----- the computation, as it runs

  method DeriveKeys(line: CandidateLine, settings: Settings) returns (keys: seq<Key>)
    ensures keys == DerivedKeys(line, settings)
  {
    keys := [];
    if line.csp.None? {
      return;
    }
    var branches := Branches(line);
    for i := 0 to |branches|
      invariant keys == KeysOfBranches(line, settings, branches[..i])
    {
      assert branches[..i + 1][..i] == branches[..i];
      var agent, participation := branches[i].0, branches[i].1;
      if agent in settings.agents {
        var share := 0.0;
        if line.labelId.Some? && (agent, line.labelId.value, participation) in settings.rates {
          share := settings.rates[(agent, line.labelId.value, participation)];
        }
        var name := "";
        if participation in settings.participations {
          name := settings.participations[participation];
        }
        keys := keys + [Key(agent, participation, name, share, line.labelId, line.labelName,
                            if line.labelId.Some? then line.labelRate else 0.0, line.csp.value)];
      }
    }
    assert branches[..|branches|] == branches;
  }

  method FreezeKeys(rows: seq<StoredLine>) returns (keys: seq<Key>)
    ensures keys == FrozenKeys(rows)
  {
    keys := [];
    var seen: set<(int, int)> := {};
    for i := 0 to |rows|
      invariant keys == FrozenKeys(rows[..i])
      invariant forall id :: id in seen <==> HasId(keys, id)
    {
      assert rows[..i + 1][..i] == rows[..i];
      if rows[i].Id() !in seen {
        ghost var before := keys;
        keys := keys + [KeyOf(rows[i])];
        seen := seen + {rows[i].Id()};
        assert forall k :: k in keys <==> k in before || k == KeyOf(rows[i]);
        assert KeyOf(rows[i]) in keys;
      }
    }
    assert rows[..|rows|] == rows;
  }

  /** `dict.get(detail, [])`. */
  function Entries<T>(byLine: map<int, seq<T>>, detail: int): seq<T> {
    if detail in byLine then byLine[detail] else []
  }

  /** `dict.setdefault(row.detail, []).append(row)`, over all the stored rows. */
  method StoredByLine(rows: seq<StoredLine>) returns (byLine: map<int, seq<StoredLine>>)
    ensures forall d :: Entries(byLine, d) == RowsOf(rows, d)
  {
    byLine := map[];
    for i := 0 to |rows|
      invariant forall d :: Entries(byLine, d) == RowsOf(rows[..i], d)
    {
      assert rows[..i + 1][..i] == rows[..i];
      var d := rows[i].detail;
      byLine := byLine[d := Entries(byLine, d) + [rows[i]]];
    }
    assert rows[..|rows|] == rows;
  }

  method RefundsByLine(refunds: seq<RefundLine>) returns (byLine: map<int, seq<RefundLine>>)
    ensures forall d :: Entries(byLine, d) == RefundsOf(refunds, d)
  {
    byLine := map[];
    for i := 0 to |refunds|
      invariant forall d :: Entries(byLine, d) == RefundsOf(refunds[..i], d)
    {
      assert refunds[..i + 1][..i] == refunds[..i];
      var d := refunds[i].detail;
      byLine := byLine[d := Entries(byLine, d) + [refunds[i]]];
    }
    assert refunds[..|refunds|] == refunds;
  }

  method SumSales(rows: seq<StoredLine>) returns (sum: int)
    ensures sum == SalesSum(rows)
  {
    sum := 0;
    for i := 0 to |rows|
      invariant sum == SalesSum(rows[..i])
    {
      assert rows[..i + 1][..i] == rows[..i];
      if rows[i].movement == Sale {
        sum := sum + rows[i].commission;
      }
    }
    assert rows[..|rows|] == rows;
  }

  /** What was applied is the ratio's part of what is owed net of refunds, until all of it is. */
  lemma RatioIsThePaidPart(m: OrderMoney)
    ensures PaidRatio(m) <= 1.0
    ensures var owed := m.orderTotal - m.refunded;
            && (owed <= 0.0 ==> PaidRatio(m) == 1.0)
            && (owed > 0.0 ==> PaidRatio(m) * owed == if m.applied < owed then m.applied else owed)
  {
    var owed := m.orderTotal - m.refunded;
    if owed > 0.0 {
      var part := m.applied / owed;
      assert part * owed == m.applied;
      PartBelowOne(m.applied, owed);
    }
  }

  lemma PartBelowOne(applied: real, owed: real)
    requires owed > 0.0
    ensures applied / owed < 1.0 <==> applied < owed
  {
    var part := applied / owed;
    assert part * owed == applied;
    if part >= 1.0 {
      assert part * owed >= owed;
    } else {
      assert part * owed < owed;
    }
  }

  method SettledRatio(m: OrderMoney) returns (ratio: real)
    ensures ratio == PaidRatio(m) && ratio <= 1.0
    ensures var owed := m.orderTotal - m.refunded;
            && (owed <= 0.0 ==> ratio == 1.0)
            && (owed > 0.0 ==> ratio * owed == if m.applied < owed then m.applied else owed)
  {
    RatioIsThePaidPart(m);
    var owed := m.orderTotal - m.refunded;
    ratio := 1.0;
    if owed > 0.0 {
      var part := m.applied / owed;
      if part < 1.0 {
        ratio := part;
      }
    }
  }

  /** The sale of one key: what is due by now, less what was stored. */
  method ComputeSale(f: Facts, line: CandidateLine, key: Key, keyRows: seq<StoredLine>, scheme: Scheme)
    returns (out: seq<ComputedLine>, saleCountsNow: bool)
    requires scheme == SchemeOf(f.settings, key, keyRows)
    ensures out == SaleLines(f, line, key, keyRows)
    ensures saleCountsNow == (scheme == FullyPaid && SaleCountsNow(f, line, HasSale(keyRows)))
  {
    var storedSales := SumSales(keyRows);
    var hasStoredSale := HasSale(keyRows);
    var full := FullCommission(line.price, line.quantity, key.Rate());
    var due: Option<Due> := None;
    saleCountsNow := false;
    if scheme == FullyPaid {
      var zeroed := line.zeroed;
      var inMonth := zeroed.Some? && f.monthStart <= zeroed.value < f.nextMonth;
      var pickedUpLate :=
        && zeroed.Some? && f.chainStart.Some?
        && f.chainStart.value <= zeroed.value < f.monthStart && !hasStoredSale;
      if line.isPaid && (inMonth || pickedUpLate) {
        saleCountsNow := true;
        due := Some(Due(full, zeroed.value, None));
      }
    } else if line.salesOrder in f.money {
      var m := f.money[line.salesOrder];
      var ratio := SettledRatio(m);
      due := Some(Due(ShareOf(full, ratio), m.lastActivity.Or(f.monthStart),
                      Some(RoundHalfAway(ratio * 1000000.0))));
    }
    assert due == SaleDue(f, line, key, keyRows);
    out := [];
    if due.Some? {
      var amount := due.value.amount - storedSales;
      var listedAtZero := full == 0 && !hasStoredSale;
      if amount != 0 || listedAtZero {
        out := [Line(line, key, scheme, Sale, None, due.value.paidDate, line.price, line.quantity,
                     LineTotal(line.price, line.quantity), full, due.value.share, amount)];
      }
    }
  }

  /** The refunds of one key: each one dated before the month's end and not yet stored. */
  method ComputeRefunds(f: Facts, line: CandidateLine, key: Key, keyRows: seq<StoredLine>, scheme: Scheme,
                        saleCountsNow: bool, refunds: seq<RefundLine>)
    returns (out: seq<ComputedLine>)
    requires scheme == SchemeOf(f.settings, key, keyRows)
    requires saleCountsNow == (scheme == FullyPaid && SaleCountsNow(f, line, HasSale(keyRows)))
    ensures out == RefundLines(f, line, key, keyRows, refunds)
  {
    var storedRefunds := RefundIds(keyRows);
    var hasStoredSale := HasSale(keyRows);
    out := [];
    for i := 0 to |refunds|
      invariant out == RefundLines(f, line, key, keyRows, refunds[..i])
    {
      assert refunds[..i + 1][..i] == refunds[..i];
      var r := refunds[i];
      if r.date >= f.nextMonth || Some(r.id) in storedRefunds {
        continue;
      }
      if scheme == FullyPaid && !(saleCountsNow || hasStoredSale) {
        continue;
      }
      var refundTotal := LineTotal(r.price, r.quantity);
      var amount := FullCommission(r.price, r.quantity, key.Rate());
      if amount != 0 {
        out := out + [Line(line, key, scheme, Refund, Some(r.id), r.date,
                           r.price, r.quantity, refundTotal, amount, None, amount)];
      }
    }
    assert refunds[..|refunds|] == refunds;
  }

  /** One key of a candidate: its sale line, then the refunds charged to it. */
  method ComputeKey(f: Facts, line: CandidateLine, key: Key, rows: seq<StoredLine>, refunds: seq<RefundLine>)
    returns (out: seq<ComputedLine>)
    requires rows == RowsOf(f.stored, line.detail)
    requires refunds == RefundsOf(f.refunds, line.detail)
    ensures out == KeyLines(f, line, key)
  {
    var keyRows := KeyRows(rows, key.Id());
    var scheme := SchemeOf(f.settings, key, keyRows);
    var sale, saleCountsNow := ComputeSale(f, line, key, keyRows, scheme);
    var charged := ComputeRefunds(f, line, key, keyRows, scheme, saleCountsNow, refunds);
    out := sale + charged;
  }

  /** One candidate: its keys, frozen once it has stored rows, and the lines of each. */
  method ComputeCandidate(f: Facts, line: CandidateLine, rows: seq<StoredLine>, refunds: seq<RefundLine>)
    returns (out: seq<ComputedLine>)
    requires rows == RowsOf(f.stored, line.detail)
    requires refunds == RefundsOf(f.refunds, line.detail)
    ensures out == CandidateLines(f, line)
  {
    var keys;
    if rows != [] {
      keys := FreezeKeys(rows);
    } else {
      keys := DeriveKeys(line, f.settings);
    }
    out := [];
    for j := 0 to |keys|
      invariant out == LinesOfKeys(f, line, keys[..j])
    {
      LinesOfNextKey(f, line, keys, j);
      var lines := ComputeKey(f, line, keys[j], rows, refunds);
      out := out + lines;
    }
    assert keys[..|keys|] == keys;
  }

  lemma LinesOfNextKey(f: Facts, line: CandidateLine, keys: seq<Key>, j: nat)
    requires j < |keys|
    ensures LinesOfKeys(f, line, keys[..j + 1]) == LinesOfKeys(f, line, keys[..j]) + KeyLines(f, line, keys[j])
  {
    assert keys[..j + 1][..j] == keys[..j];
  }

  lemma LinesOfNextCandidate(f: Facts, i: nat)
    requires i < |f.candidates|
    ensures LinesOfCandidates(f, f.candidates[..i + 1])
         == LinesOfCandidates(f, f.candidates[..i]) + CandidateLines(f, f.candidates[i])
  {
    assert f.candidates[..i + 1][..i] == f.candidates[..i];
  }

  method ComputeMonth(f: Facts) returns (out: seq<ComputedLine>)
    ensures out == MonthLines(f)
  {
    var storedByLine := StoredByLine(f.stored);
    var refundsByLine := RefundsByLine(f.refunds);
    out := [];
    for i := 0 to |f.candidates|
      invariant out == LinesOfCandidates(f, f.candidates[..i])
    {
      var line := f.candidates[i];
      LinesOfNextCandidate(f, i);
      var rows := Entries(storedByLine, line.detail);
      var refunds := Entries(refundsByLine, line.detail);
      var lines := ComputeCandidate(f, line, rows, refunds);
      out := out + lines;
    }
    assert f.candidates[..|f.candidates|] == f.candidates;
  }
}
