/** Months of commissions: closing freezes a month's lines, reopening discards the latest closed
    month's, paying makes them final.

    A month is its number, `12 * year + month - 1`; a month with no row is open.  Because a time is
    a number whose floor is its month, month `m` starts at `m as real` and ends before
    `(m + 1) as real`. */
module CommissionPeriods {
  import opened Outcomes
  import opened CommissionRules
  import opened CommissionLaws
  import opened CommissionCap
  import opened CommissionEarners
  import opened Tables

  datatype Status = Open | Closed | Paid

  datatype Period = Period(status: Status, lines: seq<ComputedLine>)

  datatype Refusal =
    NotEnded | AlreadyPaid | AlreadyClosed | LaterClosed | PreviousNotClosed
    | PaidCannotReopen | NotClosed

  /** The facts a month finds when it is computed. */
  datatype World = World(
    candidates: seq<CandidateLine>, money: map<int, OrderMoney>, refunds: seq<RefundLine>,
    settings: Settings)

  type Periods = map<int, Period>

  // ----- months

  function MonthNumber(year: int, month: int): int {
    12 * year + month - 1
  }

  function Previous(year: int, month: int): (int, int) {
    if month == 1 then (year - 1, 12) else (year, month - 1)
  }

  /** `_previous` is the month before, and (year, month) pairs compare as the months do. */
  lemma MonthsInOrder(year: int, month: int, otherYear: int, otherMonth: int)
    requires 1 <= month <= 12 && 1 <= otherMonth <= 12
    ensures var (y, m) := Previous(year, month);
            1 <= m <= 12 && MonthNumber(y, m) == MonthNumber(year, month) - 1
    ensures otherYear > year || (otherYear == year && otherMonth > month)
            <==> MonthNumber(otherYear, otherMonth) > MonthNumber(year, month)
    ensures otherYear == year && otherMonth == month
            <==> MonthNumber(otherYear, otherMonth) == MonthNumber(year, month)
  {
  }

  // ----- the tables

  predicate IsClosed(p: Period) {
    p.status != Open
  }

  function ClosedMonths(periods: Periods): set<int> {
    set m | m in periods && IsClosed(periods[m])
  }

  function ChainStart(periods: Periods): Option<int> {
    var closed := ClosedMonths(periods);
    if closed == {} then None else Some(Least(closed))
  }

  function LatestClosed(periods: Periods): Option<int> {
    var closed := ClosedMonths(periods);
    if closed == {} then None else Some(Greatest(closed))
  }

  /** The rows of the closed months from `first` to `last`, oldest month first. */
  function RowsBetween(periods: Periods, first: int, last: int): seq<StoredLine>
    decreases last - first
  {
    if last < first then []
    else
      RowsBetween(periods, first, last - 1)
      + if last in periods && IsClosed(periods[last]) then Stored(periods[last].lines) else []
  }

  /** The ledger every computation subtracts: the lines of closed and paid months. */
  function StoredRows(periods: Periods): seq<StoredLine> {
    if ClosedMonths(periods) == {} then []
    else RowsBetween(periods, ChainStart(periods).value, LatestClosed(periods).value)
  }

  function MonthFacts(periods: Periods, m: int, w: World): Facts {
    var start := ChainStart(periods);
    Facts(m as real, (m + 1) as real, if start.Some? then Some(start.value as real) else None,
          w.candidates, w.money, w.refunds, StoredRows(periods), w.settings)
  }

  // ----- the operations

  function LinesIn(periods: Periods, m: int): seq<ComputedLine> {
    if m in periods then periods[m].lines else []
  }

  function CloseRefusal(periods: Periods, m: int, now: Time): Option<Refusal> {
    var latest := LatestClosed(periods);
    if now < (m + 1) as real then Some(NotEnded)
    else if m in periods && periods[m].status == Paid then Some(AlreadyPaid)
    else if m in periods && periods[m].status == Closed then Some(AlreadyClosed)
    else if latest.Some? && latest.value != m - 1 then
      Some(if latest.value > m then LaterClosed else PreviousNotClosed)
    else None
  }

  /** The month's lines, computed from the facts as they are, frozen with it. */
  function Freeze(periods: Periods, m: int, w: World): Periods {
    periods[m := Period(Closed, LinesIn(periods, m) + MonthLines(MonthFacts(periods, m, w)))]
  }

  function CloseMonth(periods: Periods, m: int, now: Time, w: World): Result<Periods, Refusal> {
    var refusal := CloseRefusal(periods, m, now);
    if refusal.Some? then Refused(refusal.value) else Ok(Freeze(periods, m, w))
  }

  function ReopenMonth(periods: Periods, m: int): Result<Periods, Refusal> {
    if m in periods && periods[m].status == Paid then Refused(PaidCannotReopen)
    else if m !in periods || periods[m].status != Closed then Refused(NotClosed)
    else if LatestClosed(periods) != Some(m) then Refused(LaterClosed)
    else Ok(periods[m := Period(Open, [])])
  }

  function PayMonth(periods: Periods, m: int): Result<Periods, Refusal> {
    if m in periods && periods[m].status == Paid then Refused(AlreadyPaid)
    else if m !in periods || periods[m].status != Closed then Refused(NotClosed)
    else Ok(periods[m := periods[m].(status := Paid)])
  }

  /** The service, over its two tables: the periods' statuses and their lines. */
  class CommissionService {
    var status: map<int, Status>
    var lines: map<int, seq<ComputedLine>>

    ghost predicate Valid()
      reads this
    {
      status.Keys == lines.Keys
    }

    function Table(): (p: Periods)
      requires Valid()
      reads this
      ensures p.Keys == status.Keys
    {
      map m | m in status :: Period(status[m], lines[m])
    }

    constructor ()
      ensures Valid() && Table() == map[]
    {
      status, lines := map[], map[];
    }

    method CheckClose(year: int, month: int, now: Time) returns (refusal: Option<Refusal>)
      requires Valid() && 1 <= month <= 12
      ensures refusal == CloseRefusal(Table(), MonthNumber(year, month), now)
    {
      var m := MonthNumber(year, month);
      if now < (m + 1) as real {
        return Some(NotEnded);
      }
      if m in status && status[m] == Paid {
        return Some(AlreadyPaid);
      }
      if m in status && status[m] == Closed {
        return Some(AlreadyClosed);
      }
      var latest := LatestClosed(Table());
      var (previousYear, previousMonth) := Previous(year, month);
      MonthsInOrder(year, month, year, month);
      if latest.Some? && latest.value != MonthNumber(previousYear, previousMonth) {
        if latest.value > m {
          return Some(LaterClosed);
        }
        return Some(PreviousNotClosed);
      }
      return None;
    }

    method StoreLines(m: int, computed: seq<ComputedLine>)
      requires Valid()
      modifies this
      ensures Valid()
      ensures Table() == old(Table())[m := Period(Closed, LinesIn(old(Table()), m) + computed)]
    {
      if m !in status {
        lines := lines[m := []];
      }
      status := status[m := Closed];
      lines := lines[m := lines[m] + computed];
    }

    method Close(year: int, month: int, now: Time, w: World) returns (r: Result<(), Refusal>)
      requires Valid() && 1 <= month <= 12
      modifies this
      ensures Valid()
      ensures var done := CloseMonth(old(Table()), MonthNumber(year, month), now, w);
              if done.Ok? then r == Ok(()) && Table() == done.value
              else r == Refused(done.error) && Table() == old(Table())
    {
      var m := MonthNumber(year, month);
      var refusal := CheckClose(year, month, now);
      if refusal.Some? {
        return Refused(refusal.value);
      }
      var facts := MonthFacts(Table(), m, w);
      var computed := ComputeMonth(facts);
      StoreLines(m, computed);
      return Ok(());
    }

    method Reopen(year: int, month: int) returns (r: Result<(), Refusal>)
      requires Valid() && 1 <= month <= 12
      modifies this
      ensures Valid()
      ensures var done := ReopenMonth(old(Table()), MonthNumber(year, month));
              if done.Ok? then r == Ok(()) && Table() == done.value
              else r == Refused(done.error) && Table() == old(Table())
    {
      var m := MonthNumber(year, month);
      if m in status && status[m] == Paid {
        return Refused(PaidCannotReopen);
      }
      if m !in status || status[m] != Closed {
        return Refused(NotClosed);
      }
      var latest := LatestClosed(Table());
      assert m in ClosedMonths(Table());
      if latest.value != m {
        return Refused(LaterClosed);
      }
      ghost var before := Table();
      lines := lines[m := []];
      status := status[m := Open];
      assert Table() == before[m := Period(Open, [])];
      return Ok(());
    }

    method Pay(year: int, month: int) returns (r: Result<(), Refusal>)
      requires Valid() && 1 <= month <= 12
      modifies this`status
      ensures Valid()
      ensures var done := PayMonth(old(Table()), MonthNumber(year, month));
              if done.Ok? then r == Ok(()) && Table() == done.value
              else r == Refused(done.error) && Table() == old(Table())
    {
      var m := MonthNumber(year, month);
      if m in status && status[m] == Paid {
        return Refused(AlreadyPaid);
      }
      if m !in status || status[m] != Closed {
        return Refused(NotClosed);
      }
      ghost var before := Table();
      status := status[m := Paid];
      assert Table() == before[m := before[m].(status := Paid)];
      return Ok(());
    }
  }

  // ----- runs

  datatype Event =
    | Closing(month: int, now: Time, world: World)
    | Reopening(month: int)
    | Paying(month: int)

  function Attempt(periods: Periods, e: Event): Result<Periods, Refusal> {
    match e
    case Closing(m, now, w) => CloseMonth(periods, m, now, w)
    case Reopening(m) => ReopenMonth(periods, m)
    case Paying(m) => PayMonth(periods, m)
  }

  /** A refused event changes nothing. */
  function Step(periods: Periods, e: Event): Periods {
    var done := Attempt(periods, e);
    if done.Ok? then done.value else periods
  }

  function Run(periods: Periods, events: seq<Event>): Periods {
    if events == [] then periods else Step(Run(periods, events[..|events| - 1]), events[|events| - 1])
  }

  /** Months may find any payments, reversals, refunds, rates and schemes, as long as the queries
      are what they are and order lines keep the terms they sold at. */
  ghost predicate ValidWorld(w: World, terms: map<int, Terms>) {
    ValidFacts(Facts(0.0, 0.0, None, w.candidates, w.money, w.refunds, [], w.settings), terms)
  }

  ghost predicate ValidEvents(events: seq<Event>, terms: map<int, Terms>) {
    forall e :: e in events && e.Closing? ==> ValidWorld(e.world, terms)
  }

  // ----- what every run keeps

  /** The closed months are exactly those from `first` to `last`. */
  ghost predicate Unbroken(periods: Periods, first: int, last: int) {
    forall m :: m in ClosedMonths(periods) <==> first <= m <= last
  }

  ghost predicate GoodUpTo(periods: Periods, terms: map<int, Terms>, first: int, m: int) {
    && GoodLedger(RowsBetween(periods, first, m), terms)
    && KeepsKeys(RowsBetween(periods, first, m - 1), Stored(LinesIn(periods, m)))
  }

  ghost predicate Inv(periods: Periods, terms: map<int, Terms>) {
    && (forall m :: m in periods && periods[m].status == Open ==> periods[m].lines == [])
    && exists first, last :: InvFrom(periods, terms, first, last)
  }

  ghost predicate InvFrom(periods: Periods, terms: map<int, Terms>, first: int, last: int) {
    && Unbroken(periods, first, last)
    && forall m :: first <= m <= last ==> GoodUpTo(periods, terms, first, m)
  }

  lemma {:induction false} RowsUntouched(p: Periods, q: Periods, first: int, last: int)
    requires forall m :: first <= m <= last ==> (m in p <==> m in q) && (m in p ==> IsClosed(p[m]) == IsClosed(q[m]) && p[m].lines == q[m].lines)
    ensures RowsBetween(p, first, last) == RowsBetween(q, first, last)
    decreases last - first
  {
    if first <= last {
      RowsUntouched(p, q, first, last - 1);
    }
  }

  lemma GoodUntouched(p: Periods, q: Periods, terms: map<int, Terms>, first: int, m: int)
    requires first <= m && GoodUpTo(p, terms, first, m)
    requires forall k :: first <= k <= m ==> (k in p <==> k in q) && (k in p ==> IsClosed(p[k]) == IsClosed(q[k]) && p[k].lines == q[k].lines)
    ensures GoodUpTo(q, terms, first, m)
  {
    RowsUntouched(p, q, first, m);
    RowsUntouched(p, q, first, m - 1);
  }

  /** With the closed months unbroken, the ledger is theirs in order. */
  lemma StoredRowsFrom(periods: Periods, first: int, last: int)
    requires Unbroken(periods, first, last)
    ensures StoredRows(periods) == RowsBetween(periods, first, last)
    ensures first <= last ==> ChainStart(periods) == Some(first) && LatestClosed(periods) == Some(last)
    ensures last < first ==> ChainStart(periods) == None && LatestClosed(periods) == None
  {
    ClosedEnds(ClosedMonths(periods), first, last);
  }

  lemma ClosedEnds(closed: set<int>, first: int, last: int)
    requires forall m :: m in closed <==> first <= m <= last
    ensures first <= last ==> closed != {} && Least(closed) == first && Greatest(closed) == last
    ensures last < first ==> closed == {}
  {
    if first <= last {
      assert first in closed && last in closed;
    } else {
      assert forall m :: m !in closed;
    }
  }

  /** Overwriting a month leaves the closed months before it, and their rows, alone. */
  lemma OtherMonths(p: Periods, q: Periods, m: int, period: Period, first: int, last: int)
    requires q == p[m := period] && last < m
    ensures RowsBetween(q, first, last) == RowsBetween(p, first, last)
    ensures ClosedMonths(q) - {m} == ClosedMonths(p) - {m}
    ensures m in ClosedMonths(q) <==> IsClosed(period)
  {
    RowsUntouched(p, q, first, last);
  }

  lemma ClosedWith(p: Periods, q: Periods, m: int, start: int)
    requires Unbroken(p, start, m - 1) && start <= m
    requires ClosedMonths(q) - {m} == ClosedMonths(p) - {m} && m in ClosedMonths(q)
    ensures Unbroken(q, start, m)
  {
    forall k ensures k in ClosedMonths(q) <==> start <= k <= m {
      assert k in ClosedMonths(q) - {m} <==> k in ClosedMonths(p) - {m};
    }
  }

  lemma GoodEarlier(p: Periods, q: Periods, terms: map<int, Terms>, m: int, period: Period, start: int)
    requires q == p[m := period]
    requires forall k :: start <= k < m ==> GoodUpTo(p, terms, start, k)
    ensures forall k :: start <= k < m ==> GoodUpTo(q, terms, start, k)
  {
    forall k | start <= k < m ensures GoodUpTo(q, terms, start, k) {
      GoodUntouched(p, q, terms, start, k);
    }
  }

  /** The month after the last closed one, or the first of all, joins the interval. */
  lemma AddMonth(p: Periods, q: Periods, terms: map<int, Terms>, m: int, period: Period, start: int)
    requires InvFrom(p, terms, start, m - 1) && start <= m && q == p[m := period] && IsClosed(period)
    requires GoodUpTo(q, terms, start, m)
    ensures InvFrom(q, terms, start, m)
  {
    OtherMonths(p, q, m, period, start, m - 1);
    ClosedWith(p, q, m, start);
    GoodEarlier(p, q, terms, m, period, start);
  }

  /** No interval is an interval that starts anywhere. */
  lemma NoneClosed(p: Periods, terms: map<int, Terms>, first: int, last: int, m: int)
    requires InvFrom(p, terms, first, last) && last < first
    ensures InvFrom(p, terms, m, m - 1)
  {
  }

  lemma CloseKeepsInv(periods: Periods, terms: map<int, Terms>, m: int, now: Time, w: World, first: int, last: int)
    requires Inv(periods, terms) && InvFrom(periods, terms, first, last) && ValidWorld(w, terms)
    requires CloseRefusal(periods, m, now) == None
    ensures InvFrom(Freeze(periods, m, w), terms, if first <= last then first else m, m)
  {
    var start := if first <= last then first else m;
    ClosesNext(periods, terms, m, now, first, last);
    EmptyOrGood(periods, terms, start, m - 1);
    FrozenMonthGood(periods, terms, m, w, start);
    AddMonth(periods, Freeze(periods, m, w), terms, m, Freeze(periods, m, w)[m], start);
  }

  /** A month that may close comes right after the closed ones, if there are any. */
  lemma ClosesNext(periods: Periods, terms: map<int, Terms>, m: int, now: Time, first: int, last: int)
    requires Inv(periods, terms) && InvFrom(periods, terms, first, last) && CloseRefusal(periods, m, now) == None
    ensures var start := if first <= last then first else m;
            && start <= m && InvFrom(periods, terms, start, m - 1)
            && StoredRows(periods) == RowsBetween(periods, start, m - 1) && LinesIn(periods, m) == []
  {
    StoredRowsFrom(periods, first, last);
    if last < first {
      NoneClosed(periods, terms, first, last, m);
    }
  }

  /** The month just frozen. */
  lemma FrozenMonthGood(periods: Periods, terms: map<int, Terms>, m: int, w: World, start: int)
    requires start <= m && StoredRows(periods) == RowsBetween(periods, start, m - 1)
    requires GoodLedger(StoredRows(periods), terms) && ValidWorld(w, terms)
    requires LinesIn(periods, m) == []
    ensures GoodUpTo(Freeze(periods, m, w), terms, start, m)
  {
    var done := Freeze(periods, m, w);
    var f := MonthFacts(periods, m, w);
    OtherMonths(periods, done, m, done[m], start, m - 1);
    assert ValidFacts(f, terms);
    CloseKeepsLedgerGood(f, terms);
    assert done[m].lines == MonthLines(f);
    assert RowsBetween(done, start, m) == f.stored + Stored(MonthLines(f));
  }

  lemma EmptyOrGood(periods: Periods, terms: map<int, Terms>, first: int, last: int)
    requires first <= last ==> GoodUpTo(periods, terms, first, last)
    ensures GoodLedger(RowsBetween(periods, first, last), terms)
  {
    if last < first {
      forall d ensures RowsOf(RowsBetween(periods, first, last), d) == [] {}
    }
  }

  lemma ReopenKeepsInv(periods: Periods, terms: map<int, Terms>, m: int, first: int, last: int)
    requires InvFrom(periods, terms, first, last)
    requires ReopenMonth(periods, m).Ok?
    ensures m == last && InvFrom(ReopenMonth(periods, m).value, terms, first, last - 1)
  {
    var done := ReopenMonth(periods, m).value;
    StoredRowsFrom(periods, first, last);
    assert m in ClosedMonths(periods);
    forall k ensures k in ClosedMonths(done) <==> first <= k <= last - 1 {
      assert k != m ==> (k in ClosedMonths(done) <==> k in ClosedMonths(periods));
    }
    forall k | first <= k <= last - 1 ensures GoodUpTo(done, terms, first, k) {
      GoodUntouched(periods, done, terms, first, k);
    }
  }

  lemma PayKeepsInv(periods: Periods, terms: map<int, Terms>, m: int, first: int, last: int)
    requires InvFrom(periods, terms, first, last)
    requires PayMonth(periods, m).Ok?
    ensures InvFrom(PayMonth(periods, m).value, terms, first, last)
  {
    var done := PayMonth(periods, m).value;
    forall k ensures k in ClosedMonths(done) <==> first <= k <= last {
      assert k in ClosedMonths(done) <==> k in ClosedMonths(periods);
    }
    forall k | first <= k <= last ensures GoodUpTo(done, terms, first, k) {
      GoodUntouched(periods, done, terms, first, k);
    }
  }

  lemma StepKeepsInv(periods: Periods, terms: map<int, Terms>, e: Event)
    requires Inv(periods, terms) && (e.Closing? ==> ValidWorld(e.world, terms))
    ensures Inv(Step(periods, e), terms)
  {
    var first, last :| InvFrom(periods, terms, first, last);
    if Attempt(periods, e).Ok? {
      match e
      case Closing(m, now, w) => CloseKeepsInv(periods, terms, m, now, w, first, last);
      case Reopening(m) => ReopenKeepsInv(periods, terms, m, first, last);
      case Paying(m) => PayKeepsInv(periods, terms, m, first, last);
    }
  }

  lemma {:induction false} RunKeepsInv(periods: Periods, terms: map<int, Terms>, events: seq<Event>)
    requires Inv(periods, terms) && ValidEvents(events, terms)
    ensures Inv(Run(periods, events), terms)
  {
    if events != [] {
      RunKeepsInv(periods, terms, events[..|events| - 1]);
      StepKeepsInv(Run(periods, events[..|events| - 1]), terms, events[|events| - 1]);
    }
  }

  lemma NothingClosedYet(terms: map<int, Terms>)
    ensures Inv(map[], terms)
  {
    assert InvFrom(map[], terms, 0, -1);
  }

  /** After any run of closes, reopens and pays, whatever the months found: the stored sale
      commissions of each (order line, agent, participation) add up to no less than zero and no
      more than the full commission at its one frozen rate, and each refund line is charged to it
      at most once. */
  lemma NeverMoreThanTheFullCommission(terms: map<int, Terms>, events: seq<Event>)
    requires ValidEvents(events, terms)
    ensures var rows := StoredRows(Run(map[], events));
            forall r :: r in rows ==>
              var same := KeyRows(RowsOf(rows, r.detail), r.Id());
              && r.detail in terms
              && 0 <= SalesSum(same)
                   <= FullCommission(terms[r.detail].price, terms[r.detail].quantity, KeyOf(r).Rate())
              && (forall q :: q in same ==> KeyOf(q) == KeyOf(r))
              && RefundsOnce(same)
  {
    var periods := Run(map[], events);
    NothingClosedYet(terms);
    RunKeepsInv(map[], terms, events);
    var first, last :| InvFrom(periods, terms, first, last);
    StoredRowsFrom(periods, first, last);
    EmptyOrGood(periods, terms, first, last);
    var rows := StoredRows(periods);
    forall r | r in rows
      ensures var same := KeyRows(RowsOf(rows, r.detail), r.Id());
              && r.detail in terms
              && 0 <= SalesSum(same)
                   <= FullCommission(terms[r.detail].price, terms[r.detail].quantity, KeyOf(r).Rate())
              && (forall q :: q in same ==> KeyOf(q) == KeyOf(r))
              && RefundsOnce(same)
    {
      var ofLine := RowsOf(rows, r.detail);
      RowsOfMatch(rows, r.detail);
      assert r in ofLine;
      assert GoodRows(ofLine, terms[r.detail]);
      assert Capped(ofLine, r, terms[r.detail]);
      KeyRowsMatch(ofLine, r.Id());
    }
  }

  /** After any run the closed months form one unbroken interval, and from its first month on every
      row of an order line is under a key, names and rates the line had before that month, if it
      had any: its set of keys never grows after the month that first stored it. */
  lemma ClosedMonthsUnbrokenAndKeysFrozen(terms: map<int, Terms>, events: seq<Event>)
    returns (first: int, last: int)
    requires ValidEvents(events, terms)
    ensures Unbroken(Run(map[], events), first, last)
    ensures forall m :: first <= m <= last ==>
              KeepsKeys(RowsBetween(Run(map[], events), first, m - 1), Stored(LinesIn(Run(map[], events), m)))
  {
    NothingClosedYet(terms);
    RunKeepsInv(map[], terms, events);
    first, last :| InvFrom(Run(map[], events), terms, first, last);
    var periods := Run(map[], events);
    forall m | first <= m <= last
      ensures KeepsKeys(RowsBetween(periods, first, m - 1), Stored(LinesIn(periods, m)))
    {
      assert GoodUpTo(periods, terms, first, m);
    }
  }

  /** A month with no closed row is not in the ledger, whatever row it has. */
  lemma OpenMonthUnseen(p: Periods, back: Periods, m: int, start: int)
    requires Unbroken(p, start, m - 1) && back == p[m := Period(Open, [])]
    ensures ClosedMonths(back) == ClosedMonths(p) && StoredRows(back) == StoredRows(p)
  {
    assert m !in ClosedMonths(p);
    OtherMonths(p, back, m, Period(Open, []), start, m - 1);
    assert ClosedMonths(back) == (ClosedMonths(back) - {m}) == ClosedMonths(p);
    StoredRowsFrom(p, start, m - 1);
    StoredRowsFrom(back, start, m - 1);
  }

  lemma Overwritten(p: Periods, m: int, a: Period, b: Period)
    ensures p[m := a][m := b] == p[m := b]
  {
  }

  lemma ReopenRestores(p: Periods, q: Periods, m: int, period: Period, start: int)
    requires Unbroken(p, start, m - 1) && start <= m
    requires q == p[m := period] && period.status == Closed
    ensures ReopenMonth(q, m) == Ok(p[m := Period(Open, [])])
  {
    OtherMonths(p, q, m, period, start, m - 1);
    ClosedWith(p, q, m, start);
    Overwritten(p, m, period, Period(Open, []));
  }

  /** Closing a month and reopening it restores the ledger exactly: what remains is the month's own
      row, open and without lines. */
  lemma ReopenUndoesClose(periods: Periods, terms: map<int, Terms>, m: int, now: Time, w: World)
    requires Inv(periods, terms)
    requires CloseMonth(periods, m, now, w).Ok?
    ensures var back := periods[m := Period(Open, [])];
            && ReopenMonth(CloseMonth(periods, m, now, w).value, m) == Ok(back)
            && StoredRows(back) == StoredRows(periods)
            && ClosedMonths(back) == ClosedMonths(periods)
            && LinesIn(periods, m) == []
  {
    var first, last :| InvFrom(periods, terms, first, last);
    ClosesNext(periods, terms, m, now, first, last);
    var start := if first <= last then first else m;
    var done := Freeze(periods, m, w);
    ReopenRestores(periods, done, m, done[m], start);
    OpenMonthUnseen(periods, periods[m := Period(Open, [])], m, start);
  }

  /** A paid month is final: no run of events changes its status or its lines. */
  lemma {:induction false} PaidIsFinal(periods: Periods, events: seq<Event>, m: int)
    requires m in periods && periods[m].status == Paid
    ensures m in Run(periods, events) && Run(periods, events)[m] == periods[m]
  {
    if events != [] {
      PaidIsFinal(periods, events[..|events| - 1], m);
    }
  }

  // ----- what a close takes, and whom it pays

  lemma LatestIsHighest(periods: Periods, m: int)
    ensures LatestClosed(periods) == Some(m) <==>
              m in periods && periods[m].status != Open && forall k :: k in periods && periods[k].status != Open ==> k <= m
    ensures LatestClosed(periods) == None <==> forall k :: k in periods ==> periods[k].status == Open
  {
    assert forall k :: k in ClosedMonths(periods) <==> k in periods && periods[k].status != Open;
  }

  /** A month closes exactly when it is over and open, and no other is closed but those up to the one before it. */
  lemma ClosesExactlyWhen(periods: Periods, m: int, now: Time, w: World)
    ensures CloseMonth(periods, m, now, w).Ok? <==>
              && now >= (m + 1) as real && (m in periods ==> periods[m].status == Open)
              && (|| (forall k :: k in periods ==> periods[k].status == Open)
                  || (m - 1 in periods && periods[m - 1].status != Open
                      && forall k :: k in periods && periods[k].status != Open ==> k < m))
  {
    LatestIsHighest(periods, m - 1);
    ClosesAfterLatest(periods, m, now);
  }

  lemma ClosesAfterLatest(periods: Periods, m: int, now: Time)
    ensures CloseRefusal(periods, m, now) == None <==>
              && now >= (m + 1) as real && (m in periods ==> periods[m].status == Open)
              && (LatestClosed(periods) == None || LatestClosed(periods) == Some(m - 1))
  {
  }

  /** A month reopens exactly when it is closed, not paid, and no later one is closed; and is paid when closed. */
  lemma ReopensAndPaysExactlyWhen(periods: Periods, m: int)
    ensures ReopenMonth(periods, m).Ok? <==>
              m in periods && periods[m].status == Closed && forall k :: k in periods && periods[k].status != Open ==> k <= m
    ensures PayMonth(periods, m).Ok? <==> m in periods && periods[m].status == Closed
  {
    LatestIsHighest(periods, m);
  }

  lemma StartIsLowest(periods: Periods)
    ensures ChainStart(periods).Some? ==>
              && ChainStart(periods).value in periods && periods[ChainStart(periods).value].status != Open
              && forall k :: k in periods && periods[k].status != Open ==> ChainStart(periods).value <= k
    ensures ChainStart(periods).None? ==> forall k :: k in periods ==> periods[k].status == Open
  {
    assert forall k :: k in ClosedMonths(periods) <==> k in periods && periods[k].status != Open;
  }

  /** Paid within the month, or earlier though not before the first closed month. */
  ghost predicate PaidFor(periods: Periods, m: int, line: CandidateLine) {
    && line.isPaid && line.zeroed.Some?
    && (|| m as real <= line.zeroed.value < (m + 1) as real
        || (line.zeroed.value < m as real
            && exists k :: k in periods && periods[k].status != Open && k as real <= line.zeroed.value))
  }

  lemma PaidNowInMonth(periods: Periods, m: int, w: World, line: CandidateLine)
    ensures PaidNow(MonthFacts(periods, m, w), line) <==> PaidFor(periods, m, line)
  {
    StartIsLowest(periods);
    if line.zeroed.Some? {
      if k :| k in periods && periods[k].status != Open && k as real <= line.zeroed.value {
        assert ChainStart(periods).Some? && ChainStart(periods).value <= k;
      }
    }
  }

  /** The month whose close first finds a line stores for each fully paid agent who earns on it the whole commission if
      the line was paid for by then, and nothing otherwise, and nothing for anyone who does not earn. */
  lemma ClosingPaysWhoEarns(periods: Periods, terms: map<int, Terms>, m: int, now: Time, w: World, line: CandidateLine,
                            agent: int, participation: int)
    requires Inv(periods, terms) && CloseMonth(periods, m, now, w).Ok? && DistinctDetails(w.candidates) && line in w.candidates
    requires forall r :: r in StoredRows(periods) ==> r.detail != line.detail
    ensures var rows := KeyRows(RowsOf(Stored(CloseMonth(periods, m, now, w).value[m].lines), line.detail), (agent, participation));
            && (!Earns(line, w.settings, agent, participation) ==> rows == [])
            && (Earns(line, w.settings, agent, participation) && w.settings.agents[agent] == FullyPaid ==>
                  && SalesSum(rows) == (if PaidFor(periods, m, line) then Whole(line, w.settings, agent, participation) else 0)
                  && (HasSale(rows) <==> PaidFor(periods, m, line)))
  {
    var f := MonthFacts(periods, m, w);
    var first, last :| InvFrom(periods, terms, first, last);
    ClosesNext(periods, terms, m, now, first, last);
    PaidNowInMonth(periods, m, w, line);
    MonthPaysWhoEarns(f, line, agent, participation);
    assert LinesIn(periods, m) + MonthLines(f) == MonthLines(f);
    FrozenLines(periods, m, w);
  }

  lemma FrozenLines(periods: Periods, m: int, w: World)
    requires LinesIn(periods, m) == []
    ensures Freeze(periods, m, w)[m].lines == MonthLines(MonthFacts(periods, m, w))
  {
  }
}
