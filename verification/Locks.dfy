/** The explicit row locks each operation takes, in the order it takes them, and why no interleaving of
    operations can wait in a circle. */
module Locks {
  import opened Outcomes
  import opened Tables

  datatype Row =
    | SessionRow(id: int)
    | PaymentRow(id: int) | RefundRow(id: int) | VoucherRow(id: int) | TripRow(id: int)
    | DeliveryOrderRow(id: int) | StockDocumentRow(id: int, table: int) | DeliveryLineRow(id: int)
    | SalesOrderRow(id: int) | StopRow(id: int)
    | RefundLineRows(id: int)
    | FacilityRow(id: int)
    | WarehouseRow(id: int)

  /** A lock request; a shared one is compatible with other shared ones. */
  datatype Request = Request(row: Row, shared: bool)

  /** The operations, each with the rows it works out before it locks. */
  datatype Operation =
    | CreatePayment(drawer: Option<int>, facility: int)
    | ApplyPayment(payment: int, order: int)
    | ReverseApplication(payment: int, order: int)
    | ConfirmRefund(session: int, refund: int, order: int, facility: int, warehouses: set<int>)
    | ConfirmDelivery(delivery: int, facility: int)
    | CloseStop(trip: int, stop: int, facilities: set<int>, warehouses: set<int>, children: seq<int>)
    | ConfirmVoucher(session: int, voucher: int)
    | VoidVoucher(session: int, voucher: int)
    | CloseSession(session: int)
    | EditStock(table: int, document: int)
    | PostStock(table: int, document: int, warehouses: set<int>)
    | CommitLine(line: int)

  function Write(row: Row): Request {
    Request(row, false)
  }

  function Facilities(ids: seq<int>): (requests: seq<Request>)
    ensures |requests| == |ids| && forall i :: 0 <= i < |ids| ==> requests[i] == Write(FacilityRow(ids[i]))
  {
    if ids == [] then [] else Facilities(ids[..|ids| - 1]) + [Write(FacilityRow(ids[|ids| - 1]))]
  }

  function Warehouses(ids: seq<int>): (requests: seq<Request>)
    ensures |requests| == |ids| && forall i :: 0 <= i < |ids| ==> requests[i] == Write(WarehouseRow(ids[i]))
  {
    if ids == [] then [] else Warehouses(ids[..|ids| - 1]) + [Write(WarehouseRow(ids[|ids| - 1]))]
  }

  /** The last two are of the folios of the refund and of its payout. */
  function RefundRequests(session: int, refund: int, order: int, facility: int, warehouses: seq<int>): seq<Request> {
    [Write(SessionRow(session)), Write(RefundRow(refund)), Write(SalesOrderRow(order)),
     Request(RefundLineRows(refund), true), Write(FacilityRow(facility))]
    + Warehouses(warehouses)
    + [Write(FacilityRow(facility)), Write(FacilityRow(facility))]
  }

  /** The last ones are of the folios of the children. */
  function StopRequests(trip: int, stop: int, facilities: seq<int>, warehouses: seq<int>, children: seq<int>): seq<Request> {
    [Write(TripRow(trip)), Write(StopRow(stop))] + Facilities(facilities) + Warehouses(warehouses) + Facilities(children)
  }

  /** The locks of an operation in its order, repeated requests for rows already held included: each
      folio assigned locks its facility again. */
  function Requests(op: Operation): seq<Request> {
    match op
    case CreatePayment(drawer, facility) =>
      (if drawer.Some? then [Write(SessionRow(drawer.value))] else []) + [Write(FacilityRow(facility))]
    case ApplyPayment(payment, order) => [Write(PaymentRow(payment)), Write(SalesOrderRow(order))]
    case ReverseApplication(payment, order) => [Write(PaymentRow(payment)), Write(SalesOrderRow(order))]
    case ConfirmRefund(session, refund, order, facility, warehouses) =>
      RefundRequests(session, refund, order, facility, Ascending(warehouses))
    case ConfirmDelivery(delivery, facility) =>
      [Write(DeliveryOrderRow(delivery)), Write(FacilityRow(facility)), Write(FacilityRow(facility))]
    case CloseStop(trip, stop, facilities, warehouses, children) =>
      StopRequests(trip, stop, Ascending(facilities), Ascending(warehouses), children)
    case ConfirmVoucher(session, voucher) => [Write(SessionRow(session)), Write(VoucherRow(voucher))]
    case VoidVoucher(session, voucher) => [Write(SessionRow(session)), Write(VoucherRow(voucher))]
    case CloseSession(session) => [Write(SessionRow(session))]
    case EditStock(table, document) => [Write(StockDocumentRow(document, table))]
    case PostStock(table, document, warehouses) =>
      [Write(StockDocumentRow(document, table))] + Warehouses(Ascending(warehouses))
    case CommitLine(line) => [Write(DeliveryLineRow(line))]
  }

  /** A stop's children are numbered in facilities of orders at the stop. */
  predicate WorkedOut(op: Operation) {
    op.CloseStop? ==> forall f :: f in op.children ==> f in op.facilities
  }

  // ----- what each operation locks

  /** The rows each operation has to hold: its own documents, what hangs from them, and every facility it numbers in and
      every warehouse it moves stock of. */
  predicate Needs(op: Operation, row: Row) {
    match op
    case CreatePayment(drawer, facility) => row == FacilityRow(facility) || (drawer.Some? && row == SessionRow(drawer.value))
    case ApplyPayment(payment, order) => row == PaymentRow(payment) || row == SalesOrderRow(order)
    case ReverseApplication(payment, order) => row == PaymentRow(payment) || row == SalesOrderRow(order)
    case ConfirmRefund(session, refund, order, facility, warehouses) => RefundNeeds(session, refund, order, facility, warehouses, row)
    case ConfirmDelivery(delivery, facility) => row == DeliveryOrderRow(delivery) || row == FacilityRow(facility)
    case CloseStop(trip, stop, facilities, warehouses, children) => StopNeeds(trip, stop, facilities, warehouses, row)
    case ConfirmVoucher(session, voucher) => row == SessionRow(session) || row == VoucherRow(voucher)
    case VoidVoucher(session, voucher) => row == SessionRow(session) || row == VoucherRow(voucher)
    case CloseSession(session) => row == SessionRow(session)
    case EditStock(table, document) => row == StockDocumentRow(document, table)
    case PostStock(table, document, warehouses) => row == StockDocumentRow(document, table) || (row.WarehouseRow? && row.id in warehouses)
    case CommitLine(line) => row == DeliveryLineRow(line)
  }

  predicate RefundNeeds(session: int, refund: int, order: int, facility: int, warehouses: set<int>, row: Row) {
    || row == SessionRow(session) || row == RefundRow(refund) || row == SalesOrderRow(order) || row == RefundLineRows(refund)
    || row == FacilityRow(facility) || (row.WarehouseRow? && row.id in warehouses)
  }

  predicate StopNeeds(trip: int, stop: int, facilities: set<int>, warehouses: set<int>, row: Row) {
    || row == TripRow(trip) || row == StopRow(stop)
    || (row.FacilityRow? && row.id in facilities) || (row.WarehouseRow? && row.id in warehouses)
  }

  predicate Asks(requests: seq<Request>, row: Row) {
    exists i :: 0 <= i < |requests| && requests[i].row == row
  }

  lemma AsksBoth(a: seq<Request>, b: seq<Request>, row: Row)
    ensures Asks(a + b, row) <==> Asks(a, row) || Asks(b, row)
  {
    if i :| 0 <= i < |a| && a[i].row == row {
      assert (a + b)[i].row == row;
    }
    if i :| 0 <= i < |b| && b[i].row == row {
      assert (a + b)[|a| + i].row == row;
    }
  }

  lemma AsksEach(ids: seq<int>, row: Row)
    ensures Asks(Facilities(ids), row) <==> row.FacilityRow? && row.id in ids
    ensures Asks(Warehouses(ids), row) <==> row.WarehouseRow? && row.id in ids
  {
    if (row.FacilityRow? || row.WarehouseRow?) && row.id in ids {
      var i :| 0 <= i < |ids| && ids[i] == row.id;
      assert Facilities(ids)[i] == Write(FacilityRow(row.id)) && Warehouses(ids)[i] == Write(WarehouseRow(row.id));
    }
  }

  lemma AsksFew(requests: seq<Request>, row: Row)
    ensures |requests| == 1 ==> (Asks(requests, row) <==> requests[0].row == row)
    ensures |requests| == 2 ==> (Asks(requests, row) <==> requests[0].row == row || requests[1].row == row)
    ensures |requests| == 3 ==> (Asks(requests, row) <==> requests[0].row == row || requests[1].row == row || requests[2].row == row)
  {
  }

  lemma AsksFive(requests: seq<Request>, row: Row)
    requires |requests| == 5
    ensures Asks(requests, row) <==>
              || requests[0].row == row || requests[1].row == row || requests[2].row == row
              || requests[3].row == row || requests[4].row == row
  {
  }

  lemma StopAsks(trip: int, stop: int, facilities: set<int>, warehouses: set<int>, children: seq<int>, row: Row)
    requires forall f :: f in children ==> f in facilities
    ensures Asks(StopRequests(trip, stop, Ascending(facilities), Ascending(warehouses), children), row)
            <==> StopNeeds(trip, stop, facilities, warehouses, row)
  {
    var f, w := Ascending(facilities), Ascending(warehouses);
    StopAsksEach(trip, stop, f, w, children, row);
    assert forall id :: id in f <==> id in facilities;
    assert forall id :: id in w <==> id in warehouses;
  }

  lemma StopAsksEach(trip: int, stop: int, facilities: seq<int>, warehouses: seq<int>, children: seq<int>, row: Row)
    ensures Asks(StopRequests(trip, stop, facilities, warehouses, children), row) <==>
              || row == TripRow(trip) || row == StopRow(stop) || (row.FacilityRow? && (row.id in facilities || row.id in children))
              || (row.WarehouseRow? && row.id in warehouses)
  {
    var own, f, w, c := [Write(TripRow(trip)), Write(StopRow(stop))], Facilities(facilities), Warehouses(warehouses), Facilities(children);
    AsksFew(own, row);
    AsksEach(facilities, row);
    AsksEach(warehouses, row);
    AsksEach(children, row);
    AsksFour(own, f, w, c, row);
  }

  lemma AsksFour(a: seq<Request>, b: seq<Request>, c: seq<Request>, d: seq<Request>, row: Row)
    ensures Asks(a + b + c + d, row) <==> Asks(a, row) || Asks(b, row) || Asks(c, row) || Asks(d, row)
  {
    AsksBoth(a, b, row);
    AsksBoth(a + b, c, row);
    AsksBoth(a + b + c, d, row);
  }

  lemma RefundAsks(session: int, refund: int, order: int, facility: int, warehouses: set<int>, row: Row)
    ensures Asks(RefundRequests(session, refund, order, facility, Ascending(warehouses)), row)
            <==> RefundNeeds(session, refund, order, facility, warehouses, row)
  {
    var w := Ascending(warehouses);
    RefundAsksEach(session, refund, order, facility, w, row);
    assert forall id :: id in w <==> id in warehouses;
  }

  lemma RefundAsksEach(session: int, refund: int, order: int, facility: int, warehouses: seq<int>, row: Row)
    ensures Asks(RefundRequests(session, refund, order, facility, warehouses), row) <==>
              || row == SessionRow(session) || row == RefundRow(refund) || row == SalesOrderRow(order)
              || row == RefundLineRows(refund) || row == FacilityRow(facility) || (row.WarehouseRow? && row.id in warehouses)
  {
    var own := [Write(SessionRow(session)), Write(RefundRow(refund)), Write(SalesOrderRow(order)),
                Request(RefundLineRows(refund), true), Write(FacilityRow(facility))];
    var w, folios := Warehouses(warehouses), [Write(FacilityRow(facility)), Write(FacilityRow(facility))];
    AsksFive(own, row);
    AsksFew(folios, row);
    AsksEach(warehouses, row);
    AsksBoth(own, w, row);
    AsksBoth(own + w, folios, row);
  }

  lemma PostAsks(table: int, document: int, warehouses: set<int>, row: Row)
    ensures Asks([Write(StockDocumentRow(document, table))] + Warehouses(Ascending(warehouses)), row)
            <==> row == StockDocumentRow(document, table) || (row.WarehouseRow? && row.id in warehouses)
  {
    var own, w := [Write(StockDocumentRow(document, table))], Ascending(warehouses);
    AsksFew(own, row);
    AsksEach(w, row);
    AsksBoth(own, Warehouses(w), row);
    assert forall id :: id in w <==> id in warehouses;
  }

  lemma FewAsk(op: Operation, row: Row)
    requires !op.CloseStop? && !op.ConfirmRefund? && !op.PostStock?
    ensures Asks(Requests(op), row) <==> Needs(op, row)
  {
    AsksFew(Requests(op), row);
  }

  /** An operation asks for exactly the rows it has to hold. */
  lemma LocksExactlyItsRows(op: Operation, row: Row)
    requires WorkedOut(op)
    ensures Asks(Requests(op), row) <==> Needs(op, row)
  {
    if op.CloseStop? {
      StopLocks(op, row);
    } else if op.ConfirmRefund? {
      RefundLocks(op, row);
    } else if op.PostStock? {
      PostLocks(op, row);
    } else {
      FewAsk(op, row);
    }
  }

  lemma StopLocks(op: Operation, row: Row)
    requires op.CloseStop? && WorkedOut(op)
    ensures Asks(Requests(op), row) <==> Needs(op, row)
  {
    StopAsks(op.trip, op.stop, op.facilities, op.warehouses, op.children, row);
  }

  lemma RefundLocks(op: Operation, row: Row)
    requires op.ConfirmRefund?
    ensures Asks(Requests(op), row) <==> Needs(op, row)
  {
    RefundAsks(op.session, op.refund, op.order, op.facility, op.warehouses, row);
  }

  lemma PostLocks(op: Operation, row: Row)
    requires op.PostStock?
    ensures Asks(Requests(op), row) <==> Needs(op, row)
  {
    PostAsks(op.table, op.document, op.warehouses, row);
  }

  /** It asks for all of them for itself, but for a refund's lines, which others may read too. */
  lemma OnlyRefundLinesAreShared(op: Operation)
    ensures SharesRightly(Requests(op))
  {
    if op.CloseStop? {
      StopSharesNothing(op.trip, op.stop, Ascending(op.facilities), Ascending(op.warehouses), op.children);
    } else if op.ConfirmRefund? {
      RefundSharesItsLines(op.session, op.refund, op.order, op.facility, Ascending(op.warehouses));
    } else if op.PostStock? {
      EachIsOwn(Ascending(op.warehouses));
    }
  }

  predicate SharesRightly(requests: seq<Request>) {
    forall i :: 0 <= i < |requests| ==> (requests[i].shared <==> requests[i].row.RefundLineRows?)
  }

  lemma EachIsOwn(ids: seq<int>)
    ensures SharesRightly(Facilities(ids)) && SharesRightly(Warehouses(ids))
  {
  }

  lemma StopSharesNothing(trip: int, stop: int, facilities: seq<int>, warehouses: seq<int>, children: seq<int>)
    ensures SharesRightly(StopRequests(trip, stop, facilities, warehouses, children))
  {
    EachIsOwn(facilities);
    EachIsOwn(warehouses);
    EachIsOwn(children);
    BothShareRightly([Write(TripRow(trip)), Write(StopRow(stop))], Facilities(facilities));
  }

  lemma RefundSharesItsLines(session: int, refund: int, order: int, facility: int, warehouses: seq<int>)
    ensures SharesRightly(RefundRequests(session, refund, order, facility, warehouses))
  {
    EachIsOwn(warehouses);
  }

  lemma BothShareRightly(a: seq<Request>, b: seq<Request>)
    requires SharesRightly(a) && SharesRightly(b)
    ensures SharesRightly(a + b)
  {
  }

  // ----- one global order

  function Rank(row: Row): nat {
    match row
    case SessionRow(_) => 0
    case SalesOrderRow(_) => 2
    case StopRow(_) => 2
    case RefundLineRows(_) => 3
    case FacilityRow(_) => 4
    case WarehouseRow(_) => 5
    case _ => 1
  }

  /** Sessions, then the operation's own document, then what hangs from it, then facilities and
      warehouses, each ascending. */
  predicate Before(a: Row, b: Row) {
    Rank(a) < Rank(b) || (Rank(a) == Rank(b) && Rank(a) >= 4 && a.id < b.id)
  }

  /** Each request is for a row above all the rows before it, or one already held in the same mode. */
  ghost predicate Ordered(requests: seq<Request>) {
    forall j :: 0 <= j < |requests| ==> Advances(requests, j)
  }

  ghost predicate Advances(requests: seq<Request>, j: int)
    requires 0 <= j < |requests|
  {
    requests[j] in requests[..j] || forall i :: 0 <= i < j ==> Before(requests[i].row, requests[j].row)
  }

  lemma OrderedThen(a: seq<Request>, b: seq<Request>)
    requires Ordered(a) && Ordered(b)
    requires forall i, j :: 0 <= i < |a| && 0 <= j < |b| ==> Before(a[i].row, b[j].row)
    ensures Ordered(a + b)
  {
    var all := a + b;
    forall j | 0 <= j < |all| ensures Advances(all, j) {
      if j < |a| {
        assert Advances(a, j);
        assert all[..j] == a[..j];
      } else {
        assert Advances(b, j - |a|);
        assert all[..j] == a + b[..j - |a|];
      }
    }
  }

  /** Requests for rows held already add nothing. */
  lemma OrderedAgain(a: seq<Request>, b: seq<Request>)
    requires Ordered(a) && forall r :: r in b ==> r in a
    ensures Ordered(a + b)
  {
    var all := a + b;
    forall j | 0 <= j < |all| ensures Advances(all, j) {
      if j < |a| {
        assert Advances(a, j);
        assert all[..j] == a[..j];
      } else {
        assert all[j] in b;
        assert all[..j] == a + b[..j - |a|];
      }
    }
  }

  lemma HeldAlready(own: seq<Request>, facilities: seq<int>, warehouses: seq<Request>, children: seq<int>)
    requires forall f :: f in children ==> f in facilities
    ensures forall r :: r in Facilities(children) ==> r in own + Facilities(facilities) + warehouses
  {
    var held := own + Facilities(facilities) + warehouses;
    forall r | r in Facilities(children) ensures r in held {
      var i :| 0 <= i < |children| && r == Facilities(children)[i];
      assert children[i] in facilities;
      var k :| 0 <= k < |facilities| && facilities[k] == children[i];
      assert held[|own| + k] == r;
    }
  }

  lemma CloseStopOrdered(trip: int, stop: int, facilities: seq<int>, warehouses: seq<int>, children: seq<int>)
    requires Increasing(facilities) && Increasing(warehouses) && forall f :: f in children ==> f in facilities
    ensures Ordered(StopRequests(trip, stop, facilities, warehouses, children))
  {
    var own := [Write(TripRow(trip)), Write(StopRow(stop))];
    OrderedThen(own, Facilities(facilities));
    OrderedThen(own + Facilities(facilities), Warehouses(warehouses));
    HeldAlready(own, facilities, Warehouses(warehouses), children);
    OrderedAgain(own + Facilities(facilities) + Warehouses(warehouses), Facilities(children));
  }

  lemma ConfirmRefundOrdered(session: int, refund: int, order: int, facility: int, warehouses: seq<int>)
    requires Increasing(warehouses)
    ensures Ordered(RefundRequests(session, refund, order, facility, warehouses))
  {
    var own := [Write(SessionRow(session)), Write(RefundRow(refund)), Write(SalesOrderRow(order)),
                Request(RefundLineRows(refund), true), Write(FacilityRow(facility))];
    OrderedThen(own, Warehouses(warehouses));
    assert (own + Warehouses(warehouses))[4] == Write(FacilityRow(facility));
    OrderedAgain(own + Warehouses(warehouses), [Write(FacilityRow(facility)), Write(FacilityRow(facility))]);
  }

  lemma ConfirmDeliveryOrdered(delivery: int, facility: int)
    ensures Ordered([Write(DeliveryOrderRow(delivery)), Write(FacilityRow(facility)), Write(FacilityRow(facility))])
  {
    var own := [Write(DeliveryOrderRow(delivery)), Write(FacilityRow(facility))];
    assert own[1] == Write(FacilityRow(facility));
    OrderedAgain(own, [Write(FacilityRow(facility))]);
    assert own + [Write(FacilityRow(facility))]
        == [Write(DeliveryOrderRow(delivery)), Write(FacilityRow(facility)), Write(FacilityRow(facility))];
  }

  lemma PostStockOrdered(table: int, document: int, warehouses: seq<int>)
    requires Increasing(warehouses)
    ensures Ordered([Write(StockDocumentRow(document, table))] + Warehouses(warehouses))
  {
    OrderedThen([Write(StockDocumentRow(document, table))], Warehouses(warehouses));
  }

  lemma PairOrdered(a: Request, b: Request)
    requires Before(a.row, b.row)
    ensures Ordered([a, b]) && [a] + [b] == [a, b]
  {
  }

  /** Every operation takes its locks in the one global order; a facility is locked again only by an
      operation that holds it. */
  lemma EveryOperationIsOrdered(op: Operation)
    requires WorkedOut(op)
    ensures Ordered(Requests(op))
  {
    if op.CloseStop? {
      CloseStopOrdered(op.trip, op.stop, Ascending(op.facilities), Ascending(op.warehouses), op.children);
    } else if op.ConfirmRefund? {
      ConfirmRefundOrdered(op.session, op.refund, op.order, op.facility, Ascending(op.warehouses));
    } else if op.PostStock? {
      PostStockOrdered(op.table, op.document, Ascending(op.warehouses));
    } else {
      FewOrdered(op);
    }
  }

  /** Operations with two rows at most. */
  lemma FewOrdered(op: Operation)
    requires !op.CloseStop? && !op.ConfirmRefund? && !op.PostStock?
    ensures Ordered(Requests(op))
  {
    match op
    case ConfirmDelivery(delivery, facility) => ConfirmDeliveryOrdered(delivery, facility);
    case CreatePayment(drawer, facility) =>
      if drawer.Some? {
        PairOrdered(Write(SessionRow(drawer.value)), Write(FacilityRow(facility)));
      }
    case ApplyPayment(payment, order) => PairOrdered(Write(PaymentRow(payment)), Write(SalesOrderRow(order)));
    case ReverseApplication(payment, order) => PairOrdered(Write(PaymentRow(payment)), Write(SalesOrderRow(order)));
    case ConfirmVoucher(session, voucher) => PairOrdered(Write(SessionRow(session)), Write(VoucherRow(voucher)));
    case VoidVoucher(session, voucher) => PairOrdered(Write(SessionRow(session)), Write(VoucherRow(voucher)));
    case _ =>
  }

  // ----- interleavings

  /** A transaction: its requests, and how many of them have been granted. */
  datatype Process = Process(requests: seq<Request>, granted: nat)

  type State = map<int, Process>

  datatype Step =
    | Start(p: int, op: Operation)
    | Grant(p: int)
    | End(p: int)

  ghost predicate Holds(process: Process, r: Request) {
    process.granted <= |process.requests| && r in process.requests[..process.granted]
  }

  predicate Waiting(process: Process) {
    process.granted < |process.requests|
  }

  function Wanted(process: Process): Request
    requires Waiting(process)
  {
    process.requests[process.granted]
  }

  function WantedRow(s: State, p: int): Row {
    if p in s && Waiting(s[p]) then Wanted(s[p]).row else SessionRow(0)
  }

  /** Another transaction holds the row, and one of the two wants it for itself. */
  ghost predicate Blocks(wanted: Request, holder: Process) {
    exists r :: Holds(holder, r) && r.row == wanted.row && !(r.shared && wanted.shared)
  }

  /** One transaction waits for another. */
  ghost predicate WaitsFor(s: State, p: int, q: int) {
    p in s && q in s && p != q && Waiting(s[p]) && Blocks(Wanted(s[p]), s[q])
  }

  /** A request is granted once nobody else holds the row against it; a transaction may end, and drop its
      locks, at any moment. */
  ghost predicate Possible(s: State, step: Step) {
    match step
    case Start(p, op) => p !in s && WorkedOut(op)
    case Grant(p) => p in s && Waiting(s[p]) && forall q :: q in s ==> !WaitsFor(s, p, q)
    case End(p) => p in s
  }

  function After(s: State, step: Step): State {
    match step
    case Start(p, op) => s[p := Process(Requests(op), 0)]
    case Grant(p) => if p in s then s[p := s[p].(granted := s[p].granted + 1)] else s
    case End(p) => s - {p}
  }

  ghost predicate Happens(s: State, steps: seq<Step>)
    decreases |steps|
  {
    steps != [] ==> Possible(s, steps[0]) && Happens(After(s, steps[0]), steps[1..])
  }

  function Run(s: State, steps: seq<Step>): State
    decreases |steps|
  {
    if steps == [] then s else Run(After(s, steps[0]), steps[1..])
  }

  /** No row is held against itself, and every transaction's locks are in order. */
  ghost predicate Inv(s: State) {
    && (forall p :: p in s ==> Ordered(s[p].requests) && s[p].granted <= |s[p].requests|)
    && (forall p, q, r :: p in s && q in s && p != q && Holds(s[p], r) ==> !Blocks(r, s[q]))
  }

  lemma NotHeldAgainst(s: State, p: int, a: int, r: Request)
    requires p in s && a in s && p != a && Waiting(s[p]) && !WaitsFor(s, p, a) && Holds(s[a], r)
    ensures r.row == Wanted(s[p]).row ==> r.shared && Wanted(s[p]).shared
  {
    assert !Blocks(Wanted(s[p]), s[a]);
  }

  lemma GrantKeeps(s: State, p: int)
    requires Inv(s) && Possible(s, Grant(p))
    ensures Inv(After(s, Grant(p)))
  {
    var t := After(s, Grant(p));
    var wanted := Wanted(s[p]);
    assert t[p].requests[..t[p].granted] == s[p].requests[..s[p].granted] + [wanted];
    forall a, b, r | a in t && b in t && a != b && Holds(t[a], r) ensures !Blocks(r, t[b]) {
      if a == p {
        if r == wanted {
          assert !WaitsFor(s, p, b);
        } else {
          assert Holds(s[p], r);
        }
      } else if b == p {
        NotHeldAgainst(s, p, a, r);
      } else {
        assert Holds(s[a], r) && !Blocks(r, s[b]);
      }
    }
  }

  lemma StepKeeps(s: State, step: Step)
    requires Inv(s) && Possible(s, step)
    ensures Inv(After(s, step))
  {
    match step
    case Start(p, op) =>
      EveryOperationIsOrdered(op);
      var t := After(s, step);
      forall a, b, r | a in t && b in t && a != b && Holds(t[a], r) ensures !Blocks(r, t[b]) {
        if a != p && b != p {
          assert Holds(s[a], r) && !Blocks(r, s[b]);
        }
      }
    case Grant(p) => GrantKeeps(s, p);
    case End(p) =>
      var t := After(s, step);
      forall a, b, r | a in t && b in t && a != b && Holds(t[a], r) ensures !Blocks(r, t[b]) {
        assert Holds(s[a], r) && !Blocks(r, s[b]);
      }
  }

  lemma {:induction false} RunKeeps(s: State, steps: seq<Step>)
    requires Inv(s) && Happens(s, steps)
    ensures Inv(Run(s, steps))
    decreases |steps|
  {
    if steps != [] {
      StepKeeps(s, steps[0]);
      RunKeeps(After(s, steps[0]), steps[1..]);
    }
  }

  // ----- no circle

  /** A transaction that waits wants a row above every row it holds. */
  lemma WantedIsAbove(s: State, p: int, q: int, r: Request)
    requires Inv(s) && WaitsFor(s, p, q) && Holds(s[p], r)
    ensures Before(r.row, Wanted(s[p]).row)
  {
    var wanted := Wanted(s[p]);
    assert Advances(s[p].requests, s[p].granted);
    if Holds(s[p], wanted) {
      assert false;
    }
  }

  /** Along a wait, what is wanted goes up. */
  lemma WaitsGoUp(s: State, p: int, q: int, q': int)
    requires Inv(s) && WaitsFor(s, p, q) && WaitsFor(s, q, q')
    ensures Before(Wanted(s[p]).row, Wanted(s[q]).row)
  {
    var r :| Holds(s[q], r) && r.row == Wanted(s[p]).row && !(r.shared && Wanted(s[p]).shared);
    WantedIsAbove(s, q, q', r);
  }

  /** A chain of transactions, each waiting for the next. */
  ghost predicate Chain(s: State, chain: seq<int>) {
    |chain| >= 2 && forall i :: 0 <= i < |chain| - 1 ==> WaitsFor(s, chain[i], chain[i + 1])
  }

  lemma {:induction false} ChainGoesUp(s: State, chain: seq<int>)
    requires Inv(s) && Chain(s, chain) && |chain| >= 3
    ensures Before(WantedRow(s, chain[0]), WantedRow(s, chain[|chain| - 2]))
    decreases |chain|
  {
    assert WaitsFor(s, chain[0], chain[1]) && WaitsFor(s, chain[1], chain[2]);
    WaitsGoUp(s, chain[0], chain[1], chain[2]);
    if |chain| > 3 {
      var rest := chain[1..];
      forall i | 0 <= i < |rest| - 1 ensures WaitsFor(s, rest[i], rest[i + 1]) {
        assert WaitsFor(s, chain[i + 1], chain[i + 2]);
      }
      ChainGoesUp(s, rest);
    }
  }

  /** However operations interleave, no transaction ever waits, directly or through others, for itself. */
  lemma NoCircularWait(steps: seq<Step>, chain: seq<int>)
    requires Happens(map[], steps) && Chain(Run(map[], steps), chain)
    ensures chain[0] != chain[|chain| - 1]
  {
    var s := Run(map[], steps);
    RunKeeps(map[], steps);
    var n := |chain|;
    assert WaitsFor(s, chain[n - 2], chain[n - 1]);
    if chain[0] == chain[n - 1] {
      if n == 2 {
        assert false;
      } else {
        assert WaitsFor(s, chain[0], chain[1]);
        ChainGoesUp(s, chain);
        WaitsGoUp(s, chain[n - 2], chain[n - 1], chain[1]);
      }
    }
  }

  lemma BeforeIsStrict(a: Row, b: Row, c: Row)
    ensures !Before(a, a)
    ensures Before(a, b) && Before(b, c) ==> Before(a, c)
  {
  }

  /** Among transactions that all wait for one another, one would wait for a row above all the others'. */
  lemma {:induction false} Topmost(s: State, all: set<int>) returns (top: int)
    requires all != {} && all <= s.Keys && forall p :: p in all ==> Waiting(s[p])
    ensures top in all && forall p :: p in all ==> !Before(Wanted(s[top]).row, Wanted(s[p]).row)
    decreases |all|
  {
    var p := AnyOf(all);
    var rest := all - {p};
    if rest == {} {
      top := p;
      assert all == {p};
    } else {
      var other := Topmost(s, rest);
      top := if Before(Wanted(s[other]).row, Wanted(s[p]).row) then p else other;
      forall q | q in all ensures !Before(Wanted(s[top]).row, Wanted(s[q]).row) {
        if q != p {
          assert q in rest;
          BeforeIsStrict(Wanted(s[other]).row, Wanted(s[p]).row, Wanted(s[q]).row);
        }
      }
    }
  }

  /** Some transaction can always go on: it has every lock it wants, or the next one can be granted. */
  lemma SomeoneCanMove(steps: seq<Step>) returns (p: int)
    requires Happens(map[], steps) && Run(map[], steps) != map[]
    ensures var s := Run(map[], steps);
            p in s && (Waiting(s[p]) ==> Possible(s, Grant(p)))
  {
    var s := Run(map[], steps);
    RunKeeps(map[], steps);
    if idle :| idle in s && !Waiting(s[idle]) {
      return idle;
    }
    var top := Topmost(s, s.Keys);
    if Possible(s, Grant(top)) {
      return top;
    }
    var q :| q in s && WaitsFor(s, top, q);
    var r :| Holds(s[q], r) && r.row == Wanted(s[top]).row && !(r.shared && Wanted(s[top]).shared);
    HoldsWhatItWants(s, q, r);
    return q;
  }

  /** A transaction that wants no row above one it holds wants a row it has already. */
  lemma HoldsWhatItWants(s: State, q: int, r: Request)
    requires Inv(s) && q in s && Waiting(s[q]) && Holds(s[q], r) && !Before(r.row, Wanted(s[q]).row)
    ensures Holds(s[q], Wanted(s[q]))
  {
    assert Advances(s[q].requests, s[q].granted);
  }
}
