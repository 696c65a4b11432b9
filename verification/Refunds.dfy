/** Customer refunds: what may still come back of a sold line, and how competing refunds share it.
    Quantities are whole numbers of the smallest unit.  The restock postings, the payout and the
    refund's numbering are not part of this model. */
module Refunds {
  import opened Outcomes
  import opened Tables

  datatype SalesOrder = SalesOrder(completed: bool, paid: bool)

  datatype OrderLine = OrderLine(order: int, sold: int, product: int, warehouse: Option<int>)

  datatype Refund = Refund(order: int, completed: bool, cancelled: bool)

  datatype RefundLine = RefundLine(refund: int, orderLine: int, quantity: int, warehouse: Option<int>)

  /** What refunds read and never change: the sales, and the products whose stock is kept. */
  datatype Shop = Shop(orders: map<int, SalesOrder>, orderLines: map<int, OrderLine>, stocked: set<int>)

  datatype State = State(refunds: map<int, Refund>, lines: map<int, RefundLine>)

  /** Quantities of order lines on live invoices, as they are at the moment of a call. */
  type Invoiced = map<int, nat>

  datatype Refusal =
    | NotFound | NotCompleted | NotPaid | NothingRefundable | LineInvoiced | NotEditable
    | ExceedsRefundable | WarehouseNotOwn | NoReturnableLines | WarehouseRequired | CompletedCannotCancel | AlreadyCancelled

  type Outcome = Result<State, Refusal>

  /** The store that takes the goods back: the caller's counter's warehouse there, and all its own. */
  datatype Store = Store(counter: Option<int>, own: set<int>)

  // ----- the rules

  /** What was sold less what came back and what sits on live invoices, never below nothing. */
  function Refundable(sold: int, refunded: int, invoiced: int): int {
    if sold - refunded - invoiced > 0 then sold - refunded - invoiced else 0
  }

  /** Only units on live invoices stand in the way of the quantity. */
  predicate HeldByInvoice(requested: int, sold: int, refunded: int, invoiced: int) {
    requested <= Refundable(sold, refunded, 0) && requested > Refundable(sold, refunded, invoiced)
  }

  /** A line's quantity fitted to what is refundable, or nothing of it. */
  function Fit(requested: int, refundable: int): Option<int> {
    if requested <= 0 || refundable <= 0 then None
    else if requested <= refundable then Some(requested) else Some(refundable)
  }

  /** What can come back of a line is the lesser of what is asked for and what is left of the sale: a
      confirmed line is trimmed by other refunds and never, silently, by an invoice. */
  lemma FitIsTheClaim(requested: int, sold: int, refunded: int, invoiced: nat)
    ensures var left := Refundable(sold, refunded, 0);
            var claim := if requested <= left then requested else left;
            !HeldByInvoice(claim, sold, refunded, invoiced) ==>
              Fit(requested, Refundable(sold, refunded, invoiced)) == if claim > 0 then Some(claim) else None
  {
  }

  // ----- queries

  predicate Standing(s: State, refund: int) {
    refund in s.refunds && s.refunds[refund].completed && !s.refunds[refund].cancelled
  }

  function RefundedColumn(s: State, x: int): map<int, int> {
    map l | l in s.lines && s.lines[l].orderLine == x && Standing(s, s.lines[l].refund) :: s.lines[l].quantity
  }

  /** What completed refunds returned of an order line. */
  ghost function Refunded(s: State, x: int): int {
    Total(RefundedColumn(s, x))
  }

  function LinesOf(s: State, refund: int): set<int> {
    set l | l in s.lines && s.lines[l].refund == refund
  }

  function On(invoiced: Invoiced, x: int): nat {
    if x in invoiced then invoiced[x] else 0
  }

  ghost function Left(s: State, shop: Shop, x: int, invoiced: int): int
    requires x in shop.orderLines
  {
    Refundable(shop.orderLines[x].sold, Refunded(s, x), invoiced)
  }

  // ----- operations

  function OrderLinesOf(shop: Shop, order: int): set<int> {
    set x | x in shop.orderLines && shop.orderLines[x].order == order
  }

  ghost function Available(s: State, shop: Shop, order: int, invoiced: Invoiced): set<int> {
    set x | x in OrderLinesOf(shop, order) && Left(s, shop, x, On(invoiced, x)) > 0
  }

  /** Where a line's goods go until the clerk says: the counter's warehouse, or the one they were sold from, if it is
      the store's. */
  function StartsIn(shop: Shop, store: Store, x: int): Option<int> {
    if store.counter.Some? then store.counter
    else if x in shop.orderLines && shop.orderLines[x].warehouse.Some? && shop.orderLines[x].warehouse.value in store.own
    then shop.orderLines[x].warehouse
    else None
  }

  /** A line at zero for each order line: the clerk enters what is coming back. */
  function ZeroLines(lines: map<int, RefundLine>, shop: Shop, store: Store, refund: int, keys: seq<int>): map<int, RefundLine> {
    if keys == [] then lines
    else
      var earlier, x := ZeroLines(lines, shop, store, refund, keys[..|keys| - 1]), keys[|keys| - 1];
      earlier[NextId(earlier) := RefundLine(refund, x, 0, StartsIn(shop, store, x))]
  }

  ghost function Open(s: State, shop: Shop, order: int, store: Store, invoiced: Invoiced): Outcome {
    if order !in shop.orders then Refused(NotFound)
    else if !shop.orders[order].completed then Refused(NotCompleted)
    else if !shop.orders[order].paid then Refused(NotPaid)
    else
      var available := Available(s, shop, order, invoiced);
      if available == {} then
        if exists x :: x in OrderLinesOf(shop, order) && Left(s, shop, x, 0) > Left(s, shop, x, On(invoiced, x))
        then Refused(LineInvoiced)
        else Refused(NothingRefundable)
      else
        var id := NextId(s.refunds);
        Ok(State(s.refunds[id := Refund(order, false, false)], ZeroLines(s.lines, shop, store, id, Ascending(available))))
  }

  predicate Editable(s: State, refund: int) {
    refund in s.refunds && !s.refunds[refund].completed && !s.refunds[refund].cancelled
  }

  /** The warehouse named, unnamed or cleared, once changed. */
  function NewWarehouse(line: RefundLine, warehouse: Option<Option<int>>): Option<int> {
    warehouse.Or(line.warehouse)
  }

  /** A warehouse may be cleared; one that is named must be the store's own. */
  predicate WarehouseAllowed(warehouse: Option<Option<int>>, own: set<int>) {
    warehouse.Some? && warehouse.value.Some? ==> warehouse.value.value in own
  }

  /** Change a line's quantity and warehouse, each only when it is stated. */
  ghost function UpdateLine(s: State, shop: Shop, refund: int, line: int, quantity: Option<int>,
                            warehouse: Option<Option<int>>, own: set<int>, invoiced: Invoiced): Outcome {
    if line !in LinesOf(s, refund) || refund !in s.refunds then Refused(NotFound)
    else if !Editable(s, refund) then Refused(NotEditable)
    else
      var x := s.lines[line].orderLine;
      if quantity.Some? && x in shop.orderLines
        && HeldByInvoice(quantity.value, shop.orderLines[x].sold, Refunded(s, x), On(invoiced, x))
      then Refused(LineInvoiced)
      else if quantity.Some? && x in shop.orderLines && quantity.value > Left(s, shop, x, On(invoiced, x))
      then Refused(ExceedsRefundable)
      else if !WarehouseAllowed(warehouse, own) then Refused(WarehouseNotOwn)
      else
        Ok(s.(lines := s.lines[line := s.lines[line].(
             quantity := quantity.Or(s.lines[line].quantity), warehouse := NewWarehouse(s.lines[line], warehouse))]))
  }

  /** What a line may claim: no more than is left of the sale. */
  ghost function Claim(s: State, shop: Shop, l: int): int
    requires l in s.lines
  {
    var x := s.lines[l].orderLine;
    if x !in shop.orderLines then 0
    else if s.lines[l].quantity <= Left(s, shop, x, 0) then s.lines[l].quantity
    else Left(s, shop, x, 0)
  }

  ghost predicate Held(s: State, shop: Shop, l: int, invoiced: Invoiced)
    requires l in s.lines
  {
    var x := s.lines[l].orderLine;
    && x in shop.orderLines
    && HeldByInvoice(Claim(s, shop, l), shop.orderLines[x].sold, Refunded(s, x), On(invoiced, x))
  }

  /** What confirming keeps of a line. */
  ghost function Fitted(s: State, shop: Shop, l: int, invoiced: Invoiced): Option<int>
    requires l in s.lines
  {
    var x := s.lines[l].orderLine;
    Fit(s.lines[l].quantity, if x in shop.orderLines then Left(s, shop, x, On(invoiced, x)) else 0)
  }

  ghost function Kept(s: State, shop: Shop, refund: int, invoiced: Invoiced): map<int, int> {
    map l | l in LinesOf(s, refund) && Fitted(s, shop, l, invoiced).Some? :: Fitted(s, shop, l, invoiced).value
  }

  predicate NeedsWarehouse(s: State, shop: Shop, l: int)
    requires l in s.lines
  {
    var x := s.lines[l].orderLine;
    x in shop.orderLines && shop.orderLines[x].product in shop.stocked && s.lines[l].warehouse.None?
  }

  /** The lines with a refund's kept quantities, and without those it drops. */
  function Reconciled(lines: map<int, RefundLine>, own: set<int>, kept: map<int, int>): map<int, RefundLine> {
    map l | l in lines && (l in own ==> l in kept) ::
      if l in own && l in kept then lines[l].(quantity := kept[l]) else lines[l]
  }

  ghost function ConfirmRefusal(s: State, shop: Shop, refund: int, invoiced: Invoiced): Option<Refusal> {
    if refund !in s.refunds then Some(NotFound)
    else if !Editable(s, refund) then Some(NotEditable)
    else if s.refunds[refund].order !in shop.orders then Some(NotFound)
    else if exists l :: l in LinesOf(s, refund) && Held(s, shop, l, invoiced) then Some(LineInvoiced)
    else
      var kept := Kept(s, shop, refund, invoiced);
      if kept == map[] then Some(NoReturnableLines)
      else if exists l :: l in kept && NeedsWarehouse(s, shop, l) then Some(WarehouseRequired)
      else None
  }

  /** Fit every line to what is left, drop the empty ones, and complete the refund. */
  ghost function Confirm(s: State, shop: Shop, refund: int, invoiced: Invoiced): Outcome {
    var refusal := ConfirmRefusal(s, shop, refund, invoiced);
    if refusal.Some? then Refused(refusal.value)
    else
      Ok(State(s.refunds[refund := s.refunds[refund].(completed := true)],
               Reconciled(s.lines, LinesOf(s, refund), Kept(s, shop, refund, invoiced))))
  }

  function Cancel(s: State, refund: int): Outcome {
    if refund !in s.refunds then Refused(NotFound)
    else if s.refunds[refund].completed then Refused(CompletedCannotCancel)
    else if s.refunds[refund].cancelled then Refused(AlreadyCancelled)
    else Ok(s.(refunds := s.refunds[refund := s.refunds[refund].(cancelled := true)]))
  }

  // ----- what a confirm keeps

  /** A confirm that is not refused keeps of every line exactly the lesser of what it asks for and what is
      left of the sale, whatever is on invoices. */
  lemma ConfirmKeepsTheClaim(s: State, shop: Shop, refund: int, invoiced: Invoiced, l: int)
    requires Confirm(s, shop, refund, invoiced).Ok? && l in LinesOf(s, refund)
    ensures var t := Confirm(s, shop, refund, invoiced).value;
            if Claim(s, shop, l) > 0 then l in t.lines && t.lines[l] == s.lines[l].(quantity := Claim(s, shop, l))
            else l !in t.lines
  {
    var x := s.lines[l].orderLine;
    assert !Held(s, shop, l, invoiced);
    if x in shop.orderLines {
      FitIsTheClaim(s.lines[l].quantity, shop.orderLines[x].sold, Refunded(s, x), On(invoiced, x));
    }
    var kept := Kept(s, shop, refund, invoiced);
    assert l in kept <==> Fitted(s, shop, l, invoiced).Some?;
  }

  /** An invoice refuses a confirm exactly when some line's claim reaches into the invoiced units. */
  lemma InvoiceRefusesExactly(s: State, shop: Shop, refund: int, invoiced: Invoiced)
    requires Editable(s, refund) && s.refunds[refund].order in shop.orders
    ensures Confirm(s, shop, refund, invoiced) == Refused(LineInvoiced) <==>
              exists l :: l in LinesOf(s, refund) && s.lines[l].orderLine in shop.orderLines
                && Claim(s, shop, l) > Left(s, shop, s.lines[l].orderLine, On(invoiced, s.lines[l].orderLine))
  {
    forall l | l in LinesOf(s, refund)
      ensures Held(s, shop, l, invoiced) <==>
                s.lines[l].orderLine in shop.orderLines
                && Claim(s, shop, l) > Left(s, shop, s.lines[l].orderLine, On(invoiced, s.lines[l].orderLine))
    {
    }
    if l :| l in LinesOf(s, refund) && Held(s, shop, l, invoiced) {
      assert Confirm(s, shop, refund, invoiced) == Refused(LineInvoiced);
    }
  }

  // ----- the bound

  ghost predicate LinesOk(s: State) {
    && (forall l :: l in s.lines ==> s.lines[l].refund in s.refunds && s.lines[l].quantity >= 0)
    && (forall l, k :: l in s.lines && k in s.lines && l != k && s.lines[l].refund == s.lines[k].refund ==>
          s.lines[l].orderLine != s.lines[k].orderLine)
  }

  /** No order line has come back more than it was sold. */
  ghost predicate Bounded(s: State, shop: Shop) {
    forall x :: x in shop.orderLines ==> Refunded(s, x) <= Refundable(shop.orderLines[x].sold, 0, 0)
  }

  ghost predicate Inv(s: State, shop: Shop) {
    LinesOk(s) && Bounded(s, shop)
  }

  /** A refund's line on an order line, if it has one. */
  lemma RefundedAfter(s: State, t: State, shop: Shop, refund: int, invoiced: Invoiced, x: int)
    requires LinesOk(s) && Confirm(s, shop, refund, invoiced).Ok? && t == Confirm(s, shop, refund, invoiced).value
    ensures (exists l :: l in LinesOf(s, refund) && s.lines[l].orderLine == x && Refunded(t, x) == Refunded(s, x) + KeptOf(s, shop, refund, invoiced, l))
         || Refunded(t, x) == Refunded(s, x)
  {
    if l :| l in LinesOf(s, refund) && s.lines[l].orderLine == x {
      RefundedOnce(s, t, shop, refund, invoiced, x, l);
    } else {
      var a, b := RefundedColumn(s, x), RefundedColumn(t, x);
      forall k ensures k in a <==> k in b {
        if k in s.lines && s.lines[k].refund == refund {
          assert k in LinesOf(s, refund);
        }
      }
      forall k | k in a && k in b ensures a[k] == b[k] {
      }
      TotalAlike(a, b);
    }
  }

  lemma RefundedOnce(s: State, t: State, shop: Shop, refund: int, invoiced: Invoiced, x: int, l: int)
    requires LinesOk(s) && Confirm(s, shop, refund, invoiced).Ok? && t == Confirm(s, shop, refund, invoiced).value
    requires l in LinesOf(s, refund) && s.lines[l].orderLine == x
    ensures Refunded(t, x) == Refunded(s, x) + KeptOf(s, shop, refund, invoiced, l)
  {
    var a, b := RefundedColumn(s, x), RefundedColumn(t, x);
    forall k | k != l ensures (k in a <==> k in b) && (k in a ==> a[k] == b[k]) {
      KeptElsewhere(s, t, shop, refund, invoiced, x, l, k);
    }
    TotalBut(a, b, l);
    KeptHere(s, t, shop, refund, invoiced, x, l);
  }

  ghost function KeptOf(s: State, shop: Shop, refund: int, invoiced: Invoiced, l: int): int {
    if l in Kept(s, shop, refund, invoiced) then Kept(s, shop, refund, invoiced)[l] else 0
  }

  lemma KeptElsewhere(s: State, t: State, shop: Shop, refund: int, invoiced: Invoiced, x: int, l: int, k: int)
    requires LinesOk(s) && Confirm(s, shop, refund, invoiced).Ok? && t == Confirm(s, shop, refund, invoiced).value
    requires l in LinesOf(s, refund) && s.lines[l].orderLine == x && k != l
    ensures k in RefundedColumn(s, x) <==> k in RefundedColumn(t, x)
    ensures k in RefundedColumn(s, x) ==> RefundedColumn(t, x)[k] == RefundedColumn(s, x)[k]
  {
    if k in s.lines && s.lines[k].refund == refund {
      assert s.lines[k].orderLine != x;
    }
  }

  lemma KeptHere(s: State, t: State, shop: Shop, refund: int, invoiced: Invoiced, x: int, l: int)
    requires Confirm(s, shop, refund, invoiced).Ok? && t == Confirm(s, shop, refund, invoiced).value
    requires l in LinesOf(s, refund) && s.lines[l].orderLine == x
    ensures l !in RefundedColumn(s, x)
    ensures (if l in RefundedColumn(t, x) then RefundedColumn(t, x)[l] else 0) == KeptOf(s, shop, refund, invoiced, l)
  {
  }

  lemma ConfirmKeeps(s: State, shop: Shop, refund: int, invoiced: Invoiced)
    requires Inv(s, shop) && Confirm(s, shop, refund, invoiced).Ok?
    ensures Inv(Confirm(s, shop, refund, invoiced).value, shop)
  {
    var t := Confirm(s, shop, refund, invoiced).value;
    ConfirmKeepsLines(s, t, shop, refund, invoiced);
    forall x | x in shop.orderLines ensures Refunded(t, x) <= Refundable(shop.orderLines[x].sold, 0, 0) {
      RefundedAfter(s, t, shop, refund, invoiced, x);
      if l :| l in LinesOf(s, refund) && s.lines[l].orderLine == x
              && Refunded(t, x) == Refunded(s, x) + KeptOf(s, shop, refund, invoiced, l)
      {
        KeptWithinLeft(s, shop, refund, invoiced, l);
      }
    }
  }

  lemma KeptWithinLeft(s: State, shop: Shop, refund: int, invoiced: Invoiced, l: int)
    requires l in LinesOf(s, refund) && s.lines[l].orderLine in shop.orderLines
    ensures 0 <= KeptOf(s, shop, refund, invoiced, l) <= Left(s, shop, s.lines[l].orderLine, 0)
  {
  }

  lemma ConfirmKeepsLines(s: State, t: State, shop: Shop, refund: int, invoiced: Invoiced)
    requires LinesOk(s) && Confirm(s, shop, refund, invoiced).Ok? && t == Confirm(s, shop, refund, invoiced).value
    ensures LinesOk(t)
  {
    forall l | l in t.lines
      ensures l in s.lines && t.lines[l] == s.lines[l].(quantity := t.lines[l].quantity) && t.lines[l].quantity >= 0
    {
    }
  }

  /** Lines that count are the same, whatever else changes. */
  ghost predicate SameCounting(s: State, t: State) {
    && (forall l :: l in s.lines && Standing(s, s.lines[l].refund) ==>
          l in t.lines && t.lines[l] == s.lines[l] && Standing(t, s.lines[l].refund))
    && (forall l :: l in t.lines && Standing(t, t.lines[l].refund) ==>
          l in s.lines && s.lines[l] == t.lines[l] && Standing(s, t.lines[l].refund))
  }

  lemma SameRefunded(s: State, t: State, x: int)
    requires SameCounting(s, t)
    ensures Refunded(t, x) == Refunded(s, x)
  {
    var a, b := RefundedColumn(t, x), RefundedColumn(s, x);
    forall l | l in a ensures l in b && a[l] == b[l] {
      assert l in t.lines && Standing(t, t.lines[l].refund);
    }
    forall l | l in b ensures l in a {
      assert l in s.lines && Standing(s, s.lines[l].refund);
    }
    TotalAlike(a, b);
  }

  /** Refunds that are not completed do not count. */
  lemma UncountedChange(s: State, t: State, shop: Shop)
    requires Bounded(s, shop) && SameCounting(s, t)
    ensures Bounded(t, shop)
  {
    forall x | x in shop.orderLines ensures Refunded(t, x) <= Refundable(shop.orderLines[x].sold, 0, 0) {
      SameRefunded(s, t, x);
    }
  }

  /** New lines at zero, one per order line. */
  ghost predicate AddsZeros(lines: map<int, RefundLine>, after: map<int, RefundLine>, refund: int, keys: seq<int>) {
    && (forall l :: l in lines ==> l in after && after[l] == lines[l])
    && (forall l :: l in after && l !in lines ==>
          after[l].refund == refund && after[l].quantity == 0 && after[l].orderLine in keys)
    && (forall l, k :: l in after && k in after && l !in lines && k !in lines && l != k ==>
          after[l].orderLine != after[k].orderLine)
  }

  lemma AddZero(lines: map<int, RefundLine>, after: map<int, RefundLine>, refund: int, keys: seq<int>, id: int, x: int, warehouse: Option<int>)
    requires AddsZeros(lines, after, refund, keys) && x !in keys && id !in after
    ensures AddsZeros(lines, after[id := RefundLine(refund, x, 0, warehouse)], refund, keys + [x])
  {
  }

  lemma LastIsNew(keys: seq<int>)
    requires Increasing(keys) && keys != []
    ensures keys[|keys| - 1] !in keys[..|keys| - 1] && Increasing(keys[..|keys| - 1])
  {
    var rest := keys[..|keys| - 1];
    assert forall i :: 0 <= i < |rest| ==> rest[i] == keys[i] < keys[|keys| - 1];
  }

  lemma {:induction false} ZeroLinesAre(lines: map<int, RefundLine>, shop: Shop, store: Store, refund: int, keys: seq<int>)
    requires Increasing(keys)
    ensures AddsZeros(lines, ZeroLines(lines, shop, store, refund, keys), refund, keys)
  {
    if keys != [] {
      var rest, x := keys[..|keys| - 1], keys[|keys| - 1];
      ZeroLinesAre(lines, shop, store, refund, rest);
      assert keys == rest + [x];
      LastIsNew(keys);
      var earlier := ZeroLines(lines, shop, store, refund, rest);
      AddZero(lines, earlier, refund, rest, NextId(earlier), x, StartsIn(shop, store, x));
    }
  }

  lemma OpenParts(s: State, t: State, shop: Shop, order: int, store: Store, invoiced: Invoiced)
    requires Open(s, shop, order, store, invoiced).Ok? && t == Open(s, shop, order, store, invoiced).value
    ensures t.refunds == s.refunds[NextId(s.refunds) := Refund(order, false, false)]
    ensures AddsZeros(s.lines, t.lines, NextId(s.refunds), Ascending(Available(s, shop, order, invoiced)))
  {
    ZeroLinesAre(s.lines, shop, store, NextId(s.refunds), Ascending(Available(s, shop, order, invoiced)));
  }

  lemma OpenedKeeps(s: State, t: State, shop: Shop, id: int, order: int, keys: seq<int>)
    requires Inv(s, shop) && id !in s.refunds && t.refunds == s.refunds[id := Refund(order, false, false)]
    requires AddsZeros(s.lines, t.lines, id, keys)
    ensures Inv(t, shop)
  {
    UncountedChange(s, t, shop);
  }

  lemma OpenKeeps(s: State, shop: Shop, order: int, store: Store, invoiced: Invoiced)
    requires Inv(s, shop) && Open(s, shop, order, store, invoiced).Ok?
    ensures Inv(Open(s, shop, order, store, invoiced).value, shop)
  {
    var t := Open(s, shop, order, store, invoiced).value;
    OpenParts(s, t, shop, order, store, invoiced);
    OpenedKeeps(s, t, shop, NextId(s.refunds), order, Ascending(Available(s, shop, order, invoiced)));
  }

  lemma UpdateLineKeeps(s: State, shop: Shop, refund: int, line: int, quantity: Option<int>, warehouse: Option<Option<int>>, own: set<int>, invoiced: Invoiced)
    requires Inv(s, shop) && UpdateLine(s, shop, refund, line, quantity, warehouse, own, invoiced).Ok?
    requires quantity.Some? ==> quantity.value >= 0
    ensures Inv(UpdateLine(s, shop, refund, line, quantity, warehouse, own, invoiced).value, shop)
  {
    UncountedChange(s, UpdateLine(s, shop, refund, line, quantity, warehouse, own, invoiced).value, shop);
  }

  lemma CancelKeeps(s: State, shop: Shop, refund: int)
    requires Inv(s, shop) && Cancel(s, refund).Ok?
    ensures Inv(Cancel(s, refund).value, shop)
  {
    UncountedChange(s, Cancel(s, refund).value, shop);
  }

  // ----- runs

  datatype Call =
    | Opening(order: int, store: Store, invoiced: Invoiced)
    | Entering(refund: int, line: int, quantity: Option<int>, warehouse: Option<Option<int>>, own: set<int>, invoiced: Invoiced)
    | Confirming(refund: int, invoiced: Invoiced)
    | Cancelling(refund: int)

  ghost function Answer(s: State, shop: Shop, call: Call): Outcome {
    match call
    case Opening(order, store, invoiced) => Open(s, shop, order, store, invoiced)
    case Entering(refund, line, quantity, warehouse, own, invoiced) => UpdateLine(s, shop, refund, line, quantity, warehouse, own, invoiced)
    case Confirming(refund, invoiced) => Confirm(s, shop, refund, invoiced)
    case Cancelling(refund) => Cancel(s, refund)
  }

  ghost function After(s: State, shop: Shop, call: Call): State {
    if Answer(s, shop, call).Ok? then Answer(s, shop, call).value else s
  }

  ghost function Run(s: State, shop: Shop, calls: seq<Call>): State {
    if calls == [] then s else After(Run(s, shop, calls[..|calls| - 1]), shop, calls[|calls| - 1])
  }

  /** No negative quantity is entered: the request's own bound. */
  predicate Proper(call: Call) {
    call.Entering? && call.quantity.Some? ==> call.quantity.value >= 0
  }

  lemma {:induction false} RunKeeps(s: State, shop: Shop, calls: seq<Call>)
    requires Inv(s, shop) && forall c :: c in calls ==> Proper(c)
    ensures Inv(Run(s, shop, calls), shop)
  {
    if calls != [] {
      var before, call := Run(s, shop, calls[..|calls| - 1]), calls[|calls| - 1];
      RunKeeps(s, shop, calls[..|calls| - 1]);
      assert call in calls;
      if Answer(before, shop, call).Ok? {
        match call
        case Opening(order, store, invoiced) => OpenKeeps(before, shop, order, store, invoiced);
        case Entering(refund, line, quantity, warehouse, own, invoiced) =>
          UpdateLineKeeps(before, shop, refund, line, quantity, warehouse, own, invoiced);
        case Confirming(refund, invoiced) => ConfirmKeeps(before, shop, refund, invoiced);
        case Cancelling(refund) => CancelKeeps(before, shop, refund);
      }
    }
  }

  /** However many refunds compete, and whatever is invoiced meanwhile, no order line ever comes back
      more than it was sold. */
  lemma NeverMoreThanSold(shop: Shop, calls: seq<Call>, x: int)
    requires x in shop.orderLines && forall c :: c in calls ==> Proper(c)
    ensures Refunded(Run(State(map[], map[]), shop, calls), x) <= Refundable(shop.orderLines[x].sold, 0, 0)
  {
    var s := State(map[], map[]);
    forall y ensures RefundedColumn(s, y) == map[] {
    }
    RunKeeps(s, shop, calls);
  }

  lemma StepKeepsCompleted(s: State, shop: Shop, call: Call, refund: int, l: int)
    requires refund in s.refunds && s.refunds[refund].completed && l in LinesOf(s, refund)
    ensures var t := After(s, shop, call);
            && refund in t.refunds && t.refunds[refund] == s.refunds[refund]
            && l in t.lines && t.lines[l] == s.lines[l]
  {
    if Answer(s, shop, call).Ok? {
      match call
      case Opening(order, store, invoiced) => OpenParts(s, After(s, shop, call), shop, order, store, invoiced);
      case Entering(r, line, quantity, warehouse, own, invoiced) =>
      case Confirming(r, invoiced) => assert refund != r;
      case Cancelling(r) =>
    }
  }

  /** A completed refund is final. */
  lemma {:induction false} CompletedIsFinal(s: State, shop: Shop, calls: seq<Call>, refund: int, l: int)
    requires refund in s.refunds && s.refunds[refund].completed && l in LinesOf(s, refund)
    ensures var t := Run(s, shop, calls);
            && refund in t.refunds && t.refunds[refund] == s.refunds[refund]
            && l in t.lines && t.lines[l] == s.lines[l]
  {
    if calls != [] {
      CompletedIsFinal(s, shop, calls[..|calls| - 1], refund, l);
      StepKeepsCompleted(Run(s, shop, calls[..|calls| - 1]), shop, calls[|calls| - 1], refund, l);
    }
  }
}
