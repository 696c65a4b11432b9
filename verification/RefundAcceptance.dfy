/** When refunds are opened, entered, confirmed and cancelled, in the quantities sold, returned and invoiced, and what
    each of these leaves. */
module RefundAcceptance {
  import opened Outcomes
  import opened Tables
  import opened Refunds

  /** The quantities of an order line on refunds completed and not cancelled. */
  function ReturnedColumn(s: State, x: int): map<int, int> {
    map l | l in s.lines && s.lines[l].orderLine == x && s.lines[l].refund in s.refunds
            && s.refunds[s.lines[l].refund].completed && !s.refunds[s.lines[l].refund].cancelled :: s.lines[l].quantity
  }

  ghost function Returned(s: State, x: int): int {
    Total(ReturnedColumn(s, x))
  }

  lemma ReturnedIsRefunded(s: State, x: int)
    ensures Returned(s, x) == Refunded(s, x)
  {
    var a, b := ReturnedColumn(s, x), RefundedColumn(s, x);
    forall l ensures l in a <==> l in b {
    }
    TotalAlike(a, b);
  }

  function Positive(n: int): int {
    if n > 0 then n else 0
  }

  function Lesser(a: int, b: int): int {
    if a <= b then a else b
  }

  /** What is left of a line sold, whatever is invoiced. */
  ghost function Rest(s: State, shop: Shop, x: int): int
    requires x in shop.orderLines
  {
    Positive(shop.orderLines[x].sold - Returned(s, x))
  }

  /** And what is left besides the units on live invoices. */
  ghost function Free(s: State, shop: Shop, x: int, invoiced: Invoiced): int
    requires x in shop.orderLines
  {
    Positive(shop.orderLines[x].sold - Returned(s, x) - if x in invoiced then invoiced[x] else 0)
  }

  lemma LeftIs(s: State, shop: Shop, x: int, invoiced: Invoiced)
    requires x in shop.orderLines
    ensures Left(s, shop, x, 0) == Rest(s, shop, x) && Left(s, shop, x, On(invoiced, x)) == Free(s, shop, x, invoiced)
    ensures forall q :: HeldByInvoice(q, shop.orderLines[x].sold, Refunded(s, x), On(invoiced, x)) <==>
              Free(s, shop, x, invoiced) < q <= Rest(s, shop, x)
  {
    ReturnedIsRefunded(s, x);
  }

  // ----- opening

  predicate OfOrder(shop: Shop, order: int, x: int) {
    x in shop.orderLines && shop.orderLines[x].order == order
  }

  /** A refund is opened exactly on a completed, paid order of which some line has something free. */
  lemma OpensExactlyWhen(s: State, shop: Shop, order: int, store: Store, invoiced: Invoiced)
    ensures Open(s, shop, order, store, invoiced).Ok? <==>
              && order in shop.orders && shop.orders[order].completed && shop.orders[order].paid
              && exists x :: OfOrder(shop, order, x) && Free(s, shop, x, invoiced) > 0
  {
    AvailableIs(s, shop, order, invoiced);
    if x :| OfOrder(shop, order, x) && Free(s, shop, x, invoiced) > 0 {
      assert x in Available(s, shop, order, invoiced);
    }
    if Available(s, shop, order, invoiced) != {} {
      var x := AnyOf(Available(s, shop, order, invoiced));
      assert OfOrder(shop, order, x);
    }
  }

  lemma AvailableIs(s: State, shop: Shop, order: int, invoiced: Invoiced)
    ensures forall x :: x in Available(s, shop, order, invoiced) <==> OfOrder(shop, order, x) && Free(s, shop, x, invoiced) > 0
  {
    forall x | x in shop.orderLines ensures Left(s, shop, x, On(invoiced, x)) == Free(s, shop, x, invoiced) {
      LeftIs(s, shop, x, invoiced);
    }
  }

  /** Where invoices are all that stands in the way, the refusal says so. */
  lemma OpeningNamesTheInvoice(s: State, shop: Shop, order: int, store: Store, invoiced: Invoiced)
    requires order in shop.orders && shop.orders[order].completed && shop.orders[order].paid
    ensures Open(s, shop, order, store, invoiced) == Refused(LineInvoiced) <==>
              && (forall x :: OfOrder(shop, order, x) ==> Free(s, shop, x, invoiced) == 0)
              && (exists x :: OfOrder(shop, order, x) && Rest(s, shop, x) > 0)
  {
    OpensExactlyWhen(s, shop, order, store, invoiced);
    forall x | x in shop.orderLines
      ensures Left(s, shop, x, 0) == Rest(s, shop, x) && Left(s, shop, x, On(invoiced, x)) == Free(s, shop, x, invoiced)
    {
      LeftIs(s, shop, x, invoiced);
    }
    if forall x :: OfOrder(shop, order, x) ==> Free(s, shop, x, invoiced) == 0 {
      if x :| OfOrder(shop, order, x) && Rest(s, shop, x) > 0 {
        assert x in OrderLinesOf(shop, order) && Left(s, shop, x, 0) > Left(s, shop, x, On(invoiced, x));
      }
    }
  }

  /** The warehouse a line starts with: the caller's counter's; without one, the one the line was sold from if it is the
      store's own; and otherwise none. */
  predicate StartsAt(shop: Shop, store: Store, x: int, warehouse: Option<int>) {
    match store.counter
    case Some(counter) => warehouse == Some(counter)
    case None =>
      && (warehouse.Some? ==> warehouse.value in store.own && x in shop.orderLines && shop.orderLines[x].warehouse == warehouse)
      && (warehouse.None? ==> forall w :: w in store.own && x in shop.orderLines ==> shop.orderLines[x].warehouse != Some(w))
  }

  predicate ZeroLine(shop: Shop, store: Store, line: RefundLine, refund: int, x: int) {
    line.refund == refund && line.orderLine == x && line.quantity == 0 && StartsAt(shop, store, x, line.warehouse)
  }

  function Zero(shop: Shop, store: Store, refund: int, x: int): RefundLine {
    RefundLine(refund, x, 0, StartsIn(shop, store, x))
  }

  lemma ZeroIs(shop: Shop, store: Store, refund: int, x: int)
    ensures ZeroLine(shop, store, Zero(shop, store, refund, x), refund, x)
  {
  }

  predicate HasZeroLine(lines: map<int, RefundLine>, after: map<int, RefundLine>, shop: Shop, store: Store, refund: int, x: int) {
    exists l :: l in after && l !in lines && ZeroLine(shop, store, after[l], refund, x)
  }

  predicate Lists(lines: map<int, RefundLine>, after: map<int, RefundLine>, line: RefundLine) {
    exists l :: l in after && l !in lines && after[l] == line
  }

  lemma {:induction false} ZeroLinesCount(lines: map<int, RefundLine>, shop: Shop, store: Store, refund: int, keys: seq<int>)
    ensures |ZeroLines(lines, shop, store, refund, keys)| == |lines| + |keys|
  {
    if keys != [] {
      var earlier := ZeroLines(lines, shop, store, refund, keys[..|keys| - 1]);
      ZeroLinesCount(lines, shop, store, refund, keys[..|keys| - 1]);
      assert ZeroLines(lines, shop, store, refund, keys).Keys == earlier.Keys + {NextId(earlier)} && NextId(earlier) !in earlier;
    }
  }

  lemma {:induction false} ZeroLinesAdd(lines: map<int, RefundLine>, shop: Shop, store: Store, refund: int, keys: seq<int>)
    ensures var after := ZeroLines(lines, shop, store, refund, keys);
            && (forall l :: l in lines ==> l in after && after[l] == lines[l])
            && (forall l :: l in after && l !in lines ==>
                  after[l].orderLine in keys && after[l] == Zero(shop, store, refund, after[l].orderLine))
  {
    if keys != [] {
      assert keys == keys[..|keys| - 1] + [keys[|keys| - 1]];
      ZeroLinesAdd(lines, shop, store, refund, keys[..|keys| - 1]);
    }
  }

  lemma {:induction false} ZeroLineFor(lines: map<int, RefundLine>, shop: Shop, store: Store, refund: int, keys: seq<int>, x: int)
    requires x in keys
    ensures Lists(lines, ZeroLines(lines, shop, store, refund, keys), Zero(shop, store, refund, x))
  {
    var rest, last := keys[..|keys| - 1], keys[|keys| - 1];
    var earlier := ZeroLines(lines, shop, store, refund, rest);
    assert keys == rest + [last];
    ZeroLinesAdd(lines, shop, store, refund, rest);
    if x != last {
      ZeroLineFor(lines, shop, store, refund, rest, x);
    }
    ListsMore(lines, earlier, NextId(earlier), Zero(shop, store, refund, last), Zero(shop, store, refund, x));
  }

  lemma ListsMore(lines: map<int, RefundLine>, earlier: map<int, RefundLine>, id: int, last: RefundLine, line: RefundLine)
    requires id !in earlier && (forall l :: l in lines ==> l in earlier) && (line == last || Lists(lines, earlier, line))
    ensures Lists(lines, earlier[id := last], line)
  {
    var after := earlier[id := last];
    if line == last {
      assert after[id] == line;
    } else {
      var l :| l in earlier && l !in lines && earlier[l] == line;
      assert after[l] == line;
    }
  }

  /** The order's lines that have something free. */
  ghost function FreeLines(s: State, shop: Shop, order: int, invoiced: Invoiced): set<int> {
    set x | x in shop.orderLines && OfOrder(shop, order, x) && Free(s, shop, x, invoiced) > 0
  }

  /** A new draft of the order, with one line at zero for each of some order lines, and no other. */
  ghost predicate OpenedFor(s: State, t: State, shop: Shop, order: int, store: Store, refund: int, free: set<int>) {
    && refund !in s.refunds && t.refunds == s.refunds[refund := Refund(order, false, false)]
    && (forall l :: l in s.lines ==> l in t.lines && t.lines[l] == s.lines[l])
    && (forall l :: l in t.lines && l !in s.lines ==>
          t.lines[l].orderLine in free && ZeroLine(shop, store, t.lines[l], refund, t.lines[l].orderLine))
    && (forall x :: x in free ==> HasZeroLine(s.lines, t.lines, shop, store, refund, x))
    && |t.lines| == |s.lines| + |free|
  }

  /** Opening a refund leaves a draft with a line at zero for each line of the order that has something free. */
  lemma OpenedIs(s: State, shop: Shop, order: int, store: Store, invoiced: Invoiced)
    requires Open(s, shop, order, store, invoiced).Ok?
    ensures OpenedFor(s, Open(s, shop, order, store, invoiced).value, shop, order, store, NextId(s.refunds), FreeLines(s, shop, order, invoiced))
  {
    AvailableIs(s, shop, order, invoiced);
    assert Available(s, shop, order, invoiced) == FreeLines(s, shop, order, invoiced);
    OpenedWith(s, Open(s, shop, order, store, invoiced).value, shop, order, store, NextId(s.refunds), FreeLines(s, shop, order, invoiced));
  }

  lemma OpenedWith(s: State, t: State, shop: Shop, order: int, store: Store, refund: int, free: set<int>)
    requires refund !in s.refunds && t.refunds == s.refunds[refund := Refund(order, false, false)]
    requires t.lines == ZeroLines(s.lines, shop, store, refund, Ascending(free))
    ensures OpenedFor(s, t, shop, order, store, refund, free)
  {
    AllZeroLines(s.lines, shop, store, refund, Ascending(free));
  }

  lemma AllZeroLines(lines: map<int, RefundLine>, shop: Shop, store: Store, refund: int, keys: seq<int>)
    ensures var after := ZeroLines(lines, shop, store, refund, keys);
            && |after| == |lines| + |keys|
            && (forall l :: l in lines ==> l in after && after[l] == lines[l])
            && (forall l :: l in after && l !in lines ==> after[l].orderLine in keys && ZeroLine(shop, store, after[l], refund, after[l].orderLine))
            && (forall x :: x in keys ==> HasZeroLine(lines, after, shop, store, refund, x))
  {
    var after := ZeroLines(lines, shop, store, refund, keys);
    ZeroLinesCount(lines, shop, store, refund, keys);
    ZeroLinesAdd(lines, shop, store, refund, keys);
    forall l | l in after && l !in lines ensures ZeroLine(shop, store, after[l], refund, after[l].orderLine) {
      ZeroIs(shop, store, refund, after[l].orderLine);
    }
    forall x | x in keys ensures HasZeroLine(lines, after, shop, store, refund, x) {
      ZeroLineFor(lines, shop, store, refund, keys, x);
      ZeroIs(shop, store, refund, x);
      var l :| l in after && l !in lines && after[l] == Zero(shop, store, refund, x);
    }
  }

  // ----- entering

  predicate Draft(s: State, refund: int) {
    refund in s.refunds && !s.refunds[refund].completed && !s.refunds[refund].cancelled
  }

  /** A draft's line is entered exactly up to what is free of it, and into a warehouse of the store; what is not stated
      stays as it was. */
  lemma EntersExactlyWhen(s: State, shop: Shop, refund: int, l: int, quantity: Option<int>, warehouse: Option<Option<int>>,
                          own: set<int>, invoiced: Invoiced)
    ensures UpdateLine(s, shop, refund, l, quantity, warehouse, own, invoiced).Ok? <==>
              && Draft(s, refund) && l in s.lines && s.lines[l].refund == refund
              && (quantity.Some? && s.lines[l].orderLine in shop.orderLines ==>
                    quantity.value <= Free(s, shop, s.lines[l].orderLine, invoiced))
              && (warehouse.Some? && warehouse.value.Some? ==> warehouse.value.value in own)
    ensures UpdateLine(s, shop, refund, l, quantity, warehouse, own, invoiced).Ok? ==>
              var t := UpdateLine(s, shop, refund, l, quantity, warehouse, own, invoiced).value;
              && t == s.(lines := s.lines[l := s.lines[l].(quantity := t.lines[l].quantity, warehouse := t.lines[l].warehouse)])
              && (match quantity case Some(q) => t.lines[l].quantity == q case None => t.lines[l].quantity == s.lines[l].quantity)
              && (match warehouse case Some(w) => t.lines[l].warehouse == w case None => t.lines[l].warehouse == s.lines[l].warehouse)
  {
    if l in s.lines && s.lines[l].orderLine in shop.orderLines {
      LeftIs(s, shop, s.lines[l].orderLine, invoiced);
    }
  }

  // ----- confirming

  /** What a line can bring back: what it asks for, up to what is left of the sale. */
  ghost function Brings(s: State, shop: Shop, l: int): int
    requires l in s.lines
  {
    if s.lines[l].orderLine in shop.orderLines then Positive(Lesser(s.lines[l].quantity, Rest(s, shop, s.lines[l].orderLine))) else 0
  }

  predicate OfRefund(s: State, refund: int, l: int) {
    l in s.lines && s.lines[l].refund == refund
  }

  /** The line would bring back units that are on live invoices. */
  ghost predicate ReachesInvoice(s: State, shop: Shop, l: int, invoiced: Invoiced)
    requires l in s.lines
  {
    s.lines[l].orderLine in shop.orderLines && Brings(s, shop, l) > Free(s, shop, s.lines[l].orderLine, invoiced)
  }

  predicate Unplaced(s: State, shop: Shop, l: int)
    requires l in s.lines
  {
    && s.lines[l].orderLine in shop.orderLines && shop.orderLines[s.lines[l].orderLine].product in shop.stocked
    && s.lines[l].warehouse == None
  }

  lemma BringsIs(s: State, shop: Shop, l: int, invoiced: Invoiced)
    requires l in s.lines
    ensures Held(s, shop, l, invoiced) <==> ReachesInvoice(s, shop, l, invoiced)
    ensures !Held(s, shop, l, invoiced) ==>
              Fitted(s, shop, l, invoiced) == if Brings(s, shop, l) > 0 then Some(Brings(s, shop, l)) else None
  {
    var x := s.lines[l].orderLine;
    if x in shop.orderLines {
      LeftIs(s, shop, x, invoiced);
    }
  }

  lemma KeptIs(s: State, shop: Shop, refund: int, invoiced: Invoiced)
    requires forall l :: OfRefund(s, refund, l) ==> !ReachesInvoice(s, shop, l, invoiced)
    ensures forall l :: l in Kept(s, shop, refund, invoiced) <==> OfRefund(s, refund, l) && Brings(s, shop, l) > 0
    ensures forall l :: l in Kept(s, shop, refund, invoiced) ==> Kept(s, shop, refund, invoiced)[l] == Brings(s, shop, l)
  {
    forall l | l in LinesOf(s, refund)
      ensures Fitted(s, shop, l, invoiced) == if Brings(s, shop, l) > 0 then Some(Brings(s, shop, l)) else None
    {
      assert OfRefund(s, refund, l);
      BringsIs(s, shop, l, invoiced);
    }
  }

  lemma NoneHeld(s: State, shop: Shop, refund: int, invoiced: Invoiced)
    ensures (exists l :: l in LinesOf(s, refund) && Held(s, shop, l, invoiced)) <==>
            (exists l :: OfRefund(s, refund, l) && ReachesInvoice(s, shop, l, invoiced))
  {
    forall l | l in s.lines ensures Held(s, shop, l, invoiced) <==> ReachesInvoice(s, shop, l, invoiced) {
      BringsIs(s, shop, l, invoiced);
    }
    if l :| OfRefund(s, refund, l) && ReachesInvoice(s, shop, l, invoiced) {
      assert l in LinesOf(s, refund);
    }
    if l :| l in LinesOf(s, refund) && Held(s, shop, l, invoiced) {
      assert OfRefund(s, refund, l);
    }
  }

  /** A draft is confirmed exactly when none of its lines reaches into what is invoiced, some line brings something
      back, and each that does of a stocked product says where to. */
  lemma ConfirmsExactlyWhen(s: State, shop: Shop, refund: int, invoiced: Invoiced)
    ensures Confirm(s, shop, refund, invoiced).Ok? <==>
              && Draft(s, refund) && s.refunds[refund].order in shop.orders
              && (forall l :: OfRefund(s, refund, l) ==> !ReachesInvoice(s, shop, l, invoiced))
              && (exists l :: OfRefund(s, refund, l) && Brings(s, shop, l) > 0)
              && (forall l :: OfRefund(s, refund, l) && Brings(s, shop, l) > 0 ==> !Unplaced(s, shop, l))
  {
    NoneHeld(s, shop, refund, invoiced);
    if forall l :: OfRefund(s, refund, l) ==> !ReachesInvoice(s, shop, l, invoiced) {
      KeepsExactlyWhen(s, shop, refund, invoiced);
    }
  }

  lemma KeepsExactlyWhen(s: State, shop: Shop, refund: int, invoiced: Invoiced)
    requires forall l :: OfRefund(s, refund, l) ==> !ReachesInvoice(s, shop, l, invoiced)
    ensures Kept(s, shop, refund, invoiced) != map[] <==> exists l :: OfRefund(s, refund, l) && Brings(s, shop, l) > 0
    ensures (exists l :: l in Kept(s, shop, refund, invoiced) && NeedsWarehouse(s, shop, l)) <==>
            exists l :: OfRefund(s, refund, l) && Brings(s, shop, l) > 0 && Unplaced(s, shop, l)
  {
    KeptIs(s, shop, refund, invoiced);
    var kept := Kept(s, shop, refund, invoiced);
    if kept != map[] {
      assert kept.Keys != {};
      var l := AnyOf(kept.Keys);
      assert OfRefund(s, refund, l) && Brings(s, shop, l) > 0;
    }
    if l :| OfRefund(s, refund, l) && Brings(s, shop, l) > 0 && Unplaced(s, shop, l) {
      assert l in kept && NeedsWarehouse(s, shop, l);
    }
    if l :| l in kept && NeedsWarehouse(s, shop, l) {
      assert OfRefund(s, refund, l) && Unplaced(s, shop, l);
    }
  }

  /** It is then complete, each of its lines with what it brings back and the others gone; other refunds and their lines
      stay. */
  lemma ConfirmedIs(s: State, shop: Shop, refund: int, invoiced: Invoiced)
    requires Confirm(s, shop, refund, invoiced).Ok?
    ensures var t := Confirm(s, shop, refund, invoiced).value;
            && t.refunds == s.refunds[refund := s.refunds[refund].(completed := true)]
            && (forall l :: l in t.lines <==> l in s.lines && (s.lines[l].refund == refund ==> Brings(s, shop, l) > 0))
            && (forall l :: l in t.lines ==>
                  t.lines[l] == if s.lines[l].refund == refund then s.lines[l].(quantity := Brings(s, shop, l)) else s.lines[l])
  {
    ConfirmsExactlyWhen(s, shop, refund, invoiced);
    KeptIs(s, shop, refund, invoiced);
    var t, own, kept := Confirm(s, shop, refund, invoiced).value, LinesOf(s, refund), Kept(s, shop, refund, invoiced);
    assert t.lines == Reconciled(s.lines, own, kept);
    forall l | l in s.lines
      ensures l in t.lines <==> (s.lines[l].refund == refund ==> Brings(s, shop, l) > 0)
      ensures l in t.lines ==>
                t.lines[l] == if s.lines[l].refund == refund then s.lines[l].(quantity := Brings(s, shop, l)) else s.lines[l]
    {
      assert l in own <==> OfRefund(s, refund, l);
    }
  }

  lemma CancelsExactlyWhen(s: State, refund: int)
    ensures Cancel(s, refund).Ok? <==> Draft(s, refund)
    ensures Cancel(s, refund).Ok? ==> Cancel(s, refund).value == s.(refunds := s.refunds[refund := s.refunds[refund].(cancelled := true)])
  {
  }

  // ----- the bound

  /** However many refunds compete, and whatever is invoiced meanwhile, the quantities completed refunds brought back of
      a line add up to no more than was sold. */
  lemma ReturnedWithinSold(shop: Shop, calls: seq<Call>, x: int)
    requires x in shop.orderLines && shop.orderLines[x].sold >= 0 && forall c :: c in calls ==> Proper(c)
    ensures Total(ReturnedColumn(Run(State(map[], map[]), shop, calls), x)) <= shop.orderLines[x].sold
  {
    NeverMoreThanSold(shop, calls, x);
    ReturnedIsRefunded(Run(State(map[], map[]), shop, calls), x);
  }
}
