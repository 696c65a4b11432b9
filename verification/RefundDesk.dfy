/** The refund desk at work: lines fitted one by one, dropped and adjusted in place. */
module RefundDesk {
  import opened Outcomes
  import opened Tables
  import opened Refunds

  /** A line as confirming looks at it: what it asks for and what is refundable. */
  datatype Asked = Asked(line: int, requested: int, refundable: int)

  datatype Adjusted = Adjusted(line: int, quantity: int)

  /** Fit each line to what is refundable: those to keep, with their quantities, and those to drop. */
  method ReconcileLines(lines: seq<Asked>) returns (keep: seq<Adjusted>, drop: seq<int>)
    ensures forall a :: a in keep ==> exists l :: l in lines && l.line == a.line && Fit(l.requested, l.refundable) == Some(a.quantity)
    ensures forall l :: l in lines && Fit(l.requested, l.refundable).Some? ==>
              Adjusted(l.line, Fit(l.requested, l.refundable).value) in keep
    ensures forall l :: l in drop <==> exists a :: a in lines && a.line == l && Fit(a.requested, a.refundable).None?
    ensures |keep| + |drop| == |lines|
    ensures forall a :: a in keep ==> a.quantity > 0
  {
    keep, drop := [], [];
    for i := 0 to |lines|
      invariant forall a :: a in keep ==>
                  exists l :: l in lines[..i] && l.line == a.line && Fit(l.requested, l.refundable) == Some(a.quantity)
      invariant forall l :: l in lines[..i] && Fit(l.requested, l.refundable).Some? ==>
                  Adjusted(l.line, Fit(l.requested, l.refundable).value) in keep
      invariant forall l :: l in drop <==> exists a :: a in lines[..i] && a.line == l && Fit(a.requested, a.refundable).None?
      invariant |keep| + |drop| == i
      invariant forall a :: a in keep ==> a.quantity > 0
    {
      var l := lines[i];
      assert lines[..i + 1] == lines[..i] + [l];
      if l.requested <= 0 || l.refundable <= 0 {
        drop := drop + [l.line];
      } else {
        keep := keep + [Adjusted(l.line, if l.requested <= l.refundable then l.requested else l.refundable)];
      }
    }
    assert lines[..|lines|] == lines;
  }

  class Desk {
    const shop: Shop
    var refunds: map<int, Refund>
    var lines: map<int, RefundLine>

    constructor (shop: Shop)
      ensures this.shop == shop && Now() == State(map[], map[])
    {
      this.shop, refunds, lines := shop, map[], map[];
    }

    function Now(): State
      reads this
    {
      State(refunds, lines)
    }

    ghost predicate Became(before: State, answer: Outcome, refusal: Option<Refusal>)
      reads this
    {
      match answer
      case Ok(after) => refusal == None && Now() == after
      case Refused(why) => refusal == Some(why) && Now() == before
    }

    /** What completed refunds returned of an order line. */
    method AlreadyRefunded(x: int) returns (refunded: int)
      ensures refunded == Refunded(Now(), x)
    {
      refunded := Sum(RefundedColumn(Now(), x));
    }

    /** What is left of an order line, whatever is invoiced and besides it. */
    method LeftOver(x: int, invoiced: Invoiced) returns (rest: int, free: int)
      requires x in shop.orderLines
      ensures rest == Left(Now(), shop, x, 0) && free == Left(Now(), shop, x, On(invoiced, x))
    {
      var refunded := AlreadyRefunded(x);
      rest := Refundable(shop.orderLines[x].sold, refunded, 0);
      free := Refundable(shop.orderLines[x].sold, refunded, On(invoiced, x));
    }

    /** The lines of an order with something free, and whether an invoice holds some line's units. */
    method FindAvailable(order: int, invoiced: Invoiced) returns (available: set<int>, held: bool)
      ensures available == Available(Now(), shop, order, invoiced)
      ensures held == exists x :: x in OrderLinesOf(shop, order) && Left(Now(), shop, x, 0) > Left(Now(), shop, x, On(invoiced, x))
    {
      var todo := OrderLinesOf(shop, order);
      available, held := {}, false;
      while todo != {}
        invariant todo <= OrderLinesOf(shop, order)
        invariant forall x :: x in available <==>
                    x in OrderLinesOf(shop, order) && x !in todo && Left(Now(), shop, x, On(invoiced, x)) > 0
        invariant held == exists x :: x in OrderLinesOf(shop, order) && x !in todo
                                   && Left(Now(), shop, x, 0) > Left(Now(), shop, x, On(invoiced, x))
        decreases |todo|
      {
        var x := Least(todo);
        var rest, free := LeftOver(x, invoiced);
        if free > 0 {
          available := available + {x};
        }
        held := held || rest > free;
        todo := todo - {x};
      }
      ghost var spec := Available(Now(), shop, order, invoiced);
      assert forall x :: x in available <==> x in spec;
    }

    /** Add a line at zero for each order line. */
    method AddZeroLines(refund: int, keys: seq<int>, store: Store)
      modifies this`lines
      ensures lines == ZeroLines(old(lines), shop, store, refund, keys)
    {
      for i := 0 to |keys|
        invariant lines == ZeroLines(old(lines), shop, store, refund, keys[..i])
      {
        assert keys[..i + 1][..i] == keys[..i];
        lines := lines[NextId(lines) := RefundLine(refund, keys[i], 0, StartsIn(shop, store, keys[i]))];
      }
      assert keys[..|keys|] == keys;
    }

    /** Open a refund of an order, a line at zero for each of its lines that has something to give back. */
    method OpenRefund(order: int, store: Store, invoiced: Invoiced) returns (refusal: Option<Refusal>)
      modifies this`refunds, this`lines
      ensures Became(old(Now()), Open(old(Now()), shop, order, store, invoiced), refusal)
    {
      if order !in shop.orders {
        return Some(NotFound);
      }
      if !shop.orders[order].completed {
        return Some(NotCompleted);
      }
      if !shop.orders[order].paid {
        return Some(NotPaid);
      }
      var available, held := FindAvailable(order, invoiced);
      if available == {} {
        return Some(if held then LineInvoiced else NothingRefundable);
      }
      var id := NextId(refunds);
      refunds := refunds[id := Refund(order, false, false)];
      AddZeroLines(id, Ascending(available), store);
      return None;
    }

    /** Enter a quantity or a warehouse on a line of a draft. */
    method EnterLine(refund: int, line: int, quantity: Option<int>, warehouse: Option<Option<int>>, own: set<int>, invoiced: Invoiced)
      returns (refusal: Option<Refusal>)
      modifies this`lines
      ensures Became(old(Now()), UpdateLine(old(Now()), shop, refund, line, quantity, warehouse, own, invoiced), refusal)
    {
      if line !in LinesOf(Now(), refund) || refund !in refunds {
        return Some(NotFound);
      }
      if !Editable(Now(), refund) {
        return Some(NotEditable);
      }
      var x := lines[line].orderLine;
      if quantity.Some? && x in shop.orderLines {
        var refunded := AlreadyRefunded(x);
        if HeldByInvoice(quantity.value, shop.orderLines[x].sold, refunded, On(invoiced, x)) {
          return Some(LineInvoiced);
        }
        if quantity.value > Refundable(shop.orderLines[x].sold, refunded, On(invoiced, x)) {
          return Some(ExceedsRefundable);
        }
      }
      if !WarehouseAllowed(warehouse, own) {
        return Some(WarehouseNotOwn);
      }
      lines := lines[line := lines[line].(
        quantity := quantity.Or(lines[line].quantity), warehouse := NewWarehouse(lines[line], warehouse))];
      return None;
    }

    /** What is refundable of a line, or that live invoices hold what it claims. */
    method LookAt(l: int, invoiced: Invoiced) returns (held: bool, asked: Asked)
      requires l in lines
      ensures held == Held(Now(), shop, l, invoiced)
      ensures asked.line == l && Fit(asked.requested, asked.refundable) == Fitted(Now(), shop, l, invoiced)
    {
      var line := lines[l];
      if line.orderLine !in shop.orderLines {
        return false, Asked(l, line.quantity, 0);
      }
      var sold := shop.orderLines[line.orderLine].sold;
      var refunded := AlreadyRefunded(line.orderLine);
      var soldLessRefunded := Refundable(sold, refunded, 0);
      var claim := if line.quantity <= soldLessRefunded then line.quantity else soldLessRefunded;
      held := HeldByInvoice(claim, sold, refunded, On(invoiced, line.orderLine));
      asked := Asked(l, line.quantity, Refundable(sold, refunded, On(invoiced, line.orderLine)));
    }

    /** Look at every line of a refund, or stop at one that live invoices hold. */
    method LookAtAll(refund: int, invoiced: Invoiced) returns (held: bool, asked: seq<Asked>)
      ensures held == exists l :: l in LinesOf(Now(), refund) && Held(Now(), shop, l, invoiced)
      ensures !held ==> forall l :: l in LinesOf(Now(), refund) <==> exists a :: a in asked && a.line == l
      ensures !held ==> forall a :: a in asked ==>
                a.line in lines && Fit(a.requested, a.refundable) == Fitted(Now(), shop, a.line, invoiced)
    {
      asked := [];
      var todo := LinesOf(Now(), refund);
      while todo != {}
        invariant todo <= LinesOf(Now(), refund)
        invariant forall l :: l in LinesOf(Now(), refund) && l !in todo ==> !Held(Now(), shop, l, invoiced)
        invariant forall l :: l in LinesOf(Now(), refund) && l !in todo ==> exists a :: a in asked && a.line == l
        invariant forall a :: a in asked ==>
                    a.line in LinesOf(Now(), refund) && Fit(a.requested, a.refundable) == Fitted(Now(), shop, a.line, invoiced)
        decreases |todo|
      {
        var l := Least(todo);
        var one;
        held, one := LookAt(l, invoiced);
        if held {
          return;
        }
        assert one in asked + [one];
        forall k | k in LinesOf(Now(), refund) && k !in todo ensures exists a :: a in asked + [one] && a.line == k {
          var a :| a in asked && a.line == k;
          assert a in asked + [one];
        }
        asked := asked + [one];
        todo := todo - {l};
      }
      held := false;
    }

    /** The kept lines as a table. */
    method Keep(refund: int, invoiced: Invoiced, asked: seq<Asked>) returns (kept: map<int, int>)
      requires forall l :: l in LinesOf(Now(), refund) <==> exists a :: a in asked && a.line == l
      requires forall a :: a in asked ==>
                 a.line in lines && Fit(a.requested, a.refundable) == Fitted(Now(), shop, a.line, invoiced)
      ensures kept == Kept(Now(), shop, refund, invoiced)
    {
      var keep, drop := ReconcileLines(asked);
      kept := map[];
      for i := 0 to |keep|
        invariant forall l :: l in kept <==> exists a :: a in keep[..i] && a.line == l
        invariant forall l :: l in kept ==> l in lines && Fitted(Now(), shop, l, invoiced) == Some(kept[l])
      {
        var a := keep[i];
        assert keep[..i + 1] == keep[..i] + [a];
        assert a in keep;
        kept := kept[a.line := a.quantity];
      }
      assert keep[..|keep|] == keep;
      var spec := Kept(Now(), shop, refund, invoiced);
      forall l ensures l in kept <==> l in spec {
        if l in spec {
          var a :| a in asked && a.line == l;
          assert Adjusted(l, Fit(a.requested, a.refundable).value) in keep;
        }
        if l in kept {
          var a :| a in keep && a.line == l;
          var k :| k in asked && k.line == a.line && Fit(k.requested, k.refundable) == Some(a.quantity);
          assert l in LinesOf(Now(), refund);
        }
      }
      forall l | l in kept ensures kept[l] == spec[l] {
      }
    }

    /** Drop what is not kept and adjust what is. */
    method StoreKept(own: set<int>, kept: map<int, int>)
      requires own <= lines.Keys && kept.Keys <= own
      modifies this`lines
      ensures lines == Reconciled(old(lines), own, kept)
    {
      ghost var was := lines;
      var todo := own;
      while todo != {}
        invariant todo <= own
        invariant forall l :: l in lines <==> l in was && (l in own && l !in todo ==> l in kept)
        invariant forall l :: l in lines ==>
                    lines[l] == if l in own && l !in todo && l in kept then was[l].(quantity := kept[l]) else was[l]
        decreases |todo|
      {
        var l := Least(todo);
        if l in kept {
          lines := lines[l := lines[l].(quantity := kept[l])];
        } else {
          lines := lines - {l};
        }
        todo := todo - {l};
      }
      var spec := Reconciled(was, own, kept);
      forall l ensures l in lines <==> l in spec {
      }
      forall l | l in lines ensures lines[l] == spec[l] {
      }
    }

    /** Complete a refund with what is left of each line. */
    method ConfirmRefund(refund: int, invoiced: Invoiced) returns (refusal: Option<Refusal>)
      modifies this`refunds, this`lines
      ensures Became(old(Now()), Confirm(old(Now()), shop, refund, invoiced), refusal)
    {
      if refund !in refunds {
        return Some(NotFound);
      }
      if !Editable(Now(), refund) {
        return Some(NotEditable);
      }
      if refunds[refund].order !in shop.orders {
        return Some(NotFound);
      }
      var held, asked := LookAtAll(refund, invoiced);
      if held {
        return Some(LineInvoiced);
      }
      var kept := Keep(refund, invoiced, asked);
      if kept == map[] {
        return Some(NoReturnableLines);
      }
      if exists l :: l in kept && NeedsWarehouse(Now(), shop, l) {
        return Some(WarehouseRequired);
      }
      StoreKept(LinesOf(Now(), refund), kept);
      refunds := refunds[refund := refunds[refund].(completed := true)];
      return None;
    }

    method CancelRefund(refund: int) returns (refusal: Option<Refusal>)
      modifies this`refunds
      ensures Became(old(Now()), Cancel(old(Now()), refund), refusal)
    {
      if refund !in refunds {
        return Some(NotFound);
      }
      if refunds[refund].completed {
        return Some(CompletedCannotCancel);
      }
      if refunds[refund].cancelled {
        return Some(AlreadyCancelled);
      }
      refunds := refunds[refund := refunds[refund].(cancelled := true)];
      return None;
    }
  }
}
