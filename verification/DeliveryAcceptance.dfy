/** Which calls are accepted, in terms a caller can check, and what each accepted one makes of its order, trip or
    sale. */
module DeliveryAcceptance {
  import opened Outcomes
  import opened Tables
  import opened DeliveryEvents
  import opened Delivery
  import opened DeliveryInvariant
  import opened DeliveryKeeps
  import opened DeliveryTravel
  import opened DeliveryDepart
  import opened DeliverySettle
  import opened DeliveryClose
  import opened DeliveryCalls
  import opened DeliveryHistories
  import opened DeliveryOutcomes
  import opened DeliveryChildren

  // ----- raising

  /** Something of the sale is not covered by a delivery order yet. */
  ghost predicate Owes(s: State, setup: Setup, sale: int, x: int) {
    x in setup.salesLines && setup.salesLines[x].sale == sale && Covered(s, x) < setup.salesLines[x].quantity
  }

  /** Each requested line once, each owed, none for more than is owed. */
  ghost predicate Requestable(s: State, setup: Setup, sale: int, items: seq<Request>) {
    && (forall i :: 0 <= i < |items| ==>
          && Owes(s, setup, sale, items[i].salesLine)
          && items[i].quantity <= setup.salesLines[items[i].salesLine].quantity - Covered(s, items[i].salesLine))
    && (forall i, j :: 0 <= i < j < |items| ==> items[i].salesLine != items[j].salesLine)
  }

  lemma NarrowsNext(uncovered: map<int, int>, items: seq<Request>)
    requires items != []
    ensures var rest, last := items[..|items| - 1], items[|items| - 1];
            NarrowTo(uncovered, items).Ok? <==>
              && NarrowTo(uncovered, rest).Ok? && (forall i :: 0 <= i < |rest| ==> rest[i].salesLine != last.salesLine)
              && last.salesLine in uncovered && last.quantity <= uncovered[last.salesLine]
  {
    var rest, last := items[..|items| - 1], items[|items| - 1];
    if NarrowTo(uncovered, rest).Ok? {
      NarrowedWithin(uncovered, rest);
      if i :| 0 <= i < |rest| && rest[i].salesLine == last.salesLine {
        assert rest[i] in rest;
      }
    }
  }

  lemma {:induction false} NarrowsExactlyWhen(uncovered: map<int, int>, items: seq<Request>)
    ensures NarrowTo(uncovered, items).Ok? <==>
              && (forall i :: 0 <= i < |items| ==>
                    items[i].salesLine in uncovered && items[i].quantity <= uncovered[items[i].salesLine])
              && (forall i, j :: 0 <= i < j < |items| ==> items[i].salesLine != items[j].salesLine)
  {
    if items != [] {
      NarrowsNext(uncovered, items);
      NarrowsExactlyWhen(uncovered, items[..|items| - 1]);
    }
  }

  lemma DeliverableIs(s: State, setup: Setup, sale: int)
    ensures forall x :: x in Deliverable(s, setup, sale) <==> Owes(s, setup, sale, x)
    ensures forall x :: x in Deliverable(s, setup, sale) ==>
              Deliverable(s, setup, sale)[x] == setup.salesLines[x].quantity - Covered(s, x)
    ensures Deliverable(s, setup, sale) == map[] <==> forall x :: !Owes(s, setup, sale, x)
  {
    var uncovered := Deliverable(s, setup, sale);
    if uncovered != map[] {
      assert uncovered.Keys != {};
      var x := AnyOf(uncovered.Keys);
      assert Owes(s, setup, sale, x);
    }
  }

  lemma ChosenExactlyWhen(s: State, setup: Setup, sale: int, requested: Option<seq<Request>>)
    ensures Chosen(Deliverable(s, setup, sale), requested).Ok? <==>
              requested.Some? ==> Requestable(s, setup, sale, requested.value)
  {
    DeliverableIs(s, setup, sale);
    if requested.Some? {
      NarrowsExactlyWhen(Deliverable(s, setup, sale), requested.value);
    }
  }

  /** A sale can be delivered while it is completed, not cancelled, and paid or on credit where that is asked for. */
  predicate SaleReady(setup: Setup, sale: int) {
    && sale in setup.sales && setup.sales[sale].completed && !setup.sales[sale].cancelled
    && (setup.payFirst ==> setup.sales[sale].paid || setup.sales[sale].credit)
  }

  lemma CreatesExactlyWhen(s: State, setup: Setup, sale: int, kind: Fulfillment, requested: Option<seq<Request>>)
    ensures Create(s, setup, sale, kind, requested).Ok? <==>
              && kind != Mixed && SaleReady(setup, sale) && Deliverable(s, setup, sale) != map[]
              && Chosen(Deliverable(s, setup, sale), requested).Ok? && setup.sales[sale].facility in setup.fallback
  {
    if sale in setup.sales {
      assert SaleRefusal(setup, setup.sales[sale]).None? <==> SaleReady(setup, sale);
    }
  }

  lemma KindIs(setup: Setup, sale: int, given: Option<Fulfillment>, shipTo: Option<int>)
    ensures KindOf(setup, sale, given, shipTo) == Mixed <==> given == Some(Mixed)
    ensures given.Some? ==> KindOf(setup, sale, given, shipTo) == given.value
    ensures given.None? && sale in setup.sales ==>
              && KindOf(setup, sale, given, shipTo) in {Pickup, Fulfillment.Delivery}
              && (KindOf(setup, sale, given, shipTo) == Pickup <==>
                    DestinationOf(setup, sale, shipTo).Some? && DestinationOf(setup, sale, shipTo).value in setup.addresses)
  {
  }

  /** An order is raised exactly for a ready sale that owes something, of what it owes, unless asked to be of both
      kinds, and where the facility has a warehouse to fall back on. */
  lemma RaisedExactlyWhen(s: State, setup: Setup, sale: int, given: Option<Fulfillment>, shipTo: Option<int>, requested: Option<seq<Request>>)
    ensures Answer(s, setup, Raise(sale, given, shipTo, requested)).Ok? <==>
              && given != Some(Mixed) && SaleReady(setup, sale) && (exists x :: Owes(s, setup, sale, x))
              && (requested.Some? ==> Requestable(s, setup, sale, requested.value))
              && setup.sales[sale].facility in setup.fallback
  {
    DeliverableIs(s, setup, sale);
    ChosenExactlyWhen(s, setup, sale, requested);
    KindIs(setup, sale, given, shipTo);
    CreatesExactlyWhen(s, setup, sale, KindOf(setup, sale, given, shipTo), requested);
  }

  /** Where an order raised for the sale goes. */
  function DestinationOf(setup: Setup, sale: int, shipTo: Option<int>): Option<int>
    requires sale in setup.sales
  {
    match shipTo
    case Some(address) => Some(address)
    case None => setup.sales[sale].shipTo
  }

  /** The new order is a draft of the sale's customer at the sale's facility, without serial or parent, of the kind
      asked for; and where none is, a pickup exactly when it goes to one of the facilities' own addresses. */
  lemma RaisedIs(s: State, setup: Setup, sale: int, given: Option<Fulfillment>, shipTo: Option<int>, requested: Option<seq<Request>>)
    requires Answer(s, setup, Raise(sale, given, shipTo, requested)).Ok?
    ensures var t, o := After(s, setup, Raise(sale, given, shipTo, requested)), NextId(s.orders);
            && sale in setup.sales && t.orders.Keys == s.orders.Keys + {o} && o !in s.orders
            && (forall k :: k in s.orders ==> t.orders[k] == s.orders[k])
            && t.orders[o].customer == setup.sales[sale].customer && t.orders[o].facility == setup.sales[sale].facility
            && t.orders[o].status == Draft && t.orders[o].serial == None && t.orders[o].parent == None
            && (given.Some? ==> t.orders[o].fulfillment == given.value)
            && (given.None? ==>
                  && t.orders[o].fulfillment in {Pickup, Fulfillment.Delivery}
                  && (t.orders[o].fulfillment == Pickup <==>
                        DestinationOf(setup, sale, shipTo).Some? && DestinationOf(setup, sale, shipTo).value in setup.addresses))
  {
    KindIs(setup, sale, given, shipTo);
    CreatedIs(s, setup, sale, KindOf(setup, sale, given, shipTo), requested);
  }

  lemma CreatedIs(s: State, setup: Setup, sale: int, kind: Fulfillment, requested: Option<seq<Request>>)
    requires Create(s, setup, sale, kind, requested).Ok?
    ensures var orders, o := Create(s, setup, sale, kind, requested).value.orders, NextId(s.orders);
            && sale in setup.sales && orders.Keys == s.orders.Keys + {o} && o !in s.orders
            && (forall k :: k in s.orders ==> orders[k] == s.orders[k])
            && orders[o].customer == setup.sales[sale].customer && orders[o].facility == setup.sales[sale].facility
            && orders[o].status == Draft && orders[o].serial == None && orders[o].parent == None
            && orders[o].fulfillment == kind
  {
    var t := Create(s, setup, sale, kind, requested).value;
    var facility, order, chosen := CreateParts(s, t, setup, sale, kind, requested);
    AddLinesKeepOrders(s.(orders := s.orders[NextId(s.orders) := order]), setup, NextId(s.orders), facility, chosen);
    OneMoreOrder(s.orders, NextId(s.orders), order);
  }

  lemma OneMoreOrder(orders: map<int, Order>, id: int, order: Order)
    requires id !in orders
    ensures orders[id := order].Keys == orders.Keys + {id} && orders[id := order][id] == order
    ensures forall k :: k in orders ==> orders[id := order][k] == orders[k]
  {
  }

  // ----- what raising and adding cover

  lemma LineCovers(s: State, t: State, l: int, line: Line, x: int)
    requires l !in s.lines && t == s.(lines := s.lines[l := line]) && Live(t, l)
    ensures Covered(t, x) == Covered(s, x) + if line.salesLine == Some(x) then line.quantity else 0
  {
    var a, b := Covering(s, x), Covering(t, x);
    assert l !in a;
    forall k | k != l ensures k in a <==> k in b {
    }
    TotalBut(a, b, l);
  }

  /** What some requests ask of a sales line. */
  function AskedOf(items: seq<Request>, x: int): int {
    if items == [] then 0
    else
      AskedOf(items[..|items| - 1], x) + if items[|items| - 1].salesLine == x then items[|items| - 1].quantity else 0
  }

  lemma {:induction false} AskedOnce(items: seq<Request>, x: int)
    requires forall i, j :: 0 <= i < j < |items| ==> items[i].salesLine != items[j].salesLine
    ensures forall i :: 0 <= i < |items| && items[i].salesLine == x ==> AskedOf(items, x) == items[i].quantity
    ensures (forall i :: 0 <= i < |items| ==> items[i].salesLine != x) ==> AskedOf(items, x) == 0
  {
    if items != [] {
      AskedOnce(items[..|items| - 1], x);
    }
  }

  lemma {:induction false} LinesCover(s: State, setup: Setup, o: int, facility: int, items: seq<Request>, x: int)
    requires KnownLines(setup, items) && facility in setup.fallback && o in s.orders && s.orders[o].status == Draft
    ensures var t := AddLines(s, setup, o, facility, items);
            t.orders == s.orders && Covered(t, x) == Covered(s, x) + AskedOf(items, x)
  {
    if items != [] {
      var rest, last := items[..|items| - 1], items[|items| - 1];
      assert last in items;
      LinesCover(s, setup, o, facility, rest, x);
      var earlier := AddLines(s, setup, o, facility, rest);
      LineCovers(earlier, AddLines(s, setup, o, facility, items), NextId(earlier.lines), NewLine(setup, o, facility, last), x);
    }
  }

  lemma AllAsked(uncovered: map<int, int>, x: int)
    ensures AskedOf(Everything(uncovered, Ascending(uncovered.Keys)), x) == if x in uncovered then uncovered[x] else 0
  {
    var keys := Ascending(uncovered.Keys);
    EverythingListed(uncovered, keys);
    AskedOnce(Everything(uncovered, keys), x);
    if x in uncovered {
      var i :| 0 <= i < |keys| && keys[i] == x;
      assert Everything(uncovered, keys)[i].salesLine == x;
    }
  }

  lemma ChosenAsks(s: State, setup: Setup, sale: int, requested: Option<seq<Request>>, chosen: seq<Request>, x: int)
    requires Chosen(Deliverable(s, setup, sale), requested) == Ok(chosen)
    ensures requested.None? ==> AskedOf(chosen, x) == if Owes(s, setup, sale, x) then setup.salesLines[x].quantity - Covered(s, x) else 0
    ensures requested.Some? ==> chosen == requested.value
  {
    DeliverableIs(s, setup, sale);
    AllAsked(Deliverable(s, setup, sale), x);
    ChosenWithin(Deliverable(s, setup, sale), requested);
  }

  /** Raised without a request, the order covers all that was owed of each line of the sale; with one, exactly what
      was asked of each line. */
  lemma RaisingCovers(s: State, setup: Setup, sale: int, given: Option<Fulfillment>, shipTo: Option<int>,
                      requested: Option<seq<Request>>, x: int)
    requires Inv(s, setup) && Answer(s, setup, Raise(sale, given, shipTo, requested)).Ok?
    ensures var t := After(s, setup, Raise(sale, given, shipTo, requested));
            && (requested.None? && Owes(s, setup, sale, x) ==> Covered(t, x) == setup.salesLines[x].quantity)
            && (requested.None? && !Owes(s, setup, sale, x) ==> Covered(t, x) == Covered(s, x))
            && (requested.Some? ==> Covered(t, x) == Covered(s, x) + AskedOf(requested.value, x))
  {
    var chosen := CreatingCovers(s, setup, sale, KindOf(setup, sale, given, shipTo), requested, x);
    ChosenAsks(s, setup, sale, requested, chosen, x);
  }

  lemma CreatingCovers(s: State, setup: Setup, sale: int, kind: Fulfillment, requested: Option<seq<Request>>, x: int)
    returns (chosen: seq<Request>)
    requires Inv(s, setup) && Create(s, setup, sale, kind, requested).Ok?
    ensures Chosen(Deliverable(s, setup, sale), requested) == Ok(chosen)
    ensures Covered(Create(s, setup, sale, kind, requested).value, x) == Covered(s, x) + AskedOf(chosen, x)
  {
    var t := Create(s, setup, sale, kind, requested).value;
    var facility, order;
    facility, order, chosen := CreateParts(s, t, setup, sale, kind, requested);
    OrderCovers(s, t, setup, NextId(s.orders), order, facility, chosen, x);
  }

  lemma OrderCovers(s: State, t: State, setup: Setup, o: int, order: Order, facility: int, chosen: seq<Request>, x: int)
    requires TablesOk(s, setup) && o !in s.orders && order.status == Draft && KnownLines(setup, chosen) && facility in setup.fallback
    requires t == AddLines(s.(orders := s.orders[o := order]), setup, o, facility, chosen)
    ensures Covered(t, x) == Covered(s, x) + AskedOf(chosen, x)
  {
    var raised := s.(orders := s.orders[o := order]);
    CreatedCovers(s, raised, setup, o, order);
    LinesCover(raised, setup, o, facility, chosen, x);
  }

  /** A line is added exactly to a draft, once, from a sale of its customer, within what is not covered, and from
      somewhere. */
  lemma AddedExactlyWhen(s: State, setup: Setup, o: int, r: Request)
    ensures AddLine(s, setup, o, r).Ok? <==>
              && o in s.orders && s.orders[o].status == Draft
              && r.salesLine in setup.salesLines && setup.salesLines[r.salesLine].sale in setup.sales
              && setup.sales[setup.salesLines[r.salesLine].sale].customer == s.orders[o].customer
              && (forall l :: l in s.lines && s.lines[l].order == o ==> s.lines[l].salesLine != Some(r.salesLine))
              && r.quantity <= setup.salesLines[r.salesLine].quantity - Covered(s, r.salesLine)
              && (setup.salesLines[r.salesLine].warehouse == None ==> s.orders[o].facility in setup.fallback)
  {
  }

  /** And covers that much more of its sales line, and of no other. */
  lemma AddingCovers(s: State, setup: Setup, o: int, r: Request, x: int)
    requires AddLine(s, setup, o, r).Ok?
    ensures Covered(AddLine(s, setup, o, r).value, x) == Covered(s, x) + if r.salesLine == x then r.quantity else 0
  {
    var t := AddLine(s, setup, o, r).value;
    LineCovers(s, t, NextId(s.lines), t.lines[NextId(s.lines)], x);
  }

  /** A draft's line is changed exactly within what the sales line has uncovered besides it. */
  lemma EditedExactlyWhen(s: State, setup: Setup, o: int, l: int, quantity: int)
    requires Inv(s, setup)
    ensures UpdateLine(s, setup, o, l, quantity).Ok? <==>
              && o in s.orders && s.orders[o].status == Draft && l in s.lines && s.lines[l].order == o
              && (s.lines[l].salesLine.Some? ==>
                    quantity - s.lines[l].quantity
                    <= setup.salesLines[s.lines[l].salesLine.value].quantity - Covered(s, s.lines[l].salesLine.value))
    ensures UpdateLine(s, setup, o, l, quantity).Ok? ==>
              UpdateLine(s, setup, o, l, quantity).value == s.(lines := s.lines[l := s.lines[l].(quantity := quantity)])
  {
    if l in s.lines {
      assert LineOk(s, setup, l);
    }
  }

  lemma DroppedExactlyWhen(s: State, o: int, l: int)
    ensures DeleteLine(s, o, l).Ok? <==>
              && o in s.orders && s.orders[o].status == Draft && l in s.lines && s.lines[l].order == o
              && (forall e :: e in s.entries ==> s.entries[e].line != l)
    ensures DeleteLine(s, o, l).Ok? ==> DeleteLine(s, o, l).value == s.(lines := s.lines - {l})
  {
  }

  // ----- the flow of an order

  /** The order alone has moved, to this status, its lines and serial aside. */
  ghost predicate Becomes(s: State, t: State, o: int, to: Status) {
    && o in s.orders && t.orders.Keys == s.orders.Keys && t.orders[o].status == to
    && (forall k :: k in s.orders && k != o ==> t.orders[k] == s.orders[k])
    && t.entries == s.entries && t.stops == s.stops && t.trips == s.trips
  }

  /** A draft with lines and enough notice is confirmed: to approval where that is asked for, and otherwise to the
      counter or to preparation, by its kind. */
  lemma ConfirmedExactlyWhen(s: State, setup: Setup, o: int, short: bool)
    requires Inv(s, setup)
    ensures Confirm(s, setup, o, short).Ok? <==>
              && o in s.orders && s.orders[o].status == Draft && !short
              && HasLine(s, o)
    ensures Confirm(s, setup, o, short).Ok? ==>
              Becomes(s, Confirm(s, setup, o, short).value, o,
                      if setup.approvalRequired then PendingApproval
                      else if s.orders[o].fulfillment == Pickup then Approved else InPreparation)
  {
    HasLines(s, o);
    if o in s.orders {
      assert OrderOk(s.orders[o]);
      ConfirmBecomes(s, setup, o, short);
    }
  }

  predicate HasLine(s: State, o: int) {
    exists l :: l in s.lines && s.lines[l].order == o
  }

  lemma HasLines(s: State, o: int)
    ensures LinesOf(s, o) != {} <==> HasLine(s, o)
  {
    if l :| l in s.lines && s.lines[l].order == o {
      assert l in LinesOf(s, o);
    }
    if LinesOf(s, o) != {} {
      var l := AnyOf(LinesOf(s, o));
      assert s.lines[l].order == o;
    }
  }

  lemma ConfirmBecomes(s: State, setup: Setup, o: int, short: bool)
    requires o in s.orders && s.orders[o].fulfillment != Mixed
    ensures Confirm(s, setup, o, short).Ok? <==> s.orders[o].status == Draft && !short && LinesOf(s, o) != {}
    ensures Confirm(s, setup, o, short).Ok? ==>
              Becomes(s, Confirm(s, setup, o, short).value, o,
                      if setup.approvalRequired then PendingApproval
                      else if s.orders[o].fulfillment == Pickup then Approved else InPreparation)
  {
  }

  /** The serial a confirmed order gets is the one after the highest at its facility, or the first there. */
  lemma ConfirmedTakesTheNextSerial(s: State, setup: Setup, o: int, short: bool)
    requires Confirm(s, setup, o, short).Ok?
    ensures var t := Confirm(s, setup, o, short).value;
            && o in s.orders && o in t.orders && t.orders[o].serial.Some?
            && var serial := t.orders[o].serial.value;
               && (forall p :: p in s.orders && s.orders[p].facility == s.orders[o].facility && s.orders[p].serial.Some? ==>
                     s.orders[p].serial.value < serial)
               && (serial == 1 || HasSerial(s, s.orders[o].facility, serial - 1))
  {
    NextFolioIs(s, s.orders[o].facility);
    assert Confirm(s, setup, o, short).value.orders[o].serial == Some(NextFolio(s.orders, s.orders[o].facility));
  }

  predicate HasSerial(s: State, facility: int, serial: int) {
    exists p :: p in s.orders && s.orders[p].facility == facility && s.orders[p].serial == Some(serial)
  }

  lemma NextFolioIs(s: State, facility: int)
    ensures var next := NextFolio(s.orders, facility);
            && (forall p :: p in s.orders && s.orders[p].facility == facility && s.orders[p].serial.Some? ==>
                  s.orders[p].serial.value < next)
            && (next == 1 || HasSerial(s, facility, next - 1))
  {
    forall p | p in s.orders && s.orders[p].facility == facility && s.orders[p].serial.Some?
      ensures s.orders[p].serial.value < NextFolio(s.orders, facility)
    {
      NextFolioIsAbove(s.orders, facility, p);
    }
  }

  lemma ApprovedExactlyWhen(s: State, setup: Setup, o: int)
    requires Inv(s, setup)
    ensures Approve(s, o).Ok? <==> o in s.orders && s.orders[o].status == PendingApproval
    ensures Approve(s, o).Ok? ==>
              Becomes(s, Approve(s, o).value, o, if s.orders[o].fulfillment == Pickup then Approved else InPreparation)
  {
    if o in s.orders {
      assert OrderOk(s.orders[o]);
    }
  }

  lemma RejectedExactlyWhen(s: State, o: int, reason: bool)
    ensures Reject(s, o, reason).Ok? <==> o in s.orders && s.orders[o].status == PendingApproval && reason
    ensures Reject(s, o, reason).Ok? ==> Becomes(s, Reject(s, o, reason).value, o, Draft)
  {
  }

  /** Only a pickup is ever approved without going to preparation. */
  lemma {:induction false} DeliveryNeverAtTheCounter(order: Order, i: nat)
    requires Recorded(order) && order.fulfillment == Fulfillment.Delivery && i < |order.events|
    ensures order.events[i].to !in {Approved, ReadyForPickup, PickedUp}
  {
    if i > 0 {
      DeliveryNeverAtTheCounter(order, i - 1);
      assert FollowsOn(order, i);
    }
  }

  lemma ReadiedExactlyWhen(s: State, setup: Setup, o: int)
    requires Inv(s, setup)
    ensures MarkReady(s, o).Ok? <==> o in s.orders && s.orders[o].status == Approved
    ensures MarkReady(s, o).Ok? ==> Becomes(s, MarkReady(s, o).value, o, ReadyForPickup)
  {
    if o in s.orders {
      assert OrderOk(s.orders[o]);
      if s.orders[o].fulfillment == Fulfillment.Delivery {
        DeliveryNeverAtTheCounter(s.orders[o], |s.orders[o].events| - 1);
      }
    }
  }

  lemma RequeuedExactlyWhen(s: State, o: int)
    ensures Requeue(s, o).Ok? <==> o in s.orders && s.orders[o].status == Failed
    ensures Requeue(s, o).Ok? ==> Becomes(s, Requeue(s, o).value, o, InPreparation)
    ensures Requeue(s, o).Ok? ==>
              forall l :: l in s.lines ==>
                && l in Requeue(s, o).value.lines
                && Requeue(s, o).value.lines[l] == if s.lines[l].order == o then s.lines[l].(returned := 0) else s.lines[l]
  {
  }

  /** An order is cancelled, for a reason, unless it is on the road or finished. */
  lemma CancelledExactlyWhen(s: State, o: int, reason: bool)
    ensures Cancel(s, o, reason).Ok? <==>
              && o in s.orders && reason
              && s.orders[o].status in {Draft, PendingApproval, Approved, ReadyForPickup, InPreparation, Failed}
    ensures Cancel(s, o, reason).Ok? ==> Becomes(s, Cancel(s, o, reason).value, o, Cancelled)
    ensures Cancel(s, o, reason).Ok? ==>
              forall l :: l in s.lines ==>
                && l in Cancel(s, o, reason).value.lines
                && Cancel(s, o, reason).value.lines[l] == if s.lines[l].order == o then s.lines[l].(committed := 0) else s.lines[l]
  {
  }

  /** An order is handed over exactly when it was set out and the proof is complete: every line of it whole. */
  lemma HandedOverExactlyWhen(s: State, setup: Setup, o: int, proof: bool)
    ensures ConfirmPickup(s, setup, o, proof).Ok? <==> o in s.orders && s.orders[o].status == ReadyForPickup && proof
    ensures ConfirmPickup(s, setup, o, proof).Ok? ==> Becomes(s, ConfirmPickup(s, setup, o, proof).value, o, PickedUp)
    ensures ConfirmPickup(s, setup, o, proof).Ok? ==> HandedWhole(s, ConfirmPickup(s, setup, o, proof).value, o)
  {
    HandsWhole(s, setup, o, proof);
  }

  lemma HandsWhole(s: State, setup: Setup, o: int, proof: bool)
    ensures ConfirmPickup(s, setup, o, proof).Ok? ==> HandedWhole(s, ConfirmPickup(s, setup, o, proof).value, o)
  {
    if ConfirmPickup(s, setup, o, proof).Ok? {
      assert ConfirmPickup(s, setup, o, proof).value.lines == Collected(s.lines, o);
    }
  }

  ghost predicate HandedWhole(s: State, t: State, o: int) {
    && t.lines.Keys == s.lines.Keys
    && forall l :: l in s.lines ==>
         t.lines[l] == if s.lines[l].order == o then s.lines[l].(delivered := s.lines[l].quantity, committed := 0) else s.lines[l]
  }

  // ----- planning a trip

  /** A stop is planned for an order exactly while it is in preparation, on a trip that is open. */
  lemma PlannedExactlyWhen(s: State, setup: Setup, trip: int, o: int)
    requires Inv(s, setup)
    ensures AddStop(s, trip, o).Ok? <==>
              trip in s.trips && s.trips[trip] == TripOpen && o in s.orders && s.orders[o].status == InPreparation
    ensures AddStop(s, trip, o).Ok? ==> AddStop(s, trip, o).value == s.(stops := s.stops[NextId(s.stops) := Stop(trip, StopPending)])
  {
    if o in s.orders {
      assert OrderOk(s.orders[o]);
      if s.orders[o].fulfillment == Pickup {
        PickupNeverTravels(s.orders[o], |s.orders[o].events| - 1);
      }
    }
  }

  /** What is still to be claimed of a line. */
  function LeftOn(line: Line): int {
    line.quantity - line.delivered - line.returned - line.committed
  }

  /** A line is loaded exactly onto a stop of an open trip, for more than nothing and no more than is open on it: all
      of it, or the part named. */
  lemma LoadedExactlyWhen(s: State, trip: int, stop: int, l: int, amount: Option<int>)
    ensures CommitLine(s, trip, stop, l, amount).Ok? <==>
              && stop in s.stops && s.stops[stop].trip == trip && trip in s.trips && s.trips[trip] == TripOpen && l in s.lines
              && LeftOn(s.lines[l]) > 0
              && (amount.Some? ==> 0 < amount.value <= LeftOn(s.lines[l]))
    ensures CommitLine(s, trip, stop, l, amount).Ok? ==>
              var claim := match amount case Some(part) => part case None => LeftOn(s.lines[l]);
              CommitLine(s, trip, stop, l, amount).value
              == s.(entries := s.entries[NextId(s.entries) := Entry(stop, l, claim, 0, 0, 0)],
                    lines := s.lines[l := s.lines[l].(committed := s.lines[l].committed + claim)])
  {
  }

  /** A claim is changed exactly while the trip named is open, up to what is open on the line besides it. */
  lemma AdjustedExactlyWhen(s: State, setup: Setup, trip: int, e: int, quantity: int)
    requires Inv(s, setup)
    ensures AdjustCommitment(s, trip, e, quantity).Ok? <==>
              && trip in s.trips && s.trips[trip] == TripOpen && e in s.entries
              && quantity - s.entries[e].committed <= LeftOn(s.lines[s.entries[e].line])
    ensures AdjustCommitment(s, trip, e, quantity).Ok? ==>
              var t, l := AdjustCommitment(s, trip, e, quantity).value, s.entries[e].line;
              && t == s.(entries := t.entries, lines := t.lines)
              && t.entries == s.entries[e := s.entries[e].(committed := quantity)]
              && t.lines == s.lines[l := s.lines[l].(committed := s.lines[l].committed + quantity - s.entries[e].committed)]
  {
    if e in s.entries {
      assert EntryOk(s, setup, e);
    }
  }

  predicate OpenTrip(s: State, trip: int) {
    trip in s.trips && s.trips[trip] == TripOpen
  }

  /** A claim is given back exactly while the trip named is open, whichever trip it is of. */
  lemma UnloadedExactlyWhen(s: State, trip: int, e: int)
    ensures ReleaseCommitment(s, trip, e).Ok? <==> OpenTrip(s, trip) && e in s.entries
    ensures ReleaseCommitment(s, trip, e).Ok? ==>
              var t := ReleaseCommitment(s, trip, e).value;
              && t == s.(entries := s.entries - {e}, lines := t.lines) && t.lines.Keys == s.lines.Keys
              && forall l :: l in s.lines ==>
                   t.lines[l] == if s.entries[e].line == l
                                 then s.lines[l].(committed := s.lines[l].committed - s.entries[e].committed) else s.lines[l]
  {
    if ReleaseCommitment(s, trip, e).Ok? {
      forall l | l in s.lines ensures OnLine(s.entries, {e}, l, Claim) == if s.entries[e].line == l then s.entries[e].committed else 0 {
        OneClaim(s, e, l);
      }
    }
  }

  lemma OneClaim(s: State, e: int, l: int)
    requires e in s.entries
    ensures OnLine(s.entries, {e}, l, Claim) == if s.entries[e].line == l then s.entries[e].committed else 0
  {
    OnLineWithout(s.entries, {e}, e, l, Claim);
    OnLineEmpty(s.entries, {e} - {e}, l, Claim);
  }

  /** A stop of an open trip, or the trip, is dropped with all its entries. */
  lemma DroppedStopExactlyWhen(s: State, trip: int, stop: int)
    ensures RemoveStop(s, trip, stop).Ok? <==> OpenTrip(s, trip) && stop in s.stops && s.stops[stop].trip == trip
    ensures RemoveStop(s, trip, stop).Ok? ==>
              var t := RemoveStop(s, trip, stop).value;
              && t.stops == s.stops - {stop} && t.trips == s.trips && t.orders == s.orders && t.ledger == s.ledger
              && t.entries == map e | e in s.entries && s.entries[e].stop != stop :: s.entries[e]
  {
  }

  lemma DroppedTripExactlyWhen(s: State, trip: int)
    ensures CancelTrip(s, trip).Ok? <==> OpenTrip(s, trip)
    ensures CancelTrip(s, trip).Ok? ==>
              var t := CancelTrip(s, trip).value;
              && t.trips == s.trips[trip := TripCancelled] && t.orders == s.orders && t.ledger == s.ledger
              && t.stops == (map p | p in s.stops && s.stops[p].trip != trip :: s.stops[p])
              && t.entries == (map e | e in s.entries && !OfTrip(s, trip, e) :: s.entries[e])
  {
  }

  // ----- departure

  /** A line has no more committed than is still to be delivered of it. */
  predicate WithinOrdered(line: Line) {
    line.committed <= line.quantity - line.delivered
  }

  predicate OfTrip(s: State, trip: int, e: int) {
    e in s.entries && s.entries[e].stop in s.stops && s.stops[s.entries[e].stop].trip == trip
  }

  /** An open trip leaves exactly with something loaded, nothing of it over what is still to be delivered, all of it
      from warehouses with a transit location and of orders in preparation. */
  lemma LeavesExactlyWhen(s: State, setup: Setup, trip: int)
    requires Inv(s, setup)
    ensures Depart(s, setup, trip).Ok? <==>
              && trip in s.trips && s.trips[trip] == TripOpen
              && (exists e :: OfTrip(s, trip, e))
              && (forall e :: OfTrip(s, trip, e) ==>
                    && WithinOrdered(s.lines[s.entries[e].line])
                    && s.lines[s.entries[e].line].warehouse in setup.transit
                    && s.orders[s.lines[s.entries[e].line].order].status == InPreparation)
  {
    assert Depart(s, setup, trip).Ok? <==> DepartRefusal(s, setup, trip).None?;
    var some := Departing(s, trip);
    forall e ensures e in some <==> OfTrip(s, trip, e) {
      DepartingIs(s, setup, trip, e);
    }
    LoadsExactlyWhen(s, setup, trip, some);
    MovesExactlyWhen(s, setup, some);
  }

  lemma DepartingIs(s: State, setup: Setup, trip: int, e: int)
    requires TablesOk(s, setup)
    ensures e in Departing(s, trip) <==> OfTrip(s, trip, e)
  {
    if OfTrip(s, trip, e) {
      assert EntryOk(s, setup, e);
      assert e in EntriesOfTrip(s, trip);
    }
  }

  lemma LoadsExactlyWhen(s: State, setup: Setup, trip: int, some: set<int>)
    requires TablesOk(s, setup) && OnKnownLines(s, some)
    ensures LoadRefusal(s, setup, trip, some).None? <==>
              && trip in s.trips && s.trips[trip] == TripOpen
              && (exists e :: e in some)
              && (forall e :: e in some ==>
                    WithinOrdered(s.lines[s.entries[e].line]) && s.lines[s.entries[e].line].warehouse in setup.transit)
  {
    forall e | e in some ensures s.entries[e].committed > 0 {
      assert EntryOk(s, setup, e);
    }
    assert Overloaded(s, some) <==> exists e :: e in some && !WithinOrdered(s.lines[s.entries[e].line]);
  }

  lemma MovesExactlyWhen(s: State, setup: Setup, some: set<int>)
    requires TablesOk(s, setup) && OnKnownLines(s, some)
    ensures AllMovable(s.orders, OrdersOf(s, some), InTransit) <==>
              forall e :: e in some ==>
                s.lines[s.entries[e].line].order in s.orders
                && s.orders[s.lines[s.entries[e].line].order].status == InPreparation
  {
    forall o | o in s.orders ensures Transition(s.orders[o], InTransit, false).Ok? <==> s.orders[o].status == InPreparation {
    }
    forall e | e in some ensures s.lines[s.entries[e].line].order in OrdersOf(s, some) && s.lines[s.entries[e].line].order in s.orders {
      assert EntryOk(s, setup, e);
    }
  }

  ghost predicate LeftWith(s: State, t: State, trip: int) {
    && t.lines == s.lines && t.stops == s.stops && t.trips == s.trips[trip := TripDeparted] && t.entries.Keys == s.entries.Keys
    && (forall e :: e in s.entries ==>
          t.entries[e] == if OfTrip(s, trip, e) then s.entries[e].(sent := s.entries[e].committed) else s.entries[e])
    && OrdersLeft(s, t, trip)
  }

  ghost predicate OrdersLeft(s: State, t: State, trip: int) {
    && t.orders.Keys == s.orders.Keys
    && forall o :: o in s.orders ==>
         if OnTrip(s, trip, o) then t.orders[o].status == InTransit else t.orders[o] == s.orders[o]
  }

  /** A trip that leaves takes what was claimed on it, and puts its orders, and no others, on the road. */
  lemma LeavingIs(s: State, setup: Setup, trip: int)
    requires Inv(s, setup) && Depart(s, setup, trip).Ok?
    ensures LeftWith(s, Depart(s, setup, trip).value, trip)
  {
    var t, some := Depart(s, setup, trip).value, Departing(s, trip);
    DepartParts(s, t, setup, trip, some);
    forall e ensures e in some <==> OfTrip(s, trip, e) {
      DepartingIs(s, setup, trip, e);
    }
    Leaves(s, t, setup, trip, some);
  }

  lemma Leaves(s: State, t: State, setup: Setup, trip: int, some: set<int>)
    requires TablesOk(s, setup) && OnKnownLines(s, some) && forall e :: e in some <==> OfTrip(s, trip, e)
    requires AllMovable(s.orders, OrdersOf(s, some), InTransit) && t.orders == DepartedOrders(s.orders, OrdersOf(s, some))
    requires t.lines == s.lines && t.stops == s.stops && t.trips == s.trips[trip := TripDeparted]
    requires t.entries == SentEntries(s, some)
    ensures LeftWith(s, t, trip)
  {
    LeftOrders(s, t, setup, trip, some);
  }

  lemma LeftOrders(s: State, t: State, setup: Setup, trip: int, some: set<int>)
    requires TablesOk(s, setup) && OnKnownLines(s, some) && forall e :: e in some <==> OfTrip(s, trip, e)
    requires AllMovable(s.orders, OrdersOf(s, some), InTransit) && t.orders == DepartedOrders(s.orders, OrdersOf(s, some))
    ensures OrdersLeft(s, t, trip)
  {
    forall o ensures o in OrdersOf(s, some) <==> OnTrip(s, trip, o) {
      OnTripIs(s, setup, trip, some, o);
    }
    DepartOrders(s, t, setup, OrdersOf(s, some));
  }

  predicate OnTrip(s: State, trip: int, o: int) {
    exists e :: e in s.entries && OfTrip(s, trip, e) && s.entries[e].line in s.lines && s.lines[s.entries[e].line].order == o
  }

  lemma OnTripIs(s: State, setup: Setup, trip: int, some: set<int>, o: int)
    requires TablesOk(s, setup) && OnKnownLines(s, some) && forall e :: e in some <==> OfTrip(s, trip, e)
    ensures o in OrdersOf(s, some) <==> OnTrip(s, trip, o)
  {
  }

  // ----- closing

  /** A pending stop of a trip on the road is closed exactly with an acceptance for each of its entries and no other,
      none above what was sent, every difference explained, the proof complete, and its orders on the road. */
  lemma ClosedExactlyWhen(s: State, setup: Setup, trip: int, stop: int, accepted: map<int, Acceptance>, proof: bool)
    requires Inv(s, setup)
    ensures CloseStop(s, setup, trip, stop, accepted, proof).Ok? <==>
              && stop in s.stops && s.stops[stop].trip == trip && s.stops[stop].outcome == StopPending
              && trip in s.trips && s.trips[trip] == TripDeparted && proof
              && (forall e :: e in accepted <==> e in s.entries && s.entries[e].stop == stop)
              && (forall e :: e in accepted ==>
                    && accepted[e].delivered <= s.entries[e].sent
                    && (accepted[e].delivered < s.entries[e].sent ==> accepted[e].reason)
                    && s.orders[s.lines[s.entries[e].line].order].status == InTransit)
  {
    ClosesUpTo(s, setup, trip, stop, accepted, proof);
    RefusedClose(s, setup, trip, stop, accepted, proof);
    if CloseRefusal(s, setup, trip, stop, accepted, proof) == None {
      UnsettledRefuses(s, setup, trip, stop, accepted, proof);
      SettlesExactlyWhen(s, setup, accepted);
      if AllSettle(s, SettledEntries(s.entries, accepted), accepted.Keys) {
        SplitsAlways(s, setup, trip, stop, accepted, proof);
      }
    }
  }

  lemma RefusedClose(s: State, setup: Setup, trip: int, stop: int, accepted: map<int, Acceptance>, proof: bool)
    ensures CloseRefusal(s, setup, trip, stop, accepted, proof).Some? ==> CloseStop(s, setup, trip, stop, accepted, proof).Refused?
  {
    RefusalRefuses(s, setup, trip, stop, accepted, proof);
  }

  /** The conditions that do not look at the orders. */
  lemma ClosesUpTo(s: State, setup: Setup, trip: int, stop: int, accepted: map<int, Acceptance>, proof: bool)
    requires TablesOk(s, setup)
    ensures CloseRefusal(s, setup, trip, stop, accepted, proof) == None <==>
              && stop in s.stops && s.stops[stop].trip == trip && s.stops[stop].outcome == StopPending
              && trip in s.trips && s.trips[trip] == TripDeparted && proof
              && (forall e :: e in accepted <==> e in s.entries && s.entries[e].stop == stop)
              && (forall e :: e in accepted ==>
                    && accepted[e].delivered <= s.entries[e].sent
                    && (accepted[e].delivered < s.entries[e].sent ==> accepted[e].reason))
  {
    SameEntries(s, stop, accepted);
    if accepted.Keys == EntriesOf(s, stop) {
      DepartedEntries(s, setup, trip, stop, accepted.Keys);
    }
  }

  lemma SameEntries(s: State, stop: int, accepted: map<int, Acceptance>)
    ensures accepted.Keys == EntriesOf(s, stop) <==> forall e :: e in accepted <==> e in s.entries && s.entries[e].stop == stop
  {
    if forall e :: e in accepted <==> e in s.entries && s.entries[e].stop == stop {
      forall e ensures e in accepted.Keys <==> e in EntriesOf(s, stop) {
      }
    }
  }

  /** What a trip that left carries is of known lines, from warehouses with a transit location. */
  lemma DepartedEntries(s: State, setup: Setup, trip: int, stop: int, some: set<int>)
    requires TablesOk(s, setup) && some == EntriesOf(s, stop)
    ensures OnKnownLines(s, some)
    ensures stop in s.stops && s.stops[stop].trip == trip && trip in s.trips && s.trips[trip] == TripDeparted ==> TransitKnown(s, setup, some)
  {
    forall e | e in some ensures EntryOk(s, setup, e) {
    }
  }

  lemma SettlesExactlyWhen(s: State, setup: Setup, accepted: map<int, Acceptance>)
    requires TablesOk(s, setup) && OnKnownLines(s, accepted.Keys)
    ensures AllSettle(s, SettledEntries(s.entries, accepted), accepted.Keys) <==>
              forall e :: e in accepted ==> s.orders[s.lines[s.entries[e].line].order].status == InTransit
  {
    SettlesByOrder(s, SettledEntries(s.entries, accepted), accepted.Keys);
    ByOrderIsByEntry(s, setup, accepted.Keys);
  }

  lemma SettlesByOrder(s: State, entries: map<int, Entry>, some: set<int>)
    requires OnKnownLines(s, some)
    ensures AllSettle(s, entries, some) <==> forall o :: o in OrdersOf(s, some) ==> o in s.orders && s.orders[o].status == InTransit
  {
    forall o | o in s.orders
      ensures Transition(s.orders[o], Target(s, entries, some, o), true).Ok? <==> s.orders[o].status == InTransit
    {
      ComesOutFromTheRoad(s.orders[o], Target(s, entries, some, o));
    }
  }

  lemma ByOrderIsByEntry(s: State, setup: Setup, some: set<int>)
    requires TablesOk(s, setup) && OnKnownLines(s, some)
    ensures (forall o :: o in OrdersOf(s, some) ==> o in s.orders && s.orders[o].status == InTransit) <==>
              forall e :: e in some ==> s.orders[s.lines[s.entries[e].line].order].status == InTransit
  {
    forall e | e in some ensures s.lines[s.entries[e].line].order in s.orders && s.lines[s.entries[e].line].order in OrdersOf(s, some) {
      assert EntryOk(s, setup, e);
    }
  }

  lemma ComesOutFromTheRoad(order: Order, to: Status)
    requires to in {Delivered, Failed, PartiallyDelivered}
    ensures Transition(order, to, true).Ok? <==> order.status == InTransit
  {
  }

  /** A partly delivered order is a delivery, and so can be split. */
  lemma SplitsAlways(s: State, setup: Setup, trip: int, stop: int, accepted: map<int, Acceptance>, proof: bool)
    requires TablesOk(s, setup) && CloseRefusal(s, setup, trip, stop, accepted, proof) == None
    requires OnKnownLines(s, accepted.Keys) && AllSettle(s, SettledEntries(s.entries, accepted), accepted.Keys)
    ensures CloseStop(s, setup, trip, stop, accepted, proof).Ok?
  {
    RemainderKnown(s, accepted);
    var some := OrdersOf(s, Carried(s, accepted));
    var orders := SettledOrders(s, SettledEntries(s.entries, accepted), accepted.Keys);
    forall o | o in some ensures o in orders && orders[o].fulfillment == Fulfillment.Delivery {
      assert o in OrdersOf(s, accepted.Keys);
      OnTheRoadIsDelivery(s.orders[o], Target(s, SettledEntries(s.entries, accepted), accepted.Keys, o));
    }
    DeliveriesSplit(orders, some);
    SplitsWhen(s, setup, trip, stop, accepted, proof);
  }

  lemma OnTheRoadIsDelivery(order: Order, to: Status)
    requires OrderOk(order) && to in {Delivered, Failed, PartiallyDelivered} && Transition(order, to, true).Ok?
    ensures Transition(order, to, true).value.fulfillment == Fulfillment.Delivery
  {
    if order.fulfillment == Pickup {
      PickupNeverTravels(order, |order.events| - 1);
    }
  }

  lemma DeliveriesSplit(orders: map<int, Order>, some: set<int>)
    requires forall o :: o in some ==> o in orders && orders[o].fulfillment == Fulfillment.Delivery
    ensures CanSplit(orders, some)
  {
  }

  lemma SplitsWhen(s: State, setup: Setup, trip: int, stop: int, accepted: map<int, Acceptance>, proof: bool)
    requires TablesOk(s, setup) && CloseRefusal(s, setup, trip, stop, accepted, proof) == None
    requires OnKnownLines(s, accepted.Keys) && AllSettle(s, SettledEntries(s.entries, accepted), accepted.Keys)
    requires OnKnownLines(s, Carried(s, accepted))
    requires CanSplit(SettledOrders(s, SettledEntries(s.entries, accepted), accepted.Keys), OrdersOf(s, Carried(s, accepted)))
    ensures CloseStop(s, setup, trip, stop, accepted, proof).Ok?
  {
  }
}
