/** Where orders and their lines come from: every line is of the product, the warehouse and the customer of the
    sale it delivers, and every child is its parent's, whatever is called. */
module DeliveryOrigins {
  import opened Outcomes
  import opened Tables
  import opened DeliveryEvents
  import opened Delivery
  import opened DeliveryKeeps
  import opened DeliveryCalls
  import opened DeliveryHistories

  /** The line delivers a sales line, to the customer it was sold to: that product, out of that line's warehouse
      or, where it names none, its order's facility's fallback. */
  ghost predicate FromSale(setup: Setup, orders: map<int, Order>, line: Line) {
    && line.order in orders && line.salesLine.Some? && line.salesLine.value in setup.salesLines
    && var x, order := setup.salesLines[line.salesLine.value], orders[line.order];
       && line.product == x.product
       && x.sale in setup.sales && setup.sales[x.sale].customer == order.customer
       && match x.warehouse
          case Some(w) => line.warehouse == w
          case None => order.facility in setup.fallback && line.warehouse == setup.fallback[order.facility]
  }

  ghost predicate AllFromSale(setup: Setup, orders: map<int, Order>, lines: map<int, Line>) {
    forall l :: l in lines ==> FromSale(setup, orders, lines[l])
  }

  /** The child of a partly delivered order, for the same customer, from the same facility, of the same kind. */
  predicate OfParent(orders: map<int, Order>, order: Order) {
    order.parent.Some? ==>
      && order.parent.value in orders
      && var parent := orders[order.parent.value];
         && parent.status == PartiallyDelivered && parent.customer == order.customer
         && parent.facility == order.facility && parent.fulfillment == order.fulfillment
  }

  ghost predicate AllOfParents(orders: map<int, Order>) {
    forall o :: o in orders ==> OfParent(orders, orders[o])
  }

  ghost predicate Origins(s: State, setup: Setup) {
    AllFromSale(setup, s.orders, s.lines) && AllOfParents(s.orders)
  }

  // ----- calls that add no line and no order

  predicate SameOrigin(a: Order, b: Order) {
    && b.customer == a.customer && b.facility == a.facility && b.fulfillment == a.fulfillment && b.parent == a.parent
    && (a.status == PartiallyDelivered ==> b.status == PartiallyDelivered)
  }

  ghost predicate OrdersFollow(before: map<int, Order>, after: map<int, Order>) {
    after.Keys == before.Keys && forall o :: o in before ==> SameOrigin(before[o], after[o])
  }

  predicate SameThing(a: Line, b: Line) {
    b.order == a.order && b.salesLine == a.salesLine && b.product == a.product && b.warehouse == a.warehouse
  }

  ghost predicate LinesFollow(before: map<int, Line>, after: map<int, Line>) {
    forall l :: l in after ==> l in before && SameThing(before[l], after[l])
  }

  lemma FollowersKeep(s: State, t: State, setup: Setup)
    requires Origins(s, setup) && OrdersFollow(s.orders, t.orders) && LinesFollow(s.lines, t.lines)
    ensures Origins(t, setup)
  {
    forall l | l in t.lines ensures FromSale(setup, t.orders, t.lines[l]) {
      assert FromSale(setup, s.orders, s.lines[l]);
    }
    forall o | o in t.orders ensures OfParent(t.orders, t.orders[o]) {
      assert SameOrigin(s.orders[o], t.orders[o]) && OfParent(s.orders, s.orders[o]);
      if t.orders[o].parent.Some? {
        var p := t.orders[o].parent.value;
        assert SameOrigin(s.orders[p], t.orders[p]);
      }
    }
  }

  lemma OrderCallFollows(s: State, setup: Setup, call: Call)
    requires Answer(s, setup, call).Ok? && !OfTrips(call) && !call.Raise? && !call.Add?
    ensures OrdersFollow(s.orders, After(s, setup, call).orders) && LinesFollow(s.lines, After(s, setup, call).lines)
  {
    OrderCallFollowsOrders(s, setup, call);
  }

  lemma OrderCallFollowsOrders(s: State, setup: Setup, call: Call)
    requires Answer(s, setup, call).Ok? && !OfTrips(call) && !call.Raise? && !call.Add?
    ensures OrdersFollow(s.orders, After(s, setup, call).orders)
  {
    if call.ConfirmOrder? {
      ConfirmingFollows(s, setup, call.order, call.short);
    } else if call.Edit? || call.Drop? {
      assert After(s, setup, call).orders == s.orders;
    } else {
      MovingFollows(s, setup, call);
    }
  }

  lemma MovedFollows(s: State, o: int, to: Status, reason: bool)
    requires o in s.orders && Moved(s, o, to, reason).Ok?
    ensures OrdersFollow(s.orders, Moved(s, o, to, reason).value.orders)
  {
  }

  lemma MovingFollows(s: State, setup: Setup, call: Call)
    requires Answer(s, setup, call).Ok?
    requires call.ApproveOrder? || call.RejectOrder? || call.ReadyOrder? || call.RequeueOrder? || call.CancelOrder? || call.HandOver?
    ensures OrdersFollow(s.orders, After(s, setup, call).orders)
  {
    var o := call.order;
    if call.ApproveOrder? {
      MovedFollows(s, o, BranchTarget(s.orders[o]), false);
    } else if call.RejectOrder? {
      MovedFollows(s, o, Draft, call.reason);
    } else if call.ReadyOrder? {
      MovedFollows(s, o, ReadyForPickup, false);
    } else if call.RequeueOrder? {
      MovedFollows(s.(lines := Reopened(s.lines, o)), o, InPreparation, false);
    } else if call.CancelOrder? {
      MovedFollows(s.(lines := Unclaimed(s.lines, o)), o, Cancelled, call.reason);
    } else {
      MovedFollows(s.(lines := Collected(s.lines, o), ledger := s.ledger + PickupMoves(s, setup, o, Ascending(LinesOf(s, o)))),
                   o, PickedUp, false);
    }
  }

  lemma ConfirmingFollows(s: State, setup: Setup, o: int, short: bool)
    requires Confirm(s, setup, o, short).Ok?
    ensures OrdersFollow(s.orders, Confirm(s, setup, o, short).value.orders)
  {
  }

  lemma LeavingFollows(s: State, setup: Setup, trip: int)
    requires Depart(s, setup, trip).Ok?
    ensures OrdersFollow(s.orders, Depart(s, setup, trip).value.orders) && Depart(s, setup, trip).value.lines == s.lines
  {
    assert Depart(s, setup, trip).value.orders == DepartedOrders(s.orders, OrdersOf(s, Departing(s, trip)));
  }

  lemma PlanningFollows(s: State, setup: Setup, call: Call)
    requires Answer(s, setup, call).Ok? && OfTrips(call) && !call.Leave? && !call.Resolve?
    ensures OrdersFollow(s.orders, After(s, setup, call).orders) && LinesFollow(s.lines, After(s, setup, call).lines)
  {
    PlanningKeepsOrders(s, setup, call);
    PlanningKeepsLines(s, setup, call);
  }

  lemma PlanningKeepsLines(s: State, setup: Setup, call: Call)
    requires Answer(s, setup, call).Ok? && OfTrips(call) && !call.Leave? && !call.Resolve?
    ensures LinesFollow(s.lines, After(s, setup, call).lines)
  {
  }

  // ----- raising and adding

  lemma NewLineFromSale(setup: Setup, orders: map<int, Order>, o: int, facility: int, r: Request)
    requires r.salesLine in setup.salesLines && facility in setup.fallback && o in orders && orders[o].facility == facility
    requires setup.salesLines[r.salesLine].sale in setup.sales
    requires orders[o].customer == setup.sales[setup.salesLines[r.salesLine].sale].customer
    ensures FromSale(setup, orders, NewLine(setup, o, facility, r))
  {
  }

  lemma {:induction false} AddLinesFromSale(s: State, setup: Setup, o: int, facility: int, chosen: seq<Request>)
    requires KnownLines(setup, chosen) && facility in setup.fallback && AllFromSale(setup, s.orders, s.lines)
    requires o in s.orders && s.orders[o].facility == facility
    requires forall r :: r in chosen ==>
               && setup.salesLines[r.salesLine].sale in setup.sales
               && s.orders[o].customer == setup.sales[setup.salesLines[r.salesLine].sale].customer
    ensures var t := AddLines(s, setup, o, facility, chosen); t.orders == s.orders && AllFromSale(setup, s.orders, t.lines)
  {
    if chosen != [] {
      var rest, last := chosen[..|chosen| - 1], chosen[|chosen| - 1];
      assert last in chosen;
      AddLinesFromSale(s, setup, o, facility, rest);
      NewLineFromSale(setup, s.orders, o, facility, last);
    }
  }

  lemma ChosenOfSale(s: State, setup: Setup, sale: int, requested: Option<seq<Request>>, chosen: seq<Request>)
    requires Chosen(Deliverable(s, setup, sale), requested) == Ok(chosen)
    ensures forall r :: r in chosen ==> r.salesLine in setup.salesLines && setup.salesLines[r.salesLine].sale == sale
  {
    ChosenWithin(Deliverable(s, setup, sale), requested);
  }

  lemma RaisedOrders(s: State, setup: Setup, id: int, order: Order)
    requires Origins(s, setup) && id !in s.orders && order.parent == None
    ensures var orders := s.orders[id := order]; AllFromSale(setup, orders, s.lines) && AllOfParents(orders)
  {
    var orders := s.orders[id := order];
    forall l | l in s.lines ensures FromSale(setup, orders, s.lines[l]) {
      assert FromSale(setup, s.orders, s.lines[l]);
    }
    forall o | o in orders ensures OfParent(orders, orders[o]) {
      assert o != id ==> OfParent(s.orders, s.orders[o]);
    }
  }

  lemma RaisingKeeps(s: State, setup: Setup, sale: int, fulfillment: Fulfillment, requested: Option<seq<Request>>)
    requires Origins(s, setup) && Create(s, setup, sale, fulfillment, requested).Ok?
    ensures Origins(Create(s, setup, sale, fulfillment, requested).value, setup)
  {
    var t := Create(s, setup, sale, fulfillment, requested).value;
    var facility, order, chosen := CreateParts(s, t, setup, sale, fulfillment, requested);
    var id := NextId(s.orders);
    ChosenOfSale(s, setup, sale, requested, chosen);
    RaisedOrders(s, setup, id, order);
    AddLinesFromSale(s.(orders := s.orders[id := order]), setup, id, facility, chosen);
  }

  lemma AddingKeeps(s: State, setup: Setup, o: int, r: Request)
    requires Origins(s, setup) && AddLine(s, setup, o, r).Ok?
    ensures Origins(AddLine(s, setup, o, r).value, setup)
  {
    var t := AddLine(s, setup, o, r).value;
    forall l | l in t.lines ensures FromSale(setup, t.orders, t.lines[l]) {
      if l != NextId(s.lines) {
        assert FromSale(setup, s.orders, s.lines[l]);
      }
    }
  }

  // ----- children

  /** Each parent's child is for its customer, from its facility, of its kind, and names it. */
  ghost predicate ChildOfEach(orders: map<int, Order>, after: map<int, Order>, ids: map<int, int>) {
    forall o :: o in ids ==>
      && o in orders && ids[o] in after
      && IsChild(o, orders[o], after[ids[o]])
  }

  predicate IsChild(id: int, parent: Order, child: Order) {
    && child.parent == Some(id) && child.customer == parent.customer && child.facility == parent.facility
    && child.fulfillment == parent.fulfillment
  }

  lemma {:induction false} AddedChildren(orders: map<int, Order>, first: int, parents: seq<int>, children: map<int, Order>)
    requires forall o :: o in orders ==> o < first
    requires forall o :: o in parents ==> o in children && o in orders && IsChild(o, orders[o], children[o])
    ensures var after, ids := AddChildren(orders, first, parents, children), ChildIds(first, parents);
            && (forall o :: o in orders ==> o in after && after[o] == orders[o])
            && (forall o :: o in ids ==> o in parents && first <= ids[o] < first + |parents|)
            && (forall k :: k in after && k !in orders ==> exists o :: o in parents && IsChild(o, orders[o], after[k]))
            && ChildOfEach(orders, after, ids)
  {
    if parents != [] {
      var rest, last := parents[..|parents| - 1], parents[|parents| - 1];
      assert parents == rest + [last];
      assert last in parents;
      AddedChildren(orders, first, rest, children);
      var earlier := AddChildren(orders, first, rest, children);
      assert IsChild(last, orders[last], Folioed(earlier, children[last]));
      forall k | k in earlier && k !in orders ensures exists o :: o in parents && IsChild(o, orders[o], earlier[k]) {
        var o :| o in rest && IsChild(o, orders[o], earlier[k]);
        assert o in parents;
      }
    }
  }

  lemma {:induction false} RemaindersFromSale(s: State, setup: Setup, orders: map<int, Order>, children: map<int, int>, carried: seq<int>)
    requires Carriable(s, children, carried) && AllFromSale(setup, orders, s.lines) && ChildOfEach(orders, orders, children)
    ensures AllFromSale(setup, orders, AddRemainders(s, children, carried))
  {
    if carried != [] {
      var rest, last := carried[..|carried| - 1], carried[|carried| - 1];
      assert last in carried;
      RemaindersFromSale(s, setup, orders, children, rest);
      assert FromSale(setup, orders, s.lines[s.entries[last].line]);
      assert FromSale(setup, orders, ChildLine(s, children, last));
    }
  }

  lemma ChildIs(id: int, parent: Order)
    requires ChildOf(id, parent).Ok?
    ensures IsChild(id, parent, ChildOf(id, parent).value)
  {
  }

  lemma MoreOrders(m: State, setup: Setup, orders: map<int, Order>, ids: map<int, int>)
    requires Origins(m, setup) && (forall o :: o in m.orders ==> o in orders && orders[o] == m.orders[o])
    requires ChildOfEach(m.orders, orders, ids)
    ensures AllFromSale(setup, orders, m.lines) && ChildOfEach(orders, orders, ids)
  {
    forall l | l in m.lines ensures FromSale(setup, orders, m.lines[l]) {
      assert FromSale(setup, m.orders, m.lines[l]);
    }
  }

  lemma ChildrenOfParents(m: State, parents: set<int>, orders: map<int, Order>)
    requires AllOfParents(m.orders) && (forall o :: o in m.orders ==> o in orders && orders[o] == m.orders[o])
    requires forall o :: o in parents ==> o in m.orders && m.orders[o].status == PartiallyDelivered
    requires forall k :: k in orders && k !in m.orders ==> exists o :: o in parents && IsChild(o, m.orders[o], orders[k])
    ensures AllOfParents(orders)
  {
    forall k | k in orders ensures OfParent(orders, orders[k]) {
      if k in m.orders {
        assert OfParent(m.orders, m.orders[k]);
        if orders[k].parent.Some? {
          var p := orders[k].parent.value;
          assert orders[p] == m.orders[p];
        }
      } else {
        var o :| o in parents && IsChild(o, m.orders[o], orders[k]);
        assert orders[o] == m.orders[o];
      }
    }
  }

  lemma SplittingKeeps(m: State, setup: Setup, parents: set<int>, carried: set<int>)
    requires Origins(m, setup) && parents <= m.orders.Keys && forall o :: o in parents ==> m.orders[o].status == PartiallyDelivered
    requires forall e :: e in carried ==> e in m.entries && m.entries[e].line in m.lines && m.lines[m.entries[e].line].order in parents
    requires Split(m, parents, carried).Ok?
    ensures Origins(Split(m, parents, carried).value, setup)
  {
    var t, first, list := Split(m, parents, carried).value, NextId(m.orders), Ascending(parents);
    var ids, children := ChildIds(first, list), ChildrenOf(m.orders, parents);
    forall o | o in list ensures IsChild(o, m.orders[o], children[o]) {
      ChildIs(o, m.orders[o]);
    }
    AddedChildren(m.orders, first, list, children);
    ChildIdsOf(first, list);
    ChildrenOfParents(m, parents, t.orders);
    MoreOrders(m, setup, t.orders, ids);
    RemaindersFromSale(m, setup, t.orders, ids, Ascending(carried));
  }

  // ----- closing

  lemma SettlingFollows(s: State, setup: Setup, trip: int, stop: int, accepted: map<int, Acceptance>)
    requires OnKnownLines(s, accepted.Keys) && stop in s.stops && trip in s.trips
    requires AllSettle(s, SettledEntries(s.entries, accepted), accepted.Keys)
    ensures var m := Settled(s, setup, trip, stop, accepted);
            && OrdersFollow(s.orders, m.orders) && LinesFollow(s.lines, m.lines)
            && forall o :: o in Partial(s, m.entries, accepted.Keys) ==> o in m.orders && m.orders[o].status == PartiallyDelivered
  {
    OrdersSettling(s, SettledEntries(s.entries, accepted), accepted.Keys);
  }

  lemma OrdersSettling(s: State, entries: map<int, Entry>, some: set<int>)
    requires OnKnownLines(s, some) && AllSettle(s, entries, some)
    ensures var orders := SettledOrders(s, entries, some);
            && OrdersFollow(s.orders, orders)
            && forall o :: o in Partial(s, entries, some) ==> o in orders && orders[o].status == PartiallyDelivered
  {
    var orders, seen := SettledOrders(s, entries, some), OrdersOf(s, some);
    forall o | o in s.orders
      ensures SameOrigin(s.orders[o], orders[o])
      ensures o in seen ==> orders[o].status == Target(s, entries, some, o)
    {
      if o in seen {
        assert Transition(s.orders[o], Target(s, entries, some, o), true).Ok?;
      }
    }
  }

  lemma CarriedArePartial(s: State, accepted: map<int, Acceptance>)
    requires OnKnownLines(s, accepted.Keys)
    ensures var entries := SettledEntries(s.entries, accepted);
            var carried := Remainder(s, entries, accepted.Keys);
            OnKnownLines(s, carried) && OrdersOf(s, carried) <= Partial(s, entries, accepted.Keys)
  {
  }

  lemma ClosingKeeps(s: State, setup: Setup, trip: int, stop: int, accepted: map<int, Acceptance>, proof: bool)
    requires Origins(s, setup) && CloseStop(s, setup, trip, stop, accepted, proof).Ok?
    ensures Origins(CloseStop(s, setup, trip, stop, accepted, proof).value, setup)
  {
    RefusalRefuses(s, setup, trip, stop, accepted, proof);
    UnsettledRefuses(s, setup, trip, stop, accepted, proof);
    var entries := SettledEntries(s.entries, accepted);
    var m, carried := Settled(s, setup, trip, stop, accepted), Remainder(s, entries, accepted.Keys);
    SettlingFollows(s, setup, trip, stop, accepted);
    FollowersKeep(s, m, setup);
    RemainderKnown(s, accepted);
    CarriedArePartial(s, accepted);
    SplittingKeeps(m, setup, OrdersOf(s, carried), carried);
  }

  // ----- every call

  lemma CallKeepsOrigins(s: State, setup: Setup, call: Call)
    requires Origins(s, setup)
    ensures Origins(After(s, setup, call), setup)
  {
    if Answer(s, setup, call).Ok? {
      if call.Raise? {
        RaisingKeeps(s, setup, call.sale, KindOf(setup, call.sale, call.given, call.shipTo), call.requested);
      } else if call.Add? {
        AddingKeeps(s, setup, call.order, call.request);
      } else if call.Resolve? {
        ClosingKeeps(s, setup, call.trip, call.stop, call.accepted, call.proof);
      } else if call.Leave? {
        LeavingFollows(s, setup, call.trip);
        FollowersKeep(s, After(s, setup, call), setup);
      } else if OfTrips(call) {
        PlanningFollows(s, setup, call);
        FollowersKeep(s, After(s, setup, call), setup);
      } else {
        OrderCallFollows(s, setup, call);
        FollowersKeep(s, After(s, setup, call), setup);
      }
    }
  }

  lemma {:induction false} RunKeepsOrigins(setup: Setup, calls: seq<Call>)
    ensures Origins(Run(EMPTY, setup, calls), setup)
  {
    if calls != [] {
      RunKeepsOrigins(setup, calls[..|calls| - 1]);
      CallKeepsOrigins(Run(EMPTY, setup, calls[..|calls| - 1]), setup, calls[|calls| - 1]);
    }
  }

  /** Over every run, a line of a sales line is of that line's product, leaves from its warehouse or, where it names
      none, from the order's facility's fallback, and goes to the customer it was sold to. */
  lemma LinesMatchTheirSale(setup: Setup, calls: seq<Call>, l: int)
    requires l in Run(EMPTY, setup, calls).lines
    ensures var s := Run(EMPTY, setup, calls);
            var line := s.lines[l];
            && line.order in s.orders && line.salesLine.Some? && line.salesLine.value in setup.salesLines
            && var x, order := setup.salesLines[line.salesLine.value], s.orders[line.order];
               && line.product == x.product
               && (x.warehouse.Some? ==> line.warehouse == x.warehouse.value)
               && (x.warehouse.None? ==> order.facility in setup.fallback && line.warehouse == setup.fallback[order.facility])
               && x.sale in setup.sales && order.customer == setup.sales[x.sale].customer
  {
    RunKeepsOrigins(setup, calls);
    assert FromSale(setup, Run(EMPTY, setup, calls).orders, Run(EMPTY, setup, calls).lines[l]);
  }

  /** Over every run, a child's parent is a partly delivered order of the same customer, facility and kind. */
  lemma ChildrenMatchTheirParent(setup: Setup, calls: seq<Call>, o: int)
    requires o in Run(EMPTY, setup, calls).orders && Run(EMPTY, setup, calls).orders[o].parent.Some?
    ensures var orders := Run(EMPTY, setup, calls).orders;
            && orders[o].parent.value in orders
            && var parent := orders[orders[o].parent.value];
               && parent.status == PartiallyDelivered && parent.customer == orders[o].customer
               && parent.facility == orders[o].facility && parent.fulfillment == orders[o].fulfillment
  {
    RunKeepsOrigins(setup, calls);
    assert OfParent(Run(EMPTY, setup, calls).orders, Run(EMPTY, setup, calls).orders[o]);
  }
}
