/** Every order's history is complete and no serial is given twice, whatever is called, and in whatever order. */
module DeliveryHistories {
  import opened Outcomes
  import opened Tables
  import opened DeliveryEvents
  import opened Delivery
  import opened DeliveryKeeps
  import opened DeliveryCalls

  ghost predicate AllRecorded(orders: map<int, Order>) {
    forall o :: o in orders ==> Recorded(orders[o])
  }

  lemma {:induction false} AddLinesKeepOrders(s: State, setup: Setup, o: int, facility: int, chosen: seq<Request>)
    requires KnownLines(setup, chosen) && facility in setup.fallback
    ensures AddLines(s, setup, o, facility, chosen).orders == s.orders
  {
    if chosen != [] {
      AddLinesKeepOrders(s, setup, o, facility, chosen[..|chosen| - 1]);
    }
  }

  lemma CreateRecords(s: State, setup: Setup, sale: int, fulfillment: Fulfillment, requested: Option<seq<Request>>)
    requires AllRecorded(s.orders) && Create(s, setup, sale, fulfillment, requested).Ok?
    ensures AllRecorded(Create(s, setup, sale, fulfillment, requested).value.orders)
  {
    var t := Create(s, setup, sale, fulfillment, requested).value;
    var facility, order, chosen := CreateParts(s, t, setup, sale, fulfillment, requested);
    AddLinesKeepOrders(s.(orders := s.orders[NextId(s.orders) := order]), setup, NextId(s.orders), facility, chosen);
  }

  lemma MovedRecords(s: State, o: int, to: Status, reason: bool)
    requires AllRecorded(s.orders) && o in s.orders && Moved(s, o, to, reason).Ok?
    ensures AllRecorded(Moved(s, o, to, reason).value.orders)
  {
    TransitionRecords(s.orders[o], to, reason);
  }

  lemma DepartRecords(s: State, setup: Setup, trip: int)
    requires AllRecorded(s.orders) && Depart(s, setup, trip).Ok?
    ensures AllRecorded(Depart(s, setup, trip).value.orders)
  {
    var moving := OrdersOf(s, Departing(s, trip));
    var after := Depart(s, setup, trip).value.orders;
    assert after == DepartedOrders(s.orders, moving);
    forall o | o in after ensures Recorded(after[o]) {
      if o in moving {
        TransitionRecords(s.orders[o], InTransit, false);
      }
    }
  }

  lemma SettledRecords(s: State, entries: map<int, Entry>, some: set<int>)
    requires AllRecorded(s.orders) && OnKnownLines(s, some) && AllSettle(s, entries, some)
    ensures AllRecorded(SettledOrders(s, entries, some))
  {
    var after := SettledOrders(s, entries, some);
    forall o | o in after ensures Recorded(after[o]) {
      if o in OrdersOf(s, some) {
        TransitionRecords(s.orders[o], Target(s, entries, some, o), true);
      }
    }
  }

  lemma {:induction false} ChildrenRecord(orders: map<int, Order>, first: int, parents: seq<int>, children: map<int, Order>)
    requires forall o :: o in parents ==> o in children
    requires AllRecorded(orders) && AllRecorded(children)
    ensures AllRecorded(AddChildren(orders, first, parents, children))
  {
    if parents != [] {
      var last := parents[|parents| - 1];
      assert last in parents;
      var earlier := AddChildren(orders, first, parents[..|parents| - 1], children);
      ChildrenRecord(orders, first, parents[..|parents| - 1], children);
      FolioRecorded(children[last], Folioed(earlier, children[last]).serial);
    }
  }

  lemma ChildRecords(id: int, parent: Order)
    requires ChildOf(id, parent).Ok?
    ensures Recorded(ChildOf(id, parent).value)
  {
    TransitionRecords(Created(Order(parent.customer, parent.facility, None, Draft, parent.fulfillment, Some(id), [])), InPreparation, false);
  }

  lemma SplitRecords(m: State, parents: set<int>, carried: set<int>)
    requires AllRecorded(m.orders) && parents <= m.orders.Keys
    requires forall e :: e in carried ==> e in m.entries && m.entries[e].line in m.lines && m.lines[m.entries[e].line].order in parents
    requires Split(m, parents, carried).Ok?
    ensures AllRecorded(Split(m, parents, carried).value.orders)
  {
    var children := ChildrenOf(m.orders, parents);
    forall o | o in children ensures Recorded(children[o]) {
      ChildRecords(o, m.orders[o]);
    }
    ChildrenRecord(m.orders, NextId(m.orders), Ascending(parents), children);
  }

  lemma RefusalRefuses(s: State, setup: Setup, trip: int, stop: int, accepted: map<int, Acceptance>, proof: bool)
    ensures CloseRefusal(s, setup, trip, stop, accepted, proof).Some? ==> CloseStop(s, setup, trip, stop, accepted, proof).Refused?
  {
  }

  lemma UnsettledRefuses(s: State, setup: Setup, trip: int, stop: int, accepted: map<int, Acceptance>, proof: bool)
    requires CloseRefusal(s, setup, trip, stop, accepted, proof) == None
    ensures stop in s.stops && trip in s.trips && OnKnownLines(s, accepted.Keys)
    ensures !AllSettle(s, SettledEntries(s.entries, accepted), accepted.Keys) ==>
              CloseStop(s, setup, trip, stop, accepted, proof).Refused?
  {
  }

  lemma RemainderKnown(s: State, accepted: map<int, Acceptance>)
    requires OnKnownLines(s, accepted.Keys)
    ensures var entries := SettledEntries(s.entries, accepted);
            var carried := Remainder(s, entries, accepted.Keys);
            && OnKnownLines(s, carried) && OrdersOf(s, carried) <= OrdersOf(s, accepted.Keys)
            && (forall e :: e in carried ==> entries[e].line == s.entries[e].line)
  {
  }

  lemma CloseRecords(s: State, setup: Setup, trip: int, stop: int, accepted: map<int, Acceptance>, proof: bool)
    requires AllRecorded(s.orders) && CloseStop(s, setup, trip, stop, accepted, proof).Ok?
    ensures AllRecorded(CloseStop(s, setup, trip, stop, accepted, proof).value.orders)
  {
    RefusalRefuses(s, setup, trip, stop, accepted, proof);
    UnsettledRefuses(s, setup, trip, stop, accepted, proof);
    var entries := SettledEntries(s.entries, accepted);
    SettledRecords(s, entries, accepted.Keys);
    RemainderKnown(s, accepted);
    var carried := Remainder(s, entries, accepted.Keys);
    SplitRecords(Settled(s, setup, trip, stop, accepted), OrdersOf(s, carried), carried);
  }

  lemma StatusCallRecords(s: State, setup: Setup, call: Call)
    requires AllRecorded(s.orders) && Answer(s, setup, call).Ok? && !OfTrips(call) && !call.Raise?
    ensures AllRecorded(After(s, setup, call).orders)
  {
    if call.ConfirmOrder? {
      FolioRecorded(s.orders[call.order], WithFolio(s, call.order).orders[call.order].serial);
      MovedRecords(WithFolio(s, call.order), call.order, if setup.approvalRequired then PendingApproval else BranchTarget(s.orders[call.order]), false);
    } else if call.ApproveOrder? {
      MovedRecords(s, call.order, BranchTarget(s.orders[call.order]), false);
    } else if call.RejectOrder? {
      MovedRecords(s, call.order, Draft, call.reason);
    } else if call.ReadyOrder? {
      MovedRecords(s, call.order, ReadyForPickup, false);
    } else if call.RequeueOrder? {
      TransitionRecords(s.orders[call.order], InPreparation, false);
    } else if call.CancelOrder? {
      TransitionRecords(s.orders[call.order], Cancelled, call.reason);
    } else if call.HandOver? {
      TransitionRecords(s.orders[call.order], PickedUp, false);
    }
  }

  lemma PlanningKeepsOrders(s: State, setup: Setup, call: Call)
    requires Answer(s, setup, call).Ok? && OfTrips(call) && !call.Leave? && !call.Resolve?
    ensures After(s, setup, call).orders == s.orders
  {
  }

  lemma CallRecords(s: State, setup: Setup, call: Call)
    requires AllRecorded(s.orders)
    ensures AllRecorded(After(s, setup, call).orders)
  {
    if Answer(s, setup, call).Ok? {
      if call.Raise? {
        CreateRecords(s, setup, call.sale, KindOf(setup, call.sale, call.given, call.shipTo), call.requested);
      } else if call.Leave? {
        DepartRecords(s, setup, call.trip);
      } else if call.Resolve? {
        CloseRecords(s, setup, call.trip, call.stop, call.accepted, call.proof);
      } else if OfTrips(call) {
        PlanningKeepsOrders(s, setup, call);
      } else {
        StatusCallRecords(s, setup, call);
      }
    }
  }

  /** Every order's history is the chain of permitted moves that led to its status, whatever is called. */
  lemma {:induction false} HistoriesAreComplete(setup: Setup, calls: seq<Call>)
    ensures AllRecorded(Run(EMPTY, setup, calls).orders)
  {
    if calls != [] {
      HistoriesAreComplete(setup, calls[..|calls| - 1]);
      CallRecords(Run(EMPTY, setup, calls[..|calls| - 1]), setup, calls[|calls| - 1]);
    }
  }

  // ----- serials

  /** No two orders of a facility share a serial. */
  ghost predicate FoliosDistinct(orders: map<int, Order>) {
    forall o, p :: o in orders && p in orders && o != p && orders[o].facility == orders[p].facility && orders[o].serial.Some? ==>
      orders[o].serial != orders[p].serial
  }

  /** Orders keep their facility and serial, and new ones have none. */
  ghost predicate KeepsFolios(before: map<int, Order>, after: map<int, Order>) {
    forall o :: o in after ==>
      if o in before then after[o].facility == before[o].facility && after[o].serial == before[o].serial
      else after[o].serial == None
  }

  lemma KeptFoliosDistinct(before: map<int, Order>, after: map<int, Order>)
    requires FoliosDistinct(before) && KeepsFolios(before, after)
    ensures FoliosDistinct(after)
  {
    forall o, p | o in after && p in after && o != p && after[o].facility == after[p].facility && after[o].serial.Some?
      ensures after[o].serial != after[p].serial
    {
      assert o in before;
    }
  }

  /** The next serial of a facility is above every one in use there. */
  lemma NextFolioIsAbove(orders: map<int, Order>, facility: int, o: int)
    requires o in orders && orders[o].facility == facility && orders[o].serial.Some?
    ensures orders[o].serial.value < NextFolio(orders, facility)
  {
    assert orders[o].serial.value in Folios(orders, facility);
  }

  lemma FolioedDistinct(orders: map<int, Order>, o: int, order: Order)
    requires FoliosDistinct(orders) && order.serial == Some(NextFolio(orders, order.facility))
    ensures FoliosDistinct(orders[o := order])
  {
    forall p | p in orders && orders[p].facility == order.facility && orders[p].serial.Some?
      ensures orders[p].serial != order.serial
    {
      NextFolioIsAbove(orders, order.facility, p);
    }
  }

  lemma {:induction false} ChildrenFolios(orders: map<int, Order>, first: int, parents: seq<int>, children: map<int, Order>)
    requires FoliosDistinct(orders) && forall o :: o in parents ==> o in children
    ensures FoliosDistinct(AddChildren(orders, first, parents, children))
  {
    if parents != [] {
      var last := parents[|parents| - 1];
      assert last in parents;
      var earlier := AddChildren(orders, first, parents[..|parents| - 1], children);
      ChildrenFolios(orders, first, parents[..|parents| - 1], children);
      FolioedDistinct(earlier, first + |parents| - 1, Folioed(earlier, children[last]));
    }
  }

  lemma SplitFolios(m: State, parents: set<int>, carried: set<int>)
    requires FoliosDistinct(m.orders) && parents <= m.orders.Keys
    requires forall e :: e in carried ==> e in m.entries && m.entries[e].line in m.lines && m.lines[m.entries[e].line].order in parents
    requires Split(m, parents, carried).Ok?
    ensures FoliosDistinct(Split(m, parents, carried).value.orders)
  {
    ChildrenFolios(m.orders, NextId(m.orders), Ascending(parents), ChildrenOf(m.orders, parents));
  }

  lemma SettledFolios(s: State, setup: Setup, trip: int, stop: int, accepted: map<int, Acceptance>)
    requires OnKnownLines(s, accepted.Keys) && stop in s.stops && trip in s.trips
    requires FoliosDistinct(s.orders) && AllSettle(s, SettledEntries(s.entries, accepted), accepted.Keys)
    ensures FoliosDistinct(Settled(s, setup, trip, stop, accepted).orders)
  {
    KeptFoliosDistinct(s.orders, Settled(s, setup, trip, stop, accepted).orders);
  }

  lemma CloseFolios(s: State, setup: Setup, trip: int, stop: int, accepted: map<int, Acceptance>, proof: bool)
    requires FoliosDistinct(s.orders) && CloseStop(s, setup, trip, stop, accepted, proof).Ok?
    ensures FoliosDistinct(CloseStop(s, setup, trip, stop, accepted, proof).value.orders)
  {
    RefusalRefuses(s, setup, trip, stop, accepted, proof);
    UnsettledRefuses(s, setup, trip, stop, accepted, proof);
    var entries := SettledEntries(s.entries, accepted);
    SettledFolios(s, setup, trip, stop, accepted);
    RemainderKnown(s, accepted);
    var carried := Remainder(s, entries, accepted.Keys);
    SplitFolios(Settled(s, setup, trip, stop, accepted), OrdersOf(s, carried), carried);
  }

  lemma CreateFolios(s: State, setup: Setup, sale: int, fulfillment: Fulfillment, requested: Option<seq<Request>>)
    requires FoliosDistinct(s.orders) && Create(s, setup, sale, fulfillment, requested).Ok?
    ensures FoliosDistinct(Create(s, setup, sale, fulfillment, requested).value.orders)
  {
    var t := Create(s, setup, sale, fulfillment, requested).value;
    var facility, order, chosen := CreateParts(s, t, setup, sale, fulfillment, requested);
    AddLinesKeepOrders(s.(orders := s.orders[NextId(s.orders) := order]), setup, NextId(s.orders), facility, chosen);
    KeptFoliosDistinct(s.orders, t.orders);
  }

  lemma ConfirmFolios(s: State, setup: Setup, o: int, short: bool)
    requires FoliosDistinct(s.orders) && Confirm(s, setup, o, short).Ok?
    ensures FoliosDistinct(Confirm(s, setup, o, short).value.orders)
  {
    FolioedDistinct(s.orders, o, Folioed(s.orders, s.orders[o]));
    KeptFoliosDistinct(WithFolio(s, o).orders, Confirm(s, setup, o, short).value.orders);
  }

  lemma OthersKeepFolios(s: State, setup: Setup, call: Call)
    requires Answer(s, setup, call).Ok? && !call.Raise? && !call.ConfirmOrder? && !call.Resolve?
    ensures KeepsFolios(s.orders, After(s, setup, call).orders)
  {
    if call.Leave? {
      LeavingKeepsFolios(s, setup, call.trip);
    } else if OfTrips(call) {
      PlanningKeepsOrders(s, setup, call);
    } else {
      OrderCallKeepsFolios(s, setup, call);
    }
  }

  lemma LeavingKeepsFolios(s: State, setup: Setup, trip: int)
    requires Depart(s, setup, trip).Ok?
    ensures KeepsFolios(s.orders, Depart(s, setup, trip).value.orders)
  {
    assert Depart(s, setup, trip).value.orders == DepartedOrders(s.orders, OrdersOf(s, Departing(s, trip)));
  }

  lemma OrderCallKeepsFolios(s: State, setup: Setup, call: Call)
    requires Answer(s, setup, call).Ok? && !OfTrips(call) && !call.Raise? && !call.ConfirmOrder?
    ensures KeepsFolios(s.orders, After(s, setup, call).orders)
  {
    if call.Add? || call.Edit? || call.Drop? {
      assert After(s, setup, call).orders == s.orders;
    }
  }

  lemma CallFolios(s: State, setup: Setup, call: Call)
    requires FoliosDistinct(s.orders)
    ensures FoliosDistinct(After(s, setup, call).orders)
  {
    if Answer(s, setup, call).Ok? {
      if call.Raise? {
        CreateFolios(s, setup, call.sale, KindOf(setup, call.sale, call.given, call.shipTo), call.requested);
      } else if call.ConfirmOrder? {
        ConfirmFolios(s, setup, call.order, call.short);
      } else if call.Resolve? {
        CloseFolios(s, setup, call.trip, call.stop, call.accepted, call.proof);
      } else {
        OthersKeepFolios(s, setup, call);
        KeptFoliosDistinct(s.orders, After(s, setup, call).orders);
      }
    }
  }

  /** No two delivery orders of a facility share a serial, children of partial deliveries included, whatever
      is called. */
  lemma {:induction false} FoliosStayDistinct(setup: Setup, calls: seq<Call>)
    ensures FoliosDistinct(Run(EMPTY, setup, calls).orders)
  {
    if calls != [] {
      FoliosStayDistinct(setup, calls[..|calls| - 1]);
      CallFolios(Run(EMPTY, setup, calls[..|calls| - 1]), setup, calls[|calls| - 1]);
    }
  }

  /** An order rejected keeps its serial, and confirmed again it gets the next one: the serial it had is then
      no order's at the facility. */
  lemma ConfirmedAgainLosesASerial(s: State, setup: Setup, o: int, short: bool, serial: int)
    requires FoliosDistinct(s.orders) && Reject(s, o, true).Ok? && s.orders[o].serial == Some(serial)
    requires Confirm(Reject(s, o, true).value, setup, o, short).Ok?
    ensures var t := Confirm(Reject(s, o, true).value, setup, o, short).value;
            serial !in Folios(t.orders, s.orders[o].facility)
  {
    var u := Reject(s, o, true).value;
    var t := Confirm(u, setup, o, short).value;
    NextFolioIsAbove(u.orders, s.orders[o].facility, o);
    forall p | p in t.orders && t.orders[p].facility == s.orders[o].facility ensures t.orders[p].serial != Some(serial) {
      assert p != o ==> t.orders[p] == s.orders[p];
    }
  }
}
