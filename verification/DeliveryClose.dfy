/** Closing a stop keeps the invariant: the settlement, and then the split of each remainder into a
    child order that carries exactly what came back. */
module DeliveryClose {
  import opened Outcomes
  import opened Tables
  import opened DeliveryEvents
  import opened Delivery
  import opened DeliveryInvariant
  import opened DeliveryKeeps
  import opened DeliverySettle
  import opened DeliverySettleTotals

  ghost predicate Closable(s: State, setup: Setup, trip: int, stop: int, accepted: map<int, Acceptance>) {
    && stop in s.stops && s.stops[stop].trip == trip && s.stops[stop].outcome == StopPending
    && trip in s.trips && s.trips[trip] == TripDeparted
    && accepted.Keys == EntriesOf(s, stop) && WithinSent(s, accepted)
    && OnKnownLines(s, accepted.Keys) && TransitKnown(s, setup, accepted.Keys)
    && AllSettle(s, SettledEntries(s.entries, accepted), accepted.Keys)
  }

  ghost function Carried(s: State, accepted: map<int, Acceptance>): set<int>
    requires OnKnownLines(s, accepted.Keys)
  {
    Remainder(s, SettledEntries(s.entries, accepted), accepted.Keys)
  }

  /** What is carried over is of orders of the settled tables. */
  ghost predicate Splittable(s: State, m: State, accepted: map<int, Acceptance>)
    requires OnKnownLines(s, accepted.Keys)
  {
    var carried := Carried(s, accepted);
    && OnKnownLines(s, carried) && OrdersOf(s, carried) <= m.orders.Keys
    && (forall e :: e in carried ==>
          e in m.entries && m.entries[e].line in m.lines && m.lines[m.entries[e].line].order in OrdersOf(s, carried))
  }

  lemma CloseSplits(s: State, setup: Setup, trip: int, stop: int, accepted: map<int, Acceptance>, proof: bool)
    requires CloseStop(s, setup, trip, stop, accepted, proof).Ok?
    requires Closable(s, setup, trip, stop, accepted)
    ensures var m := Settled(s, setup, trip, stop, accepted);
            && Splittable(s, m, accepted)
            && CloseStop(s, setup, trip, stop, accepted, proof) == Split(m, OrdersOf(s, Carried(s, accepted)), Carried(s, accepted))
  {
  }

  // ----- the settlement's parts

  lemma SettledEntriesParts(s: State, m: State, setup: Setup, stop: int, accepted: map<int, Acceptance>)
    requires TablesOk(s, setup) && m.entries == SettledEntries(s.entries, accepted)
    requires accepted.Keys == EntriesOf(s, stop) && WithinSent(s, accepted)
    ensures EntriesSettle(s, m, accepted.Keys)
  {
    forall e | e in accepted ensures e in s.entries && EntrySettles(s.entries[e], m.entries[e]) {
      assert e in EntriesOf(s, stop);
      assert EntryOk(s, setup, e);
    }
  }

  lemma SettledLinesParts(s: State, m: State, some: set<int>)
    requires m.lines == SettledLines(s.lines, m.entries, some)
    ensures LinesSettle(s, m, some)
  {
  }

  lemma SettledStops(s: State, m: State, setup: Setup, trip: int, stop: int, accepted: map<int, Acceptance>)
    requires Closable(s, setup, trip, stop, accepted)
    requires m.stops == s.stops[stop := s.stops[stop].(outcome := StopResult(s, m.entries, accepted.Keys))]
    requires m.trips == TripAfter(s, trip, stop)
    ensures StopsSettle(s, m, stop)
  {
  }

  lemma SettledOrderAt(s: State, setup: Setup, entries: map<int, Entry>, some: set<int>, o: int)
    requires o in s.orders && OrderOk(s.orders[o])
    requires Transition(s.orders[o], Target(s, entries, some, o), true).Ok?
    ensures var order := Transition(s.orders[o], Target(s, entries, some, o), true).value;
            OrderOk(order) && s.orders[o].status == InTransit && order.status == Target(s, entries, some, o)
  {
    TransitionRecords(s.orders[o], Target(s, entries, some, o), true);
  }

  lemma SettledOrdersParts(s: State, m: State, setup: Setup, some: set<int>)
    requires TablesOk(s, setup) && OnKnownLines(s, some) && AllSettle(s, m.entries, some)
    requires m.orders == SettledOrders(s, m.entries, some)
    ensures OrdersSettle(s, m, OrdersOf(s, some), some)
  {
    forall o | o in s.orders
      ensures OrderOk(m.orders[o])
      ensures o in OrdersOf(s, some) ==>
                s.orders[o].status == InTransit && m.orders[o].status == Target(s, m.entries, some, o)
    {
      assert OrderOk(s.orders[o]);
      if o in OrdersOf(s, some) {
        SettledOrderAt(s, setup, m.entries, some, o);
      }
    }
  }

  // ----- the settlement as a whole

  /** The pieces above together. */
  ghost predicate Settles(s: State, m: State, setup: Setup, trip: int, stop: int, some: set<int>) {
    && AtStop(s, stop, some) && EntriesSettle(s, m, some) && LinesSettle(s, m, some)
    && OnKnownLines(s, some) && OrdersSettle(s, m, OrdersOf(s, some), some) && StopsSettle(s, m, stop)
    && TransitKnown(s, setup, some)
    && (forall e :: e in some ==> e in m.entries && m.entries[e].line in s.lines)
    && m.ledger == s.ledger + CloseMoves(s, setup, trip, m.entries, Ascending(some))
  }

  lemma SettledSettles(s: State, m: State, setup: Setup, trip: int, stop: int, accepted: map<int, Acceptance>)
    requires TablesOk(s, setup) && Closable(s, setup, trip, stop, accepted)
    requires m == Settled(s, setup, trip, stop, accepted)
    ensures Settles(s, m, setup, trip, stop, accepted.Keys)
  {
    SettledEntriesParts(s, m, setup, stop, accepted);
    SettledLinesParts(s, m, accepted.Keys);
    SettledStops(s, m, setup, trip, stop, accepted);
    SettledOrdersParts(s, m, setup, accepted.Keys);
    assert AtStop(s, stop, accepted.Keys);
    forall e | e in accepted ensures e in m.entries && m.entries[e].line in s.lines {
      assert EntrySettles(s.entries[e], m.entries[e]);
    }
  }

  lemma SettleUnloads(s: State, m: State, setup: Setup, some: set<int>)
    requires TablesOk(s, setup) && EntriesSettle(s, m, some)
    requires OnKnownLines(s, some) && TransitKnown(s, setup, some)
    ensures Known(s, setup, m.entries, some) && Unloading(s, setup, m.entries, Ascending(some))
  {
    forall e | e in some
      ensures m.entries[e].line == s.entries[e].line
      ensures s.lines[s.entries[e].line].warehouse !in setup.transit.Values
      ensures m.entries[e].sent >= 0 && m.entries[e].returned >= 0
      ensures m.entries[e].delivered + m.entries[e].returned == m.entries[e].sent
    {
      assert EntryOk(s, setup, e) && EntrySettles(s.entries[e], m.entries[e]);
      assert LineOk(s, setup, s.entries[e].line);
    }
  }

  lemma SettleRoadFalls(s: State, m: State, setup: Setup, trip: int, stop: int, some: set<int>, w: int, p: int)
    requires TablesOk(s, setup) && Settles(s, m, setup, trip, stop, some) && Known(s, setup, m.entries, some)
    ensures Total(Road(m, setup, w, p)) == Total(Road(s, setup, w, p)) - Total(AboardAll(s, setup, m.entries, some, w, p))
  {
    forall e | e in s.entries
      ensures m.entries[e].sent == s.entries[e].sent && m.entries[e].line == s.entries[e].line
      ensures OnRoad(m, setup, e, w, p) == (e !in some && OnRoad(s, setup, e, w, p))
    {
      SettleKeepsEntry(s, m, setup, stop, OrdersOf(s, some), some, e);
      assert e in some ==> EntrySettles(s.entries[e], m.entries[e]);
    }
    SettleRoad(s, m, setup, some, w, p);
  }

  lemma SettledLedger(s: State, m: State, setup: Setup, trip: int, some: set<int>, w: int, p: int)
    requires forall e :: e in some ==> e in m.entries && m.entries[e].line in s.lines
    requires m.ledger == s.ledger + CloseMoves(s, setup, trip, m.entries, Ascending(some))
    requires Known(s, setup, m.entries, some) && Unloading(s, setup, m.entries, Ascending(some))
    ensures w in setup.transit.Values ==>
              TripStock(m.ledger, w, p) == TripStock(s.ledger, w, p) - Total(AboardAll(s, setup, m.entries, some, w, p))
    ensures TotalStock(m.ledger, p) == TotalStock(s.ledger, p) - Total(HandedAll(s, setup, m.entries, some, p))
  {
    var moves := CloseMoves(s, setup, trip, m.entries, Ascending(some));
    CloseTotals(s, setup, trip, m.entries, some, w, p);
    TripStockAppend(s.ledger, moves, w, p);
    TotalStockAppend(s.ledger, moves, p);
  }

  lemma SettleKeepsStock(s: State, m: State, setup: Setup, trip: int, stop: int, some: set<int>)
    requires TablesOk(s, setup) && StockOk(s, setup) && Settles(s, m, setup, trip, stop, some)
    ensures StockOk(m, setup)
  {
    SettleUnloads(s, m, setup, some);
    forall p ensures TotalStock(m.ledger, p) == -Total(HandedOver(m, setup, p)) {
      SettleKeepsStockAt(s, m, setup, trip, some, p);
    }
  }

  lemma SettleKeepsStockAt(s: State, m: State, setup: Setup, trip: int, some: set<int>, p: int)
    requires StockOk(s, setup) && LinesSettle(s, m, some)
    requires forall e :: e in some ==> e in m.entries && m.entries[e].line in s.lines
    requires m.ledger == s.ledger + CloseMoves(s, setup, trip, m.entries, Ascending(some))
    requires Known(s, setup, m.entries, some) && Unloading(s, setup, m.entries, Ascending(some))
    ensures TotalStock(m.ledger, p) == -Total(HandedOver(m, setup, p))
  {
    SettledLedger(s, m, setup, trip, some, 0, p);
    SettleHandsOver(s, m, setup, some, p);
  }

  /** Lines of the orders at the stop had nothing back yet, and others get nothing back. */
  lemma SettleReturns(s: State, m: State, setup: Setup, some: set<int>, l: int)
    requires TablesOk(s, setup) && OnKnownLines(s, some) && EntriesSettle(s, m, some) && l in s.lines
    requires OrdersSettle(s, m, OrdersOf(s, some), some)
    ensures s.lines[l].order in OrdersOf(s, some) ==> s.lines[l].returned == 0
    ensures s.lines[l].order !in OrdersOf(s, some) ==> OnLine(m.entries, some, l, Returned) == 0
  {
    assert LineOk(s, setup, l);
    if s.lines[l].order !in OrdersOf(s, some) {
      forall e | e in some && e in m.entries ensures m.entries[e].line != l {
        assert EntrySettles(s.entries[e], m.entries[e]);
        assert s.lines[s.entries[e].line].order in OrdersOf(s, some);
      }
      OnLineEmpty(m.entries, some, l, Returned);
    }
  }

  /** The sales' cover falls by exactly what a child is to carry. */
  lemma SettleTakes(s: State, m: State, setup: Setup, trip: int, stop: int, some: set<int>, x: int)
    requires TablesOk(s, setup) && Settles(s, m, setup, trip, stop, some)
    requires forall e :: e in Remainder(s, m.entries, some) ==> e in m.entries && m.entries[e].line in s.lines
    ensures Total(Net(m, x)) == Total(Net(s, x)) - Total(Back(s, m.entries, Remainder(s, m.entries, some), x))
  {
    var seen := OrdersOf(s, some);
    forall l | l in s.lines
      ensures s.lines[l].order in seen ==> s.lines[l].returned == 0
      ensures s.lines[l].order !in seen ==> OnLine(m.entries, some, l, Returned) == 0
    {
      SettleReturns(s, m, setup, some, l);
    }
    forall e | e in some ensures m.entries[e].returned >= 0 && m.entries[e].line == s.entries[e].line {
      assert EntrySettles(s.entries[e], m.entries[e]);
    }
    SettleNet(s, m, seen, Partial(s, m.entries, some), some, Remainder(s, m.entries, some), x);
  }

  lemma SettleKeeps(s: State, m: State, setup: Setup, trip: int, stop: int, some: set<int>)
    requires Inv(s, setup) && Settles(s, m, setup, trip, stop, some)
    ensures TablesOk(m, setup) && StockOk(m, setup)
  {
    SettleKeepsTables(s, m, setup, stop, OrdersOf(s, some), some);
    SettleKeepsStock(s, m, setup, trip, stop, some);
  }

  // ----- the split

  /** The orders there were, and new ones in preparation, one of them for each parent. */
  ghost predicate Bears(orders: map<int, Order>, after: map<int, Order>, ids: map<int, int>) {
    && (forall o :: o in orders ==> o in after && after[o] == orders[o])
    && (forall o :: o in after && o !in orders ==> OrderOk(after[o]) && after[o].status == InPreparation)
    && (forall o :: o in ids ==> ids[o] in after && ids[o] !in orders)
  }

  ghost predicate AllOk(orders: map<int, Order>) {
    forall o :: o in orders ==> OrderOk(orders[o])
  }

  lemma {:induction false} ChildrenAdded(orders: map<int, Order>, first: int, parents: seq<int>, children: map<int, Order>)
    requires forall o :: o in parents ==> o in children
    requires forall o :: o in children ==> OrderOk(children[o]) && children[o].status == InPreparation
    requires forall o :: o in orders ==> o < first
    ensures Bears(orders, AddChildren(orders, first, parents, children), ChildIds(first, parents))
  {
    if parents != [] {
      var rest, last := parents[..|parents| - 1], parents[|parents| - 1];
      assert last in parents;
      ChildrenAdded(orders, first, rest, children);
      FolioRecorded(children[last], Folioed(AddChildren(orders, first, rest, children), children[last]).serial);
    }
  }

  lemma ChildRecorded(id: int, parent: Order)
    requires OrderOk(parent) && ChildOf(id, parent).Ok?
    ensures OrderOk(ChildOf(id, parent).value) && ChildOf(id, parent).value.status == InPreparation
  {
    TransitionRecords(Created(Order(parent.customer, parent.facility, None, Draft, parent.fulfillment, Some(id), [])), InPreparation, false);
  }

  /** What came back with an entry, of a sales line. */
  function BackOf(s: State, e: int, x: int): int
    requires e in s.entries && s.entries[e].line in s.lines
  {
    if s.lines[s.entries[e].line].salesLine == Some(x) then s.entries[e].returned else 0
  }

  ghost predicate Prepared(s: State, children: map<int, int>) {
    forall o :: o in children ==> children[o] in s.orders && s.orders[children[o]].status == InPreparation
  }

  lemma RemainderLine(s: State, setup: Setup, children: map<int, int>, e: int)
    requires TablesOk(s, setup) && Carriable(s, children, [e]) && e in [e] && Prepared(s, children)
    ensures e in s.entries && s.entries[e].line in s.lines && s.lines[s.entries[e].line].order in children
    ensures var line := ChildLine(s, children, e);
            && Untouched(line, setup) && line.order in s.orders && s.orders[line.order].status == InPreparation
            && line.quantity == s.entries[e].returned && line.salesLine == s.lines[s.entries[e].line].salesLine
  {
    assert EntryOk(s, setup, e) && LineOk(s, setup, s.entries[e].line);
  }

  lemma RemainderKeeps(earlier: State, t: State, setup: Setup, id: int, line: Line, x: int)
    requires TablesOk(earlier, setup) && StockOk(earlier, setup) && id !in earlier.lines
    requires Untouched(line, setup) && line.order in earlier.orders && earlier.orders[line.order].status == InPreparation
    requires t == earlier.(lines := earlier.lines[id := line])
    ensures TablesOk(t, setup) && StockOk(t, setup)
    ensures Total(Net(t, x)) == Total(Net(earlier, x)) + if line.salesLine == Some(x) then line.quantity else 0
  {
    InsertKeepsTables(earlier, t, setup, id, line);
    assert t.lines[id] == line;
  }

  /** Each remainder's line adds what came back to the sale's cover, and nothing else changes. */
  lemma {:induction false} RemaindersKeep(s: State, setup: Setup, children: map<int, int>, carried: seq<int>, back: map<int, int>, x: int)
    requires TablesOk(s, setup) && StockOk(s, setup)
    requires Carriable(s, children, carried) && Prepared(s, children)
    requires forall e :: e in carried ==> e in back && back[e] == BackOf(s, e, x)
    ensures var t := s.(lines := AddRemainders(s, children, carried));
            && TablesOk(t, setup) && StockOk(t, setup)
            && Total(Net(t, x)) == Total(Net(s, x)) + SumOver(back, carried)
  {
    var t := s.(lines := AddRemainders(s, children, carried));
    if carried == [] {
      assert t == s;
    } else {
      var rest, last := carried[..|carried| - 1], carried[|carried| - 1];
      assert last in carried;
      RemaindersKeep(s, setup, children, rest, back, x);
      RemainderLine(s, setup, children, last);
      var earlier := s.(lines := AddRemainders(s, children, rest));
      RemainderKeeps(earlier, t, setup, NextId(earlier.lines), ChildLine(s, children, last), x);
    }
  }

  lemma SplitParts(m: State, t: State, parents: set<int>, carried: set<int>)
    requires AllOk(m.orders) && parents <= m.orders.Keys
    requires forall e :: e in carried ==> e in m.entries && m.entries[e].line in m.lines && m.lines[m.entries[e].line].order in parents
    requires Split(m, parents, carried).Ok? && t == Split(m, parents, carried).value
    ensures var ids := ChildIds(NextId(m.orders), Ascending(parents));
            && Bears(m.orders, t.orders, ids)
            && Carriable(m, ids, Ascending(carried))
            && t == m.(orders := t.orders, lines := AddRemainders(m, ids, Ascending(carried)))
  {
    var children := ChildrenOf(m.orders, parents);
    forall o | o in parents ensures OrderOk(children[o]) && children[o].status == InPreparation {
      ChildRecorded(o, m.orders[o]);
    }
    ChildrenAdded(m.orders, NextId(m.orders), Ascending(parents), children);
    ChildIdsOf(NextId(m.orders), Ascending(parents));
  }

  lemma SplitOrdersKeep(m: State, more: State, setup: Setup, ids: map<int, int>)
    requires TablesOk(m, setup) && StockOk(m, setup)
    requires more == m.(orders := more.orders) && Bears(m.orders, more.orders, ids)
    ensures TablesOk(more, setup) && StockOk(more, setup) && Prepared(more, ids)
    ensures forall x :: Total(Net(more, x)) == Total(Net(m, x))
  {
    forall o | o in more.orders ensures OrderOk(more.orders[o]) {
      if o in m.orders {
        assert OrderOk(m.orders[o]);
      }
    }
    MoreOrdersKeep(m, more, setup);
    forall o | o in ids ensures ids[o] in more.orders && more.orders[ids[o]].status == InPreparation {
      var child := ids[o];
      assert child in more.orders && child !in m.orders;
    }
  }

  lemma SplitLinesKeep(more: State, t: State, setup: Setup, ids: map<int, int>, keys: seq<int>, carried: set<int>, x: int)
    requires TablesOk(more, setup) && StockOk(more, setup) && Prepared(more, ids)
    requires Increasing(keys) && forall e :: e in keys <==> e in carried
    requires Carriable(more, ids, keys)
    requires forall e :: e in carried ==> e in more.entries && more.entries[e].line in more.lines
    requires t == more.(lines := AddRemainders(more, ids, keys))
    ensures TablesOk(t, setup) && StockOk(t, setup)
    ensures Total(Net(t, x)) == Total(Net(more, x)) + Total(Back(more, more.entries, carried, x))
  {
    var back := Back(more, more.entries, carried, x);
    forall e | e in keys ensures e in back && back[e] == BackOf(more, e, x) {
    }
    RemaindersKeep(more, setup, ids, keys, back, x);
    SumInOrder(back, keys);
  }

  lemma BackSame(s: State, m: State, carried: set<int>, x: int)
    requires forall e :: e in carried ==> e in m.entries && m.entries[e].line in m.lines
    requires m.lines.Keys == s.lines.Keys && forall l :: l in s.lines ==> m.lines[l].salesLine == s.lines[l].salesLine
    ensures Total(Back(m, m.entries, carried, x)) == Total(Back(s, m.entries, carried, x))
  {
    TotalSame(Back(m, m.entries, carried, x), Back(s, m.entries, carried, x));
  }

  /** A split puts back into the sales' cover exactly what the settlement took out of it. */
  lemma SplitKeeps(m: State, t: State, setup: Setup, ids: map<int, int>, carried: set<int>, x: int)
    requires TablesOk(m, setup) && StockOk(m, setup)
    requires Bears(m.orders, t.orders, ids) && Carriable(m, ids, Ascending(carried))
    requires forall e :: e in carried ==> e in m.entries && m.entries[e].line in m.lines
    requires t == m.(orders := t.orders, lines := AddRemainders(m, ids, Ascending(carried)))
    ensures TablesOk(t, setup) && StockOk(t, setup)
    ensures Total(Net(t, x)) == Total(Net(m, x)) + Total(Back(m, m.entries, carried, x))
  {
    var more := m.(orders := t.orders);
    SplitOrdersKeep(m, more, setup, ids);
    assert Carriable(more, ids, Ascending(carried));
    SameRemainders(m, more, ids, Ascending(carried));
    assert t == more.(lines := AddRemainders(more, ids, Ascending(carried)));
    SplitLinesKeep(more, t, setup, ids, Ascending(carried), carried, x);
    BackSame(more, m, carried, x);
    assert Total(Back(more, more.entries, carried, x)) == Total(Back(m, m.entries, carried, x));
  }

  lemma {:induction false} SameRemainders(m: State, more: State, children: map<int, int>, carried: seq<int>)
    requires more == m.(orders := more.orders) && Carriable(m, children, carried) && Carriable(more, children, carried)
    ensures AddRemainders(m, children, carried) == AddRemainders(more, children, carried)
  {
    if carried != [] {
      assert carried[|carried| - 1] in carried;
      SameRemainders(m, more, children, carried[..|carried| - 1]);
    }
  }

  // ----- closing

  ghost predicate Splits(m: State, t: State, carried: set<int>, ids: map<int, int>) {
    && (forall e :: e in carried ==> e in m.entries && m.entries[e].line in m.lines)
    && Bears(m.orders, t.orders, ids) && Carriable(m, ids, Ascending(carried))
    && t == m.(orders := t.orders, lines := AddRemainders(m, ids, Ascending(carried)))
  }

  /** What a close does: it settles the stop, and splits what is carried over. */
  ghost predicate Closes(s: State, m: State, t: State, setup: Setup, trip: int, stop: int, some: set<int>, carried: set<int>, ids: map<int, int>) {
    Settles(s, m, setup, trip, stop, some) && carried == Remainder(s, m.entries, some) && Splits(m, t, carried, ids)
  }

  lemma Closing(s: State, setup: Setup, trip: int, stop: int, accepted: map<int, Acceptance>, proof: bool)
    returns (m: State, carried: set<int>, ids: map<int, int>)
    requires TablesOk(s, setup) && CloseStop(s, setup, trip, stop, accepted, proof).Ok?
    ensures Closes(s, m, CloseStop(s, setup, trip, stop, accepted, proof).value, setup, trip, stop, accepted.Keys, carried, ids)
    ensures m.entries == SettledEntries(s.entries, accepted)
  {
    var t := CloseStop(s, setup, trip, stop, accepted, proof).value;
    CloseSplits(s, setup, trip, stop, accepted, proof);
    m, carried := Settled(s, setup, trip, stop, accepted), Carried(s, accepted);
    SettledSettles(s, m, setup, trip, stop, accepted);
    ids := ChildIds(NextId(m.orders), Ascending(OrdersOf(s, carried)));
    SplitParts(m, t, OrdersOf(s, carried), carried);
  }

  lemma {:induction false} RemaindersAdd(s: State, children: map<int, int>, carried: seq<int>)
    requires Carriable(s, children, carried)
    ensures forall l :: l in s.lines ==> l in AddRemainders(s, children, carried) && AddRemainders(s, children, carried)[l] == s.lines[l]
  {
    if carried != [] {
      assert carried[|carried| - 1] in carried;
      RemaindersAdd(s, children, carried[..|carried| - 1]);
    }
  }

  lemma ClosesOpenQuantity(s: State, m: State, t: State, setup: Setup, trip: int, stop: int, some: set<int>, carried: set<int>,
                           ids: map<int, int>, l: int)
    requires TablesOk(s, setup) && Closes(s, m, t, setup, trip, stop, some, carried, ids) && l in s.lines
    ensures l in t.lines && OpenQuantity(t.lines[l])
            == OpenQuantity(s.lines[l]) + OnLine(s.entries, some, l, Claim) - OnLine(s.entries, some, l, Sent)
  {
    SettledSums(s, m, some, l);
    ClaimsSame(s, m, some, some, l);
    RemaindersAdd(m, ids, Ascending(carried));
  }

  lemma AllAtStop(s: State, stop: int, some: set<int>)
    requires AtStop(s, stop, some)
    ensures some == EntriesOf(s, stop)
  {
    forall e ensures e in some <==> e in EntriesOf(s, stop) {
    }
  }

  lemma ClosesAtStop(s: State, m: State, t: State, setup: Setup, trip: int, stop: int, some: set<int>, carried: set<int>, ids: map<int, int>)
    requires Closes(s, m, t, setup, trip, stop, some, carried, ids)
    ensures some == EntriesOf(s, stop)
  {
    AllAtStop(s, stop, some);
  }

  lemma OpenQuantityAfter(s: State, m: State, t: State, setup: Setup, trip: int, stop: int, some: set<int>, carried: set<int>,
                          ids: map<int, int>, l: int)
    requires TablesOk(s, setup) && Closes(s, m, t, setup, trip, stop, some, carried, ids) && l in s.lines
    ensures l in t.lines
    ensures OpenQuantity(t.lines[l]) == OpenQuantity(s.lines[l]) <==>
              OnLine(s.entries, EntriesOf(s, stop), l, Claim) == OnLine(s.entries, EntriesOf(s, stop), l, Sent)
  {
    ClosesOpenQuantity(s, m, t, setup, trip, stop, some, carried, ids, l);
    ClosesAtStop(s, m, t, setup, trip, stop, some, carried, ids);
  }

  /** What is still open on a line is the same after its stop closes exactly when the stop's claims on it
      are what was sent: then what was claimed is delivered or comes back. */
  lemma ClosingLeavesOpenQuantity(s: State, setup: Setup, trip: int, stop: int, accepted: map<int, Acceptance>, proof: bool, l: int)
    requires TablesOk(s, setup) && CloseStop(s, setup, trip, stop, accepted, proof).Ok? && l in s.lines
    ensures var t := CloseStop(s, setup, trip, stop, accepted, proof).value;
            && l in t.lines
            && (OpenQuantity(t.lines[l]) == OpenQuantity(s.lines[l]) <==>
                  OnLine(s.entries, EntriesOf(s, stop), l, Claim) == OnLine(s.entries, EntriesOf(s, stop), l, Sent))
  {
    var m, carried, ids := Closing(s, setup, trip, stop, accepted, proof);
    OpenQuantityAfter(s, m, CloseStop(s, setup, trip, stop, accepted, proof).value, setup, trip, stop, accepted.Keys, carried, ids, l);
  }

  lemma ClosesSettled(s: State, m: State, setup: Setup, trip: int, stop: int, some: set<int>, carried: set<int>, x: int)
    requires Inv(s, setup) && Settles(s, m, setup, trip, stop, some)
    requires carried == Remainder(s, m.entries, some)
    requires forall e :: e in carried ==> e in m.entries && m.entries[e].line in m.lines
    ensures TablesOk(m, setup) && StockOk(m, setup)
    ensures Total(Net(m, x)) == Total(Net(s, x)) - Total(Back(m, m.entries, carried, x))
  {
    SettleKeeps(s, m, setup, trip, stop, some);
    SettleTakes(s, m, setup, trip, stop, some, x);
    BackSame(s, m, carried, x);
  }

  lemma ClosesConserves(s: State, m: State, t: State, setup: Setup, trip: int, stop: int, some: set<int>, carried: set<int>,
                        ids: map<int, int>, x: int)
    requires Inv(s, setup) && Settles(s, m, setup, trip, stop, some)
    requires carried == Remainder(s, m.entries, some) && Splits(m, t, carried, ids)
    ensures TablesOk(t, setup) && StockOk(t, setup)
    ensures Total(Net(t, x)) == Total(Net(s, x))
  {
    SplitsOf(m, t, carried, ids);
    ClosesSettled(s, m, setup, trip, stop, some, carried, x);
    SplitKeeps(m, t, setup, ids, carried, x);
  }

  lemma SplitsOf(m: State, t: State, carried: set<int>, ids: map<int, int>)
    requires Splits(m, t, carried, ids)
    ensures forall e :: e in carried ==> e in m.entries && m.entries[e].line in m.lines
    ensures Bears(m.orders, t.orders, ids) && Carriable(m, ids, Ascending(carried))
    ensures t == m.(orders := t.orders, lines := AddRemainders(m, ids, Ascending(carried)))
  {
  }

  /** A closed stop changes no sale's cover: the child carries exactly what its parent no longer counts. */
  lemma ClosingConservesCover(s: State, setup: Setup, trip: int, stop: int, accepted: map<int, Acceptance>, proof: bool, x: int)
    requires Inv(s, setup) && CloseStop(s, setup, trip, stop, accepted, proof).Ok?
    ensures var t := CloseStop(s, setup, trip, stop, accepted, proof).value;
            && TablesOk(t, setup) && StockOk(t, setup)
            && Total(Net(t, x)) == Total(Net(s, x))
  {
    var t := CloseStop(s, setup, trip, stop, accepted, proof).value;
    var m, carried, ids := Closing(s, setup, trip, stop, accepted, proof);
    ClosesConserves(s, m, t, setup, trip, stop, accepted.Keys, carried, ids, x);
  }

  lemma CloseStopKeeps(s: State, setup: Setup, trip: int, stop: int, accepted: map<int, Acceptance>, proof: bool)
    requires Inv(s, setup) && CloseStop(s, setup, trip, stop, accepted, proof).Ok?
    ensures Inv(CloseStop(s, setup, trip, stop, accepted, proof).value, setup)
  {
    var t := CloseStop(s, setup, trip, stop, accepted, proof).value;
    forall x | x in setup.salesLines ensures Total(Net(t, x)) <= setup.salesLines[x].quantity {
      ClosingConservesCover(s, setup, trip, stop, accepted, proof, x);
    }
    ClosingConservesCover(s, setup, trip, stop, accepted, proof, 0);
  }
}
