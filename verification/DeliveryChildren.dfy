/** What a closed stop comes to: each order by what its customer took, the stop by its orders, and for each partly
    delivered order one child that carries what came back. */
module DeliveryChildren {
  import opened Outcomes
  import opened Tables
  import opened DeliveryEvents
  import opened Delivery
  import opened DeliveryInvariant
  import opened DeliverySettle
  import opened DeliveryClose
  import opened DeliveryCalls
  import opened DeliveryMoves
  import opened DeliveryHistories
  import opened DeliveryOrigins
  import opened DeliveryOutcomes

  /** What was stated as accepted of an order, and what had been sent of it, over the stop. */
  function StatedOf(s: State, accepted: map<int, Acceptance>, o: int): map<int, int> {
    map e | e in accepted && e in s.entries && s.entries[e].line in s.lines && s.lines[s.entries[e].line].order == o
      :: accepted[e].delivered
  }

  function SentOf(s: State, accepted: map<int, Acceptance>, o: int): map<int, int> {
    map e | e in accepted && e in s.entries && s.entries[e].line in s.lines && s.lines[s.entries[e].line].order == o
      :: s.entries[e].sent
  }

  predicate AtTheStop(s: State, accepted: map<int, Acceptance>, o: int) {
    exists e :: e in accepted && e in s.entries && s.entries[e].line in s.lines && s.lines[s.entries[e].line].order == o
  }

  lemma SumsStated(s: State, accepted: map<int, Acceptance>, o: int)
    ensures var entries := SettledEntries(s.entries, accepted);
            && OfOrder(s, entries, accepted.Keys, o, Accepted) == Total(StatedOf(s, accepted, o))
            && OfOrder(s, entries, accepted.Keys, o, Sent) == Total(SentOf(s, accepted, o))
  {
    var entries := SettledEntries(s.entries, accepted);
    var a, b := OrderColumn(s, entries, accepted.Keys, o, Accepted), StatedOf(s, accepted, o);
    forall e | e in a && e in b ensures a[e] == b[e] {
      assert a[e] == Amount(entries[e], Accepted) && entries[e] == SettledEntry(s.entries[e], accepted[e].delivered);
    }
    SameStops(s, accepted, o);
    TotalSame(a, b);
    var c, d := OrderColumn(s, entries, accepted.Keys, o, Sent), SentOf(s, accepted, o);
    forall e | e in c && e in d ensures c[e] == d[e] {
      assert c[e] == Amount(entries[e], Sent) && entries[e] == SettledEntry(s.entries[e], accepted[e].delivered);
    }
    TotalSame(c, d);
  }

  lemma SameStops(s: State, accepted: map<int, Acceptance>, o: int)
    ensures forall figure ::
              OrderColumn(s, SettledEntries(s.entries, accepted), accepted.Keys, o, figure).Keys == StatedOf(s, accepted, o).Keys
    ensures SentOf(s, accepted, o).Keys == StatedOf(s, accepted, o).Keys
  {
    var entries, stated := SettledEntries(s.entries, accepted), StatedOf(s, accepted, o);
    forall figure ensures OrderColumn(s, entries, accepted.Keys, o, figure).Keys == stated.Keys {
      var column := OrderColumn(s, entries, accepted.Keys, o, figure);
      forall e ensures e in column.Keys <==> e in stated.Keys {
        assert e in s.entries && e in accepted ==> entries[e] == SettledEntry(s.entries[e], accepted[e].delivered);
      }
      assert column.Keys == stated.Keys;
    }
  }

  lemma ClosedOrders(s: State, setup: Setup, trip: int, stop: int, accepted: map<int, Acceptance>, proof: bool)
    requires Inv(s, setup) && CloseStop(s, setup, trip, stop, accepted, proof).Ok?
    ensures accepted.Keys <= s.entries.Keys && OnKnownLines(s, accepted.Keys)
    ensures var t := CloseStop(s, setup, trip, stop, accepted, proof).value;
            forall o :: o in s.orders ==>
              && o in t.orders
              && (o in OrdersOf(s, accepted.Keys) ==>
                    t.orders[o].status == Target(s, SettledEntries(s.entries, accepted), accepted.Keys, o))
              && (o !in OrdersOf(s, accepted.Keys) ==> t.orders[o] == s.orders[o])
  {
    ClosingIs(s, setup, trip, stop, accepted, proof);
    var t := CloseStop(s, setup, trip, stop, accepted, proof).value;
    var m, carried, ids := Closing(s, setup, trip, stop, accepted, proof);
    SplitsOf(m, t, carried, ids);
    SettledOrdersStay(s, m, t, ids, accepted.Keys);
  }

  lemma SettledOrdersStay(s: State, m: State, t: State, ids: map<int, int>, some: set<int>)
    requires OnKnownLines(s, some) && OrdersSettle(s, m, OrdersOf(s, some), some) && Bears(m.orders, t.orders, ids)
    ensures forall o :: o in s.orders ==>
              && o in t.orders
              && (o in OrdersOf(s, some) ==> t.orders[o].status == Target(s, m.entries, some, o))
              && (o !in OrdersOf(s, some) ==> t.orders[o] == s.orders[o])
  {
  }

  lemma AtTheStopIs(s: State, accepted: map<int, Acceptance>, o: int)
    requires OnKnownLines(s, accepted.Keys)
    ensures AtTheStop(s, accepted, o) <==> o in OrdersOf(s, accepted.Keys)
  {
  }

  /** A closed stop settles each of its orders by all that was taken of it there: delivered when that is all that was
      sent, failed when it is nothing, partly delivered otherwise; other orders stay as they were. */
  lemma ClosingSettlesOrders(s: State, setup: Setup, trip: int, stop: int, accepted: map<int, Acceptance>, proof: bool, o: int)
    requires Inv(s, setup) && CloseStop(s, setup, trip, stop, accepted, proof).Ok? && o in s.orders
    ensures var t := CloseStop(s, setup, trip, stop, accepted, proof).value;
            var taken, sent := Total(StatedOf(s, accepted, o)), Total(SentOf(s, accepted, o));
            && o in t.orders
            && (!AtTheStop(s, accepted, o) ==> t.orders[o] == s.orders[o])
            && (AtTheStop(s, accepted, o) ==>
                  t.orders[o].status == if taken == sent then Delivered else if taken == 0 then Failed else PartiallyDelivered)
  {
    ClosedOrders(s, setup, trip, stop, accepted, proof);
    AtTheStopIs(s, accepted, o);
    SumsStated(s, accepted, o);
  }

  /** The stop came out as its orders did: delivered when all of them are, failed when there are some and all failed,
      and otherwise partly delivered; the other stops are as they were. */
  ghost predicate StopTells(s: State, t: State, stop: int, accepted: map<int, Acceptance>) {
    && stop in t.stops && t.stops[stop].outcome != StopPending
    && (t.stops[stop].outcome == StopDelivered <==>
          forall o :: o in t.orders && AtTheStop(s, accepted, o) ==> t.orders[o].status == Delivered)
    && (t.stops[stop].outcome == StopFailed <==>
          accepted.Keys != {} && forall o :: o in t.orders && AtTheStop(s, accepted, o) ==> t.orders[o].status == Failed)
    && (forall p :: p in s.stops && p != stop ==> p in t.stops && t.stops[p] == s.stops[p])
  }

  /** And the stop by its orders. */
  lemma ClosingSettlesTheStop(s: State, setup: Setup, trip: int, stop: int, accepted: map<int, Acceptance>, proof: bool)
    requires Inv(s, setup) && CloseStop(s, setup, trip, stop, accepted, proof).Ok?
    ensures StopTells(s, CloseStop(s, setup, trip, stop, accepted, proof).value, stop, accepted)
  {
    var t := CloseStop(s, setup, trip, stop, accepted, proof).value;
    ClosingStops(s, setup, trip, stop, accepted, proof);
    ClosedOrders(s, setup, trip, stop, accepted, proof);
    StopAfter(s, t, setup, stop, accepted);
  }

  lemma StopAfter(s: State, t: State, setup: Setup, stop: int, accepted: map<int, Acceptance>)
    requires TablesOk(s, setup) && accepted.Keys <= s.entries.Keys && OnKnownLines(s, accepted.Keys) && stop in s.stops
    requires t.stops == s.stops[stop := s.stops[stop].(outcome := StopResult(s, SettledEntries(s.entries, accepted), accepted.Keys))]
    requires forall o :: o in s.orders && o in OrdersOf(s, accepted.Keys) ==>
               o in t.orders && t.orders[o].status == Target(s, SettledEntries(s.entries, accepted), accepted.Keys, o)
    ensures StopTells(s, t, stop, accepted)
  {
    forall o | o in OrdersOf(s, accepted.Keys) ensures o in s.orders && o in t.orders {
      AtStopKnown(s, setup, accepted, o);
    }
    StopIsItsOrders(s, SettledEntries(s.entries, accepted), t.orders, accepted.Keys);
    OutcomeByOrders(s, t.orders, accepted, t.stops[stop].outcome);
  }

  lemma OutcomeByOrders(s: State, orders: map<int, Order>, accepted: map<int, Acceptance>, outcome: StopOutcome)
    requires OnKnownLines(s, accepted.Keys) && OrdersOf(s, accepted.Keys) <= orders.Keys
    requires outcome == StopDelivered <==> forall o :: o in OrdersOf(s, accepted.Keys) ==> orders[o].status == Delivered
    requires outcome == StopFailed <==>
               OrdersOf(s, accepted.Keys) != {} && forall o :: o in OrdersOf(s, accepted.Keys) ==> orders[o].status == Failed
    ensures outcome == StopDelivered <==> forall o :: o in orders && AtTheStop(s, accepted, o) ==> orders[o].status == Delivered
    ensures outcome == StopFailed <==>
              accepted.Keys != {} && forall o :: o in orders && AtTheStop(s, accepted, o) ==> orders[o].status == Failed
  {
    forall o ensures AtTheStop(s, accepted, o) <==> o in OrdersOf(s, accepted.Keys) {
      AtTheStopIs(s, accepted, o);
    }
    if accepted.Keys != {} {
      var e := AnyOf(accepted.Keys);
      assert s.lines[s.entries[e].line].order in OrdersOf(s, accepted.Keys);
    }
  }

  lemma AtStopKnown(s: State, setup: Setup, accepted: map<int, Acceptance>, o: int)
    requires TablesOk(s, setup) && OnKnownLines(s, accepted.Keys) && o in OrdersOf(s, accepted.Keys)
    ensures o in s.orders
  {
    var e :| e in accepted && s.lines[s.entries[e].line].order == o;
    assert EntryOk(s, setup, e);
  }

  lemma StopIsItsOrders(s: State, entries: map<int, Entry>, orders: map<int, Order>, some: set<int>)
    requires OnKnownLines(s, some)
    requires forall o :: o in OrdersOf(s, some) ==> o in orders && orders[o].status == Target(s, entries, some, o)
    ensures var seen, outcome := OrdersOf(s, some), StopResult(s, entries, some);
            && (outcome == StopDelivered <==> forall o :: o in seen ==> orders[o].status == Delivered)
            && (outcome == StopFailed <==> seen != {} && forall o :: o in seen ==> orders[o].status == Failed)
            && outcome != StopPending
  {
    var seen := OrdersOf(s, some);
    if seen != {} {
      var o := AnyOf(seen);
      assert o in seen;
    }
  }

  // ----- children

  /** The line carries what came back of an entry, untouched, for a new order that names the entry's as its parent. */
  predicate CarriesBack(s: State, t: State, accepted: map<int, Acceptance>, e: int, l: int)
    requires e in accepted && e in s.entries && s.entries[e].line in s.lines && l in t.lines
  {
    var was, line := s.lines[s.entries[e].line], t.lines[l];
    && line.order in t.orders && line.order !in s.orders && t.orders[line.order].parent == Some(was.order)
    && t.orders[line.order].status == InPreparation
    && line == Line(line.order, was.salesLine, was.product, was.warehouse, s.entries[e].sent - accepted[e].delivered, 0, 0, 0)
  }

  /** Entries of which something came back, of orders partly delivered. */
  function CameBack(s: State, t: State, accepted: map<int, Acceptance>): set<int> {
    set e | e in accepted && e in s.entries && s.entries[e].sent > accepted[e].delivered && s.entries[e].line in s.lines
            && s.lines[s.entries[e].line].order in t.orders && t.orders[s.lines[s.entries[e].line].order].status == PartiallyDelivered
  }

  lemma {:induction false} RemaindersAreMore(s: State, children: map<int, int>, carried: seq<int>)
    requires Carriable(s, children, carried)
    ensures |AddRemainders(s, children, carried)| == |s.lines| + |carried|
  {
    if carried != [] {
      RemaindersAreMore(s, children, carried[..|carried| - 1]);
      OneMoreLine(AddRemainders(s, children, carried[..|carried| - 1]), ChildLine(s, children, carried[|carried| - 1]));
    }
  }

  lemma OneMoreLine(lines: map<int, Line>, line: Line)
    ensures |lines[NextId(lines) := line]| == |lines| + 1
  {
    assert lines[NextId(lines) := line].Keys == lines.Keys + {NextId(lines)} && NextId(lines) !in lines;
  }

  predicate IsNew(before: map<int, Line>, lines: map<int, Line>, line: Line) {
    exists l :: l in lines && l !in before && lines[l] == line
  }

  lemma {:induction false} EachIsCarried(s: State, children: map<int, int>, carried: seq<int>, e: int)
    requires Carriable(s, children, carried) && e in carried
    ensures IsNew(s.lines, AddRemainders(s, children, carried), ChildLine(s, children, e))
  {
    var rest, last := carried[..|carried| - 1], carried[|carried| - 1];
    RemaindersAdd(s, children, rest);
    var earlier, lines := AddRemainders(s, children, rest), AddRemainders(s, children, carried);
    if e == last {
      assert lines[NextId(earlier)] == ChildLine(s, children, e);
    } else {
      EachIsCarried(s, children, rest, e);
      var l :| l in earlier && l !in s.lines && earlier[l] == ChildLine(s, children, e);
      assert lines[l] == ChildLine(s, children, e);
    }
  }

  lemma {:induction false} NewIsCarried(s: State, children: map<int, int>, carried: seq<int>, l: int) returns (e: int)
    requires Carriable(s, children, carried) && l in AddRemainders(s, children, carried) && l !in s.lines
    ensures e in carried && AddRemainders(s, children, carried)[l] == ChildLine(s, children, e)
  {
    var rest, last := carried[..|carried| - 1], carried[|carried| - 1];
    if l == NextId(AddRemainders(s, children, rest)) {
      e := last;
    } else {
      e := NewIsCarried(s, children, rest, l);
    }
  }

  lemma {:induction false} ChildIdsAt(first: int, parents: seq<int>, i: nat)
    requires Increasing(parents) && i < |parents|
    ensures parents[i] in ChildIds(first, parents) && ChildIds(first, parents)[parents[i]] == first + i
  {
    if i < |parents| - 1 {
      ChildIdsAt(first, parents[..|parents| - 1], i);
    }
  }

  predicate NamesParent(order: Order, o: int) {
    order.parent == Some(o) && order.status == InPreparation
  }

  lemma {:induction false} ChildrenAt(orders: map<int, Order>, first: int, parents: seq<int>, children: map<int, Order>)
    requires forall o :: o in orders ==> o < first
    requires forall o :: o in parents ==> o in children && NamesParent(children[o], o)
    ensures var after := AddChildren(orders, first, parents, children);
            && (forall k :: k in after <==> k in orders || first <= k < first + |parents|)
            && (forall o :: o in orders ==> after[o] == orders[o])
            && (forall k :: first <= k < first + |parents| ==> NamesParent(after[k], parents[k - first]))
  {
    if parents != [] {
      var rest, last := parents[..|parents| - 1], parents[|parents| - 1];
      assert last in parents;
      ChildrenAt(orders, first, rest, children);
    }
  }

  /** One new order for each of the parents, which names it. */
  ghost predicate OneEach(orders: map<int, Order>, after: map<int, Order>, parents: set<int>, ids: map<int, int>) {
    && (forall o :: o in parents ==> o in ids && ids[o] in after && ids[o] !in orders && NamesParent(after[ids[o]], o))
    && (forall k :: k in after && k !in orders ==> OnlyChild(k, after[k], parents, ids))
  }

  predicate OnlyChild(k: int, child: Order, parents: set<int>, ids: map<int, int>) {
    child.parent.Some? && child.parent.value in parents && child.parent.value in ids && ids[child.parent.value] == k
    && child.status == InPreparation
  }

  lemma SplitOneEach(m: State, parents: set<int>, carried: set<int>)
    requires parents <= m.orders.Keys
    requires forall e :: e in carried ==> e in m.entries && m.entries[e].line in m.lines && m.lines[m.entries[e].line].order in parents
    requires Split(m, parents, carried).Ok?
    ensures OneEach(m.orders, Split(m, parents, carried).value.orders, parents, ChildIds(NextId(m.orders), Ascending(parents)))
  {
    SplitOrders(m, parents, carried);
    ChildrenName(m.orders, parents);
    ChildrenOneEach(m.orders, NextId(m.orders), parents, Ascending(parents), ChildrenOf(m.orders, parents));
  }

  lemma SplitOrders(m: State, parents: set<int>, carried: set<int>)
    requires parents <= m.orders.Keys
    requires forall e :: e in carried ==> e in m.entries && m.entries[e].line in m.lines && m.lines[m.entries[e].line].order in parents
    requires Split(m, parents, carried).Ok?
    ensures CanSplit(m.orders, parents)
    ensures Split(m, parents, carried).value.orders
         == AddChildren(m.orders, NextId(m.orders), Ascending(parents), ChildrenOf(m.orders, parents))
  {
  }

  lemma ChildrenName(orders: map<int, Order>, parents: set<int>)
    requires CanSplit(orders, parents)
    ensures forall o :: o in parents ==> NamesParent(ChildrenOf(orders, parents)[o], o)
  {
    forall o | o in parents ensures NamesParent(ChildrenOf(orders, parents)[o], o) {
      assert ChildOf(o, orders[o]).Ok?;
    }
  }

  lemma ChildrenOneEach(orders: map<int, Order>, first: int, parents: set<int>, list: seq<int>, children: map<int, Order>)
    requires list == Ascending(parents) && forall o :: o in orders ==> o < first
    requires forall o :: o in list ==> o in children && NamesParent(children[o], o)
    ensures OneEach(orders, AddChildren(orders, first, list, children), parents, ChildIds(first, list))
  {
    ChildrenAt(orders, first, list, children);
    var after, ids := AddChildren(orders, first, list, children), ChildIds(first, list);
    forall i: nat | i < |list| ensures list[i] in ids && ids[list[i]] == first + i {
      ChildIdsAt(first, list, i);
    }
    EachOne(orders, after, first, parents, list, ids);
  }

  lemma EachOne(orders: map<int, Order>, after: map<int, Order>, first: int, parents: set<int>, list: seq<int>, ids: map<int, int>)
    requires (forall o :: o in orders ==> o < first) && forall o :: o in list <==> o in parents
    requires forall k :: k in after <==> k in orders || first <= k < first + |list|
    requires forall k :: first <= k < first + |list| ==> NamesParent(after[k], list[k - first])
    requires forall i :: 0 <= i < |list| ==> list[i] in ids && ids[list[i]] == first + i
    ensures OneEach(orders, after, parents, ids)
  {
    forall o | o in parents ensures o in ids && ids[o] in after && ids[o] !in orders && NamesParent(after[ids[o]], o) {
      var i :| 0 <= i < |list| && list[i] == o;
      assert ids[list[i]] == first + i && NamesParent(after[first + i], list[first + i - first]);
    }
    forall k | k in after && k !in orders ensures OnlyChild(k, after[k], parents, ids) {
      assert NamesParent(after[k], list[k - first]) && list[k - first] in list && ids[list[k - first]] == k;
    }
  }

  // ----- a close and its children

  /** Every entry of which something came back, of an order partly delivered, has its line on that order's child, and
      there are no more new lines than such entries; every order partly delivered at the stop has one child, and there
      is no other new order. */
  ghost predicate CarriedBack(s: State, t: State, accepted: map<int, Acceptance>) {
    && |t.lines| == |s.lines| + |CameBack(s, t, accepted)|
    && (forall e :: e in CameBack(s, t, accepted) ==> HasItsLine(s, t, accepted, e))
    && (forall l :: l in t.lines && l !in s.lines ==> HasItsEntry(s, t, accepted, l))
    && (forall o :: o in t.orders && o in s.orders && AtTheStop(s, accepted, o) && t.orders[o].status == PartiallyDelivered ==>
          HasOneChild(s, t, o))
    && (forall k :: k in t.orders && k !in s.orders ==>
          && t.orders[k].parent.Some? && t.orders[k].parent.value in s.orders
          && AtTheStop(s, accepted, t.orders[k].parent.value)
          && t.orders[k].parent.value in t.orders && t.orders[t.orders[k].parent.value].status == PartiallyDelivered)
  }

  predicate HasItsLine(s: State, t: State, accepted: map<int, Acceptance>, e: int)
    requires e in accepted && e in s.entries && s.entries[e].line in s.lines
  {
    exists l :: l in t.lines && l !in s.lines && CarriesBack(s, t, accepted, e, l)
  }

  predicate HasItsEntry(s: State, t: State, accepted: map<int, Acceptance>, l: int)
    requires l in t.lines
  {
    exists e :: e in CameBack(s, t, accepted) && CarriesBack(s, t, accepted, e, l)
  }

  predicate ChildIn(s: State, t: State, o: int, k: int) {
    k in t.orders && k !in s.orders && t.orders[k].parent == Some(o)
  }

  ghost predicate HasOneChild(s: State, t: State, o: int) {
    exists k :: ChildIn(s, t, o, k) && forall j :: ChildIn(s, t, o, j) ==> j == k
  }

  /** What is carried over is what came back of orders partly delivered. */
  lemma CarriedCameBack(s: State, t: State, accepted: map<int, Acceptance>)
    requires accepted.Keys <= s.entries.Keys && OnKnownLines(s, accepted.Keys)
    requires forall o :: o in OrdersOf(s, accepted.Keys) ==>
               o in t.orders && t.orders[o].status == Target(s, SettledEntries(s.entries, accepted), accepted.Keys, o)
    ensures CameBack(s, t, accepted) == Carried(s, accepted)
  {
    var entries := SettledEntries(s.entries, accepted);
    forall e ensures e in CameBack(s, t, accepted) <==> e in Carried(s, accepted) {
      if e in accepted {
        assert entries[e] == SettledEntry(s.entries[e], accepted[e].delivered);
        assert s.lines[s.entries[e].line].order in OrdersOf(s, accepted.Keys);
      }
    }
  }

  /** An order partly delivered has something to carry over. */
  lemma PartialCarries(s: State, m: State, accepted: map<int, Acceptance>, o: int)
    requires OnKnownLines(s, accepted.Keys) && EntriesSettle(s, m, accepted.Keys) && m.entries == SettledEntries(s.entries, accepted)
    requires o in Partial(s, m.entries, accepted.Keys)
    ensures o in OrdersOf(s, Remainder(s, m.entries, accepted.Keys))
  {
    OrderSums(s, m, accepted.Keys, o);
    var back := OrderColumn(s, m.entries, accepted.Keys, o, Returned);
    var e := TotalPositive(back);
    assert back[e] == Amount(m.entries[e], Returned);
    assert EntrySettles(s.entries[e], m.entries[e]);
    assert e in Remainder(s, m.entries, accepted.Keys);
  }

  /** What the assembly below uses of a close. */
  ghost predicate Carries(s: State, m: State, t: State, accepted: map<int, Acceptance>, carried: set<int>, ids: map<int, int>) {
    && OnKnownLines(s, accepted.Keys) && m.entries == SettledEntries(s.entries, accepted)
    && EntriesSettle(s, m, accepted.Keys) && LinesSettle(s, m, accepted.Keys) && m.orders.Keys == s.orders.Keys
    && carried == Remainder(s, m.entries, accepted.Keys) && Splits(m, t, carried, ids)
    && OnKnownLines(s, carried) && OneEach(m.orders, t.orders, OrdersOf(s, carried), ids)
    && CameBack(s, t, accepted) == carried
  }

  lemma ChildLineCarries(s: State, m: State, t: State, accepted: map<int, Acceptance>, carried: set<int>, ids: map<int, int>, e: int, l: int)
    requires Carries(s, m, t, accepted, carried, ids) && e in carried && l in t.lines
    requires Carriable(m, ids, Ascending(carried)) && e in Ascending(carried) && t.lines[l] == ChildLine(m, ids, e)
    ensures CarriesBack(s, t, accepted, e, l)
  {
    assert EntrySettles(s.entries[e], m.entries[e]);
    assert m.entries[e] == SettledEntry(s.entries[e], accepted[e].delivered);
    SettledSame(s, m, accepted.Keys, s.entries[e].line);
    var o := s.lines[s.entries[e].line].order;
    assert o in OrdersOf(s, carried);
    assert NamesParent(t.orders[ids[o]], o);
  }

  lemma SettledSame(s: State, m: State, some: set<int>, l: int)
    requires LinesSettle(s, m, some) && l in s.lines
    ensures l in m.lines && m.lines[l].order == s.lines[l].order && m.lines[l].salesLine == s.lines[l].salesLine
    ensures m.lines[l].product == s.lines[l].product && m.lines[l].warehouse == s.lines[l].warehouse
  {
  }

  lemma LinesCarry(s: State, m: State, t: State, accepted: map<int, Acceptance>, carried: set<int>, ids: map<int, int>)
    requires Carries(s, m, t, accepted, carried, ids)
    ensures |t.lines| == |s.lines| + |carried|
    ensures forall e :: e in CameBack(s, t, accepted) ==> HasItsLine(s, t, accepted, e)
    ensures forall l :: l in t.lines && l !in s.lines ==> HasItsEntry(s, t, accepted, l)
  {
    SplitsOf(m, t, carried, ids);
    var list := Ascending(carried);
    RemaindersAreMore(m, ids, list);
    RemaindersAdd(m, ids, list);
    assert m.lines.Keys == s.lines.Keys && |m.lines.Keys| == |s.lines.Keys|;
    forall e | e in CameBack(s, t, accepted) ensures HasItsLine(s, t, accepted, e) {
      EachIsCarried(m, ids, list, e);
      var l :| l in t.lines && l !in m.lines && t.lines[l] == ChildLine(m, ids, e);
      ChildLineCarries(s, m, t, accepted, carried, ids, e, l);
    }
    forall l | l in t.lines && l !in s.lines ensures HasItsEntry(s, t, accepted, l) {
      var e := NewIsCarried(m, ids, list, l);
      ChildLineCarries(s, m, t, accepted, carried, ids, e, l);
    }
  }

  lemma OrdersCarry(s: State, m: State, t: State, accepted: map<int, Acceptance>, carried: set<int>, ids: map<int, int>, o: int)
    requires Carries(s, m, t, accepted, carried, ids) && o in OrdersOf(s, carried)
    ensures HasOneChild(s, t, o)
  {
    assert NamesParent(t.orders[ids[o]], o);
    forall j | ChildIn(s, t, o, j) ensures j == ids[o] {
      assert OnlyChild(j, t.orders[j], OrdersOf(s, carried), ids);
    }
    assert ChildIn(s, t, o, ids[o]);
  }

  lemma NewOrdersCarry(s: State, m: State, t: State, setup: Setup, accepted: map<int, Acceptance>, carried: set<int>, ids: map<int, int>, k: int)
    requires TablesOk(s, setup) && Carries(s, m, t, accepted, carried, ids) && k in t.orders && k !in s.orders
    requires forall o :: o in s.orders ==>
               && o in t.orders
               && (o in OrdersOf(s, accepted.Keys) ==> t.orders[o].status == Target(s, m.entries, accepted.Keys, o))
    ensures t.orders[k].parent.Some?
    ensures var o := t.orders[k].parent.value;
            o in s.orders && AtTheStop(s, accepted, o) && o in t.orders && t.orders[o].status == PartiallyDelivered
  {
    assert OnlyChild(k, t.orders[k], OrdersOf(s, carried), ids);
    var o := t.orders[k].parent.value;
    var e :| e in carried && s.lines[s.entries[e].line].order == o;
    assert EntryOk(s, setup, e);
    assert o in OrdersOf(s, accepted.Keys);
  }

  lemma ClosingShape(s: State, setup: Setup, trip: int, stop: int, accepted: map<int, Acceptance>, proof: bool)
    returns (m: State, carried: set<int>, ids: map<int, int>)
    requires Inv(s, setup) && CloseStop(s, setup, trip, stop, accepted, proof).Ok?
    ensures Settles(s, m, setup, trip, stop, accepted.Keys) && m.entries == SettledEntries(s.entries, accepted)
    ensures carried == Remainder(s, m.entries, accepted.Keys) && OnKnownLines(s, carried)
    ensures Splits(m, CloseStop(s, setup, trip, stop, accepted, proof).value, carried, ids)
    ensures OneEach(m.orders, CloseStop(s, setup, trip, stop, accepted, proof).value.orders, OrdersOf(s, carried), ids)
  {
    ClosingIs(s, setup, trip, stop, accepted, proof);
    CloseSplits(s, setup, trip, stop, accepted, proof);
    m, carried := Settled(s, setup, trip, stop, accepted), Carried(s, accepted);
    SettledSettles(s, m, setup, trip, stop, accepted);
    ids := ChildIds(NextId(m.orders), Ascending(OrdersOf(s, carried)));
    SplitParts(m, CloseStop(s, setup, trip, stop, accepted, proof).value, OrdersOf(s, carried), carried);
    SplitOneEach(m, OrdersOf(s, carried), carried);
  }

  /** After a close, what came back of each entry of a partly delivered order is one untouched line, of the same goods,
      on the one child of that order, which waits in preparation; nothing else is new. */
  lemma ClosingCarriesBack(s: State, setup: Setup, trip: int, stop: int, accepted: map<int, Acceptance>, proof: bool)
    requires Inv(s, setup) && CloseStop(s, setup, trip, stop, accepted, proof).Ok?
    ensures CarriedBack(s, CloseStop(s, setup, trip, stop, accepted, proof).value, accepted)
  {
    var m, carried, ids := ClosingShape(s, setup, trip, stop, accepted, proof);
    var t := CloseStop(s, setup, trip, stop, accepted, proof).value;
    ClosedOrders(s, setup, trip, stop, accepted, proof);
    ShapeCarries(s, m, t, setup, trip, stop, accepted, carried, ids);
    CarriesAll(s, m, t, setup, accepted, carried, ids);
  }

  lemma ShapeCarries(s: State, m: State, t: State, setup: Setup, trip: int, stop: int, accepted: map<int, Acceptance>,
                     carried: set<int>, ids: map<int, int>)
    requires TablesOk(s, setup) && Settles(s, m, setup, trip, stop, accepted.Keys) && m.entries == SettledEntries(s.entries, accepted)
    requires carried == Remainder(s, m.entries, accepted.Keys) && Splits(m, t, carried, ids)
    requires OnKnownLines(s, carried) && OneEach(m.orders, t.orders, OrdersOf(s, carried), ids)
    requires forall o :: o in s.orders ==>
               && o in t.orders
               && (o in OrdersOf(s, accepted.Keys) ==> t.orders[o].status == Target(s, m.entries, accepted.Keys, o))
    ensures Carries(s, m, t, accepted, carried, ids)
  {
    forall o | o in OrdersOf(s, accepted.Keys) ensures o in s.orders {
      AtStopKnown(s, setup, accepted, o);
    }
    CarriedCameBack(s, t, accepted);
  }

  lemma CarriesAll(s: State, m: State, t: State, setup: Setup, accepted: map<int, Acceptance>, carried: set<int>, ids: map<int, int>)
    requires TablesOk(s, setup) && Carries(s, m, t, accepted, carried, ids)
    requires forall o :: o in s.orders ==>
               && o in t.orders
               && (o in OrdersOf(s, accepted.Keys) ==> t.orders[o].status == Target(s, m.entries, accepted.Keys, o))
    ensures CarriedBack(s, t, accepted)
  {
    LinesCarry(s, m, t, accepted, carried, ids);
    forall o | o in t.orders && o in s.orders && AtTheStop(s, accepted, o) && t.orders[o].status == PartiallyDelivered
      ensures HasOneChild(s, t, o)
    {
      AtTheStopIs(s, accepted, o);
      PartialCarries(s, m, accepted, o);
      OrdersCarry(s, m, t, accepted, carried, ids, o);
    }
    forall k | k in t.orders && k !in s.orders
      ensures && t.orders[k].parent.Some? && t.orders[k].parent.value in s.orders
              && AtTheStop(s, accepted, t.orders[k].parent.value)
              && t.orders[k].parent.value in t.orders && t.orders[t.orders[k].parent.value].status == PartiallyDelivered
    {
      NewOrdersCarry(s, m, t, setup, accepted, carried, ids, k);
    }
  }

  // ----- the children's serials

  predicate SerialBefore(orders: map<int, Order>, k: int, facility: int, serial: int) {
    exists p :: p in orders && p < k && orders[p].facility == facility && orders[p].serial == Some(serial)
  }

  /** The order has the serial after the highest of the orders before it at its facility, or the first. */
  predicate NextSerial(orders: map<int, Order>, k: int)
    requires k in orders
  {
    && orders[k].serial.Some?
    && (forall p :: p in orders && p < k && orders[p].facility == orders[k].facility && orders[p].serial.Some? ==>
          orders[p].serial.value < orders[k].serial.value)
    && (orders[k].serial.value == 1 || SerialBefore(orders, k, orders[k].facility, orders[k].serial.value - 1))
  }

  lemma NextFolioFor(orders: map<int, Order>, id: int, order: Order)
    requires forall p :: p in orders ==> p < id
    ensures NextSerial(orders[id := Folioed(orders, order)], id)
  {
    var after, n := orders[id := Folioed(orders, order)], NextFolio(orders, order.facility);
    forall p | p in orders && orders[p].facility == order.facility && orders[p].serial.Some? ensures orders[p].serial.value < n {
      NextFolioIsAbove(orders, order.facility, p);
    }
    if Folios(orders, order.facility) != {} {
      var p :| p in orders && orders[p].facility == order.facility && orders[p].serial == Some(n - 1);
      assert after[p].serial == Some(n - 1);
    }
  }

  lemma SerialStays(orders: map<int, Order>, id: int, order: Order, k: int)
    requires k in orders && k < id && id !in orders && NextSerial(orders, k)
    ensures NextSerial(orders[id := order], k)
  {
    var after := orders[id := order];
    if orders[k].serial.value != 1 {
      var p :| p in orders && p < k && orders[p].facility == orders[k].facility && orders[p].serial == Some(orders[k].serial.value - 1);
      assert after[p].serial == orders[p].serial;
    }
  }

  lemma {:induction false} ChildrenSerials(orders: map<int, Order>, first: int, parents: seq<int>, children: map<int, Order>)
    requires (forall o :: o in orders ==> o < first) && forall o :: o in parents ==> o in children
    ensures var after := AddChildren(orders, first, parents, children);
            (forall k :: k in after ==> k < first + |parents|) && NewAreNext(orders, after)
  {
    if parents != [] {
      var rest, last := parents[..|parents| - 1], parents[|parents| - 1];
      assert last in parents;
      ChildrenSerials(orders, first, rest, children);
      var earlier, id := AddChildren(orders, first, rest, children), first + |parents| - 1;
      AllNextSerials(orders, earlier, id, children[last]);
    }
  }

  ghost predicate NewAreNext(orders: map<int, Order>, after: map<int, Order>) {
    forall k {:trigger NextSerial(after, k)} :: k in after && k !in orders ==> NextSerial(after, k)
  }

  lemma AllNextSerials(orders: map<int, Order>, earlier: map<int, Order>, id: int, child: Order)
    requires (forall k :: k in earlier ==> k < id) && NewAreNext(orders, earlier)
    ensures NewAreNext(orders, earlier[id := Folioed(earlier, child)])
  {
    NextFolioFor(earlier, id, child);
    forall k | k in earlier && k !in orders ensures NextSerial(earlier[id := Folioed(earlier, child)], k) {
      SerialStays(earlier, id, Folioed(earlier, child), k);
    }
  }

  /** Every child takes the next serial of its facility, one after another. */
  lemma ClosingNumbersChildren(s: State, setup: Setup, trip: int, stop: int, accepted: map<int, Acceptance>, proof: bool, k: int)
    requires Inv(s, setup) && CloseStop(s, setup, trip, stop, accepted, proof).Ok?
    requires k in CloseStop(s, setup, trip, stop, accepted, proof).value.orders && k !in s.orders
    ensures NextSerial(CloseStop(s, setup, trip, stop, accepted, proof).value.orders, k)
  {
    ClosingIs(s, setup, trip, stop, accepted, proof);
    CloseSplits(s, setup, trip, stop, accepted, proof);
    var m, carried := Settled(s, setup, trip, stop, accepted), Carried(s, accepted);
    SettledSettles(s, m, setup, trip, stop, accepted);
    SplitSerials(m, OrdersOf(s, carried), carried, k);
  }

  lemma SplitSerials(m: State, parents: set<int>, carried: set<int>, k: int)
    requires parents <= m.orders.Keys
    requires forall e :: e in carried ==> e in m.entries && m.entries[e].line in m.lines && m.lines[m.entries[e].line].order in parents
    requires Split(m, parents, carried).Ok? && k in Split(m, parents, carried).value.orders && k !in m.orders
    ensures NextSerial(Split(m, parents, carried).value.orders, k)
  {
    SplitOrders(m, parents, carried);
    ChildrenSerials(m.orders, NextId(m.orders), Ascending(parents), ChildrenOf(m.orders, parents));
  }
}
