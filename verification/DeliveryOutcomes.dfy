/** What statuses say: of an order, what was delivered and came back; of a stop, how its orders came out; of a trip,
    whether a stop is still to be made.  And what the children of a close carry. */
module DeliveryOutcomes {
  import opened Outcomes
  import opened Tables
  import opened DeliveryEvents
  import opened Delivery
  import opened DeliveryInvariant
  import opened DeliveryKeeps
  import opened DeliveryTravel
  import opened DeliveryDepart
  import opened DeliverySettle
  import opened DeliveryClose
  import opened DeliveryCalls
  import opened DeliveryMoves
  import opened DeliveryFinal
  import opened DeliveryHistories
  import opened DeliveryRuns

  // ----- trips

  predicate Awaiting(s: State, trip: int) {
    exists p :: p in s.stops && s.stops[p].trip == trip && s.stops[p].outcome == StopPending
  }

  ghost predicate TripsTell(s: State) {
    forall k :: k in s.trips && s.trips[k] == TripDeparted ==> Awaiting(s, k)
  }

  lemma OffTripsTell(s: State, setup: Setup, call: Call)
    requires Inv(s, setup) && TripsTell(s) && Bounded(call) && Answer(s, setup, call).Ok? && OffTrips(call)
    ensures TripsTell(After(s, setup, call))
  {
    var t := After(s, setup, call);
    CallMoves(s, setup, call);
    NoneLeaves(s, setup, call);
    StillAwaiting(s, t);
  }

  lemma NoneLeaves(s: State, setup: Setup, call: Call)
    requires Inv(s, setup) && Bounded(call) && Answer(s, setup, call).Ok? && OffTrips(call)
    ensures forall k :: k in After(s, setup, call).trips && k !in s.trips ==> After(s, setup, call).trips[k] == TripOpen
  {
    if call.Raise? {
      Raising(s, setup, call.sale, KindOf(setup, call.sale, call.given, call.shipTo), call.requested);
    } else if !OfTrips(call) {
      TripsStay(s, setup, call);
    }
  }

  lemma TripsStay(s: State, setup: Setup, call: Call)
    requires Answer(s, setup, call).Ok? && !OfTrips(call) && !call.Raise?
    ensures After(s, setup, call).trips == s.trips
  {
  }

  /** A draft is added, and nothing on trips changes. */
  lemma Raising(s: State, setup: Setup, sale: int, kind: Fulfillment, requested: Option<seq<Request>>)
    requires Create(s, setup, sale, kind, requested).Ok?
    requires requested.Some? ==> forall r :: r in requested.value ==> r.quantity > 0
    requires Inv(s, setup)
    ensures var t := Create(s, setup, sale, kind, requested).value;
            && t.trips == s.trips && NextId(s.orders) in t.orders && t.orders[NextId(s.orders)].status == Draft
            && t.orders == s.orders[NextId(s.orders) := t.orders[NextId(s.orders)]]
  {
    var t := Create(s, setup, sale, kind, requested).value;
    var facility, order, chosen := CreateParts(s, t, setup, sale, kind, requested);
    ChosenNotNegative(Deliverable(s, setup, sale), requested);
    AddLinesGrow(s.(orders := s.orders[NextId(s.orders) := order]), setup, NextId(s.orders), facility, chosen);
  }

  lemma StillAwaiting(s: State, t: State)
    requires TripsTell(s) && SameTravel(s, t) && forall k :: k in t.trips && k !in s.trips ==> t.trips[k] == TripOpen
    ensures TripsTell(t)
  {
    forall k | k in t.trips && t.trips[k] == TripDeparted ensures Awaiting(t, k) {
      var p :| p in s.stops && s.stops[p].trip == k && s.stops[p].outcome == StopPending;
      assert t.stops[p] == s.stops[p];
    }
  }

  lemma LeavingTells(s: State, setup: Setup, trip: int)
    requires TablesOk(s, setup) && TripsTell(s) && Depart(s, setup, trip).Ok?
    ensures TripsTell(Depart(s, setup, trip).value)
  {
    var t, some := Depart(s, setup, trip).value, Departing(s, trip);
    DepartParts(s, t, setup, trip, some);
    LeavesWithSome(s, setup, trip);
    var e :| e in some;
    assert StopOk(s, s.entries[e].stop);
    LeftAwaits(s, t, trip, s.entries[e].stop);
  }

  lemma LeftAwaits(s: State, t: State, trip: int, p: int)
    requires TripsTell(s) && t.stops == s.stops && t.trips == s.trips[trip := TripDeparted]
    requires p in s.stops && s.stops[p].trip == trip && s.stops[p].outcome == StopPending
    ensures TripsTell(t)
  {
    assert Awaiting(t, trip);
    forall k | k in t.trips && t.trips[k] == TripDeparted && k != trip ensures Awaiting(t, k) {
      assert Awaiting(s, k);
    }
  }

  lemma LeavesWithSome(s: State, setup: Setup, trip: int)
    requires Depart(s, setup, trip).Ok?
    ensures exists e :: e in Departing(s, trip) && s.entries[e].committed > 0
  {
  }

  lemma ClosingIs(s: State, setup: Setup, trip: int, stop: int, accepted: map<int, Acceptance>, proof: bool)
    requires CloseStop(s, setup, trip, stop, accepted, proof).Ok?
    ensures Closable(s, setup, trip, stop, accepted)
  {
    RefusalRefuses(s, setup, trip, stop, accepted, proof);
    UnsettledRefuses(s, setup, trip, stop, accepted, proof);
  }

  lemma ClosingStops(s: State, setup: Setup, trip: int, stop: int, accepted: map<int, Acceptance>, proof: bool)
    requires CloseStop(s, setup, trip, stop, accepted, proof).Ok?
    ensures Closable(s, setup, trip, stop, accepted)
    ensures var t := CloseStop(s, setup, trip, stop, accepted, proof).value;
            && t.trips == TripAfter(s, trip, stop)
            && t.stops == s.stops[stop := s.stops[stop].(outcome := StopResult(s, SettledEntries(s.entries, accepted), accepted.Keys))]
            && t.entries == SettledEntries(s.entries, accepted)
  {
    ClosingIs(s, setup, trip, stop, accepted, proof);
    CloseSplits(s, setup, trip, stop, accepted, proof);
  }

  lemma ClosingTells(s: State, setup: Setup, trip: int, stop: int, accepted: map<int, Acceptance>, proof: bool)
    requires TablesOk(s, setup) && TripsTell(s) && CloseStop(s, setup, trip, stop, accepted, proof).Ok?
    ensures TripsTell(CloseStop(s, setup, trip, stop, accepted, proof).value)
  {
    var t := CloseStop(s, setup, trip, stop, accepted, proof).value;
    ClosingStops(s, setup, trip, stop, accepted, proof);
    AwaitedAfter(s, t, trip, stop);
  }

  lemma AwaitedAfter(s: State, t: State, trip: int, stop: int)
    requires TripsTell(s) && trip in s.trips && t.trips == TripAfter(s, trip, stop) && stop in StopsOf(s, trip) && stop in t.stops
    requires t.stops == s.stops[stop := t.stops[stop]]
    ensures TripsTell(t)
  {
    forall k | k in t.trips && t.trips[k] == TripDeparted ensures Awaiting(t, k) {
      assert k in s.trips;
      if k == trip {
        var p :| p in StopsOf(s, trip) && p != stop && s.stops[p].outcome == StopPending;
        assert p in t.stops && t.stops[p] == s.stops[p];
      } else {
        assert s.trips[k] == TripDeparted;
        var p :| p in s.stops && s.stops[p].trip == k && s.stops[p].outcome == StopPending;
        assert p in t.stops && t.stops[p] == s.stops[p];
      }
    }
  }

  lemma ReleasingTells(s: State, setup: Setup, call: Call)
    requires TripsTell(s) && Answer(s, setup, call).Ok? && (call.Load? || call.Adjust? || call.Unload? || call.DropStop? || call.DropTrip?)
    ensures TripsTell(After(s, setup, call))
  {
    var t := After(s, setup, call);
    forall k | k in t.trips && t.trips[k] == TripDeparted ensures Awaiting(t, k) {
      assert k in s.trips && s.trips[k] == TripDeparted;
      var p :| p in s.stops && s.stops[p].trip == k && s.stops[p].outcome == StopPending;
      assert p in t.stops && t.stops[p] == s.stops[p];
    }
  }

  lemma CallTells(s: State, setup: Setup, call: Call)
    requires Inv(s, setup) && TripsTell(s) && Bounded(call)
    ensures TripsTell(After(s, setup, call))
  {
    if Answer(s, setup, call).Ok? {
      if OffTrips(call) {
        OffTripsTell(s, setup, call);
      } else if call.Leave? {
        LeavingTells(s, setup, call.trip);
      } else if call.Resolve? {
        ClosingTells(s, setup, call.trip, call.stop, call.accepted, call.proof);
      } else {
        ReleasingTells(s, setup, call);
      }
    }
  }

  lemma {:induction false} RunTells(setup: Setup, calls: seq<Call>)
    requires SetupOk(setup) && AllBounded(calls)
    ensures TripsTell(Run(EMPTY, setup, calls))
  {
    if calls != [] {
      var rest, last := calls[..|calls| - 1], calls[|calls| - 1];
      assert last in calls;
      RunTells(setup, rest);
      ReachableOk(setup, rest);
      CallTells(Run(EMPTY, setup, rest), setup, last);
    }
  }

  /** Over every run, a trip that left is under way exactly while a stop of it is still to be made, and closed
      exactly once none is. */
  lemma TripsCloseWithTheirLastStop(setup: Setup, calls: seq<Call>, trip: int)
    requires SetupOk(setup) && AllBounded(calls) && trip in Run(EMPTY, setup, calls).trips
    requires Run(EMPTY, setup, calls).trips[trip] in {TripDeparted, TripClosed}
    ensures var s := Run(EMPTY, setup, calls);
            s.trips[trip] == TripDeparted <==>
              exists p :: p in s.stops && s.stops[p].trip == trip && s.stops[p].outcome == StopPending
  {
    RunTells(setup, calls);
    ReachableOk(setup, calls);
    var s := Run(EMPTY, setup, calls);
    assert s.trips[trip] == TripDeparted ==> Awaiting(s, trip);
    forall p | p in s.stops && s.stops[p].trip == trip && s.stops[p].outcome == StopPending ensures s.trips[trip] == TripDeparted {
      assert StopOk(s, p);
    }
  }

  // ----- orders

  predicate SomeDelivered(s: State, o: int) {
    exists l :: l in s.lines && s.lines[l].order == o && s.lines[l].delivered > 0
  }

  predicate SomeReturned(s: State, o: int) {
    exists l :: l in s.lines && s.lines[l].order == o && s.lines[l].returned > 0
  }

  /** Only orders that came out delivered, in part or whole, delivered anything; a pickup everything. */
  predicate LineTells(line: Line, status: Status) {
    && line.delivered >= 0
    && (line.delivered != 0 ==> HasDelivered(status))
    && (status == PickedUp ==> line.delivered == line.quantity)
  }

  ghost predicate OrderTells(s: State, o: int)
    requires o in s.orders
  {
    && (s.orders[o].status in {Delivered, PartiallyDelivered} ==> SomeDelivered(s, o))
    && (s.orders[o].status in {Failed, PartiallyDelivered} ==> SomeReturned(s, o))
  }

  ghost predicate OrdersTell(s: State) {
    && (forall l :: l in s.lines ==> s.lines[l].order in s.orders && LineTells(s.lines[l], s.orders[s.lines[l].order].status))
    && (forall o :: o in s.orders ==> OrderTells(s, o))
  }

  /** Orders that came out keep what they delivered and got back, and no other order comes out. */
  ghost predicate SameOutcomes(s: State, t: State) {
    && NoneOut(s, t)
    && (forall l :: l in s.lines && s.lines[l].order in t.orders
                    && t.orders[s.lines[l].order].status in {Delivered, PartiallyDelivered, Failed} ==>
          && l in t.lines && t.lines[l].order == s.lines[l].order
          && t.lines[l].delivered == s.lines[l].delivered && t.lines[l].returned == s.lines[l].returned)
  }

  lemma SameOutcomesTell(s: State, t: State)
    requires OrdersTell(s) && SameOutcomes(s, t)
    ensures forall o :: o in t.orders ==> OrderTells(t, o)
  {
    forall o | o in t.orders && t.orders[o].status in {Delivered, PartiallyDelivered, Failed} ensures OrderTells(t, o) {
      assert OrderTells(s, o);
      if SomeDelivered(s, o) {
        var l :| l in s.lines && s.lines[l].order == o && s.lines[l].delivered > 0;
        assert t.lines[l].delivered > 0;
      }
      if SomeReturned(s, o) {
        var l :| l in s.lines && s.lines[l].order == o && s.lines[l].returned > 0;
        assert t.lines[l].returned > 0;
      }
    }
  }

  ghost predicate NoneOut(s: State, t: State) {
    forall o :: o in t.orders && t.orders[o].status in {Delivered, PartiallyDelivered, Failed} ==>
      o in s.orders && t.orders[o].status == s.orders[o].status
  }

  /** No call but a close brings an order out. */
  lemma NoneComesOut(s: State, setup: Setup, call: Call)
    requires Inv(s, setup) && Bounded(call) && Answer(s, setup, call).Ok? && OffTrips(call)
    ensures NoneOut(s, After(s, setup, call))
  {
    if call.Raise? {
      Raising(s, setup, call.sale, KindOf(setup, call.sale, call.given, call.shipTo), call.requested);
    } else if call.ConfirmOrder? {
      ConfirmComesOut(s, setup, call.order, call.short);
    } else if call.Add? || call.Edit? || call.Drop? || call.PlanTrip? || call.PlanStop? {
      assert After(s, setup, call).orders == s.orders;
    } else {
      StatusComesOut(s, setup, call);
      OnlyOneMoves(s, After(s, setup, call), call.order);
    }
  }

  lemma OnlyOneMoves(s: State, t: State, o: int)
    requires o in s.orders && o in t.orders && t.orders == s.orders[o := t.orders[o]]
    requires t.orders[o].status in {Draft, Approved, ReadyForPickup, InPreparation, Cancelled, PickedUp}
    ensures NoneOut(s, t)
  {
  }

  lemma StatusComesOut(s: State, setup: Setup, call: Call)
    requires Answer(s, setup, call).Ok? && !OfTrips(call)
    requires call.ApproveOrder? || call.RejectOrder? || call.ReadyOrder? || call.RequeueOrder? || call.CancelOrder? || call.HandOver?
    ensures var t := After(s, setup, call);
            && call.order in s.orders && t.orders == s.orders[call.order := t.orders[call.order]]
            && t.orders[call.order].status in {Draft, Approved, ReadyForPickup, InPreparation, Cancelled, PickedUp}
  {
  }

  lemma ConfirmComesOut(s: State, setup: Setup, o: int, short: bool)
    requires Confirm(s, setup, o, short).Ok?
    ensures NoneOut(s, Confirm(s, setup, o, short).value)
  {
  }

  lemma MovesTellLines(s: State, t: State, setup: Setup)
    requires Inv(s, setup) && OrdersTell(s) && AllMove(s, t)
    ensures forall l :: l in t.lines ==> t.lines[l].order in t.orders && LineTells(t.lines[l], t.orders[t.lines[l].order].status)
  {
    forall l | l in t.lines ensures t.lines[l].order in t.orders && LineTells(t.lines[l], t.orders[t.lines[l].order].status) {
      assert Moves(s, t, l);
      if l in s.lines {
        assert LineTells(s.lines[l], s.orders[s.lines[l].order].status) && LineOk(s, setup, l);
      }
    }
  }

  lemma MovesTell(s: State, t: State, setup: Setup)
    requires Inv(s, setup) && OrdersTell(s) && AllMove(s, t)
    requires NoneOut(s, t)
    ensures OrdersTell(t)
  {
    forall l | l in s.lines && s.lines[l].order in t.orders && t.orders[s.lines[l].order].status in {Delivered, PartiallyDelivered, Failed}
      ensures && l in t.lines && t.lines[l].order == s.lines[l].order
              && t.lines[l].delivered == s.lines[l].delivered && t.lines[l].returned == s.lines[l].returned
    {
      assert l in t.lines && Moves(s, t, l);
    }
    MovesTellLines(s, t, setup);
    SameOutcomesTell(s, t);
  }

  lemma TravelsTell(s: State, t: State)
    requires OrdersTell(s) && OnlyTravels(s, t)
    ensures OrdersTell(t)
  {
    forall l | l in t.lines ensures t.lines[l].order in t.orders && LineTells(t.lines[l], t.orders[t.lines[l].order].status) {
      assert LineTells(s.lines[l], s.orders[s.lines[l].order].status);
    }
    SameOutcomesTell(s, t);
  }

  // ----- how a close tells

  lemma TotalPositive(column: map<int, int>) returns (k: int)
    requires Total(column) > 0
    ensures k in column && column[k] > 0
  {
    if forall j :: j in column ==> column[j] <= 0 {
      var zeros := map j | j in column :: 0;
      TotalMonotone(column, zeros);
      TotalZero(zeros);
    }
    k :| k in column && column[k] > 0;
  }

  lemma OneOfMany<K>(column: map<K, int>, k: K)
    requires k in column && forall j :: j in column ==> column[j] >= 0
    ensures Total(column) >= column[k]
  {
    TotalWithout(column, k);
    TotalNonNegative(column - {k});
  }

  /** Every entry at the stop sent something, and had nothing less than nothing accepted or back. */
  ghost predicate Signed(entries: map<int, Entry>, some: set<int>) {
    forall e :: e in some ==> e in entries && entries[e].sent > 0 && entries[e].delivered >= 0 && entries[e].returned >= 0
  }

  /** Something of an order is something of one of its lines. */
  lemma OrderHasLine(s: State, entries: map<int, Entry>, some: set<int>, o: int, figure: Figure) returns (l: int)
    requires Signed(entries, some) && OfOrder(s, entries, some, o, figure) > 0 && figure in {Accepted, Returned}
    ensures l in s.lines && s.lines[l].order == o && OnLine(entries, some, l, figure) > 0
  {
    var whole := OrderColumn(s, entries, some, o, figure);
    var e := TotalPositive(whole);
    l := entries[e].line;
    var part := Column(entries, some, l, figure);
    forall k | k in part ensures part[k] >= 0 {
      assert part[k] == Amount(entries[k], figure);
    }
    assert part[e] == Amount(entries[e], figure) && whole[e] == Amount(entries[e], figure);
    OneOfMany(part, e);
  }

  lemma OrderSent(s: State, entries: map<int, Entry>, some: set<int>, o: int, e: int)
    requires Signed(entries, some) && e in some && entries[e].line in s.lines && s.lines[entries[e].line].order == o
    ensures OfOrder(s, entries, some, o, Sent) > 0
  {
    var whole := OrderColumn(s, entries, some, o, Sent);
    forall k | k in whole ensures whole[k] >= 0 {
      assert whole[k] == Amount(entries[k], Sent);
    }
    assert whole[e] == Amount(entries[e], Sent);
    OneOfMany(whole, e);
  }

  lemma OrderAccepted(s: State, entries: map<int, Entry>, some: set<int>, o: int)
    requires Signed(entries, some)
    ensures OfOrder(s, entries, some, o, Accepted) >= 0
    ensures forall l :: l in s.lines && s.lines[l].order == o ==>
              0 <= OnLine(entries, some, l, Accepted) <= OfOrder(s, entries, some, o, Accepted)
  {
    var whole := OrderColumn(s, entries, some, o, Accepted);
    forall e | e in whole ensures whole[e] >= 0 {
      assert whole[e] == Amount(entries[e], Accepted);
    }
    TotalNonNegative(whole);
    forall l | l in s.lines && s.lines[l].order == o
      ensures 0 <= OnLine(entries, some, l, Accepted) <= OfOrder(s, entries, some, o, Accepted)
    {
      var part := Column(entries, some, l, Accepted);
      forall e | e in part ensures e in whole && part[e] == whole[e] {
        assert part[e] == Amount(entries[e], Accepted) && whole[e] == Amount(entries[e], Accepted);
      }
      TotalPart(part, whole);
      TotalNonNegative(part);
    }
  }

  /** How an order came out is what its lines took and got back. */
  lemma TargetTells(s: State, m: State, some: set<int>, o: int, e: int)
    requires EntriesSettle(s, m, some) && Signed(m.entries, some)
    requires e in some && m.entries[e].line in s.lines && s.lines[m.entries[e].line].order == o
    ensures var target := Target(s, m.entries, some, o);
            && (target in {Delivered, PartiallyDelivered} <==> OfOrder(s, m.entries, some, o, Accepted) > 0)
            && (target in {Failed, PartiallyDelivered} <==> OfOrder(s, m.entries, some, o, Returned) > 0)
            && target in {Delivered, PartiallyDelivered, Failed}
  {
    OrderSums(s, m, some, o);
    OrderSent(s, m.entries, some, o, e);
    OrderAccepted(s, m.entries, some, o);
  }

  lemma OutTells(s: State, m: State, some: set<int>, o: int)
    requires OnKnownLines(s, some) && EntriesSettle(s, m, some) && Signed(m.entries, some) && o in OrdersOf(s, some)
    ensures var target := Target(s, m.entries, some, o);
            && (target in {Delivered, PartiallyDelivered} <==> OfOrder(s, m.entries, some, o, Accepted) > 0)
            && (target in {Failed, PartiallyDelivered} <==> OfOrder(s, m.entries, some, o, Returned) > 0)
            && target in {Delivered, PartiallyDelivered, Failed}
    ensures forall l :: l in s.lines && s.lines[l].order == o ==>
              0 <= OnLine(m.entries, some, l, Accepted) <= OfOrder(s, m.entries, some, o, Accepted)
  {
    var e :| e in some && s.lines[s.entries[e].line].order == o;
    assert EntrySettles(s.entries[e], m.entries[e]);
    TargetTells(s, m, some, o, e);
    OrderAccepted(s, m.entries, some, o);
  }

  /** What a close makes of a line whose order had not come out. */
  lemma SettledLineTells(s: State, m: State, setup: Setup, some: set<int>, l: int)
    requires Inv(s, setup) && OrdersTell(s) && EntriesSettle(s, m, some) && LinesSettle(s, m, some) && OnKnownLines(s, some)
    requires OrdersSettle(s, m, OrdersOf(s, some), some) && Signed(m.entries, some) && l in s.lines
    ensures m.lines[l].order in m.orders && LineTells(m.lines[l], m.orders[m.lines[l].order].status)
    ensures s.lines[l].order in OrdersOf(s, some) ==>
              && m.lines[l].delivered == OnLine(m.entries, some, l, Accepted)
              && m.lines[l].returned == OnLine(m.entries, some, l, Returned)
    ensures s.lines[l].order !in OrdersOf(s, some) ==>
              m.lines[l].delivered == s.lines[l].delivered && m.lines[l].returned == s.lines[l].returned
  {
    var o := s.lines[l].order;
    assert LineOk(s, setup, l) && LineTells(s.lines[l], s.orders[o].status);
    if o in OrdersOf(s, some) {
      OutTells(s, m, some, o);
    } else {
      NotAtStop(s, m, some, l, Accepted);
      NotAtStop(s, m, some, l, Returned);
    }
  }

  lemma SettledOrderTells(s: State, m: State, setup: Setup, some: set<int>, o: int)
    requires Inv(s, setup) && OrdersTell(s) && EntriesSettle(s, m, some) && LinesSettle(s, m, some) && OnKnownLines(s, some)
    requires OrdersSettle(s, m, OrdersOf(s, some), some) && Signed(m.entries, some) && o in OrdersOf(s, some)
    ensures o in m.orders && OrderTells(m, o)
  {
    OutTells(s, m, some, o);
    if OfOrder(s, m.entries, some, o, Accepted) > 0 {
      var l := OrderHasLine(s, m.entries, some, o, Accepted);
      SettledLineTells(s, m, setup, some, l);
    }
    if OfOrder(s, m.entries, some, o, Returned) > 0 {
      var l := OrderHasLine(s, m.entries, some, o, Returned);
      SettledLineTells(s, m, setup, some, l);
    }
  }

  lemma OtherOrderTells(s: State, m: State, setup: Setup, some: set<int>, o: int)
    requires Inv(s, setup) && OrdersTell(s) && EntriesSettle(s, m, some) && LinesSettle(s, m, some) && OnKnownLines(s, some)
    requires OrdersSettle(s, m, OrdersOf(s, some), some) && Signed(m.entries, some) && o in s.orders && o !in OrdersOf(s, some)
    ensures o in m.orders && OrderTells(m, o)
  {
    assert OrderTells(s, o);
    if SomeDelivered(s, o) {
      var l :| l in s.lines && s.lines[l].order == o && s.lines[l].delivered > 0;
      SettledLineTells(s, m, setup, some, l);
    }
    if SomeReturned(s, o) {
      var l :| l in s.lines && s.lines[l].order == o && s.lines[l].returned > 0;
      SettledLineTells(s, m, setup, some, l);
    }
  }

  lemma SettleTells(s: State, m: State, setup: Setup, trip: int, stop: int, some: set<int>)
    requires Inv(s, setup) && OrdersTell(s) && Settles(s, m, setup, trip, stop, some) && Signed(m.entries, some)
    ensures OrdersTell(m)
  {
    forall l | l in m.lines ensures m.lines[l].order in m.orders && LineTells(m.lines[l], m.orders[m.lines[l].order].status) {
      SettledLineTells(s, m, setup, some, l);
    }
    forall o | o in m.orders ensures OrderTells(m, o) {
      if o in OrdersOf(s, some) {
        SettledOrderTells(s, m, setup, some, o);
      } else {
        OtherOrderTells(s, m, setup, some, o);
      }
    }
  }

  lemma SplitTells(m: State, t: State, carried: set<int>, ids: map<int, int>, setup: Setup)
    requires TablesOk(m, setup) && OrdersTell(m) && Splits(m, t, carried, ids)
    ensures OrdersTell(t)
  {
    SplitsOnly(m, t, setup, carried, ids);
    assert Bears(m.orders, t.orders, ids);
    forall l | l in t.lines ensures t.lines[l].order in t.orders && LineTells(t.lines[l], t.orders[t.lines[l].order].status) {
      if l in m.lines {
        assert LineTells(m.lines[l], m.orders[m.lines[l].order].status);
      }
    }
    SameOutcomesTell(m, t);
  }

  lemma StatedSigns(s: State, m: State, setup: Setup, trip: int, stop: int, accepted: map<int, Acceptance>)
    requires TablesOk(s, setup) && Settles(s, m, setup, trip, stop, accepted.Keys)
    requires NotNegative(accepted) && m.entries == SettledEntries(s.entries, accepted)
    ensures Signed(m.entries, accepted.Keys)
  {
    forall e | e in accepted ensures m.entries[e].sent > 0 && m.entries[e].delivered >= 0 && m.entries[e].returned >= 0 {
      assert EntryOk(s, setup, e) && EntrySettles(s.entries[e], m.entries[e]);
    }
  }

  lemma ClosingTellsOrders(s: State, setup: Setup, trip: int, stop: int, accepted: map<int, Acceptance>, proof: bool)
    requires Inv(s, setup) && OrdersTell(s) && CloseStop(s, setup, trip, stop, accepted, proof).Ok? && NotNegative(accepted)
    ensures OrdersTell(CloseStop(s, setup, trip, stop, accepted, proof).value)
  {
    var m, carried, ids := Closing(s, setup, trip, stop, accepted, proof);
    StatedSigns(s, m, setup, trip, stop, accepted);
    SettleKeeps(s, m, setup, trip, stop, accepted.Keys);
    SettleTells(s, m, setup, trip, stop, accepted.Keys);
    SplitTells(m, CloseStop(s, setup, trip, stop, accepted, proof).value, carried, ids, setup);
  }

  lemma CallTellsOrders(s: State, setup: Setup, call: Call)
    requires Inv(s, setup) && OrdersTell(s) && Bounded(call) && StatesNoNegative(call)
    ensures OrdersTell(After(s, setup, call))
  {
    if Answer(s, setup, call).Ok? {
      if OffTrips(call) {
        CallMoves(s, setup, call);
        NoneComesOut(s, setup, call);
        MovesTell(s, After(s, setup, call), setup);
      } else if call.Resolve? {
        ClosingTellsOrders(s, setup, call.trip, call.stop, call.accepted, call.proof);
      } else {
        CallTravels(s, setup, call);
        TravelsTell(s, After(s, setup, call));
      }
    }
  }

  lemma {:induction false} RunTellsOrders(setup: Setup, calls: seq<Call>)
    requires SetupOk(setup) && AllBounded(calls) && forall c :: c in calls ==> StatesNoNegative(c)
    ensures OrdersTell(Run(EMPTY, setup, calls))
  {
    if calls != [] {
      var rest, last := calls[..|calls| - 1], calls[|calls| - 1];
      assert last in calls;
      RunTellsOrders(setup, rest);
      ReachableOk(setup, rest);
      CallTellsOrders(Run(EMPTY, setup, rest), setup, last);
    }
  }

  /** Over every run whose closes state nothing below zero, an order's status says what became of its goods:
      delivered, and nothing came back; partly delivered, and something did; failed, and all of what went out did;
      picked up, and all of it was handed over.  Of any other order nothing is delivered, and nothing is back but of
      cancelled ones. */
  lemma OutcomesMatchTheFigures(setup: Setup, calls: seq<Call>, o: int)
    requires SetupOk(setup) && AllBounded(calls) && (forall c :: c in calls ==> StatesNoNegative(c))
    requires o in Run(EMPTY, setup, calls).orders
    ensures var s := Run(EMPTY, setup, calls);
            var own := LinesOf(s, o);
            match s.orders[o].status
            case Delivered => (forall l :: l in own ==> s.lines[l].returned == 0) && exists l :: l in own && s.lines[l].delivered > 0
            case PartiallyDelivered =>
              (exists l :: l in own && s.lines[l].delivered > 0) && (exists l :: l in own && s.lines[l].returned > 0)
            case Failed => (forall l :: l in own ==> s.lines[l].delivered == 0) && exists l :: l in own && s.lines[l].returned > 0
            case PickedUp => forall l :: l in own ==> s.lines[l].delivered == s.lines[l].quantity && s.lines[l].returned == 0
            case Cancelled => forall l :: l in own ==> s.lines[l].delivered == 0
            case _ => forall l :: l in own ==> s.lines[l].delivered == 0 && s.lines[l].returned == 0
  {
    RunTellsOrders(setup, calls);
    ReachableOk(setup, calls);
    var s := Run(EMPTY, setup, calls);
    OrderIsTold(s, setup, o);
  }

  lemma OrderIsTold(s: State, setup: Setup, o: int)
    requires TablesOk(s, setup) && OrdersTell(s) && o in s.orders
    ensures var own := LinesOf(s, o);
            match s.orders[o].status
            case Delivered => (forall l :: l in own ==> s.lines[l].returned == 0) && exists l :: l in own && s.lines[l].delivered > 0
            case PartiallyDelivered =>
              (exists l :: l in own && s.lines[l].delivered > 0) && (exists l :: l in own && s.lines[l].returned > 0)
            case Failed => (forall l :: l in own ==> s.lines[l].delivered == 0) && exists l :: l in own && s.lines[l].returned > 0
            case PickedUp => forall l :: l in own ==> s.lines[l].delivered == s.lines[l].quantity && s.lines[l].returned == 0
            case Cancelled => forall l :: l in own ==> s.lines[l].delivered == 0
            case _ => forall l :: l in own ==> s.lines[l].delivered == 0 && s.lines[l].returned == 0
  {
    var own := LinesOf(s, o);
    forall l | l in own ensures LineTells(s.lines[l], s.orders[o].status) && LineOk(s, setup, l) && s.lines[l].order == o {
    }
    assert OrderTells(s, o);
    if SomeDelivered(s, o) {
      var l :| l in s.lines && s.lines[l].order == o && s.lines[l].delivered > 0;
      assert l in own;
    }
    if SomeReturned(s, o) {
      var l :| l in s.lines && s.lines[l].order == o && s.lines[l].returned > 0;
      assert l in own;
    }
  }
}
