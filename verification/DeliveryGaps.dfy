/** Runs from empty tables that every operation accepts, and what goes wrong in them: more delivered than
    sold, in either of the two ways there are, goods in transit with no trip on the road, and a draft cut
    below what is claimed of it. */
module DeliveryGaps {
  import opened Outcomes
  import opened Tables
  import opened DeliveryEvents
  import opened Delivery
  import opened DeliveryInvariant
  import opened DeliveryKeeps
  import opened DeliveryTravel
  import opened DeliveryDepart
  import opened DeliverySettle
  import opened DeliveryClose
  import opened DeliveryCalls
  import opened DeliveryMoves
  import opened DeliveryGuard
  import opened DeliveryClaims
  import opened DeliveryRunaway
  import opened DeliveryOversell
  import opened DeliveryRuns

  /** Five units of one product sold, from a warehouse whose goods go in transit through another. */
  const SHOP := Setup(
    map[1 := Sale(1, 1, None, true, false, true, false)], map[1 := SalesLine(1, 1, 5, Some(1))], {1}, map[1 := 9], map[1 := 1], {}, false, false)

  /** The calls made so far lead from empty tables to these, each accepted within the schemas' bounds and
      none of them careless. */
  ghost predicate Reaches(setup: Setup, calls: seq<Call>, s: State) {
    SetupOk(setup) && Leads(EMPTY, setup, calls, s)
  }

  lemma Start(setup: Setup) returns (calls: seq<Call>)
    requires SetupOk(setup)
    ensures Reaches(setup, calls, EMPTY)
  {
    calls := [];
  }

  lemma Make(setup: Setup, calls: seq<Call>, s: State, call: Call, t: State) returns (more: seq<Call>)
    requires Reaches(setup, calls, s) && Bounded(call) && Answer(s, setup, call) == Ok(t)
    requires !call.Adjust? && !call.Unload? && !call.Resolve?
    ensures Reaches(setup, more, t)
  {
    OthersAreCareful(s, call);
    more := MakeCareful(setup, calls, s, call, t);
  }

  lemma MakeCareful(setup: Setup, calls: seq<Call>, s: State, call: Call, t: State) returns (more: seq<Call>)
    requires Reaches(setup, calls, s) && Bounded(call) && !Careless(s, call) && Answer(s, setup, call) == Ok(t)
    ensures Reaches(setup, more, t)
  {
    more := calls + [call];
    assert more[..|more| - 1] == calls;
  }

  lemma ReachedOk(setup: Setup, calls: seq<Call>, s: State)
    requires Reaches(setup, calls, s)
    ensures Inv(s, setup) && AllGuarded(s)
  {
    CarefulRunsAreGuarded(setup, calls);
  }

  lemma NextAfter<T>(rows: map<int, T>, last: int)
    requires last in rows && forall k :: k in rows ==> k <= last
    ensures NextId(rows) == last + 1
  {
  }

  lemma OneKey(k: int)
    ensures Ascending({k}) == [k]
  {
    AscendingUnique([k], {k});
  }

  // ----- five units on the road

  function OneLine(committed: int, delivered: int, returned: int): map<int, Line> {
    map[1 := Line(1, Some(1), 1, 1, 5, committed, delivered, returned)]
  }

  const DRAFTED := Order(1, 1, None, Draft, Delivery, None, [Event(None, Draft)])

  function Step(order: Order, to: Status): Order {
    order.(status := to, events := order.events + [Event(Some(order.status), to)])
  }

  const WAITING := Step(DRAFTED.(serial := Some(1)), InPreparation)
  const LEFT := Step(WAITING, InTransit)

  const RAISED := State(map[1 := DRAFTED], OneLine(0, 0, 0), map[], map[], map[], [])
  const CONFIRMED := RAISED.(orders := map[1 := WAITING])
  const ONE_TRIP := CONFIRMED.(trips := map[1 := TripOpen])
  const TWO_TRIPS := CONFIRMED.(trips := map[1 := TripOpen, 2 := TripOpen])
  const ONE_STOP := TWO_TRIPS.(stops := map[1 := Stop(1, StopPending)])
  const TWO_STOPS := TWO_TRIPS.(stops := map[1 := Stop(1, StopPending), 2 := Stop(2, StopPending)])
  const LOADED := TWO_STOPS.(lines := OneLine(5, 0, 0), entries := map[1 := Entry(1, 1, 5, 0, 0, 0)])
  const OUT := [Move(ByTrip, 1, 1, 1, -5), Move(ByTrip, 1, 9, 1, 5)]
  const AWAY := LOADED.(
    orders := map[1 := LEFT], trips := map[1 := TripDeparted, 2 := TripOpen],
    entries := map[1 := Entry(1, 1, 5, 5, 0, 0)], ledger := OUT)

  lemma EmptyCovers(x: int)
    ensures Covered(EMPTY, x) == 0
  {
    assert Covering(EMPTY, x) == map[];
  }

  lemma FiveUncovered()
    ensures Deliverable(EMPTY, SHOP, 1) == map[1 := 5]
    ensures Chosen(map[1 := 5], None) == Ok([Request(1, 5)])
  {
    EmptyCovers(1);
    var uncovered := map[1 := 5];
    assert uncovered.Keys == {1};
    OneKey(1);
    assert [1][..0] == [];
    assert Everything(uncovered, [1]) == [Request(1, 5)];
  }

  lemma FiveLines(s: State)
    requires s.lines == map[]
    ensures KnownLines(SHOP, [Request(1, 5)]) && AddLines(s, SHOP, 1, 1, [Request(1, 5)]) == s.(lines := OneLine(0, 0, 0))
  {
    assert [Request(1, 5)][..0] == [];
  }

  /** An order raised for the one sale. */
  lemma RaiseIs(setup: Setup, s: State, requested: Option<seq<Request>>, uncovered: map<int, int>, chosen: seq<Request>, id: int)
    requires 1 in setup.sales && setup.sales[1] == Sale(1, 1, None, true, false, true, false) && 1 in setup.fallback
    requires Deliverable(s, setup, 1) == uncovered && uncovered != map[] && Chosen(uncovered, requested) == Ok(chosen)
    requires KnownLines(setup, chosen) && id == NextId(s.orders)
    ensures Create(s, setup, 1, Delivery, requested) == Ok(AddLines(s.(orders := s.orders[id := DRAFTED]), setup, id, 1, chosen))
  {
    assert Created(Order(1, 1, None, Draft, Delivery, None, [])) == DRAFTED;
  }

  lemma RaiseFive()
    ensures Answer(EMPTY, SHOP, Raise(1, Some(Delivery), None, None)) == Ok(RAISED)
  {
    FiveUncovered();
    FiveLines(EMPTY.(orders := map[1 := DRAFTED]));
    assert EMPTY.orders[1 := DRAFTED] == RAISED.orders;
    RaiseIs(SHOP, EMPTY, None, map[1 := 5], [Request(1, 5)], 1);
  }

  lemma ConfirmIs(setup: Setup, s: State, t: State)
    requires !setup.approvalRequired
    requires s.orders == map[1 := DRAFTED] && 1 in s.lines && s.lines[1].order == 1
    requires t == s.(orders := map[1 := WAITING])
    ensures Answer(s, setup, ConfirmOrder(1, false)) == Ok(t)
  {
    assert 1 in LinesOf(s, 1);
    FirstFolio(s);
    FirstWaits(WithFolio(s, 1), t);
  }

  lemma FirstWaits(s: State, t: State)
    requires s.orders == map[1 := DRAFTED.(serial := Some(1))] && t == s.(orders := map[1 := WAITING])
    ensures Moved(s, 1, InPreparation, false) == Ok(t)
  {
    assert s.orders[1 := WAITING] == map[1 := WAITING];
  }

  lemma FirstFolio(s: State)
    requires s.orders == map[1 := DRAFTED]
    ensures WithFolio(s, 1) == s.(orders := map[1 := DRAFTED.(serial := Some(1))])
  {
    assert Folios(s.orders, 1) == {};
    assert Folioed(s.orders, DRAFTED) == DRAFTED.(serial := Some(1));
  }

  lemma TripIs(setup: Setup, s: State, id: int, t: State)
    requires id == NextId(s.trips) && t == s.(trips := s.trips[id := TripOpen])
    ensures Answer(s, setup, PlanTrip) == Ok(t)
  {
  }

  lemma PlanTrips()
    ensures Answer(RAISED, SHOP, ConfirmOrder(1, false)) == Ok(CONFIRMED)
    ensures Answer(CONFIRMED, SHOP, PlanTrip) == Ok(ONE_TRIP)
    ensures Answer(ONE_TRIP, SHOP, PlanTrip) == Ok(TWO_TRIPS)
  {
    ConfirmIs(SHOP, RAISED, CONFIRMED);
    assert CONFIRMED.trips[1 := TripOpen] == ONE_TRIP.trips;
    TripIs(SHOP, CONFIRMED, 1, ONE_TRIP);
    NextAfter(ONE_TRIP.trips, 1);
    assert ONE_TRIP.trips[2 := TripOpen] == TWO_TRIPS.trips;
    TripIs(SHOP, ONE_TRIP, 2, TWO_TRIPS);
  }

  lemma PlanStops()
    ensures Answer(TWO_TRIPS, SHOP, PlanStop(1, 1)) == Ok(ONE_STOP)
    ensures Answer(ONE_STOP, SHOP, PlanStop(2, 1)) == Ok(TWO_STOPS)
  {
    NextAfter(ONE_STOP.stops, 1);
  }

  lemma LoadFive()
    ensures Answer(TWO_STOPS, SHOP, Load(1, 1, 1, None)) == Ok(LOADED)
  {
    assert 1 in StopsOf(TWO_STOPS, 1);
    assert TWO_STOPS.entries[1 := Entry(1, 1, 5, 0, 0, 0)] == LOADED.entries;
    assert TWO_STOPS.lines[1 := TWO_STOPS.lines[1].(committed := 5)] == LOADED.lines;
  }

  lemma FiveAboard()
    ensures Departing(LOADED, 1) == {1} && OrdersOf(LOADED, {1}) == {1} && Ascending({1}) == [1]
    ensures DepartMoves(LOADED, SHOP, 1, [1]) == OUT
  {
    assert EntriesOfTrip(LOADED, 1) == {1};
    OneKey(1);
    assert [1][..0] == [];
  }

  lemma FiveLeave()
    ensures DepartRefusal(LOADED, SHOP, 1) == None
    ensures DepartedOrders(LOADED.orders, {1}) == AWAY.orders
  {
    FiveAboard();
  }

  lemma LeaveWithFive()
    ensures Answer(LOADED, SHOP, Leave(1)) == Ok(AWAY)
  {
    FiveAboard();
    FiveLeave();
    assert SentEntries(LOADED, {1}) == AWAY.entries;
    assert LOADED.trips[1 := TripDeparted] == AWAY.trips;
  }

  /** Raise, confirm, two trips with a stop each, load all five on the first, and leave. */
  lemma FiveAway() returns (calls: seq<Call>)
    ensures Reaches(SHOP, calls, AWAY)
  {
    calls := Start(SHOP);
    RaiseFive();
    calls := Make(SHOP, calls, EMPTY, Raise(1, Some(Delivery), None, None), RAISED);
    PlanTrips();
    calls := Make(SHOP, calls, RAISED, ConfirmOrder(1, false), CONFIRMED);
    calls := Make(SHOP, calls, CONFIRMED, PlanTrip, ONE_TRIP);
    calls := Make(SHOP, calls, ONE_TRIP, PlanTrip, TWO_TRIPS);
    PlanStops();
    calls := Make(SHOP, calls, TWO_TRIPS, PlanStop(1, 1), ONE_STOP);
    calls := Make(SHOP, calls, ONE_STOP, PlanStop(2, 1), TWO_STOPS);
    LoadFive();
    calls := Make(SHOP, calls, TWO_STOPS, Load(1, 1, 1, None), LOADED);
    LeaveWithFive();
    calls := Make(SHOP, calls, LOADED, Leave(1), AWAY);
  }

  // ----- more delivered than sold

  lemma OneEntry(entries: map<int, Entry>, some: set<int>, l: int, figure: Figure)
    requires entries.Keys == {1} && some == {1} && entries[1].line == l
    ensures OnLine(entries, some, l, figure) == Amount(entries[1], figure)
  {
    OnLineWithout(entries, some, 1, l, figure);
    OnLineEmpty(entries, some - {1}, l, figure);
  }

  lemma RefusedWhole(s: State, setup: Setup, p: int, o: int, e: int, trip: int) returns (m: State)
    requires SetupOk(setup) && Inv(s, setup) && OnTheWay(s, p) && OnlyOrder(s, p, o) && e in EntriesOf(s, p) && IsOpen(s, trip)
    requires o in s.orders && s.orders[o].status == InTransit && Held(s, s.entries[e].line) == s.lines[s.entries[e].line].committed
    ensures Leads(s, setup, [Resolve(s.stops[p].trip, p, AllRefused(s, p), true)], m) && Inv(m, setup)
    ensures IsOpen(m, trip) && e in m.entries && m.entries[e].line == s.entries[e].line
    ensures SameDemand(s, m) && Lowers(m, e, 0) && m.lines[m.entries[e].line].delivered == s.lines[m.entries[e].line].delivered
  {
    var accepted, l := AllRefused(s, p), s.entries[e].line;
    forall k | k in accepted ensures s.entries[k].sent > 0 {
      assert EntryOk(s, setup, k);
    }
    assert OfOrderOn(s, e, o);
    RefusedTarget(s, setup, p, o);
    m := WholeClose(s, setup, p, o, accepted, Failed);
    WholeOffsetsNothing(s, s.stops[p].trip, p, o, accepted, Failed);
    NothingTaken(s, m, accepted.Keys, l);
    OneCall(s, setup, Resolve(s.stops[p].trip, p, accepted, true));
    SettledFigures(s, m, setup, s.stops[p].trip, p, accepted.Keys, l);
    assert EntrySettles(s.entries[e], m.entries[e]) && EntryOk(m, setup, e);
  }

  lemma LoweredRunsAway(s: State, setup: Setup, trip: int, e: int) returns (calls: seq<Call>, t: State)
    requires SetupOk(setup) && Inv(s, setup) && IsOpen(s, trip) && Lowers(s, e, 0)
    requires s.lines[s.entries[e].line].delivered <= s.lines[s.entries[e].line].quantity
    ensures AllBounded(calls) && t == Run(s, setup, calls) && SameDemand(s, t)
    ensures t.lines[s.entries[e].line].delivered > t.lines[s.entries[e].line].quantity
  {
    var call := Unload(trip, e);
    var u := After(s, setup, call);
    CallKeeps(s, setup, call);
    ClaimCallDemand(s, setup, call);
    var l := LoweredIsLoose(s, setup, call);
    var more;
    more, t := LooseRunsAway(u, setup, l);
    CarefulIsBounded(u, setup, more);
    OneAndMore(s, setup, call, more);
    calls := [call] + more;
  }

  /** A claim refused whole at the door can be given back once more as long as any trip is open, and then
      more of its line is delivered than was ordered. */
  lemma RefusedRunsAway(s: State, setup: Setup, p: int, o: int, e: int, trip: int) returns (calls: seq<Call>)
    requires SetupOk(setup) && Inv(s, setup) && OnTheWay(s, p) && OnlyOrder(s, p, o) && e in EntriesOf(s, p) && IsOpen(s, trip)
    requires o in s.orders && s.orders[o].status == InTransit && Held(s, s.entries[e].line) == s.lines[s.entries[e].line].committed
    ensures AllBounded(calls)
    ensures var t, l := Run(s, setup, calls), s.entries[e].line;
            SameDemand(s, t) && l in t.lines && t.lines[l].delivered > t.lines[l].quantity
  {
    var l := s.entries[e].line;
    assert EntryOk(s, setup, e);
    calls := [];
    if s.lines[l].delivered <= s.lines[l].quantity {
      var m := RefusedWhole(s, setup, p, o, e, trip);
      var first := [Resolve(s.stops[p].trip, p, AllRefused(s, p), true)];
      CarefulIsBounded(s, setup, first);
      var more, t := LoweredRunsAway(m, setup, trip, e);
      RunOn(s, setup, first, more);
      calls := first + more;
    }
  }

  lemma AwayAtStop()
    ensures OnTheWay(AWAY, 1) && OnlyOrder(AWAY, 1, 1) && 1 in EntriesOf(AWAY, 1) && IsOpen(AWAY, 2)
  {
    assert 1 in EntriesOf(AWAY, 1);
  }

  lemma AwayHeld()
    ensures Held(AWAY, 1) == AWAY.lines[1].committed
  {
    assert Pending(AWAY) == {1};
    OneEntry(AWAY.entries, Pending(AWAY), 1, Claim);
  }

  lemma OnlyLine(m: State)
    requires SameDemand(AWAY, m)
    ensures OthersDone(m, 1) && m.lines[1].salesLine == Some(1)
  {
  }

  /** More is delivered than was sold, by calls that are all accepted: five units are sold, ordered, loaded
      and refused at the door; their claim is given back through the second trip although the close had
      already cleared it; the order goes back to the queue, and the ten units that then look open are
      loaded, sent and accepted. */
  lemma MoreDeliveredThanSold() returns (calls: seq<Call>)
    ensures AllBounded(calls) && DeliveredOf(Run(EMPTY, SHOP, calls), 1) > SHOP.salesLines[1].quantity
  {
    var first := FiveAway();
    ReachedOk(SHOP, first, AWAY);
    AwayAtStop();
    AwayHeld();
    var m := RefusedWhole(AWAY, SHOP, 1, 1, 1, 2);
    var refused := [Resolve(AWAY.stops[1].trip, 1, AllRefused(AWAY, 1), true)];
    LeadsOn(EMPTY, SHOP, first, AWAY, refused, m);
    ReachedOk(SHOP, first + refused, m);
    OnlyLine(m);
    calls := OversoldAfter(SHOP, first + refused, m, Unload(2, 1), 1, 1);
  }

  /** A careless call after a careful run, and then the course that oversells. */
  lemma OversoldAfter(setup: Setup, calls: seq<Call>, s: State, call: Call, x: int, l: int) returns (all: seq<Call>)
    requires Reaches(setup, calls, s) && Bounded(call) && Answer(s, setup, call).Ok? && CarelessOn(s, call, l)
    requires OthersDone(s, l) && s.lines[l].salesLine == Some(x) && Sellable(setup, x)
    ensures AllBounded(all) && DeliveredOf(Run(EMPTY, setup, all), x) > setup.salesLines[x].quantity
  {
    ReachedOk(setup, calls, s);
    var more, u := MoreThanSold(s, setup, call, x, l);
    all := ThenMore(setup, calls, s, call, more, u);
  }

  lemma ThenMore(setup: Setup, calls: seq<Call>, s: State, call: Call, more: seq<Call>, u: State) returns (all: seq<Call>)
    requires Reaches(setup, calls, s) && Bounded(call) && Leads(After(s, setup, call), setup, more, u)
    ensures AllBounded(all) && Run(EMPTY, setup, all) == u
  {
    CarefulIsBounded(EMPTY, setup, calls);
    CarefulIsBounded(After(s, setup, call), setup, more);
    OneAndMore(s, setup, call, more);
    RunOn(EMPTY, setup, calls, [call] + more);
    all := calls + ([call] + more);
  }

  // ----- goods left in transit

  const UNCLAIMED := AWAY.(lines := OneLine(0, 0, 0), entries := map[])

  lemma FreeOnRoad()
    ensures Answer(AWAY, SHOP, Unload(2, 1)) == Ok(UNCLAIMED) && !Careless(AWAY, Unload(2, 1))
  {
    OneEntry(AWAY.entries, {1}, 1, Claim);
    assert AWAY.entries - {1} == map[];
    assert Freed(AWAY.lines, AWAY.entries, {1}) == UNCLAIMED.lines;
  }

  lemma NothingToSettle(s: State, none: set<int>)
    requires none == {}
    ensures OnKnownLines(s, none) && OrdersOf(s, none) == {} && AllSettle(s, s.entries, none)
    ensures Remainder(s, s.entries, none) == {} && Ascending(none) == []
  {
  }

  lemma SettlesNothing(s: State, setup: Setup, p: int, none: map<int, Acceptance>)
    requires p in s.stops && s.stops[p].trip in s.trips && none == map[]
    requires OnKnownLines(s, none.Keys) && AllSettle(s, SettledEntries(s.entries, none), none.Keys)
    requires forall k :: k in s.stops && s.stops[k].trip == s.stops[p].trip ==> k == p
    ensures var t := Settled(s, setup, s.stops[p].trip, p, none);
            t.ledger == s.ledger && t.trips == s.trips[s.stops[p].trip := TripClosed]
  {
    assert none.Keys == {} && Ascending(none.Keys) == [];
  }

  /** A stop with nothing on it closes with nothing stated, and posts nothing. */
  lemma EmptyStopCloses(s: State, setup: Setup, p: int, none: map<int, Acceptance>) returns (t: State)
    requires OnTheWay(s, p) && EntriesOf(s, p) == {} && none == map[]
    requires forall k :: k in s.stops && s.stops[k].trip == s.stops[p].trip ==> k == p
    ensures CloseStop(s, setup, s.stops[p].trip, p, none, true) == Ok(t)
    ensures t.ledger == s.ledger && t.trips == s.trips[s.stops[p].trip := TripClosed]
  {
    assert SettledEntries(s.entries, none) == s.entries;
    NothingToSettle(s, none.Keys);
    NothingRefused(s, setup, p, none);
    SettlesNothing(s, setup, p, none);
    t := Settled(s, setup, s.stops[p].trip, p, none);
    SplitsNothing(t);
  }

  lemma NothingRefused(s: State, setup: Setup, p: int, none: map<int, Acceptance>)
    requires OnTheWay(s, p) && EntriesOf(s, p) == {} && none == map[]
    ensures CloseRefusal(s, setup, s.stops[p].trip, p, none, true) == None
  {
    assert none.Keys == {};
  }

  /** Five units stay in transit with no trip on the road: their claim is given back through another trip
      while they are away, and the stop then closes with nothing to account for. */
  lemma FiveLeftInTransit() returns (calls: seq<Call>)
    ensures AllBounded(calls)
    ensures var s := Run(EMPTY, SHOP, calls);
            && TripStock(s.ledger, 9, 1) == 5 && forall t :: t in s.trips ==> s.trips[t] != TripDeparted
  {
    calls := FiveAway();
    FreeOnRoad();
    calls := MakeCareful(SHOP, calls, AWAY, Unload(2, 1), UNCLAIMED);
    UnclaimedStop();
    var lost := LastStopCloses(UNCLAIMED, SHOP, 1, 1, map[]);
    calls := MakeCareful(SHOP, calls, UNCLAIMED, Resolve(1, 1, map[], true), lost);
    CarefulIsBounded(EMPTY, SHOP, calls);
    FiveOut();
  }

  /** The only stop of the only trip on the road, with nothing on it. */
  ghost predicate LastStop(s: State, trip: int, p: int) {
    && OnTheWay(s, p) && EntriesOf(s, p) == {} && s.stops[p].trip == trip
    && (forall k :: k in s.stops && s.stops[k].trip == trip ==> k == p)
    && forall t :: t in s.trips && s.trips[t] == TripDeparted ==> t == trip
  }

  lemma UnclaimedStop()
    ensures LastStop(UNCLAIMED, 1, 1)
  {
  }

  lemma LastStopCloses(s: State, setup: Setup, trip: int, p: int, none: map<int, Acceptance>) returns (t: State)
    requires LastStop(s, trip, p) && none == map[]
    ensures Answer(s, setup, Resolve(trip, p, none, true)) == Ok(t) && !Careless(s, Resolve(trip, p, none, true))
    ensures t.ledger == s.ledger && forall k :: k in t.trips ==> t.trips[k] != TripDeparted
  {
    t := EmptyStopCloses(s, setup, p, none);
    NothingOffsets(s, Resolve(trip, p, none, true));
  }

  lemma NothingOffsets(s: State, call: Call)
    requires call.Resolve? && call.accepted == map[]
    ensures !Careless(s, call)
  {
    forall l ensures !OffsetBy(s, call, l) {
      OnLineEmpty(SettledEntries(s.entries, call.accepted), call.accepted.Keys, l, Accepted);
    }
  }

  lemma FiveOut()
    ensures TripStock(OUT, 9, 1) == 5
  {
    assert OUT == [OUT[0]] + [OUT[1]];
    TripStockAppend([OUT[0]], [OUT[1]], 9, 1);
  }

  // ----- a draft cut below its claim

  function TwoLines(quantity: int, committed: int): map<int, Line> {
    map[1 := Line(1, Some(1), 1, 1, 1, 0, 0, 0), 2 := Line(2, Some(1), 1, 1, quantity, committed, 0, 0)]
  }

  const ONE_RAISED := State(map[1 := DRAFTED], map[1 := Line(1, Some(1), 1, 1, 1, 0, 0, 0)], map[], map[], map[], [])
  const ONE_WAITING := ONE_RAISED.(orders := map[1 := WAITING])
  const ONE_PLANNED := ONE_WAITING.(trips := map[1 := TripOpen])
  const ONE_STOPPING := ONE_PLANNED.(stops := map[1 := Stop(1, StopPending)])
  const REST_RAISED := ONE_STOPPING.(orders := map[1 := WAITING, 2 := DRAFTED], lines := TwoLines(4, 0))
  const REST_LOADED := REST_RAISED.(lines := TwoLines(4, 4), entries := map[1 := Entry(1, 2, 4, 0, 0, 0)])
  const REST_CUT := REST_LOADED.(lines := TwoLines(1, 4))

  lemma NarrowOne(uncovered: map<int, int>, r: Request)
    requires r.salesLine in uncovered && r.quantity <= uncovered[r.salesLine]
    ensures NarrowTo(uncovered, [r]) == Ok([r])
  {
    var requested := [r];
    assert requested[..0] == [] && NarrowTo(uncovered, requested[..0]) == Ok([]);
    assert [] + [r] == requested;
  }

  lemma RaiseOne()
    ensures Answer(EMPTY, SHOP, Raise(1, Some(Delivery), None, Some([Request(1, 1)]))) == Ok(ONE_RAISED)
  {
    FiveUncovered();
    var chosen := [Request(1, 1)];
    NarrowOne(map[1 := 5], Request(1, 1));
    assert chosen[..0] == [];
    assert EMPTY.orders[1 := DRAFTED] == ONE_RAISED.orders;
    assert AddLines(EMPTY.(orders := ONE_RAISED.orders), SHOP, 1, 1, chosen).lines == ONE_RAISED.lines;
    RaiseIs(SHOP, EMPTY, Some(chosen), map[1 := 5], chosen, 1);
  }

  lemma PlanForOne()
    ensures Answer(ONE_RAISED, SHOP, ConfirmOrder(1, false)) == Ok(ONE_WAITING)
    ensures Answer(ONE_WAITING, SHOP, PlanTrip) == Ok(ONE_PLANNED)
    ensures Answer(ONE_PLANNED, SHOP, PlanStop(1, 1)) == Ok(ONE_STOPPING)
  {
    ConfirmIs(SHOP, ONE_RAISED, ONE_WAITING);
    assert ONE_WAITING.trips[1 := TripOpen] == ONE_PLANNED.trips;
    TripIs(SHOP, ONE_WAITING, 1, ONE_PLANNED);
  }

  lemma OneCovered()
    ensures Covered(ONE_STOPPING, 1) == 1
  {
    var covering := Covering(ONE_STOPPING, 1);
    assert covering == map[1 := 1];
    TotalWithout(covering, 1);
    assert covering - {1} == map[];
  }

  lemma FourUncovered()
    ensures Deliverable(ONE_STOPPING, SHOP, 1) == map[1 := 4]
    ensures Chosen(map[1 := 4], None) == Ok([Request(1, 4)])
  {
    OneCovered();
    var uncovered := map[1 := 4];
    assert uncovered.Keys == {1};
    OneKey(1);
    assert [1][..0] == [];
    assert Everything(uncovered, [1]) == [Request(1, 4)];
  }

  lemma FourAdded(s: State)
    requires s.lines == ONE_STOPPING.lines
    ensures KnownLines(SHOP, [Request(1, 4)]) && AddLines(s, SHOP, 2, 1, [Request(1, 4)]) == s.(lines := TwoLines(4, 0))
  {
    assert [Request(1, 4)][..0] == [];
    NextAfter(s.lines, 1);
  }

  lemma RaiseRest()
    ensures Answer(ONE_STOPPING, SHOP, Raise(1, Some(Delivery), None, None)) == Ok(REST_RAISED)
  {
    FourUncovered();
    NextAfter(ONE_STOPPING.orders, 1);
    FourAdded(ONE_STOPPING.(orders := REST_RAISED.orders));
    assert ONE_STOPPING.orders[2 := DRAFTED] == REST_RAISED.orders;
    RaiseIs(SHOP, ONE_STOPPING, None, map[1 := 4], [Request(1, 4)], 2);
  }

  lemma LoadRest()
    ensures Answer(REST_RAISED, SHOP, Load(1, 1, 2, None)) == Ok(REST_LOADED)
  {
    assert 1 in StopsOf(REST_RAISED, 1);
    assert REST_RAISED.entries[1 := Entry(1, 2, 4, 0, 0, 0)] == REST_LOADED.entries;
    assert REST_RAISED.lines[2 := REST_RAISED.lines[2].(committed := 4)] == REST_LOADED.lines;
  }

  lemma FiveCovered()
    ensures Covered(REST_LOADED, 1) == 5
  {
    var covering := Covering(REST_LOADED, 1);
    assert covering == map[1 := 1, 2 := 4];
    TotalWithout(covering, 1);
    assert covering - {1} == map[2 := 4];
    TotalWithout(map[2 := 4], 2);
    assert map[2 := 4] - {2} == map[];
  }

  lemma CutRest()
    ensures Answer(REST_LOADED, SHOP, Edit(2, 2, 1)) == Ok(REST_CUT)
  {
    FiveCovered();
    assert 2 in LinesOf(REST_LOADED, 2);
    assert REST_LOADED.lines[2 := REST_LOADED.lines[2].(quantity := 1)] == REST_CUT.lines;
  }

  /** More is claimed of a line than is ordered: a draft's four units are loaded at another order's stop,
      and the draft is then cut to one. */
  lemma DraftCutBelowItsClaim() returns (calls: seq<Call>)
    ensures AllBounded(calls)
    ensures var s := Run(EMPTY, SHOP, calls);
            2 in s.lines && s.lines[2].committed == 4 && s.lines[2].quantity == 1
  {
    calls := Start(SHOP);
    RaiseOne();
    calls := Make(SHOP, calls, EMPTY, Raise(1, Some(Delivery), None, Some([Request(1, 1)])), ONE_RAISED);
    PlanForOne();
    calls := Make(SHOP, calls, ONE_RAISED, ConfirmOrder(1, false), ONE_WAITING);
    calls := Make(SHOP, calls, ONE_WAITING, PlanTrip, ONE_PLANNED);
    calls := Make(SHOP, calls, ONE_PLANNED, PlanStop(1, 1), ONE_STOPPING);
    RaiseRest();
    calls := Make(SHOP, calls, ONE_STOPPING, Raise(1, Some(Delivery), None, None), REST_RAISED);
    LoadRest();
    calls := Make(SHOP, calls, REST_RAISED, Load(1, 1, 2, None), REST_LOADED);
    CutRest();
    calls := Make(SHOP, calls, REST_LOADED, Edit(2, 2, 1), REST_CUT);
    CarefulIsBounded(EMPTY, SHOP, calls);
  }

  // ----- a refusal offset by an acceptance

  /** Five units each of two products sold together. */
  const PAIR := Setup(
    map[1 := Sale(1, 1, None, true, false, true, false)], map[1 := SalesLine(1, 1, 5, Some(1)), 2 := SalesLine(1, 2, 5, Some(1))],
    {1, 2}, map[1 := 9], map[1 := 1], {}, false, false)

  function PairLines(committed: int, other: int): map<int, Line> {
    map[1 := Line(1, Some(1), 1, 1, 5, committed, 0, 0), 2 := Line(1, Some(2), 2, 1, 5, other, 0, 0)]
  }

  const PAIR_RAISED := State(map[1 := DRAFTED], PairLines(0, 0), map[], map[], map[], [])
  const PAIR_WAITING := PAIR_RAISED.(orders := map[1 := WAITING])
  const PAIR_PLANNED := PAIR_WAITING.(trips := map[1 := TripOpen])
  const PAIR_STOPPING := PAIR_PLANNED.(stops := map[1 := Stop(1, StopPending)])
  const PAIR_HALF := PAIR_STOPPING.(lines := PairLines(5, 0), entries := map[1 := Entry(1, 1, 5, 0, 0, 0)])
  const PAIR_LOADED := PAIR_HALF.(
    lines := PairLines(5, 5), entries := map[1 := Entry(1, 1, 5, 0, 0, 0), 2 := Entry(1, 2, 5, 0, 0, 0)])
  const THREE_AND_LESS := map[1 := Acceptance(3, true), 2 := Acceptance(-3, true)]

  lemma TwoKeys()
    ensures Ascending({1, 2}) == [1, 2]
  {
    AscendingUnique([1, 2], {1, 2});
  }

  lemma PairUncovered()
    ensures Deliverable(EMPTY, PAIR, 1) == map[1 := 5, 2 := 5]
  {
    EmptyCovers(1);
    EmptyCovers(2);
  }

  lemma PairChosen(uncovered: map<int, int>)
    requires uncovered == map[1 := 5, 2 := 5]
    ensures Chosen(uncovered, None) == Ok([Request(1, 5), Request(2, 5)])
  {
    assert uncovered.Keys == {1, 2};
    TwoKeys();
    TwoListed(uncovered, [1, 2]);
  }

  lemma TwoListed(uncovered: map<int, int>, keys: seq<int>)
    requires |keys| == 2 && forall k :: k in keys ==> k in uncovered
    ensures Everything(uncovered, keys) == [Request(keys[0], uncovered[keys[0]]), Request(keys[1], uncovered[keys[1]])]
  {
    EverythingListed(uncovered, keys);
  }

  lemma PairAdded(s: State)
    requires s.lines == map[]
    ensures KnownLines(PAIR, [Request(1, 5), Request(2, 5)])
    ensures AddLines(s, PAIR, 1, 1, [Request(1, 5), Request(2, 5)]) == s.(lines := PairLines(0, 0))
  {
    var chosen := [Request(1, 5), Request(2, 5)];
    assert chosen[..1] == [Request(1, 5)];
    AddOne(s, PAIR, 1, 1, Request(1, 5));
    var one := s.(lines := map[1 := Line(1, Some(1), 1, 1, 5, 0, 0, 0)]);
    assert AddLines(s, PAIR, 1, 1, chosen[..1]) == one;
    NextAfter(one.lines, 1);
    assert one.lines[2 := Line(1, Some(2), 2, 1, 5, 0, 0, 0)] == PairLines(0, 0);
  }

  lemma RaisePair()
    ensures Answer(EMPTY, PAIR, Raise(1, Some(Delivery), None, None)) == Ok(PAIR_RAISED)
  {
    PairUncovered();
    PairChosen(map[1 := 5, 2 := 5]);
    PairAdded(EMPTY.(orders := map[1 := DRAFTED]));
    assert EMPTY.orders[1 := DRAFTED] == PAIR_RAISED.orders;
    RaiseIs(PAIR, EMPTY, None, map[1 := 5, 2 := 5], [Request(1, 5), Request(2, 5)], 1);
  }

  lemma PlanPair()
    ensures Answer(PAIR_RAISED, PAIR, ConfirmOrder(1, false)) == Ok(PAIR_WAITING)
    ensures Answer(PAIR_WAITING, PAIR, PlanTrip) == Ok(PAIR_PLANNED)
    ensures Answer(PAIR_PLANNED, PAIR, PlanStop(1, 1)) == Ok(PAIR_STOPPING)
  {
    ConfirmIs(PAIR, PAIR_RAISED, PAIR_WAITING);
    assert PAIR_WAITING.trips[1 := TripOpen] == PAIR_PLANNED.trips;
    TripIs(PAIR, PAIR_WAITING, 1, PAIR_PLANNED);
  }

  lemma LoadFirst()
    ensures Answer(PAIR_STOPPING, PAIR, Load(1, 1, 1, None)) == Ok(PAIR_HALF)
  {
    assert 1 in StopsOf(PAIR_STOPPING, 1);
    assert PAIR_STOPPING.lines[1 := PAIR_STOPPING.lines[1].(committed := 5)] == PAIR_HALF.lines;
  }

  lemma LoadSecond()
    ensures Answer(PAIR_HALF, PAIR, Load(1, 1, 2, None)) == Ok(PAIR_LOADED)
  {
    assert 1 in StopsOf(PAIR_HALF, 1);
    NextAfter(PAIR_HALF.entries, 1);
    assert PAIR_HALF.entries[2 := Entry(1, 2, 5, 0, 0, 0)] == PAIR_LOADED.entries;
    assert PAIR_HALF.lines[2 := PAIR_HALF.lines[2].(committed := 5)] == PAIR_LOADED.lines;
  }

  /** Both on the road, as sent; what was posted for them does not matter here. */
  ghost predicate PairAway(s: State) {
    && 1 in s.orders && s.orders[1].status == InTransit && 1 in s.trips && s.trips[1] == TripDeparted
    && s.stops == PAIR_LOADED.stops && s.lines == PAIR_LOADED.lines
    && s.entries.Keys == {1, 2} && s.entries[1] == Entry(1, 1, 5, 5, 0, 0) && s.entries[2] == Entry(1, 2, 5, 5, 0, 0)
  }

  lemma PairAboard()
    ensures Departing(PAIR_LOADED, 1) == {1, 2} && OrdersOf(PAIR_LOADED, {1, 2}) == {1}
    ensures DepartRefusal(PAIR_LOADED, PAIR, 1) == None
  {
    assert EntriesOfTrip(PAIR_LOADED, 1) == {1, 2};
    assert Departing(PAIR_LOADED, 1) == {1, 2};
    assert OrdersOf(PAIR_LOADED, {1, 2}) == {1};
  }

  lemma Leaves(s: State, setup: Setup, trip: int, some: set<int>) returns (t: State)
    requires TablesOk(s, setup) && some == Departing(s, trip) && DepartRefusal(s, setup, trip) == None
    ensures Depart(s, setup, trip) == Ok(t) && Departs(s, t, setup, trip, some)
    ensures OnKnownLines(s, some)
    ensures forall o :: o in OrdersOf(s, some) && o in s.orders ==> o in t.orders && t.orders[o].status == InTransit
  {
    assert Depart(s, setup, trip).Ok?;
    t := Depart(s, setup, trip).value;
    Departed(s, setup, trip);
    DepartedParts(s, t, setup, trip, some);
  }

  lemma DepartedParts(s: State, t: State, setup: Setup, trip: int, some: set<int>)
    requires Departure(s, t, setup, trip, some)
    ensures OnKnownLines(s, some) && Departs(s, t, setup, trip, some)
    ensures forall o :: o in OrdersOf(s, some) && o in s.orders ==> o in t.orders && t.orders[o].status == InTransit
  {
  }

  lemma PairLeft(t: State)
    requires Departs(PAIR_LOADED, t, PAIR, 1, {1, 2}) && 1 in t.orders && t.orders[1].status == InTransit
    ensures PairAway(t)
  {
  }

  lemma LeavePair() returns (t: State)
    requires TablesOk(PAIR_LOADED, PAIR)
    ensures Depart(PAIR_LOADED, PAIR, 1) == Ok(t) && PairAway(t)
  {
    PairAboard();
    t := Leaves(PAIR_LOADED, PAIR, 1, {1, 2});
    PairLeft(t);
  }

  lemma PairLeaves() returns (calls: seq<Call>, t: State)
    ensures Reaches(PAIR, calls, t) && PairAway(t)
  {
    calls := PairLoads();
    ReachedOk(PAIR, calls, PAIR_LOADED);
    t := LeavePair();
    calls := Make(PAIR, calls, PAIR_LOADED, Leave(1), t);
  }

  lemma PairLoads() returns (calls: seq<Call>)
    ensures Reaches(PAIR, calls, PAIR_LOADED)
  {
    calls := Start(PAIR);
    RaisePair();
    calls := Make(PAIR, calls, EMPTY, Raise(1, Some(Delivery), None, None), PAIR_RAISED);
    PlanPair();
    calls := Make(PAIR, calls, PAIR_RAISED, ConfirmOrder(1, false), PAIR_WAITING);
    calls := Make(PAIR, calls, PAIR_WAITING, PlanTrip, PAIR_PLANNED);
    calls := Make(PAIR, calls, PAIR_PLANNED, PlanStop(1, 1), PAIR_STOPPING);
    LoadFirst();
    LoadSecond();
    calls := Make(PAIR, calls, PAIR_STOPPING, Load(1, 1, 1, None), PAIR_HALF);
    calls := Make(PAIR, calls, PAIR_HALF, Load(1, 1, 2, None), PAIR_LOADED);
  }

  lemma PairStop(s: State)
    requires PairAway(s)
    ensures OnTheWay(s, 1) && EntriesOf(s, 1) == {1, 2} && OnlyOrder(s, 1, 1) && Stated(s, 1, THREE_AND_LESS)
  {
    assert EntriesOf(s, 1) == {1, 2};
    assert 1 in EntriesOf(s, 1) && OfOrderOn(s, 1, 1) && OfOrderOn(s, 2, 1);
  }

  /** A figure of two entries of one order. */
  lemma TwoOfOrder(s: State, entries: map<int, Entry>, figure: Figure)
    requires entries.Keys == {1, 2} && forall e :: e in entries ==> entries[e].line in s.lines && s.lines[entries[e].line].order == 1
    ensures OfOrder(s, entries, {1, 2}, 1, figure) == Amount(entries[1], figure) + Amount(entries[2], figure)
  {
    var column := OrderColumn(s, entries, {1, 2}, 1, figure);
    TotalWithout(column, 1);
    TotalWithout(column - {1}, 2);
    assert column - {1} - {2} == map[];
  }

  /** Three accepted of one line and three less than nothing of the other: the order fails. */
  lemma PairFails(s: State)
    requires PairAway(s)
    ensures ComesOut(s, 1, 1, THREE_AND_LESS, Failed)
    ensures Target(s, SettledEntries(s.entries, THREE_AND_LESS), {1, 2}, 1) == Failed
  {
    PairStop(s);
    var entries := SettledEntries(s.entries, THREE_AND_LESS);
    TwoOfOrder(s, entries, Accepted);
    TwoOfOrder(s, entries, Sent);
  }

  lemma ThreeAccepted(s: State, entries: map<int, Entry>)
    requires PairAway(s) && entries == SettledEntries(s.entries, THREE_AND_LESS)
    ensures OnLine(entries, {1, 2}, 1, Accepted) == 3
  {
    OnLineWithout(entries, {1, 2}, 1, 1, Accepted);
    OnLineEmpty(entries, {1, 2} - {1}, 1, Accepted);
  }

  ghost predicate OnlyLineOf(s: State, l: int, x: int) {
    && l in s.lines && s.lines[l].salesLine == Some(x)
    && forall k :: k in s.lines && s.lines[k].salesLine == Some(x) ==> k == l
  }

  /** Nothing of the sales line is covered any more, and what is delivered of it stays so. */
  lemma Uncovered(s: State, u: State, l: int, x: int)
    requires OnlyLineOf(s, l, x) && NoneAdded(s, u, Some(x)) && HasStatus(u, l, Cancelled) && u.lines[l].salesLine == Some(x)
    ensures DeliveredOf(u, x) == u.lines[l].delivered && Covered(u, x) == 0
  {
    var column := DeliveredColumn(u, x);
    forall k | k in u.lines && u.lines[k].salesLine == Some(x) ensures k == l {
      assert k in s.lines && s.lines[k].salesLine == Some(x);
    }
    TotalWithout(column, l);
    TotalZero(column - {l});
    assert Covering(u, x) == map[];
  }

  ghost predicate Offsetting(s: State, p: int, o: int, call: Call, l: int) {
    && OnTheWay(s, p) && OnlyOrder(s, p, o) && o in s.orders && s.orders[o].status == InTransit
    && call.Resolve? && call == Resolve(s.stops[p].trip, p, call.accepted, true) && Stated(s, p, call.accepted)
    && ComesOut(s, p, o, call.accepted, Failed) && OffsetBy(s, call, l) && OthersDone(s, l)
  }

  /** A stop of one order with an offset closes; the order is then cancelled, and its sales line is wholly
      uncovered again. */
  lemma OffsetUncovers(s: State, setup: Setup, p: int, o: int, call: Call, l: int, x: int) returns (more: seq<Call>, v: State)
    requires SetupOk(setup) && Inv(s, setup) && AllGuarded(s) && Offsetting(s, p, o, call, l) && OnlyLineOf(s, l, x)
    ensures Answer(s, setup, call).Ok? && Leads(After(s, setup, call), setup, more, v) && Covered(v, x) == 0
    ensures DeliveredOf(v, x) == OnLine(SettledEntries(s.entries, call.accepted), call.accepted.Keys, l, Accepted)
  {
    var m := WholeClose(s, setup, p, o, call.accepted, Failed);
    more, v := OffsetRunsAway(s, setup, call, l);
    Uncovered(s, v, l, x);
  }

  /** Whatever an offset accepted of a sales line's only line is delivered on top of all that was sold. */
  lemma OffsetOversells(setup: Setup, calls: seq<Call>, s: State, p: int, o: int, call: Call, l: int, x: int) returns (all: seq<Call>)
    requires Reaches(setup, calls, s) && Offsetting(s, p, o, call, l) && OnlyLineOf(s, l, x) && Sellable(setup, x)
    ensures AllBounded(all)
    ensures DeliveredOf(Run(EMPTY, setup, all), x)
         == setup.salesLines[x].quantity + OnLine(SettledEntries(s.entries, call.accepted), call.accepted.Keys, l, Accepted)
  {
    ReachedOk(setup, calls, s);
    var more, v := OffsetUncovers(s, setup, p, o, call, l, x);
    var last, u := SellRestAfter(setup, calls, s, call, more, v, x);
    all := ThenMore(setup, calls, s, call, more + last, u);
  }

  lemma PairOffset(s: State, call: Call)
    requires PairAway(s) && call == Resolve(1, 1, THREE_AND_LESS, true)
    ensures Offsetting(s, 1, 1, call, 1) && OnlyLineOf(s, 1, 1)
    ensures OnLine(SettledEntries(s.entries, call.accepted), call.accepted.Keys, 1, Accepted) == 3
  {
    PairStop(s);
    PairFails(s);
    ThreeAccepted(s, SettledEntries(s.entries, THREE_AND_LESS));
    assert THREE_AND_LESS.Keys == {1, 2};
  }

  /** Eight are delivered of five sold, by calls that are all accepted: three of one line are accepted and
      three less than nothing of the other, which fails the order; the order is cancelled, which uncovers the
      sale whole; and the five that then look undelivered are raised and handed over. */
  lemma EightDeliveredOfFive() returns (calls: seq<Call>)
    ensures AllBounded(calls) && PAIR.salesLines[1].quantity == 5 && DeliveredOf(Run(EMPTY, PAIR, calls), 1) == 8
  {
    var first, s := PairLeaves();
    var call := Resolve(1, 1, THREE_AND_LESS, true);
    PairOffset(s, call);
    calls := OffsetOversells(PAIR, first, s, 1, 1, call, 1, 1);
  }

  lemma SellRestAfter(setup: Setup, calls: seq<Call>, s: State, call: Call, more: seq<Call>, v: State, x: int)
    returns (last: seq<Call>, u: State)
    requires Reaches(setup, calls, s) && Bounded(call) && Leads(After(s, setup, call), setup, more, v) && Sellable(setup, x)
    ensures Leads(After(s, setup, call), setup, more + last, u)
    ensures var rest := setup.salesLines[x].quantity - Covered(v, x);
            DeliveredOf(u, x) == DeliveredOf(v, x) + if rest > 0 then rest else 0
  {
    ReachedOk(setup, calls, s);
    CallKeeps(s, setup, call);
    CarefulIsBounded(After(s, setup, call), setup, more);
    RunKeeps(After(s, setup, call), setup, more);
    last, u := SellRest(v, setup, x);
    LeadsOn(After(s, setup, call), setup, more, v, last, u);
  }
}
