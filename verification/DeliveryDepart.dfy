/** A departing trip keeps the invariant: what leaves the shelves is on the road. */
module DeliveryDepart {
  import opened Outcomes
  import opened Tables
  import opened DeliveryEvents
  import opened Delivery
  import opened DeliveryInvariant
  import opened DeliveryKeeps

  /** What a departure changes, with `some` the trip's entries. */
  ghost predicate Departs(s: State, t: State, setup: Setup, trip: int, some: set<int>) {
    && IsOpen(s, trip) && t.trips == s.trips[trip := TripDeparted]
    && t.stops == s.stops && t.lines == s.lines
    && (forall e :: e in some <==> e in s.entries && s.entries[e].stop in s.stops && s.stops[s.entries[e].stop].trip == trip)
    && t.entries.Keys == s.entries.Keys
    && (forall e :: e in some ==> t.entries[e] == s.entries[e].(sent := s.entries[e].committed))
    && (forall e :: e in s.entries && e !in some ==> t.entries[e] == s.entries[e])
    && (forall e :: e in some ==> s.entries[e].line in s.lines && s.lines[s.entries[e].line].warehouse in setup.transit)
  }

  ghost predicate OrdersDepart(s: State, t: State) {
    && t.orders.Keys == s.orders.Keys
    && (forall o :: o in s.orders ==> OrderOk(t.orders[o]))
    && (forall o :: o in s.orders && t.orders[o].status != s.orders[o].status ==>
          s.orders[o].status == InPreparation && t.orders[o].status == InTransit)
  }

  lemma AllDeparting(s: State, setup: Setup, trip: int)
    requires TablesOk(s, setup)
    ensures forall e :: e in s.entries && s.entries[e].stop in s.stops && s.stops[s.entries[e].stop].trip == trip
              ==> e in Departing(s, trip)
  {
    forall e | e in s.entries && s.entries[e].stop in s.stops && s.stops[s.entries[e].stop].trip == trip
      ensures e in Departing(s, trip)
    {
      assert EntryOk(s, setup, e);
      assert e in EntriesOfTrip(s, trip);
    }
  }

  lemma DepartParts(s: State, t: State, setup: Setup, trip: int, some: set<int>)
    requires Depart(s, setup, trip).Ok? && t == Depart(s, setup, trip).value && some == Departing(s, trip)
    ensures IsOpen(s, trip) && OnKnownLines(s, some) && TransitKnown(s, setup, some) && !Overloaded(s, some)
    ensures AllMovable(s.orders, OrdersOf(s, some), InTransit) && t.orders == DepartedOrders(s.orders, OrdersOf(s, some))
    ensures t.lines == s.lines && t.stops == s.stops && t.trips == s.trips[trip := TripDeparted]
    ensures t.entries == SentEntries(s, some)
    ensures t.ledger == s.ledger + DepartMoves(s, setup, trip, Ascending(some))
  {
  }

  lemma DepartShape(s: State, t: State, setup: Setup, trip: int, some: set<int>)
    requires TablesOk(s, setup) && some == Departing(s, trip)
    requires IsOpen(s, trip) && TransitKnown(s, setup, some)
    requires t.lines == s.lines && t.stops == s.stops && t.trips == s.trips[trip := TripDeparted]
    requires t.entries == SentEntries(s, some)
    ensures Departs(s, t, setup, trip, some)
  {
    AllDeparting(s, setup, trip);
  }

  lemma DepartOrders(s: State, t: State, setup: Setup, moving: set<int>)
    requires TablesOk(s, setup) && AllMovable(s.orders, moving, InTransit) && t.orders == DepartedOrders(s.orders, moving)
    ensures OrdersDepart(s, t)
    ensures forall o :: o in moving && o in s.orders ==> s.orders[o].status == InPreparation && t.orders[o].status == InTransit
  {
    forall o | o in s.orders
      ensures OrderOk(t.orders[o])
      ensures o in moving ==> s.orders[o].status == InPreparation && t.orders[o].status == InTransit
      ensures t.orders[o].status != s.orders[o].status ==>
                s.orders[o].status == InPreparation && t.orders[o].status == InTransit
    {
      assert OrderOk(s.orders[o]);
      if o in moving {
        TransitionRecords(s.orders[o], InTransit, false);
      }
    }
  }

  lemma DepartHeld(s: State, t: State, setup: Setup, trip: int, some: set<int>, l: int)
    requires Departs(s, t, setup, trip, some)
    ensures Held(t, l) == Held(s, l)
  {
    forall e ensures e in Pending(t) <==> e in Pending(s) {
      assert e in t.entries <==> e in s.entries;
      if e in s.entries {
        assert t.entries[e].stop == s.entries[e].stop;
      }
    }
    assert Pending(t) == Pending(s);
    var a, b := Column(t.entries, Pending(t), l, Claim), Column(s.entries, Pending(s), l, Claim);
    forall e ensures e in a <==> e in b {
      if e in s.entries {
        assert t.entries[e].line == s.entries[e].line;
      }
    }
    forall e | e in a && e in b ensures a[e] == b[e] {
      assert a[e] == Amount(t.entries[e], Claim) && b[e] == Amount(s.entries[e], Claim);
    }
    assert a.Keys == b.Keys;
    TotalSame(a, b);
  }

  lemma DepartKeepsTables(s: State, t: State, setup: Setup, trip: int, some: set<int>)
    requires TablesOk(s, setup) && Departs(s, t, setup, trip, some) && OrdersDepart(s, t) && OnKnownLines(s, some)
    requires forall o :: o in OrdersOf(s, some) && o in s.orders ==> t.orders[o].status == InTransit
    ensures TablesOk(t, setup)
  {
    forall l | l in t.lines ensures t.lines[l].order in t.orders && LineOk(t, setup, l) {
      assert LineOk(s, setup, l);
    }
    forall e | e in t.entries ensures EntryOk(t, setup, e) {
      assert EntryOk(s, setup, e) && StopOk(s, s.entries[e].stop);
      if e in some {
        assert s.lines[s.entries[e].line].order in OrdersOf(s, some);
      }
    }
    forall p | p in t.stops ensures StopOk(t, p) {
      assert StopOk(s, p);
    }
  }

  /** What an entry puts on the road out of a warehouse. */
  function Loaded(s: State, setup: Setup, e: int, w: int, p: int): int
    requires e in s.entries && s.entries[e].line in s.lines && s.lines[s.entries[e].line].warehouse in setup.transit
  {
    var line := s.lines[s.entries[e].line];
    if setup.transit[line.warehouse] == w then Stocked(line, setup, p, s.entries[e].committed) else 0
  }

  lemma DepartMovePosts(s: State, setup: Setup, trip: int, e: int, w: int, p: int)
    requires e in s.entries && s.entries[e].line in s.lines
    requires s.lines[s.entries[e].line].warehouse in setup.transit
    requires s.lines[s.entries[e].line].warehouse !in setup.transit.Values
    ensures w in setup.transit.Values ==> TripStock(DepartMove(setup, trip, s.lines[s.entries[e].line], s.entries[e].committed), w, p) == Loaded(s, setup, e, w, p)
    ensures TotalStock(DepartMove(setup, trip, s.lines[s.entries[e].line], s.entries[e].committed), p) == 0
  {
    var moves := DepartMove(setup, trip, s.lines[s.entries[e].line], s.entries[e].committed);
    if moves != [] {
      assert moves == [moves[0]] + [moves[1]];
      TripStockAppend([moves[0]], [moves[1]], w, p);
      TotalStockAppend([moves[0]], [moves[1]], p);
    }
  }

  ghost predicate Boarding(s: State, setup: Setup, keys: seq<int>) {
    forall e :: e in keys ==>
      && e in s.entries && s.entries[e].line in s.lines
      && s.lines[s.entries[e].line].warehouse in setup.transit
      && s.lines[s.entries[e].line].warehouse !in setup.transit.Values
  }

  lemma {:induction false} DepartPosts(s: State, setup: Setup, trip: int, keys: seq<int>, column: map<int, int>, w: int, p: int)
    requires Boarding(s, setup, keys)
    requires forall e :: e in keys ==> e in column && column[e] == Loaded(s, setup, e, w, p)
    ensures w in setup.transit.Values ==> TripStock(DepartMoves(s, setup, trip, keys), w, p) == SumOver(column, keys)
    ensures TotalStock(DepartMoves(s, setup, trip, keys), p) == 0
  {
    if keys != [] {
      var rest, last := keys[..|keys| - 1], keys[|keys| - 1];
      assert last in keys;
      DepartPosts(s, setup, trip, rest, column, w, p);
      DepartMovePosts(s, setup, trip, last, w, p);
      TripStockAppend(DepartMoves(s, setup, trip, rest), DepartMove(setup, trip, s.lines[s.entries[last].line], s.entries[last].committed), w, p);
      TotalStockAppend(DepartMoves(s, setup, trip, rest), DepartMove(setup, trip, s.lines[s.entries[last].line], s.entries[last].committed), p);
    }
  }

  function LoadedBy(s: State, setup: Setup, some: set<int>, w: int, p: int): map<int, int>
    requires forall e :: e in some ==>
               e in s.entries && s.entries[e].line in s.lines && s.lines[s.entries[e].line].warehouse in setup.transit
  {
    map e | e in some :: Loaded(s, setup, e, w, p)
  }

  lemma DepartRoad(s: State, t: State, setup: Setup, trip: int, some: set<int>, w: int, p: int)
    requires TablesOk(s, setup) && Departs(s, t, setup, trip, some)
    ensures Total(Road(t, setup, w, p)) == Total(Road(s, setup, w, p)) + Total(LoadedBy(s, setup, some, w, p))
  {
    var before, after, loaded := Road(s, setup, w, p), Road(t, setup, w, p), LoadedBy(s, setup, some, w, p);
    var padded := Padded(loaded, s.entries.Keys);
    TotalPadded(loaded, s.entries.Keys);
    forall e | e in s.entries ensures after[e] == before[e] + padded[e] {
      assert EntryOk(s, setup, e) && StopOk(s, s.entries[e].stop);
      if e in some {
        assert padded[e] == Loaded(s, setup, e, w, p);
        assert !OnRoad(s, setup, e, w, p);
      } else {
        assert OnRoad(t, setup, e, w, p) == OnRoad(s, setup, e, w, p);
      }
    }
    TotalSum(before, padded, after);
  }

  lemma DepartKeepsRoadAt(s: State, t: State, setup: Setup, trip: int, some: set<int>, w: int, p: int)
    requires TablesOk(s, setup) && Departs(s, t, setup, trip, some) && OnKnownLines(s, some)
    requires Boarding(s, setup, Ascending(some)) && w in setup.transit.Values
    requires t.ledger == s.ledger + DepartMoves(s, setup, trip, Ascending(some))
    requires TripStock(s.ledger, w, p) == Total(Road(s, setup, w, p))
    ensures TripStock(t.ledger, w, p) == Total(Road(t, setup, w, p))
  {
    DepartTripStock(s, setup, trip, some, w, p);
    TripStockAppend(s.ledger, DepartMoves(s, setup, trip, Ascending(some)), w, p);
    DepartRoad(s, t, setup, trip, some, w, p);
  }

  lemma DepartKeepsRoad(s: State, t: State, setup: Setup, trip: int, some: set<int>)
    requires TablesOk(s, setup) && RoadOk(s, setup) && Departs(s, t, setup, trip, some) && OnKnownLines(s, some)
    requires Boarding(s, setup, Ascending(some))
    requires t.ledger == s.ledger + DepartMoves(s, setup, trip, Ascending(some))
    ensures RoadOk(t, setup)
  {
    forall w, p | w in setup.transit.Values ensures TripStock(t.ledger, w, p) == Total(Road(t, setup, w, p)) {
      DepartKeepsRoadAt(s, t, setup, trip, some, w, p);
    }
  }

  /** Nothing leaves the company when a trip departs. */
  lemma DepartKeepsTotalStock(s: State, setup: Setup, trip: int, some: set<int>, p: int)
    requires OnKnownLines(s, some) && Boarding(s, setup, Ascending(some))
    ensures TotalStock(s.ledger + DepartMoves(s, setup, trip, Ascending(some)), p) == TotalStock(s.ledger, p)
  {
    DepartPosts(s, setup, trip, Ascending(some), LoadedBy(s, setup, some, 0, p), 0, p);
    TotalStockAppend(s.ledger, DepartMoves(s, setup, trip, Ascending(some)), p);
  }

  lemma DepartTripStock(s: State, setup: Setup, trip: int, some: set<int>, w: int, p: int)
    requires Boarding(s, setup, Ascending(some)) && w in setup.transit.Values && OnKnownLines(s, some)
    requires forall e :: e in some ==> s.lines[s.entries[e].line].warehouse in setup.transit
    ensures TripStock(DepartMoves(s, setup, trip, Ascending(some)), w, p) == Total(LoadedBy(s, setup, some, w, p))
  {
    var column := LoadedBy(s, setup, some, w, p);
    DepartPosts(s, setup, trip, Ascending(some), column, w, p);
    SumInOrder(column, Ascending(some));
  }

  lemma DepartKeepsFigures(s: State, t: State, setup: Setup)
    requires StockOk(s, setup) && CoverOk(s, setup) && OrdersDepart(s, t) && t.lines == s.lines
    requires forall p :: TotalStock(t.ledger, p) == TotalStock(s.ledger, p)
    ensures StockOk(t, setup) && CoverOk(t, setup)
  {
    StockSame(s, t, setup);
    CoverFalls(s, t, setup);
  }

  /** What the proofs use of a departure. */
  ghost predicate Departure(s: State, t: State, setup: Setup, trip: int, some: set<int>) {
    && Departs(s, t, setup, trip, some) && OrdersDepart(s, t) && OnKnownLines(s, some) && some == Departing(s, trip)
    && Boarding(s, setup, Ascending(some)) && !Overloaded(s, some)
    && t.ledger == s.ledger + DepartMoves(s, setup, trip, Ascending(some))
    && (forall o :: o in OrdersOf(s, some) && o in s.orders ==>
          s.orders[o].status == InPreparation && t.orders[o].status == InTransit)
  }

  lemma Departed(s: State, setup: Setup, trip: int)
    requires TablesOk(s, setup) && Depart(s, setup, trip).Ok?
    ensures Departure(s, Depart(s, setup, trip).value, setup, trip, Departing(s, trip))
  {
    var t := Depart(s, setup, trip).value;
    var some := Departing(s, trip);
    DepartParts(s, t, setup, trip, some);
    DepartShape(s, t, setup, trip, some);
    DepartOrders(s, t, setup, OrdersOf(s, some));
    forall e | e in some ensures s.lines[s.entries[e].line].warehouse !in setup.transit.Values {
      assert LineOk(s, setup, s.entries[e].line);
    }
  }

  lemma DepartKeeps(s: State, setup: Setup, trip: int)
    requires Inv(s, setup) && Depart(s, setup, trip).Ok?
    ensures Inv(Depart(s, setup, trip).value, setup)
  {
    var t, some := Depart(s, setup, trip).value, Departing(s, trip);
    Departed(s, setup, trip);
    DepartKeepsTables(s, t, setup, trip, some);
    forall p ensures TotalStock(t.ledger, p) == TotalStock(s.ledger, p) {
      DepartKeepsTotalStock(s, setup, trip, some, p);
    }
    DepartKeepsFigures(s, t, setup);
  }
}
