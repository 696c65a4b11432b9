/** The stock on the road: every operation leaves the in-transit locations with exactly what is aboard,
    but for giving back a claim whose goods are on the road. */
module DeliveryRoad {
  import opened Outcomes
  import opened Tables
  import opened DeliveryEvents
  import opened Delivery
  import opened DeliveryInvariant
  import opened DeliveryKeeps
  import opened DeliveryTravel
  import opened DeliveryDepart
  import opened DeliverySettle
  import opened DeliverySettleTotals
  import opened DeliveryClose
  import opened DeliveryCalls
  import opened DeliveryMoves

  /** The entry's goods are on the road, and the ledger carries them. */
  predicate Travelling(s: State, setup: Setup, e: int) {
    && e in s.entries && s.entries[e].stop in s.stops && s.stops[s.entries[e].stop].outcome == StopPending
    && s.stops[s.entries[e].stop].trip in s.trips && s.trips[s.stops[s.entries[e].stop].trip] == TripDeparted
    && s.entries[e].line in s.lines && s.lines[s.entries[e].line].product in setup.stockable
  }

  /** Giving back, through another trip, a claim whose goods are on the road.  The operation looks at the
      trip it is called for, and not at the claim's. */
  predicate Strands(s: State, setup: Setup, call: Call) {
    call.Unload? && Travelling(s, setup, call.entry)
  }

  lemma RoadStays(s: State, t: State, setup: Setup)
    requires RoadOk(s, setup)
    requires forall w, p :: TripStock(t.ledger, w, p) == TripStock(s.ledger, w, p)
    requires forall w, p :: Total(Road(t, setup, w, p)) == Total(Road(s, setup, w, p))
    ensures RoadOk(t, setup)
  {
  }

  lemma MovesKeepRoad(s: State, t: State, setup: Setup)
    requires TablesOk(s, setup) && RoadOk(s, setup) && AllMove(s, t)
    ensures RoadOk(t, setup)
  {
    TravelSame(s, t, setup);
    forall w, p ensures Total(Road(t, setup, w, p)) == Total(Road(s, setup, w, p)) {
      TotalSame(Road(t, setup, w, p), Road(s, setup, w, p));
    }
    RoadStays(s, t, setup);
  }

  lemma ClaimKeepsRoad(s: State, t: State, setup: Setup, e: int, c: Entry)
    requires TablesOk(s, setup) && RoadOk(s, setup) && Claims(s, t, e, c)
    ensures RoadOk(t, setup)
  {
    forall w, p ensures Total(Road(t, setup, w, p)) == Total(Road(s, setup, w, p)) {
      var a, b := Road(s, setup, w, p), Road(t, setup, w, p);
      forall k | k in a && k in b ensures a[k] == b[k] {
        assert EntryOk(s, setup, k);
        assert OnRoad(t, setup, k, w, p) == OnRoad(s, setup, k, w, p);
      }
      assert e !in a ==> b[e] == 0;
      TotalAlike(a, b);
    }
    RoadStays(s, t, setup);
  }

  /** What is given back takes what it had aboard off the road. */
  lemma RoadFreed(s: State, t: State, setup: Setup, some: set<int>, w: int, p: int)
    requires TablesOk(s, setup) && Frees(s, t, some)
    requires forall e :: e in some ==> !OnRoad(s, setup, e, w, p)
    ensures Total(Road(t, setup, w, p)) == Total(Road(s, setup, w, p))
  {
    var a, b := Road(s, setup, w, p), Road(t, setup, w, p);
    forall k | k in b ensures k in a && a[k] == b[k] {
      RoadOfOthers(s, t, setup, some, k, w, p);
    }
    TotalAlike(a, b);
  }

  lemma RoadOfOthers(s: State, t: State, setup: Setup, some: set<int>, k: int, w: int, p: int)
    requires TablesOk(s, setup) && Frees(s, t, some) && k in t.entries
    ensures k in s.entries && t.entries[k] == s.entries[k]
    ensures OnRoad(t, setup, k, w, p) == OnRoad(s, setup, k, w, p)
  {
    assert EntryOk(s, setup, k);
  }

  lemma FreeKeepsRoad(s: State, t: State, setup: Setup, some: set<int>)
    requires TablesOk(s, setup) && RoadOk(s, setup) && Frees(s, t, some)
    requires forall e :: e in some ==> !Travelling(s, setup, e)
    ensures RoadOk(t, setup)
  {
    forall w, p ensures Total(Road(t, setup, w, p)) == Total(Road(s, setup, w, p)) {
      RoadFreed(s, t, setup, some, w, p);
    }
    RoadStays(s, t, setup);
  }

  /** The goods of a claim given back on the road stay in transit without an entry. */
  lemma StrandedOnRoad(s: State, setup: Setup, trip: int, e: int)
    requires TablesOk(s, setup) && RoadOk(s, setup) && Travelling(s, setup, e) && ReleaseCommitment(s, trip, e).Ok?
    ensures !RoadOk(ReleaseCommitment(s, trip, e).value, setup)
  {
    var t, line := ReleaseCommitment(s, trip, e).value, s.lines[s.entries[e].line];
    assert EntryOk(s, setup, e);
    ReleaseFrees(s, setup, trip, e);
    var w, p := setup.transit[line.warehouse], line.product;
    var a, b := Road(s, setup, w, p), Road(t, setup, w, p);
    forall k | k in b ensures k in a && a[k] == b[k] {
      RoadOfOthers(s, t, setup, {e}, k, w, p);
    }
    TotalBut(a, b, e);
    assert OnRoad(s, setup, e, w, p);
  }

  lemma SettleKeepsRoad(s: State, m: State, setup: Setup, trip: int, stop: int, some: set<int>)
    requires TablesOk(s, setup) && RoadOk(s, setup) && Settles(s, m, setup, trip, stop, some)
    ensures RoadOk(m, setup)
  {
    SettleUnloads(s, m, setup, some);
    forall w, p | w in setup.transit.Values ensures TripStock(m.ledger, w, p) == Total(Road(m, setup, w, p)) {
      SettledLedger(s, m, setup, trip, some, w, p);
      SettleRoadFalls(s, m, setup, trip, stop, some, w, p);
    }
  }

  lemma SplitKeepsRoad(m: State, t: State, setup: Setup, carried: set<int>, ids: map<int, int>)
    requires TablesOk(m, setup) && RoadOk(m, setup) && Splits(m, t, carried, ids)
    ensures RoadOk(t, setup)
  {
    SplitsOnly(m, t, setup, carried, ids);
    TravelSame(m, t, setup);
    forall w, p ensures Total(Road(t, setup, w, p)) == Total(Road(m, setup, w, p)) {
      TotalSame(Road(t, setup, w, p), Road(m, setup, w, p));
    }
    RoadStays(m, t, setup);
  }

  lemma CloseKeepsRoad(s: State, setup: Setup, trip: int, stop: int, accepted: map<int, Acceptance>, proof: bool)
    requires Inv(s, setup) && RoadOk(s, setup)
    requires CloseStop(s, setup, trip, stop, accepted, proof).Ok?
    ensures RoadOk(CloseStop(s, setup, trip, stop, accepted, proof).value, setup)
  {
    var t := CloseStop(s, setup, trip, stop, accepted, proof).value;
    var m, carried, ids := Closing(s, setup, trip, stop, accepted, proof);
    SettleKeeps(s, m, setup, trip, stop, accepted.Keys);
    SettleKeepsRoad(s, m, setup, trip, stop, accepted.Keys);
    SplitKeepsRoad(m, t, setup, carried, ids);
  }

  lemma DepartureKeepsRoad(s: State, setup: Setup, trip: int)
    requires TablesOk(s, setup) && RoadOk(s, setup) && Depart(s, setup, trip).Ok?
    ensures RoadOk(Depart(s, setup, trip).value, setup)
  {
    Departed(s, setup, trip);
    DepartKeepsRoad(s, Depart(s, setup, trip).value, setup, trip, Departing(s, trip));
  }

  lemma ReleasesKeepRoad(s: State, setup: Setup, call: Call)
    requires TablesOk(s, setup) && RoadOk(s, setup) && Answer(s, setup, call).Ok?
    requires (call.Unload? && !Strands(s, setup, call)) || call.DropStop? || call.DropTrip?
    ensures RoadOk(After(s, setup, call), setup)
  {
    var t := After(s, setup, call);
    if call.Unload? {
      ReleaseFrees(s, setup, call.trip, call.entry);
      FreeKeepsRoad(s, t, setup, {call.entry});
    } else if call.DropStop? {
      RemoveStopFrees(s, setup, call.trip, call.stop);
      FreeKeepsRoad(s, t, setup, EntriesOf(s, call.stop));
    } else {
      CancelTripFrees(s, setup, call.trip);
      FreeKeepsRoad(s, t, setup, EntriesOfTrip(s, call.trip));
    }
  }

  lemma ClaimsKeepRoad(s: State, setup: Setup, call: Call)
    requires TablesOk(s, setup) && RoadOk(s, setup) && Bounded(call) && Answer(s, setup, call).Ok?
    requires call.Load? || call.Adjust?
    ensures RoadOk(After(s, setup, call), setup)
  {
    var t := After(s, setup, call);
    if call.Load? {
      CommitClaims(s, setup, call.trip, call.stop, call.line, call.amount);
      ClaimKeepsRoad(s, t, setup, NextId(s.entries), t.entries[NextId(s.entries)]);
    } else {
      AdjustClaims(s, setup, call.trip, call.entry, call.quantity);
      ClaimKeepsRoad(s, t, setup, call.entry, t.entries[call.entry]);
    }
  }

  /** What trips posted to the in-transit locations stays what is aboard after a call, exactly when the
      call does not strand goods on the road. */
  lemma CallKeepsRoadExactly(s: State, setup: Setup, call: Call)
    requires Inv(s, setup) && RoadOk(s, setup) && Bounded(call) && Answer(s, setup, call).Ok?
    ensures RoadOk(After(s, setup, call), setup) <==> !Strands(s, setup, call)
  {
    if Strands(s, setup, call) {
      StrandedOnRoad(s, setup, call.trip, call.entry);
    } else if OffTrips(call) {
      CallMoves(s, setup, call);
      MovesKeepRoad(s, After(s, setup, call), setup);
    } else if call.Load? || call.Adjust? {
      ClaimsKeepRoad(s, setup, call);
    } else if call.Leave? {
      DepartureKeepsRoad(s, setup, call.trip);
    } else if call.Resolve? {
      CloseKeepsRoad(s, setup, call.trip, call.stop, call.accepted, call.proof);
    } else {
      ReleasesKeepRoad(s, setup, call);
    }
  }
}
