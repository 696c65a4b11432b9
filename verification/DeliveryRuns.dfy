/** Whole runs of the delivery operations, and what they guarantee: some of it always, the rest as long as
    certain calls are avoided, which the operations themselves accept. */
module DeliveryRuns {
  import opened Outcomes
  import opened Tables
  import opened DeliveryEvents
  import opened Delivery
  import opened DeliveryInvariant
  import opened DeliveryKeeps
  import opened DeliveryTravel
  import opened DeliveryCalls
  import opened DeliveryMoves
  import opened DeliveryRoad
  import opened DeliveryClaims
  import opened DeliveryGuard
  import opened DeliveryRunaway
  import opened DeliveryFinal
  import opened DeliveryOversell

  // ----- stock and cover, within the schemas' bounds

  lemma ReachableOk(setup: Setup, calls: seq<Call>)
    requires SetupOk(setup) && AllBounded(calls)
    ensures Inv(Run(EMPTY, setup, calls), setup)
  {
    EmptyOk(setup);
    RunKeeps(EMPTY, setup, calls);
  }

  /** Over all warehouses, deliveries take from the stock exactly what they delivered, whoever's claims
      are changed. */
  lemma StockFallsByDeliveries(setup: Setup, calls: seq<Call>, p: int)
    requires SetupOk(setup) && AllBounded(calls)
    ensures var s := Run(EMPTY, setup, calls);
            TotalStock(s.ledger, p) == -Total(HandedOver(s, setup, p))
  {
    ReachableOk(setup, calls);
  }

  /** What orders can still deliver of a sales line, the part split off to a child counted once, never
      exceeds what was sold, whoever's claims are changed. */
  lemma CoverStaysWithinSale(setup: Setup, calls: seq<Call>, x: int)
    requires SetupOk(setup) && AllBounded(calls) && x in setup.salesLines
    ensures Total(Net(Run(EMPTY, setup, calls), x)) <= setup.salesLines[x].quantity
  {
    ReachableOk(setup, calls);
  }

  // ----- the road, unless goods are stranded

  ghost predicate NoneStranded(s: State, setup: Setup, calls: seq<Call>) {
    calls != [] ==>
      && NoneStranded(s, setup, calls[..|calls| - 1])
      && !Strands(Run(s, setup, calls[..|calls| - 1]), setup, calls[|calls| - 1])
  }

  lemma {:induction false} RunKeepsRoad(setup: Setup, calls: seq<Call>)
    requires SetupOk(setup) && AllBounded(calls) && NoneStranded(EMPTY, setup, calls)
    ensures RoadOk(Run(EMPTY, setup, calls), setup)
  {
    if calls == [] {
      forall w, p ensures Road(EMPTY, setup, w, p) == map[] {
      }
    } else {
      var rest, last := calls[..|calls| - 1], calls[|calls| - 1];
      assert last in calls;
      RunKeepsRoad(setup, rest);
      ReachableOk(setup, rest);
      if Answer(Run(EMPTY, setup, rest), setup, last).Ok? {
        CallKeepsRoadExactly(Run(EMPTY, setup, rest), setup, last);
      }
    }
  }

  /** What trips left in an in-transit location is what pending stops of departed trips have aboard, and
      nothing once no trip is on the road, unless a claim was given back while its goods were on the road. */
  lemma InTransitIsAboard(setup: Setup, calls: seq<Call>, w: int, p: int)
    requires SetupOk(setup) && AllBounded(calls) && NoneStranded(EMPTY, setup, calls) && w in setup.transit.Values
    ensures var s := Run(EMPTY, setup, calls);
            && TripStock(s.ledger, w, p) == Total(Road(s, setup, w, p))
            && ((forall t :: t in s.trips ==> s.trips[t] != TripDeparted) ==> TripStock(s.ledger, w, p) == 0)
  {
    RunKeepsRoad(setup, calls);
    var s := Run(EMPTY, setup, calls);
    if forall t :: t in s.trips ==> s.trips[t] != TripDeparted {
      NothingLeftInTransit(s, setup, w, p);
    }
  }

  // ----- the claims, unless they are disturbed

  ghost predicate NoneDisturbed(s: State, setup: Setup, calls: seq<Call>) {
    calls != [] ==>
      && NoneDisturbed(s, setup, calls[..|calls| - 1])
      && !Disturbs(Run(s, setup, calls[..|calls| - 1]), calls[|calls| - 1])
  }

  lemma {:induction false} RunKeepsClaims(setup: Setup, calls: seq<Call>)
    requires SetupOk(setup) && AllBounded(calls) && NoneDisturbed(EMPTY, setup, calls)
    ensures ClaimsOk(Run(EMPTY, setup, calls))
  {
    if calls != [] {
      var rest, last := calls[..|calls| - 1], calls[|calls| - 1];
      assert last in calls;
      RunKeepsClaims(setup, rest);
      ReachableOk(setup, rest);
      if Answer(Run(EMPTY, setup, rest), setup, last).Ok? {
        CallKeepsClaimsExactly(Run(EMPTY, setup, rest), setup, last);
      }
    }
  }

  /** A line's committed figure is what its pending entries claim, and the claims with what is delivered
      and returned never exceed what was ordered: no unit is on two trips. */
  lemma ClaimsPartitionTheLine(setup: Setup, calls: seq<Call>, l: int)
    requires SetupOk(setup) && AllBounded(calls) && NoneDisturbed(EMPTY, setup, calls)
    requires l in Run(EMPTY, setup, calls).lines
    ensures var s := Run(EMPTY, setup, calls);
            var line := s.lines[l];
            && line.order in s.orders && line.returned >= 0
            && (s.orders[line.order].status != Cancelled && s.orders[line.order].status != PickedUp ==>
                  line.committed == Held(s, l) && 0 <= Held(s, l) <= line.quantity - line.delivered - line.returned)
  {
    RunKeepsClaims(setup, calls);
    ReachableOk(setup, calls);
    var s := Run(EMPTY, setup, calls);
    assert LineOk(s, setup, l) && Partitioned(s, l);
    ClaimsNotNegative(s, setup, Pending(s), l);
  }

  // ----- deliveries, unless a call is careless

  lemma {:induction false} RunKeepsGuarded(s: State, setup: Setup, calls: seq<Call>)
    requires SetupOk(setup) && Inv(s, setup) && AllGuarded(s) && Careful(s, setup, calls)
    ensures Inv(Run(s, setup, calls), setup) && AllGuarded(Run(s, setup, calls))
  {
    if calls != [] {
      var rest, last := calls[..|calls| - 1], calls[|calls| - 1];
      RunKeepsGuarded(s, setup, rest);
      CallKeeps(Run(s, setup, rest), setup, last);
      if Answer(Run(s, setup, rest), setup, last).Ok? {
        CallKeepsGuardedExactly(Run(s, setup, rest), setup, last);
      }
    }
  }

  /** No run delivers more of a sales line than was sold, over all its orders, splits and pickups, nor more
      of a delivery line than was ordered, unless one of its calls is careless. */
  lemma NeverOverDelivered(setup: Setup, calls: seq<Call>)
    requires SetupOk(setup) && Careful(EMPTY, setup, calls)
    ensures var s := Run(EMPTY, setup, calls);
            && (forall x :: x in setup.salesLines ==> DeliveredOf(s, x) <= setup.salesLines[x].quantity)
            && (forall l :: l in s.lines ==> s.lines[l].delivered <= s.lines[l].quantity)
  {
    EmptyOk(setup);
    RunKeepsGuarded(EMPTY, setup, calls);
    var s := Run(EMPTY, setup, calls);
    forall x | x in setup.salesLines ensures DeliveredOf(s, x) <= setup.salesLines[x].quantity {
      NoOverDelivery(s, setup, x);
    }
    forall l | l in s.lines ensures s.lines[l].delivered <= s.lines[l].quantity {
      DeliveredWithinNet(s, setup, l, 0);
    }
  }

  /** Some line has delivered more than the sale counts as covered by it. */
  ghost predicate OverDelivers(s: State) {
    exists l :: BeyondCover(s, l)
  }

  /** Some course of calls, none of them careless, delivers more of a line than the sale counts for it. */
  ghost predicate CanRunAway(s: State, setup: Setup) {
    exists more :: Careful(s, setup, more) && OverDelivers(Run(s, setup, more))
  }

  /** Some such course delivers more of the sales line than was sold. */
  ghost predicate CanOversell(s: State, setup: Setup, x: int)
    requires x in setup.salesLines
  {
    exists more :: Careful(s, setup, more) && DeliveredOf(Run(s, setup, more), x) > setup.salesLines[x].quantity
  }

  lemma NoneOverDelivered(s: State, setup: Setup, calls: seq<Call>)
    requires SetupOk(setup) && Inv(s, setup) && AllGuarded(s) && Careful(s, setup, calls)
    ensures var t := Run(s, setup, calls);
            && !OverDelivers(t) && forall x :: x in setup.salesLines ==> DeliveredOf(t, x) <= setup.salesLines[x].quantity
  {
    RunKeepsGuarded(s, setup, calls);
    var t := Run(s, setup, calls);
    forall l ensures !BeyondCover(t, l) {
      if l in t.lines {
        assert Guarded(t, l) && LineOk(t, setup, l);
      }
    }
    forall x | x in setup.salesLines ensures DeliveredOf(t, x) <= setup.salesLines[x].quantity {
      NoOverDelivery(t, setup, x);
    }
  }

  lemma NoneAfterCareful(s: State, setup: Setup, call: Call, more: seq<Call>)
    requires SetupOk(setup) && Inv(s, setup) && AllGuarded(s) && Bounded(call) && Answer(s, setup, call).Ok? && !Careless(s, call)
    requires Careful(After(s, setup, call), setup, more)
    ensures var u := Run(After(s, setup, call), setup, more);
            && !OverDelivers(u) && forall x :: x in setup.salesLines ==> DeliveredOf(u, x) <= setup.salesLines[x].quantity
  {
    CallKeeps(s, setup, call);
    CallKeepsGuardedExactly(s, setup, call);
    NoneOverDelivered(After(s, setup, call), setup, more);
  }

  /** From a state that no careless call led to, exactly a careless call lets later calls, none of them
      careless, deliver more of a line than the sale counts as covered by it. */
  lemma OverDeliveryIsCareless(s: State, setup: Setup, call: Call)
    requires SetupOk(setup) && Inv(s, setup) && AllGuarded(s) && Bounded(call) && Answer(s, setup, call).Ok?
    ensures Careless(s, call) <==> CanRunAway(After(s, setup, call), setup)
  {
    var t := After(s, setup, call);
    CarelessOnSome(s, call);
    if l :| CarelessOn(s, call, l) {
      var more, u := CarelessRunsAway(s, setup, call, l);
      assert Careful(t, setup, more) && OverDelivers(Run(t, setup, more));
    } else {
      forall more | Careful(t, setup, more) ensures !OverDelivers(Run(t, setup, more)) {
        NoneAfterCareful(s, setup, call, more);
      }
    }
  }

  /** The same by sales line, on one that can still be sold and whose other orders are done: exactly a
      careless call about its open line lets more of it be delivered than was sold. */
  lemma OversellingIsCareless(s: State, setup: Setup, call: Call, x: int, l: int)
    requires SetupOk(setup) && Inv(s, setup) && AllGuarded(s) && Bounded(call) && Answer(s, setup, call).Ok?
    requires Sellable(setup, x) && OthersDone(s, l) && s.lines[l].salesLine == Some(x)
    requires Careless(s, call) ==> CarelessOn(s, call, l)
    ensures CarelessOn(s, call, l) <==> CanOversell(After(s, setup, call), setup, x)
  {
    var t := After(s, setup, call);
    CarelessOnSome(s, call);
    if CarelessOn(s, call, l) {
      var more, u := MoreThanSold(s, setup, call, x, l);
      assert Careful(t, setup, more) && DeliveredOf(Run(t, setup, more), x) > setup.salesLines[x].quantity;
    } else {
      forall more | Careful(t, setup, more) ensures DeliveredOf(Run(t, setup, more), x) <= setup.salesLines[x].quantity {
        NoneAfterCareful(s, setup, call, more);
      }
    }
  }

  /** Every state a careful run reaches is one the exact condition speaks of. */
  lemma CarefulRunsAreGuarded(setup: Setup, calls: seq<Call>)
    requires SetupOk(setup) && Careful(EMPTY, setup, calls)
    ensures Inv(Run(EMPTY, setup, calls), setup) && AllGuarded(Run(EMPTY, setup, calls))
  {
    EmptyOk(setup);
    RunKeepsGuarded(EMPTY, setup, calls);
  }
}
