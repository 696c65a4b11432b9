/** What no call changes of finished orders, and the sign of what is delivered. */
module DeliveryFinal {
  import opened Outcomes
  import opened Tables
  import opened DeliveryEvents
  import opened Delivery
  import opened DeliveryInvariant
  import opened DeliveryTravel
  import opened DeliveryDepart
  import opened DeliverySettle
  import opened DeliveryClose
  import opened DeliveryCalls
  import opened DeliveryMoves
  import opened DeliveryGuard

  // ----- finished orders

  predicate Finished(s: State, l: int) {
    l in s.lines && s.lines[l].order in s.orders && s.orders[s.lines[l].order].status in TERMINAL
  }

  /** The line is as it was, what is committed of it aside, and so is its order's status. */
  predicate Stays(s: State, t: State, l: int)
    requires Finished(s, l)
  {
    && l in t.lines && t.lines[l] == s.lines[l].(committed := t.lines[l].committed)
    && t.lines[l].order in t.orders && t.orders[t.lines[l].order].status == s.orders[s.lines[l].order].status
  }

  lemma MoveStays(s: State, t: State, l: int)
    requires AllMove(s, t) && Finished(s, l)
    ensures Stays(s, t, l)
  {
    assert Moves(s, t, l);
  }

  lemma SettleStays(s: State, m: State, some: set<int>, l: int)
    requires EntriesSettle(s, m, some) && LinesSettle(s, m, some) && OnKnownLines(s, some)
    requires OrdersSettle(s, m, OrdersOf(s, some), some) && Finished(s, l)
    ensures Stays(s, m, l)
  {
    assert s.lines[l].order !in OrdersOf(s, some);
    NotAtStop(s, m, some, l, Accepted);
    NotAtStop(s, m, some, l, Returned);
  }

  lemma SplitStays(m: State, t: State, l: int)
    requires SplitOnly(m, t) && Finished(m, l)
    ensures Stays(m, t, l)
  {
  }

  lemma CloseStays(s: State, setup: Setup, trip: int, stop: int, accepted: map<int, Acceptance>, proof: bool, l: int)
    requires Inv(s, setup) && CloseStop(s, setup, trip, stop, accepted, proof).Ok? && Finished(s, l)
    ensures Stays(s, CloseStop(s, setup, trip, stop, accepted, proof).value, l)
  {
    var m, carried, ids := Closing(s, setup, trip, stop, accepted, proof);
    SettleKeeps(s, m, setup, trip, stop, accepted.Keys);
    SplitsOnly(m, CloseStop(s, setup, trip, stop, accepted, proof).value, setup, carried, ids);
    SettleStays(s, m, accepted.Keys, l);
    SplitStays(m, CloseStop(s, setup, trip, stop, accepted, proof).value, l);
  }

  /** Lines change in nothing but what is committed of them, and no order comes out. */
  ghost predicate OnlyTravels(s: State, t: State) {
    && t.lines.Keys == s.lines.Keys && t.orders.Keys == s.orders.Keys
    && (forall l :: l in s.lines ==> t.lines[l] == s.lines[l].(committed := t.lines[l].committed))
    && (forall o :: o in s.orders ==>
          || t.orders[o].status == s.orders[o].status
          || (s.orders[o].status == InPreparation && t.orders[o].status == InTransit))
  }

  lemma LeavingTravels(s: State, setup: Setup, trip: int)
    requires TablesOk(s, setup) && Depart(s, setup, trip).Ok?
    ensures OnlyTravels(s, Depart(s, setup, trip).value)
  {
    Departed(s, setup, trip);
  }

  lemma ClaimingTravels(s: State, setup: Setup, call: Call)
    requires TablesOk(s, setup) && Bounded(call) && Answer(s, setup, call).Ok? && (call.Load? || call.Adjust?)
    ensures OnlyTravels(s, After(s, setup, call))
  {
    if call.Load? {
      CommitClaims(s, setup, call.trip, call.stop, call.line, call.amount);
    } else {
      AdjustClaims(s, setup, call.trip, call.entry, call.quantity);
    }
  }

  lemma CallTravels(s: State, setup: Setup, call: Call)
    requires TablesOk(s, setup) && Bounded(call) && Answer(s, setup, call).Ok? && !OffTrips(call) && !call.Resolve?
    ensures OnlyTravels(s, After(s, setup, call))
  {
    if call.Load? || call.Adjust? {
      ClaimingTravels(s, setup, call);
    } else if call.Unload? {
      ReleaseFrees(s, setup, call.trip, call.entry);
    } else if call.DropStop? {
      RemoveStopFrees(s, setup, call.trip, call.stop);
    } else if call.DropTrip? {
      CancelTripFrees(s, setup, call.trip);
    } else {
      LeavingTravels(s, setup, call.trip);
    }
  }

  lemma TravelsStay(s: State, t: State, l: int)
    requires OnlyTravels(s, t) && Finished(s, l)
    ensures Stays(s, t, l)
  {
  }

  lemma CallStays(s: State, setup: Setup, call: Call, l: int)
    requires Inv(s, setup) && Bounded(call) && Finished(s, l)
    ensures Stays(s, After(s, setup, call), l)
  {
    if Answer(s, setup, call).Ok? {
      if OffTrips(call) {
        CallMoves(s, setup, call);
        MoveStays(s, After(s, setup, call), l);
      } else if call.Resolve? {
        CloseStays(s, setup, call.trip, call.stop, call.accepted, call.proof, l);
      } else {
        CallTravels(s, setup, call);
        TravelsStay(s, After(s, setup, call), l);
      }
    }
  }

  /** No run changes what a finished order ordered, delivered and got back, nor its status. */
  lemma {:induction false} FinishedStays(s: State, setup: Setup, calls: seq<Call>, l: int)
    requires Inv(s, setup) && SetupOk(setup) && AllBounded(calls) && Finished(s, l)
    ensures Stays(s, Run(s, setup, calls), l)
  {
    if calls != [] {
      var rest, last := calls[..|calls| - 1], calls[|calls| - 1];
      assert last in calls;
      FinishedStays(s, setup, rest, l);
      RunKeeps(s, setup, rest);
      CallStays(Run(s, setup, rest), setup, last, l);
    }
  }

  // ----- signs

  /** No less than nothing is stated of any entry: what the unused schema of the request asks. */
  predicate NotNegative(accepted: map<int, Acceptance>) {
    forall e :: e in accepted ==> accepted[e].delivered >= 0
  }

  predicate StatesNoNegative(call: Call) {
    call.Resolve? ==> NotNegative(call.accepted)
  }

  predicate AllNotNegative(s: State) {
    forall l :: l in s.lines ==> s.lines[l].delivered >= 0
  }

  /** Offsetting takes less than nothing stated of some entry. */
  lemma OffsetsNeedNegatives(s: State, setup: Setup, call: Call)
    requires Answer(s, setup, call).Ok? && StatesNoNegative(call)
    ensures !Offsets(s, call)
  {
    forall l ensures !OffsetBy(s, call, l) {
      if call.Resolve? && l in s.lines {
        LineWithinAccepted(s, call.accepted, l);
      }
    }
  }

  lemma LineWithinAccepted(s: State, accepted: map<int, Acceptance>, l: int)
    requires NotNegative(accepted) && l in s.lines
    ensures var entries := SettledEntries(s.entries, accepted);
            OnLine(entries, accepted.Keys, l, Accepted) <= OfOrder(s, entries, accepted.Keys, s.lines[l].order, Accepted)
  {
    var entries := SettledEntries(s.entries, accepted);
    var part, whole := Column(entries, accepted.Keys, l, Accepted), OrderColumn(s, entries, accepted.Keys, s.lines[l].order, Accepted);
    forall e | e in whole ensures whole[e] >= 0 {
      assert whole[e] == Amount(entries[e], Accepted) && entries[e] == SettledEntry(s.entries[e], accepted[e].delivered);
    }
    forall e | e in part ensures e in whole && part[e] == whole[e] {
      assert part[e] == Amount(entries[e], Accepted) && whole[e] == Amount(entries[e], Accepted);
    }
    TotalPart(part, whole);
  }

  lemma AcceptedNotNegative(s: State, accepted: map<int, Acceptance>, some: set<int>, l: int)
    requires NotNegative(accepted) && some <= accepted.Keys
    ensures OnLine(SettledEntries(s.entries, accepted), some, l, Accepted) >= 0
  {
    var entries := SettledEntries(s.entries, accepted);
    forall e | e in some && e in entries ensures Amount(entries[e], Accepted) >= 0 {
      assert entries[e] == SettledEntry(s.entries[e], accepted[e].delivered);
    }
    OnLineNonNegative(entries, some, l, Accepted);
  }

  lemma CloseKeepsSigns(s: State, setup: Setup, trip: int, stop: int, accepted: map<int, Acceptance>, proof: bool)
    requires Inv(s, setup) && CloseStop(s, setup, trip, stop, accepted, proof).Ok? && AllNotNegative(s) && NotNegative(accepted)
    ensures AllNotNegative(CloseStop(s, setup, trip, stop, accepted, proof).value)
  {
    var t := CloseStop(s, setup, trip, stop, accepted, proof).value;
    var m, carried, ids := Closing(s, setup, trip, stop, accepted, proof);
    SettleKeeps(s, m, setup, trip, stop, accepted.Keys);
    SplitsOnly(m, t, setup, carried, ids);
    SettleKeepsSigns(s, m, accepted);
    SplitKeepsSigns(m, t);
  }

  lemma SplitKeepsSigns(m: State, t: State)
    requires AllNotNegative(m) && SplitOnly(m, t)
    ensures AllNotNegative(t)
  {
  }

  lemma SettleKeepsSigns(s: State, m: State, accepted: map<int, Acceptance>)
    requires LinesSettle(s, m, accepted.Keys) && m.entries == SettledEntries(s.entries, accepted)
    requires AllNotNegative(s) && NotNegative(accepted)
    ensures AllNotNegative(m)
  {
    forall l | l in m.lines ensures m.lines[l].delivered >= 0 {
      AcceptedNotNegative(s, accepted, accepted.Keys, l);
    }
  }

  lemma CallKeepsSigns(s: State, setup: Setup, call: Call)
    requires Inv(s, setup) && Bounded(call) && AllNotNegative(s) && StatesNoNegative(call)
    ensures AllNotNegative(After(s, setup, call))
  {
    var t := After(s, setup, call);
    if Answer(s, setup, call).Ok? {
      if OffTrips(call) {
        CallMoves(s, setup, call);
        forall l | l in t.lines ensures t.lines[l].delivered >= 0 {
          assert Moves(s, t, l);
          if l in s.lines {
            assert LineOk(s, setup, l);
          }
        }
      } else if call.Resolve? {
        CloseKeepsSigns(s, setup, call.trip, call.stop, call.accepted, call.proof);
      } else {
        CallTravels(s, setup, call);
      }
    }
  }

  /** As long as no close states less than nothing, no line has delivered less than nothing. */
  lemma {:induction false} DeliveredNotNegative(setup: Setup, calls: seq<Call>)
    requires SetupOk(setup) && AllBounded(calls) && forall c :: c in calls ==> StatesNoNegative(c)
    ensures AllNotNegative(Run(EMPTY, setup, calls))
  {
    if calls != [] {
      var rest, last := calls[..|calls| - 1], calls[|calls| - 1];
      assert last in calls;
      DeliveredNotNegative(setup, rest);
      EmptyOk(setup);
      RunKeeps(EMPTY, setup, rest);
      CallKeepsSigns(Run(EMPTY, setup, rest), setup, last);
    }
  }
}
