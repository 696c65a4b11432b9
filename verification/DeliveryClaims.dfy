/** The claims on a line: every operation keeps them parts of the line, but for exactly those that change
    a claim past its time or cut a draft below it. */
module DeliveryClaims {
  import opened Outcomes
  import opened Tables
  import opened DeliveryEvents
  import opened Delivery
  import opened DeliveryInvariant
  import opened DeliveryKeeps
  import opened DeliveryTravel
  import opened DeliveryDepart
  import opened DeliverySettle
  import opened DeliveryClose
  import opened DeliveryCalls
  import opened DeliveryMoves

  /** The order's claims are no longer looked at. */
  predicate RetiredStatus(status: Status) {
    status in {Cancelled, PickedUp}
  }

  /** A line's committed figure is what its pending entries claim, and with what is delivered and returned
      it stays within what was ordered. */
  ghost predicate Partitioned(s: State, l: int)
    requires l in s.lines && s.lines[l].order in s.orders
  {
    var line := s.lines[l];
    !RetiredStatus(s.orders[line.order].status) ==>
      line.committed == Held(s, l) && line.delivered + line.returned + line.committed <= line.quantity
  }

  /** On the road, an entry claims at least what it sent. */
  predicate SentCovered(s: State, e: int)
    requires e in s.entries
  {
    UnderWay(s, s.entries[e]) ==> s.entries[e].sent <= s.entries[e].committed
  }

  predicate UnderWay(s: State, entry: Entry) {
    && Awaited(s, entry)
    && s.stops[entry.stop].trip in s.trips && s.trips[s.stops[entry.stop].trip] == TripDeparted
  }

  ghost predicate ClaimsOk(s: State) {
    && (forall l :: l in s.lines ==> s.lines[l].order in s.orders && Partitioned(s, l))
    && (forall e :: e in s.entries ==> SentCovered(s, e))
  }

  /** The entry's stop was made, and its order is not retired. */
  predicate Past(s: State, e: int) {
    && e in s.entries && !Awaited(s, s.entries[e])
    && s.entries[e].line in s.lines && s.lines[s.entries[e].line].order in s.orders
    && !RetiredStatus(s.orders[s.lines[s.entries[e].line].order].status)
  }

  /** The calls that take claims and lines apart: a draft cut below what is claimed of it, a claim changed
      or given back once its stop was made, and one lowered on the road below what it sent.  None of the
      operations looks. */
  predicate Disturbs(s: State, call: Call) {
    match call
    case Edit(_, line, quantity) => line in s.lines && quantity < s.lines[line].committed
    case Adjust(_, e, quantity) =>
      && e in s.entries
      && ((Past(s, e) && quantity != s.entries[e].committed) || (UnderWay(s, s.entries[e]) && quantity < s.entries[e].sent))
    case Unload(_, e) => Past(s, e)
    case _ => false
  }

  // ----- drafting, moving, planning

  lemma LineStaysPartitioned(s: State, t: State, setup: Setup, l: int)
    requires TablesOk(s, setup) && ClaimsOk(s) && AllMove(s, t) && l in t.lines
    requires l in s.lines ==> t.lines[l].quantity >= s.lines[l].quantity || s.lines[l].committed <= t.lines[l].quantity
    ensures t.lines[l].order in t.orders && Partitioned(t, l)
  {
    HeldSame(s, t, setup, l);
    assert Moves(s, t, l);
    if l in s.lines {
      assert Partitioned(s, l);
    } else {
      OnLineEmpty(s.entries, Pending(s), l, Claim);
    }
  }

  lemma CoveredStays(s: State, t: State, setup: Setup)
    requires TablesOk(s, setup) && ClaimsOk(s) && SameTravel(s, t)
    ensures forall e :: e in t.entries ==> SentCovered(t, e)
  {
    forall e | e in t.entries ensures SentCovered(t, e) {
      assert SentCovered(s, e) && EntryOk(s, setup, e);
    }
  }

  lemma MovesKeepClaims(s: State, t: State, setup: Setup)
    requires TablesOk(s, setup) && ClaimsOk(s) && AllMove(s, t)
    requires forall l :: l in s.lines && l in t.lines ==>
               t.lines[l].quantity >= s.lines[l].quantity || s.lines[l].committed <= t.lines[l].quantity
    ensures ClaimsOk(t)
  {
    forall l | l in t.lines ensures t.lines[l].order in t.orders && Partitioned(t, l) {
      LineStaysPartitioned(s, t, setup, l);
    }
    CoveredStays(s, t, setup);
  }

  lemma OthersKeepQuantity(s: State, setup: Setup, call: Call)
    requires Inv(s, setup) && Bounded(call) && Answer(s, setup, call).Ok? && OffTrips(call) && !call.Edit?
    ensures forall l :: l in s.lines && l in After(s, setup, call).lines ==>
              After(s, setup, call).lines[l].quantity == s.lines[l].quantity
  {
    CallMoves(s, setup, call);
    forall l | l in s.lines && l in After(s, setup, call).lines
      ensures After(s, setup, call).lines[l].quantity == s.lines[l].quantity
    {
      if call.Raise? {
        var facility, order, chosen := CreateParts(s, After(s, setup, call), setup, call.sale, KindOf(setup, call.sale, call.given, call.shipTo), call.requested);
        ChosenNotNegative(Deliverable(s, setup, call.sale), call.requested);
        AddLinesGrow(s.(orders := s.orders[NextId(s.orders) := order]), setup, NextId(s.orders), facility, chosen);
      }
    }
  }

  lemma MovingKeepsClaims(s: State, setup: Setup, call: Call)
    requires Inv(s, setup) && ClaimsOk(s) && Bounded(call) && Answer(s, setup, call).Ok? && OffTrips(call)
    ensures ClaimsOk(After(s, setup, call)) <==> !Disturbs(s, call)
  {
    var t := After(s, setup, call);
    CallMoves(s, setup, call);
    if call.Edit? {
      assert LineOk(s, setup, call.line) && Partitioned(s, call.line);
      if Disturbs(s, call) {
        assert !Partitioned(t, call.line);
      } else {
        MovesKeepClaims(s, t, setup);
      }
    } else {
      OthersKeepQuantity(s, setup, call);
      MovesKeepClaims(s, t, setup);
    }
  }

  // ----- claiming and giving back

  lemma ClaimedLine(s: State, t: State, setup: Setup, e: int, c: Entry, l: int)
    requires TablesOk(s, setup) && ClaimsOk(s) && Claims(s, t, e, c) && l in s.lines && OpenQuantity(t.lines[c.line]) >= 0
    ensures Partitioned(t, l) <==>
              l != c.line || Awaited(s, c) || RetiredStatus(s.orders[s.lines[l].order].status) || c.committed == ClaimOf(s, e)
  {
    HeldAfter(s, t, e, c, l);
    assert Partitioned(s, l) && LineOk(s, setup, l);
  }

  lemma ClaimKeepsClaims(s: State, t: State, setup: Setup, e: int, c: Entry)
    requires TablesOk(s, setup) && ClaimsOk(s) && Claims(s, t, e, c) && OpenQuantity(t.lines[c.line]) >= 0
    ensures ClaimsOk(t) <==>
              && (Awaited(s, c) || RetiredStatus(s.orders[s.lines[c.line].order].status) || c.committed == ClaimOf(s, e))
              && (UnderWay(s, c) ==> c.sent <= c.committed)
  {
    forall l | l in s.lines ensures l in t.lines && t.lines[l].order in t.orders {
      assert LineOk(s, setup, l);
    }
    ClaimedLine(s, t, setup, e, c, c.line);
    assert SentCovered(t, e) <==> (UnderWay(s, c) ==> c.sent <= c.committed);
    if Partitioned(t, c.line) && SentCovered(t, e) {
      forall l | l in t.lines ensures Partitioned(t, l) {
        ClaimedLine(s, t, setup, e, c, l);
      }
      forall k | k in t.entries ensures SentCovered(t, k) {
        assert k != e ==> SentCovered(s, k);
      }
    }
  }

  lemma LoadKeepsClaims(s: State, setup: Setup, trip: int, stop: int, line: int, amount: Option<int>)
    requires Inv(s, setup) && ClaimsOk(s) && CommitLine(s, trip, stop, line, amount).Ok?
    ensures ClaimsOk(CommitLine(s, trip, stop, line, amount).value)
  {
    var t := CommitLine(s, trip, stop, line, amount).value;
    assert StopOk(s, stop);
    CommitClaims(s, setup, trip, stop, line, amount);
    ClaimKeepsClaims(s, t, setup, NextId(s.entries), t.entries[NextId(s.entries)]);
  }

  lemma AdjustKeepsClaims(s: State, setup: Setup, trip: int, e: int, quantity: int)
    requires Inv(s, setup) && ClaimsOk(s) && quantity > 0 && AdjustCommitment(s, trip, e, quantity).Ok?
    ensures ClaimsOk(AdjustCommitment(s, trip, e, quantity).value) <==> !Disturbs(s, Adjust(trip, e, quantity))
  {
    var t := AdjustCommitment(s, trip, e, quantity).value;
    assert EntryOk(s, setup, e);
    AdjustClaims(s, setup, trip, e, quantity);
    ClaimKeepsClaims(s, t, setup, e, t.entries[e]);
  }

  lemma FreedLine(s: State, t: State, setup: Setup, some: set<int>, l: int)
    requires TablesOk(s, setup) && ClaimsOk(s) && Frees(s, t, some) && l in s.lines
    ensures Partitioned(t, l) <==>
              RetiredStatus(s.orders[s.lines[l].order].status) || OnLine(s.entries, some - Pending(s), l, Claim) == 0
  {
    var gone, late := some * Pending(s), some - Pending(s);
    HeldFreed(s, t, some, l);
    OnLineSplit(s.entries, some, gone, l, Claim);
    assert some - gone == late;
    ClaimsNotNegative(s, setup, gone, l);
    ClaimsNotNegative(s, setup, late, l);
    assert Partitioned(s, l);
  }

  lemma FreeKeepsCovered(s: State, t: State, setup: Setup, some: set<int>)
    requires TablesOk(s, setup) && ClaimsOk(s) && Frees(s, t, some)
    ensures forall e :: e in t.entries ==> SentCovered(t, e)
  {
    forall e | e in t.entries ensures SentCovered(t, e) {
      assert SentCovered(s, e) && EntryOk(s, setup, e);
    }
  }

  lemma FreePendingKeepsClaims(s: State, t: State, setup: Setup, some: set<int>)
    requires Inv(s, setup) && ClaimsOk(s) && Frees(s, t, some) && some <= Pending(s)
    ensures ClaimsOk(t)
  {
    assert some - Pending(s) == {};
    forall l | l in t.lines ensures t.lines[l].order in t.orders && Partitioned(t, l) {
      FreedLine(s, t, setup, some, l);
      OnLineEmpty(s.entries, {}, l, Claim);
    }
    FreeKeepsCovered(s, t, setup, some);
  }

  lemma OnlyClaim(s: State, e: int, l: int)
    requires e in s.entries
    ensures OnLine(s.entries, {e}, l, Claim) == if s.entries[e].line == l then s.entries[e].committed else 0
  {
    OnLineWithout(s.entries, {e}, e, l, Claim);
    OnLineEmpty(s.entries, {e} - {e}, l, Claim);
  }

  lemma FreedPast(s: State, t: State, setup: Setup, e: int, l: int)
    requires TablesOk(s, setup) && ClaimsOk(s) && Frees(s, t, {e}) && e !in Pending(s) && l in s.lines
    ensures l in t.lines && t.lines[l].order in t.orders
    ensures Partitioned(t, l) <==> RetiredStatus(s.orders[s.lines[l].order].status) || s.entries[e].line != l
  {
    assert {e} - Pending(s) == {e};
    assert EntryOk(s, setup, e) && LineOk(s, setup, l);
    FreedLine(s, t, setup, {e}, l);
    OnlyClaim(s, e, l);
  }

  lemma UnloadKeepsClaims(s: State, setup: Setup, trip: int, e: int)
    requires Inv(s, setup) && ClaimsOk(s) && ReleaseCommitment(s, trip, e).Ok?
    ensures ClaimsOk(ReleaseCommitment(s, trip, e).value) <==> !Disturbs(s, Unload(trip, e))
  {
    var t := ReleaseCommitment(s, trip, e).value;
    assert EntryOk(s, setup, e);
    ReleaseFrees(s, setup, trip, e);
    if e in Pending(s) {
      FreePendingKeepsClaims(s, t, setup, {e});
    } else {
      FreePastKeepsClaims(s, t, setup, e);
    }
  }

  lemma FreePastKeepsClaims(s: State, t: State, setup: Setup, e: int)
    requires TablesOk(s, setup) && ClaimsOk(s) && Frees(s, t, {e}) && e !in Pending(s)
    ensures ClaimsOk(t) <==> !Past(s, e)
  {
    assert EntryOk(s, setup, e);
    FreedPast(s, t, setup, e, s.entries[e].line);
    if !Past(s, e) {
      forall l | l in t.lines ensures t.lines[l].order in t.orders && Partitioned(t, l) {
        FreedPast(s, t, setup, e, l);
      }
      FreeKeepsCovered(s, t, setup, {e});
    }
  }

  lemma DropsKeepClaims(s: State, setup: Setup, call: Call)
    requires Inv(s, setup) && ClaimsOk(s) && Answer(s, setup, call).Ok? && (call.DropStop? || call.DropTrip?)
    ensures ClaimsOk(After(s, setup, call))
  {
    if call.DropStop? {
      RemoveStopFrees(s, setup, call.trip, call.stop);
      FreePendingKeepsClaims(s, After(s, setup, call), setup, EntriesOf(s, call.stop));
    } else {
      CancelTripFrees(s, setup, call.trip);
      FreePendingKeepsClaims(s, After(s, setup, call), setup, EntriesOfTrip(s, call.trip));
    }
  }

  // ----- the road

  lemma DepartKeepsPartition(s: State, t: State, setup: Setup, trip: int, some: set<int>, l: int)
    requires TablesOk(s, setup) && ClaimsOk(s) && Departs(s, t, setup, trip, some) && OrdersDepart(s, t) && l in s.lines
    ensures t.lines[l].order in t.orders && Partitioned(t, l)
  {
    DepartHeld(s, t, setup, trip, some, l);
    assert LineOk(s, setup, l) && Partitioned(s, l);
  }

  lemma DepartKeepsCovered(s: State, t: State, setup: Setup, trip: int, some: set<int>, e: int)
    requires TablesOk(s, setup) && ClaimsOk(s) && Departs(s, t, setup, trip, some) && e in s.entries
    ensures SentCovered(t, e)
  {
    assert SentCovered(s, e) && EntryOk(s, setup, e);
  }

  lemma DepartKeepsClaims(s: State, setup: Setup, trip: int)
    requires Inv(s, setup) && ClaimsOk(s) && Depart(s, setup, trip).Ok?
    ensures ClaimsOk(Depart(s, setup, trip).value)
  {
    var t, some := Depart(s, setup, trip).value, Departing(s, trip);
    Departed(s, setup, trip);
    forall l | l in t.lines ensures t.lines[l].order in t.orders && Partitioned(t, l) {
      DepartKeepsPartition(s, t, setup, trip, some, l);
    }
    forall e | e in t.entries ensures SentCovered(t, e) {
      DepartKeepsCovered(s, t, setup, trip, some, e);
    }
  }

  lemma SentWithinClaims(s: State, setup: Setup, stop: int, some: set<int>, l: int)
    requires ClaimsOk(s) && AtStop(s, stop, some)
    ensures OnLine(s.entries, some, l, Sent) <= OnLine(s.entries, some, l, Claim)
  {
    var a, b := Column(s.entries, some, l, Sent), Column(s.entries, some, l, Claim);
    assert a.Keys == b.Keys;
    forall e | e in a ensures a[e] <= b[e] {
      assert SentCovered(s, e);
      assert a[e] == Amount(s.entries[e], Sent) && b[e] == Amount(s.entries[e], Claim);
    }
    TotalMonotone(a, b);
  }

  /** What a settlement does to a line: what was claimed at the stop is claimed no more, and what was sent
      is delivered or came back. */
  lemma SettledFigures(s: State, m: State, setup: Setup, trip: int, stop: int, some: set<int>, l: int)
    requires Settles(s, m, setup, trip, stop, some) && l in s.lines
    ensures l in m.lines && m.lines[l].order == s.lines[l].order && m.lines[l].quantity == s.lines[l].quantity
    ensures m.lines[l].committed == s.lines[l].committed - OnLine(s.entries, some, l, Claim)
    ensures Held(m, l) == Held(s, l) - OnLine(s.entries, some, l, Claim)
    ensures m.lines[l].delivered + m.lines[l].returned
         == s.lines[l].delivered + s.lines[l].returned + OnLine(s.entries, some, l, Sent)
  {
    HeldSettled(s, m, stop, some, l);
    SettledSums(s, m, some, l);
    ClaimsSame(s, m, some, some, l);
  }

  lemma SettleRetiresNone(s: State, m: State, seen: set<int>, some: set<int>, o: int)
    requires OrdersSettle(s, m, seen, some) && o in s.orders
    ensures o in m.orders && RetiredStatus(m.orders[o].status) == RetiredStatus(s.orders[o].status)
  {
  }

  lemma PartitionAfter(s: State, m: State, l: int, claimed: int, sent: int)
    requires l in s.lines && s.lines[l].order in s.orders && Partitioned(s, l) && sent <= claimed
    requires l in m.lines && m.lines[l].order == s.lines[l].order && m.lines[l].order in m.orders
    requires RetiredStatus(m.orders[m.lines[l].order].status) == RetiredStatus(s.orders[m.lines[l].order].status)
    requires m.lines[l].quantity == s.lines[l].quantity && Held(m, l) == Held(s, l) - claimed
    requires m.lines[l].committed == s.lines[l].committed - claimed
    requires m.lines[l].delivered + m.lines[l].returned == s.lines[l].delivered + s.lines[l].returned + sent
    ensures Partitioned(m, l)
  {
  }

  lemma SettleKeepsPartition(s: State, m: State, setup: Setup, trip: int, stop: int, some: set<int>, l: int)
    requires TablesOk(s, setup) && ClaimsOk(s) && Settles(s, m, setup, trip, stop, some) && l in s.lines
    ensures l in m.lines && m.lines[l].order in m.orders && Partitioned(m, l)
  {
    SettledFigures(s, m, setup, trip, stop, some, l);
    SentWithinClaims(s, setup, stop, some, l);
    SettleRetiresNone(s, m, OrdersOf(s, some), some, s.lines[l].order);
    PartitionAfter(s, m, l, OnLine(s.entries, some, l, Claim), OnLine(s.entries, some, l, Sent));
  }

  lemma SettleKeepsClaims(s: State, m: State, setup: Setup, trip: int, stop: int, some: set<int>)
    requires TablesOk(s, setup) && ClaimsOk(s) && Settles(s, m, setup, trip, stop, some)
    ensures ClaimsOk(m)
  {
    forall l | l in m.lines ensures m.lines[l].order in m.orders && Partitioned(m, l) {
      SettleKeepsPartition(s, m, setup, trip, stop, some, l);
    }
    forall e | e in m.entries ensures SentCovered(m, e) {
      assert SentCovered(s, e) && EntryOk(s, setup, e);
      assert e in some ==> EntrySettles(s.entries[e], m.entries[e]);
    }
  }

  lemma SplitKeepsClaims(m: State, t: State, setup: Setup)
    requires TablesOk(m, setup) && ClaimsOk(m) && SplitOnly(m, t)
    ensures ClaimsOk(t)
  {
    forall l | l in t.lines ensures t.lines[l].order in t.orders && Partitioned(t, l) {
      HeldSame(m, t, setup, l);
      if l in m.lines {
        assert Partitioned(m, l);
      } else {
        OnLineEmpty(m.entries, Pending(m), l, Claim);
      }
    }
    CoveredStays(m, t, setup);
  }

  lemma CloseKeepsClaims(s: State, setup: Setup, trip: int, stop: int, accepted: map<int, Acceptance>, proof: bool)
    requires Inv(s, setup) && ClaimsOk(s)
    requires CloseStop(s, setup, trip, stop, accepted, proof).Ok?
    ensures ClaimsOk(CloseStop(s, setup, trip, stop, accepted, proof).value)
  {
    var t := CloseStop(s, setup, trip, stop, accepted, proof).value;
    var m, carried, ids := Closing(s, setup, trip, stop, accepted, proof);
    SettleKeeps(s, m, setup, trip, stop, accepted.Keys);
    SettleKeepsClaims(s, m, setup, trip, stop, accepted.Keys);
    SplitsOnly(m, t, setup, carried, ids);
    SplitKeepsClaims(m, t, setup);
  }

  /** The claims stay parts of their lines after a call exactly when the call does not disturb them. */
  lemma CallKeepsClaimsExactly(s: State, setup: Setup, call: Call)
    requires Inv(s, setup) && ClaimsOk(s) && Bounded(call) && Answer(s, setup, call).Ok?
    ensures ClaimsOk(After(s, setup, call)) <==> !Disturbs(s, call)
  {
    if OffTrips(call) {
      MovingKeepsClaims(s, setup, call);
    } else if call.Load? {
      LoadKeepsClaims(s, setup, call.trip, call.stop, call.line, call.amount);
    } else if call.Adjust? {
      AdjustKeepsClaims(s, setup, call.trip, call.entry, call.quantity);
    } else if call.Unload? {
      UnloadKeepsClaims(s, setup, call.trip, call.entry);
    } else if call.Leave? {
      DepartKeepsClaims(s, setup, call.trip);
    } else if call.Resolve? {
      CloseKeepsClaims(s, setup, call.trip, call.stop, call.accepted, call.proof);
    } else {
      DropsKeepClaims(s, setup, call);
    }
  }
}
