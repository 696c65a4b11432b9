/** What keeps deliveries within what was ordered: a line that can still go on the road has at least its
    pending claims committed, and nothing is delivered of an order that has not come out so.  Every
    operation keeps this but for exactly those that lower, below that, a claim whose stop was made, and the
    closing of a stop that fails an order although part of it was accepted. */
module DeliveryGuard {
  import opened Outcomes
  import opened Tables
  import opened DeliveryEvents
  import opened Delivery
  import opened DeliveryInvariant
  import opened DeliveryKeeps
  import opened DeliveryTravel
  import opened DeliveryDepart
  import opened DeliverySettle
  import opened DeliverySettleTotals
  import opened DeliveryClose
  import opened DeliveryCalls
  import opened DeliveryMoves
  import opened DeliveryClaims

  /** A stop still to be made by a trip on the road. */
  predicate OnTheWay(s: State, p: int) {
    && p in s.stops && s.stops[p].outcome == StopPending
    && s.stops[p].trip in s.trips && s.trips[s.stops[p].trip] == TripDeparted
  }

  ghost predicate ComesBack(s: State, o: int) {
    exists e :: e in s.entries && OnTheWay(s, s.entries[e].stop) && OfOrderOn(s, e, o)
  }

  predicate OfOrderOn(s: State, e: int, o: int) {
    e in s.entries && s.entries[e].line in s.lines && s.lines[s.entries[e].line].order == o
  }

  /** The order can go on the road, again or for the first time: it is waiting, or it is on the road with a
      stop still to be made. */
  ghost predicate Mobile(s: State, o: int) {
    o in s.orders && (Idle(s.orders[o].status) || (s.orders[o].status == InTransit && ComesBack(s, o)))
  }

  /** What a stop's entries sent of a line. */
  ghost function SentAt(s: State, p: int, l: int): int {
    OnLine(s.entries, EntriesOf(s, p), l, Sent)
  }

  ghost predicate Guarded(s: State, l: int)
    requires l in s.lines && s.lines[l].order in s.orders
  {
    var line := s.lines[l];
    && (Mobile(s, line.order) ==> Held(s, l) <= line.committed)
    && (forall p :: OnTheWay(s, p) ==> SentAt(s, p, l) <= line.quantity)
    && DeliveredWithin(s, l) && Fresh(s, l)
  }

  /** Nothing is delivered of an order still open, failed or retired. */
  predicate Fresh(s: State, l: int)
    requires l in s.lines && s.lines[l].order in s.orders
  {
    !HasDelivered(s.orders[s.lines[l].order].status) ==> s.lines[l].delivered == 0
  }

  /** Nothing is delivered beyond what was ordered, the part split off to a child aside. */
  predicate DeliveredWithin(s: State, l: int)
    requires l in s.lines && s.lines[l].order in s.orders
  {
    s.lines[l].delivered + (if s.orders[s.lines[l].order].status == PartiallyDelivered then s.lines[l].returned else 0)
    <= s.lines[l].quantity
  }

  ghost predicate AllGuarded(s: State) {
    forall l :: l in s.lines ==> s.lines[l].order in s.orders && Guarded(s, l)
  }

  /** A claim whose stop was made, lowered or given back although its order can go on the road again, so
      that less is committed of the line than its pending entries claim.  The operations look neither at
      the stop nor at the order. */
  ghost predicate Lowers(s: State, e: int, quantity: int) {
    && e in s.entries && !Awaited(s, s.entries[e])
    && s.entries[e].line in s.lines && Mobile(s, s.lines[s.entries[e].line].order)
    && s.lines[s.entries[e].line].committed - s.entries[e].committed + quantity < Held(s, s.entries[e].line)
  }

  ghost predicate Undercuts(s: State, call: Call) {
    match call
    case Adjust(_, e, quantity) => Lowers(s, e, quantity)
    case Unload(_, e) => Lowers(s, e, 0)
    case _ => false
  }

  /** More than nothing of the line is accepted at a stop, and its order fails there all the same: less than
      nothing is stated of other lines, which no operation refuses, and all sums to zero. */
  ghost predicate OffsetAt(s: State, entries: map<int, Entry>, some: set<int>, l: int) {
    && l in s.lines && Target(s, entries, some, s.lines[l].order) == Failed
    && OnLine(entries, some, l, Accepted) > 0
  }

  ghost predicate OffsetBy(s: State, call: Call, l: int) {
    call.Resolve? && OffsetAt(s, SettledEntries(s.entries, call.accepted), call.accepted.Keys, l)
  }

  ghost predicate Offsets(s: State, call: Call) {
    exists l :: OffsetBy(s, call, l)
  }

  /** The calls that end the bound on deliveries.  All that is looked at is known before the call. */
  ghost predicate Careless(s: State, call: Call) {
    Undercuts(s, call) || Offsets(s, call)
  }

  lemma OthersAreCareful(s: State, call: Call)
    requires !call.Adjust? && !call.Unload? && !call.Resolve?
    ensures !Careless(s, call)
  {
  }

  // ----- drafting, moving, planning

  lemma ComesBackSame(s: State, t: State, setup: Setup, o: int)
    requires TablesOk(s, setup) && SameTravel(s, t)
    ensures ComesBack(t, o) <==> ComesBack(s, o)
  {
    forall e | e in s.entries
      ensures OnTheWay(t, s.entries[e].stop) <==> OnTheWay(s, s.entries[e].stop)
      ensures OfOrderOn(t, e, o) <==> OfOrderOn(s, e, o)
    {
      assert EntryOk(s, setup, e);
    }
  }

  lemma SentAtSame(s: State, t: State, setup: Setup, p: int, l: int)
    requires TablesOk(s, setup) && SameTravel(s, t)
    ensures SentAt(t, p, l) == SentAt(s, p, l)
  {
    assert EntriesOf(t, p) == EntriesOf(s, p);
  }

  /** Nothing on the way is of an order that never travelled. */
  lemma NothingSentOf(s: State, setup: Setup, p: int, l: int)
    requires TablesOk(s, setup) && OnTheWay(s, p) && l in s.lines
    requires !Travelled(s.orders[s.lines[l].order].status)
    ensures SentAt(s, p, l) == 0
  {
    forall e | e in EntriesOf(s, p) ensures s.entries[e].line != l {
      assert EntryOk(s, setup, e);
    }
    OnLineEmpty(s.entries, EntriesOf(s, p), l, Sent);
  }

  lemma NothingSentOnNew(s: State, p: int, l: int)
    requires NoEntryOn(s, l)
    ensures SentAt(s, p, l) == 0 && Held(s, l) == 0
  {
    OnLineEmpty(s.entries, EntriesOf(s, p), l, Sent);
    OnLineEmpty(s.entries, Pending(s), l, Claim);
  }

  lemma OnTheWayBefore(s: State, t: State, setup: Setup, p: int, l: int)
    requires TablesOk(s, setup) && AllMove(s, t) && OnTheWay(t, p)
    ensures OnTheWay(s, p) || SentAt(t, p, l) == 0
  {
    if e :| e in EntriesOf(t, p) {
      assert EntryOk(s, setup, e);
    } else {
      OnLineEmpty(t.entries, EntriesOf(t, p), l, Sent);
    }
  }

  lemma SentStaysWithin(s: State, t: State, setup: Setup, p: int, l: int)
    requires TablesOk(s, setup) && AllGuarded(s) && AllMove(s, t) && l in t.lines && OnTheWay(t, p)
    ensures SentAt(t, p, l) <= t.lines[l].quantity
  {
    OnTheWayBefore(s, t, setup, p, l);
    SentAtSame(s, t, setup, p, l);
    assert Moves(s, t, l);
    if l !in s.lines {
      NothingSentOnNew(s, p, l);
    } else {
      assert Guarded(s, l) && LineOk(s, setup, l);
      if OnTheWay(s, p) && s.orders[s.lines[l].order].status == Draft {
        NothingSentOf(s, setup, p, l);
      }
    }
  }

  lemma MoveStaysGuarded(s: State, t: State, setup: Setup, l: int)
    requires TablesOk(s, setup) && AllGuarded(s) && AllMove(s, t) && l in t.lines
    ensures t.lines[l].order in t.orders && Guarded(t, l)
  {
    assert Moves(s, t, l);
    HeldSame(s, t, setup, l);
    ComesBackSame(s, t, setup, t.lines[l].order);
    forall p | OnTheWay(t, p) ensures SentAt(t, p, l) <= t.lines[l].quantity {
      SentStaysWithin(s, t, setup, p, l);
    }
    if l in s.lines {
      assert Guarded(s, l) && LineOk(s, setup, l);
    } else {
      NothingSentOnNew(s, 0, l);
    }
  }

  lemma MovesKeepGuarded(s: State, t: State, setup: Setup)
    requires TablesOk(s, setup) && AllGuarded(s) && AllMove(s, t)
    ensures AllGuarded(t)
  {
    forall l | l in t.lines ensures t.lines[l].order in t.orders && Guarded(t, l) {
      MoveStaysGuarded(s, t, setup, l);
    }
  }

  // ----- claiming and giving back

  lemma ClaimComesBack(s: State, t: State, setup: Setup, e: int, c: Entry, o: int)
    requires TablesOk(s, setup) && Claims(s, t, e, c)
    ensures ComesBack(t, o) <==> ComesBack(s, o)
  {
    forall k | k in t.entries && OnTheWay(t, t.entries[k].stop) && OfOrderOn(t, k, o)
      ensures k in s.entries && OnTheWay(s, s.entries[k].stop) && OfOrderOn(s, k, o)
    {
    }
    forall k | k in s.entries && OnTheWay(s, s.entries[k].stop) && OfOrderOn(s, k, o)
      ensures k in t.entries && OnTheWay(t, t.entries[k].stop) && OfOrderOn(t, k, o)
    {
    }
  }

  lemma ClaimSentAt(s: State, t: State, e: int, c: Entry, p: int, l: int)
    requires Claims(s, t, e, c) && OnTheWay(s, p)
    ensures SentAt(t, p, l) == SentAt(s, p, l)
  {
    forall k ensures k in EntriesOf(t, p) <==> k in EntriesOf(s, p) {
    }
    assert EntriesOf(t, p) == EntriesOf(s, p);
    OnLineSame(t.entries, s.entries, EntriesOf(t, p), EntriesOf(s, p), l, Sent) by {
      assert Column(t.entries, EntriesOf(t, p), l, Sent).Keys == Column(s.entries, EntriesOf(s, p), l, Sent).Keys;
    }
  }

  lemma ClaimGuards(s: State, t: State, setup: Setup, e: int, c: Entry, l: int)
    requires TablesOk(s, setup) && AllGuarded(s) && Claims(s, t, e, c) && l in s.lines
    ensures l in t.lines && t.lines[l].order in t.orders
    ensures Guarded(t, l) <==>
              (l == c.line && !Awaited(s, c) && Mobile(s, s.lines[l].order) ==>
                 Held(s, l) <= s.lines[l].committed + c.committed - ClaimOf(s, e))
  {
    HeldAfter(s, t, e, c, l);
    ClaimComesBack(s, t, setup, e, c, s.lines[l].order);
    assert Guarded(s, l) && LineOk(s, setup, l);
    forall p | OnTheWay(t, p) ensures SentAt(t, p, l) <= t.lines[l].quantity {
      assert OnTheWay(s, p);
      ClaimSentAt(s, t, e, c, p, l);
    }
  }

  lemma ClaimKeepsGuarded(s: State, t: State, setup: Setup, e: int, c: Entry)
    requires TablesOk(s, setup) && AllGuarded(s) && Claims(s, t, e, c)
    ensures AllGuarded(t) <==>
              (!Awaited(s, c) && Mobile(s, s.lines[c.line].order) ==>
                 Held(s, c.line) <= s.lines[c.line].committed + c.committed - ClaimOf(s, e))
  {
    ClaimGuards(s, t, setup, e, c, c.line);
    if Guarded(t, c.line) {
      forall l | l in t.lines ensures t.lines[l].order in t.orders && Guarded(t, l) {
        ClaimGuards(s, t, setup, e, c, l);
      }
    }
  }

  lemma LoadKeepsGuarded(s: State, setup: Setup, trip: int, stop: int, line: int, amount: Option<int>)
    requires Inv(s, setup) && AllGuarded(s) && CommitLine(s, trip, stop, line, amount).Ok?
    ensures AllGuarded(CommitLine(s, trip, stop, line, amount).value)
  {
    var t := CommitLine(s, trip, stop, line, amount).value;
    assert StopOk(s, stop);
    CommitClaims(s, setup, trip, stop, line, amount);
    ClaimKeepsGuarded(s, t, setup, NextId(s.entries), t.entries[NextId(s.entries)]);
  }

  lemma AdjustKeepsGuarded(s: State, setup: Setup, trip: int, e: int, quantity: int)
    requires Inv(s, setup) && AllGuarded(s) && quantity > 0 && AdjustCommitment(s, trip, e, quantity).Ok?
    ensures AllGuarded(AdjustCommitment(s, trip, e, quantity).value) <==> !Lowers(s, e, quantity)
  {
    var t := AdjustCommitment(s, trip, e, quantity).value;
    assert EntryOk(s, setup, e);
    AdjustClaims(s, setup, trip, e, quantity);
    ClaimKeepsGuarded(s, t, setup, e, t.entries[e]);
  }

  /** Fewer entries come back, and those there are were there before. */
  lemma FreeComesBack(s: State, t: State, setup: Setup, some: set<int>, o: int)
    requires TablesOk(s, setup) && Frees(s, t, some)
    ensures ComesBack(t, o) ==> ComesBack(s, o)
    ensures (forall e :: e in some ==> !OnTheWay(s, s.entries[e].stop)) ==> (ComesBack(t, o) <==> ComesBack(s, o))
  {
    forall e | e in s.entries && e !in some
      ensures e in t.entries && t.entries[e] == s.entries[e]
      ensures OnTheWay(t, t.entries[e].stop) <==> OnTheWay(s, s.entries[e].stop)
      ensures OfOrderOn(t, e, o) <==> OfOrderOn(s, e, o)
    {
      assert EntryOk(s, setup, e);
    }
    forall e | e in t.entries ensures e in s.entries && e !in some {
    }
  }

  lemma FreeSentAt(s: State, t: State, setup: Setup, some: set<int>, p: int, l: int)
    requires TablesOk(s, setup) && Frees(s, t, some)
    ensures SentAt(t, p, l) <= SentAt(s, p, l)
  {
    var part, whole := Column(t.entries, EntriesOf(t, p), l, Sent), Column(s.entries, EntriesOf(s, p), l, Sent);
    forall e | e in whole ensures whole[e] >= 0 {
      assert EntryOk(s, setup, e);
      assert whole[e] == Amount(s.entries[e], Sent);
    }
    forall e | e in part ensures e in whole && part[e] == whole[e] {
      assert part[e] == Amount(t.entries[e], Sent);
      assert e in whole && whole[e] == Amount(s.entries[e], Sent);
    }
    TotalPart(part, whole);
  }

  /** What is committed beyond the pending claims, before and after. */
  lemma FreeSlack(s: State, t: State, setup: Setup, some: set<int>, l: int)
    requires TablesOk(s, setup) && Frees(s, t, some) && l in s.lines
    ensures l in t.lines && t.lines[l].order == s.lines[l].order && t.orders == s.orders
    ensures t.lines[l].committed - Held(t, l)
         == s.lines[l].committed - Held(s, l) - OnLine(s.entries, some - Pending(s), l, Claim)
  {
    HeldFreed(s, t, some, l);
    OnLineSplit(s.entries, some, some * Pending(s), l, Claim);
    assert some - some * Pending(s) == some - Pending(s);
  }

  lemma FreeKeepsSent(s: State, t: State, setup: Setup, some: set<int>, l: int)
    requires TablesOk(s, setup) && AllGuarded(s) && Frees(s, t, some) && l in s.lines
    ensures forall p :: OnTheWay(t, p) ==> SentAt(t, p, l) <= t.lines[l].quantity
  {
    assert Guarded(s, l);
    forall p | OnTheWay(t, p) ensures SentAt(t, p, l) <= t.lines[l].quantity {
      FreeSentAt(s, t, setup, some, p, l);
      assert StopOk(t, p) && StopOk(s, p);
      WayKept(s, t, setup, some, p, l);
    }
  }

  lemma WayKept(s: State, t: State, setup: Setup, some: set<int>, p: int, l: int)
    requires TablesOk(s, setup) && Frees(s, t, some) && OnTheWay(t, p)
    ensures OnTheWay(s, p) || SentAt(t, p, l) == 0
  {
    if e :| e in EntriesOf(t, p) {
      assert e in s.entries && EntryOk(s, setup, e);
    } else {
      OnLineEmpty(t.entries, EntriesOf(t, p), l, Sent);
    }
  }

  lemma FreeGuards(s: State, t: State, setup: Setup, some: set<int>, l: int)
    requires TablesOk(s, setup) && AllGuarded(s) && Frees(s, t, some) && l in s.lines
    requires Mobile(s, s.lines[l].order) ==> OnLine(s.entries, some - Pending(s), l, Claim) <= s.lines[l].committed - Held(s, l)
    ensures l in t.lines && t.lines[l].order in t.orders && Guarded(t, l)
  {
    FreeSlack(s, t, setup, some, l);
    FreeComesBack(s, t, setup, some, s.lines[l].order);
    FreeKeepsSent(s, t, setup, some, l);
    assert Guarded(s, l) && LineOk(s, setup, l);
  }

  lemma FreePendingKeepsGuarded(s: State, t: State, setup: Setup, some: set<int>)
    requires TablesOk(s, setup) && AllGuarded(s) && Frees(s, t, some) && some <= Pending(s)
    ensures AllGuarded(t)
  {
    assert some - Pending(s) == {};
    forall l | l in t.lines ensures t.lines[l].order in t.orders && Guarded(t, l) {
      assert Guarded(s, l);
      OnLineEmpty(s.entries, {}, l, Claim);
      FreeGuards(s, t, setup, some, l);
    }
  }

  lemma FreePastGuards(s: State, t: State, setup: Setup, e: int, l: int)
    requires TablesOk(s, setup) && AllGuarded(s) && Frees(s, t, {e}) && e !in Pending(s) && l in s.lines && !Lowers(s, e, 0)
    ensures l in t.lines && t.lines[l].order in t.orders && Guarded(t, l)
  {
    assert Guarded(s, l) && EntryOk(s, setup, e);
    assert {e} - Pending(s) == {e};
    OnlyClaim(s, e, l);
    FreeGuards(s, t, setup, {e}, l);
  }

  lemma FreePastUncovers(s: State, t: State, setup: Setup, e: int)
    requires TablesOk(s, setup) && Frees(s, t, {e}) && e !in Pending(s) && Lowers(s, e, 0)
    ensures !AllGuarded(t)
  {
    var l := s.entries[e].line;
    assert {e} - Pending(s) == {e};
    FreeSlack(s, t, setup, {e}, l);
    OnlyClaim(s, e, l);
    FreeComesBack(s, t, setup, {e}, s.lines[l].order);
    assert Mobile(t, s.lines[l].order) && t.lines[l].committed < Held(t, l);
  }

  lemma FreePastKeepsGuarded(s: State, t: State, setup: Setup, e: int)
    requires TablesOk(s, setup) && AllGuarded(s) && Frees(s, t, {e}) && e !in Pending(s)
    ensures AllGuarded(t) <==> !Lowers(s, e, 0)
  {
    if Lowers(s, e, 0) {
      FreePastUncovers(s, t, setup, e);
    } else {
      forall l | l in t.lines ensures t.lines[l].order in t.orders && Guarded(t, l) {
        FreePastGuards(s, t, setup, e, l);
      }
    }
  }

  lemma UnloadKeepsGuarded(s: State, setup: Setup, trip: int, e: int)
    requires Inv(s, setup) && AllGuarded(s) && ReleaseCommitment(s, trip, e).Ok?
    ensures AllGuarded(ReleaseCommitment(s, trip, e).value) <==> !Lowers(s, e, 0)
  {
    var t := ReleaseCommitment(s, trip, e).value;
    ReleaseFrees(s, setup, trip, e);
    if e in Pending(s) {
      FreePendingKeepsGuarded(s, t, setup, {e});
    } else {
      FreePastKeepsGuarded(s, t, setup, e);
    }
  }

  lemma DropsKeepGuarded(s: State, setup: Setup, call: Call)
    requires Inv(s, setup) && AllGuarded(s) && Answer(s, setup, call).Ok? && (call.DropStop? || call.DropTrip?)
    ensures AllGuarded(After(s, setup, call))
  {
    if call.DropStop? {
      RemoveStopFrees(s, setup, call.trip, call.stop);
      FreePendingKeepsGuarded(s, After(s, setup, call), setup, EntriesOf(s, call.stop));
    } else {
      CancelTripFrees(s, setup, call.trip);
      FreePendingKeepsGuarded(s, After(s, setup, call), setup, EntriesOfTrip(s, call.trip));
    }
  }

  // ----- departing

  /** A departing stop sends what it claims, and that is no more than the line has pending. */
  lemma DepartSentAt(s: State, t: State, setup: Setup, trip: int, some: set<int>, p: int, l: int)
    requires TablesOk(s, setup) && Departs(s, t, setup, trip, some) && p in s.stops
    ensures s.stops[p].trip == trip ==> SentAt(t, p, l) <= Held(s, l)
    ensures s.stops[p].trip != trip ==> SentAt(t, p, l) == SentAt(s, p, l)
  {
    assert StopOk(s, p);
    forall e ensures e in EntriesOf(t, p) <==> e in EntriesOf(s, p) {
      assert e in t.entries <==> e in s.entries;
    }
    assert EntriesOf(t, p) == EntriesOf(s, p);
    if s.stops[p].trip == trip {
      var part, whole := Column(t.entries, EntriesOf(t, p), l, Sent), Column(s.entries, Pending(s), l, Claim);
      forall e | e in whole ensures whole[e] >= 0 {
        assert EntryOk(s, setup, e);
        assert whole[e] == Amount(s.entries[e], Claim);
      }
      forall e | e in part ensures e in whole && part[e] == whole[e] {
        assert e in some && e in Pending(s);
        assert part[e] == Amount(t.entries[e], Sent) && whole[e] == Amount(s.entries[e], Claim);
      }
      TotalPart(part, whole);
    } else {
      OnLineSame(t.entries, s.entries, EntriesOf(t, p), EntriesOf(s, p), l, Sent) by {
        forall e | e in EntriesOf(s, p) ensures t.entries[e] == s.entries[e] {
          assert e !in some;
        }
        assert Column(t.entries, EntriesOf(t, p), l, Sent).Keys == Column(s.entries, EntriesOf(s, p), l, Sent).Keys;
      }
    }
  }

  lemma AboardIsMoving(s: State, some: set<int>, e: int, o: int)
    requires OnKnownLines(s, some) && OfOrderOn(s, e, o)
    ensures e in some ==> o in OrdersOf(s, some)
  {
  }

  /** Only the orders aboard come to have a stop to be made. */
  lemma DepartComesBack(s: State, t: State, setup: Setup, trip: int, some: set<int>, o: int)
    requires TablesOk(s, setup) && Departs(s, t, setup, trip, some) && OnKnownLines(s, some) && o !in OrdersOf(s, some)
    ensures ComesBack(t, o) ==> ComesBack(s, o)
  {
    forall e | e in t.entries && OnTheWay(t, t.entries[e].stop) && OfOrderOn(t, e, o)
      ensures e in s.entries && OnTheWay(s, s.entries[e].stop) && OfOrderOn(s, e, o)
    {
      assert EntryOk(s, setup, e);
      AboardIsMoving(s, some, e, o);
    }
  }

  lemma NothingAboard(s: State, t: State, setup: Setup, trip: int, some: set<int>, p: int, l: int)
    requires TablesOk(s, setup) && Departs(s, t, setup, trip, some) && p in s.stops && s.stops[p].trip == trip
    requires forall e :: e in some ==> s.entries[e].line != l
    ensures SentAt(t, p, l) == 0
  {
    forall e | e in EntriesOf(t, p) ensures t.entries[e].line != l {
      assert e in some;
    }
    OnLineEmpty(t.entries, EntriesOf(t, p), l, Sent);
  }

  /** What is aboard of a line is of an order that had delivered nothing, and fits in the line. */
  lemma AboardFits(s: State, t: State, setup: Setup, trip: int, some: set<int>, e: int)
    requires TablesOk(s, setup) && AllGuarded(s) && Departure(s, t, setup, trip, some) && e in some
    ensures s.entries[e].line in s.lines && Held(s, s.entries[e].line) <= s.lines[s.entries[e].line].quantity
  {
    var l := s.entries[e].line;
    AboardPrepared(s, t, setup, trip, some, e);
    WaitingHolds(s, l);
  }

  lemma WaitingHolds(s: State, l: int)
    requires AllGuarded(s) && l in s.lines && s.lines[l].order in s.orders
    requires s.orders[s.lines[l].order].status == InPreparation
    ensures Held(s, l) <= s.lines[l].committed && s.lines[l].delivered == 0
  {
    assert Guarded(s, l);
  }

  lemma AboardPrepared(s: State, t: State, setup: Setup, trip: int, some: set<int>, e: int)
    requires TablesOk(s, setup) && Departure(s, t, setup, trip, some) && e in some
    ensures s.entries[e].line in s.lines && s.lines[s.entries[e].line].order in s.orders
    ensures var line := s.lines[s.entries[e].line];
            s.orders[line.order].status == InPreparation && line.committed <= line.quantity - line.delivered
  {
    assert EntryOk(s, setup, e) && s.lines[s.entries[e].line].order in OrdersOf(s, some);
  }

  lemma DepartSentWithin(s: State, t: State, setup: Setup, trip: int, some: set<int>, p: int, l: int)
    requires TablesOk(s, setup) && AllGuarded(s) && Departure(s, t, setup, trip, some) && l in s.lines && OnTheWay(t, p)
    ensures SentAt(t, p, l) <= s.lines[l].quantity
  {
    assert Guarded(s, l) && LineOk(s, setup, l);
    DepartSentAt(s, t, setup, trip, some, p, l);
    if s.stops[p].trip == trip {
      if e :| e in some && s.entries[e].line == l {
        AboardFits(s, t, setup, trip, some, e);
      } else {
        NothingAboard(s, t, setup, trip, some, p, l);
      }
    } else {
      assert OnTheWay(s, p);
    }
  }

  lemma DepartGuards(s: State, t: State, setup: Setup, trip: int, some: set<int>, l: int)
    requires TablesOk(s, setup) && AllGuarded(s) && Departure(s, t, setup, trip, some) && l in s.lines
    ensures l in t.lines && t.lines[l].order in t.orders && Guarded(t, l)
  {
    var o := s.lines[l].order;
    assert Guarded(s, l) && LineOk(s, setup, l);
    DepartHeld(s, t, setup, trip, some, l);
    forall p | OnTheWay(t, p) ensures SentAt(t, p, l) <= t.lines[l].quantity {
      DepartSentWithin(s, t, setup, trip, some, p, l);
    }
    if o !in OrdersOf(s, some) {
      DepartComesBack(s, t, setup, trip, some, o);
    }
  }

  lemma DepartKeepsGuarded(s: State, setup: Setup, trip: int)
    requires Inv(s, setup) && AllGuarded(s) && Depart(s, setup, trip).Ok?
    ensures AllGuarded(Depart(s, setup, trip).value)
  {
    var t, some := Depart(s, setup, trip).value, Departing(s, trip);
    Departed(s, setup, trip);
    forall l | l in t.lines ensures t.lines[l].order in t.orders && Guarded(t, l) {
      DepartGuards(s, t, setup, trip, some, l);
    }
  }

  // ----- closing a stop

  lemma SettleSentAt(s: State, m: State, setup: Setup, stop: int, some: set<int>, p: int, l: int)
    requires TablesOk(s, setup) && AtStop(s, stop, some) && EntriesSettle(s, m, some) && StopsSettle(s, m, stop) && OnTheWay(m, p)
    ensures OnTheWay(s, p) && SentAt(m, p, l) == SentAt(s, p, l)
  {
    assert p != stop;
    forall e ensures e in EntriesOf(m, p) <==> e in EntriesOf(s, p) {
      assert e in m.entries <==> e in s.entries;
      assert e in some ==> EntrySettles(s.entries[e], m.entries[e]);
    }
    assert EntriesOf(m, p) == EntriesOf(s, p);
    OnLineSame(m.entries, s.entries, EntriesOf(m, p), EntriesOf(s, p), l, Sent) by {
      forall e | e in EntriesOf(s, p) ensures m.entries[e] == s.entries[e] {
        assert e !in some;
      }
      assert Column(m.entries, EntriesOf(m, p), l, Sent).Keys == Column(s.entries, EntriesOf(s, p), l, Sent).Keys;
    }
  }

  lemma SettleComesBack(s: State, m: State, stop: int, some: set<int>, o: int)
    requires AtStop(s, stop, some) && EntriesSettle(s, m, some) && LinesSettle(s, m, some) && StopsSettle(s, m, stop)
    ensures ComesBack(m, o) ==> ComesBack(s, o)
  {
    forall e | e in m.entries && OnTheWay(m, m.entries[e].stop) && OfOrderOn(m, e, o)
      ensures e in s.entries && OnTheWay(s, s.entries[e].stop) && OfOrderOn(s, e, o)
    {
      assert e in some ==> EntrySettles(s.entries[e], m.entries[e]);
    }
  }

  /** An order at a stop on the way can come back. */
  lemma SeenComesBack(s: State, stop: int, some: set<int>, o: int)
    requires AtStop(s, stop, some) && OnKnownLines(s, some) && o in OrdersOf(s, some)
    ensures ComesBack(s, o)
  {
    var e :| e in some && s.lines[s.entries[e].line].order == o;
    assert OfOrderOn(s, e, o) && OnTheWay(s, s.entries[e].stop);
  }

  lemma SettleKeepsMobile(s: State, m: State, setup: Setup, trip: int, stop: int, some: set<int>, o: int)
    requires Settles(s, m, setup, trip, stop, some) && o in s.orders
    ensures Mobile(m, o) ==> Mobile(s, o)
  {
    SettleComesBack(s, m, stop, some, o);
    if o in OrdersOf(s, some) {
      SeenComesBack(s, stop, some, o);
    }
  }

  /** What one stop settles of a line is what it sent, and that is within the line. */
  lemma SettledTogether(s: State, setup: Setup, stop: int, some: set<int>, l: int)
    requires AllGuarded(s) && AtStop(s, stop, some) && l in s.lines
    ensures OnLine(s.entries, some, l, Sent) <= s.lines[l].quantity
  {
    AllAtStop(s, stop, some);
    assert Guarded(s, l);
    assert SentAt(s, stop, l) <= s.lines[l].quantity;
  }

  /** A line of an order on the road had nothing delivered or returned. */
  lemma FreshOnRoad(s: State, setup: Setup, l: int)
    requires TablesOk(s, setup) && AllGuarded(s) && l in s.lines && s.orders[s.lines[l].order].status == InTransit
    ensures s.lines[l].delivered == 0 && s.lines[l].returned == 0
  {
    assert LineOk(s, setup, l) && Guarded(s, l);
  }

  /** Without an offset, a failed order's lines had nothing accepted at all. */
  lemma NothingOffset(s: State, m: State, some: set<int>, l: int)
    requires EntriesSettle(s, m, some) && OnKnownLines(s, some) && l in s.lines
    requires Target(s, m.entries, some, s.lines[l].order) == Failed && forall k :: !OffsetAt(s, m.entries, some, k)
    ensures OnLine(m.entries, some, l, Accepted) == 0
  {
    var chosen := LinesOf(s, s.lines[l].order);
    forall e | e in some ensures m.entries[e].line == s.entries[e].line {
      assert EntrySettles(s.entries[e], m.entries[e]);
    }
    var byLine := ByLine(m.entries, some, s.lines.Keys, chosen, Accepted);
    ByLineIsByEntry(m.entries, some, s.lines.Keys, chosen, Accepted);
    TotalAlike(ByEntry(m.entries, some, chosen, Accepted), OrderColumn(s, m.entries, some, s.lines[l].order, Accepted));
    forall k | k in byLine ensures byLine[k] <= 0 {
      assert !OffsetAt(s, m.entries, some, k);
    }
    TotalOnlyZeros(byLine);
    assert byLine[l] == 0;
  }

  lemma SettleStaysFresh(s: State, m: State, some: set<int>, l: int)
    requires l in s.lines && s.lines[l].order in s.orders && Fresh(s, l)
    requires EntriesSettle(s, m, some) && LinesSettle(s, m, some) && OnKnownLines(s, some)
    requires OrdersSettle(s, m, OrdersOf(s, some), some) && forall k :: !OffsetAt(s, m.entries, some, k)
    ensures l in m.lines && m.lines[l].order in m.orders && Fresh(m, l)
  {
    SettledStatus(s, m, OrdersOf(s, some), some, l);
    if s.lines[l].order in OrdersOf(s, some) && Target(s, m.entries, some, s.lines[l].order) == Failed {
      NothingOffset(s, m, some, l);
    }
  }

  lemma SettledWithin(s: State, m: State, setup: Setup, stop: int, seen: set<int>, some: set<int>, l: int)
    requires TablesOk(s, setup) && AllGuarded(s) && l in s.lines
    requires AtStop(s, stop, some) && EntriesSettle(s, m, some) && LinesSettle(s, m, some)
    requires OrdersSettle(s, m, seen, some) && OnKnownLines(s, some) && seen == OrdersOf(s, some)
    ensures l in m.lines && m.lines[l].order in m.orders && DeliveredWithin(m, l)
  {
    SettledSums(s, m, some, l);
    SettledTogether(s, setup, stop, some, l);
    if s.lines[l].order in seen {
      FreshOnRoad(s, setup, l);
    } else {
      assert Guarded(s, l);
      SettledStatus(s, m, seen, some, l);
    }
  }

  lemma SettleGuards(s: State, m: State, setup: Setup, trip: int, stop: int, some: set<int>, l: int)
    requires TablesOk(s, setup) && AllGuarded(s) && Settles(s, m, setup, trip, stop, some) && l in s.lines
    requires forall k :: !OffsetAt(s, m.entries, some, k)
    ensures l in m.lines && m.lines[l].order in m.orders && Guarded(m, l)
  {
    assert Guarded(s, l);
    SettleStaysFresh(s, m, some, l);
    SettledFigures(s, m, setup, trip, stop, some, l);
    SettledWithin(s, m, setup, stop, OrdersOf(s, some), some, l);
    SettleKeepsMobile(s, m, setup, trip, stop, some, s.lines[l].order);
    forall p | OnTheWay(m, p) ensures SentAt(m, p, l) <= m.lines[l].quantity {
      SettleSentAt(s, m, setup, stop, some, p, l);
    }
  }

  lemma SettleKeepsGuarded(s: State, m: State, setup: Setup, trip: int, stop: int, some: set<int>)
    requires TablesOk(s, setup) && AllGuarded(s) && Settles(s, m, setup, trip, stop, some)
    requires forall k :: !OffsetAt(s, m.entries, some, k)
    ensures AllGuarded(m)
  {
    forall l | l in m.lines ensures m.lines[l].order in m.orders && Guarded(m, l) {
      SettleGuards(s, m, setup, trip, stop, some, l);
    }
  }

  lemma SplitGuards(m: State, t: State, setup: Setup, l: int)
    requires TablesOk(m, setup) && AllGuarded(m) && SplitOnly(m, t) && l in t.lines
    ensures t.lines[l].order in t.orders && Guarded(t, l)
  {
    HeldSame(m, t, setup, l);
    ComesBackSame(m, t, setup, t.lines[l].order);
    if l in m.lines {
      assert Guarded(m, l);
    }
    forall p | OnTheWay(t, p) ensures SentAt(t, p, l) <= t.lines[l].quantity {
      SentAtSame(m, t, setup, p, l);
      if l !in m.lines {
        NothingSentOnNew(m, p, l);
      } else if e :| e in EntriesOf(m, p) {
        assert EntryOk(m, setup, e);
      } else {
        OnLineEmpty(m.entries, EntriesOf(m, p), l, Sent);
        assert LineOk(m, setup, l);
      }
    }
    if l !in m.lines {
      NothingSentOnNew(m, 0, l);
    }
  }

  lemma CloseKeepsGuarded(s: State, setup: Setup, trip: int, stop: int, accepted: map<int, Acceptance>, proof: bool)
    requires Inv(s, setup) && AllGuarded(s) && CloseStop(s, setup, trip, stop, accepted, proof).Ok?
    ensures AllGuarded(CloseStop(s, setup, trip, stop, accepted, proof).value)
            <==> !Offsets(s, Resolve(trip, stop, accepted, proof))
  {
    var call, t := Resolve(trip, stop, accepted, proof), CloseStop(s, setup, trip, stop, accepted, proof).value;
    var m, carried, ids := Closing(s, setup, trip, stop, accepted, proof);
    SettleKeeps(s, m, setup, trip, stop, accepted.Keys);
    SplitsOnly(m, t, setup, carried, ids);
    forall l ensures OffsetBy(s, call, l) <==> OffsetAt(s, m.entries, accepted.Keys, l) {
    }
    ClosingGuards(s, m, t, setup, trip, stop, accepted.Keys);
  }

  lemma ClosingGuards(s: State, m: State, t: State, setup: Setup, trip: int, stop: int, some: set<int>)
    requires TablesOk(s, setup) && AllGuarded(s) && Settles(s, m, setup, trip, stop, some)
    requires TablesOk(m, setup) && SplitOnly(m, t)
    ensures AllGuarded(t) <==> forall l :: !OffsetAt(s, m.entries, some, l)
  {
    if l :| OffsetAt(s, m.entries, some, l) {
      OffsetIsNotFresh(s, m, t, setup, trip, stop, some, l);
    } else {
      SettleKeepsGuarded(s, m, setup, trip, stop, some);
      forall l | l in t.lines ensures t.lines[l].order in t.orders && Guarded(t, l) {
        SplitGuards(m, t, setup, l);
      }
    }
  }

  lemma OffsetFails(s: State, m: State, some: set<int>, l: int)
    requires EntriesSettle(s, m, some) && OnKnownLines(s, some) && OffsetAt(s, m.entries, some, l)
    ensures s.lines[l].order in OrdersOf(s, some)
  {
    if s.lines[l].order !in OrdersOf(s, some) {
      NotAtStop(s, m, some, l, Accepted);
    }
  }

  lemma OffsetIsNotFresh(s: State, m: State, t: State, setup: Setup, trip: int, stop: int, some: set<int>, l: int)
    requires TablesOk(s, setup) && AllGuarded(s) && Settles(s, m, setup, trip, stop, some) && SplitOnly(m, t)
    requires OffsetAt(s, m.entries, some, l)
    ensures l in t.lines && t.lines[l].order in t.orders && !Fresh(t, l)
  {
    OffsetFails(s, m, some, l);
    FreshOnRoad(s, setup, l);
    OffsetStays(s, m, t, some, l);
  }

  lemma OffsetStays(s: State, m: State, t: State, some: set<int>, l: int)
    requires OnKnownLines(s, some) && OrdersSettle(s, m, OrdersOf(s, some), some) && SplitOnly(m, t)
    requires l in s.lines && LinesSettle(s, m, some) && s.lines[l].order in OrdersOf(s, some) && s.lines[l].delivered == 0
    requires OffsetAt(s, m.entries, some, l)
    ensures l in t.lines && t.lines[l].order in t.orders && !Fresh(t, l)
  {
  }

  /** Lines stay guarded after a call exactly when the call is not careless. */
  lemma CallKeepsGuardedExactly(s: State, setup: Setup, call: Call)
    requires Inv(s, setup) && AllGuarded(s) && Bounded(call) && Answer(s, setup, call).Ok?
    ensures AllGuarded(After(s, setup, call)) <==> !Careless(s, call)
  {
    if OffTrips(call) {
      CallMoves(s, setup, call);
      MovesKeepGuarded(s, After(s, setup, call), setup);
    } else if call.Load? {
      LoadKeepsGuarded(s, setup, call.trip, call.stop, call.line, call.amount);
    } else if call.Adjust? {
      AdjustKeepsGuarded(s, setup, call.trip, call.entry, call.quantity);
    } else if call.Unload? {
      UnloadKeepsGuarded(s, setup, call.trip, call.entry);
    } else if call.Leave? {
      DepartKeepsGuarded(s, setup, call.trip);
    } else if call.Resolve? {
      CloseKeepsGuarded(s, setup, call.trip, call.stop, call.accepted, call.proof);
    } else {
      DropsKeepGuarded(s, setup, call);
    }
  }

  // ----- what it gives

  /** No line has delivered more of its sale than it counts for. */
  lemma DeliveredWithinNet(s: State, setup: Setup, l: int, x: int)
    requires TablesOk(s, setup) && AllGuarded(s) && l in s.lines
    ensures s.lines[l].delivered <= s.lines[l].quantity
    ensures (if s.lines[l].salesLine == Some(x) then s.lines[l].delivered else 0) <= NetOf(s, l, x)
  {
    assert Guarded(s, l) && LineOk(s, setup, l);
  }

  lemma NoOverDelivery(s: State, setup: Setup, x: int)
    requires Inv(s, setup) && AllGuarded(s) && x in setup.salesLines
    ensures DeliveredOf(s, x) <= setup.salesLines[x].quantity
  {
    var delivered := DeliveredColumn(s, x);
    forall l | l in s.lines ensures delivered[l] <= Net(s, x)[l] {
      DeliveredWithinNet(s, setup, l, x);
    }
    TotalMonotone(delivered, Net(s, x));
  }
}
