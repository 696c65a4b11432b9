/** Settling a stop, before any split, keeps the invariant, and what it takes from the sales' cover
    is exactly what came back of partly delivered orders. */
module DeliverySettle {
  import opened Outcomes
  import opened Tables
  import opened DeliveryEvents
  import opened Delivery
  import opened DeliveryInvariant
  import opened DeliveryKeeps

  // ----- what a settlement changes

  ghost predicate AtStop(s: State, stop: int, some: set<int>) {
    && stop in s.stops && s.stops[stop].outcome == StopPending
    && s.stops[stop].trip in s.trips && s.trips[s.stops[stop].trip] == TripDeparted
    && (forall e :: e in some <==> e in s.entries && s.entries[e].stop == stop)
  }

  /** Each entry at the stop splits what it sent into what was accepted and what came back. */
  ghost predicate EntriesSettle(s: State, m: State, some: set<int>) {
    && m.entries.Keys == s.entries.Keys
    && (forall e :: e in s.entries && e !in some ==> m.entries[e] == s.entries[e])
    && (forall e :: e in some ==> e in s.entries && EntrySettles(s.entries[e], m.entries[e]))
  }

  predicate EntrySettles(before: Entry, after: Entry) {
    && after == before.(delivered := after.delivered, returned := after.returned)
    && after.returned >= 0 && after.delivered + after.returned == before.sent
  }

  ghost predicate LinesSettle(s: State, m: State, some: set<int>) {
    && m.lines.Keys == s.lines.Keys
    && forall l :: l in s.lines ==> m.lines[l] == s.lines[l].(
         delivered := s.lines[l].delivered + OnLine(m.entries, some, l, Accepted),
         returned := s.lines[l].returned + OnLine(m.entries, some, l, Returned),
         committed := s.lines[l].committed - OnLine(m.entries, some, l, Claim))
  }

  ghost predicate OrdersSettle(s: State, m: State, seen: set<int>, some: set<int>) {
    && m.orders.Keys == s.orders.Keys
    && (forall o :: o in s.orders ==> OrderOk(m.orders[o]))
    && (forall o :: o in s.orders && o !in seen ==> m.orders[o] == s.orders[o])
    && (forall o :: o in seen ==>
          o in s.orders && s.orders[o].status == InTransit && m.orders[o].status == Target(s, m.entries, some, o))
  }

  ghost predicate StopsSettle(s: State, m: State, stop: int)
    requires stop in s.stops
  {
    var trip := s.stops[stop].trip;
    && m.stops.Keys == s.stops.Keys && m.trips.Keys == s.trips.Keys
    && (forall p :: p in s.stops && p != stop ==> m.stops[p] == s.stops[p])
    && m.stops[stop].trip == trip && m.stops[stop].outcome != StopPending
    && (forall k :: k in s.trips && k != trip ==> m.trips[k] == s.trips[k])
    && (trip in s.trips ==> m.trips[trip] == s.trips[trip] || m.trips[trip] == TripClosed)
    && (trip in s.trips && m.trips[trip] == TripClosed && s.trips[trip] != TripClosed ==>
          forall p :: p in s.stops && s.stops[p].trip == trip ==> p == stop || s.stops[p].outcome != StopPending)
  }

  // ----- a line's own sums

  lemma NothingOnLine(s: State, m: State, some: set<int>, l: int, figure: Figure)
    requires EntriesSettle(s, m, some)
    requires forall e :: e in some ==> s.entries[e].line != l
    ensures OnLine(m.entries, some, l, figure) == 0
  {
    OnLineEmpty(m.entries, some, l, figure);
  }

  lemma SettledSums(s: State, m: State, some: set<int>, l: int)
    requires EntriesSettle(s, m, some)
    ensures OnLine(m.entries, some, l, Accepted) + OnLine(m.entries, some, l, Returned) == OnLine(s.entries, some, l, Sent)
    ensures OnLine(m.entries, some, l, Returned) >= 0
  {
    var a, b, c := Column(m.entries, some, l, Accepted), Column(m.entries, some, l, Returned), Column(s.entries, some, l, Sent);
    forall e ensures e in a <==> e in c {
      assert e in some ==> EntrySettles(s.entries[e], m.entries[e]);
    }
    assert a.Keys == b.Keys == c.Keys;
    forall e | e in a ensures c[e] == a[e] + b[e] && b[e] >= 0 {
      assert EntrySettles(s.entries[e], m.entries[e]);
      assert a[e] == Amount(m.entries[e], Accepted) && b[e] == Amount(m.entries[e], Returned);
      assert c[e] == Amount(s.entries[e], Sent);
    }
    TotalSum(a, b, c);
    TotalNonNegative(b);
  }

  /** The claims at the stop are no longer held. */
  lemma HeldSettled(s: State, m: State, stop: int, some: set<int>, l: int)
    requires AtStop(s, stop, some) && EntriesSettle(s, m, some) && StopsSettle(s, m, stop)
    ensures Held(m, l) == Held(s, l) - OnLine(m.entries, some, l, Claim)
  {
    forall e ensures e in Pending(m) <==> e in Pending(s) && e !in some {
      assert e in m.entries <==> e in s.entries;
      if e in s.entries && e !in some {
        assert m.entries[e] == s.entries[e];
      } else if e in some {
        assert EntrySettles(s.entries[e], m.entries[e]);
      }
    }
    assert Pending(m) == Pending(s) - some;
    forall e | e in some ensures e in Pending(s) {
    }
    OnLineSplit(s.entries, Pending(s), some, l, Claim);
    ClaimsSame(s, m, some, Pending(m), l);
    ClaimsSame(s, m, some, some, l);
  }

  lemma ClaimsSame(s: State, m: State, some: set<int>, part: set<int>, l: int)
    requires EntriesSettle(s, m, some)
    ensures OnLine(m.entries, part, l, Claim) == OnLine(s.entries, part, l, Claim)
  {
    var a, b := Column(m.entries, part, l, Claim), Column(s.entries, part, l, Claim);
    forall e | e in s.entries
      ensures m.entries[e].line == s.entries[e].line && m.entries[e].committed == s.entries[e].committed
    {
      assert e in some ==> EntrySettles(s.entries[e], m.entries[e]);
    }
    forall e ensures e in a <==> e in b {
    }
    assert a.Keys == b.Keys;
    forall e | e in a ensures a[e] == b[e] {
      assert a[e] == Amount(m.entries[e], Claim) && b[e] == Amount(s.entries[e], Claim);
    }
    TotalSame(a, b);
  }

  // ----- an order's sums

  /** What came back of a line is part of what came back of its order. */
  lemma LineWithinOrder(s: State, m: State, some: set<int>, l: int)
    requires EntriesSettle(s, m, some) && l in s.lines
    ensures OnLine(m.entries, some, l, Returned) <= OfOrder(s, m.entries, some, s.lines[l].order, Returned)
  {
    var part, whole := Column(m.entries, some, l, Returned), OrderColumn(s, m.entries, some, s.lines[l].order, Returned);
    forall e | e in whole ensures whole[e] >= 0 {
      assert EntrySettles(s.entries[e], m.entries[e]);
      assert whole[e] == Amount(m.entries[e], Returned);
    }
    forall e | e in part ensures e in whole && part[e] == whole[e] {
      assert part[e] == Amount(m.entries[e], Returned);
      assert whole[e] == Amount(m.entries[e], Returned);
    }
    TotalPart(part, whole);
  }

  lemma OrderSums(s: State, m: State, some: set<int>, o: int)
    requires EntriesSettle(s, m, some)
    ensures OfOrder(s, m.entries, some, o, Accepted) + OfOrder(s, m.entries, some, o, Returned) == OfOrder(s, m.entries, some, o, Sent)
    ensures OfOrder(s, m.entries, some, o, Returned) >= 0
  {
    var a, b, c := OrderColumn(s, m.entries, some, o, Accepted), OrderColumn(s, m.entries, some, o, Returned),
                   OrderColumn(s, m.entries, some, o, Sent);
    assert a.Keys == b.Keys == c.Keys;
    forall e | e in a ensures c[e] == a[e] + b[e] && b[e] >= 0 {
      assert EntrySettles(s.entries[e], m.entries[e]);
      assert a[e] == Amount(m.entries[e], Accepted) && b[e] == Amount(m.entries[e], Returned);
      assert c[e] == Amount(m.entries[e], Sent);
    }
    TotalSum(a, b, c);
    TotalNonNegative(b);
  }

  predicate Fits(status: Status, back: int) {
    status in {Delivered, Failed, PartiallyDelivered} && (back > 0 ==> HasReturned(status))
  }

  /** An order that comes out delivered has nothing back. */
  lemma TargetFits(s: State, m: State, some: set<int>, l: int)
    requires EntriesSettle(s, m, some) && l in s.lines
    ensures Fits(Target(s, m.entries, some, s.lines[l].order), OnLine(m.entries, some, l, Returned))
  {
    LineWithinOrder(s, m, some, l);
    OrderSums(s, m, some, s.lines[l].order);
  }

  // ----- tables

  /** What a line gains, its order's new status allows for. */
  lemma SettledStatus(s: State, m: State, seen: set<int>, some: set<int>, l: int)
    requires l in s.lines && EntriesSettle(s, m, some) && OrdersSettle(s, m, seen, some)
    requires OnKnownLines(s, some) && seen == OrdersOf(s, some)
    ensures var accepted, back := OnLine(m.entries, some, l, Accepted), OnLine(m.entries, some, l, Returned);
            && back >= 0
            && if s.lines[l].order in seen then Fits(m.orders[s.lines[l].order].status, back)
               else accepted == 0 && back == 0
  {
    SettledSums(s, m, some, l);
    if s.lines[l].order in seen {
      TargetFits(s, m, some, l);
    } else {
      NotAtStop(s, m, some, l, Accepted);
      NotAtStop(s, m, some, l, Returned);
    }
  }

  lemma NotAtStop(s: State, m: State, some: set<int>, l: int, figure: Figure)
    requires OnKnownLines(s, some) && l in s.lines && s.lines[l].order !in OrdersOf(s, some)
    requires EntriesSettle(s, m, some)
    ensures OnLine(m.entries, some, l, figure) == 0
  {
    forall e | e in some ensures s.entries[e].line != l {
      assert s.lines[s.entries[e].line].order in OrdersOf(s, some);
    }
    NothingOnLine(s, m, some, l, figure);
  }

  lemma SettleKeepsLine(s: State, m: State, setup: Setup, seen: set<int>, some: set<int>, l: int)
    requires l in s.lines && s.lines[l].order in s.orders && LineOk(s, setup, l)
    requires EntriesSettle(s, m, some) && LinesSettle(s, m, some) && OrdersSettle(s, m, seen, some)
    requires OnKnownLines(s, some) && seen == OrdersOf(s, some)
    ensures LineOk(m, setup, l)
  {
    SettledStatus(s, m, seen, some, l);
  }

  lemma SettleKeepsEntry(s: State, m: State, setup: Setup, stop: int, seen: set<int>, some: set<int>, e: int)
    requires TablesOk(s, setup) && e in s.entries
    requires AtStop(s, stop, some) && EntriesSettle(s, m, some) && LinesSettle(s, m, some)
    requires OrdersSettle(s, m, seen, some) && StopsSettle(s, m, stop)
    requires OnKnownLines(s, some) && seen == OrdersOf(s, some)
    ensures EntryOk(m, setup, e)
    ensures forall w, p :: OnRoad(m, setup, e, w, p) == (e !in some && OnRoad(s, setup, e, w, p))
  {
    assert EntryOk(s, setup, e) && StopOk(s, s.entries[e].stop);
    if e in some {
      assert EntrySettles(s.entries[e], m.entries[e]);
    }
  }

  lemma SettleKeepsTables(s: State, m: State, setup: Setup, stop: int, seen: set<int>, some: set<int>)
    requires TablesOk(s, setup)
    requires AtStop(s, stop, some) && EntriesSettle(s, m, some) && LinesSettle(s, m, some)
    requires OrdersSettle(s, m, seen, some) && StopsSettle(s, m, stop)
    requires OnKnownLines(s, some) && seen == OrdersOf(s, some)
    ensures TablesOk(m, setup)
  {
    forall l | l in m.lines ensures m.lines[l].order in m.orders && LineOk(m, setup, l) {
      SettleKeepsLine(s, m, setup, seen, some, l);
    }
    forall e | e in m.entries ensures EntryOk(m, setup, e) {
      SettleKeepsEntry(s, m, setup, stop, seen, some, e);
    }
    forall p | p in m.stops ensures StopOk(m, p) {
      assert StopOk(s, p);
    }
  }
}
