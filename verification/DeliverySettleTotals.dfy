/** What settling a stop does to the sums: goods leave the road, deliveries leave the stock, and the
    sales' cover falls by what came back of partly delivered orders. */
module DeliverySettleTotals {
  import opened Outcomes
  import opened Tables
  import opened DeliveryEvents
  import opened Delivery
  import opened DeliveryInvariant
  import opened DeliveryKeeps
  import opened DeliverySettle

  // ----- a figure by line and by entry

  /** A figure added up line by line, for the chosen lines. */
  ghost function ByLine(entries: map<int, Entry>, some: set<int>, lines: set<int>, chosen: set<int>, figure: Figure): map<int, int> {
    map l | l in lines :: if l in chosen then OnLine(entries, some, l, figure) else 0
  }

  /** The same figure, entry by entry. */
  function ByEntry(entries: map<int, Entry>, some: set<int>, chosen: set<int>, figure: Figure): map<int, int> {
    map e | e in some && e in entries :: if entries[e].line in chosen then Amount(entries[e], figure) else 0
  }

  /** Both ways of adding up agree. */
  lemma {:induction false} ByLineIsByEntry(entries: map<int, Entry>, some: set<int>, lines: set<int>, chosen: set<int>, figure: Figure)
    requires forall e :: e in some ==> e in entries && entries[e].line in lines
    ensures Total(ByLine(entries, some, lines, chosen, figure)) == Total(ByEntry(entries, some, chosen, figure))
    decreases |some|
  {
    if some == {} {
      forall l | l in lines ensures ByLine(entries, some, lines, chosen, figure)[l] == 0 {
        OnLineEmpty(entries, some, l, figure);
      }
      TotalZero(ByLine(entries, some, lines, chosen, figure));
      TotalZero(ByEntry(entries, some, chosen, figure));
    } else {
      var e := AnyOf(some);
      ByLineIsByEntry(entries, some - {e}, lines, chosen, figure);
      ByLineWithout(entries, some, e, lines, chosen, figure);
      TotalBut(ByEntry(entries, some - {e}, chosen, figure), ByEntry(entries, some, chosen, figure), e);
    }
  }

  lemma ByLineWithout(entries: map<int, Entry>, some: set<int>, e: int, lines: set<int>, chosen: set<int>, figure: Figure)
    requires e in some && e in entries && entries[e].line in lines
    ensures Total(ByLine(entries, some, lines, chosen, figure))
         == Total(ByLine(entries, some - {e}, lines, chosen, figure))
            + if entries[e].line in chosen then Amount(entries[e], figure) else 0
  {
    var a, b := ByLine(entries, some - {e}, lines, chosen, figure), ByLine(entries, some, lines, chosen, figure);
    forall l | l in lines
      ensures b[l] == a[l] + if l == entries[e].line && l in chosen then Amount(entries[e], figure) else 0
    {
      OnLineWithout(entries, some, e, l, figure);
    }
    TotalBut(a, b, entries[e].line);
  }

  // ----- the road

  /** What an entry of a departed trip has aboard, by the in-transit location it left through. */
  function Aboard(s: State, setup: Setup, entry: Entry, w: int, p: int): int
    requires entry.line in s.lines && s.lines[entry.line].warehouse in setup.transit
  {
    var line := s.lines[entry.line];
    if setup.transit[line.warehouse] == w then Stocked(line, setup, p, entry.sent) else 0
  }

  lemma CloseMovePosts(s: State, setup: Setup, trip: int, entry: Entry, w: int, p: int)
    requires entry.line in s.lines && s.lines[entry.line].warehouse in setup.transit
    requires s.lines[entry.line].warehouse !in setup.transit.Values
    requires entry.sent >= 0 && entry.returned >= 0 && entry.delivered + entry.returned == entry.sent
    ensures w in setup.transit.Values ==>
              TripStock(CloseMove(setup, trip, s.lines[entry.line], entry), w, p) == -Aboard(s, setup, entry, w, p)
    ensures TotalStock(CloseMove(setup, trip, s.lines[entry.line], entry), p) == -Stocked(s.lines[entry.line], setup, p, entry.delivered)
  {
    var line := s.lines[entry.line];
    var inTransit := setup.transit[line.warehouse];
    if line.product in setup.stockable {
      var leaving := Move(ByTrip, trip, inTransit, line.product, -entry.sent);
      var back := Move(ByTrip, trip, line.warehouse, line.product, entry.returned);
      var a, b := if entry.sent > 0 then [leaving] else [], if entry.returned > 0 then [back] else [];
      assert CloseMove(setup, trip, s.lines[entry.line], entry) == a + b;
      TripStockAppend(a, b, w, p);
      TotalStockAppend(a, b, p);
    }
  }

  ghost predicate Unloading(s: State, setup: Setup, entries: map<int, Entry>, keys: seq<int>) {
    forall e :: e in keys ==>
      && e in entries && entries[e].line in s.lines
      && s.lines[entries[e].line].warehouse in setup.transit
      && s.lines[entries[e].line].warehouse !in setup.transit.Values
      && entries[e].sent >= 0 && entries[e].returned >= 0
      && entries[e].delivered + entries[e].returned == entries[e].sent
  }

  /** The postings of a settlement, added up in order: out of the road, and out of the company. */
  lemma {:induction false} ClosePosts(s: State, setup: Setup, trip: int, entries: map<int, Entry>, keys: seq<int>,
                                      aboard: map<int, int>, handed: map<int, int>, w: int, p: int)
    requires Unloading(s, setup, entries, keys)
    requires forall e :: e in keys ==> e in aboard && aboard[e] == Aboard(s, setup, entries[e], w, p)
    requires forall e :: e in keys ==>
               e in handed && handed[e] == Stocked(s.lines[entries[e].line], setup, p, entries[e].delivered)
    ensures w in setup.transit.Values ==>
              TripStock(CloseMoves(s, setup, trip, entries, keys), w, p) == -SumOver(aboard, keys)
    ensures TotalStock(CloseMoves(s, setup, trip, entries, keys), p) == -SumOver(handed, keys)
  {
    if keys != [] {
      var rest, last := keys[..|keys| - 1], keys[|keys| - 1];
      assert last in keys;
      ClosePosts(s, setup, trip, entries, rest, aboard, handed, w, p);
      CloseMovePosts(s, setup, trip, entries[last], w, p);
      var earlier, moves := CloseMoves(s, setup, trip, entries, rest), CloseMove(setup, trip, s.lines[entries[last].line], entries[last]);
      TripStockAppend(earlier, moves, w, p);
      TotalStockAppend(earlier, moves, p);
    }
  }

  function AboardAll(s: State, setup: Setup, entries: map<int, Entry>, some: set<int>, w: int, p: int): map<int, int>
    requires Known(s, setup, entries, some)
  {
    map e | e in some :: Aboard(s, setup, entries[e], w, p)
  }

  function HandedAll(s: State, setup: Setup, entries: map<int, Entry>, some: set<int>, p: int): map<int, int>
    requires Known(s, setup, entries, some)
  {
    map e | e in some :: Stocked(s.lines[entries[e].line], setup, p, entries[e].delivered)
  }

  ghost predicate Known(s: State, setup: Setup, entries: map<int, Entry>, some: set<int>) {
    forall e :: e in some ==> e in entries && entries[e].line in s.lines && s.lines[entries[e].line].warehouse in setup.transit
  }

  lemma CloseTotals(s: State, setup: Setup, trip: int, entries: map<int, Entry>, some: set<int>, w: int, p: int)
    requires Known(s, setup, entries, some) && Unloading(s, setup, entries, Ascending(some))
    ensures w in setup.transit.Values ==>
              TripStock(CloseMoves(s, setup, trip, entries, Ascending(some)), w, p)
              == -Total(AboardAll(s, setup, entries, some, w, p))
    ensures TotalStock(CloseMoves(s, setup, trip, entries, Ascending(some)), p)
            == -Total(HandedAll(s, setup, entries, some, p))
  {
    var aboard, handed := AboardAll(s, setup, entries, some, w, p), HandedAll(s, setup, entries, some, p);
    ClosePosts(s, setup, trip, entries, Ascending(some), aboard, handed, w, p);
    SumInOrder(aboard, Ascending(some));
    SumInOrder(handed, Ascending(some));
  }

  lemma SettleRoad(s: State, m: State, setup: Setup, some: set<int>, w: int, p: int)
    requires m.entries.Keys == s.entries.Keys && Known(s, setup, m.entries, some)
    requires forall e :: e in s.entries ==> m.entries[e].sent == s.entries[e].sent && m.entries[e].line == s.entries[e].line
    requires forall e :: e in s.entries ==> OnRoad(m, setup, e, w, p) == (e !in some && OnRoad(s, setup, e, w, p))
    requires forall e :: e in some ==>
               && e in s.entries && s.entries[e].stop in s.stops && s.stops[s.entries[e].stop].outcome == StopPending
               && s.stops[s.entries[e].stop].trip in s.trips && s.trips[s.stops[s.entries[e].stop].trip] == TripDeparted
    ensures Total(Road(m, setup, w, p)) == Total(Road(s, setup, w, p)) - Total(AboardAll(s, setup, m.entries, some, w, p))
  {
    var before, after, aboard := Road(s, setup, w, p), Road(m, setup, w, p), AboardAll(s, setup, m.entries, some, w, p);
    var padded := Padded(aboard, s.entries.Keys);
    assert forall e :: e in some ==> e in m.entries;
    assert aboard.Keys == some && some <= m.entries.Keys;
    TotalPadded(aboard, s.entries.Keys);
    forall e | e in s.entries ensures before[e] == after[e] + padded[e] {
      if e in some {
        assert padded[e] == Aboard(s, setup, m.entries[e], w, p);
      }
    }
    TotalSum(after, padded, before);
  }

  // ----- the stock

  function OfProduct(s: State, setup: Setup, p: int): set<int> {
    set l | l in s.lines && s.lines[l].product == p && p in setup.stockable
  }

  lemma SettleHandsOver(s: State, m: State, setup: Setup, some: set<int>, p: int)
    requires LinesSettle(s, m, some) && Known(s, setup, m.entries, some)
    ensures Total(HandedOver(m, setup, p)) == Total(HandedOver(s, setup, p)) + Total(HandedAll(s, setup, m.entries, some, p))
  {
    var chosen := OfProduct(s, setup, p);
    var a, b, c := HandedOver(s, setup, p), ByLine(m.entries, some, s.lines.Keys, chosen, Accepted), HandedOver(m, setup, p);
    forall l | l in s.lines ensures c[l] == a[l] + b[l] {
      assert a[l] == Stocked(s.lines[l], setup, p, s.lines[l].delivered);
      assert c[l] == Stocked(m.lines[l], setup, p, m.lines[l].delivered);
    }
    TotalSum(a, b, c);
    HandedByEntry(s, m, setup, some, p);
  }

  lemma HandedByEntry(s: State, m: State, setup: Setup, some: set<int>, p: int)
    requires Known(s, setup, m.entries, some)
    ensures Total(ByLine(m.entries, some, s.lines.Keys, OfProduct(s, setup, p), Accepted)) == Total(HandedAll(s, setup, m.entries, some, p))
  {
    var chosen := OfProduct(s, setup, p);
    ByLineIsByEntry(m.entries, some, s.lines.Keys, chosen, Accepted);
    var d, e := ByEntry(m.entries, some, chosen, Accepted), HandedAll(s, setup, m.entries, some, p);
    forall k | k in some ensures d[k] == e[k] {
      assert e[k] == Stocked(s.lines[m.entries[k].line], setup, p, m.entries[k].delivered);
    }
    TotalSame(d, e);
  }

  // ----- the sales' cover

  function PartialOf(s: State, partial: set<int>, x: int): set<int> {
    set l | l in s.lines && s.lines[l].salesLine == Some(x) && s.lines[l].order in partial
  }

  /** What comes back, of a sales line, with some entries. */
  function Back(s: State, entries: map<int, Entry>, carried: set<int>, x: int): map<int, int>
    requires forall e :: e in carried ==> e in entries && entries[e].line in s.lines
  {
    map e | e in carried :: if s.lines[entries[e].line].salesLine == Some(x) then entries[e].returned else 0
  }

  /** Every order at the stop was on its way and had nothing back; which ones are partly delivered. */
  ghost predicate OrdersCome(s: State, m: State, seen: set<int>, partial: set<int>) {
    && m.orders.Keys == s.orders.Keys && partial <= seen <= s.orders.Keys
    && (forall o :: o in s.orders && o !in seen ==> m.orders[o] == s.orders[o])
    && (forall o :: o in seen ==> s.orders[o].status == InTransit && m.orders[o].status in {Delivered, Failed, PartiallyDelivered})
    && (forall o :: o in seen ==> (o in partial <==> m.orders[o].status == PartiallyDelivered))
  }

  lemma SettleNetAt(s: State, m: State, seen: set<int>, partial: set<int>, some: set<int>, l: int, x: int)
    requires LinesSettle(s, m, some) && l in s.lines && OrdersCome(s, m, seen, partial)
    requires s.lines[l].order in seen ==> s.lines[l].returned == 0
    requires s.lines[l].order in s.orders && s.lines[l].order !in seen ==> OnLine(m.entries, some, l, Returned) == 0
    ensures NetOf(s, l, x) == NetOf(m, l, x) + if l in PartialOf(s, partial, x) then OnLine(m.entries, some, l, Returned) else 0
  {
  }

  lemma BackIsByEntry(s: State, entries: map<int, Entry>, some: set<int>, partial: set<int>, carried: set<int>, x: int)
    requires forall e :: e in some ==> e in entries && entries[e].line in s.lines && entries[e].returned >= 0
    requires forall e :: e in carried <==> e in some && entries[e].returned > 0 && s.lines[entries[e].line].order in partial
    ensures Total(ByEntry(entries, some, PartialOf(s, partial, x), Returned)) == Total(Back(s, entries, carried, x))
  {
    var a, b := ByEntry(entries, some, PartialOf(s, partial, x), Returned), Back(s, entries, carried, x);
    forall e | e in some
      ensures e in a && a[e] == if entries[e].line in PartialOf(s, partial, x) then Amount(entries[e], Returned) else 0
      ensures e in carried ==> e in b && b[e] == if s.lines[entries[e].line].salesLine == Some(x) then entries[e].returned else 0
    {
    }
    forall e | e in a ensures e in some && (e !in b ==> a[e] == 0) && (e in b ==> a[e] == b[e]) {
    }
    forall e | e in b ensures e in a {
      assert e in carried;
    }
    TotalAlike(a, b);
  }

  lemma SettleNet(s: State, m: State, seen: set<int>, partial: set<int>, some: set<int>, carried: set<int>, x: int)
    requires LinesSettle(s, m, some) && OrdersCome(s, m, seen, partial)
    requires forall e :: e in some ==> e in m.entries && m.entries[e].line in s.lines && m.entries[e].returned >= 0
    requires forall l :: l in s.lines && s.lines[l].order in seen ==> s.lines[l].returned == 0
    requires forall l :: l in s.lines && s.lines[l].order !in seen ==> OnLine(m.entries, some, l, Returned) == 0
    requires forall e :: e in carried <==>
               e in some && m.entries[e].returned > 0 && s.lines[m.entries[e].line].order in partial
    ensures Total(Net(m, x)) == Total(Net(s, x)) - Total(Back(s, m.entries, carried, x))
  {
    var chosen := PartialOf(s, partial, x);
    var before, after, back := Net(s, x), Net(m, x), ByLine(m.entries, some, s.lines.Keys, chosen, Returned);
    forall l | l in s.lines ensures before[l] == after[l] + back[l] {
      SettleNetAt(s, m, seen, partial, some, l, x);
      assert before[l] == NetOf(s, l, x) && after[l] == NetOf(m, l, x);
    }
    TotalSum(after, back, before);
    ByLineIsByEntry(m.entries, some, s.lines.Keys, chosen, Returned);
    BackIsByEntry(s, m.entries, some, partial, carried, x);
  }
}
