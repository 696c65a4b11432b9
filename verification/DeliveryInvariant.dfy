/** What every delivery operation keeps: the figures of each line, entry and stop, the stock, and how
    much of each sale the delivery orders can still deliver.  What holds only while claims are left to
    their own trips, the stock on the road among it, is defined here too. */
module DeliveryInvariant {
  import opened Outcomes
  import opened Tables
  import opened DeliveryEvents
  import opened Delivery

  /** Only these have delivered anything. */
  predicate HasDelivered(status: Status) {
    status in {Delivered, PartiallyDelivered, PickedUp}
  }

  /** Only these have anything back; cancelled ones may have failed first. */
  predicate HasReturned(status: Status) {
    status in {PartiallyDelivered, Failed, Cancelled}
  }

  /** An order that has been on the road never goes back to drafting, approval or the counter. */
  predicate Travelled(status: Status) {
    status in {InPreparation, InTransit, Failed, Delivered, PartiallyDelivered, Cancelled}
  }

  /** The entries of stops still to be made, on trips planned or under way. */
  function Pending(s: State): set<int> {
    set e | e in s.entries && s.entries[e].stop in s.stops && s.stops[s.entries[e].stop].outcome == StopPending
  }

  /** What pending entries claim of a line. */
  ghost function Held(s: State, l: int): int {
    OnLine(s.entries, Pending(s), l, Claim)
  }

  ghost predicate OrderOk(order: Order) {
    Recorded(order) && order.fulfillment != Mixed
  }

  ghost predicate LineOk(s: State, setup: Setup, l: int)
    requires l in s.lines && s.lines[l].order in s.orders
  {
    var line := s.lines[l];
    var status := s.orders[line.order].status;
    && line.quantity >= 0 && line.returned >= 0
    && (line.delivered != 0 ==> Travelled(status) || status == PickedUp)
    && (line.returned > 0 ==> HasReturned(status))
    && (line.salesLine.Some? ==> line.salesLine.value in setup.salesLines)
    && line.warehouse !in setup.transit.Values
  }

  ghost predicate StopOk(s: State, p: int)
    requires p in s.stops
  {
    && s.stops[p].trip in s.trips
    && s.trips[s.stops[p].trip] != TripCancelled
    && (s.trips[s.stops[p].trip] == TripOpen ==> s.stops[p].outcome == StopPending)
    && (s.trips[s.stops[p].trip] == TripClosed ==> s.stops[p].outcome != StopPending)
  }

  /** Before departure an entry has sent nothing; once its stop is made, all it sent was delivered or came
      back. */
  ghost predicate EntryOk(s: State, setup: Setup, e: int)
    requires e in s.entries
  {
    var entry := s.entries[e];
    && entry.line in s.lines && s.lines[entry.line].order in s.orders
    && entry.stop in s.stops && s.stops[entry.stop].trip in s.trips
    && entry.committed > 0 && entry.returned >= 0
    && (s.trips[s.stops[entry.stop].trip] == TripOpen ==> entry.sent == 0)
    && (s.trips[s.stops[entry.stop].trip] != TripOpen ==>
          && entry.sent > 0 && Travelled(s.orders[s.lines[entry.line].order].status)
          && s.lines[entry.line].warehouse in setup.transit)
    && (s.stops[entry.stop].outcome == StopPending ==> entry.delivered == 0 && entry.returned == 0)
    && (s.stops[entry.stop].outcome != StopPending ==> entry.delivered + entry.returned == entry.sent)
  }

  ghost predicate TablesOk(s: State, setup: Setup) {
    && (forall o :: o in s.orders ==> OrderOk(s.orders[o]))
    && (forall l :: l in s.lines ==> s.lines[l].order in s.orders && LineOk(s, setup, l))
    && (forall p :: p in s.stops ==> StopOk(s, p))
    && (forall e :: e in s.entries ==> EntryOk(s, setup, e))
  }

  // ----- stock

  /** What trips have moved of a product through a warehouse. */
  function TripStock(ledger: seq<Move>, warehouse: int, product: int): int {
    if ledger == [] then 0
    else
      var last := ledger[|ledger| - 1];
      TripStock(ledger[..|ledger| - 1], warehouse, product)
      + if last.source == ByTrip && last.warehouse == warehouse && last.product == product then last.quantity else 0
  }

  /** What deliveries have moved of a product, over all warehouses. */
  function TotalStock(ledger: seq<Move>, product: int): int {
    if ledger == [] then 0
    else
      var last := ledger[|ledger| - 1];
      TotalStock(ledger[..|ledger| - 1], product) + if last.product == product then last.quantity else 0
  }

  /** What an entry has on the road, in the in-transit location its goods left through. */
  predicate OnRoad(s: State, setup: Setup, e: int, warehouse: int, product: int)
    requires e in s.entries
  {
    var entry := s.entries[e];
    && entry.stop in s.stops && s.stops[entry.stop].outcome == StopPending
    && s.stops[entry.stop].trip in s.trips && s.trips[s.stops[entry.stop].trip] == TripDeparted
    && entry.line in s.lines && s.lines[entry.line].product == product && product in setup.stockable
    && s.lines[entry.line].warehouse in setup.transit
    && setup.transit[s.lines[entry.line].warehouse] == warehouse
  }

  function Road(s: State, setup: Setup, warehouse: int, product: int): map<int, int> {
    map e | e in s.entries :: if OnRoad(s, setup, e, warehouse, product) then s.entries[e].sent else 0
  }

  ghost predicate RoadOk(s: State, setup: Setup) {
    forall w, p :: w in setup.transit.Values ==> TripStock(s.ledger, w, p) == Total(Road(s, setup, w, p))
  }

  /** A quantity of a line, when its goods are of a stocked product. */
  function Stocked(line: Line, setup: Setup, product: int, quantity: int): int {
    if line.product == product && product in setup.stockable then quantity else 0
  }

  function HandedOver(s: State, setup: Setup, product: int): map<int, int> {
    map l | l in s.lines :: Stocked(s.lines[l], setup, product, s.lines[l].delivered)
  }

  ghost predicate StockOk(s: State, setup: Setup) {
    forall p :: TotalStock(s.ledger, p) == -Total(HandedOver(s, setup, p))
  }

  // ----- coverage

  /** What a line can still deliver or has delivered of a sales line.  A partly delivered order keeps
      its whole quantity while its child carries what came back, so that part counts once. */
  function NetOf(s: State, l: int, x: int): int
    requires l in s.lines
  {
    var line := s.lines[l];
    if line.salesLine != Some(x) || line.order !in s.orders || s.orders[line.order].status == Cancelled then 0
    else line.quantity - if s.orders[line.order].status == PartiallyDelivered then line.returned else 0
  }

  function Net(s: State, x: int): map<int, int> {
    map l | l in s.lines :: NetOf(s, l, x)
  }

  ghost predicate CoverOk(s: State, setup: Setup) {
    forall x :: x in setup.salesLines ==> Total(Net(s, x)) <= setup.salesLines[x].quantity
  }

  /** What every operation keeps, whoever's claim it changes. */
  ghost predicate Inv(s: State, setup: Setup) {
    TablesOk(s, setup) && StockOk(s, setup) && CoverOk(s, setup)
  }

  /** The sales desk's own rows: quantities sold are not negative and goods are never promised from
      an in-transit location. */
  ghost predicate SetupOk(setup: Setup) {
    && (forall x :: x in setup.salesLines ==>
          && setup.salesLines[x].quantity >= 0
          && (setup.salesLines[x].warehouse.Some? ==> setup.salesLines[x].warehouse.value !in setup.transit.Values))
    && (forall f :: f in setup.fallback ==> setup.fallback[f] !in setup.transit.Values)
  }

  // ----- sums over entries

  lemma OnLineSame(a: map<int, Entry>, b: map<int, Entry>, some: set<int>, other: set<int>, l: int, figure: Figure)
    requires Column(a, some, l, figure).Keys == Column(b, other, l, figure).Keys
    requires forall e :: e in Column(a, some, l, figure) ==> Amount(a[e], figure) == Amount(b[e], figure)
    ensures OnLine(a, some, l, figure) == OnLine(b, other, l, figure)
  {
    var p, q := Column(a, some, l, figure), Column(b, other, l, figure);
    assert p.Keys == q.Keys;
    forall e | e in p ensures p[e] == q[e] {
      assert p[e] == Amount(a[e], figure) && q[e] == Amount(b[e], figure);
    }
    assert p == q;
  }

  lemma OnLineWithout(entries: map<int, Entry>, some: set<int>, e: int, l: int, figure: Figure)
    requires e in some && e in entries
    ensures OnLine(entries, some, l, figure)
         == OnLine(entries, some - {e}, l, figure) + if entries[e].line == l then Amount(entries[e], figure) else 0
  {
    var whole, rest := Column(entries, some, l, figure), Column(entries, some - {e}, l, figure);
    if entries[e].line == l {
      TotalWithout(whole, e);
      assert whole - {e} == rest;
    } else {
      assert whole == rest;
    }
  }

  lemma OnLineSplit(entries: map<int, Entry>, some: set<int>, part: set<int>, l: int, figure: Figure)
    requires part <= some
    ensures OnLine(entries, some, l, figure)
         == OnLine(entries, part, l, figure) + OnLine(entries, some - part, l, figure)
  {
    var a, b := Column(entries, part, l, figure), Column(entries, some - part, l, figure);
    assert Column(entries, some, l, figure) == a + b;
    TotalUnion(a, b);
  }

  lemma OnLineNonNegative(entries: map<int, Entry>, some: set<int>, l: int, figure: Figure)
    requires forall e :: e in some && e in entries ==> Amount(entries[e], figure) >= 0
    ensures OnLine(entries, some, l, figure) >= 0
  {
    var column := Column(entries, some, l, figure);
    forall e | e in column ensures column[e] >= 0 {
      assert column[e] == Amount(entries[e], figure);
    }
    TotalNonNegative(column);
  }

  lemma OnLineEmpty(entries: map<int, Entry>, some: set<int>, l: int, figure: Figure)
    requires forall e :: e in some && e in entries ==> entries[e].line != l
    ensures OnLine(entries, some, l, figure) == 0
  {
    var column := Column(entries, some, l, figure);
    forall e ensures e !in column {
    }
    assert column == map[];
  }

  // ----- consequences

  /** What has been delivered of a sales line, over all delivery orders, cancelled ones included. */
  ghost function DeliveredOf(s: State, x: int): int {
    Total(DeliveredColumn(s, x))
  }

  function DeliveredColumn(s: State, x: int): map<int, int> {
    map l | l in s.lines :: if s.lines[l].salesLine == Some(x) then s.lines[l].delivered else 0
  }

  /** With no pending stop on a departed trip, nothing trips posted is left in transit. */
  lemma NothingLeftInTransit(s: State, setup: Setup, w: int, p: int)
    requires RoadOk(s, setup) && w in setup.transit.Values
    requires forall t :: t in s.trips ==> s.trips[t] != TripDeparted
    ensures TripStock(s.ledger, w, p) == 0
  {
    TotalZero(Road(s, setup, w, p));
  }
}
