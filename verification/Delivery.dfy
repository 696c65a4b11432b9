/** Delivery orders, trips and their stops: what each operation does to the tables.

    Quantities are whole numbers of the smallest unit.  Every operation is one transaction: it
    either refuses and changes nothing, or returns the tables after it.  New rows take identities
    not in use; which ones is not modelled. */
module Delivery {
  import opened Outcomes
  import opened Tables
  import opened DeliveryEvents

  datatype SalesLine = SalesLine(sale: int, product: int, quantity: int, warehouse: Option<int>)

  datatype Sale = Sale(
    customer: int, facility: int, shipTo: Option<int>, completed: bool, cancelled: bool, paid: bool, credit: bool)

  /** What deliveries read and never change: sales, the catalogue's stockable products, each
      dispatch warehouse's in-transit location, each facility's fallback warehouse, the facilities'
      own addresses, and whether confirmed orders wait for an approval and sales for payment. */
  datatype Setup = Setup(
    sales: map<int, Sale>, salesLines: map<int, SalesLine>, stockable: set<int>,
    transit: map<int, int>, fallback: map<int, int>, addresses: set<int>,
    approvalRequired: bool, payFirst: bool)

  datatype Line = Line(
    order: int, salesLine: Option<int>, product: int, warehouse: int,
    quantity: int, committed: int, delivered: int, returned: int)

  datatype Trip = TripOpen | TripDeparted | TripClosed | TripCancelled

  datatype StopOutcome = StopPending | StopDelivered | StopPartial | StopFailed

  datatype Stop = Stop(trip: int, outcome: StopOutcome)

  /** What one stop of a trip claims of one order line. */
  datatype Entry = Entry(stop: int, line: int, committed: int, sent: int, delivered: int, returned: int)

  datatype Source = ByTrip | ByPickup

  /** A ledger row; negative is outbound. */
  datatype Move = Move(source: Source, reference: int, warehouse: int, product: int, quantity: int)

  datatype State = State(
    orders: map<int, Order>, lines: map<int, Line>, trips: map<int, Trip>,
    stops: map<int, Stop>, entries: map<int, Entry>, ledger: seq<Move>)

  datatype Error =
    | NotFound | MixedNotAllowed | SaleNotDeliverable | SaleUnpaid | FullyDelivered | NoDispatchWarehouse
    | LineRepeated | LineNotDeliverable | LineAlreadyPresent | QuantityExceedsRemaining
    | NotEditable | NoLines | InsufficientNotice | NotPendingApproval | NotFailed | Moving(refusal: Refusal)
    | ProofIncomplete | TripNotOpen | PickupNotLoadable | NotInPreparation | NothingToLoad
    | QuantityUnavailable | NothingCommitted | Overcommitted | NoInTransitLocation
    | TripNotDeparted | StopAlreadyResolved | LinesIncomplete | DeliveredExceedsSent
    | ShortfallNeedsReason | StillLoaded

  type Outcome = Result<State, Error>

  // ----- queries

  function OpenQuantity(line: Line): int {
    line.quantity - line.delivered - line.returned - line.committed
  }

  function LinesOf(s: State, order: int): set<int> {
    set l | l in s.lines && s.lines[l].order == order
  }

  function EntriesOf(s: State, stop: int): set<int> {
    set e | e in s.entries && s.entries[e].stop == stop
  }

  function StopsOf(s: State, trip: int): set<int> {
    set p | p in s.stops && s.stops[p].trip == trip
  }

  function EntriesOfTrip(s: State, trip: int): set<int> {
    set e | e in s.entries && s.entries[e].stop in s.stops && s.stops[s.entries[e].stop].trip == trip
  }

  predicate Live(s: State, l: int)
    requires l in s.lines
  {
    s.lines[l].order in s.orders && s.orders[s.lines[l].order].status != Cancelled
  }

  /** How much of a sales line the orders not cancelled account for. */
  ghost function Covered(s: State, salesLine: int): int {
    Total(Covering(s, salesLine))
  }

  function Covering(s: State, salesLine: int): map<int, int> {
    map l | l in s.lines && s.lines[l].salesLine == Some(salesLine) && Live(s, l) :: s.lines[l].quantity
  }

  datatype Figure = Claim | Sent | Accepted | Returned

  function Amount(entry: Entry, figure: Figure): int {
    match figure
    case Claim => entry.committed
    case Sent => entry.sent
    case Accepted => entry.delivered
    case Returned => entry.returned
  }

  /** A figure added up over those of some trip entries that are on one order line. */
  ghost function OnLine(entries: map<int, Entry>, some: set<int>, line: int, figure: Figure): int {
    Total(Column(entries, some, line, figure))
  }

  function Column(entries: map<int, Entry>, some: set<int>, line: int, figure: Figure): map<int, int> {
    map e | e in some && e in entries && entries[e].line == line :: Amount(entries[e], figure)
  }

  // ----- orders

  datatype Request = Request(salesLine: int, quantity: int)

  /** What the sale still owes, per line, before any narrowing. */
  ghost function Deliverable(s: State, setup: Setup, sale: int): map<int, int> {
    map x | x in setup.salesLines && setup.salesLines[x].sale == sale
            && setup.salesLines[x].quantity - Covered(s, x) > 0
      :: setup.salesLines[x].quantity - Covered(s, x)
  }

  /** Narrow to the requested lines, in the order requested, or refuse the first bad one. */
  function NarrowTo(uncovered: map<int, int>, requested: seq<Request>): Result<seq<Request>, Error> {
    if requested == [] then Ok([])
    else
      var earlier := NarrowTo(uncovered, requested[..|requested| - 1]);
      var item := requested[|requested| - 1];
      if earlier.Refused? then earlier
      else if exists r :: r in earlier.value && r.salesLine == item.salesLine then Refused(LineRepeated)
      else if item.salesLine !in uncovered then Refused(LineNotDeliverable)
      else if item.quantity > uncovered[item.salesLine] then Refused(QuantityExceedsRemaining)
      else Ok(earlier.value + [item])
  }

  function WarehouseFor(setup: Setup, salesLine: SalesLine, facility: int): int
    requires facility in setup.fallback
  {
    salesLine.warehouse.Or(setup.fallback[facility])
  }

  function NewLine(setup: Setup, order: int, facility: int, r: Request): Line
    requires r.salesLine in setup.salesLines && facility in setup.fallback
  {
    var x := setup.salesLines[r.salesLine];
    Line(order, Some(r.salesLine), x.product, WarehouseFor(setup, x, facility), r.quantity, 0, 0, 0)
  }

  ghost predicate KnownLines(setup: Setup, chosen: seq<Request>) {
    forall r :: r in chosen ==> r.salesLine in setup.salesLines
  }

  /** One new line per chosen request. */
  function AddLines(s: State, setup: Setup, order: int, facility: int, chosen: seq<Request>): State
    requires KnownLines(setup, chosen) && facility in setup.fallback
  {
    if chosen == [] then s
    else
      var earlier := AddLines(s, setup, order, facility, chosen[..|chosen| - 1]);
      earlier.(lines := earlier.lines[
        NextId(earlier.lines) := NewLine(setup, order, facility, chosen[|chosen| - 1])])
  }

  /** Everything uncovered, one request per line. */
  function Everything(uncovered: map<int, int>, keys: seq<int>): seq<Request>
    requires forall k :: k in keys ==> k in uncovered
  {
    if keys == [] then []
    else
      var last := keys[|keys| - 1];
      Everything(uncovered, keys[..|keys| - 1]) + [Request(last, uncovered[last])]
  }

  ghost function Chosen(uncovered: map<int, int>, requested: Option<seq<Request>>): Result<seq<Request>, Error> {
    match requested
    case None => Ok(Everything(uncovered, Ascending(uncovered.Keys)))
    case Some(items) => NarrowTo(uncovered, items)
  }

  /** The kind of an order: as given, or a pickup when it goes to one of the facilities' own addresses. */
  function KindOf(setup: Setup, sale: int, given: Option<Fulfillment>, shipTo: Option<int>): Fulfillment {
    var destination := if shipTo.Some? || sale !in setup.sales then shipTo else setup.sales[sale].shipTo;
    given.Or(if destination.Some? && destination.value in setup.addresses then Pickup else Delivery)
  }

  /** Why nothing can be delivered of a sale. */
  function SaleRefusal(setup: Setup, sale: Sale): Option<Error> {
    if !sale.completed || sale.cancelled then Some(SaleNotDeliverable)
    else if setup.payFirst && !(sale.paid || sale.credit) then Some(SaleUnpaid)
    else None
  }

  /** Raise a delivery order for what the sale still owes, or for a named part of it. */
  ghost function Create(s: State, setup: Setup, sale: int, fulfillment: Fulfillment, requested: Option<seq<Request>>): Outcome {
    if fulfillment == Mixed then Refused(MixedNotAllowed)
    else if sale !in setup.sales then Refused(NotFound)
    else if SaleRefusal(setup, setup.sales[sale]).Some? then Refused(SaleRefusal(setup, setup.sales[sale]).value)
    else
      var uncovered := Deliverable(s, setup, sale);
      var chosen := Chosen(uncovered, requested);
      var facility := setup.sales[sale].facility;
      if uncovered == map[] then Refused(FullyDelivered)
      else if chosen.Refused? then Refused(chosen.error)
      else if facility !in setup.fallback then Refused(NoDispatchWarehouse)
      else
        ChosenKnown(s, setup, sale, requested);
        var id := NextId(s.orders);
        var order := Created(Order(setup.sales[sale].customer, facility, None, Draft, fulfillment, None, []));
        Ok(AddLines(s.(orders := s.orders[id := order]), setup, id, facility, chosen.value))
  }

  lemma {:induction false} NarrowedWithin(uncovered: map<int, int>, requested: seq<Request>)
    requires NarrowTo(uncovered, requested).Ok?
    ensures NarrowTo(uncovered, requested).value == requested
    ensures forall r :: r in requested ==> r.salesLine in uncovered && r.quantity <= uncovered[r.salesLine]
    ensures forall i, j :: 0 <= i < j < |requested| ==> requested[i].salesLine != requested[j].salesLine
  {
    if requested != [] {
      NarrowedWithin(uncovered, requested[..|requested| - 1]);
    }
  }

  lemma {:induction false} EverythingListed(uncovered: map<int, int>, keys: seq<int>)
    requires forall k :: k in keys ==> k in uncovered
    ensures var all := Everything(uncovered, keys);
            && |all| == |keys|
            && forall i :: 0 <= i < |keys| ==> all[i] == Request(keys[i], uncovered[keys[i]])
  {
    if keys != [] {
      EverythingListed(uncovered, keys[..|keys| - 1]);
    }
  }

  lemma EverythingWithin(uncovered: map<int, int>, keys: seq<int>)
    requires Increasing(keys) && forall k :: k in keys <==> k in uncovered
    ensures var all := Everything(uncovered, keys);
            && (forall r :: r in all ==> r.salesLine in uncovered && r.quantity == uncovered[r.salesLine])
            && (forall i, j :: 0 <= i < j < |all| ==> all[i].salesLine != all[j].salesLine)
            && (forall k :: k in uncovered ==> Request(k, uncovered[k]) in all)
  {
    EverythingListed(uncovered, keys);
    forall k | k in uncovered ensures Request(k, uncovered[k]) in Everything(uncovered, keys) {
      var i :| 0 <= i < |keys| && keys[i] == k;
      assert Everything(uncovered, keys)[i] == Request(k, uncovered[k]);
    }
  }

  /** Whether narrowed or not, what is chosen is uncovered, each line once. */
  lemma ChosenWithin(uncovered: map<int, int>, requested: Option<seq<Request>>)
    requires Chosen(uncovered, requested).Ok?
    ensures var chosen := Chosen(uncovered, requested).value;
            && (forall r :: r in chosen ==> r.salesLine in uncovered && r.quantity <= uncovered[r.salesLine])
            && (forall i, j :: 0 <= i < j < |chosen| ==> chosen[i].salesLine != chosen[j].salesLine)
            && (requested.Some? ==> chosen == requested.value)
            && (requested.None? ==> forall k :: k in uncovered ==> Request(k, uncovered[k]) in chosen)
  {
    match requested
    case None => EverythingWithin(uncovered, Ascending(uncovered.Keys));
    case Some(items) => NarrowedWithin(uncovered, items);
  }

  lemma ChosenKnown(s: State, setup: Setup, sale: int, requested: Option<seq<Request>>)
    ensures var chosen := Chosen(Deliverable(s, setup, sale), requested);
            chosen.Ok? ==> KnownLines(setup, chosen.value)
  {
    if Chosen(Deliverable(s, setup, sale), requested).Ok? {
      ChosenWithin(Deliverable(s, setup, sale), requested);
    }
  }

  /** Put one more of the customer's sales lines on a draft. */
  ghost function AddLine(s: State, setup: Setup, order: int, r: Request): Outcome {
    if order !in s.orders then Refused(NotFound)
    else if s.orders[order].status != Draft then Refused(NotEditable)
    else if r.salesLine !in setup.salesLines || setup.salesLines[r.salesLine].sale !in setup.sales
      || setup.sales[setup.salesLines[r.salesLine].sale].customer != s.orders[order].customer
    then Refused(LineNotDeliverable)
    else if exists l :: l in LinesOf(s, order) && s.lines[l].salesLine == Some(r.salesLine)
    then Refused(LineAlreadyPresent)
    else if Covered(s, r.salesLine) + r.quantity > setup.salesLines[r.salesLine].quantity
    then Refused(QuantityExceedsRemaining)
    else if setup.salesLines[r.salesLine].warehouse.None? && s.orders[order].facility !in setup.fallback
    then Refused(NoDispatchWarehouse)
    else
      var x := setup.salesLines[r.salesLine];
      var warehouse := if x.warehouse.Some? then x.warehouse.value else setup.fallback[s.orders[order].facility];
      Ok(s.(lines := s.lines[
        NextId(s.lines) := Line(order, Some(r.salesLine), x.product, warehouse, r.quantity, 0, 0, 0)]))
  }

  ghost function UpdateLine(s: State, setup: Setup, order: int, line: int, quantity: int): Outcome {
    if order !in s.orders then Refused(NotFound)
    else if s.orders[order].status != Draft then Refused(NotEditable)
    else if line !in LinesOf(s, order) then Refused(NotFound)
    else
      var x := s.lines[line].salesLine;
      if x.Some? && x.value in setup.salesLines
        && Covered(s, x.value) - s.lines[line].quantity + quantity > setup.salesLines[x.value].quantity
      then Refused(QuantityExceedsRemaining)
      else Ok(s.(lines := s.lines[line := s.lines[line].(quantity := quantity)]))
  }

  /** Trip entries hold their line by a foreign key. */
  function DeleteLine(s: State, order: int, line: int): Outcome {
    if order !in s.orders then Refused(NotFound)
    else if s.orders[order].status != Draft then Refused(NotEditable)
    else if line !in LinesOf(s, order) then Refused(NotFound)
    else if exists e :: e in s.entries && s.entries[e].line == line then Refused(StillLoaded)
    else Ok(s.(lines := s.lines - {line}))
  }

  /** Move one order and leave the rest of the tables as `s` has them. */
  function Moved(s: State, order: int, to: Status, reason: bool): Outcome
    requires order in s.orders
  {
    var moved := Transition(s.orders[order], to, reason);
    if moved.Refused? then Refused(Moving(moved.error))
    else Ok(s.(orders := s.orders[order := moved.value]))
  }

  /** Where an approved order lands. */
  function BranchTarget(order: Order): Status {
    if order.fulfillment == Pickup then Approved else InPreparation
  }

  /** The serials in use at a facility. */
  function Folios(orders: map<int, Order>, facility: int): set<int> {
    set o | o in orders && orders[o].facility == facility && orders[o].serial.Some? :: orders[o].serial.value
  }

  function NextFolio(orders: map<int, Order>, facility: int): int {
    if Folios(orders, facility) == {} then 1 else Greatest(Folios(orders, facility)) + 1
  }

  /** The order under its facility's next serial, in place of any it had. */
  function Folioed(orders: map<int, Order>, order: Order): Order {
    order.(serial := Some(NextFolio(orders, order.facility)))
  }

  function WithFolio(s: State, order: int): State
    requires order in s.orders
  {
    s.(orders := s.orders[order := Folioed(s.orders, s.orders[order])])
  }

  /** Number the order and put it into the flow; whether notice is too short is the clock's word. */
  function Confirm(s: State, setup: Setup, order: int, short: bool): Outcome {
    if order !in s.orders then Refused(NotFound)
    else if s.orders[order].status != Draft then Refused(NotEditable)
    else if LinesOf(s, order) == {} then Refused(NoLines)
    else if short then Refused(InsufficientNotice)
    else
      Moved(WithFolio(s, order), order, if setup.approvalRequired then PendingApproval else BranchTarget(s.orders[order]), false)
  }

  function Approve(s: State, order: int): Outcome {
    if order !in s.orders then Refused(NotFound)
    else if s.orders[order].status != PendingApproval then Refused(NotPendingApproval)
    else Moved(s, order, BranchTarget(s.orders[order]), false)
  }

  function Reject(s: State, order: int, reason: bool): Outcome {
    if order !in s.orders then Refused(NotFound)
    else if s.orders[order].status != PendingApproval then Refused(NotPendingApproval)
    else Moved(s, order, Draft, reason)
  }

  function MarkReady(s: State, order: int): Outcome {
    if order !in s.orders then Refused(NotFound) else Moved(s, order, ReadyForPickup, false)
  }

  /** An order's lines, with what came back open again. */
  function Reopened(lines: map<int, Line>, order: int): map<int, Line> {
    map l | l in lines :: if lines[l].order == order then lines[l].(returned := 0) else lines[l]
  }

  /** An order's lines, holding nothing any more. */
  function Unclaimed(lines: map<int, Line>, order: int): map<int, Line> {
    map l | l in lines :: if lines[l].order == order then lines[l].(committed := 0) else lines[l]
  }

  /** An order's lines, all handed over. */
  function Collected(lines: map<int, Line>, order: int): map<int, Line> {
    map l | l in lines :: if lines[l].order == order then lines[l].(delivered := lines[l].quantity, committed := 0) else lines[l]
  }

  /** The returned quantity goes back to the open pool. */
  function Requeue(s: State, order: int): Outcome {
    if order !in s.orders then Refused(NotFound)
    else if s.orders[order].status != Failed then Refused(NotFailed)
    else
      Moved(s.(lines := Reopened(s.lines, order)), order, InPreparation, false)
  }

  function Cancel(s: State, order: int, reason: bool): Outcome {
    if order !in s.orders then Refused(NotFound)
    else
      Moved(s.(lines := Unclaimed(s.lines, order)), order, Cancelled, reason)
  }

  function PickupMove(setup: Setup, order: int, line: Line): seq<Move> {
    if line.product in setup.stockable then [Move(ByPickup, order, line.warehouse, line.product, -line.quantity)] else []
  }

  function PickupMoves(s: State, setup: Setup, order: int, keys: seq<int>): seq<Move>
    requires forall l :: l in keys ==> l in s.lines
  {
    if keys == [] then []
    else
      var l := keys[|keys| - 1];
      assert l in keys;
      PickupMoves(s, setup, order, keys[..|keys| - 1]) + PickupMove(setup, order, s.lines[l])
  }

  /** Hand the goods over the counter: stock leaves the store warehouse directly. */
  function ConfirmPickup(s: State, setup: Setup, order: int, proof: bool): Outcome {
    if order !in s.orders then Refused(NotFound)
    else if !proof then Refused(ProofIncomplete)
    else
      Moved(s.(lines := Collected(s.lines, order),
               ledger := s.ledger + PickupMoves(s, setup, order, Ascending(LinesOf(s, order)))),
            order, PickedUp, false)
  }

  // ----- trips

  function CreateTrip(s: State): State {
    s.(trips := s.trips[NextId(s.trips) := TripOpen])
  }

  predicate IsOpen(s: State, trip: int) {
    trip in s.trips && s.trips[trip] == TripOpen
  }

  function AddStop(s: State, trip: int, order: int): Outcome {
    if !IsOpen(s, trip) then Refused(TripNotOpen)
    else if order !in s.orders then Refused(NotFound)
    else if s.orders[order].fulfillment == Pickup then Refused(PickupNotLoadable)
    else if s.orders[order].status != InPreparation then Refused(NotInPreparation)
    else Ok(s.(stops := s.stops[NextId(s.stops) := Stop(trip, StopPending)]))
  }

  /** Claim a quantity of a line for a stop of an open trip; all that is open when none is given. */
  function CommitLine(s: State, trip: int, stop: int, line: int, quantity: Option<int>): Outcome {
    if stop !in StopsOf(s, trip) then Refused(NotFound)
    else if !IsOpen(s, trip) then Refused(TripNotOpen)
    else if line !in s.lines then Refused(NotFound)
    else
      var remaining := OpenQuantity(s.lines[line]);
      var requested := quantity.Or(remaining);
      if requested <= 0 then Refused(NothingToLoad)
      else if requested > remaining then Refused(QuantityUnavailable)
      else
        Ok(s.(entries := s.entries[NextId(s.entries) := Entry(stop, line, requested, 0, 0, 0)],
              lines := s.lines[line := s.lines[line].(committed := s.lines[line].committed + requested)]))
  }

  /** Change a claim.  The trip named must be open; that the entry is the trip's is not looked at. */
  function AdjustCommitment(s: State, trip: int, entry: int, quantity: int): Outcome {
    if !IsOpen(s, trip) then Refused(TripNotOpen)
    else if entry !in s.entries || s.entries[entry].line !in s.lines then Refused(NotFound)
    else
      var e := s.entries[entry];
      var line := s.lines[e.line];
      if quantity > OpenQuantity(line) + e.committed then Refused(QuantityUnavailable)
      else
        Ok(s.(entries := s.entries[entry := e.(committed := quantity)],
              lines := s.lines[e.line := line.(committed := line.committed + (quantity - e.committed))]))
  }

  /** Give the claims of some entries back and delete them. */
  ghost function Release(s: State, some: set<int>): State {
    s.(entries := s.entries - some, lines := Freed(s.lines, s.entries, some))
  }

  ghost function Freed(lines: map<int, Line>, entries: map<int, Entry>, some: set<int>): map<int, Line> {
    map l | l in lines :: lines[l].(committed := lines[l].committed - OnLine(entries, some, l, Claim))
  }

  ghost function ReleaseCommitment(s: State, trip: int, entry: int): Outcome {
    if !IsOpen(s, trip) then Refused(TripNotOpen)
    else if entry !in s.entries then Refused(NotFound)
    else Ok(Release(s, {entry}))
  }

  ghost function RemoveStop(s: State, trip: int, stop: int): Outcome {
    if !IsOpen(s, trip) then Refused(TripNotOpen)
    else if stop !in StopsOf(s, trip) then Refused(NotFound)
    else
      var freed := Release(s, EntriesOf(s, stop));
      Ok(freed.(stops := s.stops - {stop}))
  }

  ghost function CancelTrip(s: State, trip: int): Outcome {
    if !IsOpen(s, trip) then Refused(TripNotOpen)
    else
      var freed := Release(s, EntriesOfTrip(s, trip));
      Ok(freed.(stops := s.stops - StopsOf(s, trip), trips := s.trips[trip := TripCancelled]))
  }

  // ----- departure

  /** Off the shelf and into the in-transit location of the facility the goods leave. */
  function DepartMove(setup: Setup, trip: int, line: Line, quantity: int): seq<Move> {
    if line.product in setup.stockable && line.warehouse in setup.transit then
      [Move(ByTrip, trip, line.warehouse, line.product, -quantity),
       Move(ByTrip, trip, setup.transit[line.warehouse], line.product, quantity)]
    else []
  }

  predicate OnKnownLines(s: State, keys: set<int>) {
    forall e :: e in keys ==> e in s.entries && s.entries[e].line in s.lines
  }

  function DepartMoves(s: State, setup: Setup, trip: int, keys: seq<int>): seq<Move>
    requires forall e :: e in keys ==> e in s.entries && s.entries[e].line in s.lines
  {
    if keys == [] then []
    else
      var e := keys[|keys| - 1];
      assert e in keys;
      DepartMoves(s, setup, trip, keys[..|keys| - 1])
      + DepartMove(setup, trip, s.lines[s.entries[e].line], s.entries[e].committed)
  }

  /** The orders some entries are of. */
  function OrdersOf(s: State, some: set<int>): set<int>
    requires OnKnownLines(s, some)
  {
    set e | e in some :: s.lines[s.entries[e].line].order
  }

  function Departing(s: State, trip: int): (some: set<int>)
    ensures OnKnownLines(s, some)
  {
    set e | e in EntriesOfTrip(s, trip) && s.entries[e].line in s.lines
  }

  predicate Overloaded(s: State, some: set<int>)
    requires OnKnownLines(s, some)
  {
    exists e :: e in some && s.lines[s.entries[e].line].committed
                             > s.lines[s.entries[e].line].quantity - s.lines[s.entries[e].line].delivered
  }

  /** Every warehouse the goods leave has an in-transit location. */
  predicate TransitKnown(s: State, setup: Setup, some: set<int>)
    requires OnKnownLines(s, some)
  {
    forall e :: e in some ==> s.lines[s.entries[e].line].warehouse in setup.transit
  }

  predicate AllMovable(orders: map<int, Order>, moving: set<int>, to: Status) {
    forall o :: o in moving && o in orders ==> Transition(orders[o], to, false).Ok?
  }

  /** Why a trip cannot be loaded out as it is. */
  function LoadRefusal(s: State, setup: Setup, trip: int, some: set<int>): Option<Error>
    requires OnKnownLines(s, some)
  {
    if !IsOpen(s, trip) then Some(TripNotOpen)
    else if forall e :: e in some ==> s.entries[e].committed <= 0 then Some(NothingCommitted)
    else if Overloaded(s, some) then Some(Overcommitted)
    else if !TransitKnown(s, setup, some) then Some(NoInTransitLocation)
    else None
  }

  function DepartRefusal(s: State, setup: Setup, trip: int): Option<Error> {
    var some := Departing(s, trip);
    var refusal := LoadRefusal(s, setup, trip, some);
    if refusal.Some? then refusal
    else if !AllMovable(s.orders, OrdersOf(s, some), InTransit) then Some(Moving(TransitionInvalid))
    else None
  }

  function SentEntries(s: State, some: set<int>): map<int, Entry> {
    map e | e in s.entries :: if e in some then s.entries[e].(sent := s.entries[e].committed) else s.entries[e]
  }

  function DepartedOrders(orders: map<int, Order>, moving: set<int>): map<int, Order>
    requires AllMovable(orders, moving, InTransit)
  {
    map o | o in orders :: if o in moving then Transition(orders[o], InTransit, false).value else orders[o]
  }

  /** Freeze what is on board and move it off the shelf.  What the lines have committed stays: the
      goods are still spoken for. */
  function Depart(s: State, setup: Setup, trip: int): Outcome {
    var refusal := DepartRefusal(s, setup, trip);
    if refusal.Some? then Refused(refusal.value)
    else
      var some := Departing(s, trip);
      Ok(s.(entries := SentEntries(s, some),
            ledger := s.ledger + DepartMoves(s, setup, trip, Ascending(some)),
            orders := DepartedOrders(s.orders, OrdersOf(s, some)),
            trips := s.trips[trip := TripDeparted]))
  }

  // ----- closing a stop

  /** What the customer accepted of an entry, and whether a shortfall was explained. */
  datatype Acceptance = Acceptance(delivered: int, reason: bool)

  /** Nothing accepted beyond what was sent. */
  predicate WithinSent(s: State, accepted: map<int, Acceptance>) {
    forall e :: e in accepted && e in s.entries ==> accepted[e].delivered <= s.entries[e].sent
  }

  predicate ShortfallsExplained(s: State, accepted: map<int, Acceptance>) {
    forall e :: e in accepted && e in s.entries ==> accepted[e].delivered == s.entries[e].sent || accepted[e].reason
  }

  function CloseRefusal(s: State, setup: Setup, trip: int, stop: int, accepted: map<int, Acceptance>, proof: bool): Option<Error> {
    if stop !in StopsOf(s, trip) || trip !in s.trips then Some(NotFound)
    else if s.trips[trip] != TripDeparted then Some(TripNotDeparted)
    else if s.stops[stop].outcome != StopPending then Some(StopAlreadyResolved)
    else if accepted.Keys != EntriesOf(s, stop) then Some(LinesIncomplete)
    else if !WithinSent(s, accepted) then Some(DeliveredExceedsSent)
    else if !ShortfallsExplained(s, accepted) then Some(ShortfallNeedsReason)
    else if !proof then Some(ProofIncomplete)
    else if !OnKnownLines(s, accepted.Keys) then Some(NotFound)
    else if !TransitKnown(s, setup, accepted.Keys) then Some(NoInTransitLocation)
    else None
  }

  /** The entries with what was accepted and what came back. */
  function SettledEntries(entries: map<int, Entry>, accepted: map<int, Acceptance>): map<int, Entry> {
    map e | e in entries :: if e in accepted then SettledEntry(entries[e], accepted[e].delivered) else entries[e]
  }

  function SettledEntry(entry: Entry, delivered: int): Entry {
    entry.(delivered := delivered, returned := entry.sent - delivered)
  }

  ghost function SettledLines(lines: map<int, Line>, entries: map<int, Entry>, some: set<int>): map<int, Line> {
    map l | l in lines ::
      lines[l].(
        delivered := lines[l].delivered + OnLine(entries, some, l, Accepted),
        returned := lines[l].returned + OnLine(entries, some, l, Returned),
        committed := lines[l].committed - OnLine(entries, some, l, Claim))
  }

  /** Out of the in-transit location, and back on the shelf what was refused. */
  function CloseMove(setup: Setup, trip: int, line: Line, entry: Entry): seq<Move> {
    if line.product !in setup.stockable || line.warehouse !in setup.transit then []
    else
      (if entry.sent > 0 then [Move(ByTrip, trip, setup.transit[line.warehouse], line.product, -entry.sent)] else [])
      + (if entry.returned > 0 then [Move(ByTrip, trip, line.warehouse, line.product, entry.returned)] else [])
  }

  function CloseMoves(s: State, setup: Setup, trip: int, entries: map<int, Entry>, keys: seq<int>): seq<Move>
    requires forall e :: e in keys ==> e in entries && entries[e].line in s.lines
  {
    if keys == [] then []
    else
      var last := keys[|keys| - 1];
      assert last in keys;
      CloseMoves(s, setup, trip, entries, keys[..|keys| - 1]) + CloseMove(setup, trip, s.lines[entries[last].line], entries[last])
  }

  /** A figure over those of some entries that are of one order. */
  ghost function OfOrder(s: State, entries: map<int, Entry>, some: set<int>, order: int, figure: Figure): int {
    Total(OrderColumn(s, entries, some, order, figure))
  }

  function OrderColumn(s: State, entries: map<int, Entry>, some: set<int>, order: int, figure: Figure): map<int, int> {
    map e | e in some && e in entries && entries[e].line in s.lines && s.lines[entries[e].line].order == order
      :: Amount(entries[e], figure)
  }

  /** How an order came out of a stop, decided on what was sent. */
  ghost function Target(s: State, entries: map<int, Entry>, some: set<int>, order: int): Status {
    if OfOrder(s, entries, some, order, Accepted) == OfOrder(s, entries, some, order, Sent) then Delivered
    else if OfOrder(s, entries, some, order, Accepted) == 0 then Failed
    else PartiallyDelivered
  }

  /** The orders at the stop that the customer took part of. */
  ghost function Partial(s: State, entries: map<int, Entry>, some: set<int>): set<int>
    requires OnKnownLines(s, some)
  {
    set o | o in OrdersOf(s, some) && Target(s, entries, some, o) == PartiallyDelivered
  }

  /** The entries whose remainder a child order carries. */
  ghost function Remainder(s: State, entries: map<int, Entry>, some: set<int>): set<int>
    requires OnKnownLines(s, some)
  {
    set e | e in some && e in entries && entries[e].returned > 0
            && s.lines[s.entries[e].line].order in Partial(s, entries, some)
  }

  /** A child starts as a draft and goes straight to the loading queue. */
  function ChildOf(id: int, parent: Order): Result<Order, Refusal> {
    Transition(Created(Order(parent.customer, parent.facility, None, Draft, parent.fulfillment, Some(id), [])), InPreparation, false)
  }

  predicate CanSplit(orders: map<int, Order>, parents: set<int>) {
    forall o :: o in parents ==> o in orders && ChildOf(o, orders[o]).Ok?
  }

  function ChildrenOf(orders: map<int, Order>, parents: set<int>): map<int, Order>
    requires CanSplit(orders, parents)
  {
    map o | o in parents :: ChildOf(o, orders[o]).value
  }

  /** Children added under the identities from `first` on and the next serials, in the order of their parents. */
  function AddChildren(orders: map<int, Order>, first: int, parents: seq<int>, children: map<int, Order>): map<int, Order>
    requires forall o :: o in parents ==> o in children
  {
    if parents == [] then orders
    else
      var last := parents[|parents| - 1];
      assert last in parents;
      var earlier := AddChildren(orders, first, parents[..|parents| - 1], children);
      earlier[first + |parents| - 1 := Folioed(earlier, children[last])]
  }

  function ChildIds(first: int, parents: seq<int>): map<int, int> {
    if parents == [] then map[]
    else ChildIds(first, parents[..|parents| - 1])[parents[|parents| - 1] := first + |parents| - 1]
  }

  lemma {:induction false} ChildIdsOf(first: int, parents: seq<int>)
    ensures forall o :: o in ChildIds(first, parents) <==> o in parents
  {
    if parents != [] {
      ChildIdsOf(first, parents[..|parents| - 1]);
      assert parents == parents[..|parents| - 1] + [parents[|parents| - 1]];
    }
  }

  function ChildLine(s: State, children: map<int, int>, e: int): Line
    requires e in s.entries && s.entries[e].line in s.lines && s.lines[s.entries[e].line].order in children
  {
    var line := s.lines[s.entries[e].line];
    Line(children[line.order], line.salesLine, line.product, line.warehouse, s.entries[e].returned, 0, 0, 0)
  }

  ghost predicate Carriable(s: State, children: map<int, int>, carried: seq<int>) {
    forall e :: e in carried ==> e in s.entries && s.entries[e].line in s.lines && s.lines[s.entries[e].line].order in children
  }

  /** A line of the child for what came back of each entry. */
  function AddRemainders(s: State, children: map<int, int>, carried: seq<int>): map<int, Line>
    requires Carriable(s, children, carried)
  {
    if carried == [] then s.lines
    else
      var last := carried[|carried| - 1];
      assert last in carried;
      var earlier := AddRemainders(s, children, carried[..|carried| - 1]);
      earlier[NextId(earlier) := ChildLine(s, children, last)]
  }

  ghost function StopResult(s: State, entries: map<int, Entry>, some: set<int>): StopOutcome
    requires OnKnownLines(s, some)
  {
    var seen := OrdersOf(s, some);
    if forall o :: o in seen ==> Target(s, entries, some, o) == Delivered then StopDelivered
    else if forall o :: o in seen ==> Target(s, entries, some, o) == Failed then StopFailed
    else StopPartial
  }

  ghost predicate AllSettle(s: State, entries: map<int, Entry>, some: set<int>)
    requires OnKnownLines(s, some)
  {
    forall o :: o in OrdersOf(s, some) ==>
      o in s.orders && Transition(s.orders[o], Target(s, entries, some, o), true).Ok?
  }

  /** Each order at the stop, moved to how it came out. */
  ghost function SettledOrders(s: State, entries: map<int, Entry>, some: set<int>): map<int, Order>
    requires OnKnownLines(s, some) && AllSettle(s, entries, some)
  {
    var seen := OrdersOf(s, some);
    map o | o in s.orders ::
      if o in seen then Transition(s.orders[o], Target(s, entries, some, o), true).value else s.orders[o]
  }

  /** The trip closes with its last pending stop. */
  function TripAfter(s: State, trip: int, stop: int): map<int, Trip> {
    if exists p :: p in StopsOf(s, trip) && p != stop && s.stops[p].outcome == StopPending then s.trips
    else s.trips[trip := TripClosed]
  }

  /** The tables once every entry, line, order and movement of a stop is settled, before the splits. */
  ghost function Settled(s: State, setup: Setup, trip: int, stop: int, accepted: map<int, Acceptance>): State
    requires OnKnownLines(s, accepted.Keys) && stop in s.stops && trip in s.trips
    requires AllSettle(s, SettledEntries(s.entries, accepted), accepted.Keys)
  {
    var some := accepted.Keys;
    var entries := SettledEntries(s.entries, accepted);
    State(
      SettledOrders(s, entries, some),
      SettledLines(s.lines, entries, some),
      TripAfter(s, trip, stop),
      s.stops[stop := s.stops[stop].(outcome := StopResult(s, entries, some))],
      entries,
      s.ledger + CloseMoves(s, setup, trip, entries, Ascending(some)))
  }

  /** Split what came back of partly delivered orders into a child each. */
  ghost function Split(s: State, parents: set<int>, carried: set<int>): Outcome
    requires parents <= s.orders.Keys
    requires forall e :: e in carried ==> e in s.entries && s.entries[e].line in s.lines && s.lines[s.entries[e].line].order in parents
  {
    if !CanSplit(s.orders, parents) then Refused(Moving(TransitionInvalid))
    else
      var list, first := Ascending(parents), NextId(s.orders);
      ChildIdsOf(first, list);
      Ok(s.(orders := AddChildren(s.orders, first, list, ChildrenOf(s.orders, parents)),
            lines := AddRemainders(s, ChildIds(first, list), Ascending(carried))))
  }

  /** Record what the customer accepted and settle every order at the stop: its entries and lines,
      the stock, the orders' statuses, a child order for each remainder, the stop and the trip. */
  ghost function CloseStop(s: State, setup: Setup, trip: int, stop: int, accepted: map<int, Acceptance>, proof: bool): Outcome {
    var refusal := CloseRefusal(s, setup, trip, stop, accepted, proof);
    if refusal.Some? then Refused(refusal.value)
    else
      var some := accepted.Keys;
      var entries := SettledEntries(s.entries, accepted);
      if !AllSettle(s, entries, some) then Refused(Moving(TransitionInvalid))
      else
        var carried := Remainder(s, entries, some);
        Split(Settled(s, setup, trip, stop, accepted), OrdersOf(s, carried), carried)
  }
}
