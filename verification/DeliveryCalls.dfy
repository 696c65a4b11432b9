/** The delivery operations as calls, runs of them, and what every run keeps, whoever's claims it changes. */
module DeliveryCalls {
  import opened Outcomes
  import opened Tables
  import opened DeliveryEvents
  import opened Delivery
  import opened DeliveryInvariant
  import opened DeliveryKeeps
  import opened DeliveryTravel
  import opened DeliveryDepart
  import opened DeliveryClose

  datatype Call =
    | Raise(sale: int, given: Option<Fulfillment>, shipTo: Option<int>, requested: Option<seq<Request>>)
    | Add(order: int, request: Request)
    | Edit(order: int, line: int, quantity: int)
    | Drop(order: int, line: int)
    | ConfirmOrder(order: int, short: bool)
    | ApproveOrder(order: int)
    | RejectOrder(order: int, reason: bool)
    | ReadyOrder(order: int)
    | RequeueOrder(order: int)
    | CancelOrder(order: int, reason: bool)
    | HandOver(order: int, proof: bool)
    | PlanTrip
    | PlanStop(trip: int, order: int)
    | Load(trip: int, stop: int, line: int, amount: Option<int>)
    | Adjust(trip: int, entry: int, quantity: int)
    | Unload(trip: int, entry: int)
    | DropStop(trip: int, stop: int)
    | DropTrip(trip: int)
    | Leave(trip: int)
    | Resolve(trip: int, stop: int, accepted: map<int, Acceptance>, proof: bool)

  ghost function Answer(s: State, setup: Setup, call: Call): Outcome {
    match call
    case Raise(sale, given, shipTo, requested) => Create(s, setup, sale, KindOf(setup, sale, given, shipTo), requested)
    case Add(order, request) => AddLine(s, setup, order, request)
    case Edit(order, line, quantity) => UpdateLine(s, setup, order, line, quantity)
    case Drop(order, line) => DeleteLine(s, order, line)
    case ConfirmOrder(order, short) => Confirm(s, setup, order, short)
    case ApproveOrder(order) => Approve(s, order)
    case RejectOrder(order, reason) => Reject(s, order, reason)
    case ReadyOrder(order) => MarkReady(s, order)
    case RequeueOrder(order) => Requeue(s, order)
    case CancelOrder(order, reason) => Cancel(s, order, reason)
    case HandOver(order, proof) => ConfirmPickup(s, setup, order, proof)
    case PlanTrip => Ok(CreateTrip(s))
    case PlanStop(trip, order) => AddStop(s, trip, order)
    case Load(trip, stop, line, amount) => CommitLine(s, trip, stop, line, amount)
    case Adjust(trip, entry, quantity) => AdjustCommitment(s, trip, entry, quantity)
    case Unload(trip, entry) => ReleaseCommitment(s, trip, entry)
    case DropStop(trip, stop) => RemoveStop(s, trip, stop)
    case DropTrip(trip) => CancelTrip(s, trip)
    case Leave(trip) => Depart(s, setup, trip)
    case Resolve(trip, stop, accepted, proof) => CloseStop(s, setup, trip, stop, accepted, proof)
  }

  /** A refused call changes nothing. */
  ghost function After(s: State, setup: Setup, call: Call): State {
    var answer := Answer(s, setup, call);
    if answer.Ok? then answer.value else s
  }

  ghost function Run(s: State, setup: Setup, calls: seq<Call>): State {
    if calls == [] then s else After(Run(s, setup, calls[..|calls| - 1]), setup, calls[|calls| - 1])
  }

  /** What the requests' own schemas bound. */
  predicate Bounded(call: Call) {
    match call
    case Raise(_, _, _, requested) => requested.Some? ==> forall r :: r in requested.value ==> r.quantity > 0
    case Add(_, request) => request.quantity > 0
    case Edit(_, _, quantity) => quantity > 0
    case Adjust(_, _, quantity) => quantity > 0
    case _ => true
  }

  ghost predicate AllBounded(calls: seq<Call>) {
    forall c :: c in calls ==> Bounded(c)
  }

  predicate OfTrips(call: Call) {
    || call.PlanTrip? || call.PlanStop? || call.Load? || call.Adjust? || call.Unload? || call.DropStop?
    || call.DropTrip? || call.Leave? || call.Resolve?
  }

  lemma OrderCallKeeps(s: State, setup: Setup, call: Call)
    requires Inv(s, setup) && SetupOk(setup) && Bounded(call) && Answer(s, setup, call).Ok? && !OfTrips(call)
    ensures Inv(After(s, setup, call), setup)
  {
    match call
    case Raise(sale, given, shipTo, requested) => CreateKeeps(s, setup, sale, KindOf(setup, sale, given, shipTo), requested);
    case Add(order, request) => AddLineKeeps(s, setup, order, request);
    case Edit(order, line, quantity) => UpdateLineKeeps(s, setup, order, line, quantity);
    case Drop(order, line) => DeleteLineKeeps(s, setup, order, line);
    case ConfirmOrder(order, short) => ConfirmKeeps(s, setup, order, short);
    case ApproveOrder(order) => ApproveKeeps(s, setup, order);
    case RejectOrder(order, reason) => RejectKeeps(s, setup, order, reason);
    case ReadyOrder(order) => MarkReadyKeeps(s, setup, order);
    case RequeueOrder(order) => RequeueKeeps(s, setup, order);
    case CancelOrder(order, reason) => CancelKeeps(s, setup, order, reason);
    case HandOver(order, proof) => PickupKeeps(s, setup, order, proof);
  }

  lemma TripCallKeeps(s: State, setup: Setup, call: Call)
    requires Inv(s, setup) && Bounded(call) && Answer(s, setup, call).Ok? && OfTrips(call)
    ensures Inv(After(s, setup, call), setup)
  {
    match call
    case PlanTrip => CreateTripKeeps(s, setup);
    case PlanStop(trip, order) => AddStopKeeps(s, setup, trip, order);
    case Load(trip, stop, line, amount) => CommitLineKeeps(s, setup, trip, stop, line, amount);
    case Adjust(trip, entry, quantity) => AdjustKeeps(s, setup, trip, entry, quantity);
    case Unload(trip, entry) => ReleaseKeeps(s, setup, trip, entry);
    case DropStop(trip, stop) => RemoveStopKeeps(s, setup, trip, stop);
    case DropTrip(trip) => CancelTripKeeps(s, setup, trip);
    case Leave(trip) => DepartKeeps(s, setup, trip);
    case Resolve(trip, stop, accepted, proof) => CloseStopKeeps(s, setup, trip, stop, accepted, proof);
  }

  /** Every operation keeps the invariant. */
  lemma CallKeeps(s: State, setup: Setup, call: Call)
    requires Inv(s, setup) && SetupOk(setup) && Bounded(call)
    ensures Inv(After(s, setup, call), setup)
  {
    if Answer(s, setup, call).Ok? {
      if OfTrips(call) {
        TripCallKeeps(s, setup, call);
      } else {
        OrderCallKeeps(s, setup, call);
      }
    }
  }

  lemma {:induction false} RunKeeps(s: State, setup: Setup, calls: seq<Call>)
    requires Inv(s, setup) && SetupOk(setup) && AllBounded(calls)
    ensures Inv(Run(s, setup, calls), setup)
  {
    if calls != [] {
      var last := calls[|calls| - 1];
      assert last in calls;
      RunKeeps(s, setup, calls[..|calls| - 1]);
      CallKeeps(Run(s, setup, calls[..|calls| - 1]), setup, last);
    }
  }

  lemma {:induction false} RunOn(s: State, setup: Setup, calls: seq<Call>, more: seq<Call>)
    ensures Run(s, setup, calls + more) == Run(Run(s, setup, calls), setup, more)
  {
    if more == [] {
      assert calls + more == calls;
    } else {
      assert (calls + more)[..|calls + more| - 1] == calls + more[..|more| - 1];
      RunOn(s, setup, calls, more[..|more| - 1]);
    }
  }

  const EMPTY := State(map[], map[], map[], map[], map[], [])

  lemma EmptyOk(setup: Setup)
    requires SetupOk(setup)
    ensures Inv(EMPTY, setup)
  {
    forall p ensures HandedOver(EMPTY, setup, p) == map[] {
    }
    forall x ensures Net(EMPTY, x) == map[] {
    }
  }
}
