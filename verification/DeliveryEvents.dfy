/** The one door every delivery-order status change goes through. */
module DeliveryEvents {
  import opened Outcomes

  datatype Status =
    | Draft | PendingApproval | Approved | ReadyForPickup | PickedUp | InPreparation
    | InTransit | Delivered | PartiallyDelivered | Failed | Cancelled

  datatype Fulfillment = Pickup | Delivery | Mixed

  const TERMINAL: set<Status> := {PickedUp, Delivered, PartiallyDelivered, Cancelled}

  /** Every move the state machine permits, before the fulfilment type is looked at. */
  const LEGAL: map<Status, set<Status>> := map[
    Draft := {PendingApproval, Approved, InPreparation, Cancelled},
    PendingApproval := {Approved, InPreparation, Draft, Cancelled},
    Approved := {ReadyForPickup, Cancelled},
    ReadyForPickup := {PickedUp, Cancelled},
    InPreparation := {InTransit, Cancelled},
    InTransit := {Delivered, PartiallyDelivered, Failed},
    Failed := {InPreparation, Cancelled},
    PickedUp := {},
    Delivered := {},
    PartiallyDelivered := {},
    Cancelled := {}]

  /** Moves only one fulfilment type may make. */
  const TYPE_RESTRICTED: map<(Status, Status), Fulfillment> := map[
    (Draft, InPreparation) := Delivery,
    (Draft, Approved) := Pickup,
    (PendingApproval, InPreparation) := Delivery,
    (PendingApproval, Approved) := Pickup,
    (Approved, ReadyForPickup) := Pickup]

  /** Statuses nothing lands on without saying why. */
  const REASON_REQUIRED: set<Status> := {Draft, Failed, Cancelled}

  /** One recorded status change; the first has no status left behind. */
  datatype Event = Event(from: Option<Status>, to: Status)

  datatype Order = Order(
    customer: int, facility: int, serial: Option<int>, status: Status, fulfillment: Fulfillment, parent: Option<int>,
    events: seq<Event>)

  datatype Refusal = TransitionInvalid | ReasonRequired

  predicate MoveAllowed(from: Status, to: Status, fulfillment: Fulfillment) {
    && from !in TERMINAL
    && from in LEGAL && to in LEGAL[from]
    && ((from, to) in TYPE_RESTRICTED ==> fulfillment == TYPE_RESTRICTED[(from, to)])
  }

  /** Move the order and record the move, or refuse. */
  function Transition(order: Order, to: Status, reason: bool): Result<Order, Refusal> {
    if !MoveAllowed(order.status, to, order.fulfillment) then Refused(TransitionInvalid)
    else if to in REASON_REQUIRED && !reason then Refused(ReasonRequired)
    else Ok(order.(status := to, events := order.events + [Event(Some(order.status), to)]))
  }

  /** A new order's history starts with its creation, as a draft. */
  function Created(order: Order): Order {
    order.(status := Draft, events := order.events + [Event(None, Draft)])
  }

  /** The events are the order's whole life: created as a draft, then one permitted move after
      another, each starting where the one before ended, up to the status it has. */
  ghost predicate Recorded(order: Order) {
    && order.events != []
    && order.events[0] == Event(None, Draft)
    && order.events[|order.events| - 1].to == order.status
    && forall i :: 1 <= i < |order.events| ==> FollowsOn(order, i)
  }

  ghost predicate FollowsOn(order: Order, i: int)
    requires 1 <= i < |order.events|
  {
    && order.events[i].from == Some(order.events[i - 1].to)
    && MoveAllowed(order.events[i - 1].to, order.events[i].to, order.fulfillment)
  }

  lemma TransitionRecords(order: Order, to: Status, reason: bool)
    requires Recorded(order) && Transition(order, to, reason).Ok?
    ensures Recorded(Transition(order, to, reason).value)
  {
    var moved := Transition(order, to, reason).value;
    forall i | 1 <= i < |moved.events| ensures FollowsOn(moved, i) {
      if i < |order.events| {
        assert FollowsOn(order, i);
      }
    }
  }

  /** No recorded history goes on past a terminal status. */
  lemma TerminalIsLast(order: Order, i: nat)
    requires Recorded(order) && i < |order.events| - 1
    ensures order.events[i].to !in TERMINAL
  {
    assert FollowsOn(order, i + 1);
  }

  /** A counter pickup is never on the road: no recorded history reaches the loading queue. */
  lemma {:induction false} PickupNeverTravels(order: Order, i: nat)
    requires Recorded(order) && order.fulfillment == Pickup && i < |order.events|
    ensures order.events[i].to in {Draft, PendingApproval, Approved, ReadyForPickup, PickedUp, Cancelled}
  {
    if i > 0 {
      PickupNeverTravels(order, i - 1);
      assert FollowsOn(order, i);
    }
  }
}
