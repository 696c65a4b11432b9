/** Drafting, moving, retiring and planning leave everything on trips alone: what each of these calls
    does to a line, and what stays the same on the road. */
module DeliveryMoves {
  import opened Outcomes
  import opened Tables
  import opened DeliveryEvents
  import opened Delivery
  import opened DeliveryInvariant
  import opened DeliveryKeeps
  import opened DeliveryTravel
  import opened DeliveryClose
  import opened DeliveryCalls

  /** Stops, trips and entries are as they were, new stops and trips aside, and entries find their goods. */
  ghost predicate SameTravel(s: State, t: State) {
    && t.entries == s.entries
    && (forall p :: p in s.stops ==> p in t.stops && t.stops[p] == s.stops[p])
    && (forall k :: k in s.trips ==> k in t.trips && t.trips[k] == s.trips[k])
    && (forall e :: e in s.entries && s.entries[e].line in s.lines ==>
          s.entries[e].line in t.lines && SameGoods(t.lines[s.entries[e].line], s.lines[s.entries[e].line]))
  }

  /** Not under way, and not at an end. */
  predicate Idle(status: Status) {
    status in {Draft, PendingApproval, Approved, ReadyForPickup, InPreparation, Failed}
  }

  predicate NewLineOn(line: Line) {
    line.quantity >= 0 && line.committed == 0 && line.delivered == 0 && line.returned == 0
  }

  /** What may become of a line, with its order's status before and after. */
  predicate LineMoves(a: Line, b: Line, from: Status, to: Status) {
    || (b == a && (to == from || (Idle(from) && Idle(to))))
    || (b == a.(quantity := b.quantity) && from == to == Draft && b.quantity > 0 && a.delivered == 0 && a.returned == 0)
    || (b == a.(returned := 0) && from == Failed && to == InPreparation && a.returned >= 0)
    || (b == a.(committed := 0) && to == Cancelled && from !in TERMINAL)
    || (b == a.(delivered := a.quantity, committed := 0) && from == ReadyForPickup && to == PickedUp
        && a.delivered == 0 && a.returned == 0)
  }

  ghost predicate Moves(s: State, t: State, l: int)
    requires l in t.lines
  {
    && t.lines[l].order in t.orders
    && (l !in s.lines ==> NewLineOn(t.lines[l]) && NoEntryOn(s, l) && t.orders[t.lines[l].order].status == Draft)
    && (l in s.lines ==>
          && t.lines[l].order == s.lines[l].order && s.lines[l].order in s.orders
          && LineMoves(s.lines[l], t.lines[l], s.orders[s.lines[l].order].status, t.orders[s.lines[l].order].status))
  }

  ghost predicate AllMove(s: State, t: State) {
    && SameTravel(s, t) && (forall l :: l in t.lines ==> Moves(s, t, l))
    && (forall l :: l in s.lines && s.lines[l].order in s.orders && s.orders[s.lines[l].order].status != Draft ==> l in t.lines)
    && (forall w, p :: TripStock(t.ledger, w, p) == TripStock(s.ledger, w, p))
  }

  predicate OffTrips(call: Call) {
    !OfTrips(call) || call.PlanTrip? || call.PlanStop?
  }

  // ----- call by call

  lemma MovedMoves(s: State, setup: Setup, o: int, to: Status, reason: bool)
    requires Inv(s, setup) && o in s.orders && Moved(s, o, to, reason).Ok? && Idle(s.orders[o].status) && Idle(to)
    ensures AllMove(s, Moved(s, o, to, reason).value)
  {
  }

  lemma FolioMoves(s: State, t: State, setup: Setup, o: int)
    requires o in s.orders && AllMove(WithFolio(s, o), t)
    ensures AllMove(s, t)
  {
    var u := WithFolio(s, o);
    forall l | l in t.lines ensures Moves(s, t, l) {
      assert Moves(u, t, l);
    }
  }

  lemma ConfirmMoves(s: State, setup: Setup, o: int, short: bool)
    requires Inv(s, setup) && Confirm(s, setup, o, short).Ok?
    ensures AllMove(s, Confirm(s, setup, o, short).value)
  {
    FolioKeeps(s, setup, o);
    MovedMoves(WithFolio(s, o), setup, o, if setup.approvalRequired then PendingApproval else BranchTarget(s.orders[o]), false);
    FolioMoves(s, Confirm(s, setup, o, short).value, setup, o);
  }

  lemma RequeueMoves(s: State, setup: Setup, o: int)
    requires Inv(s, setup) && Requeue(s, o).Ok?
    ensures AllMove(s, Requeue(s, o).value)
  {
    var t := Requeue(s, o).value;
    forall l | l in t.lines ensures Moves(s, t, l) {
      assert LineOk(s, setup, l);
    }
  }

  lemma CancelMoves(s: State, setup: Setup, o: int, reason: bool)
    requires Inv(s, setup) && Cancel(s, o, reason).Ok?
    ensures AllMove(s, Cancel(s, o, reason).value)
  {
    var t := Cancel(s, o, reason).value;
    forall l | l in t.lines ensures Moves(s, t, l) {
      assert LineOk(s, setup, l);
    }
  }

  lemma PickupTripStock(s: State, t: State, setup: Setup, o: int)
    requires t.ledger == s.ledger + PickupMoves(s, setup, o, Ascending(LinesOf(s, o)))
    ensures forall w, p :: TripStock(t.ledger, w, p) == TripStock(s.ledger, w, p)
  {
    var keys := Ascending(LinesOf(s, o));
    forall w, p ensures TripStock(t.ledger, w, p) == TripStock(s.ledger, w, p) {
      PickupPosts(s, setup, o, keys, w, p);
      TripStockAppend(s.ledger, PickupMoves(s, setup, o, keys), w, p);
    }
  }

  lemma PickupMovesLines(s: State, setup: Setup, o: int, proof: bool)
    requires Inv(s, setup) && ConfirmPickup(s, setup, o, proof).Ok?
    ensures AllMove(s, ConfirmPickup(s, setup, o, proof).value)
  {
    var t := ConfirmPickup(s, setup, o, proof).value;
    forall l | l in t.lines ensures Moves(s, t, l) {
      assert LineOk(s, setup, l);
    }
    PickupTripStock(s, t, setup, o);
  }

  lemma EditMoves(s: State, setup: Setup, o: int, l: int, quantity: int)
    requires Inv(s, setup) && quantity > 0 && UpdateLine(s, setup, o, l, quantity).Ok?
    ensures AllMove(s, UpdateLine(s, setup, o, l, quantity).value)
  {
    assert LineOk(s, setup, l);
  }

  lemma DropMoves(s: State, setup: Setup, o: int, l: int)
    requires Inv(s, setup) && DeleteLine(s, o, l).Ok?
    ensures AllMove(s, DeleteLine(s, o, l).value)
  {
    var t := DeleteLine(s, o, l).value;
    forall k | k in t.lines ensures Moves(s, t, k) {
      assert s.lines[k].order in s.orders;
    }
  }

  lemma NoneOnNew(s: State, setup: Setup, l: int)
    requires TablesOk(s, setup) && l !in s.lines
    ensures NoEntryOn(s, l)
  {
    forall e | e in s.entries ensures s.entries[e].line != l {
      assert EntryOk(s, setup, e);
    }
  }

  /** The lines there were, and new ones of one order. */
  ghost predicate Grows(before: map<int, Line>, after: map<int, Line>, o: int) {
    && (forall l :: l in before ==> l in after && after[l] == before[l])
    && (forall l :: l in after && l !in before ==> after[l].order == o && NewLineOn(after[l]))
  }

  lemma {:induction false} AddLinesGrow(s: State, setup: Setup, o: int, facility: int, chosen: seq<Request>)
    requires KnownLines(setup, chosen) && facility in setup.fallback && forall r :: r in chosen ==> r.quantity >= 0
    ensures var t := AddLines(s, setup, o, facility, chosen);
            t == s.(lines := t.lines) && Grows(s.lines, t.lines, o)
  {
    if chosen != [] {
      assert chosen[|chosen| - 1] in chosen;
      AddLinesGrow(s, setup, o, facility, chosen[..|chosen| - 1]);
    }
  }

  lemma GrowthMoves(s: State, t: State, setup: Setup, o: int)
    requires Inv(s, setup) && t == s.(orders := t.orders, lines := t.lines) && Grows(s.lines, t.lines, o)
    requires forall k :: k in s.orders ==> k in t.orders && t.orders[k] == s.orders[k]
    requires o in t.orders && t.orders[o].status == Draft
    ensures AllMove(s, t)
  {
    forall l | l in t.lines ensures Moves(s, t, l) {
      if l !in s.lines {
        NoneOnNew(s, setup, l);
      }
    }
  }

  lemma CreateMoves(s: State, setup: Setup, sale: int, fulfillment: Fulfillment, requested: Option<seq<Request>>)
    requires Inv(s, setup) && Create(s, setup, sale, fulfillment, requested).Ok?
    requires requested.Some? ==> forall r :: r in requested.value ==> r.quantity > 0
    ensures AllMove(s, Create(s, setup, sale, fulfillment, requested).value)
  {
    var t := Create(s, setup, sale, fulfillment, requested).value;
    var facility, order, chosen := CreateParts(s, t, setup, sale, fulfillment, requested);
    var id := NextId(s.orders);
    ChosenNotNegative(Deliverable(s, setup, sale), requested);
    RaisedMoves(s, t, setup, id, order, facility, chosen);
  }

  lemma RaisedMoves(s: State, t: State, setup: Setup, id: int, order: Order, facility: int, chosen: seq<Request>)
    requires Inv(s, setup) && id !in s.orders && order.status == Draft
    requires KnownLines(setup, chosen) && facility in setup.fallback && forall r :: r in chosen ==> r.quantity >= 0
    requires t == AddLines(s.(orders := s.orders[id := order]), setup, id, facility, chosen)
    ensures AllMove(s, t)
  {
    AddLinesGrow(s.(orders := s.orders[id := order]), setup, id, facility, chosen);
    GrowthMoves(s, t, setup, id);
  }

  lemma AddMoves(s: State, setup: Setup, o: int, r: Request)
    requires Inv(s, setup) && r.quantity > 0 && AddLine(s, setup, o, r).Ok?
    ensures AllMove(s, AddLine(s, setup, o, r).value)
  {
    var t, l := AddLine(s, setup, o, r).value, NextId(s.lines);
    OneLineMoves(s, t, setup, o, l, t.lines[l]);
  }

  lemma OneLineMoves(s: State, t: State, setup: Setup, o: int, l: int, line: Line)
    requires Inv(s, setup) && o in s.orders && s.orders[o].status == Draft && l !in s.lines
    requires t == s.(lines := s.lines[l := line]) && line.order == o && NewLineOn(line)
    ensures AllMove(s, t)
  {
    GrowthMoves(s, t, setup, o);
  }

  lemma PlansMove(s: State, t: State, setup: Setup)
    requires Inv(s, setup) && Plans(s, t)
    ensures AllMove(s, t)
  {
    forall l | l in t.lines ensures Moves(s, t, l) {
      assert s.lines[l].order in s.orders;
    }
  }

  lemma PlanMoves(s: State, setup: Setup, call: Call)
    requires Inv(s, setup) && Answer(s, setup, call).Ok? && (call.PlanTrip? || call.PlanStop?)
    ensures AllMove(s, After(s, setup, call))
  {
    var t := After(s, setup, call);
    if call.PlanStop? {
      AddStopPlans(s, t, call.trip, NextId(s.stops));
    }
    PlansMove(s, t, setup);
  }

  lemma StatusCallMoves(s: State, setup: Setup, call: Call)
    requires Inv(s, setup) && Answer(s, setup, call).Ok?
    requires call.ConfirmOrder? || call.ApproveOrder? || call.RejectOrder? || call.ReadyOrder?
    ensures AllMove(s, After(s, setup, call))
  {
    if call.ConfirmOrder? {
      ConfirmMoves(s, setup, call.order, call.short);
    } else if call.ApproveOrder? {
      MovedMoves(s, setup, call.order, BranchTarget(s.orders[call.order]), false);
    } else if call.RejectOrder? {
      MovedMoves(s, setup, call.order, Draft, call.reason);
    } else {
      MovedMoves(s, setup, call.order, ReadyForPickup, false);
    }
  }

  lemma CallMoves(s: State, setup: Setup, call: Call)
    requires Inv(s, setup) && Bounded(call) && Answer(s, setup, call).Ok? && OffTrips(call)
    ensures AllMove(s, After(s, setup, call))
  {
    if call.Raise? {
      CreateMoves(s, setup, call.sale, KindOf(setup, call.sale, call.given, call.shipTo), call.requested);
    } else if call.Add? {
      AddMoves(s, setup, call.order, call.request);
    } else if call.Edit? {
      EditMoves(s, setup, call.order, call.line, call.quantity);
    } else if call.Drop? {
      DropMoves(s, setup, call.order, call.line);
    } else if call.RequeueOrder? {
      RequeueMoves(s, setup, call.order);
    } else if call.CancelOrder? {
      CancelMoves(s, setup, call.order, call.reason);
    } else if call.HandOver? {
      PickupMovesLines(s, setup, call.order, call.proof);
    } else if call.PlanTrip? || call.PlanStop? {
      PlanMoves(s, setup, call);
    } else {
      StatusCallMoves(s, setup, call);
    }
  }

  // ----- what stays the same

  lemma TravelSame(s: State, t: State, setup: Setup)
    requires TablesOk(s, setup) && SameTravel(s, t)
    ensures Pending(t) == Pending(s)
    ensures forall e, w, p :: e in s.entries ==> OnRoad(t, setup, e, w, p) == OnRoad(s, setup, e, w, p)
  {
    forall e | e in s.entries
      ensures e in Pending(t) <==> e in Pending(s)
      ensures forall w, p :: OnRoad(t, setup, e, w, p) == OnRoad(s, setup, e, w, p)
    {
      assert EntryOk(s, setup, e);
    }
  }

  lemma HeldSame(s: State, t: State, setup: Setup, l: int)
    requires TablesOk(s, setup) && SameTravel(s, t)
    ensures Held(t, l) == Held(s, l)
  {
    TravelSame(s, t, setup);
  }

  // ----- a split

  /** A split adds orders in preparation and untouched lines of theirs, and changes nothing else. */
  ghost predicate SplitOnly(m: State, t: State) {
    && SameTravel(m, t) && t.ledger == m.ledger
    && (forall o :: o in m.orders ==> o in t.orders && t.orders[o] == m.orders[o])
    && (forall l :: l in m.lines ==> l in t.lines && t.lines[l] == m.lines[l])
    && (forall l :: l in t.lines && l !in m.lines ==> NewLineOn(t.lines[l]) && NoEntryOn(m, l) && InPreparationOn(t, l))
  }

  predicate InPreparationOn(t: State, l: int)
    requires l in t.lines
  {
    t.lines[l].order in t.orders && t.orders[t.lines[l].order].status == InPreparation
  }

  ghost predicate ChildOrder(children: map<int, int>, order: int) {
    exists o :: o in children && children[o] == order
  }

  lemma {:induction false} RemaindersAre(m: State, setup: Setup, children: map<int, int>, carried: seq<int>)
    requires TablesOk(m, setup) && Carriable(m, children, carried)
    ensures var lines := AddRemainders(m, children, carried);
            forall l :: l in lines && l !in m.lines ==> NewLineOn(lines[l]) && ChildOrder(children, lines[l].order)
  {
    if carried != [] {
      var e := carried[|carried| - 1];
      assert e in carried;
      RemaindersAre(m, setup, children, carried[..|carried| - 1]);
      assert EntryOk(m, setup, e);
    }
  }

  lemma LinesKeptTravel(m: State, t: State)
    requires t == m.(orders := t.orders, lines := t.lines)
    requires forall l :: l in m.lines ==> l in t.lines && t.lines[l] == m.lines[l]
    ensures SameTravel(m, t)
  {
  }

  lemma ChildInPreparation(m: State, t: State, ids: map<int, int>, l: int)
    requires l in t.lines && ChildOrder(ids, t.lines[l].order) && Bears(m.orders, t.orders, ids)
    ensures InPreparationOn(t, l)
  {
    var o :| o in ids && ids[o] == t.lines[l].order;
  }

  lemma SplitsOnly(m: State, t: State, setup: Setup, carried: set<int>, ids: map<int, int>)
    requires TablesOk(m, setup) && Splits(m, t, carried, ids)
    ensures SplitOnly(m, t)
  {
    SplitsOf(m, t, carried, ids);
    RemaindersAdd(m, ids, Ascending(carried));
    RemaindersAre(m, setup, ids, Ascending(carried));
    LinesKeptTravel(m, t);
    forall l | l in t.lines && l !in m.lines ensures NoEntryOn(m, l) && InPreparationOn(t, l) {
      NoneOnNew(m, setup, l);
      ChildInPreparation(m, t, ids, l);
    }
  }
}
