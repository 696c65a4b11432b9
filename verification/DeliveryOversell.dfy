/** After a careless call, some course of ordinary calls delivers more of a line than the sale counts as
    covered by it, and of the sales line more than was sold where its other orders are done. */
module DeliveryOversell {
  import opened Outcomes
  import opened Tables
  import opened DeliveryEvents
  import opened Delivery
  import opened DeliveryInvariant
  import opened DeliveryKeeps
  import opened DeliveryTravel
  import opened DeliverySettle
  import opened DeliveryClose
  import opened DeliveryCalls
  import opened DeliveryMoves
  import opened DeliveryClaims
  import opened DeliveryGuard
  import opened DeliveryRunaway
  import opened DeliveryFinal

  /** What the sale counts as covered by the line. */
  function Covers(s: State, l: int): int
    requires l in s.lines
  {
    if Live(s, l) then s.lines[l].quantity else 0
  }

  predicate BeyondCover(s: State, l: int) {
    l in s.lines && s.lines[l].delivered > Covers(s, l)
  }

  /** The call undercuts the line, or offsets what is accepted of it. */
  ghost predicate CarelessOn(s: State, call: Call, l: int) {
    || (Undercuts(s, call) && (call.Adjust? || call.Unload?) && s.entries[call.entry].line == l)
    || OffsetBy(s, call, l)
  }

  lemma CarelessOnSome(s: State, call: Call)
    ensures Careless(s, call) <==> exists l :: CarelessOn(s, call, l)
  {
    if Undercuts(s, call) {
      assert CarelessOn(s, call, s.entries[call.entry].line);
    } else if l :| OffsetBy(s, call, l) {
      assert CarelessOn(s, call, l);
    }
  }

  /** No line is added for the sales line. */
  ghost predicate NoneAdded(s: State, t: State, salesLine: Option<int>) {
    forall k :: k in t.lines && t.lines[k].salesLine == salesLine ==> k in s.lines && s.lines[k].salesLine == salesLine
  }

  // ----- after a claim lowered past its time

  lemma LoweredIsLoose(s: State, setup: Setup, call: Call) returns (l: int)
    requires Inv(s, setup) && Bounded(call) && Answer(s, setup, call).Ok? && Undercuts(s, call)
    requires s.lines[s.entries[call.entry].line].delivered <= s.lines[s.entries[call.entry].line].quantity
    ensures var t := After(s, setup, call);
            && l == s.entries[call.entry].line
            && Loose(t, setup, l) && Travelled(t.orders[t.lines[l].order].status) && Mobile(t, t.lines[l].order)
  {
    var e, t := call.entry, After(s, setup, call);
    l := s.entries[e].line;
    assert EntryOk(s, setup, e) && StopOk(s, s.entries[e].stop);
    if call.Adjust? {
      AdjustClaims(s, setup, call.trip, e, call.quantity);
      HeldAfter(s, t, e, t.entries[e], l);
      ClaimComesBack(s, t, setup, e, t.entries[e], s.lines[l].order);
    } else {
      ReleaseFrees(s, setup, call.trip, e);
      GivenBackIsLoose(s, t, setup, e);
    }
  }

  lemma GivenBackIsLoose(s: State, t: State, setup: Setup, e: int)
    requires TablesOk(s, setup) && Frees(s, t, {e}) && Lowers(s, e, 0)
    ensures var l := s.entries[e].line;
            && l in t.lines && t.lines[l].order == s.lines[l].order && t.lines[l].warehouse == s.lines[l].warehouse
            && t.lines[l].committed < Held(t, l) && Mobile(t, t.lines[l].order)
  {
    var l := s.entries[e].line;
    assert {e} - Pending(s) == {e};
    FreeSlack(s, t, setup, {e}, l);
    OnlyClaim(s, e, l);
    FreeComesBack(s, t, setup, {e}, s.lines[l].order);
  }

  lemma ClaimCallDemand(s: State, setup: Setup, call: Call)
    requires TablesOk(s, setup) && Bounded(call) && Answer(s, setup, call).Ok? && (call.Adjust? || call.Unload?)
    ensures SameDemand(s, After(s, setup, call))
  {
    if call.Adjust? {
      AdjustClaims(s, setup, call.trip, call.entry, call.quantity);
    } else {
      ReleaseFrees(s, setup, call.trip, call.entry);
    }
  }

  lemma UndercutRunsAway(s: State, setup: Setup, call: Call) returns (more: seq<Call>, u: State)
    requires SetupOk(setup) && Inv(s, setup) && AllGuarded(s) && Bounded(call) && Answer(s, setup, call).Ok? && Undercuts(s, call)
    ensures Leads(After(s, setup, call), setup, more, u) && SameDemand(s, u)
    ensures BeyondCover(u, s.entries[call.entry].line)
  {
    var t := After(s, setup, call);
    CallKeeps(s, setup, call);
    ClaimCallDemand(s, setup, call);
    assert Guarded(s, s.entries[call.entry].line) && LineOk(s, setup, s.entries[call.entry].line);
    var l := LoweredIsLoose(s, setup, call);
    more, u := LooseRunsAway(t, setup, l);
    LineStaysOk(t, setup, more, l);
  }

  lemma LineStaysOk(t: State, setup: Setup, more: seq<Call>, l: int)
    requires SetupOk(setup) && Inv(t, setup) && Careful(t, setup, more) && l in Run(t, setup, more).lines
    ensures var u := Run(t, setup, more); u.lines[l].order in u.orders && LineOk(u, setup, l)
  {
    CarefulIsBounded(t, setup, more);
    RunKeeps(t, setup, more);
  }

  // ----- after an offset

  /** What a split adds is of sales lines that something came back of. */
  ghost predicate Returning(m: State, carried: set<int>, salesLine: Option<int>) {
    exists e :: e in carried && e in m.entries && m.entries[e].line in m.lines && m.lines[m.entries[e].line].salesLine == salesLine
  }

  lemma {:induction false} RemaindersReturn(m: State, children: map<int, int>, keys: seq<int>, carried: set<int>)
    requires Carriable(m, children, keys) && forall e :: e in keys ==> e in carried
    ensures var lines := AddRemainders(m, children, keys);
            forall l :: l in lines && l !in m.lines ==> Returning(m, carried, lines[l].salesLine)
  {
    if keys != [] {
      var e := keys[|keys| - 1];
      assert e in keys;
      RemaindersReturn(m, children, keys[..|keys| - 1], carried);
      assert Returning(m, carried, ChildLine(m, children, e).salesLine);
    }
  }

  lemma SplitAddsNone(s: State, m: State, t: State, some: set<int>, carried: set<int>, ids: map<int, int>, l: int)
    requires OnKnownLines(s, some) && EntriesSettle(s, m, some) && LinesSettle(s, m, some)
    requires OrdersSettle(s, m, OrdersOf(s, some), some)
    requires carried == Remainder(s, m.entries, some) && Splits(m, t, carried, ids)
    requires OffsetAt(s, m.entries, some, l) && OthersDone(s, l)
    ensures NoneAdded(s, t, s.lines[l].salesLine)
  {
    SplitsOf(m, t, carried, ids);
    RemaindersReturn(m, ids, Ascending(carried), carried);
    RemaindersAdd(m, ids, Ascending(carried));
    forall k | k in t.lines && t.lines[k].salesLine == s.lines[l].salesLine
      ensures k in s.lines && s.lines[k].salesLine == s.lines[l].salesLine
    {
      if k !in m.lines {
        NothingReturning(s, m, some, carried, l);
        assert false;
      }
    }
  }

  /** With its order failed and its other lines' orders done, nothing of the sales line is carried over. */
  lemma NothingReturning(s: State, m: State, some: set<int>, carried: set<int>, l: int)
    requires OnKnownLines(s, some) && EntriesSettle(s, m, some) && LinesSettle(s, m, some)
    requires OrdersSettle(s, m, OrdersOf(s, some), some) && carried == Remainder(s, m.entries, some)
    requires OffsetAt(s, m.entries, some, l) && OthersDone(s, l)
    ensures !Returning(m, carried, s.lines[l].salesLine)
  {
    forall e | e in carried && e in m.entries && m.entries[e].line in m.lines
      ensures m.lines[m.entries[e].line].salesLine != s.lines[l].salesLine
    {
      assert EntrySettles(s.entries[e], m.entries[e]);
      NotReturned(s, m, some, e, l);
    }
  }

  lemma NotReturned(s: State, m: State, some: set<int>, e: int, l: int)
    requires OnKnownLines(s, some) && OrdersSettle(s, m, OrdersOf(s, some), some) && e in Remainder(s, m.entries, some)
    requires OffsetAt(s, m.entries, some, l) && OthersDone(s, l)
    ensures s.lines[s.entries[e].line].salesLine != s.lines[l].salesLine
  {
    assert s.lines[s.entries[e].line].order in OrdersOf(s, some);
  }

  /** Every other line of the same sales line is of a finished order, and delivered just what it covers. */
  ghost predicate OthersDone(s: State, l: int) {
    && l in s.lines
    && forall k :: k in s.lines && k != l && s.lines[k].salesLine == s.lines[l].salesLine ==>
         Finished(s, k) && s.lines[k].delivered == Covers(s, k)
  }

  lemma OffsetClosed(s: State, m: State, t: State, some: set<int>, l: int)
    requires OnKnownLines(s, some) && LinesSettle(s, m, some) && OrdersSettle(s, m, OrdersOf(s, some), some)
    requires OffsetAt(s, m.entries, some, l) && s.lines[l].order in OrdersOf(s, some) && s.lines[l].delivered == 0
    requires SplitOnly(m, t)
    ensures HasStatus(t, l, Failed) && t.lines[l].order == s.lines[l].order
    ensures t.lines[l].delivered == OnLine(m.entries, some, l, Accepted) > 0 && t.lines[l].salesLine == s.lines[l].salesLine
  {
  }

  /** A stop closed with an offset fails the order with something delivered of one of its lines. */
  lemma OffsetFailsDelivered(s: State, setup: Setup, call: Call, l: int)
    requires Inv(s, setup) && AllGuarded(s) && Answer(s, setup, call).Ok? && OffsetBy(s, call, l)
    ensures var t := After(s, setup, call);
            && HasStatus(t, l, Failed) && t.lines[l].order == s.lines[l].order && t.lines[l].salesLine == s.lines[l].salesLine
            && t.lines[l].delivered == OnLine(SettledEntries(s.entries, call.accepted), call.accepted.Keys, l, Accepted) > 0
            && (OthersDone(s, l) ==> NoneAdded(s, t, s.lines[l].salesLine))
  {
    var t, some := After(s, setup, call), call.accepted.Keys;
    var m, carried, ids := Closing(s, setup, call.trip, call.stop, call.accepted, call.proof);
    SettleKeeps(s, m, setup, call.trip, call.stop, some);
    SplitsOnly(m, t, setup, carried, ids);
    OffsetFails(s, m, some, l);
    FreshOnRoad(s, setup, l);
    OffsetClosed(s, m, t, some, l);
    if OthersDone(s, l) {
      SplitAddsNone(s, m, t, some, carried, ids, l);
    }
  }

  lemma CancelIs(s: State, setup: Setup, l: int)
    requires HasStatus(s, l, Failed)
    ensures var o := s.lines[l].order;
            && Answer(s, setup, CancelOrder(o, true)).Ok?
            && var t := After(s, setup, CancelOrder(o, true));
               HasStatus(t, l, Cancelled) && SameDemand(s, t) && forall k :: k in s.lines ==> t.lines[k].delivered == s.lines[k].delivered
  {
  }

  /** The failed order is cancelled: the sale no longer counts it, and what was accepted stays delivered. */
  lemma OffsetRunsAway(s: State, setup: Setup, call: Call, l: int) returns (more: seq<Call>, u: State)
    requires SetupOk(setup) && Inv(s, setup) && AllGuarded(s) && Bounded(call) && Answer(s, setup, call).Ok?
    requires OffsetBy(s, call, l)
    ensures Leads(After(s, setup, call), setup, more, u) && BeyondCover(u, l) && u.lines[l].salesLine == s.lines[l].salesLine
    ensures HasStatus(u, l, Cancelled) && u.lines[l].delivered == OnLine(SettledEntries(s.entries, call.accepted), call.accepted.Keys, l, Accepted)
    ensures OthersDone(s, l) ==> NoneAdded(s, u, s.lines[l].salesLine)
  {
    var t := After(s, setup, call);
    CallKeeps(s, setup, call);
    OffsetFailsDelivered(s, setup, call, l);
    var cancel := CancelOrder(t.lines[l].order, true);
    CancelIs(t, setup, l);
    more, u := [cancel], After(t, setup, cancel);
    OneCall(t, setup, cancel);
  }

  /** After a careless call, some careful course delivers more of the line than the sale counts for it. */
  lemma CarelessRunsAway(s: State, setup: Setup, call: Call, l: int) returns (more: seq<Call>, u: State)
    requires SetupOk(setup) && Inv(s, setup) && AllGuarded(s) && Bounded(call) && Answer(s, setup, call).Ok?
    requires CarelessOn(s, call, l)
    ensures Leads(After(s, setup, call), setup, more, u) && l in s.lines
    ensures BeyondCover(u, l) && u.lines[l].salesLine == s.lines[l].salesLine
    ensures OthersDone(s, l) ==> NoneAdded(s, u, s.lines[l].salesLine)
  {
    if Undercuts(s, call) {
      more, u := UndercutRunsAway(s, setup, call);
    } else {
      more, u := OffsetRunsAway(s, setup, call, l);
    }
  }

  // ----- the rest of the sale, over the counter

  /** New orders can be raised for the sales line. */
  predicate Sellable(setup: Setup, x: int) {
    && x in setup.salesLines && setup.salesLines[x].sale in setup.sales
    && SaleRefusal(setup, setup.sales[setup.salesLines[x].sale]) == None
    && setup.sales[setup.salesLines[x].sale].facility in setup.fallback
  }

  /** A new pickup order with one new line, for a quantity of the sales line, beside the tables as they were. */
  ghost predicate AtCounter(s: State, t: State, o: int, n: int, x: int, quantity: int, status: Status) {
    && o !in s.orders && o in t.orders && t.orders[o].status == status && t.orders[o].fulfillment == Pickup
    && n !in s.lines && n in t.lines && t.lines == s.lines[n := t.lines[n]]
    && t.lines[n].order == o && t.lines[n].salesLine == Some(x) && t.lines[n].quantity == quantity && t.lines[n].delivered == 0
  }

  lemma NarrowOne(uncovered: map<int, int>, r: Request)
    requires r.salesLine in uncovered && r.quantity <= uncovered[r.salesLine]
    ensures NarrowTo(uncovered, [r]) == Ok([r])
  {
    var requested := [r];
    assert requested[..0] == [] && NarrowTo(uncovered, requested[..0]) == Ok([]);
    assert [] + [r] == requested;
  }

  lemma AddOne(s: State, setup: Setup, o: int, facility: int, r: Request)
    requires facility in setup.fallback && r.salesLine in setup.salesLines
    ensures KnownLines(setup, [r])
    ensures AddLines(s, setup, o, facility, [r]) == s.(lines := s.lines[NextId(s.lines) := NewLine(setup, o, facility, r)])
  {
    assert [r][..0] == [];
  }

  lemma CreateIs(s: State, setup: Setup, sale: int, kind: Fulfillment, requested: Option<seq<Request>>, chosen: seq<Request>, order: Order)
    requires kind != Mixed && sale in setup.sales && SaleRefusal(setup, setup.sales[sale]) == None
    requires Deliverable(s, setup, sale) != map[] && Chosen(Deliverable(s, setup, sale), requested) == Ok(chosen)
    requires setup.sales[sale].facility in setup.fallback && KnownLines(setup, chosen)
    requires order == Created(Order(setup.sales[sale].customer, setup.sales[sale].facility, None, Draft, kind, None, []))
    ensures var id := NextId(s.orders);
            Create(s, setup, sale, kind, requested)
            == Ok(AddLines(s.(orders := s.orders[id := order]), setup, id, setup.sales[sale].facility, chosen))
  {
  }

  lemma RaiseRest(s: State, setup: Setup, x: int, rest: int) returns (call: Call, o: int, n: int)
    requires Sellable(setup, x) && rest == setup.salesLines[x].quantity - Covered(s, x) > 0
    ensures call.Raise? && Bounded(call) && Answer(s, setup, call).Ok?
    ensures AtCounter(s, After(s, setup, call), o, n, x, rest, Draft)
  {
    var sale, r := setup.salesLines[x].sale, Request(x, rest);
    var uncovered := Deliverable(s, setup, sale);
    assert x in uncovered && uncovered[x] == rest;
    NarrowOne(uncovered, r);
    call, o, n := Raise(sale, Some(Pickup), None, Some([r])), NextId(s.orders), NextId(s.lines);
    var order := Created(Order(setup.sales[sale].customer, setup.sales[sale].facility, None, Draft, Pickup, None, []));
    AddOne(s.(orders := s.orders[o := order]), setup, o, setup.sales[sale].facility, r);
    CreateIs(s, setup, sale, Pickup, Some([r]), [r], order);
  }

  /** One status move of the new order. */
  lemma CounterMoves(s: State, t: State, o: int, n: int, x: int, quantity: int, status: Status, to: Status)
    requires AtCounter(s, t, o, n, x, quantity, status) && Moved(t, o, to, false).Ok?
    ensures AtCounter(s, Moved(t, o, to, false).value, o, n, x, quantity, to)
  {
  }

  lemma ToTheCounter(s: State, t: State, setup: Setup, o: int, n: int, x: int, quantity: int)
    returns (calls: seq<Call>, u: State)
    requires Inv(t, setup) && SetupOk(setup) && AtCounter(s, t, o, n, x, quantity, Draft)
    ensures Leads(t, setup, calls, u) && Inv(u, setup) && AtCounter(s, u, o, n, x, quantity, Approved)
  {
    u := ConfirmOne(s, t, setup, o, n, x, quantity);
    calls := [ConfirmOrder(o, false)];
    if setup.approvalRequired {
      var a := u;
      u := ApproveOne(s, a, setup, o, n, x, quantity);
      LeadsOn(t, setup, calls, a, [ApproveOrder(o)], u);
      calls := calls + [ApproveOrder(o)];
    }
  }

  lemma CounterStep(s: State, t: State, v: State, setup: Setup, call: Call, o: int, n: int, x: int, quantity: int, status: Status, to: Status)
    returns (u: State)
    requires Inv(t, setup) && SetupOk(setup) && AtCounter(s, v, o, n, x, quantity, status)
    requires call.ConfirmOrder? || call.ApproveOrder? || call.ReadyOrder?
    requires Moved(v, o, to, false).Ok? && Answer(t, setup, call) == Moved(v, o, to, false)
    ensures Leads(t, setup, [call], u) && Inv(u, setup) && AtCounter(s, u, o, n, x, quantity, to)
  {
    u := After(t, setup, call);
    OneCall(t, setup, call);
    CounterMoves(s, v, o, n, x, quantity, status, to);
  }

  lemma PickupMovesOn(t: State, o: int, to: Status)
    requires o in t.orders && t.orders[o].fulfillment == Pickup
    requires var from := t.orders[o].status;
             || (from == Draft && (to == PendingApproval || to == Approved)) || (from == PendingApproval && to == Approved)
             || (from == Approved && to == ReadyForPickup) || (from == ReadyForPickup && to == PickedUp)
    ensures Moved(t, o, to, false).Ok?
  {
  }

  lemma ConfirmIs(t: State, setup: Setup, o: int, to: Status)
    requires o in t.orders && t.orders[o].status == Draft && t.orders[o].fulfillment == Pickup && LinesOf(t, o) != {}
    requires to == if setup.approvalRequired then PendingApproval else Approved
    ensures Confirm(t, setup, o, false) == Moved(WithFolio(t, o), o, to, false)
  {
  }

  lemma ConfirmOne(s: State, t: State, setup: Setup, o: int, n: int, x: int, quantity: int) returns (u: State)
    requires Inv(t, setup) && SetupOk(setup) && AtCounter(s, t, o, n, x, quantity, Draft)
    ensures Leads(t, setup, [ConfirmOrder(o, false)], u) && Inv(u, setup)
    ensures AtCounter(s, u, o, n, x, quantity, if setup.approvalRequired then PendingApproval else Approved)
  {
    assert n in LinesOf(t, o);
    var to := if setup.approvalRequired then PendingApproval else Approved;
    var v := WithFolio(t, o);
    ConfirmIs(t, setup, o, to);
    PickupMovesOn(v, o, to);
    u := CounterStep(s, t, v, setup, ConfirmOrder(o, false), o, n, x, quantity, Draft, to);
  }

  lemma ApproveOne(s: State, t: State, setup: Setup, o: int, n: int, x: int, quantity: int) returns (u: State)
    requires Inv(t, setup) && SetupOk(setup) && AtCounter(s, t, o, n, x, quantity, PendingApproval)
    ensures Leads(t, setup, [ApproveOrder(o)], u) && Inv(u, setup) && AtCounter(s, u, o, n, x, quantity, Approved)
  {
    PickupMovesOn(t, o, Approved);
    u := CounterStep(s, t, t, setup, ApproveOrder(o), o, n, x, quantity, PendingApproval, Approved);
  }

  lemma ReadyOne(s: State, t: State, setup: Setup, o: int, n: int, x: int, quantity: int) returns (u: State)
    requires Inv(t, setup) && SetupOk(setup) && AtCounter(s, t, o, n, x, quantity, Approved)
    ensures Leads(t, setup, [ReadyOrder(o)], u) && Inv(u, setup) && AtCounter(s, u, o, n, x, quantity, ReadyForPickup)
  {
    PickupMovesOn(t, o, ReadyForPickup);
    u := CounterStep(s, t, t, setup, ReadyOrder(o), o, n, x, quantity, Approved, ReadyForPickup);
  }

  lemma CollectOne(s: State, t: State, setup: Setup, o: int, n: int, x: int, quantity: int) returns (u: State)
    requires TablesOk(s, setup) && Inv(t, setup) && SetupOk(setup) && AtCounter(s, t, o, n, x, quantity, ReadyForPickup)
    ensures Leads(t, setup, [HandOver(o, true)], u)
    ensures DeliveredOf(u, x) == DeliveredOf(s, x) + quantity
  {
    PickupMovesOn(t, o, PickedUp);
    u := After(t, setup, HandOver(o, true));
    OneCall(t, setup, HandOver(o, true));
    CollectedOne(s, t, u, setup, o, n, x, quantity);
  }

  lemma CollectedOne(s: State, t: State, u: State, setup: Setup, o: int, n: int, x: int, quantity: int)
    requires TablesOk(s, setup) && AtCounter(s, t, o, n, x, quantity, ReadyForPickup) && u.lines == Collected(t.lines, o)
    ensures DeliveredOf(u, x) == DeliveredOf(s, x) + quantity
  {
    var a, b := DeliveredColumn(s, x), DeliveredColumn(u, x);
    forall l | l in s.lines ensures u.lines[l] == s.lines[l] {
      assert s.lines[l].order != o;
    }
    TotalBut(a, b, n);
  }

  /** Set out and handed over. */
  lemma HandOverRest(s: State, t: State, setup: Setup, o: int, n: int, x: int, quantity: int)
    returns (calls: seq<Call>, u: State)
    requires TablesOk(s, setup) && Inv(t, setup) && SetupOk(setup) && AtCounter(s, t, o, n, x, quantity, Approved)
    ensures Leads(t, setup, calls, u) && DeliveredOf(u, x) == DeliveredOf(s, x) + quantity
  {
    var c := ReadyOne(s, t, setup, o, n, x, quantity);
    u := CollectOne(s, c, setup, o, n, x, quantity);
    LeadsOn(t, setup, [ReadyOrder(o)], c, [HandOver(o, true)], u);
    calls := [ReadyOrder(o)] + [HandOver(o, true)];
  }

  /** What is left of the sales line, by its orders' own figures, can be raised and handed over. */
  lemma SellRest(s: State, setup: Setup, x: int) returns (calls: seq<Call>, u: State)
    requires Inv(s, setup) && SetupOk(setup) && Sellable(setup, x)
    ensures Leads(s, setup, calls, u)
    ensures var rest := setup.salesLines[x].quantity - Covered(s, x);
            DeliveredOf(u, x) == DeliveredOf(s, x) + if rest > 0 then rest else 0
  {
    var rest := setup.salesLines[x].quantity - Covered(s, x);
    calls, u := [], s;
    if rest > 0 {
      var raise, o, n := RaiseRest(s, setup, x, rest);
      var a := After(s, setup, raise);
      OneCall(s, setup, raise);
      var first, last, b;
      first, b := ToTheCounter(s, a, setup, o, n, x, rest);
      last, u := HandOverRest(s, b, setup, o, n, x, rest);
      LeadsOn(a, setup, first, b, last, u);
      LeadsOn(s, setup, [raise], a, first + last, u);
      calls := [raise] + (first + last);
    }
  }

  // ----- more of a sales line than was sold

  ghost predicate OnlyExcess(u: State, x: int, l: int) {
    && BeyondCover(u, l) && u.lines[l].salesLine == Some(x)
    && forall k :: k in u.lines && u.lines[k].salesLine == Some(x) ==> u.lines[k].delivered >= Covers(u, k)
  }

  lemma ExcessBeyondCover(u: State, x: int, l: int)
    requires OnlyExcess(u, x, l)
    ensures DeliveredOf(u, x) > Covered(u, x)
  {
    var delivered, covering := DeliveredColumn(u, x), Covering(u, x);
    var covers := map k | k in u.lines :: if u.lines[k].salesLine == Some(x) then Covers(u, k) else 0;
    TotalAlike(covering, covers);
    TotalWithout(delivered, l);
    TotalWithout(covers, l);
    TotalMonotone(covers - {l}, delivered - {l});
  }

  lemma OthersStayDone(s: State, setup: Setup, calls: seq<Call>, l: int, k: int)
    requires Inv(s, setup) && SetupOk(setup) && AllBounded(calls) && OthersDone(s, l)
    requires k in s.lines && k != l && s.lines[k].salesLine == s.lines[l].salesLine
    ensures var u := Run(s, setup, calls); k in u.lines && u.lines[k].delivered == Covers(u, k)
  {
    FinishedStays(s, setup, calls, k);
  }

  lemma OnlyExcessAfter(s: State, setup: Setup, calls: seq<Call>, u: State, x: int, l: int)
    requires Inv(s, setup) && SetupOk(setup) && AllBounded(calls) && OthersDone(s, l) && u == Run(s, setup, calls)
    requires BeyondCover(u, l) && s.lines[l].salesLine == u.lines[l].salesLine == Some(x) && NoneAdded(s, u, Some(x))
    ensures OnlyExcess(u, x, l)
  {
    forall k | k in u.lines && u.lines[k].salesLine == Some(x) ensures u.lines[k].delivered >= Covers(u, k) {
      if k != l {
        OthersStayDone(s, setup, calls, l, k);
      }
    }
  }

  /** Where the sales line's other orders are done, a careless call about a line of it lets later calls, none
      of them careless, deliver more of it than was sold. */
  lemma MoreThanSold(s: State, setup: Setup, call: Call, x: int, l: int) returns (more: seq<Call>, u: State)
    requires SetupOk(setup) && Inv(s, setup) && AllGuarded(s) && Bounded(call) && Answer(s, setup, call).Ok?
    requires OthersDone(s, l) && s.lines[l].salesLine == Some(x) && Sellable(setup, x) && CarelessOn(s, call, l)
    ensures Leads(After(s, setup, call), setup, more, u) && DeliveredOf(u, x) > setup.salesLines[x].quantity
  {
    var t := After(s, setup, call);
    var first, v := CarelessRunsAway(s, setup, call, l);
    CallKeeps(s, setup, call);
    CarefulIsBounded(t, setup, first);
    RunKeeps(t, setup, first);
    OneAndMore(s, setup, call, first);
    OnlyExcessAfter(s, setup, [call] + first, v, x, l);
    ExcessBeyondCover(v, x, l);
    var last;
    last, u := SellRest(v, setup, x);
    LeadsOn(t, setup, first, v, last, u);
    more := first + last;
  }

  lemma OneAndMore(s: State, setup: Setup, call: Call, more: seq<Call>)
    requires Bounded(call) && AllBounded(more)
    ensures Run(s, setup, [call] + more) == Run(After(s, setup, call), setup, more) && AllBounded([call] + more)
  {
    RunOn(s, setup, [call], more);
    assert [call][..0] == [];
  }
}
