/** Once a line that can still go on the road has less committed than its pending claims, some course of
    ordinary calls delivers more of it than was ordered: the order is brought back to the loading queue if
    it has to be, every pending claim is given back, and all that then looks open is loaded and accepted. */
module DeliveryRunaway {
  import opened Outcomes
  import opened Tables
  import opened DeliveryEvents
  import opened Delivery
  import opened DeliveryInvariant
  import opened DeliveryKeeps
  import opened DeliveryTravel
  import opened DeliveryDepart
  import opened DeliverySettle
  import opened DeliveryClose
  import opened DeliveryCalls
  import opened DeliveryMoves
  import opened DeliveryClaims
  import opened DeliveryGuard

  /** Within the schemas' bounds, and no call careless. */
  ghost predicate Careful(s: State, setup: Setup, calls: seq<Call>) {
    calls != [] ==>
      && Careful(s, setup, calls[..|calls| - 1])
      && Bounded(calls[|calls| - 1]) && !Careless(Run(s, setup, calls[..|calls| - 1]), calls[|calls| - 1])
  }

  lemma {:induction false} CarefulOn(s: State, setup: Setup, calls: seq<Call>, more: seq<Call>)
    requires Careful(s, setup, calls) && Careful(Run(s, setup, calls), setup, more)
    ensures Careful(s, setup, calls + more)
  {
    if more == [] {
      assert calls + more == calls;
    } else {
      var rest := more[..|more| - 1];
      assert (calls + more)[..|calls + more| - 1] == calls + rest;
      CarefulOn(s, setup, calls, rest);
      RunOn(s, setup, calls, rest);
    }
  }

  lemma {:induction false} CarefulIsBounded(s: State, setup: Setup, calls: seq<Call>)
    requires Careful(s, setup, calls)
    ensures AllBounded(calls)
  {
    if calls != [] {
      CarefulIsBounded(s, setup, calls[..|calls| - 1]);
      assert calls == calls[..|calls| - 1] + [calls[|calls| - 1]];
    }
  }

  /** A careful course leads from one state to the other. */
  ghost predicate Leads(s: State, setup: Setup, calls: seq<Call>, t: State) {
    Careful(s, setup, calls) && t == Run(s, setup, calls)
  }

  lemma LeadsOn(s: State, setup: Setup, a: seq<Call>, t: State, b: seq<Call>, u: State)
    requires Leads(s, setup, a, t) && Leads(t, setup, b, u)
    ensures Leads(s, setup, a + b, u)
  {
    CarefulOn(s, setup, a, b);
    RunOn(s, setup, a, b);
  }

  lemma OneCall(s: State, setup: Setup, call: Call)
    requires Inv(s, setup) && SetupOk(setup) && Bounded(call) && !Careless(s, call)
    ensures Leads(s, setup, [call], After(s, setup, call)) && Inv(After(s, setup, call), setup)
  {
    assert [call][..0] == [];
    CallKeeps(s, setup, call);
  }

  // ----- giving back many claims

  lemma FreedTwice(s: State, u: State, e: int, some: set<int>, l: int)
    requires e in some && e in s.entries && u == Release(s, {e}) && l in s.lines
    ensures Freed(u.lines, u.entries, some - {e})[l] == Freed(s.lines, s.entries, some)[l]
  {
    OnLineSplit(s.entries, some, {e}, l, Claim);
    SameOnLine(s, u, e, some - {e}, l);
    assert u.lines[l] == s.lines[l].(committed := s.lines[l].committed - OnLine(s.entries, {e}, l, Claim));
  }

  lemma SameOnLine(s: State, u: State, e: int, rest: set<int>, l: int)
    requires u.entries == s.entries - {e} && e !in rest
    ensures OnLine(u.entries, rest, l, Claim) == OnLine(s.entries, rest, l, Claim)
  {
    OnLineSame(s.entries, u.entries, rest, rest, l, Claim);
  }

  lemma ReleasedTwice(s: State, u: State, e: int, some: set<int>)
    requires e in some && e in s.entries && u == Release(s, {e})
    ensures Release(u, some - {e}) == Release(s, some)
  {
    var a, b := Release(u, some - {e}), Release(s, some);
    assert a.entries == b.entries;
    forall l | l in s.lines ensures a.lines[l] == b.lines[l] {
      FreedTwice(s, u, e, some, l);
    }
    assert a.lines.Keys == b.lines.Keys;
    assert a.lines == b.lines;
  }

  lemma ReleaseNothing(s: State)
    ensures Release(s, {}) == s
  {
    forall l | l in s.lines ensures Freed(s.lines, s.entries, {})[l] == s.lines[l] {
      OnLineEmpty(s.entries, {}, l, Claim);
    }
    assert Release(s, {}).lines == s.lines && Release(s, {}).entries == s.entries;
  }

  /** Pending claims can all be given back, whatever trip is open. */
  lemma {:induction false} GiveAllBack(s: State, setup: Setup, trip: int, some: set<int>) returns (calls: seq<Call>)
    requires Inv(s, setup) && SetupOk(setup) && IsOpen(s, trip) && some <= Pending(s)
    ensures Leads(s, setup, calls, Release(s, some)) && Inv(Release(s, some), setup)
    decreases |some|
  {
    if some == {} {
      calls := [];
      ReleaseNothing(s);
    } else {
      var e := AnyOf(some);
      var u := Release(s, {e});
      OneCall(s, setup, Unload(trip, e));
      assert some - {e} <= Pending(u);
      var rest := GiveAllBack(u, setup, trip, some - {e});
      LeadsOn(s, setup, [Unload(trip, e)], u, rest, Release(u, some - {e}));
      ReleasedTwice(s, u, e, some);
      calls := [Unload(trip, e)] + rest;
    }
  }

  // ----- a loose line

  /** Less is committed of the line than is claimed of it, and its goods can leave. */
  ghost predicate Loose(s: State, setup: Setup, l: int) {
    && l in s.lines && s.lines[l].order in s.orders && s.lines[l].warehouse in setup.transit
    && s.lines[l].delivered <= s.lines[l].quantity && s.lines[l].committed < Held(s, l)
  }

  /** An open trip without stops. */
  ghost predicate Bare(s: State, trip: int) {
    IsOpen(s, trip) && forall p :: p in s.stops ==> s.stops[p].trip != trip
  }

  ghost predicate HasStatus(s: State, l: int, status: Status) {
    l in s.lines && s.lines[l].order in s.orders && s.orders[s.lines[l].order].status == status
  }

  /** The lines are the same orders' and the same sales', for as much. */
  ghost predicate SameDemand(s: State, t: State) {
    && t.lines.Keys == s.lines.Keys
    && forall l :: l in s.lines ==>
         && t.lines[l].order == s.lines[l].order && t.lines[l].salesLine == s.lines[l].salesLine
         && t.lines[l].quantity == s.lines[l].quantity
  }

  lemma StopOfKnownTrip(s: State, setup: Setup, p: int)
    requires TablesOk(s, setup) && p in s.stops
    ensures s.stops[p].trip in s.trips
  {
    assert StopOk(s, p);
  }

  lemma NewTripIsBare(s: State, setup: Setup)
    requires TablesOk(s, setup)
    ensures Bare(CreateTrip(s), NextId(s.trips))
  {
    var trip := NextId(s.trips);
    forall p | p in s.stops ensures s.stops[p].trip != trip {
      StopOfKnownTrip(s, setup, p);
    }
  }

  lemma StartTrip(s: State, setup: Setup, l: int)
    requires Inv(s, setup) && SetupOk(setup) && Loose(s, setup, l)
    ensures var t := CreateTrip(s);
            && Leads(s, setup, [PlanTrip], t) && Inv(t, setup) && Loose(t, setup, l) && Bare(t, NextId(s.trips))
            && forall o :: ComesBack(t, o) <==> ComesBack(s, o)
  {
    var t := CreateTrip(s);
    OneCall(s, setup, PlanTrip);
    NewTripIsBare(s, setup);
    PlansMove(s, t, setup);
    HeldSame(s, t, setup, l);
    forall o ensures ComesBack(t, o) <==> ComesBack(s, o) {
      ComesBackSame(s, t, setup, o);
    }
  }

  lemma FreeStaysLoose(s: State, t: State, setup: Setup, some: set<int>, l: int)
    requires Inv(s, setup) && Frees(s, t, some) && some <= Pending(s) && Loose(s, setup, l)
    ensures Loose(t, setup, l)
  {
    FreeSlack(s, t, setup, some, l);
    assert some - Pending(s) == {};
    OnLineEmpty(s.entries, {}, l, Claim);
  }

  lemma ReleasedFrees(s: State, setup: Setup, some: set<int>)
    requires TablesOk(s, setup) && some <= s.entries.Keys
    ensures Frees(s, Release(s, some), some)
  {
    var t := Release(s, some);
    forall p | p in t.stops ensures StopOk(t, p) {
      assert StopOk(s, p);
    }
  }

  // ----- a stop of one order

  ghost predicate OnlyOrder(s: State, p: int, o: int) {
    && (exists e :: e in EntriesOf(s, p))
    && forall e :: e in EntriesOf(s, p) ==> OfOrderOn(s, e, o)
  }

  lemma OneOrder(s: State, p: int, o: int)
    requires OnlyOrder(s, p, o)
    ensures OnKnownLines(s, EntriesOf(s, p)) && OrdersOf(s, EntriesOf(s, p)) == {o}
  {
    var e :| e in EntriesOf(s, p);
    assert OfOrderOn(s, e, o);
  }

  /** Everything stated, with a reason, and nothing beyond what was sent. */
  ghost predicate Stated(s: State, p: int, accepted: map<int, Acceptance>) {
    && accepted.Keys == EntriesOf(s, p) && WithinSent(s, accepted)
    && forall e :: e in accepted ==> accepted[e].reason
  }

  ghost predicate ComesOut(s: State, p: int, o: int, accepted: map<int, Acceptance>, to: Status) {
    && to in {Failed, Delivered}
    && Target(s, SettledEntries(s.entries, accepted), EntriesOf(s, p), o) == to
  }

  lemma WholeClosable(s: State, setup: Setup, p: int, o: int, accepted: map<int, Acceptance>, to: Status)
    requires Inv(s, setup) && OnTheWay(s, p) && OnlyOrder(s, p, o) && o in s.orders && s.orders[o].status == InTransit
    requires Stated(s, p, accepted) && ComesOut(s, p, o, accepted, to)
    ensures Closable(s, setup, s.stops[p].trip, p, accepted)
    ensures CloseRefusal(s, setup, s.stops[p].trip, p, accepted, true) == None
  {
    OneOrder(s, p, o);
    StopTransit(s, setup, p);
    OneSettles(s, p, o, accepted, to);
  }

  lemma OneSettles(s: State, p: int, o: int, accepted: map<int, Acceptance>, to: Status)
    requires OnlyOrder(s, p, o) && o in s.orders && s.orders[o].status == InTransit
    requires accepted.Keys == EntriesOf(s, p) && ComesOut(s, p, o, accepted, to)
    ensures OnKnownLines(s, accepted.Keys) && AllSettle(s, SettledEntries(s.entries, accepted), accepted.Keys)
  {
    OneOrder(s, p, o);
  }

  /** The goods of a stop come from warehouses with an in-transit location. */
  lemma StopTransit(s: State, setup: Setup, p: int)
    requires Inv(s, setup) && OnTheWay(s, p) && OnKnownLines(s, EntriesOf(s, p))
    ensures TransitKnown(s, setup, EntriesOf(s, p))
  {
    forall e | e in EntriesOf(s, p) ensures s.lines[s.entries[e].line].warehouse in setup.transit {
      assert EntryOk(s, setup, e);
    }
  }

  lemma NothingOnLineOffset(s: State, p: int, o: int, accepted: map<int, Acceptance>, to: Status, l: int)
    requires OnlyOrder(s, p, o) && accepted.Keys == EntriesOf(s, p) && ComesOut(s, p, o, accepted, to)
    requires to == Failed ==> forall e :: e in accepted ==> accepted[e].delivered == 0
    ensures !OffsetAt(s, SettledEntries(s.entries, accepted), accepted.Keys, l)
  {
    var entries := SettledEntries(s.entries, accepted);
    if e :| e in accepted && s.entries[e].line == l {
      assert OfOrderOn(s, e, o);
      var column := Column(entries, accepted.Keys, l, Accepted);
      if to == Failed {
        forall k | k in column ensures column[k] == 0 {
          assert column[k] == Amount(entries[k], Accepted);
        }
        TotalZero(column);
      }
    } else {
      OnLineEmpty(entries, accepted.Keys, l, Accepted);
    }
  }

  /** Taking or refusing everything offsets nothing. */
  lemma WholeOffsetsNothing(s: State, trip: int, p: int, o: int, accepted: map<int, Acceptance>, to: Status)
    requires OnlyOrder(s, p, o) && accepted.Keys == EntriesOf(s, p) && ComesOut(s, p, o, accepted, to)
    requires to == Failed ==> forall e :: e in accepted ==> accepted[e].delivered == 0
    ensures !Careless(s, Resolve(trip, p, accepted, true))
  {
    forall l ensures !OffsetBy(s, Resolve(trip, p, accepted, true), l) {
      NothingOnLineOffset(s, p, o, accepted, to, l);
    }
  }

  lemma NothingTaken(s: State, m: State, some: set<int>, l: int)
    requires forall e :: e in some && e in m.entries ==> m.entries[e].delivered == 0
    requires l in s.lines && LinesSettle(s, m, some)
    ensures m.lines[l].delivered == s.lines[l].delivered
  {
    var column := Column(m.entries, some, l, Accepted);
    forall e | e in column ensures column[e] == 0 {
      assert column[e] == Amount(m.entries[e], Accepted);
    }
    TotalZero(column);
  }

  lemma NothingCarried(s: State, p: int, o: int, accepted: map<int, Acceptance>, to: Status)
    requires OnlyOrder(s, p, o) && accepted.Keys == EntriesOf(s, p) && ComesOut(s, p, o, accepted, to)
    ensures OnKnownLines(s, accepted.Keys) && Carried(s, accepted) == {}
  {
    OneOrder(s, p, o);
    assert Partial(s, SettledEntries(s.entries, accepted), accepted.Keys) == {};
  }

  lemma SplitsNothing(m: State)
    ensures Split(m, {}, {}) == Ok(m)
  {
  }

  lemma SettledAlone(s: State, setup: Setup, p: int, o: int, accepted: map<int, Acceptance>, to: Status)
    requires p in s.stops && Closable(s, setup, s.stops[p].trip, p, accepted)
    requires CloseRefusal(s, setup, s.stops[p].trip, p, accepted, true) == None
    requires OnKnownLines(s, accepted.Keys) && Carried(s, accepted) == {}
    ensures CloseStop(s, setup, s.stops[p].trip, p, accepted, true) == Ok(Settled(s, setup, s.stops[p].trip, p, accepted))
  {
    assert OrdersOf(s, {}) == {};
    SplitsNothing(Settled(s, setup, s.stops[p].trip, p, accepted));
  }

  /** A stop with goods of one order only, all taken or all refused, closes and moves the order. */
  lemma WholeClose(s: State, setup: Setup, p: int, o: int, accepted: map<int, Acceptance>, to: Status) returns (m: State)
    requires Inv(s, setup) && OnTheWay(s, p) && OnlyOrder(s, p, o) && o in s.orders && s.orders[o].status == InTransit
    requires Stated(s, p, accepted) && ComesOut(s, p, o, accepted, to)
    ensures CloseStop(s, setup, s.stops[p].trip, p, accepted, true) == Ok(m)
    ensures Settles(s, m, setup, s.stops[p].trip, p, accepted.Keys) && m.entries == SettledEntries(s.entries, accepted)
    ensures o in m.orders && m.orders[o].status == to
  {
    WholeClosable(s, setup, p, o, accepted, to);
    NothingCarried(s, p, o, accepted, to);
    SettledAlone(s, setup, p, o, accepted, to);
    m := Settled(s, setup, s.stops[p].trip, p, accepted);
    SettledSettles(s, m, setup, s.stops[p].trip, p, accepted);
    OneOrder(s, p, o);
    SettledOrderAt(s, setup, m.entries, accepted.Keys, o);
  }

  // ----- back to the loading queue

  /** Everything at a stop refused. */
  function AllRefused(s: State, p: int): map<int, Acceptance> {
    map e | e in EntriesOf(s, p) :: Acceptance(0, true)
  }

  lemma SomethingSent(s: State, setup: Setup, p: int, o: int, entries: map<int, Entry>)
    requires TablesOk(s, setup) && OnTheWay(s, p) && OnlyOrder(s, p, o) && entries.Keys == s.entries.Keys
    requires forall e :: e in s.entries ==> entries[e].line == s.entries[e].line && entries[e].sent == s.entries[e].sent
    ensures OfOrder(s, entries, EntriesOf(s, p), o, Sent) > 0
  {
    var column := OrderColumn(s, entries, EntriesOf(s, p), o, Sent);
    forall e | e in column ensures column[e] > 0 {
      assert EntryOk(s, setup, e);
      assert column[e] == Amount(entries[e], Sent);
    }
    var e :| e in EntriesOf(s, p);
    assert OfOrderOn(s, e, o) && e in column;
    TotalWithout(column, e);
    TotalNonNegative(column - {e});
  }

  lemma RefusedTarget(s: State, setup: Setup, p: int, o: int)
    requires TablesOk(s, setup) && OnTheWay(s, p) && OnlyOrder(s, p, o)
    ensures ComesOut(s, p, o, AllRefused(s, p), Failed)
  {
    var entries := SettledEntries(s.entries, AllRefused(s, p));
    var column := OrderColumn(s, entries, EntriesOf(s, p), o, Accepted);
    forall e | e in column ensures column[e] == 0 {
      assert column[e] == Amount(entries[e], Accepted);
    }
    TotalZero(column);
    SomethingSent(s, setup, p, o, entries);
  }

  /** A stop whose goods all belong to one order on the road can be refused whole, and the order fails. */
  lemma RefuseAll(s: State, setup: Setup, p: int, o: int, l: int) returns (t: State)
    requires Inv(s, setup) && SetupOk(setup) && OnTheWay(s, p) && OnlyOrder(s, p, o)
    requires o in s.orders && s.orders[o].status == InTransit && Loose(s, setup, l) && s.lines[l].order == o
    ensures Leads(s, setup, [Resolve(s.stops[p].trip, p, AllRefused(s, p), true)], t) && Inv(t, setup)
    ensures Loose(t, setup, l) && HasStatus(t, l, Failed) && SameDemand(s, t)
    ensures forall trip :: Bare(s, trip) ==> Bare(t, trip)
  {
    var accepted, trip := AllRefused(s, p), s.stops[p].trip;
    forall e | e in accepted ensures s.entries[e].sent > 0 {
      assert EntryOk(s, setup, e);
    }
    RefusedTarget(s, setup, p, o);
    t := WholeClose(s, setup, p, o, accepted, Failed);
    WholeOffsetsNothing(s, trip, p, o, accepted, Failed);
    NothingTaken(s, t, accepted.Keys, l);
    OneCall(s, setup, Resolve(trip, p, accepted, true));
    SettledFigures(s, t, setup, trip, p, accepted.Keys, l);
    StillBare(s, t, p);
    assert t.lines[l].warehouse == s.lines[l].warehouse && t.lines[l].salesLine == s.lines[l].salesLine;
  }

  lemma StillBare(s: State, t: State, p: int)
    requires OnTheWay(s, p) && StopsSettle(s, t, p)
    ensures forall trip :: Bare(s, trip) ==> Bare(t, trip)
  {
    forall trip | Bare(s, trip) ensures Bare(t, trip) {
      assert trip != s.stops[p].trip;
    }
  }

  /** The entries at a stop that are not of an order. */
  function OthersAt(s: State, p: int, o: int): set<int> {
    set e | e in EntriesOf(s, p) && !OfOrderOn(s, e, o)
  }

  lemma ClearedStop(s: State, setup: Setup, p: int, o: int, e: int)
    requires TablesOk(s, setup) && OnTheWay(s, p) && e in EntriesOf(s, p) && OfOrderOn(s, e, o)
    ensures OthersAt(s, p, o) <= Pending(s)
    ensures var t := Release(s, OthersAt(s, p, o)); OnTheWay(t, p) && OnlyOrder(t, p, o)
  {
    var t := Release(s, OthersAt(s, p, o));
    assert e in EntriesOf(t, p);
    forall k | k in EntriesOf(t, p) ensures OfOrderOn(t, k, o) {
      assert k in EntriesOf(s, p) && OfOrderOn(s, k, o);
    }
  }

  lemma ClearedLoose(s: State, setup: Setup, trip: int, some: set<int>, l: int)
    requires Inv(s, setup) && Loose(s, setup, l) && Bare(s, trip) && some <= Pending(s)
    ensures var u := Release(s, some);
            && Loose(u, setup, l) && Bare(u, trip) && SameDemand(s, u) && u.orders == s.orders
  {
    ReleasedFrees(s, setup, some);
    FreeStaysLoose(s, Release(s, some), setup, some, l);
  }

  /** The order's goods on the road come back whole: whatever else is at their stop is given back first. */
  lemma BringBack(s: State, setup: Setup, trip: int, l: int) returns (calls: seq<Call>, t: State)
    requires Inv(s, setup) && SetupOk(setup) && Loose(s, setup, l) && Bare(s, trip)
    requires HasStatus(s, l, InTransit) && ComesBack(s, s.lines[l].order)
    ensures Leads(s, setup, calls, t) && Inv(t, setup) && Loose(t, setup, l) && Bare(t, trip) && HasStatus(t, l, Failed)
    ensures SameDemand(s, t)
  {
    var o := s.lines[l].order;
    var e :| e in s.entries && OnTheWay(s, s.entries[e].stop) && OfOrderOn(s, e, o);
    var p := s.entries[e].stop;
    var others := OthersAt(s, p, o);
    var u := Release(s, others);
    ClearedStop(s, setup, p, o, e);
    var first := GiveAllBack(s, setup, trip, others);
    ClearedLoose(s, setup, trip, others, l);
    t := RefuseAll(u, setup, p, o, l);
    var last := [Resolve(u.stops[p].trip, p, AllRefused(u, p), true)];
    LeadsOn(s, setup, first, u, last, t);
    calls := first + last;
  }

  lemma RequeueLoose(s: State, setup: Setup, trip: int, l: int) returns (calls: seq<Call>, t: State)
    requires Inv(s, setup) && SetupOk(setup) && Loose(s, setup, l) && Bare(s, trip) && HasStatus(s, l, Failed)
    ensures Leads(s, setup, calls, t) && Inv(t, setup) && Loose(t, setup, l) && Bare(t, trip) && HasStatus(t, l, InPreparation)
    ensures SameDemand(s, t)
  {
    var o := s.lines[l].order;
    t := After(s, setup, RequeueOrder(o));
    calls := [RequeueOrder(o)];
    OneCall(s, setup, RequeueOrder(o));
    RequeuedLoose(s, t, setup, o, l);
  }

  lemma RequeuedLoose(s: State, t: State, setup: Setup, o: int, l: int)
    requires Inv(s, setup) && Requeue(s, o).Ok? && t == Requeue(s, o).value && Loose(s, setup, l)
    ensures Loose(t, setup, l) && SameDemand(s, t)
  {
    RequeueMoves(s, setup, o);
    HeldSame(s, t, setup, l);
  }

  // ----- loading all that looks open

  /** The trip has one stop, with nothing on it yet, and the line looks more than wholly open. */
  ghost predicate Cleared(s: State, setup: Setup, trip: int, p: int, l: int) {
    && IsOpen(s, trip) && p in s.stops && s.stops[p] == Stop(trip, StopPending)
    && (forall k :: k in s.stops && s.stops[k].trip == trip ==> k == p)
    && (forall e :: e in s.entries ==> s.entries[e].stop != p)
    && l in s.lines && s.lines[l].warehouse in setup.transit && s.lines[l].committed < 0
    && s.lines[l].delivered <= s.lines[l].quantity && HasStatus(s, l, InPreparation)
  }

  lemma NewStop(s: State, setup: Setup, trip: int, l: int) returns (p: int, t: State)
    requires Inv(s, setup) && SetupOk(setup) && Loose(s, setup, l) && Bare(s, trip) && HasStatus(s, l, InPreparation)
    ensures Leads(s, setup, [PlanStop(trip, s.lines[l].order)], t) && Inv(t, setup)
    ensures p !in s.stops && t == s.(stops := s.stops[p := Stop(trip, StopPending)])
  {
    var o := s.lines[l].order;
    var order := s.orders[o];
    assert OrderOk(order);
    if order.fulfillment == Pickup {
      PickupNeverTravels(order, |order.events| - 1);
    }
    p := NextId(s.stops);
    t := After(s, setup, PlanStop(trip, o));
    OneCall(s, setup, PlanStop(trip, o));
  }

  function PendingOn(s: State, l: int): set<int> {
    set e | e in Pending(s) && s.entries[e].line == l
  }

  lemma NothingHeld(s: State, t: State, setup: Setup, l: int)
    requires Inv(s, setup) && Loose(s, setup, l) && t == Release(s, PendingOn(s, l))
    ensures l in t.lines && t.lines[l].committed < 0 && t.lines[l].warehouse == s.lines[l].warehouse
  {
    var some := PendingOn(s, l);
    ReleasedFrees(s, setup, some);
    FreeSlack(s, t, setup, some, l);
    assert some - Pending(s) == {};
    OnLineEmpty(s.entries, {}, l, Claim);
    OnLineEmpty(t.entries, Pending(t), l, Claim);
  }

  lemma StopIsEmpty(s: State, t: State, setup: Setup, p: int)
    requires TablesOk(s, setup) && p !in s.stops && t.entries.Keys <= s.entries.Keys
    requires forall e :: e in t.entries ==> t.entries[e] == s.entries[e]
    ensures forall e :: e in t.entries ==> t.entries[e].stop != p
  {
    forall e | e in t.entries ensures t.entries[e].stop != p {
      assert EntryOk(s, setup, e);
    }
  }

  lemma ClearLine(s: State, setup: Setup, trip: int, l: int) returns (calls: seq<Call>, p: int, t: State)
    requires Inv(s, setup) && SetupOk(setup) && Loose(s, setup, l) && Bare(s, trip) && HasStatus(s, l, InPreparation)
    ensures Leads(s, setup, calls, t) && Inv(t, setup) && Cleared(t, setup, trip, p, l) && SameDemand(s, t)
  {
    var u;
    p, u := NewStop(s, setup, trip, l);
    NewStopLoose(s, u, setup, trip, p, l);
    t := Release(u, PendingOn(u, l));
    var rest := GiveAllBack(u, setup, trip, PendingOn(u, l));
    LeadsOn(s, setup, [PlanStop(trip, s.lines[l].order)], u, rest, t);
    calls := [PlanStop(trip, s.lines[l].order)] + rest;
    NothingHeld(u, t, setup, l);
    StopIsEmpty(s, t, setup, p);
  }

  lemma NewStopLoose(s: State, u: State, setup: Setup, trip: int, p: int, l: int)
    requires Inv(s, setup) && Loose(s, setup, l) && IsOpen(s, trip) && p !in s.stops
    requires u == s.(stops := s.stops[p := Stop(trip, StopPending)])
    ensures Loose(u, setup, l)
  {
    AddStopPlans(s, u, trip, p);
    PlansMove(s, u, setup);
    HeldSame(s, u, setup, l);
  }

  /** One entry on the trip, for more than the line's quantity, and all of the line committed. */
  ghost predicate Laden(s: State, setup: Setup, trip: int, p: int, l: int, e: int) {
    && trip in s.trips && p in s.stops && s.stops[p] == Stop(trip, StopPending)
    && (forall k :: k in s.stops && s.stops[k].trip == trip ==> k == p)
    && EntriesOf(s, p) == {e} && e in s.entries && s.entries[e].line == l
    && l in s.lines && s.lines[l].warehouse in setup.transit
    && s.lines[l].committed == s.lines[l].quantity - s.lines[l].delivered < s.entries[e].committed
  }

  /** All that looks open is more than the line's quantity. */
  lemma LooksOpen(s: State, setup: Setup, trip: int, p: int, l: int)
    requires Inv(s, setup) && Cleared(s, setup, trip, p, l)
    ensures OpenQuantity(s.lines[l]) == s.lines[l].quantity - s.lines[l].delivered - s.lines[l].committed > 0
    ensures var n, e := OpenQuantity(s.lines[l]), NextId(s.entries);
            CommitLine(s, trip, p, l, None)
            == Ok(s.(entries := s.entries[e := Entry(p, l, n, 0, 0, 0)],
                     lines := s.lines[l := s.lines[l].(committed := s.lines[l].committed + n)]))
  {
    assert LineOk(s, setup, l);
  }

  lemma LadenWith(s: State, t: State, setup: Setup, trip: int, p: int, l: int, e: int, n: int)
    requires Cleared(s, setup, trip, p, l) && e !in s.entries
    requires n == s.lines[l].quantity - s.lines[l].delivered - s.lines[l].committed
    requires t == s.(entries := s.entries[e := Entry(p, l, n, 0, 0, 0)],
                     lines := s.lines[l := s.lines[l].(committed := s.lines[l].committed + n)])
    ensures Laden(t, setup, trip, p, l, e) && IsOpen(t, trip) && HasStatus(t, l, InPreparation) && SameDemand(s, t)
  {
    forall k ensures k in EntriesOf(t, p) <==> k == e {
    }
    assert EntriesOf(t, p) == {e};
  }

  lemma LoadAll(s: State, setup: Setup, trip: int, p: int, l: int) returns (e: int, t: State)
    requires Inv(s, setup) && SetupOk(setup) && Cleared(s, setup, trip, p, l)
    ensures Leads(s, setup, [Load(trip, p, l, None)], t) && Inv(t, setup)
    ensures Laden(t, setup, trip, p, l, e) && IsOpen(t, trip) && HasStatus(t, l, InPreparation) && SameDemand(s, t)
  {
    e := NextId(s.entries);
    LooksOpen(s, setup, trip, p, l);
    OneCall(s, setup, Load(trip, p, l, None));
    t := CommitLine(s, trip, p, l, None).value;
    LadenWith(s, t, setup, trip, p, l, e, OpenQuantity(s.lines[l]));
  }

  lemma LadenDeparts(s: State, setup: Setup, trip: int, p: int, l: int, e: int)
    requires Inv(s, setup) && Laden(s, setup, trip, p, l, e) && IsOpen(s, trip) && HasStatus(s, l, InPreparation)
    ensures Departing(s, trip) == {e} && DepartRefusal(s, setup, trip) == None
  {
    forall k ensures k in Departing(s, trip) <==> k == e {
      assert k in EntriesOfTrip(s, trip) <==> k in EntriesOf(s, p);
    }
    assert Departing(s, trip) == {e};
    assert OrdersOf(s, {e}) == {s.lines[l].order};
    assert EntryOk(s, setup, e);
  }

  lemma LeaveLaden(s: State, setup: Setup, trip: int, p: int, l: int, e: int) returns (t: State)
    requires Inv(s, setup) && SetupOk(setup)
    requires Laden(s, setup, trip, p, l, e) && IsOpen(s, trip) && HasStatus(s, l, InPreparation)
    ensures Leads(s, setup, [Leave(trip)], t) && Inv(t, setup) && Laden(t, setup, trip, p, l, e)
    ensures OnTheWay(t, p) && HasStatus(t, l, InTransit) && t.entries[e].sent == t.entries[e].committed
    ensures SameDemand(s, t)
  {
    LadenDeparts(s, setup, trip, p, l, e);
    OneCall(s, setup, Leave(trip));
    t := After(s, setup, Leave(trip));
    Departed(s, setup, trip);
    LadenAway(s, t, setup, trip, l, e);
    LadenStays(s, t, setup, trip, p, l, e);
  }

  lemma LadenAway(s: State, t: State, setup: Setup, trip: int, l: int, e: int)
    requires Departure(s, t, setup, trip, {e}) && s.entries[e].line == l && HasStatus(s, l, InPreparation)
    ensures HasStatus(t, l, InTransit) && SameDemand(s, t)
  {
    assert s.lines[l].order in OrdersOf(s, {e});
  }

  lemma LadenStays(s: State, t: State, setup: Setup, trip: int, p: int, l: int, e: int)
    requires Laden(s, setup, trip, p, l, e) && Departs(s, t, setup, trip, {e})
    ensures Laden(t, setup, trip, p, l, e) && OnTheWay(t, p) && t.entries[e].sent == t.entries[e].committed
  {
    forall k ensures k in EntriesOf(t, p) <==> k in EntriesOf(s, p) {
      assert k in t.entries <==> k in s.entries;
    }
    assert EntriesOf(t, p) == EntriesOf(s, p);
  }

  // ----- taking it all

  function AllTaken(s: State, p: int): map<int, Acceptance> {
    map e | e in EntriesOf(s, p) :: Acceptance(s.entries[e].sent, true)
  }

  lemma TakenTarget(s: State, p: int, o: int)
    requires OnlyOrder(s, p, o)
    ensures ComesOut(s, p, o, AllTaken(s, p), Delivered)
  {
    var entries := SettledEntries(s.entries, AllTaken(s, p));
    var a, b := OrderColumn(s, entries, EntriesOf(s, p), o, Accepted), OrderColumn(s, entries, EntriesOf(s, p), o, Sent);
    assert a.Keys == b.Keys;
    forall e | e in a ensures a[e] == b[e] {
      assert a[e] == Amount(entries[e], Accepted) && b[e] == Amount(entries[e], Sent);
    }
    TotalSame(a, b);
  }

  lemma TakenIs(s: State, m: State, p: int, l: int, e: int)
    requires EntriesOf(s, p) == {e} && e in s.entries && s.entries[e].line == l
    requires m.entries == SettledEntries(s.entries, AllTaken(s, p))
    ensures OnLine(m.entries, {e}, l, Accepted) == s.entries[e].sent
  {
    OnLineWithout(m.entries, {e}, e, l, Accepted);
    OnLineEmpty(m.entries, {e} - {e}, l, Accepted);
  }

  lemma LadenStop(s: State, setup: Setup, trip: int, p: int, l: int, e: int)
    requires Inv(s, setup) && Laden(s, setup, trip, p, l, e)
    ensures OnlyOrder(s, p, s.lines[l].order) && Stated(s, p, AllTaken(s, p))
  {
    assert e in EntriesOf(s, p) && EntryOk(s, setup, e);
    assert OfOrderOn(s, e, s.lines[l].order);
  }

  lemma TakeAll(s: State, setup: Setup, trip: int, p: int, l: int, e: int) returns (t: State)
    requires Inv(s, setup) && SetupOk(setup) && Laden(s, setup, trip, p, l, e)
    requires OnTheWay(s, p) && HasStatus(s, l, InTransit) && s.entries[e].sent == s.entries[e].committed
    ensures Leads(s, setup, [Resolve(trip, p, AllTaken(s, p), true)], t)
    ensures SameDemand(s, t) && t.lines[l].delivered > t.lines[l].quantity
  {
    var o, accepted := s.lines[l].order, AllTaken(s, p);
    LadenStop(s, setup, trip, p, l, e);
    TakenTarget(s, p, o);
    t := WholeClose(s, setup, p, o, accepted, Delivered);
    WholeOffsetsNothing(s, trip, p, o, accepted, Delivered);
    OneCall(s, setup, Resolve(trip, p, accepted, true));
    assert accepted.Keys == {e};
    TakenIs(s, t, p, l, e);
  }

  // ----- the whole course

  lemma LoadAndTake(s: State, setup: Setup, trip: int, l: int) returns (calls: seq<Call>, t: State)
    requires Inv(s, setup) && SetupOk(setup) && Loose(s, setup, l) && Bare(s, trip) && HasStatus(s, l, InPreparation)
    ensures Leads(s, setup, calls, t) && SameDemand(s, t) && t.lines[l].delivered > t.lines[l].quantity
  {
    var p, e, a, b, c;
    calls, p, a := ClearLine(s, setup, trip, l);
    e, b := LoadAll(a, setup, trip, p, l);
    LeadsOn(s, setup, calls, a, [Load(trip, p, l, None)], b);
    calls := calls + [Load(trip, p, l, None)];
    c := LeaveLaden(b, setup, trip, p, l, e);
    LeadsOn(s, setup, calls, b, [Leave(trip)], c);
    calls := calls + [Leave(trip)];
    t := TakeAll(c, setup, trip, p, l, e);
    LeadsOn(s, setup, calls, c, [Resolve(trip, p, AllTaken(c, p), true)], t);
    calls := calls + [Resolve(trip, p, AllTaken(c, p), true)];
  }

  lemma FailedRuns(s: State, setup: Setup, trip: int, l: int) returns (calls: seq<Call>, t: State)
    requires Inv(s, setup) && SetupOk(setup) && Loose(s, setup, l) && Bare(s, trip)
    requires HasStatus(s, l, Failed) || HasStatus(s, l, InPreparation)
    ensures Leads(s, setup, calls, t) && SameDemand(s, t) && t.lines[l].delivered > t.lines[l].quantity
  {
    if HasStatus(s, l, Failed) {
      var a, first, rest;
      first, a := RequeueLoose(s, setup, trip, l);
      rest, t := LoadAndTake(a, setup, trip, l);
      LeadsOn(s, setup, first, a, rest, t);
      calls := first + rest;
    } else {
      calls, t := LoadAndTake(s, setup, trip, l);
    }
  }

  /** A loose line of an order that has travelled and can travel again is delivered beyond its quantity by
      some careful course. */
  lemma LooseRunsAway(s: State, setup: Setup, l: int) returns (calls: seq<Call>, t: State)
    requires Inv(s, setup) && SetupOk(setup) && Loose(s, setup, l)
    requires Travelled(s.orders[s.lines[l].order].status) && Mobile(s, s.lines[l].order)
    ensures Leads(s, setup, calls, t) && SameDemand(s, t) && t.lines[l].delivered > t.lines[l].quantity
  {
    var trip, a := NextId(s.trips), CreateTrip(s);
    StartTrip(s, setup, l);
    var rest;
    if HasStatus(a, l, InTransit) {
      var b, first, last;
      first, b := BringBack(a, setup, trip, l);
      last, t := FailedRuns(b, setup, trip, l);
      LeadsOn(a, setup, first, b, last, t);
      rest := first + last;
    } else {
      rest, t := FailedRuns(a, setup, trip, l);
    }
    LeadsOn(s, setup, [PlanTrip], a, rest, t);
    calls := [PlanTrip] + rest;
  }
}
