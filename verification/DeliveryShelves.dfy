/** The shelves: a warehouse is down by exactly what was delivered out of it and what is on the road out of it,
    product by product, unless a claim is given back while its goods are on the road. */
module DeliveryShelves {
  import opened Outcomes
  import opened Tables
  import opened DeliveryEvents
  import opened Delivery
  import opened DeliveryInvariant
  import opened DeliveryKeeps
  import opened DeliveryTravel
  import opened DeliveryDepart
  import opened DeliverySettle
  import opened DeliverySettleTotals
  import opened DeliveryClose
  import opened DeliveryCalls
  import opened DeliveryMoves
  import opened DeliveryRoad
  import opened DeliveryRuns

  /** What the whole ledger, trips and pickups, has moved of a product through a warehouse. */
  function Stock(ledger: seq<Move>, warehouse: int, product: int): int {
    if ledger == [] then 0
    else
      var last := ledger[|ledger| - 1];
      Stock(ledger[..|ledger| - 1], warehouse, product)
      + if last.warehouse == warehouse && last.product == product then last.quantity else 0
  }

  /** A quantity of a line, when it is of a stocked product and leaves this shelf. */
  function Shelved(line: Line, setup: Setup, warehouse: int, product: int, quantity: int): int {
    if line.warehouse == warehouse then Stocked(line, setup, product, quantity) else 0
  }

  function HandedFrom(s: State, setup: Setup, w: int, p: int): map<int, int> {
    map l | l in s.lines :: Shelved(s.lines[l], setup, w, p, s.lines[l].delivered)
  }

  function OutOf(s: State, setup: Setup, e: int, w: int, p: int): int
    requires e in s.entries
  {
    if Travelling(s, setup, e) then Shelved(s.lines[s.entries[e].line], setup, w, p, s.entries[e].sent) else 0
  }

  /** What is on the road out of a warehouse, entry by entry. */
  function Out(s: State, setup: Setup, w: int, p: int): map<int, int> {
    map e | e in s.entries :: OutOf(s, setup, e, w, p)
  }

  ghost predicate ShelfOk(s: State, setup: Setup, w: int, p: int) {
    Stock(s.ledger, w, p) == -Total(HandedFrom(s, setup, w, p)) - Total(Out(s, setup, w, p))
  }

  ghost predicate ShelvesOk(s: State, setup: Setup) {
    forall w, p :: w !in setup.transit.Values ==> ShelfOk(s, setup, w, p)
  }

  lemma {:induction false} StockAppend(a: seq<Move>, b: seq<Move>, w: int, p: int)
    ensures Stock(a + b, w, p) == Stock(a, w, p) + Stock(b, w, p)
  {
    if b == [] {
      assert a + b == a;
    } else {
      assert (a + b)[..|a + b| - 1] == a + b[..|b| - 1];
      StockAppend(a, b[..|b| - 1], w, p);
    }
  }

  // ----- what leaves a sum alone

  /** Lines there before and after deliver the same goods from the same shelf as much, and others nothing. */
  ghost predicate SameHanded(s: State, t: State) {
    && (forall l :: l in s.lines && l in t.lines ==>
          SameGoods(t.lines[l], s.lines[l]) && t.lines[l].delivered == s.lines[l].delivered)
    && (forall l :: l in s.lines && l !in t.lines ==> s.lines[l].delivered == 0)
    && (forall l :: l in t.lines && l !in s.lines ==> t.lines[l].delivered == 0)
  }

  lemma HandedSame(s: State, t: State, setup: Setup, w: int, p: int)
    requires SameHanded(s, t)
    ensures Total(HandedFrom(t, setup, w, p)) == Total(HandedFrom(s, setup, w, p))
  {
    var a, b := HandedFrom(s, setup, w, p), HandedFrom(t, setup, w, p);
    forall l | l in a && l in b ensures a[l] == b[l] {
      assert a[l] == Shelved(s.lines[l], setup, w, p, s.lines[l].delivered);
      assert b[l] == Shelved(t.lines[l], setup, w, p, t.lines[l].delivered);
    }
    forall l | l in a && l !in b ensures a[l] == 0 {
      assert a[l] == Shelved(s.lines[l], setup, w, p, 0);
    }
    forall l | l in b && l !in a ensures b[l] == 0 {
      assert b[l] == Shelved(t.lines[l], setup, w, p, 0);
    }
    TotalAlike(a, b);
  }

  lemma OutSame(s: State, t: State, setup: Setup, w: int, p: int)
    requires TablesOk(s, setup) && SameTravel(s, t)
    ensures Total(Out(t, setup, w, p)) == Total(Out(s, setup, w, p))
  {
    var a, b := Out(s, setup, w, p), Out(t, setup, w, p);
    forall e | e in s.entries ensures a[e] == b[e] {
      assert EntryOk(s, setup, e);
      assert a[e] == OutOf(s, setup, e, w, p) && b[e] == OutOf(t, setup, e, w, p);
    }
    TotalSame(a, b);
  }

  lemma NothingMoves(s: State, t: State, setup: Setup)
    requires TablesOk(s, setup) && ShelvesOk(s, setup) && SameHanded(s, t) && SameTravel(s, t) && t.ledger == s.ledger
    ensures ShelvesOk(t, setup)
  {
    forall w, p | w !in setup.transit.Values ensures ShelfOk(t, setup, w, p) {
      HandedSame(s, t, setup, w, p);
      OutSame(s, t, setup, w, p);
      assert ShelfOk(s, setup, w, p);
    }
  }

  // ----- drafting and planning

  lemma RaisingHands(s: State, setup: Setup, sale: int, fulfillment: Fulfillment, requested: Option<seq<Request>>)
    requires Inv(s, setup) && Create(s, setup, sale, fulfillment, requested).Ok?
    requires requested.Some? ==> forall r :: r in requested.value ==> r.quantity > 0
    ensures var t := Create(s, setup, sale, fulfillment, requested).value;
            t.ledger == s.ledger && forall l :: l in s.lines ==> l in t.lines && t.lines[l] == s.lines[l]
  {
    var t := Create(s, setup, sale, fulfillment, requested).value;
    var facility, order, chosen := CreateParts(s, t, setup, sale, fulfillment, requested);
    ChosenNotNegative(Deliverable(s, setup, sale), requested);
    AddLinesGrow(s.(orders := s.orders[NextId(s.orders) := order]), setup, NextId(s.orders), facility, chosen);
  }

  lemma DraftingHands(s: State, setup: Setup, call: Call)
    requires Inv(s, setup) && Bounded(call) && Answer(s, setup, call).Ok? && OffTrips(call) && !call.HandOver?
    ensures SameFigures(s, After(s, setup, call))
  {
    if call.Raise? {
      RaisingHands(s, setup, call.sale, KindOf(setup, call.sale, call.given, call.shipTo), call.requested);
    } else if call.ConfirmOrder? {
      ConfirmingHands(s, setup, call.order, call.short);
    } else if OfTrips(call) {
      assert After(s, setup, call).ledger == s.ledger && After(s, setup, call).lines == s.lines;
    } else {
      EditingHands(s, setup, call);
    }
  }

  lemma ConfirmingHands(s: State, setup: Setup, o: int, short: bool)
    requires Confirm(s, setup, o, short).Ok?
    ensures Confirm(s, setup, o, short).value.ledger == s.ledger && Confirm(s, setup, o, short).value.lines == s.lines
  {
  }

  lemma EditingHands(s: State, setup: Setup, call: Call)
    requires Answer(s, setup, call).Ok? && !OfTrips(call) && !call.HandOver? && !call.Raise? && !call.ConfirmOrder?
    ensures SameFigures(s, After(s, setup, call))
  {
    if call.Add? {
      AddingHands(s, setup, call.order, call.request);
    } else if call.Edit? {
      assert After(s, setup, call) == UpdateLine(s, setup, call.order, call.line, call.quantity).value;
    } else if call.Drop? {
      assert After(s, setup, call) == DeleteLine(s, call.order, call.line).value;
    } else if call.RequeueOrder? {
      assert After(s, setup, call) == Requeue(s, call.order).value;
    } else if call.CancelOrder? {
      assert After(s, setup, call) == Cancel(s, call.order, call.reason).value;
    } else {
      assert After(s, setup, call).ledger == s.ledger && After(s, setup, call).lines == s.lines;
    }
  }

  lemma AddingHands(s: State, setup: Setup, o: int, r: Request)
    requires AddLine(s, setup, o, r).Ok?
    ensures SameFigures(s, AddLine(s, setup, o, r).value)
  {
  }

  ghost predicate SameFigures(s: State, t: State) {
    && t.ledger == s.ledger
    && forall l :: l in s.lines && l in t.lines ==>
         SameGoods(t.lines[l], s.lines[l]) && t.lines[l].delivered == s.lines[l].delivered
  }

  lemma MovesKeepShelves(s: State, t: State, setup: Setup)
    requires TablesOk(s, setup) && ShelvesOk(s, setup) && AllMove(s, t) && SameFigures(s, t)
    ensures ShelvesOk(t, setup)
  {
    forall l | l in s.lines && l !in t.lines ensures s.lines[l].delivered == 0 {
      assert LineOk(s, setup, l);
    }
    forall l | l in t.lines && l !in s.lines ensures t.lines[l].delivered == 0 {
      assert Moves(s, t, l);
    }
    NothingMoves(s, t, setup);
  }

  lemma DraftingKeepsShelves(s: State, setup: Setup, call: Call)
    requires Inv(s, setup) && ShelvesOk(s, setup) && Bounded(call) && Answer(s, setup, call).Ok?
    requires OffTrips(call) && !call.HandOver?
    ensures ShelvesOk(After(s, setup, call), setup)
  {
    CallMoves(s, setup, call);
    DraftingHands(s, setup, call);
    MovesKeepShelves(s, After(s, setup, call), setup);
  }

  // ----- pickups

  ghost predicate Collects(s: State, keys: seq<int>, column: map<int, int>, setup: Setup, w: int, p: int) {
    forall l :: l in keys ==> l in s.lines && l in column && column[l] == Shelved(s.lines[l], setup, w, p, s.lines[l].quantity)
  }

  lemma {:induction false} PickupTakes(s: State, setup: Setup, o: int, keys: seq<int>, column: map<int, int>, w: int, p: int)
    requires Collects(s, keys, column, setup, w, p)
    ensures Stock(PickupMoves(s, setup, o, keys), w, p) == -SumOver(column, keys)
  {
    if keys != [] {
      var rest, last := keys[..|keys| - 1], keys[|keys| - 1];
      assert last in keys;
      PickupTakes(s, setup, o, rest, column, w, p);
      var moves := PickupMove(setup, o, s.lines[last]);
      StockAppend(PickupMoves(s, setup, o, rest), moves, w, p);
      assert moves != [] ==> moves[..0] == [];
    }
  }

  function Collection(s: State, setup: Setup, some: set<int>, w: int, p: int): map<int, int>
    requires some <= s.lines.Keys
  {
    map l | l in some :: Shelved(s.lines[l], setup, w, p, s.lines[l].quantity)
  }

  lemma PickupHandsFrom(s: State, t: State, setup: Setup, some: set<int>, w: int, p: int)
    requires t.lines.Keys == s.lines.Keys && some <= s.lines.Keys
    requires forall l :: l in s.lines ==>
               && SameGoods(t.lines[l], s.lines[l])
               && t.lines[l].delivered == s.lines[l].delivered + if l in some then s.lines[l].quantity else 0
    ensures Total(HandedFrom(t, setup, w, p)) == Total(HandedFrom(s, setup, w, p)) + Total(Collection(s, setup, some, w, p))
  {
    var column := Collection(s, setup, some, w, p);
    var a, b, c := HandedFrom(s, setup, w, p), Padded(column, s.lines.Keys), HandedFrom(t, setup, w, p);
    TotalPadded(column, s.lines.Keys);
    forall l | l in s.lines ensures c[l] == a[l] + b[l] {
      assert a[l] == Shelved(s.lines[l], setup, w, p, s.lines[l].delivered);
      assert c[l] == Shelved(t.lines[l], setup, w, p, t.lines[l].delivered);
      assert b[l] == if l in some then Shelved(s.lines[l], setup, w, p, s.lines[l].quantity) else 0;
    }
    TotalSum(a, b, c);
  }

  lemma PickupKeepsShelf(s: State, t: State, setup: Setup, o: int, w: int, p: int)
    requires TablesOk(s, setup) && ShelfOk(s, setup, w, p) && SameTravel(s, t) && t.lines.Keys == s.lines.Keys
    requires forall l :: l in s.lines ==>
               && SameGoods(t.lines[l], s.lines[l])
               && t.lines[l].delivered == s.lines[l].delivered + if l in LinesOf(s, o) then s.lines[l].quantity else 0
    requires t.ledger == s.ledger + PickupMoves(s, setup, o, Ascending(LinesOf(s, o)))
    ensures ShelfOk(t, setup, w, p)
  {
    var keys, column := Ascending(LinesOf(s, o)), Collection(s, setup, LinesOf(s, o), w, p);
    PickupTakes(s, setup, o, keys, column, w, p);
    StockAppend(s.ledger, PickupMoves(s, setup, o, keys), w, p);
    SumInOrder(column, keys);
    PickupHandsFrom(s, t, setup, LinesOf(s, o), w, p);
    OutSame(s, t, setup, w, p);
  }

  lemma PickupKeepsShelves(s: State, setup: Setup, o: int, proof: bool)
    requires Inv(s, setup) && ShelvesOk(s, setup) && ConfirmPickup(s, setup, o, proof).Ok?
    ensures ShelvesOk(ConfirmPickup(s, setup, o, proof).value, setup)
  {
    var t := ConfirmPickup(s, setup, o, proof).value;
    PickupMovesLines(s, setup, o, proof);
    forall l | l in LinesOf(s, o) ensures s.lines[l].delivered == 0 {
      PickupLines(s, t, setup, o, proof, l);
    }
    forall w, p | w !in setup.transit.Values ensures ShelfOk(t, setup, w, p) {
      assert ShelfOk(s, setup, w, p);
      PickupKeepsShelf(s, t, setup, o, w, p);
    }
  }

  // ----- claims

  lemma ClaimKeepsShelves(s: State, t: State, setup: Setup, e: int, c: Entry)
    requires TablesOk(s, setup) && ShelvesOk(s, setup) && Claims(s, t, e, c)
    ensures ShelvesOk(t, setup)
  {
    forall w, p | w !in setup.transit.Values ensures ShelfOk(t, setup, w, p) {
      HandedSame(s, t, setup, w, p);
      ClaimOut(s, t, setup, e, c, w, p);
      assert ShelfOk(s, setup, w, p);
    }
  }

  lemma ClaimOut(s: State, t: State, setup: Setup, e: int, c: Entry, w: int, p: int)
    requires TablesOk(s, setup) && Claims(s, t, e, c)
    ensures Total(Out(t, setup, w, p)) == Total(Out(s, setup, w, p))
  {
    var a, b := Out(s, setup, w, p), Out(t, setup, w, p);
    forall k | k in a && k in b ensures a[k] == b[k] {
      ClaimOutOf(s, t, setup, e, c, k, w, p);
      assert a[k] == OutOf(s, setup, k, w, p) && b[k] == OutOf(t, setup, k, w, p);
    }
    assert e !in a ==> b[e] == 0;
    TotalAlike(a, b);
  }

  lemma ClaimOutOf(s: State, t: State, setup: Setup, e: int, c: Entry, k: int, w: int, p: int)
    requires TablesOk(s, setup) && Claims(s, t, e, c) && k in s.entries
    ensures OutOf(t, setup, k, w, p) == OutOf(s, setup, k, w, p)
  {
    assert EntryOk(s, setup, k);
  }

  lemma OutOfOthers(s: State, t: State, setup: Setup, some: set<int>, k: int, w: int, p: int)
    requires TablesOk(s, setup) && Frees(s, t, some) && k in t.entries
    ensures k in s.entries && t.entries[k] == s.entries[k]
    ensures OutOf(t, setup, k, w, p) == OutOf(s, setup, k, w, p)
  {
    assert EntryOk(s, setup, k);
  }

  lemma FreeKeepsShelves(s: State, t: State, setup: Setup, some: set<int>)
    requires TablesOk(s, setup) && ShelvesOk(s, setup) && Frees(s, t, some)
    requires forall e :: e in some ==> !Travelling(s, setup, e)
    ensures ShelvesOk(t, setup)
  {
    forall w, p | w !in setup.transit.Values ensures ShelfOk(t, setup, w, p) {
      HandedSame(s, t, setup, w, p);
      var a, b := Out(s, setup, w, p), Out(t, setup, w, p);
      forall k | k in b ensures k in a && a[k] == b[k] {
        OutOfOthers(s, t, setup, some, k, w, p);
      }
      TotalAlike(a, b);
      assert ShelfOk(s, setup, w, p);
    }
  }

  /** The goods of a claim given back on the road are missing from their shelf, and nobody has them. */
  lemma StrandedFromShelf(s: State, setup: Setup, trip: int, e: int)
    requires TablesOk(s, setup) && ShelvesOk(s, setup) && Travelling(s, setup, e) && ReleaseCommitment(s, trip, e).Ok?
    ensures !ShelvesOk(ReleaseCommitment(s, trip, e).value, setup)
  {
    var t, line := ReleaseCommitment(s, trip, e).value, s.lines[s.entries[e].line];
    assert EntryOk(s, setup, e) && LineOk(s, setup, s.entries[e].line);
    ReleaseFrees(s, setup, trip, e);
    var w, p := line.warehouse, line.product;
    HandedSame(s, t, setup, w, p);
    var a, b := Out(s, setup, w, p), Out(t, setup, w, p);
    forall k | k in b ensures k in a && a[k] == b[k] {
      OutOfOthers(s, t, setup, {e}, k, w, p);
    }
    TotalBut(a, b, e);
    assert a[e] == OutOf(s, setup, e, w, p);
    assert ShelfOk(s, setup, w, p) && !ShelfOk(t, setup, w, p);
  }

  // ----- departure

  ghost predicate Boards(s: State, keys: seq<int>, column: map<int, int>, setup: Setup, w: int, p: int) {
    forall e :: e in keys ==>
      && e in s.entries && s.entries[e].line in s.lines && s.lines[s.entries[e].line].warehouse in setup.transit
      && e in column && column[e] == Shelved(s.lines[s.entries[e].line], setup, w, p, s.entries[e].committed)
  }

  lemma DepartMoveTakes(setup: Setup, trip: int, line: Line, quantity: int, w: int, p: int)
    requires w !in setup.transit.Values && line.warehouse in setup.transit
    ensures Stock(DepartMove(setup, trip, line, quantity), w, p) == -Shelved(line, setup, w, p, quantity)
  {
    var moves := DepartMove(setup, trip, line, quantity);
    if moves != [] {
      assert moves == [moves[0]] + [moves[1]];
      StockAppend([moves[0]], [moves[1]], w, p);
    }
  }

  lemma {:induction false} DepartTakes(s: State, setup: Setup, trip: int, keys: seq<int>, column: map<int, int>, w: int, p: int)
    requires Boards(s, keys, column, setup, w, p) && w !in setup.transit.Values
    ensures Stock(DepartMoves(s, setup, trip, keys), w, p) == -SumOver(column, keys)
  {
    if keys != [] {
      var rest, last := keys[..|keys| - 1], keys[|keys| - 1];
      assert last in keys;
      DepartTakes(s, setup, trip, rest, column, w, p);
      var line, claimed := s.lines[s.entries[last].line], s.entries[last].committed;
      DepartMoveTakes(setup, trip, line, claimed, w, p);
      StockAppend(DepartMoves(s, setup, trip, rest), DepartMove(setup, trip, line, claimed), w, p);
    }
  }

  /** A figure of some entries, by the shelf their goods leave. */
  function Shelving(s: State, setup: Setup, entries: map<int, Entry>, some: set<int>, figure: Figure, w: int, p: int): map<int, int>
    requires forall e :: e in some ==> e in entries && entries[e].line in s.lines
  {
    map e | e in some :: Shelved(s.lines[entries[e].line], setup, w, p, Amount(entries[e], figure))
  }

  lemma DepartOut(s: State, t: State, setup: Setup, trip: int, some: set<int>, w: int, p: int)
    requires TablesOk(s, setup) && Departs(s, t, setup, trip, some) && some <= s.entries.Keys
    ensures Total(Out(t, setup, w, p)) == Total(Out(s, setup, w, p)) + Total(Shelving(s, setup, s.entries, some, Claim, w, p))
  {
    forall e | e in s.entries
      ensures OutOf(t, setup, e, w, p) == OutOf(s, setup, e, w, p)
                + if e in some then Shelved(s.lines[s.entries[e].line], setup, w, p, s.entries[e].committed) else 0
    {
      DepartOutOf(s, t, setup, trip, some, e, w, p);
    }
    OutRises(s, t, setup, some, w, p);
  }

  lemma DepartOutOf(s: State, t: State, setup: Setup, trip: int, some: set<int>, e: int, w: int, p: int)
    requires TablesOk(s, setup) && Departs(s, t, setup, trip, some) && e in s.entries
    ensures OutOf(t, setup, e, w, p) == OutOf(s, setup, e, w, p)
              + if e in some then Shelved(s.lines[s.entries[e].line], setup, w, p, s.entries[e].committed) else 0
  {
    assert EntryOk(s, setup, e) && StopOk(s, s.entries[e].stop);
    if e in some {
      assert !Travelling(s, setup, e);
    }
  }

  lemma OutRises(s: State, t: State, setup: Setup, some: set<int>, w: int, p: int)
    requires t.entries.Keys == s.entries.Keys && forall e :: e in some ==> e in s.entries && s.entries[e].line in s.lines
    requires forall e :: e in s.entries ==>
               OutOf(t, setup, e, w, p) == OutOf(s, setup, e, w, p)
                 + if e in some then Shelved(s.lines[s.entries[e].line], setup, w, p, s.entries[e].committed) else 0
    ensures Total(Out(t, setup, w, p)) == Total(Out(s, setup, w, p)) + Total(Shelving(s, setup, s.entries, some, Claim, w, p))
  {
    var before, after, boarded := Out(s, setup, w, p), Out(t, setup, w, p), Shelving(s, setup, s.entries, some, Claim, w, p);
    var padded := Padded(boarded, s.entries.Keys);
    TotalPadded(boarded, s.entries.Keys);
    forall e | e in s.entries ensures after[e] == before[e] + padded[e] {
      assert after[e] == OutOf(t, setup, e, w, p) && before[e] == OutOf(s, setup, e, w, p);
      if e in some {
        assert padded[e] == Shelved(s.lines[s.entries[e].line], setup, w, p, Amount(s.entries[e], Claim));
      }
    }
    TotalSum(before, padded, after);
  }

  lemma DepartKeepsShelf(s: State, t: State, setup: Setup, trip: int, some: set<int>, w: int, p: int)
    requires TablesOk(s, setup) && ShelfOk(s, setup, w, p) && Departure(s, t, setup, trip, some) && w !in setup.transit.Values
    ensures ShelfOk(t, setup, w, p)
  {
    var column, keys := Shelving(s, setup, s.entries, some, Claim, w, p), Ascending(some);
    forall e | e in keys ensures column[e] == Shelved(s.lines[s.entries[e].line], setup, w, p, s.entries[e].committed) {
      assert column[e] == Shelved(s.lines[s.entries[e].line], setup, w, p, Amount(s.entries[e], Claim));
    }
    DepartTakes(s, setup, trip, keys, column, w, p);
    StockAppend(s.ledger, DepartMoves(s, setup, trip, keys), w, p);
    SumInOrder(column, keys);
    DepartOut(s, t, setup, trip, some, w, p);
    HandedSame(s, t, setup, w, p);
  }

  lemma DepartureKeepsShelves(s: State, setup: Setup, trip: int)
    requires TablesOk(s, setup) && ShelvesOk(s, setup) && Depart(s, setup, trip).Ok?
    ensures ShelvesOk(Depart(s, setup, trip).value, setup)
  {
    Departed(s, setup, trip);
    forall w, p | w !in setup.transit.Values ensures ShelfOk(Depart(s, setup, trip).value, setup, w, p) {
      assert ShelfOk(s, setup, w, p);
      DepartKeepsShelf(s, Depart(s, setup, trip).value, setup, trip, Departing(s, trip), w, p);
    }
  }

  // ----- closing

  lemma CloseMoveReturns(setup: Setup, trip: int, line: Line, entry: Entry, w: int, p: int)
    requires w !in setup.transit.Values && line.warehouse in setup.transit && entry.returned >= 0
    ensures Stock(CloseMove(setup, trip, line, entry), w, p) == Shelved(line, setup, w, p, entry.returned)
  {
    if line.product in setup.stockable {
      var leaving := Move(ByTrip, trip, setup.transit[line.warehouse], line.product, -entry.sent);
      var back := Move(ByTrip, trip, line.warehouse, line.product, entry.returned);
      assert leaving.warehouse != w;
      StockOfTwo(leaving, entry.sent > 0, back, entry.returned > 0, w, p);
    }
  }

  lemma StockOfTwo(a: Move, first: bool, b: Move, second: bool, w: int, p: int)
    requires a.warehouse != w
    ensures Stock((if first then [a] else []) + (if second then [b] else []), w, p)
         == if second && b.warehouse == w && b.product == p then b.quantity else 0
  {
    var one, two := if first then [a] else [], if second then [b] else [];
    StockAppend(one, two, w, p);
    assert first ==> one[..0] == [];
    assert second ==> two[..0] == [];
  }

  ghost predicate Regains(s: State, entries: map<int, Entry>, keys: seq<int>, column: map<int, int>, setup: Setup, w: int, p: int) {
    forall e :: e in keys ==>
      && e in entries && entries[e].line in s.lines && s.lines[entries[e].line].warehouse in setup.transit
      && entries[e].returned >= 0
      && e in column && column[e] == Shelved(s.lines[entries[e].line], setup, w, p, entries[e].returned)
  }

  lemma {:induction false} CloseReturns(s: State, setup: Setup, trip: int, entries: map<int, Entry>, keys: seq<int>,
                                        column: map<int, int>, w: int, p: int)
    requires Regains(s, entries, keys, column, setup, w, p) && w !in setup.transit.Values
    ensures Stock(CloseMoves(s, setup, trip, entries, keys), w, p) == SumOver(column, keys)
  {
    if keys != [] {
      var rest, last := keys[..|keys| - 1], keys[|keys| - 1];
      assert last in keys;
      CloseReturns(s, setup, trip, entries, rest, column, w, p);
      var line := s.lines[entries[last].line];
      CloseMoveReturns(setup, trip, line, entries[last], w, p);
      StockAppend(CloseMoves(s, setup, trip, entries, rest), CloseMove(setup, trip, line, entries[last]), w, p);
    }
  }

  /** Of what was sent, part was accepted and the rest came back. */
  lemma SentIsAcceptedAndReturned(s: State, m: State, setup: Setup, some: set<int>, w: int, p: int)
    requires EntriesSettle(s, m, some) && forall e :: e in some ==> e in m.entries && m.entries[e].line in s.lines
    ensures Total(Shelving(s, setup, m.entries, some, Sent, w, p))
         == Total(Shelving(s, setup, m.entries, some, Accepted, w, p)) + Total(Shelving(s, setup, m.entries, some, Returned, w, p))
  {
    var a, b := Shelving(s, setup, m.entries, some, Accepted, w, p), Shelving(s, setup, m.entries, some, Returned, w, p);
    var c := Shelving(s, setup, m.entries, some, Sent, w, p);
    forall e | e in some ensures c[e] == a[e] + b[e] {
      assert EntrySettles(s.entries[e], m.entries[e]);
      var line := s.lines[m.entries[e].line];
      assert a[e] == Shelved(line, setup, w, p, Amount(m.entries[e], Accepted));
      assert b[e] == Shelved(line, setup, w, p, Amount(m.entries[e], Returned));
      assert c[e] == Shelved(line, setup, w, p, Amount(m.entries[e], Sent));
    }
    TotalSum(a, b, c);
  }

  function OnShelf(s: State, setup: Setup, w: int, p: int): set<int> {
    set l | l in s.lines && s.lines[l].warehouse == w && s.lines[l].product == p && p in setup.stockable
  }

  lemma SettleHandsFrom(s: State, m: State, setup: Setup, some: set<int>, w: int, p: int)
    requires LinesSettle(s, m, some) && forall e :: e in some ==> e in m.entries && m.entries[e].line in s.lines
    ensures Total(HandedFrom(m, setup, w, p))
         == Total(HandedFrom(s, setup, w, p)) + Total(Shelving(s, setup, m.entries, some, Accepted, w, p))
  {
    var chosen := OnShelf(s, setup, w, p);
    var a, b, c := HandedFrom(s, setup, w, p), ByLine(m.entries, some, s.lines.Keys, chosen, Accepted), HandedFrom(m, setup, w, p);
    forall l | l in s.lines ensures c[l] == a[l] + b[l] {
      assert a[l] == Shelved(s.lines[l], setup, w, p, s.lines[l].delivered);
      assert c[l] == Shelved(m.lines[l], setup, w, p, m.lines[l].delivered);
    }
    TotalSum(a, b, c);
    ByLineIsByEntry(m.entries, some, s.lines.Keys, chosen, Accepted);
    var d, e := ByEntry(m.entries, some, chosen, Accepted), Shelving(s, setup, m.entries, some, Accepted, w, p);
    forall k | k in some ensures d[k] == e[k] {
      assert e[k] == Shelved(s.lines[m.entries[k].line], setup, w, p, Amount(m.entries[k], Accepted));
    }
    TotalSame(d, e);
  }

  lemma SettleOut(s: State, m: State, setup: Setup, trip: int, stop: int, some: set<int>, w: int, p: int)
    requires TablesOk(s, setup) && Settles(s, m, setup, trip, stop, some)
    ensures Total(Out(m, setup, w, p)) == Total(Out(s, setup, w, p)) - Total(Shelving(s, setup, m.entries, some, Sent, w, p))
  {
    forall e | e in s.entries
      ensures e in some ==>
                && OutOf(m, setup, e, w, p) == 0
                && OutOf(s, setup, e, w, p) == Shelved(s.lines[m.entries[e].line], setup, w, p, m.entries[e].sent)
      ensures e !in some ==> OutOf(m, setup, e, w, p) == OutOf(s, setup, e, w, p)
    {
      SettleOutOf(s, m, setup, trip, stop, some, e, w, p);
    }
    OutFalls(s, m, setup, some, w, p);
  }

  lemma OutFalls(s: State, m: State, setup: Setup, some: set<int>, w: int, p: int)
    requires m.entries.Keys == s.entries.Keys && forall e :: e in some ==> e in m.entries && m.entries[e].line in s.lines
    requires forall e :: e in s.entries && e in some ==>
               && OutOf(m, setup, e, w, p) == 0
               && OutOf(s, setup, e, w, p) == Shelved(s.lines[m.entries[e].line], setup, w, p, m.entries[e].sent)
    requires forall e :: e in s.entries && e !in some ==> OutOf(m, setup, e, w, p) == OutOf(s, setup, e, w, p)
    ensures Total(Out(m, setup, w, p)) == Total(Out(s, setup, w, p)) - Total(Shelving(s, setup, m.entries, some, Sent, w, p))
  {
    var before, after, unloaded := Out(s, setup, w, p), Out(m, setup, w, p), Shelving(s, setup, m.entries, some, Sent, w, p);
    var padded := Padded(unloaded, s.entries.Keys);
    TotalPadded(unloaded, s.entries.Keys);
    forall e | e in s.entries ensures before[e] == after[e] + padded[e] {
      assert after[e] == OutOf(m, setup, e, w, p) && before[e] == OutOf(s, setup, e, w, p);
      if e in some {
        assert padded[e] == Shelved(s.lines[m.entries[e].line], setup, w, p, Amount(m.entries[e], Sent));
      }
    }
    TotalSum(after, padded, before);
  }

  lemma SettleOutOf(s: State, m: State, setup: Setup, trip: int, stop: int, some: set<int>, e: int, w: int, p: int)
    requires TablesOk(s, setup) && Settles(s, m, setup, trip, stop, some) && e in s.entries
    ensures e in some ==>
              && OutOf(m, setup, e, w, p) == 0
              && OutOf(s, setup, e, w, p) == Shelved(s.lines[m.entries[e].line], setup, w, p, m.entries[e].sent)
    ensures e !in some ==> OutOf(m, setup, e, w, p) == OutOf(s, setup, e, w, p)
  {
    assert EntryOk(s, setup, e);
    SettleTravelling(s, m, setup, stop, some, e);
    if e in some {
      assert EntrySettles(s.entries[e], m.entries[e]);
    }
    SettledGoods(s, m, some, s.entries[e].line);
    OutOfSettled(s, m, setup, e, e in some, w, p);
  }

  lemma SettledGoods(s: State, m: State, some: set<int>, l: int)
    requires LinesSettle(s, m, some) && l in s.lines
    ensures l in m.lines && SameGoods(m.lines[l], s.lines[l])
  {
  }

  lemma OutOfSettled(s: State, m: State, setup: Setup, e: int, settled: bool, w: int, p: int)
    requires e in s.entries && e in m.entries && m.entries[e].line == s.entries[e].line && m.entries[e].sent == s.entries[e].sent
    requires s.entries[e].line in s.lines && s.entries[e].line in m.lines
    requires SameGoods(m.lines[s.entries[e].line], s.lines[s.entries[e].line])
    requires Travelling(m, setup, e) == (!settled && Travelling(s, setup, e))
    requires settled && s.lines[s.entries[e].line].product in setup.stockable ==> Travelling(s, setup, e)
    ensures settled ==>
              && OutOf(m, setup, e, w, p) == 0
              && OutOf(s, setup, e, w, p) == Shelved(s.lines[m.entries[e].line], setup, w, p, m.entries[e].sent)
    ensures !settled ==> OutOf(m, setup, e, w, p) == OutOf(s, setup, e, w, p)
  {
  }

  lemma SettleTravelling(s: State, m: State, setup: Setup, stop: int, some: set<int>, e: int)
    requires TablesOk(s, setup) && e in s.entries
    requires AtStop(s, stop, some) && EntriesSettle(s, m, some) && LinesSettle(s, m, some) && StopsSettle(s, m, stop)
    ensures Travelling(m, setup, e) == (e !in some && Travelling(s, setup, e))
    ensures e in some && s.lines[s.entries[e].line].product in setup.stockable ==> Travelling(s, setup, e)
  {
    assert EntryOk(s, setup, e) && StopOk(s, s.entries[e].stop);
    if e in some {
      assert EntrySettles(s.entries[e], m.entries[e]);
    }
  }

  lemma SettleStock(s: State, m: State, setup: Setup, trip: int, some: set<int>, w: int, p: int)
    requires forall e :: e in some ==> e in m.entries && m.entries[e].line in s.lines
    requires Unloading(s, setup, m.entries, Ascending(some)) && w !in setup.transit.Values
    requires m.ledger == s.ledger + CloseMoves(s, setup, trip, m.entries, Ascending(some))
    ensures Stock(m.ledger, w, p) == Stock(s.ledger, w, p) + Total(Shelving(s, setup, m.entries, some, Returned, w, p))
  {
    var column, keys := Shelving(s, setup, m.entries, some, Returned, w, p), Ascending(some);
    RegainsColumn(s, setup, m.entries, some, w, p);
    CloseReturns(s, setup, trip, m.entries, keys, column, w, p);
    StockAppend(s.ledger, CloseMoves(s, setup, trip, m.entries, keys), w, p);
    SumInOrder(column, keys);
  }

  lemma RegainsColumn(s: State, setup: Setup, entries: map<int, Entry>, some: set<int>, w: int, p: int)
    requires forall e :: e in some ==> e in entries && entries[e].line in s.lines
    requires Unloading(s, setup, entries, Ascending(some))
    ensures Regains(s, entries, Ascending(some), Shelving(s, setup, entries, some, Returned, w, p), setup, w, p)
  {
    var column := Shelving(s, setup, entries, some, Returned, w, p);
    forall e | e in Ascending(some) ensures e in column && column[e] == Shelved(s.lines[entries[e].line], setup, w, p, entries[e].returned) {
      assert column[e] == Shelved(s.lines[entries[e].line], setup, w, p, Amount(entries[e], Returned));
    }
  }

  lemma SettleKeepsShelf(s: State, m: State, setup: Setup, trip: int, stop: int, some: set<int>, w: int, p: int)
    requires TablesOk(s, setup) && ShelfOk(s, setup, w, p) && Settles(s, m, setup, trip, stop, some) && w !in setup.transit.Values
    ensures ShelfOk(m, setup, w, p)
  {
    SettleUnloads(s, m, setup, some);
    SettleStock(s, m, setup, trip, some, w, p);
    SettleOut(s, m, setup, trip, stop, some, w, p);
    SettleHandsFrom(s, m, setup, some, w, p);
    SentIsAcceptedAndReturned(s, m, setup, some, w, p);
  }

  lemma CloseKeepsShelves(s: State, setup: Setup, trip: int, stop: int, accepted: map<int, Acceptance>, proof: bool)
    requires Inv(s, setup) && ShelvesOk(s, setup)
    requires CloseStop(s, setup, trip, stop, accepted, proof).Ok?
    ensures ShelvesOk(CloseStop(s, setup, trip, stop, accepted, proof).value, setup)
  {
    var t := CloseStop(s, setup, trip, stop, accepted, proof).value;
    var m, carried, ids := Closing(s, setup, trip, stop, accepted, proof);
    ClosesKeepShelves(s, m, t, setup, trip, stop, accepted.Keys, carried, ids);
  }

  lemma ClosesKeepShelves(s: State, m: State, t: State, setup: Setup, trip: int, stop: int, some: set<int>, carried: set<int>, ids: map<int, int>)
    requires Inv(s, setup) && ShelvesOk(s, setup) && Closes(s, m, t, setup, trip, stop, some, carried, ids)
    ensures ShelvesOk(t, setup)
  {
    SettleKeeps(s, m, setup, trip, stop, some);
    SettleKeepsShelves(s, m, setup, trip, stop, some);
    SplitsOnly(m, t, setup, carried, ids);
    SplitKeepsShelves(m, t, setup);
  }

  lemma SplitKeepsShelves(m: State, t: State, setup: Setup)
    requires TablesOk(m, setup) && ShelvesOk(m, setup) && SplitOnly(m, t)
    ensures ShelvesOk(t, setup)
  {
    NothingMoves(m, t, setup);
  }

  lemma SettleKeepsShelves(s: State, m: State, setup: Setup, trip: int, stop: int, some: set<int>)
    requires TablesOk(s, setup) && ShelvesOk(s, setup) && Settles(s, m, setup, trip, stop, some)
    ensures ShelvesOk(m, setup)
  {
    forall w, p | w !in setup.transit.Values ensures ShelfOk(m, setup, w, p) {
      assert ShelfOk(s, setup, w, p);
      SettleKeepsShelf(s, m, setup, trip, stop, some, w, p);
    }
  }

  // ----- whose rows they are

  predicate AllOf(moves: seq<Move>, source: Source, reference: int) {
    forall i :: 0 <= i < |moves| ==> moves[i].source == source && moves[i].reference == reference
  }

  lemma {:induction false} DepartRowsOf(s: State, setup: Setup, trip: int, keys: seq<int>)
    requires forall e :: e in keys ==> e in s.entries && s.entries[e].line in s.lines
    ensures AllOf(DepartMoves(s, setup, trip, keys), ByTrip, trip)
  {
    if keys != [] {
      DepartRowsOf(s, setup, trip, keys[..|keys| - 1]);
    }
  }

  lemma {:induction false} CloseRowsOf(s: State, setup: Setup, trip: int, entries: map<int, Entry>, keys: seq<int>)
    requires forall e :: e in keys ==> e in entries && entries[e].line in s.lines
    ensures AllOf(CloseMoves(s, setup, trip, entries, keys), ByTrip, trip)
  {
    if keys != [] {
      CloseRowsOf(s, setup, trip, entries, keys[..|keys| - 1]);
    }
  }

  lemma {:induction false} PickupRowsOf(s: State, setup: Setup, o: int, keys: seq<int>)
    requires forall l :: l in keys ==> l in s.lines
    ensures AllOf(PickupMoves(s, setup, o, keys), ByPickup, o)
  {
    if keys != [] {
      PickupRowsOf(s, setup, o, keys[..|keys| - 1]);
    }
  }

  /** The ledger with some rows of one trip or pickup after it. */
  ghost predicate Posts(s: State, t: State, source: Source, reference: int) {
    |s.ledger| <= |t.ledger| && t.ledger[..|s.ledger|] == s.ledger && AllOf(t.ledger[|s.ledger|..], source, reference)
  }

  lemma Appended(s: State, t: State, moves: seq<Move>, source: Source, reference: int)
    requires t.ledger == s.ledger + moves && AllOf(moves, source, reference)
    ensures Posts(s, t, source, reference)
  {
    assert t.ledger[|s.ledger|..] == moves && t.ledger[..|s.ledger|] == s.ledger;
  }

  lemma ClosingPosts(s: State, setup: Setup, trip: int, stop: int, accepted: map<int, Acceptance>, proof: bool)
    requires TablesOk(s, setup) && CloseStop(s, setup, trip, stop, accepted, proof).Ok?
    ensures Posts(s, CloseStop(s, setup, trip, stop, accepted, proof).value, ByTrip, trip)
  {
    var t := CloseStop(s, setup, trip, stop, accepted, proof).value;
    var m, carried, ids := Closing(s, setup, trip, stop, accepted, proof);
    ClosesPost(s, m, t, setup, trip, stop, accepted.Keys, carried, ids);
  }

  lemma ClosesPost(s: State, m: State, t: State, setup: Setup, trip: int, stop: int, some: set<int>, carried: set<int>, ids: map<int, int>)
    requires Closes(s, m, t, setup, trip, stop, some, carried, ids)
    ensures Posts(s, t, ByTrip, trip)
  {
    CloseRowsOf(s, setup, trip, m.entries, Ascending(some));
    Appended(s, t, CloseMoves(s, setup, trip, m.entries, Ascending(some)), ByTrip, trip);
  }

  lemma LeavingPosts(s: State, setup: Setup, trip: int)
    requires TablesOk(s, setup) && Depart(s, setup, trip).Ok?
    ensures Posts(s, Depart(s, setup, trip).value, ByTrip, trip)
  {
    var t, some := Depart(s, setup, trip).value, Departing(s, trip);
    Departed(s, setup, trip);
    DepartRowsOf(s, setup, trip, Ascending(some));
    Appended(s, t, DepartMoves(s, setup, trip, Ascending(some)), ByTrip, trip);
  }

  lemma CollectingPosts(s: State, setup: Setup, o: int, proof: bool)
    requires ConfirmPickup(s, setup, o, proof).Ok?
    ensures Posts(s, ConfirmPickup(s, setup, o, proof).value, ByPickup, o)
  {
    var t, keys := ConfirmPickup(s, setup, o, proof).value, Ascending(LinesOf(s, o));
    PickupRowsOf(s, setup, o, keys);
    Appended(s, t, PickupMoves(s, setup, o, keys), ByPickup, o);
  }

  lemma OthersPostNothing(s: State, setup: Setup, call: Call)
    requires Inv(s, setup) && Bounded(call) && Answer(s, setup, call).Ok? && !call.Leave? && !call.Resolve? && !call.HandOver?
    ensures After(s, setup, call).ledger == s.ledger
  {
    if OffTrips(call) {
      DraftingHands(s, setup, call);
    }
  }

  /** A call only adds rows to the ledger: departures and closings rows of their trip, pickups rows of their order,
      and no other call adds any. */
  lemma RowsNameTheirCall(s: State, setup: Setup, call: Call)
    requires Inv(s, setup) && Bounded(call)
    ensures var t := After(s, setup, call);
            && (call.Leave? || call.Resolve? ==> Posts(s, t, ByTrip, call.trip))
            && (call.HandOver? ==> Posts(s, t, ByPickup, call.order))
            && (!call.Leave? && !call.Resolve? && !call.HandOver? ==> t.ledger == s.ledger)
  {
    if Answer(s, setup, call).Ok? {
      if call.Leave? {
        LeavingPosts(s, setup, call.trip);
      } else if call.Resolve? {
        ClosingPosts(s, setup, call.trip, call.stop, call.accepted, call.proof);
      } else if call.HandOver? {
        CollectingPosts(s, setup, call.order, call.proof);
      } else {
        OthersPostNothing(s, setup, call);
      }
    }
  }

  // ----- every call

  lemma ClaimsKeepShelves(s: State, setup: Setup, call: Call)
    requires TablesOk(s, setup) && ShelvesOk(s, setup) && Bounded(call) && Answer(s, setup, call).Ok?
    requires call.Load? || call.Adjust?
    ensures ShelvesOk(After(s, setup, call), setup)
  {
    var t := After(s, setup, call);
    if call.Load? {
      CommitClaims(s, setup, call.trip, call.stop, call.line, call.amount);
      ClaimKeepsShelves(s, t, setup, NextId(s.entries), t.entries[NextId(s.entries)]);
    } else {
      AdjustClaims(s, setup, call.trip, call.entry, call.quantity);
      ClaimKeepsShelves(s, t, setup, call.entry, t.entries[call.entry]);
    }
  }

  lemma ReleasesKeepShelves(s: State, setup: Setup, call: Call)
    requires TablesOk(s, setup) && ShelvesOk(s, setup) && Answer(s, setup, call).Ok?
    requires (call.Unload? && !Strands(s, setup, call)) || call.DropStop? || call.DropTrip?
    ensures ShelvesOk(After(s, setup, call), setup)
  {
    var t := After(s, setup, call);
    if call.Unload? {
      ReleaseFrees(s, setup, call.trip, call.entry);
      FreeKeepsShelves(s, t, setup, {call.entry});
    } else if call.DropStop? {
      RemoveStopFrees(s, setup, call.trip, call.stop);
      FreeKeepsShelves(s, t, setup, EntriesOf(s, call.stop));
    } else {
      CancelTripFrees(s, setup, call.trip);
      FreeKeepsShelves(s, t, setup, EntriesOfTrip(s, call.trip));
    }
  }

  /** After a call every shelf is still down by what was delivered and what is on the road out of it, exactly when
      the call does not strand goods on the road. */
  lemma CallKeepsShelvesExactly(s: State, setup: Setup, call: Call)
    requires Inv(s, setup) && ShelvesOk(s, setup) && Bounded(call) && Answer(s, setup, call).Ok?
    ensures ShelvesOk(After(s, setup, call), setup) <==> !Strands(s, setup, call)
  {
    if Strands(s, setup, call) {
      StrandedFromShelf(s, setup, call.trip, call.entry);
    } else if call.HandOver? {
      PickupKeepsShelves(s, setup, call.order, call.proof);
    } else if OffTrips(call) {
      DraftingKeepsShelves(s, setup, call);
    } else if call.Leave? {
      DepartureKeepsShelves(s, setup, call.trip);
    } else if call.Resolve? {
      CloseKeepsShelves(s, setup, call.trip, call.stop, call.accepted, call.proof);
    } else if call.Load? || call.Adjust? {
      ClaimsKeepShelves(s, setup, call);
    } else {
      ReleasesKeepShelves(s, setup, call);
    }
  }

  lemma {:induction false} RunKeepsShelves(setup: Setup, calls: seq<Call>)
    requires SetupOk(setup) && AllBounded(calls) && NoneStranded(EMPTY, setup, calls)
    ensures ShelvesOk(Run(EMPTY, setup, calls), setup)
  {
    if calls == [] {
      forall w, p ensures ShelfOk(EMPTY, setup, w, p) {
        assert HandedFrom(EMPTY, setup, w, p) == map[] && Out(EMPTY, setup, w, p) == map[];
      }
    } else {
      var rest, last := calls[..|calls| - 1], calls[|calls| - 1];
      assert last in calls;
      RunKeepsShelves(setup, rest);
      ReachableOk(setup, rest);
      if Answer(Run(EMPTY, setup, rest), setup, last).Ok? {
        CallKeepsShelvesExactly(Run(EMPTY, setup, rest), setup, last);
      }
    }
  }

  /** Over every run that strands nothing, deliveries and pickups have taken from each shelf, of each product, what
      its lines delivered and what pending stops of departed trips have aboard out of it. */
  lemma ShelvesFallByDeliveries(setup: Setup, calls: seq<Call>, w: int, p: int)
    requires SetupOk(setup) && AllBounded(calls) && NoneStranded(EMPTY, setup, calls) && w !in setup.transit.Values
    ensures var s := Run(EMPTY, setup, calls);
            Stock(s.ledger, w, p) == -Total(HandedFrom(s, setup, w, p)) - Total(Out(s, setup, w, p))
  {
    RunKeepsShelves(setup, calls);
    assert ShelfOk(Run(EMPTY, setup, calls), setup, w, p);
  }
}
