/** Orders being drafted, moved and retired, and trips being planned, keep the invariant. */
module DeliveryKeeps {
  import opened Outcomes
  import opened Tables
  import opened DeliveryEvents
  import opened Delivery
  import opened DeliveryInvariant

  // ----- what a step that leaves something alone keeps of it

  lemma LineKept(s: State, t: State, setup: Setup, l: int)
    requires l in s.lines && s.lines[l].order in s.orders && LineOk(s, setup, l)
    requires l in t.lines && t.lines[l] == s.lines[l] && t.lines[l].order in t.orders
    requires t.orders[t.lines[l].order].status == s.orders[s.lines[l].order].status
    ensures LineOk(t, setup, l)
  {
  }

  /** Lines keep what an entry looks at, whatever happens to their figures. */
  ghost predicate SameGoods(a: Line, b: Line) {
    a.order == b.order && a.salesLine == b.salesLine && a.product == b.product && a.warehouse == b.warehouse
  }

  lemma EntryKept(s: State, t: State, setup: Setup, e: int)
    requires e in s.entries && e in t.entries && t.entries[e] == s.entries[e] && EntryOk(s, setup, e)
    requires s.entries[e].line in t.lines && SameGoods(t.lines[s.entries[e].line], s.lines[s.entries[e].line])
    requires t.lines[s.entries[e].line].order in t.orders
    requires Travelled(s.orders[s.lines[s.entries[e].line].order].status)
             ==> Travelled(t.orders[t.lines[s.entries[e].line].order].status)
    requires s.entries[e].stop in t.stops && t.stops[s.entries[e].stop] == s.stops[s.entries[e].stop]
    requires s.stops[s.entries[e].stop].trip in t.trips
    requires t.trips[s.stops[s.entries[e].stop].trip] == s.trips[s.stops[s.entries[e].stop].trip]
    ensures EntryOk(t, setup, e)
  {
  }

  lemma HandedOverSame(s: State, t: State, setup: Setup, p: int)
    requires t.lines.Keys == s.lines.Keys
    requires forall l :: l in s.lines ==>
               t.lines[l].product == s.lines[l].product && t.lines[l].delivered == s.lines[l].delivered
    ensures Total(HandedOver(t, setup, p)) == Total(HandedOver(s, setup, p))
  {
    var a, b := HandedOver(t, setup, p), HandedOver(s, setup, p);
    assert a.Keys == t.lines.Keys && b.Keys == s.lines.Keys;
    forall l | l in a ensures a[l] == b[l] {
      assert l in t.lines && l in s.lines;
      assert a[l] == Stocked(t.lines[l], setup, p, t.lines[l].delivered);
      assert b[l] == Stocked(s.lines[l], setup, p, s.lines[l].delivered);
    }
    TotalSame(a, b);
  }

  lemma StockSame(s: State, t: State, setup: Setup)
    requires StockOk(s, setup) && t.lines.Keys == s.lines.Keys
    requires forall p :: TotalStock(t.ledger, p) == TotalStock(s.ledger, p)
    requires forall l :: l in s.lines ==>
               t.lines[l].product == s.lines[l].product && t.lines[l].delivered == s.lines[l].delivered
    ensures StockOk(t, setup)
  {
    forall p ensures TotalStock(t.ledger, p) == -Total(HandedOver(t, setup, p)) {
      HandedOverSame(s, t, setup, p);
    }
  }

  lemma CoverFalls(s: State, t: State, setup: Setup)
    requires CoverOk(s, setup) && t.lines.Keys == s.lines.Keys
    requires forall l, x :: l in s.lines ==> NetOf(t, l, x) <= NetOf(s, l, x)
    ensures CoverOk(t, setup)
  {
    forall x | x in setup.salesLines ensures Total(Net(t, x)) <= setup.salesLines[x].quantity {
      TotalMonotone(Net(t, x), Net(s, x));
    }
  }

  // ----- one order's status and its lines' figures

  ghost predicate Rewrites(s: State, t: State, o: int) {
    && o in s.orders && t.orders.Keys == s.orders.Keys
    && (forall k :: k in s.orders && k != o ==> t.orders[k] == s.orders[k])
    && t.lines.Keys == s.lines.Keys
    && (forall l :: l in s.lines && s.lines[l].order != o ==> t.lines[l] == s.lines[l])
    && (forall l :: l in s.lines && s.lines[l].order == o ==>
          SameGoods(t.lines[l], s.lines[l]) && t.lines[l].quantity == s.lines[l].quantity)
    && t.trips == s.trips && t.stops == s.stops && t.entries == s.entries
  }

  lemma RewriteKeepsTables(s: State, t: State, setup: Setup, o: int)
    requires TablesOk(s, setup) && Rewrites(s, t, o) && OrderOk(t.orders[o])
    requires forall l :: l in LinesOf(s, o) ==> LineOk(t, setup, l)
    requires Travelled(s.orders[o].status) ==> Travelled(t.orders[o].status)
    ensures TablesOk(t, setup)
  {
    forall l | l in t.lines ensures t.lines[l].order in t.orders && LineOk(t, setup, l) {
      if s.lines[l].order == o {
        assert l in LinesOf(s, o);
      } else {
        LineKept(s, t, setup, l);
      }
    }
    forall e | e in t.entries ensures EntryOk(t, setup, e) {
      assert EntryOk(s, setup, e);
      EntryKept(s, t, setup, e);
    }
    forall p | p in t.stops ensures StopOk(t, p) {
      assert StopOk(s, p);
    }
  }

  /** A status that says nothing about deliveries. */
  predicate Quiet(status: Status) {
    !HasDelivered(status) && !HasReturned(status)
  }

  /** Moves that only change an order's status. */
  lemma QuietMoveKeeps(s: State, setup: Setup, o: int, to: Status, reason: bool)
    requires Inv(s, setup) && o in s.orders && Moved(s, o, to, reason).Ok?
    requires Quiet(s.orders[o].status) && Quiet(to)
    requires Travelled(s.orders[o].status) ==> Travelled(to)
    ensures Inv(Moved(s, o, to, reason).value, setup)
  {
    var t := Moved(s, o, to, reason).value;
    TransitionRecords(s.orders[o], to, reason);
    forall l | l in LinesOf(s, o) ensures LineOk(t, setup, l) {
      assert LineOk(s, setup, l);
    }
    RewriteKeepsTables(s, t, setup, o);
    StockSame(s, t, setup);
    CoverFalls(s, t, setup);
  }

  lemma FolioKeeps(s: State, setup: Setup, o: int)
    requires Inv(s, setup) && o in s.orders
    ensures Inv(WithFolio(s, o), setup)
  {
    var t := WithFolio(s, o);
    FolioRecorded(s.orders[o], t.orders[o].serial);
    forall l | l in LinesOf(s, o) ensures LineOk(t, setup, l) {
      assert LineOk(s, setup, l);
    }
    RewriteKeepsTables(s, t, setup, o);
    StockSame(s, t, setup);
    CoverFalls(s, t, setup);
  }

  lemma FolioRecorded(order: Order, serial: Option<int>)
    requires Recorded(order)
    ensures Recorded(order.(serial := serial))
  {
    forall i | 1 <= i < |order.events| ensures FollowsOn(order.(serial := serial), i) {
      assert FollowsOn(order, i);
    }
  }

  lemma ConfirmKeeps(s: State, setup: Setup, o: int, short: bool)
    requires Inv(s, setup) && Confirm(s, setup, o, short).Ok?
    ensures Inv(Confirm(s, setup, o, short).value, setup)
  {
    FolioKeeps(s, setup, o);
    QuietMoveKeeps(WithFolio(s, o), setup, o, if setup.approvalRequired then PendingApproval else BranchTarget(s.orders[o]), false);
  }

  lemma ApproveKeeps(s: State, setup: Setup, o: int)
    requires Inv(s, setup) && Approve(s, o).Ok?
    ensures Inv(Approve(s, o).value, setup)
  {
    QuietMoveKeeps(s, setup, o, BranchTarget(s.orders[o]), false);
  }

  lemma RejectKeeps(s: State, setup: Setup, o: int, reason: bool)
    requires Inv(s, setup) && Reject(s, o, reason).Ok?
    ensures Inv(Reject(s, o, reason).value, setup)
  {
    QuietMoveKeeps(s, setup, o, Draft, reason);
  }

  lemma MarkReadyKeeps(s: State, setup: Setup, o: int)
    requires Inv(s, setup) && MarkReady(s, o).Ok?
    ensures Inv(MarkReady(s, o).value, setup)
  {
    QuietMoveKeeps(s, setup, o, ReadyForPickup, false);
  }

  lemma RequeueLines(s: State, t: State, setup: Setup, o: int, l: int)
    requires TablesOk(s, setup) && l in LinesOf(s, o)
    requires Requeue(s, o).Ok? && t == Requeue(s, o).value
    ensures LineOk(t, setup, l)
  {
    assert LineOk(s, setup, l);
  }

  lemma RequeueCover(s: State, t: State, setup: Setup, o: int)
    requires CoverOk(s, setup) && Rewrites(s, t, o)
    requires s.orders[o].status == Failed && t.orders[o].status == InPreparation
    requires forall l :: l in s.lines ==> t.lines[l] == s.lines[l].(returned := t.lines[l].returned)
    ensures CoverOk(t, setup)
  {
    CoverFalls(s, t, setup);
  }

  lemma RequeueKeeps(s: State, setup: Setup, o: int)
    requires Inv(s, setup) && Requeue(s, o).Ok?
    ensures Inv(Requeue(s, o).value, setup)
  {
    var t := Requeue(s, o).value;
    TransitionRecords(s.orders[o], InPreparation, false);
    forall l | l in LinesOf(s, o) ensures LineOk(t, setup, l) {
      RequeueLines(s, t, setup, o, l);
    }
    RewriteKeepsTables(s, t, setup, o);
    StockSame(s, t, setup);
    RequeueCover(s, t, setup, o);
  }

  /** What a cancelled order delivered and got back stays on its lines. */
  lemma CancelLines(s: State, t: State, setup: Setup, o: int, reason: bool, l: int)
    requires TablesOk(s, setup) && l in LinesOf(s, o)
    requires Cancel(s, o, reason).Ok? && t == Cancel(s, o, reason).value
    ensures LineOk(t, setup, l)
  {
    assert LineOk(s, setup, l);
  }

  lemma CancelCover(s: State, t: State, setup: Setup, o: int)
    requires TablesOk(s, setup) && CoverOk(s, setup) && Rewrites(s, t, o)
    requires s.orders[o].status != PartiallyDelivered && t.orders[o].status == Cancelled
    requires forall l :: l in s.lines ==> t.lines[l] == s.lines[l].(committed := t.lines[l].committed)
    ensures CoverOk(t, setup)
  {
    forall l, x | l in s.lines ensures NetOf(t, l, x) <= NetOf(s, l, x) {
      assert LineOk(s, setup, l);
    }
    CoverFalls(s, t, setup);
  }

  lemma CancelKeeps(s: State, setup: Setup, o: int, reason: bool)
    requires Inv(s, setup) && Cancel(s, o, reason).Ok?
    ensures Inv(Cancel(s, o, reason).value, setup)
  {
    var t := Cancel(s, o, reason).value;
    TransitionRecords(s.orders[o], Cancelled, reason);
    forall l | l in LinesOf(s, o) ensures LineOk(t, setup, l) {
      CancelLines(s, t, setup, o, reason, l);
    }
    RewriteKeepsTables(s, t, setup, o);
    StockSame(s, t, setup);
    CancelCover(s, t, setup, o);
  }

  // ----- counter pickup

  lemma {:induction false} TripStockAppend(a: seq<Move>, b: seq<Move>, w: int, p: int)
    ensures TripStock(a + b, w, p) == TripStock(a, w, p) + TripStock(b, w, p)
  {
    if b == [] {
      assert a + b == a;
    } else {
      assert (a + b)[..|a + b| - 1] == a + b[..|b| - 1];
      TripStockAppend(a, b[..|b| - 1], w, p);
    }
  }

  lemma {:induction false} TotalStockAppend(a: seq<Move>, b: seq<Move>, p: int)
    ensures TotalStock(a + b, p) == TotalStock(a, p) + TotalStock(b, p)
  {
    if b == [] {
      assert a + b == a;
    } else {
      assert (a + b)[..|a + b| - 1] == a + b[..|b| - 1];
      TotalStockAppend(a, b[..|b| - 1], p);
    }
  }

  /** What a pickup hands over of a product, line by line. */
  ghost function PickedUpOf(s: State, setup: Setup, keys: seq<int>, p: int): map<int, int>
    requires forall l :: l in keys ==> l in s.lines
  {
    map l | l in keys :: Stocked(s.lines[l], setup, p, s.lines[l].quantity)
  }

  lemma PickedUpLast(s: State, setup: Setup, keys: seq<int>, p: int)
    requires Increasing(keys) && keys != [] && forall l :: l in keys ==> l in s.lines
    ensures var last := keys[|keys| - 1];
            Total(PickedUpOf(s, setup, keys, p))
            == Total(PickedUpOf(s, setup, keys[..|keys| - 1], p)) + Stocked(s.lines[last], setup, p, s.lines[last].quantity)
  {
    var rest, last := keys[..|keys| - 1], keys[|keys| - 1];
    var before, now := PickedUpOf(s, setup, rest, p), PickedUpOf(s, setup, keys, p);
    assert keys == rest + [last];
    forall l | l != last ensures l in before <==> l in now {
    }
    forall l | l in before && l in now ensures before[l] == now[l] {
      assert before[l] == Stocked(s.lines[l], setup, p, s.lines[l].quantity);
    }
    TotalBut(before, now, last);
  }

  lemma {:induction false} PickupPosts(s: State, setup: Setup, o: int, keys: seq<int>, w: int, p: int)
    requires Increasing(keys) && forall l :: l in keys ==> l in s.lines
    ensures TripStock(PickupMoves(s, setup, o, keys), w, p) == 0
    ensures TotalStock(PickupMoves(s, setup, o, keys), p) == -Total(PickedUpOf(s, setup, keys, p))
  {
    if keys == [] {
      assert PickedUpOf(s, setup, keys, p) == map[];
    } else {
      var rest, last := keys[..|keys| - 1], keys[|keys| - 1];
      assert last in keys;
      PickupPosts(s, setup, o, rest, w, p);
      var moves := PickupMove(setup, o, s.lines[last]);
      TripStockAppend(PickupMoves(s, setup, o, rest), moves, w, p);
      TotalStockAppend(PickupMoves(s, setup, o, rest), moves, p);
      assert moves != [] ==> moves[..0] == [];
      PickedUpLast(s, setup, keys, p);
    }
  }

  lemma PickupHandsOver(s: State, t: State, setup: Setup, keys: seq<int>, p: int)
    requires t.lines.Keys == s.lines.Keys && forall l :: l in keys ==> l in s.lines
    requires forall l :: l in s.lines ==>
               && t.lines[l].product == s.lines[l].product
               && t.lines[l].delivered == s.lines[l].delivered + if l in keys then s.lines[l].quantity else 0
    ensures Total(HandedOver(t, setup, p)) == Total(HandedOver(s, setup, p)) + Total(PickedUpOf(s, setup, keys, p))
  {
    var picked := PickedUpOf(s, setup, keys, p);
    var a, b, c := HandedOver(s, setup, p), Padded(picked, s.lines.Keys), HandedOver(t, setup, p);
    TotalPadded(picked, s.lines.Keys);
    forall l | l in s.lines ensures c[l] == a[l] + b[l] {
      assert a[l] == Stocked(s.lines[l], setup, p, s.lines[l].delivered);
      assert c[l] == Stocked(t.lines[l], setup, p, t.lines[l].delivered);
      assert b[l] == if l in keys then Stocked(s.lines[l], setup, p, s.lines[l].quantity) else 0;
    }
    TotalSum(a, b, c);
  }

  lemma PickupStock(s: State, t: State, setup: Setup, o: int)
    requires StockOk(s, setup) && t.lines.Keys == s.lines.Keys
    requires forall l :: l in s.lines ==> t.lines[l].product == s.lines[l].product
    requires forall l :: l in s.lines ==>
               t.lines[l].delivered == s.lines[l].delivered + if s.lines[l].order == o then s.lines[l].quantity else 0
    requires t.ledger == s.ledger + PickupMoves(s, setup, o, Ascending(LinesOf(s, o)))
    ensures StockOk(t, setup)
  {
    var keys := Ascending(LinesOf(s, o));
    forall p ensures TotalStock(t.ledger, p) == -Total(HandedOver(t, setup, p)) {
      PickupPosts(s, setup, o, keys, 0, p);
      TotalStockAppend(s.ledger, PickupMoves(s, setup, o, keys), p);
      PickupHandsOver(s, t, setup, keys, p);
    }
  }

  /** A pickup's orders are never on a trip: nothing has been delivered or sent back before. */
  lemma PickupLines(s: State, t: State, setup: Setup, o: int, proof: bool, l: int)
    requires TablesOk(s, setup) && l in LinesOf(s, o)
    requires ConfirmPickup(s, setup, o, proof).Ok? && t == ConfirmPickup(s, setup, o, proof).value
    ensures LineOk(t, setup, l) && s.lines[l].delivered == 0
    ensures forall x :: NetOf(t, l, x) <= NetOf(s, l, x)
  {
    assert LineOk(s, setup, l);
  }

  lemma PickupRewrites(s: State, t: State, setup: Setup, o: int, proof: bool)
    requires ConfirmPickup(s, setup, o, proof).Ok? && t == ConfirmPickup(s, setup, o, proof).value
    ensures Rewrites(s, t, o) && t.orders[o].status == PickedUp
  {
  }

  lemma PickupCover(s: State, t: State, setup: Setup, o: int)
    requires CoverOk(s, setup) && Rewrites(s, t, o)
    requires forall l :: l in LinesOf(s, o) ==> forall x :: NetOf(t, l, x) <= NetOf(s, l, x)
    ensures CoverOk(t, setup)
  {
    forall l, x | l in s.lines ensures NetOf(t, l, x) <= NetOf(s, l, x) {
      if s.lines[l].order == o {
        assert l in LinesOf(s, o);
      }
    }
    CoverFalls(s, t, setup);
  }

  lemma PickupKeeps(s: State, setup: Setup, o: int, proof: bool)
    requires Inv(s, setup) && ConfirmPickup(s, setup, o, proof).Ok?
    ensures Inv(ConfirmPickup(s, setup, o, proof).value, setup)
  {
    var t := ConfirmPickup(s, setup, o, proof).value;
    var keys := Ascending(LinesOf(s, o));
    TransitionRecords(s.orders[o], PickedUp, false);
    forall l | l in LinesOf(s, o)
      ensures LineOk(t, setup, l) && s.lines[l].delivered == 0
      ensures forall x :: NetOf(t, l, x) <= NetOf(s, l, x)
    {
      PickupLines(s, t, setup, o, proof, l);
    }
    PickupRewrites(s, t, setup, o, proof);
    RewriteKeepsTables(s, t, setup, o);
    PickupStock(s, t, setup, o);
    PickupCover(s, t, setup, o);
  }

  // ----- drafting

  lemma NetWithinQuantity(s: State, setup: Setup, l: int, x: int)
    requires TablesOk(s, setup) && l in s.lines
    ensures NetOf(s, l, x) <= if l in Covering(s, x) then Covering(s, x)[l] else 0
  {
    assert LineOk(s, setup, l);
  }

  /** What is covered never falls short of what can still be delivered. */
  lemma NetWithinCovered(s: State, setup: Setup, x: int)
    requires TablesOk(s, setup)
    ensures Total(Net(s, x)) <= Covered(s, x)
  {
    var covering := Covering(s, x);
    var padded := Padded(covering, s.lines.Keys);
    TotalPadded(covering, s.lines.Keys);
    forall l | l in s.lines ensures Net(s, x)[l] <= padded[l] {
      NetWithinQuantity(s, setup, l, x);
    }
    TotalMonotone(Net(s, x), padded);
  }

  ghost predicate NoEntryOn(s: State, l: int) {
    forall e :: e in s.entries ==> s.entries[e].line != l
  }

  /** One line inserted, changed in its figures, or deleted when no entry is on it. */
  ghost predicate EditsLine(s: State, t: State, l: int) {
    && t.orders == s.orders && t.trips == s.trips && t.stops == s.stops && t.entries == s.entries
    && t.ledger == s.ledger
    && (NoEntryOn(s, l) || (l in s.lines && l in t.lines && SameGoods(t.lines[l], s.lines[l])))
    && (forall k :: k != l ==> (k in t.lines <==> k in s.lines))
    && (forall k :: k in s.lines && k != l ==> t.lines[k] == s.lines[k])
  }

  /** A line nothing has happened to yet. */
  ghost predicate Untouched(line: Line, setup: Setup) {
    && line.quantity >= 0 && line.delivered == 0 && line.returned == 0 && line.committed == 0
    && (line.salesLine.Some? ==> line.salesLine.value in setup.salesLines)
    && line.warehouse !in setup.transit.Values
  }

  lemma EditKeepsTables(s: State, t: State, setup: Setup, l: int)
    requires TablesOk(s, setup) && EditsLine(s, t, l)
    requires l in t.lines ==> t.lines[l].order in s.orders && LineOk(t, setup, l)
    ensures TablesOk(t, setup)
  {
    forall k | k in t.lines ensures t.lines[k].order in t.orders && LineOk(t, setup, k) {
      if k != l {
        LineKept(s, t, setup, k);
      }
    }
    forall e | e in t.entries ensures EntryOk(t, setup, e) {
      EntryKept(s, t, setup, e);
    }
    forall p | p in t.stops ensures StopOk(t, p) {
      assert StopOk(s, p);
    }
  }

  lemma HandedOverBut(s: State, t: State, setup: Setup, l: int, p: int)
    requires EditsLine(s, t, l)
    requires l in s.lines ==> s.lines[l].delivered == 0
    requires l in t.lines ==> t.lines[l].delivered == 0
    ensures Total(HandedOver(t, setup, p)) == Total(HandedOver(s, setup, p))
  {
    var a, b := HandedOver(s, setup, p), HandedOver(t, setup, p);
    assert a.Keys == s.lines.Keys && b.Keys == t.lines.Keys;
    if l in s.lines {
      assert a[l] == Stocked(s.lines[l], setup, p, s.lines[l].delivered);
    }
    if l in t.lines {
      assert b[l] == Stocked(t.lines[l], setup, p, t.lines[l].delivered);
    }
    forall k | k in a && k in b && k != l ensures a[k] == b[k] {
      assert a[k] == Stocked(s.lines[k], setup, p, s.lines[k].delivered);
      assert b[k] == Stocked(t.lines[k], setup, p, t.lines[k].delivered);
    }
    forall k | k != l ensures k in a <==> k in b {
      assert k in a <==> k in s.lines;
      assert k in b <==> k in t.lines;
    }
    TotalBut(a, b, l);
  }

  lemma EditKeepsStock(s: State, t: State, setup: Setup, l: int)
    requires StockOk(s, setup) && EditsLine(s, t, l)
    requires l in s.lines ==> s.lines[l].delivered == 0
    requires l in t.lines ==> t.lines[l].delivered == 0
    ensures StockOk(t, setup)
  {
    forall p ensures TotalStock(t.ledger, p) == -Total(HandedOver(t, setup, p)) {
      HandedOverBut(s, t, setup, l, p);
    }
  }

  /** What the edited line counts for, before and after. */
  lemma EditNet(s: State, t: State, l: int, x: int)
    requires EditsLine(s, t, l)
    ensures Total(Net(t, x)) == Total(Net(s, x))
              - (if l in s.lines then NetOf(s, l, x) else 0) + (if l in t.lines then NetOf(t, l, x) else 0)
  {
    TotalBut(Net(s, x), Net(t, x), l);
  }

  /** A new line, of whatever order. */
  lemma InsertKeepsTables(s: State, t: State, setup: Setup, l: int, line: Line)
    requires TablesOk(s, setup) && StockOk(s, setup)
    requires l !in s.lines && t == s.(lines := s.lines[l := line])
    requires line.order in s.orders && Untouched(line, setup)
    ensures TablesOk(t, setup) && StockOk(t, setup)
    ensures forall x :: Total(Net(t, x)) == Total(Net(s, x)) + NetOf(t, l, x)
  {
    forall e | e in s.entries ensures s.entries[e].line != l {
      assert EntryOk(s, setup, e);
    }
    EditKeepsTables(s, t, setup, l);
    EditKeepsStock(s, t, setup, l);
    forall x ensures Total(Net(t, x)) == Total(Net(s, x)) + NetOf(t, l, x) {
      EditNet(s, t, l, x);
    }
  }

  lemma InsertKeeps(s: State, t: State, setup: Setup, l: int, line: Line)
    requires Inv(s, setup) && l !in s.lines && t == s.(lines := s.lines[l := line])
    requires line.order in s.orders && s.orders[line.order].status == Draft && Untouched(line, setup)
    requires line.salesLine.Some? && line.salesLine.value in setup.salesLines
    requires Covered(s, line.salesLine.value) + line.quantity <= setup.salesLines[line.salesLine.value].quantity
    ensures Inv(t, setup)
  {
    InsertKeepsTables(s, t, setup, l, line);
    forall x | x in setup.salesLines ensures Total(Net(t, x)) <= setup.salesLines[x].quantity {
      NetWithinCovered(s, setup, x);
    }
  }

  lemma AddLineKeeps(s: State, setup: Setup, o: int, r: Request)
    requires Inv(s, setup) && SetupOk(setup) && r.quantity >= 0 && AddLine(s, setup, o, r).Ok?
    ensures Inv(AddLine(s, setup, o, r).value, setup)
  {
    var t := AddLine(s, setup, o, r).value;
    InsertKeeps(s, t, setup, NextId(s.lines), t.lines[NextId(s.lines)]);
  }

  lemma UpdateLineKeeps(s: State, setup: Setup, o: int, l: int, quantity: int)
    requires Inv(s, setup) && quantity >= 0 && UpdateLine(s, setup, o, l, quantity).Ok?
    ensures Inv(UpdateLine(s, setup, o, l, quantity).value, setup)
  {
    var t := UpdateLine(s, setup, o, l, quantity).value;
    assert LineOk(s, setup, l);
    EditKeepsTables(s, t, setup, l);
    EditKeepsStock(s, t, setup, l);
    forall x | x in setup.salesLines ensures Total(Net(t, x)) <= setup.salesLines[x].quantity {
      EditNet(s, t, l, x);
      NetWithinCovered(s, setup, x);
    }
  }

  lemma DeleteLineKeeps(s: State, setup: Setup, o: int, l: int)
    requires Inv(s, setup) && DeleteLine(s, o, l).Ok?
    ensures Inv(DeleteLine(s, o, l).value, setup)
  {
    var t := DeleteLine(s, o, l).value;
    assert LineOk(s, setup, l);
    EditKeepsTables(s, t, setup, l);
    EditKeepsStock(s, t, setup, l);
    forall x | x in setup.salesLines ensures Total(Net(t, x)) <= setup.salesLines[x].quantity {
      EditNet(s, t, l, x);
    }
  }

  // ----- raising an order

  /** New orders, without lines yet. */
  lemma MoreOrdersKeep(s: State, t: State, setup: Setup)
    requires TablesOk(s, setup) && StockOk(s, setup)
    requires t == s.(orders := t.orders)
    requires forall o :: o in s.orders ==> o in t.orders && t.orders[o] == s.orders[o]
    requires forall o :: o in t.orders ==> OrderOk(t.orders[o])
    ensures TablesOk(t, setup) && StockOk(t, setup)
    ensures forall x :: Total(Net(t, x)) == Total(Net(s, x))
  {
    forall l | l in t.lines ensures t.lines[l].order in t.orders && LineOk(t, setup, l) {
      LineKept(s, t, setup, l);
    }
    forall e | e in t.entries ensures EntryOk(t, setup, e) {
      assert EntryOk(s, setup, e);
      EntryKept(s, t, setup, e);
    }
    forall p | p in t.stops ensures StopOk(t, p) {
      assert StopOk(s, p);
    }
    StockSame(s, t, setup);
    forall x ensures Total(Net(t, x)) == Total(Net(s, x)) {
      TotalSame(Net(t, x), Net(s, x));
    }
  }

  lemma CoveredSame(s: State, t: State, x: int)
    requires t.lines == s.lines
    requires forall l :: l in s.lines ==> Live(t, l) == Live(s, l)
    ensures Covered(t, x) == Covered(s, x)
  {
    TotalSame(Covering(t, x), Covering(s, x));
  }

  lemma CreatedCovers(s: State, t: State, setup: Setup, id: int, order: Order)
    requires TablesOk(s, setup) && id !in s.orders && t == s.(orders := s.orders[id := order])
    ensures forall x :: Covered(t, x) == Covered(s, x)
  {
    forall l | l in s.lines ensures Live(t, l) == Live(s, l) {
      assert LineOk(s, setup, l);
    }
    forall x ensures Covered(t, x) == Covered(s, x) {
      CoveredSame(s, t, x);
    }
  }

  lemma RaisedKeeps(s: State, t: State, setup: Setup, id: int, order: Order)
    requires Inv(s, setup) && id !in s.orders && t == s.(orders := s.orders[id := order]) && OrderOk(order)
    ensures Inv(t, setup)
    ensures forall x :: Covered(t, x) == Covered(s, x)
  {
    MoreOrdersKeep(s, t, setup);
    CreatedCovers(s, t, setup, id, order);
  }

  lemma CoveredWith(s: State, t: State, l: int, line: Line, x: int)
    requires l !in s.lines && t == s.(lines := s.lines[l := line])
    requires line.salesLine != Some(x)
    ensures Covered(t, x) == Covered(s, x)
  {
    TotalSame(Covering(t, x), Covering(s, x));
  }

  /** Lines chosen within what is uncovered, each once, cover no sales line beyond its quantity. */
  lemma {:induction false} AddLinesKeeps(s: State, setup: Setup, o: int, facility: int, chosen: seq<Request>)
    requires Inv(s, setup) && SetupOk(setup) && facility in setup.fallback && KnownLines(setup, chosen)
    requires o in s.orders && s.orders[o].status == Draft
    requires forall r :: r in chosen ==> r.quantity >= 0 && Covered(s, r.salesLine) + r.quantity <= setup.salesLines[r.salesLine].quantity
    requires forall i, j :: 0 <= i < j < |chosen| ==> chosen[i].salesLine != chosen[j].salesLine
    ensures var t := AddLines(s, setup, o, facility, chosen);
            && Inv(t, setup) && t.orders == s.orders
            && forall x :: (forall r :: r in chosen ==> r.salesLine != x) ==> Covered(t, x) == Covered(s, x)
  {
    if chosen != [] {
      var rest, last := chosen[..|chosen| - 1], chosen[|chosen| - 1];
      assert last in chosen;
      AddLinesKeeps(s, setup, o, facility, rest);
      var earlier := AddLines(s, setup, o, facility, rest);
      var t := AddLines(s, setup, o, facility, chosen);
      var id, line := NextId(earlier.lines), NewLine(setup, o, facility, last);
      forall r | r in rest ensures r.salesLine != last.salesLine {
        var i :| 0 <= i < |rest| && rest[i] == r;
        assert chosen[i] == r && chosen[|chosen| - 1] == last;
      }
      InsertKeeps(earlier, t, setup, id, line);
      forall x | forall r :: r in chosen ==> r.salesLine != x ensures Covered(t, x) == Covered(s, x) {
        CoveredWith(earlier, t, id, line, x);
      }
    }
  }

  lemma CreateParts(s: State, t: State, setup: Setup, sale: int, fulfillment: Fulfillment, requested: Option<seq<Request>>)
    returns (facility: int, order: Order, chosen: seq<Request>)
    requires Create(s, setup, sale, fulfillment, requested).Ok?
    requires t == Create(s, setup, sale, fulfillment, requested).value
    ensures Chosen(Deliverable(s, setup, sale), requested) == Ok(chosen)
    ensures facility in setup.fallback && KnownLines(setup, chosen)
    ensures order.status == Draft && OrderOk(order) && order.serial == None
    ensures sale in setup.sales && facility == order.facility == setup.sales[sale].facility
    ensures order.customer == setup.sales[sale].customer && order.fulfillment == fulfillment && order.parent == None
    ensures t == AddLines(s.(orders := s.orders[NextId(s.orders) := order]), setup, NextId(s.orders), facility, chosen)
  {
    ChosenKnown(s, setup, sale, requested);
    facility := setup.sales[sale].facility;
    order := Created(Order(setup.sales[sale].customer, facility, None, Draft, fulfillment, None, []));
    chosen := Chosen(Deliverable(s, setup, sale), requested).value;
    NewOrderOk(setup.sales[sale].customer, facility, fulfillment);
  }

  lemma NewOrderOk(customer: int, facility: int, fulfillment: Fulfillment)
    requires fulfillment != Mixed
    ensures var order := Created(Order(customer, facility, None, Draft, fulfillment, None, []));
            order.status == Draft && OrderOk(order) && order.serial == None
  {
  }

  lemma CreateKeeps(s: State, setup: Setup, sale: int, fulfillment: Fulfillment, requested: Option<seq<Request>>)
    requires Inv(s, setup) && SetupOk(setup)
    requires requested.Some? ==> forall r :: r in requested.value ==> r.quantity >= 0
    requires Create(s, setup, sale, fulfillment, requested).Ok?
    ensures Inv(Create(s, setup, sale, fulfillment, requested).value, setup)
  {
    var t := Create(s, setup, sale, fulfillment, requested).value;
    var facility, order, chosen := CreateParts(s, t, setup, sale, fulfillment, requested);
    var id := NextId(s.orders);
    var raised := s.(orders := s.orders[id := order]);
    RaisedKeeps(s, raised, setup, id, order);
    ChosenWithin(Deliverable(s, setup, sale), requested);
    ChosenNotNegative(Deliverable(s, setup, sale), requested);
    AddLinesKeeps(raised, setup, id, facility, chosen);
  }

  lemma ChosenNotNegative(uncovered: map<int, int>, requested: Option<seq<Request>>)
    requires Chosen(uncovered, requested).Ok? && forall k :: k in uncovered ==> uncovered[k] >= 0
    requires requested.Some? ==> forall r :: r in requested.value ==> r.quantity >= 0
    ensures forall r :: r in Chosen(uncovered, requested).value ==> r.quantity >= 0
  {
    ChosenWithin(uncovered, requested);
    if requested.None? {
      EverythingListed(uncovered, Ascending(uncovered.Keys));
    }
  }
}
