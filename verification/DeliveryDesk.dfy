/** The delivery desk at work: each operation as it updates the rows, one after another, inside its
    transaction.  A refusal rolls the rows back. */
module DeliveryDesk {
  import opened Outcomes
  import opened Tables
  import opened DeliveryEvents
  import opened Delivery
  import opened DeliveryInvariant
  import DeliveryClosing

  /** Narrow to the requested lines one by one, remembering those already seen. */
  method Narrow(uncovered: map<int, int>, requested: seq<Request>) returns (chosen: Result<seq<Request>, Error>)
    ensures chosen == NarrowTo(uncovered, requested)
  {
    var out: seq<Request> := [];
    var seen: set<int> := {};
    for i := 0 to |requested|
      invariant NarrowTo(uncovered, requested[..i]) == Ok(out)
      invariant forall x :: x in seen <==> exists r :: r in out && r.salesLine == x
    {
      var item := requested[i];
      assert requested[..i + 1][..i] == requested[..i];
      if item.salesLine in seen {
        RefusedStays(uncovered, requested, i + 1);
        return Refused(LineRepeated);
      }
      seen := seen + {item.salesLine};
      if item.salesLine !in uncovered {
        RefusedStays(uncovered, requested, i + 1);
        return Refused(LineNotDeliverable);
      }
      if item.quantity > uncovered[item.salesLine] {
        RefusedStays(uncovered, requested, i + 1);
        return Refused(QuantityExceedsRemaining);
      }
      out := out + [item];
    }
    assert requested[..|requested|] == requested;
    return Ok(out);
  }

  /** The first bad line decides the answer. */
  lemma {:induction false} RefusedStays(uncovered: map<int, int>, requested: seq<Request>, i: int)
    requires 0 <= i <= |requested| && NarrowTo(uncovered, requested[..i]).Refused?
    ensures NarrowTo(uncovered, requested) == NarrowTo(uncovered, requested[..i])
    decreases |requested|
  {
    if i == |requested| {
      assert requested[..i] == requested;
    } else {
      var rest := requested[..|requested| - 1];
      assert rest[..i] == requested[..i];
      RefusedStays(uncovered, rest, i);
    }
  }

  /** Every prefix of a list is of these keys. */
  ghost predicate Within(keys: seq<int>, all: set<int>) {
    forall i, k :: 0 <= i <= |keys| && k in keys[..i] ==> k in all
  }

  function Handed(line: Line): Line {
    line.(delivered := line.quantity, committed := 0)
  }

  /** The first `i` of an order's lines handed over. */
  ghost predicate CollectedUpTo(before: map<int, Line>, after: map<int, Line>, keys: seq<int>, i: int) {
    && 0 <= i <= |keys| && after.Keys == before.Keys
    && (forall j :: 0 <= j < |keys| ==> keys[j] in before)
    && (forall j :: 0 <= j < i ==> after[keys[j]] == Handed(before[keys[j]]))
    && (forall j :: i <= j < |keys| ==> after[keys[j]] == before[keys[j]])
    && (forall l :: l in before && l !in keys ==> after[l] == before[l])
  }

  lemma CollectedNext(before: map<int, Line>, after: map<int, Line>, keys: seq<int>, i: int)
    requires CollectedUpTo(before, after, keys, i) && i < |keys| && Increasing(keys)
    ensures CollectedUpTo(before, after[keys[i] := Handed(after[keys[i]])], keys, i + 1)
  {
  }

  lemma AllCollected(before: map<int, Line>, after: map<int, Line>, order: int, keys: seq<int>)
    requires forall l :: l in keys <==> l in before && before[l].order == order
    requires CollectedUpTo(before, after, keys, |keys|)
    ensures after == Collected(before, order)
  {
    forall l | l in before ensures after[l] == Collected(before, order)[l] {
      if l in keys {
        var j :| 0 <= j < |keys| && keys[j] == l;
      }
    }
  }

  lemma OrderKeys(s: State, order: int)
    ensures var keys := Ascending(LinesOf(s, order));
            && CollectedUpTo(s.lines, s.lines, keys, 0)
            && (forall l :: l in keys <==> l in s.lines && s.lines[l].order == order)
            && Within(keys, s.lines.Keys)
  {
    Listed(LinesOf(s, order));
  }

  /** The first `i` entries frozen. */
  ghost predicate SentUpTo(before: map<int, Entry>, after: map<int, Entry>, keys: seq<int>, i: int) {
    && 0 <= i <= |keys| && after.Keys == before.Keys
    && (forall j :: 0 <= j < |keys| ==> keys[j] in before)
    && (forall j :: 0 <= j < i ==> after[keys[j]] == before[keys[j]].(sent := before[keys[j]].committed))
    && (forall j :: i <= j < |keys| ==> after[keys[j]] == before[keys[j]])
    && (forall e :: e in before && e !in keys ==> after[e] == before[e])
  }

  lemma SentNext(before: map<int, Entry>, after: map<int, Entry>, keys: seq<int>, i: int)
    requires SentUpTo(before, after, keys, i) && i < |keys| && Increasing(keys)
    ensures SentUpTo(before, after[keys[i] := after[keys[i]].(sent := after[keys[i]].committed)], keys, i + 1)
  {
  }

  lemma MovesNext(s: State, setup: Setup, trip: int, keys: seq<int>, i: int)
    requires 0 <= i < |keys| && forall e :: e in keys ==> e in s.entries && s.entries[e].line in s.lines
    ensures keys[i] in keys && (forall e :: e in keys[..i + 1] ==> e in keys) && keys[i] in s.entries
    ensures var entry := s.entries[keys[i]];
            DepartMoves(s, setup, trip, keys[..i + 1])
            == DepartMoves(s, setup, trip, keys[..i]) + DepartMove(setup, trip, s.lines[entry.line], entry.committed)
  {
    var e := keys[i];
    assert e in keys && keys[..i + 1][..i] == keys[..i];
  }

  /** The first `i` entries sent and posted out. */
  ghost predicate SentSoFar(s: State, setup: Setup, trip: int, entries: map<int, Entry>, ledger: seq<Move>, keys: seq<int>, i: int) {
    && SentUpTo(s.entries, entries, keys, i)
    && (forall e :: e in keys[..i] ==> e in s.entries && s.entries[e].line in s.lines)
    && ledger == s.ledger + DepartMoves(s, setup, trip, keys[..i])
  }

  lemma SendNext(s: State, setup: Setup, trip: int, entries: map<int, Entry>, ledger: seq<Move>, keys: seq<int>, i: int)
    requires SentSoFar(s, setup, trip, entries, ledger, keys, i) && i < |keys| && Increasing(keys)
    requires forall e :: e in keys ==> e in s.entries && s.entries[e].line in s.lines
    ensures keys[i] in entries && entries[keys[i]].line in s.lines
    ensures var e, entry := keys[i], entries[keys[i]];
            SentSoFar(s, setup, trip, entries[e := entry.(sent := entry.committed)],
                      ledger + DepartMove(setup, trip, s.lines[entry.line], entry.committed), keys, i + 1)
  {
    SentNext(s.entries, entries, keys, i);
    MovesNext(s, setup, trip, keys, i);
  }

  lemma LinesNext(s: State, setup: Setup, order: int, facility: int, chosen: seq<Request>, i: int)
    requires KnownLines(setup, chosen) && facility in setup.fallback && 0 <= i < |chosen|
    ensures KnownLines(setup, chosen[..i]) && KnownLines(setup, chosen[..i + 1])
    ensures var earlier := AddLines(s, setup, order, facility, chosen[..i]);
            AddLines(s, setup, order, facility, chosen[..i + 1])
            == earlier.(lines := earlier.lines[NextId(earlier.lines) := NewLine(setup, order, facility, chosen[i])])
  {
    assert chosen[..i + 1][..i] == chosen[..i];
  }

  lemma AllSent(s: State, after: map<int, Entry>, keys: seq<int>, some: set<int>)
    requires SentUpTo(s.entries, after, keys, |keys|) && forall e :: e in keys <==> e in some
    ensures after == SentEntries(s, some)
  {
    forall e | e in s.entries ensures after[e] == SentEntries(s, some)[e] {
      if e in keys {
        var j :| 0 <= j < |keys| && keys[j] == e;
      }
    }
  }

  /** Releasing one more entry changes its own line. */
  lemma ReleasedNext(s: State, gone: set<int>, e: int)
    requires e in s.entries && e !in gone
    ensures var entry := s.entries[e];
            var lines := Freed(s.lines, s.entries, gone);
            Freed(s.lines, s.entries, gone + {e}) == if entry.line !in lines then lines
              else lines[entry.line := lines[entry.line].(committed := lines[entry.line].committed - entry.committed)]
  {
    var entry, lines, after := s.entries[e], Freed(s.lines, s.entries, gone), Freed(s.lines, s.entries, gone + {e});
    forall l | l in s.lines
      ensures after[l] == if l == entry.line then lines[l].(committed := lines[l].committed - entry.committed) else lines[l]
    {
      ReleasedLine(s, gone, e, l);
    }
    assert after.Keys == lines.Keys;
    if entry.line in lines {
      assert after == lines[entry.line := lines[entry.line].(committed := lines[entry.line].committed - entry.committed)];
    } else {
      assert after == lines;
    }
  }

  lemma ReleasedLine(s: State, gone: set<int>, e: int, l: int)
    requires e in s.entries && e !in gone && l in s.lines
    ensures var line := Freed(s.lines, s.entries, gone)[l];
            Freed(s.lines, s.entries, gone + {e})[l]
            == if l == s.entries[e].line then line.(committed := line.committed - s.entries[e].committed) else line
  {
    assert gone + {e} - {e} == gone;
    OnLineWithout(s.entries, gone + {e}, e, l, Claim);
  }

  class Desk {
    const setup: Setup
    var orders: map<int, Order>
    var lines: map<int, Line>
    var trips: map<int, Trip>
    var stops: map<int, Stop>
    var entries: map<int, Entry>
    var ledger: seq<Move>

    constructor (setup: Setup)
      ensures this.setup == setup && Rows() == State(map[], map[], map[], map[], map[], [])
    {
      this.setup := setup;
      orders, lines, trips, stops, entries, ledger := map[], map[], map[], map[], map[], [];
    }

    function Rows(): State
      reads this
    {
      State(orders, lines, trips, stops, entries, ledger)
    }

    /** What an operation leaves behind: the new rows, or the old ones and why. */
    ghost predicate Became(before: State, answer: Outcome, error: Option<Error>)
      reads this
    {
      match answer
      case Ok(after) => error == None && Rows() == after
      case Refused(why) => error == Some(why) && Rows() == before
    }

    // ----- orders

    method ReopenLines(order: int)
      modifies this`lines
      ensures lines == Reopened(old(lines), order)
    {
      ghost var was := lines;
      var todo := set l | l in lines && lines[l].order == order;
      while todo != {}
        invariant forall l :: l in todo ==> l in was && was[l].order == order
        invariant lines.Keys == was.Keys
        invariant forall l :: l in was ==>
                    lines[l] == if was[l].order == order && l !in todo then was[l].(returned := 0) else was[l]
        decreases |todo|
      {
        var l := Least(todo);
        lines := lines[l := lines[l].(returned := 0)];
        todo := todo - {l};
      }
      forall l | l in was ensures lines[l] == Reopened(was, order)[l] {
      }
      assert lines == Reopened(was, order);
    }

    method UnclaimLines(order: int)
      modifies this`lines
      ensures lines == Unclaimed(old(lines), order)
    {
      ghost var was := lines;
      var todo := set l | l in lines && lines[l].order == order;
      while todo != {}
        invariant forall l :: l in todo ==> l in was && was[l].order == order
        invariant lines.Keys == was.Keys
        invariant forall l :: l in was ==>
                    lines[l] == if was[l].order == order && l !in todo then was[l].(committed := 0) else was[l]
        decreases |todo|
      {
        var l := Least(todo);
        lines := lines[l := lines[l].(committed := 0)];
        todo := todo - {l};
      }
      forall l | l in was ensures lines[l] == Unclaimed(was, order)[l] {
      }
      assert lines == Unclaimed(was, order);
    }

    /** Hand one line over and post it. */
    method CollectLine(order: int, l: int)
      requires l in lines
      modifies this`lines, this`ledger
      ensures lines == old(lines)[l := Handed(old(lines)[l])]
      ensures ledger == old(ledger) + PickupMove(setup, order, old(lines)[l])
    {
      ledger := ledger + PickupMove(setup, order, lines[l]);
      lines := lines[l := lines[l].(delivered := lines[l].quantity, committed := 0)];
    }

    /** Hand lines over one after another, posting each as it goes. */
    method CollectEach(order: int, keys: seq<int>)
      requires Increasing(keys) && CollectedUpTo(lines, lines, keys, 0) && Within(keys, lines.Keys)
      modifies this`lines, this`ledger
      ensures CollectedUpTo(old(lines), lines, keys, |keys|)
      ensures ledger == old(ledger) + PickupMoves(old(Rows()), setup, order, keys)
    {
      ghost var s := Rows();
      var i := 0;
      while i < |keys|
        invariant CollectedUpTo(s.lines, lines, keys, i)
        invariant ledger == s.ledger + PickupMoves(s, setup, order, keys[..i])
      {
        assert keys[..i + 1][..i] == keys[..i];
        CollectedNext(s.lines, lines, keys, i);
        CollectLine(order, keys[i]);
        i := i + 1;
      }
      assert keys[..|keys|] == keys;
    }

    method CollectLines(order: int)
      modifies this`lines, this`ledger
      ensures lines == Collected(old(lines), order)
      ensures ledger == old(ledger) + PickupMoves(old(Rows()), setup, order, Ascending(LinesOf(old(Rows()), order)))
    {
      var keys := Ascending(LinesOf(Rows(), order));
      OrderKeys(Rows(), order);
      CollectEach(order, keys);
      AllCollected(old(lines), lines, order, keys);
    }

    /** Move one order, recording the move, or say why not. */
    method MoveOrder(order: int, to: Status, reason: bool) returns (error: Option<Error>)
      requires order in orders
      modifies this`orders
      ensures Became(old(Rows()), Moved(old(Rows()), order, to, reason), error)
    {
      var moved := Transition(orders[order], to, reason);
      if moved.Refused? {
        return Some(Moving(moved.error));
      }
      orders := orders[order := moved.value];
      return None;
    }

    method ConfirmOrder(order: int, short: bool) returns (error: Option<Error>)
      modifies this`orders
      ensures Became(old(Rows()), Confirm(old(Rows()), setup, order, short), error)
    {
      if order !in orders {
        return Some(NotFound);
      }
      if orders[order].status != Draft {
        return Some(NotEditable);
      }
      if LinesOf(Rows(), order) == {} {
        return Some(NoLines);
      }
      if short {
        return Some(InsufficientNotice);
      }
      var draft := orders;
      orders := orders[order := Folioed(orders, orders[order])];
      error := MoveOrder(order, if setup.approvalRequired then PendingApproval else BranchTarget(orders[order]), false);
      if error.Some? {
        orders := draft;
      }
    }

    method ApproveOrder(order: int) returns (error: Option<Error>)
      modifies this`orders
      ensures Became(old(Rows()), Approve(old(Rows()), order), error)
    {
      if order !in orders {
        return Some(NotFound);
      }
      if orders[order].status != PendingApproval {
        return Some(NotPendingApproval);
      }
      error := MoveOrder(order, BranchTarget(orders[order]), false);
    }

    method RejectOrder(order: int, reason: bool) returns (error: Option<Error>)
      modifies this`orders
      ensures Became(old(Rows()), Reject(old(Rows()), order, reason), error)
    {
      if order !in orders {
        return Some(NotFound);
      }
      if orders[order].status != PendingApproval {
        return Some(NotPendingApproval);
      }
      error := MoveOrder(order, Draft, reason);
    }

    /** Put a failed delivery back in the loading queue: what came back is open again. */
    method RequeueOrder(order: int) returns (error: Option<Error>)
      modifies this`lines, this`orders
      ensures Became(old(Rows()), Requeue(old(Rows()), order), error)
    {
      if order !in orders {
        return Some(NotFound);
      }
      if orders[order].status != Failed {
        return Some(NotFailed);
      }
      var was := lines;
      ReopenLines(order);
      error := MoveOrder(order, InPreparation, false);
      if error.Some? {
        lines := was;
      }
    }

    /** Retire an order, releasing what it holds. */
    method CancelOrder(order: int, reason: bool) returns (error: Option<Error>)
      modifies this`lines, this`orders
      ensures Became(old(Rows()), Cancel(old(Rows()), order, reason), error)
    {
      if order !in orders {
        return Some(NotFound);
      }
      var was := lines;
      UnclaimLines(order);
      error := MoveOrder(order, Cancelled, reason);
      if error.Some? {
        lines := was;
      }
    }

    /** Hand the goods over the counter. */
    method HandOver(order: int, proof: bool) returns (error: Option<Error>)
      modifies this`lines, this`orders, this`ledger
      ensures Became(old(Rows()), ConfirmPickup(old(Rows()), setup, order, proof), error)
    {
      if order !in orders {
        return Some(NotFound);
      }
      if !proof {
        return Some(ProofIncomplete);
      }
      var wasLines, wasLedger := lines, ledger;
      CollectLines(order);
      error := MoveOrder(order, PickedUp, false);
      if error.Some? {
        lines, ledger := wasLines, wasLedger;
      }
    }

    // ----- trips

    /** Claim some of a line, or all that is open on it. */
    method Load(trip: int, stop: int, line: int, quantity: Option<int>) returns (error: Option<Error>)
      modifies this`lines, this`entries
      ensures Became(old(Rows()), CommitLine(old(Rows()), trip, stop, line, quantity), error)
    {
      if stop !in StopsOf(Rows(), trip) {
        return Some(NotFound);
      }
      if !IsOpen(Rows(), trip) {
        return Some(TripNotOpen);
      }
      if line !in lines {
        return Some(NotFound);
      }
      var remaining := OpenQuantity(lines[line]);
      var requested := quantity.Or(remaining);
      if requested <= 0 {
        return Some(NothingToLoad);
      }
      if requested > remaining {
        return Some(QuantityUnavailable);
      }
      entries := entries[NextId(entries) := Entry(stop, line, requested, 0, 0, 0)];
      lines := lines[line := lines[line].(committed := lines[line].committed + requested)];
      return None;
    }

    method Adjust(trip: int, entry: int, quantity: int) returns (error: Option<Error>)
      modifies this`lines, this`entries
      ensures Became(old(Rows()), AdjustCommitment(old(Rows()), trip, entry, quantity), error)
    {
      if !IsOpen(Rows(), trip) {
        return Some(TripNotOpen);
      }
      if entry !in entries || entries[entry].line !in lines {
        return Some(NotFound);
      }
      var e := entries[entry];
      if quantity > OpenQuantity(lines[e.line]) + e.committed {
        return Some(QuantityUnavailable);
      }
      lines := lines[e.line := lines[e.line].(committed := lines[e.line].committed + (quantity - e.committed))];
      entries := entries[entry := e.(committed := quantity)];
      return None;
    }

    /** Give one claim back and delete it; `gone` are those already given back. */
    method GiveOneBack(e: int, ghost s: State, ghost gone: set<int>)
      requires e in s.entries && e !in gone && entries == s.entries - gone && lines == Freed(s.lines, s.entries, gone)
      modifies this`lines, this`entries
      ensures entries == s.entries - (gone + {e}) && lines == Freed(s.lines, s.entries, gone + {e})
    {
      var entry := entries[e];
      ReleasedNext(s, gone, e);
      if entry.line in lines {
        lines := lines[entry.line := lines[entry.line].(committed := lines[entry.line].committed - entry.committed)];
      }
      entries := entries - {e};
    }

    /** Give claims back, one entry after another, deleting each. */
    method GiveBack(some: set<int>)
      requires some <= entries.Keys
      modifies this`lines, this`entries
      ensures Rows() == Release(old(Rows()), some)
    {
      ghost var s := Rows();
      var todo := some;
      assert some - todo == {};
      while todo != {}
        invariant todo <= some
        invariant entries == s.entries - (some - todo) && lines == Freed(s.lines, s.entries, some - todo)
        decreases |todo|
      {
        var e := Least(todo);
        assert some - (todo - {e}) == (some - todo) + {e};
        GiveOneBack(e, s, some - todo);
        todo := todo - {e};
      }
      assert some - todo == some;
    }

    method Unload(trip: int, entry: int) returns (error: Option<Error>)
      modifies this`lines, this`entries
      ensures Became(old(Rows()), ReleaseCommitment(old(Rows()), trip, entry), error)
    {
      if !IsOpen(Rows(), trip) {
        return Some(TripNotOpen);
      }
      if entry !in entries {
        return Some(NotFound);
      }
      GiveBack({entry});
      return None;
    }

    method DropStop(trip: int, stop: int) returns (error: Option<Error>)
      modifies this`lines, this`entries, this`stops
      ensures Became(old(Rows()), RemoveStop(old(Rows()), trip, stop), error)
    {
      if !IsOpen(Rows(), trip) {
        return Some(TripNotOpen);
      }
      if stop !in StopsOf(Rows(), trip) {
        return Some(NotFound);
      }
      GiveBack(EntriesOf(Rows(), stop));
      stops := stops - {stop};
      return None;
    }

    method DropTrip(trip: int) returns (error: Option<Error>)
      modifies this`lines, this`entries, this`stops, this`trips
      ensures Became(old(Rows()), CancelTrip(old(Rows()), trip), error)
    {
      if !IsOpen(Rows(), trip) {
        return Some(TripNotOpen);
      }
      var leaving := StopsOf(Rows(), trip);
      GiveBack(EntriesOfTrip(Rows(), trip));
      stops := stops - leaving;
      trips := trips[trip := TripCancelled];
      return None;
    }

    method ReadyOrder(order: int) returns (error: Option<Error>)
      modifies this`orders
      ensures Became(old(Rows()), MarkReady(old(Rows()), order), error)
    {
      if order !in orders {
        return Some(NotFound);
      }
      error := MoveOrder(order, ReadyForPickup, false);
    }

    // ----- drafting

    /** What existing orders account for of one sales line. */
    method CoveredQuantity(salesLine: int) returns (covered: int)
      ensures covered == Covered(Rows(), salesLine)
    {
      covered := Sum(Covering(Rows(), salesLine));
    }

    /** What the sale still owes, line by line. */
    method Uncovered(sale: int) returns (uncovered: map<int, int>)
      ensures uncovered == Deliverable(Rows(), setup, sale)
    {
      uncovered := map[];
      var todo := setup.salesLines.Keys;
      ghost var all := Deliverable(Rows(), setup, sale);
      while todo != {}
        invariant todo <= setup.salesLines.Keys
        invariant forall x :: x in uncovered <==> x in all && x !in todo
        invariant forall x :: x in uncovered ==> uncovered[x] == all[x]
        decreases |todo|
      {
        var x := Least(todo);
        if setup.salesLines[x].sale == sale {
          var covered := CoveredQuantity(x);
          if setup.salesLines[x].quantity - covered > 0 {
            uncovered := uncovered[x := setup.salesLines[x].quantity - covered];
          }
        }
        todo := todo - {x};
      }
      forall x ensures x in uncovered.Keys <==> x in all.Keys {
      }
      assert uncovered == all;
    }

    /** One line per chosen request. */
    method AddEach(order: int, facility: int, chosen: seq<Request>)
      requires KnownLines(setup, chosen) && facility in setup.fallback
      modifies this`lines
      ensures Rows() == AddLines(old(Rows()), setup, order, facility, chosen)
    {
      ghost var s := Rows();
      var i := 0;
      while i < |chosen|
        invariant 0 <= i <= |chosen| && KnownLines(setup, chosen[..i])
        invariant Rows() == AddLines(s, setup, order, facility, chosen[..i])
      {
        LinesNext(s, setup, order, facility, chosen, i);
        lines := lines[NextId(lines) := NewLine(setup, order, facility, chosen[i])];
        i := i + 1;
      }
      assert chosen[..|chosen|] == chosen;
    }

    method CheckSale(sale: Sale) returns (error: Option<Error>)
      ensures error == SaleRefusal(setup, sale)
    {
      if !sale.completed || sale.cancelled {
        return Some(SaleNotDeliverable);
      }
      if setup.payFirst && !(sale.paid || sale.credit) {
        return Some(SaleUnpaid);
      }
      return None;
    }

    method Choose(uncovered: map<int, int>, requested: Option<seq<Request>>) returns (chosen: Result<seq<Request>, Error>)
      ensures chosen == Chosen(uncovered, requested)
    {
      chosen := Ok(Everything(uncovered, Ascending(uncovered.Keys)));
      if requested.Some? {
        chosen := Narrow(uncovered, requested.value);
      }
    }

    /** The kind given, or the one the destination says. */
    method Detect(sale: int, given: Option<Fulfillment>, shipTo: Option<int>) returns (kind: Fulfillment)
      requires sale in setup.sales
      ensures kind == KindOf(setup, sale, given, shipTo)
    {
      if given.Some? {
        return given.value;
      }
      var destination := if shipTo.Some? then shipTo else setup.sales[sale].shipTo;
      return if destination.Some? && destination.value in setup.addresses then Pickup else Delivery;
    }

    /** A draft of a sale, with a line per chosen request. */
    method EnterDraft(sale: Sale, kind: Fulfillment, chosen: seq<Request>)
      requires KnownLines(setup, chosen) && sale.facility in setup.fallback
      modifies this`orders, this`lines
      ensures var order := Created(Order(sale.customer, sale.facility, None, Draft, kind, None, []));
              var id := NextId(old(orders));
              Rows() == AddLines(old(Rows()).(orders := old(orders)[id := order]), setup, id, sale.facility, chosen)
    {
      var id := NextId(orders);
      orders := orders[id := Created(Order(sale.customer, sale.facility, None, Draft, kind, None, []))];
      AddEach(id, sale.facility, chosen);
    }

    /** Raise an order for what the sale still owes, or for the part requested. */
    method Raise(sale: int, given: Option<Fulfillment>, shipTo: Option<int>, requested: Option<seq<Request>>)
      returns (error: Option<Error>)
      modifies this`orders, this`lines
      ensures Became(old(Rows()), Create(old(Rows()), setup, sale, KindOf(setup, sale, given, shipTo), requested), error)
    {
      if given == Some(Mixed) {
        return Some(MixedNotAllowed);
      }
      if sale !in setup.sales {
        return Some(NotFound);
      }
      error := CheckSale(setup.sales[sale]);
      if error.Some? {
        return;
      }
      var uncovered := Uncovered(sale);
      if uncovered == map[] {
        return Some(FullyDelivered);
      }
      var chosen := Choose(uncovered, requested);
      if chosen.Refused? {
        return Some(chosen.error);
      }
      var kind := Detect(sale, given, shipTo);
      if setup.sales[sale].facility !in setup.fallback {
        return Some(NoDispatchWarehouse);
      }
      ChosenKnown(Rows(), setup, sale, requested);
      EnterDraft(setup.sales[sale], kind, chosen.value);
      return None;
    }

    method Add(order: int, r: Request) returns (error: Option<Error>)
      modifies this`lines
      ensures Became(old(Rows()), AddLine(old(Rows()), setup, order, r), error)
    {
      if order !in orders {
        return Some(NotFound);
      }
      if orders[order].status != Draft {
        return Some(NotEditable);
      }
      if r.salesLine !in setup.salesLines || setup.salesLines[r.salesLine].sale !in setup.sales
        || setup.sales[setup.salesLines[r.salesLine].sale].customer != orders[order].customer
      {
        return Some(LineNotDeliverable);
      }
      if exists l :: l in LinesOf(Rows(), order) && lines[l].salesLine == Some(r.salesLine) {
        return Some(LineAlreadyPresent);
      }
      var x := setup.salesLines[r.salesLine];
      var elsewhere := CoveredQuantity(r.salesLine);
      if elsewhere + r.quantity > x.quantity {
        return Some(QuantityExceedsRemaining);
      }
      if x.warehouse.None? && orders[order].facility !in setup.fallback {
        return Some(NoDispatchWarehouse);
      }
      var warehouse := if x.warehouse.Some? then x.warehouse.value else setup.fallback[orders[order].facility];
      lines := lines[NextId(lines) := Line(order, Some(r.salesLine), x.product, warehouse, r.quantity, 0, 0, 0)];
      return None;
    }

    method Edit(order: int, line: int, quantity: int) returns (error: Option<Error>)
      modifies this`lines
      ensures Became(old(Rows()), UpdateLine(old(Rows()), setup, order, line, quantity), error)
    {
      if order !in orders {
        return Some(NotFound);
      }
      if orders[order].status != Draft {
        return Some(NotEditable);
      }
      if line !in LinesOf(Rows(), order) {
        return Some(NotFound);
      }
      var x := lines[line].salesLine;
      if x.Some? && x.value in setup.salesLines {
        var covered := CoveredQuantity(x.value);
        if covered - lines[line].quantity + quantity > setup.salesLines[x.value].quantity {
          return Some(QuantityExceedsRemaining);
        }
      }
      lines := lines[line := lines[line].(quantity := quantity)];
      return None;
    }

    method Drop(order: int, line: int) returns (error: Option<Error>)
      modifies this`lines
      ensures Became(old(Rows()), DeleteLine(old(Rows()), order, line), error)
    {
      if order !in orders {
        return Some(NotFound);
      }
      if orders[order].status != Draft {
        return Some(NotEditable);
      }
      if line !in LinesOf(Rows(), order) {
        return Some(NotFound);
      }
      if exists e :: e in entries && entries[e].line == line {
        return Some(StillLoaded);
      }
      lines := lines - {line};
      return None;
    }

    // ----- planning and departing

    method PlanTrip()
      modifies this`trips
      ensures Rows() == CreateTrip(old(Rows()))
    {
      trips := trips[NextId(trips) := TripOpen];
    }

    method PlanStop(trip: int, order: int) returns (error: Option<Error>)
      modifies this`stops
      ensures Became(old(Rows()), AddStop(old(Rows()), trip, order), error)
    {
      if !IsOpen(Rows(), trip) {
        return Some(TripNotOpen);
      }
      if order !in orders {
        return Some(NotFound);
      }
      if orders[order].fulfillment == Pickup {
        return Some(PickupNotLoadable);
      }
      if orders[order].status != InPreparation {
        return Some(NotInPreparation);
      }
      stops := stops[NextId(stops) := Stop(trip, StopPending)];
      return None;
    }

    /** Freeze each entry's quantity and post it out of its shelf, one after another. */
    method SendEach(trip: int, keys: seq<int>)
      requires Increasing(keys) && Within(keys, entries.Keys) && forall e :: e in keys ==> e in entries && entries[e].line in lines
      modifies this`entries, this`ledger
      ensures SentUpTo(old(entries), entries, keys, |keys|)
      ensures ledger == old(ledger) + DepartMoves(old(Rows()), setup, trip, keys)
    {
      ghost var s := Rows();
      var i := 0;
      while i < |keys|
        invariant 0 <= i <= |keys| && SentSoFar(s, setup, trip, entries, ledger, keys, i)
      {
        SendNext(s, setup, trip, entries, ledger, keys, i);
        var entry := entries[keys[i]];
        ledger := ledger + DepartMove(setup, trip, lines[entry.line], entry.committed);
        entries := entries[keys[i] := entry.(sent := entry.committed)];
        i := i + 1;
      }
      assert keys[..|keys|] == keys;
    }

    method SendAll(trip: int, some: set<int>)
      requires OnKnownLines(Rows(), some)
      modifies this`entries, this`ledger
      ensures entries == SentEntries(old(Rows()), some)
      ensures ledger == old(ledger) + DepartMoves(old(Rows()), setup, trip, Ascending(some))
    {
      Listed(some);
      SendEach(trip, Ascending(some));
      AllSent(old(Rows()), entries, Ascending(some), some);
    }

    /** Move orders one after another; the first that cannot be moved undoes them all. */
    method DepartOrders(moving: set<int>) returns (ok: bool)
      modifies this`orders
      ensures ok == AllMovable(old(orders), moving, InTransit)
      ensures if ok then orders == DepartedOrders(old(orders), moving) else orders == old(orders)
    {
      var was := orders;
      var todo := moving * orders.Keys;
      while todo != {}
        invariant todo <= moving * was.Keys && orders.Keys == was.Keys
        invariant forall o :: o in was ==>
                    if o in moving && o !in todo
                    then Transition(was[o], InTransit, false) == Ok(orders[o])
                    else orders[o] == was[o]
        decreases |todo|
      {
        var o := Least(todo);
        var moved := Transition(orders[o], InTransit, false);
        if moved.Refused? {
          orders := was;
          return false;
        }
        orders := orders[o := moved.value];
        todo := todo - {o};
      }
      forall o | o in was ensures orders[o] == DepartedOrders(old(orders), moving)[o] {
      }
      assert orders == DepartedOrders(old(orders), moving);
      return true;
    }

    /** Post everything out and move every order, or nothing at all. */
    method SendOff(trip: int, some: set<int>) returns (ok: bool)
      requires OnKnownLines(Rows(), some)
      modifies this`entries, this`ledger, this`orders
      ensures ok == AllMovable(old(orders), OrdersOf(old(Rows()), some), InTransit)
      ensures if ok
              then && entries == SentEntries(old(Rows()), some)
                   && ledger == old(ledger) + DepartMoves(old(Rows()), setup, trip, Ascending(some))
                   && orders == DepartedOrders(old(orders), OrdersOf(old(Rows()), some))
              else Rows() == old(Rows())
    {
      var wasEntries, wasLedger := entries, ledger;
      var moving := OrdersOf(Rows(), some);
      SendAll(trip, some);
      ok := DepartOrders(moving);
      if !ok {
        entries, ledger := wasEntries, wasLedger;
      }
    }

    method Leave(trip: int) returns (error: Option<Error>)
      modifies this`entries, this`ledger, this`orders, this`trips
      ensures Became(old(Rows()), Depart(old(Rows()), setup, trip), error)
    {
      var some := Departing(Rows(), trip);
      error := LoadRefusal(Rows(), setup, trip, some);
      if error.Some? {
        return;
      }
      var ok := SendOff(trip, some);
      if !ok {
        return Some(Moving(TransitionInvalid));
      }
      trips := trips[trip := TripDeparted];
    }

    /** Record what the customer accepted at a stop, and settle it. */
    method Resolve(trip: int, stop: int, accepted: map<int, Acceptance>, proof: bool) returns (error: Option<Error>)
      modifies this
      ensures Became(old(Rows()), CloseStop(old(Rows()), setup, trip, stop, accepted, proof), error)
    {
      var after := DeliveryClosing.Close(Rows(), setup, trip, stop, accepted, proof);
      error := Put(after);
    }

    /** Store an operation's rows, or refuse and leave them. */
    method Put(after: Outcome) returns (error: Option<Error>)
      modifies this
      ensures Became(old(Rows()), after, error)
    {
      if after.Refused? {
        return Some(after.error);
      }
      var s := after.value;
      orders, lines, trips, stops, entries, ledger := s.orders, s.lines, s.trips, s.stops, s.entries, s.ledger;
      return None;
    }
  }
}
