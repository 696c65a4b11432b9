/** Closing a stop, row by row: the loops that settle entries and lines, post the goods, decide how each
    order came out and split what came back. */
module DeliveryClosing {
  import opened Outcomes
  import opened Tables
  import opened DeliveryEvents
  import opened Delivery
  import opened DeliveryInvariant

  // ----- entries and lines

  lemma NothingSettled(lines: map<int, Line>, entries: map<int, Entry>)
    ensures SettledLines(lines, entries, {}) == lines
  {
    forall l | l in lines ensures SettledLines(lines, entries, {})[l] == lines[l] {
      OnLineEmpty(entries, {}, l, Accepted);
      OnLineEmpty(entries, {}, l, Returned);
      OnLineEmpty(entries, {}, l, Claim);
    }
  }

  /** One entry's part in its line's figures. */
  function LineAfter(line: Line, entry: Entry): Line {
    line.(delivered := line.delivered + entry.delivered, returned := line.returned + entry.returned,
          committed := line.committed - entry.committed)
  }

  lemma SettledNextAt(lines: map<int, Line>, entries: map<int, Entry>, done: set<int>, more: set<int>, e: int, l: int)
    requires e in entries && e !in done && more == done + {e} && l in lines
    ensures SettledLines(lines, entries, more)[l]
         == if l == entries[e].line then LineAfter(SettledLines(lines, entries, done)[l], entries[e])
            else SettledLines(lines, entries, done)[l]
  {
    assert more - {e} == done;
    OnLineWithout(entries, more, e, l, Accepted);
    OnLineWithout(entries, more, e, l, Returned);
    OnLineWithout(entries, more, e, l, Claim);
  }

  lemma SettledNext(lines: map<int, Line>, entries: map<int, Entry>, before: map<int, Line>, done: set<int>, more: set<int>, e: int)
    requires e in entries && e !in done && more == done + {e} && entries[e].line in lines
    requires before == SettledLines(lines, entries, done)
    ensures SettledLines(lines, entries, more) == before[entries[e].line := LineAfter(before[entries[e].line], entries[e])]
  {
    var after := before[entries[e].line := LineAfter(before[entries[e].line], entries[e])];
    forall l | l in lines ensures after[l] == SettledLines(lines, entries, more)[l] {
      SettledNextAt(lines, entries, done, more, e, l);
    }
  }

  /** Some entries settled, and others not yet. */
  ghost predicate EntriesUpTo(before: map<int, Entry>, target: map<int, Entry>, entries: map<int, Entry>, done: set<int>) {
    && entries.Keys == before.Keys == target.Keys
    && (forall e :: e in done && e in before ==> entries[e] == target[e])
    && (forall e :: e in before && e !in done ==> entries[e] == before[e])
  }

  lemma EntriesAllSettled(before: map<int, Entry>, accepted: map<int, Acceptance>, entries: map<int, Entry>)
    requires EntriesUpTo(before, SettledEntries(before, accepted), entries, accepted.Keys)
    ensures entries == SettledEntries(before, accepted)
  {
    forall e | e in before ensures entries[e] == SettledEntries(before, accepted)[e] {
    }
  }

  lemma EntriesNext(before: map<int, Entry>, target: map<int, Entry>, entries: map<int, Entry>, done: set<int>, e: int)
    requires EntriesUpTo(before, target, entries, done) && e in target
    ensures EntriesUpTo(before, target, entries[e := target[e]], done + {e})
  {
  }

  /** One entry records what was accepted and what came back, and its line follows. */
  method SettleOne(lines: map<int, Line>, entries: map<int, Entry>, e: int, accepted: int)
    returns (nextLines: map<int, Line>, nextEntries: map<int, Entry>)
    requires e in entries && entries[e].line in lines
    ensures var entry := SettledEntry(entries[e], accepted);
            && nextEntries == entries[e := entry]
            && nextLines == lines[entry.line := LineAfter(lines[entry.line], entry)]
  {
    var entry := SettledEntry(entries[e], accepted);
    nextEntries := entries[e := entry];
    nextLines := lines[entry.line := LineAfter(lines[entry.line], entry)];
  }

  /** Each entry in turn. */
  method SettleRest(s: State, accepted: map<int, Acceptance>, ghost target: map<int, Entry>)
    returns (lines: map<int, Line>, entries: map<int, Entry>)
    requires OnKnownLines(s, accepted.Keys) && target.Keys == s.entries.Keys
    requires forall e :: e in accepted ==> target[e] == SettledEntry(s.entries[e], accepted[e].delivered)
    ensures EntriesUpTo(s.entries, target, entries, accepted.Keys)
    ensures lines == SettledLines(s.lines, target, accepted.Keys)
  {
    lines, entries := s.lines, s.entries;
    var todo := accepted.Keys;
    ghost var done: set<int> := {};
    NothingSettled(s.lines, target);
    while todo != {}
      invariant todo <= accepted.Keys && done == accepted.Keys - todo
      invariant EntriesUpTo(s.entries, target, entries, done)
      invariant lines == SettledLines(s.lines, target, done)
      decreases |todo|
    {
      var e := Least(todo);
      OneMoreDone(accepted.Keys, todo, e);
      assert e in s.entries && e !in done;
      assert entries[e] == s.entries[e];
      SettledNext(s.lines, target, lines, done, done + {e}, e);
      EntriesNext(s.entries, target, entries, done, e);
      lines, entries := SettleOne(lines, entries, e, accepted[e].delivered);
      todo, done := todo - {e}, done + {e};
    }
    assert done == accepted.Keys;
  }

  /** All of the stop's entries, and their lines. */
  method SettleEach(s: State, accepted: map<int, Acceptance>) returns (lines: map<int, Line>, entries: map<int, Entry>)
    requires OnKnownLines(s, accepted.Keys)
    ensures entries == SettledEntries(s.entries, accepted)
    ensures lines == SettledLines(s.lines, entries, accepted.Keys)
  {
    lines, entries := SettleRest(s, accepted, SettledEntries(s.entries, accepted));
    EntriesAllSettled(s.entries, accepted, entries);
  }

  /** The postings of the stop's entries, in order. */
  method PostEach(s: State, setup: Setup, trip: int, entries: map<int, Entry>, keys: seq<int>) returns (moves: seq<Move>)
    requires forall e :: e in keys ==> e in entries && entries[e].line in s.lines
    ensures moves == CloseMoves(s, setup, trip, entries, keys)
  {
    moves := [];
    var i := 0;
    while i < |keys|
      invariant 0 <= i <= |keys|
      invariant forall e :: e in keys[..i] ==> e in keys
      invariant moves == CloseMoves(s, setup, trip, entries, keys[..i])
    {
      assert keys[..i + 1][..i] == keys[..i];
      var e := keys[i];
      assert e in keys;
      moves := moves + CloseMove(setup, trip, s.lines[entries[e].line], entries[e]);
      i := i + 1;
    }
    assert keys[..|keys|] == keys;
  }

  // ----- orders

  /** How one order came out: what was accepted against what was sent. */
  method Decide(s: State, entries: map<int, Entry>, some: set<int>, order: int) returns (target: Status)
    ensures target == Target(s, entries, some, order)
  {
    var sent := Sum(OrderColumn(s, entries, some, order, Sent));
    var accepted := Sum(OrderColumn(s, entries, some, order, Accepted));
    if accepted == sent {
      target := Delivered;
    } else if accepted == 0 {
      target := Failed;
    } else {
      target := PartiallyDelivered;
    }
  }

  /** The orders moved so far, by what each is to become. */
  ghost predicate OrdersUpTo(before: map<int, Order>, orders: map<int, Order>, targets: map<int, Status>, done: set<int>) {
    && orders.Keys == before.Keys
    && (forall o :: o in before && o !in done ==> orders[o] == before[o])
    && (forall o :: o in done ==> o in before && o in targets && Transition(before[o], targets[o], true) == Ok(orders[o]))
  }

  ghost function Targets(s: State, entries: map<int, Entry>, some: set<int>, seen: set<int>): map<int, Status> {
    map o | o in seen :: Target(s, entries, some, o)
  }

  /** Move one order to how it came out, if it can be. */
  method MoveOne(s: State, entries: map<int, Entry>, some: set<int>, orders: map<int, Order>, o: int,
                 ghost targets: map<int, Status>, ghost done: set<int>)
    returns (ok: bool, next: map<int, Order>, target: Status)
    requires OrdersUpTo(s.orders, orders, targets, done) && o !in done
    requires o in targets && targets[o] == Target(s, entries, some, o)
    ensures ok ==> OrdersUpTo(s.orders, next, targets, done + {o}) && target == targets[o]
    ensures !ok ==> !Movable(s.orders, targets, o)
  {
    target := Decide(s, entries, some, o);
    if o !in orders {
      return false, orders, target;
    }
    var moved := Transition(orders[o], target, true);
    if moved.Refused? {
      return false, orders, target;
    }
    return true, orders[o := moved.value], target;
  }

  ghost predicate Movable(orders: map<int, Order>, targets: map<int, Status>, o: int) {
    o in orders && o in targets && Transition(orders[o], targets[o], true).Ok?
  }

  /** Move every order at the stop to how it came out, noting each outcome, or stop at one that cannot be
      moved. */
  method MoveEach(s: State, entries: map<int, Entry>, some: set<int>, seen: set<int>, ghost targets: map<int, Status>)
    returns (ok: bool, orders: map<int, Order>, outcomes: map<int, Status>, ghost stuck: int)
    requires seen == targets.Keys && forall o :: o in targets ==> targets[o] == Target(s, entries, some, o)
    ensures ok ==> OrdersUpTo(s.orders, orders, targets, seen) && outcomes == targets
    ensures !ok ==> stuck in seen && !Movable(s.orders, targets, stuck)
  {
    orders, outcomes, stuck := s.orders, map[], 0;
    var todo := seen;
    ghost var done: set<int> := {};
    while todo != {}
      invariant todo <= seen && done == seen - todo && OrdersUpTo(s.orders, orders, targets, done)
      invariant Noted(outcomes, targets, done)
      decreases |todo|
    {
      var o := Least(todo);
      OneMoreDone(seen, todo, o);
      NotedNext(outcomes, targets, done, o);
      var moved, next, target := MoveOne(s, entries, some, orders, o, targets, done);
      if !moved {
        return false, orders, outcomes, o;
      }
      orders, outcomes := next, outcomes[o := target];
      todo, done := todo - {o}, done + {o};
    }
    assert done == seen;
    AllNoted(outcomes, targets);
    ok := true;
  }

  ghost predicate Noted(outcomes: map<int, Status>, targets: map<int, Status>, done: set<int>) {
    outcomes.Keys == done && done <= targets.Keys && forall o :: o in done ==> outcomes[o] == targets[o]
  }

  lemma NotedNext(outcomes: map<int, Status>, targets: map<int, Status>, done: set<int>, o: int)
    requires Noted(outcomes, targets, done) && o in targets
    ensures Noted(outcomes[o := targets[o]], targets, done + {o})
  {
  }

  lemma AllNoted(outcomes: map<int, Status>, targets: map<int, Status>)
    requires Noted(outcomes, targets, targets.Keys)
    ensures outcomes == targets
  {
    forall o | o in targets ensures o in outcomes && outcomes[o] == targets[o] {
      assert o in outcomes.Keys;
    }
    assert outcomes == targets;
  }

  lemma MovedAll(s: State, entries: map<int, Entry>, some: set<int>, orders: map<int, Order>)
    requires OnKnownLines(s, some)
    requires OrdersUpTo(s.orders, orders, Targets(s, entries, some, OrdersOf(s, some)), OrdersOf(s, some))
    ensures AllSettle(s, entries, some) && orders == SettledOrders(s, entries, some)
  {
    var targets := Targets(s, entries, some, OrdersOf(s, some));
    forall o | o in OrdersOf(s, some) ensures o in s.orders && Transition(s.orders[o], Target(s, entries, some, o), true) == Ok(orders[o]) {
      assert targets[o] == Target(s, entries, some, o);
    }
    forall o | o in s.orders ensures orders[o] == SettledOrders(s, entries, some)[o] {
    }
  }

  lemma AllOutcomes(s: State, entries: map<int, Entry>, some: set<int>, outcomes: map<int, Status>)
    requires OnKnownLines(s, some) && outcomes == Targets(s, entries, some, OrdersOf(s, some))
    ensures (set o | o in outcomes && outcomes[o] == PartiallyDelivered) == Partial(s, entries, some)
    ensures ResultOf(outcomes) == StopResult(s, entries, some)
  {
    PartialOutcomes(s, entries, some, outcomes);
  }

  lemma PartialOutcomes(s: State, entries: map<int, Entry>, some: set<int>, outcomes: map<int, Status>)
    requires OnKnownLines(s, some) && outcomes.Keys == OrdersOf(s, some)
    requires forall o :: o in OrdersOf(s, some) ==> outcomes[o] == Target(s, entries, some, o)
    ensures (set o | o in outcomes && outcomes[o] == PartiallyDelivered) == Partial(s, entries, some)
  {
    var a := set o | o in outcomes && outcomes[o] == PartiallyDelivered;
    forall o ensures o in a <==> o in Partial(s, entries, some) {
    }
  }

  /** What a stop's outcomes come to. */
  function ResultOf(outcomes: map<int, Status>): StopOutcome {
    if forall o :: o in outcomes ==> outcomes[o] == Delivered then StopDelivered
    else if forall o :: o in outcomes ==> outcomes[o] == Failed then StopFailed
    else StopPartial
  }

  /** Settle every order at the stop. */
  method SettleOrders(s: State, entries: map<int, Entry>, some: set<int>)
    returns (ok: bool, orders: map<int, Order>, partial: set<int>, outcome: StopOutcome)
    requires OnKnownLines(s, some)
    ensures ok == AllSettle(s, entries, some)
    ensures ok ==> orders == SettledOrders(s, entries, some) && partial == Partial(s, entries, some)
                   && outcome == StopResult(s, entries, some)
  {
    var seen := OrdersOf(s, some);
    var outcomes: map<int, Status>;
    ghost var stuck: int;
    ok, orders, outcomes, stuck := MoveEach(s, entries, some, seen, Targets(s, entries, some, seen));
    if ok {
      MovedAll(s, entries, some, orders);
      AllOutcomes(s, entries, some, outcomes);
      partial := set o | o in outcomes && outcomes[o] == PartiallyDelivered;
      outcome := ResultOf(outcomes);
    } else {
      partial, outcome := {}, StopPartial;
    }
  }

  // ----- splits

  /** A child for each parent, one after another. */
  method AddChildrenEach(orders: map<int, Order>, first: int, parents: seq<int>, children: map<int, Order>)
    returns (more: map<int, Order>, ids: map<int, int>)
    requires forall o :: o in parents ==> o in children
    ensures more == AddChildren(orders, first, parents, children) && ids == ChildIds(first, parents)
  {
    more, ids := orders, map[];
    var i := 0;
    while i < |parents|
      invariant 0 <= i <= |parents|
      invariant forall o :: o in parents[..i] ==> o in children
      invariant more == AddChildren(orders, first, parents[..i], children) && ids == ChildIds(first, parents[..i])
    {
      assert parents[..i + 1][..i] == parents[..i];
      var o := parents[i];
      assert o in parents;
      more, ids := more[first + i := Folioed(more, children[o])], ids[o := first + i];
      i := i + 1;
    }
    assert parents[..|parents|] == parents;
  }

  lemma RemaindersNext(s: State, children: map<int, int>, carried: seq<int>, next: seq<int>, e: int)
    requires next == carried + [e] && Carriable(s, children, next)
    ensures Carriable(s, children, carried)
    ensures e in s.entries && s.entries[e].line in s.lines && s.lines[s.entries[e].line].order in children
    ensures var earlier := AddRemainders(s, children, carried);
            AddRemainders(s, children, next) == earlier[NextId(earlier) := ChildLine(s, children, e)]
  {
    assert next[..|next| - 1] == carried;
    assert e in next;
    forall k | k in carried ensures k in next {
    }
  }

  /** A line for each remainder, one after another. */
  method AddRemaindersEach(s: State, children: map<int, int>, carried: seq<int>) returns (lines: map<int, Line>)
    requires Carriable(s, children, carried)
    ensures lines == AddRemainders(s, children, carried)
  {
    lines := s.lines;
    var i := 0;
    while i < |carried|
      invariant 0 <= i <= |carried| && Carriable(s, children, carried[..i])
      invariant lines == AddRemainders(s, children, carried[..i])
    {
      var e := carried[i];
      RemaindersNext(s, children, carried[..i], carried[..i + 1], e);
      lines := lines[NextId(lines) := ChildLine(s, children, e)];
      i := i + 1;
    }
    assert carried[..|carried|] == carried;
  }

  method SplitOff(s: State, parents: set<int>, carried: set<int>) returns (after: Outcome)
    requires parents <= s.orders.Keys
    requires forall e :: e in carried ==> e in s.entries && s.entries[e].line in s.lines && s.lines[s.entries[e].line].order in parents
    ensures after == Split(s, parents, carried)
  {
    if !CanSplit(s.orders, parents) {
      return Refused(Moving(TransitionInvalid));
    }
    var orders, ids := AddChildrenEach(s.orders, NextId(s.orders), Ascending(parents), ChildrenOf(s.orders, parents));
    ChildIdsOf(NextId(s.orders), Ascending(parents));
    var lines := AddRemaindersEach(s, ids, Ascending(carried));
    return Ok(s.(orders := orders, lines := lines));
  }

  // ----- the stop

  /** Settle the stop, once nothing is in the way. */
  method Settle(s: State, setup: Setup, trip: int, stop: int, accepted: map<int, Acceptance>)
    returns (ok: bool, m: State, partial: set<int>)
    requires OnKnownLines(s, accepted.Keys) && stop in s.stops && trip in s.trips
    ensures ok == AllSettle(s, SettledEntries(s.entries, accepted), accepted.Keys)
    ensures ok ==> m == Settled(s, setup, trip, stop, accepted)
                   && partial == Partial(s, SettledEntries(s.entries, accepted), accepted.Keys)
  {
    var some := accepted.Keys;
    var lines, entries := SettleEach(s, accepted);
    var moves := PostEach(s, setup, trip, entries, Ascending(some));
    var orders, outcome;
    ok, orders, partial, outcome := SettleOrders(s, entries, some);
    m := State(orders, lines, TripAfter(s, trip, stop), s.stops[stop := s.stops[stop].(outcome := outcome)], entries, s.ledger + moves);
  }

  method Close(s: State, setup: Setup, trip: int, stop: int, accepted: map<int, Acceptance>, proof: bool) returns (after: Outcome)
    ensures after == CloseStop(s, setup, trip, stop, accepted, proof)
  {
    var refusal := CloseRefusal(s, setup, trip, stop, accepted, proof);
    if refusal.Some? {
      return Refused(refusal.value);
    }
    var some := accepted.Keys;
    var ok, m, partial := Settle(s, setup, trip, stop, accepted);
    if !ok {
      return Refused(Moving(TransitionInvalid));
    }
    var carried := CarriedOver(s, m.entries, some, partial);
    after := SplitOff(m, OrdersOf(s, carried), carried);
  }

  /** The entries something came back of, among those of partly delivered orders. */
  function CarriedOver(s: State, entries: map<int, Entry>, some: set<int>, partial: set<int>): (carried: set<int>)
    requires OnKnownLines(s, some)
    ensures partial == Partial(s, entries, some) ==> carried == Remainder(s, entries, some)
  {
    set e | e in some && e in entries && entries[e].returned > 0 && s.lines[s.entries[e].line].order in partial
  }
}
