/** Planning trips, and claiming goods for them or giving them back, keep the invariant, whoever's the
    claim is. */
module DeliveryTravel {
  import opened Outcomes
  import opened Tables
  import opened DeliveryEvents
  import opened Delivery
  import opened DeliveryInvariant
  import opened DeliveryKeeps

  // ----- planning

  /** New trips and stops; the old ones as they were. */
  ghost predicate Plans(s: State, t: State) {
    && t.orders == s.orders && t.lines == s.lines && t.entries == s.entries && t.ledger == s.ledger
    && (forall k :: k in s.trips ==> k in t.trips && t.trips[k] == s.trips[k])
    && (forall p :: p in s.stops ==> p in t.stops && t.stops[p] == s.stops[p])
    && (forall p :: p in t.stops && p !in s.stops ==> StopOk(t, p))
  }

  lemma PlanKeeps(s: State, t: State, setup: Setup)
    requires Inv(s, setup) && Plans(s, t)
    ensures Inv(t, setup)
  {
    forall l | l in t.lines ensures t.lines[l].order in t.orders && LineOk(t, setup, l) {
      LineKept(s, t, setup, l);
    }
    forall e | e in t.entries ensures EntryOk(t, setup, e) {
      assert EntryOk(s, setup, e);
      EntryKept(s, t, setup, e);
    }
    forall p | p in t.stops ensures StopOk(t, p) {
      if p in s.stops {
        assert StopOk(s, p);
      }
    }
    StockSame(s, t, setup);
    CoverFalls(s, t, setup);
  }

  lemma CreateTripKeeps(s: State, setup: Setup)
    requires Inv(s, setup)
    ensures Inv(CreateTrip(s), setup)
  {
    PlanKeeps(s, CreateTrip(s), setup);
  }

  lemma AddStopPlans(s: State, t: State, trip: int, id: int)
    requires IsOpen(s, trip) && id !in s.stops && t == s.(stops := s.stops[id := Stop(trip, StopPending)])
    ensures Plans(s, t)
  {
    forall p | p in t.stops && p !in s.stops ensures StopOk(t, p) {
      assert t.stops[p] == Stop(trip, StopPending);
    }
  }

  lemma AddStopKeeps(s: State, setup: Setup, trip: int, o: int)
    requires Inv(s, setup) && AddStop(s, trip, o).Ok?
    ensures Inv(AddStop(s, trip, o).value, setup)
  {
    var t := AddStop(s, trip, o).value;
    AddStopPlans(s, t, trip, NextId(s.stops));
    PlanKeeps(s, t, setup);
  }

  // ----- claims

  function ClaimOf(s: State, e: int): int {
    if e in s.entries then s.entries[e].committed else 0
  }

  /** Only committed figures differ, of lines and of entries, new ones aside. */
  ghost predicate OnlyClaims(s: State, t: State) {
    && t.orders == s.orders && t.ledger == s.ledger && t.lines.Keys == s.lines.Keys
    && (forall l :: l in s.lines ==> t.lines[l] == s.lines[l].(committed := t.lines[l].committed))
  }

  lemma OnlyClaimsKeep(s: State, t: State, setup: Setup)
    requires Inv(s, setup) && OnlyClaims(s, t)
    requires forall e :: e in t.entries ==> EntryOk(t, setup, e)
    requires forall p :: p in t.stops ==> StopOk(t, p)
    ensures Inv(t, setup)
  {
    forall l | l in t.lines ensures t.lines[l].order in t.orders && LineOk(t, setup, l) {
      assert LineOk(s, setup, l);
    }
    StockSame(s, t, setup);
    CoverFalls(s, t, setup);
  }

  /** One entry written, new or not, by a claim on its line. */
  ghost predicate Claims(s: State, t: State, e: int, c: Entry) {
    && c.line in s.lines && c.stop in s.stops && c.committed > 0
    && (e in s.entries ==> s.entries[e] == c.(committed := s.entries[e].committed))
    && (e !in s.entries ==> c.sent == 0 && c.delivered == 0 && c.returned == 0 && IsOpen(s, s.stops[c.stop].trip))
    && t == s.(entries := s.entries[e := c],
               lines := s.lines[c.line := s.lines[c.line].(
                 committed := s.lines[c.line].committed + c.committed - ClaimOf(s, e))])
  }

  lemma ClaimKeeps(s: State, t: State, setup: Setup, e: int, c: Entry)
    requires Inv(s, setup) && Claims(s, t, e, c)
    ensures Inv(t, setup)
  {
    assert LineOk(s, setup, c.line) && StopOk(s, c.stop);
    forall k | k in t.entries ensures EntryOk(t, setup, k) {
      assert k in s.entries ==> EntryOk(s, setup, k);
    }
    forall p | p in t.stops ensures StopOk(t, p) {
      assert StopOk(s, p);
    }
    OnlyClaimsKeep(s, t, setup);
  }

  /** The entry's stop is still to be made. */
  predicate Awaited(s: State, entry: Entry) {
    entry.stop in s.stops && s.stops[entry.stop].outcome == StopPending
  }

  lemma HeldAfter(s: State, t: State, e: int, c: Entry, l: int)
    requires Claims(s, t, e, c)
    ensures Held(t, l) == Held(s, l) + if c.line == l && Awaited(s, c) then c.committed - ClaimOf(s, e) else 0
  {
    var a, b := Column(s.entries, Pending(s), l, Claim), Column(t.entries, Pending(t), l, Claim);
    forall k | k != e ensures k in a <==> k in b {
    }
    forall k | k in a && k in b && k != e ensures a[k] == b[k] {
      assert a[k] == Amount(s.entries[k], Claim) && b[k] == Amount(t.entries[k], Claim);
    }
    TotalBut(a, b, e);
    assert e in b <==> c.line == l && Awaited(s, c);
    assert e in a <==> e in s.entries && c.line == l && Awaited(s, c);
    if e in b {
      assert b[e] == Amount(c, Claim);
      assert e in s.entries ==> a[e] == Amount(s.entries[e], Claim);
    }
  }

  lemma CommitClaims(s: State, setup: Setup, trip: int, stop: int, line: int, quantity: Option<int>)
    requires CommitLine(s, trip, stop, line, quantity).Ok?
    ensures Claims(s, CommitLine(s, trip, stop, line, quantity).value, NextId(s.entries),
                   Entry(stop, line, quantity.Or(OpenQuantity(s.lines[line])), 0, 0, 0))
  {
  }

  lemma AdjustClaims(s: State, setup: Setup, trip: int, e: int, quantity: int)
    requires TablesOk(s, setup) && quantity > 0 && AdjustCommitment(s, trip, e, quantity).Ok?
    ensures Claims(s, AdjustCommitment(s, trip, e, quantity).value, e, s.entries[e].(committed := quantity))
  {
    assert EntryOk(s, setup, e);
  }

  lemma CommitLineKeeps(s: State, setup: Setup, trip: int, stop: int, line: int, quantity: Option<int>)
    requires Inv(s, setup) && CommitLine(s, trip, stop, line, quantity).Ok?
    ensures Inv(CommitLine(s, trip, stop, line, quantity).value, setup)
  {
    var t := CommitLine(s, trip, stop, line, quantity).value;
    CommitClaims(s, setup, trip, stop, line, quantity);
    ClaimKeeps(s, t, setup, NextId(s.entries), t.entries[NextId(s.entries)]);
  }

  lemma AdjustKeeps(s: State, setup: Setup, trip: int, e: int, quantity: int)
    requires Inv(s, setup) && quantity > 0 && AdjustCommitment(s, trip, e, quantity).Ok?
    ensures Inv(AdjustCommitment(s, trip, e, quantity).value, setup)
  {
    var t := AdjustCommitment(s, trip, e, quantity).value;
    AdjustClaims(s, setup, trip, e, quantity);
    ClaimKeeps(s, t, setup, e, t.entries[e]);
  }

  // ----- giving claims back

  /** Some entries released, and whatever stops and trips go with them are left without entries. */
  ghost predicate Frees(s: State, t: State, some: set<int>) {
    && some <= s.entries.Keys
    && t.orders == s.orders && t.ledger == s.ledger
    && t.entries == Release(s, some).entries && t.lines == Release(s, some).lines
    && (forall p :: p in t.stops ==> p in s.stops && t.stops[p] == s.stops[p])
    && (forall e :: e in t.entries && t.entries[e].stop in s.stops ==>
          && t.entries[e].stop in t.stops
          && (s.stops[t.entries[e].stop].trip in s.trips ==>
                && s.stops[t.entries[e].stop].trip in t.trips
                && t.trips[s.stops[t.entries[e].stop].trip] == s.trips[s.stops[t.entries[e].stop].trip]))
    && (forall p :: p in t.stops ==> StopOk(t, p))
  }

  /** The claims released are no longer held, unless their stop was made before. */
  lemma HeldFreed(s: State, t: State, some: set<int>, l: int)
    requires Frees(s, t, some)
    ensures Held(t, l) == Held(s, l) - OnLine(s.entries, some * Pending(s), l, Claim)
  {
    var part := some * Pending(s);
    OnLineSplit(s.entries, Pending(s), part, l, Claim);
    forall e ensures e in Pending(t) <==> e in Pending(s) && e !in some {
      assert e in t.entries <==> e in s.entries && e !in some;
    }
    assert Pending(t) == Pending(s) - part;
    OnLineSame(s.entries, t.entries, Pending(s) - part, Pending(t), l, Claim);
  }

  lemma ClaimsNotNegative(s: State, setup: Setup, some: set<int>, l: int)
    requires TablesOk(s, setup)
    ensures OnLine(s.entries, some, l, Claim) >= 0
  {
    forall e | e in some && e in s.entries ensures Amount(s.entries[e], Claim) >= 0 {
      assert EntryOk(s, setup, e);
    }
    OnLineNonNegative(s.entries, some, l, Claim);
  }

  lemma FreeKeeps(s: State, t: State, setup: Setup, some: set<int>)
    requires Inv(s, setup) && Frees(s, t, some)
    ensures Inv(t, setup)
  {
    assert OnlyClaims(s, t);
    forall e | e in t.entries ensures EntryOk(t, setup, e) {
      assert EntryOk(s, setup, e);
      EntryKept(s, t, setup, e);
    }
    OnlyClaimsKeep(s, t, setup);
  }

  lemma ReleaseFrees(s: State, setup: Setup, trip: int, e: int)
    requires TablesOk(s, setup) && ReleaseCommitment(s, trip, e).Ok?
    ensures Frees(s, ReleaseCommitment(s, trip, e).value, {e})
  {
    var t := ReleaseCommitment(s, trip, e).value;
    forall p | p in t.stops ensures StopOk(t, p) {
      assert StopOk(s, p);
    }
  }

  lemma RemoveStopFrees(s: State, setup: Setup, trip: int, stop: int)
    requires TablesOk(s, setup) && RemoveStop(s, trip, stop).Ok?
    ensures Frees(s, RemoveStop(s, trip, stop).value, EntriesOf(s, stop))
    ensures EntriesOf(s, stop) <= Pending(s)
  {
    var t := RemoveStop(s, trip, stop).value;
    forall p | p in t.stops ensures StopOk(t, p) {
      assert StopOk(s, p);
    }
    assert StopOk(s, stop);
  }

  lemma CancelTripFrees(s: State, setup: Setup, trip: int)
    requires TablesOk(s, setup) && CancelTrip(s, trip).Ok?
    ensures Frees(s, CancelTrip(s, trip).value, EntriesOfTrip(s, trip))
    ensures EntriesOfTrip(s, trip) <= Pending(s)
  {
    var t := CancelTrip(s, trip).value;
    forall p | p in t.stops ensures StopOk(t, p) {
      assert StopOk(s, p);
    }
    forall e | e in EntriesOfTrip(s, trip) ensures e in Pending(s) {
      assert StopOk(s, s.entries[e].stop);
    }
  }

  lemma ReleaseKeeps(s: State, setup: Setup, trip: int, e: int)
    requires Inv(s, setup) && ReleaseCommitment(s, trip, e).Ok?
    ensures Inv(ReleaseCommitment(s, trip, e).value, setup)
  {
    ReleaseFrees(s, setup, trip, e);
    FreeKeeps(s, ReleaseCommitment(s, trip, e).value, setup, {e});
  }

  lemma RemoveStopKeeps(s: State, setup: Setup, trip: int, stop: int)
    requires Inv(s, setup) && RemoveStop(s, trip, stop).Ok?
    ensures Inv(RemoveStop(s, trip, stop).value, setup)
  {
    RemoveStopFrees(s, setup, trip, stop);
    FreeKeeps(s, RemoveStop(s, trip, stop).value, setup, EntriesOf(s, stop));
  }

  lemma CancelTripKeeps(s: State, setup: Setup, trip: int)
    requires Inv(s, setup) && CancelTrip(s, trip).Ok?
    ensures Inv(CancelTrip(s, trip).value, setup)
  {
    CancelTripFrees(s, setup, trip);
    FreeKeeps(s, CancelTrip(s, trip).value, setup, EntriesOfTrip(s, trip));
  }
}
