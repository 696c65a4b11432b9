/** The stock desk at work: totals gathered line by line, shortages looked for in order, and the documents
    and ledger updated in place. */
module StockDesk {
  import opened Outcomes
  import opened Tables
  import opened InventoryDocuments

  lemma TotalsNext(lines: seq<Line>, next: seq<Line>, line: Line)
    requires next == lines + [line]
    ensures Totals(next) == Totals(lines)[line.product := Quantity(lines, line.product) + line.quantity]
  {
    assert next[..|next| - 1] == lines;
    var a, b := Totals(next), Totals(lines)[line.product := Quantity(lines, line.product) + line.quantity];
    forall p ensures p in Products(next) <==> p in Products(lines) || p == line.product {
      if p in Products(lines) {
        var l :| l in lines && l.product == p;
        assert l in next;
      }
      assert line in next;
    }
    forall p ensures p in a <==> p in b {
    }
    forall p | p in a ensures a[p] == b[p] {
    }
  }

  /** What each product's lines add up to. */
  method PerProductTotals(lines: seq<Line>) returns (totals: map<int, int>)
    ensures totals == Totals(lines)
  {
    totals := map[];
    assert Products([]) == {};
    for i := 0 to |lines|
      invariant totals == Totals(lines[..i])
    {
      var line := lines[i];
      TotalsNext(lines[..i], lines[..i + 1], line);
      if line.product !in Products(lines[..i]) {
        NoLineNoTotal(lines[..i], line.product);
      }
      totals := totals[line.product := (if line.product in totals then totals[line.product] else 0) + line.quantity];
    }
    assert lines[..|lines|] == lines;
  }

  /** The opposite of each row, in order. */
  method ReversalEntries(entries: seq<Entry>) returns (reversal: seq<Entry>)
    ensures reversal == Reversed(entries)
  {
    reversal := [];
    for i := 0 to |entries|
      invariant reversal == Reversed(entries[..i])
    {
      assert entries[..i + 1][..i] == entries[..i];
      reversal := reversal + [Opposite(entries[i])];
    }
    assert entries[..|entries|] == entries;
  }

  /** What each place nets to, row by row. */
  ghost predicate Nets(entries: seq<Entry>, net: map<(int, int), int>) {
    forall place :: place in net ==> net[place] == Net(entries, place.0, place.1)
  }

  lemma NetsNext(entries: seq<Entry>, next: seq<Entry>, entry: Entry, net: map<(int, int), int>)
    requires next == entries + [entry] && Nets(entries, net) && net.Keys == Places(entries)
    ensures var place := (entry.warehouse, entry.product);
            var after := net[place := Net(entries, entry.warehouse, entry.product) + entry.quantity];
            Nets(next, after) && after.Keys == Places(next)
  {
    assert next[..|next| - 1] == entries;
    var place := (entry.warehouse, entry.product);
    forall q ensures q in Places(next) <==> q in Places(entries) || q == place {
      if q in Places(entries) {
        var e :| e in entries && (e.warehouse, e.product) == q;
        assert e in next;
      }
      assert entry in next;
    }
  }

  /** What a reversal takes out, net, by place; what it brings in, and what cancels out, left out. */
  method NetOutbound(reversal: seq<Entry>) returns (taken: map<(int, int), int>)
    ensures forall w, p :: (w, p) in taken <==> Net(reversal, w, p) < 0
    ensures forall w, p :: (w, p) in taken ==> taken[(w, p)] == -Net(reversal, w, p)
  {
    var net: map<(int, int), int> := map[];
    assert Places([]) == {};
    for i := 0 to |reversal|
      invariant net.Keys == Places(reversal[..i]) && Nets(reversal[..i], net)
    {
      var entry := reversal[i];
      var place := (entry.warehouse, entry.product);
      NetsNext(reversal[..i], reversal[..i + 1], entry, net);
      if place !in net {
        NoPlaceNoNet(reversal[..i], entry.warehouse, entry.product);
      }
      net := net[place := (if place in net then net[place] else 0) + entry.quantity];
    }
    assert reversal[..|reversal|] == reversal;
    taken := map place | place in net && net[place] < 0 :: -net[place];
    forall w, p ensures (w, p) in taken <==> Net(reversal, w, p) < 0 {
      if (w, p) !in net {
        NoPlaceNoNet(reversal, w, p);
      }
    }
  }

  class Desk {
    const setup: Setup
    var documents: map<Id, Document>
    var lines: map<Id, seq<Line>>
    var ledger: seq<Entry>

    constructor (setup: Setup, documents: map<Id, Document>, lines: map<Id, seq<Line>>, ledger: seq<Entry>)
      ensures this.setup == setup && Now() == State(documents, lines, ledger)
    {
      this.setup, this.documents, this.lines, this.ledger := setup, documents, lines, ledger;
    }

    function Now(): State
      reads this
    {
      State(documents, lines, ledger)
    }

    ghost predicate Became(before: State, answer: Outcome, refusal: Option<Refusal>)
      reads this
    {
      match answer
      case Ok(after) => refusal == None && Now() == after
      case Refused(why) => refusal == Some(why) && Now() == before
    }

    /** Refuse when any product would go below what can still be promised: the lowest such product. */
    method CheckAvailable(required: map<int, int>, warehouse: int) returns (refusal: Option<Refusal>)
      ensures refusal == ShortageOf(Now(), setup, warehouse, required)
    {
      ghost var short := Short(Now(), setup, warehouse, required);
      var todo := required.Keys;
      while todo != {}
        invariant todo <= required.Keys && short <= todo
        decreases |todo|
      {
        var p := Least(todo);
        if Available(Now(), setup, warehouse, p) < required[p] {
          assert p in short;
          assert Least(short) == p;
          return Some(InsufficientStock(warehouse, p));
        }
        todo := todo - {p};
      }
      return None;
    }

    /** The first line that cannot be posted. */
    method CheckLines(lines: seq<Line>) returns (refusal: Option<Refusal>)
      ensures refusal == FirstBadLine(setup, lines)
    {
      var i := 0;
      while i < |lines|
        invariant 0 <= i <= |lines| && FirstBadLine(setup, lines) == FirstBadLine(setup, lines[i..])
      {
        assert lines[i..][1..] == lines[i + 1..];
        refusal := LineRefusal(setup, lines[i]);
        if refusal.Some? {
          return;
        }
        i := i + 1;
      }
      return None;
    }

    /** Post a row per line. */
    method PostLines(id: Id, warehouse: int, lines: seq<Line>, outbound: bool)
      modifies this`ledger
      ensures ledger == old(ledger) + Posted(id, warehouse, lines, outbound)
    {
      for i := 0 to |lines|
        invariant ledger == old(ledger) + Posted(id, warehouse, lines[..i], outbound)
      {
        assert lines[..i + 1][..i] == lines[..i];
        var quantity := if outbound then -lines[i].quantity else lines[i].quantity;
        ledger := ledger + [Entry(id, warehouse, lines[i].product, quantity)];
      }
      assert lines[..|lines|] == lines;
    }

    /** Confirm a receipt or an issue. */
    method ConfirmSimple(id: Id, user: User) returns (refusal: Option<Refusal>)
      requires id.kind in {Receipt, Issue}
      modifies this`documents, this`ledger
      ensures Became(old(Now()), Confirm(old(Now()), setup, id, user), refusal)
    {
      if id !in documents {
        return Some(NotFound);
      }
      var document := documents[id];
      if document.facility !in setup.transit {
        return Some(NoInTransitLocation);
      }
      if !user.administrator && user.facility != document.facility {
        return Some(OtherFacility);
      }
      if document.cancelled || document.completed {
        return Some(NotEditable);
      }
      var own := LinesOf(Now(), id);
      if own == [] {
        return Some(NoLines);
      }
      refusal := CheckLines(own);
      if refusal.Some? {
        return;
      }
      if id.kind == Issue {
        var required := PerProductTotals(own);
        refusal := CheckAvailable(required, document.warehouse);
        if refusal.Some? {
          return;
        }
      }
      PostLines(id, document.warehouse, own, id.kind == Issue);
      documents := documents[id := document.(completed := true)];
      return None;
    }

    /** Whether a reversal can be posted: the lowest warehouse short of something, and its lowest product. */
    method CheckReversal(reversal: seq<Entry>) returns (refusal: Option<Refusal>)
      ensures var short := ShortWarehouses(Now(), setup, reversal);
              refusal == if short == {} then None
                         else Some(InsufficientStock(Least(short), Least(Short(Now(), setup, Least(short), TakenOut(reversal, Least(short))))))
    {
      var taken := NetOutbound(reversal);
      ghost var short := ShortWarehouses(Now(), setup, reversal);
      var all := set place | place in taken :: place.0;
      var todo := all;
      while todo != {}
        invariant todo <= all && short <= todo
        decreases |todo|
      {
        var w := Least(todo);
        var required := map p | p in (set place | place in taken && place.0 == w :: place.1) && (w, p) in taken :: taken[(w, p)];
        TakenFrom(reversal, taken, required, w);
        refusal := CheckAvailable(required, w);
        if refusal.Some? {
          ShortHere(Now(), setup, reversal, w);
          assert Least(short) == w;
          return;
        }
        if w in short {
          ShortThere(Now(), setup, reversal, w);
        }
        todo := todo - {w};
      }
      return None;
    }

    /** Cancel a draft, or reverse a confirmed document. */
    method CancelDocument(id: Id, user: User) returns (refusal: Option<Refusal>)
      modifies this`documents, this`ledger
      ensures Became(old(Now()), Cancel(old(Now()), setup, id, user), refusal)
    {
      if id !in documents {
        return Some(NotFound);
      }
      var document := documents[id];
      if document.facility !in setup.transit {
        return Some(NoInTransitLocation);
      }
      if !user.administrator && user.facility != document.facility {
        return Some(OtherFacility);
      }
      if document.completed && id.kind == Count {
        return Some(ConfirmedCannotCancel);
      }
      if document.cancelled {
        return Some(AlreadyCancelled);
      }
      if document.completed {
        var reversal := ReversalEntries(EntriesOf(ledger, id));
        refusal := CheckReversal(reversal);
        if refusal.Some? {
          return;
        }
        ledger := ledger + reversal;
      }
      documents := documents[id := document.(cancelled := true)];
      return None;
    }
  }

  // ----- which warehouses are short

  lemma TakenFrom(reversal: seq<Entry>, taken: map<(int, int), int>, required: map<int, int>, w: int)
    requires forall w, p :: (w, p) in taken <==> Net(reversal, w, p) < 0
    requires forall w, p :: (w, p) in taken ==> taken[(w, p)] == -Net(reversal, w, p)
    requires forall p :: p in required <==> (w, p) in taken
    requires forall p :: p in required ==> required[p] == taken[(w, p)]
    ensures required == TakenOut(reversal, w)
  {
    var out := TakenOut(reversal, w);
    forall p ensures p in required <==> p in out {
      if Net(reversal, w, p) < 0 {
        if (w, p) !in Places(reversal) {
          NoPlaceNoNet(reversal, w, p);
        }
        var place := (w, p);
        assert place in Places(reversal) && place.0 == w && place.1 == p;
      }
    }
    forall p | p in required ensures required[p] == out[p] {
    }
  }

  lemma ShortHere(s: State, setup: Setup, reversal: seq<Entry>, w: int)
    requires Short(s, setup, w, TakenOut(reversal, w)) != {}
    ensures w in ShortWarehouses(s, setup, reversal)
  {
    var p := AnyOf(Short(s, setup, w, TakenOut(reversal, w)));
    assert p in TakenOut(reversal, w);
    if (w, p) !in Places(reversal) {
      NoPlaceNoNet(reversal, w, p);
    }
    var place := (w, p);
    assert place in Places(reversal) && place.0 == w;
  }

  lemma ShortThere(s: State, setup: Setup, reversal: seq<Entry>, w: int)
    requires w in ShortWarehouses(s, setup, reversal)
    ensures Short(s, setup, w, TakenOut(reversal, w)) != {}
  {
  }
}
