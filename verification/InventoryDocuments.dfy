/** Receipts and issues confirmed, and documents cancelled, on an append-only ledger.  Quantities are
    whole numbers of the smallest unit; serial numbers are in Numbering. */
module InventoryDocuments {
  import opened Outcomes
  import opened Tables

  datatype Kind = Receipt | Issue | Transfer | Count

  datatype Id = Id(kind: Kind, number: int)

  datatype Document = Document(facility: int, warehouse: int, completed: bool, cancelled: bool)

  datatype Line = Line(product: int, quantity: int)

  /** A ledger row; negative is outbound. */
  datatype Entry = Entry(source: Id, warehouse: int, product: int, quantity: int)

  /** Stockable products, each facility's in-transit warehouse, and what sales orders hold. */
  datatype Setup = Setup(stockable: set<int>, transit: map<int, int>, reserved: map<(int, int), int>)

  datatype State = State(documents: map<Id, Document>, lines: map<Id, seq<Line>>, ledger: seq<Entry>)

  datatype User = User(facility: int, administrator: bool)

  datatype Refusal =
    | NotFound | NoInTransitLocation | OtherFacility | NotEditable | NoLines | LineWithoutQuantity
    | NotStockable | InsufficientStock(warehouse: int, product: int)
    | ConfirmedCannotCancel | AlreadyCancelled

  type Outcome = Result<State, Refusal>

  // ----- sums over the ledger

  /** On hand: everything the ledger ever moved of a product in a warehouse. */
  function Net(entries: seq<Entry>, w: int, p: int): int {
    if entries == [] then 0
    else
      var last := entries[|entries| - 1];
      Net(entries[..|entries| - 1], w, p) + if last.warehouse == w && last.product == p then last.quantity else 0
  }

  /** What one document moved. */
  function NetOfDocument(entries: seq<Entry>, id: Id, w: int, p: int): int {
    if entries == [] then 0
    else
      var last := entries[|entries| - 1];
      NetOfDocument(entries[..|entries| - 1], id, w, p)
      + if last.source == id && last.warehouse == w && last.product == p then last.quantity else 0
  }

  function Reserved(setup: Setup, w: int, p: int): int {
    if (w, p) in setup.reserved then setup.reserved[(w, p)] else 0
  }

  /** What can still be promised. */
  function Available(s: State, setup: Setup, w: int, p: int): int {
    Net(s.ledger, w, p) - Reserved(setup, w, p)
  }

  function EntriesOf(entries: seq<Entry>, id: Id): seq<Entry> {
    if entries == [] then []
    else
      var last := entries[|entries| - 1];
      EntriesOf(entries[..|entries| - 1], id) + if last.source == id then [last] else []
  }

  function Opposite(entry: Entry): Entry {
    entry.(quantity := -entry.quantity)
  }

  function Reversed(entries: seq<Entry>): seq<Entry> {
    if entries == [] then [] else Reversed(entries[..|entries| - 1]) + [Opposite(entries[|entries| - 1])]
  }

  function Quantity(lines: seq<Line>, p: int): int {
    if lines == [] then 0
    else
      var last := lines[|lines| - 1];
      Quantity(lines[..|lines| - 1], p) + if last.product == p then last.quantity else 0
  }

  function Products(lines: seq<Line>): set<int> {
    set l | l in lines :: l.product
  }

  /** One row per line, all in or all out. */
  function Posted(id: Id, warehouse: int, lines: seq<Line>, outbound: bool): seq<Entry> {
    if lines == [] then []
    else
      var last := lines[|lines| - 1];
      Posted(id, warehouse, lines[..|lines| - 1], outbound)
      + [Entry(id, warehouse, last.product, if outbound then -last.quantity else last.quantity)]
  }

  // ----- the operations

  function LineRefusal(setup: Setup, line: Line): Option<Refusal> {
    if line.quantity <= 0 then Some(LineWithoutQuantity)
    else if line.product !in setup.stockable then Some(NotStockable)
    else None
  }

  /** The first line that cannot be posted. */
  function FirstBadLine(setup: Setup, lines: seq<Line>): Option<Refusal> {
    if lines == [] then None
    else if LineRefusal(setup, lines[0]).Some? then LineRefusal(setup, lines[0])
    else FirstBadLine(setup, lines[1..])
  }

  /** The products an amount is required of beyond what is available. */
  function Short(s: State, setup: Setup, w: int, required: map<int, int>): set<int> {
    set p | p in required && Available(s, setup, w, p) < required[p]
  }

  function Totals(lines: seq<Line>): map<int, int> {
    map p | p in Products(lines) :: Quantity(lines, p)
  }

  /** What stops an issue: the lowest product it is short of. */
  function ShortageOf(s: State, setup: Setup, w: int, required: map<int, int>): Option<Refusal> {
    var short := Short(s, setup, w, required);
    if short == {} then None else Some(InsufficientStock(w, Least(short)))
  }

  function ConfirmRefusal(s: State, setup: Setup, id: Id, user: User): Option<Refusal> {
    if id !in s.documents then Some(NotFound)
    else if s.documents[id].facility !in setup.transit then Some(NoInTransitLocation)
    else if !user.administrator && user.facility != s.documents[id].facility then Some(OtherFacility)
    else if s.documents[id].cancelled || s.documents[id].completed then Some(NotEditable)
    else if LinesOf(s, id) == [] then Some(NoLines)
    else if FirstBadLine(setup, LinesOf(s, id)).Some? then FirstBadLine(setup, LinesOf(s, id))
    else if id.kind == Issue then ShortageOf(s, setup, s.documents[id].warehouse, Totals(LinesOf(s, id)))
    else None
  }

  function LinesOf(s: State, id: Id): seq<Line> {
    if id in s.lines then s.lines[id] else []
  }

  /** Post one entry per line of a receipt or an issue. */
  function Confirm(s: State, setup: Setup, id: Id, user: User): Outcome
    requires id.kind in {Receipt, Issue}
  {
    var refusal := ConfirmRefusal(s, setup, id, user);
    if refusal.Some? then Refused(refusal.value)
    else
      Ok(s.(ledger := s.ledger + Posted(id, s.documents[id].warehouse, LinesOf(s, id), id.kind == Issue),
            documents := s.documents[id := s.documents[id].(completed := true)]))
  }

  /** Where a document posted something. */
  function Places(entries: seq<Entry>): set<(int, int)> {
    set e | e in entries :: (e.warehouse, e.product)
  }

  /** What undoing entries takes out, net, of each product of a warehouse. */
  function TakenOut(entries: seq<Entry>, w: int): map<int, int> {
    map p | p in (set place | place in Places(entries) && place.0 == w :: place.1) && Net(entries, w, p) < 0
      :: -Net(entries, w, p)
  }

  function ShortWarehouses(s: State, setup: Setup, entries: seq<Entry>): set<int> {
    set place | place in Places(entries) && Short(s, setup, place.0, TakenOut(entries, place.0)) != {} :: place.0
  }

  function CancelRefusal(s: State, setup: Setup, id: Id, user: User): Option<Refusal> {
    if id !in s.documents then Some(NotFound)
    else if s.documents[id].facility !in setup.transit then Some(NoInTransitLocation)
    else if !user.administrator && user.facility != s.documents[id].facility then Some(OtherFacility)
    else if s.documents[id].completed && id.kind == Count then Some(ConfirmedCannotCancel)
    else if s.documents[id].cancelled then Some(AlreadyCancelled)
    else if s.documents[id].completed then
      var reversal := Reversed(EntriesOf(s.ledger, id));
      var short := ShortWarehouses(s, setup, reversal);
      if short == {} then None
      else Some(InsufficientStock(Least(short), Least(Short(s, setup, Least(short), TakenOut(reversal, Least(short))))))
    else None
  }

  /** Cancel a draft, or reverse everything a confirmed document posted. */
  function Cancel(s: State, setup: Setup, id: Id, user: User): Outcome {
    var refusal := CancelRefusal(s, setup, id, user);
    if refusal.Some? then Refused(refusal.value)
    else
      var reversal := if s.documents[id].completed then Reversed(EntriesOf(s.ledger, id)) else [];
      Ok(s.(ledger := s.ledger + reversal, documents := s.documents[id := s.documents[id].(cancelled := true)]))
  }

  // ----- sums of what is posted

  lemma {:induction false} NetAppend(a: seq<Entry>, b: seq<Entry>, w: int, p: int)
    ensures Net(a + b, w, p) == Net(a, w, p) + Net(b, w, p)
  {
    if b == [] {
      assert a + b == a;
    } else {
      assert (a + b)[..|a + b| - 1] == a + b[..|b| - 1];
      NetAppend(a, b[..|b| - 1], w, p);
    }
  }

  lemma {:induction false} NetOfDocumentAppend(a: seq<Entry>, b: seq<Entry>, id: Id, w: int, p: int)
    ensures NetOfDocument(a + b, id, w, p) == NetOfDocument(a, id, w, p) + NetOfDocument(b, id, w, p)
  {
    if b == [] {
      assert a + b == a;
    } else {
      assert (a + b)[..|a + b| - 1] == a + b[..|b| - 1];
      NetOfDocumentAppend(a, b[..|b| - 1], id, w, p);
    }
  }

  lemma NetNext(earlier: seq<Entry>, last: Entry, id: Id, w: int, p: int)
    ensures Net(earlier + [last], w, p)
         == Net(earlier, w, p) + if last.warehouse == w && last.product == p then last.quantity else 0
    ensures NetOfDocument(earlier + [last], id, w, p)
         == NetOfDocument(earlier, id, w, p)
            + if last.source == id && last.warehouse == w && last.product == p then last.quantity else 0
  {
    assert (earlier + [last])[..|earlier|] == earlier;
  }

  lemma {:induction false} NetOfReversal(ledger: seq<Entry>, id: Id, other: Id, w: int, p: int)
    ensures Net(Reversed(EntriesOf(ledger, id)), w, p) == -NetOfDocument(ledger, id, w, p)
    ensures NetOfDocument(Reversed(EntriesOf(ledger, id)), other, w, p)
         == if other == id then -NetOfDocument(ledger, id, w, p) else 0
  {
    if ledger != [] {
      var rest, last := ledger[..|ledger| - 1], ledger[|ledger| - 1];
      NetOfReversal(rest, id, other, w, p);
      if last.source == id {
        NetNext(Reversed(EntriesOf(rest, id)), Opposite(last), other, w, p);
      } else {
        assert EntriesOf(rest, id) + [] == EntriesOf(rest, id);
      }
    }
  }

  lemma {:induction false} NetOfPosted(id: Id, warehouse: int, lines: seq<Line>, outbound: bool, other: Id, w: int, p: int)
    ensures Net(Posted(id, warehouse, lines, outbound), w, p)
         == if w == warehouse then (if outbound then -Quantity(lines, p) else Quantity(lines, p)) else 0
    ensures other != id ==> NetOfDocument(Posted(id, warehouse, lines, outbound), other, w, p) == 0
  {
    if lines != [] {
      var rest, last := lines[..|lines| - 1], lines[|lines| - 1];
      NetOfPosted(id, warehouse, rest, outbound, other, w, p);
      var earlier := Posted(id, warehouse, rest, outbound);
      var row := Entry(id, warehouse, last.product, if outbound then -last.quantity else last.quantity);
      assert (earlier + [row])[..|earlier|] == earlier;
    }
  }

  lemma {:induction false} NoPlaceNoNet(entries: seq<Entry>, w: int, p: int)
    requires (w, p) !in Places(entries)
    ensures Net(entries, w, p) == 0
  {
    if entries != [] {
      var rest, last := entries[..|entries| - 1], entries[|entries| - 1];
      assert entries == rest + [last];
      forall e | e in rest ensures e in entries {
      }
      assert (w, p) !in Places(rest);
      assert last in entries;
      NoPlaceNoNet(rest, w, p);
    }
  }

  lemma {:induction false} NoLineNoTotal(lines: seq<Line>, p: int)
    requires p !in Products(lines)
    ensures Quantity(lines, p) == 0
  {
    if lines != [] {
      var rest, last := lines[..|lines| - 1], lines[|lines| - 1];
      assert lines == rest + [last];
      forall l | l in rest ensures l in lines {
      }
      assert p !in Products(rest);
      assert last in lines;
      NoLineNoTotal(rest, p);
    }
  }

  lemma {:induction false} GoodLinesTotal(setup: Setup, lines: seq<Line>, p: int)
    requires FirstBadLine(setup, lines).None?
    ensures forall l :: l in lines ==> l.quantity > 0 && l.product in setup.stockable
    ensures Quantity(lines, p) >= 0
    decreases |lines|
  {
    if lines != [] {
      GoodLinesTotal(setup, lines[1..], p);
      assert lines == [lines[0]] + lines[1..];
      PositiveTotal(lines, p);
    }
  }

  lemma {:induction false} PositiveTotal(lines: seq<Line>, p: int)
    requires forall l :: l in lines ==> l.quantity > 0
    ensures Quantity(lines, p) >= 0
  {
    if lines != [] {
      assert lines[|lines| - 1] in lines;
      PositiveTotal(lines[..|lines| - 1], p);
    }
  }

  // ----- one step

  /** A step takes nothing out that is promised: each stock level goes up, stays, or still covers what is
      reserved. */
  ghost predicate Covers(s: State, t: State, setup: Setup) {
    forall w, p :: Net(t.ledger, w, p) >= Net(s.ledger, w, p) || Available(t, setup, w, p) >= 0
  }

  lemma ConfirmCovers(s: State, setup: Setup, id: Id, user: User)
    requires id.kind in {Receipt, Issue} && Confirm(s, setup, id, user).Ok?
    ensures Covers(s, Confirm(s, setup, id, user).value, setup)
  {
    var t := Confirm(s, setup, id, user).value;
    forall w, p ensures Net(t.ledger, w, p) >= Net(s.ledger, w, p) || Available(t, setup, w, p) >= 0 {
      ConfirmCoversAt(s, setup, id, user, w, p);
    }
  }

  lemma ConfirmCoversAt(s: State, setup: Setup, id: Id, user: User, w: int, p: int)
    requires id.kind in {Receipt, Issue} && Confirm(s, setup, id, user).Ok?
    ensures var t := Confirm(s, setup, id, user).value;
            Net(t.ledger, w, p) >= Net(s.ledger, w, p) || Available(t, setup, w, p) >= 0
  {
    var lines, warehouse := LinesOf(s, id), s.documents[id].warehouse;
    NetAppend(s.ledger, Posted(id, warehouse, lines, id.kind == Issue), w, p);
    NetOfPosted(id, warehouse, lines, id.kind == Issue, id, w, p);
    GoodLinesTotal(setup, lines, p);
    if id.kind == Issue && w == warehouse {
      if p in Products(lines) {
        assert p !in Short(s, setup, w, Totals(lines));
      } else {
        NoLineNoTotal(lines, p);
      }
    }
  }

  /** A confirmed receipt brings its lines' quantity of each product into its warehouse, a confirmed issue takes
      it out, and no other stock level changes; the rows are the document's own. */
  lemma ReceiptsAddIssuesTake(s: State, setup: Setup, id: Id, user: User, w: int, p: int)
    requires id.kind in {Receipt, Issue} && Confirm(s, setup, id, user).Ok?
    ensures var t, total := Confirm(s, setup, id, user).value, Quantity(s.lines[id], p);
            && id in s.lines && t.documents == s.documents[id := s.documents[id].(completed := true)]
            && (w == s.documents[id].warehouse && id.kind == Receipt ==> Net(t.ledger, w, p) == Net(s.ledger, w, p) + total)
            && (w == s.documents[id].warehouse && id.kind == Issue ==> Net(t.ledger, w, p) == Net(s.ledger, w, p) - total)
            && (w != s.documents[id].warehouse ==> Net(t.ledger, w, p) == Net(s.ledger, w, p))
            && NetOfDocument(t.ledger, id, w, p) - NetOfDocument(s.ledger, id, w, p) == Net(t.ledger, w, p) - Net(s.ledger, w, p)
  {
    var lines, warehouse := LinesOf(s, id), s.documents[id].warehouse;
    var posted := Posted(id, warehouse, lines, id.kind == Issue);
    NetAppend(s.ledger, posted, w, p);
    NetOfDocumentAppend(s.ledger, posted, id, w, p);
    NetOfPosted(id, warehouse, lines, id.kind == Issue, id, w, p);
    OwnRows(id, warehouse, lines, id.kind == Issue, w, p);
  }

  lemma {:induction false} OwnRows(id: Id, warehouse: int, lines: seq<Line>, outbound: bool, w: int, p: int)
    ensures var posted := Posted(id, warehouse, lines, outbound); NetOfDocument(posted, id, w, p) == Net(posted, w, p)
  {
    if lines != [] {
      var rest, last := lines[..|lines| - 1], lines[|lines| - 1];
      OwnRows(id, warehouse, rest, outbound, w, p);
      NetNext(Posted(id, warehouse, rest, outbound),
              Entry(id, warehouse, last.product, if outbound then -last.quantity else last.quantity), id, w, p);
    }
  }

  lemma {:induction false} FirstBadLineExactly(setup: Setup, lines: seq<Line>)
    ensures FirstBadLine(setup, lines) == None <==> forall l :: l in lines ==> l.quantity > 0 && l.product in setup.stockable
    decreases |lines|
  {
    if lines != [] {
      FirstBadLineExactly(setup, lines[1..]);
      assert lines == [lines[0]] + lines[1..];
    }
  }

  /** A receipt or an issue is confirmed exactly when it is a draft at a facility with an in-transit warehouse, the
      user's own or an administrator's, with lines, all of a positive quantity of a stockable product, and no
      product issued beyond what is available. */
  lemma ConfirmedExactlyWhen(s: State, setup: Setup, id: Id, user: User)
    requires id.kind in {Receipt, Issue}
    ensures Confirm(s, setup, id, user).Ok? <==>
              && id in s.documents && s.documents[id].facility in setup.transit
              && (user.administrator || user.facility == s.documents[id].facility)
              && !s.documents[id].completed && !s.documents[id].cancelled
              && id in s.lines && s.lines[id] != []
              && (forall l :: l in s.lines[id] ==> l.quantity > 0 && l.product in setup.stockable)
              && (id.kind == Issue ==> forall l :: l in s.lines[id] ==>
                    Quantity(s.lines[id], l.product)
                    <= Net(s.ledger, s.documents[id].warehouse, l.product) - Reserved(setup, s.documents[id].warehouse, l.product))
  {
    if id in s.documents && id in s.lines {
      var lines, warehouse := s.lines[id], s.documents[id].warehouse;
      FirstBadLineExactly(setup, lines);
      var totals := Totals(lines);
      assert forall l :: l in lines ==> l.product in totals;
      if p :| p in Short(s, setup, warehouse, totals) {
        var l :| l in lines && l.product == p;
      } else {
        forall l | l in lines ensures Quantity(lines, l.product) <= Available(s, setup, warehouse, l.product) {
          assert l.product !in Short(s, setup, warehouse, totals);
        }
      }
    }
  }

  lemma NothingShortExactly(s: State, setup: Setup, reversal: seq<Entry>)
    ensures ShortWarehouses(s, setup, reversal) == {} <==>
              forall w, p :: Net(reversal, w, p) < 0 ==> -Net(reversal, w, p) <= Available(s, setup, w, p)
  {
    if ShortWarehouses(s, setup, reversal) == {} {
      NothingShort(s, setup, reversal);
    } else {
      var w :| w in ShortWarehouses(s, setup, reversal);
      var p :| p in Short(s, setup, w, TakenOut(reversal, w));
      assert Net(reversal, w, p) < 0 && -Net(reversal, w, p) > Available(s, setup, w, p);
    }
  }

  /** A document is cancelled exactly when it is not cancelled yet, nor a confirmed count, at a facility with an
      in-transit warehouse, the user's own or an administrator's, and undoing it takes out nothing promised. */
  lemma CancelledExactlyWhen(s: State, setup: Setup, id: Id, user: User)
    ensures Cancel(s, setup, id, user).Ok? <==>
              && id in s.documents && s.documents[id].facility in setup.transit
              && (user.administrator || user.facility == s.documents[id].facility)
              && !s.documents[id].cancelled && !(s.documents[id].completed && id.kind == Count)
              && (s.documents[id].completed ==> forall w, p :: NetOfDocument(s.ledger, id, w, p) > 0 ==>
                    NetOfDocument(s.ledger, id, w, p) <= Net(s.ledger, w, p) - Reserved(setup, w, p))
  {
    var reversal := Reversed(EntriesOf(s.ledger, id));
    forall w, p ensures Net(reversal, w, p) == -NetOfDocument(s.ledger, id, w, p) {
      NetOfReversal(s.ledger, id, id, w, p);
    }
    NothingShortExactly(s, setup, reversal);
    if forall w, p :: NetOfDocument(s.ledger, id, w, p) > 0 ==>
         NetOfDocument(s.ledger, id, w, p) <= Net(s.ledger, w, p) - Reserved(setup, w, p)
    {
      forall w, p | Net(reversal, w, p) < 0 ensures -Net(reversal, w, p) <= Available(s, setup, w, p) {
        assert NetOfDocument(s.ledger, id, w, p) > 0;
      }
    } else {
      var w, p :| NetOfDocument(s.ledger, id, w, p) > 0
                  && NetOfDocument(s.ledger, id, w, p) > Net(s.ledger, w, p) - Reserved(setup, w, p);
      assert Net(reversal, w, p) < 0 && -Net(reversal, w, p) > Available(s, setup, w, p);
      assert ShortWarehouses(s, setup, reversal) != {};
    }
  }

  lemma CancelCovers(s: State, setup: Setup, id: Id, user: User)
    requires Cancel(s, setup, id, user).Ok?
    ensures Covers(s, Cancel(s, setup, id, user).value, setup)
  {
    var t := Cancel(s, setup, id, user).value;
    if s.documents[id].completed {
      var reversal := Reversed(EntriesOf(s.ledger, id));
      NothingShort(s, setup, reversal);
      forall w, p ensures Net(t.ledger, w, p) >= Net(s.ledger, w, p) || Available(t, setup, w, p) >= 0 {
        NetAppend(s.ledger, reversal, w, p);
      }
    } else {
      assert t.ledger == s.ledger;
    }
  }

  lemma NothingShort(s: State, setup: Setup, reversal: seq<Entry>)
    requires ShortWarehouses(s, setup, reversal) == {}
    ensures forall w, p :: Net(reversal, w, p) < 0 ==> -Net(reversal, w, p) <= Available(s, setup, w, p)
  {
    forall w, p | Net(reversal, w, p) < 0 ensures -Net(reversal, w, p) <= Available(s, setup, w, p) {
      if (w, p) !in Places(reversal) {
        NoPlaceNoNet(reversal, w, p);
      } else {
        var place := (w, p);
        assert place in Places(reversal) && place.0 == w && place.1 == p;
        assert p in TakenOut(reversal, w);
        assert place.0 !in ShortWarehouses(s, setup, reversal);
        assert p !in Short(s, setup, w, TakenOut(reversal, w));
      }
    }
  }

  /** A cancelled document's rows net to nothing, in every warehouse and of every product. */
  lemma CancelNetsToZero(s: State, setup: Setup, id: Id, user: User, w: int, p: int)
    requires Cancel(s, setup, id, user).Ok? && s.documents[id].completed
    ensures NetOfDocument(Cancel(s, setup, id, user).value.ledger, id, w, p) == 0
  {
    var reversal := Reversed(EntriesOf(s.ledger, id));
    NetOfDocumentAppend(s.ledger, reversal, id, w, p);
    NetOfReversal(s.ledger, id, id, w, p);
  }

  // ----- runs

  datatype Call =
    | Receiving(number: int, user: User)
    | Issuing(number: int, user: User)
    | Cancelling(id: Id, user: User)

  function Answer(s: State, setup: Setup, call: Call): Outcome {
    match call
    case Receiving(number, user) => Confirm(s, setup, Id(Receipt, number), user)
    case Issuing(number, user) => Confirm(s, setup, Id(Issue, number), user)
    case Cancelling(id, user) => Cancel(s, setup, id, user)
  }

  function After(s: State, setup: Setup, call: Call): State {
    if Answer(s, setup, call).Ok? then Answer(s, setup, call).value else s
  }

  function Run(s: State, setup: Setup, calls: seq<Call>): State {
    if calls == [] then s else After(Run(s, setup, calls[..|calls| - 1]), setup, calls[|calls| - 1])
  }

  /** Documents that have posted and are not standing have rows that net to nothing. */
  ghost predicate Settled(s: State) {
    forall id, w, p :: id in s.documents && (s.documents[id].cancelled || !s.documents[id].completed) ==>
      NetOfDocument(s.ledger, id, w, p) == 0
  }

  lemma ConfirmSettles(s: State, setup: Setup, id: Id, user: User)
    requires id.kind in {Receipt, Issue} && Settled(s) && Confirm(s, setup, id, user).Ok?
    ensures Settled(Confirm(s, setup, id, user).value)
  {
    var t := Confirm(s, setup, id, user).value;
    var posted := Posted(id, s.documents[id].warehouse, LinesOf(s, id), id.kind == Issue);
    forall k, w, p | k in t.documents && (t.documents[k].cancelled || !t.documents[k].completed)
      ensures NetOfDocument(t.ledger, k, w, p) == 0
    {
      NetOfDocumentAppend(s.ledger, posted, k, w, p);
      NetOfPosted(id, s.documents[id].warehouse, LinesOf(s, id), id.kind == Issue, k, w, p);
    }
  }

  lemma CancelSettles(s: State, setup: Setup, id: Id, user: User)
    requires Settled(s) && Cancel(s, setup, id, user).Ok?
    ensures Settled(Cancel(s, setup, id, user).value)
  {
    var t := Cancel(s, setup, id, user).value;
    forall k, w, p | k in t.documents && (t.documents[k].cancelled || !t.documents[k].completed)
      ensures NetOfDocument(t.ledger, k, w, p) == 0
    {
      if s.documents[id].completed {
        NetOfDocumentAppend(s.ledger, Reversed(EntriesOf(s.ledger, id)), k, w, p);
        NetOfReversal(s.ledger, id, k, w, p);
      } else {
        assert t.ledger == s.ledger;
      }
    }
  }

  lemma CallSettles(s: State, setup: Setup, call: Call)
    requires Settled(s)
    ensures Settled(After(s, setup, call))
  {
    if Answer(s, setup, call).Ok? {
      match call
      case Receiving(number, user) => ConfirmSettles(s, setup, Id(Receipt, number), user);
      case Issuing(number, user) => ConfirmSettles(s, setup, Id(Issue, number), user);
      case Cancelling(id, user) => CancelSettles(s, setup, id, user);
    }
  }

  /** However documents are confirmed and cancelled, every cancelled one leaves no trace in any stock
      level. */
  lemma CancelledLeaveNoTrace(s: State, setup: Setup, calls: seq<Call>, id: Id, w: int, p: int)
    requires Settled(s) && id in Run(s, setup, calls).documents && Run(s, setup, calls).documents[id].cancelled
    ensures Settled(Run(s, setup, calls))
    ensures NetOfDocument(Run(s, setup, calls).ledger, id, w, p) == 0
  {
    SettledAfter(s, setup, calls);
  }

  lemma {:induction false} SettledAfter(s: State, setup: Setup, calls: seq<Call>)
    requires Settled(s)
    ensures Settled(Run(s, setup, calls))
  {
    if calls != [] {
      SettledAfter(s, setup, calls[..|calls| - 1]);
      CallSettles(Run(s, setup, calls[..|calls| - 1]), setup, calls[|calls| - 1]);
    }
  }

  /** A stock level that covers its reservations covers them after any run, whatever lines repeat a
      product and whatever the cancelled documents had posted. */
  lemma {:induction false} ReservationsStayCovered(s: State, setup: Setup, calls: seq<Call>, w: int, p: int)
    requires Available(s, setup, w, p) >= 0
    ensures Available(Run(s, setup, calls), setup, w, p) >= 0
  {
    if calls != [] {
      var before, call := Run(s, setup, calls[..|calls| - 1]), calls[|calls| - 1];
      ReservationsStayCovered(s, setup, calls[..|calls| - 1], w, p);
      if Answer(before, setup, call).Ok? {
        match call
        case Receiving(number, user) => ConfirmCovers(before, setup, Id(Receipt, number), user);
        case Issuing(number, user) => ConfirmCovers(before, setup, Id(Issue, number), user);
        case Cancelling(id, user) => CancelCovers(before, setup, id, user);
      }
    }
  }

  /** A confirmed count stays confirmed, whoever tries to cancel it. */
  lemma {:induction false} ConfirmedCountsStand(s: State, setup: Setup, calls: seq<Call>, id: Id)
    requires id in s.documents && id.kind == Count && s.documents[id].completed && !s.documents[id].cancelled
    ensures var t := Run(s, setup, calls);
            id in t.documents && t.documents[id] == s.documents[id]
  {
    if calls != [] {
      ConfirmedCountsStand(s, setup, calls[..|calls| - 1], id);
    }
  }

  // ----- what the documents stand for

  /** What a receipt or an issue has in a stock level: its lines while it stands, in or out, and nothing before it
      is confirmed and once it is cancelled. */
  function Standing(s: State, id: Id, w: int, p: int): int
    requires id in s.documents
  {
    var document := s.documents[id];
    if !document.completed || document.cancelled || document.warehouse != w || id !in s.lines then 0
    else if id.kind == Receipt then Quantity(s.lines[id], p)
    else -Quantity(s.lines[id], p)
  }

  ghost predicate Stands(s: State, id: Id) {
    id in s.documents && forall w, p :: NetOfDocument(s.ledger, id, w, p) == Standing(s, id, w, p)
  }

  ghost predicate AllStand(s: State) {
    forall id :: id in s.documents && id.kind in {Receipt, Issue} ==> Stands(s, id)
  }

  lemma ConfirmStands(s: State, setup: Setup, id: Id, user: User, k: Id)
    requires id.kind in {Receipt, Issue} && AllStand(s) && Confirm(s, setup, id, user).Ok?
    requires k in s.documents && k.kind in {Receipt, Issue}
    ensures Stands(Confirm(s, setup, id, user).value, k)
  {
    var t, posted := Confirm(s, setup, id, user).value, Posted(id, s.documents[id].warehouse, LinesOf(s, id), id.kind == Issue);
    assert Stands(s, k);
    forall w, p ensures NetOfDocument(t.ledger, k, w, p) == Standing(t, k, w, p) {
      assert NetOfDocument(s.ledger, k, w, p) == Standing(s, k, w, p);
      if k == id {
        ReceiptsAddIssuesTake(s, setup, id, user, w, p);
      } else {
        NetOfDocumentAppend(s.ledger, posted, k, w, p);
        NetOfPosted(id, s.documents[id].warehouse, LinesOf(s, id), id.kind == Issue, k, w, p);
      }
    }
  }

  lemma CancelStands(s: State, setup: Setup, id: Id, user: User, k: Id)
    requires AllStand(s) && Cancel(s, setup, id, user).Ok? && k in s.documents && k.kind in {Receipt, Issue}
    ensures Stands(Cancel(s, setup, id, user).value, k)
  {
    var t := Cancel(s, setup, id, user).value;
    assert Stands(s, k);
    forall w, p ensures NetOfDocument(t.ledger, k, w, p) == Standing(t, k, w, p) {
      assert NetOfDocument(s.ledger, k, w, p) == Standing(s, k, w, p);
      if s.documents[id].completed {
        NetOfDocumentAppend(s.ledger, Reversed(EntriesOf(s.ledger, id)), k, w, p);
        NetOfReversal(s.ledger, id, k, w, p);
      } else {
        assert t.ledger == s.ledger;
      }
    }
  }

  lemma CallStands(s: State, setup: Setup, call: Call)
    requires AllStand(s)
    ensures AllStand(After(s, setup, call))
  {
    var t := After(s, setup, call);
    if Answer(s, setup, call).Ok? {
      forall k | k in t.documents && k.kind in {Receipt, Issue} ensures Stands(t, k) {
        match call
        case Receiving(number, user) => ConfirmStands(s, setup, Id(Receipt, number), user, k);
        case Issuing(number, user) => ConfirmStands(s, setup, Id(Issue, number), user, k);
        case Cancelling(id, user) => CancelStands(s, setup, id, user, k);
      }
    }
  }

  /** However documents are confirmed and cancelled, what a receipt or an issue moved is its lines while it stands:
      in for a receipt, out for an issue, at its warehouse only. */
  lemma {:induction false} DocumentsMoveTheirLines(s: State, setup: Setup, calls: seq<Call>)
    requires AllStand(s)
    ensures AllStand(Run(s, setup, calls))
  {
    if calls != [] {
      DocumentsMoveTheirLines(s, setup, calls[..|calls| - 1]);
      CallStands(Run(s, setup, calls[..|calls| - 1]), setup, calls[|calls| - 1]);
    }
  }
}
