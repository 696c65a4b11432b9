/** Physical counts: batches of counted quantities, and a confirm that sets stock to what was counted.
    Product codes are compared folded to one case; the folding itself is not modelled. */
module Counts {
  import opened Outcomes
  import opened Tables
  import opened InventoryDocuments

  // ----- batches

  datatype Item = Item(product: Option<int>, code: Option<string>, quantity: int)

  /** The products a batch may name: by identity, with whether each is stockable, and by folded code. */
  datatype Catalogue = Catalogue(stockable: map<int, bool>, codes: map<string, int>)

  datatype Reason = ExactlyOne | Unknown | Unstockable | Repeated

  datatype Fault = Fault(index: nat, reason: Reason)

  predicate NamesOne(item: Item) {
    item.product.Some? != item.code.Some?
  }

  /** The product an item names. */
  function Resolve(item: Item, catalogue: Catalogue): Option<int> {
    if item.product.Some? then
      if item.product.value in catalogue.stockable then item.product else None
    else if item.code.Some? && item.code.value in catalogue.codes && catalogue.codes[item.code.value] in catalogue.stockable
    then Some(catalogue.codes[item.code.value])
    else None
  }

  /** The products well-named items have named, stockable or not. */
  function Seen(items: seq<Item>, catalogue: Catalogue): set<int> {
    if items == [] then {}
    else
      var item := items[|items| - 1];
      Seen(items[..|items| - 1], catalogue)
      + if NamesOne(item) && Resolve(item, catalogue).Some? then {Resolve(item, catalogue).value} else {}
  }

  function ReasonOf(item: Item, seen: set<int>, catalogue: Catalogue): Option<Reason> {
    if !NamesOne(item) then Some(ExactlyOne)
    else
      var product := Resolve(item, catalogue);
      if product.None? then Some(Unknown)
      else if !catalogue.stockable[product.value] then Some(Unstockable)
      else if product.value in seen then Some(Repeated)
      else None
  }

  /** Every bad entry of a batch, in order. */
  function Faults(items: seq<Item>, catalogue: Catalogue): seq<Fault> {
    if items == [] then []
    else
      var earlier, n := items[..|items| - 1], |items| - 1;
      var reason := ReasonOf(items[n], Seen(earlier, catalogue), catalogue);
      Faults(earlier, catalogue) + if reason.Some? then [Fault(n, reason.value)] else []
  }

  /** Look at every entry once, keeping the products seen. */
  method ValidateBatch(items: seq<Item>, catalogue: Catalogue) returns (faults: seq<Fault>)
    ensures faults == Faults(items, catalogue)
  {
    faults := [];
    var seen: set<int> := {};
    for i := 0 to |items|
      invariant faults == Faults(items[..i], catalogue) && seen == Seen(items[..i], catalogue)
    {
      assert items[..i + 1][..i] == items[..i];
      var item := items[i];
      if !NamesOne(item) {
        faults := faults + [Fault(i, ExactlyOne)];
      } else {
        var product := Resolve(item, catalogue);
        if product.None? {
          faults := faults + [Fault(i, Unknown)];
        } else {
          if !catalogue.stockable[product.value] {
            faults := faults + [Fault(i, Unstockable)];
          } else if product.value in seen {
            faults := faults + [Fault(i, Repeated)];
          }
          seen := seen + {product.value};
        }
      }
    }
    assert items[..|items|] == items;
  }

  ghost predicate CleanItem(item: Item, catalogue: Catalogue) {
    NamesOne(item) && Resolve(item, catalogue).Some? && catalogue.stockable[Resolve(item, catalogue).value]
  }

  /** Each entry names one known, stockable product, and no two the same. */
  ghost predicate Clean(items: seq<Item>, catalogue: Catalogue) {
    && (forall i :: 0 <= i < |items| ==> CleanItem(items[i], catalogue))
    && (forall i, j :: 0 <= i < j < |items| ==> Resolve(items[i], catalogue) != Resolve(items[j], catalogue))
  }

  lemma {:induction false} SeenAre(items: seq<Item>, catalogue: Catalogue, p: int)
    ensures p in Seen(items, catalogue) <==>
              exists i :: 0 <= i < |items| && NamesOne(items[i]) && Resolve(items[i], catalogue) == Some(p)
  {
    if items != [] {
      var rest, n := items[..|items| - 1], |items| - 1;
      SeenAre(rest, catalogue, p);
      if p in Seen(rest, catalogue) {
        var i :| 0 <= i < |rest| && NamesOne(rest[i]) && Resolve(rest[i], catalogue) == Some(p);
        assert items[i] == rest[i];
      }
      if i :| 0 <= i < |items| && NamesOne(items[i]) && Resolve(items[i], catalogue) == Some(p) {
        assert i < n ==> rest[i] == items[i];
      }
    }
  }

  /** A batch is accepted exactly when it is clean. */
  lemma {:induction false} NoFaultsMeansClean(items: seq<Item>, catalogue: Catalogue)
    ensures Faults(items, catalogue) == [] <==> Clean(items, catalogue)
  {
    if items != [] {
      var rest, n := items[..|items| - 1], |items| - 1;
      NoFaultsMeansClean(rest, catalogue);
      if CleanItem(items[n], catalogue) {
        SeenAre(rest, catalogue, Resolve(items[n], catalogue).value);
      }
    }
  }

  /** The item names this product, by its identity or by its code, and nothing else. */
  predicate Names(item: Item, catalogue: Catalogue, p: int) {
    && p in catalogue.stockable
    && ((item.product == Some(p) && item.code == None)
        || (item.product == None && item.code.Some? && item.code.value in catalogue.codes && catalogue.codes[item.code.value] == p))
  }

  lemma NamesIs(item: Item, catalogue: Catalogue, p: int)
    ensures Names(item, catalogue, p) <==> NamesOne(item) && Resolve(item, catalogue) == Some(p)
  {
  }

  predicate NamedBefore(items: seq<Item>, catalogue: Catalogue, i: nat, p: int)
    requires i <= |items|
  {
    exists j :: 0 <= j < i && Names(items[j], catalogue, p)
  }

  /** Why an entry is bad: it names a product and a code or neither, or nothing known, or what is not stocked, or what an
      entry before it named. */
  ghost predicate IsBad(items: seq<Item>, catalogue: Catalogue, i: nat, reason: Reason)
    requires i < |items|
  {
    var item := items[i];
    match reason
    case ExactlyOne => item.product.Some? == item.code.Some?
    case Unknown => item.product.Some? != item.code.Some? && forall p :: !Names(item, catalogue, p)
    case Unstockable => exists p :: Names(item, catalogue, p) && !catalogue.stockable[p]
    case Repeated => exists p :: Names(item, catalogue, p) && catalogue.stockable[p] && NamedBefore(items, catalogue, i, p)
  }

  lemma SeenBefore(items: seq<Item>, catalogue: Catalogue, i: nat, p: int)
    requires i <= |items|
    ensures p in Seen(items[..i], catalogue) <==> NamedBefore(items, catalogue, i, p)
  {
    SeenAre(items[..i], catalogue, p);
    forall j | 0 <= j < i ensures Names(items[j], catalogue, p) <==> NamesOne(items[..i][j]) && Resolve(items[..i][j], catalogue) == Some(p) {
      NamesIs(items[j], catalogue, p);
    }
  }

  lemma ReasonIs(items: seq<Item>, catalogue: Catalogue, i: nat, reason: Reason)
    requires i < |items|
    ensures ReasonOf(items[i], Seen(items[..i], catalogue), catalogue) == Some(reason) <==> IsBad(items, catalogue, i, reason)
  {
    var item := items[i];
    forall p ensures Names(item, catalogue, p) <==> NamesOne(item) && Resolve(item, catalogue) == Some(p) {
      NamesIs(item, catalogue, p);
    }
    forall p ensures p in Seen(items[..i], catalogue) <==> NamedBefore(items, catalogue, i, p) {
      SeenBefore(items, catalogue, i, p);
    }
    if NamesOne(item) && Resolve(item, catalogue).Some? {
      assert Names(item, catalogue, Resolve(item, catalogue).value);
    }
  }

  /** The faults of a batch are its bad entries, each with its reason. */
  lemma {:induction false} FaultsAreTheBadEntries(items: seq<Item>, catalogue: Catalogue, i: nat, reason: Reason)
    ensures Fault(i, reason) in Faults(items, catalogue) <==> i < |items| && IsBad(items, catalogue, i, reason)
  {
    if items != [] {
      var rest, n := items[..|items| - 1], |items| - 1;
      FaultsAreTheBadEntries(rest, catalogue, i, reason);
      if i < n {
        assert rest[..i] == items[..i];
        ReasonIs(rest, catalogue, i, reason);
        ReasonIs(items, catalogue, i, reason);
      } else if i == n {
        ReasonIs(items, catalogue, i, reason);
      }
    }
  }

  /** What a clean batch sets: its products and quantities. */
  function Resolved(items: seq<Item>, catalogue: Catalogue): (batch: seq<Line>)
    requires Faults(items, catalogue) == []
    ensures |batch| == |items|
  {
    NoFaultsMeansClean(items, catalogue);
    seq(|items|, i requires 0 <= i < |items| => Line(Resolve(items[i], catalogue).value, items[i].quantity))
  }

  ghost predicate OnePerProduct(lines: seq<Line>) {
    forall i, j :: 0 <= i < j < |lines| ==> lines[i].product != lines[j].product
  }

  lemma ResolvedOnePerProduct(items: seq<Item>, catalogue: Catalogue)
    requires Faults(items, catalogue) == []
    ensures OnePerProduct(Resolved(items, catalogue))
  {
    NoFaultsMeansClean(items, catalogue);
    forall i, j | 0 <= i < j < |items| ensures Resolved(items, catalogue)[i].product != Resolved(items, catalogue)[j].product {
      assert Resolve(items[i], catalogue) != Resolve(items[j], catalogue);
    }
  }

  /** An accepted batch sets what its entries name, each to its quantity. */
  lemma ResolvedIsWhatIsNamed(items: seq<Item>, catalogue: Catalogue, i: nat)
    requires Faults(items, catalogue) == [] && i < |items|
    ensures var line := Resolved(items, catalogue)[i];
            Names(items[i], catalogue, line.product) && catalogue.stockable[line.product] && line.quantity == items[i].quantity
  {
    NoFaultsMeansClean(items, catalogue);
    assert CleanItem(items[i], catalogue);
    NamesIs(items[i], catalogue, Resolve(items[i], catalogue).value);
  }

  // ----- applying a batch

  /** The line of a product, the last if there are several; -1 without one. */
  function LineOf(lines: seq<Line>, p: int): (i: int)
    ensures -1 <= i < |lines|
    ensures i >= 0 ==> lines[i].product == p
    ensures i < 0 ==> forall k :: 0 <= k < |lines| ==> lines[k].product != p
  {
    if lines == [] then -1
    else if lines[|lines| - 1].product == p then |lines| - 1
    else LineOf(lines[..|lines| - 1], p)
  }

  /** The lines with the batch's quantities put in place of theirs. */
  function Updated(lines: seq<Line>, batch: seq<Line>): (after: seq<Line>)
    ensures |after| == |lines| && forall i :: 0 <= i < |lines| ==> after[i].product == lines[i].product
  {
    if batch == [] then lines
    else
      var earlier, item := Updated(lines, batch[..|batch| - 1]), batch[|batch| - 1];
      var i := LineOf(lines, item.product);
      if i < 0 then earlier else earlier[i := item]
  }

  function Created(lines: seq<Line>, batch: seq<Line>): seq<Line> {
    if batch == [] then []
    else
      var item := batch[|batch| - 1];
      Created(lines, batch[..|batch| - 1]) + if LineOf(lines, item.product) < 0 then [item] else []
  }

  function Applied(lines: seq<Line>, batch: seq<Line>): seq<Line> {
    Updated(lines, batch) + Created(lines, batch)
  }

  /** Overwrite the lines already there, in place; the lines to create are returned. */
  method ApplyBatch(lines: array<Line>, batch: seq<Line>) returns (created: seq<Line>)
    modifies lines
    ensures lines[..] == Updated(old(lines[..]), batch) && created == Created(old(lines[..]), batch)
  {
    ghost var before := lines[..];
    var at := lines[..];
    created := [];
    for k := 0 to |batch|
      invariant lines[..] == Updated(before, batch[..k]) && created == Created(before, batch[..k])
    {
      assert batch[..k + 1][..k] == batch[..k];
      var i := LineOf(at, batch[k].product);
      if i < 0 {
        created := created + [batch[k]];
      } else if lines[i].quantity != batch[k].quantity {
        lines[i] := Line(lines[i].product, batch[k].quantity);
      }
    }
    assert batch[..|batch|] == batch;
  }

  /** Every item of a batch is on its product's line. */
  ghost predicate Holds(lines: seq<Line>, batch: seq<Line>) {
    forall k :: 0 <= k < |batch| ==> LineOf(lines, batch[k].product) >= 0 && lines[LineOf(lines, batch[k].product)] == batch[k]
  }

  lemma {:induction false} HeldChangesNothing(lines: seq<Line>, batch: seq<Line>)
    requires Holds(lines, batch)
    ensures Updated(lines, batch) == lines && Created(lines, batch) == []
  {
    if batch != [] {
      HeldChangesNothing(lines, batch[..|batch| - 1]);
    }
  }

  lemma {:induction false} UpdatedAt(lines: seq<Line>, batch: seq<Line>, i: nat)
    requires OnePerProduct(batch) && i < |lines|
    ensures forall k :: 0 <= k < |batch| && LineOf(lines, batch[k].product) == i ==> Updated(lines, batch)[i] == batch[k]
    ensures (forall k :: 0 <= k < |batch| ==> LineOf(lines, batch[k].product) != i) ==> Updated(lines, batch)[i] == lines[i]
  {
    if batch != [] {
      UpdatedAt(lines, batch[..|batch| - 1], i);
    }
  }

  lemma {:induction false} CreatedAre(lines: seq<Line>, batch: seq<Line>)
    requires OnePerProduct(batch)
    ensures OnePerProduct(Created(lines, batch))
    ensures forall l :: l in Created(lines, batch) <==> l in batch && LineOf(lines, l.product) < 0
  {
    if batch != [] {
      var rest, item := batch[..|batch| - 1], batch[|batch| - 1];
      assert batch == rest + [item];
      CreatedAre(lines, rest);
      forall l | l in Created(lines, rest) ensures l.product != item.product {
        var k :| 0 <= k < |rest| && rest[k] == l;
        assert batch[k] == l;
      }
    }
  }

  /** The line of a product after a batch. */
  lemma LineAfter(lines: seq<Line>, batch: seq<Line>, p: int)
    requires OnePerProduct(batch)
    ensures LineOf(lines, p) >= 0 ==> LineOf(Applied(lines, batch), p) == LineOf(lines, p)
    ensures LineOf(lines, p) < 0 ==>
              (LineOf(Applied(lines, batch), p) >= 0 <==> exists k :: 0 <= k < |batch| && batch[k].product == p)
  {
    var updated, created := Updated(lines, batch), Created(lines, batch);
    CreatedAre(lines, batch);
    SameLineOf(lines, updated, p);
    if LineOf(lines, p) >= 0 {
      forall k | 0 <= k < |created| ensures created[k].product != p {
        assert created[k] in created;
      }
      LineOfBefore(updated, created, p);
    } else if k :| 0 <= k < |batch| && batch[k].product == p {
      assert batch[k] in created;
      var j :| 0 <= j < |created| && created[j] == batch[k];
      assert Applied(lines, batch)[|updated| + j] == batch[k];
    } else {
      var i := LineOf(Applied(lines, batch), p);
      if i >= |updated| {
        assert created[i - |updated|] in created;
        assert created[i - |updated|] in batch;
      }
    }
  }

  lemma {:induction false} SameLineOf(a: seq<Line>, b: seq<Line>, p: int)
    requires |a| == |b| && forall i :: 0 <= i < |a| ==> a[i].product == b[i].product
    ensures LineOf(a, p) == LineOf(b, p)
  {
    if a != [] && a[|a| - 1].product != p {
      SameLineOf(a[..|a| - 1], b[..|b| - 1], p);
    }
  }

  lemma {:induction false} LineOfBefore(a: seq<Line>, b: seq<Line>, p: int)
    requires forall k :: 0 <= k < |b| ==> b[k].product != p
    ensures LineOf(a + b, p) == LineOf(a, p)
  {
    if b == [] {
      assert a + b == a;
    } else {
      assert (a + b)[..|a + b| - 1] == a + b[..|b| - 1];
      LineOfBefore(a, b[..|b| - 1], p);
    }
  }

  /** A product in the batch is counted at the batch's quantity, whether it had a line or not. */
  lemma BatchIsHeld(lines: seq<Line>, batch: seq<Line>)
    requires OnePerProduct(batch)
    ensures Holds(Applied(lines, batch), batch)
  {
    var after := Applied(lines, batch);
    forall k | 0 <= k < |batch|
      ensures LineOf(after, batch[k].product) >= 0 && after[LineOf(after, batch[k].product)] == batch[k]
    {
      var p := batch[k].product;
      LineAfter(lines, batch, p);
      var i := LineOf(lines, p);
      if i >= 0 {
        UpdatedAt(lines, batch, i);
        assert after[i] == Updated(lines, batch)[i];
      } else {
        CreatedAre(lines, batch);
        var j := LineOf(after, p);
        assert j >= |lines|;
        var line := Created(lines, batch)[j - |lines|];
        assert line in Created(lines, batch);
        var m :| 0 <= m < |batch| && batch[m] == line;
        assert m == k;
      }
    }
  }

  /** Applying a batch twice is applying it once. */
  lemma ApplyTwiceIsOnce(lines: seq<Line>, batch: seq<Line>)
    requires OnePerProduct(batch)
    ensures Applied(Applied(lines, batch), batch) == Applied(lines, batch)
  {
    BatchIsHeld(lines, batch);
    HeldChangesNothing(Applied(lines, batch), batch);
    assert Applied(lines, batch) + [] == Applied(lines, batch);
  }

  /** A batch keeps one line per product. */
  lemma ApplyKeepsOnePerProduct(lines: seq<Line>, batch: seq<Line>)
    requires OnePerProduct(lines) && OnePerProduct(batch)
    ensures OnePerProduct(Applied(lines, batch))
  {
    var updated, created := Updated(lines, batch), Created(lines, batch);
    CreatedAre(lines, batch);
    forall i, j | 0 <= i < |updated| && 0 <= j < |created| ensures updated[i].product != created[j].product {
      assert created[j] in created;
    }
  }

  /** Products a batch does not name keep their lines. */
  lemma OthersKeepTheirLine(lines: seq<Line>, batch: seq<Line>, p: int)
    requires OnePerProduct(batch) && forall k :: 0 <= k < |batch| ==> batch[k].product != p
    ensures LineOf(Applied(lines, batch), p) == LineOf(lines, p)
    ensures LineOf(lines, p) >= 0 ==> Applied(lines, batch)[LineOf(lines, p)] == lines[LineOf(lines, p)]
  {
    LineAfter(lines, batch, p);
    if LineOf(lines, p) >= 0 {
      UpdatedAt(lines, batch, LineOf(lines, p));
    } else if LineOf(Applied(lines, batch), p) >= 0 {
      assert false;
    }
  }

  // ----- confirming

  /** The products that ever moved in a warehouse. */
  function Moved(entries: seq<Entry>, w: int): set<int> {
    set e | e in entries && e.warehouse == w :: e.product
  }

  predicate Uncounted(s: State, setup: Setup, w: int, lines: seq<Line>, p: int) {
    Net(s.ledger, w, p) != 0 && p !in Products(lines) && p in setup.stockable
  }

  /** A line at zero for each stockable product with a balance and no line. */
  function UncountedLines(s: State, setup: Setup, w: int, lines: seq<Line>, keys: seq<int>): seq<Line> {
    if keys == [] then []
    else
      var p := keys[|keys| - 1];
      UncountedLines(s, setup, w, lines, keys[..|keys| - 1])
      + if Uncounted(s, setup, w, lines, p) then [Line(p, 0)] else []
  }

  lemma UncountedNext(s: State, setup: Setup, w: int, lines: seq<Line>, keys: seq<int>, i: nat)
    requires i < |keys|
    ensures UncountedLines(s, setup, w, lines, keys[..i + 1])
         == UncountedLines(s, setup, w, lines, keys[..i]) + if Uncounted(s, setup, w, lines, keys[i]) then [Line(keys[i], 0)] else []
  {
    assert keys[..i + 1][..i] == keys[..i];
  }

  function CountedLines(s: State, setup: Setup, id: Id, uncounted: bool): seq<Line>
    requires id in s.documents
  {
    var lines, w := LinesOf(s, id), s.documents[id].warehouse;
    if uncounted then lines + UncountedLines(s, setup, w, lines, Ascending(Moved(s.ledger, w))) else lines
  }

  /** A row for each line whose count differs from what is on hand. */
  function Differences(id: Id, ledger: seq<Entry>, w: int, lines: seq<Line>): seq<Entry> {
    if lines == [] then []
    else
      var line := lines[|lines| - 1];
      var difference := line.quantity - Net(ledger, w, line.product);
      Differences(id, ledger, w, lines[..|lines| - 1])
      + if difference != 0 then [Entry(id, w, line.product, difference)] else []
  }

  function CountRefusal(s: State, setup: Setup, id: Id, uncounted: bool, user: User): Option<Refusal> {
    if id !in s.documents then Some(NotFound)
    else if s.documents[id].facility !in setup.transit then Some(NoInTransitLocation)
    else if !user.administrator && user.facility != s.documents[id].facility then Some(OtherFacility)
    else if s.documents[id].cancelled || s.documents[id].completed then Some(NotEditable)
    else if CountedLines(s, setup, id, uncounted) == [] then Some(NoLines)
    else None
  }

  /** Set each counted product to its count. */
  function ConfirmCount(s: State, setup: Setup, id: Id, uncounted: bool, user: User): Outcome {
    var refusal := CountRefusal(s, setup, id, uncounted, user);
    if refusal.Some? then Refused(refusal.value)
    else
      var lines := CountedLines(s, setup, id, uncounted);
      Ok(State(
        s.documents[id := s.documents[id].(completed := true)],
        s.lines[id := lines],
        s.ledger + Differences(id, s.ledger, s.documents[id].warehouse, lines)))
  }

  /** What the lines of a product make up for, each against the stock before the count. */
  function Corrections(ledger: seq<Entry>, w: int, lines: seq<Line>, p: int): int {
    if lines == [] then 0
    else
      var line := lines[|lines| - 1];
      Corrections(ledger, w, lines[..|lines| - 1], p) + if line.product == p then line.quantity - Net(ledger, w, p) else 0
  }

  lemma {:induction false} DifferencesNet(id: Id, ledger: seq<Entry>, w: int, lines: seq<Line>, v: int, p: int)
    ensures Net(Differences(id, ledger, w, lines), v, p) == if v == w then Corrections(ledger, w, lines, p) else 0
  {
    if lines != [] {
      var rest, line := lines[..|lines| - 1], lines[|lines| - 1];
      DifferencesNet(id, ledger, w, rest, v, p);
      var rows, difference := Differences(id, ledger, w, rest), line.quantity - Net(ledger, w, line.product);
      DifferenceNet(id, w, line, difference, rows, v, p);
      assert Differences(id, ledger, w, lines)
          == rows + if difference != 0 then [Entry(id, w, line.product, difference)] else [];
    }
  }

  lemma DifferenceNet(id: Id, w: int, line: Line, difference: int, rows: seq<Entry>, v: int, p: int)
    ensures Net(rows + if difference != 0 then [Entry(id, w, line.product, difference)] else [], v, p)
         == Net(rows, v, p) + if v == w && line.product == p then difference else 0
  {
    if difference != 0 {
      NetNext(rows, Entry(id, w, line.product, difference), id, v, p);
    } else {
      assert rows + [] == rows;
    }
  }

  lemma {:induction false} CorrectionsOnce(ledger: seq<Entry>, w: int, lines: seq<Line>, p: int)
    requires OnePerProduct(lines)
    ensures Corrections(ledger, w, lines, p)
         == if LineOf(lines, p) < 0 then 0 else lines[LineOf(lines, p)].quantity - Net(ledger, w, p)
  {
    if lines != [] {
      var rest, line := lines[..|lines| - 1], lines[|lines| - 1];
      CorrectionsOnce(ledger, w, rest, p);
      if LineOf(rest, p) >= 0 {
        assert lines[LineOf(rest, p)].product != line.product;
      }
    }
  }

  lemma {:induction false} UncountedAre(s: State, setup: Setup, w: int, lines: seq<Line>, keys: seq<int>)
    requires Increasing(keys)
    ensures OnePerProduct(UncountedLines(s, setup, w, lines, keys))
    ensures forall l :: l in UncountedLines(s, setup, w, lines, keys) <==>
              l.product in keys && l.quantity == 0 && Uncounted(s, setup, w, lines, l.product)
  {
    if keys != [] {
      var rest, p := keys[..|keys| - 1], keys[|keys| - 1];
      assert keys == rest + [p];
      UncountedAre(s, setup, w, lines, rest);
      forall l | l in UncountedLines(s, setup, w, lines, rest) ensures l.product != p {
        var i :| 0 <= i < |rest| && rest[i] == l.product;
        assert keys[i] < keys[|keys| - 1];
      }
    }
  }

  lemma {:induction false} UnmovedNet(entries: seq<Entry>, w: int, p: int)
    requires p !in Moved(entries, w)
    ensures Net(entries, w, p) == 0
  {
    if entries != [] {
      var rest, last := entries[..|entries| - 1], entries[|entries| - 1];
      assert entries == rest + [last];
      forall e | e in rest ensures e in entries {
      }
      assert p !in Moved(rest, w);
      assert last in entries;
      UnmovedNet(rest, w, p);
    }
  }

  lemma CountedOnePerProduct(s: State, setup: Setup, id: Id, uncounted: bool)
    requires id in s.documents && OnePerProduct(LinesOf(s, id))
    ensures OnePerProduct(CountedLines(s, setup, id, uncounted))
  {
    var lines, w := LinesOf(s, id), s.documents[id].warehouse;
    var keys := Ascending(Moved(s.ledger, w));
    UncountedAre(s, setup, w, lines, keys);
    var more := UncountedLines(s, setup, w, lines, keys);
    forall i, j | 0 <= i < |lines| && 0 <= j < |more| ensures lines[i].product != more[j].product {
      assert more[j] in more && lines[i] in lines;
    }
  }

  /** After a count with one line per product, every stock level of the warehouse is what was counted;
      uncounted stockable products are at zero when they are included; and nothing else has moved. */
  lemma CountSetsTheStock(s: State, setup: Setup, id: Id, uncounted: bool, user: User, w: int, p: int)
    requires ConfirmCount(s, setup, id, uncounted, user).Ok? && OnePerProduct(LinesOf(s, id))
    ensures var t := ConfirmCount(s, setup, id, uncounted, user).value;
            var line := LineOf(LinesOf(s, id), p);
            Net(t.ledger, w, p)
            == if w != s.documents[id].warehouse then Net(s.ledger, w, p)
               else if line >= 0 then LinesOf(s, id)[line].quantity
               else if uncounted && p in setup.stockable then 0
               else Net(s.ledger, w, p)
  {
    var lines, own, at := CountedLines(s, setup, id, uncounted), LinesOf(s, id), s.documents[id].warehouse;
    NetAppend(s.ledger, Differences(id, s.ledger, at, lines), w, p);
    DifferencesNet(id, s.ledger, at, lines, w, p);
    CountedOnePerProduct(s, setup, id, uncounted);
    CorrectionsOnce(s.ledger, at, lines, p);
    if uncounted && w == at {
      UncountedLine(s, setup, at, own, p);
    }
  }

  lemma UncountedLine(s: State, setup: Setup, w: int, own: seq<Line>, p: int)
    requires OnePerProduct(own)
    ensures var lines := own + UncountedLines(s, setup, w, own, Ascending(Moved(s.ledger, w)));
            if LineOf(own, p) >= 0 then LineOf(lines, p) == LineOf(own, p)
            else if Uncounted(s, setup, w, own, p) then LineOf(lines, p) >= 0 && lines[LineOf(lines, p)].quantity == 0
            else LineOf(lines, p) < 0
    ensures LineOf(own, p) < 0 && p in setup.stockable ==> Uncounted(s, setup, w, own, p) || Net(s.ledger, w, p) == 0
  {
    var keys := Ascending(Moved(s.ledger, w));
    var more := UncountedLines(s, setup, w, own, keys);
    var lines := own + more;
    UncountedAre(s, setup, w, own, keys);
    if LineOf(own, p) >= 0 {
      forall k | 0 <= k < |more| ensures more[k].product != p {
        assert more[k] in more && own[LineOf(own, p)] in own;
      }
      LineOfBefore(own, more, p);
    } else {
      forall l | l in own ensures l.product != p {
      }
      assert p !in Products(own);
      if Uncounted(s, setup, w, own, p) {
        if p !in Moved(s.ledger, w) {
          UnmovedNet(s.ledger, w, p);
        }
        assert Line(p, 0) in more;
        var j :| 0 <= j < |more| && more[j] == Line(p, 0);
        assert lines[|own| + j] == Line(p, 0);
        var i := LineOf(lines, p);
        assert lines[i] in more;
      } else {
        forall k | 0 <= k < |more| ensures more[k].product != p {
          assert more[k] in more;
        }
        LineOfBefore(own, more, p);
      }
    }
  }

  predicate LeftOut(s: State, setup: Setup, w: int, lines: seq<Line>, p: int) {
    p in setup.stockable && Net(s.ledger, w, p) != 0 && forall l :: l in lines ==> l.product != p
  }

  /** A count is confirmed exactly when it is a draft at a facility with an in-transit warehouse, the user's own or an
      administrator's, with lines, or with a stockable product to add that it left out. */
  lemma CountedExactlyWhen(s: State, setup: Setup, id: Id, uncounted: bool, user: User)
    ensures ConfirmCount(s, setup, id, uncounted, user).Ok? <==>
              && id in s.documents && s.documents[id].facility in setup.transit
              && (user.administrator || user.facility == s.documents[id].facility)
              && !s.documents[id].completed && !s.documents[id].cancelled
              && ((id in s.lines && s.lines[id] != [])
                  || (uncounted && exists p :: LeftOut(s, setup, s.documents[id].warehouse, LinesOf(s, id), p)))
  {
    if id in s.documents {
      var own, w := LinesOf(s, id), s.documents[id].warehouse;
      var keys := Ascending(Moved(s.ledger, w));
      var more := UncountedLines(s, setup, w, own, keys);
      UncountedAre(s, setup, w, own, keys);
      forall p ensures LeftOut(s, setup, w, own, p) <==> Uncounted(s, setup, w, own, p) {
      }
      if p :| LeftOut(s, setup, w, own, p) {
        if p !in Moved(s.ledger, w) {
          UnmovedNet(s.ledger, w, p);
        }
        assert Line(p, 0) in more;
      }
      if more != [] {
        assert more[0] in more;
        assert LeftOut(s, setup, w, own, more[0].product);
      }
    }
  }

  /** Were a product on several lines, each would correct the stock before the count, and the count would
      not set it. */
  lemma RepeatedLinesCorrectTwice(s: State, setup: Setup, id: Id, user: User, w: int, p: int)
    requires ConfirmCount(s, setup, id, false, user).Ok? && w == s.documents[id].warehouse
    ensures Net(ConfirmCount(s, setup, id, false, user).value.ledger, w, p)
         == Net(s.ledger, w, p) + Corrections(s.ledger, w, LinesOf(s, id), p)
  {
    NetAppend(s.ledger, Differences(id, s.ledger, w, LinesOf(s, id)), w, p);
    DifferencesNet(id, s.ledger, w, LinesOf(s, id), w, p);
  }

  // ----- batches of rows

  const CHUNK := 1000

  function Flat<T>(chunks: seq<seq<T>>): seq<T> {
    if chunks == [] then [] else Flat(chunks[..|chunks| - 1]) + chunks[|chunks| - 1]
  }

  /** Items in runs of at most `size`, in order, none lost and none empty. */
  method Chunks<T>(items: seq<T>, size: nat) returns (chunks: seq<seq<T>>)
    requires size > 0
    ensures Flat(chunks) == items
    ensures forall c :: c in chunks ==> 0 < |c| <= size
    ensures forall i :: 0 <= i < |chunks| - 1 ==> |chunks[i]| == size
  {
    chunks := [];
    var start := 0;
    while start < |items|
      invariant 0 <= start <= |items|
      invariant Flat(chunks) == items[..start]
      invariant forall c :: c in chunks ==> 0 < |c| <= size
      invariant start < |items| ==> forall i :: 0 <= i < |chunks| ==> |chunks[i]| == size
      invariant forall i :: 0 <= i < |chunks| - 1 ==> |chunks[i]| == size
    {
      var end := if start + size < |items| then start + size else |items|;
      var chunk := items[start..end];
      assert (chunks + [chunk])[..|chunks|] == chunks;
      assert items[..end] == items[..start] + chunk;
      chunks := chunks + [chunk];
      start := end;
    }
    assert items[..start] == items;
  }

  // ----- the count desk

  datatype BatchRefusal = Denied(refusal: Refusal) | BatchRefused(faults: seq<Fault>)

  /** A batch applied whole, or nothing of it. */
  function SetBatch(s: State, catalogue: Catalogue, id: Id, items: seq<Item>): Result<State, BatchRefusal> {
    if id !in s.documents then Refused(Denied(NotFound))
    else if s.documents[id].cancelled || s.documents[id].completed then Refused(Denied(NotEditable))
    else if Faults(items, catalogue) != [] then Refused(BatchRefused(Faults(items, catalogue)))
    else Ok(s.(lines := s.lines[id := Applied(LinesOf(s, id), Resolved(items, catalogue))]))
  }

  /** Setting batches keeps one line per product on every count. */
  lemma SetBatchKeepsOnePerProduct(s: State, catalogue: Catalogue, id: Id, items: seq<Item>, other: Id)
    requires OnePerProduct(LinesOf(s, other)) && SetBatch(s, catalogue, id, items).Ok?
    ensures OnePerProduct(LinesOf(SetBatch(s, catalogue, id, items).value, other))
  {
    if other == id {
      ResolvedOnePerProduct(items, catalogue);
      ApplyKeepsOnePerProduct(LinesOf(s, id), Resolved(items, catalogue));
    }
  }

  /** Setting a batch again changes nothing. */
  lemma SetBatchTwice(s: State, catalogue: Catalogue, id: Id, items: seq<Item>)
    requires SetBatch(s, catalogue, id, items).Ok?
    ensures SetBatch(SetBatch(s, catalogue, id, items).value, catalogue, id, items) == SetBatch(s, catalogue, id, items)
  {
    ResolvedOnePerProduct(items, catalogue);
    ApplyTwiceIsOnce(LinesOf(s, id), Resolved(items, catalogue));
    var t := SetBatch(s, catalogue, id, items).value;
    assert t.lines[id := t.lines[id]] == t.lines;
  }

  // ----- runs of counts

  /** Setting lines, confirming counts, and whatever else moves the stock in between. */
  datatype Call =
    | Setting(id: Id, items: seq<Item>)
    | Confirming(id: Id, uncounted: bool, user: User)
    | Moving(rows: seq<Entry>)

  function After(s: State, setup: Setup, catalogue: Catalogue, call: Call): State {
    match call
    case Setting(id, items) =>
      var answer := SetBatch(s, catalogue, id, items);
      if answer.Ok? then answer.value else s
    case Confirming(id, uncounted, user) =>
      var answer := ConfirmCount(s, setup, id, uncounted, user);
      if answer.Ok? then answer.value else s
    case Moving(rows) => s.(ledger := s.ledger + rows)
  }

  function Run(s: State, setup: Setup, catalogue: Catalogue, calls: seq<Call>): State {
    if calls == [] then s
    else After(Run(s, setup, catalogue, calls[..|calls| - 1]), setup, catalogue, calls[|calls| - 1])
  }

  ghost predicate AllOnePerProduct(s: State) {
    forall id :: OnePerProduct(LinesOf(s, id))
  }

  lemma CallKeepsOnePerProduct(s: State, setup: Setup, catalogue: Catalogue, call: Call)
    requires AllOnePerProduct(s)
    ensures AllOnePerProduct(After(s, setup, catalogue, call))
  {
    var t := After(s, setup, catalogue, call);
    forall id ensures OnePerProduct(LinesOf(t, id)) {
      if call.Setting? && SetBatch(s, catalogue, call.id, call.items).Ok? {
        SetBatchKeepsOnePerProduct(s, catalogue, call.id, call.items, id);
      } else if call.Confirming? && ConfirmCount(s, setup, call.id, call.uncounted, call.user).Ok? {
        CountedOnePerProduct(s, setup, call.id, call.uncounted);
      }
    }
  }

  lemma {:induction false} RunKeepsOnePerProduct(s: State, setup: Setup, catalogue: Catalogue, calls: seq<Call>)
    requires AllOnePerProduct(s)
    ensures AllOnePerProduct(Run(s, setup, catalogue, calls))
  {
    if calls != [] {
      RunKeepsOnePerProduct(s, setup, catalogue, calls[..|calls| - 1]);
      CallKeepsOnePerProduct(Run(s, setup, catalogue, calls[..|calls| - 1]), setup, catalogue, calls[|calls| - 1]);
    }
  }

  /** From counts without lines, whatever is set, confirmed and moved before, a confirmed count leaves on
      hand what it counted, nothing of uncounted stockable products when those are included, and everything
      else as it was. */
  lemma EveryCountSetsTheStock(s: State, setup: Setup, catalogue: Catalogue, calls: seq<Call>,
                               id: Id, uncounted: bool, user: User, w: int, p: int)
    requires forall k :: LinesOf(s, k) == []
    requires ConfirmCount(Run(s, setup, catalogue, calls), setup, id, uncounted, user).Ok?
    ensures var before := Run(s, setup, catalogue, calls);
            var after := ConfirmCount(before, setup, id, uncounted, user).value;
            var line := LineOf(LinesOf(before, id), p);
            Net(after.ledger, w, p)
            == if w != before.documents[id].warehouse then Net(before.ledger, w, p)
               else if line >= 0 then LinesOf(before, id)[line].quantity
               else if uncounted && p in setup.stockable then 0
               else Net(before.ledger, w, p)
  {
    RunKeepsOnePerProduct(s, setup, catalogue, calls);
    CountSetsTheStock(Run(s, setup, catalogue, calls), setup, id, uncounted, user, w, p);
  }

  class CountDesk {
    const setup: Setup
    const catalogue: Catalogue
    var documents: map<Id, Document>
    var lines: map<Id, seq<Line>>
    var ledger: seq<Entry>

    constructor (setup: Setup, catalogue: Catalogue, s: State)
      ensures this.setup == setup && this.catalogue == catalogue && Now() == s
    {
      this.setup, this.catalogue, documents, lines, ledger := setup, catalogue, s.documents, s.lines, s.ledger;
    }

    function Now(): State
      reads this
    {
      State(documents, lines, ledger)
    }

    method SetLines(id: Id, items: seq<Item>) returns (refusal: Option<BatchRefusal>)
      modifies this`lines
      ensures match SetBatch(old(Now()), catalogue, id, items)
              case Ok(after) => refusal == None && Now() == after
              case Refused(why) => refusal == Some(why) && Now() == old(Now())
    {
      if id !in documents {
        return Some(Denied(NotFound));
      }
      if documents[id].cancelled || documents[id].completed {
        return Some(Denied(NotEditable));
      }
      var faults := ValidateBatch(items, catalogue);
      if faults != [] {
        return Some(BatchRefused(faults));
      }
      var own := LinesOf(Now(), id);
      var rows := new Line[|own|](i requires 0 <= i < |own| => own[i]);
      assert rows[..] == own;
      var created := ApplyBatch(rows, Resolved(items, catalogue));
      lines := lines[id := rows[..] + created];
      return None;
    }

    /** The stockable products with a balance and no line, each counted at zero. */
    method AddUncounted(w: int, own: seq<Line>) returns (all: seq<Line>)
      ensures all == own + UncountedLines(Now(), setup, w, own, Ascending(Moved(ledger, w)))
    {
      var keys, more := Ascending(Moved(ledger, w)), [];
      for i := 0 to |keys|
        invariant more == UncountedLines(Now(), setup, w, own, keys[..i])
      {
        UncountedNext(Now(), setup, w, own, keys, i);
        if Net(ledger, w, keys[i]) != 0 && keys[i] !in Products(own) && keys[i] in setup.stockable {
          more := more + [Line(keys[i], 0)];
        }
      }
      assert keys[..|keys|] == keys;
      all := own + more;
    }

    /** Post the rows of a count in runs of `CHUNK`. */
    method PostDifferences(id: Id, w: int, counted: seq<Line>)
      modifies this`ledger
      ensures ledger == old(ledger) + Differences(id, old(ledger), w, counted)
    {
      var rows := Differences(id, ledger, w, counted);
      var chunks := Chunks(rows, CHUNK);
      for i := 0 to |chunks|
        invariant ledger == old(ledger) + Flat(chunks[..i])
      {
        assert chunks[..i + 1][..i] == chunks[..i];
        ledger := ledger + chunks[i];
      }
      assert chunks[..|chunks|] == chunks;
    }

    /** Number the count and set each counted product to its count. */
    method ConfirmLines(id: Id, uncounted: bool, user: User) returns (refusal: Option<Refusal>)
      modifies this`documents, this`lines, this`ledger
      ensures match ConfirmCount(old(Now()), setup, id, uncounted, user)
              case Ok(after) => refusal == None && Now() == after
              case Refused(why) => refusal == Some(why) && Now() == old(Now())
    {
      if id !in documents {
        return Some(NotFound);
      }
      var document := documents[id];
      if document.facility !in setup.transit {
        return Some(NoInTransitLocation);
      }
      if !user.administrator && user.facility != document.facility {
        return Some(OtherFacility);
      }
      if document.cancelled || document.completed {
        return Some(NotEditable);
      }
      var counted := LinesOf(Now(), id);
      if uncounted {
        counted := AddUncounted(document.warehouse, counted);
      }
      if counted == [] {
        return Some(NoLines);
      }
      PostDifferences(id, document.warehouse, counted);
      lines := lines[id := counted];
      documents := documents[id := document.(completed := true)];
      return None;
    }
  }
}
