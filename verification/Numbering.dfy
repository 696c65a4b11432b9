/** Numbering documents under snapshot reads: each transaction reads from a snapshot opened by its
    first ordinary read, sees its own writes, and holds row locks until it ends. */
module Numbering {
  import opened Outcomes
  import opened Tables

  /** A document table and a facility: what one run of serials belongs to. */
  datatype Key = Key(table: int, facility: int)

  datatype Lock = FacilityRow(facility: int) | WarehouseRow(warehouse: int)

  /** The serial of each document that has one, by table and facility. */
  type Serials = map<Key, map<int, int>>

  /** Which tables number under a warehouse lock, and each facility's in-transit warehouse. */
  datatype Setup = Setup(stockTables: set<int>, transit: map<int, int>)

  datatype Tx = Tx(snapshot: Option<Serials>, written: Serials, held: set<Lock>)

  datatype State = State(committed: Serials, txs: map<int, Tx>)

  datatype Step =
    | Begin(tx: int)
    | Acquire(tx: int, lock: Lock)
    | Read(tx: int)
    | Number(tx: int, key: Key, document: int)
    | Commit(tx: int)
    | Abort(tx: int)

  function At(serials: Serials, key: Key): map<int, int> {
    if key in serials then serials[key] else map[]
  }

  /** `MAX(serial)`, or nothing without rows. */
  function Highest(rows: map<int, int>): Option<int> {
    if rows == map[] then None else Some(Greatest(SerialsOf(rows)))
  }

  function SerialsOf(rows: map<int, int>): (serials: set<int>)
    ensures rows != map[] ==> serials != {}
  {
    var serials := set d | d in rows :: rows[d];
    assert forall d :: d in rows ==> rows[d] in serials;
    serials
  }

  function Next(rows: map<int, int>): int {
    Highest(rows).Or(0) + 1
  }

  /** The row whose lock makes the numbering steps of a key queue. */
  function LockFor(setup: Setup, key: Key): Option<Lock> {
    if key.table !in setup.stockTables then Some(FacilityRow(key.facility))
    else if key.facility in setup.transit then Some(WarehouseRow(setup.transit[key.facility]))
    else None
  }

  /** What a transaction sees of a key: its snapshot, which this read opens if none is open, under its
      own rows. */
  function Visible(s: State, tx: Tx, key: Key): map<int, int> {
    At(tx.snapshot.Or(s.committed), key) + At(tx.written, key)
  }

  function Merged(a: Serials, b: Serials): Serials {
    map k | k in a.Keys + b.Keys :: At(a, k) + At(b, k)
  }

  function Opened(s: State, tx: Tx): Tx {
    tx.(snapshot := Some(tx.snapshot.Or(s.committed)))
  }

  /** Take the next number of a key and write it on the document, over any it has. */
  function Numbered(s: State, tx: Tx, key: Key, document: int): Tx {
    Opened(s, tx).(written := tx.written[key := At(tx.written, key)[document := Next(Visible(s, tx, key))]])
  }

  predicate Free(s: State, lock: Lock, tx: int) {
    forall t :: t in s.txs && t != tx ==> lock !in s.txs[t].held
  }

  /** What the database lets happen: a lock is granted only while nobody else holds it. */
  predicate Possible(s: State, step: Step) {
    if step.Begin? then step.tx !in s.txs
    else step.tx in s.txs && (step.Acquire? ==> Free(s, step.lock, step.tx))
  }

  function After(s: State, step: Step): State
    requires Possible(s, step)
  {
    match step
    case Begin(t) => s.(txs := s.txs[t := Tx(None, map[], {})])
    case Acquire(t, lock) => s.(txs := s.txs[t := s.txs[t].(held := s.txs[t].held + {lock})])
    case Read(t) => s.(txs := s.txs[t := Opened(s, s.txs[t])])
    case Number(t, key, d) => s.(txs := s.txs[t := Numbered(s, s.txs[t], key, d)])
    case Commit(t) => State(Merged(s.committed, s.txs[t].written), s.txs - {t})
    case Abort(t) => s.(txs := s.txs - {t})
  }

  /** The rule the numbering steps follow: commit the opening snapshot away, lock, and only then read;
      number only what the lock is held for.  Locking a row again is a no-op. */
  predicate Disciplined(setup: Setup, s: State, step: Step)
    requires Possible(s, step)
  {
    match step
    case Acquire(t, lock) => s.txs[t].snapshot.None? || lock in s.txs[t].held
    case Number(t, key, _) => LockFor(setup, key).Some? && LockFor(setup, key).value in s.txs[t].held
    case _ => true
  }

  ghost predicate Follows(setup: Setup, s: State, steps: seq<Step>)
    decreases |steps|
  {
    steps != [] ==>
      && Possible(s, steps[0]) && Disciplined(setup, s, steps[0])
      && Follows(setup, After(s, steps[0]), steps[1..])
  }

  ghost predicate Happens(s: State, steps: seq<Step>)
    decreases |steps|
  {
    steps != [] ==> Possible(s, steps[0]) && Happens(After(s, steps[0]), steps[1..])
  }

  ghost function Run(s: State, steps: seq<Step>): State
    requires Happens(s, steps)
    decreases |steps|
  {
    if steps == [] then s else Run(After(s, steps[0]), steps[1..])
  }

  // ----- documents numbered again

  /** The keys each open transaction has numbered a document for that had a number, and those for which a
      committed one did. */
  datatype Watch = Watch(open: map<int, set<Key>>, again: set<Key>)

  function OpenOf(w: Watch, t: int): set<Key> {
    if t in w.open then w.open[t] else {}
  }

  function Watched(s: State, w: Watch, step: Step): Watch
    requires Possible(s, step)
  {
    match step
    case Begin(t) => w.(open := w.open[t := {}])
    case Number(t, key, d) =>
      if d in Visible(s, s.txs[t], key) then w.(open := w.open[t := OpenOf(w, t) + {key}]) else w
    case Commit(t) => Watch(w.open - {t}, w.again + OpenOf(w, t))
    case Abort(t) => w.(open := w.open - {t})
    case _ => w
  }

  ghost function Watching(s: State, w: Watch, steps: seq<Step>): Watch
    requires Happens(s, steps)
    decreases |steps|
  {
    if steps == [] then w else Watching(After(s, steps[0]), Watched(s, w, steps[0]), steps[1..])
  }

  /** Some transaction that committed gave a document of the key a number although it had one. */
  ghost predicate NumberedAgain(initial: Serials, steps: seq<Step>, k: Key)
    requires Happens(State(initial, map[]), steps)
  {
    k in Watching(State(initial, map[]), Watch(map[], {}), steps).again
  }

  // ----- what numbering makes of a key's rows

  /** No two documents share a serial, as the table's unique index has it. */
  ghost predicate Distinct(rows: map<int, int>) {
    forall d, e :: d in rows && e in rows && d != e ==> rows[d] != rows[e]
  }

  /** Every document has the serial it had or one given since, above all there were; and those given since
      are no other document's. */
  ghost predicate Given(before: map<int, int>, after: map<int, int>) {
    && before.Keys <= after.Keys && Next(before) <= Next(after)
    && (forall d :: d in after ==> (d in before && after[d] == before[d]) || Next(before) <= after[d])
    && (forall d, e :: d in after && e in after && d != e && Next(before) <= after[d] ==> after[d] != after[e])
  }

  ghost predicate Has(rows: map<int, int>, n: int) {
    exists d :: d in rows && rows[d] == n
  }

  /** A serial that was in use, or that has been given since. */
  ghost predicate Used(before: map<int, int>, after: map<int, int>, n: int) {
    Has(before, n) || Next(before) <= n < Next(after)
  }

  /** Every serial ever used is still some document's. */
  ghost predicate NoGaps(before: map<int, int>, after: map<int, int>) {
    forall n :: Used(before, after, n) ==> Has(after, n)
  }

  /** Both, and which of them it is. */
  ghost predicate Accounted(before: map<int, int>, after: map<int, int>, again: bool) {
    && Given(before, after)
    && (!again ==> NoGaps(before, after))
    && (again && Distinct(before) ==> !NoGaps(before, after))
  }

  lemma BelowNext(rows: map<int, int>, d: int)
    requires d in rows
    ensures rows[d] < Next(rows)
  {
    assert rows[d] in SerialsOf(rows);
  }

  /** The next serial is one above the highest, which some document has. */
  lemma NextIs(rows: map<int, int>, n: int)
    requires Has(rows, n) && forall d :: d in rows ==> rows[d] <= n
    ensures Highest(rows) == Some(n) && Next(rows) == n + 1
  {
    SerialsAre(rows, n);
    SerialsAre(rows, Greatest(SerialsOf(rows)));
  }

  lemma SerialsAre(rows: map<int, int>, n: int)
    ensures n in SerialsOf(rows) <==> Has(rows, n)
  {
  }

  lemma NextOfNumbered(rows: map<int, int>, d: int)
    ensures Next(rows[d := Next(rows)]) == Next(rows) + 1
  {
    var after := rows[d := Next(rows)];
    assert after[d] == Next(rows);
    forall e | e in after ensures after[e] <= Next(rows) {
      if e != d {
        BelowNext(rows, e);
      }
    }
    NextIs(after, Next(rows));
  }

  lemma NumberGives(before: map<int, int>, rows: map<int, int>, d: int)
    requires Given(before, rows)
    ensures Given(before, rows[d := Next(rows)])
  {
    NextOfNumbered(rows, d);
    forall e | e in rows ensures rows[e] < Next(rows) {
      BelowNext(rows, e);
    }
  }

  lemma NumberFillsIn(before: map<int, int>, rows: map<int, int>, d: int)
    requires Given(before, rows) && NoGaps(before, rows) && d !in rows
    ensures NoGaps(before, rows[d := Next(rows)])
  {
    var after := rows[d := Next(rows)];
    NextOfNumbered(rows, d);
    forall n | Used(before, after, n) ensures Has(after, n) {
      if n == Next(rows) {
        assert after[d] == n;
      } else {
        assert Used(before, rows, n);
        var e :| e in rows && rows[e] == n;
        assert after[e] == n;
      }
    }
  }

  lemma UsedIsBelow(before: map<int, int>, rows: map<int, int>, n: int)
    requires Given(before, rows) && Used(before, rows, n)
    ensures n < Next(rows)
  {
    if d :| d in before && before[d] == n {
      BelowNext(before, d);
    }
  }

  /** A gap is never filled again. */
  lemma NumberKeepsGaps(before: map<int, int>, rows: map<int, int>, d: int, n: int)
    requires Given(before, rows) && Used(before, rows, n) && !Has(rows, n)
    ensures !NoGaps(before, rows[d := Next(rows)])
  {
    var after := rows[d := Next(rows)];
    NextOfNumbered(rows, d);
    UsedIsBelow(before, rows, n);
    assert Used(before, after, n);
    forall e | e in after ensures after[e] != n {
      assert e != d ==> rows[e] != n;
    }
  }

  lemma HadWasUsed(before: map<int, int>, rows: map<int, int>, d: int)
    requires Given(before, rows) && d in rows
    ensures Used(before, rows, rows[d])
  {
    BelowNext(rows, d);
    if d in before && rows[d] == before[d] {
      assert Has(before, rows[d]);
    }
  }

  /** The number a document had is nobody's once it gets another. */
  lemma NumberAgainLeavesAGap(before: map<int, int>, rows: map<int, int>, d: int)
    requires Given(before, rows) && Distinct(before) && d in rows
    ensures !NoGaps(before, rows[d := Next(rows)])
  {
    var after, n := rows[d := Next(rows)], rows[d];
    NextOfNumbered(rows, d);
    BelowNext(rows, d);
    HadWasUsed(before, rows, d);
    assert Used(before, after, n);
    GivenStaysDistinct(before, rows);
    forall e | e in after ensures after[e] != n {
      assert e != d ==> rows[e] != rows[d];
    }
  }

  lemma GivenStaysDistinct(before: map<int, int>, after: map<int, int>)
    requires Given(before, after) && Distinct(before)
    ensures Distinct(after)
  {
    forall d | d in before ensures before[d] < Next(before) {
      BelowNext(before, d);
    }
  }

  lemma NumberAccounts(before: map<int, int>, rows: map<int, int>, d: int, again: bool)
    requires Accounted(before, rows, again)
    ensures Accounted(before, rows[d := Next(rows)], again || d in rows)
  {
    NumberGives(before, rows, d);
    if !again && d !in rows {
      NumberFillsIn(before, rows, d);
    } else if Distinct(before) {
      if again {
        var n :| Used(before, rows, n) && !Has(rows, n);
        NumberKeepsGaps(before, rows, d, n);
      } else {
        NumberAgainLeavesAGap(before, rows, d);
      }
    }
  }

  lemma NothingAccounts(rows: map<int, int>)
    ensures Accounted(rows, rows, false)
  {
    forall d | d in rows ensures rows[d] < Next(rows) {
      BelowNext(rows, d);
    }
  }

  // ----- the invariant

  ghost predicate Holds(setup: Setup, tx: Tx, key: Key) {
    LockFor(setup, key).Some? && LockFor(setup, key).value in tx.held
  }

  /** No lock is held twice. */
  ghost predicate Exclusive(s: State) {
    forall t, u :: t in s.txs && u in s.txs && t != u ==> s.txs[t].held !! s.txs[u].held
  }

  /** The rows of a key once the transaction commits. */
  function Own(s: State, tx: Tx, k: Key): map<int, int> {
    At(s.committed, k) + At(tx.written, k)
  }

  /** A transaction writes only what it holds the lock for, and while it does, its snapshot is current and
      its own serials are accounted for on top of the committed ones. */
  ghost predicate KeyOk(setup: Setup, s: State, initial: Serials, w: Watch, tx: Tx, open: set<Key>, k: Key) {
    && (At(tx.written, k) != map[] ==> Holds(setup, tx, k))
    && (k in open ==> At(tx.written, k) != map[])
    && (Holds(setup, tx, k) && tx.snapshot.Some? ==> At(tx.snapshot.value, k) == At(s.committed, k))
    && Accounted(At(initial, k), Own(s, tx, k), k in w.again || k in open)
  }

  ghost predicate TxOk(setup: Setup, s: State, initial: Serials, w: Watch, tx: Tx, open: set<Key>) {
    forall k: Key :: KeyOk(setup, s, initial, w, tx, open, k)
  }

  ghost predicate CommittedOk(s: State, initial: Serials, w: Watch, k: Key) {
    Accounted(At(initial, k), At(s.committed, k), k in w.again)
  }

  ghost predicate Inv(setup: Setup, s: State, initial: Serials, w: Watch) {
    && Exclusive(s)
    && (forall k: Key :: CommittedOk(s, initial, w, k))
    && (forall t :: t in s.txs ==> TxOk(setup, s, initial, w, s.txs[t], OpenOf(w, t)))
  }

  /** Under the lock, a transaction sees all there is, and its own. */
  lemma SeesAll(setup: Setup, s: State, initial: Serials, w: Watch, tx: Tx, open: set<Key>, key: Key)
    requires TxOk(setup, s, initial, w, tx, open) && Holds(setup, tx, key)
    ensures Visible(s, tx, key) == Own(s, tx, key)
  {
    assert KeyOk(setup, s, initial, w, tx, open, key);
  }

  /** What numbering changes of a transaction. */
  lemma NumberedParts(s: State, tx: Tx, key: Key, d: int)
    ensures var after := Numbered(s, tx, key, d);
            && after.held == tx.held && after.snapshot == Some(tx.snapshot.Or(s.committed))
            && At(after.written, key) == At(tx.written, key)[d := Next(Visible(s, tx, key))]
            && forall k: Key :: k != key ==> At(after.written, k) == At(tx.written, k)
  {
  }

  lemma NumberKeepsTx(setup: Setup, s: State, initial: Serials, w: Watch, tx: Tx, open: set<Key>, key: Key, d: int, again: set<Key>)
    requires TxOk(setup, s, initial, w, tx, open) && Holds(setup, tx, key)
    requires again == if d in Visible(s, tx, key) then open + {key} else open
    ensures TxOk(setup, s, initial, w, Numbered(s, tx, key, d), again)
  {
    var after := Numbered(s, tx, key, d);
    NumberedParts(s, tx, key, d);
    forall k: Key ensures KeyOk(setup, s, initial, w, after, again, k) {
      if k == key {
        NumberKeepsKey(setup, s, initial, w, tx, after, open, key, d, again);
      } else {
        OtherKeyKept(setup, s, initial, w, tx, after, open, again, k);
      }
    }
  }

  lemma OtherKeyKept(setup: Setup, s: State, initial: Serials, w: Watch, tx: Tx, after: Tx, open: set<Key>, again: set<Key>, k: Key)
    requires TxOk(setup, s, initial, w, tx, open) && (k in again <==> k in open)
    requires after.held == tx.held && after.snapshot == Some(tx.snapshot.Or(s.committed)) && At(after.written, k) == At(tx.written, k)
    ensures KeyOk(setup, s, initial, w, after, again, k)
  {
    assert KeyOk(setup, s, initial, w, tx, open, k);
    assert Own(s, after, k) == Own(s, tx, k);
  }

  lemma NumberKeepsKey(setup: Setup, s: State, initial: Serials, w: Watch, tx: Tx, after: Tx, open: set<Key>, key: Key, d: int, again: set<Key>)
    requires TxOk(setup, s, initial, w, tx, open) && Holds(setup, tx, key)
    requires key in again <==> d in Visible(s, tx, key) || key in open
    requires after.held == tx.held && after.snapshot == Some(tx.snapshot.Or(s.committed))
    requires At(after.written, key) == At(tx.written, key)[d := Next(Visible(s, tx, key))]
    ensures KeyOk(setup, s, initial, w, after, again, key)
  {
    var own := Own(s, tx, key);
    assert KeyOk(setup, s, initial, w, tx, open, key);
    SeesAll(setup, s, initial, w, tx, open, key);
    NumberAccounts(At(initial, key), own, d, key in w.again || key in open);
    assert d in At(after.written, key);
    OwnNumbered(At(s.committed, key), At(tx.written, key), d, Next(own));
  }

  lemma OwnNumbered(committed: map<int, int>, written: map<int, int>, d: int, n: int)
    ensures committed + written[d := n] == (committed + written)[d := n]
  {
  }

  /** A commit changes no key another transaction holds the lock for, nor one the committing transaction
      wrote nothing of. */
  lemma CommitKeepsTx(setup: Setup, s: State, initial: Serials, w: Watch, t: int, u: int)
    requires Inv(setup, s, initial, w) && t in s.txs && u in s.txs && u != t
    ensures TxOk(setup, After(s, Commit(t)), initial, Watched(s, w, Commit(t)), s.txs[u], OpenOf(w, u))
  {
    forall k: Key ensures KeyOk(setup, After(s, Commit(t)), initial, Watched(s, w, Commit(t)), s.txs[u], OpenOf(w, u), k) {
      CommitKeepsKey(setup, s, initial, w, t, u, k);
    }
  }

  lemma KeysOk(setup: Setup, s: State, initial: Serials, w: Watch, t: int, k: Key)
    requires Inv(setup, s, initial, w) && t in s.txs
    ensures KeyOk(setup, s, initial, w, s.txs[t], OpenOf(w, t), k)
  {
  }

  lemma OneHolder(setup: Setup, s: State, t: int, u: int, k: Key)
    requires Exclusive(s) && t in s.txs && u in s.txs && t != u && Holds(setup, s.txs[t], k)
    ensures !Holds(setup, s.txs[u], k)
  {
    assert s.txs[t].held !! s.txs[u].held;
  }

  lemma CommitKeepsKey(setup: Setup, s: State, initial: Serials, w: Watch, t: int, u: int, k: Key)
    requires Inv(setup, s, initial, w) && t in s.txs && u in s.txs && u != t
    ensures KeyOk(setup, After(s, Commit(t)), initial, Watched(s, w, Commit(t)), s.txs[u], OpenOf(w, u), k)
  {
    var after, v, tx, open := After(s, Commit(t)), Watched(s, w, Commit(t)), s.txs[u], OpenOf(w, u);
    KeysOk(setup, s, initial, w, t, k);
    KeysOk(setup, s, initial, w, u, k);
    CommittedAfter(setup, s, initial, w, t, k);
    if At(s.txs[t].written, k) != map[] {
      OneHolder(setup, s, t, u, k);
      WroteNothing(setup, after, initial, v, tx, open, k);
    } else {
      MergedAt(s.committed, s.txs[t].written, k);
      AddsNothing(At(s.committed, k), At(s.txs[t].written, k));
      UnchangedByCommit(setup, s, after, initial, w, v, tx, open, k);
    }
  }

  lemma AddsNothing(a: map<int, int>, b: map<int, int>)
    requires b == map[]
    ensures a + b == a
  {
  }

  lemma WroteNothing(setup: Setup, s: State, initial: Serials, w: Watch, tx: Tx, open: set<Key>, k: Key)
    requires CommittedOk(s, initial, w, k) && At(tx.written, k) == map[] && !Holds(setup, tx, k) && k !in open
    ensures KeyOk(setup, s, initial, w, tx, open, k)
  {
    assert Own(s, tx, k) == At(s.committed, k);
  }

  lemma UnchangedByCommit(setup: Setup, s: State, after: State, initial: Serials, w: Watch, v: Watch, tx: Tx, open: set<Key>, k: Key)
    requires KeyOk(setup, s, initial, w, tx, open, k) && At(after.committed, k) == At(s.committed, k)
    requires k in v.again <==> k in w.again
    ensures KeyOk(setup, after, initial, v, tx, open, k)
  {
    assert Own(after, tx, k) == Own(s, tx, k);
  }

  lemma MergedAt(a: Serials, b: Serials, k: Key)
    ensures At(Merged(a, b), k) == At(a, k) + At(b, k)
  {
  }

  lemma CommittedAfter(setup: Setup, s: State, initial: Serials, w: Watch, t: int, k: Key)
    requires Inv(setup, s, initial, w) && t in s.txs
    ensures CommittedOk(After(s, Commit(t)), initial, Watched(s, w, Commit(t)), k)
  {
    assert KeyOk(setup, s, initial, w, s.txs[t], OpenOf(w, t), k);
    MergedAt(s.committed, s.txs[t].written, k);
  }

  lemma OthersKeep(setup: Setup, s: State, initial: Serials, w: Watch, v: Watch, t: int, tx: Tx)
    requires Inv(setup, s, initial, w) && t in s.txs && TxOk(setup, s, initial, v, tx, OpenOf(v, t))
    requires v.again == w.again && forall u :: u != t ==> OpenOf(v, u) == OpenOf(w, u)
    requires forall u :: u in s.txs && u != t ==> tx.held !! s.txs[u].held
    ensures Inv(setup, s.(txs := s.txs[t := tx]), initial, v)
  {
    var after := s.(txs := s.txs[t := tx]);
    forall k: Key ensures CommittedOk(after, initial, v, k) {
      assert CommittedOk(s, initial, w, k);
    }
    forall u | u in after.txs ensures TxOk(setup, after, initial, v, after.txs[u], OpenOf(v, u)) {
      forall k: Key ensures KeyOk(setup, after, initial, v, after.txs[u], OpenOf(v, u), k) {
        assert u != t ==> KeyOk(setup, s, initial, w, s.txs[u], OpenOf(w, u), k);
        assert u == t ==> KeyOk(setup, s, initial, v, tx, OpenOf(v, t), k);
      }
    }
  }

  lemma BeginKeeps(setup: Setup, s: State, initial: Serials, w: Watch, t: int)
    requires Inv(setup, s, initial, w) && t !in s.txs
    ensures Inv(setup, After(s, Begin(t)), initial, Watched(s, w, Begin(t)))
  {
    var after, v := After(s, Begin(t)), Watched(s, w, Begin(t));
    forall u, k: Key | u in after.txs ensures KeyOk(setup, after, initial, v, after.txs[u], OpenOf(v, u), k) {
      if u == t {
        assert CommittedOk(s, initial, w, k);
        WroteNothing(setup, after, initial, v, Tx(None, map[], {}), {}, k);
      } else {
        KeysOk(setup, s, initial, w, u, k);
        UnchangedByCommit(setup, s, after, initial, w, v, s.txs[u], OpenOf(w, u), k);
      }
    }
    forall k: Key ensures CommittedOk(after, initial, v, k) {
      assert CommittedOk(s, initial, w, k);
    }
  }

  lemma CommitKeeps(setup: Setup, s: State, initial: Serials, w: Watch, t: int)
    requires Inv(setup, s, initial, w) && t in s.txs
    ensures Inv(setup, After(s, Commit(t)), initial, Watched(s, w, Commit(t)))
  {
    var after, v := After(s, Commit(t)), Watched(s, w, Commit(t));
    forall k: Key ensures CommittedOk(after, initial, v, k) {
      CommittedAfter(setup, s, initial, w, t, k);
    }
    forall u | u in after.txs ensures TxOk(setup, after, initial, v, after.txs[u], OpenOf(v, u)) {
      CommitKeepsTx(setup, s, initial, w, t, u);
    }
  }

  lemma AbortKeeps(setup: Setup, s: State, initial: Serials, w: Watch, t: int)
    requires Inv(setup, s, initial, w) && t in s.txs
    ensures Inv(setup, After(s, Abort(t)), initial, Watched(s, w, Abort(t)))
  {
    var after, v := After(s, Abort(t)), Watched(s, w, Abort(t));
    forall u, k: Key | u in after.txs ensures KeyOk(setup, after, initial, v, after.txs[u], OpenOf(v, u), k) {
      assert KeyOk(setup, s, initial, w, s.txs[u], OpenOf(w, u), k);
    }
    forall k: Key ensures CommittedOk(after, initial, v, k) {
      assert CommittedOk(s, initial, w, k);
    }
  }

  lemma OpeningKeeps(setup: Setup, s: State, initial: Serials, w: Watch, step: Step)
    requires Inv(setup, s, initial, w) && Possible(s, step) && Disciplined(setup, s, step) && (step.Acquire? || step.Read?)
    ensures Inv(setup, After(s, step), initial, Watched(s, w, step))
  {
    var t, tx := step.tx, After(s, step).txs[step.tx];
    forall k: Key ensures KeyOk(setup, s, initial, w, tx, OpenOf(w, t), k) {
      assert KeyOk(setup, s, initial, w, s.txs[t], OpenOf(w, t), k);
    }
    OthersKeep(setup, s, initial, w, w, t, tx);
  }

  lemma NumberKeeps(setup: Setup, s: State, initial: Serials, w: Watch, t: int, key: Key, d: int)
    requires Inv(setup, s, initial, w) && t in s.txs && Holds(setup, s.txs[t], key)
    ensures Inv(setup, After(s, Number(t, key, d)), initial, Watched(s, w, Number(t, key, d)))
  {
    var tx, v := s.txs[t], Watched(s, w, Number(t, key, d));
    WatchedNumber(s, w, t, key, d);
    NumberKeepsTx(setup, s, initial, w, tx, OpenOf(w, t), key, d, OpenOf(v, t));
    SameAgain(setup, s, initial, w, v, Numbered(s, tx, key, d), OpenOf(v, t));
    NumberedParts(s, tx, key, d);
    OthersKeep(setup, s, initial, w, v, t, Numbered(s, tx, key, d));
  }

  lemma WatchedNumber(s: State, w: Watch, t: int, key: Key, d: int)
    requires t in s.txs
    ensures var v := Watched(s, w, Number(t, key, d));
            && v.again == w.again && (forall u :: u != t ==> OpenOf(v, u) == OpenOf(w, u))
            && OpenOf(v, t) == if d in Visible(s, s.txs[t], key) then OpenOf(w, t) + {key} else OpenOf(w, t)
  {
  }

  lemma SameAgain(setup: Setup, s: State, initial: Serials, w: Watch, v: Watch, tx: Tx, open: set<Key>)
    requires TxOk(setup, s, initial, w, tx, open) && v.again == w.again
    ensures TxOk(setup, s, initial, v, tx, open)
  {
    forall k: Key ensures KeyOk(setup, s, initial, v, tx, open, k) {
      assert KeyOk(setup, s, initial, w, tx, open, k);
    }
  }

  lemma StepKeeps(setup: Setup, s: State, initial: Serials, w: Watch, step: Step)
    requires Inv(setup, s, initial, w) && Possible(s, step) && Disciplined(setup, s, step)
    ensures Inv(setup, After(s, step), initial, Watched(s, w, step))
  {
    match step
    case Begin(t) => BeginKeeps(setup, s, initial, w, t);
    case Number(t, key, d) =>
      NumberKeeps(setup, s, initial, w, t, key, d);
    case Commit(t) => CommitKeeps(setup, s, initial, w, t);
    case Abort(t) => AbortKeeps(setup, s, initial, w, t);
    case _ => OpeningKeeps(setup, s, initial, w, step);
  }

  lemma {:induction false} RunKeeps(setup: Setup, s: State, initial: Serials, w: Watch, steps: seq<Step>)
    requires Inv(setup, s, initial, w) && Follows(setup, s, steps)
    ensures Happens(s, steps) && Inv(setup, Run(s, steps), initial, Watching(s, w, steps))
    decreases |steps|
  {
    if steps != [] {
      StepKeeps(setup, s, initial, w, steps[0]);
      RunKeeps(setup, After(s, steps[0]), initial, Watched(s, w, steps[0]), steps[1..]);
    }
  }

  lemma FromStart(setup: Setup, initial: Serials, steps: seq<Step>) returns (w: Watch)
    requires Follows(setup, State(initial, map[]), steps)
    ensures Happens(State(initial, map[]), steps) && Inv(setup, Run(State(initial, map[]), steps), initial, w)
    ensures forall k: Key :: k in w.again <==> NumberedAgain(initial, steps, k)
  {
    var s := State(initial, map[]);
    forall k: Key ensures CommittedOk(s, initial, Watch(map[], {}), k) {
      NothingAccounts(At(initial, k));
    }
    RunKeeps(setup, s, initial, Watch(map[], {}), steps);
    w := Watching(s, Watch(map[], {}), steps);
  }

  // ----- what every interleaving guarantees

  /** However numbering transactions interleave, commit and roll back, every serial given is above all there
      were and is no other document's; where serials were unique, they still are. */
  lemma SerialsAreDistinct(setup: Setup, initial: Serials, steps: seq<Step>, k: Key)
    requires Follows(setup, State(initial, map[]), steps)
    ensures Happens(State(initial, map[]), steps)
    ensures var before, after := At(initial, k), At(Run(State(initial, map[]), steps).committed, k);
            Given(before, after) && (Distinct(before) ==> Distinct(after))
  {
    var w := FromStart(setup, initial, steps);
    var before, after := At(initial, k), At(Run(State(initial, map[]), steps).committed, k);
    assert CommittedOk(Run(State(initial, map[]), steps), initial, w, k);
    if Distinct(before) {
      GivenStaysDistinct(before, after);
    }
  }

  /** However they interleave, every serial ever used is still some document's, as long as no committed
      transaction numbers a document again; and if one does, where serials were unique, one is nobody's. */
  lemma NoGapsExactly(setup: Setup, initial: Serials, steps: seq<Step>, k: Key)
    requires Follows(setup, State(initial, map[]), steps)
    ensures Happens(State(initial, map[]), steps)
    ensures var before, after := At(initial, k), At(Run(State(initial, map[]), steps).committed, k);
            && (!NumberedAgain(initial, steps, k) ==> NoGaps(before, after))
            && (Distinct(before) ==> (NoGaps(before, after) <==> !NumberedAgain(initial, steps, k)))
  {
    var w := FromStart(setup, initial, steps);
    assert CommittedOk(Run(State(initial, map[]), steps), initial, w, k);
  }

  /** Whatever came before, a number given under the rule is one above every committed serial and every one
      the transaction itself has written. */
  lemma NumberIsNextAbove(setup: Setup, initial: Serials, steps: seq<Step>, t: int, k: Key, d: int)
    requires Follows(setup, State(initial, map[]), steps) && Happens(State(initial, map[]), steps)
    requires var s := Run(State(initial, map[]), steps); Possible(s, Number(t, k, d)) && Disciplined(setup, s, Number(t, k, d))
    ensures var s := Run(State(initial, map[]), steps);
            var given := At(After(s, Number(t, k, d)).txs[t].written, k)[d];
            && given == Next(Own(s, s.txs[t], k)) && forall e :: e in Own(s, s.txs[t], k) ==> given > Own(s, s.txs[t], k)[e]
  {
    var w := FromStart(setup, initial, steps);
    var s := Run(State(initial, map[]), steps);
    SeesAll(setup, s, initial, w, s.txs[t], OpenOf(w, t), k);
    var own := Own(s, s.txs[t], k);
    forall e | e in own ensures own[e] < Next(own) {
      BelowNext(own, e);
    }
  }

  // ----- a document numbered twice

  const DOCUMENTS := Key(1, 1)
  const ROW := FacilityRow(1)
  const NOTHING := State(map[], map[])
  const FACILITIES := Setup({}, map[])

  /** One transaction that locks, numbers the document and commits. */
  function NumberOnce(t: int, document: int): seq<Step> {
    [Begin(t), Acquire(t, ROW), Number(t, DOCUMENTS, document), Commit(t)]
  }

  lemma NumberedAlone(rows: map<int, int>, t: int, d: int) returns (b: State, c: State)
    ensures var s := State(map[DOCUMENTS := rows], map[]);
            && b == After(After(s, Begin(t)), Acquire(t, ROW)) && b == s.(txs := map[t := Tx(None, map[], {ROW})])
            && c == After(b, Number(t, DOCUMENTS, d))
            && After(c, Commit(t)) == State(map[DOCUMENTS := rows[d := Next(rows)]], map[])
  {
    var s := State(map[DOCUMENTS := rows], map[]);
    b := After(After(s, Begin(t)), Acquire(t, ROW));
    assert {} + {ROW} == {ROW};
    assert b.txs[t] == Tx(None, map[], {ROW});
    AddsNothing(rows, map[]);
    assert Visible(b, b.txs[t], DOCUMENTS) == rows;
    c := After(b, Number(t, DOCUMENTS, d));
    assert c.txs[t].written == map[DOCUMENTS := map[d := Next(rows)]];
    assert rows + map[d := Next(rows)] == rows[d := Next(rows)];
    assert Merged(c.committed, c.txs[t].written) == map[DOCUMENTS := rows[d := Next(rows)]];
    assert After(c, Commit(t)).txs == map[];
  }

  /** With nobody else at work, the document gets the next serial, over any it had. */
  lemma NumbersOnce(rows: map<int, int>, t: int, d: int)
    ensures var s := State(map[DOCUMENTS := rows], map[]);
            && Follows(FACILITIES, s, NumberOnce(t, d)) && Happens(s, NumberOnce(t, d))
            && Run(s, NumberOnce(t, d)) == State(map[DOCUMENTS := rows[d := Next(rows)]], map[])
  {
    var s := State(map[DOCUMENTS := rows], map[]);
    var a := After(s, Begin(t));
    var b, c := NumberedAlone(rows, t, d);
    RunOne(c, Commit(t), []);
    RunOne(b, Number(t, DOCUMENTS, d), [Commit(t)]);
    RunOne(a, Acquire(t, ROW), [Number(t, DOCUMENTS, d), Commit(t)]);
    RunOne(s, Begin(t), [Acquire(t, ROW), Number(t, DOCUMENTS, d), Commit(t)]);
  }

  lemma RunOne(s: State, step: Step, rest: seq<Step>)
    requires Possible(s, step) && Happens(After(s, step), rest)
    ensures Happens(s, [step] + rest) && Run(s, [step] + rest) == Run(After(s, step), rest)
    ensures Disciplined(FACILITIES, s, step) && Follows(FACILITIES, After(s, step), rest) ==> Follows(FACILITIES, s, [step] + rest)
  {
    assert ([step] + rest)[1..] == rest;
  }

  lemma NextsAre(d: int, e: int)
    ensures Next(map[]) == 1 && map[][d := Next(map[])] == map[d := 1]
    ensures Next(map[d := 1]) == 2 && map[d := 1][d := 2] == map[d := 2] && Next(map[d := 2]) == 3
  {
    var one, two := map[d := 1], map[d := 2];
    assert one[d] == 1 && two[d] == 2;
    NextIs(one, 1);
    NextIs(two, 2);
  }

  lemma OneIsAGap(d: int, e: int, rows: map<int, int>)
    requires d != e && rows == map[d := 2, e := 3]
    ensures !NoGaps(map[], rows)
  {
    assert rows[e] == 3;
    NextIs(rows, 3);
    assert Used(map[], rows, 1) && !Has(rows, 1);
  }

  /** A delivery order confirmed, rejected and confirmed again: its first serial is nobody's, and a later
      document goes on from the second. */
  lemma ConfirmedAgainLeavesAGap(d: int, e: int)
    requires d != e
    ensures var s := State(map[DOCUMENTS := map[]], map[]);
            && Follows(FACILITIES, s, NumberOnce(1, d)) && Happens(s, NumberOnce(1, d))
            && Follows(FACILITIES, Run(s, NumberOnce(1, d)), NumberOnce(2, d)) && Happens(Run(s, NumberOnce(1, d)), NumberOnce(2, d))
            && Follows(FACILITIES, Run(Run(s, NumberOnce(1, d)), NumberOnce(2, d)), NumberOnce(3, e))
            && Happens(Run(Run(s, NumberOnce(1, d)), NumberOnce(2, d)), NumberOnce(3, e))
            && var rows := At(Run(Run(Run(s, NumberOnce(1, d)), NumberOnce(2, d)), NumberOnce(3, e)).committed, DOCUMENTS);
               rows == map[d := 2, e := 3] && !NoGaps(map[], rows)
  {
    var none: map<int, int>, one, two := map[], map[d := 1], map[d := 2];
    NextsAre(d, e);
    NumbersOnce(none, 1, d);
    NumbersOnce(one, 2, d);
    NumbersOnce(two, 3, e);
    OneIsAGap(d, e, two[e := 3]);
  }

  // ----- without the rule

  /** One transaction has read; another has locked, numbered and committed. */
  const STALE := State(map[DOCUMENTS := map[20 := 1]], map[1 := Tx(Some(map[]), map[], {})])

  const EARLIER := [Begin(1), Read(1), Begin(2), Acquire(2, ROW), Number(2, DOCUMENTS, 20), Commit(2)]
  const LATER := [Acquire(1, ROW), Number(1, DOCUMENTS, 10), Commit(1)]

  lemma EarlierGoesStale()
    ensures Happens(NOTHING, EARLIER) && Run(NOTHING, EARLIER) == STALE
  {
    var s2 := State(map[], map[1 := Tx(Some(map[]), map[], {})]);
    var s4 := State(map[], map[1 := Tx(Some(map[]), map[], {}), 2 := Tx(None, map[], {ROW})]);
    var s5 := State(map[], map[1 := Tx(Some(map[]), map[], {}), 2 := Tx(Some(map[]), map[DOCUMENTS := map[20 := 1]], {ROW})]);
    assert After(After(NOTHING, Begin(1)), Read(1)) == s2;
    assert {} + {ROW} == {ROW};
    assert After(After(s2, Begin(2)), Acquire(2, ROW)) == s4;
    assert Visible(s4, s4.txs[2], DOCUMENTS) == map[];
    assert Numbered(s4, s4.txs[2], DOCUMENTS, 20) == s5.txs[2];
    assert After(s4, Number(2, DOCUMENTS, 20)).txs == s5.txs;
    assert After(s4, Number(2, DOCUMENTS, 20)) == s5;
    assert map[] + map[20 := 1] == map[20 := 1];
    assert Merged(s5.committed, s5.txs[2].written) == map[DOCUMENTS := map[20 := 1]];
    assert s5.txs - {2} == map[1 := Tx(Some(map[]), map[], {})];
    RunOne(s5, Commit(2), []);
    RunOne(s4, Number(2, DOCUMENTS, 20), [Commit(2)]);
    RunOne(After(s2, Begin(2)), Acquire(2, ROW), [Number(2, DOCUMENTS, 20), Commit(2)]);
    RunOne(s2, Begin(2), [Acquire(2, ROW), Number(2, DOCUMENTS, 20), Commit(2)]);
    RunOne(After(NOTHING, Begin(1)), Read(1), [Begin(2), Acquire(2, ROW), Number(2, DOCUMENTS, 20), Commit(2)]);
    RunOne(NOTHING, Begin(1), [Read(1), Begin(2), Acquire(2, ROW), Number(2, DOCUMENTS, 20), Commit(2)]);
  }

  /** A transaction that reads before it waits for the lock numbers from what it read, and gives out again
      the number the lock's last holder committed. */
  lemma StaleSnapshotRepeatsASerial()
    ensures Happens(NOTHING, EARLIER) && Happens(Run(NOTHING, EARLIER), LATER)
    ensures At(Run(Run(NOTHING, EARLIER), LATER).committed, DOCUMENTS) == map[20 := 1, 10 := 1]
  {
    EarlierGoesStale();
    var s7 := State(map[DOCUMENTS := map[20 := 1]], map[1 := Tx(Some(map[]), map[], {ROW})]);
    var s8 := State(map[DOCUMENTS := map[20 := 1]], map[1 := Tx(Some(map[]), map[DOCUMENTS := map[10 := 1]], {ROW})]);
    assert {} + {ROW} == {ROW};
    assert After(STALE, Acquire(1, ROW)) == s7;
    assert Visible(s7, s7.txs[1], DOCUMENTS) == map[];
    assert Numbered(s7, s7.txs[1], DOCUMENTS, 10) == s8.txs[1];
    assert After(s7, Number(1, DOCUMENTS, 10)).txs == s8.txs;
    assert After(s7, Number(1, DOCUMENTS, 10)) == s8;
    RunOne(s8, Commit(1), []);
    RunOne(s7, Number(1, DOCUMENTS, 10), [Commit(1)]);
    RunOne(STALE, Acquire(1, ROW), [Number(1, DOCUMENTS, 10), Commit(1)]);
  }

  // ----- the steps as the code takes them

  datatype Refusal = NoInTransitLocation

  /** The largest of the serials read. */
  method HighestOf(rows: map<int, int>) returns (highest: Option<int>)
    ensures highest == Highest(rows)
  {
    highest := None;
    var rest := rows;
    while rest.Keys != {}
      invariant rest.Keys <= rows.Keys && forall d :: d in rest ==> rest[d] == rows[d]
      invariant highest.None? ==> rest == rows
      invariant highest.Some? ==> Has(rows, highest.value)
      invariant forall d :: d in rows && d !in rest ==> highest.Some? && rows[d] <= highest.value
      decreases |rest|
    {
      var d := Least(rest.Keys);
      if highest.None? || highest.value < rest[d] {
        highest := Some(rest[d]);
      }
      rest := rest - {d};
    }
    if highest.Some? {
      NextIs(rows, highest.value);
    }
  }

  class Database {
    const setup: Setup
    var committed: Serials
    var txs: map<int, Tx>

    constructor (setup: Setup, committed: Serials)
      ensures this.setup == setup && Now() == State(committed, map[])
    {
      this.setup, this.committed, this.txs := setup, committed, map[];
    }

    ghost function Now(): State
      reads this
    {
      State(committed, txs)
    }

    /** The next serial, read after the lock and written in the same transaction. */
    method NextSerial(tx: int, key: Key, document: int) returns (serial: int)
      requires tx in txs
      modifies this`txs
      ensures serial == Next(Visible(old(Now()), old(txs)[tx], key))
      ensures Now() == After(old(Now()), Number(tx, key, document))
    {
      var t := txs[tx];
      var snapshot := t.snapshot.Or(committed);
      var highest := HighestOf(At(snapshot, key) + At(t.written, key));
      serial := highest.Or(0) + 1;
      txs := txs[tx := t.(snapshot := Some(snapshot), written := t.written[key := At(t.written, key)[document := serial]])];
    }

    /** Take the lock the key's numbering steps queue on, and then the next serial. */
    method AssignFolio(tx: int, key: Key, document: int) returns (serial: Result<int, Refusal>)
      requires tx in txs && (LockFor(setup, key).Some? ==> Free(Now(), LockFor(setup, key).value, tx))
      modifies this`txs
      ensures match LockFor(setup, key)
              case None => serial == Refused(NoInTransitLocation) && Now() == old(Now())
              case Some(lock) =>
                var locked := After(old(Now()), Acquire(tx, lock));
                && serial == Ok(Next(Visible(locked, locked.txs[tx], key)))
                && Now() == After(locked, Number(tx, key, document))
    {
      var lock := LockFor(setup, key);
      if lock.None? {
        return Refused(NoInTransitLocation);
      }
      txs := txs[tx := txs[tx].(held := txs[tx].held + {lock.value})];
      var n := NextSerial(tx, key, document);
      return Ok(n);
    }
  }
}
