/** Reading tables: rows are maps from a key, and a query is a filter and a sum over one. */
module Tables {

  /** The sum of a column. */
  ghost function Total<K>(column: map<K, int>): int
    decreases |column|
  {
    if column == map[] then 0
    else
      var k :| k in column;
      column[k] + Total(column - {k})
  }

  /** The rows may be added up in any order. */
  lemma {:induction false} TotalWithout<K>(column: map<K, int>, k: K)
    requires k in column
    ensures Total(column) == column[k] + Total(column - {k})
    decreases |column|
  {
    var j :| j in column && Total(column) == column[j] + Total(column - {j});
    if j != k {
      TotalWithout(column - {j}, k);
      TotalWithout(column - {k}, j);
      assert column - {j} - {k} == column - {k} - {j};
    }
  }

  /** Inserting or overwriting a row. */
  lemma TotalUpdate<K>(column: map<K, int>, k: K, v: int)
    ensures Total(column[k := v]) == Total(column) + v - (if k in column then column[k] else 0)
  {
    TotalWithout(column[k := v], k);
    assert column[k := v] - {k} == column - {k};
    if k in column {
      TotalWithout(column, k);
    } else {
      assert column - {k} == column;
    }
  }

  /** Two columns over the same keys, row by row. */
  lemma {:induction false} TotalSum<K>(a: map<K, int>, b: map<K, int>, c: map<K, int>)
    requires a.Keys == b.Keys == c.Keys
    requires forall k :: k in a ==> c[k] == a[k] + b[k]
    ensures Total(c) == Total(a) + Total(b)
    decreases |a|
  {
    if a != map[] {
      var k :| k in a;
      TotalWithout(a, k);
      TotalWithout(b, k);
      TotalWithout(c, k);
      TotalSum(a - {k}, b - {k}, c - {k});
    } else {
      assert b == map[] && c == map[];
    }
  }

  lemma {:induction false} TotalMonotone<K>(a: map<K, int>, b: map<K, int>)
    requires a.Keys == b.Keys
    requires forall k :: k in a ==> a[k] <= b[k]
    ensures Total(a) <= Total(b)
    decreases |a|
  {
    if a != map[] {
      var k :| k in a;
      TotalWithout(a, k);
      TotalWithout(b, k);
      TotalMonotone(a - {k}, b - {k});
    } else {
      assert b == map[];
    }
  }

  lemma {:induction false} TotalZero<K>(a: map<K, int>)
    requires forall k :: k in a ==> a[k] == 0
    ensures Total(a) == 0
    decreases |a|
  {
    if a != map[] {
      var k :| k in a;
      TotalWithout(a, k);
      TotalZero(a - {k});
    }
  }

  lemma {:induction false} TotalNonNegative<K>(a: map<K, int>)
    requires forall k :: k in a ==> a[k] >= 0
    ensures Total(a) >= 0
    decreases |a|
  {
    if a != map[] {
      var k :| k in a;
      TotalWithout(a, k);
      TotalNonNegative(a - {k});
    }
  }

  /** Nothing above zero, and nothing in all: only zeros. */
  lemma TotalOnlyZeros<K>(a: map<K, int>)
    requires Total(a) == 0 && forall k :: k in a ==> a[k] <= 0
    ensures forall k :: k in a ==> a[k] == 0
  {
    forall k | k in a ensures a[k] == 0 {
      var zeros := map j | j in a - {k} :: 0;
      TotalWithout(a, k);
      TotalMonotone(a - {k}, zeros);
      TotalZero(zeros);
    }
  }

  lemma UnionAdds<K>(a: map<K, int>, b: map<K, int>, k: K)
    requires k in b && k !in a
    ensures a + b == (a + (b - {k}))[k := b[k]]
    ensures k !in a + (b - {k})
  {
  }

  /** Rows of two tables with no key in common. */
  lemma {:induction false} TotalUnion<K>(a: map<K, int>, b: map<K, int>)
    requires a.Keys !! b.Keys
    ensures Total(a + b) == Total(a) + Total(b)
    decreases |b|
  {
    if b == map[] {
      assert a + b == a;
    } else {
      var k :| k in b;
      var rest := b - {k};
      TotalUnion(a, rest);
      TotalWithout(b, k);
      UnionAdds(a, b, k);
      TotalUpdate(a + rest, k, b[k]);
    }
  }

  /** Equal columns, given row by row. */
  lemma TotalSame<K>(a: map<K, int>, b: map<K, int>)
    requires a.Keys == b.Keys
    requires forall k :: k in a ==> a[k] == b[k]
    ensures Total(a) == Total(b)
  {
    assert a == b;
  }

  /** Columns that differ in one row at most, which either may lack. */
  lemma TotalBut<K>(a: map<K, int>, b: map<K, int>, k: K)
    requires forall j :: j != k ==> (j in a <==> j in b)
    requires forall j :: j in a && j in b && j != k ==> a[j] == b[j]
    ensures Total(b) - (if k in b then b[k] else 0) == Total(a) - (if k in a then a[k] else 0)
  {
    if k in a {
      TotalWithout(a, k);
    } else {
      assert a - {k} == a;
    }
    if k in b {
      TotalWithout(b, k);
    } else {
      assert b - {k} == b;
    }
    TotalSame(a - {k}, b - {k});
  }

  /** A column with zeros for the rows it lacks. */
  function Padded<K>(column: map<K, int>, keys: set<K>): map<K, int> {
    map k | k in keys :: if k in column then column[k] else 0
  }

  lemma TotalPadded<K>(column: map<K, int>, keys: set<K>)
    requires column.Keys <= keys
    ensures Total(Padded(column, keys)) == Total(column)
  {
    var zeros: map<K, int> := map k | k in keys && k !in column :: 0;
    TotalZero(zeros);
    TotalUnion(column, zeros);
    TotalSame(Padded(column, keys), column + zeros);
  }

  /** Columns that agree where both have a row, and are zero where only one has. */
  lemma TotalAlike<K>(a: map<K, int>, b: map<K, int>)
    requires forall k :: k in a && k in b ==> a[k] == b[k]
    requires forall k :: k in a && k !in b ==> a[k] == 0
    requires forall k :: k in b && k !in a ==> b[k] == 0
    ensures Total(a) == Total(b)
  {
    var keys := a.Keys + b.Keys;
    TotalPadded(a, keys);
    TotalPadded(b, keys);
    TotalSame(Padded(a, keys), Padded(b, keys));
  }

  /** Some of the rows of a column without negatives. */
  lemma TotalPart<K>(part: map<K, int>, whole: map<K, int>)
    requires forall k :: k in part ==> k in whole && part[k] == whole[k]
    requires forall k :: k in whole ==> whole[k] >= 0
    ensures Total(part) <= Total(whole)
  {
    TotalPadded(part, whole.Keys);
    TotalMonotone(Padded(part, whole.Keys), whole);
  }

  /** Adding up row by row, in some order. */
  function SumOver(column: map<int, int>, keys: seq<int>): int
    requires forall k :: k in keys ==> k in column
  {
    if keys == [] then 0
    else
      var last := keys[|keys| - 1];
      SumOver(column, keys[..|keys| - 1]) + column[last]
  }

  lemma {:induction false} SumWithout(column: map<int, int>, k: int, keys: seq<int>)
    requires k in column && k !in keys && forall j :: j in keys ==> j in column
    ensures forall j :: j in keys ==> j in column - {k}
    ensures SumOver(column - {k}, keys) == SumOver(column, keys)
  {
    if keys != [] {
      SumWithout(column, k, keys[..|keys| - 1]);
    }
  }

  /** Taking the rows in ascending order adds up to the column's sum. */
  lemma {:induction false} SumInOrder(column: map<int, int>, keys: seq<int>)
    requires Increasing(keys) && forall k :: k in keys <==> k in column
    ensures SumOver(column, keys) == Total(column)
  {
    if keys == [] {
      forall k ensures k !in column {
        assert k in column <==> k in keys;
      }
      assert column == map[];
    } else {
      var rest, last := keys[..|keys| - 1], keys[|keys| - 1];
      assert keys == rest + [last];
      assert last in column;
      forall k ensures k in rest <==> k in column - {last} {
        assert k in keys <==> k in rest || k == last;
      }
      SumInOrder(column - {last}, rest);
      SumWithout(column, last, rest);
      TotalWithout(column, last);
    }
  }

  ghost function AnyOf<K>(keys: set<K>): (k: K)
    requires keys != {}
    ensures k in keys
  {
    var k :| k in keys;
    k
  }

  /** One key fewer to do is one more done. */
  lemma OneMoreDone<K>(all: set<K>, todo: set<K>, k: K)
    requires k in todo && todo <= all
    ensures k !in all - todo && all - (todo - {k}) == (all - todo) + {k}
  {
  }

  /** The least key of a non-empty set. */
  function Least(keys: set<int>): (k: int)
    requires keys != {}
    ensures k in keys && forall j :: j in keys ==> k <= j
  {
    LeastExists(keys);
    var k :| k in keys && forall j :: j in keys ==> k <= j;
    k
  }

  lemma {:induction false} LeastExists(keys: set<int>)
    requires keys != {}
    ensures exists k :: k in keys && forall j :: j in keys ==> k <= j
    decreases |keys|
  {
    var k := AnyOf(keys);
    var rest := keys - {k};
    assert forall j :: j in keys <==> j in rest || j == k;
    if rest != {} {
      LeastExists(rest);
      var m :| m in rest && forall j :: j in rest ==> m <= j;
      var least := if m < k then m else k;
      assert least in keys;
      forall j | j in keys ensures least <= j {
        assert j in rest || j == k;
      }
    }
  }

  ghost predicate Increasing(s: seq<int>) {
    forall i, j :: 0 <= i < j < |s| ==> s[i] < s[j]
  }

  /** The keys in ascending order: `sorted(…)` of a set, or an `ORDER BY` on a key. */
  function Ascending(keys: set<int>): (s: seq<int>)
    ensures Increasing(s)
    ensures forall k :: k in s <==> k in keys
    ensures |s| == |keys|
    decreases |keys|
  {
    if keys == {} then []
    else
      var k := Least(keys);
      [k] + Ascending(keys - {k})
  }

  lemma Listed(keys: set<int>)
    ensures var s := Ascending(keys);
            && (forall i :: 0 <= i < |s| ==> s[i] in keys)
            && (forall i, k :: 0 <= i <= |s| && k in s[..i] ==> k in keys)
  {
    var s := Ascending(keys);
    forall i | 0 <= i < |s| ensures s[i] in keys {
      assert s[i] in s;
    }
  }

  /** There is only one ascending order. */
  lemma {:induction false} AscendingUnique(s: seq<int>, keys: set<int>)
    requires Increasing(s) && forall k :: k in s <==> k in keys
    ensures s == Ascending(keys)
    decreases |s|
  {
    if s != [] {
      var rest := s[1..];
      assert s == [s[0]] + rest;
      assert s[0] in keys;
      forall k | k in keys ensures s[0] <= k {
        assert k in s;
      }
      assert Least(keys) == s[0];
      forall k ensures k in rest <==> k in keys - {s[0]} {
        assert k in s <==> k == s[0] || k in rest;
      }
      AscendingUnique(rest, keys - {s[0]});
    } else {
      forall k ensures k !in keys {
        assert k in s <==> k in keys;
      }
      assert keys == {};
    }
  }

  /** The greatest key of a non-empty set: `MAX(…)`, or a descending `ORDER BY` with `LIMIT 1`. */
  function Greatest(keys: set<int>): (k: int)
    requires keys != {}
    ensures k in keys && forall j :: j in keys ==> j <= k
  {
    var s := Ascending(keys);
    assert s[|s| - 1] in s;
    assert forall j :: j in keys ==> j in s;
    s[|s| - 1]
  }

  /** An identity not in use. */
  function NextId<T>(rows: map<int, T>): (id: int)
    ensures forall k :: k in rows ==> k < id
  {
    if rows.Keys == {} then 1 else Greatest(rows.Keys) + 1
  }

  /** Add a column up, row by row. */
  method Sum(column: map<int, int>) returns (sum: int)
    ensures sum == Total(column)
  {
    sum := 0;
    var rest := column;
    while rest.Keys != {}
      invariant sum + Total(rest) == Total(column)
      decreases |rest|
    {
      var k := Least(rest.Keys);
      TotalWithout(rest, k);
      sum := sum + rest[k];
      rest := rest - {k};
    }
  }
}
