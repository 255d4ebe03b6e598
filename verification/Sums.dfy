/** Sums over the rows of a table. */
module Sums {
  import opened Schema

  /** The sum of `f` over the rows of a table, in whatever order they come. */
  ghost function Sum<V>(table: map<Id, V>, f: V -> int): (total: int)
    decreases |table|
  {
    if table == map[] then
      0
    else
      var k :| k in table;
      f(table[k]) + Sum(table - {k}, f)
  }

  lemma {:induction false} SumSplit<V>(table: map<Id, V>, f: V -> int, k: Id)
    requires k in table
    ensures Sum(table, f) == f(table[k]) + Sum(table - {k}, f)
    decreases |table|
  {
    var j :| j in table && Sum(table, f) == f(table[j]) + Sum(table - {j}, f);
    if j != k {
      SumSplit(table - {j}, f, k);
      SumSplit(table - {k}, f, j);
      assert table - {j} - {k} == table - {k} - {j};
    }
  }

  lemma SumUpdate<V>(table: map<Id, V>, f: V -> int, k: Id, row: V)
    ensures Sum(table[k := row], f) == Sum(table, f) - (if k in table then f(table[k]) else 0) + f(row)
  {
    SumSplit(table[k := row], f, k);
    if k in table {
      SumSplit(table, f, k);
      assert table[k := row] - {k} == table - {k};
    } else {
      assert table[k := row] - {k} == table;
    }
  }

  lemma {:induction false} SumNonNegative<V>(table: map<Id, V>, f: V -> int)
    requires forall k :: k in table ==> 0 <= f(table[k])
    ensures 0 <= Sum(table, f)
    decreases |table|
  {
    if table != map[] {
      var k :| k in table;
      SumSplit(table, f, k);
      SumNonNegative(table - {k}, f);
    }
  }

  lemma {:induction false} SumZero<V>(table: map<Id, V>, f: V -> int)
    requires forall k :: k in table ==> f(table[k]) == 0
    ensures Sum(table, f) == 0
    decreases |table|
  {
    if table != map[] {
      var k :| k in table;
      SumSplit(table, f, k);
      SumZero(table - {k}, f);
    }
  }

  /** Sums of two tables with the same keys compare as their rows do. */
  lemma {:induction false} SumMonotone<V>(a: map<Id, V>, b: map<Id, V>, f: V -> int)
    requires a.Keys == b.Keys
    requires forall k :: k in a ==> f(a[k]) <= f(b[k])
    ensures Sum(a, f) <= Sum(b, f)
    decreases |a|
  {
    if a == map[] {
      assert b == map[];
    } else {
      var k :| k in a;
      SumSplit(a, f, k);
      SumSplit(b, f, k);
      SumMonotone(a - {k}, b - {k}, f);
    }
  }

  /** Rows that contribute nothing may come and go. */
  lemma {:induction false} SumOfSharedRows<V>(a: map<Id, V>, b: map<Id, V>, f: V -> int)
    requires forall k :: k in a && f(a[k]) != 0 ==> k in b && f(b[k]) == f(a[k])
    requires forall k :: k in b && f(b[k]) != 0 ==> k in a && f(a[k]) == f(b[k])
    ensures Sum(a, f) == Sum(b, f)
    decreases |a| + |b|
  {
    if k :| k in a {
      SumSplit(a, f, k);
      if k in b {
        assert f(a[k]) == f(b[k]);
        SumSplit(b, f, k);
        SumOfSharedRows(a - {k}, b - {k}, f);
      } else {
        assert f(a[k]) == 0;
        SumOfSharedRows(a - {k}, b, f);
      }
    } else if k :| k in b {
      assert a == map[];
      SumSplit(b, f, k);
      SumOfSharedRows(a, b - {k}, f);
    } else {
      assert a == map[] && b == map[];
    }
  }

  /** The sum of a pointwise sum. */
  lemma {:induction false} SumOfParts<V>(table: map<Id, V>, f: V -> int, g: V -> int, h: V -> int)
    requires forall k :: k in table ==> h(table[k]) == f(table[k]) + g(table[k])
    ensures Sum(table, h) == Sum(table, f) + Sum(table, g)
    decreases |table|
  {
    if table != map[] {
      var k :| k in table;
      SumSplit(table, f, k);
      SumSplit(table, g, k);
      SumSplit(table, h, k);
      SumOfParts(table - {k}, f, g, h);
    }
  }

  /** The multiset union of `f` over the rows of a table. */
  ghost function Gather<V, T(!new)>(table: map<Id, V>, f: V -> multiset<T>): (all: multiset<T>)
    decreases |table|
  {
    if table == map[] then
      multiset{}
    else
      var k :| k in table;
      f(table[k]) + Gather(table - {k}, f)
  }

  lemma {:induction false} GatherSplit<V, T(!new)>(table: map<Id, V>, f: V -> multiset<T>, k: Id)
    requires k in table
    ensures Gather(table, f) == f(table[k]) + Gather(table - {k}, f)
    decreases |table|
  {
    var j :| j in table && Gather(table, f) == f(table[j]) + Gather(table - {j}, f);
    if j != k {
      GatherSplit(table - {j}, f, k);
      GatherSplit(table - {k}, f, j);
      assert table - {j} - {k} == table - {k} - {j};
    }
  }

  lemma GatherInsert<V, T(!new)>(table: map<Id, V>, f: V -> multiset<T>, k: Id, row: V)
    requires k !in table
    ensures Gather(table[k := row], f) == Gather(table, f) + f(row)
  {
    GatherSplit(table[k := row], f, k);
    assert table[k := row] - {k} == table;
  }

  lemma GatherReplace<V, T(!new)>(table: map<Id, V>, f: V -> multiset<T>, k: Id, row: V)
    requires k in table
    ensures Gather(table[k := row], f) == Gather(table, f) - f(table[k]) + f(row)
  {
    GatherSplit(table[k := row], f, k);
    GatherSplit(table, f, k);
    assert table[k := row] - {k} == table - {k};
  }

  /** Rows that contribute nothing may come and go. */
  lemma {:induction false} GatherShared<V, T(!new)>(a: map<Id, V>, b: map<Id, V>, f: V -> multiset<T>)
    requires forall k :: k in a && f(a[k]) != multiset{} ==> k in b && f(b[k]) == f(a[k])
    requires forall k :: k in b && f(b[k]) != multiset{} ==> k in a && f(a[k]) == f(b[k])
    ensures Gather(a, f) == Gather(b, f)
    decreases |a| + |b|
  {
    if k :| k in a {
      GatherSplit(a, f, k);
      if k in b {
        assert f(a[k]) == f(b[k]);
        GatherSplit(b, f, k);
        GatherShared(a - {k}, b - {k}, f);
      } else {
        assert f(a[k]) == multiset{};
        GatherShared(a - {k}, b, f);
      }
    } else if k :| k in b {
      assert a == map[];
      GatherSplit(b, f, k);
      GatherShared(a, b - {k}, f);
    } else {
      assert a == map[] && b == map[];
    }
  }
}
