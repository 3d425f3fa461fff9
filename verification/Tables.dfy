/** Rows, optional values and the aggregates that the SQL statements compute. */
module Tables {
  datatype Option<+T> = None | Some(value: T)

  datatype Result<+T, +E> = Ok(value: T) | Err(error: E)

  function Max(a: int, b: int): int {
    if a >= b then a else b
  }

  function Min(a: int, b: int): int {
    if a <= b then a else b
  }

  /** `select coalesce(sum(weight(row)), 0)` over a table. */
  function Sum<T>(rows: seq<T>, weight: T -> int): int {
    if rows == [] then 0 else Sum(rows[..|rows| - 1], weight) + weight(rows[|rows| - 1])
  }

  lemma SumAppend<T>(rows: seq<T>, row: T, weight: T -> int)
    ensures Sum(rows + [row], weight) == Sum(rows, weight) + weight(row)
  {
    assert (rows + [row])[..|rows|] == rows;
  }

  lemma OneSum<T>(x: T, w: T -> int)
    ensures Sum([x], w) == w(x)
  {
    assert [x][..0] == [];
  }

  lemma TwoSums<T>(x: T, y: T, w: T -> int)
    ensures Sum([x, y], w) == w(x) + w(y)
  {
    assert [x, y][..1] == [x];
    OneSum(x, w);
  }

  lemma {:induction false} SumUpdate<T>(rows: seq<T>, i: nat, row: T, weight: T -> int)
    requires i < |rows|
    ensures Sum(rows[i := row], weight) == Sum(rows, weight) - weight(rows[i]) + weight(row)
  {
    var last := |rows| - 1;
    if i == last {
      assert rows[i := row][..last] == rows[..last];
    } else {
      assert rows[i := row][..last] == rows[..last][i := row];
      SumUpdate(rows[..last], i, row, weight);
    }
  }

  /** Comparing two tables row by row compares their sums, for two weights. */
  lemma {:induction false} SumLe<T>(a: seq<T>, b: seq<T>, v: T -> int, w: T -> int)
    requires |a| == |b|
    requires forall i | 0 <= i < |a| :: v(a[i]) <= w(b[i])
    ensures Sum(a, v) <= Sum(b, w)
  {
    if a != [] {
      SumLe(a[..|a| - 1], b[..|b| - 1], v, w);
    }
  }

  lemma {:induction false} SumSplit<T>(rows: seq<T>, v: T -> int, w: T -> int, whole: T -> int)
    requires forall i | 0 <= i < |rows| :: v(rows[i]) + w(rows[i]) == whole(rows[i])
    ensures Sum(rows, v) + Sum(rows, w) == Sum(rows, whole)
  {
    if rows != [] {
      SumSplit(rows[..|rows| - 1], v, w, whole);
    }
  }

  lemma {:induction false} SumZero<T>(rows: seq<T>, weight: T -> int)
    requires forall i | 0 <= i < |rows| :: weight(rows[i]) == 0
    ensures Sum(rows, weight) == 0
  {
    if rows != [] {
      SumZero(rows[..|rows| - 1], weight);
    }
  }

  lemma {:induction false} SumAtLeast<T>(rows: seq<T>, i: nat, weight: T -> int)
    requires i < |rows|
    requires forall j | 0 <= j < |rows| :: 0 <= weight(rows[j])
    ensures weight(rows[i]) <= Sum(rows, weight)
  {
    var last := |rows| - 1;
    SumNonNegative(rows[..last], weight);
    if i < last {
      SumAtLeast(rows[..last], i, weight);
    }
  }

  lemma {:induction false} SumNonNegative<T>(rows: seq<T>, weight: T -> int)
    requires forall j | 0 <= j < |rows| :: 0 <= weight(rows[j])
    ensures 0 <= Sum(rows, weight)
  {
    if rows != [] {
      SumNonNegative(rows[..|rows| - 1], weight);
    }
  }
}
