/** Weighted sums over the rows of a table. */
module Sums {

  function Sum<T>(rows: seq<T>, weight: T -> int): int {
    if rows == [] then 0 else Sum(rows[..|rows| - 1], weight) + weight(rows[|rows| - 1])
  }

  lemma {:induction false} SumAppend<T>(rows: seq<T>, row: T, weight: T -> int)
    ensures Sum(rows + [row], weight) == Sum(rows, weight) + weight(row)
  {
    assert (rows + [row])[..|rows|] == rows;
  }

  lemma {:induction false} SumUpdate<T>(rows: seq<T>, i: nat, row: T, weight: T -> int)
    requires i < |rows|
    ensures Sum(rows[i := row], weight) == Sum(rows, weight) - weight(rows[i]) + weight(row)
  {
    var last := |rows| - 1;
    if i < last {
      assert rows[i := row][..last] == rows[..last][i := row];
      SumUpdate(rows[..last], i, row, weight);
    } else {
      assert rows[i := row][..last] == rows[..last];
    }
  }

  lemma {:induction false} SumZero<T>(rows: seq<T>, weight: T -> int)
    requires forall i | 0 <= i < |rows| :: weight(rows[i]) == 0
    ensures Sum(rows, weight) == 0
  {
    if rows != [] {
      SumZero(rows[..|rows| - 1], weight);
    }
  }

  /** One row at most carries weight, and at most one unit of it. */
  lemma {:induction false} SumAtMostOne<T>(rows: seq<T>, weight: T -> int)
    requires forall i | 0 <= i < |rows| :: 0 <= weight(rows[i]) <= 1
    requires forall i, j | 0 <= i < j < |rows| :: weight(rows[i]) == 0 || weight(rows[j]) == 0
    ensures 0 <= Sum(rows, weight) <= 1
  {
    if rows != [] {
      var front := rows[..|rows| - 1];
      if weight(rows[|rows| - 1]) == 1 {
        SumZero(front, weight);
      } else {
        SumAtMostOne(front, weight);
      }
    }
  }

  lemma {:induction false} SumNonNegative<T>(rows: seq<T>, weight: T -> int)
    requires forall i | 0 <= i < |rows| :: weight(rows[i]) >= 0
    ensures Sum(rows, weight) >= 0
  {
    if rows != [] {
      SumNonNegative(rows[..|rows| - 1], weight);
    }
  }

  lemma {:induction false} SumAtLeast<T>(rows: seq<T>, weight: T -> int, i: nat)
    requires i < |rows| && forall j | 0 <= j < |rows| :: weight(rows[j]) >= 0
    ensures Sum(rows, weight) >= weight(rows[i])
  {
    var last := |rows| - 1;
    if i < last {
      SumAtLeast(rows[..last], weight, i);
    } else {
      SumNonNegative(rows[..last], weight);
    }
  }
}
