/** Sums over the rows of a table, as SQL's SUM and COUNT compute them. */
module Sums {

  function Sum<T>(rows: seq<T>, f: T -> int): int {
    if rows == [] then 0 else Sum(rows[..|rows| - 1], f) + f(rows[|rows| - 1])
  }

  /** The first row that satisfies `f`, as a SELECT on a key finds it. */
  function Find<T>(rows: seq<T>, f: T -> bool): (found: int)
    ensures -1 <= found < |rows|
    ensures found >= 0 ==> f(rows[found])
    ensures found < 0 ==> forall i :: 0 <= i < |rows| ==> !f(rows[i])
  {
    if rows == [] then -1
    else
      var before := Find(rows[..|rows| - 1], f);
      if before >= 0 then before
      else if f(rows[|rows| - 1]) then |rows| - 1
      else -1
  }

  /** The latest row that satisfies `f`: ORDER BY created_at DESC LIMIT 1. */
  function FindLast<T>(rows: seq<T>, f: T -> bool): (found: int)
    ensures -1 <= found < |rows|
    ensures found >= 0 ==> f(rows[found])
    ensures found < 0 ==> forall i :: 0 <= i < |rows| ==> !f(rows[i])
  {
    if rows == [] then -1
    else if f(rows[|rows| - 1]) then |rows| - 1
    else FindLast(rows[..|rows| - 1], f)
  }

  lemma SumAppend<T>(rows: seq<T>, row: T, f: T -> int)
    ensures Sum(rows + [row], f) == Sum(rows, f) + f(row)
  {
    assert (rows + [row])[..|rows|] == rows;
  }

  lemma {:induction false} SumUpdate<T>(rows: seq<T>, i: nat, row: T, f: T -> int)
    requires i < |rows|
    ensures Sum(rows[i := row], f) == Sum(rows, f) - f(rows[i]) + f(row)
  {
    var last := |rows| - 1;
    if i == last {
      assert rows[i := row][..last] == rows[..last];
    } else {
      assert rows[i := row][..last] == rows[..last][i := row];
      SumUpdate(rows[..last], i, row, f);
    }
  }

  lemma {:induction false} SumZero<T>(rows: seq<T>, f: T -> int)
    requires forall i :: 0 <= i < |rows| ==> f(rows[i]) == 0
    ensures Sum(rows, f) == 0
  {
    if rows != [] {
      SumZero(rows[..|rows| - 1], f);
    }
  }

  lemma {:induction false} SumNonNegative<T>(rows: seq<T>, f: T -> int)
    requires forall i :: 0 <= i < |rows| ==> f(rows[i]) >= 0
    ensures Sum(rows, f) >= 0
  {
    if rows != [] {
      SumNonNegative(rows[..|rows| - 1], f);
    }
  }

  lemma {:induction false} SumAtLeast<T>(rows: seq<T>, f: T -> int, i: nat)
    requires i < |rows|
    requires forall j :: 0 <= j < |rows| ==> f(rows[j]) >= 0
    ensures Sum(rows, f) >= f(rows[i])
  {
    if i == |rows| - 1 {
      SumNonNegative(rows[..i], f);
    } else {
      SumAtLeast(rows[..|rows| - 1], f, i);
    }
  }

  /** Two rows of a table weigh at most the table's total. */
  lemma {:induction false} SumAtLeastTwo<T>(rows: seq<T>, f: T -> int, i: nat, j: nat)
    requires i < j < |rows|
    requires forall k :: 0 <= k < |rows| ==> f(rows[k]) >= 0
    ensures Sum(rows, f) >= f(rows[i]) + f(rows[j])
  {
    if j == |rows| - 1 {
      SumAtLeast(rows[..j], f, i);
    } else {
      SumAtLeastTwo(rows[..|rows| - 1], f, i, j);
    }
  }

  /** A positive total has a row that contributes to it. */
  lemma {:induction false} SumPositive<T>(rows: seq<T>, f: T -> int) returns (i: nat)
    requires Sum(rows, f) > 0
    ensures i < |rows| && f(rows[i]) > 0
  {
    if f(rows[|rows| - 1]) > 0 {
      i := |rows| - 1;
    } else {
      i := SumPositive(rows[..|rows| - 1], f);
    }
  }

  lemma {:induction false} SumPlus<T>(rows: seq<T>, f: T -> int, g: T -> int, h: T -> int)
    requires forall i :: 0 <= i < |rows| ==> h(rows[i]) == f(rows[i]) + g(rows[i])
    ensures Sum(rows, h) == Sum(rows, f) + Sum(rows, g)
  {
    if rows != [] {
      SumPlus(rows[..|rows| - 1], f, g, h);
    }
  }

  lemma {:induction false} SumBelow<T>(rows: seq<T>, f: T -> int, g: T -> int)
    requires forall i :: 0 <= i < |rows| ==> f(rows[i]) <= g(rows[i])
    ensures Sum(rows, f) <= Sum(rows, g)
  {
    if rows != [] {
      SumBelow(rows[..|rows| - 1], f, g);
    }
  }

  /** Rows of equal weight in the same places have equal totals. */
  lemma {:induction false} SumSame<S, T>(left: seq<S>, f: S -> int, right: seq<T>, g: T -> int)
    requires |left| == |right|
    requires forall i :: 0 <= i < |left| ==> f(left[i]) == g(right[i])
    ensures Sum(left, f) == Sum(right, g)
  {
    if left != [] {
      SumSame(left[..|left| - 1], f, right[..|right| - 1], g);
    }
  }
}
