/** Finite sums. */
module Sums {

  function Sum(f: nat -> int, n: nat): int {
    if n == 0 then 0 else Sum(f, n - 1) + f(n - 1)
  }

  lemma {:induction false} SumSame(f: nat -> int, g: nat -> int, n: nat)
    requires forall i: nat :: i < n ==> f(i) == g(i)
    ensures Sum(f, n) == Sum(g, n)
  {
    if n > 0 { SumSame(f, g, n - 1); }
  }

  lemma {:induction false} SumBump(f: nat -> int, g: nat -> int, n: nat, j: nat, delta: int)
    requires j < n && g(j) == f(j) + delta && forall i: nat :: i < n && i != j ==> f(i) == g(i)
    ensures Sum(g, n) == Sum(f, n) + delta
  {
    if j == n - 1 { SumSame(f, g, n - 1); } else { SumBump(f, g, n - 1, j, delta); }
  }

  lemma {:induction false} SumZero(f: nat -> int, n: nat)
    requires forall i: nat :: i < n ==> f(i) == 0
    ensures Sum(f, n) == 0
  {
    if n > 0 { SumZero(f, n - 1); }
  }

  lemma {:induction false} SumSplits(f: nat -> int, g: nat -> int, h: nat -> int, n: nat)
    requires forall i: nat :: i < n ==> f(i) == g(i) + h(i)
    ensures Sum(f, n) == Sum(g, n) + Sum(h, n)
  {
    if n > 0 { SumSplits(f, g, h, n - 1); }
  }

  function RowSum(table: (nat, nat) -> int, i: nat, columns: nat): int { Sum((j: nat) => table(i, j), columns) }

  function ColumnSum(table: (nat, nat) -> int, rows: nat, j: nat): int { Sum((i: nat) => table(i, j), rows) }

  /** A table summed by rows and by columns. */
  lemma {:induction false} SumSwaps(table: (nat, nat) -> int, rows: nat, columns: nat)
    ensures Sum((i: nat) => RowSum(table, i, columns), rows) == Sum((j: nat) => ColumnSum(table, rows, j), columns)
  {
    if rows == 0 {
      SumZero((j: nat) => ColumnSum(table, 0, j), columns);
    } else {
      SumSwaps(table, rows - 1, columns);
      SumSame((i: nat) => RowSum(table, i, columns), (i: nat) => RowSum(table, i, columns), rows - 1);
      var last := (j: nat) => table(rows - 1, j);
      SumSplits((j: nat) => ColumnSum(table, rows, j), (j: nat) => ColumnSum(table, rows - 1, j), last, columns);
      SumSame(last, (j: nat) => table(rows - 1, j), columns);
      assert RowSum(table, rows - 1, columns) == Sum(last, columns);
    }
  }
}
