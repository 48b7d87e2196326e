/** Totals and counts over the rows of a table. */
module Sums {

  function Sum<T>(rows: seq<T>, f: T -> int): int
  {
    if rows == [] then 0 else Sum(rows[..|rows| - 1], f) + f(rows[|rows| - 1])
  }

  lemma SumPush<T>(rows: seq<T>, row: T, f: T -> int)
    ensures Sum(rows + [row], f) == Sum(rows, f) + f(row)
  {}

  lemma {:induction false} SumConcat<T>(left: seq<T>, right: seq<T>, f: T -> int)
    ensures Sum(left + right, f) == Sum(left, f) + Sum(right, f)
    decreases |right|
  {
    if right == [] {
      assert left + right == left;
    } else {
      var init, last := right[..|right| - 1], right[|right| - 1];
      assert left + right == (left + init) + [last];
      SumPush(left + init, last, f);
      SumConcat(left, init, f);
    }
  }

  lemma {:induction false} SumUpdate<T>(rows: seq<T>, i: nat, row: T, f: T -> int)
    requires i < |rows|
    ensures Sum(rows[i := row], f) == Sum(rows, f) - f(rows[i]) + f(row)
  {
    var n := |rows| - 1;
    if i < n {
      assert rows[i := row][..n] == rows[..n][i := row];
      SumUpdate(rows[..n], i, row, f);
    } else {
      assert rows[i := row][..n] == rows[..n];
    }
  }

  /** Rows that weigh no more, one by one, weigh no more together. */
  lemma {:induction false} SumMonotone<T, U>(rows: seq<T>, rows': seq<U>, f: T -> int, g: U -> int)
    requires |rows| == |rows'|
    requires forall i | 0 <= i < |rows| :: f(rows[i]) <= g(rows'[i])
    ensures Sum(rows, f) <= Sum(rows', g)
  {
    if rows != [] {
      var n := |rows| - 1;
      SumMonotone(rows[..n], rows'[..n], f, g);
    }
  }

  lemma SumSame<T>(rows: seq<T>, rows': seq<T>, f: T -> int)
    requires |rows| == |rows'|
    requires forall i | 0 <= i < |rows| :: f(rows[i]) == f(rows'[i])
    ensures Sum(rows, f) == Sum(rows', f)
  {}

  lemma {:induction false} SumZero<T>(rows: seq<T>, f: T -> int)
    requires forall i | 0 <= i < |rows| :: f(rows[i]) == 0
    ensures Sum(rows, f) == 0
  {
    if rows != [] {
      SumZero(rows[..|rows| - 1], f);
    }
  }

  /** A non-negative total is at least each of its terms. */
  lemma {:induction false} SumAtLeast<T>(rows: seq<T>, k: nat, f: T -> int)
    requires k < |rows|
    requires forall i | 0 <= i < |rows| :: 0 <= f(rows[i])
    ensures f(rows[k]) <= Sum(rows, f)
  {
    var n := |rows| - 1;
    if k < n {
      SumAtLeast(rows[..n], k, f);
    } else {
      SumNonNegative(rows[..n], f);
    }
  }

  lemma {:induction false} SumNonNegative<T>(rows: seq<T>, f: T -> int)
    requires forall i | 0 <= i < |rows| :: 0 <= f(rows[i])
    ensures 0 <= Sum(rows, f)
  {
    if rows != [] {
      SumNonNegative(rows[..|rows| - 1], f);
    }
  }

  // ---- totals by part -----------------------------------------------------------------

  /** The row numbers below n, to total per part. */
  function Numbers(n: nat): seq<nat> { seq(n, k => k) }

  /** The share of part i in a total. */
  function PerPart<T>(rows: seq<T>, part: nat -> T -> int): nat -> int { (i: nat) => Sum(rows, part(i)) }

  /** Each row weighs in for the one part it belongs to. */
  ghost predicate BelongsTo<T(!new)>(row: T, n: nat, part: nat -> T -> int, owner: T -> int, weight: T -> int)
  {
    forall i: nat | i < n :: part(i)(row) == if i == owner(row) then weight(row) else 0
  }

  lemma {:induction false} PartitionPush<T(!new)>(rows: seq<T>, n: nat, part: nat -> T -> int, owner: T -> int,
                                                  weight: T -> int)
    requires rows != [] && BelongsTo(rows[|rows| - 1], n, part, owner, weight)
    ensures Sum(Numbers(n), PerPart(rows, part))
         == Sum(Numbers(n), PerPart(rows[..|rows| - 1], part))
            + if 0 <= owner(rows[|rows| - 1]) < n then weight(rows[|rows| - 1]) else 0
    decreases n
  {
    if n != 0 {
      assert Numbers(n)[..n - 1] == Numbers(n - 1);
      PartitionPush(rows, n - 1, part, owner, weight);
      assert PerPart(rows, part)(n - 1)
          == PerPart(rows[..|rows| - 1], part)(n - 1) + part(n - 1)(rows[|rows| - 1]);
    }
  }

  /** If every row belongs to one of the n parts, totalling per part counts each row once. */
  lemma {:induction false} Partition<T(!new)>(rows: seq<T>, n: nat, part: nat -> T -> int, owner: T -> int,
                                              weight: T -> int)
    requires forall r | 0 <= r < |rows| ::
               BelongsTo(rows[r], n, part, owner, weight) && (0 <= owner(rows[r]) < n || weight(rows[r]) == 0)
    ensures Sum(Numbers(n), PerPart(rows, part)) == Sum(rows, weight)
    decreases |rows|
  {
    if rows == [] {
      SumZero(Numbers(n), PerPart(rows, part));
    } else {
      Partition(rows[..|rows| - 1], n, part, owner, weight);
      PartitionPush(rows, n, part, owner, weight);
    }
  }

  /** A constant and a multiple per row come to as many constants and that multiple of the total. */
  lemma {:induction false} SumAffine<T>(rows: seq<T>, f: T -> int, g: T -> int, a: int, b: int)
    requires forall i | 0 <= i < |rows| :: g(rows[i]) == a + f(rows[i]) * b
    ensures Sum(rows, g) == |rows| * a + Sum(rows, f) * b
  {
    if rows != [] {
      var n := |rows| - 1;
      SumAffine(rows[..n], f, g, a, b);
      Distribute(n, a, Sum(rows[..n], f), f(rows[n]), b);
    }
  }

  lemma Distribute(n: int, a: int, x: int, y: int, b: int)
    ensures (n + 1) * a == n * a + a && (x + y) * b == x * b + y * b
  {}
}
