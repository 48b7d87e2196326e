/** What a SQL query hands back: lists of row numbers, ordered and limited. */
module Rows {
  import opened Prelude
  import opened Sums

  predicate Distinct(ids: seq<nat>)
  {
    forall i, j | 0 <= i < j < |ids| :: ids[i] != ids[j]
  }

  /** `ids` names each row that satisfies `f` once, and no other row. */
  ghost predicate Lists<T(!new)>(ids: seq<nat>, rows: seq<T>, f: T -> bool)
  {
    && Distinct(ids)
    && (forall j | 0 <= j < |ids| :: ids[j] < |rows| && f(rows[ids[j]]))
    && (forall i: nat | i < |rows| && f(rows[i]) :: i in ids)
  }

  function Indicator<T>(f: T -> bool): T -> int
  {
    (x: T) => if f(x) then 1 else 0
  }

  function Without(ids: seq<nat>, j: nat): (r: seq<nat>)
    requires j < |ids|
    requires Distinct(ids)
    ensures Distinct(r)
    ensures |r| == |ids| - 1
    ensures forall i :: i in r <==> i in ids && i != ids[j]
  {
    var r := ids[..j] + ids[j + 1..];
    assert forall i | 0 <= i < |r| :: r[i] == if i < j then ids[i] else ids[i + 1];
    assert forall i | 0 <= i < |ids| && i != j :: ids[i] == if i < j then r[i] else r[i - 1];
    r
  }

  lemma FirstBelow(ids: seq<nat>, n: nat)
    requires forall j | 0 <= j < |ids| :: ids[j] < n
    ensures ids == [] || 0 <= ids[0] < n
  {}

  /** A listing has as many entries as there are matching rows. */
  lemma {:induction false} ListingCounts<T(!new)>(ids: seq<nat>, rows: seq<T>, f: T -> bool)
    requires Lists(ids, rows, f)
    ensures Sum(rows, Indicator(f)) == |ids|
    decreases |rows|
  {
    if rows == [] {
      FirstBelow(ids, 0);
    } else {
      var n := |rows| - 1;
      assert forall i: nat | i < n :: rows[..n][i] == rows[i];
      if f(rows[n]) {
        var j :| 0 <= j < |ids| && ids[j] == n;
        ListingCounts(Without(ids, j), rows[..n], f);
      } else {
        ListingCounts(ids, rows[..n], f);
      }
    }
  }

  // ---- select ... where ... order by ... limit ... --------------------------

  /** Row numbers matching a condition. The contract leaves their order open. */
  method MatchingRows<T(!new)>(rows: seq<T>, f: T -> bool) returns (ids: seq<nat>)
    ensures Lists(ids, rows, f)
  {
    ids := [];
    for n := 0 to |rows|
      invariant Lists(ids, rows[..n], f)
      invariant forall j | 0 <= j < |ids| :: ids[j] < n
    {
      assert forall i | 0 <= i < n :: rows[..n + 1][i] == rows[..n][i];
      if f(rows[n]) {
        ids := ids + [n];
      }
    }
    assert rows[..|rows|] == rows;
  }

  /**
   * The outcome of `where f order by key limit limit`: matching rows, each once,
   * in key order, as many as there are up to the limit, and none left out that
   * would have come earlier. Rows with equal keys come in any order.
   */
  ghost predicate TopRows<T(!new)>(picked: seq<nat>, rows: seq<T>, f: T -> bool, key: T -> int, limit: Option<nat>)
  {
    && Distinct(picked)
    && (limit.Some? ==> |picked| <= limit.value)
    && (forall a | 0 <= a < |picked| :: picked[a] < |rows| && f(rows[picked[a]]))
    && (forall a, b | 0 <= a < b < |picked| :: key(rows[picked[a]]) <= key(rows[picked[b]]))
    && (forall i: nat, a | i < |rows| && f(rows[i]) && i !in picked && 0 <= a < |picked| ::
          key(rows[picked[a]]) <= key(rows[i]))
    && (limit.None? || |picked| < limit.value ==> forall i: nat | i < |rows| && f(rows[i]) :: i in picked)
  }

  /** Selects such rows: repeatedly the smallest key among those not yet taken. */
  method SelectTop<T(!new)>(rows: seq<T>, f: T -> bool, key: T -> int, limit: Option<nat>) returns (picked: seq<nat>)
    ensures TopRows(picked, rows, f, key, limit)
  {
    picked := [];
    var exhausted := false;
    ghost var left := set i: nat | i < |rows| && i !in picked;
    while (limit.None? || |picked| < limit.value) && !exhausted
      invariant Distinct(picked) && (limit.Some? ==> |picked| <= limit.value)
      invariant forall a | 0 <= a < |picked| :: picked[a] < |rows| && f(rows[picked[a]])
      invariant forall a, b | 0 <= a < b < |picked| :: key(rows[picked[a]]) <= key(rows[picked[b]])
      invariant forall i: nat, a | i < |rows| && f(rows[i]) && i !in picked && 0 <= a < |picked| ::
                  key(rows[picked[a]]) <= key(rows[i])
      invariant exhausted ==> forall i: nat | i < |rows| && f(rows[i]) :: i in picked
      invariant left == set i: nat | i < |rows| && i !in picked
      decreases !exhausted, left
    {
      var best := NextRow(rows, f, key, picked);
      match best {
        case None => exhausted := true;
        case Some(n) =>
          assert n in left;
          picked := picked + [n];
          left := left - {n};
      }
    }
  }

  method NextRow<T(!new)>(rows: seq<T>, f: T -> bool, key: T -> int, taken: seq<nat>) returns (best: Option<nat>)
    ensures best.None? ==> forall i: nat | i < |rows| && f(rows[i]) :: i in taken
    ensures best.Some? ==> best.value < |rows| && f(rows[best.value]) && best.value !in taken
    ensures best.Some? ==> forall i: nat | i < |rows| && f(rows[i]) && i !in taken ::
                             key(rows[best.value]) <= key(rows[i])
  {
    best := None;
    for n := 0 to |rows|
      invariant best.None? ==> forall i: nat | i < n && f(rows[i]) :: i in taken
      invariant best.Some? ==> best.value < n && f(rows[best.value]) && best.value !in taken
      invariant best.Some? ==> forall i: nat | i < n && f(rows[i]) && i !in taken ::
                                 key(rows[best.value]) <= key(rows[i])
    {
      if f(rows[n]) && n !in taken && (best.None? || key(rows[n]) < key(rows[best.value])) {
        best := Some(n);
      }
    }
  }
}
