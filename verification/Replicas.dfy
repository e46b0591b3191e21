/** Spreading a pool's replicas over shards. */
module Replicas {
  import opened Common

  /** Go's `/`, which truncates toward zero. */
  function Quotient(a: int, n: nat): int
    requires n > 0
  {
    if a >= 0 then a / n else -((-a) / n)
  }

  /** Go's `%`, which takes the sign of the dividend. */
  function Remainder(a: int, n: nat): int
    requires n > 0
  {
    a - n * Quotient(a, n)
  }

  /** The size of the shard at a position. */
  function SizeAt(total: int, n: nat, i: nat): int
    requires n > 0
  {
    if i < Remainder(total, n) then Quotient(total, n) + 1 else Quotient(total, n)
  }

  /** distributeReplicas: no sizes for no shards. */
  method DistributeReplicas(total: int, shards: seq<string>) returns (r: Option<map<string, int>>)
    ensures r.None? <==> shards == []
    ensures r.Some? ==> forall s :: s in r.value <==> s in shards
    ensures r.Some? && NoDup(shards) ==>
      forall i :: 0 <= i < |shards| ==> r.value[shards[i]] == SizeAt(total, |shards|, i)
  {
    var n := |shards|;
    if n == 0 {
      return None;
    }
    var base, remainder := Quotient(total, n), Remainder(total, n);
    var sizes: map<string, int> := map[];
    for i := 0 to n
      invariant forall s :: s in sizes ==> s in shards
      invariant forall j :: 0 <= j < i ==> shards[j] in sizes
      invariant NoDup(shards) ==> forall j :: 0 <= j < i ==> sizes[shards[j]] == SizeAt(total, n, j)
    {
      var size := base;
      if i < remainder {
        size := size + 1;
      }
      sizes := sizes[shards[i] := size];
    }
    return Some(sizes);
  }

  /** The sizes of the first `k` shards together. */
  function SumSizes(total: int, n: nat, k: nat): int
    requires n > 0 && k <= n
  {
    if k == 0 then 0 else SumSizes(total, n, k - 1) + SizeAt(total, n, k - 1)
  }

  lemma RemainderRange(a: int, n: nat)
    requires n > 0
    ensures a >= 0 ==> 0 <= Remainder(a, n) < n
    ensures a < 0 ==> 0 - n < Remainder(a, n) <= 0
  {
  }

  lemma {:induction false} SumOfPrefix(total: int, n: nat, k: nat)
    requires n > 0 && k <= n
    ensures var r := Remainder(total, n);
      SumSizes(total, n, k) == k * Quotient(total, n) + if r <= 0 then 0 else if k <= r then k else r
  {
    if k > 0 {
      SumOfPrefix(total, n, k - 1);
      assert k * Quotient(total, n) == (k - 1) * Quotient(total, n) + Quotient(total, n);
    }
  }

  /** The sizes add up to the total exactly when it is not negative or the shards divide it. */
  lemma Conservation(total: int, n: nat)
    requires n > 0
    ensures SumSizes(total, n, n) == total <==> total >= 0 || Remainder(total, n) == 0
  {
    SumOfPrefix(total, n, n);
    RemainderRange(total, n);
  }

  /** Sizes differ by at most one, and earlier shards are never smaller. */
  lemma Balanced(total: int, n: nat, i: nat, j: nat)
    requires n > 0 && i <= j < n
    ensures SizeAt(total, n, j) <= SizeAt(total, n, i) <= SizeAt(total, n, j) + 1
    ensures total >= 0 ==> SizeAt(total, n, j) >= 0
  {
    assert total >= 0 ==> Quotient(total, n) >= 0;
    hide Quotient, Remainder;
  }

  lemma NextQuotient(total: nat, n: nat)
    requires n > 0
    ensures Remainder(total, n) + 1 < n ==>
      Quotient(total + 1, n) == Quotient(total, n) && Remainder(total + 1, n) == Remainder(total, n) + 1
    ensures Remainder(total, n) + 1 == n ==>
      Quotient(total + 1, n) == Quotient(total, n) + 1 && Remainder(total + 1, n) == 0
  {
    var q, r := total / n, total % n;
    assert total + 1 == n * q + (r + 1);
    if r + 1 < n {
      DivisionUnique(total + 1, n, q, r + 1);
    } else {
      assert n * (q + 1) == n * q + n;
      DivisionUnique(total + 1, n, q + 1, 0);
    }
  }

  lemma DivisionUnique(a: int, n: nat, q: int, r: int)
    requires n > 0 && a == n * q + r && 0 <= r < n
    ensures a / n == q && a % n == r
  {
    var d := a / n - q;
    assert n * (a / n) - n * q == n * d;
    assert n * d == r - a % n;
    MultiplesGrow(n, d);
  }

  lemma MultiplesGrow(n: nat, d: int)
    ensures d >= 1 ==> n * d >= n
    ensures d <= -1 ==> n * d <= 0 - n
  {
  }

  /** One more replica grows one shard by one and moves none. */
  lemma OneMoreReplica(total: nat, n: nat, i: nat)
    requires n > 0 && i < n
    ensures 0 <= Remainder(total, n) < n
    ensures SizeAt(total + 1, n, i) == SizeAt(total, n, i) + if i == Remainder(total, n) then 1 else 0
  {
    RemainderRange(total, n);
    NextQuotient(total, n);
  }

  /** A negative total is not conserved. */
  lemma NegativeTotalLost()
    ensures SumSizes(-1, 2, 2) == 0
  {
  }
}
