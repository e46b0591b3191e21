/**
 TOPSIS ranking over exact reals: alternatives are normalized and weighted column
 by column, and scored by how far they are from the worst and the best values.
 The square root is a parameter.
 */
module Topsis {
  import opened Common

  datatype Alternative = Alternative(id: string, metrics: seq<real>)
  datatype Scored = Scored(id: string, score: real)

  type Matrix = seq<seq<real>>

  type Root = real -> real

  ghost predicate IsSqrt(sqrt: Root) {
    forall x :: x >= 0.0 ==> sqrt(x) >= 0.0 && sqrt(x) * sqrt(x) == x
  }

  predicate Rect(m: Matrix, n: nat) {
    m != [] && n > 0 && forall i :: 0 <= i < |m| ==> |m[i]| == n
  }

  // ----- what the passes compute -----

  /** The sum of squares of the first `k` entries of a column. */
  function SumSquares(m: Matrix, n: nat, j: nat, k: nat): (r: real)
    requires Rect(m, n) && j < n && k <= |m|
    ensures r >= 0.0
  {
    if k == 0 then 0.0 else SumSquares(m, n, j, k - 1) + Square(m[k - 1][j])
  }

  function Square(x: real): (r: real)
    ensures r >= 0.0
  {
    SquareNotNegative(x);
    x * x
  }

  lemma SquareNotNegative(x: real)
    ensures x * x >= 0.0
  {
  }

  function NotZero(d: real): (r: real)
    ensures r != 0.0
  {
    if d == 0.0 then 1.0 else d
  }

  function Divisor(sqrt: Root, m: Matrix, n: nat, j: nat): (r: real)
    requires Rect(m, n) && j < n
    ensures r != 0.0
  {
    NotZero(sqrt(SumSquares(m, n, j, |m|)))
  }

  function Weighted(sqrt: Root, m: Matrix, n: nat, weights: seq<real>): (r: Matrix)
    requires Rect(m, n) && |weights| == n
    ensures Rect(r, n) && |r| == |m|
  {
    seq(|m|, i requires 0 <= i < |m| => seq(n, j requires 0 <= j < n => m[i][j] / Divisor(sqrt, m, n, j) * weights[j]))
  }

  /** `v` is the largest, or the smallest, value of a column. */
  ghost predicate Extreme(m: Matrix, n: nat, j: nat, largest: bool, v: real)
    requires Rect(m, n) && j < n
  {
    && (exists i :: 0 <= i < |m| && m[i][j] == v)
    && (forall i :: 0 <= i < |m| ==> if largest then m[i][j] <= v else v <= m[i][j])
  }

  ghost predicate Ideals(m: Matrix, n: nat, benefits: seq<bool>, ideal: seq<real>, anti: seq<real>)
    requires Rect(m, n) && |benefits| == n
  {
    && |ideal| == n && |anti| == n
    && (forall j :: 0 <= j < n ==> Extreme(m, n, j, benefits[j], ideal[j]) && Extreme(m, n, j, !benefits[j], anti[j]))
  }

  /** The squared distance of two rows over their first `k` entries. */
  function SqDist(row: seq<real>, to: seq<real>, k: nat): (r: real)
    requires k <= |row| && k <= |to|
    ensures r >= 0.0
  {
    if k == 0 then 0.0 else SqDist(row, to, k - 1) + Square(row[k - 1] - to[k - 1])
  }

  function Closeness(best: real, worst: real): real {
    if best + worst == 0.0 then 0.0 else worst / (best + worst)
  }

  function Score(sqrt: Root, row: seq<real>, ideal: seq<real>, anti: seq<real>): real
    requires |row| == |ideal| == |anti|
  {
    Closeness(sqrt(SqDist(row, ideal, |row|)), sqrt(SqDist(row, anti, |row|)))
  }

  ghost predicate ScoredBy(sqrt: Root, w: Matrix, n: nat, ideal: seq<real>, anti: seq<real>, scores: seq<real>)
    requires Rect(w, n) && |ideal| == n && |anti| == n
  {
    |scores| == |w| && forall i :: 0 <= i < |w| ==> scores[i] == Score(sqrt, w[i], ideal, anti)
  }

  /** The scores of all alternatives. */
  ghost predicate Scores(sqrt: Root, m: Matrix, n: nat, weights: seq<real>, benefits: seq<bool>, scores: seq<real>)
    requires Rect(m, n) && |weights| == n && |benefits| == n
  {
    exists ideal, anti :: Ideals(Weighted(sqrt, m, n, weights), n, benefits, ideal, anti) &&
                          ScoredBy(sqrt, Weighted(sqrt, m, n, weights), n, ideal, anti, scores)
  }

  // ----- the passes -----

  ghost function Rows(a: array2<real>): (r: Matrix)
    reads a
    ensures |r| == a.Length0 && forall i :: 0 <= i < |r| ==> |r[i]| == a.Length1
  {
    seq(a.Length0, i requires 0 <= i < a.Length0 reads a =>
      seq(a.Length1, j requires 0 <= j < a.Length1 reads a => a[i, j]))
  }

  method ColumnDivisor(sqrt: Root, m: Matrix, n: nat, j: nat) returns (divisor: real)
    requires Rect(m, n) && j < n
    ensures divisor == Divisor(sqrt, m, n, j)
  {
    var sumSquares := 0.0;
    for i := 0 to |m|
      invariant sumSquares == SumSquares(m, n, j, i)
    {
      sumSquares := sumSquares + m[i][j] * m[i][j];
    }
    divisor := sqrt(sumSquares);
    if divisor == 0.0 {
      divisor := 1.0;
    }
  }

  /** Divides each column by its length. */
  method Normalize(sqrt: Root, m: Matrix, n: nat) returns (normalized: array2<real>)
    requires Rect(m, n)
    ensures fresh(normalized) && normalized.Length0 == |m| && normalized.Length1 == n
    ensures forall i, j :: 0 <= i < |m| && 0 <= j < n ==> normalized[i, j] == m[i][j] / Divisor(sqrt, m, n, j)
  {
    normalized := new real[|m|, n];
    hide Divisor;
    for j := 0 to n
      invariant forall i, k :: 0 <= i < |m| && 0 <= k < j ==> normalized[i, k] == m[i][k] / Divisor(sqrt, m, n, k)
    {
      var divisor := ColumnDivisor(sqrt, m, n, j);
      for i := 0 to |m|
        invariant forall i', k :: 0 <= i' < |m| && 0 <= k < j ==> normalized[i', k] == m[i'][k] / Divisor(sqrt, m, n, k)
        invariant forall i' :: 0 <= i' < i ==> normalized[i', j] == m[i'][j] / Divisor(sqrt, m, n, j)
      {
        normalized[i, j] := m[i][j] / divisor;
      }
    }
  }

  method ApplyWeights(normalized: array2<real>, weights: seq<real>) returns (weighted: array2<real>)
    requires |weights| == normalized.Length1
    ensures fresh(weighted) && weighted.Length0 == normalized.Length0 && weighted.Length1 == normalized.Length1
    ensures forall i, j :: 0 <= i < weighted.Length0 && 0 <= j < weighted.Length1 ==>
      weighted[i, j] == normalized[i, j] * weights[j]
  {
    weighted := new real[normalized.Length0, normalized.Length1];
    for i := 0 to normalized.Length0
      invariant forall i', j :: 0 <= i' < i && 0 <= j < weighted.Length1 ==>
        weighted[i', j] == normalized[i', j] * weights[j]
    {
      for j := 0 to normalized.Length1
        invariant forall i', k :: 0 <= i' < i && 0 <= k < weighted.Length1 ==>
          weighted[i', k] == normalized[i', k] * weights[k]
        invariant forall k :: 0 <= k < j ==> weighted[i, k] == normalized[i, k] * weights[k]
      {
        weighted[i, j] := normalized[i, j] * weights[j];
      }
    }
  }

  /** The best and the worst value of each column. */
  method FindIdealSolutions(weighted: array2<real>, benefits: seq<bool>) returns (ideal: array<real>, anti: array<real>)
    requires weighted.Length0 > 0 && weighted.Length1 > 0 && |benefits| == weighted.Length1
    ensures fresh(ideal) && fresh(anti) && Ideals(Rows(weighted), weighted.Length1, benefits, ideal[..], anti[..])
  {
    var n := weighted.Length1;
    ghost var m := Rows(weighted);
    ideal, anti := new real[n], new real[n];
    for j := 0 to n
      invariant ideal != anti
      invariant forall k :: 0 <= k < j ==>
        Extreme(m, n, k, benefits[k], ideal[k]) && Extreme(m, n, k, !benefits[k], anti[k])
    {
      var maxVal, minVal := ColumnExtremes(weighted, j);
      if benefits[j] {
        ideal[j], anti[j] := maxVal, minVal;
      } else {
        ideal[j], anti[j] := minVal, maxVal;
      }
    }
  }

  method ColumnExtremes(weighted: array2<real>, j: nat) returns (maxVal: real, minVal: real)
    requires weighted.Length0 > 0 && j < weighted.Length1
    ensures Extreme(Rows(weighted), weighted.Length1, j, true, maxVal)
    ensures Extreme(Rows(weighted), weighted.Length1, j, false, minVal)
  {
    ghost var m := Rows(weighted);
    ghost var most, least := 0, 0;
    maxVal, minVal := weighted[0, j], weighted[0, j];
    for i := 1 to weighted.Length0
      invariant 0 <= most < |m| && 0 <= least < |m| && maxVal == m[most][j] && minVal == m[least][j]
      invariant forall k :: 0 <= k < i ==> m[k][j] <= maxVal && minVal <= m[k][j]
    {
      if weighted[i, j] > maxVal {
        maxVal, most := weighted[i, j], i;
      }
      if weighted[i, j] < minVal {
        minVal, least := weighted[i, j], i;
      }
    }
  }

  method CalculateScores(sqrt: Root, weighted: array2<real>, ideal: seq<real>, anti: seq<real>)
    returns (scores: array<real>)
    requires |ideal| == |anti| == weighted.Length1
    ensures fresh(scores) && scores.Length == weighted.Length0
    ensures forall i :: 0 <= i < scores.Length ==> scores[i] == Score(sqrt, Rows(weighted)[i], ideal, anti)
  {
    ghost var m := Rows(weighted);
    scores := new real[weighted.Length0];
    for i := 0 to weighted.Length0
      invariant forall k :: 0 <= k < i ==> scores[k] == Score(sqrt, m[k], ideal, anti)
    {
      var distIdeal, distAnti := SquaredDistances(weighted, i, ideal, anti);
      distIdeal, distAnti := sqrt(distIdeal), sqrt(distAnti);
      scores[i] := if distIdeal + distAnti == 0.0 then 0.0 else distAnti / (distIdeal + distAnti);
    }
  }

  method SquaredDistances(weighted: array2<real>, i: nat, ideal: seq<real>, anti: seq<real>)
    returns (distIdeal: real, distAnti: real)
    requires |ideal| == |anti| == weighted.Length1 && i < weighted.Length0
    ensures distIdeal == SqDist(Rows(weighted)[i], ideal, weighted.Length1)
    ensures distAnti == SqDist(Rows(weighted)[i], anti, weighted.Length1)
  {
    ghost var row := Rows(weighted)[i];
    distIdeal, distAnti := 0.0, 0.0;
    for j := 0 to weighted.Length1
      invariant distIdeal == SqDist(row, ideal, j) && distAnti == SqDist(row, anti, j)
    {
      var diffIdeal, diffAnti := weighted[i, j] - ideal[j], weighted[i, j] - anti[j];
      distIdeal, distAnti := distIdeal + diffIdeal * diffIdeal, distAnti + diffAnti * diffAnti;
    }
  }

  ghost predicate WellFormed(alternatives: seq<Alternative>, weights: seq<real>, benefits: seq<bool>) {
    alternatives != [] && Rect(Metrics(alternatives), |weights|) && |weights| == |benefits|
  }

  function Metrics(alternatives: seq<Alternative>): Matrix {
    seq(|alternatives|, i requires 0 <= i < |alternatives| => alternatives[i].metrics)
  }

  /** Ranks alternatives; fails exactly when the shapes of the arguments disagree. */
  method Rank(sqrt: Root, alternatives: seq<Alternative>, weights: seq<real>, benefits: seq<bool>)
    returns (r: Option<seq<Scored>>)
    ensures r.Some? <==> WellFormed(alternatives, weights, benefits)
    ensures r.Some? ==>
      |r.value| == |alternatives| && forall i :: 0 <= i < |r.value| ==> r.value[i].id == alternatives[i].id
    ensures r.Some? ==> Scores(sqrt, Metrics(alternatives), |weights|, weights, benefits, ScoresOf(r.value))
  {
    var ok := Check(alternatives, weights, benefits);
    if !ok {
      return None;
    }
    hide Scores;
    var scores := RankRows(sqrt, Metrics(alternatives), |weights|, weights, benefits);
    var results := Label(alternatives, scores[..]);
    return Some(results);
  }

  method Check(alternatives: seq<Alternative>, weights: seq<real>, benefits: seq<bool>) returns (ok: bool)
    ensures ok <==> WellFormed(alternatives, weights, benefits)
  {
    var m := Metrics(alternatives);
    if alternatives == [] || |m[0]| == 0 || |weights| != |m[0]| || |benefits| != |m[0]| {
      return false;
    }
    for i := 0 to |alternatives|
      invariant forall k :: 0 <= k < i ==> |m[k]| == |m[0]|
    {
      if |alternatives[i].metrics| != |m[0]| {
        assert |m[i]| != |m[0]|;
        return false;
      }
    }
    return true;
  }

  method Label(alternatives: seq<Alternative>, scores: seq<real>) returns (results: seq<Scored>)
    requires |alternatives| == |scores|
    ensures |results| == |alternatives| && ScoresOf(results) == scores
    ensures forall i :: 0 <= i < |results| ==> results[i].id == alternatives[i].id
  {
    results := [];
    for i := 0 to |alternatives|
      invariant |results| == i
      invariant forall k :: 0 <= k < i ==> results[k] == Scored(alternatives[k].id, scores[k])
    {
      results := results + [Scored(alternatives[i].id, scores[i])];
    }
  }

  function ScoresOf(results: seq<Scored>): seq<real> {
    seq(|results|, i requires 0 <= i < |results| => results[i].score)
  }

  method RankRows(sqrt: Root, m: Matrix, n: nat, weights: seq<real>, benefits: seq<bool>) returns (scores: array<real>)
    requires Rect(m, n) && |weights| == n && |benefits| == n
    ensures scores.Length == |m| && Scores(sqrt, m, n, weights, benefits, scores[..])
  {
    var normalized := Normalize(sqrt, m, n);
    var weighted := ApplyWeights(normalized, weights);
    SameMatrix(Rows(weighted), Weighted(sqrt, m, n, weights), n);
    var ideal, anti := FindIdealSolutions(weighted, benefits);
    scores := CalculateScores(sqrt, weighted, ideal[..], anti[..]);
  }

  lemma SameMatrix(a: Matrix, b: Matrix, n: nat)
    requires Rect(a, n) && Rect(b, n) && |a| == |b|
    requires forall i, j :: 0 <= i < |a| && 0 <= j < n ==> a[i][j] == b[i][j]
    ensures a == b
  {
    forall i | 0 <= i < |a|
      ensures a[i] == b[i]
    {
      assert forall j :: 0 <= j < n ==> a[i][j] == b[i][j];
    }
  }

  // ----- what the scores mean -----

  lemma Times(x: real, y: real, z: real)
    requires x <= y && 0.0 <= z
    ensures x * z <= y * z
  {
    assert (y - x) * z >= 0.0;
  }

  lemma SquareMonotone(x: real, y: real)
    requires 0.0 <= x <= y
    ensures x * x <= y * y
  {
    Times(x, y, x);
    Times(x, y, y);
  }

  lemma ProductPositive(x: real, y: real)
    requires 0.0 < x && 0.0 < y
    ensures 0.0 < x * y
  {
  }

  lemma SquareStrict(x: real, y: real)
    requires 0.0 <= x < y
    ensures x * x < y * y
  {
    ProductPositive(y - x, y + x);
    assert y * y - x * x == (y - x) * (y + x);
  }

  /** A square root keeps order. */
  lemma SqrtMonotone(sqrt: Root, x: real, y: real)
    requires IsSqrt(sqrt) && 0.0 <= x <= y
    ensures 0.0 <= sqrt(x) <= sqrt(y)
  {
    if sqrt(y) < sqrt(x) {
      SquareStrict(sqrt(y), sqrt(x));
    }
  }

  lemma RootUnique(r: real, s: real)
    requires 0.0 <= r && 0.0 <= s && r * r == s * s
    ensures r == s
  {
    if r < s {
      SquareStrict(r, s);
    } else if s < r {
      SquareStrict(s, r);
    }
  }

  lemma QuotientInRange(x: real, y: real)
    requires 0.0 <= x <= y && 0.0 < y
    ensures 0.0 <= x / y <= 1.0
  {
  }

  /** Every score lies between 0 and 1. */
  lemma ScoreInRange(sqrt: Root, row: seq<real>, ideal: seq<real>, anti: seq<real>)
    requires IsSqrt(sqrt) && |row| == |ideal| == |anti|
    ensures 0.0 <= Score(sqrt, row, ideal, anti) <= 1.0
  {
    var best, worst := sqrt(SqDist(row, ideal, |row|)), sqrt(SqDist(row, anti, |row|));
    if best + worst != 0.0 {
      QuotientInRange(worst, best + worst);
    }
  }

  lemma ScoresInRange(sqrt: Root, m: Matrix, n: nat, weights: seq<real>, benefits: seq<bool>, scores: seq<real>)
    requires IsSqrt(sqrt) && Rect(m, n) && |weights| == n && |benefits| == n
    requires Scores(sqrt, m, n, weights, benefits, scores)
    ensures |scores| == |m| && forall i :: 0 <= i < |m| ==> 0.0 <= scores[i] <= 1.0
  {
    var w := Weighted(sqrt, m, n, weights);
    var ideal, anti :| Ideals(w, n, benefits, ideal, anti) && ScoredBy(sqrt, w, n, ideal, anti, scores);
    forall i | 0 <= i < |m|
      ensures 0.0 <= scores[i] <= 1.0
    {
      ScoreInRange(sqrt, w[i], ideal, anti);
    }
  }

  /** Being closer to the best and farther from the worst never lowers the score, even where both distances are zero. */
  lemma ClosenessMonotone(best: real, worst: real, best': real, worst': real)
    requires 0.0 <= best <= best' && 0.0 <= worst' <= worst
    ensures Closeness(best, worst) >= Closeness(best', worst')
  {
    var d, d' := best + worst, best' + worst';
    if d != 0.0 && d' != 0.0 {
      Times(best, best', worst);
      Times(worst', worst, best);
      CrossMultiply(worst, d, worst', d');
    } else if d != 0.0 {
      QuotientInRange(worst, d);
    }
  }

  lemma CrossMultiply(a: real, b: real, c: real, d: real)
    requires b > 0.0 && d > 0.0 && a * d >= c * b
    ensures a / b >= c / d
  {
    assert (a / b) * (b * d) == a * d;
    assert (c / d) * (b * d) == c * b;
    assert b * d > 0.0;
  }

  /** `x` lies between `t` and `y`, so it is no farther from `t`. */
  lemma Nearer(t: real, x: real, y: real)
    requires t <= x <= y || y <= x <= t
    ensures Square(x - t) <= Square(y - t)
  {
    if t <= x <= y {
      SquareMonotone(x - t, y - t);
    } else {
      SquareMonotone(t - x, t - y);
      assert (t - x) * (t - x) == (x - t) * (x - t) && (t - y) * (t - y) == (y - t) * (y - t);
    }
  }

  lemma {:induction false} DistancesOrdered(row: seq<real>, row': seq<real>, to: seq<real>, k: nat)
    requires k <= |row| && k <= |row'| && k <= |to|
    requires forall j :: 0 <= j < k ==> Square(row[j] - to[j]) <= Square(row'[j] - to[j])
    ensures SqDist(row, to, k) <= SqDist(row', to, k)
  {
    if k > 0 {
      DistancesOrdered(row, row', to, k - 1);
    }
  }

  lemma DivisorPositive(sqrt: Root, m: Matrix, n: nat, j: nat)
    requires IsSqrt(sqrt) && Rect(m, n) && j < n
    ensures Divisor(sqrt, m, n, j) > 0.0
  {
  }

  lemma WeightedOrder(x: real, y: real, d: real, w: real)
    requires x <= y && d > 0.0 && w >= 0.0
    ensures x / d * w <= y / d * w
  {
    assert x / d <= y / d;
    Times(x / d, y / d, w);
  }

  /** Alternative `a` is at least as good as `b` on every criterion. */
  ghost predicate Dominates(m: Matrix, n: nat, benefits: seq<bool>, a: nat, b: nat)
    requires Rect(m, n) && |benefits| == n && a < |m| && b < |m|
  {
    forall j :: 0 <= j < n ==> if benefits[j] then m[a][j] >= m[b][j] else m[a][j] <= m[b][j]
  }

  lemma WeighingKeepsDominance(sqrt: Root, m: Matrix, n: nat, weights: seq<real>, benefits: seq<bool>, a: nat, b: nat)
    requires IsSqrt(sqrt) && Rect(m, n) && |weights| == n && |benefits| == n && a < |m| && b < |m|
    requires (forall j :: 0 <= j < n ==> weights[j] >= 0.0) && Dominates(m, n, benefits, a, b)
    ensures Dominates(Weighted(sqrt, m, n, weights), n, benefits, a, b)
  {
    forall j | 0 <= j < n
      ensures var w := Weighted(sqrt, m, n, weights); if benefits[j] then w[a][j] >= w[b][j] else w[a][j] <= w[b][j]
    {
      DivisorPositive(sqrt, m, n, j);
      if benefits[j] {
        WeightedOrder(m[b][j], m[a][j], Divisor(sqrt, m, n, j), weights[j]);
      } else {
        WeightedOrder(m[a][j], m[b][j], Divisor(sqrt, m, n, j), weights[j]);
      }
    }
  }

  lemma DominanceOrdersDistances(w: Matrix, n: nat, benefits: seq<bool>, ideal: seq<real>, anti: seq<real>, a: nat,
                                 b: nat)
    requires Rect(w, n) && |benefits| == n && a < |w| && b < |w| && Dominates(w, n, benefits, a, b)
    requires Ideals(w, n, benefits, ideal, anti)
    ensures SqDist(w[a], ideal, n) <= SqDist(w[b], ideal, n)
    ensures SqDist(w[b], anti, n) <= SqDist(w[a], anti, n)
  {
    forall j | 0 <= j < n
      ensures Square(w[a][j] - ideal[j]) <= Square(w[b][j] - ideal[j])
      ensures Square(w[b][j] - anti[j]) <= Square(w[a][j] - anti[j])
    {
      assert Extreme(w, n, j, benefits[j], ideal[j]) && Extreme(w, n, j, !benefits[j], anti[j]);
      Nearer(ideal[j], w[a][j], w[b][j]);
      Nearer(anti[j], w[b][j], w[a][j]);
    }
    DistancesOrdered(w[a], w[b], ideal, n);
    DistancesOrdered(w[b], w[a], anti, n);
  }

  /** With nonnegative weights, an alternative at least as good on every criterion never scores lower. */
  lemma BetterNeverScoresLower(sqrt: Root, m: Matrix, n: nat, weights: seq<real>, benefits: seq<bool>,
                               scores: seq<real>, a: nat, b: nat)
    requires IsSqrt(sqrt) && Rect(m, n) && |weights| == n && |benefits| == n && a < |m| && b < |m|
    requires (forall j :: 0 <= j < n ==> weights[j] >= 0.0) && Dominates(m, n, benefits, a, b)
    requires Scores(sqrt, m, n, weights, benefits, scores)
    ensures 0.0 <= scores[b] <= scores[a] <= 1.0
  {
    var w := Weighted(sqrt, m, n, weights);
    var ideal, anti :| Ideals(w, n, benefits, ideal, anti) && ScoredBy(sqrt, w, n, ideal, anti, scores);
    WeighingKeepsDominance(sqrt, m, n, weights, benefits, a, b);
    DominanceOrdersDistances(w, n, benefits, ideal, anti, a, b);
    SqrtMonotone(sqrt, SqDist(w[a], ideal, n), SqDist(w[b], ideal, n));
    SqrtMonotone(sqrt, SqDist(w[b], anti, n), SqDist(w[a], anti, n));
    ClosenessMonotone(sqrt(SqDist(w[a], ideal, n)), sqrt(SqDist(w[a], anti, n)),
                      sqrt(SqDist(w[b], ideal, n)), sqrt(SqDist(w[b], anti, n)));
    ScoreInRange(sqrt, w[a], ideal, anti);
    ScoreInRange(sqrt, w[b], ideal, anti);
  }

  /** The input decides the scores. */
  lemma ScoresUnique(sqrt: Root, m: Matrix, n: nat, weights: seq<real>, benefits: seq<bool>, scores: seq<real>,
                     scores': seq<real>)
    requires Rect(m, n) && |weights| == n && |benefits| == n
    requires Scores(sqrt, m, n, weights, benefits, scores) && Scores(sqrt, m, n, weights, benefits, scores')
    ensures scores == scores'
  {
    var w := Weighted(sqrt, m, n, weights);
    hide Ideals, ScoredBy;
    var ideal, anti :| Ideals(w, n, benefits, ideal, anti) && ScoredBy(sqrt, w, n, ideal, anti, scores);
    var ideal', anti' :| Ideals(w, n, benefits, ideal', anti') && ScoredBy(sqrt, w, n, ideal', anti', scores');
    IdealsUnique(w, n, benefits, ideal, anti, ideal', anti');
    ScoredByUnique(sqrt, w, n, ideal, anti, scores, scores');
  }

  lemma ScoredByUnique(sqrt: Root, w: Matrix, n: nat, ideal: seq<real>, anti: seq<real>, scores: seq<real>,
                       scores': seq<real>)
    requires Rect(w, n) && |ideal| == n && |anti| == n
    requires ScoredBy(sqrt, w, n, ideal, anti, scores) && ScoredBy(sqrt, w, n, ideal, anti, scores')
    ensures scores == scores'
  {
    hide Score;
  }

  lemma IdealsUnique(w: Matrix, n: nat, benefits: seq<bool>, ideal: seq<real>, anti: seq<real>, ideal': seq<real>,
                     anti': seq<real>)
    requires Rect(w, n) && |benefits| == n && Ideals(w, n, benefits, ideal, anti)
    requires Ideals(w, n, benefits, ideal', anti')
    ensures ideal == ideal' && anti == anti'
  {
    forall j | 0 <= j < n
      ensures ideal[j] == ideal'[j] && anti[j] == anti'[j]
    {
      ExtremeUnique(w, n, j, benefits[j], ideal[j], ideal'[j]);
      ExtremeUnique(w, n, j, !benefits[j], anti[j], anti'[j]);
    }
  }

  lemma ExtremeUnique(m: Matrix, n: nat, j: nat, largest: bool, v: real, v': real)
    requires Rect(m, n) && j < n && Extreme(m, n, j, largest, v) && Extreme(m, n, j, largest, v')
    ensures v == v'
  {
  }

  // ----- scaling a criterion -----

  function Scaled(m: Matrix, n: nat, j: nat, c: real): (r: Matrix)
    requires Rect(m, n) && j < n
    ensures Rect(r, n) && |r| == |m|
  {
    seq(|m|, i requires 0 <= i < |m| => m[i][j := c * m[i][j]])
  }

  /** Named, so that equal products are matched without multiplying out. */
  predicate Product(y: real, a: real, b: real) {
    y == a * b
  }

  lemma SquareOfProduct(y: real, c: real, x: real)
    requires y == c * x
    ensures Square(y) == Square(c) * Square(x)
  {
    assert (c * x) * (c * x) == (c * c) * (x * x);
  }

  lemma Distribute(q: real, s: real, t: real)
    ensures q * (s + t) == q * s + q * t
  {
  }

  lemma {:induction false} ScaledSquares(m: Matrix, n: nat, j: nat, c: real, k: nat)
    requires Rect(m, n) && j < n && k <= |m|
    ensures Product(SumSquares(Scaled(m, n, j, c), n, j, k), Square(c), SumSquares(m, n, j, k))
  {
    hide Square;
    if k > 0 {
      ScaledSquares(m, n, j, c, k - 1);
      SquareOfProduct(Scaled(m, n, j, c)[k - 1][j], c, m[k - 1][j]);
      Distribute(Square(c), SumSquares(m, n, j, k - 1), Square(m[k - 1][j]));
    }
  }

  lemma {:induction false} OtherSquares(m: Matrix, n: nat, j: nat, c: real, col: nat, k: nat)
    requires Rect(m, n) && j < n && col < n && col != j && k <= |m|
    ensures SumSquares(Scaled(m, n, j, c), n, col, k) == SumSquares(m, n, col, k)
  {
    if k > 0 {
      OtherSquares(m, n, j, c, col, k - 1);
    }
  }

  lemma SqrtScales(sqrt: Root, y: real, c: real, x: real)
    requires IsSqrt(sqrt) && c > 0.0 && x >= 0.0 && Product(y, Square(c), x)
    ensures Product(sqrt(y), c, sqrt(x))
  {
    SquareOfProduct(c * sqrt(x), c, sqrt(x));
    Times(0.0, c, sqrt(x));
    Times(0.0, x, Square(c));
    RootUnique(sqrt(y), c * sqrt(x));
  }

  lemma {:induction false} ZeroColumn(m: Matrix, n: nat, j: nat, k: nat, i: nat)
    requires Rect(m, n) && j < n && i < k <= |m| && SumSquares(m, n, j, k) == 0.0
    ensures m[i][j] == 0.0
  {
    assert SumSquares(m, n, j, k - 1) == 0.0 && Square(m[k - 1][j]) == 0.0;
    if i < k - 1 {
      ZeroColumn(m, n, j, k - 1, i);
    } else {
      RootUnique(if m[i][j] < 0.0 then -m[i][j] else m[i][j], 0.0);
    }
  }

  lemma QuotientScales(y: real, e: real, c: real, x: real, d: real)
    requires c > 0.0 && d != 0.0 && e != 0.0 && Product(y, c, x) && Product(e, c, d)
    ensures y / e == x / d
  {
    assert (x / d) * (c * d) == c * x;
  }

  lemma NotZeroScales(e: real, c: real, d: real)
    requires c > 0.0 && d != 0.0 && Product(e, c, d)
    ensures Product(NotZero(e), c, NotZero(d))
  {
  }

  /** A column that is not all zero has its divisor scaled with it. */
  lemma DivisorScales(sqrt: Root, m: Matrix, n: nat, j: nat, c: real)
    requires IsSqrt(sqrt) && Rect(m, n) && j < n && c > 0.0 && sqrt(SumSquares(m, n, j, |m|)) != 0.0
    ensures Product(Divisor(sqrt, Scaled(m, n, j, c), n, j), c, Divisor(sqrt, m, n, j))
  {
    var s, s' := SumSquares(m, n, j, |m|), SumSquares(Scaled(m, n, j, c), n, j, |m|);
    hide IsSqrt, SumSquares, NotZero, Square, Product;
    ScaledSquares(m, n, j, c, |m|);
    SqrtScales(sqrt, s', c, s);
    NotZeroScales(sqrt(s'), c, sqrt(s));
  }

  /** A scaled entry over its column's divisor is unchanged, also where the column is zero. */
  lemma ScaledEntry(sqrt: Root, m: Matrix, n: nat, j: nat, c: real, i: nat, col: nat)
    requires IsSqrt(sqrt) && Rect(m, n) && j < n && c > 0.0 && i < |m| && col < n
    ensures Scaled(m, n, j, c)[i][col] / Divisor(sqrt, Scaled(m, n, j, c), n, col) ==
      m[i][col] / Divisor(sqrt, m, n, col)
  {
    if col != j {
      OtherSquares(m, n, j, c, col, |m|);
    } else if sqrt(SumSquares(m, n, j, |m|)) == 0.0 {
      ZeroColumn(m, n, j, |m|, i);
      assert Scaled(m, n, j, c)[i][j] == c * 0.0;
      hide Divisor;
    } else {
      DivisorScales(sqrt, m, n, j, c);
      assert Product(Scaled(m, n, j, c)[i][j], c, m[i][j]);
      hide Divisor, Product;
      QuotientScales(Scaled(m, n, j, c)[i][j], Divisor(sqrt, Scaled(m, n, j, c), n, j),
                     c, m[i][j], Divisor(sqrt, m, n, j));
    }
  }

  /** Multiplying one criterion of every alternative by a positive constant changes no score. */
  lemma ScaleInvariance(sqrt: Root, m: Matrix, n: nat, weights: seq<real>, benefits: seq<bool>, j: nat, c: real,
                        scores: seq<real>)
    requires IsSqrt(sqrt) && Rect(m, n) && |weights| == n && |benefits| == n && j < n && c > 0.0
    ensures Scores(sqrt, Scaled(m, n, j, c), n, weights, benefits, scores) <==>
      Scores(sqrt, m, n, weights, benefits, scores)
  {
    var m' := Scaled(m, n, j, c);
    forall i, col | 0 <= i < |m| && 0 <= col < n
      ensures Weighted(sqrt, m', n, weights)[i][col] == Weighted(sqrt, m, n, weights)[i][col]
    {
      ScaledEntry(sqrt, m, n, j, c, i, col);
    }
    SameMatrix(Weighted(sqrt, m', n, weights), Weighted(sqrt, m, n, weights), n);
  }

  // ----- what the weights and the scale of scores mean -----

  lemma {:induction false} SameColumnSquares(m: Matrix, m': Matrix, n: nat, col: nat, k: nat)
    requires Rect(m, n) && Rect(m', n) && |m| == |m'| && col < n && k <= |m|
    requires forall i :: 0 <= i < |m| ==> m[i][col] == m'[i][col]
    ensures SumSquares(m, n, col, k) == SumSquares(m', n, col, k)
  {
    if k > 0 {
      SameColumnSquares(m, m', n, col, k - 1);
    }
  }

  /** A criterion of weight zero has no say: whatever it reads, the scores are the same. */
  lemma WeightlessIgnored(sqrt: Root, m: Matrix, m': Matrix, n: nat, weights: seq<real>, benefits: seq<bool>, j: nat,
                          scores: seq<real>)
    requires Rect(m, n) && Rect(m', n) && |m| == |m'| && |weights| == n && |benefits| == n
    requires j < n && weights[j] == 0.0
    requires forall i, col :: 0 <= i < |m| && 0 <= col < n && col != j ==> m[i][col] == m'[i][col]
    ensures Scores(sqrt, m', n, weights, benefits, scores) <==> Scores(sqrt, m, n, weights, benefits, scores)
  {
    forall i, col | 0 <= i < |m| && 0 <= col < n
      ensures Weighted(sqrt, m', n, weights)[i][col] == Weighted(sqrt, m, n, weights)[i][col]
    {
      if col != j {
        SameColumnSquares(m, m', n, col, |m|);
      }
    }
    SameMatrix(Weighted(sqrt, m', n, weights), Weighted(sqrt, m, n, weights), n);
  }

  lemma {:induction false} NoDistance(row: seq<real>, to: seq<real>, k: nat)
    requires k <= |row| && k <= |to|
    ensures SqDist(row, to, k) == 0.0 <==> row[..k] == to[..k]
  {
    if k > 0 {
      NoDistance(row, to, k - 1);
      assert row[..k] == row[..k - 1] + [row[k - 1]] && to[..k] == to[..k - 1] + [to[k - 1]];
      SquareIsZero(row[k - 1] - to[k - 1]);
    }
  }

  lemma SquareIsZero(x: real)
    ensures Square(x) == 0.0 <==> x == 0.0
  {
    var y := if x < 0.0 then -x else x;
    if x < 0.0 {
      Negated(x);
    }
    if y > 0.0 {
      SquareStrict(0.0, y);
    }
    assert 0.0 * 0.0 == 0.0;
  }

  lemma Negated(x: real)
    ensures (-x) * (-x) == x * x
  {
  }

  /** The scale: the best row there could be scores 1, the worst 0, and only they do where they differ. */
  lemma ScoreEnds(sqrt: Root, row: seq<real>, ideal: seq<real>, anti: seq<real>)
    requires IsSqrt(sqrt) && |row| == |ideal| == |anti| && ideal != anti
    ensures Score(sqrt, row, ideal, anti) == 1.0 <==> row == ideal
    ensures Score(sqrt, row, ideal, anti) == 0.0 <==> row == anti
  {
    NoDistance(row, ideal, |row|);
    NoDistance(row, anti, |row|);
    assert row[..|row|] == row && ideal[..|row|] == ideal && anti[..|row|] == anti;
    var x, y := SqDist(row, ideal, |row|), SqDist(row, anti, |row|);
    var best, worst := sqrt(x), sqrt(y);
    SquareIsZero(best);
    SquareIsZero(worst);
    hide SqDist, IsSqrt;
    ShareEnds(best, worst);
  }

  lemma ShareEnds(best: real, worst: real)
    requires 0.0 <= best && 0.0 <= worst && best + worst > 0.0
    ensures worst / (best + worst) == 1.0 <==> best == 0.0
    ensures worst / (best + worst) == 0.0 <==> worst == 0.0
  {
  }
}
