/** The progress values the widgets report. */
module Progress {
  import opened Selection

  /** What a widget shows on its progress bar: opened, set to a percentage, closed. */
  datatype Event = Init | Set(value: real) | Finished

  /**
   * The workers' `int(100 * (i + 1) / total)` after row `i` of `total`; for these
   * non-negative operands it is the floor of the quotient.
   */
  function IntPercent(i: nat, total: nat): int
    requires i < total
  {
    (100 * (i + 1)) / total
  }

  /** The percentage stays in [0, 100] and is 100 exactly after the last row. */
  lemma IntPercentBounds(i: nat, total: nat)
    requires i < total
    ensures 0 <= IntPercent(i, total) <= 100
    ensures IntPercent(i, total) == 100 <==> i + 1 == total
  {
    var n := 100 * (i + 1);
    DivAtLeast(n, total, 0);
    if i + 1 == total {
      DivAtLeast(n, total, 100);
      DivBelow(n, total, 101);
    } else {
      DivBelow(n, total, 100);
    }
  }

  /** A later row never reports less. */
  lemma IntPercentMonotone(i: nat, j: nat, total: nat)
    requires i <= j < total
    ensures IntPercent(i, total) <= IntPercent(j, total)
  {
    var a, b := 100 * (i + 1), 100 * (j + 1);
    assert a == (a / total) * total + a % total;
    DivAtLeast(b, total, a / total);
  }

  // Facts about multiplication and Euclidean division of non-negative numbers.

  lemma MulMonoLe(a: int, b: int, d: int)
    requires d >= 0 && a <= b
    ensures a * d <= b * d
  {
    assert b * d - a * d == (b - a) * d;
  }

  lemma MulCancelLt(a: int, b: int, d: int)
    requires d > 0 && a * d < b * d
    ensures a < b
  {
    if a >= b {
      MulMonoLe(b, a, d);
    }
  }

  lemma DivBelow(n: int, d: int, q: int)
    requires d > 0 && 0 <= n < q * d
    ensures n / d < q
  {
    assert n == (n / d) * d + n % d;
    MulCancelLt(n / d, q, d);
  }

  lemma DivAtLeast(n: int, d: int, q: int)
    requires d > 0 && q * d <= n
    ensures q <= n / d
  {
    assert n == (n / d) * d + n % d;
    MulCancelLt(q - 1, n / d + 1, d);
  }

  /** The augmenter's `(i * K + j) / (N * K) * 100` for variant `j` of row `i`. */
  function RealPercent(i: nat, j: nat, k: nat, n: nat): real
    requires n > 0 && k > 0
  {
    (i * k + j) as real / (n * k) as real * 100.0
  }

  /** For a row of the table and a variant below the count the value stays in [0, 100). */
  lemma RealPercentBounds(i: nat, j: nat, k: nat, n: nat)
    requires i < n && j < k
    ensures 0.0 <= RealPercent(i, j, k, n) < 100.0
  {
    MulMonoLe(i, n - 1, k);
    assert i * k + j < n * k;
    RatioBelowOne((i * k + j) as real, (n * k) as real);
  }

  lemma RatioBelowOne(a: real, b: real)
    requires 0.0 <= a < b
    ensures 0.0 <= a / b * 100.0 < 100.0
  {
    var q := a / b;
    assert q * b == a;
  }

  /** The value grows strictly with (row, variant) in lexicographic order. */
  lemma RealPercentIncreasing(i: nat, j: nat, i': nat, j': nat, k: nat, n: nat)
    requires n > 0 && j < k && j' < k
    requires i < i' || (i == i' && j < j')
    ensures RealPercent(i, j, k, n) < RealPercent(i', j', k, n)
  {
    LexIndexLess(i, j, i', j', k);
    MulMonoLe(1, n, k);
    RatioIncreasing((i * k + j) as real, (i' * k + j') as real, (n * k) as real);
  }

  lemma LexIndexLess(i: nat, j: nat, i': nat, j': nat, k: nat)
    requires j < k && j' < k
    requires i < i' || (i == i' && j < j')
    ensures i * k + j < i' * k + j'
  {
    if i < i' {
      MulMonoLe(i + 1, i', k);
      assert (i + 1) * k == i * k + k;
    }
  }

  lemma RatioIncreasing(a: real, a': real, b: real)
    requires a < a' && b > 0.0
    ensures a / b * 100.0 < a' / b * 100.0
  {
    var q, q' := a / b, a' / b;
    assert (q' - q) * b == a' - a;
  }

  /** The progress values `int(100 * (i + 1) / total)` of the processed rows `done`. */
  function Percentages(done: seq<nat>, total: nat): (r: seq<int>)
    requires forall k :: 0 <= k < |done| ==> done[k] < total
    ensures |r| == |done|
  {
    seq(|done|, k requires 0 <= k < |done| => IntPercent(done[k], total))
  }

  /**
   * The worker's progress values for the rows whose file exists stay in [0, 100],
   * never decrease, and end at 100 exactly when the last row's file exists.
   */
  lemma PercentagesFacts(present: seq<bool>)
    ensures forall k :: 0 <= k < |Positions(present)| ==> Positions(present)[k] < |present|
    ensures var ps := Percentages(Positions(present), |present|);
      (forall k :: 0 <= k < |ps| ==> 0 <= ps[k] <= 100) &&
      (forall a, b :: 0 <= a < b < |ps| ==> ps[a] <= ps[b]) &&
      ((|ps| > 0 && ps[|ps| - 1] == 100) <==> (|present| > 0 && present[|present| - 1]))
  {
    var done := Positions(present);
    PositionsBounded(present);
    PositionsIncreasing(present);
    var ps := Percentages(done, |present|);
    forall k | 0 <= k < |ps| ensures 0 <= ps[k] <= 100 {
      IntPercentBounds(done[k], |present|);
    }
    forall a, b | 0 <= a < b < |ps| ensures ps[a] <= ps[b] {
      IntPercentMonotone(done[a], done[b], |present|);
    }
    if |present| > 0 {
      var n := |present| - 1;
      PositionsBounded(present[..n]);
      if present[n] {
        assert done == Positions(present[..n]) + [n];
        IntPercentBounds(n, |present|);
      } else if |ps| > 0 {
        assert done == Positions(present[..n]);
        IntPercentBounds(done[|ps| - 1], |present|);
      }
    }
  }

  /**
   * A loop that stops before row `stop` reports, for the rows it reached whose file
   * exists, values in [0, 100] that never decrease; when it reached the end they end
   * at 100 exactly when the last row's file exists.
   */
  lemma PrefixPercentagesFacts(present: seq<bool>, stop: nat)
    requires stop <= |present|
    ensures forall k :: 0 <= k < |Positions(present[..stop])| ==> Positions(present[..stop])[k] < |present|
    ensures var ps := Percentages(Positions(present[..stop]), |present|);
      (forall k :: 0 <= k < |ps| ==> 0 <= ps[k] <= 100) &&
      (forall a, b :: 0 <= a < b < |ps| ==> ps[a] <= ps[b]) &&
      (stop == |present| ==> ((|ps| > 0 && ps[|ps| - 1] == 100) <==> (|present| > 0 && present[|present| - 1])))
  {
    var part := present[..stop];
    var done := Positions(part);
    PositionsBounded(part);
    PositionsIncreasing(part);
    var ps := Percentages(done, |present|);
    forall k | 0 <= k < |ps| ensures 0 <= ps[k] <= 100 {
      IntPercentBounds(done[k], |present|);
    }
    forall a, b | 0 <= a < b < |ps| ensures ps[a] <= ps[b] {
      IntPercentMonotone(done[a], done[b], |present|);
    }
    if stop == |present| {
      assert part == present;
      PercentagesFacts(present);
    }
  }

  /** The progress bar events the widget shows for the worker's values. */
  function Shown(ps: seq<int>): (r: seq<Event>)
    ensures |r| == |ps|
  {
    seq(|ps|, k requires 0 <= k < |ps| => Set(ps[k] as real))
  }

}
