/** Exact sums and means of percentages, in the order `Array.prototype.reduce`
    adds them (`acc + x`, starting from 0). */
module Progress {

  function Sum(xs: seq<real>): real {
    if |xs| == 0 then 0.0 else Sum(xs[..|xs| - 1]) + xs[|xs| - 1]
  }

  /** The arithmetic mean; undefined (0/0 in the source) for an empty list. */
  function Mean(xs: seq<real>): real
    requires |xs| > 0
  {
    Sum(xs) / |xs| as real
  }

  predicate Percentages(xs: seq<real>) {
    forall i :: 0 <= i < |xs| ==> 0.0 <= xs[i] <= 100.0
  }

  lemma {:induction false} SumBounds(xs: seq<real>)
    requires Percentages(xs)
    ensures 0.0 <= Sum(xs) <= 100.0 * |xs| as real
  {
    if |xs| > 0 {
      SumBounds(xs[..|xs| - 1]);
    }
  }

  lemma MeanBounds(xs: seq<real>)
    requires |xs| > 0 && Percentages(xs)
    ensures 0.0 <= Mean(xs) <= 100.0
  {
    SumBounds(xs);
    var n := |xs| as real;
    assert Sum(xs) / n <= (100.0 * n) / n;
  }

  lemma {:induction false} SumAppend(a: seq<real>, b: seq<real>)
    ensures Sum(a + b) == Sum(a) + Sum(b)
    decreases |b|
  {
    if |b| > 0 {
      assert (a + b)[..|a + b| - 1] == a + b[..|b| - 1];
      SumAppend(a, b[..|b| - 1]);
    } else {
      assert a + b == a;
    }
  }

  lemma {:induction false} SumPermutation(a: seq<real>, b: seq<real>)
    requires multiset(a) == multiset(b)
    ensures Sum(a) == Sum(b)
    decreases |a|
  {
    if |a| == 0 {
      assert |multiset(b)| == 0;
    } else {
      var x := a[|a| - 1];
      assert x in multiset(b);
      var j :| 0 <= j < |b| && b[j] == x;
      var rest := b[..j] + b[j + 1..];
      assert b == b[..j] + [x] + b[j + 1..];
      assert a == a[..|a| - 1] + [x];
      assert multiset(b) == multiset(b[..j]) + multiset{x} + multiset(b[j + 1..]);
      assert multiset(a) == multiset(a[..|a| - 1]) + multiset{x};
      assert multiset(rest) == multiset(b[..j]) + multiset(b[j + 1..]);
      assert multiset(a[..|a| - 1]) == multiset(a) - multiset{x};
      assert multiset(rest) == multiset(b) - multiset{x};
      SumPermutation(a[..|a| - 1], rest);
      SumAppend(b[..j] + [x], b[j + 1..]);
      SumAppend(b[..j], [x]);
      SumAppend(b[..j], b[j + 1..]);
      assert Sum([x]) == x by { assert [x][..0] == []; }
    }
  }

  lemma {:induction false} SumConstant(xs: seq<real>, v: real)
    requires forall i :: 0 <= i < |xs| ==> xs[i] == v
    ensures Sum(xs) == v * |xs| as real
  {
    if |xs| > 0 {
      SumConstant(xs[..|xs| - 1], v);
    }
  }

  lemma MeanConstant(xs: seq<real>, v: real)
    requires |xs| > 0
    requires forall i :: 0 <= i < |xs| ==> xs[i] == v
    ensures Mean(xs) == v
  {
    SumConstant(xs, v);
  }

  // ---------------------------------------------------------------------------
  // A count as a percentage of a total

  /** `(part / total) * 100`, exactly. */
  function Percent(correct: nat, total: nat): real
    requires total > 0
  {
    (correct as real / total as real) * 100.0
  }

  lemma PercentTimesTotal(correct: nat, total: nat)
    requires total > 0
    ensures Percent(correct, total) * total as real == 100.0 * correct as real
  {
    var q := correct as real / total as real;
    assert q * total as real == correct as real;
  }

  /** A count out of a positive total is a percentage, 100 exactly when the
      count is the total and 0 exactly when it is 0. */
  lemma PercentBounds(correct: nat, total: nat)
    requires 0 < total && correct <= total
    ensures 0.0 <= Percent(correct, total) <= 100.0
    ensures Percent(correct, total) == 100.0 <==> correct == total
    ensures Percent(correct, total) == 0.0 <==> correct == 0
  {
    PercentTimesTotal(correct, total);
    var p := Percent(correct, total);
    var n := total as real;
    assert p * n == 100.0 * correct as real;
  }

  /** The pass condition stated on counts: 100 times the number of correct
      answers reaches the threshold times the number of questions. */
  predicate MeetsThreshold(correct: nat, total: nat, threshold: real) {
    100.0 * correct as real >= threshold * total as real
  }

  /** The threshold comparison on a percentage is a comparison of counts. */
  lemma PercentAtLeast(correct: nat, total: nat, threshold: real)
    requires total > 0
    ensures Percent(correct, total) >= threshold <==> MeetsThreshold(correct, total, threshold)
  {
    PercentTimesTotal(correct, total);
    var p := Percent(correct, total);
    var n := total as real;
    if p >= threshold {
      assert p * n >= threshold * n;
    } else {
      assert p * n < threshold * n;
    }
  }
}
