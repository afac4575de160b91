/** _otsu_threshold of client/led_charge.py, over exact reals. A histogram has natural-number counts
    and one midpoint per bin; splitting after bin i puts bins 0..i left and the rest right. */
module Otsu {

  datatype Histogram = Histogram(counts: seq<nat>, mids: seq<real>)

  ghost predicate Valid(h: Histogram) {
    |h.counts| == |h.mids| >= 1
  }

  // ---- The code's prefix and suffix sums ----

  /** np.cumsum. */
  function CumSum(xs: seq<real>): (r: seq<real>)
    ensures |r| == |xs|
  {
    if xs == [] then []
    else
      var front := CumSum(xs[..|xs| - 1]);
      front + [(if front == [] then 0.0 else front[|front| - 1]) + xs[|xs| - 1]]
  }

  /** xs[::-1]. */
  function Reverse(xs: seq<real>): (r: seq<real>)
    ensures |r| == |xs|
    ensures forall i :: 0 <= i < |xs| ==> r[i] == xs[|xs| - 1 - i]
  {
    seq(|xs|, i requires 0 <= i < |xs| => xs[|xs| - 1 - i])
  }

  function Weights(h: Histogram): (r: seq<real>)
    ensures |r| == |h.counts|
  {
    seq(|h.counts|, i requires 0 <= i < |h.counts| => h.counts[i] as real)
  }

  /** counts * mids. */
  function Moments(h: Histogram): (r: seq<real>)
    requires Valid(h)
    ensures |r| == |h.counts|
  {
    seq(|h.counts|, i requires 0 <= i < |h.counts| => h.counts[i] as real * h.mids[i])
  }

  /** np.maximum(w, 1.0). */
  function AtLeastOne(w: real): real { if w >= 1.0 then w else 1.0 }

  function GuardedQuotient(sum: real, weight: real): real { sum / AtLeastOne(weight) }

  function Score(w1: real, w2: real, m1: real, m2: real): real { w1 * w2 * ((m1 - m2) * (m1 - m2)) }

  function Quotients(sums: seq<real>, weights: seq<real>): (r: seq<real>)
    requires |sums| == |weights|
    ensures |r| == |sums|
  {
    seq(|sums|, i requires 0 <= i < |sums| => GuardedQuotient(sums[i], weights[i]))
  }

  /** inter_class: one score per split. */
  function InterClass(h: Histogram): (r: seq<real>)
    requires Valid(h)
    ensures |r| == |h.counts| - 1
  {
    var weight1 := CumSum(Weights(h));
    var weight2 := Reverse(CumSum(Reverse(Weights(h))));
    var mean1 := Quotients(CumSum(Moments(h)), weight1);
    var mean2 := Reverse(Quotients(CumSum(Reverse(Moments(h))), Reverse(weight2)));
    seq(|h.counts| - 1, i requires 0 <= i < |h.counts| - 1 =>
      Score(weight1[i], weight2[i + 1], mean1[i], mean2[i + 1]))
  }

  /** np.argmax: the first index of a maximal element. */
  function ArgMax(xs: seq<real>): (r: nat)
    requires xs != []
    ensures r < |xs|
    ensures forall i :: 0 <= i < |xs| ==> xs[i] <= xs[r]
    ensures forall i :: 0 <= i < r ==> xs[i] < xs[r]
  {
    if |xs| == 1 then 0
    else
      var front := xs[..|xs| - 1];
      var best := ArgMax(front);
      if xs[|xs| - 1] > front[best] then |xs| - 1 else best
  }

  /** The index the threshold is taken from, and the threshold. */
  function SplitIndex(h: Histogram): (r: nat)
    requires Valid(h)
    ensures r < |h.mids|
  {
    if InterClass(h) == [] then 0 else ArgMax(InterClass(h))
  }

  function Threshold(h: Histogram): real
    requires Valid(h)
  {
    h.mids[SplitIndex(h)]
  }

  // ---- What Otsu's method is for ----

  /** Sums over bins lo..hi, straight from the definition. */
  function Weight(h: Histogram, lo: nat, hi: nat): real
    requires Valid(h) && lo <= hi <= |h.counts|
    decreases hi - lo
  {
    if lo == hi then 0.0 else Weight(h, lo, hi - 1) + h.counts[hi - 1] as real
  }

  function Moment(h: Histogram, lo: nat, hi: nat): real
    requires Valid(h) && lo <= hi <= |h.counts|
    decreases hi - lo
  {
    if lo == hi then 0.0 else Moment(h, lo, hi - 1) + h.counts[hi - 1] as real * h.mids[hi - 1]
  }

  /** Squared deviation of the values in bins lo..hi from c. */
  function Deviation(h: Histogram, lo: nat, hi: nat, c: real): real
    requires Valid(h) && lo <= hi <= |h.counts|
    decreases hi - lo
  {
    if lo == hi then 0.0
    else Deviation(h, lo, hi - 1, c) + WeightedSquare(h.counts[hi - 1] as real, h.mids[hi - 1], c)
  }

  function WeightedSquare(n: real, m: real, c: real): real { n * ((m - c) * (m - c)) }

  /** The mean of a class; an empty class has none, and contributes nothing whatever we say. */
  function Mean(h: Histogram, lo: nat, hi: nat): real
    requires Valid(h) && lo <= hi <= |h.counts|
  {
    if Weight(h, lo, hi) == 0.0 then 0.0 else Moment(h, lo, hi) / Weight(h, lo, hi)
  }

  /** Total within-class squared deviation of the split after bin i. */
  function WithinClass(h: Histogram, i: nat): real
    requires Valid(h) && i < |h.counts|
  {
    Deviation(h, 0, i + 1, Mean(h, 0, i + 1)) + Deviation(h, i + 1, |h.counts|, Mean(h, i + 1, |h.counts|))
  }

  // ---- The sums are the sums ----

  lemma {:induction false} CumSumPrefix(xs: seq<real>, n: nat, i: nat)
    requires i < n <= |xs|
    ensures CumSum(xs[..n])[i] == CumSum(xs)[i]
    decreases |xs|
  {
    if n < |xs| {
      assert xs[..|xs| - 1][..n] == xs[..n];
      CumSumPrefix(xs[..|xs| - 1], n, i);
    } else {
      assert xs[..n] == xs;
    }
  }

  lemma CumSumLast(ys: seq<real>, k: nat)
    requires |ys| == k + 1
    ensures CumSum(ys)[k] == (if k == 0 then 0.0 else CumSum(ys[..k])[k - 1]) + ys[k]
  {
  }

  lemma CumSumStep(xs: seq<real>, i: nat)
    requires i < |xs|
    ensures CumSum(xs)[i] == (if i == 0 then 0.0 else CumSum(xs)[i - 1]) + xs[i]
  {
    hide CumSum;
    CumSumPrefix(xs, i + 1, i);
    CumSumLast(xs[..i + 1], i);
    if i > 0 {
      CumSumPrefix(xs, i, i - 1);
      assert xs[..i + 1][..i] == xs[..i];
    }
  }

  lemma {:induction false} PrefixSums(h: Histogram, i: nat)
    requires Valid(h) && i < |h.counts|
    ensures CumSum(Weights(h))[i] == Weight(h, 0, i + 1)
    ensures CumSum(Moments(h))[i] == Moment(h, 0, i + 1)
  {
    CumSumStep(Weights(h), i);
    CumSumStep(Moments(h), i);
    if i > 0 {
      PrefixSums(h, i - 1);
    }
  }

  lemma {:induction false} FrontStep(h: Histogram, lo: nat, hi: nat)
    requires Valid(h) && lo < hi <= |h.counts|
    ensures Weight(h, lo, hi) == h.counts[lo] as real + Weight(h, lo + 1, hi)
    ensures Moment(h, lo, hi) == h.counts[lo] as real * h.mids[lo] + Moment(h, lo + 1, hi)
    decreases hi - lo
  {
    if lo + 1 < hi {
      FrontStep(h, lo, hi - 1);
    }
  }

  lemma {:induction false} SuffixSums(h: Histogram, i: nat)
    requires Valid(h) && i < |h.counts|
    ensures CumSum(Reverse(Weights(h)))[|h.counts| - 1 - i] == Weight(h, i, |h.counts|)
    ensures CumSum(Reverse(Moments(h)))[|h.counts| - 1 - i] == Moment(h, i, |h.counts|)
    decreases |h.counts| - i
  {
    var k := |h.counts| - 1 - i;
    CumSumStep(Reverse(Weights(h)), k);
    CumSumStep(Reverse(Moments(h)), k);
    FrontStep(h, i, |h.counts|);
    if k > 0 {
      SuffixSums(h, i + 1);
    }
  }

  /** Counts are whole, so a class is empty or weighs at least one: the guard only ever replaces 0. */
  lemma {:induction false} WeightIsWhole(h: Histogram, lo: nat, hi: nat)
    requires Valid(h) && lo <= hi <= |h.counts|
    ensures Weight(h, lo, hi) == 0.0 || Weight(h, lo, hi) >= 1.0
    ensures Weight(h, lo, hi) == 0.0 ==> Moment(h, lo, hi) == 0.0
    ensures Weight(h, lo, hi) == 0.0 ==> forall c :: Deviation(h, lo, hi, c) == 0.0
    decreases hi - lo
  {
    if lo < hi {
      WeightIsWhole(h, lo, hi - 1);
      assert h.counts[hi - 1] == 0 || h.counts[hi - 1] as real >= 1.0;
    }
  }

  /** An entry of inter_class in terms of the cumulative sums it is made of. */
  lemma InterClassAt(h: Histogram, i: nat)
    requires Valid(h) && i + 1 < |h.counts|
    ensures var k := |h.counts| - 2 - i;
            var w1, w2 := CumSum(Weights(h))[i], CumSum(Reverse(Weights(h)))[k];
            InterClass(h)[i]
            == Score(w1, w2, GuardedQuotient(CumSum(Moments(h))[i], w1), GuardedQuotient(CumSum(Reverse(Moments(h)))[k], w2))
  {
    hide GuardedQuotient, CumSum, Score, Weights, Moments;
  }

  /** The fast form's score of the split after bin i is w1*w2*(m1 - m2)^2 of the two classes. */
  lemma ScoreMeaning(h: Histogram, i: nat)
    requires Valid(h) && i + 1 < |h.counts|
    ensures InterClass(h)[i]
         == Score(Weight(h, 0, i + 1), Weight(h, i + 1, |h.counts|), Mean(h, 0, i + 1), Mean(h, i + 1, |h.counts|))
  {
    hide Mean, GuardedQuotient, CumSum, Score, Weight, Moment, Weights, Moments, InterClass, Reverse;
    InterClassAt(h, i);
    PrefixSums(h, i);
    SuffixSums(h, i + 1);
    GuardedMean(h, 0, i + 1);
    GuardedMean(h, i + 1, |h.counts|);
  }

  /** Dividing by the guarded weight gives the class mean, or 0 for an empty class. */
  lemma GuardedMean(h: Histogram, lo: nat, hi: nat)
    requires Valid(h) && lo <= hi <= |h.counts|
    ensures GuardedQuotient(Moment(h, lo, hi), Weight(h, lo, hi)) == Mean(h, lo, hi)
  {
    WeightIsWhole(h, lo, hi);
    hide Weight, Moment;
  }

  // ---- Optimality ----

  lemma {:induction false} Concatenate(h: Histogram, i: nat, hi: nat, c: real)
    requires Valid(h) && i <= hi <= |h.counts|
    ensures Weight(h, 0, hi) == Weight(h, 0, i) + Weight(h, i, hi)
    ensures Moment(h, 0, hi) == Moment(h, 0, i) + Moment(h, i, hi)
    ensures Deviation(h, 0, hi, c) == Deviation(h, 0, i, c) + Deviation(h, i, hi, c)
    decreases hi
  {
    if i < hi {
      Concatenate(h, i, hi - 1, c);
    }
  }

  /** The deviation from c, given the one from 0, the moment and the weight. */
  function Moved(D0: real, M: real, W: real, c: real): real { D0 - 2.0 * c * M + c * c * W }

  lemma {:induction false} Recentre(h: Histogram, lo: nat, hi: nat, c: real)
    requires Valid(h) && lo <= hi <= |h.counts|
    ensures Deviation(h, lo, hi, c) == Moved(Deviation(h, lo, hi, 0.0), Moment(h, lo, hi), Weight(h, lo, hi), c)
    decreases hi - lo
  {
    if lo < hi {
      var n, m := h.counts[hi - 1] as real, h.mids[hi - 1];
      LastBin(h, lo, hi, c, n, m);
      LastBin(h, lo, hi, 0.0, n, m);
      Recentre(h, lo, hi - 1, c);
      ShiftSquare(n, m, c, Deviation(h, lo, hi - 1, 0.0), Moment(h, lo, hi - 1), Weight(h, lo, hi - 1));
      hide *;
    }
  }

  lemma LastBin(h: Histogram, lo: nat, hi: nat, c: real, n: real, m: real)
    requires Valid(h) && lo < hi <= |h.counts| && n == h.counts[hi - 1] as real && m == h.mids[hi - 1]
    ensures Deviation(h, lo, hi, c) == Deviation(h, lo, hi - 1, c) + WeightedSquare(n, m, c)
    ensures Moment(h, lo, hi) == Moment(h, lo, hi - 1) + n * m
    ensures Weight(h, lo, hi) == Weight(h, lo, hi - 1) + n
  {
    hide WeightedSquare;
  }

  lemma ShiftSquare(n: real, m: real, c: real, D0: real, M: real, W: real)
    ensures Moved(D0, M, W, c) + WeightedSquare(n, m, c) == Moved(D0 + WeightedSquare(n, m, 0.0), M + n * m, W + n, c)
  {
    assert n * ((m - c) * (m - c)) == n * (m * m) - 2.0 * c * (n * m) + c * c * n;
    assert 2.0 * c * (M + n * m) == 2.0 * c * M + 2.0 * c * (n * m);
    assert c * c * (W + n) == c * c * W + c * c * n;
  }

  lemma ClassDeviation(h: Histogram, lo: nat, hi: nat)
    requires Valid(h) && lo <= hi <= |h.counts|
    ensures Moment(h, lo, hi) == Mean(h, lo, hi) * Weight(h, lo, hi)
    ensures Deviation(h, lo, hi, Mean(h, lo, hi))
         == Deviation(h, lo, hi, 0.0) - Mean(h, lo, hi) * Mean(h, lo, hi) * Weight(h, lo, hi)
  {
    hide *;
    MeanTimesWeight(h, lo, hi);
    Recentre(h, lo, hi, Mean(h, lo, hi));
    AtTheMean(Mean(h, lo, hi), Weight(h, lo, hi), Moment(h, lo, hi), Deviation(h, lo, hi, 0.0));
  }

  lemma AtTheMean(mu: real, w: real, M: real, D0: real)
    requires M == mu * w
    ensures Moved(D0, M, w, mu) == D0 - mu * mu * w
  {
    assert 2.0 * mu * (mu * w) == 2.0 * (mu * mu * w);
  }

  lemma MeanTimesWeight(h: Histogram, lo: nat, hi: nat)
    requires Valid(h) && lo <= hi <= |h.counts|
    ensures Moment(h, lo, hi) == Mean(h, lo, hi) * Weight(h, lo, hi)
  {
    WeightIsWhole(h, lo, hi);
    hide Weight, Moment;
  }

  /** The decomposition of variance: score and within-class deviation of a split trade off exactly. */
  lemma ScoreAndWithinClass(h: Histogram, i: nat)
    requires Valid(h) && i + 1 < |h.counts|
    ensures InterClass(h)[i] + Weight(h, 0, |h.counts|) * WithinClass(h, i)
         == Weight(h, 0, |h.counts|) * Deviation(h, 0, |h.counts|, Mean(h, 0, |h.counts|))
  {
    var n := |h.counts|;
    hide InterClass, Weight, Moment, Mean, Deviation, Score;
    ScoreMeaning(h, i);
    ClassDeviation(h, 0, i + 1);
    ClassDeviation(h, i + 1, n);
    ClassDeviation(h, 0, n);
    Concatenate(h, i + 1, n, 0.0);
    VarianceIdentity(Mean(h, 0, i + 1), Weight(h, 0, i + 1), Mean(h, i + 1, n), Weight(h, i + 1, n), Mean(h, 0, n),
                     Deviation(h, 0, i + 1, 0.0), Deviation(h, i + 1, n, 0.0));
  }

  lemma VarianceIdentity(a: real, w1: real, b: real, w2: real, mu: real, D1: real, D2: real)
    requires mu * (w1 + w2) == a * w1 + b * w2
    ensures Score(w1, w2, a, b) + (w1 + w2) * ((D1 - a * a * w1) + (D2 - b * b * w2))
         == (w1 + w2) * (D1 + D2 - mu * mu * (w1 + w2))
  {
    var W, S, Q := w1 + w2, a * w1 + b * w2, a * a * w1 + b * b * w2;
    assert W * (mu * mu * W) == (mu * W) * (mu * W);
    assert w1 * w2 * ((a - b) * (a - b)) == W * Q - S * S;
    Spread(W, D1 + D2, Q);
    Spread(W, D1 + D2, mu * mu * W);
  }

  lemma Spread(W: real, x: real, y: real)
    ensures W * (x - y) == W * x - W * y
  {
  }

  /** The chosen split is the first with the largest score, and it has the least total within-class
      squared deviation of all splits, empty classes included. Every earlier split is strictly worse. */
  lemma OtsuIsOptimal(h: Histogram, i: nat)
    requires Valid(h) && i + 1 < |h.counts|
    ensures SplitIndex(h) + 1 < |h.counts|
    ensures InterClass(h)[i] <= InterClass(h)[SplitIndex(h)]
    ensures i < SplitIndex(h) ==> InterClass(h)[i] < InterClass(h)[SplitIndex(h)]
    ensures WithinClass(h, SplitIndex(h)) <= WithinClass(h, i)
    ensures i < SplitIndex(h) ==> WithinClass(h, SplitIndex(h)) < WithinClass(h, i)
  {
    hide InterClass, WithinClass, Weight, Mean, Deviation;
    var s, W := SplitIndex(h), Weight(h, 0, |h.counts|);
    assert InterClass(h)[i] <= InterClass(h)[s];
    ScoreAndWithinClass(h, i);
    ScoreAndWithinClass(h, s);
    WeightIsWhole(h, 0, |h.counts|);
    if W == 0.0 {
      NothingToSplit(h, i);
      NothingToSplit(h, s);
    } else {
      TradeOff(W, InterClass(h)[i], WithinClass(h, i), InterClass(h)[s], WithinClass(h, s));
    }
  }

  /** Bin centres grow. */
  ghost predicate Ordered(h: Histogram)
    requires Valid(h)
  {
    forall i, j :: 0 <= i < j < |h.mids| ==> h.mids[i] < h.mids[j]
  }

  /** Comparing with the threshold is splitting at the optimum: exactly the bins up to the chosen one are at or
      below it, and no other split has less total within-class squared deviation. With a single bin the
      threshold is its centre. */
  lemma ThresholdSplits(h: Histogram, bin: nat)
    requires Valid(h) && Ordered(h) && bin < |h.mids|
    ensures h.mids[bin] <= Threshold(h) <==> bin <= SplitIndex(h)
    ensures |h.counts| == 1 ==> Threshold(h) == h.mids[0]
    ensures bin + 1 < |h.counts| ==> WithinClass(h, SplitIndex(h)) <= WithinClass(h, bin)
  {
    if bin + 1 < |h.counts| {
      OtsuIsOptimal(h, bin);
    }
    hide WithinClass, ArgMax;
  }

  lemma TradeOff(W: real, score: real, within: real, best: real, least: real)
    requires W > 0.0 && score + W * within == best + W * least && score <= best
    ensures least <= within
    ensures score < best ==> least < within
  {
    Spread(W, least, within);
    if least > within {
      PositiveProduct(W, least - within);
    }
  }

  lemma PositiveProduct(x: real, y: real)
    requires x > 0.0 && y > 0.0
    ensures x * y > 0.0
  {
  }

  /** An empty histogram: every class is empty and every split as good as any other. */
  lemma NothingToSplit(h: Histogram, i: nat)
    requires Valid(h) && i + 1 < |h.counts| && Weight(h, 0, |h.counts|) == 0.0
    ensures InterClass(h)[i] == 0.0 && WithinClass(h, i) == 0.0
  {
    Concatenate(h, i + 1, |h.counts|, 0.0);
    WeightIsWhole(h, 0, i + 1);
    WeightIsWhole(h, i + 1, |h.counts|);
    ScoreMeaning(h, i);
  }
}
