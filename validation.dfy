/**
 * The validator: class and confusion counts over a contiguous index range of the
 * dataset under frozen weights, and the overall accuracy derived from them.
 */
module Validation {
  import opened Options
  import opened Linear

  /**
   * The eight counters of one validation pass: true class counts (C1 = label > 0,
   * C2 otherwise), correct and wrong predictions per class, and predicted class counts.
   */
  datatype Counts = Counts(
    c1Count: nat, c2Count: nat,
    vP: nat, vN: nat, fP: nat, fN: nat,
    c1Out: nat, c2Out: nat)

  const NO_COUNTS := Counts(0, 0, 0, 0, 0, 0, 0, 0)

  /** The split point of the dataset used by validation: floor(0.75*n). */
  function ValidationCut(n: nat): nat {
    (3 * n) / 4
  }

  /** The index range [lo, hi) a validation pass covers: the first 75% of n samples, or the rest. */
  function ValidationRange(n: nat, heldOut: bool): (r: (nat, nat))
    ensures r.0 <= r.1 <= n
    ensures heldOut ==> r == (ValidationCut(n), n)
    ensures !heldOut ==> r == (0, ValidationCut(n))
  {
    if heldOut then (ValidationCut(n), n) else (0, ValidationCut(n))
  }

  /**
   * One sample's contribution to the counters, given its score and its label: one
   * more true class (C1 exactly for a positive label), one more predicted class (C1
   * exactly for a positive score) and one more confusion cell, a wrong one exactly
   * when score*label < 0.
   */
  function Classify(c: Counts, score: real, y: real): (r: Counts)
    ensures r.c1Count + r.c2Count == c.c1Count + c.c2Count + 1
    ensures r.c1Count == c.c1Count + 1 <==> y > 0.0
    ensures r.c1Out + r.c2Out == c.c1Out + c.c2Out + 1
    ensures r.c1Out == c.c1Out + 1 <==> score > 0.0
    ensures r.vP + r.vN + r.fP + r.fN == c.vP + c.vN + c.fP + c.fN + 1
    ensures r.fP + r.fN == c.fP + c.fN + 1 <==> score * y < 0.0
  {
    var c := if y > 0.0 then c.(c1Count := c.c1Count + 1) else c.(c2Count := c.c2Count + 1);
    var c := if score > 0.0 then c.(c1Out := c.c1Out + 1) else c.(c2Out := c.c2Out + 1);
    if score * y < 0.0 then
      if score > 0.0 then c.(fP := c.fP + 1) else c.(fN := c.fN + 1)
    else
      if y > 0.0 then c.(vP := c.vP + 1) else c.(vN := c.vN + 1)
  }

  /**
   * The counters after visiting the samples lo, lo+1, ..., hi-1 in order: every
   * sample of the range is counted once as a true class, once as a predicted class
   * and once in a confusion cell.
   */
  function Tally(w: seq<real>, X: seq<seq<real>>, Y: seq<real>, lo: nat, hi: nat): (r: Counts)
    requires lo <= hi <= |X| && hi <= |Y|
    requires forall i :: lo <= i < hi ==> |X[i]| == |w|
    ensures r.c1Count + r.c2Count == hi - lo
    ensures r.c1Out + r.c2Out == hi - lo
    ensures r.vP + r.vN + r.fP + r.fN == hi - lo
    decreases hi - lo
  {
    if hi == lo then NO_COUNTS
    else Classify(Tally(w, X, Y, lo, hi - 1), Dot(w, X[hi - 1]), Y[hi - 1])
  }

  /**
   * Overall accuracy (vP + vN) / (C1 + C2); undefined (None, the source's NaN) when
   * no sample was counted. When defined, it times the number of samples is the
   * number of correct predictions, and it is never negative.
   */
  function Accuracy(c: Counts): (acc: Option<real>)
    ensures acc.None? <==> c.c1Count + c.c2Count == 0
    ensures acc.Some? ==> acc.value * (c.c1Count + c.c2Count) as real == (c.vP + c.vN) as real
    ensures acc.Some? ==> acc.value >= 0.0
  {
    if c.c1Count + c.c2Count == 0 then None
    else Some((c.vP + c.vN) as real / (c.c1Count + c.c2Count) as real)
  }

  /** The four counter identities of a pass over n samples. */
  predicate Balanced(c: Counts, n: nat) {
    && c.c1Count == c.vP + c.fN
    && c.c2Count == c.vN + c.fP
    && c.c1Count + c.c2Count == n
    && c.c1Out + c.c2Out == n
  }

  /** On reals: a negative product has factors of opposite signs. */
  lemma OppositeSigns(g: real, y: real)
    requires g * y < 0.0
    ensures g > 0.0 ==> y < 0.0
    ensures g <= 0.0 ==> y > 0.0
  {
    assert g > 0.0 && y >= 0.0 ==> g * y >= 0.0;
    assert g <= 0.0 && y <= 0.0 ==> (-g) * (-y) >= 0.0;
  }

  /** Every sample adds one to exactly one true class, one predicted class and one confusion cell. */
  lemma ClassifyBalanced(c: Counts, score: real, y: real, n: nat)
    requires Balanced(c, n)
    ensures Balanced(Classify(c, score, y), n + 1)
  {
    if score * y < 0.0 {
      OppositeSigns(score, y);
    }
  }

  /**
   * The counters of any pass satisfy C1 = vP + fN, C2 = vN + fP and
   * C1 + C2 = C1Out + C2Out = hi - lo, whatever the labels are.
   */
  lemma {:induction false} TallyBalanced(w: seq<real>, X: seq<seq<real>>, Y: seq<real>, lo: nat, hi: nat)
    requires lo <= hi <= |X| && hi <= |Y|
    requires forall i :: lo <= i < hi ==> |X[i]| == |w|
    ensures Balanced(Tally(w, X, Y, lo, hi), hi - lo)
    decreases hi - lo
  {
    if hi > lo {
      TallyBalanced(w, X, Y, lo, hi - 1);
      ClassifyBalanced(Tally(w, X, Y, lo, hi - 1), Dot(w, X[hi - 1]), Y[hi - 1], hi - 1 - lo);
    }
  }

  /**
   * No false positive or false negative is counted exactly when no sample of the
   * range is misclassified (score*label < 0); a score of exactly 0 is never counted wrong.
   */
  lemma {:induction false} TallyNoErrors(w: seq<real>, X: seq<seq<real>>, Y: seq<real>, lo: nat, hi: nat)
    requires lo <= hi <= |X| && hi <= |Y|
    requires forall i :: lo <= i < hi ==> |X[i]| == |w|
    ensures Tally(w, X, Y, lo, hi).fP + Tally(w, X, Y, lo, hi).fN == 0
            <==> forall i :: lo <= i < hi ==> !Misclassified(w, X[i], Y[i])
    decreases hi - lo
  {
    if hi > lo {
      TallyNoErrors(w, X, Y, lo, hi - 1);
    }
  }

  /** A sample scored exactly 0 with a nonzero label is counted as correct, and as predicted class C2. */
  lemma ZeroScoreCountsCorrect(c: Counts, y: real)
    requires y != 0.0
    ensures Classify(c, 0.0, y).fP == c.fP && Classify(c, 0.0, y).fN == c.fN
    ensures Classify(c, 0.0, y).vP + Classify(c, 0.0, y).vN == c.vP + c.vN + 1
    ensures Classify(c, 0.0, y).c2Out == c.c2Out + 1
  {
  }

  /**
   * The accuracy of a pass over n samples is defined exactly when n > 0,
   * is then (vP + vN)/n, and lies in [0, 1].
   */
  lemma AccuracyBounds(c: Counts, n: nat)
    requires Balanced(c, n)
    ensures Accuracy(c).Some? <==> n > 0
    ensures Accuracy(c).Some? ==> Accuracy(c).value == (c.vP + c.vN) as real / n as real
    ensures Accuracy(c).Some? ==> 0.0 <= Accuracy(c).value <= 1.0
  {
    if n > 0 {
      var a, b := (c.vP + c.vN) as real, n as real;
      assert 0.0 <= a <= b;
      UnitRatio(a, b);
    }
  }

  /** A pass over a nonempty range has accuracy exactly 1 when it counts no false positive or negative. */
  lemma PerfectAccuracy(c: Counts, n: nat)
    requires Balanced(c, n) && n > 0
    ensures Accuracy(c) == Some(1.0) <==> c.fP + c.fN == 0
  {
    var a, b := (c.vP + c.vN) as real, n as real;
    if a / b == 1.0 {
      assert a == a / b * b;
    }
  }

  /** Accuracy 1 over a range means exactly that no sample of the (nonempty) range is misclassified. */
  lemma TallyPerfect(w: seq<real>, X: seq<seq<real>>, Y: seq<real>, lo: nat, hi: nat)
    requires lo <= hi <= |X| && hi <= |Y|
    requires forall i :: lo <= i < hi ==> |X[i]| == |w|
    ensures Accuracy(Tally(w, X, Y, lo, hi)) == Some(1.0)
            <==> lo < hi && forall i :: lo <= i < hi ==> !Misclassified(w, X[i], Y[i])
  {
    TallyBalanced(w, X, Y, lo, hi);
    TallyNoErrors(w, X, Y, lo, hi);
    if lo < hi {
      PerfectAccuracy(Tally(w, X, Y, lo, hi), hi - lo);
    }
  }

  /** Everything a validation pass promises about its counters and its accuracy, over [lo, hi). */
  lemma PassFacts(w: seq<real>, X: seq<seq<real>>, Y: seq<real>, lo: nat, hi: nat)
    requires lo <= hi <= |X| && hi <= |Y|
    requires forall i :: lo <= i < hi ==> |X[i]| == |w|
    ensures Balanced(Tally(w, X, Y, lo, hi), hi - lo)
    ensures Accuracy(Tally(w, X, Y, lo, hi)).Some? <==> lo < hi
    ensures Accuracy(Tally(w, X, Y, lo, hi)).Some? ==> 0.0 <= Accuracy(Tally(w, X, Y, lo, hi)).value <= 1.0
    ensures Accuracy(Tally(w, X, Y, lo, hi)) == Some(1.0)
            <==> lo < hi && forall i :: lo <= i < hi ==> !Misclassified(w, X[i], Y[i])
  {
    TallyBalanced(w, X, Y, lo, hi);
    AccuracyBounds(Tally(w, X, Y, lo, hi), hi - lo);
    TallyPerfect(w, X, Y, lo, hi);
  }

  lemma UnitRatio(a: real, b: real)
    requires 0.0 <= a <= b && b > 0.0
    ensures 0.0 <= a / b <= 1.0
  {
    assert a / b * b == a;
  }

  /** The training range and the held-out range are adjacent, disjoint and together cover [0, n). */
  lemma RangesPartition(n: nat, i: nat)
    requires i < n
    ensures ValidationRange(n, false).0 == 0 && ValidationRange(n, true).1 == n
    ensures ValidationRange(n, false).1 == ValidationRange(n, true).0
    ensures (ValidationRange(n, false).0 <= i < ValidationRange(n, false).1)
            != (ValidationRange(n, true).0 <= i < ValidationRange(n, true).1)
  {
  }
}
