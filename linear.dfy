/**
 * Vector arithmetic of the LMS classifier, with float64 abstracted to `real`:
 * the inner product used for predictions, the Widrow-Hoff step w - e*x and
 * the sign activation.
 */
module Linear {

  /** The sum s[0] + s[1] + ... of a sequence of reals. */
  function Sum(s: seq<real>): real {
    if |s| == 0 then 0.0 else s[0] + Sum(s[1..])
  }

  /** The element-wise products a[k]*b[k]. */
  function Products(a: seq<real>, b: seq<real>): (p: seq<real>)
    requires |a| == |b|
    ensures |p| == |a|
    ensures forall k :: 0 <= k < |a| ==> p[k] == a[k] * b[k]
  {
    seq(|a|, k requires 0 <= k < |a| => a[k] * b[k])
  }

  /** The inner product: the sum over k of a[k]*b[k]. */
  function Dot(a: seq<real>, b: seq<real>): real
    requires |a| == |b|
  {
    Sum(Products(a, b))
  }

  /** The vector w - e*x, element by element. */
  function Step(w: seq<real>, x: seq<real>, e: real): (r: seq<real>)
    requires |w| == |x|
    ensures |r| == |w|
  {
    seq(|w|, k requires 0 <= k < |w| => w[k] - e * x[k])
  }

  /**
   * The error of a score against its label, scaled by the learning rate:
   * mu*(score - y), the amount by which an LMS step moves along the sample.
   */
  function LmsError(mu: real, score: real, y: real): (e: real)
    ensures e == 0.0 <==> mu == 0.0 || score == y
    ensures mu > 0.0 ==> (e > 0.0 <==> score > y)
  {
    mu * (score - y)
  }

  /**
   * The gate of the training loop: the score's sign disagrees with the label's
   * (score*y < 0), that is, one of them is strictly positive and the other strictly
   * negative; a score of 0 is never misclassified.
   */
  predicate Misclassified(w: seq<real>, x: seq<real>, y: real)
    requires |w| == |x|
    ensures Misclassified(w, x, y) <==> (Dot(w, x) > 0.0 && y < 0.0) || (Dot(w, x) < 0.0 && y > 0.0)
  {
    SignsOfProduct(Dot(w, x), y);
    Dot(w, x) * y < 0.0
  }

  /** On reals: a product is negative exactly when its factors have strictly opposite signs. */
  lemma SignsOfProduct(g: real, y: real)
    ensures g * y < 0.0 <==> (g > 0.0 && y < 0.0) || (g < 0.0 && y > 0.0)
  {
  }

  function Abs(r: real): real {
    if r < 0.0 then -r else r
  }

  /** Sign threshold: +1 for a strictly positive score, -1 otherwise (a score of 0 gives -1). */
  function Activate(score: real): (r: real)
    ensures r == 1.0 || r == -1.0
    ensures r == 1.0 <==> score > 0.0
    ensures r == -1.0 <==> score <= 0.0
  {
    if score > 0.0 then 1.0 else -1.0
  }

  lemma {:induction false} SumAppend(s: seq<real>, t: seq<real>)
    ensures Sum(s + t) == Sum(s) + Sum(t)
  {
    if |s| == 0 {
      assert s + t == t;
    } else {
      assert (s + t)[1..] == s[1..] + t;
      SumAppend(s[1..], t);
    }
  }

  /** Summing p[k] - e*q[k] gives Sum(p) - e*Sum(q). */
  lemma {:induction false} SumLinear(p: seq<real>, q: seq<real>, e: real, r: seq<real>)
    requires |p| == |q| == |r|
    requires forall k :: 0 <= k < |r| ==> r[k] == p[k] - e * q[k]
    ensures Sum(r) == Sum(p) - e * Sum(q)
  {
    if |r| > 0 {
      SumLinear(p[1..], q[1..], e, r[1..]);
      assert e * (q[0] + Sum(q[1..])) == e * q[0] + e * Sum(q[1..]);
    }
  }

  /** The inner product splits over concatenation. */
  lemma DotAppend(a1: seq<real>, a2: seq<real>, b1: seq<real>, b2: seq<real>)
    requires |a1| == |b1| && |a2| == |b2|
    ensures Dot(a1 + a2, b1 + b2) == Dot(a1, b1) + Dot(a2, b2)
  {
    var p, p1, p2 := Products(a1 + a2, b1 + b2), Products(a1, b1), Products(a2, b2);
    forall k | 0 <= k < |p|
      ensures p[k] == (p1 + p2)[k]
    {
      if k < |a1| {
        assert (a1 + a2)[k] == a1[k] && (b1 + b2)[k] == b1[k];
      } else {
        assert (a1 + a2)[k] == a2[k - |a1|] && (b1 + b2)[k] == b2[k - |a1|];
      }
    }
    assert p == p1 + p2;
    SumAppend(Products(a1, b1), Products(a2, b2));
  }

  /** The inner product is linear in its first argument: (w - e*x).z == w.z - e*(x.z). */
  lemma DotStep(w: seq<real>, x: seq<real>, z: seq<real>, e: real)
    requires |w| == |x| == |z|
    ensures Dot(Step(w, x, e), z) == Dot(w, z) - e * Dot(x, z)
  {
    var p, q, r := Products(w, z), Products(x, z), Products(Step(w, x, e), z);
    forall k | 0 <= k < |r|
      ensures r[k] == p[k] - e * q[k]
    {
      assert r[k] == (w[k] - e * x[k]) * z[k];
    }
    SumLinear(p, q, e, r);
  }

  /** After a step of size e along a sample, its error drops by e*|x|^2. */
  lemma StepError(w: seq<real>, x: seq<real>, y: real, e: real)
    requires |w| == |x|
    ensures Dot(Step(w, x, e), x) - y == (Dot(w, x) - y) - e * Dot(x, x)
  {
    DotStep(w, x, x, e);
  }

  /** On reals: a step of mu*(g - y)*n on the score leaves the error (g - y)*(1 - mu*n). */
  lemma ScaledError(g: real, y: real, mu: real, n: real, d: real)
    requires d == g - LmsError(mu, g, y) * n
    ensures d - y == (g - y) * (1.0 - mu * n)
  {
    assert LmsError(mu, g, y) * n == (g - y) * (mu * n);
  }

  /**
   * An LMS step along a sample multiplies that sample's error by 1 - mu*|x|^2:
   * (w - mu*(w.x - y)*x).x - y == (w.x - y)*(1 - mu*x.x).
   */
  lemma LmsStepError(w: seq<real>, x: seq<real>, y: real, mu: real)
    requires |w| == |x|
    ensures Dot(Step(w, x, LmsError(mu, Dot(w, x), y)), x) - y == (Dot(w, x) - y) * (1.0 - mu * Dot(x, x))
  {
    StepError(w, x, y, LmsError(mu, Dot(w, x), y));
    ScaledError(Dot(w, x), y, mu, Dot(x, x), Dot(Step(w, x, LmsError(mu, Dot(w, x), y)), x));
  }

  /** A score whose sign disagrees with the label is never equal to it, so its error is nonzero. */
  lemma WrongSignIsError(g: real, y: real)
    requires g * y < 0.0
    ensures g - y != 0.0
  {
    assert g == y ==> y * y >= 0.0;
  }

  lemma FactorBounds(c: real)
    requires 0.0 < c < 2.0
    ensures -1.0 < 1.0 - c < 1.0
  {
  }

  lemma PositiveShrink(e: real, f: real)
    requires e > 0.0 && -1.0 < f < 1.0
    ensures -e < e * f < e
  {
  }

  /** On reals: a factor strictly between -1 and 1 strictly shrinks a nonzero magnitude. */
  lemma ShrinkFactor(e: real, f: real)
    requires e != 0.0 && -1.0 < f < 1.0
    ensures Abs(e * f) < Abs(e)
  {
    if e > 0.0 {
      PositiveShrink(e, f);
    } else {
      PositiveShrink(-e, f);
      assert (-e) * f == -(e * f);
    }
  }

  /** The learning rate is small enough for sample x: 0 < mu*|x|^2 < 2. */
  predicate StableRate(mu: real, x: seq<real>) {
    0.0 < mu * Dot(x, x) < 2.0
  }

  /**
   * A step taken on a sample whose score has the wrong sign strictly reduces the
   * error on that sample, whenever 0 < mu*|x|^2 < 2.
   */
  lemma GatedStepShrinksError(w: seq<real>, x: seq<real>, y: real, mu: real)
    requires |w| == |x|
    requires Misclassified(w, x, y)
    requires StableRate(mu, x)
    ensures Abs(Dot(Step(w, x, LmsError(mu, Dot(w, x), y)), x) - y) < Abs(Dot(w, x) - y)
  {
    FactorBounds(mu * Dot(x, x));
    WrongSignIsError(Dot(w, x), y);
    StepError(w, x, y, LmsError(mu, Dot(w, x), y));
    ScaledError(Dot(w, x), y, mu, Dot(x, x), Dot(Step(w, x, LmsError(mu, Dot(w, x), y)), x));
    ShrinkFactor(Dot(w, x) - y, 1.0 - mu * Dot(x, x));
  }
}
