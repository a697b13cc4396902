/**
 * The classifier object: learning rate, weights and iteration count, with the
 * prediction, the LMS update, the validation pass and the training loop. The
 * weights are the only field the methods change.
 */
module Lms {
  import opened Options
  import opened Linear
  import opened Validation
  import opened Training

  class Lms {
    const mu: real
    var weights: seq<real>
    const iterNum: nat

    /** A classifier with no weights yet; `Fit` gives it weights. */
    constructor (mu: real, iterNum: nat)
      ensures this.mu == mu && this.iterNum == iterNum && weights == []
    {
      this.mu := mu;
      this.iterNum := iterNum;
      weights := [];
    }

    /** The raw score of a sample: the inner product of the weights with it. */
    function Predict(x: seq<real>): (score: real)
      reads this
      requires |x| == |weights|
      ensures score == Dot(weights, x)
    {
      Dot(weights, x)
    }

    /**
     * One LMS step on sample (x, y): returns the scaled error e = mu*(w.x - y) and
     * moves the weights to w - e*x. By `Linear.LmsStepError` the new error on that
     * sample is the old one times 1 - mu*|x|^2, and by `Linear.GatedStepShrinksError`
     * it strictly shrinks for a misclassified sample when 0 < mu*|x|^2 < 2.
     */
    method Update(x: seq<real>, y: real) returns (e: real)
      requires |x| == |weights|
      modifies this
      ensures e == LmsError(mu, Dot(old(weights), x), y)
      ensures weights == Step(old(weights), x, e)
    {
      var g := Predict(x);
      e := LmsError(mu, g, y);
      weights := Step(weights, x, e);
    }

    /**
     * One validation pass under the current weights over the first 75% of the
     * samples or, when heldOut, over the rest: the eight counters and the overall
     * accuracy, None (the source's NaN) for an empty range. What the counters and
     * the accuracy satisfy is `Validation.PassFacts`.
     */
    method Validate(X: seq<seq<real>>, Y: seq<real>, heldOut: bool) returns (acc: Option<real>, counts: Counts)
      requires |X| <= |Y|
      requires forall i :: ValidationRange(|X|, heldOut).0 <= i < ValidationRange(|X|, heldOut).1 ==> |X[i]| == |weights|
      ensures counts == Tally(weights, X, Y, ValidationRange(|X|, heldOut).0, ValidationRange(|X|, heldOut).1)
      ensures acc == Accuracy(counts)
    {
      var c1Count, c2Count, vP, vN, fP, fN, c1Out, c2Out := 0, 0, 0, 0, 0, 0, 0, 0;
      var lo, hi := ValidationRange(|X|, heldOut).0, ValidationRange(|X|, heldOut).1;
      var i := lo;
      while i < hi
        invariant lo <= i <= hi
        invariant Counts(c1Count, c2Count, vP, vN, fP, fN, c1Out, c2Out) == Tally(weights, X, Y, lo, i)
      {
        ghost var before := Counts(c1Count, c2Count, vP, vN, fP, fN, c1Out, c2Out);
        var yPred := Predict(X[i]);
        if Y[i] > 0.0 {
          c1Count := c1Count + 1;
        } else {
          c2Count := c2Count + 1;
        }
        if yPred > 0.0 {
          c1Out := c1Out + 1;
        } else {
          c2Out := c2Out + 1;
        }
        if yPred * Y[i] < 0.0 {
          if yPred > 0.0 {
            fP := fP + 1;
          } else {
            fN := fN + 1;
          }
        } else {
          if Y[i] > 0.0 {
            vP := vP + 1;
          } else {
            vN := vN + 1;
          }
        }
        assert Counts(c1Count, c2Count, vP, vN, fP, fN, c1Out, c2Out) == Classify(before, yPred, Y[i]);
        i := i + 1;
      }
      counts := Counts(c1Count, c2Count, vP, vN, fP, fN, c1Out, c2Out);
      acc := Accuracy(counts);
    }

    /**
     * One iteration of the outer loop of `Fit`: the inner loop over all samples, from
     * a state that has not stopped. The state it leaves is `Training.SweepFrom` of the
     * state it starts from: every sample visited in order as `Training.Visit` says,
     * ending at the update that raises the stop flag.
     */
    method Sweep(X: seq<seq<real>>, Y: seq<real>, cut: nat, rows0: seq<Row>, errs0: seq<real>, ghost trace0: seq<nat>)
      returns (rows: seq<Row>, errs: seq<real>, stopped: bool, ghost trace: seq<nat>)
      requires Fits(Setting(X, Y, cut), weights)
      modifies this
      ensures Run(weights, rows, errs, stopped, trace)
              == SweepFrom(Setting(X, Y, cut), 0, Run(old(weights), rows0, errs0, false, trace0))
    {
      ghost var c := Setting(X, Y, cut);
      ghost var start := Run(weights, rows0, errs0, false, trace0);
      rows, errs, stopped, trace := rows0, errs0, false, trace0;
      var i := 0;
      while i < |X|
        invariant 0 <= i <= |X| && !stopped
        invariant Fits(c, weights)
        invariant SweepFrom(c, i, Run(weights, rows, errs, stopped, trace)) == SweepFrom(c, 0, start)
      {
        ghost var before := Run(weights, rows, errs, stopped, trace);
        var yPred := Predict(X[i]);
        if i < cut {
          var row := Row(i, X[i][..3], Y[i], weights[..3], Activate(yPred), yPred * Y[i] < 0.0, None);
          if yPred * Y[i] < 0.0 {
            var e := Update(X[i], Y[i]);
            errs := errs + [e];
            trace := trace + [i];
            row := row.(post := Some(Post(e, weights[..3])));
            var accRate, _ := Validate(X, Y, false);
            if Stops(accRate) {
              stopped := true;
              assert Run(weights, rows, errs, stopped, trace) == Visit(c, i, before);
              return;
            }
          }
          rows := rows + [row];
        }
        assert Run(weights, rows, errs, stopped, trace) == Visit(c, i, before);
        i := i + 1;
      }
    }

    /**
     * The outer loop of `Fit`: up to iterNum sweeps over the samples, none after the
     * sweep that raised the stop flag. The state it leaves is `Training.Train` of the
     * current weights with no rows, no errors and no updates yet.
     */
    method Iterate(X: seq<seq<real>>, Y: seq<real>, cut: nat)
      returns (rows: seq<Row>, errs: seq<real>, stopped: bool, ghost trace: seq<nat>)
      requires Fits(Setting(X, Y, cut), weights)
      modifies this
      ensures Run(weights, rows, errs, stopped, trace) == Train(Setting(X, Y, cut), iterNum, Start(old(weights)))
    {
      ghost var c := Setting(X, Y, cut);
      ghost var goal := Train(c, iterNum, Start(weights));
      rows, errs, stopped, trace := [], [], false, [];
      var iter := 0;
      while iter < iterNum
        invariant 0 <= iter <= iterNum
        invariant Fits(c, weights)
        invariant Train(c, iterNum - iter, Run(weights, rows, errs, stopped, trace)) == goal
      {
        if stopped {
          break;
        }
        TrainUnfold(c, iterNum - iter, Run(weights, rows, errs, stopped, trace));
        rows, errs, stopped, trace := Sweep(X, Y, cut, rows, errs, trace);
        iter := iter + 1;
      }
    }

    /** The fixed inputs of a training run on dataset (X, Y) with training window [0, cut). */
    function Setting(X: seq<seq<real>>, Y: seq<real>, cut: nat): Config {
      Config(mu, iterNum, X, Y, cut)
    }

    /**
     * Training from the initial weights w0 over the training window [0, cut), then one
     * validation pass over the held-out range. The final state is `Training.Train` from
     * w0: the run the visits of `Training.Visit` produce, iteration after iteration.
     * What that run is, spelled out: the ghost trace lists the samples that triggered
     * an update, in order; the final weights are w0 moved by one LMS step per entry,
     * each step gated on a training-window sample the weights of that moment
     * misclassified, with its error logged; training stopped exactly at the first
     * update whose weights brought the training accuracy above 0.8, if any did. Each
     * row reports one training-window visit, except the one whose update stopped
     * training, so a run that does not stop has iterNum*cut rows and a run that stops
     * has fewer.
     */
    method Fit(X: seq<seq<real>>, Y: seq<real>, cut: nat, w0: seq<real>)
      returns (rows: seq<Row>, errs: seq<real>, stopped: bool, heldOutAcc: Option<real>, heldOutCounts: Counts,
               ghost trace: seq<nat>)
      requires Fits(Setting(X, Y, cut), w0)
      modifies this
      ensures Run(weights, rows, errs, stopped, trace) == Train(Setting(X, Y, cut), iterNum, Start(w0))
      ensures Bounded(trace, |X|) && weights == Replay(Setting(X, Y, cut), w0, trace)
      ensures |errs| == |trace|
      ensures forall k :: 0 <= k < |trace| ==>
                GatedAt(Setting(X, Y, cut), w0, trace, k) && errs[k] == TraceError(Setting(X, Y, cut), w0, trace, k)
      ensures stopped ==> trace != [] && Stops(TrainingAccuracy(Setting(X, Y, cut), weights))
      ensures forall k :: 0 <= k < |trace| - (if stopped then 1 else 0) ==>
                BelowThresholdAt(Setting(X, Y, cut), w0, trace, k)
      ensures RowFlagsAgree(rows)
      ensures UpdatedIndices(rows) == if stopped then trace[..|trace| - 1] else trace
      ensures LoggedErrors(rows) == if stopped then errs[..|errs| - 1] else errs
      ensures |errs| == |UpdatedIndices(rows)| + if stopped then 1 else 0
      ensures mu != 0.0 ==> forall k :: 0 <= k < |errs| ==> errs[k] != 0.0
      ensures !stopped ==> |rows| == iterNum * cut
      ensures stopped ==> |rows| < iterNum * cut
      ensures (forall i :: 0 <= i < cut ==> !Misclassified(w0, X[i], Y[i])) ==>
                weights == w0 && errs == [] && !stopped && forall j :: 0 <= j < |rows| ==> !rows[j].updated
      ensures heldOutCounts == Tally(weights, X, Y, ValidationCut(|X|), |X|)
      ensures heldOutAcc == Accuracy(heldOutCounts)
    {
      ghost var c := Setting(X, Y, cut);
      weights := w0;
      rows, errs, stopped, trace := Iterate(X, Y, cut);
      TrainFacts(c, w0);
      TrainRows(c, iterNum, Start(w0));
      RunFacts(c, w0, Run(weights, rows, errs, stopped, trace));
      if mu != 0.0 {
        GatedErrorsNonzero(c, w0, trace, errs);
      }
      heldOutAcc, heldOutCounts := Validate(X, Y, true);
    }
  }
}
