/**
 * The training loop `fit` as a function of its inputs: `Visit` is what the body of
 * the inner loop does to the state (the update gate, the early stop on
 * training-window accuracy, the diagnostic row and the error log), `SweepFrom` is
 * the inner loop and `Train` the outer one. The imperative `Lms.Fit` is proved to
 * end in the state `Train` gives. `Replayed` and `Logged` are what every such state
 * owes to the initial weights, proved preserved by every visit and so by training.
 */
module Training {
  import opened Options
  import opened Linear
  import opened Validation

  /** Training stops once the training-window accuracy exceeds this value. */
  const STOP_ACCURACY: real := 0.8

  /** The cells a row gains when its sample triggered an update: the scaled error and the first three new weights. */
  datatype Post = Post(err: real, after: seq<real>)

  /**
   * One diagnostic row: sample index, its first three features, its label, the first
   * three weights before the update, the activated prediction, the update flag and,
   * when updated, the error and the new weights (blank cells otherwise).
   */
  datatype Row = Row(
    index: nat, x: seq<real>, y: real, before: seq<real>,
    predicted: real, updated: bool, post: Option<Post>)

  /** The fixed inputs of a training run: learning rate, iteration count, the dataset and the training-window cut. */
  datatype Config = Config(mu: real, iterNum: nat, X: seq<seq<real>>, Y: seq<real>, cut: nat)

  /**
   * The state of the loop: current weights, rows so far, error log, the stop flag,
   * and the indices of the samples that triggered an update, in order.
   */
  datatype Run = Run(w: seq<real>, rows: seq<Row>, errs: seq<real>, stop: bool, trace: seq<nat>)

  /**
   * A dataset the loop can run on: at least one sample (fit reads the first one),
   * one label per sample, all samples of the same length, at least three of them
   * when the training window is not empty (rows show three features and weights),
   * and a training window inside the dataset.
   */
  predicate Shaped(c: Config) {
    && 0 < |c.X|
    && |c.X| == |c.Y|
    && c.cut <= |c.X|
    && (c.cut > 0 ==> 3 <= |c.X[0]|)
    && forall i :: 0 <= i < |c.X| ==> |c.X[i]| == |c.X[0]|
  }

  /** Weights of the samples' length, for a dataset the loop can run on. */
  predicate Fits(c: Config, w: seq<real>) {
    Shaped(c) && |w| == |c.X[0]|
  }

  /**
   * The accuracy of the weights over the training validation range [0, floor(0.75*N)):
   * defined exactly when that range is not empty, and then in [0, 1].
   */
  function TrainingAccuracy(c: Config, w: seq<real>): (acc: Option<real>)
    requires Fits(c, w)
    ensures acc.Some? <==> ValidationCut(|c.X|) > 0
    ensures acc.Some? ==> 0.0 <= acc.value <= 1.0
  {
    var r := ValidationRange(|c.X|, false);
    PassFacts(w, c.X, c.Y, r.0, r.1);
    Accuracy(Tally(w, c.X, c.Y, r.0, r.1))
  }

  /**
   * The stop test: an accuracy above 0.8. An undefined accuracy (the source's NaN)
   * never stops training, and a perfect one always does.
   */
  predicate Stops(acc: Option<real>)
    ensures acc.None? ==> !Stops(acc)
    ensures acc == Some(1.0) ==> Stops(acc)
  {
    acc.Some? && acc.value > STOP_ACCURACY
  }

  /** One pass of the inner loop's body for sample i. */
  function Visit(c: Config, i: nat, r: Run): (r': Run)
    requires Fits(c, r.w) && i < |c.X|
    ensures |r'.w| == |r.w|
  {
    if i >= c.cut then r
    else
      var g := Dot(r.w, c.X[i]);
      var updated := Misclassified(r.w, c.X[i], c.Y[i]);
      var row := Row(i, c.X[i][..3], c.Y[i], r.w[..3], Activate(g), updated, None);
      if !updated then r.(rows := r.rows + [row])
      else
        var e := LmsError(c.mu, g, c.Y[i]);
        var w := Step(r.w, c.X[i], e);
        var stop := Stops(TrainingAccuracy(c, w));
        var rows := if stop then r.rows else r.rows + [row.(post := Some(Post(e, w[..3])))];
        Run(w, rows, r.errs + [e], stop, r.trace + [i])
  }

  predicate Bounded(t: seq<nat>, n: nat) {
    forall k :: 0 <= k < |t| ==> t[k] < n
  }

  /** The weights reached from w0 by LMS steps on the samples t[0], t[1], ... in order. */
  function Replay(c: Config, w0: seq<real>, t: seq<nat>): (w: seq<real>)
    requires Fits(c, w0) && Bounded(t, |c.X|)
    ensures |w| == |w0|
    decreases |t|
  {
    if t == [] then w0
    else
      var w := Replay(c, w0, t[..|t| - 1]);
      var i := t[|t| - 1];
      Step(w, c.X[i], LmsError(c.mu, Dot(w, c.X[i]), c.Y[i]))
  }

  /** The weights and the sample behind step k of t, and the error that step returns. */
  function TraceError(c: Config, w0: seq<real>, t: seq<nat>, k: nat): real
    requires Fits(c, w0) && Bounded(t, |c.X|) && k < |t|
  {
    LmsError(c.mu, Dot(Replay(c, w0, t[..k]), c.X[t[k]]), c.Y[t[k]])
  }

  /** Step k of t was taken on a training-window sample that the weights of the moment misclassified. */
  predicate GatedAt(c: Config, w0: seq<real>, t: seq<nat>, k: nat)
    requires Fits(c, w0) && Bounded(t, |c.X|) && k < |t|
  {
    t[k] < c.cut && Misclassified(Replay(c, w0, t[..k]), c.X[t[k]], c.Y[t[k]])
  }

  /**
   * Every step of t was taken on a training-window sample (index < cut) that the
   * weights of the moment misclassified, and errs[k] is the error that step returned
   * (stated per step by `GatedSteps`).
   */
  predicate Gated(c: Config, w0: seq<real>, t: seq<nat>, errs: seq<real>)
    requires Fits(c, w0) && Bounded(t, |c.X|)
    decreases |t|
  {
    && |errs| == |t|
    && (t != [] ==>
          && Gated(c, w0, t[..|t| - 1], errs[..|t| - 1])
          && GatedAt(c, w0, t, |t| - 1)
          && errs[|t| - 1] == TraceError(c, w0, t, |t| - 1))
  }

  /** The per-step reading of `Gated`. */
  lemma {:induction false} GatedSteps(c: Config, w0: seq<real>, t: seq<nat>, errs: seq<real>)
    requires Fits(c, w0) && Bounded(t, |c.X|) && Gated(c, w0, t, errs)
    ensures |errs| == |t|
    ensures forall k :: 0 <= k < |t| ==> GatedAt(c, w0, t, k) && errs[k] == TraceError(c, w0, t, k)
    decreases |t|
  {
    if t != [] {
      var p, q := t[..|t| - 1], errs[..|t| - 1];
      GatedSteps(c, w0, p, q);
      forall k | 0 <= k < |p|
        ensures GatedAt(c, w0, t, k) && errs[k] == TraceError(c, w0, t, k)
      {
        assert p[..k] == t[..k];
        assert GatedAt(c, w0, p, k) && q[k] == TraceError(c, w0, p, k);
      }
    }
  }

  /**
   * With a nonzero learning rate no logged error is 0: every step of a gated trace
   * was taken on a sample whose score had the wrong sign, so the score differed from
   * the label.
   */
  lemma GatedErrorsNonzero(c: Config, w0: seq<real>, t: seq<nat>, errs: seq<real>)
    requires Fits(c, w0) && Bounded(t, |c.X|) && Gated(c, w0, t, errs) && c.mu != 0.0
    ensures forall k :: 0 <= k < |errs| ==> errs[k] != 0.0
  {
    GatedSteps(c, w0, t, errs);
    forall k | 0 <= k < |errs|
      ensures errs[k] != 0.0
    {
      var w := Replay(c, w0, t[..k]);
      assert GatedAt(c, w0, t, k);
      WrongSignIsError(Dot(w, c.X[t[k]]), c.Y[t[k]]);
    }
  }

  /** The sample indices of the rows flagged as updated, in order. */
  function UpdatedIndices(rows: seq<Row>): seq<nat> {
    if rows == [] then []
    else
      var last := rows[|rows| - 1];
      UpdatedIndices(rows[..|rows| - 1]) + (if last.updated then [last.index] else [])
  }

  /** The errors carried by the rows, in order. */
  function LoggedErrors(rows: seq<Row>): seq<real> {
    if rows == [] then []
    else
      var last := rows[|rows| - 1];
      LoggedErrors(rows[..|rows| - 1]) + (if last.post.Some? then [last.post.value.err] else [])
  }

  /** A row carries an error and new weights exactly when it is flagged as updated. */
  predicate RowFlagsAgree(rows: seq<Row>) {
    forall j :: 0 <= j < |rows| ==> (rows[j].updated <==> rows[j].post.Some?)
  }

  /**
   * No update of t before the last n brought the training accuracy above the
   * threshold: with n = 1 the last update may have, with n = 0 none did.
   */
  predicate NoEarlierStop(c: Config, w0: seq<real>, t: seq<nat>, n: nat)
    requires Fits(c, w0) && Bounded(t, |c.X|)
  {
    forall k :: 0 <= k < |t| - n ==> BelowThresholdAt(c, w0, t, k)
  }

  /** After step k of t the training accuracy was not above the threshold. */
  predicate BelowThresholdAt(c: Config, w0: seq<real>, t: seq<nat>, k: nat)
    requires Fits(c, w0) && Bounded(t, |c.X|) && k < |t|
  {
    !Stops(TrainingAccuracy(c, Replay(c, w0, t[..k + 1])))
  }

  /**
   * What the weights, the trace and the error log of a run owe to w0 and the dataset:
   * the weights are w0 replayed along the trace, every step was gated, a raised stop
   * flag means the last step brought the training accuracy above the threshold, and
   * no step before it (none at all, when the flag is down) did.
   */
  predicate Replayed(c: Config, w0: seq<real>, r: Run) {
    && Fits(c, w0)
    && Bounded(r.trace, |c.X|)
    && r.w == Replay(c, w0, r.trace)
    && Gated(c, w0, r.trace, r.errs)
    && (r.stop ==> |r.trace| > 0 && Stops(TrainingAccuracy(c, r.w)))
    && NoEarlierStop(c, w0, r.trace, if r.stop then 1 else 0)
  }

  /**
   * What the rows of a run owe to its trace and error log: the flagged rows are the
   * updates in order, with their errors, except the update that raised the stop flag.
   */
  predicate Logged(r: Run) {
    && RowFlagsAgree(r.rows)
    && (r.stop ==> |r.trace| > 0 && |r.errs| > 0)
    && UpdatedIndices(r.rows) == (if r.stop then r.trace[..|r.trace| - 1] else r.trace)
    && LoggedErrors(r.rows) == (if r.stop then r.errs[..|r.errs| - 1] else r.errs)
  }

  lemma UpdatedIndicesAppend(rows: seq<Row>, row: Row)
    ensures UpdatedIndices(rows + [row]) == UpdatedIndices(rows) + (if row.updated then [row.index] else [])
    ensures LoggedErrors(rows + [row]) == LoggedErrors(rows) + (if row.post.Some? then [row.post.value.err] else [])
  {
    assert (rows + [row])[..|rows|] == rows;
  }

  /** Extending a gated trace by one more gated step. */
  lemma GatedExtend(c: Config, w0: seq<real>, t: seq<nat>, errs: seq<real>, i: nat)
    requires Fits(c, w0) && Bounded(t, |c.X|) && Gated(c, w0, t, errs)
    requires i < c.cut
    requires Misclassified(Replay(c, w0, t), c.X[i], c.Y[i])
    ensures Bounded(t + [i], |c.X|)
    ensures Replay(c, w0, t + [i])
            == Step(Replay(c, w0, t), c.X[i], LmsError(c.mu, Dot(Replay(c, w0, t), c.X[i]), c.Y[i]))
    ensures Gated(c, w0, t + [i], errs + [LmsError(c.mu, Dot(Replay(c, w0, t), c.X[i]), c.Y[i])])
  {
    var t', errs' := t + [i], errs + [LmsError(c.mu, Dot(Replay(c, w0, t), c.X[i]), c.Y[i])];
    assert t'[..|t|] == t;
    assert errs'[..|t|] == errs;
  }

  /**
   * Extending a trace in which no update passed the threshold by one more update: at
   * most that last one may have.
   */
  lemma NoEarlierStopExtend(c: Config, w0: seq<real>, t: seq<nat>, i: nat)
    requires Fits(c, w0) && Bounded(t, |c.X|) && i < |c.X| && NoEarlierStop(c, w0, t, 0)
    ensures Bounded(t + [i], |c.X|)
    ensures NoEarlierStop(c, w0, t + [i], 1)
    ensures !Stops(TrainingAccuracy(c, Replay(c, w0, t + [i]))) ==> NoEarlierStop(c, w0, t + [i], 0)
  {
    var t' := t + [i];
    forall k | 0 <= k < |t|
      ensures BelowThresholdAt(c, w0, t', k)
    {
      assert t'[..k + 1] == t[..k + 1];
      assert BelowThresholdAt(c, w0, t, k);
    }
    assert t'[..|t| + 1] == t';
  }

  /** Visiting one sample keeps the weights replayed and gated. */
  lemma VisitReplayed(c: Config, w0: seq<real>, i: nat, r: Run)
    requires Replayed(c, w0, r) && !r.stop && i < |c.X|
    ensures Replayed(c, w0, Visit(c, i, r))
  {
    if i < c.cut && Misclassified(r.w, c.X[i], c.Y[i]) {
      GatedExtend(c, w0, r.trace, r.errs, i);
      NoEarlierStopExtend(c, w0, r.trace, i);
    }
  }

  /** Visiting one sample keeps the rows in step with the trace and the error log. */
  lemma VisitLogged(c: Config, i: nat, r: Run)
    requires Fits(c, r.w) && Logged(r) && !r.stop && i < |c.X|
    ensures Logged(Visit(c, i, r))
  {
    if i < c.cut {
      var g := Dot(r.w, c.X[i]);
      var updated := Misclassified(r.w, c.X[i], c.Y[i]);
      var row := Row(i, c.X[i][..3], c.Y[i], r.w[..3], Activate(g), updated, None);
      if !updated {
        UpdatedIndicesAppend(r.rows, row);
      } else {
        var e := LmsError(c.mu, g, c.Y[i]);
        var w := Step(r.w, c.X[i], e);
        UpdatedIndicesAppend(r.rows, row.(post := Some(Post(e, w[..3]))));
        assert (r.trace + [i])[..|r.trace|] == r.trace;
        assert (r.errs + [e])[..|r.errs|] == r.errs;
      }
    }
  }

  /**
   * The gate of the inner loop: a visit updates the weights, logs one error and
   * extends the trace exactly when the sample is in the training window and the
   * current weights misclassify it; any other visit leaves all three, and the stop
   * flag, as they were.
   */
  lemma VisitGate(c: Config, i: nat, r: Run)
    requires Fits(c, r.w) && i < |c.X|
    ensures i < c.cut && Misclassified(r.w, c.X[i], c.Y[i]) ==>
              && Visit(c, i, r).w == Step(r.w, c.X[i], LmsError(c.mu, Dot(r.w, c.X[i]), c.Y[i]))
              && Visit(c, i, r).errs == r.errs + [LmsError(c.mu, Dot(r.w, c.X[i]), c.Y[i])]
              && Visit(c, i, r).trace == r.trace + [i]
    ensures !(i < c.cut && Misclassified(r.w, c.X[i], c.Y[i])) ==>
              && Visit(c, i, r).w == r.w && Visit(c, i, r).errs == r.errs
              && Visit(c, i, r).trace == r.trace && Visit(c, i, r).stop == r.stop
  {
  }

  /** The number of training-window samples among the first n. */
  function Window(n: nat, cut: nat): nat {
    if n < cut then n else cut
  }

  /**
   * Visiting a sample adds one row exactly when the sample is in the training window
   * and the visit does not raise the stop flag; the update that raises it adds none.
   */
  lemma VisitRows(c: Config, i: nat, r: Run)
    requires Fits(c, r.w) && !r.stop && i < |c.X|
    ensures !Visit(c, i, r).stop ==> |Visit(c, i, r).rows| == |r.rows| + (if i < c.cut then 1 else 0)
    ensures Visit(c, i, r).stop ==> |Visit(c, i, r).rows| == |r.rows| && i < c.cut
  {
  }

  lemma {:induction false} NoUpdatedRows(rows: seq<Row>)
    requires UpdatedIndices(rows) == []
    ensures forall j :: 0 <= j < |rows| ==> !rows[j].updated
  {
    if rows != [] {
      NoUpdatedRows(rows[..|rows| - 1]);
    }
  }

  /** The first step of a gated trace was taken on a training-window sample that w0 misclassifies. */
  lemma GatedHead(c: Config, w0: seq<real>, t: seq<nat>, errs: seq<real>)
    requires Fits(c, w0) && Bounded(t, |c.X|) && Gated(c, w0, t, errs) && t != []
    ensures t[0] < c.cut && Misclassified(w0, c.X[t[0]], c.Y[t[0]])
  {
    GatedSteps(c, w0, t, errs);
    assert GatedAt(c, w0, t, 0);
    assert t[..0] == [];
  }

  /**
   * When w0 already gives every training-window sample a score of the right sign
   * (or 0), a run that keeps the invariant has made no update: the weights are
   * still w0, the error log is empty, the stop flag is down and no row is flagged.
   */
  lemma SeparatedRun(c: Config, w0: seq<real>, r: Run)
    requires Replayed(c, w0, r) && Logged(r)
    requires forall i :: 0 <= i < c.cut ==> !Misclassified(w0, c.X[i], c.Y[i])
    ensures r.trace == [] && r.w == w0 && r.errs == [] && !r.stop
    ensures forall j :: 0 <= j < |r.rows| ==> !r.rows[j].updated
  {
    if r.trace != [] {
      GatedHead(c, w0, r.trace, r.errs);
      assert false;
    }
    NoUpdatedRows(r.rows);
  }

  /**
   * Everything the invariant says about a run, spelled out: the weights are w0 moved
   * by one LMS step per trace entry, each gated and logged with its error; the rows
   * report the updates in order except the one that raised the stop flag, so the
   * error log has one entry more than the flagged rows exactly when it was raised; a raised
   * flag means training-window accuracy above the threshold; and when w0 already
   * separates the training window, the run has made no update at all.
   */
  lemma RunFacts(c: Config, w0: seq<real>, r: Run)
    requires Replayed(c, w0, r) && Logged(r)
    ensures Bounded(r.trace, |c.X|) && r.w == Replay(c, w0, r.trace)
    ensures |r.errs| == |r.trace|
    ensures forall k :: 0 <= k < |r.trace| ==> GatedAt(c, w0, r.trace, k) && r.errs[k] == TraceError(c, w0, r.trace, k)
    ensures r.stop ==> r.trace != [] && Stops(TrainingAccuracy(c, r.w))
    ensures forall k :: 0 <= k < |r.trace| - (if r.stop then 1 else 0) ==> BelowThresholdAt(c, w0, r.trace, k)
    ensures RowFlagsAgree(r.rows)
    ensures UpdatedIndices(r.rows) == if r.stop then r.trace[..|r.trace| - 1] else r.trace
    ensures LoggedErrors(r.rows) == if r.stop then r.errs[..|r.errs| - 1] else r.errs
    ensures |r.errs| == |UpdatedIndices(r.rows)| + if r.stop then 1 else 0
    ensures (forall i :: 0 <= i < c.cut ==> !Misclassified(w0, c.X[i], c.Y[i])) ==>
              r.w == w0 && r.errs == [] && !r.stop && forall j :: 0 <= j < |r.rows| ==> !r.rows[j].updated
  {
    GatedSteps(c, w0, r.trace, r.errs);
    if forall i :: 0 <= i < c.cut ==> !Misclassified(w0, c.X[i], c.Y[i]) {
      SeparatedRun(c, w0, r);
    }
  }

  /**
   * The inner loop of fit from sample i on: visit i, i+1, ..., |X|-1 in order,
   * ending early at the visit that raises the stop flag.
   */
  function SweepFrom(c: Config, i: nat, r: Run): (r': Run)
    requires Fits(c, r.w) && i <= |c.X|
    ensures |r'.w| == |r.w|
    decreases |c.X| - i
  {
    if i == |c.X| || r.stop then r else SweepFrom(c, i + 1, Visit(c, i, r))
  }

  /** The outer loop of fit: up to k sweeps over all samples, none once the stop flag is raised. */
  function Train(c: Config, k: nat, r: Run): (r': Run)
    requires Fits(c, r.w)
    ensures |r'.w| == |r.w|
  {
    if k == 0 || r.stop then r else Train(c, k - 1, SweepFrom(c, 0, r))
  }

  /** One visit of a sweep, then the rest of it. */
  lemma SweepFromUnfold(c: Config, i: nat, r: Run)
    requires Fits(c, r.w) && i < |c.X| && !r.stop
    ensures SweepFrom(c, i, r) == SweepFrom(c, i + 1, Visit(c, i, r))
  {
  }

  /** The weights stay replayed and gated all along a sweep. */
  lemma SweepFromReplayed(c: Config, w0: seq<real>, r: Run)
    requires Replayed(c, w0, r)
    ensures Replayed(c, w0, SweepFrom(c, 0, r))
  {
    var s, i := r, 0;
    while i < |c.X| && !s.stop
      invariant 0 <= i <= |c.X|
      invariant Replayed(c, w0, s)
      invariant SweepFrom(c, i, s) == SweepFrom(c, 0, r)
    {
      VisitReplayed(c, w0, i, s);
      SweepFromUnfold(c, i, s);
      s, i := Visit(c, i, s), i + 1;
    }
  }

  /** The rows stay in step with the trace and the error log all along a sweep. */
  lemma SweepFromLogged(c: Config, r: Run)
    requires Fits(c, r.w) && Logged(r)
    ensures Logged(SweepFrom(c, 0, r))
  {
    var s, i := r, 0;
    while i < |c.X| && !s.stop
      invariant 0 <= i <= |c.X| && |s.w| == |r.w|
      invariant Logged(s)
      invariant SweepFrom(c, i, s) == SweepFrom(c, 0, r)
    {
      VisitLogged(c, i, s);
      SweepFromUnfold(c, i, s);
      s, i := Visit(c, i, s), i + 1;
    }
  }

  /** One iteration of training: a sweep, then the remaining iterations. */
  lemma TrainUnfold(c: Config, k: nat, r: Run)
    requires Fits(c, r.w) && k > 0 && !r.stop
    ensures Train(c, k, r) == Train(c, k - 1, SweepFrom(c, 0, r))
  {
  }

  /** The invariants hold all along training. */
  lemma TrainKeeps(c: Config, w0: seq<real>, k: nat, r: Run)
    requires Replayed(c, w0, r) && Logged(r)
    ensures Replayed(c, w0, Train(c, k, r)) && Logged(Train(c, k, r))
  {
    var s, i := r, 0;
    while i < k && !s.stop
      invariant i <= k
      invariant Replayed(c, w0, s) && Logged(s)
      invariant Train(c, k - i, s) == Train(c, k, r)
    {
      SweepFromReplayed(c, w0, s);
      SweepFromLogged(c, s);
      TrainUnfold(c, k - i, s);
      s, i := SweepFrom(c, 0, s), i + 1;
    }
  }

  /** The state training starts from: weights w0, no rows, no errors, no updates. */
  function Start(w0: seq<real>): Run {
    Run(w0, [], [], false, [])
  }

  /**
   * A sweep adds one row per training-window sample when it does not stop, cut in
   * all, and fewer when it stops.
   */
  lemma SweepRows(c: Config, r: Run)
    requires Fits(c, r.w) && !r.stop
    ensures !SweepFrom(c, 0, r).stop ==> |SweepFrom(c, 0, r).rows| == |r.rows| + c.cut
    ensures SweepFrom(c, 0, r).stop ==> |SweepFrom(c, 0, r).rows| < |r.rows| + c.cut
  {
    var s, j := r, 0;
    while j < |c.X| && !s.stop
      invariant j <= |c.X| && |s.w| == |r.w|
      invariant !s.stop ==> |s.rows| == |r.rows| + Window(j, c.cut)
      invariant s.stop ==> |s.rows| < |r.rows| + c.cut
      invariant SweepFrom(c, j, s) == SweepFrom(c, 0, r)
    {
      VisitRows(c, j, s);
      SweepFromUnfold(c, j, s);
      s, j := Visit(c, j, s), j + 1;
    }
  }

  /**
   * Training for k iterations adds cut rows per iteration when it does not stop,
   * k*cut in all, and fewer when it stops.
   */
  lemma {:induction false} TrainRows(c: Config, k: nat, r: Run)
    requires Fits(c, r.w) && !r.stop
    ensures !Train(c, k, r).stop ==> |Train(c, k, r).rows| == |r.rows| + k * c.cut
    ensures Train(c, k, r).stop ==> |Train(c, k, r).rows| < |r.rows| + k * c.cut
  {
    if k > 0 {
      var s := SweepFrom(c, 0, r);
      SweepRows(c, r);
      TrainUnfold(c, k, r);
      MulStep(k - 1, c.cut);
      if !s.stop {
        TrainRows(c, k - 1, s);
      } else {
        MoreIterations(1, k, c.cut);
      }
    }
  }

  lemma MulStep(i: nat, n: nat)
    ensures (i + 1) * n == i * n + n
  {
  }

  lemma MoreIterations(i: nat, k: nat, n: nat)
    requires i <= k
    ensures i * n <= k * n
  {
    assert k * n == i * n + (k - i) * n;
  }

  /**
   * A training run from w0 keeps everything `RunFacts` spells out: replayed and gated
   * weights, rows in step with the updates, and the stop raised exactly at the first
   * update whose weights pass the threshold.
   */
  lemma TrainFacts(c: Config, w0: seq<real>)
    requires Fits(c, w0)
    ensures Replayed(c, w0, Train(c, c.iterNum, Start(w0))) && Logged(Train(c, c.iterNum, Start(w0)))
  {
    TrainKeeps(c, w0, c.iterNum, Start(w0));
  }
}
