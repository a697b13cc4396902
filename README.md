# LMS sign-gated linear classifier — Dafny model

This project models `main.go` of a small Go program. The program trains a linear two-class classifier with the
Widrow-Hoff least-mean-squares (LMS) rule. The pieces it models:

- **Building the data.** Each input record becomes a sample: a bias input `1` is put in front of its features.
  Its label becomes `-1` when the last cell is the text `"-1"`, and `+1` otherwise.
- **`activate`** is a sign threshold.
- **`predict`** computes a score, the inner product of the weights with a sample.
- **`update`** takes one LMS step on a sample. It moves the weights to `w - mu*(w.x - y)*x` and returns the
  scaled error `mu*(w.x - y)`.
- **`validate`** runs over a contiguous range of samples: the first 75%, or the held-out rest. It counts the true
  classes, the predicted classes and the four confusion cells (vP, vN, fP, fN), and returns the overall accuracy.
- **`fit`** is the training loop: up to `iterNum` passes over all samples.
  - Only samples in the training window `[0, cut)` are considered.
  - An update happens only when the signs of the score and the label disagree.
  - After each update the training-range accuracy is measured. Above 0.8, training stops at once.
  - Each visit of a training-window sample adds a diagnostic row, except the visit whose update stops training.
  - Each update's error goes to an error log.

Floating point is abstracted to Dafny `real`.

Modules:

- `Linear` (linear.dfy): the inner product, the LMS step, `Activate`, and the algebra of the error after a step.
- `Validation` (validation.dfy): the counters, one sample's contribution (`Classify`), a pass over a range
  (`Tally`), `Accuracy`, and the identities the counters satisfy.
- `Dataset` (dataset.dfy): the bias and label step of `main`, as a loop over the records.
- `Training` (training.dfy): the training loop as functions on the loop state. `Visit` is one pass of the inner
  loop's body, `SweepFrom` the inner loop and `Train` the outer loop. Two invariants are proved of every state
  `Train` reaches.
  - `Replayed` says the weights are the initial weights replayed along the trace of updated samples, with every
    step gated and its error logged.
  - `Logged` says the rows report the updates in order, except the one that raised the stop flag.
- `Lms` (lms.dfy): the classifier as a class.
  - It has the learning rate, the weights (the one field the methods change) and the iteration count.
  - `Predict` is a function reading the object. `Update`, `Validate` and `Fit` are methods.
  - `Fit` runs its two nested loops as the methods `Iterate` (the outer one) and `Sweep` (the inner one). They are
    proved to end in the states that `Train` and `SweepFrom` give, so what is proved of `Train` holds of `Fit`.

The code differs from a reading of its own column headers and comments in these places. The model follows the code:

- The first cell of a row is the sample index `i`, not the iteration number its header names.
- `update` returns the error after scaling by `mu` (line 113), not the raw error `w.x - y`.
- The stop threshold 0.8 applies to the overall training-range accuracy `(vP + vN) / (C1 + C2)`.
- The sample loop's training window is `[0, int(0.7*N))`, but the accuracy that decides the stop is measured over
  `[0, floor(0.75*N))`. The two ranges differ.
- The row of the update that raises the stop flag is never appended, because the `break` skips line 183. Its
  error is still in the error log.

## Model

| member | source | states |
|---|---|---|
| Linear.Activate | main.go:77-83 | the result is +1 or -1; it is +1 exactly when the score is > 0 and -1 exactly when it is <= 0, so a score of 0 gives -1 |
| Linear.Step | main.go:111-119 | the stepped weight vector keeps the length of the weights |
| Linear.DotStep | main.go:111-119 | the inner product is linear in its first argument: (w - e*x).z == w.z - e*(x.z) |
| Linear.DotAppend | main.go:86-93 | the inner product splits over concatenated vectors |
| Linear.StepError | main.go:96-122 | after a step of size e along a sample, its error w.x - y drops by exactly e*x.x |
| Linear.LmsStepError | main.go:96-122 | an LMS step along (x, y) multiplies that sample's error by 1 - mu*x.x |
| Linear.LmsError | main.go:104-113 | the LMS error mu*(score - y) is 0 exactly when mu is 0 or the score equals the label; with mu > 0 it is positive exactly when the score exceeds the label |
| Linear.Misclassified | main.go:164 | the gate holds exactly when the score and the label have strictly opposite signs; a score of 0 never passes it |
| Linear.GatedStepShrinksError | main.go:164-165 | an update taken through the gate strictly reduces the error on that sample whenever 0 < mu*x.x < 2 |
| Lms.Lms.constructor | main.go:16-20 | a classifier with the given learning rate and iteration count and no weights yet |
| Lms.Lms.Predict | main.go:85-93 | the score is the inner product of the current weights with the sample, which must have the weights' length; it only reads the object |
| Lms.Lms.Update | main.go:96-122 | returns mu*(w.x - y) over the old weights, and the new weights are the old ones minus that times x |
| Validation.ValidationRange | main.go:221-227 | the held-out range is [floor(3N/4), N), the training range is [0, floor(3N/4)), and both lie inside [0, N) |
| Validation.RangesPartition | main.go:221-227 | the two ranges are adjacent and disjoint and together cover [0, N): every sample is in exactly one |
| Validation.Classify | main.go:231-255 | one sample adds exactly one true class (C1 exactly when the label is positive), one predicted class (C1 exactly when the score is positive) and one confusion cell, a wrong one (fP or fN) exactly when score*label < 0 |
| Validation.Tally | main.go:229-256 | over [init, end) each sample is counted once: C1 + C2, C1Out + C2Out and vP + vN + fP + fN all equal end - init |
| Validation.Accuracy | main.go:261 | undefined (the source's NaN) exactly when C1 + C2 = 0; when defined, accuracy*(C1 + C2) = vP + vN and it is not negative |
| Validation.TallyBalanced | main.go:229-256 | C1 = vP + fN, C2 = vN + fP, C1 + C2 = end - init and C1Out + C2Out = end - init, for any labels |
| Validation.TallyNoErrors | main.go:243-255 | fP + fN == 0 exactly when no sample of the range has a score*label < 0 |
| Validation.ZeroScoreCountsCorrect | main.go:237-255 | a score of exactly 0 with a nonzero label is counted as correct, never as fP or fN, and as predicted class C2 |
| Validation.AccuracyBounds | main.go:261 | the accuracy is defined exactly when the range is nonempty; it is then (vP + vN)/(end - init) and lies in [0, 1] |
| Validation.PerfectAccuracy | main.go:261 | over a nonempty range the accuracy is exactly 1 when fP + fN == 0, and only then |
| Validation.TallyPerfect | main.go:229-261 | accuracy 1 means the range is nonempty and no sample of it is misclassified, and conversely |
| Validation.PassFacts | main.go:208-262 | everything one pass promises: the four counter identities, when the accuracy is defined, its bounds, and when it is exactly 1 |
| Lms.Lms.Validate | main.go:208-262 | the counters are those of the samples of the chosen range under the current weights, visited in order, and the accuracy is theirs; the weights are not changed |
| Training.TrainingAccuracy | main.go:172 | the accuracy the stop test reads, over [0, floor(3N/4)): defined exactly when that range is nonempty, and then in [0, 1] |
| Training.Stops | main.go:172 | the stop test `> 0.8`: an undefined accuracy (NaN) never stops training and a perfect one always does |
| Training.Visit | main.go:148-183 | one visit of the inner loop keeps the length of the weights |
| Training.VisitGate | main.go:148-171 | a visit updates the weights, logs one error and extends the trace exactly when i < cut and score*label < 0; any other visit leaves weights, error log, trace and stop flag as they were |
| Training.VisitReplayed | main.go:164-176 | a visit from a state that has not stopped keeps the weights equal to w0 replayed along the trace, every step gated and its error logged, and a raised stop flag backed by training accuracy above 0.8 |
| Training.VisitLogged | main.go:151-183 | a visit keeps the rows in step with the trace and the error log: the flagged rows are the updates in order, and the update that raises the stop flag adds no row |
| Training.VisitRows | main.go:150-183 | a visit appends one row exactly when the sample is in the training window and the visit does not raise the stop flag |
| Training.GatedSteps | main.go:164-167 | in a gated trace, step k was taken on a training-window sample that the weights of that moment misclassified, and error k is the error that step returned |
| Training.GatedErrorsNonzero | main.go:164-167 | with mu != 0 no logged error is 0: every gated update was on a sample whose score has the wrong sign, so its score differs from its label |
| Training.GatedHead | main.go:164 | the first update of a gated trace was on a training-window sample that the initial weights misclassify |
| Training.SeparatedRun | main.go:148-183 | when the initial weights misclassify no training-window sample, the run makes no update: the weights stay, the error log is empty, the stop flag stays down and no row is flagged |
| Training.RunFacts | main.go:144-186 | the invariants spelled out: replayed and gated weights, the error log with one entry per update, rows that report the updates except the stopping one, the stop at the first update that passes 0.8 and at no earlier one |
| Training.SweepFrom | main.go:148-185 | the inner loop from sample i on, as a function: visits in order until the last sample or the stop flag; it keeps the length of the weights |
| Training.Train | main.go:144-186 | the outer loop, as a function: k sweeps, none once the stop flag is raised; it keeps the length of the weights |
| Training.SweepFromReplayed | main.go:148-185 | a sweep keeps the weights equal to w0 replayed along the trace, every step gated, and the stop flag raised at the first update that passes 0.8 |
| Training.SweepFromLogged | main.go:148-185 | a sweep keeps the flagged rows in step with the trace and the error log, the stopping update excepted |
| Training.TrainKeeps | main.go:144-186 | training for any number of iterations keeps both of those invariants |
| Training.TrainFacts | main.go:124-186 | the state of a training run from w0 keeps both invariants, so `RunFacts` applies to it |
| Training.SweepRows | main.go:148-185 | a sweep that does not stop adds exactly cut rows, and one that stops adds fewer |
| Training.TrainRows | main.go:144-186 | k iterations that do not stop add exactly k*cut rows, and a run that stops adds fewer |
| Lms.Lms.Sweep | main.go:148-185 | one inner loop over all samples ends in exactly the state `SweepFrom` gives from the state it started in: every sample visited in order as `Visit` says, stopping at the update that raises the stop flag |
| Lms.Lms.Iterate | main.go:144-186 | the outer loop ends in exactly the state `Train` gives for iterNum iterations from the starting weights with no rows, no errors and no updates |
| Lms.Lms.Fit | main.go:124-190 | the final weights, rows, error log and stop flag are exactly those of `Train` from w0 over iterNum iterations; spelled out: the weights are w0 replayed along the trace; every update is gated on i < cut and score*label < 0, with its error logged; a stop means training accuracy above 0.8 after the last update and after no earlier one, and without a stop no update ever passed 0.8; a row carries error and new weights exactly when flagged; the flagged rows are the updates in order except the stopping one, so the error log has one entry more than the flagged rows exactly when training stopped; rows number iterNum*cut without a stop and fewer with one; initial weights that misclassify no training-window sample are never changed; with mu != 0 no logged error is 0; the final held-out counters and accuracy are those of [floor(3N/4), N) |
| Dataset.Label | main.go:64-68 | the label is +1 or -1, and it is -1 exactly when the cell is the text "-1" |
| Dataset.WithBias | main.go:59 | the sample is one longer than the features, starts with 1, and the rest are the features |
| Dataset.BuildDataset | main.go:44-69 | one sample and one label per record, in order: each sample is the record's features with the bias 1 in front, and each label is -1 or +1 by the rule above |
| Dataset.BiasIntercept | main.go:59 | with the bias in front, the score is the first weight plus the rest of the weights' product with the features |

## Left out

- CSV reading and writing, file creation and the `log.Fatal` and `panic` paths are I/O. The model takes the records'
  feature cells already as numbers (`Dataset.Record`). It does not model the empty-record panic or a parse failure.
- `strconv.ParseFloat` is a foreign parser. Its results are inputs.
- `fmt.Sprintf` formatting and `fmt.Println` output are not modelled: the header row, the "worked" and "w:"
  prints, and the held-out counts print. A row is a datatype of the reals and flags its cells would show, and the
  error log is a sequence of reals.
- The `errr` slice is appended to the file data as a final row. The model returns it as the separate sequence
  `errs`.
- The gonum matrix calls are replaced by sequence arithmetic (`Linear.Dot`, `Linear.Step`).
- `rand.Seed` and `rand.NormFloat64` are left out. The initial weights are a parameter `w0` of `Lms.Lms.Fit`,
  with one entry per feature of the first sample.
- IEEE-754 float64 is modelled as `real`: no rounding, no overflow and no divergence.
- NaN is not modelled. The accuracy of an empty range (0/0, NaN in the source) is `None`, which never passes the
  stop test, just as NaN > 0.8 is false.
- `Lms.Lms.Fit`: the training cut `int(float64(N)*0.7)` is the parameter `cut`, required to satisfy `cut <= N`.
  The exact float rounding of 0.7*N is not modelled. The validation cut 0.75*N is exact, so it is `(3*N)/4`.
- `Lms.Lms.Fit` requires at least one sample, since `fit` reads `X[0]`. It requires every sample to have the same
  length as the first. It requires at least three entries per sample when the training window is nonempty,
  because rows show `X[i][0..2]` and `weights[0..2]`. The source would panic instead.
- The iteration count is a `nat`. A negative `iterNum` in the source runs no iteration, which is the same as 0.
- `Lms.Lms.Sweep` and `Lms.Lms.Iterate` are not separate functions in the source. They are the inner and outer
  loops of `fit`, written as methods.
- `Lms.Lms.Fit` returns the held-out accuracy and counters of its last validation pass. The source computes them
  (line 188) but discards the accuracy and only prints the counters (line 258).
- The trace of updated sample indices that `Fit` returns is a ghost observation. It states gating and replay; the
  source has no such value.
