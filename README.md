# Multi-label losses and the NUS-WIDE record converter

This project models three parts of a Caffe fork trained on the NUS-WIDE
multi-label image and text data set, and proves properties of each model.

- **`SoftmaxMultiLabelLossLayer`** (`softmax_multilabel_loss.dfy`) is a
  cross-entropy loss over softmax probabilities.
  - Each example carries a variable-length row of class labels ended
    by -1.
  - `Forward_cpu` averages `-log(max(p, FLT_MIN))` over each example's
    labels, then averages over the batch.
  - `Backward_cpu` copies the probabilities, subtracts 1 at every
    listed class (once per occurrence), and scales everything by
    `loss_weight / num`.
  - `Reshape` gives the optional second output the shape of the scores.
  - The model reads the probability and label blobs as arrays. The loss
    is a `Scalar`: a real number or NaN.
- **`WeightedEuclideanLossLayer`** (`weighted_euclidean_loss.dfy`) is half
  the mean squared distance between two blobs.
  - `Reshape` checks the shapes.
  - `Forward_cpu` stores the difference in `diff_` and reduces it to
    the loss.
  - `Backward_cpu` overwrites the gradient of each requested input with
    `±top_diff / num` times `diff_`.
  - With four inputs, the gradient is written row by row under a margin
    gate on the two auxiliary per-example scalars. The gate is sticky,
    exactly as the code writes it: `local_alpha` is set once before the
    row loop, and once one row fails the gate every later row gets a
    zero gradient.
- **`tools/convert_nuswide.cpp`** (`convert_nuswide.dfy`,
  `record_key.dfy`, `convert_nuswide_properties.dfy`) turns the lines of
  the NUS-WIDE list file into database records.
  - It builds a whitelist of the `nlabels` most popular labels.
  - For each line it keeps the whitelisted label ids before the `$$`
    token, and drops records with no label or more than `max_labels`.
  - It numbers the surviving lines and skips those before `start`. In
    count mode it only counts.
  - It checks the length of the text vector, reads the image, and
    checks each image's data size against the first one.
  - It writes the record under the key `%08d_<path>`, commits every
    1000 records and stops at `size` records.
  - The model is the loop written as methods over the token lists of
    the lines. Each method is proved equal to a function (`HandleLine`,
    `RunFrom`, `Convert`). Database writes are a trace of `Put` and
    `Commit` events.
  - The properties file proves what any run guarantees about that
    trace. Every written record passed the label filter; with fewer
    than `10^8` lines, its key decodes back to its line id and keys
    strictly increase. A finished run commits once per full batch and
    once for the partial last one, and its last event is a commit. A
    positive `size` bounds the writes. Count mode writes nothing. When
    no `size` limit cuts the run short, every numbered line from `start`
    on whose text vector fits and whose image reads is written with its
    whitelisted labels, the number of writes is the number of such
    lines, and the reported total is the number of lines that pass the
    label filter.

`blobs.dfy` holds what the two layers share: blob shapes, the `Scalar`
type, and the row-major `row * width + column` index arithmetic.

Calls into code outside these files are parameters of the model:
- the softmax sub-layer's output, taken as an input array;
- the natural logarithm, the function `log`;
- `boost::lexical_cast`, through `Io.parseLabel` and `Io.parseFloat`;
- `ReadImageToDatum`, through `Io.readImage`.

Fatal errors and exceptions (`CHECK`, `LOG(FATAL)`, an uncaught
`bad_lexical_cast`) are values of the result types.

Two behaviours of the code are kept as written:
- **Sticky gate.** In the code, one closed gate zeroes its own row and
  every later row. "## Findings" argues that this is a bug.
- **Uneven normalisation.** The forward loss divides each example's sum
  by its own label count, while the gradient is scaled by `1/num` only.
  `GradientRowSum` shows the effect: a gradient row of an example with
  `n` labels sums to `alpha * (1 - n)`. That is 0, as in a true softmax
  gradient, only for one label.

## Model

| member | source | states |
|---|---|---|
| SoftmaxMultiLabelLoss.Max | src/caffe/layers/softmax_multilabel_loss_layer.cpp:50-51 | `std::max` returns one of its arguments, at least as large as both |
| SoftmaxMultiLabelLoss.LabelsFrom | src/caffe/layers/softmax_multilabel_loss_layer.cpp:49 | the labels the scan visits are the entries from the row's start up to, not including, the first -1, and none of them is -1 |
| SoftmaxMultiLabelLoss.ScanStaysInRow | src/caffe/layers/softmax_multilabel_loss_layer.cpp:49 | an example's scan ends inside its own row exactly when that row holds a -1; otherwise it runs on into the next row |
| SoftmaxMultiLabelLoss.LabelsIndexRow | src/caffe/layers/softmax_multilabel_loss_layer.cpp:50-51 | every label of example `i` addresses an entry of example `i`'s own row of the probability buffer |
| SoftmaxMultiLabelLoss.Top1Shape | src/caffe/layers/softmax_multilabel_loss_layer.cpp:27-30 | a second output exists exactly when there are at least two tops, and then it has the shape of the scores |
| SoftmaxMultiLabelLoss.ExampleNegLogSum | src/caffe/layers/softmax_multilabel_loss_layer.cpp:47-53 | the inner loop leaves `num_labels` equal to the number of labels of the example and `tmp_loss` equal to the sum of `-log(max(p, FLT_MIN))` over them |
| SoftmaxMultiLabelLoss.BatchLoss | src/caffe/layers/softmax_multilabel_loss_layer.cpp:45-55 | the outer loop leaves the sum over all examples of each example's mean loss |
| SoftmaxMultiLabelLoss.ForwardCpu | src/caffe/layers/softmax_multilabel_loss_layer.cpp:40-59 | aborts exactly when `height * width != 1`; otherwise top[0] is the batch mean of the example losses, and top[1] shows the probabilities exactly when there are two tops |
| SoftmaxMultiLabelLoss.ExampleLossIsNaN | src/caffe/layers/softmax_multilabel_loss_layer.cpp:54 | an example's loss is NaN (`0/0`) exactly when its row has no labels |
| SoftmaxMultiLabelLoss.SumIsNaNIffSomeRowEmpty | src/caffe/layers/softmax_multilabel_loss_layer.cpp:46-55 | the running sum over the first `rows` examples is NaN exactly when one of them has no labels |
| SoftmaxMultiLabelLoss.LossIsNaNIffSomeRowEmpty | src/caffe/layers/softmax_multilabel_loss_layer.cpp:54-56 | the batch loss is NaN exactly when some example has no labels |
| SoftmaxMultiLabelLoss.NegLogSumNonNegative | src/caffe/layers/softmax_multilabel_loss_layer.cpp:50-51 | with probabilities at most 1, each `tmp_loss` is at least 0 |
| SoftmaxMultiLabelLoss.ExampleLossNonNegative | src/caffe/layers/softmax_multilabel_loss_layer.cpp:54 | an example's loss, when it is a number, is at least 0 |
| SoftmaxMultiLabelLoss.SumOfExampleLossesNonNegative | src/caffe/layers/softmax_multilabel_loss_layer.cpp:46-55 | the running sum, when it is a number, is at least 0 |
| SoftmaxMultiLabelLoss.LossNonNegative | src/caffe/layers/softmax_multilabel_loss_layer.cpp:56 | the batch loss, when it is a number, is at least 0 |
| SoftmaxMultiLabelLoss.SingleLabelExample | src/caffe/layers/softmax_multilabel_loss_layer.cpp:46-56 | one example labelled only with class 0 of probabilities (0.5, 0.3, 0.2) has loss `-log(0.5)` |
| SoftmaxMultiLabelLoss.TwoLabelExample | src/caffe/layers/softmax_multilabel_loss_layer.cpp:46-56 | one example of four equally likely classes labelled {0, 1} has loss `-log(0.25)`, the mean of its two label terms |
| SoftmaxMultiLabelLoss.Decrement | src/caffe/layers/softmax_multilabel_loss_layer.cpp:82 | `bottom_diff[k] -= 1` changes entry `k` only |
| SoftmaxMultiLabelLoss.DecrementLabel | src/caffe/layers/softmax_multilabel_loss_layer.cpp:81-82 | handling label `j` of example `i` extends the decrements done so far by that one |
| SoftmaxMultiLabelLoss.SubtractExample | src/caffe/layers/softmax_multilabel_loss_layer.cpp:81-82 | the inner loop decrements, once per occurrence, every class listed for example `i` |
| SoftmaxMultiLabelLoss.SubtractLabels | src/caffe/layers/softmax_multilabel_loss_layer.cpp:80-83 | after both loops each entry is its probability minus the number of times its class is listed for its example |
| SoftmaxMultiLabelLoss.AllDecremented | src/caffe/layers/softmax_multilabel_loss_layer.cpp:80-83 | the decrements of every example laid over the copied probabilities give exactly `prob - count of c in labels(i)` at each entry |
| SoftmaxMultiLabelLoss.ScaledGradient | src/caffe/layers/softmax_multilabel_loss_layer.cpp:73-86 | copying, decrementing and scaling by `loss_weight / num` leaves the gradient `(prob[i*dim+c] - count of c in labels(i)) * loss_weight / num` |
| SoftmaxMultiLabelLoss.ScaledIsGradient | src/caffe/layers/softmax_multilabel_loss_layer.cpp:85-86 | scaling the decremented buffer entry by entry by `alpha` gives that gradient |
| SoftmaxMultiLabelLoss.BackwardCpu | src/caffe/layers/softmax_multilabel_loss_layer.cpp:66-87 | a label gradient request aborts and leaves the buffer as it was; no request leaves it as it was; a bad spatial extent aborts after the copy; otherwise the buffer holds the scaled gradient |
| SoftmaxMultiLabelLoss.DecrementedRowSum | src/caffe/layers/softmax_multilabel_loss_layer.cpp:80-83 | a decremented row sums to the row of probabilities minus the number of its labels |
| SoftmaxMultiLabelLoss.GradientRowSum | src/caffe/layers/softmax_multilabel_loss_layer.cpp:80-86 | when an example's probabilities sum to 1, its gradient row sums to `alpha * (1 - number of labels)` |
| SoftmaxMultiLabelLoss.GradientRowScaled | src/caffe/layers/softmax_multilabel_loss_layer.cpp:86 | each gradient row is the decremented row scaled by `alpha` |
| WeightedEuclideanLoss.Reshape | src/caffe/layers/weighted_euclidean_loss_layer.cpp:11-23 | succeeds exactly when channels, height and width of inputs 0 and 1 agree and each auxiliary input present has `count == num`; the first failing check (channels, then height, then width, then input 2, then input 3) names the error; `diff_` takes input 0's shape |
| WeightedEuclideanLoss.AuxShapedIffOneScalar | src/caffe/layers/weighted_euclidean_loss_layer.cpp:19-22 | for a non-empty batch, `count == num` holds exactly when each example holds one scalar |
| WeightedEuclideanLoss.Difference | src/caffe/layers/weighted_euclidean_loss_layer.cpp:29-33 | `caffe_sub` gives `a[k] - b[k]` at every position |
| WeightedEuclideanLoss.ForwardCpu | src/caffe/layers/weighted_euclidean_loss_layer.cpp:26-37 | `diff_` holds `a - b` entry by entry, and the loss is its squared norm divided by `num` and by 2 (NaN for an empty batch) |
| WeightedEuclideanLoss.SumSquaresNonNegative | src/caffe/layers/weighted_euclidean_loss_layer.cpp:34 | the dot product of `diff_` with itself is at least 0 |
| WeightedEuclideanLoss.EuclideanLossNonNegative | src/caffe/layers/weighted_euclidean_loss_layer.cpp:34-35 | the loss, when it is a number, is at least 0 |
| WeightedEuclideanLoss.EuclideanLossSymmetric | src/caffe/layers/weighted_euclidean_loss_layer.cpp:29-35 | swapping the two inputs leaves the loss unchanged |
| WeightedEuclideanLoss.EuclideanLossOfEqualInputs | src/caffe/layers/weighted_euclidean_loss_layer.cpp:29-35 | equal inputs of a non-empty batch have loss 0 |
| WeightedEuclideanLoss.ScaleRow | src/caffe/layers/weighted_euclidean_loss_layer.cpp:55-60 | axpby with beta 0 over row `j` overwrites that row with `a` times `diff_`'s row and leaves the rest |
| WeightedEuclideanLoss.GatedRows | src/caffe/layers/weighted_euclidean_loss_layer.cpp:49-61 | the row loop writes every row `j` as `diff_`'s row scaled by the `local_alpha` the loop holds after row `j` |
| WeightedEuclideanLoss.RowsWrittenStep | src/caffe/layers/weighted_euclidean_loss_layer.cpp:52-60 | one pass of the row loop extends the rows written by one and keeps the earlier ones |
| WeightedEuclideanLoss.ScaleAll | src/caffe/layers/weighted_euclidean_loss_layer.cpp:63-68 | axpby with beta 0 over the whole buffer overwrites it with `alpha * diff_` |
| WeightedEuclideanLoss.InputGradient | src/caffe/layers/weighted_euclidean_loss_layer.cpp:44-69 | a requested input's gradient is gated row by row with more than three inputs and is `alpha * diff_` otherwise, with `alpha = sign * top_diff / num` |
| WeightedEuclideanLoss.BackwardCpu | src/caffe/layers/weighted_euclidean_loss_layer.cpp:42-72 | each of inputs 0 and 1 gets its gradient exactly when it is requested, and an input not requested keeps its buffer |
| WeightedEuclideanLoss.StickyGate | src/caffe/layers/weighted_euclidean_loss_layer.cpp:51-54 | row `j` is scaled by `alpha` when the gates of rows 0 to `j` are all open, and by 0 as soon as one of them is closed |
| WeightedEuclideanLoss.ClosedGateZeroesLaterRows | src/caffe/layers/weighted_euclidean_loss_layer.cpp:51-61 | after a closed gate at row `m`, every row from `m` on gets scale 0 |
| WeightedEuclideanLoss.StickyGateZeroesOpenRow | src/caffe/layers/weighted_euclidean_loss_layer.cpp:52-54 | with auxiliary values (0, 1) and (1, 0) under sign +1, row 1's gate is open yet its scale is 0 |
| WeightedEuclideanLoss.UngatedGradientsOpposite | src/caffe/layers/weighted_euclidean_loss_layer.cpp:44-45 | without gating, the gradients of inputs 0 and 1 are each other's negation |
| WeightedEuclideanLoss.PerRowAlpha | src/caffe/layers/weighted_euclidean_loss_layer.cpp:53-54 | the scale of a row gated by its own example only is `alpha` or 0 |
| WeightedEuclideanLoss.PerRowGating | src/caffe/layers/weighted_euclidean_loss_layer.cpp:53-54 | under per-row gating a row keeps `alpha` exactly when its own gate is open, whatever the other examples' gates |
| WeightedEuclideanLoss.StickyDiffersFromPerRow | src/caffe/layers/weighted_euclidean_loss_layer.cpp:51-61 | the loop's scale differs from the per-row scale at row `j` exactly when row `j`'s gate is open and an earlier gate is closed |
| RecordKey.Digits | tools/convert_nuswide.cpp:201 | `w` decimal digit characters |
| RecordKey.DigitCount | tools/convert_nuswide.cpp:201 | the unpadded digit count of `n` is at least 1 and `n < 10^count` |
| RecordKey.Truncate | tools/convert_nuswide.cpp:201 | `snprintf` into the 256-byte buffer keeps the whole string when it fits, and otherwise exactly its first 255 characters |
| RecordKey.DigitsRoundTrip | tools/convert_nuswide.cpp:201 | decoding the `w` digits of `n < 10^w` gives `n` back |
| RecordKey.Format08RoundTrip | tools/convert_nuswide.cpp:201 | `%08d` of a non-negative line id is all digits and decodes to the line id |
| RecordKey.Format08Padded | tools/convert_nuswide.cpp:201 | below `10^8`, `%08d` is exactly eight zero-padded digits |
| RecordKey.KeyOfLineId | tools/convert_nuswide.cpp:201 | a key of a line id below `10^8` starts with eight digits that decode to the line id, followed by `_` |
| RecordKey.DigitsOrdered | tools/convert_nuswide.cpp:201 | the padded digits of a smaller number sort first |
| RecordKey.WellFormedKeysOrdered | tools/convert_nuswide.cpp:201 | well-formed keys sort by the line ids they carry |
| RecordKey.KeysOrdered | tools/convert_nuswide.cpp:201 | keys of line ids `m < n < 10^8` sort in that order and differ, whatever the image paths |
| ConvertNuswide.Clamp | tools/convert_nuswide.cpp:143-144 | `std::max<int>(0, x)` is `x` or 0, whichever is larger |
| ConvertNuswide.BuildLabelSet | tools/convert_nuswide.cpp:69-71 | the loop inserts exactly the entries of `label_popularity` from position `81 - nlabels` to the end |
| ConvertNuswide.LabelSetGrows | tools/convert_nuswide.cpp:69-71 | a whitelist of `nlabels <= 0` is empty, and a larger `nlabels` only adds labels |
| ConvertNuswide.ScanLabels | tools/convert_nuswide.cpp:166-174 | a scan that finds the `$$` token says where it is, that every token before it is a label id, and keeps only whitelisted ids; a missing `$$` is reported, and so is the first token before any `$$` that does not parse |
| ConvertNuswide.RetainedLabels | tools/convert_nuswide.cpp:169-174 | a label is retained exactly when some token before the `$$` parses to it and it is whitelisted |
| ConvertNuswide.RetainedInOrder | tools/convert_nuswide.cpp:169-174 | the retained labels are the whitelisted parsed ids of the tokens before the `$$`, in token order and with repetitions |
| ConvertNuswide.ParseLabels | tools/convert_nuswide.cpp:168-174 | the label loop from position 2 computes the scan of the line |
| ConvertNuswide.FirstBadText | tools/convert_nuswide.cpp:183-184 | the first text token `lexical_cast<float>` rejects, with every earlier one accepted, or none when all are accepted |
| ConvertNuswide.ReadText | tools/convert_nuswide.cpp:181-184 | the text loop finds the first rejected token, and otherwise counts the tokens after the `$$` |
| ConvertNuswide.HandleLine | tools/convert_nuswide.cpp:162-237 | a line gets a line id exactly when it passes the label filter; it writes only when numbered, not in count mode and not before `start`, and then `Put(Key(line_id, path), labels)` with a text vector of `text_dim` values; a commit follows exactly when the count reaches a multiple of 1000; it stops the run exactly when the count reaches a positive `size`; a line that qualifies, whose text vector fits, whose image reads and whose data size fits writes `Put(Key(line_id, path), labels)` first; a qualifying line that does not abort writes exactly when its image reads; a missing `$$`, an unparsable label and a line that fails the label filter give `MissingLabelEnd`, `BadLabel` and no step |
| ConvertNuswide.StoreRecord | tools/convert_nuswide.cpp:181-199 | a text token that does not convert aborts with that token; a text vector all of whose tokens convert aborts exactly when its length is not `text_dim`; then an unreadable image writes nothing, and a readable one aborts exactly when its data size does not fit and otherwise writes the record under its key |
| ConvertNuswide.PutRecord | tools/convert_nuswide.cpp:192-237 | aborts exactly when an earlier image set a data size that this one differs from; otherwise counts and writes the record, commits a full batch and applies the `size` limit, and the first image sets the data size to channels times height times width |
| ConvertNuswide.ProcessLine | tools/convert_nuswide.cpp:162-180 | the loop body's parse, filter and numbering compute `HandleLine` |
| ConvertNuswide.WriteRecord | tools/convert_nuswide.cpp:181-191 | the text check and the image read compute `StoreRecord` |
| ConvertNuswide.CommitRecord | tools/convert_nuswide.cpp:192-237 | the data size check, the write, the commit and the `size` limit compute `PutRecord` |
| ConvertNuswide.RunFromStep | tools/convert_nuswide.cpp:154-238 | a run from line `i` aborts, finishes or goes on to line `i + 1` as that line's step says |
| ConvertNuswide.RecordLoop | tools/convert_nuswide.cpp:153-258 | the loop over the lines and the final commit produce the run `RunFrom` defines |
| ConvertNuswide.CommitLast | tools/convert_nuswide.cpp:241-258 | the code after the loop commits a partial batch and reports `line_id + 1`, as `Finish` defines |
| ConvertNuswide.ConvertRecords | tools/convert_nuswide.cpp:69-258 | whitelist, clamped resize extents and the record loop produce the run `Convert` defines |
| ConvertNuswideProperties.CountsAppend | tools/convert_nuswide.cpp:207-235 | writes and commits of two traces add up |
| ConvertNuswideProperties.NextBatch | tools/convert_nuswide.cpp:220 | one more write raises the number of full batches by one exactly when it reaches a multiple of 1000 |
| ConvertNuswideProperties.WriteKeepsConsistent | tools/convert_nuswide.cpp:201-237 | a write of a filtered record under the next line id keeps the trace consistent with the counters |
| ConvertNuswideProperties.LineKeepsConsistent | tools/convert_nuswide.cpp:162-237 | every line that does not abort keeps the trace consistent with the counters |
| ConvertNuswideProperties.BatchCounts | tools/convert_nuswide.cpp:207-235 | after one line's events the trace holds `count` writes and `count / 1000` commits |
| ConvertNuswideProperties.CountsOfBatch | tools/convert_nuswide.cpp:207-235 | one line's events are at most one write, followed by a commit exactly when the count reaches a multiple of 1000 |
| ConvertNuswideProperties.FinishCounts | tools/convert_nuswide.cpp:241-256 | the final commit leaves one commit per started batch of 1000 writes and a commit last |
| ConvertNuswideProperties.CeilBatches | tools/convert_nuswide.cpp:220-256 | `n` writes start `n / 1000` batches, plus one when 1000 does not divide `n` |
| ConvertNuswideProperties.FinishGuarantees | tools/convert_nuswide.cpp:241-256 | the final commit of a partial batch leaves one commit per started batch and a commit last |
| ConvertNuswideProperties.RunFromGuarantees | tools/convert_nuswide.cpp:154-258 | every run from a consistent state keeps all the write guarantees |
| ConvertNuswideProperties.RunFromTotal | tools/convert_nuswide.cpp:178 | without a `size` limit or in count mode, `line_id + 1` at the end is the number of lines that pass the label filter |
| ConvertNuswideProperties.ConvertGuarantees | tools/convert_nuswide.cpp:69-258 | a whole run keeps every write guarantee and, when it finishes without a `size` cut, reports the number of filtered lines |
| ConvertNuswideProperties.WrittenRecordsPassFilter | tools/convert_nuswide.cpp:169-201 | every written record has between 1 and `max_labels` labels, all whitelisted, and a key that carries a line id from `start` on, below the number of lines |
| ConvertNuswideProperties.KeysStrictlyIncrease | tools/convert_nuswide.cpp:178-201 | with fewer than `10^8` lines, record keys are pairwise distinct and sort in write order |
| ConvertNuswideProperties.EveryWriteCommitted | tools/convert_nuswide.cpp:220-256 | a finished run commits once per full batch plus once for a partial last batch, and, when it wrote anything, its last event is a commit |
| ConvertNuswideProperties.SizeBoundsWrites | tools/convert_nuswide.cpp:236-237 | a positive `size` bounds the number of records written |
| ConvertNuswideProperties.CountModeOnlyCounts | tools/convert_nuswide.cpp:179-180 | count mode writes nothing and, when it finishes, reports the number of lines that pass the label filter |
| ConvertNuswideProperties.TotalCountsNumberedLines | tools/convert_nuswide.cpp:258 | without a `size` limit, a finished run reports the number of lines that pass the label filter |
| ConvertNuswideProperties.StepWrites | tools/convert_nuswide.cpp:178-218 | a line that does not abort adds one write when it qualifies and its image reads, and none otherwise; that write is the line's record |
| ConvertNuswideProperties.FinishedRunGoesOn | tools/convert_nuswide.cpp:154-238 | without a `size` limit, a run that finishes takes a `Next` step at each line it reaches and goes on from the next line |
| ConvertNuswideProperties.RunFromCountsWrites | tools/convert_nuswide.cpp:154-256 | without a `size` limit a finished run from line `j` adds one write per line from `j` on that qualifies and whose image reads, and keeps the earlier trace as a prefix |
| ConvertNuswideProperties.WrittenAtItsLine | tools/convert_nuswide.cpp:178-218 | the record of a line that qualifies and whose image reads is the first event that line adds to the trace |
| ConvertNuswideProperties.RunFromWritesLine | tools/convert_nuswide.cpp:154-256 | without a `size` limit a finished run from line `j` writes the record of every line from `j` on that qualifies and whose image reads |
| ConvertNuswideProperties.RunWritesEveryLine | tools/convert_nuswide.cpp:154-256 | without a `size` limit, a finished run writes as many records as there are lines that qualify and whose image reads, and each such line's record, under its key and with its labels, is in the trace |
| ConvertNuswideProperties.QualifyingLinesWritten | tools/convert_nuswide.cpp:69-256 | the same for the whole tool: without a `size` limit the number of writes is the number of lines that qualify and whose image reads, and each of them has its record in the trace |
| ConvertNuswideProperties.EmptyWhitelistWritesNothing | tools/convert_nuswide.cpp:69-71 | with `nlabels <= 0` no record is ever written |

## Left out

- The softmax sub-layer, `LayerSetUp` and the base `LossLayer::Reshape`: the probabilities are an input of the model.
- Single-precision rounding, the natural logarithm's values and `caffe_cpu_dot`'s summation order: losses are real numbers, with NaN only where a count of 0 divides a sum of 0.
- SoftmaxMultiLabelLoss.ForwardCpu: requires `num > 0`; for an empty batch the source divides the integer `count` by 0.
- SoftmaxMultiLabelLoss.BackwardCpu: requires `num > 0` when the score gradient is requested, for the same reason.
- SoftmaxMultiLabelLoss.ForwardCpu: requires every label scan to meet a -1 and every label to be a class from 0 to `dim - 1`. A scan without a -1 runs past the label buffer. A label of `dim` or more addresses another example's row: with `num = 2`, `dim = 3` and label 4 on example 0 the source reads `prob_data[4]`, inside the buffer but in example 1's row. The model excludes both cases.
- SoftmaxMultiLabelLoss.BackwardCpu: has the same label requirement; on the same input the source's line 82 decrements `bottom_diff[4]`, an entry of example 1's row.
- Label values are modelled as integers: the `static_cast<int>` of a float label is taken to be exact.
- The GPU kernels and the `propagate_down` flags of inputs 2 and 3: those inputs never receive a gradient, and nothing in the model writes one.
- WeightedEuclideanLoss.BackwardCpu: requires `num > 0` when a gradient is requested. With `num == 0` and four inputs, `dim = count / num` (line 50) is an integer division by zero. With fewer inputs the source's `count` is 0 and nothing is written, a case the model does not cover.
- WeightedEuclideanLoss.BackwardCpu: requires inputs 2 and 3 to hold at least `num` values when four inputs gate the gradient. `Reshape` (lines 19-22) checks each auxiliary input's count only against its own `num`, so the source may read `loss2[j]` or `loss3[j]` past their end.
- Opening the list file and the database (leveldb/lmdb), the backend choice, gflags argument handling, logging, and the `WriteBatch` and transaction objects: writes and commits are events of a trace.
- The serialised `Datum` value: a written record is reduced to its labels. The text vector's values and the image bytes are not kept.
- Tokenising with `boost::split` and `getline`'s end-of-file rule: the input is the token lists of the lines the loop reads. A last line without its newline is dropped by the source and is not an element of that list.
- A line of fewer than two tokens: the source reads `strs[1]` out of bounds. The model scans it like any other line, so it aborts with `MissingLabelEnd`.
- A line without `$$`: the source's loop tests `strs[k]` before `k < strs.size()` and reads past the end. The model aborts with `MissingLabelEnd`.
- `nlabels > 81`: `BuildLabelSet`, `MakeSetup` and `Convert` require `nlabels <= 81`, because the source then reads before the start of `label_popularity`.
- The whitelist's size (`nlabels` distinct labels for `0 <= nlabels <= 81`) is not proved. Only the inclusion between whitelists and the empty whitelist are.
- 32-bit overflow of `line_id` and `count`: both are unbounded integers. Key ordering is stated for fewer than `10^8` lines, where `%08d` keeps its eight-digit width.
- Image paths holding a NUL byte, which would cut `keystr` short.

## Findings

| source | as written | input that shows it | evidently intended | confidence | as-written member | corrected member |
|---|---|---|---|---|---|---|
| src/caffe/layers/weighted_euclidean_loss_layer.cpp:51-54 | `local_alpha` is set to `alpha` once, before the row loop, and only ever set to 0, so one closed gate zeroes that row and every later row | four inputs, sign +1, `aux0 = (0, 1)`, `aux1 = (1, 0)`: row 1's gate is open (1 - 0 > 0) yet row 1 gets gradient 0 | each example's gate decides its own row only: `alpha` when `sign * (aux0[j] - aux1[j]) > 0`, else 0 | medium, not executed | WeightedEuclideanLoss.StickyGateZeroesOpenRow | WeightedEuclideanLoss.PerRowGating |

`BackwardCpu` keeps the sticky behaviour the code has. `PerRowAlpha` is
the corrected scale. `StickyDiffersFromPerRow` says exactly on which rows
the two disagree.
