# bf-vos training core, modelled in Dafny

bf-vos learns pixel embeddings for video object segmentation. It uses a triplet loss over
three frames of a clip: an anchor frame A and two pool frames F1 and F2.

This project models the core of `bfvos/train.py` in two parts:

- **The triplet-pool builder** (`create_triplet_pools`, module `TripletPools`). From the three
  annotation masks and the three embedding fields, it builds:
  - the foreground and background anchor batches;
  - the positive and negative pools, which are shared between the two classes with their roles
    swapped.

  The builder gives `None` when any of the four coordinate lists is empty. The tensor operations
  it uses are modelled in module `Tensors`:
  - `torch.cat` along the column axis;
  - `m == 0`;
  - `torch.nonzero` in row-major order;
  - the gather `[e[:, x, y] for x, y in idx]`.
- **The control skeleton of `train` and `validate`** (module `Training`). For each sample the
  loops:
  - run the backbone and build the pools;
  - evaluate the two losses;
  - in training, take an optimizer step.

  Training skips a sample without pools, accumulates the losses, and logs and checkpoints on the
  `(idx + 1) % interval == 0` cadence. A checkpoint puts the network in eval mode and then back into
  train mode with frozen feature extraction.

  Validation unpacks the pools without a guard, and logs at the interval and at the capped sample.
  It stops right after index `num_val_samples_to_evaluate`.

  The backbone, the two losses and the optimizer step are parameters (`Collaborators`). What the
  loops do to the outside world is a trace of `Event`s:
  - skip messages;
  - optimizer steps, with the mode they ran in;
  - log lines, carrying the accumulators;
  - checkpoint saves;
  - evaluations.

  `Train` and `Validate` are the imperative loops. `TrainIteration` is `train`'s loop body, and
  `ValRecord` is the bookkeeping part of `validate`'s loop body. Each is proved equal to a specification function (`TrainPrefix`, `ValRun`,
  `TrainStep`, `ValStep`). The
  properties are lemmas about those functions, reached through the bookkeeping fold `Book` over
  the samples' outcomes.

Files:
- `wrappers.dfy`: `Option`.
- `tensors.dfy`: 2-D tensors.
- `triplet_pools.dfy`: the pool builder.
- `training.dfy`: the loops.

Behaviour the model states as the code has it:
- **Logged averages divide by `idx + 1`.** That count includes skipped samples, which add no loss (`TrainLogSums`).
- **Validation has no `None` guard.** At the first degenerate sample it fails (`Crashed`) instead of skipping (`ValidateSpec`).
- **`train` never calls `model.train()` on entry.** A network left in eval mode by `validate` takes its optimizer steps in eval mode until the first checkpoint of the epoch. `TrainModes` states this: every step runs in the mode the events before it leave.

## Model

| member | source | states |
|---|---|---|
| Tensors.CellsRect | bfvos/train.py:163-164 | an h-by-w tensor has h * w cells |
| Tensors.Concat | bfvos/train.py:153 | `torch.cat(..., 2)` keeps the number of rows |
| Tensors.ConcatAt | bfvos/train.py:153 | each row of the concatenation is as wide as the two rows together; cell j comes from the first tensor below its width, otherwise from the second, shifted |
| Tensors.ConcatShape | bfvos/train.py:171 | two h-row tensors of widths w1 and w2 concatenate to an h-by-(w1 + w2) tensor |
| Tensors.ConcatCells | bfvos/train.py:171 | the concatenation has as many cells as its two parts together |
| Tensors.Not | bfvos/train.py:164 | negating a mask row keeps its length |
| Tensors.IsZero | bfvos/train.py:164 | `m == 0` keeps the number of rows |
| Tensors.IsZeroAt | bfvos/train.py:164-173 | `m == 0` has the shape of `m` and is set exactly where `m` is clear |
| Tensors.IsZeroConcat | bfvos/train.py:171-173 | `cat(a, b) == 0` equals `cat(a == 0, b == 0)` |
| Tensors.RowMajorAppend | bfvos/train.py:163 | two row-major lists whose boundary is ordered give a row-major list |
| Tensors.RowNonZeroSpec | bfvos/train.py:163 | the nonzero listing of one row lists exactly its set cells from a column on, in increasing order |
| Tensors.NonZeroFromSpec | bfvos/train.py:163 | the nonzero listing from a row on lists exactly the set cells of those rows, in row-major order |
| Tensors.NonZeroSpec | bfvos/train.py:163-173 | `torch.nonzero(m)` lists exactly the in-bounds set cells of `m`, in strictly increasing row-major order, hence without repetition |
| Tensors.RowMajorUnique | bfvos/train.py:163 | two row-major lists with the same elements are equal |
| Tensors.TailMembers | bfvos/train.py:163 | the tail of a row-major list holds every element except the head |
| Tensors.NonZeroUnique | bfvos/train.py:163-164 | any row-major listing of exactly the set cells is `torch.nonzero`'s |
| Tensors.RowNonZeroCount | bfvos/train.py:163 | a row's listing is as long as the row has set cells |
| Tensors.NonZeroFromCount | bfvos/train.py:163 | the listing from a row on is as long as those rows have set cells |
| Tensors.NonZeroCount | bfvos/train.py:163-173 | `torch.nonzero(m)` has one entry per set cell |
| Tensors.CountRowAppend | bfvos/train.py:171 | set cells of joined rows add up |
| Tensors.ConcatCount | bfvos/train.py:171-172 | the stacked pool mask has the set cells of F1 and F2 together |
| Tensors.CountRowNot | bfvos/train.py:164 | a row's set and clear cells add up to its length |
| Tensors.CountComplement | bfvos/train.py:163-164 | every cell is set in exactly one of `m` and `m == 0` |
| Tensors.NonZeroPartition | bfvos/train.py:163-173 | the foreground and background listings of an h-by-w mask partition its coordinates, and their lengths sum to h * w |
| Tensors.NonZeroEmpty | bfvos/train.py:163-176 | `torch.nonzero(m)` is empty exactly when `m` has no set pixel |
| Tensors.ZeroEmpty | bfvos/train.py:164-176 | `torch.nonzero(m == 0)` is empty exactly when `m` has no clear pixel |
| Tensors.ConcatAnyPixel | bfvos/train.py:171 | the stacked mask holds a value exactly when one of its halves does |
| Tensors.NonZero | bfvos/train.py:163-173 | `torch.nonzero` on a 2-D mask, row by row; no contract of its own, its meaning is `NonZeroSpec`, `NonZeroUnique` and `NonZeroCount` |
| Tensors.SinglePixel | bfvos/train.py:163-164 | a mask whose only set cell is (p, q) lists `[(p, q)]` and h * w - 1 background cells |
| Tensors.Gather | bfvos/train.py:177-178 | a gather has one vector per listed coordinate |
| Tensors.GatherAt | bfvos/train.py:177-185 | element k of a gather is the vector at the k-th listed coordinate |
| TripletPools.CreateTripletPools | bfvos/train.py:143-190 | `create_triplet_pools`, step by step; it returns `None` exactly when the anchor mask or the stacked pool mask lacks a foreground or a background pixel (the four `numel() == 0` tests); its batches are described by `PoolsContents` and `PoolsCardinality` |
| TripletPools.PoolStacking | bfvos/train.py:171 | the stacked pool is as tall as the frames and W1 + W2 wide; pool (x, y) is F1's (x, y) when y < W1, otherwise F2's (x, y - W1) |
| TripletPools.PoolsContents | bfvos/train.py:177-190 | every batch is as long as its index list; element k is the embedding at the k-th listed coordinate and has the right class; the negative pools are the other class's positive pools |
| TripletPools.PoolsCardinality | bfvos/train.py:163-185 | batch sizes are pixel counts; each foreground/background pair adds up to the frame area |
| TripletPools.SingleForegroundAnchor | bfvos/train.py:163-190 | one foreground anchor pixel gives exactly that vector as the foreground anchors, and h * w - 1 background anchors |
| TripletPools.CornerMask | bfvos/train.py:163-164 | the 4x4 mask that is set only at (0, 0) |
| TripletPools.CornerMaskExample | bfvos/train.py:163-190 | the 4x4 corner mask gives 1 foreground and 15 background anchors |
| Training.PoolsOf | bfvos/train.py:202-204 | `create_triplet_pools(sample, model(sample_frames))`; no contract of its own, see `PoolsOfNone` |
| Training.OutcomeOf | bfvos/train.py:202-214 | the pools, then the two losses on them; no contract of its own, see `OutcomeSkip` and `Forward` |
| Training.PoolsOfNone | bfvos/train.py:202-209 | with the backbone's output, no pools exactly for degenerate masks, whatever the weights or mode |
| Training.OutcomeSkip | bfvos/train.py:204-209 | a sample is skipped exactly when its masks are degenerate |
| Training.Forward | bfvos/train.py:202-214 | the forward pass gives the sample's outcome: no pools for degenerate masks, otherwise the two losses |
| Training.TrainStep | bfvos/train.py:201-248 | one loop body as a function; no contract of its own: `TrainIteration` is proved equal to it, and `TrainSkipped` and `TrainBatches` state what it does |
| Training.TrainPrefix | bfvos/train.py:193-248 | the loop over the first n samples as a function; no contract of its own: `Train` is proved equal to it, and the Train* lemmas state its properties |
| Training.TrainBatches | bfvos/train.py:196-248 | sample b only appends to the trace: the earlier events stay in place, and it adds at least one event, each with batch number b |
| Training.TrainSkipped | bfvos/train.py:206-225 | a skipped sample leaves the network and accumulators unchanged and adds only its skip message; a kept sample's first event is its step, whose losses the accumulators add |
| Training.TrainIteration | bfvos/train.py:201-248 | one loop body: skip and `continue`, or step, accumulate, log when due, checkpoint when due (eval, then train with frozen features) |
| Training.Train | bfvos/train.py:193-248 | the loop from zero accumulators computes `TrainPrefix` over all samples |
| Training.TrainOutcomes | bfvos/train.py:196-214 | one outcome per sample processed |
| Training.TrainBook | bfvos/train.py:193-248 | the loop's accumulators, mode and events are `Book` of the samples' outcomes |
| Training.TrainOutcomesSkip | bfvos/train.py:204-209 | exactly the degenerate samples are skipped |
| Training.TrainAccumulators | bfvos/train.py:194-225 | `agg_fg_loss` and `agg_bg_loss` are the sums of the step losses in the trace |
| Training.TrainEvents | bfvos/train.py:206-248 | a skip exactly for degenerate samples; a step exactly for the others; a log or checkpoint exactly for kept samples whose `idx + 1` is a multiple of the interval; no validation events |
| Training.TrainAveraged | bfvos/train.py:224-231 | every training log carries the loss sums of the events before it |
| Training.TrainLogAverages | bfvos/train.py:224-231 | each log line at batch `idx + 1` (skips included) carries the loss sums before it |
| Training.TrainModes | bfvos/train.py:241-248 | the mode is the entry mode until the first checkpoint, then train-and-frozen; every step runs in the mode left by the events before it |
| Training.TrainLogSums | bfvos/train.py:194-231 | the accumulators are the kept losses of all samples so far; the log at batch b carries the kept losses of samples 1..b and prints them over b, skipped samples counting in b but adding no loss |
| Training.LogLines | bfvos/train.py:224-231 | in a trace with averaged logs, every log line has the sums of the events before it |
| Training.AveragedAt | bfvos/train.py:224-231 | any log among the first n events has the sums before it |
| Training.StepModeAt | bfvos/train.py:216-248 | any step among the first n events ran in the mode before it |
| Training.StepModesAt | bfvos/train.py:216-248 | every step of the trace ran in the mode the events before it leave |
| Training.SamePrefix | bfvos/train.py:193-285 | every trace reading of the first k events depends only on those events |
| Training.AppendMarks | bfvos/train.py:206-248 | appending an event adds its (kind, batch) mark |
| Training.AppendSums | bfvos/train.py:224-225 | appending an event adds its losses to the trace's sums |
| Training.AppendMode | bfvos/train.py:241-248 | only a checkpoint changes the mode, to train-and-frozen |
| Training.AppendAveraged | bfvos/train.py:226-231 | an appended log keeps the logs averaged exactly when it carries the current sums |
| Training.AppendStepModes | bfvos/train.py:216-220 | an appended step keeps the modes right exactly when it records the current mode |
| Training.KeptSums | bfvos/train.py:213-225 | a kept sample's events add exactly its two losses to the sums |
| Training.KeptMode | bfvos/train.py:241-248 | a kept sample's events leave the mode unless a checkpoint is due, then train-and-frozen |
| Training.KeptMarks | bfvos/train.py:216-248 | a kept sample marks its step, its log when due and its checkpoint when due |
| Training.KeptAveraged | bfvos/train.py:224-231 | a kept sample's log over the updated accumulators keeps the logs averaged |
| Training.KeptStepModes | bfvos/train.py:216-220 | a kept sample's step records the current mode |
| Training.SumsStep | bfvos/train.py:206-225 | one sample keeps the accumulators equal to the trace's sums |
| Training.BookAccumulators | bfvos/train.py:194-225 | along the loop, the accumulators are the sums of the recorded step losses |
| Training.ModeStep | bfvos/train.py:241-248 | one sample keeps the mode the one its trace leaves |
| Training.BookMode | bfvos/train.py:241-248 | along the loop, the mode is the one its trace leaves |
| Training.AveragedStep | bfvos/train.py:224-231 | one sample keeps every log averaged |
| Training.BookAveraged | bfvos/train.py:224-231 | along the loop, every log carries the sums before it |
| Training.StepModesStep | bfvos/train.py:216-220 | one sample keeps every step's recorded mode right |
| Training.BookStepModes | bfvos/train.py:216-248 | along the loop, every step ran in the mode before it |
| Training.TrainMarksStep | bfvos/train.py:206-248 | one sample's marks extend the characterisation of the marks by outcomes |
| Training.MarksStep | bfvos/train.py:206-248 | a skip adds only its skip mark; a kept sample adds its step, and its log and checkpoint marks when due |
| Training.BookStep | bfvos/train.py:206-248 | the bookkeeping of one sample, given its outcome and the two due flags; no contract of its own, see the Kept*, *Step and `BookStepExtends` lemmas |
| Training.Book | bfvos/train.py:193-248 | the bookkeeping of the loop over a sequence of outcomes, with the flags `b % log_interval == 0` and `b % checkpoint_interval == 0`; no contract of its own, see the Book* lemmas |
| Training.BookStepExtends | bfvos/train.py:206-248 | one sample keeps the earlier events in place and adds at least one event, each with its batch number; a log among them is the one for that batch, over the updated accumulators |
| Training.KeptSamePrefix | bfvos/train.py:224-225 | the kept-loss sums of the first k samples depend on those samples only |
| Training.CarryStep | bfvos/train.py:224-231 | one sample keeps every log carrying the kept losses of samples 1..its batch, and the accumulators equal to the kept losses |
| Training.BookLogSums | bfvos/train.py:194-231 | along the loop, the accumulators and every log line at batch b hold the kept losses of samples 1..b |
| Training.BookMarks | bfvos/train.py:206-248 | the marks of the loop are exactly those of `TrainMarks` for the outcomes |
| Training.EvalAppend | bfvos/train.py:269-282 | an evaluated sample adds its losses and marks, and keeps the logs averaged |
| Training.ValMarksStep | bfvos/train.py:274 | one evaluated sample extends the validation marks |
| Training.ValMarkSetMarks | bfvos/train.py:274 | the validation marks: an evaluation for each sample, a log exactly at `(idx + 1) % log_interval == 0 or idx == cap` |
| Training.ValStepInv | bfvos/train.py:269-282 | one evaluated sample keeps `ValInv` |
| Training.ValRunEnds | bfvos/train.py:257-285 | from index i, validation completes exactly when every sample up to the limit has pools, after exactly the limit; otherwise it fails at the first sample without pools |
| Training.ValRunInv | bfvos/train.py:257-285 | wherever validation stops, its bookkeeping satisfies `ValInv` |
| Training.ValOutcomes | bfvos/train.py:263-270 | one eval-mode outcome per sample |
| Training.ValRecord | bfvos/train.py:272-282 | one loop body after the losses: accumulate, record the evaluation, log when due |
| Training.Validate | bfvos/train.py:251-285 | puts the network in eval mode; the loop computes `ValRun` from the start, crashing on missing pools and breaking after the capped index |
| Training.ValStep | bfvos/train.py:269-282 | the bookkeeping of one evaluated sample; no contract of its own: `ValRecord` is proved equal to it, and `ValStepInv` states what it keeps |
| Training.ValRun | bfvos/train.py:257-285 | the validation loop from index i as a function; no contract of its own: `Validate` is proved equal to it, and `ValRunEnds` and `ValRunInv` state how it ends |
| Training.ValRunSums | bfvos/train.py:272-281 | wherever validation stops, after n samples, the accumulators hold the losses of the first n outcomes, and every log line at batch b <= n carries those of the first b |
| Training.ValidateSpec | bfvos/train.py:251-285 | validation processes min(N, cap + 1) samples (all when cap < 0); it completes exactly when none has degenerate masks, else crashes at the first degenerate one; marks as `ValInv`; where it stops, after n samples, the accumulators are the validation losses of samples 1..n, and the log line at batch b carries those of samples 1..b and prints them over b |
| Training.Average | bfvos/train.py:228-231 | `agg / (idx + 1)`; no contract of its own: `TrainLogSums` and `ValidateSpec` state what each log line prints |
| Training.Event.AvgFg | bfvos/train.py:228-231 | the printed foreground average `agg_fg_loss / (idx + 1)`; no contract of its own: `TrainLogSums` and `ValidateSpec` state it is the kept foreground losses of samples 1..b over b |
| Training.Event.AvgBg | bfvos/train.py:229-231 | the printed background average `agg_bg_loss / (idx + 1)`; no contract of its own: `TrainLogSums` and `ValidateSpec` state it is the kept background losses of samples 1..b over b |
| Training.Event.AvgTotal | bfvos/train.py:228-231 | the printed total average `(agg_fg_loss + agg_bg_loss) / (idx + 1)`; no contract of its own: it is the foreground and background sums that `TrainLogSums` and `ValidateSpec` pin down, together over b |

## Left out

- `main`, argument parsing, paths, directory creation, the JSON config dump and `torch.save` (bfvos/train.py:24-140): configuration and I/O.
- CUDA and device placement, `.cpu()` and `.to(device)`: device placement without behaviour.
- The `ByteTensor` conversion of the anchor mask (bfvos/train.py:158-161): a dtype conversion of that mask only; the pool masks at line 171 are used as they come. Masks are modelled as boolean grids where true means non-zero, which is what the conversion keeps for 0/1-valued masks; masks with other values are not modelled.
- The backbone (`bfvos/model/network`), `MinTripletLoss`, `validation_loss`, `backward` and `optimizer.step`: code not part of this model. They are the uninterpreted parameters `embed`, `loss`, `valLoss` and `step`. Loss values are mathematical reals, so floating-point rounding is not modelled.
- `freeze_feature_extraction` and `model.train()`/`model.eval()`: modelled only as the abstract `Mode` of the network. The network's mode is an input of `embed` and `step`.
- `loss_meter`, `summary_writer` scalars, learning-rate logs, histograms and `tqdm`: metrics sinks. The training and validation log lines are `TrainLog`/`ValLog` events. They carry the accumulator sums; the printed averages are `AvgFg`/`AvgBg`/`AvgTotal`. The text format of the logger is not modelled.
- The eval-mode switch around a checkpoint: it is visible only inside the save, so the trace records the checkpoint and the mode after it.
- Training.Train: requires the log and checkpoint intervals to be non-zero, because Python's `%` by zero raises at the first kept sample; the error path is not modelled.
- Training.Validate: requires the log interval to be non-zero, for the same reason.
- Training.Train: requires that every sample's masks have exactly the resolution of the backbone's embeddings (`AllFit`, built on `Compatible`), the design's invariant. In Python a mask larger than its field raises in the gathers (lines 177-178, 184-185); a smaller one runs, but the anchor gather then reads a sub-region of the field, and the pool reads the wrong frame, because line 153 stacks the fields at the field's width while line 171 stacks the masks at the mask's width. Neither case is modelled.
- Training.Validate: requires `AllFit`, for the same reason.
- TripletPools.CreateTripletPools: requires `Compatible` (each mask exactly the resolution of its embedding field), for the same reason; `PoolsContents` and `PoolsCardinality` require it too.
- Tensors: grids need not be rectangular; statements that need a rectangular mask require one (`IsRect`).
- The data loader is a finite sequence of samples; the shuffling and batching it does are not modelled.
