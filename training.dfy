/**
 * The control skeleton of `train` and `validate`: per sample, run the backbone, build the
 * triplet pools, evaluate the two losses, and (training only) take an optimizer step; skip,
 * accumulate, log and checkpoint on `train.py`'s cadence; stop validation after the capped
 * sample. The backbone, the losses and the optimizer step are parameters (`Collaborators`);
 * what the loops do to the outside world is recorded as a trace of `Event`s.
 */
module Training {
  import opened Wrappers
  import opened Tensors
  import opened TripletPools

  /** `sum / b`, as the log lines print it. */
  function Average(sum: real, b: nat): real
    requires b > 0
  {
    sum / (b as real)
  }

  /** One item of the data loader: the three frames (opaque) and their annotation masks. */
  datatype Sample<F> = Sample(frames: F, anchor: Grid<bool>, f1: Grid<bool>, f2: Grid<bool>)

  /** The backbone's output for one sample: the embedding fields of A, F1 and F2. */
  datatype Embeddings<V> = Embeddings(a: Grid<V>, f1: Grid<V>, f2: Grid<V>)

  /** `model.train()` followed by `freeze_feature_extraction()`, or `model.eval()`. */
  datatype Mode = TrainFrozen | Eval

  /**
   * The network: its (opaque) parameters and the mode it is in. `P` stands for the weights
   * together with the optimizer's state (SGD with momentum keeps a velocity buffer per weight).
   */
  datatype Net<P> = Net(params: P, mode: Mode)

  /**
   * The collaborators the loops call: the backbone `model(frames)`, the training loss
   * `loss_fn(anchors, positives, negatives).item()`, the validation loss, and one
   * `zero_grad(); backward(); optimizer.step()` on a sample, giving the new weights and
   * optimizer state.
   */
  datatype Collaborators<!P, !F, !V> = Collaborators(
    embed: (Net<P>, F) -> Embeddings<V>,
    loss: (seq<V>, seq<V>, seq<V>) -> real,
    valLoss: (seq<V>, seq<V>, seq<V>) -> real,
    step: (Net<P>, Sample<F>) -> P)

  datatype Kind = SkipKind | StepKind | TrainLogKind | CheckpointKind | EvalKind | ValLogKind

  /**
   * What happens at batch number `batch` (Python's `idx + 1` in `train.py`): a skipped sample (debug
   * message), an optimizer step with the losses it used and the mode the network was in, a
   * training log line, a checkpoint save, a validation loss evaluation, and a validation log
   * line. A log line holds the two accumulators at the time it is printed; the averages it
   * prints are `AvgFg`, `AvgBg` and `AvgTotal`.
   */
  datatype Event =
    | Skipped(batch: nat)
    | Step(batch: nat, mode: Mode, fgLoss: real, bgLoss: real)
    | TrainLog(epoch: nat, batch: nat, aggFg: real, aggBg: real)
    | Checkpoint(epoch: nat, batch: nat)
    | Evaluated(batch: nat, fgLoss: real, bgLoss: real)
    | ValLog(epoch: nat, batch: nat, aggFg: real, aggBg: real)
  {
    function Kind(): Kind
    {
      match this
      case Skipped(_) => SkipKind
      case Step(_, _, _, _) => StepKind
      case TrainLog(_, _, _, _) => TrainLogKind
      case Checkpoint(_, _) => CheckpointKind
      case Evaluated(_, _, _) => EvalKind
      case ValLog(_, _, _, _) => ValLogKind
    }

    /** The foreground average a log line prints: its foreground sum over its batch number. */
    function AvgFg(): real
      requires (TrainLog? || ValLog?) && batch > 0
    {
      Average(aggFg, batch)
    }

    /** The background average a log line prints. */
    function AvgBg(): real
      requires (TrainLog? || ValLog?) && batch > 0
    {
      Average(aggBg, batch)
    }

    /** The total average a log line prints: both sums together over the batch number. */
    function AvgTotal(): real
      requires (TrainLog? || ValLog?) && batch > 0
    {
      Average(aggFg + aggBg, batch)
    }
  }

  /** The loop variables: the network, `agg_fg_loss`, `agg_bg_loss`, and the events so far. */
  datatype LoopState<P> = LoopState(net: Net<P>, aggFg: real, aggBg: real, trace: seq<Event>)

  // ---------------------------------------------------------------------------
  // Reading a trace

  // Each reading is defined on the first `n` events of a trace, by recursion on `n`, and on the
  // whole trace with `n == |t|`.

  /** The (kind, batch) pairs of the first `n` events of `t`. */
  function MarksTo(t: seq<Event>, n: nat): set<(Kind, int)>
    requires n <= |t|
  {
    if n == 0 then {} else MarksTo(t, n - 1) + {(t[n - 1].Kind(), t[n - 1].batch)}
  }

  /** The (kind, batch) pairs of the events of `t`. */
  function Marks(t: seq<Event>): set<(Kind, int)>
  {
    MarksTo(t, |t|)
  }

  function FgOf(e: Event): real
  {
    if e.Step? || e.Evaluated? then e.fgLoss else 0.0
  }

  function BgOf(e: Event): real
  {
    if e.Step? || e.Evaluated? then e.bgLoss else 0.0
  }

  /** The sum of the foreground losses the first `n` events of `t` record. */
  function FgSumTo(t: seq<Event>, n: nat): real
    requires n <= |t|
  {
    if n == 0 then 0.0 else FgSumTo(t, n - 1) + FgOf(t[n - 1])
  }

  /** The sum of the background losses the first `n` events of `t` record. */
  function BgSumTo(t: seq<Event>, n: nat): real
    requires n <= |t|
  {
    if n == 0 then 0.0 else BgSumTo(t, n - 1) + BgOf(t[n - 1])
  }

  /** The sum of the foreground losses the events of `t` record. */
  function FgSum(t: seq<Event>): real
  {
    FgSumTo(t, |t|)
  }

  /** The sum of the background losses the events of `t` record. */
  function BgSum(t: seq<Event>): real
  {
    BgSumTo(t, |t|)
  }

  /**
   * The mode after the first `n` events of `t`, from `m0`: `m0` until a checkpoint,
   * train-and-frozen after.
   */
  function ModeTo(m0: Mode, t: seq<Event>, n: nat): Mode
    requires n <= |t|
  {
    if n == 0 then m0
    else if t[n - 1].Checkpoint? then TrainFrozen
    else ModeTo(m0, t, n - 1)
  }

  /** The mode after the events of `t`, from `m0`. */
  function ModeAfter(m0: Mode, t: seq<Event>): Mode
  {
    ModeTo(m0, t, |t|)
  }

  // ---------------------------------------------------------------------------
  // One sample

  /** The backbone returns fields at each mask's resolution, whatever the weights and mode. */
  ghost predicate Fits<P(!new), F, V>(c: Collaborators<P, F, V>, x: Sample<F>)
  {
    forall n: Net<P> ::
      Compatible(x.anchor, x.f1, x.f2, c.embed(n, x.frames).a, c.embed(n, x.frames).f1, c.embed(n, x.frames).f2)
  }

  ghost predicate AllFit<P(!new), F, V>(c: Collaborators<P, F, V>, samples: seq<Sample<F>>)
  {
    forall i :: 0 <= i < |samples| ==> Fits(c, samples[i])
  }

  /** The sample's masks cannot give triplets. */
  ghost predicate DegenerateSample<F>(x: Sample<F>)
  {
    Degenerate(x.anchor, x.f1, x.f2)
  }

  /** `create_triplet_pools(sample, model(sample_frames))`. */
  function PoolsOf<P(!new), F, V>(c: Collaborators<P, F, V>, n: Net<P>, x: Sample<F>): Option<Pools<V>>
    requires Fits(c, x)
  {
    var e := c.embed(n, x.frames);
    CreateTripletPools(x.anchor, x.f1, x.f2, e.a, e.f1, e.f2)
  }

  /** Whether a sample is skipped depends on its masks only, not on the weights or the mode. */
  lemma PoolsOfNone<P(!new), F, V>(c: Collaborators<P, F, V>, n: Net<P>, x: Sample<F>)
    requires Fits(c, x)
    ensures PoolsOf(c, n, x).None? <==> DegenerateSample(x)
  {
  }

  /** A training or validation log line. */
  predicate IsLog(e: Event)
  {
    e.TrainLog? || e.ValLog?
  }

  /** If `e` is a log line, it carries the loss sums `fg` and `bg` and a positive batch number. */
  predicate LogAverages(e: Event, fg: real, bg: real)
  {
    IsLog(e) ==>
      && e.batch >= 1
      && e.aggFg == fg
      && e.aggBg == bg
  }

  /** Every log line among the first `n` events of `t` carries the sums of the losses recorded before it. */
  predicate AveragedTo(t: seq<Event>, n: nat)
    requires n <= |t|
  {
    n == 0 || (AveragedTo(t, n - 1) && LogAverages(t[n - 1], FgSumTo(t, n - 1), BgSumTo(t, n - 1)))
  }

  /** Every log line of `t` carries the sums of the losses recorded before it. */
  predicate AveragedLogs(t: seq<Event>)
  {
    AveragedTo(t, |t|)
  }

  /** Every optimizer step among the first `n` events of `t` records the mode left, from `m0`, by the events before it. */
  predicate StepModesTo(m0: Mode, t: seq<Event>, n: nat)
    requires n <= |t|
  {
    n == 0 || (StepModesTo(m0, t, n - 1) && (t[n - 1].Step? ==> t[n - 1].mode == ModeTo(m0, t, n - 1)))
  }

  /** Every optimizer step of `t` records the mode left, from `m0`, by the events before it. */
  predicate StepModes(m0: Mode, t: seq<Event>)
  {
    StepModesTo(m0, t, |t|)
  }

  /** Every reading of the first `k` events depends on those events only. */
  lemma {:induction false} SamePrefix(m0: Mode, t: seq<Event>, t': seq<Event>, k: nat)
    requires k <= |t| && k <= |t'| && forall i :: 0 <= i < k ==> t[i] == t'[i]
    ensures MarksTo(t, k) == MarksTo(t', k)
    ensures FgSumTo(t, k) == FgSumTo(t', k) && BgSumTo(t, k) == BgSumTo(t', k)
    ensures ModeTo(m0, t, k) == ModeTo(m0, t', k)
    ensures AveragedTo(t, k) == AveragedTo(t', k)
    ensures StepModesTo(m0, t, k) == StepModesTo(m0, t', k)
  {
    if k > 0 {
      SamePrefix(m0, t, t', k - 1);
      assert t[k - 1] == t'[k - 1];
    }
  }

  // What appending one event does to each reading of a trace.

  lemma AppendMarks(t: seq<Event>, e: Event)
    ensures Marks(t + [e]) == Marks(t) + {(e.Kind(), e.batch)}
  {
    SamePrefix(Eval, t, t + [e], |t|);
  }

  lemma AppendSums(t: seq<Event>, e: Event)
    ensures FgSum(t + [e]) == FgSum(t) + FgOf(e) && BgSum(t + [e]) == BgSum(t) + BgOf(e)
  {
    SamePrefix(Eval, t, t + [e], |t|);
  }

  lemma AppendMode(m0: Mode, t: seq<Event>, e: Event)
    ensures ModeAfter(m0, t + [e]) == if e.Checkpoint? then TrainFrozen else ModeAfter(m0, t)
  {
    SamePrefix(m0, t, t + [e], |t|);
  }

  lemma AppendAveraged(t: seq<Event>, e: Event)
    ensures AveragedLogs(t + [e]) <==> AveragedLogs(t) && LogAverages(e, FgSum(t), BgSum(t))
  {
    SamePrefix(Eval, t, t + [e], |t|);
  }

  lemma AppendStepModes(m0: Mode, t: seq<Event>, e: Event)
    ensures StepModes(m0, t + [e]) <==> StepModes(m0, t) && (e.Step? ==> e.mode == ModeAfter(m0, t))
  {
    SamePrefix(m0, t, t + [e], |t|);
  }

  /** The indexed reading of `AveragedTo`: the event at position `j < n` has the sums of the `j` before it. */
  lemma {:induction false} AveragedAt(t: seq<Event>, n: nat, j: nat)
    requires n <= |t| && AveragedTo(t, n) && j < n
    ensures LogAverages(t[j], FgSumTo(t, j), BgSumTo(t, j))
  {
    if j < n - 1 {
      AveragedAt(t, n - 1, j);
    }
  }

  /** Every log line of a trace with `AveragedLogs` carries the loss sums of the events before it. */
  lemma LogLines(t: seq<Event>)
    requires AveragedLogs(t)
    ensures forall j :: 0 <= j < |t| && IsLog(t[j]) ==>
              t[j].batch >= 1 && t[j].aggFg == FgSumTo(t, j) && t[j].aggBg == BgSumTo(t, j)
  {
    forall j | 0 <= j < |t| && IsLog(t[j])
      ensures t[j].batch >= 1 && t[j].aggFg == FgSumTo(t, j) && t[j].aggBg == BgSumTo(t, j)
    {
      AveragedAt(t, |t|, j);
    }
  }

  /** The indexed reading of `StepModesTo`: the step at position `j < n` ran in the mode the `j` before it leave. */
  lemma {:induction false} StepModeAt(m0: Mode, t: seq<Event>, n: nat, j: nat)
    requires n <= |t| && StepModesTo(m0, t, n) && j < n && t[j].Step?
    ensures t[j].mode == ModeTo(m0, t, j)
  {
    if j < n - 1 {
      StepModeAt(m0, t, n - 1, j);
    }
  }

  /** Every optimizer step of a trace with `StepModes` ran in the mode the events before it leave. */
  lemma StepModesAt(m0: Mode, t: seq<Event>)
    requires StepModes(m0, t)
    ensures forall j :: 0 <= j < |t| && t[j].Step? ==> t[j].mode == ModeTo(m0, t, j)
  {
    forall j | 0 <= j < |t| && t[j].Step? ensures t[j].mode == ModeTo(m0, t, j) {
      StepModeAt(m0, t, |t|, j);
    }
  }

  // ---------------------------------------------------------------------------
  // The bookkeeping of the loops, as a function of each sample's outcome

  /** What a sample comes to in a loop: no pools, or the foreground and background losses. */
  datatype Outcome = Skip | Keep(fg: real, bg: real)

  /** The loop variables besides the weights: `agg_fg_loss`, `agg_bg_loss`, the mode, the events. */
  datatype Ledger = Ledger(aggFg: real, aggBg: real, mode: Mode, trace: seq<Event>)

  /** `t`, followed by `e` when `due`. */
  function AppendIf(t: seq<Event>, due: bool, e: Event): seq<Event>
  {
    if due then t + [e] else t
  }

  /**
   * The trace `t` after a kept training sample at batch `b`: the optimizer step, then the log
   * of the accumulators when due, then the checkpoint when due.
   */
  function KeptTrace(t: seq<Event>, epoch: nat, b: nat, mode: Mode, fg: real, bg: real, aggFg: real, aggBg: real,
                     logDue: bool, saveDue: bool): seq<Event>
    requires b > 0
  {
    AppendIf(AppendIf(t + [Step(b, mode, fg, bg)], logDue, TrainLog(epoch + 1, b, aggFg, aggBg)),
             saveDue, Checkpoint(epoch + 1, b))
  }

  /**
   * One iteration of `train` on the bookkeeping, for batch number `b`: a skipped sample only
   * leaves the debug message; a kept one adds its losses to the accumulators, records the step,
   * logs when `logDue`, and saves a checkpoint (leaving the network in train-and-frozen mode)
   * when `saveDue`. `Book` sets the two flags to "`b` is a multiple of the log interval" and
   * "`b` is a multiple of the checkpoint interval".
   */
  function BookStep(epoch: nat, b: nat, l: Ledger, o: Outcome, logDue: bool, saveDue: bool): Ledger
    requires b > 0
  {
    match o
    case Skip => l.(trace := l.trace + [Skipped(b)])
    case Keep(fg, bg) =>
      var aggFg, aggBg := l.aggFg + fg, l.aggBg + bg;
      Ledger(aggFg, aggBg, if saveDue then TrainFrozen else l.mode,
             KeptTrace(l.trace, epoch, b, l.mode, fg, bg, aggFg, aggBg, logDue, saveDue))
  }

  /** The bookkeeping of `train` after samples with outcomes `outs`, entered in mode `m0`. */
  function Book(logInterval: int, checkpointInterval: int, epoch: nat, m0: Mode, outs: seq<Outcome>): Ledger
    requires logInterval != 0 && checkpointInterval != 0
    decreases |outs|
  {
    if outs == [] then Ledger(0.0, 0.0, m0, [])
    else
      var b := |outs|;
      BookStep(epoch, b, Book(logInterval, checkpointInterval, epoch, m0, outs[..b - 1]), outs[b - 1],
               b % logInterval == 0, b % checkpointInterval == 0)
  }

  /** A kept sample's events add its two step losses to the trace's sums. */
  lemma KeptSums(t: seq<Event>, epoch: nat, b: nat, mode: Mode, fg: real, bg: real,
                 aggFg: real, aggBg: real, logDue: bool, saveDue: bool)
    requires b > 0
    ensures var t' := KeptTrace(t, epoch, b, mode, fg, bg, aggFg, aggBg, logDue, saveDue);
            FgSum(t') == FgSum(t) + fg && BgSum(t') == BgSum(t) + bg
  {
    var t1 := t + [Step(b, mode, fg, bg)];
    var t2 := AppendIf(t1, logDue, TrainLog(epoch + 1, b, aggFg, aggBg));
    AppendSums(t, Step(b, mode, fg, bg));
    if logDue {
      AppendSums(t1, TrainLog(epoch + 1, b, aggFg, aggBg));
    }
    if saveDue {
      AppendSums(t2, Checkpoint(epoch + 1, b));
    }
  }

  /** A kept sample's events leave the mode alone unless a checkpoint is due; then it is train-and-frozen. */
  lemma KeptMode(m0: Mode, t: seq<Event>, epoch: nat, b: nat, mode: Mode, fg: real, bg: real,
                 aggFg: real, aggBg: real, logDue: bool, saveDue: bool)
    requires b > 0
    ensures var t' := KeptTrace(t, epoch, b, mode, fg, bg, aggFg, aggBg, logDue, saveDue);
            ModeAfter(m0, t') == if saveDue then TrainFrozen else ModeAfter(m0, t)
  {
    var t1 := t + [Step(b, mode, fg, bg)];
    var t2 := AppendIf(t1, logDue, TrainLog(epoch + 1, b, aggFg, aggBg));
    AppendMode(m0, t, Step(b, mode, fg, bg));
    if logDue {
      AppendMode(m0, t1, TrainLog(epoch + 1, b, aggFg, aggBg));
    }
    if saveDue {
      AppendMode(m0, t2, Checkpoint(epoch + 1, b));
    }
  }

  /** A kept sample's events mark its step, its log when due and its checkpoint when due. */
  lemma KeptMarks(t: seq<Event>, epoch: nat, b: nat, mode: Mode, fg: real, bg: real,
                  aggFg: real, aggBg: real, logDue: bool, saveDue: bool)
    requires b > 0
    ensures var t' := KeptTrace(t, epoch, b, mode, fg, bg, aggFg, aggBg, logDue, saveDue);
            Marks(t') == Marks(t) + {(StepKind, b)} + (if logDue then {(TrainLogKind, b)} else {})
                            + (if saveDue then {(CheckpointKind, b)} else {})
  {
    var t1 := t + [Step(b, mode, fg, bg)];
    var t2 := AppendIf(t1, logDue, TrainLog(epoch + 1, b, aggFg, aggBg));
    AppendMarks(t, Step(b, mode, fg, bg));
    if logDue {
      AppendMarks(t1, TrainLog(epoch + 1, b, aggFg, aggBg));
    }
    if saveDue {
      AppendMarks(t2, Checkpoint(epoch + 1, b));
    }
  }

  /** A kept sample whose accumulators extend the trace's sums by its losses keeps `AveragedLogs`. */
  lemma KeptAveraged(t: seq<Event>, epoch: nat, b: nat, mode: Mode, fg: real, bg: real,
                     aggFg: real, aggBg: real, logDue: bool, saveDue: bool)
    requires b > 0
    requires AveragedLogs(t) && aggFg == FgSum(t) + fg && aggBg == BgSum(t) + bg
    ensures var t' := KeptTrace(t, epoch, b, mode, fg, bg, aggFg, aggBg, logDue, saveDue);
            AveragedLogs(t')
  {
    var t1 := t + [Step(b, mode, fg, bg)];
    var t2 := AppendIf(t1, logDue, TrainLog(epoch + 1, b, aggFg, aggBg));
    AppendAveraged(t, Step(b, mode, fg, bg));
    AppendSums(t, Step(b, mode, fg, bg));
    if logDue {
      AppendAveraged(t1, TrainLog(epoch + 1, b, aggFg, aggBg));
    }
    if saveDue {
      AppendAveraged(t2, Checkpoint(epoch + 1, b));
    }
  }

  /** A kept sample whose step records the mode `t` leaves keeps `StepModes`. */
  lemma KeptStepModes(m0: Mode, t: seq<Event>, epoch: nat, b: nat, mode: Mode, fg: real, bg: real,
                      aggFg: real, aggBg: real, logDue: bool, saveDue: bool)
    requires b > 0
    requires StepModes(m0, t) && mode == ModeAfter(m0, t)
    ensures var t' := KeptTrace(t, epoch, b, mode, fg, bg, aggFg, aggBg, logDue, saveDue);
            StepModes(m0, t')
  {
    var t1 := t + [Step(b, mode, fg, bg)];
    var t2 := AppendIf(t1, logDue, TrainLog(epoch + 1, b, aggFg, aggBg));
    AppendStepModes(m0, t, Step(b, mode, fg, bg));
    if logDue {
      AppendStepModes(m0, t1, TrainLog(epoch + 1, b, aggFg, aggBg));
    }
    if saveDue {
      AppendStepModes(m0, t2, Checkpoint(epoch + 1, b));
    }
  }

  /** One sample keeps the accumulators equal to the sums of the step losses in the trace. */
  lemma SumsStep(epoch: nat, b: nat, l: Ledger, o: Outcome, logDue: bool, saveDue: bool)
    requires b > 0
    requires l.aggFg == FgSum(l.trace) && l.aggBg == BgSum(l.trace)
    ensures var l' := BookStep(epoch, b, l, o, logDue, saveDue);
            l'.aggFg == FgSum(l'.trace) && l'.aggBg == BgSum(l'.trace)
  {
    match o
    case Skip => AppendSums(l.trace, Skipped(b));
    case Keep(fg, bg) =>
      KeptSums(l.trace, epoch, b, l.mode, fg, bg, l.aggFg + fg, l.aggBg + bg, logDue, saveDue);
  }

  /** Along `train`, the accumulators are the sums of the step losses the trace records. */
  lemma {:induction false} BookAccumulators(logInterval: int, checkpointInterval: int, epoch: nat, m0: Mode,
                                            outs: seq<Outcome>)
    requires logInterval != 0 && checkpointInterval != 0
    ensures var l := Book(logInterval, checkpointInterval, epoch, m0, outs);
            l.aggFg == FgSum(l.trace) && l.aggBg == BgSum(l.trace)
    decreases |outs|
  {
    if outs != [] {
      var init := outs[..|outs| - 1];
      BookAccumulators(logInterval, checkpointInterval, epoch, m0, init);
      SumsStep(epoch, |outs|, Book(logInterval, checkpointInterval, epoch, m0, init), outs[|outs| - 1],
               |outs| % logInterval == 0, |outs| % checkpointInterval == 0);
    }
  }

  /** One sample keeps the ledger's mode equal to the mode its trace leaves. */
  lemma ModeStep(m0: Mode, epoch: nat, b: nat, l: Ledger, o: Outcome, logDue: bool, saveDue: bool)
    requires b > 0
    requires l.mode == ModeAfter(m0, l.trace)
    ensures var l' := BookStep(epoch, b, l, o, logDue, saveDue);
            l'.mode == ModeAfter(m0, l'.trace)
  {
    match o
    case Skip => AppendMode(m0, l.trace, Skipped(b));
    case Keep(fg, bg) =>
      KeptMode(m0, l.trace, epoch, b, l.mode, fg, bg, l.aggFg + fg, l.aggBg + bg, logDue, saveDue);
  }

  /** Along `train`, the mode is the entry mode until the first checkpoint and train-and-frozen after it. */
  lemma {:induction false} BookMode(logInterval: int, checkpointInterval: int, epoch: nat, m0: Mode,
                                    outs: seq<Outcome>)
    requires logInterval != 0 && checkpointInterval != 0
    ensures var l := Book(logInterval, checkpointInterval, epoch, m0, outs);
            l.mode == ModeAfter(m0, l.trace)
    decreases |outs|
  {
    if outs != [] {
      var init := outs[..|outs| - 1];
      BookMode(logInterval, checkpointInterval, epoch, m0, init);
      ModeStep(m0, epoch, |outs|, Book(logInterval, checkpointInterval, epoch, m0, init), outs[|outs| - 1],
               |outs| % logInterval == 0, |outs| % checkpointInterval == 0);
    }
  }

  /** One sample keeps the logs averaged, given accumulators that hold the sums so far. */
  lemma AveragedStep(epoch: nat, b: nat, l: Ledger, o: Outcome, logDue: bool, saveDue: bool)
    requires b > 0
    requires AveragedLogs(l.trace) && l.aggFg == FgSum(l.trace) && l.aggBg == BgSum(l.trace)
    ensures AveragedLogs(BookStep(epoch, b, l, o, logDue, saveDue).trace)
  {
    match o
    case Skip => AppendAveraged(l.trace, Skipped(b));
    case Keep(fg, bg) =>
      KeptAveraged(l.trace, epoch, b, l.mode, fg, bg, l.aggFg + fg, l.aggBg + bg, logDue, saveDue);
  }

  /** Along `train`, every log reports the sums of the step losses before it over its batch number. */
  lemma {:induction false} BookAveraged(logInterval: int, checkpointInterval: int, epoch: nat, m0: Mode,
                                        outs: seq<Outcome>)
    requires logInterval != 0 && checkpointInterval != 0
    ensures AveragedLogs(Book(logInterval, checkpointInterval, epoch, m0, outs).trace)
    decreases |outs|
  {
    if outs != [] {
      var init := outs[..|outs| - 1];
      BookAveraged(logInterval, checkpointInterval, epoch, m0, init);
      BookAccumulators(logInterval, checkpointInterval, epoch, m0, init);
      AveragedStep(epoch, |outs|, Book(logInterval, checkpointInterval, epoch, m0, init), outs[|outs| - 1],
                   |outs| % logInterval == 0, |outs| % checkpointInterval == 0);
    }
  }

  /** One sample keeps every optimizer step's mode the one the events before it left. */
  lemma StepModesStep(m0: Mode, epoch: nat, b: nat, l: Ledger, o: Outcome, logDue: bool, saveDue: bool)
    requires b > 0
    requires StepModes(m0, l.trace) && l.mode == ModeAfter(m0, l.trace)
    ensures StepModes(m0, BookStep(epoch, b, l, o, logDue, saveDue).trace)
  {
    match o
    case Skip => AppendStepModes(m0, l.trace, Skipped(b));
    case Keep(fg, bg) =>
      KeptStepModes(m0, l.trace, epoch, b, l.mode, fg, bg, l.aggFg + fg, l.aggBg + bg, logDue, saveDue);
  }

  /** Along `train`, every optimizer step records the mode the events before it left. */
  lemma {:induction false} BookStepModes(logInterval: int, checkpointInterval: int, epoch: nat, m0: Mode,
                                         outs: seq<Outcome>)
    requires logInterval != 0 && checkpointInterval != 0
    ensures StepModes(m0, Book(logInterval, checkpointInterval, epoch, m0, outs).trace)
    decreases |outs|
  {
    if outs != [] {
      var init := outs[..|outs| - 1];
      BookStepModes(logInterval, checkpointInterval, epoch, m0, init);
      BookMode(logInterval, checkpointInterval, epoch, m0, init);
      StepModesStep(m0, epoch, |outs|, Book(logInterval, checkpointInterval, epoch, m0, init), outs[|outs| - 1],
                    |outs| % logInterval == 0, |outs| % checkpointInterval == 0);
    }
  }

  /**
   * The marks `train` leaves for samples with outcomes `outs`: a skip exactly for skipped samples,
   * a step exactly for kept ones, a log and a checkpoint exactly for kept samples at the multiples
   * of their intervals, and nothing of validation.
   */
  ghost predicate TrainMarks(m: set<(Kind, int)>, outs: seq<Outcome>, logInterval: int, checkpointInterval: int)
    requires logInterval != 0 && checkpointInterval != 0
  {
    forall b ::
      && ((SkipKind, b) in m <==> 1 <= b <= |outs| && outs[b - 1].Skip?)
      && ((StepKind, b) in m <==> 1 <= b <= |outs| && outs[b - 1].Keep?)
      && ((TrainLogKind, b) in m <==> 1 <= b <= |outs| && outs[b - 1].Keep? && b % logInterval == 0)
      && ((CheckpointKind, b) in m <==> 1 <= b <= |outs| && outs[b - 1].Keep? && b % checkpointInterval == 0)
      && (EvalKind, b) !in m && (ValLogKind, b) !in m
  }

  /** Adding the marks of sample `b` to marks that fit the first `b - 1` outcomes fits all `b`. */
  lemma TrainMarksStep(m: set<(Kind, int)>, m': set<(Kind, int)>, outs: seq<Outcome>, o: Outcome, b: nat,
                       logInterval: int, checkpointInterval: int)
    requires logInterval != 0 && checkpointInterval != 0
    requires b == |outs| + 1 && TrainMarks(m, outs, logInterval, checkpointInterval)
    requires o.Skip? ==> m' == m + {(SkipKind, b)}
    requires o.Keep? ==> m' == m + {(StepKind, b)} + (if b % logInterval == 0 then {(TrainLogKind, b)} else {})
                                 + (if b % checkpointInterval == 0 then {(CheckpointKind, b)} else {})
    ensures TrainMarks(m', outs + [o], logInterval, checkpointInterval)
  {
    var outs' := outs + [o];
    forall b' ensures
      && ((SkipKind, b') in m' <==> 1 <= b' <= |outs'| && outs'[b' - 1].Skip?)
      && ((StepKind, b') in m' <==> 1 <= b' <= |outs'| && outs'[b' - 1].Keep?)
      && ((TrainLogKind, b') in m' <==> 1 <= b' <= |outs'| && outs'[b' - 1].Keep? && b' % logInterval == 0)
      && ((CheckpointKind, b') in m' <==> 1 <= b' <= |outs'| && outs'[b' - 1].Keep? && b' % checkpointInterval == 0)
      && (EvalKind, b') !in m' && (ValLogKind, b') !in m'
    {
      if 1 <= b' < b {
        assert outs'[b' - 1] == outs[b' - 1];
      }
    }
  }

  /** The marks one sample adds to the trace. */
  lemma MarksStep(epoch: nat, b: nat, l: Ledger, o: Outcome, logDue: bool, saveDue: bool)
    requires b > 0
    ensures var m, m' := Marks(l.trace), Marks(BookStep(epoch, b, l, o, logDue, saveDue).trace);
            && (o.Skip? ==> m' == m + {(SkipKind, b)})
            && (o.Keep? ==> m' == m + {(StepKind, b)} + (if logDue then {(TrainLogKind, b)} else {})
                                    + (if saveDue then {(CheckpointKind, b)} else {}))
  {
    match o
    case Skip => AppendMarks(l.trace, Skipped(b));
    case Keep(fg, bg) =>
      KeptMarks(l.trace, epoch, b, l.mode, fg, bg, l.aggFg + fg, l.aggBg + bg, logDue, saveDue);
  }

  /** Which events `train` emits for which batch numbers, in terms of the samples' outcomes. */
  lemma {:induction false} BookMarks(logInterval: int, checkpointInterval: int, epoch: nat, m0: Mode,
                                     outs: seq<Outcome>)
    requires logInterval != 0 && checkpointInterval != 0
    ensures TrainMarks(Marks(Book(logInterval, checkpointInterval, epoch, m0, outs).trace), outs,
                       logInterval, checkpointInterval)
    decreases |outs|
  {
    if outs != [] {
      var init, b := outs[..|outs| - 1], |outs|;
      BookMarks(logInterval, checkpointInterval, epoch, m0, init);
      var l := Book(logInterval, checkpointInterval, epoch, m0, init);
      var o := outs[b - 1];
      MarksStep(epoch, b, l, o, b % logInterval == 0, b % checkpointInterval == 0);
      assert outs == init + [o];
      TrainMarksStep(Marks(l.trace), Marks(Book(logInterval, checkpointInterval, epoch, m0, outs).trace),
                     init, o, b, logInterval, checkpointInterval);
    }
  }

  /**
   * One sample only appends to the trace: the events before it stay in place, and every event
   * it adds (at least one) has its batch number `b`; a log among them is the one `train` prints
   * for `b`, over the accumulators after the sample.
   */
  lemma BookStepExtends(epoch: nat, b: nat, l: Ledger, o: Outcome, logDue: bool, saveDue: bool)
    requires b > 0
    ensures var t, t' := l.trace, BookStep(epoch, b, l, o, logDue, saveDue).trace;
            && |t| < |t'|
            && (forall j :: 0 <= j < |t| ==> t'[j] == t[j])
            && (forall j :: |t| <= j < |t'| ==> t'[j].batch == b)
            && (forall j :: |t| <= j < |t'| && IsLog(t'[j]) ==>
                  o.Keep? && logDue && t'[j] == TrainLog(epoch + 1, b, l.aggFg + o.fg, l.aggBg + o.bg))
  {
    match o
    case Skip =>
    case Keep(fg, bg) =>
      var t1 := l.trace + [Step(b, l.mode, fg, bg)];
      var t2 := AppendIf(t1, logDue, TrainLog(epoch + 1, b, l.aggFg + fg, l.aggBg + bg));
      var t3 := AppendIf(t2, saveDue, Checkpoint(epoch + 1, b));
      assert forall j :: 0 <= j < |t2| ==> t3[j] == t2[j];
      assert forall j :: 0 <= j < |t1| ==> t2[j] == t1[j];
  }

  /** The foreground losses of the kept samples among the first `n` outcomes, added up. */
  function KeptFgTo(outs: seq<Outcome>, n: nat): real
    requires n <= |outs|
  {
    if n == 0 then 0.0 else KeptFgTo(outs, n - 1) + (if outs[n - 1].Keep? then outs[n - 1].fg else 0.0)
  }

  /** The background losses of the kept samples among the first `n` outcomes, added up. */
  function KeptBgTo(outs: seq<Outcome>, n: nat): real
    requires n <= |outs|
  {
    if n == 0 then 0.0 else KeptBgTo(outs, n - 1) + (if outs[n - 1].Keep? then outs[n - 1].bg else 0.0)
  }

  /** The kept-loss sums of the first `k` outcomes depend on those outcomes only. */
  lemma {:induction false} KeptSamePrefix(outs: seq<Outcome>, outs': seq<Outcome>, k: nat)
    requires k <= |outs| && k <= |outs'| && forall i :: 0 <= i < k ==> outs[i] == outs'[i]
    ensures forall n :: 0 <= n <= k ==> KeptFgTo(outs, n) == KeptFgTo(outs', n) && KeptBgTo(outs, n) == KeptBgTo(outs', n)
  {
    if k > 0 {
      KeptSamePrefix(outs, outs', k - 1);
      assert outs[k - 1] == outs'[k - 1];
      assert KeptFgTo(outs, k - 1) == KeptFgTo(outs', k - 1) && KeptBgTo(outs, k - 1) == KeptBgTo(outs', k - 1);
    }
  }

  /** Every log line of `t` at batch `b` carries the kept losses of the first `b` of the `outs`. */
  ghost predicate LogsCarry(t: seq<Event>, outs: seq<Outcome>)
  {
    forall j :: 0 <= j < |t| && IsLog(t[j]) ==>
      && 1 <= t[j].batch <= |outs|
      && t[j].aggFg == KeptFgTo(outs, t[j].batch)
      && t[j].aggBg == KeptBgTo(outs, t[j].batch)
  }

  /** The last of the `outs` keeps `LogsCarry` and the accumulators equal to the kept-loss sums. */
  lemma CarryStep(epoch: nat, l: Ledger, init: seq<Outcome>, outs: seq<Outcome>, logDue: bool, saveDue: bool)
    requires |init| + 1 == |outs| && forall i :: 0 <= i < |init| ==> init[i] == outs[i]
    requires LogsCarry(l.trace, init) && l.aggFg == KeptFgTo(init, |init|) && l.aggBg == KeptBgTo(init, |init|)
    ensures var l' := BookStep(epoch, |outs|, l, outs[|outs| - 1], logDue, saveDue);
            && LogsCarry(l'.trace, outs)
            && l'.aggFg == KeptFgTo(outs, |outs|) && l'.aggBg == KeptBgTo(outs, |outs|)
  {
    var b := |outs|;
    var t, t' := l.trace, BookStep(epoch, b, l, outs[b - 1], logDue, saveDue).trace;
    KeptSamePrefix(init, outs, |init|);
    BookStepExtends(epoch, b, l, outs[b - 1], logDue, saveDue);
    forall j | 0 <= j < |t'| && IsLog(t'[j])
      ensures && 1 <= t'[j].batch <= b
              && t'[j].aggFg == KeptFgTo(outs, t'[j].batch) && t'[j].aggBg == KeptBgTo(outs, t'[j].batch)
    {
      if j < |t| {
        assert t'[j] == t[j];
      }
    }
  }

  /** Along `train`, the accumulators and every log line at batch `b` hold the kept losses of samples `1..b`. */
  lemma {:induction false} BookLogSums(logInterval: int, checkpointInterval: int, epoch: nat, m0: Mode,
                                       outs: seq<Outcome>)
    requires logInterval != 0 && checkpointInterval != 0
    ensures var l := Book(logInterval, checkpointInterval, epoch, m0, outs);
            && LogsCarry(l.trace, outs)
            && l.aggFg == KeptFgTo(outs, |outs|) && l.aggBg == KeptBgTo(outs, |outs|)
    decreases |outs|
  {
    if outs != [] {
      var init := outs[..|outs| - 1];
      BookLogSums(logInterval, checkpointInterval, epoch, m0, init);
      CarryStep(epoch, Book(logInterval, checkpointInterval, epoch, m0, init), init, outs,
                |outs| % logInterval == 0, |outs| % checkpointInterval == 0);
    }
  }

  // ---------------------------------------------------------------------------
  // train

  /** `create_triplet_pools` on the backbone's output, then `loss` on the foreground and background triples. */
  function OutcomeOf<P(!new), F, V>(c: Collaborators<P, F, V>, loss: (seq<V>, seq<V>, seq<V>) -> real,
                                    n: Net<P>, x: Sample<F>): Outcome
    requires Fits(c, x)
  {
    match PoolsOf(c, n, x)
    case None => Skip
    case Some(p) => Keep(loss(p.fgAnchor, p.fgPositive, p.fgNegative), loss(p.bgAnchor, p.bgPositive, p.bgNegative))
  }

  /** A sample is skipped exactly when its masks are degenerate, whatever the weights, mode or loss. */
  lemma OutcomeSkip<P(!new), F, V>(c: Collaborators<P, F, V>, loss: (seq<V>, seq<V>, seq<V>) -> real,
                                   n: Net<P>, x: Sample<F>)
    requires Fits(c, x)
    ensures OutcomeOf(c, loss, n, x).Skip? <==> DegenerateSample(x)
  {
    PoolsOfNone(c, n, x);
  }

  /**
   * The outcome of sample `x` under network `n` in `train`: `OutcomeOf` with the training loss.
   * (A sample whose masks do not fit the backbone's output is outside what `train` is given.)
   */
  ghost function OutcomeFn<P(!new), F, V>(c: Collaborators<P, F, V>): (Net<P>, Sample<F>) -> Outcome
  {
    (n: Net<P>, x: Sample<F>) => if Fits(c, x) then OutcomeOf(c, c.loss, n, x) else Skip
  }

  /**
   * One iteration of the body of `train`'s loop, for sample `x` at batch number `b` (index
   * `b - 1`) whose outcome under the current network is given by `outcome`: a kept sample takes
   * one optimizer step; the bookkeeping is `BookStep`.
   */
  function TrainStep<P(!new), F, V>(c: Collaborators<P, F, V>, outcome: (Net<P>, Sample<F>) -> Outcome,
                                    logInterval: int, checkpointInterval: int,
                                    epoch: nat, b: nat, s: LoopState<P>, x: Sample<F>): LoopState<P>
    requires logInterval != 0 && checkpointInterval != 0 && b > 0
  {
    var o := outcome(s.net, x);
    var l := BookStep(epoch, b, Ledger(s.aggFg, s.aggBg, s.net.mode, s.trace), o,
                      b % logInterval == 0, b % checkpointInterval == 0);
    LoopState(Net(if o.Keep? then c.step(s.net, x) else s.net.params, l.mode), l.aggFg, l.aggBg, l.trace)
  }

  /** The loop state of `train` after the first `n` samples; the accumulators start at zero. */
  function TrainPrefix<P(!new), F, V>(c: Collaborators<P, F, V>, outcome: (Net<P>, Sample<F>) -> Outcome,
                                      logInterval: int, checkpointInterval: int,
                                      epoch: nat, samples: seq<Sample<F>>, n: nat, net0: Net<P>): LoopState<P>
    requires n <= |samples| && logInterval != 0 && checkpointInterval != 0
    decreases n
  {
    if n == 0 then LoopState(net0, 0.0, 0.0, [])
    else TrainStep(c, outcome, logInterval, checkpointInterval, epoch, n,
                   TrainPrefix(c, outcome, logInterval, checkpointInterval, epoch, samples, n - 1, net0), samples[n - 1])
  }

  /** The outcomes of the first `n` samples of `train`, each under the weights and mode it met. */
  function TrainOutcomes<P(!new), F, V>(c: Collaborators<P, F, V>, outcome: (Net<P>, Sample<F>) -> Outcome,
                                        logInterval: int, checkpointInterval: int,
                                        epoch: nat, samples: seq<Sample<F>>, n: nat, net0: Net<P>): (r: seq<Outcome>)
    requires n <= |samples| && logInterval != 0 && checkpointInterval != 0
    ensures |r| == n
  {
    seq(n, i requires 0 <= i < n =>
          outcome(TrainPrefix(c, outcome, logInterval, checkpointInterval, epoch, samples, i, net0).net, samples[i]))
  }

  /** Sample `b` moves the weights by one optimizer step exactly when it is kept, and books its outcome. */
  lemma TrainSampleEffect<P(!new), F, V>(c: Collaborators<P, F, V>, outcome: (Net<P>, Sample<F>) -> Outcome,
                                         logInterval: int, checkpointInterval: int,
                                         epoch: nat, samples: seq<Sample<F>>, b: nat, net0: Net<P>)
    requires 0 < b <= |samples| && logInterval != 0 && checkpointInterval != 0
    ensures var s := TrainPrefix(c, outcome, logInterval, checkpointInterval, epoch, samples, b - 1, net0);
            var s' := TrainPrefix(c, outcome, logInterval, checkpointInterval, epoch, samples, b, net0);
            var o := outcome(s.net, samples[b - 1]);
            var l := BookStep(epoch, b, Ledger(s.aggFg, s.aggBg, s.net.mode, s.trace), o,
                              b % logInterval == 0, b % checkpointInterval == 0);
            && s'.net.params == (if o.Keep? then c.step(s.net, samples[b - 1]) else s.net.params)
            && s'.net.mode == l.mode && s'.aggFg == l.aggFg && s'.aggBg == l.aggBg && s'.trace == l.trace
  {
  }

  /**
   * The forward part of one iteration: the backbone's embeddings, `create_triplet_pools` and,
   * unless it gives no pools, `loss` on the foreground and on the background triples.
   */
  method Forward<P(!new), F, V>(c: Collaborators<P, F, V>, loss: (seq<V>, seq<V>, seq<V>) -> real,
                                net: Net<P>, x: Sample<F>) returns (o: Outcome)
    requires Fits(c, x)
    ensures o == OutcomeOf(c, loss, net, x)
    ensures o.Skip? <==> DegenerateSample(x)
  {
    var e := c.embed(net, x.frames);
    var pools := CreateTripletPools(x.anchor, x.f1, x.f2, e.a, e.f1, e.f2);
    PoolsOfNone(c, net, x);
    if pools.None? {
      return Skip;
    }
    var p := pools.value;
    o := Keep(loss(p.fgAnchor, p.fgPositive, p.fgNegative), loss(p.bgAnchor, p.bgPositive, p.bgNegative));
  }

  /**
   * One pass of the body of `train`'s loop, for sample `x` at batch number `b`: a sample without
   * pools is recorded as skipped (`continue`); otherwise the optimizer step, the accumulators, the
   * periodic log and the periodic checkpoint, which puts the network in evaluation mode while it
   * saves and back into training mode with frozen feature extraction afterwards.
   */
  method TrainIteration<P(!new), F, V>(c: Collaborators<P, F, V>, logInterval: int, checkpointInterval: int,
                                       epoch: nat, b: nat, s: LoopState<P>, x: Sample<F>)
    returns (s': LoopState<P>)
    requires Fits(c, x) && logInterval != 0 && checkpointInterval != 0 && b > 0
    ensures s' == TrainStep(c, OutcomeFn(c), logInterval, checkpointInterval, epoch, b, s, x)
  {
    var net, aggFg, aggBg, trace := s.net, s.aggFg, s.aggBg, s.trace;
    var o := Forward(c, c.loss, net, x);
    assert o == OutcomeFn(c)(net, x);
    if o.Skip? {
      trace := trace + [Skipped(b)];
      return LoopState(net, aggFg, aggBg, trace);
    }
    var fgLoss, bgLoss := o.fg, o.bg;
    trace := trace + [Step(b, net.mode, fgLoss, bgLoss)];
    net := net.(params := c.step(net, x));
    aggFg := aggFg + fgLoss;
    aggBg := aggBg + bgLoss;
    if b % logInterval == 0 {
      trace := trace + [TrainLog(epoch + 1, b, aggFg, aggBg)];
    }
    if b % checkpointInterval == 0 {
      net := net.(mode := Eval);
      trace := trace + [Checkpoint(epoch + 1, b)];
      net := net.(mode := TrainFrozen);
    }
    s' := LoopState(net, aggFg, aggBg, trace);
  }

  /** `train(epoch, ...)` over the data loader's `samples`, starting from network `net0`. */
  method Train<P(!new), F, V>(c: Collaborators<P, F, V>, logInterval: int, checkpointInterval: int,
                              epoch: nat, samples: seq<Sample<F>>, net0: Net<P>) returns (s: LoopState<P>)
    requires AllFit(c, samples) && logInterval != 0 && checkpointInterval != 0
    ensures s == TrainPrefix(c, OutcomeFn(c), logInterval, checkpointInterval, epoch, samples, |samples|, net0)
  {
    s := LoopState(net0, 0.0, 0.0, []);
    for idx := 0 to |samples|
      invariant s == TrainPrefix(c, OutcomeFn(c), logInterval, checkpointInterval, epoch, samples, idx, net0)
    {
      s := TrainIteration(c, logInterval, checkpointInterval, epoch, idx + 1, s, samples[idx]);
    }
  }

  /**
   * `train`'s accumulators, mode and events after `n` samples are the bookkeeping of the
   * samples' outcomes, so that every property of `Book` holds of `train`.
   */
  lemma {:induction false} TrainBook<P(!new), F, V>(c: Collaborators<P, F, V>, outcome: (Net<P>, Sample<F>) -> Outcome,
                                                    logInterval: int, checkpointInterval: int,
                                                    epoch: nat, samples: seq<Sample<F>>, n: nat, net0: Net<P>)
    requires n <= |samples| && logInterval != 0 && checkpointInterval != 0
    ensures var s := TrainPrefix(c, outcome, logInterval, checkpointInterval, epoch, samples, n, net0);
            var l := Book(logInterval, checkpointInterval, epoch, net0.mode,
                          TrainOutcomes(c, outcome, logInterval, checkpointInterval, epoch, samples, n, net0));
            s.aggFg == l.aggFg && s.aggBg == l.aggBg && s.net.mode == l.mode && s.trace == l.trace
    decreases n
  {
    if n > 0 {
      TrainBook(c, outcome, logInterval, checkpointInterval, epoch, samples, n - 1, net0);
      TrainSampleEffect(c, outcome, logInterval, checkpointInterval, epoch, samples, n, net0);
      var s := TrainPrefix(c, outcome, logInterval, checkpointInterval, epoch, samples, n - 1, net0);
      var outs := TrainOutcomes(c, outcome, logInterval, checkpointInterval, epoch, samples, n - 1, net0);
      assert TrainOutcomes(c, outcome, logInterval, checkpointInterval, epoch, samples, n, net0)[..n - 1] == outs;
      assert Ledger(s.aggFg, s.aggBg, s.net.mode, s.trace) == Book(logInterval, checkpointInterval, epoch, net0.mode, outs);
    }
  }

  /** Exactly the samples with degenerate masks are skipped. */
  lemma TrainOutcomesSkip<P(!new), F, V>(c: Collaborators<P, F, V>, logInterval: int, checkpointInterval: int,
                                         epoch: nat, samples: seq<Sample<F>>, n: nat, net0: Net<P>)
    requires n <= |samples| && AllFit(c, samples) && logInterval != 0 && checkpointInterval != 0
    ensures var outs := TrainOutcomes(c, OutcomeFn(c), logInterval, checkpointInterval, epoch, samples, n, net0);
            forall i :: 0 <= i < n ==> (outs[i].Skip? <==> DegenerateSample(samples[i]))
  {
    var outs := TrainOutcomes(c, OutcomeFn(c), logInterval, checkpointInterval, epoch, samples, n, net0);
    forall i | 0 <= i < n ensures outs[i].Skip? <==> DegenerateSample(samples[i]) {
      var net := TrainPrefix(c, OutcomeFn(c), logInterval, checkpointInterval, epoch, samples, i, net0).net;
      assert Fits(c, samples[i]) && outs[i] == OutcomeOf(c, c.loss, net, samples[i]);
      OutcomeSkip(c, c.loss, net, samples[i]);
    }
  }

  /**
   * A skipped sample leaves the network and the accumulators as they were and only adds its skip
   * message; a kept sample's first event is its optimizer step, whose losses the accumulators add.
   * (`TrainOutcomesSkip` says which samples are skipped.)
   */
  lemma TrainSkipped<P(!new), F, V>(c: Collaborators<P, F, V>, outcome: (Net<P>, Sample<F>) -> Outcome,
                                    logInterval: int, checkpointInterval: int,
                                    epoch: nat, samples: seq<Sample<F>>, b: nat, net0: Net<P>)
    requires 0 < b <= |samples| && logInterval != 0 && checkpointInterval != 0
    ensures var s := TrainPrefix(c, outcome, logInterval, checkpointInterval, epoch, samples, b - 1, net0);
            var s' := TrainPrefix(c, outcome, logInterval, checkpointInterval, epoch, samples, b, net0);
            var o := outcome(s.net, samples[b - 1]);
            && (o.Skip? ==> s' == LoopState(s.net, s.aggFg, s.aggBg, s.trace + [Skipped(b)]))
            && (o.Keep? ==> && s'.aggFg == s.aggFg + o.fg && s'.aggBg == s.aggBg + o.bg
                            && |s'.trace| > |s.trace| && s'.trace[|s.trace|] == Step(b, s.net.mode, o.fg, o.bg))
  {
    var s := TrainPrefix(c, outcome, logInterval, checkpointInterval, epoch, samples, b - 1, net0);
    var o := outcome(s.net, samples[b - 1]);
    TrainSampleEffect(c, outcome, logInterval, checkpointInterval, epoch, samples, b, net0);
    if o.Keep? {
      var t1 := s.trace + [Step(b, s.net.mode, o.fg, o.bg)];
      var t2 := AppendIf(t1, b % logInterval == 0, TrainLog(epoch + 1, b, s.aggFg + o.fg, s.aggBg + o.bg));
      assert t2[|s.trace|] == t1[|s.trace|];
      assert AppendIf(t2, b % checkpointInterval == 0, Checkpoint(epoch + 1, b))[|s.trace|] == t2[|s.trace|];
    }
  }

  /**
   * After any number of samples, `agg_fg_loss` and `agg_bg_loss` are the sums of the foreground
   * and background losses of the optimizer steps in the trace.
   */
  lemma TrainAccumulators<P(!new), F, V>(c: Collaborators<P, F, V>, outcome: (Net<P>, Sample<F>) -> Outcome,
                                         logInterval: int, checkpointInterval: int,
                                         epoch: nat, samples: seq<Sample<F>>, n: nat, net0: Net<P>)
    requires n <= |samples| && logInterval != 0 && checkpointInterval != 0
    ensures var s := TrainPrefix(c, outcome, logInterval, checkpointInterval, epoch, samples, n, net0);
            s.aggFg == FgSum(s.trace) && s.aggBg == BgSum(s.trace)
  {
    TrainBook(c, outcome, logInterval, checkpointInterval, epoch, samples, n, net0);
    BookAccumulators(logInterval, checkpointInterval, epoch, net0.mode,
                     TrainOutcomes(c, outcome, logInterval, checkpointInterval, epoch, samples, n, net0));
  }

  /**
   * Which events `train` emits for which batch numbers: a skip message exactly for degenerate
   * samples, an optimizer step exactly for the others, a log exactly for kept samples whose
   * batch number is a multiple of the log interval, a checkpoint exactly for kept samples whose
   * batch number is a multiple of the checkpoint interval, and nothing of validation.
   */
  lemma TrainEvents<P(!new), F, V>(c: Collaborators<P, F, V>, logInterval: int, checkpointInterval: int,
                                   epoch: nat, samples: seq<Sample<F>>, n: nat, net0: Net<P>)
    requires n <= |samples| && AllFit(c, samples) && logInterval != 0 && checkpointInterval != 0
    ensures var m := Marks(TrainPrefix(c, OutcomeFn(c), logInterval, checkpointInterval, epoch, samples, n, net0).trace);
            forall b ::
              && ((SkipKind, b) in m <==> 1 <= b <= n && DegenerateSample(samples[b - 1]))
              && ((StepKind, b) in m <==> 1 <= b <= n && !DegenerateSample(samples[b - 1]))
              && ((TrainLogKind, b) in m <==>
                    1 <= b <= n && !DegenerateSample(samples[b - 1]) && b % logInterval == 0)
              && ((CheckpointKind, b) in m <==>
                    1 <= b <= n && !DegenerateSample(samples[b - 1]) && b % checkpointInterval == 0)
              && (EvalKind, b) !in m && (ValLogKind, b) !in m
  {
    var outs := TrainOutcomes(c, OutcomeFn(c), logInterval, checkpointInterval, epoch, samples, n, net0);
    TrainBook(c, OutcomeFn(c), logInterval, checkpointInterval, epoch, samples, n, net0);
    BookMarks(logInterval, checkpointInterval, epoch, net0.mode, outs);
    TrainOutcomesSkip(c, logInterval, checkpointInterval, epoch, samples, n, net0);
  }

  /** After any number of samples, every log line of `train` carries the loss sums before it. */
  lemma TrainAveraged<P(!new), F, V>(c: Collaborators<P, F, V>, outcome: (Net<P>, Sample<F>) -> Outcome,
                                     logInterval: int, checkpointInterval: int,
                                     epoch: nat, samples: seq<Sample<F>>, n: nat, net0: Net<P>)
    requires n <= |samples| && logInterval != 0 && checkpointInterval != 0
    ensures AveragedLogs(TrainPrefix(c, outcome, logInterval, checkpointInterval, epoch, samples, n, net0).trace)
  {
    TrainBook(c, outcome, logInterval, checkpointInterval, epoch, samples, n, net0);
    BookAveraged(logInterval, checkpointInterval, epoch, net0.mode,
                 TrainOutcomes(c, outcome, logInterval, checkpointInterval, epoch, samples, n, net0));
  }

  /**
   * Every training log carries the sums of the step losses before it and its batch number
   * `idx + 1`, which counts skipped samples too; `TrainLogSums` says which samples' losses
   * these sums are, and the averages printed.
   */
  lemma TrainLogAverages<P(!new), F, V>(c: Collaborators<P, F, V>, outcome: (Net<P>, Sample<F>) -> Outcome,
                                        logInterval: int, checkpointInterval: int,
                                        epoch: nat, samples: seq<Sample<F>>, n: nat, net0: Net<P>)
    requires n <= |samples| && logInterval != 0 && checkpointInterval != 0
    ensures var t := TrainPrefix(c, outcome, logInterval, checkpointInterval, epoch, samples, n, net0).trace;
            forall j :: 0 <= j < |t| && IsLog(t[j]) ==>
              t[j].batch >= 1 && t[j].aggFg == FgSumTo(t, j) && t[j].aggBg == BgSumTo(t, j)
  {
    TrainAveraged(c, outcome, logInterval, checkpointInterval, epoch, samples, n, net0);
    LogLines(TrainPrefix(c, outcome, logInterval, checkpointInterval, epoch, samples, n, net0).trace);
  }

  /**
   * The network's mode after `train`: the mode it was entered in until the first checkpoint, and
   * train-and-frozen after it (the save switches to eval and back); every optimizer step runs in
   * the mode left by the events before it.
   */
  lemma TrainModes<P(!new), F, V>(c: Collaborators<P, F, V>, outcome: (Net<P>, Sample<F>) -> Outcome,
                                  logInterval: int, checkpointInterval: int,
                                  epoch: nat, samples: seq<Sample<F>>, n: nat, net0: Net<P>)
    requires n <= |samples| && logInterval != 0 && checkpointInterval != 0
    ensures var s := TrainPrefix(c, outcome, logInterval, checkpointInterval, epoch, samples, n, net0);
            && s.net.mode == ModeAfter(net0.mode, s.trace)
            && forall j :: 0 <= j < |s.trace| && s.trace[j].Step? ==>
                 s.trace[j].mode == ModeTo(net0.mode, s.trace, j)
  {
    var outs := TrainOutcomes(c, outcome, logInterval, checkpointInterval, epoch, samples, n, net0);
    TrainBook(c, outcome, logInterval, checkpointInterval, epoch, samples, n, net0);
    BookMode(logInterval, checkpointInterval, epoch, net0.mode, outs);
    BookStepModes(logInterval, checkpointInterval, epoch, net0.mode, outs);
    StepModesAt(net0.mode, TrainPrefix(c, outcome, logInterval, checkpointInterval, epoch, samples, n, net0).trace);
  }

  /**
   * Sample `b` only appends to `train`'s trace: the events of samples `1..b - 1` stay in place,
   * and it adds at least one event, each with batch number `b`.
   */
  lemma TrainBatches<P(!new), F, V>(c: Collaborators<P, F, V>, outcome: (Net<P>, Sample<F>) -> Outcome,
                                    logInterval: int, checkpointInterval: int,
                                    epoch: nat, samples: seq<Sample<F>>, b: nat, net0: Net<P>)
    requires 0 < b <= |samples| && logInterval != 0 && checkpointInterval != 0
    ensures var t := TrainPrefix(c, outcome, logInterval, checkpointInterval, epoch, samples, b - 1, net0).trace;
            var t' := TrainPrefix(c, outcome, logInterval, checkpointInterval, epoch, samples, b, net0).trace;
            && |t| < |t'|
            && (forall j :: 0 <= j < |t| ==> t'[j] == t[j])
            && (forall j :: |t| <= j < |t'| ==> t'[j].batch == b)
  {
    var s := TrainPrefix(c, outcome, logInterval, checkpointInterval, epoch, samples, b - 1, net0);
    TrainSampleEffect(c, outcome, logInterval, checkpointInterval, epoch, samples, b, net0);
    BookStepExtends(epoch, b, Ledger(s.aggFg, s.aggBg, s.net.mode, s.trace), outcome(s.net, samples[b - 1]),
                    b % logInterval == 0, b % checkpointInterval == 0);
  }

  /**
   * After `n` samples with outcomes `outs`, the accumulators are the kept losses of all `n`, and
   * the log line at batch `b` carries the kept losses of samples `1..b` and prints them over `b`,
   * skipped samples counting in `b` but adding no loss.
   */
  lemma TrainLogSums<P(!new), F, V>(c: Collaborators<P, F, V>, outcome: (Net<P>, Sample<F>) -> Outcome,
                                    logInterval: int, checkpointInterval: int,
                                    epoch: nat, samples: seq<Sample<F>>, n: nat, net0: Net<P>)
    requires n <= |samples| && logInterval != 0 && checkpointInterval != 0
    ensures var outs := TrainOutcomes(c, outcome, logInterval, checkpointInterval, epoch, samples, n, net0);
            var s := TrainPrefix(c, outcome, logInterval, checkpointInterval, epoch, samples, n, net0);
            && s.aggFg == KeptFgTo(outs, n) && s.aggBg == KeptBgTo(outs, n)
            && forall j :: 0 <= j < |s.trace| && IsLog(s.trace[j]) ==>
                 && 1 <= s.trace[j].batch <= n
                 && s.trace[j].aggFg == KeptFgTo(outs, s.trace[j].batch)
                 && s.trace[j].aggBg == KeptBgTo(outs, s.trace[j].batch)
                 && s.trace[j].AvgFg() == Average(KeptFgTo(outs, s.trace[j].batch), s.trace[j].batch)
                 && s.trace[j].AvgBg() == Average(KeptBgTo(outs, s.trace[j].batch), s.trace[j].batch)
  {
    var outs := TrainOutcomes(c, outcome, logInterval, checkpointInterval, epoch, samples, n, net0);
    TrainBook(c, outcome, logInterval, checkpointInterval, epoch, samples, n, net0);
    BookLogSums(logInterval, checkpointInterval, epoch, net0.mode, outs);
  }

  // ---------------------------------------------------------------------------
  // validate

  /** The trace `t` after an evaluated sample at batch number `b`: the evaluation and, when due, the log line. */
  function EvalTrace(t: seq<Event>, epoch: nat, b: nat, fg: real, bg: real, aggFg: real, aggBg: real, logDue: bool)
    : seq<Event>
    requires b > 0
  {
    AppendIf(t + [Evaluated(b, fg, bg)], logDue, ValLog(epoch + 1, b, aggFg, aggBg))
  }

  /**
   * An evaluated sample adds its losses to the trace's sums and its marks to the trace's marks,
   * and a log over accumulators that extend the sums keeps `AveragedLogs`.
   */
  lemma EvalAppend(t: seq<Event>, epoch: nat, b: nat, fg: real, bg: real, aggFg: real, aggBg: real, logDue: bool)
    requires b > 0
    ensures var t' := EvalTrace(t, epoch, b, fg, bg, aggFg, aggBg, logDue);
            && FgSum(t') == FgSum(t) + fg && BgSum(t') == BgSum(t) + bg
            && Marks(t') == Marks(t) + {(EvalKind, b)} + (if logDue then {(ValLogKind, b)} else {})
            && (AveragedLogs(t) && aggFg == FgSum(t) + fg && aggBg == BgSum(t) + bg ==> AveragedLogs(t'))
  {
    var t1 := t + [Evaluated(b, fg, bg)];
    AppendSums(t, Evaluated(b, fg, bg));
    AppendMarks(t, Evaluated(b, fg, bg));
    AppendAveraged(t, Evaluated(b, fg, bg));
    if logDue {
      var log := ValLog(epoch + 1, b, aggFg, aggBg);
      AppendSums(t1, log);
      AppendMarks(t1, log);
      AppendAveraged(t1, log);
    }
  }

  /**
   * The bookkeeping of the sample at index `i` with losses `fg` and `bg`: accumulate, record the
   * evaluation, and log at the multiples of the interval and at the last sample to evaluate.
   */
  function ValStep(logInterval: int, epoch: nat, cap: int, i: nat, l: Ledger, fg: real, bg: real): Ledger
    requires logInterval != 0
  {
    var aggFg, aggBg := l.aggFg + fg, l.aggBg + bg;
    Ledger(aggFg, aggBg, l.mode,
           EvalTrace(l.trace, epoch, i + 1, fg, bg, aggFg, aggBg, (i + 1) % logInterval == 0 || i == cap))
  }

  /**
   * How `validate` ends: it returns after `processed` samples, or it fails at index `at` on a
   * sample without triplet pools (unpacking `None` raises). `book` is the bookkeeping so far.
   */
  datatype ValResult = Completed(processed: nat, book: Ledger) | Crashed(at: nat, book: Ledger)

  /**
   * `validate` from index `i` with bookkeeping `l`, over the samples' outcomes `outs`: stop at
   * the end of the data, fail on a skipped outcome, and stop after index `cap`.
   */
  function ValRun(logInterval: int, epoch: nat, cap: int, outs: seq<Outcome>, i: nat, l: Ledger): ValResult
    requires logInterval != 0 && i <= |outs|
    decreases |outs| - i
  {
    if i == |outs| then Completed(i, l)
    else match outs[i]
      case Skip => Crashed(i, l)
      case Keep(fg, bg) =>
        var l' := ValStep(logInterval, epoch, cap, i, l, fg, bg);
        if i == cap then Completed(i + 1, l') else ValRun(logInterval, epoch, cap, outs, i + 1, l')
  }

  /** The loop's bookkeeping before any sample. */
  function ValStart(): Ledger
  {
    Ledger(0.0, 0.0, Eval, [])
  }

  /** One past the last index `validate` can reach from index `i`, over `n` samples. */
  function ValLimit(cap: int, i: nat, n: nat): nat
  {
    if i <= cap < n then cap + 1 else n
  }

  /**
   * The marks of a validation pass over its first `k` samples: an evaluation for each of them,
   * a log line exactly at the multiples of the interval and at the capped sample, nothing else.
   */
  ghost predicate ValMarks(m: set<(Kind, int)>, k: nat, logInterval: int, cap: int)
    requires logInterval != 0
  {
    forall b ::
      && ((EvalKind, b) in m <==> 1 <= b <= k)
      && ((ValLogKind, b) in m <==> 1 <= b <= k && (b % logInterval == 0 || b - 1 == cap))
      && (SkipKind, b) !in m && (StepKind, b) !in m && (TrainLogKind, b) !in m && (CheckpointKind, b) !in m
  }

  /** Adding the marks of the sample at index `i` to the marks of the first `i` samples gives those of `i + 1`. */
  lemma ValMarksStep(m: set<(Kind, int)>, m': set<(Kind, int)>, i: nat, logInterval: int, cap: int)
    requires logInterval != 0 && ValMarks(m, i, logInterval, cap)
    requires m' == m + {(EvalKind, i + 1)}
                    + (if (i + 1) % logInterval == 0 || i == cap then {(ValLogKind, i + 1)} else {})
    ensures ValMarks(m', i + 1, logInterval, cap)
  {
    forall b ensures
      && ((EvalKind, b) in m' <==> 1 <= b <= i + 1)
      && ((ValLogKind, b) in m' <==> 1 <= b <= i + 1 && (b % logInterval == 0 || b - 1 == cap))
      && (SkipKind, b) !in m' && (StepKind, b) !in m' && (TrainLogKind, b) !in m' && (CheckpointKind, b) !in m'
    {
    }
  }

  /** The marks of a validation pass over its first `k` samples, sample by sample. */
  function ValMarkSet(k: nat, logInterval: int, cap: int): set<(Kind, int)>
    requires logInterval != 0
  {
    if k == 0 then {}
    else ValMarkSet(k - 1, logInterval, cap) + {(EvalKind, k)}
         + (if k % logInterval == 0 || k - 1 == cap then {(ValLogKind, k)} else {})
  }

  /** `ValMarkSet` holds exactly the marks `ValMarks` describes. */
  lemma {:induction false} ValMarkSetMarks(k: nat, logInterval: int, cap: int)
    requires logInterval != 0
    ensures ValMarks(ValMarkSet(k, logInterval, cap), k, logInterval, cap)
  {
    if k > 0 {
      ValMarkSetMarks(k - 1, logInterval, cap);
      ValMarksStep(ValMarkSet(k - 1, logInterval, cap), ValMarkSet(k, logInterval, cap), k - 1, logInterval, cap);
    }
  }

  /**
   * What holds of the bookkeeping after `k` samples: the accumulators are the sums of the recorded
   * losses, every log line carries the sums before it, and the marks are `ValMarkSet`'s (which
   * `ValMarkSetMarks` spells out).
   */
  ghost predicate ValInv(l: Ledger, k: nat, logInterval: int, cap: int)
    requires logInterval != 0
  {
    && l.aggFg == FgSum(l.trace) && l.aggBg == BgSum(l.trace)
    && AveragedLogs(l.trace)
    && Marks(l.trace) == ValMarkSet(k, logInterval, cap)
  }

  /** One evaluated sample keeps `ValInv`. */
  lemma ValStepInv(logInterval: int, epoch: nat, cap: int, i: nat, l: Ledger, fg: real, bg: real)
    requires logInterval != 0 && ValInv(l, i, logInterval, cap)
    ensures ValInv(ValStep(logInterval, epoch, cap, i, l, fg, bg), i + 1, logInterval, cap)
  {
    var logDue := (i + 1) % logInterval == 0 || i == cap;
    EvalAppend(l.trace, epoch, i + 1, fg, bg, l.aggFg + fg, l.aggBg + bg, logDue);
  }

  /**
   * How a validation pass from index `i` ends. With `lim` the end of the data or one past the
   * capped index, whichever comes first: it completes exactly when every outcome in `[i, lim)`
   * has pools, and then after exactly `lim` samples; otherwise it fails at the first skipped
   * outcome.
   */
  lemma {:induction false} ValRunEnds(logInterval: int, epoch: nat, cap: int, outs: seq<Outcome>, i: nat, l: Ledger)
    requires logInterval != 0 && i <= |outs|
    ensures var r, lim := ValRun(logInterval, epoch, cap, outs, i, l), ValLimit(cap, i, |outs|);
            && (r.Completed? <==> forall k :: i <= k < lim ==> outs[k].Keep?)
            && (r.Completed? ==> r.processed == lim)
            && (r.Crashed? ==> && i <= r.at < lim && outs[r.at].Skip?
                               && forall k :: i <= k < r.at ==> outs[k].Keep?)
    decreases |outs| - i
  {
    if i < |outs| && outs[i].Keep? && i != cap {
      ValRunEnds(logInterval, epoch, cap, outs, i + 1, ValStep(logInterval, epoch, cap, i, l, outs[i].fg, outs[i].bg));
      assert ValLimit(cap, i + 1, |outs|) == ValLimit(cap, i, |outs|);
    }
  }

  /** Wherever a validation pass from index `i` stops, its bookkeeping keeps `ValInv` up to there. */
  lemma {:induction false} ValRunInv(logInterval: int, epoch: nat, cap: int, outs: seq<Outcome>, i: nat, l: Ledger)
    requires logInterval != 0 && i <= |outs| && ValInv(l, i, logInterval, cap)
    ensures var r := ValRun(logInterval, epoch, cap, outs, i, l);
            && (r.Completed? ==> ValInv(r.book, r.processed, logInterval, cap))
            && (r.Crashed? ==> ValInv(r.book, r.at, logInterval, cap))
    decreases |outs| - i
  {
    if i < |outs| && outs[i].Keep? {
      ValStepInv(logInterval, epoch, cap, i, l, outs[i].fg, outs[i].bg);
      if i != cap {
        ValRunInv(logInterval, epoch, cap, outs, i + 1, ValStep(logInterval, epoch, cap, i, l, outs[i].fg, outs[i].bg));
      }
    }
  }

  /**
   * Along a validation pass from index `i`: when the accumulators hold the losses of the first `i`
   * outcomes and every log line so far, at some batch `b <= i`, carries those of the first `b`,
   * then wherever the pass stops, after `n` samples, the accumulators hold the losses of the
   * first `n` and every log line, at some batch `b <= n`, carries those of the first `b`.
   */
  lemma {:induction false} ValRunSums(logInterval: int, epoch: nat, cap: int, outs: seq<Outcome>, i: nat, l: Ledger)
    requires logInterval != 0 && i <= |outs|
    requires l.aggFg == KeptFgTo(outs, i) && l.aggBg == KeptBgTo(outs, i) && LogsCarry(l.trace, outs)
    requires forall j :: 0 <= j < |l.trace| && IsLog(l.trace[j]) ==> l.trace[j].batch <= i
    ensures var r := ValRun(logInterval, epoch, cap, outs, i, l);
            var n := if r.Completed? then r.processed else r.at;
            && n <= |outs|
            && r.book.aggFg == KeptFgTo(outs, n) && r.book.aggBg == KeptBgTo(outs, n)
            && LogsCarry(r.book.trace, outs)
            && forall j :: 0 <= j < |r.book.trace| && IsLog(r.book.trace[j]) ==> r.book.trace[j].batch <= n
    decreases |outs| - i
  {
    if i < |outs| && outs[i].Keep? {
      var l' := ValStep(logInterval, epoch, cap, i, l, outs[i].fg, outs[i].bg);
      var t1 := l.trace + [Evaluated(i + 1, outs[i].fg, outs[i].bg)];
      assert forall j :: 0 <= j < |t1| ==> l'.trace[j] == t1[j];
      assert forall j :: 0 <= j < |l.trace| ==> t1[j] == l.trace[j];
      if i != cap {
        ValRunSums(logInterval, epoch, cap, outs, i + 1, l');
      }
    }
  }

  /** The outcome of each sample under the validation loss, with weights `params` in evaluation mode. */
  ghost function ValOutcomes<P(!new), F, V>(c: Collaborators<P, F, V>, params: P, samples: seq<Sample<F>>)
    : (r: seq<Outcome>)
    requires AllFit(c, samples)
    ensures |r| == |samples|
  {
    seq(|samples|, i requires 0 <= i < |samples| => OutcomeOf(c, c.valLoss, Net(params, Eval), samples[i]))
  }

  /**
   * The bookkeeping part of one pass of `validate`'s loop body, for the sample at index `idx` with
   * losses `fgLoss` and `bgLoss`: accumulate, then log when the batch number is a multiple of the
   * interval or the sample is the capped one.
   */
  method ValRecord(logInterval: int, epoch: nat, cap: int, idx: nat, l: Ledger, fgLoss: real, bgLoss: real)
    returns (l': Ledger)
    requires logInterval != 0
    ensures l' == ValStep(logInterval, epoch, cap, idx, l, fgLoss, bgLoss)
  {
    var aggFg, aggBg := l.aggFg + fgLoss, l.aggBg + bgLoss;
    var b := idx + 1;
    var trace := l.trace + [Evaluated(b, fgLoss, bgLoss)];
    if b % logInterval == 0 || idx == cap {
      trace := trace + [ValLog(epoch + 1, b, aggFg, aggBg)];
    }
    l' := Ledger(aggFg, aggBg, l.mode, trace);
  }

  /**
   * `validate(epoch, ...)` over the data loader's `samples` with `num_val_samples_to_evaluate`
   * = `cap`: the network is put in evaluation mode, and the pass is `ValRun` from the start.
   */
  method Validate<P(!new), F, V>(c: Collaborators<P, F, V>, logInterval: int, epoch: nat, cap: int,
                                 samples: seq<Sample<F>>, net0: Net<P>) returns (net: Net<P>, r: ValResult)
    requires AllFit(c, samples) && logInterval != 0
    ensures net == Net(net0.params, Eval)
    ensures r == ValRun(logInterval, epoch, cap, ValOutcomes(c, net0.params, samples), 0, ValStart())
  {
    net := net0.(mode := Eval);
    ghost var outs := ValOutcomes(c, net0.params, samples);
    var l := ValStart();
    for idx := 0 to |samples|
      invariant ValRun(logInterval, epoch, cap, outs, idx, l) == ValRun(logInterval, epoch, cap, outs, 0, ValStart())
    {
      var o := Forward(c, c.valLoss, net, samples[idx]);
      assert o == outs[idx];
      if o.Skip? {
        return net, Crashed(idx, l);
      }
      l := ValRecord(logInterval, epoch, cap, idx, l, o.fg, o.bg);
      if idx == cap {
        return net, Completed(idx + 1, l);
      }
    }
    r := Completed(|samples|, l);
  }

  /**
   * `validate` in terms of the samples: with `lim` the number of samples up to and including the
   * capped one (all of them when the cap is negative or past the end), it completes exactly when
   * none of the first `lim` samples has degenerate masks, and otherwise fails at the first one
   * that has; the accumulators, log lines and marks are as `ValInv` says. Where it stops, after
   * `n` samples, the accumulators are the validation losses of the first `n` samples, and the log
   * line at batch `b` carries those of samples `1..b` and prints them over `b`.
   */
  lemma ValidateSpec<P(!new), F, V>(c: Collaborators<P, F, V>, logInterval: int, epoch: nat, cap: int,
                                    samples: seq<Sample<F>>, params: P)
    requires AllFit(c, samples) && logInterval != 0
    ensures var outs := ValOutcomes(c, params, samples);
            var r := ValRun(logInterval, epoch, cap, outs, 0, ValStart());
            var lim := ValLimit(cap, 0, |samples|);
            && (r.Completed? <==> forall k :: 0 <= k < lim ==> !DegenerateSample(samples[k]))
            && (r.Completed? ==> r.processed == lim && ValInv(r.book, lim, logInterval, cap))
            && (r.Crashed? ==> && r.at < lim && DegenerateSample(samples[r.at])
                               && (forall k :: 0 <= k < r.at ==> !DegenerateSample(samples[k]))
                               && ValInv(r.book, r.at, logInterval, cap))
    ensures var outs := ValOutcomes(c, params, samples);
            var r := ValRun(logInterval, epoch, cap, outs, 0, ValStart());
            var n := if r.Completed? then r.processed else r.at;
            && n <= |samples|
            && r.book.aggFg == KeptFgTo(outs, n) && r.book.aggBg == KeptBgTo(outs, n)
            && forall j :: 0 <= j < |r.book.trace| && IsLog(r.book.trace[j]) ==>
                 && 1 <= r.book.trace[j].batch <= n
                 && r.book.trace[j].aggFg == KeptFgTo(outs, r.book.trace[j].batch)
                 && r.book.trace[j].aggBg == KeptBgTo(outs, r.book.trace[j].batch)
                 && r.book.trace[j].AvgFg() == Average(KeptFgTo(outs, r.book.trace[j].batch), r.book.trace[j].batch)
                 && r.book.trace[j].AvgBg() == Average(KeptBgTo(outs, r.book.trace[j].batch), r.book.trace[j].batch)
  {
    var outs := ValOutcomes(c, params, samples);
    ValRunEnds(logInterval, epoch, cap, outs, 0, ValStart());
    ValRunInv(logInterval, epoch, cap, outs, 0, ValStart());
    ValRunSums(logInterval, epoch, cap, outs, 0, ValStart());
    forall k | 0 <= k < |samples| ensures outs[k].Skip? <==> DegenerateSample(samples[k]) {
      OutcomeSkip(c, c.valLoss, Net(params, Eval), samples[k]);
    }
  }
}
