/**
 * The Weights & Biases callbacks: finding the wandb logger among the
 * trainer's loggers, and three callbacks that buffer the predictions and
 * targets of each batch and, at the end of an epoch, derive the number of
 * classes from them, report a confusion matrix or an F1/precision/recall
 * heatmap, and empty the buffers.
 *
 * Plotting, the metrics themselves and the uploads are not modelled; an epoch
 * end returns a description of what it reports. The task's conversion of a
 * prediction batch to class labels is the parameter `toMetrics`, and the
 * flattening of a target batch the parameter `labels`.
 */
module WandbCallbacks {
  import opened Wrappers
  import opened PyBuiltins
  import opened Outputs
  import HisDBDataModule

  type Path = HisDBDataModule.Path

  /** A logger attached to the trainer. */
  datatype Logger =
    | WandbLogger(experimentName: string)
    | LoggerCollection(members: seq<Logger>)
    | OtherLogger(name: string)

  /** Errors raised by the callbacks. */
  datatype CallbackError =
    | WandbLoggerNotFound          // the Exception of `get_wandb_logger`
    | MissingKey(key: OutputKey)  // KeyError on the step's output dictionary
    | NoLabels                     // ValueError: nothing to concatenate, or the max of an empty array

  /** The index of the first wandb logger of `loggers`, if there is one. */
  function FirstWandb(loggers: seq<Logger>): (r: Option<nat>)
    ensures r.Some? ==> r.value < |loggers| && loggers[r.value].WandbLogger?
    ensures r.Some? ==> forall j | 0 <= j < r.value :: !loggers[j].WandbLogger?
    ensures r.None? ==> forall j | 0 <= j < |loggers| :: !loggers[j].WandbLogger?
  {
    if loggers == [] then None
    else if loggers[0].WandbLogger? then Some(0)
    else match FirstWandb(loggers[1..])
      case Some(i) => Some(i + 1)
      case None => None
  }

  /** The logger `get_wandb_logger` returns for the trainer's `logger`, or its error. */
  function WandbLoggerOf(logger: Option<Logger>): (r: Result<Logger, CallbackError>)
    ensures r.Success? ==> r.value.WandbLogger?
    ensures r.Failure? ==> r.error == WandbLoggerNotFound
    ensures r.Success? <==>
              logger.Some? &&
              (logger.value.WandbLogger? ||
               (logger.value.LoggerCollection? &&
                exists i | 0 <= i < |logger.value.members| :: logger.value.members[i].WandbLogger?))
  {
    if logger.Some? && logger.value.WandbLogger? then Success(logger.value)
    else if logger.Some? && logger.value.LoggerCollection? && FirstWandb(logger.value.members).Some? then
      Success(logger.value.members[FirstWandb(logger.value.members).value])
    else Failure(WandbLoggerNotFound)
  }

  /**
   * `get_wandb_logger`: the trainer's logger when it is a wandb logger, else the
   * first wandb logger of a logger collection, else an error.
   */
  method GetWandbLogger(logger: Option<Logger>) returns (r: Result<Logger, CallbackError>)
    ensures r == WandbLoggerOf(logger)
    ensures r.Success? ==> r.value.WandbLogger?
    ensures logger.Some? && logger.value.WandbLogger? ==> r == Success(logger.value)
    ensures logger.Some? && logger.value.LoggerCollection? ==>
              (r.Success? <==> exists i | 0 <= i < |logger.value.members| :: logger.value.members[i].WandbLogger?)
    ensures logger.Some? && logger.value.LoggerCollection? && r.Success? ==>
              exists i | 0 <= i < |logger.value.members| ::
                logger.value.members[i] == r.value &&
                forall j | 0 <= j < i :: !logger.value.members[j].WandbLogger?
    ensures logger.None? || logger.value.OtherLogger? ==> r == Failure(WandbLoggerNotFound)
    ensures r.Failure? ==> r.error == WandbLoggerNotFound
  {
    if logger.Some? && logger.value.WandbLogger? {
      return Success(logger.value);
    }
    if logger.Some? && logger.value.LoggerCollection? {
      var members := logger.value.members;
      var i := 0;
      while i < |members|
        invariant 0 <= i <= |members|
        invariant forall j | 0 <= j < i :: !members[j].WandbLogger?
      {
        if members[i].WandbLogger? {
          return Success(members[i]);
        }
        i := i + 1;
      }
    }
    r := Failure(WandbLoggerNotFound);
  }

  /** `np.concatenate([f(b) for b in batches]).flatten()`: the labels of every batch, in order. */
  function Flatten<T>(batches: seq<T>, f: T -> seq<int>): seq<int>
  {
    if batches == [] then [] else Flatten(batches[..|batches| - 1], f) + f(batches[|batches| - 1])
  }

  /** A label is in the flattened sequence exactly when it is among the labels of some batch. */
  lemma {:induction false} FlattenMembers<T>(batches: seq<T>, f: T -> seq<int>, x: int)
    ensures x in Flatten(batches, f) <==> exists i | 0 <= i < |batches| :: x in f(batches[i])
  {
    if batches != [] {
      var init := batches[..|batches| - 1];
      FlattenMembers(init, f, x);
      assert forall i | 0 <= i < |init| :: init[i] == batches[i];
    }
  }

  /** `max(s)` of a non-empty sequence. */
  function MaxOf(s: seq<int>): (m: int)
    requires s != []
    ensures m in s
    ensures forall x | x in s :: x <= m
  {
    if |s| == 1 then s[0]
    else
      var rest := MaxOf(s[1..]);
      assert forall x | x in s[1..] :: x <= rest;
      assert forall x | x in s :: x == s[0] || x in s[1..];
      if s[0] >= rest then s[0] else rest
  }

  /**
   * `max(np.max(preds), np.max(targets)) + 1`: raises when either side has no
   * label; otherwise one more than the largest label, so every label is below it
   * and the largest one is exactly one below.
   */
  function NumClasses(preds: seq<int>, targets: seq<int>): (r: Result<int, CallbackError>)
    ensures r.Failure? <==> preds == [] || targets == []
    ensures r.Failure? ==> r.error == NoLabels
    ensures r.Success? ==> forall x | x in preds + targets :: x < r.value
    ensures r.Success? ==> r.value - 1 in preds + targets
  {
    if preds == [] || targets == [] then Failure(NoLabels)
    else
      var m := if MaxOf(preds) >= MaxOf(targets) then MaxOf(preds) else MaxOf(targets);
      Success(m + 1)
  }

  /**
   * The preprocessing loop of an epoch end: convert each buffered prediction
   * batch to labels, then concatenate.
   */
  method PredictionLabels<T>(preds: seq<T>, toMetrics: T -> seq<int>) returns (flat: seq<int>)
    ensures flat == Flatten(preds, toMetrics)
  {
    var converted: seq<seq<int>> := [];
    flat := [];
    for i := 0 to |preds|
      invariant |converted| == i
      invariant forall j | 0 <= j < i :: converted[j] == toMetrics(preds[j])
      invariant flat == Flatten(preds[..i], toMetrics)
    {
      converted := converted + [toMetrics(preds[i])];
      assert preds[..i + 1][..i] == preds[..i];
      flat := flat + converted[i];
    }
    assert preds[..|preds|] == preds;
  }

  /** What a confusion-matrix epoch end reports. */
  datatype ConfMatReport = ConfMatReport(
    phase: string,
    title: string,
    numClasses: int,
    tablePath: Path,
    imageKey: string,
    logger: Logger)

  /** What a heatmap epoch end reports. */
  datatype HeatmapReport = HeatmapReport(numClasses: int, imageKey: string, logger: Logger)

  /** How an epoch end of a buffering callback ends. */
  datatype EpochEnd<R> =
    | NotRankZero          // the rank-zero-only hook does nothing on other processes
    | NotReady             // returns at once
    | NotGlobalZero        // the test callback's inner rank check failed
    | Reported(report: R)  // reported, and the buffers are empty
    | Raised(error: CallbackError)  // raised, and the buffers are as they were

  /** `CM_epoch_<epoch>`. */
  function ConfMatTitle(epoch: nat): string
  {
    "CM_epoch_" + Decimal(epoch)
  }

  /**
   * The confusion matrix report for `phase`: the logger lookup, then the labels
   * of predictions and targets, then the number of classes; the table goes to
   * `<cwd>/conf_mats/<phase>/CM_epoch_<epoch>.txt`.
   */
  function ConfMatReportOf<T>(phase: string, epoch: nat, cwd: Path, logger: Option<Logger>,
                              preds: seq<T>, targets: seq<T>,
                              toMetrics: T -> seq<int>, labels: T -> seq<int>): (r: Result<ConfMatReport, CallbackError>)
    ensures r.Success? <==>
              WandbLoggerOf(logger).Success? && Flatten(preds, toMetrics) != [] && Flatten(targets, labels) != []
    ensures r.Failure? ==> r.error == (if WandbLoggerOf(logger).Failure? then WandbLoggerNotFound else NoLabels)
    ensures r.Success? ==> r.value.phase == phase && r.value.title == ConfMatTitle(epoch)
    ensures r.Success? ==> r.value.tablePath == cwd + ["conf_mats", phase, ConfMatTitle(epoch) + ".txt"]
    ensures r.Success? ==> r.value.logger == WandbLoggerOf(logger).value
    ensures r.Success? ==> r.value.imageKey == "confusion_matrix_" + phase + "_img/ep_" + Decimal(epoch)
    ensures r.Success? ==> NumClasses(Flatten(preds, toMetrics), Flatten(targets, labels)) == Success(r.value.numClasses)
  {
    match WandbLoggerOf(logger)
    case Failure(e) => Failure(e)
    case Success(wandb) =>
      match NumClasses(Flatten(preds, toMetrics), Flatten(targets, labels))
      case Failure(e) => Failure(e)
      case Success(n) =>
        Success(ConfMatReport(phase, ConfMatTitle(epoch), n, cwd + ["conf_mats", phase, ConfMatTitle(epoch) + ".txt"],
                              "confusion_matrix_" + phase + "_img/ep_" + Decimal(epoch), wandb))
  }

  /**
   * Every label of the buffered batches lies below the reported number of
   * classes, so each one indexes a row or column of the confusion matrix.
   */
  lemma ReportedClassesCoverLabels<T>(phase: string, epoch: nat, cwd: Path, logger: Option<Logger>,
                                      preds: seq<T>, targets: seq<T>,
                                      toMetrics: T -> seq<int>, labels: T -> seq<int>, i: nat, x: int)
    requires ConfMatReportOf(phase, epoch, cwd, logger, preds, targets, toMetrics, labels).Success?
    requires (i < |preds| && x in toMetrics(preds[i])) || (i < |targets| && x in labels(targets[i]))
    ensures x < ConfMatReportOf(phase, epoch, cwd, logger, preds, targets, toMetrics, labels).value.numClasses
  {
    FlattenMembers(preds, toMetrics, x);
    FlattenMembers(targets, labels, x);
  }

  /** The heatmap report: the logger lookup, then the number of classes. */
  function HeatmapReportOf<T>(epoch: nat, logger: Option<Logger>, preds: seq<T>, targets: seq<T>,
                              toMetrics: T -> seq<int>, labels: T -> seq<int>): (r: Result<HeatmapReport, CallbackError>)
    ensures r.Success? <==>
              WandbLoggerOf(logger).Success? && Flatten(preds, toMetrics) != [] && Flatten(targets, labels) != []
    ensures r.Failure? ==> r.error == (if WandbLoggerOf(logger).Failure? then WandbLoggerNotFound else NoLabels)
    ensures r.Success? ==> r.value.logger == WandbLoggerOf(logger).value && r.value.logger.WandbLogger?
    ensures r.Success? ==> NumClasses(Flatten(preds, toMetrics), Flatten(targets, labels)) == Success(r.value.numClasses)
    ensures r.Success? ==>
              r.value.imageKey == "f1_p_r_heatmap/" + r.value.logger.experimentName + "_ep" + Decimal(epoch)
  {
    match WandbLoggerOf(logger)
    case Failure(e) => Failure(e)
    case Success(wandb) =>
      match NumClasses(Flatten(preds, toMetrics), Flatten(targets, labels))
      case Failure(e) => Failure(e)
      case Success(n) =>
        Success(HeatmapReport(n, "f1_p_r_heatmap/" + wandb.experimentName + "_ep" + Decimal(epoch), wandb))
  }

  /** `LogConfusionMatrixToWandbVal`. */
  class LogConfusionMatrixToWandbVal<T> {
    var preds: seq<T>
    var targets: seq<T>
    var ready: bool

    /** The buffers hold one entry per gathered batch, side by side. */
    predicate InLockstep()
      reads this
    {
      |preds| == |targets|
    }

    constructor ()
      ensures preds == [] && targets == [] && ready
    {
      preds, targets, ready := [], [], true;
    }

    /** `on_sanity_check_start`: stop gathering. */
    method OnSanityCheckStart()
      modifies this`ready
      ensures !ready
    {
      ready := false;
    }

    /** `on_sanity_check_end`: start gathering. */
    method OnSanityCheckEnd()
      modifies this`ready
      ensures ready
    {
      ready := true;
    }

    /**
     * `on_validation_batch_end`: when ready, appends the batch's prediction and
     * then its target; a missing key raises at that point.
     */
    method OnValidationBatchEnd(outputs: map<OutputKey, T>) returns (r: Outcome<CallbackError>)
      modifies this`preds, this`targets
      ensures !ready ==> r == Pass && preds == old(preds) && targets == old(targets)
      ensures ready && Prediction in outputs && Target in outputs ==>
                r == Pass && preds == old(preds) + [outputs[Prediction]] && targets == old(targets) + [outputs[Target]]
      ensures ready && Prediction !in outputs ==>
                r == Fail(MissingKey(Prediction)) && preds == old(preds) && targets == old(targets)
      ensures ready && Prediction in outputs && Target !in outputs ==>
                r == Fail(MissingKey(Target)) && preds == old(preds) + [outputs[Prediction]] && targets == old(targets)
      ensures old(InLockstep()) && r.Pass? ==> InLockstep()
    {
      if ready {
        if Prediction !in outputs {
          return Fail(MissingKey(Prediction));
        }
        preds := preds + [outputs[Prediction]];
        if Target !in outputs {
          return Fail(MissingKey(Target));
        }
        targets := targets + [outputs[Target]];
      }
      r := Pass;
    }

    /**
     * `on_validation_epoch_end` (rank zero only): when ready, reports the
     * confusion matrix under phase "val" and empties both buffers; when not ready,
     * or when the report raises, the buffers are untouched.
     */
    method OnValidationEpochEnd(rankZero: bool, epoch: nat, cwd: Path, logger: Option<Logger>,
                                toMetrics: T -> seq<int>, labels: T -> seq<int>) returns (r: EpochEnd<ConfMatReport>)
      modifies this`preds, this`targets
      ensures !rankZero ==> r == NotRankZero && preds == old(preds) && targets == old(targets)
      ensures rankZero && !ready ==> r == NotReady && preds == old(preds) && targets == old(targets)
      ensures rankZero && ready ==>
                var report := ConfMatReportOf("val", epoch, cwd, logger, old(preds), old(targets), toMetrics, labels);
                (report.Success? ==> r == Reported(report.value) && preds == [] && targets == []) &&
                (report.Failure? ==> r == Raised(report.error) && preds == old(preds) && targets == old(targets))
    {
      if !rankZero {
        return NotRankZero;
      }
      if !ready {
        return NotReady;
      }
      var report := CreateAndSaveConfMat(epoch, cwd, logger, preds, targets, "val", toMetrics, labels);
      if report.Failure? {
        return Raised(report.error);
      }
      preds, targets := [], [];
      r := Reported(report.value);
    }
  }

  /** `LogConfusionMatrixToWandbTest`: `ready` is never switched off, as it has no sanity-check hooks. */
  class LogConfusionMatrixToWandbTest<T> {
    var preds: seq<T>
    var targets: seq<T>
    var ready: bool

    predicate InLockstep()
      reads this
    {
      |preds| == |targets|
    }

    constructor ()
      ensures preds == [] && targets == [] && ready
    {
      preds, targets, ready := [], [], true;
    }

    /** `on_test_batch_end`: as the validation callback's batch hook. */
    method OnTestBatchEnd(outputs: map<OutputKey, T>) returns (r: Outcome<CallbackError>)
      modifies this`preds, this`targets
      ensures !ready ==> r == Pass && preds == old(preds) && targets == old(targets)
      ensures ready && Prediction in outputs && Target in outputs ==>
                r == Pass && preds == old(preds) + [outputs[Prediction]] && targets == old(targets) + [outputs[Target]]
      ensures ready && Prediction !in outputs ==>
                r == Fail(MissingKey(Prediction)) && preds == old(preds) && targets == old(targets)
      ensures ready && Prediction in outputs && Target !in outputs ==>
                r == Fail(MissingKey(Target)) && preds == old(preds) + [outputs[Prediction]] && targets == old(targets)
      ensures old(InLockstep()) && r.Pass? ==> InLockstep()
    {
      if ready {
        if Prediction !in outputs {
          return Fail(MissingKey(Prediction));
        }
        preds := preds + [outputs[Prediction]];
        if Target !in outputs {
          return Fail(MissingKey(Target));
        }
        targets := targets + [outputs[Target]];
      }
      r := Pass;
    }

    /**
     * `on_test_epoch_end` (rank zero only): when ready and on the global-zero
     * process, reports the confusion matrix, filed under phase "val", and empties
     * both buffers.
     */
    method OnTestEpochEnd(rankZero: bool, isGlobalZero: bool, epoch: nat, cwd: Path, logger: Option<Logger>,
                          toMetrics: T -> seq<int>, labels: T -> seq<int>) returns (r: EpochEnd<ConfMatReport>)
      modifies this`preds, this`targets
      ensures !rankZero ==> r == NotRankZero && preds == old(preds) && targets == old(targets)
      ensures rankZero && !ready ==> r == NotReady && preds == old(preds) && targets == old(targets)
      ensures rankZero && ready && !isGlobalZero ==> r == NotGlobalZero && preds == old(preds) && targets == old(targets)
      ensures rankZero && ready && isGlobalZero ==>
                var report := ConfMatReportOf("val", epoch, cwd, logger, old(preds), old(targets), toMetrics, labels);
                (report.Success? ==> r == Reported(report.value) && preds == [] && targets == []) &&
                (report.Failure? ==> r == Raised(report.error) && preds == old(preds) && targets == old(targets))
    {
      if !rankZero {
        return NotRankZero;
      }
      if !ready {
        return NotReady;
      }
      if !isGlobalZero {
        return NotGlobalZero;
      }
      var report := CreateAndSaveConfMat(epoch, cwd, logger, preds, targets, "val", toMetrics, labels);
      if report.Failure? {
        return Raised(report.error);
      }
      preds, targets := [], [];
      r := Reported(report.value);
    }
  }

  /** `_create_and_save_conf_mat`: the confusion matrix report of the given buffers for `phase`. */
  method CreateAndSaveConfMat<T>(epoch: nat, cwd: Path, logger: Option<Logger>, inputPreds: seq<T>, inputTargets: seq<T>,
                                 phase: string, toMetrics: T -> seq<int>, labels: T -> seq<int>)
    returns (r: Result<ConfMatReport, CallbackError>)
    ensures r == ConfMatReportOf(phase, epoch, cwd, logger, inputPreds, inputTargets, toMetrics, labels)
  {
    var title := ConfMatTitle(epoch);
    var wandb := GetWandbLogger(logger);
    if wandb.Failure? {
      return Failure(wandb.error);
    }
    var predLabels := PredictionLabels(inputPreds, toMetrics);
    var targetLabels := Flatten(inputTargets, labels);
    var numClasses := NumClasses(predLabels, targetLabels);
    if numClasses.Failure? {
      return Failure(numClasses.error);
    }
    r := Success(ConfMatReport(phase, title, numClasses.value, cwd + ["conf_mats", phase, title + ".txt"],
                               "confusion_matrix_" + phase + "_img/ep_" + Decimal(epoch), wandb.value));
  }

  /** `LogF1PrecRecHeatmapToWandb`. */
  class LogF1PrecRecHeatmapToWandb<T> {
    var preds: seq<T>
    var targets: seq<T>
    var ready: bool

    predicate InLockstep()
      reads this
    {
      |preds| == |targets|
    }

    constructor ()
      ensures preds == [] && targets == [] && ready
    {
      preds, targets, ready := [], [], true;
    }

    /** `on_sanity_check_start`: stop gathering. */
    method OnSanityCheckStart()
      modifies this`ready
      ensures !ready
    {
      ready := false;
    }

    /** `on_sanity_check_end`: start gathering. */
    method OnSanityCheckEnd()
      modifies this`ready
      ensures ready
    {
      ready := true;
    }

    /** `on_validation_batch_end`: as the confusion-matrix callback's batch hook. */
    method OnValidationBatchEnd(outputs: map<OutputKey, T>) returns (r: Outcome<CallbackError>)
      modifies this`preds, this`targets
      ensures !ready ==> r == Pass && preds == old(preds) && targets == old(targets)
      ensures ready && Prediction in outputs && Target in outputs ==>
                r == Pass && preds == old(preds) + [outputs[Prediction]] && targets == old(targets) + [outputs[Target]]
      ensures ready && Prediction !in outputs ==>
                r == Fail(MissingKey(Prediction)) && preds == old(preds) && targets == old(targets)
      ensures ready && Prediction in outputs && Target !in outputs ==>
                r == Fail(MissingKey(Target)) && preds == old(preds) + [outputs[Prediction]] && targets == old(targets)
      ensures old(InLockstep()) && r.Pass? ==> InLockstep()
    {
      if ready {
        if Prediction !in outputs {
          return Fail(MissingKey(Prediction));
        }
        preds := preds + [outputs[Prediction]];
        if Target !in outputs {
          return Fail(MissingKey(Target));
        }
        targets := targets + [outputs[Target]];
      }
      r := Pass;
    }

    /**
     * `on_validation_epoch_end` (rank zero only): when ready, reports the
     * heatmap and empties both buffers.
     */
    method OnValidationEpochEnd(rankZero: bool, epoch: nat, logger: Option<Logger>,
                                toMetrics: T -> seq<int>, labels: T -> seq<int>) returns (r: EpochEnd<HeatmapReport>)
      modifies this`preds, this`targets
      ensures !rankZero ==> r == NotRankZero && preds == old(preds) && targets == old(targets)
      ensures rankZero && !ready ==> r == NotReady && preds == old(preds) && targets == old(targets)
      ensures rankZero && ready ==>
                var report := HeatmapReportOf(epoch, logger, old(preds), old(targets), toMetrics, labels);
                (report.Success? ==> r == Reported(report.value) && preds == [] && targets == []) &&
                (report.Failure? ==> r == Raised(report.error) && preds == old(preds) && targets == old(targets))
    {
      if !rankZero {
        return NotRankZero;
      }
      if !ready {
        return NotReady;
      }
      var wandb := GetWandbLogger(logger);
      if wandb.Failure? {
        return Raised(wandb.error);
      }
      var predLabels := PredictionLabels(preds, toMetrics);
      var targetLabels := Flatten(targets, labels);
      var numClasses := NumClasses(predLabels, targetLabels);
      if numClasses.Failure? {
        return Raised(numClasses.error);
      }
      var report := HeatmapReport(numClasses.value,
                                  "f1_p_r_heatmap/" + wandb.value.experimentName + "_ep" + Decimal(epoch), wandb.value);
      preds, targets := [], [];
      r := Reported(report);
    }
  }
}
