/**
 * The datamodule of the cropped DIVA-HisDB segmentation data: it holds the
 * configuration and the dataset analytics, builds the train/val/test splits
 * on `setup(stage)`, checks that every process can be fed a batch, hands out
 * the per-split loader policies and maps a test crop index back to its
 * provenance record.
 *
 * Things the module only calls are parameters: the dataset analytics are an
 * argument of the constructor, and the crop index of a split (the tiling of its
 * images) is the function `crops` given to `Setup`.
 */
module HisDBDataModule {
  import opened Wrappers
  import opened PyBuiltins
  import BaseDatamodule

  /** A filesystem path as its components; `p / name` is `p + [name]`. */
  type Path = seq<string>

  /** A ground-truth colour (one entry of the class encodings). */
  type Color = seq<int>

  /** The provenance tuple of one crop, each field rendered as text. */
  type Record = seq<string>

  /** What the analytics computation returns for the data directory. */
  datatype Analytics = Analytics(mean: seq<real>, std: seq<real>, classEncodings: seq<Color>, classWeights: seq<real>)

  /** `selection_*`: None (every image), the first N images, or the named images. */
  datatype Selection = AllImages | FirstImages(count: int) | NamedImages(names: seq<string>)

  /** The image-only transform: to tensor, then normalise with the dataset mean and std. */
  datatype ImageTransform = NormalizedTensor(mean: seq<real>, std: seq<real>)

  /** The target-only transform: one-hot encode by colour, then take the label of each pixel. */
  datatype TargetTransform = OneHotToPixelLabels(classEncodings: seq<Color>)

  /** The transform applied to image and target together: a random crop of the given size. */
  datatype TwinTransform = TwinRandomCrop(cropSize: int)

  /** The keyword arguments `_create_dataset_parameters` builds for one split. */
  datatype DatasetParameters = DatasetParameters(
    path: Path,
    imageTransform: ImageTransform,
    targetTransform: TargetTransform,
    twinTransform: TwinTransform,
    classes: seq<Color>,
    isTest: bool)

  /** A cropped dataset reduced to how it was built and its provenance records, one per crop. */
  datatype CroppedDataset = CroppedDataset(parameters: DatasetParameters, selection: Selection, records: seq<Record>)
  {
    /** `len(dataset)`: the number of crops. */
    function Length(): nat { |records| }
  }

  /** The arguments a `DataLoader` is built with. */
  datatype DataLoaderConfig = DataLoaderConfig(
    dataset: CroppedDataset,
    batchSize: int,
    numWorkers: int,
    shuffle: bool,
    dropLast: bool,
    pinMemory: bool)

  /** The verdict of `_check_min_num_samples`. */
  datatype SampleCheck =
    | Enough      // silent
    | Warned      // logs a warning and goes on
    | Infeasible  // logs an error and raises ValueError

  /** A warning logged during setup: the split had fewer samples than one batch per process. */
  datatype SampleWarning = SampleWarning(split: string, numSamples: nat)

  /** Errors raised by `setup`. */
  datatype SetupError =
    | DimsNotSet                               // from the abstract datamodule's guard
    | TooFewSamples(split: string, numSamples: nat)  // the ValueError of the sample check

  /** Errors raised when a split is used. */
  datatype SplitError =
    | SplitNotSetUp(split: string)  // AttributeError: the split was never built
    | NotInTestMode                 // the provenance lookup before the test split exists
    | IndexOutOfRange(index: int)   // IndexError from the record list

  /** The value of an attribute of the datamodule, as the resolver returns it. */
  datatype Attribute =
    | IntValue(i: int)
    | BoolValue(b: bool)
    | IntsValue(ints: seq<int>)
    | RealsValue(reals: seq<real>)
    | ColorsValue(colors: seq<Color>)
    | PathValue(path: Path)
    | SelectionValue(selection: Selection)
    | ImageTransformValue(image: ImageTransform)
    | TargetTransformValue(target: TargetTransform)
    | TwinTransformValue(twin: TwinTransform)
    | DatasetValue(dataset: CroppedDataset)

  /**
   * `_check_min_num_samples`: a split with fewer samples than processes times
   * batch size is an error when incomplete batches are dropped (some process
   * would never get a batch) and only a warning otherwise.
   */
  function CheckMinNumSamples(numSamples: nat, numProcesses: int, batchSize: int, dropLastBatch: bool): (c: SampleCheck)
    ensures c == Infeasible <==> dropLastBatch && numSamples < numProcesses * batchSize
    ensures c == Warned <==> !dropLastBatch && numSamples < numProcesses * batchSize
  {
    if dropLastBatch then
      (if numSamples < numProcesses * batchSize then Infeasible else Enough)
    else
      (if numSamples < numProcesses * batchSize then Warned else Enough)
  }

  /** The comparison is strict: exactly one batch per process passes silently, whatever the drop policy. */
  lemma ExactlyOneBatchPerProcessIsEnough(numProcesses: nat, batchSize: nat, dropLastBatch: bool)
    ensures CheckMinNumSamples(numProcesses * batchSize, numProcesses, batchSize, dropLastBatch) == Enough
  {
  }

  /** Without dropping incomplete batches the check never raises. */
  lemma KeepingLastBatchNeverRaises(numSamples: nat, numProcesses: int, batchSize: int)
    ensures CheckMinNumSamples(numSamples, numProcesses, batchSize, false) != Infeasible
  {
  }

  /** More samples never make the verdict worse. */
  lemma MoreSamplesNeverWorse(n: nat, m: nat, numProcesses: int, batchSize: int, dropLastBatch: bool)
    requires n <= m
    ensures CheckMinNumSamples(n, numProcesses, batchSize, dropLastBatch) == Enough
            ==> CheckMinNumSamples(m, numProcesses, batchSize, dropLastBatch) == Enough
  {
  }

  /** 10 samples, 4 processes, batch size 4: an error when dropping, a warning when not. */
  lemma TenSamplesOnFourByFour()
    ensures CheckMinNumSamples(10, 4, 4, true) == Infeasible
    ensures CheckMinNumSamples(10, 4, 4, false) == Warned
  {
  }

  /** The warning the check of one split logs, if any. */
  function WarningsFor(split: string, numSamples: nat, numProcesses: int, batchSize: int, dropLastBatch: bool): (w: seq<SampleWarning>)
    ensures w != [] <==> CheckMinNumSamples(numSamples, numProcesses, batchSize, dropLastBatch) == Warned
    ensures w != [] ==> w == [SampleWarning(split, numSamples)]
  {
    if CheckMinNumSamples(numSamples, numProcesses, batchSize, dropLastBatch) == Warned
    then [SampleWarning(split, numSamples)]
    else []
  }

  /** `stage == 'fit' or stage is None`: the stages that build train and val. */
  predicate BuildsTrainVal(stage: Option<string>)
  {
    stage == Some("fit") || stage.None?
  }

  /** `stage == 'test' or stage is not None`: the stages that build test. */
  predicate BuildsTest(stage: Option<string>)
  {
    stage == Some("test") || stage.Some?
  }

  /**
   * Which splits each stage builds: 'fit' builds all three, None builds train
   * and val but not test, and any other named stage ('test', 'validate', ...)
   * builds only test.
   */
  lemma StageTable(stage: Option<string>)
    ensures BuildsTest(stage) <==> stage.Some?
    ensures BuildsTrainVal(stage) && BuildsTest(stage) <==> stage == Some("fit")
    ensures BuildsTrainVal(stage) && !BuildsTest(stage) <==> stage.None?
    ensures !BuildsTrainVal(stage) <==> stage.Some? && stage.value != "fit"
  {
  }

  /** The cropped DIVA-HisDB datamodule. */
  class DIVAHisDBDataModuleCropped {
    const dataDir: Path
    const mean: seq<real>
    const std: seq<real>
    const classEncodings: seq<Color>
    const numClasses: nat
    const classWeights: seq<real>
    const imageTransform: ImageTransform
    const targetTransform: TargetTransform
    const twinTransform: TwinTransform
    const numWorkers: int
    const batchSize: int
    const shuffle: bool
    const dropLastBatch: bool
    const selectionTrain: Selection
    const selectionVal: Selection
    const selectionTest: Selection
    var dims: seq<int>
    var train: Option<CroppedDataset>
    var val: Option<CroppedDataset>
    var test: Option<CroppedDataset>

    /**
     * `__init__`: `analytics` is what the analytics computation returned for the
     * data directory and `dataDir` the validated directory. The data has three
     * channels and square crops.
     */
    constructor (dataDir: Path, analytics: Analytics,
                 selectionTrain: Selection := AllImages, selectionVal: Selection := AllImages,
                 selectionTest: Selection := AllImages,
                 cropSize: int := 256, numWorkers: int := 4, batchSize: int := 8,
                 shuffle: bool := true, dropLastBatch: bool := true)
      ensures this.dataDir == dataDir
      ensures mean == analytics.mean && std == analytics.std && classWeights == analytics.classWeights
      ensures classEncodings == analytics.classEncodings && numClasses == |analytics.classEncodings|
      ensures imageTransform == NormalizedTensor(analytics.mean, analytics.std)
      ensures targetTransform == OneHotToPixelLabels(analytics.classEncodings)
      ensures twinTransform == TwinRandomCrop(cropSize)
      ensures this.numWorkers == numWorkers && this.batchSize == batchSize
      ensures this.shuffle == shuffle && this.dropLastBatch == dropLastBatch
      ensures this.selectionTrain == selectionTrain && this.selectionVal == selectionVal
      ensures this.selectionTest == selectionTest
      ensures dims == [3, cropSize, cropSize]
      ensures train.None? && val.None? && test.None?
    {
      this.mean := analytics.mean;
      this.std := analytics.std;
      this.classEncodings := analytics.classEncodings;
      this.numClasses := |analytics.classEncodings|;
      this.classWeights := analytics.classWeights;
      this.imageTransform := NormalizedTensor(analytics.mean, analytics.std);
      this.targetTransform := OneHotToPixelLabels(analytics.classEncodings);
      this.twinTransform := TwinRandomCrop(cropSize);
      this.numWorkers := numWorkers;
      this.batchSize := batchSize;
      this.shuffle := shuffle;
      this.dropLastBatch := dropLastBatch;
      this.dataDir := dataDir;
      this.selectionTrain := selectionTrain;
      this.selectionVal := selectionVal;
      this.selectionTest := selectionTest;
      this.dims := [3, cropSize, cropSize];
      this.train, this.val, this.test := None, None, None;
    }

    /**
     * `_create_dataset_parameters(t)`: the split's directory under the data
     * directory, the shared transforms and classes, and the test flag.
     */
    function DatasetParametersFor(datasetType: string): (p: DatasetParameters)
      ensures p.path == dataDir + [datasetType]
      ensures p.isTest <==> datasetType == "test"
      ensures p.classes == classEncodings
      ensures p.imageTransform == imageTransform && p.targetTransform == targetTransform && p.twinTransform == twinTransform
    {
      DatasetParameters(dataDir + [datasetType], imageTransform, targetTransform, twinTransform,
                        classEncodings, datasetType == "test")
    }

    /**
     * Every split is built with the same transforms and classes; only the path
     * and the test flag tell two splits apart, and different splits live in
     * different directories.
     */
    lemma SplitsShareTransforms(a: string, b: string)
      ensures DatasetParametersFor(a).(path := [], isTest := false) == DatasetParametersFor(b).(path := [], isTest := false)
      ensures a != b ==> DatasetParametersFor(a).path != DatasetParametersFor(b).path
    {
      if a != b {
        assert DatasetParametersFor(a).path[|dataDir|] == a;
        assert DatasetParametersFor(b).path[|dataDir|] == b;
      }
    }

    /** `CroppedHisDBDataset(**self._create_dataset_parameters(split), selection=selection)`. */
    function BuildSplit(split: string, selection: Selection, crops: (DatasetParameters, Selection) -> seq<Record>): (d: CroppedDataset)
      ensures d.parameters == DatasetParametersFor(split) && d.selection == selection
      ensures d.records == crops(DatasetParametersFor(split), selection)
    {
      CroppedDataset(DatasetParametersFor(split), selection, crops(DatasetParametersFor(split), selection))
    }

    /**
     * `setup(stage)`: after the abstract guard on `dims`, 'fit' and None build
     * train and val and check both sample counts (train first); every named stage
     * then builds test. A failing check raises after train and val are assigned
     * and before test is built. The warnings logged are returned.
     */
    method Setup(stage: Option<string>, numProcesses: int, crops: (DatasetParameters, Selection) -> seq<Record>)
      returns (r: Result<seq<SampleWarning>, SetupError>)
      modifies this`train, this`val, this`test
      ensures !BaseDatamodule.DimsSet(Some(dims)) ==>
                r == Failure(DimsNotSet) && train == old(train) && val == old(val) && test == old(test)
      ensures BaseDatamodule.DimsSet(Some(dims)) && BuildsTrainVal(stage) ==>
                train == Some(BuildSplit("train", selectionTrain, crops)) &&
                val == Some(BuildSplit("val", selectionVal, crops))
      ensures BaseDatamodule.DimsSet(Some(dims)) && !BuildsTrainVal(stage) ==>
                train == old(train) && val == old(val)
      ensures BaseDatamodule.DimsSet(Some(dims)) && BuildsTrainVal(stage) ==>
                (r.Failure? <==>
                  CheckMinNumSamples(train.value.Length(), numProcesses, batchSize, dropLastBatch) == Infeasible ||
                  CheckMinNumSamples(val.value.Length(), numProcesses, batchSize, dropLastBatch) == Infeasible)
      ensures BaseDatamodule.DimsSet(Some(dims)) && !BuildsTrainVal(stage) ==> r.Success?
      ensures r.Failure? && BuildsTrainVal(stage) && BaseDatamodule.DimsSet(Some(dims)) ==>
                r.error == (if CheckMinNumSamples(train.value.Length(), numProcesses, batchSize, dropLastBatch) == Infeasible
                            then TooFewSamples("train", train.value.Length())
                            else TooFewSamples("val", val.value.Length()))
      ensures r.Success? ==>
                r.value == (if BuildsTrainVal(stage)
                            then WarningsFor("train", train.value.Length(), numProcesses, batchSize, dropLastBatch) +
                                 WarningsFor("val", val.value.Length(), numProcesses, batchSize, dropLastBatch)
                            else [])
      ensures test == if r.Success? && BuildsTest(stage) then Some(BuildSplit("test", selectionTest, crops)) else old(test)
      ensures r.Success? && BuildsTest(stage) ==>
                ResolveAttribute("test") == Success(DatasetValue(BuildSplit("test", selectionTest, crops)))
      ensures BaseDatamodule.DimsSet(Some(dims)) && BuildsTrainVal(stage) ==>
                ResolveAttribute("train") == Success(DatasetValue(BuildSplit("train", selectionTrain, crops)))
    {
      var guard := BaseDatamodule.SetupGuard(Some(dims));
      if guard.Fail? {
        return Failure(DimsNotSet);
      }
      var warnings: seq<SampleWarning> := [];
      if stage == Some("fit") || stage.None? {
        train := Some(BuildSplit("train", selectionTrain, crops));
        val := Some(BuildSplit("val", selectionVal, crops));
        var n := train.value.Length();
        var check := CheckMinNumSamples(n, numProcesses, batchSize, dropLastBatch);
        if check == Infeasible {
          return Failure(TooFewSamples("train", n));
        }
        warnings := warnings + WarningsFor("train", n, numProcesses, batchSize, dropLastBatch);
        n := val.value.Length();
        check := CheckMinNumSamples(n, numProcesses, batchSize, dropLastBatch);
        if check == Infeasible {
          return Failure(TooFewSamples("val", n));
        }
        warnings := warnings + WarningsFor("val", n, numProcesses, batchSize, dropLastBatch);
      }
      if stage == Some("test") || stage.Some? {
        test := Some(BuildSplit("test", selectionTest, crops));
      }
      r := Success(warnings);
    }

    /** `train_dataloader`: the configured batch size, workers, shuffle and drop policy. */
    function TrainDataloader(): (r: Result<DataLoaderConfig, SplitError>)
      reads this
      ensures r.Success? <==> train.Some?
      ensures r.Failure? ==> r.error == SplitNotSetUp("train")
      ensures r.Success? ==> r.value.dataset == train.value && r.value.shuffle == shuffle && r.value.dropLast == dropLastBatch
      ensures r.Success? ==> r.value.batchSize == batchSize && r.value.numWorkers == numWorkers && r.value.pinMemory
    {
      if train.None? then Failure(SplitNotSetUp("train"))
      else Success(DataLoaderConfig(train.value, batchSize, numWorkers, shuffle, dropLastBatch, true))
    }

    /** `val_dataloader`: the same policy as training. */
    function ValDataloader(): (r: Result<DataLoaderConfig, SplitError>)
      reads this
      ensures r.Success? <==> val.Some?
      ensures r.Failure? ==> r.error == SplitNotSetUp("val")
      ensures r.Success? ==> r.value.dataset == val.value && r.value.shuffle == shuffle && r.value.dropLast == dropLastBatch
      ensures r.Success? ==> r.value.batchSize == batchSize && r.value.numWorkers == numWorkers && r.value.pinMemory
    {
      if val.None? then Failure(SplitNotSetUp("val"))
      else Success(DataLoaderConfig(val.value, batchSize, numWorkers, shuffle, dropLastBatch, true))
    }

    /** `test_dataloader`: never shuffles and never drops the last batch. */
    function TestDataloader(): (r: Result<DataLoaderConfig, SplitError>)
      reads this
      ensures r.Success? <==> test.Some?
      ensures r.Failure? ==> r.error == SplitNotSetUp("test")
      ensures r.Success? ==> r.value.dataset == test.value && !r.value.shuffle && !r.value.dropLast
      ensures r.Success? ==> r.value.batchSize == batchSize && r.value.numWorkers == numWorkers && r.value.pinMemory
    {
      if test.None? then Failure(SplitNotSetUp("test"))
      else Success(DataLoaderConfig(test.value, batchSize, numWorkers, false, false, true))
    }

    /**
     * The three loaders differ only in their dataset and, for test, in the fixed
     * policy: train and val agree on everything else, and all three share the
     * batch size and number of workers.
     */
    lemma LoaderPolicies()
      requires train.Some? && val.Some? && test.Some?
      ensures TrainDataloader().value.(dataset := test.value) == ValDataloader().value.(dataset := test.value)
      ensures TestDataloader().value == TrainDataloader().value.(dataset := test.value, shuffle := false, dropLast := false)
    {
    }

    /**
     * `get_img_name_coordinates(index)`: raises unless the test split exists;
     * otherwise the test record at `index` (Python indexing, negatives count from
     * the end) without its first two fields.
     */
    function GetImgNameCoordinates(index: int): (r: Result<Record, SplitError>)
      reads this
      ensures test.None? ==> r == Failure(NotInTestMode)
      ensures test.Some? ==> (r.Success? <==> -|test.value.records| <= index < |test.value.records|)
      ensures test.Some? && r.Failure? ==> r.error == IndexOutOfRange(index)
      ensures r.Success? ==>
                var records := test.value.records;
                var k := if index < 0 then |records| + index else index;
                |r.value| == (if |records[k]| <= 2 then 0 else |records[k]| - 2) &&
                forall i :: 0 <= i < |r.value| ==> r.value[i] == records[k][i + 2]
    {
      if test.None? then Failure(NotInTestMode)
      else match PyIndex(test.value.records, index)
        case None => Failure(IndexOutOfRange(index))
        case Some(record) => Success(PySliceFrom(record, 2))
    }

    /** The names of the attributes `__init__` sets. */
    static const ConfigAttributeNames: set<string> := {
      "data_dir", "mean", "std", "class_encodings", "num_classes", "class_weights",
      "image_transform", "target_transform", "twin_transform", "num_workers", "batch_size",
      "shuffle", "drop_last_batch", "selection_train", "selection_val", "selection_test", "dims"}

    /** The attributes `__init__` sets, by name. */
    function ConfigAttributes(): (config: map<string, Attribute>)
      reads this
      ensures config.Keys == ConfigAttributeNames
      ensures "train" !in config && "val" !in config && "test" !in config
    {
      map[
        "data_dir" := PathValue(dataDir),
        "mean" := RealsValue(mean),
        "std" := RealsValue(std),
        "class_encodings" := ColorsValue(classEncodings),
        "num_classes" := IntValue(numClasses),
        "class_weights" := RealsValue(classWeights),
        "image_transform" := ImageTransformValue(imageTransform),
        "target_transform" := TargetTransformValue(targetTransform),
        "twin_transform" := TwinTransformValue(twinTransform),
        "num_workers" := IntValue(numWorkers),
        "batch_size" := IntValue(batchSize),
        "shuffle" := BoolValue(shuffle),
        "drop_last_batch" := BoolValue(dropLastBatch),
        "selection_train" := SelectionValue(selectionTrain),
        "selection_val" := SelectionValue(selectionVal),
        "selection_test" := SelectionValue(selectionTest),
        "dims" := IntsValue(dims)]
    }

    /** The split attributes `setup` has set so far, by name. */
    function SplitAttributes(): (splits: map<string, Attribute>)
      reads this
      ensures forall name :: name in splits <==>
                (name == "train" && train.Some?) || (name == "val" && val.Some?) || (name == "test" && test.Some?)
      ensures train.Some? ==> splits["train"] == DatasetValue(train.value)
      ensures val.Some? ==> splits["val"] == DatasetValue(val.value)
      ensures test.Some? ==> splits["test"] == DatasetValue(test.value)
    {
      (if train.Some? then map["train" := DatasetValue(train.value)] else map[]) +
      (if val.Some? then map["val" := DatasetValue(val.value)] else map[]) +
      (if test.Some? then map["test" := DatasetValue(test.value)] else map[])
    }

    /** All current attributes of the instance, by name, as `getattr` sees them. */
    function Attributes(): (attrs: map<string, Attribute>)
      reads this
      ensures attrs.Keys == ConfigAttributes().Keys + SplitAttributes().Keys
      ensures forall name | name in ConfigAttributes() :: attrs[name] == ConfigAttributes()[name]
      ensures train.Some? ==> attrs["train"] == DatasetValue(train.value)
      ensures val.Some? ==> attrs["val"] == DatasetValue(val.value)
      ensures test.Some? ==> attrs["test"] == DatasetValue(test.value)
    {
      ConfigAttributes() + SplitAttributes()
    }

    /**
     * The "datamodule" resolver bound to this instance: configuration values
     * resolve to the current fields, and a split resolves only once it is built.
     */
    function ResolveAttribute(name: string): (r: Result<Attribute, BaseDatamodule.BaseError>)
      reads this
      ensures r.Success? <==> name in Attributes()
      ensures r.Success? ==> r.value == Attributes()[name]
      ensures r.Failure? ==> r.error == BaseDatamodule.NoSuchAttribute(name)
      ensures name in ConfigAttributeNames ==> r.Success?
      ensures name == "test" ==> (r.Success? <==> test.Some?) && (r.Success? ==> r.value == DatasetValue(test.value))
      ensures name == "train" ==> (r.Success? <==> train.Some?) && (r.Success? ==> r.value == DatasetValue(train.value))
      ensures name == "val" ==> (r.Success? <==> val.Some?) && (r.Success? ==> r.value == DatasetValue(val.value))
    {
      BaseDatamodule.Resolve(Attributes(), name)
    }
  }
}
