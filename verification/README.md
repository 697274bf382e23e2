# DIVA-DAF datamodule and callback glue, modelled in Dafny

DIVA-DAF trains segmentation networks on the DIVA-HisDB manuscript pages
with PyTorch Lightning. Around the framework sits a layer of deterministic
rules and small state machines, and this project models that layer:

- **The cropped HisDB datamodule** (`hisdb_datamodule.dfy`). This is the
  class `DIVAHisDBDataModuleCropped`. It holds its configuration and builds
  the train/val/test splits on `setup(stage)`. Test is built for every named
  stage, including `'fit'`, and never for `None`. Setup checks that every
  process gets a full batch: a shortfall is an error when incomplete batches
  are dropped and only a warning otherwise. The class also hands out the
  per-split loader policies and maps a test crop index back to its
  provenance record.
- **The abstract datamodule** (`base_datamodule.dfy`). Its setup raises
  when `dims` is unset. It also has the uncached `"datamodule"` resolver,
  which looks an attribute up by name.
- **The step-output helpers** (`outputs.dfy`). These are the `OutputKeys`
  enumeration, `reduce_dict`, and `save_numpy_files`. The last one writes
  every test prediction patch to `<root>/patches/<image>/<patch>.npy`.
- **The model callbacks** (`model_callbacks.dfy`). The checkpoint callback
  stores the backbone's and the header's weights. On a regular save it first
  deletes the previous epoch's folder, and on a `last` save it uses
  `_last` names. The compatibility check probes the model once.
- **The wandb callbacks** (`wandb_callbacks.dfy`). These cover the search
  for the wandb logger and three callbacks that buffer predictions and
  targets while `ready`. At the end of an epoch they derive the number of
  classes, report, and empty their buffers.

`py_builtins.dfy` gives the Python built-ins this code relies on, with
CPython's semantics: `split('/')[-1]`, `posixpath.join`, substring `in`,
`str(n)`, negative indexing and `s[n:]`. `wrappers.dfy` holds
`Option`/`Result`/`Outcome`.

Objects whose fields the source updates are classes with `modifies`
clauses:

- the datamodule's `train`/`val`/`test`;
- the callbacks' `ready`, `preds`, `targets` and `checked`;
- the filesystem the checkpoint callback writes to;
- the store of saved patches.

Each mutating method states its whole new state in terms of specification
functions, and lemmas prove what the source promises about those
functions. Raised exceptions become `Failure`/`Fail` values, and the
state at the point of the raise is stated too.

Code the modelled files only call is passed in as a parameter:

- the dataset's crop index of a split: `crops`;
- the analytics of the data directory: an argument of the constructor;
- Lightning's checkpoint name formatter: `format`;
- the forward passes of the model: `backbone` and `model`;
- the task's `to_metrics_format`: `toMetrics`, with the target flattening as `labels`;
- the number of processes and the rank tests: plain arguments.

## Model

| member | source | states |
|---|---|---|
| HisDBDataModule.CheckMinNumSamples | src/datamodules/hisDBDataModule/DIVAHisDBDataModule.py:75-91 | Raises exactly when incomplete batches are dropped and samples < processes × batch size; warns exactly when they are kept and the same shortfall holds. |
| HisDBDataModule.ExactlyOneBatchPerProcessIsEnough | src/datamodules/hisDBDataModule/DIVAHisDBDataModule.py:79-86 | The comparison is strict: exactly processes × batch size samples pass silently under both drop policies. |
| HisDBDataModule.KeepingLastBatchNeverRaises | src/datamodules/hisDBDataModule/DIVAHisDBDataModule.py:85-91 | With `drop_last_batch` false the check never raises. |
| HisDBDataModule.MoreSamplesNeverWorse | src/datamodules/hisDBDataModule/DIVAHisDBDataModule.py:75-91 | The check is monotone: if n samples pass silently, so does any larger count. |
| HisDBDataModule.TenSamplesOnFourByFour | src/datamodules/hisDBDataModule/DIVAHisDBDataModule.py:75-91 | 10 samples on 4 processes with batch size 4 raise when dropping and warn when not. |
| HisDBDataModule.WarningsFor | src/datamodules/hisDBDataModule/DIVAHisDBDataModule.py:85-91 | A split logs a warning (naming the split and its sample count) exactly when the check warns. |
| HisDBDataModule.StageTable | src/datamodules/hisDBDataModule/DIVAHisDBDataModule.py:61-71 | Test is built exactly for named stages. 'fit' builds all three splits; None builds train and val but not test; any other name builds only test. |
| HisDBDataModule.DIVAHisDBDataModuleCropped.constructor | src/datamodules/hisDBDataModule/DIVAHisDBDataModule.py:19-57 | `dims == [3, crop, crop]` and `num_classes == len(class_encodings)`. Transforms are built from the analytics' mean, std and encodings. Defaults are 256/4/8/shuffle/drop, and no split exists yet. |
| HisDBDataModule.DIVAHisDBDataModuleCropped.DatasetParametersFor | src/datamodules/hisDBDataModule/DIVAHisDBDataModule.py:117-124 | The path is the data directory joined with the split name, `is_test` holds iff the split is 'test', the classes are the class encodings, and the image, target and twin transforms are the instance's own (so every built split uses the transforms derived from the analytics). |
| HisDBDataModule.DIVAHisDBDataModuleCropped.SplitsShareTransforms | src/datamodules/hisDBDataModule/DIVAHisDBDataModule.py:117-124 | Any two splits share transforms and classes, and different split names give different directories. |
| HisDBDataModule.DIVAHisDBDataModuleCropped.BuildSplit | src/datamodules/hisDBDataModule/DIVAHisDBDataModule.py:62-71 | A split is built from that split's dataset parameters and its selection, and its records are the crops the dataset finds for exactly those parameters and that selection. |
| HisDBDataModule.DIVAHisDBDataModuleCropped.Setup | src/datamodules/hisDBDataModule/DIVAHisDBDataModule.py:59-73 | Empty `dims` raises with no change. 'fit'/None build train and val, then raise iff either check is infeasible (train first, before test is built). Otherwise the warnings are returned, and test is built iff the stage is named. Splits not built keep their value. The uncached resolver then returns the newly built splits. |
| HisDBDataModule.DIVAHisDBDataModuleCropped.TrainDataloader | src/datamodules/hisDBDataModule/DIVAHisDBDataModule.py:93-99 | Fails iff train is not set up; otherwise uses the train split with the configured batch size, number of workers, shuffle and drop policy, and pinned memory. |
| HisDBDataModule.DIVAHisDBDataModuleCropped.ValDataloader | src/datamodules/hisDBDataModule/DIVAHisDBDataModule.py:101-107 | Fails iff val is not set up; otherwise uses the val split with the configured batch size, number of workers, shuffle and drop policy, and pinned memory. |
| HisDBDataModule.DIVAHisDBDataModuleCropped.TestDataloader | src/datamodules/hisDBDataModule/DIVAHisDBDataModule.py:109-115 | Fails iff test is not set up; otherwise uses the test split with the configured batch size and number of workers and pinned memory, never shuffles and never drops the last batch. |
| HisDBDataModule.DIVAHisDBDataModuleCropped.LoaderPolicies | src/datamodules/hisDBDataModule/DIVAHisDBDataModule.py:93-115 | Train and val loaders agree on everything but the dataset. The test loader is the train policy with shuffle and drop_last off. |
| HisDBDataModule.DIVAHisDBDataModuleCropped.GetImgNameCoordinates | src/datamodules/hisDBDataModule/DIVAHisDBDataModule.py:126-136 | Raises when no test split exists; raises IndexError (not the test-mode error) for an index outside `[-n, n)`; otherwise returns that test record (negative indices count from the end) without its first two fields. |
| HisDBDataModule.DIVAHisDBDataModuleCropped.ConfigAttributes | src/datamodules/hisDBDataModule/DIVAHisDBDataModule.py:30-57 | The attributes `__init__` sets are exactly the seventeen configuration names, and none of them is a split name. |
| HisDBDataModule.DIVAHisDBDataModuleCropped.SplitAttributes | src/datamodules/hisDBDataModule/DIVAHisDBDataModule.py:62-71 | A split name is an attribute exactly when `setup` has built that split, and its value is the built dataset. |
| HisDBDataModule.DIVAHisDBDataModuleCropped.Attributes | src/datamodules/hisDBDataModule/DIVAHisDBDataModule.py:19-71 | The instance's attributes are the configuration ones plus the splits built so far, each with its current value. |
| HisDBDataModule.DIVAHisDBDataModuleCropped.ResolveAttribute | src/datamodules/base_datamodule.py:10-15 | The resolver succeeds exactly for a current attribute of the instance and returns its current value; every other name raises AttributeError naming it. Every configuration name resolves, and a split resolves iff it has been built, to the built dataset. |
| BaseDatamodule.SetupGuard | src/datamodules/base_datamodule.py:17-19 | Raises iff `dims` is None or empty; otherwise passes without changing anything. |
| BaseDatamodule.Resolve | src/datamodules/base_datamodule.py:10-13 | Succeeds iff the instance has an attribute of that name, returning its value; otherwise raises AttributeError. |
| Outputs.KeyOf | src/tasks/utils/outputs.py:8-12 | A value maps back only to the member carrying that value. |
| Outputs.KeyValueRoundTrip | src/tasks/utils/outputs.py:8-12 | Each member is recovered from its value ('pred', 'target', 'logs', 'loss'). |
| Outputs.ValuesDistinct | src/tasks/utils/outputs.py:8-12 | No two members share a value. |
| Outputs.ReduceDict | src/tasks/utils/outputs.py:18-19 | The keys are exactly those both listed and present in the input (absent listed keys are skipped), and each value is the input's. |
| Outputs.ReduceDictIdempotent | src/tasks/utils/outputs.py:18-19 | Reducing twice by the same list equals reducing once. |
| Outputs.ReduceDictDependsOnKeySet | src/tasks/utils/outputs.py:18-19 | Only the set of listed keys matters, not their order or repetitions. |
| Outputs.ReduceDictKeepsListedInput | src/tasks/utils/outputs.py:18-19 | Listing every input key returns the input unchanged. |
| Outputs.DestinationMeaning | src/tasks/utils/outputs.py:27-32 | A failing provenance lookup raises its error. A record with fewer than two fields raises IndexError. Otherwise the patch goes to the path built from the record's first two fields. |
| Outputs.PatchPath | src/tasks/utils/outputs.py:30-32 | The destination is the root followed by 'patches', the image name and `<patch name>.npy`. |
| Outputs.PlanWritesMeaning | src/tasks/utils/outputs.py:25-34 | Pair i is written to the destination of index i. A completed call writes `min(#patches, #indices)` files; a call that raises stops at the first failing lookup with its error. |
| Outputs.ApplyWritesMeaning | src/tasks/utils/outputs.py:34 | Afterwards the files are the old ones plus every written path. Unwritten paths keep their content, and a written path holds its last write. |
| Outputs.PatchStore.Save | src/tasks/utils/outputs.py:34 | Saving sets one path's content and leaves every other path unchanged. |
| Outputs.SaveNumpyFiles | src/tasks/utils/outputs.py:22-34 | With no provenance lookup, or no predictions, it raises before any write. Otherwise the store ends as the old files plus the planned writes, and it raises iff a lookup in the zip raised. |
| ModelCallbacks.WithoutFolderMeaning | src/callbacks/model_callbacks.py:56-62 | Deleting a missing folder is a no-op. Otherwise the folder and every listed entry are gone, and every other path keeps its entry. |
| ModelCallbacks.FileSystem.Remove | src/callbacks/model_callbacks.py:60-62 | Removes exactly one path. |
| ModelCallbacks.FileSystem.Save | src/callbacks/model_callbacks.py:51-52 | Writes one file and leaves the rest. |
| ModelCallbacks.SaveModelStateDictAndTaskCheckpoint.constructor | src/callbacks/model_callbacks.py:22-27 | Filenames default to 'backbone' and 'header'; the last-checkpoint name is 'task_last'. |
| ModelCallbacks.SaveModelStateDictAndTaskCheckpoint.WeightNames | src/callbacks/model_callbacks.py:37-49 | A save whose path contains 'last' names both files `<last '/' segment of the configured name>_last`, which has no '/'. Any other save uses the library formatter on each configured name. |
| ModelCallbacks.SaveModelStateDictAndTaskCheckpoint.WeightFileInDirpath | src/callbacks/model_callbacks.py:51-52 | A weight file with a plain base name is an entry of `dirpath` named `<name>.pth`. |
| ModelCallbacks.SaveModelStateDictAndTaskCheckpoint.StaleFolder | src/callbacks/model_callbacks.py:37-46 | A folder is chosen for deletion iff 'last' is not in the path and the epoch is > 0. It is `dirpath/epoch=<epoch-1>`. Whether it exists, and so is actually deleted, is stated by AfterSaveDeletesOnlyStaleFolder. |
| ModelCallbacks.SaveModelStateDictAndTaskCheckpoint.StaleFolderIsPreviousEpoch | src/callbacks/model_callbacks.py:43-46 | The deleted folder is an entry of `dirpath` named `epoch=<epoch-1>`, and never the current epoch's folder. |
| ModelCallbacks.SaveModelStateDictAndTaskCheckpoint.LastWeightsStayInDirpath | src/callbacks/model_callbacks.py:47-52 | A 'last' save writes both files directly in `dirpath`: the backbone's as `<last segment of backbone_filename>_last.pth` and the header's as `<last segment of header_filename>_last.pth`. |
| ModelCallbacks.SaveModelStateDictAndTaskCheckpoint.CleanedIsSubmap | src/callbacks/model_callbacks.py:55-62 | Removing the stale folder only removes paths; every path left keeps its entry. |
| ModelCallbacks.SaveModelStateDictAndTaskCheckpoint.AfterSaveWritesWeights | src/callbacks/model_callbacks.py:29-52 | After a rank-zero save both weight files exist: the header's with the header weights, the backbone's with its weights unless the two names coincide. No other path gains or changes content. |
| ModelCallbacks.SaveModelStateDictAndTaskCheckpoint.AfterSaveDeletesOnlyStaleFolder | src/callbacks/model_callbacks.py:37-52 | An old path other than the two weight files disappears exactly when it is the existing stale folder or listed in it. So nothing is deleted for a 'last' save or at epoch 0. |
| ModelCallbacks.SaveModelStateDictAndTaskCheckpoint.DelOldFolder | src/callbacks/model_callbacks.py:54-63 | The filesystem ends as the old one without the folder and its listed entries. |
| ModelCallbacks.SaveModelStateDictAndTaskCheckpoint.SaveCheckpoint | src/callbacks/model_callbacks.py:29-52 | On a non-zero rank nothing changes. Otherwise the filesystem ends as the specified stale-folder deletion followed by the two weight writes. |
| ModelCallbacks.CheckBackboneHeaderCompatibility.constructor | src/callbacks/model_callbacks.py:68-69 | Starts unchecked. |
| ModelCallbacks.CheckBackboneHeaderCompatibility.Setup | src/callbacks/model_callbacks.py:71-99 | Once checked it does nothing. Otherwise it probes with shape `(batch_size, *dims)`. A RuntimeError from the backbone or from the whole model exits the process. Any other exception leaves `setup`. `checked` is set exactly when both passes run. |
| PyBuiltins.LastSegment | src/callbacks/model_callbacks.py:48-49 | `split('/')[-1]` is the '/'-free suffix of the string, preceded by '/' when shorter than it. |
| PyBuiltins.JoinPathMeaning | src/callbacks/model_callbacks.py:45 | `os.path.join(a, b)` is `b` when `b` is absolute. Otherwise it is `a`, then one '/' unless `a` is empty or ends with one, then `b`. |
| PyBuiltins.SegmentOfJoin | src/callbacks/model_callbacks.py:45 | Splitting `os.path.join(dir, name)` on '/' gives back a plain name. |
| PyBuiltins.ContainsInfix | src/callbacks/model_callbacks.py:37 | `'last' in filepath` holds whenever 'last' occurs at some position of the path. |
| PyBuiltins.Decimal | src/callbacks/model_callbacks.py:45 | `str(n)` is a non-empty run of decimal digits ending in the digit of `n % 10`; it has one digit iff `n < 10`. |
| PyBuiltins.DecimalInjective | src/callbacks/model_callbacks.py:45 | Different epochs give different `epoch=<n>` names. |
| PyBuiltins.PyIndex | src/datamodules/hisDBDataModule/DIVAHisDBDataModule.py:136 | `s[i]` succeeds iff `-len(s) <= i < len(s)`; a negative index counts from the end. |
| PyBuiltins.PySliceFrom | src/datamodules/hisDBDataModule/DIVAHisDBDataModule.py:136 | `s[n:]` never raises. It has `len(s) - n` elements (none when `s` is shorter) and element i is `s[n + i]`. |
| WandbCallbacks.FirstWandb | src/callbacks/wandb_callbacks.py:26-29 | Returns the index of the first wandb logger, with none before it, or None when there is none. |
| WandbCallbacks.WandbLoggerOf | src/callbacks/wandb_callbacks.py:22-33 | Succeeds iff the logger is wandb, or is a collection containing one; the result is always a wandb logger, and otherwise it raises. |
| WandbCallbacks.GetWandbLogger | src/callbacks/wandb_callbacks.py:22-33 | The loop search equals the specification. It returns the logger itself, else the first wandb member of a collection, else raises. |
| WandbCallbacks.FlattenMembers | src/callbacks/wandb_callbacks.py:84-89 | A label is in the concatenation iff it is among some batch's labels. |
| WandbCallbacks.MaxOf | src/callbacks/wandb_callbacks.py:92 | The maximum occurs in the sequence and bounds every element. |
| WandbCallbacks.NumClasses | src/callbacks/wandb_callbacks.py:92 | Raises iff either side has no label. Otherwise every label is below the result, and result − 1 is one of the labels. |
| WandbCallbacks.PredictionLabels | src/callbacks/wandb_callbacks.py:84-88 | The loop's output is the concatenation of every batch's converted labels, in order. |
| WandbCallbacks.ConfMatReportOf | src/callbacks/wandb_callbacks.py:171-211 | Succeeds iff a wandb logger exists and both label lists are non-empty. A missing wandb logger raises the logger-lookup error whatever the buffers hold; only once a logger is found can empty labels raise ValueError. The class count is `max + 1` over all labels. It is titled `CM_epoch_<e>`, saved to `<cwd>/conf_mats/<phase>/CM_epoch_<e>.txt` and logged as `confusion_matrix_<phase>_img/ep_<e>` through that logger. |
| WandbCallbacks.ReportedClassesCoverLabels | src/callbacks/wandb_callbacks.py:92-96 | Every buffered label is below the reported class count. |
| WandbCallbacks.HeatmapReportOf | src/callbacks/wandb_callbacks.py:250-287 | Succeeds iff a wandb logger exists and both label lists are non-empty. A missing wandb logger raises the logger-lookup error whatever the buffers hold; only once a logger is found can empty labels raise ValueError. The class count is `max + 1` over all labels, and the image key is `f1_p_r_heatmap/<experiment>_ep<e>`. |
| WandbCallbacks.CreateAndSaveConfMat | src/callbacks/wandb_callbacks.py:161-216 | The method computes exactly the specified report or error. |
| WandbCallbacks.LogConfusionMatrixToWandbVal.constructor | src/callbacks/wandb_callbacks.py:54-57 | Buffers start empty and the callback is ready. |
| WandbCallbacks.LogConfusionMatrixToWandbVal.OnSanityCheckStart | src/callbacks/wandb_callbacks.py:59-60 | Sets `ready` to false. |
| WandbCallbacks.LogConfusionMatrixToWandbVal.OnSanityCheckEnd | src/callbacks/wandb_callbacks.py:62-64 | Sets `ready` to true. |
| WandbCallbacks.LogConfusionMatrixToWandbVal.OnValidationBatchEnd | src/callbacks/wandb_callbacks.py:66-72 | Appends one prediction and one target when ready, and nothing otherwise; equal buffer lengths are preserved. A missing key raises, after the prediction was appended if only the target is missing. |
| WandbCallbacks.LogConfusionMatrixToWandbVal.OnValidationEpochEnd | src/callbacks/wandb_callbacks.py:74-128 | Off rank zero, or when not ready, the buffers are untouched. Otherwise it reports the 'val' matrix and empties both buffers, or raises with the buffers untouched. |
| WandbCallbacks.LogConfusionMatrixToWandbTest.constructor | src/callbacks/wandb_callbacks.py:136-139 | Buffers start empty and the callback is ready. |
| WandbCallbacks.LogConfusionMatrixToWandbTest.OnTestBatchEnd | src/callbacks/wandb_callbacks.py:141-147 | Same lockstep append as validation. |
| WandbCallbacks.LogConfusionMatrixToWandbTest.OnTestEpochEnd | src/callbacks/wandb_callbacks.py:149-158 | Buffers are cleared only on the global-zero process after a successful report, which is filed under phase 'val'. |
| WandbCallbacks.LogF1PrecRecHeatmapToWandb.constructor | src/callbacks/wandb_callbacks.py:224-227 | Buffers start empty and the callback is ready. |
| WandbCallbacks.LogF1PrecRecHeatmapToWandb.OnSanityCheckStart | src/callbacks/wandb_callbacks.py:229-230 | Sets `ready` to false. |
| WandbCallbacks.LogF1PrecRecHeatmapToWandb.OnSanityCheckEnd | src/callbacks/wandb_callbacks.py:232-234 | Sets `ready` to true. |
| WandbCallbacks.LogF1PrecRecHeatmapToWandb.OnValidationBatchEnd | src/callbacks/wandb_callbacks.py:236-242 | Same lockstep append as the confusion-matrix callback. |
| WandbCallbacks.LogF1PrecRecHeatmapToWandb.OnValidationEpochEnd | src/callbacks/wandb_callbacks.py:244-293 | When not ready, or off rank zero, the buffers are untouched. Otherwise it reports the heatmap and empties both buffers, or raises with the buffers untouched. |

## Left out

- Dataset internals are not part of this model: crop tiling, image analytics, class-weight computation and the `CroppedHisDBDataset` class. A split is its dataset parameters, its selection and its provenance records, and the records come from the `crops` parameter. `validate_path_for_segmentation` is not modelled; the constructor receives the validated directory.
- Transforms are symbolic values. Normalisation with float mean/std and the one-hot encoding internals are not computed.
- The `DataLoader` is reduced to the arguments it is built with. Worker processes and `pin_memory` behaviour are not modelled.
- HisDBDataModule.DIVAHisDBDataModuleCropped.Setup: logging is modelled as the returned list of warnings, and `trainer.num_processes` is an argument.
- HisDBDataModule.DIVAHisDBDataModuleCropped.Attributes: the value of each configuration attribute is built from its field but not restated per name in a contract.
- HisDBDataModule.DIVAHisDBDataModuleCropped.ResolveAttribute: only the instance's own fields are attributes. Attributes Lightning's base class adds, such as `trainer`, are not modelled. Neither is the process-global resolver registry that `OmegaConf.register_new_resolver` changes, nor the name `datamodule` it is registered under.
- Outputs.ReduceDict: the insertion order of the returned dictionary is not modelled, since maps are unordered.
- Outputs.SaveNumpyFiles: the `.detach().cpu().numpy()` conversions and the `mkdir` of the destination folders are not modelled. A patch is an opaque value, and provenance fields are text.
- Outputs.KeyHash: `OutputKeys.__hash__` is modelled by definition only, as the string hash (a parameter) of the member's value. No lemma about it is stated. Dictionaries in the model are keyed by `OutputKey`, not by the equal strings.
- Outputs.PatchPath: pathlib's `/` is modelled as appending one component. Pathlib differs in two cases that are not modelled. It splits an image or patch name containing '/' into several components. It restarts from a name that begins with '/'.
- ModelCallbacks.SaveModelStateDictAndTaskCheckpoint.SaveCheckpoint: the following are not modelled:
  - the superclass `ModelCheckpoint._save_checkpoint`;
  - `_monitor_candidates`, whose result is the `metrics` argument;
  - `_format_checkpoint_name`, which is the `format` argument;
  - serialisation, since the weights are given as bytes.
- ModelCallbacks.SaveModelStateDictAndTaskCheckpoint.DelOldFolder: `rm` and `rmdir` always succeed and remove exactly one path. The failure of `rmdir` on a non-empty folder is not modelled, and neither are the contents of listed sub-folders.
- ModelCallbacks.CheckBackboneHeaderCompatibility.Setup: each forward pass is reduced to how it ends. It either runs, raises a RuntimeError (caught: `sys.exit(1)`, the outcome `BackboneFailed` or `HeaderMismatch`), or raises anything else. Anything else is not caught and leaves `setup`, as the outcome `Propagated`. An example is a KeyError from the `'out'` lookup on a dictionary output. Random inputs, the output shapes and logging are not modelled.
- `rank_zero_only` and distributed ranks are boolean arguments.
- `WatchModelWithWandb` is not modelled. It only forwards to the wandb logger's `watch`.
- The confusion matrix, F1, precision and recall computations are not modelled. Neither are plotting, the TSV file contents, `experiment.save` and `experiment.log`. An epoch end returns a record of what it would report: title, table path, image key, class count and logger.
- WandbCallbacks.LogConfusionMatrixToWandbVal.OnValidationBatchEnd: the `.detach().cpu().numpy()` copy is the identity on an opaque batch. The same holds for the two other batch hooks.
- WandbCallbacks.NumClasses: numpy's errors for empty input collapse into one error, `NoLabels`. These are `np.concatenate` of an empty list and `np.max` of an empty array.
