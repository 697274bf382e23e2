/**
 * The two model callbacks: a checkpoint callback that also stores the
 * backbone's and the header's weights as separate files (and removes the
 * previous epoch's checkpoint folder), and a one-time check that a batch of
 * the datamodule's shape goes through the backbone and through the whole model.
 *
 * The checkpoint library's own name formatter is the parameter `format`, the
 * forward passes are the probes `backbone` and `model`, and the
 * filesystem is a map from path to entry.
 */
module ModelCallbacks {
  import opened Wrappers
  import opened PyBuiltins

  /** The serialised content of a file. */
  type Bytes = seq<bv8>

  /** The metric values the checkpoint names are formatted with. */
  type Metrics = map<string, int>

  datatype Entry = File(content: Bytes) | Directory

  /** The paths of `entries` listed directly inside `dir` (what `ls(dir)` returns). */
  function Listing(entries: map<string, Entry>, dir: string): set<string>
  {
    set p | p in entries && IsEntryOf(p, dir)
  }

  /**
   * The filesystem after `_del_old_folder(dir)`: nothing happens when `dir`
   * does not exist; otherwise every listed entry and then `dir` itself are gone
   * and everything else is as it was.
   */
  function WithoutFolder(entries: map<string, Entry>, dir: string): map<string, Entry>
  {
    if dir in entries then entries - Listing(entries, dir) - {dir} else entries
  }

  /**
   * Deleting a folder is a no-op when it does not exist; otherwise exactly the
   * folder and its listed entries disappear, and every other path keeps its entry.
   */
  lemma WithoutFolderMeaning(entries: map<string, Entry>, dir: string)
    ensures var r := WithoutFolder(entries, dir);
      && (dir !in entries ==> r == entries)
      && (dir in entries ==> dir !in r && forall p | p in entries && IsEntryOf(p, dir) :: p !in r)
      && (forall p | p in r :: p in entries && r[p] == entries[p])
      && (forall p | p in entries && p != dir && !IsEntryOf(p, dir) :: p in r)
  {
  }

  /** Removing a set of paths and then one more is removing them all at once. */
  lemma RemoveOneMore(entries: map<string, Entry>, gone: set<string>, path: string)
    ensures entries - gone - {path} == entries - (gone + {path})
  {
  }

  /** Appending "_last" and then ".pth" appends "_last.pth". */
  lemma SuffixesCombine(base: string)
    ensures base + "_last" + ".pth" == base + "_last.pth"
  {
    assert "_last" + ".pth" == "_last.pth";
  }

  /** The filesystem the checkpoint callback writes to. */
  class FileSystem {
    var entries: map<string, Entry>

    constructor (entries: map<string, Entry>)
      ensures this.entries == entries
    {
      this.entries := entries;
    }

    /** `rm(path)` and `rmdir(path)`. */
    method Remove(path: string)
      modifies this
      ensures entries == old(entries) - {path}
    {
      entries := entries - {path};
    }

    /** `torch.save(state, path)`. */
    method Save(path: string, content: Bytes)
      modifies this
      ensures entries == old(entries)[path := File(content)]
    {
      entries := entries[path := File(content)];
    }
  }

  /** `SaveModelStateDictAndTaskCheckpoint`: the part of the checkpoint callback this repository adds. */
  class SaveModelStateDictAndTaskCheckpoint {
    const backboneFilename: string
    const headerFilename: string
    const dirpath: string
    const checkpointNameLast: string
    const fs: FileSystem

    constructor (fs: FileSystem, dirpath: string, backboneFilename: string := "backbone", headerFilename: string := "header")
      ensures this.fs == fs && this.dirpath == dirpath
      ensures this.backboneFilename == backboneFilename && this.headerFilename == headerFilename
      ensures checkpointNameLast == "task_last"
    {
      this.fs := fs;
      this.dirpath := dirpath;
      this.backboneFilename := backboneFilename;
      this.headerFilename := headerFilename;
      this.checkpointNameLast := "task_last";
    }

    /**
     * The base names of the backbone and header files: for a 'last' save the
     * last '/' segment of each configured name with "_last" appended, otherwise
     * what the library formatter makes of each configured name.
     */
    function WeightNames(filepath: string, metrics: Metrics, format: (string, Metrics) -> string): (names: (string, string))
      ensures Contains(filepath, "last") ==>
                names.0 == LastSegment(backboneFilename) + "_last" && names.1 == LastSegment(headerFilename) + "_last"
      ensures Contains(filepath, "last") ==> '/' !in names.0 && '/' !in names.1
      ensures !Contains(filepath, "last") ==>
                names.0 == format(backboneFilename, metrics) && names.1 == format(headerFilename, metrics)
    {
      NoSlashInConcat(LastSegment(backboneFilename), "_last");
      NoSlashInConcat(LastSegment(headerFilename), "_last");
      if Contains(filepath, "last") then (LastSegment(backboneFilename) + "_last", LastSegment(headerFilename) + "_last")
      else (format(backboneFilename, metrics), format(headerFilename, metrics))
    }

    /** `os.path.join(self.dirpath, name + '.pth')`. */
    function WeightPath(name: string): string
    {
      JoinPath(dirpath, name + ".pth")
    }

    /** The folder of the checkpoint saved at `epoch`. */
    function EpochFolder(epoch: nat): string
    {
      JoinPath(dirpath, "epoch=" + Decimal(epoch))
    }

    /** The folder a save removes first, if any: the previous epoch's, for a regular save after epoch 0. */
    function StaleFolder(filepath: string, currentEpoch: nat): (d: Option<string>)
      ensures d.Some? <==> !Contains(filepath, "last") && currentEpoch > 0
      ensures d.Some? ==> d.value == EpochFolder(currentEpoch - 1)
    {
      if !Contains(filepath, "last") && currentEpoch > 0 then Some(EpochFolder(currentEpoch - 1)) else None
    }

    /** The filesystem after the stale folder, if any, is removed. */
    function Cleaned(entries: map<string, Entry>, filepath: string, currentEpoch: nat): map<string, Entry>
    {
      var stale := StaleFolder(filepath, currentEpoch);
      if stale.Some? then WithoutFolder(entries, stale.value) else entries
    }

    /** The filesystem after a save on the rank-zero process: cleaned, then the backbone file, then the header file. */
    function AfterSave(entries: map<string, Entry>, filepath: string, currentEpoch: nat, metrics: Metrics,
                       format: (string, Metrics) -> string, backbone: Bytes, header: Bytes): map<string, Entry>
    {
      var names := WeightNames(filepath, metrics, format);
      Cleaned(entries, filepath, currentEpoch)[WeightPath(names.0) := File(backbone)][WeightPath(names.1) := File(header)]
    }

    /** Removing the stale folder only ever removes paths: what is left is as it was. */
    lemma CleanedIsSubmap(entries: map<string, Entry>, filepath: string, currentEpoch: nat)
      ensures forall p | p in Cleaned(entries, filepath, currentEpoch) :: p in entries && Cleaned(entries, filepath, currentEpoch)[p] == entries[p]
    {
      var stale := StaleFolder(filepath, currentEpoch);
      if stale.Some? {
        WithoutFolderMeaning(entries, stale.value);
      }
    }

    /**
     * After a save both weight files exist, the header's holding the header
     * weights and the backbone's the backbone weights (unless the two names
     * coincide); any other path present afterwards was present before, with the
     * same entry.
     */
    lemma AfterSaveWritesWeights(entries: map<string, Entry>, filepath: string, currentEpoch: nat, metrics: Metrics,
                                 format: (string, Metrics) -> string, backbone: Bytes, header: Bytes)
      ensures var r := AfterSave(entries, filepath, currentEpoch, metrics, format, backbone, header);
              var names := WeightNames(filepath, metrics, format);
              && WeightPath(names.1) in r && r[WeightPath(names.1)] == File(header)
              && WeightPath(names.0) in r
              && (WeightPath(names.0) != WeightPath(names.1) ==> r[WeightPath(names.0)] == File(backbone))
              && (forall p | p in r && p != WeightPath(names.0) && p != WeightPath(names.1) ::
                    p in entries && r[p] == entries[p])
    {
      var names := WeightNames(filepath, metrics, format);
      var w0, w1 := WeightPath(names.0), WeightPath(names.1);
      var cleaned := Cleaned(entries, filepath, currentEpoch);
      assert AfterSave(entries, filepath, currentEpoch, metrics, format, backbone, header)
          == cleaned[w0 := File(backbone)][w1 := File(header)];
      CleanedIsSubmap(entries, filepath, currentEpoch);
    }

    /**
     * The retention rule: a save deletes nothing when there is no stale folder
     * (a 'last' save, or epoch 0); otherwise, apart from the two weight files,
     * an old path disappears exactly when it is the existing stale folder or is
     * listed in it.
     */
    lemma AfterSaveDeletesOnlyStaleFolder(entries: map<string, Entry>, filepath: string, currentEpoch: nat, metrics: Metrics,
                                          format: (string, Metrics) -> string, backbone: Bytes, header: Bytes)
      ensures StaleFolder(filepath, currentEpoch).None? ==>
                entries.Keys <= AfterSave(entries, filepath, currentEpoch, metrics, format, backbone, header).Keys
      ensures var r := AfterSave(entries, filepath, currentEpoch, metrics, format, backbone, header);
              var names := WeightNames(filepath, metrics, format);
              var stale := StaleFolder(filepath, currentEpoch);
              forall p | p in entries && p != WeightPath(names.0) && p != WeightPath(names.1) ::
                (p in r <==> !(stale.Some? && stale.value in entries && (p == stale.value || IsEntryOf(p, stale.value))))
    {
      var names := WeightNames(filepath, metrics, format);
      var w0, w1 := WeightPath(names.0), WeightPath(names.1);
      var cleaned := Cleaned(entries, filepath, currentEpoch);
      assert AfterSave(entries, filepath, currentEpoch, metrics, format, backbone, header)
          == cleaned[w0 := File(backbone)][w1 := File(header)];
      var stale := StaleFolder(filepath, currentEpoch);
      if stale.Some? {
        WithoutFolderMeaning(entries, stale.value);
      }
    }

    /**
     * The folder a regular save removes is an entry of the checkpoint directory
     * named after the previous epoch, and never the current epoch's own folder.
     */
    lemma StaleFolderIsPreviousEpoch(filepath: string, currentEpoch: nat)
      requires StaleFolder(filepath, currentEpoch).Some?
      ensures IsEntryOf(StaleFolder(filepath, currentEpoch).value, dirpath)
      ensures LastSegment(StaleFolder(filepath, currentEpoch).value) == "epoch=" + Decimal(currentEpoch - 1)
      ensures StaleFolder(filepath, currentEpoch).value != EpochFolder(currentEpoch)
    {
      var previous := "epoch=" + Decimal(currentEpoch - 1);
      var current := "epoch=" + Decimal(currentEpoch);
      DecimalHasNoSlash(currentEpoch - 1);
      DecimalHasNoSlash(currentEpoch);
      NoSlashInConcat("epoch=", Decimal(currentEpoch - 1));
      NoSlashInConcat("epoch=", Decimal(currentEpoch));
      JoinedNameIsEntry(dirpath, previous);
      SegmentOfJoin(dirpath, previous);
      SegmentOfJoin(dirpath, current);
      DecimalInjective(currentEpoch - 1, currentEpoch);
      assert previous[6..] == Decimal(currentEpoch - 1) && current[6..] == Decimal(currentEpoch);
    }

    /** A weight file with a plain base name lies directly inside the checkpoint directory. */
    lemma WeightFileInDirpath(name: string)
      requires '/' !in name
      ensures IsEntryOf(WeightPath(name), dirpath)
      ensures LastSegment(WeightPath(name)) == name + ".pth"
    {
      NoSlashInConcat(name, ".pth");
      JoinedNameIsEntry(dirpath, name + ".pth");
      SegmentOfJoin(dirpath, name + ".pth");
    }

    /**
     * A 'last' save writes both files directly inside the checkpoint directory,
     * named after the last segment of the configured names.
     */
    lemma LastWeightsStayInDirpath(filepath: string, metrics: Metrics, format: (string, Metrics) -> string)
      requires Contains(filepath, "last")
      ensures IsEntryOf(WeightPath(WeightNames(filepath, metrics, format).0), dirpath)
      ensures IsEntryOf(WeightPath(WeightNames(filepath, metrics, format).1), dirpath)
      ensures LastSegment(WeightPath(WeightNames(filepath, metrics, format).0)) == LastSegment(backboneFilename) + "_last.pth"
      ensures LastSegment(WeightPath(WeightNames(filepath, metrics, format).1)) == LastSegment(headerFilename) + "_last.pth"
    {
      var names := WeightNames(filepath, metrics, format);
      WeightFileInDirpath(names.0);
      WeightFileInDirpath(names.1);
      SuffixesCombine(LastSegment(backboneFilename));
      SuffixesCombine(LastSegment(headerFilename));
    }

    /** `_del_old_folder(filepath)`: removes every listed entry that still exists, then the folder. */
    method DelOldFolder(filepath: string)
      modifies fs
      ensures fs.entries == WithoutFolder(old(fs.entries), filepath)
    {
      if filepath in fs.entries {
        var listed := Listing(fs.entries, filepath);
        var remaining := listed;
        while remaining != {}
          invariant remaining <= listed
          invariant fs.entries == old(fs.entries) - (listed - remaining)
          decreases remaining
        {
          var path :| path in remaining;
          ghost var before := fs.entries;
          if path in fs.entries {
            fs.Remove(path);
          }
          assert fs.entries == before - {path};
          assert (listed - remaining) + {path} == listed - (remaining - {path});
          RemoveOneMore(old(fs.entries), listed - remaining, path);
          remaining := remaining - {path};
        }
        fs.Remove(filepath);
      }
    }

    /**
     * `_save_checkpoint` after the library's own save: nothing more on a process
     * other than rank zero; otherwise the stale folder is removed (regular saves
     * after epoch 0) and then the backbone and the header weights are written.
     */
    method SaveCheckpoint(isGlobalZero: bool, currentEpoch: nat, filepath: string, metrics: Metrics,
                          format: (string, Metrics) -> string, backbone: Bytes, header: Bytes)
      modifies fs
      ensures !isGlobalZero ==> fs.entries == old(fs.entries)
      ensures isGlobalZero ==>
                fs.entries == AfterSave(old(fs.entries), filepath, currentEpoch, metrics, format, backbone, header)
    {
      if !isGlobalZero {
        return;
      }
      var backboneName, headerName;
      if !Contains(filepath, "last") {
        backboneName := format(backboneFilename, metrics);
        headerName := format(headerFilename, metrics);
        if currentEpoch > 0 {
          var filepathOld := JoinPath(dirpath, "epoch=" + Decimal(currentEpoch - 1));
          DelOldFolder(filepathOld);
        }
      } else {
        backboneName := LastSegment(backboneFilename) + "_last";
        headerName := LastSegment(headerFilename) + "_last";
      }
      fs.Save(JoinPath(dirpath, backboneName + ".pth"), backbone);
      fs.Save(JoinPath(dirpath, headerName + ".pth"), header);
    }
  }

  /** How a forward pass on a random batch ends. */
  datatype Probe =
    | Ran            // returned an output
    | RuntimeFailure // raised a RuntimeError, which the check catches
    | OtherFailure   // raised anything else (a KeyError on the output, say), which the check does not catch

  /** How the compatibility check ends. */
  datatype CompatibilityOutcome =
    | AlreadyChecked                        // returns at once
    | Compatible(probeShape: seq<int>)      // both probes passed; `checked` is set
    | BackboneFailed(probeShape: seq<int>)  // the backbone raised a RuntimeError: the process exits with status 1
    | HeaderMismatch(probeShape: seq<int>)  // the whole model raised a RuntimeError: the process exits with status 1
    | Propagated(probeShape: seq<int>)      // a probe raised another exception, which leaves `setup` uncaught

  /** `CheckBackboneHeaderCompatibility`: probes the model once with a batch of the data's shape. */
  class CheckBackboneHeaderCompatibility {
    var checked: bool

    constructor ()
      ensures !checked
    {
      checked := false;
    }

    /**
     * `setup`: once `checked` is set nothing happens; otherwise a batch of shape
     * `(batch_size, *dims)` goes through the backbone (including taking the
     * `'out'` entry of a dictionary output) and then through the whole model.
     * A RuntimeError ends the process; any other exception leaves `setup`;
     * `checked` is set only when both passes run.
     */
    method Setup(batchSize: int, dims: seq<int>, backbone: seq<int> -> Probe, model: seq<int> -> Probe)
      returns (r: CompatibilityOutcome)
      modifies this
      ensures old(checked) ==> checked && r == AlreadyChecked
      ensures !old(checked) ==> r != AlreadyChecked && r.probeShape == [batchSize] + dims
      ensures !old(checked) ==>
                (r.Compatible? <==> backbone([batchSize] + dims) == Ran && model([batchSize] + dims) == Ran)
      ensures !old(checked) ==> (r.BackboneFailed? <==> backbone([batchSize] + dims) == RuntimeFailure)
      ensures !old(checked) ==>
                (r.HeaderMismatch? <==> backbone([batchSize] + dims) == Ran && model([batchSize] + dims) == RuntimeFailure)
      ensures !old(checked) ==>
                (r.Propagated? <==> backbone([batchSize] + dims) == OtherFailure ||
                                    (backbone([batchSize] + dims) == Ran && model([batchSize] + dims) == OtherFailure))
      ensures checked <==> old(checked) || r.Compatible?
    {
      if checked {
        return AlreadyChecked;
      }
      var dim := [batchSize] + dims;
      var backboneOutcome := backbone(dim);
      if backboneOutcome == RuntimeFailure {
        return BackboneFailed(dim);
      } else if backboneOutcome == OtherFailure {
        return Propagated(dim);
      }
      var modelOutcome := model(dim);
      if modelOutcome == RuntimeFailure {
        return HeaderMismatch(dim);
      } else if modelOutcome == OtherFailure {
        return Propagated(dim);
      }
      checked := true;
      r := Compatible(dim);
    }
  }
}
