/**
 * Helpers around the outputs of a task step: the keys of the output
 * dictionary, restricting a dictionary to a key list, and dumping each test
 * prediction patch to `<root>/patches/<image>/<patch>.npy`.
 */
module Outputs {
  import opened Wrappers
  import opened HisDBDataModule

  /** The `OutputKeys` enumeration; each member is also the string it stands for. */
  datatype OutputKey = Prediction | Target | Log | Loss
  {
    /** The member's value. */
    function Value(): string
    {
      match this
      case Prediction => "pred"
      case Target => "target"
      case Log => "logs"
      case Loss => "loss"
    }
  }

  /** `OutputKeys(value)`: the member with that value, if any. */
  function KeyOf(value: string): (k: Option<OutputKey>)
    ensures k.Some? ==> k.value.Value() == value
  {
    if value == "pred" then Some(Prediction)
    else if value == "target" then Some(Target)
    else if value == "logs" then Some(Log)
    else if value == "loss" then Some(Loss)
    else None
  }

  /** Every member is found again from its value, so no two members share a value. */
  lemma KeyValueRoundTrip(k: OutputKey)
    ensures KeyOf(k.Value()) == Some(k)
  {
  }

  /** The four values are pairwise distinct. */
  lemma ValuesDistinct(a: OutputKey, b: OutputKey)
    ensures a.Value() == b.Value() ==> a == b
  {
    KeyValueRoundTrip(a);
    KeyValueRoundTrip(b);
  }

  /** `OutputKeys.__hash__`: a member hashes as its value does under the string hash `strHash`. */
  function KeyHash<H>(k: OutputKey, strHash: string -> H): H
  {
    strHash(k.Value())
  }

  /** `reduce_dict`: the entries of `input` whose key is listed in `keyList`. */
  function ReduceDict<K, V>(input: map<K, V>, keyList: seq<K>): (r: map<K, V>)
    ensures r.Keys == input.Keys * set k | k in keyList
    ensures forall k | k in r :: r[k] == input[k]
  {
    map k | k in keyList && k in input :: input[k]
  }

  /** Restricting twice to the same list changes nothing more. */
  lemma ReduceDictIdempotent<K, V>(input: map<K, V>, keyList: seq<K>)
    ensures ReduceDict(ReduceDict(input, keyList), keyList) == ReduceDict(input, keyList)
  {
  }

  /** Only which keys are listed matters, not their order or repetitions. */
  lemma ReduceDictDependsOnKeySet<K, V>(input: map<K, V>, keys1: seq<K>, keys2: seq<K>)
    requires forall k :: k in keys1 <==> k in keys2
    ensures ReduceDict(input, keys1) == ReduceDict(input, keys2)
  {
  }

  /** Listing every key of the input keeps the whole input. */
  lemma ReduceDictKeepsListedInput<K, V>(input: map<K, V>, keyList: seq<K>)
    requires forall k :: k in input ==> k in keyList
    ensures ReduceDict(input, keyList) == input
  {
  }

  /** Errors raised by `save_numpy_files`. */
  datatype SaveError =
    | NoCropInformation                     // NotImplementedError: the datamodule has no provenance lookup
    | MissingOutput(key: OutputKey)          // KeyError on the output dictionary
    | LookupFailed(error: SplitError)        // raised by the provenance lookup
    | ShortRecord(index: int)                // IndexError: fewer than two provenance fields

  /** The datamodule attached to the trainer: the cropped HisDB one, which has the provenance lookup, or another. */
  datatype AttachedDatamodule = CroppedHisDB(instance: DIVAHisDBDataModuleCropped) | OtherDatamodule

  /** `<root>/patches/<image name>/<patch name>.npy`. */
  function PatchPath(root: Path, imageName: string, patchName: string): (p: Path)
    ensures |p| == |root| + 3 && p[..|root|] == root
    ensures p[|root|] == "patches" && p[|root| + 1] == imageName && p[|root| + 2] == patchName + ".npy"
  {
    root + ["patches", imageName, patchName + ".npy"]
  }

  /** Where the patch of crop `index` goes, or what is raised while finding out. */
  function Destination(dm: DIVAHisDBDataModuleCropped, root: Path, index: int): (r: Result<Path, SaveError>)
    reads dm
  {
    match dm.GetImgNameCoordinates(index)
    case Failure(e) => Failure(LookupFailed(e))
    case Success(info) =>
      if |info| < 2 then Failure(ShortRecord(index))
      else Success(PatchPath(root, info[0], info[1]))
  }

  /**
   * A lookup that raises passes its error on; a record with fewer than two
   * fields raises IndexError; otherwise the patch goes under the image named by
   * the record's first field, in a file named by its second.
   */
  lemma DestinationMeaning(dm: DIVAHisDBDataModuleCropped, root: Path, index: int)
    ensures dm.GetImgNameCoordinates(index).Failure? ==>
              Destination(dm, root, index) == Failure(LookupFailed(dm.GetImgNameCoordinates(index).error))
    ensures dm.GetImgNameCoordinates(index).Success? ==>
              var info := dm.GetImgNameCoordinates(index).value;
              var r := Destination(dm, root, index);
              (r.Success? <==> |info| >= 2) &&
              (r.Success? ==> r.value[..|root|] == root && r.value[|root|..] == ["patches", info[0], info[1] + ".npy"]) &&
              (r.Failure? ==> r.error == ShortRecord(index))
  {
    var r := Destination(dm, root, index);
    if r.Success? {
      var p := r.value;
      assert p[|root|..] == [p[|root|], p[|root| + 1], p[|root| + 2]];
    }
  }

  /** The files one call writes, in order, and how the call ends. */
  datatype SavePlan<T> = SavePlan(writes: seq<(Path, T)>, outcome: Outcome<SaveError>)

  /**
   * The loop over `zip(patches, indices)`: one write per pair until the
   * shorter sequence ends or a lookup raises.
   */
  function PlanWrites<T>(dm: DIVAHisDBDataModuleCropped, root: Path, patches: seq<T>, indices: seq<int>): (plan: SavePlan<T>)
    reads dm
    decreases |patches|
  {
    if patches == [] || indices == [] then SavePlan([], Pass)
    else match Destination(dm, root, indices[0])
      case Failure(e) => SavePlan([], Fail(e))
      case Success(p) =>
        var rest := PlanWrites(dm, root, patches[1..], indices[1..]);
        SavePlan([(p, patches[0])] + rest.writes, rest.outcome)
  }

  /**
   * What the loop writes: pair `i` goes to the destination of `indices[i]`;
   * a call that completes writes one file per pair of the zip, that is
   * `min(|patches|, |indices|)` of them; a call that raises stops at the first
   * pair whose lookup raises, and raises that error.
   */
  lemma {:induction false} PlanWritesMeaning<T>(dm: DIVAHisDBDataModuleCropped, root: Path, patches: seq<T>, indices: seq<int>)
    ensures var plan := PlanWrites(dm, root, patches, indices);
      && |plan.writes| <= |patches| && |plan.writes| <= |indices|
      && (plan.outcome.Pass? ==> |plan.writes| == if |patches| < |indices| then |patches| else |indices|)
      && (forall i :: 0 <= i < |plan.writes| ==>
            Destination(dm, root, indices[i]) == Success(plan.writes[i].0) && plan.writes[i].1 == patches[i])
      && (plan.outcome.Fail? ==>
            |plan.writes| < |patches| && |plan.writes| < |indices| &&
            Destination(dm, root, indices[|plan.writes|]) == Failure(plan.outcome.error))
    decreases |patches|
  {
    if patches != [] && indices != [] && Destination(dm, root, indices[0]).Success? {
      PlanWritesMeaning(dm, root, patches[1..], indices[1..]);
    }
  }

  /** The files after performing `writes` in order: a later write to a path replaces an earlier one. */
  function ApplyWrites<T>(files: map<Path, T>, writes: seq<(Path, T)>): (r: map<Path, T>)
  {
    if writes == [] then files
    else
      var last := writes[|writes| - 1];
      var before := ApplyWrites(files, writes[..|writes| - 1]);
      assert forall i :: 0 <= i < |writes| - 1 ==> writes[..|writes| - 1][i] == writes[i];
      before[last.0 := last.1]
  }

  /**
   * After the writes, the saved paths are the old ones plus every written one;
   * a path nobody wrote keeps its old content, and a written path holds what
   * its last write put there.
   */
  lemma {:induction false} ApplyWritesMeaning<T>(files: map<Path, T>, writes: seq<(Path, T)>)
    ensures ApplyWrites(files, writes).Keys == files.Keys + set i | 0 <= i < |writes| :: writes[i].0
    ensures forall p | p in files && forall i | 0 <= i < |writes| :: writes[i].0 != p ::
              ApplyWrites(files, writes)[p] == files[p]
    ensures forall i | 0 <= i < |writes| && forall j | i < j < |writes| :: writes[j].0 != writes[i].0 ::
              ApplyWrites(files, writes)[writes[i].0] == writes[i].1
  {
    if writes != [] {
      var init := writes[..|writes| - 1];
      ApplyWritesMeaning(files, init);
      assert forall i | 0 <= i < |init| :: init[i] == writes[i];
      assert (set i | 0 <= i < |writes| :: writes[i].0) == (set i | 0 <= i < |init| :: init[i].0) + {writes[|writes| - 1].0};
    }
  }

  /** The loop stops at pair `i` when its lookup raises. */
  lemma PlanStopsAt<T>(dm: DIVAHisDBDataModuleCropped, root: Path, patches: seq<T>, indices: seq<int>, i: nat)
    requires i < |patches| && i < |indices| && Destination(dm, root, indices[i]).Failure?
    ensures PlanWrites(dm, root, patches[i..], indices[i..]) == SavePlan([], Fail(Destination(dm, root, indices[i]).error))
  {
  }

  /** Otherwise pair `i` is written and the loop goes on with pair `i + 1`. */
  lemma PlanContinuesAt<T>(dm: DIVAHisDBDataModuleCropped, root: Path, patches: seq<T>, indices: seq<int>, i: nat)
    requires i < |patches| && i < |indices| && Destination(dm, root, indices[i]).Success?
    ensures var plan := PlanWrites(dm, root, patches[i..], indices[i..]);
            var rest := PlanWrites(dm, root, patches[i + 1..], indices[i + 1..]);
            plan.writes == [(Destination(dm, root, indices[i]).value, patches[i])] + rest.writes &&
            plan.outcome == rest.outcome
  {
    assert patches[i..][1..] == patches[i + 1..];
    assert indices[i..][1..] == indices[i + 1..];
  }

  /** Performing one more write updates one path. */
  lemma ApplyOneMoreWrite<T>(files: map<Path, T>, writes: seq<(Path, T)>, w: (Path, T))
    ensures ApplyWrites(files, writes + [w]) == ApplyWrites(files, writes)[w.0 := w.1]
  {
    assert (writes + [w])[..|writes|] == writes;
  }

  /** The saved `.npy` files, by path. */
  class PatchStore<T> {
    var files: map<Path, T>

    constructor (files: map<Path, T>)
      ensures this.files == files
    {
      this.files := files;
    }

    /** `np.save(path, patch)` (the parent directories are created first). */
    method Save(path: Path, patch: T)
      modifies this
      ensures files == old(files)[path := patch]
    {
      files := files[path := patch];
    }
  }

  /**
   * `save_numpy_files`: raises before any write when the datamodule has no
   * provenance lookup or the output has no predictions; otherwise writes the
   * patches of `zip(predictions, inputIdx)` one by one, stopping at the first
   * lookup that raises.
   */
  method SaveNumpyFiles<T>(store: PatchStore<T>, datamodule: AttachedDatamodule, testOutputPath: Path,
                           inputIdx: seq<int>, output: map<OutputKey, seq<T>>)
    returns (r: Outcome<SaveError>)
    modifies store
    ensures datamodule.OtherDatamodule? ==> r == Fail(NoCropInformation) && store.files == old(store.files)
    ensures datamodule.CroppedHisDB? && Prediction !in output ==>
              r == Fail(MissingOutput(Prediction)) && store.files == old(store.files)
    ensures datamodule.CroppedHisDB? && Prediction in output ==>
              var plan := PlanWrites(datamodule.instance, testOutputPath, output[Prediction], inputIdx);
              r == plan.outcome && store.files == ApplyWrites(old(store.files), plan.writes)
  {
    if datamodule.OtherDatamodule? {
      return Fail(NoCropInformation);
    }
    if Prediction !in output {
      return Fail(MissingOutput(Prediction));
    }
    var dm := datamodule.instance;
    var patches := output[Prediction];
    ghost var plan := PlanWrites(dm, testOutputPath, patches, inputIdx);
    ghost var done: seq<(Path, T)> := [];
    var i := 0;
    while i < |patches| && i < |inputIdx|
      invariant 0 <= i <= |patches| && i <= |inputIdx|
      invariant plan.writes == done + PlanWrites(dm, testOutputPath, patches[i..], inputIdx[i..]).writes
      invariant plan.outcome == PlanWrites(dm, testOutputPath, patches[i..], inputIdx[i..]).outcome
      invariant store.files == ApplyWrites(old(store.files), done)
    {
      var info := dm.GetImgNameCoordinates(inputIdx[i]);
      if info.Failure? {
        PlanStopsAt(dm, testOutputPath, patches, inputIdx, i);
        assert plan.writes == done;
        return Fail(LookupFailed(info.error));
      }
      if |info.value| < 2 {
        PlanStopsAt(dm, testOutputPath, patches, inputIdx, i);
        assert plan.writes == done;
        return Fail(ShortRecord(inputIdx[i]));
      }
      var dest := PatchPath(testOutputPath, info.value[0], info.value[1]);
      PlanContinuesAt(dm, testOutputPath, patches, inputIdx, i);
      store.Save(dest, patches[i]);
      ApplyOneMoreWrite(old(store.files), done, (dest, patches[i]));
      done := done + [(dest, patches[i])];
      i := i + 1;
    }
    assert patches[i..] == [] || inputIdx[i..] == [];
    assert plan.writes == done;
    r := Pass;
  }
}
