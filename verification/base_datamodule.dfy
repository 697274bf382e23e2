/**
 * The abstract datamodule every concrete datamodule extends: a setup guard on
 * the data dimensions, and the configuration resolver named "datamodule" that
 * looks an attribute of the instance up by name.
 */
module BaseDatamodule {
  import opened Wrappers

  /** Errors raised by the abstract datamodule. */
  datatype BaseError =
    | DimsNotSet                  // ValueError from `setup` when `dims` is None or empty
    | NoSuchAttribute(name: string)  // AttributeError from `getattr`

  /** Python's truth value of `self.dims`: set and non-empty. */
  predicate DimsSet(dims: Option<seq<int>>)
  {
    dims.Some? && dims.value != []
  }

  /**
   * `AbstractDatamodule.setup`: raises when the dimensions were never set or are
   * empty, and otherwise does nothing (it only reads `dims`).
   */
  function SetupGuard(dims: Option<seq<int>>): (r: Outcome<BaseError>)
    ensures r.Fail? <==> dims.None? || dims.value == []
    ensures r.Fail? ==> r.error == DimsNotSet
  {
    if DimsSet(dims) then Pass else Fail(DimsNotSet)
  }

  /**
   * The resolver `lambda name: getattr(self, name)` applied to the instance's
   * attributes as they are at the moment of the call (it is registered with
   * `use_cache=False`, so nothing is remembered between calls).
   */
  function Resolve<V>(attributes: map<string, V>, name: string): (r: Result<V, BaseError>)
    ensures r.Success? <==> name in attributes
    ensures r.Success? ==> r.value == attributes[name]
    ensures r.Failure? ==> r.error == NoSuchAttribute(name)
  {
    if name in attributes then Success(attributes[name]) else Failure(NoSuchAttribute(name))
  }
}
