/** The parsed contract ABI as the generator sees it, and the failure it can
    hit while reading it: a dictionary key that the entry does not have. */
module Abi {

  datatype Option<+T> = None | Some(value: T)

  /** Python's `KeyError(key)` raised by `entry[key]` on a missing key. */
  datatype KeyError = MissingKey(key: string)

  datatype Result<+T> = Ok(value: T) | Err(error: KeyError) {
    predicate IsFailure() { Err? }

    function PropagateFailure<U>(): Result<U>
      requires Err?
    {
      Err(error)
    }

    function Extract(): T
      requires Ok?
    {
      value
    }
  }

  /** One `{type, name}` element of an entry's `inputs` or `outputs`. */
  datatype Param = Param(typ: string, name: string)

  /** One element of the `abi` list. Every key is optional: the generator only
      looks a key up when its code path needs it, and a lookup of an absent key
      fails. `kind` is the entry's `type` key. */
  datatype Entry = Entry(
    kind: Option<string>,
    name: Option<string>,
    inputs: Option<seq<Param>>,
    outputs: Option<seq<Param>>,
    stateMutability: Option<string>)

  /** `entry[key]`: the value when the key is present, `KeyError(key)` otherwise. */
  function Lookup<T>(field: Option<T>, key: string): (r: Result<T>)
    ensures r.Ok? <==> field.Some?
    ensures r.Ok? ==> r.value == field.value
    ensures r.Err? ==> r.error == MissingKey(key)
  {
    match field
    case Some(v) => Ok(v)
    case None => Err(MissingKey(key))
  }

  /** A function entry that carries every key the method renderer reads. */
  predicate IsCompleteFunction(e: Entry)
  {
    e.name.Some? && e.inputs.Some? && e.outputs.Some? && e.stateMutability.Some?
  }
}
