/** Option, Result and the failures a diagram request can end in. */
module Wrappers {

  datatype Option<T> = None | Some(value: T)

  /** Every exception the diagram builder can raise, tagged by its cause and carrying the offending input (the exception messages are not modelled). */
  datatype Error =
    | MissingParam(name: string)        // KeyError on a required query parameter
    | BadInt(text: string)              // int() of a string that is not an integer literal
    | UnknownModel(model: string)       // init_diagram: neither an "fa" nor an "fb" model
    | UnknownChassisDp(dp: string)      // chassis datapack size missing from its table
    | UnknownShelfDp(dp: string)        // shelf datapack size missing from its table
    | MissingAsset(key: string)         // Image.open on a key the asset source does not hold
    | NoPciLayout(generation: string)   // add_card for a generation without a slot table (an UnboundLocalError on pci_loc)
    | NoImages                          // combine_images_vertically of an empty list

  datatype Result<T> = Ok(value: T) | Err(error: Error) {
    predicate IsFailure() { Err? }

    function PropagateFailure<U>(): Result<U>
      requires Err?
    {
      Err(error)
    }

    function Extract(): T
      requires Ok?
    {
      value
    }
  }

  /** The result of prepending `acc` to a successful list result; failures pass through. */
  function Prepend<T>(acc: seq<T>, r: Result<seq<T>>): Result<seq<T>>
  {
    if r.Ok? then Ok(acc + r.value) else r
  }

  lemma PrependNil<T>(r: Result<seq<T>>)
    ensures Prepend([], r) == r
  {
    if r.Ok? {
      assert [] + r.value == r.value;
    }
  }

  lemma PrependTwice<T>(a: seq<T>, b: seq<T>, r: Result<seq<T>>)
    ensures Prepend(a, Prepend(b, r)) == Prepend(a + b, r)
  {
    if r.Ok? {
      assert a + (b + r.value) == (a + b) + r.value;
    }
  }
}
