/** Values shared by the three adapters: optional values (Go's nil and
    "comma ok" lookups), error results, and the ordered application of
    option mutators, each applied in turn to the options built so far. */
module Common {

  /** A value that may be absent: a nil pointer, or a context value whose
      type assertion failed. */
  datatype Option<+T> = None | Some(value: T) {
    function GetOr(default: T): T {
      match this
      case Some(v) => v
      case None => default
    }
  }

  /** An opaque Go `error`; only its identity matters to the adapters. */
  datatype Error = Error(text: string)

  /** A call that either produced a value or returned an error. */
  datatype Result<+T> = Ok(value: T) | Err(error: Error)

  /** The option mutators `o(&opts)` applied left to right to `base`. */
  function ApplyAll<T>(base: T, mutators: seq<T -> T>): T
    decreases |mutators|
  {
    if mutators == [] then base else ApplyAll(mutators[0](base), mutators[1..])
  }

  /** Applying a list of mutators and then more mutators is the same as
      applying the concatenation: the order is kept, nothing is merged. */
  lemma {:induction false} ApplyAllConcat<T>(base: T, first: seq<T -> T>, rest: seq<T -> T>)
    ensures ApplyAll(base, first + rest) == ApplyAll(ApplyAll(base, first), rest)
    decreases |first|
  {
    if first == [] {
      assert first + rest == rest;
    } else {
      assert (first + rest)[0] == first[0];
      assert (first + rest)[1..] == first[1..] + rest;
      ApplyAllConcat(first[0](base), first[1..], rest);
    }
  }
}
