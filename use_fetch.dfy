/**
 * The request-state hook (hooks/use-fetch.ts): `fn` clears the error and sets
 * `loading`, awaits the callback, then records its value or what it threw.
 * The callback's outcome is an input.
 */
module UseFetch {
  import opened Wrappers

  /** How the awaited callback ends. */
  datatype CallOutcome<T, E> = Resolved(value: T) | Threw(error: E)

  class FetchHook<T, E> {
    /** `None` is `undefined` before the first success. */
    var data: Option<T>
    var loading: bool
    var error: Option<E>

    constructor ()
      ensures data.None? && !loading && error.None?
    {
      data, loading, error := None, false, None;
    }

    /** The synchronous part of `fn`, before the callback is awaited. */
    method Start()
      modifies this
      ensures error.None? && loading && data == old(data)
    {
      error := None;
      loading := true;
    }

    /** The part after the callback settles: never rethrows, and loading ends false. */
    method Settle(outcome: CallOutcome<T, E>) returns (r: Option<T>)
      modifies this
      ensures outcome.Resolved? ==> r == Some(outcome.value) && data == Some(outcome.value) && error == old(error)
      ensures outcome.Threw? ==> r.None? && data == old(data) && error == Some(outcome.error)
      ensures !loading
    {
      match outcome {
        case Resolved(value) =>
          data := Some(value);
          r := Some(value);
        case Threw(e) =>
          error := Some(e);
          r := None;
      }
      loading := false;
    }

    /** `fn(...args)`: the callback's value on success, null on failure. */
    method Fn(outcome: CallOutcome<T, E>) returns (r: Option<T>)
      modifies this
      ensures outcome.Resolved? ==> r == Some(outcome.value) && data == Some(outcome.value) && error.None?
      ensures outcome.Threw? ==> r.None? && data == old(data) && error == Some(outcome.error)
      ensures !loading
    {
      Start();
      r := Settle(outcome);
    }
  }
}
