/** Small failure-carrying datatypes shared by the other modules. */
module Results {

  datatype Option<+T> = None | Some(value: T)

  /** The ways the transformer can throw instead of returning a tree. */
  datatype Fault =
    /** A property of a scope literal has no third child: `getChildAt(2)` is
        undefined and calling `getText()` on it throws (a spread element
        `...base` or a shorthand property `{ query }`). */
    | MissingInitializer
    /** The JWT library refused to sign (for instance a malformed private key). */
    | SigningFailed

  /** Either a value or the fault that aborted the computation. */
  datatype Outcome<+T> = Ok(value: T) | Fail(fault: Fault)

  /** `o` if it holds a value, otherwise `fallback`. */
  function OrElse<T>(o: Option<T>, fallback: Option<T>): (r: Option<T>)
    ensures o.Some? ==> r == o
    ensures o.None? ==> r == fallback
  {
    if o.Some? then o else fallback
  }
}
