/** Small value wrappers shared by every module: JavaScript's `null`/`undefined`
    for a missing value, and a thrown error for a failing service call. */
module Base {

  /** `None` stands for `null` (or an absent property), `Some(v)` for a present value. */
  datatype Option<+T> = None | Some(value: T)

  /** `Err(message)` stands for an `Error` thrown with that message. */
  datatype Result<+T> = Ok(value: T) | Err(message: string)

  /** The set of timer handles referred to by an optional handle variable. */
  function OptSet<T>(o: Option<T>): (s: set<T>)
    ensures o.None? ==> s == {}
    ensures o.Some? ==> s == {o.value}
  {
    if o.Some? then {o.value} else {}
  }
}
