/**
  Types shared by the two indicator engines: an optional reading, the
  insufficient-data failure both engines raise before computing anything,
  and the bounds-checked lookup the engines use to read their input.
 */
module Indicator {

  /** A reading that may be undefined (a zero denominator in the source's formula). */
  datatype Option<+T> = None | Some(value: T)

  /** The one failure of both engines: fewer samples than the window needs. */
  datatype InsufficientData = InsufficientData(received: nat, required: nat)

  /** Either the whole output series or the failure; never a partial series. */
  datatype Result<+T> = Ok(value: T) | Err(error: InsufficientData)

  /** Bounds-checked read of element `i`, as a vector's `get` does. */
  function Get<T>(s: seq<T>, i: int): (r: Option<T>)
    ensures r.Some? <==> 0 <= i < |s|
    ensures r.Some? ==> r.value == s[i]
  {
    if 0 <= i < |s| then Some(s[i]) else None
  }
}
