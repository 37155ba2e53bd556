/** Values shared by the other modules: optional values, Python exceptions, bytes. */
module Wrappers {

  datatype Option<+T> = None | Some(value: T)

  /** The outcome of a Python call: a value, or the exception that left the call. */
  datatype Result<+T> = Ok(value: T) | Raises(error: Error)

  datatype Error = ValueError(message: string) | OtherError(kind: string, message: string)

  type byte = b: int | 0 <= b < 256

  function Min(a: int, b: int): int { if a < b then a else b }

  function Max(a: int, b: int): int { if a < b then b else a }

  /** Python's `s[:n]`, negative `n` included. */
  function PyTake<T>(s: seq<T>, n: int): seq<T> {
    if n < 0 then s[..Max(0, |s| + n)] else s[..Min(n, |s|)]
  }

  /** A negative count leaves that many elements out at the end. */
  lemma {:induction false} PyTakeIs<T>(kept: seq<T>, dropped: seq<T>)
    ensures PyTake(kept + dropped, |kept|) == kept
    ensures dropped != [] ==> PyTake(kept + dropped, -|dropped|) == kept
    ensures PyTake(kept, |kept| + |dropped|) == kept && PyTake(kept, -1 - |kept|) == []
  {}
}
