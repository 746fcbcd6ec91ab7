/** Failure-carrying wrappers shared by every module of the model. */
module Base {

  /** A value that may be absent: Python's `None` or a missing dictionary entry. */
  datatype Option<T> = None | Some(value: T)

  /** The outcome of an operation that may raise. */
  datatype Result<T, E> = Ok(value: T) | Err(error: E)

  /** `d.get(key, default)` on a Python dictionary. */
  function Get<K, V>(d: map<K, V>, key: K, default: V): V
  {
    if key in d then d[key] else default
  }

  /** `[x]` for `Some(x)`, `[]` for `None`: how an optional match lands in an appended list. */
  function OptionToSeq<T>(o: Option<T>): (r: seq<T>)
    ensures |r| <= 1
    ensures o.Some? <==> |r| == 1
    ensures o.Some? ==> r[0] == o.value
  {
    match o
    case None => []
    case Some(x) => [x]
  }
}
