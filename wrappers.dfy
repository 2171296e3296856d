/** Optional values: the model of a JavaScript field or result that may be `undefined` or `null`. */
module Wrappers {

  datatype Option<+T> = None | Some(value: T)

  /** The elements an optional value contributes to a sequence: none or one. */
  function OptionSeq<T>(o: Option<T>): (r: seq<T>)
    ensures o.None? <==> r == []
    ensures o.Some? ==> r == [o.value]
  {
    match o
    case None => []
    case Some(v) => [v]
  }
}
