/** Optional values, for the "first entry of a channel, if any" lookups. */
module Wrappers {

  datatype Option<+T> = None | Some(value: T)

  /** The option as a list of zero or one elements, for assembling outputs in order. */
  function ToSeq<T>(o: Option<T>): (s: seq<T>)
    ensures |s| <= 1
    ensures o.None? <==> s == []
    ensures o.Some? ==> s == [o.value]
  {
    match o
    case None => []
    case Some(v) => [v]
  }
}
