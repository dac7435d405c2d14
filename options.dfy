/** Optional values, for the `?:` fields of the record types and for absent storage entries. */
module Options {

  datatype Option<+T> = None | Some(value: T)

  /** A list-valued optional field read the way every consumer reads it: absent means empty. */
  function Entries<T>(o: Option<seq<T>>): (r: seq<T>)
    ensures o.None? ==> r == []
    ensures o.Some? ==> r == o.value
  {
    match o
    case Some(s) => s
    case None => []
  }
}
