/** Small helpers shared by the server and the dashboard models. */
module Common {

  /** A value that may be absent: JSON `null` / `undefined`, or a pandas NaN. */
  datatype Option<+T> = None | Some(value: T)

  /** JavaScript indexing: reading past the end of an array yields `undefined`. */
  function At<T>(s: seq<T>, i: nat): (r: Option<T>)
    ensures r.Some? <==> i < |s|
    ensures r.Some? ==> r.value == s[i]
  {
    if i < |s| then Some(s[i]) else None
  }

  /** `list.map(f)` / a pandas column taken row by row. */
  function Map<A, B>(f: A -> B, s: seq<A>): (r: seq<B>)
    ensures |r| == |s|
    ensures forall i :: 0 <= i < |s| ==> r[i] == f(s[i])
  {
    if s == [] then [] else [f(s[0])] + Map(f, s[1..])
  }
}
