/** Failure-compatible datatypes and sequence facts shared by every module. */
module Prelude {

  datatype Option<+T> = None | Some(value: T) {
    function UnwrapOr(default: T): T
    {
      if Some? then value else default
    }
  }

  datatype Result<+T, +E> = Ok(value: T) | Err(error: E)

  // OPFS and the bridge move bytes; their values are never inspected here.
  newtype byte = b: int | 0 <= b < 256

  type Bytes = seq<byte>

  /** Concatenation of a sequence of chunks, in order. */
  function Flatten<T>(chunks: seq<seq<T>>): (r: seq<T>)
  {
    if chunks == [] then [] else Flatten(chunks[..|chunks| - 1]) + chunks[|chunks| - 1]
  }

  lemma FlattenAppend<T>(chunks: seq<seq<T>>, chunk: seq<T>)
    ensures Flatten(chunks + [chunk]) == Flatten(chunks) + chunk
  {
  }

  /** Distinct elements drawn from a set are no more than the set has. */
  lemma {:induction false} DistinctBound<T>(s: seq<T>, universe: set<T>)
    requires forall i, j :: 0 <= i < j < |s| ==> s[i] != s[j]
    requires forall i :: 0 <= i < |s| ==> s[i] in universe
    ensures |s| <= |universe|
  {
    if s != [] {
      var last := s[|s| - 1];
      DistinctBound(s[..|s| - 1], universe - {last});
      assert |universe - {last}| == |universe| - 1;
    }
  }
}
