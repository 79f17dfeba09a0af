/** Optional values, outcomes and lists of lists, shared by every module. */
module Wrappers {

  datatype Option<+T> = None | Some(value: T) {
    function UnwrapOr(default: T): T {
      if Some? then value else default
    }
  }

  datatype Result<+T> = Ok(value: T) | Err

  /** The lists one after the other. */
  function Flatten<T>(parts: seq<seq<T>>): seq<T> {
    if parts == [] then [] else Flatten(parts[..|parts| - 1]) + parts[|parts| - 1]
  }

  lemma FlattenNext<T>(parts: seq<seq<T>>, i: nat)
    requires i < |parts|
    ensures Flatten(parts[..i + 1]) == Flatten(parts[..i]) + parts[i]
  {
    assert parts[..i + 1][..i] == parts[..i];
  }

  lemma {:induction false} FlattenMember<T>(parts: seq<seq<T>>, x: T)
    ensures x in Flatten(parts) <==> exists i :: 0 <= i < |parts| && x in parts[i]
  {
    if parts != [] {
      var n := |parts| - 1;
      FlattenMember(parts[..n], x);
      assert x in Flatten(parts) <==> x in Flatten(parts[..n]) || x in parts[n];
      if i :| 0 <= i < n && x in parts[..n][i] { assert x in parts[i]; }
      if i :| 0 <= i < n && x in parts[i] { assert x in parts[..n][i]; }
    }
  }

  /** Lists of one element each. */
  lemma {:induction false} FlattenSingles<T>(parts: seq<seq<T>>, xs: seq<T>)
    requires |parts| == |xs| && forall i :: 0 <= i < |xs| ==> parts[i] == [xs[i]]
    ensures Flatten(parts) == xs
  {
    if xs != [] {
      var n := |xs| - 1;
      FlattenSingles(parts[..n], xs[..n]);
      assert xs == xs[..n] + [xs[n]];
    }
  }
}
