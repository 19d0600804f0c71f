/** Shared wrappers: nil-able values and error returns. */
module Prelude {

  /** A value that may be missing. */
  datatype Option<+T> = None | Some(value: T)

  /** A Go (value, error) pair, of which exactly one half is meaningful. */
  datatype Result<+T, +E> = Ok(value: T) | Err(error: E)

  /** The elements of a sequence are pairwise different. */
  ghost predicate Distinct<T>(s: seq<T>) {
    forall i, j :: 0 <= i < j < |s| ==> s[i] != s[j]
  }

  /** A sequence without repetition has as many elements as positions. */
  lemma {:induction false} DistinctSize<T>(s: seq<T>)
    requires Distinct(s)
    ensures |set x | x in s| == |s|
  {
    if |s| > 0 {
      var init, last := s[..|s| - 1], s[|s| - 1];
      DistinctSize(init);
      assert (set x | x in s) == (set x | x in init) + {last};
      assert last !in init;
    }
  }

  /** Finite sets: a subset is no larger. */
  lemma {:induction false} SubsetSize<T>(small: set<T>, big: set<T>)
    requires small <= big
    ensures |small| <= |big|
  {
    assert big == small + (big - small);
  }
}
