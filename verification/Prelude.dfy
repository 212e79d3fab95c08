/** Small shared vocabulary: optional values, results, number ranges, and the size of subsets. */
module Prelude {

  datatype Option<+T> = None | Some(value: T)

  datatype Result<+T> = Ok(value: T) | Err(reason: string)

  // The ranges of Java's numbers.
  const MIN_INT := -0x8000_0000
  const MAX_INT := 0x7fff_ffff
  const MIN_LONG := -0x8000_0000_0000_0000
  const MAX_LONG := 0x7fff_ffff_ffff_ffff

  lemma SubsetBySize<T>(small: set<T>, big: set<T>)
    requires small <= big
    ensures |small| <= |big|
    ensures |small| == |big| ==> small == big
  {
    assert big == small + (big - small);
    assert |big| == |small| + |big - small|;
  }
}
