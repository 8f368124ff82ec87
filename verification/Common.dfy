/** What several components share. */
module Common {

  datatype Option<T> = None | Some(value: T)

  lemma SubsetSize(a: set<nat>, b: set<nat>)
    requires a <= b
    ensures |a| <= |b|
  {
    assert b == a + (b - a);
  }
}
