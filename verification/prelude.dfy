/** What the whole model shares. */
module Prelude {
  /** A nilable Go value or a comma-ok pair: the value, or nothing. */
  datatype Option<+T> = None | Some(value: T)

  lemma HasMember(s: set<int>)
    ensures s != {} <==> exists x :: x in s
  {
    if forall x :: x !in s { assert s == {}; }
  }

  lemma Subset<T>(a: set<T>, b: set<T>)
    requires a <= b
    ensures |a| <= |b|
  {
    assert b == a + (b - a);
  }
}
