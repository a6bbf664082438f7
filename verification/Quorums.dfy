/** Sets of nodes that must meet. */
module Quorums {

  lemma SubsetSize<T>(a: set<T>, b: set<T>)
    requires a <= b
    ensures |a| <= |b|
  {
    assert b == a + (b - a);
  }

  // Two majorities of the same members share a member.
  lemma MajoritiesMeet<T>(a: set<T>, b: set<T>, members: set<T>) returns (v: T)
    requires a <= members && b <= members
    requires |a| >= |members| / 2 + 1 && |b| >= |members| / 2 + 1
    ensures v in a && v in b
  {
    SubsetSize(a + b, members);
    assert |a + b| == |a| + |b| - |a * b|;
    v :| v in a * b;
  }
}
