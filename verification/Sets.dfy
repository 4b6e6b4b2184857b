/** Sizes of finite sets. */
module Sets {

  lemma SubsetSize<T>(a: set<T>, b: set<T>)
    requires a <= b
    ensures |a| <= |b|
  {
    assert b == a + (b - a);
  }

  lemma SubsetSmaller<T>(a: set<T>, b: set<T>)
    requires a < b
    ensures |a| < |b|
  {
    var x :| x in b && x !in a;
    SubsetSize(a + {x}, b);
  }

  /** Two majorities share a member. */
  lemma QuorumsMeet<T>(all: set<T>, p: set<T>, q: set<T>) returns (x: T)
    requires p <= all && q <= all && |p| >= |all| / 2 + 1 && |q| >= |all| / 2 + 1
    ensures x in p && x in q
  {
    if forall y :: y in p ==> y !in q {
      assert p !! q && |p + q| == |p| + |q|;
      SubsetSize(p + q, all);
    }
    x :| x in p && x in q;
  }
}
