/** Sizes of finite sets, and lists without repeats. */
module Sets {
  predicate NoRepeats<H(==)>(s: seq<H>) {
    forall i, j :: 0 <= i < j < |s| ==> s[i] != s[j]
  }

  lemma {:induction false} SubsetSize<T>(a: set<T>, b: set<T>)
    requires a <= b
    ensures |a| <= |b|
  {
    if a != {} {
      var x :| x in a;
      SubsetSize(a - {x}, b - {x});
    }
  }

  /** There are at most n numbers below n. */
  lemma {:induction false} FewBelow(s: set<nat>, n: nat)
    requires forall v :: v in s ==> v < n
    ensures |s| <= n
  {
    if n == 0 {
      assert s == {};
    } else {
      FewBelow(s - {n - 1}, n - 1);
      assert s - {n - 1} == s || s == (s - {n - 1}) + {n - 1};
    }
  }
}
