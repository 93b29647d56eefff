/** Sums of a weight over a multiset. */
module Sums {
  ghost function Sum<T(!new)>(f: multiset<T>, w: T -> nat): nat {
    if f == multiset{} then 0
    else
      var x :| x in f;
      w(x) + Sum(f - multiset{x}, w)
  }

  lemma SumStep<T(!new)>(f: multiset<T>, w: T -> nat) returns (x: T)
    requires f != multiset{}
    ensures x in f && Sum(f, w) == w(x) + Sum(f - multiset{x}, w)
  {
    x :| x in f && Sum(f, w) == w(x) + Sum(f - multiset{x}, w);
  }

  lemma {:induction false} SumRemove<T(!new)>(f: multiset<T>, w: T -> nat, x: T)
    requires x in f
    ensures Sum(f, w) == w(x) + Sum(f - multiset{x}, w)
  {
    var y := SumStep(f, w);
    hide Sum;
    if y != x {
      assert x in f - multiset{y} && y in f - multiset{x};
      assert f - multiset{y} - multiset{x} == f - multiset{x} - multiset{y};
      SumRemove(f - multiset{y}, w, x);
      SumRemove(f - multiset{x}, w, y);
    }
  }

  lemma {:induction false} SumUnion<T(!new)>(f: multiset<T>, g: multiset<T>, w: T -> nat)
    ensures Sum(f + g, w) == Sum(f, w) + Sum(g, w)
    decreases |g|
  {
    if g == multiset{} {
      assert f + g == f;
    } else {
      var x :| x in g;
      SumUnion(f, g - multiset{x}, w);
      SumRemove(g, w, x);
      SumRemove(f + g, w, x);
      assert f + g - multiset{x} == f + (g - multiset{x});
    }
  }

  lemma {:induction false} SumZero<T(!new)>(f: multiset<T>, w: T -> nat)
    requires forall x :: x in f ==> w(x) == 0
    ensures Sum(f, w) == 0
  {
    if f != multiset{} {
      var x :| x in f;
      SumRemove(f, w, x);
      SumZero(f - multiset{x}, w);
    }
  }

  lemma SumOne<T(!new)>(x: T, w: T -> nat)
    ensures Sum(multiset{x}, w) == w(x)
  {
    SumRemove(multiset{x}, w, x);
    assert multiset{x} - multiset{x} == multiset{};
  }

  lemma {:induction false} SumOnes<T(!new)>(s: set<T>, w: T -> nat)
    requires forall x :: x in s ==> w(x) == 1
    ensures Sum(multiset(s), w) == |s|
  {
    if s != {} {
      var x :| x in s;
      SumRemove(multiset(s), w, x);
      SumOnes(s - {x}, w);
      assert multiset(s) - multiset{x} == multiset(s - {x});
    }
  }

  /** The elements that satisfy p, with their multiplicities. */
  ghost function Filter<T(!new)>(f: multiset<T>, p: T -> bool): multiset<T> {
    if f == multiset{} then multiset{}
    else
      var x :| x in f;
      (if p(x) then multiset{x} else multiset{}) + Filter(f - multiset{x}, p)
  }

  lemma FilterStep<T(!new)>(f: multiset<T>, p: T -> bool) returns (x: T)
    requires f != multiset{}
    ensures x in f && Filter(f, p) == (if p(x) then multiset{x} else multiset{}) + Filter(f - multiset{x}, p)
  {
    x :| x in f && Filter(f, p) == (if p(x) then multiset{x} else multiset{}) + Filter(f - multiset{x}, p);
  }

  lemma {:induction false} FilterAt<T(!new)>(f: multiset<T>, p: T -> bool, y: T)
    ensures Filter(f, p)[y] == if p(y) then f[y] else 0
  {
    if f == multiset{} {
      assert Filter(f, p) == multiset{};
    } else {
      var x := FilterStep(f, p);
      FilterAt(f - multiset{x}, p, y);
      hide Filter;
      var (one, rest) := (if p(x) then multiset{x} else multiset{}, Filter(f - multiset{x}, p));
      assert (one + rest)[y] == one[y] + rest[y];
      assert (f - multiset{x})[y] == f[y] - if x == y then 1 else 0;
    }
  }

  lemma FilterUnion<T(!new)>(f: multiset<T>, g: multiset<T>, p: T -> bool)
    ensures Filter(f + g, p) == Filter(f, p) + Filter(g, p)
  {
    forall y: T
      ensures Filter(f + g, p)[y] == (Filter(f, p) + Filter(g, p))[y]
    {
      FilterAt(f + g, p, y);
      FilterAt(f, p, y);
      FilterAt(g, p, y);
    }
  }

  lemma FilterNone<T(!new)>(f: multiset<T>, p: T -> bool)
    requires forall x :: x in f ==> !p(x)
    ensures Filter(f, p) == multiset{}
  {
    forall y: T
      ensures Filter(f, p)[y] == 0
    {
      FilterAt(f, p, y);
    }
  }

  lemma FilterOne<T(!new)>(x: T, p: T -> bool)
    ensures Filter(multiset{x}, p) == if p(x) then multiset{x} else multiset{}
  {
    forall y: T
      ensures Filter(multiset{x}, p)[y] == (if p(x) then multiset{x} else multiset{})[y]
    {
      FilterAt(multiset{x}, p, y);
    }
  }
}
