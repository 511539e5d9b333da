/** Sizes of finite sets. */
module Sets {

  lemma {:induction false} SubsetSize<T>(a: set<T>, b: set<T>)
    requires a <= b
    ensures |a| <= |b|
  {
    if a != {} {
      var x :| x in a;
      SubsetSize(a - {x}, b - {x});
    }
  }

  lemma ProperSubsetSize<T>(a: set<T>, b: set<T>, x: T)
    requires a <= b && x in b && x !in a
    ensures |a| + 1 <= |b|
  {
    SubsetSize(a + {x}, b);
  }

  lemma SizeWithout<T>(a: set<T>, x: T)
    ensures |a - {x}| == if x in a then |a| - 1 else |a|
  {
    if x !in a {
      assert a - {x} == a;
    }
  }

  /** Subsets that together are as large as the sets are the sets. */
  lemma AllOfBoth<T, U>(a: set<T>, b: set<T>, c: set<U>, d: set<U>)
    requires a <= b && c <= d && |a| + |c| == |b| + |d|
    ensures a == b && c == d
  {
    SubsetSize(a, b);
    SubsetSize(c, d);
    if x :| x in b && x !in a {
      ProperSubsetSize(a, b, x);
    }
    if y :| y in d && y !in c {
      ProperSubsetSize(c, d, y);
    }
  }
}
