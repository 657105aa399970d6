// Sequence helpers for the array operations the components use:
// Array.prototype.filter, order-preserving subsequences and duplicate freedom.
module Lists {

  predicate NoDup<T(==)>(s: seq<T>)
  {
    forall i, j :: 0 <= i < j < |s| ==> s[i] != s[j]
  }

  /** a is obtained from b by deleting elements, keeping the order of the rest. */
  predicate IsSubsequence<T(==)>(a: seq<T>, b: seq<T>)
    decreases |b|
  {
    if a == [] then true
    else if b == [] then false
    else if a[0] == b[0] then IsSubsequence(a[1..], b[1..])
    else IsSubsequence(a, b[1..])
  }

  lemma {:induction false} SubsequenceRefl<T>(s: seq<T>)
    ensures IsSubsequence(s, s)
    decreases |s|
  {
    if s != [] { SubsequenceRefl(s[1..]); }
  }

  /** Array.prototype.filter: the elements of s that satisfy f, in their order in s. */
  function Filter<T(!new)>(f: T -> bool, s: seq<T>): (r: seq<T>)
    ensures |r| <= |s|
    ensures forall x :: x in r <==> x in s && f(x)
    decreases |s|
  {
    if s == [] then [] else (if f(s[0]) then [s[0]] else []) + Filter(f, s[1..])
  }

  lemma {:induction false} FilterIsSubsequence<T(!new)>(f: T -> bool, s: seq<T>)
    ensures IsSubsequence(Filter(f, s), s)
    decreases |s|
  {
    if s != [] {
      FilterIsSubsequence(f, s[1..]);
      var r := Filter(f, s[1..]);
      if f(s[0]) {
        assert Filter(f, s) == [s[0]] + r;
        assert ([s[0]] + r)[1..] == r;
      } else {
        // every element of r satisfies f and s[0] does not, so r cannot start with s[0]
        assert Filter(f, s) == r;
      }
    }
  }

  /** Counting is monotone: a weaker test keeps at least as many elements. */
  lemma {:induction false} FilterMonotone<T(!new)>(f: T -> bool, g: T -> bool, s: seq<T>)
    requires forall x :: x in s && f(x) ==> g(x)
    ensures |Filter(f, s)| <= |Filter(g, s)|
    decreases |s|
  {
    if s != [] { FilterMonotone(f, g, s[1..]); }
  }

  /** Two tests that agree on the elements of s filter s alike. */
  lemma {:induction false} FilterAgree<T(!new)>(f: T -> bool, g: T -> bool, s: seq<T>)
    requires forall x :: x in s ==> f(x) == g(x)
    ensures Filter(f, s) == Filter(g, s)
    decreases |s|
  {
    if s != [] { FilterAgree(f, g, s[1..]); }
  }

  /** A test that every element passes keeps the whole sequence. */
  lemma {:induction false} FilterKeepsAll<T(!new)>(f: T -> bool, s: seq<T>)
    requires forall x :: x in s ==> f(x)
    ensures Filter(f, s) == s
    decreases |s|
  {
    if s != [] { FilterKeepsAll(f, s[1..]); }
  }

  /** One step of the filter on x followed by t. */
  lemma FilterCons<T(!new)>(f: T -> bool, x: T, t: seq<T>)
    ensures Filter(f, [x] + t) == (if f(x) then [x] else []) + Filter(f, t)
  {
    assert ([x] + t)[0] == x && ([x] + t)[1..] == t;
  }

  lemma Associate<T>(a: seq<T>, b: seq<T>, c: seq<T>)
    ensures a + (b + c) == (a + b) + c
  {
  }

  lemma {:induction false} FilterConcat<T(!new)>(f: T -> bool, a: seq<T>, b: seq<T>)
    ensures Filter(f, a + b) == Filter(f, a) + Filter(f, b)
    decreases |a|
  {
    if a == [] {
      assert a + b == b;
    } else {
      var x, t := a[0], a[1..];
      assert a == [x] + t;
      Associate([x], t, b);
      FilterCons(f, x, t + b);
      FilterCons(f, x, t);
      FilterConcat(f, t, b);
      Associate(if f(x) then [x] else [], Filter(f, t), Filter(f, b));
    }
  }

  lemma {:induction false} FilterNoDup<T(!new)>(f: T -> bool, s: seq<T>)
    requires NoDup(s)
    ensures NoDup(Filter(f, s))
    decreases |s|
  {
    if s != [] {
      FilterNoDup(f, s[1..]);
      assert s[0] !in s[1..];
    }
  }

  /** The test v => v !== x. */
  function NotEqualTo<T(==)>(x: T): T -> bool
  {
    y => y != x
  }

  /** xs.filter(v => v !== x) */
  function Remove<T(==,!new)>(s: seq<T>, x: T): (r: seq<T>)
    ensures x !in r
    ensures forall y :: y in r <==> y in s && y != x
    ensures |r| <= |s|
  {
    Filter(NotEqualTo(x), s)
  }

  lemma RemoveAbsent<T(!new)>(s: seq<T>, x: T)
    requires x !in s
    ensures Remove(s, x) == s
  {
    FilterKeepsAll(NotEqualTo(x), s);
  }

  lemma RemoveConcat<T(!new)>(a: seq<T>, b: seq<T>, x: T)
    ensures Remove(a + b, x) == Remove(a, x) + Remove(b, x)
  {
    FilterConcat(NotEqualTo(x), a, b);
  }

  lemma RemoveNoDup<T(!new)>(s: seq<T>, x: T)
    requires NoDup(s)
    ensures NoDup(Remove(s, x))
  {
    FilterNoDup(NotEqualTo(x), s);
  }
}
