/** Sequence vocabulary shared by every page of the dashboard: order-preserving
    subsequences, `Array.prototype.filter`, and the insertion-ordered
    de-duplication that `[...new Set(xs)]` performs. */
module Seqs {

  /** `a` can be obtained from `b` by deleting elements, without reordering. */
  predicate IsSubsequence<T(==,!new)>(a: seq<T>, b: seq<T>)
    decreases |b|
  {
    |a| == 0 ||
    (|b| > 0 && ((a[0] == b[0] && IsSubsequence(a[1..], b[1..])) || IsSubsequence(a, b[1..])))
  }

  predicate NoDuplicates<T(==,!new)>(s: seq<T>) {
    forall i, j :: 0 <= i < j < |s| ==> s[i] != s[j]
  }

  /** Position of the first occurrence of `x` in `s`. */
  function IndexOf<T(==,!new)>(s: seq<T>, x: T): (k: nat)
    requires x in s
    ensures k < |s| && s[k] == x
    ensures forall i :: 0 <= i < k ==> s[i] != x
  {
    if s[0] == x then 0 else 1 + IndexOf(s[1..], x)
  }

  lemma {:induction false} SubsequenceReflexive<T(!new)>(s: seq<T>)
    ensures IsSubsequence(s, s)
    decreases |s|
  {
    if |s| > 0 {
      SubsequenceReflexive(s[1..]);
    }
  }

  lemma {:induction false} SubsequenceTransitive<T(!new)>(a: seq<T>, b: seq<T>, c: seq<T>)
    requires IsSubsequence(a, b) && IsSubsequence(b, c)
    ensures IsSubsequence(a, c)
    decreases |c|
  {
    if |a| > 0 {
      if b[0] == c[0] && IsSubsequence(b[1..], c[1..]) {
        if a[0] == b[0] && IsSubsequence(a[1..], b[1..]) {
          SubsequenceTransitive(a[1..], b[1..], c[1..]);
        } else {
          SubsequenceTransitive(a, b[1..], c[1..]);
        }
      } else {
        SubsequenceTransitive(a, b, c[1..]);
      }
    }
  }

  /** A subsequence is no longer than its source and only holds its elements. */
  lemma {:induction false} SubsequenceElements<T(!new)>(a: seq<T>, b: seq<T>)
    requires IsSubsequence(a, b)
    ensures |a| <= |b|
    ensures forall x :: x in a ==> x in b
    decreases |b|
  {
    if |a| > 0 {
      if a[0] == b[0] && IsSubsequence(a[1..], b[1..]) {
        SubsequenceElements(a[1..], b[1..]);
        assert forall x :: x in a ==> x == a[0] || x in a[1..];
      } else {
        SubsequenceElements(a, b[1..]);
      }
    }
  }

  /** `xs.filter(keep)`: keeps, in order, exactly the elements `keep` accepts,
      each as often as it occurs in `s`. */
  function Filter<T(==,!new)>(s: seq<T>, keep: T -> bool): (r: seq<T>)
    ensures IsSubsequence(r, s)
    ensures forall x :: x in r <==> x in s && keep(x)
    ensures forall x :: multiset(r)[x] == if keep(x) then multiset(s)[x] else 0
    ensures (forall x :: x in s ==> keep(x)) ==> r == s
  {
    if |s| == 0 then []
    else
      var rest := Filter(s[1..], keep);
      assert s == [s[0]] + s[1..];
      if keep(s[0]) then [s[0]] + rest else rest
  }

  /** Two filters in a row are one filter with the conjunction. */
  lemma {:induction false} FilterFilter<T(!new)>(s: seq<T>, p: T -> bool, q: T -> bool, both: T -> bool)
    requires forall x :: both(x) == (p(x) && q(x))
    ensures Filter(Filter(s, p), q) == Filter(s, both)
    decreases |s|
  {
    if |s| > 0 {
      FilterFilter(s[1..], p, q, both);
      if p(s[0]) {
        assert Filter(s, p) == [s[0]] + Filter(s[1..], p);
        assert Filter(s, p)[1..] == Filter(s[1..], p);
      }
    }
  }

  /** Filters with predicates that agree on every element agree. */
  lemma {:induction false} FilterExtensional<T(!new)>(s: seq<T>, p: T -> bool, q: T -> bool)
    requires forall x :: x in s ==> p(x) == q(x)
    ensures Filter(s, p) == Filter(s, q)
    decreases |s|
  {
    if |s| > 0 {
      assert forall x :: x in s[1..] ==> x in s;
      FilterExtensional(s[1..], p, q);
    }
  }

  /** Splitting by a predicate and its negation accounts for every element once. */
  lemma {:induction false} FilterPartition<T(!new)>(s: seq<T>, keep: T -> bool, drop: T -> bool)
    requires forall x :: drop(x) == !keep(x)
    ensures |Filter(s, keep)| + |Filter(s, drop)| == |s|
    decreases |s|
  {
    if |s| > 0 {
      FilterPartition(s[1..], keep, drop);
    }
  }

  /** `[...new Set(s)]` restricted to elements not yet in `seen`: one copy of each,
      in order of first occurrence. */
  function DedupFrom<T(==,!new)>(s: seq<T>, seen: set<T>): (r: seq<T>)
    ensures NoDuplicates(r)
    ensures forall x :: x in r <==> x in s && x !in seen
    ensures IsSubsequence(r, s)
    ensures forall i, j :: 0 <= i < j < |r| ==> IndexOf(s, r[i]) < IndexOf(s, r[j])
  {
    if |s| == 0 then []
    else
      var rest := DedupFrom(s[1..], seen + {s[0]});
      var skip := DedupFrom(s[1..], seen);
      assert forall y :: y in s[1..] && y != s[0] ==> IndexOf(s, y) == 1 + IndexOf(s[1..], y);
      if s[0] in seen then
        assert forall y :: y in skip ==> y != s[0];
        skip
      else
        assert forall y :: y in rest ==> y != s[0];
        var r := [s[0]] + rest;
        assert forall i :: 0 < i < |r| ==> r[i] == rest[i - 1];
        r
  }

  /** `[...new Set(s)]`. */
  function Dedup<T(==,!new)>(s: seq<T>): (r: seq<T>)
    ensures NoDuplicates(r)
    ensures forall x :: x in r <==> x in s
    ensures IsSubsequence(r, s)
    ensures forall i, j :: 0 <= i < j < |r| ==> IndexOf(s, r[i]) < IndexOf(s, r[j])
  {
    DedupFrom(s, {})
  }

  /** `xs.map(f)`. */
  function Map<T(!new), U(==,!new)>(s: seq<T>, f: T -> U): (r: seq<U>)
    ensures |r| == |s|
    ensures forall i :: 0 <= i < |s| ==> r[i] == f(s[i])
    ensures forall y :: y in r <==> exists x :: x in s && f(x) == y
  {
    var r := seq(|s|, i requires 0 <= i < |s| => f(s[i]));
    assert forall x :: x in s ==> f(x) in r by {
      forall x | x in s ensures f(x) in r {
        var i :| 0 <= i < |s| && s[i] == x;
        assert r[i] == f(x);
      }
    }
    r
  }

  /** Counting the elements whose image under `f` is `y` is counting `y`
      among the images. */
  lemma {:induction false} FilterCountIsOccurrences<T(!new), U(!new)>(s: seq<T>, f: T -> U, keep: T -> bool, y: U)
    requires forall x :: keep(x) == (f(x) == y)
    ensures |Filter(s, keep)| == multiset(Map(s, f))[y]
    decreases |s|
  {
    if |s| > 0 {
      FilterCountIsOccurrences(s[1..], f, keep, y);
      var images, rest := Map(s, f), Map(s[1..], f);
      assert images == [f(s[0])] + rest by {
        assert forall i :: 0 < i < |images| ==> images[i] == rest[i - 1];
      }
      assert multiset(images) == multiset{f(s[0])} + multiset(rest);
    }
  }

  /** How many positions of `names` hold `x`. */
  function Hits<T(==,!new)>(names: seq<T>, x: T): nat {
    if |names| == 0 then 0 else (if names[0] == x then 1 else 0) + Hits(names[1..], x)
  }

  lemma {:induction false} HitsOfDistinct<T(!new)>(names: seq<T>, x: T)
    requires NoDuplicates(names)
    ensures Hits(names, x) == if x in names then 1 else 0
    decreases |names|
  {
    if |names| > 0 {
      assert NoDuplicates(names[1..]);
      HitsOfDistinct(names[1..], x);
      assert x in names <==> x == names[0] || x in names[1..];
      if names[0] == x {
        assert x !in names[1..];
      }
    }
  }

  /** The multiplicities in `m` of the entries of `names`, added up. */
  function CountsSum<T(==,!new)>(names: seq<T>, m: multiset<T>): nat {
    if |names| == 0 then 0 else m[names[0]] + CountsSum(names[1..], m)
  }

  lemma {:induction false} CountsSumAdd<T(!new)>(names: seq<T>, m: multiset<T>, x: T)
    ensures CountsSum(names, m + multiset{x}) == CountsSum(names, m) + Hits(names, x)
    decreases |names|
  {
    if |names| > 0 {
      CountsSumAdd(names[1..], m, x);
    }
  }

  /** When `names` is free of duplicates and covers every element of `s`,
      counting `s` name by name counts each element exactly once. */
  lemma {:induction false} CountsSumCovers<T(!new)>(names: seq<T>, s: seq<T>)
    requires NoDuplicates(names)
    requires forall x :: x in s ==> x in names
    ensures CountsSum(names, multiset(s)) == |s|
    decreases |s|
  {
    if |s| == 0 {
      CountsSumEmpty(names);
    } else {
      assert s == [s[0]] + s[1..];
      assert multiset(s) == multiset(s[1..]) + multiset{s[0]};
      CountsSumCovers(names, s[1..]);
      CountsSumAdd(names, multiset(s[1..]), s[0]);
      HitsOfDistinct(names, s[0]);
    }
  }

  lemma {:induction false} CountsSumEmpty<T(!new)>(names: seq<T>)
    ensures CountsSum(names, multiset{}) == 0
    decreases |names|
  {
    if |names| > 0 {
      CountsSumEmpty(names[1..]);
    }
  }
}
