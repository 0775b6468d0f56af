/** `Array.prototype.filter` and `Array.prototype.map` on sequences, with
    the facts the pages rely on: a filter keeps an order-preserving
    subsequence, a map keeps length and order. */
module Lists {

  /** `xs` can be obtained from `ys` by deleting elements, keeping order. */
  ghost predicate SubsequenceOf<T>(xs: seq<T>, ys: seq<T>)
    decreases |ys|
  {
    xs == [] || (ys != [] && ((xs[0] == ys[0] && SubsequenceOf(xs[1..], ys[1..])) || SubsequenceOf(xs, ys[1..])))
  }

  /** `xs.filter(p)`. */
  function Filter<T(!new)>(p: T -> bool, xs: seq<T>): (r: seq<T>)
    ensures |r| <= |xs|
  {
    if xs == [] then []
    else if p(xs[0]) then [xs[0]] + Filter(p, xs[1..])
    else Filter(p, xs[1..])
  }

  /** A filter keeps exactly the elements that satisfy its predicate. */
  lemma {:induction false} FilterMembers<T(!new)>(p: T -> bool, xs: seq<T>)
    ensures forall x :: x in Filter(p, xs) <==> x in xs && p(x)
  {
    if xs != [] {
      FilterMembers(p, xs[1..]);
      assert xs == [xs[0]] + xs[1..];
    }
  }

  /** A filter keeps every occurrence of a matching element: each one
      appears in the result as often as in the input. */
  lemma {:induction false} FilterCount<T(!new)>(p: T -> bool, xs: seq<T>)
    ensures forall x :: multiset(Filter(p, xs))[x] == if p(x) then multiset(xs)[x] else 0
  {
    if xs != [] {
      FilterCount(p, xs[1..]);
      assert xs == [xs[0]] + xs[1..];
    }
  }

  /** A filter keeps the order of what it keeps. */
  lemma {:induction false} FilterSubsequence<T(!new)>(p: T -> bool, xs: seq<T>)
    ensures SubsequenceOf(Filter(p, xs), xs)
  {
    if xs != [] {
      var rest := Filter(p, xs[1..]);
      FilterSubsequence(p, xs[1..]);
      if p(xs[0]) {
        assert ([xs[0]] + rest)[1..] == rest;
      }
    }
  }

  /** `xs.map(f)`. */
  function MapSeq<T, U>(f: T -> U, xs: seq<T>): (r: seq<U>)
    ensures |r| == |xs|
    ensures forall i :: 0 <= i < |xs| ==> r[i] == f(xs[i])
  {
    if xs == [] then [] else [f(xs[0])] + MapSeq(f, xs[1..])
  }

  /** A filter whose predicate every element passes returns the whole list. */
  lemma {:induction false} FilterKeepsAll<T(!new)>(p: T -> bool, xs: seq<T>)
    requires forall i :: 0 <= i < |xs| ==> p(xs[i])
    ensures Filter(p, xs) == xs
  {
    if xs != [] {
      FilterKeepsAll(p, xs[1..]);
      assert [xs[0]] + xs[1..] == xs;
    }
  }

  /** Filtering distributes over concatenation (a list that grows at the
      end shows its old matches followed by the new ones). */
  lemma {:induction false} FilterAppend<T(!new)>(p: T -> bool, xs: seq<T>, ys: seq<T>)
    ensures Filter(p, xs + ys) == Filter(p, xs) + Filter(p, ys)
  {
    if xs == [] {
      assert xs + ys == ys;
    } else {
      assert (xs + ys)[1..] == xs[1..] + ys;
      FilterAppend(p, xs[1..], ys);
    }
  }

  /** A weaker predicate keeps at least as many elements. */
  lemma {:induction false} FilterWeaker<T(!new)>(p: T -> bool, q: T -> bool, xs: seq<T>)
    requires forall x :: p(x) ==> q(x)
    ensures |Filter(p, xs)| <= |Filter(q, xs)|
  {
    if xs != [] {
      FilterWeaker(p, q, xs[1..]);
    }
  }

  /** Two predicates that no element satisfies together select at most
      the whole list between them. */
  lemma {:induction false} FilterDisjoint<T(!new)>(p: T -> bool, q: T -> bool, xs: seq<T>)
    requires forall x :: !(p(x) && q(x))
    ensures |Filter(p, xs)| + |Filter(q, xs)| <= |xs|
  {
    if xs != [] {
      FilterDisjoint(p, q, xs[1..]);
    }
  }

  /** Filters with predicates that agree everywhere select the same elements. */
  lemma {:induction false} FilterSame<T(!new)>(p: T -> bool, q: T -> bool, xs: seq<T>)
    requires forall x :: p(x) == q(x)
    ensures Filter(p, xs) == Filter(q, xs)
  {
    if xs != [] {
      FilterSame(p, q, xs[1..]);
    }
  }

  /** A map that never takes an element out of `p` keeps at least as many
      elements in `p`. */
  lemma {:induction false} FilterAfterMap<T(!new)>(p: T -> bool, f: T -> T, xs: seq<T>)
    requires forall x :: p(x) ==> p(f(x))
    ensures |Filter(p, xs)| <= |Filter(p, MapSeq(f, xs))|
  {
    if xs != [] {
      FilterAfterMap(p, f, xs[1..]);
      assert MapSeq(f, xs)[1..] == MapSeq(f, xs[1..]);
    }
  }
}
