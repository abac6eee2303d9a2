/** Summation and filtering over sequences: the `reduce((acc, curr) => acc + …, 0)`,
    `forEach(… total += …)` and `filter` steps every analytic is built from. */
module Sums {

  /** The sum of `w` over `s`, accumulated from the first element to the last. */
  function Sum<T>(s: seq<T>, w: T -> real): real
    decreases |s|
  {
    if |s| == 0 then 0.0 else Sum(s[..|s| - 1], w) + w(s[|s| - 1])
  }

  /** `s.length` as a JavaScript number. */
  function Length<T>(s: seq<T>): real {
    |s| as real
  }

  /** The elements of `s` that satisfy `p`, in their original order. */
  function Filter<T>(s: seq<T>, p: T -> bool): (r: seq<T>)
    ensures |r| <= |s|
    ensures forall i :: 0 <= i < |r| ==> p(r[i])
    decreases |s|
  {
    if |s| == 0 then []
    else
      var rest := Filter(s[..|s| - 1], p);
      if p(s[|s| - 1]) then rest + [s[|s| - 1]] else rest
  }

  /** Filtering keeps only elements of the original sequence. */
  lemma {:induction false} FilterSubset<T>(s: seq<T>, p: T -> bool)
    ensures forall i :: 0 <= i < |Filter(s, p)| ==> Filter(s, p)[i] in s
    decreases |s|
  {
    if |s| > 0 {
      var s' := s[..|s| - 1];
      FilterSubset(s', p);
      assert forall x :: x in s' ==> x in s;
    }
  }

  /** `w` where `p` holds, 0 elsewhere. */
  function Mask<T>(p: T -> bool, w: T -> real): T -> real {
    x => if p(x) then w(x) else 0.0
  }

  /** Row `a` of the table `g`. */
  function Row<A, B>(g: (A, B) -> real, a: A): B -> real {
    b => g(a, b)
  }

  /** Column `b` of the table `g`. */
  function Column<A, B>(g: (A, B) -> real, b: B): A -> real {
    a => g(a, b)
  }

  /** For each `a`, the sum of `g(a, b)` over `bs`. */
  function RowSums<A, B>(bs: seq<B>, g: (A, B) -> real): A -> real {
    a => Sum(bs, Row(g, a))
  }

  /** For each `b`, the sum of `g(a, b)` over `xs`. */
  function ColumnSums<A, B>(xs: seq<A>, g: (A, B) -> real): B -> real {
    b => Sum(xs, Column(g, b))
  }

  lemma {:induction false} SumAppend<T>(a: seq<T>, b: seq<T>, w: T -> real)
    ensures Sum(a + b, w) == Sum(a, w) + Sum(b, w)
    decreases |b|
  {
    if |b| > 0 {
      var b' := b[..|b| - 1];
      assert (a + b)[..|a + b| - 1] == a + b';
      SumAppend(a, b', w);
    } else {
      assert a + b == a;
    }
  }

  /** Extending a prefix by one element adds that element's weight. */
  lemma {:induction false} SumPrefix<T>(s: seq<T>, m: nat, w: T -> real)
    requires 0 < m <= |s|
    ensures Sum(s[..m], w) == Sum(s[..m - 1], w) + w(s[m - 1])
  {
    assert s[..m][..m - 1] == s[..m - 1];
  }

  /** Two sequences of equal length whose elements weigh the same, position by position, have the same sum. */
  lemma {:induction false} SumPointwise<A, B>(a: seq<A>, wa: A -> real, b: seq<B>, wb: B -> real)
    requires |a| == |b|
    requires forall i :: 0 <= i < |a| ==> wa(a[i]) == wb(b[i])
    ensures Sum(a, wa) == Sum(b, wb)
    decreases |a|
  {
    if |a| > 0 {
      SumPointwise(a[..|a| - 1], wa, b[..|b| - 1], wb);
    }
  }

  lemma {:induction false} SumAdd<T>(s: seq<T>, w1: T -> real, w2: T -> real, w: T -> real)
    requires forall x :: x in s ==> w(x) == w1(x) + w2(x)
    ensures Sum(s, w) == Sum(s, w1) + Sum(s, w2)
    decreases |s|
  {
    if |s| > 0 {
      assert s[|s| - 1] in s;
      assert forall x :: x in s[..|s| - 1] ==> x in s;
      SumAdd(s[..|s| - 1], w1, w2, w);
    }
  }

  lemma {:induction false} SumZero<T>(s: seq<T>, w: T -> real)
    requires forall x :: x in s ==> w(x) == 0.0
    ensures Sum(s, w) == 0.0
    decreases |s|
  {
    if |s| > 0 {
      assert s[|s| - 1] in s;
      assert forall x :: x in s[..|s| - 1] ==> x in s;
      SumZero(s[..|s| - 1], w);
    }
  }

  /** A sum in which only position `k` weighs anything is the weight at `k`. */
  lemma {:induction false} SumSingleHit<T>(s: seq<T>, w: T -> real, k: nat)
    requires k < |s|
    requires forall i :: 0 <= i < |s| && i != k ==> w(s[i]) == 0.0
    ensures Sum(s, w) == w(s[k])
    decreases |s|
  {
    var s' := s[..|s| - 1];
    if k == |s| - 1 {
      assert forall x :: x in s' ==> w(x) == 0.0;
      SumZero(s', w);
    } else {
      SumSingleHit(s', w, k);
    }
  }

  /** Summing the filtered sequence is summing the masked weight over the whole sequence. */
  lemma {:induction false} SumFilter<T>(s: seq<T>, p: T -> bool, w: T -> real)
    ensures Sum(Filter(s, p), w) == Sum(s, Mask(p, w))
    decreases |s|
  {
    if |s| > 0 {
      var s' := s[..|s| - 1];
      SumFilter(s', p, w);
      if p(s[|s| - 1]) {
        SumAppend(Filter(s', p), [s[|s| - 1]], w);
        assert Sum([s[|s| - 1]], w) == w(s[|s| - 1]);
      }
    }
  }

  /** When `p` holds exactly where one of two exclusive predicates holds, its filter
      splits into theirs: as many elements, and the same total. */
  lemma {:induction false} FilterSplit<T>(s: seq<T>, p: T -> bool, p1: T -> bool, p2: T -> bool, w: T -> real)
    requires forall x :: x in s ==> (p(x) <==> p1(x) || p2(x))
    requires forall x :: x in s ==> !(p1(x) && p2(x))
    ensures |Filter(s, p)| == |Filter(s, p1)| + |Filter(s, p2)|
    ensures Sum(Filter(s, p), w) == Sum(Filter(s, p1), w) + Sum(Filter(s, p2), w)
    decreases |s|
  {
    if |s| > 0 {
      var s' := s[..|s| - 1];
      assert s[|s| - 1] in s;
      assert forall x :: x in s' ==> x in s;
      FilterSplit(s', p, p1, p2, w);
      var f, f1, f2 := Filter(s', p), Filter(s', p1), Filter(s', p2);
      var last := [s[|s| - 1]];
      if p1(s[|s| - 1]) {
        SumAppend(f, last, w);
        SumAppend(f1, last, w);
      } else if p2(s[|s| - 1]) {
        SumAppend(f, last, w);
        SumAppend(f2, last, w);
      }
    }
  }

  /** The order of a double summation does not matter. */
  lemma {:induction false} SumSwap<A, B>(xs: seq<A>, bs: seq<B>, g: (A, B) -> real)
    ensures Sum(xs, RowSums(bs, g)) == Sum(bs, ColumnSums(xs, g))
    decreases |xs|
  {
    if |xs| == 0 {
      forall b | b in bs
        ensures ColumnSums(xs, g)(b) == 0.0
      {
      }
      SumZero(bs, ColumnSums(xs, g));
    } else {
      var xs' := xs[..|xs| - 1];
      var a := xs[|xs| - 1];
      SumSwap(xs', bs, g);
      forall b | b in bs
        ensures ColumnSums(xs, g)(b) == ColumnSums(xs', g)(b) + g(a, b)
      {
      }
      SumAdd(bs, ColumnSums(xs', g), Row(g, a), ColumnSums(xs, g));
    }
  }
}
