/**
 * The two list combinators the screens are built from: `Array.prototype.filter`
 * (order-preserving selection) and a summing `reduce` that starts at 0.
 */
module Lists {

  /** The elements of `s` that satisfy `p`, in their original order. */
  function Filter<T>(p: T -> bool, s: seq<T>): (r: seq<T>)
    ensures |r| <= |s|
    ensures forall i :: 0 <= i < |r| ==> r[i] in s && p(r[i])
    ensures forall i :: 0 <= i < |s| && p(s[i]) ==> s[i] in r
  {
    if s == [] then []
    else if p(s[0]) then [s[0]] + Filter(p, s[1..])
    else Filter(p, s[1..])
  }

  /** Filtering distributes over concatenation: selection keeps the relative order. */
  lemma {:induction false} FilterAppend<T>(p: T -> bool, s: seq<T>, t: seq<T>)
    ensures Filter(p, s + t) == Filter(p, s) + Filter(p, t)
  {
    if s == [] {
      assert s + t == t;
    } else {
      assert (s + t)[0] == s[0];
      assert (s + t)[1..] == s[1..] + t;
      FilterAppend(p, s[1..], t);
    }
  }

  /** When every element satisfies `p`, filtering returns the list itself. */
  lemma {:induction false} FilterAll<T>(p: T -> bool, s: seq<T>)
    requires forall x :: x in s ==> p(x)
    ensures Filter(p, s) == s
  {
    if s != [] {
      FilterAll(p, s[1..]);
    }
  }

  /** When no element satisfies `p`, filtering returns the empty list. */
  lemma {:induction false} FilterNone<T>(p: T -> bool, s: seq<T>)
    requires forall x :: x in s ==> !p(x)
    ensures Filter(p, s) == []
  {
    if s != [] {
      FilterNone(p, s[1..]);
    }
  }

  /** Filtering with two predicates that agree on the list gives the same result. */
  lemma {:induction false} FilterCongruent<T>(p: T -> bool, q: T -> bool, s: seq<T>)
    requires forall x :: x in s ==> p(x) == q(x)
    ensures Filter(p, s) == Filter(q, s)
  {
    if s != [] {
      FilterCongruent(p, q, s[1..]);
    }
  }

  /** `s.reduce((sum, x) => sum + f(x), 0)`, folded from the left. */
  function Sum<T>(s: seq<T>, f: T -> real): real
  {
    if s == [] then 0.0 else Sum(s[..|s| - 1], f) + f(s[|s| - 1])
  }

  /** Adding one element at the end adds its value to the sum. */
  lemma SumSnoc<T>(s: seq<T>, x: T, f: T -> real)
    ensures Sum(s + [x], f) == Sum(s, f) + f(x)
  {
    assert (s + [x])[..|s + [x]| - 1] == s;
  }

  /** The sum of a concatenation is the sum of the sums. */
  lemma {:induction false} SumAppend<T>(s: seq<T>, t: seq<T>, f: T -> real)
    ensures Sum(s + t, f) == Sum(s, f) + Sum(t, f)
  {
    if t == [] {
      assert s + t == s;
    } else {
      var u := t[..|t| - 1];
      assert s + t == (s + u) + [t[|t| - 1]];
      assert t == u + [t[|t| - 1]];
      SumAppend(s, u, f);
      SumSnoc(s + u, t[|t| - 1], f);
      SumSnoc(u, t[|t| - 1], f);
    }
  }

  /** A sum is monotone in its summand, pointwise over the list. */
  lemma {:induction false} SumMonotone<T>(s: seq<T>, f: T -> real, g: T -> real)
    requires forall x :: x in s ==> f(x) <= g(x)
    ensures Sum(s, f) <= Sum(s, g)
  {
    if s != [] {
      SumMonotone(s[..|s| - 1], f, g);
      assert s[|s| - 1] in s;
    }
  }

  /** A sum of non-negative summands is non-negative. */
  lemma {:induction false} SumNonNegative<T>(s: seq<T>, f: T -> real)
    requires forall x :: x in s ==> 0.0 <= f(x)
    ensures 0.0 <= Sum(s, f)
  {
    if s != [] {
      SumNonNegative(s[..|s| - 1], f);
      assert s[|s| - 1] in s;
    }
  }

  /** A summand that is `c` times another, pointwise over the list, gives `c` times the sum. */
  lemma {:induction false} SumScale<T>(s: seq<T>, f: T -> real, g: T -> real, c: real)
    requires forall x :: x in s ==> f(x) == c * g(x)
    ensures Sum(s, f) == c * Sum(s, g)
  {
    if s != [] {
      SumScale(s[..|s| - 1], f, g, c);
      assert s[|s| - 1] in s;
    }
  }

  /** One more summand in [lo, hi] moves the bounds of an `m`-term sum to those of `m + 1` terms. */
  lemma StepBounds(m: nat, acc: real, v: real, lo: real, hi: real)
    requires m as real * lo <= acc <= m as real * hi && lo <= v <= hi
    ensures (m + 1) as real * lo <= acc + v <= (m + 1) as real * hi
  {
    var n := m as real;
    assert (m + 1) as real == n + 1.0;
    assert (n + 1.0) * lo == n * lo + lo;
    assert (n + 1.0) * hi == n * hi + hi;
  }

  /** Every element of a list without its last element is an element of the list. */
  lemma InitIncluded<T>(s: seq<T>)
    requires s != []
    ensures forall y :: y in s[..|s| - 1] ==> y in s
  {
  }

  /** If every summand lies in [lo, hi], the sum lies in [n * lo, n * hi]. */
  lemma {:induction false} SumBounds<T>(s: seq<T>, f: T -> real, lo: real, hi: real)
    requires forall x :: x in s ==> lo <= f(x) <= hi
    ensures |s| as real * lo <= Sum(s, f) <= |s| as real * hi
  {
    if s == [] {
      assert |s| as real == 0.0;
    } else {
      var init := s[..|s| - 1];
      var x := s[|s| - 1];
      InitIncluded(s);
      SumBounds(init, f, lo, hi);
      assert x in s;
      assert lo <= f(x) <= hi;
      var acc := Sum(init, f);
      assert Sum(s, f) == acc + f(x);
      StepBounds(|init|, acc, f(x), lo, hi);
      assert |s| == |init| + 1;
    }
  }

  /** A sum of natural numbers, for reductions over counts. */
  function NatSum<T>(s: seq<T>, f: T -> nat): nat
  {
    if s == [] then 0 else NatSum(s[..|s| - 1], f) + f(s[|s| - 1])
  }

  /** The natural-number sum of a concatenation is the sum of the sums. */
  lemma {:induction false} NatSumAppend<T>(s: seq<T>, t: seq<T>, f: T -> nat)
    ensures NatSum(s + t, f) == NatSum(s, f) + NatSum(t, f)
  {
    if t == [] {
      assert s + t == s;
    } else {
      var u := t[..|t| - 1];
      assert s + t == (s + u) + [t[|t| - 1]];
      assert (s + t)[..|s + t| - 1] == s + u;
      assert t[..|t| - 1] == u;
      NatSumAppend(s, u, f);
    }
  }
}
