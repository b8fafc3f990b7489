/** Sums of integer weights over the entries of a finite map, and of a function over the integers of an interval. */
module Sums {
  import opened Arithmetic

  ghost function Sum<K, V>(m: map<K, V>, weight: V -> int): int
    decreases |m|
  {
    if m == map[] then 0 else
    var k :| k in m;
    weight(m[k]) + Sum(m - {k}, weight)
  }

  /** The order of summation does not matter: any key can be taken out first. */
  lemma {:induction false} SumWithout<K, V>(m: map<K, V>, weight: V -> int, k: K)
    requires k in m
    ensures Sum(m, weight) == weight(m[k]) + Sum(m - {k}, weight)
    decreases |m|
  {
    var first :| first in m && Sum(m, weight) == weight(m[first]) + Sum(m - {first}, weight);
    if first != k {
      SumWithout(m - {first}, weight, k);
      SumWithout(m - {k}, weight, first);
      assert m - {first} - {k} == m - {k} - {first};
    }
  }

  lemma SumUpdate<K, V>(m: map<K, V>, weight: V -> int, k: K, v: V)
    ensures k in m ==> Sum(m[k := v], weight) == Sum(m, weight) - weight(m[k]) + weight(v)
    ensures k !in m ==> Sum(m[k := v], weight) == Sum(m, weight) + weight(v)
  {
    SumWithout(m[k := v], weight, k);
    if k in m {
      SumWithout(m, weight, k);
      assert m[k := v] - {k} == m - {k};
    } else {
      assert m[k := v] - {k} == m;
    }
  }

  lemma {:induction false} SumCopies<K, V>(m: map<K, V>, weight: V -> int, bound: nat)
    requires forall k :: k in m ==> 0 <= weight(m[k]) <= bound
    ensures 0 <= Sum(m, weight) <= Copies(|m|, bound)
    decreases |m|
  {
    if m != map[] {
      var k :| k in m;
      SumWithout(m, weight, k);
      SumCopies(m - {k}, weight, bound);
      assert |m - {k}| == |m| - 1;
    }
  }

  /** A sum of weights of at most `bound` each is at most the number of entries times `bound`. */
  lemma SumBound<K, V>(m: map<K, V>, weight: V -> int, bound: nat)
    requires forall k :: k in m ==> 0 <= weight(m[k]) <= bound
    ensures 0 <= Sum(m, weight) <= |m| * bound
  {
    SumCopies(m, weight, bound);
    CopiesIsProduct(|m|, bound);
  }

  // ---- intervals ----

  /** f(start) + ... + f(end - 1). */
  function SumOver(f: int -> nat, start: int, end: int): nat
    decreases end - start
  {
    if end <= start then 0 else f(start) + SumOver(f, start + 1, end)
  }

  lemma {:induction false} SumsAgree(f: int -> nat, g: int -> nat, start: int, end: int)
    requires forall t :: start <= t < end ==> f(t) == g(t)
    ensures SumOver(f, start, end) == SumOver(g, start, end)
    decreases end - start
  {
    if start < end {
      SumsAgree(f, g, start + 1, end);
    }
  }

  lemma {:induction false} SumsAdd(f: int -> nat, g: int -> nat, h: int -> nat, start: int, end: int)
    requires forall t :: start <= t < end ==> h(t) == f(t) + g(t)
    ensures SumOver(h, start, end) == SumOver(f, start, end) + SumOver(g, start, end)
    decreases end - start
  {
    if start < end {
      SumsAdd(f, g, h, start + 1, end);
    }
  }

  /** A function that is `x` from `from` up to `until`, and 0 elsewhere. */
  lemma {:induction false} SumOfBlock(f: int -> nat, x: nat, from: int, until: int, start: int, end: int)
    requires from < until ==> start <= from && until <= end
    requires forall t :: start <= t < end ==> f(t) == if from <= t < until then x else 0
    ensures SumOver(f, start, end) == if from < until then x * (until - from) else 0
    decreases end - start
  {
    if start < end {
      if from == start && from < until {
        SumOfBlock(f, x, from + 1, until, start + 1, end);
        assert x * (until - from) == x + x * (until - (from + 1));
      } else {
        SumOfBlock(f, x, from, until, start + 1, end);
      }
    }
  }
}
