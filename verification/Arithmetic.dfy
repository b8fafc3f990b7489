/** Small facts about products and finite sets that the solver does not find by itself, and fresh elements. */
module Arithmetic {

  lemma MulNonNegative(a: int, b: int)
    requires 0 <= a && 0 <= b
    ensures 0 <= a * b
  {
  }

  lemma MulMonotone(a: int, b: int, x: nat)
    requires a <= b
    ensures a * x <= b * x
  {
  }

  /** n times `size`, as a sum. */
  function Copies(n: nat, size: nat): nat {
    if n == 0 then 0 else Copies(n - 1, size) + size
  }

  lemma {:induction false} CopiesIsProduct(n: nat, size: nat)
    ensures Copies(n, size) == n * size
  {
    if n != 0 {
      CopiesIsProduct(n - 1, size);
      assert n * size == (n - 1) * size + size;
    }
  }

  lemma {:induction false} SubsetSize<T>(a: set<T>, b: set<T>)
    requires a <= b
    ensures |a| <= |b|
  {
    if a != {} {
      var x :| x in a;
      SubsetSize(a - {x}, b - {x});
    }
  }

  /** The numbers from 0 up to, not including, n. */
  function Numbers(n: nat): (r: set<int>)
    ensures forall i :: i in r <==> 0 <= i < n
  {
    if n == 0 then {} else Numbers(n - 1) + {n - 1}
  }

  lemma UpdatedTwice<K, V>(m: map<K, V>, k: K, first: V, second: V)
    ensures m[k := first][k := second] == m[k := second]
  {
  }

  lemma Member<T>(s: set<T>) returns (x: T)
    requires s != {}
    ensures x in s
  {
    x :| x in s;
  }

  lemma {:induction false} FreshNumber(taken: set<int>) returns (n: int)
    ensures n !in taken && forall x :: x in taken ==> x < n
    decreases |taken|
  {
    if taken == {} {
      n := 0;
    } else {
      var x := Member(taken);
      var m := FreshNumber(taken - {x});
      n := if m <= x then x + 1 else m;
      assert taken == (taken - {x}) + {x};
    }
  }

  lemma {:induction false} LongestName(taken: set<string>) returns (n: nat)
    ensures forall p :: p in taken ==> |p| <= n
    decreases |taken|
  {
    if taken == {} {
      n := 0;
    } else {
      var p := Member(taken);
      var m := LongestName(taken - {p});
      n := if m < |p| then |p| else m;
      assert taken == (taken - {p}) + {p};
    }
  }

  lemma FreshName(taken: set<string>) returns (p: string)
    ensures p !in taken
  {
    var n := LongestName(taken);
    p := seq(n + 1, _ => 'a');
  }
}
