/** Integer division as the source does it, and sums over unordered collections. */
module Arith {

  /** Division that truncates toward zero. */
  function TruncDiv(n: int, d: int): int
    requires d > 0
  {
    if n >= 0 then n / d else -((-n) / d)
  }

  /** Scaling keeps order. */
  lemma {:induction false} Scales(n: int, a: int, b: int)
    requires n >= 0 && a <= b
    ensures n * a <= n * b && a * n <= b * n
  {
  }

  /** A sum over a finite set, whatever the order of traversal. */
  ghost function Sum<T(!new)>(keys: set<T>, f: T -> int): int
    decreases |keys|
  {
    if keys == {} then 0
    else
      var k :| k in keys;
      f(k) + Sum(keys - {k}, f)
  }

  lemma {:induction false} SumWithout<T(!new)>(keys: set<T>, k: T, f: T -> int)
    requires k in keys
    ensures Sum(keys, f) == f(k) + Sum(keys - {k}, f)
    decreases |keys|
  {
    var j :| j in keys && Sum(keys, f) == f(j) + Sum(keys - {j}, f);
    if j != k {
      SumWithout(keys - {j}, k, f);
      SumWithout(keys - {k}, j, f);
      assert keys - {j} - {k} == keys - {k} - {j};
    }
  }

  lemma {:induction false} SumSame<T(!new)>(keys: set<T>, f: T -> int, g: T -> int)
    requires forall k :: k in keys ==> f(k) == g(k)
    ensures Sum(keys, f) == Sum(keys, g)
    decreases |keys|
  {
    if keys != {} {
      var k :| k in keys;
      SumSame(keys - {k}, f, g);
      SumWithout(keys, k, f);
      SumWithout(keys, k, g);
    }
  }
}
