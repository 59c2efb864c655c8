/** Finite sums over maps. */
module Sums {

  ghost function MapSum<K(!new)>(m: map<K, int>): int
    decreases |m|
  {
    if m == map[] then 0
    else
      var k :| k in m;
      m[k] + MapSum(m - {k})
  }

  lemma {:induction false} SumRemove<K(!new)>(m: map<K, int>, k: K)
    requires k in m
    ensures MapSum(m) == m[k] + MapSum(m - {k})
    decreases |m|
  {
    var j :| j in m && MapSum(m) == m[j] + MapSum(m - {j});
    if j != k {
      SumRemove(m - {j}, k);
      SumRemove(m - {k}, j);
      assert m - {j} - {k} == m - {k} - {j};
    }
  }

  lemma SumUpdate<K(!new)>(m: map<K, int>, k: K, x: int)
    ensures MapSum(m[k := x]) == MapSum(m) - (if k in m then m[k] else 0) + x
  {
    SumRemove(m[k := x], k);
    assert m[k := x] - {k} == m - {k};
    if k in m {
      SumRemove(m, k);
    } else {
      assert m - {k} == m;
    }
  }

  /** Pointwise order carries over to sums. */
  lemma {:induction false} SumMono<K(!new)>(a: map<K, int>, b: map<K, int>)
    requires a.Keys == b.Keys
    requires forall k | k in a :: a[k] <= b[k]
    ensures MapSum(a) <= MapSum(b)
    decreases |a|
  {
    if a == map[] {
      assert b == map[];
    } else {
      var k :| k in a;
      SumRemove(a, k);
      SumRemove(b, k);
      SumMono(a - {k}, b - {k});
    }
  }

  lemma {:induction false} SumAdd<K(!new)>(a: map<K, int>, b: map<K, int>, c: map<K, int>)
    requires a.Keys == b.Keys == c.Keys
    requires forall k | k in a :: c[k] == a[k] + b[k]
    ensures MapSum(c) == MapSum(a) + MapSum(b)
    decreases |a|
  {
    if a == map[] {
      assert b == map[] && c == map[];
    } else {
      var k :| k in a;
      SumRemove(a, k);
      SumRemove(b, k);
      SumRemove(c, k);
      SumAdd(a - {k}, b - {k}, c - {k});
    }
  }

  lemma {:induction false} SumZero<K(!new)>(a: map<K, int>)
    requires forall k | k in a :: a[k] == 0
    ensures MapSum(a) == 0
    decreases |a|
  {
    if a != map[] {
      var k :| k in a;
      SumRemove(a, k);
      SumZero(a - {k});
    }
  }

  /** A sum of non-negative terms is at least each of its terms. */
  lemma {:induction false} SumAtLeast<K(!new)>(a: map<K, int>, k: K)
    requires forall j | j in a :: 0 <= a[j]
    requires k in a
    ensures 0 <= a[k] <= MapSum(a)
  {
    SumRemove(a, k);
    var zeros := map j | j in a - {k} :: 0;
    SumZero(zeros);
    SumMono(zeros, a - {k});
  }

  /** The terms of `m` filed under class `c`, the others zeroed. */
  ghost function Filed<K(!new), C(!new)>(m: map<K, int>, cls: map<K, C>, c: C): map<K, int>
    requires m.Keys == cls.Keys
  {
    map k | k in m :: if cls[k] == c then m[k] else 0
  }

  /** One subtotal for each class. */
  ghost function Subtotals<K(!new), C(!new)>(m: map<K, int>, cls: map<K, C>, cs: set<C>): map<C, int>
    requires m.Keys == cls.Keys
  {
    map c | c in cs :: MapSum(Filed(m, cls, c))
  }

  lemma FiledRemove<K(!new), C(!new)>(m: map<K, int>, cls: map<K, C>, c: C, k: K)
    requires m.Keys == cls.Keys && k in m
    ensures MapSum(Filed(m, cls, c)) == MapSum(Filed(m - {k}, cls - {k}, c)) + (if c == cls[k] then m[k] else 0)
  {
    SumRemove(Filed(m, cls, c), k);
    assert Filed(m, cls, c) - {k} == Filed(m - {k}, cls - {k}, c);
  }

  /** A sum is the sum of its subtotals, when every non-zero term is filed. */
  lemma {:induction false} SumBySubtotals<K(!new), C(!new)>(m: map<K, int>, cls: map<K, C>, cs: set<C>)
    requires m.Keys == cls.Keys
    requires forall k | k in m && m[k] != 0 :: cls[k] in cs
    ensures MapSum(m) == MapSum(Subtotals(m, cls, cs))
    decreases |m|
  {
    if m == map[] {
      forall c | c in cs ensures Subtotals(m, cls, cs)[c] == 0 {
        assert Filed(m, cls, c) == map[];
      }
      SumZero(Subtotals(m, cls, cs));
    } else {
      var k :| k in m;
      SumRemove(m, k);
      SumBySubtotals(m - {k}, cls - {k}, cs);
      SubtotalsRemove(m, cls, cs, k);
    }
  }

  lemma SubtotalsRemove<K(!new), C(!new)>(m: map<K, int>, cls: map<K, C>, cs: set<C>, k: K)
    requires m.Keys == cls.Keys && k in m
    requires m[k] != 0 ==> cls[k] in cs
    ensures MapSum(Subtotals(m, cls, cs)) == MapSum(Subtotals(m - {k}, cls - {k}, cs)) + m[k]
  {
    var m', cls' := m - {k}, cls - {k};
    var big, small := Subtotals(m, cls, cs), Subtotals(m', cls', cs);
    forall c | c in cs ensures big[c] == small[c] + (if c == cls[k] then m[k] else 0) {
      FiledRemove(m, cls, c, k);
    }
    SumDiffer(big, small, cls[k], m[k]);
  }

  /** Sums of maps that differ at most at `k`, by `x`. */
  lemma SumDiffer<K(!new)>(a: map<K, int>, b: map<K, int>, k: K, x: int)
    requires a.Keys == b.Keys
    requires x != 0 ==> k in a
    requires forall j | j in a :: a[j] == b[j] + (if j == k then x else 0)
    ensures MapSum(a) == MapSum(b) + x
  {
    if k in a {
      assert a == b[k := b[k] + x];
      SumUpdate(b, k, b[k] + x);
    } else {
      assert a == b;
    }
  }
}

/** Floor division summed over a map: what rounding each term down loses. */
module FloorSums {
  import opened Ints
  import opened Sums

  /** Each term scaled by `n / d` and rounded down on its own. */
  ghost function Floors<K(!new)>(m: map<K, int>, n: nat, d: nat): map<K, int>
    requires d > 0
  {
    map k | k in m :: m[k] * n / d
  }

  /** What each rounding throws away, in units of `1 / d`. */
  ghost function Remainders<K(!new)>(m: map<K, int>, n: nat, d: nat): map<K, int>
    requires d > 0
  {
    map k | k in m :: m[k] * n % d
  }

  /** One for each non-zero term. */
  ghost function Support<K(!new)>(m: map<K, int>): map<K, int> {
    map k | k in m :: if m[k] == 0 then 0 else 1
  }

  lemma {:induction false} SumScale<K(!new)>(m: map<K, int>, n: nat, d: nat)
    requires d > 0
    ensures MapSum(m) * n == d * MapSum(Floors(m, n, d)) + MapSum(Remainders(m, n, d))
    decreases |m|
  {
    if m != map[] {
      var k :| k in m;
      SumScale(m - {k}, n, d);
      SumRemove(m, k);
      SumRemove(Floors(m, n, d), k);
      SumRemove(Remainders(m, n, d), k);
      assert Floors(m, n, d) - {k} == Floors(m - {k}, n, d);
      assert Remainders(m, n, d) - {k} == Remainders(m - {k}, n, d);
      ScaleOne(m[k], MapSum(m - {k}), n, d, MapSum(Floors(m - {k}, n, d)));
    } else {
      assert Floors(m, n, d) == map[] && Remainders(m, n, d) == map[];
    }
  }

  lemma ScaleOne(x: int, rest: int, n: nat, d: nat, floors: int)
    requires d > 0
    ensures (x + rest) * n == d * (x * n / d + floors) - d * floors + x * n % d + rest * n
  {
    var y := x * n;
    QuotientBounds(y, d);
    var q := y / d;
    assert (x + rest) * n == y + rest * n;
    assert d * (q + floors) == d * q + d * floors;
  }

  /** Remainders add up to less than `d` for each non-zero term. */
  lemma {:induction false} RemaindersBelow<K(!new)>(m: map<K, int>, n: nat, d: nat)
    requires d > 0
    requires forall k | k in m :: 0 <= m[k]
    ensures 0 <= MapSum(Support(m))
    ensures 0 <= MapSum(Remainders(m, n, d)) <= (d - 1) * MapSum(Support(m))
    decreases |m|
  {
    if m != map[] {
      var k :| k in m;
      RemaindersBelow(m - {k}, n, d);
      RemoveRemainder(m, n, d, k);
      if m[k] == 0 {
        ZeroRemainder(n, d);
      } else {
        RemainderBelow(m[k] * n, d, MapSum(Support(m - {k})), MapSum(Remainders(m - {k}, n, d)));
      }
    } else {
      assert Remainders(m, n, d) == map[] && Support(m) == map[];
    }
  }

  lemma RemoveRemainder<K(!new)>(m: map<K, int>, n: nat, d: nat, k: K)
    requires d > 0 && k in m
    ensures MapSum(Remainders(m, n, d)) == m[k] * n % d + MapSum(Remainders(m - {k}, n, d))
    ensures MapSum(Support(m)) == (if m[k] == 0 then 0 else 1) + MapSum(Support(m - {k}))
  {
    SumRemove(Remainders(m, n, d), k);
    SumRemove(Support(m), k);
    assert Remainders(m, n, d) - {k} == Remainders(m - {k}, n, d);
    assert Support(m) - {k} == Support(m - {k});
  }

  lemma ZeroRemainder(n: nat, d: nat)
    requires d > 0
    ensures 0 * n % d == 0
  {
    Quotient(0, d, 0);
  }

  lemma RemainderBelow(y: int, d: nat, c: int, rest: int)
    requires d > 0 && 0 <= rest <= (d - 1) * c
    ensures 0 <= y % d + rest <= (d - 1) * (1 + c)
  {
  }

  /** The shortfall of rounding term by term instead of once: exactly the
      whole multiples of `d` in the remainders, so at most one unit less than
      the number of non-zero terms, and nothing when `d` is 1. */
  lemma FloorShortfall<K(!new)>(m: map<K, int>, n: nat, d: nat)
    requires d > 0
    requires forall k | k in m :: 0 <= m[k]
    ensures MapSum(m) * n / d == MapSum(Floors(m, n, d)) + MapSum(Remainders(m, n, d)) / d
    ensures 0 <= MapSum(Remainders(m, n, d)) / d <= Spare(MapSum(Support(m)))
    ensures d == 1 ==> MapSum(Remainders(m, n, d)) == 0
  {
    SumScale(m, n, d);
    RemaindersBelow(m, n, d);
    var f, r, c := MapSum(Floors(m, n, d)), MapSum(Remainders(m, n, d)), MapSum(Support(m));
    DivideShifted(f, r, d);
    DivMono(0, r, d);
    BelowQuotient(r, c, d);
  }

  lemma BelowQuotient(r: nat, c: nat, d: nat)
    requires d > 0 && r <= (d - 1) * c
    ensures r / d <= Spare(c)
    ensures d == 1 ==> r == 0
  {
    if c == 0 {
      Quotient(0, d, 0);
    } else {
      assert (d - 1) * c == d * c - c;
      DivLess(r, d, c);
    }
  }
}
