/** Sums over the values of a finite map of reals, in whatever order they are taken. */
module Vectors {

  type Vec = map<string, real>

  // ------------------------------------------------------------- products, one law at a time

  function Times(x: real, y: real): real {
    x * y
  }

  lemma TimesPlus(a: real, x: real, y: real)
    ensures Times(a, x + y) == Times(a, x) + Times(a, y)
  {
  }

  lemma TimesSwap(x: real, y: real)
    ensures Times(x, y) == Times(y, x)
  {
  }

  lemma TimesGroup(x: real, y: real, z: real)
    ensures Times(x, Times(y, z)) == Times(Times(x, y), z)
  {
  }

  lemma TimesZero(x: real)
    ensures Times(x, 0.0) == 0.0 && Times(x, 1.0) == x
  {
  }

  lemma SquareNotNegative(x: real)
    ensures Times(x, x) >= 0.0
  {
  }

  lemma TimesPositive(x: real, y: real)
    requires x > 0.0 && y > 0.0
    ensures Times(x, y) > 0.0
  {
  }

  lemma TimesMonotone(a: real, x: real, y: real)
    requires a >= 0.0 && x <= y
    ensures Times(a, x) <= Times(a, y)
  {
  }

  lemma SquareOfSum(x: real, y: real)
    ensures Times(x + y, x + y) == Times(x, x) + 2.0 * Times(x, y) + Times(y, y)
  {
  }

  // ------------------------------------------------------------------------------------ sums

  ghost function Sum(m: Vec): real {
    if m == map[] then 0.0 else
    var k :| k in m;
    m[k] + Sum(m - {k})
  }

  // Any key may be taken out first.
  lemma {:induction false} SumWithout(m: Vec, k: string)
    requires k in m
    ensures Sum(m) == m[k] + Sum(m - {k})
    decreases |m|
  {
    var j :| j in m && Sum(m) == m[j] + Sum(m - {j});
    if j != k {
      SumWithout(m - {j}, k);
      SumWithout(m - {k}, j);
      assert m - {j} - {k} == m - {k} - {j};
    }
  }

  lemma SumEmpty()
    ensures Sum(map[]) == 0.0
  {
  }

  lemma {:induction false} SumPlus(m: Vec, x: Vec, y: Vec)
    requires m.Keys == x.Keys == y.Keys
    requires forall k <- m :: m[k] == x[k] + y[k]
    ensures Sum(m) == Sum(x) + Sum(y)
    decreases |m|
  {
    hide Sum;
    if m == map[] {
      assert x == map[] && y == map[];
      SumEmpty();
    } else {
      var k :| k in m;
      SumWithout(m, k);
      SumWithout(x, k);
      SumWithout(y, k);
      SumPlus(m - {k}, x - {k}, y - {k});
    }
  }

  lemma {:induction false} SumScaled(m: Vec, a: real, x: Vec)
    requires m.Keys == x.Keys
    requires forall k <- m :: m[k] == Times(a, x[k])
    ensures Sum(m) == Times(a, Sum(x))
    decreases |m|
  {
    TimesZero(a);
    hide Sum, Times;
    SumEmpty();
    if m == map[] {
      assert x == map[];
    } else {
      var k :| k in m;
      SumWithout(m, k);
      SumWithout(x, k);
      SumScaled(m - {k}, a, x - {k});
      TimesPlus(a, x[k], Sum(x - {k}));
    }
  }

  lemma {:induction false} SumNotNegative(m: Vec)
    requires forall k <- m :: m[k] >= 0.0
    ensures Sum(m) >= 0.0
    decreases |m|
  {
    if m != map[] {
      var k :| k in m;
      SumWithout(m, k);
      SumNotNegative(m - {k});
    }
  }

  // A sum over some of the keys is at most the sum over all, if no value is negative.
  lemma {:induction false} SumSubset(m: Vec, n: Vec)
    requires m.Keys <= n.Keys
    requires (forall k <- m :: m[k] == n[k]) && (forall k <- n :: n[k] >= 0.0)
    ensures Sum(m) <= Sum(n)
    decreases |n|
  {
    if n != map[] {
      var k :| k in n;
      SumWithout(n, k);
      if k in m {
        SumWithout(m, k);
        SumSubset(m - {k}, n - {k});
      } else {
        SumSubset(m, n - {k});
      }
    } else {
      assert m == map[];
    }
  }

  // At most as many as there are keys, if no value is above one.
  lemma {:induction false} SumAtMostSize(m: Vec)
    requires forall k <- m :: m[k] <= 1.0
    ensures Sum(m) <= |m| as real
    decreases |m|
  {
    if m != map[] {
      var k :| k in m;
      SumWithout(m, k);
      SumAtMostSize(m - {k});
      SizeWithout(m, k);
    }
  }

  lemma {:induction false} SumConstant(m: Vec, v: real)
    requires forall k <- m :: m[k] == v
    ensures Sum(m) == Times(v, |m| as real)
    decreases |m|
  {
    TimesZero(v);
    hide Sum, Times;
    SumEmpty();
    if m != map[] {
      var k :| k in m;
      SumWithout(m, k);
      SumConstant(m - {k}, v);
      SizeWithout(m, k);
      TimesPlus(v, |m - {k}| as real, 1.0);
    }
  }

  lemma SizeWithout(m: Vec, k: string)
    requires k in m
    ensures |m - {k}| == |m| - 1
  {
  }

  // Keys whose value is zero do not count.
  lemma {:induction false} SumSupport(m: Vec, n: Vec)
    requires m.Keys <= n.Keys
    requires (forall k <- m :: m[k] == n[k]) && (forall k <- n :: k in m || n[k] == 0.0)
    ensures Sum(m) == Sum(n)
    decreases |n|
  {
    if n == map[] {
      assert m == map[];
    } else {
      var k :| k in n;
      SumWithout(n, k);
      if k in m {
        SumWithout(m, k);
        SumSupport(m - {k}, n - {k});
      } else {
        SumSupport(m, n - {k});
      }
    }
  }

  // The inner product over the keys of c.
  ghost function Dot(v: Vec, c: Vec): real
    requires c.Keys <= v.Keys
  {
    Sum(map k | k in c :: Times(v[k], c[k]))
  }

  lemma SquareOfDifference(a: real, b: real, p: real, x: real, y: real)
    ensures (a * y - p * x) * (a * y - p * x) + (a * b - p * p) * (x * x)
            == a * (a * (y * y) + b * (x * x) - 2.0 * (p * (x * y)))
  {
  }

  lemma NoSquareBelowZero(p: real, q: real)
    requires p * q <= 0.0 && p == q
    ensures p == 0.0
  {
  }

  // 2pxy <= ay² + bx² when p² <= ab.
  lemma CrossTerm(a: real, b: real, p: real, x: real, y: real)
    requires a >= 0.0 && b >= 0.0 && p * p <= a * b
    ensures 2.0 * (p * (x * y)) <= a * (y * y) + b * (x * x)
  {
    var q := x * x;
    assert q >= 0.0 && b * q >= 0.0;
    if a == 0.0 {
      assert a * b == 0.0;
      NoSquareBelowZero(p, p);
      assert p * (x * y) == 0.0 && a * (y * y) == 0.0;
    } else {
      var t := a * (y * y) + b * q - 2.0 * (p * (x * y));
      SquareOfDifference(a, b, p, x, y);
      var d, e := a * y - p * x, a * b - p * p;
      assert d * d >= 0.0;
      assert e * q >= 0.0;
      assert a * t >= 0.0;
      assert t >= 0.0;
    }
  }

  lemma CauchySchwarzStep(a: real, b: real, p: real, x: real, y: real)
    requires a >= 0.0 && b >= 0.0 && Times(p, p) <= Times(a, b)
    ensures Times(p + Times(x, y), p + Times(x, y)) <= Times(a + Times(x, x), b + Times(y, y))
  {
    assert p * p <= a * b;
    CrossTerm(a, b, p, x, y);
    var z := x * y;
    assert (p + z) * (p + z) == p * p + 2.0 * (p * z) + z * z;
    assert z * z == (x * x) * (y * y);
    assert (a + x * x) * (b + y * y) == a * b + a * (y * y) + b * (x * x) + (x * x) * (y * y);
  }

  lemma {:induction false} CauchySchwarz(v: Vec, c: Vec)
    requires v.Keys == c.Keys
    ensures Times(Dot(v, c), Dot(v, c)) <= Times(Dot(v, v), Dot(c, c))
    ensures Dot(v, v) >= 0.0 && Dot(c, c) >= 0.0
    decreases |v|
  {
    TimesZero(0.0);
    hide Dot, Sum, Times;
    if v == map[] {
      assert c == map[];
      DotEmpty();
    } else {
      var k :| k in v;
      var v', c' := v - {k}, c - {k};
      CauchySchwarz(v', c');
      DotWithout(v, c, k);
      DotWithout(v, v, k);
      DotWithout(c, c, k);
      SquareNotNegative(v[k]);
      SquareNotNegative(c[k]);
      CauchySchwarzStep(Dot(v', v'), Dot(c', c'), Dot(v', c'), v[k], c[k]);
    }
  }

  lemma DotEmpty()
    ensures Dot(map[], map[]) == 0.0
  {
  }

  lemma DotWithout(v: Vec, c: Vec, k: string)
    requires c.Keys <= v.Keys && k in c
    ensures Dot(v, c) == Times(v[k], c[k]) + Dot(v - {k}, c - {k})
  {
    hide Times;
    var m := map j | j in c :: Times(v[j], c[j]);
    SumWithout(m, k);
    var m' := map j | j in c - {k} :: Times((v - {k})[j], (c - {k})[j]);
    assert m - {k} == m' by {
      assert forall j <- m' :: m'[j] == m[j];
    }
  }
}
