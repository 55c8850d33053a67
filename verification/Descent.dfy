/** Why the tuner's epochs never make the fit worse, and from how many signals on they may. */
module Descent {
  import opened Common
  import opened Vectors
  import opened Tune

  // Half the inverse of the learning rate bounds how sharply the loss may bend at one example.
  const SHARPEST: real := 1000.0

  // How sharply it bends at most with fewer than a thousand signals.
  const FEW: real := 999.0 + REGULARIZER

  ghost predicate Gentle(e: Example, bend: real) {
    Dot(e.signals, e.signals) + REGULARIZER <= bend
  }

  // ------------------------------------------------------- one example, one change of weights

  function Plus(v: Vec, d: Vec): (w: Vec)
    requires v.Keys == d.Keys
    ensures w.Keys == v.Keys
  {
    map id | id in v :: v[id] + d[id]
  }

  // The inner product of the change with the drift from the base weights.
  ghost function Cross(e: Example, base: Weights, v: Vec, d: Vec): real
    requires e.signals.Keys <= v.Keys && e.signals.Keys <= d.Keys
  {
    Sum(map id | id in e.signals :: Times(v[id] - BaseAt(base, id), d[id]))
  }

  // The squared length of the change over the signals of an example.
  ghost function Length(e: Example, d: Vec): real
    requires e.signals.Keys <= d.Keys
  {
    Sum(map id | id in e.signals :: Times(d[id], d[id]))
  }

  lemma DotPlus(v: Vec, d: Vec, c: Vec)
    requires v.Keys == d.Keys && c.Keys <= v.Keys
    ensures Dot(Plus(v, d), c) == Dot(v, c) + Dot(d, c)
  {
    hide Times;
    var m := map id | id in c :: Times(Plus(v, d)[id], c[id]);
    var x := map id | id in c :: Times(v[id], c[id]);
    var y := map id | id in c :: Times(d[id], c[id]);
    forall id | id in m ensures m[id] == x[id] + y[id] {
      TimesSwap(v[id] + d[id], c[id]);
      TimesPlus(c[id], v[id], d[id]);
      TimesSwap(v[id], c[id]);
      TimesSwap(d[id], c[id]);
    }
    SumPlus(m, x, y);
  }

  lemma DriftPlus(e: Example, base: Weights, v: Vec, d: Vec)
    requires v.Keys == d.Keys && e.signals.Keys <= v.Keys
    ensures Drift(e, base, Plus(v, d)) == Drift(e, base, v) + 2.0 * Cross(e, base, v, d) + Length(e, d)
  {
    hide Times, Sum, BaseAt;
    var c, w := e.signals, Plus(v, d);
    var m := map id | id in c :: Times(w[id] - BaseAt(base, id), w[id] - BaseAt(base, id));
    var x := map id | id in c :: Times(v[id] - BaseAt(base, id), v[id] - BaseAt(base, id));
    var y := map id | id in c :: Times(v[id] - BaseAt(base, id), d[id]);
    var z := map id | id in c :: Times(d[id], d[id]);
    var yz := map id | id in c :: y[id] + z[id];
    var yyz := map id | id in c :: y[id] + yz[id];
    forall id | id in m ensures m[id] == x[id] + yyz[id] {
      var u := v[id] - BaseAt(base, id);
      assert w[id] - BaseAt(base, id) == u + d[id];
      SquareOfSum(u, d[id]);
    }
    SumPlus(m, x, yyz);
    SumPlus(yyz, y, yz);
    SumPlus(yz, y, z);
  }

  // Half the directional derivative of an example's share of the loss.
  ghost function Slope(e: Example, base: Weights, v: Vec, d: Vec): real
    requires e.signals.Keys <= v.Keys && e.signals.Keys <= d.Keys
  {
    Times(Miss(e, v), Dot(d, e.signals)) + Times(REGULARIZER, Cross(e, base, v, d))
  }

  lemma LengthBounds(e: Example, d: Vec)
    requires e.signals.Keys <= d.Keys
    ensures 0.0 <= Length(e, d) <= Dot(d, d)
    ensures Times(Dot(d, e.signals), Dot(d, e.signals)) <= Times(Length(e, d), Dot(e.signals, e.signals))
  {
    hide Times, Sum;
    var c := e.signals;
    var r: Vec := map id | id in c :: d[id];
    CauchySchwarz(r, c);
    assert (map id | id in c :: Times(r[id], c[id])) == (map id | id in c :: Times(d[id], c[id]));
    var short := map id | id in c :: Times(d[id], d[id]);
    var long := map id | id in d :: Times(d[id], d[id]);
    assert (map id | id in r :: Times(r[id], r[id])) == short;
    forall id | id in long ensures long[id] >= 0.0 {
      SquareNotNegative(d[id]);
    }
    SumSubset(short, long);
  }

  // An example's share of the loss after a change: never above its tangent plus the squared length
  // of the change times the sharpest bend.
  lemma ShareAfter(e: Example, base: Weights, v: Vec, d: Vec, most: real)
    requires v.Keys == d.Keys && e.signals.Keys <= v.Keys && Gentle(e, most)
    ensures Share(e, base, Plus(v, d)) <=
            Share(e, base, v) + 2.0 * Slope(e, base, v, d) + Times(most, Dot(d, d))
  {
    hide Drift, Cross, Length, Dot, Times;
    DotPlus(v, d, e.signals);
    DriftPlus(e, base, v, d);
    LengthBounds(e, d);
    DotNotNegative(e.signals);
    ShareArithmetic(Miss(e, v), Dot(d, e.signals), Drift(e, base, v), Cross(e, base, v, d), Length(e, d),
                    Dot(e.signals, e.signals), Dot(d, d), most);
    assert Miss(e, Plus(v, d)) == Miss(e, v) + Dot(d, e.signals);
  }

  lemma ShareArithmetic(miss: real, dot: real, drift: real, cross: real, length: real, bend: real,
                        whole: real, most: real)
    requires 0.0 <= length <= whole && Times(dot, dot) <= Times(length, bend) && 0.0 <= bend
    requires bend + REGULARIZER <= most
    ensures Times(miss + dot, miss + dot) + Times(REGULARIZER, drift + 2.0 * cross + length)
            <= Times(miss, miss) + Times(REGULARIZER, drift)
               + 2.0 * (Times(miss, dot) + Times(REGULARIZER, cross)) + Times(most, whole)
  {
    hide Times;
    ExpandShare(miss, dot, drift, cross, length);
    TimesPlus(length, bend, REGULARIZER);
    TimesSwap(length, REGULARIZER);
    TimesMonotone(length, bend + REGULARIZER, most);
    TimesSwap(length, most);
    TimesMonotone(most, length, whole);
  }

  lemma ExpandShare(miss: real, dot: real, drift: real, cross: real, length: real)
    ensures Times(miss + dot, miss + dot) + Times(REGULARIZER, drift + 2.0 * cross + length)
            == Times(miss, miss) + Times(REGULARIZER, drift) + 2.0 * (Times(miss, dot) + Times(REGULARIZER, cross))
               + Times(dot, dot) + Times(REGULARIZER, length)
  {
    SquareOfSum(miss, dot);
  }

  lemma DotNotNegative(c: Vec)
    ensures Dot(c, c) >= 0.0
  {
    hide Times, Sum;
    var m := map id | id in c :: Times(c[id], c[id]);
    forall id | id in m ensures m[id] >= 0.0 {
      SquareNotNegative(c[id]);
    }
    SumNotNegative(m);
  }

  // ------------------------------------------------------------------ all examples, one epoch

  ghost function Slopes(exs: seq<Example>, base: Weights, v: Vec, d: Vec): real
    requires Covers(v, exs) && Covers(d, exs)
  {
    if exs == [] then 0.0 else
    Slopes(exs[..|exs| - 1], base, v, d) + Slope(exs[|exs| - 1], base, v, d)
  }

  lemma {:induction false} SquaresAfter(exs: seq<Example>, base: Weights, v: Vec, d: Vec, most: real)
    requires v.Keys == d.Keys && Covers(v, exs) && forall e <- exs :: Gentle(e, most)
    ensures Squares(exs, base, Plus(v, d)) <=
            Squares(exs, base, v) + 2.0 * Slopes(exs, base, v, d) + Times(Times(most, Dot(d, d)), |exs| as real)
  {
    TimesZero(Times(most, Dot(d, d)));
    hide Gentle, Share, Dot, Slope, Times, Plus;
    if exs != [] {
      var front, e := exs[..|exs| - 1], exs[|exs| - 1];
      SquaresAfter(front, base, v, d, most);
      ShareAfter(e, base, v, d, most);
      TimesPlus(Times(most, Dot(d, d)), |front| as real, 1.0);
    }
  }

  ghost function GradientVector(exs: seq<Example>, base: Weights, v: Vec): (g: Vec)
    requires Covers(v, exs)
    ensures g.Keys == v.Keys
  {
    map id | id in v :: Gradient(exs, base, v, id)
  }

  ghost function PullVector(e: Example, base: Weights, v: Vec): (g: Vec)
    requires e.signals.Keys <= v.Keys
    ensures g.Keys == v.Keys
  {
    map id | id in v :: Pull(e, base, v, id)
  }

  lemma PullAt(e: Example, base: Weights, v: Vec, id: string)
    requires e.signals.Keys <= v.Keys && id in e.signals
    ensures Pull(e, base, v, id) == Times(Miss(e, v), e.signals[id]) + Times(REGULARIZER, v[id] - BaseAt(base, id))
  {
  }

  lemma PullSum(e: Example, base: Weights, v: Vec, d: Vec, part: Vec)
    requires v.Keys == d.Keys && e.signals.Keys <= v.Keys
    requires part == map id | id in e.signals :: Times(d[id], Pull(e, base, v, id))
    ensures Sum(part) == Slope(e, base, v, d)
  {
    hide Times, Miss, Sum, BaseAt, Pull;
    var c, miss := e.signals, Miss(e, v);
    var x := map id | id in c :: Times(d[id], c[id]);
    var mx := map id | id in c :: Times(miss, x[id]);
    var y := map id | id in c :: Times(v[id] - BaseAt(base, id), d[id]);
    var ry := map id | id in c :: Times(REGULARIZER, y[id]);
    forall id | id in part ensures part[id] == mx[id] + ry[id] {
      PullAt(e, base, v, id);
      PullTimes(d[id], miss, c[id], v[id] - BaseAt(base, id));
    }
    SumPlus(part, mx, ry);
    SumScaled(mx, miss, x);
    SumScaled(ry, REGULARIZER, y);
  }

  // The pull of an example is its gradient: along any change it gives the slope.
  lemma PullIsSlope(e: Example, base: Weights, v: Vec, d: Vec)
    requires v.Keys == d.Keys && e.signals.Keys <= v.Keys
    ensures Dot(d, PullVector(e, base, v)) == Slope(e, base, v, d)
  {
    hide Times, Miss, Sum, Slope;
    var p := PullVector(e, base, v);
    var whole := map id | id in p :: Times(d[id], p[id]);
    var part := map id | id in e.signals :: Times(d[id], Pull(e, base, v, id));
    forall id | id in whole && id !in part ensures whole[id] == 0.0 {
      TimesZero(d[id]);
    }
    SumSupport(part, whole);
    PullSum(e, base, v, d, part);
  }

  lemma PullTimes(d: real, miss: real, c: real, u: real)
    ensures Times(d, Times(miss, c) + Times(REGULARIZER, u))
            == Times(miss, Times(d, c)) + Times(REGULARIZER, Times(u, d))
  {
  }

  lemma {:induction false} GradientIsSlope(exs: seq<Example>, base: Weights, v: Vec, d: Vec)
    requires v.Keys == d.Keys && Covers(v, exs)
    ensures Dot(d, GradientVector(exs, base, v)) == Slopes(exs, base, v, d)
  {
    hide Times, Sum, Slope, Pull;
    var g := GradientVector(exs, base, v);
    var m := map id | id in g :: Times(d[id], g[id]);
    if exs == [] {
      forall id | id in m ensures m[id] == 0.0 {
        TimesZero(d[id]);
      }
      SumConstant(m, 0.0);
      TimesSwap(0.0, |m| as real);
      TimesZero(|m| as real);
    } else {
      var front, e := exs[..|exs| - 1], exs[|exs| - 1];
      GradientIsSlope(front, base, v, d);
      PullIsSlope(e, base, v, d);
      var gf, p := GradientVector(front, base, v), PullVector(e, base, v);
      var x := map id | id in gf :: Times(d[id], gf[id]);
      var y := map id | id in p :: Times(d[id], p[id]);
      forall id | id in m ensures m[id] == x[id] + y[id] {
        TimesPlus(d[id], gf[id], p[id]);
      }
      SumPlus(m, x, y);
    }
  }

  // The change an epoch makes: the gradient, scaled by minus the learning rate over the number of
  // examples.
  ghost function Change(n: nat, g: Vec): (d: Vec)
    requires n > 0
    ensures d.Keys == g.Keys
  {
    map id | id in g :: Times(-(LEARNING_RATE / n as real), g[id])
  }

  lemma ScaledDivision(g: real, n: real)
    requires n > 0.0
    ensures LEARNING_RATE * g / n == -Times(-(LEARNING_RATE / n), g)
  {
  }

  lemma {:induction false} EpochIsChange(exs: seq<Example>, base: Weights, v: Vec)
    requires Covers(v, exs) && exs != []
    ensures Epoch(exs, base, v) == Plus(v, Change(|exs|, GradientVector(exs, base, v)))
  {
    hide Times, Gradient;
    forall id | id in v
      ensures Epoch(exs, base, v)[id] == Plus(v, Change(|exs|, GradientVector(exs, base, v)))[id]
    {
      ScaledDivision(Gradient(exs, base, v, id), |exs| as real);
    }
  }

  lemma ChangeLengths(n: nat, g: Vec)
    requires n > 0
    ensures var t, d := -(LEARNING_RATE / n as real), Change(n, g);
            Dot(d, g) == Times(t, Dot(g, g)) && Dot(d, d) == Times(t, Times(t, Dot(g, g))) && Dot(g, g) >= 0.0
  {
    hide Times, Sum;
    var t, d := -(LEARNING_RATE / n as real), Change(n, g);
    var gg := map id | id in g :: Times(g[id], g[id]);
    var dg := map id | id in g :: Times(d[id], g[id]);
    var dd := map id | id in d :: Times(d[id], d[id]);
    forall id | id in gg ensures gg[id] >= 0.0 && dg[id] == Times(t, gg[id]) && dd[id] == Times(t, dg[id]) {
      SquareNotNegative(g[id]);
      TimesGroup(t, g[id], g[id]);
      TimesGroup(t, g[id], Times(t, g[id]));
      TimesSwap(g[id], Times(t, g[id]));
    }
    SumNotNegative(gg);
    SumScaled(dg, t, gg);
    SumScaled(dd, t, dg);
  }

  // An epoch lowers the squares by at least a multiple of the squared length of the gradient, the
  // larger the further the bend is below the sharpest the learning rate allows for.
  lemma EpochDescends(exs: seq<Example>, base: Weights, v: Vec, most: real)
    requires Covers(v, exs) && exs != [] && most <= SHARPEST && forall e <- exs :: Gentle(e, most)
    ensures var g := GradientVector(exs, base, v);
            && Dot(g, g) >= 0.0
            && Squares(exs, base, Epoch(exs, base, v)) <=
               Squares(exs, base, v) - Times(Rate(|exs|, most), Dot(g, g))
    ensures Rate(|exs|, most) >= 0.0 && (most < SHARPEST ==> Rate(|exs|, most) > 0.0)
  {
    hide Squares, Slopes, Dot, Change, GradientVector, Epoch, Gentle, Times;
    var g := GradientVector(exs, base, v);
    var d := Change(|exs|, g);
    EpochIsChange(exs, base, v);
    SquaresAfter(exs, base, v, d, most);
    GradientIsSlope(exs, base, v, d);
    ChangeLengths(|exs|, g);
    StepArithmetic(|exs| as real, Dot(g, g), most);
    RateSign(|exs|, most);
  }

  function Rate(n: nat, most: real): real
    requires n > 0
  {
    LEARNING_RATE * (2.0 - LEARNING_RATE * most) / n as real
  }

  lemma RateSign(n: nat, most: real)
    requires n > 0 && most <= SHARPEST
    ensures Rate(n, most) >= 0.0 && (most < SHARPEST ==> Rate(n, most) > 0.0)
  {
  }

  lemma StepArithmetic(n: real, gg: real, most: real)
    requires n >= 1.0
    ensures var t := -(LEARNING_RATE / n);
            2.0 * Times(t, gg) + Times(Times(most, Times(t, Times(t, gg))), n)
            == -Times(LEARNING_RATE * (2.0 - LEARNING_RATE * most) / n, gg)
  {
    var r, t := LEARNING_RATE / n, -(LEARNING_RATE / n);
    assert r * n == LEARNING_RATE;
    assert Times(Times(most, Times(t, Times(t, gg))), n) == most * (r * (r * gg)) * n == (most * r * gg) * (r * n);
    assert LEARNING_RATE * (2.0 - LEARNING_RATE * most) / n == r * (2.0 - LEARNING_RATE * most);
  }

  lemma SomeLength(g: Vec, id: string)
    requires id in g && g[id] != 0.0
    ensures Dot(g, g) > 0.0
  {
    hide Times, Sum;
    var gg := map id | id in g :: Times(g[id], g[id]);
    forall id | id in gg ensures gg[id] >= 0.0 {
      SquareNotNegative(g[id]);
    }
    SumWithout(gg, id);
    SumNotNegative(gg - {id});
    SquareIsPositive(g[id]);
  }

  lemma SquareIsPositive(x: real)
    requires x != 0.0
    ensures Times(x, x) > 0.0
  {
    if x > 0.0 {
      TimesPositive(x, x);
    } else {
      TimesPositive(-x, -x);
    }
  }

  // ------------------------------------------------------------------------------ the guarantees

  // Fewer than a thousand signals with confidence at most one.
  lemma FewSignalsAreGentle(e: Example)
    requires ValidExample(e) && |e.signals| < 1000
    ensures Gentle(e, FEW)
  {
    hide Times, Sum, TrimSpace;
    var c := e.signals;
    var m := map id | id in c :: Times(c[id], c[id]);
    forall id | id in m ensures m[id] <= 1.0 {
      assert ValidSignal(id, c[id]);
      TimesMonotone(c[id], c[id], 1.0);
      TimesZero(c[id]);
    }
    SumAtMostSize(m);
    assert m.Keys == c.Keys;
    assert |m.Keys| == |m| && |c.Keys| == |c|;
  }

  // Until the gradient is zero, every epoch makes the loss strictly smaller; and then none changes
  // anything any more.
  lemma EpochStrict(exs: seq<Example>, base: Weights, v: Vec)
    requires Covers(v, exs) && exs != [] && forall e <- exs :: ValidExample(e) && |e.signals| < 1000
    ensures var w := Epoch(exs, base, v);
            && (w == v || Loss(exs, base, w) < Loss(exs, base, v))
            && (w == v <==> forall id <- v :: Gradient(exs, base, v, id) == 0.0)
  {
    hide ValidExample, Squares, Times, Dot, Gradient, Rate;
    forall e | e in exs ensures Gentle(e, FEW) {
      FewSignalsAreGentle(e);
    }
    EpochDescends(exs, base, v, FEW);
    var g, w := GradientVector(exs, base, v), Epoch(exs, base, v);
    if id :| id in v && Gradient(exs, base, v, id) != 0.0 {
      SomeLength(g, id);
      TimesPositive(Rate(|exs|, FEW), Dot(g, g));
      DivideLess(Squares(exs, base, w), Squares(exs, base, v), 2.0 * |exs| as real);
      StepMoves(Gradient(exs, base, v, id), |exs| as real);
    } else {
      forall id | id in v ensures w[id] == v[id] {
        NoStep(|exs| as real);
      }
    }
  }

  lemma StepMoves(g: real, n: real)
    requires n > 0.0 && g != 0.0
    ensures LEARNING_RATE * g / n != 0.0
  {
    var q := LEARNING_RATE * g / n;
    assert q * n == LEARNING_RATE * g;
  }

  lemma NoStep(n: real)
    requires n > 0.0
    ensures LEARNING_RATE * 0.0 / n == 0.0
  {
  }

  lemma DivideLess(a: real, b: real, n: real)
    requires a < b && n > 0.0
    ensures a / n < b / n
  {
  }

  lemma {:induction false} DescendNeverWorse(exs: seq<Example>, base: Weights, v: Vec, j: nat, k: nat)
    requires Covers(v, exs) && exs != [] && j <= k && forall e <- exs :: ValidExample(e) && |e.signals| < 1000
    ensures Loss(exs, base, Descend(exs, base, v, k)) <= Loss(exs, base, Descend(exs, base, v, j))
    decreases k
  {
    hide ValidExample, Loss, Epoch, Gradient;
    if j < k {
      DescendNeverWorse(exs, base, v, j, k - 1);
      EpochStrict(exs, base, Descend(exs, base, v, k - 1));
    }
  }

  // If every label carries fewer than a thousand signals, the weights learned in any number of epochs
  // fit the labels at least as well as the base weights, before they are clamped and rounded.
  lemma {:induction false} TuningNeverWorse(lines: seq<Line>, base: Weights, epochs: nat)
    requires Taken(lines) != [] && forall e <- Taken(lines) :: ValidExample(e) && |e.signals| < 1000
    ensures var exs := Taken(lines);
            Loss(exs, base, Descend(exs, base, Start(exs, base), epochs)) <= Loss(exs, base, Start(exs, base))
  {
    hide ValidExample, Loss, Taken, Epoch;
    DescendNeverWorse(Taken(lines), base, Start(Taken(lines), base), 0, epochs);
  }

  // The weights as they are returned.
  ghost function Rounded(v: Vec): (w: Vec)
    ensures w.Keys == v.Keys
  {
    map id | id in v :: ClampWeight(v[id]) as real
  }

  ghost function Certainty(e: Example): real {
    Sum(e.signals)
  }

  // Rounding weights that need no clamping moves how far an example is from its target by at most
  // half the sum of its confidences.
  lemma RoundingMoves(e: Example, v: Vec)
    requires e.signals.Keys <= v.Keys && ValidExample(e)
    requires forall id <- e.signals :: -100.0 <= v[id] <= 100.0
    ensures -0.5 * Certainty(e) <= Miss(e, Rounded(v)) - Miss(e, v) <= 0.5 * Certainty(e)
  {
    hide Times, Sum, ClampWeight, TrimSpace;
    var c, w := e.signals, Rounded(v);
    var d: Vec := map id | id in v :: w[id] - v[id];
    assert w == Plus(v, d);
    DotPlus(v, d, c);
    var moves := map id | id in c :: Times(d[id], c[id]);
    forall id | id in moves ensures -0.5 * c[id] <= moves[id] <= 0.5 * c[id] {
      assert ValidSignal(id, c[id]);
      MoveBounds(d[id], c[id]);
    }
    SumWithin(moves, c);
  }

  lemma MoveBounds(d: real, c: real)
    requires -0.5 <= d <= 0.5 && c >= 0.0
    ensures -0.5 * c <= Times(d, c) <= 0.5 * c
  {
    TimesMonotone(c, d, 0.5);
    TimesMonotone(c, -0.5, d);
    TimesSwap(c, d);
  }

  lemma {:induction false} SumWithin(m: Vec, c: Vec)
    requires m.Keys == c.Keys && forall id <- m :: -0.5 * c[id] <= m[id] <= 0.5 * c[id]
    ensures -0.5 * Sum(c) <= Sum(m) <= 0.5 * Sum(c)
    decreases |m|
  {
    hide Sum;
    SumEmpty();
    if m == map[] {
      assert c == map[];
    } else {
      var k :| k in m;
      SumWithout(m, k);
      SumWithout(c, k);
      SumWithin(m - {k}, c - {k});
    }
  }

  lemma {:induction false} NoPull(exs: seq<Example>, base: Weights, v: Vec, id: string)
    requires Covers(v, exs) && forall e <- exs :: id !in e.signals
    ensures Gradient(exs, base, v, id) == 0.0
  {
    if exs != [] {
      NoPull(exs[..|exs| - 1], base, v, id);
    }
  }

  lemma EpochKeeps(exs: seq<Example>, base: Weights, v: Vec, id: string)
    requires Covers(v, exs) && exs != [] && id in v && forall e <- exs :: id !in e.signals
    ensures Epoch(exs, base, v)[id] == v[id]
  {
    NoPull(exs, base, v, id);
    assert LEARNING_RATE * 0.0 / |exs| as real == 0.0;
  }

  lemma {:induction false} DescendKeeps(exs: seq<Example>, base: Weights, v: Vec, id: string, epochs: nat)
    requires Covers(v, exs) && exs != [] && id in v && forall e <- exs :: id !in e.signals
    ensures Descend(exs, base, v, epochs)[id] == v[id]
    decreases epochs
  {
    hide Epoch;
    if epochs > 0 {
      DescendKeeps(exs, base, v, id, epochs - 1);
      EpochKeeps(exs, base, Descend(exs, base, v, epochs - 1), id);
    }
  }

  // A signal that no label carries keeps its base weight, up to the clamp.
  lemma UnseenKept(exs: seq<Example>, base: Weights, id: string, epochs: nat)
    requires exs != [] && id in base && forall e <- exs :: id !in e.signals
    ensures var w := Descend(exs, base, Start(exs, base), epochs)[id];
            && w == base[id] as real
            && ClampWeight(w) == if base[id] > 100 then 100 else if base[id] < -100 then -100 else base[id]
  {
    hide Descend, ClampWeight;
    ClampInteger(base[id]);
    DescendKeeps(exs, base, Start(exs, base), id, epochs);
  }

  lemma ClampInteger(n: int)
    ensures ClampWeight(n as real) == if n > 100 then 100 else if n < -100 then -100 else n
  {
  }

  // ------------------------------------------------------------------- a thousand is the limit

  lemma ConstantWeights(c: Vec, target: real, v: Vec, w: real)
    requires c != map[] && forall id <- c :: c[id] == 1.0
    requires v.Keys == c.Keys && forall id <- c :: v[id] == w
    ensures var e := Example(target, c);
            && Miss(e, v) == Times(w, |c| as real) - target
            && Squares([e], map[], v) == Times(Miss(e, v), Miss(e, v))
                                          + Times(REGULARIZER, Times(Times(w, w), |c| as real))
  {
    var e := Example(target, c);
    assert [e][..0] == [];
    hide Times, Sum;
    var m := map id | id in c :: Times(v[id], c[id]);
    var n := map id | id in c :: Times(v[id] - BaseAt(map[], id), v[id] - BaseAt(map[], id));
    TimesZero(w);
    SumConstant(m, w);
    SumConstant(n, Times(w, w));
    assert m.Keys == c.Keys == n.Keys;
    assert |m.Keys| == |m| && |c.Keys| == |c| && |n.Keys| == |n|;
  }

  // One label whose signals are all certain, and no base weights: what the first epoch does.
  lemma CertainLabelEpoch(c: Vec, target: real, v: Vec)
    requires c != map[] && forall id <- c :: c[id] == 1.0
    requires v.Keys == c.Keys && forall id <- c :: v[id] == 0.0
    ensures var u := Epoch([Example(target, c)], map[], v); forall id <- u :: u[id] == LEARNING_RATE * target
  {
    var e := Example(target, c);
    ConstantWeights(c, target, v, 0.0);
    TimesSwap(0.0, |c| as real);
    TimesZero(|c| as real);
    assert Miss(e, v) == -target;
    var u := Epoch([e], map[], v);
    forall id | id in u ensures u[id] == LEARNING_RATE * target {
      assert [e][..0] == [];
      assert Gradient([e], map[], v, id) == Gradient([], map[], v, id) + Pull(e, map[], v, id);
      TimesZero(-target);
      TimesZero(REGULARIZER);
      assert Pull(e, map[], v, id) == -target;
      assert u[id] == v[id] - LEARNING_RATE * (-target) / 1.0;
    }
  }

  lemma CertainLabelSquares(c: Vec, target: real, v: Vec)
    requires c != map[] && forall id <- c :: c[id] == 1.0
    requires v.Keys == c.Keys && forall id <- c :: v[id] == 0.0
    ensures Squares([Example(target, c)], map[], v) == Times(target, target)
  {
    ConstantWeights(c, target, v, 0.0);
    assert Times(0.0, |c| as real) == 0.0 && Times(Times(0.0, 0.0), |c| as real) == 0.0;
    assert Times(REGULARIZER, 0.0) == 0.0 && Times(-target, -target) == Times(target, target);
  }

  // Then the first epoch makes the fit worse exactly from a thousand signals on.
  lemma {:induction false} ThousandIsTheLimit(c: Vec, target: real, v: Vec)
    requires c != map[] && target != 0.0 && forall id <- c :: c[id] == 1.0
    requires v.Keys == c.Keys && forall id <- c :: v[id] == 0.0
    ensures var exs := [Example(target, c)];
            Squares(exs, map[], Epoch(exs, map[], v)) > Squares(exs, map[], v) <==> |c| >= 1000
  {
    hide Squares, Epoch, Miss, Times;
    CertainLabelEpoch(c, target, v);
    CertainLabelSquares(c, target, v);
    ConstantWeights(c, target, Epoch([Example(target, c)], map[], v), LEARNING_RATE * target);
    assert |c| > 0;
    LimitArithmetic(|c|, target);
  }

  lemma LimitArithmetic(size: nat, t: real)
    requires t != 0.0 && size >= 1
    ensures var k, w := size as real, LEARNING_RATE * t;
            var miss := Times(w, k) - t;
            Times(miss, miss) + Times(REGULARIZER, Times(Times(w, w), k)) > Times(t, t) <==> size >= 1000
  {
    var k, w := size as real, LEARNING_RATE * t;
    var u := w * k;
    var q := t * t;
    SquarePositive(t);
    LimitExpand(k, t);
    TimesPositive(k, q);
    var p := k * q;
    // What the epoch adds is p * 0.000004 * (k - 1000 + 0.0005).
    var gap := k - 999.9995;
    assert (size >= 1000) <==> gap > 0.0;
    if gap > 0.0 {
      TimesPositive(p, gap);
    } else {
      TimesMonotone(p, gap, 0.0);
      TimesZero(p);
    }
  }

  lemma SquarePositive(t: real)
    requires t != 0.0
    ensures t * t > 0.0
  {
  }

  lemma LimitExpand(k: real, t: real)
    ensures var w := LEARNING_RATE * t;
            var miss := Times(w, k) - t;
            Times(miss, miss) + Times(REGULARIZER, Times(Times(w, w), k)) - Times(t, t)
            == 0.000004 * Times(Times(k, t * t), k - 999.9995)
  {
  }
}
