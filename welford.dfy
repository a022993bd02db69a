/**
 * Welford's online update of one channel's running sum, mean and sum of
 * squared deviations, and the proof that over finite values it is exact:
 * after n samples the running mean is sum/n and m2 is the sum of squared
 * deviations from that mean.
 */
module Welford {
  import opened Numbers

  /** The running totals of one channel: `sum[idx]`, `runMean[idx]`, `m2[idx]`. */
  datatype Moments = Moments(sum: Num, mean: Num, m2: Num)

  /** The totals of a fresh session: `[0]`, `[0]`, `[0]`. */
  const Zero := Moments(Fin(0.0), Fin(0.0), Fin(0.0))

  /**
   * One Welford update with the value `x`, where `n` is the sample count
   * already including `x`. A NaN value (also an `undefined` channel)
   * turns all three totals into NaN.
   */
  function WelfordStep(m: Moments, n: nat, x: Num): (r: Moments)
    ensures x.NaN? ==> r.sum.NaN? && r.mean.NaN? && r.m2.NaN?
    ensures m.sum.NaN? ==> r.sum.NaN?
    ensures m.m2.NaN? ==> r.m2.NaN?
  {
    var delta := Sub(x, m.mean);
    var mean := Add(m.mean, Div(delta, n));
    var delta2 := Sub(x, mean);
    Moments(Add(m.sum, x), mean, Add(m.m2, Mul(delta, delta2)))
  }

  /**
   * The totals after feeding `vs` one by one into a channel that holds `m`
   * after `k` samples: the i-th value is fed with the count `k + i + 1`.
   */
  function ReplayFrom(m: Moments, k: nat, vs: seq<Num>): (r: Moments)
    decreases |vs|
  {
    if vs == [] then m else ReplayFrom(WelfordStep(m, k + 1, vs[0]), k + 1, vs[1..])
  }

  /** The totals after feeding `vs` into a fresh channel. */
  function Replay(vs: seq<Num>): (r: Moments)
  {
    ReplayFrom(Zero, 0, vs)
  }

  /** Once the sum and m2 are NaN, they stay NaN. */
  lemma {:induction false} ReplayFromStaysNaN(m: Moments, k: nat, vs: seq<Num>)
    requires m.sum.NaN? && m.m2.NaN?
    ensures ReplayFrom(m, k, vs).sum.NaN? && ReplayFrom(m, k, vs).m2.NaN?
    decreases |vs|
  {
    if vs != [] {
      ReplayFromStaysNaN(WelfordStep(m, k + 1, vs[0]), k + 1, vs[1..]);
    }
  }

  /** A NaN value anywhere in `vs` (an `undefined` channel, say) makes the sum and m2 NaN. */
  lemma {:induction false} ReplayFromKeepsNaN(m: Moments, k: nat, vs: seq<Num>, i: nat)
    requires i < |vs| && vs[i].NaN?
    ensures ReplayFrom(m, k, vs).sum.NaN? && ReplayFrom(m, k, vs).m2.NaN?
    decreases |vs|
  {
    if i == 0 {
      ReplayFromStaysNaN(WelfordStep(m, k + 1, vs[0]), k + 1, vs[1..]);
    } else {
      ReplayFromKeepsNaN(WelfordStep(m, k + 1, vs[0]), k + 1, vs[1..], i - 1);
    }
  }

  /** Two-pass reference definitions over finite values: the total. */
  function Total(xs: seq<real>): (r: real)
  {
    if xs == [] then 0.0 else Total(xs[..|xs| - 1]) + xs[|xs| - 1]
  }

  /** The arithmetic mean, taken as 0 for no values (the fresh running mean). */
  function Mean(xs: seq<real>): (r: real)
  {
    if xs == [] then 0.0 else Total(xs) / |xs| as real
  }

  /** The square of `a`. */
  function Sq(a: real): (r: real)
  {
    a * a
  }

  /** The product of `a` and `b` (named, so that proofs match products by their factors). */
  function Product(a: real, b: real): (r: real)
  {
    a * b
  }

  /** One more factor `a`. */
  lemma ProductSucc(m: real, a: real)
    ensures Product(m + 1.0, a) == Product(m, a) + a
  {
  }

  /** The sum of squared deviations of `xs` from `c`. */
  function SqDev(xs: seq<real>, c: real): (r: real)
  {
    if xs == [] then 0.0 else SqDev(xs[..|xs| - 1], c) + Sq(xs[|xs| - 1] - c)
  }

  /** The population variance of `xs`: the mean squared deviation from their mean. */
  function Variance(xs: seq<real>): (r: real)
  {
    if xs == [] then 0.0 else SqDev(xs, Mean(xs)) / |xs| as real
  }

  /**
   * The number of values as a real, counted up one by one (the proofs below
   * stay in real arithmetic; `LenIsLength` ties it to `|xs|`).
   */
  function Len(xs: seq<real>): (r: real)
    ensures r >= 0.0
  {
    if xs == [] then 0.0 else Len(xs[..|xs| - 1]) + 1.0
  }

  /** The sum of the deviations of `xs` from `c`; it is 0 exactly when `c` is the mean. */
  function Dev(xs: seq<real>, c: real): (r: real)
  {
    if xs == [] then 0.0 else Dev(xs[..|xs| - 1], c) + (xs[|xs| - 1] - c)
  }

  /** `Len` is the length. */
  lemma {:induction false} LenIsLength(xs: seq<real>)
    ensures Len(xs) == |xs| as real
  {
    if xs != [] {
      LenIsLength(xs[..|xs| - 1]);
    }
  }

  /** Appending a value adds it to the total, counts it, and adds its deviations. */
  lemma Append(xs: seq<real>, x: real, c: real)
    ensures Total(xs + [x]) == Total(xs) + x
    ensures Len(xs + [x]) == Len(xs) + 1.0
    ensures Dev(xs + [x], c) == Dev(xs, c) + (x - c)
    ensures SqDev(xs + [x], c) == SqDev(xs, c) + Sq(x - c)
  {
    assert (xs + [x])[..|xs|] == xs;
  }

  /** The deviations from `c` sum to the total minus `c` per value. */
  lemma {:induction false} DevTotal(xs: seq<real>, c: real)
    ensures Dev(xs, c) == Total(xs) - Product(Len(xs), c)
  {
    if xs != [] {
      var p := xs[..|xs| - 1];
      DevTotal(p, c);
      ProductSucc(Len(p), c);
    }
  }

  /** Moving the centre of the deviations from `d` to `c`. */
  lemma {:induction false} DevShift(xs: seq<real>, c: real, d: real)
    ensures Dev(xs, c) == Dev(xs, d) + Product(Len(xs), d - c)
  {
    if xs != [] {
      var p := xs[..|xs| - 1];
      DevShift(p, c, d);
      ProductSucc(Len(p), d - c);
    }
  }

  /** The finite values `xs` as numbers. */
  function Fins(xs: seq<real>): (vs: seq<Num>)
    ensures |vs| == |xs|
    ensures forall i :: 0 <= i < |xs| ==> vs[i] == Fin(xs[i])
  {
    seq(|xs|, i requires 0 <= i < |xs| => Fin(xs[i]))
  }

  /**
   * What moving the centre of `m` values whose deviations from `d` sum to
   * `dev` over to `c` adds to their squared deviations.
   */
  function ShiftTerm(dev: real, m: real, c: real, d: real): (r: real)
  {
    2.0 * (d - c) * dev + m * Sq(d - c)
  }

  /** `ShiftTerm` after one more value `x`. */
  lemma ShiftTermStep(dev: real, m: real, x: real, c: real, d: real)
    ensures ShiftTerm(dev + (x - d), m + 1.0, c, d) == ShiftTerm(dev, m, c, d) + 2.0 * (d - c) * (x - d) + Sq(d - c)
  {
    assert 2.0 * (d - c) * (dev + (x - d)) == 2.0 * (d - c) * dev + 2.0 * (d - c) * (x - d);
    assert (m + 1.0) * Sq(d - c) == m * Sq(d - c) + Sq(d - c);
  }

  /** Moving the centre of one squared deviation from `d` to `c`. */
  lemma SqShift(x: real, c: real, d: real)
    ensures Sq(x - c) == Sq(x - d) + 2.0 * (d - c) * (x - d) + Sq(d - c)
  {
  }

  /** Moving the centre of a sum of squared deviations from `d` to `c`. */
  lemma {:induction false} SqDevShift(xs: seq<real>, c: real, d: real)
    ensures SqDev(xs, c) == SqDev(xs, d) + ShiftTerm(Dev(xs, d), Len(xs), c, d)
  {
    if xs == [] {
      assert ShiftTerm(0.0, 0.0, c, d) == 0.0;
    } else {
      var p, x := xs[..|xs| - 1], xs[|xs| - 1];
      SqDevShift(p, c, d);
      SqShift(x, c, d);
      ShiftTermStep(Dev(p, d), Len(p), x, c, d);
    }
  }

  /** Moving away from the mean costs the count times the squared distance. */
  lemma ShiftFromMean(m: real, u: real, v: real)
    ensures ShiftTerm(0.0, m, v, u) == Product(m, Sq(u - v))
  {
  }

  /** `a * n == t` with a positive `n` makes `a` the quotient `t / n`. */
  lemma Quotient(a: real, n: real, t: real)
    requires n > 0.0 && Product(n, a) == t
    ensures a == t / n
  {
  }

  /**
   * The running-mean update `v = u + (x - u) / (m + 1)` moves the mean by as
   * much, over the `m` earlier values, as `x` lies above the new mean.
   */
  lemma MeanUpdate(u: real, x: real, m: real, v: real)
    requires m >= 0.0
    requires v == u + (x - u) / (m + 1.0)
    ensures Product(m, u - v) + (x - v) == 0.0
  {
    assert (v - u) * (m + 1.0) == x - u;
  }

  /**
   * The m2 increment `(x - u) * (x - v)` is what moving the `m` earlier
   * values' centre from their mean `u` to the new mean `v`, and adding `x`,
   * costs.
   */
  lemma M2Update(u: real, v: real, x: real, m: real)
    requires m >= 0.0
    requires v == u + (x - u) / (m + 1.0)
    ensures Product(m, Sq(u - v)) + Sq(x - v) == Product(x - u, x - v)
  {
    var e := v - u;
    assert x - u == (m + 1.0) * e;
    assert x - v == m * e;
    assert Sq(u - v) == e * e;
    assert Sq(x - v) == m * m * (e * e);
    assert (x - u) * (x - v) == (m + 1.0) * m * (e * e);
  }

  /** The Welford totals of a channel over finite values, in exact real arithmetic. */
  datatype RealMoments = RealMoments(sum: real, mean: real, m2: real)

  /** `WelfordStep` on finite values: `n` counts the samples including `x`. */
  function RealStep(e: RealMoments, n: real, x: real): (r: RealMoments)
    requires n >= 1.0
  {
    var v := e.mean + (x - e.mean) / n;
    RealMoments(e.sum + x, v, e.m2 + Product(x - e.mean, x - v))
  }

  /** `ReplayFrom` on finite values. */
  function RealReplayFrom(e: RealMoments, k: real, xs: seq<real>): (r: RealMoments)
    requires k >= 0.0
    decreases |xs|
  {
    if xs == [] then e else RealReplayFrom(RealStep(e, k + 1.0, xs[0]), k + 1.0, xs[1..])
  }

  /** Finite totals as numbers. */
  function Lift(e: RealMoments): (r: Moments)
  {
    Moments(Fin(e.sum), Fin(e.mean), Fin(e.m2))
  }

  /** The Welford step on finite totals and a finite value is `RealStep`. */
  lemma WelfordStepFinite(e: RealMoments, n: nat, x: real)
    requires n >= 1
    ensures WelfordStep(Lift(e), n, Fin(x)) == Lift(RealStep(e, n as real, x))
  {
    var v := e.mean + (x - e.mean) / n as real;
    assert RealStep(e, n as real, x) == RealMoments(e.sum + x, v, e.m2 + Product(x - e.mean, x - v));
  }

  /** On finite values the channel computes exactly what `RealReplayFrom` does. */
  lemma {:induction false} ReplayFromFinite(e: RealMoments, k: nat, xs: seq<real>)
    ensures ReplayFrom(Lift(e), k, Fins(xs)) == Lift(RealReplayFrom(e, k as real, xs))
    decreases |xs|
  {
    if xs != [] {
      assert Fins(xs)[1..] == Fins(xs[1..]);
      assert (k + 1) as real == k as real + 1.0;
      WelfordStepFinite(e, k + 1, xs[0]);
      ReplayFromFinite(RealStep(e, (k + 1) as real, xs[0]), k + 1, xs[1..]);
    }
  }

  /**
   * The invariant of Welford's algorithm after the finite values `xs`: the
   * sum is their total, the running mean is their mean (their deviations
   * from it sum to 0), and m2 is the sum of squared deviations from it.
   */
  predicate Describes(e: RealMoments, xs: seq<real>)
  {
    && e.sum == Total(xs)
    && Dev(xs, e.mean) == 0.0
    && e.m2 == SqDev(xs, e.mean)
  }

  /** The new running mean and m2 of a step, in closed form. */
  lemma RealStepIs(e: RealMoments, n: real, x: real)
    requires n >= 1.0
    ensures RealStep(e, n, x).sum == e.sum + x
    ensures RealStep(e, n, x).mean == e.mean + (x - e.mean) / n
    ensures RealStep(e, n, x).m2 == e.m2 + Product(x - e.mean, x - RealStep(e, n, x).mean)
  {
  }

  /** The updated running mean is the mean of the values with `x`. */
  lemma MeanStep(xs: seq<real>, x: real, u: real, v: real)
    requires Dev(xs, u) == 0.0
    requires v == u + (x - u) / (Len(xs) + 1.0)
    ensures Dev(xs + [x], v) == 0.0
  {
    DevShift(xs, v, u);
    MeanUpdate(u, x, Len(xs), v);
    Append(xs, x, v);
  }

  /** The updated m2 is the sum of squared deviations from the updated mean. */
  lemma M2Step(xs: seq<real>, x: real, u: real, v: real)
    requires Dev(xs, u) == 0.0
    requires v == u + (x - u) / (Len(xs) + 1.0)
    ensures SqDev(xs + [x], v) == SqDev(xs, u) + Product(x - u, x - v)
  {
    SqDevShift(xs, v, u);
    ShiftFromMean(Len(xs), u, v);
    M2Update(u, v, x, Len(xs));
    Append(xs, x, v);
  }

  /** One Welford step keeps the invariant. */
  lemma RealStepDescribes(e: RealMoments, xs: seq<real>, x: real)
    requires Describes(e, xs)
    ensures Describes(RealStep(e, Len(xs) + 1.0, x), xs + [x])
  {
    var r := RealStep(e, Len(xs) + 1.0, x);
    RealStepIs(e, Len(xs) + 1.0, x);
    Append(xs, x, 0.0);
    assert r.sum == Total(xs + [x]);
    MeanStep(xs, x, e.mean, r.mean);
    M2Step(xs, x, e.mean, r.mean);
    assert r.m2 == SqDev(xs + [x], r.mean);
  }

  /** Welford's algorithm keeps its invariant over any further finite values. */
  lemma {:induction false} RealReplayDescribes(e: RealMoments, xs: seq<real>, ys: seq<real>)
    requires Describes(e, xs)
    ensures Describes(RealReplayFrom(e, Len(xs), ys), xs + ys)
    decreases |ys|
  {
    if ys != [] {
      RealStepDescribes(e, xs, ys[0]);
      Append(xs, ys[0], 0.0);
      assert (xs + [ys[0]]) + ys[1..] == xs + ys;
      RealReplayDescribes(RealStep(e, Len(xs) + 1.0, ys[0]), xs + [ys[0]], ys[1..]);
    } else {
      assert xs + ys == xs;
    }
  }

  /** The invariant holds after replaying `xs` into a fresh channel. */
  lemma RealReplayFresh(xs: seq<real>)
    ensures Describes(RealReplayFrom(RealMoments(0.0, 0.0, 0.0), 0.0, xs), xs)
  {
    var z := RealMoments(0.0, 0.0, 0.0);
    assert Describes(z, []);
    RealReplayDescribes(z, [], xs);
    assert [] + xs == xs;
  }

  /** Over finite values, the fresh replay ends with the total, the mean and the squared deviations. */
  lemma RealReplayExact(xs: seq<real>)
    ensures RealReplayFrom(RealMoments(0.0, 0.0, 0.0), 0.0, xs)
         == RealMoments(Total(xs), Mean(xs), SqDev(xs, Mean(xs)))
  {
    var e := RealReplayFrom(RealMoments(0.0, 0.0, 0.0), 0.0, xs);
    RealReplayFresh(xs);
    if xs != [] {
      LenIsLength(xs);
      DevTotal(xs, e.mean);
      Quotient(e.mean, |xs| as real, Total(xs));
    }
  }

  /**
   * Welford's algorithm agrees with the two-pass computation: replaying the
   * finite values `xs` into a fresh channel gives their total, their mean,
   * and the sum of squared deviations from the mean.
   */
  lemma WelfordExact(xs: seq<real>)
    ensures Replay(Fins(xs)) == Moments(Fin(Total(xs)), Fin(Mean(xs)), Fin(SqDev(xs, Mean(xs))))
  {
    var z := RealMoments(0.0, 0.0, 0.0);
    assert Lift(z) == Zero;
    ReplayFromFinite(z, 0, xs);
    RealReplayExact(xs);
  }

  /**
   * One step keeps `runMean * count == sum`: if the mean times the old
   * count was the sum, the new mean times the new count is the new sum.
   */
  lemma RealStepMeanTimesCount(e: RealMoments, n: real, x: real)
    requires n >= 1.0
    requires Product(n - 1.0, e.mean) == e.sum
    ensures Product(n, RealStep(e, n, x).mean) == RealStep(e, n, x).sum
  {
    var v := e.mean + (x - e.mean) / n;
    RealStepIs(e, n, x);
    assert n * ((x - e.mean) / n) == x - e.mean;
    assert n * v == n * e.mean + (x - e.mean);
    assert Product(n - 1.0, e.mean) == n * e.mean - e.mean;
  }

  /**
   * The step of one channel keeps `runMean * count == sum` on a finite
   * sum and mean and a finite value, where `n` is the count including `x`.
   */
  lemma WelfordStepMeanTimesCount(m: Moments, n: nat, x: real)
    requires n >= 1 && m.sum.Fin? && m.mean.Fin?
    requires Product((n - 1) as real, m.mean.r) == m.sum.r
    ensures WelfordStep(m, n, Fin(x)).sum.Fin? && WelfordStep(m, n, Fin(x)).mean.Fin?
    ensures Product(n as real, WelfordStep(m, n, Fin(x)).mean.r) == WelfordStep(m, n, Fin(x)).sum.r
  {
    // The new sum and mean do not depend on m2.
    var e := RealMoments(m.sum.r, m.mean.r, 0.0);
    var w := WelfordStep(Lift(e), n, Fin(x));
    assert WelfordStep(m, n, Fin(x)).sum == w.sum && WelfordStep(m, n, Fin(x)).mean == w.mean;
    WelfordStepFinite(e, n, x);
    assert (n - 1) as real == n as real - 1.0;
    RealStepMeanTimesCount(e, n as real, x);
  }
}
