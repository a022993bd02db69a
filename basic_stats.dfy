/**
 * The basic statistics calculator: an accumulator that is fed one voxel
 * sample at a time while a shape is scanned, keeps per-channel running
 * maximum, minimum, sum, mean and m2 (Welford's algorithm), the location
 * of the maximum and the scanned points, and is then read out and reset.
 *
 * The accumulator's state is given as a value (`Accumulator`) with the
 * functions `Fresh`, `WithPointData`, `Admit`, `Absorb` and `Summarize`
 * saying what each operation does to it; the class `BasicStatsCalculator`
 * holds the same state in fields and updates it in place, and each of its
 * methods is proved to do what the corresponding function says.
 */
module BasicStats {
  import opened Wrappers
  import opened Numbers
  import opened Welford

  /** A point in space (patient or index coordinates). */
  datatype Point = Point(x: real, y: real, z: real)

  /** The value of a sample: a single number or an array of channel values. */
  datatype Sample = Scalar(x: Num) | Vector(xs: seq<Num>)

  /** The argument of one callback: the sample and its optional locations. */
  datatype Call = Call(value: Sample, pointLPS: Option<Point>, pointIJK: Option<Point>)

  /**
   * The calculator's state. `max`, `min`, `sum`, `runMean` and `m2` hold one
   * entry per channel; `pointsInShape` is `None` when point collection is off.
   */
  datatype Accumulator = Accumulator(
    max: seq<Num>,
    min: seq<Num>,
    sum: seq<Num>,
    runMean: seq<Num>,
    m2: seq<Num>,
    count: nat,
    maxIJK: Option<Point>,
    maxLPS: Option<Point>,
    minIJK: Option<Point>,
    minLPS: Option<Point>,
    pointsInShape: Option<seq<Point>>)

  /**
   * The invariant of every reachable state: the five channel arrays have
   * one common length, which is 1 or 3, and no channel maximum is NaN.
   */
  predicate WellFormed(a: Accumulator)
  {
    && (|a.max| == 1 || |a.max| == 3)
    && |a.min| == |a.max| && |a.sum| == |a.max| && |a.runMean| == |a.max| && |a.m2| == |a.max|
    && forall i :: 0 <= i < |a.max| ==> !a.max[i].NaN?
  }

  /** The number of channels. */
  function Width(a: Accumulator): (r: nat)
  {
    |a.max|
  }

  /** The running totals of channel `i`. */
  function MomentsAt(a: Accumulator, i: nat): (r: Moments)
    requires WellFormed(a) && i < Width(a)
  {
    Moments(a.sum[i], a.runMean[i], a.m2[i])
  }

  /** The state of a fresh session: one channel, empty totals, an empty point list. */
  function Fresh(): (r: Accumulator)
    ensures WellFormed(r) && Width(r) == 1 && r.count == 0
    ensures MomentsAt(r, 0) == Zero
  {
    Accumulator([NegInf], [PosInf], [Fin(0.0)], [Fin(0.0)], [Fin(0.0)], 0,
                None, None, None, None, Some([]))
  }

  /**
   * `statsInit`: unless point data is to be stored, point collection is
   * switched off; nothing else changes. An absent flag counts as false.
   */
  function WithPointData(a: Accumulator, storePointData: bool): (r: Accumulator)
    ensures r.pointsInShape == (if storePointData then a.pointsInShape else None)
    ensures r.(pointsInShape := a.pointsInShape) == a
  {
    if storePointData then a else a.(pointsInShape := None)
  }

  /** The channel values of a sample: a single number is a one-element array. */
  function Channels(s: Sample): (vs: seq<Num>)
    ensures s.Scalar? ==> vs == [s.x]
    ensures s.Vector? ==> vs == s.xs
  {
    match s
    case Scalar(x) => [x]
    case Vector(xs) => xs
  }

  /** The value of channel `i`, reading past the end as `undefined`, which arithmetic turns into NaN. */
  function At(vs: seq<Num>, i: nat): (v: Num)
    ensures i < |vs| ==> v == vs[i]
    ensures i >= |vs| ==> v.NaN?
  {
    if i < |vs| then vs[i] else NaN
  }

  /** A sample of more than one value: it widens the arrays of a one-channel state. */
  predicate MultiChannel(s: Sample)
  {
    s.Vector? && |s.xs| > 1
  }

  /** Whether the sample widens the channel arrays: an array of more than one value while there is one channel. */
  predicate Widens(a: Accumulator, s: Sample)
    ensures Widens(a, s) <==> |Channels(s)| > 1 && Width(a) == 1
  {
    MultiChannel(s) && |a.max| == 1
  }

  /**
   * Widening: a sample that `Widens` appends two copies of the first
   * channel's max, min, sum and m2, and two zero running means.
   */
  function Widen(a: Accumulator, s: Sample): (r: Accumulator)
    requires WellFormed(a)
    ensures WellFormed(r)
    ensures Width(r) == (if Widens(a, s) then 3 else Width(a))
    ensures forall i :: 0 <= i < Width(a) ==>
      r.max[i] == a.max[i] && r.min[i] == a.min[i] && MomentsAt(r, i) == MomentsAt(a, i)
    ensures Widens(a, s) ==> forall i :: 1 <= i < 3 ==>
      r.max[i] == a.max[0] && r.min[i] == a.min[0] && MomentsAt(r, i) == Moments(a.sum[0], Fin(0.0), a.m2[0])
    ensures r.count == a.count && r.pointsInShape == a.pointsInShape
    ensures r.maxIJK == a.maxIJK && r.maxLPS == a.maxLPS && r.minIJK == a.minIJK && r.minLPS == a.minLPS
  {
    if Widens(a, s) then
      a.(max := a.max + [a.max[0], a.max[0]],
         min := a.min + [a.min[0], a.min[0]],
         sum := a.sum + [a.sum[0], a.sum[0]],
         runMean := a.runMean + [Fin(0.0), Fin(0.0)],
         m2 := a.m2 + [a.m2[0], a.m2[0]])
    else a
  }

  /** The point list after a call: the call's LPS point is appended when both are present. */
  function Collect(ps: Option<seq<Point>>, pointLPS: Option<Point>): (r: Option<seq<Point>>)
    ensures r.None? <==> ps.None?
    ensures ps.Some? ==> r.value == ps.value + (if pointLPS.Some? then [pointLPS.value] else [])
  {
    if ps.Some? && pointLPS.Some? then Some(ps.value + [pointLPS.value]) else ps
  }

  /** The first part of a callback: widening, point collection and the count. */
  function Admit(a: Accumulator, c: Call): (r: Accumulator)
    requires WellFormed(a)
    ensures WellFormed(r) && Width(r) == Width(Widen(a, c.value))
    ensures r.count == a.count + 1
    ensures r.pointsInShape == Collect(a.pointsInShape, c.pointLPS)
    ensures r.(pointsInShape := a.pointsInShape, count := a.count) == Widen(a, c.value)
  {
    var w := Widen(a, c.value);
    w.(pointsInShape := Collect(w.pointsInShape, c.pointLPS), count := w.count + 1)
  }

  /** The new maximum of a channel: the value if it is strictly greater, else the old maximum. */
  function MaxStep(m: Num, v: Num): (r: Num)
    ensures !m.NaN? ==> !r.NaN? && !Less(r, m)
    ensures !m.NaN? && !v.NaN? ==> !Less(r, v)
    ensures r == m || r == v
  {
    if Less(m, v) then v else m
  }

  /**
   * The new minimum of a channel: `Math.min` of the old minimum and the
   * value, then the value again if it is strictly smaller than that.
   */
  function MinStep(m: Num, v: Num): (r: Num)
    ensures r.NaN? <==> (m.NaN? || v.NaN?)
    ensures !r.NaN? ==> !Less(m, r) && !Less(v, r) && (r == m || r == v)
  {
    var lowered := MathMin(m, v);
    if Less(v, lowered) then v else lowered
  }

  /**
   * The function `statsCallback` maps over the channels, applied to channel
   * `idx` with its value `v`: the Welford update of the totals, then the
   * minimum (with the strict test after `Math.min`), then the maximum; on
   * channel 0 a strictly new minimum or maximum records the locations.
   */
  function ChannelAt(a: Accumulator, idx: nat, v: Num, pointLPS: Option<Point>, pointIJK: Option<Point>): (r: Accumulator)
    requires WellFormed(a) && idx < Width(a)
    ensures WellFormed(r) && Width(r) == Width(a)
    ensures r.count == a.count && r.pointsInShape == a.pointsInShape
    ensures forall j :: 0 <= j < Width(a) && j != idx ==>
      r.max[j] == a.max[j] && r.min[j] == a.min[j] && MomentsAt(r, j) == MomentsAt(a, j)
  {
    var m := WelfordStep(MomentsAt(a, idx), a.count, v);
    var lowered := MathMin(a.min[idx], v);
    var newMin := Less(v, lowered);
    var newMax := Less(a.max[idx], v);
    a.(sum := a.sum[idx := m.sum],
       runMean := a.runMean[idx := m.mean],
       m2 := a.m2[idx := m.m2],
       min := a.min[idx := MinStep(a.min[idx], v)],
       minIJK := if newMin && idx == 0 then pointIJK else a.minIJK,
       minLPS := if newMin && idx == 0 then pointLPS else a.minLPS,
       max := a.max[idx := MaxStep(a.max[idx], v)],
       maxIJK := if newMax && idx == 0 then pointIJK else a.maxIJK,
       maxLPS := if newMax && idx == 0 then pointLPS else a.maxLPS)
  }

  /** Channels `0 .. k-1` in order, channel `i` taking the value `At(vs, i)`. */
  function Sweep(b: Accumulator, vs: seq<Num>, pointLPS: Option<Point>, pointIJK: Option<Point>, k: nat): (r: Accumulator)
    requires WellFormed(b) && k <= Width(b)
    ensures WellFormed(r) && Width(r) == Width(b)
    ensures r.count == b.count && r.pointsInShape == b.pointsInShape
  {
    if k == 0 then b
    else ChannelAt(Sweep(b, vs, pointLPS, pointIJK, k - 1), k - 1, At(vs, k - 1), pointLPS, pointIJK)
  }

  /**
   * `statsCallback`: `Admit`, then every channel takes the sample's value
   * for it.
   */
  function Absorb(a: Accumulator, c: Call): (r: Accumulator)
    requires WellFormed(a)
    ensures WellFormed(r)
    ensures Width(r) == (if Widens(a, c.value) then 3 else Width(a))
    ensures r.count == a.count + 1
    ensures r.pointsInShape == Collect(a.pointsInShape, c.pointLPS)
  {
    var b := Admit(a, c);
    Sweep(b, Channels(c.value), c.pointLPS, c.pointIJK, Width(b))
  }

  /**
   * After sweeping channels `0 .. k-1`, each of them has its maximum, its
   * minimum and its totals updated with its own value exactly once, and
   * every later channel is untouched.
   */
  lemma {:induction false} SweepAt(b: Accumulator, vs: seq<Num>, lps: Option<Point>, ijk: Option<Point>, k: nat, i: nat)
    requires WellFormed(b) && k <= Width(b) && i < Width(b)
    ensures i < k ==> Sweep(b, vs, lps, ijk, k).max[i] == MaxStep(b.max[i], At(vs, i))
    ensures i < k ==> Sweep(b, vs, lps, ijk, k).min[i] == MinStep(b.min[i], At(vs, i))
    ensures i < k ==> MomentsAt(Sweep(b, vs, lps, ijk, k), i) == WelfordStep(MomentsAt(b, i), b.count, At(vs, i))
    ensures k <= i ==> Sweep(b, vs, lps, ijk, k).max[i] == b.max[i] && Sweep(b, vs, lps, ijk, k).min[i] == b.min[i]
    ensures k <= i ==> MomentsAt(Sweep(b, vs, lps, ijk, k), i) == MomentsAt(b, i)
  {
    if k > 0 {
      SweepAt(b, vs, lps, ijk, k - 1, i);
    }
  }

  /**
   * After sweeping at least channel 0, the maximum's locations are the
   * call's exactly when channel 0's value is strictly above the old
   * maximum, and the minimum's locations are the call's exactly when the
   * minimum test fires.
   */
  lemma {:induction false} SweepLocations(b: Accumulator, vs: seq<Num>, lps: Option<Point>, ijk: Option<Point>, k: nat)
    requires WellFormed(b) && 1 <= k <= Width(b)
    ensures (Sweep(b, vs, lps, ijk, k).maxIJK, Sweep(b, vs, lps, ijk, k).maxLPS)
      == if Less(b.max[0], At(vs, 0)) then (ijk, lps) else (b.maxIJK, b.maxLPS)
    ensures (Sweep(b, vs, lps, ijk, k).minIJK, Sweep(b, vs, lps, ijk, k).minLPS)
      == if Less(At(vs, 0), MathMin(b.min[0], At(vs, 0))) then (ijk, lps) else (b.minIJK, b.minLPS)
  {
    if k > 1 {
      SweepLocations(b, vs, lps, ijk, k - 1);
    }
  }

  /**
   * What `Absorb` does to an existing channel `i`: one step of its maximum,
   * its minimum and its totals with its own value, at the new count.
   */
  lemma AbsorbAt(a: Accumulator, c: Call, i: nat)
    requires WellFormed(a) && i < Width(a)
    ensures Absorb(a, c).max[i] == MaxStep(a.max[i], At(Channels(c.value), i))
    ensures Absorb(a, c).min[i] == MinStep(a.min[i], At(Channels(c.value), i))
    ensures MomentsAt(Absorb(a, c), i) == WelfordStep(MomentsAt(a, i), a.count + 1, At(Channels(c.value), i))
  {
    var b := Admit(a, c);
    SweepAt(b, Channels(c.value), c.pointLPS, c.pointIJK, Width(b), i);
    assert b.max[i] == a.max[i] && b.min[i] == a.min[i] && MomentsAt(b, i) == MomentsAt(a, i);
  }

  /**
   * What `Absorb` does to the two channels a widening call creates: they
   * start from channel 0's maximum, minimum, sum and m2 with a zero running
   * mean, and take one step with their own values.
   */
  lemma AbsorbWidened(a: Accumulator, c: Call, i: nat)
    requires WellFormed(a) && Widens(a, c.value) && 1 <= i < 3
    ensures Absorb(a, c).max[i] == MaxStep(a.max[0], At(Channels(c.value), i))
    ensures Absorb(a, c).min[i] == MinStep(a.min[0], At(Channels(c.value), i))
    ensures MomentsAt(Absorb(a, c), i)
         == WelfordStep(Moments(a.sum[0], Fin(0.0), a.m2[0]), a.count + 1, At(Channels(c.value), i))
  {
    var b := Admit(a, c);
    SweepAt(b, Channels(c.value), c.pointLPS, c.pointIJK, Width(b), i);
    assert b.max[i] == Widen(a, c.value).max[i] && b.min[i] == Widen(a, c.value).min[i];
    assert MomentsAt(b, i) == MomentsAt(Widen(a, c.value), i);
  }

  /** What `Absorb` does to the locations: see `SweepLocations`. */
  lemma AbsorbLocations(a: Accumulator, c: Call)
    requires WellFormed(a)
    ensures var v := At(Channels(c.value), 0);
      (Absorb(a, c).maxIJK, Absorb(a, c).maxLPS)
      == if Less(a.max[0], v) then (c.pointIJK, c.pointLPS) else (a.maxIJK, a.maxLPS)
    ensures var v := At(Channels(c.value), 0);
      (Absorb(a, c).minIJK, Absorb(a, c).minLPS)
      == if Less(v, MathMin(a.min[0], v)) then (c.pointIJK, c.pointLPS) else (a.minIJK, a.minLPS)
  {
    var b := Admit(a, c);
    SweepLocations(b, Channels(c.value), c.pointLPS, c.pointIJK, Width(b));
  }

  /** A reported value: a single number, or one number per channel. */
  datatype Value = Single(n: Num) | PerChannel(ns: seq<Num>)

  /** `singleArrayAsNumber`: a one-element array is reported as its element. */
  function SingleArrayAsNumber(vs: seq<Num>): (r: Value)
    ensures r.Single? <==> |vs| == 1
    ensures AsArray(r) == vs
  {
    if |vs| == 1 then Single(vs[0]) else PerChannel(vs)
  }

  /** The channel values of a reported value. */
  function AsArray(v: Value): (vs: seq<Num>)
    ensures v.Single? ==> |vs| == 1
  {
    match v
    case Single(n) => [n]
    case PerChannel(ns) => ns
  }

  /** One named statistic; the mean, standard deviation and count carry no locations. */
  datatype Stat = Stat(value: Value, unit: Option<string>, pointIJK: Option<Point>, pointLPS: Option<Point>)

  /** The record `getStatistics` returns. */
  datatype Statistics = Statistics(
    max: Stat,
    min: Stat,
    mean: Stat,
    stdDev: Stat,
    count: Stat,
    pointsInShape: Option<seq<Point>>,
    ordered: seq<Stat>)

  /** `options?.unit || null`: a missing or empty unit is `null`. */
  function UnitOf(unit: Option<string>): (u: Option<string>)
    ensures u.None? <==> unit.None? || unit.value == ""
    ensures u.Some? ==> u == unit
  {
    if unit.Some? && unit.value != "" then unit else None
  }

  /** The per-channel means: each sum divided by the count. */
  function Means(a: Accumulator): (ms: seq<Num>)
    ensures |ms| == |a.sum|
    ensures forall i :: 0 <= i < |a.sum| && a.sum[i].Fin? && a.count > 0 ==>
      ms[i].Fin? && Product(a.count as real, ms[i].r) == a.sum[i].r
  {
    seq(|a.sum|, i requires 0 <= i < |a.sum| => Div(a.sum[i], a.count))
  }

  /** The per-channel population variances: each m2 divided by the count. */
  function Variances(a: Accumulator): (vs: seq<Num>)
    ensures |vs| == |a.m2|
    ensures forall i :: 0 <= i < |a.m2| && a.m2[i].Fin? && a.count > 0 ==>
      vs[i].Fin? && Product(a.count as real, vs[i].r) == a.m2[i].r
  {
    seq(|a.m2|, i requires 0 <= i < |a.m2| => Div(a.m2[i], a.count))
  }

  /**
   * `getStatistics`' record: the maximum and minimum with their locations,
   * the means, the standard deviations (here the variances, see the README),
   * the count without unit, the collected points, and the `array` field (here `ordered`)
   * `[max, mean, stdDev, stdDev, count]`.
   */
  function Summarize(a: Accumulator, unit: Option<string>): (r: Statistics)
    ensures r.ordered == [r.max, r.mean, r.stdDev, r.stdDev, r.count]
    ensures AsArray(r.max.value) == a.max && AsArray(r.min.value) == a.min
    ensures AsArray(r.mean.value) == Means(a) && AsArray(r.stdDev.value) == Variances(a)
    ensures r.max.value.Single? <==> |a.max| == 1
    ensures r.min.value.Single? <==> |a.min| == 1
    ensures r.mean.value.Single? <==> |a.sum| == 1
    ensures r.stdDev.value.Single? <==> |a.m2| == 1
    ensures r.count.value == Single(Fin(a.count as real)) && r.count.unit.None?
    ensures r.max.unit == UnitOf(unit) && r.min.unit == UnitOf(unit)
    ensures r.mean.unit == UnitOf(unit) && r.stdDev.unit == UnitOf(unit)
    ensures r.max.pointIJK == a.maxIJK && r.max.pointLPS == a.maxLPS
    ensures r.min.pointIJK == a.minIJK && r.min.pointLPS == a.minLPS
    ensures r.pointsInShape == a.pointsInShape
  {
    var u := UnitOf(unit);
    var max := Stat(SingleArrayAsNumber(a.max), u, a.maxIJK, a.maxLPS);
    var min := Stat(SingleArrayAsNumber(a.min), u, a.minIJK, a.minLPS);
    var mean := Stat(SingleArrayAsNumber(Means(a)), u, None, None);
    var stdDev := Stat(SingleArrayAsNumber(Variances(a)), u, None, None);
    var count := Stat(Single(Fin(a.count as real)), None, None, None);
    Statistics(max, min, mean, stdDev, count, a.pointsInShape, [max, mean, stdDev, stdDev, count])
  }

  /** The calculator, one object standing for its static fields. */
  class BasicStatsCalculator {
    var max: seq<Num>
    var min: seq<Num>
    var sum: seq<Num>
    var runMean: seq<Num>
    var m2: seq<Num>
    var count: nat
    var maxIJK: Option<Point>
    var maxLPS: Option<Point>
    var minIJK: Option<Point>
    var minLPS: Option<Point>
    var pointsInShape: Option<seq<Point>>

    /** The fields as a state value. */
    function State(): Accumulator
      reads this
    {
      Accumulator(max, min, sum, runMean, m2, count, maxIJK, maxLPS, minIJK, minLPS, pointsInShape)
    }

    predicate Valid()
      reads this
    {
      WellFormed(State())
    }

    /** The static initialisers: a fresh session. */
    constructor()
      ensures State() == Fresh()
      ensures Valid()
    {
      max := [NegInf];
      min := [PosInf];
      sum := [Fin(0.0)];
      count := 0;
      maxIJK := None;
      maxLPS := None;
      minIJK := None;
      minLPS := None;
      runMean := [Fin(0.0)];
      m2 := [Fin(0.0)];
      pointsInShape := Some([]);
    }

    /** `statsInit`: switches point collection off unless point data is stored. */
    method StatsInit(storePointData: bool)
      requires Valid()
      modifies this
      ensures State() == WithPointData(old(State()), storePointData)
      ensures Valid()
    {
      if !storePointData {
        pointsInShape := None;
      }
    }

    /** `statsCallback`: takes one sample into the running statistics. */
    method StatsCallback(value: Sample, pointLPS: Option<Point>, pointIJK: Option<Point>)
      requires Valid()
      modifies this
      ensures State() == Absorb(old(State()), Call(value, pointLPS, pointIJK))
      ensures Valid()
    {
      ghost var c := Call(value, pointLPS, pointIJK);
      ghost var a0 := State();
      ghost var b := Admit(a0, c);
      if value.Vector? && |value.xs| > 1 && |max| == 1 {
        max := max + [max[0], max[0]];
        min := min + [min[0], min[0]];
        sum := sum + [sum[0], sum[0]];
        runMean := runMean + [Fin(0.0), Fin(0.0)];
        m2 := m2 + [m2[0], m2[0]];
      }
      assert State() == Widen(a0, value);
      if pointsInShape.Some? && pointLPS.Some? {
        pointsInShape := Some(pointsInShape.value + [pointLPS.value]);
      }
      count := count + 1;
      assert State() == b;
      MapChannels(Channels(value), pointLPS, pointIJK);
    }

    /**
     * The `map` over the channels of `statsCallback`: every channel `idx`,
     * in order, takes the value `newArray[idx]` (`undefined` past the end).
     */
    method MapChannels(newArray: seq<Num>, pointLPS: Option<Point>, pointIJK: Option<Point>)
      requires Valid()
      modifies this
      ensures State() == Sweep(old(State()), newArray, pointLPS, pointIJK, Width(old(State())))
      ensures Valid()
    {
      ghost var b := State();
      var idx := 0;
      while idx < |max|
        invariant 0 <= idx <= Width(b) == |max| && Valid() && State() == Sweep(b, newArray, pointLPS, pointIJK, idx)
      {
        ChannelStep(idx, At(newArray, idx), pointLPS, pointIJK);
        idx := idx + 1;
      }
    }

    /**
     * The function that `statsCallback` maps over the channels: channel `idx`
     * takes `value` into its Welford totals, then its minimum, then its
     * maximum; on channel 0 a new minimum or maximum records the locations.
     */
    method ChannelStep(idx: nat, value: Num, pointLPS: Option<Point>, pointIJK: Option<Point>)
      requires Valid() && idx < |max|
      modifies this
      ensures State() == ChannelAt(old(State()), idx, value, pointLPS, pointIJK)
      ensures Valid()
    {
      ghost var a := State();
      ghost var m := WelfordStep(MomentsAt(a, idx), count, value);
      var delta := Sub(value, runMean[idx]);
      sum := sum[idx := Add(sum[idx], value)];
      runMean := runMean[idx := Add(runMean[idx], Div(delta, count))];
      var delta2 := Sub(value, runMean[idx]);
      m2 := m2[idx := Add(m2[idx], Mul(delta, delta2))];
      assert sum == a.sum[idx := m.sum] && runMean == a.runMean[idx := m.mean] && m2 == a.m2[idx := m.m2];

      min := min[idx := MathMin(min[idx], value)];
      // The strict test after `Math.min` never holds (`MinTestNeverFires`), so its
      // writes are spelled as conditional values rather than a dead branch.
      var lower := Less(value, min[idx]);
      min := min[idx := if lower then value else min[idx]];
      minIJK := if lower && idx == 0 then pointIJK else minIJK;
      minLPS := if lower && idx == 0 then pointLPS else minLPS;
      assert min == a.min[idx := MinStep(a.min[idx], value)];

      if Less(max[idx], value) {
        max := max[idx := value];
        if idx == 0 {
          maxIJK := pointIJK;
          maxLPS := pointLPS;
        }
      }
      assert max == a.max[idx := MaxStep(a.max[idx], value)];
    }

    /** `getStatistics`: reports the session and starts a fresh one. */
    method GetStatistics(unit: Option<string>) returns (named: Statistics)
      modifies this
      ensures named == Summarize(old(State()), unit)
      ensures State() == Fresh()
      ensures Valid()
    {
      named := Summarize(State(), unit);

      max := [NegInf];
      min := [PosInf];
      sum := [Fin(0.0)];
      m2 := [Fin(0.0)];
      runMean := [Fin(0.0)];
      count := 0;
      maxIJK := None;
      maxLPS := None;
      minIJK := None;
      minLPS := None;
      pointsInShape := Some([]);
    }
  }
}
