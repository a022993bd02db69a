/**
 * What the calculator promises, proved about the state functions of
 * `BasicStats`: first about one callback, then about a whole session of
 * callbacks started from a fresh state, and about the record read out at
 * its end.
 */
module BasicStatsProperties {
  import opened Wrappers
  import opened Numbers
  import opened Welford
  import opened BasicStats

  // ----- One callback -----

  /**
   * The strict test after `Math.min` can never fire: the value is never
   * below the minimum it has just been folded into. So a channel's new
   * minimum is exactly `Math.min` of the old minimum and the value.
   */
  lemma MinTestNeverFires(m: Num, v: Num)
    ensures !Less(v, MathMin(m, v))
    ensures MinStep(m, v) == MathMin(m, v)
  {
    if !m.NaN? && !v.NaN? {
      LessTrichotomy(v, MathMin(m, v));
    }
  }

  /**
   * One callback on an existing channel `i`: the maximum becomes the larger
   * of the old maximum and the value (a NaN value leaves it alone), the
   * minimum becomes `Math.min` of the old minimum and the value, so the
   * maximum never decreases and a minimum that is not NaN never increases.
   */
  lemma CallbackExtrema(a: Accumulator, c: Call, i: nat)
    requires WellFormed(a) && i < Width(a)
    ensures var v := At(Channels(c.value), i);
      && !Less(Absorb(a, c).max[i], a.max[i])
      && (!v.NaN? ==> !Less(Absorb(a, c).max[i], v))
      && (Absorb(a, c).max[i] == a.max[i] || Absorb(a, c).max[i] == v)
      && (v.NaN? ==> Absorb(a, c).max[i] == a.max[i])
    ensures Absorb(a, c).min[i] == MathMin(a.min[i], At(Channels(c.value), i))
  {
    AbsorbAt(a, c, i);
    MinTestNeverFires(a.min[i], At(Channels(c.value), i));
  }

  /**
   * The maximum's locations change exactly when channel 0's value is
   * strictly above the old maximum, and then become the call's; on a tie
   * the earlier locations stay, and the other channels never affect them.
   */
  lemma CallbackMaxLocation(a: Accumulator, c: Call)
    requires WellFormed(a)
    ensures var v := At(Channels(c.value), 0);
      (Absorb(a, c).maxIJK, Absorb(a, c).maxLPS)
      == if Less(a.max[0], v) then (c.pointIJK, c.pointLPS) else (a.maxIJK, a.maxLPS)
    ensures Less(a.max[0], At(Channels(c.value), 0)) <==> Absorb(a, c).max[0] != a.max[0]
  {
    AbsorbLocations(a, c);
    AbsorbAt(a, c, 0);
  }

  /** A callback never records a location for the minimum. */
  lemma CallbackKeepsMinLocation(a: Accumulator, c: Call)
    requires WellFormed(a)
    ensures Absorb(a, c).minIJK == a.minIJK && Absorb(a, c).minLPS == a.minLPS
  {
    AbsorbLocations(a, c);
    MinTestNeverFires(a.min[0], At(Channels(c.value), 0));
  }

  /**
   * Welford's invariant on one channel: if the running mean times the count
   * was the sum, then after a finite value the new running mean times the
   * new count is the new sum.
   */
  lemma CallbackMeanTimesCount(a: Accumulator, c: Call, i: nat)
    requires WellFormed(a) && i < Width(a)
    requires a.sum[i].Fin? && a.runMean[i].Fin? && At(Channels(c.value), i).Fin?
    requires Product(a.count as real, a.runMean[i].r) == a.sum[i].r
    ensures Absorb(a, c).sum[i].Fin? && Absorb(a, c).runMean[i].Fin?
    ensures Product(Absorb(a, c).count as real, Absorb(a, c).runMean[i].r) == Absorb(a, c).sum[i].r
  {
    AbsorbAt(a, c, i);
    assert (a.count + 1 - 1) as real == a.count as real;
    WelfordStepMeanTimesCount(MomentsAt(a, i), a.count + 1, At(Channels(c.value), i).r);
  }

  /**
   * A two-value sample that widens the arrays gives three channels, and the
   * third reads `undefined`: its totals and minimum become NaN while its
   * maximum stays the copy of channel 0's.
   */
  lemma WideningByPair(a: Accumulator, c: Call)
    requires WellFormed(a) && Width(a) == 1 && c.value.Vector? && |c.value.xs| == 2
    ensures Width(Absorb(a, c)) == 3
    ensures Absorb(a, c).sum[2].NaN? && Absorb(a, c).runMean[2].NaN? && Absorb(a, c).m2[2].NaN?
    ensures Absorb(a, c).min[2].NaN? && Absorb(a, c).max[2] == a.max[0]
  {
    AbsorbWidened(a, c, 2);
  }

  // ----- A session -----

  /** A session: the callbacks `cs`, in order, starting from `a`. */
  function Feed(a: Accumulator, cs: seq<Call>): (r: Accumulator)
    requires WellFormed(a)
    ensures WellFormed(r) && Width(r) >= Width(a)
    ensures r.count == a.count + |cs|
    decreases |cs|
  {
    if cs == [] then a else Feed(Absorb(a, cs[0]), cs[1..])
  }

  /** The values a session feeds into channel `i`, one per call. */
  function ChannelValues(cs: seq<Call>, i: nat): (vs: seq<Num>)
    ensures |vs| == |cs|
    ensures forall j :: 0 <= j < |cs| ==> vs[j] == At(Channels(cs[j].value), i)
  {
    seq(|cs|, j requires 0 <= j < |cs| => At(Channels(cs[j].value), i))
  }

  /** The LPS points of the calls that carry one, in order. */
  function LPSPoints(cs: seq<Call>): (ps: seq<Point>)
    ensures |ps| <= |cs|
    ensures (forall j :: 0 <= j < |cs| ==> cs[j].pointLPS.Some?) ==> |ps| == |cs|
    ensures forall p :: p in ps <==> exists j :: 0 <= j < |cs| && cs[j].pointLPS == Some(p)
  {
    if cs == [] then []
    else (if cs[0].pointLPS.Some? then [cs[0].pointLPS.value] else []) + LPSPoints(cs[1..])
  }

  /** The splitting of a session's channel values into the first call and the rest. */
  lemma ChannelValuesTail(cs: seq<Call>, i: nat)
    requires cs != []
    ensures ChannelValues(cs, i) == [At(Channels(cs[0].value), i)] + ChannelValues(cs[1..], i)
  {
  }

  /**
   * Every channel that exists at the start of a session runs Welford's
   * algorithm over exactly the values the session feeds it, with the
   * shared count: its totals are `ReplayFrom` of its starting totals.
   */
  lemma {:induction false} SessionMoments(a: Accumulator, cs: seq<Call>, i: nat)
    requires WellFormed(a) && i < Width(a)
    ensures MomentsAt(Feed(a, cs), i) == ReplayFrom(MomentsAt(a, i), a.count, ChannelValues(cs, i))
    decreases |cs|
  {
    if cs != [] {
      FeedFirst(a, cs, i);
      SessionMoments(Absorb(a, cs[0]), cs[1..], i);
    }
  }

  /** The first call of a session, as seen by channel `i`. */
  lemma FeedFirst(a: Accumulator, cs: seq<Call>, i: nat)
    requires WellFormed(a) && i < Width(a) && cs != []
    ensures Feed(a, cs) == Feed(Absorb(a, cs[0]), cs[1..])
    ensures Absorb(a, cs[0]).count == a.count + 1 && i < Width(Absorb(a, cs[0]))
    ensures MomentsAt(Absorb(a, cs[0]), i) == WelfordStep(MomentsAt(a, i), a.count + 1, ChannelValues(cs, i)[0])
    ensures ChannelValues(cs, i)[1..] == ChannelValues(cs[1..], i)
  {
    AbsorbAt(a, cs[0], i);
    ChannelValuesTail(cs, i);
  }

  /**
   * The number of channels after a session is 3 exactly when it already
   * was or some sample had more than one value, and 1 otherwise: widening
   * happens at most once and never shrinks back.
   */
  lemma {:induction false} SessionWidth(a: Accumulator, cs: seq<Call>)
    requires WellFormed(a)
    ensures Width(Feed(a, cs))
         == if Width(a) == 3 || exists j :: 0 <= j < |cs| && MultiChannel(cs[j].value) then 3 else 1
    decreases |cs|
  {
    if cs != [] {
      var b := Absorb(a, cs[0]);
      SessionWidth(b, cs[1..]);
      if exists j :: 0 <= j < |cs| && MultiChannel(cs[j].value) {
        var j :| 0 <= j < |cs| && MultiChannel(cs[j].value);
        if j > 0 {
          assert MultiChannel(cs[1..][j - 1].value);
        }
      } else {
        forall j | 0 <= j < |cs[1..]|
          ensures !MultiChannel(cs[1..][j].value)
        {
          assert cs[1..][j] == cs[j + 1];
        }
      }
    }
  }

  /**
   * The point list after a session: removed stays removed, and otherwise
   * every call's LPS point, when it has one, is appended in order.
   */
  lemma {:induction false} SessionPoints(a: Accumulator, cs: seq<Call>)
    requires WellFormed(a)
    ensures Feed(a, cs).pointsInShape
         == if a.pointsInShape.None? then None else Some(a.pointsInShape.value + LPSPoints(cs))
  {
    FeedCollects(a, cs);
    CollectAllAppends(a.pointsInShape, cs);
  }

  /** The point list after the calls `cs`, one `Collect` per call. */
  function CollectAll(ps: Option<seq<Point>>, cs: seq<Call>): (r: Option<seq<Point>>)
    decreases |cs|
  {
    if cs == [] then ps else CollectAll(Collect(ps, cs[0].pointLPS), cs[1..])
  }

  lemma {:induction false} FeedCollects(a: Accumulator, cs: seq<Call>)
    requires WellFormed(a)
    ensures Feed(a, cs).pointsInShape == CollectAll(a.pointsInShape, cs)
    decreases |cs|
  {
    if cs != [] {
      FeedCollects(Absorb(a, cs[0]), cs[1..]);
    }
  }

  lemma {:induction false} CollectAllAppends(ps: Option<seq<Point>>, cs: seq<Call>)
    ensures CollectAll(ps, cs) == if ps.None? then None else Some(ps.value + LPSPoints(cs))
    decreases |cs|
  {
    if cs == [] {
      if ps.Some? {
        assert ps.value + LPSPoints(cs) == ps.value;
      }
    } else {
      var first := if cs[0].pointLPS.Some? then [cs[0].pointLPS.value] else [];
      CollectAllAppends(Collect(ps, cs[0].pointLPS), cs[1..]);
      assert LPSPoints(cs) == first + LPSPoints(cs[1..]);
      if ps.Some? {
        assert Collect(ps, cs[0].pointLPS) == Some(ps.value + first);
        assert (ps.value + first) + LPSPoints(cs[1..]) == ps.value + (first + LPSPoints(cs[1..]));
      }
    }
  }

  /** No session ever records a location for the minimum. */
  lemma {:induction false} SessionKeepsMinLocation(a: Accumulator, cs: seq<Call>)
    requires WellFormed(a)
    ensures Feed(a, cs).minIJK == a.minIJK && Feed(a, cs).minLPS == a.minLPS
    decreases |cs|
  {
    if cs != [] {
      CallbackKeepsMinLocation(a, cs[0]);
      SessionKeepsMinLocation(Absorb(a, cs[0]), cs[1..]);
    }
  }

  /**
   * The maximum of an existing channel after a session is the largest of
   * its starting maximum and of the session's values for it that are not
   * NaN: at least each of them, and equal to one of them.
   */
  lemma {:induction false} SessionMax(a: Accumulator, cs: seq<Call>, i: nat)
    requires WellFormed(a) && i < Width(a)
    ensures !Less(Feed(a, cs).max[i], a.max[i])
    ensures forall j :: 0 <= j < |cs| && !ChannelValues(cs, i)[j].NaN? ==>
      !Less(Feed(a, cs).max[i], ChannelValues(cs, i)[j])
    ensures Feed(a, cs).max[i] == a.max[i]
         || exists j :: 0 <= j < |cs| && Feed(a, cs).max[i] == ChannelValues(cs, i)[j]
    decreases |cs|
  {
    if cs != [] {
      var b := Absorb(a, cs[0]);
      var f := Feed(a, cs);
      var vs := ChannelValues(cs, i);
      ChannelValuesTail(cs, i);
      CallbackExtrema(a, cs[0], i);
      SessionMax(b, cs[1..], i);
      assert f == Feed(b, cs[1..]);
      NotLessTrans(f.max[i], b.max[i], a.max[i]);
      forall j | 0 <= j < |cs| && !vs[j].NaN?
        ensures !Less(f.max[i], vs[j])
      {
        if j == 0 {
          NotLessTrans(f.max[i], b.max[i], vs[0]);
        } else {
          assert vs[j] == ChannelValues(cs[1..], i)[j - 1];
        }
      }
      if f.max[i] != a.max[i] {
        if f.max[i] == b.max[i] {
          assert f.max[i] == vs[0];
        } else {
          var k :| 0 <= k < |cs[1..]| && f.max[i] == ChannelValues(cs[1..], i)[k];
          assert f.max[i] == vs[k + 1];
        }
      }
    }
  }

  /**
   * The minimum of an existing channel after a session is NaN exactly when
   * it started NaN or the session fed it a NaN (an `undefined` channel).
   */
  lemma {:induction false} SessionMinNaN(a: Accumulator, cs: seq<Call>, i: nat)
    requires WellFormed(a) && i < Width(a)
    ensures Feed(a, cs).min[i].NaN?
       <==> a.min[i].NaN? || exists j :: 0 <= j < |cs| && ChannelValues(cs, i)[j].NaN?
    decreases |cs|
  {
    if cs != [] {
      var b := Absorb(a, cs[0]);
      ChannelValuesTail(cs, i);
      CallbackExtrema(a, cs[0], i);
      SessionMinNaN(b, cs[1..], i);
      assert Feed(a, cs) == Feed(b, cs[1..]);
      NaNInTail(ChannelValues(cs, i));
    }
  }

  /** A sequence holds a NaN exactly when its head is NaN or its tail holds one. */
  lemma NaNInTail(vs: seq<Num>)
    requires vs != []
    ensures (exists j :: 0 <= j < |vs| && vs[j].NaN?)
       <==> vs[0].NaN? || exists j :: 0 <= j < |vs[1..]| && vs[1..][j].NaN?
  {
    if exists j :: 0 <= j < |vs| && vs[j].NaN? {
      var j :| 0 <= j < |vs| && vs[j].NaN?;
      if j > 0 {
        assert vs[1..][j - 1].NaN?;
      }
    }
  }

  /**
   * A minimum that is not NaN after a session is the smallest of the
   * channel's starting minimum and the session's values: at most each of
   * them, and equal to one of them.
   */
  lemma {:induction false} SessionMin(a: Accumulator, cs: seq<Call>, i: nat)
    requires WellFormed(a) && i < Width(a)
    ensures !Feed(a, cs).min[i].NaN? ==>
      && !Less(a.min[i], Feed(a, cs).min[i])
      && (forall j :: 0 <= j < |cs| ==> !Less(ChannelValues(cs, i)[j], Feed(a, cs).min[i]))
      && (Feed(a, cs).min[i] == a.min[i] || exists j :: 0 <= j < |cs| && Feed(a, cs).min[i] == ChannelValues(cs, i)[j])
    decreases |cs|
  {
    if cs != [] {
      var b := Absorb(a, cs[0]);
      var f := Feed(a, cs);
      var vs := ChannelValues(cs, i);
      var rest := ChannelValues(cs[1..], i);
      ChannelValuesTail(cs, i);
      CallbackExtrema(a, cs[0], i);
      SessionMin(b, cs[1..], i);
      assert f == Feed(b, cs[1..]);
      if !f.min[i].NaN? {
        SessionMinNaN(b, cs[1..], i);
        assert !b.min[i].NaN?;
        NotLessTrans(a.min[i], b.min[i], f.min[i]);
        NotLessTrans(vs[0], b.min[i], f.min[i]);
        forall j | 0 <= j < |cs|
          ensures !Less(vs[j], f.min[i])
        {
          if j > 0 {
            assert vs[j] == rest[j - 1];
          }
        }
        if f.min[i] != a.min[i] && f.min[i] != b.min[i] {
          var k :| 0 <= k < |rest| && f.min[i] == rest[k];
          assert f.min[i] == vs[k + 1];
        }
      }
    }
  }

  /**
   * The first call whose channel-0 value is the session's maximum, strictly
   * above the starting maximum and strictly above every earlier value that
   * is not NaN, is call `j`, and the maximum's locations are its.
   */
  predicate FirstMaxAt(a: Accumulator, cs: seq<Call>, j: nat, f: Accumulator)
    requires WellFormed(a) && WellFormed(f) && j < |cs|
  {
    var v := At(Channels(cs[j].value), 0);
    && (f.maxIJK, f.maxLPS) == (cs[j].pointIJK, cs[j].pointLPS)
    && f.max[0] == v
    && Less(a.max[0], v)
    && forall k :: 0 <= k < j && !ChannelValues(cs, 0)[k].NaN? ==> Less(ChannelValues(cs, 0)[k], v)
  }

  /**
   * The maximum's locations after a session: either the maximum never rose
   * and the locations are the starting ones, or they are those of the
   * first call that reached the final maximum (ties keep the first).
   */
  lemma {:induction false} SessionMaxLocation(a: Accumulator, cs: seq<Call>)
    requires WellFormed(a)
    ensures || ((Feed(a, cs).maxIJK, Feed(a, cs).maxLPS) == (a.maxIJK, a.maxLPS) && Feed(a, cs).max[0] == a.max[0])
            || exists j :: 0 <= j < |cs| && FirstMaxAt(a, cs, j, Feed(a, cs))
    decreases |cs|
  {
    if cs != [] {
      var c := cs[0];
      var b := Absorb(a, c);
      var f := Feed(a, cs);
      var v0 := At(Channels(c.value), 0);
      assert f == Feed(b, cs[1..]);
      ChannelValuesTail(cs, 0);
      CallbackMaxLocation(a, c);
      CallbackExtrema(a, c, 0);
      SessionMaxLocation(b, cs[1..]);
      if (f.maxIJK, f.maxLPS) == (b.maxIJK, b.maxLPS) && f.max[0] == b.max[0] {
        if Less(a.max[0], v0) {
          assert FirstMaxAt(a, cs, 0, f);
        }
      } else {
        var j :| 0 <= j < |cs[1..]| && FirstMaxAt(b, cs[1..], j, f);
        var v := At(Channels(cs[j + 1].value), 0);
        assert cs[1..][j] == cs[j + 1];
        LessAfterNotLess(a.max[0], b.max[0], v);
        forall k | 0 <= k < j + 1 && !ChannelValues(cs, 0)[k].NaN?
          ensures Less(ChannelValues(cs, 0)[k], v)
        {
          if k == 0 {
            LessAfterNotLess(v0, b.max[0], v);
          } else {
            assert ChannelValues(cs, 0)[k] == ChannelValues(cs[1..], 0)[k - 1];
          }
        }
        assert FirstMaxAt(a, cs, j + 1, f);
      }
    }
  }

  /**
   * A channel that is fed a NaN (an `undefined` value) anywhere in a
   * session ends it with NaN sum and m2.
   */
  lemma SessionNaNChannel(a: Accumulator, cs: seq<Call>, i: nat, j: nat)
    requires WellFormed(a) && i < Width(a) && j < |cs| && At(Channels(cs[j].value), i).NaN?
    ensures Feed(a, cs).sum[i].NaN? && Feed(a, cs).m2[i].NaN?
  {
    SessionMoments(a, cs, i);
    ReplayFromKeepsNaN(MomentsAt(a, i), a.count, ChannelValues(cs, i), j);
  }

  // ----- Read-out -----

  /**
   * A fresh session (with or without a point list) whose channel-0 values
   * are the finite `xs` ends with
   * channel 0 holding their total, their mean and their sum of squared
   * deviations from the mean: Welford's algorithm is exact.
   */
  lemma SessionExact(start: Accumulator, cs: seq<Call>, xs: seq<real>)
    requires (start == Fresh() || start == WithPointData(Fresh(), false)) && ChannelValues(cs, 0) == Fins(xs)
    ensures MomentsAt(Feed(start, cs), 0) == Moments(Fin(Total(xs)), Fin(Mean(xs)), Fin(SqDev(xs, Mean(xs))))
  {
    SessionMoments(start, cs, 0);
    WelfordExact(xs);
  }

  /** Channel `i` of the reported mean and standard deviation entries. */
  lemma ReadOut(a: Accumulator, unit: Option<string>, i: nat)
    requires WellFormed(a) && i < Width(a)
    ensures AsArray(Summarize(a, unit).mean.value)[i] == Div(a.sum[i], a.count)
    ensures AsArray(Summarize(a, unit).stdDev.value)[i] == Div(a.m2[i], a.count)
  {
  }

  /**
   * The record read out after a fresh session (with or without a point
   * list, so also after `statsInit` switched collection off) whose channel-0 values are
   * the finite, non-empty `xs`: the channel-0 mean is their mean, the
   * channel-0 "standard deviation" entry is their population variance, the
   * count is their number, and with only single-value samples the mean and
   * variance are reported as single numbers.
   */
  lemma SessionStatistics(start: Accumulator, cs: seq<Call>, xs: seq<real>, unit: Option<string>)
    requires (start == Fresh() || start == WithPointData(Fresh(), false)) && ChannelValues(cs, 0) == Fins(xs) && |xs| > 0
    ensures AsArray(Summarize(Feed(start, cs), unit).mean.value)[0] == Fin(Mean(xs))
    ensures AsArray(Summarize(Feed(start, cs), unit).stdDev.value)[0] == Fin(Variance(xs))
    ensures Summarize(Feed(start, cs), unit).count.value == Single(Fin(|xs| as real))
    ensures (forall j :: 0 <= j < |cs| ==> !MultiChannel(cs[j].value)) ==>
      && Summarize(Feed(start, cs), unit).mean.value == Single(Fin(Mean(xs)))
      && Summarize(Feed(start, cs), unit).stdDev.value == Single(Fin(Variance(xs)))
  {
    var f := Feed(start, cs);
    SessionExact(start, cs, xs);
    ReadOut(f, unit, 0);
    assert f.count == |xs|;
    assert Div(f.sum[0], f.count) == Fin(Mean(xs));
    assert Div(f.m2[0], f.count) == Fin(Variance(xs));
    SessionWidth(start, cs);
  }

  /**
   * The record of an empty session: maximum -Infinity, minimum Infinity,
   * mean and standard deviation NaN (0/0), count 0, no locations and an
   * empty point list.
   */
  lemma EmptySessionStatistics(unit: Option<string>)
    ensures Summarize(Fresh(), unit).max.value == Single(NegInf)
    ensures Summarize(Fresh(), unit).min.value == Single(PosInf)
    ensures Summarize(Fresh(), unit).mean.value == Single(NaN)
    ensures Summarize(Fresh(), unit).stdDev.value == Single(NaN)
    ensures Summarize(Fresh(), unit).count.value == Single(Fin(0.0))
    ensures Summarize(Fresh(), unit).max.pointIJK.None? && Summarize(Fresh(), unit).max.pointLPS.None?
    ensures Summarize(Fresh(), unit).min.pointIJK.None? && Summarize(Fresh(), unit).min.pointLPS.None?
    ensures Summarize(Fresh(), unit).pointsInShape == Some([])
  {
    var r := Summarize(Fresh(), unit);
    assert AsArray(r.mean.value) == [NaN];
    assert AsArray(r.stdDev.value) == [NaN];
  }

  /**
   * Reading out resets: after `getStatistics` the next session starts from
   * the fresh state, so it collects every LPS point again and its
   * statistics do not depend on the previous session.
   */
  lemma NextSession(start: Accumulator, cs: seq<Call>)
    requires start == Fresh()
    ensures Feed(start, cs).pointsInShape == Some(LPSPoints(cs))
    ensures Feed(start, cs).count == |cs|
    ensures Feed(start, cs).minIJK.None? && Feed(start, cs).minLPS.None?
  {
    SessionPoints(start, cs);
    assert [] + LPSPoints(cs) == LPSPoints(cs);
    SessionKeepsMinLocation(start, cs);
  }

  /** With point collection switched off, a session collects no points. */
  lemma SessionWithoutPoints(a: Accumulator, cs: seq<Call>)
    requires WellFormed(a)
    ensures Feed(WithPointData(a, false), cs).pointsInShape.None?
  {
    SessionPoints(WithPointData(a, false), cs);
  }
}
