/** What every reported feature row satisfies, whatever packets the flow was fed. */
module FlowFacts {
  import opened Packets
  import opened Statistics
  import opened Rounding
  import opened FlowHistory

  ghost predicate Ordered(ts: seq<real>) {
    forall i, j :: 0 <= i <= j < |ts| ==> ts[i] <= ts[j]
  }

  // ------------------------------------------------------------ packet lengths

  lemma {:induction false} LengthsAreNonNegative(ps: seq<PacketInfo>)
    ensures forall x | x in Lengths(ps) :: x >= 0.0
  {
  }

  lemma {:induction false} VarianceBound(ps: seq<PacketInfo>, n: real)
    requires |ps| >= 2 && n == |ps| as real
    ensures var s := BatchLengths(ps);
            && 0.0 <= s.mean <= s.max
            && 0.0 <= s.variance <= Spread(n, s.mean, s.max) / (|ps| - 1) as real
  {
    var lens := Lengths(ps);
    LengthsAreNonNegative(ps);
    VarianceAtMostMeanTimesHeadroom(lens);
    MeanBetweenExtremes(lens);
    ExtremesAreAttained(lens);
  }

  /** Mean, maximum and variance of the packet lengths bound each other (Bhatia-Davis). */
  lemma {:induction false} ReportedVarianceBound(h: History)
    requires |h| >= 2
    ensures var s := Batch(h).packetLen;
            && 0.0 <= s.mean <= s.max
            && 0.0 <= s.variance <= Spread(|h| as real, s.mean, s.max) / (|h| - 1) as real
            && s.std == Root(s.variance)
  {
    VarianceBound(All(h), |h| as real);
  }

  /** A deviation names one number only. */
  lemma {:induction false} DeviationIsDetermined(s: real, t: real)
    requires s >= 0.0 && t >= 0.0 && s * s == t * t
    ensures s == t
  {
    assert (s - t) * (s + t) == 0.0;
    assert s - t == 0.0 || s + t == 0.0;
  }

  // ---------------------------------------------------------- directions

  /** Every packet is counted in exactly one direction. */
  lemma {:induction false} DirectionsPartition(h: History)
    ensures |Side(h, Fwd)| + |Side(h, Bwd)| == |h|
    ensures multiset(Side(h, Fwd)) + multiset(Side(h, Bwd)) == multiset(All(h))
  {
    if h != [] {
      var before, t := h[..|h| - 1], h[|h| - 1];
      DirectionsPartition(before);
      assert h == before + [t];
      AllSnoc(before, t);
      SideSnoc(before, t, Fwd);
      SideSnoc(before, t, Bwd);
    }
  }

  /** Strictly ascending positions of the direction's packets in the flow. */
  ghost predicate Positions(h: History, d: Direction, at: seq<nat>) {
    && (forall k | 0 <= k < |at| :: at[k] < |h| && h[at[k]].direction == d)
    && (forall j, k | 0 <= j < k < |at| :: at[j] < at[k])
    && (forall i: nat | i < |h| && h[i].direction == d :: i in at)
  }

  lemma {:induction false} PositionsStay(h: History, t: Tagged, d: Direction, at: seq<nat>)
    requires Positions(h, d, at) && t.direction != d
    ensures Positions(h + [t], d, at)
  {
  }

  lemma {:induction false} PositionAdded(h: History, t: Tagged, d: Direction, at: seq<nat>)
    requires Positions(h, d, at) && t.direction == d
    ensures Positions(h + [t], d, at + [|h|])
  {
    var more := at + [|h|];
    forall i: nat | i < |h + [t]| && (h + [t])[i].direction == d
      ensures i in more
    {
      if i < |h| {
        assert i in at;
      } else {
        assert more[|at|] == i;
      }
    }
  }

  /** Each direction consists of all its packets, in the flow's order. */
  lemma {:induction false} SideKeepsOrder(h: History, d: Direction) returns (at: seq<nat>)
    ensures Positions(h, d, at) && |at| == |Side(h, d)|
    ensures forall k | 0 <= k < |at| :: at[k] < |h| && Side(h, d)[k] == h[at[k]].packet
  {
    at := [];
    if h != [] {
      var before, t := h[..|h| - 1], h[|h| - 1];
      at := SideKeepsOrder(before, d);
      assert h == before + [t];
      SideSnoc(before, t, d);
      if t.direction == d {
        PositionAdded(before, t, d, at);
        at := at + [|before|];
      } else {
        PositionsStay(before, t, d, at);
      }
    }
  }

  /** Packets of one direction carry time stamps of the flow, in the flow's order. */
  lemma {:induction false} SideWithinFlow(h: History, d: Direction)
    requires h != [] && Ordered(Times(All(h)))
    ensures forall i | 0 <= i < |Side(h, d)| ::
              h[0].packet.timestamp <= Side(h, d)[i].timestamp <= Last(h).packet.timestamp
    ensures Ordered(Times(Side(h, d)))
  {
    if |h| == 1 {
      assert h[..0] == [];
      assert Side(h[..0], d) == [];
    } else {
      var before, t := h[..|h| - 1], h[|h| - 1];
      var ts := Times(All(h));
      assert Times(All(before)) == ts[..|h| - 1];
      SideWithinFlow(before, d);
      assert ts[|h| - 2] <= ts[|h| - 1] && ts[0] <= ts[|h| - 1];
      var earlier, side := Side(before, d), Side(h, d);
      forall i, j | 0 <= i <= j < |side|
        ensures Times(side)[i] <= Times(side)[j]
      {
        if j < |earlier| {
          assert Times(earlier)[i] <= Times(earlier)[j];
        } else if i < |earlier| {
          assert side[i] == earlier[i] && side[j] == t.packet;
        }
      }
    }
  }

  // ------------------------------------------------------- gaps and durations

  lemma {:induction false} GapsTelescope(ts: seq<real>)
    requires ts != []
    ensures |Gaps(ts)| == |ts| - 1
    ensures Sum(Gaps(ts)) == Micros(Last(ts) - ts[0])
  {
    if |ts| == 1 {
      assert Gaps(ts) == [];
    } else {
      var before, t := ts[..|ts| - 1], Last(ts);
      GapsTelescope(before);
      assert ts == before + [t];
      GapsSnoc(before, t);
      SumSnoc(Gaps(before), Micros(t - Last(before)));
    }
  }

  lemma {:induction false} ProductNonNegative(x: real, y: real)
    requires x >= 0.0 && y >= 0.0
    ensures x * y >= 0.0
  {
  }

  lemma {:induction false} ScaledError(duration: real, n: real, mean: real, error: real)
    requires n >= 1.0 && mean * n == duration && -0.5 <= error <= 0.5
    ensures -n / 2.0 <= duration - n * (mean + error) <= n / 2.0
  {
    ProductNonNegative(n, 0.5 - error);
    ProductNonNegative(n, 0.5 + error);
    Distribute(n, 0.5, -error);
    Distribute(n, 0.5, error);
    Distribute(n, mean, error);
  }

  function Multiple(n: int, m: int): int {
    n * m
  }

  lemma {:induction false} RealMultiple(n: int, m: int)
    ensures Multiple(n, m) as real == n as real * m as real
  {
  }

  lemma {:induction false} RoundedMeanError(duration: real, n: int)
    requires n >= 1
    ensures var error := duration - Multiple(n, RoundHalfEven(duration / n as real)) as real;
            -n as real / 2.0 <= error <= n as real / 2.0
  {
    var mean := duration / n as real;
    var m := RoundHalfEven(mean);
    DivideBack(duration, n as real);
    ScaledError(duration, n as real, mean, m as real - mean);
    assert mean + (m as real - mean) == m as real;
    RealMultiple(n, m);
  }

  lemma {:induction false} RoundedDurationError(duration: real, n: int)
    requires n >= 1
    ensures var error := RoundHalfEven(duration) - Multiple(n, RoundHalfEven(duration / n as real));
            -(n + 1) <= 2 * error <= n + 1
  {
    RoundedMeanError(duration, n);
  }

  lemma {:induction false} MeanGap(h: History)
    requires |h| >= 2
    ensures Gaps(Times(All(h))) != []
    ensures Mean(Gaps(Times(All(h)))) == Duration(All(h)) / (|h| - 1) as real
  {
    GapsTelescope(Times(All(h)));
  }

  lemma {:induction false} ReportedDurationAndMean(h: History)
    requires |h| >= 2
    ensures Batch(h).flowDuration == RoundHalfEven(Duration(All(h)))
    ensures Batch(h).flowIat.mean == RoundHalfEven(Duration(All(h)) / (|h| - 1) as real)
  {
    MeanGap(h);
  }

  /**
    Duration and mean gap are rounded separately, so they need not multiply out; over n packets
    they are off by at most n / 2 microseconds.
    */
  lemma {:induction false} DurationMatchesMeanGap(h: History)
    requires |h| >= 2
    ensures var row := Batch(h);
            var error := row.flowDuration - Multiple(|h| - 1, row.flowIat.mean);
            -|h| <= 2 * error <= |h|
  {
    ReportedDurationAndMean(h);
    RoundedDurationError(Duration(All(h)), |h| - 1);
  }

  /** In ordered time neither direction's total gap exceeds the flow's duration, even after rounding. */
  lemma {:induction false} TotalsWithinDuration(h: History)
    requires h != [] && Ordered(Times(All(h)))
    ensures var row := Batch(h);
            && 0 <= row.fwdIat.total <= row.flowDuration
            && 0 <= row.bwdIat.total <= row.flowDuration
  {
    TotalWithinDuration(h, Fwd);
    TotalWithinDuration(h, Bwd);
  }

  lemma {:induction false} TotalWithinDuration(h: History, d: Direction)
    requires h != [] && Ordered(Times(All(h)))
    ensures 0 <= RoundHalfEven(Sum(Gaps(Times(Side(h, d))))) <= RoundHalfEven(Duration(All(h)))
  {
    var side := Side(h, d);
    SideWithinFlow(h, d);
    var ts := Times(All(h));
    assert ts[0] <= ts[|h| - 1];
    var total := Sum(Gaps(Times(side)));
    if side != [] {
      GapsTelescope(Times(side));
      assert Times(side)[0] <= Times(side)[|side| - 1];
    }
    RoundOfInteger(0);
    RoundIsMonotone(0.0, total);
    RoundIsMonotone(total, Duration(All(h)));
  }

  /** Rounding keeps minimum, mean and maximum gap in order; a direction's unrounded mean may leave them by half. */
  lemma {:induction false} GapStatisticsAreOrdered(h: History)
    requires h != []
    ensures var g := Batch(h).flowIat; g.min <= g.mean <= g.max
    ensures SideOrdered(Batch(h).fwdIat) && SideOrdered(Batch(h).bwdIat)
  {
    var gaps := Gaps(Times(All(h)));
    if gaps != [] {
      MeanBetweenExtremes(gaps);
      RoundIsMonotone(Min(gaps), Mean(gaps));
      RoundIsMonotone(Mean(gaps), Max(gaps));
    }
    SideStatisticsAreOrdered(Gaps(Times(Side(h, Fwd))));
    SideStatisticsAreOrdered(Gaps(Times(Side(h, Bwd))));
  }

  ghost predicate SideOrdered(g: SideGapStats) {
    g.min as real - 0.5 <= g.mean <= g.max as real + 0.5
  }

  lemma {:induction false} SideStatisticsAreOrdered(gaps: seq<real>)
    ensures SideOrdered(BatchSideGaps(gaps))
  {
    if gaps != [] {
      MeanBetweenExtremes(gaps);
    }
  }

  // ----------------------------------------------------- active and idle time

  /** The open segment starts at the last cut, or at the first packet when there is none. */
  lemma {:induction false} OpenSegmentStartsAtLastCut(ts: seq<real>) returns (s: nat)
    requires ts != []
    ensures s < |ts| && OpenedAt(ts) == ts[s]
    ensures s == 0 || IsCut(ts, s)
    ensures forall i | s < i < |ts| :: !IsCut(ts, i)
  {
    var last := |ts| - 1;
    if last == 0 {
      s := 0;
    } else if IsCut(ts, last) {
      s := last;
    } else {
      s := OpenSegmentStartsAtLastCut(ts[..last]);
      assert forall i | s < i < last :: !IsCut(ts[..last], i) && (IsCut(ts, i) <==> IsCut(ts[..last], i));
    }
  }

  /** Strictly ascending positions, all of which follow a gap above the threshold. */
  ghost predicate Cuts(ts: seq<real>, cuts: seq<nat>) {
    && (forall k | 0 <= k < |cuts| :: 0 < cuts[k] < |ts| && IsCut(ts, cuts[k]))
    && (forall j, k | 0 <= j < k < |cuts| :: cuts[j] < cuts[k])
  }

  /** No position that follows such a gap is left out. */
  ghost predicate AllCuts(ts: seq<real>, cuts: seq<nat>) {
    forall i: nat | 0 < i < |ts| && IsCut(ts, i) :: i in cuts
  }

  ghost predicate GapsAt(ts: seq<real>, cuts: seq<nat>, idle: seq<real>)
    requires Cuts(ts, cuts)
  {
    |idle| == |cuts| && forall k | 0 <= k < |cuts| :: idle[k] == ts[cuts[k]] - ts[cuts[k] - 1]
  }

  function GapsOf(ts: seq<real>, cuts: seq<nat>): (idle: seq<real>)
    requires Cuts(ts, cuts)
    ensures GapsAt(ts, cuts, idle)
  {
    seq(|cuts|, k requires 0 <= k < |cuts| => ts[cuts[k]] - ts[cuts[k] - 1])
  }

  lemma {:induction false} SameCuts(ts: seq<real>, t: real, i: nat)
    requires i < |ts|
    ensures (ts + [t])[i] == ts[i] && (IsCut(ts + [t], i) <==> IsCut(ts, i))
  {
  }

  lemma {:induction false} CutsStay(ts: seq<real>, t: real, cuts: seq<nat>, idle: seq<real>)
    requires Cuts(ts, cuts) && GapsAt(ts, cuts, idle)
    ensures Cuts(ts + [t], cuts) && GapsAt(ts + [t], cuts, idle)
  {
    forall k | 0 <= k < |cuts|
      ensures IsCut(ts + [t], cuts[k]) && idle[k] == (ts + [t])[cuts[k]] - (ts + [t])[cuts[k] - 1]
    {
      SameCuts(ts, t, cuts[k]);
      SameCuts(ts, t, cuts[k] - 1);
    }
  }

  lemma {:induction false} CutAdded(ts: seq<real>, t: real, cuts: seq<nat>, idle: seq<real>)
    requires ts != [] && Cuts(ts, cuts) && GapsAt(ts, cuts, idle) && t - Last(ts) > THRESHOLD
    ensures Cuts(ts + [t], cuts + [|ts|]) && GapsAt(ts + [t], cuts + [|ts|], idle + [t - Last(ts)])
  {
    CutsStay(ts, t, cuts, idle);
  }

  lemma {:induction false} AllCutsOneMore(ts: seq<real>, t: real, cuts: seq<nat>)
    requires ts != [] && AllCuts(ts, cuts)
    ensures AllCuts(ts + [t], if t - Last(ts) > THRESHOLD then cuts + [|ts|] else cuts)
  {
    var more := if t - Last(ts) > THRESHOLD then cuts + [|ts|] else cuts;
    forall i: nat | 0 < i < |ts| + 1 && IsCut(ts + [t], i)
      ensures i in more
    {
      if i < |ts| {
        SameCuts(ts, t, i);
        assert i in cuts;
      }
    }
  }

  /** Idle times are exactly the packet gaps above the threshold, each of them, in order. */
  lemma {:induction false} IdleAreGapsAtCuts(ts: seq<real>) returns (cuts: seq<nat>)
    ensures Cuts(ts, cuts) && AllCuts(ts, cuts) && GapsAt(ts, cuts, Idle(ts))
    decreases |ts|
  {
    cuts := [];
    if |ts| > 1 {
      var before, t := ts[..|ts| - 1], ts[|ts| - 1];
      cuts := IdleAreGapsAtCuts(before);
      assert before + [t] == ts;
      IdleSnoc(before, t);
      AllCutsOneMore(before, t, cuts);
      if t - Last(before) > THRESHOLD {
        CutAdded(before, t, cuts, Idle(before));
        cuts := cuts + [|before|];
      } else {
        CutsStay(before, t, cuts, Idle(before));
      }
    }
  }

  /** Where the segment that the k-th cut closes began; past the last cut, the open one. */
  function SegmentStart(cuts: seq<nat>, k: nat): nat
    requires k <= |cuts|
  {
    if k == 0 then 0 else cuts[k - 1]
  }

  /** From the first to the last packet of each closed segment. */
  function SegmentLengths(ts: seq<real>, cuts: seq<nat>): (lengths: seq<real>)
    requires Cuts(ts, cuts)
    ensures |lengths| == |cuts|
  {
    seq(|cuts|, k requires 0 <= k < |cuts| => ts[cuts[k] - 1] - ts[SegmentStart(cuts, k)])
  }

  function Positive(xs: seq<real>): seq<real> {
    if xs == [] then []
    else
      var before := Positive(xs[..|xs| - 1]);
      if xs[|xs| - 1] > 0.0 then before + [xs[|xs| - 1]] else before
  }

  lemma {:induction false} PositiveSnoc(xs: seq<real>, x: real)
    ensures Positive(xs + [x]) == if x > 0.0 then Positive(xs) + [x] else Positive(xs)
  {
    assert (xs + [x])[..|xs|] == xs;
  }

  lemma {:induction false} LengthsStay(ts: seq<real>, t: real, cuts: seq<nat>)
    requires Cuts(ts, cuts) && Cuts(ts + [t], cuts)
    ensures SegmentLengths(ts + [t], cuts) == SegmentLengths(ts, cuts)
  {
    forall k | 0 <= k < |cuts|
      ensures SegmentLengths(ts + [t], cuts)[k] == SegmentLengths(ts, cuts)[k]
    {
      SameCuts(ts, t, cuts[k] - 1);
      SameCuts(ts, t, SegmentStart(cuts, k));
    }
  }

  lemma {:induction false} LengthAdded(ts: seq<real>, t: real, cuts: seq<nat>)
    requires ts != [] && Cuts(ts, cuts) && Cuts(ts + [t], cuts + [|ts|])
    ensures SegmentLengths(ts + [t], cuts + [|ts|])
            == SegmentLengths(ts, cuts) + [Last(ts) - ts[SegmentStart(cuts, |cuts|)]]
  {
    var more := cuts + [|ts|];
    forall k | 0 <= k < |cuts|
      ensures SegmentLengths(ts + [t], more)[k] == SegmentLengths(ts, cuts)[k]
    {
      SameCuts(ts, t, cuts[k] - 1);
      SameCuts(ts, t, SegmentStart(cuts, k));
    }
    SameCuts(ts, t, |ts| - 1);
    SameCuts(ts, t, SegmentStart(cuts, |cuts|));
  }

  /** The cuts split the packets into the segments that are active, and the open one. */
  ghost predicate Segmented(ts: seq<real>, cuts: seq<nat>, active: seq<real>, since: real) {
    && ts != [] && Cuts(ts, cuts)
    && active == Positive(SegmentLengths(ts, cuts))
    && SegmentStart(cuts, |cuts|) < |ts| && since == ts[SegmentStart(cuts, |cuts|)]
  }

  lemma {:induction false} SegmentCloses(ts: seq<real>, t: real, cuts: seq<nat>, active: seq<real>, since: real)
    requires Segmented(ts, cuts, active, since) && t - Last(ts) > THRESHOLD
    ensures Segmented(ts + [t], cuts + [|ts|],
                      if Last(ts) - since > 0.0 then active + [Last(ts) - since] else active, t)
  {
    CutAdded(ts, t, cuts, GapsOf(ts, cuts));
    LengthAdded(ts, t, cuts);
    PositiveSnoc(SegmentLengths(ts, cuts), Last(ts) - since);
  }

  lemma {:induction false} SegmentStaysOpen(ts: seq<real>, t: real, cuts: seq<nat>, active: seq<real>, since: real)
    requires Segmented(ts, cuts, active, since)
    ensures Segmented(ts + [t], cuts, active, since)
  {
    CutsStay(ts, t, cuts, GapsOf(ts, cuts));
    LengthsStay(ts, t, cuts);
    SameCuts(ts, t, SegmentStart(cuts, |cuts|));
  }

  /** Active times are exactly the positive lengths of the segments between consecutive cuts, each once, in order. */
  lemma {:induction false} ActiveAreSegmentLengths(ts: seq<real>) returns (cuts: seq<nat>)
    requires ts != []
    ensures AllCuts(ts, cuts) && Segmented(ts, cuts, Active(ts), OpenedAt(ts))
    decreases |ts|
  {
    cuts := [];
    if |ts| > 1 {
      var before, t := ts[..|ts| - 1], ts[|ts| - 1];
      assert before + [t] == ts;
      var earlier := ActiveAreSegmentLengths(before);
      cuts := if t - Last(before) > THRESHOLD then earlier + [|before|] else earlier;
      AllCutsOneMore(before, t, earlier);
      if t - Last(before) > THRESHOLD {
        SegmentsClose(before, t, earlier);
      } else {
        SegmentsStay(before, t, earlier);
      }
    }
  }

  lemma {:induction false} SegmentsClose(ts: seq<real>, t: real, cuts: seq<nat>)
    requires ts != [] && Segmented(ts, cuts, Active(ts), OpenedAt(ts)) && t - Last(ts) > THRESHOLD
    ensures Segmented(ts + [t], cuts + [|ts|], Active(ts + [t]), OpenedAt(ts + [t]))
  {
    ActiveSnoc(ts, t);
    OpenedSnoc(ts, t);
    SegmentCloses(ts, t, cuts, Active(ts), OpenedAt(ts));
  }

  lemma {:induction false} SegmentsStay(ts: seq<real>, t: real, cuts: seq<nat>)
    requires ts != [] && Segmented(ts, cuts, Active(ts), OpenedAt(ts)) && t - Last(ts) <= THRESHOLD
    ensures Segmented(ts + [t], cuts, Active(ts + [t]), OpenedAt(ts + [t]))
  {
    ActiveSnoc(ts, t);
    OpenedSnoc(ts, t);
    SegmentStaysOpen(ts, t, cuts, Active(ts), OpenedAt(ts));
  }

  lemma {:induction false} IdleGapsExceedThreshold(ts: seq<real>)
    ensures forall x | x in Idle(ts) :: x > THRESHOLD
    ensures Idle(ts) == [] <==> forall i | 0 < i < |ts| :: !IsCut(ts, i)
  {
    if |ts| > 1 {
      var before := ts[..|ts| - 1];
      IdleGapsExceedThreshold(before);
      assert forall i | 0 < i < |ts| - 1 :: IsCut(ts, i) <==> IsCut(before, i);
    }
  }

  /** The reported idle minimum is 0 when no gap exceeded the threshold and above the threshold otherwise. */
  lemma {:induction false} ReportedIdle(h: History)
    requires h != []
    ensures var ts, idle := Times(All(h)), Batch(h).idle;
            if forall i | 0 < i < |ts| :: !IsCut(ts, i)
            then idle == IdleStats(0.0, Root(0.0), 0.0, 0.0)
            else THRESHOLD < idle.min <= idle.mean <= idle.max
  {
    var idle := Idle(Times(All(h)));
    IdleGapsExceedThreshold(Times(All(h)));
    if idle != [] {
      MeanBetweenExtremes(idle);
      ExtremesAreAttained(idle);
    }
  }

  /** Total length of the closed segments that Active leaves out. */
  function Dropped(ts: seq<real>): real {
    if |ts| <= 1 then 0.0
    else
      var before := ts[..|ts| - 1];
      var length := Last(before) - OpenedAt(before);
      if IsCut(ts, |ts| - 1) && length <= 0.0 then Dropped(before) + length else Dropped(before)
  }

  /** A closed segment whose last packet is stamped before its first one. */
  ghost predicate RunsBackward(ts: seq<real>, i: nat)
    requires 0 < i < |ts|
  {
    IsCut(ts, i) && ts[i - 1] < OpenedAt(ts[..i])
  }

  /** What one more packet adds to the sums. */
  lemma {:induction false} SumsSnoc(ts: seq<real>, t: real)
    requires ts != []
    ensures var cut, length := t - Last(ts) > THRESHOLD, Last(ts) - OpenedAt(ts);
            && Sum(Active(ts + [t])) == Sum(Active(ts)) + (if cut && length > 0.0 then length else 0.0)
            && Sum(Idle(ts + [t])) == Sum(Idle(ts)) + (if cut then t - Last(ts) else 0.0)
            && Dropped(ts + [t]) == Dropped(ts) + (if cut && length <= 0.0 then length else 0.0)
  {
    ActiveSnoc(ts, t);
    SumSnoc(Active(ts), Last(ts) - OpenedAt(ts));
    IdleSnoc(ts, t);
    SumSnoc(Idle(ts), t - Last(ts));
    assert (ts + [t])[..|ts|] == ts;
  }

  /** Active segments, idle gaps, the open segment and what was left out add up to the whole span, in any time order. */
  lemma {:induction false} SpanIsPartitioned(ts: seq<real>)
    requires ts != []
    ensures Sum(Active(ts)) + Sum(Idle(ts)) + (Last(ts) - OpenedAt(ts)) + Dropped(ts) == Last(ts) - ts[0]
  {
    if |ts| == 1 {
      assert Active(ts) == [] && Idle(ts) == [] && Dropped(ts) == 0.0;
    } else {
      var before, t := ts[..|ts| - 1], Last(ts);
      SpanIsPartitioned(before);
      assert ts == before + [t];
      SumsSnoc(before, t);
      OpenedSnoc(before, t);
    }
  }

  lemma {:induction false} DroppedCountsBackwardSegments(ts: seq<real>)
    ensures Dropped(ts) <= 0.0
    ensures Dropped(ts) == 0.0 <==> forall i | 0 < i < |ts| :: !RunsBackward(ts, i)
  {
    if |ts| > 1 {
      var n := |ts| - 1;
      var before := ts[..n];
      DroppedCountsBackwardSegments(before);
      forall i | 0 < i < n
        ensures RunsBackward(ts, i) <==> RunsBackward(before, i)
      {
        assert before[..i] == ts[..i];
      }
      assert RunsBackward(ts, n) <==> IsCut(ts, n) && Last(before) < OpenedAt(before);
    }
  }

  /**
    Summed active segments, summed idle gaps and the open segment make up the whole span
    exactly when no closed segment runs backward in time.
    */
  lemma {:induction false} ActiveIdlePartition(ts: seq<real>)
    requires ts != []
    ensures Sum(Active(ts)) + Sum(Idle(ts)) + (Last(ts) - OpenedAt(ts)) == Last(ts) - ts[0]
            <==> forall i | 0 < i < |ts| :: !RunsBackward(ts, i)
  {
    SpanIsPartitioned(ts);
    DroppedCountsBackwardSegments(ts);
  }

  lemma {:induction false} OrderedTimePartitions(ts: seq<real>)
    requires ts != [] && Ordered(ts)
    ensures Sum(Active(ts)) + Sum(Idle(ts)) + (Last(ts) - OpenedAt(ts)) == Last(ts) - ts[0]
  {
    forall i | 0 < i < |ts|
      ensures !RunsBackward(ts, i)
    {
      var s := OpenSegmentStartsAtLastCut(ts[..i]);
      assert ts[s] <= ts[i - 1];
    }
    ActiveIdlePartition(ts);
  }
}
