/** What each of the 39 reported numbers says of the flow's packets, by their positions. */
module FlowNumbers {
  import opened Packets
  import opened Statistics
  import opened Rounding
  import opened FlowHistory
  import opened FlowFacts

  /** A number taken of each packet. */
  type Measure = Tagged -> real

  function Total(h: History, f: Measure): real {
    if h == [] then 0.0 else Total(h[..|h| - 1], f) + f(h[|h| - 1])
  }

  function Payload(): Measure {
    (t: Tagged) => t.packet.payloadBytes as real
  }

  function Size(): Measure {
    (t: Tagged) => t.packet.packetSize as real
  }

  function Squared(x: real): real {
    x * x
  }

  /** How far the payload is from m, squared. */
  function PayloadOff(m: real): Measure {
    (t: Tagged) => Squared(t.packet.payloadBytes as real - m)
  }

  /** The measure where the packet has the direction, else nothing. */
  function Within(d: Direction, f: Measure): Measure {
    (t: Tagged) => if t.direction == d then f(t) else 0.0
  }

  lemma {:induction false} TotalSnoc(h: History, t: Tagged, f: Measure)
    ensures Total(h + [t], f) == Total(h, f) + f(t)
  {
    assert (h + [t])[..|h|] == h;
  }

  // ------------------------------------------------------------ packets per second

  ghost function At(h: History, d: Direction): set<nat> {
    set i: nat | i < |h| && h[i].direction == d
  }

  lemma {:induction false} AtOneMore(h: History, t: Tagged, d: Direction)
    ensures |At(h + [t], d)| == |At(h, d)| + if t.direction == d then 1 else 0
  {
    var more := h + [t];
    assert more[|h|] == t && forall i | 0 <= i < |h| :: more[i] == h[i];
    assert At(more, d) == At(h, d) + if t.direction == d then {|h|} else {};
  }

  lemma {:induction false} SideCounts(h: History, d: Direction)
    ensures |Side(h, d)| == |At(h, d)|
  {
    if h == [] {
      assert At(h, d) == {};
    } else {
      var before, t := h[..|h| - 1], h[|h| - 1];
      SideCounts(before, d);
      assert h == before + [t];
      SideSnoc(before, t, d);
      AtOneMore(before, t, d);
    }
  }

  /** The rate times the seconds is the number of packets. */
  ghost predicate RatedOver(rate: real, seconds: real, packets: int) {
    if seconds == 0.0 then rate == 0.0 else rate * seconds == packets as real
  }

  lemma {:induction false} RateTimesSpan(n: int, span: real)
    ensures RatedOver(PacketRate(n, Micros(span)), span, n)
  {
    if span != 0.0 {
      var k := Micros(span) / (1000.0 * 1000.0);
      assert Micros(span) == span * 1000000.0;
      assert k == span;
      DivideBack(n as real, k);
    }
  }

  lemma {:induction false} ReportedRate(h: History)
    requires h != []
    ensures Batch(h).fwdPacketsPerSecond
            == PacketRate(|Side(h, Fwd)|, Micros(Last(h).packet.timestamp - h[0].packet.timestamp))
  {
  }

  /** The forward rate times the seconds from first to last packet is the number of forward packets. */
  lemma {:induction false} ForwardRate(h: History)
    requires h != []
    ensures RatedOver(Batch(h).fwdPacketsPerSecond, Last(h).packet.timestamp - h[0].packet.timestamp,
                      |set i: nat | i < |h| && h[i].direction == Fwd|)
  {
    assert At(h, Fwd) == set i: nat | i < |h| && h[i].direction == Fwd;
    SideCounts(h, Fwd);
    ReportedRate(h);
    RateTimesSpan(|Side(h, Fwd)|, Last(h).packet.timestamp - h[0].packet.timestamp);
  }

  // --------------------------------------------------------- lengths of the packets

  lemma {:induction false} SidePayloads(h: History, d: Direction)
    ensures Sum(Lengths(Side(h, d))) == Total(h, Within(d, Payload()))
  {
    if h != [] {
      var before, t := h[..|h| - 1], h[|h| - 1];
      SidePayloads(before, d);
      assert h == before + [t];
      SideSnoc(before, t, d);
      TotalSnoc(before, t, Within(d, Payload()));
      LengthsSnoc(Side(before, d), t.packet);
      SumSnoc(Lengths(Side(before, d)), t.packet.payloadBytes as real);
    }
  }

  lemma {:induction false} DeviationsSnoc(xs: seq<real>, x: real, m: real)
    ensures SquaredDeviations(xs + [x], m) == SquaredDeviations(xs, m) + Squared(x - m)
  {
    assert (xs + [x])[..|xs|] == xs;
  }

  /** What one packet adds to the squares. */
  lemma {:induction false} OffAt(d: Direction, m: real, t: Tagged)
    ensures Within(d, PayloadOff(m))(t) == if t.direction == d then Squared(t.packet.payloadBytes as real - m) else 0.0
    ensures PayloadOff(m)(t) == Squared(t.packet.payloadBytes as real - m)
  {
  }

  lemma {:induction false} SideSpread(h: History, d: Direction, m: real)
    ensures SquaredDeviations(Lengths(Side(h, d)), m) == Total(h, Within(d, PayloadOff(m)))
  {
    if h != [] {
      var before, t := h[..|h| - 1], h[|h| - 1];
      SideSpread(before, d, m);
      assert h == before + [t];
      SideSnoc(before, t, d);
      TotalSnoc(before, t, Within(d, PayloadOff(m)));
      OffAt(d, m, t);
      LengthsSnoc(Side(before, d), t.packet);
      DeviationsSnoc(Lengths(Side(before, d)), t.packet.payloadBytes as real, m);
    }
  }

  lemma {:induction false} AllPayloads(h: History, m: real)
    ensures Sum(Lengths(All(h))) == Total(h, Payload())
    ensures SquaredDeviations(Lengths(All(h)), m) == Total(h, PayloadOff(m))
  {
    if h != [] {
      var before, t := h[..|h| - 1], h[|h| - 1];
      AllPayloads(before, m);
      assert h == before + [t];
      AllSnoc(before, t);
      TotalSnoc(before, t, Payload());
      TotalSnoc(before, t, PayloadOff(m));
      LengthsSnoc(All(before), t.packet);
      SumSnoc(Lengths(All(before)), t.packet.payloadBytes as real);
      DeviationsSnoc(Lengths(All(before)), t.packet.payloadBytes as real, m);
    }
  }

  lemma {:induction false} AllSizes(h: History)
    ensures Sum(Sizes(All(h))) == Total(h, Size())
  {
    if h != [] {
      var before, t := h[..|h| - 1], h[|h| - 1];
      AllSizes(before);
      assert h == before + [t];
      AllSnoc(before, t);
      TotalSnoc(before, t, Size());
      assert Sizes(All(before) + [t.packet]) == Sizes(All(before)) + [t.packet.packetSize as real];
      SumSnoc(Sizes(All(before)), t.packet.packetSize as real);
    }
  }

  /** n times the mean is the sum. */
  ghost predicate Averages(mean: real, n: int, sum: real) {
    mean * n as real == sum
  }

  /** n numbers with the sum have the mean; the deviation's square is what they are off the mean, over n - 1. */
  ghost predicate Moments(n: int, mean: real, std: Deviation, sum: real, off: real) {
    && (n == 0 ==> mean == 0.0)
    && (n > 0 ==> Averages(mean, n, sum))
    && (n <= 1 ==> std == Root(0.0))
    && (n > 1 ==> Averages(std.square, n - 1, off))
  }

  lemma {:induction false} MomentsOf(xs: seq<real>)
    ensures Moments(|xs|, MeanOrZero(xs), Root(VarianceOrZero(xs)), Sum(xs), SquaredDeviations(xs, MeanOrZero(xs)))
  {
    if xs != [] {
      DivideBack(Sum(xs), |xs| as real);
    }
    if |xs| > 1 {
      DivideBack(SquaredDeviations(xs, Mean(xs)), (|xs| - 1) as real);
    }
  }

  /** All zero without numbers; else the bounds hold and are attained. */
  ghost predicate Extremes(xs: seq<real>, min: real, max: real) {
    && (xs == [] ==> min == max == 0.0)
    && (xs != [] ==> (exists i :: 0 <= i < |xs| && xs[i] == min) && (exists i :: 0 <= i < |xs| && xs[i] == max))
    && forall i | 0 <= i < |xs| :: min <= xs[i] <= max
  }

  lemma {:induction false} ExtremesOf(xs: seq<real>)
    ensures Extremes(xs, MinOrZero(xs), MaxOrZero(xs))
  {
    if xs != [] {
      ExtremesAreAttained(xs);
      assert forall i | 0 <= i < |xs| :: xs[i] in xs;
    }
  }

  /** The payloads of the packets at the positions. */
  function PayloadsAt(h: History, at: seq<nat>): (xs: seq<real>)
    requires forall k | 0 <= k < |at| :: at[k] < |h|
    ensures |xs| == |at|
  {
    seq(|at|, k requires 0 <= k < |at| => h[at[k]].packet.payloadBytes as real)
  }

  /**
    The backward lengths: over the positions of the backward packets minimum and maximum bound the payloads and
    are among them, the mean times their number is the sum of their payloads, and so on for the deviation.
    */
  lemma {:induction false} BackwardLengths(h: History) returns (at: seq<nat>)
    requires h != []
    ensures Positions(h, Bwd, at) && Extremes(PayloadsAt(h, at), Batch(h).bwdLen.min, Batch(h).bwdLen.max)
    ensures Moments(|at|, Batch(h).bwdLen.mean, Batch(h).bwdLen.std, Total(h, Within(Bwd, Payload())),
                    Total(h, Within(Bwd, PayloadOff(Batch(h).bwdLen.mean))))
    ensures Batch(h).avgBwdSegmentSize == Batch(h).bwdLen.mean
  {
    at := SideKeepsOrder(h, Bwd);
    var xs := Lengths(Side(h, Bwd));
    assert PayloadsAt(h, at) == xs;
    ExtremesOf(xs);
    MomentsOf(xs);
    SidePayloads(h, Bwd);
    SideSpread(h, Bwd, MeanOrZero(xs));
  }

  function Payloads(h: History): (xs: seq<real>)
    ensures |xs| == |h|
  {
    seq(|h|, i requires 0 <= i < |h| => h[i].packet.payloadBytes as real)
  }

  /** Of these numbers, one for each packet, `max` is the largest, and mean and deviation are theirs. */
  ghost predicate Describes(s: PacketStats, xs: seq<real>, sum: real, off: real) {
    && xs != [] && (exists i :: 0 <= i < |xs| && xs[i] == s.max) && (forall i | 0 <= i < |xs| :: xs[i] <= s.max)
    && Moments(|xs|, s.mean, s.std, sum, off) && s.std == Root(s.variance)
  }

  lemma {:induction false} LengthsDescribed(ps: seq<PacketInfo>, xs: seq<real>)
    requires ps != [] && xs == Lengths(ps)
    ensures Describes(BatchLengths(ps), xs, Sum(xs), SquaredDeviations(xs, BatchLengths(ps).mean))
  {
    ExtremesOf(xs);
    MomentsOf(xs);
  }

  /** The lengths of all packets, in the same way. */
  lemma {:induction false} PacketLengths(h: History)
    requires h != []
    ensures var s := Batch(h).packetLen;
            Describes(s, Payloads(h), Total(h, Payload()), Total(h, PayloadOff(s.mean)))
  {
    LengthsDescribed(All(h), Payloads(h));
    AllPayloads(h, BatchLengths(All(h)).mean);
  }

  lemma {:induction false} MeanTimesCount(xs: seq<real>)
    requires xs != []
    ensures Averages(MeanOrZero(xs), |xs|, Sum(xs))
  {
    DivideBack(Sum(xs), |xs| as real);
  }

  /** The mean packet size times the number of packets is the sum of their sizes. */
  lemma {:induction false} PacketSizes(h: History)
    requires h != []
    ensures Averages(Batch(h).avgPacketSize, |h|, Total(h, Size()))
  {
    AllSizes(h);
    MeanTimesCount(Sizes(All(h)));
  }

  // ---------------------------------------------------------- gaps between packets

  /** The microseconds from each of the times to the next. */
  function Between(ts: seq<real>): (gaps: seq<real>)
    ensures |gaps| == if ts == [] then 0 else |ts| - 1
  {
    if ts == [] then [] else seq(|ts| - 1, k requires 0 <= k < |ts| - 1 => (ts[k + 1] - ts[k]) * 1000000.0)
  }

  lemma {:induction false} BetweenSnoc(ts: seq<real>, t: real)
    requires ts != []
    ensures Between(ts + [t]) == Between(ts) + [(t - Last(ts)) * 1000000.0]
  {
    var more := ts + [t];
    assert more[|ts| - 1] == Last(ts) && more[|ts|] == t;
    forall k | 0 <= k < |ts| - 1
      ensures Between(more)[k] == Between(ts)[k]
    {
      assert more[k] == ts[k] && more[k + 1] == ts[k + 1];
    }
  }

  lemma {:induction false} MillionMicros(seconds: real)
    ensures Micros(seconds) == seconds * 1000000.0
  {
  }

  lemma {:induction false} GapsAreBetween(ts: seq<real>)
    ensures Gaps(ts) == Between(ts)
  {
    if |ts| > 1 {
      var before, t := ts[..|ts| - 1], ts[|ts| - 1];
      GapsAreBetween(before);
      assert ts == before + [t];
      GapsSnoc(before, t);
      BetweenSnoc(before, t);
      MillionMicros(t - Last(before));
    }
  }

  /** When the packets at the positions came. */
  function TimesAt(h: History, at: seq<nat>): (ts: seq<real>)
    requires forall k | 0 <= k < |at| :: at[k] < |h|
    ensures |ts| == |at|
  {
    seq(|at|, k requires 0 <= k < |at| => h[at[k]].packet.timestamp)
  }

  function Stamps(h: History): (ts: seq<real>)
    ensures |ts| == |h|
  {
    seq(|h|, i requires 0 <= i < |h| => h[i].packet.timestamp)
  }

  /** Smallest and largest gap, rounded: none of the gaps rounds below or above. */
  ghost predicate RoundedExtremes(gaps: seq<real>, min: int, max: int) {
    exists least, most :: Extremes(gaps, least, most) && min == RoundHalfEven(least) && max == RoundHalfEven(most)
  }

  lemma {:induction false} RoundedExtremesOf(gaps: seq<real>)
    ensures RoundedExtremes(gaps, RoundHalfEven(MinOrZero(gaps)), RoundHalfEven(MaxOrZero(gaps)))
  {
    ExtremesOf(gaps);
  }

  /** The numbers reported of the flow's gaps; their mean is stored rounded. */
  ghost predicate DescribesGaps(g: FlowGapStats, gaps: seq<real>, mean: real) {
    && g.mean == RoundHalfEven(mean) && RoundedExtremes(gaps, g.min, g.max)
    && Moments(|gaps|, mean, g.std, Sum(gaps), SquaredDeviations(gaps, mean))
  }

  lemma {:induction false} FlowGapsDescribed(gaps: seq<real>)
    ensures DescribesGaps(BatchFlowGaps(gaps), gaps, MeanOrZero(gaps))
  {
    RoundedExtremesOf(gaps);
    MomentsOf(gaps);
  }

  /** The gaps between consecutive packets, and the duration as what they sum to. */
  lemma {:induction false} FlowGaps(h: History) returns (mean: real)
    requires h != []
    ensures DescribesGaps(Batch(h).flowIat, Between(Stamps(h)), mean)
    ensures Batch(h).flowDuration == RoundHalfEven(Sum(Between(Stamps(h))))
    ensures Sum(Between(Stamps(h))) == (Last(h).packet.timestamp - h[0].packet.timestamp) * 1000000.0
  {
    var ts := Times(All(h));
    assert Stamps(h) == ts;
    GapsAreBetween(ts);
    GapsTelescope(ts);
    mean := MeanOrZero(Gaps(ts));
    FlowGapsDescribed(Gaps(ts));
  }

  /** The numbers reported of one direction's gaps; their total is stored rounded. */
  ghost predicate DescribesSide(g: SideGapStats, gaps: seq<real>) {
    && g.total == RoundHalfEven(Sum(gaps)) && RoundedExtremes(gaps, g.min, g.max)
    && Moments(|gaps|, g.mean, g.std, Sum(gaps), SquaredDeviations(gaps, g.mean))
  }

  lemma {:induction false} SideGapsDescribed(gaps: seq<real>)
    ensures DescribesSide(BatchSideGaps(gaps), gaps)
  {
    RoundedExtremesOf(gaps);
    MomentsOf(gaps);
  }

  /** The gaps between consecutive packets of one direction. */
  lemma {:induction false} SideGaps(h: History, d: Direction) returns (at: seq<nat>)
    requires h != []
    ensures Positions(h, d, at)
    ensures DescribesSide(if d == Fwd then Batch(h).fwdIat else Batch(h).bwdIat, Between(TimesAt(h, at)))
  {
    at := SideKeepsOrder(h, d);
    var ts := Times(Side(h, d));
    assert TimesAt(h, at) == ts;
    GapsAreBetween(ts);
    SideGapsDescribed(Gaps(ts));
  }

  // ------------------------------------------------------------- flags and windows

  /** A flag counts one if some packet of the flow carries it. */
  lemma {:induction false} FlagsBySome(h: History)
    requires h != []
    ensures var f := Batch(h).flags;
            && f.fin == (if exists i :: 0 <= i < |h| && h[i].packet.fin then 1 else 0)
            && f.syn == (if exists i :: 0 <= i < |h| && h[i].packet.syn then 1 else 0)
            && f.psh == (if exists i :: 0 <= i < |h| && h[i].packet.psh then 1 else 0)
            && f.ack == (if exists i :: 0 <= i < |h| && h[i].packet.ack then 1 else 0)
            && f.urg == (if exists i :: 0 <= i < |h| && h[i].packet.urg then 1 else 0)
  {
    forall f: TcpFlag
      ensures Raised(All(h), f) <==> exists i :: 0 <= i < |h| && Carries(h[i].packet, f)
    {
      RaisedBySome(All(h), f);
      assert forall i | 0 <= i < |h| :: All(h)[i] == h[i].packet;
    }
    FlagBits(h);
  }

  lemma {:induction false} FlagBits(h: History)
    requires forall f: TcpFlag :: Raised(All(h), f) <==> exists i :: 0 <= i < |h| && Carries(h[i].packet, f)
    ensures var f := BatchFlags(All(h));
            && f.fin == (if exists i :: 0 <= i < |h| && h[i].packet.fin then 1 else 0)
            && f.syn == (if exists i :: 0 <= i < |h| && h[i].packet.syn then 1 else 0)
            && f.psh == (if exists i :: 0 <= i < |h| && h[i].packet.psh then 1 else 0)
            && f.ack == (if exists i :: 0 <= i < |h| && h[i].packet.ack then 1 else 0)
            && f.urg == (if exists i :: 0 <= i < |h| && h[i].packet.urg then 1 else 0)
  {
    assert forall i | 0 <= i < |h| :: Carries(h[i].packet, FIN) == h[i].packet.fin;
    assert forall i | 0 <= i < |h| :: Carries(h[i].packet, SYN) == h[i].packet.syn;
    assert forall i | 0 <= i < |h| :: Carries(h[i].packet, PSH) == h[i].packet.psh;
    assert forall i | 0 <= i < |h| :: Carries(h[i].packet, ACK) == h[i].packet.ack;
    assert forall i | 0 <= i < |h| :: Carries(h[i].packet, URG) == h[i].packet.urg;
  }

  /** FwdPSHFlags counts one if some forward packet carries URG. */
  lemma {:induction false} ForwardUrgent(h: History)
    requires h != []
    ensures Batch(h).fwdPSHFlags
            == if exists i :: 0 <= i < |h| && h[i].direction == Fwd && h[i].packet.urg then 1 else 0
  {
    var at := SideKeepsOrder(h, Fwd);
    RaisedBySome(Side(h, Fwd), URG);
    if k :| 0 <= k < |at| && Carries(Side(h, Fwd)[k], URG) {
      assert h[at[k]].direction == Fwd && h[at[k]].packet.urg;
    }
    if i :| 0 <= i < |h| && h[i].direction == Fwd && h[i].packet.urg {
      var k :| 0 <= k < |at| && at[k] == i;
      assert Carries(Side(h, Fwd)[k], URG);
    }
  }

  lemma {:induction false} FirstIsLeast(at: seq<nat>, k: nat)
    requires k < |at| && forall i, j | 0 <= i < j < |at| :: at[i] < at[j]
    ensures at[0] <= at[k]
  {
  }

  /** The windows are those of the first packet and of the first backward one, -1 without one. */
  lemma {:induction false} FirstWindows(h: History)
    requires h != []
    ensures Batch(h).initWinBytesFwd == h[0].packet.winBytes
    ensures forall i | 0 <= i < |h| && h[i].direction == Bwd && (forall j | 0 <= j < i :: h[j].direction != Bwd) ::
              Batch(h).initWinBytesBwd == h[i].packet.winBytes
    ensures (forall i | 0 <= i < |h| :: h[i].direction != Bwd) ==> Batch(h).initWinBytesBwd == -1
  {
    var at := SideKeepsOrder(h, Bwd);
    forall i: nat | i < |h| && h[i].direction == Bwd && (forall j | 0 <= j < i :: h[j].direction != Bwd)
      ensures at != [] && at[0] == i
    {
      var k :| 0 <= k < |at| && at[k] == i;
      FirstIsLeast(at, k);
    }
    assert at != [] ==> h[at[0]].direction == Bwd;
  }

  // --------------------------------------------------------- active and idle times

  /** The positions are those that follow a gap of more than five seconds. */
  ghost predicate Breaks(ts: seq<real>, at: seq<nat>) {
    && Cuts(ts, at)
    && forall i: nat | 0 < i < |ts| :: i in at <==> ts[i] - ts[i - 1] > 5.0
  }

  ghost predicate DescribesIdle(s: IdleStats, xs: seq<real>) {
    Extremes(xs, s.min, s.max) && Moments(|xs|, s.mean, s.std, Sum(xs), SquaredDeviations(xs, s.mean))
  }

  lemma {:induction false} CutsAreBreaks(ts: seq<real>, cuts: seq<nat>)
    requires Cuts(ts, cuts) && AllCuts(ts, cuts)
    ensures Breaks(ts, cuts)
  {
    forall i: nat | 0 < i < |ts|
      ensures i in cuts <==> ts[i] - ts[i - 1] > 5.0
    {
      assert IsCut(ts, i) <==> ts[i] - ts[i - 1] > 5.0;
    }
  }

  lemma {:induction false} IdleDescribed(idle: seq<real>)
    ensures DescribesIdle(BatchIdle(idle), idle)
  {
    ExtremesOf(idle);
    MomentsOf(idle);
  }

  /** The idle numbers are those of the silences before the breaks. */
  lemma {:induction false} IdleTimes(h: History) returns (at: seq<nat>)
    requires h != []
    ensures Breaks(Stamps(h), at) && DescribesIdle(Batch(h).idle, GapsOf(Stamps(h), at))
  {
    var ts := Stamps(h);
    assert ts == Times(All(h));
    at := IdleAreGapsAtCuts(ts);
    CutsAreBreaks(ts, at);
    assert GapsOf(ts, at) == Idle(ts);
    IdleDescribed(Idle(ts));
  }

  /** The least of the positive numbers, 0 if none is. */
  ghost predicate LeastPositive(x: real, xs: seq<real>) {
    if forall k | 0 <= k < |xs| :: xs[k] <= 0.0 then x == 0.0
    else x > 0.0 && (exists k :: 0 <= k < |xs| && xs[k] == x) && forall k | 0 <= k < |xs| && xs[k] > 0.0 :: x <= xs[k]
  }

  lemma {:induction false} PositiveAre(xs: seq<real>, x: real)
    ensures x in Positive(xs) <==> x in xs && x > 0.0
  {
    if xs != [] {
      PositiveAre(xs[..|xs| - 1], x);
      assert xs == xs[..|xs| - 1] + [xs[|xs| - 1]];
    }
  }

  lemma {:induction false} MinIsLeastPositive(xs: seq<real>)
    ensures LeastPositive(MinOrZero(Positive(xs)), xs)
  {
    forall k | 0 <= k < |xs| && xs[k] > 0.0
      ensures xs[k] in Positive(xs)
    {
      PositiveAre(xs, xs[k]);
    }
    if Positive(xs) != [] {
      ExtremesAreAttained(Positive(xs));
      PositiveAre(xs, Min(Positive(xs)));
    }
  }

  /** The active minimum is the shortest of the segments between breaks that has a length. */
  lemma {:induction false} ActiveTimes(h: History) returns (at: seq<nat>)
    requires h != []
    ensures Breaks(Stamps(h), at) && LeastPositive(Batch(h).activeMin, SegmentLengths(Stamps(h), at))
  {
    var ts := Stamps(h);
    assert ts == Times(All(h));
    at := ActiveAreSegmentLengths(ts);
    CutsAreBreaks(ts, at);
    MinIsLeastPositive(SegmentLengths(ts, at));
  }
}
