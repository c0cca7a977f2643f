/**
  What a flow has seen, and the feature row as a plain function of it.

  Nothing here accumulates: every feature is stated over the whole direction-tagged packet history.
  */
module FlowHistory {
  import opened Packets
  import opened Statistics
  import opened Rounding

  datatype Direction = Fwd | Bwd

  datatype Tagged = Tagged(packet: PacketInfo, direction: Direction)

  type History = seq<Tagged>

  /** An idle gap is one of more than this many seconds. */
  const THRESHOLD := 5.0

  /** A reported standard deviation: the non-negative root of `square`. */
  datatype Deviation = Root(square: real)

  datatype LengthStats = LengthStats(max: real, min: real, mean: real, std: Deviation)

  datatype PacketStats = PacketStats(max: real, mean: real, std: Deviation, variance: real)

  /** Inter-arrival statistics of the whole flow; mean, maximum and minimum are stored rounded. */
  datatype FlowGapStats = FlowGapStats(mean: int, std: Deviation, max: int, min: int)

  /** Inter-arrival statistics of one direction; total, maximum and minimum are stored rounded, the mean is not. */
  datatype SideGapStats = SideGapStats(total: int, mean: real, std: Deviation, max: int, min: int)

  datatype FlagCounts = FlagCounts(fin: int, syn: int, psh: int, ack: int, urg: int)

  datatype IdleStats = IdleStats(mean: real, std: Deviation, max: real, min: real)

  /** The 39 numbers a terminated flow reports; read left to right they are in the order it reports them. */
  datatype FeatureRow = FeatureRow(
    flowDuration: int,
    bwdLen: LengthStats,
    flowIat: FlowGapStats,
    fwdIat: SideGapStats,
    bwdIat: SideGapStats,
    fwdPSHFlags: int,
    fwdPacketsPerSecond: real,
    packetLen: PacketStats,
    flags: FlagCounts,
    avgPacketSize: real,
    avgBwdSegmentSize: real,
    initWinBytesFwd: int,
    initWinBytesBwd: int,
    activeMin: real,
    idle: IdleStats)

  // ------------------------------------------------------- views of a history

  function All(h: History): (ps: seq<PacketInfo>)
    ensures |ps| == |h|
  {
    seq(|h|, i requires 0 <= i < |h| => h[i].packet)
  }

  /** The packets of one direction, in order. */
  function Side(h: History, d: Direction): seq<PacketInfo> {
    if h == [] then []
    else
      var before := Side(h[..|h| - 1], d);
      if h[|h| - 1].direction == d then before + [h[|h| - 1].packet] else before
  }

  function Last<T>(s: seq<T>): T
    requires s != []
  {
    s[|s| - 1]
  }

  function Times(ps: seq<PacketInfo>): (ts: seq<real>)
    ensures |ts| == |ps|
  {
    seq(|ps|, i requires 0 <= i < |ps| => ps[i].timestamp)
  }

  function Lengths(ps: seq<PacketInfo>): (xs: seq<real>)
    ensures |xs| == |ps|
  {
    seq(|ps|, i requires 0 <= i < |ps| => ps[i].payloadBytes as real)
  }

  function Sizes(ps: seq<PacketInfo>): (xs: seq<real>)
    ensures |xs| == |ps|
  {
    seq(|ps|, i requires 0 <= i < |ps| => ps[i].packetSize as real)
  }

  function Micros(seconds: real): real {
    seconds * 1000.0 * 1000.0
  }

  /** Inter-arrival times in microseconds. */
  function Gaps(ts: seq<real>): (gs: seq<real>)
    ensures |gs| == if ts == [] then 0 else |ts| - 1
  {
    if |ts| <= 1 then [] else Gaps(ts[..|ts| - 1]) + [Micros(ts[|ts| - 1] - ts[|ts| - 2])]
  }

  // ------------------------------------------------------ active and idle time

  /** Position i opens a new active segment: it follows a gap of more than THRESHOLD seconds. */
  predicate IsCut(ts: seq<real>, i: nat)
    requires i < |ts|
  {
    i > 0 && ts[i] - ts[i - 1] > THRESHOLD
  }

  /** When the segment still open at the end began. */
  function OpenedAt(ts: seq<real>): real
    requires ts != []
  {
    if |ts| == 1 then ts[0]
    else if IsCut(ts, |ts| - 1) then ts[|ts| - 1]
    else OpenedAt(ts[..|ts| - 1])
  }

  /** The gaps above the threshold, in seconds. */
  function Idle(ts: seq<real>): seq<real> {
    if |ts| <= 1 then []
    else
      var before := ts[..|ts| - 1];
      if IsCut(ts, |ts| - 1) then Idle(before) + [ts[|ts| - 1] - ts[|ts| - 2]] else Idle(before)
  }

  /** Lengths of the segments that a cut has closed; only positive ones are kept. */
  function Active(ts: seq<real>): seq<real> {
    if |ts| <= 1 then []
    else
      var before := ts[..|ts| - 1];
      var length := Last(before) - OpenedAt(before);
      if IsCut(ts, |ts| - 1) && length > 0.0 then Active(before) + [length] else Active(before)
  }

  // ------------------------------------------------------------------- features

  datatype TcpFlag = FIN | SYN | PSH | ACK | URG

  predicate Carries(p: PacketInfo, f: TcpFlag) {
    match f
    case FIN => p.fin
    case SYN => p.syn
    case PSH => p.psh
    case ACK => p.ack
    case URG => p.urg
  }

  /** Some packet carries the flag. */
  predicate Raised(ps: seq<PacketInfo>, f: TcpFlag) {
    ps != [] && (Raised(ps[..|ps| - 1], f) || Carries(ps[|ps| - 1], f))
  }

  lemma {:induction false} RaisedBySome(ps: seq<PacketInfo>, f: TcpFlag)
    ensures Raised(ps, f) <==> exists i :: 0 <= i < |ps| && Carries(ps[i], f)
  {
    if ps != [] {
      RaisedBySome(ps[..|ps| - 1], f);
    }
  }

  function Bit(b: bool): int {
    if b then 1 else 0
  }

  function PacketRate(packets: int, duration: real): real {
    if duration == 0.0 then 0.0
    else
      assert duration / (1000.0 * 1000.0) != 0.0;
      packets as real / (duration / (1000.0 * 1000.0))
  }

  function BatchFlowGaps(gaps: seq<real>): FlowGapStats {
    FlowGapStats(RoundHalfEven(MeanOrZero(gaps)), Root(VarianceOrZero(gaps)),
                 RoundHalfEven(MaxOrZero(gaps)), RoundHalfEven(MinOrZero(gaps)))
  }

  function BatchSideGaps(gaps: seq<real>): SideGapStats {
    SideGapStats(RoundHalfEven(Sum(gaps)), MeanOrZero(gaps), Root(VarianceOrZero(gaps)),
                 RoundHalfEven(MaxOrZero(gaps)), RoundHalfEven(MinOrZero(gaps)))
  }

  function BatchFlags(ps: seq<PacketInfo>): FlagCounts {
    FlagCounts(Bit(Raised(ps, FIN)), Bit(Raised(ps, SYN)), Bit(Raised(ps, PSH)), Bit(Raised(ps, ACK)),
               Bit(Raised(ps, URG)))
  }

  function BatchBackward(bs: seq<PacketInfo>): LengthStats {
    var lens := Lengths(bs);
    LengthStats(MaxOrZero(lens), MinOrZero(lens), MeanOrZero(lens), Root(VarianceOrZero(lens)))
  }

  function BatchLengths(ps: seq<PacketInfo>): PacketStats {
    var lens := Lengths(ps);
    PacketStats(MaxOrZero(lens), MeanOrZero(lens), Root(VarianceOrZero(lens)), VarianceOrZero(lens))
  }

  function BatchIdle(idle: seq<real>): IdleStats {
    IdleStats(MeanOrZero(idle), Root(VarianceOrZero(idle)), MaxOrZero(idle), MinOrZero(idle))
  }

  function Duration(ps: seq<PacketInfo>): real
    requires ps != []
  {
    Micros(Last(ps).timestamp - ps[0].timestamp)
  }

  /**
    The feature row of a packet history, given as all, forward and backward packets. FwdPSHFlags is the
    URG bit of the forward packets: the shipped model was trained against it, so the code keeps it.
    */
  function BatchLists(ps: seq<PacketInfo>, fs: seq<PacketInfo>, bs: seq<PacketInfo>): FeatureRow
    requires ps != []
  {
    FeatureRow(
      RoundHalfEven(Duration(ps)),
      BatchBackward(bs),
      BatchFlowGaps(Gaps(Times(ps))),
      BatchSideGaps(Gaps(Times(fs))),
      BatchSideGaps(Gaps(Times(bs))),
      Bit(Raised(fs, URG)),
      PacketRate(|fs|, Duration(ps)),
      BatchLengths(ps),
      BatchFlags(ps),
      MeanOrZero(Sizes(ps)),
      MeanOrZero(Lengths(bs)),
      ps[0].winBytes,
      if bs == [] then -1 else bs[0].winBytes,
      MinOrZero(Active(Times(ps))),
      BatchIdle(Idle(Times(ps))))
  }

  function Batch(h: History): FeatureRow
    requires h != []
  {
    BatchLists(All(h), Side(h, Fwd), Side(h, Bwd))
  }

  // --------------------------------------------------- one more packet arrives

  lemma {:induction false} AllSnoc(h: History, t: Tagged)
    ensures All(h + [t]) == All(h) + [t.packet]
  {
  }

  lemma {:induction false} RaisedSnoc(ps: seq<PacketInfo>, p: PacketInfo, f: TcpFlag)
    ensures Raised(ps + [p], f) <==> Raised(ps, f) || Carries(p, f)
  {
    assert (ps + [p])[..|ps|] == ps;
  }

  lemma {:induction false} TimesSnoc(ps: seq<PacketInfo>, p: PacketInfo)
    ensures Times(ps + [p]) == Times(ps) + [p.timestamp]
  {
  }

  lemma {:induction false} LengthsSnoc(ps: seq<PacketInfo>, p: PacketInfo)
    ensures Lengths(ps + [p]) == Lengths(ps) + [p.payloadBytes as real]
  {
  }

  lemma {:induction false} SideSnoc(h: History, t: Tagged, d: Direction)
    ensures Side(h + [t], d) == if t.direction == d then Side(h, d) + [t.packet] else Side(h, d)
  {
    assert (h + [t])[..|h|] == h;
  }

  lemma {:induction false} GapsSnoc(ts: seq<real>, t: real)
    requires ts != []
    ensures Gaps(ts + [t]) == Gaps(ts) + [Micros(t - Last(ts))]
  {
    assert (ts + [t])[..|ts|] == ts;
  }

  lemma {:induction false} OpenedSnoc(ts: seq<real>, t: real)
    requires ts != []
    ensures OpenedAt(ts + [t]) == if t - Last(ts) > THRESHOLD then t else OpenedAt(ts)
  {
    assert (ts + [t])[..|ts|] == ts;
  }

  lemma {:induction false} IdleSnoc(ts: seq<real>, t: real)
    requires ts != []
    ensures Idle(ts + [t]) == if t - Last(ts) > THRESHOLD then Idle(ts) + [t - Last(ts)] else Idle(ts)
  {
    assert (ts + [t])[..|ts|] == ts;
  }

  lemma {:induction false} ActiveSnoc(ts: seq<real>, t: real)
    requires ts != []
    ensures Active(ts + [t])
            == if t - Last(ts) > THRESHOLD && Last(ts) - OpenedAt(ts) > 0.0 then Active(ts) + [Last(ts) - OpenedAt(ts)]
               else Active(ts)
  {
    assert (ts + [t])[..|ts|] == ts;
  }

  /** The views of a history of one forward packet. */
  lemma {:induction false} FirstPacket(p: PacketInfo)
    ensures var h := [Tagged(p, Fwd)];
            && All(h) == Side(h, Fwd) == [p]
            && Side(h, Bwd) == []
            && Times([p]) == [p.timestamp] && Lengths([p]) == [p.payloadBytes as real]
  {
    var h := [Tagged(p, Fwd)];
    assert h[..0] == [];
    assert Side(h, Bwd) == Side(h[..0], Bwd);
  }

  lemma {:induction false} RaisedByOne(p: PacketInfo, f: TcpFlag)
    ensures Raised([p], f) <==> Carries(p, f)
  {
    RaisedSnoc([], p, f);
    assert [] + [p] == [p];
  }
}
