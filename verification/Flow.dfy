/** The incremental flow accumulator, proved to report the feature row of the packets it was fed. */
module FlowAccumulator {
  import opened Packets
  import opened Statistics
  import opened Rounding
  import opened FlowHistory

  /** The feature record before any packet: all zero, window sizes -1. */
  const INITIAL_ROW := FeatureRow(
    0,
    LengthStats(0.0, 0.0, 0.0, Root(0.0)),
    FlowGapStats(0, Root(0.0), 0, 0),
    SideGapStats(0, 0.0, Root(0.0), 0, 0),
    SideGapStats(0, 0.0, Root(0.0), 0, 0),
    0,
    0.0,
    PacketStats(0.0, 0.0, Root(0.0), 0.0),
    FlagCounts(0, 0, 0, 0, 0),
    0.0,
    0.0,
    -1,
    -1,
    0.0,
    IdleStats(0.0, Root(0.0), 0.0, 0.0))

  /** The features kept current with every packet have their batch values. */
  ghost predicate Streamed(row: FeatureRow, ps: seq<PacketInfo>, fs: seq<PacketInfo>, bs: seq<PacketInfo>)
    requires ps != []
  {
    && row.bwdLen.max == MaxOrZero(Lengths(bs))
    && row.bwdLen.min == MinOrZero(Lengths(bs))
    && row.initWinBytesFwd == ps[0].winBytes
    && row.initWinBytesBwd == (if bs == [] then -1 else bs[0].winBytes)
    && row.packetLen.max == MaxOrZero(Lengths(ps))
    && row.fwdPSHFlags == Bit(Raised(fs, URG))
    && row.flags == BatchFlags(ps)
  }

  /**
    The features that Terminated writes only once their list has entries are still 0 before that.
    The lists are known by their lengths: all, forward and backward packets, active segments, idle gaps.
    */
  ghost predicate Untouched(row: FeatureRow, all: nat, fwd: nat, bwd: nat, active: nat, idle: nat) {
    && (bwd == 0 ==> row.bwdLen.mean == 0.0 && row.avgBwdSegmentSize == 0.0)
    && (bwd <= 1 ==> row.bwdLen.std == Root(0.0))
    && GapsUntouched(row.flowIat, all)
    && SideUntouched(row.fwdIat, fwd)
    && SideUntouched(row.bwdIat, bwd)
    && (all <= 1 ==> row.packetLen.std == Root(0.0) && row.packetLen.variance == 0.0)
    && (active == 0 ==> row.activeMin == 0.0)
    && (idle == 0 ==> row.idle.mean == 0.0 && row.idle.max == 0.0 && row.idle.min == 0.0)
    && (idle <= 1 ==> row.idle.std == Root(0.0))
  }

  /** Two rows agree on everything that Terminated writes. */
  ghost predicate SameReport(r: FeatureRow, s: FeatureRow) {
    && r.bwdLen.mean == s.bwdLen.mean && r.bwdLen.std == s.bwdLen.std && r.avgBwdSegmentSize == s.avgBwdSegmentSize
    && r.flowIat == s.flowIat && r.fwdIat == s.fwdIat && r.bwdIat == s.bwdIat
    && r.packetLen.std == s.packetLen.std && r.packetLen.variance == s.packetLen.variance
    && r.activeMin == s.activeMin && r.idle == s.idle
  }

  ghost predicate GapsUntouched(g: FlowGapStats, packets: nat) {
    && (packets <= 1 ==> g.mean == 0 && g.max == 0 && g.min == 0)
    && (packets <= 2 ==> g.std == Root(0.0))
  }

  ghost predicate SideUntouched(g: SideGapStats, packets: nat) {
    && (packets <= 1 ==> g.total == 0 && g.mean == 0.0 && g.max == 0 && g.min == 0)
    && (packets <= 2 ==> g.std == Root(0.0))
  }

  /** packetInfos, fwdPacketInfos, bwdPacketInfos and their counters. */
  datatype PacketLists = PacketLists(all: seq<PacketInfo>, fwd: seq<PacketInfo>, bwd: seq<PacketInfo>,
                                     count: int, fwdCount: int, bwdCount: int)

  datatype Clock = Clock(flowLastSeen: real, fwdLastSeen: real, bwdLastSeen: real,
                         flowStartTime: real, startActiveTime: real, endActiveTime: real)

  /** flowIAT, fwdIAT, bwdIAT, flowActive, flowIdle. */
  datatype GapLists = GapLists(flow: seq<real>, fwd: seq<real>, bwd: seq<real>, active: seq<real>, idle: seq<real>)

  /** The fields of a flow agree with the history it was given. */
  ghost predicate Consistent(f: FeatureRow, p: PacketLists, c: Clock, g: GapLists, h: History) {
    && h != []
    && ListsFollow(p, h)
    && ClockFollows(c, p)
    && GapsFollow(g, p)
    && Streamed(f, p.all, p.fwd, p.bwd)
    && Untouched(f, |p.all|, |p.fwd|, |p.bwd|, |g.active|, |g.idle|)
  }

  ghost predicate ListsFollow(p: PacketLists, h: History) {
    && p.all == All(h) && p.count == |p.all|
    && p.fwd == Side(h, Fwd) && p.fwdCount == |p.fwd|
    && p.bwd == Side(h, Bwd) && p.bwdCount == |p.bwd|
    && p.all != [] && p.fwd != []
  }

  ghost predicate ClockFollows(c: Clock, p: PacketLists)
    requires p.all != [] && p.fwd != []
  {
    && c.flowLastSeen == c.endActiveTime == Last(p.all).timestamp
    && c.flowStartTime == p.all[0].timestamp
    && c.startActiveTime == OpenedAt(Times(p.all))
    && c.fwdLastSeen == Last(p.fwd).timestamp
    && (p.bwd != [] ==> c.bwdLastSeen == Last(p.bwd).timestamp)
  }

  ghost predicate GapsFollow(g: GapLists, p: PacketLists) {
    && g.flow == Gaps(Times(p.all))
    && g.fwd == Gaps(Times(p.fwd))
    && g.bwd == Gaps(Times(p.bwd))
    && g.active == Active(Times(p.all))
    && g.idle == Idle(Times(p.all))
  }

  /** The fields of the source's Flow, grouped into four records that its methods overwrite. */
  class Flow {
    var features: FeatureRow
    var packets: PacketLists
    var clock: Clock
    var gaps: GapLists

    /** Every packet this flow was given, tagged with its direction. */
    ghost var history: History

    ghost predicate Valid()
      reads this
    {
      Consistent(features, packets, clock, gaps, history)
    }

    constructor (packet: PacketInfo)
      ensures Valid()
      ensures history == [Tagged(packet, Fwd)]
    {
      features := INITIAL_ROW.(
        fwdPSHFlags := Bit(packet.urg),
        packetLen := PacketStats(packet.payloadBytes as real, packet.payloadBytes as real, Root(0.0), 0.0),
        flags := FlagCounts(Bit(packet.fin), Bit(packet.syn), Bit(packet.psh), Bit(packet.ack), Bit(packet.urg)),
        avgPacketSize := packet.packetSize as real,
        initWinBytesFwd := packet.winBytes);
      packets := PacketLists([packet], [packet], [], 1, 1, 0);
      clock := Clock(packet.timestamp, packet.timestamp, 0.0, packet.timestamp, packet.timestamp, packet.timestamp);
      gaps := GapLists([], [], [], [], []);
      history := [Tagged(packet, Fwd)];
      FirstPacket(packet);
      FirstFlags(packet);
    }

    function GetFlowLastSeen(): real
      reads this
    {
      clock.flowLastSeen
    }

    lemma {:induction false} LastSeenIsLast()
      requires Valid()
      ensures history != [] && GetFlowLastSeen() == Last(history).packet.timestamp
    {
      ClockShowsLast(clock, packets, history);
    }

    /** One more packet. */
    method New(packetInfo: PacketInfo, direction: Direction)
      requires Valid()
      modifies this
      ensures Valid()
      ensures history == old(history) + [Tagged(packetInfo, direction)]
    {
      var f, p, c, g := Absorb(features, packets, clock, gaps, history, packetInfo, direction);
      features, packets, clock, gaps, history := f, p, c, g, history + [Tagged(packetInfo, direction)];
    }

    /** The feature row of the whole history. It changes no history, so asking twice gives the same row. */
    method Terminated() returns (row: FeatureRow)
      requires Valid()
      modifies this`features
      ensures Valid()
      ensures row == Batch(history)
    {
      features := Report(features, packets, clock, gaps);
      BatchIsConsistent(packets, gaps);
      row := features;
    }
  }

  lemma {:induction false} ClockShowsLast(c: Clock, p: PacketLists, h: History)
    requires h != [] && ListsFollow(p, h) && ClockFollows(c, p)
    ensures c.flowLastSeen == Last(h).packet.timestamp
  {
  }

  function WithPacket(p: PacketLists, packetInfo: PacketInfo, direction: Direction): PacketLists {
    PacketLists(p.all + [packetInfo],
                if direction == Fwd then p.fwd + [packetInfo] else p.fwd,
                if direction == Bwd then p.bwd + [packetInfo] else p.bwd,
                p.count + 1,
                if direction == Fwd then p.fwdCount + 1 else p.fwdCount,
                if direction == Bwd then p.bwdCount + 1 else p.bwdCount)
  }

  // -------------------------- the work of New, one record of the flow at a time

  method Absorb(f0: FeatureRow, p0: PacketLists, c0: Clock, g0: GapLists, ghost h: History,
                packetInfo: PacketInfo, direction: Direction)
    returns (f: FeatureRow, p: PacketLists, c: Clock, g: GapLists)
    requires Consistent(f0, p0, c0, g0, h)
    ensures Consistent(f, p, c, g, h + [Tagged(packetInfo, direction)])
  {
    f := AbsorbFeatures(f0, p0, packetInfo, direction);
    g := AbsorbGaps(g0, p0, c0, packetInfo, direction);
    c := AbsorbClock(c0, p0, packetInfo, direction);
    p := AbsorbPacket(p0, packetInfo, direction);
    ListsStillFollow(p0, h, packetInfo, direction);
    StillUntouched(f0, p0, g0, f, p, g);
  }

  lemma {:induction false} ListsStillFollow(p: PacketLists, h: History, packetInfo: PacketInfo, direction: Direction)
    requires ListsFollow(p, h)
    ensures ListsFollow(WithPacket(p, packetInfo, direction), h + [Tagged(packetInfo, direction)])
  {
    ViewsSnoc(h, Tagged(packetInfo, direction));
  }

  lemma {:induction false} StillUntouched(f0: FeatureRow, p0: PacketLists, g0: GapLists, f: FeatureRow,
      p: PacketLists, g: GapLists)
    requires Untouched(f0, |p0.all|, |p0.fwd|, |p0.bwd|, |g0.active|, |g0.idle|)
    requires SameReport(f0, f)
    requires |p0.all| <= |p.all| && |p0.fwd| <= |p.fwd| && |p0.bwd| <= |p.bwd|
    requires |g0.active| <= |g.active| && |g0.idle| <= |g.idle|
    ensures Untouched(f, |p.all|, |p.fwd|, |p.bwd|, |g.active|, |g.idle|)
  {
  }

  method AbsorbPacket(p0: PacketLists, packetInfo: PacketInfo, direction: Direction) returns (p: PacketLists)
    ensures p == WithPacket(p0, packetInfo, direction)
  {
    p := p0;
    if direction == Bwd {
      p := p.(bwd := p.bwd + [packetInfo]);
      p := p.(bwdCount := p.bwdCount + 1);
    } else {
      p := p.(fwd := p.fwd + [packetInfo]);
      p := p.(fwdCount := p.fwdCount + 1);
    }
    p := p.(count := p.count + 1);
    p := p.(all := p.all + [packetInfo]);
  }

  method AbsorbClock(c0: Clock, p: PacketLists, packetInfo: PacketInfo, direction: Direction) returns (c: Clock)
    requires p.all != [] && p.fwd != [] && ClockFollows(c0, p)
    ensures ClockFollows(c, WithPacket(p, packetInfo, direction))
  {
    var time := packetInfo.timestamp;
    TimesGapsSnoc(p.all, packetInfo);
    OpenedSnoc(Times(p.all), time);
    c := c0;
    if direction == Bwd {
      c := c.(bwdLastSeen := time);
    } else {
      c := c.(fwdLastSeen := time);
    }
    if time - c.endActiveTime > THRESHOLD {
      c := c.(startActiveTime := time);
      c := c.(endActiveTime := time);
    } else {
      c := c.(endActiveTime := time);
    }
    c := c.(flowLastSeen := time);
  }

  method AbsorbGaps(g0: GapLists, p: PacketLists, c: Clock, packetInfo: PacketInfo,
      direction: Direction) returns (g: GapLists)
    requires p.all != [] && p.fwd != [] && p.bwdCount == |p.bwd| && ClockFollows(c, p) && GapsFollow(g0, p)
    ensures GapsFollow(g, WithPacket(p, packetInfo, direction))
    ensures |g.active| >= |g0.active| && |g.idle| >= |g0.idle|
  {
    var fwd, bwd := g0.fwd, g0.bwd;
    if direction == Bwd {
      if p.bwdCount == 0 {
        assert Gaps(Times([packetInfo])) == [];
        assert p.bwd + [packetInfo] == [packetInfo];
      } else {
        bwd := AppendGap(bwd, p.bwd, c.bwdLastSeen, packetInfo);
      }
    } else {
      fwd := AppendGap(fwd, p.fwd, c.fwdLastSeen, packetInfo);
    }
    var active, idle := AbsorbActivity(g0.active, g0.idle, c, Times(p.all), packetInfo.timestamp);
    var flow := AppendGap(g0.flow, p.all, c.flowLastSeen, packetInfo);
    TimesSnoc(p.all, packetInfo);
    g := GapLists(flow, fwd, bwd, active, idle);
  }

  /** The time since the last packet of a list, in microseconds, joins its gaps. */
  method AppendGap(gaps: seq<real>, ghost ps: seq<PacketInfo>, lastSeen: real, p: PacketInfo) returns (gaps': seq<real>)
    requires ps != [] && gaps == Gaps(Times(ps)) && lastSeen == Last(ps).timestamp
    ensures gaps' == Gaps(Times(ps + [p]))
  {
    TimesGapsSnoc(ps, p);
    gaps' := gaps + [Micros(p.timestamp - lastSeen)];
  }

  /** A gap above the threshold records the idle time and closes the active segment. */
  method AbsorbActivity(active: seq<real>, idle: seq<real>, c: Clock, ghost ts: seq<real>, time: real)
    returns (active': seq<real>, idle': seq<real>)
    requires ts != [] && c.endActiveTime == Last(ts) && c.startActiveTime == OpenedAt(ts)
    requires active == Active(ts) && idle == Idle(ts)
    ensures active' == Active(ts + [time]) && idle' == Idle(ts + [time])
    ensures |active'| >= |active| && |idle'| >= |idle|
  {
    IdleSnoc(ts, time);
    ActiveSnoc(ts, time);
    active', idle' := active, idle;
    if time - c.endActiveTime > THRESHOLD {
      if c.endActiveTime - c.startActiveTime > 0.0 {
        active' := active' + [c.endActiveTime - c.startActiveTime];
      }
      idle' := idle' + [time - c.endActiveTime];
    }
  }

  /** Everything the row tracks packet by packet; what Terminated will write is left alone. */
  method AbsorbFeatures(f0: FeatureRow, p: PacketLists, packetInfo: PacketInfo,
      direction: Direction) returns (f: FeatureRow)
    requires p.all != [] && p.bwdCount == |p.bwd| && Streamed(f0, p.all, p.fwd, p.bwd)
    ensures var q := WithPacket(p, packetInfo, direction); Streamed(f, q.all, q.fwd, q.bwd)
    ensures SameReport(f0, f)
  {
    f := f0;
    if direction == Bwd {
      var b := TrackBackward(f.bwdLen, p.bwd, p.bwdCount, packetInfo);
      f := f.(bwdLen := b);
      if p.bwdCount == 0 {
        f := f.(initWinBytesBwd := packetInfo.winBytes);
      }
    } else {
      RaisedSnoc(p.fwd, packetInfo, URG);
      f := f.(fwdPSHFlags := if Bit(packetInfo.urg) > f.fwdPSHFlags then Bit(packetInfo.urg) else f.fwdPSHFlags);
    }
    LongestSnoc(p.all, packetInfo);
    f := f.(packetLen := f.packetLen.(max := Larger(f.packetLen.max, packetInfo.payloadBytes as real)));
    var flags := RaiseFlags(f.flags, p.all, packetInfo);
    f := f.(flags := flags);
  }

  /** The first backward packet sets both extremes, later ones move them. */
  method TrackBackward(before: LengthStats, bs: seq<PacketInfo>, count: int, p: PacketInfo) returns (s: LengthStats)
    requires count == |bs|
    requires before.max == MaxOrZero(Lengths(bs)) && before.min == MinOrZero(Lengths(bs))
    ensures s == before.(max := MaxOrZero(Lengths(bs + [p])), min := MinOrZero(Lengths(bs + [p])))
  {
    var len := p.payloadBytes as real;
    ExtremesSnoc(bs, p);
    s := before;
    if count == 0 {
      s := s.(max := len);
      s := s.(min := len);
    } else {
      s := s.(max := Larger(s.max, len));
      s := s.(min := Smaller(s.min, len));
    }
  }

  method RaiseFlags(raised: FlagCounts, ghost ps: seq<PacketInfo>, p: PacketInfo) returns (flags: FlagCounts)
    requires raised == BatchFlags(ps)
    ensures flags == BatchFlags(ps + [p])
  {
    flags := raised;
    if p.fin {
      flags := flags.(fin := 1);
    }
    if p.syn {
      flags := flags.(syn := 1);
    }
    if p.psh {
      flags := flags.(psh := 1);
    }
    if p.ack {
      flags := flags.(ack := 1);
    }
    if p.urg {
      flags := flags.(urg := 1);
    }
    FlagsSnoc(ps, p);
  }

  // ----------------------------------------- the work of Terminated, block by block

  method Report(f: FeatureRow, p: PacketLists, c: Clock, g: GapLists) returns (row: FeatureRow)
    requires p.all != [] && p.fwd != [] && p.count == |p.all| && p.fwdCount == |p.fwd| && p.bwdCount == |p.bwd|
    requires ClockFollows(c, p) && GapsFollow(g, p)
    requires Streamed(f, p.all, p.fwd, p.bwd)
    requires Untouched(f, |p.all|, |p.fwd|, |p.bwd|, |g.active|, |g.idle|)
    ensures row == BatchLists(p.all, p.fwd, p.bwd)
  {
    row := f;
    var duration := Micros(c.flowLastSeen - c.flowStartTime);
    row := row.(flowDuration := RoundHalfEven(duration));
    var bwdLen := ReportBackwardLengths(f.bwdLen, p.bwd);
    row := row.(bwdLen := bwdLen);
    var flowIat := ReportFlowGaps(f.flowIat, g.flow);
    row := row.(flowIat := flowIat);
    var fwdIat := ReportSideGaps(f.fwdIat, g.fwd, |p.fwd|);
    row := row.(fwdIat := fwdIat);
    var bwdIat := ReportSideGaps(f.bwdIat, g.bwd, |p.bwd|);
    row := row.(bwdIat := bwdIat);
    row := row.(fwdPacketsPerSecond := PacketRate(p.fwdCount, duration));
    var packetLen := ReportLengths(f.packetLen, p.all);
    row := row.(packetLen := packetLen);
    row := row.(avgPacketSize := Sum(Sizes(p.all)) / p.count as real);
    if p.bwdCount != 0 {
      row := row.(avgBwdSegmentSize := Sum(Lengths(p.bwd)) / p.bwdCount as real);
    }
    if |g.active| > 0 {
      row := row.(activeMin := Min(g.active));
    }
    var idle := ReportIdle(f.idle, g.idle);
    row := row.(idle := idle);
  }

  method ReportBackwardLengths(before: LengthStats, bs: seq<PacketInfo>) returns (s: LengthStats)
    requires before.max == MaxOrZero(Lengths(bs)) && before.min == MinOrZero(Lengths(bs))
    requires (bs == [] ==> before.mean == 0.0) && (|bs| <= 1 ==> before.std == Root(0.0))
    ensures s == BatchBackward(bs)
  {
    var lens := Lengths(bs);
    s := before;
    if |lens| > 0 {
      s := s.(mean := Mean(lens));
      if |lens| > 1 {
        s := s.(std := Root(Variance(lens)));
      }
    }
  }

  method ReportFlowGaps(before: FlowGapStats, gaps: seq<real>) returns (s: FlowGapStats)
    requires GapsUntouched(before, |gaps| + 1)
    ensures s == BatchFlowGaps(gaps)
  {
    RoundOfInteger(0);
    s := before;
    if |gaps| > 0 {
      s := s.(mean := RoundHalfEven(Mean(gaps)));
      s := s.(max := RoundHalfEven(Max(gaps)));
      s := s.(min := RoundHalfEven(Min(gaps)));
      if |gaps| > 1 {
        s := s.(std := Root(Variance(gaps)));
      }
    }
  }

  method ReportSideGaps(before: SideGapStats, gaps: seq<real>, ghost packets: nat) returns (s: SideGapStats)
    requires SideUntouched(before, packets) && |gaps| == if packets == 0 then 0 else packets - 1
    ensures s == BatchSideGaps(gaps)
  {
    RoundOfInteger(0);
    s := before;
    if |gaps| > 0 {
      s := s.(total := RoundHalfEven(Sum(gaps)));
      s := s.(mean := Mean(gaps));
      s := s.(max := RoundHalfEven(Max(gaps)));
      s := s.(min := RoundHalfEven(Min(gaps)));
      if |gaps| > 1 {
        s := s.(std := Root(Variance(gaps)));
      }
    }
  }

  method ReportLengths(before: PacketStats, ps: seq<PacketInfo>) returns (s: PacketStats)
    requires ps != [] && before.max == MaxOrZero(Lengths(ps))
    requires |ps| <= 1 ==> before.std == Root(0.0) && before.variance == 0.0
    ensures s == BatchLengths(ps)
  {
    var lens := Lengths(ps);
    s := before;
    if |lens| > 0 {
      s := s.(mean := Mean(lens));
      if |lens| > 1 {
        s := s.(std := Root(Variance(lens)));
        s := s.(variance := Variance(lens));
      }
    }
  }

  method ReportIdle(before: IdleStats, idle: seq<real>) returns (s: IdleStats)
    requires idle == [] ==> before.mean == 0.0 && before.max == 0.0 && before.min == 0.0
    requires |idle| <= 1 ==> before.std == Root(0.0)
    ensures s == BatchIdle(idle)
  {
    s := before;
    if |idle| > 0 {
      s := s.(mean := Mean(idle));
      s := s.(max := Max(idle));
      s := s.(min := Min(idle));
      if |idle| > 1 {
        s := s.(std := Root(Variance(idle)));
      }
    }
  }

  // ------------------------------------------------------------ one more packet

  lemma {:induction false} LongestSnoc(ps: seq<PacketInfo>, p: PacketInfo)
    requires ps != []
    ensures MaxOrZero(Lengths(ps + [p])) == Larger(MaxOrZero(Lengths(ps)), p.payloadBytes as real)
  {
    LengthsSnoc(ps, p);
    MaxSnoc(Lengths(ps), p.payloadBytes as real);
  }

  lemma {:induction false} ViewsSnoc(h: History, t: Tagged)
    ensures All(h + [t]) == All(h) + [t.packet]
    ensures Side(h + [t], Fwd) == if t.direction == Fwd then Side(h, Fwd) + [t.packet] else Side(h, Fwd)
    ensures Side(h + [t], Bwd) == if t.direction == Bwd then Side(h, Bwd) + [t.packet] else Side(h, Bwd)
  {
    AllSnoc(h, t);
    SideSnoc(h, t, Fwd);
    SideSnoc(h, t, Bwd);
  }

  lemma {:induction false} TimesGapsSnoc(ps: seq<PacketInfo>, p: PacketInfo)
    requires ps != []
    ensures Times(ps + [p]) == Times(ps) + [p.timestamp]
    ensures Gaps(Times(ps + [p])) == Gaps(Times(ps)) + [Micros(p.timestamp - Last(ps).timestamp)]
  {
    TimesSnoc(ps, p);
    GapsSnoc(Times(ps), p.timestamp);
  }

  lemma {:induction false} ExtremesSnoc(bs: seq<PacketInfo>, p: PacketInfo)
    ensures var len := p.payloadBytes as real;
            && MaxOrZero(Lengths(bs + [p])) == (if bs == [] then len else Larger(MaxOrZero(Lengths(bs)), len))
            && MinOrZero(Lengths(bs + [p])) == (if bs == [] then len else Smaller(MinOrZero(Lengths(bs)), len))
  {
    var len := p.payloadBytes as real;
    LengthsSnoc(bs, p);
    if bs == [] {
      assert Lengths(bs + [p]) == [len];
    } else {
      MaxSnoc(Lengths(bs), len);
      MinSnoc(Lengths(bs), len);
    }
  }

  /** A row just reported may stand as the flow's record. */
  lemma {:induction false} BatchIsConsistent(p: PacketLists, g: GapLists)
    requires p.all != [] && GapsFollow(g, p)
    ensures var row := BatchLists(p.all, p.fwd, p.bwd);
            && Streamed(row, p.all, p.fwd, p.bwd)
            && Untouched(row, |p.all|, |p.fwd|, |p.bwd|, |g.active|, |g.idle|)
  {
    RoundOfInteger(0);
  }

  lemma {:induction false} FirstFlags(p: PacketInfo)
    ensures BatchFlags([p]) == FlagCounts(Bit(p.fin), Bit(p.syn), Bit(p.psh), Bit(p.ack), Bit(p.urg))
    ensures Raised([p], URG) == p.urg
  {
    forall f: TcpFlag
      ensures Raised([p], f) <==> Carries(p, f)
    {
      RaisedByOne(p, f);
    }
  }

  lemma {:induction false} FlagsSnoc(ps: seq<PacketInfo>, p: PacketInfo)
    ensures var b := BatchFlags(ps);
            BatchFlags(ps + [p]) == FlagCounts(
              if p.fin then 1 else b.fin, if p.syn then 1 else b.syn, if p.psh then 1 else b.psh,
              if p.ack then 1 else b.ack, if p.urg then 1 else b.urg)
  {
    forall f: TcpFlag
      ensures Raised(ps + [p], f) <==> Raised(ps, f) || Carries(p, f)
    {
      RaisedSnoc(ps, p, f);
    }
  }
}
