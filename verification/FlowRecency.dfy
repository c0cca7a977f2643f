/** In ordered time the ordered table is sorted by last-seen, so its shortcuts agree with full scans. */
module FlowRecency {
  import opened Packets
  import opened FlowHistory
  import opened FlowTable
  import FlowLedger

  ghost predicate InTimeOrder(packets: seq<PacketInfo>) {
    forall i, j | 0 <= i <= j < |packets| :: packets[i].timestamp <= packets[j].timestamp
  }

  /** Sorted by last-seen, nothing seen after `now`. */
  ghost predicate ByRecency(t: Table, now: real)
    requires Tracked(t)
  {
    && (forall i, j | 0 <= i <= j < |t| :: LastSeen(t[i]) <= LastSeen(t[j]))
    && (forall i | 0 <= i < |t| :: LastSeen(t[i]) <= now)
  }

  // ----------------------------------------------------------------- full scans

  /** What a scan of the whole table would keep. */
  function FreshOnly(t: Table, threshold: real): (f: Table)
    requires Tracked(t)
    ensures |f| <= |t|
    ensures Tracked(f)
  {
    if t == [] then []
    else if LastSeen(t[0]) > threshold then [t[0]] + FreshOnly(t[1..], threshold)
    else FreshOnly(t[1..], threshold)
  }

  /** The scan keeps every entry exactly when none is stale; otherwise it is shorter. */
  lemma {:induction false} ScanKeepsAllIffFresh(t: Table, threshold: real)
    requires Tracked(t)
    ensures (forall i | 0 <= i < |t| :: LastSeen(t[i]) > threshold) ==> FreshOnly(t, threshold) == t
    ensures (exists i | 0 <= i < |t| :: LastSeen(t[i]) <= threshold) ==> |FreshOnly(t, threshold)| < |t|
  {
    if t != [] {
      ScanKeepsAllIffFresh(t[1..], threshold);
      if i :| 0 <= i < |t| && LastSeen(t[i]) <= threshold {
        assert i > 0 ==> LastSeen(t[1..][i - 1]) <= threshold;
      }
    }
  }

  lemma {:induction false} ScanSkipsStalePrefix(t: Table, threshold: real)
    requires Tracked(t)
    ensures FreshOnly(t, threshold) == FreshOnly(t[StalePrefix(t, threshold)..], threshold)
  {
    if t != [] && LastSeen(t[0]) <= threshold {
      ScanSkipsStalePrefix(t[1..], threshold);
      assert t[1..][StalePrefix(t[1..], threshold)..] == t[StalePrefix(t, threshold)..];
    }
  }

  /** No stale entry stands behind a fresh one. */
  ghost predicate StaleFirst(t: Table, threshold: real)
    requires Tracked(t)
  {
    forall i, j | 0 <= i < j < |t| :: LastSeen(t[j]) <= threshold ==> LastSeen(t[i]) <= threshold
  }

  lemma {:induction false} StaleFirstSweepsAll(t: Table, threshold: real)
    requires Tracked(t) && StaleFirst(t, threshold)
    ensures t[StalePrefix(t, threshold)..] == FreshOnly(t, threshold)
  {
    var n := StalePrefix(t, threshold);
    var rest := t[n..];
    ScanSkipsStalePrefix(t, threshold);
    ScanKeepsAllIffFresh(rest, threshold);
    forall i | 0 <= i < |rest|
      ensures LastSeen(rest[i]) > threshold
    {
      assert rest[i] == t[n + i];
    }
  }

  lemma {:induction false} ScanShortens(t: Table, n: nat, j: nat, threshold: real)
    requires Tracked(t) && n <= j < |t| && LastSeen(t[j]) <= threshold
    ensures FreshOnly(t[n..], threshold) != t[n..]
  {
    var rest := t[n..];
    assert rest[j - n] == t[j];
    ScanKeepsAllIffFresh(rest, threshold);
  }

  lemma {:induction false} HiddenStaleSurvivesSweep(t: Table, threshold: real, i: nat, j: nat)
    requires Tracked(t) && i < j < |t| && LastSeen(t[j]) <= threshold < LastSeen(t[i])
    ensures t[StalePrefix(t, threshold)..] != FreshOnly(t, threshold)
  {
    var n := StalePrefix(t, threshold);
    assert n <= i;
    ScanSkipsStalePrefix(t, threshold);
    ScanShortens(t, n, j, threshold);
  }

  /** The early break of the sweep is the full scan exactly when no stale entry stands behind a fresh one. */
  lemma {:induction false} SweepIsScan(t: Table, threshold: real)
    requires Tracked(t)
    ensures t[StalePrefix(t, threshold)..] == FreshOnly(t, threshold) <==> StaleFirst(t, threshold)
  {
    if StaleFirst(t, threshold) {
      StaleFirstSweepsAll(t, threshold);
    } else {
      var i, j :| 0 <= i < j < |t| && LastSeen(t[j]) <= threshold && LastSeen(t[i]) > threshold;
      HiddenStaleSurvivesSweep(t, threshold, i, j);
    }
  }

  lemma {:induction false} SweepIsScanByRecency(t: Table, now: real, threshold: real)
    requires Tracked(t) && ByRecency(t, now)
    ensures t[StalePrefix(t, threshold)..] == FreshOnly(t, threshold)
  {
    SweepIsScan(t, threshold);
  }

  // ------------------------------------------------------------------ every run

  lemma {:induction false} KeptByRecency(cfg: Config, t: Table, p: PacketInfo, now: real)
    requires Tracked(t) && ByRecency(t, now)
    ensures ByRecency(Kept(cfg, t, p), now)
  {
    FlowLedger.KeptInOrder(cfg, t, p);
    var kept := Kept(cfg, t, p);
    forall i, j | 0 <= i <= j < |kept|
      ensures LastSeen(kept[i]) <= LastSeen(kept[j])
    {
      assert FlowLedger.Source(cfg, t, p, i) <= FlowLedger.Source(cfg, t, p, j);
    }
  }

  lemma {:induction false} FiledIsNewest(cfg: Config, t: Table, p: PacketInfo)
    requires Tracked(t)
    ensures Filed(cfg, t, p) != [] ==> LastSeen(Filed(cfg, t, p)[0]) == p.timestamp
  {
  }

  lemma {:induction false} NewestLast(t: Table, more: Table, before: real, now: real)
    requires Tracked(t) && Tracked(more) && |more| <= 1 && ByRecency(t, before) && before <= now
    requires more != [] ==> LastSeen(more[0]) == now
    ensures ByRecency(t + more, now)
  {
  }

  lemma {:induction false} SuffixByRecency(t: Table, n: nat, now: real)
    requires n <= |t| && Tracked(t) && ByRecency(t, now)
    ensures ByRecency(t[n..], now)
  {
  }

  lemma {:induction false} ProcessKeepsRecency(cfg: Config, s: State, p: PacketInfo, before: real)
    requires Tracked(s.table) && ByRecency(s.table, before) && before <= p.timestamp
    ensures ByRecency(Process(cfg, s, p).state.table, p.timestamp)
  {
    var n := Sweep(cfg, s, p.timestamp);
    var t := s.table[n..];
    SuffixByRecency(s.table, n, before);
    KeptByRecency(cfg, t, p, before);
    FiledIsNewest(cfg, t, p);
    NewestLast(Kept(cfg, t, p), Filed(cfg, t, p), before, p.timestamp);
  }

  /** Insertion, touch and replacement keep the table sorted by last-seen while packets come in time order. */
  lemma {:induction false} RunKeepsRecency(cfg: Config, packets: seq<PacketInfo>, now: real)
    requires InTimeOrder(packets)
    requires packets != [] ==> Last(packets).timestamp <= now
    ensures ByRecency(Run(cfg, packets).state.table, now)
  {
    if packets != [] {
      var before, p := packets[..|packets| - 1], packets[|packets| - 1];
      RunKeepsRecency(cfg, before, p.timestamp);
      ProcessKeepsRecency(cfg, Run(cfg, before).state, p, p.timestamp);
    }
  }

  lemma {:induction false} HeadIsOldest(cfg: Config, t: Table, p: PacketInfo, now: real)
    requires Tracked(t) && ByRecency(t, now)
    ensures forall e, f | e in MadeRoom(cfg, t, p) && f in t :: LastSeen(e) <= LastSeen(f)
  {
  }

  lemma {:induction false} FreshAfterSweep(table: Table, now: real, threshold: real)
    requires Tracked(table) && ByRecency(table, now)
    ensures var t := table[StalePrefix(table, threshold)..];
            forall i | 0 <= i < |t| :: LastSeen(t[i]) > threshold
  {
    var n := StalePrefix(table, threshold);
    forall i | 0 <= i < |table| - n
      ensures LastSeen(table[n..][i]) > threshold
    {
      assert LastSeen(table[n]) <= LastSeen(table[n + i]);
    }
  }

  lemma {:induction false} FreshIsNotTimedOut(cfg: Config, t: Table, p: PacketInfo)
    requires Tracked(t) && forall i | 0 <= i < |t| :: LastSeen(t[i]) > p.timestamp - cfg.timeout
    ensures Emitted(cfg, t, p) != [] ==> p.Terminates()
  {
  }

  lemma {:induction false} SweptTableHasNoTimeout(cfg: Config, table: Table, p: PacketInfo)
    requires Tracked(table) && ByRecency(table, p.timestamp)
    ensures var t := table[StalePrefix(table, p.timestamp - cfg.timeout)..];
            Emitted(cfg, t, p) != [] ==> p.Terminates()
  {
    FreshAfterSweep(table, p.timestamp, p.timestamp - cfg.timeout);
    FreshIsNotTimedOut(cfg, table[StalePrefix(table, p.timestamp - cfg.timeout)..], p);
  }

  /** The table a packet in time order finds is sorted. */
  lemma {:induction false} NextFindsRecency(cfg: Config, packets: seq<PacketInfo>, p: PacketInfo)
    requires InTimeOrder(packets + [p])
    ensures ByRecency(Run(cfg, packets).state.table, p.timestamp)
  {
    var all := packets + [p];
    forall i, j | 0 <= i <= j < |packets|
      ensures packets[i].timestamp <= packets[j].timestamp
    {
      assert all[i] == packets[i] && all[j] == packets[j];
    }
    if packets != [] {
      assert all[|packets| - 1] == Last(packets) && all[|packets|] == p;
    }
    RunKeepsRecency(cfg, packets, p.timestamp);
  }

  /** What a due sweep leaves is what a scan of the whole table would. */
  ghost predicate SweepsLikeScan(cfg: Config, s: State, p: PacketInfo)
    requires Tracked(s.table)
  {
    SweepDue(s.packetsSeen + 1)
    ==> s.table[Sweep(cfg, s, p.timestamp)..] == FreshOnly(s.table, p.timestamp - cfg.timeout)
  }

  /** A flow that makes room is one of those seen longest ago. */
  ghost predicate RoomFromOldest(cfg: Config, s: State, p: PacketInfo)
    requires Tracked(s.table)
  {
    var t := s.table[Sweep(cfg, s, p.timestamp)..];
    forall e, f | e in MadeRoom(cfg, t, p) && f in t :: LastSeen(e) <= LastSeen(f)
  }

  /** A packet that triggers a sweep never emits a timed-out flow: the sweep has dropped such a flow unreported. */
  ghost predicate SweepSwallowsTimeouts(cfg: Config, s: State, p: PacketInfo)
    requires Tracked(s.table)
  {
    var t := s.table[Sweep(cfg, s, p.timestamp)..];
    SweepDue(s.packetsSeen + 1) && Emitted(cfg, t, p) != [] ==> p.Terminates()
  }

  lemma {:induction false} SweepAgrees(cfg: Config, s: State, p: PacketInfo)
    requires Tracked(s.table) && ByRecency(s.table, p.timestamp)
    ensures SweepsLikeScan(cfg, s, p)
  {
    SweepIsScanByRecency(s.table, p.timestamp, p.timestamp - cfg.timeout);
  }

  lemma {:induction false} OldestMakesRoom(cfg: Config, s: State, p: PacketInfo)
    requires Tracked(s.table) && ByRecency(s.table, p.timestamp)
    ensures RoomFromOldest(cfg, s, p)
  {
    var n := Sweep(cfg, s, p.timestamp);
    SuffixByRecency(s.table, n, p.timestamp);
    HeadIsOldest(cfg, s.table[n..], p, p.timestamp);
  }

  lemma {:induction false} TimeoutsAreSwallowed(cfg: Config, s: State, p: PacketInfo)
    requires Tracked(s.table) && ByRecency(s.table, p.timestamp)
    ensures SweepSwallowsTimeouts(cfg, s, p)
  {
    SweptTableHasNoTimeout(cfg, s.table, p);
  }

  /** For every run in time order and every next packet the shortcuts of the ordered table agree with full scans. */
  lemma {:induction false} ShortcutsAgreeWithScans(cfg: Config, packets: seq<PacketInfo>, p: PacketInfo)
    requires InTimeOrder(packets + [p])
    ensures SweepsLikeScan(cfg, Run(cfg, packets).state, p)
    ensures RoomFromOldest(cfg, Run(cfg, packets).state, p)
    ensures SweepSwallowsTimeouts(cfg, Run(cfg, packets).state, p)
  {
    var s := Run(cfg, packets).state;
    NextFindsRecency(cfg, packets, p);
    SweepAgrees(cfg, s, p);
    OldestMakesRoom(cfg, s, p);
    TimeoutsAreSwallowed(cfg, s, p);
  }

  // ------------------------------------------------- what leaves without a report

  /** Every flow was seen after the threshold. */
  ghost predicate AllFresh(t: Table, threshold: real)
    requires Tracked(t)
  {
    forall i | 0 <= i < |t| :: Last(t[i].history).packet.timestamp > threshold
  }

  lemma {:induction false} KeptStayFresh(cfg: Config, t: Table, p: PacketInfo, threshold: real)
    requires Tracked(t) && AllFresh(t, threshold)
    ensures AllFresh(Kept(cfg, t, p), threshold)
  {
    FlowLedger.KeptInOrder(cfg, t, p);
  }

  lemma {:induction false} FreshJoin(a: Table, b: Table, threshold: real)
    requires Tracked(a) && Tracked(b) && AllFresh(a, threshold) && AllFresh(b, threshold)
    ensures AllFresh(a + b, threshold)
  {
  }

  lemma {:induction false} SettledStaysFresh(cfg: Config, t: Table, p: PacketInfo, threshold: real)
    requires Tracked(t) && p.timestamp > threshold && AllFresh(t, threshold)
    ensures AllFresh(Kept(cfg, t, p) + Filed(cfg, t, p), threshold)
  {
    KeptStayFresh(cfg, t, p, threshold);
    FiledIsNewest(cfg, t, p);
    FreshJoin(Kept(cfg, t, p), Filed(cfg, t, p), threshold);
  }

  lemma {:induction false} SweepTakes(cfg: Config, s: State, now: real)
    requires Tracked(s.table)
    ensures (s.packetsSeen + 1) % 1000 == 0 ==> Sweep(cfg, s, now) == StalePrefix(s.table, now - cfg.timeout)
    ensures (s.packetsSeen + 1) % 1000 != 0 ==> Sweep(cfg, s, now) == 0
  {
  }

  /** What a packet leaves and evicts, from the table that the sweep leaves. */
  lemma {:induction false} StepParts(cfg: Config, s: State, p: PacketInfo, n: nat, t: Table)
    requires Tracked(s.table) && n == Sweep(cfg, s, p.timestamp) && t == s.table[n..]
    ensures Process(cfg, s, p).state.table == Kept(cfg, t, p) + Filed(cfg, t, p)
    ensures Process(cfg, s, p).ledger.evicted == s.table[..n] + MadeRoom(cfg, t, p)
    ensures Process(cfg, s, p).state.packetsSeen == s.packetsSeen + 1
  {
  }

  lemma {:induction false} DueStepLeavesFresh(cfg: Config, s: State, p: PacketInfo, t': Table)
    requires Tracked(s.table) && ByRecency(s.table, p.timestamp) && cfg.timeout > 0.0
    requires (s.packetsSeen + 1) % 1000 == 0 && t' == Process(cfg, s, p).state.table
    ensures Tracked(t') && AllFresh(t', p.timestamp - cfg.timeout)
  {
    var threshold := p.timestamp - cfg.timeout;
    var n := StalePrefix(s.table, threshold);
    SweepTakes(cfg, s, p.timestamp);
    StepParts(cfg, s, p, n, s.table[n..]);
    FreshAfterSweep(s.table, p.timestamp, threshold);
    SettledStaysFresh(cfg, s.table[n..], p, threshold);
  }

  /**
    In time order and with a positive timeout, after every thousandth packet each tracked flow was seen later
    than a timeout ago.
    */
  lemma {:induction false} ThousandthLeavesFresh(cfg: Config, packets: seq<PacketInfo>, p: PacketInfo)
    requires InTimeOrder(packets + [p]) && cfg.timeout > 0.0 && (|packets| + 1) % 1000 == 0
    ensures var t := Run(cfg, packets + [p]).state.table;
            forall i | 0 <= i < |t| :: Last(t[i].history).packet.timestamp > p.timestamp - cfg.timeout
  {
    NextFindsRecency(cfg, packets, p);
    FlowLedger.SeenCounts(cfg, packets);
    RunOneMore(cfg, packets, p);
    DueStepLeavesFresh(cfg, Run(cfg, packets).state, p, Run(cfg, packets + [p]).state.table);
  }

  /** No flow of the table stands under an id of the packet. */
  ghost predicate Unclaimed(t: Table, p: PacketInfo) {
    forall i | 0 <= i < |t| :: t[i].key != p.fwdId && t[i].key != p.bwdId
  }

  lemma {:induction false} UnclaimedIsNotFound(t: Table, p: PacketInfo)
    ensures Unclaimed(t, p) <==> ActiveIndex(t, p) == |t|
  {
  }

  lemma {:induction false} RoomIsHead(cfg: Config, t: Table, p: PacketInfo)
    ensures MadeRoom(cfg, t, p) == if t != [] && |t| >= cfg.maxFlows && Unclaimed(t, p) then [t[0]] else []
  {
    UnclaimedIsNotFound(t, p);
  }

  lemma {:induction false} StepEvicts(cfg: Config, s: State, p: PacketInfo)
    requires Tracked(s.table) && (s.packetsSeen + 1) % 1000 != 0
    ensures Process(cfg, s, p).ledger.evicted == MadeRoom(cfg, s.table, p)
  {
    assert s.table[0..] == s.table;
    SweepTakes(cfg, s, p.timestamp);
    StepParts(cfg, s, p, 0, s.table);
    assert s.table[..0] + MadeRoom(cfg, s.table, p) == MadeRoom(cfg, s.table, p);
  }

  /** On every other packet nothing is evicted but the head that a full table gives up for a new flow. */
  lemma {:induction false} OthersEvictHeadOnly(cfg: Config, packets: seq<PacketInfo>, p: PacketInfo)
    requires (|packets| + 1) % 1000 != 0
    ensures var t := Run(cfg, packets).state.table;
            NewlyEvicted(Run(cfg, packets), Run(cfg, packets + [p]))
            == if t != [] && |t| >= cfg.maxFlows && Unclaimed(t, p) then [t[0]] else []
  {
    FlowLedger.SeenCounts(cfg, packets);
    RunOneMore(cfg, packets, p);
    StepLeavers(Run(cfg, packets), Process(cfg, Run(cfg, packets).state, p));
    StepEvicts(cfg, Run(cfg, packets).state, p);
    RoomIsHead(cfg, Run(cfg, packets).state.table, p);
  }

  // --------------------------------------------------------- out of time order

  /** The same packet over and over. */
  ghost predicate Repeats(packets: seq<PacketInfo>, p: PacketInfo) {
    forall i | 0 <= i < |packets| :: packets[i] == p
  }

  lemma {:induction false} SettlesInOnly(cfg: Config, e: Entry, p: PacketInfo)
    requires e.history != [] && e.key == p.fwdId && !p.Terminates() && p.timestamp - LastSeen(e) <= cfg.timeout
    ensures Kept(cfg, [e], p) + Filed(cfg, [e], p) == [Grown(e, p)]
  {
    assert ActiveIndex([e], p) == 0;
    assert Without([e], 0) + [Grown(e, p)] == [Grown(e, p)];
  }

  /** The step that adds a packet to the only flow of a table between sweeps. */
  lemma {:induction false} TouchesOnly(cfg: Config, s: State, e: Entry, p: PacketInfo)
    requires s.table == [e] && e.history != [] && e.key == p.fwdId && !SweepDue(s.packetsSeen + 1)
    requires !p.Terminates() && p.timestamp - LastSeen(e) <= cfg.timeout
    ensures Process(cfg, s, p).state == State([Grown(e, p)], s.packetsSeen + 1)
  {
    assert s.table[0..] == [e];
    SweepTakes(cfg, s, p.timestamp);
    StepParts(cfg, s, p, 0, [e]);
    SettlesInOnly(cfg, e, p);
  }

  /** One flow alone in the table, last seen with the packet. */
  ghost predicate Alone(s: State, p: PacketInfo, n: nat) {
    && |s.table| == 1 && s.packetsSeen == n
    && s.table[0].key == p.fwdId && s.table[0].history != [] && LastSeen(s.table[0]) == p.timestamp
  }

  lemma {:induction false} StartsAlone(cfg: Config, p: PacketInfo)
    requires cfg.maxFlows >= 1
    ensures Alone(Process(cfg, START.state, p).state, p, 1)
  {
    OpensBeside(cfg, START.state, p);
    assert START.state.table + [Opening(p)] == [Opening(p)];
  }

  lemma {:induction false} StaysAlone(cfg: Config, s: State, p: PacketInfo, n: nat)
    requires Alone(s, p, n) && n + 1 < SWEEP_INTERVAL && cfg.timeout >= 0.0 && !p.Terminates()
    ensures Alone(Process(cfg, s, p).state, p, n + 1)
  {
    assert s.table == [s.table[0]];
    TouchesOnly(cfg, s, s.table[0], p);
  }

  /** Repeated packets gather in one flow. */
  lemma {:induction false} RepeatsGather(cfg: Config, packets: seq<PacketInfo>, p: PacketInfo)
    requires Repeats(packets, p) && 1 <= |packets| < SWEEP_INTERVAL
    requires cfg.maxFlows >= 1 && cfg.timeout >= 0.0 && !p.Terminates()
    ensures Alone(Run(cfg, packets).state, p, |packets|)
  {
    var before := packets[..|packets| - 1];
    if before == [] {
      StartsAlone(cfg, p);
    } else {
      RepeatsGather(cfg, before, p);
      StaysAlone(cfg, Run(cfg, before).state, p, |before|);
    }
  }

  lemma {:induction false} StaleBehindYoung(e: Entry, f: Entry, threshold: real)
    requires e.history != [] && f.history != [] && LastSeen(f) <= threshold < LastSeen(e)
    ensures var t := [e] + [f]; StalePrefix(t, threshold) == 0 && FreshOnly(t, threshold) == [e]
  {
    var t := [e] + [f];
    assert t[1..] == [f] && t[1..][1..] == [];
    assert FreshOnly(t[1..][1..], threshold) == [];
    assert FreshOnly(t[1..], threshold) == [];
    assert FreshOnly(t, threshold) == [t[0]] + [];
  }

  /** The next packet triggers a sweep that drops nothing; a scan would drop the flow the stale packet opened. */
  ghost predicate HidesStale(cfg: Config, s: State, stale: PacketInfo, p: PacketInfo)
    requires Tracked(s.table)
  {
    && SweepDue(s.packetsSeen + 1) && Sweep(cfg, s, p.timestamp) == 0
    && |s.table| == 2 && s.table[1] == Opening(stale)
    && FreshOnly(s.table, p.timestamp - cfg.timeout) == s.table[..1]
  }

  lemma {:induction false} JoinsAlone(cfg: Config, s: State, young: PacketInfo, stale: PacketInfo, n: nat)
    requires Alone(s, young, n) && n + 2 == SWEEP_INTERVAL && cfg.maxFlows >= 2
    requires stale.fwdId != young.fwdId && stale.bwdId != young.fwdId
    ensures Process(cfg, s, stale).state == State([s.table[0]] + [Opening(stale)], n + 1)
  {
    assert s.table == [s.table[0]];
    OpensBeside(cfg, s, stale);
  }

  lemma {:induction false} HiddenBehind(cfg: Config, s: State, e: Entry, stale: PacketInfo, p: PacketInfo)
    requires e.history != [] && s == State([e] + [Opening(stale)], SWEEP_INTERVAL - 1)
    requires stale.timestamp <= p.timestamp - cfg.timeout < LastSeen(e)
    ensures HidesStale(cfg, s, stale, p)
  {
    StaleBehindYoung(e, Opening(stale), p.timestamp - cfg.timeout);
    assert s.table[..1] == [e];
  }

  /**
    Out of time order the sweep can miss a stale flow: after 998 packets of one flow and one of another from an
    earlier clock, the next packet's sweep stops at the first flow.
    */
  lemma {:induction false} LateClockHidesStaleFlow(cfg: Config, before: seq<PacketInfo>, young: PacketInfo,
      stale: PacketInfo, p: PacketInfo)
    requires Repeats(before, young) && |before| + 2 == SWEEP_INTERVAL
    requires cfg.maxFlows >= 2 && cfg.timeout >= 0.0 && !young.Terminates()
    requires stale.fwdId != young.fwdId && stale.bwdId != young.fwdId
    requires stale.timestamp <= p.timestamp - cfg.timeout < young.timestamp
    ensures HidesStale(cfg, Run(cfg, before + [stale]).state, stale, p)
  {
    RepeatsGather(cfg, before, young);
    RunOneMore(cfg, before, stale);
    JoinsAlone(cfg, Run(cfg, before).state, young, stale, |before|);
    HiddenBehind(cfg, Run(cfg, before + [stale]).state, Run(cfg, before).state.table[0], stale, p);
  }
}
