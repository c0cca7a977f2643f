/** No packet is lost or counted twice, over every run of the flow builder. */
module FlowLedger {
  import opened Packets
  import opened FlowHistory
  import opened FlowTable

  /** Where the j-th kept entry stood before the packet was settled. */
  function Source(cfg: Config, table: Table, p: PacketInfo, j: nat): nat {
    var i := ActiveIndex(table, p);
    if i == |table| then j + Surplus(cfg, table) else if j < i then j else j + 1
  }

  /** Settling a packet keeps the other entries, in their order. */
  lemma {:induction false} KeptInOrder(cfg: Config, table: Table, p: PacketInfo)
    requires Tracked(table)
    ensures forall j | 0 <= j < |Kept(cfg, table, p)| ::
              && Source(cfg, table, p, j) < |table|
              && Source(cfg, table, p, j) != ActiveIndex(table, p)
              && Kept(cfg, table, p)[j] == table[Source(cfg, table, p, j)]
    ensures forall j, k | 0 <= j < k < |Kept(cfg, table, p)| :: Source(cfg, table, p, j) < Source(cfg, table, p, k)
  {
  }

  // ------------------------------------------------------------------- weights

  /**
    What is conserved is stated for an arbitrary weight of packets: a weight of one counts packets, the
    payload size counts bytes, the indicator of one packet counts how often that packet occurs.
    */
  type Weight = PacketInfo -> nat

  function Total(ps: seq<PacketInfo>, w: Weight): nat {
    if ps == [] then 0 else Total(ps[..|ps| - 1], w) + w(ps[|ps| - 1])
  }

  function Load(t: Table, w: Weight): nat {
    if t == [] then 0 else Load(t[..|t| - 1], w) + Total(All(t[|t| - 1].history), w)
  }

  function LedgerLoad(l: Ledger, w: Weight): nat {
    Load(l.evicted, w) + Load(l.emitted, w) + Total(l.consumed, w)
  }

  lemma {:induction false} TotalSnoc(ps: seq<PacketInfo>, p: PacketInfo, w: Weight)
    ensures Total(ps + [p], w) == Total(ps, w) + w(p)
  {
    assert (ps + [p])[..|ps|] == ps;
  }

  lemma {:induction false} TotalOfOne(p: PacketInfo, w: Weight)
    ensures Total([p], w) == w(p)
  {
    TotalSnoc([], p, w);
    assert [] + [p] == [p];
  }

  lemma {:induction false} TotalConcat(a: seq<PacketInfo>, b: seq<PacketInfo>, w: Weight)
    ensures Total(a + b, w) == Total(a, w) + Total(b, w)
  {
    if b == [] {
      assert a + b == a;
    } else {
      assert (a + b)[..|a + b| - 1] == a + b[..|b| - 1];
      TotalConcat(a, b[..|b| - 1], w);
    }
  }

  lemma {:induction false} LoadSnoc(t: Table, e: Entry, w: Weight)
    ensures Load(t + [e], w) == Load(t, w) + Total(All(e.history), w)
  {
    assert (t + [e])[..|t|] == t;
  }

  lemma {:induction false} LoadOfOne(e: Entry, w: Weight)
    ensures Load([e], w) == Total(All(e.history), w)
  {
    LoadSnoc([], e, w);
    assert [] + [e] == [e];
  }

  lemma {:induction false} LoadConcat(a: Table, b: Table, w: Weight)
    ensures Load(a + b, w) == Load(a, w) + Load(b, w)
  {
    if b == [] {
      assert a + b == a;
    } else {
      assert (a + b)[..|a + b| - 1] == a + b[..|b| - 1];
      LoadConcat(a, b[..|b| - 1], w);
    }
  }

  lemma {:induction false} LoadSplit(t: Table, n: nat, w: Weight)
    requires n <= |t|
    ensures Load(t, w) == Load(t[..n], w) + Load(t[n..], w)
  {
    assert t == t[..n] + t[n..];
    LoadConcat(t[..n], t[n..], w);
  }

  lemma {:induction false} LoadAround(a: Table, e: Entry, b: Table, w: Weight)
    ensures Load(a + [e] + b, w) == Load(a + b, w) + Total(All(e.history), w)
  {
    LoadConcat(a + [e], b, w);
    LoadSnoc(a, e, w);
    LoadConcat(a, b, w);
  }

  lemma {:induction false} LoadWithout(t: Table, i: nat, w: Weight)
    requires i < |t|
    ensures Load(t, w) == Load(Without(t, i), w) + Total(All(t[i].history), w)
  {
    LoadAround(t[..i], t[i], t[i + 1..], w);
    Reassemble(t, i);
  }

  lemma {:induction false} Reassemble<T>(s: seq<T>, i: nat)
    requires i < |s|
    ensures s[..i] + [s[i]] + s[i + 1..] == s
  {
  }

  lemma {:induction false} LedgerLoadPlus(l: Ledger, m: Ledger, w: Weight)
    ensures LedgerLoad(l.Plus(m), w) == LedgerLoad(l, w) + LedgerLoad(m, w)
  {
    LoadConcat(l.evicted, m.evicted, w);
    LoadConcat(l.emitted, m.emitted, w);
    TotalConcat(l.consumed, m.consumed, w);
  }

  // ------------------------------------------------------------------ one step

  lemma {:induction false} FiledLoads(cfg: Config, table: Table, p: PacketInfo, w: Weight)
    requires Tracked(table)
    ensures Load(Kept(cfg, table, p) + Filed(cfg, table, p), w)
            == Load(Kept(cfg, table, p), w) + Load(Filed(cfg, table, p), w)
  {
    LoadConcat(Kept(cfg, table, p), Filed(cfg, table, p), w);
  }

  lemma {:induction false} OpeningLoad(p: PacketInfo, w: Weight)
    ensures Load([Opening(p)], w) == w(p)
  {
    LoadOfOne(Opening(p), w);
    assert All(Opening(p).history) == [p];
    TotalOfOne(p, w);
  }

  lemma {:induction false} GrownLoad(e: Entry, p: PacketInfo, w: Weight)
    ensures Load([Grown(e, p)], w) == Total(All(e.history), w) + w(p)
  {
    LoadOfOne(Grown(e, p), w);
    AllSnoc(e.history, Tagged(p, DirectionFor(e.key, p)));
    TotalSnoc(All(e.history), p, w);
  }

  /** Settling a packet moves whole histories and places the packet once. */
  lemma {:induction false} SettleConserves(cfg: Config, table: Table, p: PacketInfo, w: Weight)
    requires Tracked(table)
    ensures Load(Kept(cfg, table, p), w) + Load(Filed(cfg, table, p), w) + Load(MadeRoom(cfg, table, p), w)
            + Load(Emitted(cfg, table, p), w) + Total(Consumed(cfg, table, p), w)
            == Load(table, w) + w(p)
  {
    var i := ActiveIndex(table, p);
    OpeningLoad(p, w);
    TotalOfOne(p, w);
    if i == |table| {
      LoadSplit(table, Surplus(cfg, table), w);
    } else {
      LoadWithout(table, i, w);
      LoadOfOne(table[i], w);
      GrownLoad(table[i], p, w);
    }
  }

  lemma {:induction false} ProcessConserves(cfg: Config, s: State, p: PacketInfo, w: Weight)
    requires Tracked(s.table)
    ensures var r := Process(cfg, s, p); Load(r.state.table, w) + LedgerLoad(r.ledger, w) == Load(s.table, w) + w(p)
  {
    var n := Sweep(cfg, s, p.timestamp);
    var table := s.table[n..];
    LoadSplit(s.table, n, w);
    SettleConserves(cfg, table, p, w);
    FiledLoads(cfg, table, p, w);
    LoadConcat(s.table[..n], MadeRoom(cfg, table, p), w);
  }

  // ---------------------------------------------------------------- every run

  /** Live, evicted, emitted and consumed packets together weigh as much as the packets seen. */
  ghost predicate Balanced(r: Step, seen: nat, w: Weight) {
    Load(r.state.table, w) + LedgerLoad(r.ledger, w) == seen
  }

  lemma {:induction false} StepStaysBalanced(cfg: Config, r: Step, seen: nat, p: PacketInfo, w: Weight)
    requires Tracked(r.state.table) && Balanced(r, seen, w)
    ensures Balanced(Then(r, Process(cfg, r.state, p)), seen + w(p), w)
  {
    LedgerLoadPlus(r.ledger, Process(cfg, r.state, p).ledger, w);
    ProcessConserves(cfg, r.state, p, w);
  }

  /**
    Every processed packet is, exactly once, in a live flow, in an emitted flow, in an evicted flow,
    or was consumed as the terminator of a flow it did not join: whatever is summed over packets balances.
    */
  lemma {:induction false} PacketConservation(cfg: Config, packets: seq<PacketInfo>, w: Weight)
    ensures var r := Run(cfg, packets);
            Load(r.state.table, w) + Load(r.ledger.evicted, w) + Load(r.ledger.emitted, w) + Total(r.ledger.consumed, w)
            == Total(packets, w)
  {
    if packets != [] {
      var before, p := packets[..|packets| - 1], packets[|packets| - 1];
      PacketConservation(cfg, before, w);
      StepStaysBalanced(cfg, Run(cfg, before), Total(before, w), p, w);
    }
  }

  function Each(p: PacketInfo): nat {
    1
  }

  function Indicator(x: PacketInfo): Weight {
    p => if p == x then 1 else 0
  }

  lemma {:induction false} EachCounts(ps: seq<PacketInfo>)
    ensures Total(ps, Each) == |ps|
  {
    if ps != [] {
      EachCounts(ps[..|ps| - 1]);
    }
  }

  lemma {:induction false} IndicatorCountsOccurrences(ps: seq<PacketInfo>, x: PacketInfo)
    ensures Total(ps, Indicator(x)) == multiset(ps)[x]
  {
    if ps != [] {
      assert ps == ps[..|ps| - 1] + [ps[|ps| - 1]];
      IndicatorCountsOccurrences(ps[..|ps| - 1], x);
    }
  }

  /** The packet counter is the number of packets that are live, evicted, emitted and consumed. */
  lemma {:induction false} PacketsSeenAddUp(cfg: Config, packets: seq<PacketInfo>)
    ensures var r := Run(cfg, packets);
            && r.state.packetsSeen == |packets|
            && r.state.packetsSeen == Load(r.state.table, Each) + Load(r.ledger.evicted, Each)
                                      + Load(r.ledger.emitted, Each) + |r.ledger.consumed|
  {
    SeenCounts(cfg, packets);
    PacketConservation(cfg, packets, Each);
    EachCounts(packets);
    EachCounts(Run(cfg, packets).ledger.consumed);
  }

  /** Each packet occurs across live, evicted, emitted and consumed exactly as often as it was processed. */
  lemma {:induction false} OccurrencesConserved(cfg: Config, packets: seq<PacketInfo>, x: PacketInfo)
    ensures var r := Run(cfg, packets);
            multiset(packets)[x] == Load(r.state.table, Indicator(x)) + Load(r.ledger.evicted, Indicator(x))
                                    + Load(r.ledger.emitted, Indicator(x)) + multiset(r.ledger.consumed)[x]
  {
    PacketConservation(cfg, packets, Indicator(x));
    IndicatorCountsOccurrences(packets, x);
    IndicatorCountsOccurrences(Run(cfg, packets).ledger.consumed, x);
  }

  lemma {:induction false} SeenCounts(cfg: Config, packets: seq<PacketInfo>)
    ensures Run(cfg, packets).state.packetsSeen == |packets|
  {
    if packets != [] {
      SeenCounts(cfg, packets[..|packets| - 1]);
    }
  }

  /** The table never outgrows its cap; a cap of zero or less still admits one flow. */
  lemma {:induction false} TableStaysBounded(cfg: Config, packets: seq<PacketInfo>)
    ensures |Run(cfg, packets).state.table| <= if cfg.maxFlows > 1 then cfg.maxFlows else 1
  {
    if packets != [] {
      TableStaysBounded(cfg, packets[..|packets| - 1]);
    }
  }
}
