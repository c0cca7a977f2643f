/**
  The flow table as a value: one packet is one step from a state to the next.

  The table is the ordered dictionary of the service, first entry first out. A step also says what left the
  table: entries that were evicted, entries that were emitted, and packets that joined no flow.
  */
module FlowTable {
  import opened Packets
  import opened FlowHistory

  /** A tracked flow: the key it is filed under and the packets it was given. */
  datatype Entry = Entry(key: string, history: History)

  type Table = seq<Entry>

  datatype Config = Config(timeout: real, maxFlows: int)

  datatype State = State(table: Table, packetsSeen: nat)

  datatype Ledger = Ledger(evicted: Table, emitted: Table, consumed: seq<PacketInfo>) {
    function Plus(l: Ledger): Ledger {
      Ledger(evicted + l.evicted, emitted + l.emitted, consumed + l.consumed)
    }
  }

  datatype Step = Step(state: State, ledger: Ledger)

  /** The stale sweep runs on every packet whose running number is a multiple of this. */
  const SWEEP_INTERVAL := 1000

  ghost predicate Tracked(table: Table) {
    forall i | 0 <= i < |table| :: table[i].history != []
  }

  function LastSeen(e: Entry): real
    requires e.history != []
  {
    Last(e.history).packet.timestamp
  }

  /** Index of the entry filed under the key, or the table's length. */
  function Position(table: Table, key: string): (i: nat)
    ensures i <= |table|
    ensures i < |table| ==> table[i].key == key
    ensures forall j | 0 <= j < i :: table[j].key != key
  {
    if table == [] then 0
    else if table[0].key == key then 0
    else 1 + Position(table[1..], key)
  }

  function Without(table: Table, i: nat): (t: Table)
    requires i < |table|
    ensures |t| == |table| - 1
  {
    table[..i] + table[i + 1..]
  }

  /** How many entries the sweep drops: the leading ones last seen at or before the threshold. */
  function StalePrefix(table: Table, threshold: real): (n: nat)
    requires Tracked(table)
    ensures n <= |table|
    ensures forall i | 0 <= i < n :: LastSeen(table[i]) <= threshold
    ensures n < |table| ==> LastSeen(table[n]) > threshold
  {
    if table == [] || LastSeen(table[0]) > threshold then 0
    else 1 + StalePrefix(table[1..], threshold)
  }

  /** The entry a packet belongs to: filed under its own id, else under its reversed id, else none (the length). */
  function ActiveIndex(table: Table, p: PacketInfo): (i: nat)
    ensures i <= |table|
  {
    var i := Position(table, p.fwdId);
    if i < |table| then i else Position(table, p.bwdId)
  }

  function DirectionFor(key: string, p: PacketInfo): Direction {
    if key == p.fwdId then Fwd else Bwd
  }

  function Opening(p: PacketInfo): Entry {
    Entry(p.fwdId, [Tagged(p, Fwd)])
  }

  predicate SweepDue(packetsSeen: nat) {
    packetsSeen % SWEEP_INTERVAL == 0
  }

  function Sweep(cfg: Config, s: State, now: real): (n: nat)
    requires Tracked(s.table)
    ensures n <= |s.table|
  {
    if SweepDue(s.packetsSeen + 1) then StalePrefix(s.table, now - cfg.timeout) else 0
  }

  /** How many entries make room for a new one: a full table gives up its head. */
  function Surplus(cfg: Config, table: Table): (n: nat)
    ensures n <= |table|
  {
    if |table| >= cfg.maxFlows && table != [] then 1 else 0
  }

  predicate TimedOut(cfg: Config, e: Entry, p: PacketInfo)
    requires e.history != []
  {
    p.timestamp - LastSeen(e) > cfg.timeout
  }

  /** The packet closes a tracked flow: it comes too late for it or terminates it. */
  predicate Closes(cfg: Config, table: Table, p: PacketInfo)
    requires Tracked(table)
  {
    var i := ActiveIndex(table, p);
    i < |table| && (TimedOut(cfg, table[i], p) || p.Terminates())
  }

  function Grown(e: Entry, p: PacketInfo): Entry {
    Entry(e.key, e.history + [Tagged(p, DirectionFor(e.key, p))])
  }

  /** What stays of the table: everything but the packet's own entry, or but the head when a new flow needs room. */
  function Kept(cfg: Config, table: Table, p: PacketInfo): (t: Table)
    requires Tracked(table)
    ensures Tracked(t)
  {
    var i := ActiveIndex(table, p);
    if i == |table| then table[Surplus(cfg, table)..] else Without(table, i)
  }

  /** The entry filed last: a new flow, the packet's flow grown by it, or none when the packet terminated its flow. */
  function Filed(cfg: Config, table: Table, p: PacketInfo): (t: Table)
    requires Tracked(table)
    ensures |t| <= 1 && Tracked(t)
  {
    var i := ActiveIndex(table, p);
    if i == |table| then [Opening(p)]
    else if p.Terminates() then []
    else if TimedOut(cfg, table[i], p) then [Opening(p)]
    else [Grown(table[i], p)]
  }

  function MadeRoom(cfg: Config, table: Table, p: PacketInfo): Table {
    if ActiveIndex(table, p) == |table| then table[..Surplus(cfg, table)] else []
  }

  function Emitted(cfg: Config, table: Table, p: PacketInfo): Table
    requires Tracked(table)
  {
    if Closes(cfg, table, p) then [table[ActiveIndex(table, p)]] else []
  }

  function Consumed(cfg: Config, table: Table, p: PacketInfo): seq<PacketInfo>
    requires Tracked(table)
  {
    if Closes(cfg, table, p) && p.Terminates() then [p] else []
  }

  /** One packet: count it, sweep when due, then settle it. */
  function Process(cfg: Config, s: State, p: PacketInfo): (r: Step)
    requires Tracked(s.table)
    ensures Tracked(r.state.table)
  {
    var n := Sweep(cfg, s, p.timestamp);
    var table := s.table[n..];
    Step(State(Kept(cfg, table, p) + Filed(cfg, table, p), s.packetsSeen + 1),
         Ledger(s.table[..n] + MadeRoom(cfg, table, p), Emitted(cfg, table, p), Consumed(cfg, table, p)))
  }

  const START := Step(State([], 0), Ledger([], [], []))

  /** A run followed by one more step. */
  function Then(before: Step, last: Step): Step {
    Step(last.state, before.ledger.Plus(last.ledger))
  }

  /** What a later table holds beyond an earlier one. */
  function Beyond(before: Table, after: Table): Table {
    if |before| <= |after| then after[|before|..] else []
  }

  /** What the later step has emitted beyond the earlier one. */
  function NewlyEmitted(before: Step, after: Step): Table {
    Beyond(before.ledger.emitted, after.ledger.emitted)
  }

  /** What the later step has evicted beyond the earlier one. */
  function NewlyEvicted(before: Step, after: Step): Table {
    Beyond(before.ledger.evicted, after.ledger.evicted)
  }

  lemma {:induction false} StepLeavers(before: Step, last: Step)
    ensures NewlyEmitted(before, Then(before, last)) == last.ledger.emitted
    ensures NewlyEvicted(before, Then(before, last)) == last.ledger.evicted
  {
  }

  /** The state and the full ledger after a run of packets from an empty table. */
  function Run(cfg: Config, packets: seq<PacketInfo>): (r: Step)
    ensures Tracked(r.state.table)
  {
    if packets == [] then START
    else
      var before := Run(cfg, packets[..|packets| - 1]);
      Then(before, Process(cfg, before.state, packets[|packets| - 1]))
  }

  lemma {:induction false} RunOneMore(cfg: Config, before: seq<PacketInfo>, p: PacketInfo)
    ensures Run(cfg, before + [p]) == Then(Run(cfg, before), Process(cfg, Run(cfg, before).state, p))
  {
    assert (before + [p])[..|before|] == before;
  }

  /** The step that opens a flow in an unfull table between sweeps. */
  lemma {:induction false} OpensBeside(cfg: Config, s: State, p: PacketInfo)
    requires Tracked(s.table) && !SweepDue(s.packetsSeen + 1) && |s.table| < cfg.maxFlows
    requires ActiveIndex(s.table, p) == |s.table|
    ensures Process(cfg, s, p).state == State(s.table + [Opening(p)], s.packetsSeen + 1)
  {
    var t := s.table[Sweep(cfg, s, p.timestamp)..];
    assert t == s.table;
    assert Surplus(cfg, t) == 0;
    assert t[0..] == t;
  }
}
