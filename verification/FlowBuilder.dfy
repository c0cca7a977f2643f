/** The flow builder service: the mutable table of flows, proved to follow the steps of FlowTable. */
module FlowBuilder {
  import opened Packets
  import opened FlowHistory
  import opened FlowTable
  import opened FlowAccumulator

  /** What is published when a flow ends; the context is taken from the packet that ended it. */
  datatype FlowFeatureEvent = FlowFeatureEvent(flowId: string, features: FeatureRow, context: Context)

  datatype Context = Context(
    srcIp: string,
    srcPort: int,
    dstIp: string,
    dstPort: int,
    protocol: string,
    wireless: string)

  function ContextOf(e: PacketEvent): Context {
    Context(e.srcIp, e.srcPort, e.dstIp, e.dstPort, e.protocol, e.wireless)
  }

  /** The event reports the entry: its key and the feature row of its whole packet history. */
  ghost predicate Reports(event: FlowFeatureEvent, entry: Entry, e: PacketEvent) {
    && entry.history != []
    && event.flowId == entry.key
    && event.features == Batch(entry.history)
    && event.context == Context(e.srcIp, e.srcPort, e.dstIp, e.dstPort, e.protocol, e.wireless)
  }

  /** One event for each entry, in order. */
  ghost predicate ReportsAll(events: seq<FlowFeatureEvent>, entries: Table, e: PacketEvent) {
    |events| == |entries| && forall i | 0 <= i < |events| :: Reports(events[i], entries[i], e)
  }

  /** One item of the ordered dictionary. */
  datatype Slot = Slot(key: string, flow: Flow)

  function Find(slots: seq<Slot>, key: string): (i: nat)
    ensures i <= |slots|
    ensures i < |slots| ==> slots[i].key == key
    ensures forall j | 0 <= j < i :: slots[j].key != key
  {
    if slots == [] then 0
    else if slots[0].key == key then 0
    else 1 + Find(slots[1..], key)
  }

  function Popped(slots: seq<Slot>, i: nat): (s: seq<Slot>)
    requires i < |slots|
    ensures |s| == |slots| - 1
    ensures forall j | 0 <= j < |s| :: s[j] == slots[if j < i then j else j + 1]
  {
    slots[..i] + slots[i + 1..]
  }

  ghost function Flows(slots: seq<Slot>): set<Flow> {
    set slot | slot in slots :: slot.flow
  }

  /** Keys are unique, as in any dictionary, and every flow is in one slot only. */
  ghost predicate Distinct(slots: seq<Slot>) {
    forall i, j | 0 <= i < j < |slots| :: slots[i].key != slots[j].key && slots[i].flow != slots[j].flow
  }

  /** The slots hold, in order, flows that are consistent and were given the packets of the table's entries. */
  ghost predicate Holds(slots: seq<Slot>, t: Table)
    reads Flows(slots)
  {
    |slots| == |t| && forall i {:trigger HoldsAt(slots[i], t[i])} | 0 <= i < |slots| :: HoldsAt(slots[i], t[i])
  }

  ghost predicate HoldsAt(slot: Slot, entry: Entry)
    reads slot.flow
  {
    slot.key == entry.key && slot.flow.history == entry.history && slot.flow.Valid()
  }

  lemma {:induction false} HoldsSeen(slot: Slot, entry: Entry)
    requires HoldsAt(slot, entry)
    ensures entry.history != [] && slot.flow.GetFlowLastSeen() == LastSeen(entry)
  {
    slot.flow.LastSeenIsLast();
  }

  lemma {:induction false} HoldsTracked(slots: seq<Slot>, t: Table)
    requires Holds(slots, t)
    ensures Tracked(t)
  {
    forall i | 0 <= i < |t|
      ensures t[i].history != []
    {
      assert HoldsAt(slots[i], t[i]);
      HoldsSeen(slots[i], t[i]);
    }
  }

  lemma {:induction false} HoldsFind(slots: seq<Slot>, t: Table, key: string)
    requires Holds(slots, t)
    ensures Find(slots, key) == Position(t, key)
  {
    assert forall i | 0 <= i < |slots| :: HoldsAt(slots[i], t[i]);
  }

  lemma {:induction false} SuffixDistinct(slots: seq<Slot>, n: nat)
    requires Distinct(slots) && n <= |slots|
    ensures Distinct(slots[n..]) && Flows(slots[n..]) <= Flows(slots)
  {
  }

  lemma {:induction false} HoldsSuffix(slots: seq<Slot>, t: Table, n: nat)
    requires Holds(slots, t) && n <= |slots|
    ensures Holds(slots[n..], t[n..])
  {
    forall j | 0 <= j < |t| - n
      ensures HoldsAt(slots[n..][j], t[n..][j])
    {
      assert HoldsAt(slots[n + j], t[n + j]);
    }
  }

  lemma {:induction false} PoppedDistinct(slots: seq<Slot>, i: nat)
    requires Distinct(slots) && i < |slots|
    ensures Distinct(Popped(slots, i)) && Flows(Popped(slots, i)) <= Flows(slots)
    ensures slots[i].flow !in Flows(Popped(slots, i))
    ensures forall j | 0 <= j < |Popped(slots, i)| :: Popped(slots, i)[j].key != slots[i].key
  {
  }

  lemma {:induction false} HoldsPopped(slots: seq<Slot>, t: Table, i: nat)
    requires Holds(slots, t) && i < |slots|
    ensures Holds(Popped(slots, i), Without(t, i))
  {
    forall j | 0 <= j < |t| - 1
      ensures HoldsAt(Popped(slots, i)[j], Without(t, i)[j])
    {
      assert HoldsAt(slots[if j < i then j else j + 1], t[if j < i then j else j + 1]);
    }
  }

  lemma {:induction false} SnocDistinct(slots: seq<Slot>, slot: Slot)
    requires Distinct(slots)
    requires forall j | 0 <= j < |slots| :: slots[j].key != slot.key
    requires slot.flow !in Flows(slots)
    ensures Distinct(slots + [slot]) && Flows(slots + [slot]) == Flows(slots) + {slot.flow}
  {
    assert forall j | 0 <= j < |slots| :: slots[j].flow in Flows(slots);
  }

  lemma {:induction false} HoldsSnoc(slots: seq<Slot>, t: Table, slot: Slot, entry: Entry)
    requires Holds(slots, t) && HoldsAt(slot, entry)
    ensures Holds(slots + [slot], t + [entry])
  {
    forall j | 0 <= j < |t| + 1
      ensures HoldsAt((slots + [slot])[j], (t + [entry])[j])
    {
      if j < |t| {
        assert HoldsAt(slots[j], t[j]);
      }
    }
  }

  // ---------------------------------------------------------- operations on slots

  /** Files a new flow last. */
  method OpenFlow(slots: seq<Slot>, packet: PacketInfo, ghost t: Table) returns (slots': seq<Slot>)
    requires Holds(slots, t) && Distinct(slots)
    requires forall j | 0 <= j < |slots| :: slots[j].key != packet.fwdId
    ensures Holds(slots', t + [Opening(packet)]) && Distinct(slots')
    ensures fresh(Flows(slots') - Flows(slots))
  {
    var flow := new Flow(packet);
    var slot := Slot(packet.fwdId, flow);
    HoldsSnoc(slots, t, slot, Opening(packet));
    SnocDistinct(slots, slot);
    slots' := slots + [slot];
  }

  /** Reports a flow and takes it out of the table. */
  method CloseFlow(slots: seq<Slot>, i: nat, e: PacketEvent, ghost t: Table)
    returns (slots': seq<Slot>, event: FlowFeatureEvent)
    requires Holds(slots, t) && Distinct(slots) && i < |slots|
    modifies slots[i].flow`features
    ensures slots' == Popped(slots, i) && Holds(slots', Without(t, i))
    ensures Reports(event, t[i], e)
  {
    assert HoldsAt(slots[i], t[i]);
    HoldsPopped(slots, t, i);
    PoppedDistinct(slots, i);
    slots[i].flow.LastSeenIsLast();
    var row := slots[i].flow.Terminated();
    event := FlowFeatureEvent(slots[i].key, row, ContextOf(e));
    slots' := Popped(slots, i);
  }

  /** Gives a flow one more packet and moves it to the end. */
  method TouchFlow(slots: seq<Slot>, i: nat, p: PacketInfo, ghost t: Table) returns (slots': seq<Slot>)
    requires Holds(slots, t) && Distinct(slots) && i < |slots|
    modifies slots[i].flow
    ensures Holds(slots', Without(t, i) + [Grown(t[i], p)]) && Distinct(slots')
    ensures Flows(slots') <= Flows(slots)
  {
    assert HoldsAt(slots[i], t[i]);
    HoldsPopped(slots, t, i);
    PoppedDistinct(slots, i);
    var rest := Popped(slots, i);
    slots[i].flow.New(p, if slots[i].key == p.fwdId then Fwd else Bwd);
    HoldsSnoc(rest, Without(t, i), slots[i], Grown(t[i], p));
    SnocDistinct(rest, slots[i]);
    slots' := rest + [slots[i]];
  }

  // ------------------------------------------------------------ settling a packet

  /** The slot a packet belongs to: found under its id, else under its reversed id, else none (the length). */
  function ActiveSlot(slots: seq<Slot>, p: PacketInfo): (i: nat)
    ensures i <= |slots|
    ensures i == |slots| || slots[i].key != p.fwdId ==> forall j | 0 <= j < |slots| :: slots[j].key != p.fwdId
  {
    if Find(slots, p.fwdId) < |slots| then Find(slots, p.fwdId) else Find(slots, p.bwdId)
  }

  lemma {:induction false} HoldsActive(slots: seq<Slot>, t: Table, p: PacketInfo)
    requires Holds(slots, t)
    ensures ActiveSlot(slots, p) == ActiveIndex(t, p)
  {
    HoldsFind(slots, t, p.fwdId);
    HoldsFind(slots, t, p.bwdId);
  }

  /** Without the packet's own flow the table has no flow of its id. */
  lemma {:induction false} KeyIsFree(slots: seq<Slot>, i: nat, p: PacketInfo)
    requires Distinct(slots) && i == ActiveSlot(slots, p) < |slots|
    ensures forall j | 0 <= j < |Popped(slots, i)| :: Popped(slots, i)[j].key != p.fwdId
  {
    PoppedDistinct(slots, i);
  }

  /** What settling the packet in table t leaves and reports. */
  ghost predicate Settled(cfg: Config, t: Table, e: PacketEvent, t': Table, output: seq<FlowFeatureEvent>)
    requires Tracked(t)
  {
    var p := FromEvent(e);
    t' == Kept(cfg, t, p) + Filed(cfg, t, p) && ReportsAll(output, Emitted(cfg, t, p), e)
  }

  /** Drops the flow seen longest ago, if there is one. */
  method EvictOldest(slots: seq<Slot>) returns (slots': seq<Slot>)
    ensures slots' == if slots == [] then [] else slots[1..]
  {
    slots' := slots;
    if slots' != [] {
      slots' := slots'[1..];
    }
  }

  lemma {:induction false} OpeningSettles(cfg: Config, t: Table, e: PacketEvent, rest: Table)
    requires Tracked(t) && ActiveIndex(t, FromEvent(e)) == |t| && rest == t[Surplus(cfg, t)..]
    ensures Settled(cfg, t, e, rest + [Opening(FromEvent(e))], [])
  {
  }

  /** Before a new flow is filed, a full table gives up its head. */
  method MakeRoom(cfg: Config, slots: seq<Slot>, ghost t: Table) returns (room: seq<Slot>)
    requires Holds(slots, t) && Distinct(slots)
    ensures room == slots[if |slots| >= cfg.maxFlows && slots != [] then 1 else 0..]
    ensures Holds(room, t[Surplus(cfg, t)..]) && Distinct(room)
  {
    HoldsSuffix(slots, t, Surplus(cfg, t));
    SuffixDistinct(slots, Surplus(cfg, t));
    room := slots;
    if |slots| >= cfg.maxFlows {
      room := EvictOldest(slots);
    }
  }

  /** A packet of no tracked flow opens one. */
  method SettleNew(cfg: Config, slots: seq<Slot>, e: PacketEvent, ghost t: Table)
    returns (slots': seq<Slot>, ghost t': Table)
    requires Holds(slots, t) && Distinct(slots) && Tracked(t)
    requires ActiveSlot(slots, FromEvent(e)) == |slots|
    ensures Holds(slots', t') && Distinct(slots') && fresh(Flows(slots') - Flows(slots))
    ensures Settled(cfg, t, e, t', [])
  {
    HoldsActive(slots, t, FromEvent(e));
    ghost var rest := t[Surplus(cfg, t)..];
    var room := MakeRoom(cfg, slots, t);
    OpeningSettles(cfg, t, e, rest);
    slots' := OpenFlow(room, FromEvent(e), rest);
    t' := rest + [Opening(FromEvent(e))];
  }

  lemma {:induction false} EndingSettles(cfg: Config, t: Table, e: PacketEvent, event: FlowFeatureEvent)
    requires Tracked(t)
    requires var p := FromEvent(e);
             var i := ActiveIndex(t, p);
             i < |t| && (TimedOut(cfg, t[i], p) || p.Terminates()) && Reports(event, t[i], e)
    ensures var p := FromEvent(e);
            Settled(cfg, t, e, Without(t, ActiveIndex(t, p)) + (if p.Terminates() then [] else [Opening(p)]), [event])
  {
  }

  lemma {:induction false} JoiningSettles(cfg: Config, t: Table, e: PacketEvent)
    requires Tracked(t)
    requires var p := FromEvent(e);
             var i := ActiveIndex(t, p);
             i < |t| && !TimedOut(cfg, t[i], p) && !p.Terminates()
    ensures var p := FromEvent(e);
            Settled(cfg, t, e, Without(t, ActiveIndex(t, p)) + [Grown(t[ActiveIndex(t, p)], p)], [])
  {
  }

  /** Reports a flow that is over; a packet that came too late for it opens the next one. */
  method EndFlow(slots: seq<Slot>, i: nat, e: PacketEvent, terminated: bool, ghost t: Table)
    returns (slots': seq<Slot>, event: FlowFeatureEvent)
    requires Holds(slots, t) && Distinct(slots) && i == ActiveSlot(slots, FromEvent(e)) < |slots|
    modifies slots[i].flow`features
    ensures Holds(slots', Without(t, i) + if terminated then [] else [Opening(FromEvent(e))])
    ensures Distinct(slots') && fresh(Flows(slots') - Flows(slots))
    ensures Reports(event, t[i], e)
  {
    PoppedDistinct(slots, i);
    slots', event := CloseFlow(slots, i, e, t);
    if terminated {
      assert Without(t, i) + [] == Without(t, i);
    } else {
      KeyIsFree(slots, i, FromEvent(e));
      slots' := OpenFlow(slots', FromEvent(e), Without(t, i));
    }
  }

  /** A packet of a tracked flow ends it, replaces it or joins it. */
  method SettleActive(cfg: Config, slots: seq<Slot>, i: nat, e: PacketEvent, ghost t: Table)
    returns (slots': seq<Slot>, output: seq<FlowFeatureEvent>, ghost t': Table)
    requires Holds(slots, t) && Distinct(slots) && Tracked(t)
    requires i == ActiveSlot(slots, FromEvent(e)) < |slots|
    modifies slots[i].flow
    ensures Holds(slots', t') && Distinct(slots') && fresh(Flows(slots') - Flows(slots))
    ensures Settled(cfg, t, e, t', output)
  {
    var packet := FromEvent(e);
    HoldsActive(slots, t, packet);
    assert HoldsAt(slots[i], t[i]);
    HoldsSeen(slots[i], t[i]);
    var timedOut := packet.timestamp - slots[i].flow.GetFlowLastSeen() > cfg.timeout;
    var terminated := packet.fin || packet.rst;
    if timedOut || terminated {
      var event;
      slots', event := EndFlow(slots, i, e, terminated, t);
      output, t' := [event], Without(t, i) + if terminated then [] else [Opening(packet)];
      EndingSettles(cfg, t, e, event);
    } else {
      slots' := TouchFlow(slots, i, packet, t);
      output, t' := [], Without(t, i) + [Grown(t[i], packet)];
      JoiningSettles(cfg, t, e);
    }
  }

  /** Settles a packet in the table it finds. */
  method Settle(cfg: Config, slots: seq<Slot>, e: PacketEvent, ghost t: Table)
    returns (slots': seq<Slot>, output: seq<FlowFeatureEvent>, ghost t': Table)
    requires Holds(slots, t) && Distinct(slots) && Tracked(t)
    modifies Flows(slots)
    ensures Holds(slots', t') && Distinct(slots') && fresh(Flows(slots') - Flows(slots))
    ensures Settled(cfg, t, e, t', output)
  {
    var i := ActiveSlot(slots, FromEvent(e));
    if i == |slots| {
      output := [];
      slots', t' := SettleNew(cfg, slots, e, t);
    } else {
      assert slots[i].flow in Flows(slots);
      slots', output, t' := SettleActive(cfg, slots, i, e, t);
    }
  }

  // --------------------------------------------------------------------- sweeping

  /** The first n entries are stale. */
  ghost predicate StaleUpTo(t: Table, n: nat, threshold: real)
    requires Tracked(t)
  {
    n <= |t| && forall i | 0 <= i < n :: LastSeen(t[i]) <= threshold
  }

  /** The stale prefix ends where the first fresh entry stands. */
  lemma {:induction false} PrefixEnds(t: Table, threshold: real, n: nat)
    requires Tracked(t) && StaleUpTo(t, n, threshold)
    requires n < |t| ==> LastSeen(t[n]) > threshold
    ensures StalePrefix(t, threshold) == n
  {
  }

  /** Each flow says it was last seen when its entry was. */
  ghost predicate Timed(slots: seq<Slot>, t: Table)
    requires Tracked(t)
    reads Flows(slots)
  {
    |slots| == |t| && forall i | 0 <= i < |slots| :: slots[i].flow.GetFlowLastSeen() == LastSeen(t[i])
  }

  lemma {:induction false} HoldsTimed(slots: seq<Slot>, t: Table)
    requires Holds(slots, t) && Tracked(t)
    ensures Timed(slots, t)
  {
    forall i | 0 <= i < |slots|
      ensures slots[i].flow.GetFlowLastSeen() == LastSeen(t[i])
    {
      assert HoldsAt(slots[i], t[i]);
      HoldsSeen(slots[i], t[i]);
    }
  }

  /** Collects keys from the head and stops at the first flow seen after the threshold. */
  method StaleKeys(slots: seq<Slot>, threshold: real, ghost t: Table) returns (stale: seq<string>)
    requires Tracked(t) && Timed(slots, t)
    ensures |stale| == StalePrefix(t, threshold)
    ensures forall j | 0 <= j < |stale| :: stale[j] == slots[j].key
  {
    stale := [];
    for i := 0 to |slots|
      invariant i == |stale| && StaleUpTo(t, i, threshold)
      invariant forall j | 0 <= j < i :: stale[j] == slots[j].key
    {
      if slots[i].flow.GetFlowLastSeen() > threshold {
        PrefixEnds(t, threshold, i);
        return;
      }
      stale := stale + [slots[i].key];
    }
    PrefixEnds(t, threshold, |slots|);
  }

  /** Pops the keys one by one. */
  method PopAll(slots: seq<Slot>, keys: seq<string>) returns (rest: seq<Slot>)
    requires |keys| <= |slots| && forall j | 0 <= j < |keys| :: keys[j] == slots[j].key
    ensures rest == slots[|keys|..]
  {
    rest := slots;
    for k := 0 to |keys|
      invariant rest == slots[k..]
    {
      assert rest[0] == slots[k];
      rest := Popped(rest, Find(rest, keys[k]));
    }
  }

  /** Drops flows from the head until one was seen after the threshold. */
  method EvictStale(slots: seq<Slot>, threshold: real, ghost t: Table) returns (live: seq<Slot>)
    requires Holds(slots, t) && Tracked(t)
    ensures live == slots[StalePrefix(t, threshold)..]
  {
    HoldsTimed(slots, t);
    var stale := StaleKeys(slots, threshold, t);
    live := PopAll(slots, stale);
  }

  /** The table the seen-th packet is settled in: every so often the stale flows are dropped first. */
  method SweepWhenDue(cfg: Config, slots: seq<Slot>, seen: nat, now: real, ghost s: State)
    returns (live: seq<Slot>, ghost n: nat)
    requires Holds(slots, s.table) && Distinct(slots) && Tracked(s.table) && s.packetsSeen + 1 == seen
    ensures n == Sweep(cfg, s, now) == if seen % 1000 == 0 then StalePrefix(s.table, now - cfg.timeout) else 0
    ensures Holds(live, s.table[n..]) && Distinct(live) && Flows(live) <= Flows(slots)
  {
    n := Sweep(cfg, s, now);
    HoldsSuffix(slots, s.table, n);
    SuffixDistinct(slots, n);
    live := slots;
    if seen % SWEEP_INTERVAL == 0 {
      live := EvictStale(slots, now - cfg.timeout, s.table);
    }
    assert live == slots[n..];
  }

  // ---------------------------------------------------------------------- service

  lemma {:induction false} SettlingCompletesStep(cfg: Config, s: State, e: PacketEvent, t': Table,
      output: seq<FlowFeatureEvent>)
    requires Tracked(s.table) && Settled(cfg, s.table[Sweep(cfg, s, e.timestamp)..], e, t', output)
    ensures Advanced(cfg, s, e, State.State(t', s.packetsSeen + 1), output)
  {
  }

  /** One packet takes the state to the next and publishes one event for each flow that the step emits. */
  ghost predicate Advanced(cfg: Config, s: State, e: PacketEvent, s': State, output: seq<FlowFeatureEvent>)
    requires Tracked(s.table)
  {
    var r := Process(cfg, s, FromEvent(e));
    s' == r.state && ReportsAll(output, r.ledger.emitted, e)
  }

  class FlowBuilderService {
    const timeout: real
    const maxFlows: int

    /** The ordered dictionary, least recently seen first. */
    var currentFlows: seq<Slot>
    var packetsSeen: nat

    /** The packets behind the tracked flows. */
    ghost var table: Table

    ghost predicate Valid()
      reads this, Flows(currentFlows)
    {
      Holds(currentFlows, table) && Distinct(currentFlows)
    }

    ghost function Now(): State
      reads this
    {
      State.State(table, packetsSeen)
    }

    function Cfg(): Config {
      Config(timeout, maxFlows)
    }

    constructor (timeout: real, maxFlows: int)
      ensures Valid() && Cfg() == Config(timeout, maxFlows) && Now() == START.state && currentFlows == []
    {
      this.timeout, this.maxFlows := timeout, maxFlows;
      currentFlows, packetsSeen, table := [], 0, [];
    }

    /** One packet: counts it, sweeps when due, and settles it in the table. */
    method ProcessPacket(e: PacketEvent) returns (output: seq<FlowFeatureEvent>)
      requires Valid()
      modifies this, Flows(currentFlows)
      ensures Valid() && fresh(Flows(currentFlows) - old(Flows(currentFlows)))
      ensures Tracked(old(table)) && Advanced(Cfg(), old(Now()), e, Now(), output)
    {
      HoldsTracked(currentFlows, table);
      ghost var s := Now();
      packetsSeen := packetsSeen + 1;
      var live, n := SweepWhenDue(Cfg(), currentFlows, packetsSeen, e.timestamp, s);
      currentFlows, output, table := Settle(Cfg(), live, e, s.table[n..]);
      SettlingCompletesStep(Cfg(), s, e, table, output);
    }
  }
}
