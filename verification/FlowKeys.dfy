/** The two ids under which a packet is looked up behave as one unordered key. */
module FlowKeys {
  import opened Packets
  import opened FlowHistory
  import opened FlowTable
  import opened FlowShape
  import FlowLedger

  datatype Endpoint = Endpoint(address: string, port: int)

  /** Two endpoints in no order, and a protocol. */
  datatype Conversation = Conversation(ends: set<Endpoint>, protocol: string)

  function Conv(p: PacketInfo): Conversation {
    Conversation({Endpoint(p.src, p.srcPort), Endpoint(p.dest, p.destPort)}, p.protocol)
  }

  lemma {:induction false} ConvIsTupleOrReversal(p: PacketInfo, q: PacketInfo)
    ensures Conv(p) == Conv(q) <==> p.Tuple() == q.Tuple() || p.Tuple() == q.Tuple().Reversed()
  {
    var a, b := Endpoint(p.src, p.srcPort), Endpoint(p.dest, p.destPort);
    var c, d := Endpoint(q.src, q.srcPort), Endpoint(q.dest, q.destPort);
    if {a, b} == {c, d} {
      assert a in {c, d} && b in {c, d} && c in {a, b} && d in {a, b};
    }
  }

  /** Two addressed packets belong to one conversation exactly when one carries the other's id or its reversal. */
  lemma {:induction false} SameConversation(p: PacketInfo, q: PacketInfo)
    requires p.Addressed() && q.Addressed()
    ensures Conv(p) == Conv(q) <==> q.fwdId == p.fwdId || q.fwdId == p.bwdId
    ensures Conv(p) == Conv(q) <==> q.fwdId == p.fwdId || q.bwdId == p.fwdId
  {
    ConvIsTupleOrReversal(p, q);
    FlowIdsIdentifyTuples(p, q);
    FlowIdsIdentifyTuples(q, p);
  }

  /**
    An entry is filed under its opener's id; forward packets carry the key as their id, backward ones as their
    reversed id only.
    */
  ghost predicate WellFiled(e: Entry) {
    && e.history != []
    && e.history[0].direction == Fwd
    && e.key == e.history[0].packet.fwdId
    && forall i | 0 <= i < |e.history| ::
         if e.history[i].direction == Fwd then e.history[i].packet.fwdId == e.key
         else e.history[i].packet.bwdId == e.key && e.history[i].packet.fwdId != e.key
  }

  lemma {:induction false} GrownStaysWellFiled(cfg: Config, e: Entry, p: PacketInfo)
    requires WellFiled(e) && Takes(cfg, e, p)
    ensures WellFiled(Grown(e, p))
  {
  }

  lemma {:induction false} WellFiledEstablished(cfg: Config, p: PacketInfo)
    ensures Establishes(cfg, WellFiled, p)
  {
    forall e | WellFiled(e) && Takes(cfg, e, p)
      ensures WellFiled(Grown(e, p))
    {
      GrownStaysWellFiled(cfg, e, p);
    }
  }

  lemma {:induction false} EveryFlowIsWellFiled(cfg: Config, packets: seq<PacketInfo>)
    ensures EveryEntry(Run(cfg, packets), WellFiled)
  {
    forall i | 0 <= i < |packets|
      ensures Establishes(cfg, WellFiled, packets[i])
    {
      WellFiledEstablished(cfg, packets[i]);
    }
    RunKeepsEvery(cfg, packets, WellFiled);
  }

  ghost predicate AllAddressed(packets: seq<PacketInfo>) {
    forall i | 0 <= i < |packets| :: packets[i].Addressed()
  }

  function ConvOf(e: Entry): Conversation
    requires e.history != []
  {
    Conv(e.history[0].packet)
  }

  /** One entry per conversation. */
  ghost predicate OnePerConversation(t: Table)
    requires Tracked(t)
  {
    forall i, j | 0 <= i < j < |t| :: ConvOf(t[i]) != ConvOf(t[j])
  }

  function Opener(e: Entry): PacketInfo
    requires e.history != []
  {
    e.history[0].packet
  }

  // ----------------------------------------------- ids that tell conversations apart

  /** A later packet carries the id of an earlier one exactly when both belong to one conversation. */
  predicate Tells(earlier: PacketInfo, later: PacketInfo) {
    Conv(earlier) == Conv(later) <==> earlier.fwdId == later.fwdId || earlier.fwdId == later.bwdId
  }

  ghost predicate IdsTellPairs(a: set<PacketInfo>) {
    forall p, q | p in a && q in a :: Tells(p, q)
  }

  ghost predicate AllTell(packets: seq<PacketInfo>) {
    forall i, j | 0 <= i < j < |packets| :: Tells(packets[i], packets[j])
  }

  lemma {:induction false} AddressedTell(p: PacketInfo, q: PacketInfo)
    requires p.Addressed() && q.Addressed()
    ensures Tells(p, q)
  {
    SameConversation(q, p);
  }

  lemma {:induction false} AllAddressedTell(packets: seq<PacketInfo>)
    requires AllAddressed(packets)
    ensures AllTell(packets)
  {
    forall i, j | 0 <= i < j < |packets|
      ensures Tells(packets[i], packets[j])
    {
      AddressedTell(packets[i], packets[j]);
    }
  }

  /**
    Packets whose ids are printed from their five-tuples never miss their conversation, so their ids tell it
    exactly unless two conversations share an id.
    */
  lemma {:induction false} StampedTellExactly(p: PacketInfo, q: PacketInfo)
    requires p.Stamped() && q.Stamped()
    ensures Tells(p, q) <==> (p.fwdId == q.fwdId || p.fwdId == q.bwdId ==> Conv(p) == Conv(q))
  {
    ConvIsTupleOrReversal(p, q);
  }

  lemma {:induction false} PrefixTells(packets: seq<PacketInfo>, p: PacketInfo)
    requires AllTell(packets + [p])
    ensures AllTell(packets) && forall i | 0 <= i < |packets| :: Tells(packets[i], p)
  {
    var all := packets + [p];
    forall i | 0 <= i < |packets|
      ensures all[i] == packets[i] && Tells(packets[i], p)
    {
      assert Tells(all[i], all[|packets|]);
    }
    forall i, j | 0 <= i < j < |packets|
      ensures Tells(packets[i], packets[j])
    {
      assert Tells(all[i], all[j]);
    }
  }

  ghost predicate Within(packets: seq<PacketInfo>, a: set<PacketInfo>) {
    forall i | 0 <= i < |packets| :: packets[i] in a
  }

  lemma {:induction false} WithinTells(packets: seq<PacketInfo>, a: set<PacketInfo>)
    requires IdsTellPairs(a) && Within(packets, a)
    ensures AllTell(packets)
  {
  }

  lemma {:induction false} WithinOneMore(packets: seq<PacketInfo>, p: PacketInfo, a: set<PacketInfo>)
    requires Within(packets, a) && p in a
    ensures Within(packets + [p], a)
  {
  }

  /** Filed under the id of its opener, one of the given packets. */
  ghost predicate OpenedFrom(a: set<PacketInfo>, e: Entry) {
    e.history != [] && Opener(e) in a && e.key == Opener(e).fwdId
  }

  ghost function FromAny(a: set<PacketInfo>): Entry -> bool {
    (e: Entry) => OpenedFrom(a, e)
  }

  lemma {:induction false} EveryFlowIsOpenedFrom(cfg: Config, packets: seq<PacketInfo>, a: set<PacketInfo>)
    requires Within(packets, a)
    ensures EveryEntry(Run(cfg, packets), FromAny(a))
  {
    forall i | 0 <= i < |packets|
      ensures Establishes(cfg, FromAny(a), packets[i])
    {
      assert packets[i] in a;
    }
    RunKeepsEvery(cfg, packets, FromAny(a));
  }

  /** Filed under the id of its opener, which tells the packet's conversation. */
  ghost predicate TellsTo(p: PacketInfo, e: Entry) {
    e.history != [] && e.key == Opener(e).fwdId && Tells(Opener(e), p)
  }

  ghost function Telling(p: PacketInfo): Entry -> bool {
    (e: Entry) => TellsTo(p, e)
  }

  lemma {:induction false} OpenersTell(cfg: Config, packets: seq<PacketInfo>, p: PacketInfo)
    requires AllTell(packets + [p])
    ensures Every(Run(cfg, packets).state.table, Telling(p))
  {
    var a := set q | q in packets;
    var t := Run(cfg, packets).state.table;
    PrefixTells(packets, p);
    assert Within(packets, a);
    EveryFlowIsOpenedFrom(cfg, packets, a);
    forall k | 0 <= k < |t|
      ensures Telling(p)(t[k])
    {
      assert FromAny(a)(t[k]);
      var i :| 0 <= i < |packets| && packets[i] == Opener(t[k]);
      assert Tells(packets[i], p);
    }
  }

  /** Looking a packet up under both ids finds exactly the entry of its conversation. */
  lemma {:induction false} LookupFindsConversation(t: Table, p: PacketInfo)
    requires Tracked(t) && Every(t, Telling(p))
    ensures var i := ActiveIndex(t, p);
            if i < |t| then ConvOf(t[i]) == Conv(p) else forall j | 0 <= j < |t| :: ConvOf(t[j]) != Conv(p)
  {
    forall j | 0 <= j < |t|
      ensures ConvOf(t[j]) == Conv(p) <==> t[j].key == p.fwdId || t[j].key == p.bwdId
    {
      assert Telling(p)(t[j]);
    }
  }

  /** The entry filed last belongs to the packet's conversation. */
  lemma {:induction false} FiledConversation(cfg: Config, t: Table, p: PacketInfo)
    requires Tracked(t) && Every(t, Telling(p))
    ensures Filed(cfg, t, p) != [] ==> ConvOf(Filed(cfg, t, p)[0]) == Conv(p)
  {
    LookupFindsConversation(t, p);
  }

  lemma {:induction false} KeptAreOthers(cfg: Config, t: Table, p: PacketInfo)
    requires Tracked(t) && Every(t, Telling(p)) && OnePerConversation(t)
    ensures forall j | 0 <= j < |Kept(cfg, t, p)| :: ConvOf(Kept(cfg, t, p)[j]) != Conv(p)
  {
    FlowLedger.KeptInOrder(cfg, t, p);
    LookupFindsConversation(t, p);
  }

  lemma {:induction false} KeptStayOnePerConversation(cfg: Config, t: Table, p: PacketInfo)
    requires Tracked(t) && OnePerConversation(t)
    ensures OnePerConversation(Kept(cfg, t, p))
  {
    FlowLedger.KeptInOrder(cfg, t, p);
    var kept := Kept(cfg, t, p);
    forall j, k | 0 <= j < k < |kept|
      ensures ConvOf(kept[j]) != ConvOf(kept[k])
    {
      assert FlowLedger.Source(cfg, t, p, j) < FlowLedger.Source(cfg, t, p, k);
    }
  }

  lemma {:induction false} SettleKeepsOnePerConversation(cfg: Config, t: Table, p: PacketInfo)
    requires Tracked(t) && Every(t, Telling(p)) && OnePerConversation(t)
    ensures OnePerConversation(Kept(cfg, t, p) + Filed(cfg, t, p))
  {
    KeptAreOthers(cfg, t, p);
    KeptStayOnePerConversation(cfg, t, p);
    FiledConversation(cfg, t, p);
    OneMoreConversation(Kept(cfg, t, p), Filed(cfg, t, p), Conv(p));
  }

  lemma {:induction false} OneMoreConversation(t: Table, more: Table, c: Conversation)
    requires Tracked(t) && Tracked(more) && |more| <= 1 && OnePerConversation(t)
    requires more != [] ==> ConvOf(more[0]) == c
    requires forall j | 0 <= j < |t| :: ConvOf(t[j]) != c
    ensures OnePerConversation(t + more)
  {
  }

  lemma {:induction false} RunKeepsOnePerConversation(cfg: Config, packets: seq<PacketInfo>)
    requires AllTell(packets)
    ensures OnePerConversation(Run(cfg, packets).state.table)
  {
    if packets != [] {
      var before, p := packets[..|packets| - 1], packets[|packets| - 1];
      assert before + [p] == packets;
      PrefixTells(before, p);
      RunKeepsOnePerConversation(cfg, before);
      OpenersTell(cfg, before, p);
      var s := Run(cfg, before).state;
      var n := Sweep(cfg, s, p.timestamp);
      EveryPart(s.table, n, Telling(p));
      SettleKeepsOnePerConversation(cfg, s.table[n..], p);
    }
  }

  /** One entry for each conversation, and the packet's ids tell whether one of them is its own. */
  ghost predicate Ready(t: Table, p: PacketInfo) {
    Tracked(t) && Every(t, Telling(p)) && OnePerConversation(t)
  }

  lemma {:induction false} RunIsReady(cfg: Config, packets: seq<PacketInfo>, p: PacketInfo)
    requires AllTell(packets + [p])
    ensures Ready(Run(cfg, packets).state.table, p)
  {
    PrefixTells(packets, p);
    RunKeepsOnePerConversation(cfg, packets);
    OpenersTell(cfg, packets, p);
  }

  // ---------------------------------------------------- a key beside its reversal

  /** The two keys differ, and neither is the reversal of the other. */
  predicate Apart(e: Entry, f: Entry)
    requires e.history != [] && f.history != []
  {
    e.key != f.key && e.key != Opener(f).bwdId && f.key != Opener(e).bwdId
  }

  /** No key stands in the table twice, or beside its reversal. */
  ghost predicate KeysApart(t: Table)
    requires Tracked(t)
  {
    forall i, j | 0 <= i < j < |t| :: Apart(t[i], t[j])
  }

  /** A packet that carries another's reversed id as its own has the other's id reversed, or both carry one id. */
  ghost predicate MutualIds(a: set<PacketInfo>) {
    forall p, q | p in a && q in a && q.fwdId == p.bwdId :: q.bwdId == p.fwdId || q.fwdId == p.fwdId
  }

  /** A flow whose key is neither of the packet's ids stays apart from the one the packet opens. */
  lemma {:induction false} OpensApart(a: set<PacketInfo>, p: PacketInfo, f: Entry)
    requires MutualIds(a) && p in a && OpenedFrom(a, f)
    requires f.key != p.fwdId && f.key != p.bwdId
    ensures Apart(Opening(p), f)
  {
  }

  /** So does one that was apart from a flow under the packet's own id. */
  lemma {:induction false} ReopensApart(a: set<PacketInfo>, p: PacketInfo, e: Entry, f: Entry)
    requires MutualIds(a) && p in a && OpenedFrom(a, f)
    requires e.history != [] && e.key == p.fwdId && Apart(e, f)
    ensures Apart(Opening(p), f)
  {
  }

  lemma {:induction false} ApartInTable(t: Table, i: nat, j: nat)
    requires Tracked(t) && KeysApart(t) && i < |t| && j < |t| && i != j
    ensures Apart(t[i], t[j])
  {
    if j < i {
      assert Apart(t[j], t[i]);
    }
  }

  lemma {:induction false} NotFoundApart(t: Table, p: PacketInfo, k: nat)
    requires k < |t| && (ActiveIndex(t, p) < |t| ==> t[ActiveIndex(t, p)].key != p.fwdId)
    ensures t[k].key != p.fwdId
    ensures ActiveIndex(t, p) == |t| ==> t[k].key != p.bwdId
  {
  }

  /** What is filed for a packet is apart from every other entry. */
  lemma {:induction false} FiledApart(cfg: Config, t: Table, p: PacketInfo, a: set<PacketInfo>, k: nat)
    requires Tracked(t) && KeysApart(t) && Every(t, FromAny(a)) && MutualIds(a) && p in a
    requires k < |t| && k != ActiveIndex(t, p) && Filed(cfg, t, p) != []
    ensures Apart(Filed(cfg, t, p)[0], t[k])
  {
    var i := ActiveIndex(t, p);
    assert FromAny(a)(t[k]);
    if i < |t| {
      ApartInTable(t, i, k);
    }
    if i < |t| && t[i].key == p.fwdId {
      ReopensApart(a, p, t[i], t[k]);
    } else {
      NotFoundApart(t, p, k);
      OpensApart(a, p, t[k]);
    }
  }

  lemma {:induction false} OneMoreApart(t: Table, more: Table)
    requires Tracked(t) && Tracked(more) && |more| <= 1 && KeysApart(t)
    requires forall j | 0 <= j < |t| :: more != [] ==> Apart(more[0], t[j])
    ensures KeysApart(t + more)
  {
  }

  lemma {:induction false} KeptStayApart(cfg: Config, t: Table, p: PacketInfo)
    requires Tracked(t) && KeysApart(t)
    ensures KeysApart(Kept(cfg, t, p))
  {
    FlowLedger.KeptInOrder(cfg, t, p);
    var kept := Kept(cfg, t, p);
    forall j, k | 0 <= j < k < |kept|
      ensures Apart(kept[j], kept[k])
    {
      assert FlowLedger.Source(cfg, t, p, j) < FlowLedger.Source(cfg, t, p, k);
    }
  }

  lemma {:induction false} SettleKeepsKeysApart(cfg: Config, t: Table, p: PacketInfo, a: set<PacketInfo>)
    requires Tracked(t) && KeysApart(t) && Every(t, FromAny(a)) && MutualIds(a) && p in a
    ensures KeysApart(Kept(cfg, t, p) + Filed(cfg, t, p))
  {
    KeptStayApart(cfg, t, p);
    var kept, filed := Kept(cfg, t, p), Filed(cfg, t, p);
    forall j | 0 <= j < |kept|
      ensures filed != [] ==> Apart(filed[0], kept[j])
    {
      FlowLedger.KeptInOrder(cfg, t, p);
      if filed != [] {
        FiledApart(cfg, t, p, a, FlowLedger.Source(cfg, t, p, j));
      }
    }
    OneMoreApart(kept, filed);
  }

  lemma {:induction false} SuffixApart(t: Table, n: nat)
    requires Tracked(t) && KeysApart(t) && n <= |t|
    ensures KeysApart(t[n..])
  {
  }

  /** Mutual ids keep every key of a run apart from its reversal. */
  lemma {:induction false} MutualIdsKeepKeysApart(cfg: Config, packets: seq<PacketInfo>, a: set<PacketInfo>)
    requires MutualIds(a) && Within(packets, a)
    ensures KeysApart(Run(cfg, packets).state.table)
  {
    if packets != [] {
      var before, p := packets[..|packets| - 1], packets[|packets| - 1];
      MutualIdsKeepKeysApart(cfg, before, a);
      EveryFlowIsOpenedFrom(cfg, before, a);
      var s := Run(cfg, before).state;
      var n := Sweep(cfg, s, p.timestamp);
      SuffixApart(s.table, n);
      EveryPart(s.table, n, FromAny(a));
      SettleKeepsKeysApart(cfg, s.table[n..], p, a);
    }
  }

  /** Ids of addressed packets are mutual. */
  lemma {:induction false} AddressedIdsAreMutual(a: set<PacketInfo>)
    requires forall p | p in a :: p.Addressed()
    ensures MutualIds(a)
  {
    forall p, q | p in a && q in a && q.fwdId == p.bwdId
      ensures q.bwdId == p.fwdId
    {
      FlowIdsIdentifyTuples(q, p);
      FlowIdsIdentifyTuples(p, q);
    }
  }

  lemma {:induction false} OneOpening(cfg: Config, p: PacketInfo)
    ensures Run(cfg, [p]).state == State([Opening(p)], 1)
  {
    RunOneMore(cfg, [], p);
    assert [] + [p] == [p];
    var none := START.state.table;
    assert none[Surplus(cfg, none)..] + [Opening(p)] == [Opening(p)];
  }

  lemma {:induction false} TwoOpenings(cfg: Config, p: PacketInfo, q: PacketInfo)
    requires cfg.maxFlows >= 2 && p.fwdId != q.fwdId && p.fwdId != q.bwdId
    ensures Run(cfg, [p, q]).state.table == [Opening(p)] + [Opening(q)]
  {
    OneOpening(cfg, p);
    OpensBeside(cfg, State([Opening(p)], 1), q);
    RunOneMore(cfg, [p], q);
    assert [p] + [q] == [p, q];
  }

  /** One that fits in the table with another but is filed under the other's reversed id stands beside it. */
  lemma {:induction false} TwoPacketsSplit(cfg: Config, p: PacketInfo, q: PacketInfo)
    requires cfg.maxFlows >= 2 && q.fwdId == p.bwdId && q.bwdId != p.fwdId && q.fwdId != p.fwdId
    ensures !KeysApart(Run(cfg, [p, q]).state.table)
  {
    TwoOpenings(cfg, p, q);
    var t := [Opening(p)] + [Opening(q)];
    assert !Apart(t[0], t[1]);
  }

  /**
    Exactly when some two packets have ids that are reversals of each other one way only, and there is room
    for both, a run over the packets reaches a table with a key beside its reversal.
    */
  lemma {:induction false} KeysApartExactly(cfg: Config, a: set<PacketInfo>)
    ensures cfg.maxFlows <= 1 || MutualIds(a)
            <==> forall packets | Within(packets, a) :: KeysApart(Run(cfg, packets).state.table)
  {
    if cfg.maxFlows <= 1 || MutualIds(a) {
      forall packets | Within(packets, a)
        ensures KeysApart(Run(cfg, packets).state.table)
      {
        if MutualIds(a) {
          MutualIdsKeepKeysApart(cfg, packets, a);
        } else {
          FlowLedger.TableStaysBounded(cfg, packets);
        }
      }
    } else {
      var p, q :| p in a && q in a && q.fwdId == p.bwdId && q.bwdId != p.fwdId && q.fwdId != p.fwdId;
      TwoPacketsSplit(cfg, p, q);
      assert Within([p, q], a);
    }
  }

  /** So no run over addressed packets ever files a key beside its reversal. */
  lemma {:induction false} KeysStayApart(cfg: Config, packets: seq<PacketInfo>)
    requires AllAddressed(packets)
    ensures KeysApart(Run(cfg, packets).state.table)
  {
    var a := set p | p in packets;
    AddressedIdsAreMutual(a);
    KeysApartExactly(cfg, a);
    assert Within(packets, a);
  }

  function Dashed(src: string, dest: string): PacketInfo {
    FromEvent(PacketEvent(0.0, src, 1, dest, 1, "TCP", 0, map[], ""))
  }

  lemma {:induction false} DashedIds()
    ensures var p, q := Dashed("a-b", "c"), Dashed("c-a", "b");
            q.fwdId == p.bwdId && q.fwdId != p.fwdId && q.bwdId != p.fwdId
  {
    var p, q := Dashed("a-b", "c"), Dashed("c-a", "b");
    var rest := Joined(Decimal(1), Joined(Decimal(1), "TCP"));
    assert Joined("c", Joined("a-b", rest)) == Joined("c-a", Joined("b", rest));
    assert p.fwdId[0] == 'a' && q.fwdId[0] == 'c' && q.bwdId[0] == 'b';
  }

  /** With dashes in addresses ids can be reversals one way only, so a key can stand beside its reversal. */
  lemma {:induction false} DashesFileBesideReversal(cfg: Config)
    requires cfg.maxFlows >= 2
    ensures var p, q := Dashed("a-b", "c"), Dashed("c-a", "b");
            && !MutualIds({p, q})
            && Run(cfg, [p, q]).state.table == [Opening(p)] + [Opening(q)]
            && Opening(q).key == p.bwdId
  {
    DashedIds();
    TwoOpenings(cfg, Dashed("a-b", "c"), Dashed("c-a", "b"));
  }
}
