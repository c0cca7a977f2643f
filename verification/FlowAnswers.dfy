/** When the two ids of a packet can answer to two flows of the table at once. */
module FlowAnswers {
  import opened Packets
  import opened FlowTable
  import opened FlowShape
  import opened FlowKeys
  import FlowLedger

  ghost predicate KeysDistinct(t: Table) {
    forall i, j | 0 <= i < j < |t| :: t[i].key != t[j].key
  }

  /** No two flows stand under the packet's two ids. */
  ghost predicate OneAnswer(t: Table, p: PacketInfo) {
    forall i, j | 0 <= i < |t| && 0 <= j < |t| && t[i].key == p.fwdId && t[j].key == p.bwdId :: p.fwdId == p.bwdId
  }

  /** Packets that carry one of the packet's two ids as their own carry the other one reversed. */
  ghost predicate OneEach(a: set<PacketInfo>, p: PacketInfo) {
    forall o, q | o in a && q in a && o.fwdId == p.fwdId && q.fwdId == p.bwdId && p.fwdId != p.bwdId ::
      q.bwdId == p.fwdId && o.bwdId == p.bwdId
  }

  lemma {:induction false} MutualIdsAnswerOnce(a: set<PacketInfo>, p: PacketInfo)
    requires MutualIds(a) && p in a
    ensures OneEach(a, p)
  {
  }

  lemma {:induction false} FiledDistinct(cfg: Config, t: Table, x: PacketInfo, k: nat)
    requires Tracked(t) && KeysDistinct(t) && k < |t| && k != ActiveIndex(t, x) && Filed(cfg, t, x) != []
    ensures Filed(cfg, t, x)[0].key != t[k].key
  {
    var i := ActiveIndex(t, x);
    if i < k < |t| {
      assert t[i].key != t[k].key;
    } else if i < |t| {
      assert t[k].key != t[i].key;
    }
  }

  lemma {:induction false} OneMoreDistinct(t: Table, more: Table)
    requires |more| <= 1 && KeysDistinct(t) && forall j | 0 <= j < |t| :: more != [] ==> more[0].key != t[j].key
    ensures KeysDistinct(t + more)
  {
  }

  lemma {:induction false} SettleKeepsKeysDistinct(cfg: Config, t: Table, x: PacketInfo)
    requires Tracked(t) && KeysDistinct(t)
    ensures KeysDistinct(Kept(cfg, t, x) + Filed(cfg, t, x))
  {
    FlowLedger.KeptInOrder(cfg, t, x);
    var kept, filed := Kept(cfg, t, x), Filed(cfg, t, x);
    forall j, k | 0 <= j < k < |kept|
      ensures kept[j].key != kept[k].key
    {
      assert FlowLedger.Source(cfg, t, x, j) < FlowLedger.Source(cfg, t, x, k);
    }
    forall j | 0 <= j < |kept|
      ensures filed != [] ==> filed[0].key != kept[j].key
    {
      if filed != [] {
        FiledDistinct(cfg, t, x, FlowLedger.Source(cfg, t, x, j));
      }
    }
    OneMoreDistinct(kept, filed);
  }

  lemma {:induction false} RunKeepsKeysDistinct(cfg: Config, packets: seq<PacketInfo>)
    ensures KeysDistinct(Run(cfg, packets).state.table)
  {
    if packets != [] {
      var before, p := packets[..|packets| - 1], packets[|packets| - 1];
      RunKeepsKeysDistinct(cfg, before);
      var s := Run(cfg, before).state;
      SettleKeepsKeysDistinct(cfg, s.table[Sweep(cfg, s, p.timestamp)..], p);
    }
  }

  /** The keys are the packet's two ids, which differ. */
  predicate Clash(p: PacketInfo, e: Entry, f: Entry) {
    p.fwdId != p.bwdId && e.key == p.fwdId && f.key == p.bwdId
  }

  /** What is filed for a packet does not answer to p beside another flow. */
  lemma {:induction false} FiledDoesNotClash(cfg: Config, t: Table, x: PacketInfo, a: set<PacketInfo>, p: PacketInfo,
      k: nat)
    requires Tracked(t) && KeysDistinct(t) && Every(t, FromAny(a)) && x in a && OneEach(a, p) && OneAnswer(t, p)
    requires k < |t| && k != ActiveIndex(t, x) && Filed(cfg, t, x) != []
    ensures !Clash(p, Filed(cfg, t, x)[0], t[k]) && !Clash(p, t[k], Filed(cfg, t, x)[0])
  {
    var i, e := ActiveIndex(t, x), Filed(cfg, t, x)[0];
    assert FromAny(a)(t[k]);
    if i < |t| && i != k {
      assert t[if i < k then i else k].key != t[if i < k then k else i].key;
    }
  }

  lemma {:induction false} OneMoreAnswers(t: Table, more: Table, p: PacketInfo)
    requires |more| <= 1 && OneAnswer(t, p)
    requires forall j | 0 <= j < |t| :: more != [] ==> !Clash(p, more[0], t[j]) && !Clash(p, t[j], more[0])
    ensures OneAnswer(t + more, p)
  {
  }

  lemma {:induction false} KeptStillAnswer(cfg: Config, t: Table, x: PacketInfo, p: PacketInfo)
    requires Tracked(t) && OneAnswer(t, p)
    ensures OneAnswer(Kept(cfg, t, x), p)
  {
    FlowLedger.KeptInOrder(cfg, t, x);
  }

  lemma {:induction false} SettleKeepsOneAnswer(cfg: Config, t: Table, x: PacketInfo, a: set<PacketInfo>,
      p: PacketInfo)
    requires Tracked(t) && KeysDistinct(t) && Every(t, FromAny(a)) && x in a && OneEach(a, p) && OneAnswer(t, p)
    ensures OneAnswer(Kept(cfg, t, x) + Filed(cfg, t, x), p)
  {
    KeptStillAnswer(cfg, t, x, p);
    var kept, filed := Kept(cfg, t, x), Filed(cfg, t, x);
    forall j | 0 <= j < |kept|
      ensures filed != [] ==> !Clash(p, filed[0], kept[j]) && !Clash(p, kept[j], filed[0])
    {
      FlowLedger.KeptInOrder(cfg, t, x);
      if filed != [] {
        FiledDoesNotClash(cfg, t, x, a, p, FlowLedger.Source(cfg, t, x, j));
      }
    }
    OneMoreAnswers(kept, filed, p);
  }

  lemma {:induction false} RunKeepsOneAnswer(cfg: Config, packets: seq<PacketInfo>, a: set<PacketInfo>, p: PacketInfo)
    requires Within(packets, a) && OneEach(a, p)
    ensures OneAnswer(Run(cfg, packets).state.table, p)
  {
    if packets != [] {
      var before, x := packets[..|packets| - 1], packets[|packets| - 1];
      RunKeepsOneAnswer(cfg, before, a, p);
      RunKeepsKeysDistinct(cfg, before);
      EveryFlowIsOpenedFrom(cfg, before, a);
      var s := Run(cfg, before).state;
      var n := Sweep(cfg, s, x.timestamp);
      EveryPart(s.table, n, FromAny(a));
      SettleKeepsOneAnswer(cfg, s.table[n..], x, a, p);
    }
  }

  lemma {:induction false} OpeningsClash(t: Table, e: PacketInfo, f: PacketInfo, p: PacketInfo)
    requires t == [Opening(e)] + [Opening(f)] && p.fwdId != p.bwdId
    requires (e.fwdId == p.fwdId && f.fwdId == p.bwdId) || (e.fwdId == p.bwdId && f.fwdId == p.fwdId)
    ensures |t| == 2 && (Clash(p, t[0], t[1]) || Clash(p, t[1], t[0]))
  {
  }

  lemma {:induction false} TwoAnswers(cfg: Config, o: PacketInfo, q: PacketInfo, p: PacketInfo)
    returns (packets: seq<PacketInfo>)
    requires cfg.maxFlows >= 2 && o.fwdId == p.fwdId && q.fwdId == p.bwdId && p.fwdId != p.bwdId
    requires q.bwdId != p.fwdId || o.bwdId != p.bwdId
    ensures packets == [o, q] || packets == [q, o]
    ensures var t := Run(cfg, packets).state.table;
            |t| == 2 && (Clash(p, t[0], t[1]) || Clash(p, t[1], t[0]))
  {
    if q.bwdId != p.fwdId {
      packets := [o, q];
      TwoOpenings(cfg, o, q);
      OpeningsClash(Run(cfg, packets).state.table, o, q, p);
    } else {
      packets := [q, o];
      TwoOpenings(cfg, q, o);
      OpeningsClash(Run(cfg, packets).state.table, q, o, p);
    }
  }

  lemma {:induction false} ShortTableAnswers(t: Table, p: PacketInfo)
    requires |t| <= 1
    ensures OneAnswer(t, p)
  {
  }

  lemma {:induction false} LoneFlowAnswers(cfg: Config, packets: seq<PacketInfo>, p: PacketInfo)
    requires cfg.maxFlows <= 1
    ensures OneAnswer(Run(cfg, packets).state.table, p)
  {
    FlowLedger.TableStaysBounded(cfg, packets);
    ShortTableAnswers(Run(cfg, packets).state.table, p);
  }

  lemma {:induction false} TwoThatAnswer(a: set<PacketInfo>, p: PacketInfo) returns (o: PacketInfo, q: PacketInfo)
    requires !OneEach(a, p)
    ensures o in a && q in a && o.fwdId == p.fwdId && q.fwdId == p.bwdId && p.fwdId != p.bwdId
    ensures q.bwdId != p.fwdId || o.bwdId != p.bwdId
  {
    o, q :| o in a && q in a && o.fwdId == p.fwdId && q.fwdId == p.bwdId && p.fwdId != p.bwdId
            && (q.bwdId != p.fwdId || o.bwdId != p.bwdId);
  }

  lemma {:induction false} PairWithin(a: set<PacketInfo>, o: PacketInfo, q: PacketInfo)
    requires o in a && q in a
    ensures Within([o, q], a) && Within([q, o], a)
  {
  }

  lemma {:induction false} TwoCanAnswer(cfg: Config, a: set<PacketInfo>, p: PacketInfo)
    returns (packets: seq<PacketInfo>)
    requires cfg.maxFlows >= 2 && !OneEach(a, p)
    ensures Within(packets, a) && |packets| == 2
    ensures var t := Run(cfg, packets).state.table; |t| == 2 && (Clash(p, t[0], t[1]) || Clash(p, t[1], t[0]))
  {
    var o, q := TwoThatAnswer(a, p);
    PairWithin(a, o, q);
    packets := TwoAnswers(cfg, o, q, p);
  }

  lemma {:induction false} ClashIsTwo(t: Table, p: PacketInfo)
    requires |t| == 2 && (Clash(p, t[0], t[1]) || Clash(p, t[1], t[0]))
    ensures !OneAnswer(t, p)
  {
  }

  /**
    Two flows can come to answer to one packet exactly when there is room for two and some packets carry its two
    ids but not as each other's reversal.
    */
  lemma {:induction false} OneAnswerExactly(cfg: Config, a: set<PacketInfo>, p: PacketInfo)
    ensures cfg.maxFlows <= 1 || OneEach(a, p)
            <==> forall packets | Within(packets, a) :: OneAnswer(Run(cfg, packets).state.table, p)
  {
    if cfg.maxFlows <= 1 || OneEach(a, p) {
      forall packets | Within(packets, a)
        ensures OneAnswer(Run(cfg, packets).state.table, p)
      {
        if cfg.maxFlows <= 1 {
          LoneFlowAnswers(cfg, packets, p);
        } else {
          RunKeepsOneAnswer(cfg, packets, a, p);
        }
      }
    } else {
      var packets := TwoCanAnswer(cfg, a, p);
      ClashIsTwo(Run(cfg, packets).state.table, p);
    }
  }
}
