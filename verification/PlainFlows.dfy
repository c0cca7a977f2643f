/**
  The flow table without its order, its two keys and its direction tags: a plain map from conversations to
  the packets they have seen. Whatever the timestamps, every step of the real table is a step of this map; in
  ordered time it is one that scans the whole map.
  */
module PlainFlows {
  import opened Packets
  import opened FlowHistory
  import opened FlowTable
  import opened FlowShape
  import opened FlowKeys
  import opened FlowRecency
  import FlowLedger

  type Flows = map<Conversation, seq<PacketInfo>>

  /** No conversation is tracked without a packet. */
  ghost predicate Nonempty(m: Flows) {
    forall c | c in m :: m[c] != []
  }

  function SeenAt(ps: seq<PacketInfo>): real
    requires ps != []
  {
    Last(ps).timestamp
  }

  /** Full scan: only conversations seen after the threshold stay. */
  function Fresh(m: Flows, threshold: real): Flows
    requires Nonempty(m)
  {
    map c | c in m && SeenAt(m[c]) > threshold :: m[c]
  }

  /** What the sweep is to do with a packet. */
  datatype Sweeping = NotDue | Due(threshold: real)

  function SweepingAt(cfg: Config, seen: nat, now: real): Sweeping {
    if seen % 1000 == 0 then Due(now - cfg.timeout) else NotDue
  }

  function Swept(m: Flows, sweeping: Sweeping): Flows
    requires Nonempty(m)
  {
    match sweeping
    case NotDue => m
    case Due(threshold) => Fresh(m, threshold)
  }

  /** What a sweep may leave of the map: nothing else goes than conversations seen at or before a due threshold. */
  ghost predicate SweptSome(m: Flows, sweeping: Sweeping, live: Flows)
    requires Nonempty(m)
  {
    && (forall c | c in live :: c in m && live[c] == m[c])
    && (forall c | c in m && c !in live :: sweeping.Due? && SeenAt(m[c]) <= sweeping.threshold)
  }

  /** A full map gives up one conversation, unless it is empty. */
  ghost predicate GivesUpOne(cfg: Config, m: Flows, room: Flows) {
    if |m| < cfg.maxFlows || m == map[] then room == m
    else exists v | v in m :: room == m - {v}
  }

  /** What is given up was seen no later than anything else. */
  ghost predicate OldestGoes(m: Flows, room: Flows)
    requires Nonempty(m)
  {
    forall v, w | v in m && v !in room && w in m :: SeenAt(m[v]) <= SeenAt(m[w])
  }

  /** A packet of a tracked conversation ends it, replaces it or joins it. */
  function Settled(cfg: Config, m: Flows, p: PacketInfo): (r: (Flows, seq<seq<PacketInfo>>))
    requires Nonempty(m) && Conv(p) in m
  {
    var c := Conv(p);
    if p.fin || p.rst then (m - {c}, [m[c]])
    else if p.timestamp - SeenAt(m[c]) > cfg.timeout then (m[c := [p]], [m[c]])
    else (m[c := m[c] + [p]], [])
  }

  /** A packet of an untracked conversation opens it in the room that has been made and reports nothing. */
  ghost predicate Reported(cfg: Config, live: Flows, room: Flows, p: PacketInfo, m': Flows,
      reported: seq<seq<PacketInfo>>)
    requires Nonempty(live)
  {
    if Conv(p) in live then m' == Settled(cfg, live, p).0 && reported == Settled(cfg, live, p).1
    else m' == room[Conv(p) := [p]] && reported == []
  }

  /**
    The packet takes the map from m to m' and reports the given packet lists, after a sweep that left `live`
    and with `room` for one more conversation.
    */
  ghost predicate StepVia(cfg: Config, m: Flows, sweeping: Sweeping, live: Flows, room: Flows, p: PacketInfo,
      m': Flows, reported: seq<seq<PacketInfo>>)
    requires Nonempty(m)
  {
    && SweptSome(m, sweeping, live)
    && GivesUpOne(cfg, live, room)
    && Nonempty(live) && Reported(cfg, live, room, p, m', reported)
  }

  /** The seen-th packet takes the map from m to m' and reports the given packet lists. */
  ghost predicate PlainStep(cfg: Config, m: Flows, seen: nat, p: PacketInfo, m': Flows, reported: seq<seq<PacketInfo>>)
    requires Nonempty(m)
  {
    exists live, room :: StepVia(cfg, m, SweepingAt(cfg, seen, p.timestamp), live, room, p, m', reported)
  }

  /** A plain step whose sweep scans the whole map and whose victim is one of those seen longest ago. */
  ghost predicate ScanningStep(cfg: Config, m: Flows, seen: nat, p: PacketInfo, m': Flows,
      reported: seq<seq<PacketInfo>>)
    requires Nonempty(m)
  {
    var live := Swept(m, SweepingAt(cfg, seen, p.timestamp));
    exists room ::
      && StepVia(cfg, m, SweepingAt(cfg, seen, p.timestamp), live, room, p, m', reported)
      && OldestGoes(live, room)
  }

  // ----------------------------------------------------------------- abstraction

  ghost predicate Represents(t: Table, m: Flows)
    requires Tracked(t)
  {
    && (forall i | 0 <= i < |t| :: ConvOf(t[i]) in m && m[ConvOf(t[i])] == All(t[i].history))
    && (forall c | c in m :: Holds(t, c))
  }

  ghost predicate Holds(t: Table, c: Conversation)
    requires Tracked(t)
  {
    exists i :: 0 <= i < |t| && ConvOf(t[i]) == c
  }

  /** What the table says about each conversation. */
  ghost function Plain(t: Table): (m: Flows)
    requires Tracked(t)
  {
    if t == [] then map[]
    else Plain(t[..|t| - 1])[ConvOf(t[|t| - 1]) := All(t[|t| - 1].history)]
  }

  lemma {:induction false} RepresentsOne(t: Table, m: Flows, n: Flows)
    requires Tracked(t) && Represents(t, m) && Represents(t, n)
    ensures m == n
  {
    forall c | c in m
      ensures c in n && m[c] == n[c]
    {
      assert Holds(t, c);
    }
    forall c | c in n
      ensures c in m
    {
      assert Holds(t, c);
    }
  }

  lemma {:induction false} SnocRepresents(t: Table, m: Flows, e: Entry)
    requires Tracked(t) && Represents(t, m) && e.history != []
    requires !Holds(t, ConvOf(e))
    ensures Represents(t + [e], m[ConvOf(e) := All(e.history)])
  {
    var t', m' := t + [e], m[ConvOf(e) := All(e.history)];
    forall c | c in m'
      ensures Holds(t', c)
    {
      if c == ConvOf(e) {
        assert ConvOf(t'[|t|]) == c;
      } else {
        assert Holds(t, c);
        var i :| 0 <= i < |t| && ConvOf(t[i]) == c;
        assert ConvOf(t'[i]) == c;
      }
    }
    NotHeld(t, ConvOf(e));
  }

  lemma {:induction false} NotHeld(t: Table, c: Conversation)
    requires Tracked(t)
    ensures !Holds(t, c) <==> forall i | 0 <= i < |t| :: ConvOf(t[i]) != c
  {
  }

  lemma {:induction false} PlainRepresents(t: Table)
    requires Tracked(t) && OnePerConversation(t)
    ensures Represents(t, Plain(t)) && |Plain(t)| == |t|
  {
    if t != [] {
      var before, e := t[..|t| - 1], t[|t| - 1];
      PlainRepresents(before);
      SnocRepresents(before, Plain(before), e);
      assert before + [e] == t;
    }
  }

  /** The map of a table can be computed in any way that represents it. */
  lemma {:induction false} PlainIs(t: Table, m: Flows)
    requires Tracked(t) && OnePerConversation(t) && Represents(t, m)
    ensures Plain(t) == m
  {
    PlainRepresents(t);
    RepresentsOne(t, m, Plain(t));
  }

  lemma {:induction false} PlainNonempty(t: Table)
    requires Tracked(t) && OnePerConversation(t)
    ensures Nonempty(Plain(t))
  {
    PlainRepresents(t);
    forall c | c in Plain(t)
      ensures Plain(t)[c] != []
    {
      assert Holds(t, c);
    }
  }

  lemma {:induction false} WithoutHolds(t: Table, i: nat, c: Conversation)
    requires Tracked(t) && OnePerConversation(t) && i < |t|
    ensures Tracked(Without(t, i))
    ensures Holds(Without(t, i), c) <==> Holds(t, c) && c != ConvOf(t[i])
  {
    var t' := Without(t, i);
    forall j | 0 <= j < |t'|
      ensures t'[j] == t[if j < i then j else j + 1]
    {
    }
    if Holds(t, c) && c != ConvOf(t[i]) {
      var j :| 0 <= j < |t| && ConvOf(t[j]) == c;
      assert ConvOf(t'[if j < i then j else j - 1]) == c;
    }
  }

  lemma {:induction false} WithoutRepresents(t: Table, m: Flows, i: nat)
    requires Tracked(t) && OnePerConversation(t) && Represents(t, m) && i < |t|
    ensures Tracked(Without(t, i)) && Represents(Without(t, i), m - {ConvOf(t[i])})
    ensures !Holds(Without(t, i), ConvOf(t[i]))
  {
    WithoutHolds(t, i, ConvOf(t[i]));
    forall c | c in m - {ConvOf(t[i])}
      ensures Holds(Without(t, i), c)
    {
      WithoutHolds(t, i, c);
    }
  }

  lemma {:induction false} PlainAt(t: Table, i: nat)
    requires Tracked(t) && OnePerConversation(t) && i < |t|
    ensures ConvOf(t[i]) in Plain(t) && Plain(t)[ConvOf(t[i])] == All(t[i].history)
  {
    PlainRepresents(t);
  }

  lemma {:induction false} PlainHolds(t: Table, c: Conversation)
    requires Tracked(t) && OnePerConversation(t)
    ensures c in Plain(t) <==> Holds(t, c)
  {
    PlainRepresents(t);
  }

  /** Where the table files a tracked conversation. */
  lemma {:induction false} TrackedAt(t: Table, c: Conversation) returns (i: nat)
    requires Tracked(t) && OnePerConversation(t) && c in Plain(t)
    ensures i < |t| && ConvOf(t[i]) == c && Plain(t)[c] == All(t[i].history)
  {
    PlainHolds(t, c);
    i :| 0 <= i < |t| && ConvOf(t[i]) == c;
    PlainAt(t, i);
  }

  // ------------------------------------------------------------ the sweep on the map

  lemma {:induction false} SuffixOnePerConversation(t: Table, n: nat)
    requires Tracked(t) && OnePerConversation(t) && n <= |t|
    ensures OnePerConversation(t[n..])
  {
  }

  lemma {:induction false} SeenTogether(e: Entry)
    requires e.history != []
    ensures SeenAt(All(e.history)) == LastSeen(e)
  {
  }

  /** The first n entries are exactly the stale ones. */
  ghost predicate SplitAt(t: Table, n: nat, threshold: real)
    requires Tracked(t)
  {
    n <= |t| && forall i | 0 <= i < |t| :: LastSeen(t[i]) > threshold <==> i >= n
  }

  lemma {:induction false} RecencySplits(t: Table, now: real, threshold: real)
    requires Tracked(t) && ByRecency(t, now)
    ensures SplitAt(t, StalePrefix(t, threshold), threshold)
  {
    var n := StalePrefix(t, threshold);
    forall i | n <= i < |t|
      ensures LastSeen(t[i]) > threshold
    {
      assert LastSeen(t[n]) <= LastSeen(t[i]);
    }
  }

  lemma {:induction false} SuffixHoldsFresh(t: Table, m: Flows, n: nat, threshold: real, c: Conversation)
    requires Tracked(t) && SplitAt(t, n, threshold) && Represents(t, m) && Nonempty(m) && c in Fresh(m, threshold)
    ensures Holds(t[n..], c)
  {
    assert Holds(t, c);
    var i :| 0 <= i < |t| && ConvOf(t[i]) == c;
    SeenTogether(t[i]);
    assert ConvOf(t[n..][i - n]) == c;
  }

  lemma {:induction false} SweptIsFresh(t: Table, m: Flows, n: nat, threshold: real)
    requires Tracked(t) && SplitAt(t, n, threshold) && Represents(t, m) && Nonempty(m)
    ensures Represents(t[n..], Fresh(m, threshold))
  {
    var rest := t[n..];
    forall i | 0 <= i < |rest|
      ensures ConvOf(rest[i]) in Fresh(m, threshold) && m[ConvOf(rest[i])] == All(rest[i].history)
    {
      assert rest[i] == t[n + i];
      SeenTogether(t[n + i]);
    }
    forall c | c in Fresh(m, threshold)
      ensures Holds(rest, c)
    {
      SuffixHoldsFresh(t, m, n, threshold, c);
    }
  }

  /** The table a packet is settled in, after a sweep if one is due. */
  function Live(t: Table, sweeping: Sweeping): (live: Table)
    requires Tracked(t)
    ensures Tracked(live)
  {
    match sweeping
    case NotDue => t
    case Due(threshold) => t[StalePrefix(t, threshold)..]
  }

  lemma {:induction false} LiveStaysByRecency(t: Table, sweeping: Sweeping, now: real)
    requires Tracked(t) && ByRecency(t, now)
    ensures ByRecency(Live(t, sweeping), now)
  {
    if sweeping.Due? {
      SuffixByRecency(t, StalePrefix(t, sweeping.threshold), now);
    }
  }

  lemma {:induction false} LiveStaysReady(t: Table, sweeping: Sweeping, p: PacketInfo)
    requires Ready(t, p)
    ensures Ready(Live(t, sweeping), p)
  {
    if sweeping.Due? {
      SuffixOnePerConversation(t, StalePrefix(t, sweeping.threshold));
      EveryPart(t, StalePrefix(t, sweeping.threshold), Telling(p));
    }
  }

  /** In ordered time the early break comes to a scan of the map. */
  lemma {:induction false} LiveIsSwept(t: Table, sweeping: Sweeping, now: real)
    requires Tracked(t) && OnePerConversation(t) && ByRecency(t, now)
    ensures Nonempty(Plain(t)) && Plain(Live(t, sweeping)) == Swept(Plain(t), sweeping)
  {
    PlainNonempty(t);
    if sweeping.Due? {
      var threshold := sweeping.threshold;
      PlainRepresents(t);
      SuffixOnePerConversation(t, StalePrefix(t, threshold));
      RecencySplits(t, now, threshold);
      SweptIsFresh(t, Plain(t), StalePrefix(t, threshold), threshold);
      PlainIs(t[StalePrefix(t, threshold)..], Fresh(Plain(t), threshold));
    }
  }

  lemma {:induction false} SuffixIsPart(t: Table, n: nat, c: Conversation)
    requires Tracked(t) && OnePerConversation(t) && n <= |t| && OnePerConversation(t[n..]) && c in Plain(t[n..])
    ensures c in Plain(t) && Plain(t[n..])[c] == Plain(t)[c]
  {
    var i := TrackedAt(t[n..], c);
    PlainAt(t, n + i);
  }

  lemma {:induction false} GoneWasStale(t: Table, n: nat, threshold: real, c: Conversation)
    requires Tracked(t) && OnePerConversation(t) && n <= |t| && OnePerConversation(t[n..])
    requires forall i | 0 <= i < n :: LastSeen(t[i]) <= threshold
    requires Nonempty(Plain(t)) && c in Plain(t) && c !in Plain(t[n..])
    ensures SeenAt(Plain(t)[c]) <= threshold
  {
    var i := TrackedAt(t, c);
    if i < n {
      SeenTogether(t[i]);
    } else {
      assert t[n..][i - n] == t[i];
      PlainAt(t[n..], i - n);
    }
  }

  /** Whatever the timestamps, the sweep drops stale conversations only. */
  lemma {:induction false} LiveIsSweptSome(t: Table, sweeping: Sweeping)
    requires Tracked(t) && OnePerConversation(t) && Nonempty(Plain(t))
    ensures SweptSome(Plain(t), sweeping, Plain(Live(t, sweeping)))
  {
    if sweeping.Due? {
      var n := StalePrefix(t, sweeping.threshold);
      SuffixOnePerConversation(t, n);
      forall c | c in Plain(t[n..])
        ensures c in Plain(t) && Plain(t[n..])[c] == Plain(t)[c]
      {
        SuffixIsPart(t, n, c);
      }
      forall c | c in Plain(t) && c !in Plain(t[n..])
        ensures SeenAt(Plain(t)[c]) <= sweeping.threshold
      {
        GoneWasStale(t, n, sweeping.threshold, c);
      }
    }
  }

  lemma {:induction false} SweepLeavesLive(cfg: Config, s: State, p: PacketInfo)
    requires Tracked(s.table)
    ensures s.table[Sweep(cfg, s, p.timestamp)..]
            == Live(s.table, SweepingAt(cfg, s.packetsSeen + 1, p.timestamp))
  {
  }

  // -------------------------------------------------- settling is a step of the map

  ghost function Reports(t: Table): seq<seq<PacketInfo>> {
    seq(|t|, i requires 0 <= i < |t| => All(t[i].history))
  }

  lemma {:induction false} PlainSnoc(t: Table, e: Entry)
    requires Tracked(t) && e.history != []
    ensures Plain(t + [e]) == Plain(t)[ConvOf(e) := All(e.history)]
  {
    assert (t + [e])[..|t|] == t;
  }

  lemma {:induction false} PlainWithout(t: Table, i: nat)
    requires Tracked(t) && OnePerConversation(t) && i < |t|
    ensures Plain(Without(t, i)) == Plain(t) - {ConvOf(t[i])}
  {
    PlainRepresents(t);
    WithoutRepresents(t, Plain(t), i);
    WithoutOnePerConversation(t, i);
    PlainIs(Without(t, i), Plain(t) - {ConvOf(t[i])});
  }

  lemma {:induction false} WithoutOnePerConversation(t: Table, i: nat)
    requires Tracked(t) && OnePerConversation(t) && i < |t|
    ensures OnePerConversation(Without(t, i))
  {
    var t' := Without(t, i);
    forall j | 0 <= j < |t'|
      ensures t'[j] == t[if j < i then j else j + 1]
    {
    }
  }

  lemma {:induction false} PlainReplace(t: Table, i: nat, e: Entry)
    requires Tracked(t) && OnePerConversation(t) && i < |t|
    requires e.history != [] && ConvOf(e) == ConvOf(t[i])
    ensures Plain(Without(t, i) + [e]) == Plain(t)[ConvOf(e) := All(e.history)]
  {
    PlainWithout(t, i);
    PlainSnoc(Without(t, i), e);
    var c, m := ConvOf(e), Plain(t);
    assert (m - {c})[c := All(e.history)] == m[c := All(e.history)];
  }

  /** The packet's entry is found where its conversation is tracked. */
  lemma {:induction false} LookupLocates(t: Table, p: PacketInfo)
    requires Ready(t, p)
    ensures var i := ActiveIndex(t, p);
            if i < |t| then ConvOf(t[i]) == Conv(p) && Conv(p) in Plain(t) else Conv(p) !in Plain(t)
  {
    LookupFindsConversation(t, p);
    PlainHolds(t, Conv(p));
  }

  lemma {:induction false} SettlingIsPlain(cfg: Config, t: Table, p: PacketInfo)
    requires Tracked(t) && OnePerConversation(t) && Nonempty(Plain(t)) && Conv(p) in Plain(t)
    requires ActiveIndex(t, p) < |t| && ConvOf(t[ActiveIndex(t, p)]) == Conv(p)
    ensures Settled(cfg, Plain(t), p).0 == Plain(Kept(cfg, t, p) + Filed(cfg, t, p))
  {
    var i := ActiveIndex(t, p);
    PlainAt(t, i);
    SeenTogether(t[i]);
    if p.Terminates() {
      PlainWithout(t, i);
      assert Without(t, i) + [] == Without(t, i);
    } else if TimedOut(cfg, t[i], p) {
      assert All(Opening(p).history) == [p];
      PlainReplace(t, i, Opening(p));
    } else {
      AllSnoc(t[i].history, Tagged(p, DirectionFor(t[i].key, p)));
      PlainReplace(t, i, Grown(t[i], p));
    }
  }

  lemma {:induction false} ReportingIsPlain(cfg: Config, t: Table, p: PacketInfo)
    requires Tracked(t) && OnePerConversation(t) && Nonempty(Plain(t)) && Conv(p) in Plain(t)
    requires ActiveIndex(t, p) < |t| && ConvOf(t[ActiveIndex(t, p)]) == Conv(p)
    ensures Settled(cfg, Plain(t), p).1 == Reports(Emitted(cfg, t, p))
  {
    PlainAt(t, ActiveIndex(t, p));
    SeenTogether(t[ActiveIndex(t, p)]);
  }

  lemma {:induction false} OldestIsLeast(t: Table, now: real, w: Conversation)
    requires Tracked(t) && OnePerConversation(t) && ByRecency(t, now) && t != []
    requires Nonempty(Plain(t)) && w in Plain(t)
    ensures ConvOf(t[0]) in Plain(t) && SeenAt(Plain(t)[ConvOf(t[0])]) <= SeenAt(Plain(t)[w])
  {
    var i := TrackedAt(t, w);
    PlainAt(t, 0);
    SeenTogether(t[0]);
    SeenTogether(t[i]);
  }

  /** What popping the head of a full table leaves. */
  function Room(cfg: Config, t: Table): (room: Table)
    requires Tracked(t)
    ensures Tracked(room)
  {
    t[Surplus(cfg, t)..]
  }

  /** Popping the head makes room in the map. */
  lemma {:induction false} PopGivesUpOne(cfg: Config, t: Table)
    requires Tracked(t) && OnePerConversation(t)
    ensures GivesUpOne(cfg, Plain(t), Plain(Room(cfg, t)))
  {
    PlainRepresents(t);
    if Surplus(cfg, t) == 0 {
      assert t[0..] == t;
    } else {
      PlainWithout(t, 0);
      assert t[1..] == Without(t, 0);
      PlainAt(t, 0);
    }
  }

  lemma {:induction false} LeastGoes(m: Flows, room: Flows, least: Conversation)
    requires Nonempty(m) && least in m && room == m - {least}
    requires forall w | w in m :: SeenAt(m[least]) <= SeenAt(m[w])
    ensures OldestGoes(m, room)
  {
  }

  /** In ordered time the head was seen longest ago. */
  lemma {:induction false} PopTakesOldest(cfg: Config, t: Table, now: real)
    requires Tracked(t) && OnePerConversation(t) && ByRecency(t, now) && Nonempty(Plain(t))
    ensures OldestGoes(Plain(t), Plain(Room(cfg, t)))
  {
    if Surplus(cfg, t) == 0 {
      assert t[0..] == t;
    } else {
      PlainAt(t, 0);
      forall w | w in Plain(t)
        ensures SeenAt(Plain(t)[ConvOf(t[0])]) <= SeenAt(Plain(t)[w])
      {
        OldestIsLeast(t, now, w);
      }
      PlainWithout(t, 0);
      assert t[1..] == Without(t, 0);
      LeastGoes(Plain(t), Plain(Room(cfg, t)), ConvOf(t[0]));
    }
  }

  lemma {:induction false} OpeningIsPlain(cfg: Config, t: Table, p: PacketInfo)
    requires Tracked(t) && ActiveIndex(t, p) == |t|
    ensures Plain(Kept(cfg, t, p) + Filed(cfg, t, p)) == Plain(Room(cfg, t))[Conv(p) := [p]]
  {
    PlainSnoc(Room(cfg, t), Opening(p));
    assert All(Opening(p).history) == [p];
  }

  /** Settling a packet in a table is settling it in the map that the table stands for. */
  lemma {:induction false} SettleIsPlain(cfg: Config, t: Table, p: PacketInfo, t': Table)
    requires Ready(t, p) && t' == Kept(cfg, t, p) + Filed(cfg, t, p) && Tracked(t')
    ensures Nonempty(Plain(t))
    ensures Reported(cfg, Plain(t), Plain(Room(cfg, t)), p, Plain(t'), Reports(Emitted(cfg, t, p)))
  {
    PlainNonempty(t);
    LookupLocates(t, p);
    if ActiveIndex(t, p) < |t| {
      SettlingIsPlain(cfg, t, p);
      ReportingIsPlain(cfg, t, p);
    } else {
      OpeningIsPlain(cfg, t, p);
    }
  }

  lemma {:induction false} ProcessInLive(cfg: Config, s: State, p: PacketInfo)
    requires Tracked(s.table)
    ensures var live := Live(s.table, SweepingAt(cfg, s.packetsSeen + 1, p.timestamp));
            && Process(cfg, s, p).state.table == Kept(cfg, live, p) + Filed(cfg, live, p)
            && Process(cfg, s, p).ledger.emitted == Emitted(cfg, live, p)
  {
    SweepLeavesLive(cfg, s, p);
  }

  /** The step of the map that processing a packet is, with what the sweep and the popped head leave of it. */
  ghost predicate SteppedVia(cfg: Config, t: Table, sweeping: Sweeping, p: PacketInfo)
    requires Tracked(t)
  {
    var live := Live(t, sweeping);
    && Nonempty(Plain(t))
    && StepVia(cfg, Plain(t), sweeping, Plain(live), Plain(Room(cfg, live)), p,
               Plain(Kept(cfg, live, p) + Filed(cfg, live, p)), Reports(Emitted(cfg, live, p)))
  }

  lemma {:induction false} StepsViaLive(cfg: Config, t: Table, sweeping: Sweeping, p: PacketInfo)
    requires Ready(t, p)
    ensures SteppedVia(cfg, t, sweeping, p)
  {
    var live := Live(t, sweeping);
    PlainNonempty(t);
    LiveStaysReady(t, sweeping, p);
    LiveIsSweptSome(t, sweeping);
    PopGivesUpOne(cfg, live);
    SettleIsPlain(cfg, live, p, Kept(cfg, live, p) + Filed(cfg, live, p));
  }

  /** Processing a packet is a step of the map. */
  ghost predicate ProcessedPlainly(cfg: Config, s: State, p: PacketInfo)
    requires Tracked(s.table)
  {
    && Nonempty(Plain(s.table))
    && PlainStep(cfg, Plain(s.table), s.packetsSeen + 1, p, Plain(Process(cfg, s, p).state.table),
                 Reports(Process(cfg, s, p).ledger.emitted))
  }

  /** Whatever the timestamps: the two keys, the early break and the popped head make a step of the map. */
  lemma {:induction false} ProcessIsPlain(cfg: Config, s: State, p: PacketInfo)
    requires Ready(s.table, p)
    ensures ProcessedPlainly(cfg, s, p)
  {
    StepsViaLive(cfg, s.table, SweepingAt(cfg, s.packetsSeen + 1, p.timestamp), p);
    ProcessInLive(cfg, s, p);
  }

  /** Processing a packet is a step of the map that scans it. */
  ghost predicate ProcessedByScan(cfg: Config, s: State, p: PacketInfo)
    requires Tracked(s.table)
  {
    && Nonempty(Plain(s.table))
    && ScanningStep(cfg, Plain(s.table), s.packetsSeen + 1, p, Plain(Process(cfg, s, p).state.table),
                    Reports(Process(cfg, s, p).ledger.emitted))
  }

  /** In ordered time the early break is a full scan and the popped head was seen longest ago. */
  lemma {:induction false} ProcessIsScan(cfg: Config, s: State, p: PacketInfo)
    requires Ready(s.table, p) && ByRecency(s.table, p.timestamp)
    ensures ProcessedByScan(cfg, s, p)
  {
    var sweeping := SweepingAt(cfg, s.packetsSeen + 1, p.timestamp);
    var live := Live(s.table, sweeping);
    StepsViaLive(cfg, s.table, sweeping, p);
    LiveIsSwept(s.table, sweeping, p.timestamp);
    LiveStaysReady(s.table, sweeping, p);
    LiveStaysByRecency(s.table, sweeping, p.timestamp);
    PopTakesOldest(cfg, live, p.timestamp);
    ProcessInLive(cfg, s, p);
  }

  // ------------------------------------------------------------- every step of a run

  /** From one step to the next the plain map behind the table takes a plain step. */
  ghost predicate StepIsPlain(cfg: Config, before: Step, seen: nat, p: PacketInfo, after: Step)
    requires Tracked(before.state.table) && Tracked(after.state.table)
  {
    && Nonempty(Plain(before.state.table))
    && PlainStep(cfg, Plain(before.state.table), seen, p, Plain(after.state.table),
                 Reports(NewlyEmitted(before, after)))
  }

  /** From one step to the next the plain map takes a step that scans it. */
  ghost predicate StepIsScan(cfg: Config, before: Step, seen: nat, p: PacketInfo, after: Step)
    requires Tracked(before.state.table) && Tracked(after.state.table)
  {
    && Nonempty(Plain(before.state.table))
    && ScanningStep(cfg, Plain(before.state.table), seen, p, Plain(after.state.table),
                    Reports(NewlyEmitted(before, after)))
  }

  lemma {:induction false} ProcessedIsPlainStep(cfg: Config, before: Step, seen: nat, p: PacketInfo, after: Step)
    requires Tracked(before.state.table) && ProcessedPlainly(cfg, before.state, p)
    requires seen == before.state.packetsSeen + 1 && after == Then(before, Process(cfg, before.state, p))
    ensures StepIsPlain(cfg, before, seen, p, after)
  {
    StepLeavers(before, Process(cfg, before.state, p));
  }

  lemma {:induction false} ProcessedIsScanningStep(cfg: Config, before: Step, seen: nat, p: PacketInfo, after: Step)
    requires Tracked(before.state.table) && ProcessedByScan(cfg, before.state, p)
    requires seen == before.state.packetsSeen + 1 && after == Then(before, Process(cfg, before.state, p))
    ensures StepIsScan(cfg, before, seen, p, after)
  {
    StepLeavers(before, Process(cfg, before.state, p));
  }

  lemma {:induction false} ProcessedPlainlyAfter(cfg: Config, packets: seq<PacketInfo>, p: PacketInfo)
    requires AllTell(packets + [p])
    ensures ProcessedPlainly(cfg, Run(cfg, packets).state, p)
  {
    RunIsReady(cfg, packets, p);
    ProcessIsPlain(cfg, Run(cfg, packets).state, p);
  }

  /**
    As long as ids tell conversations apart, whatever the timestamps, two aliasing keys come to a plain map from
    endpoint pairs to packets at every step of every run: a due sweep drops stale pairs only and a full map
    gives up one pair.
    */
  lemma {:induction false} EveryStepRefinesPlainMap(cfg: Config, packets: seq<PacketInfo>, p: PacketInfo)
    requires AllTell(packets + [p])
    ensures StepIsPlain(cfg, Run(cfg, packets), |packets| + 1, p, Run(cfg, packets + [p]))
  {
    ProcessedPlainlyAfter(cfg, packets, p);
    FlowLedger.SeenCounts(cfg, packets);
    RunOneMore(cfg, packets, p);
    ProcessedIsPlainStep(cfg, Run(cfg, packets), |packets| + 1, p, Run(cfg, packets + [p]));
  }

  /** Ids of addressed packets do. */
  lemma {:induction false} AddressedStepsArePlain(cfg: Config, packets: seq<PacketInfo>, p: PacketInfo)
    requires AllAddressed(packets + [p])
    ensures StepIsPlain(cfg, Run(cfg, packets), |packets| + 1, p, Run(cfg, packets + [p]))
  {
    AllAddressedTell(packets + [p]);
    EveryStepRefinesPlainMap(cfg, packets, p);
  }

  lemma {:induction false} ProcessedByScanAfter(cfg: Config, packets: seq<PacketInfo>, p: PacketInfo)
    requires AllTell(packets + [p]) && InTimeOrder(packets + [p])
    ensures ProcessedByScan(cfg, Run(cfg, packets).state, p)
  {
    RunIsReady(cfg, packets, p);
    NextFindsRecency(cfg, packets, p);
    ProcessIsScan(cfg, Run(cfg, packets).state, p);
  }

  /** In time order the plain step scans: every stale pair goes, and the one given up was seen longest ago. */
  lemma {:induction false} EveryStepScansPlainMap(cfg: Config, packets: seq<PacketInfo>, p: PacketInfo)
    requires AllTell(packets + [p]) && InTimeOrder(packets + [p])
    ensures StepIsScan(cfg, Run(cfg, packets), |packets| + 1, p, Run(cfg, packets + [p]))
  {
    ProcessedByScanAfter(cfg, packets, p);
    FlowLedger.SeenCounts(cfg, packets);
    RunOneMore(cfg, packets, p);
    ProcessedIsScanningStep(cfg, Run(cfg, packets), |packets| + 1, p, Run(cfg, packets + [p]));
  }

  // --------------------------------------------------------- exactly when ids tell pairs

  lemma {:induction false} OnePlain(e: Entry)
    requires e.history != []
    ensures Plain([e]) == map[ConvOf(e) := All(e.history)]
  {
    PlainSnoc([], e);
    assert [] + [e] == [e];
  }

  /** What settling the second packet of a run leaves and reports. */
  lemma {:induction false} SecondSettles(cfg: Config, p: PacketInfo, q: PacketInfo)
    ensures var t := [Opening(p)];
            && Process(cfg, State(t, 1), q).state.table == Kept(cfg, t, q) + Filed(cfg, t, q)
            && Process(cfg, State(t, 1), q).ledger.emitted == Emitted(cfg, t, q)
  {
    assert [Opening(p)][0..] == [Opening(p)];
  }

  lemma {:induction false} FoundByIds(p: PacketInfo, q: PacketInfo)
    ensures ActiveIndex([Opening(p)], q) == if p.fwdId == q.fwdId || p.fwdId == q.bwdId then 0 else 1
  {
  }

  /** A tracked conversation is not opened anew. */
  lemma {:induction false} MissedIsNoStep(cfg: Config, p: PacketInfo, q: PacketInfo, live: Flows, room: Flows,
      m': Flows)
    requires live == map[Conv(p) := [p]] && Conv(p) == Conv(q) && Conv(p) in m' && m'[Conv(p)] == [q]
    ensures Nonempty(live) && !Reported(cfg, live, room, q, m', [])
  {
    assert |live[Conv(p)] + [q]| == 2;
  }

  /** A conversation that is not tracked is not reported, and is tracked afterwards. */
  lemma {:induction false} MistakenIsNoStep(cfg: Config, p: PacketInfo, q: PacketInfo, live: Flows, room: Flows,
      m': Flows, reported: seq<seq<PacketInfo>>)
    requires live == map[Conv(p) := [p]] && Conv(p) != Conv(q) && (Conv(q) !in m' || reported != [])
    ensures Nonempty(live) && !Reported(cfg, live, room, q, m', reported)
  {
  }

  lemma {:induction false} MissedOpens(cfg: Config, p: PacketInfo, q: PacketInfo, t': Table)
    requires Conv(p) == Conv(q) && p.fwdId != q.fwdId && p.fwdId != q.bwdId
    requires t' == Kept(cfg, [Opening(p)], q) + Filed(cfg, [Opening(p)], q)
    ensures Tracked(t') && Conv(q) in Plain(t') && Plain(t')[Conv(q)] == [q]
    ensures Emitted(cfg, [Opening(p)], q) == []
  {
    FoundByIds(p, q);
    OpeningIsPlain(cfg, [Opening(p)], q);
  }

  lemma {:induction false} SecondGrows(cfg: Config, p: PacketInfo, q: PacketInfo)
    requires p.fwdId == q.fwdId || p.fwdId == q.bwdId
    requires !q.Terminates() && !TimedOut(cfg, Opening(p), q)
    ensures Kept(cfg, [Opening(p)], q) + Filed(cfg, [Opening(p)], q) == [Grown(Opening(p), q)]
  {
    FoundByIds(p, q);
    assert Without([Opening(p)], 0) + [Grown(Opening(p), q)] == [Grown(Opening(p), q)];
  }

  lemma {:induction false} MistakenEnds(cfg: Config, p: PacketInfo, q: PacketInfo)
    requires p.fwdId == q.fwdId || p.fwdId == q.bwdId
    requires q.Terminates() || TimedOut(cfg, Opening(p), q)
    ensures Emitted(cfg, [Opening(p)], q) != []
  {
    FoundByIds(p, q);
  }

  lemma {:induction false} MistakenJoins(cfg: Config, p: PacketInfo, q: PacketInfo, t': Table)
    requires Conv(p) != Conv(q) && t' == [Grown(Opening(p), q)]
    ensures Conv(q) !in Plain(t')
  {
    OnePlain(Grown(Opening(p), q));
  }

  lemma {:induction false} MistakenSettles(cfg: Config, p: PacketInfo, q: PacketInfo, t': Table)
    requires Conv(p) != Conv(q) && (p.fwdId == q.fwdId || p.fwdId == q.bwdId)
    requires t' == Kept(cfg, [Opening(p)], q) + Filed(cfg, [Opening(p)], q)
    ensures Tracked(t') && (Conv(q) !in Plain(t') || Emitted(cfg, [Opening(p)], q) != [])
  {
    if q.Terminates() || TimedOut(cfg, Opening(p), q) {
      MistakenEnds(cfg, p, q);
    } else {
      SecondGrows(cfg, p, q);
      MistakenJoins(cfg, p, q, t');
    }
  }

  /** The second packet of a run is not settled plainly unless the first one's id tells its conversation. */
  lemma {:induction false} SecondIsNotPlain(cfg: Config, p: PacketInfo, q: PacketInfo, live: Flows, room: Flows)
    requires !Tells(p, q) && live == map[Conv(p) := [p]]
    ensures var t := [Opening(p)];
            Nonempty(live)
            && !Reported(cfg, live, room, q, Plain(Kept(cfg, t, q) + Filed(cfg, t, q)), Reports(Emitted(cfg, t, q)))
  {
    var t := [Opening(p)];
    var t' := Kept(cfg, t, q) + Filed(cfg, t, q);
    if Conv(p) == Conv(q) {
      MissedOpens(cfg, p, q, t');
      MissedIsNoStep(cfg, p, q, live, room, Plain(t'));
      assert Reports(Emitted(cfg, t, q)) == [];
    } else {
      MistakenSettles(cfg, p, q, t');
      MistakenIsNoStep(cfg, p, q, live, room, Plain(t'), Reports(Emitted(cfg, t, q)));
    }
  }

  lemma {:induction false} NoSweepLeavesAll(m: Flows, live: Flows)
    requires Nonempty(m) && SweptSome(m, NotDue, live)
    ensures live == m
  {
    assert forall c | c in m :: c in live;
  }

  lemma {:induction false} SecondIsNotSwept(cfg: Config, now: real)
    ensures SweepingAt(cfg, 2, now) == NotDue
  {
  }

  lemma {:induction false} NoPlainStep(cfg: Config, p: PacketInfo, q: PacketInfo, m: Flows, m': Flows,
      reported: seq<seq<PacketInfo>>)
    requires !Tells(p, q) && m == map[Conv(p) := [p]] && Nonempty(m)
    requires var t := [Opening(p)];
             m' == Plain(Kept(cfg, t, q) + Filed(cfg, t, q)) && reported == Reports(Emitted(cfg, t, q))
    ensures !PlainStep(cfg, m, 2, q, m', reported)
  {
    SecondIsNotSwept(cfg, q.timestamp);
    forall live, room
      ensures !StepVia(cfg, m, NotDue, live, room, q, m', reported)
    {
      NoStepVia(cfg, p, q, m, live, room, m', reported);
    }
  }

  lemma {:induction false} NoStepVia(cfg: Config, p: PacketInfo, q: PacketInfo, m: Flows, live: Flows, room: Flows,
      m': Flows, reported: seq<seq<PacketInfo>>)
    requires !Tells(p, q) && m == map[Conv(p) := [p]] && Nonempty(m)
    requires var t := [Opening(p)];
             m' == Plain(Kept(cfg, t, q) + Filed(cfg, t, q)) && reported == Reports(Emitted(cfg, t, q))
    ensures !StepVia(cfg, m, NotDue, live, room, q, m', reported)
  {
    if SweptSome(m, NotDue, live) {
      NoSweepLeavesAll(m, live);
      SecondIsNotPlain(cfg, p, q, live, room);
    }
  }

  lemma {:induction false} TwoPacketsSettle(cfg: Config, p: PacketInfo, q: PacketInfo)
    ensures var t := [Opening(p)];
            && Run(cfg, [p]).state.table == t
            && Run(cfg, [p] + [q]).state.table == Kept(cfg, t, q) + Filed(cfg, t, q)
            && NewlyEmitted(Run(cfg, [p]), Run(cfg, [p] + [q])) == Emitted(cfg, t, q)
  {
    OneOpening(cfg, p);
    RunOneMore(cfg, [p], q);
    SecondSettles(cfg, p, q);
    StepLeavers(Run(cfg, [p]), Process(cfg, Run(cfg, [p]).state, q));
  }

  lemma {:induction false} PlainOpening(p: PacketInfo)
    ensures Plain([Opening(p)]) == map[Conv(p) := [p]]
  {
    OnePlain(Opening(p));
    assert All(Opening(p).history) == [p];
  }

  lemma {:induction false} SettledNotPlainly(cfg: Config, p: PacketInfo, q: PacketInfo, before: Step, after: Step)
    requires !Tells(p, q) && before.state.table == [Opening(p)]
    requires after.state.table == Kept(cfg, [Opening(p)], q) + Filed(cfg, [Opening(p)], q)
    requires NewlyEmitted(before, after) == Emitted(cfg, [Opening(p)], q)
    ensures !StepIsPlain(cfg, before, 2, q, after)
  {
    PlainOpening(p);
    NoPlainStep(cfg, p, q, Plain(before.state.table), Plain(after.state.table), Reports(NewlyEmitted(before, after)));
  }

  /** Two packets suffice to see it. */
  lemma {:induction false} TwoPacketsAreNotPlain(cfg: Config, p: PacketInfo, q: PacketInfo)
    requires !Tells(p, q)
    ensures !StepIsPlain(cfg, Run(cfg, [p]), 2, q, Run(cfg, [p] + [q]))
  {
    TwoPacketsSettle(cfg, p, q);
    SettledNotPlainly(cfg, p, q, Run(cfg, [p]), Run(cfg, [p] + [q]));
  }

  /**
    Every step over packets of a set is a step of the plain map, in any order and at any times, if and only if
    each packet carries another one's id exactly when they share a conversation.
    */
  lemma {:induction false} PlainMapExactly(cfg: Config, a: set<PacketInfo>)
    ensures IdsTellPairs(a)
            <==> forall packets, p | Within(packets, a) && p in a ::
                   StepIsPlain(cfg, Run(cfg, packets), |packets| + 1, p, Run(cfg, packets + [p]))
  {
    if IdsTellPairs(a) {
      forall packets, p | Within(packets, a) && p in a
        ensures StepIsPlain(cfg, Run(cfg, packets), |packets| + 1, p, Run(cfg, packets + [p]))
      {
        WithinOneMore(packets, p, a);
        WithinTells(packets + [p], a);
        EveryStepRefinesPlainMap(cfg, packets, p);
      }
    } else {
      var p, q :| p in a && q in a && !Tells(p, q);
      assert Within([p], a) && |[p]| + 1 == 2;
      TwoPacketsAreNotPlain(cfg, p, q);
    }
  }

  /** No later packet is mistaken for another conversation's, or missed by its own. */
  ghost predicate IdsTellLaterPairs(a: set<PacketInfo>) {
    forall p, q | p in a && q in a && p.timestamp <= q.timestamp :: Tells(p, q)
  }

  lemma {:induction false} LaterPairsTell(packets: seq<PacketInfo>, a: set<PacketInfo>)
    requires IdsTellLaterPairs(a) && Within(packets, a) && InTimeOrder(packets)
    ensures AllTell(packets)
  {
  }

  lemma {:induction false} ScanIsPlain(cfg: Config, before: Step, seen: nat, p: PacketInfo, after: Step)
    requires Tracked(before.state.table) && Tracked(after.state.table) && StepIsScan(cfg, before, seen, p, after)
    ensures StepIsPlain(cfg, before, seen, p, after)
  {
  }

  /** The same in time order, where only pairs in that order matter and every step scans the map. */
  lemma {:induction false} ScannedMapExactly(cfg: Config, a: set<PacketInfo>)
    ensures IdsTellLaterPairs(a)
            <==> forall packets, p | Within(packets, a) && p in a && InTimeOrder(packets + [p]) ::
                   StepIsScan(cfg, Run(cfg, packets), |packets| + 1, p, Run(cfg, packets + [p]))
  {
    if IdsTellLaterPairs(a) {
      forall packets, p | Within(packets, a) && p in a && InTimeOrder(packets + [p])
        ensures StepIsScan(cfg, Run(cfg, packets), |packets| + 1, p, Run(cfg, packets + [p]))
      {
        WithinOneMore(packets, p, a);
        LaterPairsTell(packets + [p], a);
        EveryStepScansPlainMap(cfg, packets, p);
      }
    } else {
      var p, q :| p in a && q in a && p.timestamp <= q.timestamp && !Tells(p, q);
      assert Within([p], a) && |[p]| + 1 == 2 && InTimeOrder([p] + [q]);
      TwoPacketsAreNotPlain(cfg, p, q);
      if StepIsScan(cfg, Run(cfg, [p]), 2, q, Run(cfg, [p] + [q])) {
        ScanIsPlain(cfg, Run(cfg, [p]), 2, q, Run(cfg, [p] + [q]));
      }
    }
  }

  lemma {:induction false} MergingIds()
    ensures var p, q := Dashed("a-b", "c"), Dashed("a", "b-c");
            p.fwdId == q.fwdId && Conv(p) != Conv(q) && !Tells(p, q)
  {
    var p, q := Dashed("a-b", "c"), Dashed("a", "b-c");
    var rest := Joined(Decimal(1), Joined(Decimal(1), "TCP"));
    assert Joined("a-b", Joined("c", rest)) == Joined("a", Joined("b-c", rest));
    assert Endpoint("a", 1) in Conv(q).ends && Endpoint("a", 1) !in Conv(p).ends;
  }

  /** With dashes in addresses two conversations can share an id, and then one flow takes the packets of both. */
  lemma {:induction false} DashesMergeConversations(cfg: Config)
    requires cfg.timeout >= 0.0
    ensures var p, q := Dashed("a-b", "c"), Dashed("a", "b-c");
            && Conv(p) != Conv(q)
            && Run(cfg, [p] + [q]).state.table == [Grown(Opening(p), q)]
            && !StepIsPlain(cfg, Run(cfg, [p]), 2, q, Run(cfg, [p] + [q]))
  {
    var p, q := Dashed("a-b", "c"), Dashed("a", "b-c");
    MergingIds();
    TwoPacketsSettle(cfg, p, q);
    SecondGrows(cfg, p, q);
    TwoPacketsAreNotPlain(cfg, p, q);
  }

  // --------------------------------------------------- directions can be recovered

  /** Directions from packets alone: forward are those that carry the opener's id. */
  function Retag(ps: seq<PacketInfo>): (h: History)
    ensures |h| == |ps|
  {
    seq(|ps|, i requires 0 <= i < |ps| => Tagged(ps[i], if ps[i].fwdId == ps[0].fwdId then Fwd else Bwd))
  }

  lemma {:induction false} PacketsDetermineEntry(e: Entry)
    requires WellFiled(e)
    ensures e == Entry(All(e.history)[0].fwdId, Retag(All(e.history)))
  {
    assert e.history == Retag(All(e.history));
  }

  /** Key, directions and so the feature row of the entry follow from its packets alone. */
  ghost predicate FollowsFromPackets(e: Entry) {
    var ps := All(e.history);
    ps != [] && e.key == ps[0].fwdId && Batch(e.history) == Batch(Retag(ps))
  }

  /** The plain map loses nothing: over every run a reported flow follows from its packets. */
  lemma {:induction false} RowsFollowFromPackets(cfg: Config, packets: seq<PacketInfo>)
    ensures Every(Run(cfg, packets).ledger.emitted, FollowsFromPackets)
  {
    EveryFlowIsWellFiled(cfg, packets);
    var emitted := Run(cfg, packets).ledger.emitted;
    forall k | 0 <= k < |emitted|
      ensures FollowsFromPackets(emitted[k])
    {
      assert WellFiled(emitted[k]);
      PacketsDetermineEntry(emitted[k]);
    }
  }
}
