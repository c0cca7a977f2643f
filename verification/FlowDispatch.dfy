/**
  Dispatching one packet message under retry: the handler advances the flow table before it publishes, so a
  retry after a failed publish runs on a table that has already absorbed the packet.
  */
module FlowDispatch {
  import opened Packets
  import opened FlowTable
  import opened FlowShape
  import opened FlowKeys
  import opened FlowAnswers
  import FlowBuilder
  import FlowLedger
  import Retry

  // ----------------------------------------------------------------- one attempt

  /** One run of the handler: advances the service, then publishes its events until a publish raises. */
  method Dispatch(service: FlowBuilder.FlowBuilderService, e: PacketEvent, publish: Retry.Oracle)
    returns (returned: bool, published: seq<FlowBuilder.FlowFeatureEvent>,
             ghost events: seq<FlowBuilder.FlowFeatureEvent>)
    requires service.Valid()
    modifies service, FlowBuilder.Flows(service.currentFlows)
    ensures service.Valid()
    ensures Tracked(old(service.table))
    ensures FlowBuilder.Advanced(service.Cfg(), old(service.Now()), e, service.Now(), events)
    ensures published == if events != [] && !publish(1) then [] else events
    ensures returned <==> published == events
  {
    var output := service.ProcessPacket(e);
    events := output;
    AtMostOneEvent(service.Cfg(), old(service.Now()), e, service.Now(), events);
    returned, published := PublishEach(output, publish);
  }

  /** Publishes events in order until a publish raises. */
  method PublishEach<T(==)>(events: seq<T>, publish: Retry.Oracle) returns (returned: bool, published: seq<T>)
    ensures published <= events && (returned <==> published == events)
    ensures forall k | 1 <= k <= |published| :: publish(k)
    ensures !returned ==> !publish(|published| + 1)
  {
    published := [];
    for i := 0 to |events|
      invariant published == events[..i]
      invariant forall k | 1 <= k <= i :: publish(k)
    {
      if !publish(i + 1) {
        return false, published;
      }
      published := published + [events[i]];
    }
    returned := true;
  }

  lemma {:induction false} AtMostOneEvent(cfg: Config, s: State, e: PacketEvent, s': State,
      events: seq<FlowBuilder.FlowFeatureEvent>)
    requires Tracked(s.table) && FlowBuilder.Advanced(cfg, s, e, s', events)
    ensures |events| <= 1
  {
  }

  // ------------------------------------------------------- attempts at one packet

  /** One run of the handler on the packet takes a state to the next and has flows to report. */
  ghost predicate Reran(cfg: Config, p: PacketInfo, before: State, after: State, offer: Table) {
    && Tracked(before.table)
    && after == Process(cfg, before, p).state
    && offer == Process(cfg, before, p).ledger.emitted
  }

  /**
    The handler run again and again on one packet: where it started, and after each run where it is and what
    the run had to report.
    */
  datatype Course = Untouched(state: State) | Rerun(earlier: Course, state: State, offer: Table) {
    function Start(): State {
      match this
      case Untouched(state) => state
      case Rerun(earlier, _, _) => earlier.Start()
    }

    /** What the runs had to report, the first run's first. */
    function Offers(): seq<Table> {
      match this
      case Untouched(_) => []
      case Rerun(earlier, _, offer) => earlier.Offers() + [offer]
    }

    ghost predicate Follows(cfg: Config, p: PacketInfo) {
      match this
      case Untouched(_) => true
      case Rerun(earlier, state, offer) => earlier.Follows(cfg, p) && Reran(cfg, p, earlier.state, state, offer)
    }
  }

  /** There is one such course for any number of runs. */
  lemma {:induction false} CourseExists(cfg: Config, s: State, p: PacketInfo, n: nat) returns (c: Course)
    requires Tracked(s.table)
    ensures c.Follows(cfg, p) && c.Start() == s && |c.Offers()| == n && Tracked(c.state.table)
  {
    if n == 0 {
      c := Untouched(s);
    } else {
      var earlier := CourseExists(cfg, s, p, n - 1);
      c := OneMoreRun(cfg, p, earlier);
    }
  }

  lemma {:induction false} OneMoreRun(cfg: Config, p: PacketInfo, earlier: Course) returns (c: Course)
    requires earlier.Follows(cfg, p) && Tracked(earlier.state.table)
    ensures c.Rerun? && c.earlier == earlier && c.Follows(cfg, p) && Tracked(c.state.table)
  {
    var last := Process(cfg, earlier.state, p);
    c := Rerun(earlier, last.state, last.ledger.emitted);
  }

  /** The k-th run returns when it has nothing to report or its publish succeeds. */
  function Handler(offers: seq<Table>, publish: Retry.Oracle): Retry.Oracle {
    (k: nat) => 1 <= k <= |offers| && (offers[k - 1] == [] || publish(k))
  }

  /** What has been published after r runs: a publish can reach the broker and raise all the same. */
  function Published(offers: seq<Table>, stored: Retry.Oracle, r: nat): Table
    requires r <= |offers|
  {
    if r == 0 then [] else Published(offers, stored, r - 1) + if stored(r) then offers[r - 1] else []
  }

  /** The run whose handler and acknowledgement both return, one more than all if there is none. */
  function Completing(offers: seq<Table>, publish: Retry.Oracle, ack: Retry.Oracle): (f: nat)
    ensures 1 <= f <= |offers| + 1
  {
    Retry.FirstCompleting(Handler(offers, publish), ack, 1, |offers|)
  }

  /** How often the handler runs on the message. */
  function RunsOn(offers: seq<Table>, publish: Retry.Oracle, ack: Retry.Oracle): (r: nat)
    ensures r <= |offers|
  {
    if Completing(offers, publish, ack) <= |offers| then Completing(offers, publish, ack) else |offers|
  }

  /** The handler runs until one run returns, having nothing to publish or published it, and is acknowledged. */
  lemma {:induction false} RunsUntilAcked(offers: seq<Table>, publish: Retry.Oracle, ack: Retry.Oracle)
    ensures var r := RunsOn(offers, publish, ack);
            && (forall k | 1 <= k < r :: !((offers[k - 1] == [] || publish(k)) && ack(k)))
            && (r < |offers| ==> r >= 1 && (offers[r - 1] == [] || publish(r)) && ack(r))
  {
    var f := Completing(offers, publish, ack);
    if f <= |offers| {
      assert Retry.Completes(Handler(offers, publish), ack, f);
    }
    forall k | 1 <= k < f
      ensures !((offers[k - 1] == [] || publish(k)) && ack(k))
    {
      assert !Retry.Completes(Handler(offers, publish), ack, k);
    }
  }

  // ------------------------------------------------- what a re-run finds and offers

  /** A second flow that answers to the packet could be reported to it, or taken for its own after a sweep. */
  predicate Exposed(cfg: Config, p: PacketInfo) {
    p.Terminates() || cfg.timeout <= 0.0
  }

  /** No second flow does: there is no room for one, or ids are too tidy. */
  ghost predicate Unambiguous(cfg: Config, a: set<PacketInfo>, p: PacketInfo) {
    p in a && (Exposed(cfg, p) && cfg.maxFlows > 1 ==> OneEach(a, p))
  }

  /** What the table satisfies before and after each run on the packet. */
  ghost predicate Clear(cfg: Config, t: Table, a: set<PacketInfo>, p: PacketInfo) {
    && Tracked(t) && KeysDistinct(t) && Every(t, FromAny(a))
    && (cfg.maxFlows <= 1 ==> |t| <= 1)
    && (Exposed(cfg, p) ==> OneAnswer(t, p))
  }

  lemma {:induction false} RunIsClear(cfg: Config, packets: seq<PacketInfo>, a: set<PacketInfo>, p: PacketInfo)
    requires Within(packets, a) && Unambiguous(cfg, a, p)
    ensures Clear(cfg, Run(cfg, packets).state.table, a, p)
  {
    RunKeepsKeysDistinct(cfg, packets);
    EveryFlowIsOpenedFrom(cfg, packets, a);
    FlowLedger.TableStaysBounded(cfg, packets);
    if cfg.maxFlows <= 1 {
      LoneFlowAnswers(cfg, packets, p);
    } else if Exposed(cfg, p) {
      RunKeepsOneAnswer(cfg, packets, a, p);
    }
  }

  lemma {:induction false} SuffixAnswersOnce(t: Table, n: nat, p: PacketInfo)
    requires n <= |t|
    ensures OneAnswer(t, p) ==> OneAnswer(t[n..], p)
    ensures KeysDistinct(t) ==> KeysDistinct(t[n..])
  {
  }

  lemma {:induction false} SweepIsClear(cfg: Config, s: State, a: set<PacketInfo>, p: PacketInfo)
    requires Clear(cfg, s.table, a, p)
    ensures Clear(cfg, s.table[Sweep(cfg, s, p.timestamp)..], a, p)
  {
    var n := Sweep(cfg, s, p.timestamp);
    SuffixAnswersOnce(s.table, n, p);
    EveryPart(s.table, n, FromAny(a));
  }

  lemma {:induction false} SettledTableIsShort(cfg: Config, t: Table, p: PacketInfo)
    requires Tracked(t) && cfg.maxFlows <= 1 && |t| <= 1
    ensures |Kept(cfg, t, p) + Filed(cfg, t, p)| <= 1
  {
  }

  lemma {:induction false} StepKeepsClear(cfg: Config, s: State, a: set<PacketInfo>, p: PacketInfo)
    requires Clear(cfg, s.table, a, p) && Unambiguous(cfg, a, p)
    ensures Clear(cfg, Process(cfg, s, p).state.table, a, p)
  {
    var t := s.table[Sweep(cfg, s, p.timestamp)..];
    SweepIsClear(cfg, s, a, p);
    ProcessKeepsEvery(cfg, s, p, FromAny(a));
    SettleKeepsKeysDistinct(cfg, t, p);
    if cfg.maxFlows <= 1 {
      SettledTableIsShort(cfg, t, p);
      ShortTableAnswers(Kept(cfg, t, p) + Filed(cfg, t, p), p);
    } else if Exposed(cfg, p) {
      SettleKeepsOneAnswer(cfg, t, p, a, p);
    }
  }

  /** The table tracks no flow under the packet's ids. */
  predicate Absent(t: Table, p: PacketInfo) {
    ActiveIndex(t, p) == |t|
  }

  /** A flow whose last packet is this one; if the packet terminates flows, it opened this one. */
  predicate Own(e: Entry, p: PacketInfo) {
    e.history != [] && LastSeen(e) == p.timestamp && (p.Terminates() ==> e == Opening(p))
  }

  predicate HoldsOwn(t: Table, p: PacketInfo) {
    ActiveIndex(t, p) < |t| && Own(t[ActiveIndex(t, p)], p)
  }

  lemma {:induction false} FiledIsFound(kept: Table, e: Entry, p: PacketInfo)
    requires forall j | 0 <= j < |kept| :: kept[j].key != p.fwdId && kept[j].key != e.key
    requires e.key == p.fwdId || e.key == p.bwdId
    ensures ActiveIndex(kept + [e], p) == |kept|
  {
    assert (kept + [e])[|kept|] == e;
    assert forall j | 0 <= j < |kept| :: (kept + [e])[j] == kept[j];
  }

  /** The flow that the packet is filed in is found again. */
  lemma {:induction false} FiledAnswers(cfg: Config, t: Table, p: PacketInfo)
    requires Tracked(t) && KeysDistinct(t) && Filed(cfg, t, p) != []
    ensures ActiveIndex(Kept(cfg, t, p) + Filed(cfg, t, p), p) == |Kept(cfg, t, p)|
  {
    var kept, e := Kept(cfg, t, p), Filed(cfg, t, p)[0];
    FlowLedger.KeptInOrder(cfg, t, p);
    forall j | 0 <= j < |kept|
      ensures kept[j].key != p.fwdId && kept[j].key != e.key
    {
      KeptIsOther(cfg, t, p, FlowLedger.Source(cfg, t, p, j));
    }
    FiledIsFound(kept, e, p);
  }

  lemma {:induction false} KeptIsOther(cfg: Config, t: Table, p: PacketInfo, k: nat)
    requires Tracked(t) && KeysDistinct(t) && Filed(cfg, t, p) != [] && k < |t| && k != ActiveIndex(t, p)
    ensures t[k].key != p.fwdId && t[k].key != Filed(cfg, t, p)[0].key
  {
    FiledDistinct(cfg, t, p, k);
    var i := ActiveIndex(t, p);
    if i < |t| {
      assert t[if i < k then i else k].key != t[if i < k then k else i].key;
    }
  }

  /** A packet that finds no flow reports nothing and opens its own. */
  lemma {:induction false} SettledFromAbsent(cfg: Config, t: Table, p: PacketInfo)
    requires Tracked(t) && KeysDistinct(t) && Absent(t, p)
    ensures Emitted(cfg, t, p) == [] && HoldsOwn(Kept(cfg, t, p) + Filed(cfg, t, p), p)
  {
    FiledAnswers(cfg, t, p);
  }

  /** A terminating packet that finds a flow reports it and leaves none. */
  lemma {:induction false} SettledByTerminator(cfg: Config, t: Table, p: PacketInfo)
    requires Tracked(t) && KeysDistinct(t) && OneAnswer(t, p) && !Absent(t, p) && p.Terminates()
    ensures Emitted(cfg, t, p) != [] && Absent(Kept(cfg, t, p) + Filed(cfg, t, p), p)
  {
    var i, kept := ActiveIndex(t, p), Kept(cfg, t, p);
    FlowLedger.KeptInOrder(cfg, t, p);
    forall j | 0 <= j < |kept|
      ensures kept[j].key != p.fwdId && kept[j].key != p.bwdId
    {
      OthersDoNotAnswer(t, p, FlowLedger.Source(cfg, t, p, j));
    }
    assert kept + [] == kept;
  }

  lemma {:induction false} OthersDoNotAnswer(t: Table, p: PacketInfo, k: nat)
    requires KeysDistinct(t) && OneAnswer(t, p) && !Absent(t, p) && k < |t| && k != ActiveIndex(t, p)
    ensures t[k].key != p.fwdId && t[k].key != p.bwdId
  {
    var i := ActiveIndex(t, p);
    assert t[if i < k then i else k].key != t[if i < k then k else i].key;
  }

  /** Any other packet leaves its flow as the one it was seen in last. */
  lemma {:induction false} SettledByOther(cfg: Config, t: Table, p: PacketInfo)
    requires Tracked(t) && KeysDistinct(t) && !p.Terminates()
    ensures HoldsOwn(Kept(cfg, t, p) + Filed(cfg, t, p), p)
  {
    FiledAnswers(cfg, t, p);
  }

  /** Settling the packet again: its flow is not late, and is reported only to a terminating packet. */
  lemma {:induction false} SettledAgain(cfg: Config, t: Table, p: PacketInfo)
    requires Tracked(t) && HoldsOwn(t, p) && cfg.timeout >= 0.0
    ensures Emitted(cfg, t, p) == if p.Terminates() then [Opening(p)] else []
  {
  }

  lemma {:induction false} FoundInSuffix(t: Table, n: nat, p: PacketInfo)
    requires KeysDistinct(t) && n <= ActiveIndex(t, p) < |t|
    ensures ActiveIndex(t[n..], p) == ActiveIndex(t, p) - n
  {
    var i, rest := ActiveIndex(t, p), t[n..];
    forall j | 0 <= j < |rest|
      ensures rest[j].key == t[i].key ==> j == i - n
      ensures rest[j].key == p.fwdId ==> t[i].key == p.fwdId
    {
      assert rest[j] == t[n + j];
      if n + j < i {
        assert t[n + j].key != t[i].key;
      } else if i < n + j {
        assert t[i].key != t[n + j].key;
      }
    }
    assert rest[i - n] == t[i];
  }

  lemma {:induction false} GoneFromSuffix(t: Table, n: nat, p: PacketInfo)
    requires KeysDistinct(t) && OneAnswer(t, p) && ActiveIndex(t, p) < n <= |t|
    ensures Absent(t[n..], p)
  {
    forall j | 0 <= j < |t[n..]|
      ensures t[n..][j].key != p.fwdId && t[n..][j].key != p.bwdId
    {
      OthersDoNotAnswer(t, p, n + j);
    }
  }

  /** A sweep takes what was seen last with this packet only if the timeout is not positive. */
  lemma {:induction false} SweepSparesOwn(cfg: Config, s: State, p: PacketInfo)
    requires Tracked(s.table) && HoldsOwn(s.table, p) && Sweep(cfg, s, p.timestamp) > ActiveIndex(s.table, p)
    ensures cfg.timeout <= 0.0
  {
    assert LastSeen(s.table[ActiveIndex(s.table, p)]) <= p.timestamp - cfg.timeout;
  }

  lemma {:induction false} AbsentFromSuffix(t: Table, n: nat, p: PacketInfo)
    requires Absent(t, p) && n <= |t|
    ensures Absent(t[n..], p)
  {
    forall j | 0 <= j < |t[n..]|
      ensures t[n..][j].key != p.fwdId && t[n..][j].key != p.bwdId
    {
      assert t[n..][j] == t[n + j];
    }
  }

  lemma {:induction false} RunFromAbsent(cfg: Config, s: State, p: PacketInfo)
    requires Tracked(s.table) && KeysDistinct(s.table) && Absent(s.table, p)
    ensures Process(cfg, s, p).ledger.emitted == []
  {
    AbsentFromSuffix(s.table, Sweep(cfg, s, p.timestamp), p);
  }

  /** Nothing, or the one-packet flow that a terminating packet opened itself. */
  predicate OwnOffer(p: PacketInfo, offer: Table) {
    offer == [] || (p.Terminates() && offer == [Opening(p)])
  }

  /** A run that finds the packet's own flow can only report that, and does if no sweep takes it first. */
  lemma {:induction false} RunFromOwn(cfg: Config, s: State, a: set<PacketInfo>, p: PacketInfo)
    requires Clear(cfg, s.table, a, p) && HoldsOwn(s.table, p) && cfg.timeout >= 0.0
    ensures OwnOffer(p, Process(cfg, s, p).ledger.emitted)
    ensures cfg.timeout > 0.0 && p.Terminates() ==> Process(cfg, s, p).ledger.emitted == [Opening(p)]
  {
    var n := Sweep(cfg, s, p.timestamp);
    if n <= ActiveIndex(s.table, p) {
      FoundInSuffix(s.table, n, p);
      SettledAgain(cfg, s.table[n..], p);
    } else {
      SweepSparesOwn(cfg, s, p);
      GoneFromSuffix(s.table, n, p);
    }
  }

  /** What a run leaves shows in what it offers. */
  lemma {:induction false} RunLeaves(cfg: Config, s: State, a: set<PacketInfo>, p: PacketInfo)
    requires Clear(cfg, s.table, a, p)
    ensures if p.Terminates() && Process(cfg, s, p).ledger.emitted != [] then Absent(Process(cfg, s, p).state.table, p)
            else HoldsOwn(Process(cfg, s, p).state.table, p)
  {
    var t := s.table[Sweep(cfg, s, p.timestamp)..];
    SweepIsClear(cfg, s, a, p);
    if Absent(t, p) {
      SettledFromAbsent(cfg, t, p);
    } else if p.Terminates() {
      SettledByTerminator(cfg, t, p);
    } else {
      SettledByOther(cfg, t, p);
    }
  }

  /** What a run offers after one that offered `before`. */
  ghost predicate OffersAfter(cfg: Config, p: PacketInfo, before: Table, offer: Table) {
    && OwnOffer(p, offer)
    && (before != [] ==> offer == [])
    && (cfg.timeout > 0.0 && p.Terminates() && before == [] ==> offer == [Opening(p)])
  }

  lemma {:induction false} NextRunOffers(cfg: Config, s: State, a: set<PacketInfo>, p: PacketInfo)
    requires Clear(cfg, s.table, a, p) && Unambiguous(cfg, a, p) && cfg.timeout >= 0.0
    ensures OffersAfter(cfg, p, Process(cfg, s, p).ledger.emitted,
                        Process(cfg, Process(cfg, s, p).state, p).ledger.emitted)
  {
    var s' := Process(cfg, s, p).state;
    StepKeepsClear(cfg, s, a, p);
    RunLeaves(cfg, s, a, p);
    if p.Terminates() && Process(cfg, s, p).ledger.emitted != [] {
      RunFromAbsent(cfg, s', p);
    } else {
      RunFromOwn(cfg, s', a, p);
    }
  }

  /** In every course each run offers what is possible after the one before it. */
  ghost predicate OffersFollow(cfg: Config, p: PacketInfo, c: Course) {
    c.Rerun? && c.earlier.Rerun? ==>
      OffersFollow(cfg, p, c.earlier) && OffersAfter(cfg, p, c.earlier.offer, c.offer)
  }

  lemma {:induction false} CourseIsClear(cfg: Config, a: set<PacketInfo>, p: PacketInfo, c: Course)
    requires c.Follows(cfg, p) && Clear(cfg, c.Start().table, a, p) && Unambiguous(cfg, a, p)
    ensures Clear(cfg, c.state.table, a, p)
    decreases c
  {
    if c.Rerun? {
      CourseIsClear(cfg, a, p, c.earlier);
      StepKeepsClear(cfg, c.earlier.state, a, p);
    }
  }

  lemma {:induction false} TwoRunsOffer(cfg: Config, a: set<PacketInfo>, p: PacketInfo, s: State, s': State, s'': State,
      first: Table, second: Table)
    requires Reran(cfg, p, s, s', first) && Reran(cfg, p, s', s'', second)
    requires Clear(cfg, s.table, a, p) && Unambiguous(cfg, a, p) && cfg.timeout >= 0.0
    ensures OffersAfter(cfg, p, first, second)
  {
    NextRunOffers(cfg, s, a, p);
  }

  lemma {:induction false} CourseOffersFollow(cfg: Config, a: set<PacketInfo>, p: PacketInfo, c: Course)
    requires c.Follows(cfg, p) && Clear(cfg, c.Start().table, a, p) && Unambiguous(cfg, a, p) && cfg.timeout >= 0.0
    ensures OffersFollow(cfg, p, c)
    decreases c
  {
    if c.Rerun? && c.earlier.Rerun? {
      CourseOffersFollow(cfg, a, p, c.earlier);
      CourseIsClear(cfg, a, p, c.earlier.earlier);
      TwoRunsOffer(cfg, a, p, c.earlier.earlier.state, c.earlier.state, c.state, c.earlier.offer, c.offer);
    }
  }

  /** Each run after the first offers what is possible after the one before it. */
  ghost predicate RepeatsOwn(cfg: Config, p: PacketInfo, offers: seq<Table>) {
    offers != [] && forall k | 0 < k < |offers| :: OffersAfter(cfg, p, offers[k - 1], offers[k])
  }

  lemma {:induction false} RepeatsOnceMore(cfg: Config, p: PacketInfo, offers: seq<Table>, offer: Table)
    requires RepeatsOwn(cfg, p, offers) && OffersAfter(cfg, p, offers[|offers| - 1], offer)
    ensures RepeatsOwn(cfg, p, offers + [offer])
  {
  }

  lemma {:induction false} OffersFollowRepeat(cfg: Config, p: PacketInfo, c: Course)
    requires c.Rerun? && OffersFollow(cfg, p, c)
    ensures RepeatsOwn(cfg, p, c.Offers())
    decreases c
  {
    if c.earlier.Rerun? {
      OffersFollowRepeat(cfg, p, c.earlier);
      RepeatsOnceMore(cfg, p, c.earlier.Offers(), c.offer);
    }
  }

  /** After a run over packets the handler is run, once or more, on the next packet. */
  ghost predicate Attempts(cfg: Config, packets: seq<PacketInfo>, p: PacketInfo, c: Course) {
    c.Rerun? && c.Follows(cfg, p) && c.Start() == Run(cfg, packets).state
  }

  lemma {:induction false} AttemptsRepeatOwn(cfg: Config, packets: seq<PacketInfo>, a: set<PacketInfo>, p: PacketInfo,
      c: Course)
    requires Attempts(cfg, packets, p, c) && Within(packets, a) && Unambiguous(cfg, a, p) && cfg.timeout >= 0.0
    ensures RepeatsOwn(cfg, p, c.Offers())
  {
    RunIsClear(cfg, packets, a, p);
    CourseOffersFollow(cfg, a, p, c);
    OffersFollowRepeat(cfg, p, c);
  }

  /** The same with what the runs offer, when the packets so far leave no room for a second answer to this one. */
  ghost predicate Attempted(cfg: Config, packets: seq<PacketInfo>, p: PacketInfo, c: Course, offers: seq<Table>) {
    && Unambiguous(cfg, (set q | q in packets + [p]), p) && cfg.timeout >= 0.0
    && Attempts(cfg, packets, p, c) && offers == c.Offers()
  }

  /**
    Run again on a packet, the handler never reports what the first run had to report. It reports nothing, or,
    if the packet terminates flows, the one-packet flow that the run before had opened for it, and never on two
    runs in a row.
    */
  lemma {:induction false} RerunsRepeatOwn(cfg: Config, packets: seq<PacketInfo>, p: PacketInfo, c: Course,
      offers: seq<Table>)
    requires Attempted(cfg, packets, p, c, offers)
    ensures RepeatsOwn(cfg, p, offers)
  {
    var a := set q | q in packets + [p];
    forall i | 0 <= i < |packets|
      ensures packets[i] in a
    {
      assert (packets + [p])[i] == packets[i];
    }
    AttemptsRepeatOwn(cfg, packets, a, p, c);
  }

  lemma {:induction false} TwoOffers(c: Course)
    requires |c.Offers()| == 2
    ensures c.Rerun? && c.earlier.Rerun? && c.earlier.earlier.Untouched?
    ensures c.Offers()[0] == c.earlier.offer && c.Offers()[1] == c.offer
    ensures c.Start() == c.earlier.earlier.state
  {
    assert c.Rerun? && c.Offers() == c.earlier.Offers() + [c.offer];
    assert c.earlier.Rerun? && c.earlier.Offers() == c.earlier.earlier.Offers() + [c.earlier.offer];
    assert c.Start() == c.earlier.Start() == c.earlier.earlier.Start();
  }

  lemma {:induction false} TwoRuns(cfg: Config, p: PacketInfo, c: Course, first: Course, start: State)
    requires c.Follows(cfg, p) && c.Rerun? && c.earlier == first && first.Rerun? && first.earlier == Untouched(start)
    ensures Reran(cfg, p, start, first.state, first.offer) && Reran(cfg, p, first.state, c.state, c.offer)
  {
    assert first.Follows(cfg, p);
  }

  /** A terminating packet that two flows answer to ends one of them on each of two runs. */
  lemma {:induction false} FirstOfTwoEnds(cfg: Config, s: State, p: PacketInfo, e: Entry, f: Entry)
    requires s.table == [e] + [f] && Tracked(s.table) && !SweepDue(s.packetsSeen + 1) && p.Terminates()
    requires Clash(p, e, f) || Clash(p, f, e)
    ensures Process(cfg, s, p).ledger.emitted != []
    ensures Process(cfg, s, p).state.table == [if e.key == p.fwdId then f else e]
    ensures Process(cfg, s, p).state.packetsSeen == s.packetsSeen + 1
  {
    assert s.table[0..] == s.table && s.table[0] == e && s.table[1] == f;
    assert ActiveIndex(s.table, p) == if e.key == p.fwdId then 0 else 1;
    assert Without(s.table, 0) + [] == [f] && Without(s.table, 1) + [] == [e];
  }

  lemma {:induction false} SecondOfTwoEnds(cfg: Config, s: State, p: PacketInfo, e: Entry)
    requires s.table == [e] && Tracked(s.table) && !SweepDue(s.packetsSeen + 1) && p.Terminates() && e.key == p.bwdId
    ensures Process(cfg, s, p).ledger.emitted != []
  {
    assert s.table[0..] == s.table;
  }

  lemma {:induction false} BothEnd(cfg: Config, p: PacketInfo, s: State, s': State, s'': State, first: Table,
      second: Table)
    requires Reran(cfg, p, s, s', first) && Reran(cfg, p, s', s'', second) && p.Terminates()
    requires |s.table| == s.packetsSeen == 2 && (Clash(p, s.table[0], s.table[1]) || Clash(p, s.table[1], s.table[0]))
    ensures first != [] && second != []
  {
    var e, f := s.table[0], s.table[1];
    assert s.table == [e] + [f];
    FirstOfTwoEnds(cfg, s, p, e, f);
    SecondOfTwoEnds(cfg, s', p, if e.key == p.fwdId then f else e);
  }

  lemma {:induction false} TwoFlowsAreReported(cfg: Config, packets: seq<PacketInfo>, p: PacketInfo) returns (c: Course)
    requires |packets| == 2 && p.Terminates()
    requires var t := Run(cfg, packets).state.table; |t| == 2 && (Clash(p, t[0], t[1]) || Clash(p, t[1], t[0]))
    ensures Attempts(cfg, packets, p, c) && |c.Offers()| == 2 && c.Offers()[0] != [] && c.Offers()[1] != []
  {
    var s := Run(cfg, packets).state;
    FlowLedger.SeenCounts(cfg, packets);
    c := CourseExists(cfg, s, p, 2);
    TwoOffers(c);
    TwoRuns(cfg, p, c, c.earlier, s);
    BothEnd(cfg, p, s, c.earlier.state, c.state, c.earlier.offer, c.offer);
  }

  lemma {:induction false} TwoReportsInARow(cfg: Config, p: PacketInfo, offers: seq<Table>)
    requires |offers| == 2 && offers[0] != [] && offers[1] != []
    ensures !RepeatsOwn(cfg, p, offers)
  {
    assert !OffersAfter(cfg, p, offers[1 - 1], offers[1]);
  }

  /**
    With a positive timeout, re-running the handler never reports a second tracked flow, over all runs of packets
    of a set, if and only if no packet with FIN or RST can have two flows answer to it.
    */
  lemma {:induction false} RerunsRepeatOwnExactly(cfg: Config, a: set<PacketInfo>)
    requires cfg.timeout > 0.0
    ensures (forall p | p in a :: Unambiguous(cfg, a, p))
            <==> forall packets, p, c | Within(packets, a) && p in a && Attempts(cfg, packets, p, c) ::
                   RepeatsOwn(cfg, p, c.Offers())
  {
    if forall p | p in a :: Unambiguous(cfg, a, p) {
      forall packets, p, c | Within(packets, a) && p in a && Attempts(cfg, packets, p, c)
        ensures RepeatsOwn(cfg, p, c.Offers())
      {
        AttemptsRepeatOwn(cfg, packets, a, p, c);
      }
    } else {
      var p :| p in a && !Unambiguous(cfg, a, p);
      var packets := TwoCanAnswer(cfg, a, p);
      var c := TwoFlowsAreReported(cfg, packets, p);
      TwoReportsInARow(cfg, p, c.Offers());
    }
  }

  /** With dashes in addresses a message handled twice can end two flows. */
  lemma {:induction false} DashesEndTwoFlows(cfg: Config) returns (packets: seq<PacketInfo>, p: PacketInfo, c: Course)
    requires cfg.maxFlows >= 2
    ensures packets == [Dashed("a-b", "c"), Dashed("c-a", "b")] && p == Dashed("a-b", "c").(fin := true)
    ensures Attempts(cfg, packets, p, c) && |c.Offers()| == 2 && c.Offers()[0] != [] && c.Offers()[1] != []
  {
    packets, p := [Dashed("a-b", "c"), Dashed("c-a", "b")], Dashed("a-b", "c").(fin := true);
    DashedIds();
    DashesFileBesideReversal(cfg);
    assert Clash(p, Opening(Dashed("a-b", "c")), Opening(Dashed("c-a", "b")));
    c := TwoFlowsAreReported(cfg, packets, p);
  }

  predicate Even(k: nat) {
    k % 2 == 0
  }

  /** A terminating packet's own opening, on every other run after the first. */
  predicate Reoffers(p: PacketInfo, first: Table, k: nat) {
    p.Terminates() && (Even(k) <==> first == [])
  }

  /** With a positive timeout the first offer decides what the k-th run offers. */
  lemma {:induction false} EveryOtherRunReoffers(cfg: Config, p: PacketInfo, offers: seq<Table>, k: nat)
    requires RepeatsOwn(cfg, p, offers) && cfg.timeout > 0.0 && 2 <= k <= |offers|
    ensures offers[k - 1] == if Reoffers(p, offers[0], k) then [Opening(p)] else []
  {
    assert OffersAfter(cfg, p, offers[k - 1 - 1], offers[k - 1]);
    if k > 2 {
      EveryOtherRunReoffers(cfg, p, offers, k - 1);
    }
  }

  lemma {:induction false} RunIsCounted(cfg: Config, p: PacketInfo, before: State, after: State, offer: Table)
    requires Reran(cfg, p, before, after, offer)
    ensures after.packetsSeen == before.packetsSeen + 1
  {
  }

  /** Every run counts the packet again. */
  lemma {:induction false} RerunsAreCounted(cfg: Config, p: PacketInfo, c: Course)
    requires c.Follows(cfg, p)
    ensures c.state.packetsSeen == c.Start().packetsSeen + |c.Offers()|
    decreases c
  {
    if c.Rerun? {
      RerunsAreCounted(cfg, p, c.earlier);
      RunIsCounted(cfg, p, c.earlier.state, c.state, c.offer);
    }
  }

  // ------------------------------------------------------------- under retry

  /** What a single run publishes. */
  function FirstPublished(offers: seq<Table>, stored: Retry.Oracle): Table
    requires offers != []
  {
    if stored(1) then offers[0] else []
  }

  /** How many of the runs up to the r-th, after the first, had something to report that reached the broker. */
  function Phantoms(offers: seq<Table>, stored: Retry.Oracle, r: nat): nat
    requires r <= |offers|
  {
    if r <= 1 then 0
    else Phantoms(offers, stored, r - 1) + if offers[r - 1] != [] && stored(r) then 1 else 0
  }

  function Copies(e: Entry, n: nat): Table {
    if n == 0 then [] else Copies(e, n - 1) + [e]
  }

  lemma {:induction false} CopiesAreAlike(e: Entry, n: nat)
    ensures |Copies(e, n)| == n
    ensures forall i | 0 <= i < n :: Copies(e, n)[i] == e
  {
    if n > 0 {
      CopiesAreAlike(e, n - 1);
    }
  }

  lemma {:induction false} PublishedUpTo(cfg: Config, p: PacketInfo, offers: seq<Table>, stored: Retry.Oracle, r: nat)
    requires RepeatsOwn(cfg, p, offers) && 1 <= r <= |offers|
    ensures Published(offers, stored, r)
            == FirstPublished(offers, stored) + Copies(Opening(p), Phantoms(offers, stored, r))
  {
    if r == 1 {
      assert Published(offers, stored, 0) == [];
    } else {
      PublishedUpTo(cfg, p, offers, stored, r - 1);
      assert OffersAfter(cfg, p, offers[r - 1 - 1], offers[r - 1]);
    }
  }

  lemma {:induction false} PhantomsCount(offers: seq<Table>, stored: Retry.Oracle, r: nat)
    requires r <= |offers|
    ensures Phantoms(offers, stored, r) == 0 <==> forall k | 2 <= k <= r :: offers[k - 1] == [] || !stored(k)
  {
    if r > 1 {
      PhantomsCount(offers, stored, r - 1);
    }
  }

  /**
    Under retry with any publishes and acknowledgements: the flow that a packet ended is published if and only
    if the first publish reached the broker, and what else is published are openings of the packet's own, one for
    each later run that has it to report and reaches the broker.
    */
  lemma {:induction false} PublishedUnderRetry(cfg: Config, packets: seq<PacketInfo>, p: PacketInfo,
      c: Course, offers: seq<Table>, publish: Retry.Oracle, stored: Retry.Oracle, ack: Retry.Oracle)
    requires Attempted(cfg, packets, p, c, offers)
    ensures var r := RunsOn(offers, publish, ack);
            Published(offers, stored, r)
            == FirstPublished(offers, stored) + Copies(Opening(p), Phantoms(offers, stored, r))
  {
    RerunsRepeatOwn(cfg, packets, p, c, offers);
    PublishedUpTo(cfg, p, offers, stored, RunsOn(offers, publish, ack));
  }

  lemma {:induction false} AddsNothingUnlessStored(cfg: Config, p: PacketInfo, offers: seq<Table>, stored: Retry.Oracle,
      r: nat)
    requires RepeatsOwn(cfg, p, offers) && 1 <= r <= |offers|
    ensures Published(offers, stored, r) == FirstPublished(offers, stored)
            <==> forall k | 2 <= k <= r :: offers[k - 1] == [] || !stored(k)
  {
    PublishedUpTo(cfg, p, offers, stored, r);
    CopiesAreAlike(Opening(p), Phantoms(offers, stored, r));
    PhantomsCount(offers, stored, r);
  }

  /** The packet closes a tracked flow: in the table that a due sweep leaves it finds one that is over. */
  ghost predicate EndsFlow(cfg: Config, s: State, p: PacketInfo)
    requires Tracked(s.table)
  {
    Closes(cfg, s.table[Sweep(cfg, s, p.timestamp)..], p)
  }

  lemma {:induction false} FirstOffer(cfg: Config, p: PacketInfo, c: Course)
    requires c.Rerun? && c.Follows(cfg, p)
    ensures Tracked(c.Start().table) && c.Offers() != [] && (c.Offers()[0] == [] <==> !EndsFlow(cfg, c.Start(), p))
    decreases c
  {
    if c.earlier.Rerun? {
      FirstOffer(cfg, p, c.earlier);
    } else {
      assert c.Offers() == [] + [c.offer];
    }
  }

  /** The k-th run has the packet's own opening to report. */
  ghost predicate ReportsOwn(cfg: Config, s: State, p: PacketInfo, k: nat)
    requires Tracked(s.table)
  {
    p.Terminates() && (Even(k) <==> !EndsFlow(cfg, s, p))
  }

  lemma {:induction false} ReportsOwnAt(cfg: Config, p: PacketInfo, c: Course, k: nat)
    requires c.Rerun? && c.Follows(cfg, p) && RepeatsOwn(cfg, p, c.Offers()) && cfg.timeout > 0.0
    requires 2 <= k <= |c.Offers()|
    ensures Tracked(c.Start().table) && (c.Offers()[k - 1] == [] <==> !ReportsOwn(cfg, c.Start(), p, k))
  {
    FirstOffer(cfg, p, c);
    EveryOtherRunReoffers(cfg, p, c.Offers(), k);
  }

  /**
    With a positive timeout retrying adds nothing if and only if no run reports the packet's own opening and
    reaches the broker: only a packet with FIN or RST does, on the even runs if it ended no tracked flow and on
    the odd ones after the first if it did.
    */
  lemma {:induction false} RetryAddsNothingUnlessReoffered(cfg: Config, packets: seq<PacketInfo>, p: PacketInfo,
      c: Course, offers: seq<Table>, publish: Retry.Oracle, stored: Retry.Oracle, ack: Retry.Oracle)
    requires Attempted(cfg, packets, p, c, offers) && cfg.timeout > 0.0
    ensures var r := RunsOn(offers, publish, ack);
            Published(offers, stored, r) == FirstPublished(offers, stored)
            <==> forall k | 2 <= k <= r :: !(ReportsOwn(cfg, Run(cfg, packets).state, p, k) && stored(k))
  {
    var r := RunsOn(offers, publish, ack);
    RerunsRepeatOwn(cfg, packets, p, c, offers);
    AddsNothingUnlessStored(cfg, p, offers, stored, r);
    forall k | 2 <= k <= |offers|
      ensures offers[k - 1] == [] <==> !ReportsOwn(cfg, Run(cfg, packets).state, p, k)
    {
      ReportsOwnAt(cfg, p, c, k);
    }
  }

  lemma {:induction false} SecondOffer(cfg: Config, p: PacketInfo, offers: seq<Table>)
    requires RepeatsOwn(cfg, p, offers) && |offers| >= 2
    ensures OffersAfter(cfg, p, offers[0], offers[1])
  {
    assert OffersAfter(cfg, p, offers[1 - 1], offers[1]);
  }

  lemma {:induction false} RunsAtMostTwice(cfg: Config, p: PacketInfo, offers: seq<Table>, publish: Retry.Oracle,
      ack: Retry.Oracle)
    requires RepeatsOwn(cfg, p, offers) && forall k: nat | 1 <= k <= |offers| :: ack(k)
    ensures RunsOn(offers, publish, ack) <= if offers[0] == [] then 1 else 2
  {
    var handler := Handler(offers, publish);
    if offers[0] == [] {
      assert Retry.Completes(handler, ack, 1);
    } else if |offers| >= 2 {
      SecondOffer(cfg, p, offers);
      assert Retry.Completes(handler, ack, 2);
    }
  }

  /** When acknowledgements return, a retry never makes up for a publish that did not reach the broker. */
  lemma {:induction false} PublishedIffFirstPublishSucceeds(cfg: Config, packets: seq<PacketInfo>, p: PacketInfo,
      c: Course, offers: seq<Table>, publish: Retry.Oracle, stored: Retry.Oracle, ack: Retry.Oracle)
    requires Attempted(cfg, packets, p, c, offers)
    requires forall k: nat | 1 <= k <= |offers| :: ack(k)
    ensures Published(offers, stored, RunsOn(offers, publish, ack)) == FirstPublished(offers, stored)
  {
    var r := RunsOn(offers, publish, ack);
    RerunsRepeatOwn(cfg, packets, p, c, offers);
    RunsAtMostTwice(cfg, p, offers, publish, ack);
    PublishedUpTo(cfg, p, offers, stored, r);
    NoPhantoms(cfg, p, offers, stored, r);
  }

  lemma {:induction false} NoPhantoms(cfg: Config, p: PacketInfo, offers: seq<Table>, stored: Retry.Oracle, r: nat)
    requires RepeatsOwn(cfg, p, offers) && r <= |offers| && r <= if offers[0] == [] then 1 else 2
    ensures Phantoms(offers, stored, r) == 0
  {
    if r == 2 {
      SecondOffer(cfg, p, offers);
      assert Phantoms(offers, stored, 1) == 0;
    }
  }

  lemma {:induction false} CompletesSecond(offers: seq<Table>, publish: Retry.Oracle, ack: Retry.Oracle)
    requires |offers| >= 2 && (offers[0] == [] || publish(1) ==> !ack(1))
    requires (offers[1] == [] || publish(2)) && ack(2)
    ensures Completing(offers, publish, ack) == 2
  {
    var handler := Handler(offers, publish);
    assert !Retry.Completes(handler, ack, 1) && Retry.Completes(handler, ack, 2);
    Retry.FirstIs(handler, ack, |offers|, 2);
  }

  lemma {:induction false} PublishedByTwo(offers: seq<Table>, stored: Retry.Oracle)
    requires |offers| >= 2
    ensures Published(offers, stored, 2) == FirstPublished(offers, stored) + if stored(2) then offers[1] else []
  {
    assert Published(offers, stored, 0) == [];
    assert Published(offers, stored, 1) == FirstPublished(offers, stored);
  }

  /** One raising acknowledgement of an untracked terminating packet publishes a flow that no single run reports. */
  lemma {:induction false} RaisingAckPublishesPhantom(cfg: Config, packets: seq<PacketInfo>, p: PacketInfo,
      c: Course, offers: seq<Table>, publish: Retry.Oracle, stored: Retry.Oracle, ack: Retry.Oracle)
    requires Attempted(cfg, packets, p, c, offers) && cfg.timeout > 0.0 && |offers| >= 2
    requires p.Terminates() && !EndsFlow(cfg, Run(cfg, packets).state, p)
    requires !ack(1) && ack(2) && publish(2) && stored(2)
    ensures Completing(offers, publish, ack) == 2
    ensures Published(offers, stored, RunsOn(offers, publish, ack)) == [Opening(p)]
  {
    FirstOffer(cfg, p, c);
    RerunsRepeatOwn(cfg, packets, p, c, offers);
    SecondOffer(cfg, p, offers);
    CompletesSecond(offers, publish, ack);
    PublishedByTwo(offers, stored);
  }

  /**
    It happens: to any packet with FIN or RST that comes first, when its publish reaches the broker on the second
    run. No flow was there to end, and [Opening(p)] is published.
    */
  lemma {:induction false} PhantomIsPublished(cfg: Config, p: PacketInfo, publish: Retry.Oracle, stored: Retry.Oracle,
      ack: Retry.Oracle) returns (c: Course)
    requires cfg.timeout > 0.0 && p.Terminates() && !ack(1) && ack(2) && publish(2) && stored(2)
    ensures Attempted(cfg, [], p, c, c.Offers()) && |c.Offers()| == 2 && c.Offers()[0] == []
    ensures Published(c.Offers(), stored, RunsOn(c.Offers(), publish, ack)) == [Opening(p)]
  {
    c := CourseExists(cfg, Run(cfg, []).state, p, 2);
    LoneIsUnambiguous(cfg, p);
    assert c.Rerun?;
    FirstOffer(cfg, p, c);
    RaisingAckPublishesPhantom(cfg, [], p, c, c.Offers(), publish, stored, ack);
  }

  lemma {:induction false} LoneIsUnambiguous(cfg: Config, p: PacketInfo)
    ensures Unambiguous(cfg, (set q | q in [] + [p]), p)
  {
  }

  /**
    After a failed publish the flow the packet ended is lost: whatever is published later is the packet's own
    opening. If the next acknowledgement returns, the message counts as handled and nothing is published.
    */
  lemma {:induction false} LostEventLooksHandled(cfg: Config, packets: seq<PacketInfo>, p: PacketInfo,
      c: Course, offers: seq<Table>, publish: Retry.Oracle, stored: Retry.Oracle, ack: Retry.Oracle)
    requires Attempted(cfg, packets, p, c, offers) && |offers| >= 2
    requires EndsFlow(cfg, Run(cfg, packets).state, p) && !publish(1) && !stored(1)
    ensures forall e | e in Published(offers, stored, RunsOn(offers, publish, ack)) :: e == Opening(p)
    ensures ack(2) ==> Completing(offers, publish, ack) == 2 && Published(offers, stored, 2) == []
  {
    FirstOffer(cfg, p, c);
    PublishedUnderRetry(cfg, packets, p, c, offers, publish, stored, ack);
    CopiesAreAlike(Opening(p), Phantoms(offers, stored, RunsOn(offers, publish, ack)));
    if ack(2) {
      RerunsRepeatOwn(cfg, packets, p, c, offers);
      SecondOffer(cfg, p, offers);
      CompletesSecond(offers, publish, ack);
      PublishedByTwo(offers, stored);
    }
  }
}
