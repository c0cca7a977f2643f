/** What every tracked, evicted or emitted flow looks like, over every run. */
module FlowShape {
  import opened Packets
  import opened Statistics
  import opened Rounding
  import opened FlowHistory
  import opened FlowTable
  import FlowLedger

  // ------------------------------------------------- properties of single entries

  ghost predicate Every(t: Table, q: Entry -> bool) {
    forall i | 0 <= i < |t| :: q(t[i])
  }

  /** The packet joins the entry: it is filed under one of the packet's ids, in time and not terminated. */
  ghost predicate Takes(cfg: Config, e: Entry, p: PacketInfo) {
    && e.history != []
    && (e.key == p.fwdId || e.key == p.bwdId)
    && p.timestamp - Last(e.history).packet.timestamp <= cfg.timeout
    && !p.fin && !p.rst
  }

  /** A packet can only create entries with the property. */
  ghost predicate Establishes(cfg: Config, q: Entry -> bool, p: PacketInfo) {
    && q(Opening(p))
    && forall e | q(e) && Takes(cfg, e, p) :: q(Grown(e, p))
  }

  ghost predicate EveryEntry(r: Step, q: Entry -> bool) {
    Every(r.state.table, q) && Every(r.ledger.evicted, q) && Every(r.ledger.emitted, q)
  }

  lemma {:induction false} ActiveKey(table: Table, p: PacketInfo)
    requires ActiveIndex(table, p) < |table|
    ensures table[ActiveIndex(table, p)].key == p.fwdId || table[ActiveIndex(table, p)].key == p.bwdId
  {
  }

  lemma {:induction false} KeptKeepsEvery(cfg: Config, t: Table, p: PacketInfo, q: Entry -> bool)
    requires Tracked(t) && Every(t, q)
    ensures Every(Kept(cfg, t, p), q)
  {
    FlowLedger.KeptInOrder(cfg, t, p);
  }

  lemma {:induction false} FiledKeepsEvery(cfg: Config, t: Table, p: PacketInfo, q: Entry -> bool)
    requires Tracked(t) && Every(t, q) && Establishes(cfg, q, p)
    ensures Every(Filed(cfg, t, p), q)
  {
    var i := ActiveIndex(t, p);
    if i < |t| {
      ActiveKey(t, p);
      assert !TimedOut(cfg, t[i], p) && !p.Terminates() ==> Takes(cfg, t[i], p);
    }
  }

  lemma {:induction false} LeaversKeepEvery(cfg: Config, t: Table, p: PacketInfo, q: Entry -> bool)
    requires Tracked(t) && Every(t, q)
    ensures Every(MadeRoom(cfg, t, p), q) && Every(Emitted(cfg, t, p), q)
  {
  }

  lemma {:induction false} ProcessKeepsEvery(cfg: Config, s: State, p: PacketInfo, q: Entry -> bool)
    requires Tracked(s.table) && Every(s.table, q) && Establishes(cfg, q, p)
    ensures EveryEntry(Process(cfg, s, p), q)
  {
    var n := Sweep(cfg, s, p.timestamp);
    var t := s.table[n..];
    EveryPart(s.table, n, q);
    KeptKeepsEvery(cfg, t, p, q);
    FiledKeepsEvery(cfg, t, p, q);
    LeaversKeepEvery(cfg, t, p, q);
    EveryConcat(Kept(cfg, t, p), Filed(cfg, t, p), q);
    EveryConcat(s.table[..n], MadeRoom(cfg, t, p), q);
  }

  lemma {:induction false} EveryPart(t: Table, n: nat, q: Entry -> bool)
    requires n <= |t| && Every(t, q)
    ensures Every(t[..n], q) && Every(t[n..], q)
  {
  }

  lemma {:induction false} EveryConcat(a: Table, b: Table, q: Entry -> bool)
    requires Every(a, q) && Every(b, q)
    ensures Every(a + b, q)
  {
  }

  /** A property of entries that packets can only establish holds of every flow that is or ever was in the table. */
  lemma {:induction false} RunKeepsEvery(cfg: Config, packets: seq<PacketInfo>, q: Entry -> bool)
    requires forall i | 0 <= i < |packets| :: Establishes(cfg, q, packets[i])
    ensures EveryEntry(Run(cfg, packets), q)
  {
    if packets != [] {
      var before, p := packets[..|packets| - 1], packets[|packets| - 1];
      RunKeepsEvery(cfg, before, q);
      var r := Run(cfg, before);
      var last := Process(cfg, r.state, p);
      ProcessKeepsEvery(cfg, r.state, p, q);
      EveryConcat(r.ledger.evicted, last.ledger.evicted, q);
      EveryConcat(r.ledger.emitted, last.ledger.emitted, q);
    }
  }

  // ------------------------------------------------------------------ flow shape

  /** Consecutive packets are at most the timeout apart and only the first may carry FIN or RST. */
  ghost predicate Shaped(cfg: Config, h: History) {
    && h != []
    && forall i | 0 < i < |h| ::
         && h[i].packet.timestamp - h[i - 1].packet.timestamp <= cfg.timeout
         && !h[i].packet.fin && !h[i].packet.rst
  }

  ghost function ShapedEntry(cfg: Config): Entry -> bool {
    (e: Entry) => Shaped(cfg, e.history)
  }

  lemma {:induction false} EveryFlowIsShaped(cfg: Config, packets: seq<PacketInfo>)
    ensures EveryEntry(Run(cfg, packets), ShapedEntry(cfg))
  {
    forall i | 0 <= i < |packets|
      ensures Establishes(cfg, ShapedEntry(cfg), packets[i])
    {
      ShapeEstablished(cfg, packets[i]);
    }
    RunKeepsEvery(cfg, packets, ShapedEntry(cfg));
  }

  lemma {:induction false} ShapeEstablished(cfg: Config, p: PacketInfo)
    ensures Establishes(cfg, ShapedEntry(cfg), p)
  {
    forall e | ShapedEntry(cfg)(e) && Takes(cfg, e, p)
      ensures ShapedEntry(cfg)(Grown(e, p))
    {
      GrownStaysShaped(cfg, e, p);
    }
  }

  lemma {:induction false} GrownStaysShaped(cfg: Config, e: Entry, p: PacketInfo)
    requires Shaped(cfg, e.history) && Takes(cfg, e, p)
    ensures Shaped(cfg, Grown(e, p).history)
  {
  }

  lemma {:induction false} ShapedSpan(cfg: Config, h: History)
    requires Shaped(cfg, h)
    ensures Last(h).packet.timestamp - h[0].packet.timestamp <= Scaled(cfg.timeout, (|h| - 1) as real)
  {
    if |h| == 1 {
      assert Scaled(cfg.timeout, 0.0) == 0.0;
    } else {
      ShapedSpan(cfg, h[..|h| - 1]);
      ScaledOneMore(cfg.timeout, (|h| - 2) as real);
      assert (|h| - 2) as real + 1.0 == (|h| - 1) as real;
    }
  }

  lemma {:induction false} ShapedGaps(cfg: Config, h: History)
    requires Shaped(cfg, h)
    ensures forall g | g in Gaps(Times(All(h))) :: g <= Micros(cfg.timeout)
  {
    if |h| > 1 {
      var before, t := h[..|h| - 1], Last(h);
      ShapedGaps(cfg, before);
      assert h == before + [t];
      AllSnoc(before, t);
      TimesSnoc(All(before), t.packet);
      GapsSnoc(Times(All(before)), t.packet.timestamp);
    }
  }

  lemma {:induction false} FlagsOfShaped(cfg: Config, h: History)
    requires Shaped(cfg, h)
    ensures Raised(All(h), FIN) <==> h[0].packet.fin
  {
    RaisedBySome(All(h), FIN);
    if i :| 0 <= i < |h| && Carries(All(h)[i], FIN) {
      assert i == 0;
    }
    assert Carries(All(h)[0], FIN) <==> h[0].packet.fin;
  }

  /**
    What a reported flow of n packets therefore shows: a duration of at most (n - 1) timeouts, no gap above
    the timeout, and the FIN bit of its opening packet alone.
    */
  ghost predicate RowInShape(cfg: Config, h: History) {
    && h != []
    && Batch(h).flowDuration <= RoundHalfEven(Micros(Scaled(cfg.timeout, (|h| - 1) as real)))
    && (|h| > 1 ==> Batch(h).flowIat.max <= RoundHalfEven(Micros(cfg.timeout)))
    && Batch(h).flags.fin == Bit(h[0].packet.fin)
  }

  ghost function InShape(cfg: Config): Entry -> bool {
    (e: Entry) => RowInShape(cfg, e.history)
  }

  lemma {:induction false} EmittedFlowShape(cfg: Config, packets: seq<PacketInfo>)
    ensures Every(Run(cfg, packets).ledger.emitted, InShape(cfg))
  {
    EveryFlowIsShaped(cfg, packets);
    var emitted := Run(cfg, packets).ledger.emitted;
    forall k | 0 <= k < |emitted|
      ensures InShape(cfg)(emitted[k])
    {
      assert ShapedEntry(cfg)(emitted[k]);
      ShapedRow(cfg, emitted[k].history);
    }
  }

  lemma {:induction false} ShapedRow(cfg: Config, h: History)
    requires Shaped(cfg, h)
    ensures RowInShape(cfg, h)
  {
    ShapedSpan(cfg, h);
    RoundIsMonotone(Duration(All(h)), Micros(Scaled(cfg.timeout, (|h| - 1) as real)));
    FlagsOfShaped(cfg, h);
    var gaps := Gaps(Times(All(h)));
    if gaps != [] {
      ShapedGaps(cfg, h);
      ExtremesAreAttained(gaps);
      RoundIsMonotone(Max(gaps), Micros(cfg.timeout));
    }
  }
}
