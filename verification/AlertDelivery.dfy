/**
  The whole alert protocol as interleaved steps: workers commit alerts and then publish them, and one
  connection queries its backlog, subscribes, and forwards what the channel carries.
  */
module AlertDelivery {
  import opened Options
  import opened AlertStore
  import opened AlertStream

  /** Rows that one catch-up query returns at most. */
  const MAX_BATCH := 100

  datatype Phase = Connecting | CaughtUpWith | Subscribed

  /**
    The database and the connection. Beside what the system holds, the state remembers what was committed
    when the query ran, whose publish failed, and whose publish came before the subscription.
    */
  datatype State = State(
    committed: set<Alert>,
    attempted: set<Alert>,
    phase: Phase,
    rows: seq<Alert>,
    mailbox: seq<Alert>,
    heard: seq<Alert>,
    queried: Option<set<Alert>>,
    failed: set<Alert>,
    early: set<Alert>)

  const START := State({}, {}, Connecting, [], [], [], None, {}, {})

  datatype Event =
    | Commit(alert: Alert)
    | Publish(alert: Alert, ok: bool)
    | Query(rows: seq<Alert>)
    | QueryFails
    | Subscribe
    | Hear

  // ------------------------------------------------------------------------ steps

  /** Ids are assigned by a sequence but commits may come in any order; a publish follows its own commit, once. */
  ghost predicate Enabled(since: int, s: State, e: Event) {
    match e
    case Commit(a) => a.id > 0 && forall b | b in s.committed :: b.id != a.id
    case Publish(a, _) => a in s.committed && a !in s.attempted
    case Query(rows) =>
      s.phase == Connecting && Page(Matching(s.committed, Some(since), None, None), OldestFirst, MAX_BATCH, rows)
    case QueryFails => s.phase == Connecting
    case Subscribe => s.phase == CaughtUpWith
    case Hear => s.mailbox != []
  }

  function Apply(s: State, e: Event): State {
    match e
    case Commit(a) => s.(committed := s.committed + {a})
    case Publish(a, ok) =>
      var t := s.(attempted := s.attempted + {a});
      if !ok then t.(failed := s.failed + {a})
      else if s.phase == Subscribed then t.(mailbox := s.mailbox + [a])
      else t.(early := s.early + {a})
    case Query(rows) => s.(phase := CaughtUpWith, rows := rows, queried := Some(s.committed))
    case QueryFails => s.(phase := CaughtUpWith)
    case Subscribe => s.(phase := Subscribed)
    case Hear => if s.mailbox == [] then s else s.(mailbox := s.mailbox[1..], heard := s.heard + [s.mailbox[0]])
  }

  function After(events: seq<Event>): State {
    if events == [] then START else Apply(After(events[..|events| - 1]), events[|events| - 1])
  }

  /** Every event could happen when it did. */
  ghost predicate Legal(since: int, events: seq<Event>) {
    events == []
    || (Legal(since, events[..|events| - 1]) && Enabled(since, After(events[..|events| - 1]), events[|events| - 1]))
  }

  // ------------------------------------------------------------- what the client sees

  /** The channel carries each alert as a JSON object with its id; its times do not matter here. */
  function Raws(alerts: seq<Alert>): (raws: seq<Raw>)
    ensures |raws| == |alerts|
  {
    seq(|alerts|, i requires 0 <= i < |alerts| => Object(0.0, Number(alerts[i].id), alerts[i].body))
  }

  /** The data frames written: the backlog rows, then of the messages heard those that arrive highest. */
  function Shown(since: int, s: State): (ds: seq<Frame>)
    ensures AllData(ds)
  {
    Rows(s.rows) + Passing(since, CaughtUp(s.rows), Raws(s.heard))
  }

  ghost predicate Seen(since: int, s: State, a: Alert) {
    Carries(Shown(since, s), a.id)
  }

  // -------------------------------------------------------------------- invariant

  ghost predicate NoRepeats(alerts: seq<Alert>) {
    forall i, j | 0 <= i < j < |alerts| :: alerts[i] != alerts[j]
  }

  /** Where a published alert went: its publish failed, came early, or put it on the channel once. */
  ghost predicate Accounted(s: State) {
    && NoRepeats(s.heard + s.mailbox)
    && (forall a | a in s.attempted :: a in s.failed || a in s.early || a in s.heard || a in s.mailbox)
    && (forall a | a in s.failed || a in s.early || a in s.heard || a in s.mailbox :: a in s.attempted)
    && (forall a | a in s.failed || a in s.early :: a !in s.heard && a !in s.mailbox)
    && s.failed !! s.early
  }

  ghost predicate Queried(since: int, s: State) {
    match s.queried
    case None => s.rows == []
    case Some(backlog) =>
      backlog <= s.committed && Page(Matching(backlog, Some(since), None, None), OldestFirst, MAX_BATCH, s.rows)
  }

  ghost predicate Inv(since: int, s: State) {
    && UniqueIds(s.committed) && (forall a | a in s.committed :: a.id > 0)
    && s.attempted <= s.committed
    && Accounted(s)
    && Queried(since, s)
    && (s.phase != Subscribed ==> s.heard == [] && s.mailbox == [])
    && (s.phase == Connecting ==> s.rows == [] && s.queried == None)
  }

  lemma {:induction false} PublishAccounted(s: State, a: Alert, ok: bool)
    requires Accounted(s) && a !in s.attempted
    ensures Accounted(Apply(s, Publish(a, ok)))
  {
    var t := Apply(s, Publish(a, ok));
    assert s.heard + (s.mailbox + [a]) == (s.heard + s.mailbox) + [a];
  }

  lemma {:induction false} HearAccounted(s: State)
    requires Accounted(s) && s.mailbox != []
    ensures Accounted(Apply(s, Hear))
  {
    var t := Apply(s, Hear);
    assert t.heard + t.mailbox == s.heard + s.mailbox;
    assert s.mailbox == [s.mailbox[0]] + t.mailbox;
    forall a
      ensures a in t.heard || a in t.mailbox <==> a in s.heard || a in s.mailbox
    {
      assert a in s.heard + s.mailbox <==> a in t.heard + t.mailbox;
    }
  }

  lemma {:induction false} StepKeepsInv(since: int, s: State, e: Event)
    requires Inv(since, s) && Enabled(since, s, e)
    ensures Inv(since, Apply(s, e))
  {
    match e
    case Publish(a, ok) => PublishAccounted(s, a, ok);
    case Hear => HearAccounted(s);
    case _ =>
  }

  lemma {:induction false} RunKeepsInv(since: int, events: seq<Event>)
    requires Legal(since, events)
    ensures Inv(since, After(events))
    decreases |events|
  {
    if events != [] {
      RunKeepsInv(since, events[..|events| - 1]);
      StepKeepsInv(since, After(events[..|events| - 1]), events[|events| - 1]);
    }
  }

  // ------------------------------------------------------------------ no duplicates

  /** In every interleaving the ids shown ascend: nothing is shown twice, whatever path it came by. */
  lemma {:induction false} NothingShownTwice(since: int, events: seq<Event>)
    requires Legal(since, events) && since >= 0
    ensures var s := After(events);
            Ordered(since, Shown(since, s), Highest(since, CaughtUp(s.rows) + Heard(Raws(s.heard))))
  {
    RunKeepsInv(since, events);
    NothingOutOfOrder(since, After(events));
  }

  lemma {:induction false} BacklogAscends(since: int, s: State)
    requires Inv(since, s)
    ensures Ascending(since, s.rows)
  {
    forall i, j | 0 <= i < j < |s.rows|
      ensures s.rows[i].id < s.rows[j].id
    {
      assert Precedes(OldestFirst, s.rows[i], s.rows[j]);
    }
  }

  lemma {:induction false} StreamedInOrder(since: int, rows: seq<Alert>, raws: seq<Raw>)
    requires since >= 0 && Ascending(since, rows)
    ensures Ordered(since, Rows(rows) + Passing(since, CaughtUp(rows), raws),
                    Highest(since, CaughtUp(rows) + Heard(raws)))
    decreases |raws|
  {
    if raws == [] {
      RowsAreOrdered(since, rows);
      HighestOfRows(since, rows);
      NothingHeardYet(since, rows);
    } else {
      var earlier, raw := raws[..|raws| - 1], raws[|raws| - 1];
      var ds := Rows(rows) + Passing(since, CaughtUp(rows), earlier);
      var high := Highest(since, CaughtUp(rows) + Heard(earlier));
      assert raws == earlier + [raw];
      StreamedInOrder(since, rows, earlier);
      HighestOneMore(since, CaughtUp(rows), earlier, raw);
      PassingOneMore(since, CaughtUp(rows), Rows(rows), earlier, raw);
      PassedKeepsOrder(since, ds, high, raw);
    }
  }

  lemma {:induction false} PassedKeepsOrder(since: int, ds: seq<Frame>, high: int, raw: Raw)
    requires Ordered(since, ds, high) && high >= 0
    ensures Ordered(since, ds + Passed(high, raw),
                    if raw.Object? && AlertId(raw.id) > high then AlertId(raw.id) else high)
  {
    if Passed(high, raw) == [] {
      assert ds + [] == ds;
    } else {
      OrderedSnoc(since, ds, high, Passed(high, raw)[0]);
    }
  }

  /** The frame is of the alert: both ids and the body are the alert's. */
  predicate IsOf(f: Frame, a: Alert) {
    f.Data? && f.frameId == a.id && f.alertId == a.id && f.body == a.body
  }

  lemma {:induction false} LiveFrameIsOf(since: int, s: State, k: nat) returns (a: Alert)
    requires Inv(since, s) && since >= 0 && k < |Passing(since, CaughtUp(s.rows), Raws(s.heard))|
    ensures a in s.committed && IsOf(Passing(since, CaughtUp(s.rows), Raws(s.heard))[k], a)
  {
    var ds := Passing(since, CaughtUp(s.rows), Raws(s.heard));
    var at := ForwardsMessages(since, CaughtUp(s.rows), Raws(s.heard));
    a := s.heard[at[k]];
    assert a in s.heard && Forwards(ds[k], Raws(s.heard)[at[k]]);
    NothingOutOfOrder(since, s);
    assert Shown(since, s)[|s.rows| + k] == ds[k];
  }

  lemma {:induction false} NothingOutOfOrder(since: int, s: State)
    requires Inv(since, s) && since >= 0
    ensures Ordered(since, Shown(since, s), Highest(since, CaughtUp(s.rows) + Heard(Raws(s.heard))))
  {
    BacklogAscends(since, s);
    StreamedInOrder(since, s.rows, Raws(s.heard));
  }

  /** Every frame shown is of a committed alert, with its id and its body. */
  lemma {:induction false} ShownAreAlerts(since: int, events: seq<Event>, k: nat) returns (a: Alert)
    requires since >= 0 && Legal(since, events) && k < |Shown(since, After(events))|
    ensures a in After(events).committed && IsOf(Shown(since, After(events))[k], a)
  {
    var s := After(events);
    RunKeepsInv(since, events);
    if k < |s.rows| {
      a := s.rows[k];
      assert a in s.rows;
    } else {
      a := LiveFrameIsOf(since, s, k - |s.rows|);
    }
  }

  // ------------------------------------------------------------- what can be missed

  /** The catch-up query shows the alert: it ran after the commit, and fewer than a full batch preceded it. */
  ghost predicate InBacklog(since: int, s: State, a: Alert) {
    && s.queried.Some?
    && a in s.queried.value
    && |set b | b in Matching(s.queried.value, Some(since), None, None) && b.id < a.id| < 100
  }

  lemma {:induction false} BacklogExactly(since: int, s: State, a: Alert)
    requires Inv(since, s) && a.id > since
    ensures a in s.rows <==> InBacklog(since, s, a)
  {
    if s.queried.Some? && a in s.queried.value {
      var selection := Matching(s.queried.value, Some(since), None, None);
      OnPageIffRankedIn(selection, OldestFirst, MAX_BATCH, s.rows, a);
      assert (set b | b in selection && Precedes(OldestFirst, b, a)) == (set b | b in selection && b.id < a.id);
    }
  }

  /** A higher id got to the client first: in the backlog, or earlier on the channel. */
  ghost predicate Overtaken(s: State, a: Alert) {
    exists i :: 0 <= i < |s.heard| && s.heard[i] == a && OvertakenAt(s, a, i)
  }

  ghost predicate OvertakenAt(s: State, a: Alert, i: nat)
    requires i < |s.heard|
  {
    (exists r | r in s.rows :: r.id > a.id) || (exists j | 0 <= j < i :: s.heard[j].id > a.id)
  }

  lemma {:induction false} RowsCarry(since: int, s: State, a: Alert)
    requires Inv(since, s) && a in s.committed
    ensures Carries(Rows(s.rows), a.id) <==> a in s.rows
  {
    if a in s.rows {
      var i :| 0 <= i < |s.rows| && s.rows[i] == a;
      assert Rows(s.rows)[i].alertId == a.id;
    }
  }

  /** A message of an alert outside the backlog gets through unless a higher id came first. */
  lemma {:induction false} ArrivesUnlessOvertaken(since: int, s: State, a: Alert, i: nat)
    requires Inv(since, s) && a in s.committed && a.id > since && a !in s.rows
    requires i < |s.heard| && s.heard[i] == a
    ensures ArrivesHighest(since, CaughtUp(s.rows), Raws(s.heard), a.id, i) <==> !OvertakenAt(s, a, i)
  {
    var ids, raws := CaughtUp(s.rows), Raws(s.heard);
    forall r | r in s.rows
      ensures r.id != a.id
    {
    }
    forall j | 0 <= j < i
      ensures s.heard[j].id != a.id
    {
      assert (s.heard + s.mailbox)[j] != (s.heard + s.mailbox)[i];
      assert s.heard[j] in s.heard;
    }
    UnderRows(s.rows, a.id);
    BelowHeard(s.heard, i, a.id);
  }

  lemma {:induction false} UnderRows(rows: seq<Alert>, id: int)
    ensures Under(CaughtUp(rows), id) <==> forall r | r in rows :: r.id < id
  {
    if Under(CaughtUp(rows), id) {
      forall r | r in rows
        ensures r.id < id
      {
        var k :| 0 <= k < |rows| && rows[k] == r;
        assert CaughtUp(rows)[k] == r.id;
      }
    }
  }

  lemma {:induction false} BelowHeard(heard: seq<Alert>, i: nat, id: int)
    requires i < |heard|
    ensures AllBelow(Raws(heard)[..i], id) <==> forall j | 0 <= j < i :: heard[j].id < id
  {
    if AllBelow(Raws(heard)[..i], id) {
      forall j | 0 <= j < i
        ensures heard[j].id < id
      {
        assert Raws(heard)[..i][j].Object?;
      }
    }
  }

  lemma {:induction false} ChannelShows(since: int, s: State, a: Alert)
    requires Inv(since, s) && a in s.committed && a.id > since && a !in s.rows
    ensures Carries(Passing(since, CaughtUp(s.rows), Raws(s.heard)), a.id) <==> a in s.heard && !Overtaken(s, a)
  {
    ForwardedIffArrivesHighest(since, CaughtUp(s.rows), Raws(s.heard), a.id);
    forall i | 0 <= i < |s.heard|
      ensures ArrivesHighest(since, CaughtUp(s.rows), Raws(s.heard), a.id, i)
              <==> s.heard[i] == a && !OvertakenAt(s, a, i)
    {
      if s.heard[i] == a {
        ArrivesUnlessOvertaken(since, s, a, i);
      } else {
        assert s.heard[i] in s.heard;
      }
    }
    HeardOnce(s, a);
  }

  lemma {:induction false} HeardOnce(s: State, a: Alert)
    requires Accounted(s)
    ensures (exists i :: 0 <= i < |s.heard| && s.heard[i] == a && !OvertakenAt(s, a, i))
            <==> a in s.heard && !Overtaken(s, a)
  {
    forall i, j | 0 <= i < j < |s.heard|
      ensures s.heard[i] != s.heard[j]
    {
      assert (s.heard + s.mailbox)[i] == s.heard[i] && (s.heard + s.mailbox)[j] == s.heard[j];
    }
  }

  /** At any moment a connection has shown an alert if the query did or a message of it was heard in time. */
  lemma {:induction false} SeenExactly(since: int, s: State, a: Alert)
    requires Inv(since, s) && a in s.committed && a.id > since
    ensures Seen(since, s, a) <==> InBacklog(since, s, a) || (a in s.heard && !Overtaken(s, a))
  {
    BacklogExactly(since, s, a);
    RowsCarry(since, s, a);
    CarriesConcat(Rows(s.rows), Passing(since, CaughtUp(s.rows), Raws(s.heard)), a.id);
    if a !in s.rows {
      ChannelShows(since, s, a);
    }
  }

  // --------------------------------------------------- the channel in terms of the events

  /** The alerts of the publishes that took effect after the subscription, in the order of those events. */
  function Arrivals(events: seq<Event>): seq<Alert> {
    if events == [] then []
    else
      var before, last := events[..|events| - 1], events[|events| - 1];
      if last.Publish? && last.ok && Event.Subscribe in before then Arrivals(before) + [last.alert]
      else Arrivals(before)
  }

  /** An event that put the alert on the channel. */
  predicate Arrives(events: seq<Event>, i: nat, a: Alert)
    requires i < |events|
  {
    events[i] == Publish(a, true) && Event.Subscribe in events[..i]
  }

  lemma {:induction false} ChannelOneMore(s: State, e: Event, since: int)
    requires Enabled(since, s, e)
    ensures var t := Apply(s, e);
            t.heard + t.mailbox == s.heard + s.mailbox
                                   + if e.Publish? && e.ok && s.phase == Subscribed then [e.alert] else []
    ensures Apply(s, e).phase == Subscribed <==> s.phase == Subscribed || e == Event.Subscribe
  {
    match e
    case Publish(a, ok) => assert s.heard + (s.mailbox + [a]) == s.heard + s.mailbox + [a];
    case Hear => assert s.mailbox == [s.mailbox[0]] + s.mailbox[1..];
    case _ =>
  }

  /**
    Over every run what the connection has heard, followed by what waits, is exactly what was published since it
    subscribed, in that order: the channel drops, doubles and reorders nothing.
    */
  lemma {:induction false} ChannelInOrder(since: int, events: seq<Event>)
    requires Legal(since, events)
    ensures After(events).heard + After(events).mailbox == Arrivals(events)
    ensures After(events).phase == Subscribed <==> Event.Subscribe in events
    decreases |events|
  {
    if events != [] {
      var before, e := events[..|events| - 1], events[|events| - 1];
      assert events == before + [e];
      ChannelInOrder(since, before);
      ChannelOneMore(After(before), e, since);
    }
  }

  /** Strictly ascending positions of the events that put an alert on the channel. */
  ghost predicate ArrivalsAt(events: seq<Event>, at: seq<nat>) {
    && |at| == |Arrivals(events)|
    && (forall k | 0 <= k < |at| :: at[k] < |events| && Arrives(events, at[k], Arrivals(events)[k]))
    && (forall j, k | 0 <= j < k < |at| :: at[j] < at[k])
    && (forall i: nat, a | i < |events| && Arrives(events, i, a) :: i in at)
  }

  lemma {:induction false} ArrivesBefore(before: seq<Event>, e: Event, i: nat, a: Alert)
    requires i < |before|
    ensures Arrives(before + [e], i, a) <==> Arrives(before, i, a)
  {
    assert (before + [e])[..i] == before[..i];
  }

  lemma {:induction false} ArrivalsOneMore(before: seq<Event>, e: Event, earlier: seq<nat>, at: seq<nat>)
    requires ArrivalsAt(before, earlier)
    requires at == if e.Publish? && e.ok && Event.Subscribe in before then earlier + [|before|] else earlier
    ensures ArrivalsAt(before + [e], at)
  {
    var events := before + [e];
    assert events[..|before|] == before && events[|before|] == e;
    forall i: nat, a | i < |before|
      ensures Arrives(events, i, a) <==> Arrives(before, i, a)
    {
      ArrivesBefore(before, e, i, a);
    }
    forall i: nat, a | i < |events| && Arrives(events, i, a)
      ensures i in at
    {
      if i < |before| {
        assert i in earlier;
      } else {
        assert at[|earlier|] == i;
      }
    }
  }

  lemma {:induction false} LocateArrivals(events: seq<Event>) returns (at: seq<nat>)
    ensures ArrivalsAt(events, at)
    decreases |events|
  {
    at := [];
    if events != [] {
      var before, e := events[..|events| - 1], events[|events| - 1];
      assert events == before + [e];
      var earlier := LocateArrivals(before);
      at := if e.Publish? && e.ok && Event.Subscribe in before then earlier + [|before|] else earlier;
      ArrivalsOneMore(before, e, earlier, at);
    }
  }

  /** A higher id was put on the channel by an earlier event. */
  ghost predicate HigherFirst(events: seq<Event>, a: Alert) {
    exists i, j, b | 0 <= i < j < |events| :: Arrives(events, i, b) && Arrives(events, j, a) && b.id > a.id
  }

  ghost predicate HigherInBacklog(s: State, a: Alert) {
    exists r | r in s.rows :: r.id > a.id
  }

  lemma {:induction false} OvertakenFirst(since: int, events: seq<Event>, a: Alert)
    requires Legal(since, events) && Overtaken(After(events), a)
    ensures HigherInBacklog(After(events), a) || HigherFirst(events, a)
  {
    var s := After(events);
    ChannelInOrder(since, events);
    var at := LocateArrivals(events);
    var i :| 0 <= i < |s.heard| && s.heard[i] == a && OvertakenAt(s, a, i);
    if !HigherInBacklog(s, a) {
      var j :| 0 <= j < i && s.heard[j].id > a.id;
      assert Arrivals(events)[i] == a && Arrivals(events)[j] == s.heard[j];
      assert Arrives(events, at[j], s.heard[j]) && Arrives(events, at[i], a) && at[j] < at[i];
    }
  }

  lemma {:induction false} FirstOvertakes(since: int, events: seq<Event>, a: Alert)
    requires Legal(since, events) && a in After(events).heard
    requires HigherInBacklog(After(events), a) || HigherFirst(events, a)
    ensures Overtaken(After(events), a)
  {
    var s := After(events);
    if HigherInBacklog(s, a) {
      var m :| 0 <= m < |s.heard| && s.heard[m] == a;
      assert OvertakenAt(s, a, m);
    } else {
      ChannelInOrder(since, events);
      RunKeepsInv(since, events);
      var at := LocateArrivals(events);
      var i, j, b :| 0 <= i < j < |events| && Arrives(events, i, b) && Arrives(events, j, a) && b.id > a.id;
      var k, m := ArrivalOrder(events, at, i, b, j, a);
      HeardAt(s, a, m);
      assert s.heard[k] == b;
      assert OvertakenAt(s, a, m);
    }
  }

  lemma {:induction false} ArrivalOrder(events: seq<Event>, at: seq<nat>, i: nat, b: Alert, j: nat, a: Alert)
    returns (k: nat, m: nat)
    requires ArrivalsAt(events, at) && i < j < |events| && Arrives(events, i, b) && Arrives(events, j, a)
    ensures k < m < |Arrivals(events)| && Arrivals(events)[k] == b && Arrivals(events)[m] == a
  {
    k :| 0 <= k < |at| && at[k] == i;
    m :| 0 <= m < |at| && at[m] == j;
  }

  lemma {:induction false} HeardAt(s: State, a: Alert, m: nat)
    requires Accounted(s) && a in s.heard && m < |s.heard + s.mailbox| && (s.heard + s.mailbox)[m] == a
    ensures m < |s.heard| && s.heard[m] == a
  {
    var n :| 0 <= n < |s.heard| && s.heard[n] == a;
    assert (s.heard + s.mailbox)[n] == a;
  }

  /** An alert heard was overtaken if and only if the backlog or an earlier publish had a higher id. */
  lemma {:induction false} OvertakenExactly(since: int, events: seq<Event>, a: Alert)
    requires Legal(since, events) && a in After(events).heard
    ensures Overtaken(After(events), a) <==> HigherInBacklog(After(events), a) || HigherFirst(events, a)
  {
    if Overtaken(After(events), a) {
      OvertakenFirst(since, events, a);
    } else if HigherInBacklog(After(events), a) || HigherFirst(events, a) {
      FirstOvertakes(since, events, a);
    }
  }

  /**
    Exactly what a connection misses, over every interleaving: once it has subscribed and heard everything
    on the channel, a committed alert above its start has not been shown if and only if the catch-up query
    did not show it - it failed, ran before the commit, or was full - and neither did the channel: no publish of
    it took effect after the subscription, or the backlog or an earlier publish had a higher id.
    */
  lemma {:induction false} MissedExactly(since: int, events: seq<Event>, a: Alert)
    requires since >= 0 && Legal(since, events)
    requires After(events).phase == Subscribed && After(events).mailbox == []
    requires a in After(events).committed && a.id > since
    ensures var s := After(events);
            !Seen(since, s, a)
            <==> !InBacklog(since, s, a)
                 && (a !in Arrivals(events) || HigherInBacklog(s, a) || HigherFirst(events, a))
  {
    RunKeepsInv(since, events);
    SeenExactly(since, After(events), a);
    ChannelInOrder(since, events);
    assert After(events).heard + [] == After(events).heard;
    if a in After(events).heard {
      OvertakenExactly(since, events, a);
    }
  }

  /** What is committed is what was committed by some event; the query saw what was committed when it ran. */
  lemma {:induction false} CommittedByEvents(events: seq<Event>, a: Alert)
    ensures a in After(events).committed <==> Commit(a) in events
    decreases |events|
  {
    if events != [] {
      var before, e := events[..|events| - 1], events[|events| - 1];
      assert events == before + [e];
      CommittedByEvents(before, a);
    }
  }

  lemma {:induction false} QueriedByEvents(since: int, events: seq<Event>) returns (q: nat)
    requires Legal(since, events) && After(events).queried.Some?
    ensures q < |events| && events[q] == Query(After(events).rows)
    ensures After(events).queried.value == After(events[..q]).committed
    decreases |events|
  {
    var before, e := events[..|events| - 1], events[|events| - 1];
    if e.Query? {
      q := |before|;
    } else {
      q := QueriedByEvents(since, before);
      assert before[..q] == events[..q];
    }
  }

  /** Commits come in the order of ids. */
  ghost predicate CommitsInOrder(events: seq<Event>) {
    forall i, j | 0 <= i < j < |events| && events[i].Commit? && events[j].Commit? ::
      events[i].alert.id < events[j].alert.id
  }

  /** What put alerts on the channel came in the order of ids. */
  ghost predicate ArrivalsInOrder(events: seq<Event>) {
    forall i, j, a, b | 0 <= i < j < |events| && Arrives(events, i, b) && Arrives(events, j, a) :: b.id <= a.id
  }

  lemma {:induction false} LaterCommitIsHigher(since: int, events: seq<Event>, a: Alert, r: Alert)
    requires Legal(since, events) && CommitsInOrder(events) && After(events).queried.Some?
    requires r in After(events).queried.value && a in After(events).committed && a !in After(events).queried.value
    ensures r.id < a.id
  {
    var q := QueriedByEvents(since, events);
    CommittedByEvents(events[..q], r);
    CommittedByEvents(events[..q], a);
    CommittedByEvents(events, a);
    var i :| 0 <= i < q && events[..q][i] == Commit(r);
    var j :| 0 <= j < |events| && events[j] == Commit(a);
    assert j < q ==> events[..q][j] == Commit(a);
  }

  /** What was committed when the query ran is in the backlog if that reaches as far. */
  lemma {:induction false} ReachedIsInBacklog(since: int, s: State, a: Alert, r: Alert)
    requires Inv(since, s) && a.id > since && s.queried.Some? && a in s.queried.value && r in s.rows && r.id >= a.id
    ensures a in s.rows
  {
    var selection := Matching(s.queried.value, Some(since), None, None);
    assert a in selection && !Precedes(OldestFirst, r, a);
  }

  /**
    When alerts are published in the order of their ids, and also committed in that order unless the backlog is
    empty, nothing overtakes: a connection that has heard everything on the channel has shown every alert above its
    start that was published after it subscribed.
    */
  lemma {:induction false} OrderedPublishesAreShown(since: int, events: seq<Event>, a: Alert)
    requires since >= 0 && Legal(since, events) && ArrivalsInOrder(events)
    requires CommitsInOrder(events) || After(events).rows == []
    requires After(events).phase == Subscribed && After(events).mailbox == []
    requires a in Arrivals(events) && a.id > since
    ensures Seen(since, After(events), a)
  {
    var s := After(events);
    RunKeepsInv(since, events);
    ChannelInOrder(since, events);
    assert s.heard + [] == s.heard && a in s.attempted;
    MissedExactly(since, events, a);
    if r :| r in s.rows && r.id > a.id {
      if a in s.queried.value {
        ReachedIsInBacklog(since, s, a, r);
        BacklogExactly(since, s, a);
      } else {
        LaterCommitIsHigher(since, events, a, r);
      }
    }
  }

  /**
    An overtaken alert lies behind the id that the client reconnects with, so the catch-up query of the next
    connection, which asks for ids above it, leaves the alert out again.
    */
  lemma {:induction false} OvertakenStaysLost(since: int, s: State, a: Alert, rows: set<Alert>)
    requires Overtaken(s, a)
    ensures var cursor := Highest(since, CaughtUp(s.rows) + Heard(Raws(s.heard)));
            a.id < cursor && a !in Matching(rows, Some(cursor), None, None)
  {
    var ids := CaughtUp(s.rows) + Heard(Raws(s.heard));
    HighestIsMaximum(since, ids);
    var i :| 0 <= i < |s.heard| && s.heard[i] == a && OvertakenAt(s, a, i);
    if r :| r in s.rows && r.id > a.id {
      var k :| 0 <= k < |s.rows| && s.rows[k] == r;
      assert ids[k] == r.id;
    } else {
      var j :| 0 <= j < i && s.heard[j].id > a.id;
      HeardIds(s.heard);
      assert ids[|s.rows| + j] == s.heard[j].id;
    }
  }

  lemma {:induction false} HeardIds(alerts: seq<Alert>)
    ensures |Heard(Raws(alerts))| == |alerts|
    ensures forall i | 0 <= i < |alerts| :: Heard(Raws(alerts))[i] == alerts[i].id
    decreases |alerts|
  {
    if alerts != [] {
      var before := alerts[..|alerts| - 1];
      HeardIds(before);
      assert Raws(alerts)[..|alerts| - 1] == Raws(before);
    }
  }

  lemma {:induction false} OneMoreEvent(since: int, before: seq<Event>, e: Event) returns (events: seq<Event>)
    requires Legal(since, before) && Enabled(since, After(before), e)
    ensures Legal(since, events) && After(events) == Apply(After(before), e)
  {
    events := before + [e];
    assert events[..|events| - 1] == before;
  }

  lemma {:induction false} HigherIdFirst(since: int, a: Alert, b: Alert) returns (events: seq<Event>)
    requires 0 <= since < a.id < b.id
    ensures Legal(since, events)
    ensures After(events) == State({b} + {a}, {b} + {a}, Subscribed, [], [], [b] + [a], None, {}, {})
  {
    events := OneMoreEvent(since, [], QueryFails);
    events := OneMoreEvent(since, events, Subscribe);
    events := OneMoreEvent(since, events, Commit(b));
    events := OneMoreEvent(since, events, Publish(b, true));
    events := OneMoreEvent(since, events, Hear);
    assert After(events) == State({b}, {b}, Subscribed, [], [], [b], None, {}, {});
    events := OneMoreEvent(since, events, Commit(a));
    events := OneMoreEvent(since, events, Publish(a, true));
    events := OneMoreEvent(since, events, Hear);
  }

  /**
    It happens: of any two alerts the one with the lower id can be committed and published last, and then the
    connection does not show it, though it was up, subscribed and heard everything, and neither does the next.
    */
  lemma {:induction false} OvertakingLosesAlert(since: int, a: Alert, b: Alert, rows: set<Alert>)
    returns (events: seq<Event>)
    requires 0 <= since < a.id < b.id
    ensures Legal(since, events)
    ensures var s := After(events);
            && s.phase == Subscribed && s.mailbox == [] && a in s.committed && a in s.heard && Overtaken(s, a)
            && !Seen(since, s, a)
            && a !in Matching(rows, Some(Highest(since, CaughtUp(s.rows) + Heard(Raws(s.heard)))), None, None)
  {
    events := HigherIdFirst(since, a, b);
    var s := After(events);
    assert s.heard[1] == a && s.heard[0] == b;
    assert OvertakenAt(s, a, 1);
    RunKeepsInv(since, events);
    SeenExactly(since, s, a);
    OvertakenStaysLost(since, s, a, rows);
  }
}
