/**
  A client over any number of connections, interleaved with commits and publishes: it may drop a connection at
  any moment, having received any part of what was written, and comes back with the id of the last frame it got.
  */
module AlertReconnects {
  import opened Options
  import opened AlertStore
  import opened AlertStream
  import opened AlertDelivery

  /** One connection: the id it was opened with, how it stands or stood, and how many data frames the client got. */
  datatype Session = Session(since: int, state: State, received: nat)

  /** The connections of a client, the last one open. */
  datatype Client = Client(past: seq<Session>, since: int, now: State)

  datatype Step = Happens(event: Event) | Drops(received: nat)

  function Got(s: Session): (ds: seq<Frame>)
    ensures AllData(ds)
  {
    var written := Shown(s.since, s.state);
    if s.received <= |written| then written[..s.received] else written
  }

  /** The id that the client comes back with. */
  function End(s: Session): int {
    LastFrameId(s.since, Got(s))
  }

  /** A new connection knows nothing of the one before; what was published by now came before it subscribes. */
  function Reopened(s: State): State {
    s.(phase := Connecting, rows := [], mailbox := [], heard := [], queried := None, early := s.attempted - s.failed)
  }

  ghost predicate Enabled(c: Client, step: Step) {
    match step
    case Happens(e) => AlertDelivery.Enabled(c.since, c.now, e)
    case Drops(n) => n <= |Shown(c.since, c.now)|
  }

  function Apply(c: Client, step: Step): Client {
    match step
    case Happens(e) => c.(now := AlertDelivery.Apply(c.now, e))
    case Drops(n) =>
      var ended := Session(c.since, c.now, n);
      Client(c.past + [ended], End(ended), Reopened(c.now))
  }

  function After(start: int, steps: seq<Step>): Client {
    if steps == [] then Client([], start, START)
    else Apply(After(start, steps[..|steps| - 1]), steps[|steps| - 1])
  }

  /** Every step could happen when it did. */
  ghost predicate Legal(start: int, steps: seq<Step>) {
    steps == []
    || (Legal(start, steps[..|steps| - 1]) && Enabled(After(start, steps[..|steps| - 1]), steps[|steps| - 1]))
  }

  /** The ended connections, and the open one as if the client had all that has been written. */
  function Sessions(c: Client): (ss: seq<Session>)
    ensures |ss| == |c.past| + 1
  {
    c.past + [Session(c.since, c.now, |Shown(c.since, c.now)|)]
  }

  function Joined(parts: seq<seq<Frame>>): seq<Frame> {
    if parts == [] then [] else Joined(parts[..|parts| - 1]) + parts[|parts| - 1]
  }

  /** Everything the client ever got. */
  function Received(ss: seq<Session>): seq<Frame> {
    Joined(seq(|ss|, k requires 0 <= k < |ss| => Got(ss[k])))
  }

  // -------------------------------------------------------------------- invariant

  ghost predicate SessionOk(s: Session, committed: set<Alert>) {
    && s.since >= 0 && Inv(s.since, s.state) && s.state.committed <= committed
    && s.received <= |Shown(s.since, s.state)|
  }

  /** Each connection is opened with the id the one before ended with. */
  ghost predicate Chained(start: int, ss: seq<Session>) {
    && ss != [] && ss[0].since == start
    && forall k | 0 < k < |ss| :: ss[k].since == End(ss[k - 1])
  }

  ghost predicate AllOk(ss: seq<Session>, committed: set<Alert>) {
    forall k | 0 <= k < |ss| :: SessionOk(ss[k], committed)
  }

  ghost predicate ClientInv(start: int, c: Client) {
    && AllOk(Sessions(c), c.now.committed)
    && Chained(start, Sessions(c))
  }

  lemma {:induction false} ReopenedKeepsInv(since: int, since': int, s: State)
    requires Inv(since, s)
    ensures Inv(since', Reopened(s))
  {
    var t := Reopened(s);
    assert t.heard + t.mailbox == [];
  }

  lemma {:induction false} NothingShownYet(since: int, s: State)
    ensures Shown(since, Reopened(s)) == []
  {
  }

  lemma {:induction false} EndIsNotBefore(s: Session, committed: set<Alert>)
    requires SessionOk(s, committed)
    ensures End(s) >= s.since
  {
    NothingOutOfOrder(s.since, s.state);
  }

  lemma {:induction false} GrowingKeepsOk(ss: seq<Session>, committed: set<Alert>, more: set<Alert>)
    requires AllOk(ss, committed) && committed <= more
    ensures AllOk(ss, more)
  {
  }

  lemma {:induction false} OkOneMore(ss: seq<Session>, s: Session, committed: set<Alert>)
    requires AllOk(ss, committed) && SessionOk(s, committed)
    ensures AllOk(ss + [s], committed)
  {
  }

  lemma {:induction false} ChainLast(start: int, past: seq<Session>, s: Session, t: Session)
    requires Chained(start, past + [s]) && t.since == s.since
    ensures Chained(start, past + [t])
  {
    forall k | 0 < k < |past + [t]|
      ensures (past + [t])[k].since == End((past + [t])[k - 1])
    {
      assert (past + [s])[k].since == End((past + [s])[k - 1]);
    }
    assert (past + [t])[0].since == (past + [s])[0].since;
  }

  lemma {:induction false} ChainOneMore(start: int, ss: seq<Session>, s: Session)
    requires Chained(start, ss) && s.since == End(ss[|ss| - 1])
    ensures Chained(start, ss + [s])
  {
    forall k | 0 < k < |ss + [s]|
      ensures (ss + [s])[k].since == End((ss + [s])[k - 1])
    {
      if k < |ss| {
        assert ss[k].since == End(ss[k - 1]);
      }
    }
  }

  lemma {:induction false} PastIsOk(start: int, c: Client)
    requires ClientInv(start, c)
    ensures AllOk(c.past, c.now.committed)
    ensures SessionOk(Session(c.since, c.now, |Shown(c.since, c.now)|), c.now.committed)
  {
    var ss := Sessions(c);
    forall k | 0 <= k < |c.past|
      ensures SessionOk(c.past[k], c.now.committed)
    {
      assert ss[k] == c.past[k];
    }
    assert ss[|c.past|] == Session(c.since, c.now, |Shown(c.since, c.now)|);
  }

  lemma {:induction false} EventKeepsInv(start: int, c: Client, e: Event)
    requires ClientInv(start, c) && AlertDelivery.Enabled(c.since, c.now, e)
    ensures ClientInv(start, Apply(c, Happens(e)))
  {
    var now := AlertDelivery.Apply(c.now, e);
    PastIsOk(start, c);
    StepKeepsInv(c.since, c.now, e);
    GrowingKeepsOk(c.past, c.now.committed, now.committed);
    OkOneMore(c.past, Session(c.since, now, |Shown(c.since, now)|), now.committed);
    ChainLast(start, c.past, Session(c.since, c.now, |Shown(c.since, c.now)|),
              Session(c.since, now, |Shown(c.since, now)|));
  }

  lemma {:induction false} DropKeepsInv(start: int, c: Client, n: nat)
    requires ClientInv(start, c) && n <= |Shown(c.since, c.now)|
    ensures ClientInv(start, Apply(c, Drops(n)))
  {
    var ended := Session(c.since, c.now, n);
    var reopened := Session(End(ended), Reopened(c.now), 0);
    PastIsOk(start, c);
    OkOneMore(c.past, ended, c.now.committed);
    EndIsNotBefore(ended, c.now.committed);
    ReopenedKeepsInv(c.since, End(ended), c.now);
    NothingShownYet(End(ended), c.now);
    OkOneMore(c.past + [ended], reopened, c.now.committed);
    ChainLast(start, c.past, Session(c.since, c.now, |Shown(c.since, c.now)|), ended);
    ChainOneMore(start, c.past + [ended], reopened);
  }

  lemma {:induction false} RunKeepsInv(start: int, steps: seq<Step>)
    requires start >= 0 && Legal(start, steps)
    ensures ClientInv(start, After(start, steps))
    decreases |steps|
  {
    if steps == [] {
      StartInv(start);
    } else {
      var before, step := steps[..|steps| - 1], steps[|steps| - 1];
      RunKeepsInv(start, before);
      match step
      case Happens(e) => EventKeepsInv(start, After(start, before), e);
      case Drops(n) => DropKeepsInv(start, After(start, before), n);
    }
  }

  lemma {:induction false} StartInv(start: int)
    requires start >= 0
    ensures ClientInv(start, Client([], start, START))
  {
    assert START.heard + START.mailbox == [];
    assert Inv(start, START);
  }

  // ---------------------------------------------------------- what one connection gave

  /** Every frame is of an alert: none is without an id. */
  ghost predicate Numbered(ds: seq<Frame>) {
    forall i | 0 <= i < |ds| :: ds[i].Data? && ds[i].alertId != 0
  }

  lemma {:induction false} PassingIsNumbered(start: int, before: seq<int>, raws: seq<Raw>)
    requires forall i | 0 <= i < |raws| :: raws[i].Object? && AlertId(raws[i].id) != 0
    ensures Numbered(Passing(start, before, raws))
    decreases |raws|
  {
    if raws != [] {
      PassingIsNumbered(start, before, raws[..|raws| - 1]);
    }
  }

  lemma {:induction false} HeardAreCommitted(since: int, s: State)
    requires Inv(since, s)
    ensures forall i | 0 <= i < |s.heard| :: s.heard[i] in s.committed && s.heard[i].id > 0
    ensures forall i | 0 <= i < |s.rows| :: s.rows[i] in s.committed && s.rows[i].id > 0
  {
    forall i | 0 <= i < |s.heard|
      ensures s.heard[i] in s.committed
    {
      assert s.heard[i] in s.heard;
    }
  }

  lemma {:induction false} ShownIsNumbered(since: int, s: State)
    requires Inv(since, s)
    ensures Numbered(Shown(since, s))
  {
    HeardAreCommitted(since, s);
    PassingIsNumbered(since, CaughtUp(s.rows), Raws(s.heard));
  }

  /** The connection moved the client past the alert. */
  predicate Passes(s: Session, a: Alert) {
    s.since < a.id <= End(s)
  }

  /** Of what was written, the client got exactly what lies between the two ids. */
  lemma {:induction false} GotWhatItPassed(s: Session, committed: set<Alert>, a: Alert)
    requires SessionOk(s, committed) && a.id > 0
    ensures Carries(Got(s), a.id) <==> Passes(s, a) && Carries(Shown(s.since, s.state), a.id)
  {
    NothingOutOfOrder(s.since, s.state);
    ShownIsNumbered(s.since, s.state);
    PrefixCarries(s.since, Shown(s.since, s.state),
                  Highest(s.since, CaughtUp(s.state.rows) + Heard(Raws(s.state.heard))), s.received, a.id);
  }

  lemma {:induction false} PrefixCarries(start: int, ds: seq<Frame>, end: int, n: nat, id: int)
    requires Ordered(start, ds, end) && Numbered(ds) && n <= |ds| && id > 0
    ensures AllData(ds[..n])
    ensures Carries(ds[..n], id) <==> start < id <= LastFrameId(start, ds[..n]) && Carries(ds, id)
  {
    var got := ds[..n];
    if Carries(got, id) {
      var k :| 0 <= k < |got| && got[k].Data? && got[k].alertId == id;
      assert ds[k].alertId == id && ds[k].frameId <= ds[n - 1].frameId;
    }
    if start < id <= LastFrameId(start, got) && Carries(ds, id) {
      var k :| 0 <= k < |ds| && ds[k].Data? && ds[k].alertId == id;
      assert k < n;
      assert got[k].alertId == id;
    }
  }

  /** What the invariant says of a connection stays true when more is committed. */
  lemma {:induction false} LaterCommits(since: int, s: State, all: set<Alert>)
    requires Inv(since, s) && s.committed <= all && UniqueIds(all) && forall a | a in all :: a.id > 0
    ensures Inv(since, s.(committed := all)) && Shown(since, s.(committed := all)) == Shown(since, s)
  {
  }

  // --------------------------------------------------------- at the moment of passing

  /** The backlog went up to the alert or beyond. */
  ghost predicate BacklogReaches(s: State, a: Alert) {
    exists r | r in s.rows :: r.id >= a.id
  }

  /** The alert is the first message heard that has its id or a higher one. */
  ghost predicate HeardFirst(s: State, a: Alert) {
    exists i :: 0 <= i < |s.heard| && s.heard[i] == a && forall j | 0 <= j < i :: s.heard[j].id < a.id
  }

  /**
    When the client was moved past the alert, the alert was there: either the catch-up query did it and the alert
    was committed when the query ran, or a message did it and it was the alert's own.
    */
  ghost predicate CaughtInPassing(s: State, a: Alert) {
    if BacklogReaches(s, a) then s.queried.Some? && a in s.queried.value else HeardFirst(s, a)
  }

  lemma {:induction false} BacklogCatches(since: int, s: State, a: Alert)
    requires Inv(since, s) && a in s.committed && a.id > since && BacklogReaches(s, a)
    ensures InBacklog(since, s, a) || (a in s.heard && !Overtaken(s, a)) <==> s.queried.Some? && a in s.queried.value
  {
    BacklogExactly(since, s, a);
    var r :| r in s.rows && r.id >= a.id;
    if s.queried.Some? && a in s.queried.value {
      ReachedIsInBacklog(since, s, a, r);
    } else {
      HeardAreCommitted(since, s);
      assert r.id > a.id;
      OvertakenByRow(s, a, r);
    }
  }

  lemma {:induction false} OvertakenByRow(s: State, a: Alert, r: Alert)
    requires r in s.rows && r.id > a.id
    ensures a in s.heard ==> Overtaken(s, a)
  {
    if a in s.heard {
      var i :| 0 <= i < |s.heard| && s.heard[i] == a;
      assert OvertakenAt(s, a, i);
    }
  }

  lemma {:induction false} ChannelCatches(since: int, s: State, a: Alert)
    requires Inv(since, s) && a in s.committed && a.id > since && !BacklogReaches(s, a)
    ensures InBacklog(since, s, a) || (a in s.heard && !Overtaken(s, a)) <==> HeardFirst(s, a)
  {
    BacklogExactly(since, s, a);
    assert a !in s.rows;
    HeardAreCommitted(since, s);
    forall i | 0 <= i < |s.heard| && s.heard[i] == a
      ensures OvertakenAt(s, a, i) <==> !(forall j | 0 <= j < i :: s.heard[j].id < a.id)
    {
      NotItself(s, a, i);
    }
    HeardOnce(s, a);
  }

  lemma {:induction false} NotItself(s: State, a: Alert, i: nat)
    requires Accounted(s) && UniqueIds(s.committed) && a in s.committed && i < |s.heard| && s.heard[i] == a
    requires forall k | 0 <= k < |s.heard| :: s.heard[k] in s.committed
    ensures forall j | 0 <= j < i :: s.heard[j].id != a.id
  {
    forall j | 0 <= j < i
      ensures s.heard[j].id != a.id
    {
      assert (s.heard + s.mailbox)[j] != (s.heard + s.mailbox)[i];
    }
  }

  lemma {:induction false} CaughtExactly(since: int, s: State, a: Alert)
    requires Inv(since, s) && a in s.committed && a.id > since
    ensures InBacklog(since, s, a) || (a in s.heard && !Overtaken(s, a)) <==> CaughtInPassing(s, a)
  {
    if BacklogReaches(s, a) {
      BacklogCatches(since, s, a);
    } else {
      ChannelCatches(since, s, a);
    }
  }

  lemma {:induction false} LaterCaught(s: State, all: set<Alert>, a: Alert)
    ensures CaughtInPassing(s.(committed := all), a) <==> CaughtInPassing(s, a)
  {
  }

  lemma {:induction false} WrittenExactly(since: int, s: State, a: Alert)
    requires Inv(since, s) && a in s.committed && a.id > since
    ensures Carries(Shown(since, s), a.id) <==> CaughtInPassing(s, a)
  {
    SeenExactly(since, s, a);
    CaughtExactly(since, s, a);
  }

  /** The client got the alert from a connection if that moved it past the alert and caught it in passing. */
  lemma {:induction false} GotExactly(s: Session, all: set<Alert>, a: Alert)
    requires SessionOk(s, all) && UniqueIds(all) && (forall b | b in all :: b.id > 0) && a in all
    ensures Carries(Got(s), a.id) <==> Passes(s, a) && CaughtInPassing(s.state, a)
  {
    GotWhatItPassed(s, all, a);
    if Passes(s, a) {
      LaterCommits(s.since, s.state, all);
      WrittenExactly(s.since, s.state.(committed := all), a);
      LaterCaught(s.state, all, a);
    }
  }

  // ------------------------------------------------------------- over all connections

  lemma {:induction false} JoinedCarries(parts: seq<seq<Frame>>, id: int)
    ensures Carries(Joined(parts), id) <==> exists k :: 0 <= k < |parts| && Carries(parts[k], id)
    decreases |parts|
  {
    if parts != [] {
      var n := |parts| - 1;
      JoinedCarries(parts[..n], id);
      CarriesConcat(Joined(parts[..n]), parts[n], id);
      if k :| 0 <= k < n && Carries(parts[..n][k], id) {
        assert Carries(parts[k], id);
      }
      if k :| 0 <= k < |parts| && Carries(parts[k], id) {
        assert k < n ==> parts[..n][k] == parts[k];
      }
    }
  }

  lemma {:induction false} ReceivedCarries(ss: seq<Session>, id: int)
    ensures Carries(Received(ss), id) <==> exists k :: 0 <= k < |ss| && Carries(Got(ss[k]), id)
  {
    var parts := seq(|ss|, k requires 0 <= k < |ss| => Got(ss[k]));
    JoinedCarries(parts, id);
    if k :| 0 <= k < |ss| && Carries(Got(ss[k]), id) {
      assert parts[k] == Got(ss[k]);
    }
  }

  /**
    Over any number of connections, dropped at any moment with any frames lost on the way, and any interleaving of
    commits and publishes: a client has received a committed alert if and only if some connection moved it past the
    alert and caught the alert in passing.
    */
  lemma {:induction false} ReceivedExactly(start: int, steps: seq<Step>, a: Alert)
    requires start >= 0 && Legal(start, steps) && a in After(start, steps).now.committed
    ensures var ss := Sessions(After(start, steps));
            Carries(Received(ss), a.id)
            <==> exists k :: 0 <= k < |ss| && Passes(ss[k], a) && CaughtInPassing(ss[k].state, a)
  {
    var c := After(start, steps);
    var ss := Sessions(c);
    RunKeepsInv(start, steps);
    PastIsOk(start, c);
    forall k | 0 <= k < |ss|
      ensures Carries(Got(ss[k]), a.id) <==> Passes(ss[k], a) && CaughtInPassing(ss[k].state, a)
    {
      assert SessionOk(ss[k], c.now.committed);
      GotExactly(ss[k], c.now.committed, a);
    }
    ReceivedCarries(ss, a.id);
  }

  lemma {:induction false} LaterSessionsStartLater(start: int, ss: seq<Session>, committed: set<Alert>, j: nat, k: nat)
    requires Chained(start, ss) && AllOk(ss, committed) && j < k < |ss|
    ensures End(ss[j]) <= ss[k].since
    decreases k
  {
    assert ss[k].since == End(ss[k - 1]);
    if j < k - 1 {
      LaterSessionsStartLater(start, ss, committed, j, k - 1);
      assert SessionOk(ss[k - 1], committed);
      EndIsNotBefore(ss[k - 1], committed);
    }
  }

  /** A client passes an alert once. */
  lemma {:induction false} PassedOnce(start: int, ss: seq<Session>, committed: set<Alert>, a: Alert, j: nat, k: nat)
    requires Chained(start, ss) && AllOk(ss, committed)
    requires j < |ss| && k < |ss| && Passes(ss[j], a) && Passes(ss[k], a)
    ensures j == k
  {
    if j < k {
      LaterSessionsStartLater(start, ss, committed, j, k);
    } else if k < j {
      LaterSessionsStartLater(start, ss, committed, k, j);
    }
  }

  /**
    What was not caught in passing is lost: over a whole run, if one of the connections moved the client past an
    alert without catching it, no connection ever gives it the alert, however often it reconnects.
    */
  lemma {:induction false} LostForGood(start: int, steps: seq<Step>, a: Alert, k: nat)
    requires start >= 0 && Legal(start, steps) && a in After(start, steps).now.committed
    requires var ss := Sessions(After(start, steps));
             k < |ss| && Passes(ss[k], a) && !CaughtInPassing(ss[k].state, a)
    ensures !Carries(Received(Sessions(After(start, steps))), a.id)
  {
    var c := After(start, steps);
    var ss := Sessions(c);
    RunKeepsInv(start, steps);
    ReceivedExactly(start, steps, a);
    forall j | 0 <= j < |ss| && Passes(ss[j], a)
      ensures j == k
    {
      PassedOnce(start, ss, c.now.committed, a, j, k);
    }
  }
}
