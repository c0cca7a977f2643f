/** The bounded capture queue, and the drop metric that the capture loop keeps over restarts. */
module Capture {
  import opened Options
  import opened Packets

  /** The queue holds at most this many packets. */
  const CAPACITY := 10000

  /** A warning is logged for every so many drops. */
  const LOG_INTERVAL := 1000

  /** One capture session: what arrived, was published, is being published, waits, and was dropped and reported. */
  datatype Session = Session(
    arrived: seq<PacketEvent>,
    delivered: seq<PacketEvent>,
    inFlight: Option<PacketEvent>,
    queue: seq<PacketEvent>,
    dropped: nat,
    lastMetric: nat,
    lastLogged: nat)

  /** The counters outlive sessions; so does the record of the sessions that ended. */
  datatype State = State(now: Session, past: seq<Session>, capturedTotal: nat, droppedTotal: nat, warnings: seq<nat>)

  const FRESH := Session([], [], None, [], 0, 0, 0)

  const START := State(FRESH, [], 0, 0, [])

  /** The loop takes a packet and observes the drops when its publish is over; packets arrive in between too. */
  datatype Event = Arrive(packet: PacketEvent) | Take | Observe(published: bool)

  /** A full queue drops the packet that arrives. */
  function Arrived(s: Session, p: PacketEvent): Session {
    if |s.queue| < CAPACITY then s.(arrived := s.arrived + [p], queue := s.queue + [p])
    else s.(arrived := s.arrived + [p], dropped := s.dropped + 1)
  }

  /** The first waiting packet is taken to be published. */
  function Taken(s: Session): Session
    requires s.queue != []
  {
    s.(inFlight := Some(s.queue[0]), queue := s.queue[1..])
  }

  function Delivered(s: Session): Session
    requires s.inFlight.Some?
  {
    s.(inFlight := None, delivered := s.delivered + [s.inFlight.value])
  }

  function NewDrops(s: Session): nat {
    if s.dropped > s.lastMetric then s.dropped - s.lastMetric else 0
  }

  /** After a publish the metrics catch up with the drops so far; one that raises ends the session. */
  function Apply(s: State, e: Event): State {
    match e
    case Arrive(p) => s.(now := Arrived(s.now, p))
    case Take => if s.now.queue == [] || s.now.inFlight.Some? then s else s.(now := Taken(s.now))
    case Observe(published) =>
      if s.now.inFlight == None then s
      else if !published then s.(now := FRESH, past := s.past + [s.now])
      else
        var now := Delivered(s.now);
        var warn := now.dropped - now.lastLogged >= LOG_INTERVAL;
        State(now.(lastMetric := now.lastMetric + NewDrops(now),
                   lastLogged := if warn then now.dropped else now.lastLogged),
              s.past, s.capturedTotal + 1, s.droppedTotal + NewDrops(now),
              if warn then s.warnings + [now.dropped] else s.warnings)
  }

  function After(events: seq<Event>): State {
    if events == [] then START else Apply(After(events[..|events| - 1]), events[|events| - 1])
  }

  // ------------------------------------------------------------------ conservation

  /** xs can be had from ys by leaving elements out. */
  predicate Subsequence<T(==)>(xs: seq<T>, ys: seq<T>) {
    if xs == [] then true
    else if ys == [] then false
    else
      || (xs[|xs| - 1] == ys[|ys| - 1] && Subsequence(xs[..|xs| - 1], ys[..|ys| - 1]))
      || Subsequence(xs, ys[..|ys| - 1])
  }

  lemma {:induction false} SubsequenceGrows<T>(xs: seq<T>, ys: seq<T>, y: T)
    requires Subsequence(xs, ys)
    ensures Subsequence(xs, ys + [y]) && Subsequence(xs + [y], ys + [y])
  {
    assert (ys + [y])[..|ys|] == ys && (xs + [y])[..|xs|] == xs;
  }

  function InFlight(s: Session): seq<PacketEvent> {
    if s.inFlight.Some? then [s.inFlight.value] else []
  }

  lemma {:induction false} JoinsLast<T>(a: seq<T>, b: seq<T>, x: T)
    ensures a + (b + [x]) == (a + b) + [x]
  {
  }

  /** What was not dropped, in order. */
  function Whole(s: Session): seq<PacketEvent> {
    s.delivered + InFlight(s) + s.queue
  }

  /** Arrivals were published, are being published, wait or were dropped; nothing is reordered. */
  ghost predicate Conserves(s: Session) {
    && |s.arrived| == |s.delivered| + |InFlight(s)| + |s.queue| + s.dropped
    && |s.queue| <= CAPACITY
    && Subsequence(Whole(s), s.arrived)
  }

  lemma {:induction false} ArrivalGoesLast(s: Session, p: PacketEvent)
    ensures Whole(Arrived(s, p)) == if |s.queue| < CAPACITY then Whole(s) + [p] else Whole(s)
  {
    JoinsLast(s.delivered + InFlight(s), s.queue, p);
  }

  lemma {:induction false} ArrivalConserves(s: Session, p: PacketEvent)
    requires Conserves(s)
    ensures Conserves(Arrived(s, p))
  {
    SubsequenceGrows(Whole(s), s.arrived, p);
    ArrivalGoesLast(s, p);
  }

  lemma {:induction false} TakingConserves(s: Session)
    requires Conserves(s) && s.queue != [] && s.inFlight == None
    ensures Conserves(Taken(s))
  {
    assert s.delivered + [s.queue[0]] + s.queue[1..] == s.delivered + [] + s.queue;
  }

  lemma {:induction false} DeliveringConserves(s: Session)
    requires Conserves(s) && s.inFlight.Some?
    ensures Conserves(Delivered(s))
  {
    assert (s.delivered + [s.inFlight.value]) + [] + s.queue == s.delivered + [s.inFlight.value] + s.queue;
  }

  // ------------------------------------------------------------------- drop metric

  function Observed(sessions: seq<Session>): nat {
    if sessions == [] then 0 else Observed(sessions[..|sessions| - 1]) + sessions[|sessions| - 1].lastMetric
  }

  function Dropped(sessions: seq<Session>): nat {
    if sessions == [] then 0 else Dropped(sessions[..|sessions| - 1]) + sessions[|sessions| - 1].dropped
  }

  function Published(sessions: seq<Session>): nat {
    if sessions == [] then 0 else Published(sessions[..|sessions| - 1]) + |sessions[|sessions| - 1].delivered|
  }

  ghost predicate Inv(s: State) {
    && Conserves(s.now) && (forall i | 0 <= i < |s.past| :: Conserves(s.past[i]))
    && s.now.lastLogged <= s.now.dropped
    && s.now.lastMetric <= s.now.dropped
    && s.droppedTotal == Observed(s.past) + s.now.lastMetric
    && s.capturedTotal == Published(s.past) + |s.now.delivered|
    && Observed(s.past) <= Dropped(s.past)
  }

  lemma {:induction false} SessionEnds(past: seq<Session>, s: Session)
    ensures Observed(past + [s]) == Observed(past) + s.lastMetric
    ensures Dropped(past + [s]) == Dropped(past) + s.dropped
    ensures Published(past + [s]) == Published(past) + |s.delivered|
  {
    assert (past + [s])[..|past|] == past;
  }

  lemma {:induction false} FreshConserves()
    ensures Conserves(FRESH)
  {
    assert FRESH.delivered + InFlight(FRESH) + FRESH.queue == [];
  }

  lemma {:induction false} StepKeepsInv(s: State, e: Event)
    requires Inv(s)
    ensures Inv(Apply(s, e))
  {
    match e
    case Arrive(p) => ArrivalConserves(s.now, p);
    case Take =>
      if s.now.queue != [] && s.now.inFlight == None {
        TakingConserves(s.now);
      }
    case Observe(published) =>
      if s.now.inFlight.Some? {
        DeliveringConserves(s.now);
        SessionEnds(s.past, s.now);
        FreshConserves();
      }
  }

  lemma {:induction false} StartInv()
    ensures Inv(START)
  {
    FreshConserves();
  }

  lemma {:induction false} RunKeepsInv(events: seq<Event>)
    ensures Inv(After(events))
    decreases |events|
  {
    if events == [] {
      StartInv();
    } else {
      RunKeepsInv(events[..|events| - 1]);
      StepKeepsInv(After(events[..|events| - 1]), events[|events| - 1]);
    }
  }

  lemma {:induction false} MetricBehind(events: seq<Event>)
    ensures After(events).now.lastMetric <= After(events).now.dropped
  {
    RunKeepsInv(events);
  }

  /** Over every interleaving: an arrival was published, is in flight, waits or was dropped, and none is reordered. */
  lemma {:induction false} PacketsConserved(events: seq<Event>)
    ensures var s := After(events).now;
            && |s.arrived| == |s.delivered| + |InFlight(s)| + |s.queue| + s.dropped
            && Subsequence(s.delivered + InFlight(s) + s.queue, s.arrived)
            && |s.queue| <= 10000
  {
    RunKeepsInv(events);
  }

  /**
    Over every interleaving and restart the drop counter is the sum of the drops last observed in each
    session, never more than what was dropped, and the capture counter is the number of published packets.
    Whatever was dropped while a packet was being published is in the counter when that publish is over: then
    only the drops that earlier sessions had not yet reported are missing from it.
    */
  lemma {:induction false} DropsReported(events: seq<Event>)
    ensures var s := After(events);
            && s.droppedTotal == Observed(s.past) + s.now.lastMetric <= Dropped(s.past) + s.now.dropped
            && s.capturedTotal == Published(s.past) + |s.now.delivered|
            && (s.now.inFlight.Some? ==>
                  Apply(s, Observe(true)).droppedTotal == Observed(s.past) + s.now.dropped)
  {
    RunKeepsInv(events);
  }

  // --------------------------------------------------------------------- warnings

  /** The drops at the last warning of each session. */
  function Logged(sessions: seq<Session>): nat {
    if sessions == [] then 0 else Logged(sessions[..|sessions| - 1]) + sessions[|sessions| - 1].lastLogged
  }

  ghost predicate WarnsInTime(s: State) {
    && s.now.lastLogged <= s.now.dropped && Logged(s.past) <= Dropped(s.past)
    && 1000 * |s.warnings| <= Logged(s.past) + s.now.lastLogged
    && (s.now.lastLogged == 0 || (s.warnings != [] && s.warnings[|s.warnings| - 1] == s.now.lastLogged))
  }

  lemma {:induction false} LoggedOneMore(past: seq<Session>, s: Session)
    ensures Logged(past + [s]) == Logged(past) + s.lastLogged
  {
    assert (past + [s])[..|past|] == past;
  }

  lemma {:induction false} StepWarnsInTime(s: State, e: Event)
    requires WarnsInTime(s)
    ensures WarnsInTime(Apply(s, e))
  {
    LoggedOneMore(s.past, s.now);
    SessionEnds(s.past, s.now);
  }

  lemma {:induction false} RunWarnsInTime(events: seq<Event>)
    ensures WarnsInTime(After(events))
    decreases |events|
  {
    if events != [] {
      RunWarnsInTime(events[..|events| - 1]);
      StepWarnsInTime(After(events[..|events| - 1]), events[|events| - 1]);
    }
  }

  /**
    Over every interleaving and restart there is at most one warning for a thousand drops; and whenever a publish
    is over, the last warning of the session, if any, is less than a thousand drops old.
    */
  lemma {:induction false} WarningsKeepUp(events: seq<Event>)
    ensures var s := After(events);
            && 1000 * |s.warnings| <= Dropped(s.past) + s.now.dropped
            && (s.now.lastLogged == 0 || (s.warnings != [] && s.warnings[|s.warnings| - 1] == s.now.lastLogged))
            && (s.now.inFlight.Some? ==>
                  var t := Apply(s, Observe(true)); t.now.dropped == s.now.dropped < t.now.lastLogged + 1000)
  {
    RunWarnsInTime(events);
  }

  // ---------------------------------------------------------------------- adapter

  lemma {:induction false} AfterOneMore(events: seq<Event>, e: Event)
    ensures After(events + [e]) == Apply(After(events), e)
  {
    assert (events + [e])[..|events|] == events;
  }

  /** The adapter and the loop that drains it, with the counters they update in place. */
  class LiveCapture {
    var queue: seq<PacketEvent>
    var inFlight: Option<PacketEvent>
    var dropped: nat
    var lastMetricDrops: nat
    var lastLoggedDrops: nat
    var capturedTotal: nat
    var droppedTotal: nat
    var warnings: seq<nat>

    /** What has happened so far. */
    ghost var events: seq<Event>

    ghost predicate Valid()
      reads this
    {
      Mirrors(After(events))
    }

    ghost predicate Mirrors(s: State)
      reads this
    {
      && queue == s.now.queue && inFlight == s.now.inFlight && dropped == s.now.dropped
      && lastMetricDrops == s.now.lastMetric && lastLoggedDrops == s.now.lastLogged
      && capturedTotal == s.capturedTotal && droppedTotal == s.droppedTotal && warnings == s.warnings
    }

    constructor ()
      ensures Valid() && events == []
    {
      queue, inFlight, dropped, lastMetricDrops, lastLoggedDrops := [], None, 0, 0, 0;
      capturedTotal, droppedTotal, warnings := 0, 0, [];
      events := [];
    }

    /** A packet arrives from the sniffer; without room it is dropped. */
    method Enqueue(packet: PacketEvent)
      requires Valid()
      modifies this
      ensures Valid() && events == old(events) + [Arrive(packet)]
      ensures |old(queue)| < 10000 ==> queue == old(queue) + [packet] && dropped == old(dropped)
      ensures |old(queue)| >= 10000 ==> queue == old(queue) && dropped == old(dropped) + 1
    {
      AfterOneMore(events, Arrive(packet));
      if |queue| < CAPACITY {
        queue := queue + [packet];
      } else {
        dropped := dropped + 1;
      }
      events := events + [Arrive(packet)];
    }

    /** The capture loop gets the next packet and starts publishing it. */
    method Take() returns (packet: PacketEvent)
      requires Valid() && queue != [] && inFlight == None
      modifies this
      ensures Valid() && events == old(events) + [Event.Take]
      ensures packet == old(queue[0]) && queue == old(queue[1..]) && inFlight == Some(packet)
    {
      AfterOneMore(events, Event.Take);
      packet := queue[0];
      queue, inFlight := queue[1..], Some(packet);
      events := events + [Event.Take];
    }

    /** The publish is over: the counters catch up, or, if it raised, the watchdog starts over with a new adapter. */
    method Observe(published: bool)
      requires Valid() && inFlight.Some?
      modifies this
      ensures Valid() && events == old(events) + [Event.Observe(published)] && inFlight == None
      ensures published ==> queue == old(queue) && dropped == old(dropped) == lastMetricDrops
      ensures published ==> capturedTotal == old(capturedTotal) + 1
                            && droppedTotal == old(droppedTotal) + (dropped - old(lastMetricDrops))
      ensures !published ==> queue == [] && dropped == 0
                             && capturedTotal == old(capturedTotal) && droppedTotal == old(droppedTotal)
    {
      AfterOneMore(events, Event.Observe(published));
      MetricBehind(events);
      inFlight := None;
      if !published {
        queue, dropped, lastMetricDrops, lastLoggedDrops := [], 0, 0, 0;
      } else {
        capturedTotal := capturedTotal + 1;
        if dropped > lastMetricDrops {
          droppedTotal := droppedTotal + (dropped - lastMetricDrops);
          lastMetricDrops := dropped;
        }
        if dropped - lastLoggedDrops >= LOG_INTERVAL {
          warnings := warnings + [dropped];
          lastLoggedDrops := dropped;
        }
      }
      events := events + [Event.Observe(published)];
    }
  }
}
