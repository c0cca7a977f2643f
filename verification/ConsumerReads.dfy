/** What a read of the group delivers: the oldest entries that nobody has had, and none is passed over. */
module ConsumerReads {
  import opened ConsumerGroup

  // ------------------------------------------------------------- nothing is skipped

  /** Every stored entry that the group has moved past was delivered. */
  ghost predicate NothingSkipped(s: State) {
    forall stream, id | stream in s.logs && id in s.logs[stream].ids && id <= s.logs[stream].last ::
      Delivered(s.deliveries, Ref(stream, id))
  }

  lemma {:induction false} OldOrNext(log: Log, id: int)
    requires LogOk(log) && id in log.ids && FirstFresh(log.ids, log.last) < |log.ids|
    requires id <= log.ids[FirstFresh(log.ids, log.last)]
    ensures id <= log.last || id == log.ids[FirstFresh(log.ids, log.last)]
  {
    var i :| 0 <= i < |log.ids| && log.ids[i] == id;
  }

  lemma {:induction false} DeliverOneSkipsNothing(s: State, w: nat, stream: string)
    requires LogsOk(s.logs) && NothingSkipped(s)
    ensures NothingSkipped(DeliverOne(s, w, stream))
  {
    var t := DeliverOne(s, w, stream);
    if t != s {
      var log := s.logs[stream];
      var d := Delivery(w, Ref(stream, log.ids[FirstFresh(log.ids, log.last)]));
      forall st, id | st in t.logs && id in t.logs[st].ids && id <= t.logs[st].last
        ensures Delivered(t.deliveries, Ref(st, id))
      {
        DeliveredOneMore(s.deliveries, d, Ref(st, id));
        if st == stream {
          OldOrNext(log, id);
        }
      }
    }
  }

  lemma {:induction false} DeliverUpToSkipsNothing(s: State, w: nat, stream: string, n: nat)
    requires Inv(s) && Live(s, w) && NothingSkipped(s)
    ensures NothingSkipped(DeliverUpTo(s, w, stream, n))
  {
    if n > 0 {
      DeliverUpToSkipsNothing(s, w, stream, n - 1);
      DeliverUpToKeepsInv(s, w, stream, n - 1);
      DeliverOneSkipsNothing(DeliverUpTo(s, w, stream, n - 1), w, stream);
    }
  }

  lemma {:induction false} DeliverAllSkipsNothing(s: State, w: nat, streams: seq<string>, count: nat)
    requires Inv(s) && Live(s, w) && NothingSkipped(s)
    ensures NothingSkipped(DeliverAll(s, w, streams, count))
    decreases |streams|
  {
    if streams != [] {
      var before := streams[..|streams| - 1];
      DeliverAllSkipsNothing(s, w, before, count);
      DeliverAllKeepsInv(s, w, before, count);
      DeliverUpToSkipsNothing(DeliverAll(s, w, before, count), w, streams[|streams| - 1], count);
    }
  }

  lemma {:induction false} PublishSkipsNothing(s: State, stream: string, id: int, trimmed: nat)
    requires Inv(s) && NothingSkipped(s) && stream in s.logs && Enabled(s, Publish(stream, id, trimmed))
    ensures var log := s.logs[stream];
            NothingSkipped(s.(logs := s.logs[stream := Log(log.ids[trimmed..] + [id], id, log.last)]))
  {
    var log := s.logs[stream];
    assert LogOk(log);
    forall x | x in log.ids[trimmed..] + [id] && x <= log.last
      ensures x in log.ids
    {
    }
  }

  lemma {:induction false} StepSkipsNothing(cfg: Config, s: State, e: Event)
    requires Inv(s) && Enabled(s, e) && NothingSkipped(s)
    ensures NothingSkipped(Apply(cfg, s, e))
  {
    match e
    case Publish(stream, id, trimmed) =>
      if stream in s.logs {
        PublishSkipsNothing(s, stream, id, trimmed);
      }
    case Read(w) =>
      FreshReadKeepsInv(s, w);
      DeliverAllSkipsNothing(s.(workers := s.workers[w := Worker([], 0, true)]), w, Keys(cfg.streams), cfg.count);
    case _ =>
  }

  /** Over every run each stored entry at or below a stream's last delivered id was delivered. */
  lemma {:induction false} RunSkipsNothing(cfg: Config, events: seq<Event>)
    requires Legal(cfg, events)
    ensures NothingSkipped(After(cfg, events))
    decreases |events|
  {
    if events != [] {
      var before := events[..|events| - 1];
      RunSkipsNothing(cfg, before);
      RunKeepsInv(cfg, before);
      StepSkipsNothing(cfg, After(cfg, before), events[|events| - 1]);
    }
  }

  // ------------------------------------------------------------ what one read takes

  /** The stored ids above the last delivered one, oldest first. */
  function Above(ids: seq<int>, last: int): seq<int> {
    if ids == [] then []
    else
      var before := Above(ids[..|ids| - 1], last);
      if ids[|ids| - 1] > last then before + [ids[|ids| - 1]] else before
  }

  /** The first n, or all if there are fewer. */
  function Upto<T>(xs: seq<T>, n: nat): seq<T> {
    if n <= |xs| then xs[..n] else xs
  }

  /** The first `count` entries of the stream that the group has not had. */
  function Share(log: Log, count: nat): seq<int> {
    Upto(Above(log.ids, log.last), count)
  }

  function Refs(stream: string, ids: seq<int>): (refs: seq<Ref>)
    ensures |refs| == |ids|
  {
    seq(|ids|, i requires 0 <= i < |ids| => Ref(stream, ids[i]))
  }

  /** The shares of the streams, one stream after another. */
  function Shares(logs: map<string, Log>, streams: seq<string>, count: nat): seq<Ref> {
    if streams == [] then []
    else
      var stream := streams[|streams| - 1];
      Shares(logs, streams[..|streams| - 1], count)
      + if stream in logs then Refs(stream, Share(logs[stream], count)) else []
  }

  function Deliveries(w: nat, refs: seq<Ref>): (ds: seq<Delivery>)
    ensures |ds| == |refs|
  {
    seq(|refs|, i requires 0 <= i < |refs| => Delivery(w, refs[i]))
  }

  ghost predicate Sorted(ids: seq<int>) {
    forall i, j | 0 <= i < j < |ids| :: ids[i] < ids[j]
  }

  lemma {:induction false} NothingAbove(ids: seq<int>, last: int)
    requires forall i | 0 <= i < |ids| :: ids[i] <= last
    ensures Above(ids, last) == []
  {
    if ids != [] {
      NothingAbove(ids[..|ids| - 1], last);
    }
  }

  /** In a sorted log they are what follows the first one above. */
  lemma {:induction false} AboveIsRest(ids: seq<int>, last: int, f: nat)
    requires Sorted(ids) && f <= |ids| && (forall i | 0 <= i < f :: ids[i] <= last) && (f < |ids| ==> ids[f] > last)
    ensures Above(ids, last) == ids[f..]
  {
    if f == |ids| {
      NothingAbove(ids, last);
    } else {
      var n := |ids| - 1;
      if f == n {
        NothingAbove(ids[..n], last);
      } else {
        AboveIsRest(ids[..n], last, f);
        assert ids[..n][f..] + [ids[n]] == ids[f..];
      }
    }
  }

  /** The entry that is delivered is the first above; the others stay above. */
  lemma {:induction false} FirstAbove(log: Log, f: nat)
    requires Sorted(log.ids) && f == FirstFresh(log.ids, log.last) < |log.ids|
    ensures var above := Above(log.ids, log.last);
            above != [] && above[0] == log.ids[f] && Above(log.ids, log.ids[f]) == above[1..]
  {
    AboveIsRest(log.ids, log.last, f);
    AboveIsRest(log.ids, log.ids[f], f + 1);
    assert log.ids[f..][1..] == log.ids[f + 1..];
  }

  lemma {:induction false} NoneAbove(log: Log)
    requires FirstFresh(log.ids, log.last) == |log.ids|
    ensures Above(log.ids, log.last) == []
  {
    NothingAbove(log.ids, log.last);
  }

  /** From s to t the worker was given these entries of the stream and nothing else was. */
  ghost predicate Given(s: State, t: State, w: nat, stream: string, ids: seq<int>) {
    && stream in s.logs && w in s.workers && w in t.workers
    && t.logs == s.logs[stream := s.logs[stream].(last := if ids == [] then s.logs[stream].last else ids[|ids| - 1])]
    && t.deliveries == s.deliveries + Deliveries(w, Refs(stream, ids))
    && t.workers[w].read == s.workers[w].read + Refs(stream, ids)
  }

  lemma {:induction false} GivenNothing(s: State, w: nat, stream: string)
    requires stream in s.logs && w in s.workers
    ensures Given(s, s, w, stream, [])
  {
    assert s.logs[stream := s.logs[stream].(last := s.logs[stream].last)] == s.logs;
  }

  lemma {:induction false} GivenOneMore(s: State, t: State, w: nat, stream: string, ids: seq<int>, id: int)
    requires Given(s, t, w, stream, ids)
    requires FirstFresh(t.logs[stream].ids, t.logs[stream].last) < |t.logs[stream].ids|
    requires id == t.logs[stream].ids[FirstFresh(t.logs[stream].ids, t.logs[stream].last)]
    ensures Given(s, DeliverOne(t, w, stream), w, stream, ids + [id])
  {
    var more := ids + [id];
    assert Refs(stream, more) == Refs(stream, ids) + [Ref(stream, id)];
    assert Deliveries(w, Refs(stream, more)) == Deliveries(w, Refs(stream, ids)) + [Delivery(w, Ref(stream, id))];
  }

  lemma {:induction false} UptoOneMore<T>(xs: seq<T>, n: nat)
    ensures Upto(xs, n + 1) == if n < |xs| then Upto(xs, n) + [xs[n]] else Upto(xs, n)
  {
  }

  /** What is left above after the first n have been delivered. */
  function Remaining(log: Log, n: nat): seq<int> {
    var above := Above(log.ids, log.last);
    if n <= |above| then above[n..] else []
  }

  lemma {:induction false} RemainingOneMore(log: Log, n: nat)
    ensures Remaining(log, n + 1) == if Remaining(log, n) == [] then [] else Remaining(log, n)[1..]
    ensures Share(log, n + 1)
            == if Remaining(log, n) == [] then Share(log, n) else Share(log, n) + [Remaining(log, n)[0]]
  {
    UptoOneMore(Above(log.ids, log.last), n);
  }

  /** From s to t the worker was given the first n entries of the stream above; what remains is still above. */
  ghost predicate Served(s: State, t: State, w: nat, stream: string, n: nat) {
    && stream in s.logs && Given(s, t, w, stream, Share(s.logs[stream], n))
    && Above(t.logs[stream].ids, t.logs[stream].last) == Remaining(s.logs[stream], n)
  }

  lemma {:induction false} DeliverOneServes(s: State, t: State, w: nat, stream: string, n: nat)
    requires Served(s, t, w, stream, n) && Sorted(s.logs[stream].ids)
    ensures Served(s, DeliverOne(t, w, stream), w, stream, n + 1)
  {
    var log := t.logs[stream];
    var f := FirstFresh(log.ids, log.last);
    RemainingOneMore(s.logs[stream], n);
    if f < |log.ids| {
      FirstAbove(log, f);
      GivenOneMore(s, t, w, stream, Share(s.logs[stream], n), log.ids[f]);
    } else {
      NoneAbove(log);
    }
  }

  lemma {:induction false} ServedNothing(s: State, w: nat, stream: string)
    requires stream in s.logs && w in s.workers
    ensures Served(s, s, w, stream, 0)
  {
    GivenNothing(s, w, stream);
  }

  /** A read of one stream gives the worker the share. */
  lemma {:induction false} DeliverUpToServes(s: State, w: nat, stream: string, n: nat)
    requires w in s.workers && stream in s.logs && Sorted(s.logs[stream].ids)
    ensures Served(s, DeliverUpTo(s, w, stream, n), w, stream, n)
  {
    if n == 0 {
      ServedNothing(s, w, stream);
    } else {
      DeliverUpToServes(s, w, stream, n - 1);
      DeliverOneServes(s, DeliverUpTo(s, w, stream, n - 1), w, stream, n - 1);
    }
  }

  /** The log once its share has been read. */
  function Advanced(log: Log, count: nat): Log {
    var share := Share(log, count);
    log.(last := if share == [] then log.last else share[|share| - 1])
  }

  /** From s to t the worker was given the shares of the streams; only their last delivered ids moved. */
  ghost predicate AllGiven(s: State, t: State, w: nat, streams: seq<string>, count: nat) {
    && w in s.workers && w in t.workers
    && t.deliveries == s.deliveries + Deliveries(w, Shares(s.logs, streams, count))
    && t.workers[w].read == s.workers[w].read + Shares(s.logs, streams, count)
    && (forall st :: st in t.logs <==> st in s.logs)
    && (forall st | st in s.logs :: t.logs[st] == if st in streams then Advanced(s.logs[st], count) else s.logs[st])
  }

  lemma {:induction false} JoinLasts<T>(a: seq<T>, b: seq<T>, c: seq<T>)
    ensures a + b + c == a + (b + c)
  {
  }

  lemma {:induction false} DeliveriesJoin(w: nat, a: seq<Ref>, b: seq<Ref>)
    ensures Deliveries(w, a + b) == Deliveries(w, a) + Deliveries(w, b)
  {
  }

  lemma {:induction false} NoSuchStream(s: State, w: nat, stream: string, n: nat)
    requires stream !in s.logs
    ensures DeliverUpTo(s, w, stream, n) == s
  {
    if n > 0 {
      NoSuchStream(s, w, stream, n - 1);
    }
  }

  lemma {:induction false} SharesSnoc(logs: map<string, Log>, before: seq<string>, stream: string, count: nat)
    ensures Shares(logs, before + [stream], count)
            == Shares(logs, before, count) + if stream in logs then Refs(stream, Share(logs[stream], count)) else []
  {
    assert (before + [stream])[..|before|] == before;
  }

  lemma {:induction false} OneMoreGiven(s: State, t: State, u: State, w: nat, before: seq<string>, stream: string,
      count: nat)
    requires AllGiven(s, t, w, before, count) && stream !in before && stream in s.logs
    requires Given(t, u, w, stream, Share(s.logs[stream], count))
    ensures AllGiven(s, u, w, before + [stream], count)
  {
    var share := Refs(stream, Share(s.logs[stream], count));
    SharesSnoc(s.logs, before, stream, count);
    DeliveriesJoin(w, Shares(s.logs, before, count), share);
    JoinLasts(s.deliveries, Deliveries(w, Shares(s.logs, before, count)), Deliveries(w, share));
    JoinLasts(s.workers[w].read, Shares(s.logs, before, count), share);
  }

  lemma {:induction false} OneMoreWithoutLog(s: State, t: State, w: nat, before: seq<string>, stream: string,
      count: nat)
    requires AllGiven(s, t, w, before, count) && stream !in s.logs
    ensures AllGiven(s, t, w, before + [stream], count)
  {
    SharesSnoc(s.logs, before, stream, count);
    assert Shares(s.logs, before, count) + [] == Shares(s.logs, before, count);
  }

  lemma {:induction false} DeliverAllGives(s: State, w: nat, streams: seq<string>, count: nat)
    requires Inv(s) && Live(s, w) && forall i, j | 0 <= i < j < |streams| :: streams[i] != streams[j]
    ensures AllGiven(s, DeliverAll(s, w, streams, count), w, streams, count)
    decreases |streams|
  {
    if streams == [] {
      assert s.deliveries + [] == s.deliveries && s.workers[w].read + [] == s.workers[w].read;
    } else {
      var before, stream := streams[..|streams| - 1], streams[|streams| - 1];
      assert streams == before + [stream];
      var t := DeliverAll(s, w, before, count);
      DeliverAllGives(s, w, before, count);
      DeliverAllKeepsInv(s, w, before, count);
      if stream in s.logs {
        assert LogOk(t.logs[stream]);
        DeliverUpToServes(t, w, stream, count);
        OneMoreGiven(s, t, DeliverUpTo(t, w, stream, count), w, before, stream, count);
      } else {
        NoSuchStream(t, w, stream, count);
        OneMoreWithoutLog(s, t, w, before, stream, count);
      }
    }
  }

  /**
    Over every run a read hands the worker exactly the first `count` entries of each configured stream that the
    group has not had, or all of them if there are fewer, oldest first; it moves only those streams on, each to the
    last entry taken of it.
    */
  lemma {:induction false} ReadTakesOldest(cfg: Config, events: seq<Event>, w: nat)
    requires Legal(cfg, events) && Enabled(After(cfg, events), Read(w))
    ensures var s, t := After(cfg, events), Apply(cfg, After(cfg, events), Read(w));
            && w in t.workers && t.workers[w] == Worker(Shares(s.logs, Keys(cfg.streams), cfg.count), 0, true)
            && t.deliveries == s.deliveries + Deliveries(w, Shares(s.logs, Keys(cfg.streams), cfg.count))
            && (forall st :: st in t.logs <==> st in s.logs)
            && forall st | st in s.logs ::
                 t.logs[st] == if st in cfg.streams then Advanced(s.logs[st], cfg.count) else s.logs[st]
  {
    var s := After(cfg, events);
    var restarted := s.(workers := s.workers[w := Worker([], 0, true)]);
    RunKeepsInv(cfg, events);
    FreshReadKeepsInv(s, w);
    DeliverAllGives(restarted, w, Keys(cfg.streams), cfg.count);
    DeliverAllKeepsInv(restarted, w, Keys(cfg.streams), cfg.count);
    assert [] + Shares(s.logs, Keys(cfg.streams), cfg.count) == Shares(s.logs, Keys(cfg.streams), cfg.count);
  }

  // ------------------------------------------------------- entries and what becomes of them

  /** The ids published to the stream since its group exists, in order. */
  function Entered(events: seq<Event>, stream: string): seq<int> {
    if events == [] then []
    else
      var before, last := events[..|events| - 1], events[|events| - 1];
      Entered(before, stream)
      + if last.Publish? && last.stream == stream && EnsureGroup(stream) in before then [last.id] else []
  }

  /** How many entries of the stream have been trimmed. */
  function Trimmed(events: seq<Event>, stream: string): nat {
    if events == [] then 0
    else
      var before, last := events[..|events| - 1], events[|events| - 1];
      Trimmed(before, stream)
      + if last.Publish? && last.stream == stream && EnsureGroup(stream) in before then last.trimmed else 0
  }

  lemma {:induction false} NothingBeforeGroup(events: seq<Event>, stream: string)
    requires EnsureGroup(stream) !in events
    ensures Entered(events, stream) == [] && Trimmed(events, stream) == 0
  {
    if events != [] {
      assert events == events[..|events| - 1] + [events[|events| - 1]];
      NothingBeforeGroup(events[..|events| - 1], stream);
    }
  }

  /** The log of the stream holds what is left of these entries. */
  ghost predicate HoldsRest(logs: map<string, Log>, stream: string, group: bool, entered: seq<int>, trimmed: nat) {
    && (stream in logs <==> group)
    && trimmed <= |entered|
    && (stream in logs ==> logs[stream].ids == entered[trimmed..])
  }

  lemma {:induction false} DropMore<T>(xs: seq<T>, n: nat, m: nat, x: T)
    requires n <= |xs| && m <= |xs[n..]|
    ensures xs[n..][m..] + [x] == (xs + [x])[n + m..]
  {
  }

  lemma {:induction false} PublishHoldsRest(cfg: Config, s: State, e: Event, stream: string, entered: seq<int>,
      trimmed: nat)
    requires e.Publish? && e.stream == stream && Enabled(s, e) && stream in s.logs
    requires trimmed <= |entered| && s.logs[stream].ids == entered[trimmed..]
    ensures HoldsRest(Apply(cfg, s, e).logs, stream, true, entered + [e.id], trimmed + e.trimmed)
  {
    DropMore(entered, trimmed, e.trimmed, e.id);
  }

  lemma {:induction false} ReadHoldsRest(cfg: Config, events: seq<Event>, w: nat, stream: string)
    requires Legal(cfg, events) && Enabled(After(cfg, events), Read(w))
    ensures var s, t := After(cfg, events), Apply(cfg, After(cfg, events), Read(w));
            && (stream in t.logs <==> stream in s.logs)
            && (stream in s.logs ==> t.logs[stream].ids == s.logs[stream].ids)
  {
    ReadTakesOldest(cfg, events, w);
  }

  lemma {:induction false} OneMoreEvent(before: seq<Event>, e: Event, stream: string)
    ensures var events := before + [e];
            var counts := e.Publish? && e.stream == stream && EnsureGroup(stream) in before;
            && (EnsureGroup(stream) in events <==> EnsureGroup(stream) in before || e == EnsureGroup(stream))
            && Entered(events, stream) == Entered(before, stream) + (if counts then [e.id] else [])
            && Trimmed(events, stream) == Trimmed(before, stream) + (if counts then e.trimmed else 0)
  {
    assert (before + [e])[..|before|] == before;
  }

  /** A stream's log is what has been published since the group exists, without the oldest that were trimmed. */
  lemma {:induction false} LogHoldsRest(cfg: Config, events: seq<Event>, stream: string)
    requires Legal(cfg, events)
    ensures HoldsRest(After(cfg, events).logs, stream, EnsureGroup(stream) in events, Entered(events, stream),
                      Trimmed(events, stream))
    decreases |events|
  {
    if events != [] {
      var before, e := events[..|events| - 1], events[|events| - 1];
      assert before + [e] == events;
      LogHoldsRest(cfg, before, stream);
      OneMoreEvent(before, e, stream);
      if e.Read? {
        ReadHoldsRest(cfg, before, e.worker, stream);
      } else if e == EnsureGroup(stream) {
        NothingBeforeGroup(before, stream);
      } else if e.Publish? && e.stream == stream && stream in After(cfg, before).logs {
        PublishHoldsRest(cfg, After(cfg, before), e, stream, Entered(before, stream), Trimmed(before, stream));
      }
    }
  }

  /**
    What becomes of an entry, over every run: unless it was among the oldest that were trimmed, it was delivered
    to some worker or lies above the last delivered id, where the next reads will come to it.
    */
  lemma {:induction false} DeliveredOrToCome(cfg: Config, events: seq<Event>, stream: string, i: nat)
    requires Legal(cfg, events) && Trimmed(events, stream) <= i < |Entered(events, stream)|
    ensures var s, id := After(cfg, events), Entered(events, stream)[i];
            stream in s.logs && (Delivered(s.deliveries, Ref(stream, id)) <==> id <= s.logs[stream].last)
  {
    var s, id := After(cfg, events), Entered(events, stream)[i];
    LogHoldsRest(cfg, events, stream);
    RunSkipsNothing(cfg, events);
    RunKeepsInv(cfg, events);
    if EnsureGroup(stream) !in events {
      NothingBeforeGroup(events, stream);
    } else {
      assert s.logs[stream].ids[i - Trimmed(events, stream)] == id;
    }
  }
}
