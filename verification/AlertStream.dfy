/**
  One server-sent-events connection of the live alert stream, and chains of reconnections. Frames carry the id
  with which a client reconnects (the last event ID of section 9.2 of the WHATWG HTML Living Standard).
  */
module AlertStream {
  import opened Options
  import opened AlertStore

  /** What the pub/sub client hands over, with the time at which the stream sees it. */
  datatype Raw =
    | Timeout(now: real)
    | EmptyData(now: real)
    | NotJson(now: real)
    | NotObject(now: real)
    | Object(now: real, id: IdField, body: string)

  /** The id of a fanned-out payload: absent or falsy, not a number, or a number. */
  datatype IdField = Absent | Malformed | Number(n: int)

  function AlertId(f: IdField): int {
    if f.Number? then f.n else 0
  }

  /**
    What is written to the client. Data carries the frame's id line, the id its alert had (0 if none was
    readable), and when it was forwarded if it was not replayed from the database.
    */
  datatype Frame = Connected | KeepAlive(at: real) | Data(sent: Option<real>, frameId: int, alertId: int, body: string)

  const HEARTBEAT := 15.0

  // ------------------------------------------------------------- reading the frames

  function Datas(frames: seq<Frame>): (ds: seq<Frame>)
    ensures forall i | 0 <= i < |ds| :: ds[i].Data?
  {
    if frames == [] then []
    else
      var before := Datas(frames[..|frames| - 1]);
      if frames[|frames| - 1].Data? then before + [frames[|frames| - 1]] else before
  }

  ghost predicate AllData(ds: seq<Frame>) {
    forall i | 0 <= i < |ds| :: ds[i].Data?
  }

  /** The id a client reconnects with: the one on the last frame that had one. */
  function LastFrameId(start: int, ds: seq<Frame>): int
    requires AllData(ds)
  {
    if ds == [] then start else ds[|ds| - 1].frameId
  }

  /** Frame ids never go back, and no alert with an id comes twice or after a later one. */
  ghost predicate Ordered(start: int, ds: seq<Frame>, end: int) {
    && start <= end && AllData(ds)
    && (forall i | 0 <= i < |ds| :: start <= ds[i].frameId <= end)
    && (forall i, j | 0 <= i < j < |ds| :: ds[i].frameId <= ds[j].frameId)
    && (forall i | 0 <= i < |ds| && ds[i].alertId != 0 ::
          start < ds[i].alertId <= end && ds[i].frameId == ds[i].alertId)
    && (forall i, j | 0 <= i < j < |ds| && ds[i].alertId != 0 && ds[j].alertId != 0 :: ds[i].alertId < ds[j].alertId)
  }

  lemma {:induction false} DatasSnoc(frames: seq<Frame>, f: Frame)
    ensures Datas(frames + [f]) == if f.Data? then Datas(frames) + [f] else Datas(frames)
  {
    assert (frames + [f])[..|frames|] == frames;
  }

  lemma {:induction false} OrderedSnoc(start: int, ds: seq<Frame>, cursor: int, f: Frame)
    requires Ordered(start, ds, cursor) && f.Data?
    requires if f.alertId == 0 then f.frameId == cursor else f.frameId == f.alertId > cursor
    ensures Ordered(start, ds + [f], f.frameId)
  {
  }

  lemma {:induction false} OrderedJoin(start: int, ds: seq<Frame>, middle: int, es: seq<Frame>, end: int)
    requires Ordered(start, ds, middle) && Ordered(middle, es, end)
    ensures Ordered(start, ds + es, end)
  {
  }

  // -------------------------------------------------- which alerts get through

  /** The largest id so far: the start, the ids caught up with and the ids heard. */
  function Highest(start: int, ids: seq<int>): int {
    if ids == [] then start
    else
      var h := Highest(start, ids[..|ids| - 1]);
      if ids[|ids| - 1] > h then ids[|ids| - 1] else h
  }

  lemma {:induction false} HighestIsMaximum(start: int, ids: seq<int>)
    ensures Highest(start, ids) >= start && forall i | 0 <= i < |ids| :: Highest(start, ids) >= ids[i]
    ensures Highest(start, ids) == start || Highest(start, ids) in ids
  {
    if ids != [] {
      HighestIsMaximum(start, ids[..|ids| - 1]);
    }
  }

  function CaughtUp(rows: seq<Alert>): (ids: seq<int>)
    ensures |ids| == |rows|
  {
    seq(|rows|, i requires 0 <= i < |rows| => rows[i].id)
  }

  function Heard(raws: seq<Raw>): seq<int> {
    if raws == [] then []
    else
      var before := Heard(raws[..|raws| - 1]);
      if raws[|raws| - 1].Object? then before + [AlertId(raws[|raws| - 1].id)] else before
  }

  /** A payload without a readable id always gets through; one with an id only as the highest so far. */
  function Passing(start: int, before: seq<int>, raws: seq<Raw>): (ds: seq<Frame>)
    ensures AllData(ds)
  {
    if raws == [] then []
    else
      var earlier := Passing(start, before, raws[..|raws| - 1]);
      var raw := raws[|raws| - 1];
      var high := Highest(start, before + Heard(raws[..|raws| - 1]));
      if !raw.Object? then earlier
      else if AlertId(raw.id) == 0 then earlier + [Data(Some(raw.now), high, 0, raw.body)]
      else if AlertId(raw.id) > high then earlier + [Data(Some(raw.now), AlertId(raw.id), AlertId(raw.id), raw.body)]
      else earlier
  }

  function Row(a: Alert): Frame {
    Data(None, a.id, a.id, a.body)
  }

  function Rows(rows: seq<Alert>): (ds: seq<Frame>)
    ensures AllData(ds) && |ds| == |rows|
  {
    seq(|rows|, i requires 0 <= i < |rows| => Row(rows[i]))
  }

  // ---------------------------------------------------------------- heartbeats

  /** When the connection last showed life after its opening: a keep-alive or a forwarded alert. */
  function LastBeat(begun: real, frames: seq<Frame>): real {
    if frames == [] then begun
    else
      match frames[|frames| - 1]
      case KeepAlive(at) => at
      case Data(Some(at), _, _, _) => at
      case _ => LastBeat(begun, frames[..|frames| - 1])
  }

  /** A frame that shows life: a keep-alive, or an alert forwarded live. */
  predicate ShowsLife(f: Frame) {
    f.KeepAlive? || (f.Data? && f.sent.Some?)
  }

  /** It is the time of the last such frame, the beginning before any. */
  lemma {:induction false} LastBeatIsLast(begun: real, frames: seq<Frame>)
    ensures (forall i | 0 <= i < |frames| :: !ShowsLife(frames[i])) ==> LastBeat(begun, frames) == begun
    ensures forall i | 0 <= i < |frames| && ShowsLife(frames[i])
                       && (forall j | i < j < |frames| :: !ShowsLife(frames[j])) ::
              LastBeat(begun, frames) == if frames[i].KeepAlive? then frames[i].at else frames[i].sent.value
    decreases |frames|
  {
    if frames != [] {
      LastBeatIsLast(begun, frames[..|frames| - 1]);
    }
  }

  /** Keep-alives fill silences of a whole heartbeat and no shorter ones. */
  ghost predicate Paced(begun: real, frames: seq<Frame>) {
    forall i | 0 <= i < |frames| && frames[i].KeepAlive? :: frames[i].at - LastBeat(begun, frames[..i]) >= 15.0
  }

  /** The listener had nothing to hand over: a timeout, or a message without data. */
  predicate Silent(raw: Raw) {
    raw.Timeout? || raw.EmptyData?
  }

  /** Keep-alives are sent when a message is awaited in vain, and only then. */
  ghost predicate BeatsOnSilence(raws: seq<Raw>, frames: seq<Frame>) {
    forall f | f in frames && f.KeepAlive? ::
      exists j :: 0 <= j < |raws| && (raws[j].Timeout? || raws[j].EmptyData?) && raws[j].now == f.at
  }

  lemma {:induction false} BeatsStay(raws: seq<Raw>, raw: Raw, frames: seq<Frame>, f: Frame)
    requires BeatsOnSilence(raws, frames) && (f.KeepAlive? ==> f == KeepAlive(raw.now) && Silent(raw))
    ensures BeatsOnSilence(raws + [raw], frames) && BeatsOnSilence(raws + [raw], frames + [f])
  {
    var more := raws + [raw];
    assert more[|raws|] == raw;
    forall g | g in frames && g.KeepAlive?
      ensures exists j :: 0 <= j < |more| && (more[j].Timeout? || more[j].EmptyData?) && more[j].now == g.at
    {
      var j :| 0 <= j < |raws| && (raws[j].Timeout? || raws[j].EmptyData?) && raws[j].now == g.at;
      assert more[j] == raws[j];
    }
  }

  lemma {:induction false} PacedSnoc(begun: real, frames: seq<Frame>, f: Frame)
    requires Paced(begun, frames)
    requires f.KeepAlive? ==> f.at - LastBeat(begun, frames) >= HEARTBEAT
    ensures Paced(begun, frames + [f])
    ensures LastBeat(begun, frames + [f])
            == if f.KeepAlive? then f.at else if f.Data? && f.sent.Some? then f.sent.value else LastBeat(begun, frames)
  {
    var more := frames + [f];
    assert more[..|frames|] == frames;
    forall i | 0 <= i < |more| && more[i].KeepAlive?
      ensures more[i].at - LastBeat(begun, more[..i]) >= 15.0
    {
      if i < |frames| {
        assert more[..i] == frames[..i] && more[i] == frames[i];
      }
    }
  }

  // ------------------------------------------------------------------ lemmas

  lemma {:induction false} HighestSnoc(start: int, ids: seq<int>, id: int)
    ensures Highest(start, ids + [id]) == if id > Highest(start, ids) then id else Highest(start, ids)
  {
    assert (ids + [id])[..|ids|] == ids;
  }

  lemma {:induction false} RawSnoc(start: int, before: seq<int>, raws: seq<Raw>, raw: Raw)
    ensures Heard(raws + [raw]) == if raw.Object? then Heard(raws) + [AlertId(raw.id)] else Heard(raws)
    ensures Passing(start, before, raws + [raw])
            == Passing(start, before, raws) + Passed(Highest(start, before + Heard(raws)), raw)
  {
    assert (raws + [raw])[..|raws|] == raws;
  }

  /** What one message adds when `high` is the highest id so far. */
  function Passed(high: int, raw: Raw): (ds: seq<Frame>)
    ensures AllData(ds)
  {
    if !raw.Object? then []
    else if AlertId(raw.id) == 0 then [Data(Some(raw.now), high, 0, raw.body)]
    else if AlertId(raw.id) > high then [Data(Some(raw.now), AlertId(raw.id), AlertId(raw.id), raw.body)]
    else []
  }

  ghost predicate Under(ids: seq<int>, id: int) {
    forall k | 0 <= k < |ids| :: ids[k] < id
  }

  /** Every id among the messages is lower. */
  ghost predicate AllBelow(raws: seq<Raw>, id: int) {
    forall j | 0 <= j < |raws| && raws[j].Object? :: AlertId(raws[j].id) < id
  }

  /** Message i carries the id, and no id so far - start, caught up or heard - is as high. */
  ghost predicate ArrivesHighest(start: int, before: seq<int>, raws: seq<Raw>, id: int, i: nat)
    requires i < |raws|
  {
    && raws[i].Object? && AlertId(raws[i].id) == id
    && start < id && Under(before, id) && AllBelow(raws[..i], id)
  }

  lemma {:induction false} AllBelowSnoc(raws: seq<Raw>, raw: Raw, id: int)
    ensures AllBelow(raws + [raw], id) <==> AllBelow(raws, id) && (raw.Object? ==> AlertId(raw.id) < id)
  {
    var more := raws + [raw];
    assert more[|raws|] == raw && forall j | 0 <= j < |raws| :: more[j] == raws[j];
    if AllBelow(more, id) {
      forall j | 0 <= j < |raws| && raws[j].Object?
        ensures AlertId(raws[j].id) < id
      {
        assert more[j] == raws[j];
      }
    }
  }

  lemma {:induction false} UnderConcat(a: seq<int>, b: seq<int>, id: int)
    ensures Under(a + b, id) <==> Under(a, id) && Under(b, id)
  {
    if Under(a + b, id) {
      assert forall k | 0 <= k < |a| :: a[k] == (a + b)[k];
      assert forall k | 0 <= k < |b| :: b[k] == (a + b)[|a| + k];
    }
  }

  lemma {:induction false} HeardBelow(raws: seq<Raw>, id: int)
    ensures Under(Heard(raws), id) <==> AllBelow(raws, id)
    decreases |raws|
  {
    if raws != [] {
      var before, raw := raws[..|raws| - 1], raws[|raws| - 1];
      HeardBelow(before, id);
      AllBelowSnoc(before, raw, id);
      assert raws == before + [raw];
      if raw.Object? {
        UnderConcat(Heard(before), [AlertId(raw.id)], id);
        assert Under([AlertId(raw.id)], id) <==> [AlertId(raw.id)][0] < id;
      }
    }
  }

  lemma {:induction false} HighestUnder(start: int, ids: seq<int>, id: int)
    ensures Highest(start, ids) < id <==> start < id && Under(ids, id)
    decreases |ids|
  {
    if ids != [] {
      var before, last := ids[..|ids| - 1], ids[|ids| - 1];
      HighestUnder(start, before, id);
      UnderConcat(before, [last], id);
      assert ids == before + [last];
    }
  }

  lemma {:induction false} HighestBelow(start: int, before: seq<int>, raws: seq<Raw>, id: int)
    ensures Highest(start, before + Heard(raws)) < id <==> start < id && Under(before, id) && AllBelow(raws, id)
  {
    HighestUnder(start, before + Heard(raws), id);
    UnderConcat(before, Heard(raws), id);
    HeardBelow(raws, id);
  }

  ghost predicate Carries(ds: seq<Frame>, id: int) {
    exists k :: 0 <= k < |ds| && ds[k].Data? && ds[k].alertId == id
  }

  lemma {:induction false} CarriesConcat(ds: seq<Frame>, es: seq<Frame>, id: int)
    ensures Carries(ds + es, id) <==> Carries(ds, id) || Carries(es, id)
  {
    if Carries(ds, id) {
      var k :| 0 <= k < |ds| && ds[k].Data? && ds[k].alertId == id;
      assert (ds + es)[k].alertId == id;
    }
    if Carries(es, id) {
      var k :| 0 <= k < |es| && es[k].Data? && es[k].alertId == id;
      assert (ds + es)[|ds| + k].alertId == id;
    }
  }

  lemma {:induction false} PassedCarries(high: int, raw: Raw, id: int)
    requires id != 0
    ensures Carries(Passed(high, raw), id) <==> raw.Object? && AlertId(raw.id) == id && id > high
  {
    if raw.Object? && AlertId(raw.id) == id && id > high {
      assert Passed(high, raw)[0].alertId == id;
    }
  }

  /** The channel gets an alert through exactly when one of its messages arrives with the highest id so far. */
  lemma {:induction false} ForwardedIffArrivesHighest(start: int, before: seq<int>, raws: seq<Raw>, id: int)
    requires id != 0
    ensures Carries(Passing(start, before, raws), id)
            <==> exists i :: 0 <= i < |raws| && ArrivesHighest(start, before, raws, id, i)
    decreases |raws|
  {
    if raws != [] {
      var n := |raws| - 1;
      var earlier, raw := raws[..n], raws[n];
      assert raws == earlier + [raw];
      var high := Highest(start, before + Heard(earlier));
      ForwardedIffArrivesHighest(start, before, earlier, id);
      RawSnoc(start, before, earlier, raw);
      CarriesConcat(Passing(start, before, earlier), Passed(high, raw), id);
      PassedCarries(high, raw, id);
      HighestBelow(start, before, earlier, id);
      assert raws[..n] == earlier;
      ArrivalsOneMore(start, before, earlier, raw, id);
    }
  }

  lemma {:induction false} ArrivalsOneMore(start: int, before: seq<int>, earlier: seq<Raw>, raw: Raw, id: int)
    ensures var raws := earlier + [raw];
            (exists i :: 0 <= i < |raws| && ArrivesHighest(start, before, raws, id, i))
            <==> (exists i :: 0 <= i < |earlier| && ArrivesHighest(start, before, earlier, id, i))
                 || ArrivesHighest(start, before, raws, id, |earlier|)
  {
    var raws := earlier + [raw];
    forall i | 0 <= i < |earlier|
      ensures ArrivesHighest(start, before, raws, id, i) <==> ArrivesHighest(start, before, earlier, id, i)
    {
      assert raws[..i] == earlier[..i] && raws[i] == earlier[i];
    }
  }

  // ------------------------------------------------------- what is forwarded, as sent

  /**
    The message goes to the client: a JSON object without a usable id, or with one above the start, every id caught
    up with and every id heard before.
    */
  ghost predicate GetsThrough(start: int, before: seq<int>, raws: seq<Raw>, i: nat)
    requires i < |raws|
  {
    raws[i].Object?
    && (raws[i].id.Number? && raws[i].id.n != 0 ==>
          && start < raws[i].id.n && (forall k | 0 <= k < |before| :: before[k] < raws[i].id.n)
          && forall j | 0 <= j < i && raws[j].Object? && raws[j].id.Number? :: raws[j].id.n < raws[i].id.n)
  }

  /** The frame carries the message: its time, its id (0 if it has none that is usable) and its body. */
  predicate Forwards(f: Frame, raw: Raw) {
    && f.Data? && raw.Object? && f.sent == Some(raw.now) && f.body == raw.body
    && f.alertId == (if raw.id.Number? then raw.id.n else 0)
  }

  /** The frames forward the messages at the positions, one after another. */
  ghost predicate ForwardedFrom(raws: seq<Raw>, ds: seq<Frame>, at: seq<nat>) {
    && |at| == |ds|
    && (forall k | 0 <= k < |at| :: at[k] < |raws| && Forwards(ds[k], raws[at[k]]))
    && (forall j, k | 0 <= j < k < |at| :: at[j] < at[k])
  }

  /** The positions are those of the messages that get through. */
  ghost predicate AllThatGetThrough(start: int, before: seq<int>, raws: seq<Raw>, at: seq<nat>) {
    forall i: nat | i < |raws| :: i in at <==> GetsThrough(start, before, raws, i)
  }

  lemma {:induction false} LastGetsThrough(start: int, before: seq<int>, raws: seq<Raw>, raw: Raw)
    requires start >= 0
    ensures GetsThrough(start, before, raws + [raw], |raws|)
            <==> Passed(Highest(start, before + Heard(raws)), raw) != []
  {
    var more := raws + [raw];
    assert more[|raws|] == raw && forall j | 0 <= j < |raws| :: more[j] == raws[j];
    if raw.Object? && raw.id.Number? {
      HighestBelow(start, before, raws, raw.id.n);
    }
  }

  lemma {:induction false} EarlierGetThrough(start: int, before: seq<int>, raws: seq<Raw>, raw: Raw, i: nat)
    requires i < |raws|
    ensures GetsThrough(start, before, raws + [raw], i) <==> GetsThrough(start, before, raws, i)
  {
    assert forall j | 0 <= j < |raws| :: (raws + [raw])[j] == raws[j];
  }

  lemma {:induction false} PassedForwards(high: int, raw: Raw)
    ensures |Passed(high, raw)| <= 1 && (Passed(high, raw) != [] ==> Forwards(Passed(high, raw)[0], raw))
  {
  }

  lemma {:induction false} FramesStay(raws: seq<Raw>, raw: Raw, ds: seq<Frame>, at: seq<nat>)
    requires ForwardedFrom(raws, ds, at)
    ensures ForwardedFrom(raws + [raw], ds, at)
  {
    forall k | 0 <= k < |at|
      ensures (raws + [raw])[at[k]] == raws[at[k]]
    {
    }
  }

  lemma {:induction false} FrameAdded(raws: seq<Raw>, raw: Raw, ds: seq<Frame>, f: Frame, at: seq<nat>)
    requires ForwardedFrom(raws, ds, at) && Forwards(f, raw)
    ensures ForwardedFrom(raws + [raw], ds + [f], at + [|raws|])
  {
    FramesStay(raws, raw, ds, at);
    var more, ats := ds + [f], at + [|raws|];
    forall k | 0 <= k < |ats|
      ensures ats[k] < |raws| + 1 && Forwards(more[k], (raws + [raw])[ats[k]])
    {
      if k < |at| {
        assert Forwards(ds[k], (raws + [raw])[at[k]]);
      }
    }
  }

  lemma {:induction false} FramesOneMore(raws: seq<Raw>, raw: Raw, ds: seq<Frame>, more: seq<Frame>, at: seq<nat>)
    requires ForwardedFrom(raws, ds, at) && |more| <= 1 && (more != [] ==> Forwards(more[0], raw))
    ensures ForwardedFrom(raws + [raw], ds + more, if more == [] then at else at + [|raws|])
  {
    if more == [] {
      assert ds + more == ds;
      FramesStay(raws, raw, ds, at);
    } else {
      assert more == [more[0]];
      FrameAdded(raws, raw, ds, more[0], at);
    }
  }

  lemma {:induction false} PositionsOneMore(start: int, before: seq<int>, raws: seq<Raw>, raw: Raw, at: seq<nat>,
      more: seq<Frame>)
    requires start >= 0 && AllThatGetThrough(start, before, raws, at)
    requires more == Passed(Highest(start, before + Heard(raws)), raw) && forall k | 0 <= k < |at| :: at[k] < |raws|
    ensures AllThatGetThrough(start, before, raws + [raw], if more == [] then at else at + [|raws|])
  {
    LastGetsThrough(start, before, raws, raw);
    forall i: nat | i < |raws|
      ensures i in at <==> GetsThrough(start, before, raws + [raw], i)
    {
      EarlierGetThrough(start, before, raws, raw, i);
    }
    assert (at + [|raws|])[|at|] == |raws|;
  }

  /** The live frames are the messages that get through, each with its own time, id and body, in their order. */
  lemma {:induction false} ForwardsMessages(start: int, before: seq<int>, raws: seq<Raw>) returns (at: seq<nat>)
    requires start >= 0
    ensures ForwardedFrom(raws, Passing(start, before, raws), at) && AllThatGetThrough(start, before, raws, at)
    decreases |raws|
  {
    at := [];
    if raws != [] {
      var earlier, raw := raws[..|raws| - 1], raws[|raws| - 1];
      var high := Highest(start, before + Heard(earlier));
      assert raws == earlier + [raw];
      at := ForwardsMessages(start, before, earlier);
      RawSnoc(start, before, earlier, raw);
      PassedForwards(high, raw);
      FramesOneMore(earlier, raw, Passing(start, before, earlier), Passed(high, raw), at);
      PositionsOneMore(start, before, earlier, raw, at, Passed(high, raw));
      at := if Passed(high, raw) == [] then at else at + [|earlier|];
    }
  }

  /** Catch-up rows come as the query returns them: oldest first, above the cursor. */
  ghost predicate Ascending(start: int, rows: seq<Alert>) {
    && (forall i | 0 <= i < |rows| :: rows[i].id > start)
    && (forall i, j | 0 <= i < j < |rows| :: rows[i].id < rows[j].id)
  }

  lemma {:induction false} RowsSnoc(rows: seq<Alert>, n: nat)
    requires n < |rows|
    ensures Rows(rows[..n + 1]) == Rows(rows[..n]) + [Row(rows[n])]
  {
  }

  lemma {:induction false} RowsAreDatas(ds: seq<Frame>)
    requires AllData(ds)
    ensures Datas(ds) == ds
    decreases |ds|
  {
    if ds != [] {
      RowsAreDatas(ds[..|ds| - 1]);
    }
  }

  lemma {:induction false} RowsAreOrdered(start: int, rows: seq<Alert>)
    requires Ascending(start, rows)
    ensures Ordered(start, Rows(rows), LastFrameId(start, Rows(rows)))
  {
  }

  lemma {:induction false} HighestOfRows(start: int, rows: seq<Alert>)
    requires Ascending(start, rows)
    ensures Highest(start, CaughtUp(rows)) == LastFrameId(start, Rows(rows))
    decreases |rows|
  {
    if rows != [] {
      var before, last := rows[..|rows| - 1], rows[|rows| - 1];
      HighestOfRows(start, before);
      HighestSnoc(start, CaughtUp(before), last.id);
      assert CaughtUp(rows) == CaughtUp(before) + [last.id];
    }
  }

  /** No row was forwarded live, so none counts as a heartbeat. */
  lemma {:induction false} RowsAreNoBeats(begun: real, frames: seq<Frame>)
    requires forall i | 0 <= i < |frames| :: frames[i].Connected? || (frames[i].Data? && frames[i].sent.None?)
    ensures LastBeat(begun, frames) == begun && Paced(begun, frames)
    decreases |frames|
  {
    if frames != [] {
      RowsAreNoBeats(begun, frames[..|frames| - 1]);
    }
  }

  // -------------------------------------------------------------- the generator

  /** Each row of the catch-up query is written and moves the cursor up. */
  method CatchUp(start: int, rows: seq<Alert>) returns (frames: seq<Frame>, cursor: int)
    requires Ascending(start, rows)
    ensures frames == Rows(rows) && cursor == LastFrameId(start, Rows(rows))
    ensures |frames| == |rows|
            && forall i | 0 <= i < |rows| :: frames[i] == Data(None, rows[i].id, rows[i].id, rows[i].body)
  {
    frames, cursor := [], start;
    for i := 0 to |rows|
      invariant frames == Rows(rows[..i]) && cursor == if i == 0 then start else rows[i - 1].id
    {
      RowsSnoc(rows, i);
      cursor := if rows[i].id > cursor then rows[i].id else cursor;
      frames := frames + [Row(rows[i])];
    }
    assert rows[..|rows|] == rows;
  }

  /** How the steady-state loop leaves the connection after the messages heard so far. */
  ghost predicate Steady(start: int, rows: seq<Alert>, begun: real, raws: seq<Raw>, frames: seq<Frame>, cursor: int,
      lastHeartbeat: real) {
    && cursor == Highest(start, CaughtUp(rows) + Heard(raws))
    && Datas(frames) == Rows(rows) + Passing(start, CaughtUp(rows), raws)
    && Ordered(start, Datas(frames), cursor)
    && LastFrameId(start, Datas(frames)) == cursor
    && lastHeartbeat == LastBeat(begun, frames) && Paced(begun, frames) && BeatsOnSilence(raws, frames)
    && [Connected] + Rows(rows) <= frames
  }

  lemma {:induction false} HighestOneMore(start: int, ids: seq<int>, raws: seq<Raw>, raw: Raw)
    ensures var high := Highest(start, ids + Heard(raws));
            Highest(start, ids + Heard(raws + [raw]))
            == if raw.Object? && AlertId(raw.id) > high then AlertId(raw.id) else high
  {
    RawSnoc(start, ids, raws, raw);
    if raw.Object? {
      HighestSnoc(start, ids + Heard(raws), AlertId(raw.id));
      assert ids + (Heard(raws) + [AlertId(raw.id)]) == ids + Heard(raws) + [AlertId(raw.id)];
    }
  }

  lemma {:induction false} PassingOneMore(start: int, ids: seq<int>, ds: seq<Frame>, raws: seq<Raw>, raw: Raw)
    ensures ds + Passing(start, ids, raws + [raw])
            == ds + Passing(start, ids, raws) + Passed(Highest(start, ids + Heard(raws)), raw)
  {
    RawSnoc(start, ids, raws, raw);
  }

  /** A message that is not forwarded: it changes neither the data nor the cursor. */
  lemma {:induction false} SteadyWithout(start: int, rows: seq<Alert>, begun: real, raws: seq<Raw>, raw: Raw,
                                         frames: seq<Frame>, cursor: int, lastHeartbeat: real)
    requires Steady(start, rows, begun, raws, frames, cursor, lastHeartbeat)
    requires !raw.Object? || (AlertId(raw.id) != 0 && AlertId(raw.id) <= cursor)
    ensures Steady(start, rows, begun, raws + [raw], frames, cursor, lastHeartbeat)
  {
    HighestOneMore(start, CaughtUp(rows), raws, raw);
    PassingOneMore(start, CaughtUp(rows), Rows(rows), raws, raw);
    BeatsStay(raws, raw, frames, Connected);
    assert Datas(frames) + [] == Datas(frames);
  }

  /** A message awaited in vain for too long. */
  lemma {:induction false} SteadyBeat(start: int, rows: seq<Alert>, begun: real, raws: seq<Raw>, raw: Raw,
                                      frames: seq<Frame>, cursor: int, lastHeartbeat: real)
    requires Steady(start, rows, begun, raws, frames, cursor, lastHeartbeat)
    requires Silent(raw) && raw.now - lastHeartbeat >= HEARTBEAT
    ensures Steady(start, rows, begun, raws + [raw], frames + [KeepAlive(raw.now)], cursor, raw.now)
  {
    SteadyWithout(start, rows, begun, raws, raw, frames, cursor, lastHeartbeat);
    DatasSnoc(frames, KeepAlive(raw.now));
    PacedSnoc(begun, frames, KeepAlive(raw.now));
    BeatsStay(raws, raw, frames, KeepAlive(raw.now));
  }

  /** A message that is forwarded. */
  lemma {:induction false} SteadyWith(start: int, rows: seq<Alert>, begun: real, raws: seq<Raw>, raw: Raw,
                                      frames: seq<Frame>, cursor: int, lastHeartbeat: real, f: Frame)
    requires Steady(start, rows, begun, raws, frames, cursor, lastHeartbeat) && cursor >= 0
    requires raw.Object? && Passed(cursor, raw) == [f]
    ensures Steady(start, rows, begun, raws + [raw], frames + [f], f.frameId, raw.now)
  {
    HighestOneMore(start, CaughtUp(rows), raws, raw);
    PassingOneMore(start, CaughtUp(rows), Rows(rows), raws, raw);
    DatasSnoc(frames, f);
    PacedSnoc(begun, frames, f);
    OrderedSnoc(start, Datas(frames), cursor, f);
    BeatsStay(raws, raw, frames, f);
  }

  /** One message of the steady state. */
  method Forward(start: int, ghost rows: seq<Alert>, ghost begun: real, ghost raws: seq<Raw>, raw: Raw,
                 frames: seq<Frame>, cursor: int, lastHeartbeat: real)
    returns (frames': seq<Frame>, cursor': int, lastHeartbeat': real)
    requires start >= 0 && Steady(start, rows, begun, raws, frames, cursor, lastHeartbeat)
    ensures Steady(start, rows, begun, raws + [raw], frames', cursor', lastHeartbeat')
    ensures raw.Timeout? || raw.EmptyData? ==> raw.now - lastHeartbeat' < 15.0
  {
    frames', cursor', lastHeartbeat' := frames, cursor, lastHeartbeat;
    if !raw.Object? {
      if Silent(raw) && raw.now - lastHeartbeat >= HEARTBEAT {
        SteadyBeat(start, rows, begun, raws, raw, frames, cursor, lastHeartbeat);
        frames', lastHeartbeat' := frames + [KeepAlive(raw.now)], raw.now;
      } else {
        SteadyWithout(start, rows, begun, raws, raw, frames, cursor, lastHeartbeat);
      }
      return;
    }
    var alertId := AlertId(raw.id);
    if alertId != 0 && alertId <= cursor {
      SteadyWithout(start, rows, begun, raws, raw, frames, cursor, lastHeartbeat);
      return;
    }
    cursor' := if alertId > cursor then alertId else cursor;
    var f := Data(Some(raw.now), if alertId != 0 then alertId else cursor', alertId, raw.body);
    SteadyWith(start, rows, begun, raws, raw, frames, cursor, lastHeartbeat, f);
    frames', lastHeartbeat' := frames + [f], raw.now;
  }

  lemma {:induction false} OpeningDatas(rows: seq<Alert>)
    ensures Datas([Connected] + Rows(rows)) == Rows(rows)
  {
    DatasJoin([Connected], Rows(rows));
    RowsAreDatas(Rows(rows));
    assert Datas([Connected]) == Datas([Connected][..0]) == [];
  }

  lemma {:induction false} NothingHeardYet(start: int, rows: seq<Alert>)
    ensures Rows(rows) + Passing(start, CaughtUp(rows), []) == Rows(rows)
    ensures CaughtUp(rows) + Heard([]) == CaughtUp(rows)
  {
  }

  lemma {:induction false} Opening(start: int, rows: seq<Alert>, begun: real)
    requires Ascending(start, rows)
    ensures Steady(start, rows, begun, [], [Connected] + Rows(rows), LastFrameId(start, Rows(rows)), begun)
  {
    NothingHeardYet(start, rows);
    OpeningDatas(rows);
    HighestOfRows(start, rows);
    RowsAreOrdered(start, rows);
    RowsAreNoBeats(begun, [Connected] + Rows(rows));
  }

  lemma {:induction false} DatasJoin(a: seq<Frame>, b: seq<Frame>)
    ensures Datas(a + b) == Datas(a) + Datas(b)
    decreases |b|
  {
    if b == [] {
      assert a + b == a;
    } else {
      assert (a + b)[..|a + b| - 1] == a + b[..|b| - 1];
      DatasJoin(a, b[..|b| - 1]);
    }
  }

  lemma {:induction false} TakeOneMore<T>(s: seq<T>, i: nat)
    requires i < |s|
    ensures s[..i + 1] == s[..i] + [s[i]]
  {
  }

  /** The steady state: what the channel carries until it fails. */
  method Listen(start: int, ghost rows: seq<Alert>, begun: real, raws: seq<Raw>, frames: seq<Frame>, cursor: int)
    returns (frames': seq<Frame>, cursor': int, lastHeartbeat: real)
    requires start >= 0 && Steady(start, rows, begun, [], frames, cursor, begun)
    ensures Steady(start, rows, begun, raws, frames', cursor', lastHeartbeat)
    ensures raws != [] && (raws[|raws| - 1].Timeout? || raws[|raws| - 1].EmptyData?)
            ==> raws[|raws| - 1].now - lastHeartbeat < 15.0
  {
    frames', cursor', lastHeartbeat := frames, cursor, begun;
    ghost var seen: seq<Raw> := [];
    for i := 0 to |raws|
      invariant seen == raws[..i]
      invariant Steady(start, rows, begun, seen, frames', cursor', lastHeartbeat)
      invariant i > 0 && Silent(raws[i - 1]) ==> raws[i - 1].now - lastHeartbeat < 15.0
    {
      TakeOneMore(raws, i);
      frames', cursor', lastHeartbeat := Forward(start, rows, begun, seen, raws[i], frames', cursor', lastHeartbeat);
      seen := seen + [raws[i]];
    }
    assert seen == raws;
  }

  /**
    One connection: the opening comment, the rows it missed (none if the query raised), then what the
    channel carries until it fails. The listener drops what is not a JSON object.
    */
  method Stream(start: int, catchUp: Option<seq<Alert>>, begun: real, raws: seq<Raw>)
    returns (frames: seq<Frame>, cursor: int)
    requires start >= 0 && (catchUp.Some? ==> Ascending(start, catchUp.value))
    ensures Datas(frames) == Rows(catchUp.GetOr([])) + Passing(start, CaughtUp(catchUp.GetOr([])), raws)
    ensures [Connected] + Rows(catchUp.GetOr([])) <= frames
    ensures cursor == Highest(start, CaughtUp(catchUp.GetOr([])) + Heard(raws)) == LastFrameId(start, Datas(frames))
    ensures Ordered(start, Datas(frames), cursor)
    ensures Paced(begun, frames) && BeatsOnSilence(raws, frames)
    ensures raws != [] && (raws[|raws| - 1].Timeout? || raws[|raws| - 1].EmptyData?)
            ==> raws[|raws| - 1].now - LastBeat(begun, frames) < 15.0
  {
    var rows := catchUp.GetOr([]);
    frames, cursor := CatchUp(start, rows);
    Opening(start, rows, begun);
    var lastHeartbeat;
    frames, cursor, lastHeartbeat := Listen(start, rows, begun, raws, [Connected] + frames, cursor);
  }

  // ------------------------------------------------------------- reconnections

  /** What one connection of a client wrote, from the id it asked for to the id it ended with. */
  datatype Connection = Connection(start: int, datas: seq<Frame>, end: int)

  /** A client reconnects with the id of the last frame it received. */
  ghost predicate Reconnecting(start: int, cs: seq<Connection>) {
    && (cs != [] ==> cs[0].start == start)
    && (forall k | 0 <= k < |cs| ::
          Ordered(cs[k].start, cs[k].datas, cs[k].end) && LastFrameId(cs[k].start, cs[k].datas) == cs[k].end)
    && (forall k | 0 < k < |cs| :: cs[k].start == LastFrameId(cs[k - 1].start, cs[k - 1].datas))
  }

  function Received(cs: seq<Connection>): seq<Frame> {
    if cs == [] then [] else Received(cs[..|cs| - 1]) + cs[|cs| - 1].datas
  }

  function EndOf(start: int, cs: seq<Connection>): int {
    if cs == [] then start else cs[|cs| - 1].end
  }

  /** Over any number of reconnections frame ids never go back and no alert with an id comes twice. */
  lemma {:induction false} ReconnectionsStayOrdered(start: int, cs: seq<Connection>)
    requires Reconnecting(start, cs)
    ensures Ordered(start, Received(cs), EndOf(start, cs))
    decreases |cs|
  {
    if cs != [] {
      var before, last := cs[..|cs| - 1], cs[|cs| - 1];
      ReconnectionsStayOrdered(start, before);
      OrderedJoin(start, Received(before), EndOf(start, before), last.datas, last.end);
    }
  }

  /**
    What the cursor has passed is gone: an alert that some connection ended beyond without forwarding it
    is not forwarded by any later one, so reconnecting does not recover an overtaken alert.
    */
  lemma {:induction false} PassedIsNeverRecovered(start: int, cs: seq<Connection>, k: nat, n: nat, i: nat)
    requires Reconnecting(start, cs) && k < n < |cs| && i < |cs[n].datas| && cs[n].datas[i].alertId != 0
    ensures cs[n].datas[i].alertId > cs[k].end
    decreases n
  {
    assert cs[n].start == cs[n - 1].end;
    if k < n - 1 {
      EndsAscend(start, cs, k, n - 1);
    }
  }

  lemma {:induction false} EndsAscend(start: int, cs: seq<Connection>, k: nat, n: nat)
    requires Reconnecting(start, cs) && k <= n < |cs|
    ensures cs[k].end <= cs[n].end
    decreases n
  {
    if k < n {
      EndsAscend(start, cs, k, n - 1);
      assert cs[n].start == cs[n - 1].end;
    }
  }
}
