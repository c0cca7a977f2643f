/**
  Consumer-group delivery: streams, one group, and any number of workers that only ever ask for entries
  never delivered before. A worker is one incarnation of a process, from its start to its end; several can carry
  one consumer name. The log of a stream holds entry ids; what an entry carries does not matter here.
  */
module ConsumerGroup {

  datatype Ref = Ref(stream: string, id: int)

  datatype Delivery = Delivery(worker: nat, ref: Ref)

  /** The entries of the worker's current read and how many of them it has handled and acknowledged. */
  datatype Worker = Worker(read: seq<Ref>, handled: nat, live: bool)

  /** One stream as the group sees it: what is stored, the largest id ever stored, the last id delivered. */
  datatype Log = Log(ids: seq<int>, top: int, last: int)

  /** Pending entries with their owner, acknowledged entries, and every delivery ever made. */
  datatype State = State(
    logs: map<string, Log>,
    pending: map<Ref, nat>,
    acked: set<Ref>,
    deliveries: seq<Delivery>,
    workers: map<nat, Worker>)

  datatype Config = Config(streams: seq<string>, count: nat)

  const START := State(map[], map[], {}, [], map[])

  // ------------------------------------------------------------------------ reading

  /** The first stored id that the group has not delivered. */
  function FirstFresh(ids: seq<int>, last: int): (f: nat)
    ensures f <= |ids|
    ensures f < |ids| ==> ids[f] > last
    ensures forall i | 0 <= i < f :: ids[i] <= last
  {
    if ids == [] || ids[0] > last then 0 else 1 + FirstFresh(ids[1..], last)
  }

  function DeliverOne(s: State, w: nat, stream: string): State {
    if stream !in s.logs || w !in s.workers then s
    else
      var log := s.logs[stream];
      var f := FirstFresh(log.ids, log.last);
      if f == |log.ids| then s
      else
        var ref := Ref(stream, log.ids[f]);
        s.(logs := s.logs[stream := log.(last := log.ids[f])],
           pending := s.pending[ref := w],
           deliveries := s.deliveries + [Delivery(w, ref)],
           workers := s.workers[w := s.workers[w].(read := s.workers[w].read + [ref])])
  }

  /** Up to n entries of one stream. */
  function DeliverUpTo(s: State, w: nat, stream: string, n: nat): State {
    if n == 0 then s else DeliverOne(DeliverUpTo(s, w, stream, n - 1), w, stream)
  }

  /** Up to `count` entries of each stream, in one step. */
  function DeliverAll(s: State, w: nat, streams: seq<string>, count: nat): State {
    if streams == [] then s
    else DeliverUpTo(DeliverAll(s, w, streams[..|streams| - 1], count), w, streams[|streams| - 1], count)
  }

  /** The keys of the dictionary that a read is given: each configured stream once. */
  function Keys(streams: seq<string>): (keys: seq<string>)
    ensures forall st :: st in keys <==> st in streams
    ensures forall i, j | 0 <= i < j < |keys| :: keys[i] != keys[j]
  {
    if streams == [] then []
    else
      var before, last := streams[..|streams| - 1], streams[|streams| - 1];
      assert streams == before + [last];
      if last in before then Keys(before) else Keys(before) + [last]
  }

  // ------------------------------------------------------------------------ steps

  datatype Event =
    | Publish(stream: string, id: int, trimmed: nat)
    | EnsureGroup(stream: string)
    | Begin(worker: nat)
    | Read(worker: nat)
    | Handle(worker: nat)
    | Stop(worker: nat)
    | Crash(worker: nat)

  predicate Live(s: State, w: nat) {
    w in s.workers && s.workers[w].live
  }

  predicate Enabled(s: State, e: Event) {
    match e
    case Publish(stream, id, trimmed) => stream in s.logs ==> id > s.logs[stream].top && trimmed <= |s.logs[stream].ids|
    case EnsureGroup(stream) => stream !in s.logs
    case Begin(w) => w !in s.workers
    case Read(w) => Live(s, w) && s.workers[w].handled == |s.workers[w].read|
    case Handle(w) => Live(s, w) && s.workers[w].handled < |s.workers[w].read|
    // The flag is looked at before each read and after each handled message.
    case Stop(w) => Live(s, w) && (s.workers[w].handled > 0 || s.workers[w].read == [])
    case Crash(w) => Live(s, w)
  }

  /**
    The group is created at the end of its stream: what was stored before is never delivered, so a stream
    enters the state with its group, empty. Storing may trim the oldest entries, delivered or not.
    */
  function Apply(cfg: Config, s: State, e: Event): State {
    match e
    case Publish(stream, id, trimmed) =>
      if stream !in s.logs then s
      else
        var log := s.logs[stream];
        if trimmed > |log.ids| then s
        else s.(logs := s.logs[stream := Log(log.ids[trimmed..] + [id], id, log.last)])
    case EnsureGroup(stream) => s.(logs := s.logs[stream := Log([], 0, 0)])
    case Begin(w) => s.(workers := s.workers[w := Worker([], 0, true)])
    case Read(w) =>
      if w !in s.workers then s
      else DeliverAll(s.(workers := s.workers[w := Worker([], 0, true)]), w, Keys(cfg.streams), cfg.count)
    case Handle(w) =>
      if w !in s.workers || s.workers[w].handled >= |s.workers[w].read| then s
      else
        var worker := s.workers[w];
        var ref := worker.read[worker.handled];
        s.(pending := s.pending - {ref}, acked := s.acked + {ref},
           workers := s.workers[w := worker.(handled := worker.handled + 1)])
    case Stop(w) => if w !in s.workers then s else s.(workers := s.workers[w := s.workers[w].(live := false)])
    case Crash(w) => if w !in s.workers then s else s.(workers := s.workers[w := s.workers[w].(live := false)])
  }

  function After(cfg: Config, events: seq<Event>): State {
    if events == [] then START else Apply(cfg, After(cfg, events[..|events| - 1]), events[|events| - 1])
  }

  /** Every event could happen when it did. */
  ghost predicate Legal(cfg: Config, events: seq<Event>) {
    events == []
    || (Legal(cfg, events[..|events| - 1]) && Enabled(After(cfg, events[..|events| - 1]), events[|events| - 1]))
  }

  // -------------------------------------------------------------------- invariants

  ghost predicate LogOk(log: Log) {
    && (forall i, j | 0 <= i < j < |log.ids| :: log.ids[i] < log.ids[j])
    && (forall i | 0 <= i < |log.ids| :: log.ids[i] <= log.top)
    && log.last <= log.top
  }

  ghost predicate LogsOk(logs: map<string, Log>) {
    forall st | st in logs :: LogOk(logs[st])
  }

  /** Deliveries of a stream ascend and none is beyond the last delivered id. */
  ghost predicate Ascending(deliveries: seq<Delivery>, logs: map<string, Log>) {
    && (forall i, j | 0 <= i < j < |deliveries| && deliveries[i].ref.stream == deliveries[j].ref.stream ::
          deliveries[i].ref.id < deliveries[j].ref.id)
    && (forall i | 0 <= i < |deliveries| ::
          deliveries[i].ref.stream in logs && deliveries[i].ref.id <= logs[deliveries[i].ref.stream].last)
  }

  ghost predicate Delivered(deliveries: seq<Delivery>, ref: Ref) {
    exists i :: 0 <= i < |deliveries| && deliveries[i].ref == ref
  }

  /** Every delivered entry is pending or acknowledged, not both, and nothing else is. */
  ghost predicate Partition(deliveries: seq<Delivery>, pending: map<Ref, nat>, acked: set<Ref>) {
    && (forall ref | ref in pending :: ref !in acked)
    && (forall ref :: Delivered(deliveries, ref) <==> ref in pending || ref in acked)
  }

  /** What the worker has not handled of its current read. */
  function Rest(worker: Worker): seq<Ref> {
    if worker.handled <= |worker.read| then worker.read[worker.handled..] else []
  }

  /** What a worker has pending is exactly the unhandled rest of its last read. */
  ghost predicate OwnsRest(pending: map<Ref, nat>, w: nat, worker: Worker) {
    && worker.handled <= |worker.read|
    && (forall i, j | 0 <= i < j < |worker.read| :: worker.read[i] != worker.read[j])
    && (forall ref :: ref in pending && pending[ref] == w <==> ref in worker.read[worker.handled..])
  }

  ghost predicate WorkersOk(pending: map<Ref, nat>, workers: map<nat, Worker>) {
    && (forall ref | ref in pending :: pending[ref] in workers)
    && (forall w | w in workers :: OwnsRest(pending, w, workers[w]))
  }

  ghost predicate ReadsOk(deliveries: seq<Delivery>, workers: map<nat, Worker>) {
    forall w, ref | w in workers && ref in workers[w].read :: Delivered(deliveries, ref)
  }

  ghost predicate Inv(s: State) {
    && LogsOk(s.logs)
    && Ascending(s.deliveries, s.logs)
    && Partition(s.deliveries, s.pending, s.acked)
    && WorkersOk(s.pending, s.workers)
    && ReadsOk(s.deliveries, s.workers)
  }

  // ------------------------------------------------------------ one entry delivered

  lemma {:induction false} FreshIsNew(s: State, stream: string, id: int)
    requires Inv(s) && stream in s.logs && id > s.logs[stream].last
    ensures !Delivered(s.deliveries, Ref(stream, id))
    ensures Ref(stream, id) !in s.pending && Ref(stream, id) !in s.acked
  {
    assert Delivered(s.deliveries, Ref(stream, id)) <==> Ref(stream, id) in s.pending || Ref(stream, id) in s.acked;
  }

  lemma {:induction false} DeliveredOneMore(deliveries: seq<Delivery>, d: Delivery, ref: Ref)
    ensures Delivered(deliveries + [d], ref) <==> Delivered(deliveries, ref) || d.ref == ref
  {
    var more := deliveries + [d];
    if Delivered(deliveries, ref) {
      var i :| 0 <= i < |deliveries| && deliveries[i].ref == ref;
      assert more[i].ref == ref;
    }
    if d.ref == ref {
      assert more[|deliveries|].ref == ref;
    }
  }

  lemma {:induction false} PartitionOneMore(deliveries: seq<Delivery>, pending: map<Ref, nat>, acked: set<Ref>,
      d: Delivery)
    requires Partition(deliveries, pending, acked) && d.ref !in acked
    ensures Partition(deliveries + [d], pending[d.ref := d.worker], acked)
  {
    forall ref
      ensures Delivered(deliveries + [d], ref) <==> ref in pending[d.ref := d.worker] || ref in acked
    {
      DeliveredOneMore(deliveries, d, ref);
    }
  }

  lemma {:induction false} ReadsOneMore(deliveries: seq<Delivery>, workers: map<nat, Worker>, d: Delivery)
    requires ReadsOk(deliveries, workers) && d.worker in workers
    ensures ReadsOk(deliveries + [d], workers[d.worker := workers[d.worker].(read := workers[d.worker].read + [d.ref])])
  {
    var workers' := workers[d.worker := workers[d.worker].(read := workers[d.worker].read + [d.ref])];
    forall w, ref | w in workers' && ref in workers'[w].read
      ensures Delivered(deliveries + [d], ref)
    {
      DeliveredOneMore(deliveries, d, ref);
      assert ref == d.ref || ref in workers[w].read;
    }
  }

  lemma {:induction false} RestOneMore(pending: map<Ref, nat>, w: nat, worker: Worker, ref: Ref)
    requires OwnsRest(pending, w, worker) && ref !in pending && ref !in worker.read
    ensures OwnsRest(pending[ref := w], w, worker.(read := worker.read + [ref]))
  {
    assert (worker.read + [ref])[worker.handled..] == worker.read[worker.handled..] + [ref];
  }

  lemma {:induction false} WorkersOneMore(pending: map<Ref, nat>, workers: map<nat, Worker>, w: nat, ref: Ref)
    requires WorkersOk(pending, workers) && w in workers && workers[w].live
    requires ref !in pending && ref !in workers[w].read
    ensures WorkersOk(pending[ref := w], workers[w := workers[w].(read := workers[w].read + [ref])])
  {
    RestOneMore(pending, w, workers[w], ref);
    var workers' := workers[w := workers[w].(read := workers[w].read + [ref])];
    forall v | v in workers' && v != w
      ensures OwnsRest(pending[ref := w], v, workers'[v])
    {
      assert OwnsRest(pending, v, workers[v]);
      assert ref !in workers[v].read[workers[v].handled..];
    }
  }

  lemma {:induction false} AscendingOneMore(deliveries: seq<Delivery>, logs: map<string, Log>, stream: string,
      w: nat, id: int)
    requires Ascending(deliveries, logs) && stream in logs && id > logs[stream].last
    ensures Ascending(deliveries + [Delivery(w, Ref(stream, id))], logs[stream := logs[stream].(last := id)])
  {
  }

  lemma {:induction false} NewDeliveryKeepsInv(s: State, w: nat, stream: string, id: int)
    requires Inv(s) && Live(s, w) && stream in s.logs && s.logs[stream].last < id <= s.logs[stream].top
    ensures var ref := Ref(stream, id);
            Inv(s.(logs := s.logs[stream := s.logs[stream].(last := id)],
                   pending := s.pending[ref := w],
                   deliveries := s.deliveries + [Delivery(w, ref)],
                   workers := s.workers[w := s.workers[w].(read := s.workers[w].read + [ref])]))
  {
    FreshIsNew(s, stream, id);
    NewIsUnread(s, w, Ref(stream, id));
    PartitionOneMore(s.deliveries, s.pending, s.acked, Delivery(w, Ref(stream, id)));
    ReadsOneMore(s.deliveries, s.workers, Delivery(w, Ref(stream, id)));
    WorkersOneMore(s.pending, s.workers, w, Ref(stream, id));
    AscendingOneMore(s.deliveries, s.logs, stream, w, id);
    assert LogOk(s.logs[stream].(last := id));
  }

  lemma {:induction false} NewIsUnread(s: State, w: nat, ref: Ref)
    requires ReadsOk(s.deliveries, s.workers) && w in s.workers && !Delivered(s.deliveries, ref)
    ensures ref !in s.workers[w].read
  {
  }

  lemma {:induction false} DeliverOneKeepsInv(s: State, w: nat, stream: string)
    requires Inv(s) && Live(s, w)
    ensures Inv(DeliverOne(s, w, stream)) && Live(DeliverOne(s, w, stream), w)
    ensures var r := DeliverOne(s, w, stream);
            r.workers[w].handled == s.workers[w].handled && |r.workers[w].read| <= |s.workers[w].read| + 1
  {
    if stream in s.logs {
      var log := s.logs[stream];
      var f := FirstFresh(log.ids, log.last);
      if f < |log.ids| {
        assert LogOk(log);
        NewDeliveryKeepsInv(s, w, stream, log.ids[f]);
      }
    }
  }

  lemma {:induction false} DeliverUpToKeepsInv(s: State, w: nat, stream: string, n: nat)
    requires Inv(s) && Live(s, w)
    ensures Inv(DeliverUpTo(s, w, stream, n)) && Live(DeliverUpTo(s, w, stream, n), w)
    ensures var r := DeliverUpTo(s, w, stream, n);
            r.workers[w].handled == s.workers[w].handled && |r.workers[w].read| <= |s.workers[w].read| + n
  {
    if n > 0 {
      DeliverUpToKeepsInv(s, w, stream, n - 1);
      DeliverOneKeepsInv(DeliverUpTo(s, w, stream, n - 1), w, stream);
    }
  }

  /** The most entries that one read can return. */
  function Capacity(streams: nat, count: nat): nat {
    streams * count
  }

  lemma {:induction false} OneMoreStream(streams: nat, count: nat)
    ensures Capacity(streams + 1, count) == Capacity(streams, count) + count
  {
  }

  lemma {:induction false} DeliverAllKeepsInv(s: State, w: nat, streams: seq<string>, count: nat)
    requires Inv(s) && Live(s, w)
    ensures Inv(DeliverAll(s, w, streams, count)) && Live(DeliverAll(s, w, streams, count), w)
    ensures var r := DeliverAll(s, w, streams, count);
            r.workers[w].handled == s.workers[w].handled
            && |r.workers[w].read| <= |s.workers[w].read| + Capacity(|streams|, count)
    decreases |streams|
  {
    if streams != [] {
      var before := streams[..|streams| - 1];
      DeliverAllKeepsInv(s, w, before, count);
      DeliverUpToKeepsInv(DeliverAll(s, w, before, count), w, streams[|streams| - 1], count);
      OneMoreStream(|before|, count);
    }
  }

  // ------------------------------------------------------------------- every event

  lemma {:induction false} FreshReadKeepsInv(s: State, w: nat)
    requires Inv(s) && Enabled(s, Read(w))
    ensures Inv(s.(workers := s.workers[w := Worker([], 0, true)]))
  {
    assert OwnsRest(s.pending, w, s.workers[w]);
    assert OwnsRest(s.pending, w, Worker([], 0, true));
  }

  lemma {:induction false} HandleKeepsRest(pending: map<Ref, nat>, w: nat, worker: Worker)
    requires OwnsRest(pending, w, worker) && worker.handled < |worker.read|
    ensures OwnsRest(pending - {worker.read[worker.handled]}, w, worker.(handled := worker.handled + 1))
  {
    var h := worker.handled;
    assert worker.read[h..] == [worker.read[h]] + worker.read[h + 1..];
    assert forall i | h + 1 <= i < |worker.read| :: worker.read[i] != worker.read[h];
    assert worker.read[h] !in worker.read[h + 1..];
  }

  lemma {:induction false} HandleKeepsWorkers(pending: map<Ref, nat>, workers: map<nat, Worker>, w: nat)
    requires WorkersOk(pending, workers) && w in workers && workers[w].live && workers[w].handled < |workers[w].read|
    ensures WorkersOk(pending - {workers[w].read[workers[w].handled]},
                      workers[w := workers[w].(handled := workers[w].handled + 1)])
  {
    var ref := workers[w].read[workers[w].handled];
    var pending' := pending - {ref};
    var workers' := workers[w := workers[w].(handled := workers[w].handled + 1)];
    HandleKeepsRest(pending, w, workers[w]);
    assert ref in workers[w].read[workers[w].handled..];
    forall v | v in workers' && v != w
      ensures OwnsRest(pending', v, workers'[v])
    {
      assert OwnsRest(pending, v, workers[v]);
    }
  }

  lemma {:induction false} AckKeepsPartition(deliveries: seq<Delivery>, pending: map<Ref, nat>, acked: set<Ref>,
      ref: Ref)
    requires Partition(deliveries, pending, acked) && ref in pending
    ensures Partition(deliveries, pending - {ref}, acked + {ref})
  {
  }

  lemma {:induction false} HandleKeepsReads(deliveries: seq<Delivery>, workers: map<nat, Worker>, w: nat,
      worker: Worker)
    requires ReadsOk(deliveries, workers) && w in workers && worker.read == workers[w].read
    ensures ReadsOk(deliveries, workers[w := worker])
  {
  }

  lemma {:induction false} HandleKeepsInv(s: State, w: nat)
    requires Inv(s) && Enabled(s, Handle(w))
    ensures var worker := s.workers[w];
            var ref := worker.read[worker.handled];
            Inv(s.(pending := s.pending - {ref}, acked := s.acked + {ref},
                   workers := s.workers[w := worker.(handled := worker.handled + 1)]))
  {
    var worker := s.workers[w];
    var ref := worker.read[worker.handled];
    HandleKeepsWorkers(s.pending, s.workers, w);
    HandleKeepsReads(s.deliveries, s.workers, w, worker.(handled := worker.handled + 1));
    assert OwnsRest(s.pending, w, worker);
    assert ref in worker.read[worker.handled..];
    AckKeepsPartition(s.deliveries, s.pending, s.acked, ref);
  }

  lemma {:induction false} PublishKeepsInv(s: State, stream: string, log: Log)
    requires Inv(s) && stream in s.logs && LogOk(log) && log.last == s.logs[stream].last
    ensures Inv(s.(logs := s.logs[stream := log]))
  {
  }

  lemma {:induction false} BeginKeepsInv(s: State, w: nat)
    requires Inv(s) && w !in s.workers
    ensures Inv(s.(workers := s.workers[w := Worker([], 0, true)]))
  {
    assert OwnsRest(s.pending, w, Worker([], 0, true));
  }

  lemma {:induction false} LeavingKeepsInv(s: State, w: nat)
    requires Inv(s) && w in s.workers
    ensures Inv(s.(workers := s.workers[w := s.workers[w].(live := false)]))
  {
  }

  lemma {:induction false} StepKeepsInv(cfg: Config, s: State, e: Event)
    requires Inv(s) && Enabled(s, e)
    ensures Inv(Apply(cfg, s, e))
  {
    match e
    case Publish(stream, id, trimmed) =>
      if stream in s.logs {
        var log := s.logs[stream];
        PublishKeepsInv(s, stream, Log(log.ids[trimmed..] + [id], id, log.last));
      }
    case EnsureGroup(stream) =>
    case Begin(w) => BeginKeepsInv(s, w);
    case Read(w) =>
      FreshReadKeepsInv(s, w);
      DeliverAllKeepsInv(s.(workers := s.workers[w := Worker([], 0, true)]), w, Keys(cfg.streams), cfg.count);
    case Handle(w) => HandleKeepsInv(s, w);
    case Stop(w) => LeavingKeepsInv(s, w);
    case Crash(w) => LeavingKeepsInv(s, w);
  }

  lemma {:induction false} RunKeepsInv(cfg: Config, events: seq<Event>)
    requires Legal(cfg, events)
    ensures Inv(After(cfg, events))
    decreases |events|
  {
    if events != [] {
      RunKeepsInv(cfg, events[..|events| - 1]);
      StepKeepsInv(cfg, After(cfg, events[..|events| - 1]), events[|events| - 1]);
    }
  }

  // ----------------------------------------------------------- handing out a read

  /** What an entry carries: no data field, data that is not JSON, or a payload. */
  datatype Data = Missing | Unreadable | Payload(text: string)

  datatype Entry = Entry(ref: Ref, data: Data)

  /** What happens to an entry of a read, in order: handed to the worker, or acknowledged and dropped. */
  datatype Handout = Yielded(ref: Ref, text: string) | Dropped(ref: Ref)

  /** Every entry of the read is handed out or dropped, once and in order, and dropped exactly if it has no payload. */
  ghost predicate HandsOut(entries: seq<Entry>, handouts: seq<Handout>) {
    && |handouts| == |entries|
    && forall i | 0 <= i < |entries| ::
         && handouts[i].ref == entries[i].ref
         && (handouts[i].Yielded? <==> entries[i].data.Payload?)
         && (handouts[i].Yielded? ==> handouts[i].text == entries[i].data.text)
  }

  /** All entries of a response, stream by stream. */
  function AllEntries(response: seq<seq<Entry>>): seq<Entry> {
    if response == [] then [] else AllEntries(response[..|response| - 1]) + response[|response| - 1]
  }

  /** The inner loops of the consumer over one response. */
  method HandOut(response: seq<seq<Entry>>) returns (handouts: seq<Handout>)
    ensures HandsOut(AllEntries(response), handouts)
  {
    handouts := [];
    for st := 0 to |response|
      invariant HandsOut(AllEntries(response[..st]), handouts)
    {
      var more := HandOutStream(response[st]);
      handouts := handouts + more;
      assert response[..st + 1][..st] == response[..st];
    }
    assert response[..|response|] == response;
  }

  method HandOutStream(entries: seq<Entry>) returns (handouts: seq<Handout>)
    ensures HandsOut(entries, handouts)
  {
    handouts := [];
    for k := 0 to |entries|
      invariant HandsOut(entries[..k], handouts)
    {
      var e := entries[k];
      handouts := handouts + [if e.data.Payload? then Yielded(e.ref, e.data.text) else Dropped(e.ref)];
    }
  }

  // ------------------------------------------------------------------ what follows

  /** Over every run each entry is delivered to at most one worker, once, and deliveries of a stream ascend. */
  lemma {:induction false} DeliveredAtMostOnce(cfg: Config, events: seq<Event>, i: nat, j: nat)
    requires Legal(cfg, events) && i < j < |After(cfg, events).deliveries|
    ensures var ds := After(cfg, events).deliveries;
            ds[i].ref != ds[j].ref && (ds[i].ref.stream == ds[j].ref.stream ==> ds[i].ref.id < ds[j].ref.id)
  {
    RunKeepsInv(cfg, events);
  }

  /** Over every run what a worker has pending, live or gone, is exactly the unhandled rest of its last read. */
  lemma {:induction false} PendingIsUnhandledRest(cfg: Config, events: seq<Event>, w: nat, ref: Ref)
    requires Legal(cfg, events) && w in After(cfg, events).workers
    ensures var s := After(cfg, events);
            ref in s.pending && s.pending[ref] == w <==> ref in Rest(s.workers[w])
  {
    RunKeepsInv(cfg, events);
    assert OwnsRest(After(cfg, events).pending, w, After(cfg, events).workers[w]);
  }

  /** The consumer name of each incarnation; a restarted container can have its host and process number again. */
  type Naming = nat -> string

  /** Under a consumer name is pending what any of its incarnations, past or present, has not handled. */
  lemma {:induction false} PendingUnderName(cfg: Config, events: seq<Event>, naming: Naming, name: string, ref: Ref)
    requires Legal(cfg, events)
    ensures var s := After(cfg, events);
            ref in s.pending && naming(s.pending[ref]) == name
            <==> exists w | w in s.workers && naming(w) == name :: ref in Rest(s.workers[w])
  {
    RunKeepsInv(cfg, events);
    var s := After(cfg, events);
    if ref in s.pending {
      PendingIsUnhandledRest(cfg, events, s.pending[ref], ref);
    }
    forall w | w in s.workers && ref in Rest(s.workers[w])
      ensures ref in s.pending && s.pending[ref] == w
    {
      PendingIsUnhandledRest(cfg, events, w, ref);
    }
  }

  /** A worker works from its beginning until it stops or crashes, and never again. */
  lemma {:induction false} LiveExactly(cfg: Config, events: seq<Event>, w: nat)
    requires Legal(cfg, events)
    ensures w in After(cfg, events).workers <==> Begin(w) in events
    ensures Stop(w) in events || Crash(w) in events ==> Begin(w) in events
    ensures Live(After(cfg, events), w) <==> Begin(w) in events && Stop(w) !in events && Crash(w) !in events
    decreases |events|
  {
    if events != [] {
      var before, e := events[..|events| - 1], events[|events| - 1];
      assert events == before + [e];
      LiveExactly(cfg, before, w);
      StepMovesLife(cfg, before, e, w);
    }
  }

  lemma {:induction false} StepMovesLife(cfg: Config, before: seq<Event>, e: Event, w: nat)
    requires Legal(cfg, before) && Enabled(After(cfg, before), e)
    ensures var s, t := After(cfg, before), Apply(cfg, After(cfg, before), e);
            && (w in t.workers <==> w in s.workers || e == Begin(w))
            && (Live(t, w) <==> (Live(s, w) && e != Stop(w) && e != Crash(w)) || e == Begin(w))
  {
    var s := After(cfg, before);
    if e.Read? {
      var restarted := s.(workers := s.workers[e.worker := Worker([], 0, true)]);
      RunKeepsInv(cfg, before);
      FreshReadKeepsInv(s, e.worker);
      DeliverAllKeepsInv(restarted, e.worker, Keys(cfg.streams), cfg.count);
      if w != e.worker {
        DeliverAllKeepsOthers(restarted, e.worker, Keys(cfg.streams), cfg.count, w);
      }
    }
  }

  /** Every delivered entry is pending or acknowledged, never both. */
  lemma {:induction false} DeliveredIsPendingOrAcked(cfg: Config, events: seq<Event>, ref: Ref)
    requires Legal(cfg, events)
    ensures var s := After(cfg, events);
            && (Delivered(s.deliveries, ref) <==> ref in s.pending || ref in s.acked)
            && !(ref in s.pending && ref in s.acked)
  {
    RunKeepsInv(cfg, events);
  }

  ghost predicate ReadsBounded(cfg: Config, s: State) {
    forall w | w in s.workers :: |s.workers[w].read| <= Capacity(|Keys(cfg.streams)|, cfg.count)
  }

  lemma {:induction false} DeliverOneKeepsOthers(s: State, w: nat, stream: string, v: nat)
    requires v != w
    ensures v in DeliverOne(s, w, stream).workers <==> v in s.workers
    ensures v in s.workers ==> DeliverOne(s, w, stream).workers[v] == s.workers[v]
  {
  }

  lemma {:induction false} DeliverUpToKeepsOthers(s: State, w: nat, stream: string, n: nat, v: nat)
    requires v != w
    ensures v in DeliverUpTo(s, w, stream, n).workers <==> v in s.workers
    ensures v in s.workers ==> DeliverUpTo(s, w, stream, n).workers[v] == s.workers[v]
  {
    if n > 0 {
      DeliverUpToKeepsOthers(s, w, stream, n - 1, v);
      DeliverOneKeepsOthers(DeliverUpTo(s, w, stream, n - 1), w, stream, v);
    }
  }

  lemma {:induction false} DeliverAllKeepsOthers(s: State, w: nat, streams: seq<string>, count: nat, v: nat)
    requires v != w
    ensures v in DeliverAll(s, w, streams, count).workers <==> v in s.workers
    ensures v in s.workers ==> DeliverAll(s, w, streams, count).workers[v] == s.workers[v]
    decreases |streams|
  {
    if streams != [] {
      var before := streams[..|streams| - 1];
      DeliverAllKeepsOthers(s, w, before, count, v);
      DeliverUpToKeepsOthers(DeliverAll(s, w, before, count), w, streams[|streams| - 1], count, v);
    }
  }

  lemma {:induction false} ReadKeepsBounds(cfg: Config, s: State, w: nat)
    requires Inv(s) && ReadsBounded(cfg, s) && Enabled(s, Read(w))
    ensures ReadsBounded(cfg, Apply(cfg, s, Read(w)))
  {
    var restarted := s.(workers := s.workers[w := Worker([], 0, true)]);
    FreshReadKeepsInv(s, w);
    DeliverAllKeepsInv(restarted, w, Keys(cfg.streams), cfg.count);
    forall v | v in Apply(cfg, s, Read(w)).workers && v != w
      ensures |Apply(cfg, s, Read(w)).workers[v].read| <= Capacity(|Keys(cfg.streams)|, cfg.count)
    {
      DeliverAllKeepsOthers(restarted, w, Keys(cfg.streams), cfg.count, v);
    }
  }

  lemma {:induction false} RunKeepsBounds(cfg: Config, events: seq<Event>)
    requires Legal(cfg, events)
    ensures ReadsBounded(cfg, After(cfg, events))
    decreases |events|
  {
    if events != [] {
      var before, e := events[..|events| - 1], events[|events| - 1];
      RunKeepsBounds(cfg, before);
      RunKeepsInv(cfg, before);
      if e.Read? {
        ReadKeepsBounds(cfg, After(cfg, before), e.worker);
      }
    }
  }

  /** A graceful stop strands fewer entries than one read can return: at least one was handled first. */
  lemma {:induction false} GracefulStopStrands(cfg: Config, events: seq<Event>, w: nat)
    requires Legal(cfg, events) && Enabled(After(cfg, events), Stop(w))
    requires cfg.streams != [] && cfg.count >= 1
    ensures var s := After(cfg, events);
            var stranded := Rest(s.workers[w]);
            && |stranded| < |Keys(cfg.streams)| * cfg.count
            && forall ref :: ref in s.pending && s.pending[ref] == w <==> ref in stranded
  {
    RunKeepsInv(cfg, events);
    RunKeepsBounds(cfg, events);
    var s := After(cfg, events);
    assert OwnsRest(s.pending, w, s.workers[w]);
    assert cfg.streams[0] in Keys(cfg.streams);
    CapacityIsPositive(|Keys(cfg.streams)|, cfg.count);
  }

  lemma {:induction false} CapacityIsPositive(streams: nat, count: nat)
    requires streams >= 1 && count >= 1
    ensures Capacity(streams, count) >= 1
  {
    OneMoreStream(streams - 1, count);
  }

  // --------------------------------------------------------- nobody takes over

  /** The entry is pending for a worker that is gone. */
  ghost predicate Stranded(s: State, w: nat, ref: Ref) {
    w in s.workers && !s.workers[w].live && ref in s.pending && s.pending[ref] == w
  }

  lemma {:induction false} DeliverOneLeavesStranded(s: State, v: nat, stream: string, w: nat, ref: Ref)
    requires Inv(s) && Live(s, v) && Stranded(s, w, ref)
    ensures Stranded(DeliverOne(s, v, stream), w, ref)
  {
    if stream in s.logs {
      var log := s.logs[stream];
      var f := FirstFresh(log.ids, log.last);
      if f < |log.ids| {
        FreshIsNew(s, stream, log.ids[f]);
      }
    }
  }

  lemma {:induction false} DeliverUpToLeavesStranded(s: State, v: nat, stream: string, n: nat, w: nat, ref: Ref)
    requires Inv(s) && Live(s, v) && Stranded(s, w, ref)
    ensures Stranded(DeliverUpTo(s, v, stream, n), w, ref)
  {
    if n > 0 {
      DeliverUpToLeavesStranded(s, v, stream, n - 1, w, ref);
      DeliverUpToKeepsInv(s, v, stream, n - 1);
      DeliverOneLeavesStranded(DeliverUpTo(s, v, stream, n - 1), v, stream, w, ref);
    }
  }

  lemma {:induction false} DeliverAllLeavesStranded(s: State, v: nat, streams: seq<string>, count: nat, w: nat,
      ref: Ref)
    requires Inv(s) && Live(s, v) && Stranded(s, w, ref)
    ensures Stranded(DeliverAll(s, v, streams, count), w, ref)
    decreases |streams|
  {
    if streams != [] {
      var before := streams[..|streams| - 1];
      DeliverAllLeavesStranded(s, v, before, count, w, ref);
      DeliverAllKeepsInv(s, v, before, count);
      DeliverUpToLeavesStranded(DeliverAll(s, v, before, count), v, streams[|streams| - 1], count, w, ref);
    }
  }

  lemma {:induction false} HandleLeavesStranded(s: State, v: nat, w: nat, ref: Ref)
    requires Inv(s) && Enabled(s, Handle(v)) && Stranded(s, w, ref)
    ensures s.workers[v].read[s.workers[v].handled] != ref && v != w
  {
    var worker := s.workers[v];
    assert OwnsRest(s.pending, v, worker);
    assert worker.read[worker.handled] in worker.read[worker.handled..];
  }

  lemma {:induction false} ReadLeavesStranded(cfg: Config, s: State, v: nat, w: nat, ref: Ref)
    requires Inv(s) && Enabled(s, Read(v)) && Stranded(s, w, ref)
    ensures Stranded(Apply(cfg, s, Read(v)), w, ref)
  {
    var restarted := s.(workers := s.workers[v := Worker([], 0, true)]);
    FreshReadKeepsInv(s, v);
    assert Stranded(restarted, w, ref);
    DeliverAllLeavesStranded(restarted, v, Keys(cfg.streams), cfg.count, w, ref);
  }

  lemma {:induction false} StepLeavesStranded(cfg: Config, s: State, e: Event, w: nat, ref: Ref)
    requires Inv(s) && Enabled(s, e) && Stranded(s, w, ref)
    ensures Stranded(Apply(cfg, s, e), w, ref)
  {
    match e
    case Read(v) => ReadLeavesStranded(cfg, s, v, w, ref);
    case Handle(v) => HandleLeavesStranded(s, v, w, ref);
    case _ =>
  }

  /** Once its worker is gone a pending entry stays pending for it for good: no peer is ever given it. */
  lemma {:induction false} NobodyTakesOver(cfg: Config, events: seq<Event>, more: seq<Event>, w: nat, ref: Ref)
    requires Legal(cfg, events + more) && Stranded(After(cfg, events), w, ref)
    ensures Stranded(After(cfg, events + more), w, ref)
    decreases |more|
  {
    var all := events + more;
    if more == [] {
      assert all == events;
    } else {
      var before := events + more[..|more| - 1];
      assert all[..|all| - 1] == before;
      NobodyTakesOver(cfg, events, more[..|more| - 1], w, ref);
      RunKeepsInv(cfg, before);
      StepLeavesStranded(cfg, After(cfg, before), all[|all| - 1], w, ref);
    }
  }

  /** Not even a later incarnation under the same name: the entry is in no read of its own. */
  lemma {:induction false} ReusedNameDoesNotRecover(cfg: Config, events: seq<Event>, more: seq<Event>, naming: Naming,
      w: nat, v: nat, ref: Ref)
    requires Legal(cfg, events + more) && Stranded(After(cfg, events), w, ref)
    requires Live(After(cfg, events + more), v) && naming(v) == naming(w)
    ensures var s := After(cfg, events + more);
            && ref !in Rest(s.workers[v])
            && ref in s.pending && naming(s.pending[ref]) == naming(v)
  {
    NobodyTakesOver(cfg, events, more, w, ref);
    PendingIsUnhandledRest(cfg, events + more, v, ref);
  }
}
