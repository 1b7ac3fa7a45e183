/** The stateful worker itself (`src/common/worker/stateful_worker.py` on top of
  * `src/common/worker/worker.py` and `src/common/idempotency/state_log.py`): dictionaries keyed by
  * client that the handlers update in place, the log they append to, and the messages they send.
  * Every handler is proved to do to the flow of its client what `RingNode` and `WorkerLog` say, to
  * leave every other flow alone, and to leave a log from which a crash would recover everything. */
module StatefulWorkers {
  import opened Options
  import opened Ids
  import opened RingNode
  import opened WorkerLog
  import opened ShardedFlush

  datatype Channel = MainChannel | ControlChannel

  const COMPACT_THRESHOLD := 10000

  datatype RingSend = RingSend(dest: nat, client: string, msg: RingMsg)

  datatype DataSend<T> = DataSend(client: string, shard: nat, id: string, items: seq<T>)

  datatype FinalSend = FinalSend(client: string, count: int)

  /** The messages a flush puts on the wire, under ids that name this node and the bucket. */
  function Sends<T>(nodeId: nat, client: string, batches: seq<Batch<T>>): seq<DataSend<T>> {
    seq(|batches|, i requires 0 <= i < |batches| =>
      DataSend(client, batches[i].shard, FlushId(nodeId, client, batches[i].bucket), batches[i].items))
  }

  ghost function WithSeen<S>(f: Flow<S>, ch: Channel, mids: set<string>): Flow<S> {
    f.(node := if ch == MainChannel then f.node.(main := f.node.main + mids)
               else f.node.(control := f.node.control + mids))
  }

  class StatefulWorker<S(!new), D(!new), T> {
    const nodeId: nat
    const ringSize: nat
    const kind: Kind<S, D>
    const sharding: Sharding<T>
    const createItems: S -> seq<T>

    var seen: map<(Channel, string), set<string>>
    var processedCounts: map<string, int>
    var partialProcessedCount: map<string, int>
    var sentCount: map<string, int>
    var partialSentCount: map<string, int>
    var acc: map<string, S>

    var store: seq<Record<D>>
    var appendsSinceCompact: nat

    var sentData: seq<DataSend<T>>
    var sentRing: seq<RingSend>
    var sentFinal: seq<FinalSend>

    ghost var flushed: set<string>
    ghost var cleaned: set<string>

    // --- the abstract view ---

    ghost function SeenOf(ch: Channel, c: string): set<string>
      reads this
    {
      if (ch, c) in seen then seen[(ch, c)] else {}
    }

    static function CountIn(counts: map<string, int>, c: string): int {
      if c in counts then counts[c] else 0
    }

    function CountersOf(c: string): Counters
      reads this
    {
      Counters(CountIn(processedCounts, c), CountIn(partialProcessedCount, c),
               CountIn(sentCount, c), CountIn(partialSentCount, c))
    }

    function StateOf(c: string): S
      reads this
    {
      if c in acc then acc[c] else kind.empty
    }

    ghost function FlowOf(c: string): Flow<S>
      reads this
    {
      Flow(Node(SeenOf(MainChannel, c), SeenOf(ControlChannel, c), CountersOf(c)), StateOf(c))
    }

    /** Any flow with state of its own has been seen on the main channel, so `FlowKeys` covers it. */
    ghost predicate Valid()
      reads this
    {
      && 0 < ringSize && nodeId < ringSize && ValidSharding(sharding) && Restorable(kind)
      && (forall c :: c in acc && acc[c] != kind.empty ==> (MainChannel, c) in seen)
    }

    /** A crash right now would lose nothing. */
    ghost predicate Durable()
      reads this
    {
      forall c :: c !in cleaned ==> Same(FlowOf(c), Recovered(kind, c, store), c in flushed)
    }

    constructor (nodeId: nat, ringSize: nat, kind: Kind<S, D>, sharding: Sharding<T>, createItems: S -> seq<T>)
      requires 0 < ringSize && nodeId < ringSize && ValidSharding(sharding) && Restorable(kind)
      ensures Valid() && Durable() && store == [] && sentData == [] && sentRing == [] && sentFinal == []
      ensures this.nodeId == nodeId && this.ringSize == ringSize && this.kind == kind
      ensures this.sharding == sharding && this.createItems == createItems
      ensures forall c :: FlowOf(c) == EmptyFlow(kind)
    {
      this.nodeId, this.ringSize, this.kind := nodeId, ringSize, kind;
      this.sharding, this.createItems := sharding, createItems;
      seen, acc, store, appendsSinceCompact := map[], map[], [], 0;
      processedCounts, partialProcessedCount, sentCount, partialSentCount := map[], map[], map[], map[];
      sentData, sentRing, sentFinal := [], [], [];
      flushed, cleaned := {}, {};
    }

    // --- counters ---

    /** `_get_total_count` on the processed counters: add what is unreported and report it. */
    method GetTotalProcessedCount(client: string, currentTotal: int) returns (total: int)
      modifies this`partialProcessedCount
      ensures total == currentTotal + old(CountersOf(client)).processed - old(CountersOf(client)).partialProcessed
      ensures partialProcessedCount == old(partialProcessedCount)[client := old(CountersOf(client)).processed]
    {
      var count := CountIn(processedCounts, client);
      var partial := CountIn(partialProcessedCount, client);
      partialProcessedCount := partialProcessedCount[client := count];
      total := currentTotal + count - partial;
    }

    method GetTotalSentCount(client: string, currentTotal: int) returns (total: int)
      modifies this`partialSentCount
      ensures total == currentTotal + old(CountersOf(client)).sent - old(CountersOf(client)).partialSent
      ensures partialSentCount == old(partialSentCount)[client := old(CountersOf(client)).sent]
    {
      var count := CountIn(sentCount, client);
      var partial := CountIn(partialSentCount, client);
      partialSentCount := partialSentCount[client := count];
      total := currentTotal + count - partial;
    }

    // --- flush and cleanup ---

    /** `_flush_sharded`: send every batch of the partition and count it. */
    method FlushSharded(client: string, items: seq<T>) returns (batches: seq<Batch<T>>)
      requires ValidSharding(sharding)
      modifies this`sentData, this`sentCount
      ensures IsFlushOf(sharding, items, batches) && forall s: nat :: Spread(sharding, items, batches, s)
      ensures sentData == old(sentData) + Sends(nodeId, client, batches)
      ensures CountIn(sentCount, client) == CountIn(old(sentCount), client) + |batches|
      ensures forall c :: c != client ==> CountIn(sentCount, c) == CountIn(old(sentCount), c)
    {
      batches := Partition(sharding, items);
      for i := 0 to |batches|
        invariant sentData == old(sentData) + Sends(nodeId, client, batches[..i])
        invariant CountIn(sentCount, client) == CountIn(old(sentCount), client) + i
        invariant forall c :: c != client ==> CountIn(sentCount, c) == CountIn(old(sentCount), c)
      {
        var b := batches[i];
        sentData := sentData + [DataSend(client, b.shard, FlushId(nodeId, client, b.bucket), b.items)];
        sentCount := sentCount[client := CountIn(sentCount, client) + 1];
        assert Sends(nodeId, client, batches[..i + 1]) ==
               Sends(nodeId, client, batches[..i]) + [DataSend(client, b.shard, FlushId(nodeId, client, b.bucket), b.items)];
      }
      assert batches[..|batches|] == batches;
    }

    /** `_flush_data`: pop the flow's state and flush its items. */
    method FlushData(client: string) returns (batches: seq<Batch<T>>)
      requires ValidSharding(sharding)
      modifies this`acc, this`sentData, this`sentCount
      ensures IsFlushOf(sharding, createItems(old(StateOf(client))), batches)
      ensures sentData == old(sentData) + Sends(nodeId, client, batches)
      ensures CountIn(sentCount, client) == CountIn(old(sentCount), client) + |batches|
      ensures forall c :: c != client ==> CountIn(sentCount, c) == CountIn(old(sentCount), c)
      ensures acc == old(acc) - {client}
    {
      var state := StateOf(client);
      acc := acc - {client};
      batches := FlushSharded(client, createItems(state));
    }

    /** `_forget_flow`: drop the flow's seen sets, counters and state. */
    method ForgetFlow(client: string)
      modifies this`seen, this`processedCounts, this`partialProcessedCount, this`sentCount, this`partialSentCount, this`acc
      ensures FlowOf(client) == EmptyFlow(kind)
      ensures forall c :: c != client ==> FlowOf(c) == old(FlowOf(c))
      ensures old(Valid()) ==> Valid()
    {
      seen := map k | k in seen && k.1 != client :: seen[k];
      processedCounts, partialProcessedCount := processedCounts - {client}, partialProcessedCount - {client};
      sentCount, partialSentCount := sentCount - {client}, partialSentCount - {client};
      acc := acc - {client};
    }

    // --- the log ---

    /** `_flow_keys`: every flow with a seen set or a counter. */
    method FlowKeys() returns (keys: set<string>)
      requires Valid()
      ensures forall c :: FlowOf(c) != EmptyFlow(kind) ==> c in keys
    {
      keys := (set k | k in seen.Keys :: k.1) + partialProcessedCount.Keys + processedCounts.Keys
              + sentCount.Keys + partialSentCount.Keys;
      forall c | c !in keys ensures FlowOf(c) == EmptyFlow(kind) {
        assert (MainChannel, c) !in seen && (ControlChannel, c) !in seen;
      }
    }

    /** `_snapshot_flow`. */
    method SnapshotFlow(client: string) returns (record: Record<D>)
      ensures record == SnapshotRecord(kind, client, FlowOf(client))
    {
      var main := if (MainChannel, client) in seen then seen[(MainChannel, client)] else {};
      var control := if (ControlChannel, client) in seen then seen[(ControlChannel, client)] else {};
      record := Snapshot(client, main, control, kind.asDelta(StateOf(client)), CountersOf(client));
    }

    /** `_compact`: replace the log by one snapshot per flow. Nothing recoverable is lost or gained. */
    method Compact()
      requires Valid()
      modifies this`store, this`appendsSinceCompact
      ensures forall c :: Recovered(kind, c, store) == FlowOf(c)
      ensures appendsSinceCompact == 0
    {
      var keys := FlowKeys();
      ghost var all := keys;
      var records: seq<Record<D>> := [];
      while keys != {}
        invariant keys <= all
        invariant forall c :: Recovered(kind, c, records) == if c in all && c !in keys then FlowOf(c) else EmptyFlow(kind)
        decreases keys
      {
        var c :| c in keys;
        keys := keys - {c};
        var record := SnapshotFlow(c);
        forall x ensures Recovered(kind, x, records + [record]) ==
          if x in all && x !in keys then FlowOf(x) else EmptyFlow(kind)
        {
          AppendRecovers(kind, x, records, record);
        }
        records := records + [record];
      }
      store := records;
      appendsSinceCompact := 0;
    }

    /** `append` followed by `_note_append`: the record is logged; every so often the log is compacted. */
    method Append(record: Record<D>)
      requires Valid()
      modifies this`store, this`appendsSinceCompact
      ensures store == old(store) + [record] || forall c :: Recovered(kind, c, store) == FlowOf(c)
      ensures old(appendsSinceCompact) + 1 < 10000 ==>
        store == old(store) + [record] && appendsSinceCompact == old(appendsSinceCompact) + 1
      ensures old(appendsSinceCompact) + 1 >= 10000 ==>
        (forall c :: Recovered(kind, c, store) == FlowOf(c)) && appendsSinceCompact == 0
    {
      store := store + [record];
      appendsSinceCompact := appendsSinceCompact + 1;
      if appendsSinceCompact >= COMPACT_THRESHOLD {
        appendsSinceCompact := 0;
        Compact();
      }
    }

    /** `self._seen.setdefault((ch, client), set()).update(mids)`. */
    method AddSeen(ch: Channel, client: string, mids: set<string>)
      modifies this`seen
      ensures FlowOf(client) == WithSeen(old(FlowOf(client)), ch, mids)
      ensures forall c :: c != client ==> FlowOf(c) == old(FlowOf(c))
      ensures old(Valid()) ==> Valid()
      ensures ch == MainChannel ==> (MainChannel, client) in seen
      ensures (MainChannel, client) in old(seen) ==> (MainChannel, client) in seen
    {
      var before := if (ch, client) in seen then seen[(ch, client)] else {};
      seen := seen[(ch, client) := before + mids];
    }

    /** `_restore_snapshot`. */
    method RestoreSnapshot(c: string, main: set<string>, control: set<string>, state: Option<D>, counters: Counters)
      requires Valid()
      modifies this`seen, this`processedCounts, this`partialProcessedCount, this`sentCount, this`partialSentCount, this`acc
      ensures Valid()
      ensures FlowOf(c) == Replay(kind, old(FlowOf(c)), Snapshot(c, main, control, state, counters))
      ensures forall x :: x != c ==> FlowOf(x) == old(FlowOf(x))
    {
      AddSeen(MainChannel, c, main);
      AddSeen(ControlChannel, c, control);
      if state.Some? { acc := acc[c := kind.apply(StateOf(c), state.value)]; }
      RestoreCounters(c, counters);
    }

    method RestoreCounters(c: string, counters: Counters)
      modifies this`processedCounts, this`partialProcessedCount, this`sentCount, this`partialSentCount
      ensures CountersOf(c) == counters
      ensures forall x :: x != c ==> CountersOf(x) == old(CountersOf(x))
    {
      processedCounts := processedCounts[c := counters.processed];
      partialProcessedCount := partialProcessedCount[c := counters.partialProcessed];
      sentCount := sentCount[c := counters.sent];
      partialSentCount := partialSentCount[c := counters.partialSent];
    }

    /** A data or EOF record of the main channel. */
    method ReplayMain(c: string, mid: string, delta: Option<Delta<D>>)
      requires Valid()
      modifies this`seen, this`processedCounts, this`sentCount, this`acc
      ensures Valid()
      ensures FlowOf(c) == Replay(kind, old(FlowOf(c)), Main(c, mid, delta))
      ensures forall x :: x != c ==> FlowOf(x) == old(FlowOf(x))
    {
      AddSeen(MainChannel, c, {mid});
      if delta.Some? {
        acc := acc[c := kind.apply(StateOf(c), delta.value.state)];
        sentCount := sentCount[c := CountIn(sentCount, c) + delta.value.sends];
        processedCounts := processedCounts[c := CountIn(processedCounts, c) + 1];
      }
    }

    /** A record of the control channel: the id, if any, and `_restore_control_state`. */
    method ReplayControl(c: string, cid: Option<string>, pp: int, sent: int, ps: int)
      requires Valid()
      modifies this`seen, this`partialProcessedCount, this`sentCount, this`partialSentCount
      ensures Valid()
      ensures FlowOf(c) == Replay(kind, old(FlowOf(c)), Control(c, cid, pp, sent, ps))
      ensures forall x :: x != c ==> FlowOf(x) == old(FlowOf(x))
    {
      if cid.Some? { AddSeen(ControlChannel, c, {cid.value}); }
      partialProcessedCount := partialProcessedCount[c := pp];
      sentCount := sentCount[c := sent];
      partialSentCount := partialSentCount[c := ps];
    }

    /** `_replay_record`. */
    method ReplayRecord(record: Record<D>)
      requires Valid()
      modifies this`seen, this`processedCounts, this`partialProcessedCount, this`sentCount, this`partialSentCount, this`acc
      ensures Valid()
      ensures FlowOf(record.client) == Replay(kind, old(FlowOf(record.client)), record)
      ensures forall c :: c != record.client ==> FlowOf(c) == old(FlowOf(c))
    {
      match record
      case Cleanup(c) => ForgetFlow(c);
      case Snapshot(c, main, control, state, counters) => RestoreSnapshot(c, main, control, state, counters);
      case Main(c, mid, delta) => ReplayMain(c, mid, delta);
      case Control(c, cid, pp, sent, ps) => ReplayControl(c, cid, pp, sent, ps);
    }

    /** A crash wipes the memory; `_recover` replays the log and compacts it. Every flow that was not
      * cleaned up is back as it was (a flushed one possibly with its state rebuilt). */
    method CrashAndRecover()
      requires Valid() && Durable()
      modifies this
      ensures Valid() && Durable() && flushed == old(flushed) && cleaned == old(cleaned)
      ensures forall c :: FlowOf(c) == Recovered(kind, c, old(store))
      ensures forall c :: c !in cleaned ==> Same(old(FlowOf(c)), FlowOf(c), c in flushed)
      ensures sentData == old(sentData) && sentRing == old(sentRing) && sentFinal == old(sentFinal)
    {
      ReplayLog();
      if store != [] { Compact(); }
    }

    method ReplayLog()
      requires Valid()
      modifies this`seen, this`acc, this`appendsSinceCompact, this`processedCounts, this`partialProcessedCount,
               this`sentCount, this`partialSentCount
      ensures Valid()
      ensures forall c :: FlowOf(c) == Recovered(kind, c, store)
    {
      hide Recovered, Replay;
      seen, acc, appendsSinceCompact := map[], map[], 0;
      processedCounts, partialProcessedCount, sentCount, partialSentCount := map[], map[], map[], map[];
      forall c ensures FlowOf(c) == Recovered(kind, c, store[..0]) { NothingRecovered(kind, c, store); }
      for i := 0 to |store|
        invariant Valid()
        invariant forall c :: FlowOf(c) == Recovered(kind, c, store[..i])
      {
        ReplayRecord(store[i]);
        forall c ensures FlowOf(c) == Recovered(kind, c, store[..i + 1]) {
          AppendRecovers(kind, c, store[..i], store[i]);
          assert store[..i + 1] == store[..i] + [store[i]];
        }
      }
      assert store[..|store|] == store;
    }

    // --- the handlers ---

    /** Log a record of one flow. The log stays recoverable if the record replays what the flow has
      * just gone through; every other flow is untouched by it. */
    method LogFor(client: string, record: Record<D>)
      requires Valid() && record.client == client
      requires forall c :: c != client && c !in cleaned ==> Same(FlowOf(c), Recovered(kind, c, store), c in flushed)
      requires client !in cleaned ==>
        Same(FlowOf(client), Replay(kind, Recovered(kind, client, store), record), client in flushed)
      modifies this`store, this`appendsSinceCompact
      ensures Durable()
      ensures client in cleaned ==> forall c :: c != client && c !in cleaned ==> Same(FlowOf(c), Recovered(kind, c, store), c in flushed)
    {
      forall c | c !in cleaned ensures Same(FlowOf(c), Recovered(kind, c, store + [record]), c in flushed) {
        AppendRecovers(kind, c, store, record);
      }
      Append(record);
    }

    /** The token an EOF starts: what this node has not reported yet. */
    method StartRing(client: string, expected: int)
      requires Valid()
      modifies this`partialProcessedCount, this`partialSentCount, this`sentRing
      ensures FlowOf(client) == Flow(Node(old(SeenOf(MainChannel, client)), old(SeenOf(ControlChannel, client)),
                                          Reported(old(CountersOf(client)))), old(StateOf(client)))
      ensures forall c :: c != client ==> FlowOf(c) == old(FlowOf(c))
      ensures sentRing == old(sentRing) +
        [RingSend(NextNode(nodeId, ringSize), client, StartToken(client, old(CountersOf(client)), expected))]
    {
      var totalProcessed := GetTotalProcessedCount(client, 0);
      var phase := if expected == CLEANUP_EXPECTED_COUNT then RING_PHASE_CLEANUP else RING_PHASE_COUNT;
      var totalSent := GetTotalSentCount(client, 0);
      sentRing := sentRing + [RingSend(NextNode(nodeId, ringSize), client,
        RingMsg(RingId(client, phase, 0), RingEof(expected, totalProcessed, None, Some(totalSent))))];
    }

    /** `_handle_eof_message`. */
    method HandleEofMessage(client: string, expected: int)
      requires Valid() && Durable()
      modifies this`partialProcessedCount, this`partialSentCount, this`sentRing, this`store, this`appendsSinceCompact
      ensures Valid() && Durable()
      ensures FlowOf(client) == Flow(Node(old(SeenOf(MainChannel, client)), old(SeenOf(ControlChannel, client)),
                                          Reported(old(CountersOf(client)))), old(StateOf(client)))
      ensures forall c :: c != client ==> FlowOf(c) == old(FlowOf(c))
      ensures sentRing == old(sentRing) +
        [RingSend(NextNode(nodeId, ringSize), client, StartToken(client, old(CountersOf(client)), expected))]
    {
      hide RingId, Recovered, StartToken;
      StartRing(client, expected);
      LogFor(client, Control(client, None, CountIn(partialProcessedCount, client),
                             CountIn(sentCount, client), CountIn(partialSentCount, client)));
    }

    /** `_handle_data_message` of a worker: update its state, count the message and its sends. */
    method HandleDataMessage(client: string, delta: Delta<D>)
      requires Valid() && (MainChannel, client) in seen
      modifies this`acc, this`processedCounts, this`sentCount
      ensures Valid()
      ensures FlowOf(client) == Flow(Node(old(SeenOf(MainChannel, client)), old(SeenOf(ControlChannel, client)),
                                          CountersAfterData(old(CountersOf(client)), delta.sends)),
                                     kind.apply(old(StateOf(client)), delta.state))
      ensures forall c :: c != client ==> FlowOf(c) == old(FlowOf(c))
    {
      acc := acc[client := kind.apply(StateOf(client), delta.state)];
      sentCount := sentCount[client := CountIn(sentCount, client) + delta.sends];
      processedCounts := processedCounts[client := CountIn(processedCounts, client) + 1];
    }

    /** `seen = self._seen.setdefault((ch, client), set())` and `mid in seen`. */
    method Seen(ch: Channel, client: string, mid: string) returns (duplicate: bool)
      requires Valid()
      modifies this`seen
      ensures Valid() && (ch, client) in seen && duplicate == (mid in old(SeenOf(ch, client)))
      ensures forall c :: FlowOf(c) == old(FlowOf(c))
    {
      if (ch, client) !in seen { seen := seen[(ch, client) := {}]; }
      duplicate := mid in seen[(ch, client)];
    }

    /** `_handle_message`, data: drop a duplicate; otherwise process, remember and log it. */
    method HandleData(client: string, mid: string, delta: Delta<D>)
      requires Valid() && Durable()
      modifies this`seen, this`acc, this`processedCounts, this`sentCount, this`store, this`appendsSinceCompact
      ensures Valid() && Durable()
      ensures FlowOf(client) == if mid in old(SeenOf(MainChannel, client)) then old(FlowOf(client))
                                else LiveData(kind, old(FlowOf(client)), mid, delta)
      ensures forall c :: c != client ==> FlowOf(c) == old(FlowOf(c))
      ensures mid in old(SeenOf(MainChannel, client)) ==> store == old(store)
    {
      hide Recovered;
      var duplicate := Seen(MainChannel, client, mid);
      if duplicate { return; }
      HandleDataMessage(client, delta);
      AddSeen(MainChannel, client, {mid});
      assert FlowOf(client) == LiveData(kind, old(FlowOf(client)), mid, delta);
      LogFor(client, Main(client, mid, Some(delta)));
    }

    /** `_handle_message`, EOF: drop a duplicate; otherwise start the ring, remember and log it. */
    method HandleEof(client: string, mid: string, expected: int)
      requires Valid() && Durable()
      modifies this`seen, this`partialProcessedCount, this`partialSentCount, this`sentRing, this`store, this`appendsSinceCompact
      ensures Valid() && Durable()
      ensures FlowOf(client) == if mid in old(SeenOf(MainChannel, client)) then old(FlowOf(client))
                                else LiveEof(old(FlowOf(client)), mid)
      ensures forall c :: c != client ==> FlowOf(c) == old(FlowOf(c))
      ensures sentRing == old(sentRing) + if mid in old(SeenOf(MainChannel, client)) then [] else
        [RingSend(NextNode(nodeId, ringSize), client, StartToken(client, old(CountersOf(client)), expected))]
    {
      hide RingId, Recovered, StartToken;
      var duplicate := Seen(MainChannel, client, mid);
      if duplicate { return; }
      HandleEofMessage(client, expected);
      AddSeen(MainChannel, client, {mid});
      LogFor(client, Main(client, mid, None));
    }

    /** `_update_ring_eof`: report both counters into the token and see whether that is all. */
    method ReportToRing(client: string, eof: RingEof) returns (updated: RingEof)
      requires Valid()
      modifies this`partialProcessedCount, this`partialSentCount
      ensures updated == UpdateRingEof(nodeId, old(CountersOf(client)), eof)
      ensures FlowOf(client) == old(FlowOf(client)).(node := old(FlowOf(client)).node.(counters := Reported(old(CountersOf(client)))))
      ensures forall c :: c != client ==> FlowOf(c) == old(FlowOf(c))
    {
      var totalProcessed := GetTotalProcessedCount(client, eof.totalProcessed);
      var coordinator := if totalProcessed >= eof.expected then Some(nodeId) else None;
      var totalSent := GetTotalSentCount(client, eof.totalSent.GetOr(0));
      updated := RingEof(eof.expected, totalProcessed, coordinator, Some(totalSent));
    }

    /** A node's turn in the flush round: flush, then report the sends. */
    method FlushAndReport(client: string, eof: RingEof) returns (updated: RingEof, batches: seq<Batch<T>>)
      requires Valid()
      modifies this`acc, this`sentData, this`sentCount, this`partialSentCount
      ensures Valid()
      ensures IsFlushOf(sharding, createItems(old(StateOf(client))), batches)
      ensures sentData == old(sentData) + Sends(nodeId, client, batches)
      ensures FlowOf(client) == Flow(old(FlowOf(client)).node.(counters := Flushed(old(CountersOf(client)), |batches|)), kind.empty)
      ensures forall c :: c != client ==> FlowOf(c) == old(FlowOf(c))
      ensures var c := old(CountersOf(client));
        updated == eof.(totalSent := Some(eof.totalSent.GetOr(0) + c.sent + |batches| - c.partialSent))
    {
      hide IsFlushOf, Sends;
      batches := FlushData(client);
      var totalSent := GetTotalSentCount(client, eof.totalSent.GetOr(0));
      updated := eof.(totalSent := Some(totalSent));
    }

    /** `_cleanup_flow`. */
    method CleanupFlow(client: string)
      requires Valid()
      modifies this`seen, this`processedCounts, this`partialProcessedCount, this`sentCount, this`partialSentCount, this`acc,
               this`store, this`cleaned
      ensures Valid()
      ensures FlowOf(client) == EmptyFlow(kind)
      ensures forall c :: c != client ==> FlowOf(c) == old(FlowOf(c))
      ensures store == old(store) + [Cleanup(client)] && cleaned == old(cleaned) + {client}
    {
      ForgetFlow(client);
      store := store + [Cleanup(client)];
      cleaned := cleaned + {client};
    }

    /** The answer to a ring token has been sent, and nothing else. */
    twostate predicate Answered(client: string, outcome: Outcome)
      reads this
    {
      match outcome
      case Forward(msg) =>
        0 < ringSize && sentFinal == old(sentFinal) &&
        sentRing == old(sentRing) + [RingSend(NextNode(nodeId, ringSize), client, msg)]
      case FinalEof(count) => sentRing == old(sentRing) && sentFinal == old(sentFinal) + [FinalSend(client, count)]
    }

    /** A token without coordinator: report, and become coordinator or pass the token on. */
    method CountTurn(client: string, msg: RingMsg) returns (answer: RingMsg)
      requires Valid() && msg.eof.coordinator.None?
      modifies this`partialProcessedCount, this`partialSentCount
      ensures Valid()
      ensures FlowOf(client) == old(FlowOf(client)).(node := old(FlowOf(client)).node.(counters := Reported(old(CountersOf(client)))))
      ensures forall c :: c != client ==> FlowOf(c) == old(FlowOf(c))
      ensures TokenOutcome(nodeId, client, old(CountersOf(client)), msg, 0) == Forward(answer)
    {
      hide RingId, RingSeqOf;
      var cleanup := msg.eof.expected == CLEANUP_EXPECTED_COUNT;
      var eof := ReportToRing(client, msg.eof);
      var outId: string;
      if eof.coordinator == Some(nodeId) {
        var phase := if cleanup then RING_PHASE_CLEANUP else RING_PHASE_FLUSH;
        outId := RingId(client, phase, if cleanup then RingSeqOf(msg.id) + 1 else 0);
      } else {
        outId := RingId(client, RING_PHASE_COUNT, RingSeqOf(msg.id) + 1);
      }
      answer := RingMsg(outId, eof);
    }

    /** A token with a coordinator: the flush round or the cleanup round visits this node. */
    method ActionTurn(client: string, msg: RingMsg) returns (answer: Outcome, batches: seq<Batch<T>>)
      requires Valid() && msg.eof.coordinator.Some?
      modifies this`seen, this`processedCounts, this`partialProcessedCount, this`sentCount, this`partialSentCount, this`acc,
               this`store, this`cleaned, this`flushed, this`sentData
      ensures Valid()
      ensures FlowOf(client) ==
        if IsCleanup(msg.eof) then EmptyFlow(kind)
        else Flow(old(FlowOf(client)).node.(counters := Flushed(old(CountersOf(client)), |batches|)), kind.empty)
      ensures forall c :: c != client ==> FlowOf(c) == old(FlowOf(c))
      ensures if IsCleanup(msg.eof) then batches == [] else IsFlushOf(sharding, createItems(old(StateOf(client))), batches)
      ensures sentData == old(sentData) + Sends(nodeId, client, batches)
      ensures answer == TokenOutcome(nodeId, client, old(CountersOf(client)), msg, |batches|)
      ensures msg.eof.expected == -1 && msg.eof.coordinator == Some(nodeId) ==> answer == FinalEof(-1)
      ensures store == old(store) + if IsCleanup(msg.eof) then [Cleanup(client)] else []
      ensures cleaned == old(cleaned) + if IsCleanup(msg.eof) then {client} else {}
      ensures flushed == old(flushed) + if IsCleanup(msg.eof) then {} else {client}
    {
      hide IsFlushOf, RingId, RingSeqOf;
      var eof := msg.eof;
      var cleanup := eof.expected == CLEANUP_EXPECTED_COUNT;
      if cleanup {
        batches := [];
        CleanupFlow(client);
      } else {
        eof, batches := FlushAndReport(client, eof);
        flushed := flushed + {client};
      }
      if eof.coordinator == Some(nodeId) {
        answer := FinalEof(if cleanup then CLEANUP_EXPECTED_COUNT else eof.totalSent.GetOr(0));
      } else {
        var phase := if cleanup then RING_PHASE_CLEANUP else RING_PHASE_FLUSH;
        answer := Forward(RingMsg(RingId(client, phase, RingSeqOf(msg.id) + 1), eof));
      }
    }

    /** `_handle_control_eof_message`: count and elect, or flush (or clean up) and pass on or finish. */
    method HandleControlEofMessage(client: string, msg: RingMsg) returns (batches: seq<Batch<T>>)
      requires Valid()
      modifies this`seen, this`processedCounts, this`partialProcessedCount, this`sentCount, this`partialSentCount, this`acc,
               this`store, this`cleaned, this`flushed, this`sentData, this`sentRing, this`sentFinal
      ensures Valid()
      ensures FlowOf(client) ==
        if IsCleanupRound(msg) then EmptyFlow(kind)
        else Flow(old(FlowOf(client)).node.(counters := CountersAfterToken(old(CountersOf(client)), msg, |batches|)),
                  if IsFlush(msg) then kind.empty else old(StateOf(client)))
      ensures forall c :: c != client ==> FlowOf(c) == old(FlowOf(c))
      ensures if IsFlush(msg) then IsFlushOf(sharding, createItems(old(StateOf(client))), batches) else batches == []
      ensures sentData == old(sentData) + Sends(nodeId, client, batches)
      ensures Answered(client, TokenOutcome(nodeId, client, old(CountersOf(client)), msg, |batches|))
      ensures msg.eof.expected == -1 && msg.eof.coordinator == Some(nodeId) ==>
        sentFinal == old(sentFinal) + [FinalSend(client, -1)] && sentRing == old(sentRing) && sentData == old(sentData)
      ensures store == old(store) + if IsCleanupRound(msg) then [Cleanup(client)] else []
      ensures cleaned == old(cleaned) + if IsCleanupRound(msg) then {client} else {}
      ensures flushed == old(flushed) + if IsFlush(msg) then {client} else {}
    {
      hide IsFlushOf, TokenOutcome;
      var answer: Outcome;
      if msg.eof.coordinator.None? {
        batches := [];
        var m := CountTurn(client, msg);
        answer := Forward(m);
      } else {
        answer, batches := ActionTurn(client, msg);
      }
      match answer
      case Forward(m) => sentRing := sentRing + [RingSend(NextNode(nodeId, ringSize), client, m)];
      case FinalEof(count) => sentFinal := sentFinal + [FinalSend(client, count)];
      assert batches == [] ==> Sends(nodeId, client, batches) == [];
    }

    /** After a cleanup the token's record is logged behind the cleanup's own. */
    method LogCleanup(client: string, cid: string, ghost before: seq<Record<D>>)
      requires Valid() && client in cleaned && store == before + [Cleanup(client)]
      requires forall c :: c !in cleaned ==> Same(FlowOf(c), Recovered(kind, c, before), c in flushed)
      modifies this`store, this`appendsSinceCompact
      ensures Durable()
    {
      hide Replay;
      forall c ensures c != client ==> Recovered(kind, c, store) == Recovered(kind, c, before) {
        AppendRecovers(kind, c, before, Cleanup(client));
      }
      LogFor(client, Control(client, Some(cid), CountIn(partialProcessedCount, client),
                             CountIn(sentCount, client), CountIn(partialSentCount, client)));
    }

    /** Remember a ring token's id and log the counters it left. */
    method LogToken(client: string, msg: RingMsg, ghost before: Flow<S>, ghost wasFlushed: bool, batches: nat)
      requires Valid() && !IsCleanupRound(msg)
      requires forall c :: c != client && c !in cleaned ==> Same(FlowOf(c), Recovered(kind, c, store), c in flushed)
      requires client !in cleaned ==> Same(before, Recovered(kind, client, store), wasFlushed)
      requires (client in flushed) == (wasFlushed || IsFlush(msg))
      requires WithSeen(FlowOf(client), ControlChannel, {msg.id}) == LiveToken(kind, before, msg, batches)
      modifies this`seen, this`store, this`appendsSinceCompact
      ensures Valid() && Durable()
      ensures FlowOf(client) == LiveToken(kind, before, msg, batches)
      ensures forall c :: c != client ==> FlowOf(c) == old(FlowOf(c))
    {
      AddSeen(ControlChannel, client, {msg.id});
      var record := Control(client, Some(msg.id), CountIn(partialProcessedCount, client),
                            CountIn(sentCount, client), CountIn(partialSentCount, client));
      TokenReplays(kind, before, if client in cleaned then before else Recovered(kind, client, store),
                   wasFlushed, client, msg, batches);
      hide Replay, Recovered, LiveToken;
      LogFor(client, record);
    }

    /** `_handle_control_message`: drop a duplicate token; otherwise handle, remember and log it. */
    method HandleControlMessage(client: string, msg: RingMsg) returns (batches: seq<Batch<T>>)
      requires Valid() && Durable()
      modifies this
      ensures Valid() && Durable()
      ensures forall c :: c != client ==> FlowOf(c) == old(FlowOf(c))
      ensures msg.id in old(SeenOf(ControlChannel, client)) ==>
        && FlowOf(client) == old(FlowOf(client)) && store == old(store) && batches == []
        && sentData == old(sentData) && sentRing == old(sentRing) && sentFinal == old(sentFinal)
        && flushed == old(flushed) && cleaned == old(cleaned)
      ensures msg.id !in old(SeenOf(ControlChannel, client)) ==>
        && FlowOf(client) == (if IsCleanupRound(msg) then EmptyFlow(kind) else LiveToken(kind, old(FlowOf(client)), msg, |batches|))
        && (if IsFlush(msg) then IsFlushOf(sharding, createItems(old(StateOf(client))), batches) else batches == [])
        && sentData == old(sentData) + Sends(nodeId, client, batches)
        && Answered(client, TokenOutcome(nodeId, client, old(CountersOf(client)), msg, |batches|))
        && (msg.eof.expected == -1 && msg.eof.coordinator == Some(nodeId) ==>
              sentFinal == old(sentFinal) + [FinalSend(client, -1)])
        && flushed == old(flushed) + (if IsFlush(msg) then {client} else {})
        && cleaned == old(cleaned) + (if IsCleanupRound(msg) then {client} else {})
    {
      hide IsFlushOf, Sends, TokenOutcome, Recovered, CountersAfterToken, LiveToken, Replay;
      var duplicate := Seen(ControlChannel, client, msg.id);
      assert SeenOf(ControlChannel, client) == FlowOf(client).node.control == old(FlowOf(client)).node.control;
      if duplicate { batches := []; } else { batches := TakeToken(client, msg); }
    }

    /** The same for a token that is not a duplicate. */
    method TakeToken(client: string, msg: RingMsg) returns (batches: seq<Batch<T>>)
      requires Valid() && Durable() && msg.id !in SeenOf(ControlChannel, client)
      modifies this
      ensures Valid() && Durable()
      ensures forall c :: c != client ==> FlowOf(c) == old(FlowOf(c))
      ensures FlowOf(client) == if IsCleanupRound(msg) then EmptyFlow(kind) else LiveToken(kind, old(FlowOf(client)), msg, |batches|)
      ensures if IsFlush(msg) then IsFlushOf(sharding, createItems(old(StateOf(client))), batches) else batches == []
      ensures sentData == old(sentData) + Sends(nodeId, client, batches)
      ensures Answered(client, TokenOutcome(nodeId, client, old(CountersOf(client)), msg, |batches|))
      ensures msg.eof.expected == -1 && msg.eof.coordinator == Some(nodeId) ==>
        sentFinal == old(sentFinal) + [FinalSend(client, -1)]
      ensures flushed == old(flushed) + if IsFlush(msg) then {client} else {}
      ensures cleaned == old(cleaned) + if IsCleanupRound(msg) then {client} else {}
    {
      hide IsFlushOf, Sends, TokenOutcome, Recovered, CountersAfterToken;
      batches := HandleControlEofMessage(client, msg);
      if msg.eof.coordinator.Some? && msg.eof.expected == CLEANUP_EXPECTED_COUNT {
        // the handler adds the id to the set that the cleanup has detached from the dictionary
        LogCleanup(client, msg.id, old(store));
      } else {
        assert store == old(store) && cleaned == old(cleaned);
        LogToken(client, msg, old(FlowOf(client)), client in old(flushed), |batches|);
      }
    }
  }
}
