/** The write-ahead log of a stateful worker (`src/common/idempotency/state_log.py`,
  * `src/common/worker/worker.py`, `src/common/worker/stateful_worker.py`): what handling a message
  * does to the worker's memory, what it logs, and what replaying the log rebuilds. */
module WorkerLog {
  import opened Collections
  import opened Options
  import opened RingNode

  /** A worker's own state: how a logged delta is applied, and the whole state written as one
    * delta (None for a worker that keeps no state). */
  datatype Kind<!S, !D> = Kind(empty: S, apply: (S, D) -> S, asDelta: S -> Option<D>)

  /** Snapshots are lossless: applying a state's delta to the empty state gives the state back. */
  ghost predicate Restorable<S(!new), D>(kind: Kind<S, D>) {
    forall s: S :: match kind.asDelta(s)
      case None => s == kind.empty
      case Some(d) => kind.apply(kind.empty, d) == s
  }

  /** What a data message contributes: to the state, and how many messages its handling sends
    * (nonzero only for a worker that sends while processing). */
  datatype Delta<D> = Delta(state: D, sends: nat)

  datatype Flow<S> = Flow(node: Node, acc: S)

  ghost function EmptyFlow<S, D>(kind: Kind<S, D>): Flow<S> { Flow(NO_NODE, kind.empty) }

  /** The records of the log. A data record has a delta, an EOF record has none; a control record
    * written when a ring is started carries no message id. */
  datatype Record<D> =
    | Main(client: string, mid: string, delta: Option<Delta<D>>)
    | Control(client: string, cid: Option<string>, partialProcessed: int, sent: int, partialSent: int)
    | Snapshot(client: string, main: set<string>, control: set<string>, state: Option<D>, counters: Counters)
    | Cleanup(client: string)

  // --- live handling ---

  ghost function LiveData<S, D>(kind: Kind<S, D>, f: Flow<S>, mid: string, d: Delta<D>): Flow<S> {
    Flow(Node(f.node.main + {mid}, f.node.control, CountersAfterData(f.node.counters, d.sends)),
         kind.apply(f.acc, d.state))
  }

  ghost function LiveEof<S>(f: Flow<S>, mid: string): Flow<S> {
    Flow(Node(f.node.main + {mid}, f.node.control, Reported(f.node.counters)), f.acc)
  }

  ghost predicate IsFlush(msg: RingMsg) { msg.eof.coordinator.Some? && !IsCleanup(msg.eof) }

  ghost predicate IsCleanupRound(msg: RingMsg) { msg.eof.coordinator.Some? && IsCleanup(msg.eof) }

  /** A ring token that does not clean up. A flush empties the worker's state. */
  ghost function LiveToken<S, D>(kind: Kind<S, D>, f: Flow<S>, msg: RingMsg, batches: nat): Flow<S> {
    Flow(Node(f.node.main, f.node.control + {msg.id}, CountersAfterToken(f.node.counters, msg, batches)),
         if IsFlush(msg) then kind.empty else f.acc)
  }

  ghost function ControlRecord<D>(client: string, cid: Option<string>, c: Counters): Record<D> {
    Control(client, cid, c.partialProcessed, c.sent, c.partialSent)
  }

  ghost function SnapshotRecord<S, D>(kind: Kind<S, D>, client: string, f: Flow<S>): Record<D> {
    Snapshot(client, f.node.main, f.node.control, kind.asDelta(f.acc), f.node.counters)
  }

  // --- replay ---

  ghost function Replay<S, D>(kind: Kind<S, D>, f: Flow<S>, r: Record<D>): Flow<S> {
    match r
    case Main(_, mid, None) => f.(node := f.node.(main := f.node.main + {mid}))
    case Main(_, mid, Some(d)) =>
      Flow(f.node.(main := f.node.main + {mid}, counters := CountersAfterData(f.node.counters, d.sends)),
           kind.apply(f.acc, d.state))
    case Control(_, cid, pp, s, ps) =>
      f.(node := f.node.(control := f.node.control + (if cid.Some? then {cid.value} else {}),
                         counters := f.node.counters.(partialProcessed := pp, sent := s, partialSent := ps)))
    case Snapshot(_, main, control, state, counters) =>
      Flow(Node(f.node.main + main, f.node.control + control, counters),
           if state.Some? then kind.apply(f.acc, state.value) else f.acc)
    case Cleanup(_) => EmptyFlow(kind)
  }

  /** What replaying the log rebuilds for one flow. */
  ghost function Recovered<S, D>(kind: Kind<S, D>, client: string, wal: seq<Record<D>>): Flow<S> {
    if wal == [] then EmptyFlow(kind)
    else
      var before, r := Recovered(kind, client, wal[..|wal| - 1]), wal[|wal| - 1];
      if r.client == client then Replay(kind, before, r) else before
  }

  /** Equality of a live and a recovered flow: everything, except that a flow that has been flushed
    * may have its (no longer needed) state rebuilt. */
  ghost predicate Same<S>(live: Flow<S>, recovered: Flow<S>, flushed: bool) {
    live.node == recovered.node && (!flushed ==> live.acc == recovered.acc)
  }

  // --- single steps ---

  lemma AppendRecovers<S, D>(kind: Kind<S, D>, client: string, wal: seq<Record<D>>, r: Record<D>)
    ensures Recovered(kind, client, wal + [r]) ==
      if r.client == client then Replay(kind, Recovered(kind, client, wal), r) else Recovered(kind, client, wal)
  {
    assert (wal + [r])[..|wal|] == wal;
  }

  lemma NothingRecovered<S, D>(kind: Kind<S, D>, client: string, wal: seq<Record<D>>)
    ensures Recovered(kind, client, wal[..0]) == EmptyFlow(kind)
  {
  }

  /** Each handler logs a record whose replay does what the handler did. */
  lemma DataReplays<S, D>(kind: Kind<S, D>, live: Flow<S>, recovered: Flow<S>, flushed: bool,
                          client: string, mid: string, d: Delta<D>)
    requires Same(live, recovered, flushed)
    ensures Same(LiveData(kind, live, mid, d), Replay(kind, recovered, Main(client, mid, Some(d))), flushed)
  {
  }

  lemma EofReplays<S, D>(kind: Kind<S, D>, live: Flow<S>, recovered: Flow<S>, flushed: bool,
                         client: string, mid: string)
    requires Same(live, recovered, flushed)
    ensures var started := Replay(kind, recovered, ControlRecord(client, None, Reported(live.node.counters)));
      && Same(live.(node := live.node.(counters := Reported(live.node.counters))), started, flushed)
      && Same(LiveEof(live, mid), Replay(kind, started, Main(client, mid, None)), flushed)
  {
  }

  lemma TokenReplays<S, D>(kind: Kind<S, D>, live: Flow<S>, recovered: Flow<S>, flushed: bool,
                           client: string, msg: RingMsg, batches: nat)
    requires Same(live, recovered, flushed) && !IsCleanupRound(msg)
    ensures var live' := LiveToken(kind, live, msg, batches);
      Same(live', Replay(kind, recovered, ControlRecord(client, Some(msg.id), live'.node.counters)),
           flushed || IsFlush(msg))
  {
  }

  // --- compaction ---

  /** A compacted log: one snapshot of the live flow for every key, in any order. */
  ghost predicate IsCompaction<S, D>(kind: Kind<S, D>, flows: map<string, Flow<S>>, keys: seq<string>,
                                     wal: seq<Record<D>>)
  {
    && |wal| == |keys|
    && NoDups(keys)
    && (forall i :: 0 <= i < |keys| ==> keys[i] in flows && wal[i] == SnapshotRecord(kind, keys[i], flows[keys[i]]))
  }

  lemma SnapshotRestores<S(!new), D>(kind: Kind<S, D>, client: string, f: Flow<S>)
    requires Restorable(kind)
    ensures Replay(kind, EmptyFlow(kind), SnapshotRecord(kind, client, f)) == f
  {
  }

  /** Replaying a compacted log rebuilds exactly the live flows that have a key, nothing else. */
  lemma {:induction false} CompactionRecovers<S(!new), D>(kind: Kind<S, D>, flows: map<string, Flow<S>>,
                                                    keys: seq<string>, wal: seq<Record<D>>, client: string)
    requires Restorable(kind) && IsCompaction(kind, flows, keys, wal)
    ensures client in keys ==> Recovered(kind, client, wal) == flows[client]
    ensures client !in keys ==> Recovered(kind, client, wal) == EmptyFlow(kind)
    decreases |wal|
  {
    if wal != [] {
      hide Restorable, Replay, SnapshotRecord;
      var n := |wal| - 1;
      SnapshotRestores(kind, keys[n], flows[keys[n]]);
      CompactionRecovers(kind, flows, keys[..n], wal[..n], client);
      assert keys == keys[..n] + [keys[n]];
      if keys[n] == client {
        assert client !in keys[..n];
      }
    }
  }

  /** A cleanup is durable: nothing logged before it comes back. */
  lemma {:induction false} CleanupRecovers<S, D>(kind: Kind<S, D>, client: string, before: seq<Record<D>>, after: seq<Record<D>>)
    ensures Recovered(kind, client, before + [Cleanup(client)] + after) == Recovered(kind, client, after)
    decreases |after|
  {
    var wal := before + [Cleanup(client)];
    if after == [] {
      assert wal + after == wal && wal[..|wal| - 1] == before;
    } else {
      var n := |after| - 1;
      CleanupRecovers(kind, client, before, after[..n]);
      assert wal + after == (wal + after[..n]) + [after[n]];
      AppendRecovers(kind, client, wal + after[..n], after[n]);
    }
  }

  // --- whole runs ---

  /** One handled data message of a flow, in the order the handlers ran. */
  datatype Taken<D> = Taken(mid: string, delta: Delta<D>)

  /** The worker and its log. The last four fields are history: the flows that have been flushed,
    * those cleaned up, the data taken per flow and the EOF ids taken per flow. */
  datatype World<S, D> = World(flows: map<string, Flow<S>>, wal: seq<Record<D>>,
                               flushed: set<string>, cleaned: set<string>,
                               taken: map<string, seq<Taken<D>>>, eofs: map<string, set<string>>)

  /** Every message may be redelivered, the log may be compacted (the dictionary enumerates the
    * flows as `keys`) and the worker may crash and recover at any moment. A crash inside a data handler
    * is covered: before the record is appended it is a mere `Restart`, afterwards the step and a `Restart`. */
  datatype Op<D> =
    | Data(client: string, mid: string, delta: Delta<D>)
    | Eof(client: string, mid: string)
    | Token(client: string, msg: RingMsg, batches: nat)
    | Compact(keys: seq<string>)
    | Restart

  ghost function Get<S, D>(kind: Kind<S, D>, flows: map<string, Flow<S>>, client: string): Flow<S> {
    if client in flows then flows[client] else EmptyFlow(kind)
  }

  ghost function TakenOf<S, D>(w: World<S, D>, client: string): seq<Taken<D>> {
    if client in w.taken then w.taken[client] else []
  }

  ghost function EofsOf<S, D>(w: World<S, D>, client: string): set<string> {
    if client in w.eofs then w.eofs[client] else {}
  }

  ghost function Clients<D>(wal: seq<Record<D>>): set<string> {
    set r | r in wal :: r.client
  }

  ghost function Snapshots<S, D>(kind: Kind<S, D>, flows: map<string, Flow<S>>, keys: seq<string>): seq<Record<D>> {
    seq(|keys|, i requires 0 <= i < |keys| => SnapshotRecord(kind, keys[i], Get(kind, flows, keys[i])))
  }

  ghost function Step<S, D>(kind: Kind<S, D>, w: World<S, D>, op: Op<D>): World<S, D> {
    match op
    case Data(c, mid, d) =>
      var f := Get(kind, w.flows, c);
      if mid in f.node.main then w
      else w.(flows := w.flows[c := LiveData(kind, f, mid, d)], wal := w.wal + [Main(c, mid, Some(d))],
              taken := w.taken[c := TakenOf(w, c) + [Taken(mid, d)]])
    case Eof(c, mid) =>
      var f := Get(kind, w.flows, c);
      if mid in f.node.main then w
      else w.(flows := w.flows[c := LiveEof(f, mid)],
              wal := w.wal + [ControlRecord(c, None, Reported(f.node.counters)), Main(c, mid, None)],
              eofs := w.eofs[c := EofsOf(w, c) + {mid}])
    case Token(c, msg, batches) =>
      var f := Get(kind, w.flows, c);
      if msg.id in f.node.control then w
      else if IsCleanupRound(msg) then
        // the handler still adds the id, but to a set the cleanup has already detached
        w.(flows := w.flows - {c},
           wal := w.wal + [Cleanup(c), ControlRecord(c, Some(msg.id), NO_COUNTS)],
           cleaned := w.cleaned + {c})
      else
        var f' := LiveToken(kind, f, msg, batches);
        w.(flows := w.flows[c := f'], wal := w.wal + [ControlRecord(c, Some(msg.id), f'.node.counters)],
           flushed := if IsFlush(msg) then w.flushed + {c} else w.flushed)
    case Compact(keys) =>
      if Lists(keys, w.flows.Keys) then w.(wal := Snapshots(kind, w.flows, keys)) else w
    case Restart =>
      w.(flows := map c | c in Clients(w.wal) :: Recovered(kind, c, w.wal))
  }

  ghost function Run<S, D>(kind: Kind<S, D>, ops: seq<Op<D>>): World<S, D>
    decreases |ops|
  {
    if ops == [] then World(map[], [], {}, {}, map[], map[])
    else Step(kind, Run(kind, ops[..|ops| - 1]), ops[|ops| - 1])
  }

  /** A crash at this very moment would lose nothing. */
  ghost predicate Recoverable<S, D>(kind: Kind<S, D>, w: World<S, D>, c: string) {
    c !in w.cleaned ==> Same(Get(kind, w.flows, c), Recovered(kind, c, w.wal), c in w.flushed)
  }

  lemma {:induction false} UntouchedRecovers<S, D>(kind: Kind<S, D>, c: string, wal: seq<Record<D>>)
    requires c !in Clients(wal)
    ensures Recovered(kind, c, wal) == EmptyFlow(kind)
  {
    if wal != [] {
      var init := wal[..|wal| - 1];
      assert wal[|wal| - 1] in wal && forall r :: r in init ==> r in wal;
      UntouchedRecovers(kind, c, init);
    }
  }

  lemma TwoAppendsRecover<S, D>(kind: Kind<S, D>, c: string, wal: seq<Record<D>>, r1: Record<D>, r2: Record<D>)
    requires r1.client == r2.client
    ensures Recovered(kind, c, wal + [r1, r2]) ==
      if r1.client == c then Replay(kind, Replay(kind, Recovered(kind, c, wal), r1), r2) else Recovered(kind, c, wal)
  {
    AppendRecovers(kind, c, wal, r1);
    AppendRecovers(kind, c, wal + [r1], r2);
    assert wal + [r1, r2] == wal + [r1] + [r2];
  }

  lemma MessageRecoverable<S(!new), D>(kind: Kind<S, D>, w: World<S, D>, op: Op<D>, c: string)
    requires Restorable(kind) && Recoverable(kind, w, c) && !op.Compact? && !op.Restart?
    ensures Recoverable(kind, Step(kind, w, op), c)
  {
    match op
    case Data(x, mid, d) =>
      DataRecoverable(kind, w, x, mid, d, c);
    case Eof(x, mid) => EofRecoverable(kind, w, x, mid, c);
    case Token(x, msg, batches) => TokenRecoverable(kind, w, x, msg, batches, c);
  }

  lemma DataRecoverable<S(!new), D>(kind: Kind<S, D>, w: World<S, D>, x: string, mid: string, d: Delta<D>, c: string)
    requires Recoverable(kind, w, c)
    ensures Recoverable(kind, Step(kind, w, Data(x, mid, d)), c)
  {
    hide Recovered, Replay, LiveData;
    AppendRecovers(kind, c, w.wal, Main(x, mid, Some(d)));
    if c !in w.cleaned { DataReplays(kind, Get(kind, w.flows, c), Recovered(kind, c, w.wal), c in w.flushed, c, mid, d); }
  }

  lemma EofRecoverable<S(!new), D>(kind: Kind<S, D>, w: World<S, D>, x: string, mid: string, c: string)
    requires Recoverable(kind, w, c)
    ensures Recoverable(kind, Step(kind, w, Eof(x, mid)), c)
  {
    hide Recovered, Replay, LiveEof;
    var f := Get(kind, w.flows, x);
    TwoAppendsRecover(kind, c, w.wal, ControlRecord(x, None, Reported(f.node.counters)), Main(x, mid, None));
    if c !in w.cleaned { EofReplays(kind, Get(kind, w.flows, c), Recovered(kind, c, w.wal), c in w.flushed, c, mid); }
  }

  lemma TokenRecoverable<S(!new), D>(kind: Kind<S, D>, w: World<S, D>, x: string, msg: RingMsg, batches: nat, c: string)
    requires Recoverable(kind, w, c)
    ensures Recoverable(kind, Step(kind, w, Token(x, msg, batches)), c)
  {
    hide Recovered, Replay, LiveToken;
    var f' := LiveToken(kind, Get(kind, w.flows, x), msg, batches);
    TwoAppendsRecover(kind, c, w.wal, Cleanup(x), ControlRecord(x, Some(msg.id), NO_COUNTS));
    AppendRecovers(kind, c, w.wal, ControlRecord(x, Some(msg.id), f'.node.counters));
    if c !in w.cleaned && !IsCleanupRound(msg) {
      TokenReplays(kind, Get(kind, w.flows, c), Recovered(kind, c, w.wal), c in w.flushed, c, msg, batches);
    }
  }

  lemma StepRecoverable<S(!new), D>(kind: Kind<S, D>, w: World<S, D>, op: Op<D>, c: string)
    requires Restorable(kind) && Recoverable(kind, w, c)
    ensures Recoverable(kind, Step(kind, w, op), c)
  {
    match op
    case Data(_, _, _) => MessageRecoverable(kind, w, op, c);
    case Eof(_, _) => MessageRecoverable(kind, w, op, c);
    case Token(_, _, _) => MessageRecoverable(kind, w, op, c);
    case Compact(keys) =>
      if Lists(keys, w.flows.Keys) {
        CompactionRecovers(kind, w.flows, keys, Snapshots(kind, w.flows, keys), c);
      }
    case Restart =>
      if c !in Clients(w.wal) { UntouchedRecovers(kind, c, w.wal); }
  }

  /** Recovery equivalence: at any moment of any run, for any placement of compactions, restarts
    * and redeliveries, replaying the log gives every flow that has not been cleaned up its live
    * seen-sets and counters, and its live state as long as it has not been flushed. */
  lemma {:induction false} RecoveryEquivalence<S(!new), D>(kind: Kind<S, D>, ops: seq<Op<D>>, c: string)
    requires Restorable(kind)
    ensures Recoverable(kind, Run(kind, ops), c)
    decreases |ops|
  {
    if ops != [] {
      RecoveryEquivalence(kind, ops[..|ops| - 1], c);
      StepRecoverable(kind, Run(kind, ops[..|ops| - 1]), ops[|ops| - 1], c);
    }
  }
}
