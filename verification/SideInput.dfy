/** The side-input join of one client (`src/common/worker/side_input_stateless_worker.py` and its two
  * workers, the anomaly filter and the bank mapper): main batches wait on disk until the side table is
  * complete. Main batches, side batches, the side EOF, the late ready callback, log compactions and
  * crashes inside the handlers interleave freely. */
module SideInput {
  import opened Collections
  import opened Options

  type Delta<V> = seq<(string, V)>

  /** What an entry for a key that is already in the table does: the anomaly filter overwrites the
    * value, the bank mapper keeps the first one. */
  datatype Policy = LastWins | FirstWins

  /** A joining worker: `emit` is what a main batch becomes, given the table. */
  datatype Join<!B, !V, O> = Join(policy: Policy, emit: (B, map<string, V>) -> O)

  // --- tracker, table ---

  datatype Tracker = Tracker(received: nat, expected: Option<int>, ready: bool)

  const NO_SIDE := Tracker(0, None, false)

  predicate AllIn(t: Tracker) { t.expected.Some? && t.received >= t.expected.value }

  /** `_check_ready`: readiness is switched on at most once. */
  function CheckReady(t: Tracker): Tracker { t.(ready := t.ready || AllIn(t)) }

  function Track(t: Tracker): Tracker { CheckReady(t.(received := t.received + 1)) }

  function Expect(t: Tracker, n: int): Tracker { CheckReady(t.(expected := Some(n))) }

  function Restore(t: Tracker, received: nat, expected: Option<int>): Tracker {
    CheckReady(Tracker(received, if expected.Some? then expected else t.expected, false))
  }

  function PutEntry<V>(p: Policy, table: map<string, V>, e: (string, V)): map<string, V> {
    if p.FirstWins? && e.0 in table then table else table[e.0 := e.1]
  }

  function Enter<V>(p: Policy, table: map<string, V>, d: Delta<V>): map<string, V> {
    if d == [] then table else PutEntry(p, Enter(p, table, d[..|d| - 1]), d[|d| - 1])
  }

  /** `_side_state_as_delta`: the table's entries, in some order, each once. */
  ghost predicate ListsTable<V>(d: Delta<V>, table: map<string, V>) {
    && (forall i, j :: 0 <= i < j < |d| ==> d[i].0 != d[j].0)
    && (forall e :: e in d ==> e.0 in table && table[e.0] == e.1)
    && (forall k :: k in table ==> (k, table[k]) in d)
  }

  lemma {:induction false} EnterKeys<V>(p: Policy, table: map<string, V>, d: Delta<V>)
    ensures forall k :: k in Enter(p, table, d) <==> k in table || exists i :: 0 <= i < |d| && d[i].0 == k
  {
    if d != [] { EnterKeys(p, table, d[..|d| - 1]); }
  }

  /** Entries without a conflict give the same table under both policies. */
  lemma {:induction false} EnterAgreeing<V>(p: Policy, table: map<string, V>, d: Delta<V>, value: string -> V)
    requires forall k :: k in table ==> table[k] == value(k)
    requires forall e :: e in d ==> e.1 == value(e.0)
    ensures forall k :: k in Enter(p, table, d) ==> Enter(p, table, d)[k] == value(k)
  {
    if d != [] {
      assert d[|d| - 1] in d && forall e :: e in d[..|d| - 1] ==> e in d;
      EnterAgreeing(p, table, d[..|d| - 1], value);
    }
  }

  lemma LastEntry<V>(d: Delta<V>, table: map<string, V>) returns (smaller: map<string, V>)
    requires ListsTable(d, table) && d != []
    ensures ListsTable(d[..|d| - 1], smaller)
    ensures d[|d| - 1].0 !in smaller && table == smaller[d[|d| - 1].0 := d[|d| - 1].1]
  {
    var n := |d| - 1;
    smaller := map k | k in table && k != d[n].0 :: table[k];
    assert d[n] in d;
    forall k | k in smaller ensures (k, smaller[k]) in d[..n] {
      assert (k, table[k]) in d;
    }
    forall e | e in d[..n] ensures e.0 in smaller && smaller[e.0] == e.1 {
      assert e in d;
    }
  }

  /** A snapshot of the table restores it, whatever the policy. */
  lemma {:induction false} TableRestores<V>(p: Policy, d: Delta<V>, table: map<string, V>)
    requires ListsTable(d, table)
    ensures Enter(p, map[], d) == table
    decreases |d|
  {
    if d == [] {
      assert forall k :: k !in table;
    } else {
      hide ListsTable;
      var smaller := LastEntry(d, table);
      TableRestores(p, d[..|d| - 1], smaller);
    }
  }

  // --- the worker's memory, log, spill file and output ---

  /** Volatile: the seen-sets of both channels, the tracker and the table. */
  datatype Memory<V> = Memory(main: set<string>, side: set<string>, tracker: Tracker, table: map<string, V>)

  ghost function EmptyMemory<V>(): Memory<V> { Memory({}, {}, NO_SIDE, map[]) }

  datatype Record<V> =
    | MainRecord(mid: string)
    | SideRecord(mid: string, delta: Delta<V>)
    | SideEofRecord(mid: string, count: int)
    | Snapshot(main: set<string>, side: set<string>, received: nat, expected: Option<int>, state: Delta<V>)
    | Cleanup

  datatype Spilled<B> = Spilled(mid: string, batch: B)

  datatype Emission<O> = Emission(mid: string, out: O)

  ghost function Replay<V>(p: Policy, m: Memory<V>, r: Record<V>): Memory<V> {
    match r
    case MainRecord(mid) => m.(main := m.main + {mid})
    case SideRecord(mid, d) =>
      Memory(m.main, m.side + {mid}, Track(m.tracker), Enter(p, m.table, d))
    case SideEofRecord(mid, n) => m.(side := m.side + {mid}, tracker := Expect(m.tracker, n))
    case Snapshot(main, side, received, expected, state) =>
      Memory(m.main + main, m.side + side, Restore(m.tracker, received, expected), Enter(p, m.table, state))
    case Cleanup => EmptyMemory()
  }

  ghost function Recovered<V>(p: Policy, wal: seq<Record<V>>): Memory<V> {
    if wal == [] then EmptyMemory() else Replay(p, Recovered(p, wal[..|wal| - 1]), wal[|wal| - 1])
  }

  /** `due`: the ready callback has been scheduled and has not finished. The last two fields are
    * history: how often the callback was scheduled since the process started, and the side batches
    * logged, in their order. */
  datatype World<B, V, O> = World(mem: Memory<V>, wal: seq<Record<V>>, spill: seq<Spilled<B>>,
                                  due: bool, out: seq<Emission<O>>, fired: nat, order: seq<string>)

  ghost function Start<B, V, O>(): World<B, V, O> {
    World(EmptyMemory(), [], [], false, [], 0, [])
  }

  /** A cleanup is durable: nothing logged before it comes back. */
  lemma {:induction false} CleanupRecovers<V>(p: Policy, before: seq<Record<V>>, after: seq<Record<V>>)
    ensures Recovered(p, before + [Cleanup] + after) == Recovered(p, after)
    decreases |after|
  {
    var wal := before + [Cleanup];
    if after == [] {
      assert wal + after == wal && wal[..|wal| - 1] == before;
    } else {
      var n := |after| - 1;
      CleanupRecovers(p, before, after[..n]);
      assert (wal + after)[..|wal| + n] == wal + after[..n];
    }
  }

  // --- steps ---

  /** Main and side messages may be redelivered at any time. `MainLost` and `CallbackLost` are
    * crashes in the middle of a handler: after the batch was spilled or sent but before the record
    * was appended, and after the first `sent` spilled batches were sent but before the spill file
    * was removed. A crash before a side record is appended is a `Restart`. */
  datatype Op<B, V> =
    | Main(mid: string, batch: B)
    | MainLost(mid: string, batch: B)
    | Side(mid: string, delta: Delta<V>)
    | SideEof(mid: string, count: int)
    | Callback
    | CallbackLost(sent: nat)
    | Compact(state: Delta<V>)
    | Restart

  /** `_handle_data_message`: emit if the side input is ready, spill otherwise. */
  ghost function TakeBatch<B, V, O>(join: Join<B, V, O>, w: World<B, V, O>, mid: string, batch: B): World<B, V, O> {
    if w.mem.tracker.ready then w.(out := w.out + [Emission(mid, join.emit(batch, w.mem.table))])
    else w.(spill := w.spill + [Spilled(mid, batch)])
  }

  ghost function Drained<B, V, O>(join: Join<B, V, O>, table: map<string, V>, spill: seq<Spilled<B>>): seq<Emission<O>> {
    seq(|spill|, i requires 0 <= i < |spill| => Emission(spill[i].mid, join.emit(spill[i].batch, table)))
  }

  /** The process restarts; recovery schedules the drain of a flow that is ready. */
  ghost function Restarted<B, V, O>(join: Join<B, V, O>, w: World<B, V, O>): World<B, V, O> {
    var mem := Recovered(join.policy, w.wal);
    w.(mem := mem, due := mem.tracker.ready, fired := if mem.tracker.ready then 1 else 0)
  }

  /** A logged change of memory; if it switched readiness on, the callback is scheduled. */
  ghost function Logged<B, V, O>(join: Join<B, V, O>, w: World<B, V, O>, r: Record<V>): World<B, V, O> {
    var mem := Replay(join.policy, w.mem, r);
    var became := mem.tracker.ready && !w.mem.tracker.ready;
    w.(mem := mem, wal := w.wal + [r], due := w.due || became, fired := if became then w.fired + 1 else w.fired)
  }

  ghost function Step<B, V, O>(join: Join<B, V, O>, w: World<B, V, O>, op: Op<B, V>): World<B, V, O> {
    match op
    case Main(mid, batch) =>
      if mid in w.mem.main then w else Logged(join, TakeBatch(join, w, mid, batch), MainRecord(mid))
    case MainLost(mid, batch) =>
      Restarted(join, if mid in w.mem.main then w else TakeBatch(join, w, mid, batch))
    case Side(mid, d) =>
      if mid in w.mem.side then w else Logged(join, w, SideRecord(mid, d)).(order := w.order + [mid])
    case SideEof(mid, n) =>
      if mid in w.mem.side then w else Logged(join, w, SideEofRecord(mid, n))
    case Callback =>
      if w.due then w.(spill := [], due := false, out := w.out + Drained(join, w.mem.table, w.spill)) else w
    case CallbackLost(k) =>
      Restarted(join, if w.due && k <= |w.spill| then w.(out := w.out + Drained(join, w.mem.table, w.spill[..k])) else w)
    case Compact(state) =>
      if ListsTable(state, w.mem.table) then
        w.(wal := [Snapshot(w.mem.main, w.mem.side, w.mem.tracker.received, w.mem.tracker.expected, state)])
      else w
    case Restart => Restarted(join, w)
  }

  ghost function Run<B, V, O>(join: Join<B, V, O>, ops: seq<Op<B, V>>): World<B, V, O> {
    if ops == [] then Start() else Step(join, Run(join, ops[..|ops| - 1]), ops[|ops| - 1])
  }

  // --- what the stages before promise ---

  /** The client's input: the side batches by id, and the main batches by id. */
  datatype Input<B, V> = Input(sideIds: set<string>, deltaOf: string -> Delta<V>, batchOf: string -> B)

  /** An id always carries the same payload, and the side EOF counts the distinct side batches. */
  ghost predicate Allowed<B, V>(i: Input<B, V>, op: Op<B, V>) {
    match op
    case Main(mid, b) => b == i.batchOf(mid)
    case MainLost(mid, b) => b == i.batchOf(mid)
    case Side(mid, d) => mid in i.sideIds && d == i.deltaOf(mid)
    case SideEof(mid, n) => mid !in i.sideIds && n == |i.sideIds|
    case _ => true
  }

  ghost predicate Feeds<B, V>(i: Input<B, V>, ops: seq<Op<B, V>>) { forall op :: op in ops ==> Allowed(i, op) }

  // --- invariants ---

  /** The table after the listed side batches. */
  ghost function TableOf<V>(p: Policy, deltaOf: string -> Delta<V>, order: seq<string>): map<string, V> {
    if order == [] then map[]
    else Enter(p, TableOf(p, deltaOf, order[..|order| - 1]), deltaOf(order[|order| - 1]))
  }

  /** Replaying the log at this moment would lose nothing. */
  ghost predicate Durable<B, V, O>(join: Join<B, V, O>, w: World<B, V, O>) {
    w.mem == Recovered(join.policy, w.wal)
  }

  /** The sequence holds exactly the side ids that have been seen, each once. */
  ghost predicate ListsLogged(order: seq<string>, side: set<string>, sideIds: set<string>) {
    NoDups(order) && forall x :: x in order <==> x in side && x in sideIds
  }

  /** Tracker and table say exactly which side batches have been logged. */
  ghost predicate Tracks<B, V, O>(join: Join<B, V, O>, i: Input<B, V>, w: World<B, V, O>) {
    var t := w.mem.tracker;
    && ListsLogged(w.order, w.mem.side, i.sideIds)
    && w.mem.table == TableOf(join.policy, i.deltaOf, w.order)
    && t.received == |w.order|
    && (t.expected.Some? ==> t.expected.value == |i.sideIds|)
    && t.ready == AllIn(t)
  }

  /** Nothing leaves before readiness, and what left was made with the table as it is now. */
  ghost predicate Faithful<B, V, O>(join: Join<B, V, O>, i: Input<B, V>, w: World<B, V, O>) {
    && (w.out != [] ==> w.mem.tracker.ready)
    && (forall e :: e in w.out ==> e.out == join.emit(i.batchOf(e.mid), w.mem.table))
    && (forall e :: e in w.spill ==> e.batch == i.batchOf(e.mid))
  }

  ghost predicate Waiting<B>(spill: seq<Spilled<B>>, mid: string) { exists k :: 0 <= k < |spill| && spill[k].mid == mid }

  ghost predicate Emitted<O>(out: seq<Emission<O>>, mid: string) { exists k :: 0 <= k < |out| && out[k].mid == mid }

  /** No accepted batch is lost, and once the callback is through none is waiting. */
  ghost predicate Keeps<B, V, O>(w: World<B, V, O>) {
    && (forall mid :: mid in w.mem.main ==> Waiting(w.spill, mid) || Emitted(w.out, mid))
    && (w.due ==> w.mem.tracker.ready)
    && (w.mem.tracker.ready && !w.due ==> w.spill == [])
    && w.fired == (if w.mem.tracker.ready then 1 else 0)
  }

  ghost predicate Inv<B, V, O>(join: Join<B, V, O>, i: Input<B, V>, w: World<B, V, O>) {
    Durable(join, w) && Tracks(join, i, w) && Faithful(join, i, w) && Keeps(w)
  }

  lemma LoggedDurable<B, V, O>(join: Join<B, V, O>, w: World<B, V, O>, r: Record<V>)
    requires Durable(join, w)
    ensures Durable(join, Logged(join, w, r))
  {
    assert (w.wal + [r])[..|w.wal|] == w.wal;
  }

  lemma OneRecord<V>(p: Policy, r: Record<V>)
    ensures Recovered(p, [r]) == Replay(p, EmptyMemory(), r)
  {
    assert [r][..0] == [] && Recovered(p, [r][..0]) == EmptyMemory();
  }

  /** A compacted log restores the same memory, readiness included. */
  lemma {:induction false} CompactDurable<B, V, O>(join: Join<B, V, O>, i: Input<B, V>, w: World<B, V, O>, state: Delta<V>)
    requires Durable(join, w) && Tracks(join, i, w)
    ensures Durable(join, Step(join, w, Compact(state)))
  {
    hide Recovered, Enter, ListsTable, Lists, TableOf;
    if ListsTable(state, w.mem.table) {
      OneRecord(join.policy, Snapshot(w.mem.main, w.mem.side, w.mem.tracker.received, w.mem.tracker.expected, state));
      TableRestores(join.policy, state, w.mem.table);
    }
  }

  lemma StepDurable<B, V, O>(join: Join<B, V, O>, i: Input<B, V>, w: World<B, V, O>, op: Op<B, V>)
    requires Durable(join, w) && Tracks(join, i, w)
    ensures Durable(join, Step(join, w, op))
  {
    match op
    case Main(mid, batch) => LoggedDurable(join, TakeBatch(join, w, mid, batch), MainRecord(mid));
    case Side(mid, d) => LoggedDurable(join, w, SideRecord(mid, d));
    case SideEof(mid, n) => LoggedDurable(join, w, SideEofRecord(mid, n));
    case Compact(state) => CompactDurable(join, i, w, state);
    case _ =>
  }

  lemma SideTracks<B, V, O>(join: Join<B, V, O>, i: Input<B, V>, w: World<B, V, O>, mid: string)
    requires Tracks(join, i, w) && mid in i.sideIds && mid !in w.mem.side
    ensures Tracks(join, i, Step(join, w, Side(mid, i.deltaOf(mid))))
  {
    hide Enter, TableOf, ListsLogged;
    LoggedOneMore(w.order, w.mem.side, i.sideIds, mid);
    TableOneMore(join.policy, i.deltaOf, w.order, mid);
  }

  lemma TableOneMore<V>(p: Policy, deltaOf: string -> Delta<V>, order: seq<string>, mid: string)
    ensures TableOf(p, deltaOf, order + [mid]) == Enter(p, TableOf(p, deltaOf, order), deltaOf(mid))
  {
    assert (order + [mid])[..|order|] == order;
  }

  lemma LoggedOneMore(order: seq<string>, side: set<string>, sideIds: set<string>, mid: string)
    requires ListsLogged(order, side, sideIds) && mid in sideIds && mid !in side
    ensures ListsLogged(order + [mid], side + {mid}, sideIds)
  {
    assert forall k :: 0 <= k < |order| ==> order[k] in order;
  }

  lemma StepTracks<B, V, O>(join: Join<B, V, O>, i: Input<B, V>, w: World<B, V, O>, op: Op<B, V>)
    requires Durable(join, w) && Tracks(join, i, w) && Allowed(i, op)
    ensures Tracks(join, i, Step(join, w, op))
  {
    hide Recovered, Enter, TableOf, Lists;
    match op
    case Side(mid, d) => if mid !in w.mem.side { SideTracks(join, i, w, mid); }
    case SideEof(mid, n) => SideEofTracks(join, i, w, mid);
    case _ => SameTracks(join, i, w, Step(join, w, op));
  }

  lemma SideEofTracks<B, V, O>(join: Join<B, V, O>, i: Input<B, V>, w: World<B, V, O>, mid: string)
    requires Tracks(join, i, w) && mid !in i.sideIds
    ensures Tracks(join, i, Step(join, w, SideEof(mid, |i.sideIds|)))
  {
    hide TableOf;
  }

  /** Tracking speaks of the side channel's part of memory only. */
  lemma SameTracks<B, V, O>(join: Join<B, V, O>, i: Input<B, V>, w: World<B, V, O>, w': World<B, V, O>)
    requires Tracks(join, i, w) && w'.order == w.order && w'.mem == w.mem.(main := w'.mem.main)
    ensures Tracks(join, i, w')
  {
  }

  /** Readiness means the table is complete, so no side batch can still change it. */
  lemma ReadyIsComplete<B, V, O>(join: Join<B, V, O>, i: Input<B, V>, w: World<B, V, O>)
    requires Tracks(join, i, w) && w.mem.tracker.ready
    ensures i.sideIds <= w.mem.side && Lists(w.order, i.sideIds)
  {
    hide TableOf;
    ElemsSize(w.order);
    SubsetSize(Elems(w.order), i.sideIds);
  }

  lemma StepFaithful<B, V, O>(join: Join<B, V, O>, i: Input<B, V>, w: World<B, V, O>, op: Op<B, V>)
    requires Durable(join, w) && Tracks(join, i, w) && Faithful(join, i, w) && Keeps(w) && Allowed(i, op)
    ensures Faithful(join, i, Step(join, w, op))
  {
    hide Recovered, Enter, TableOf, Lists;
    if w.mem.tracker.ready { ReadyIsComplete(join, i, w); }
    match op
    case Callback => DrainedFaithful(join, i, w, |w.spill|);
    case CallbackLost(k) => if k <= |w.spill| { DrainedFaithful(join, i, w, k); }
    case _ =>
  }

  lemma DrainedFaithful<B, V, O>(join: Join<B, V, O>, i: Input<B, V>, w: World<B, V, O>, k: nat)
    requires Faithful(join, i, w) && k <= |w.spill|
    ensures forall e :: e in Drained(join, w.mem.table, w.spill[..k]) ==> e.out == join.emit(i.batchOf(e.mid), w.mem.table)
    ensures w.spill[..|w.spill|] == w.spill
  {
    forall e | e in Drained(join, w.mem.table, w.spill[..k]) ensures e.out == join.emit(i.batchOf(e.mid), w.mem.table) {
      var x :| 0 <= x < k && Drained(join, w.mem.table, w.spill[..k])[x] == e;
      assert w.spill[x] in w.spill;
    }
  }

  lemma StepKeeps<B, V, O>(join: Join<B, V, O>, i: Input<B, V>, w: World<B, V, O>, op: Op<B, V>)
    requires Durable(join, w) && Tracks(join, i, w) && Keeps(w) && Allowed(i, op)
    ensures Keeps(Step(join, w, op))
  {
    hide Recovered, Enter, TableOf, Lists;
    var w' := Step(join, w, op);
    if op.Callback? && w.due {
      forall mid | mid in w.mem.main ensures Emitted(w'.out, mid) { DrainedEmits(join, w, mid); }
    } else {
      assert w.spill <= w'.spill && w.out <= w'.out;
      hide Step, Waiting, Emitted;
      forall mid | mid in w.mem.main ensures Waiting(w'.spill, mid) || Emitted(w'.out, mid) { StillThere(w, w', mid); }
      if op.Main? && op.mid !in w.mem.main { NewBatchKept(join, w, op.mid, op.batch); }
    }
  }

  lemma DrainedEmits<B, V, O>(join: Join<B, V, O>, w: World<B, V, O>, mid: string)
    requires Waiting(w.spill, mid) || Emitted(w.out, mid)
    ensures Emitted(w.out + Drained(join, w.mem.table, w.spill), mid)
  {
    var out := w.out + Drained(join, w.mem.table, w.spill);
    if Waiting(w.spill, mid) {
      var x :| 0 <= x < |w.spill| && w.spill[x].mid == mid;
      assert out[|w.out| + x].mid == mid;
    } else {
      var x :| 0 <= x < |w.out| && w.out[x].mid == mid;
      assert out[x].mid == mid;
    }
  }

  lemma StillThere<B, V, O>(w: World<B, V, O>, w': World<B, V, O>, mid: string)
    requires w.spill <= w'.spill && w.out <= w'.out && (Waiting(w.spill, mid) || Emitted(w.out, mid))
    ensures Waiting(w'.spill, mid) || Emitted(w'.out, mid)
  {
    if Waiting(w.spill, mid) {
      var x :| 0 <= x < |w.spill| && w.spill[x].mid == mid;
      assert w'.spill[x].mid == mid;
    } else {
      var x :| 0 <= x < |w.out| && w.out[x].mid == mid;
      assert w'.out[x].mid == mid;
    }
  }

  lemma NewBatchKept<B, V, O>(join: Join<B, V, O>, w: World<B, V, O>, mid: string, batch: B)
    requires mid !in w.mem.main
    ensures var w' := Step(join, w, Main(mid, batch)); Waiting(w'.spill, mid) || Emitted(w'.out, mid)
  {
    hide Recovered;
    var w' := Step(join, w, Main(mid, batch));
    if w.mem.tracker.ready { assert w'.out[|w.out|].mid == mid; } else { assert w'.spill[|w.spill|].mid == mid; }
  }

  lemma {:induction false} RunInv<B, V, O>(join: Join<B, V, O>, i: Input<B, V>, ops: seq<Op<B, V>>)
    requires Feeds(i, ops)
    ensures Inv(join, i, Run(join, ops))
    decreases |ops|
  {
    if ops != [] {
      var before, op := ops[..|ops| - 1], ops[|ops| - 1];
      assert op in ops && forall o :: o in before ==> o in ops;
      RunInv(join, i, before);
      var w := Run(join, before);
      StepDurable(join, i, w, op);
      StepTracks(join, i, w, op);
      StepFaithful(join, i, w, op);
      StepKeeps(join, i, w, op);
    }
  }

  // --- the theorems ---

  /** Never early, never with a partial table: whatever has been emitted, in any run, the side input
    * is complete, and the emission is what its batch gives with the complete table. Two emissions of
    * one batch are therefore identical. */
  lemma EmissionsUseCompleteTable<B, V, O>(join: Join<B, V, O>, i: Input<B, V>, ops: seq<Op<B, V>>, e: Emission<O>)
    requires Feeds(i, ops) && e in Run(join, ops).out
    ensures var w := Run(join, ops);
      && Lists(w.order, i.sideIds)
      && e.out == join.emit(i.batchOf(e.mid), TableOf(join.policy, i.deltaOf, w.order))
  {
    RunInv(join, i, ops);
    ReadyIsComplete(join, i, Run(join, ops));
  }

  /** No loss: once the ready callback is through, every accepted batch has been emitted, joined with
    * the complete table, and nothing is left in the spill file. */
  lemma NothingIsLost<B, V, O>(join: Join<B, V, O>, i: Input<B, V>, ops: seq<Op<B, V>>, mid: string)
    requires Feeds(i, ops)
    requires var w := Run(join, ops); w.mem.tracker.ready && !w.due && mid in w.mem.main
    ensures var w := Run(join, ops);
      && w.spill == [] && Lists(w.order, i.sideIds)
      && Emission(mid, join.emit(i.batchOf(mid), TableOf(join.policy, i.deltaOf, w.order))) in w.out
  {
    RunInv(join, i, ops);
    var w := Run(join, ops);
    ReadyIsComplete(join, i, w);
    var k :| 0 <= k < |w.out| && w.out[k].mid == mid;
    assert w.out[k] in w.out;
    EmissionsUseCompleteTable(join, i, ops, w.out[k]);
  }

  ghost predicate CrashFree<B, V>(ops: seq<Op<B, V>>) {
    forall op :: op in ops ==> !op.MainLost? && !op.CallbackLost? && !op.Restart?
  }

  ghost function Mids<B, O>(spill: seq<Spilled<B>>, out: seq<Emission<O>>): seq<string> {
    seq(|spill| + |out|, k requires 0 <= k < |spill| + |out| => if k < |spill| then spill[k].mid else out[k - |spill|].mid)
  }

  ghost predicate OncePerBatch<B, V, O>(w: World<B, V, O>) { Lists(Mids(w.spill, w.out), w.mem.main) }

  lemma StepOncePerBatch<B, V, O>(join: Join<B, V, O>, w: World<B, V, O>, op: Op<B, V>)
    requires OncePerBatch(w) && !op.MainLost? && !op.CallbackLost? && !op.Restart?
    ensures OncePerBatch(Step(join, w, op))
  {
    hide Enter, Lists;
    var w' := Step(join, w, op);
    var a, b := Mids(w.spill, w.out), Mids(w'.spill, w'.out);
    match op
    case Callback =>
      if w.due {
        assert b == a[|w.spill|..] + a[..|w.spill|];
        Rotated(a, |w.spill|, b, w.mem.main);
      }
    case Main(mid, batch) =>
      if mid !in w.mem.main {
        var at := if w.mem.tracker.ready then |a| else |w.spill|;
        assert b == a[..at] + [mid] + a[at..];
        Inserted(a, at, mid, w.mem.main);
      }
    case _ =>
  }

  lemma Inserted(a: seq<string>, at: nat, x: string, s: set<string>)
    requires at <= |a| && Lists(a, s) && x !in s
    ensures Lists(a[..at] + [x] + a[at..], s + {x})
  {
    var b := a[..at] + [x] + a[at..];
    assert a == a[..at] + a[at..];
    forall k, l | 0 <= k < l < |b| ensures b[k] != b[l] {
      assert k != at ==> b[k] == a[if k < at then k else k - 1];
      assert l != at ==> b[l] == a[if l < at then l else l - 1];
    }
  }

  /** Moving a prefix to the end keeps a listing. */
  lemma Rotated(a: seq<string>, n: nat, b: seq<string>, s: set<string>)
    requires n <= |a| && Lists(a, s) && b == a[n..] + a[..n]
    ensures Lists(b, s)
  {
    assert forall x :: x in b <==> x in a;
    assert forall k :: 0 <= k < |b| ==> b[k] == a[if k < |a| - n then k + n else k - (|a| - n)];
  }

  /** Exactly once: without crashes, every accepted batch is either waiting or has been emitted, once,
    * and nothing else is. */
  lemma {:induction false} ExactlyOnceWithoutCrashes<B, V, O>(join: Join<B, V, O>, ops: seq<Op<B, V>>)
    requires CrashFree(ops)
    ensures OncePerBatch(Run(join, ops))
    decreases |ops|
  {
    if ops != [] {
      var before, op := ops[..|ops| - 1], ops[|ops| - 1];
      assert op in ops && forall o :: o in before ==> o in ops;
      ExactlyOnceWithoutCrashes(join, before);
      StepOncePerBatch(join, Run(join, before), op);
    }
  }

  /** Readiness is exact, survives crashes, and fires the callback once per process: the callback has
    * been scheduled if and only if the EOF and all the side batches have been logged. */
  lemma ReadyFiresOnce<B, V, O>(join: Join<B, V, O>, i: Input<B, V>, ops: seq<Op<B, V>>)
    requires Feeds(i, ops)
    ensures var w := Run(join, ops);
      && w.fired == (if w.mem.tracker.ready then 1 else 0)
      && (w.mem.tracker.ready <==> w.mem.tracker.expected.Some? && i.sideIds <= w.mem.side)
      && Recovered(join.policy, w.wal) == w.mem
  {
    RunInv(join, i, ops);
    var w := Run(join, ops);
    hide Run, Recovered, TableOf;
    if i.sideIds <= w.mem.side {
      ElemsSize(w.order);
      assert Elems(w.order) == i.sideIds;
    }
    if w.mem.tracker.ready { ReadyIsComplete(join, i, w); }
  }

  /** After readiness nothing is spilled, the table stands and readiness stays, whatever happens. */
  lemma ReadyIsFinal<B, V, O>(join: Join<B, V, O>, i: Input<B, V>, ops: seq<Op<B, V>>, op: Op<B, V>)
    requires Feeds(i, ops) && Allowed(i, op) && Run(join, ops).mem.tracker.ready
    ensures var w, w' := Run(join, ops), Step(join, Run(join, ops), op);
      w'.mem.tracker.ready && w'.mem.table == w.mem.table && (w'.spill == w.spill || w'.spill == [])
  {
    RunInv(join, i, ops);
    ReadyIsComplete(join, i, Run(join, ops));
  }

  /** If the side batches agree on every key, the complete table is the same in every run and under
    * both policies: every key of every side batch, with its one value. */
  lemma {:induction false} CompleteTable<V>(p: Policy, deltaOf: string -> Delta<V>, order: seq<string>, value: string -> V)
    requires forall id, e :: id in order && e in deltaOf(id) ==> e.1 == value(e.0)
    ensures var table := TableOf(p, deltaOf, order);
      && (forall k :: k in table <==> exists id, e :: id in order && e in deltaOf(id) && e.0 == k)
      && (forall k :: k in table ==> table[k] == value(k))
  {
    if order != [] {
      var init, last := order[..|order| - 1], order[|order| - 1];
      assert order == init + [last];
      CompleteTable(p, deltaOf, init, value);
      EnterKeys(p, TableOf(p, deltaOf, init), deltaOf(last));
      EnterAgreeing(p, TableOf(p, deltaOf, init), deltaOf(last), value);
      var table := TableOf(p, deltaOf, order);
      forall k ensures k in table <==> exists id, e :: id in order && e in deltaOf(id) && e.0 == k {
        if k in table {
          if k in TableOf(p, deltaOf, init) {
            var id, e :| id in init && e in deltaOf(id) && e.0 == k;
            assert id in order;
          } else {
            var x :| 0 <= x < |deltaOf(last)| && deltaOf(last)[x].0 == k;
            assert deltaOf(last)[x] in deltaOf(last);
          }
        }
        if id, e :| id in order && e in deltaOf(id) && e.0 == k {
          assert id in init || id == last;
          if id == last {
            var x :| 0 <= x < |deltaOf(last)| && deltaOf(last)[x] == e;
          }
        }
      }
    }
  }

  ghost predicate Agreeing<B, V>(i: Input<B, V>, value: string -> V) {
    forall id, e :: id in i.sideIds && e in i.deltaOf(id) ==> e.1 == value(e.0)
  }

  /** Emissions are determined by the input: whatever the order of arrival, the redeliveries, the
    * crashes, and even the policy, a batch is emitted with one and the same content. */
  lemma EmissionIsDetermined<B, V, O>(join: Join<B, V, O>, join': Join<B, V, O>, i: Input<B, V>, value: string -> V,
                                      ops: seq<Op<B, V>>, ops': seq<Op<B, V>>, e: Emission<O>, e': Emission<O>)
    requires Feeds(i, ops) && Feeds(i, ops') && Agreeing(i, value) && join.emit == join'.emit
    requires e in Run(join, ops).out && e' in Run(join', ops').out && e.mid == e'.mid
    ensures e == e'
  {
    EmissionsUseCompleteTable(join, i, ops, e);
    EmissionsUseCompleteTable(join', i, ops', e');
    var a, b := Run(join, ops).order, Run(join', ops').order;
    CompleteTable(join.policy, i.deltaOf, a, value);
    CompleteTable(join'.policy, i.deltaOf, b, value);
    SameTable(TableOf(join.policy, i.deltaOf, a), TableOf(join'.policy, i.deltaOf, b), i.deltaOf, a, b, value);
  }

  lemma SameTable<V>(t: map<string, V>, u: map<string, V>, deltaOf: string -> Delta<V>,
                     a: seq<string>, b: seq<string>, value: string -> V)
    requires forall id :: id in a <==> id in b
    requires forall k :: k in t <==> exists id, e :: id in a && e in deltaOf(id) && e.0 == k
    requires forall k :: k in u <==> exists id, e :: id in b && e in deltaOf(id) && e.0 == k
    requires (forall k :: k in t ==> t[k] == value(k)) && (forall k :: k in u ==> u[k] == value(k))
    ensures t == u
  {
  }
}
