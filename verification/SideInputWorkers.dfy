/** The joining workers as the objects they are: the tracker (`src/common/worker/utils/side_input_tracker.py`),
  * the spill files (`src/common/worker/utils/spill.py`) and the handlers of
  * `src/common/worker/side_input_stateless_worker.py`, each proved against a step of module SideInput. */
module SideInputWorkers {
  import opened Options
  import opened SideInput

  class SideInputTracker {
    var received: map<string, nat>
    var expected: map<string, int>
    var ready: map<string, bool>

    constructor ()
      ensures forall k :: Of(k) == NO_SIDE
    {
      received, expected, ready := map[], map[], map[];
    }

    ghost function Of(key: string): Tracker
      reads this
    {
      Tracker(if key in received then received[key] else 0,
              if key in expected then Some(expected[key]) else None,
              key in ready && ready[key])
    }

    method TrackBatch(key: string) returns (became: bool)
      modifies this
      ensures Of(key) == Track(old(Of(key))) && became == (Of(key).ready && !old(Of(key)).ready)
      ensures key in received && received[key] == old(Received(key)) + 1 && expected == old(expected)
      ensures IsReady(key) <==> old(IsReady(key)) || (key in expected && received[key] >= expected[key])
      ensures forall k :: k != key ==> Of(k) == old(Of(k))
    {
      received := received[key := (if key in received then received[key] else 0) + 1];
      became := CheckReadyOf(key);
    }

    method SetExpected(key: string, count: int) returns (became: bool)
      modifies this
      ensures Of(key) == Expect(old(Of(key)), count) && became == (Of(key).ready && !old(Of(key)).ready)
      ensures IsReady(key) <==> old(IsReady(key)) || old(Received(key)) >= count
      ensures forall k :: k != key ==> Of(k) == old(Of(k))
    {
      expected := expected[key := count];
      became := CheckReadyOf(key);
    }

    function IsReady(key: string): (r: bool)
      reads this
      ensures r == Of(key).ready
    {
      key in ready && ready[key]
    }

    function Received(key: string): (n: nat)
      reads this
      ensures n == Of(key).received
    {
      if key in received then received[key] else 0
    }

    function Expected(key: string): (n: Option<int>)
      reads this
      ensures n == Of(key).expected
    {
      if key in expected then Some(expected[key]) else None
    }

    method Drop(key: string)
      modifies this
      ensures Of(key) == NO_SIDE
      ensures forall k :: k != key ==> Of(k) == old(Of(k))
    {
      received, expected, ready := received - {key}, expected - {key}, ready - {key};
    }

    method RestoreFlow(key: string, count: nat, total: Option<int>)
      modifies this
      ensures Of(key) == Restore(old(Of(key)), count, total)
      ensures Received(key) == count && Expected(key) == (if total.Some? then total else old(Expected(key)))
      ensures IsReady(key) <==> Expected(key).Some? && count >= Expected(key).value
      ensures forall k :: k != key ==> Of(k) == old(Of(k))
    {
      received := received[key := count];
      ready := ready - {key};
      if total.Some? { expected := expected[key := total.value]; }
      var _ := CheckReadyOf(key);
    }

    /** A new process starts with an empty tracker. */
    method Reset()
      modifies this
      ensures forall k :: Of(k) == NO_SIDE
    {
      received, expected, ready := map[], map[], map[];
    }

    /** `_check_ready`: true exactly when this call switches readiness on. */
    method CheckReadyOf(key: string) returns (became: bool)
      modifies this`ready
      ensures Of(key) == CheckReady(old(Of(key))) && became == (Of(key).ready && !old(Of(key)).ready)
      ensures forall k :: k != key ==> Of(k) == old(Of(k))
    {
      if key !in ready { ready := ready[key := false]; }
      if ready[key] { return false; }
      if key !in expected { return false; }
      if (if key in received then received[key] else 0) < expected[key] { return false; }
      ready := ready[key := true];
      return true;
    }
  }

  /** One append-only file per client, with a cache of open handles. A handle is never left behind on
    * a file that is gone, so that no later write is lost. */
  class BatchSpill<B> {
    var files: map<string, seq<B>>
    var open: set<string>

    ghost predicate Valid()
      reads this
    {
      open <= files.Keys
    }

    constructor ()
      ensures Valid() && forall k :: Content(k) == []
    {
      files, open := map[], {};
    }

    function Content(key: string): seq<B>
      reads this
    {
      if key in files then files[key] else []
    }

    method Write(key: string, batch: B)
      requires Valid()
      modifies this
      ensures Valid() && Content(key) == old(Content(key)) + [batch]
      ensures forall k :: k != key ==> Content(k) == old(Content(k))
    {
      if key !in open {
        if key !in files { files := files[key := []]; }
        open := open + {key};
      }
      files := files[key := files[key] + [batch]];
    }

    /** The first half of a drain: close the handle and read the batches, the file still in place. */
    method Lines(key: string) returns (lines: seq<B>)
      requires Valid()
      modifies this`open
      ensures Valid() && key !in open && lines == Content(key)
    {
      open := open - {key};
      lines := Content(key);
    }

    method CloseAll()
      requires Valid()
      modifies this`open
      ensures Valid() && open == {}
    {
      open := {};
    }

    /** The second half of a drain, and `discard`. */
    method Discard(key: string)
      requires Valid()
      modifies this
      ensures Valid() && Content(key) == []
      ensures forall k :: k != key ==> Content(k) == old(Content(k))
    {
      open := open - {key};
      files := files - {key};
    }
  }

  // --- logs shared by all clients ---

  ghost function For<T>(log: seq<(string, T)>, c: string): seq<T> {
    if log == [] then []
    else For(log[..|log| - 1], c) + if log[|log| - 1].0 == c then [log[|log| - 1].1] else []
  }

  lemma ForAppend<T>(log: seq<(string, T)>, e: (string, T))
    ensures For(log + [e], e.0) == For(log, e.0) + [e.1]
    ensures forall c :: c != e.0 ==> For(log + [e], c) == For(log, c)
  {
    assert (log + [e])[..|log|] == log;
  }

  /** What is written about a flow in a compacted log. */
  ghost function SnapshotOf<V>(m: Memory<V>, state: Delta<V>): Record<V> {
    Snapshot(m.main, m.side, m.tracker.received, m.tracker.expected, state)
  }

  lemma EmptyLogs<V>(p: Policy, wal: seq<(string, Record<V>)>)
    requires wal == []
    ensures forall c :: For(wal, c) == [] && Recovered(p, For(wal, c)) == EmptyMemory()
  {
  }

  datatype Channel = MainChannel | SideChannel

  datatype SideMessage<V> = SideBatch(delta: Delta<V>) | SideEnd(count: int)

  const CLEANUP_COUNT := -1

  /** A joining worker and its disk. `due`, `fired` and `order` are history (see SideInput.World). */
  class JoinWorker<!B(!new), !V(!new), O(!new)> {
    const join: Join<B, V, O>
    const tracker: SideInputTracker
    const spill: BatchSpill<Spilled<B>>
    var seen: map<(Channel, string), set<string>>
    var tables: map<string, map<string, V>>
    var wal: seq<(string, Record<V>)>
    var out: seq<(string, Emission<O>)>
    ghost var due: set<string>
    ghost var fired: map<string, nat>
    ghost var order: map<string, seq<string>>

    function SeenOf(ch: Channel, c: string): set<string>
      reads this`seen
    {
      if (ch, c) in seen then seen[(ch, c)] else {}
    }

    function TableFor(c: string): map<string, V>
      reads this`tables
    {
      if c in tables then tables[c] else map[]
    }

    function FlowKeys(): set<string>
      reads this`seen
    {
      ClientsOf(seen)
    }

    ghost function MemoryOf(c: string): Memory<V>
      reads this, tracker
    {
      Memory(SeenOf(MainChannel, c), SeenOf(SideChannel, c), tracker.Of(c), TableFor(c))
    }

    ghost function WorldOf(c: string): World<B, V, O>
      reads this, tracker, spill
    {
      World(MemoryOf(c), For(wal, c), spill.Content(c), c in due, For(out, c),
            FiredOf(c), OrderOf(c))
    }

    ghost function FiredOf(c: string): nat
      reads this`fired
    {
      if c in fired then fired[c] else 0
    }

    ghost function OrderOf(c: string): seq<string>
      reads this`order
    {
      if c in order then order[c] else []
    }

    /** Every flow that is remembered is among the flow keys, so that neither a compaction nor the drain
      * at the start misses one. */
    ghost predicate Valid()
      reads this, tracker, spill
    {
      spill.Valid() && forall c :: MemoryOf(c) != EmptyMemory() ==> c in FlowKeys()
    }

    constructor (join: Join<B, V, O>)
      ensures Valid() && fresh(tracker) && fresh(spill) && this.join == join
      ensures forall c :: WorldOf(c) == Start()
    {
      this.join := join;
      tracker := new SideInputTracker();
      spill := new BatchSpill();
      seen, tables, wal, out := map[], map[], [], [];
      due, fired, order := {}, map[], map[];
    }

    method ApplySideDelta(c: string, delta: Delta<V>)
      modifies this`tables
      ensures TableFor(c) == Enter(join.policy, old(TableFor(c)), delta)
      ensures forall x :: x != c ==> TableFor(x) == old(TableFor(x))
    {
      var table := TableFor(c);
      ghost var before := table;
      for i := 0 to |delta|
        invariant table == Enter(join.policy, before, delta[..i])
      {
        if join.policy.LastWins? || delta[i].0 !in table {
          table := table[delta[i].0 := delta[i].1];
        }
        assert delta[..i + 1][..i] == delta[..i];
      }
      assert delta[..|delta|] == delta;
      tables := tables[c := table];
    }

    method Append(c: string, r: Record<V>)
      modifies this`wal
      ensures For(wal, c) == For(old(wal), c) + [r]
      ensures forall x :: x != c ==> For(wal, x) == For(old(wal), x)
    {
      wal := wal + [(c, r)];
      ForAppend(old(wal), (c, r));
    }

    method Emit(c: string, mid: string, batch: B, table: map<string, V>)
      modifies this`out
      ensures For(out, c) == For(old(out), c) + [Emission(mid, join.emit(batch, table))]
      ensures forall x :: x != c ==> For(out, x) == For(old(out), x)
    {
      var e := (c, Emission(mid, join.emit(batch, table)));
      out := out + [e];
      ForAppend(old(out), e);
    }

    method AddSeen(ch: Channel, c: string, mid: string)
      modifies this`seen
      ensures SeenOf(ch, c) == old(SeenOf(ch, c)) + {mid}
      ensures forall h, x :: (h, x) != (ch, c) ==> SeenOf(h, x) == old(SeenOf(h, x))
      ensures FlowKeys() == old(FlowKeys()) + {c}
    {
      AddAllSeen(ch, c, {mid});
    }

    /** `_handle_message` with `_handle_data_message` of the two workers, as one step. */
    method HandleMain(c: string, mid: string, batch: B)
      requires Valid()
      modifies this, spill
      ensures Valid()
      ensures WorldOf(c) == Step(join, old(WorldOf(c)), Main(mid, batch))
      ensures forall x :: x != c ==> WorldOf(x) == old(WorldOf(x))
    {
      hide For, Enter, Recovered, FlowKeys, SeenOf, TableFor, OrderOf, FiredOf;
      if mid in SeenOf(MainChannel, c) { return; }
      if tracker.IsReady(c) {
        Emit(c, mid, batch, TableFor(c));
      } else {
        spill.Write(c, Spilled(mid, batch));
      }
      AddSeen(MainChannel, c, mid);
      Append(c, MainRecord(mid));
    }

    /** `_handle_side_message` up to the acknowledgement. A true result schedules the callback. */
    method HandleSide(c: string, mid: string, msg: SideMessage<V>) returns (became: bool)
      requires Valid()
      modifies this, tracker, spill
      ensures Valid()
      ensures mid !in old(SeenOf(SideChannel, c)) && msg == SideEnd(-1) ==>
        && !became && MemoryOf(c) == EmptyMemory() && spill.Content(c) == []
        && For(wal, c) == For(old(wal), c) + [Cleanup]
      ensures msg.SideBatch? ==> WorldOf(c) == Step(join, old(WorldOf(c)), Side(mid, msg.delta))
      ensures msg.SideEnd? && msg.count != -1 ==>
        WorldOf(c) == Step(join, old(WorldOf(c)), SideEof(mid, msg.count))
      ensures msg != SideEnd(-1) ==> became == (WorldOf(c).due && WorldOf(c).fired > old(WorldOf(c).fired))
      ensures forall x :: x != c ==> WorldOf(x) == old(WorldOf(x))
    {
      hide For, Enter, Recovered, Replay;
      if mid in SeenOf(SideChannel, c) { return false; }
      match msg {
        case SideBatch(delta) => became := TakeSideBatch(c, mid, delta);
        case SideEnd(count) =>
          if count == CLEANUP_COUNT {
            Forget(c);
            Append(c, Cleanup);
            return false;
          }
          became := TakeSideEof(c, mid, count);
      }
    }

    method TakeSideBatch(c: string, mid: string, delta: Delta<V>) returns (became: bool)
      requires Valid() && mid !in SeenOf(SideChannel, c)
      modifies this, tracker
      ensures Valid()
      ensures WorldOf(c) == Step(join, old(WorldOf(c)), Side(mid, delta))
      ensures became == (WorldOf(c).due && WorldOf(c).fired > old(WorldOf(c).fired))
      ensures forall x :: x != c ==> WorldOf(x) == old(WorldOf(x))
    {
      hide For, Enter, Recovered, FlowKeys, SeenOf, TableFor, OrderOf, FiredOf;
      hide Replay;
      became := EnterBatch(c, mid, delta);
      Append(c, SideRecord(mid, delta));
      Note(c, mid);
      if became { Schedule(c); }
    }

    /** The effect on memory, which replaying the record repeats. */
    method EnterBatch(c: string, mid: string, delta: Delta<V>) returns (became: bool)
      requires Valid()
      modifies this`seen, this`tables, tracker
      ensures Valid()
      ensures MemoryOf(c) == Replay(join.policy, old(MemoryOf(c)), SideRecord(mid, delta))
      ensures became == (MemoryOf(c).tracker.ready && !old(MemoryOf(c).tracker.ready))
      ensures forall x :: x != c ==> MemoryOf(x) == old(MemoryOf(x))
    {
      hide For, Enter, FlowKeys, SeenOf, TableFor;
      AddSeen(SideChannel, c, mid);
      ApplySideDelta(c, delta);
      became := tracker.TrackBatch(c);
    }

    method TakeSideEof(c: string, mid: string, count: int) returns (became: bool)
      requires Valid() && mid !in SeenOf(SideChannel, c)
      modifies this, tracker
      ensures Valid()
      ensures WorldOf(c) == Step(join, old(WorldOf(c)), SideEof(mid, count))
      ensures became == (WorldOf(c).due && WorldOf(c).fired > old(WorldOf(c).fired))
      ensures forall x :: x != c ==> WorldOf(x) == old(WorldOf(x))
    {
      hide For, Enter, Recovered, FlowKeys, SeenOf, TableFor, OrderOf, FiredOf;
      AddSeen(SideChannel, c, mid);
      became := tracker.SetExpected(c, count);
      Append(c, SideEofRecord(mid, count));
      if became { Schedule(c); }
    }

    ghost method Schedule(c: string)
      modifies this`due, this`fired
      ensures due == old(due) + {c} && FiredOf(c) == old(FiredOf(c)) + 1
      ensures forall x :: x != c ==> FiredOf(x) == old(FiredOf(x))
    {
      due := due + {c};
      fired := fired[c := FiredOf(c) + 1];
    }

    ghost method Note(c: string, mid: string)
      modifies this`order
      ensures OrderOf(c) == old(OrderOf(c)) + [mid]
      ensures forall x :: x != c ==> OrderOf(x) == old(OrderOf(x))
    {
      order := order[c := OrderOf(c) + [mid]];
    }

    /** `_forget_flow` with the workers' `_cleanup_state`. */
    method Forget(c: string)
      requires Valid()
      modifies this`seen, this`tables, tracker, spill
      ensures Valid() && MemoryOf(c) == EmptyMemory() && spill.Content(c) == []
      ensures forall x :: x != c ==> MemoryOf(x) == old(MemoryOf(x)) && spill.Content(x) == old(spill.Content(x))
    {
      hide FlowKeys, SeenOf, TableFor;
      ForgetSeen(c);
      DropTable(c);
      tracker.Drop(c);
      spill.Discard(c);
    }

    method DropTable(c: string)
      modifies this`tables
      ensures TableFor(c) == map[]
      ensures forall x :: x != c ==> TableFor(x) == old(TableFor(x))
    {
      tables := tables - {c};
    }

    method ForgetSeen(c: string)
      modifies this`seen
      ensures forall h :: SeenOf(h, c) == {}
      ensures forall h, x :: x != c ==> SeenOf(h, x) == old(SeenOf(h, x))
      ensures FlowKeys() == old(FlowKeys()) - {c}
    {
      seen := map k | k in seen && k.1 != c :: seen[k];
      forall x ensures x in FlowKeys() <==> x in old(FlowKeys()) && x != c {
        if x in old(FlowKeys()) && x != c {
          var k :| k in old(seen) && k.1 == x;
          assert k in seen;
        }
      }
    }

    /** `_on_side_input_ready`: emit what was spilled, with the table as it is, and remove the file. */
    method OnSideInputReady(c: string)
      requires Valid() && c in due
      modifies this`out, this`due, spill
      ensures Valid()
      ensures WorldOf(c) == Step(join, old(WorldOf(c)), Callback)
      ensures forall x :: x != c ==> WorldOf(x) == old(WorldOf(x))
      ensures due == old(due) - {c}
    {
      hide For, Enter, Recovered, Replay;
      var table := TableFor(c);
      var lines := spill.Lines(c);
      for i := 0 to |lines|
        invariant Valid() && spill.files == old(spill.files) && due == old(due)
        invariant For(out, c) == For(old(out), c) + Drained(join, table, lines[..i])
        invariant forall x :: x != c ==> For(out, x) == For(old(out), x)
      {
        Emit(c, lines[i].mid, lines[i].batch, table);
        assert Drained(join, table, lines[..i + 1]) ==
          Drained(join, table, lines[..i]) + [Emission(lines[i].mid, join.emit(lines[i].batch, table))];
      }
      assert lines[..|lines|] == lines;
      spill.Discard(c);
      due := due - {c};
    }

    // --- recovery ---

    method ReplayRecord(c: string, r: Record<V>)
      requires Valid()
      modifies this`seen, this`tables, tracker, spill
      ensures Valid()
      ensures MemoryOf(c) == Replay(join.policy, old(MemoryOf(c)), r)
      ensures forall x :: x != c ==> MemoryOf(x) == old(MemoryOf(x))
      ensures forall x :: r != Cleanup || x != c ==> spill.Content(x) == old(spill.Content(x))
    {
      hide Enter, FlowKeys, SeenOf, TableFor;
      match r {
        case MainRecord(mid) => AddSeen(MainChannel, c, mid);
        case SideRecord(mid, delta) => var _ := EnterBatch(c, mid, delta);
        case SideEofRecord(mid, count) =>
          AddSeen(SideChannel, c, mid);
          var _ := tracker.SetExpected(c, count);
        case Snapshot(_, _, _, _, _) => RestoreSnapshot(c, r);
        case Cleanup => Forget(c);
      }
    }

    method RestoreSnapshot(c: string, r: Record<V>)
      requires Valid() && r.Snapshot?
      modifies this`seen, this`tables, tracker
      ensures Valid()
      ensures MemoryOf(c) == Replay(join.policy, old(MemoryOf(c)), r)
      ensures forall x :: x != c ==> MemoryOf(x) == old(MemoryOf(x))
    {
      hide Enter, FlowKeys, SeenOf, TableFor;
      AddAllSeen(MainChannel, c, r.main);
      AddAllSeen(SideChannel, c, r.side);
      ApplySideDelta(c, r.state);
      tracker.RestoreFlow(c, r.received, r.expected);
    }

    method AddAllSeen(ch: Channel, c: string, mids: set<string>)
      modifies this`seen
      ensures SeenOf(ch, c) == old(SeenOf(ch, c)) + mids
      ensures forall h, x :: (h, x) != (ch, c) ==> SeenOf(h, x) == old(SeenOf(h, x))
      ensures FlowKeys() == old(FlowKeys()) + {c}
    {
      var s := SeenOf(ch, c) + mids;
      seen := seen[(ch, c) := s];
      KeysAfter(old(seen), (ch, c), s);
    }

    /** `_side_state_as_delta`. */
    method SideStateAsDelta(c: string) returns (delta: Delta<V>)
      ensures ListsTable(delta, TableFor(c))
    {
      var table := TableFor(c);
      delta := [];
      var todo := table.Keys;
      while todo != {}
        invariant todo <= table.Keys
        invariant forall i, j :: 0 <= i < j < |delta| ==> delta[i].0 != delta[j].0
        invariant forall e :: e in delta ==> e.0 in table && e.0 !in todo && table[e.0] == e.1
        invariant forall k :: k in table && k !in todo ==> (k, table[k]) in delta
        decreases todo
      {
        var k :| k in todo;
        todo := todo - {k};
        delta := delta + [(k, table[k])];
      }
    }

    /** `_snapshot_flow`. */
    method SnapshotFlow(c: string) returns (record: Record<V>)
      ensures record.Snapshot? && ListsTable(record.state, TableFor(c))
      ensures record == SnapshotOf(MemoryOf(c), record.state)
    {
      var delta := SideStateAsDelta(c);
      record := Snapshot(SeenOf(MainChannel, c), SeenOf(SideChannel, c), tracker.Received(c), tracker.Expected(c), delta);
    }

    /** `_compact`: one snapshot per flow key. `states` lists the tables as they were written. */
    method CompactLog() returns (ghost states: map<string, Delta<V>>)
      requires Valid()
      modifies this`wal
      ensures Valid() && states.Keys == FlowKeys()
      ensures forall c :: c in states ==> ListsTable(states[c], TableFor(c)) && For(wal, c) == [SnapshotOf(MemoryOf(c), states[c])]
      ensures forall c :: c !in states ==> For(wal, c) == []
    {
      var records: seq<(string, Record<V>)> := [];
      states := map[];
      var todo := FlowKeys();
      while todo != {}
        invariant Valid() && todo <= FlowKeys() && states.Keys == FlowKeys() - todo
        invariant forall c :: c in states ==> ListsTable(states[c], TableFor(c)) && For(records, c) == [SnapshotOf(MemoryOf(c), states[c])]
        invariant forall c :: c !in states ==> For(records, c) == []
        decreases todo
      {
        hide For, ListsTable, FlowKeys, MemoryOf, TableFor;
        var c :| c in todo;
        todo := todo - {c};
        var record := SnapshotFlow(c);
        ForAppend(records, (c, record));
        records := records + [(c, record)];
        states := states[c := record.state];
      }
      wal := records;
    }

    /** `_recover`: rebuild memory, then compact. */
    method Recover() returns (ghost states: map<string, Delta<V>>)
      requires Valid()
      modifies this`seen, this`tables, this`due, this`fired, this`wal, tracker, spill
      ensures Valid()
      ensures forall c :: MemoryOf(c) == Recovered(join.policy, For(old(wal), c))
      ensures forall c :: c in states ==> ListsTable(states[c], TableFor(c)) && For(wal, c) == [SnapshotOf(MemoryOf(c), states[c])]
      ensures forall c :: c !in states ==> For(wal, c) == [] && MemoryOf(c) == EmptyMemory()
      ensures forall c :: c in states && Cleanup !in For(old(wal), c) ==>
        WorldOf(c) == Step(join, Step(join, old(WorldOf(c)), Restart), Compact(states[c]))
      ensures forall c :: c in due <==> tracker.Of(c).ready
    {
      hide For, Recovered, Replay, ListsTable, FlowKeys, SeenOf, TableFor, OrderOf, FiredOf;
      var replayed := wal != [];
      RestartProcess();
      if replayed {
        states := CompactLog();
      } else {
        states := map[];
        EmptyLogs(join.policy, wal);
      }
    }

    /** The process dies and starts again: memory is rebuilt from the log, and for every flow that was
      * ready the drain is due. A spill file is as the crash left it, unless a cleanup is replayed. */
    method RestartProcess()
      requires Valid()
      modifies this`seen, this`tables, this`due, this`fired, tracker, spill
      ensures Valid()
      ensures forall c :: MemoryOf(c) == Recovered(join.policy, For(wal, c))
      ensures forall c :: Cleanup !in For(wal, c) ==> WorldOf(c) == Restarted(join, old(WorldOf(c)))
      ensures forall c :: c in due <==> tracker.Of(c).ready
    {
      hide For, Recovered, Replay, FlowKeys, SeenOf, TableFor, FiredOf, OrderOf;
      ReplayLog();
      ScheduleReady();
    }

    ghost method ScheduleReady()
      requires Valid()
      modifies this`due, this`fired
      ensures forall c :: c in due <==> tracker.Of(c).ready
      ensures forall c :: FiredOf(c) == if tracker.Of(c).ready then 1 else 0
    {
      due := set c | c in FlowKeys() && tracker.IsReady(c);
      fired := map c | c in due :: 1;
      forall c ensures c in due <==> tracker.Of(c).ready {
        assert tracker.Of(c).ready ==> MemoryOf(c) != EmptyMemory();
      }
    }

    method ReplayLog()
      requires Valid()
      modifies this`seen, this`tables, tracker, spill
      ensures Valid()
      ensures forall c :: MemoryOf(c) == Recovered(join.policy, For(wal, c))
      ensures forall c :: Cleanup !in For(wal, c) ==> spill.Content(c) == old(spill.Content(c))
    {
      seen, tables := map[], map[];
      tracker.Reset();
      spill.CloseAll();
      for i := 0 to |wal|
        invariant Valid()
        invariant forall c :: MemoryOf(c) == Recovered(join.policy, For(wal[..i], c))
        invariant forall c :: Cleanup !in For(wal[..i], c) ==> spill.Content(c) == old(spill.Content(c))
      {
        hide For, Recovered, Replay, FlowKeys, SeenOf, TableFor;
        var (c, r) := wal[i];
        assert wal[..i + 1] == wal[..i] + [(c, r)];
        ForAppend(wal[..i], (c, r));
        RecoveredAppend(join.policy, For(wal[..i], c), r);
        ReplayRecord(c, r);
      }
      assert wal[..|wal|] == wal;
    }

    /** `_drain_ready_flows`, before anything is consumed: no ready flow keeps a spilled batch. */
    method DrainReadyFlows()
      requires Valid() && forall c :: c in due <==> tracker.Of(c).ready
      modifies this`out, this`due, spill
      ensures Valid()
      ensures forall c :: WorldOf(c) == Step(join, old(WorldOf(c)), Callback)
      ensures due == {}
    {
      hide For, Enter, Recovered, Replay, Drained;
      var todo := FlowKeys();
      while todo != {}
        invariant Valid() && due <= todo
        invariant forall c :: c in due ==> tracker.Of(c).ready
        invariant forall c :: tracker.Of(c).ready && c in todo ==> c in due
        invariant forall c :: WorldOf(c) == if c in old(due) && c !in due then Step(join, old(WorldOf(c)), Callback) else old(WorldOf(c))
        decreases todo
      {
        var c :| c in todo;
        todo := todo - {c};
        if tracker.IsReady(c) { OnSideInputReady(c); }
      }
    }
  }

  function ClientsOf(seen: map<(Channel, string), set<string>>): set<string> { set k | k in seen :: k.1 }

  lemma KeysAfter(before: map<(Channel, string), set<string>>, k: (Channel, string), s: set<string>)
    ensures ClientsOf(before[k := s]) == ClientsOf(before) + {k.1}
  {
    var after := before[k := s];
    assert k in after;
    forall c | c in ClientsOf(before) ensures c in ClientsOf(after) {
      var p :| p in before && p.1 == c;
      assert p in after;
    }
  }

  lemma RecoveredAppend<V>(p: Policy, wal: seq<Record<V>>, r: Record<V>)
    ensures Recovered(p, wal + [r]) == Replay(p, Recovered(p, wal), r)
  {
    assert (wal + [r])[..|wal|] == wal;
  }
}
