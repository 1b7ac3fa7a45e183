/** The ring with replicas that crash. Every replica is a worker with its log (module WorkerLog); it may
  * restart and compact its log at any moment between handlers, and crash in the middle of handling a
  * data message or a flush, after some of the messages have been sent. The ring protocol does not notice. */
module RingCrashes {
  import opened Collections
  import opened Options
  import opened RingNode
  import opened RingProtocol
  import opened RingInvariant
  import opened RingTheorems
  import WorkerLog

  /** A stage whose replicas keep state: what a data message changes at a replica. */
  datatype Plant<!S, !D> = Plant(ring: Setup, kind: WorkerLog.Kind<S, D>, change: (nat, string) -> D)

  /** The replicas with their logs, and what has been sent. */
  datatype Cluster<S, D> = Cluster(replicas: seq<WorkerLog.World<S, D>>, outs: seq<set<Out>>, hops: seq<Hop>,
                                   counted: nat, flushLog: seq<nat>, finals: seq<int>)

  /** `DataCut` and `FlushCut` are handlings that have sent `sent` when the replica crashes, before
    * anything is logged. */
  datatype Event =
    | Handle(action: Action)
    | Restart(replica: nat)
    | Compact(at: nat, keys: seq<string>)
    | DataCut(node: nat, id: string, part: set<Out>)
    | FlushCut(hop: nat, sent: set<Out>)

  ghost function NodeOf<S, D>(p: Plant<S, D>, w: WorkerLog.World<S, D>): Node {
    WorkerLog.Get(p.kind, w.flows, p.ring.client).node
  }

  /** The ring as the cluster realises it. */
  ghost function Project<S, D>(p: Plant<S, D>, cl: Cluster<S, D>): Sys {
    Sys(seq(|cl.replicas|, i requires 0 <= i < |cl.replicas| => NodeOf(p, cl.replicas[i])),
        cl.outs, cl.hops, cl.counted, cl.flushLog, cl.finals)
  }

  // --- steps ---

  ghost function Begin<S, D>(p: Plant<S, D>): Cluster<S, D>
    requires WellFormed(p.ring)
  {
    var s := Init(p.ring);
    Cluster(seq(p.ring.size, _ => WorkerLog.Run(p.kind, [])), s.outs, [], 0, [], [])
  }

  ghost predicate Sized<S, D>(p: Plant<S, D>, cl: Cluster<S, D>) {
    |cl.replicas| == |cl.outs| == p.ring.size
  }

  /** The replica that handles an action, and the log operation it is. */
  ghost function Handler<S, D>(p: Plant<S, D>, cl: Cluster<S, D>, a: Action): Option<(nat, WorkerLog.Op<D>)>
    requires WellFormed(p.ring) && Sized(p, cl)
  {
    match a
    case Data(i, m) =>
      if i < p.ring.size && m in p.ring.inbox[i] then
        Some((i, WorkerLog.Data(p.ring.client, m, WorkerLog.Delta(p.change(i, m), |p.ring.emit(i, m)|))))
      else None
    case Eof => Some((p.ring.start, WorkerLog.Eof(p.ring.client, p.ring.eofId)))
    case Token(k) =>
      if k < |cl.hops| && cl.hops[k].dest < p.ring.size then
        Some((cl.hops[k].dest, WorkerLog.Token(p.ring.client, cl.hops[k].msg, |FlushOuts(p.ring, Project(p, cl), k)|)))
      else None
  }

  ghost function OnReplica<S, D>(p: Plant<S, D>, cl: Cluster<S, D>, i: nat, op: WorkerLog.Op<D>): Cluster<S, D> {
    if i < |cl.replicas| then cl.(replicas := cl.replicas[i := WorkerLog.Step(p.kind, cl.replicas[i], op)]) else cl
  }

  ghost function Sent<S, D>(cl: Cluster<S, D>, i: nat, outs: set<Out>): Cluster<S, D> {
    if i < |cl.outs| then cl.(outs := cl.outs[i := cl.outs[i] + outs]) else cl
  }

  /** A handler sends what the ring protocol says for the counters it finds, and leaves its replica as
    * the log model says. */
  ghost function Happen<S, D>(p: Plant<S, D>, cl: Cluster<S, D>, e: Event): (cl': Cluster<S, D>)
    requires WellFormed(p.ring) && Sized(p, cl)
    ensures Sized(p, cl')
  {
    match e
    case Handle(a) =>
      var s := Apply(p.ring, Project(p, cl), a);
      var handled := match Handler(p, cl, a) case None => cl case Some((i, op)) => OnReplica(p, cl, i, op);
      handled.(outs := s.outs, hops := s.hops, counted := s.counted, flushLog := s.flushLog, finals := s.finals)
    case Restart(i) => OnReplica(p, cl, i, WorkerLog.Restart)
    case Compact(i, keys) => OnReplica(p, cl, i, WorkerLog.Compact(keys))
    case DataCut(i, m, part) =>
      if i < p.ring.size && m in p.ring.inbox[i] && part <= p.ring.emit(i, m)
      then Sent(OnReplica(p, cl, i, WorkerLog.Restart), i, part) else cl
    case FlushCut(k, part) =>
      if k < |cl.hops| && cl.hops[k].dest < p.ring.size && part <= FlushOuts(p.ring, Project(p, cl), k)
      then Sent(OnReplica(p, cl, cl.hops[k].dest, WorkerLog.Restart), cl.hops[k].dest, part) else cl
  }

  ghost function Live<S, D>(p: Plant<S, D>, events: seq<Event>): (cl: Cluster<S, D>)
    requires WellFormed(p.ring)
    ensures Sized(p, cl)
  {
    if events == [] then Begin(p) else Happen(p, Live(p, events[..|events| - 1]), events[|events| - 1])
  }

  /** The run without its crashes and compactions. */
  ghost function Undisturbed(events: seq<Event>): seq<Action> {
    if events == [] then []
    else
      var before, e := Undisturbed(events[..|events| - 1]), events[|events| - 1];
      if e.Handle? then before + [e.action] else before
  }

  // --- the simulation ---

  /** No replica would lose anything of the flow in a crash. */
  ghost predicate Safe<S, D>(p: Plant<S, D>, w: WorkerLog.World<S, D>) {
    p.ring.client !in w.cleaned && WorkerLog.Recoverable(p.kind, w, p.ring.client)
  }

  /** The cluster is in the ring's state, except that crashes may have sent some messages early: only
    * messages that the stage sends anyway. */
  ghost predicate Realises<S, D>(p: Plant<S, D>, cl: Cluster<S, D>, s: Sys)
    requires WellFormed(p.ring)
  {
    && Sized(p, cl) && |s.outs| == p.ring.size
    && Project(p, cl) == s.(outs := cl.outs)
    && (forall i :: 0 <= i < p.ring.size ==> Safe(p, cl.replicas[i]))
    && (forall i :: 0 <= i < p.ring.size ==> s.outs[i] <= cl.outs[i])
    && (forall i, o :: 0 <= i < p.ring.size && o in cl.outs[i] ==> Produced(p.ring, i, o))
  }

  /** What an action sends to the next stage from node i. */
  ghost function NewOuts(su: Setup, s: Sys, a: Action, i: nat): set<Out>
    requires WellFormed(su) && |s.nodes| == |s.outs| == su.size
  {
    match a
    case Data(j, m) => if i == j < su.size && m in su.inbox[j] && m !in s.nodes[j].main then su.emit(j, m) else {}
    case Eof => {}
    case Token(k) =>
      if k < |s.hops| && s.hops[k].dest == i < su.size && s.hops[k].msg.id !in s.nodes[i].control
      then FlushOuts(su, s, k) else {}
  }

  /** The protocol never looks at what has been sent. */
  lemma OutsDoNotMatter(su: Setup, s: Sys, outs: seq<set<Out>>, a: Action)
    requires WellFormed(su) && |s.nodes| == |s.outs| == |outs| == su.size
    ensures var x, y := Apply(su, s.(outs := outs), a), Apply(su, s, a);
      && x == y.(outs := x.outs)
      && forall i :: 0 <= i < su.size ==>
           x.outs[i] == outs[i] + NewOuts(su, s, a, i) && y.outs[i] == s.outs[i] + NewOuts(su, s, a, i)
  {
    match a
    case Data(i, m) =>
    case Eof =>
    case Token(k) => if k < |s.hops| && s.hops[k].dest < su.size { TokenOuts(su, s, outs, k); }
  }

  lemma SameFlushOuts(su: Setup, s: Sys, outs: seq<set<Out>>, k: nat)
    requires k < |s.hops| && s.hops[k].dest < |s.nodes| && s.hops[k].dest < |su.inbox|
    ensures FlushOuts(su, s.(outs := outs), k) == FlushOuts(su, s, k)
  {
  }

  lemma TokenOuts(su: Setup, s: Sys, outs: seq<set<Out>>, k: nat)
    requires WellFormed(su) && |s.nodes| == |s.outs| == |outs| == su.size
    requires k < |s.hops| && s.hops[k].dest < su.size
    ensures var x, y := OnToken(su, s.(outs := outs), k), OnToken(su, s, k);
      && x == y.(outs := x.outs)
      && forall i :: 0 <= i < su.size ==>
           x.outs[i] == outs[i] + NewOuts(su, s, Token(k), i) && y.outs[i] == s.outs[i] + NewOuts(su, s, Token(k), i)
  {
    hide TokenOutcome, CountersAfterToken, FlushOuts;
    SameFlushOuts(su, s, outs, k);
    var sent, d := FlushOuts(su, s, k), s.hops[k].dest;
    assert forall i :: 0 <= i < su.size ==> outs[d := outs[d] + sent][i] == outs[i] + (if i == d then sent else {});
    assert forall i :: 0 <= i < su.size ==> s.outs[d := s.outs[d] + sent][i] == s.outs[i] + (if i == d then sent else {});
  }

  lemma RestartKeepsNode<S, D>(p: Plant<S, D>, w: WorkerLog.World<S, D>)
    requires Safe(p, w)
    ensures var w' := WorkerLog.Step(p.kind, w, WorkerLog.Restart); Safe(p, w') && NodeOf(p, w') == NodeOf(p, w)
  {
    if p.ring.client !in WorkerLog.Clients(w.wal) { WorkerLog.UntouchedRecovers(p.kind, p.ring.client, w.wal); }
  }

  lemma CompactKeepsNode<S(!new), D>(p: Plant<S, D>, w: WorkerLog.World<S, D>, keys: seq<string>)
    requires WorkerLog.Restorable(p.kind) && Safe(p, w)
    ensures var w' := WorkerLog.Step(p.kind, w, WorkerLog.Compact(keys)); Safe(p, w') && NodeOf(p, w') == NodeOf(p, w)
  {
    WorkerLog.StepRecoverable(p.kind, w, WorkerLog.Compact(keys), p.ring.client);
  }

  /** What a handler leaves at its replica is what the ring protocol leaves at its node. */
  lemma HandlerRealises<S(!new), D>(p: Plant<S, D>, cl: Cluster<S, D>, s: Sys, a: Action)
    requires WellFormed(p.ring) && Sized(p, cl) && WorkerLog.Restorable(p.kind)
    requires Project(p, cl) == s.(outs := cl.outs) && |s.outs| == p.ring.size
    requires forall i :: 0 <= i < p.ring.size ==> Safe(p, cl.replicas[i])
    requires forall k :: 0 <= k < |s.hops| ==> s.hops[k].msg.eof.expected == p.ring.expected
    ensures var cl' := Happen(p, cl, Handle(a));
      && Project(p, cl') == Apply(p.ring, s.(outs := cl.outs), a)
      && forall i :: 0 <= i < p.ring.size ==> Safe(p, cl'.replicas[i])
  {
    hide TokenOutcome, StartToken;
    var t := s.(outs := cl.outs);
    var cl' := Happen(p, cl, Handle(a));
    match Handler(p, cl, a)
    case None => assert Project(p, cl').nodes == t.nodes;
    case Some((i, op)) =>
      WorkerLog.StepRecoverable(p.kind, cl.replicas[i], op, p.ring.client);
      HandlerNode(p, cl, a, i, op);
      assert Project(p, cl').nodes == Apply(p.ring, t, a).nodes;
  }

  lemma HandlerNode<S, D>(p: Plant<S, D>, cl: Cluster<S, D>, a: Action, i: nat, op: WorkerLog.Op<D>)
    requires WellFormed(p.ring) && Sized(p, cl) && Handler(p, cl, a) == Some((i, op)) && i < p.ring.size
    requires a.Token? ==> cl.hops[a.hop].msg.eof.expected == p.ring.expected
    ensures var w' := WorkerLog.Step(p.kind, cl.replicas[i], op); var t := Project(p, cl);
      && Apply(p.ring, t, a).nodes == t.nodes[i := NodeOf(p, w')]
      && w'.cleaned == cl.replicas[i].cleaned
  {
    hide TokenOutcome, StartToken;
    var t := Project(p, cl);
    assert t.nodes[i] == NodeOf(p, cl.replicas[i]);
    assert t.nodes[i := t.nodes[i]] == t.nodes;
  }

  lemma CutRealises<S, D>(p: Plant<S, D>, cl: Cluster<S, D>, s: Sys, i: nat, part: set<Out>)
    requires WellFormed(p.ring) && Realises(p, cl, s) && i < p.ring.size
    requires forall o :: o in part ==> Produced(p.ring, i, o)
    ensures Realises(p, Sent(OnReplica(p, cl, i, WorkerLog.Restart), i, part), s)
  {
    RestartKeepsNode(p, cl.replicas[i]);
    var cl' := Sent(OnReplica(p, cl, i, WorkerLog.Restart), i, part);
    assert Project(p, cl').nodes == Project(p, cl).nodes;
  }

  lemma CompactRealises<S(!new), D>(p: Plant<S, D>, cl: Cluster<S, D>, s: Sys, i: nat, keys: seq<string>)
    requires WellFormed(p.ring) && WorkerLog.Restorable(p.kind) && Realises(p, cl, s) && i < p.ring.size
    ensures Realises(p, OnReplica(p, cl, i, WorkerLog.Compact(keys)), s)
  {
    CompactKeepsNode(p, cl.replicas[i], keys);
    var cl' := OnReplica(p, cl, i, WorkerLog.Compact(keys));
    assert Project(p, cl').nodes == Project(p, cl).nodes;
  }

  /** Whatever has been sent in a run is produced by the stage in the end. */
  lemma SentIsProduced(su: Setup, s: Sys, i: nat, o: Out)
    requires Fed(su) && Inv(su, s) && i < su.size && o in s.outs[i]
    ensures Produced(su, i, o)
  {
    assert Emitted(su, s, i, o);
  }

  lemma HandleRealises<S(!new), D>(p: Plant<S, D>, cl: Cluster<S, D>, s: Sys, a: Action)
    requires Fed(p.ring) && WorkerLog.Restorable(p.kind) && Realises(p, cl, s)
    requires Inv(p.ring, s) && Inv(p.ring, Apply(p.ring, s, a))
    ensures Realises(p, Happen(p, cl, Handle(a)), Apply(p.ring, s, a))
  {
    hide Apply, Counts, Conserved, Outs;
    var cl', s' := Happen(p, cl, Handle(a)), Apply(p.ring, s, a);
    forall k | 0 <= k < |s.hops| ensures s.hops[k].msg.eof.expected == p.ring.expected { assert HopOk(p.ring, s, k); }
    HandlerRealises(p, cl, s, a);
    OutsDoNotMatter(p.ring, s, cl.outs, a);
    forall i, o | 0 <= i < p.ring.size && o in cl'.outs[i] ensures Produced(p.ring, i, o) {
      if o !in cl.outs[i] { SentIsProduced(p.ring, s', i, o); }
    }
  }

  lemma FlushCutRealises<S, D>(p: Plant<S, D>, cl: Cluster<S, D>, s: Sys, k: nat, part: set<Out>)
    requires Fed(p.ring) && Inv(p.ring, s) && Realises(p, cl, s)
    ensures Realises(p, Happen(p, cl, FlushCut(k, part)), s)
  {
    if k < |cl.hops| && cl.hops[k].dest < p.ring.size && part <= FlushOuts(p.ring, Project(p, cl), k) {
      var i := cl.hops[k].dest;
      assert HopOk(p.ring, s, k);
      assert FlushOuts(p.ring, Project(p, cl), k) == FlushOuts(p.ring, s, k);
      forall o | o in part ensures Produced(p.ring, i, o) {
        assert DataSeen(p.ring, s, i) == p.ring.inbox[i];
      }
      CutRealises(p, cl, s, i, part);
    }
  }

  lemma BeginRealises<S, D>(p: Plant<S, D>)
    requires WellFormed(p.ring)
    ensures Realises(p, Live(p, []), Run(p.ring, Undisturbed([])))
  {
    assert Project(p, Begin(p)).nodes == Init(p.ring).nodes;
  }

  lemma RestartRealises<S, D>(p: Plant<S, D>, cl: Cluster<S, D>, s: Sys, i: nat)
    requires WellFormed(p.ring) && Realises(p, cl, s) && i < p.ring.size
    ensures Realises(p, OnReplica(p, cl, i, WorkerLog.Restart), s)
  {
    RestartKeepsNode(p, cl.replicas[i]);
    assert Project(p, OnReplica(p, cl, i, WorkerLog.Restart)).nodes == Project(p, cl).nodes;
  }

  lemma HappenRealises<S(!new), D>(p: Plant<S, D>, cl: Cluster<S, D>, s: Sys, e: Event)
    requires Fed(p.ring) && WorkerLog.Restorable(p.kind) && Realises(p, cl, s) && Inv(p.ring, s)
    requires e.Handle? ==> Inv(p.ring, Apply(p.ring, s, e.action))
    ensures Realises(p, Happen(p, cl, e), if e.Handle? then Apply(p.ring, s, e.action) else s)
  {
    hide Inv, Apply, Project, Produced;
    match e
    case Handle(a) => HandleRealises(p, cl, s, a);
    case Restart(i) => if i < p.ring.size { RestartRealises(p, cl, s, i); }
    case Compact(i, keys) => if i < p.ring.size { CompactRealises(p, cl, s, i, keys); }
    case DataCut(i, m, part) =>
      if i < p.ring.size && m in p.ring.inbox[i] && part <= p.ring.emit(i, m) { DataCutRealises(p, cl, s, i, m, part); }
    case FlushCut(k, part) => FlushCutRealises(p, cl, s, k, part);
  }

  lemma DataCutRealises<S, D>(p: Plant<S, D>, cl: Cluster<S, D>, s: Sys, i: nat, m: string, part: set<Out>)
    requires WellFormed(p.ring) && Realises(p, cl, s)
    requires i < p.ring.size && m in p.ring.inbox[i] && part <= p.ring.emit(i, m)
    ensures Realises(p, Sent(OnReplica(p, cl, i, WorkerLog.Restart), i, part), s)
  {
    CutRealises(p, cl, s, i, part);
  }

  /** Crashes and compactions, at any moment and any number of times, leave the ring in a state of the
    * undisturbed run: same counters and seen ids at every node, same tokens, same flushes, same final EOF. */
  lemma {:induction false} RingSurvivesCrashes<S(!new), D>(p: Plant<S, D>, events: seq<Event>)
    requires Fed(p.ring) && WorkerLog.Restorable(p.kind)
    ensures Realises(p, Live(p, events), Run(p.ring, Undisturbed(events)))
  {
    if events == [] {
      BeginRealises(p);
    } else {
      hide Realises, Inv, Happen, Apply, Fed;
      var before, e := events[..|events| - 1], events[|events| - 1];
      var acts := Undisturbed(before);
      RingSurvivesCrashes(p, before);
      RunInv(p.ring, acts);
      if e.Handle? {
        RunInv(p.ring, acts + [e.action]);
        assert (acts + [e.action])[..|acts|] == acts;
      }
      HappenRealises(p, Live(p, before), Run(p.ring, acts), e);
    }
  }

  /** The flush round and the final count with crashing replicas: no replica flushes twice, at most one
    * final EOF is sent, and it counts exactly the distinct messages that have been sent, early ones
    * included; these are what the stage's data and flushes produce. */
  lemma CrashedRingIsExact<S(!new), D>(p: Plant<S, D>, events: seq<Event>)
    requires Fed(p.ring) && WorkerLog.Restorable(p.kind)
    ensures var cl := Live(p, events);
      && NoDups(cl.flushLog) && |cl.finals| <= 1
      && (cl.finals != [] <==> |cl.flushLog| == p.ring.size)
      && (cl.finals != [] ==>
            cl.finals == [|AllOuts(cl.outs)|] &&
            forall o :: o in AllOuts(cl.outs) <==> exists i :: 0 <= i < p.ring.size && Produced(p.ring, i, o))
  {
    var cl, acts := Live(p, events), Undisturbed(events);
    RingSurvivesCrashes(p, events);
    hide Live, Run, Fed, Produced;
    ExactFlushRound(p.ring, acts);
    if cl.finals != [] {
      var s := Run(p.ring, acts);
      FinalCountIsExact(p.ring, acts);
      forall o ensures o in AllOuts(cl.outs) <==> o in AllOuts(s.outs) {
        AllOutsMembers(cl.outs, o);
        AllOutsMembers(s.outs, o);
      }
      assert AllOuts(cl.outs) == AllOuts(s.outs);
    }
  }
}
