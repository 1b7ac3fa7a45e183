/** Every action of the ring keeps the invariant of `RingProtocol`. */
module RingInvariant {
  import opened Collections
  import opened Options
  import opened Ids
  import opened Arithmetic
  import opened RingNode
  import opened RingProtocol

  /** The stage is told at least as many messages as it is sent (the chain of stages shows: exactly as many). */
  ghost predicate Fed(su: Setup) {
    WellFormed(su) && Traceable(su) && InboxTotal(su) <= su.expected
  }

  lemma InitInv(su: Setup)
    requires WellFormed(su)
    ensures Inv(su, Init(su))
  {
    var s := Init(su);
    SumZero(PartialProcessed(s.nodes));
    SumZero(PartialSent(s.nodes));
    forall i | 0 <= i < su.size ensures NodeOk(su, s, i) {
      assert DataSeen(su, s, i) == {};
    }
  }

  // --- sums after one node changed ---

  lemma PartialSums(nodes: seq<Node>, i: nat, n: Node)
    requires i < |nodes|
    ensures Sum(PartialProcessed(nodes[i := n]))
         == Sum(PartialProcessed(nodes)) - nodes[i].counters.partialProcessed + n.counters.partialProcessed
    ensures Sum(PartialSent(nodes[i := n]))
         == Sum(PartialSent(nodes)) - nodes[i].counters.partialSent + n.counters.partialSent
  {
    SumUpdate(PartialProcessed(nodes), i, n.counters.partialProcessed);
    assert PartialProcessed(nodes[i := n]) == PartialProcessed(nodes)[i := n.counters.partialProcessed];
    SumUpdate(PartialSent(nodes), i, n.counters.partialSent);
    assert PartialSent(nodes[i := n]) == PartialSent(nodes)[i := n.counters.partialSent];
  }

  lemma DisjointGrowth<T>(a: set<T>, b: set<T>)
    requires a !! b
    ensures |a + b| == |a| + |b|
  {
  }

  // --- data ---

  lemma EmissionIsNew(su: Setup, s: Sys, i: nat, m: string)
    requires WellFormed(su) && Traceable(su) && Shape(su, s) && Outs(su, s)
    requires i < su.size && m !in s.nodes[i].main
    ensures s.outs[i] !! su.emit(i, m)
  {
    forall o | o in s.outs[i] ensures o !in su.emit(i, m) {
      assert Emitted(su, s, i, o);
      assert o in su.emit(i, m) ==> su.origin(o) == (i, Some(m));
    }
  }

  lemma DataCounts(su: Setup, s: Sys, i: nat, m: string)
    requires Fed(su) && Shape(su, s) && Counts(su, s) && Conserved(su, s) && Outs(su, s)
    requires i < su.size && m in su.inbox[i] && m !in s.nodes[i].main && Shape(su, OnData(su, s, i, m))
    ensures Counts(su, OnData(su, s, i, m)) && Conserved(su, OnData(su, s, i, m))
  {
    var s' := OnData(su, s, i, m);
    EmissionIsNew(su, s, i, m);
    DisjointGrowth(s.outs[i], su.emit(i, m));
    assert DataSeen(su, s', i) == DataSeen(su, s, i) + {m};
    PartialSums(s.nodes, i, s'.nodes[i]);
    forall j | 0 <= j < su.size ensures NodeOk(su, s', j) {
      assert NodeOk(su, s, j);
      assert j != i ==> DataSeen(su, s', j) == DataSeen(su, s, j);
    }
    assert |s.hops| == s.counted;
  }

  lemma {:induction false} DataStep(su: Setup, s: Sys, i: nat, m: string)
    requires Fed(su) && Inv(su, s) && i < su.size && m in su.inbox[i]
    ensures Inv(su, OnData(su, s, i, m))
  {
    hide RingId, RingSeqOf;
    var s' := OnData(su, s, i, m);
    if m !in s.nodes[i].main {
      DataOuts(su, s, i, m);
      DataCounts(su, s, i, m);
      assert forall k :: 0 <= k < |s.hops| ==> HopOk(su, s, k) && HopOk(su, s', k);
    }
  }

  lemma DataOuts(su: Setup, s: Sys, i: nat, m: string)
    requires WellFormed(su) && Shape(su, s) && Outs(su, s) && i < su.size && m in su.inbox[i]
    requires m !in s.nodes[i].main
    ensures Shape(su, OnData(su, s, i, m)) && Outs(su, OnData(su, s, i, m))
  {
    var s' := OnData(su, s, i, m);
    assert DataSeen(su, s', i) == DataSeen(su, s, i) + {m};
    forall j, o | 0 <= j < su.size ensures o in s'.outs[j] <==> Emitted(su, s', j, o) {
      assert o in s.outs[j] <==> Emitted(su, s, j, o);
      assert j != i ==> DataSeen(su, s', j) == DataSeen(su, s, j);
    }
  }

  // --- the EOF ---

  lemma EofTokens(su: Setup, s: Sys)
    requires Fed(su) && Inv(su, s) && su.eofId !in s.nodes[su.start].main
    ensures var s' := OnEof(su, s); Shape(su, s') && Tokens(su, s')
  {
    hide RingId, RingSeqOf, Counts, Conserved, Outs;
    var s' := OnEof(su, s);
    assert Dest(su, 0) == NextNode(su.start, su.size);
    assert HopOk(su, s', 0);
  }

  lemma EofCounts(su: Setup, s: Sys)
    requires Fed(su) && Inv(su, s) && su.eofId !in s.nodes[su.start].main && Shape(su, OnEof(su, s))
    ensures var s' := OnEof(su, s); Counts(su, s') && Conserved(su, s')
  {
    hide RingId, RingSeqOf, Outs;
    var s' := OnEof(su, s);
    PartialSums(s.nodes, su.start, s'.nodes[su.start]);
    forall j | 0 <= j < su.size ensures NodeOk(su, s', j) {
      assert NodeOk(su, s, j);
      assert DataSeen(su, s', j) == DataSeen(su, s, j);
    }
  }

  lemma EofOuts(su: Setup, s: Sys)
    requires Fed(su) && Inv(su, s) && su.eofId !in s.nodes[su.start].main && Shape(su, OnEof(su, s))
    ensures Outs(su, OnEof(su, s))
  {
    hide RingId, RingSeqOf, Tokens, Counts, Conserved;
    var s' := OnEof(su, s);
    forall j, o | 0 <= j < su.size ensures o in s'.outs[j] <==> Emitted(su, s', j, o) {
      assert o in s.outs[j] <==> Emitted(su, s, j, o);
      assert DataSeen(su, s', j) == DataSeen(su, s, j);
    }
  }

  lemma EofStep(su: Setup, s: Sys)
    requires Fed(su) && Inv(su, s)
    ensures Inv(su, OnEof(su, s))
  {
    if su.eofId !in s.nodes[su.start].main {
      EofTokens(su, s);
      EofCounts(su, s);
      EofOuts(su, s);
    }
  }

  // --- ring tokens ---

  /** A token delivered before is recognised; the live token never is. */
  lemma TokenSeen(su: Setup, s: Sys, k: nat)
    requires WellFormed(su) && Shape(su, s) && Tokens(su, s) && k < |s.hops|
    ensures s.hops[k].dest == Dest(su, k)
    ensures s.hops[k].msg.id in s.nodes[Dest(su, k)].control <==> k < Delivered(s)
  {
    assert HopOk(su, s, k);
    if k >= Delivered(s) && s.hops[k].msg.id in s.nodes[Dest(su, k)].control {
      var j :| 0 <= j < Delivered(s) && s.hops[j].msg.id == s.hops[k].msg.id && Dest(su, j) == Dest(su, k);
      assert HopOk(su, s, j);
      HopIdInjective(su, s.counted, j, k);
    }
  }

  lemma HopIdInjective(su: Setup, counted: nat, j: nat, k: nat)
    requires HopId(su, counted, j) == HopId(su, counted, k)
    ensures j == k
  {
    var p, q := if j < counted then RING_PHASE_COUNT else RING_PHASE_FLUSH,
                if k < counted then RING_PHASE_COUNT else RING_PHASE_FLUSH;
    RingIdInjective(su.client, p, if j < counted then j else j - counted, q, if k < counted then k else k - counted);
    assert RING_PHASE_COUNT[0] != RING_PHASE_FLUSH[0];
  }

  /** If the reported total reaches the expected count, every node has processed its whole inbox. */
  lemma ReachedMeansComplete(su: Setup, s: Sys)
    requires Fed(su) && |s.nodes| == |s.outs| == su.size
    requires forall i :: 0 <= i < su.size ==> NodeOk(su, s, i)
    requires Sum(PartialProcessed(s.nodes)) >= su.expected
    ensures Complete(su, s)
  {
    var pp, sizes := PartialProcessed(s.nodes), Sizes(su.inbox);
    forall i | 0 <= i < su.size ensures pp[i] <= s.nodes[i].counters.processed <= sizes[i] {
      assert NodeOk(su, s, i);
      SubsetSize(DataSeen(su, s, i), su.inbox[i]);
    }
    SumMonotone(pp, sizes);
    forall i | 0 <= i < su.size
      ensures su.inbox[i] <= s.nodes[i].main && s.nodes[i].counters == Reported(s.nodes[i].counters)
    {
      assert NodeOk(su, s, i);
      assert pp[i] == sizes[i];
      SubsetSize(DataSeen(su, s, i), su.inbox[i]);
    }
  }

  lemma CountHops(su: Setup, s: Sys, k: nat)
    requires Fed(su) && Inv(su, s)
    requires k < |s.hops| && k == Delivered(s) && k < s.counted && s.hops[k].dest < su.size
    ensures var s' := OnToken(su, s, k);
      && Shape(su, s') && Delivered(s') == k + 1
      && s.hops <= s'.hops && forall j :: 0 <= j < |s'.hops| ==> HopOk(su, s', j)
  {
    hide RingId, RingSeqOf;
    var s' := OnToken(su, s, k);
    TokenSeen(su, s, k);
    assert HopOk(su, s, k);
    RingSeqRoundTrip(su.client, RING_PHASE_COUNT, k);
    DestNext(su, k);
    forall j | 0 <= j < |s'.hops| ensures HopOk(su, s', j) {
      if j < |s.hops| { assert HopOk(su, s, j); }
    }
  }

  lemma CountTotals(su: Setup, s: Sys, k: nat)
    requires Fed(su) && Inv(su, s)
    requires k < |s.hops| && k == Delivered(s) && k < s.counted && s.hops[k].dest < su.size
    requires Shape(su, OnToken(su, s, k))
    ensures Counts(su, OnToken(su, s, k)) && Conserved(su, OnToken(su, s, k))
  {
    hide RingId, RingSeqOf;
    var s' := OnToken(su, s, k);
    var d := Dest(su, k);
    TokenSeen(su, s, k);
    assert HopOk(su, s, k);
    PartialSums(s.nodes, d, s'.nodes[d]);
    forall j | 0 <= j < su.size ensures NodeOk(su, s', j) {
      assert NodeOk(su, s, j);
      assert DataSeen(su, s', j) == DataSeen(su, s, j);
    }
    var eof := UpdateRingEof(d, s.nodes[d].counters, s.hops[k].msg.eof);
    assert eof.totalProcessed == Sum(PartialProcessed(s'.nodes));
    if eof.totalProcessed >= su.expected {
      ReachedMeansComplete(su, s');
    }
  }

  /** The live token in the count phase: report, and elect or pass on. */
  lemma {:induction false} CountStep(su: Setup, s: Sys, k: nat)
    requires Fed(su) && Inv(su, s)
    requires k < |s.hops| && k == Delivered(s) && k < s.counted && s.hops[k].dest < su.size
    ensures Inv(su, OnToken(su, s, k))
  {
    hide RingId, RingSeqOf;
    CountHops(su, s, k);
    CountTotals(su, s, k);
    var s' := OnToken(su, s, k);
    TokenSeen(su, s, k);
    assert HopOk(su, s, k);
    assert s'.outs == s.outs;
    OutsKept(su, s, s');
    SeenKept(su, s, k, s');
  }

  lemma OutsKept(su: Setup, s: Sys, s': Sys)
    requires WellFormed(su) && Shape(su, s) && Outs(su, s) && Shape(su, s')
    requires s'.outs == s.outs && s'.flushLog == s.flushLog
    requires forall j :: 0 <= j < su.size ==> DataSeen(su, s', j) == DataSeen(su, s, j)
    ensures Outs(su, s')
  {
    forall j, o | 0 <= j < su.size ensures o in s'.outs[j] <==> Emitted(su, s', j, o) {
      assert o in s.outs[j] <==> Emitted(su, s, j, o);
    }
  }

  /** Delivering the live token keeps "seen = delivered". */
  lemma SeenKept(su: Setup, s: Sys, k: nat, s': Sys)
    requires WellFormed(su) && Shape(su, s) && Tokens(su, s) && Shape(su, s')
    requires k < |s.hops| && k == Delivered(s) && Delivered(s') == k + 1
    requires s.hops <= s'.hops
    requires forall j :: 0 <= j < |s'.hops| ==> HopOk(su, s', j)
    requires forall j :: 0 <= j < |s'.flushLog| ==> s'.flushLog[j] == Dest(su, s'.counted + j)
    requires forall i :: 0 <= i < su.size ==>
      s'.nodes[i].control == s.nodes[i].control + (if i == Dest(su, k) then {s.hops[k].msg.id} else {})
    ensures Tokens(su, s')
  {
    forall j | 0 <= j < Delivered(s') ensures s'.hops[j].msg.id in s'.nodes[Dest(su, j)].control {
      assert s'.hops[j] == s.hops[j];
    }
    forall i, id | 0 <= i < su.size && id in s'.nodes[i].control
      ensures exists j :: 0 <= j < Delivered(s') && s'.hops[j].msg.id == id && Dest(su, j) == i
    {
      if id in s.nodes[i].control {
        var j :| 0 <= j < Delivered(s) && s.hops[j].msg.id == id && Dest(su, j) == i;
        assert s'.hops[j] == s.hops[j];
      } else {
        assert s'.hops[k] == s.hops[k];
      }
    }
  }

  lemma FlushIsNew(su: Setup, s: Sys, i: nat)
    requires WellFormed(su) && Traceable(su) && Shape(su, s) && Outs(su, s)
    requires i < su.size && i !in s.flushLog
    ensures s.outs[i] !! su.flush(i, su.inbox[i])
  {
    forall o | o in s.outs[i] ensures o !in su.flush(i, su.inbox[i]) {
      assert Emitted(su, s, i, o);
      assert o in su.flush(i, su.inbox[i]) ==> su.origin(o) == (i, None);
    }
  }

  /** The flush round ends at the coordinator, N hops after it started. */
  lemma {:induction false} LastHop(su: Setup, counted: nat, k: nat)
    requires 0 < su.size && 0 < counted <= k < counted + su.size
    ensures Dest(su, k) == Dest(su, counted - 1) <==> k == counted - 1 + su.size
  {
    if k == counted - 1 + su.size {
      DestWraps(su, counted - 1);
    } else {
      DestInjective(su, counted - 1, k);
    }
  }

  /** The live token of the flush round, spelled out. */
  ghost predicate FlushEffect(su: Setup, s: Sys, k: nat, s': Sys)
    requires WellFormed(su) && Shape(su, s) && k < |s.hops| && s.counted <= k
  {
    var d, msg := Dest(su, k), s.hops[k].msg;
    var n, sent := s.nodes[d], su.flush(d, su.inbox[d]);
    var eof := msg.eof.(totalSent := Some(msg.eof.totalSent.GetOr(0) + n.counters.sent + |sent| - n.counters.partialSent));
    && s'.nodes == s.nodes[d := Node(n.main, n.control + {msg.id}, Flushed(n.counters, |sent|))]
    && s'.outs == s.outs[d := s.outs[d] + sent]
    && s'.flushLog == s.flushLog + [d]
    && s'.counted == s.counted
    && (if k == s.counted + su.size - 1
        then s'.hops == s.hops && s'.finals == s.finals + [eof.totalSent.GetOr(0)]
        else s'.finals == s.finals &&
             s'.hops == s.hops + [Hop(Dest(su, k + 1), RingMsg(HopId(su, s.counted, k + 1), eof))])
  }

  lemma {:induction false} FlushHasEffect(su: Setup, s: Sys, k: nat)
    requires WellFormed(su) && Shape(su, s) && Tokens(su, s)
    requires k < |s.hops| && k == Delivered(s) && k >= s.counted && s.hops[k].dest < su.size
    requires DataSeen(su, s, Dest(su, k)) == su.inbox[Dest(su, k)]
    ensures FlushEffect(su, s, k, OnToken(su, s, k))
  {
    hide RingId, RingSeqOf, TokenOutcome;
    TokenSeen(su, s, k);
    assert HopOk(su, s, k);
    var d := Dest(su, k);
    FlushOutcome(d, su.client, s.nodes[d].counters, s.hops[k].msg, |su.flush(d, su.inbox[d])|, k - s.counted);
    DestNext(su, k);
    LastHop(su, s.counted, k);
  }

  lemma {:induction false} FlushHops(su: Setup, s: Sys, k: nat, s': Sys)
    requires Fed(su) && Shape(su, s) && Tokens(su, s)
    requires k < |s.hops| && k == Delivered(s) && k >= s.counted && FlushEffect(su, s, k, s')
    ensures Shape(su, s') && Tokens(su, s')
  {
    hide RingId, RingSeqOf;
    assert HopOk(su, s, k);
    forall j | 0 <= j < |s'.hops| ensures HopOk(su, s', j) {
      if j < |s.hops| { assert HopOk(su, s, j); }
    }
    SeenKept(su, s, k, s');
  }

  lemma {:induction false} FlushCounts(su: Setup, s: Sys, k: nat, s': Sys)
    requires Fed(su) && Shape(su, s) && Tokens(su, s) && Counts(su, s) && Outs(su, s)
    requires k < |s.hops| && k == Delivered(s) && k >= s.counted && FlushEffect(su, s, k, s')
    requires Shape(su, s')
    ensures Counts(su, s')
  {
    hide RingId, RingSeqOf;
    var d := Dest(su, k);
    forall j | 0 <= j < |s.flushLog| ensures s.flushLog[j] != d {
      DestInjective(su, s.counted + j, k);
    }
    FlushIsNew(su, s, d);
    DisjointGrowth(s.outs[d], su.flush(d, su.inbox[d]));
    forall j | 0 <= j < su.size ensures NodeOk(su, s', j) {
      assert NodeOk(su, s, j);
      assert DataSeen(su, s', j) == DataSeen(su, s, j);
    }
  }

  lemma {:induction false} FlushConserves(su: Setup, s: Sys, k: nat, s': Sys)
    requires Fed(su) && Shape(su, s) && Tokens(su, s) && Conserved(su, s)
    requires k < |s.hops| && k == Delivered(s) && k >= s.counted && FlushEffect(su, s, k, s')
    requires Shape(su, s')
    ensures Conserved(su, s')
  {
    hide RingId, RingSeqOf;
    var d := Dest(su, k);
    assert HopOk(su, s, k);
    PartialSums(s.nodes, d, s'.nodes[d]);
  }

  lemma FlushOutputs(su: Setup, s: Sys, k: nat, s': Sys)
    requires WellFormed(su) && Shape(su, s) && Outs(su, s)
    requires k < |s.hops| && k >= s.counted && FlushEffect(su, s, k, s')
    requires Shape(su, s')
    ensures Outs(su, s')
  {
    forall j, o | 0 <= j < su.size ensures o in s'.outs[j] <==> Emitted(su, s', j, o) {
      assert o in s.outs[j] <==> Emitted(su, s, j, o);
      assert DataSeen(su, s', j) == DataSeen(su, s, j);
    }
  }

  /** The live token in the flush round: flush once, add the sends, pass on or finish. */
  lemma {:induction false} FlushStep(su: Setup, s: Sys, k: nat)
    requires Fed(su) && Inv(su, s)
    requires k < |s.hops| && k == Delivered(s) && k >= s.counted && s.hops[k].dest < su.size
    ensures Inv(su, OnToken(su, s, k))
  {
    assert DataSeen(su, s, Dest(su, k)) == su.inbox[Dest(su, k)];
    FlushHasEffect(su, s, k);
    FlushHops(su, s, k, OnToken(su, s, k));
    FlushCounts(su, s, k, OnToken(su, s, k));
    FlushConserves(su, s, k, OnToken(su, s, k));
    FlushOutputs(su, s, k, OnToken(su, s, k));
  }

  lemma {:induction false} TokenStep(su: Setup, s: Sys, k: nat)
    requires Fed(su) && Inv(su, s) && k < |s.hops| && s.hops[k].dest < su.size
    ensures Inv(su, OnToken(su, s, k))
  {
    TokenSeen(su, s, k);
    if k == Delivered(s) {
      if k < s.counted { CountStep(su, s, k); } else { FlushStep(su, s, k); }
    }
  }

  /** Every run keeps the invariant. */
  lemma {:induction false} RunInv(su: Setup, acts: seq<Action>)
    requires Fed(su)
    ensures Inv(su, Run(su, acts))
    decreases |acts|
  {
    if acts == [] {
      InitInv(su);
    } else {
      var s, a := Run(su, acts[..|acts| - 1]), acts[|acts| - 1];
      RunInv(su, acts[..|acts| - 1]);
      match a
      case Data(i, m) => if i < su.size && m in su.inbox[i] { DataStep(su, s, i, m); }
      case Eof => EofStep(su, s);
      case Token(k) => if k < |s.hops| && s.hops[k].dest < su.size { TokenStep(su, s, k); }
    }
  }
}
