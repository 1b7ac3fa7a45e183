/** What the ring protocol guarantees over whole runs: no premature termination, one exact flush
  * round, an exact final count, and termination. */
module RingTheorems {
  import opened Collections
  import opened Options
  import opened Ids
  import opened Arithmetic
  import opened RingNode
  import opened RingProtocol
  import opened RingInvariant

  // --- safety ---

  /** A token names a coordinator only once every node has processed everything routed to it and
    * no node holds a count it has not reported. */
  lemma {:induction false} NoPrematureElection(su: Setup, acts: seq<Action>, k: nat, i: nat)
    requires Fed(su) && i < su.size
    requires k < |Run(su, acts).hops| && Run(su, acts).hops[k].msg.eof.coordinator.Some?
    ensures su.inbox[i] <= Run(su, acts).nodes[i].main
    ensures Run(su, acts).nodes[i].counters == Reported(Run(su, acts).nodes[i].counters)
  {
    RunInv(su, acts);
    assert HopOk(su, Run(su, acts), k);
  }

  /** Until the final EOF the live token carries exactly what the nodes have reported. */
  lemma {:induction false} LiveTokenConserves(su: Setup, acts: seq<Action>)
    requires Fed(su) && Run(su, acts).hops != [] && Run(su, acts).finals == []
    ensures var s := Run(su, acts);
      var eof := s.hops[|s.hops| - 1].msg.eof;
      && eof.totalProcessed == Sum(PartialProcessed(s.nodes))
      && eof.totalSent == Some(Sum(PartialSent(s.nodes)))
  {
    RunInv(su, acts);
  }

  lemma {:induction false} FlushesAreDistinct(su: Setup, s: Sys)
    requires WellFormed(su) && Shape(su, s) && Tokens(su, s)
    ensures NoDups(s.flushLog) && forall d :: d in s.flushLog ==> d < su.size
  {
    hide HopOk;
    forall i, j | 0 <= i < j < |s.flushLog| ensures s.flushLog[i] != s.flushLog[j] {
      DestInjective(su, s.counted + i, s.counted + j);
    }
  }

  lemma EveryoneFlushed(su: Setup, s: Sys)
    requires WellFormed(su) && Shape(su, s) && Tokens(su, s) && s.finals != []
    ensures forall i :: 0 <= i < su.size ==> i in s.flushLog
    ensures s.hops != [] && s.hops[|s.hops| - 1].msg.eof.coordinator == Some(s.flushLog[su.size - 1])
  {
    hide RingId;
    forall i | 0 <= i < su.size ensures i in s.flushLog {
      var k := DestCovers(su, s.counted, i);
      assert s.flushLog[k - s.counted] == i;
    }
    assert HopOk(su, s, |s.hops| - 1);
    DestWraps(su, s.counted - 1);
    assert s.flushLog[su.size - 1] == Dest(su, s.counted - 1 + su.size);
  }

  /** No node flushes twice; the final EOF is sent at most once, after all N flushes, the
    * coordinator's being the last; and every node has flushed by then. */
  lemma ExactFlushRound(su: Setup, acts: seq<Action>)
    requires Fed(su)
    ensures var s := Run(su, acts);
      && NoDups(s.flushLog)
      && (forall d :: d in s.flushLog ==> d < su.size)
      && |s.finals| <= 1
      && (s.finals != [] <==> |s.flushLog| == su.size)
      && (s.finals != [] ==>
            && (forall i :: 0 <= i < su.size ==> i in s.flushLog)
            && s.hops != []
            && s.hops[|s.hops| - 1].msg.eof.coordinator == Some(s.flushLog[su.size - 1]))
  {
    hide Run, Tokens, Counts, Conserved, Outs;
    var s := Run(su, acts);
    RunInv(su, acts);
    FlushesAreDistinct(su, s);
    if s.finals != [] {
      EveryoneFlushed(su, s);
    }
  }

  /** Everything the stage sent: all the emissions of the data it processed and, for the nodes
    * that flushed, what their flush sends. */
  ghost function AllOuts(outs: seq<set<Out>>): set<Out> {
    if outs == [] then {} else outs[0] + AllOuts(outs[1..])
  }

  ghost predicate OutsDisjoint(outs: seq<set<Out>>) {
    forall i, j :: 0 <= i < j < |outs| ==> outs[i] !! outs[j]
  }

  lemma {:induction false} AllOutsMembers(outs: seq<set<Out>>, o: Out)
    ensures o in AllOuts(outs) <==> exists i :: 0 <= i < |outs| && o in outs[i]
  {
    if outs != [] {
      AllOutsMembers(outs[1..], o);
      if o in AllOuts(outs) && o !in outs[0] {
        var i :| 0 <= i < |outs[1..]| && o in outs[1..][i];
        assert outs[i + 1] == outs[1..][i];
      }
      if i :| 0 <= i < |outs| && o in outs[i] && i > 0 {
        assert outs[1..][i - 1] == outs[i];
      }
    }
  }

  lemma {:induction false} AllOutsSize(outs: seq<set<Out>>)
    requires OutsDisjoint(outs)
    ensures |AllOuts(outs)| == Sum(Sizes(outs))
  {
    if outs != [] {
      assert Sizes(outs)[1..] == Sizes(outs[1..]);
      AllOutsSize(outs[1..]);
      forall o | o in outs[0] ensures o !in AllOuts(outs[1..]) {
        AllOutsMembers(outs[1..], o);
      }
      DisjointGrowth(outs[0], AllOuts(outs[1..]));
    }
  }

  lemma OutsAreDisjoint(su: Setup, s: Sys)
    requires Fed(su) && Inv(su, s)
    ensures OutsDisjoint(s.outs)
  {
    forall i, j, o | 0 <= i < j < |s.outs| && o in s.outs[i] ensures o !in s.outs[j] {
      assert Emitted(su, s, i, o);
      assert o in s.outs[j] ==> Emitted(su, s, j, o);
      assert su.origin(o).0 == i;
    }
  }

  /** The count in the final EOF is the number of distinct (destination, id) messages the whole
    * stage sent to the next one, and those are exactly what its data and its flushes produce. */
  lemma {:induction false} FinalCountIsExact(su: Setup, acts: seq<Action>)
    requires Fed(su) && Run(su, acts).finals != []
    ensures var s := Run(su, acts);
      && s.finals == [|AllOuts(s.outs)|]
      && forall o :: o in AllOuts(s.outs) <==> exists i :: 0 <= i < su.size && Produced(su, i, o)
  {
    hide Run, Tokens;
    var s := Run(su, acts);
    RunInv(su, acts);
    ExactFlushRound(su, acts);
    forall i | 0 <= i < su.size ensures PartialSent(s.nodes)[i] == Sizes(s.outs)[i] && DataSeen(su, s, i) == su.inbox[i] {
      assert NodeOk(su, s, i) && su.inbox[i] <= s.nodes[i].main;
    }
    assert PartialSent(s.nodes) == Sizes(s.outs);
    OutsAreDisjoint(su, s);
    AllOutsSize(s.outs);
    forall o ensures o in AllOuts(s.outs) <==> exists i :: 0 <= i < su.size && Produced(su, i, o) {
      StageProduces(su, s, o);
    }
  }

  /** What node i produces from its whole inbox: while processing it, or in its flush. */
  ghost predicate Produced(su: Setup, i: nat, o: Out)
    requires i < |su.inbox|
  {
    (exists m :: m in su.inbox[i] && o in su.emit(i, m)) || o in su.flush(i, su.inbox[i])
  }

  lemma StageProduces(su: Setup, s: Sys, o: Out)
    requires Fed(su) && Shape(su, s) && Outs(su, s)
    requires forall i :: 0 <= i < su.size ==> i in s.flushLog && DataSeen(su, s, i) == su.inbox[i]
    ensures o in AllOuts(s.outs) <==> exists i :: 0 <= i < su.size && Produced(su, i, o)
  {
    AllOutsMembers(s.outs, o);
    forall i | 0 <= i < su.size ensures o in s.outs[i] <==> Produced(su, i, o) {
      assert o in s.outs[i] <==> Emitted(su, s, i, o);
    }
  }

  // --- termination ---

  /** All data and the EOF have been processed; only ring tokens can still change anything. */
  ghost predicate AllIn(su: Setup, s: Sys)
    requires WellFormed(su) && |s.nodes| == su.size
  {
    s.hops != [] && forall i :: 0 <= i < su.size ==> su.inbox[i] <= s.nodes[i].main
  }

  ghost predicate Unreported(su: Setup, s: Sys, hop: nat)
    requires WellFormed(su) && |s.nodes| == su.size
  {
    s.nodes[Dest(su, hop)].counters != Reported(s.nodes[Dest(su, hop)].counters)
  }

  /** Looking `window` hops ahead from `hop`: how many hops until the last unreported node is served. */
  ghost function HopsToReport(su: Setup, s: Sys, hop: nat, window: nat): (n: nat)
    requires WellFormed(su) && |s.nodes| == su.size
    ensures n <= window
  {
    if window == 0 then 0
    else if Unreported(su, s, hop + window - 1) then window
    else HopsToReport(su, s, hop, window - 1)
  }

  /** How many more deliveries of the live token until the final EOF. */
  ghost function Remaining(su: Setup, s: Sys): nat
    requires WellFormed(su) && Shape(su, s) && s.hops != []
  {
    if s.finals != [] then 0
    else if |s.hops| > s.counted then su.size - |s.flushLog|
    else
      var n := HopsToReport(su, s, |s.hops| - 1, su.size);
      su.size + if n == 0 then 1 else n
  }

  ghost predicate IsLive(su: Setup, s: Sys, a: Action) {
    s.hops != [] && s.finals == [] && a == Token(|s.hops| - 1)
  }

  lemma {:induction false} HopsShift(su: Setup, s: Sys, s': Sys, hop: nat, window: nat)
    requires WellFormed(su) && |s.nodes| == |s'.nodes| == su.size && window < su.size
    requires forall h: nat :: hop + 1 <= h <= hop + window ==> Unreported(su, s', h) == Unreported(su, s, h)
    ensures HopsToReport(su, s', hop + 1, window) ==
            (var n := HopsToReport(su, s, hop, window + 1); if n == 0 then 0 else n - 1)
  {
    if window > 0 {
      assert hop + 1 + window - 1 == hop + window;
      HopsShift(su, s, s', hop, window - 1);
    }
  }

  lemma {:induction false} NoneUnreported(su: Setup, s: Sys, hop: nat, window: nat, o: nat)
    requires WellFormed(su) && |s.nodes| == su.size
    requires HopsToReport(su, s, hop, window) <= o < window
    ensures !Unreported(su, s, hop + o)
  {
    if o < window - 1 {
      NoneUnreported(su, s, hop, window - 1, o);
    }
  }

  /** In the count phase the live token's node is the only one to change, and it is reported afterwards. */
  lemma CountDelivery(su: Setup, s: Sys)
    requires Fed(su) && Inv(su, s) && AllIn(su, s) && s.finals == [] && |s.hops| == s.counted
    ensures var s' := Apply(su, s, Token(|s.hops| - 1)); var d := Dest(su, |s.hops| - 1);
      && Inv(su, s') && AllIn(su, s') && s'.finals == []
      && |s'.hops| == |s.hops| + 1 && s'.flushLog == []
      && s'.nodes[d].counters == Reported(s.nodes[d].counters)
      && (forall i :: 0 <= i < su.size && i != d ==> s'.nodes[i] == s.nodes[i])
      && (|s'.hops| > s'.counted <==> Sum(PartialProcessed(s'.nodes)) >= su.expected)
  {
    hide RingId, RingSeqOf;
    var k := |s.hops| - 1;
    var d := Dest(su, k);
    var s' := Apply(su, s, Token(k));
    assert HopOk(su, s, k);
    TokenSeen(su, s, k);
    TokenStep(su, s, k);
    PartialSums(s.nodes, d, s'.nodes[d]);
    assert d < su.size;
  }

  /** After the live token's delivery the look-ahead is one hop shorter. */
  lemma {:induction false} LookAheadShrinks(su: Setup, s: Sys, s': Sys, b: nat)
    requires WellFormed(su) && |s.nodes| == |s'.nodes| == su.size
    requires forall i :: 0 <= i < su.size && i != Dest(su, b) ==> s'.nodes[i] == s.nodes[i]
    requires !Unreported(su, s', b)
    ensures HopsToReport(su, s', b + 1, su.size) ==
            (var n := HopsToReport(su, s, b, su.size); if n == 0 then 0 else n - 1)
    ensures forall h: nat :: b + 1 <= h < b + su.size ==> Unreported(su, s', h) == Unreported(su, s, h)
  {
    forall h: nat | b + 1 <= h < b + su.size ensures Unreported(su, s', h) == Unreported(su, s, h) {
      DestInjective(su, b, h);
    }
    HopsShift(su, s, s', b, su.size - 1);
    DestWraps(su, b);
    assert b + 1 + su.size - 1 == b + su.size;
    assert !Unreported(su, s', b + su.size);
  }

  lemma CountDecreases(su: Setup, s: Sys)
    requires Fed(su) && InboxTotal(su) == su.expected
    requires Inv(su, s) && AllIn(su, s) && s.finals == [] && |s.hops| == s.counted
    ensures var s' := Apply(su, s, Token(|s.hops| - 1));
      Inv(su, s') && AllIn(su, s') && Remaining(su, s') == Remaining(su, s) - 1
  {
    hide Apply, Tokens, Counts, Conserved, Outs;
    var b := |s.hops| - 1;
    var s' := Apply(su, s, Token(b));
    CountDelivery(su, s);
    LookAheadShrinks(su, s, s', b);
    var n := HopsToReport(su, s, b, su.size);
    if n <= 1 {
      forall i | 0 <= i < su.size ensures s'.nodes[i].counters == Reported(s'.nodes[i].counters) {
        var k := DestCovers(su, b, i);
        if k > b {
          NoneUnreported(su, s, b, su.size, k - b);
          assert Unreported(su, s', k) == Unreported(su, s, k);
        }
      }
      AllReportedReaches(su, s');
    } else {
      HopIsUnreported(su, s, b, su.size);
      assert Unreported(su, s', b + n - 1);
      UnreportedFallsShort(su, s', Dest(su, b + n - 1));
    }
  }

  lemma {:induction false} HopIsUnreported(su: Setup, s: Sys, hop: nat, window: nat)
    requires WellFormed(su) && |s.nodes| == su.size && HopsToReport(su, s, hop, window) > 0
    ensures Unreported(su, s, hop + HopsToReport(su, s, hop, window) - 1)
  {
    if !Unreported(su, s, hop + window - 1) {
      HopIsUnreported(su, s, hop, window - 1);
    }
  }

  lemma AllReportedReaches(su: Setup, s: Sys)
    requires Fed(su) && Inv(su, s) && AllIn(su, s)
    requires forall i :: 0 <= i < su.size ==> s.nodes[i].counters == Reported(s.nodes[i].counters)
    ensures Sum(PartialProcessed(s.nodes)) == InboxTotal(su)
  {
    forall i | 0 <= i < su.size ensures PartialProcessed(s.nodes)[i] == Sizes(su.inbox)[i] {
      assert NodeOk(su, s, i);
      assert DataSeen(su, s, i) == su.inbox[i];
    }
    assert PartialProcessed(s.nodes) == Sizes(su.inbox);
  }

  lemma UnreportedFallsShort(su: Setup, s: Sys, d: nat)
    requires Fed(su) && Inv(su, s) && AllIn(su, s) && d < su.size
    requires s.nodes[d].counters != Reported(s.nodes[d].counters)
    ensures Sum(PartialProcessed(s.nodes)) < InboxTotal(su)
  {
    forall i | 0 <= i < su.size ensures PartialProcessed(s.nodes)[i] <= Sizes(su.inbox)[i] {
      assert NodeOk(su, s, i);
      assert DataSeen(su, s, i) == su.inbox[i];
    }
    SumMonotone(PartialProcessed(s.nodes), Sizes(su.inbox));
    assert NodeOk(su, s, d);
    assert DataSeen(su, s, d) == su.inbox[d];
    assert PartialProcessed(s.nodes)[d] != Sizes(su.inbox)[d];
  }

  lemma FlushHop(su: Setup, s: Sys, k: nat)
    requires Fed(su) && Inv(su, s) && AllIn(su, s) && s.finals == [] && k == |s.hops| - 1 >= s.counted
    ensures k == Delivered(s) && s.hops[k].dest == Dest(su, k) < su.size
    ensures DataSeen(su, s, Dest(su, k)) == su.inbox[Dest(su, k)]
  {
    hide RingId, RingSeqOf, Counts, Conserved, Outs;
    assert HopOk(su, s, k);
  }

  lemma {:induction false} FlushDecreases(su: Setup, s: Sys)
    requires Fed(su) && Inv(su, s) && AllIn(su, s) && s.finals == [] && |s.hops| > s.counted
    ensures var s' := Apply(su, s, Token(|s.hops| - 1));
      Inv(su, s') && AllIn(su, s') && Remaining(su, s') == Remaining(su, s) - 1
  {
    hide RingId, RingSeqOf, OnToken, Tokens, Counts, Conserved, Outs, FlushEffect, Remaining;
    var k := |s.hops| - 1;
    FlushHop(su, s, k);
    TokenStep(su, s, k);
    FlushHasEffect(su, s, k);
    FlushEffectDecreases(su, s, Apply(su, s, Token(k)));
  }

  lemma {:induction false} FlushEffectDecreases(su: Setup, s: Sys, s': Sys)
    requires WellFormed(su) && Shape(su, s) && Shape(su, s') && AllIn(su, s)
    requires s.finals == [] && |s.hops| > s.counted && FlushEffect(su, s, |s.hops| - 1, s')
    ensures AllIn(su, s') && Remaining(su, s') == Remaining(su, s) - 1
  {
  }

  /** Once all input is in, everything but the live token is a duplicate and changes nothing. */
  lemma {:induction false} OthersStutter(su: Setup, s: Sys, a: Action)
    requires Fed(su) && Inv(su, s) && AllIn(su, s) && !IsLive(su, s, a)
    ensures Apply(su, s, a) == s
  {
    match a
    case Data(i, m) =>
    case Eof =>
    case Token(k) => if k < |s.hops| { TokenSeen(su, s, k); }
  }

  ghost function LiveDeliveries(su: Setup, s: Sys, more: seq<Action>): nat
    requires WellFormed(su) && |s.nodes| == |s.outs| == su.size
    decreases |more|
  {
    if more == [] then 0
    else (if IsLive(su, s, more[0]) then 1 else 0) + LiveDeliveries(su, Apply(su, s, more[0]), more[1..])
  }

  ghost function RunFrom(su: Setup, s: Sys, more: seq<Action>): Sys
    requires WellFormed(su) && |s.nodes| == |s.outs| == su.size
    decreases |more|
  {
    if more == [] then s else RunFrom(su, Apply(su, s, more[0]), more[1..])
  }

  lemma {:induction false} OneStep(su: Setup, s: Sys, a: Action)
    requires Fed(su) && InboxTotal(su) == su.expected && Inv(su, s) && AllIn(su, s)
    ensures var s' := Apply(su, s, a);
      && Inv(su, s') && AllIn(su, s')
      && Remaining(su, s') == Remaining(su, s) - if IsLive(su, s, a) then 1 else 0
  {
    hide Apply, Tokens, Counts, Conserved, Outs, Remaining;
    if !IsLive(su, s, a) {
      OthersStutter(su, s, a);
    } else if |s.hops| == s.counted {
      CountDecreases(su, s);
    } else {
      FlushDecreases(su, s);
    }
  }

  lemma {:induction false} RunFromInv(su: Setup, s: Sys, more: seq<Action>)
    requires Fed(su) && InboxTotal(su) == su.expected && Inv(su, s) && AllIn(su, s)
    ensures var s' := RunFrom(su, s, more);
      Inv(su, s') && AllIn(su, s') && Remaining(su, s') == Remaining(su, s) - LiveDeliveries(su, s, more)
    decreases |more|
  {
    hide Apply, Tokens, Counts, Conserved, Outs, Remaining;
    if more != [] {
      OneStep(su, s, more[0]);
      RunFromInv(su, Apply(su, s, more[0]), more[1..]);
    }
  }

  /** Termination: once the whole input is processed, however duplicates interleave, the ring is
    * done after exactly `Remaining` deliveries of the live token: at most N until a coordinator is
    * named (none, if it is already), and exactly N for the flush round. */
  lemma TerminatesExactly(su: Setup, acts: seq<Action>, more: seq<Action>)
    requires Fed(su) && InboxTotal(su) == su.expected && AllIn(su, Run(su, acts))
    ensures var s := Run(su, acts); var s' := RunFrom(su, s, more);
      && Inv(su, s)
      && Remaining(su, s) <= 2 * su.size
      && (|s.hops| == s.counted && s.finals == [] ==> su.size < Remaining(su, s))
      && (s'.finals != [] <==> LiveDeliveries(su, s, more) == Remaining(su, s))
      && (|s'.hops| > s'.counted <==> Remaining(su, s) - LiveDeliveries(su, s, more) <= su.size)
  {
    RunInv(su, acts);
    RunFromInv(su, Run(su, acts), more);
  }
}
