/** The cleanup round of the ring (`src/common/worker/stateful_worker.py`): an EOF with the expected count
  * -1 makes every replica of a stage forget the flow. A replica that has forgotten the flow has forgotten
  * the ids of its tokens too, so a token redelivered to it is handled again; everything else is as in
  * module RingProtocol: data in between, and every message ever sent redeliverable at any moment. */
module RingCleanup {
  import opened Collections
  import opened Options
  import opened Ids
  import opened RingNode
  import opened RingProtocol

  /** `forgets` lists the replicas that forget the flow, `flushes` those that flush it, `handled` the hops
    * that are handled (not recognised as duplicates), each in order; `delivered` are the hops delivered. */
  datatype Round = Round(nodes: seq<Node>, hops: seq<Hop>, finals: seq<int>, forgets: seq<nat>, flushes: seq<nat>,
                         handled: seq<nat>, delivered: set<nat>)

  /** The token of place j: the one started with, then those of the round. */
  ghost function PlaceId(su: Setup, j: nat): string { RingId(su.client, RING_PHASE_CLEANUP, j) }

  /** A ring whose nodes have any history with the flow, except for tokens of this round. */
  ghost predicate Fresh(su: Setup, before: seq<Node>) {
    && 0 < su.size && su.start < su.size && |before| == |su.inbox| == su.size
    && (forall i :: 0 <= i < su.size ==> before[i].counters.partialProcessed <= before[i].counters.processed)
    && (forall i, j: nat :: 0 <= i < su.size ==> PlaceId(su, j) !in before[i].control)
  }

  ghost function Begin(before: seq<Node>): Round { Round(before, [], [], [], [], [], {}) }

  ghost function OnEof(su: Setup, s: Round): Round
    requires su.start < |s.nodes| && 0 < su.size
  {
    var n := s.nodes[su.start];
    if su.eofId in n.main then s
    else s.(nodes := s.nodes[su.start := Node(n.main + {su.eofId}, n.control, Reported(n.counters))],
            hops := s.hops + [Hop(NextNode(su.start, su.size), StartToken(su.client, n.counters, su.expected))])
  }

  ghost function OnData(su: Setup, s: Round, i: nat, m: string): Round
    requires i < |s.nodes|
  {
    var n := s.nodes[i];
    if m in n.main then s
    else s.(nodes := s.nodes[i := Node(n.main + {m}, n.control, CountersAfterData(n.counters, |su.emit(i, m)|))])
  }

  /** What handling the token leaves of the node: a cleanup forgets everything, the token's id included,
    * which is added to a set that is no longer the node's. */
  ghost function NodeAfter(n: Node, msg: RingMsg): Node {
    if msg.eof.coordinator.Some? && IsCleanup(msg.eof) then NO_NODE
    else Node(n.main, n.control + {msg.id}, CountersAfterToken(n.counters, msg, 0))
  }

  ghost function OnToken(su: Setup, s: Round, k: nat): Round
    requires k < |s.hops| && s.hops[k].dest < |s.nodes| && 0 < su.size
  {
    var d, msg := s.hops[k].dest, s.hops[k].msg;
    var n := s.nodes[d];
    var seen := s.(delivered := s.delivered + {k});
    if msg.id in n.control then seen
    else
      var s' := seen.(nodes := s.nodes[d := NodeAfter(n, msg)], handled := s.handled + [k],
        forgets := if msg.eof.coordinator.Some? && IsCleanup(msg.eof) then s.forgets + [d] else s.forgets,
        flushes := if msg.eof.coordinator.Some? && !IsCleanup(msg.eof) then s.flushes + [d] else s.flushes);
      match TokenOutcome(d, su.client, n.counters, msg, 0)
      case Forward(m) => s'.(hops := s.hops + [Hop(NextNode(d, su.size), m)])
      case FinalEof(count) => s'.(finals := s.finals + [count])
  }

  ghost function Apply(su: Setup, s: Round, a: Action): (s': Round)
    requires 0 < su.size && su.start < su.size && |s.nodes| == |su.inbox| == su.size
    ensures |s'.nodes| == su.size
  {
    match a
    case Data(i, m) => if i < su.size && m in su.inbox[i] then OnData(su, s, i, m) else s
    case Eof => OnEof(su, s)
    case Token(k) => if k < |s.hops| && s.hops[k].dest < su.size then OnToken(su, s, k) else s
  }

  ghost function Run(su: Setup, before: seq<Node>, acts: seq<Action>): (s: Round)
    requires 0 < su.size && su.start < su.size && |before| == |su.inbox| == su.size
    ensures |s.nodes| == su.size
  {
    if acts == [] then Begin(before) else Apply(su, Run(su, before, acts[..|acts| - 1]), acts[|acts| - 1])
  }

  // --- the tokens of the round ---

  ghost function PlaceOf(h: Hop): int { RingSeqOf(h.msg.id) }

  /** The hop of place j: first from the starting node to the next one, which names itself coordinator;
    * then once round the ring, back to the coordinator. */
  ghost predicate HopAt(su: Setup, h: Hop, j: nat)
    requires 0 < su.size
  {
    && j <= su.size && h.dest == Dest(su, j) && h.msg.id == PlaceId(su, j) && PlaceOf(h) == j
    && h.msg.eof.expected == -1
    && (if j == 0 then h.msg.eof.coordinator == None && h.msg.eof.totalProcessed >= 0
        else h.msg.eof.coordinator == Some(Dest(su, 0)))
  }

  ghost predicate GoodHop(su: Setup, h: Hop)
    requires 0 < su.size
  {
    PlaceOf(h) >= 0 && HopAt(su, h, PlaceOf(h))
  }

  /** The hops of one place. */
  ghost function At(hops: seq<Hop>, j: int): set<nat> {
    set k: nat | k < |hops| && PlaceOf(hops[k]) == j
  }

  /** The handlings of hops of one place. */
  ghost function HandledAt(hops: seq<Hop>, handled: seq<nat>, j: int): seq<nat> {
    if handled == [] then []
    else
      var k := handled[|handled| - 1];
      HandledAt(hops, handled[..|handled| - 1], j) + if k < |hops| && PlaceOf(hops[k]) == j then [k] else []
  }

  ghost function Times(s: seq<nat>, x: nat): nat {
    if s == [] then 0 else Times(s[..|s| - 1], x) + if s[|s| - 1] == x then 1 else 0
  }

  lemma {:induction false} HandledMembers(hops: seq<Hop>, handled: seq<nat>, j: int, k: nat)
    ensures k in HandledAt(hops, handled, j) <==> k in handled && k < |hops| && PlaceOf(hops[k]) == j
  {
    if handled != [] {
      var n := |handled| - 1;
      assert handled == handled[..n] + [handled[n]];
      HandledMembers(hops, handled[..n], j, k);
    }
  }

  /** Hops sent later do not matter. */
  lemma {:induction false} HandledGrows(hops: seq<Hop>, h: Hop, handled: seq<nat>, j: int)
    requires forall k :: k in handled ==> k < |hops|
    ensures HandledAt(hops + [h], handled, j) == HandledAt(hops, handled, j)
  {
    if handled != [] {
      var n := |handled| - 1;
      assert handled[n] in handled && forall k :: k in handled[..n] ==> k in handled;
      HandledGrows(hops, h, handled[..n], j);
    }
  }

  lemma HandledOneMore(hops: seq<Hop>, handled: seq<nat>, k: nat, j: int)
    requires k < |hops|
    ensures HandledAt(hops, handled + [k], j) == HandledAt(hops, handled, j) + if PlaceOf(hops[k]) == j then [k] else []
  {
    assert (handled + [k])[..|handled|] == handled;
  }

  lemma AtGrows(hops: seq<Hop>, h: Hop, j: int)
    ensures |At(hops + [h], j)| == |At(hops, j)| + if PlaceOf(h) == j then 1 else 0
  {
    assert At(hops + [h], j) == At(hops, j) + if PlaceOf(h) == j then {|hops|} else {};
  }

  lemma TimesOneMore(s: seq<nat>, y: nat, x: nat)
    ensures Times(s + [y], x) == Times(s, x) + if y == x then 1 else 0
  {
    assert (s + [y])[..|s|] == s;
  }

  // --- the invariant ---

  ghost predicate GoodHops(su: Setup, hops: seq<Hop>)
    requires 0 < su.size
  {
    forall k :: 0 <= k < |hops| ==> GoodHop(su, hops[k])
  }

  /** Of the round's tokens only the first is ever remembered, once it has been handled. */
  ghost predicate Memory(su: Setup, nodes: seq<Node>, begun: bool) {
    && |nodes| == su.size
    && (forall i, j: nat :: 0 <= i < su.size && PlaceId(su, j) in nodes[i].control ==> j == 0 && begun)
    && (forall i :: 0 <= i < su.size ==> nodes[i].counters.partialProcessed <= nodes[i].counters.processed)
  }

  /** A handling sends the hop of the next place; one of place `owed` is still to be sent. */
  ghost predicate Passed(su: Setup, hops: seq<Hop>, handled: seq<nat>, owed: nat) {
    forall i: nat :: i < su.size ==> |At(hops, i + 1)| + (if i + 1 == owed then 1 else 0) == |HandledAt(hops, handled, i)|
  }

  /** A handling of the hop of place i > 0 makes its node forget. */
  ghost predicate Forgotten(su: Setup, hops: seq<Hop>, handled: seq<nat>, forgets: seq<nat>)
    requires 0 < su.size
  {
    forall i: nat :: 1 <= i <= su.size ==> Times(forgets, Dest(su, i)) == |HandledAt(hops, handled, i)|
  }

  /** What has been delivered has been handled, or recognised as the first token that has been. */
  ghost predicate Accounted(hops: seq<Hop>, handled: seq<nat>, delivered: set<nat>) {
    && (forall k :: k in handled ==> k < |hops|)
    && (forall k :: k in delivered ==>
          k < |hops| && (if PlaceOf(hops[k]) == 0 then HandledAt(hops, handled, 0) != [] else k in handled))
  }

  ghost predicate Inv(su: Setup, s: Round) {
    && 0 < su.size && GoodHops(su, s.hops)
    && Memory(su, s.nodes, HandledAt(s.hops, s.handled, 0) != [])
    && Passed(su, s.hops, s.handled, 0) && Forgotten(su, s.hops, s.handled, s.forgets)
    && |s.finals| == |HandledAt(s.hops, s.handled, su.size)|
    && Accounted(s.hops, s.handled, s.delivered)
    && (forall c :: c in s.finals ==> c == -1) && s.flushes == []
  }

  // --- single facts ---

  /** A change of one node's counters and main channel is not noticed. */
  lemma NodeQuiet(su: Setup, nodes: seq<Node>, begun: bool, i: nat, n: Node)
    requires Memory(su, nodes, begun) && i < su.size && n.control == nodes[i].control
    requires n.counters.partialProcessed <= n.counters.processed
    ensures Memory(su, nodes[i := n], begun)
  {
  }

  lemma SendPasses(su: Setup, hops: seq<Hop>, handled: seq<nat>, h: Hop, j: nat)
    requires 0 < su.size && GoodHops(su, hops) && HopAt(su, h, j) && Passed(su, hops, handled, j)
    requires forall k :: k in handled ==> k < |hops|
    ensures GoodHops(su, hops + [h]) && Passed(su, hops + [h], handled, 0)
    ensures forall i: int :: HandledAt(hops + [h], handled, i) == HandledAt(hops, handled, i)
  {
    forall i: int ensures HandledAt(hops + [h], handled, i) == HandledAt(hops, handled, i) { HandledGrows(hops, h, handled, i); }
    forall i: nat | i < su.size ensures |At(hops + [h], i + 1)| == |HandledAt(hops, handled, i)| { AtGrows(hops, h, i + 1); }
  }

  lemma SendAccounted(hops: seq<Hop>, handled: seq<nat>, delivered: set<nat>, h: Hop)
    requires Accounted(hops, handled, delivered)
    ensures Accounted(hops + [h], handled, delivered)
  {
    HandledGrows(hops, h, handled, 0);
  }

  lemma HandlePasses(su: Setup, hops: seq<Hop>, handled: seq<nat>, k: nat, j: nat)
    requires 0 < su.size && k < |hops| && HopAt(su, hops[k], j) && Passed(su, hops, handled, 0)
    ensures Passed(su, hops, handled + [k], j + 1)
  {
    forall i: nat | i < su.size
      ensures |At(hops, i + 1)| + (if i + 1 == j + 1 then 1 else 0) == |HandledAt(hops, handled + [k], i)|
    {
      HandledOneMore(hops, handled, k, i);
    }
  }

  lemma HandleForgets(su: Setup, hops: seq<Hop>, handled: seq<nat>, forgets: seq<nat>, k: nat, j: nat)
    requires 0 < su.size && k < |hops| && HopAt(su, hops[k], j) && Forgotten(su, hops, handled, forgets)
    ensures Forgotten(su, hops, handled + [k], if j == 0 then forgets else forgets + [Dest(su, j)])
  {
    forall i: nat | 1 <= i <= su.size
      ensures Times(if j == 0 then forgets else forgets + [Dest(su, j)], Dest(su, i)) == |HandledAt(hops, handled + [k], i)|
    {
      HandledOneMore(hops, handled, k, i);
      TimesOneMore(forgets, Dest(su, j), Dest(su, i));
      if 0 < i < j { DestInjective(su, i, j); }
      if 0 < j < i { DestInjective(su, j, i); }
    }
  }

  lemma HandleAccounted(hops: seq<Hop>, handled: seq<nat>, delivered: set<nat>, k: nat)
    requires k < |hops| && Accounted(hops, handled, delivered)
    ensures Accounted(hops, handled + [k], delivered + {k})
  {
    HandledOneMore(hops, handled, k, 0);
  }

  /** What the node remembers of the round after handling the token of place j. */
  lemma HandleMemory(su: Setup, nodes: seq<Node>, begun: bool, h: Hop, j: nat)
    requires 0 < su.size && Memory(su, nodes, begun) && HopAt(su, h, j)
    ensures Memory(su, nodes[h.dest := NodeAfter(nodes[h.dest], h.msg)], begun || j == 0)
  {
    var nodes' := nodes[h.dest := NodeAfter(nodes[h.dest], h.msg)];
    forall i, l: nat | 0 <= i < su.size && PlaceId(su, l) in nodes'[i].control ensures l == 0 && (begun || j == 0) {
      if PlaceId(su, l) !in nodes[i].control {
        assert PlaceId(su, l) == PlaceId(su, j) && j == 0;
        RingIdInjective(su.client, RING_PHASE_CLEANUP, l, RING_PHASE_CLEANUP, 0);
      }
    }
  }

  /** The answer to the first token: its receiver names itself coordinator, since no total is below -1. */
  lemma FirstAnswer(su: Setup, h: Hop, c: Counters)
    requires 0 < su.size && HopAt(su, h, 0) && c.partialProcessed <= c.processed
    ensures var o := TokenOutcome(h.dest, su.client, c, h.msg, 0);
      o.Forward? && HopAt(su, Hop(NextNode(h.dest, su.size), o.msg), 1)
  {
    RingSeqRoundTrip(su.client, RING_PHASE_CLEANUP, 1);
    DestNext(su, 0);
  }

  /** The answer to a later one: passed on, or at the coordinator the final EOF. */
  lemma RoundAnswer(su: Setup, h: Hop, c: Counters, j: nat)
    requires 0 < su.size && HopAt(su, h, j) && 0 < j
    ensures var o := TokenOutcome(h.dest, su.client, c, h.msg, 0);
      if j == su.size then o == FinalEof(-1) else o.Forward? && HopAt(su, Hop(NextNode(h.dest, su.size), o.msg), j + 1)
  {
    RingSeqRoundTrip(su.client, RING_PHASE_CLEANUP, j + 1);
    DestNext(su, j);
    DestWraps(su, 0);
    if j < su.size { DestInjective(su, 0, j); }
  }

  // --- every step ---

  lemma DataStep(su: Setup, s: Round, i: nat, m: string)
    requires Inv(su, s) && i < su.size
    ensures Inv(su, OnData(su, s, i, m))
  {
    var n := s.nodes[i];
    if m !in n.main {
      NodeQuiet(su, s.nodes, HandledAt(s.hops, s.handled, 0) != [], i,
                Node(n.main + {m}, n.control, CountersAfterData(n.counters, |su.emit(i, m)|)));
    }
  }

  lemma FirstHop(su: Setup, c: Counters)
    requires 0 < su.size && su.start < su.size && su.expected == -1 && c.partialProcessed <= c.processed
    ensures HopAt(su, Hop(NextNode(su.start, su.size), StartToken(su.client, c, su.expected)), 0)
  {
    RingSeqRoundTrip(su.client, RING_PHASE_CLEANUP, 0);
  }

  lemma EofStep(su: Setup, s: Round)
    requires Inv(su, s) && su.start < su.size && su.expected == -1
    ensures Inv(su, OnEof(su, s))
  {
    var n := s.nodes[su.start];
    if su.eofId !in n.main {
      var h := Hop(NextNode(su.start, su.size), StartToken(su.client, n.counters, su.expected));
      NodeQuiet(su, s.nodes, HandledAt(s.hops, s.handled, 0) != [], su.start,
                Node(n.main + {su.eofId}, n.control, Reported(n.counters)));
      FirstHop(su, n.counters);
      SendPasses(su, s.hops, s.handled, h, 0);
      SendAccounted(s.hops, s.handled, s.delivered, h);
    }
  }

  lemma TokenStep(su: Setup, s: Round, k: nat)
    requires Inv(su, s) && k < |s.hops|
    ensures s.hops[k].dest < su.size && Inv(su, OnToken(su, s, k))
  {
    assert GoodHop(su, s.hops[k]);
    var j: nat := PlaceOf(s.hops[k]);
    if s.hops[k].msg.id in s.nodes[s.hops[k].dest].control {
      assert PlaceId(su, j) in s.nodes[s.hops[k].dest].control;
    } else if j == 0 {
      FirstStep(su, s, k);
    } else {
      RoundStep(su, s, k, j);
    }
  }

  lemma FirstStep(su: Setup, s: Round, k: nat)
    requires Inv(su, s) && k < |s.hops| && HopAt(su, s.hops[k], 0)
    requires s.hops[k].msg.id !in s.nodes[s.hops[k].dest].control
    ensures Inv(su, OnToken(su, s, k))
  {
    var h := s.hops[k];
    var o := TokenOutcome(h.dest, su.client, s.nodes[h.dest].counters, h.msg, 0);
    FirstAnswer(su, h, s.nodes[h.dest].counters);
    HandleMemory(su, s.nodes, HandledAt(s.hops, s.handled, 0) != [], h, 0);
    HandlePasses(su, s.hops, s.handled, k, 0);
    HandleForgets(su, s.hops, s.handled, s.forgets, k, 0);
    HandleAccounted(s.hops, s.handled, s.delivered, k);
    HandledOneMore(s.hops, s.handled, k, 0);
    HandledOneMore(s.hops, s.handled, k, su.size);
    var next := Hop(NextNode(h.dest, su.size), o.msg);
    hide TokenOutcome, HopAt, GoodHops, Memory, NodeAfter, Accounted, Passed, Forgotten;
    SendPassesAll(su, s.hops, s.handled + [k], s.delivered + {k}, next, 1, s.forgets);
  }

  /** Sending the owed hop, all in one. */
  lemma SendPassesAll(su: Setup, hops: seq<Hop>, handled: seq<nat>, delivered: set<nat>, h: Hop, j: nat, forgets: seq<nat>)
    requires 0 < su.size && GoodHops(su, hops) && HopAt(su, h, j) && Passed(su, hops, handled, j)
    requires Accounted(hops, handled, delivered) && Forgotten(su, hops, handled, forgets)
    ensures GoodHops(su, hops + [h]) && Passed(su, hops + [h], handled, 0)
    ensures Accounted(hops + [h], handled, delivered) && Forgotten(su, hops + [h], handled, forgets)
    ensures forall i: int :: HandledAt(hops + [h], handled, i) == HandledAt(hops, handled, i)
  {
    SendPasses(su, hops, handled, h, j);
    SendAccounted(hops, handled, delivered, h);
  }

  lemma RoundStep(su: Setup, s: Round, k: nat, j: nat)
    requires Inv(su, s) && k < |s.hops| && HopAt(su, s.hops[k], j) && 0 < j
    requires s.hops[k].msg.id !in s.nodes[s.hops[k].dest].control
    ensures Inv(su, OnToken(su, s, k))
  {
    var h := s.hops[k];
    var o := TokenOutcome(h.dest, su.client, s.nodes[h.dest].counters, h.msg, 0);
    RoundAnswer(su, h, s.nodes[h.dest].counters, j);
    HandleMemory(su, s.nodes, HandledAt(s.hops, s.handled, 0) != [], h, j);
    HandlePasses(su, s.hops, s.handled, k, j);
    HandleForgets(su, s.hops, s.handled, s.forgets, k, j);
    HandleAccounted(s.hops, s.handled, s.delivered, k);
    HandledOneMore(s.hops, s.handled, k, 0);
    HandledOneMore(s.hops, s.handled, k, su.size);
    assert j == su.size ==> Passed(su, s.hops, s.handled + [k], 0);
    assert IsCleanup(h.msg.eof) && h.msg.eof.coordinator.Some? && h.dest == Dest(su, j);
    assert PlaceOf(h) == j;
    hide TokenOutcome, HopAt, GoodHops, Memory, NodeAfter, Accounted, Passed, Forgotten;
    if j < su.size {
      SendPassesAll(su, s.hops, s.handled + [k], s.delivered + {k}, Hop(NextNode(h.dest, su.size), o.msg), j + 1,
                    s.forgets + [h.dest]);
    }
  }

  lemma BeginInv(su: Setup, before: seq<Node>)
    requires Fresh(su, before)
    ensures Inv(su, Begin(before))
  {
    assert forall j :: At([], j) == {};
  }

  lemma {:induction false} RunInv(su: Setup, before: seq<Node>, acts: seq<Action>)
    requires Fresh(su, before) && su.expected == -1
    ensures Inv(su, Run(su, before, acts))
  {
    if acts == [] {
      BeginInv(su, before);
    } else {
      RunInv(su, before, acts[..|acts| - 1]);
      var s, a := Run(su, before, acts[..|acts| - 1]), acts[|acts| - 1];
      hide Inv, OnData, OnEof, OnToken;
      match a
      case Data(i, m) => if i < su.size { DataStep(su, s, i, m); }
      case Eof => EofStep(su, s);
      case Token(k) => if k < |s.hops| { TokenStep(su, s, k); }
    }
  }

  // --- the theorems ---

  lemma HandlesRoundToken(su: Setup, s: Round, k: nat)
    requires Inv(su, s) && k < |s.hops| && s.hops[k].msg.eof.coordinator.Some?
    ensures s.hops[k].dest < su.size && s.hops[k].msg.eof.expected == -1
    ensures s.hops[k].msg.id !in s.nodes[s.hops[k].dest].control
  {
    hide Passed, Forgotten, Accounted, HandledAt;
    assert GoodHop(su, s.hops[k]);
    var j: nat := PlaceOf(s.hops[k]);
    assert PlaceId(su, j) !in s.nodes[s.hops[k].dest].control;
  }

  /** Forgetting leaves nothing: no seen ids, no counts. A token of the round does this to its node, and
    * has nothing sent to the next stage. */
  lemma HandlingForgets(su: Setup, before: seq<Node>, acts: seq<Action>, k: nat)
    requires Fresh(su, before) && su.expected == -1
    requires var s := Run(su, before, acts); k < |s.hops| && s.hops[k].msg.eof.coordinator.Some?
    ensures var s := Run(su, before, acts); var d := s.hops[k].dest; var s' := Apply(su, s, Token(k));
      && d < su.size && s'.nodes == s.nodes[d := Node({}, {}, Counters(0, 0, 0, 0))]
      && s'.forgets == s.forgets + [d] && s'.flushes == s.flushes
  {
    RunInv(su, before, acts);
    HandlesRoundToken(su, Run(su, before, acts), k);
    hide Inv, Run, TokenOutcome;
  }

  lemma Chained(su: Setup, s: Round, i: nat)
    requires Inv(su, s) && i < su.size && HandledAt(s.hops, s.handled, i + 1) != []
    ensures HandledAt(s.hops, s.handled, i) != []
  {
    hide GoodHops, Memory, Forgotten, Accounted;
    var k := HandledAt(s.hops, s.handled, i + 1)[0];
    HandledMembers(s.hops, s.handled, i + 1, k);
    assert k in At(s.hops, i + 1);
  }

  lemma {:induction false} AllEarlier(su: Setup, s: Round, j: nat, i: nat)
    requires Inv(su, s) && i <= j <= su.size && HandledAt(s.hops, s.handled, j) != []
    ensures HandledAt(s.hops, s.handled, i) != []
    decreases j
  {
    hide Inv, HandledAt;
    if i < j {
      assert 0 < su.size;
      Chained(su, s, j - 1);
      AllEarlier(su, s, j - 1, i);
    }
  }

  /** Node d is the receiver of exactly one place of the round. */
  lemma PlaceOfNode(su: Setup, d: nat) returns (j: nat)
    requires d < su.size
    ensures 1 <= j <= su.size && Dest(su, j) == d
  {
    j := DestCovers(su, 1, d);
  }

  ghost predicate AllForgot(su: Setup, s: Round) { forall d: nat :: d < su.size ==> Times(s.forgets, d) >= 1 }

  ghost predicate AllForgotOnce(su: Setup, s: Round) { forall d: nat :: d < su.size ==> Times(s.forgets, d) == 1 }

  lemma FinalMeansForgotten(su: Setup, s: Round)
    requires Inv(su, s) && HandledAt(s.hops, s.handled, su.size) != []
    ensures AllForgot(su, s)
  {
    forall d: nat | d < su.size ensures Times(s.forgets, d) >= 1 {
      var j := PlaceOfNode(su, d);
      AllEarlier(su, s, su.size, j);
      hide HandledAt, Times, GoodHops, Memory, Accounted, Passed;
      assert Times(s.forgets, Dest(su, j)) == |HandledAt(s.hops, s.handled, j)|;
    }
  }

  lemma OneCoordinator(su: Setup, s: Round, h: Hop)
    requires Inv(su, s) && h in s.hops && h.msg.eof.coordinator.Some?
    ensures h.msg.eof.coordinator.value == (su.start + 1) % su.size
  {
    hide Memory, Passed, Forgotten, Accounted, HandledAt, PlaceId;
    assert GoodHop(su, h);
  }

  /** The cleanup round, in every run: it is coordinated by the node after the starting one; nothing is
    * flushed; every final EOF is -1, and is sent only after every node has forgotten the flow. */
  lemma CleanupRound(su: Setup, before: seq<Node>, acts: seq<Action>)
    requires Fresh(su, before) && su.expected == -1
    ensures var s := Run(su, before, acts);
      && (forall h :: h in s.hops && h.msg.eof.coordinator.Some? ==> h.msg.eof.coordinator.value == (su.start + 1) % su.size)
      && s.flushes == [] && (forall c :: c in s.finals ==> c == -1)
      && (s.finals != [] ==> AllForgot(su, s))
  {
    var s := Run(su, before, acts);
    RunInv(su, before, acts);
    hide Run, AllForgot, GoodHops, Memory, Accounted, Passed, Forgotten, HandledAt;
    forall h | h in s.hops && h.msg.eof.coordinator.Some? ensures h.msg.eof.coordinator.value == (su.start + 1) % su.size {
      OneCoordinator(su, s, h);
    }
    if s.finals != [] { FinalMeansForgotten(su, s); }
  }

  /** The round has begun, and every token sent has been delivered. */
  ghost predicate AllDelivered(s: Round) {
    s.hops != [] && forall k: nat :: k < |s.hops| ==> k in s.delivered
  }

  /** No token is handled twice: none is redelivered to a node that has forgotten it. */
  ghost predicate NoTokenTwice(s: Round) {
    forall j: nat :: |HandledAt(s.hops, s.handled, j)| <= 1
  }

  lemma DeliveredIsHandled(su: Setup, s: Round, j: nat)
    requires Inv(su, s) && AllDelivered(s) && At(s.hops, j) != {}
    ensures HandledAt(s.hops, s.handled, j) != []
  {
    var k :| k in At(s.hops, j);
    assert k in s.delivered;
    HandledMembers(s.hops, s.handled, j, k);
  }

  lemma {:induction false} SomethingBegan(su: Setup, s: Round, j: nat)
    requires Inv(su, s) && AllDelivered(s) && At(s.hops, j) != {} && j <= su.size
    ensures HandledAt(s.hops, s.handled, 0) != []
    decreases j
  {
    DeliveredIsHandled(su, s, j);
    AllEarlier(su, s, j, 0);
  }

  lemma {:induction false} AllLater(su: Setup, s: Round, j: nat)
    requires Inv(su, s) && AllDelivered(s) && j <= su.size
    ensures HandledAt(s.hops, s.handled, j) != []
  {
    if j == 0 {
      assert GoodHop(su, s.hops[0]);
      var first: nat := PlaceOf(s.hops[0]);
      assert 0 in At(s.hops, first);
      SomethingBegan(su, s, first);
    } else {
      AllLater(su, s, j - 1);
      assert |At(s.hops, j)| == |HandledAt(s.hops, s.handled, j - 1)|;
      assert At(s.hops, j) != {} by { assert |At(s.hops, j)| > 0; }
      DeliveredIsHandled(su, s, j);
    }
  }

  lemma HandledInRange(su: Setup, s: Round, j: nat)
    requires Inv(su, s) && HandledAt(s.hops, s.handled, j) != []
    ensures j <= su.size
  {
    var k := HandledAt(s.hops, s.handled, j)[0];
    HandledMembers(s.hops, s.handled, j, k);
    assert GoodHop(su, s.hops[k]);
  }

  /** Each handling of the first token has sent a token of place 1, all of which have been handled. */
  lemma FirstAtMostSecond(su: Setup, s: Round)
    requires Inv(su, s) && AllDelivered(s)
    ensures |HandledAt(s.hops, s.handled, 0)| <= |HandledAt(s.hops, s.handled, 1)|
  {
    assert |At(s.hops, 1)| == |HandledAt(s.hops, s.handled, 0)|;
    forall k | k in At(s.hops, 1) ensures k in Elems(HandledAt(s.hops, s.handled, 1)) {
      assert k in s.delivered;
      HandledMembers(s.hops, s.handled, 1, k);
    }
    SubsetSize(At(s.hops, 1), Elems(HandledAt(s.hops, s.handled, 1)));
    ElemsSize(HandledAt(s.hops, s.handled, 1));
  }

  lemma OnceEachPlace(su: Setup, s: Round, j: nat)
    requires Inv(su, s) && AllDelivered(s) && AllForgotOnce(su, s)
    ensures |HandledAt(s.hops, s.handled, j)| <= 1
  {
    if HandledAt(s.hops, s.handled, j) != [] {
      HandledInRange(su, s, j);
      FirstAtMostSecond(su, s);
      assert Times(s.forgets, Dest(su, 1)) == |HandledAt(s.hops, s.handled, 1)|;
      assert j > 0 ==> Times(s.forgets, Dest(su, j)) == |HandledAt(s.hops, s.handled, j)|;
    }
  }

  lemma OnceEachNode(su: Setup, s: Round)
    requires Inv(su, s) && AllForgot(su, s) && NoTokenTwice(s)
    ensures AllForgotOnce(su, s)
  {
    forall d: nat | d < su.size ensures Times(s.forgets, d) == 1 {
      var j := PlaceOfNode(su, d);
      assert Times(s.forgets, Dest(su, j)) == |HandledAt(s.hops, s.handled, j)|;
    }
  }

  lemma OneFinal(su: Setup, s: Round)
    requires Inv(su, s) && s.finals != [] && NoTokenTwice(s)
    ensures s.finals == [-1]
  {
    hide GoodHops, Memory, Passed, Forgotten, Accounted, HandledAt;
    assert |HandledAt(s.hops, s.handled, su.size)| <= 1;
    var c := s.finals[0];
    assert c in s.finals && c == -1;
    assert s.finals == [c];
  }

  lemma OnceIff(su: Setup, s: Round)
    requires Inv(su, s) && AllDelivered(s)
    ensures AllForgot(su, s) && s.finals != []
    ensures AllForgotOnce(su, s) && s.finals == [-1] <==> NoTokenTwice(s)
  {
    AllLater(su, s, su.size);
    FinalMeansForgotten(su, s);
    assert s.finals != [] by { assert |s.finals| > 0; }
    hide Inv, AllDelivered, AllForgot, AllForgotOnce, HandledAt;
    if NoTokenTwice(s) {
      OnceEachNode(su, s);
      OneFinal(su, s);
    } else if AllForgotOnce(su, s) {
      forall j: nat ensures |HandledAt(s.hops, s.handled, j)| <= 1 { OnceEachPlace(su, s, j); }
    }
  }

  /** Once every token sent has been delivered, every node has forgotten the flow and a final EOF of -1 has
    * been sent; each node exactly once, and exactly one EOF, if and only if no token was handled twice. */
  lemma CleanupCompletes(su: Setup, before: seq<Node>, acts: seq<Action>)
    requires Fresh(su, before) && su.expected == -1 && AllDelivered(Run(su, before, acts))
    ensures var s := Run(su, before, acts);
      AllForgot(su, s) && s.finals != [] && (AllForgotOnce(su, s) && s.finals == [-1] <==> NoTokenTwice(s))
  {
    RunInv(su, before, acts);
    OnceIff(su, Run(su, before, acts));
  }

  // --- a chain of stages ---

  /** A stage on the way of the cleanup EOF: a ring and a run of it, of which final EOF `passed` goes to the
    * next stage; or a stateless worker, which forwards the EOF as it is. */
  datatype Link = Ring(ring: Setup, before: seq<Node>, acts: seq<Action>, passed: nat) | Forwarder

  /** What a link passes on when it gets an EOF with the given count. */
  ghost predicate Links(l: Link, count: int, next: int) {
    match l
    case Forwarder => next == count
    case Ring(su, before, acts, passed) =>
      && Fresh(su, before) && su.expected == count
      && passed < |Run(su, before, acts).finals| && next == Run(su, before, acts).finals[passed]
  }

  /** counts[i] is what link i gets. */
  ghost predicate Chain(links: seq<Link>, counts: seq<int>) {
    |counts| == |links| + 1 && forall i :: 0 <= i < |links| ==> Links(links[i], counts[i], counts[i + 1])
  }

  ghost predicate Forgot(l: Link) {
    l.Ring? && 0 < l.ring.size && l.ring.start < l.ring.size && |l.before| == |l.ring.inbox| == l.ring.size ==>
      var s := Run(l.ring, l.before, l.acts);
      s.flushes == [] && AllForgot(l.ring, s)
  }

  /** A cleanup that enters a chain of stages of any length reaches its end as a cleanup, and by then every
    * replica of every ring on the way has forgotten the flow, having flushed nothing. */
  lemma {:induction false} CleanupPassesThrough(links: seq<Link>, counts: seq<int>, i: nat)
    requires Chain(links, counts) && counts[0] == -1 && i <= |links|
    ensures counts[i] == -1 && forall l :: 0 <= l < i ==> Forgot(links[l])
  {
    if i > 0 {
      CleanupPassesThrough(links, counts, i - 1);
      var l := links[i - 1];
      assert Links(l, counts[i - 1], counts[i]);
      if l.Ring? {
        CleanupRound(l.ring, l.before, l.acts);
        assert counts[i] in Run(l.ring, l.before, l.acts).finals;
      }
    }
  }
}
