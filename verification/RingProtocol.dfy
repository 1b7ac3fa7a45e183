/** The ring termination protocol of one flow: N `StatefulWorker` replicas of a stage, data
  * messages and ring tokens interleaved arbitrarily.
  *
  * A run is a sequence of actions. Every message ever sent stays deliverable, so redelivery by
  * the broker at any later moment is part of every run; a handler (its sends, the WAL append and
  * the seen-set update) is one action. */
module RingProtocol {
  import opened Options
  import opened Ids
  import opened Arithmetic
  import opened RingNode

  /** A data message sent to the next stage: routing destination and message id. */
  datatype Out = Out(dest: nat, id: string)

  datatype Hop = Hop(dest: nat, msg: RingMsg)

  /** A stage and one flow's input: `inbox[i]` are the ids of the data messages routed to node i,
    * `emit(i, m)` what handling m sends, `flush(i, ms)` what node i's flush sends after having
    * processed ms. `origin` tells where an emitted message comes from (see Traceable). */
  datatype Setup = Setup(size: nat, start: nat, client: string, eofId: string, expected: int,
                         inbox: seq<set<string>>,
                         emit: (nat, string) -> set<Out>,
                         flush: (nat, set<string>) -> set<Out>,
                         origin: Out -> (nat, Option<string>))

  /** `counted` hops belong to the count phase; `flushLog` lists the nodes in flush order. */
  datatype Sys = Sys(nodes: seq<Node>, outs: seq<set<Out>>, hops: seq<Hop>, counted: nat,
                     flushLog: seq<nat>, finals: seq<int>)

  datatype Action = Data(node: nat, id: string) | Eof | Token(hop: nat)

  ghost predicate WellFormed(su: Setup) {
    0 < su.size && su.start < su.size && |su.inbox| == su.size && su.eofId !in su.inbox[su.start] &&
    0 <= su.expected
  }

  /** No two sends of the stage produce the same (destination, id): each output names its origin. */
  ghost predicate Traceable(su: Setup) {
    && (forall i: nat, m, o :: o in su.emit(i, m) ==> su.origin(o) == (i, Some(m)))
    && (forall i: nat, ms, o :: o in su.flush(i, ms) ==> su.origin(o) == (i, None))
  }

  // --- the step function ---

  ghost function Init(su: Setup): Sys
    requires WellFormed(su)
  {
    Sys(seq(su.size, _ => Node({}, {}, NO_COUNTS)), seq(su.size, _ => {}), [], 0, [], [])
  }

  ghost function DataSeen(su: Setup, s: Sys, i: nat): set<string>
    requires i < |s.nodes| && i < |su.inbox|
  {
    s.nodes[i].main * su.inbox[i]
  }

  ghost function OnData(su: Setup, s: Sys, i: nat, m: string): Sys
    requires i < |s.nodes| && i < |s.outs|
  {
    var n := s.nodes[i];
    if m in n.main then s
    else
      var n' := Node(n.main + {m}, n.control, CountersAfterData(n.counters, |su.emit(i, m)|));
      s.(nodes := s.nodes[i := n'], outs := s.outs[i := s.outs[i] + su.emit(i, m)])
  }

  ghost function OnEof(su: Setup, s: Sys): Sys
    requires WellFormed(su) && su.start < |s.nodes|
  {
    var n := s.nodes[su.start];
    if su.eofId in n.main then s
    else
      var n' := Node(n.main + {su.eofId}, n.control, Reported(n.counters));
      var hop := Hop(NextNode(su.start, su.size), StartToken(su.client, n.counters, su.expected));
      s.(nodes := s.nodes[su.start := n'], hops := s.hops + [hop], counted := s.counted + 1)
  }

  ghost function FlushOuts(su: Setup, s: Sys, k: nat): set<Out>
    requires k < |s.hops| && s.hops[k].dest < |s.nodes| && s.hops[k].dest < |su.inbox|
  {
    if s.hops[k].msg.eof.coordinator.None? then {}
    else su.flush(s.hops[k].dest, DataSeen(su, s, s.hops[k].dest))
  }

  ghost function OnToken(su: Setup, s: Sys, k: nat): Sys
    requires WellFormed(su) && |s.nodes| == |s.outs| == su.size
    requires k < |s.hops| && s.hops[k].dest < su.size
  {
    var d, msg := s.hops[k].dest, s.hops[k].msg;
    var n := s.nodes[d];
    if msg.id in n.control then s
    else
      var sent := FlushOuts(su, s, k);
      var n' := Node(n.main, n.control + {msg.id}, CountersAfterToken(n.counters, msg, |sent|));
      var s' := s.(nodes := s.nodes[d := n'], outs := s.outs[d := s.outs[d] + sent],
                   flushLog := if msg.eof.coordinator.None? then s.flushLog else s.flushLog + [d]);
      match TokenOutcome(d, su.client, n.counters, msg, |sent|)
      case Forward(m) =>
        s'.(hops := s.hops + [Hop(NextNode(d, su.size), m)],
            counted := if m.eof.coordinator.None? then s.counted + 1 else s.counted)
      case FinalEof(count) => s'.(finals := s.finals + [count])
  }

  /** An action that is not enabled (no such message was ever sent) changes nothing. */
  ghost function Apply(su: Setup, s: Sys, a: Action): (s': Sys)
    requires WellFormed(su) && |s.nodes| == |s.outs| == su.size
    ensures |s'.nodes| == |s'.outs| == su.size
  {
    match a
    case Data(i, m) => if i < su.size && m in su.inbox[i] then OnData(su, s, i, m) else s
    case Eof => OnEof(su, s)
    case Token(k) => if k < |s.hops| && s.hops[k].dest < su.size then OnToken(su, s, k) else s
  }

  ghost function Run(su: Setup, acts: seq<Action>): (s: Sys)
    requires WellFormed(su)
    ensures |s.nodes| == |s.outs| == su.size
    decreases |acts|
  {
    if acts == [] then Init(su)
    else Apply(su, Run(su, acts[..|acts| - 1]), acts[|acts| - 1])
  }

  // --- sums over the ring ---

  ghost function PartialProcessed(nodes: seq<Node>): seq<int> {
    seq(|nodes|, i requires 0 <= i < |nodes| => nodes[i].counters.partialProcessed)
  }

  ghost function PartialSent(nodes: seq<Node>): seq<int> {
    seq(|nodes|, i requires 0 <= i < |nodes| => nodes[i].counters.partialSent)
  }

  ghost function Sizes<T>(sets: seq<set<T>>): seq<int> {
    seq(|sets|, i requires 0 <= i < |sets| => |sets[i]|)
  }

  /** How many data messages the stage is to receive. */
  ghost function InboxTotal(su: Setup): int { Sum(Sizes(su.inbox)) }

  // --- the invariant ---

  /** How many hops have been delivered at least once. */
  ghost function Delivered(s: Sys): int {
    if s.hops == [] then 0 else if s.finals == [] then |s.hops| - 1 else |s.hops|
  }

  ghost function Dest(su: Setup, k: int): (d: nat)
    requires 0 < su.size && 0 <= k
    ensures d < su.size
  {
    (su.start + 1 + k) % su.size
  }

  ghost function HopId(su: Setup, counted: nat, k: int): string {
    if k < counted then RingId(su.client, RING_PHASE_COUNT, k) else RingId(su.client, RING_PHASE_FLUSH, k - counted)
  }

  ghost predicate Shape(su: Setup, s: Sys)
    requires WellFormed(su)
  {
    && |s.nodes| == |s.outs| == su.size
    && s.counted <= |s.hops|
    && (s.hops != [] <==> s.counted > 0)
    && (s.hops != [] <==> su.eofId in s.nodes[su.start].main)
    && |s.finals| <= 1
    && |s.flushLog| == (if Delivered(s) > s.counted then Delivered(s) - s.counted else 0)
    && (s.finals == [] ==> |s.flushLog| < su.size)
    && (s.finals != [] ==> |s.flushLog| == su.size && |s.hops| == s.counted + su.size)
  }

  ghost predicate HopOk(su: Setup, s: Sys, k: nat)
    requires WellFormed(su) && k < |s.hops| && s.counted > 0
  {
    var msg := s.hops[k].msg;
    && s.hops[k].dest == Dest(su, k)
    && msg.id == HopId(su, s.counted, k)
    && msg.eof.expected == su.expected
    && msg.eof.totalSent.Some?
    && msg.eof.coordinator == (if k < s.counted then None else Some(Dest(su, s.counted - 1)))
  }

  ghost predicate Tokens(su: Setup, s: Sys)
    requires WellFormed(su) && Shape(su, s)
  {
    && (forall k :: 0 <= k < |s.hops| ==> HopOk(su, s, k))
    && (forall k :: 0 <= k < |s.flushLog| ==> s.flushLog[k] == Dest(su, s.counted + k))
    // a node has seen exactly the delivered hops addressed to it
    && (forall k :: 0 <= k < Delivered(s) ==> s.hops[k].msg.id in s.nodes[Dest(su, k)].control)
    && (forall i, id :: 0 <= i < su.size && id in s.nodes[i].control ==>
          exists k :: 0 <= k < Delivered(s) && s.hops[k].msg.id == id && Dest(su, k) == i)
  }

  ghost predicate NodeOk(su: Setup, s: Sys, i: nat)
    requires WellFormed(su) && i < su.size && |s.nodes| == |s.outs| == su.size
  {
    var n, c := s.nodes[i], s.nodes[i].counters;
    && (forall m :: m in n.main ==> m in su.inbox[i] || (i == su.start && m == su.eofId))
    && c.processed == |DataSeen(su, s, i)|
    && c.partialProcessed <= c.processed
    && c.partialSent <= c.sent
    && (c.partialProcessed == c.processed ==> c.partialSent == c.sent)
    && c.sent == |s.outs[i]|
  }

  /** All data is in and nothing is unreported. */
  ghost predicate Complete(su: Setup, s: Sys)
    requires WellFormed(su) && |s.nodes| == su.size
  {
    forall i :: 0 <= i < su.size ==>
      su.inbox[i] <= s.nodes[i].main && s.nodes[i].counters == Reported(s.nodes[i].counters)
  }

  ghost predicate Counts(su: Setup, s: Sys)
    requires WellFormed(su) && Shape(su, s)
  {
    && (forall i :: 0 <= i < su.size ==> NodeOk(su, s, i))
    && (|s.hops| > s.counted ==> Complete(su, s))
  }

  /** The live token carries exactly what the nodes have reported. */
  ghost predicate Conserved(su: Setup, s: Sys)
    requires WellFormed(su) && Shape(su, s)
  {
    var pp, ps := Sum(PartialProcessed(s.nodes)), Sum(PartialSent(s.nodes));
    if s.hops == [] then pp == 0 && ps == 0
    else if s.finals == [] then
      var eof := s.hops[|s.hops| - 1].msg.eof;
      eof.totalProcessed == pp && eof.totalSent == Some(ps)
    else s.finals[0] == ps
  }

  ghost predicate Emitted(su: Setup, s: Sys, i: nat, o: Out)
    requires i < |s.nodes| && i < |su.inbox|
  {
    || (exists m :: m in DataSeen(su, s, i) && o in su.emit(i, m))
    || (i in s.flushLog && o in su.flush(i, su.inbox[i]))
  }

  ghost predicate Outs(su: Setup, s: Sys)
    requires WellFormed(su) && Shape(su, s)
  {
    forall i, o :: 0 <= i < su.size ==> (o in s.outs[i] <==> Emitted(su, s, i, o))
  }

  ghost predicate Inv(su: Setup, s: Sys)
    requires WellFormed(su)
  {
    Shape(su, s) && Tokens(su, s) && Counts(su, s) && Conserved(su, s) && Outs(su, s)
  }

  // --- the ring's geometry ---

  lemma {:induction false} DestNext(su: Setup, k: nat)
    requires 0 < su.size
    ensures Dest(su, k + 1) == NextNode(Dest(su, k), su.size)
  {
    ModSucc(su.start + 1 + k, su.size);
  }

  lemma {:induction false} DestWraps(su: Setup, k: nat)
    requires 0 < su.size
    ensures Dest(su, k + su.size) == Dest(su, k)
  {
    ModPlusN(su.start + 1 + k, su.size);
  }

  /** A window of N consecutive hops visits no node twice. */
  lemma {:induction false} DestInjective(su: Setup, j: nat, k: nat)
    requires 0 < su.size && j < k < j + su.size
    ensures Dest(su, j) != Dest(su, k)
  {
    var n, x, y := su.size, su.start + 1 + j, su.start + 1 + k;
    if x % n == y % n {
      assert y - x == (y / n - x / n) * n;
      MulBound(y / n - x / n, n);
    }
  }

  /** A window of N consecutive hops visits every node. */
  lemma DestCovers(su: Setup, j: nat, i: nat) returns (k: nat)
    requires i < su.size
    ensures j <= k < j + su.size && Dest(su, k) == i
  {
    var n, x := su.size, su.start + 1 + j;
    var r := x % n;
    var gap := if i >= r then i - r else i - r + n;
    k := j + gap;
    assert (x / n + 1) * n == (x / n) * n + n;
    ModUnique(x + gap, n, if i >= r then x / n else x / n + 1, i);
  }
}
