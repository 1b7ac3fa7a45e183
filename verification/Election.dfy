/** The bully election among the watchdogs (`src/watchdog/main.py`): what one watchdog does with an
  * event, and N of them exchanging messages over reliable channels that may reorder. Watchdogs are
  * named by their rank, 0 the lowest. */
module Election {
  import opened Options

  datatype Role = Follower | Leader
  datatype Phase = Idle | AwaitingAnswer | AwaitingCoordinator
  datatype MsgType = ElectionMsg | AnswerMsg | CoordinatorMsg

  /** A coordinator message carries its sender's id as the leader id. */
  datatype Packet = Packet(src: nat, dst: nat, kind: MsgType)

  datatype Dog = Dog(role: Role, leader: Option<nat>, phase: Phase)

  /** The new state of a watchdog and the packets it sends. */
  datatype Reaction = Reaction(dog: Dog, sends: seq<Packet>)

  // --- what one watchdog does ---

  function CoordinatorFrom(n: nat, self: nat, j: nat): seq<Packet>
    requires j <= n
    decreases n - j
  {
    if j == n then []
    else (if j == self then [] else [Packet(self, j, CoordinatorMsg)]) + CoordinatorFrom(n, self, j + 1)
  }

  /** The coordinator message, to every other watchdog. */
  function Broadcast(n: nat, self: nat): seq<Packet> { CoordinatorFrom(n, self, 0) }

  /** The election message, to every watchdog from rank j up. */
  function ElectionsFrom(n: nat, self: nat, j: nat): seq<Packet>
    requires j <= n
    decreases n - j
  {
    if j == n then [] else [Packet(self, j, ElectionMsg)] + ElectionsFrom(n, self, j + 1)
  }

  function BecomeLeader(n: nat, self: nat): Reaction {
    Reaction(Dog(Leader, Some(self), Idle), Broadcast(n, self))
  }

  function StartElection(n: nat, self: nat, d: Dog): Reaction
    requires self < n
  {
    if self + 1 == n then BecomeLeader(n, self)
    else Reaction(Dog(d.role, None, AwaitingAnswer), ElectionsFrom(n, self, self + 1))
  }

  function OnTimeout(n: nat, self: nat, d: Dog): Reaction
    requires self < n
  {
    match d.phase
    case AwaitingAnswer => BecomeLeader(n, self)
    case AwaitingCoordinator => StartElection(n, self, d)
    case Idle => Reaction(d, [])
  }

  function OnMessage(n: nat, self: nat, d: Dog, from: nat, kind: MsgType): Reaction
    requires self < n
  {
    match kind
    case ElectionMsg =>
      var answer := Packet(self, from, AnswerMsg);
      if d.role == Leader then Reaction(d, [answer] + Broadcast(n, self))
      else
        var r := StartElection(n, self, d);
        Reaction(r.dog, [answer] + r.sends)
    case AnswerMsg =>
      Reaction(if d.phase == AwaitingAnswer then d.(phase := AwaitingCoordinator) else d, [])
    case CoordinatorMsg =>
      if from < self then StartElection(n, self, d) else Reaction(Dog(Follower, Some(from), Idle), [])
  }

  function OnDisconnect(n: nat, self: nat, d: Dog, peer: nat): Reaction
    requires self < n
  {
    if d.leader == Some(peer) then StartElection(n, self, d) else Reaction(d, [])
  }

  const FRESH_DOG := Dog(Follower, None, Idle)

  // --- the event handlers ---

  /** One watchdog among n; `outbox` is what it has handed to its peer connections. */
  class Watchdog {
    const id: nat
    const n: nat
    var role: Role
    var leaderId: Option<nat>
    var phase: Phase
    var outbox: seq<Packet>

    ghost function State(): Dog
      reads this
    {
      Dog(role, leaderId, phase)
    }

    constructor (id: nat, n: nat)
      requires id < n
      ensures State() == FRESH_DOG && outbox == [] && this.id == id && this.n == n
    {
      this.id, this.n := id, n;
      role, leaderId, phase, outbox := Follower, None, Idle, [];
    }

    /** The handler did what the reaction says. */
    twostate predicate Did(r: Reaction)
      reads this
    {
      State() == r.dog && outbox == old(outbox) + r.sends
    }

    /** `_broadcast_coordinator`. */
    method BroadcastCoordinator()
      requires id < n
      modifies this`outbox
      ensures outbox == old(outbox) + Broadcast(n, id)
    {
      for j := 0 to n
        invariant outbox + CoordinatorFrom(n, id, j) == old(outbox) + Broadcast(n, id)
      {
        if j != id { outbox := outbox + [Packet(id, j, CoordinatorMsg)]; }
      }
    }

    /** `_become_role`. */
    method BecomeRole(newRole: Role, leader: Option<nat>)
      requires id < n
      modifies this
      ensures State() == Dog(newRole, Some(leader.GetOr(id)), Idle)
      ensures outbox == old(outbox) + if newRole == Leader then Broadcast(n, id) else []
    {
      role, leaderId, phase := newRole, Some(leader.GetOr(id)), Idle;
      if newRole == Leader { BroadcastCoordinator(); }
    }

    /** `_start_election`. */
    method StartAnElection()
      requires id < n
      modifies this
      ensures Did(StartElection(n, id, old(State())))
    {
      leaderId := None;
      if id + 1 == n {
        BecomeRole(Leader, None);
        return;
      }
      for j := id + 1 to n
        invariant role == old(role) && leaderId == None
        invariant outbox + ElectionsFrom(n, id, j) == old(outbox) + ElectionsFrom(n, id, id + 1)
      {
        outbox := outbox + [Packet(id, j, ElectionMsg)];
      }
      phase := AwaitingAnswer;
    }

    /** `_handle_election_timeout`. */
    method HandleElectionTimeout()
      requires id < n
      modifies this
      ensures Did(OnTimeout(n, id, old(State())))
    {
      if phase == AwaitingAnswer {
        BecomeRole(Leader, None);
      } else if phase == AwaitingCoordinator {
        StartAnElection();
      }
    }

    /** `_handle_election_message`. */
    method HandleElectionMessage(peer: nat)
      requires id < n
      modifies this
      ensures Did(OnMessage(n, id, old(State()), peer, ElectionMsg))
    {
      outbox := outbox + [Packet(id, peer, AnswerMsg)];
      if role == Leader { BroadcastCoordinator(); } else { StartAnElection(); }
    }

    /** `_handle_message`. */
    method HandleMessage(peer: nat, kind: MsgType, nodeId: nat)
      requires id < n && nodeId == peer
      modifies this
      ensures Did(OnMessage(n, id, old(State()), peer, kind))
    {
      match kind
      case ElectionMsg => HandleElectionMessage(peer);
      case AnswerMsg => if phase == AwaitingAnswer { phase := AwaitingCoordinator; }
      case CoordinatorMsg =>
        if nodeId < id { StartAnElection(); } else { BecomeRole(Follower, Some(nodeId)); }
    }

    /** `_handle_disconnect`. */
    method HandleDisconnect(peer: nat)
      requires id < n
      modifies this
      ensures Did(OnDisconnect(n, id, old(State()), peer))
    {
      if leaderId == Some(peer) { StartAnElection(); }
    }
  }

  // --- the system ---

  datatype Sys = Sys(dogs: seq<Dog>, started: set<nat>, net: seq<Packet>)

  /** Deliver picks any message in flight; timeouts fire whenever the phase has a deadline, and a
    * disconnect may be noticed at any moment (no message is lost). */
  datatype Action = Start(id: nat) | Deliver(k: nat) | Timeout(tid: nat) | Disconnect(did: nat, peer: nat)

  function Init(n: nat): Sys { Sys(seq(n, _ => FRESH_DOG), {}, []) }

  function React(s: Sys, i: nat, r: Reaction): Sys
    requires i < |s.dogs|
  {
    s.(dogs := s.dogs[i := r.dog], net := s.net + r.sends)
  }

  function Without(net: seq<Packet>, k: nat): seq<Packet>
    requires k < |net|
  {
    net[..k] + net[k + 1..]
  }

  predicate Enabled(s: Sys, a: Action) {
    match a
    case Start(i) => i < |s.dogs| && i !in s.started
    case Deliver(k) => k < |s.net| && s.net[k].dst < |s.dogs| && s.net[k].dst in s.started
    case Timeout(i) => i < |s.dogs| && i in s.started
    case Disconnect(i, _) => i < |s.dogs| && i in s.started
  }

  function Step(s: Sys, a: Action): (s': Sys)
    ensures |s'.dogs| == |s.dogs|
  {
    if !Enabled(s, a) then s
    else
      var n := |s.dogs|;
      match a
      case Start(i) => React(s.(started := s.started + {i}), i, StartElection(n, i, s.dogs[i]))
      case Deliver(k) =>
        var p := s.net[k];
        React(s.(net := Without(s.net, k)), p.dst, OnMessage(n, p.dst, s.dogs[p.dst], p.src, p.kind))
      case Timeout(i) => React(s, i, OnTimeout(n, i, s.dogs[i]))
      case Disconnect(i, peer) => React(s, i, OnDisconnect(n, i, s.dogs[i], peer))
  }

  function Run(s: Sys, acts: seq<Action>): (s': Sys)
    ensures |s'.dogs| == |s.dogs|
    decreases |acts|
  {
    if acts == [] then s else Run(Step(s, acts[0]), acts[1..])
  }

  // --- what an event leads to ---

  /** i waits for an answer to the election messages it has sent to every higher watchdog; the top has no
    * one to ask and is leader, with its claim on the way to every other watchdog. */
  ghost predicate Candidate(s: Sys, i: nat)
    requires i < |s.dogs|
  {
    var top := |s.dogs| - 1;
    if i == top then
      s.dogs[i] == Dog(Leader, Some(i), Idle) && forall j: nat :: j < top ==> Packet(i, j, CoordinatorMsg) in s.net
    else
      s.dogs[i].phase == AwaitingAnswer && s.dogs[i].leader == None &&
      forall j: nat :: i < j <= top ==> Packet(i, j, ElectionMsg) in s.net
  }

  /** i is leader, with its claim on the way to every other watchdog. */
  ghost predicate Claimant(s: Sys, i: nat)
    requires i < |s.dogs|
  {
    s.dogs[i] == Dog(Leader, Some(i), Idle) &&
    forall j: nat :: j < |s.dogs| && j != i ==> Packet(i, j, CoordinatorMsg) in s.net
  }

  /** Only i has changed, nothing in flight has been lost, and i alone has sent something. */
  ghost predicate OnlyBy(i: nat, s: Sys, s': Sys)
    requires i < |s.dogs|
  {
    && |s'.dogs| == |s.dogs| && s'.dogs == s.dogs[i := s'.dogs[i]] && s'.started == s.started
    && s.net <= s'.net && forall p :: p in s'.net[|s.net|..] ==> p.src == i
  }

  lemma ElectionSends(n: nat, i: nat, d: Dog)
    requires i + 1 < n
    ensures forall p :: p in StartElection(n, i, d).sends <==> p == Packet(i, p.dst, ElectionMsg) && i < p.dst < n
  {
    forall p ensures p in ElectionsFrom(n, i, i + 1) <==> p == Packet(i, p.dst, ElectionMsg) && i < p.dst < n {
      ElectionsMembers(n, i, i + 1, p);
    }
  }

  lemma ClaimSends(n: nat, i: nat)
    requires i < n
    ensures forall p :: p in BecomeLeader(n, i).sends <==> p == Packet(i, p.dst, CoordinatorMsg) && p.dst < n && p.dst != i
  {
    forall p ensures p in Broadcast(n, i) <==> p == Packet(i, p.dst, CoordinatorMsg) && p.dst < n && p.dst != i {
      BroadcastMembers(n, i, 0, p);
    }
  }

  /** A watchdog told that the peer it follows is gone becomes a candidate; any other disconnect changes
    * nothing. */
  lemma LosingTheLeader(s: Sys, i: nat, peer: nat)
    requires i < |s.dogs| && i in s.started
    ensures var s' := Step(s, Disconnect(i, peer));
      if s.dogs[i].leader == Some(peer) then Candidate(s', i) && OnlyBy(i, s, s') else s' == s
  {
    var n := |s.dogs|;
    if i + 1 < n { ElectionSends(n, i, s.dogs[i]); } else { ClaimSends(n, i); }
    assert s.dogs[i := s.dogs[i]] == s.dogs && s.net + [] == s.net;
  }

  /** A watchdog starts as a candidate. */
  lemma StartingUp(s: Sys, i: nat)
    requires i < |s.dogs| && i !in s.started
    ensures Candidate(Step(s, Start(i)), i)
  {
    var n := |s.dogs|;
    if i + 1 < n { ElectionSends(n, i, s.dogs[i]); } else { ClaimSends(n, i); }
  }

  /** A watchdog that gets no answer claims leadership; one that gets an answer but then no claim becomes
    * a candidate again; one that waits for nothing has no timeout. */
  lemma WaitingInVain(s: Sys, i: nat)
    requires i < |s.dogs| && i in s.started
    ensures var s' := Step(s, Timeout(i));
      match s.dogs[i].phase
      case AwaitingAnswer => Claimant(s', i) && OnlyBy(i, s, s')
      case AwaitingCoordinator => Candidate(s', i) && OnlyBy(i, s, s')
      case Idle => s' == s
  {
    var n := |s.dogs|;
    ClaimSends(n, i);
    if i + 1 < n { ElectionSends(n, i, s.dogs[i]); }
    assert s.dogs[i := s.dogs[i]] == s.dogs && s.net + [] == s.net;
  }

  /** The same of a watchdog and the packets it sends at once. */
  ghost predicate CandidateBy(n: nat, i: nat, r: Reaction)
    requires i < n
  {
    if i == n - 1 then
      r.dog == Dog(Leader, Some(i), Idle) && forall j: nat :: j < n - 1 ==> Packet(i, j, CoordinatorMsg) in r.sends
    else
      r.dog.phase == AwaitingAnswer && r.dog.leader == None &&
      forall j: nat :: i < j < n ==> Packet(i, j, ElectionMsg) in r.sends
  }

  ghost predicate Answers(n: nat, i: nat, d: Dog, from: nat, kind: MsgType, r: Reaction)
    requires i < n
  {
    match kind
    case ElectionMsg =>
      && Packet(i, from, AnswerMsg) in r.sends
      && (if d.role == Leader
          then r.dog == d && forall j: nat :: j < n && j != i ==> Packet(i, j, CoordinatorMsg) in r.sends
          else CandidateBy(n, i, r))
    case AnswerMsg => r.dog == Dog(d.role, d.leader, if d.phase == AwaitingAnswer then AwaitingCoordinator else d.phase)
    case CoordinatorMsg => if from < i then CandidateBy(n, i, r) else r.dog == Dog(Follower, Some(from), Idle)
  }

  /** What a message does to its receiver. An election message is answered, and makes a leader claim again
    * and anyone else a candidate; an answer ends the waiting for one; a claim from above is accepted, one
    * from below makes the receiver a candidate. */
  lemma GettingAMessage(n: nat, i: nat, d: Dog, from: nat, kind: MsgType)
    requires i < n && from != i
    ensures Answers(n, i, d, from, kind, OnMessage(n, i, d, from, kind))
    ensures forall p :: p in OnMessage(n, i, d, from, kind).sends ==> p.src == i
  {
    ClaimSends(n, i);
    if i + 1 < n { ElectionSends(n, i, d); }
  }

  // --- a unique leader at quiescence ---

  ghost predicate GoodPacket(n: nat, p: Packet) {
    p.src < n && p.dst < n && p.src != p.dst && (p.kind == ElectionMsg ==> p.src < p.dst)
  }

  /** The supporting invariant: a leader other than the top still has its own claim on the way to
    * the top, or the top's on the way to it. */
  ghost predicate Contested(s: Sys, i: nat) {
    var top := |s.dogs| - 1;
    0 <= top && (Packet(i, top, CoordinatorMsg) in s.net || Packet(top, i, CoordinatorMsg) in s.net)
  }

  ghost predicate Inv(s: Sys) {
    var top := |s.dogs| - 1;
    && (forall p :: p in s.net ==> GoodPacket(|s.dogs|, p))
    && (top in s.started ==> 0 <= top && s.dogs[top].role == Leader)
    && (0 <= top && top !in s.started ==> s.dogs[top].role == Follower)
    && (forall i: nat :: i < top && s.dogs[i].role == Leader ==> Contested(s, i))
  }

  lemma {:induction false} BroadcastMembers(n: nat, self: nat, j: nat, p: Packet)
    requires j <= n
    ensures p in CoordinatorFrom(n, self, j) <==> p == Packet(self, p.dst, CoordinatorMsg) && j <= p.dst < n && p.dst != self
    decreases n - j
  {
    if j < n { BroadcastMembers(n, self, j + 1, p); }
  }

  lemma {:induction false} ElectionsMembers(n: nat, self: nat, j: nat, p: Packet)
    requires j <= n
    ensures p in ElectionsFrom(n, self, j) <==> p == Packet(self, p.dst, ElectionMsg) && j <= p.dst < n
    decreases n - j
  {
    if j < n { ElectionsMembers(n, self, j + 1, p); }
  }

  /** What any reaction looks like from outside: good packets, and whoever becomes leader says so to all. */
  ghost predicate GoodReaction(n: nat, self: nat, d: Dog, r: Reaction) {
    && (forall p :: p in r.sends ==> GoodPacket(n, p) && p.src == self)
    && (r.dog.role == Leader && d.role != Leader ==>
          forall j: nat :: j < n && j != self ==> Packet(self, j, CoordinatorMsg) in r.sends)
  }

  lemma LeaderReaction(n: nat, self: nat, d: Dog)
    requires self < n
    ensures GoodReaction(n, self, d, BecomeLeader(n, self))
    ensures forall j: nat :: j < n && j != self ==> Packet(self, j, CoordinatorMsg) in BecomeLeader(n, self).sends
  {
    forall p ensures p in Broadcast(n, self) <==> p == Packet(self, p.dst, CoordinatorMsg) && p.dst < n && p.dst != self {
      BroadcastMembers(n, self, 0, p);
    }
  }

  lemma ElectionReaction(n: nat, self: nat, d: Dog)
    requires self < n
    ensures GoodReaction(n, self, d, StartElection(n, self, d))
    ensures self + 1 == n ==> StartElection(n, self, d) == BecomeLeader(n, self)
    ensures self + 1 < n ==> StartElection(n, self, d).dog.role == d.role
  {
    LeaderReaction(n, self, d);
    if self + 1 < n {
      forall p ensures p in ElectionsFrom(n, self, self + 1) <==> p == Packet(self, p.dst, ElectionMsg) && self < p.dst < n {
        ElectionsMembers(n, self, self + 1, p);
      }
    }
  }

  lemma MessageReaction(n: nat, self: nat, d: Dog, from: nat, kind: MsgType)
    requires self < n && from < n && from != self
    ensures GoodReaction(n, self, d, OnMessage(n, self, d, from, kind))
  {
    LeaderReaction(n, self, d);
    ElectionReaction(n, self, d);
  }

  /** A reaction of watchdog i that leaves its packets in flight keeps every contest open. */
  lemma ReactKeeps(s: Sys, i: nat, r: Reaction)
    requires Inv(s) && i < |s.dogs| && GoodReaction(|s.dogs|, i, s.dogs[i], r)
    requires i == |s.dogs| - 1 ==> r.dog.role == if i in s.started then Leader else Follower
    ensures Inv(React(s, i, r))
  {
    var s', top := React(s, i, r), |s.dogs| - 1;
    forall x: nat | x < top && s'.dogs[x].role == Leader ensures Contested(s', x) {
      if s.dogs[x].role == Leader {
        assert Contested(s, x);
      } else {
        assert Packet(x, top, CoordinatorMsg) in r.sends;
      }
    }
  }

  lemma WithoutMembers(net: seq<Packet>, k: nat, p: Packet)
    requires k < |net|
    ensures p in Without(net, k) ==> p in net
    ensures p in net && p != net[k] ==> p in Without(net, k)
  {
    if p in net && p != net[k] {
      var j :| 0 <= j < |net| && net[j] == p;
      assert Without(net, k)[if j < k then j else j - 1] == p;
    }
  }

  lemma DeliverKeeps(s: Sys, k: nat)
    requires Inv(s) && Enabled(s, Deliver(k))
    ensures Inv(Step(s, Deliver(k)))
  {
    var n, p, top := |s.dogs|, s.net[k], |s.dogs| - 1;
    var r := OnMessage(n, p.dst, s.dogs[p.dst], p.src, p.kind);
    var s' := Step(s, Deliver(k));
    assert GoodPacket(n, p) by { assert p in s.net; }
    MessageReaction(n, p.dst, s.dogs[p.dst], p.src, p.kind);
    LeaderReaction(n, p.dst, s.dogs[p.dst]);
    forall q ensures (q in Without(s.net, k) ==> q in s.net) && (q in s.net && q != p ==> q in Without(s.net, k)) {
      WithoutMembers(s.net, k, q);
    }
    forall x: nat | x < top && s'.dogs[x].role == Leader ensures Contested(s', x) {
      if x == p.dst && s.dogs[x].role != Leader {
        assert Packet(x, top, CoordinatorMsg) in r.sends;
      } else {
        assert Contested(s, x);
        if p == Packet(x, top, CoordinatorMsg) {
          // the top answers a claim from below by claiming again
          assert r == BecomeLeader(n, top);
          assert Packet(top, x, CoordinatorMsg) in r.sends;
        }
      }
    }
  }

  lemma StepKeeps(s: Sys, a: Action)
    requires Inv(s)
    ensures Inv(Step(s, a))
  {
    if Enabled(s, a) {
      var n := |s.dogs|;
      match a
      case Start(i) =>
        ElectionReaction(n, i, s.dogs[i]);
        StartKeeps(s, i);
      case Deliver(k) => DeliverKeeps(s, k);
      case Timeout(i) =>
        ElectionReaction(n, i, s.dogs[i]);
        LeaderReaction(n, i, s.dogs[i]);
        ReactKeeps(s, i, OnTimeout(n, i, s.dogs[i]));
      case Disconnect(i, peer) =>
        ElectionReaction(n, i, s.dogs[i]);
        ReactKeeps(s, i, OnDisconnect(n, i, s.dogs[i], peer));
    }
  }

  lemma StartKeeps(s: Sys, i: nat)
    requires Inv(s) && i < |s.dogs| && i !in s.started
    ensures Inv(Step(s, Start(i)))
  {
    var r := StartElection(|s.dogs|, i, s.dogs[i]);
    var s', top := Step(s, Start(i)), |s.dogs| - 1;
    ElectionReaction(|s.dogs|, i, s.dogs[i]);
    forall x: nat | x < top && s'.dogs[x].role == Leader ensures Contested(s', x) {
      assert Contested(s, x);
    }
  }

  lemma {:induction false} RunKeeps(s: Sys, acts: seq<Action>)
    requires Inv(s)
    ensures Inv(Run(s, acts))
    decreases |acts|
  {
    if acts != [] {
      StepKeeps(s, acts[0]);
      RunKeeps(Step(s, acts[0]), acts[1..]);
    }
  }

  lemma QuietMeansTopLeads(s: Sys)
    requires Inv(s) && |s.dogs| > 0 && |s.dogs| - 1 in s.started && s.net == []
    ensures forall i :: 0 <= i < |s.dogs| ==> (s.dogs[i].role == Leader <==> i == |s.dogs| - 1)
  {
    forall i: nat | i < |s.dogs| - 1 ensures s.dogs[i].role != Leader {
      assert !Contested(s, i);
    }
  }

  /** In every run, whenever the top watchdog has started and no message is in flight, it is the one
    * and only leader. */
  lemma UniqueLeaderAtQuiescence(n: nat, acts: seq<Action>)
    requires n > 0 && n - 1 in Run(Init(n), acts).started && Run(Init(n), acts).net == []
    ensures forall i :: 0 <= i < n ==> (Run(Init(n), acts).dogs[i].role == Leader <==> i == n - 1)
  {
    RunKeeps(Init(n), acts);
    QuietMeansTopLeads(Run(Init(n), acts));
  }

  // --- quiescence is reached ---

  /** The weight of a message to rank r from below: more than everything its handling can send. */
  ghost function Weight(n: nat, r: nat): nat
    requires r < n
    decreases n - r, 0
  {
    1 + n + WeightsFrom(n, r + 1)
  }

  ghost function WeightsFrom(n: nat, r: nat): nat
    requires r <= n
    decreases n - r, 1
  {
    if r == n then 0 else Weight(n, r) + WeightsFrom(n, r + 1)
  }

  ghost function PacketWeight(n: nat, p: Packet): nat {
    if p.src < p.dst < n then Weight(n, p.dst) else 1
  }

  ghost function Measure(n: nat, net: seq<Packet>): nat {
    if net == [] then 0 else PacketWeight(n, net[0]) + Measure(n, net[1..])
  }

  lemma {:induction false} MeasureAppend(n: nat, a: seq<Packet>, b: seq<Packet>)
    ensures Measure(n, a + b) == Measure(n, a) + Measure(n, b)
  {
    if a == [] {
      assert a + b == b;
    } else {
      assert (a + b)[1..] == a[1..] + b;
      MeasureAppend(n, a[1..], b);
    }
  }

  lemma MeasureWithout(n: nat, net: seq<Packet>, k: nat)
    requires k < |net|
    ensures Measure(n, Without(net, k)) == Measure(n, net) - PacketWeight(n, net[k])
  {
    MeasureAppend(n, net[..k], net[k + 1..]);
    MeasureAppend(n, net[..k], net[k..]);
    assert net == net[..k] + net[k..] && net[k..][1..] == net[k + 1..];
  }

  lemma {:induction false} ElectionsMeasure(n: nat, self: nat, j: nat)
    requires self < j <= n
    ensures Measure(n, ElectionsFrom(n, self, j)) == WeightsFrom(n, j)
    decreases n - j
  {
    if j < n {
      ElectionsMeasure(n, self, j + 1);
      assert ElectionsFrom(n, self, j)[1..] == ElectionsFrom(n, self, j + 1);
    }
  }

  lemma {:induction false} BroadcastMeasure(n: nat, self: nat, j: nat)
    requires self < n && j <= n
    ensures Measure(n, CoordinatorFrom(n, self, j)) ==
      if j <= self then self - j + WeightsFrom(n, self + 1) else WeightsFrom(n, j)
    decreases n - j
  {
    if j < n {
      BroadcastMeasure(n, self, j + 1);
      if j != self {
        assert CoordinatorFrom(n, self, j)[1..] == CoordinatorFrom(n, self, j + 1);
      } else {
        assert CoordinatorFrom(n, self, j) == CoordinatorFrom(n, self, j + 1);
      }
    }
  }

  /** Handling a message sends strictly less weight than it removes: a message from below allows for
    * an answer, a broadcast and a new election; a message from above sends nothing at all. */
  lemma HandlingIsLighter(n: nat, d: Dog, p: Packet)
    requires GoodPacket(n, p)
    ensures Measure(n, OnMessage(n, p.dst, d, p.src, p.kind).sends) < PacketWeight(n, p)
  {
    var self := p.dst;
    BroadcastMeasure(n, self, 0);
    if self + 1 < n { ElectionsMeasure(n, self, self + 1); }
    var answer := [Packet(self, p.src, AnswerMsg)];
    assert answer[1..] == [];
    if p.kind == ElectionMsg {
      MeasureAppend(n, answer, Broadcast(n, self));
      MeasureAppend(n, answer, StartElection(n, self, d).sends);
    }
  }

  ghost predicate OnlyDeliveries(acts: seq<Action>) { forall a :: a in acts ==> a.Deliver? }

  /** How many actions of a run actually deliver something. */
  ghost function Deliveries(s: Sys, acts: seq<Action>): nat
    decreases |acts|
  {
    if acts == [] then 0
    else (if Enabled(s, acts[0]) then 1 else 0) + Deliveries(Step(s, acts[0]), acts[1..])
  }

  lemma {:induction false} DeliveriesAreBounded(s: Sys, acts: seq<Action>)
    requires Inv(s) && OnlyDeliveries(acts)
    ensures Measure(|s.dogs|, Run(s, acts).net) + Deliveries(s, acts) <= Measure(|s.dogs|, s.net)
    decreases |acts|
  {
    if acts != [] {
      var a := acts[0];
      assert a in acts && forall x :: x in acts[1..] ==> x in acts;
      if Enabled(s, a) {
        var n, p := |s.dogs|, s.net[a.k];
        assert p in s.net;
        HandlingIsLighter(n, s.dogs[p.dst], p);
        MeasureWithout(n, s.net, a.k);
        MeasureAppend(n, Without(s.net, a.k), OnMessage(n, p.dst, s.dogs[p.dst], p.src, p.kind).sends);
      }
      StepKeeps(s, a);
      DeliveriesAreBounded(Step(s, a), acts[1..]);
    }
  }

  /** The cascade ends: between timeouts and disconnects, at most Measure messages are handled, in
    * whatever order; once that many have been (all watchdogs being up), nothing is in flight and the
    * top watchdog is the one leader. */
  lemma CascadeTerminates(n: nat, acts: seq<Action>, more: seq<Action>)
    requires n > 0 && OnlyDeliveries(more)
    ensures var s := Run(Init(n), acts);
      && Deliveries(s, more) <= Measure(n, s.net)
      && (Deliveries(s, more) == Measure(n, s.net) ==> Run(s, more).net == [])
      && (n - 1 in s.started && Run(s, more).net == [] ==>
            forall i :: 0 <= i < n ==> (Run(s, more).dogs[i].role == Leader <==> i == n - 1))
  {
    var s := Run(Init(n), acts);
    RunKeeps(Init(n), acts);
    DeliveriesAreBounded(s, more);
    RunKeeps(s, more);
    StartedGrows(s, more);
    hide Inv, Run;
    var s' := Run(s, more);
    if n - 1 in s.started && s'.net == [] { QuietMeansTopLeads(s'); }
    DrainedIfWeightless(n, s'.net);
  }

  lemma DrainedIfWeightless(n: nat, net: seq<Packet>)
    ensures Measure(n, net) == 0 <==> net == []
  {
  }

  lemma {:induction false} Drains(s: Sys) returns (more: seq<Action>)
    requires Inv(s) && forall i: nat :: i < |s.dogs| ==> i in s.started
    ensures OnlyDeliveries(more) && Run(s, more).net == [] && |more| <= Measure(|s.dogs|, s.net)
    decreases Measure(|s.dogs|, s.net)
  {
    more := [];
    if s.net != [] {
      var p := s.net[0];
      assert p in s.net;
      DeliveriesAreBounded(s, [Deliver(0)]);
      assert Run(Step(s, Deliver(0)), []) == Step(s, Deliver(0));
      assert [Deliver(0)][1..] == [];
      StepKeeps(s, Deliver(0));
      var rest := Drains(Step(s, Deliver(0)));
      more := [Deliver(0)] + rest;
      assert more[1..] == rest;
    }
  }

  /** From every reachable state in which all watchdogs are up, handling what is in flight leads to
    * a state with nothing in flight and the top watchdog as the one leader. */
  lemma {:induction false} QuiescenceIsReached(n: nat, acts: seq<Action>) returns (more: seq<Action>)
    requires n > 0 && forall i: nat :: i < n ==> i in Run(Init(n), acts).started
    ensures OnlyDeliveries(more) && |more| <= Measure(n, Run(Init(n), acts).net)
    ensures var s := Run(Run(Init(n), acts), more);
      s.net == [] && forall i :: 0 <= i < n ==> (s.dogs[i].role == Leader <==> i == n - 1)
  {
    RunKeeps(Init(n), acts);
    more := Drains(Run(Init(n), acts));
    CascadeTerminates(n, acts, more);
  }

  lemma {:induction false} StartedGrows(s: Sys, acts: seq<Action>)
    ensures s.started <= Run(s, acts).started
    decreases |acts|
  {
    if acts != [] {
      StartedGrows(Step(s, acts[0]), acts[1..]);
    }
  }
}
