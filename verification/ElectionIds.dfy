/** When the watchdogs agree on `_leader_id` (`src/watchdog/main.py`), and when they need not. */
module ElectionIds {
  import opened Options
  import opened Election

  ghost predicate AllStarted(s: Sys) { forall i: nat :: i < |s.dogs| ==> i in s.started }

  ghost predicate IdsAgree(s: Sys) { forall i: nat :: i < |s.dogs| ==> s.dogs[i].leader == Some((|s.dogs| - 1) as nat) }

  // --- agreement ---

  /** A watchdog between the lowest and the top that gives up waiting for an answer, and so claims
    * leadership. */
  ghost predicate Hasty(s: Sys, a: Action) {
    a.Timeout? && 0 < a.tid < |s.dogs| - 1 && Enabled(s, a) && s.dogs[a.tid].phase == AwaitingAnswer
  }

  ghost predicate Patient(s: Sys, acts: seq<Action>)
    decreases |acts|
  {
    acts != [] ==> !Hasty(s, acts[0]) && Patient(Step(s, acts[0]), acts[1..])
  }

  /** i follows the top, or a message that will make it do so is in flight. */
  ghost predicate Informed(s: Sys, i: nat)
    requires i < |s.dogs|
  {
    var top: nat := |s.dogs| - 1;
    || s.dogs[i].leader == Some(top)
    || Packet(i, top, ElectionMsg) in s.net
    || Packet(i, top, CoordinatorMsg) in s.net
    || Packet(top, i, CoordinatorMsg) in s.net
  }

  /** Only the lowest and the top ever claim leadership, and every watchdog that is up is informed. */
  ghost predicate Aware(s: Sys) {
    && Inv(s)
    && (forall i: nat :: i < |s.dogs| && i in s.started ==> Informed(s, i))
    && (forall i: nat :: 0 < i < |s.dogs| - 1 ==> s.dogs[i].role != Leader)
    && (forall p :: p in s.net && p.kind == CoordinatorMsg ==> p.src == 0 || p.src == |s.dogs| - 1)
  }

  /** A reaction of watchdog i that keeps this: it changes its leader only to the top, or asks the top. */
  ghost predicate Fair(n: nat, i: nat, d: Dog, r: Reaction) {
    var top := n - 1;
    && 0 <= top
    && (forall q :: q in r.sends && q.kind == CoordinatorMsg ==> q.src == i && (i == 0 || i == top))
    && (0 < i < top ==> r.dog.role != Leader)
    && (|| r.dog.leader == Some(top as nat) || r.dog.leader == d.leader
        || (i < top && (Packet(i, top, ElectionMsg) in r.sends || Packet(i, top, CoordinatorMsg) in r.sends)))
  }

  lemma ClaimFair(n: nat, i: nat, d: Dog)
    requires i < n && (i == 0 || i == n - 1)
    ensures Fair(n, i, d, BecomeLeader(n, i))
  {
    LeaderReaction(n, i, d);
  }

  lemma ElectionFair(n: nat, i: nat, d: Dog)
    requires i < n && (0 < i < n - 1 ==> d.role != Leader)
    ensures var r := StartElection(n, i, d);
      && Fair(n, i, d, r)
      && (r.dog.leader == Some((n - 1) as nat) || (i < n - 1 && Packet(i, n - 1, ElectionMsg) in r.sends))
      && (i < n - 1 ==> forall q :: q in r.sends ==> q.kind == ElectionMsg)
  {
    ElectionReaction(n, i, d);
    if i + 1 == n {
      ClaimFair(n, i, d);
    } else {
      forall p ensures p in ElectionsFrom(n, i, i + 1) <==> p == Packet(i, p.dst, ElectionMsg) && i < p.dst < n {
        ElectionsMembers(n, i, i + 1, p);
      }
      assert Packet(i, n - 1, ElectionMsg) in ElectionsFrom(n, i, i + 1);
    }
  }

  lemma MessageFair(n: nat, i: nat, d: Dog, from: nat, kind: MsgType)
    requires i < n && GoodPacket(n, Packet(from, i, kind)) && (0 < i < n - 1 ==> d.role != Leader)
    requires kind == CoordinatorMsg ==> from == 0 || from == n - 1
    ensures Fair(n, i, d, OnMessage(n, i, d, from, kind))
  {
    MessageReaction(n, i, d, from, kind);
    ElectionFair(n, i, d);
    if i == n - 1 { ClaimFair(n, i, d); }
  }

  /** What the top sends when it is asked, or claimed against. */
  lemma TopReplies(n: nat, d: Dog, from: nat, kind: MsgType)
    requires from < n - 1 && d.role == Leader && kind != AnswerMsg
    ensures Packet(n - 1, from, CoordinatorMsg) in OnMessage(n, n - 1, d, from, kind).sends
  {
    LeaderReaction(n, n - 1, d);
  }

  lemma ReactAware(s: Sys, i: nat, r: Reaction)
    requires i < |s.dogs| && Aware(s) && Inv(React(s, i, r)) && i in s.started && Fair(|s.dogs|, i, s.dogs[i], r)
    ensures Aware(React(s, i, r))
  {
    forall x: nat | x < |s.dogs| && x in s.started ensures Informed(React(s, i, r), x) {
      assert Informed(s, x);
    }
  }

  lemma DeliverAware(s: Sys, k: nat)
    requires Aware(s) && Enabled(s, Deliver(k))
    ensures Aware(Step(s, Deliver(k)))
  {
    var n, p, s' := |s.dogs|, s.net[k], Step(s, Deliver(k));
    var r := OnMessage(n, p.dst, s.dogs[p.dst], p.src, p.kind);
    StepKeeps(s, Deliver(k));
    assert p in s.net && GoodPacket(n, p);
    MessageFair(n, p.dst, s.dogs[p.dst], p.src, p.kind);
    forall q ensures (q in Without(s.net, k) ==> q in s.net) && (q in s.net && q != p ==> q in Without(s.net, k)) {
      WithoutMembers(s.net, k, q);
    }
    hide OnMessage, Inv;
    forall x: nat | x < n && x in s.started ensures Informed(s', x) { DeliverInforms(s, k, x, r); }
  }

  lemma DeliverInforms(s: Sys, k: nat, x: nat, r: Reaction)
    requires Inv(s) && Enabled(s, Deliver(k)) && x < |s.dogs| && Informed(s, x)
    requires var p := s.net[k]; r == OnMessage(|s.dogs|, p.dst, s.dogs[p.dst], p.src, p.kind) && Fair(|s.dogs|, p.dst, s.dogs[p.dst], r)
    ensures Informed(Step(s, Deliver(k)), x)
  {
    var p, top := s.net[k], |s.dogs| - 1;
    WithoutMembers(s.net, k, Packet(x, top, ElectionMsg));
    WithoutMembers(s.net, k, Packet(x, top, CoordinatorMsg));
    WithoutMembers(s.net, k, Packet(top, x, CoordinatorMsg));
    assert p in s.net && GoodPacket(|s.dogs|, p);
    if p.src == x && p.dst == top && p.kind != AnswerMsg {
      TopReplies(|s.dogs|, s.dogs[top], x, p.kind);
    }
  }

  lemma StepAware(s: Sys, a: Action)
    requires Aware(s) && !Hasty(s, a)
    ensures Aware(Step(s, a))
  {
    StepKeeps(s, a);
    if Enabled(s, a) {
      var n := |s.dogs|;
      match a
      case Start(i) => StartAware(s, i);
      case Deliver(k) => DeliverAware(s, k);
      case Timeout(i) =>
        ElectionFair(n, i, s.dogs[i]);
        if i == 0 || i == n - 1 { ClaimFair(n, i, s.dogs[i]); }
        ReactAware(s, i, OnTimeout(n, i, s.dogs[i]));
      case Disconnect(i, peer) =>
        ElectionFair(n, i, s.dogs[i]);
        ReactAware(s, i, OnDisconnect(n, i, s.dogs[i], peer));
    }
  }

  lemma StartAware(s: Sys, i: nat)
    requires Aware(s) && Enabled(s, Start(i)) && Inv(Step(s, Start(i)))
    ensures Aware(Step(s, Start(i)))
  {
    ElectionFair(|s.dogs|, i, s.dogs[i]);
    var s' := Step(s, Start(i));
    forall x: nat | x < |s.dogs| && x in s'.started ensures Informed(s', x) {
      if x != i { assert Informed(s, x); }
    }
  }

  lemma {:induction false} RunAware(s: Sys, acts: seq<Action>)
    requires Aware(s) && Patient(s, acts)
    ensures Aware(Run(s, acts))
    decreases |acts|
  {
    if acts != [] {
      StepAware(s, acts[0]);
      RunAware(Step(s, acts[0]), acts[1..]);
    }
  }

  /** As long as no middle watchdog gives up waiting for an answer, whenever all are up and nothing is
    * in flight all of them name the top. */
  lemma IdsAgreeWhenPatient(n: nat, acts: seq<Action>)
    requires n > 0 && Patient(Init(n), acts) && AllStarted(Run(Init(n), acts)) && Run(Init(n), acts).net == []
    ensures IdsAgree(Run(Init(n), acts))
  {
    RunAware(Init(n), acts);
    var s := Run(Init(n), acts);
    forall i: nat | i < |s.dogs| ensures s.dogs[i].leader == Some((|s.dogs| - 1) as nat) {
      assert Informed(s, i);
    }
  }

  lemma {:induction false} TwoArePatient(s: Sys, acts: seq<Action>)
    requires |s.dogs| <= 2
    ensures Patient(s, acts)
    decreases |acts|
  {
    if acts != [] { TwoArePatient(Step(s, acts[0]), acts[1..]); }
  }

  // --- disagreement ---

  ghost predicate OnLink(p: Packet, src: nat, dst: nat) { p.src == src && p.dst == dst }

  /** The first message that is not from src to dst. */
  ghost function FirstOffLink(net: seq<Packet>, src: nat, dst: nat): (k: nat)
    ensures k <= |net| && (k < |net| ==> !OnLink(net[k], src, dst))
    ensures forall p :: p in net[..k] ==> OnLink(p, src, dst)
  {
    if net == [] || !OnLink(net[0], src, dst) then 0 else 1 + FirstOffLink(net[1..], src, dst)
  }

  lemma {:induction false} RunConcat(s: Sys, a: seq<Action>, b: seq<Action>)
    ensures Run(s, a + b) == Run(Run(s, a), b)
    decreases |a|
  {
    if a == [] {
      assert a + b == b;
    } else {
      assert (a + b)[1..] == a[1..] + b;
      RunConcat(Step(s, a[0]), a[1..], b);
    }
  }

  /** While one link is slow, everything else is handled, the oldest message first. */
  lemma {:induction false} OthersDrain(s: Sys, src: nat, dst: nat, p: Packet) returns (more: seq<Action>)
    requires Inv(s) && (forall i: nat :: i < |s.dogs| ==> i in s.started) && p in s.net && OnLink(p, src, dst)
    ensures OnlyDeliveries(more) && Inv(Run(s, more)) && Run(s, more).started == s.started
    ensures p in Run(s, more).net && forall q :: q in Run(s, more).net ==> OnLink(q, src, dst)
    decreases Measure(|s.dogs|, s.net)
  {
    var k := FirstOffLink(s.net, src, dst);
    if k == |s.net| {
      more := [];
      assert s.net[..k] == s.net;
    } else {
      assert s.net[k] in s.net;
      DeliveriesAreBounded(s, [Deliver(k)]);
      assert Run(Step(s, Deliver(k)), []) == Step(s, Deliver(k)) && [Deliver(k)][1..] == [];
      StepKeeps(s, Deliver(k));
      WithoutMembers(s.net, k, p);
      var rest := OthersDrain(Step(s, Deliver(k)), src, dst, p);
      more := [Deliver(k)] + rest;
      assert more[1..] == rest;
    }
  }

  /** Then the slow link's messages arrive, in order: its sender is believed last. */
  lemma {:induction false} LinkDrains(s: Sys, src: nat, dst: nat) returns (more: seq<Action>)
    requires Inv(s) && dst < src < |s.dogs| && dst in s.started
    requires forall q :: q in s.net ==> OnLink(q, src, dst)
    ensures OnlyDeliveries(more) && Run(s, more).net == [] && Run(s, more).started == s.started
    ensures Packet(src, dst, CoordinatorMsg) in s.net || s.dogs[dst].leader == Some(src) ==>
      Run(s, more).dogs[dst].leader == Some(src)
    decreases |s.net|
  {
    if s.net == [] {
      more := [];
    } else {
      assert s.net[0] in s.net;
      StepKeeps(s, Deliver(0));
      assert Step(s, Deliver(0)).net == s.net[1..];
      var rest := LinkDrains(Step(s, Deliver(0)), src, dst);
      more := [Deliver(0)] + rest;
      assert more[1..] == rest;
    }
  }

  /** The others come up. */
  lemma {:induction false} StartRest(s: Sys, j: nat, p: Packet) returns (more: seq<Action>)
    requires j <= |s.dogs| && p in s.net && forall i: nat :: i < j ==> i in s.started
    ensures p in Run(s, more).net && AllStarted(Run(s, more))
    decreases |s.dogs| - j
  {
    if j == |s.dogs| {
      more := [];
    } else {
      var rest := StartRest(Step(s, Start(j)), j + 1, p);
      more := [Start(j)] + rest;
      assert more[1..] == rest;
    }
  }

  /** A middle watchdog that is up alone claims leadership after its timeout, before the others are up. */
  lemma HastyClaim(n: nat, mid: nat) returns (acts: seq<Action>)
    requires 0 < mid < n - 1
    ensures AllStarted(Run(Init(n), acts)) && Packet(mid, 0, CoordinatorMsg) in Run(Init(n), acts).net
  {
    hide CoordinatorFrom, ElectionsFrom;
    BroadcastMembers(n, mid, 0, Packet(mid, 0, CoordinatorMsg));
    var alone := Step(Step(Init(n), Start(mid)), Timeout(mid));
    var rest := StartRest(alone, 0, Packet(mid, 0, CoordinatorMsg));
    acts := [Start(mid)] + ([Timeout(mid)] + rest);
    assert acts[1..] == [Timeout(mid)] + rest && ([Timeout(mid)] + rest)[1..] == rest;
  }

  /** With any middle watchdog there is a run that ends with nothing in flight and all watchdogs up,
    * in which the lowest follows the middle one. */
  lemma LeaderIdsMayDisagree(n: nat, mid: nat) returns (acts: seq<Action>)
    requires 0 < mid < n - 1
    ensures var s := Run(Init(n), acts); AllStarted(s) && s.net == [] && s.dogs[0].leader == Some(mid)
  {
    var before := HastyClaim(n, mid);
    RunKeeps(Init(n), before);
    var s := Run(Init(n), before);
    var others := OthersDrain(s, mid, 0, Packet(mid, 0, CoordinatorMsg));
    var rest := LinkDrains(Run(s, others), mid, 0);
    acts := before + others + rest;
    RunConcat(Init(n), before + others, rest);
    RunConcat(Init(n), before, others);
  }

  ghost predicate AlwaysAgree(n: nat) {
    forall acts :: AllStarted(Run(Init(n), acts)) && Run(Init(n), acts).net == [] ==> IdsAgree(Run(Init(n), acts))
  }

  /** The watchdogs agree on the leader's id at every quiescence of every run if and only if there
    * are at most two of them. */
  lemma IdsAgreeIff(n: nat)
    ensures AlwaysAgree(n) <==> n <= 2
  {
    if n <= 2 {
      forall acts | AllStarted(Run(Init(n), acts)) && Run(Init(n), acts).net == [] ensures IdsAgree(Run(Init(n), acts)) {
        TwoArePatient(Init(n), acts);
        if n > 0 { IdsAgreeWhenPatient(n, acts); }
      }
    } else {
      var acts := LeaderIdsMayDisagree(n, 1);
      assert !IdsAgree(Run(Init(n), acts));
    }
  }
}
