/** What happens when the highest watchdogs die (`src/watchdog/main.py`): the survivors, once one that
  * followed a dead one has been told so, end with the highest of them as the one leader. Messages to the
  * dead are lost, and the dead send nothing. */
module ElectionFailover {
  import opened Options
  import opened Election

  /** The messages that still have a receiver when only the ranks up to h are alive. */
  ghost function Reaching(h: nat, net: seq<Packet>): seq<Packet> {
    if net == [] then []
    else (if net[0].dst <= h then [net[0]] else []) + Reaching(h, net[1..])
  }

  lemma {:induction false} ReachingMembers(h: nat, net: seq<Packet>, p: Packet)
    ensures p in Reaching(h, net) <==> p in net && p.dst <= h
  {
    if net != [] {
      assert net == [net[0]] + net[1..];
      ReachingMembers(h, net[1..], p);
    }
  }

  ghost predicate ByDead(h: nat, a: Action) {
    match a
    case Start(i) => i > h
    case Deliver(_) => false
    case Timeout(i) => i > h
    case Disconnect(i, _) => i > h
  }

  /** A step of the survivors. A survivor may be told at any moment that any peer is gone. */
  ghost function Survive(h: nat, s: Sys, a: Action): Sys {
    if ByDead(h, a) then s else var s' := Step(s, a); s'.(net := Reaching(h, s'.net))
  }

  ghost function RunOn(h: nat, s: Sys, acts: seq<Action>): Sys
    decreases |acts|
  {
    if acts == [] then s else RunOn(h, Survive(h, s, acts[0]), acts[1..])
  }

  // --- safety ---

  /** A survivor below h that is leader has its claim on the way to h, or h's is on the way to it, or h is
    * about to claim. */
  ghost predicate Challenged(h: nat, s: Sys, x: nat)
    requires h < |s.dogs|
  {
    || Packet(x, h, CoordinatorMsg) in s.net || Packet(h, x, CoordinatorMsg) in s.net
    || s.dogs[h].phase != Idle
  }

  ghost predicate Surviving(h: nat, s: Sys) {
    && h + 1 < |s.dogs|
    && (forall p :: p in s.net ==> GoodPacket(|s.dogs|, p) && p.src <= h && p.dst <= h)
    && (forall i: nat :: i <= h ==> i in s.started)
    && (forall x: nat :: x < h && s.dogs[x].role == Leader ==> Challenged(h, s, x))
  }

  /** h leads, or is about to, or will hear from below and stand. */
  ghost predicate Alerted(h: nat, s: Sys)
    requires h < |s.dogs|
  {
    || s.dogs[h].role == Leader || s.dogs[h].phase != Idle
    || exists p :: p in s.net && p.dst == h && p.kind != AnswerMsg
  }

  /** What a reaction of watchdog i must do to keep this. */
  ghost predicate Sound(n: nat, h: nat, i: nat, d: Dog, r: Reaction) {
    && (forall p :: p in r.sends ==> GoodPacket(n, p) && p.src == i)
    && (i < h && r.dog.role == Leader && d.role != Leader ==> Packet(i, h, CoordinatorMsg) in r.sends)
    && (i == h && d.role == Leader ==> r.dog.role == Leader)
    && (i == h && d.phase != Idle && r.dog.phase == Idle ==>
          r.dog.role == Leader && forall j: nat :: j < h ==> Packet(h, j, CoordinatorMsg) in r.sends)
  }

  lemma StandingSound(n: nat, h: nat, i: nat, d: Dog)
    requires i <= h < n - 1
    ensures Sound(n, h, i, d, StartElection(n, i, d)) && StartElection(n, i, d).dog.phase == AwaitingAnswer
    ensures i < h ==> Packet(i, h, ElectionMsg) in StartElection(n, i, d).sends
  {
    ElectionReaction(n, i, d);
    ElectionSends(n, i, d);
  }

  lemma ClaimingSound(n: nat, h: nat, i: nat, d: Dog)
    requires i <= h < n - 1
    ensures Sound(n, h, i, d, BecomeLeader(n, i))
  {
    LeaderReaction(n, i, d);
  }

  lemma MessageSound(n: nat, h: nat, i: nat, d: Dog, from: nat, kind: MsgType)
    requires i <= h < n - 1 && from <= h && GoodPacket(n, Packet(from, i, kind))
    ensures Sound(n, h, i, d, OnMessage(n, i, d, from, kind))
    ensures i == h && kind != AnswerMsg ==>
      OnMessage(n, i, d, from, kind).dog.role == Leader || OnMessage(n, i, d, from, kind).dog.phase != Idle
    ensures i == h && kind == CoordinatorMsg ==> OnMessage(n, i, d, from, kind).dog.phase != Idle
  {
    MessageReaction(n, i, d, from, kind);
    StandingSound(n, h, i, d);
    if d.role == Leader { ClaimingSound(n, h, i, d); }
  }

  lemma ReactSurvives(h: nat, s: Sys, i: nat, r: Reaction)
    requires Surviving(h, s) && i <= h && Sound(|s.dogs|, h, i, s.dogs[i], r)
    ensures var s' := React(s, i, r); var s'' := s'.(net := Reaching(h, s'.net));
      Surviving(h, s'') && (Alerted(h, s) ==> Alerted(h, s''))
  {
    var s' := React(s, i, r);
    var s'' := s'.(net := Reaching(h, s'.net));
    forall p ensures p in s''.net <==> (p in s.net || p in r.sends) && p.dst <= h { ReachingMembers(h, s'.net, p); }
    forall x: nat | x < h && s''.dogs[x].role == Leader ensures Challenged(h, s'', x) {
      if s.dogs[x].role == Leader { assert Challenged(h, s, x); }
    }
  }

  lemma DeliverSurvives(h: nat, s: Sys, k: nat)
    requires Surviving(h, s) && Enabled(s, Deliver(k))
    ensures Surviving(h, Survive(h, s, Deliver(k))) && (Alerted(h, s) ==> Alerted(h, Survive(h, s, Deliver(k))))
  {
    var n, p := |s.dogs|, s.net[k];
    var d, r := s.dogs[p.dst], OnMessage(n, p.dst, s.dogs[p.dst], p.src, p.kind);
    var s' := Survive(h, s, Deliver(k));
    assert p in s.net;
    MessageSound(n, h, p.dst, d, p.src, p.kind);
    hide OnMessage;
    forall q ensures (q in s'.net ==> (q in s.net || q in r.sends) && q.dst <= h) &&
                     ((q in s.net && q != p) || q in r.sends ==> q.dst <= h ==> q in s'.net)
    {
      ReachingMembers(h, Without(s.net, k) + r.sends, q);
      WithoutMembers(s.net, k, q);
    }
    forall x: nat | x < h && s'.dogs[x].role == Leader ensures Challenged(h, s', x) {
      if s.dogs[x].role == Leader {
        assert Challenged(h, s, x);
        AcceptsFromAbove(n, x, d, p);
      }
    }
  }

  /** A claim from above is accepted. */
  lemma AcceptsFromAbove(n: nat, x: nat, d: Dog, p: Packet)
    requires x < n && p.dst < n
    ensures p.dst == x && p.src > x && p.kind == CoordinatorMsg ==> OnMessage(n, x, d, p.src, p.kind).dog.role == Follower
  {
  }

  lemma StepSurvives(h: nat, s: Sys, a: Action)
    requires Surviving(h, s)
    ensures Surviving(h, Survive(h, s, a)) && (Alerted(h, s) ==> Alerted(h, Survive(h, s, a)))
  {
    var n := |s.dogs|;
    if Enabled(s, a) && !ByDead(h, a) {
      match a
      case Start(i) =>
      case Deliver(k) => DeliverSurvives(h, s, k);
      case Timeout(i) =>
        StandingSound(n, h, i, s.dogs[i]);
        ClaimingSound(n, h, i, s.dogs[i]);
        ReactSurvives(h, s, i, OnTimeout(n, i, s.dogs[i]));
      case Disconnect(i, peer) =>
        StandingSound(n, h, i, s.dogs[i]);
        ReactSurvives(h, s, i, OnDisconnect(n, i, s.dogs[i], peer));
    } else {
      NothingLost(h, s);
    }
  }

  lemma {:induction false} KeepAll(h: nat, net: seq<Packet>)
    requires forall p :: p in net ==> p.dst <= h
    ensures Reaching(h, net) == net
  {
    if net != [] { KeepAll(h, net[1..]); }
  }

  lemma NothingLost(h: nat, s: Sys)
    requires Surviving(h, s)
    ensures s.(net := Reaching(h, s.net)) == s
  {
    KeepAll(h, s.net);
  }

  lemma {:induction false} RunSurvives(h: nat, s: Sys, acts: seq<Action>)
    requires Surviving(h, s)
    ensures Surviving(h, RunOn(h, s, acts)) && (Alerted(h, s) ==> Alerted(h, RunOn(h, s, acts)))
    decreases |acts|
  {
    if acts != [] {
      StepSurvives(h, s, acts[0]);
      RunSurvives(h, Survive(h, s, acts[0]), acts[1..]);
    }
  }

  // --- the failure ---

  /** All n watchdogs are up and nothing is in flight when those above h die. */
  ghost predicate FailsAt(h: nat, n: nat, acts: seq<Action>) {
    var s := Run(Init(n), acts);
    h + 1 < n && s.net == [] && forall i: nat :: i < n ==> i in s.started
  }

  lemma FailureSurvives(h: nat, n: nat, acts: seq<Action>)
    requires FailsAt(h, n, acts)
    ensures Surviving(h, Run(Init(n), acts))
  {
    UniqueLeaderAtQuiescence(n, acts);
  }

  /** Survivor i follows a dead watchdog and is told that it is gone. */
  ghost predicate Told(h: nat, s: Sys, i: nat, peer: nat) {
    i <= h < peer && i < |s.dogs| && s.dogs[i].leader == Some(peer)
  }

  lemma ToldAlerts(h: nat, s: Sys, i: nat, peer: nat)
    requires Surviving(h, s) && Told(h, s, i, peer)
    ensures Alerted(h, Survive(h, s, Disconnect(i, peer)))
  {
    LosingTheLeader(s, i, peer);
    var s' := Step(s, Disconnect(i, peer));
    if i < h {
      var p := Packet(i, h, ElectionMsg);
      assert p in s'.net;
      ReachingMembers(h, s'.net, p);
    }
  }

  /** The highest survivor is the one leader among the survivors. */
  ghost predicate HighestLeads(h: nat, s: Sys) {
    h < |s.dogs| && forall x :: 0 <= x <= h ==> (s.dogs[x].role == Leader <==> x == h)
  }

  lemma QuietMeansHighestLeads(h: nat, s: Sys)
    requires Surviving(h, s) && Alerted(h, s) && s.net == [] && s.dogs[h].phase == Idle
    ensures HighestLeads(h, s)
  {
    forall x: nat | x < h ensures s.dogs[x].role != Leader { assert !Challenged(h, s, x); }
  }

  /** Failover, in every run: from any quiescent state the watchdogs above h die; the survivors go on,
    * with timeouts and disconnects at any moment; some survivor that follows a dead one is told so. From
    * then on, whenever nothing is in flight and the highest survivor is not waiting, it is the one leader. */
  lemma FailoverIsSafe(h: nat, n: nat, acts: seq<Action>, before: seq<Action>, i: nat, peer: nat, after: seq<Action>)
    requires FailsAt(h, n, acts) && Told(h, RunOn(h, Run(Init(n), acts), before), i, peer)
    ensures var s := RunOn(h, Survive(h, RunOn(h, Run(Init(n), acts), before), Disconnect(i, peer)), after);
      h < |s.dogs| && (s.net == [] && s.dogs[h].phase == Idle ==> HighestLeads(h, s))
  {
    var s0 := Run(Init(n), acts);
    FailureSurvives(h, n, acts);
    RunSurvives(h, s0, before);
    var s1 := RunOn(h, s0, before);
    StepSurvives(h, s1, Disconnect(i, peer));
    ToldAlerts(h, s1, i, peer);
    var s2 := Survive(h, s1, Disconnect(i, peer));
    RunSurvives(h, s2, after);
    var s := RunOn(h, s2, after);
    if s.net == [] && s.dogs[h].phase == Idle { QuietMeansHighestLeads(h, s); }
  }

  // --- progress ---

  ghost predicate OnlyDeliveriesAndTimeouts(acts: seq<Action>) { forall a :: a in acts ==> a.Deliver? || a.Timeout? }

  lemma {:induction false} ReachingIsLighter(n: nat, h: nat, net: seq<Packet>)
    ensures Measure(n, Reaching(h, net)) <= Measure(n, net)
  {
    if net != [] {
      ReachingIsLighter(n, h, net[1..]);
      if net[0].dst <= h {
        var rest := Reaching(h, net[1..]);
        assert ([net[0]] + rest)[1..] == rest;
      } else {
        assert [] + Reaching(h, net[1..]) == Reaching(h, net[1..]);
      }
    }
  }

  lemma DeliveryIsLighter(h: nat, s: Sys, k: nat)
    requires Surviving(h, s) && Enabled(s, Deliver(k))
    ensures Measure(|s.dogs|, Survive(h, s, Deliver(k)).net) < Measure(|s.dogs|, s.net)
  {
    var n, p := |s.dogs|, s.net[k];
    assert p in s.net;
    var r := OnMessage(n, p.dst, s.dogs[p.dst], p.src, p.kind);
    HandlingIsLighter(n, s.dogs[p.dst], p);
    MeasureWithout(n, s.net, k);
    MeasureAppend(n, Without(s.net, k), r.sends);
    ReachingIsLighter(n, h, Without(s.net, k) + r.sends);
  }

  /** What is in flight can be handled, and then nothing is. */
  lemma {:induction false} SurvivorsDrain(h: nat, s: Sys) returns (more: seq<Action>)
    requires Surviving(h, s) && Alerted(h, s)
    ensures OnlyDeliveriesAndTimeouts(more)
    ensures var s' := RunOn(h, s, more); Surviving(h, s') && Alerted(h, s') && s'.net == []
    decreases Measure(|s.dogs|, s.net)
  {
    if s.net == [] {
      more := [];
    } else {
      assert s.net[0] in s.net;
      StepSurvives(h, s, Deliver(0));
      DeliveryIsLighter(h, s, 0);
      var rest := SurvivorsDrain(h, Survive(h, s, Deliver(0)));
      more := [Deliver(0)] + rest;
      assert more[1..] == rest;
    }
  }

  /** Claims of the highest survivor are accepted by all, and cost it nothing. */
  lemma {:induction false} ClaimsDrain(h: nat, s: Sys) returns (more: seq<Action>)
    requires Surviving(h, s) && forall p :: p in s.net ==> p.src == h && p.kind == CoordinatorMsg
    ensures OnlyDeliveriesAndTimeouts(more)
    ensures var s' := RunOn(h, s, more); |s'.dogs| == |s.dogs| && s'.net == [] && s'.dogs[h] == s.dogs[h]
    decreases |s.net|
  {
    if s.net == [] {
      more := [];
    } else {
      assert s.net[0] in s.net;
      StepSurvives(h, s, Deliver(0));
      var s' := Survive(h, s, Deliver(0));
      assert Step(s, Deliver(0)).net == s.net[1..];
      KeepAll(h, s.net[1..]);
      var rest := ClaimsDrain(h, s');
      more := [Deliver(0)] + rest;
      assert more[1..] == rest;
    }
  }

  lemma {:induction false} RunOnConcat(h: nat, s: Sys, a: seq<Action>, b: seq<Action>)
    ensures RunOn(h, s, a + b) == RunOn(h, RunOn(h, s, a), b)
    decreases |a|
  {
    if a == [] {
      assert a + b == b;
    } else {
      assert (a + b)[1..] == a[1..] + b;
      RunOnConcat(h, Survive(h, s, a[0]), a[1..], b);
    }
  }

  /** With nothing in flight, a highest survivor that waits for an answer claims after its timeout. */
  lemma TimeoutClaims(h: nat, s: Sys)
    requires Surviving(h, s) && s.net == [] && s.dogs[h].phase == AwaitingAnswer
    ensures var s' := Survive(h, s, Timeout(h));
      Surviving(h, s') && Alerted(h, s') && s'.dogs[h].phase == Idle &&
      forall p :: p in s'.net ==> p.src == h && p.kind == CoordinatorMsg
  {
    StepSurvives(h, s, Timeout(h));
    ClaimSends(|s.dogs|, h);
    forall p ensures p in Survive(h, s, Timeout(h)).net ==> p in BecomeLeader(|s.dogs|, h).sends {
      ReachingMembers(h, s.net + BecomeLeader(|s.dogs|, h).sends, p);
    }
  }

  /** One that waits for a claim stands again after its timeout; nobody above is left to hear it. */
  lemma TimeoutStands(h: nat, s: Sys)
    requires Surviving(h, s) && s.net == [] && s.dogs[h].phase == AwaitingCoordinator
    ensures var s' := Survive(h, s, Timeout(h));
      Surviving(h, s') && Alerted(h, s') && s'.net == [] && s'.dogs[h].phase == AwaitingAnswer
  {
    StepSurvives(h, s, Timeout(h));
    ElectionSends(|s.dogs|, h, s.dogs[h]);
    forall p ensures p !in Survive(h, s, Timeout(h)).net {
      ReachingMembers(h, s.net + StartElection(|s.dogs|, h, s.dogs[h]).sends, p);
    }
    SomethingIn(Survive(h, s, Timeout(h)).net);
  }

  lemma SomethingIn(net: seq<Packet>)
    ensures net == [] || exists p :: p in net
  {
    if net != [] { assert net[0] in net; }
  }

  /** From a quiet state, the timeouts of the highest survivor make it leader. */
  lemma {:induction false} QuietClaims(h: nat, s: Sys) returns (more: seq<Action>)
    requires Surviving(h, s) && Alerted(h, s) && s.net == []
    ensures OnlyDeliveriesAndTimeouts(more)
    ensures var s' := RunOn(h, s, more); s'.net == [] && HighestLeads(h, s') && s'.dogs[h].phase == Idle
    decreases s.dogs[h].phase == AwaitingCoordinator
  {
    match s.dogs[h].phase
    case Idle =>
      more := [];
      QuietMeansHighestLeads(h, s);
    case AwaitingCoordinator =>
      TimeoutStands(h, s);
      var rest := QuietClaims(h, Survive(h, s, Timeout(h)));
      more := [Timeout(h)] + rest;
      assert more[1..] == rest;
    case AwaitingAnswer =>
      TimeoutClaims(h, s);
      var rest := ClaimsDrain(h, Survive(h, s, Timeout(h)));
      more := [Timeout(h)] + rest;
      assert more[1..] == rest;
      RunSurvives(h, Survive(h, s, Timeout(h)), rest);
      QuietMeansHighestLeads(h, RunOn(h, s, more));
  }

  /** Failover happens: whatever the survivors have done since one of them was told, some deliveries and
    * timeouts lead to the highest being the one leader, with nothing in flight. */
  lemma FailoverHappens(h: nat, n: nat, acts: seq<Action>, before: seq<Action>, i: nat, peer: nat, after: seq<Action>)
    returns (more: seq<Action>)
    requires FailsAt(h, n, acts) && Told(h, RunOn(h, Run(Init(n), acts), before), i, peer)
    ensures OnlyDeliveriesAndTimeouts(more)
    ensures var s := RunOn(h, Survive(h, RunOn(h, Run(Init(n), acts), before), Disconnect(i, peer)), after);
      var s' := RunOn(h, s, more);
      s'.net == [] && HighestLeads(h, s') && s'.dogs[h].phase == Idle
  {
    var s0 := Run(Init(n), acts);
    FailureSurvives(h, n, acts);
    RunSurvives(h, s0, before);
    var s1 := RunOn(h, s0, before);
    StepSurvives(h, s1, Disconnect(i, peer));
    ToldAlerts(h, s1, i, peer);
    RunSurvives(h, Survive(h, s1, Disconnect(i, peer)), after);
    var s := RunOn(h, Survive(h, s1, Disconnect(i, peer)), after);
    var drain := SurvivorsDrain(h, s);
    var claim := QuietClaims(h, RunOn(h, s, drain));
    more := drain + claim;
    RunOnConcat(h, s, drain, claim);
  }
}
