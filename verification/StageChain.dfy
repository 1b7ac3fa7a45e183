/** Chaining ring stages: the count a stage puts into its final EOF is the count the next stage
  * waits for, so the termination test of every stage down the chain is exact. */
module StageChain {
  import opened Options
  import opened Ids
  import opened Arithmetic
  import opened RingProtocol
  import opened RingInvariant
  import opened RingTheorems

  /** A worker that sends while processing (the bidirectional sharder: one message per shard that
    * the payload of message m touches, under m's own id) or one that sends on flush (batches named
    * by destination shard and bucket, under ids of its own). */
  datatype Kind =
    | Sharder(shards: string -> set<nat>)
    | Flusher(batches: (nat, set<string>) -> set<(nat, nat)>)

  /** A ring of `size` replicas; node `start` gets the EOF. */
  datatype Stage = Stage(size: nat, start: nat, kind: Kind)

  ghost function Emissions(stage: Stage, inbox: seq<set<string>>): (nat, string) -> set<Out> {
    (i: nat, m: string) =>
      if stage.kind.Sharder? && i < |inbox| && m in inbox[i] then set d | d in stage.kind.shards(m) :: Out(d, m) else {}
  }

  ghost function Flushes(stage: Stage, client: string): (nat, set<string>) -> set<Out> {
    (i: nat, ms: set<string>) =>
      if stage.kind.Flusher? then set p | p in stage.kind.batches(i, ms) :: Out(p.0, FlushId(i, client, p.1)) else {}
  }

  ghost function OwnerOf(inbox: seq<set<string>>, m: string): nat {
    if i: nat :| i < |inbox| && m in inbox[i] then i else 0
  }

  ghost function FlusherOf(client: string, id: string): nat {
    if i: nat, b: nat :| id == FlushId(i, client, b) then i else 0
  }

  ghost function Origins(stage: Stage, client: string, inbox: seq<set<string>>): Out -> (nat, Option<string>) {
    (o: Out) => if stage.kind.Sharder? then (OwnerOf(inbox, o.id), Some(o.id)) else (FlusherOf(client, o.id), None)
  }

  ghost function SetupOf(stage: Stage, client: string, inbox: seq<set<string>>, expected: int): Setup {
    Setup(stage.size, stage.start, client, EofId(client, None), expected, inbox,
          Emissions(stage, inbox), Flushes(stage, client), Origins(stage, client, inbox))
  }

  /** No message id is routed to two replicas. */
  ghost predicate IdsUnique(inbox: seq<set<string>>) {
    forall i, j :: 0 <= i < j < |inbox| ==> inbox[i] !! inbox[j]
  }

  /** A stage whose input carries the ids it can work with: a flusher takes any, a sharder
    * (which reuses them) needs them unique across its replicas. */
  ghost predicate StageOk(stage: Stage, client: string, inbox: seq<set<string>>) {
    && 0 < stage.size == |inbox| && stage.start < stage.size
    && (forall i :: 0 <= i < |inbox| ==> EofId(client, None) !in inbox[i])
    && (stage.kind.Sharder? ==> IdsUnique(inbox))
  }

  lemma SetupTraceable(stage: Stage, client: string, inbox: seq<set<string>>, expected: int)
    requires StageOk(stage, client, inbox)
    ensures Traceable(SetupOf(stage, client, inbox, expected))
  {
    hide FlushId, EofId;
    var su := SetupOf(stage, client, inbox, expected);
    forall i: nat, m, o | o in su.emit(i, m) ensures su.origin(o) == (i, Some(m)) {
      assert m in inbox[i];
    }
    forall i: nat, ms, o | o in su.flush(i, ms) ensures su.origin(o) == (i, None) {
      var p :| p in stage.kind.batches(i, ms) && o == Out(p.0, FlushId(i, client, p.1));
      var j := FlusherOf(client, o.id);
      var b: nat :| o.id == FlushId(j, client, b);
      FlushIdInjective(client, i, p.1, j, b);
    }
  }

  // --- routing the outputs into the next stage's inboxes ---

  ghost function IdsFor(outs: set<Out>, dest: nat): set<string> {
    set o | o in outs && o.dest == dest :: o.id
  }

  ghost function Route(outs: set<Out>, size: nat): (inbox: seq<set<string>>)
    ensures |inbox| == size
  {
    seq(size, (j: nat) => IdsFor(outs, j))
  }

  ghost function Addressed(outs: set<Out>, dest: nat): set<Out> {
    set o | o in outs && o.dest == dest
  }

  lemma OneMoreOut(rest: set<Out>, o: Out, dest: nat)
    requires o !in rest
    ensures o.dest == dest ==> o.id !in IdsFor(rest, dest) && IdsFor(rest + {o}, dest) == IdsFor(rest, dest) + {o.id}
    ensures o.dest == dest ==> o !in Addressed(rest, dest) && Addressed(rest + {o}, dest) == Addressed(rest, dest) + {o}
    ensures o.dest != dest ==> IdsFor(rest + {o}, dest) == IdsFor(rest, dest)
    ensures o.dest != dest ==> Addressed(rest + {o}, dest) == Addressed(rest, dest)
  {
  }

  lemma {:induction false} IdsForSize(outs: set<Out>, dest: nat)
    ensures |IdsFor(outs, dest)| == |Addressed(outs, dest)|
    decreases |outs|
  {
    if outs != {} {
      var o :| o in outs;
      var rest := outs - {o};
      IdsForSize(rest, dest);
      OneMoreOut(rest, o, dest);
      assert outs == rest + {o};
    }
  }

  /** Every message sent is addressed to exactly one inbox. */
  lemma {:induction false} RouteTotal(outs: set<Out>, size: nat)
    ensures Sum(Sizes(Route(outs, size))) == |set o | o in outs && o.dest < size|
  {
    if size == 0 {
      assert (set o | o in outs && o.dest < 0) == {};
    } else {
      RouteTotal(outs, size - 1);
      IdsForSize(outs, size - 1);
      var below, here := set o | o in outs && o.dest < size - 1, set o | o in outs && o.dest == size - 1;
      assert (set o | o in outs && o.dest < size) == below + here;
      DisjointGrowth(below, here);
      SumSnoc(Sizes(Route(outs, size - 1)), |IdsFor(outs, size - 1)|);
      assert Sizes(Route(outs, size)) == Sizes(Route(outs, size - 1)) + [|IdsFor(outs, size - 1)|];
    }
  }

  lemma {:induction false} SumSnoc(s: seq<int>, v: int)
    ensures Sum(s + [v]) == Sum(s) + v
  {
    if s == [] {
      assert Sum([v]) == v + Sum([]);
    } else {
      assert (s + [v])[1..] == s[1..] + [v];
      SumSnoc(s[1..], v);
    }
  }

  // --- the chain ---

  /** The outputs are routed to replicas that exist. */
  ghost predicate RoutedWithin(outs: set<Out>, size: nat) {
    forall o :: o in outs ==> o.dest < size
  }

  /** Every stage of the chain runs (under the given actions) until its final EOF, on the messages
    * the stage before it sent and with the count of that stage's final EOF. */
  ghost predicate ChainRuns(stages: seq<Stage>, client: string, inbox: seq<set<string>>, expected: int,
                            acts: seq<seq<Action>>)
    decreases |stages|
  {
    |stages| == |acts| &&
    (stages != [] ==>
      var su := SetupOf(stages[0], client, inbox, expected);
      WellFormed(su) && Run(su, acts[0]).finals != [] &&
      var outs := AllOuts(Run(su, acts[0]).outs);
      (|stages| > 1 ==> RoutedWithin(outs, stages[1].size)) &&
      ChainRuns(stages[1..], client, if |stages| > 1 then Route(outs, stages[1].size) else [],
                Run(su, acts[0]).finals[0], acts[1..]))
  }

  /** Every stage waits for exactly as many messages as it is sent, and ends with a final EOF whose
    * count is the number of distinct messages it sent itself. */
  ghost predicate AllExact(stages: seq<Stage>, client: string, inbox: seq<set<string>>, expected: int,
                           acts: seq<seq<Action>>)
    requires ChainRuns(stages, client, inbox, expected, acts)
    decreases |stages|
  {
    stages != [] ==>
      var su := SetupOf(stages[0], client, inbox, expected);
      var outs := AllOuts(Run(su, acts[0]).outs);
      && Fed(su) && InboxTotal(su) == su.expected
      && Run(su, acts[0]).finals == [|outs|]
      && AllExact(stages[1..], client, if |stages| > 1 then Route(outs, stages[1].size) else [],
                  Run(su, acts[0]).finals[0], acts[1..])
  }

  lemma {:induction false} StageExact(stage: Stage, client: string, inbox: seq<set<string>>, expected: int, acts: seq<Action>)
    requires StageOk(stage, client, inbox) && Sum(Sizes(inbox)) == expected && 0 <= expected
    requires WellFormed(SetupOf(stage, client, inbox, expected))
    requires Run(SetupOf(stage, client, inbox, expected), acts).finals != []
    ensures var su := SetupOf(stage, client, inbox, expected);
      var outs := AllOuts(Run(su, acts).outs);
      && Fed(su) && InboxTotal(su) == su.expected && Run(su, acts).finals == [|outs|]
      && forall o :: o in outs ==> o.id != EofId(client, None)
  {
    hide FlushId, EofId, Run;
    var su := SetupOf(stage, client, inbox, expected);
    SetupTraceable(stage, client, inbox, expected);
    FinalCountIsExact(su, acts);
    forall o | o in AllOuts(Run(su, acts).outs) ensures o.id != EofId(client, None) {
      var i :| 0 <= i < su.size && Produced(su, i, o);
      if o in su.flush(i, su.inbox[i]) {
        var p :| p in stage.kind.batches(i, su.inbox[i]) && o == Out(p.0, FlushId(i, client, p.1));
        EofIdIsFresh(client, 0, i, p.1);
      }
    }
  }

  /** Stage composition: if the first stage is told the truth about its input, so is every later
    * one. A sharder may only stand first, where the gateway's ids are still unique. */
  lemma {:induction false} ChainExact(stages: seq<Stage>, client: string, inbox: seq<set<string>>, expected: int,
                                      acts: seq<seq<Action>>)
    requires ChainRuns(stages, client, inbox, expected, acts)
    requires stages != [] ==> StageOk(stages[0], client, inbox) && Sum(Sizes(inbox)) == expected && 0 <= expected
    requires forall t :: 1 <= t < |stages| ==> stages[t].kind.Flusher? && stages[t].start < stages[t].size
    ensures AllExact(stages, client, inbox, expected, acts)
    decreases |stages|
  {
    if stages != [] {
      hide FlushId, EofId, Run;
      var su := SetupOf(stages[0], client, inbox, expected);
      var outs := AllOuts(Run(su, acts[0]).outs);
      StageExact(stages[0], client, inbox, expected, acts[0]);
      if |stages| > 1 {
        RouteTotal(outs, stages[1].size);
        assert outs == set o | o in outs && o.dest < stages[1].size;
        assert StageOk(stages[1], client, Route(outs, stages[1].size));
        ChainExact(stages[1..], client, Route(outs, stages[1].size), |outs|, acts[1..]);
      } else {
        assert stages[1..] == [];
      }
    }
  }
}
