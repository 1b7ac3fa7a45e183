/** Query 4 as a distributed plan equals the single scan. Every stage runs on any number of replicas;
  * messages arrive in any order and any number of times; every replica's flush may enumerate its
  * state in any order. */
module Query4Plan {
  import opened Collections
  import opened Options
  import opened Query4Model
  import opened Query4Workers
  import opened ShardedFlush
  import opened Routing

  // --- what all the stages together hold, in terms of the transfers ---

  ghost function TransfersOf(input: seq<seq<Transaction>>): set<Transfer> {
    set b, t | b in input && t in b && IsComplete(t) :: TransferOf(t)
  }

  /** The transfers are those of the transactions that have their four fields. */
  lemma TransfersMeaning(input: seq<seq<Transaction>>, fb: string, fa: string, tb: string, ta: string)
    ensures Transfer(Account(fb, fa), Account(tb, ta)) in TransfersOf(input) <==>
      exists b :: b in input && Transaction(Some(fb), Some(fa), Some(tb), Some(ta)) in b
  {
    var t := Transaction(Some(fb), Some(fa), Some(tb), Some(ta));
    if Transfer(Account(fb, fa), Account(tb, ta)) in TransfersOf(input) {
      var b, u :| b in input && u in b && IsComplete(u) && TransferOf(u) == Transfer(Account(fb, fa), Account(tb, ta));
      assert u == t;
    }
    if b :| b in input && t in b {
      assert IsComplete(t) && TransferOf(t) == Transfer(Account(fb, fa), Account(tb, ta));
    }
  }

  /** Both edges of every transfer. */
  ghost predicate EdgeOf(ts: set<Transfer>, e: AccountEdge) {
    (if e.isSender then Transfer(e.node, e.other) else Transfer(e.other, e.node)) in ts
  }

  lemma {:induction false} AllEdgesMembers(payload: seq<Transaction>, e: AccountEdge)
    ensures e in AllEdges(payload) <==> exists t :: t in payload && e in EdgesOf(t)
  {
    if payload != [] {
      var n := |payload| - 1;
      assert payload == payload[..n] + [payload[n]];
      AllEdgesMembers(payload[..n], e);
    }
  }

  lemma EdgesOfInput(input: seq<seq<Transaction>>, e: AccountEdge)
    ensures EdgeOf(TransfersOf(input), e) <==> exists b :: b in input && e in AllEdges(b)
  {
    if b :| b in input && e in AllEdges(b) {
      AllEdgesMembers(b, e);
      var t :| t in b && e in EdgesOf(t);
    }
    if EdgeOf(TransfersOf(input), e) {
      var tr := if e.isSender then Transfer(e.node, e.other) else Transfer(e.other, e.node);
      var b, t :| b in input && t in b && IsComplete(t) && TransferOf(t) == tr;
      assert e in EdgesOf(t);
      AllEdgesMembers(b, e);
    }
  }

  /** The payloads the sharder replicas send for one input batch, one per shard it touches. Which
    * replica handled the batch does not show. */
  ghost predicate SharderDelivered(sh: Sharding<AccountEdge>, input: seq<seq<Transaction>>, received: seq<seq<seq<AccountEdge>>>) {
    && ValidSharding(sh) && |received| == sh.shards
    && (forall j: nat, b :: j < |received| && b in input && WithKey(AllEdges(b), ShardKey(sh), j) != [] ==>
          WithKey(AllEdges(b), ShardKey(sh), j) in received[j])
    && (forall j: nat, m :: j < |received| && m in received[j] ==>
          exists b :: b in input && m == WithKey(AllEdges(b), ShardKey(sh), j))
  }

  lemma SharderRouted(sh: Sharding<AccountEdge>, input: seq<seq<Transaction>>, received: seq<seq<seq<AccountEdge>>>,
                      j: nat, e: AccountEdge)
    requires SharderDelivered(sh, input, received) && j < |received|
    ensures e in Elements(received[j]) <==> EdgeOf(TransfersOf(input), e) && sh.hashOf(e) % sh.shards == j
  {
    EdgesOfInput(input, e);
    if e in Elements(received[j]) {
      var m :| m in received[j] && e in m;
      var b :| b in input && m == WithKey(AllEdges(b), ShardKey(sh), j);
      WithKeyMember(AllEdges(b), ShardKey(sh), j, e);
    }
    if EdgeOf(TransfersOf(input), e) && sh.hashOf(e) % sh.shards == j {
      var b :| b in input && e in AllEdges(b);
      WithKeyMember(AllEdges(b), ShardKey(sh), j, e);
      assert WithKey(AllEdges(b), ShardKey(sh), j) in received[j];
    }
  }

  // --- an execution of the plan ---

  /** `hash` is any function of the routing keys; edges are routed by their account, paths by both ends. */
  datatype Config = Config(k: nat, filters: Sharding<AccountEdge>, mappers: Sharding<AccountEdge>,
                           pathFilters: Sharding<Path>, dedups: Sharding<Account>, client: Sharding<Account>)

  ghost predicate ValidConfig(c: Config) {
    && ValidSharding(c.filters) && ValidSharding(c.mappers) && ValidSharding(c.pathFilters) && ValidSharding(c.dedups)
    && ValidSharding(c.client) && c.client.shards == 1
    && (forall e: AccountEdge, f: AccountEdge :: e.node == f.node ==> c.filters.hashOf(e) == c.filters.hashOf(f))
    && (forall e: AccountEdge, f: AccountEdge :: e.node == f.node ==> c.mappers.hashOf(e) == c.mappers.hashOf(f))
    && (forall p: Path, q: Path :: p.src == q.src && p.dst == q.dst ==> c.pathFilters.hashOf(p) == c.pathFilters.hashOf(q))
  }

  /** Stage by stage: what each replica received, what it created from that, and the batches it sent. */
  datatype Execution = Execution(
    input: seq<seq<Transaction>>,
    atFilter: seq<seq<seq<AccountEdge>>>, kept: seq<seq<AccountEdge>>, keptBatches: seq<seq<Batch<AccountEdge>>>,
    atMapper: seq<seq<seq<AccountEdge>>>, paths: seq<seq<Path>>, pathBatches: seq<seq<Batch<Path>>>,
    atPathFilter: seq<seq<seq<Path>>>, results: seq<seq<Account>>, resultBatches: seq<seq<Batch<Account>>>,
    atDedup: seq<seq<seq<Account>>>, unique: seq<seq<Account>>, outBatches: seq<seq<Batch<Account>>>)

  /** Each created list is what the worker's method (`CreateEdges`, `CreatePaths`, `CreateResults`,
    * `PopAccounts`) may return for what the replica stored. */
  ghost predicate Executes(c: Config, x: Execution) {
    && ValidConfig(c)
    && SharderDelivered(c.filters, x.input, x.atFilter)
    && |x.kept| == |x.atFilter|
    && (forall i :: 0 <= i < |x.kept| ==> Elems(x.kept[i]) == Pruned(Elements(x.atFilter[i]), c.k))
    && Flushed(c.mappers, x.kept, x.keptBatches) && Delivered(x.keptBatches, x.atMapper) && |x.atMapper| == c.mappers.shards
    && |x.paths| == |x.atMapper|
    && (forall i :: 0 <= i < |x.paths| ==> Elems(x.paths[i]) == PathsOf(Elements(x.atMapper[i])))
    && Flushed(c.pathFilters, x.paths, x.pathBatches) && Delivered(x.pathBatches, x.atPathFilter)
    && |x.atPathFilter| == c.pathFilters.shards
    && |x.results| == |x.atPathFilter|
    && (forall i, a :: 0 <= i < |x.results| ==> (a in x.results[i] <==>
          exists y :: Connected(Elements(x.atPathFilter[i]), c.k, a, y) || Connected(Elements(x.atPathFilter[i]), c.k, y, a)))
    && Flushed(c.dedups, x.results, x.resultBatches) && Delivered(x.resultBatches, x.atDedup) && |x.atDedup| == c.dedups.shards
    && |x.unique| == |x.atDedup|
    && (forall i :: 0 <= i < |x.unique| ==> NoDups(x.unique[i]) && Elems(x.unique[i]) == Elements(x.atDedup[i]))
    && Flushed(c.client, x.unique, x.outBatches)
  }

  // --- stage 2: pruning sees the true degrees ---

  /** The edges that survive pruning, over all replicas: turned round, with the far account's degree at least k. */
  ghost predicate Survives(ts: set<Transfer>, k: nat, e: AccountEdge) {
    EdgeOf(ts, e) && |if e.isSender then InOf(ts, e.other) else OutOf(ts, e.other)| >= k
  }

  lemma {:induction false} LocalDegree(c: Config, x: Execution, j: nat, a: Account, isSender: bool)
    requires Executes(c, x) && j < |x.atFilter|
    requires exists o :: AccountEdge(a, o, isSender) in Elements(x.atFilter[j])
    ensures Others(Elements(x.atFilter[j]), a, isSender) ==
            if isSender then OutOf(TransfersOf(x.input), a) else InOf(TransfersOf(x.input), a)
  {
    var ts := TransfersOf(x.input);
    var o0 :| AccountEdge(a, o0, isSender) in Elements(x.atFilter[j]);
    SharderRouted(c.filters, x.input, x.atFilter, j, AccountEdge(a, o0, isSender));
    forall o ensures o in Others(Elements(x.atFilter[j]), a, isSender) <==> EdgeOf(ts, AccountEdge(a, o, isSender)) {
      var e := AccountEdge(a, o, isSender);
      SharderRouted(c.filters, x.input, x.atFilter, j, e);
      assert c.filters.hashOf(e) == c.filters.hashOf(AccountEdge(a, o0, isSender));
      if o in Others(Elements(x.atFilter[j]), a, isSender) {
        var f :| f in Elements(x.atFilter[j]) && f.node == a && f.isSender == isSender && f.other == o;
        assert f == e;
      }
    }
  }

  lemma KeptEdges(c: Config, x: Execution, e: AccountEdge)
    requires Executes(c, x)
    ensures FlushedBySome(x.kept, e) <==> Survives(TransfersOf(x.input), c.k, e)
  {
    var ts, f := TransfersOf(x.input), Flip(e);
    assert Flip(f) == e;
    assert EdgeOf(ts, e) <==> EdgeOf(ts, f);
    if FlushedBySome(x.kept, e) {
      var i :| 0 <= i < |x.kept| && e in x.kept[i];
      assert e in Elems(x.kept[i]);
      var g :| g in Elements(x.atFilter[i]) && |Others(Elements(x.atFilter[i]), g.node, g.isSender)| >= c.k && Flip(g) == e;
      assert g == f;
      SharderRouted(c.filters, x.input, x.atFilter, i, f);
      assert f == AccountEdge(f.node, f.other, f.isSender);
      LocalDegree(c, x, i, f.node, f.isSender);
    }
    if Survives(ts, c.k, e) {
      var j := c.filters.hashOf(f) % c.filters.shards;
      SharderRouted(c.filters, x.input, x.atFilter, j, f);
      assert f == AccountEdge(f.node, f.other, f.isSender);
      LocalDegree(c, x, j, f.node, f.isSender);
      assert Flip(f) in Pruned(Elements(x.atFilter[j]), c.k);
      assert e in x.kept[j];
    }
  }

  // --- stage 3: all paths between surviving ends ---

  ghost predicate Connects(ts: set<Transfer>, k: nat, p: Path) {
    && Transfer(p.src, p.mid) in ts && Transfer(p.mid, p.dst) in ts && p.src != p.dst
    && |OutOf(ts, p.src)| >= k && |InOf(ts, p.dst)| >= k
  }

  lemma CreatedPaths(c: Config, x: Execution, p: Path)
    requires Executes(c, x)
    ensures FlushedBySome(x.paths, p) <==> Connects(TransfersOf(x.input), c.k, p)
  {
    var ts := TransfersOf(x.input);
    var e, f := AccountEdge(p.mid, p.src, false), AccountEdge(p.mid, p.dst, true);
    KeptEdges(c, x, e);
    KeptEdges(c, x, f);
    if FlushedBySome(x.paths, p) {
      var i :| 0 <= i < |x.paths| && p in x.paths[i];
      assert p in Elems(x.paths[i]);
      PathEnds(Elements(x.atMapper[i]), p);
      Routed(c.mappers, x.kept, x.keptBatches, x.atMapper, i, e);
      Routed(c.mappers, x.kept, x.keptBatches, x.atMapper, i, f);
    }
    if Connects(ts, c.k, p) {
      var j := c.mappers.hashOf(e) % c.mappers.shards;
      assert c.mappers.hashOf(f) == c.mappers.hashOf(e);
      Routed(c.mappers, x.kept, x.keptBatches, x.atMapper, j, e);
      Routed(c.mappers, x.kept, x.keptBatches, x.atMapper, j, f);
      PathEnds(Elements(x.atMapper[j]), p);
      assert p in Elems(x.paths[j]);
    }
  }

  lemma PathEnds(edges: set<AccountEdge>, p: Path)
    ensures p in PathsOf(edges) <==>
      AccountEdge(p.mid, p.src, false) in edges && AccountEdge(p.mid, p.dst, true) in edges && p.src != p.dst
  {
    if p in PathsOf(edges) {
      var e, f :| e in edges && f in edges && !e.isSender && f.isSender && e.node == f.node && e.other != f.other &&
        p == Path(e.other, e.node, f.other);
      assert e == AccountEdge(p.mid, p.src, false) && f == AccountEdge(p.mid, p.dst, true);
    }
  }

  // --- stage 4: the pairs ---

  lemma MidsBetweenMember(paths: set<Path>, a: Account, b: Account, m: Account)
    ensures m in MidsBetween(paths, a, b) <==> Path(a, m, b) in paths
  {
    if m in MidsBetween(paths, a, b) {
      var p :| p in paths && p.src == a && p.dst == b && p.mid == m;
      assert p == Path(a, m, b);
    }
  }

  /** The replica that has one path of a pair has all of them; pruning lost none of a qualifying pair's. */
  lemma LocalMids(c: Config, x: Execution, j: nat, a: Account, b: Account)
    requires Executes(c, x) && j < |x.atPathFilter|
    requires forall m :: c.pathFilters.hashOf(Path(a, m, b)) % c.pathFilters.shards == j
    ensures MidsBetween(Elements(x.atPathFilter[j]), a, b) ==
      (var ts := TransfersOf(x.input);
       if a != b && |OutOf(ts, a)| >= c.k && |InOf(ts, b)| >= c.k then MidsOf(ts, a, b) else {})
  {
    var ts := TransfersOf(x.input);
    forall m ensures m in MidsBetween(Elements(x.atPathFilter[j]), a, b) <==> Connects(ts, c.k, Path(a, m, b)) {
      CreatedPaths(c, x, Path(a, m, b));
      Routed(c.pathFilters, x.paths, x.pathBatches, x.atPathFilter, j, Path(a, m, b));
      MidsBetweenMember(Elements(x.atPathFilter[j]), a, b, m);
    }
    forall m ensures m in MidsOf(ts, a, b) <==> Transfer(a, m) in ts && Transfer(m, b) in ts {
    }
  }

  lemma {:induction false} PairsFound(c: Config, x: Execution, j: nat, a: Account, b: Account)
    requires Executes(c, x) && j < |x.atPathFilter|
    ensures Connected(Elements(x.atPathFilter[j]), c.k, a, b) <==>
      ScatterGather(TransfersOf(x.input), c.k, a, b) && c.pathFilters.hashOf(Path(a, a, b)) % c.pathFilters.shards == j
  {
    var ts := TransfersOf(x.input);
    forall m ensures c.pathFilters.hashOf(Path(a, m, b)) == c.pathFilters.hashOf(Path(a, a, b)) { }
    if c.pathFilters.hashOf(Path(a, a, b)) % c.pathFilters.shards == j {
      LocalMids(c, x, j, a, b);
      if |MidsOf(ts, a, b)| >= c.k { GatherersReceiveEnough(ts, c.k, a, b); }
    } else {
      forall m ensures m !in MidsBetween(Elements(x.atPathFilter[j]), a, b) {
        Routed(c.pathFilters, x.paths, x.pathBatches, x.atPathFilter, j, Path(a, m, b));
        MidsBetweenMember(Elements(x.atPathFilter[j]), a, b, m);
      }
    }
  }

  /** What the path filters' results are. */
  lemma ResultsOf(c: Config, x: Execution, i: nat, a: Account)
    requires Executes(c, x) && i < |x.results|
    ensures |x.results| == |x.atPathFilter| == c.pathFilters.shards
    ensures a in x.results[i] <==>
      exists y :: Connected(Elements(x.atPathFilter[i]), c.k, a, y) || Connected(Elements(x.atPathFilter[i]), c.k, y, a)
  {
  }

  /** A pair is found by its home filter. */
  lemma PairAtHome(c: Config, x: Execution, a: Account, b: Account)
    requires Executes(c, x) && ScatterGather(TransfersOf(x.input), c.k, a, b)
    ensures FlushedBySome(x.results, a) && FlushedBySome(x.results, b)
  {
    var j := c.pathFilters.hashOf(Path(a, a, b)) % c.pathFilters.shards;
    assert j < |x.results| == |x.atPathFilter|;
    PairsFound(c, x, j, a, b);
    hide Executes, Connected, ScatterGather;
    ResultsOf(c, x, j, a);
    ResultsOf(c, x, j, b);
  }

  lemma {:induction false} ResultsAreAnswer(c: Config, x: Execution, a: Account)
    requires Executes(c, x)
    ensures FlushedBySome(x.results, a) <==> a in Answer(TransfersOf(x.input), c.k)
  {
    hide Executes, Answer, Connected, ScatterGather;
    var ts := TransfersOf(x.input);
    AnswerMembers(ts, c.k, a);
    if FlushedBySome(x.results, a) {
      var i :| 0 <= i < |x.results| && a in x.results[i];
      ResultsOf(c, x, i, a);
      var y :| Connected(Elements(x.atPathFilter[i]), c.k, a, y) || Connected(Elements(x.atPathFilter[i]), c.k, y, a);
      PairsFound(c, x, i, a, y);
      PairsFound(c, x, i, y, a);
    }
    if y :| ScatterGather(ts, c.k, a, y) { PairAtHome(c, x, a, y); }
    if y :| ScatterGather(ts, c.k, y, a) { PairAtHome(c, x, y, a); }
  }

  // --- stage 5: once each ---

  /** Everything the duplicate filters send to the client. */
  ghost function Output(outs: seq<seq<Batch<Account>>>): multiset<Account> {
    if outs == [] then multiset{} else Output(outs[..|outs| - 1]) + Contents(outs[|outs| - 1])
  }

  lemma {:induction false} OutputCount(sh: Sharding<Account>, unique: seq<seq<Account>>, outs: seq<seq<Batch<Account>>>, a: Account, home: nat)
    requires Flushed(sh, unique, outs)
    requires forall i :: 0 <= i < |unique| ==> NoDups(unique[i]) && (a in unique[i] ==> i == home)
    ensures Output(outs)[a] == if home < |unique| && a in unique[home] then 1 else 0
    decreases |outs|
  {
    if outs != [] {
      var n := |outs| - 1;
      FlushIsPartition(sh, unique[n], outs[n]);
      NoDupsCount(unique[n], a);
      OutputCount(sh, unique[..n], outs[..n], a, home);
    }
  }

  lemma {:induction false} NoDupsCount<T>(s: seq<T>, x: T)
    requires NoDups(s)
    ensures multiset(s)[x] == if x in s then 1 else 0
  {
    if s != [] {
      var n := |s| - 1;
      assert s == s[..n] + [s[n]];
      NoDupsCount(s[..n], x);
    }
  }

  /** The distributed plan computes the reference: what reaches the client, over all duplicate
    * filters, is the reference answer for the transfers of the input, each account exactly once. */
  lemma {:induction false} Query4Exact(c: Config, x: Execution)
    requires Executes(c, x)
    ensures Output(x.outBatches) == multiset(Answer(TransfersOf(x.input), c.k))
  {
    var answer := Answer(TransfersOf(x.input), c.k);
    forall a: Account ensures Output(x.outBatches)[a] == multiset(answer)[a] {
      var home := c.dedups.hashOf(a) % c.dedups.shards;
      ResultsAreAnswer(c, x, a);
      forall i | 0 <= i < |x.unique| ensures a in x.unique[i] <==> a in answer && i == home {
        Routed(c.dedups, x.results, x.resultBatches, x.atDedup, i, a);
        assert a in Elems(x.unique[i]) <==> a in Elements(x.atDedup[i]);
      }
      OutputCount(c.client, x.unique, x.outBatches, a, home);
    }
    SameCounts(Output(x.outBatches), multiset(answer));
  }
}
