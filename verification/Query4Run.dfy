/** The plan of Query 4 carried out by the workers' own methods, stage by stage. One order of delivery
  * is fixed here; module Query4Plan is about all of them. */
module Query4Run {
  import opened Collections
  import opened Query4Model
  import opened Query4Workers
  import opened Query4Plan
  import opened Query4Reference
  import opened ShardedFlush
  import opened Routing

  const CLIENT := "client"

  // --- the stages ---

  method RunSharder(sh: Sharding<AccountEdge>, input: seq<seq<Transaction>>) returns (received: seq<seq<seq<AccountEdge>>>)
    requires ValidSharding(sh)
    ensures SharderDelivered(sh, input, received)
  {
    received := seq(sh.shards, _ => []);
    for i := 0 to |input|
      invariant SharderDelivered(sh, input[..i], received)
    {
      var groups := CreateEdgesByShard(input[i], sh);
      ghost var before := received;
      received := seq(sh.shards, j requires 0 <= j < |received| => received[j] + if j in groups then [groups[j]] else []);
      SharderOneMore(sh, input[..i], input[i], groups, before, received);
      assert input[..i + 1] == input[..i] + [input[i]];
    }
    assert input[..|input|] == input;
  }

  lemma SharderOneMore(sh: Sharding<AccountEdge>, input: seq<seq<Transaction>>, b: seq<Transaction>,
                       groups: map<nat, seq<AccountEdge>>, before: seq<seq<seq<AccountEdge>>>, after: seq<seq<seq<AccountEdge>>>)
    requires SharderDelivered(sh, input, before) && Groups(groups, AllEdges(b), ShardKey(sh))
    requires |after| == sh.shards
    requires forall j: nat :: j < sh.shards ==> after[j] == before[j] + if j in groups then [groups[j]] else []
    ensures SharderDelivered(sh, input + [b], after)
  {
    forall j: nat, x | j < |after| && x in input + [b] && WithKey(AllEdges(x), ShardKey(sh), j) != []
      ensures WithKey(AllEdges(x), ShardKey(sh), j) in after[j]
    {
      if x in input { assert WithKey(AllEdges(x), ShardKey(sh), j) in before[j]; }
    }
    forall j: nat, m | j < |after| && m in after[j]
      ensures exists x :: x in input + [b] && m == WithKey(AllEdges(x), ShardKey(sh), j)
    {
      if m in before[j] {
        var x :| x in input && m == WithKey(AllEdges(x), ShardKey(sh), j);
        assert x in input + [b];
      } else {
        assert b in input + [b];
      }
    }
  }

  /** An edge-keeping replica takes its messages in. */
  method Collect(received: seq<seq<AccountEdge>>) returns (m: Index)
    ensures Stored(m) == Elements(received)
  {
    var store := new AccountEdges();
    for i := 0 to |received|
      invariant store.EdgesFor(CLIENT) == Elements(received[..i])
    {
      store.ApplyDelta(CLIENT, received[i]);
      ElementsOneMore(received, i);
    }
    assert received[..|received|] == received;
    m := if CLIENT in store.index then store.index[CLIENT] else map[];
  }

  method RunFrequencyFilters(received: seq<seq<seq<AccountEdge>>>, k: nat) returns (kept: seq<seq<AccountEdge>>)
    ensures |kept| == |received| && forall i :: 0 <= i < |kept| ==> Elems(kept[i]) == Pruned(Elements(received[i]), k)
  {
    kept := [];
    for i := 0 to |received|
      invariant |kept| == i && forall j :: 0 <= j < i ==> Elems(kept[j]) == Pruned(Elements(received[j]), k)
    {
      var m := Collect(received[i]);
      var edges := CreateEdges(m, k);
      kept := kept + [edges];
    }
  }

  method RunPathMappers(received: seq<seq<seq<AccountEdge>>>) returns (paths: seq<seq<Path>>)
    ensures |paths| == |received| && forall i :: 0 <= i < |paths| ==> Elems(paths[i]) == PathsOf(Elements(received[i]))
  {
    paths := [];
    for i := 0 to |received|
      invariant |paths| == i && forall j :: 0 <= j < i ==> Elems(paths[j]) == PathsOf(Elements(received[j]))
    {
      var m := Collect(received[i]);
      var created := CreatePaths(m);
      paths := paths + [created];
    }
  }

  method RunPathFilter(received: seq<seq<Path>>, k: nat) returns (results: seq<Account>)
    ensures forall a :: a in results <==>
      exists y :: Connected(Elements(received), k, a, y) || Connected(Elements(received), k, y, a)
  {
    var store := new PathStore();
    for i := 0 to |received|
      invariant store.Valid() && store.PathsFor(CLIENT) == Elements(received[..i])
    {
      store.ApplyDelta(CLIENT, received[i]);
      ElementsOneMore(received, i);
    }
    assert received[..|received|] == received;
    var m: PathIndex := if CLIENT in store.index then store.index[CLIENT] else map[];
    assert StoredPaths(m) == Elements(received);
    results := CreateResults(m, k);
  }

  method RunDuplicateFilter(received: seq<seq<Account>>) returns (items: seq<Account>)
    ensures NoDups(items) && Elems(items) == Elements(received)
  {
    var filter := new DuplicateAccountFilter();
    for i := 0 to |received|
      invariant filter.AccountsFor(CLIENT) == Elements(received[..i])
    {
      filter.ApplyDelta(CLIENT, received[i]);
      ElementsOneMore(received, i);
    }
    assert received[..|received|] == received;
    items := filter.PopAccounts(CLIENT);
  }

  method RunPathFilters(received: seq<seq<seq<Path>>>, k: nat) returns (results: seq<seq<Account>>)
    ensures |results| == |received| && forall i, a :: 0 <= i < |results| ==> (a in results[i] <==>
      exists y :: Connected(Elements(received[i]), k, a, y) || Connected(Elements(received[i]), k, y, a))
  {
    results := [];
    for i := 0 to |received|
      invariant |results| == i && forall j, a :: 0 <= j < i ==> (a in results[j] <==>
        exists y :: Connected(Elements(received[j]), k, a, y) || Connected(Elements(received[j]), k, y, a))
    {
      var mine := RunPathFilter(received[i], k);
      results := results + [mine];
    }
  }

  method RunDuplicateFilters(received: seq<seq<seq<Account>>>) returns (unique: seq<seq<Account>>)
    ensures |unique| == |received|
    ensures forall i :: 0 <= i < |unique| ==> NoDups(unique[i]) && Elems(unique[i]) == Elements(received[i])
  {
    unique := [];
    for i := 0 to |received|
      invariant |unique| == i && forall j :: 0 <= j < i ==> NoDups(unique[j]) && Elems(unique[j]) == Elements(received[j])
    {
      var mine := RunDuplicateFilter(received[i]);
      unique := unique + [mine];
    }
  }

  /** The whole pipeline. What the workers' methods do is an execution of the plan, so that the client
    * gets exactly the reference answer, each account once. */
  method RunPlan(c: Config, input: seq<seq<Transaction>>) returns (x: Execution)
    requires ValidConfig(c)
    ensures x.input == input && Executes(c, x)
    ensures Output(x.outBatches) == multiset(Answer(TransfersOf(input), c.k))
  {
    var atFilter := RunSharder(c.filters, input);
    var kept := RunFrequencyFilters(atFilter, c.k);
    var keptBatches := FlushAll(c.mappers, kept);
    var atMapper := Inboxes(keptBatches, c.mappers.shards);
    var paths := RunPathMappers(atMapper);
    var pathBatches := FlushAll(c.pathFilters, paths);
    var atPathFilter := Inboxes(pathBatches, c.pathFilters.shards);
    var results := RunPathFilters(atPathFilter, c.k);
    var resultBatches := FlushAll(c.dedups, results);
    var atDedup := Inboxes(resultBatches, c.dedups.shards);
    var unique := RunDuplicateFilters(atDedup);
    var outBatches := FlushAll(c.client, unique);
    InboxesDeliver(keptBatches, c.mappers.shards);
    InboxesDeliver(pathBatches, c.pathFilters.shards);
    InboxesDeliver(resultBatches, c.dedups.shards);
    x := Execution(input, atFilter, kept, keptBatches, atMapper, paths, pathBatches, atPathFilter,
                   results, resultBatches, atDedup, unique, outBatches);
    Query4Exact(c, x);
  }

  /** The pipeline and the single scan of the reference, on the same transfers. */
  method PlanAndScan(c: Config, input: seq<seq<Transaction>>, ts: seq<Transfer>) returns (x: Execution, accounts: set<Account>)
    requires ValidConfig(c) && Elems(ts) == TransfersOf(input)
    ensures Output(x.outBatches) == multiset(accounts)
  {
    x := RunPlan(c, input);
    accounts := BuildQuery4(ts, c.k);
  }
}
