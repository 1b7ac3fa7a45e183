/** The ids of Query 2's results. A bank-max reducer shards its maxima over the bank mappers under
  * flush ids that do not name the shard (`src/common/idempotency/ids.py`), and a mapper passes the ids
  * on to the client (`src/workers/bank_mapper/main.py`), which drops what it takes for a duplicate. */
module Query2Ids {
  import opened Collections
  import opened Ids
  import opened Arithmetic
  import opened ShardedFlush
  import opened Routing
  import opened ClientResults

  /** Reducer j of `reducers` holds banks whose hash names it, and flushes them to the mappers. */
  ghost predicate Reduces<T>(sh: Sharding<T>, reducers: nat, items: seq<seq<T>>, batches: seq<seq<Batch<T>>>) {
    && 0 < reducers && Flushed(sh, items, batches) && |items| == reducers
    && (forall j, x :: 0 <= j < |items| && x in items[j] ==> sh.hashOf(x) % reducers == j)
  }

  /** The ids under which the client gets reducer j's messages, whatever the mapper. */
  ghost function ReducerIds<T>(client: string, j: nat, batches: seq<Batch<T>>): seq<string> {
    seq(|batches|, a requires 0 <= a < |batches| => FlushId(j, client, batches[a].bucket))
  }

  /** The ids of all the messages of the query, one per message. */
  ghost function ResultIds<T>(client: string, batches: seq<seq<Batch<T>>>): seq<string> {
    if batches == [] then []
    else
      var n := |batches| - 1;
      ResultIds(client, batches[..n]) + ReducerIds(client, n, batches[n])
  }

  // --- distinct ids ---

  /** Which reducer a bank is on decides which mapper it goes to. */
  ghost predicate OneMapperEach<T(!new)>(sh: Sharding<T>, reducers: nat)
    requires 0 < reducers && ValidSharding(sh)
  {
    forall x, y :: sh.hashOf(x) % reducers == sh.hashOf(y) % reducers ==> ShardKey(sh)(x) == ShardKey(sh)(y)
  }

  ghost predicate DistinctBuckets<T>(batches: seq<Batch<T>>) {
    forall a, b :: 0 <= a < b < |batches| ==> batches[a].bucket != batches[b].bucket
  }

  lemma {:induction false} ResultIdOrigin<T>(client: string, batches: seq<seq<Batch<T>>>, id: string) returns (j: nat, bucket: nat)
    requires id in ResultIds(client, batches)
    ensures j < |batches| && id == FlushId(j, client, bucket)
  {
    var n := |batches| - 1;
    if id in ResultIds(client, batches[..n]) {
      j, bucket := ResultIdOrigin(client, batches[..n], id);
    } else {
      var a :| 0 <= a < |batches[n]| && id == ReducerIds(client, n, batches[n])[a];
      j, bucket := n, batches[n][a].bucket;
    }
  }

  lemma ReducerIdsDistinct<T>(client: string, j: nat, batches: seq<Batch<T>>)
    ensures NoDups(ReducerIds(client, j, batches)) <==> DistinctBuckets(batches)
  {
    var ids := ReducerIds(client, j, batches);
    forall a, b | 0 <= a < b < |batches| ensures ids[a] == ids[b] <==> batches[a].bucket == batches[b].bucket {
      if ids[a] == ids[b] { FlushIdInjective(client, j, batches[a].bucket, j, batches[b].bucket); }
    }
  }

  /** The ids are distinct exactly if every reducer's own are. */
  lemma {:induction false} ResultIdsDistinct<T>(client: string, batches: seq<seq<Batch<T>>>)
    ensures NoDups(ResultIds(client, batches)) <==> forall j :: 0 <= j < |batches| ==> DistinctBuckets(batches[j])
  {
    if batches != [] {
      var n := |batches| - 1;
      var init, last := ResultIds(client, batches[..n]), ReducerIds(client, n, batches[n]);
      ResultIdsDistinct(client, batches[..n]);
      ReducerIdsDistinct(client, n, batches[n]);
      forall x | x in init ensures x !in last {
        var j, bucket := ResultIdOrigin(client, batches[..n], x);
        if x in last {
          var a :| 0 <= a < |batches[n]| && x == last[a];
          FlushIdInjective(client, j, bucket, n, batches[n][a].bucket);
        }
      }
      hide DistinctBuckets, FlushId;
      NoDupsConcat(init, last);
      assert forall j :: 0 <= j < n ==> batches[..n][j] == batches[j];
    }
  }

  lemma NoDupsConcat(a: seq<string>, b: seq<string>)
    requires forall x :: x in a ==> x !in b
    ensures NoDups(a + b) <==> NoDups(a) && NoDups(b)
  {
    var c := a + b;
    assert (forall i :: 0 <= i < |a| ==> c[i] == a[i] && c[i] in a) && (forall i :: 0 <= i < |b| ==> c[|a| + i] == b[i] && b[i] in b);
    if NoDups(c) {
      forall i, j | 0 <= i < j < |b| ensures b[i] != b[j] { assert c[|a| + i] != c[|a| + j]; }
    }
  }

  lemma SameMapper<T(!new)>(sh: Sharding<T>, reducers: nat, items: seq<seq<T>>, batches: seq<seq<Batch<T>>>, j: nat, a: nat, b: nat)
    requires Reduces(sh, reducers, items, batches) && OneMapperEach(sh, reducers)
    requires j < |batches| && a < |batches[j]| && b < |batches[j]|
    ensures batches[j][a].shard == batches[j][b].shard
  {
    var p, q := batches[j][a], batches[j][b];
    assert p in batches[j] && q in batches[j] && p.items[0] in p.items && q.items[0] in q.items;
    ItemGoesHome(sh, items[j], batches[j], p, p.items[0]);
    ItemGoesHome(sh, items[j], batches[j], q, q.items[0]);
    assert ShardKey(sh)(p.items[0]) == ShardKey(sh)(q.items[0]);
  }

  /** If the reducer decides the mapper, all results have different ids. */
  lemma {:induction false} DistinctIfOneMapper<T(!new)>(sh: Sharding<T>, reducers: nat, items: seq<seq<T>>, batches: seq<seq<Batch<T>>>, client: string)
    requires Reduces(sh, reducers, items, batches) && OneMapperEach(sh, reducers)
    ensures NoDups(ResultIds(client, batches))
  {
    forall j, a, b | 0 <= j < |batches| && 0 <= a < b < |batches[j]| ensures batches[j][a].bucket != batches[j][b].bucket {
      SameMapper(sh, reducers, items, batches, j, a, b);
      assert DistinctTargets(batches[j]);
    }
    ResultIdsDistinct(client, batches);
  }

  // --- collisions ---

  lemma SingleWithKey<T>(x: T, keyOf: T -> nat, k: nat)
    ensures WithKey([x], keyOf, k) == if keyOf(x) == k then [x] else []
  {
    assert [x][..0] == [] && WithKey([x][..0], keyOf, k) == [];
  }

  lemma PairWithKey<T>(x: T, y: T, keyOf: T -> nat, k: nat)
    ensures WithKey([x, y], keyOf, k) == (if keyOf(x) == k then [x] else []) + if keyOf(y) == k then [y] else []
  {
    assert [x, y][..1] == [x];
    SingleWithKey(x, keyOf, k);
  }

  lemma PairBuckets<T>(sh: Sharding<T>, x: T, y: T, shard: nat, bucket: nat)
    requires ValidSharding(sh) && ShardKey(sh)(x) != ShardKey(sh)(y)
    ensures Bucket(sh, [x, y], shard, bucket) ==
      if bucket == 0 && shard == ShardKey(sh)(x) then [x] else if bucket == 0 && shard == ShardKey(sh)(y) then [y] else []
  {
    PairWithKey(x, y, ShardKey(sh), shard);
    hide WithKey;
    assert NumBuckets(sh, 1) == 1;
    SingleWithKey(x, BucketKey(sh, 1), bucket);
    SingleWithKey(y, BucketKey(sh, 1), bucket);
    NoneWithKey(BucketKey(sh, 0), bucket);
  }

  lemma NoneWithKey<T>(keyOf: T -> nat, k: nat)
    ensures WithKey([], keyOf, k) == []
  {
  }

  /** Two banks on one reducer whose mappers differ: the two messages share their id. */
  lemma TwoItemsCollide<T>(sh: Sharding<T>, x: T, y: T)
    requires ValidSharding(sh) && ShardKey(sh)(x) != ShardKey(sh)(y)
    ensures var batches := [Batch(ShardKey(sh)(x), 0, [x]), Batch(ShardKey(sh)(y), 0, [y])];
      IsFlushOf(sh, [x, y], batches) && !DistinctBuckets(batches)
  {
    var batches := [Batch(ShardKey(sh)(x), 0, [x]), Batch(ShardKey(sh)(y), 0, [y])];
    hide Bucket;
    forall shard: nat, bucket: nat
      ensures Bucket(sh, [x, y], shard, bucket) == (
        if bucket == 0 && shard == ShardKey(sh)(x) then [x] else if bucket == 0 && shard == ShardKey(sh)(y) then [y] else [])
    {
      PairBuckets(sh, x, y, shard, bucket);
    }
    assert batches[0].bucket == batches[1].bucket;
  }

  lemma EmptyFlush<T>(sh: Sharding<T>)
    requires ValidSharding(sh)
    ensures IsFlushOf(sh, [], [])
  {
    forall s: nat, k: nat ensures Bucket(sh, [], s, k) == [] {
      NoneWithKey(ShardKey(sh), s);
      NoneWithKey(BucketKey(sh, 0), k);
    }
  }

  /** Otherwise some two banks collide: their one reducer, holding just these two, sends two messages
    * under one id. */
  lemma {:induction false} CollideIfTwoMappers<T>(sh: Sharding<T>, reducers: nat, x: T, y: T, client: string)
    returns (items: seq<seq<T>>, batches: seq<seq<Batch<T>>>)
    requires 0 < reducers && ValidSharding(sh)
    requires sh.hashOf(x) % reducers == sh.hashOf(y) % reducers && ShardKey(sh)(x) != ShardKey(sh)(y)
    ensures Reduces(sh, reducers, items, batches) && !NoDups(ResultIds(client, batches))
  {
    var home := sh.hashOf(x) % reducers;
    var pair := [Batch(ShardKey(sh)(x), 0, [x]), Batch(ShardKey(sh)(y), 0, [y])];
    TwoItemsCollide(sh, x, y);
    EmptyFlush(sh);
    hide IsFlushOf, DistinctBuckets;
    items := seq(reducers, j requires 0 <= j < reducers => if j == home then [x, y] else []);
    batches := seq(reducers, j requires 0 <= j < reducers => if j == home then pair else []);
    assert batches[home] == pair;
    ResultIdsDistinct(client, batches);
  }

  ghost predicate AlwaysDistinct<T(!new)>(sh: Sharding<T>, reducers: nat, client: string) {
    forall items, batches :: Reduces(sh, reducers, items, batches) ==> NoDups(ResultIds(client, batches))
  }

  /** Query 2's result ids are distinct for all inputs if and only if a bank's reducer decides its mapper. */
  lemma Query2IdsDistinct<T(!new)>(sh: Sharding<T>, reducers: nat, client: string)
    requires 0 < reducers && ValidSharding(sh)
    ensures AlwaysDistinct(sh, reducers, client) <==> OneMapperEach(sh, reducers)
  {
    if OneMapperEach(sh, reducers) {
      forall items, batches | Reduces(sh, reducers, items, batches) ensures NoDups(ResultIds(client, batches)) {
        DistinctIfOneMapper(sh, reducers, items, batches, client);
      }
    } else {
      var x, y :| sh.hashOf(x) % reducers == sh.hashOf(y) % reducers && ShardKey(sh)(x) != ShardKey(sh)(y);
      var items, batches := CollideIfTwoMappers(sh, reducers, x, y, client);
    }
  }

  // --- in terms of the configuration ---

  /** Reducing modulo a multiple first changes nothing. */
  lemma {:induction false} ModOfMod(x: nat, n: nat, m: nat)
    requires 0 < m && 0 < n && n % m == 0
    ensures x % m == (x % n) % m
  {
    var q, k := x / n, n / m;
    var r := x % n;
    assert n == k * m && x == q * n + r;
    assert q * n == (q * k) * m by { assert q * (k * m) == (q * k) * m; }
    var s := r / m;
    assert x == (q * k + s) * m + r % m by { assert (q * k + s) * m == (q * k) * m + s * m; }
    ModUnique(x, m, q * k + s, r % m);
  }

  ghost predicate Hits<T(!new)>(sh: Sharding<T>, h: nat) { exists x :: sh.hashOf(x) == h }

  ghost predicate TakesAllValues<T(!new)>(sh: Sharding<T>) { forall h: nat :: Hits(sh, h) }

  /** Whatever the hash function, it is enough that the number of mappers divides that of reducers; for
    * a hash function that takes all values, it is also necessary. */
  lemma OneMapperIff<T(!new)>(sh: Sharding<T>, reducers: nat)
    requires 0 < reducers && ValidSharding(sh)
    ensures reducers % sh.shards == 0 ==> OneMapperEach(sh, reducers)
    ensures TakesAllValues(sh) ==> (OneMapperEach(sh, reducers) <==> reducers % sh.shards == 0)
  {
    if reducers % sh.shards == 0 {
      forall x ensures sh.hashOf(x) % sh.shards == (sh.hashOf(x) % reducers) % sh.shards {
        ModOfMod(sh.hashOf(x), reducers, sh.shards);
      }
    } else if TakesAllValues(sh) {
      assert Hits(sh, 0) && Hits(sh, reducers);
      var x :| sh.hashOf(x) == 0;
      var y :| sh.hashOf(y) == reducers;
      ModUnique(reducers, reducers, 1, 0);
      ModUnique(0, sh.shards, 0, 0);
      assert ShardKey(sh)(x) == 0 && ShardKey(sh)(y) == reducers % sh.shards;
    }
  }

  // --- what it means for the client ---

  lemma {:induction false} ResultIdsNonempty<T>(client: string, batches: seq<seq<Batch<T>>>)
    ensures "" !in ResultIds(client, batches)
  {
    forall id | id in ResultIds(client, batches) ensures id != "" {
      var j, bucket := ResultIdOrigin(client, batches, id);
      DataIdsAreNonempty(client, 0, j, bucket);
    }
  }

  /** The client finalizes a query exactly if its messages have distinct ids and all of them, and the
    * end announcing their number, have arrived. */
  lemma QueryCompletes<T, R>(client: string, batches: seq<seq<Batch<T>>>, events: seq<Event<R>>)
    requires var ids := ResultIds(client, batches); Sends(events, Elems(ids), |ids|)
    ensures var ids := ResultIds(client, batches);
      After(events).finalized <==> NoDups(ids) && Ended(events) && Elems(Arrivals(events)) == Elems(ids)
  {
    var ids := ResultIds(client, batches);
    hide ResultIds, Arrivals, After;
    ResultIdsNonempty(client, batches);
    ClientAccounts(events, Elems(ids), |ids|);
    ElemsSize(ids);
    ElemsSize(Arrivals(events));
    SubsetSize(Elems(Arrivals(events)), Elems(ids));
  }

  /** Every message once, then the end. */
  ghost function Deliveries(ids: seq<string>): seq<Event<string>> {
    if ids == [] then [] else Deliveries(ids[..|ids| - 1]) + [Result(ids[|ids| - 1], [])]
  }

  lemma {:induction false} DeliveriesArrive(ids: seq<string>)
    ensures Elems(Arrivals(Deliveries(ids))) == Elems(ids)
    ensures forall e :: e in Deliveries(ids) ==> e.Result? && e.mid in ids
  {
    if ids != [] {
      assert Deliveries(ids) == Deliveries(ids[..|ids| - 1]) + [Result(ids[|ids| - 1], [])];
      var init, last := ids[..|ids| - 1], ids[|ids| - 1];
      DeliveriesArrive(init);
      OneMoreEvent(Deliveries(init), Result(last, []));
      hide Arrivals, Deliveries;
      assert ids == init + [last];
      OneMoreElement(init, last);
      OneMoreElement(Arrivals(Deliveries(init)), last);
    }
  }

  lemma OneMoreElement(s: seq<string>, x: string)
    ensures Elems(s + [x]) == Elems(s) + {x}
    ensures x in s ==> Elems(s) == Elems(s) + {x}
  {
  }

  /** Some history of the query ends with the client finalizing it. */
  ghost predicate Completable(ids: seq<string>) {
    exists events: seq<Event<string>> :: Sends(events, Elems(ids), |ids|) && After(events).finalized
  }

  lemma CompletableIff<T>(client: string, batches: seq<seq<Batch<T>>>)
    ensures Completable(ResultIds(client, batches)) <==> NoDups(ResultIds(client, batches))
  {
    var ids := ResultIds(client, batches);
    if events: seq<Event<string>> :| Sends(events, Elems(ids), |ids|) && After(events).finalized {
      QueryCompletes(client, batches, events);
    }
    if NoDups(ids) {
      var events := Deliveries(ids) + [End(|ids|)];
      DeliveriesArrive(ids);
      OneMoreEvent(Deliveries(ids), End(|ids|));
      assert events[|Deliveries(ids)|].End?;
      assert Sends(events, Elems(ids), |ids|);
      QueryCompletes(client, batches, events);
    }
  }

  ghost predicate AlwaysCompletable<T(!new)>(sh: Sharding<T>, reducers: nat, client: string) {
    forall items, batches :: Reduces(sh, reducers, items, batches) ==> Completable(ResultIds(client, batches))
  }

  /** Query 2 can be completed on all inputs if and only if a bank's reducer decides its mapper: for a
    * hash function that takes all values, if and only if the number of bank mappers divides the number
    * of bank-max reducers. */
  lemma Query2CompletesIff<T(!new)>(sh: Sharding<T>, reducers: nat, client: string)
    requires 0 < reducers && ValidSharding(sh)
    ensures AlwaysCompletable(sh, reducers, client) <==> OneMapperEach(sh, reducers)
    ensures TakesAllValues(sh) ==>
      (AlwaysCompletable(sh, reducers, client) <==> reducers % sh.shards == 0)
  {
    hide Completable, OneMapperEach, ResultIds;
    forall items, batches | Reduces(sh, reducers, items, batches)
      ensures Completable(ResultIds(client, batches)) <==> NoDups(ResultIds(client, batches))
    {
      CompletableIff(client, batches);
    }
    Query2IdsDistinct(sh, reducers, client);
    OneMapperIff(sh, reducers);
  }
}
