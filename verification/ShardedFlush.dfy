/** The deterministic flush (`_flush_sharded` in `src/common/worker/stateful_worker.py`): items are
  * split by hash into shards and, within a shard, into buckets, and each bucket is one message. */
module ShardedFlush {
  import opened Collections

  /** The hash of an item's key, the number of destination shards and the batch size. */
  datatype Sharding<!T> = Sharding(hashOf: T -> nat, shards: nat, batchSize: nat)

  datatype Batch<T> = Batch(shard: nat, bucket: nat, items: seq<T>)

  ghost predicate ValidSharding<T>(sh: Sharding<T>) { 0 < sh.shards && 0 < sh.batchSize }

  /** The items with the given key, in their order. */
  function WithKey<T>(items: seq<T>, keyOf: T -> nat, k: nat): seq<T> {
    if items == [] then []
    else
      var init, last := items[..|items| - 1], items[|items| - 1];
      WithKey(init, keyOf, k) + if keyOf(last) == k then [last] else []
  }

  function ShardKey<T>(sh: Sharding<T>): T -> nat
    requires 0 < sh.shards
  {
    x => sh.hashOf(x) % sh.shards
  }

  function InShard<T>(sh: Sharding<T>, items: seq<T>, shard: nat): seq<T>
    requires 0 < sh.shards
  {
    WithKey(items, ShardKey(sh), shard)
  }

  function NumBuckets<T>(sh: Sharding<T>, size: nat): (n: nat)
    requires 0 < sh.batchSize
    ensures n > 0
  {
    var full := (size + sh.batchSize - 1) / sh.batchSize;
    if full > 1 then full else 1
  }

  function BucketKey<T>(sh: Sharding<T>, size: nat): T -> nat
    requires 0 < sh.shards && 0 < sh.batchSize
  {
    x => (sh.hashOf(x) / sh.shards) % NumBuckets(sh, size)
  }

  /** The contents of one bucket of one shard. */
  function Bucket<T>(sh: Sharding<T>, items: seq<T>, shard: nat, bucket: nat): seq<T>
    requires 0 < sh.shards && 0 < sh.batchSize
  {
    var mine := InShard(sh, items, shard);
    WithKey(mine, BucketKey(sh, |mine|), bucket)
  }

  ghost predicate DistinctTargets<T>(batches: seq<Batch<T>>) {
    forall i, j :: 0 <= i < j < |batches| ==>
      (batches[i].shard, batches[i].bucket) != (batches[j].shard, batches[j].bucket)
  }

  /** What a flush of `items` sends: every nonempty bucket exactly once, with its content. */
  ghost predicate IsFlushOf<T>(sh: Sharding<T>, items: seq<T>, batches: seq<Batch<T>>)
    requires ValidSharding(sh)
  {
    && DistinctTargets(batches)
    && (forall b :: b in batches ==> b.items != [] && b.items == Bucket(sh, items, b.shard, b.bucket))
    && (forall s: nat, k: nat :: Bucket(sh, items, s, k) != [] ==> Batch(s, k, Bucket(sh, items, s, k)) in batches)
  }

  // --- the grouping loops ---

  /** The groups of the items seen so far, and their keys in order of appearance. */
  ghost predicate Grouped<T>(keys: seq<nat>, groups: map<nat, seq<T>>, items: seq<T>, keyOf: T -> nat) {
    && NoDups(keys)
    && (forall k: nat :: k in keys <==> WithKey(items, keyOf, k) != [])
    && (forall k: nat :: k in keys <==> k in groups)
    && (forall k: nat :: k in keys ==> groups[k] == WithKey(items, keyOf, k))
  }

  lemma WithKeyOneMore<T>(items: seq<T>, x: T, keyOf: T -> nat, k: nat)
    ensures WithKey(items + [x], keyOf, k) == WithKey(items, keyOf, k) + if keyOf(x) == k then [x] else []
  {
    assert (items + [x])[..|items|] == items;
  }

  lemma GroupOneMore<T>(keys: seq<nat>, groups: map<nat, seq<T>>, items: seq<T>, keyOf: T -> nat, x: T)
    requires Grouped(keys, groups, items, keyOf)
    ensures var k := keyOf(x);
      if k in groups then Grouped(keys, groups[k := groups[k] + [x]], items + [x], keyOf)
      else Grouped(keys + [k], groups[k := [x]], items + [x], keyOf)
  {
    hide WithKey;
    forall k: nat
      ensures WithKey(items + [x], keyOf, k) == WithKey(items, keyOf, k) + if keyOf(x) == k then [x] else []
    {
      WithKeyOneMore(items, x, keyOf, k);
    }
  }

  /** A dictionary of lists filled in item order; `keys` is its insertion order. */
  method GroupBy<T>(items: seq<T>, keyOf: T -> nat) returns (keys: seq<nat>, groups: map<nat, seq<T>>)
    ensures NoDups(keys)
    ensures forall k: nat :: k in keys <==> WithKey(items, keyOf, k) != []
    ensures forall k: nat :: k in keys ==> k in groups && groups[k] == WithKey(items, keyOf, k)
  {
    keys, groups := [], map[];
    for i := 0 to |items|
      invariant Grouped(keys, groups, items[..i], keyOf)
    {
      hide Grouped, WithKey, NoDups;
      var x := items[i];
      var k := keyOf(x);
      GroupOneMore(keys, groups, items[..i], keyOf, x);
      assert items[..i + 1] == items[..i] + [x];
      if k !in groups {
        keys := keys + [k];
        groups := groups[k := []];
      }
      groups := groups[k := groups[k] + [x]];
      assert [] + [x] == [x];
    }
    assert items[..|items|] == items;
  }

  /** The batches of one shard: its nonempty buckets. */
  ghost predicate IsShardOf<T>(sh: Sharding<T>, items: seq<T>, shard: nat, batches: seq<Batch<T>>)
    requires ValidSharding(sh)
  {
    && DistinctTargets(batches)
    && (forall b :: b in batches ==> b.shard == shard && b.items != [] && b.items == Bucket(sh, items, shard, b.bucket))
    && (forall k: nat :: Bucket(sh, items, shard, k) != [] ==> Batch(shard, k, Bucket(sh, items, shard, k)) in batches)
  }

  method ShardBatches<T>(sh: Sharding<T>, ghost items: seq<T>, shard: nat, mine: seq<T>) returns (batches: seq<Batch<T>>)
    requires ValidSharding(sh) && mine == InShard(sh, items, shard)
    ensures IsShardOf(sh, items, shard, batches)
  {
    batches := [];
    var ids, buckets := GroupBy(mine, BucketKey(sh, |mine|));
    for j := 0 to |ids|
      invariant |batches| == j
      invariant forall l :: 0 <= l < j ==> batches[l] == Batch(shard, ids[l], Bucket(sh, items, shard, ids[l]))
    {
      assert ids[j] in ids;
      batches := batches + [Batch(shard, ids[j], buckets[ids[j]])];
    }
    forall k: nat | Bucket(sh, items, shard, k) != [] ensures Batch(shard, k, Bucket(sh, items, shard, k)) in batches {
      var l :| 0 <= l < |ids| && ids[l] == k;
      assert batches[l] in batches;
    }
    forall b | b in batches ensures b.shard == shard && b.items != [] && b.items == Bucket(sh, items, shard, b.bucket) {
      var l :| 0 <= l < |batches| && batches[l] == b;
      assert ids[l] in ids;
    }
  }

  /** What has been sent after some of the shards. */
  ghost predicate ShardsDone<T>(sh: Sharding<T>, items: seq<T>, done: seq<nat>, batches: seq<Batch<T>>)
    requires ValidSharding(sh)
  {
    && DistinctTargets(batches)
    && (forall b :: b in batches ==> b.shard in done && b.items != [] && b.items == Bucket(sh, items, b.shard, b.bucket))
    && (forall s: nat, k: nat :: s in done && Bucket(sh, items, s, k) != [] ==> Batch(s, k, Bucket(sh, items, s, k)) in batches)
  }

  lemma OneMoreShard<T>(sh: Sharding<T>, items: seq<T>, done: seq<nat>, batches: seq<Batch<T>>, shard: nat, mine: seq<Batch<T>>)
    requires ValidSharding(sh) && ShardsDone(sh, items, done, batches) && shard !in done && IsShardOf(sh, items, shard, mine)
    ensures ShardsDone(sh, items, done + [shard], batches + mine)
  {
    hide Bucket;
    var all := batches + mine;
    assert forall b :: b in all <==> b in batches || b in mine;
    forall i, j | 0 <= i < j < |all| ensures (all[i].shard, all[i].bucket) != (all[j].shard, all[j].bucket) {
      if i < |batches| {
        assert all[i] in batches;
        if j >= |batches| { assert all[j] in mine; }
      }
    }
  }

  /** `_flush_sharded` without the sending: the batches in the order they go out. */
  method Partition<T>(sh: Sharding<T>, items: seq<T>) returns (batches: seq<Batch<T>>)
    requires ValidSharding(sh)
    ensures IsFlushOf(sh, items, batches) && forall s: nat :: Spread(sh, items, batches, s)
  {
    batches := [];
    var shards, byShard := GroupBy(items, ShardKey(sh));
    for i := 0 to |shards|
      invariant ShardsDone(sh, items, shards[..i], batches)
    {
      hide ShardsDone, IsShardOf, Bucket;
      assert shards[i] in shards && shards[i] !in shards[..i];
      var mine := ShardBatches(sh, items, shards[i], byShard[shards[i]]);
      OneMoreShard(sh, items, shards[..i], batches, shards[i], mine);
      batches := batches + mine;
      assert shards[..i + 1] == shards[..i] + [shards[i]];
    }
    assert shards[..|shards|] == shards;
    forall s: nat, k: nat | Bucket(sh, items, s, k) != [] ensures s in shards {
      BucketInShard(sh, items, s, k);
    }
    forall s: nat ensures Spread(sh, items, batches, s) { FlushIsSpread(sh, items, batches, s); }
  }

  lemma BucketInShard<T>(sh: Sharding<T>, items: seq<T>, s: nat, k: nat)
    requires ValidSharding(sh) && Bucket(sh, items, s, k) != []
    ensures InShard(sh, items, s) != []
  {
  }

  // --- how many batches ---

  /** n is the least number, from 1, of batches of the given size that hold c items. */
  ghost predicate LeastCover(n: nat, c: nat, batchSize: nat) {
    1 <= n && c <= n * batchSize && (n > 1 ==> (n - 1) * batchSize < c)
  }

  /** How many items go to the shard. */
  ghost function Load<T>(sh: Sharding<T>, items: seq<T>, shard: nat): nat
    requires 0 < sh.shards
  {
    if items == [] then 0
    else Load(sh, items[..|items| - 1], shard) + if sh.hashOf(items[|items| - 1]) % sh.shards == shard then 1 else 0
  }

  /** The shard's items are spread, by hash, over n buckets, one message for each that is not empty. */
  ghost predicate SpreadOver<T>(sh: Sharding<T>, batches: seq<Batch<T>>, shard: nat, n: nat)
    requires 0 < sh.shards
  {
    && 0 < n
    && (forall b, x :: b in batches && b.shard == shard && x in b.items ==> b.bucket == (sh.hashOf(x) / sh.shards) % n)
    && |set b | b in batches && b.shard == shard| <= n
  }

  ghost predicate Spread<T>(sh: Sharding<T>, items: seq<T>, batches: seq<Batch<T>>, shard: nat)
    requires 0 < sh.shards
  {
    exists n: nat :: LeastCover(n, Load(sh, items, shard), sh.batchSize) && SpreadOver(sh, batches, shard, n)
  }

  lemma {:induction false} LoadIsSize<T>(sh: Sharding<T>, items: seq<T>, shard: nat)
    requires 0 < sh.shards
    ensures |InShard(sh, items, shard)| == Load(sh, items, shard)
  {
    if items != [] { LoadIsSize(sh, items[..|items| - 1], shard); }
  }

  lemma {:induction false} BucketsCover<T>(sh: Sharding<T>, c: nat)
    requires 0 < sh.batchSize
    ensures LeastCover(NumBuckets(sh, c), c, sh.batchSize)
  {
    var size := sh.batchSize;
    var full := (c + size - 1) / size;
    assert c + size - 1 == full * size + (c + size - 1) % size;
    assert (full - 1) * size == full * size - size;
    if full <= 1 {
      assert full * size <= 1 * size;
    }
  }

  lemma {:induction false} BelowSize(s: set<nat>, n: nat)
    requires forall k :: k in s ==> k < n
    ensures |s| <= n
  {
    if n == 0 {
      assert s == {};
    } else {
      BelowSize(s - {n - 1}, n - 1);
    }
  }

  lemma {:induction false} BucketsOf<T>(batches: set<Batch<T>>, shard: nat)
    requires forall b :: b in batches ==> b.shard == shard
    requires forall b, c :: b in batches && c in batches && b.bucket == c.bucket ==> b == c
    ensures |batches| == |set b | b in batches :: b.bucket|
  {
    if batches != {} {
      var b :| b in batches;
      BucketsOf(batches - {b}, shard);
      var rest := set c | c in batches - {b} :: c.bucket;
      assert b.bucket !in rest;
      assert (set c | c in batches :: c.bucket) == rest + {b.bucket};
    }
  }

  lemma InNamedBucket<T>(sh: Sharding<T>, items: seq<T>, batches: seq<Batch<T>>, b: Batch<T>, x: T)
    requires ValidSharding(sh) && IsFlushOf(sh, items, batches) && b in batches && x in b.items
    ensures b.bucket == (sh.hashOf(x) / sh.shards) % NumBuckets(sh, |InShard(sh, items, b.shard)|)
  {
    var mine := InShard(sh, items, b.shard);
    WithKeyMember(mine, BucketKey(sh, |mine|), b.bucket, x);
  }

  lemma AtMostOnePerBucket<T>(batches: seq<Batch<T>>, shard: nat, n: nat)
    requires DistinctTargets(batches) && forall b :: b in batches && b.shard == shard ==> b.bucket < n
    ensures |set b | b in batches && b.shard == shard| <= n
  {
    var here := set b | b in batches && b.shard == shard;
    forall b, c | b in here && c in here && b.bucket == c.bucket ensures b == c {
      var i, j :| 0 <= i < |batches| && 0 <= j < |batches| && batches[i] == b && batches[j] == c;
      assert i == j;
    }
    BucketsOf(here, shard);
    BelowSize(set b | b in here :: b.bucket, n);
  }

  /** How a flush batches a shard's items: over as many buckets as batches of the given size are needed,
    * in the bucket that the hash names; and at most that many messages. */
  lemma FlushIsSpread<T>(sh: Sharding<T>, items: seq<T>, batches: seq<Batch<T>>, shard: nat)
    requires ValidSharding(sh) && IsFlushOf(sh, items, batches)
    ensures Spread(sh, items, batches, shard)
  {
    var n := NumBuckets(sh, |InShard(sh, items, shard)|);
    LoadIsSize(sh, items, shard);
    BucketsCover(sh, |InShard(sh, items, shard)|);
    forall b, x | b in batches && b.shard == shard && x in b.items ensures b.bucket == (sh.hashOf(x) / sh.shards) % n {
      InNamedBucket(sh, items, batches, b, x);
    }
    forall b | b in batches && b.shard == shard ensures b.bucket < n {
      InNamedBucket(sh, items, batches, b, b.items[0]);
    }
    hide InShard, Bucket, NumBuckets;
    AtMostOnePerBucket(batches, shard, n);
    assert SpreadOver(sh, batches, shard, n);
  }

  // --- what the batching depends on ---

  lemma {:induction false} WithKeyMultiset<T>(items: seq<T>, keyOf: T -> nat, k: nat, x: T)
    ensures multiset(WithKey(items, keyOf, k))[x] == if keyOf(x) == k then multiset(items)[x] else 0
  {
    if items != [] {
      var init, last := items[..|items| - 1], items[|items| - 1];
      assert items == init + [last];
      WithKeyMultiset(init, keyOf, k, x);
    }
  }

  lemma WithKeyMember<T>(items: seq<T>, keyOf: T -> nat, k: nat, x: T)
    ensures x in WithKey(items, keyOf, k) <==> x in items && keyOf(x) == k
  {
    WithKeyMultiset(items, keyOf, k, x);
    assert x in WithKey(items, keyOf, k) <==> x in multiset(WithKey(items, keyOf, k));
    assert x in items <==> x in multiset(items);
  }

  lemma SameCounts<T>(a: multiset<T>, b: multiset<T>)
    requires forall x: T :: a[x] == b[x]
    ensures a == b
  {
  }

  /** A permutation of the items permutes what has a given key. */
  lemma WithKeyPermuted<T>(a: seq<T>, b: seq<T>, keyOf: T -> nat, k: nat)
    requires multiset(a) == multiset(b)
    ensures multiset(WithKey(a, keyOf, k)) == multiset(WithKey(b, keyOf, k))
  {
    forall x ensures multiset(WithKey(a, keyOf, k))[x] == multiset(WithKey(b, keyOf, k))[x] {
      WithKeyMultiset(a, keyOf, k, x);
      WithKeyMultiset(b, keyOf, k, x);
    }
    SameCounts(multiset(WithKey(a, keyOf, k)), multiset(WithKey(b, keyOf, k)));
  }

  lemma {:induction false} BucketPermuted<T>(sh: Sharding<T>, a: seq<T>, b: seq<T>, shard: nat, bucket: nat)
    requires ValidSharding(sh) && multiset(a) == multiset(b)
    ensures multiset(Bucket(sh, a, shard, bucket)) == multiset(Bucket(sh, b, shard, bucket))
  {
    WithKeyPermuted(a, b, ShardKey(sh), shard);
    var x, y := InShard(sh, a, shard), InShard(sh, b, shard);
    assert |x| == |multiset(x)| == |multiset(y)| == |y|;
    WithKeyPermuted(x, y, BucketKey(sh, |x|), bucket);
  }

  /** A message as the next stage sees it: destination, bucket (hence id) and bag of items. */
  datatype Sent<T(==)> = Sent(shard: nat, bucket: nat, content: multiset<T>)

  ghost function AsSent<T>(batches: seq<Batch<T>>): set<Sent<T>> {
    set b | b in batches :: Sent(b.shard, b.bucket, multiset(b.items))
  }

  lemma SentSubset<T>(sh: Sharding<T>, a: seq<T>, b: seq<T>, ab: seq<Batch<T>>, bb: seq<Batch<T>>)
    requires ValidSharding(sh) && multiset(a) == multiset(b)
    requires IsFlushOf(sh, a, ab) && IsFlushOf(sh, b, bb)
    ensures AsSent(ab) <= AsSent(bb)
  {
    forall m | m in AsSent(ab) ensures m in AsSent(bb) {
      var x :| x in ab && m == Sent(x.shard, x.bucket, multiset(x.items));
      BucketPermuted(sh, a, b, x.shard, x.bucket);
      var y := Bucket(sh, b, x.shard, x.bucket);
      assert |x.items| == |multiset(x.items)| == |multiset(y)| == |y|;
      assert Batch(x.shard, x.bucket, y) in bb;
    }
  }

  /** The flush depends on the content only: whatever order the items come in, the same messages
    * go to the same shards under the same ids with the same items, and equally many. */
  lemma FlushDeterministic<T>(sh: Sharding<T>, a: seq<T>, b: seq<T>, ab: seq<Batch<T>>, bb: seq<Batch<T>>)
    requires ValidSharding(sh) && multiset(a) == multiset(b)
    requires IsFlushOf(sh, a, ab) && IsFlushOf(sh, b, bb)
    ensures AsSent(ab) == AsSent(bb) && |ab| == |bb|
  {
    SentSubset(sh, a, b, ab, bb);
    SentSubset(sh, b, a, bb, ab);
    SentCount(ab);
    SentCount(bb);
  }

  lemma {:induction false} SentCount<T>(batches: seq<Batch<T>>)
    requires DistinctTargets(batches)
    ensures |AsSent(batches)| == |batches|
  {
    if batches != [] {
      var init, last := batches[..|batches| - 1], batches[|batches| - 1];
      SentCount(init);
      var m := Sent(last.shard, last.bucket, multiset(last.items));
      assert m !in AsSent(init);
      assert AsSent(batches) == AsSent(init) + {m};
    }
  }

  ghost function Contents<T>(batches: seq<Batch<T>>): multiset<T> {
    if batches == [] then multiset{}
    else Contents(batches[..|batches| - 1]) + multiset(batches[|batches| - 1].items)
  }

  /** How often x occurs in the batches: in its own bucket's batch, and nowhere else. */
  lemma {:induction false} ContentsOf<T>(sh: Sharding<T>, items: seq<T>, batches: seq<Batch<T>>, x: T)
    requires ValidSharding(sh) && DistinctTargets(batches)
    requires forall b :: b in batches ==> b.items == Bucket(sh, items, b.shard, b.bucket)
    ensures var shard := ShardKey(sh)(x);
      var bucket := BucketKey(sh, |InShard(sh, items, shard)|)(x);
      Contents(batches)[x] ==
        if Batch(shard, bucket, Bucket(sh, items, shard, bucket)) in batches then multiset(items)[x] else 0
  {
    if batches != [] {
      var init, last := batches[..|batches| - 1], batches[|batches| - 1];
      assert batches == init + [last];
      ContentsOf(sh, items, init, x);
      var mine := InShard(sh, items, last.shard);
      WithKeyMultiset(mine, BucketKey(sh, |mine|), last.bucket, x);
      WithKeyMultiset(items, ShardKey(sh), last.shard, x);
    }
  }

  lemma ItemIsSent<T>(sh: Sharding<T>, items: seq<T>, batches: seq<Batch<T>>, x: T)
    requires ValidSharding(sh) && IsFlushOf(sh, items, batches)
    ensures Contents(batches)[x] == multiset(items)[x]
  {
    ContentsOf(sh, items, batches, x);
    var shard := ShardKey(sh)(x);
    var mine := InShard(sh, items, shard);
    var bucket := BucketKey(sh, |mine|)(x);
    WithKeyMultiset(items, ShardKey(sh), shard, x);
    WithKeyMultiset(mine, BucketKey(sh, |mine|), bucket, x);
    if multiset(items)[x] > 0 {
      assert x in multiset(Bucket(sh, items, shard, bucket));
      assert Bucket(sh, items, shard, bucket) != [];
    }
  }

  lemma ItemGoesHome<T>(sh: Sharding<T>, items: seq<T>, batches: seq<Batch<T>>, b: Batch<T>, x: T)
    requires ValidSharding(sh) && IsFlushOf(sh, items, batches) && b in batches && x in b.items
    ensures b.shard == sh.hashOf(x) % sh.shards && x in items
  {
    var mine := InShard(sh, items, b.shard);
    WithKeyMember(mine, BucketKey(sh, |mine|), b.bucket, x);
    WithKeyMember(items, ShardKey(sh), b.shard, x);
  }

  lemma ItemHasABatch<T>(sh: Sharding<T>, items: seq<T>, batches: seq<Batch<T>>, x: T) returns (b: Batch<T>)
    requires ValidSharding(sh) && IsFlushOf(sh, items, batches) && x in items
    ensures b in batches && x in b.items && b.shard == sh.hashOf(x) % sh.shards
  {
    var shard := ShardKey(sh)(x);
    var mine := InShard(sh, items, shard);
    var bucket := BucketKey(sh, |mine|)(x);
    WithKeyMember(items, ShardKey(sh), shard, x);
    WithKeyMember(mine, BucketKey(sh, |mine|), bucket, x);
    b := Batch(shard, bucket, Bucket(sh, items, shard, bucket));
  }

  /** The batches partition the items: nothing is lost, nothing is sent twice, and every item goes
    * to the shard its hash names. */
  lemma {:induction false} FlushIsPartition<T>(sh: Sharding<T>, items: seq<T>, batches: seq<Batch<T>>)
    requires ValidSharding(sh) && IsFlushOf(sh, items, batches)
    ensures Contents(batches) == multiset(items)
    ensures forall b, x :: b in batches && x in b.items ==> b.shard == sh.hashOf(x) % sh.shards
  {
    forall x: T ensures Contents(batches)[x] == multiset(items)[x] {
      ItemIsSent(sh, items, batches, x);
    }
    SameCounts(Contents(batches), multiset(items));
    forall b, x | b in batches && x in b.items ensures b.shard == sh.hashOf(x) % sh.shards {
      ItemGoesHome(sh, items, batches, b, x);
    }
  }
}
