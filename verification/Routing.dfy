/** From the flushes of one stage's replicas to what the next stage's replicas have received, in any
  * order and with any duplicates. */
module Routing {
  import opened Collections
  import opened ShardedFlush

  /** What a replica has received: some sequence of message payloads. */
  ghost function Elements<T(!new)>(received: seq<seq<T>>): set<T> {
    set m, x | m in received && x in m :: x
  }

  /** Every replica i of a stage flushes items[i] in the batches batches[i]. */
  ghost predicate Flushed<T>(sh: Sharding<T>, items: seq<seq<T>>, batches: seq<seq<Batch<T>>>) {
    && ValidSharding(sh) && |items| == |batches|
    && (forall i :: 0 <= i < |items| ==> IsFlushOf(sh, items[i], batches[i]))
  }

  /** Replica j of the next stage receives every batch addressed to it at least once, and nothing else. */
  ghost predicate Delivered<T>(batches: seq<seq<Batch<T>>>, received: seq<seq<seq<T>>>) {
    && (forall i, b :: 0 <= i < |batches| && b in batches[i] && b.shard < |received| ==> b.items in received[b.shard])
    && (forall j, m :: 0 <= j < |received| && m in received[j] ==>
          exists i, b :: 0 <= i < |batches| && b in batches[i] && b.shard == j && b.items == m)
  }

  /** Some replica flushed x. */
  ghost predicate FlushedBySome<T>(items: seq<seq<T>>, x: T) { exists i :: 0 <= i < |items| && x in items[i] }

  /** Routing: replica j ends up with exactly the items, of all replicas, whose key hashes to j. */
  lemma {:induction false} Routed<T(!new)>(sh: Sharding<T>, items: seq<seq<T>>, batches: seq<seq<Batch<T>>>, received: seq<seq<seq<T>>>, j: nat, x: T)
    requires Flushed(sh, items, batches) && Delivered(batches, received) && |received| == sh.shards && j < |received|
    ensures x in Elements(received[j]) <==> FlushedBySome(items, x) && sh.hashOf(x) % sh.shards == j
  {
    if x in Elements(received[j]) {
      var m :| m in received[j] && x in m;
      var i, b :| 0 <= i < |batches| && b in batches[i] && b.shard == j && b.items == m;
      ItemGoesHome(sh, items[i], batches[i], b, x);
    }
    if FlushedBySome(items, x) && sh.hashOf(x) % sh.shards == j {
      var i :| 0 <= i < |items| && x in items[i];
      var b := ItemHasABatch(sh, items[i], batches[i], x);
      assert b.items in received[j];
    }
  }

  // --- one delivery ---

  /** Every replica flushes its items. */
  method FlushAll<T>(sh: Sharding<T>, items: seq<seq<T>>) returns (batches: seq<seq<Batch<T>>>)
    requires ValidSharding(sh)
    ensures Flushed(sh, items, batches)
  {
    batches := [];
    for i := 0 to |items|
      invariant |batches| == i && forall j :: 0 <= j < i ==> IsFlushOf(sh, items[j], batches[j])
    {
      var b := Partition(sh, items[i]);
      batches := batches + [b];
    }
  }

  function PayloadsTo<T>(batches: seq<Batch<T>>, j: nat): seq<seq<T>> {
    if batches == [] then []
    else PayloadsTo(batches[1..], j) + if batches[0].shard == j then [batches[0].items] else []
  }

  function AllPayloadsTo<T>(batches: seq<seq<Batch<T>>>, j: nat): seq<seq<T>> {
    if batches == [] then [] else AllPayloadsTo(batches[1..], j) + PayloadsTo(batches[0], j)
  }

  function Inboxes<T>(batches: seq<seq<Batch<T>>>, replicas: nat): seq<seq<seq<T>>> {
    seq(replicas, j requires 0 <= j < replicas => AllPayloadsTo(batches, j))
  }

  lemma {:induction false} PayloadMembers<T>(batches: seq<Batch<T>>, j: nat, m: seq<T>)
    ensures m in PayloadsTo(batches, j) <==> exists b :: b in batches && b.shard == j && b.items == m
  {
    if batches != [] {
      PayloadMembers(batches[1..], j, m);
      assert batches == [batches[0]] + batches[1..];
    }
  }

  lemma {:induction false} AllPayloadMembers<T>(batches: seq<seq<Batch<T>>>, j: nat, m: seq<T>)
    ensures m in AllPayloadsTo(batches, j) <==>
      exists i, b :: 0 <= i < |batches| && b in batches[i] && b.shard == j && b.items == m
  {
    if batches != [] {
      AllPayloadMembers(batches[1..], j, m);
      PayloadMembers(batches[0], j, m);
      if i, b :| 0 <= i < |batches| && b in batches[i] && b.shard == j && b.items == m {
        if i > 0 { assert b in batches[1..][i - 1]; }
      }
      if m in AllPayloadsTo(batches[1..], j) {
        var i, b :| 0 <= i < |batches[1..]| && b in batches[1..][i] && b.shard == j && b.items == m;
        assert b in batches[i + 1];
      }
    }
  }

  lemma InboxesDeliver<T>(batches: seq<seq<Batch<T>>>, replicas: nat)
    ensures |Inboxes(batches, replicas)| == replicas && Delivered(batches, Inboxes(batches, replicas))
  {
    var received := Inboxes(batches, replicas);
    forall i, b | 0 <= i < |batches| && b in batches[i] && b.shard < replicas ensures b.items in received[b.shard] {
      AllPayloadMembers(batches, b.shard, b.items);
    }
    forall j, m | 0 <= j < replicas && m in received[j]
      ensures exists i, b :: 0 <= i < |batches| && b in batches[i] && b.shard == j && b.items == m
    {
      AllPayloadMembers(batches, j, m);
    }
  }

  lemma ElementsOneMore<T(!new)>(received: seq<seq<T>>, i: nat)
    requires i < |received|
    ensures Elements(received[..i + 1]) == Elements(received[..i]) + Elems(received[i])
  {
    assert received[..i + 1] == received[..i] + [received[i]];
  }
}
