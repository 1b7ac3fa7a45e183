/** A flush may be cut short by a crash any number of times. Each time the worker recovers from its
  * log, the ring token is redelivered and the flush starts over, with its dictionaries possibly
  * enumerated in another order. Downstream cannot tell. */
module FlushCrash {
  import opened RingNode
  import opened WorkerLog
  import opened ShardedFlush

  /** How a worker turns its state into items to flush: the bag of items is a function of the state,
    * their order is not. */
  datatype Flusher<!S, !T(==)> = Flusher(sharding: Sharding<T>, content: S -> multiset<T>)

  /** The batches that one execution of the flush in world w sends, in order. */
  ghost predicate FlushOutput<S, D, T(!new)>(kind: Kind<S, D>, fl: Flusher<S, T>, w: World<S, D>, c: string, batches: seq<Batch<T>>)
    requires ValidSharding(fl.sharding)
  {
    exists items :: multiset(items) == fl.content(Get(kind, w.flows, c).acc) && IsFlushOf(fl.sharding, items, batches)
  }

  /** An execution that sent `sent` batches and then crashed, before anything was logged. */
  datatype Attempt<T> = Attempt(batches: seq<Batch<T>>, sent: nat)

  /** The attempts in turn, each in the world recovered from the previous crash. */
  ghost predicate Attempts<S, D, T(!new)>(kind: Kind<S, D>, fl: Flusher<S, T>, w: World<S, D>, c: string, attempts: seq<Attempt<T>>)
    requires ValidSharding(fl.sharding)
    decreases |attempts|
  {
    attempts != [] ==>
      && attempts[0].sent <= |attempts[0].batches|
      && FlushOutput(kind, fl, w, c, attempts[0].batches)
      && Attempts(kind, fl, Step(kind, w, Restart), c, attempts[1..])
  }

  ghost function AfterCrashes<S, D, T(!new)>(kind: Kind<S, D>, w: World<S, D>, attempts: seq<Attempt<T>>): World<S, D>
    decreases |attempts|
  {
    if attempts == [] then w else AfterCrashes(kind, Step(kind, w, Restart), attempts[1..])
  }

  /** Everything downstream has received from the attempts. */
  ghost function Received<T>(attempts: seq<Attempt<T>>): set<Sent<T>>
    requires forall a :: a in attempts ==> a.sent <= |a.batches|
  {
    if attempts == [] then {}
    else AsSent(attempts[0].batches[..attempts[0].sent]) + Received(attempts[1..])
  }

  /** A flow with all its data logged and no flush done yet; a crash loses nothing of it. */
  ghost predicate Ready<S, D>(kind: Kind<S, D>, w: World<S, D>, c: string) {
    Recoverable(kind, w, c) && c !in w.flushed && c !in w.cleaned
  }

  lemma CrashKeepsFlow<S, D>(kind: Kind<S, D>, w: World<S, D>, c: string)
    requires Ready(kind, w, c)
    ensures Ready(kind, Step(kind, w, Restart), c)
    ensures Get(kind, Step(kind, w, Restart).flows, c) == Get(kind, w.flows, c)
  {
    if c !in Clients(w.wal) { UntouchedRecovers(kind, c, w.wal); }
  }

  lemma {:induction false} CrashesKeepFlow<S, D, T(!new)>(kind: Kind<S, D>, w: World<S, D>, c: string, attempts: seq<Attempt<T>>)
    requires Ready(kind, w, c)
    ensures Ready(kind, AfterCrashes(kind, w, attempts), c)
    ensures Get(kind, AfterCrashes(kind, w, attempts).flows, c) == Get(kind, w.flows, c)
    ensures AfterCrashes(kind, w, attempts).wal == w.wal
    decreases |attempts|
  {
    if attempts != [] {
      CrashKeepsFlow(kind, w, c);
      CrashesKeepFlow(kind, Step(kind, w, Restart), c, attempts[1..]);
    }
  }

  /** Two executions that start from the same flow send the same messages. */
  lemma SameFlowSameFlush<S, D, T(!new)>(kind: Kind<S, D>, fl: Flusher<S, T>, w: World<S, D>, w': World<S, D>, c: string,
                                   b: seq<Batch<T>>, b': seq<Batch<T>>)
    requires ValidSharding(fl.sharding)
    requires Get(kind, w.flows, c) == Get(kind, w'.flows, c)
    requires FlushOutput(kind, fl, w, c, b) && FlushOutput(kind, fl, w', c, b')
    ensures AsSent(b) == AsSent(b') && |b| == |b'|
  {
    var x :| multiset(x) == fl.content(Get(kind, w.flows, c).acc) && IsFlushOf(fl.sharding, x, b);
    var y :| multiset(y) == fl.content(Get(kind, w'.flows, c).acc) && IsFlushOf(fl.sharding, y, b');
    FlushDeterministic(fl.sharding, x, y, b, b');
  }

  lemma {:induction false} PartialFlushesAddNothing<S, D, T(!new)>(kind: Kind<S, D>, fl: Flusher<S, T>, w: World<S, D>, w0: World<S, D>,
                                            c: string, attempts: seq<Attempt<T>>, reference: seq<Batch<T>>)
    requires ValidSharding(fl.sharding) && Ready(kind, w, c)
    requires Get(kind, w0.flows, c) == Get(kind, w.flows, c) && FlushOutput(kind, fl, w0, c, reference)
    requires Attempts(kind, fl, w, c, attempts)
    ensures forall a :: a in attempts ==> a.sent <= |a.batches|
    ensures Received(attempts) <= AsSent(reference)
    decreases |attempts|
  {
    if attempts != [] {
      var a := attempts[0];
      SameFlowSameFlush(kind, fl, w, w0, c, a.batches, reference);
      assert forall b :: b in a.batches[..a.sent] ==> b in a.batches;
      CrashKeepsFlow(kind, w, c);
      PartialFlushesAddNothing(kind, fl, Step(kind, w, Restart), w0, c, attempts[1..], reference);
      assert attempts == [a] + attempts[1..];
    }
  }

  /** Crash-idempotent flush. From a run's state w, let the flush of flow c be attempted and crash
    * any number of times, then complete with `final`; `clean` is what a crash-free flush in w would
    * send. Downstream receives the same set of (shard, id, bag of items); the worker ends with the
    * same flow, logs the same record and passes on the same token. */
  lemma {:induction false} CrashIdempotentFlush<S(!new), D, T(!new)>(kind: Kind<S, D>, fl: Flusher<S, T>, ops: seq<Op<D>>, c: string, self: nat,
                                      msg: RingMsg, attempts: seq<Attempt<T>>, final: seq<Batch<T>>, clean: seq<Batch<T>>)
    requires Restorable(kind) && ValidSharding(fl.sharding)
    requires var w := Run(kind, ops); c !in w.flushed && c !in w.cleaned && msg.id !in Get(kind, w.flows, c).node.control
    requires IsFlush(msg)
    requires Attempts(kind, fl, Run(kind, ops), c, attempts)
    requires FlushOutput(kind, fl, AfterCrashes(kind, Run(kind, ops), attempts), c, final)
    requires FlushOutput(kind, fl, Run(kind, ops), c, clean)
    ensures forall a :: a in attempts ==> a.sent <= |a.batches|
    ensures Received(attempts) + AsSent(final) == AsSent(clean)
    ensures var w := Run(kind, ops); var w' := AfterCrashes(kind, w, attempts);
      var done, done' := Step(kind, w, Token(c, msg, |clean|)), Step(kind, w', Token(c, msg, |final|));
      && Get(kind, done'.flows, c) == Get(kind, done.flows, c)
      && done'.wal == done.wal
      && TokenOutcome(self, c, Get(kind, w'.flows, c).node.counters, msg, |final|) ==
         TokenOutcome(self, c, Get(kind, w.flows, c).node.counters, msg, |clean|)
  {
    var w := Run(kind, ops);
    RecoveryEquivalence(kind, ops, c);
    CrashesKeepFlow(kind, w, c, attempts);
    PartialFlushesAddNothing(kind, fl, w, w, c, attempts, clean);
    SameFlowSameFlush(kind, fl, AfterCrashes(kind, w, attempts), w, c, final, clean);
  }
}
