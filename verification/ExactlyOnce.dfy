/** Exactly-once effect of at-least-once delivery: a worker's state is the fold of the deltas of the
  * distinct messages it has logged, through any redeliveries, compactions and crashes. */
module ExactlyOnce {
  import opened Collections
  import opened WorkerLog

  ghost function Fold<S, D>(kind: Kind<S, D>, taken: seq<Taken<D>>): S {
    if taken == [] then kind.empty
    else kind.apply(Fold(kind, taken[..|taken| - 1]), taken[|taken| - 1].delta.state)
  }

  /** How many messages the handling of the taken ones has sent. */
  ghost function SendsOf<D>(taken: seq<Taken<D>>): nat {
    if taken == [] then 0 else SendsOf(taken[..|taken| - 1]) + taken[|taken| - 1].delta.sends
  }

  ghost function IdsOf<D>(taken: seq<Taken<D>>): set<string> {
    set t | t in taken :: t.mid
  }

  ghost predicate DistinctIds<D>(taken: seq<Taken<D>>) {
    forall i, j :: 0 <= i < j < |taken| ==> taken[i].mid != taken[j].mid
  }

  /** What a flow is, in terms of the messages taken so far. */
  ghost predicate Accounted<S, D>(kind: Kind<S, D>, f: Flow<S>, taken: seq<Taken<D>>, eofs: set<string>, flushed: bool) {
    && DistinctIds(taken)
    && f.node.main == IdsOf(taken) + eofs
    && f.node.counters.processed == |taken|
    && (!flushed ==> f.acc == Fold(kind, taken) && f.node.counters.sent == SendsOf(taken))
  }

  ghost predicate Accounts<S, D>(kind: Kind<S, D>, w: World<S, D>, c: string) {
    c !in w.cleaned ==> Accounted(kind, Get(kind, w.flows, c), TakenOf(w, c), EofsOf(w, c), c in w.flushed)
  }

  lemma TakeOne<S, D>(kind: Kind<S, D>, taken: seq<Taken<D>>, t: Taken<D>)
    ensures Fold(kind, taken + [t]) == kind.apply(Fold(kind, taken), t.delta.state)
    ensures IdsOf(taken + [t]) == IdsOf(taken) + {t.mid}
    ensures SendsOf(taken + [t]) == SendsOf(taken) + t.delta.sends
    ensures DistinctIds(taken) && t.mid !in IdsOf(taken) ==> DistinctIds(taken + [t])
  {
    assert (taken + [t])[..|taken|] == taken;
    assert forall x :: x in taken + [t] <==> x in taken || x == t;
    if DistinctIds(taken) && t.mid !in IdsOf(taken) {
      assert forall i :: 0 <= i < |taken| ==> taken[i] in taken;
    }
  }

  lemma DataAccounted<S, D>(kind: Kind<S, D>, f: Flow<S>, taken: seq<Taken<D>>, eofs: set<string>, flushed: bool,
                            mid: string, d: Delta<D>)
    requires Accounted(kind, f, taken, eofs, flushed) && mid !in f.node.main
    ensures Accounted(kind, LiveData(kind, f, mid, d), taken + [Taken(mid, d)], eofs, flushed)
  {
    TakeOne(kind, taken, Taken(mid, d));
  }

  lemma StepAccounts<S(!new), D>(kind: Kind<S, D>, w: World<S, D>, op: Op<D>, c: string)
    requires Accounts(kind, w, c) && Recoverable(kind, w, c)
    ensures Accounts(kind, Step(kind, w, op), c)
  {
    hide Fold, SendsOf, Recovered, DistinctIds, IdsOf;
    var f := Get(kind, w.flows, c);
    match op
    case Data(x, mid, d) =>
      if x == c && c !in w.cleaned && mid !in f.node.main {
        DataAccounted(kind, f, TakenOf(w, c), EofsOf(w, c), c in w.flushed, mid, d);
      }
    case Eof(x, mid) =>
    case Token(x, msg, batches) =>
    case Compact(keys) =>
    case Restart =>
      if c !in Clients(w.wal) { UntouchedRecovers(kind, c, w.wal); }
  }

  lemma {:induction false} RunAccounts<S(!new), D>(kind: Kind<S, D>, ops: seq<Op<D>>, c: string)
    requires Restorable(kind)
    ensures Accounts(kind, Run(kind, ops), c)
    decreases |ops|
  {
    if ops != [] {
      var before := ops[..|ops| - 1];
      RunAccounts(kind, before, c);
      RecoveryEquivalence(kind, before, c);
      StepAccounts(kind, Run(kind, before), ops[|ops| - 1], c);
    }
  }

  // --- order does not matter ---

  ghost predicate Commutative<S(!new), D(!new)>(kind: Kind<S, D>) {
    forall s, d, e :: kind.apply(kind.apply(s, d), e) == kind.apply(kind.apply(s, e), d)
  }

  /** The state after the messages of `ids`, each contributing what its content says. */
  ghost function FoldIds<S, D>(kind: Kind<S, D>, deltaOf: string -> Delta<D>, ids: seq<string>): S {
    if ids == [] then kind.empty
    else kind.apply(FoldIds(kind, deltaOf, ids[..|ids| - 1]), deltaOf(ids[|ids| - 1]).state)
  }

  /** Any message can be moved to the end. */
  lemma {:induction false} MoveToEnd<S(!new), D(!new)>(kind: Kind<S, D>, deltaOf: string -> Delta<D>, ids: seq<string>, i: nat)
    requires Commutative(kind) && i < |ids|
    ensures FoldIds(kind, deltaOf, ids) ==
            kind.apply(FoldIds(kind, deltaOf, ids[..i] + ids[i + 1..]), deltaOf(ids[i]).state)
    decreases |ids|
  {
    var n := |ids| - 1;
    if i == n {
      assert ids[..i] + ids[i + 1..] == ids[..n];
    } else {
      var init, without := ids[..n], ids[..i] + ids[i + 1..];
      MoveToEnd(kind, deltaOf, init, i);
      assert without[..|without| - 1] == init[..i] + init[i + 1..];
      assert without[|without| - 1] == ids[n];
    }
  }

  lemma ListsSize(a: seq<string>, b: seq<string>, s: set<string>)
    requires Lists(a, s) && Lists(b, s)
    ensures |a| == |b|
  {
    assert Elems(a) == s && Elems(b) == s;
    ElemsSize(a);
    ElemsSize(b);
  }

  lemma ListsWithout(b: seq<string>, s: set<string>, i: nat)
    requires Lists(b, s) && i < |b|
    ensures Lists(b[..i] + b[i + 1..], s - {b[i]})
  {
    var rest := b[..i] + b[i + 1..];
    forall x ensures x in rest <==> x in s - {b[i]} {
      if x in s - {b[i]} {
        var j :| 0 <= j < |b| && b[j] == x;
        assert x == rest[if j < i then j else j - 1];
      }
    }
  }

  lemma {:induction false} FoldOrderIndependent<S(!new), D(!new)>(kind: Kind<S, D>, deltaOf: string -> Delta<D>,
                                                            a: seq<string>, b: seq<string>, s: set<string>)
    requires Commutative(kind) && Lists(a, s) && Lists(b, s)
    ensures FoldIds(kind, deltaOf, a) == FoldIds(kind, deltaOf, b)
    decreases |a|
  {
    ListsSize(a, b, s);
    if a != [] {
      var n := |a| - 1;
      assert a[n] in b;
      var i :| 0 <= i < |b| && b[i] == a[n];
      ListsWithout(a, s, n);
      ListsWithout(b, s, i);
      assert a[..n] + a[n + 1..] == a[..n];
      FoldOrderIndependent(kind, deltaOf, a[..n], b[..i] + b[i + 1..], s - {a[n]});
      MoveToEnd(kind, deltaOf, b, i);
    }
  }

  // --- the theorems ---

  /** Message content is fixed: redeliveries of an id carry the same payload. */
  ghost predicate Contents<D>(ops: seq<Op<D>>, c: string, deltaOf: string -> Delta<D>) {
    forall op :: op in ops && op.Data? && op.client == c ==> op.delta == deltaOf(op.mid)
  }

  lemma {:induction false} TakenContents<S, D>(kind: Kind<S, D>, ops: seq<Op<D>>, c: string, deltaOf: string -> Delta<D>)
    requires Contents(ops, c, deltaOf)
    ensures forall t :: t in TakenOf(Run(kind, ops), c) ==> t.delta == deltaOf(t.mid)
    decreases |ops|
  {
    if ops != [] {
      var before, op := ops[..|ops| - 1], ops[|ops| - 1];
      assert op in ops && forall o :: o in before ==> o in ops;
      TakenContents(kind, before, c, deltaOf);
    }
  }

  lemma {:induction false} FoldByIds<S, D>(kind: Kind<S, D>, taken: seq<Taken<D>>, deltaOf: string -> Delta<D>, ids: seq<string>)
    requires forall t :: t in taken ==> t.delta == deltaOf(t.mid)
    requires |ids| == |taken| && forall i :: 0 <= i < |ids| ==> ids[i] == taken[i].mid
    ensures Fold(kind, taken) == FoldIds(kind, deltaOf, ids)
  {
    if taken != [] {
      var n := |taken| - 1;
      assert taken[n] in taken;
      FoldByIds(kind, taken[..n], deltaOf, ids[..n]);
    }
  }

  ghost function MidsOf<D>(taken: seq<Taken<D>>): seq<string> {
    seq(|taken|, i requires 0 <= i < |taken| => taken[i].mid)
  }

  lemma MidsList<D>(taken: seq<Taken<D>>)
    requires DistinctIds(taken)
    ensures Lists(MidsOf(taken), IdsOf(taken))
  {
    var ids := MidsOf(taken);
    forall x ensures x in ids <==> x in IdsOf(taken) {
      if x in IdsOf(taken) {
        var t :| t in taken && t.mid == x;
        var i :| 0 <= i < |taken| && taken[i] == t;
        assert ids[i] == x;
      }
    }
  }

  /** Exactly-once effect: through redeliveries, compactions and crashes, the state of a flow (not
    * yet flushed or cleaned up) is the fold of each logged data message exactly once, and the
    * processed count is their number; if deltas commute, the order does not matter. */
  lemma {:induction false} ExactlyOnceEffect<S(!new), D(!new)>(kind: Kind<S, D>, ops: seq<Op<D>>, c: string, deltaOf: string -> Delta<D>,
                                      order: seq<string>)
    requires Restorable(kind) && Commutative(kind) && Contents(ops, c, deltaOf)
    requires c !in Run(kind, ops).cleaned && c !in Run(kind, ops).flushed
    requires Lists(order, IdsOf(TakenOf(Run(kind, ops), c)))
    ensures var f := Get(kind, Run(kind, ops).flows, c);
      && f.acc == FoldIds(kind, deltaOf, order)
      && f.node.counters.processed == |order|
      && (forall x :: x in order ==> x in f.node.main)
  {
    var w := Run(kind, ops);
    var taken := TakenOf(w, c);
    RunAccounts(kind, ops, c);
    TakenContents(kind, ops, c, deltaOf);
    var ids := MidsOf(taken);
    MidsList(taken);
    FoldByIds(kind, taken, deltaOf, ids);
    FoldOrderIndependent(kind, deltaOf, order, ids, IdsOf(taken));
    ListsSize(order, ids, IdsOf(taken));
  }

  lemma StepGrows<S, D>(kind: Kind<S, D>, w: World<S, D>, op: Op<D>, c: string)
    ensures var w' := Step(kind, w, op);
      w.cleaned <= w'.cleaned && IdsOf(TakenOf(w, c)) <= IdsOf(TakenOf(w', c)) && EofsOf(w, c) <= EofsOf(w', c)
  {
    hide Recovered, Snapshots;
    var w' := Step(kind, w, op);
    assert TakenOf(w, c) <= TakenOf(w', c);
    forall t | t in TakenOf(w, c) ensures t in TakenOf(w', c) {
      var i :| 0 <= i < |TakenOf(w, c)| && TakenOf(w, c)[i] == t;
      assert TakenOf(w', c)[i] == t;
    }
  }

  lemma {:induction false} HistoryGrows<S, D>(kind: Kind<S, D>, ops: seq<Op<D>>, n: nat, c: string)
    requires n <= |ops|
    ensures Run(kind, ops[..n]).cleaned <= Run(kind, ops).cleaned
    ensures IdsOf(TakenOf(Run(kind, ops[..n]), c)) <= IdsOf(TakenOf(Run(kind, ops), c))
    ensures EofsOf(Run(kind, ops[..n]), c) <= EofsOf(Run(kind, ops), c)
    decreases |ops|
  {
    if n == |ops| {
      assert ops[..n] == ops;
    } else {
      hide Step;
      var before := ops[..|ops| - 1];
      assert before[..n] == ops[..n];
      HistoryGrows(kind, before, n, c);
      StepGrows(kind, Run(kind, before), ops[|ops| - 1], c);
    }
  }

  /** No acknowledged message is ever missing: once a data or EOF message has been handled (or
    * recognised), its id is in what the log recovers, at every later moment of the run. */
  lemma AckedIsLogged<S(!new), D>(kind: Kind<S, D>, ops: seq<Op<D>>, i: nat, c: string, mid: string)
    requires Restorable(kind) && i < |ops|
    requires (ops[i].Data? || ops[i].Eof?) && ops[i].client == c && ops[i].mid == mid
    requires c !in Run(kind, ops).cleaned
    ensures mid in Recovered(kind, c, Run(kind, ops).wal).node.main
  {
    assert ops[..i + 1][..i] == ops[..i] && ops[..i + 1][i] == ops[i];
    HistoryGrows(kind, ops, i + 1, c);
    RunAccounts(kind, ops[..i + 1], c);
    RunAccounts(kind, ops, c);
    RecoveryEquivalence(kind, ops, c);
  }
}
