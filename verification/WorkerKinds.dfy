/** The states of concrete workers as instances of a worker kind, and what exactly-once effect means
  * for each: a count, a table of maxima, a set, and no state at all. */
module WorkerKinds {
  import opened Collections
  import opened Options
  import opened WorkerLog
  import opened ExactlyOnce
  import opened BankMax

  // --- a count that is added up (`src/workers/low_amount_aggregator/main.py`) ---

  ghost function Counting(): Kind<int, int> {
    Kind(0, (n: int, d: int) => n + d, (n: int) => Some(n))
  }

  lemma CountingLawful()
    ensures Restorable(Counting()) && Commutative(Counting())
  {
    var kind := Counting();
    forall n: int, d: int, e: int
      ensures kind.apply(kind.apply(n, d), e) == kind.apply(kind.apply(n, e), d)
    {
    }
  }

  /** How many amounts of a batch are below the threshold. */
  ghost function Below(amounts: seq<real>, threshold: real): nat {
    if amounts == [] then 0
    else Below(amounts[1..], threshold) + if amounts[0] < threshold then 1 else 0
  }

  /** The positions of the small amounts. */
  ghost function SmallAt(amounts: seq<real>, threshold: real): set<nat> {
    set i: nat | i < |amounts| && amounts[i] < threshold
  }

  lemma {:induction false} BelowMeaning(amounts: seq<real>, threshold: real)
    ensures Below(amounts, threshold) == |SmallAt(amounts, threshold)|
  {
    if amounts != [] {
      var n := |amounts| - 1;
      BelowMeaning(amounts[..n], threshold);
      assert amounts == amounts[..n] + [amounts[n]];
      BelowConcat(amounts[..n], [amounts[n]], threshold);
      assert Below([amounts[n]][1..], threshold) == 0;
      assert SmallAt(amounts, threshold) == SmallAt(amounts[..n], threshold) + if amounts[n] < threshold then {n} else {};
    }
  }

  /** The aggregator's `_handle_data_message`: what a batch adds to the count. */
  method CountBelow(amounts: seq<real>, threshold: real) returns (count: nat)
    ensures count == Below(amounts, threshold) == |SmallAt(amounts, threshold)|
  {
    count := 0;
    for i := 0 to |amounts|
      invariant count == Below(amounts[..i], threshold)
    {
      assert amounts[..i + 1] == amounts[..i] + [amounts[i]];
      BelowConcat(amounts[..i], [amounts[i]], threshold);
      assert Below([amounts[i]][1..], threshold) == 0;
      if amounts[i] < threshold { count := count + 1; }
    }
    assert amounts[..|amounts|] == amounts;
    BelowMeaning(amounts, threshold);
  }

  /** All the payloads of the listed messages, one after the other. */
  ghost function AllOf<T>(payload: string -> seq<T>, ids: seq<string>): seq<T> {
    if ids == [] then [] else AllOf(payload, ids[..|ids| - 1]) + payload(ids[|ids| - 1])
  }

  lemma {:induction false} BelowConcat(a: seq<real>, b: seq<real>, threshold: real)
    ensures Below(a + b, threshold) == Below(a, threshold) + Below(b, threshold)
  {
    if a == [] {
      assert a + b == b;
    } else {
      assert (a + b)[1..] == a[1..] + b;
      BelowConcat(a[1..], b, threshold);
    }
  }

  lemma {:induction false} CountingFold(deltaOf: string -> Delta<int>, payload: string -> seq<real>, threshold: real, ids: seq<string>)
    requires forall id :: id in ids ==> deltaOf(id).state == Below(payload(id), threshold)
    ensures FoldIds(Counting(), deltaOf, ids) == Below(AllOf(payload, ids), threshold)
  {
    if ids != [] {
      var init, last := ids[..|ids| - 1], ids[|ids| - 1];
      assert last in ids && forall id :: id in init ==> id in ids;
      CountingFold(deltaOf, payload, threshold, init);
      BelowConcat(AllOf(payload, init), payload(last), threshold);
    }
  }

  /** The aggregator's count is the number of small amounts in the distinct messages logged, however
    * often they were delivered and wherever the worker crashed or compacted. */
  lemma {:induction false} CountExactlyOnce(ops: seq<Op<int>>, c: string, deltaOf: string -> Delta<int>, payload: string -> seq<real>,
                         threshold: real, order: seq<string>)
    requires Contents(ops, c, deltaOf)
    requires forall id :: deltaOf(id).state == Below(payload(id), threshold)
    requires var w := Run(Counting(), ops); c !in w.cleaned && c !in w.flushed && Lists(order, IdsOf(TakenOf(w, c)))
    ensures Get(Counting(), Run(Counting(), ops).flows, c).acc == Below(AllOf(payload, order), threshold)
  {
    CountingLawful();
    ExactlyOnceEffect(Counting(), ops, c, deltaOf, order);
    CountingFold(deltaOf, payload, threshold, order);
  }

  // --- a table of maxima (`src/workers/bank_max_aggregator/main.py`) ---

  ghost function Maximising(): Kind<Table, Table> {
    Kind(map[], (m: Table, d: Table) => Merge(m, d), (m: Table) => Some(m))
  }

  lemma MaximisingLawful()
    ensures Restorable(Maximising()) && Commutative(Maximising())
  {
    var kind := Maximising();
    forall m: Table, d: Table, e: Table
      ensures kind.apply(kind.apply(m, d), e) == kind.apply(kind.apply(m, e), d)
    {
      MergeCommutes(m, d, e);
    }
    forall m: Table ensures kind.apply(kind.empty, m) == m { MergeIntoEmpty(m); }
  }

  lemma EntriesConcat(a: seq<Payment>, b: seq<Payment>)
    ensures EntriesOf(a + b) == EntriesOf(a) + EntriesOf(b)
  {
  }

  lemma {:induction false} MaximisingFold(deltaOf: string -> Delta<Table>, payload: string -> seq<Payment>, ids: seq<string>)
    requires forall id :: id in ids ==> IsMaximum(deltaOf(id).state, EntriesOf(payload(id)))
    ensures IsMaximum(FoldIds(Maximising(), deltaOf, ids), EntriesOf(AllOf(payload, ids)))
  {
    if ids != [] {
      var init, last := ids[..|ids| - 1], ids[|ids| - 1];
      assert last in ids && forall id :: id in init ==> id in ids;
      MaximisingFold(deltaOf, payload, init);
      MergeMaximum(FoldIds(Maximising(), deltaOf, init), deltaOf(last).state,
                   EntriesOf(AllOf(payload, init)), EntriesOf(payload(last)));
      EntriesConcat(AllOf(payload, init), payload(last));
    }
  }

  /** The aggregator's table is the maximum over the payments of the distinct messages logged. */
  lemma {:induction false} MaximaExactlyOnce(ops: seq<Op<Table>>, c: string, deltaOf: string -> Delta<Table>,
                          payload: string -> seq<Payment>, order: seq<string>)
    requires Contents(ops, c, deltaOf)
    requires forall id :: IsMaximum(deltaOf(id).state, EntriesOf(payload(id)))
    requires var w := Run(Maximising(), ops); c !in w.cleaned && c !in w.flushed && Lists(order, IdsOf(TakenOf(w, c)))
    ensures IsMaximum(Get(Maximising(), Run(Maximising(), ops).flows, c).acc, EntriesOf(AllOf(payload, order)))
  {
    MaximisingLawful();
    ExactlyOnceEffect(Maximising(), ops, c, deltaOf, order);
    MaximisingFold(deltaOf, payload, order);
  }

  // --- a set (the edges, paths and accounts of Query 4) ---

  ghost function Enumerate<T(!new)>(s: set<T>): (list: seq<T>)
    ensures forall x :: x in list <==> x in s
  {
    if s == {} then [] else var x :| x in s; [x] + Enumerate(s - {x})
  }

  ghost function Collecting<T(!new)>(): Kind<set<T>, seq<T>> {
    Kind({}, (s: set<T>, d: seq<T>) => s + Elems(d), (s: set<T>) => Some(Enumerate(s)))
  }

  lemma CollectingLawful<T(!new)>()
    ensures Restorable(Collecting<T>()) && Commutative(Collecting<T>())
  {
    var kind := Collecting<T>();
    forall s: set<T>, d: seq<T>, e: seq<T>
      ensures kind.apply(kind.apply(s, d), e) == kind.apply(kind.apply(s, e), d)
    {
      assert s + Elems(d) + Elems(e) == s + Elems(e) + Elems(d);
    }
    forall s: set<T> ensures kind.apply(kind.empty, Enumerate(s)) == s {
      assert {} + Elems(Enumerate(s)) == s;
    }
  }

  lemma {:induction false} CollectingFold<T(!new)>(deltaOf: string -> Delta<seq<T>>, payload: string -> seq<T>, ids: seq<string>)
    requires forall id :: id in ids ==> deltaOf(id).state == payload(id)
    ensures FoldIds(Collecting<T>(), deltaOf, ids) == Elems(AllOf(payload, ids))
  {
    if ids != [] {
      var init, last := ids[..|ids| - 1], ids[|ids| - 1];
      assert last in ids && forall id :: id in init ==> id in ids;
      CollectingFold(deltaOf, payload, init);
      assert Elems(AllOf(payload, init) + payload(last)) == Elems(AllOf(payload, init)) + Elems(payload(last));
    }
  }

  /** The worker's set is the union of the payloads of the distinct messages logged. */
  lemma {:induction false} CollectedExactlyOnce<T(!new)>(ops: seq<Op<seq<T>>>, c: string, deltaOf: string -> Delta<seq<T>>,
                                     payload: string -> seq<T>, order: seq<string>)
    requires Contents(ops, c, deltaOf)
    requires forall id :: deltaOf(id).state == payload(id)
    requires var w := Run(Collecting<T>(), ops); c !in w.cleaned && c !in w.flushed && Lists(order, IdsOf(TakenOf(w, c)))
    ensures Get(Collecting<T>(), Run(Collecting<T>(), ops).flows, c).acc == Elems(AllOf(payload, order))
  {
    CollectingLawful<T>();
    ExactlyOnceEffect(Collecting<T>(), ops, c, deltaOf, order);
    CollectingFold(deltaOf, payload, order);
  }

  // --- messages sent while processing (`src/workers/bidirectional_sharder/main.py`) ---

  /** The sharder keeps no state, but counts what it sends. */
  ghost function Stateless(): Kind<(), ()> {
    Kind((), (s: (), d: ()) => (), (s: ()) => None)
  }

  lemma StatelessLawful()
    ensures Restorable(Stateless())
  {
  }

  ghost function TotalSends<D>(deltaOf: string -> Delta<D>, ids: seq<string>): nat {
    if ids == [] then 0 else TotalSends(deltaOf, ids[..|ids| - 1]) + deltaOf(ids[|ids| - 1]).sends
  }

  /** The sent count is one more additive state. */
  ghost function SendsAsState<D>(deltaOf: string -> Delta<D>): string -> Delta<int> {
    id => Delta(deltaOf(id).sends, 0)
  }

  lemma {:induction false} SendsFold<D>(deltaOf: string -> Delta<D>, ids: seq<string>)
    ensures FoldIds(Counting(), SendsAsState(deltaOf), ids) == TotalSends(deltaOf, ids)
  {
    if ids != [] { SendsFold(deltaOf, ids[..|ids| - 1]); }
  }

  lemma {:induction false} SendsByIds<D>(taken: seq<Taken<D>>, deltaOf: string -> Delta<D>)
    requires forall t :: t in taken ==> t.delta == deltaOf(t.mid)
    ensures SendsOf(taken) == TotalSends(deltaOf, MidsOf(taken))
  {
    if taken != [] {
      var n := |taken| - 1;
      assert taken[n] in taken;
      SendsByIds(taken[..n], deltaOf);
      assert MidsOf(taken)[..n] == MidsOf(taken[..n]);
    }
  }

  /** The sent count of a worker that sends while it processes: after any run it is what the distinct
    * messages logged have caused to be sent, however often they were delivered. */
  lemma SentExactlyOnce<S(!new), D(!new)>(kind: Kind<S, D>, ops: seq<Op<D>>, c: string, deltaOf: string -> Delta<D>, order: seq<string>)
    requires Restorable(kind) && Contents(ops, c, deltaOf)
    requires var w := Run(kind, ops); c !in w.cleaned && c !in w.flushed && Lists(order, IdsOf(TakenOf(w, c)))
    ensures Get(kind, Run(kind, ops).flows, c).node.counters.sent == TotalSends(deltaOf, order)
  {
    var taken := TakenOf(Run(kind, ops), c);
    RunAccounts(kind, ops, c);
    TakenContents(kind, ops, c, deltaOf);
    SendsByIds(taken, deltaOf);
    MidsList(taken);
    CountingLawful();
    FoldOrderIndependent(Counting(), SendsAsState(deltaOf), order, MidsOf(taken), IdsOf(taken));
    SendsFold(deltaOf, order);
    SendsFold(deltaOf, MidsOf(taken));
  }

  lemma SharderSentExactlyOnce(ops: seq<Op<()>>, c: string, deltaOf: string -> Delta<()>, order: seq<string>)
    requires Contents(ops, c, deltaOf)
    requires var w := Run(Stateless(), ops); c !in w.cleaned && c !in w.flushed && Lists(order, IdsOf(TakenOf(w, c)))
    ensures Get(Stateless(), Run(Stateless(), ops).flows, c).node.counters.sent == TotalSends(deltaOf, order)
  {
    StatelessLawful();
    SentExactlyOnce(Stateless(), ops, c, deltaOf, order);
  }
}
