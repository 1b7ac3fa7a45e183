/** Query 2's maxima: the largest payment per bank, computed by sharded aggregators and reducers
  * (`src/workers/bank_max_aggregator/main.py`, `src/workers/bank_max_reducer/main.py`), against the
  * single scan of `build_expected.py`. */
module BankMax {
  import opened Collections
  import opened Options
  import opened Ids
  import opened ShardedFlush
  import opened Routing

  /** The account and amount of a bank's best payment so far. */
  datatype Best = Best(account: string, amount: real)

  /** One payment (or partial maximum) of a bank, the bank id in its normalised form. */
  datatype Entry = Entry(bank: string, best: Best)

  /** A transaction as the aggregator gets it: `fromBank` is the parsed bank number. */
  datatype Payment = Payment(fromBank: Option<int>, fromAccount: Option<string>, amount: Option<real>)

  // --- the order ---

  /** Python's `a < b` on strings. */
  predicate StrLess(a: string, b: string) {
    b != [] && (a == [] || a[0] < b[0] || (a[0] == b[0] && StrLess(a[1..], b[1..])))
  }

  /** `_beats`: a larger amount, or the same amount and a smaller account. */
  predicate Beats(x: Best, y: Best) {
    x.amount > y.amount || (x.amount == y.amount && StrLess(x.account, y.account))
  }

  /** At index n the strings differ for the first time: a ends there, or has the smaller character. */
  ghost predicate SmallerAt(a: string, b: string, n: nat) {
    n <= |a| && n < |b| && a[..n] == b[..n] && (n == |a| || a[n] < b[n])
  }

  ghost predicate ComesBefore(a: string, b: string) { exists n: nat :: SmallerAt(a, b, n) }

  lemma SameStart(a: string, b: string, n: nat)
    requires SmallerAt(a, b, n)
    ensures n > 0 ==> a != [] && b != [] && a[0] == b[0]
  {
    if n > 0 { assert a[..n][0] == b[..n][0]; }
  }

  /** What the order of strings is, index by index. */
  lemma {:induction false} StrLessMeaning(a: string, b: string)
    ensures StrLess(a, b) <==> ComesBefore(a, b)
  {
    if a != [] && b != [] && a[0] == b[0] {
      StrLessMeaning(a[1..], b[1..]);
      if n: nat :| SmallerAt(a[1..], b[1..], n) {
        assert a[..n + 1] == [a[0]] + a[1..][..n] && b[..n + 1] == [b[0]] + b[1..][..n];
        assert SmallerAt(a, b, n + 1);
      }
      if n: nat :| SmallerAt(a, b, n) {
        assert n > 0;
        assert a[1..][..n - 1] == a[..n][1..] && b[1..][..n - 1] == b[..n][1..];
        assert SmallerAt(a[1..], b[1..], n - 1);
      }
    } else {
      if StrLess(a, b) { assert SmallerAt(a, b, 0); }
      if n: nat :| SmallerAt(a, b, n) { SameStart(a, b, n); }
    }
  }

  lemma {:induction false} StrLessTransitive(a: string, b: string, c: string)
    requires StrLess(a, b) && StrLess(b, c)
    ensures StrLess(a, c)
  {
    if a != [] && a[0] == b[0] && b[0] == c[0] { StrLessTransitive(a[1..], b[1..], c[1..]); }
  }

  lemma {:induction false} StrLessTotal(a: string, b: string)
    ensures a != b ==> (StrLess(a, b) <==> !StrLess(b, a))
    ensures a == b ==> !StrLess(a, b)
  {
    if a != [] && b != [] && a[0] == b[0] {
      StrLessTotal(a[1..], b[1..]);
      assert a == [a[0]] + a[1..] && b == [b[0]] + b[1..];
    }
  }

  /** `_beats` is a strict total order: of two different partial maxima exactly one beats the other. */
  lemma BeatsTotal(x: Best, y: Best)
    ensures x != y ==> (Beats(x, y) <==> !Beats(y, x))
    ensures x == y ==> !Beats(x, y)
  {
    StrLessTotal(x.account, y.account);
  }

  lemma BeatsTransitive(x: Best, y: Best, z: Best)
    requires Beats(x, y) && Beats(y, z)
    ensures Beats(x, z)
  {
    if x.amount == y.amount && y.amount == z.amount { StrLessTransitive(x.account, y.account, z.account); }
  }

  // --- what a table of maxima means ---

  type Table = map<string, Best>

  ghost predicate AtLeast(x: Best, y: Best) { x == y || Beats(x, y) }

  /** The table holds, for exactly the banks of es, the one entry no other entry beats. */
  ghost predicate IsMaximum(m: Table, es: set<Entry>) {
    && (forall b :: b in m ==> Entry(b, m[b]) in es)
    && (forall e :: e in es ==> e.bank in m && AtLeast(m[e.bank], e.best))
  }

  /** For exactly the banks of es: an entry of es whose amount is the largest that es has for the bank,
    * and of the accounts with that amount the first in the order of strings. */
  ghost predicate LargestFirst(m: Table, es: set<Entry>) {
    && (forall b :: b in m ==> Entry(b, m[b]) in es)
    && (forall e :: e in es ==> e.bank in m && m[e.bank].amount >= e.best.amount)
    && (forall e :: e in es && e.bank in m && e.best.amount == m[e.bank].amount ==>
          !ComesBefore(e.best.account, m[e.bank].account))
  }

  /** What a table of maxima is, in terms of amounts and account names. */
  lemma MaximumMeaning(m: Table, es: set<Entry>)
    ensures IsMaximum(m, es) <==> LargestFirst(m, es)
  {
    hide StrLess, ComesBefore;
    forall e | e in es && e.bank in m
      ensures AtLeast(m[e.bank], e.best) <==>
        m[e.bank].amount >= e.best.amount &&
        (e.best.amount == m[e.bank].amount ==> !ComesBefore(e.best.account, m[e.bank].account))
    {
      StrLessMeaning(e.best.account, m[e.bank].account);
      StrLessTotal(e.best.account, m[e.bank].account);
    }
  }

  lemma MaximumUnique(m: Table, m': Table, es: set<Entry>)
    requires IsMaximum(m, es) && IsMaximum(m', es)
    ensures m == m'
  {
    forall b ensures b in m <==> b in m' {
      if b in m { assert Entry(b, m[b]) in es; }
      if b in m' { assert Entry(b, m'[b]) in es; }
    }
    forall b | b in m ensures m[b] == m'[b] {
      BeatsTotal(m[b], m'[b]);
      assert AtLeast(m[b], Entry(b, m'[b]).best) && AtLeast(m'[b], Entry(b, m[b]).best);
    }
  }

  function Better(x: Best, y: Best): Best { if Beats(y, x) then y else x }

  function Put(m: Table, b: string, x: Best): Table { m[b := if b in m then Better(m[b], x) else x] }

  lemma PutMaximum(m: Table, es: set<Entry>, e: Entry)
    requires IsMaximum(m, es)
    ensures IsMaximum(Put(m, e.bank, e.best), es + {e})
  {
    var m' := Put(m, e.bank, e.best);
    forall f | f in es + {e} ensures f.bank in m' && AtLeast(m'[f.bank], f.best) {
      if f.bank == e.bank && e.bank in m {
        BeatsTotal(m[e.bank], e.best);
        if f in es && Beats(e.best, m[e.bank]) && m[e.bank] != f.best { BeatsTransitive(e.best, m[e.bank], f.best); }
      }
    }
  }

  /** Merging a delta into a table, bank by bank. */
  function Merge(m: Table, d: Table): Table {
    map b | b in m.Keys + d.Keys :: if b !in m then d[b] else if b !in d then m[b] else Better(m[b], d[b])
  }

  lemma MergeMaximum(m: Table, d: Table, es: set<Entry>, fs: set<Entry>)
    requires IsMaximum(m, es) && IsMaximum(d, fs)
    ensures IsMaximum(Merge(m, d), es + fs)
  {
    var r := Merge(m, d);
    forall e | e in es + fs ensures e.bank in r && AtLeast(r[e.bank], e.best) {
      var b := e.bank;
      if b in m && b in d {
        BeatsTotal(m[b], d[b]);
        if Beats(d[b], m[b]) && Beats(m[b], e.best) { BeatsTransitive(d[b], m[b], e.best); }
        if Beats(m[b], d[b]) && Beats(d[b], e.best) { BeatsTransitive(m[b], d[b], e.best); }
      }
    }
  }

  lemma BetterLaws(x: Best, y: Best, z: Best)
    ensures Better(x, y) == Better(y, x)
    ensures Better(Better(x, y), z) == Better(x, Better(y, z))
  {
    BeatsTotal(x, y);
    BeatsTotal(y, z);
    BeatsTotal(x, z);
    if Beats(x, y) && Beats(y, z) { BeatsTransitive(x, y, z); }
    if Beats(z, y) && Beats(y, x) { BeatsTransitive(z, y, x); }
    if Beats(y, x) && Beats(x, z) { BeatsTransitive(y, x, z); }
    if Beats(y, z) && Beats(z, x) { BeatsTransitive(y, z, x); }
    if Beats(x, z) && Beats(z, y) { BeatsTransitive(x, z, y); }
    if Beats(z, x) && Beats(x, y) { BeatsTransitive(z, x, y); }
  }

  /** Deltas may be merged in any order. */
  lemma MergeCommutes(m: Table, d: Table, e: Table)
    ensures Merge(Merge(m, d), e) == Merge(Merge(m, e), d)
  {
    var l, r := Merge(Merge(m, d), e), Merge(Merge(m, e), d);
    assert l.Keys == r.Keys;
    forall b | b in l ensures l[b] == r[b] {
      if b in d && b in e {
        BetterLaws(d[b], e[b], d[b]);
        if b in m {
          BetterLaws(m[b], d[b], e[b]);
          BetterLaws(m[b], e[b], d[b]);
        }
      }
    }
  }

  lemma MergeIntoEmpty(d: Table)
    ensures Merge(map[], d) == d
  {
  }

  // --- the reference scan ---

  predicate Usable(p: Payment) { p.fromBank.Some? && p.fromAccount.Some? && p.amount.Some? }

  ghost function EntryOf(p: Payment): Entry
    requires Usable(p)
  {
    Entry(Str(p.fromBank.value), Best(p.fromAccount.value, p.amount.value))
  }

  ghost function EntriesOf(ps: seq<Payment>): set<Entry> {
    set p | p in ps && Usable(p) :: EntryOf(p)
  }

  /** The entries are those of the payments that have all three fields. */
  lemma EntriesMeaning(ps: seq<Payment>, e: Entry)
    ensures e in EntriesOf(ps) <==>
      exists n :: Payment(Some(n), Some(e.best.account), Some(e.best.amount)) in ps && e.bank == Str(n)
  {
    if e in EntriesOf(ps) {
      var p :| p in ps && Usable(p) && EntryOf(p) == e;
      assert p == Payment(Some(p.fromBank.value), Some(e.best.account), Some(e.best.amount));
    }
    if n :| Payment(Some(n), Some(e.best.account), Some(e.best.amount)) in ps && e.bank == Str(n) {
      assert EntryOf(Payment(Some(n), Some(e.best.account), Some(e.best.amount))) == e;
    }
  }

  lemma OneMore(ps: seq<Payment>, i: nat)
    requires i < |ps|
    ensures EntriesOf(ps[..i + 1]) == EntriesOf(ps[..i]) + if Usable(ps[i]) then {EntryOf(ps[i])} else {}
  {
    assert ps[..i + 1] == ps[..i] + [ps[i]];
  }

  /** The scan of `_build_query_2` over payments that have all their fields. */
  method BuildQuery2Maxima(ps: seq<Payment>) returns (m: Table)
    requires forall p :: p in ps ==> Usable(p)
    ensures IsMaximum(m, EntriesOf(ps)) && LargestFirst(m, EntriesOf(ps))
  {
    m := map[];
    for i := 0 to |ps|
      invariant IsMaximum(m, EntriesOf(ps[..i]))
    {
      var p := ps[i];
      assert p in ps && Usable(p);
      var bank, amount, account := Str(p.fromBank.value), p.amount.value, p.fromAccount.value;
      OneMore(ps, i);
      PutMaximum(m, EntriesOf(ps[..i]), EntryOf(p));
      if bank !in m || amount > m[bank].amount || (StrLess(account, m[bank].account) && amount == m[bank].amount) {
        m := m[bank := Best(account, amount)];
      } else {
        assert Put(m, bank, Best(account, amount)) == m;
      }
    }
    assert ps[..|ps|] == ps;
    MaximumMeaning(m, EntriesOf(ps));
  }

  // --- aggregator and reducer ---

  /** The aggregator's loop over a batch, skipping transactions with a missing field. */
  method BatchMaxima(batch: seq<Payment>) returns (delta: Table)
    ensures IsMaximum(delta, EntriesOf(batch)) && LargestFirst(delta, EntriesOf(batch))
  {
    delta := map[];
    for i := 0 to |batch|
      invariant IsMaximum(delta, EntriesOf(batch[..i]))
    {
      var p := batch[i];
      OneMore(batch, i);
      if Usable(p) {
        var bank := Str(p.fromBank.value);
        var best := Best(p.fromAccount.value, p.amount.value);
        PutMaximum(delta, EntriesOf(batch[..i]), EntryOf(p));
        if bank !in delta || Beats(best, delta[bank]) {
          delta := delta[bank := best];
        } else {
          assert Put(delta, bank, best) == delta;
        }
      }
    }
    assert batch[..|batch|] == batch;
    MaximumMeaning(delta, EntriesOf(batch));
  }

  /** The reducer's loop over a batch of partial maxima. */
  method PartialMaxima(batch: seq<Entry>) returns (delta: Table)
    ensures IsMaximum(delta, Elems(batch)) && LargestFirst(delta, Elems(batch))
  {
    delta := map[];
    for i := 0 to |batch|
      invariant IsMaximum(delta, Elems(batch[..i]))
    {
      var e := batch[i];
      PutMaximum(delta, Elems(batch[..i]), e);
      assert Elems(batch[..i + 1]) == Elems(batch[..i]) + {e};
      if e.bank !in delta || Beats(e.best, delta[e.bank]) {
        delta := delta[e.bank := e.best];
      } else {
        assert Put(delta, e.bank, e.best) == delta;
      }
    }
    assert batch[..|batch|] == batch;
    MaximumMeaning(delta, Elems(batch));
  }

  /** The per-client table that aggregator and reducer keep alike. `taken` is history: the entries
    * the table summarises. */
  class Maxima {
    var table: map<string, Table>
    ghost var taken: map<string, set<Entry>>

    function TableOf(c: string): Table
      reads this`table
    {
      if c in table then table[c] else map[]
    }

    ghost function TakenOf(c: string): set<Entry>
      reads this`taken
    {
      if c in taken then taken[c] else {}
    }

    ghost predicate Valid()
      reads this
    {
      forall c :: IsMaximum(TableOf(c), TakenOf(c))
    }

    constructor ()
      ensures Valid() && forall c :: TableOf(c) == map[] && TakenOf(c) == {}
    {
      table, taken := map[], map[];
    }

    /** `_apply_delta`: merge a delta into the flow's table. */
    method ApplyDelta(client: string, delta: Table)
      modifies this`table
      ensures TableOf(client) == Merge(old(TableOf(client)), delta)
      ensures forall c :: c != client ==> TableOf(c) == old(TableOf(c))
    {
      var flowMax := TableOf(client);
      ghost var before := flowMax;
      var todo := delta.Keys;
      while todo != {}
        invariant todo <= delta.Keys
        invariant flowMax.Keys == before.Keys + (delta.Keys - todo)
        invariant forall b :: b in flowMax ==>
          flowMax[b] == if b in todo || b !in delta then before[b] else Merge(before, delta)[b]
        decreases todo
      {
        var bank :| bank in todo;
        todo := todo - {bank};
        if bank !in flowMax || Beats(delta[bank], flowMax[bank]) {
          flowMax := flowMax[bank := delta[bank]];
        }
      }
      table := table[client := flowMax];
      assert flowMax == Merge(before, delta);
    }

    /** The aggregator's `_handle_data_message`: the batch's own maxima, merged in. */
    method HandleTransactions(client: string, batch: seq<Payment>) returns (delta: Table)
      requires Valid()
      modifies this
      ensures Valid()
      ensures IsMaximum(delta, EntriesOf(batch)) && TableOf(client) == Merge(old(TableOf(client)), delta)
      ensures TakenOf(client) == old(TakenOf(client)) + EntriesOf(batch)
      ensures forall c :: c != client ==> TakenOf(c) == old(TakenOf(c)) && TableOf(c) == old(TableOf(c))
    {
      delta := BatchMaxima(batch);
      Absorb(client, delta, EntriesOf(batch));
    }

    /** The reducer's `_handle_data_message`: the same on partial maxima. */
    method HandlePartials(client: string, batch: seq<Entry>) returns (delta: Table)
      requires Valid()
      modifies this
      ensures Valid()
      ensures IsMaximum(delta, Elems(batch)) && TableOf(client) == Merge(old(TableOf(client)), delta)
      ensures TakenOf(client) == old(TakenOf(client)) + Elems(batch)
      ensures forall c :: c != client ==> TakenOf(c) == old(TakenOf(c)) && TableOf(c) == old(TableOf(c))
    {
      delta := PartialMaxima(batch);
      Absorb(client, delta, Elems(batch));
    }

    method Absorb(client: string, delta: Table, ghost es: set<Entry>)
      requires Valid() && IsMaximum(delta, es)
      modifies this
      ensures Valid() && TableOf(client) == Merge(old(TableOf(client)), delta)
      ensures TakenOf(client) == old(TakenOf(client)) + es
      ensures forall c :: c != client ==> TakenOf(c) == old(TakenOf(c)) && TableOf(c) == old(TableOf(c))
    {
      hide IsMaximum, Merge;
      MergeMaximum(TableOf(client), delta, TakenOf(client), es);
      ApplyDelta(client, delta);
      taken := taken[client := TakenOf(client) + es];
    }
  }

  // --- two levels ---

  ghost function TableEntries(m: Table): set<Entry> { set b | b in m :: Entry(b, m[b]) }

  /** Aggregator i has taken the payments fed[i] and flushes its table; reducer j has received
    * partials in any order and number, and holds table reduced[j]. */
  datatype Execution = Execution(fed: seq<set<Entry>>, local: seq<Table>, partials: seq<seq<Entry>>,
                                 batches: seq<seq<Batch<Entry>>>, received: seq<seq<seq<Entry>>>, reduced: seq<Table>)

  ghost predicate Executes(sh: Sharding<Entry>, x: Execution) {
    && sh.shards > 0
    && (forall e: Entry, f: Entry :: e.bank == f.bank ==> sh.hashOf(e) == sh.hashOf(f))
    && |x.fed| == |x.local| == |x.partials|
    && (forall i :: 0 <= i < |x.fed| ==> IsMaximum(x.local[i], x.fed[i]))
    && (forall i, e :: 0 <= i < |x.fed| ==> (e in x.partials[i] <==> e in TableEntries(x.local[i])))
    && Flushed(sh, x.partials, x.batches) && Delivered(x.batches, x.received)
    && |x.received| == |x.reduced| == sh.shards
    && (forall j :: 0 <= j < |x.reduced| ==> IsMaximum(x.reduced[j], Elements(x.received[j])))
  }

  ghost predicate FedToSome(x: Execution, e: Entry) { exists i :: 0 <= i < |x.fed| && e in x.fed[i] }

  lemma {:induction false} ReducerSees(sh: Sharding<Entry>, x: Execution, j: nat, e: Entry)
    requires Executes(sh, x) && j < |x.received|
    ensures e in Elements(x.received[j]) <==>
      sh.hashOf(e) % sh.shards == j && exists i :: 0 <= i < |x.local| && e in TableEntries(x.local[i])
  {
    Routed(sh, x.partials, x.batches, x.received, j, e);
  }

  ghost function HomeOf(sh: Sharding<Entry>, bank: string): nat
    requires sh.shards > 0
  {
    sh.hashOf(Entry(bank, Best("", 0.0))) % sh.shards
  }

  /** What a reducer holds was fed to some aggregator, and the reducer is its bank's home. */
  lemma {:induction false} ReducedWasFed(sh: Sharding<Entry>, x: Execution, bank: string, j: nat)
    requires Executes(sh, x) && j < |x.reduced| && bank in x.reduced[j]
    ensures FedToSome(x, Entry(bank, x.reduced[j][bank])) && HomeOf(sh, bank) == j
  {
    var e := Entry(bank, x.reduced[j][bank]);
    assert e in Elements(x.received[j]);
    ReducerSees(sh, x, j, e);
    assert sh.hashOf(e) == sh.hashOf(Entry(bank, Best("", 0.0)));
    var i :| 0 <= i < |x.local| && e in TableEntries(x.local[i]);
    assert e in x.fed[i];
  }

  /** Whatever was fed to an aggregator is at most its home reducer's result. */
  lemma {:induction false} FedIsReduced(sh: Sharding<Entry>, x: Execution, e: Entry, j: nat)
    requires Executes(sh, x) && FedToSome(x, e) && j < |x.reduced| && HomeOf(sh, e.bank) == j
    ensures e.bank in x.reduced[j] && AtLeast(x.reduced[j][e.bank], e.best)
  {
    var i :| 0 <= i < |x.fed| && e in x.fed[i];
    assert sh.hashOf(e) == sh.hashOf(Entry(e.bank, Best("", 0.0)));
    LocalReachesReducer(sh, x, i, e, j);
  }

  /** Two levels equal one scan: the bank's home reducer, and no other, has a result for the bank,
    * and it is the maximum over everything fed to all the aggregators. */
  lemma {:induction false} TwoLevelMaximum(sh: Sharding<Entry>, x: Execution, reference: Table, all: set<Entry>, bank: string, j: nat)
    requires Executes(sh, x) && j < |x.reduced|
    requires forall e :: e in all <==> FedToSome(x, e)
    requires IsMaximum(reference, all)
    ensures bank in x.reduced[j] <==> bank in reference && HomeOf(sh, bank) == j
    ensures bank in x.reduced[j] ==> x.reduced[j][bank] == reference[bank]
  {
    if bank in reference && HomeOf(sh, bank) == j {
      FedIsReduced(sh, x, Entry(bank, reference[bank]), j);
    }
    if bank in x.reduced[j] {
      ReducedWasFed(sh, x, bank, j);
      var e := Entry(bank, x.reduced[j][bank]);
      assert e in all;
      FedIsReduced(sh, x, Entry(bank, reference[bank]), j);
      BeatsTotal(e.best, reference[bank]);
    }
  }

  /** Whatever was fed to an aggregator is at most its home reducer's result. */
  lemma {:induction false} LocalReachesReducer(sh: Sharding<Entry>, x: Execution, i: nat, e: Entry, j: nat)
    requires Executes(sh, x) && i < |x.fed| && e in x.fed[i] && j < |x.reduced| && sh.hashOf(e) % sh.shards == j
    ensures e.bank in x.reduced[j] && AtLeast(x.reduced[j][e.bank], e.best)
  {
    var b := e.bank;
    var l := Entry(b, x.local[i][b]);
    assert l in TableEntries(x.local[i]);
    assert sh.hashOf(l) == sh.hashOf(e);
    ReducerSees(sh, x, j, l);
    assert AtLeast(x.reduced[j][b], l.best) && AtLeast(l.best, e.best);
    if Beats(x.reduced[j][b], l.best) && Beats(l.best, e.best) {
      BeatsTransitive(x.reduced[j][b], l.best, e.best);
    }
  }
}
