/** The two joining workers' own parts: the anomaly filter of Query 3 (`src/workers/anomaly_filter/main.py`)
  * and the bank mapper of Query 2 (`src/workers/bank_mapper/main.py`). */
module JoinKinds {
  import opened Options
  import opened Collections
  import opened SideInput

  /** All entries of the side batches, in the order in which the batches were logged. */
  ghost function Entries<V>(deltaOf: string -> Delta<V>, order: seq<string>): Delta<V> {
    if order == [] then [] else Entries(deltaOf, order[..|order| - 1]) + deltaOf(order[|order| - 1])
  }

  // --- anomaly filter ---

  /** A transaction with all the fields the filter requires, its payment format already normalised. */
  datatype Tx = Tx(format: string, amount: real, fromBank: string, fromAccount: string)

  datatype Anomaly = Anomaly(fromBank: string, fromAccount: string, amount: real)

  predicate IsAnomalous(threshold: real, t: Tx, avgs: map<string, real>) {
    t.format in avgs && avgs[t.format] > 0.0 && t.amount < threshold * avgs[t.format]
  }

  function Anomalies(threshold: real, batch: seq<Tx>, avgs: map<string, real>): seq<Anomaly> {
    if batch == [] then []
    else
      var t := batch[|batch| - 1];
      Anomalies(threshold, batch[..|batch| - 1], avgs) +
        if IsAnomalous(threshold, t, avgs) then [Anomaly(t.fromBank, t.fromAccount, t.amount)] else []
  }

  /** The loop of `_filter_and_emit`. */
  method Filter(threshold: real, batch: seq<Tx>, avgs: map<string, real>) returns (out: seq<Anomaly>)
    ensures out == Anomalies(threshold, batch, avgs)
  {
    out := [];
    for i := 0 to |batch|
      invariant out == Anomalies(threshold, batch[..i], avgs)
    {
      var t := batch[i];
      assert batch[..i + 1][..i] == batch[..i];
      if t.format in avgs && avgs[t.format] > 0.0 {
        if t.amount < threshold * avgs[t.format] {
          out := out + [Anomaly(t.fromBank, t.fromAccount, t.amount)];
        }
      }
    }
    assert batch[..|batch|] == batch;
  }

  ghost function AnomalyFilter(threshold: real): Join<seq<Tx>, real, seq<Anomaly>> {
    Join(LastWins, (batch: seq<Tx>, avgs: map<string, real>) => Anomalies(threshold, batch, avgs))
  }

  /** The transactions below the threshold times the average of their format, in order; a format
    * without a (positive) average gives none. */
  ghost function Wanted(threshold: real, batch: seq<Tx>, average: string -> Option<real>): seq<Anomaly> {
    if batch == [] then []
    else
      var t := batch[0];
      (match average(t.format)
       case None => []
       case Some(avg) => if avg > 0.0 && t.amount < threshold * avg then [Anomaly(t.fromBank, t.fromAccount, t.amount)] else [])
      + Wanted(threshold, batch[1..], average)
  }

  lemma {:induction false} WantedOneMore(threshold: real, batch: seq<Tx>, t: Tx, average: string -> Option<real>)
    ensures Wanted(threshold, batch + [t], average) == Wanted(threshold, batch, average) + Wanted(threshold, [t], average)
  {
    if batch == [] {
      assert [] + [t] == [t];
    } else {
      assert (batch + [t])[1..] == batch[1..] + [t];
      WantedOneMore(threshold, batch[1..], t, average);
    }
  }

  /** The filter on a table of averages, in terms of the averages: order and multiplicity included. */
  lemma {:induction false} AnomaliesMeaning(threshold: real, batch: seq<Tx>, avgs: map<string, real>, average: string -> Option<real>)
    requires forall k :: average(k) == if k in avgs then Some(avgs[k]) else None
    ensures Anomalies(threshold, batch, avgs) == Wanted(threshold, batch, average)
  {
    if batch != [] {
      var init, last := batch[..|batch| - 1], batch[|batch| - 1];
      assert batch == init + [last];
      AnomaliesMeaning(threshold, init, avgs, average);
      WantedOneMore(threshold, init, last, average);
      assert Wanted(threshold, [last][1..], average) == [];
    }
  }

  /** The averages of the client, each format's batch entries agreeing on it. */
  ghost predicate Averages<B>(i: Input<B, real>, average: string -> Option<real>) {
    && (forall id, e :: id in i.sideIds && e in i.deltaOf(id) ==> average(e.0) == Some(e.1))
    && (forall k :: average(k).Some? ==> exists id, e :: id in i.sideIds && e in i.deltaOf(id) && e.0 == k)
  }

  /** Query 3's filter: in any run, what is emitted for a message is exactly, in order, the transactions
    * of its batch below the threshold times the true average of their format, never a partial one. */
  lemma AnomaliesAreExact(threshold: real, i: Input<seq<Tx>, real>, average: string -> Option<real>,
                          ops: seq<Op<seq<Tx>, real>>, e: Emission<seq<Anomaly>>)
    requires Feeds(i, ops) && Averages(i, average) && e in Run(AnomalyFilter(threshold), ops).out
    ensures e.out == Wanted(threshold, i.batchOf(e.mid), average)
  {
    var join := AnomalyFilter(threshold);
    EmissionsUseCompleteTable(join, i, ops, e);
    var order := Run(join, ops).order;
    var value := (k: string) => if average(k).Some? then average(k).value else 0.0;
    CompleteTable(LastWins, i.deltaOf, order, value);
    var avgs := TableOf(LastWins, i.deltaOf, order);
    forall k ensures average(k) == if k in avgs then Some(avgs[k]) else None {
      if average(k).Some? {
        var id, x :| id in i.sideIds && x in i.deltaOf(id) && x.0 == k;
        assert id in order;
      }
    }
    AnomaliesMeaning(threshold, i.batchOf(e.mid), avgs, average);
  }

  /** The value that the last entry for the key gives it. */
  ghost function Latest<V>(d: Delta<V>, key: string): Option<V> {
    if d == [] then None
    else if Latest(d[1..], key).Some? then Latest(d[1..], key)
    else if d[0].0 == key then Some(d[0].1) else None
  }

  lemma {:induction false} LatestConcat<V>(a: Delta<V>, b: Delta<V>, key: string)
    ensures Latest(a + b, key) == if Latest(b, key).Some? then Latest(b, key) else Latest(a, key)
  {
    if a == [] {
      assert a + b == b;
    } else {
      assert (a + b)[1..] == a[1..] + b;
      LatestConcat(a[1..], b, key);
    }
  }

  lemma {:induction false} EnterLast(table: map<string, real>, d: Delta<real>, key: string)
    ensures var after := Enter(LastWins, table, d);
      (if key in after then Some(after[key]) else None) ==
      if Latest(d, key).Some? then Latest(d, key) else if key in table then Some(table[key]) else None
  {
    if d != [] {
      var init, last := d[..|d| - 1], d[|d| - 1];
      assert d == init + [last];
      EnterLast(table, init, key);
      LatestConcat(init, [last], key);
      assert Latest([last][1..], key) == None;
    }
  }

  lemma {:induction false} TableLatest(deltaOf: string -> Delta<real>, order: seq<string>, key: string)
    ensures var table := TableOf(LastWins, deltaOf, order);
      (if key in table then Some(table[key]) else None) == Latest(Entries(deltaOf, order), key)
  {
    if order != [] {
      var init, last := order[..|order| - 1], order[|order| - 1];
      TableLatest(deltaOf, init, key);
      EnterLast(TableOf(LastWins, deltaOf, init), deltaOf(last), key);
      LatestConcat(Entries(deltaOf, init), deltaOf(last), key);
    }
  }

  /** The filter without any assumption on the averages: of several entries for one format, in all the
    * client's side batches in the order in which they were logged, the last one counts. */
  lemma AnomaliesUseLatest(threshold: real, i: Input<seq<Tx>, real>, ops: seq<Op<seq<Tx>, real>>, e: Emission<seq<Anomaly>>)
    requires Feeds(i, ops) && e in Run(AnomalyFilter(threshold), ops).out
    ensures var order := Run(AnomalyFilter(threshold), ops).order;
      Lists(order, i.sideIds) &&
      e.out == Wanted(threshold, i.batchOf(e.mid), (k: string) => Latest(Entries(i.deltaOf, order), k))
  {
    var join := AnomalyFilter(threshold);
    EmissionsUseCompleteTable(join, i, ops, e);
    var order := Run(join, ops).order;
    var latest := (k: string) => Latest(Entries(i.deltaOf, order), k);
    var avgs := TableOf(LastWins, i.deltaOf, order);
    forall k ensures latest(k) == if k in avgs then Some(avgs[k]) else None { TableLatest(i.deltaOf, order, k); }
    AnomaliesMeaning(threshold, i.batchOf(e.mid), avgs, latest);
  }

  // --- bank mapper ---

  datatype BankMax = BankMax(bank: string, account: string, amount: real)

  datatype NamedMax = NamedMax(bankName: string, account: string, amount: real)

  const UNKNOWN := "Unknown"

  function NameOf(names: map<string, string>, bank: string): string {
    if bank in names then names[bank] else UNKNOWN
  }

  function Named(batch: seq<BankMax>, names: map<string, string>): seq<NamedMax> {
    seq(|batch|, k requires 0 <= k < |batch| => NamedMax(NameOf(names, batch[k].bank), batch[k].account, batch[k].amount))
  }

  /** The loop of `_map_and_emit`. */
  method MapNames(batch: seq<BankMax>, names: map<string, string>) returns (out: seq<NamedMax>)
    ensures out == Named(batch, names)
  {
    out := [];
    for i := 0 to |batch|
      invariant out == Named(batch[..i], names)
    {
      out := out + [NamedMax(if batch[i].bank in names then names[batch[i].bank] else UNKNOWN, batch[i].account, batch[i].amount)];
    }
    assert batch[..|batch|] == batch;
  }

  ghost function BankMapper(): Join<seq<BankMax>, string, seq<NamedMax>> {
    Join(FirstWins, (batch: seq<BankMax>, names: map<string, string>) => Named(batch, names))
  }

  /** First entry wins: once a bank has a name, no later side batch changes it. */
  lemma {:induction false} NamesStand(names: map<string, string>, d: Delta<string>)
    ensures forall bank :: bank in names ==> bank in Enter(FirstWins, names, d) && Enter(FirstWins, names, d)[bank] == names[bank]
  {
    if d != [] { NamesStand(names, d[..|d| - 1]); }
  }

  /** The name the first entry for the bank gives it. */
  ghost function FirstName(d: Delta<string>, bank: string): Option<string> {
    if d == [] then None else if d[0].0 == bank then Some(d[0].1) else FirstName(d[1..], bank)
  }

  lemma {:induction false} FirstNameOneMore(d: Delta<string>, e: (string, string), bank: string)
    ensures FirstName(d + [e], bank) ==
      if FirstName(d, bank).Some? then FirstName(d, bank) else if e.0 == bank then Some(e.1) else None
  {
    if d == [] {
      assert [] + [e] == [e];
      assert FirstName([e][1..], bank) == None;
    } else {
      assert (d + [e])[1..] == d[1..] + [e];
      FirstNameOneMore(d[1..], e, bank);
    }
  }

  ghost function Lookup(names: map<string, string>, bank: string): Option<string> {
    if bank in names then Some(names[bank]) else None
  }

  lemma {:induction false} EnterFirst(names: map<string, string>, d: Delta<string>, bank: string)
    ensures Lookup(Enter(FirstWins, names, d), bank) == if bank in names then Some(names[bank]) else FirstName(d, bank)
  {
    if d != [] {
      var init, last := d[..|d| - 1], d[|d| - 1];
      assert d == init + [last];
      EnterFirst(names, init, bank);
      FirstNameOneMore(init, last, bank);
    }
  }

  lemma {:induction false} FirstNameConcat(a: Delta<string>, b: Delta<string>, bank: string)
    ensures FirstName(a + b, bank) == if FirstName(a, bank).Some? then FirstName(a, bank) else FirstName(b, bank)
  {
    if a == [] {
      assert a + b == b;
    } else {
      assert (a + b)[1..] == a[1..] + b;
      FirstNameConcat(a[1..], b, bank);
    }
  }

  lemma {:induction false} TableNames(deltaOf: string -> Delta<string>, order: seq<string>, bank: string)
    ensures Lookup(TableOf(FirstWins, deltaOf, order), bank) == FirstName(Entries(deltaOf, order), bank)
  {
    if order != [] {
      var init, last := order[..|order| - 1], order[|order| - 1];
      TableNames(deltaOf, init, bank);
      EnterFirst(TableOf(FirstWins, deltaOf, init), deltaOf(last), bank);
      FirstNameConcat(Entries(deltaOf, init), deltaOf(last), bank);
    }
  }

  lemma {:induction false} NamedIff(deltaOf: string -> Delta<string>, order: seq<string>, bank: string)
    ensures FirstName(Entries(deltaOf, order), bank).Some? <==>
      exists id, e :: id in order && e in deltaOf(id) && e.0 == bank
  {
    if order != [] {
      var init, last := order[..|order| - 1], order[|order| - 1];
      assert order == init + [last];
      NamedIff(deltaOf, init, bank);
      FirstNameConcat(Entries(deltaOf, init), deltaOf(last), bank);
      FirstNameMember(deltaOf(last), bank);
    }
  }

  lemma {:induction false} FirstNameMember(d: Delta<string>, bank: string)
    ensures FirstName(d, bank).Some? <==> exists e :: e in d && e.0 == bank
  {
    if d != [] {
      assert d == [d[0]] + d[1..];
      FirstNameMember(d[1..], bank);
    }
  }

  /** The bank mapper: in any run, what is emitted for a message has one row per maximum of its batch, in
    * order, with that maximum's account and amount, and the name that the first entry for its bank gives
    * in the order of all the client's side batches; "Unknown" if no side batch names the bank. */
  lemma BankNamesAreExact(i: Input<seq<BankMax>, string>, ops: seq<Op<seq<BankMax>, string>>,
                          e: Emission<seq<NamedMax>>, k: nat)
    requires Feeds(i, ops) && e in Run(BankMapper(), ops).out && k < |i.batchOf(e.mid)|
    ensures var order, row := Run(BankMapper(), ops).order, i.batchOf(e.mid)[k];
      var first := FirstName(Entries(i.deltaOf, order), row.bank);
      && Lists(order, i.sideIds) && |e.out| == |i.batchOf(e.mid)|
      && e.out[k].account == row.account && e.out[k].amount == row.amount
      && e.out[k].bankName == first.GetOr("Unknown")
      && (first.None? <==> forall id, x :: id in i.sideIds && x in i.deltaOf(id) ==> x.0 != row.bank)
  {
    var order, row := Run(BankMapper(), ops).order, i.batchOf(e.mid)[k];
    EmissionsUseCompleteTable(BankMapper(), i, ops, e);
    TableNames(i.deltaOf, order, row.bank);
    NamedIff(i.deltaOf, order, row.bank);
  }
}
