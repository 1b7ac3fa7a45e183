/** The two levels of maxima carried out by the workers' own methods, against the single scan. */
module BankMaxRun {
  import opened Collections
  import opened BankMax
  import opened ShardedFlush
  import opened Routing

  const CLIENT := "client"

  ghost function AllEntries(batches: seq<seq<Payment>>): set<Entry> {
    set b, p | b in batches && p in b && Usable(p) :: EntryOf(p)
  }

  lemma AllEntriesOneMore(batches: seq<seq<Payment>>, i: nat)
    requires i < |batches|
    ensures AllEntries(batches[..i + 1]) == AllEntries(batches[..i]) + EntriesOf(batches[i])
  {
    assert batches[..i + 1] == batches[..i] + [batches[i]];
  }

  method RunAggregator(batches: seq<seq<Payment>>) returns (m: Table)
    ensures IsMaximum(m, AllEntries(batches))
  {
    var worker := new Maxima();
    for i := 0 to |batches|
      invariant worker.Valid() && worker.TakenOf(CLIENT) == AllEntries(batches[..i])
    {
      var _ := worker.HandleTransactions(CLIENT, batches[i]);
      AllEntriesOneMore(batches, i);
    }
    assert batches[..|batches|] == batches;
    m := worker.TableOf(CLIENT);
  }

  method RunReducer(received: seq<seq<Entry>>) returns (m: Table)
    ensures IsMaximum(m, Elements(received))
  {
    var worker := new Maxima();
    for i := 0 to |received|
      invariant worker.Valid() && worker.TakenOf(CLIENT) == Elements(received[..i])
    {
      var _ := worker.HandlePartials(CLIENT, received[i]);
      ElementsOneMore(received, i);
    }
    assert received[..|received|] == received;
    m := worker.TableOf(CLIENT);
  }

  /** `list(flow_max.values())`. */
  method Partials(m: Table) returns (list: seq<Entry>)
    ensures Elems(list) == TableEntries(m) && NoDups(list)
  {
    list := [];
    var todo := m.Keys;
    while todo != {}
      invariant todo <= m.Keys && NoDups(list)
      invariant forall e :: e in list <==> e.bank in m && e.bank !in todo && m[e.bank] == e.best
      decreases todo
    {
      var b :| b in todo;
      todo := todo - {b};
      list := list + [Entry(b, m[b])];
    }
    forall e ensures e in list <==> e in TableEntries(m) {
      assert e in TableEntries(m) <==> e.bank in m && Entry(e.bank, m[e.bank]) == e;
    }
  }

  /** Every aggregator takes its batches in and lists its partial maxima. */
  method RunAggregators(input: seq<seq<seq<Payment>>>) returns (local: seq<Table>, partials: seq<seq<Entry>>)
    ensures |local| == |partials| == |input|
    ensures forall i :: 0 <= i < |input| ==> IsMaximum(local[i], AllEntries(input[i]))
    ensures forall i :: 0 <= i < |input| ==> Elems(partials[i]) == TableEntries(local[i])
  {
    local, partials := [], [];
    for i := 0 to |input|
      invariant |local| == |partials| == i
      invariant forall j :: 0 <= j < i ==> IsMaximum(local[j], AllEntries(input[j]))
      invariant forall j :: 0 <= j < i ==> Elems(partials[j]) == TableEntries(local[j])
    {
      var m := RunAggregator(input[i]);
      var list := Partials(m);
      local, partials := local + [m], partials + [list];
    }
  }

  method RunReducers(received: seq<seq<seq<Entry>>>) returns (reduced: seq<Table>)
    ensures |reduced| == |received|
    ensures forall j :: 0 <= j < |received| ==> IsMaximum(reduced[j], Elements(received[j]))
  {
    reduced := [];
    for j := 0 to |received|
      invariant |reduced| == j && forall l :: 0 <= l < j ==> IsMaximum(reduced[l], Elements(received[l]))
    {
      var m := RunReducer(received[j]);
      reduced := reduced + [m];
    }
  }

  /** All aggregators and reducers: an execution in the sense of module BankMax. */
  method RunTwoLevels(sh: Sharding<Entry>, input: seq<seq<seq<Payment>>>) returns (reduced: seq<Table>, ghost x: Execution)
    requires ValidSharding(sh) && forall e: Entry, f: Entry :: e.bank == f.bank ==> sh.hashOf(e) == sh.hashOf(f)
    ensures Executes(sh, x) && x.reduced == reduced && |reduced| == sh.shards
    ensures |x.fed| == |input| && forall i :: 0 <= i < |input| ==> x.fed[i] == AllEntries(input[i])
  {
    hide IsMaximum, IsFlushOf;
    var local, partials := RunAggregators(input);
    var batches := FlushAll(sh, partials);
    var received := Inboxes(batches, sh.shards);
    InboxesDeliver(batches, sh.shards);
    reduced := RunReducers(received);
    ghost var fed := seq(|input|, i requires 0 <= i < |input| => AllEntries(input[i]));
    x := Execution(fed, local, partials, batches, received, reduced);
    assert forall i, e :: 0 <= i < |fed| ==> (e in partials[i] <==> e in Elems(partials[i]));
  }

  /** Both levels against the scan: a bank's home reducer, and no other, ends with the maximum that
    * `BuildQuery2Maxima` finds in the payments of all the aggregators. */
  method TwoLevelsAndScan(sh: Sharding<Entry>, input: seq<seq<seq<Payment>>>, ps: seq<Payment>)
    returns (reduced: seq<Table>, reference: Table)
    requires ValidSharding(sh) && forall e: Entry, f: Entry :: e.bank == f.bank ==> sh.hashOf(e) == sh.hashOf(f)
    requires forall p :: p in ps ==> Usable(p)
    requires forall e :: e in EntriesOf(ps) <==> exists i :: 0 <= i < |input| && e in AllEntries(input[i])
    ensures |reduced| == sh.shards && forall bank, j :: 0 <= j < sh.shards ==>
      (bank in reduced[j] <==> bank in reference && HomeOf(sh, bank) == j) &&
      (bank in reduced[j] ==> reduced[j][bank] == reference[bank])
    ensures IsMaximum(reference, EntriesOf(ps)) && LargestFirst(reference, EntriesOf(ps))
  {
    hide IsMaximum, LargestFirst, Executes, HomeOf;
    ghost var x: Execution;
    reduced, x := RunTwoLevels(sh, input);
    reference := BuildQuery2Maxima(ps);
    forall bank, j | 0 <= j < sh.shards
      ensures (bank in reduced[j] <==> bank in reference && HomeOf(sh, bank) == j) &&
        (bank in reduced[j] ==> reduced[j][bank] == reference[bank])
    {
      TwoLevelMaximum(sh, x, reference, EntriesOf(ps), bank, j);
    }
  }
}
