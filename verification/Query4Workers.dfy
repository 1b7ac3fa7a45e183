/** The five stages of query 4: what each worker stores, and what it creates from it. */
module Query4Workers {
  import opened Collections
  import opened Options
  import opened Query4Model
  import opened ShardedFlush

  // --- stage 1: the bidirectional sharder ---

  /** The two edges of a transaction, if all its fields are there. */
  function EdgesOf(t: Transaction): seq<AccountEdge> {
    if !IsComplete(t) then []
    else
      var src, dst := TransferOf(t).src, TransferOf(t).dst;
      [AccountEdge(src, dst, true), AccountEdge(dst, src, false)]
  }

  function AllEdges(payload: seq<Transaction>): seq<AccountEdge> {
    if payload == [] then []
    else AllEdges(payload[..|payload| - 1]) + EdgesOf(payload[|payload| - 1])
  }

  /** `setdefault(shard, []).append(edge)`. */
  function AppendTo(m: map<nat, seq<AccountEdge>>, shard: nat, edge: AccountEdge): map<nat, seq<AccountEdge>> {
    m[shard := (if shard in m then m[shard] else []) + [edge]]
  }

  ghost predicate Groups(m: map<nat, seq<AccountEdge>>, edges: seq<AccountEdge>, keyOf: AccountEdge -> nat) {
    forall s: nat :: if s in m then m[s] == WithKey(edges, keyOf, s) != [] else WithKey(edges, keyOf, s) == []
  }

  lemma AppendGroups(m: map<nat, seq<AccountEdge>>, edges: seq<AccountEdge>, keyOf: AccountEdge -> nat, edge: AccountEdge)
    requires Groups(m, edges, keyOf)
    ensures Groups(AppendTo(m, keyOf(edge), edge), edges + [edge], keyOf)
  {
    assert (edges + [edge])[..|edges|] == edges;
  }

  ghost predicate ListedAt(m: map<nat, seq<AccountEdge>>, shard: nat, e: AccountEdge) { shard in m && e in m[shard] }

  /** Of every transaction that has its four fields, the sender's edge is in the list of the sender's
    * shard and the receiver's in that of the receiver's. */
  ghost predicate EveryTransferListed(payload: seq<Transaction>, sh: Sharding<AccountEdge>, m: map<nat, seq<AccountEdge>>)
    requires ValidSharding(sh)
  {
    forall fb, fa, tb, ta :: Transaction(Some(fb), Some(fa), Some(tb), Some(ta)) in payload ==>
      var sent := AccountEdge(Account(fb, fa), Account(tb, ta), true);
      var received := AccountEdge(Account(tb, ta), Account(fb, fa), false);
      ListedAt(m, sh.hashOf(sent) % sh.shards, sent) && ListedAt(m, sh.hashOf(received) % sh.shards, received)
  }

  /** The transaction with the four fields that an edge stands for. */
  ghost function TransactionOf(e: AccountEdge): Transaction {
    if e.isSender then Transaction(Some(e.node.bank), Some(e.node.account), Some(e.other.bank), Some(e.other.account))
    else Transaction(Some(e.other.bank), Some(e.other.account), Some(e.node.bank), Some(e.node.account))
  }

  /** Every edge listed comes from such a transaction, and is in its account's shard. */
  ghost predicate OnlyTransfersListed(payload: seq<Transaction>, sh: Sharding<AccountEdge>, m: map<nat, seq<AccountEdge>>)
    requires ValidSharding(sh)
  {
    forall shard, e :: ListedAt(m, shard, e) ==> TransactionOf(e) in payload && shard == sh.hashOf(e) % sh.shards
  }

  /** Both edges of exactly the transactions that have their four fields. */
  lemma {:induction false} AllEdgesMeaning(payload: seq<Transaction>, e: AccountEdge)
    ensures e in AllEdges(payload) <==> TransactionOf(e) in payload
  {
    if payload != [] {
      var n := |payload| - 1;
      assert payload == payload[..n] + [payload[n]];
      AllEdgesMeaning(payload[..n], e);
      assert e in EdgesOf(payload[n]) <==> TransactionOf(e) == payload[n];
    }
  }

  lemma ListedMeaning(payload: seq<Transaction>, sh: Sharding<AccountEdge>, m: map<nat, seq<AccountEdge>>)
    requires ValidSharding(sh) && Groups(m, AllEdges(payload), ShardKey(sh))
    ensures EveryTransferListed(payload, sh, m) && OnlyTransfersListed(payload, sh, m)
  {
    forall shard: nat, e ensures ListedAt(m, shard, e) <==> TransactionOf(e) in payload && shard == sh.hashOf(e) % sh.shards {
      AllEdgesMeaning(payload, e);
      WithKeyMember(AllEdges(payload), ShardKey(sh), shard, e);
    }
    hide ListedAt, Groups;
  }

  /** `_create_edges_by_shard`: both edges of every complete transaction, grouped by the shard of
    * the account they belong to, in order. */
  method CreateEdgesByShard(payload: seq<Transaction>, sh: Sharding<AccountEdge>)
    returns (edgesByShard: map<nat, seq<AccountEdge>>)
    requires ValidSharding(sh)
    ensures Groups(edgesByShard, AllEdges(payload), ShardKey(sh))
    ensures EveryTransferListed(payload, sh, edgesByShard) && OnlyTransfersListed(payload, sh, edgesByShard)
  {
    edgesByShard := map[];
    for i := 0 to |payload|
      invariant Groups(edgesByShard, AllEdges(payload[..i]), ShardKey(sh))
    {
      var t := payload[i];
      assert payload[..i + 1][..i] == payload[..i];
      if t.fromBank.None? || t.fromAccount.None? || t.toBank.None? || t.toAccount.None? {
        assert AllEdges(payload[..i + 1]) == AllEdges(payload[..i]);
        continue;
      }
      var src, dst := Account(t.fromBank.value, t.fromAccount.value), Account(t.toBank.value, t.toAccount.value);
      var sent, received := AccountEdge(src, dst, true), AccountEdge(dst, src, false);
      ghost var before := AllEdges(payload[..i]);
      AppendGroups(edgesByShard, before, ShardKey(sh), sent);
      edgesByShard := AppendTo(edgesByShard, sh.hashOf(sent) % sh.shards, sent);
      AppendGroups(edgesByShard, before + [sent], ShardKey(sh), received);
      edgesByShard := AppendTo(edgesByShard, sh.hashOf(received) % sh.shards, received);
      assert before + [sent] + [received] == AllEdges(payload[..i + 1]);
    }
    assert payload[..|payload|] == payload;
    ListedMeaning(payload, sh, edgesByShard);
  }

  // --- stages 2 and 3: edges per account ---

  /** For every account, whom it received from and whom it sent to. */
  datatype Neighbours = Neighbours(ins: set<Account>, outs: set<Account>)

  type Index = map<Account, Neighbours>

  ghost predicate Holds(m: Index, e: AccountEdge) {
    e.node in m && e.other in if e.isSender then m[e.node].outs else m[e.node].ins
  }

  /** The edges an index stores. */
  ghost function Stored(m: Index): set<AccountEdge> {
    (set a, o | a in m && o in m[a].outs :: AccountEdge(a, o, true)) +
    (set a, o | a in m && o in m[a].ins :: AccountEdge(a, o, false))
  }

  lemma StoredHolds(m: Index, e: AccountEdge)
    ensures e in Stored(m) <==> Holds(m, e)
  {
  }

  /** The accounts at the far end of a's edges of one direction. */
  ghost function Others(edges: set<AccountEdge>, a: Account, isSender: bool): set<Account> {
    set e | e in edges && e.node == a && e.isSender == isSender :: e.other
  }

  lemma OthersStored(m: Index, a: Account)
    requires a in m
    ensures Others(Stored(m), a, true) == m[a].outs && Others(Stored(m), a, false) == m[a].ins
  {
    forall o ensures o in Others(Stored(m), a, true) <==> o in m[a].outs {
      StoredHolds(m, AccountEdge(a, o, true));
    }
    forall o ensures o in Others(Stored(m), a, false) <==> o in m[a].ins {
      StoredHolds(m, AccountEdge(a, o, false));
    }
  }

  ghost function Flip(e: AccountEdge): AccountEdge { AccountEdge(e.other, e.node, !e.isSender) }

  /** What the frequency filter lets through: the edges of an account in a direction in which it
    * has at least k partners, seen from the partner. */
  ghost function Pruned(edges: set<AccountEdge>, k: nat): set<AccountEdge> {
    set e | e in edges && |Others(edges, e.node, e.isSender)| >= k :: Flip(e)
  }

  /** What the path mapper makes of its edges: every way in combined with every way out. */
  ghost function PathsOf(edges: set<AccountEdge>): set<Path> {
    set e, f | e in edges && f in edges && !e.isSender && f.isSender && e.node == f.node && e.other != f.other ::
      Path(e.other, e.node, f.other)
  }

  /** The per-client edge index that the frequency filter and the path mapper keep alike. */
  class AccountEdges {
    var index: map<string, Index>

    constructor ()
      ensures index == map[]
    {
      index := map[];
    }

    ghost function EdgesFor(client: string): set<AccountEdge>
      reads this
    {
      if client in index then Stored(index[client]) else {}
    }

    /** `_add_edge`. */
    method AddEdge(client: string, e: AccountEdge)
      modifies this
      ensures EdgesFor(client) == old(EdgesFor(client)) + {e}
      ensures forall c :: c != client ==> EdgesFor(c) == old(EdgesFor(c))
    {
      var mine: Index := if client in index then index[client] else map[];
      var n := if e.node in mine then mine[e.node] else Neighbours({}, {});
      var n' := if e.isSender then n.(outs := n.outs + {e.other}) else n.(ins := n.ins + {e.other});
      index := index[client := mine[e.node := n']];
      forall x ensures x in EdgesFor(client) <==> x in old(EdgesFor(client)) + {e} {
        StoredHolds(mine, x);
        StoredHolds(index[client], x);
      }
    }

    /** `_apply_delta`: adding is idempotent and order does not matter, only the set of edges does. */
    method ApplyDelta(client: string, delta: seq<AccountEdge>)
      modifies this
      ensures EdgesFor(client) == old(EdgesFor(client)) + Elems(delta)
      ensures forall c :: c != client ==> EdgesFor(c) == old(EdgesFor(c))
    {
      for i := 0 to |delta|
        invariant EdgesFor(client) == old(EdgesFor(client)) + Elems(delta[..i])
        invariant forall c :: c != client ==> EdgesFor(c) == old(EdgesFor(c))
      {
        AddEdge(client, delta[i]);
        assert delta[..i + 1] == delta[..i] + [delta[i]];
      }
      assert delta[..|delta|] == delta;
    }

    /** `_state_as_delta`: a list of exactly the stored edges, none twice. */
    method StateAsDelta(client: string) returns (edges: seq<AccountEdge>)
      ensures Elems(edges) == EdgesFor(client) && NoDups(edges)
    {
      if client in index {
        edges := Flatten(index[client], 0);
        forall e ensures e in edges <==> e in Stored(index[client]) { StoredHolds(index[client], e); }
      } else {
        edges := [];
      }
    }
  }

  /** The edges of one account in one direction, in the set's order. */
  method EdgesTo(a: Account, others: set<Account>, isSender: bool) returns (edges: seq<AccountEdge>)
    ensures NoDups(edges)
    ensures forall e :: e in edges <==> e.node == a && e.other in others && e.isSender == isSender
  {
    edges := [];
    var todo := others;
    while todo != {}
      invariant todo <= others
      invariant NoDups(edges)
      invariant forall e :: e in edges <==> e.node == a && e.other in others && e.other !in todo && e.isSender == isSender
      decreases todo
    {
      var o :| o in todo;
      todo := todo - {o};
      edges := edges + [AccountEdge(a, o, isSender)];
    }
  }

  /** Every edge of the index whose account has at least k partners in that direction, listed once. */
  method Flatten(m: Index, k: nat) returns (edges: seq<AccountEdge>)
    ensures NoDups(edges)
    ensures forall e :: e in edges <==>
      Holds(m, e) && |if e.isSender then m[e.node].outs else m[e.node].ins| >= k
  {
    edges := [];
    var todo := m.Keys;
    while todo != {}
      invariant todo <= m.Keys
      invariant NoDups(edges)
      invariant forall e :: e in edges <==>
        e.node !in todo && Holds(m, e) && |if e.isSender then m[e.node].outs else m[e.node].ins| >= k
      decreases todo
    {
      var a :| a in todo;
      todo := todo - {a};
      var received := EdgesTo(a, if |m[a].ins| >= k then m[a].ins else {}, false);
      var sent := EdgesTo(a, if |m[a].outs| >= k then m[a].outs else {}, true);
      edges := edges + received + sent;
    }
  }

  /** `_create_edges` of the frequency filter: the qualifying edges, turned round, none twice. */
  method CreateEdges(m: Index, k: nat) returns (edges: seq<AccountEdge>)
    ensures NoDups(edges) && Elems(edges) == Pruned(Stored(m), k)
  {
    var kept := Flatten(m, k);
    edges := [];
    for i := 0 to |kept|
      invariant |edges| == i && forall j :: 0 <= j < i ==> edges[j] == AccountEdge(kept[j].other, kept[j].node, !kept[j].isSender)
    {
      var e := kept[i];
      edges := edges + [AccountEdge(e.other, e.node, !e.isSender)];
    }
    forall i, j | 0 <= i < j < |edges| ensures edges[i] != edges[j] {
      assert edges[i] == Flip(kept[i]) && edges[j] == Flip(kept[j]);
    }
    forall x ensures x in edges <==> x in Pruned(Stored(m), k) {
      var e := Flip(x);
      assert Flip(e) == x;
      StoredHolds(m, e);
      if e.node in m { OthersStored(m, e.node); }
      if e in kept {
        var i :| 0 <= i < |kept| && kept[i] == e;
        assert edges[i] == x;
      }
      if x in edges {
        var i :| 0 <= i < |edges| && edges[i] == x;
        assert kept[i] == e;
      }
    }
  }

  /** `_create_paths` of the path mapper: in times out per middle account, none twice. */
  method CreatePaths(m: Index) returns (paths: seq<Path>)
    ensures NoDups(paths) && Elems(paths) == PathsOf(Stored(m))
  {
    paths := [];
    var todo := m.Keys;
    while todo != {}
      invariant todo <= m.Keys
      invariant NoDups(paths)
      invariant forall p :: p in paths <==>
        p.mid in m && p.mid !in todo && p.src in m[p.mid].ins && p.dst in m[p.mid].outs && p.src != p.dst
      decreases todo
    {
      var a :| a in todo;
      todo := todo - {a};
      var mine := PathsThrough(a, m[a].ins, m[a].outs);
      paths := paths + mine;
    }
    forall p ensures p in paths <==> p in PathsOf(Stored(m)) {
      StoredHolds(m, AccountEdge(p.mid, p.src, false));
      StoredHolds(m, AccountEdge(p.mid, p.dst, true));
      assert p in PathsOf(Stored(m)) <==>
        AccountEdge(p.mid, p.src, false) in Stored(m) && AccountEdge(p.mid, p.dst, true) in Stored(m) && p.src != p.dst;
    }
  }

  method PathsThrough(a: Account, ins: set<Account>, outs: set<Account>) returns (paths: seq<Path>)
    ensures NoDups(paths)
    ensures forall p :: p in paths <==> p.mid == a && p.src in ins && p.dst in outs && p.src != p.dst
  {
    paths := [];
    var sources := ins;
    while sources != {}
      invariant sources <= ins
      invariant NoDups(paths)
      invariant forall p :: p in paths <==>
        p.mid == a && p.src in ins && p.src !in sources && p.dst in outs && p.src != p.dst
      decreases sources
    {
      var src :| src in sources;
      sources := sources - {src};
      var targets := outs;
      while targets != {}
        invariant targets <= outs
        invariant NoDups(paths)
        invariant forall p :: p in paths <==>
          p.mid == a && p.src in ins && p.src !in sources && p.dst in outs && p.src != p.dst &&
          (p.src == src ==> p.dst !in targets)
        decreases targets
      {
        var dst :| dst in targets;
        targets := targets - {dst};
        if src != dst {
          paths := paths + [Path(src, a, dst)];
        }
      }
    }
  }

  // --- stage 4: paths per pair of ends ---

  ghost function MidsBetween(paths: set<Path>, a: Account, b: Account): set<Account> {
    set p | p in paths && p.src == a && p.dst == b :: p.mid
  }

  /** The ends of the pairs that at least k (and at least one) middle accounts connect. */
  ghost predicate Connected(paths: set<Path>, k: nat, a: Account, b: Account) {
    MidsBetween(paths, a, b) != {} && |MidsBetween(paths, a, b)| >= k
  }

  type PathIndex = map<(Account, Account), set<Account>>

  ghost function StoredPaths(m: PathIndex): set<Path> {
    set k, x | k in m && x in m[k] :: Path(k.0, x, k.1)
  }

  class PathStore {
    var index: map<string, PathIndex>

    constructor ()
      ensures index == map[] && Valid()
    {
      index := map[];
    }

    /** Every pair listed has a path. */
    ghost predicate Valid()
      reads this
    {
      forall c, p :: c in index && p in index[c] ==> index[c][p] != {}
    }

    ghost function PathsFor(client: string): set<Path>
      reads this
    {
      if client in index then StoredPaths(index[client]) else {}
    }

    /** `_add_path`. */
    method AddPath(client: string, p: Path)
      requires Valid()
      modifies this
      ensures Valid()
      ensures PathsFor(client) == old(PathsFor(client)) + {p}
      ensures forall c :: c != client ==> PathsFor(c) == old(PathsFor(c))
    {
      var mine: PathIndex := if client in index then index[client] else map[];
      var ends := (p.src, p.dst);
      index := index[client := mine[ends := (if ends in mine then mine[ends] else {}) + {p.mid}]];
      forall x ensures x in PathsFor(client) <==> x in old(PathsFor(client)) + {p} {
        assert x in StoredPaths(mine) <==> (x.src, x.dst) in mine && x.mid in mine[(x.src, x.dst)];
        assert x in PathsFor(client) <==> (x.src, x.dst) in index[client] && x.mid in index[client][(x.src, x.dst)];
      }
    }

    /** `_apply_delta`. */
    method ApplyDelta(client: string, delta: seq<Path>)
      requires Valid()
      modifies this
      ensures Valid()
      ensures PathsFor(client) == old(PathsFor(client)) + Elems(delta)
      ensures forall c :: c != client ==> PathsFor(c) == old(PathsFor(c))
    {
      for i := 0 to |delta|
        invariant Valid()
        invariant PathsFor(client) == old(PathsFor(client)) + Elems(delta[..i])
        invariant forall c :: c != client ==> PathsFor(c) == old(PathsFor(c))
      {
        AddPath(client, delta[i]);
        assert delta[..i + 1] == delta[..i] + [delta[i]];
      }
      assert delta[..|delta|] == delta;
    }
  }

  /** `_create_results`: both ends of every pair with enough distinct middle accounts. */
  method CreateResults(m: PathIndex, k: nat) returns (results: seq<Account>)
    requires forall p :: p in m ==> m[p] != {}
    ensures forall x :: x in results <==>
      exists y :: Connected(StoredPaths(m), k, x, y) || Connected(StoredPaths(m), k, y, x)
  {
    results := [];
    var todo := m.Keys;
    while todo != {}
      invariant todo <= m.Keys
      invariant forall x :: x in results <==> exists p :: p in m && p !in todo && |m[p]| >= k && (x == p.0 || x == p.1)
      decreases todo
    {
      var p :| p in todo;
      todo := todo - {p};
      if |m[p]| >= k {
        results := results + [p.0, p.1];
      }
    }
    forall a, b ensures Connected(StoredPaths(m), k, a, b) <==> (a, b) in m && |m[(a, b)]| >= k {
      MidsStored(m, a, b);
    }
    forall x ensures x in results <==> exists y :: Connected(StoredPaths(m), k, x, y) || Connected(StoredPaths(m), k, y, x) {
      if x in results {
        var p :| p in m && |m[p]| >= k && (x == p.0 || x == p.1);
        assert (p.0, p.1) in m;
        assert Connected(StoredPaths(m), k, p.0, p.1);
      }
    }
  }

  lemma MidsStored(m: PathIndex, a: Account, b: Account)
    ensures MidsBetween(StoredPaths(m), a, b) == if (a, b) in m then m[(a, b)] else {}
  {
    forall x ensures x in MidsBetween(StoredPaths(m), a, b) <==> (a, b) in m && x in m[(a, b)] {
      assert x in MidsBetween(StoredPaths(m), a, b) <==> Path(a, x, b) in StoredPaths(m);
    }
  }

  // --- stage 5: the duplicate filter ---

  class DuplicateAccountFilter {
    var uniqueAccounts: map<string, set<Account>>

    constructor ()
      ensures uniqueAccounts == map[]
    {
      uniqueAccounts := map[];
    }

    ghost function AccountsFor(client: string): set<Account>
      reads this
    {
      if client in uniqueAccounts then uniqueAccounts[client] else {}
    }

    /** `_apply_delta`. */
    method ApplyDelta(client: string, delta: seq<Account>)
      modifies this
      ensures AccountsFor(client) == old(AccountsFor(client)) + Elems(delta)
      ensures forall c :: c != client ==> AccountsFor(c) == old(AccountsFor(c))
    {
      if client !in uniqueAccounts { uniqueAccounts := uniqueAccounts[client := {}]; }
      for i := 0 to |delta|
        invariant client in uniqueAccounts
        invariant AccountsFor(client) == old(AccountsFor(client)) + Elems(delta[..i])
        invariant forall c :: c != client ==> AccountsFor(c) == old(AccountsFor(c))
      {
        uniqueAccounts := uniqueAccounts[client := uniqueAccounts[client] + {delta[i]}];
        assert delta[..i + 1] == delta[..i] + [delta[i]];
      }
      assert delta[..|delta|] == delta;
    }

    /** The items `_flush_data` flushes: the stored accounts, each once; the flow is dropped. */
    method PopAccounts(client: string) returns (items: seq<Account>)
      modifies this
      ensures NoDups(items) && Elems(items) == old(AccountsFor(client))
      ensures AccountsFor(client) == {} && forall c :: c != client ==> AccountsFor(c) == old(AccountsFor(c))
    {
      var todo := if client in uniqueAccounts then uniqueAccounts[client] else {};
      ghost var all := todo;
      uniqueAccounts := uniqueAccounts - {client};
      items := [];
      while todo != {}
        invariant todo <= all && NoDups(items)
        invariant forall x :: x in items <==> x in all && x !in todo
        decreases todo
      {
        var x :| x in todo;
        todo := todo - {x};
        items := items + [x];
      }
    }
  }
}
