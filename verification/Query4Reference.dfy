/** The single-scan reference for query 4 (`_build_query_4` in `build_expected.py`), on the
  * transactions that pass its currency and period filter. */
module Query4Reference {
  import opened Collections
  import opened Query4Model

  /** First scan: who sent to whom. */
  method ScatterMap(ts: seq<Transfer>) returns (m: map<Account, set<Account>>)
    ensures m.Keys == Sources(Elems(ts))
    ensures forall a :: a in m ==> m[a] == OutOf(Elems(ts), a)
  {
    m := map[];
    for i := 0 to |ts|
      invariant m.Keys == Sources(Elems(ts[..i]))
      invariant forall a :: a in m ==> m[a] == OutOf(Elems(ts[..i]), a)
    {
      var t := ts[i];
      assert Elems(ts[..i + 1]) == Elems(ts[..i]) + {t};
      assert t.src !in m ==> OutOf(Elems(ts[..i]), t.src) == {};
      m := m[t.src := (if t.src in m then m[t.src] else {}) + {t.dst}];
    }
    assert ts[..|ts|] == ts;
  }

  /** Invert the accounts that scattered enough: which of them sent to a given account. */
  method IntermediateToScatter(scatter: map<Account, set<Account>>) returns (m: map<Account, set<Account>>)
    ensures forall x, a :: x in m && a in m[x] <==> a in scatter && x in scatter[a]
  {
    m := map[];
    var todo := scatter.Keys;
    while todo != {}
      invariant todo <= scatter.Keys
      invariant forall x, a :: x in m && a in m[x] <==> a in scatter && a !in todo && x in scatter[a]
      decreases todo
    {
      var a :| a in todo;
      todo := todo - {a};
      var targets := scatter[a];
      while targets != {}
        invariant targets <= scatter[a]
        invariant forall x, b :: x in m && b in m[x] <==>
          b in scatter && b !in todo && x in scatter[b] && (b == a ==> x !in targets)
        decreases targets
      {
        var x :| x in targets;
        targets := targets - {x};
        m := m[x := (if x in m then m[x] else {}) + {a}];
      }
    }
  }

  type Between = map<(Account, Account), set<Account>>

  ghost function Listed(m: Between, a: Account, b: Account): set<Account> {
    if (a, b) in m then m[(a, b)] else {}
  }

  /** The accounts that a qualifying scatterer a reaches and that sent to b. */
  ghost function Reached(ts: set<Transfer>, inter: map<Account, set<Account>>, a: Account, b: Account): set<Account> {
    set t | t in ts && t.dst == b && t.src in inter && a in inter[t.src] :: t.src
  }

  lemma ReachedOneMore(ts: seq<Transfer>, i: nat, inter: map<Account, set<Account>>, a: Account, b: Account)
    requires i < |ts|
    ensures Reached(Elems(ts[..i + 1]), inter, a, b) ==
      Reached(Elems(ts[..i]), inter, a, b) +
      if ts[i].dst == b && ts[i].src in inter && a in inter[ts[i].src] then {ts[i].src} else {}
  {
    assert Elems(ts[..i + 1]) == Elems(ts[..i]) + {ts[i]} by { assert ts[..i + 1] == ts[..i] + [ts[i]]; }
  }

  /** One transfer of the second scan: its sender lies between each of `sources` and its receiver. */
  method AddBetween(before: Between, t: Transfer, sources: set<Account>) returns (m: Between)
    requires forall p :: p in before ==> before[p] != {}
    ensures forall p :: p in m ==> m[p] != {}
    ensures forall a, b :: Listed(m, a, b) == Listed(before, a, b) + (if b == t.dst && a in sources then {t.src} else {})
  {
    m := before;
    var todo := sources;
    while todo != {}
      invariant todo <= sources
      invariant forall p :: p in m ==> m[p] != {}
      invariant forall a, b :: Listed(m, a, b) ==
                               Listed(before, a, b) + (if b == t.dst && a in sources && a !in todo then {t.src} else {})
      decreases todo
    {
      var a :| a in todo;
      todo := todo - {a};
      var p := (a, t.dst);
      m := m[p := (if p in m then m[p] else {}) + {t.src}];
    }
  }

  /** Second scan: for each scatterer and each account it reaches in two steps, the accounts between. */
  method ScatterGatherMap(ts: seq<Transfer>, inter: map<Account, set<Account>>) returns (m: Between)
    ensures forall a, b :: Listed(m, a, b) == Reached(Elems(ts), inter, a, b)
    ensures forall p :: p in m ==> m[p] != {}
  {
    m := map[];
    for i := 0 to |ts|
      invariant forall a, b :: Listed(m, a, b) == Reached(Elems(ts[..i]), inter, a, b)
      invariant forall p :: p in m ==> m[p] != {}
    {
      hide Reached, Listed;
      forall a, b ensures Reached(Elems(ts[..i + 1]), inter, a, b) ==
        Reached(Elems(ts[..i]), inter, a, b) +
        if ts[i].dst == b && ts[i].src in inter && a in inter[ts[i].src] then {ts[i].src} else {}
      {
        ReachedOneMore(ts, i, inter, a, b);
      }
      if ts[i].src in inter {
        m := AddBetween(m, ts[i], inter[ts[i].src]);
      }
    }
    assert ts[..|ts|] == ts;
  }

  /** The ends of the pairs with enough accounts between. */
  method UniqueAccounts(m: Between, k: nat) returns (accounts: set<Account>)
    ensures forall x :: x in accounts <==>
      exists p :: p in m && |m[p]| >= k && p.0 != p.1 && (x == p.0 || x == p.1)
  {
    accounts := {};
    var todo := m.Keys;
    while todo != {}
      invariant todo <= m.Keys
      invariant forall x :: x in accounts <==>
        exists p :: p in m && p !in todo && |m[p]| >= k && p.0 != p.1 && (x == p.0 || x == p.1)
      decreases todo
    {
      var p :| p in todo;
      todo := todo - {p};
      if |m[p]| >= k && p.0 != p.1 {
        accounts := accounts + {p.0, p.1};
      }
    }
  }

  /** `_build_query_4`. */
  method BuildQuery4(ts: seq<Transfer>, k: nat) returns (accounts: set<Account>)
    ensures accounts == Answer(Elems(ts), k)
  {
    var scatterMap := ScatterMap(ts);
    var scatterAccounts := map a | a in scatterMap && |scatterMap[a]| >= k :: scatterMap[a];
    var inter := IntermediateToScatter(scatterAccounts);
    var gather := ScatterGatherMap(ts, inter);
    accounts := UniqueAccounts(gather, k);
    forall a, b ensures Exact(Elems(ts), k, gather, a, b) {
      assert Listed(gather, a, b) == Reached(Elems(ts), inter, a, b);
      ReachedIsMids(Elems(ts), k, scatterMap, scatterAccounts, inter, a, b);
    }
    BetweenGivesAnswer(Elems(ts), k, gather, accounts);
  }

  /** The dictionary lists exactly the accounts between a scatterer and an account it reaches. */
  ghost predicate Exact(ts: set<Transfer>, k: nat, gather: Between, a: Account, b: Account) {
    && Listed(gather, a, b) == (if |OutOf(ts, a)| >= k then MidsOf(ts, a, b) else {})
    && ((a, b) in gather <==> Listed(gather, a, b) != {})
  }

  lemma ReachedIsMids(ts: set<Transfer>, k: nat, scatterMap: map<Account, set<Account>>,
                      scatterAccounts: map<Account, set<Account>>, inter: map<Account, set<Account>>,
                      a: Account, b: Account)
    requires scatterMap.Keys == Sources(ts)
    requires forall x :: x in scatterMap ==> scatterMap[x] == OutOf(ts, x)
    requires scatterAccounts == map x | x in scatterMap && |scatterMap[x]| >= k :: scatterMap[x]
    requires forall x, y :: x in inter && y in inter[x] <==> y in scatterAccounts && x in scatterAccounts[y]
    ensures Reached(ts, inter, a, b) == if |OutOf(ts, a)| >= k then MidsOf(ts, a, b) else {}
  {
    forall x ensures x in Reached(ts, inter, a, b) <==> |OutOf(ts, a)| >= k && x in MidsOf(ts, a, b) {
      assert x in Reached(ts, inter, a, b) <==> Transfer(x, b) in ts && x in inter && a in inter[x];
      assert x in MidsOf(ts, a, b) <==> Transfer(x, b) in ts && Transfer(a, x) in ts;
      assert x in OutOf(ts, a) <==> Transfer(a, x) in ts;
      assert Transfer(a, x) in ts ==> a in Sources(ts);
      assert x in inter && a in inter[x] <==> a in scatterAccounts && x in scatterAccounts[a];
    }
  }

  lemma BetweenGivesAnswer(ts: set<Transfer>, k: nat, gather: Between, accounts: set<Account>)
    requires forall a, b :: Exact(ts, k, gather, a, b)
    requires forall x :: x in accounts <==>
      exists p :: p in gather && |gather[p]| >= k && p.0 != p.1 && (x == p.0 || x == p.1)
    ensures accounts == Answer(ts, k)
  {
    forall x ensures x in accounts <==> x in Answer(ts, k) {
      AnswerMembers(ts, k, x);
      if x in accounts {
        var p :| p in gather && |gather[p]| >= k && p.0 != p.1 && (x == p.0 || x == p.1);
        assert Exact(ts, k, gather, p.0, p.1);
        assert ScatterGather(ts, k, p.0, p.1);
      }
      if y :| ScatterGather(ts, k, x, y) {
        assert Exact(ts, k, gather, x, y);
        assert (x, y) in gather;
      }
      if y :| ScatterGather(ts, k, y, x) {
        assert Exact(ts, k, gather, y, x);
        assert (y, x) in gather;
      }
    }
  }
}
