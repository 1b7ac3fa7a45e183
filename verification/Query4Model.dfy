/** Query 4 (scatter-gather accounts): the data that flows through the pipeline, and the answer. */
module Query4Model {
  import opened Collections
  import opened Options

  datatype Account = Account(bank: string, account: string)

  /** A transfer that passed the currency and date filters (the pipeline and the reference apply the same). */
  datatype Transfer = Transfer(src: Account, dst: Account)

  /** A transaction as it reaches the sharder; a field the upstream mapper dropped is None. */
  datatype Transaction = Transaction(fromBank: Option<string>, fromAccount: Option<string>,
                                     toBank: Option<string>, toAccount: Option<string>)

  /** An edge seen from `node`: with isSender, node sent to other; without, node received from other. */
  datatype AccountEdge = AccountEdge(node: Account, other: Account, isSender: bool)

  datatype Path = Path(src: Account, mid: Account, dst: Account)

  predicate IsComplete(t: Transaction) {
    t.fromBank.Some? && t.fromAccount.Some? && t.toBank.Some? && t.toAccount.Some?
  }

  function TransferOf(t: Transaction): Transfer
    requires IsComplete(t)
  {
    Transfer(Account(t.fromBank.value, t.fromAccount.value), Account(t.toBank.value, t.toAccount.value))
  }

  // --- the answer ---

  ghost function OutOf(ts: set<Transfer>, a: Account): set<Account> {
    set t | t in ts && t.src == a :: t.dst
  }

  ghost function InOf(ts: set<Transfer>, b: Account): set<Account> {
    set t | t in ts && t.dst == b :: t.src
  }

  /** The accounts through which money went from a to b. */
  ghost function MidsOf(ts: set<Transfer>, a: Account, b: Account): set<Account> {
    set t | t in ts && t.dst == b && Transfer(a, t.src) in ts :: t.src
  }

  /** a scattered to at least k accounts, at least k of which (and at least one) passed it on to b. */
  ghost predicate ScatterGather(ts: set<Transfer>, k: nat, a: Account, b: Account) {
    a != b && |OutOf(ts, a)| >= k && |MidsOf(ts, a, b)| >= k && MidsOf(ts, a, b) != {}
  }

  ghost function Sources(ts: set<Transfer>): set<Account> { set t | t in ts :: t.src }

  ghost function Destinations(ts: set<Transfer>): set<Account> { set t | t in ts :: t.dst }

  /** The accounts at either end of a scatter-gather pattern. */
  ghost function Answer(ts: set<Transfer>, k: nat): set<Account> {
    (set a, b | a in Sources(ts) && b in Destinations(ts) && ScatterGather(ts, k, a, b) :: a) +
    (set a, b | a in Sources(ts) && b in Destinations(ts) && ScatterGather(ts, k, a, b) :: b)
  }

  lemma AnswerMembers(ts: set<Transfer>, k: nat, x: Account)
    ensures x in Answer(ts, k) <==> exists y :: ScatterGather(ts, k, x, y) || ScatterGather(ts, k, y, x)
  {
    if y :| ScatterGather(ts, k, x, y) {
      ScatterGatherEnds(ts, k, x, y);
    }
    if y :| ScatterGather(ts, k, y, x) {
      ScatterGatherEnds(ts, k, y, x);
    }
  }

  lemma ScatterGatherEnds(ts: set<Transfer>, k: nat, a: Account, b: Account)
    requires ScatterGather(ts, k, a, b)
    ensures a in Sources(ts) && b in Destinations(ts)
  {
    var m :| m in MidsOf(ts, a, b);
    assert Transfer(a, m) in ts && Transfer(m, b) in ts;
  }

  /** Every account of `mids` passed on to b what it got from a. */
  ghost predicate Between(ts: set<Transfer>, a: Account, b: Account, mids: set<Account>) {
    forall m :: m in mids ==> Transfer(a, m) in ts && Transfer(m, b) in ts
  }

  ghost predicate Reaches(ts: set<Transfer>, k: nat, a: Account, b: Account) {
    a != b && exists mids :: mids != {} && |mids| >= k && Between(ts, a, b, mids)
  }

  /** The answer in terms of transfers alone: both ends of every two different accounts that at least k
    * (and at least one) accounts connect. That the first one scattered to k accounts is then no condition
    * of its own. */
  lemma AnswerMeaning(ts: set<Transfer>, k: nat, x: Account)
    ensures x in Answer(ts, k) <==> exists y :: Reaches(ts, k, x, y) || Reaches(ts, k, y, x)
  {
    AnswerMembers(ts, k, x);
    forall a, b ensures ScatterGather(ts, k, a, b) <==> Reaches(ts, k, a, b) { PatternMeaning(ts, k, a, b); }
    hide ScatterGather, Reaches;
  }

  lemma PatternMeaning(ts: set<Transfer>, k: nat, a: Account, b: Account)
    ensures ScatterGather(ts, k, a, b) <==> Reaches(ts, k, a, b)
  {
    var all := MidsOf(ts, a, b);
    forall m ensures m in all <==> Transfer(a, m) in ts && Transfer(m, b) in ts {
      if Transfer(a, m) in ts && Transfer(m, b) in ts { assert Transfer(m, b).src == m; }
    }
    assert Between(ts, a, b, all);
    if Reaches(ts, k, a, b) {
      var mids :| mids != {} && |mids| >= k && Between(ts, a, b, mids);
      SubsetSize(mids, all);
      forall m | m in mids ensures m in OutOf(ts, a) { assert Transfer(a, m).dst == m; }
      SubsetSize(mids, OutOf(ts, a));
    }
  }

  /** Pruning is lossless: a gathering account has received from every middle account, so its
    * in-degree is at least k; dropping receivers of lower in-degree drops no qualifying pair. */
  lemma GatherersReceiveEnough(ts: set<Transfer>, k: nat, a: Account, b: Account)
    requires |MidsOf(ts, a, b)| >= k
    ensures |InOf(ts, b)| >= k
  {
    assert MidsOf(ts, a, b) <= InOf(ts, b);
    SubsetSize(MidsOf(ts, a, b), InOf(ts, b));
  }
}
