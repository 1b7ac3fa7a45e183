/** The client's stop-and-wait upload over breaking connections (`src/client/main.py`), forwarded by the
  * gateway (`src/gateway/internal/client_handler.py`, `src/gateway/internal/internal_router.py`).
  * Handlers of broken connections keep forwarding what they had already received. */
module Upload {
  import opened Options
  import opened Ids

  /** What the gateway forwards into the pipeline; batches carry their index, EOFs the batch count. */
  datatype Message = Transactions(index: nat) | TransactionsEof(count: nat) | Accounts(index: nat) | AccountsEof(count: nat)

  /** `_messages_to_send`: n transaction batches, their EOF, m account batches, their EOF. */
  function Script(n: nat, m: nat): (s: seq<Message>)
    ensures |s| == n + m + 2
  {
    seq(n, i requires 0 <= i < n => Transactions(i)) + [TransactionsEof(n)] +
    seq(m, i requires 0 <= i < m => Accounts(i)) + [AccountsEof(m)]
  }

  /** A message on a connection: its place in the script and what the client read for it. */
  datatype Packet<P> = Packet(index: nat, payload: P)

  /** `done` messages have been acknowledged; `pending` is what was read for the next one, kept until its
    * acknowledgement. `wires[k]` is what connection k has carried but its handler not yet read; the last
    * connection is the current one. `waiting`: the pending message has been sent on the current
    * connection; `acks` are under way on it. `read` is history: everything read so far. */
  datatype Sys<P> = Sys(done: nat, pending: Option<P>, wires: seq<seq<Packet<P>>>, waiting: bool, acks: nat,
                        forwarded: seq<Packet<P>>, read: seq<P>)

  datatype Action<P> =
    | Connect           // the connection broke, a new one is up
    | Read(payload: P)  // the input files yield the next payload, whatever it is
    | Send
    | Forward(k: nat)   // the handler of connection k forwards the next message and acknowledges it
    | Lose(k: nat)      // what connection k carries never arrives
    | AckArrives

  ghost function Init<P>(): Sys<P> { Sys(0, None, [], false, 0, [], []) }

  ghost function Step<P>(total: nat, s: Sys<P>, a: Action<P>): Sys<P> {
    var last := |s.wires| - 1;
    match a
    case Connect => s.(wires := s.wires + [[]], waiting := false, acks := 0)
    case Read(p) => if s.pending.Some? || s.done >= total then s else s.(pending := Some(p), read := s.read + [p])
    case Send =>
      if s.wires == [] || s.waiting || s.pending.None? then s
      else s.(wires := s.wires[last := s.wires[last] + [Packet(s.done, s.pending.value)]], waiting := true)
    case Forward(k) =>
      if k >= |s.wires| || s.wires[k] == [] then s
      else s.(wires := s.wires[k := s.wires[k][1..]], forwarded := s.forwarded + [s.wires[k][0]],
              acks := if k == last then s.acks + 1 else s.acks)
    case Lose(k) => if k >= |s.wires| then s else s.(wires := s.wires[k := []])
    case AckArrives =>
      if s.acks == 0 || !s.waiting then s
      else s.(acks := s.acks - 1, done := s.done + 1, pending := None, waiting := false)
  }

  ghost function Run<P>(total: nat, acts: seq<Action<P>>): Sys<P> {
    if acts == [] then Init() else Step(total, Run(total, acts[..|acts| - 1]), acts[|acts| - 1])
  }

  ghost predicate WasForwarded<P>(s: Sys<P>, i: nat) { exists p :: p in s.forwarded && p.index == i }

  /** On the current connection at most the pending message is anywhere, as a message or as its ack. */
  ghost predicate StopAndWait<P>(s: Sys<P>) {
    s.wires != [] ==>
      var wire := s.wires[|s.wires| - 1];
      && (!s.waiting ==> wire == [] && s.acks == 0)
      && (s.waiting ==> s.pending.Some?)
      && (s.waiting && wire != [] ==> wire == [Packet(s.done, s.pending.value)] && s.acks == 0)
      && (s.acks > 0 ==> s.acks == 1 && WasForwarded(s, s.done))
  }

  /** A packet carries what was read for its index. */
  ghost predicate Authentic<P>(total: nat, s: Sys<P>, p: Packet<P>) {
    p.index < total && p.index < |s.read| && p.payload == s.read[p.index]
  }

  ghost predicate Inv<P>(total: nat, s: Sys<P>) {
    && StopAndWait(s) && s.done <= total
    && (s.wires == [] ==> !s.waiting && s.acks == 0)
    && |s.read| == s.done + (if s.pending.Some? then 1 else 0)
    && (s.pending.Some? ==> s.done < total && s.read[s.done] == s.pending.value)
    && (forall k, p :: 0 <= k < |s.wires| && p in s.wires[k] ==> Authentic(total, s, p))
    && (forall p :: p in s.forwarded ==> Authentic(total, s, p))
    && (forall i :: 0 <= i < s.done ==> WasForwarded(s, i))
  }

  lemma ForwardInv<P>(total: nat, s: Sys<P>, k: nat)
    requires Inv(total, s) && k < |s.wires| && s.wires[k] != []
    ensures Inv(total, Step(total, s, Forward(k)))
  {
    var s', p := Step(total, s, Forward(k)), s.wires[k][0];
    assert p in s.wires[k] && forall q :: q in s.wires[k][1..] ==> q in s.wires[k];
    assert p in s'.forwarded && forall q :: q in s.forwarded ==> q in s'.forwarded;
    forall i | 0 <= i < s.done || i == p.index ensures WasForwarded(s', i) {
      if i < s.done {
        assert WasForwarded(s, i);
        var q :| q in s.forwarded && q.index == i;
        assert q in s'.forwarded;
      }
    }
    assert WasForwarded(s, s.done) ==> WasForwarded(s', s.done);
    assert forall q :: Authentic(total, s, q) ==> Authentic(total, s', q);
  }

  lemma StepInv<P>(total: nat, s: Sys<P>, a: Action<P>)
    requires Inv(total, s)
    ensures Inv(total, Step(total, s, a))
  {
    var s' := Step(total, s, a);
    if a.Forward? {
      if a.k < |s.wires| && s.wires[a.k] != [] { ForwardInv(total, s, a.k); }
    } else {
      assert s'.forwarded == s.forwarded && s.read <= s'.read;
      assert forall i :: WasForwarded(s, i) ==> WasForwarded(s', i);
      assert forall p :: Authentic(total, s, p) ==> Authentic(total, s', p);
    }
  }

  lemma {:induction false} RunInv<P>(total: nat, acts: seq<Action<P>>)
    ensures Inv(total, Run(total, acts))
  {
    if acts != [] {
      RunInv(total, acts[..|acts| - 1]);
      StepInv(total, Run(total, acts[..|acts| - 1]), acts[|acts| - 1]);
    }
  }

  // --- progress ---

  ghost function RunFrom<P>(total: nat, s: Sys<P>, acts: seq<Action<P>>): Sys<P>
    decreases |acts|
  {
    if acts == [] then s else RunFrom(total, Step(total, s, acts[0]), acts[1..])
  }

  lemma {:induction false} RunConcat<P>(total: nat, a: seq<Action<P>>, b: seq<Action<P>>)
    ensures Run(total, a + b) == RunFrom(total, Run(total, a), b)
    decreases |b|
  {
    if b == [] {
      assert a + b == a;
    } else {
      assert a + b == (a + [b[0]]) + b[1..] && (a + [b[0]])[..|a|] == a;
      RunConcat(total, a + [b[0]], b[1..]);
    }
  }

  /** A connection on which the pending message has not been sent yet. */
  ghost predicate Ready<P>(s: Sys<P>) {
    s.wires != [] && s.wires[|s.wires| - 1] == [] && !s.waiting && s.acks == 0
  }

  /** Reading (if nothing is pending), sending, forwarding and acknowledging completes one more message. */
  lemma OneMore<P>(total: nat, s: Sys<P>, payload: P)
    requires Ready(s) && s.done < total
    ensures var last: nat := |s.wires| - 1;
      var s' := Step(total, Step(total, Step(total, Step(total, s, Read(payload)), Send), Forward(last)), AckArrives);
      Ready(s') && s'.done == s.done + 1 && |s'.wires| == |s.wires|
  {
    var last: nat := |s.wires| - 1;
    var s1 := Step(total, s, Read(payload));
    var s2 := Step(total, s1, Send);
    assert s2.wires[last] == [Packet(s.done, s1.pending.value)];
    var s3 := Step(total, s2, Forward(last));
    assert s3.wires[last] == [];
  }

  lemma {:induction false} RestGoesThrough<P>(total: nat, s: Sys<P>, payload: P) returns (more: seq<Action<P>>)
    requires Ready(s) && s.done <= total
    ensures RunFrom(total, s, more).done == total
    decreases total - s.done
  {
    more := [];
    if s.done < total {
      var last: nat := |s.wires| - 1;
      OneMore(total, s, payload);
      var s1 := Step(total, s, Read(payload));
      var s2 := Step(total, s1, Send);
      var s3 := Step(total, s2, Forward(last));
      var rest := RestGoesThrough(total, Step(total, s3, AckArrives), payload);
      more := [Read(payload), Send, Forward(last), AckArrives] + rest;
      hide Step, Ready;
      assert more[1..] == [Send, Forward(last), AckArrives] + rest && more[1..][1..] == [Forward(last), AckArrives] + rest;
      assert more[1..][1..][1..] == [AckArrives] + rest && more[1..][1..][1..][1..] == rest;
      assert RunFrom(total, s3, more[1..][1..][1..]) == RunFrom(total, Step(total, s3, AckArrives), rest);
      assert RunFrom(total, s2, more[1..][1..]) == RunFrom(total, s3, more[1..][1..][1..]);
      assert RunFrom(total, s1, more[1..]) == RunFrom(total, s2, more[1..][1..]);
    }
  }

  /** The upload can be completed: from every reachable state one connection that lasts gets everything
    * forwarded and acknowledged, whatever the input files still yield. */
  lemma UploadGetsThrough<P>(total: nat, acts: seq<Action<P>>, payload: P) returns (more: seq<Action<P>>)
    ensures Run(total, acts + more).done == total
  {
    RunInv(total, acts);
    var s := Step(total, Run(total, acts), Connect);
    var rest := RestGoesThrough(total, s, payload);
    more := [Connect] + rest;
    assert more[1..] == rest;
    RunConcat(total, acts, more);
  }

  // --- what has been forwarded ---

  /** All forwards of an index carry the same batch, over any number of connections and old handlers,
    * and whatever the input files would have yielded if read again. */
  lemma SameIndexSameBatch<P>(total: nat, acts: seq<Action<P>>, p: Packet<P>, q: Packet<P>)
    requires p in Run(total, acts).forwarded && q in Run(total, acts).forwarded && p.index == q.index
    ensures p == q
  {
    RunInv(total, acts);
  }

  /** The messages forwarded in a run. */
  ghost function Forwarded<P>(n: nat, m: nat, acts: seq<Action<P>>): set<Message> {
    set p | p in Run(n + m + 2, acts).forwarded && p.index < n + m + 2 :: Script(n, m)[p.index]
  }

  ghost function TransactionIds(client: string, ms: set<Message>): set<string> {
    set x | x in ms && x.Transactions? :: RootId(client, x.index)
  }

  ghost function AccountIds(client: string, ms: set<Message>): set<string> {
    set x | x in ms && x.Accounts? :: RootId(client, x.index)
  }

  ghost function RootIds(client: string, n: nat): set<string> {
    set i | 0 <= i < n :: RootId(client, i)
  }

  lemma NextRootId(client: string, n: nat)
    ensures RootIds(client, n + 1) == RootIds(client, n) + {RootId(client, n)} && RootId(client, n) !in RootIds(client, n)
  {
    hide RootId;
    if RootId(client, n) in RootIds(client, n) {
      var i :| 0 <= i < n && RootId(client, n) == RootId(client, i);
      RootIdInjective(client, n, i);
    }
  }

  lemma {:induction false} RootIdsSize(client: string, n: nat)
    ensures |RootIds(client, n)| == n
  {
    if n > 0 {
      hide RootId;
      RootIdsSize(client, n - 1);
      NextRootId(client, n - 1);
    }
  }

  /** What has been forwarded is an initial piece of the script, at least everything acknowledged. */
  lemma ForwardedIsPrefix<P>(n: nat, m: nat, acts: seq<Action<P>>, i: nat)
    requires i < n + m + 2
    ensures var s := Run(n + m + 2, acts);
      && (i < s.done ==> Script(n, m)[i] in Forwarded(n, m, acts))
      && (Script(n, m)[i] in Forwarded(n, m, acts) ==>
            i <= s.done && forall j :: 0 <= j < i ==> Script(n, m)[j] in Forwarded(n, m, acts))
  {
    RunInv(n + m + 2, acts);
    var s, script := Run(n + m + 2, acts), Script(n, m);
    forall j | 0 <= j < n + m + 2 ensures WasForwarded(s, j) <==> script[j] in Forwarded(n, m, acts) {
      if script[j] in Forwarded(n, m, acts) {
        var p :| p in s.forwarded && p.index < n + m + 2 && script[p.index] == script[j];
        assert p.index == j;
      }
    }
  }

  lemma EofComesLast<P>(n: nat, m: nat, client: string, acts: seq<Action<P>>)
    ensures var f := Forwarded(n, m, acts);
      && (TransactionsEof(n) in f ==> RootIds(client, n) <= TransactionIds(client, f))
      && (AccountsEof(m) in f ==> RootIds(client, m) <= AccountIds(client, f))
  {
    var f, script := Forwarded(n, m, acts), Script(n, m);
    ForwardedIsPrefix(n, m, acts, n);
    ForwardedIsPrefix(n, m, acts, n + m + 1);
    if TransactionsEof(n) in f {
      forall x | x in RootIds(client, n) ensures x in TransactionIds(client, f) {
        var i :| 0 <= i < n && x == RootId(client, i);
        assert script[i] == Transactions(i) && Transactions(i) in f;
        assert Transactions(i).Transactions?;
      }
    }
    if AccountsEof(m) in f {
      forall x | x in RootIds(client, m) ensures x in AccountIds(client, f) {
        var i :| 0 <= i < m && x == RootId(client, i);
        assert script[n + 1 + i] == Accounts(i) && Accounts(i) in f;
        assert Accounts(i).Accounts?;
      }
    }
  }

  /** Nothing is forwarded that the script does not contain. */
  lemma OnlyTheScript<P>(n: nat, m: nat, client: string, acts: seq<Action<P>>, k: nat)
    ensures var f := Forwarded(n, m, acts);
      && TransactionIds(client, f) <= RootIds(client, n) && AccountIds(client, f) <= RootIds(client, m)
      && (TransactionsEof(k) in f ==> k == n) && (AccountsEof(k) in f ==> k == m)
  {
  }

  /** An acknowledged message has been forwarded. */
  lemma AckedIsForwarded<P>(n: nat, m: nat, acts: seq<Action<P>>, i: nat)
    requires i < Run(n + m + 2, acts).done
    ensures i < n + m + 2 && Script(n, m)[i] in Forwarded(n, m, acts)
  {
    RunInv(n + m + 2, acts);
    ForwardedIsPrefix(n, m, acts, i);
  }

  /** Upload: however often the connection breaks and whatever old handlers still forward, once a
    * stream's EOF has been forwarded exactly the ids of its batches have been, as many as the EOF
    * says, and no others ever will be. */
  lemma UploadIsExact<P>(n: nat, m: nat, client: string, acts: seq<Action<P>>, k: nat)
    ensures var f := Forwarded(n, m, acts);
      && (TransactionsEof(k) in f ==>
            TransactionIds(client, f) == RootIds(client, n) && |TransactionIds(client, f)| == k)
      && (AccountsEof(k) in f ==>
            AccountIds(client, f) == RootIds(client, m) && |AccountIds(client, f)| == k)
  {
    OnlyTheScript(n, m, client, acts, k);
    EofComesLast(n, m, client, acts);
    RootIdsSize(client, n);
    RootIdsSize(client, m);
  }
}
