/** The client's result handling (`src/client/main.py`) and the gateway's delivery of results
  * (`src/gateway/internal/client_handler.py`): rows written once, completion, and no result lost
  * over broken connections. */
module ClientResults {
  import opened Collections
  import opened Options

  /** One query as the client sees it. `rows` is what its result file contains. */
  datatype Query<R> = Query(seen: set<string>, received: nat, expected: Option<int>, finalized: bool, rows: seq<R>)

  ghost function NewQuery<R>(): Query<R> { Query({}, 0, None, false, []) }

  ghost function MaybeFinalize<R>(q: Query<R>): Query<R> {
    q.(finalized := q.finalized || (q.expected.Some? && q.received >= q.expected.value))
  }

  /** `_handle_query_result`: an empty message id is never recognised as a duplicate. */
  ghost function OnResult<R>(q: Query<R>, mid: string, records: seq<R>): Query<R> {
    if mid != "" && mid in q.seen then q
    else MaybeFinalize(q.(seen := if mid != "" then q.seen + {mid} else q.seen,
                          received := q.received + 1, rows := q.rows + records))
  }

  ghost function OnEnd<R>(q: Query<R>, count: int): Query<R> {
    MaybeFinalize(q.(expected := Some(count)))
  }

  ghost function SeenOf(results: set<(int, string)>, q: int): set<string> {
    set k | k in results && k.0 == q :: k.1
  }

  lemma SeenOneMore(results: set<(int, string)>, q: int, mid: string)
    ensures mid in SeenOf(results, q) <==> (q, mid) in results
    ensures forall x :: SeenOf(results + {(q, mid)}, x) == SeenOf(results, x) + if x == q then {mid} else {}
  {
    forall x ensures SeenOf(results + {(q, mid)}, x) == SeenOf(results, x) + if x == q then {mid} else {} {
      forall m ensures m in SeenOf(results + {(q, mid)}, x) <==> m in SeenOf(results, x) || (x == q && m == mid) {
        assert m in SeenOf(results, x) <==> (x, m) in results;
        assert m in SeenOf(results + {(q, mid)}, x) <==> (x, m) in results + {(q, mid)};
      }
    }
  }

  /** The client object; `acked` lists the acknowledged deliveries. */
  class Client<R> {
    var seenResults: set<(int, string)>
    var received: map<int, nat>
    var expected: map<int, int>
    var finalized: set<int>
    var files: map<int, seq<R>>
    var totals: map<int, nat>
    var acked: seq<nat>

    ghost function QueryOf(q: int): Query<R>
      reads this
    {
      Query(SeenOf(seenResults, q),
            if q in received then received[q] else 0,
            if q in expected then Some(expected[q]) else None,
            q in finalized,
            if q in files then files[q] else [])
    }

    /** The result files are those of the expected queries, with their row counts. */
    ghost predicate Valid()
      reads this
    {
      files.Keys == totals.Keys && forall q :: q in files ==> totals[q] == |files[q]|
    }

    constructor (expectedQueries: set<int>)
      ensures Valid() && files.Keys == expectedQueries && acked == []
      ensures forall q :: QueryOf(q) == NewQuery()
    {
      seenResults, received, expected, finalized, acked := {}, map[], map[], {}, [];
      files := map q | q in expectedQueries :: [];
      totals := map q | q in expectedQueries :: 0;
    }

    method HandleQueryResult(q: int, records: seq<R>, mid: string, delivery: nat)
      requires Valid() && q in files
      modifies this
      ensures Valid() && files.Keys == old(files.Keys)
      ensures QueryOf(q) == OnResult(old(QueryOf(q)), mid, records)
      ensures forall x :: x != q ==> QueryOf(x) == old(QueryOf(x))
      ensures acked == old(acked) + [delivery]
    {
      if mid != "" {
        SeenOneMore(seenResults, q, mid);
        if (q, mid) in seenResults {
          acked := acked + [delivery];
          return;
        }
        seenResults := seenResults + {(q, mid)};
      }
      assert forall x :: x != q ==> QueryOf(x) == old(QueryOf(x));
      CountResult(q, records);
      assert forall x :: x != q ==> QueryOf(x) == old(QueryOf(x));
      acked := acked + [delivery];
    }

    method CountResult(q: int, records: seq<R>)
      requires Valid() && q in files
      modifies this`files, this`totals, this`received, this`finalized
      ensures Valid() && files.Keys == old(files.Keys)
      ensures var before := old(QueryOf(q));
        QueryOf(q) == MaybeFinalize(before.(received := before.received + 1, rows := before.rows + records))
      ensures forall x :: x != q ==> QueryOf(x) == old(QueryOf(x))
    {
      hide SeenOf;
      WriteRows(q, records);
      totals := totals[q := totals[q] + |records|];
      received := received[q := (if q in received then received[q] else 0) + 1];
      assert forall x :: x != q ==> QueryOf(x) == old(QueryOf(x));
      MaybeFinalizeQuery(q);
    }

    method WriteRows(q: int, records: seq<R>)
      requires q in files
      modifies this`files
      ensures files.Keys == old(files.Keys) && files[q] == old(files)[q] + records
      ensures forall x :: x in files && x != q ==> files[x] == old(files)[x]
    {
      for i := 0 to |records|
        invariant files.Keys == old(files.Keys) && files[q] == old(files)[q] + records[..i]
        invariant forall x :: x in files && x != q ==> files[x] == old(files)[x]
      {
        files := files[q := files[q] + [records[i]]];
        assert records[..i + 1] == records[..i] + [records[i]];
      }
      assert records[..|records|] == records;
    }

    method HandleQueryEnd(q: int, count: int, delivery: nat)
      requires Valid() && q in files
      modifies this
      ensures Valid() && files.Keys == old(files.Keys)
      ensures QueryOf(q) == OnEnd(old(QueryOf(q)), count)
      ensures forall x :: x != q ==> QueryOf(x) == old(QueryOf(x))
      ensures acked == old(acked) + [delivery]
    {
      expected := expected[q := count];
      assert forall x :: x != q ==> QueryOf(x) == old(QueryOf(x));
      MaybeFinalizeQuery(q);
      acked := acked + [delivery];
    }

    method MaybeFinalizeQuery(q: int)
      modifies this`finalized
      ensures QueryOf(q) == MaybeFinalize(old(QueryOf(q)))
      ensures forall x :: x != q ==> QueryOf(x) == old(QueryOf(x))
    {
      if q in finalized { return; }
      if q in expected && (if q in received then received[q] else 0) >= expected[q] {
        finalized := finalized + {q};
      }
    }
  }

  // --- one query over a whole session history ---

  datatype Event<R> = Result(mid: string, records: seq<R>) | End(count: int)

  ghost function Handle<R>(q: Query<R>, e: Event<R>): Query<R> {
    match e
    case Result(mid, records) => OnResult(q, mid, records)
    case End(n) => OnEnd(q, n)
  }

  ghost function After<R>(events: seq<Event<R>>): Query<R> {
    if events == [] then NewQuery() else Handle(After(events[..|events| - 1]), events[|events| - 1])
  }

  /** The ids of the result messages, each at its first arrival. */
  ghost function Arrivals<R>(events: seq<Event<R>>): seq<string> {
    if events == [] then []
    else
      var before, e := Arrivals(events[..|events| - 1]), events[|events| - 1];
      if e.Result? && e.mid !in before then before + [e.mid] else before
  }

  ghost function RowsOf<R>(recordsOf: string -> seq<R>, mids: seq<string>): seq<R> {
    if mids == [] then [] else RowsOf(recordsOf, mids[..|mids| - 1]) + recordsOf(mids[|mids| - 1])
  }

  ghost predicate Ended<R>(events: seq<Event<R>>) { exists i :: 0 <= i < |events| && events[i].End? }

  /** The query sends messages under the ids `ids`, and an end that announces `count` of them. */
  ghost predicate Sends<R>(events: seq<Event<R>>, ids: set<string>, count: int) {
    forall e :: e in events ==> match e
      case Result(mid, _) => mid in ids
      case End(n) => n == count
  }

  /** An id always comes with the same records. */
  ghost predicate Fixed<R>(events: seq<Event<R>>, recordsOf: string -> seq<R>) {
    forall e :: e in events && e.Result? ==> e.records == recordsOf(e.mid)
  }

  /** What the client knows after any events: each id counted once. */
  ghost predicate Accounts<R>(q: Query<R>, events: seq<Event<R>>, ids: set<string>, count: int) {
    var mids := Arrivals(events);
    && NoDups(mids) && Elems(mids) <= ids && q.seen == Elems(mids) && q.received == |mids|
    && q.expected == (if Ended(events) then Some(count) else None)
    && q.finalized == (Ended(events) && |mids| >= count)
  }

  lemma EndedOneMore<R>(events: seq<Event<R>>)
    requires events != []
    ensures Ended(events) <==> Ended(events[..|events| - 1]) || events[|events| - 1].End?
  {
    var n := |events| - 1;
    if Ended(events[..n]) {
      var i :| 0 <= i < n && events[..n][i].End?;
      assert events[i].End?;
    }
  }

  lemma {:induction false} ClientAccounts<R>(events: seq<Event<R>>, ids: set<string>, count: int)
    requires Sends(events, ids, count) && "" !in ids
    ensures Accounts(After(events), events, ids, count)
  {
    if events != [] {
      var before, e := events[..|events| - 1], events[|events| - 1];
      assert e in events && forall x :: x in before ==> x in events;
      ClientAccounts(before, ids, count);
      EndedOneMore(events);
      var mids := Arrivals(before);
      if e.Result? && e.mid !in mids {
        assert (mids + [e.mid])[..|mids|] == mids;
        assert Elems(mids + [e.mid]) == Elems(mids) + {e.mid};
      }
    }
  }

  lemma {:induction false} RowsWrittenOnce<R>(events: seq<Event<R>>, ids: set<string>, recordsOf: string -> seq<R>, count: int)
    requires Sends(events, ids, count) && Fixed(events, recordsOf) && "" !in ids
    ensures After(events).rows == RowsOf(recordsOf, Arrivals(events))
  {
    if events != [] {
      var before, e := events[..|events| - 1], events[|events| - 1];
      assert e in events && forall x :: x in before ==> x in events;
      RowsWrittenOnce(before, ids, recordsOf, count);
      ClientAccounts(before, ids, count);
      var mids := Arrivals(before);
      if e.Result? && e.mid !in mids {
        assert (mids + [e.mid])[..|mids|] == mids;
      }
    }
  }

  /** Client completion: with distinct, nonempty ids and an end that carries their number, under any
    * order, duplication and reconnection, the query is finalized exactly when the end and all the
    * messages have arrived, and every arrived message's rows have been written once, in order of arrival. */
  lemma ClientCompletion<R>(events: seq<Event<R>>, ids: set<string>, recordsOf: string -> seq<R>)
    requires Sends(events, ids, |ids|) && Fixed(events, recordsOf) && "" !in ids
    ensures Complete(events, ids) && WrittenOnce(events, recordsOf)
  {
    ClientAccounts(events, ids, |ids|);
    RowsWrittenOnce(events, ids, recordsOf, |ids|);
    ElemsSize(Arrivals(events));
    SubsetSize(Elems(Arrivals(events)), ids);
  }

  /** Finalized exactly when everything has arrived. */
  ghost predicate Complete<R>(events: seq<Event<R>>, ids: set<string>) {
    After(events).finalized <==> Ended(events) && Elems(Arrivals(events)) == ids
  }

  ghost predicate WrittenOnce<R>(events: seq<Event<R>>, recordsOf: string -> seq<R>) {
    NoDups(Arrivals(events)) && After(events).rows == RowsOf(recordsOf, Arrivals(events))
  }

  /** If the announced number exceeds the number of distinct ids, the query never completes. */
  lemma SharedIdsNeverComplete<R>(events: seq<Event<R>>, ids: set<string>, count: int)
    requires Sends(events, ids, count) && "" !in ids && count > |ids|
    ensures !After(events).finalized
  {
    ClientAccounts(events, ids, count);
    ElemsSize(Arrivals(events));
    SubsetSize(Elems(Arrivals(events)), ids);
  }

  // --- every history of a query ---

  /** The client is right about the query whatever happens: complete exactly when everything has
    * arrived, and no rows written twice. */
  ghost predicate AlwaysRight<R(!new)>(ids: set<string>, recordsOf: string -> seq<R>) {
    forall events :: Sends(events, ids, |ids|) && Fixed(events, recordsOf) ==>
      Complete(events, ids) && WrittenOnce(events, recordsOf)
  }

  /** An end, then n deliveries of the message without id. */
  ghost function Redeliveries<R>(recordsOf: string -> seq<R>, count: int, n: nat): (events: seq<Event<R>>)
    ensures events != [] && events[0].End?
  {
    if n == 0 then [End(count)] else Redeliveries(recordsOf, count, n - 1) + [Result("", recordsOf(""))]
  }

  lemma OneMoreEvent<R>(events: seq<Event<R>>, e: Event<R>)
    ensures After(events + [e]) == Handle(After(events), e)
    ensures Arrivals(events + [e]) ==
      if e.Result? && e.mid !in Arrivals(events) then Arrivals(events) + [e.mid] else Arrivals(events)
  {
    assert (events + [e])[..|events|] == events;
  }

  ghost function Repeated<R>(records: seq<R>, n: nat): seq<R> {
    if n == 0 then [] else Repeated(records, n - 1) + records
  }

  /** What the client believes after an end and n deliveries of the message without id. */
  ghost function Misled<R>(records: seq<R>, count: int, n: nat): Query<R> {
    Query({}, n, Some(count), n >= count || 0 >= count, Repeated(records, n))
  }

  lemma MisledAgain<R>(records: seq<R>, count: int, n: nat)
    ensures OnResult(Misled(records, count, n), "", records) == Misled(records, count, n + 1)
  {
  }

  /** Each redelivery counts, and is written, again. */
  lemma {:induction false} EmptyIdCounts<R>(recordsOf: string -> seq<R>, count: int, n: nat)
    ensures After(Redeliveries(recordsOf, count, n)) == Misled(recordsOf(""), count, n)
    ensures Arrivals(Redeliveries(recordsOf, count, n)) == if n == 0 then [] else [""]
  {
    hide After, Arrivals, Misled;
    if n == 0 {
      FirstEvent(recordsOf(""), count);
      assert Redeliveries(recordsOf, count, 0) == [End(count)];
    } else {
      EmptyIdCounts(recordsOf, count, n - 1);
      OneMoreEvent(Redeliveries(recordsOf, count, n - 1), Result("", recordsOf("")));
      MisledAgain(recordsOf(""), count, n - 1);
    }
  }

  lemma FirstEvent<R>(records: seq<R>, count: int)
    ensures After<R>([End(count)]) == Misled(records, count, 0) && Arrivals<R>([End(count)]) == []
  {
    var start: seq<Event<R>> := [End(count)];
    assert start[..0] == [] && After(start[..0]) == NewQuery<R>() && Arrivals(start[..0]) == [];
  }

  lemma {:induction false} RedeliveriesAllowed<R>(recordsOf: string -> seq<R>, ids: set<string>, count: int, n: nat)
    requires "" in ids
    ensures Sends(Redeliveries(recordsOf, count, n), ids, count) && Fixed(Redeliveries(recordsOf, count, n), recordsOf)
  {
    if n > 0 { RedeliveriesAllowed(recordsOf, ids, count, n - 1); }
  }

  /** Exactly when the client is right in every history: if no message lacks an id (or the one message
    * there is lacks it and has no records, so that nothing can be miscounted or written twice). */
  lemma AlwaysRightIff<R(!new)>(ids: set<string>, recordsOf: string -> seq<R>)
    ensures AlwaysRight(ids, recordsOf) <==> "" !in ids || (ids == {""} && recordsOf("") == [])
  {
    if "" !in ids {
      forall events | Sends(events, ids, |ids|) && Fixed(events, recordsOf)
        ensures Complete(events, ids) && WrittenOnce(events, recordsOf)
      {
        ClientCompletion(events, ids, recordsOf);
      }
    } else if ids != {""} {
      // as many deliveries of the one message as there are messages
      var n := |ids|;
      OtherId(ids);
      EmptyIdCounts(recordsOf, n, n);
      RedeliveriesAllowed(recordsOf, ids, n, n);
      assert Redeliveries(recordsOf, n, n)[0].End? && Misled(recordsOf(""), n, n).finalized;
      assert "" in Elems([""]) && Elems([""]) == {""};
      assert !Complete(Redeliveries(recordsOf, n, n), ids);
    } else if recordsOf("") != [] {
      EmptyIdCounts(recordsOf, 1, 2);
      RedeliveriesAllowed(recordsOf, ids, 1, 2);
      assert [""][..0] == [] && RowsOf(recordsOf, [""][..0]) == [];
      assert RowsOf(recordsOf, [""]) == recordsOf("");
      assert |Repeated(recordsOf(""), 2)| == 2 * |recordsOf("")| by { assert |Repeated(recordsOf(""), 1)| == |recordsOf("")|; }
      assert !WrittenOnce(Redeliveries(recordsOf, 1, 2), recordsOf);
    } else {
      forall events | Sends(events, ids, |ids|) && Fixed(events, recordsOf)
        ensures Complete(events, ids) && WrittenOnce(events, recordsOf)
      {
        LoneEmptyMessage(events, recordsOf);
      }
    }
  }

  lemma OtherId(ids: set<string>)
    requires "" in ids && ids != {""}
    ensures |ids| >= 2
  {
    var x :| x in ids && x != "";
    SubsetSize({"", x}, ids);
  }

  lemma {:induction false} LoneEmptyMessage<R>(events: seq<Event<R>>, recordsOf: string -> seq<R>)
    requires Sends(events, {""}, 1) && Fixed(events, recordsOf) && recordsOf("") == []
    ensures var q, mids := After(events), Arrivals(events);
      && (mids == [] || mids == [""]) && (q.received > 0 <==> mids == [""])
      && q.expected == (if Ended(events) then Some(1) else None)
      && q.finalized == (Ended(events) && q.received > 0) && q.rows == []
      && RowsOf(recordsOf, mids) == []
  {
    if events != [] {
      var before, e := events[..|events| - 1], events[|events| - 1];
      assert e in events && forall x :: x in before ==> x in events;
      LoneEmptyMessage(before, recordsOf);
      EndedOneMore(events);
    }
    assert [""][..0] == [] && RowsOf(recordsOf, [""][..0]) == [];
  }
}

/** Delivery of results over connections that break: the broker keeps a message until the gateway's
  * handler has seen the client's acknowledgement of it. */
module ResultDelivery {
  import opened Options

  /** `queue` is what the broker still holds; `pending` are the current handler's unacknowledged
    * deliveries; `toClient` and `toGateway` are in flight on the current connection; `handled` is what
    * the client has processed. Messages are numbered by the broker. */
  datatype Sys = Sys(queue: set<nat>, pending: map<nat, nat>, next: nat,
                     toClient: seq<(nat, nat)>, toGateway: seq<nat>, handled: set<nat>, produced: set<nat>)

  datatype Action =
    | Produce(m: nat)
    | Deliver(m: nat)   // the handler registers a pending ack and sends
    | ClientHandles     // the client processes the next delivery and acknowledges it
    | AckArrives        // `_on_result_ack`
    | Reconnect         // a new handler and a new connection

  ghost function Init(): Sys { Sys({}, map[], 0, [], [], {}, {}) }

  ghost function Step(s: Sys, a: Action): Sys {
    match a
    case Produce(m) => if m in s.produced then s else s.(queue := s.queue + {m}, produced := s.produced + {m})
    case Deliver(m) =>
      if m !in s.queue then s
      else s.(next := s.next + 1, pending := s.pending[s.next + 1 := m], toClient := s.toClient + [(s.next + 1, m)])
    case ClientHandles =>
      if s.toClient == [] then s
      else s.(toClient := s.toClient[1..], toGateway := s.toGateway + [s.toClient[0].0],
              handled := s.handled + {s.toClient[0].1})
    case AckArrives =>
      if s.toGateway == [] then s
      else
        var d := s.toGateway[0];
        s.(toGateway := s.toGateway[1..], pending := s.pending - {d},
           queue := if d in s.pending then s.queue - {s.pending[d]} else s.queue)
    case Reconnect => s.(pending := map[], next := 0, toClient := [], toGateway := [])
  }

  ghost function Run(acts: seq<Action>): Sys {
    if acts == [] then Init() else Step(Run(acts[..|acts| - 1]), acts[|acts| - 1])
  }

  ghost predicate Inv(s: Sys) {
    && (forall m :: m in s.produced ==> m in s.queue || m in s.handled)
    && s.queue <= s.produced && s.handled <= s.produced
    && (forall d :: d in s.pending ==> d <= s.next && s.pending[d] in s.produced)
    && (forall p :: p in s.toClient ==> p.0 <= s.next && p.1 in s.produced && (p.0 in s.pending ==> s.pending[p.0] == p.1))
    && (forall d :: d in s.toGateway ==> d <= s.next && (d in s.pending ==> s.pending[d] in s.handled))
  }

  lemma StepInv(s: Sys, a: Action)
    requires Inv(s)
    ensures Inv(Step(s, a))
  {
    if a.ClientHandles? && s.toClient != [] {
      assert s.toClient[0] in s.toClient && forall p :: p in s.toClient[1..] ==> p in s.toClient;
    }
    if a.AckArrives? && s.toGateway != [] {
      assert s.toGateway[0] in s.toGateway && forall d :: d in s.toGateway[1..] ==> d in s.toGateway;
    }
  }

  lemma {:induction false} RunInv(acts: seq<Action>)
    ensures Inv(Run(acts))
  {
    if acts != [] {
      RunInv(acts[..|acts| - 1]);
      StepInv(Run(acts[..|acts| - 1]), acts[|acts| - 1]);
    }
  }

  /** No result is lost: in every run, over any number of connections, a produced message is still
    * with the broker or has been processed by the client, and the client processes nothing else. */
  lemma {:induction false} NoResultLost(acts: seq<Action>)
    ensures Run(acts).produced == Run(acts).queue + Run(acts).handled
  {
    RunInv(acts);
  }

  lemma {:induction false} RunConcat(a: seq<Action>, b: seq<Action>)
    ensures Run(a + b) == RunFrom(Run(a), b)
    decreases |b|
  {
    if b == [] {
      assert a + b == a;
    } else {
      assert a + b == (a + [b[0]]) + b[1..] && (a + [b[0]])[..|a|] == a;
      RunConcat(a + [b[0]], b[1..]);
    }
  }

  ghost function RunFrom(s: Sys, acts: seq<Action>): Sys
    decreases |acts|
  {
    if acts == [] then s else RunFrom(Step(s, acts[0]), acts[1..])
  }

  /** With a connection on which nothing is under way, a message gets through and leaves the queue. */
  lemma OneGetsThrough(s: Sys, m: nat)
    requires m in s.queue && s.toClient == [] && s.toGateway == []
    ensures var s' := Step(Step(Step(s, Deliver(m)), ClientHandles), AckArrives);
      s'.queue == s.queue - {m} && s'.handled == s.handled + {m} && s'.produced == s.produced &&
      s'.toClient == [] && s'.toGateway == []
  {
    var s1 := Step(s, Deliver(m));
    assert s1.toClient == [(s.next + 1, m)];
    var s2 := Step(s1, ClientHandles);
    assert s2.toGateway == [s.next + 1];
  }

  lemma {:induction false} QueueDrains(s: Sys) returns (more: seq<Action>)
    requires s.toClient == [] && s.toGateway == []
    ensures var s' := RunFrom(s, more);
      s'.queue == {} && s'.handled == s.handled + s.queue && s'.produced == s.produced
    decreases |s.queue|
  {
    more := [];
    if s.queue != {} {
      var m :| m in s.queue;
      OneGetsThrough(s, m);
      var rest := QueueDrains(Step(Step(Step(s, Deliver(m)), ClientHandles), AckArrives));
      more := [Deliver(m), ClientHandles, AckArrives] + rest;
      assert more[1..] == [ClientHandles, AckArrives] + rest && more[1..][1..] == [AckArrives] + rest && more[1..][1..][1..] == rest;
      assert RunFrom(Step(s, Deliver(m)), more[1..]) == RunFrom(Step(Step(s, Deliver(m)), ClientHandles), more[1..][1..]);
    }
  }

  /** Every result can get through: from every reachable state one connection that lasts empties the
    * queue, and then the client has processed exactly what was produced. */
  lemma ResultsGetThrough(acts: seq<Action>) returns (more: seq<Action>)
    ensures Run(acts + more).queue == {} && Run(acts + more).handled == Run(acts).produced == Run(acts + more).produced
  {
    var rest := QueueDrains(Step(Run(acts), Reconnect));
    more := [Reconnect] + rest;
    assert more[1..] == rest;
    RunConcat(acts, more);
    NoResultLost(acts);
  }

  /** The current handler's unacknowledged deliveries; `acked` are the messages acknowledged to the broker. */
  class PendingAcks {
    var pending: map<nat, nat>
    var nextDeliveryId: nat
    var acked: seq<nat>

    /** Delivery ids of one handler are never reused. */
    ghost predicate Valid()
      reads this
    {
      forall d :: d in pending ==> 0 < d <= nextDeliveryId
    }

    constructor ()
      ensures Valid() && pending == map[] && nextDeliveryId == 0 && acked == []
    {
      pending, nextDeliveryId, acked := map[], 0, [];
    }

    /** `_register_pending_ack`. */
    method Register(m: nat) returns (delivery: nat)
      requires Valid()
      modifies this
      ensures Valid() && acked == old(acked) && nextDeliveryId == delivery == old(nextDeliveryId) + 1
      ensures delivery !in old(pending) && pending == old(pending)[delivery := m]
    {
      nextDeliveryId := nextDeliveryId + 1;
      delivery := nextDeliveryId;
      pending := pending[delivery := m];
    }

    /** `_on_result_ack`: the broker is told once; an unknown or repeated acknowledgement is ignored. */
    method OnResultAck(delivery: nat)
      requires Valid()
      modifies this
      ensures Valid() && nextDeliveryId == old(nextDeliveryId) && pending == old(pending) - {delivery}
      ensures acked == old(acked) + if delivery in old(pending) then [old(pending)[delivery]] else []
    {
      if delivery in pending {
        acked := acked + [pending[delivery]];
        pending := pending - {delivery};
      }
    }
  }
}
