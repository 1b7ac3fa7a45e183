/** What one `StatefulWorker` does to the counters of one flow when a ring token, an EOF or a
  * data message reaches it (`src/common/worker/stateful_worker.py`). `StatefulWorker.dfy` proves
  * the imperative handlers against these functions; `RingProtocol.dfy` runs N of them. */
module RingNode {
  import opened Options
  import opened Ids

  /** The four per-flow counters: totals, and the totals last reported to the ring. */
  datatype Counters = Counters(processed: int, partialProcessed: int, sent: int, partialSent: int)

  const NO_COUNTS := Counters(0, 0, 0, 0)

  /** One node's record of one flow: the ids seen on the main and control channels, and the counters. */
  datatype Node = Node(main: set<string>, control: set<string>, counters: Counters)

  const NO_NODE := Node({}, {}, NO_COUNTS)

  datatype RingEof = RingEof(expected: int, totalProcessed: int, coordinator: Option<nat>, totalSent: Option<int>)

  datatype RingMsg = RingMsg(id: string, eof: RingEof)

  datatype Outcome = Forward(msg: RingMsg) | FinalEof(count: int)

  function NextNode(self: nat, size: nat): nat
    requires size > 0
  {
    (self + 1) % size
  }

  function Reported(c: Counters): Counters {
    c.(partialProcessed := c.processed, partialSent := c.sent)
  }

  /** `_update_ring_eof`: add what this node has not reported yet and see whether that is all. */
  function UpdateRingEof(self: nat, c: Counters, eof: RingEof): RingEof {
    var total := eof.totalProcessed + c.processed - c.partialProcessed;
    RingEof(eof.expected, total,
            if total >= eof.expected then Some(self) else None,
            Some(eof.totalSent.GetOr(0) + c.sent - c.partialSent))
  }

  function IsCleanup(eof: RingEof): bool { eof.expected == CLEANUP_EXPECTED_COUNT }

  function ActionPhase(eof: RingEof): string {
    if IsCleanup(eof) then RING_PHASE_CLEANUP else RING_PHASE_FLUSH
  }

  /** The counters once the node has flushed (sending `batches` batches) and reported its sends. */
  function Flushed(c: Counters, batches: nat): Counters {
    c.(sent := c.sent + batches, partialSent := c.sent + batches)
  }

  /** Counters after a ring token; `batches` is what the flush sends in a flush round. */
  function CountersAfterToken(c: Counters, msg: RingMsg, batches: nat): Counters {
    if msg.eof.coordinator.None? then Reported(c)
    else if IsCleanup(msg.eof) then NO_COUNTS
    else Flushed(c, batches)
  }

  /** What the node sends in answer to a ring token. */
  function TokenOutcome(self: nat, client: string, c: Counters, msg: RingMsg, batches: nat): Outcome {
    var next := RingSeqOf(msg.id) + 1;
    if msg.eof.coordinator.None? then
      var eof := UpdateRingEof(self, c, msg.eof);
      if eof.coordinator == Some(self) then
        Forward(RingMsg(RingId(client, ActionPhase(eof), if IsCleanup(eof) then next else 0), eof))
      else
        Forward(RingMsg(RingId(client, RING_PHASE_COUNT, next), eof))
    else
      var eof := if IsCleanup(msg.eof) then msg.eof
                 else msg.eof.(totalSent := Some(msg.eof.totalSent.GetOr(0) + c.sent + batches - c.partialSent));
      if eof.coordinator == Some(self) then
        FinalEof(if IsCleanup(eof) then CLEANUP_EXPECTED_COUNT else eof.totalSent.GetOr(0))
      else
        Forward(RingMsg(RingId(client, ActionPhase(eof), next), eof))
  }

  /** The token a node starts when the EOF of its flow arrives. */
  function StartToken(client: string, c: Counters, expected: int): RingMsg {
    RingMsg(RingId(client, if expected == CLEANUP_EXPECTED_COUNT then RING_PHASE_CLEANUP else RING_PHASE_COUNT, 0),
            RingEof(expected, c.processed - c.partialProcessed, None, Some(c.sent - c.partialSent)))
  }

  /** Counters after a data message whose handling sent `sends` messages. */
  function CountersAfterData(c: Counters, sends: nat): Counters {
    c.(processed := c.processed + 1, sent := c.sent + sends)
  }

  /** In the flush round the hop number goes up by one, until the token is back at the coordinator. */
  lemma FlushOutcome(self: nat, client: string, c: Counters, msg: RingMsg, batches: nat, hop: nat)
    requires msg.id == RingId(client, RING_PHASE_FLUSH, hop)
    requires msg.eof.coordinator.Some? && !IsCleanup(msg.eof)
    ensures var total := msg.eof.totalSent.GetOr(0) + c.sent + batches - c.partialSent;
      TokenOutcome(self, client, c, msg, batches) ==
        if msg.eof.coordinator == Some(self) then FinalEof(total)
        else Forward(RingMsg(RingId(client, RING_PHASE_FLUSH, hop + 1), msg.eof.(totalSent := Some(total))))
  {
    RingSeqRoundTrip(client, RING_PHASE_FLUSH, hop);
  }
}
