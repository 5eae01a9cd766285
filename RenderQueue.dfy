/** The client-side inbound render-batch buffer of one browser renderer
    (`RenderQueue`), and the process-wide table of such buffers. */
module RenderQueueModel {
  import opened Common
  import opened Inbound

  /** How `Enqueue` classified an arriving batch. */
  datatype BatchStatus = Pending | Processed | Queued

  class RenderQueue {
    const browserRendererId: int
    /** Batches that arrived but have not been applied yet, by batch id. */
    var pendingRenders: map<int, Payload>
    /** The id of the next batch to apply. */
    var nextRenderId: int

    /** Batch ids start at 2, and no batch below the next one to apply is
        ever kept. */
    ghost predicate Valid()
      reads this
    {
      nextRenderId >= 2 && Ordered(pendingRenders, nextRenderId)
    }

    constructor (browserRendererId: int)
      ensures Valid()
      ensures this.browserRendererId == browserRendererId
      ensures pendingRenders == map[] && nextRenderId == 2
      ensures GetLastBatchId() == 1
    {
      this.browserRendererId := browserRendererId;
      pendingRenders := map[];
      nextRenderId := 2;
    }

    /** Buffers an arriving batch. A batch below the next expected id was
        already applied; a batch already buffered keeps its first payload;
        anything else is stored. The next expected id never changes here. */
    method Enqueue(receivedBatchId: int, receivedBatchData: Payload) returns (status: BatchStatus)
      requires Valid()
      modifies this
      ensures Valid()
      ensures nextRenderId == old(nextRenderId)
      ensures receivedBatchId < old(nextRenderId) ==>
                status == Processed && pendingRenders == old(pendingRenders)
      ensures old(nextRenderId) <= receivedBatchId && receivedBatchId in old(pendingRenders) ==>
                status == Pending && pendingRenders == old(pendingRenders)
      ensures old(nextRenderId) <= receivedBatchId && receivedBatchId !in old(pendingRenders) ==>
                status == Queued && pendingRenders == old(pendingRenders)[receivedBatchId := receivedBatchData]
    {
      if receivedBatchId < nextRenderId {
        return Processed;
      }
      if receivedBatchId in pendingRenders {
        return Pending;
      }
      pendingRenders := pendingRenders[receivedBatchId := receivedBatchData];
      return Queued;
    }

    /** Applies every buffered batch of the unbroken run that starts at the
        next expected id, in order, acknowledging each one three times. When
        applying a batch throws, that batch has already been dequeued: the
        failure is reported for that batch id and the drain stops (the
        exception is rethrown, modelled by `threw`). */
    method RenderPendingBatches(connection: Connection, failing: set<(int, int, Payload)>)
      returns (rendered: seq<int>, threw: bool)
      requires Valid()
      modifies this, connection
      ensures Valid()
      ensures Drain(old(pendingRenders), old(nextRenderId), browserRendererId, failing) ==
        Drained(rendered, pendingRenders, nextRenderId, threw)
      ensures threw ==> |rendered| > 0
      ensures connection.sent == old(connection.sent) +
        DrainMessages(Drained(rendered, pendingRenders, nextRenderId, threw), nextRenderId - 1)
    {
      rendered, threw := ApplyRun(connection, failing);
      if threw {
        connection.Send(OnRenderCompleted(nextRenderId - 1, true));
      }
    }

    /** The body of the drain's `try` block: dequeue and apply batches while
        the next one has arrived, stopping at the first that throws. */
    method ApplyRun(connection: Connection, failing: set<(int, int, Payload)>)
      returns (rendered: seq<int>, threw: bool)
      requires Valid()
      modifies this, connection
      ensures Valid()
      ensures Drain(old(pendingRenders), old(nextRenderId), browserRendererId, failing) ==
        Drained(rendered, pendingRenders, nextRenderId, threw)
      ensures threw ==> |rendered| > 0
      ensures connection.sent == old(connection.sent) +
        Acks(if threw then rendered[..|rendered| - 1] else rendered)
    {
      ghost var pending0, next0 := pendingRenders, nextRenderId;
      rendered, threw := [], false;
      while true
        invariant Valid()
        invariant DrainedUpTo(pending0, next0, browserRendererId, failing, nextRenderId, pendingRenders)
        invariant rendered == Range(next0, nextRenderId)
        invariant connection.sent == old(connection.sent) + Acks(rendered)
        decreases |pendingRenders|
      {
        ghost var before, upTo := pendingRenders, nextRenderId;
        var batchId, failed := RenderNextBatch(connection, failing);
        if batchId.None? {
          DrainEndsAtGap(pending0, next0, browserRendererId, failing, nextRenderId, pendingRenders, rendered);
          return;
        }
        if failed {
          ghost var applied := rendered;
          rendered, threw := rendered + [batchId.value], true;
          assert rendered[..|rendered| - 1] == applied;
          DrainEndsOnThrow(pending0, next0, browserRendererId, failing, upTo, before,
                           rendered, pendingRenders, nextRenderId);
          return;
        }
        DrainAdvances(pending0, next0, browserRendererId, failing, upTo, before);
        RangeExtend(next0, upTo);
        AcksExtend(old(connection.sent), connection.sent, rendered, upTo);
        rendered := rendered + [batchId.value];
      }
    }

    /** One turn of the drain loop: dequeue the next batch if it has arrived
        and apply it, acknowledging it unless applying it throws. */
    method RenderNextBatch(connection: Connection, failing: set<(int, int, Payload)>)
      returns (batchId: Option<int>, failed: bool)
      requires Valid()
      modifies this, connection
      ensures Valid()
      ensures old(nextRenderId) !in old(pendingRenders) ==>
                && batchId == None && !failed && connection.sent == old(connection.sent)
                && pendingRenders == old(pendingRenders) && nextRenderId == old(nextRenderId)
      ensures old(nextRenderId) in old(pendingRenders) ==>
                && batchId == Some(old(nextRenderId))
                && pendingRenders == old(pendingRenders) - {old(nextRenderId)}
                && nextRenderId == old(nextRenderId) + 1
                && failed == ((browserRendererId, old(nextRenderId), old(pendingRenders)[old(nextRenderId)]) in failing)
                && connection.sent == old(connection.sent) + (if failed then [] else Acks([old(nextRenderId)]))
    {
      var next := TryDequeueNextBatch();
      if next.None? {
        return None, false;
      }
      var (id, batchData) := next.value;
      batchId := Some(id);
      failed := (browserRendererId, id, batchData) in failing;
      if !failed {
        CompleteBatch(connection, id);
      }
    }

    /** Removes and returns the batch with the next expected id, advancing
        the counter by one; returns nothing and changes nothing when that
        batch has not arrived. */
    method TryDequeueNextBatch() returns (next: Option<(int, Payload)>)
      requires Valid()
      modifies this
      ensures Valid()
      ensures old(nextRenderId) in old(pendingRenders) ==>
                && next == Some((old(nextRenderId), old(pendingRenders)[old(nextRenderId)]))
                && pendingRenders == old(pendingRenders) - {old(nextRenderId)}
                && nextRenderId == old(nextRenderId) + 1
      ensures old(nextRenderId) !in old(pendingRenders) ==>
                next == None && pendingRenders == old(pendingRenders) && nextRenderId == old(nextRenderId)
    {
      var batchId := nextRenderId;
      if batchId in pendingRenders {
        var batchData := pendingRenders[batchId];
        DequeueBatch();
        return Some((batchId, batchData));
      }
      return None;
    }

    /** The id of the last batch applied: every buffered batch lies above it. */
    function GetLastBatchId(): (last: int)
      reads this
      requires Valid()
      ensures last >= 1
      ensures forall id :: id in pendingRenders ==> last < id
    {
      nextRenderId - 1
    }

    /** Drops the entry at the next expected id before advancing past it. */
    method DequeueBatch()
      requires Valid()
      modifies this
      ensures Valid()
      ensures pendingRenders == old(pendingRenders) - {old(nextRenderId)}
      ensures nextRenderId == old(nextRenderId) + 1
    {
      pendingRenders := pendingRenders - {nextRenderId};
      nextRenderId := nextRenderId + 1;
    }
  }

  /** The table of render queues, one per browser renderer id (a static map
      in the source, an explicit object here). */
  class RenderQueues {
    var renderQueues: map<int, RenderQueue>
    /** The registered queues. */
    ghost var Repr: set<RenderQueue>

    /** Every registered queue belongs to the renderer it is registered
        for and keeps its own buffer invariant. */
    ghost predicate Valid()
      reads this, Repr
    {
      forall id :: id in renderQueues ==>
        && renderQueues[id] in Repr
        && renderQueues[id].browserRendererId == id
        && renderQueues[id].Valid()
    }

    constructor ()
      ensures Valid() && renderQueues == map[] && Repr == {}
    {
      renderQueues := map[];
      Repr := {};
    }

    /** Returns the queue registered for the renderer, creating and
        registering a fresh, empty one the first time the id is seen. */
    method GetOrCreateQueue(browserRendererId: int) returns (queue: RenderQueue)
      requires Valid()
      modifies this
      ensures Valid()
      ensures queue in Repr && queue.Valid() && queue.browserRendererId == browserRendererId
      ensures browserRendererId in renderQueues && renderQueues[browserRendererId] == queue
      ensures browserRendererId in old(renderQueues) ==>
                && queue == old(renderQueues)[browserRendererId]
                && renderQueues == old(renderQueues) && Repr == old(Repr)
      ensures browserRendererId !in old(renderQueues) ==>
                && fresh(queue)
                && queue.pendingRenders == map[] && queue.nextRenderId == 2
                && renderQueues == old(renderQueues)[browserRendererId := queue]
                && Repr == old(Repr) + {queue}
    {
      if browserRendererId in renderQueues {
        return renderQueues[browserRendererId];
      }
      queue := new RenderQueue(browserRendererId);
      renderQueues := renderQueues[browserRendererId := queue];
      Repr := Repr + {queue};
    }

    /** Asking twice for the same renderer id yields the same queue. */
    method GetOrCreateQueueTwice(browserRendererId: int) returns (first: RenderQueue, second: RenderQueue)
      requires Valid()
      modifies this
      ensures Valid()
      ensures browserRendererId in renderQueues
      ensures first == second && renderQueues[browserRendererId] == first && first.Valid()
    {
      first := GetOrCreateQueue(browserRendererId);
      second := GetOrCreateQueue(browserRendererId);
    }
  }

  /** A queue obtained by a second lookup is the renderer's own, usable
      buffer: a batch enqueued through it is buffered in the queue the first
      lookup returned. */
  method EnqueueThroughSecondLookup(browserRendererId: int, data: Payload)
    returns (status: BatchStatus, buffered: map<int, Payload>)
    ensures status == Queued && buffered == map[2 := data]
  {
    var queues := new RenderQueues();
    var first := queues.GetOrCreateQueue(browserRendererId);
    var second := queues.GetOrCreateQueue(browserRendererId);
    status := second.Enqueue(2, data);
    buffered := first.pendingRenders;
  }
}
