/** The older client-side copy of the inbound buffer (`RenderTracker`), the
    `JS.RenderBatch` handler that drains it, and the two small pieces of
    boot logic around circuits: collecting the ids of prerendered circuits
    without repeats, and folding the reconnect results. */
module BootServer {
  import opened Common
  import opened Inbound

  /** What the tracker keeps per browser renderer. */
  datatype RendererRecord = RendererRecord(nextRenderId: int, pendingRenders: map<int, Payload>)

  /** The record a renderer gets the first time one of its batches arrives. */
  function NewRecord(): (rec: RendererRecord)
    ensures RecordValid(rec) && rec.pendingRenders == map[]
  {
    RendererRecord(2, map[])
  }

  /** The buffer invariant of one record, as in `RenderQueue`. */
  predicate RecordValid(rec: RendererRecord) {
    rec.nextRenderId >= 2 && Ordered(rec.pendingRenders, rec.nextRenderId)
  }

  /** The record the tracker uses for a renderer: the stored one, or a new one. */
  function RecordFor(trackedRenders: map<int, RendererRecord>, browserRendererId: int): RendererRecord {
    if browserRendererId in trackedRenders then trackedRenders[browserRendererId] else NewRecord()
  }

  /** `trackRender` on one record: a batch below the next expected id is
      dropped; any other is stored under its id, replacing whatever payload
      was stored there before. */
  function Track(rec: RendererRecord, renderId: int, data: Payload): (r: RendererRecord)
    ensures r.nextRenderId == rec.nextRenderId
    ensures renderId < rec.nextRenderId ==> r == rec
    ensures renderId >= rec.nextRenderId ==>
              renderId in r.pendingRenders && r.pendingRenders[renderId] == data
  {
    if renderId < rec.nextRenderId then rec
    else rec.(pendingRenders := rec.pendingRenders[renderId := data])
  }

  /** Tracking keeps the buffer invariant and never moves the counter; the
      batch is buffered exactly when its id is not below the counter, and
      every other buffered batch keeps its payload. */
  lemma TrackKeepsRecord(rec: RendererRecord, renderId: int, data: Payload)
    requires RecordValid(rec)
    ensures var r := Track(rec, renderId, data);
      && RecordValid(r)
      && r.nextRenderId == rec.nextRenderId
      && (renderId >= rec.nextRenderId ==>
            renderId in r.pendingRenders && r.pendingRenders[renderId] == data)
      && (renderId < rec.nextRenderId ==> renderId !in r.pendingRenders && r == rec)
      && (forall id :: id != renderId ==>
            (id in r.pendingRenders <==> id in rec.pendingRenders))
      && (forall id :: id != renderId && id in r.pendingRenders ==>
            r.pendingRenders[id] == rec.pendingRenders[id])
  {
  }

  /** A batch that arrives twice keeps the payload of its last arrival, unlike
      `RenderQueue.Enqueue`, which keeps the first. */
  lemma TrackLastWins(rec: RendererRecord, renderId: int, first: Payload, second: Payload)
    ensures Track(Track(rec, renderId, first), renderId, second) == Track(rec, renderId, second)
    ensures renderId >= rec.nextRenderId ==>
      Track(Track(rec, renderId, first), renderId, second).pendingRenders[renderId] == second
  {
  }

  /** The tracker: one record per browser renderer id (a static map in the
      source, an explicit object here). */
  class RenderTracker {
    var trackedRenders: map<int, RendererRecord>

    ghost predicate Valid()
      reads this
    {
      forall id :: id in trackedRenders ==> RecordValid(trackedRenders[id])
    }

    constructor ()
      ensures Valid() && trackedRenders == map[]
    {
      trackedRenders := map[];
    }

    /** Buffers an arriving batch, creating the renderer's record on first
        use; a batch below the next expected id is dropped. */
    method TrackRender(browserRendererId: int, renderId: int, data: Payload)
      requires Valid()
      modifies this
      ensures Valid()
      ensures trackedRenders ==
        old(trackedRenders)[browserRendererId := Track(RecordFor(old(trackedRenders), browserRendererId), renderId, data)]
    {
      var record := if browserRendererId in trackedRenders then trackedRenders[browserRendererId]
                    else NewRecord();
      trackedRenders := trackedRenders[browserRendererId := record];
      TrackKeepsRecord(record, renderId, data);
      if renderId < record.nextRenderId {
        return;
      }
      trackedRenders := trackedRenders[browserRendererId := record.(pendingRenders := record.pendingRenders[renderId := data])];
    }

    /** Removes and returns the batch with the renderer's next expected id,
        advancing its counter; returns nothing and changes nothing when that
        batch has not arrived. The renderer must already be tracked. */
    method GetNextBatchToRender(browserRendererId: int) returns (next: Option<(int, Payload)>)
      requires Valid() && browserRendererId in trackedRenders
      modifies this
      ensures Valid()
      ensures var rec := old(trackedRenders)[browserRendererId];
        && (rec.nextRenderId in rec.pendingRenders ==>
              && next == Some((rec.nextRenderId, rec.pendingRenders[rec.nextRenderId]))
              && trackedRenders == old(trackedRenders)[browserRendererId :=
                   RendererRecord(rec.nextRenderId + 1, rec.pendingRenders - {rec.nextRenderId})])
        && (rec.nextRenderId !in rec.pendingRenders ==>
              next == None && trackedRenders == old(trackedRenders))
    {
      var renderRecord := trackedRenders[browserRendererId];
      var nextRenderId := renderRecord.nextRenderId;
      if nextRenderId in renderRecord.pendingRenders {
        var nextRenderBatch := renderRecord.pendingRenders[nextRenderId];
        trackedRenders := trackedRenders[browserRendererId :=
          RendererRecord(nextRenderId + 1, renderRecord.pendingRenders - {nextRenderId})];
        return Some((nextRenderId, nextRenderBatch));
      }
      return None;
    }

    /** The `JS.RenderBatch` handler: track the arriving batch, then apply
        the unbroken run of buffered batches from the next expected id. When
        applying a batch throws, the failure is reported with the id of the
        batch that just ARRIVED (`renderId`), which need not be the one that
        threw, and the exception is rethrown (modelled by `threw`). */
    method OnRenderBatch(connection: Connection, failing: set<(int, int, Payload)>,
                         browserRendererId: int, renderId: int, batchData: Payload)
      returns (rendered: seq<int>, threw: bool)
      requires Valid()
      modifies this, connection
      ensures Valid()
      ensures var rec := Track(RecordFor(old(trackedRenders), browserRendererId), renderId, batchData);
        var d := Drain(rec.pendingRenders, rec.nextRenderId, browserRendererId, failing);
        && d.rendered == rendered && d.failed == threw
        && trackedRenders == old(trackedRenders)[browserRendererId := RendererRecord(d.next, d.pending)]
        && (d.failed ==> |d.rendered| > 0)
        && connection.sent == old(connection.sent) + DrainMessages(d, renderId)
    {
      TrackRender(browserRendererId, renderId, batchData);
      rendered, threw := ApplyTracked(connection, failing, browserRendererId);
      if threw {
        connection.Send(OnRenderCompleted(renderId, true));
      }
    }

    /** The `try` block's loop: fetch and apply batches while the next one
        has arrived, acknowledging each, and stop at the first that throws. */
    method ApplyTracked(connection: Connection, failing: set<(int, int, Payload)>, browserRendererId: int)
      returns (rendered: seq<int>, threw: bool)
      requires Valid() && browserRendererId in trackedRenders
      modifies this, connection
      ensures Valid()
      ensures var rec := old(trackedRenders)[browserRendererId];
        var d := Drain(rec.pendingRenders, rec.nextRenderId, browserRendererId, failing);
        && d.rendered == rendered && d.failed == threw
        && trackedRenders == old(trackedRenders)[browserRendererId := RendererRecord(d.next, d.pending)]
      ensures threw ==> |rendered| > 0
      ensures connection.sent == old(connection.sent) +
        Acks(if threw then rendered[..|rendered| - 1] else rendered)
    {
      ghost var rec0 := trackedRenders[browserRendererId];
      ghost var pending0, next0 := rec0.pendingRenders, rec0.nextRenderId;
      rendered, threw := [], false;
      while true
        invariant Valid() && browserRendererId in trackedRenders
        invariant trackedRenders == old(trackedRenders)[browserRendererId := trackedRenders[browserRendererId]]
        invariant DrainedUpTo(pending0, next0, browserRendererId, failing,
                              trackedRenders[browserRendererId].nextRenderId,
                              trackedRenders[browserRendererId].pendingRenders)
        invariant rendered == Range(next0, trackedRenders[browserRendererId].nextRenderId)
        invariant connection.sent == old(connection.sent) + Acks(rendered)
        decreases |trackedRenders[browserRendererId].pendingRenders|
      {
        ghost var before := trackedRenders[browserRendererId].pendingRenders;
        ghost var upTo := trackedRenders[browserRendererId].nextRenderId;
        var next := GetNextBatchToRender(browserRendererId);
        // The source also stops on a batch id of 0; ids start at 2, so
        // that test never fires.
        if next.None? {
          DrainEndsAtGap(pending0, next0, browserRendererId, failing, upTo, before, rendered);
          return;
        }
        var (nextId, nextData) := next.value;
        if (browserRendererId, nextId, nextData) in failing {
          ghost var applied := rendered;
          rendered, threw := rendered + [nextId], true;
          assert rendered[..|rendered| - 1] == applied;
          DrainEndsOnThrow(pending0, next0, browserRendererId, failing, upTo, before,
                           rendered, before - {upTo}, upTo + 1);
          return;
        }
        CompleteBatch(connection, nextId);
        DrainAdvances(pending0, next0, browserRendererId, failing, upTo, before);
        RangeExtend(next0, upTo);
        AcksExtend(old(connection.sent), connection.sent, rendered, upTo);
        rendered := rendered + [nextId];
      }
    }
  }

  /** The handler's failure report names the batch that just arrived, which
      need not be the one that threw. Batch 3 arrives first and waits for 2;
      when 2 arrives, 2 is applied and acknowledged and then 3 throws, and
      the failure is reported for 2, while nothing at all is sent about 3. */
  method ReportNamesArrivingBatch(browserRendererId: int, data: Payload)
    returns (sent: seq<Message>, rendered: seq<int>, threw: bool)
    ensures rendered == [2, 3] && threw
    ensures sent == Acks([2]) + [OnRenderCompleted(2, true)]
    ensures forall m :: m in sent ==> m.batchId != 3
  {
    var tracker := new RenderTracker();
    var connection := new Connection();
    var failing := {(browserRendererId, 3, data)};
    ghost var waiting := map[3 := data];
    assert Track(NewRecord(), 3, data) == RendererRecord(2, waiting);
    assert Drain(waiting, 2, browserRendererId, failing) == Drained([], waiting, 2, false);
    rendered, threw := tracker.OnRenderBatch(connection, failing, browserRendererId, 3, data);
    assert connection.sent == [];
    assert tracker.trackedRenders[browserRendererId] == RendererRecord(2, waiting);
    ghost var pending := waiting[2 := data];
    assert Track(RendererRecord(2, waiting), 2, data) == RendererRecord(2, pending);
    assert (browserRendererId, 2, data) !in failing;
    assert Drain(pending - {2}, 3, browserRendererId, failing) == Drained([3], map[], 4, true) by {
      assert (pending - {2})[3] == data;
      assert (pending - {2}) - {3} == map[];
    }
    assert Drain(pending, 2, browserRendererId, failing) == Drained([2, 3], map[], 4, true);
    rendered, threw := tracker.OnRenderBatch(connection, failing, browserRendererId, 2, data);
    sent := connection.sent;
  }

  /** The circuit ids of the prerendered elements, each kept once, in order
      of first appearance. */
  function Dedup<T(==,!new)>(s: seq<T>): (d: seq<T>)
    ensures NoDuplicates(d)
    ensures forall x :: x in d <==> x in s
  {
    if s == [] then []
    else
      var d := Dedup(s[..|s| - 1]);
      var last := s[|s| - 1];
      assert forall x :: x in s <==> x in s[..|s| - 1] || x == last by {
        assert s == s[..|s| - 1] + [last];
      }
      if last in d then d else d + [last]
  }

  /** A sequence already free of repeats is its own de-duplication. */
  lemma {:induction false} DedupOfDistinct<T(!new)>(s: seq<T>)
    requires NoDuplicates(s)
    ensures Dedup(s) == s
  {
    if s != [] {
      var init := s[..|s| - 1];
      assert NoDuplicates(init);
      DedupOfDistinct(init);
      assert s[|s| - 1] !in init;
      assert init + [s[|s| - 1]] == s;
    }
  }

  /** The discovery loop over the prerendered elements: a circuit id is
      pushed only when it is not in the list yet. */
  method DiscoverCircuitIds(found: seq<seq<char>>) returns (circuitIds: seq<seq<char>>)
    ensures circuitIds == Dedup(found)
  {
    circuitIds := [];
    for i := 0 to |found|
      invariant circuitIds == Dedup(found[..i])
    {
      var circuitId := found[i];
      assert found[..i + 1][..i] == found[..i];
      if circuitId !in circuitIds {
        circuitIds := circuitIds + [circuitId];
      }
    }
    assert found[..|found|] == found;
  }

  /** After `StartCircuit`, a returned id that is present and not empty is
      appended to the list, without the repeat check of the discovery loop. */
  function WithStartedCircuit(circuitIds: seq<seq<char>>, circuitId: Option<seq<char>>): (ids: seq<seq<char>>)
    ensures circuitId.Some? && circuitId.value != [] ==> ids == circuitIds + [circuitId.value]
    ensures circuitId.None? || circuitId.value == [] ==> ids == circuitIds
  {
    if circuitId.Some? && circuitId.value != [] then circuitIds + [circuitId.value] else circuitIds
  }

  /** The list stays free of repeats as long as the started circuit is a new one. */
  lemma StartedCircuitKeepsDistinct(circuitIds: seq<seq<char>>, circuitId: Option<seq<char>>)
    requires NoDuplicates(circuitIds)
    ensures NoDuplicates(WithStartedCircuit(circuitIds, circuitId)) <==>
      (circuitId.None? || circuitId.value == [] || circuitId.value !in circuitIds)
  {
    var ids := WithStartedCircuit(circuitIds, circuitId);
    if circuitId.Some? && circuitId.value != [] && circuitId.value in circuitIds {
      var i :| 0 <= i < |circuitIds| && circuitIds[i] == circuitId.value;
      assert ids[i] == ids[|circuitIds|];
    }
  }

  /** `results.reduce((current, next) => current && next, acc)`. */
  function FoldAnd(acc: bool, results: seq<bool>): (all: bool)
    ensures all <==> acc && forall i :: 0 <= i < |results| ==> results[i]
  {
    if results == [] then acc
    else
      var r := FoldAnd(acc && results[0], results[1..]);
      assert forall i :: 1 <= i < |results| ==> results[i] == results[1..][i - 1];
      r
  }

  /** The outcome of `reconnect` given the `ConnectCircuit` answer for each
      circuit id: success (and the `onConnectionUp` notifications) only when
      every circuit accepted the new connection. With no circuits to
      reconnect it succeeds; one refusal is enough to fail, whatever the
      others answered. */
  function Reconnect(results: seq<bool>): (reconnected: bool)
    ensures results == [] ==> reconnected
    ensures reconnected <==> false !in results
  {
    var all := FoldAnd(true, results);
    assert false in results ==> !all by {
      if false in results {
        var i :| 0 <= i < |results| && results[i] == false;
      }
    }
    all
  }
}
