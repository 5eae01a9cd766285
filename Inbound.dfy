/** The reordering discipline shared by both client-side copies of the inbound
    render-batch buffer (`RenderQueue` and the older `RenderTracker`): batches
    are buffered by id and applied over the longest unbroken run of ids that
    starts at the next expected id. This module states that discipline as
    functions and proves what it guarantees; the two classes are proved
    against it. */
module Inbound {
  import opened Common

  /** Length of the unbroken run of buffered ids `next, next + 1, ...`. */
  function RunLength(pending: map<int, Payload>, next: int): (n: nat)
    ensures forall id :: next <= id < next + n ==> id in pending
    ensures next + n !in pending
    decreases |pending|
  {
    if next in pending then
      assert |pending - {next}| < |pending| by {
        assert (pending - {next}).Keys < pending.Keys;
      }
      var m := RunLength(pending - {next}, next + 1);
      assert forall id :: next < id < next + 1 + m ==> id in pending by {
        forall id | next < id < next + 1 + m ensures id in pending {
          assert id in pending - {next};
        }
      }
      1 + m
    else 0
  }

  /** What one drain of the buffer does: the ids handed to the batch applier
      in order, the buffer and the next expected id afterwards, and whether
      the applier threw (on the last id of `rendered`). */
  datatype Drained = Drained(rendered: seq<int>, pending: map<int, Payload>, next: int, failed: bool)

  /** The drain loop as a function. `failing` holds the (renderer id, batch id,
      payload) triples whose application throws (the batch applier is not
      part of this model); a batch is always dequeued before it is
      applied, so a throwing batch is consumed as well. */
  function Drain(pending: map<int, Payload>, next: int, rendererId: int,
                 failing: set<(int, int, Payload)>): (d: Drained)
    ensures d.next == next + |d.rendered|
    ensures d.failed ==> d.rendered != []
    decreases |pending|
  {
    if next !in pending then Drained([], pending, next, false)
    else
      assert |pending - {next}| < |pending| by {
        assert (pending - {next}).Keys < pending.Keys;
      }
      if (rendererId, next, pending[next]) in failing then
        Drained([next], pending - {next}, next + 1, true)
      else
        var d := Drain(pending - {next}, next + 1, rendererId, failing);
        d.(rendered := [next] + d.rendered)
  }

  /** The consecutive ids `lo, lo + 1, ..., hi - 1`. */
  function Range(lo: int, hi: int): (ids: seq<int>)
    requires lo <= hi
    ensures |ids| == hi - lo
    ensures forall k :: 0 <= k < |ids| ==> ids[k] == lo + k
  {
    seq(hi - lo, k => lo + k)
  }

  /** A drain from `next` has got as far as `upTo`: each id before `upTo`
      was buffered and applied without an exception, and the buffer holds
      what is left. */
  ghost predicate DrainedUpTo(pending: map<int, Payload>, next: int, rendererId: int,
                              failing: set<(int, int, Payload)>, upTo: int, now: map<int, Payload>)
  {
    && next <= upTo
    && (forall id :: next <= id < upTo ==> id in pending && (rendererId, id, pending[id]) !in failing)
    && (forall id :: id in now <==> id in pending && !(next <= id < upTo))
    && (forall id :: id in now ==> now[id] == pending[id])
  }

  /** A drain part of the way through is that part followed by a drain of
      what is left. */
  lemma {:induction false} DrainSplits(pending: map<int, Payload>, next: int, rendererId: int,
                                       failing: set<(int, int, Payload)>, upTo: int, now: map<int, Payload>)
    requires DrainedUpTo(pending, next, rendererId, failing, upTo, now)
    ensures Drain(pending, next, rendererId, failing) ==
            Resume(Range(next, upTo), Drain(now, upTo, rendererId, failing))
    decreases upTo - next
  {
    if next == upTo {
      assert now.Keys == pending.Keys by {
        forall id ensures id in now <==> id in pending {}
      }
      assert forall id :: id in now ==> now[id] == pending[id];
      assert now == pending;
      assert Range(next, upTo) == [];
    } else {
      var rest := pending - {next};
      assert DrainedUpTo(rest, next + 1, rendererId, failing, upTo, now);
      DrainSplits(rest, next + 1, rendererId, failing, upTo, now);
      var tail := Drain(now, upTo, rendererId, failing);
      assert Range(next, upTo) == [next] + Range(next + 1, upTo);
      assert [next] + (Range(next + 1, upTo) + tail.rendered) == ([next] + Range(next + 1, upTo)) + tail.rendered;
    }
  }

  /** One more batch applied cleanly: the drain has got one id further. */
  lemma DrainAdvances(pending: map<int, Payload>, next: int, rendererId: int,
                      failing: set<(int, int, Payload)>, upTo: int, now: map<int, Payload>)
    requires DrainedUpTo(pending, next, rendererId, failing, upTo, now)
    requires upTo in now && (rendererId, upTo, now[upTo]) !in failing
    ensures DrainedUpTo(pending, next, rendererId, failing, upTo + 1, now - {upTo})
    ensures |now - {upTo}| < |now|
  {
    assert (now - {upTo}).Keys < now.Keys;
  }

  /** A run of consecutive ids extended by the id after it. */
  lemma RangeExtend(lo: int, hi: int)
    requires lo <= hi
    ensures Range(lo, hi) + [hi] == Range(lo, hi + 1)
  {
  }

  /** Acknowledging one more batch extends the acknowledgements of the run. */
  lemma AcksExtend(sent0: seq<Message>, sent: seq<Message>, done: seq<int>, id: int)
    requires sent == sent0 + Acks(done) + Acks([id])
    ensures sent == sent0 + Acks(done + [id])
  {
    AcksAppend(done, [id]);
  }

  /** The drain reached an id that has not arrived: it is over, having
      applied the ids `done` before it. */
  lemma DrainEndsAtGap(pending: map<int, Payload>, next: int, rendererId: int,
                       failing: set<(int, int, Payload)>, upTo: int, now: map<int, Payload>, done: seq<int>)
    requires DrainedUpTo(pending, next, rendererId, failing, upTo, now)
    requires upTo !in now && done == Range(next, upTo)
    ensures Drain(pending, next, rendererId, failing) == Drained(done, now, upTo, false)
  {
    DrainSplits(pending, next, rendererId, failing, upTo, now);
    assert done + [] == done;
  }

  /** The drain reached a batch that throws: it is over, and that batch was
      consumed as well, leaving `after` buffered and the ids `done` applied. */
  lemma DrainEndsOnThrow(pending: map<int, Payload>, next: int, rendererId: int,
                         failing: set<(int, int, Payload)>, upTo: int, now: map<int, Payload>,
                         done: seq<int>, after: map<int, Payload>, nextAfter: int)
    requires DrainedUpTo(pending, next, rendererId, failing, upTo, now)
    requires upTo in now && (rendererId, upTo, now[upTo]) in failing
    requires done == Range(next, upTo) + [upTo] && after == now - {upTo} && nextAfter == upTo + 1
    ensures Drain(pending, next, rendererId, failing) == Drained(done, after, nextAfter, true)
  {
    DrainSplits(pending, next, rendererId, failing, upTo, now);
  }

  /** A drain applies the ids `next, next + 1, ...` in that order, each once,
      without gaps; it covers the whole ready run unless the applier throws,
      and then stops right after the batch that threw. */
  lemma {:induction false} DrainOrder(pending: map<int, Payload>, next: int, rendererId: int,
                                      failing: set<(int, int, Payload)>)
    ensures var d := Drain(pending, next, rendererId, failing);
      && (forall k :: 0 <= k < |d.rendered| ==> d.rendered[k] == next + k)
      && d.next == next + |d.rendered|
      && |d.rendered| <= RunLength(pending, next)
      && (!d.failed ==> |d.rendered| == RunLength(pending, next) && d.next !in d.pending)
    decreases |pending|
  {
    if next in pending {
      assert |pending - {next}| < |pending| by {
        assert (pending - {next}).Keys < pending.Keys;
      }
      if (rendererId, next, pending[next]) !in failing {
        DrainOrder(pending - {next}, next + 1, rendererId, failing);
        assert RunLength(pending, next) == 1 + RunLength(pending - {next}, next + 1);
      }
    }
  }

  /** Every batch a drain applied before its last one was applied without
      an exception. */
  lemma {:induction false} DrainAppliesCleanly(pending: map<int, Payload>, next: int, rendererId: int,
                                               failing: set<(int, int, Payload)>)
    ensures var d := Drain(pending, next, rendererId, failing);
      forall id :: next <= id < d.next - 1 ==> id in pending && (rendererId, id, pending[id]) !in failing
    decreases |pending|
  {
    if next in pending {
      assert |pending - {next}| < |pending| by {
        assert (pending - {next}).Keys < pending.Keys;
      }
      if (rendererId, next, pending[next]) !in failing {
        var rest := pending - {next};
        DrainAppliesCleanly(rest, next + 1, rendererId, failing);
        var sub := Drain(rest, next + 1, rendererId, failing);
        assert Drain(pending, next, rendererId, failing).next == sub.next;
        forall id | next <= id < sub.next - 1
          ensures id in pending && (rendererId, id, pending[id]) !in failing
        {
          if id != next {
            assert id in rest && rest[id] == pending[id];
          }
        }
      }
    }
  }

  /** A drain fails exactly when the last batch it applied threw. */
  lemma {:induction false} DrainFailsOnLast(pending: map<int, Payload>, next: int, rendererId: int,
                                            failing: set<(int, int, Payload)>)
    ensures var d := Drain(pending, next, rendererId, failing);
      d.failed <==> d.next - 1 >= next && d.next - 1 in pending && (rendererId, d.next - 1, pending[d.next - 1]) in failing
    decreases |pending|
  {
    if next in pending {
      assert |pending - {next}| < |pending| by {
        assert (pending - {next}).Keys < pending.Keys;
      }
      if (rendererId, next, pending[next]) !in failing {
        var rest := pending - {next};
        DrainFailsOnLast(rest, next + 1, rendererId, failing);
        DrainOrder(rest, next + 1, rendererId, failing);
        var sub := Drain(rest, next + 1, rendererId, failing);
        var last := sub.next - 1;
        if last != next {
          assert last in rest <==> last in pending;
          assert last in rest ==> rest[last] == pending[last];
        }
      }
    }
  }

  /** A drain removes exactly the ids it applied from the buffer and leaves
      every other entry, payload included, as it was. */
  lemma {:induction false} DrainRemovesApplied(pending: map<int, Payload>, next: int, rendererId: int,
                                               failing: set<(int, int, Payload)>)
    ensures var d := Drain(pending, next, rendererId, failing);
      && (forall id :: id in d.pending <==> id in pending && !(next <= id < d.next))
      && (forall id :: id in d.pending ==> d.pending[id] == pending[id])
    decreases |pending|
  {
    DrainOrder(pending, next, rendererId, failing);
    if next in pending {
      assert |pending - {next}| < |pending| by {
        assert (pending - {next}).Keys < pending.Keys;
      }
      if (rendererId, next, pending[next]) !in failing {
        DrainRemovesApplied(pending - {next}, next + 1, rendererId, failing);
        DrainOrder(pending - {next}, next + 1, rendererId, failing);
      }
    }
  }

  /** A drain that continues one already under way, after `done` were applied. */
  function Resume(done: seq<int>, rest: Drained): Drained {
    rest.(rendered := done + rest.rendered)
  }

  /** The buffer invariant: nothing is buffered below the next expected id. */
  predicate Ordered(pending: map<int, Payload>, next: int) {
    forall id :: id in pending ==> id >= next
  }

  /** A drain keeps the buffer invariant and never moves the counter back. */
  lemma DrainKeepsOrdered(pending: map<int, Payload>, next: int, rendererId: int,
                          failing: set<(int, int, Payload)>)
    requires Ordered(pending, next)
    ensures var d := Drain(pending, next, rendererId, failing);
      Ordered(d.pending, d.next) && d.next >= next
  {
    DrainOrder(pending, next, rendererId, failing);
    DrainRemovesApplied(pending, next, rendererId, failing);
  }

  /** The three acknowledgement attempts `completeBatch` makes for each id. */
  function Acks(ids: seq<int>): seq<Message>
  {
    if ids == [] then []
    else
      var ack := OnRenderCompleted(ids[0], false);
      [ack, ack, ack] + Acks(ids[1..])
  }

  lemma {:induction false} AcksAppend(a: seq<int>, b: seq<int>)
    ensures Acks(a + b) == Acks(a) + Acks(b)
  {
    if a != [] {
      assert (a + b)[0] == a[0] && (a + b)[1..] == a[1..] + b;
      AcksAppend(a[1..], b);
      var ack := OnRenderCompleted(a[0], false);
      calc {
        Acks(a + b);
        [ack, ack, ack] + Acks(a[1..] + b);
        [ack, ack, ack] + (Acks(a[1..]) + Acks(b));
        ([ack, ack, ack] + Acks(a[1..])) + Acks(b);
      }
    } else {
      assert a + b == b;
    }
  }

  /** Each id is acknowledged three times per occurrence. */
  lemma {:induction false} AcksCount(ids: seq<int>, id: int)
    ensures multiset(Acks(ids))[OnRenderCompleted(id, false)] == 3 * multiset(ids)[id]
  {
    if ids != [] {
      var x, rest := ids[0], ids[1..];
      AcksCount(rest, id);
      var n := if x == id then 1 else 0;
      assert multiset(ids)[id] == n + multiset(rest)[id] by {
        assert ids == [x] + rest;
      }
      assert multiset(Acks(ids))[OnRenderCompleted(id, false)] ==
             3 * n + multiset(Acks(rest))[OnRenderCompleted(id, false)];
    }
  }

  /** Acknowledgements are all a run of `completeBatch` calls sends: no
      failure report among them. */
  lemma {:induction false} AcksReportNoFailure(ids: seq<int>, report: Message)
    requires report.failed
    ensures multiset(Acks(ids))[report] == 0
  {
    if ids != [] {
      AcksReportNoFailure(ids[1..], report);
      var ack := OnRenderCompleted(ids[0], false);
      assert multiset(Acks(ids)) == multiset([ack, ack, ack]) + multiset(Acks(ids[1..]));
    }
  }

  /** Everything a drain sends: three acknowledgements for each batch applied
      without an exception and, when the applier threw, one failure report
      carrying `failureReportId`. */
  function DrainMessages(d: Drained, failureReportId: int): (log: seq<Message>)
    requires d.failed ==> |d.rendered| > 0
  {
    if d.failed then Acks(d.rendered[..|d.rendered| - 1]) + [OnRenderCompleted(failureReportId, true)]
    else Acks(d.rendered)
  }

  /** After a drain, each batch that was applied successfully has been
      acknowledged exactly three times and no other id is acknowledged. */
  lemma DrainAcknowledgesApplied(pending: map<int, Payload>, next: int, rendererId: int,
                                 failing: set<(int, int, Payload)>, failureReportId: int, id: int)
    ensures var d := Drain(pending, next, rendererId, failing);
      var ok := if d.failed then d.next - 1 else d.next;
      && (d.failed ==> |d.rendered| > 0)
      && multiset(DrainMessages(d, failureReportId))[OnRenderCompleted(id, false)] ==
           (if next <= id < ok then 3 else 0)
  {
    var d := Drain(pending, next, rendererId, failing);
    DrainOrder(pending, next, rendererId, failing);
    DrainFailsOnLast(pending, next, rendererId, failing);
    var applied := if d.failed then d.rendered[..|d.rendered| - 1] else d.rendered;
    assert forall k :: 0 <= k < |applied| ==> applied[k] == next + k;
    AppliedCount(applied, next, id);
    AcksCount(applied, id);
    if d.failed {
      var fail := OnRenderCompleted(failureReportId, true);
      assert multiset(DrainMessages(d, failureReportId)) == multiset(Acks(applied)) + multiset{fail};
    }
  }

  /** After a drain, there is exactly one failure report when the applier
      threw and none otherwise. */
  lemma DrainReportsFailureOnce(pending: map<int, Payload>, next: int, rendererId: int,
                                failing: set<(int, int, Payload)>, failureReportId: int)
    ensures var d := Drain(pending, next, rendererId, failing);
      && (d.failed ==> |d.rendered| > 0)
      && multiset(DrainMessages(d, failureReportId))[OnRenderCompleted(failureReportId, true)] ==
           (if d.failed then 1 else 0)
  {
    var d := Drain(pending, next, rendererId, failing);
    DrainOrder(pending, next, rendererId, failing);
    DrainFailsOnLast(pending, next, rendererId, failing);
    var applied := if d.failed then d.rendered[..|d.rendered| - 1] else d.rendered;
    var fail := OnRenderCompleted(failureReportId, true);
    AcksReportNoFailure(applied, fail);
    if d.failed {
      assert DrainMessages(d, failureReportId) == Acks(applied) + [fail];
      assert multiset(Acks(applied) + [fail]) == multiset(Acks(applied)) + multiset{fail};
    } else {
      assert DrainMessages(d, failureReportId) == Acks(applied);
    }
  }

  /** A run of consecutive ids holds each id of its range exactly once. */
  lemma {:induction false} AppliedCount(ids: seq<int>, first: int, id: int)
    requires forall k :: 0 <= k < |ids| ==> ids[k] == first + k
    ensures multiset(ids)[id] == if first <= id < first + |ids| then 1 else 0
  {
    if ids != [] {
      assert ids == ids[..|ids| - 1] + [ids[|ids| - 1]];
      AppliedCount(ids[..|ids| - 1], first, id);
    }
  }

  /** `completeBatch`: three acknowledgement attempts for one batch. The loop
      has no exit on success and a failed attempt is swallowed, so all three
      attempts are always made. */
  method CompleteBatch(connection: Connection, batchId: int)
    modifies connection
    ensures connection.sent == old(connection.sent) + Acks([batchId])
  {
    for i := 0 to 3
      invariant connection.sent == old(connection.sent) + seq(i, _ => OnRenderCompleted(batchId, false))
    {
      connection.Send(OnRenderCompleted(batchId, false));
    }
  }
}
