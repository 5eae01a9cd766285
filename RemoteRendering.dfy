/** The server side of batch delivery: the renderer's queue of render
    batches sent but not yet acknowledged, and the client proxy whose
    connection can drop and be replaced. The renderer's own source is not
    part of this model; its contract is the one its unit tests assert. */
module RemoteRendering {
  import opened Common

  /** Sends of one batch before its missing acknowledgement is fatal. */
  const MaxBatchSendAttempts: nat := 3

  /** A batch that has been produced and not yet acknowledged, with the
      number of times it has been put on the wire. */
  datatype PendingRender = PendingRender(batchId: int, attempts: nat)

  /** Pending batches are kept in increasing id order. */
  predicate Ascending(pending: seq<PendingRender>) {
    forall i, j :: 0 <= i < j < |pending| ==> pending[i].batchId < pending[j].batchId
  }

  /** The ids of the pending batches, in queue order. */
  function Ids(pending: seq<PendingRender>): (ids: seq<int>)
    ensures |ids| == |pending|
    ensures forall i :: 0 <= i < |pending| ==> ids[i] == pending[i].batchId
  {
    seq(|pending|, i requires 0 <= i < |pending| => pending[i].batchId)
  }

  /** An acknowledgement is cumulative: it retires every pending batch whose
      id is not above the acknowledged one and keeps the rest in order. */
  function Retire(pending: seq<PendingRender>, acked: int): (rest: seq<PendingRender>)
    ensures forall b :: b in rest <==> b in pending && b.batchId > acked
    ensures Ascending(pending) ==> Ascending(rest)
  {
    if pending == [] then []
    else
      var tail := Retire(pending[1..], acked);
      assert forall b :: b in pending <==> b == pending[0] || b in pending[1..] by {
        assert pending == [pending[0]] + pending[1..];
      }
      if pending[0].batchId <= acked then tail
      else
        AscendingCons(pending, tail);
        [pending[0]] + tail
  }

  /** Keeping the head of an ascending queue in front of a sub-collection of
      its tail that is itself ascending keeps the order. */
  lemma AscendingCons(pending: seq<PendingRender>, tail: seq<PendingRender>)
    requires pending != [] && forall b :: b in tail ==> b in pending[1..]
    requires Ascending(pending) ==> Ascending(tail)
    ensures Ascending(pending) ==> Ascending([pending[0]] + tail)
  {
    if Ascending(pending) {
      var r := [pending[0]] + tail;
      forall i, j | 0 <= i < j < |r| ensures r[i].batchId < r[j].batchId {
        if i == 0 {
          assert r[j] == tail[j - 1] && r[j] in pending[1..];
          var m :| 0 <= m < |pending[1..]| && pending[1..][m] == r[j];
          assert pending[m + 1] == r[j];
        } else {
          assert r[i] == tail[i - 1] && r[j] == tail[j - 1];
        }
      }
    }
  }

  /** An acknowledgement below every pending id changes nothing: a stale or
      repeated acknowledgement is a no-op. */
  lemma {:induction false} RetireStale(pending: seq<PendingRender>, acked: int)
    requires forall i :: 0 <= i < |pending| ==> pending[i].batchId > acked
    ensures Retire(pending, acked) == pending
  {
    if pending != [] {
      RetireStale(pending[1..], acked);
      assert [pending[0]] + pending[1..] == pending;
    }
  }

  /** Two acknowledgements retire what the larger of them retires alone, in
      either order; repeating an acknowledgement changes nothing. */
  lemma {:induction false} RetireTwice(pending: seq<PendingRender>, first: int, second: int)
    ensures Retire(Retire(pending, first), second) ==
            Retire(pending, if first < second then second else first)
  {
    if pending != [] {
      RetireTwice(pending[1..], first, second);
    }
  }

  /** On an ascending queue, retiring is dropping the front batches whose id
      is not above the acknowledged one. */
  lemma {:induction false} RetireFront(pending: seq<PendingRender>, acked: int, k: nat)
    requires Ascending(pending) && k <= |pending|
    requires forall i :: 0 <= i < k ==> pending[i].batchId <= acked
    requires k < |pending| ==> pending[k].batchId > acked
    ensures Retire(pending, acked) == pending[k..]
  {
    if k == 0 {
      RetireStale(pending, acked);
    } else {
      assert Ascending(pending[1..]);
      RetireFront(pending[1..], acked, k - 1);
      assert pending[1..][k - 1..] == pending[k..];
    }
  }

  /** The pending entry of batch `batchId`, if any (the first one; ids are
      unique in a valid queue). */
  function Lookup(pending: seq<PendingRender>, batchId: int): (entry: Option<PendingRender>)
    ensures entry.Some? ==> entry.value in pending && entry.value.batchId == batchId
    ensures entry.None? ==> forall j :: 0 <= j < |pending| ==> pending[j].batchId != batchId
  {
    if pending == [] then None
    else if pending[0].batchId == batchId then Some(pending[0])
    else
      var entry := Lookup(pending[1..], batchId);
      assert entry.None? ==> forall j :: 1 <= j < |pending| ==> pending[j] == pending[1..][j - 1];
      entry
  }

  /** The queue after the retry action `step` for batch `batchId`: one more
      attempt counted on a resend, the entry dropped when it is given up. */
  function RetryQueue(pending: seq<PendingRender>, batchId: int, step: RetryAction): seq<PendingRender> {
    if pending == [] then []
    else if pending[0].batchId == batchId then
      match step
        case Wait => pending
        case Resend => [pending[0].(attempts := pending[0].attempts + 1)] + pending[1..]
        case Raise => pending[1..]
    else [pending[0]] + RetryQueue(pending[1..], batchId, step)
  }

  /** At the first entry of batch `batchId`, `Lookup` finds that entry. */
  lemma {:induction false} LookupAt(pending: seq<PendingRender>, batchId: int, i: nat)
    requires i < |pending| && pending[i].batchId == batchId
    requires forall j :: 0 <= j < i ==> pending[j].batchId != batchId
    ensures Lookup(pending, batchId) == Some(pending[i])
  {
    if i > 0 {
      LookupAt(pending[1..], batchId, i - 1);
    }
  }

  /** At the first entry of batch `batchId`, a resend counts one more
      attempt on that entry alone. */
  lemma {:induction false} ResendAt(pending: seq<PendingRender>, batchId: int, i: nat)
    requires i < |pending| && pending[i].batchId == batchId
    requires forall j :: 0 <= j < i ==> pending[j].batchId != batchId
    ensures RetryQueue(pending, batchId, Resend) ==
            pending[i := pending[i].(attempts := pending[i].attempts + 1)]
  {
    if i > 0 {
      ResendAt(pending[1..], batchId, i - 1);
      assert pending[i := pending[i].(attempts := pending[i].attempts + 1)] ==
             [pending[0]] + pending[1..][i - 1 := pending[i].(attempts := pending[i].attempts + 1)];
    }
  }

  /** At the first entry of batch `batchId`, giving up removes that entry
      alone. */
  lemma {:induction false} RaiseAt(pending: seq<PendingRender>, batchId: int, i: nat)
    requires i < |pending| && pending[i].batchId == batchId
    requires forall j :: 0 <= j < i ==> pending[j].batchId != batchId
    ensures RetryQueue(pending, batchId, Raise) == pending[..i] + pending[i + 1..]
  {
    if i > 0 {
      RaiseAt(pending[1..], batchId, i - 1);
      assert pending[..i] + pending[i + 1..] == [pending[0]] + (pending[1..][..i - 1] + pending[1..][i..]);
    }
  }

  /** A retry of a batch that is not pending leaves the queue as it is. */
  lemma {:induction false} RetryQueueAbsent(pending: seq<PendingRender>, batchId: int, step: RetryAction)
    requires forall j :: 0 <= j < |pending| ==> pending[j].batchId != batchId
    ensures RetryQueue(pending, batchId, step) == pending
  {
    if pending != [] {
      RetryQueueAbsent(pending[1..], batchId, step);
      assert pending == [pending[0]] + pending[1..];
    }
  }

  /** The queue invariant: ascending ids, all in `[2, nextBatchId)`. */
  predicate QueueValid(pending: seq<PendingRender>, nextBatchId: int) {
    && Ascending(pending)
    && forall i :: 0 <= i < |pending| ==> 2 <= pending[i].batchId < nextBatchId
  }

  /** Giving up one batch keeps the queue invariant. */
  lemma RemoveKeepsQueue(pending: seq<PendingRender>, nextBatchId: int, i: nat)
    requires QueueValid(pending, nextBatchId) && i < |pending|
    ensures QueueValid(pending[..i] + pending[i + 1..], nextBatchId)
  {
    var q := pending[..i] + pending[i + 1..];
    assert forall j :: 0 <= j < |q| ==> q[j] == if j < i then pending[j] else pending[j + 1];
  }

  /** Counting one more attempt of a batch keeps the queue invariant. */
  lemma BumpKeepsQueue(pending: seq<PendingRender>, nextBatchId: int, i: nat, attempts: nat)
    requires QueueValid(pending, nextBatchId) && i < |pending|
    ensures QueueValid(pending[i := PendingRender(pending[i].batchId, attempts)], nextBatchId)
  {
  }

  /** Each pending batch put on the wire once more. */
  function Resent(pending: seq<PendingRender>): (after: seq<PendingRender>)
    ensures Ids(after) == Ids(pending)
    ensures forall i :: 0 <= i < |pending| ==> after[i].attempts == pending[i].attempts + 1
  {
    seq(|pending|, i requires 0 <= i < |pending| => pending[i].(attempts := pending[i].attempts + 1))
  }

  /** The transmissions of a replay of `pending` on connection `connectionId`. */
  function Transmissions(connectionId: seq<char>, pending: seq<PendingRender>): (wire: seq<(seq<char>, int)>)
    ensures |wire| == |pending|
    ensures forall i :: 0 <= i < |pending| ==> wire[i] == (connectionId, pending[i].batchId)
  {
    seq(|pending|, i requires 0 <= i < |pending| => (connectionId, pending[i].batchId))
  }

  /** A replay of an ascending queue puts every pending id on the wire once,
      in strictly increasing order, and only on the given connection. */
  lemma ReplayInOrder(connectionId: seq<char>, pending: seq<PendingRender>)
    requires Ascending(pending)
    ensures var wire := Transmissions(connectionId, pending);
      && (forall i, j :: 0 <= i < j < |wire| ==> wire[i].1 < wire[j].1)
      && (forall k :: 0 <= k < |wire| ==> wire[k].0 == connectionId)
      && (forall id :: id in Ids(pending) <==> exists k :: 0 <= k < |wire| && wire[k].1 == id)
  {
    var wire := Transmissions(connectionId, pending);
    forall id | id in Ids(pending) ensures exists k :: 0 <= k < |wire| && wire[k].1 == id {
      var k :| 0 <= k < |Ids(pending)| && Ids(pending)[k] == id;
      assert wire[k].1 == id;
    }
  }

  /** What the retry timer of a still-pending batch does: nothing while the
      client is offline (the batch waits for a new connection), another send
      while attempts remain, and otherwise the one fatal error. */
  datatype RetryAction = Wait | Resend | Raise

  function RetryStep(attempts: nat, connected: bool): (step: RetryAction)
    ensures step == Wait <==> !connected
    ensures step == Resend ==> attempts < MaxBatchSendAttempts
    ensures step == Raise ==> attempts >= MaxBatchSendAttempts
  {
    if !connected then Wait
    else if attempts < MaxBatchSendAttempts then Resend
    else Raise
  }

  /** Number of `true` entries. */
  function CountTrue(s: seq<bool>): (n: nat)
    ensures n <= |s|
  {
    if s == [] then 0 else (if s[0] then 1 else 0) + CountTrue(s[1..])
  }

  /** The retry timer firing again and again for a batch that is never
      acknowledged, with the client connected or not at each firing: the
      sends it makes and the fatal errors it raises. Once the error is raised
      the batch is given up, so later firings do nothing. */
  function RetryRun(attempts: nat, connectedAtTick: seq<bool>): (outcome: (nat, nat))
    ensures outcome.0 <= CountTrue(connectedAtTick)
    ensures outcome.1 <= 1
    ensures outcome.1 == 1 ==> attempts + outcome.0 >= MaxBatchSendAttempts
    decreases |connectedAtTick|
  {
    if connectedAtTick == [] then (0, 0)
    else match RetryStep(attempts, connectedAtTick[0])
      case Wait => RetryRun(attempts, connectedAtTick[1..])
      case Resend =>
        var rest := RetryRun(attempts + 1, connectedAtTick[1..]);
        (rest.0 + 1, rest.1)
      case Raise => (0, 1)
  }

  /** An unacknowledged batch is sent until the attempt ceiling is reached,
      and one further firing while connected raises exactly one error; no
      sequence of firings raises more than one. */
  lemma {:induction false} RetryRaisesOnce(attempts: nat, connectedAtTick: seq<bool>)
    requires attempts <= MaxBatchSendAttempts
    decreases |connectedAtTick|
    ensures var left := MaxBatchSendAttempts - attempts;
      var connectedTicks := CountTrue(connectedAtTick);
      && RetryRun(attempts, connectedAtTick).0 == (if connectedTicks < left then connectedTicks else left)
      && RetryRun(attempts, connectedAtTick).1 == (if connectedTicks > left then 1 else 0)
  {
    if connectedAtTick != [] {
      var rest := connectedAtTick[1..];
      if !connectedAtTick[0] {
        RetryRaisesOnce(attempts, rest);
      } else if attempts < MaxBatchSendAttempts {
        RetryRaisesOnce(attempts + 1, rest);
      }
    }
  }

  /** A retry timer that fires at every tick while the connection state
      stays `connected`. */
  function Always(connected: bool, n: nat): (ticks: seq<bool>)
    ensures |ticks| == n && forall i :: 0 <= i < n ==> ticks[i] == connected
  {
    seq(n, _ => connected)
  }

  /** `n` transmissions of batch `batchId` on connection `connectionId`. */
  function Resends(connectionId: seq<char>, batchId: int, n: nat): (wire: seq<(seq<char>, int)>)
    ensures |wire| == n && forall i :: 0 <= i < n ==> wire[i] == (connectionId, batchId)
  {
    if n == 0 then [] else Resends(connectionId, batchId, n - 1) + [(connectionId, batchId)]
  }

  lemma {:induction false} CountAlways(connected: bool, n: nat)
    ensures CountTrue(Always(connected, n)) == if connected then n else 0
  {
    if n > 0 {
      CountAlways(connected, n - 1);
      assert Always(connected, n)[1..] == Always(connected, n - 1);
    }
  }

  /** The run of a timer firing `firings` times with the connection state
      fixed: sends up to the attempts left while connected, and one error
      once the firings outnumber them. */
  lemma RetryRunAlways(attempts: nat, connected: bool, firings: nat)
    requires attempts <= MaxBatchSendAttempts
    ensures var left := MaxBatchSendAttempts - attempts;
      var outcome := RetryRun(attempts, Always(connected, firings));
      && outcome.0 == (if !connected then 0 else if firings < left then firings else left)
      && outcome.1 == (if connected && firings > left then 1 else 0)
  {
    CountAlways(connected, firings);
    RetryRaisesOnce(attempts, Always(connected, firings));
  }

  /** One firing of the run from tick `k` on. */
  lemma RetryRunStep(attempts: nat, ticks: seq<bool>, k: nat)
    requires k < |ticks|
    ensures RetryStep(attempts, ticks[k]) == Wait ==>
              RetryRun(attempts, ticks[k..]) == RetryRun(attempts, ticks[k + 1..])
    ensures RetryStep(attempts, ticks[k]) == Resend ==>
              && RetryRun(attempts, ticks[k..]).0 == RetryRun(attempts + 1, ticks[k + 1..]).0 + 1
              && RetryRun(attempts, ticks[k..]).1 == RetryRun(attempts + 1, ticks[k + 1..]).1
    ensures RetryStep(attempts, ticks[k]) == Raise ==> RetryRun(attempts, ticks[k..]) == (0, 1)
  {
    assert ticks[k..][0] == ticks[k] && ticks[k..][1..] == ticks[k + 1..];
  }

  /** A wait leaves the queue as it is. */
  lemma {:induction false} RetryQueueWait(pending: seq<PendingRender>, batchId: int)
    ensures RetryQueue(pending, batchId, Wait) == pending
  {
    if pending != [] && pending[0].batchId != batchId {
      RetryQueueWait(pending[1..], batchId);
      assert pending == [pending[0]] + pending[1..];
    }
  }

  /** After a resend the batch is still pending, with one more attempt. */
  lemma {:induction false} LookupAfterResend(pending: seq<PendingRender>, batchId: int)
    requires Lookup(pending, batchId).Some?
    ensures var entry := Lookup(pending, batchId).value;
      Lookup(RetryQueue(pending, batchId, Resend), batchId) == Some(entry.(attempts := entry.attempts + 1))
  {
    if pending[0].batchId != batchId {
      LookupAfterResend(pending[1..], batchId);
      var rest := RetryQueue(pending[1..], batchId, Resend);
      assert ([pending[0]] + rest)[1..] == rest;
    }
  }

  /** On an ascending queue, a batch that was given up is no longer
      pending. */
  lemma {:induction false} LookupAfterRaise(pending: seq<PendingRender>, batchId: int)
    requires Ascending(pending)
    ensures Lookup(RetryQueue(pending, batchId, Raise), batchId).None?
  {
    if pending != [] {
      if pending[0].batchId != batchId {
        assert Ascending(pending[1..]);
        LookupAfterRaise(pending[1..], batchId);
        var rest := RetryQueue(pending[1..], batchId, Raise);
        assert ([pending[0]] + rest)[1..] == rest;
      }
    }
  }

  /** The client proxy: a connection handle that can go away and be
      replaced. Every batch transmission is logged with the id of the
      connection it went out on. */
  class CircuitClientProxy {
    var connected: bool
    var connectionId: seq<char>
    var sent: seq<(seq<char>, int)>

    constructor (connectionId: seq<char>)
      ensures connected && this.connectionId == connectionId && sent == []
    {
      connected := true;
      this.connectionId := connectionId;
      sent := [];
    }

    /** A proxy with no connection yet (used while prerendering). */
    constructor CreateOffline()
      ensures !connected && sent == []
    {
      connected := false;
      connectionId := [];
      sent := [];
    }

    method SetDisconnected()
      modifies this
      ensures !connected && connectionId == old(connectionId) && sent == old(sent)
    {
      connected := false;
    }

    /** Swaps in a new connection; later sends go out on it. */
    method Transfer(connectionId: seq<char>)
      modifies this
      ensures connected && this.connectionId == connectionId && sent == old(sent)
    {
      connected := true;
      this.connectionId := connectionId;
    }

    method SendBatch(batchId: int)
      requires connected
      modifies this
      ensures connected == old(connected) && connectionId == old(connectionId)
      ensures sent == old(sent) + [(connectionId, batchId)]
    {
      sent := sent + [(connectionId, batchId)];
    }
  }

  /** The renderer's outbound side: batch ids, the pending queue and the
      count of fatal errors raised through `UnhandledException`. */
  class RemoteRenderer {
    const client: CircuitClientProxy
    var nextBatchId: int
    var nextComponentId: int
    var pendingRenderBatches: seq<PendingRender>
    var unhandledExceptions: nat

    /** Ids are handed out from 2 upwards; the queue is in id order and
        holds only ids already handed out. */
    ghost predicate Valid()
      reads this
    {
      nextBatchId >= 2 && QueueValid(pendingRenderBatches, nextBatchId)
    }

    constructor (client: CircuitClientProxy)
      ensures Valid() && this.client == client
      ensures nextBatchId == 2 && nextComponentId == 0
      ensures pendingRenderBatches == [] && unhandledExceptions == 0
    {
      this.client := client;
      nextBatchId := 2;
      nextComponentId := 0;
      pendingRenderBatches := [];
      unhandledExceptions := 0;
    }

    /** Root components are numbered from 0 in order of attachment. */
    method AssignRootComponentId() returns (componentId: int)
      modifies this
      ensures componentId == old(nextComponentId) && nextComponentId == componentId + 1
      ensures nextBatchId == old(nextBatchId) && pendingRenderBatches == old(pendingRenderBatches)
      ensures unhandledExceptions == old(unhandledExceptions)
    {
      componentId := nextComponentId;
      nextComponentId := nextComponentId + 1;
    }

    /** A render produces one batch with the next id. It joins the pending
        queue whether or not the client is connected; it is sent at once
        only when the client is connected. */
    method Render() returns (batchId: int)
      requires Valid()
      modifies this, client
      ensures Valid()
      ensures batchId == old(nextBatchId) && nextBatchId == batchId + 1
      ensures nextComponentId == old(nextComponentId) && unhandledExceptions == old(unhandledExceptions)
      ensures client.connected == old(client.connected) && client.connectionId == old(client.connectionId)
      ensures old(client.connected) ==>
                && pendingRenderBatches == old(pendingRenderBatches) + [PendingRender(batchId, 1)]
                && client.sent == old(client.sent) + [(client.connectionId, batchId)]
      ensures !old(client.connected) ==>
                && pendingRenderBatches == old(pendingRenderBatches) + [PendingRender(batchId, 0)]
                && client.sent == old(client.sent)
    {
      batchId := nextBatchId;
      nextBatchId := nextBatchId + 1;
      if client.connected {
        client.SendBatch(batchId);
        pendingRenderBatches := pendingRenderBatches + [PendingRender(batchId, 1)];
      } else {
        pendingRenderBatches := pendingRenderBatches + [PendingRender(batchId, 0)];
      }
    }

    /** Attaching a root component and rendering it once. */
    method RenderComponent() returns (componentId: int, batchId: int)
      requires Valid()
      modifies this, client
      ensures Valid()
      ensures componentId == old(nextComponentId) && nextComponentId == componentId + 1
      ensures batchId == old(nextBatchId) && nextBatchId == batchId + 1
      ensures unhandledExceptions == old(unhandledExceptions)
      ensures client.connected == old(client.connected) && client.connectionId == old(client.connectionId)
      ensures old(client.connected) ==>
                && pendingRenderBatches == old(pendingRenderBatches) + [PendingRender(batchId, 1)]
                && client.sent == old(client.sent) + [(client.connectionId, batchId)]
      ensures !old(client.connected) ==>
                && pendingRenderBatches == old(pendingRenderBatches) + [PendingRender(batchId, 0)]
                && client.sent == old(client.sent)
    {
      componentId := AssignRootComponentId();
      batchId := Render();
    }

    /** The client's acknowledgement of `incomingBatchId` retires that batch
        and every earlier one still pending. */
    method OnRenderCompleted(incomingBatchId: int)
      requires Valid()
      modifies this
      ensures Valid()
      ensures pendingRenderBatches == Retire(old(pendingRenderBatches), incomingBatchId)
      ensures nextBatchId == old(nextBatchId) && nextComponentId == old(nextComponentId)
      ensures unhandledExceptions == old(unhandledExceptions)
    {
      ghost var pending0 := pendingRenderBatches;
      ghost var k := 0;
      while pendingRenderBatches != [] && pendingRenderBatches[0].batchId <= incomingBatchId
        invariant 0 <= k <= |pending0| && pendingRenderBatches == pending0[k..]
        invariant forall i :: 0 <= i < k ==> pending0[i].batchId <= incomingBatchId
        invariant nextBatchId == old(nextBatchId) && nextComponentId == old(nextComponentId)
        invariant unhandledExceptions == old(unhandledExceptions)
        decreases |pendingRenderBatches|
      {
        pendingRenderBatches := pendingRenderBatches[1..];
        k := k + 1;
      }
      RetireFront(pending0, incomingBatchId, k);
    }

    /** After a new connection is in place, every pending batch is sent
        again on it, in increasing id order. */
    method ProcessBufferedRenderBatches()
      requires Valid()
      modifies this, client
      ensures Valid()
      ensures nextBatchId == old(nextBatchId) && nextComponentId == old(nextComponentId)
      ensures unhandledExceptions == old(unhandledExceptions)
      ensures client.connected == old(client.connected) && client.connectionId == old(client.connectionId)
      ensures client.connected ==>
                && pendingRenderBatches == Resent(old(pendingRenderBatches))
                && client.sent == old(client.sent) + Transmissions(client.connectionId, old(pendingRenderBatches))
      ensures !client.connected ==>
                pendingRenderBatches == old(pendingRenderBatches) && client.sent == old(client.sent)
    {
      if !client.connected {
        return;
      }
      ghost var pending0 := pendingRenderBatches;
      for i := 0 to |pendingRenderBatches|
        invariant client.connected && client.connectionId == old(client.connectionId)
        invariant |pendingRenderBatches| == |pending0|
        invariant pendingRenderBatches[..i] == Resent(pending0[..i])
        invariant pendingRenderBatches[i..] == pending0[i..]
        invariant client.sent == old(client.sent) + Transmissions(client.connectionId, pending0[..i])
        invariant nextBatchId == old(nextBatchId) && nextComponentId == old(nextComponentId)
        invariant unhandledExceptions == old(unhandledExceptions)
      {
        var batch := pendingRenderBatches[i];
        client.SendBatch(batch.batchId);
        pendingRenderBatches := pendingRenderBatches[i := batch.(attempts := batch.attempts + 1)];
        assert pendingRenderBatches[..i + 1] == pendingRenderBatches[..i] + [pendingRenderBatches[i]];
        assert pending0[..i + 1] == pending0[..i] + [pending0[i]];
      }
      assert pendingRenderBatches == pendingRenderBatches[..|pending0|];
      assert pending0[..|pending0|] == pending0;
      assert Ids(pendingRenderBatches) == Ids(pending0);
    }

    /** The retry timer of batch `batchId` fires: nothing happens if the
        batch was acknowledged meanwhile; otherwise the batch waits, is sent
        again, or is given up with one fatal error, as `RetryStep` says. */
    method RetryBatch(batchId: int) returns (action: Option<RetryAction>)
      requires Valid()
      modifies this, client
      ensures Valid()
      ensures nextBatchId == old(nextBatchId) && nextComponentId == old(nextComponentId)
      ensures client.connected == old(client.connected) && client.connectionId == old(client.connectionId)
      ensures Lookup(old(pendingRenderBatches), batchId).None? ==>
                && action == None
                && pendingRenderBatches == old(pendingRenderBatches)
                && unhandledExceptions == old(unhandledExceptions) && client.sent == old(client.sent)
      ensures Lookup(old(pendingRenderBatches), batchId).Some? ==>
                var step := RetryStep(Lookup(old(pendingRenderBatches), batchId).value.attempts, client.connected);
                && action == Some(step)
                && pendingRenderBatches == RetryQueue(old(pendingRenderBatches), batchId, step)
                && client.sent == old(client.sent) + (if step == Resend then [(client.connectionId, batchId)] else [])
                && unhandledExceptions == old(unhandledExceptions) + (if step == Raise then 1 else 0)
    {
      var found := FindPending(batchId);
      if found.None? {
        RetryQueueAbsent(pendingRenderBatches, batchId, Wait);
        return None;
      }
      LookupAt(pendingRenderBatches, batchId, found.value);
      var step := RetryAt(batchId, found.value);
      return Some(step);
    }

    /** The retry action on pending entry `i`, the first entry of batch
        `batchId`. */
    method RetryAt(batchId: int, i: nat) returns (step: RetryAction)
      requires Valid() && i < |pendingRenderBatches| && pendingRenderBatches[i].batchId == batchId
      requires forall j :: 0 <= j < i ==> pendingRenderBatches[j].batchId != batchId
      modifies this, client
      ensures Valid()
      ensures nextBatchId == old(nextBatchId) && nextComponentId == old(nextComponentId)
      ensures client.connected == old(client.connected) && client.connectionId == old(client.connectionId)
      ensures step == RetryStep(old(pendingRenderBatches)[i].attempts, client.connected)
      ensures pendingRenderBatches == RetryQueue(old(pendingRenderBatches), batchId, step)
      ensures client.sent == old(client.sent) + (if step == Resend then [(client.connectionId, batchId)] else [])
      ensures unhandledExceptions == old(unhandledExceptions) + (if step == Raise then 1 else 0)
    {
      step := RetryStep(pendingRenderBatches[i].attempts, client.connected);
      match step {
        case Wait =>
          RetryQueueWait(pendingRenderBatches, batchId);
        case Resend =>
          ResendAt(pendingRenderBatches, batchId, i);
          ResendPending(i);
        case Raise =>
          RaiseAt(pendingRenderBatches, batchId, i);
          GiveUpPending(i);
      }
    }

    /** The retry timer of a pending batch firing `firings` times while no
        acknowledgement arrives and the connection state stays as it is: the
        sends and fatal errors are those `RetryRun` counts, so at most one
        error is ever raised, and one is raised exactly when the client is
        connected and the firings outnumber the attempts left. */
    method RetryBatchRepeatedly(batchId: int, firings: nat) returns (sends: nat, errors: nat)
      requires Valid() && Lookup(pendingRenderBatches, batchId).Some?
      modifies this, client
      ensures Valid()
      ensures var outcome := RetryRun(Lookup(old(pendingRenderBatches), batchId).value.attempts,
                                       Always(old(client.connected), firings));
              sends == outcome.0 && errors == outcome.1
      ensures Lookup(old(pendingRenderBatches), batchId).value.attempts <= MaxBatchSendAttempts ==>
                var left := MaxBatchSendAttempts - Lookup(old(pendingRenderBatches), batchId).value.attempts;
                && sends == (if !client.connected then 0 else if firings < left then firings else left)
                && errors == (if client.connected && firings > left then 1 else 0)
      ensures client.connected == old(client.connected) && client.connectionId == old(client.connectionId)
      ensures client.sent == old(client.sent) + Resends(client.connectionId, batchId, sends)
      ensures unhandledExceptions == old(unhandledExceptions) + errors
      ensures nextBatchId == old(nextBatchId) && nextComponentId == old(nextComponentId)
    {
      ghost var a0 := Lookup(pendingRenderBatches, batchId).value.attempts;
      ghost var ticks := Always(client.connected, firings);
      ghost var a: nat := a0;
      ghost var live := true;
      sends, errors := 0, 0;
      for k := 0 to firings
        invariant Valid()
        invariant nextBatchId == old(nextBatchId) && nextComponentId == old(nextComponentId)
        invariant client.connected == old(client.connected) && client.connectionId == old(client.connectionId)
        invariant client.sent == old(client.sent) + Resends(client.connectionId, batchId, sends)
        invariant unhandledExceptions == old(unhandledExceptions) + errors
        invariant Tracked(batchId, a, live)
        invariant live ==> RetryRun(a0, ticks).0 == sends + RetryRun(a, ticks[k..]).0
        invariant live ==> RetryRun(a0, ticks).1 == errors + RetryRun(a, ticks[k..]).1
        invariant !live ==> RetryRun(a0, ticks) == (sends, errors)
      {
        if live {
          assert ticks[k] == client.connected;
          RetryRunStep(a, ticks, k);
        }
        var resent, raised;
        resent, raised, a, live := RetryTick(batchId, a, live);
        if resent {
          sends := sends + 1;
        }
        if raised {
          errors := errors + 1;
        }
      }
      assert live ==> ticks[firings..] == [];
      if a0 <= MaxBatchSendAttempts {
        RetryRunAlways(a0, old(client.connected), firings);
      }
    }

    /** Whether batch `batchId` is still pending with `attempts` attempts
        (`live`), or has been given up. */
    ghost predicate Tracked(batchId: int, attempts: nat, live: bool)
      reads this
    {
      if live then Lookup(pendingRenderBatches, batchId).Some? && Lookup(pendingRenderBatches, batchId).value.attempts == attempts
      else Lookup(pendingRenderBatches, batchId).None?
    }

    /** One firing of the retry timer, seen from the batch: while it is
        pending, the firing does what `RetryStep` says and the batch stays
        pending unless it is given up; once given up, firings do nothing. */
    method RetryTick(batchId: int, ghost attempts: nat, ghost live: bool)
      returns (resent: bool, raised: bool, ghost attempts': nat, ghost live': bool)
      requires Valid() && Tracked(batchId, attempts, live)
      modifies this, client
      ensures Valid() && Tracked(batchId, attempts', live')
      ensures nextBatchId == old(nextBatchId) && nextComponentId == old(nextComponentId)
      ensures client.connected == old(client.connected) && client.connectionId == old(client.connectionId)
      ensures client.sent == old(client.sent) + (if resent then [(client.connectionId, batchId)] else [])
      ensures unhandledExceptions == old(unhandledExceptions) + (if raised then 1 else 0)
      ensures !live ==> !resent && !raised && !live'
      ensures live ==>
                var step := RetryStep(attempts, client.connected);
                && resent == (step == Resend) && raised == (step == Raise)
                && live' == (step != Raise) && attempts' == (if step == Resend then attempts + 1 else attempts)
    {
      ghost var before := pendingRenderBatches;
      var action := RetryBatch(batchId);
      resent, raised := action == Some(Resend), action == Some(Raise);
      attempts', live' := attempts, live;
      if live {
        if resent {
          LookupAfterResend(before, batchId);
          attempts' := attempts + 1;
        } else if raised {
          LookupAfterRaise(before, batchId);
          live' := false;
        } else {
          RetryQueueWait(before, batchId);
        }
      }
    }

    /** Puts pending entry `i` on the wire once more and counts the attempt. */
    method ResendPending(i: nat)
      requires Valid() && i < |pendingRenderBatches| && client.connected
      modifies this, client
      ensures Valid()
      ensures nextBatchId == old(nextBatchId) && nextComponentId == old(nextComponentId)
      ensures client.connected == old(client.connected) && client.connectionId == old(client.connectionId)
      ensures pendingRenderBatches == old(pendingRenderBatches)[i :=
                old(pendingRenderBatches)[i].(attempts := old(pendingRenderBatches)[i].attempts + 1)]
      ensures client.sent == old(client.sent) + [(client.connectionId, old(pendingRenderBatches)[i].batchId)]
      ensures unhandledExceptions == old(unhandledExceptions)
    {
      var batch := pendingRenderBatches[i];
      client.SendBatch(batch.batchId);
      BumpKeepsQueue(pendingRenderBatches, nextBatchId, i, batch.attempts + 1);
      pendingRenderBatches := pendingRenderBatches[i := PendingRender(batch.batchId, batch.attempts + 1)];
    }

    /** Gives up pending entry `i`: it leaves the queue and one fatal error is
        raised. */
    method GiveUpPending(i: nat)
      requires Valid() && i < |pendingRenderBatches|
      modifies this
      ensures Valid()
      ensures nextBatchId == old(nextBatchId) && nextComponentId == old(nextComponentId)
      ensures pendingRenderBatches == old(pendingRenderBatches)[..i] + old(pendingRenderBatches)[i + 1..]
      ensures unhandledExceptions == old(unhandledExceptions) + 1
    {
      RemoveKeepsQueue(pendingRenderBatches, nextBatchId, i);
      pendingRenderBatches := pendingRenderBatches[..i] + pendingRenderBatches[i + 1..];
      unhandledExceptions := unhandledExceptions + 1;
    }

    /** The position of the first pending entry of batch `batchId`, if any. */
    method FindPending(batchId: int) returns (found: Option<nat>)
      ensures found.Some? ==>
                && found.value < |pendingRenderBatches|
                && pendingRenderBatches[found.value].batchId == batchId
                && forall j :: 0 <= j < found.value ==> pendingRenderBatches[j].batchId != batchId
      ensures found.None? ==> forall j :: 0 <= j < |pendingRenderBatches| ==> pendingRenderBatches[j].batchId != batchId
    {
      for i := 0 to |pendingRenderBatches|
        invariant forall j :: 0 <= j < i ==> pendingRenderBatches[j].batchId != batchId
      {
        if pendingRenderBatches[i].batchId == batchId {
          return Some(i);
        }
      }
      return None;
    }
  }
}
