/** The renderer's unit-test scenarios replayed against the model: each
    method drives the same calls as one test and its contract is what that
    test asserts. A failed or missed transmission is followed, in the model,
    by a firing of that batch's retry timer. */
module RemoteRenderingScenarios {
  import opened Common
  import opened RemoteRendering

  /** Two renders while the client is offline leave two pending batches. */
  method WritesAreBufferedWhenTheClientIsOffline() returns (pendingCount: int)
    ensures pendingCount == 2
  {
    var client := new CircuitClientProxy.CreateOffline();
    var renderer := new RemoteRenderer(client);
    var componentId := renderer.AssignRootComponentId();
    var first := renderer.Render();
    var second := renderer.Render();
    pendingCount := |renderer.pendingRenderBatches|;
  }

  /** Batch 2 goes out and is acknowledged; 3 and 4 are produced offline and
      replayed, in order, on the new connection; acknowledging every id seen
      on the wire empties the queue. */
  method ProcessBufferedRenderBatchesWritesRenders() returns (wire: seq<(seq<char>, int)>, remaining: int)
    ensures wire == [("connection0", 2), ("new-connection", 3), ("new-connection", 4)]
    ensures remaining == 0
  {
    var client := new CircuitClientProxy("connection0");
    var renderer := new RemoteRenderer(client);
    var componentId := renderer.AssignRootComponentId();
    var b2 := renderer.Render();
    renderer.OnRenderCompleted(2);
    client.SetDisconnected();
    var b3 := renderer.Render();
    var b4 := renderer.Render();
    client.Transfer("new-connection");
    renderer.ProcessBufferedRenderBatches();
    wire := client.sent;
    assert wire == [("connection0", 2), ("new-connection", 3), ("new-connection", 4)];
    ghost var replayed := renderer.pendingRenderBatches;
    assert replayed == [PendingRender(3, 1), PendingRender(4, 1)];
    RetireFront(replayed, 2, 0);
    renderer.OnRenderCompleted(wire[0].1);
    RetireFront(replayed, 3, 1);
    renderer.OnRenderCompleted(wire[1].1);
    RetireFront(replayed[1..], 4, 1);
    renderer.OnRenderCompleted(wire[2].1);
    remaining := |renderer.pendingRenderBatches|;
  }

  /** After acknowledging 3, a late acknowledgement of 2 changes nothing and
      batch 4 alone is pending; acknowledging 4 empties the queue. */
  method OnRenderCompletedIgnoresAlreadyProcessedAcks() returns (afterStaleAck: seq<int>, remaining: int)
    ensures afterStaleAck == [4]
    ensures remaining == 0
  {
    var client := new CircuitClientProxy("connection0");
    var renderer := new RemoteRenderer(client);
    var componentId := renderer.AssignRootComponentId();
    var b2 := renderer.Render();
    renderer.OnRenderCompleted(2);
    client.SetDisconnected();
    var b3 := renderer.Render();
    var b4 := renderer.Render();
    client.Transfer("new-connection");
    renderer.ProcessBufferedRenderBatches();
    ghost var replayed := renderer.pendingRenderBatches;
    assert replayed == [PendingRender(3, 1), PendingRender(4, 1)];
    RetireFront(replayed, 3, 1);
    renderer.OnRenderCompleted(3);
    RetireFront(replayed[1..], 2, 0);
    renderer.OnRenderCompleted(2);
    afterStaleAck := Ids(renderer.pendingRenderBatches);
    RetireFront(replayed[1..], 4, 1);
    renderer.OnRenderCompleted(4);
    remaining := |renderer.pendingRenderBatches|;
  }

  /** Two batches produced offline are replayed after the transfer; the
      acknowledgement of 3 alone retires both, the missed one included. */
  method GracefullyRecoversFromMissingClientAcknowledge()
    returns (originallyQueued: int, wireIds: seq<int>, remaining: int)
    ensures originallyQueued == 2 && wireIds == [2, 3] && remaining == 0
  {
    var client := new CircuitClientProxy("offline-client");
    client.SetDisconnected();
    var renderer := new RemoteRenderer(client);
    var componentId, b2 := renderer.RenderComponent();
    var b3 := renderer.Render();
    originallyQueued := |renderer.pendingRenderBatches|;
    client.Transfer("new-connection");
    renderer.ProcessBufferedRenderBatches();
    wireIds := [client.sent[0].1, client.sent[1].1];
    ghost var replayed := renderer.pendingRenderBatches;
    assert replayed == [PendingRender(2, 1), PendingRender(3, 1)];
    RetireFront(replayed, 3, 2);
    renderer.OnRenderCompleted(3);
    remaining := |renderer.pendingRenderBatches|;
  }

  /** A batch that is sent but never acknowledged is sent three times in
      all, and the next firing of its timer raises exactly one error. */
  method StopsRenderingIfClientDoesNotAcknowledgeRenders() returns (sends: int, exceptions: int)
    ensures sends == 3 && exceptions == 1
  {
    var client := new CircuitClientProxy("missbehaving-client");
    var renderer := new RemoteRenderer(client);
    var componentId, batchId := renderer.RenderComponent();
    assert renderer.pendingRenderBatches == [PendingRender(2, 1)];
    var a1 := renderer.RetryBatch(2);
    assert renderer.pendingRenderBatches == [PendingRender(2, 2)];
    var a2 := renderer.RetryBatch(2);
    assert renderer.pendingRenderBatches == [PendingRender(2, 3)];
    var a3 := renderer.RetryBatch(2);
    sends := |client.sent|;
    exceptions := renderer.unhandledExceptions;
  }

  /** The send of batch 3 fails, but 4 is acknowledged before 3's timer
      fires: 3 is retired with it and no error is raised. */
  method RecoversIfItMissesARenderInBetweenASequence() returns (exceptions: int)
    ensures exceptions == 0
  {
    var client := new CircuitClientProxy("connection0");
    var renderer := new RemoteRenderer(client);
    var componentId := renderer.AssignRootComponentId();
    var b2 := renderer.Render();
    renderer.OnRenderCompleted(2);
    var b3 := renderer.Render();
    var b4 := renderer.Render();
    renderer.OnRenderCompleted(4);
    var action := renderer.RetryBatch(3);
    exceptions := renderer.unhandledExceptions;
  }

  /** Two components prerendered without a connection get ids 0 and 1 and
      leave two pending batches. */
  method PrerendersMultipleComponentsSuccessfully() returns (first: int, second: int, pendingCount: int)
    ensures first == 0 && second == 1 && pendingCount == 2
  {
    var client := new CircuitClientProxy.CreateOffline();
    var renderer := new RemoteRenderer(client);
    var firstBatch, secondBatch;
    first, firstBatch := renderer.RenderComponent();
    second, secondBatch := renderer.RenderComponent();
    pendingCount := |renderer.pendingRenderBatches|;
  }

  /** The connection drops while batches 3 and 4 are in flight and both
      sends fail: their timers find the client offline, no error is raised
      and both stay pending. */
  method DisconnectingWhileSendingABatchDoesNotCauseARenderFailure() returns (exceptions: int, pendingCount: int)
    ensures exceptions == 0 && pendingCount == 2
  {
    var client := new CircuitClientProxy("connection0");
    var renderer := new RemoteRenderer(client);
    var componentId := renderer.AssignRootComponentId();
    var b2 := renderer.Render();
    renderer.OnRenderCompleted(2);
    var b3 := renderer.Render();
    var b4 := renderer.Render();
    client.SetDisconnected();
    var a3 := renderer.RetryBatch(3);
    var a4 := renderer.RetryBatch(4);
    exceptions := renderer.unhandledExceptions;
    pendingCount := |renderer.pendingRenderBatches|;
  }
}
