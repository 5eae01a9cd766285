# Render-batch delivery, prerendered-circuit discovery and prerendering helpers

This project models in Dafny the core of batch delivery between a
server-side component renderer and the browser, as it appears in an early
version of the ASP.NET Core Components ("server-side Blazor") circuit code:

- **The inbound reorder buffer in the browser.** `RenderQueue` (one per
  browser renderer) and its older copy `RenderTracker` in the boot script.
  Batches may arrive out of order, more than once, or not at all. They are
  buffered by id. The unbroken run that starts at the next expected id is
  applied in order. Each applied batch is acknowledged three times. A batch
  that throws while being applied is reported once, and draining stops.
  Module `Inbound` states this discipline as functions (`Drain`, `Acks`,
  `DrainMessages`) and proves what it guarantees. `RenderQueueModel` and
  `BootServer` are classes whose methods are proved against those functions.
- **The outbound queue on the server** (`RemoteRendering`).
  - The renderer numbers batches from 2 and keeps every batch not yet
    acknowledged.
  - It sends a batch at once when the client is connected, and replays the
    whole queue in id order after a new connection is transferred in.
  - An acknowledgement retires the acknowledged batch and every earlier one.
  - When the retry timer of an unacknowledged batch fires, the batch is
    sent again only while it has been sent fewer than three times. Once
    the three attempts are used up, the next firing while connected gives
    the batch up and raises one fatal error (`RetryBatchRepeatedly`).
  - A replay after a new connection counts an attempt on every pending
    batch, but is not capped by the three-attempt ceiling.

  The renderer's own implementation is not part of this model. Its contract
  is the one its unit tests assert. `RemoteRenderingScenarios` replays each
  of those tests against the model.
- **Discovery of prerendered components** (`Discovery`).
  - Start and end boundary comments are paired among siblings, and the
    document tree is walked in document order.
  - Malformed and unterminated markers give invalid pairs. Invalid pairs are
    reported and excluded.
  - Valid pairs become component entries, attached by node range.
    Entries without a placeholder are attached by attribute selector.
- **The prerenderer's helpers** (`Prerendering`). One circuit host is kept
  per HTTP request in the request's item bag. The host is built with the
  request's absolute URI and base URI, and the base URI always ends in `/`.

Files: `Common.dfy` (shared types and the connection's send log), `Inbound.dfy`,
`RenderQueue.dfy`, `BootServer.dfy`, `RemoteRendering.dfy`,
`RemoteRenderingScenarios.dfy`, `Discovery.dfy`, `Prerendering.dfy`.

### Behaviour worth noting

- **Acknowledgements are cumulative.** An acknowledgement retires its own
  batch and every earlier one still pending. An acknowledgement of 4
  retires a missed 3, and an acknowledgement of 3 retires an
  unacknowledged 2 (`RemoteRendering.Retire`).
- **Retries come from the retry timer.** A batch is sent again when its
  acknowledgement is missing at a firing of its retry timer. A send that
  fails leaves the batch pending until that next firing (`RetryBatch`).
- **An unterminated start marker ends the scan of its siblings.** Its scan
  index becomes the child count, so `resolveCommentPairs` looks at no later
  sibling at that level. Well-formed pairs after it are never found
  (`Discovery.UnterminatedStartEndsScan`).
- **The boot script's failure report names the arriving batch.** The
  handler reports the id of the batch that just arrived (`renderId`), which
  need not be the one that threw. If batch 3 is waiting and batch 2
  arrives, 2 is applied and acknowledged and 3 throws. The report then
  names 2, and nothing at all is sent about 3
  (`BootServer.ReportNamesArrivingBatch`). `RenderQueue` reports the batch
  that threw.
- **The circuit id returned by `StartCircuit` is not checked for
  repeats.** It is appended without the check used for discovered ids
  (`BootServer.StartedCircuitKeepsDistinct`).
- **Repeated arrivals keep different payloads.** `RenderQueue.enqueue`
  keeps the first payload of a repeated batch, and
  `RenderTracker.trackRender` keeps the last one
  (`BootServer.TrackLastWins`).

## Model

| member | source | states |
|---|---|---|
| Inbound.RunLength | src/Components/Browser.JS/src/Platform/Circuits/RenderQueue.ts:45-52 | the ids `next .. next+n-1` are all buffered and `next+n` is not: the length of the run a drain can apply |
| Inbound.Drain | src/Components/Browser.JS/src/Platform/Circuits/RenderQueue.ts:42-58 | the drain loop as a function: the counter ends one past the last batch handed to the applier, and a failed drain has handed over at least one batch |
| Inbound.DrainSplits | src/Components/Browser.JS/src/Platform/Circuits/RenderQueue.ts:45-52 | a drain that has applied `next .. upTo-1` cleanly is that prefix followed by a drain of what is left from `upTo` |
| Inbound.DrainOrder | src/Components/Browser.JS/src/Platform/Circuits/RenderQueue.ts:43-52 | a drain applies `next, next+1, ...` in order, each once; the counter ends one past the last; it covers the whole ready run unless the applier throws |
| Inbound.DrainAppliesCleanly | src/Components/Browser.JS/src/Platform/Circuits/RenderQueue.ts:45-47 | every batch applied before the last one was buffered and did not throw |
| Inbound.DrainFailsOnLast | src/Components/Browser.JS/src/Platform/Circuits/RenderQueue.ts:44-57 | a drain fails exactly when the last batch it dequeued throws (that batch is consumed too) |
| Inbound.DrainRemovesApplied | src/Components/Browser.JS/src/Platform/Circuits/RenderQueue.ts:60-78 | the drain removes exactly the ids it dequeued; every other buffered batch keeps its payload |
| Inbound.DrainKeepsOrdered | src/Components/Browser.JS/src/Platform/Circuits/RenderQueue.ts:75-78 | nothing stays buffered below the next expected id, and the counter never goes back |
| Inbound.AcksCount | src/Components/Browser.JS/src/Platform/Circuits/RenderQueue.ts:80-89 | each id is acknowledged three times per occurrence in the applied sequence |
| Inbound.AcksReportNoFailure | src/Components/Browser.JS/src/Platform/Circuits/RenderQueue.ts:80-89 | acknowledgements never include a failure report |
| Inbound.DrainAcknowledgesApplied | src/Components/Browser.JS/src/Platform/Circuits/RenderQueue.ts:45-47 | after a drain, each batch applied without an exception has exactly three acknowledgements and no other id has any |
| Inbound.DrainReportsFailureOnce | src/Components/Browser.JS/src/Platform/Circuits/RenderQueue.ts:53-56 | exactly one failure report is sent when the applier threw, none otherwise |
| Inbound.CompleteBatch | src/Components/Browser.JS/src/Platform/Circuits/RenderQueue.ts:80-89 | all three acknowledgement attempts for the batch are appended to the send log |
| RenderQueueModel.RenderQueue.constructor | src/Components/Browser.JS/src/Platform/Circuits/RenderQueue.ts:13-16 | a new queue has an empty buffer, expects batch 2 and reports 1 as the last batch |
| RenderQueueModel.RenderQueue.Enqueue | src/Components/Browser.JS/src/Platform/Circuits/RenderQueue.ts:29-40 | below the next id: `Processed`, nothing stored; already buffered: `Pending`, first payload kept; otherwise `Queued` and stored; the counter never moves; the buffer invariant holds |
| RenderQueueModel.RenderQueue.RenderPendingBatches | src/Components/Browser.JS/src/Platform/Circuits/RenderQueue.ts:42-58 | the new buffer, counter, applied ids and failure flag are those of `Drain`; the send log gains that drain's acknowledgements plus one failure report for the batch that threw |
| RenderQueueModel.RenderQueue.ApplyRun | src/Components/Browser.JS/src/Platform/Circuits/RenderQueue.ts:43-52 | the `try` loop ends in the state `Drain` describes, having acknowledged every batch except one that threw |
| RenderQueueModel.RenderQueue.RenderNextBatch | src/Components/Browser.JS/src/Platform/Circuits/RenderQueue.ts:45-51 | one loop turn: nothing when the next batch is missing; otherwise dequeues it, applies it, and acknowledges it unless it throws |
| RenderQueueModel.RenderQueue.TryDequeueNextBatch | src/Components/Browser.JS/src/Platform/Circuits/RenderQueue.ts:60-69 | returns and removes the batch with the next id and advances the counter, or changes nothing when it has not arrived |
| RenderQueueModel.RenderQueue.GetLastBatchId | src/Components/Browser.JS/src/Platform/Circuits/RenderQueue.ts:71-73 | the last applied id is at least 1 and below every buffered id |
| RenderQueueModel.RenderQueue.DequeueBatch | src/Components/Browser.JS/src/Platform/Circuits/RenderQueue.ts:75-78 | removes the next id's entry and advances the counter by one, keeping the invariant |
| RenderQueueModel.RenderQueues.GetOrCreateQueue | src/Components/Browser.JS/src/Platform/Circuits/RenderQueue.ts:18-27 | returns the registered queue for the renderer unchanged, or registers and returns a fresh empty one; either way the queue is registered, belongs to that renderer and keeps its buffer invariant |
| RenderQueueModel.RenderQueues.GetOrCreateQueueTwice | src/Components/Browser.JS/src/Platform/Circuits/RenderQueue.ts:18-27 | two lookups for one renderer id yield the same, registered, valid queue |
| RenderQueueModel.EnqueueThroughSecondLookup | src/Components/Browser.JS/src/Platform/Circuits/RenderQueue.ts:18-40 | a queue returned by a second lookup is usable: a batch enqueued through it is `Queued` and buffered in the queue the first lookup returned |
| BootServer.NewRecord | src/Components/Browser.JS/src/Boot.Server.ts:161-162 | a renderer's first record is valid and empty |
| BootServer.Track | src/Components/Browser.JS/src/Boot.Server.ts:165-176 | tracking never moves the counter; a batch below it leaves the record as it was; any other is stored under its id with the arriving payload |
| BootServer.TrackKeepsRecord | src/Components/Browser.JS/src/Boot.Server.ts:160-177 | tracking keeps the record invariant and the counter; the batch is stored exactly when its id is not below the counter; other entries are untouched |
| BootServer.TrackLastWins | src/Components/Browser.JS/src/Boot.Server.ts:171-176 | a batch tracked twice keeps the payload of its last arrival |
| BootServer.RenderTracker.TrackRender | src/Components/Browser.JS/src/Boot.Server.ts:160-177 | the renderer's record (created on first use) becomes `Track` of it; other renderers' records are unchanged; invariant kept |
| BootServer.RenderTracker.GetNextBatchToRender | src/Components/Browser.JS/src/Boot.Server.ts:146-158 | removes and returns the next batch and advances the counter, or changes nothing when it has not arrived |
| BootServer.RenderTracker.OnRenderBatch | src/Components/Browser.JS/src/Boot.Server.ts:84-99 | after tracking the arrival, the record is drained as `Drain` says; the send log gains the acknowledgements plus a failure report carrying the arriving id |
| BootServer.RenderTracker.ApplyTracked | src/Components/Browser.JS/src/Boot.Server.ts:88-93 | the handler's loop ends in the state `Drain` describes, acknowledging every batch except one that threw |
| BootServer.ReportNamesArrivingBatch | src/Components/Browser.JS/src/Boot.Server.ts:84-99 | with batch 3 waiting and throwing, the arrival of 2 applies 2 and 3; the messages are three acknowledgements and a failure report for 2, and nothing names 3 |
| BootServer.Dedup | src/Components/Browser.JS/src/Boot.Server.ts:24-31 | the collected ids have no repeats and are exactly the ids found |
| BootServer.DedupOfDistinct | src/Components/Browser.JS/src/Boot.Server.ts:24-31 | ids that are already distinct come out as found, in order |
| BootServer.DiscoverCircuitIds | src/Components/Browser.JS/src/Boot.Server.ts:26-31 | the discovery loop collects `Dedup` of the ids found |
| BootServer.WithStartedCircuit | src/Components/Browser.JS/src/Boot.Server.ts:69-71 | a present, non-empty started circuit id is appended; otherwise the list is unchanged |
| BootServer.StartedCircuitKeepsDistinct | src/Components/Browser.JS/src/Boot.Server.ts:69-71 | the list stays repeat-free if and only if the started id is absent, empty or new |
| BootServer.FoldAnd | src/Components/Browser.JS/src/Boot.Server.ts:57-57 | the `&&`-reduction is true exactly when the seed and every result are true |
| BootServer.Reconnect | src/Components/Browser.JS/src/Boot.Server.ts:53-63 | reconnecting with no circuits succeeds; otherwise it succeeds if and only if no circuit refused |
| RemoteRendering.Retire | src/Components/Server/test/Circuits/RemoteRendererTest.cs:179-243 | an acknowledgement keeps exactly the pending batches whose id is above the acknowledged one, and an ascending queue stays ascending |
| RemoteRendering.RetireStale | src/Components/Server/test/Circuits/RemoteRendererTest.cs:160-171 | an acknowledgement below every pending id changes nothing |
| RemoteRendering.RetireTwice | src/Components/Server/test/Circuits/RemoteRendererTest.cs:113-176 | two acknowledgements retire what the larger retires alone, in either order; repeats change nothing |
| RemoteRendering.RetireFront | src/Components/Server/test/Circuits/RemoteRendererTest.cs:232-242 | on an ascending queue, retiring is dropping the front batches whose ids are not above the acknowledged one |
| RemoteRendering.Lookup | src/Components/Server/test/Circuits/RemoteRendererTest.cs:246-281 | finds a pending entry of the batch when there is one, and reports none only when no entry has that id |
| RemoteRendering.Resent | src/Components/Server/test/Circuits/RemoteRendererTest.cs:94-106 | a replay keeps the ids and counts one more attempt on every batch |
| RemoteRendering.Transmissions | src/Components/Server/test/Circuits/RemoteRendererTest.cs:94-106 | a replay sends each pending batch once, in queue order, on the given connection |
| RemoteRendering.ReplayInOrder | src/Components/Server/test/Circuits/RemoteRendererTest.cs:94-106 | replaying an ascending queue puts every pending id on the wire once, in strictly increasing order, on the new connection only |
| RemoteRendering.RetryStep | src/Components/Server/test/Circuits/RemoteRendererTest.cs:246-281 | a firing waits exactly while the client is offline, resends only below the three-attempt ceiling, and raises only at it |
| RemoteRendering.RetryRun | src/Components/Server/test/Circuits/RemoteRendererTest.cs:246-281 | over a run of firings, sends are at most the connected firings, at most one error is raised, and only once the batch has been sent up to the ceiling |
| RemoteRendering.RetryRunAlways | src/Components/Server/test/Circuits/RemoteRendererTest.cs:246-281 | with the connection state fixed, the sends are the connected firings up to the attempts left, and one error comes exactly when connected firings outnumber them |
| RemoteRendering.RetryRaisesOnce | src/Components/Server/test/Circuits/RemoteRendererTest.cs:246-281 | a never-acknowledged batch is sent until the three-attempt ceiling; a further connected firing raises exactly one error; no sequence of firings raises more |
| RemoteRendering.CircuitClientProxy.constructor | src/Components/Server/test/Circuits/RemoteRendererTest.cs:67-67 | a proxy created on a connection is connected on it, with nothing sent |
| RemoteRendering.CircuitClientProxy.CreateOffline | src/Components/Server/test/Circuits/RemoteRendererTest.cs:24-24 | the offline client is not connected and has sent nothing |
| RemoteRendering.CircuitClientProxy.SetDisconnected | src/Components/Server/test/Circuits/RemoteRendererTest.cs:89-89 | the proxy goes offline and keeps its connection id and send log |
| RemoteRendering.CircuitClientProxy.Transfer | src/Components/Server/test/Circuits/RemoteRendererTest.cs:94-94 | the proxy is connected again, on the new connection id |
| RemoteRendering.RemoteRenderer.constructor | src/Components/Server/test/Circuits/RemoteRendererTest.cs:333-349 | batch ids start at 2, component ids at 0; nothing pending, no errors |
| RemoteRendering.RemoteRenderer.AssignRootComponentId | src/Components/Server/test/Circuits/RemoteRendererTest.cs:343-348 | root components are numbered 0, 1, ... in order of attachment |
| RemoteRendering.RemoteRenderer.Render | src/Components/Server/test/Circuits/RemoteRendererTest.cs:28-47 | a render takes the next batch id and queues the batch; it is sent at once (one attempt) only while connected |
| RemoteRendering.RemoteRenderer.RenderComponent | src/Components/Server/test/Circuits/RemoteRendererTest.cs:333-350 | attaching and rendering a root component: next component id and next batch id, queued and sent as `Render` says |
| RemoteRendering.RemoteRenderer.OnRenderCompleted | src/Components/Server/test/Circuits/RemoteRendererTest.cs:179-243 | the queue becomes `Retire` of the old queue by the acknowledged id; ids and error count unchanged |
| RemoteRendering.RemoteRenderer.ProcessBufferedRenderBatches | src/Components/Server/test/Circuits/RemoteRendererTest.cs:50-110 | when connected, every pending batch is sent again on the current connection in queue order and counts one more attempt; offline, nothing changes |
| RemoteRendering.RemoteRenderer.RetryBatch | src/Components/Server/test/Circuits/RemoteRendererTest.cs:246-281 | a firing for an acknowledged batch does nothing; otherwise it waits while offline, resends while under three attempts, and then gives the batch up with exactly one error |
| RemoteRendering.RemoteRenderer.RetryBatchRepeatedly | src/Components/Server/test/Circuits/RemoteRendererTest.cs:246-281 | repeated firings of a pending batch's retry timer send and raise exactly what `RetryRun` counts: sends up to the attempts left while connected, then exactly one error, never more |
| RemoteRenderingScenarios.WritesAreBufferedWhenTheClientIsOffline | src/Components/Server/test/Circuits/RemoteRendererTest.cs:28-47 | two offline renders leave two pending batches |
| RemoteRenderingScenarios.ProcessBufferedRenderBatchesWritesRenders | src/Components/Server/test/Circuits/RemoteRendererTest.cs:50-110 | the wire carries 2 on the first connection, then 3 and 4 on the new one; acknowledging them empties the queue |
| RemoteRenderingScenarios.OnRenderCompletedIgnoresAlreadyProcessedAcks | src/Components/Server/test/Circuits/RemoteRendererTest.cs:113-176 | after acknowledging 3, a late acknowledgement of 2 leaves only 4 pending; acknowledging 4 empties the queue |
| RemoteRenderingScenarios.GracefullyRecoversFromMissingClientAcknowledge | src/Components/Server/test/Circuits/RemoteRendererTest.cs:179-243 | two batches queued offline are replayed as 2, 3; acknowledging 3 alone empties the queue |
| RemoteRenderingScenarios.StopsRenderingIfClientDoesNotAcknowledgeRenders | src/Components/Server/test/Circuits/RemoteRendererTest.cs:246-281 | an unacknowledged batch is sent three times and then raises exactly one error |
| RemoteRenderingScenarios.RecoversIfItMissesARenderInBetweenASequence | src/Components/Server/test/Circuits/RemoteRendererTest.cs:285-330 | a failed send of 3 followed by an acknowledgement of 4 raises no error |
| RemoteRenderingScenarios.PrerendersMultipleComponentsSuccessfully | src/Components/Server/test/Circuits/RemoteRendererTest.cs:333-350 | two prerendered components get ids 0 and 1 and leave two pending batches |
| RemoteRenderingScenarios.DisconnectingWhileSendingABatchDoesNotCauseARenderFailure | src/Components/Server/test/Circuits/RemoteRendererTest.cs:353-399 | failed sends after the client goes offline raise no error and leave both batches pending |
| Discovery.ParseInt | src/Components/Browser.JS/src/Platform/Circuits/CircuitRegistry.ts:130-131 | a number parses to itself; only numbers and strings with a leading digit give a value (otherwise NaN) |
| Discovery.GetComponentStartComment | src/Components/Browser.JS/src/Platform/Circuits/CircuitRegistry.ts:112-138 | only start-marker comments classify; a marker is well-formed exactly when its JSON parsed and its component, circuit and renderer ids are all truthy; unparsable JSON gives no ids |
| Discovery.FindEnd | src/Components/Browser.JS/src/Platform/Circuits/CircuitRegistry.ts:140-173 | the end is the first later sibling that is the end marker of the same component id, or the child count when none is; the malformed list is exactly the other components' end markers passed, in order |
| Discovery.GetComponentEndComment | src/Components/Browser.JS/src/Platform/Circuits/CircuitRegistry.ts:140-173 | the scan loop's result is `FindEnd` |
| Discovery.Pairs | src/Components/Browser.JS/src/Platform/Circuits/CircuitRegistry.ts:71-104 | a node without children yields no pairs; every pair lies below the node, only well-formed starts have an end, and a pair is valid exactly when its end was found, after its start |
| Discovery.PairsFrom | src/Components/Browser.JS/src/Platform/Circuits/CircuitRegistry.ts:80-101 | every pair of the scan from child `i` lies in or under child `i` or a later one, with the shape `Pairs` states |
| Discovery.ResolveCommentPairs | src/Components/Browser.JS/src/Platform/Circuits/CircuitRegistry.ts:71-104 | the while loop with its recursive descent returns `Pairs` |
| Discovery.ScanChild | src/Components/Browser.JS/src/Platform/Circuits/CircuitRegistry.ts:81-100 | one loop turn moves the scan forward and appends exactly what `PairsFrom` finds between the two positions |
| Discovery.AppendAll | src/Components/Browser.JS/src/Platform/Circuits/CircuitRegistry.ts:86-89 | a child's pairs are appended in their order |
| Discovery.UnterminatedStartEndsScan | src/Components/Browser.JS/src/Platform/Circuits/CircuitRegistry.ts:93-96 | an unterminated well-formed start gives one invalid pair, with the child count as its end index, and nothing after it at that level |
| Discovery.MatchedStartSkipsEnclosed | src/Components/Browser.JS/src/Platform/Circuits/CircuitRegistry.ts:93-96 | a matched start gives a valid pair ending at the match, and no later pair comes from the siblings up to that end |
| Discovery.ValidEntries | src/Components/Browser.JS/src/Platform/Circuits/CircuitRegistry.ts:11-20 | every entry comes from a valid pair and carries its start's ids with the pair as placeholder; every valid pair gives an entry |
| Discovery.InvalidPairs | src/Components/Browser.JS/src/Platform/Circuits/CircuitRegistry.ts:11-20 | the reported pairs are exactly the invalid ones |
| Discovery.EntriesAndReportsPartition | src/Components/Browser.JS/src/Platform/Circuits/CircuitRegistry.ts:11-20 | every pair becomes an entry or a report, never both and never neither |
| Discovery.ValidEntriesAppend | src/Components/Browser.JS/src/Platform/Circuits/CircuitRegistry.ts:11-20 | entries keep document order: the entries of a concatenation are those of each part in turn |
| Discovery.DiscoverPrerenderedCircuits | src/Components/Browser.JS/src/Platform/Circuits/CircuitRegistry.ts:6-34 | the entries are those of the document's valid pairs, and the reports are its invalid pairs |
| Discovery.Initialize | src/Components/Browser.JS/src/Platform/Circuits/CircuitRegistry.ts:60-68 | without a placeholder, the entry is attached by attribute selector; with one, by the range from the start marker to its end node; a placeholder without an end fails |
| Discovery.DiscoveredEntriesAttachToRange | src/Components/Browser.JS/src/Platform/Circuits/CircuitRegistry.ts:60-68 | every discovered entry is attached to a node range whose end marker is a later sibling of its start marker |
| Prerendering.GetFullBaseUri | src/Components/Server/src/Circuits/CircuitPrerenderer.cs:85-97 | the base URI always ends in `/` |
| Prerendering.GetFullUri | src/Components/Server/src/Circuits/CircuitPrerenderer.cs:75-83 | the full URI is the origin and path base the base URI is built from, followed by the path and the query string |
| Prerendering.BuildAbsolute | src/Components/Server/src/Circuits/CircuitPrerenderer.cs:77-82 | the absolute URI is exactly as long as its parts and the `://` separator |
| Prerendering.BaseUriAppendsSlashOnlyWhenMissing | src/Components/Server/src/Circuits/CircuitPrerenderer.cs:91-94 | one `/` is appended only when missing; a base already ending in `/` is returned unchanged |
| Prerendering.BaseUriIsPrefixOfFullUri | src/Components/Server/src/Circuits/CircuitPrerenderer.cs:75-97 | for a path starting with `/`, the base URI is a prefix of the full URI |
| Prerendering.UrisWithEmptyPathBase | src/Components/Server/test/Circuits/CircuitPrerendererTest.cs:65-71 | full URI `https://example.com:1234/some/path`, base URI `https://example.com:1234/` |
| Prerendering.UrisWithPathBase | src/Components/Server/test/Circuits/CircuitPrerendererTest.cs:108-114 | full URI `https://example.com:1234/my/dir/some/path`, base URI `https://example.com:1234/my/dir/` |
| Prerendering.GetOrCreateCircuitHost | src/Components/Server/src/Circuits/CircuitPrerenderer.cs:45-66 | returns the host already stored under the key, changing nothing; otherwise creates one host with the offline client and the request's URIs, stores it under the key and registers it for disposal |
| Prerendering.GetOrCreateCircuitHostTwice | src/Components/Server/src/Circuits/CircuitPrerenderer.cs:45-66 | two calls on one request return the same stored host, registered for disposal at most once |

## Left out

- Transport: connection building, start and stop, the JS-interop and error handlers, `forceCloseConnection` and `unhandledError`. A send is an entry appended to a log; on the server, a transmission is an entry in the proxy's log.
- Asynchrony.
  - `completeBatch` is fire-and-forget. Its three attempts appear contiguously in the log, and interleaving with later sends is not modelled.
  - `Promise.all` in reconnect is reduced to the boolean fold.
  - The renderer's timer delays are not modelled. A firing of a batch's retry timer is a call to `RetryBatch`.
- The batch applier (`renderBatch`) is a foreign call. A set `failing` of (renderer id, batch id, payload) triples says which applications throw. The exception text is not modelled; the rethrow after the report is the `threw` result.
- Logging (`console.log`, `console.error`) is not modelled, and neither are the repeated printing of discovered ids and the "no preregistered components" message.
- The attribute-selector attach loop in `boot` and `attachRootComponentToElement` are not modelled. `Initialize` returns the attach target instead of calling it. The selector's text is represented by the three ids it is built from.
- `ComponentEntry.reconnect` and `CircuitRegistry.startCircuit` are hub invocations. Reconnect is modelled only by its boolean results (`Reconnect`), and `startCircuit` only by the returned id (`WithStartedCircuit`).
- Regular expressions and JSON parsing are not modelled. Comments arrive already classified as start markers (with their JSON fields, or unparsable), end markers (with their decimal id), or other nodes. The source also catches an exception around `parseInt` of an end id; the end pattern admits only digits, so that path cannot occur.
- Discovery.ParseInt: reads only leading decimal digits of a string and takes a number as itself. It does not model leading whitespace, signs, the `0x` hexadecimal prefix (`"0x1A"` parses to 26, the model gives 0), arrays (`[5]` is stringified and parses to 5, the model gives NaN), or numbers of 1e21 and above (read through their exponent form, giving 1). These cases decide which end marker a start marker pairs with.
- Discovery.GetComponentEndComment: has no `end` parameter. The source's only caller passes the child count, which the model uses directly.
- Nodes are identified by their path of child indices from the document root, not by object identity.
- `PrerenderedCircuit.ts` is not part of this model. It builds a list and never returns it.
- RemoteRendering.RemoteRenderer.OnRenderCompleted: takes only the acknowledged batch id. The client's second argument, an error message or null, is not modelled, and neither is the logging it triggers.
- RemoteRenderer's own source is not part of this model. Its contract is taken from its unit tests.
  - A failed send is not a separate event: the batch stays pending until the next firing of its retry timer.
  - A given-up batch leaves the pending queue, so later firings do nothing.
- `PrerenderComponentAsync`, the exception plumbing (`UnhandledException` handlers, `CircuitHost_UnhandledException`) and the circuit factory's internals are not modelled. A host records only that it has the offline client and its two URIs. As written, `GetOrCreateCircuitHost` attaches its handler to an undefined `circuitHost` and does not compile; the model follows the evident intent.
- `UriHelper.BuildAbsolute` is modelled as plain concatenation of scheme, `://`, host, path base, path and query string. The host already includes its port.
- The request item bag holds only circuit hosts in the model, and `Add` on an existing key (which throws) cannot be reached.
- Test mocks, component classes and server-side circuit retention are not modelled.
- The source's static maps (`renderQueues`, `_trackedRenders`) are explicit objects (`RenderQueues`, `RenderTracker`).
- Integers are unbounded. Batch and component ids never approach the 53-bit range of JavaScript numbers or the 64-bit range of C# longs in these flows.
