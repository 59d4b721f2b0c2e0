# flowctl verification

flowctl runs Stellar data pipelines: sources emit events, processors transform them, sinks consume them. This project
models the parts of flowctl that carry its guarantees and proves those guarantees with Dafny 4.11.
`dafny verify dfyconfig.toml` checks everything.

## What is modelled

* **Supervised delivery** (`Transport`, `DeliveryWorker`, `DeliveryProtocol`, `Wiring`, `Forwarding`, `PipelineDelivery`).
  Every forwarding loop of the stream orchestrator is a worker with a program counter, a log of what it received and one
  log per target. `DeliveryProtocol` interleaves any number of workers with arbitrary peers, the error group and the
  context; `Forwarding` holds the loops themselves as imperative methods, each shown to be a play of the worker;
  `Wiring` is `WireAll`; `PipelineDelivery` joins the wiring to the protocol.
* **The terminal phase of a run** (`RunTerminal`, `RunCutOff`): the select over result, signal and context, the wait
  after a stop, and the stopping of components, composed with the delivery protocol.
* **The DAG engine** (`DagBuild`, `PipelineGraph`, `GraphBuilder`, `DagEngine`, `DagSafety`, `DagFanOut`, `PipelineFlow`,
  `Lexicographic`, `DagShutdown`, `DagCycle`, `DagReach`, `DagRing`): how a pipeline becomes a connected graph, how its
  goroutines exchange messages over bounded channels, who gets what from whom, and how `Stop` takes it down.
* **The control plane's registry** (`RegistrySpec`, `ServiceStores`, `ControlPlane`): the cache of mutable records, the
  memory backend that shares objects with it, the file backend that copies, and the health state machine.
* **Chunk records** (`ChunkIds`, `ChunkRuns`): generated ids and the merging of updates.
* **Images** (`Layers`, `Reference`): extraction of layers with whiteouts, and parsing and printing of references.
* **Algorithms** (`EnvExpand`, `Utf8`, `Sanitize`, `DependencyOrder`, `SandboxStart`, `PipelineStart`): `${NAME}`
  expansion, control-character stripping over UTF-8 (sections 3 and 4 of RFC 3629), and dependency-ordered start.

Code that changes state in steps is imperative here too: classes with fields, methods with loops, each tied to a function
or a step relation about which the properties are proved. Interleavings are step systems over explicit states.

## Where the code does not do what is promised

Each of these is an if-and-only-if over all inputs or runs, next to a concrete instance.

* `README.md:108-117` promises that a bounded run completes only after every edge closed and every sink acknowledged
  exactly what it was sent. `Wait` drops a first error that says Canceled, whoever said it. A run recorded COMPLETED
  delivered everything exactly if at no point of it a peer failed with Canceled while the context was alive
  (`RunTerminal.CompletedMeansDeliveredIff`; instance `DeliveryProtocol.CanceledPeerIsTakenForSuccess`).
* The first select of `Run` and `waitForTerminalOnStop` may both receive from the terminal channel, on which one value is
  ever sent. A run can come to its exit by itself exactly unless its first select took the only report with the context
  over, and that happens exactly when the report is nil (`RunTerminal.CanExitIff`, `RunTerminal.SecondReportIff`;
  instance `RunTerminal.DeadlockIsReachable`).
* Adapters that share a source take its events from one channel, although the comment speaks of sending to all input
  channels. In every run each adapter of a source has taken everything exactly if it is the only one, or nothing has been
  taken (`DagSafety.EachTookAllIff`; instance `DagSafety.OneEventOneAdapter`).
* `Stop` closes the source channels without waiting for the sources, which watch the context given to `Start` and not the
  one `Stop` cancels. A run panics exactly if a source sends on its channel after that; no processor or adapter ever does
  (`DagSafety.EveryRun`, `DagSafety.NeverPanics`; instance `DagSafety.LateSourcePanics`).
* `Stop` cancels and waits, but a select may keep choosing the input over the cancellation. Take a DAG whose lists each
  fit into one channel and whose listed channels are all read - the latter holds of every DAG the build calls assemble
  (`DagBuild.Dag.AssembledNetworkIsRead`). From a fresh start all its runs end after `Stop` exactly if from no source the
  connections lead on without end (`DagReach.StartedDagEndsIff`, `DagReach.SourceInCoreIff`; instance
  `DagRing.CyclicDagMayNeverShutDown`). That such a DAG comes to rest from every state the engine's invariant allows is
  the same as its being acyclic (`DagCycle.ShutdownEndsIff`).
* `README.md:116-117` promises that an interrupted run is recorded as stopped rather than failed. If no edge has failed
  when delivery is stopped, that is so exactly if wiring was done and no loop fails afterwards with a cause other than
  Canceled and DeadlineExceeded; a Send that reports end-of-file after the cancellation is such a failure
  (`RunTerminal.StoppedUnlessLoopFails`; instance `RunCutOff.CutOffSendFailsTheRun`).
* A recorded delivery failure is meant to outlast a service's own claims to be healthy. The memory backend keeps the
  cache's status objects, and a component that registers under another name has its status under two ids. A heartbeat
  for one service heals the recorded failure of another exactly if it reaches it through such a status, claims health and
  blanks the run id (`ControlPlane.HealedByAnotherIff`, `ControlPlane.HeartbeatForAnother`; instance
  `ControlPlane.FailureHealedUnderAnotherName`).
* Generated chunk ids of two runs can collide exactly if one run id, followed by a colon, begins the other
  (`ChunkIds.CollideIff`; instance `ChunkIds.TwoRunsOneId`).
* A whiteout that comes after an entry of its own layer removes that entry, although whiteouts are meant for lower layers.
  A layer extracts to its overlay exactly if nothing is lost that way (`Layers.TarIsOverlayIff`; instance
  `Layers.LateWhiteoutLosesOwnEntry`).
* In the digest form, printing and parsing a reference loses the part after a colon in the last repository segment, and
  is the identity otherwise (`Reference.RoundTripIff`; instance `Reference.ColonBeforeDigestIsLost`).
* `${NAME}` expansion and both dependency-ordered starts check for no cycle; each ends exactly if there is none
  (`EnvExpand.AcyclicIff`, `DependencyOrder.EndsIff`; instances `EnvExpand.SelfReferenceNeverEnds`,
  `DependencyOrder.SelfDependencyNeverEnds`).
* The store always uses the component's own id as key, the cache the request's id. A fresh registration leaves them in
  agreement exactly if the two are the same (`RegistrySpec.RegisterCoherentIff`; instance
  `RegistrySpec.RegisteredUnderAnotherName`).

## Model

| member | source | states |
|---|---|---|
| Transport.ProcessorIsDueEverything | internal/runner/stream_orchestrator.go:203-242 | a processor target is due every event its upstream emitted |
| Transport.DueExactlyTheAccepted | internal/runner/stream_orchestrator.go:269-279 | a sink is due an event exactly if it was received and its type is accepted; an empty type list accepts all |
| Transport.DueInOrder | internal/runner/stream_orchestrator.go:269-279 | what a sink is due stands in the order received: each further event is appended if the sink lists no types or this one, and nothing is otherwise |
| DeliveryWorker.ActKeepsInv | internal/runner/stream_orchestrator.go:203-327 | no action of a forwarding loop loses, reorders, duplicates or wrongly sends an event, and nothing is received after end-of-file |
| DeliveryWorker.PlayKeepsInv | internal/runner/stream_orchestrator.go:203-327 | at every point of every run of one loop, each target's log differs from what it is due by at most the event in hand |
| DeliveryWorker.UnboundedFanOutNeverReturnsNil | internal/runner/stream_orchestrator.go:245-262 | fan-out over an unbounded source never sees a clean end and never returns nil |
| DeliveryWorker.LoopFailsIff | internal/runner/stream_orchestrator.go:203-327 | a forwarding loop fails exactly when its peer does, a sink does not acknowledge exactly its events, an unbounded source ends in a live context, or a fanned-out source ends in one that is over; and with which cause |
| DeliveryWorker.FailureNamesTheEdge | internal/runner/stream_orchestrator.go:58-64 | the error names the edge's kind and upstream, the target it failed on, the operation, and the event in hand if there is one |
| DeliveryWorker.LoopReturnsNilIff | internal/runner/stream_orchestrator.go:203-327 | a loop returns nil exactly when its stream ended and its last target has been closed as it should |
| DeliveryProtocol.StepKeepsInv | internal/runner/stream_orchestrator.go:66-74 | every step of every worker, peer, group and context keeps the global invariant |
| DeliveryProtocol.EveryInterleaving | internal/runner/stream_orchestrator.go:203-242 | in every interleaving each edge received a prefix of what its upstream emitted, and at most one event is on its way to each target |
| DeliveryProtocol.FirstErrorWins | internal/runner/stream_orchestrator.go:66-74 | the group holds the first unforgiven error recorded along the run, no later error displaces it, and the context stays over |
| DeliveryProtocol.ForgivenOnlyAfterTheEnd | internal/runner/stream_orchestrator.go:66-74 | a worker's own error is dropped iff the context was already over and its cause is context.Canceled, the status Canceled or the status DeadlineExceeded; any other is what the group records |
| DeliveryProtocol.WaitDropsCanceled | internal/runner/stream_orchestrator.go:374-381 | Wait drops the group's first error iff its cause is context.Canceled or the status Canceled |
| DeliveryProtocol.NilMeansDeliveredIff | internal/runner/stream_orchestrator.go:374-381 | when all edges have ended and Wait returns nil, the state shows complete delivery iff no worker's record shows an error that says Canceled and left a live context |
| DeliveryProtocol.NilMeansDeliveredUnlessCanceled | internal/runner/stream_orchestrator.go:66-74 | of every run whose edges have all ended, that nothing outside stopped, and for which Wait returns nil: everything was delivered iff at no step of it a peer failed with Canceled while the context was alive |
| DeliveryProtocol.DeliveredToTarget | internal/runner/stream_orchestrator.go:283-327 | after complete delivery a processor was sent all that was emitted, a sink exactly the accepted events, in order, and it acknowledged exactly their number with no failure |
| DeliveryProtocol.CanceledPeerIsTakenForSuccess | internal/runner/stream_orchestrator.go:374-381 | a run in which the source fails with Canceled, Wait returns nil, nothing was stopped, and nothing was delivered |
| Forwarding.Upstream.RecvFromSource | internal/runner/stream_orchestrator.go:245-262 | end-of-file is passed on exactly if the context is alive and the source is bounded |
| Forwarding.ForwardEvents | internal/runner/stream_orchestrator.go:203-242 | the forwarding loops return nil iff the stream ended cleanly, every send was taken and the close succeeded; then the processor holds everything in order and is closed; always the log is a prefix with at most one event missing |
| Forwarding.SendToAll | internal/runner/stream_orchestrator.go:311-325 | one event goes to every accepting sink in order; the loop stops at the first sink that refuses an event it was due |
| Forwarding.SendToSink | internal/runner/stream_orchestrator.go:311-325 | one turn of that loop: a sink that does not accept the event is passed over, any other is sent it or refuses it, and no other sink is touched |
| Forwarding.CloseAll | internal/runner/stream_orchestrator.go:293-307 | closing succeeds iff every sink acknowledges exactly what it was sent, with zero failures and errors |
| Forwarding.FanOutEvents | internal/runner/stream_orchestrator.go:291-326 | the receiving half of fan-out: what it received, what each sink was sent, and how it stops |
| Forwarding.FanOut | internal/runner/stream_orchestrator.go:281-327 | fan-out returns nil iff the input ended cleanly and every sink took what it was due and acknowledged exactly that; then each sink's log is the accepted events in order |
| Wiring.WiringKeepsChainsApart | internal/runner/stream_orchestrator.go:114-133 | every source owns its streams: no edge touches another source's stream, no stream has two senders or two receivers |
| Wiring.ChainLinks | internal/runner/stream_orchestrator.go:173-184 | each edge of a chain but the last feeds exactly the processor stream from which the next edge receives |
| Wiring.WiringLaysChains | internal/runner/stream_orchestrator.go:114-184 | of all the edges, those of each source lead in list order through every processor, on streams opened for that source to just these components; the last has one target per sink of the pipeline, in order, with its id and registered types, and without processors one per sink that names the source |
| Wiring.CanWireIff | internal/runner/stream_orchestrator.go:87-162 | a source can be wired iff every call for it, for each processor and for each sink its chain needs succeeds, and without processors some sink names it |
| Wiring.StreamOrchestrator.OpenStream | internal/runner/stream_orchestrator.go:93-112 | opening succeeds iff the component is registered and no call fails; a failure cancels and names the edge |
| Wiring.StreamOrchestrator.OpenSinks | internal/runner/stream_orchestrator.go:140-162 | one stream per sink: of all sinks behind processors, else of just those that name the source; the first that cannot be opened is named in the error |
| Wiring.StreamOrchestrator.OpenProcessors | internal/runner/stream_orchestrator.go:114-133 | one stream per processor for this source alone |
| Wiring.StreamOrchestrator.LaunchChain | internal/runner/stream_orchestrator.go:164-184 | the edges launched for a source are exactly its chain |
| Wiring.StreamOrchestrator.WireSource | internal/runner/stream_orchestrator.go:87-184 | a source is wired iff everything its chain needs can be opened, and then exactly its chain's streams and edges are added; otherwise no edge of it was launched and the error names the first call that failed |
| Wiring.StreamOrchestrator.WireAll | internal/runner/stream_orchestrator.go:76-187 | wiring succeeds iff there are sources and sinks and everything each chain needs answers, and then every chain is laid in full and there is no other edge; otherwise it stops at the first source that cannot be wired, names what failed, leaves exactly the edges of the sources before it, and cancels |
| PipelineDelivery.NoEventChangesChain | internal/runner/stream_orchestrator.go:114-133 | in every run, an event sent to a stream was emitted on a stream opened for the same source, and is accepted there |
| PipelineDelivery.ProcessorGotEverything | internal/runner/stream_orchestrator.go:203-242 | after complete delivery every processor of every chain was sent exactly what its upstream emitted, and the next edge received all that it emitted |
| PipelineDelivery.SinkGotEverything | README.md:108-117 | after complete delivery every sink of the pipeline, and without processors every sink that names the source, was sent over its own stream for that source exactly the accepted events of what the last edge received, in order, and acknowledged their number |
| RunTerminal.StepKeepsInv | internal/runner/pipeline_runner.go:303-362 | every step of the run and of delivery keeps the run's invariant |
| RunTerminal.EveryRun | internal/runner/pipeline_runner.go:303-362 | the invariant holds in every reachable state |
| RunTerminal.ComponentsOutliveDelivery | internal/runner/pipeline_runner.go:333-374 | on every path components are stopped, and the run recorded, only when no delivery worker is alive |
| RunTerminal.CompletedMeansDeliveredIff | internal/runner/pipeline_runner.go:309-317 | a run recorded COMPLETED delivered everything iff at no step of it a peer failed with Canceled while the context was alive; then every source was bounded |
| RunTerminal.FailedIff | README.md:112-117 | a run is recorded FAILED iff wiring failed or Wait reported an error; one without sources or without sinks always is |
| RunTerminal.WiringFailureBlames | internal/runner/pipeline_runner.go:252-262 | a failed wiring is recorded with its own error, or with the group's first error where its own is a mere cancellation and the group's is not |
| RunTerminal.UninterruptedIsNotStopped | README.md:112-117 | without signal or cancellation no run is recorded STOPPED, and it is recorded COMPLETED iff wiring succeeded and Wait reported nothing |
| RunTerminal.InterruptedIsStoppedIff | README.md:116-117 | when an interruption stops delivery before the group holds an error, the run is recorded STOPPED iff wiring was done and the first error with which an edge then leaves unforgiven, if any, says Canceled; otherwise FAILED |
| RunTerminal.StoppedUnlessLoopFails | README.md:116-117 | when no edge has failed before the interruption, the run is recorded STOPPED iff wiring was done and no forwarding loop fails afterwards with a cause other than Canceled and DeadlineExceeded |
| RunTerminal.InterruptedByCause | README.md:116-117 | when no edge has failed before the interruption and wiring was done: STOPPED if every later failure of a loop is context.Canceled or a status Canceled or DeadlineExceeded, FAILED if one is anything else, such as end-of-file or the context's own deadline |
| RunTerminal.InterruptionIsTaken | internal/runner/pipeline_runner.go:303-374 | a signal or the end of the context can always interrupt a run that waits for delivery: a failure reported by then makes it FAILED, a nil report STOPPED, and without a report delivery is stopped and awaited |
| RunCutOff.CutOffSendFailsTheRun | internal/runner/stream_orchestrator.go:66-74 | a run from the beginning that is interrupted while an event is forwarded, whose Send then reports end-of-file, and that is recorded FAILED |
| RunTerminal.StuckIff | internal/runner/pipeline_runner.go:366-374 | the run can always move on, except after its exit and in the one state where a second terminal value is awaited |
| RunTerminal.CanExitIff | internal/runner/pipeline_runner.go:303-374 | from every reachable state some continuation by the run's own steps reaches its exit, iff the first select has not taken the only report with the context over |
| RunTerminal.SecondReportIff | internal/runner/pipeline_runner.go:309-335 | that comes about exactly when the first select takes a nil result with the context already over |
| RunTerminal.SecondReportNeverComes | internal/runner/pipeline_runner.go:366-374 | no continuation leaves the state in which a second report is awaited |
| RunTerminal.DeadlockIsReachable | internal/runner/pipeline_runner.go:309-374 | a run from the beginning into that state |
| DagSafety.NeverPanics | internal/core/dag.go:335-374 | in every reachable state a send panics iff it is a source's, on a channel that Stop has closed; no processor or adapter ever panics |
| DagSafety.StepKeepsInv | internal/core/dag.go:283-374 | every step of adapters, loops, sources, sinks and Stop keeps the DAG's invariant |
| DagSafety.EveryRun | internal/core/dag.go:283-374 | in every run each channel's sends are its takes followed by its buffer, which never exceeds the capacity; and the run panics iff at some step of it a source sends after Stop closed its channel |
| DagSafety.LateSourcePanics | internal/core/dag.go:335-343 | a run in which Stop closes the channel of a running source, whose next send panics |
| DagSafety.OncePerListing | internal/core/dag.go:316-330 | one output reaches a channel as often as the channel is listed for its type |
| DagSafety.EveryOutputFannedOut | internal/core/dag.go:300-331 | what a channel has from a goroutine is exactly what the goroutine's results owe it, but for the sends in hand; only cancellation lets it leave with sends unmade |
| DagFanOut.LoopOwes | internal/core/dag.go:300-331 | a failed Process owes nothing, an output of an unlisted type nothing, any other output once each channel of its type's list, in the list's order, after all before it |
| DagFanOut.OwedCount | internal/core/dag.go:316-330 | a delivery is owed as often as Process returned its message in all successful results together, times as often as the channel is listed for its type |
| DagFanOut.OwedOrder | internal/core/dag.go:316-330 | on one channel the outputs stand in the order in which Process returned them |
| DagFanOut.ChannelHasEveryOutput | internal/core/dag.go:300-331 | in every reachable state a channel has from a loop between two messages exactly those outputs, in that order and that often |
| DagFanOut.AdapterOwes | internal/core/dag.go:172-203 | an adapter owes each event it took, in order, with its payload and under its event type, to its processor's channel |
| DagSafety.EventsAreDivided | internal/core/dag.go:172-203 | events of a source are divided among its adapters: each is taken at most once, and every take is some adapter's |
| DagSafety.EachTookAllIff | internal/core/dag.go:172-203 | in every run each goroutine that reads a channel has taken all that was taken from it iff no two read it or nothing was taken |
| DagSafety.OneEventOneAdapter | internal/core/dag.go:172-203 | a source with two adapters whose one event goes to one of them |
| DagShutdown.EveryStepDescends | internal/core/dag.go:283-374 | every step of an acyclic DAG that is not a source's send lowers a lexicographic measure, in whatever state |
| DagShutdown.ShutdownTerminates | internal/core/dag.go:283-374 | no run of an acyclic DAG goes on forever while its sources are silent, however far Stop has come |
| DagShutdown.DrainingTerminates | internal/core/dag.go:335-374 | once Stop has closed the source channels, no run of an acyclic DAG is infinite, whatever the sources do |
| DagShutdown.ShutdownProgresses | internal/core/dag.go:335-374 | from cancellation until Stop is done some goroutine, a returning source or Stop can move, if Process returns and nothing has panicked |
| DagShutdown.StoppedMeansQuiet | internal/core/dag.go:335-374 | when Stop is done all goroutines have exited, and exactly the source channels and the sink channels still known by name are closed |
| DagReach.StartedDagEndsIff | internal/core/dag.go:241-374 | for every network whose lists fit into a channel and whose listed channels are read: from a fresh start, all runs after Stop closed the sources end, and all runs whose sources have fallen silent end, iff no source channel is left when channels that lead nowhere are peeled off |
| DagReach.SourceInCoreIff | internal/core/dag.go:101-238 | a source channel is left after peeling iff from some source there is an endless walk along the connections |
| DagReach.FedGoesRound | internal/core/dag.go:283-374 | if so, some run from a fresh start - a source sends, its adapter passes the message on, Stop closes the sources - never ends |
| DagReach.UnfedRunEnds | internal/core/dag.go:283-374 | if not, every run from a fresh start ends, whatever the capacities: nothing ever gets into the cycles |
| DagReach.PrunedStepAgrees | internal/core/dag.go:283-374 | while nothing is in the cycles, every step is the same step of the network without what the cycles pass on, and nothing gets into them |
| DagCycle.ShutdownEndsIff | internal/core/dag.go:283-374 | for every such network: from every state that satisfies the invariant, reachable or not, all runs with silent sources end iff it is acyclic, and likewise all runs after the source channels are closed |
| DagCycle.CycleGoesRound | internal/core/dag.go:283-332 | in every such network with a cycle an endless run starts from some state, not always reachable, that satisfies the invariant and in which Stop has closed the source channels |
| DagCycle.EmptyCoreIsAcyclic | internal/core/dag.go:215-238 | a network in which peeling off channels that lead nowhere leaves none can be ranked: cycles are all that stands against a rank |
| DagRing.CyclicDagMayNeverShutDown | internal/core/dag.go:283-332 | from a fresh start, a DAG with a cycle has a run that never ends although Stop was called and sources are quiet |
| DagBuild.InputChannelsCover | internal/core/dag.go:66-69 | every input type has a channel of its own among the new ones |
| DagBuild.Dag.AddProcessor | internal/core/dag.go:51-74 | a repeated name is refused and changes nothing; otherwise the node, its channels and nothing else is added |
| DagBuild.Dag.AddSource | internal/core/dag.go:77-88 | a repeated name is refused; otherwise the source gets a channel |
| DagBuild.Dag.AddSinkChannel | internal/core/dag.go:91-98 | the sink gets a new channel; one that had the name before is known no longer |
| DagBuild.Dag.Connect | internal/core/dag.go:101-144 | succeeds iff both ends exist and the type is accepted; exactly one channel is appended to the sender's list |
| DagBuild.Dag.ConnectSourceToProcessor | internal/core/dag.go:147-212 | succeeds iff both ends exist and the type is accepted; exactly one adapter is launched |
| DagBuild.Dag.ConnectProcessorToSink | internal/core/dag.go:215-238 | succeeds iff both ends exist; exactly the sink's channel is appended |
| DagBuild.Dag.Start | internal/core/dag.go:241-280 | in whatever order, every source is opened and then one loop is started for every input channel of every processor; the first failing Open or Init ends it, with whatever was started by then |
| DagBuild.Dag.AssembledNetworkFits | internal/core/dag.go:241-280 | whatever was added and connected in whatever order, the started DAG meets the engine's assumptions about its channels, has a goroutine per adapter and per loop, and still knows the sinks' channels |
| DagBuild.Dag.AssembledNetworkIsRead | internal/core/dag.go:101-144 | whatever was added and connected, every channel that a processor of the started DAG writes is a sink's or is read by some processor loop |
| PipelineGraph.ProcessorLinkTimes | internal/core/pipeline_dag.go:115-138 | a processor-to-processor link is implied as often as Inputs and OutputEventTypes together repeat it; a name that is a source gives none |
| PipelineGraph.SinkLinkTimes | internal/core/pipeline_dag.go:141-155 | likewise for processor-to-sink links |
| PipelineGraph.AdapterLinkTimes | internal/core/pipeline_dag.go:115-138 | a source-to-processor link is implied as often as Inputs and OutputEventTypes together repeat it, and none from what is no source |
| PipelineGraph.AcceptedTypesAre | internal/core/pipeline_dag.go:259-284 | a processor accepts exactly the types that some source or processor among its inputs emits |
| PipelineGraph.ListedAsOftenAsLinked | internal/core/pipeline_dag.go:110-157 | a channel is listed exactly as often as its link is made |
| PipelineGraph.ListedForItsTypeOnly | internal/core/pipeline_dag.go:110-157 | no input channel is listed for another type than its own |
| PipelineGraph.InputsAreAccepted | internal/core/pipeline_dag.go:259-284 | every type an input emits is among the types its processor accepts |
| GraphBuilder.DetermineInputTypes | internal/core/pipeline_dag.go:259-284 | the nested loops collect the output types of every component each input names, in order |
| GraphBuilder.Index | internal/core/pipeline_dag.go:104-113 | the index has exactly the components' names and, if they are distinct, the right component under each |
| GraphBuilder.DagPipeline.RegisterSources | internal/core/pipeline_dag.go:52-62 | fails exactly on a repeated source name |
| GraphBuilder.DagPipeline.RegisterProcessors | internal/core/pipeline_dag.go:65-80 | fails exactly on a repeated processor name; otherwise every node has a channel of its own per type |
| GraphBuilder.DagPipeline.ConnectInput | internal/core/pipeline_dag.go:118-137 | makes exactly the links of one input of one processor, and never fails |
| GraphBuilder.DagPipeline.ConnectProcessors | internal/core/pipeline_dag.go:115-138 | makes exactly the links of all processors, in order |
| GraphBuilder.DagPipeline.ConnectSinks | internal/core/pipeline_dag.go:141-155 | makes exactly the links of all sinks, in order |
| GraphBuilder.DagPipeline.BuildPipelineGraph | internal/core/pipeline_dag.go:50-159 | fails exactly on a repeated source or processor name, never because a type is not accepted; otherwise all implied links are made and no other |
| GraphBuilder.DagPipeline.ProcessorOutputs | internal/core/pipeline_dag.go:115-138 | after building, a processor lists another's input channel for its type exactly as often as Inputs and OutputEventTypes imply, and for no other type |
| GraphBuilder.DagPipeline.SinkOutputs | internal/core/pipeline_dag.go:141-155 | after building, a processor lists a sink's channel exactly as often as implied |
| GraphBuilder.DagPipeline.SourceAdapters | internal/core/pipeline_dag.go:115-138 | after building, there are exactly as many adapters from a source to a processor for a type as the source is among its inputs times the type among the source's output types |
| GraphBuilder.DagPipeline.AdapterReachesProcessor | internal/core/dag.go:172-203 | each of them takes from its source's channel and sends to its processor's channel for its type |
| GraphBuilder.DagPipeline.ProcessorAccepts | internal/core/pipeline_dag.go:65-80 | after building, a processor has a channel for exactly the types that the components among its inputs emit |
| PipelineFlow.ProcessorFlow | internal/core/dag.go:283-332 | in every reachable state of a pipeline's built and started DAG, a processor's loop between two messages has sent another processor each output of a type as often as Process returned it, times as often as the pipeline's Inputs and OutputEventTypes say; nothing of another type, and nothing under a source's name |
| PipelineFlow.SinkFlow | internal/core/dag.go:283-332 | likewise to every sink, when the sinks' names are distinct |
| PipelineFlow.SourceFlow | internal/core/dag.go:147-212 | a source's adapter between two events has sent all that it took, in order and under its type, to its processor's channel for that type, and nothing anywhere else |
| RegistrySpec.ApplyKeepsCoherent | internal/api/control_plane.go:179-372 | each operation on its own keeps cache and store equal |
| RegistrySpec.EveryRunIsCoherent | internal/api/control_plane.go:126-150 | after any sequence of registrations, heartbeats, janitor passes, removals and restarts cache and store hold the same records, and a restart restores the cache |
| RegistrySpec.RegisterCoherentIff | internal/api/control_plane.go:186-226 | a registration with a fresh timestamp leaves cache and store the same iff the service id is the component's own non-empty id |
| RegistrySpec.RegisteredUnderAnotherName | internal/api/control_plane.go:186-226 | a component "y" registered as "x" is "x" in the cache, "y" in the store, and "y" after a restart |
| RegistrySpec.HeartbeatIsIdempotent | internal/api/control_plane.go:271-298 | applying a heartbeat twice is applying it once |
| RegistrySpec.HeartbeatUpdates | internal/api/control_plane.go:271-279 | a heartbeat is seen now, adds its metrics over those there were, and sets the health it claims unless that is unknown, or healthy while a run id is recorded; then only an unknown health changes, to healthy |
| RegistrySpec.HeartbeatIsForOne | internal/api/control_plane.go:262-298 | exactly the record of its id changes, in cache and store; of an unknown id nothing does |
| RegistrySpec.JanitorDemotes | internal/api/control_plane.go:452-488 | exactly the records whose cached health is HEALTHY and last heartbeat older than the time to live become UNHEALTHY and are otherwise the same, in cache and store |
| RegistrySpec.ServiceIdIs | internal/api/control_plane.go:185-192 | the service id is the requested one, else the component's own, else a generated one |
| RegistrySpec.RegistrationRecords | internal/api/control_plane.go:194-226 | a registration records a healthy service without metrics, under the service id in the cache and under the component's in the store; the file backend refuses an empty one |
| RegistrySpec.RemovalAndRestart | internal/api/control_plane.go:355-372 | a removal takes exactly its id out of cache and store; a restart makes the cache the store |
| RegistrySpec.HealsIff | internal/api/control_plane.go:271-278 | a heartbeat makes a service with a recorded delivery failure healthy iff it claims health and blanks the run id |
| RegistrySpec.FailureStaysVisible | internal/api/control_plane.go:271-278 | no sequence of operations that neither registers, removes nor blanks makes such a service healthy; if its heartbeats claim at most health, its status does not change; with the memory backend, which keeps the cache's own objects, for services registered under their components' ids |
| ServiceStores.UpdateInPlace | internal/api/control_plane.go:271-294 | the statements of the heartbeat and janitor updaters, run on an object, give the updated record |
| ServiceStores.MemoryStorage.RegisterService | internal/storage/memory.go:42-49 | the caller's object itself is kept under the component's id |
| ServiceStores.MemoryStorage.UpdateService | internal/storage/memory.go:52-62 | exactly the named record is updated, in place; a missing id is an error |
| ServiceStores.MemoryStorage.DeleteService | internal/storage/memory.go:91-101 | exactly the named record is removed; a missing id is an error |
| ServiceStores.BoltStorage.RegisterService | internal/storage/bolt.go:149-168 | a copy is kept under the component's id; the empty key is refused |
| ServiceStores.BoltStorage.UpdateService | internal/storage/bolt.go:179-215 | a decoded copy is updated and written back; a missing id is an error |
| ServiceStores.BoltStorage.DeleteService | internal/storage/bolt.go:302-320 | exactly the named record is removed; a missing id is an error |
| ControlPlane.UpdateIsIdempotent | internal/api/control_plane.go:271-298 | an updater run on an object it has already updated, through a shared status, changes nothing |
| ControlPlane.UpdateCached | internal/api/control_plane.go:270-280 | updating the cached record in place reaches exactly the stored records around the same status |
| ControlPlane.UpdateStored | internal/api/control_plane.go:283-298 | updating a record of the memory backend reaches exactly the cached records around the same status |
| ControlPlane.TwiceIsOnce | internal/api/control_plane.go:270-298 | a record that the updater reaches twice, once through its status, ends as updated once |
| ControlPlane.ControlPlaneServer.Update | internal/api/control_plane.go:270-298 | cached and stored record of the id end as updated once, and of the other records exactly those around the same statuses have their status updated |
| ControlPlane.ControlPlaneServer.RegisterComponent | internal/api/control_plane.go:179-259 | cache and store change as specified for either backend; the memory backend's record is around the cached one's status; with the component's own id no two services come to share objects |
| ControlPlane.ControlPlaneServer.Heartbeat | internal/api/control_plane.go:262-311 | an unknown service is an error and changes nothing; otherwise cache and store change as specified, and where statuses are shared under different ids, exactly those records' statuses change too |
| ControlPlane.HealedByAnotherIff | internal/api/control_plane.go:271-294 | a heartbeat for one service heals another's recorded failure iff it reaches it through a shared status, claims health and blanks the run id |
| ControlPlane.HeartbeatForAnother | internal/api/control_plane.go:262-311 | the same on the server and its objects: reached are the services around the status of the backend's record |
| ControlPlane.HealedByNamesake | internal/api/control_plane.go:190-225 | if the backend holds a failed service's status under another name, a registration and a blanking heartbeat of that name heal it, although neither is about the service |
| ControlPlane.FailureHealedUnderAnotherName | internal/api/control_plane.go:190-225 | such a run on a new server: "y" registers as "x" and fails, "w" registers as "y" and reports health, and "x" is healthy |
| ControlPlane.ControlPlaneServer.UnregisterComponent | internal/api/control_plane.go:355-372 | the id is removed from cache and store |
| ControlPlane.ControlPlaneServer.CheckServiceHealth | internal/api/control_plane.go:452-488 | whatever the iteration order, exactly the services that the cache has as HEALTHY and has not seen for longer than the time to live become UNHEALTHY, in cache and store; all else is unchanged |
| ControlPlane.ControlPlaneServer.LoadServices | internal/api/control_plane.go:126-150 | whatever order the backend lists, every stored record ends up in the cache, and the store is not changed |
| ChunkIds.DecimalInjective | internal/api/control_plane.go:707-709 | two numbers with the same decimal form are equal |
| ChunkIds.DecimalSays | internal/api/control_plane.go:707-709 | the decimal form of a number reads as that number, with a minus sign before a negative one and only there |
| ChunkIds.IdIsSpelled | internal/api/control_plane.go:707-709 | the generated id is run, component, start, a dash, end, and attempt, joined by colons |
| ChunkIds.IdInjectiveInRun | internal/api/control_plane.go:707-709 | units of one run never share a generated id |
| ChunkIds.CollideIff | internal/api/control_plane.go:707-709 | acceptable units of two runs can share an id iff one run id followed by a colon begins the other |
| ChunkIds.TwoRunsOneId | internal/api/control_plane.go:707-709 | component "a:b" of run "run" and component "b" of run "run:a" get one id for the same range and attempt |
| ChunkIds.ColonFreeRuns | internal/api/control_plane.go:707-709 | run ids without colons never collide |
| ChunkIds.IdInjective | internal/api/control_plane.go:707-709 | among distinguishable run ids the generated id determines run, component, range and attempt |
| ChunkRuns.MergeMaps | internal/api/control_plane.go:926-964 | the two copying loops compute the union in which the update wins |
| ChunkRuns.MergeChunkRun | internal/api/control_plane.go:966-1002 | the merge takes identity from the update, every other field from the update if set, and unites the maps |
| ChunkRuns.MergeIsAssociative | internal/api/control_plane.go:966-1002 | merging is associative |
| ChunkRuns.FoldOfBatches | internal/api/control_plane.go:966-1002 | updates may be merged in batches |
| ChunkRuns.UpsertChunkRun | internal/api/control_plane.go:686-733 | each error exactly in its case and then nothing changes; otherwise the record under the filled-in id is the merge with what was there, and is returned |
| ChunkRuns.RefusedIff | internal/api/control_plane.go:695-703 | refused are exactly a missing run, then a missing component, then a start beyond the end |
| ChunkRuns.FilledIn | internal/api/control_plane.go:704-709 | a missing attempt becomes 1 and a missing id the generated one; nothing else changes |
| ChunkRuns.StoreHoldsFolds | internal/api/control_plane.go:712-720 | after any serialised upserts the store holds under each id the merge of the accepted updates with that id, and nothing else |
| ChunkRuns.FoldSumsUp | internal/api/control_plane.go:966-1002 | a merged record's fields are the last values its updates set, its maps have the last value under each key |
| ChunkRuns.EveryUnitHasItsOwnRecord | internal/api/control_plane.go:686-733 | with generated ids every unit of work has a record iff it was updated, and it sums up that unit's own updates |
| Layers.FileSystem.MkdirAll | internal/registry/client.go:247-262 | creates the missing directories down to the path, or fails and changes nothing where a file is in the way |
| Layers.StepKeepsWellFormed | internal/registry/client.go:197-282 | every entry leaves a tree: what exists, exists in a directory |
| Layers.ExtractEntry | internal/registry/client.go:205-285 | one turn of the loop, with its whiteouts and errors, has the specified effect; a failing entry changes nothing |
| Layers.OpaqueWhiteoutLeaves | internal/registry/client.go:229-240 | an opaque whiteout leaves its directory there and empty, and everything outside as it was |
| Layers.WhiteoutRemoves | internal/registry/client.go:242-250 | a whiteout removes the path it names and all below it, and nothing else |
| Layers.DotWhiteoutRemoves | internal/registry/client.go:242-250 | a whiteout without a name or for a dot removes its directory, one for two dots the directory above; at the destination either removes everything |
| Layers.PlainEntryLeaves | internal/registry/client.go:253-284 | any other entry leaves its file or directory, directories on the way to it, and everything else as it was |
| Layers.PlainEntryFailsIff | internal/registry/client.go:253-284 | it fails iff a file is above its path, or it is a directory over a file or a file over a directory, and then changes nothing |
| Layers.WhiteoutFailsIff | internal/registry/client.go:242-250 | a whiteout fails iff a file is above what it names |
| Layers.ErrorSticks | internal/registry/client.go:197-285 | extraction stops at the first entry that fails |
| Layers.ExtractTar | internal/registry/client.go:193-338 | the loop leaves the tree of the entries before the first that fails, and reports that failure |
| Layers.ExtractImageLayers | internal/registry/client.go:166-190 | layers are extracted in order up to the first that fails |
| Layers.ContentsAre | internal/registry/client.go:246-285 | a layer contributes exactly the paths its entries name or need, each as the last such entry has it |
| Layers.WhiteoutsFirstIsLossless | internal/registry/client.go:220-244 | a layer whose whiteouts precede what they would cover loses none of its own entries |
| Layers.LosslessIff | internal/registry/client.go:220-244 | the check over pairs of entries is exact: it holds iff no path added by the layer is removed and not added again |
| Layers.TarIsOverlayIff | internal/registry/client.go:193-282 | a layer that extracts without error gives its overlay iff its whiteouts lose none of its own entries |
| Layers.ImageIsOverlay | internal/registry/client.go:166-190 | an image of such layers extracts, if without error, to the overlay of its layers |
| Layers.LateWhiteoutLosesOwnEntry | internal/registry/client.go:234-244 | a layer in which a late whiteout drops the layer's own file |
| Reference.ParseIsAccepted | internal/registry/reference.go:30-117 | whatever is parsed has a registry that looks like a host, a repository, a valid tag or digest, and no marks where they would be misread |
| Reference.ParseAlwaysFinds | internal/registry/reference.go:30-100 | exactly the empty text is refused as empty; a registry, and a tag or a digest, are always found |
| Reference.HostAloneIsRefused | internal/registry/reference.go:67-117 | a registry with nothing after its slash is refused |
| Reference.ValidIff | internal/registry/reference.go:103-166 | valid are exactly the references with a registry, a repository, a tag or a digest, and at most 128 of the right characters for a tag |
| Reference.FirstSegmentIsHostIff | internal/registry/reference.go:67-79 | a first segment is the registry iff it has a dot or a colon or is localhost; else the registry is docker.io |
| Reference.TagIsLetThroughIff | internal/registry/reference.go:154-166 | exactly tags of at most 128 letters, digits, underscores, dots and dashes, not starting with a dot or dash, are let through |
| Reference.DigestIsLetThroughIff | internal/registry/reference.go:169-191 | exactly sha256 or sha512, a colon and at least 32 lower-case hexadecimal digits are let through |
| Reference.BareNameParses | internal/registry/reference.go:22-24 | a bare name is the latest library image of docker.io |
| Reference.OrganisationParses | internal/registry/reference.go:24-26 | a first segment that is no host belongs to the repository |
| Reference.PortIsNoTag | internal/registry/reference.go:58-65 | a colon before the last slash is a port, and the tag is the default one |
| Reference.PartsParse | internal/registry/reference.go:30-100 | registry, repository, tag and digest put together parse into these parts |
| Reference.TaggedNameParses | internal/registry/reference.go:30-100 | registry, repository and tag put together parse into these parts, whether there is a port or not |
| Reference.PrintedTagParses | internal/registry/reference.go:120-128 | every accepted reference without digest is what its printed form parses to |
| Reference.PrintedTagIsInjective | internal/registry/reference.go:120-128 | two such references that print alike are the same |
| Reference.PrintedDigestParses | internal/registry/reference.go:120-128 | in the digest form a colon in the last segment shortens the repository; otherwise all but the tag is the same |
| Reference.RoundTripIff | internal/registry/reference.go:30-128 | printing and parsing again gives the same reference, and the same canonical form, iff there is no digest or no colon in the last repository segment |
| Reference.ColonBeforeDigestIsLost | internal/registry/reference.go:53-65 | a reference that does not survive |
| EnvExpand.TurnRewrites | pkg/runner/env_handler.go:55-79 | on a rendered template one turn of the loop rewrites the first reference, and the loop stops iff there is none |
| EnvExpand.TurnReplaces | pkg/runner/env_handler.go:55-79 | on any text, one turn replaces the first opening, up to the first brace after it, by the value of what stands between |
| EnvExpand.TurnStopsIff | pkg/runner/env_handler.go:56-64 | on any text the loop stops iff there is no opening, or no closing brace after the first |
| EnvExpand.RewriteKeepsMeaning | pkg/runner/env_handler.go:77-78 | a turn keeps the recursive expansion and uses up exactly one of the references it unfolds to |
| EnvExpand.LoopComputesExpansion | pkg/runner/env_handler.go:50-79 | a template that unfolds finitely is rewritten, in exactly as many turns as it unfolds to references, into its recursive expansion |
| EnvExpand.HaltsIff | pkg/runner/env_handler.go:55-79 | the loop stops on a template iff its references unfold finitely |
| EnvExpand.AcyclicIff | pkg/runner/env_handler.go:55-79 | every reference is expanded in finitely many turns iff the definitions are acyclic |
| EnvExpand.SelfReferenceNeverEnds | pkg/runner/env_handler.go:55-79 | `A=${A}` never ends |
| EnvExpand.Index | pkg/runner/env_handler.go:57-65 | the search finds the first place of a text, or none |
| EnvExpand.ReplaceFirst | pkg/runner/env_handler.go:56-78 | the loop body is one turn: variables before the operating system's, nothing for an unknown name |
| EnvExpand.ExpandReferences | pkg/runner/env_handler.go:50-79 | on any text and variables on which it stops, the loop ends with the text that has no further reference |
| EnvExpand.ExpandTemplate | pkg/runner/env_handler.go:50-79 | on a template whose references unfold finitely, the loop ends with the recursive expansion |
| Utf8.FirstOfEncoded | internal/sanitize/sanitize.go:36-48 | reading back a written character gives it, whatever follows |
| Utf8.EncodedFirst | internal/sanitize/sanitize.go:36-48 | a well-formed character is the encoding of what is read: no second spelling |
| Utf8.DecodeOfEncoded | internal/sanitize/sanitize.go:36-49 | decoding what was encoded gives it back, and it is valid |
| Utf8.ValidIff | internal/sanitize/sanitize.go:104-106 | exactly the valid strings survive decoding and encoding |
| Utf8.EncodingTable | internal/sanitize/sanitize.go:36-48 | the bytes of a character are those of the table in section 3 of RFC 3629 |
| Utf8.CharacterIsRead | internal/sanitize/sanitize.go:36-48 | the loop reads an encoded character as itself and moves past it |
| Utf8.BadByteIsReplaced | internal/sanitize/sanitize.go:36-48 | a byte that begins no character is read as U+FFFD, and the loop moves on by one byte |
| Sanitize.StrippedIsValid | internal/sanitize/sanitize.go:25-50 | the result is valid UTF-8, has exactly the kept characters in order, and no control character |
| Sanitize.KeptOneByOne | internal/sanitize/sanitize.go:36-48 | character by character, dropped are exactly those below 0x20, 0x7F and from 0x80 to 0x9F, except newline and tab where these are kept |
| Sanitize.NoControlLeft | internal/sanitize/sanitize.go:25-116 | no such character is left in the result |
| Sanitize.StrippedTwice | internal/sanitize/sanitize.go:25-73 | both functions are idempotent, and both orders of applying them give Line |
| Sanitize.UnchangedIff | internal/sanitize/sanitize.go:102-116 | a string is left as it is iff it passes the early-return test |
| Sanitize.IsClean | internal/sanitize/sanitize.go:103-116 | the scan decides validity and absence of dropped characters |
| Sanitize.String | internal/sanitize/sanitize.go:30-50 | the early return and the loop both give decode, drop, encode with newline and tab kept |
| Sanitize.Line | internal/sanitize/sanitize.go:56-73 | likewise with newline and tab dropped |
| DependencyOrder.VisitIsSound | internal/sandbox/runtime/runtime.go:297-318 | at every point, even after a failed start, what was started is closed under dependencies and in order; a search that ends well has started its name |
| DependencyOrder.EndsIff | internal/sandbox/runtime/runtime.go:281-318 | with no failing start the search ends iff the dependencies are acyclic; acyclicity suffices whatever fails |
| DependencyOrder.VisitAddsOnce | internal/sandbox/runtime/runtime.go:297-318 | with acyclic dependencies a search starts only what its name needs, each once |
| DependencyOrder.StartsEverythingOnce | internal/sandbox/runtime/runtime.go:281-294 | with acyclic dependencies every root and its dependencies are started exactly once, after all they depend on |
| DependencyOrder.DeeperIsSame | internal/sandbox/runtime/runtime.go:297-318 | a search that ends, ends the same way however much deeper it might go |
| DependencyOrder.SelfDependencyNeverEnds | internal/sandbox/runtime/runtime.go:297-318 | a service that depends on itself: the search never ends |
| SandboxStart.Runtime.StartServiceWithDeps | internal/sandbox/runtime/runtime.go:297-318 | the recursion over the shared set is the search |
| SandboxStart.Runtime.StartServices | internal/sandbox/runtime/runtime.go:281-294 | in any iteration order every service is started once and after its dependencies, or a start failed, what was started is closed under dependencies and nothing that fails to start is among it |
| PipelineStart.PipelineRunner.StartPipeline | internal/runner/pipeline_runner.go:439-478 | the recursive closure is the search over the known dependencies of first occurrences |
| PipelineStart.PipelineRunner.StartDependency | internal/runner/pipeline_runner.go:446-457 | the scan for one dependency starts its first occurrence once, and passes over unknown names |
| PipelineStart.PipelineRunner.StartComponents | internal/runner/pipeline_runner.go:432-486 | every pipeline component is started once, after all components that the first of its id depends on, and nothing else is; or a start failed, and only what can be started was |

## Left out

- gRPC transport, dialing, TLS and connection caching: streams are reliable first-in-first-out logs that may end, fail or be cancelled.
- Processors, sinks and sources inside: they are arbitrary peers, and Process may return anything.
- Processes, containers, log aggregation, the dashboard and the commands: input/output and user interface.
- Protobuf, JSON and database encoding: a stored record decodes to itself; nil and empty maps are one.
- Wall-clock time: instants are numbers given to each call; storage calls do not fail except for missing ids and the empty key.
- Which sources name which processors as inputs when wiring streams: as in the code, a chain passes through all processors in list order.
- `registrationOnly` runs, in which delivery is not supervised and the terminal channel never yields.
- The error group's own cancellation at the end of its wait: nobody looks at the context after that.
- What runs of a DAG whose `Start` failed half-way do, and a second call of `Stop`.
- DagReach.StartedDagEndsIff: where a source leads into a cycle but some list is longer than the channels' capacity, or some listed channel is read by nobody, a message may get stuck instead of going round; which of these DAGs shut down is not stated. Where no source leads into a cycle DagReach.UnfedRunEnds needs neither condition.
- DagCycle.ShutdownEndsIff: its states are those that satisfy the invariant, whether or not a run from a fresh start comes to them; for runs from a fresh start see DagReach.StartedDagEndsIff.
- DagShutdown.ShutdownTerminates: before Stop has closed the source channels a source may send for as long as Stop is not scheduled, so only runs in which sources are silent are bounded there; afterwards see DagShutdown.DrainingTerminates.
- ControlPlane.ControlPlaneServer.RegisterComponent: with the memory backend and a service id other than the component's own, the state afterwards is described for registrations, heartbeats and removals (`Sound`), not for a janitor pass, whose result then depends on the order in which it looks at the services, nor for loading the store's records back into the cache.
- RegistrySpec.FailureStaysVisible: does not cover the memory backend with services registered under other ids than their components', where it is false (ControlPlane.FailureHealedUnderAnotherName); when one heartbeat then heals another service is ControlPlane.HealedByAnotherIff.
- ControlPlane.ControlPlaneServer.CheckServiceHealth: one janitor pass at one instant; the ticker that repeats it is not modelled.
- ChunkRuns.UpsertChunkRun: upserts are serialised, because the code reads, merges and writes without a lock over the three; chunks are values, so the filling in of the caller's own record is not visible; counts are unbounded integers.
- Layers.ExtractTar: entries are files, directories, whiteouts and skipped types on clean relative paths; links, modes and paths that leave the destination are not modelled; of a whiteout that names the directory above the destination only the effect inside the destination is.
- EnvExpand.ExpandReferences: texts on which the loop never stops have no result; when it stops is stated for templates of characters other than the dollar sign and closed references; the second pass for `$NAME` and the random map order of ProcessEnvironment are not modelled.
- Sanitize.Line: the wrappers that apply it to every string of a slice or a map add nothing to it.
- SandboxStart.Runtime.StartServices: which starts fail is fixed per service, which is no restriction since each service is tried at most once.
- Docker Compose and script generation, configuration translation and field validators: long but shallow.
