# Conveyor central computer: a verified model

The central computer configures a network of conveyors, routes packages to
destination boxes over it, keeps account of the packages, and talks to the
conveyors over an ANT radio link that carries one message at a time. This
project models that program in Dafny and proves what it keeps over every run.
Two pieces of the bundled ANT SDK are modelled as well: extended burst framing,
and the heart-rate demo's transmitter and receiver.

`dafny verify dfyconfig.toml` checks everything.

## How it is organised

Objects that the source updates in place are classes (`DestinationBox`,
`Conveyor`, `ConveyorSystem`, `MessageQueue`, `ANTQueueHandler`,
`ANTServerTimer`, `BackendDriver`, `ANTServer`, `ANTThreadMessageHandler`, the
heart-rate `Transmitter` and `Receiver`). Their methods are proved against step
functions on values; the theorems are about those functions, over all runs.

- `CentralTypes`, `Sets`, `Sequences`, `Messages`, `MessageQueue`: constants,
  ordered visiting of sets, concatenation, the byte messages, the FIFO queue.
- `Graphs`, `Search`: shortest paths, and the breadth-first search with
  mark-on-pop, duplicate queue entries and return on discovery.
  The search is a method on the slot table alone, because slots are all it reads;
  `ConveyorSystem.CalculateRoutingPlan` runs it on the configured conveyors.
- `Boxes`, `Conveyors`, `Systems`: boxes, conveyors and the whole system as a
  step machine (`Next` for the tables, `Outputs` for the messages sent).
  `SystemProofs` (box invariants, allocation, conservation), `Provenance` (where
  removed packages come from), `Arrivals` (arrival reports), `Announcements` (what
  conveyors are told), `Replies` (what clients are told) and `RoutingProofs` hold
  the theorems, `SystemExamples` the runs in which an account fails;
  `DestinationBox`, `Conveyor` and `ConveyorSystem` are the classes. Each of their
  methods is proved equal to its step function and replies; the table below lists
  those that contain a loop or a search, and `ConveyorSystem.PerformAll` says that
  any sequence of calls is a run.
- `Links`: the stop-and-wait link as a step machine. `LinkProofs` (refinement),
  `LinkProgress` (retransmission and draining), `LinkTrace` (what goes on the
  air), `LinkFrames` (to whom), `LinkGate` (availability), `LinkTimer`
  (retransmissions), `LinkClears` (clear-box accounting) and `LinkArrivals` hold the theorems; `ANTServer` holds the classes, and
  `ANTServer.Interleave` says that any interleaving of their methods is a run.
- `EndToEnd` joins the two, in both directions: the system's commands are what can
  be read off the air and routed by, and the link's reports are what a processing
  thread that handles them turns into operations.
- `ExtBurst`, `HeartRate`: the SDK parts.

The link is modelled over every interleaving of its threads. The methods of the
ANT server are atomic steps (the source has no locks around them, so this is an
abstraction). The timer's loop and the driver's polling loop are split wherever
another thread can run in between; the queue handler's loop is split between
stopping the flow and handing the message to the server, while its check of the
flow, its pop and the stop are one step. The timer may fire whenever it runs.
Safety is proved over every run since start-up with no
assumption on what the environment sends; only the queued messages are those
that the program builds. Progress needs the conditions named below.

Outgoing messages are values: `ConveyorSystem.out` is the merged stream of
commands to the ANT thread and replies to web clients, `log` in the ANT server
is what an observer of the link sees. Web requests are plain parameters.

What callers must provide, as the source demands it: conveyor 1 exists and every
connection id of 1 or more is a configured conveyor (otherwise a map lookup
throws), a new box's conveyor is reachable (otherwise `back()` is taken of an
empty vector), and box locations are 0 to 3. Box ids need not be unique except
where a theorem says so.

## What the code does not do

Each of these is proved with its exact condition and, but for the last, a run from
start-up that shows it.

- A MESSAGE_RECEIVED that names the id of the state response being polled for
  stops the link for good: the flow is never resumed, and nothing is sent or
  popped again. It is the only event that takes the link out of its phases
  (`InvariantIffNoPollAcked`, `WedgedForever`; `PollAckExample`).
- A message whose conveyor id does not fit a byte is never completed, wherever it
  is in the link, unless it clears a box, whose reply is matched without the
  conveyor (`UnanswerableBlocksForever`; `UnanswerableExample`). These two are
  all: some continuation empties the link exactly when no poll was so acknowledged
  and every message enqueued could be answered (`DrainableIff`).
- A clear can be completed by a MESSAGE_RECEIVED naming the response id; nothing
  is then reported for it (`ClearsReportedOnce`; `ClearAckedExample`).
- A clear response is matched by its id alone, so a duplicate of one box's
  response completes the next clear and is reported as the first box again
  (`ReportsNameTheirClear`, `ClearsReportedInOrder`; `ClearMisnamedExample`).
- A package of type NONE or INVALID breaks the box invariants whenever it is
  accepted, and nothing else does (`StaysWellFormedIff`; `UncolouredExample`).
- A full box of type NONE says that it can accept a package and then refuses it, so
  that the lowest-numbered accepting conveyor is passed over (`AcceptIffAdded`,
  `TakerIsLowestAcceptorIff`; `FullBoxExample`, `UncolouredPackagesBreakTheBox`).
- A package of type INVALID makes its box count as uninitialised; the next box added
  there inherits it, and it can be removed from a box that it was never sent to.
  That a removed package had arrived in its box fails exactly when a new box that
  lookups find inherits a package which never went to its id (`StepTracedIff`,
  `MisattributionIsExact`; `InheritedPackageExample`).
- For the same reason an arrival can count twice. Repeating a report changes
  something exactly when the package is in transit to the box it names, and
  `Reopens` lists, exactly, the operations that put it there again
  (`ArrivalIsIdleIff`, `StaysOutOfTransitIff`; `RepeatedArrivalExample`).
- Box ids are not checked: an accepted package can be delivered and removed exactly
  when the lookup for its box's id finds that box (`DeliveredIffFound`;
  `TwinBoxesExample`).
- A package id that some box already holds is accepted again; packages are
  conserved by every step exactly when this never happens (`AcceptedConservesIff`,
  `AllConserveIffFresh`; `ReacceptedExample`).
- A completed clear for an unknown box removes packages from the input
  conveyor's box (`ClearStaysInItsBoxIff`; `ClearUnknownExample`).
- A payload of six bytes overwrites the timestamp of its frame (`LayOut`); queued
  payloads have at most three.

## Model

| member | source | states |
|---|---|---|
| `Search.BreadthFirst` | CentralComputerComs/CentralComputerComs/ConveyorSystem.cpp:257-308 | on every closed graph, the search returns a shortest path from conveyor 1 without repetitions, and the empty path iff the target is unreachable; it pops at most 4n+1 entries |
| `Search.PathMeetsQueue` | CentralComputerComs/CentralComputerComs/ConveyorSystem.cpp:267-305 | between two pops, every path to an unvisited conveyor is at least as long as some queued path, in spite of duplicates |
| `Search.MarkSettlesFront` | CentralComputerComs/CentralComputerComs/ConveyorSystem.cpp:268-281 | a conveyor is marked at the length of a shortest path to it, although marking waits until it is popped |
| `Search.DiscoveryIsShortest` | CentralComputerComs/CentralComputerComs/ConveyorSystem.cpp:291-298 | returning as soon as the target is seen as a successor still returns a shortest path |
| `ConveyorSystemClass.ConveyorSystem.CalculateRoutingPlan` | CentralComputerComs/CentralComputerComs/ConveyorSystem.cpp:257-308 | the search run on the configured conveyors |
| `ConveyorSystemClass.ConveyorSystem.SendPlan` | CentralComputerComs/CentralComputerComs/ConveyorSystem.cpp:317-326 | the loop sends each conveyor on the path its successor, and the last one itself |
| `ConveyorSystemClass.ConveyorSystem.CreateRoutingPlan` | CentralComputerComs/CentralComputerComs/ConveyorSystem.cpp:310-327 | the messages sent are those of a shortest route to the box's conveyor |
| `RoutingProofs.PlanHolds` | CentralComputerComs/CentralComputerComs/ConveyorSystem.cpp:317-326 | read as a next-hop table, a route's messages are a function on its conveyors, whatever was sent before |
| `RoutingProofs.FollowWalksRoute` | CentralComputerComs/CentralComputerComs/ConveyorSystem.cpp:317-326 | following the table from any conveyor on the route walks along it and stays at its end |
| `RoutingProofs.NetUnchanged` | CentralComputerComs/CentralComputerComs/Conveyor.cpp:19-23 | no operation but a reconfiguration changes the conveyor graph; adding a box fills a free slot |
| `RoutingProofs.RouteStaysShortest` | CentralComputerComs/CentralComputerComs/ConveyorSystem.cpp:57-94 | a route emitted for a box is a shortest path of every later graph until a reconfiguration, and each hop on it is one nearer |
| `RoutingProofs.PackagesReachTheirBox` | CentralComputerComs/CentralComputerComs/ConveyorSystem.cpp:310-327 | whatever runs before, and after it until a reconfiguration or another box is accepted under the id, the messages sent move a package from conveyor 1 to the box in exactly the shortest number of hops and keep it there |
| `Boxes.AcceptIffAdded` | CentralComputerComs/CentralComputerComs/DestinationBox.cpp:24-68 | the test before adding a package and the test while adding it agree iff the box is not a full one of type NONE, nor an uninitialised one with room asked about type INVALID |
| `Boxes.AddKeepsInv` | CentralComputerComs/CentralComputerComs/DestinationBox.cpp:42-68 | adding keeps capacity and emptiness iff the package has a colour or is refused; a coloured box keeps its colour |
| `Boxes.ClearKeepsInv` | CentralComputerComs/CentralComputerComs/DestinationBox.cpp:89-101 | clearing keeps the capacity, the emptiness rule and the colour |
| `Boxes.InitializedOnce` | CentralComputerComs/CentralComputerComs/DestinationBox.cpp:7-87 | a box ignores packages and reports until its first initialisation, which keeps what it holds; a second one changes nothing |
| `Boxes.UncolouredPackagesBreakTheBox` | CentralComputerComs/CentralComputerComs/DestinationBox.cpp:24-68 | packages of type NONE make a box that claims to accept and then refuses |
| `DestinationBoxes.DestinationBox.ClearBox` | CentralComputerComs/CentralComputerComs/DestinationBox.cpp:89-101 | clearing one id at a time, in any order, removes each from transit first and from storage otherwise |
| `SystemProofs.NextKeepsWellFormedIff` | CentralComputerComs/CentralComputerComs/ConveyorSystem.cpp:18-207 | every operation keeps the box invariants, four slots per conveyor and ids equal to keys, iff it does not accept a package of no colour |
| `SystemProofs.StaysWellFormedIff` | CentralComputerComs/CentralComputerComs/ConveyorSystem.cpp:18-207 | over any run, capacity, emptiness and colour hold after every operation iff every package accepted has a colour |
| `SystemProofs.SendKeepsWellFormedIff` | CentralComputerComs/CentralComputerComs/ConveyorSystem.cpp:107-140 | a package request keeps them iff its type is a colour or no box takes it |
| `SystemExamples.UncolouredExample` | CentralComputerComs/CentralComputerComs/ConveyorSystem.cpp:107-140 | a run from start-up in which one package of type NONE breaks the box invariant |
| `SystemProofs.NextKeepsSealedIff` | CentralComputerComs/CentralComputerComs/DestinationBox.cpp:42-68 | an operation keeps uninitialised boxes empty iff it does not accept a package of type INVALID |
| `SystemProofs.TakerIsLowestAcceptorIff` | CentralComputerComs/CentralComputerComs/ConveyorSystem.cpp:118-139 | for any table, a package goes to the lowest-numbered conveyor with an accepting box, and is refused if there is none, iff that box is not a full one of type NONE |
| `SystemProofs.TakerIsLowestAcceptor` | CentralComputerComs/CentralComputerComs/ConveyorSystem.cpp:118-139 | with the box invariants that is always so |
| `SystemExamples.FullBoxExample` | CentralComputerComs/CentralComputerComs/ConveyorSystem.cpp:107-139 | a run from start-up after which conveyor 1 says that it accepts a red package, which is refused |
| `SystemProofs.ColourIsKept` | CentralComputerComs/CentralComputerComs/DestinationBox.cpp:42-101 | over any run without a reconfiguration, whatever package types are requested, a coloured box keeps its colour and id |
| `SystemProofs.StepConserves` | CentralComputerComs/CentralComputerComs/ConveyorSystem.cpp:18-207 | one step: if an accepted request names a package that no box holds, the packages held are those held before, plus the one taken in, minus those let go; no package is in two places |
| `SystemProofs.PackagesConserved` | CentralComputerComs/CentralComputerComs/ConveyorSystem.cpp:18-207 | over any run whose accepted ids are fresh, held plus removed, cleared and dropped equals held at the start plus taken in, with multiplicity, and no id is in two boxes or both in transit and stored |
| `SystemProofs.AllConserveIffFresh` | CentralComputerComs/CentralComputerComs/ConveyorSystem.cpp:107-207 | over any run, every step conserves packages iff every accepted id is fresh |
| `SystemProofs.AcceptedConservesIff` | CentralComputerComs/CentralComputerComs/DestinationBox.cpp:57-65 | for an accepted package, conservation holds iff no box held its id |
| `SystemExamples.ReacceptedExample` | CentralComputerComs/CentralComputerComs/ConveyorSystem.cpp:107-140 | a run from start-up that takes package 1 in twice, lets none go, and holds one |
| `Provenance.RemovedPackagesHadArrived` | CentralComputerComs/CentralComputerComs/ConveyorSystem.cpp:153-182 | over any run from start-up in which no new box inherits a package that never went to its id, REMOVE_PACKAGE is only sent for a package that was sent to that box and then reported as arrived in it |
| `Provenance.StepTracedIff` | CentralComputerComs/CentralComputerComs/ConveyorSystem.cpp:57-182 | an operation keeps every package accounted for under its box's id iff it is not a box request that inherits one which never went there |
| `Provenance.MisattributionIsExact` | CentralComputerComs/CentralComputerComs/DestinationBox.cpp:9-18 | a continuation removes a package from a box where it had not arrived iff the box just added, which lookups find, inherited one that never went to its id |
| `Provenance.NoneInheritedSuffices` | CentralComputerComs/CentralComputerComs/DestinationBox.cpp:9-18 | no such inheritance happens in a run in which no new box inherits anything |
| `Provenance.NoneOrphanedSuffices` | CentralComputerComs/CentralComputerComs/DestinationBox.cpp:42-68 | no new box inherits anything in a run that accepts no package of type INVALID |
| `SystemExamples.InheritedPackageExample` | CentralComputerComs/CentralComputerComs/DestinationBox.cpp:9-68 | a run from start-up with one package of type INVALID, which is removed from a box it was never sent to |
| `SystemProofs.ClearStaysInItsBoxIff` | CentralComputerComs/CentralComputerComs/ConveyorSystem.cpp:195-241 | a completed clear leaves other boxes alone iff some box has the id or conveyor 1's box holds none of the packages |
| `SystemExamples.ClearUnknownExample` | CentralComputerComs/CentralComputerComs/ConveyorSystem.cpp:195-241 | a run from start-up in which the completed clear of box 9, which nobody has, takes package 1 out of box 5 |
| `Arrivals.DuplicateArrivalHarmless` | CentralComputerComs/CentralComputerComs/ConveyorSystem.cpp:142-151 | repeating an arrival report at any later point, before an operation puts the package in transit to that box again, leaves every box in the same final state |
| `Arrivals.ArrivalIsIdleIff` | CentralComputerComs/CentralComputerComs/ConveyorSystem.cpp:142-151 | an arrival report changes no box iff the package is not in transit to the box that it names |
| `Arrivals.StaysOutOfTransitIff` | CentralComputerComs/CentralComputerComs/DestinationBox.cpp:42-101 | an arrived package is put back in transit exactly by sending it to that box again, by a new box of the same id that inherits it and is found first, or by losing the box found first to a package of type INVALID when the next of the same id has it in transit |
| `Arrivals.NeverRequestedSuffices` | CentralComputerComs/CentralComputerComs/DestinationBox.cpp:42-101 | none of these happens in a run that accepts neither that package nor one of type INVALID |
| `SystemExamples.RepeatedArrivalExample` | CentralComputerComs/CentralComputerComs/DestinationBox.cpp:9-87 | a run from start-up in which a repeated report stores a package that was not requested again |
| `Arrivals.DeliveredIffFound` | CentralComputerComs/CentralComputerComs/ConveyorSystem.cpp:107-182 | an accepted package that no box held can be removed after its arrival is reported iff its type is not INVALID, its box's id is not -1, and the lookup for the id finds its box |
| `SystemExamples.TwinBoxesExample` | CentralComputerComs/CentralComputerComs/ConveyorSystem.cpp:209-255 | a run from start-up with two boxes 5, in which a package reported as arrived in box 5 stays in transit and cannot be removed |
| `Conveyors.SlotHoldsLastListed` | CentralComputerComs/CentralComputerComs/ConveyorSystem.cpp:28-45 | slot k holds the last non-empty listed connection at a position congruent to k modulo 4, and is empty iff there is none |
| `Conveyors.RolesComplement` | CentralComputerComs/CentralComputerComs/ConveyorSystem.cpp:23-48 | of two conveyors that name each other, the one processed first is master and the other slave, in any processing order |
| `SystemProofs.DisconnectsEachOnce` | CentralComputerComs/CentralComputerComs/ConveyorSystem.cpp:201-207 | as many disconnects as old conveyors, each for an old conveyor, in strictly ascending order |
| `SystemProofs.DisconnectsMissNone` | CentralComputerComs/CentralComputerComs/ConveyorSystem.cpp:201-207 | every old conveyor gets its disconnect |
| `SystemProofs.DisconnectsComeFirst` | CentralComputerComs/CentralComputerComs/ConveyorSystem.cpp:18-48 | a reconfiguration sends all disconnects before any connect, and nothing else |
| `Announcements.ConveyorsAreToldTheTable` | CentralComputerComs/CentralComputerComs/ConveyorSystem.cpp:18-48 | the slots that each conveyor makes out of the connect messages of a configuration are exactly those that the table holds for it |
| `Announcements.CommandsGoToTheirBox` | CentralComputerComs/CentralComputerComs/ConveyorSystem.cpp:107-193 | over every run from start-up, a clear or a removal goes to a conveyor that was told of that box, and of no other box nor a disconnect since; packages are sent for such boxes only; every box in use was told to its conveyor at the location it occupies |
| `Replies.ClearRequestAnswer` | CentralComputerComs/CentralComputerComs/ConveyorSystem.cpp:184-193 | a clear is requested from the conveyor with the lowest number that has a box of that id; the client is told of a failure iff there is none |
| `Replies.RemovalAnswer` | CentralComputerComs/CentralComputerComs/ConveyorSystem.cpp:153-182 | a stored package is ordered out of the conveyor found and confirmed; in transit, not there and no such box each have their own reply and no order |
| `Replies.StateAnswer` | CentralComputerComs/CentralComputerComs/ConveyorSystem.cpp:96-105 | the client is told the id, the type, the packages in transit and the packages stored of the box found, and nothing if there is none |
| `Replies.ArrivalAnswer` | CentralComputerComs/CentralComputerComs/ConveyorSystem.cpp:142-151 | an arrival is confirmed iff its box exists, whether or not the package was in transit |
| `Replies.SendAnswer` | CentralComputerComs/CentralComputerComs/ConveyorSystem.cpp:107-140 | the client is told the box to which the package was sent, or of a failure only if every accepting box is full |
| `Replies.ClearAnswer` | CentralComputerComs/CentralComputerComs/ConveyorSystem.cpp:195-199 | the client is told exactly the packages reported as cleared; these leave the box found, a package that is in it twice staying stored |
| `Replies.BoxEffects` | CentralComputerComs/CentralComputerComs/DestinationBox.cpp:70-87 | an arrival and a removal change only the box found, and only the package they name |
| `Replies.PackageLife` | CentralComputerComs/CentralComputerComs/ConveyorSystem.cpp:96-182 | an accepted package is reported to clients as in transit and cannot be removed until it arrives, then as stored and can be, and is gone once removed |
| `Replies.SecondBoxIsRefused` | CentralComputerComs/CentralComputerComs/ConveyorSystem.cpp:64-67 | after a box was accepted at a conveyor, every later request there is answered that it already has one, for as long as it keeps it |
| `Replies.AcceptedLocationStaysTaken` | CentralComputerComs/CentralComputerComs/ConveyorSystem.cpp:64-71 | after a box was accepted at a location, every request for it is refused until a reconfiguration: because the conveyor has a box or, if that was lost, because the location is taken |
| `Replies.AnswerAfterConfiguration` | CentralComputerComs/CentralComputerComs/ConveyorSystem.cpp:64-94 | right after a configuration, a box request is answered that the location is taken iff a connection is listed at a position congruent to it modulo 4, and accepted otherwise |
| `Replies.UnknownConveyorAnswer` | CentralComputerComs/CentralComputerComs/ConveyorSystem.cpp:82-87 | a request for a conveyor that was not configured is answered so |
| `Replies.ConfiguredEdges` | CentralComputerComs/CentralComputerComs/ConveyorSystem.cpp:283-289 | a configured conveyor leads exactly to the conveyors numbered 1 or more that its four slots keep of its list |
| `ConveyorSystemClass.ConveyorSystem.PerformAll` | CentralComputerComs/CentralComputerComs/ConveyorSystem.cpp:18-207 | any sequence of operations that the program allows, performed on the objects, is a run of the step machine with the routes that were found |
| `ConveyorSystemClass.ConveyorSystem.SetState` | CentralComputerComs/CentralComputerComs/ConveyorSystem.cpp:18-55 | the table and the messages of a reconfiguration |
| `ConveyorSystemClass.ConveyorSystem.AddDestinationBox` | CentralComputerComs/CentralComputerComs/ConveyorSystem.cpp:57-94 | the table, the messages and the reply, with every refusal |
| `ConveyorSystemClass.ConveyorSystem.SendPackage` | CentralComputerComs/CentralComputerComs/ConveyorSystem.cpp:107-140 | the ascending scan sends the package to the first box that takes it, or reports failure |
| `ConveyorSystemClass.ConveyorSystem.BoxIsAvailable` | CentralComputerComs/CentralComputerComs/ConveyorSystem.cpp:209-225 | some initialised box has the id, which is not -1 |
| `ConveyorSystemClass.ConveyorSystem.GetConveyorFromBox` | CentralComputerComs/CentralComputerComs/ConveyorSystem.cpp:243-255 | the lowest-numbered conveyor with that box, or conveyor 1 |
| `Messages.RoundTrip` | CentralComputerComs/CentralComputerComs/ANTThreadMessageHandler.cpp:55-168 | a message's payload carries its command iff every payload value fits a byte |
| `Messages.EncodeInjective` | CentralComputerComs/CentralComputerComs/ANTThreadMessageHandler.cpp:55-168 | different commands that fit give different messages |
| `Messages.IdsTellKinds` | CentralComputerComs/CentralComputerComs/ant_messages.h:16-30 | two messages have the same id iff their commands are of the same kind |
| `Messages.WireFormat` | CentralComputerComs/CentralComputerComs/ant_messages.h:32-91 | one message of each kind, byte for byte, in the protocol's numbers |
| `ANTThreadMessageHandlers.ANTThreadMessageHandler.SendConveyorConnectMsg` | CentralComputerComs/CentralComputerComs/ANTThreadMessageHandler.cpp:65-81 | the bytes filled in by index are the command's message, and it is enqueued last |
| `ANTThreadMessageHandlers.ANTThreadMessageHandler.SendPackageToInput` | CentralComputerComs/CentralComputerComs/ANTThreadMessageHandler.cpp:101-117 | likewise for adding a package at the input conveyor |
| `ANTThreadMessageHandlers.ANTThreadMessageHandler.ReadClearBoxResponse` | CentralComputerComs/CentralComputerComs/ANTThreadMessageHandler.cpp:170-183 | the set read is exactly the ids listed after the count |
| `MessageQueues.MessageQueue.Pop` | CentralComputerComs/CentralComputerComs/MessageQueue.h:32-38 | the oldest message leaves the queue, the rest stays in order |
| `LinkProofs.StepRefines` | CentralComputerComs/CentralComputerComs/ANTServer.cpp:31-200 | every step keeps the link in a phase that determines all flow-control and server fields, moves it as the one-message-at-a-time machine does, and keeps a retransmission armed while a reply is awaited |
| `LinkProofs.InvariantIffNoPollAcked` | CentralComputerComs/CentralComputerComs/ANTServer.cpp:60-79 | over every run, that invariant survives iff no MESSAGE_RECEIVED acknowledged a poll; otherwise the link is wedged |
| `LinkProofs.RunSafe` | CentralComputerComs/CentralComputerComs/ANTServer.cpp:31-200 | over every run, whatever the environment sends, the link is in a phase of the one-message-at-a-time machine or wedged |
| `LinkProofs.WedgedForever` | CentralComputerComs/CentralComputerComs/ANTServer.cpp:48-53 | a wedged link never sends or pops again, whatever happens |
| `LinkProofs.PollAckExample` | CentralComputerComs/CentralComputerComs/ANTServer.cpp:33-79 | a run of four steps that wedges the link |
| `LinkProgress.RetryAlwaysEnabled` | CentralComputerComs/CentralComputerComs/ANTServerTimer.cpp:40-67 | no lost wake-up: from every state of the invariant that awaits a reply, at most six timer and driver steps send the pending message again with its timestamp |
| `LinkProgress.CanAlwaysDrain` | CentralComputerComs/CentralComputerComs/ANTQueueHandler.cpp:7-27 | from every state of the invariant whose messages can all be answered, some continuation completes them all and empties the queue |
| `LinkProgress.UnanswerableBlocksForever` | CentralComputerComs/CentralComputerComs/ANTServer.cpp:62-64 | a message whose conveyor id is not a byte, unless it clears a box, stays outstanding or queued over every run that does not wedge the link, is awaited forever once awaited, and the link is never drained |
| `LinkProgress.DrainableIffAnswerable` | CentralComputerComs/CentralComputerComs/ANTQueueHandler.cpp:7-27 | in every state of the invariant, some continuation drains the link iff every message outstanding or queued can be answered |
| `LinkProgress.DrainableIff` | CentralComputerComs/CentralComputerComs/ANTServer.cpp:48-79 | after every run since start-up, some continuation drains the link iff no poll was acknowledged by a MESSAGE_RECEIVED and every message ever enqueued can be answered |
| `LinkProgress.UnanswerableExample` | CentralComputerComs/CentralComputerComs/ANTServer.cpp:42-45 | conveyor 300 is told to disconnect: after three steps no continuation drains the link |
| `LinkTrace.EverythingOnceInOrder` | CentralComputerComs/CentralComputerComs/ANTServer.cpp:31-193 | over every interleaving and every response: the frames with repeated timestamps collapsed and polls dropped, then the message popped but not yet sent, then the queue, are exactly the messages enqueued, in order |
| `LinkTrace.QueueIsFifo` | CentralComputerComs/CentralComputerComs/MessageQueue.h:21-38 | messages popped, then those queued, are those enqueued, in order |
| `LinkTrace.StepTraced` | CentralComputerComs/CentralComputerComs/ANTServer.cpp:130-193 | every step keeps: distinct sends are numbered consecutively modulo 256, neighbours with equal timestamps are identical frames, and the pending message is the one last sent |
| `LinkTrace.Retransmission` | CentralComputerComs/CentralComputerComs/ANTServer.cpp:130-137 | a timeout, stale or not, puts exactly the last frame on the air again, timestamp included, or nothing if no message is pending |
| `LinkTrace.TimestampsDistinct` | CentralComputerComs/CentralComputerComs/ANTServer.cpp:168-193 | over every interleaving and every response, any 256 consecutive distinct sends carry different timestamps in spite of the 8-bit wrap, and a repeated timestamp means a repeated frame |
| `LinkGate.AddsAreGated` | CentralComputerComs/CentralComputerComs/ANTServer.cpp:33-37 | in every run, an ADD_PACKAGE frame follows an availability report from its conveyor received after that very message was popped |
| `LinkGate.StepGated` | CentralComputerComs/CentralComputerComs/ANTServer.cpp:81-169 | every step, wedging or not, keeps the gate, and the log tells what the phase has popped and been granted |
| `LinkFrames.FramesServeTheirMessage` | CentralComputerComs/CentralComputerComs/ANTServer.cpp:31-193 | over every run since start-up, each frame goes to the conveyor of the message popped last before it, and carries that message or, for a package, asks that conveyor for its state |
| `LinkTimer.RetransmissionsNeedExpiries` | CentralComputerComs/CentralComputerComs/ANTServerTimer.cpp:40-67 | over every run since start-up, at most as many frames are sent again as the timer expired, and it only runs while a reply is awaited |
| `LinkTimer.TimeoutsBeginWhileAwaiting` | CentralComputerComs/CentralComputerComs/ANTServerTimer.cpp:47-60 | over every run since start-up, the timer expires and passes its check only while a reply is awaited |
| `LinkTimer.OnlyRaisingMerges` | CentralComputerComs/CentralComputerComs/BackendANTDriver.cpp:190-198 | no expiry is lost on its way to a retransmission but in raising a timeout flag that is still up |
| `LinkClears.ClearsReportedInOrder` | CentralComputerComs/CentralComputerComs/ANTServer.cpp:92-112 | over every run since start-up, the boxes reported as cleared, then the open clear, are exactly the clears popped, in order, iff no MESSAGE_RECEIVED completed a clear and every clear response accepted names the box being cleared |
| `LinkClears.ReportsNameTheirClear` | CentralComputerComs/CentralComputerComs/ANTServer.cpp:92-112 | every report names the box of the clear popped last before it iff every clear response accepted names the box being cleared |
| `LinkClears.ClearsReportedOnce` | CentralComputerComs/CentralComputerComs/ANTServer.cpp:60-112 | however many duplicates arrive, as many clears are reported as were completed iff no event of the run is a MESSAGE_RECEIVED that names the awaited clear response |
| `LinkClears.ClearAckedExample` | CentralComputerComs/CentralComputerComs/ANTServer.cpp:60-79 | a run of four steps that completes a clear without reporting it |
| `LinkClears.ClearMisnamedExample` | CentralComputerComs/CentralComputerComs/ANTServer.cpp:92-112 | a run of eight steps in which a duplicate response for box 5 completes the clearing of box 6 and is reported as box 5 |
| `LinkClears.StepBalances` | CentralComputerComs/CentralComputerComs/ANTServer.cpp:92-112 | every step keeps: clears popped equal those reported, plus those acknowledged away, plus the open one, which was popped last |
| `LinkArrivals.ExtraArrivalAddsOneReport` | CentralComputerComs/CentralComputerComs/ANTServer.cpp:114-118 | an extra PACKAGE_ARRIVED, at any point of any run, leaves everything in the link as it was and adds exactly one report, at its place in the order |
| `EndToEnd.DuplicateArrivalEndToEnd` | CentralComputerComs/CentralComputerComs/ANTThreadMessageHandler.cpp:185-191 | delivering an arrival again at any later point of the link's run, before an operation puts the package in transit to that box again, leaves the link as it was; a processing thread that handles the reports in order (this one never polls for them) performs exactly one operation more, and every box ends in the same state |
| `EndToEnd.ReportsReachTheClient` | CentralComputerComs/CentralComputerComs/ANTThreadMessageHandler.cpp:170-191 | a report of cleared packages tells the client the same packages; one of an arrival is confirmed iff the box exists |
| `ANTServers.LayOut` | CentralComputerComs/CentralComputerComs/ANTServer.cpp:179-186 | header, payload and timestamp are in place in the 8-byte buffer; the timestamp survives iff the payload stops short of its byte |
| `ANTServers.ANTServer.SendMessageToDriver` | CentralComputerComs/CentralComputerComs/ANTServer.cpp:171-193 | the message becomes pending, the timer runs, and the driver's buffer carries its frame |
| `ANTServers.ANTServer.ReceiveANTMessage` | CentralComputerComs/CentralComputerComs/ANTServer.cpp:55-128 | the step taken for each response, and the reports queued for the processing thread |
| `ANTServers.ANTServer.Interleave` | CentralComputerComs/CentralComputerComs/ANTServer.cpp:31-200 | running the objects' methods in any interleaving of the threads takes them through the run of the step machine, and queues exactly its reports |
| `ANTServers.BackendDriver.SendMessageToANT` | CentralComputerComs/CentralComputerComs/BackendANTDriver.cpp:94-99 | the driver's buffer holds the message |
| `EndToEnd.CommandsArriveInOrder` | CentralComputerComs/CentralComputerComs/ANTQueueHandler.cpp:7-27 | over every run that carries the system's commands, the frames put on the air, repeats ignored, read as a prefix of them, in order and each once, and as all of them iff nothing is queued or popped and unsent |
| `EndToEnd.RoutesWorkOverTheAir` | CentralComputerComs/CentralComputerComs/ConveyorSystem.cpp:310-327 | for every run of the system from start-up and every run of the link that carries its commands: once a box's route is on the air, following the frames put there moves a package along a shortest path of the current graph to the box and keeps it there |
| `ExtBurst.PacketsReadBack` | ANT-SDK_PC.3.5/ANT_Managed_Library/ANT_Response.cs:85-187 | for data of any length, reading every packet of a transfer gives the same channel in each and the data followed by zeros |
| `ExtBurst.SendExtBurstTransfer` | ANT-SDK_PC.3.5/ANT_Managed_Library/ANT_Channel.cs:762-772 | the transfer is the padded data, expanded, in 12 bytes per started block |
| `ExtBurst.ExpandBurst` | ANT-SDK_PC.3.5/ANT_Unmanaged_Wrapper/DLL_exports.cpp:517-545 | the buffer has 12 bytes per started block, and each packet holds the id and its share of the data, padded or not |
| `ExtBurst.ExtSizeExact` | ANT-SDK_PC.3.5/ANT_Unmanaged_Wrapper/DLL_exports.cpp:520-525 | the 32-bit size computation does not wrap for any array length |
| `ExtBurst.PacketRoundTrip` | ANT-SDK_PC.3.5/ANT_Managed_Library/ANT_Response.cs:85-187 | reading a packet gives its device number, pairing bit, device type, transmission type and payload |
| `ExtBurst.LegacyRoundTrip` | ANT-SDK_PC.3.5/ANT_Managed_Library/ANT_Response.cs:152-164 | for message ids 0x5D to 0x5F, the id fields in front of the data and the data are read back |
| `ExtBurst.FlaggedRoundTrip` | ANT-SDK_PC.3.5/ANT_Managed_Library/ANT_Response.cs:165-175 | for message ids 0x4E to 0x50, data and appended id fields are read back iff the flag byte is at least 0x80; otherwise both fail for want of a channel id |
| `ExtBurst.PlainRoundTrip` | ANT-SDK_PC.3.5/ANT_Managed_Library/ANT_Response.cs:85-95 | a 9-byte message of these ids gives its data and no id |
| `ExtBurst.ExtendedIff` | ANT-SDK_PC.3.5/ANT_Managed_Library/ANT_Response.cs:133-178 | a message is not extended iff it is shorter than 13 bytes or has another id; a flagged one of 13 bytes is one too short for its id |
| `ExtBurst.Pad` | ANT-SDK_PC.3.5/ANT_Managed_Library/ANT_Channel.cs:768-770 | the shortest extension by zeros to a multiple of eight bytes |
| `HeartRate.Transmitter.EventTx` | ANT-SDK_PC.3.5/DEMO_HR_TRANSMITTER/demo_hr_transmitter.cpp:639-721 | the n-th event sends page 1 + (n/68 mod 3) if n mod 68 < 4 and page 0 otherwise, with toggle bit (n/4) mod 2, and the beat fields |
| `HeartRate.PageSchedule` | ANT-SDK_PC.3.5/DEMO_HR_TRANSMITTER/demo_hr_transmitter.cpp:648-721 | four background pages in every 68 messages, the next of 1, 2, 3 in turn each time, starting with 1 |
| `HeartRate.ToggleSchedule` | ANT-SDK_PC.3.5/DEMO_HR_TRANSMITTER/demo_hr_transmitter.cpp:710-718 | the toggle bit is clear in the first four messages and changes every fourth |
| `HeartRate.PageSurvivesToggle` | ANT-SDK_PC.3.5/DEMO_HR_RECEIVER/demo_hr_receiver.cpp:971-974 | the receiver gets page number and toggle bit back out of the byte |
| `HeartRate.Receiver.DetectDevice` | ANT-SDK_PC.3.5/DEMO_HR_RECEIVER/demo_hr_receiver.cpp:1104-1133 | one detection attempt |
| `HeartRate.DetectorVerdict` | ANT-SDK_PC.3.5/DEMO_HR_RECEIVER/demo_hr_receiver.cpp:1104-1133 | the verdict is legacy iff the first six bits are equal, current iff they are not |
| `HeartRate.CurrentDeviceDetected` | ANT-SDK_PC.3.5/DEMO_HR_RECEIVER/demo_hr_receiver.cpp:843-850 | started anywhere in the schedule, the receiver detects a current device exactly when its window passes a multiple of four, so within five messages |
| `HeartRate.IntervalExactIff` | ANT-SDK_PC.3.5/DEMO_HR_RECEIVER/demo_hr_receiver.cpp:1021-1028 | the recovered interval is exact or one millisecond short iff fewer than 65536 ticks passed |
| `HeartRate.TicksPerSecond` | ANT-SDK_PC.3.5/DEMO_HR_TRANSMITTER/demo_hr_transmitter.cpp:460 | 1024 ticks a second, rounded down |
| `HeartRate.WrappedDifference` | ANT-SDK_PC.3.5/DEMO_HR_TRANSMITTER/demo_hr_transmitter.cpp:460 | 16-bit subtraction of 16-bit times gives the difference modulo 65536 |

## Left out

- WebSocket server, JSON, console output, USB and serial access, DLL loading: input and output; web messages are parameters and replies.
- CLEAR_BOX_RESPONSE byte layout in the ANT server: the package count is read without skipping the response header (ANTServer.cpp:105), so the forwarded length is not the intended one; the response is modelled as a box id and a set of packages.
- The processing thread's loop: it polls only the web handler (ProcessingThread.cpp:16-23), so the operations themselves are the step alphabet, including the two that ANT reports would trigger.
- Pre-emption between the queue handler's check of the flow, its pop and its stop of the flow (ANTQueueHandler.cpp:11-15): they are one step.
- Pre-emption inside the ANT server's methods: they are atomic steps, although the source takes no lock around them.
- Delivery to the devices and their firmware: acknowledgements carry no timestamp, so none is matched to one particular send.
- Real time: the 0.5 s of the timer is not modelled.
- Termination requests of the threads, and the driver's start-up and shutdown.
- `DestinationBox::empty_box`, which nothing calls, and the loss of a box's location on copying, which only happens to uninitialised boxes.
- Lifetime of message pointers: pending messages are optional values.
- ConveyorSystem's connection to its message handlers: `out` records commands; `ANTThreadMessageHandlers` proves the bytes of each one.
- Page-specific bytes of the heart-rate background pages, and the receiver's second detector state for extended messages.
- The SDK's framer, which cuts a burst into packets and chooses the channel byte: any channel byte is allowed.
