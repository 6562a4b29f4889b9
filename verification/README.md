# The broker's actors as state machines

This project models six parts of the DSA broker and proves what their code keeps, over every run.

- **Replicated node** (`Dsa`, `ReplicatedState`, `DistributedNode`, `DistributedNodeActor`, `DistributedRuns`,
  `DistributedWrites`, `DistributedReports`, `DistributedClients`, `DistributedEdits`, `InitialValue`, `ErasedValue`): a
  node's replicated state is one last-writer-wins register and five last-writer-wins maps, in which a deletion is the
  value `None`. Local data, local subscriber tables and change reports are derived from it by a diff and a fold.
- **In-memory node** (`InMemoryNode`, `InMemoryHistory`, `InMemoryAnswers`, `InMemoryStreams`, `MixedEnvelopes`,
  `MixedSubscriptions`): LIST and SUBSCRIBE streams as incremental views of the node.
- **Requester tables** (`RequesterTables`, `Routing`, `Requester`): which target a RID or SID was routed to, batching,
  and the events that rebuild the tables. A command is resolved entirely against the tables before it; the handlers of
  what it persisted run afterwards, in order.
- **Connection, snapshots and journal** (`DurableState`, `Snapshots`, `SnapshotCleanup`, `SnapshotContent`, `LinkRuns`,
  `Restarts`, `LostEndpoint`, `SkippedEvents`, `Connection`, `ConnectionMessages`, `ConnectionDelivery`,
  `ConnectionRecovery`, `ConnectionActor`): connecting, displacing, disconnecting, restarting, stashing, and
  asynchronous saving and deleting.
- **QoS queues** (`SubscriptionChannels`): bounded queues per subscription.
- **Registry and counter** (`Paths`, `NodesRegistry`, `RegistryRuns`, `RegistryActor`, `IntCounters`): the tree of nodes
  by path, and the 32-bit id counter.

Each actor is a class whose methods are proved against functions on values; the lemmas are about those functions, and
say what they come to without them: from the messages, inputs or events alone. Runs are sequences of actions chosen by
an environment that may interleave, repeat, delay or drop as the comments say. Where a hash map or a set is iterated the
order is left open.

## What the proofs found

- `inc(count)` is exact if and only if `count + value + init <= 2 * Int.MaxValue + 1`; the counters that start from 0 or
  1 always are (`BatchRefinesSingleSteps`, `BrokerCountersAreExact`).
- A replica without a state starts its first edit from an empty state whose `None` value carries a stamp of its own: an
  edit of any other properties there can erase a value set elsewhere (`FreshReplicaErasesValue`). It does in a run of
  two replicas if and only if it was issued more than one tick later, or later at all if its replica has the lower
  address (`ValueSurvivesIff`).
- The value that a node is created with is lost when it is told of its first state, whichever property that was for,
  unless some mutator set it (`InitialValueLost`).
- A LIST that shares an envelope with requests that change the node leaves the listener in step if and only if every row
  of the reply is still so at the end, because notifications leave before the reply (`MixedEnvelopeInStepIff`); the same
  goes for a SUBSCRIBE and the value (`MixedSubscriptionInStepIff`).
- Recovery from the latest snapshot and the journal after it equals the full replay if and only if the snapshot agrees
  with the state at its number on everything that no later event overwrites (`RecoveryIsExact`, `RestartIsExactIff`).
- All handlers of a command save under the number of its last event. If only the save of an earlier one finishes, a
  restart, even the first, loses what the later ones handled: a request's target, or the endpoint of a displacing
  connection (`TargetLost`, `DisplacingEndpointLost`). The exact condition is `NextRestartPastNumberIff`.
- With the snapshots of last handlers only, the first restart can lose `lastRid` only, as `LastRidSet` does not refresh
  the cache: after a request message's snapshot it does, unless that had the RID of the message before or the RID is set
  again (`FirstRestartIsExactIff`, `RequestMessageLastRid`). After a restart the caches are empty, so that a snapshot
  can lack a whole layer: a link that saves one for closed streams before its base state changes loses its endpoint for
  good (`EndpointLost`, `NextRestartIsExactIff`).
- So a restart of the connection need not recover the last base state, for any interval and any number of snapshots kept
  (`NextRestartRecoversLastPastNumberIff`, `WatchesWithoutEndpoint`). A link that keeps its watches through such a
  restart watches an endpoint it does not have (`RestartKeepsWatchesIff`); should that terminate, and a connection of it
  be processed after that, the envelopes behind the termination are held up (`StrandedBehindTermination`). In runs whose
  restarts do recover it the next endpoint gets all that waited (`NextEndpointGetsAllThatWaited`).
- With `snapshotNumbersToKeep` of 0 or less a successful save deletes the snapshot it reports
  (`SafeExactlyWhenKeeping`).
- A connection that displaces another overwrites the time of the disconnection, as both events are built from the state
  before the command; every other disconnection leaves its time (`DisplacingConnect`, `DisconnectionTimeKept`). While
  disconnected, `toStash` comes before the snapshot receiver, so the replies about snapshots are stashed too;
  `Snapshots` covers this, as replies there may be arbitrarily late.
- Removals by substring keep the registry closed under parents if and only if every path contains its parent's path, as
  canonical paths do and paths with a doubled slash need not (`EveryRemovalKeepsClosedIff`, `DoubledSlashOrphan`). A
  removal may also take more than a gossiped change asked for (`ChangeFollowsGossip`), and then takes that out of the
  entries too (`RegistryMatchesEntries`).

## Assumptions

- The replicated node: `updateLocalState` runs at once and in order, although the code runs its second half on an
  executor once the children's nodes were created. A node is told of its own replicator's states in order. The default
  clock of a last-writer-wins entry passes both the wall clock and the entry it replaces.
- The in-memory node: for `StreamsStayInStep` an envelope that starts a LIST or SUBSCRIBE holds no SET, REMOVE or INVOKE
  (`MixedEnvelopes` and `MixedSubscriptions` say what happens when one does); the path of a SET or REMOVE has a last
  segment (the handler throws on a path of slashes only); `$` and `@` names go to configs and attributes and no others
  do.
- The requester: `resolveLinkPath` is some total function of the path. A closed response with RID 0 has updates. An
  envelope that was stashed while disconnected is handled, and so occurs in the requester's history, once more.
- The connection: persist handlers run after the command that persisted and before the next command; a restart recovers
  any base state and releases the stash to the front of the mailbox, and watches may or may not survive it. Where a
  result needs more of restarts, or that only watched actors are heard to terminate, it says so.
- Snapshots: in `Snapshots` the number a snapshot is saved under is any positive multiple of the interval that is at
  most the number of events persisted; in `LinkRuns` it is the number of the handler's event, or of one persisted with
  it further ahead. The tables in a cached requester state are the actor's own mutable maps, so they are as of the
  moment of saving or, in `LinkRuns`, of any event handled until the save finishes; only `lastRid` can be older.
- The QoS stage: a drain emits what was queued when it started; the code hands over a lazy iterator of the map it then
  clears. The capacity is not negative.
- The registry: a gossiped change brings any entries, each under its node's own path.

## Model

| member | source | states |
|---|---|---|
| `IntCounters.IntCounter.constructor` | app/models/akka/entities.scala:56 | A counter starts at its initial value. |
| `IntCounters.IntCounter.Inc` | app/models/akka/entities.scala:34-38 | A single step returns the old value and goes on to the next one, from `Int.MaxValue` to the initial value, without leaving 32 bits. |
| `IntCounters.IntCounter.IncMany` | app/models/akka/entities.scala:40-50 | The batch form returns the ids, and reaches the state, of that many single steps whenever the stated bound holds. |
| `IntCounters.WrapMeaning` | app/models/akka/entities.scala:34-50 | The truncated result is the one 32-bit integer that equals the exact one modulo 2^32. |
| `IntCounters.BatchRefinesSingleSteps` | app/models/akka/entities.scala:34-50 | In truncating 32-bit arithmetic the batch form equals `count` single steps if and only if `count + value + init <= 2 * MaxInt + 1`, and then no intermediate result is truncated. |
| `IntCounters.BrokerCountersAreExact` | app/models/akka/entities.scala:25-58 | Counters that start from 0 or 1 are exact for every non-negative batch. |
| `IntCounters.StepsWithOneWrap` | app/models/akka/entities.scala:34-38 | Single steps past `MaxInt` run up to it and on from the initial value. |
| `IntCounters.OneRound` | app/models/akka/entities.scala:34-38 | The state after k steps of a round, in closed form. |
| `IntCounters.IdsDistinct` | app/models/akka/entities.scala:25-38 | Ids lie in `[init, MaxInt]`, and are pairwise distinct if and only if they are at most one round. |
| `SubscriptionChannels.SubscriptionChannel.constructor` | app/models/akka/SubscriptionChannel.scala:16-20 | A channel starts without queues. |
| `SubscriptionChannels.SubscriptionChannel.PutMessage` | app/models/akka/SubscriptionChannel.scala:32-65 | A put keeps every queue the function of the history that the lemmas are about, and returns the subscription's id. |
| `SubscriptionChannels.SubscriptionChannel.PushNext` | app/models/akka/SubscriptionChannel.scala:96-102 | A drain emits every queue, each in order, subscriptions in any order, and clears the map. |
| `SubscriptionChannels.SubscriptionChannel.OnPush` | app/models/akka/SubscriptionChannel.scala:71-78 | A batch is put message by message, for each subscription in the order it came in after what was put before, and drained when the outlet is available; otherwise nothing is emitted. |
| `SubscriptionChannels.BatchPutInOrder` | app/models/akka/SubscriptionChannel.scala:73-74 | What was put after a batch is what was put before, followed by the batch. |
| `SubscriptionChannels.SubscriptionChannel.OnUpstreamFinish` | app/models/akka/SubscriptionChannel.scala:80-89 | At completion everything still buffered is emitted after what was sent. |
| `SubscriptionChannels.Flatten` | app/models/akka/SubscriptionChannel.scala:96-98 | Flattening the map lists each subscription's queue in order. |
| `SubscriptionChannels.QueueIsWindow` | app/models/akka/SubscriptionChannel.scala:32-65 | After any history a queue is the last `capacity + 1` notifications put since the last drain, counted from the latest Default one; so it never holds more than `capacity + 1`. |
| `SubscriptionChannels.FromLatestDefaultMeaning` | app/models/akka/SubscriptionChannel.scala:36-43 | What "counted from the latest Default one" means: a suffix with no later Default, which starts with one unless it is everything. |
| `SubscriptionChannels.Conservation` | app/models/akka/SubscriptionChannel.scala:32-102 | Every notification put is emitted, buffered or dropped, exactly once. |
| `SubscriptionChannels.EmittedKeepsPutOrder` | app/models/akka/SubscriptionChannel.scala:32-102 | What was emitted, followed by what is buffered, is a subsequence of what was put. |
| `SubscriptionChannels.NothingDroppedWithinCapacity` | app/models/akka/SubscriptionChannel.scala:44-58 | Without Default notifications, and with at most `capacity + 1` between drains, nothing is dropped and everything put is emitted or buffered in order. |
| `Dsa.WithPrefix` | app/models/api/DistributedDSANode.scala:280-282 | The result starts with the prefix; a name that already does is kept, and any other is kept after it. |
| `Dsa.ApplyRowsAnyOrder` | app/models/api/DistributedDSANode.scala:443-447 | Rows that do not contradict each other have the same effect on a view in every order. |
| `ReplicatedState.MergeAt` | app/models/api/DistributedDSANodeState.scala:20-27 | A merge has the entries of both sides, the later write where both have one. |
| `ReplicatedState.PutAt` | app/models/api/DistributedDSANode.scala:103-168 | An edit writes its own entry with a newer stamp and changes no other. |
| `ReplicatedState.SlotsDetermineState` | app/models/api/DistributedDSANodeState.scala:9-16 | States with the same entries are equal. |
| `ReplicatedState.SameWritesSameState` | app/models/api/DistributedDSANodeState.scala:20-27 | Two states that are outcomes of the same writes are equal. |
| `ReplicatedState.MergeAbsorbs` | app/models/api/DistributedDSANodeState.scala:20-27 | The merge of two outcomes is the outcome of the writes of both. |
| `ReplicatedState.PutAbsorbs` | app/models/api/DistributedDSANode.scala:103-168 | A write added to an outcome is absorbed, and is newer than those of its entry before it. |
| `ReplicatedState.EmptyAbsorbs` | app/models/api/DistributedDSANodeState.scala:32-39 | The empty state is the outcome of one write, of `None` to the value. |
| `ReplicatedState.MoreWritesMoreSlots` | app/models/api/DistributedDSANode.scala:103-168 | More writes never take an entry away. |
| `ReplicatedState.FreshReplicaErasesValue` | app/models/api/DistributedDSANode.scala:392-402 | After an edit of any other properties at a replica without state, a value set elsewhere survives if and only if its stamp is newer than that of the empty state, or it was `None`. |
| `DistributedNode.FoldOfDiffOverwrites` | app/models/api/DistributedDSANode.scala:386-390 | Folding the diff of a map into the old map overwrites it: present values replace, `None` removes, the rest stays. |
| `DistributedNode.DiffRefinesOverwrite` | app/models/api/DistributedDSANode.scala:375-429 | Diff and fold of all six components amount to overwriting the data by the state. |
| `DistributedNode.LatestStateWins` | app/models/api/DistributedDSANode.scala:243-278 | Overwriting by a state and then by one with at least its keys is overwriting by the later one alone. |
| `DistributedNode.LocalTableFollows` | app/models/api/DistributedDSANode.scala:262-264 | Folding a diff into a table filtered to local references is filtering the folded table, also when a key moves between a local and a remote reference. |
| `DistributedNode.RowTellsNewData` | app/models/api/DistributedDSANode.scala:431-447 | With names apart, every row of a report says what the new data says about its name. |
| `DistributedNode.SilenceKeepsOldData` | app/models/api/DistributedDSANode.scala:431-447 | A name without a row is as before. |
| `DistributedNode.ReportLockstep` | app/models/api/DistributedDSANode.scala:404-447 | The rows of a report, in any order, take the view of the old data to that of the new data. |
| `DistributedNode.ReportIff` | app/models/api/DistributedDSANode.scala:413-447 | Exactly the rows of a report: one for each value or child that is new or has changed, with what it is now, and one for every name whose value is `None`. |
| `DistributedNode.OverwriteKeepsNamesApart` | app/models/api/DistributedDSANode.scala:375-384 | Following states with names apart keeps names apart. |
| `DistributedNodeActor.IntendedNamesApart` | app/models/api/DistributedDSANode.scala:145-168 | Mutators used with the names they are for write `$`, `@` and other names apart. |
| `DistributedEdits.EditReachesData` | app/models/api/DistributedDSANode.scala:103-238 | A state with the edit of any mutator applied overwrites the data to what the mutator means: the value set, the pairs added in order, the name, child, subscription or listener put or gone, and nothing else. |
| `DistributedNodeActor.EditsSentInIssueOrder` | app/models/api/DistributedDSANode.scala:285-311 | In every run nothing is sent to the replicator before initialisation, and from then on exactly the edits issued, in order, each once, whichever answer ends initialisation. |
| `DistributedNodeActor.CollectReport` | app/models/api/DistributedDSANode.scala:443-447 | The rows of one table's report: one for each created, updated or deleted key and no others. |
| `DistributedNodeActor.UpdatesReport` | app/models/api/DistributedDSANode.scala:431-441 | The report covers configs, attributes and children. |
| `DistributedNodeActor.UpdateByDiff` | app/models/api/DistributedDSANode.scala:243-278 | One diff gives the overwritten data, both local tables, the deleted children, and a value difference exactly when the value changes. |
| `DistributedNodeActor.FoldUpdate` | app/models/api/DistributedDSANode.scala:243-278 | The same, computed, with a report that takes the old view to the new one. |
| `DistributedNodeActor.DistributedDSANode.constructor` | app/models/api/DistributedDSANode.scala:465-471 | A node starts with its description's data, empty tables and nothing sent. |
| `DistributedNodeActor.DistributedDSANode.EditProperty` | app/models/api/DistributedDSANode.scala:392-400 | An edit is sent once initialised and stashed before. |
| `DistributedNodeActor.DistributedDSANode.AddChild` | app/models/api/DistributedDSANode.scala:184-192 | The child is known at once, and its description is issued as an edit. |
| `DistributedNodeActor.DistributedDSANode.UpdateLocalState` | app/models/api/DistributedDSANode.scala:243-278 | Data is overwritten, `_sids` and `_rids` stay the local parts of the full tables, deleted children leave; listeners left get exactly the report of the diff, in lockstep when names are apart, and subscribers a changed value. |
| `DistributedClients.ClientsKnowNewData` | app/models/api/DistributedDSANode.scala:258-274 | A local client that knew the node's view and value before a state is taken over, applying what it is sent, knows them afterwards; a client that is not in the tables then learns nothing. |
| `DistributedClients.OneMessageEach` | app/models/api/DistributedDSANode.scala:266-271 | Listeners are sent one message if there are rows, subscribers one if the value is another, and no more. |
| `DistributedClients.LocalClientsServed` | app/models/api/DistributedDSANode.scala:240 | The clients served are those of the full table with a reference in the node's own actor system. |
| `DistributedNodeActor.DistributedDSANode.FlushStash` | app/models/api/DistributedDSANode.scala:290-295 | The stash is sent in order and emptied. |
| `DistributedNodeActor.DistributedDSANode.OnGetSuccess` | app/models/api/DistributedDSANode.scala:287-299 | The first answer is taken over and ends initialisation. |
| `DistributedNodeActor.DistributedDSANode.OnNotFound` | app/models/api/DistributedDSANode.scala:300-311 | The absence of a state ends initialisation too, and changes no data. |
| `DistributedNodeActor.DistributedDSANode.OnChanged` | app/models/api/DistributedDSANode.scala:318-320 | A change is taken over. |
| `DistributedRuns.ApplyKeepsSound` | app/models/api/DistributedDSANode.scala:392-400 | Applying an edit keeps a replica's state the outcome of its writes, and keeps every stamp of the cluster unique. |
| `DistributedRuns.StepKeepsInv` | app/models/api/DistributedDSANode.scala:243-311 | Every action of the cluster keeps the invariant: states are outcomes of writes, a node is told of growing states, and its data is its description overwritten by the last one. |
| `DistributedRuns.RunKeepsInv` | app/models/api/DistributedDSANode.scala:243-311 | So every reachable cluster satisfies it. |
| `DistributedRuns.StrongEventualConsistency` | app/models/api/DistributedDSANodeState.scala:20-27 | In every run, with merges in any order and with any repetition, replicas that absorbed the same writes hold the same state; nodes of the same description that were told of the same writes hold the same data. |
| `DistributedRuns.DataIsInitialOverwritten` | app/models/api/DistributedDSANode.scala:375-429 | In every run a node's data is its initial description overwritten by the latest state it was told of. |
| `InitialValue.InitialValueLost` | app/models/api/DistributedDSANode.scala:375-409 | In every run, once a node is told of any state its value is that state's, and is `None` or one that some mutator set: the value it was created with is gone, unless it was set too. |
| `DistributedWrites.RunKeeps` | app/models/api/DistributedDSANode.scala:103-209 | In every run all writes keep to any rule about slots and contents that the mutator calls, and the empty state's `None`, keep to. |
| `ErasedValue.RunTwoEdits` | app/models/api/DistributedDSANode.scala:285-402 | A run of any two replicas from their start: each is initialised from nothing and edits, and they exchange their states. |
| `ErasedValue.ValueSurvivesIff` | app/models/api/DistributedDSANode.scala:392-402 | In it the value that one set and stored survives, at either, if and only if the other's edit of another property was issued at most one tick later, or, from a lower address, not later; otherwise both hold `None`. |
| `DistributedReports.InitialNamesApart` | app/models/api/DistributedDSANode.scala:465-471 | A new node's names are apart. |
| `DistributedEdits.InitialDataMeaning` | app/models/api/DistributedDSANode.scala:465-471 | A new node holds its value, its name, the configs and attributes of its description by their prefix, and nothing else. |
| `DistributedEdits.DefaultNode` | app/models/api/DistributedDSANode.scala:41-48 | An ancestor that was created for a descendant is an empty node of profile "node". |
| `DistributedReports.RunKeepsNames` | app/models/api/DistributedDSANode.scala:145-209 | In runs with mutators used as intended all written names stay apart. |
| `DistributedReports.EveryReportInLockstep` | app/models/api/DistributedDSANode.scala:243-278 | In every such run, whenever a node takes over a state, its report takes the complete view before to the complete view after. |
| `InMemoryNode.InMemoryDSANode.constructor` | app/models/api/InMemoryDSANode.scala:43-164 | A new node has only `$is`, no value and no listeners. |
| `InMemoryNode.InMemoryDSANode.Perform` | app/models/api/InMemoryDSANode.scala:47-143 | Every mutator changes the fields and notifies as the function that the stream and history lemmas are about. |
| `InMemoryNode.InMemoryDSANode.HandleRequest` | app/models/api/DSANode.scala:147-239 | Each request changes the node, notifies at once, and leaves its responses for the reply. |
| `InMemoryNode.InMemoryDSANode.OnReceive` | app/models/api/InMemoryDSANode.scala:173-178 | The reply leaves after every request of the envelope was handled, and so after their notifications. |
| `InMemoryHistory.NodeIsLatestInputs` | app/models/api/InMemoryDSANode.scala:43-178 | In every run the node holds, as value and under every config, attribute and child name, what the latest mutator call or request about it says; a RID or SID is registered, for whom, exactly if the latest request about it was a LIST, or a SUBSCRIBE, of that sender. |
| `InMemoryHistory.StreamsRunIsNode` | app/models/api/InMemoryDSANode.scala:173-178 | The node in the runs of the stream results is that one. |
| `InMemoryAnswers.EachAnsweredOnce` | app/models/api/DSANode.scala:147-239 | Every request of an envelope is answered exactly once, to its sender, in the order of the requests. |
| `InMemoryAnswers.SetThenSubscribed` | app/models/api/DSANode.scala:151-210 | A value that was set is what the next subscriber is answered. |
| `InMemoryAnswers.ListReplyMeaning` | app/models/api/DSANode.scala:222-232 | What is in a LIST reply under every name, the children's configs included. |
| `InMemoryAnswers.ChildAnnounced` | app/models/api/InMemoryDSANode.scala:131-136 | A new child is announced by one row, as a node of profile "node". |
| `InMemoryStreams.ShowsMeaning` | app/models/api/DSANode.scala:222-232 | What a view that shows the node says about configs, attributes and child names, reading a missing `$is` as empty. |
| `InMemoryStreams.SnapshotInAnyOrder` | app/models/api/DSANode.scala:222-232 | The rows of a LIST reply have one effect in whatever order the maps are listed. |
| `InMemoryStreams.SnapshotShows` | app/models/api/DSANode.scala:222-232 | They complete every correct view. |
| `InMemoryStreams.MutationKeepsShows` | app/models/api/InMemoryDSANode.scala:71-143 | The rows a mutator sends take a view that shows the node to one that shows it afterwards. |
| `InMemoryStreams.MutationKeepsStep` | app/models/api/InMemoryDSANode.scala:47-143 | Every mutator keeps every registered client in step, with its view and its value. |
| `InMemoryStreams.EnvelopeKeepsStep` | app/models/api/InMemoryDSANode.scala:175-178 | So does every envelope that does not both start a stream and change the node. |
| `InMemoryStreams.SingleRequestSeparated` | app/models/api/InMemoryDSANode.scala:175-178 | Envelopes of a single request are of that kind. |
| `InMemoryStreams.StreamsStayInStep` | app/models/api/DSANode.scala:147-239 | In every run a client that starts from nothing at its LIST holds exactly the node's configs, attributes and child names while it is registered, and a subscriber holds the node's value. |
| `InMemoryStreams.MixedEnvelopeOutput` | app/models/api/InMemoryDSANode.scala:175-178 | For a LIST and a SET in one envelope, the notification leaves before the older snapshot. |
| `MixedEnvelopes.MixedEnvelopeInStepIff` | app/models/api/InMemoryDSANode.scala:175-178 | For any envelope with one LIST between requests that change the node, the client is in step afterwards if and only if every row of the reply is still so at the end. |
| `MixedEnvelopes.CorrectBeforeList` | app/models/api/InMemoryDSANode.scala:175-178 | What a client that starts from nothing is told by the changes before its LIST is so when it is handled. |
| `MixedEnvelopes.HandledAllAfter` | app/models/api/InMemoryDSANode.scala:175-178 | Requests are handled alike, and tell alike, whatever was handled before them in the envelope. |
| `MixedEnvelopes.MixedEnvelopeFallsBehind` | app/models/api/InMemoryDSANode.scala:175-178 | After a LIST and a SET of an attribute it is in step if and only if the attribute was new or kept its value. |
| `MixedSubscriptions.MixedSubscriptionInStepIff` | app/models/api/InMemoryDSANode.scala:175-178 | For any envelope with one SUBSCRIBE between requests that change the node, the client has the node's value afterwards if and only if there was none when the SUBSCRIBE was handled, or it is still that one. |
| `MixedSubscriptions.ToldOfChanges` | app/models/api/DSANode.scala:105-114 | A subscriber that knows the value is told of every change. |
| `RequesterTables.RoutedMeaning` | app/models/akka/RequesterBehavior.scala:190-209 | A request is routed to a target if and only if it resolves to it against the tables before the message. |
| `Routing.PathRouted` | app/models/akka/RequesterBehavior.scala:296-310 | Every LIST, SET, REMOVE, INVOKE, and every SUBSCRIBE of a level there is, goes to the target of its path and nowhere else, whatever the tables hold. |
| `Routing.MessageIsSent` | app/models/akka/RequesterBehavior.scala:198-204 | A message is routed request by request, in order: each that has a target, by its path or by its RID or SID, exactly once. |
| `Routing.SplittingKeepsAsks` | app/models/akka/RequesterBehavior.scala:192-198 | Splitting keeps every subscription and every end of one, and every other request, in order. |
| `Routing.LevelMeaning` | app/models/akka/RequesterBehavior.scala:354-366 | Which level a number means, and which numbers mean none. |
| `RequesterTables.ResolveOne` | app/models/akka/RequesterBehavior.scala:280-341 | What one request's events do to any RID and SID of the tables they are applied to. |
| `RequesterTables.RidTableIsOpenStreams` | app/models/akka/RequesterBehavior.scala:190-238 | In every run the RID table holds exactly the streams that the history leaves open, with their targets. |
| `RequesterTables.SidTableIsOpenSubscriptions` | app/models/akka/RequesterBehavior.scala:190-238 | In every run the SID table holds exactly the open subscriptions, with target and level. |
| `RequesterTables.ReplayRebuildsTables` | app/models/akka/RequesterBehavior.scala:116-137 | Replaying all persisted events rebuilds both tables and `lastRid`. |
| `RequesterTables.LastRidIsLatest` | app/models/akka/RequesterBehavior.scala:47-50 | In every run `lastRid` is the RID of the last request received. |
| `RequesterTables.CloseRouted` | app/models/akka/RequesterBehavior.scala:329-338 | A CLOSE goes where the RID table says, and nowhere else. |
| `RequesterTables.UnsubscribeRouted` | app/models/akka/RequesterBehavior.scala:318-327 | An UNSUBSCRIBE goes where the SID table says, and nowhere else. |
| `RequesterTables.CloseFollowsStart` | app/models/akka/RequesterBehavior.scala:280-341 | In every run a CLOSE in a later message is routed to the target of the latest LIST or INVOKE with its RID, and nowhere else, unless it was closed in between. |
| `RequesterTables.UnsubscribeFollowsSubscribe` | app/models/akka/RequesterBehavior.scala:280-341 | The same for an UNSUBSCRIBE and the latest SUBSCRIBE with its SID. |
| `Requester.BatchIsSubsequence` | app/models/akka/RequesterBehavior.scala:250-252 | A batch is the order-preserving subsequence of all requests routed to its target. |
| `Requester.RequesterBehavior.constructor` | app/models/akka/RequesterBehavior.scala:29-33 | A requester starts with empty tables. |
| `Requester.RequesterBehavior.Recover` | app/models/akka/RequesterBehavior.scala:116-131 | A new incarnation's tables are what the journal rebuilds. |
| `Requester.RequesterBehavior.RemoveTargetBy` | app/models/akka/RequesterBehavior.scala:240-245 | Exactly the given subscriptions are forgotten. |
| `Requester.RequesterBehavior.RunHandlers` | app/models/akka/RequesterBehavior.scala:280-294 | The handlers apply the persisted events in order. |
| `Requester.RequesterBehavior.BatchAndRoute` | app/models/akka/RequesterBehavior.scala:250-259 | One non-empty batch for every target that was routed to, holding that target's requests in order: the batches partition the requests. |
| `Requester.RequesterBehavior.ResolveTarget` | app/models/akka/RequesterBehavior.scala:299-341 | The target by path or by the tables; nothing for a RID, SID or level that is unknown. |
| `Requester.RequesterBehavior.ResolveAll` | app/models/akka/RequesterBehavior.scala:198-204 | Every request is resolved against the same tables; requests that fail are left out. |
| `Requester.RequesterBehavior.OnRequestMessage` | app/models/akka/RequesterBehavior.scala:46-50 | One message is resolved against the tables before it and routed in batches; its events are persisted and then applied; tables and journal agree afterwards. |
| `Requester.RequesterBehavior.CleanupStoredTargets` | app/models/akka/RequesterBehavior.scala:214-238 | Closed streams and subscriptions are forgotten, through events. |
| `DurableState.ReplaySame` | app/models/akka/RequesterBehavior.scala:116-137 | Two replays of the same events agree on a cell if and only if an event writes it or they started alike there. |
| `DurableState.ReplayAgreement` | app/models/akka/DSLinkStateSnapshotter.scala:19-34 | Replays end alike if and only if the starts agree on every cell no event writes. |
| `DurableState.LateSnapshotHarmless` | app/models/akka/DSLinkStateSnapshotter.scala:19-34 | A state that differs from another only where later events write recovers to the same state. |
| `DurableState.LateTablesHarmless` | app/models/akka/RequesterBehavior.scala:220-234 | So does a snapshot whose tables, and nothing else, were read after more events were applied. |
| `Snapshots.DSLinkStateSnapshotter.constructor` | app/models/akka/DSLinkStateSnapshotter.scala:13-17 | A new incarnation has cached nothing. |
| `Snapshots.DSLinkStateSnapshotter.SaveBase` | app/models/akka/DSLinkStateSnapshotter.scala:53-62 | The base layer is cached, and the composite saved when it is due. |
| `Snapshots.DSLinkStateSnapshotter.SaveRequester` | app/models/akka/DSLinkStateSnapshotter.scala:53-59 | The same for the requester layer. |
| `Snapshots.StepKeepsInv` | app/models/akka/DSLinkStateSnapshotter.scala:36-40 | Every persist, save, reply and deletion keeps the newest snapshot ever saved, and every event after it. |
| `Snapshots.SnapshotsAndJournalSafe` | app/models/akka/DSLinkStateSnapshotter.scala:36-80 | So they are kept in every interleaving, with late, failed and repeated saves and deletions, when keep and interval are at least 1. |
| `SnapshotCleanup.DueIff` | app/models/akka/DSLinkStateSnapshotter.scala:73-75 | A snapshot is taken exactly at the positive multiples of a positive interval. |
| `SnapshotCleanup.SuccessCleansUp` | app/models/akka/DSLinkStateSnapshotter.scala:36-40 | After a success and what it asks for, in any order: exactly the events up to the snapshot are gone, and of the snapshots up to its time exactly those less than keep intervals behind are left. |
| `Snapshots.LatestIsNewest` | app/models/akka/DSLinkStateSnapshotter.scala:19-34 | The snapshot that recovery picks is the newest ever saved, and the events after it are all there. |
| `Snapshots.NoSnapshotFullJournal` | app/models/akka/DSLinkStateSnapshotter.scala:36-40 | Without a saved snapshot the journal is complete. |
| `Snapshots.RecoveryIsExact` | app/models/akka/DSLinkStateSnapshotter.scala:19-40 | In every run snapshot and suffix recover the state of the full replay if and only if the snapshot agrees with the state at its number on what no later event overwrites. |
| `SnapshotContent.CacheAfter` | app/models/akka/DSLinkStateSnapshotter.scala:53-71 | Through an incarnation the caches are empty, or hold the live base state and the live tables, with the `lastRid` of the last event that cached them. |
| `SnapshotContent.CacheEvent` | app/models/akka/DSLinkStateSnapshotter.scala:53-80 | What a persist handler makes the snapshotter cache and save is the step that the results are about. |
| `SnapshotContent.UpToTablesMeaning` | app/models/akka/RequesterBehavior.scala:280-294 | What "the last event that cached them" means: no later event caches the tables. |
| `SnapshotContent.LastRidIsCurrentIff` | app/models/akka/RequesterBehavior.scala:47-50 | The cached `lastRid` is the live one if and only if no `LastRidSet` has changed it since the tables were cached; without a cache, if and only if it is 0. |
| `SnapshotContent.TableHandlerHasLastRid` | app/models/akka/RequesterBehavior.scala:280-294 | A snapshot saved by the handler of a table event always has the live `lastRid`. |
| `SnapshotContent.RequestMessageLastRid` | app/models/akka/RequesterBehavior.scala:47-50 | After a request message, which persists `LastRidSet` behind its targets, the cached `lastRid` is the live one if and only if the message's RID is the one that was set before. |
| `SnapshotContent.BaseHandlerKeepsLastRid` | app/models/akka/AbstractDSLinkActor.scala:175-208 | One saved by the handler of a base event has it if and only if it was current before. |
| `SnapshotContent.SnapshotIsExact` | app/models/akka/DSLinkStateSnapshotter.scala:73-80 | A snapshot is the state of its moment if and only if each layer was cached since the restart or had nothing to remember, and its `lastRid` is current. |
| `SnapshotContent.LastRidIsStale` | app/models/akka/RequesterBehavior.scala:47-50 | A run after which the cached `lastRid` is older than the live one: a routed request, then a disconnection. |
| `SnapshotContent.NewestSnapshotDeleted` | app/models/akka/DSLinkStateSnapshotter.scala:40 | With keep at most 0, a run in which the newest snapshot is gone. |
| `SnapshotContent.SafeExactlyWhenKeeping` | app/models/akka/DSLinkStateSnapshotter.scala:36-40 | Every run is safe if and only if keep is at least 1. |
| `LinkRuns.RecoveryFromCacheIff` | app/models/akka/DSLinkStateSnapshotter.scala:19-34 | A snapshot of an incarnation and the events after it recover its state with those events if and only if what it had not cached is written again by them. |
| `LinkRuns.WorldStepKeepsInv` | app/models/akka/DSLinkStateSnapshotter.scala:36-80 | Commands, handlers that save, late saves and deletions, and restarts keep the store recoverable. |
| `LinkRuns.CleanRunKeepsInv` | app/models/akka/DSLinkStateSnapshotter.scala:53-80 | As long as restarts are exact, every snapshot is what an incarnation had cached at or before its number, with tables as of then or read later. |
| `LinkRuns.LiveIsFullReplay` | app/models/akka/DSLinkStateSnapshotter.scala:19-40 | As long as restarts are exact, the link's state is that of replaying all events it has handled. |
| `Restarts.RestartIsExactIff` | app/models/akka/DSLinkStateSnapshotter.scala:19-40 | In every run, whatever happened before, a restart from a snapshot is exact if and only if no cell is wrong in it that no later event writes. |
| `Restarts.RestartWithoutSnapshotIsExact` | app/models/akka/DSLinkStateSnapshotter.scala:19-40 | A restart without a snapshot always is. |
| `Restarts.NextRestartPastNumberIff` | app/models/akka/DSLinkStateSnapshotter.scala:19-80 | As long as restarts were exact: whichever handler of a command took the snapshot, whatever later number it is saved under and whenever its tables were read, the next restart is exact if and only if the snapshot holds the parts of its moment that nothing writes later, and already what the events write that its number skips. |
| `Restarts.RecoveryPastNumberIff` | app/models/akka/DSLinkStateSnapshotter.scala:19-80 | The same for a snapshot with the tables of its moment, by what its incarnation had cached. |
| `Restarts.NextRestartIsExactIff` | app/models/akka/DSLinkStateSnapshotter.scala:19-80 | When snapshots come from the last handler that saves before their number, the next restart is exact if and only if the cache of the incarnation that took the snapshot sufficed. |
| `Restarts.SameLateCache` | app/models/akka/RequesterBehavior.scala:47-50 | Events whose handlers do not save, as `LastRidSet`, may follow the handler up to the number: they change nothing that is cached. |
| `Restarts.RecoveryFromLateCache` | app/models/akka/RequesterBehavior.scala:220-234 | Tables read late make no difference to a recovery. |
| `Restarts.FirstRestartIsExactIff` | app/models/akka/DSLinkStateSnapshotter.scala:19-80 | Then the first restart of a link is exact if and only if the snapshot's `lastRid` was current at its number or is set again. |
| `SkippedEvents.OnlyFirstSaved` | app/models/akka/DSLinkStateSnapshotter.scala:73-80 | For any keep and interval a run without restarts in which all handlers of a command save under the number of its last event, and only the first one's save finishes: recovery comes to what that one had cached. |
| `SkippedEvents.TargetLost` | app/models/akka/RequesterBehavior.scala:280-286 | So a request message with two targets can lose the second in the first restart. |
| `SkippedEvents.DisplacingEndpointLost` | app/models/akka/AbstractDSLinkActor.scala:130-136 | And a connection that displaces another can lose its endpoint: the first restart recovers the disconnection. |
| `LostEndpoint.EndpointLost` | app/models/akka/DSLinkStateSnapshotter.scala:13-16 | For any keep and interval a run in which a restarted link, as streams are closed, saves a snapshot without a base state, and so loses its endpoint for good. |
| `Connection.ConnectionInvariant` | app/models/akka/AbstractDSLinkActor.scala:76-158 | In every run, after each command with its handlers and after each restart, whatever base state it recovers: `connected` iff the endpoint is set, and then nothing is stashed. |
| `ConnectionMessages.BaseIsLatestMessage` | app/models/akka/AbstractDSLinkActor.scala:99-208 | In every run the link is connected, and to which endpoint, with which times, exactly as the messages taken and the restarts say: the latest connection, unless a disconnection or the termination of that endpoint came since. |
| `ConnectionMessages.Disconnecting` | app/models/akka/AbstractDSLinkActor.scala:119-127 | A disconnection, or the endpoint's termination, ends the connection: the state without endpoint is persisted and reported, and it is not watched. |
| `ConnectionMessages.Connecting` | app/models/akka/AbstractDSLinkActor.scala:149-152 | A connection of a link without endpoint is persisted and reported, and watched. |
| `ConnectionMessages.DisplacingPersists` | app/models/akka/AbstractDSLinkActor.scala:130-136 | A displacing connection persists the disconnection and the connection. |
| `ConnectionMessages.OthersChangeNothing` | app/models/akka/AbstractDSLinkActor.scala:118-158 | No other message changes any of that. |
| `ConnectionMessages.WaitsIff` | app/models/akka/AbstractDSLinkActor.scala:148-164 | Exactly the messages that a link without endpoint keeps for later. |
| `ConnectionMessages.OthersInOrder` | app/models/akka/RequesterBehavior.scala:55-65 | The other responses of an envelope are those with a RID that is not 0, in order. |
| `Connection.RestartKeepsWatchesIff` | app/models/akka/AbstractDSLinkActor.scala:76-97 | After a restart of a link that watches only its endpoint it still does if and only if no watch was kept, or none was there, or the endpoint is recovered. |
| `Connection.OnlyEndpointWatched` | app/models/akka/AbstractDSLinkActor.scala:118-208 | In every run whose restarts are of that kind the link watches at most its current endpoint. |
| `Connection.BaseIsLastPersisted` | app/models/akka/AbstractDSLinkActor.scala:76-108 | In every run whose restarts recover the last base state persisted, that is the link's base state throughout. |
| `ConnectionRecovery.RestartRecoversBase` | app/models/akka/AbstractDSLinkActor.scala:76-86 | In every run of a link and its store, what a restart recovers as base state: that of the snapshot, if it has one, or the last one persisted after it. |
| `ConnectionRecovery.NextRestartRecoversLastPastNumberIff` | app/models/akka/DSLinkStateSnapshotter.scala:19-25 | For a snapshot of any handler, that is the last base state persisted if and only if one was persisted after the snapshot's number, or the last one that the incarnation had handled when it was taken is the last one up to that number. |
| `ConnectionRecovery.NextRestartRecoversLastIff` | app/models/akka/DSLinkStateSnapshotter.scala:19-25 | For one of the last handler that saves before its number: if and only if one was persisted since the incarnation that took it started, or none before. |
| `ConnectionRecovery.WatchesWithoutEndpoint` | app/models/akka/DSLinkStateSnapshotter.scala:13-25 | For any keep and interval a run after which a restart leaves a link watching an endpoint that it no longer has. |
| `Connection.DisplacingConnect` | app/models/akka/AbstractDSLinkActor.scala:130-140 | A displacing connect sends exactly one PoisonPill, to the old endpoint, watches the new one instead of it, reports both changes, and leaves no new time of disconnection. |
| `Connection.DisconnectionTimeKept` | app/models/akka/AbstractDSLinkActor.scala:192-208 | A message that reports a disconnection leaves its time in the base state if and only if it does not displace the endpoint, or the time was the same before. |
| `Connection.PillsOnlyWhenAsked` | app/models/akka/AbstractDSLinkActor.scala:118-158 | The exact messages that send a PoisonPill, and to whom. |
| `Connection.QueuesAfter` | app/models/akka/AbstractDSLinkActor.scala:118-187 | What one message does to mailbox, stash, and what was handled and delivered. |
| `Connection.HandledInArrivalOrder` | app/models/akka/AbstractDSLinkActor.scala:160-187 | In every run, stashable messages handled, then stashed, then waiting, are the arrivals in order. |
| `Connection.HandledIsDelivered` | app/models/akka/RequesterBehavior.scala:51-66 | The other responses of every envelope handled were sent to an endpoint, in order. |
| `Connection.NothingLost` | app/models/akka/RequesterBehavior.scala:51-86 | In every run each response that is no subscription notification was sent exactly once or still waits, in order of arrival. |
| `ConnectionDelivery.WaitingGoToNextEndpoint` | app/models/akka/AbstractDSLinkActor.scala:169-187 | In every run, whatever arrives in between: the first k waiting messages give the endpoint that connects, in order, exactly the envelopes among them that come before a message that it has terminated, as long as restarts in between recover the endpoint; the others still wait in order. |
| `ConnectionDelivery.WaitingGoWhereRestartRecovers` | app/models/akka/AbstractDSLinkActor.scala:76-97 | A restart that recovers another endpoint sends what waits there instead, in the same way; one that recovers none leaves it waiting. |
| `ConnectionDelivery.AllGoesToNextEndpointIff` | app/models/akka/AbstractDSLinkActor.scala:169-187 | Whatever may have arrived, it gets all that waited if and only if no envelope waits behind a message that it has terminated. |
| `ConnectionDelivery.NoTerminationStashed` | app/models/akka/AbstractDSLinkActor.scala:122-126 | When only watched actors are heard to terminate and restarts spare the watches, no such message ever waits. |
| `ConnectionDelivery.NextEndpointGetsAll` | app/models/akka/AbstractDSLinkActor.scala:169-187 | Then the next endpoint gets all that waited, in order. |
| `ConnectionDelivery.WaitingWereSentFirst` | app/models/akka/AbstractDSLinkActor.scala:169-187 | And in every longer run it got all of that, once and before anything else was sent. |
| `ConnectionDelivery.NextEndpointGetsAllThatWaited` | app/models/akka/AbstractDSLinkActor.scala:169-187 | In particular in every run whose restarts recover the last base state persisted. |
| `ConnectionDelivery.StrandedBehindTermination` | app/models/akka/AbstractDSLinkActor.scala:122-126 | A run, in which only watched actors are heard to terminate, after which an envelope waits behind such a message and is not sent: a restart had kept the watch of an endpoint it did not recover. |
| `ConnectionDelivery.UpToMeaning` | app/models/akka/AbstractDSLinkActor.scala:122-126 | What "before a message that it has terminated" means. |
| `ConnectionActor.AbstractDSLinkActor.constructor` | app/models/akka/AbstractDSLinkActor.scala:39-46 | A link starts disconnected. |
| `ConnectionActor.AbstractDSLinkActor.Tell` | app/models/akka/AbstractDSLinkActor.scala:26-28 | A message joins the mailbox. |
| `ConnectionActor.AbstractDSLinkActor.ProcessOne` | app/models/akka/AbstractDSLinkActor.scala:113-164 | The fields follow the state machine through a command and its handlers, and the invariant holds again. |
| `ConnectionActor.AbstractDSLinkActor.ConnectedReceive` | app/models/akka/AbstractDSLinkActor.scala:118-143 | The connected behaviour, with handlers run after the command. |
| `ConnectionActor.AbstractDSLinkActor.DisconnectFromEndpoint` | app/models/akka/AbstractDSLinkActor.scala:192-201 | The endpoint is unwatched, and killed if asked, before the event is persisted. |
| `ConnectionActor.AbstractDSLinkActor.Handle` | app/models/akka/AbstractDSLinkActor.scala:175-208 | What the handlers of both events do, the stash released by a connection. |
| `ConnectionActor.AbstractDSLinkActor.RecoverAfterCrash` | app/models/akka/AbstractDSLinkActor.scala:76-97 | A restart ends in the base state of the last base event after the snapshot, else that of the snapshot, else a fresh one, with the behaviour that fits it and the stash released. |
| `Paths.SegmentsOfJoin` | app/models/api/DistributedNodesRegistry.scala:221 | Splitting a joined path gives its segments back. |
| `Paths.AggregateParentMeaning` | app/models/api/DistributedNodesRegistry.scala:223-228 | The tail recursion yields the joined front and the last segment. |
| `Paths.ParentMeaning` | app/models/api/DistributedNodesRegistry.scala:221-228 | The parent is the path of all segments but the last; paths of at most one segment have none. |
| `Paths.NameMeaning` | app/models/api/DistributedNodesRegistry.scala:221-228 | The name is the last segment, and empty for a path without any. |
| `Paths.LastSegmentMeaning` | app/models/api/DSANode.scala:152 | The name a request's path ends in is its last segment, whatever slashes follow. |
| `Paths.NoLastSegment` | app/models/api/DSANode.scala:152 | A path of slashes only ends in none, and the empty path in the empty name. |
| `Paths.CanonicalParent` | app/models/api/DistributedNodesRegistry.scala:221-228 | A canonical path's parent is a canonical, strictly shorter prefix. |
| `Paths.AncestorsArePrefixes` | app/models/api/DistributedNodesRegistry.scala:221-228 | So are all its ancestors. |
| `NodesRegistry.ValidPath` | app/models/api/DistributedNodesRegistry.scala:199 | A valid path starts with a slash. |
| `NodesRegistry.GetOrCreateAdds` | app/models/api/DistributedNodesRegistry.scala:126-163 | Creation adds exactly the path and its missing ancestors, replaces nothing, gives the node its own description and ancestors the default one, and keeps closure; it terminates on depth. |
| `NodesRegistry.RemoveKeepsClosed` | app/models/api/DistributedNodesRegistry.scala:69-85 | With canonical paths, removal by substring keeps closure, and takes the node and all its descendants. |
| `NodesRegistry.EveryRemovalKeepsClosedIff` | app/models/api/DistributedNodesRegistry.scala:69-85 | No removal can take a parent without its children if and only if the path of every node contains its parent's path. |
| `NodesRegistry.OrphanedByRemoval` | app/models/api/DistributedNodesRegistry.scala:69-85 | A node whose path does not contain its parent's stays when the parent is removed. |
| `NodesRegistry.CanonicalContainsParents` | app/models/api/DistributedNodesRegistry.scala:221-228 | Canonical paths contain their parents' paths. |
| `NodesRegistry.DoubledSlashOrphan` | app/models/api/DistributedNodesRegistry.scala:69-85 | A registered path with a doubled slash that loses its parent. |
| `NodesRegistry.GossipAddsOwnDescriptions` | app/models/api/DistributedNodesRegistry.scala:49-54 | With ancestor-closed gossip, adding by path length creates every new node with its own description and none with a default one. |
| `NodesRegistry.ChangeFollowsGossip` | app/models/api/DistributedNodesRegistry.scala:49-55 | After such a change the keys are the gossiped ones if and only if no removed path is a substring of a gossiped one. |
| `NodesRegistry.ChangeKeepsNodes` | app/models/api/DistributedNodesRegistry.scala:49-55 | A change replaces no node it keeps, and each node it adds has its gossiped description. |
| `NodesRegistry.RemoveAllKeys` | app/models/api/DistributedNodesRegistry.scala:55 | What several removals leave: the keys that contain none of the paths. |
| `RegistryRuns.CreationGains` | app/models/api/DistributedNodesRegistry.scala:126-145 | The updates a creation sends add to any entries exactly the paths the registry gains, each with its node's description, and change no other. |
| `RegistryRuns.CreationKeepsEntriesClosed` | app/models/api/DistributedNodesRegistry.scala:126-163 | Between any two of them no entry lacks its parent's: ancestors' entries are sent first. |
| `RegistryRuns.RemovalLoses` | app/models/api/DistributedNodesRegistry.scala:69-85 | The update a removal sends takes from any entries exactly the paths the registry loses, and changes no other. |
| `RegistryRuns.ChangeKeepsInStep` | app/models/api/DistributedNodesRegistry.scala:49-55 | After a gossiped change with any keys, registry and entries have the same keys. |
| `RegistryRuns.RegistryMatchesEntries` | app/models/api/DistributedNodesRegistry.scala:33-85 | In every run the registry's keys are those of the entries it was last told of, with its own updates since, each entry under its node's path. |
| `RegistryRuns.NextKeepsDescriptions` | app/models/api/DistributedNodesRegistry.scala:33-85 | Every step keeps entries and nodes with the same descriptions, unless a gossip brings others for known paths. |
| `RegistryRuns.RegistryIsATree` | app/models/api/DistributedNodesRegistry.scala:69-194 | In every run with canonical paths the registry holds all ancestors of each of its nodes, and each node its parent's path. |
| `RegistryActor.SortByLength` | app/models/api/DistributedNodesRegistry.scala:51 | The new keys by increasing length, ties in any order. |
| `RegistryActor.DistributedNodesRegistry.constructor` | app/models/api/DistributedNodesRegistry.scala:29 | A registry starts empty. |
| `RegistryActor.DistributedNodesRegistry.GetOrCreateNode` | app/models/api/DistributedNodesRegistry.scala:126-163 | The recursive method creates what the function says and sends ancestors' entries before the node's own. |
| `RegistryActor.DistributedNodesRegistry.RemovePath` | app/models/api/DistributedNodesRegistry.scala:69-85 | Everything that contains the path goes, is returned, and is sent as one update unless it is nothing. |
| `RegistryActor.DistributedNodesRegistry.CreateAll` | app/models/api/DistributedNodesRegistry.scala:44-54 | Several nodes are created in the order of their descriptions, for a query by descriptions or a change. |
| `RegistryActor.DistributedNodesRegistry.RemoveEach` | app/models/api/DistributedNodesRegistry.scala:55 | Several paths are removed one after the other. |
| `RegistryActor.DistributedNodesRegistry.OnChanged` | app/models/api/DistributedNodesRegistry.scala:49-55 | What to add and to remove is fixed before anything changes; then the additions run by path length, then the removals. |

## Left out

- WebSocket and HTTP controllers, handshakes, views, Docker and configuration: input and output.
- Akka itself: mailboxes, the replicator's transport, streams and the persistence plugin are reduced to what the runs say of them.
- `AppendDsId2Token` (it changes configs without notifying listeners), tokens, permissions, standard actions, metrics and logging.
- The responder layer, its registries and the folder actors; in a snapshot their states are parts like the two modelled here.
- How often a subscription notification reaches an endpoint: one response is repeated for every update row, and a mixed envelope that arrives while disconnected is handled once and then stashed whole.
- Notifications put into the QoS stage while disconnected (level Durable and above), and the sources attached after a connection.
- The view of a listener of a replicated node while its own `list` edit has not come back yet: reports are related to the complete view of the data instead.
- The registry's part in adding a child by name to a replicated node: the child's node is an argument here.
- The children map of a parent node in the registry, which a removal does not touch, and the actions bound to new nodes.
- Routing a message to the node of a path, and `extractName`.
- The replies to a connection, a request for link info or a ping.
- IntCounters.IntCounter.Inc: is stated for a value that is a 32-bit integer, as the field's type says.
- InMemoryNode.InMemoryDSANode.HandleRequest: an INVOKE is the mutators its handler calls; its answer, with or without a token row, is a plain response.
- DistributedNodeActor.DistributedDSANode.AddChild: the description is an argument; the code builds it from the node's path, profile and value type when the replicator applies the update.
- DistributedNodeActor.DistributedDSANode.UpdateLocalState: runs at once, while the code first asks the registry for the nodes of created children and goes on when they are there; what it gets is not used.
- InMemoryNode.InMemoryDSANode.SetValue: a null value is not a value here.
- InMemoryStreams.StreamsStayInStep: what a LIST says about a child's configs is not related to them, only the child's name.
- SubscriptionChannels.SubscriptionChannel.PushNext: drains a snapshot of the queues, not the lazy iterator the code hands over.
- RegistryRuns.RegistryMatchesEntries: says nothing of changes by other registries that this one was not told of yet.
- MixedSubscriptions.MixedSubscriptionInStepIff: one SUBSCRIBE of the SID in the envelope, no LIST, and no UNSUBSCRIBE of that SID after it.
- MixedEnvelopes.MixedEnvelopeInStepIff: one LIST of the RID in the envelope, no SUBSCRIBE, and no CLOSE of that RID.
- SnapshotContent.CacheAfter: leaves the responder and folder caches out.
- Connection.NothingLost: an envelope is sent or stashed whole here; commands other than those listed there are one kind of message that is stashed while disconnected.
