# HLBuilder, verified

A Dafny model of the parts of the HLBuilder backend (a homelab planner) where
mistakes are hardest to see, with proofs of what they promise. Code that changes
things step by step is a method or a class here, proved against a specification
function or a stated property; the theorems are lemmas about those
specifications. `dafny verify dfyconfig.toml` checks everything.

- **Power wiring.** `Graph` and `Searches` hold reachability, cycles and the two
  searches of the source. `Wiring` is handles and socket counts, `Topology` the
  rules of a valid build, `Validation` the save-time validator. `PowerPlan` is the
  greedy conversion of old power cables, `PowerTheorems` what links it to the
  validator, `PowerDirections` which cables are old and which way they are turned,
  `PowerDrops` the cables it gives up, `PowerPlugs` what it keeps in any build at all,
  `PowerConversion` the transaction that applies it.
- **Revisions and proposals.** `Protocol` is a state machine over one build: saves,
  share-link saves, renames, sharing, conversion, and proposals that are created,
  refreshed, applied and rejected, with the reads of requests in flight as steps of
  their own. `ProtocolSteps` says what each step does, in the fields of what it
  changes. `ProposalList`, `ProtocolInvariant`, `ProtocolTheorems`, `Proposing`,
  `Refreshing` and `RefreshWorlds` hold what is proved of runs. `Superseding` drops the assumption
  that a proposal is stored at one moment. `Transactions` is the same transactions on
  rows changed in place.
- **Assistant.** `Conversation` rebuilds the model's conversation from stored rows,
  `ReplayContents` says what each kind of row gives to it, `TurnSlots` is the one turn a user may have, `AssistantTurn` the stored thread and
  the loop of a turn, `StreamAssembly` puts streamed tool calls together.
- **Network algorithms.** `ShortestPath` is the breadth-first search, `PortForwards`
  and `PortReport` the NAT chain, its rules and the conflicts, `Islands` the
  adjacency that splits NAT gateways and routed ports, `NatNetworks` the gateway
  addresses behind NAT.
- **Reconciliation.** `Matching` pairs hosts, `GuestMatching` guests, `Reconcile`
  compares and accounts, `HostAccounts` says what the reports hold.
- **Merge patch.** `MergePatch` against section 2 of RFC 7396.
- `Text` and `Wrappers` are shared helpers.

## Assumptions

- Each database transaction, and each single query outside one, is one atomic step.
  There is no unique index on pending proposals: that a build has at most one rests
  on the supersede-and-create transaction of `Propose` not interleaving with another
  one, because it takes no build lock; what happens otherwise is the last finding.
  Creation order is the order of `created_at`.
- Applying operations, calculating addresses, normalising a plan and converting a
  graph are functions of what they are given. Resolved operations give the same
  graph again on the same build (`Protocol.Replayable`); the service catalog and the
  owner's loop preference, which the operations also read, stay the same between
  review and apply. Ids a save must draw are part of the submitted graph.
- What the outside world does (provider answers, tool outcomes, failing writes, new
  ids, interleaving) is a parameter, so theorems hold for all of it.

## Findings

- `Refresh` says a save that lands mid-refresh is left for the next review
  (proposal_service.go:254-257). The row, the nodes and the edges are read by separate
  queries, the preview is one transaction and the closing write is another.
  `Refreshing.RefreshCloses` says for every run when that write closes the proposal.
  Two kinds of save make it close a proposal that fits: one between the reads, which
  yields a mixture the operations do not apply to, and one after the last read, which
  makes the proposal fit again but is not looked at any more
  (`Refreshing.InsideCanMislead`). With no save between the first read and the write
  the closing is right (`Refreshing.UndisturbedRefresh`), and of a single save it is
  right in every world exactly when the save comes before the first read or after the
  write (`Refreshing.OneSaveSoundExactly`). With any number of saves it is right
  whatever the operations do exactly when the build at the write is the mixture that
  was read, or nothing can be saved on it (`RefreshWorlds.RightInEveryWorldExactly`).
- A dropped cable whose two devices are joined already is not always beyond saving. A
  second power cable between them is accepted exactly when it fits its devices and both
  its ends are free (`PowerDrops.JoinedDropAccepted`), so some handles are left for it
  exactly when an input of the fed device and one of 48 sockets of the feeder are free
  (`PowerDrops.JoinedDropCanReturn`). `PowerDrops.TwoInputsTakeBoth` is a build where
  the dropped cable would have been accepted; a device with one input never takes it
  (`PowerDrops.OneInputTakesNoSecond`).
- The transaction that stores a proposal supersedes what its first statement sees and
  takes no lock on the build. If one began before another was committed, both
  proposals stay pending (`Superseding.TwoStoresExactly`);
  `Superseding.NeverTwoExactly` is the exact condition for any number of them.

## Model

| member | source | states |
|---|---|---|
| `Graph.ArcKeepsAcyclic` | backend/internal/services/legacy_power_cables.go:255-257 | a new cable keeps acyclic wiring acyclic if and only if its fed end does not already reach its feeder: the guard of the planner is exact |
| `Searches.PowerReaches` | backend/internal/services/legacy_power_cables.go:303-319 | the worklist search terminates and answers yes exactly when a directed path exists, although its stack may hold duplicates |
| `Searches.FindLoop` | backend/internal/services/build_service.go:552-580 | the three-colour search finds nothing exactly when the graph has no cycle, and otherwise a node on a cycle |
| `Wiring.HandleRoundTrip` | backend/internal/wiring/power.go:71-78 | reading a written handle gives its number back |
| `Wiring.HandleDetermined` | backend/internal/wiring/power.go:181-193 | a handle that reads as a number is the one written for it: no two spellings of a socket |
| `Validation.PowerLoopNode` | backend/internal/services/build_service.go:538-580 | returns nothing exactly when the power cables are acyclic, otherwise a device on a loop |
| `Validation.CheckNodes` | backend/internal/services/build_service.go:354-382 | no issue exactly when device ids and guests are sound; the lookup it builds is the devices by id |
| `Validation.CheckPlacement` | backend/internal/services/build_service.go:384-406 | no issue exactly when every parent exists and containment is one level deep inside racks |
| `Validation.CheckEdges` | backend/internal/services/build_service.go:414-523 | the seen-map loops report nothing exactly when the pairwise rules hold: ends exist, one network cable per pair, one cable per port, one uplink per LAN table |
| `Validation.ValidateEdgeEndpoints` | backend/internal/services/build_service.go:334-535 | a graph is accepted if and only if the quantified rules of `ValidTopology` hold; missing ends are reported exactly when some end does not exist |
| `Topology.CompatibleMeans` | backend/internal/services/build_service.go:440-523 | two cables go together unless both join the same two devices without power, take up one port (an access point's is left free by a Wi-Fi client, a VPN takes none), or both end at one LAN table |
| `PowerPlan.FirstFree` | backend/internal/services/legacy_power_cables.go:293-300 | the lowest number below the limit that is not in use, or none |
| `PowerPlan.DecideCable` | backend/internal/services/legacy_power_cables.go:241-260 | the decision for one old cable, in the order of the source's cases |
| `PowerPlan.PlanLegacyPowerCables` | backend/internal/services/legacy_power_cables.go:188-277 | the greedy loop computes the specified plan; what the plan is, by kinds of device and by plugs, is said by `PowerDirections.TurnedByKinds`, `PowerPlugs.ConvertedPlugLowest` and the rows below |
| `PowerDirections.TurnedByKinds` | backend/internal/services/legacy_power_cables.go:222-290 | by kinds alone, every converted and every dropped cable is turned round if and only if its drawn target gives power and its source does not, or the pair is a UPS or PDU drawn to the wall, or a PDU drawn to a UPS; no converted cable feeds a UPS from a PDU, or a wall outlet |
| `PowerDirections.OthersStay` | backend/internal/services/legacy_power_cables.go:222-231 | no cable that is not old is touched, and no old one is left in the final wiring |
| `PowerPlugs.ConvertedPlugLowest` | backend/internal/services/legacy_power_cables.go:239-273 | a converted cable has the lowest socket and the lowest input that are not in use by others |
| `PowerTheorems.PowerRulesKept` | backend/internal/services/legacy_power_cables.go:188-277 | when the stored power cables obey the power rules (ends, sockets, inputs, ports, no loop), stored and converted power cables together obey them on the grown devices, whatever else is wrong with the build |
| `PowerTheorems.ConvertedBuildIsValid` | backend/internal/services/legacy_power_cables.go:188-277 | so a build that without its old cables would be saved is saved after the conversion, all rules included |
| `PowerDrops.DroppedBreaksPowerRules` | backend/internal/services/legacy_power_cables.go:241-260 | maximality, in any build: in the final wiring every dropped cable still has the reason it was dropped for, and unless its devices are joined already, putting it back on any handles and with any socket counts breaks the power rules |
| `PowerDrops.DroppedCannotStay` | backend/internal/services/legacy_power_cables.go:241-260 | so the validator refuses it; one dropped as already connected has a power cable between its two devices |
| `PowerDrops.JoinedDropExact` | backend/internal/services/legacy_power_cables.go:247-249 | a cable dropped as already connected, put back on given handles, keeps the rules if and only if it fits its devices and both its ends are free |
| `PowerDrops.JoinedDropAccepted` | backend/internal/services/build_service.go:334-535 | the same of the whole validator, for every build it accepts |
| `PowerDrops.JoinedDropCanReturn` | backend/internal/services/legacy_power_cables.go:239-249 | some handles and socket counts are left for it if and only if an input of the fed device and a socket number below 48 of the feeder are free |
| `PowerDrops.OneInputTakesNoSecond` | backend/internal/services/legacy_power_cables.go:247-249 | a device with at most one power input never takes it back |
| `PowerDrops.TwoInputsTakeBoth` | backend/internal/services/legacy_power_cables.go:247-249 | a build in which the planner drops a cable that the validator would accept as a second feed |
| `PowerPlugs.LoopsUnchanged` | backend/internal/services/legacy_power_cables.go:255-257 | in any build the final wiring has a power loop if and only if the stored power cables have one |
| `PowerPlugs.ConvertedHaveOwnPlugs` | backend/internal/services/legacy_power_cables.go:239-273 | in any build a converted cable shares its socket and its input with no other cable |
| `PowerTheorems.SocketsGrowWhenFull` | backend/internal/services/legacy_power_cables.go:261-267 | sockets are added only to a source whose sockets are all in use, never past the maximum |
| `PowerTheorems.OldCablesSettledOnce` | backend/internal/services/legacy_power_cables.go:222-276 | every old cable is converted or dropped exactly once, and nothing else is |
| `PowerTheorems.ConvertedFlowsOutwards` | backend/internal/services/legacy_power_cables.go:282-290 | a converted cable keeps its id and its two devices, starts at a wall outlet, UPS or PDU, and leads neither to a wall outlet nor from a PDU to a UPS |
| `PowerTheorems.PlanningAgainIsEmpty` | backend/internal/services/legacy_power_cables.go:178-180 | planning on the converted build yields the empty plan |
| `PowerConversion.StoredRowsFollowPlan` | backend/internal/services/legacy_power_cables.go:83-121 | updating and deleting rows by id stores exactly the planned wiring, with distinct ids and nothing left to convert; power rules that held still hold, and a valid build stays valid |
| `PowerConversion.UpdateRows` | backend/internal/services/legacy_power_cables.go:87-98 | one update per converted cable rewrites each row by its id |
| `PowerConversion.GrowDevices` | backend/internal/services/legacy_power_cables.go:104-121 | writes the new socket counts and changes nothing else of any device; fails exactly when a device that grows has unreadable details |
| `PowerConversion.BuildRows.Convert` | backend/internal/services/legacy_power_cables.go:73-140 | all or nothing: the planned rows, the next revision and one notice, or no change; the power rules are kept, a valid build can be saved, and the result is not touched again |
| `Protocol.StepAdvances` | backend/internal/services/build_service.go:112-137 | every step leaves revision and content alone or takes the next revision |
| `Protocol.RevisionIdentifiesContent` | backend/internal/services/build_service.go:59-137 | over any interleaving revisions never decrease and equal revisions mean equal name, settings, kind, plan, nodes and edges |
| `ProtocolSteps.OwnerSaveStep` | backend/internal/services/build_service.go:85-137 | an owner's save on the present revision commits what was submitted as the next revision; any other changes nothing |
| `ProtocolSteps.ShareSaveStep` | backend/internal/services/build_service.go:736-759 | a save through an open share link commits everything submitted but kind and plan |
| `ProtocolSteps.RenameStep` | backend/internal/services/build_service.go:59-83 | the build gets the name without white space around it and the next revision, if it is the owner's, at the present revision and the name not blank |
| `ProtocolSteps.ShareStep` | backend/internal/services/build_service.go:721-734 | the owner changes the sharing of a build; content and revision stay |
| `ProtocolSteps.ConvertStep` | backend/internal/services/legacy_power_cables.go:73-140 | the converted devices and cables become the next revision |
| `ProtocolSteps.ApplyStep` | backend/internal/services/proposal_service.go:334-385 | applying a pending proposal commits the replay on the present content and marks it applied with that revision, or marks it a conflict; every other proposal stays as it is |
| `ProtocolSteps.RejectStep` | backend/internal/services/proposal_service.go:405-420 | rejecting a pending proposal marks it rejected and changes nothing else; another user or a failing database changes nothing |
| `ProtocolSteps.RejectedIsNeverApplied` | backend/internal/services/proposal_service.go:405-450 | in no run is a rejected proposal applied |
| `ProtocolSteps.RefreshStores` | backend/internal/services/proposal_service.go:268-280 | a refresh that made a preview stores it, with its revision, in the pending proposal |
| `ProtocolSteps.StoreStep` | backend/internal/services/proposal_service.go:166-207 | storing adds the proposal, supersedes the pending one and keeps exactly the newest twenty others |
| `Proposing.ProposeStoresExactly` | backend/internal/services/proposal_service.go:108-187 | in every run a request to propose, read at three moments, stores the resolved operations with the previewed content and the revision read, and starts over, once, exactly when a save came in between |
| `ProtocolTheorems.SavesOverwriteWhatWasRead` | backend/internal/services/build_service.go:112-115 | a save that commits overwrites exactly what its author read, even if row, nodes and edges were read at three moments |
| `ProtocolInvariant.StepKeeps` | backend/internal/services/proposal_service.go:108-426 | every step of every request keeps the protocol's invariant |
| `ProtocolTheorems.PreviewsAreDryRuns` | backend/internal/services/proposal_service.go:222-280 | in every run each stored preview is the dry run of its operations on the content of its base revision |
| `ProtocolTheorems.AppliesWhatWasReviewed` | backend/internal/services/proposal_service.go:334-385 | Apply at the base revision commits exactly the preview and records that revision |
| `ProtocolTheorems.FailedApply` | backend/internal/services/proposal_service.go:364-380 | an Apply that no longer fits leaves the build unchanged and marks a conflict; a failing database changes nothing |
| `ProtocolTheorems.ApplyRecords` | backend/internal/services/proposal_service.go:381-384 | the applied revision is the one that Apply committed |
| `ProtocolTheorems.AppliedAtMostOnce` | backend/internal/services/proposal_service.go:435-450 | no run applies a proposal twice |
| `ProtocolTheorems.FinalStaysFinal` | backend/internal/services/proposal_service.go:334-450 | applied, rejected, superseded and conflict are final over whole runs, until pruned, and a pruned id never returns |
| `ProposalList.StoreCounts` | backend/internal/services/proposal_service.go:173-207 | storing leaves the new proposal alone pending and at most 20 settled ones |
| `ProtocolTheorems.ProposalsStayFew` | backend/internal/services/proposal_service.go:194-207 | a build never has two pending proposals or more than 21 in all |
| `Superseding.PendingExactly` | backend/internal/services/proposal_service.go:166-187 | when stores interleave, a proposal stays pending exactly until a store that began after its commit is committed, or it is settled |
| `Superseding.NeverTwoExactly` | backend/internal/services/proposal_service.go:166-187 | no two proposals are ever pending if and only if each store's proposal was ended so by the time of every later store |
| `Superseding.TwoStoresExactly` | backend/internal/services/proposal_service.go:166-187 | of two stores both proposals stay pending if and only if the second began before the first was committed |
| `Superseding.AtomicNeverTwo` | backend/internal/services/proposal_service.go:166-187 | stores that see every earlier commit never leave two pending |
| `Superseding.AtomicStore` | backend/internal/services/proposal_service.go:166-187 | a store that sees every earlier commit is the store step of the protocol |
| `Refreshing.RefreshCloses` | backend/internal/services/proposal_service.go:226-280 | in every run, a refresh with its three reads, preview and write at any moments closes the proposal exactly when it is still pending, its base was outdated, and the operations do not apply to the mixture read, or no save fell between first read and preview and the draft was refused |
| `Refreshing.UndisturbedRefresh` | backend/internal/services/proposal_service.go:222-267 | without a save between the first read and the write, it closes the proposal exactly when applying it at that moment would fail |
| `Refreshing.InsideCanMislead` | backend/internal/services/build_service.go:595-605 | for a save at each of the four places between first read and write, a run that closes a proposal which fits the build at that moment |
| `Refreshing.OneSaveSoundExactly` | backend/internal/services/proposal_service.go:254-267 | of one save, closing is right in every world and for every build if and only if the save falls before the first read or after the write |
| `RefreshWorlds.RightInEveryWorldExactly` | backend/internal/services/proposal_service.go:226-267 | with any number of saves, renames and conversions at any moments, what the refresh does to an outdated pending proposal is right whatever its operations do if and only if the build at the write is the mixture that was read, or nothing can be saved on it |
| `Transactions.Database.SaveRevision` | backend/internal/services/build_service.go:112-137 | commits the next revision, or reports which of conflict, rejection and failure it was, leaving the row alone |
| `Transactions.Database.UpdateAndCalculate` | backend/internal/services/build_service.go:85-110 | the owner's save step: done exactly when the row works, the user owns it, the revision is the present one and the draft can be saved |
| `Transactions.Database.UpdateByShareToken` | backend/internal/services/build_service.go:736-759 | the share-link step; kind and plan stay |
| `Transactions.Database.Rename` | backend/internal/services/build_service.go:59-83 | the rename step: done exactly for the owner at the present revision with a name that is not blank; only the name changes |
| `Transactions.Database.PreviewTopology` | backend/internal/services/build_snapshot.go:46-70 | returns what the save would store and always leaves the row as it was |
| `Transactions.Database.LockPending` | backend/internal/services/proposal_service.go:437-450 | finds the user's pending proposal or refuses |
| `Transactions.Database.Apply` | backend/internal/services/proposal_service.go:334-385 | the apply step on build and proposals, with the savepoint of a rejected save; done means the next revision is committed and the proposal applied |
| `Transactions.Database.Reject` | backend/internal/services/proposal_service.go:405-420 | done exactly when the database works and the user's proposal is pending, and then it is rejected; otherwise nothing changes |
| `Transactions.Database.WriteRefresh` | backend/internal/services/proposal_service.go:274-278 | a recalculated preview is written only while the proposal is pending |
| `Transactions.Database.WriteConflict` | backend/internal/services/proposal_service.go:259-263 | a conflict is written only while the proposal is pending |
| `Transactions.Database.StorePending` | backend/internal/services/proposal_service.go:166-187 | supersedes, creates and prunes in one transaction |
| `Transactions.Database.PruneResolved` | backend/internal/services/proposal_service.go:195-207 | the settled proposals beyond the newest 20 go, 500 at most, and nothing else changes |
| `ProposalList.PruneKeepsExactly` | backend/internal/services/proposal_service.go:195-207 | a proposal survives if and only if it is pending, fewer than 20 settled ones are newer, or at least 520 are |
| `Conversation.ConversationFromMessages` | backend/internal/assistant/agent.go:511-564 | the loop with one row of lookahead gives each row's contribution as its two neighbours decide it; `ReplayContents.ReplayGives` says what those contributions are |
| `Conversation.AnswersEvery` | backend/internal/assistant/agent.go:566-582 | true exactly for a tool row with a result for every call |
| `Conversation.ReplayWellFormed` | backend/internal/assistant/agent.go:507-564 | for arbitrary rows, calls are answered in full by the very next message and results appear only there |
| `Conversation.ReplayDistributes` | backend/internal/assistant/agent.go:540-545 | rows that do not start with results replay on their own despite the lookahead |
| `ReplayContents.ReplayGives` | backend/internal/assistant/agent.go:511-564 | replay is, row by row and in order: one user message of all non-empty text and context of a user row, joined by blank lines, or none; a reply's text, with its calls when they were answered; after answered calls, the results with their contents; and nothing else |
| `ReplayContents.UserRowReplays` | backend/internal/assistant/agent.go:517-529 | a thread that ends with a user's row replays as what came before and one message that spells its pieces, or nothing when all are empty |
| `TurnSlots.Agent.Prepare` | backend/internal/assistant/agent.go:116-192 | refuses for exactly the stated reasons; every refusal leaves all slots as they were; no user ever has two turns |
| `TurnSlots.Agent.Release` | backend/internal/assistant/agent.go:261-264 | a turn that ends frees its user's slot and no other |
| `TurnSlots.NeverTwoTurns` | backend/internal/assistant/agent.go:136-149 | however requests interleave between taking the slot, being refused, starting and ending, no user has two, and a slot is taken exactly while its user has one |
| `AssistantTurn.Thread.Append` | backend/internal/services/assistant_thread_service.go:142-180 | appends the message with the next sequence number, NUL characters removed, a provider form that holds one dropped; numbers keep growing |
| `AssistantTurn.CleanReads` | backend/internal/services/assistant_thread_service.go:107-139 | reading a stored message gives what was stored up to NUL characters |
| `AssistantTurn.StoredTells` | backend/internal/services/assistant_thread_service.go:142-180 | a stored message has every part of the draft in order, each field without NUL characters, and the same author |
| `AssistantTurn.ToolPartsTell` | backend/internal/assistant/agent.go:389-424 | the i-th call's result is stored whole, content and error mark, with its proposal right behind it |
| `AssistantTurn.RecordReply` | backend/internal/assistant/agent.go:339-374 | the parts and calls recorded for a reply; arguments that are not JSON become an empty object |
| `AssistantTurn.RunTools` | backend/internal/assistant/agent.go:389-424 | one result part per call in order, with its proposal |
| `AssistantTurn.ResultsAnswer` | backend/internal/assistant/agent.go:389-431 | every recorded call has its result, also after both were stored |
| `AssistantTurn.RoundReplays` | backend/internal/assistant/agent.go:298-440 | after any round, finished or cut off between two writes, replay continues with exactly what is remembered of it |
| `AssistantTurn.RunRound` | backend/internal/assistant/agent.go:308-439 | the rows a round stores, whether the turn goes on, and the live messages it adds |
| `AssistantTurn.Run` | backend/internal/assistant/agent.go:261-449 | at every model call, at most 12, each message sent reads back from the rows stored so far field by field, up to NUL characters; the first conversation ends in the user's message, which ends in its text; each further one adds the reply's text and calls and each tool's result |
| `AssistantTurn.TurnReplays` | backend/internal/assistant/agent.go:286-440 | a later turn starts from the earlier conversation and what is remembered of each round, nothing else |
| `AssistantTurn.NoticeIsForgotten` | backend/internal/assistant/agent.go:442-448 | the closing notice adds nothing to the next conversation |
| `StreamAssembly.Feed` | backend/internal/llm/openai_compat.go:191-218 | one fragment goes to the call its index and id name, or begins one |
| `StreamAssembly.Stream` | backend/internal/llm/openai_compat.go:172-242 | calls are the fragments' own ids, names and concatenated arguments; a named call is announced exactly once and before progress, an unnamed one never |
| `StreamAssembly.OwnersOfSeparated` | backend/internal/llm/openai_compat.go:191-218 | fragments are attributed to the calls they are pieces of if and only if every later piece comes while its index stands for its call and every first one is told apart by index or id |
| `StreamAssembly.OwnersOfIndexed` | backend/internal/llm/openai_compat.go:192-199 | any interleaving with one index per call is taken apart again |
| `StreamAssembly.OwnersOfWhole` | backend/internal/llm/openai_compat.go:193-199 | so are whole calls under any indexes with distinct ids |
| `StreamAssembly.BothShapesSeparate` | backend/internal/llm/openai_compat.go:192-199 | both shapes are cases of the exact condition |
| `StreamAssembly.StreamReceives` | backend/internal/llm/openai_compat.go:172-242 | assembly undoes every fragmentation whose pieces can be told apart: each call once, in order of first appearance, arguments concatenated and trimmed |
| `ShortestPath.PathTo` | backend/internal/gaming/report.go:322-343 | a linked path from the start to a matching other node, of minimum length over all of them; none exactly when no such node is reachable |
| `ShortestPath.NearestIsSimple` | backend/internal/gaming/report.go:322-343 | a nearest path passes nothing twice, so no chain names a router twice |
| `ShortestPath.WalkBack` | backend/internal/gaming/report.go:331-336 | walking the parent pointers terminates and gives a path of the recorded distance |
| `PortForwards.BuildGraph` | backend/internal/gaming/report.go:244-295 | the graph has an arc each way for every physical link and no others |
| `PortForwards.NatChain` | backend/internal/gaming/report_servers.go:12-34 | the routers and NAT gateways on a shortest way to the internet edge, or to a router when no edge is in reach, outermost first, or why there is none |
| `PortForwards.ChainNames` | backend/internal/gaming/report_servers.go:12-34 | what the answer means, said of walks over the links and of the devices on them |
| `PortReport.EnterPorts` | backend/internal/gaming/report_servers.go:124-135 | enters ports up to the first one another server holds and says which that is |
| `PortReport.CheckServers` | backend/internal/gaming/report_servers.go:56-218 | the whole pass: every forwarded server has a route to its own address or, a container, to its host's, by the routers and gateways in between, or is remarked as public or unconnected; two translations and a missing address are remarked exactly where they occur; a host is reported exactly when two of its containers publish one port, despite the early break, and a port of an edge router exactly when two servers need it; the rules are only those of the routes, and forwarded ports reach their machines |
| `PortReport.RelayedEndToEnd` | backend/internal/gaming/report_servers.go:192-203 | the rules for a forwarded port number 1 to k outermost first, each targets the next router and the last the address of the container's host, or of any other guest itself |
| `PortReport.PacketArrives` | backend/internal/gaming/report_servers.go:181-203 | rules looked up by router, protocol and port and followed from address to address take a packet from the outermost router to that address, when no other route needs the port on any router of the chain |
| `PortReport.QuietMeansFunction` | backend/internal/gaming/report_servers.go:181-203 | with distinct server names, no conflict means the edge router sends each port to one target |
| `Islands.Connect` | backend/internal/services/ip_service.go:371-442 | a cable adds each end to the other's list once, at the copy its own fields name |
| `Islands.BuildAdjacency` | backend/internal/services/ip_service.go:363-442 | the lists hold exactly what the network cables join, each end at the copy its fields say: a port with a subnet, the LAN side of a NAT gateway, or the device |
| `Islands.AttachedAt` | backend/internal/services/ip_service.go:371-442 | which copy, from the cable's own fields: a LAN or DMZ port with a subnet; else a NAT gateway's LAN side when the cable is drawn so, or automatic, at another port than target-0 and not to an upstream device |
| `Islands.AdjacencySymmetric` | backend/internal/services/ip_service.go:440-441 | adjacency is symmetric, counting repeated cables |
| `Islands.IslandsAreApart` | backend/internal/services/ip_service.go:359-442 | when the cabling is a forest, a device's copies lie in different components |
| `Islands.LanPortServesLan` | backend/internal/services/ip_service.go:411-437 | a device cabled to a LAN port of a NAT gateway is listed under its LAN side and, over a forest, under no other copy, and reaches none |
| `Islands.UplinkStaysOutside` | backend/internal/services/ip_service.go:411-437 | a device at target-0, or an upstream one, is listed under the gateway itself unless the cable is drawn as a LAN cable, and over a forest reaches no other copy |
| `NatNetworks.BesideIsThird` | backend/internal/services/ip_service.go:478-483 | the 254 offsets reach every network beside an uplink |
| `NatNetworks.Gateways.NextNatLan` | backend/internal/services/ip_service.go:465-491 | a device's own gateway, or a free one beside the first uplink with any left; none exactly when all are used up |
| `NatNetworks.Gateways.AssignAll` | backend/internal/services/ip_service.go:516-533 | gateways handed out are pairwise different and were not taken before |
| `Matching.PairHosts` | backend/internal/proxmox/reconcile.go:73-124 | every host gets one pairing, no device two hosts, choices are honoured and a device chosen twice goes to the first, each pairing has its reason, and no pass leaves a host beside a free device that fits |
| `Matching.NormalizeNameSpells` | backend/internal/proxmox/types.go:212-220 | the key of a name spells its letters and digits, in order and without case |
| `GuestMatching.MatchGuests` | backend/internal/proxmox/reconcile.go:258-290 | matches are one to one and fit; per normalised name exactly min(running guests not matched by id, planned guests without an id) match by name |
| `Reconcile.CompareGuests` | backend/internal/proxmox/reconcile.go:320-380 | the rows are those of a matching that is one to one, fits and cannot be larger; the counts are the numbers of rows in each state |
| `Reconcile.CompareHost` | backend/internal/proxmox/reconcile.go:320-400 | the rows list every running and every planned guest once, as a largest matching pairs them, and the counts are theirs |
| `Reconcile.SortSorts` | backend/internal/proxmox/reconcile.go:309-310 | hosts are compared in order of their names |
| `Reconcile.SortKeeps` | backend/internal/proxmox/reconcile.go:309-310 | sorting loses and adds no host |
| `Reconcile.GuestsOnSorted` | backend/internal/proxmox/types.go:128-139 | guests of a host come in order of their ids |
| `Reconcile.CompareAll` | backend/internal/proxmox/reconcile.go:311-431 | the counts are those of the rows of all hosts; matched plus discovered are the running guests, matched plus missing the planned ones; totals are the sums of the host loads |
| `Reconcile.Reconcile` | backend/internal/proxmox/reconcile.go:302-431 | with distinct host names guests are conserved, no planned guest is reported twice, and the counts are those of the reported rows |
| `HostAccounts.ReportSays` | backend/internal/proxmox/reconcile.go:311-400 | a host's report: its actual load sums its running guests, a stopped one by disk only; its planned load sums the plan's, 1 CPU, 512 MB and 10 GB where no size is given; capacities are the host's or else the plan's; disks are rounded; a row differs exactly when a figure both give or the planned status does |
| `HostAccounts.ReconciliationSays` | backend/internal/proxmox/reconcile.go:302-431 | the same of every host, with all nine totals and the four counts added up over the hosts compared |
| `MergePatch.Merge` | backend/internal/gaming/merge.go:34-53 | whatever order the patch is walked in, the result is the merge of section 2 of RFC 7396, and keys the patch does not mention stay |
| `MergePatch.MergedAt` | backend/internal/gaming/merge.go:34-53 | path by path: what the patch does not mention stays, a value it names is set, null removes, and under a value or null nothing is left |
| `MergePatch.MergeIdempotent` | backend/internal/gaming/merge.go:34-53 | merging a patch again changes nothing |
| `MergePatch.DisjointPatchesCommute` | backend/internal/gaming/merge.go:9-12 | patches that touch disjoint paths commute, so a stored change can be replayed on an edited plan |

## Left out

- The database, HTTP, events, model SDKs, encryption, tokens and login: only transaction boundaries, row locks and failing writes are modelled.
- `ApplyTopologyOps`, the address allocator, plan normalisation and virtual networks: functions known only by name.
- Issue messages, names in notices and reports, thumbnails, timestamps and edge ids drawn on save.
- `Validation.CheckNodes`: the faults gamingNodeIssues finds in a device are a number given with the device, because that function is not part of this model.
- `MergePatch.Merge`: the map is a value, so sharing of nested maps between target and patch is not captured.
- `AssistantTurn.Thread.Append`: JSON encoding is not modelled; a document is text whose NUL characters are removed, so re-encoding of numbers, key order and keys that collide after removal are not captured.
- `AssistantTurn.Run`: events to the browser and time limits; the thread is not cleared during the turn, and nothing else writes to it, which the turn slot ensures.
- `StreamAssembly.Stream`: token counts, text and the stop reason; progress counts characters instead of bytes; only choice 0 is fed.
- `Islands.BuildAdjacency`: the sort of neighbour lists by port, which does not change which neighbours there are.
- `PortForwards.BuildGraph`: sorted neighbour order; the search is proved for any order.
- `PortReport.CheckServers`: sizing, uplink bandwidth and addresses shown to players.
- `NatNetworks.Gateways.NextNatLan`: addresses are four bytes, not text; non-canonical spellings of a used address are not captured, and subnets may overlap.
- `PowerConversion.BuildRows.Convert`: the order in which edges are read back, and power loads derived from the wiring.
- `Reconcile.CompareHost`: headroom, warnings and the comparison of single figures; loads are summed in loops of their own.
- `Protocol.RevisionIdentifiesContent`: creating, duplicating and deleting a build, and service instances, which a save through `BuildToSyncInput` does not carry.
- Sharing: reading and updating the sharing columns of a build is one step; they are never part of its content.
- Suggested matches, catalog, exports, fit scores, themes, rate limits and the frontend: textual or easy.
