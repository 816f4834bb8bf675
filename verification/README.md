# QMux: verified models of the mesh, the drain protocol and the UDP path

QMux multiplexes TCP and UDP traffic over QUIC connections between clients and servers, and
replicates group declarations between the servers of a mesh. This project models the parts
whose state is hard to keep right and proves, for every input, every reachable state or every
interleaving of steps, what they are there for.

How the modules are built:

- Each component has a state datatype, a total step function per operation (a step that is not
  enabled changes nothing) and `Run`, the state after any sequence of actions. An invariant is
  proved for every action, and the theorems are read off it for all runs.
- Where the program works by changing fields under a lock, a class has those fields and its
  methods are proved equal to the step functions: `View() == Op(old(View()), ...)`.
- Objects the program compares by address are numbers here, and maps are keyed by them.

| component | modules |
|---|---|
| mesh replication | `MeshWire`, `MeshLog`, `MeshReceiver`, `MeshStream`, `MeshLink`, `MeshLinkProof`, `MeshWorld`, `MeshAccept`, `MeshQueue`, `MeshApply` |
| declaration ledger | `Ledger`, `LedgerProof`, `LedgerRun`, `LedgerStore` |
| mesh registry and group availability | `RegistryState`, `RegistryProof`, `RegistrySteps`, `RegistryRun`, `RegistryTheorems`, `RegistryLosers`, `RegistryStore` |
| mesh leases and client selection | `Leases`, `LeasesProof`, `LeasesSelect`, `LeasesStore` |
| server connection pool | `PoolState`, `PoolProof`, `PoolSteps`, `PoolAdmit`, `PoolRegister`, `PoolRun`, `PoolStore` |
| drain protocol, client and server together | `Drain`, `DrainProof`, `DrainProgress`, `DrainCompletes`, `DrainClient` |
| UDP fragments | `UdpWire`, `UdpFragment`, `UdpAssembler`, `UdpRoundTrip`, `UdpShards`, `UdpStore`, `UdpCounters` |
| client UDP sessions | `Sessions`, `SessionsProof`, `SessionsStore` |
| canonical group declarations | `Canonical`, `CanonicalGroup`, `CanonicalParse`, `CanonicalMarshal` |

Main results, and what each would catch:

- `MeshWorld.Replicates`: a receiver that accepted the initial state and stands at revision n
  holds exactly what the sender had published at n. `MeshWorld.QueueIsContiguous`: a queue that
  has not failed holds the frames of the next revisions without a gap.
- `DrainProof.DrainSafe`: if the client's coordinator succeeds without force, every stream the
  server ever opened on the generation was accepted, its handler has returned, and none follows.
  It rests on `PoolRun.FenceExact` and `PoolRun.SilentAfterSignal` on the server's side. Its partner
  is `DrainCompletes.DrainCanComplete`: while nothing has failed and the leases are back, some
  continuation succeeds.
- `LedgerRun.Conservation`, `PoolRun.Conservation`, `LeasesProof.Conservation`,
  `SessionsProof.BudgetExact`, `UdpCounters.CountersExact`: every counter is the number of its
  owners, within its limit, in every interleaving; and all of them return to zero.
- `RegistryTheorems`: slots, limits, cached availability, arbitration and shutdown.
  `RegistryLosers.LoserNeverCurrent`: the loser of a simultaneous dial never becomes current.
- `UdpRoundTrip.RoundTrip`, `UdpShards.AddRefines`: fragments in any order give the packet once;
  any number of shards under any hash is one map.
- `CanonicalGroup.DeclarationIff`, `CanonicalParse.AcceptedIff`: what the canonical bytes depend
  on, and which bytes the strict parser accepts, both as if-and-only-if.

One property one would expect is false of the code; it has the exact condition under which it
holds and a concrete run that breaks it. A peer does not always accept the initial state: a newer
version of a group leaves the paths of the old version published, and the receiver rejects a path
whose declaration it does not have. `MeshAccept.AcceptedIff` gives the condition on the published
state, `MeshAccept.NewVersionStrandsPath` the run and the rejection.

A remark on the registry's interface. `LoserNeverCurrent` uses the order that the one caller of
CompleteArbitration and CancelArbitration keeps (mesh/server.go:627-635): it joins the loser's owner
first, and the owner releases before it can be joined (mesh/server.go:700-708). The registry alone
promises less: `RegistryLosers.LoserCommitsIff` says, for every way an arbitration can end, that its
loser can commit afterwards exactly if it had not begun to retire.

`dafny verify dfyconfig.toml` checks the whole project.

## Model

| member | source | states |
|---|---|---|
| `MeshWire.PreflightSufficient` | mesh/control_state.go:284-318 | the three chunks the preflight marshals at the largest revision stand for all: every aligned chunk then fits a frame at every revision, for any payload limit |
| `MeshWire.PreflightRejectsOnlyEmpty` | protocol/mesh_control.go:56-100 | at the protocol's payload limit, and for lengths of 32 bits, the preflight fails if and only if the declaration is empty |
| `MeshWire.ChunkFits` | protocol/mesh_control.go:56-100 | every aligned chunk of such a declaration is within the payload limit, by the width of its numbers and of its base64 data |
| `MeshLog.DeclarationFrames` | mesh/control_state.go:537-556 | the loop yields exactly the chunks of the declaration in order; it gives up only if some chunk does not fit or there is nothing to send, and never after a successful preflight |
| `MeshLog.FramesOfHold` | mesh/control_state.go:537-556 | the frames of the newest delta are exactly what the history holds for its revision, chunk after chunk |
| `MeshLog.HoldsExtends` | mesh/control_state.go:527-535 | broadcasting the frames of the next delta turns a complete queue into a complete queue of the longer history |
| `MeshLog.StateAtStable` | mesh/control_state.go:446-525 | publishing more never changes what an earlier revision published |
| `MeshStream.LoadedChunk` | mesh/initial.go:125-267 | a chunk at the sender's offset leaves the receiver with exactly that prefix of the declaration, and with the whole record at the last chunk |
| `MeshStream.ApplyFrame` | mesh/control_apply.go:37-115 | applying the frame at a position of the history moves the receiver to the next position with the published state of that revision, or fails |
| `MeshStream.ReceiveNext` | mesh/initial.go:125-267 | whatever message is next in the sender's stream, a receiver that knew where it stood still knows, through begin, declarations, paths, catch-up, end and live deltas |
| `MeshLinkProof.SendSnapshotOk` | mesh/control_state.go:563-624 | sending the snapshot keeps the invariant of the link: what was sent is a prefix of the one stream that belongs to the cut |
| `MeshLinkProof.WriteFrameOk` | mesh/control_state.go:599-620 | writing a taken frame in the catch-up keeps the link on that stream |
| `MeshLinkProof.DoneFrameOk` | mesh/control_state.go:93-102 | removing the written frame keeps the queue contiguous with what was sent |
| `MeshLinkProof.ApplyTakenOk` | mesh/session.go:144-336 | applying a received delta keeps the receiver at a position of the sender's history |
| `MeshWorld.RunOk` | mesh/control_state.go:195-222 | every interleaving of publications, subscriptions, sending, reading, applying and closing keeps the invariant of the server and of every link |
| `MeshWorld.Replicates` | mesh/control_state.go:195-222 | in every run, a receiver that accepted the initial state and stands at revision n holds exactly the groups and paths published at n, each once |
| `MeshWorld.QueueIsContiguous` | mesh/control_state.go:50-121 | in every run a queue that has not failed holds exactly the frames after the last one sent, in order, within the message and the byte limit, and its byte count is their sum |
| `MeshWorld.CatchUpNeverGaps` | mesh/control_state.go:599-620 | the gap test of the catch-up never fires in any run |
| `MeshWorld.FailedForGood` | mesh/control_state.go:50-69 | in every run, from the point where a queue has failed it stays failed and hands out no further frame |
| `MeshWorld.HistoryGrows` | mesh/control_state.go:446-525 | each step leaves the history or adds one delta, and the revision is its length, so each publication raises it by one |
| `MeshWorld.VersionsNeverDecrease` | mesh/control_state.go:347-399 | in every run, until the server closes a published group stays published and its version never decreases |
| `MeshAccept.AcceptedIff` | mesh/initial.go:125-267 | a complete initial state is accepted, by a receiver with room, if and only if every path published at the cut and at the fence refers to the current version of its group |
| `MeshAccept.NewVersionStrandsPath` | mesh/control_state.go:347-399 | three publications after which a path stays published under an old version, so every receiver with room rejects the whole initial state sent from there |
| `MeshAccept.RunDisciplined` | mesh/control_state.go:446-525 | the history of every run passed the sender's checks, so the condition applies to every run |
| `MeshAccept.PathAcceptedIff` | mesh/control_apply.go:117-168 | within the limits a snapshot path is taken if and only if its group is staged at its version |
| `MeshAccept.EndAcceptedIff` | mesh/control_apply.go:183-197 | the end of the initial state is accepted if and only if every path is current at the fence |
| `MeshQueue.ControlQueue.PushAll` | mesh/control_state.go:50-69 | all frames of the batch are appended, or none is and the queue has failed |
| `MeshQueue.ControlQueue.Take` | mesh/control_state.go:71-91 | an error exactly if failed, otherwise the head exactly if there is one |
| `MeshQueue.ControlQueue.Done` | mesh/control_state.go:93-102 | the head is removed, with its bytes, only if it is the frame that was taken |
| `MeshQueue.ControlQueue.ClearAll` | mesh/control_state.go:113-121 | the queue is empty and failed |
| `MeshQueue.ControlState.BroadcastAll` | mesh/control_state.go:527-535 | every link's queue gets the same push, and exactly the failed ones are returned |
| `MeshQueue.ControlState.PublishDelta` | mesh/control_state.go:446-535 | indexes, revision and history move together and every link gets the frames of that revision |
| `MeshQueue.ControlState.CommitClientGroup` | mesh/control_state.go:347-399 | publishes if and only if the version is newer, as one revision on every link, and otherwise changes nothing |
| `MeshQueue.ControlState.CountOthers` | mesh/control_state.go:446-502 | the loop counts the published paths of the group other than this one |
| `MeshQueue.ControlState.PublishPath` | mesh/control_state.go:446-502 | publishes if and only if every check passes, and otherwise changes nothing |
| `MeshQueue.ControlState.WithdrawPath` | mesh/control_state.go:504-525 | withdraws if and only if the path is published, and otherwise changes nothing |
| `MeshQueue.ControlState.CloseAll` | mesh/control_state.go:233-251 | nothing stays published, no link is served, the revision stays |
| `MeshQueue.SendDeclaration` | mesh/initial.go:104-123 | the loop emits exactly the chunk messages of one declaration of the stream |
| `MeshQueue.SendSnapshotHead` | mesh/control_state.go:563-598 | begin, every declaration and every path of the cut are exactly the stream up to its first delta |
| `MeshApply.StagedState.CountPaths` | mesh/control_apply.go:117-168 | the loop counts the staged paths of a group |
| `MeshApply.StagedState.DropPath` | mesh/control_apply.go:117-168 | the entry of the path is taken out, the rest shifted, and nothing happens if there is none |
| `MeshApply.StagedState.TryAddPath` | mesh/control_apply.go:117-168 | succeeds and changes the staged items exactly as the receiver of the replication theorem does; a refusal by a count limit leaves the old entry out, any other leaves everything |
| `MeshApply.StagedState.WithdrawPath` | mesh/control_apply.go:170-181 | removes the path if it is there, shifting the rest, and otherwise changes nothing |
| `MeshApply.StagedState.ValidatePaths` | mesh/control_apply.go:183-197 | true if and only if every staged path has a staged group of its version |
| `MeshApply.StagedState.TryInstall` | mesh/control_apply.go:37-106 | replaces the record of the group in place, or appends it while there is room, and otherwise changes nothing |
| `MeshApply.DeltaApplier.TryApplyChunk` | mesh/control_apply.go:37-115 | assembling a group delta succeeds and ends exactly as the receiver of the replication theorem does |
| `MeshApply.DeltaApplier.TryApply` | mesh/control_apply.go:37-115 | so does applying any delta message |
| `MeshApply.TryLoadChunk` | mesh/initial.go:125-267 | the chunk branch of the loop is the receiver's step |
| `MeshApply.TryLoad` | mesh/initial.go:125-267 | one turn of the loop before the end is the receiver's step |
| `MeshApply.TryFinish` | mesh/initial.go:125-267 | the end branch accepts exactly if the receiver goes live |
| `MeshApply.ReceiveInitial` | mesh/initial.go:125-267 | the whole loop returns a state exactly if some prefix of the input makes the receiver live, with that state and revision |
| `LedgerRun.RunOk` | mesh/declaration.go:70-263 | every interleaving of claims, staging, publication, subscription, release and close keeps the invariant of the ledger |
| `LedgerRun.Conservation` | mesh/declaration.go:70-263 | in every run a record's references are the number of its owners, both indexes list exactly the live records, and stored plus reserved groups and bytes stay within both quotas |
| `LedgerRun.AllReleased` | mesh/control_state.go:151-251 | once no owner holds anything and no claim is open, the ledger is as at the start |
| `LedgerRun.Agreement` | mesh/declaration.go:214-262 | of any two references held at one time, they have the same group and version if and only if they are the same record, so never different bytes |
| `LedgerRun.FinishKnownKey` | mesh/declaration.go:187-263 | with a retained record of the same key the input is shared if it is byte for byte the same and was so compared, and refused otherwise |
| `LedgerRun.FinishNewKey` | mesh/declaration.go:187-263 | a new key is stored with one reference exactly if it fits once the claim's own reservation and candidate are given back |
| `LedgerRun.ReservationHolds` | mesh/declaration.go:125-128 | a claim that reserved its size is never refused for capacity at finish |
| `LedgerRun.PublishedNeverDecreases` | mesh/control_state.go:347-399 | until close, a published group stays published and its version never decreases, over any run |
| `LedgerStore.DeclarationLedger.FindCandidate` | mesh/declaration.go:70-96 | the bucket scan finds the first record of that digest and size |
| `LedgerStore.DeclarationLedger.Begin` | mesh/declaration.go:70-96 | the ledger and the claim end as the modelled begin; no claim exactly for a size of zero or above the single limit |
| `LedgerStore.DeclarationLedger.WithoutRecord` | mesh/declaration.go:130-154 | scan and shift remove the first occurrence from the bucket |
| `LedgerStore.DeclarationLedger.ReleaseLocked` | mesh/declaration.go:130-154 | one reference less, and the record out of both indexes and both counters with the last one |
| `LedgerStore.DeclarationLedger.RetainLocked` | mesh/declaration.go:162-166 | one reference more |
| `LedgerStore.DeclarationLedger.Close` | mesh/declaration.go:168-183 | the claim's candidate and reservation are given back, once |
| `LedgerStore.DeclarationLedger.Finish` | mesh/declaration.go:187-263 | verdict, ledger and claim are those of the modelled finish, on every path |
| `LedgerStore.CompareChunk` | mesh/declaration.go:98-102 | the claim stays matched exactly if the chunk equals the candidate's bytes at that offset |
| `RegistryRun.RunOk` | mesh/registry.go:220-625 | every run of all operations, with Stop in two phases, keeps the invariant of the registry |
| `RegistryTheorems.SlotsExact` | mesh/registry.go:641-781 | in every run each generation sits in exactly the slot its role, identity and phase name, entries are never empty, name one group and hold nothing else, and all three limits hold |
| `RegistryTheorems.AvailabilityExact` | mesh/selection.go:73-169 | in every run the cached availability of a group is what recomputation gives, and the change channel is never closed twice |
| `RegistryTheorems.EdgesExact` | mesh/selection.go:146-169 | each step but the first phase of Stop replaces the change channel exactly if the availability of some group changes |
| `RegistryTheorems.FinalForGood` | mesh/registry.go:467-522 | a retiring generation never leaves that phase except by removal, and a removed one never returns, in any run |
| `RegistryTheorems.ReleasedTokensAreInert` | mesh/registry.go:431-540 | every operation on a token that was released at any earlier point of the run changes nothing |
| `RegistryTheorems.LoserHoldsItsSlot` | mesh/registry.go:310-348 | while an arbitration lasts its loser is counted and not current, retiring once released, its inbound side waits, and the peer has no current generation |
| `RegistryTheorems.LoserLeavesOnce` | mesh/registry.go:391-397 | when an arbitration ends its loser is removed if and only if it had been released, and the mutual recursion of removal ends there |
| `RegistryTheorems.InboundLossEnds` | mesh/registry.go:724-753 | losing the inbound side ends its arbitration in the same way |
| `RegistryTheorems.StopEmpties` | mesh/registry.go:593-625 | after the final sweep the registry is empty, whatever ran between the two phases of Stop |
| `RegistryLosers.LoserNeverCurrent` | mesh/registry.go:310-465 | once a generation has been the loser of an arbitration it is not current at any later point of the run, through complete, cancel, retirement, release and both phases of Stop, for callers that join the loser before they end the arbitration |
| `RegistryLosers.BeatenForGood` | mesh/registry.go:445-522 | a generation that is gone, retiring, held by its arbitration or held by the stopped registry stays so in every joined run |
| `RegistryLosers.EndingRemovesLoser` | mesh/server.go:627-635 | a joined complete or cancel, with or without abort, removes the loser and ends the arbitration |
| `RegistryLosers.JoinedContest` | mesh/server.go:606-637 | a joined run in which the loser is released, the arbitration completes and the inbound side has the peer's slot |
| `RegistryLosers.LoserCommitsIff` | mesh/registry.go:350-465 | without the join: after complete, cancel or the loss of the inbound side the loser can commit if and only if it had not begun to retire |
| `RegistryLosers.UnjoinedLoserWins` | mesh/registry.go:378-465 | the join is needed: a cancel before the loser's release lets it commit |
| `RegistrySteps.CompleteTransfers` | mesh/registry.go:350-376 | completing an arbitration whose loser was released removes the loser and gives its peer slot to the inbound side: the peer count stays the same and the invariant holds |
| `RegistrySteps.CompleteTooEarly` | mesh/registry.go:350-376 | completing one whose loser was not released is refused as stale: the arbitration ends and nothing is removed |
| `RegistryStore.RegistryObject.CountRole` | mesh/registry.go:773-781 | the loop counts the generations of a role |
| `RegistryStore.RegistryObject.RefreshGroup` | mesh/selection.go:146-169 | the loop over clients leaves the cache and the channel as the modelled refresh |
| `RegistryStore.RegistryObject.ArbitrationFor` | mesh/registry.go:755-762 | the scan finds the one arbitration this inbound side waits for, whatever the order |
| `RegistryStore.RegistryObject.RemoveLocked` | mesh/registry.go:724-753 | the mutually recursive removal terminates and is the modelled removal |
| `RegistryStore.RegistryObject.FinishArbitrationLocked` | mesh/registry.go:391-397 | so does and is the end of an arbitration |
| `RegistryStore.RegistryObject.Leave` | mesh/registry.go:690-709 | the generation is out of every slot of its entry, and an entry left empty is deleted |
| `RegistryStore.RegistryObject.TransferLocked` | mesh/registry.go:641-655 | the pending generation becomes the prepared one of its peer |
| `RegistryStore.RegistryObject.PreparePeer` | mesh/registry.go:310-348 | prepares, refuses or opens an arbitration as the modelled step, in every case of what the peer has |
| `RegistryStore.RegistryObject.CompleteArbitration` | mesh/registry.go:350-376 | state and verdict of the modelled step, on every path |
| `RegistryStore.RegistryObject.BeginRetire` | mesh/registry.go:467-488 | the modelled retirement, refused exactly for unknown or pending generations |
| `RegistryStore.RegistryObject.Release` | mesh/registry.go:491-522 | the modelled release, with the loser kept, the inbound side ending its arbitration and the group refreshed |
| `RegistryStore.RegistryObject.BeginStop` | mesh/registry.go:593-625 | the first phase of Stop |
| `LeasesProof.RunOk` | mesh/admission.go:62-197 | every interleaving of all lease operations, with claim and settle as separate steps, keeps the invariant |
| `LeasesProof.Conservation` | mesh/selection.go:203-295 | in every interleaving flows, setups and requests of a source, pending and active of a generation and source, and inflight of a generation are the numbers of leases that hold them, within their limits |
| `LeasesProof.SlotReturnedOnce` | mesh/admission.go:123-153 | a setup slot is given back at most once, and exactly when it was claimed and nobody is still settling |
| `LeasesProof.OneAcknowledges` | mesh/selection.go:203-217 | of two leases sharing a setup, after one acknowledged neither the other's acknowledge nor a setup release changes anything |
| `LeasesProof.ZeroOnceReleased` | mesh/selection.go:241-262 | once everything has been released every counter is zero |
| `LeasesSelect.WalkCovers` | mesh/selection.go:372-428 | the rotation from any start reaches every candidate |
| `LeasesSelect.ClientSelection.FailedOnly` | mesh/selection.go:372-428 | the first loop decides whether no candidate is healthy |
| `LeasesSelect.ClientSelection.Choose` | mesh/selection.go:372-428 | the second loop picks an eligible candidate, the first or the least loaded of the walk, and none only if none is eligible |
| `LeasesSelect.ClientSelection.Next` | mesh/selection.go:372-428 | a lease is on a candidate never tried before, healthy unless none is; a refusal means every eligible candidate was tried and had no room |
| `LeasesStore.TCPSource.OpenFlow` | mesh/admission.go:62-74 | the counters are those of the modelled step and the flow is given exactly if it is open there |
| `LeasesStore.TCPSource.OpenSetup` | mesh/admission.go:96-119 | so is a setup |
| `LeasesStore.SetupLease.Release` | mesh/admission.go:134-146 | the slot goes back with the release that claims it, and with no other |
| `LeasesStore.SetupLease.Claim` | mesh/admission.go:123-125 | exactly the first caller claims |
| `LeasesStore.SetupLease.SettleSlot` | mesh/admission.go:148-153 | the claimed slot is given back |
| `LeasesStore.GenerationLease.AcknowledgeReady` | mesh/selection.go:203-239 | acknowledge is claim, activation and settle, and succeeds exactly for a pending lease whose setup is unclaimed |
| `PoolRun.RunOk` | server/pool/pool.go:265-727 | every run of all pool operations, with each atomic access of a stream record as a step, keeps the invariant |
| `PoolRun.Conservation` | server/pool/pool.go:265-799 | in every run pending registrations, generations, TCP and UDP counters are the numbers of their owners within their limits, a retiring entry exists if and only if not both done and drained, the cached list is a permutation of the clients, an admission leases each candidate at most once, and no accounting fault occurs |
| `PoolRun.FenceExact` | server/pool/pool.go:412-476 | a retirement has signalled if and only if no lease is out, at most once, with the highest stream ever opened or -1, and nothing is finalized before it |
| `PoolRun.SilentAfterSignal` | server/pool/pool.go:443-453 | after its signal a generation never has a lease, opens a stream or signals again, in any run |
| `PoolRun.AllRecorded` | server/traffic/tcp.go:505-529 | with no lease out every opened stream has been recorded |
| `PoolRun.DrainedFence` | server/pool/pool.go:443-453 | the recorded maximum is then the last opened stream and a valid fence |
| `PoolRun.StreamsGrow` | server/pool/pool.go:674-684 | no step forgets a generation or a stream it opened |
| `PoolStore.ConnectionPool.BeginPending` | server/pool/pool.go:265-278 | admitted exactly below the pending limit and without a fault |
| `PoolStore.ConnectionPool.Reserve` | server/pool/pool.go:296-337 | reserved exactly if every check passes |
| `PoolStore.ConnectionPool.CheckCommit` | server/pool/pool.go:342-383 | the checks in order decide exactly whether the registration may be committed |
| `PoolStore.ConnectionPool.Commit` | server/pool/pool.go:342-383 | committed exactly if every check passes, else nothing changes |
| `PoolStore.ConnectionPool.Abort` | server/pool/pool.go:387-408 | aborted at most once, giving back what the reservation held |
| `PoolStore.ConnectionPool.SignalDrained` | server/pool/pool.go:443-453 | the modelled signal |
| `PoolStore.ConnectionPool.FinalizeRetirement` | server/pool/pool.go:470-476 | the modelled finalization |
| `PoolStore.ConnectionPool.BeginRetire` | server/pool/pool.go:412-433 | retires exactly the current generation, and signals at once if it is idle |
| `PoolStore.ConnectionPool.Done` | server/pool/pool.go:456-468 | marks at most once, and finalizes if it is drained |
| `PoolStore.ConnectionPool.MarkHealth` | server/pool/pool.go:866-898 | changes exactly the current generation |
| `PoolStore.ConnectionPool.KeepUDP` | server/pool/pool.go:489-528 | the loop keeps exactly the clients with UDP room |
| `PoolStore.ConnectionPool.ReserveUDP` | server/pool/pool.go:489-528 | whatever the map order, the modelled reservation of the balancer's choice |
| `PoolStore.ConnectionPool.ReleaseUDP` | server/pool/pool.go:531-544 | one session less, and a fault instead of a negative count |
| `PoolStore.ConnectionPool.KeepTCP` | server/pool/pool.go:555-577 | the loop keeps exactly the eligible TCP clients, in order |
| `PoolStore.ConnectionPool.BeginTCPAdmission` | server/pool/pool.go:555-577 | an admission over the eligible clients, the cached list filled on the way |
| `PoolStore.ConnectionPool.BalanceOnce` | server/pool/pool.go:583-653 | the balancer's choice is swapped to the front of what is left |
| `PoolStore.ConnectionPool.FindLeasable` | server/pool/pool.go:583-653 | the candidate loop stops at the first that can be leased, with the verdict on why none could |
| `PoolStore.ConnectionPool.NextLease` | server/pool/pool.go:583-663 | leases at most one candidate not offered before, or says what blocked |
| `PoolStore.ConnectionPool.RecordStream` | server/pool/pool.go:674-684 | the register becomes the maximum of itself and the stream |
| `PoolStore.ConnectionPool.CommitLease` | server/pool/pool.go:687-704 | a waiting lease becomes active, once |
| `PoolStore.ConnectionPool.Release` | server/pool/pool.go:707-727 | a lease gives back its count, once, and may signal the drain |
| `DrainProof.DrainRunOk` | client/client.go:686-772 | every interleaving of the pool, both control loops, the wires, the accept loop, the handlers and the coordinator keeps the invariant |
| `DrainProof.DrainSafe` | client/client.go:686-772 | if the coordinator succeeds without force, every stream the server ever opens on the generation, then or later, was accepted and its handler has returned |
| `DrainProof.NothingAfterwards` | server/pool/pool.go:412-453 | a generation that has signalled opens nothing more in any continuation |
| `DrainCompletes.DrainCanComplete` | client/client.go:686-772 | from every reachable state in which no part the coordinator still needs has failed or was forced, and the server has answered or is up with all leases back, some continuation ends in success without force |
| `DrainCompletes.MoveIsFine` | client/client.go:686-772 | in each such state that has not succeeded there is a step of some loop that keeps it so and leaves less to do |
| `DrainProgress.RunFlow` | client/server_connection.go:311-422 | in every run neither the request nor the answer is lost while the loops are up, and the request epoch agrees with the coordinator's phase |
| `DrainProof.SuccessServes` | client/client.go:774-828 | in a successful state the server has signalled and every stream was served |
| `DrainProof.NeverProtests` | client/server_connection.go:400-422 | the answer in the slot is never unsolicited or conflicting |
| `DrainProof.NoFalseProtest` | client/server_connection.go:348-422 | in no run does the client call the server's answer unsolicited or conflicting |
| `DrainProof.TellClientOk` | server/server.go:993-1014 | the fence the server sends is the last stream it will ever have opened |
| `DrainProof.ReadAsServerOk` | server/server.go:970-987 | handling a drain request keeps the invariant |
| `DrainProof.SignalValue` | protocol/codec.go:215-220 | a signalled retirement holds one value, the last stream, and it is a valid fence |
| `DrainClient.AcceptsThroughFence` | client/client.go:346-412 | with the fence set, the accept loop ends at the fence, also at -1, with every stream up to it accepted and its handler started, and no error added |
| `DrainClient.ConnectionRuntime.SetFence` | client/client.go:397-412 | the fence is taken exactly if it is not below what was accepted and agrees with an earlier one |
| `DrainClient.ConnectionRuntime.FailAccept` | client/client.go:390-395 | the first error is kept |
| `DrainClient.ConnectionRuntime.ProcessStream` | client/client.go:346-388 | a stream within the fence starts a handler and raises the highest accepted; one beyond it ends the loop with an error |
| `DrainClient.ConnectionRuntime.AcceptStreams` | client/client.go:346-388 | the loop is the fold of its steps over whatever accepting gives it |
| `DrainClient.ServerConnection.HandleMessage` | client/server_connection.go:311-422 | the read branch of the loop, on every message |
| `UdpWire.DecodeEncoded` | protocol/udp_fragment.go:529-575 | decoding undoes encoding for both datagram forms |
| `UdpWire.EncodeDecoded` | protocol/udp_fragment.go:529-575 | whatever decodes is the encoding of what it decodes to |
| `UdpWire.ValueOfBigEndian` | protocol/udp_fragment.go:78-89 | the big-endian fields of the headers read back |
| `UdpFragment.JoinIsData` | protocol/udp_fragment.go:137-184 | the pieces in order are the packet |
| `UdpFragment.PieceSize` | protocol/udp_fragment.go:137-184 | every piece is non-empty and fits |
| `UdpFragment.IdentityUnique` | protocol/udp_fragment.go:91-93 | epoch and sequence give distinct identities |
| `UdpFragment.BuildFragment` | protocol/udp_fragment.go:83-89 | the bytes written into the buffer are the encoding of the fragment |
| `UdpFragment.FragmentUDP` | protocol/udp_fragment.go:137-184 | the loop over a moving offset yields exactly the encoded pieces, or the refusal, and one sequence number is used per split packet |
| `UdpFragment.FragmentDecodes` | protocol/udp_fragment.go:529-575 | every datagram of a split packet decodes to its piece, index and total |
| `UdpAssembler.AddOk` | protocol/udp_fragment.go:433-525 | adding any fragment keeps the counters equal to the live groups and bytes, within both limits |
| `UdpAssembler.ExpireOk` | protocol/udp_fragment.go:265-275 | so does expiry |
| `UdpRoundTrip.RoundTrip` | protocol/udp_fragment.go:580-603 | while there is room for each new piece and the packet does not expire, whatever the order, with duplicates, other keys and cleanups in between, every piece but the last missing one gives nothing, that one gives exactly the packet, and the group is gone |
| `UdpRoundTrip.RefusedIff` | protocol/udp_fragment.go:433-525 | while pieces are missing, a piece of the packet is refused if and only if it is new and there is no room for it |
| `UdpRoundTrip.Tracking` | protocol/udp_fragment.go:433-525 | until then exactly the pieces seen are held |
| `UdpRoundTrip.SmallRoundTrip` | protocol/udp_fragment.go:580-603 | a packet that needs no splitting comes back from its one datagram and changes nothing |
| `UdpShards.AddRefines` | protocol/udp_fragment.go:336-343 | for every shard count and hash, adding to the home shard is adding to the merged map, in state, counters and outcome |
| `UdpShards.Shrink` | protocol/udp_fragment.go:247-285 | what leaves a shard leaves the merged map and its counts, and nothing else does |
| `UdpStore.ShardedAssembler.JoinGroup` | protocol/udp_fragment.go:234-245 | the joined bytes of all slots in order |
| `UdpStore.ShardedAssembler.AddFragment` | protocol/udp_fragment.go:433-525 | refines the single map, and refuses once closed |
| `UdpStore.ShardedAssembler.CleanupGroups` | protocol/udp_fragment.go:265-275 | exactly the expired groups go, and the returned counts are theirs |
| `UdpStore.ShardedAssembler.CleanupShard` | protocol/udp_fragment.go:375-401 | one turn of the loop expires one shard and keeps the counters exact |
| `UdpStore.ShardedAssembler.Cleanup` | protocol/udp_fragment.go:375-401 | a whole round over the shards is expiry of the single map |
| `UdpStore.ShardedAssembler.Close` | protocol/udp_fragment.go:405-427 | everything goes, both counters are zero |
| `UdpCounters.RunOk` | protocol/udp_fragment.go:358-525 | every interleaving of AddFragment, the cleanup loop and Close, each with its own program counter, shard lock and lifecycle lock, keeps the invariant |
| `UdpCounters.CountersExact` | protocol/udp_fragment.go:358-525 | in every interleaving, with each counter access its own step and every decrement unconditional, the counters are what the shards hold plus what operations under way have reserved or not yet given back, within both limits |
| `UdpCounters.ExactAtRest` | protocol/udp_fragment.go:345-356 | once every operation has finished, whichever way, the counters are exactly the groups and bytes in the shards |
| `UdpCounters.ClosedIsEmpty` | protocol/udp_fragment.go:405-427 | once Close has finished every shard is empty, and stays empty in every continuation |
| `UdpCounters.AloneIsAtomic` | protocol/udp_fragment.go:433-525 | with nobody else under way, AddFragment taken step by step gives the shard, the counters and the outcome of the atomic operation |
| `SessionsProof.RunOk` | client/udp_handler.go:540-681 | every interleaving of dispatch, workers, cleanup, unpublish and Stop keeps the invariant |
| `SessionsProof.BudgetExact` | client/udp_handler.go:124-168 | permits are the sessions that have not given theirs back and stay within the limit, published is the Ready sessions plus the closes still to unpublish, no accounting fault |
| `SessionsProof.OrderKept` | client/udp_handler.go:223-280 | packets queued while collecting stay within both bounds, are written in arrival order and each at most once, and all of them before Ready |
| `SessionsProof.PublishFindsItself` | client/udp_handler.go:735-748 | a session that is not closed is the one installed under its id |
| `SessionsProof.BudgetReturns` | client/udp_handler.go:433-451 | once every worker is gone and every close has unpublished, the budget is as at the start |
| `SessionsStore.SessionBudget.Acquire` | client/udp_handler.go:124-152 | a permit exactly below the limit and without a fault |
| `SessionsStore.SessionBudget.Release` | client/udp_handler.go:124-152 | the permit goes back, or a fault is recorded instead of a negative count |
| `SessionsStore.SessionBudget.Unpublish` | client/udp_handler.go:160-168 | one published less, or a fault |
| `SessionsStore.SessionState.AcceptAndSnapshot` | client/udp_handler.go:223-244 | queues exactly while collecting and within both bounds, and decides by phase otherwise |
| `SessionsStore.SessionState.SealCollecting` | client/udp_handler.go:256-267 | takes the whole queue, once |
| `SessionsStore.SessionState.WriteBatch` | client/udp_handler.go:616-681 | the loop writes a prefix in order and stops at the first write that fails |
| `SessionsStore.SessionState.Close` | client/udp_handler.go:291-333 | closes at most once and says whether it was published |
| `Canonical.SortUniqueOk` | config/mesh.go:1223-1246 | the result is strictly ordered, holds only given values and one for every key |
| `Canonical.SameFormIff` | config/mesh.go:1248-1293 | two lists have the same normal form if and only if the same values come first for their key |
| `Canonical.Compact` | config/mesh.go:1235-1246 | one pass over a sorted list leaves a strictly ordered one with the same keys |
| `Canonical.SortedUnique` | config/mesh.go:1597-1631 | sorting and compacting is the normal form |
| `Canonical.FirstWins` | config/mesh.go:1248-1293 | dropping later duplicates and sorting is the normal form |
| `CanonicalGroup.DefaultsSet` | config/mesh.go:626-661 | after the defaults nothing is left to fill |
| `CanonicalGroup.SetIsFixed` | config/mesh.go:626-661 | and filling again changes nothing |
| `CanonicalGroup.CanonTwice` | config/mesh.go:1208-1221 | normalizing is idempotent through every level |
| `CanonicalGroup.DeclarationIff` | config/mesh.go:1536-1595 | two groups have the same canonical bytes if and only if their scalars are equal and their sets of routes, matches, hostnames and certificates are, with the first header and query of each name |
| `CanonicalParse.CanonValid` | config/mesh.go:821-950 | the normal form of a valid group is valid |
| `CanonicalParse.CanonicalAccepted` | config/mesh.go:1390-1470 | the canonical bytes of a complete group are accepted and read as its id, version and policy |
| `CanonicalParse.FinalizedAccepted` | config/mesh.go:288-304 | every declaration a client finalizes is accepted by the strict parser with the same id, version and defaulted policy |
| `CanonicalParse.AcceptedIff` | config/mesh.go:1390-1470 | bytes are accepted if and only if they are the canonical bytes of some complete group |
| `CanonicalMarshal.NormalizeHostnames` | config/mesh.go:1223-1246 | folding, sorting and compacting is the normal form |
| `CanonicalMarshal.NormalizeHeaders` | config/mesh.go:1248-1270 | folding names and keeping the first of each is the normal form |
| `CanonicalMarshal.MarshalMatches` | config/mesh.go:1536-1595 | the loop over matches is the normal form of a route's matches |
| `CanonicalMarshal.Marshal` | config/mesh.go:1536-1595 | the loops over routes and matches compute the normal form of the group |

## Left out

Assumptions and abstractions:

- SHA-256, JSON, the strict parser as the mesh sees it, hash functions and pattern checks on single fields are arbitrary functions; where the proofs need more, it is stated: digests of 32 bytes, encoders that tell values apart, the decoder inverting the encoder, and for chunk sizes an explicit length (decimal digits plus base64, section 4 of RFC 4648).
- Revisions, versions and identities are unbounded numbers, except where 32 or 64 bits matter: frame sizes, datagram headers and the wrap of the fragment sequence.
- Declarations are shorter than 2^32 bytes in the results on frame sizes.
- Failures of the ledger, the path budget or a context in the replication model are a flag on the action; the ledger has its own model.
- The order in which a snapshot or a pool lists its entries is any enumeration of them; the program sorts or follows map order.
- A queue removes a frame if it equals the one that was taken; the program compares addresses.
- Strings in the canonical form are bytes with ASCII case folding, and hostnames that pass validation are already lower case; enumerated strings are datatypes with a case for any other text.
- Loading certificate files is a function that returns parsed certificates, and none for no files.
- Publication of a group goes through commitClientGroup; the early return of publishGroup on an equal version, which keeps a reference, is not modelled.
- Every pending generation gets one call of PrepareClient or PreparePeer, CommitReceiver is called on inbound generations only, and group ids are not empty, as the callers do. RegistryLosers also assumes that an arbitration is completed or cancelled after its loser was released, and that its inbound side is released after it ended, as prepareInboundPeer does.
- The L7 health of an instance is a flag of its generation.
- QUIC delivers the streams of a connection to accept in the order they were opened.
- What accepting returns on cancellation is over-approximated: it may fail at any moment.

Members that state less than the code does:

- PoolStore.ConnectionPool.RecordStream: nobody races between its load and its swap; the racing form is the steps of PoolState, which the run theorems cover.
- LeasesStore.GenerationLease.AcknowledgeReady: nobody comes between claim and settle; the interleaved form is the steps of Leases, which the run theorems cover.
- UdpStore.ShardedAssembler.AddFragment: one atomic step; UdpCounters takes it step by step, in any interleaving, and shows that alone the steps are this one.
- MeshApply.DeltaApplier.TryApply: the state after a refusal is not stated, because the caller discards it.

Not modelled:

- QUIC, TLS, sockets, DNS, file watching and certificate generation.
- Timers, heartbeats beyond their place in the message order, health expiry, reconnect delays and backoff.
- The registration handshake, authentication and the Ready exchange of a mesh session.
- Metrics, peaks, high-water marks, drop counters, logging, the admin interface and the command line.
- Buffer pools; buffers are values, and only counted capacities are kept.
- Relaying bytes and half-closing streams.
- The UDP session indexes of server/traffic/udp.go, which are updated outside one critical section.
- Forwarding over several hops and probe scheduling; the start index of a round-robin selection is a parameter.
- Limits and defaults of the other configuration sections.
