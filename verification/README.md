# Tako in Dafny

A model of the parts of Tako whose correctness is global (a fixpoint, a whole run, a crash
point or an interleaving), with proofs about all inputs, all runs or all reachable states.
`dafny verify dfyconfig.toml` checks everything.

- **Membership registry** (`Registry`, `EffectiveMembers`, `RegistryLaws`, `RegistryRuns`).
  A snapshot of admissions and denials is validated by one scan and evaluated by a
  least-fixpoint loop. The declarative side is the finite approval chain to a root. Laws of
  the evaluation: convergence of replicas, attenuation, lifetime. Laws of runs: approvals and
  revocations keep the registry valid, a member stays effective until it is cut off, a
  denial is final.
- **Its storage** (`Projection`, `PagedScan`, `StoredSnapshot`). Rows are read page by page
  with a page size that is halved when a response is too large, and projected one by one. The
  scan refines the plain fold over the table, and the resulting snapshot is the set of stored
  records, with the latest acknowledgements as far as they fit.
- **Linearizability checker** (`History`). The bitmask search is sound and complete.
- **Crash recovery** (`Scripts`, `LeafRenewal`, `IdentityDirectory`, `OwnershipJournal`,
  `NetworkHost`). Two protocols as sequences of durable effects that may stop after any one
  of them: leaf certificate renewal, and the ownership journal of the root network helper.
  The pure scripts carry the theorems; the classes perform the same steps in place and are
  proved to run exactly those scripts up to the crash.
- **Compose rollout** (`Planner`, `Engine`, `RolloutPlan`, `DependencyWaits`, `RolloutState`,
  `Rollout`, `RestoreOrder`, `Rollback`). The depth-first planner, and `apply`, `finish`, `changes` and
  `rollback` against an engine whose commands may fail and whose containers change while the
  rollout waits. Every command is logged with the containers it found and those seen ready
  before, so the safety properties are about each command of each run. Results that
  need the containers to stay as they were seen say so: they hold for a steady engine, in which
  only the container waited for changes during a wait. A reliable engine is one in which
  stopping and removing do not fail.
- **Channel delivery** (`Delivery`, `Subscriber`, `WebSocket`, `ChannelCache`). Commits,
  notifications and the serving loop in any interleaving; the frame codec with incremental
  parsing; the two-build cache with invalidation during a load.
- **Enrollment framing** (`Enrollment`, `Bytes`). The signed bytes determine the signed fields.

Library functions (hashes, signatures, decoders, encoded sizes) are parameters, and every
statement holds for any choice of them.

## Where a promise needs a condition

These were found by proving the exact condition; the code is modelled as it is.

- A tree whose root lacks `server_admin` holds no server *below* the root; the root itself
  may be a server (`RegistryLaws.TreeHoldsServerOnlyAtRoot`, `RootWithoutServerAdminMayBeServer`).
- Evaluation does not depend on the order of records, but approval does
  (`RegistryRuns.ApprovalDependsOnOrder`). An approval is independent of the order if and only
  if no other record clashes with the member (`RegistryRuns.ApprovalIgnoresOrder`).
- A ready container may be stopped when another match of its slot is listed first and is not
  ready (`Rollout.ReadyTwinIsStopped`). A stop-first slot leaves a healthy match as it is if
  and only if the match listed first is ready (`Rollout.Pending.PlaceListed`). What was stopped
  for a candidate stays down, unless it has the candidate's generation, which is started as a
  whole (`Rollout.Pending.BringUp`).
- A dependency is seen in its condition before its consumer is started, but it may have left
  it again by then (`DependencyWaits.DependencyMayBeGone`, `Rollback.ProviderMayBeGone`). At
  every start it is still in it if the engine is steady and each service is named once among the
  dependencies, as in the source's map, if the condition is completion, or if it was awaited
  last of all (`Rollout.Pending.Apply`, `Rollback.Rollback`). Otherwise any later wait
  that has to poll again can end it (`DependencyWaits.LaterWaitMayEndIt`).
- An `apply` in a settled world gives no command, and yet it can fail: the wait for a finished
  job passes only as a wait for completion (`Rollout.SettledUpdateMayFail`). It succeeds if and
  only if every dependency wait passes and the ingress has a slot (`Rollout.RolloutTwice`).
- `rollback` does not notice a predecessor that was not running and has vanished. All
  predecessors are left if and only if none of those had vanished (`Rollback.Rollback`); one
  that has is lost without an error (`Rollback.VanishedIsNotNoticed`). After an `apply`, which
  removes nothing, none has (`Rollback.ApplyThenRollback`).
- After a successful rollback in a steady engine a predecessor that was up runs again if and
  only if no predecessor that was up and did not run at the call waits for its completion
  (`Rollback.Rollback`); one that stayed running can end completed
  (`Rollback.JobCompletesForConsumer`).
- An uninterrupted `renew` is accepted if and only if the issuers and the leaves it plans are
  still valid at its second clock reading; within 30 days of the first the leaves are
  (`LeafRenewal.UninterruptedCompletes`). A call right after preparation that
  takes a year is refused (`LeafRenewal.SlowCallIsRefused`).
- A Postgres subscriber of an empty channel has no cursor, and a read without a cursor does
  not look at the floor. A message pruned before that read is lost without an error
  (`Delivery.PrunedBeforeFirstRead`); a quiet loop has emitted an announced message if and
  only if it was not pruned that way (`Delivery.NoLostWakeup`).
- `read_rows` starts after the empty key, so it sees the whole table if and only if no row
  has the empty key (`PagedScan.ScanSeesAll`, `PagedScan.EmptyKeyIsSkipped`).
- A frame is parsed back if and only if its length is allowed: control frames over 125 bytes
  and payloads over 128 MiB are encoded and then rejected (`WebSocket.EncodeRoundTrip`).

## Model

| member | source | states |
|---|---|---|
| `Registry.Validate` | tako-network/src/registry.rs:284-333 | one scan with lookup maps accepts exactly the snapshots whose records are valid and pairwise compatible |
| `Registry.ScanMember` | tako-network/src/registry.rs:289-322 | one member is rejected exactly when it is invalid or clashes with a scanned one, and the maps then describe one more member |
| `EffectiveMembers.AdmittedUnfold` | tako-network/src/registry.rs:346-379 | having a finite live, undenied, delegated chain to a root is the same as being a root or being approved by an admitted member |
| `EffectiveMembers.Fixpoint` | tako-network/src/registry.rs:354-378 | the rounds end with only admitted members in the map and nothing pending that could still join |
| `EffectiveMembers.Evaluate` | tako-network/src/registry.rs:346-379 | fails exactly on invalid snapshots, else returns exactly the admitted members |
| `EffectiveMembers.EffectiveMapUnique` | tako-network/src/registry.rs:346-379 | a snapshot and a time determine the effective map |
| `EffectiveMembers.CycleNeverAdmitted` | tako-network/src/registry.rs:346-379 | nobody on an approval circle is admitted |
| `EffectiveMembers.NoCycleNoOrphan` | tako-network/src/registry.rs:346-379 | the returned map holds nobody on a circle and nobody whose approver is missing from it |
| `RegistryLaws.EffectiveMapGrows` | tako-network/src/registry.rs:284-379 | among valid snapshots the map grows with members and shrinks with denials |
| `RegistryLaws.Convergence` | tako-network/src/registry.rs:284-379 | the same records in any order and multiplicity are both rejected or give the same map |
| `RegistryLaws.EvaluateReplicas` | tako-network/src/registry.rs:346-379 | two evaluations of replicas with the same records return equal results |
| `RegistryLaws.AncestorsAdminister` | tako-network/src/registry.rs:50-56 | every proper ancestor in an approval chain has network_admin |
| `RegistryLaws.TreeStaysWithinRoot` | tako-network/src/registry.rs:50-56 | below a root without server_admin there is no server admin, no deployment outside the root's, and no SSH user but the root's |
| `RegistryLaws.TreeHoldsServerOnlyAtRoot` | tako-network/src/registry.rs:223-232 | in such a tree a member is a server if and only if it is the root and the root is one |
| `RegistryLaws.RootWithoutServerAdminMayBeServer` | tako-network/src/registry.rs:346-379 | a concrete valid snapshot whose root is a server without server_admin |
| `RegistryLaws.AncestorsOutlive` | tako-network/src/registry.rs:219-232 | an ancestor's interval covers its descendants' |
| `RegistryLaws.EffectiveForOwnInterval` | tako-network/src/registry.rs:219-232 | in a fixed snapshot a member is effective never, or exactly during its own interval |
| `RegistryRuns.Approve` | tako-network/src/registry.rs:415-489 | returns the member exactly when the request, the authority and the bindings allow it |
| `RegistryRuns.CheckBindings` | tako-network/src/registry.rs:469-488 | the first clashing record decides |
| `RegistryRuns.ApprovalExtends` | tako-network/src/registry.rs:415-489 | appending an approved member keeps the snapshot valid, makes it effective at its creation and loses nobody |
| `RegistryRuns.ApprovalIgnoresOrder` | tako-network/src/registry.rs:469-488 | an approval holds for every order of the same records if and only if no other record clashes with the member |
| `RegistryRuns.ReplicasAct` | tako-network/src/registry.rs:415-531 | one replica approves a member, another one approves a device with the same address and then plans its denial |
| `RegistryRuns.ApprovalDependsOnOrder` | tako-network/src/registry.rs:469-488 | their merged records are valid, approve the member in one order and refuse it in the other |
| `RegistryRuns.PlanRevocation` | tako-network/src/registry.rs:491-531 | returns exactly the denial of a verified target's device and keys, with all servers captured, for an effective administrator |
| `RegistryRuns.RevocationStaysValid` | tako-network/src/registry.rs:491-531 | appending a planned denial keeps the snapshot valid |
| `RegistryRuns.RevocationCutsSubtrees` | tako-network/src/registry.rs:335-343 | it removes exactly the members with a denied self or ancestor and admits nobody |
| `RegistryRuns.ChainUnique` | tako-network/src/registry.rs:346-379 | a member's approval chain is the same in every later snapshot and at every time |
| `RegistryRuns.MembershipPersistsUntilCutOff` | tako-network/src/registry.rs:346-379 | in every later valid snapshot an admitted member is admitted if and only if it is live and its chain is not denied |
| `RegistryRuns.RunStaysValid` | tako-network/src/registry.rs:415-531 | every state of a run of approvals, revocations and acknowledgements is valid and extends the earlier ones |
| `RegistryRuns.RunDecidesMembership` | tako-network/src/registry.rs:415-531 | over a whole run a member is effective if and only if it is live and not cut off |
| `RegistryRuns.DeniedForever` | tako-network/src/registry.rs:335-379 | over a whole run, from the first denial of a member or an ancestor on, the member is effective in no state and at no time |
| `RegistryRuns.RevocationProgress` | tako-network/src/registry.rs:544-568 | applied and pending partition captured and current servers, applied being those with an acknowledgement of their current boot |
| `RegistryRuns.LostAcksOnlyDelay` | tako-network/src/registry.rs:533-568 | with fewer acknowledgements applied shrinks, pending grows and their union stays |
| `Projection.OneRowPerRecord` | tako-network/src/corrosion.rs:487-498 | comparing neighbours in key order detects every pair with equal kind and ID and different digests |
| `Projection.ConflictHasTwoVersions` | tako-network/src/corrosion.rs:487-498 | a record conflict is reported only for two versions of one record |
| `Projection.ProjectionContents` | tako-network/src/corrosion.rs:487-545 | a projection holds the decoded members and denials of all rows in key order and the kept acknowledgements, within both limits, and knows whether the network row was there |
| `Projection.LatestAcksAreKept` | tako-network/src/corrosion.rs:525-536 | kept are the last acknowledgements of each revocation and server in key order, all of them while there is room |
| `Projection.BoundProjection` | tako-network/src/corrosion.rs:589-607 | succeeds exactly when members and denials fit; keeps them, keeps a subsequence of acknowledgements, meets the row and the byte limit, and drops nothing that fits as a whole |
| `Projection.BoundingOnlyDelays` | tako-network/src/corrosion.rs:588-607 | after bounding, applied can only shrink, pending only grow, and they partition the same servers |
| `PagedScan.RecordProjection.Push` | tako-network/src/corrosion.rs:487-545 | updates the fields, or fails, as the projection of one row says |
| `PagedScan.FetchPage` | tako-network/src/corrosion.rs:183-196 | halving ends, with the next rows after the cursor, unless the store is not reliable or some row does not fit alone |
| `PagedScan.CheckOrder` | tako-network/src/corrosion.rs:203-210 | on an unchanged table the page order error cannot occur |
| `PagedScan.RemainingRows` | tako-network/src/corrosion.rs:184-188 | after any number of delivered rows the cursor query offers exactly the rest |
| `PagedScan.ReadRows` | tako-network/src/corrosion.rs:172-213 | whatever pages come back, the scan terminates and equals the fold over all rows, each once and in key order; with a reliable store and rows that fit alone it never fails otherwise |
| `PagedScan.ScanSeesAll` | tako-network/src/corrosion.rs:181-188 | all rows are seen if and only if none has the empty key |
| `PagedScan.EmptyKeyIsSkipped` | tako-network/src/corrosion.rs:181-188 | a table that projects with an error but scans without one |
| `StoredSnapshot.AllFitTogether` | tako-network/src/corrosion.rs:589-607 | whether the latest acknowledgements fit does not depend on their order, and if they fit none is missing |
| `StoredSnapshot.Finish` | tako-network/src/corrosion.rs:547-555 | succeeds if and only if the network row is there and members and denials fit and are valid; the snapshot holds them and latest acknowledgements, all of these if they fit |
| `StoredSnapshot.ReadSnapshot` | tako-network/src/corrosion.rs:172-213 | the snapshot read from a table is the plain set of its records; a reliable store with rows that fit alone yields it if and only if the rows project and finish |
| `History.FirstChoice` | test-support/history.rs:31-44 | an explanation starts with an unblocked accepted operation and goes on with one of the rest |
| `History.ClearBit` | test-support/history.rs:41 | clearing a bit removes exactly that operation from the set |
| `History.Search` | test-support/history.rs:22-46 | true if and only if the remaining operations have an order that respects real time and that the model accepts |
| `History.Linearizable` | test-support/history.rs:13-48 | true if and only if the whole history has such an order |
| `LeafRenewal.PreparedIsGood` | tako-network/src/server_identity.rs:471-520 | a freshly prepared identity satisfies the invariant of every later call |
| `LeafRenewal.InstallAlways` | tako-network/src/server_identity.rs:907-913 | installing passes only through disks the journal explains and ends in the replacement generation |
| `LeafRenewal.RenewAlways` | tako-network/src/server_identity.rs:157-209 | every disk that a call can leave behind, for any property of disks |
| `LeafRenewal.CrashKeepsInv` | tako-network/src/server_identity.rs:157-209 | a crash after any effect, also during recovery, leaves a disk the next call can work with |
| `LeafRenewal.UninterruptedCompletes` | tako-network/src/server_identity.rs:157-209 | an uninterrupted call clears the journal, leaves leaf and chain equal, never shortens, lasts long enough, and is accepted, with a disk that loads, exactly while issuers and planned leaves are valid at the second reading |
| `LeafRenewal.SlowCallIsRefused` | tako-network/src/server_identity.rs:157-209 | a call right after preparation whose second reading is a leaf's lifetime later is refused without effects, although the issuers are valid |
| `LeafRenewal.LoadSeesOneGeneration` | tako-network/src/server_identity.rs:134-142 | at every crash point a disk that loads holds one generation of both pairs, never a mixture |
| `LeafRenewal.HistoryKeepsInv` | tako-network/src/server_identity.rs:157-226 | any history of interrupted calls with a clock that does not go back keeps the invariant |
| `LeafRenewal.RenewRecovers` | tako-network/src/server_identity.rs:157-226 | after any such history one uninterrupted call with valid issuers is accepted, complete and loadable |
| `IdentityDirectory.Directory.WriteAtomic` | tako-network/src/server_identity/secure.rs:49-71 | staging and renaming run the modelled effects up to the crash |
| `IdentityDirectory.Directory.DiscardStage` | tako-network/src/server_identity/secure.rs:25-33 | a leftover staging file is removed, nothing else changes |
| `IdentityDirectory.Directory.ReplacePath` | tako-network/src/server_identity/secure.rs:42-47 | a file is rewritten only if it differs |
| `IdentityDirectory.Directory.InstallAll` | tako-network/src/server_identity.rs:907-913 | both roles are installed and the journal removed, in the script's order |
| `IdentityDirectory.Directory.RunRenew` | tako-network/src/server_identity.rs:157-209 | the in-place call performs exactly the renewal script up to the crash |
| `IdentityDirectory.Directory.Renew` | tako-network/src/server_identity.rs:157-209 | keeps the invariant wherever it stops; if not stopped it is accepted exactly when the issuers are valid at both readings and the planned leaves at the second, and has then renewed both roles and loads |
| `OwnershipJournal.CoveredKeepsWorking` | scripts/tako-network-helper.py:601-688 | a command covered by the saved record keeps everything on the link inside the journal |
| `OwnershipJournal.ProposedIsWorking` | scripts/tako-network-helper.py:601-688 | the first save already covers all that is on the link and all that will be put there |
| `OwnershipJournal.ReconcileResult` | scripts/tako-network-helper.py:601-688 | the kernel commands end with exactly the desired address and peer routes |
| `OwnershipJournal.ApplyAlways` | scripts/tako-network-helper.py:601-688 | a call keeps the invariant at every step, touches no other network, and reaches the desired state if not stopped |
| `OwnershipJournal.RetryIsAccepted` | scripts/tako-network-helper.py:344-391 | wherever a call stops, even if the link is then taken down, the same request is accepted again |
| `OwnershipJournal.RemoveAlways` | scripts/tako-network-helper.py:690-706 | removal keeps the record until the link is gone |
| `OwnershipJournal.RemovalCanBeRepeated` | scripts/tako-network-helper.py:690-706 | wherever removal stops it is accepted again |
| `OwnershipJournal.HistoryKeepsInv` | scripts/tako-network-helper.py:601-741 | over any history of calls, crashes, failures and reboots addresses and routes stay journaled and no link is orphaned |
| `OwnershipJournal.LeftoversAreRecognised` | scripts/tako-network-helper.py:318-391 | after any such history the helper's own leftovers are not rejected as foreign |
| `OwnershipJournal.CompletedApplyIsExact` | scripts/tako-network-helper.py:601-688 | after any such history an accepted, uninterrupted call ends with exactly the desired address and routes, on the link and in the journal |
| `NetworkHost.Host.RunApply` | scripts/tako-network-helper.py:601-688 | rejects without a trace, or performs exactly the script up to the crash |
| `NetworkHost.Host.Apply` | scripts/tako-network-helper.py:601-688 | keeps the invariant wherever it stops, accepts the same request again, and when done leaves exactly the desired address and routes and a settled record |
| `NetworkHost.Host.ReconcileLink` | scripts/tako-network-helper.py:601-688 | addresses and routes are changed command by command as the script says |
| `NetworkHost.Host.RunRemove` | scripts/tako-network-helper.py:690-706 | performs exactly the removal script up to the crash |
| `NetworkHost.Host.Remove` | scripts/tako-network-helper.py:690-706 | keeps the invariant wherever it stops, can be repeated, and when done leaves neither record nor link |
| `Planner.Visitor.Visit` | tako-compose/src/plan.rs:315-346 | visiting appends the service after its dependencies, keeps the order, and fails only if the graph is not well formed |
| `Planner.OrderedIsAcyclic` | tako-compose/src/plan.rs:223-235 | a complete dependency-first order exists only for closed graphs without cycles |
| `Planner.Order` | tako-compose/src/plan.rs:223-235 | succeeds if and only if the graph is closed, acyclic and every dependency has replicas; the order has each service once, dependencies first |
| `Planner.MarkedSameGraph` | tako-compose/src/plan.rs:138-153 | marking completed jobs leaves the dependency graph as it is |
| `Planner.NewPlan` | tako-compose/src/plan.rs:138-153 | succeeds if and only if the graph is well formed and the ingress is not a job |
| `Planner.PlanPutsDependenciesFirst` | tako-compose/src/plan.rs:223-235 | in a plan every dependency of a service comes before it with at least one replica |
| `Engine.Docker.WaitReady` | tako-compose/src/rollout.rs:389-471 | containers that are up may change meanwhile, those that are down stay down; passes only in the awaited container's unchanged lifecycle and with the condition met, and one observation that decides takes no time |
| `Engine.Docker.Create` | tako-compose/src/engine.rs:49-86 | adds at most one container, of the slot's generation, and reuses an existing one |
| `Engine.Docker.StartGeneration` | tako-compose/src/engine.rs:143-164 | may start every container of the generation and no other; those that run are untouched and those that come up begin a new lifecycle |
| `Engine.Docker.Remove` | tako-compose/src/engine.rs:166-176 | stops and removes only that container |
| `RolloutPlan.ReadyMatchIsLeftAlone` | tako-compose/src/rollout.rs:134-189 | a permitted command, also the start of a whole generation, is for a ready match only because of another match that is not ready |
| `DependencyWaits.WaitsCoverPlan` | tako-compose/src/rollout.rs:138-143 | when the waits for a service have passed, every planned replica of every dependency was seen in its condition |
| `DependencyWaits.WaitsMeetPlan` | tako-compose/src/rollout.rs:138-143 | when they have passed, every planned replica is still in its condition in a steady engine, and otherwise those awaited as completed and the one awaited last |
| `DependencyWaits.OnlyCompletedStays` | tako-compose/src/rollout.rs:389-471 | a condition that was met survives all passing of time if and only if it is completion |
| `DependencyWaits.LaterWaitMayEndIt` | tako-compose/src/rollout.rs:138-143 | any other condition that is met can be ended by a later wait that has to poll again and then passes |
| `DependencyWaits.DependencyMayBeGone` | tako-compose/src/rollout.rs:138-143 | a plan and a start that the rollout may give although a dependency has left its condition |
| `RolloutPlan.SelectedIsPlanned` | tako-compose/src/rollout.rs:138-143 | the selection so far holds exactly the planned replicas of each earlier service |
| `RolloutPlan.DependencyWaitIsNotVacuous` | tako-compose/src/rollout.rs:138-143 | when a service is reached each dependency has its planned replicas selected, at least one |
| `RolloutState.PlannerMarksJobs` | tako-compose/src/plan.rs:138-153 | in a planner's plan whatever somebody waits to complete is planned as a job |
| `RolloutState.DoneDecidesWait` | tako-compose/src/rollout.rs:389-471 | a finished container decides a wait at once; it passes if and only if job waits meet jobs and other waits meet services |
| `RolloutState.SelectedDecide` | tako-compose/src/rollout.rs:138-143 | in a settled world the waits for a service pass if and only if whatever serves its dependencies meets their conditions |
| `RolloutState.Changes` | tako-compose/src/rollout.rs:367-386 | lists a service with its order exactly when a planned slot is not ready or a surplus slot exists |
| `RolloutState.SettledHasNoChanges` | tako-compose/src/rollout.rs:367-386 | a settled world has no changes |
| `Rollout.Pending.StopPredecessors` | tako-compose/src/rollout.rs:161-177 | before a stop-first start everything that the candidate excludes is down, and the first such container that was up is commanded first |
| `Rollout.Pending.BringUp` | tako-compose/src/rollout.rs:159-187 | a ready candidate gets no command; before any other stop-first candidate starts, all it excludes is stopped and stays down unless it has the candidate's generation; other planned services are untouched |
| `Rollout.Pending.PlaceListed` | tako-compose/src/rollout.rs:144-187 | a stop-first slot leaves a healthy match as it is if and only if the match listed first is ready |
| `Rollout.ReadyTwinIsStopped` | tako-compose/src/rollout.rs:161-177 | two matches of a slot whose first command stops the ready one |
| `Rollout.Pending.AwaitDependencies` | tako-compose/src/rollout.rs:138-143 | once the waits pass, every planned replica of every dependency was seen in its condition and still is in it as far as it lasts; in a settled world they pass if and only if those are met |
| `Rollout.Pending.Apply` | tako-compose/src/rollout.rs:134-227 | every command is permitted (a start is exclusive, and its dependencies were seen in their conditions and at that moment are in those that last), nothing is removed; on success each planned slot has one container seen done; a settled world gets no command and success is exactly that all waits pass and the ingress has a slot |
| `Rollout.Pending.Finish` | tako-compose/src/rollout.rs:340-365 | on success, which a reliable engine guarantees, exactly the selected containers are left, untouched |
| `RolloutState.SelectedIsSettled` | tako-compose/src/rollout.rs:340-365 | nothing but selected containers that are as they were seen is a settled world |
| `Rollout.ApplyAndFinish` | tako-compose/src/rollout.rs:134-227 | a successful update leaves exactly one container for each planned slot, seen done; settled in a steady engine or while they are as seen |
| `Rollout.RolloutTwice` | tako-compose/src/rollout.rs:367-386 | a second rollout of a settled plan reports no change, gives no command, and succeeds if and only if all waits pass and the ingress has a slot |
| `Rollout.SettledUpdateMayFail` | tako-compose/src/rollout.rs:138-143 | a settled plan, with a job awaited as started and later as completed, whose update fails without a command |
| `RestoreOrder.OrderHasNoLoop` | tako-compose/src/rollout.rs:263-278 | predecessors that could all be taken in order have no dependency loop |
| `RestoreOrder.StuckHasLoop` | tako-compose/src/rollout.rs:263-271 | when no predecessor can be taken there is a loop |
| `Rollback.Clear` | tako-compose/src/rollout.rs:234-253 | on success, which a reliable engine guarantees, only predecessors are left and those that were not up are down; those that were up are untouched, and nothing is started |
| `Rollback.Restore` | tako-compose/src/rollout.rs:291-336 | a running predecessor gets no command; any other is started only when every provider of every dependency was seen in its condition and is in it as far as it lasts; in a steady engine only what it needs has changed, and what restarted predecessors wait to complete has completed |
| `Rollback.RestoreAll` | tako-compose/src/rollout.rs:254-278 | the loop error is reported if and only if the predecessors' graph has a loop; in a steady engine exactly the predecessors that did not run before are restarted |
| `Rollback.Rollback` | tako-compose/src/rollout.rs:231-289 | on success only predecessors are left, those that were up were seen running and the others are down, and in a steady engine one that was up runs if and only if no predecessor that was up and did not run at the call awaits its completion; every start finds no replacement and its dependencies ready; with a reliable engine, no loop and all that were up running it succeeds and leaves those alone |
| `Rollback.VanishedIsNotNoticed` | tako-compose/src/rollout.rs:231-289 | a rollback that succeeds although its only predecessor, which was not up, is gone |
| `Rollback.ProviderMayBeGone` | tako-compose/src/rollout.rs:304-330 | a start that the rollback may give although a dependency has left its condition |
| `Rollback.ConsumerWaitsForJob` | tako-compose/src/rollout.rs:304-330 | an input where a consumer waits until a job that stayed running completes |
| `Rollback.JobCompletesForConsumer` | tako-compose/src/rollout.rs:231-289 | its rollback ends successfully with the job no longer running |
| `Rollback.ApplyThenRollback` | tako-compose/src/rollout.rs:231-289 | an attempt that is rolled back leaves exactly the containers it found; in a steady engine those that were up run, except the ones awaited as completed by predecessors that did not run when the attempt ended |
| `Delivery.ReadKeeps` | tako-channels/src/live_store.rs:420-432 | a read keeps the invariant: its page is the next messages owed, all of them if it is short, or the stream ends as stale |
| `Delivery.EmitKeeps` | tako-channels/src/live_store.rs:434-452 | emitting keeps the invariant: emitted and owed messages together are those after the start |
| `Delivery.StepKeepsInv` | tako-channels/src/live_store.rs:379-474 | every step of publisher, poll, pruning and subscriber keeps the invariant |
| `Delivery.NoLostWakeup` | tako-channels/src/live_store.rs:387-474 | in every run a blocked loop is marked changed or has emitted every announced message, up to those skipped; emitted messages are the first after the start, once and in order; skipped ones were pruned and only for an empty Postgres channel |
| `Delivery.PrunedIsLost` | tako-channels/src/store/postgres.rs:101-146 | without a cursor a loop that finds everything pruned sleeps and reports nothing |
| `Delivery.PrunedBeforeFirstRead` | tako-channels/src/store/postgres.rs:101-146 | a run that loses an announced message |
| `Delivery.GapEndsStream` | tako-channels/src/store.rs:493-511 | after a gap signal only the page already checked is still emitted, in every run |
| `Subscriber.Watches.NotifyCommitted` | tako-channels/src/mesh.rs:49-60 | a head replaces only an older one, on that channel only |
| `Subscriber.Watches.Wake` | tako-channels/src/mesh.rs:99-106 | with a head as above, without one every receiver is marked changed |
| `Subscriber.Watches.Changes` | tako-channels/src/store.rs:175-182 | a new receiver has seen exactly the current version |
| `Subscriber.Watches.Poll` | tako-channels/src/store.rs:130-146 | after a poll no watched channel lags behind a polled head, and no head has moved back |
| `Subscriber.HeadsNeverRegress` | tako-channels/src/mesh.rs:49-60 | over every run the watched head only moves forward, and each change counts as one |
| `Subscriber.Serve` | tako-channels/src/live_store.rs:419-474 | left alone the loop ends or sleeps with every message after its start emitted; with a cursor it ends if and only if a reset is pending or the cursor is stale |
| `WebSocket.ParseIsStable` | tako-channels/src/websocket.rs:32-122 | later bytes never change a parsed frame or error |
| `WebSocket.EncodeRoundTrip` | tako-channels/src/websocket.rs:237-251 | parsing an encoded frame returns it and leaves the rest if and only if its length is allowed |
| `WebSocket.MaskedRoundTrip` | tako-channels/src/websocket.rs:88-118 | the same for masked frames |
| `WebSocket.StreamRoundTrip` | tako-channels/src/websocket.rs:27-123 | a stream of sendable frames, each masked or not, is read back as those frames, whatever follows |
| `WebSocket.ChunkingIsInvisible` | tako-channels/src/websocket.rs:27-123 | any chunking yields the frames, the first error and without error the residue of the whole stream |
| `WebSocket.Unmask` | tako-channels/src/websocket.rs:113-118 | the in-place loop masks every byte with its position's key byte |
| `WebSocket.FrameReader.NextFrame` | tako-channels/src/websocket.rs:32-122 | returns and drains the first frame, or leaves the buffer as it is |
| `WebSocket.ReadStream` | tako-channels/src/websocket.rs:27-123 | the reader fed with any chunks returns the frames and the error of the whole stream |
| `ChannelCache.StepKeepsInv` | tako-channels/src/registry.rs:23-74 | every step of every request and invalidation keeps the invariant |
| `ChannelCache.TwoBuilds` | tako-channels/src/registry.rs:40-52 | in every run each app has at most two builds, none twice |
| `ChannelCache.SharersAgree` | tako-channels/src/registry.rs:55-65 | requests that returned from one cell have the same load, app and build |
| `ChannelCache.FilledForGood` | tako-channels/src/registry.rs:55-65 | one successful load decides a cell for the rest of every run |
| `ChannelCache.NoStaleDefinitions` | tako-channels/src/registry.rs:53-74 | a request that began after an invalidation never returns a load that began before it |
| `ChannelCache.DetachedStays` | tako-channels/src/registry.rs:53-74 | a dropped or invalidated cell never re-enters the cache |
| `ChannelCache.ChannelRegistry.GetOrInsert` | tako-channels/src/registry.rs:40-52 | returns the build's cell or inserts the new one, evicting the oldest of two |
| `Enrollment.CanonicalBytes` | tako-network/src/enrollment.rs:78-108 | appending field by field gives the canonical encoding |
| `Enrollment.SameOptional` | tako-network/src/enrollment.rs:81-103 | an optional field is recognised whatever follows it |
| `Enrollment.SamePrefixed` | tako-network/src/enrollment.rs:111-114 | so is a length-prefixed field whose length does not wrap |
| `Enrollment.CanonicalIsInjective` | tako-network/src/enrollment.rs:78-114 | equal signed bytes mean equal signed fields, for every combination of optional fields |

## Left out

- Cryptography, X.509, PEM and JSON encodings: parameters of the model.
- Certificates' names, usages and key files: a certificate is an issuer, a serial and an interval.
- Bridges, DNS servers, firewall rules and WireGuard peers of the network helper: of DNS only the additional save is modelled.
- Docker, Compose models, image checks and fingerprint computation: the engine is a set of containers with commands that may fail, listings and inspections do not fail, commands and observations take no time, and a container changes only by a command on it or, while it is up, during a wait.
- The one-second monitor windows, keepalives and deadlines: a wait may end at any poll.
- Concurrency of the readiness waits and of the removals in `finish`: they are taken one after the other.
- Rollout.ApplyAndFinish: assumes that no container of another fingerprint shares a planned generation's 24-character prefix.
- Rollout.RolloutTwice: assumes the same; its second half is about a first update that left a settled world, which the first update guarantees in a steady engine or while the containers are as they were seen.
- SQL of the SQLite and Postgres backends: commits have rising positions, and a read is one atomic snapshot.
- Ephemeral channels, presence and remote ingest: not part of this model.
- Delivery: one channel and one subscriber; others only share the watch.
- ChannelCache: which channel a request asks for within the loaded definitions.
- PagedScan.ReadRows: rows that change during the scan; rows with columns that are not text; which response sizes fit is a parameter.
- Projection.BoundProjection: arithmetic overflow of 64-bit byte counts, which the limits exclude.
- Registry timestamps and 64-bit overflow: times are unbounded natural numbers.
- The HTTP proxy, the command line, the Go and JavaScript SDKs, image transforms, installers and the website: request routing, process handling and file layout around the protocols above.
