# Verified model of the intent tier

This project models, in Dafny, the parts of the system that decide what happens
on a fabric: the controller that drives an SRv6Service from its spec to verified
device state and back, the identifier store it claims from, the compiler from an
operator's service intent to per-node device work, and the transformations the
fabric executor applies on the way to a node. It proves properties of whole runs,
of whole renders and of all inputs.

`dafny verify dfyconfig.toml` checks everything.

## How the model is laid out

**Reconcile passes.** `ServiceObjects` holds the stored object, its status and
the per-node plan. `PassMachine` is one pass cut at its external calls: each step
is one call to the API server or the executor with the local work up to the next
call, and the answers are adversarial (an API write may fail having landed or
not, an apply may be accepted, rejected, unreachable or permanently refused). A
run is any interleaving of the passes of any number of services with operator
creates, edits and deletes and with other lease holders. `PassInvariant`,
`PassPreservation` and `PassRuns` prove the invariant over every run;
`PassSafety`, `PassRecord`, `PassApplied`, `PassSilence` and `PassFailover` draw the
results (`PassFits` carries what a pass keeps from stage to stage). `PassApplied`
sets the record against the last Apply call on each node, and `PassDevices` reads
the calls of a run as writes on the nodes. `PassDrive`, `PassRace`, `PassReturn` and
`PassRepair` build runs with a given end, at every site; `Srv6Runs` and `Srv6Return`
have them at the site of a controller with given facts, and on two concrete leaves.
`Reconciler` is the same pass as the sequential code it is: a class whose methods
drive the store and the executor call by call, with others acting in between;
every execution of it is a run of the machine, so the results hold of the code.

**Identifiers.** `Leases` has the allocator three times: as a function of a quiet
store, as a protocol whose calls interleave with creates and releases by others,
and as a class with the loops of the source. `ClaimNames` has the deterministic
claim names and the create.

**Devices.** `Devices` reads ops as writes over a map of rows, routes and client
addresses. `Fabric` has the executor's op loop, the ordered apply and rollback,
and the update that removes, applies and restores. `Srv6Render`, `Srv6Laws` and
`Srv6Site` have the SRv6 renderer and its laws, `Srv6Delete` what a delete, a
rollback beside another service and a rejected removal leave on a node;
`PathTable` reads the observed path back; `Conditions` is the in-place condition
list.

**Network compiler.** `Intent` folds the operator's vocabulary, `IntentCheck`
validates, `Translate` maps to a Network, `NetworkRender` and `NetworkBuild`
render it, `NetworkLaws`, `NetworkChecks` and `ShadowedRule` prove what the plans
do on a device, and `FailingInputs` has accepted inputs on the failing side of
two of the conditions; `L3Vlans` and `SiteNames` are shared parts.

**Executor and printing.** `Promotion`, `ShellQuoting`, `StreamDemux`,
`StringSort` and `CanonicalJson`.

## What the proofs found

Each of these is a lemma, with the exact condition where the code does meet the
property.

- `status.nodes` is never stored: every status write takes its base snapshot
  after the list was set (`PassSafety.NodeStatusNeverStored`).
- An update's record write, and a drift note, are answered with the stored object,
  spec included, and the pass goes on with that spec and the hashes of the plan it
  rendered before. In every run the record is that of one render exactly when no
  pass refreshed with a spec of other hashes got to write its record
  (`PassRecord.RecordedHashesMatchAppliedSpec`). At every site, over every settled
  service, an edit that lands inside an update breaks the record exactly when the
  two specs have different hashes (`PassRace.EditDuringUpdateBreaksRecord`). When it
  takes the first edit back, the next pass removes nothing, and all that only the
  first edit's render made stays on its node (`PassReturn.FirstEditStays`). Moving an
  attachment to another port and back is such an edit (`Srv6Runs.PortEditBreaksRecord`;
  on two concrete leaves `Srv6Runs.RaceHappens`, and the left port's row that stays on
  leaf01, `Srv6Return.FirstEditRowStays`).
- A pass that skips its apply does not have to stand over the ops it applied last.
  The hash test reads the record alone, and these ways out of a pass leave a node
  with something else under an unchanged record: a removal or an update apply whose
  record does not land, a restore the node does not accept, a failed repair or the
  rollback after it, and a delete's rollback. In every run a skip is over the ops
  last applied on a node exactly when no such step left the node off its record
  without a later record of its own or an accepted apply of the recorded ops
  (`PassApplied.SkippedApplyIsLastApplied`; of any moment, `PassApplied.RecordIsLastApplied`).
  At every site, over every settled service, an edit that is applied, fails its first
  check and is taken back leaves the next pass skipping over the edit's ops
  (`PassReturn.EditBackSkips`), and a repair that a node rejects leaves it skipping over
  rolled-back nodes (`PassReturn.FailedRepairSkips`, with the renderer
  `Srv6Return.FailedRepairEmptiesNodes`), against the comment at
  controllers/srv6service/update.go:23-25. On two leaves with a port moved and moved
  back, leaf01 then holds the new port's row and not the recorded one
  (`Srv6Return.SkippedOverMovedPort`). The repair that follows puts the recorded ops
  back and the service settles (`PassRepair.AbandonedEditSettles`), and the node holds
  exactly the recorded render precisely when the edit had kept the node, its port, its
  peer and its pin (`Srv6Return.AbandonedEditLeavesExactly`): the moved port's row stays
  on leaf01, beside the recorded one, and a delete leaves it there
  (`Srv6Return.AbandonedPortStays`).
- A pass whose best-effort drift note was lost still writes its conditions at the
  end, because the local ones were left not ready. Its observed generation is
  written only if it differs from the local one, so it stays behind exactly when
  the note was lost over an older stored generation (`PassSilence.RecordingSettles`).
  In every run the passes after a ready one are silent exactly when no edit was
  waiting, the pass wrote the record of its own spec and no note was so lost
  (`PassSilence.SilentAfterReady`). A gateway or alternate-spine edit, a failed
  check and a lost note get there (`Srv6Runs.LostNoteHappens`, and at every site
  `PassRace.LostNoteLeavesStale`); the next healthy pass repairs it with one write
  (`PassSilence.StaleGenerationIsRewritten`).
- The renderer reads neither gateways nor the alternate spine nor the tenant, so an
  edit of those changes no plan (`Srv6Site.NeutralEdit`); the comment at
  api/v1alpha1/srv6service_types.go:124-130 says that a gateway update re-renders.
- An update does not look at whether a node rejected the removal. It is sure to end
  exact on the node exactly when the answer was OK or nothing of the previous render
  is its own there (`Fabric.RemovalAnswerDecides`); after a port move the old port's
  row is left exactly when the rejection came before that row's deletion
  (`Srv6Delete.RejectedRemovalKeepsOldPort`).
- Deletion rolls back the current spec, not the applied one
  (`Srv6Delete.FinalizerRendersCurrent`). An entry of the applied render is cleared
  exactly when the current spec still renders, is still attached to the node and
  still names the port, the peer or the pin it was made from
  (`Srv6Delete.DeleteClearsExactly`, per node `Srv6Delete.DeleteIsCleanExactly`).
- An SRv6 rollback removes the whole VRF table and the route to the peer's locator.
  It takes nothing from another service exactly when the two share no attachment
  node (`Srv6Delete.IsolatedExactly`).
- A service without a correlation-id label is claimed for under its 36-character
  object UID. Claim names are cut to 63 characters, so the client prefix claims
  of leaf01 and leaf02 are then one claim, against the comment at
  pkg/kuid/claim.go:126-127 (`ClaimNames.UidAttachmentsShareAClaim`; exactly when
  this happens is `ClaimNames.AttachmentsShareAClaimExactly`).
- An access list may call a rule `default` beside a default action; the
  validator accepts it and the service then never verifies
  (`ShadowedRule.ChecksHoldExactly`, an accepted input `FailingInputs.AcceptedListNeverVerifies`).
- The validator accepts a service id without a usable character, prefixes and
  gateways that do not parse; such input renders exactly when those parse
  (`Translate.ValidatedRendersExactly`, an accepted input `FailingInputs.AcceptedServiceIsNotRendered`).
- Patch promotion copies keys as written: the promoted patch means the original one
  exactly when no key has an escape, or the other steps fail anyway
  (`Promotion.PromotionMeansExactly`). It adds one table: a patch of plain adds goes
  through after it exactly when at most one wanted table is absent
  (`Promotion.AppliesAfterPromotionExactly`).

## Model

| member | source | states |
|---|---|---|
| `PassRuns.RunOk` | controllers/srv6service/controller.go:56-299 | In every run of interleaved passes, operator moves and foreign lease holders, under any answers, every service keeps the invariant that ties its stored status, its finalizer, its Leases and claims and where its pass stands |
| `PassPreservation.StepOk` | controllers/srv6service/controller.go:56-299 | Each single step of a pass, whatever is answered, keeps that invariant for the service |
| `PassRuns.StepOwn` | controllers/srv6service/controller.go:56-299 | A step touches only its own service's object, Leases, claims and log entries, apart from creating a Lease whose value was free |
| `PassSafety.IdentifiersAreExclusive` | controllers/srv6service/controller.go:118-178 | In every reachable state a service with recorded allocations that is not being deleted holds the Lease for its id, so no two such services share a service id or a VRF name |
| `PassSafety.NoOrphanIdentifiers` | controllers/srv6service/finalizer.go:39-50 | In every reachable state a claim or Lease of a service implies that its object is stored and carries the finalizer |
| `PassSafety.AtMostOneLease` | pkg/kuid/lease.go:48-105 | In every reachable state a service holds at most one value of the pool, and one in range |
| `PassSafety.IdentifiersAreStable` | controllers/srv6service/allocate.go:90-108 | In every run the recorded id, VRF and finalizer of a service survive every move but its own deletion |
| `PassSafety.ReadyMeansRecorded` | controllers/srv6service/datapath.go:106-117 | In every reachable status Ready=True implies a passed data-path stamp, allocations, an applied spec, the correlation id, and configuration hashes that are non-empty and those of a render under the recorded allocations, although the update path does not probe |
| `PassSafety.ReadyOnlyAfterVerification` | controllers/srv6service/controller.go:182-279 | Whatever move turns a service Ready is a status write of a pass in which the locator probe and all checks of every plan node passed, or the steered-failover rule waived the failure |
| `PassSafety.UnreachableNodeKeepsEverything` | controllers/srv6service/finalizer.go:76-141 | After one transient rollback answer in a delete pass, that pass ends with every claim, every Lease and the finalizer in place, whatever runs meanwhile |
| `PassSafety.NodeStatusNeverStored` | controllers/srv6service/controller.go:183-278 | In every reachable state the stored node status list is empty |
| `PassRecord.RecordedHashesMatchAppliedSpec` | controllers/srv6service/update.go:144-163 | In every run, the recorded hashes are at every moment those of re-rendering the applied spec under the recorded allocations exactly when no pass whose status write was answered with a spec of other hashes went on to write its record |
| `PassRecord.SkippedApplyIsTheRecordedRender` | controllers/srv6service/controller.go:139-149 | In every run without such a write, hashes that let a pass skip its apply imply, node by node, ops equal to those of the recorded render; the ops last applied are the next rows |
| `PassApplied.SkippedApplyIsLastApplied` | controllers/srv6service/controller.go:139-169 | In every run, a pass that skips its apply has on a node of its plan the ops of the service's last accepted Apply call there exactly when no removal, update apply, rollback, failed restore, failed repair or delete left the node off its record with nothing after it that brings it back |
| `PassApplied.RecordIsLastApplied` | controllers/srv6service/update.go:112-163 | The same at every moment of every run, for every recorded node: the last Apply call was accepted and its ops have the recorded hash, exactly when nothing left the node off its record |
| `PassApplied.RestoreTakes` | controllers/srv6service/update.go:134-140 | While the record is that of one render, an accepted restore call under the recorded identifiers brings its node back on record |
| `PassDevices.RecordIsHeld` | cmd/fabric-executor/main.go:318-368 | In every run, while nothing has left a recorded node off its record, the node holds every entry of the recorded ops, whatever part of any call that was not accepted landed, unless another service has touched the entry since |
| `PassReturn.EditBackSkips` | controllers/srv6service/update.go:143-149 | At every site, over every settled service: an edit to other hashes whose removals and applies are accepted and whose first check fails, taken back after the refusal: the next pass goes straight to verify with no further call, over nodes whose last accepted call carried the edit's ops |
| `PassReturn.EditBackHolds` | controllers/srv6service/update.go:112-131 | After those calls each node of the edit's plan holds exactly the edit's entries of the two renders |
| `PassReturn.FailedRepairSkips` | controllers/srv6service/controller.go:228-249 | At every site, over every settled service: a failed check, a repair rejected by the first node, the rollbacks and the refusal: the next pass skips its apply, and the last call on every node with a rollback is that rollback |
| `PassReturn.RolledBackHolds` | controllers/srv6service/controller.go:236-249 | After those calls such a node holds no entry of the plan, whatever part of the rejected call landed |
| `PassReturn.FirstEditStays` | controllers/srv6service/update.go:57-77 | At every site, over every settled service: after an edit taken back inside its update, the next pass makes no removal call, and every entry that only the edit's ops touch is still on its node when that pass has applied |
| `PassRepair.RepairSettles` | controllers/srv6service/controller.go:228-298 | Over the record of a settled service, whatever conditions and generation the object has, a pass whose first check fails and whose repair goes through leaves the service settled |
| `PassRepair.AbandonedEditSettles` | controllers/srv6service/controller.go:139-298 | At every site, over every settled service: an edit applied, refused at its first check and taken back, and the repair of the next pass, end in the settled state under the record there was |
| `PassRepair.AbandonedIsExact` | controllers/srv6service/update.go:112-149 | After an abandoned edit a node of its plan holds exactly the recorded render of the two precisely when the recorded ops touch all that the edit's make there; what they do not touch stays as the edit left it |
| `Srv6Return.AbandonedEditLeavesExactly` | controllers/srv6service/update.go:112-149 | With the real renderer: the service is settled, every node of its render took the recorded ops last, and a node of the edit's plan holds exactly the recorded render precisely when the applied spec is attached there with the edit's port, peer and pin |
| `Srv6Return.SkippedOverMovedPort` | controllers/srv6service/update.go:143-149 | On two leaves: a port moved and moved back after a failed check; the pass skips, leaf01's last accepted ops are the moved ones, and it holds the moved port's row and not the recorded one's |
| `Srv6Return.AbandonedPortStays` | controllers/srv6service/controller.go:228-298 | The same to the end: settled, and leaf01 holds both rows; a delete takes only the recorded one |
| `Srv6Return.FirstEditRowStays` | controllers/srv6service/update.go:57-77 | On two leaves: a port moved and moved back inside the update; after the next pass has applied, leaf01 still holds the left port's row |
| `Srv6Return.FailedRepairEmptiesNodes` | controllers/srv6service/controller.go:236-249 | With the real renderer: after a rejected repair the next pass skips its apply over nodes that hold nothing of its render |
| `PassRace.ActivationSettles` | controllers/srv6service/controller.go:56-299 | At every site a created service whose spec renders reaches the settled state in a run in which every call succeeds |
| `PassRace.EditDuringUpdateBreaksRecord` | controllers/srv6service/update.go:144-163 | At every site, over every settled service: after an update with a second edit landing before its record write is answered, the record is that of one render exactly when the two specs have the same hashes |
| `PassRace.LostNoteLeavesStale` | controllers/srv6service/controller.go:228-255 | At every site, over every settled service: an edit that leaves the plan alone, a failed check, a lost drift note and a repair end in a Ready service that is not settled and whose next passes are not silent |
| `Srv6Runs.PortEditBreaksRecord` | controllers/srv6service/update.go:144-163 | With the real renderer: an attachment moved to another port, and back before the record write is answered, leaves a record of two specs |
| `Srv6Runs.RaceHappens` | controllers/srv6service/update.go:144-163 | That run exists on two leaves, a spine and two access ports |
| `Srv6Runs.NeutralEditLosesNote` | controllers/srv6service/controller.go:228-255 | With the real renderer: an edit of gateways or alternate spine, a failed check and a lost note end in a Ready service whose next passes are not silent |
| `Srv6Runs.LostNoteHappens` | controllers/srv6service/controller.go:228-255 | That run exists on the same two leaves |
| `PassFits.SoundRun` | controllers/srv6service/plan.go:50-80 | In every run in which no status answer brings in a spec of other hashes, or one no longer steered, each pass at work carries the hashes, the node order and the steering of its own spec |
| `PassSilence.RecordingSettles` | controllers/srv6service/controller.go:261-298 | The last status write of a ready pass leaves a settled object exactly when no edit was waiting, the pass wrote the record of its own spec and the drift note landed or the stored generation was current; without the note, record, hashes, path and conditions are still those of the object's own spec |
| `PassSilence.SettledPassesAreSilent` | controllers/srv6service/ready.go:34-45 | Over a settled service in a healthy world any number of passes make no Apply call, no claim call and no write, whatever other services and lease holders do meanwhile |
| `PassSilence.SilentExactly` | controllers/srv6service/controller.go:261-291 | In every reachable state a live service at rest is settled exactly when every undisturbed continuation is silent; over any other object the next healthy pass makes a call or a write |
| `PassSilence.StaleGenerationIsRewritten` | controllers/srv6service/controller.go:280-291 | Over a verified object that reports an older generation the next healthy pass makes one status write |
| `PassSilence.SilentAfterReady` | controllers/srv6service/controller.go:228-291 | After the ready pass of any run, every undisturbed continuation is silent exactly when no edit was waiting, the pass wrote the record of its own spec (hashes and steering), and its drift note landed or the stored generation was current |
| `PassSilence.UndivertedRecordsOwn` | controllers/srv6service/controller.go:261-279 | A pass of a run in which no status answer brought in a spec of other hashes, or one no longer steered, writes the record of its own spec |
| `PassFailover.FailoverIsNeverUndone` | controllers/srv6service/controller.go:188-255 | While the pin rides a known spine other than the preferred one and the plan is unchanged, no run contains an Apply call for the service, whatever its checks answer |
| `Reconciler.Worker.Reconcile` | controllers/srv6service/controller.go:56-299 | The sequential pass, with others acting between its calls, is a run of the pass machine from its first read to its end, and keeps the invariant |
| `Reconciler.Worker.ApplyUpdate` | controllers/srv6service/update.go:93-164 | The removal, apply, verify and record stages in order, ending ready to verify again, refused, or dropped on a transient error, as the machine does |
| `Reconciler.Worker.FinalizeDelete` | controllers/srv6service/finalizer.go:57-150 | The delete pass: every node rolled back, and claims, Leases and finalizer let go only when no node is left unconfirmed |
| `Reconciler.Worker.Allocate` | controllers/srv6service/allocate.go:113-196 | The id claim with its lease fallback and one prefix claim per attachment in node order; exhaustion is refused wherever it is answered, a failed call ends the pass |
| `Reconciler.Worker.AllocateLeaseId` | pkg/kuid/lease.go:48-105 | The allocator inside a pass, call by call |
| `Reconciler.Worker.ReleaseAll` | pkg/kuid/release.go:16-35 | The release: each listed claim, then each of the service's Leases; the first error ends it |
| `Reconciler.Worker.ApplyPlan` | controllers/srv6service/apply.go:22-34 | The ordered apply: the first node that does not accept ends it |
| `Reconciler.Worker.RollbackPlan` | controllers/srv6service/apply.go:49-72 | The rollback walk: every node that has a rollback, whatever the answers |
| `Reconciler.Worker.VerifyPlan` | controllers/srv6service/verify.go:103-127 | The verify walk, to the first refusal, with a status for each node looked at |
| `Conditions.UpsertCondition` | controllers/srv6service/ready.go:34-45 | The condition list after an upsert: this type holds the new condition with the transition time kept when the status did not change, every other type is untouched, still one entry per type |
| `Leases.ExhaustionIsExact` | pkg/kuid/lease.go:94-105 | Run alone, the allocator reports exhaustion exactly when the caller holds nothing and every value in range is taken |
| `Leases.ProbeFindsLowest` | pkg/kuid/lease.go:71-103 | The value-by-value probe yields the lowest value not taken, or exhaustion |
| `Leases.AloneHolds` | pkg/kuid/lease.go:48-105 | A value returned is held afterwards, no Lease of another is changed, and at most the Lease of that value is new |
| `Leases.RepeatIsNoOp` | pkg/kuid/lease.go:53-69 | Run again, the allocator returns the same value and leaves the store as it is |
| `Leases.ValuesAreExclusive` | pkg/kuid/lease.go:48-105 | For every interleaving of any number of calls with creates and releases by others, calls with different correlation ids never return one value while both Leases stand |
| `Leases.ReleaseFrees` | pkg/kuid/release.go:39-58 | A released value is open to every other caller |
| `Leases.Pool.AllocateLeaseId` | pkg/kuid/lease.go:48-105 | The list and the create loop, with others writing between requests: a value returned is held; with nobody writing, store and result are those of the specification |
| `Leases.Pool.Release` | pkg/kuid/release.go:39-58 | The delete loop leaves exactly the Leases of others when nobody writes meanwhile, and counts what it deleted |
| `ClaimNames.NamesAreLabels` | pkg/kuid/claim.go:77-95 | Every claim name is a non-empty label of at most 63 allowed characters between alphanumerics |
| `ClaimNames.SanitizeIsIdempotent` | pkg/kuid/claim.go:79-91 | Folding a claim name again changes nothing |
| `ClaimNames.AttachmentsShareAClaimExactly` | pkg/kuid/claim.go:93-95 | Two attachments of a service have one claim name exactly when the characters left after the correlation id do not tell them apart |
| `ClaimNames.LongIdsShareOneClaim` | pkg/kuid/claim.go:84-86 | A correlation id of 41 characters or more gives every attachment the same claim name |
| `ClaimNames.UidAttachmentsShareAClaim` | controllers/srv6service/types.go:76-83 | Under a 36-character object UID the attachments of leaf01 and leaf02 have one claim name, whatever their ports |
| `ClaimNames.FittingClaimsAreDistinct` | pkg/kuid/claim.go:126-130 | Where correlation id and attachment fit, claim names are equal exactly when the attachments are |
| `ClaimNames.IdClaimsCollideExactly` | pkg/kuid/claim.go:121-123 | The id claims of two services have one name exactly when their ids agree in what the cut keeps |
| `ClaimNames.SharedNameIsOneClaim` | pkg/kuid/claim.go:148-174 | Two attachments with one claim name end with one stored claim between them |
| `ClaimNames.Authority.CreateClaim` | pkg/kuid/claim.go:136-176 | A create adds the claim under this id or changes nothing; an existing claim is taken over exactly when its label is this id, and is a collision naming the holder otherwise |
| `ClaimNames.Authority.ClaimAll` | controllers/srv6service/allocate.go:159-174 | The loop over the attachments goes through exactly when nobody else holds one of the names, and the store then has exactly these names added |
| `Devices.LastWriterWins` | cmd/fabric-executor/main.go:318-366 | What a list of writes leaves in a cell is what its last write there leaves, and other cells are untouched |
| `Devices.RollbackUndoes` | controllers/srv6service/apply.go:49-72 | Applying and rolling back a covered plan leaves none of its entries, and leaves every cell neither touches as it was |
| `Fabric.HandleApply` | cmd/fabric-executor/main.go:318-368 | OK exactly when every op went through, and the node then has all of them; otherwise it has the ops before the first failing one and a part of that one |
| `Fabric.UpdateIsExact` | controllers/srv6service/update.go:57-77 | After an update an entry that either plan makes is exactly what the new ops leave there, cells of neither are as they were, and a node that lost no op had no rollback; for any plans whose rollback covers their ops |
| `Fabric.RemovalAnswerDecides` | controllers/srv6service/update.go:120-130 | An update is sure to end exact on a node that holds the previous render exactly when the removal was answered OK or the previous render made nothing there that the new ops leave alone |
| `Fabric.RestoreBringsBackPrevious` | controllers/srv6service/update.go:134-140 | A failed update brings back the previous plan's own entries, and leaves what only the new plan made |
| `Fabric.Driver.ApplyUpdate` | controllers/srv6service/update.go:112-141 | When every removal went through and no apply failed, each device is the updated one; a restored failure leaves on every node what the previous rollback and then the previous ops make; nodes of neither plan are untouched |
| `Fabric.Driver.Remove` | controllers/srv6service/update.go:115-125 | One removal call for each node that lost an op, in name order; it ends early exactly when a call does not reach its node, whatever nodes answer; nodes that lost nothing are untouched |
| `Fabric.Driver.DiffPlans` | controllers/srv6service/update.go:57-77 | Per node, exactly the ops of the previous render that the new one does not hold |
| `Fabric.Driver.ApplyPlan` | controllers/srv6service/apply.go:22-34 | With no failed node every call went and every device holds its ops applied; a failed node is the first in plan order whose call did not go, the nodes before it hold theirs and the nodes after it are untouched |
| `Fabric.Driver.RollbackPlan` | controllers/srv6service/apply.go:49-72 | Every node with a rollback gets one call, and is rolled back if that call went, whatever the calls before it answered; the node reported is the first whose call did not go |
| `Srv6Render.ForSRv6Service` | pkg/fabricplan/srv6.go:103-412 | The imperative render, attachments first and then ops, checks and rollback node by node, equals the specification the laws are about, refusals included |
| `Srv6Laws.RenderedPlansAreCovered` | pkg/fabricplan/srv6.go:370-407 | The rollback of every rendered node deletes every row, route and client address its ops create, and creates none |
| `Srv6Laws.AttachmentOrderIsIrrelevant` | pkg/fabricplan/srv6.go:127-201 | Swapping the two attachments gives the same plan |
| `Srv6Laws.OpsEstablishChecks` | pkg/fabricplan/srv6.go:337-368 | Running a node's ops on any device makes each of its checks true |
| `Srv6Laws.RollbackTakesFromOthers` | pkg/fabricplan/srv6.go:370-407 | A rollback clears exactly the cells it names or sweeps, whoever owns them |
| `Srv6Delete.IsolatedExactly` | pkg/fabricplan/srv6.go:389-396 | Rolling one service back takes nothing from another exactly when the two share no attachment node |
| `Srv6Delete.BootstrapRowsAreSafe` | pkg/fabricplan/srv6.go:242-407 | No op and no rollback of a built plan touches a locator or SID row |
| `Srv6Site.ServiceSids` | controllers/srv6service/allocate.go:60-84 | Every attachment node gets the SID derived from its /48 locator |
| `Srv6Site.RendererIsOk` | controllers/srv6service/plan.go:22-34 | The controller's renderer meets what the run theorems ask of a renderer |
| `Srv6Site.BuiltUpdateIsExact` | controllers/srv6service/update.go:112-163 | An update between any two plans the controller builds is exact on every node |
| `Srv6Site.BuiltOpsEstablishChecks` | controllers/srv6service/plan.go:22-34 | The ops of any built plan make all checks of that plan true on any device |
| `Srv6Site.BuiltPlanIsWorkable` | pkg/fabricplan/srv6.go:370-407 | No rollback op of a built plan is empty, so the executor turns none down by itself |
| `Srv6Site.NeutralEdit` | pkg/fabricplan/srv6.go:127-201 | Two specs that agree on construct, signalling, preferred spine, nodes and ports have the same plan, whatever their gateways, alternate spines and tenants |
| `Srv6Delete.FinalizerRendersCurrent` | controllers/srv6service/finalizer.go:154-164 | The plan the finalizer rolls back is the render of the current spec under the recorded allocations |
| `Srv6Delete.DeleteClearsExactly` | controllers/srv6service/finalizer.go:76-106 | For every node and every entry of the applied render: a delete clears it exactly when the current spec renders, is attached to the node, and still names the port, peer or pin the entry was made from |
| `Srv6Delete.DeleteIsCleanExactly` | controllers/srv6service/finalizer.go:76-106 | A delete leaves nothing of the applied render on a node exactly when the current spec renders and keeps the node, its port, its peer and its pin |
| `Srv6Delete.RejectedRemovalKeepsOldPort` | controllers/srv6service/update.go:120-130 | After a port move whose removal was rejected part-way, the old port's row is left on the node exactly when its own deletion was not among the writes that landed |
| `PathTable.ReadPathTable` | controllers/srv6service/path.go:108-127 | The observation is the first pin line's next hop and the one of the spines it serves, or down |
| `PathTable.ViaAddress` | controllers/srv6service/path.go:130-138 | The word after the first `via`, when there is one |
| `PathTable.RenderedPinReadsBack` | pkg/fabricplan/srv6.go:308-312 | The pin line a steered plan renders, in a table with any other routes, reads back as the preferred spine when leg addresses are distinct |
| `PathTable.OwnPinIsNeverFailover` | controllers/srv6service/path.go:180-196 | The pass goes on without a failover waiver and with the preferred spine exactly when the pin is the plan's own |
| `SiteNames.KnownNamesResolve` | pkg/migration/site.go:90-98 | The validator knows a port name exactly when the renderer resolves it |
| `SiteNames.NormalizeTwice` | pkg/fabricplan/plan.go:135-143 | The normal form of a site name is a fixed point |
| `SiteNames.KnowsName` | pkg/migration/site.go:90-98 | The scan finds a name exactly when one of the inventory has its normal form |
| `Intent.CanonicalIsIdempotent` | pkg/migration/constructs.go:223-272 | Folding a folded input changes nothing |
| `IntentCheck.Request.Canonicalize` | pkg/migration/constructs.go:223-272 | The in-place folding leaves the canonical form of what was there |
| `IntentCheck.Request.Validate` | pkg/migration/input.go:188-436 | No cause is collected exactly when the folded input satisfies the acceptance predicate |
| `IntentCheck.AclCauses` | pkg/migration/constructs.go:276-336 | No access-list cause exactly when stage, family, rules, names, priorities, prefixes, ports and actions are acceptable |
| `IntentCheck.EndpointVlanCauses` | pkg/migration/input.go:458-477 | No cause exactly when every endpoint names the same VLAN |
| `Translate.BuildAttachments` | pkg/migration/translate.go:493-507 | The attachment loop builds, in order, the attachments of the three builders |
| `Translate.ValidatedRendersExactly` | pkg/migration/translate.go:89-215 | Every accepted input translates, and its Network renders exactly when its service id has a usable character where a VRF name is derived and its prefixes and gateways parse |
| `Translate.ValidatedChecksHold` | pkg/fabricplan/plan.go:191-354 | For every accepted input that renders, with no rule hiding the default action, a node's ops make every one of its CONFIG_DB checks true over any state with the tunnel row |
| `ShadowedRule.ChecksHoldExactly` | pkg/fabricplan/plan.go:1189-1312 | All checks of a validated service hold after its ops exactly when no rule is called `default` beside a default action |
| `ShadowedRule.ShadowedRuleNeverVerifies` | pkg/migration/constructs.go:276-336 | An accepted access list with such a rule leaves one of its checks false on every node, whatever the node held |
| `FailingInputs.AcceptedListNeverVerifies` | pkg/migration/constructs.go:276-336 | There is an accepted list with such a rule that renders |
| `FailingInputs.AcceptedServiceIsNotRendered` | pkg/migration/input.go:188-436 | There is an accepted routed service whose Network the renderer refuses, because its id has no usable character |
| `Translate.RouterNameDerives` | pkg/fabricplan/plan.go:841-867 | The VRF name of a service derives exactly when its id has a usable character |
| `L3Vlans.FoldIsModulo` | pkg/fabricplan/plan.go:398-404 | The derived VLAN is the VNI folded into a band of 94 values |
| `L3Vlans.InBand` | pkg/fabricplan/plan.go:398-404 | Every VNI in range maps into 4001..4094 |
| `L3Vlans.CollideExactly` | pkg/fabricplan/plan.go:367-397 | Two VNIs collide exactly when they differ by a multiple of 94 |
| `L3Vlans.StraightOffset` | pkg/fabricplan/plan.go:367-397 | On 10001..10094 the mapping is the plain offset |
| `NetworkLaws.DerivedVlansApart` | pkg/fabricplan/plan.go:205-264 | In any Network that renders, derived VLANs are pairwise distinct and differ from every declared VLAN |
| `NetworkLaws.AttachmentOrderIsIrrelevant` | pkg/fabricplan/plan.go:267-348 | Permuting attachments with distinct (node, attachment) pairs gives the same plan |
| `NetworkLaws.RollbackCoversOps` | pkg/fabricplan/plan.go:1037-1047 | Every row and port membership that the ops of a rendered node create, apart from the tunnel baseline, is deleted by its rollback, across all renderers |
| `NetworkModel.RollbackLeavesNothing` | pkg/fabricplan/plan.go:818-828 | Applying and then rolling back a covered node plan leaves none of its rows or memberships, from any state |
| `NetworkChecks.OpsEstablishChecks` | pkg/fabricplan/plan.go:1006-1032 | For single-router Networks with distinct rule names, running a node's ops over any state with the tunnel row makes every check of the node true |
| `NetworkBuild.BuildPlan` | pkg/fabricplan/plan.go:191-354 | The imperative render, with its maps and loops, equals the specification, refusals included |
| `Promotion.Promote` | cmd/fabric-executor/main.go:379-424 | The loops over the patch produce the promoted patch of the specification |
| `Promotion.PromotionMeansExactly` | cmd/fabric-executor/main.go:379-424 | Under section 4.1 of RFC 6902, for any patch of adds into the missing table among other steps: the promoted patch gives what an added empty table followed by the original patch gives, duplicates and failures included, exactly when no key has anything to decode (section 4 of RFC 6901) or the other steps fail |
| `Promotion.PresentTablesAreLeftAlone` | cmd/fabric-executor/main.go:387-401 | With every wanted table present the patch is unchanged |
| `Promotion.AppliesWhereTablesAre` | cmd/fabric-executor/main.go:387-401 | A patch of plain adds applies by itself exactly when every table it adds to is there |
| `Promotion.AppliesAfterPromotionExactly` | cmd/fabric-executor/main.go:386-424 | A patch of plain adds applies after promotion exactly when at most one of the tables it adds to is absent |
| `ShellQuoting.SshRemoteJoin` | cmd/fabric-executor/transport_ssh.go:67-87 | The joining loop equals the quoted join of the specification |
| `ShellQuoting.QuotingRoundTrips` | cmd/fabric-executor/transport_ssh.go:64-87 | Splitting the joined line by sections 2.2.1, 2.2.2 and 2.3 of the POSIX Shell Command Language gives back the argument list, empty elements and embedded quotes included |
| `ShellQuoting.QuotingIsInjective` | cmd/fabric-executor/transport_ssh.go:64-87 | Different argument lists give different lines |
| `StreamDemux.DemuxStream` | cmd/fabric-executor/transport_docker.go:220-243 | The reader loop, with its reused header array, computes the demultiplexed streams of any byte sequence |
| `StreamDemux.DemuxRoundTrips` | cmd/fabric-executor/transport_docker.go:220-243 | Parsing the encoding of any frames gives the payloads of streams 1 and 2 in order and drops the rest |
| `StreamDemux.TruncationGivesPrefixes` | cmd/fabric-executor/transport_docker.go:224-241 | Any cut of any stream yields prefixes of what the whole yields |
| `StreamDemux.CutEncodingGivesPrefixes` | cmd/fabric-executor/transport_docker.go:224-241 | A cut encoding yields prefixes of the payloads |
| `StringSort.SortStrings` | cmd/fabric-executor/main.go:239-245 | The in-place exchange sort leaves a sorted permutation |
| `CanonicalJson.MarshalCanonical` | pkg/render/canon.go:34-75 | The printer, whatever order a map yields its keys in, prints the text of the specification |
| `CanonicalJson.CanonicalTextDeterminesValue` | pkg/render/canon.go:34-75 | Two JSON values with the same canonical text are equal (sections 4, 5 and 7 of RFC 8259) |

## Left out

- Informer caches: a pass reads the stored object as it is, so stale reads are not modelled.
- Served GENID ids: the documented case is modelled, in which the id claim yields no value and ids come from Leases.
- mac-vrf VLAN reservation: the variant is refused on the site.
- Site, capability, variant and conflict gates: one abstract refusal per pass; the signalling field is taken as explicit.
- Refusal messages, events, metrics and classification of errors by their text.
- Merge patches below a status field: a changed field travels whole.
- Claim names inside the pass machine: a pass's claims are told apart by node and port there; when the stored names coincide is `ClaimNames`.
- Other finalizers on an object, and two workers on one object: the work queue serves one at a time.
- Hashes: an uninterpreted function; where two renders are concluded equal it is taken as injective, and says so.
- Device text: FRR configuration, vtysh, VXLAN device creation, manager timing and route targets; an op is its effect on rows, routes, memberships and client addresses.
- FRR, kernel and ASIC checks of Networks: only the CONFIG_DB checks are in the plans.
- `NetworkChecks.OpsEstablishChecks`: the ports check, which accepts a containing text, is proved as an equal text.
- `PassRecord.SkippedApplyIsTheRecordedRender`: asks for a run in which no broken record was written, because the record is otherwise that of two specs; it is about the recorded render, and `PassApplied.SkippedApplyIsLastApplied` about the ops last applied.
- `PassApplied.SkippedApplyIsLastApplied`: takes the hash as injective.
- `PassDevices.RecordIsHeld`: says that the recorded entries are there, not that nothing else is; a node back on its record may hold what an abandoned edit put there (`Srv6Return.AbandonedPortStays`), and for one such edit `Srv6Return.AbandonedEditLeavesExactly` says exactly when it does not.
- Admission rules (two attachments, an immutable tenant, known enumerations): no theorem over runs relies on them; the concrete runs keep to them.
- A Lease list or create error whose text reads as exhaustion: it would be refused as exhaustion, where here only a full pool and a refused claim are.
- `Leases.ReleaseFrees`: deletion is by name after a list; with other writers in between only `Leases.Pool.Release`'s quiet-run promise holds.
- Address text: parsing is an abstract partial function; rendering of the chosen host octet is modelled.
- Canonical JSON: numbers are their text, and strings are valid; invalid UTF-8 is replaced by the printer and not modelled.
- Case folding outside ASCII in names and vocabulary words.
- Shell expansion beyond tokens, quoting and escapes: the joined line has none.
- YAML and JSON parsing of requests, the Python tier, HTTP, Docker and ssh transports.
- The order of a served list: the allocator reads its list in name order.
