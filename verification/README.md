# onboardd, modelled and proved

onboardd takes a device without a network to one that is set up: it opens a temporary
access point, lets a browser pick a Wi-Fi network or a standalone mode, and moves the device
there under the protection of a NetworkManager checkpoint. This project models the parts of
it that hold state across failures and proves what they promise for every run.

* **Protected transitions** (`profiles`, `selection`, `plans`, `client`, `recovery`,
  `transitions`, `accumulation`, `rejection`, `attempts`, `classification`, `settings`,
  `addresses`, `uuids`). NetworkManager is a store of profiles; every durable write is one step
  with an outcome of its own (done, refused, carried out with the reply lost, or overtaken by
  another process), so a crash can fall between any two. The client and the transition code are
  methods over that store and over a trace of the calls they make. The main results are crash
  consistency, the frame on foreign profiles, rollback totality, the absence of accumulation,
  and the settings round trip that justifies the store's update.
* **The operation service** (`operations`, `service`). A state machine whose steps are the
  critical sections; every claim is about all schedules. `service.dfy` holds the same
  sections on heap records mutated in place, each tied to a step.
* **Captive mode** (`captive`, `lostreply`). Three resources that can fail to appear or to go, and
  the ledger of what is owed; it runs on the same client and store as the transitions.
* **Setup requests** (`setup`). Transitions and captive mode together: captive mode is left
  only after the network has changed.
* **Reconciliation** (`engine`, `reconciler`, `observer`, `control`, `controller`,
  `connectivity`). The engine as functions over inputs and as the loop that computes them, the
  controller and its recovery requests as a state machine with requests between any two steps,
  and the link from the profile store to the engine's verdict.
* **Text and aggregation** (`template`, `wifiqr`, `scan`, `text`, `sorting`).

Foreign calls return arbitrary outcomes, and a method that promises something promises it for
all of them. Where other threads or the scheduler choose, the choice comes out as a ghost
result or is left arbitrary. Loops that wait for the world (polling, event loops) carry a
`patience` bound; every claim holds for each value of it. Constructors and methods that change
state state their whole new state through a specification function or a predicate, and the
lemmas are about those.

What the proofs found about the code:

* A transition that finalizes keeps a mode eligible to boot through every crash point if and
  only if the store, with its candidate in it, held a survivor: a profile of the selected mode
  that finalization keeps, that no other process removed, and that is on disk if power is cut
  (`Selection.EligibilityIff`). A new candidate on disk is one unless it is deleted by
  others. `Accumulation` holds two runs without a survivor, with the updates selectMode issues.
* The comment in FinalizeTransition promises that a failure leaves a mode eligible on the next
  boot. That holds exactly when the run up to the failure kept a profile
  (`Transitions.BootsIffKept`). `Accumulation` holds two failures that keep none: a listing
  that fails after another process deleted the candidate, and, without anybody else, a refused
  update after a network that is only in memory was selected and the power goes.
* A call to NetworkManager can fail after it was carried out. An access point added this way is
  recorded nowhere: the captive ledger misses it, and leaving captive mode succeeds with the
  access point still there. If the ledger was complete before an entry it is complete after it
  if and only if no reply to an addition was lost (`Captive.Manager.EnterProvisioning`); the
  next successful entry and the startup recovery remove what was missed. `LostReply` holds such an entry. A transition's
  candidate is left behind in the same way (`Transitions.OnlyStraysStay`).
* A transition that is rejected after its finalization has switched the durable flags, and
  onboardd writes none back: it leaves that to the checkpoint. With a rollback that changes only
  which profile is active, as the model has it, a mode boots once the new candidate is
  removed if and only if the store held another survivor.
  `Rejection.RefusedCommitLosesEligibility` is a run in which every write succeeds, only the
  commit is refused, and nothing boots afterwards.
* `AttemptStandalone` parses the option text with a stricter parser than the settings builder
  that accepted it and panics on exactly the texts of `Attempts.PanicsIff`. The daemon's own
  configuration does not get that far: `appconfig.validateStandaloneAddress`
  (internal/appconfig/config.go:288-297) already applies the strict parser to the configured
  text, so only a direct caller of the package can reach the panic.
* The classification of a failure searches the whole error text, so an inner error that
  happens to contain the words of a failed restoration is classified as one; the equivalence
  in `Classification.ClassificationAgrees` has exactly that extra case.

## Model

| member | source | states |
|---|---|---|
| `Selection.CrashConsistency` | internal/recovery/transitions.go:80-141 | stop a transition after any of its durable writes, with or without power, then run any part of the startup cleanup: if a production profile was eligible to autoconnect before and the store holds a survivor (a profile of the selected mode that finalization keeps, on disk if power is lost, and that nobody else removes), one still is |
| `Selection.ForwardPathKeepsBootable` | internal/networkmanager/transitions.go:150-170 | the enables-before-disables order and the inert candidate keep some mode bootable after every single write, given any survivor |
| `Selection.EligibilityIff` | internal/recovery/transitions.go:80-141 | of a run that ends settled: every crash point, with any part of the startup cleanup after it, leaves a mode bootable if and only if the store with the candidate held a survivor that no other process removed |
| `Selection.EligibilityBeforeTheCall` | internal/recovery/transitions.go:80-141 | without interference the condition is a profile one can look for before the call |
| `Selection.SettledBootsIff` | internal/networkmanager/transitions.go:113-125 | after a finalization that went through the device boots on its own exactly when a survivor of the store before it is still there |
| `Selection.CleanupKeepsBootable` | internal/networkmanager/client.go:269-301 | removing pending candidates and temporary access points never removes the last bootable mode |
| `Selection.IntendedBootsIff` | internal/networkmanager/transitions.go:113-125 | once the new intent is recorded the device boots on its own exactly when a profile of the selected mode is left on disk |
| `Selection.SelectedIsIntended` | internal/networkmanager/transitions.go:128-143 | a selectMode that ran to its end leaves autoconnect marking exactly the selected mode |
| `Selection.SettledStays` | internal/networkmanager/transitions.go:94-125 | what a committed transition means for a profile that is left: networks start by themselves exactly when a network was selected, the access point exactly when it was, no rival of the candidate is left, and one with the right flag is as it was |
| `Selection.SettledChanges` | internal/networkmanager/objects.go:104-134 | only onboardd's networks and access points of the interface are changed, and only in their flag, their pending mark and the values every rebuilt profile has |
| `Selection.SettledGoes` | internal/networkmanager/transitions.go:94-125 | a profile that is gone was a rival of the candidate, or somebody removed it before its flag could be changed |
| `Selection.ForeignFrame` | internal/networkmanager/client.go:192-301 | over any mixture of finalizations, deletions and cleanups, failing ones included, the profiles of others are bit for bit unchanged |
| `Transitions.TransitionSurvivesCrash` | internal/recovery/transitions.go:80-141 | crash consistency for the writes a whole protected transition issues, given any survivor |
| `Transitions.TransitionSurvivesIff` | internal/recovery/transitions.go:80-141 | a transition that finalized survives every crash if and only if the store with its candidate held a survivor that nobody else removed |
| `Transitions.NewCandidateSurvives` | internal/recovery/transitions.go:241-282 | a new candidate on disk is a survivor of its own transition, so no other network is needed |
| `Transitions.UnfinalizedNeverTouches` | internal/recovery/transitions.go:146-176 | a transition that fails before finalizing, its clean-up included, leaves every pre-existing profile exactly as it was at every point |
| `Transitions.OnlyStraysStay` | internal/recovery/transitions.go:146-176 | a transition that fails before finalizing and cleans up without a failure leaves the store exactly as it was if and only if the reply to its addition was not lost; otherwise it leaves the unselected candidate |
| `Transitions.StraysGo` | internal/recovery/transitions.go:241-282 | such a stray is removed by the next startup if it is marked pending, and by any later transition of its kind that commits |
| `Transitions.RejectionAfterFinalize` | internal/recovery/transitions.go:122-176 | a transition that is rejected after its finalization and whose rollback removes the new candidate leaves a mode that boots exactly when the store before the call held a survivor that nobody else removed; a standalone transition leaves none |
| `Transitions.RejectionKeepingCandidate` | internal/recovery/transitions.go:122-176 | if the rollback leaves the candidate where it is, because it was saved before, because the rollback failed or because its removal did, the candidate counts as a survivor too |
| `Transitions.BootsIffKept` | internal/networkmanager/transitions.go:113-125 | of any run of the finalization's writes, complete or cut short at any point and with any outcomes: given a mode that booted before, with or without the profiles that are only in memory, one boots afterwards exactly when the run kept a profile: one of the selected mode that nobody removed, or one that was eligible and was not switched off. This is what the comment in FinalizeTransition promises for every failure |
| `Transitions.RejectedBootsIff` | internal/recovery/transitions.go:80-176 | however a transition is rejected, before, during or after its finalization and whatever its rollback managed to do, something boots afterwards exactly when the finalization kept a profile, the candidate counting only if it is still there |
| `Transitions.FateOf` | internal/networkmanager/transitions.go:128-143 | what any run of the finalization's writes makes of one profile: there exactly when nobody removed it, and its flag the one of its mode exactly when a write to it took effect, reported or not |
| `Rejection.RefusedCommitLosesEligibility` | internal/recovery/transitions.go:122-176 | a concrete run, every durable write of it successful: the candidate is accepted and finalized, the commit is refused, the rollback removes the candidate and finds the previous connection live, and no mode boots any more unless the checkpoint itself rewrites the flags |
| `Transitions.RejectedRollsBackOnce` | internal/recovery/transitions.go:146-176 | every failure after the checkpoint issues exactly one rollback and no commit succeeds; the report names a failed rollback exactly when the rollback failed, and a failed restoration exactly when the last call did not read the previous connection live |
| `Transitions.CommittedNeverRollsBack` | internal/recovery/transitions.go:80-141 | success means that the candidate was activated, accepted on a status read after that, then finalized, then committed, in that order and with nothing else, and no rollback |
| `Transitions.CommitsIffAllWentWell` | internal/recovery/transitions.go:80-141 | when a transition commits, from its calls alone: if and only if every call before a rollback went through and the candidate was accepted on the status that was read |
| `Accumulation.RepeatedTransitions` | internal/networkmanager/transitions.go:96-126 | over any series of committed transitions and removals no duplicate profile appears, and every production profile is autoconnect exactly when its role was selected last |
| `Accumulation.CommitKeepsUnique` | internal/networkmanager/transitions.go:210-258 | one committed transition keeps at most one standalone profile and one infrastructure profile per SSID |
| `Accumulation.VanishedCandidateLosesEligibility` | internal/networkmanager/transitions.go:128-143 | a concrete run, its updates the ones selectMode issues for a listing of the store, in which another process deletes the candidate before it is enabled; the finalization succeeds, no survivor is left and no mode is eligible |
| `Accumulation.SavedInMemoryLosesEligibility` | internal/recovery/transitions.go:284-323 | a concrete run, its updates the ones selectMode issues and all successful, in which a saved in-memory profile is selected and a power cut leaves nothing bootable: the store held no survivor of a power cut |
| `Accumulation.ListingFailureLosesEligibility` | internal/networkmanager/transitions.go:113-125 | a concrete run that FinalizeTransition returns as a failure and after which nothing boots: the candidate vanishes while it is enabled, and the listing before the deletions fails |
| `Accumulation.RefusedWriteLosesEligibility` | internal/networkmanager/transitions.go:113-125 | a concrete run without any interference that stops at a refused update and after which a reboot leaves nothing eligible, because the selected network is only in memory |
| `Profiles.ReplayAppend` | internal/networkmanager/transitions.go:128-143 | the store after two logs of writes is the store after the second applied to the store after the first |
| `Profiles.RunAppend` | internal/networkmanager/transitions.go:96-126 | permitted runs compose |
| `Plans.UpdatePlanIsRight` | internal/networkmanager/transitions.go:150-170 | the plan holds exactly the owned production profiles whose flag is wrong, once each, all enables before all disables |
| `Plans.SelectRun` | internal/networkmanager/transitions.go:128-143 | whatever each call's outcome, every update selectMode issues is permitted by the forward path at the moment it is issued |
| `Plans.SelectCompletes` | internal/networkmanager/transitions.go:128-143 | if no update fails the store is the old one with exactly the planned flags changed |
| `Plans.PruneRun` | internal/networkmanager/transitions.go:210-232 | deletions keep everything that is not superseded, and remove all that is when none fails |
| `Plans.CleanupRun` | internal/networkmanager/client.go:269-289 | startup deletions remove only pending candidates, and all of them when none fails |
| `NetworkManager.AutoconnectUpdates` | internal/networkmanager/transitions.go:150-170 | the loop and stable sort compute the update plan |
| `NetworkManager.SupersededProfiles` | internal/networkmanager/transitions.go:250-258 | the loop selects exactly the owned profiles in scope other than the one to keep |
| `NetworkManager.PendingProfiles` | internal/networkmanager/client.go:291-301 | the loop selects exactly the owned pending infrastructure profiles of the interface |
| `NetworkManager.Client.SelectMode` | internal/networkmanager/transitions.go:128-143 | every update issued is a permitted forward write; success leaves exactly the planned store and comes exactly when the listing and every update issued succeeded; a failure stops at an update that failed or before the first |
| `NetworkManager.Client.UpdateEach` | internal/networkmanager/transitions.go:134-142 | updates are issued in order; a vanished profile is skipped and any other failure stops, whether the update was carried out or not |
| `NetworkManager.Client.DeleteEach` | internal/networkmanager/transitions.go:219-231 | deletions are issued in order; a vanished profile is skipped and any other failure stops, whether the deletion was carried out or not |
| `NetworkManager.Client.DeleteSupersededProfiles` | internal/networkmanager/transitions.go:210-232 | only superseded profiles go, never the kept one; on success none is left, and a failure stops at a deletion that failed or before the first |
| `NetworkManager.Client.FinalizeTransition` | internal/networkmanager/transitions.go:96-126 | selects the mode before it deletes, stays on the permitted forward path whatever fails, and succeeds exactly when the role is known and every listing and write succeeded, leaving the settled store |
| `NetworkManager.Client.FinalizeProduction` | internal/networkmanager/transitions.go:113-125 | selects the mode before it deletes; success leaves the settled store, and a failure leaves it where a failed write or a failed listing stopped it |
| `NetworkManager.Client.DeleteOwnedProfile` | internal/networkmanager/client.go:192-210 | an owned profile gets one deletion, which decides; a foreign profile is refused; an absent one is success without a deletion |
| `NetworkManager.Client.DeleteOwnedInfrastructureProfile` | internal/networkmanager/client.go:215-253 | an owned, inactive infrastructure profile of the interface gets one deletion, which decides; every other UUID is refused without one |
| `NetworkManager.Client.DeletePendingInfrastructureProfiles` | internal/networkmanager/client.go:269-289 | only pending candidates of the interface are deleted, and it succeeds exactly when the listing and every deletion issued did; then none is left |
| `NetworkManager.Client.AddAndActivate` | internal/networkmanager/transitions.go:260-320 | succeeds exactly when the device was found, the profile added and its activation accepted; a profile that stays behind after a failure is reported by its UUID exactly unless the reply to its addition was lost |
| `NetworkManager.Client.ActivateProfile` | internal/networkmanager/transitions.go:36-76 | activation by UUID changes no profile |
| `NetworkManager.Client.ListProfiles` | internal/networkmanager/client.go:160-187 | the listing holds every stored profile once |
| `NetworkManager.Client.NeverTouchedForeign` | internal/networkmanager/client.go:192-301 | at any time in a client's life the profiles of others are those it started with |
| `Recovery.RunTransition` | internal/recovery/transitions.go:80-141 | the whole protocol: an account of calls and durable writes that is committed, unprotected or rejected; a rejection gives the call that failed or the status that was not accepted, a cause that names that step, and the exact error text of the rollback report |
| `Recovery.RollbackTransition` | internal/recovery/transitions.go:146-196 | exactly one rollback; unless it fails, the removal of a named new candidate and the restoration follow, and the report names exactly the steps that failed |
| `Recovery.RestorePreviousConnection` | internal/recovery/transitions.go:501-529 | nothing more if the first status shows the previous connection live; otherwise an activation under way is awaited or exactly the previous profile activated, and then the status polled; nil exactly when the last call read the connection live |
| `Recovery.WaitForConnection` | internal/recovery/transitions.go:531-551 | the status is read until it shows the connection live or the deadline has passed; nil exactly in the first case |
| `Recovery.LiveMeans` | internal/recovery/transitions.go:553-564 | a connection is live exactly when the device is activated, the profile is the active one and the text of the address is among those shown |
| `Recovery.RemoveRejected` | internal/recovery/transitions.go:146-176 | a rejected new candidate is deleted if it has a name, a saved one never, and an error is that of the deletion |
| `Recovery.Accept` | internal/recovery/transitions.go:328-358 | nil exactly when the candidate is the active profile and meets the requirement, an internet requirement judged on a fresh check; a failed check is an error |
| `Recovery.AcceptedMeans` | internal/recovery/transitions.go:328-356 | by numbers: a network is accepted exactly when the device is activated on the candidate with some address and, where internet is required, a fresh check found full connectivity |
| `Recovery.Validate` | internal/recovery/transitions.go:80-141 | the activation is awaited, the status read and the connectivity checked if needed, the first failure ends it; nil exactly when the candidate was found acceptable, and otherwise the cause names the step |
| `Recovery.Activate` | internal/recovery/transitions.go:80-141 | only the candidate is added or activated, nil exactly when that call succeeded, and its UUID is reported whenever it may exist, unless the reply to its addition was lost |
| `Recovery.TryCandidate` | internal/recovery/transitions.go:80-141 | a nil cause means activated, accepted, finalized and committed; otherwise the calls show which step failed, the cause names it, and no rollback or commit has been issued yet |
| `Recovery.Conclude` | internal/recovery/transitions.go:122-140 | finalization comes before the commit; nil exactly when both went through, otherwise one of the two calls failed and the cause names it; what the finalization did to the store is told either way |
| `Recovery.Reject` | internal/recovery/transitions.go:80-176 | a failure after the checkpoint is rolled back once and accounted for: what had been finalized stays except for a new candidate that was removed, and if nothing was, pre-existing profiles are untouched |
| `Attempts.AttemptInfrastructure` | internal/recovery/transitions.go:241-282 | invalid options touch nothing; valid ones run a protected transition with a pending, unselected candidate |
| `Attempts.AttemptSaved` | internal/recovery/transitions.go:284-323 | invalid options touch nothing; valid ones run a protected transition that never adds or deletes the saved candidate in its rollback |
| `Attempts.AttemptStandalone` | internal/recovery/transitions.go:385-438 | invalid options touch nothing; valid ones run a protected transition with an unselected access point on disk, or panic before anything is called or changed |
| `Attempts.PanicsIff` | internal/recovery/transitions.go:404-407 | the panic comes exactly when the options are accepted and the address text is empty or has a mask with a leading zero |
| `Attempts.DefaultAddressPanics` | internal/recovery/transitions.go:404-407 | an option record, accepted and without an address, on which it panics whatever UUID is generated |
| `Attempts.InfrastructureIsReady` | internal/recovery/transitions.go:241-282 | the built candidate is owned, in scope, not autoconnect, pending and on disk |
| `Attempts.StandaloneIsReady` | internal/recovery/transitions.go:385-438 | the built access point is owned, in scope, not autoconnect and on disk |
| `Attempts.OptionsError` | internal/recovery/transitions.go:474-499 | options are accepted exactly when every listed check passes |
| `Attempts.PlansAreWorded` | internal/recovery/transitions.go:178-196 | each kind of transition keeps to its own wording |
| `Classification.ClassificationAgrees` | internal/setupflow/network.go:380-400 | a failure text is classified as a failed restoration exactly when the rollback or restoration failed or an inner text contains the words itself, for every way of lower-casing that agrees on ASCII |
| `Classification.UnprotectedIsClassified` | internal/setupflow/network.go:380-400 | a transition whose checkpoint could not be created is classified as a failed restoration exactly when the inner error text contains the words |
| `Classification.RejectedIsClassified` | internal/setupflow/network.go:380-400 | a rejected transition is classified as a failed restoration exactly when its report says so or an inner text contains the words |
| `Classification.MarksInJoin` | internal/setupflow/network.go:380-400 | joining and wrapping error texts neither creates nor hides a marker |
| `Classification.InspectionIsAsymmetric` | internal/recovery/transitions.go:40-58 | after a clean rollback an unreadable status counts against connectivity for a network and against the connection for an access point, as the wording promises |
| `Classification.RemovalIsUnmarked` | internal/recovery/transitions.go:178-196 | the wording of a failed candidate removal is never mistaken for a failed restoration |
| `Classification.UnmetInternetIsReported` | internal/setupflow/network.go:380-400 | a network that connects without the internet it must provide, cleanly rolled back, is reported as one without connectivity |
| `Settings.InfrastructureRoundTrip` | internal/networkmanager/settings.go:193-255 | decode and rebuild with a new autoconnect value gives exactly the settings the same options build with that value and pending cleared, the secret coming from either source |
| `Settings.StandaloneRoundTrip` | internal/networkmanager/settings.go:193-255 | the same for a standalone access point, through the printed and parsed address |
| `Settings.RebuildDecodesToRebuilt` | internal/networkmanager/objects.go:104-134 | the effect the store model gives an autoconnect update is what the rebuilt settings decode to |
| `Settings.StandaloneRebuildDecodes` | internal/networkmanager/objects.go:104-134 | the same for a standalone access point |
| `Settings.DecodedInfrastructure` | internal/networkmanager/settings.go:54-114 | decoding what the infrastructure builder built gives back the options |
| `Settings.DecodedAccessPoint` | internal/networkmanager/settings.go:116-191 | decoding what the access point builder built gives back the options and the address |
| `Settings.NetworkIsAskedFor` | internal/networkmanager/settings.go:54-114 | what NetworkManager is asked for when a network is added: a Wi-Fi client with automatic addresses, protected by WPA with exactly the passphrase unless it is open |
| `Settings.AccessPointIsAskedFor` | internal/networkmanager/settings.go:116-191 | and for an access point: it shares its address, has no IPv6 and is protected by WPA with exactly the passphrase |
| `Settings.NetworkIsMarked` | internal/networkmanager/settings.go:78-114 | a built network carries its name, or one made from the network's, its interface, flag and priority, and onboardd's marks |
| `Settings.AccessPointIsMarked` | internal/networkmanager/settings.go:140-187 | the same for an access point |
| `Settings.NetworkRebuilt` | internal/networkmanager/settings.go:193-231 | a network without protection is rebuilt as an open one, hidden exactly if recorded so; without a wireless section, or without the passphrase it needs, it cannot be rebuilt |
| `Settings.NetworkIsAccepted` | internal/networkmanager/settings.go:54-78 | a network can be built exactly when each listed check passes |
| `Settings.AccessPointIsAccepted` | internal/networkmanager/settings.go:116-146 | an access point can be built exactly when each listed check passes |
| `Settings.UuidSettles` | internal/networkmanager/settings.go:335-351 | a resolved UUID resolves to itself |
| `Addresses.AddressCodec` | internal/networkmanager/settings.go:320-333 | an address text parses to an address exactly when it is the address's canonical print |
| `Addresses.PrefixRoundTrip` | internal/networkmanager/settings.go:320-333 | a printed prefix parses back to itself |
| `Addresses.StrictParse` | internal/recovery/transitions.go:407 | netip.ParsePrefix, which looks for the last slash and takes no leading zero, reads what net.ParseCIDR reads but for masks with a leading zero |
| `Addresses.StrictParseGap` | internal/recovery/transitions.go:407 | an option the settings builder accepts is refused by the strict parser exactly when it is empty or its mask has a leading zero; what the strict parser takes the builder reads as the same prefix |
| `Uuids.LowerUuid` | internal/networkmanager/settings.go:353-360 | lower-casing keeps a UUID valid and is idempotent |
| `Connectivity.Evaluate` | internal/connectivity/policy.go:51-62 | accepted exactly when activated, locally addressed and, if required, online |
| `Operations.SingleFlight` | internal/setupflow/service.go:228-256 | over all interleavings: at most one active operation, always the newest; queued actions are exactly the pending operations; map and order list agree without duplicates; history is at most ten; forgetting excludes activity |
| `Operations.StepKeepsInv` | internal/setupflow/service.go:286-397 | each critical section keeps the one inductive invariant |
| `Operations.FinishFindsItsRecord` | internal/setupflow/service.go:327-344 | an operation whose goroutine runs is never evicted |
| `Operations.FinishRecordsResult` | internal/setupflow/service.go:327-344 | an operation whose action returned nil is recorded succeeded without a failure, any other failed with its failure; the rest of the history stays |
| `Operations.BeginStartsOrInterrupts` | internal/setupflow/service.go:228-248 | a reserved action begins exactly while the service is neither stopping nor cancelled, and is interrupted otherwise |
| `Operations.CancelInterrupts` | internal/setupflow/service.go:252-256 | releasing a reserved operation records it failed as interrupted; anything else is left alone |
| `Operations.StartReserves` | internal/setupflow/service.go:286-325 | a start is accepted exactly when nothing is stopping, being forgotten, pending or running, and adds one pending operation with the given kind, network and time |
| `Operations.ShutdownInterruptsPending` | internal/setupflow/service.go:261-272 | the shutdown mark interrupts everything pending and lets what runs go on |
| `Operations.ForgettingExcludes` | internal/setupflow/service.go:139-160 | forgetting begins exactly in an idle service and touches no record |
| `Operations.Lifecycle` | internal/setupflow/service.go:327-360 | records only move forward, terminal records are frozen, evicted ids never return |
| `Operations.ActionsRunAtMostOnce` | internal/setupflow/service.go:228-248 | each reserved action starts at most once |
| `Operations.SlotIsReleased` | internal/webui/api.go:383-390 | whatever other threads do, startOperation never leaves its operation pending |
| `Operations.ShutdownSafety` | internal/setupflow/service.go:261-284 | once marked: nothing pending, nothing begins, live goroutines only decrease and bound the running operations, and done means every retained operation is terminal |
| `Operations.ShutdownIsIdempotent` | internal/setupflow/service.go:261-284 | a repeated shutdown marks nothing again |
| `Operations.DrainedServiceSignals` | internal/setupflow/service.go:273-276 | a drained service can always signal done |
| `Operations.ActiveOperation` | internal/setupflow/service.go:376-384 | finds an active operation exactly when one exists |
| `Operations.TrimAtLimit` | internal/setupflow/service.go:386-397 | trimming evicts exactly the oldest terminal record when there is one too many |
| `OperationService.Record.Clone` | internal/setupflow/service.go:399-410 | a snapshot is a new object with the record's value |
| `OperationService.Service.Start` | internal/setupflow/service.go:286-325 | refuses exactly when it must; otherwise takes the start step and returns a snapshot that is no record of the service |
| `OperationService.Service.Refuse` | internal/setupflow/service.go:286-304 | the reason for a refusal, with a snapshot of the conflicting operation |
| `OperationService.Service.BeginOperation` | internal/setupflow/service.go:228-248 | begins exactly the queued operations of an available service, each step one of the state machine |
| `OperationService.Service.CancelPendingOperation` | internal/setupflow/service.go:252-256 | releases exactly the queued operations |
| `OperationService.Service.Settle` | internal/webui/api.go:383-390 | begin if the client holds the response, release otherwise |
| `OperationService.Service.TrimHistoryLocked` | internal/setupflow/service.go:386-397 | the in-place loop computes the trimmed history |
| `OperationService.Service.ActiveOperationLocked` | internal/setupflow/service.go:376-384 | the backward scan finds an active record exactly when one exists |
| `OperationService.Service.Finish` | internal/setupflow/service.go:327-344 | the finishing section takes the finish step on the heap record: succeeded exactly without a failure, otherwise failed with that failure, at the given time |
| `OperationService.Service.ShutdownMark` | internal/setupflow/service.go:261-277 | the once-only section takes the shutdown step, walking the queue in any order |
| `OperationService.Service.BeginForget` | internal/setupflow/service.go:139-160 | forgetting starts exactly when a start would be allowed |
| `OperationService.Service.Operation` | internal/setupflow/service.go:216-224 | a lookup returns a fresh copy or nothing |
| `Captive.Manager.EnterProvisioning` | internal/captive/manager.go:82-122 | succeeds exactly when captive mode is active afterwards; an entry that is not refused for its options fails only if one of its calls failed or a status did not show the access point at its address; a fresh entry installs DNS before the access point, confirms the address before pruning and redirects last, and leaves its access point as the only temporary profile; if the ledger missed nothing before, it misses nothing afterwards exactly when the entry lost no reply to an addition; no other profile changes, whatever fails |
| `Captive.Manager.LeaveProvisioning` | internal/captive/manager.go:126-134 | attempts exactly the removals that are owed and keeps exactly the failed ones; after nil nothing captive remains exactly when the ledger missed no profile, and otherwise exactly the missed ones remain |
| `Captive.Manager.CleanupLocked` | internal/captive/manager.go:136-156 | the redirect first, then the profile, then DNS; nil exactly when nothing is owed any more |
| `Captive.Manager.RecoverStartup` | internal/captive/manager.go:63-78 | all three removals are attempted whichever fails, and nil means that all went through; success on an unused manager means nothing captive remains, recorded or not, which makes the empty ledger complete |
| `Captive.RecoverAppliance` | internal/cli/run.go:133-144 | both startup recoveries run whichever fails and delete only what the crash guarantee allows; success means neither a captive resource nor a pending candidate remains, and a failure that a call failed |
| `Captive.PruningIsCleanup` | internal/captive/provisioning.go:56-75 | removing stale provisioning profiles stays within what startup may remove |
| `Captive.Manager.InstallRedirect` | internal/captive/manager.go:101-121 | the debt is recorded before the attempt, and a failure cleans up everything that is owed |
| `Captive.Start` | internal/captive/provisioning.go:78-141 | refused options touch nothing; otherwise a failure shows the call that failed or the status that did not show the access point, and all that is left behind is removed or recorded in the session, except a profile the reply to whose addition was lost; a success prunes such profiles of earlier starts |
| `Captive.ActivateAccessPoint` | internal/captive/provisioning.go:107-114 | a partially created profile is recorded before the failure is handled, unless the reply to its addition was lost |
| `Captive.ConfirmAccessPoint` | internal/captive/provisioning.go:115-138 | success means awaited, confirmed with the configured address, and pruned to one temporary profile, recorded or not before; a failure means that one of these calls failed or the status did not show the address |
| `Captive.StartFailure` | internal/captive/provisioning.go:143-156 | the session is returned exactly when something is still owed |
| `Captive.Session.Stop` | internal/captive/provisioning.go:211-230 | removes what is owed, remembers what succeeded, and is nil exactly when nothing is owed |
| `Captive.Platform.InstallRedirect` | internal/captive/redirect.go:59-76 | a failed installation may leave the table |
| `Captive.RetriesSettle` | internal/captive/manager.go:136-156 | over any series of cleanups a debt is paid exactly when one attempt at it went through |
| `Captive.StraysComeFromLosses` | internal/captive/manager.go:82-134 | over any series of entries and exits a temporary profile that nobody records goes back to an addition whose reply was lost |
| `LostReply.UnrecordedAccessPoint` | internal/captive/provisioning.go:98-114 | a concrete entry with accepted options: NetworkManager stores the access point, the call fails, the ledger stays empty, leaving finds nothing to do, and the profile is still there |
| `Captive.OthersKeepLedger` | internal/captive/manager.go:136-156 | writes made elsewhere add no temporary profile the ledger would have to record |
| `Captive.PermanentDecidesBoot` | internal/captive/provisioning.go:56-75 | captive mode cannot change what boots |
| `Captive.ProvisioningPrunesOnly` | internal/networkmanager/transitions.go:108-112 | finalizing a provisioning profile deletes other temporary profiles and nothing else |
| `Captive.ProvisioningProfileIsTemporary` | internal/captive/provisioning.go:85-96 | the added profile is owned, temporary, in memory and never autoconnect |
| `Captive.OptionsError` | internal/captive/provisioning.go:158-176 | provisioning options are accepted exactly when every listed check passes |
| `Setup.Backend.Connect` | internal/setupflow/network.go:224-248 | reads the connection to come back to first and gets nowhere without one; the transition is planned for it, for the given network and the configured policy; captive mode is left exactly after the transition has committed, and the request succeeds exactly if nothing is owed then; a failed transition leaves captive mode and its ledger as they were and is classified by its text |
| `Setup.Backend.ConnectKnownNetwork` | internal/setupflow/network.go:252-283 | the same for a saved network; an unknown, active or foreign one is refused by its reason |
| `Setup.Backend.StartStandalone` | internal/setupflow/network.go:285-306 | the same for the configured access point, exactly if standalone mode is enabled; on an address text that panics no transition runs and nothing changes |
| `Setup.Backend.KnownProfile` | internal/setupflow/network.go:329-352 | finds the owned, inactive infrastructure profile of the interface, or says exactly why not: unknown, active, or managed by others |
| `Setup.Backend.ExitCaptive` | internal/setupflow/network.go:354-365 | a cleanup failure is reported exactly when something is still owed |
| `Setup.PreviousConnection` | internal/setupflow/network.go:316-327 | a previous connection exists exactly when the device is activated with a usable IPv4 address, and it is live in that status |
| `Setup.LedgerSurvives` | internal/setupflow/network.go:224-248 | a transition that runs while captive mode is up adds no temporary profile the ledger would have to record, and what the ledger records stays deletable |
| `Engine.EvaluateDecides` | internal/appliance/engine.go:200-265 | for each stage and each way into provisioning, exactly which snapshots get it: waiting means a candidate that neither satisfies nor failed and time left, a timeout the same without time left |
| `Engine.EvaluateExplains` | internal/appliance/engine.go:200-265 | the mode, reason and detail that come with each stage: what a waiting device waits for, and the verdict on a network that is active but not good enough |
| `Engine.TimeoutOnlyEndsWaiting` | internal/appliance/engine.go:200-265 | a timed-out evaluation differs from a fresh one only by turning waiting into provisioning |
| `Engine.FindAutoconnect` | internal/appliance/engine.go:267-274 | the loop finds an autoconnect profile of the mode exactly when there is one |
| `Engine.TransitionsFormAChain` | internal/appliance/engine.go:86-100 | for every event order each transition starts where the one before it ended, with a larger number and a visible change, and nothing follows stopped |
| `Engine.ReconcileShows` | internal/appliance/engine.go:110-145 | a reconciliation that is not cut off leaves the run in the state its snapshot calls for, or failed with the text of the observation error, under its own trigger, with the timer running exactly if that state is waiting |
| `Engine.CancelEnds` | internal/appliance/engine.go:156-169 | a cancelled run ends with an interrupted state that keeps the mode, if the stream has room for it |
| `Engine.ChainMeans` | internal/appliance/engine.go:86-100 | the chain position by position |
| `Engine.StreamOpens` | internal/appliance/engine.go:147-152 | booting first, then reconciling, unless the boot was cancelled |
| `Engine.TimerRunsWhileWaiting` | internal/appliance/engine.go:135-144 | in an uncancelled run the grace timer is armed at every idle point exactly while the stage is waiting |
| `Engine.ExpiryEndsWaiting` | internal/appliance/engine.go:190-196 | expiry leaves the waiting stage, and a stopped or replaced timer never acts |
| `Engine.WaitingNeverRearms` | internal/appliance/engine.go:136-140 | further changes while waiting keep the same timer |
| `Engine.OneTimerPerWait` | internal/appliance/engine.go:136-143 | over an uncancelled run the timers created are exactly the entries into the waiting stage |
| `Engine.ReturnedStays` | internal/appliance/engine.go:156-169 | nothing happens after the run has returned |
| `Reconciler.Loop.Emit` | internal/appliance/engine.go:86-100 | emit drops duplicates, numbers what it tries to send, and gives up only when cancelled |
| `Reconciler.Loop.Reconcile` | internal/appliance/engine.go:110-145 | the closure computes the reconciliation step |
| `Reconciler.Loop.Assess` | internal/appliance/engine.go:200-265 | the branches of evaluate compute the decision function |
| `Reconciler.Loop.Turn` | internal/appliance/engine.go:154-197 | one turn of the select loop is one step |
| `Reconciler.Loop.RunLoop` | internal/appliance/engine.go:71-198 | a whole run is an execution of the steps, so its stream is a chain |
| `Observer.Normalize` | internal/appliance/engine.go:300-334 | the observer's loop computes the snapshot |
| `Observer.ActiveModeFinds` | internal/appliance/engine.go:312-324 | the active mode is the mode of the active profile, whatever its interface |
| `Observer.BootableNeverLacksCandidate` | internal/appliance/engine.go:228-232 | while some mode can boot on its own the engine never reports that there is no candidate |
| `Observer.InterruptedTransitionFindsCandidate` | internal/appliance/engine.go:300-334 | a transition with a survivor that is interrupted at any point leaves a device whose next engine does not report a missing candidate |
| `Control.NoLostRequest` | internal/recovery/control.go:200-231 | a token implies a pending request; a pending request without a token is one the controller has already woken for or will see first in its next run |
| `Control.NextRunSeesRequest` | internal/appliance/controller.go:98-105 | a request that outlives its run is what the next run acts on first |
| `Control.TakenWakeLeadsToRecovery` | internal/appliance/controller.go:139-153 | a taken wake-up leads to the recovery |
| `Control.PendingClearsOnEnter` | internal/recovery/control.go:223-231 | pending clears only when the controller acknowledges it and its last applied action is a successful enter |
| `Control.ActionDiscipline` | internal/appliance/controller.go:98-186 | applied actions are enters and leaves that strictly alternate, and after a recovery has entered no leave is applied before a provisioning state is consumed |
| `Control.StageDecidesAction` | internal/appliance/controller.go:110-138 | stage by stage what a run does: it leaves captive mode for a durable mode unless a recovery is waiting, enters it for provisioning, does nothing on the way, and ends on a failure, a missing stage and a stop |
| `Control.FailedActionEndsRun` | internal/appliance/controller.go:129-138 | an action that is due and fails ends the run and is not recorded |
| `Control.RecoveryIsNotUndone` | internal/appliance/controller.go:123-128 | between a recovery's enter and the next leave lies a consumed provisioning state |
| `Controller.Requests.Request` | internal/recovery/control.go:200-212 | marks and wakes once; false exactly when a request was pending |
| `Controller.Requests.Complete` | internal/recovery/control.go:223-231 | clears the request and any unread wake-up |
| `Controller.Loop.ApplyRecovery` | internal/appliance/controller.go:170-186 | success means entered, acknowledged and with no unread wake-up; failure means that the manager was asked to enter and failed, and keeps the request |
| `Controller.Loop.Handle` | internal/appliance/controller.go:110-138 | handles a state as the state machine does and asks the manager for exactly the action that is due; it is terminal exactly for a missing stage and for every failure but a failed observation |
| `Controller.Loop.Wake` | internal/appliance/controller.go:139-153 | a wake-up is taken, checked and served with requests arriving in between |
| `Controller.Loop.RunLoop` | internal/appliance/controller.go:89-168 | a run is a reachable execution with a disciplined log; it ends terminally exactly on a state without hope, and without a failure on a stop or when a cancellation refused its last action |
| `Control.AppliedIsLogged` | internal/appliance/controller.go:170-186 | the actions a run has applied are exactly those its log records |
| `Controller.Supervise` | internal/appliance/controller.go:327-360 | the restart budget bounds the runs, the last exit decides the verdict, and only a state without hope is terminal |
| `Template.RenderingIsSubstitution` | internal/appconfig/template.go:80-118 | a text renders to an output if and only if it is the print of a well-formed template whose pieces concatenate to it |
| `Template.RenderTemplate` | internal/appconfig/template.go:80-118 | the loop over the shrinking remainder computes the one-pass rendering |
| `Template.WellFormedRenders` | internal/appconfig/template.go:80-118 | every well-formed template renders to the concatenation of its pieces |
| `Template.RenderedIsWellFormed` | internal/appconfig/template.go:89-117 | whatever renders parses as a well-formed template |
| `Template.TrimLeftExact` | internal/appconfig/template.go:105 | trimming removes exactly the leading white space |
| `WifiQr.PayloadReadsBack` | frontend/src/model.ts:164-168 | a reader that splits on unescaped semicolons and refuses unescaped commas, colons and quotation marks gets back exactly the network name and password |
| `WifiQr.PayloadIsInjective` | frontend/src/model.ts:164-168 | different credentials never share a payload |
| `WifiQr.EscapedReadsBack` | frontend/src/model.ts:165-166 | an escaped field reads back whatever follows it |
| `Scan.Networks` | internal/setupflow/service.go:82-112 | exactly one entry per network name and security, with the greatest strength, strongest first and then by name |
| `Scan.Translate` | internal/setupflow/network.go:139-161 | the loop keeps exactly the access points that can be joined |
| `Scan.OffersAreJoinable` | internal/setupflow/network.go:139-161 | the networks offered are exactly the open access points and those protected by a passphrase, under their own name and strength |
| `Scan.ListNetworks` | internal/setupflow/service.go:82-112 | from scan to page: every joinable network is listed exactly once |
| `Scan.KeyTellsApart` | internal/setupflow/service.go:95 | the aggregation key is injective because a security holds no zero byte, even if a name does |
| `Scan.KeyNeedsPlainSecurity` | internal/setupflow/service.go:95 | without that two networks can share a key |
| `Scan.DeduplicationIsUnique` | internal/setupflow/service.go:82-112 | the specification fixes the entries; only ties are left open |
| `Scan.BeforeIsWeak` | internal/setupflow/service.go:105-110 | the comparison is a strict weak order |
| `Sorting.SortOrders` | internal/setupflow/service.go:105-110 | the stable sort orders by any strict weak order |

## Left out

- D-Bus framing, property decoding, signal watching and scanning: foreign calls with arbitrary outcomes; error texts of NetworkManager are arbitrary.
- NetworkManager's checkpoint internals: a rollback may fail or change which profile is active; it rewrites none of the stored profiles of the model, so what is proved about a rejected transition is what onboardd's own writes leave behind. A checkpoint whose creation was carried out though the call failed ends on its own later.
- Interference by other programs beyond deletion: another process may delete the profile a write is aimed at; it adds and rewrites none during a transition.
- The order in which profiles are listed: arbitrary, so the sort by name in the listing does not show.
- Strings are sequences of characters; where the source counts UTF-8 bytes the model counts elements.
- Sequence numbers of the engine are unbounded: wrapping after 2^64 transitions is not modelled.
- Operation ids are numbers assumed fresh, as the 16 random bytes of the source are; profile UUIDs likewise.
- Timers and deadlines: a grace timer is armed or fired, a deadline is a bound on polls or a nondeterministic cancellation.
- OperationService.Record.Clone: the pointers to failure and finish time inside a record are option values, so the deep part of a clone shows only as a new record with an equal value.
- Setup transitions run in their own goroutine beside the controller's entering and leaving of captive mode, under the manager's lock; the model runs one after the other.
- The blocking wait of Shutdown and its timeout: the mark, the draining and the done signal are steps; a waiter changes nothing.
- What follows a panic: nothing in the program recovers it, so the process ends; the model returns it as an outcome of its own.
- A nil captive manager in the setup backend, and the listing methods KnownNetworks and CurrentMode: they would add easy members.
- The delays and texts of the supervisor, and lifecycle observers: no effect on the protocol.
- HTTP serving, cookies, origin checks, JSON, assets, Avahi, sockets, nft and file execution: I/O.
- TOML loading, overrides, branding, device id derivation, the frontend's views and its mock device: validation, plumbing and user interface.
- Health reporting: its terminal statuses are not sticky, and what remains is easy.
- Scan.Networks: entries that tie in strength and name may come in either order, because the source walks a map before its stable sort.
- Attempts.AttemptSaved: requires the caller's guarantee that the UUID names an owned infrastructure profile of the interface under that SSID, which the setup backend checks.
- Setup.Backend.ConnectKnownNetwork: assumes that NetworkManager stores its profiles under canonical UUIDs.
- Controller.Supervise: counts runs; what the failing runs return as text is not modelled.
