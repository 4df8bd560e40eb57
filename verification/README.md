# Activation, model control and document contracts: a verified model

This project models three parts of the platform in Dafny and proves properties of every run of each.

**Skill activation.** PostgreSQL holds the pointer to the active skill set; one agent process swaps its
running generation to follow it.
- `Registry.dfy` gives each registry transaction as a function from the tables before to the tables after
  and the outcome; a RAISE is a rejected outcome that changes nothing. `RegistryTables.dfy` has the same
  transactions as methods that update tables in sequence, each proved equal to its function.
  `RegistryInvariants.dfy` and `RegistryTheorems.dfy` prove what all histories keep. Their centre is the
  activation history: pointer, versions and set states are functions of it. `RetryConditions.dfy` and
  `RetryContinuations.dfy` say exactly when repeating a call is harmless.
- `RowLocks.dfy` takes activation, archiving and targeted uploads apart into statements with row locks;
  `RowLockCommits.dfy` proves what each commit publishes.
- `Activation.dfy` is the protocol: database, network and one process. Any request ever sent may run at any
  later time, any number of times, and any reply may be lost. Calls may be cancelled, the process may crash
  and restart. `ActivationInvariants.dfy`, `ActivationSteps.dfy` and `ActivationTheorems.dfy` prove the
  invariant and the theorems, `ActivationOutcomes.dfy` how every call and restore ends, and
  `ActivationProgress.dfy` that the ends can be reached.
- `ActivationTasks.dfy` has the same process as any number of tasks around a bare lock, each with its own
  place, `transferred` flag and `finally` clause; `ActivationTaskTheorems.dfy` proves what holds of the lock
  and that these tasks and the protocol simulate each other.
- `GenerationSlot.dfy` and `GenerationSlotTheorems.dfy` are the slot with leases, reservations and the
  reaper's wakeups, one region under the lock at a time; `GenerationSlotObject.dfy` has the objects that
  implement it, and `SlotRefinement.dfy` ties it to the protocol. `JointRuns.dfy` runs coordinator and slot
  together, up to the cleanup at shutdown.

**Owned models.** `ModelSlot.dfy`, `ModelSlotTheorems.dfy` and `ModelSlotObject.dfy` are the model slot;
`ManagedModel.dfy` and `ModelStreams.dfy` the close and the two stream iterators; `ModelControl.dfy`,
`ModelControlTheorems.dfy` and `ModelControlRuns.dfy` concurrent test-and-activate calls over the revision
chains; `ModelCrypto.dfy`, `ModelConfigs.dfy` and `ModelConfigTable.dfy` the associated data, the sealed keys
and the chains.

**Document contracts.** `CanonicalJson.dfy`, `CanonicalJsonParser.dfy`, `CanonicalJsonTheorems.dfy` and
`CanonicalJsonText.dfy` are the canonical text, the parser that undoes it, and its characters and order;
`TreeLimits.dfy`, `Worklist.dfy`, `WorklistPaths.dfy`, `PayloadLimits.dfy` and `PayloadPositions.dfy` the limit
checks; `FileTree.dfy` and `FileTreeDecoding.dfy` the file tree conversion.

Two expectations turned out false of the code, and the exact conditions are proved instead:
- The activation lock is not always released. `activate` discards an invalid generation in its `finally`
  clause; if the caller is cancelled during that await, the reservation is not cancelled and the lock not
  released. `LeakExactly` proves for every run that the lock leaks exactly if this happened, `TasksMayLeak`
  gives a run.
- A repeated mutation is harmless once it changed the database, but a call that was rejected first may run
  when repeated. `HarmlessExactly` proves for every kind of call that repetitions are harmless exactly if the
  first call changed the database or the tables right after it show one of these: its key or nonce is used, its
  set is no candidate any more, the version has passed the expected one, its set or requested revisions are
  archived, repeat, share a skill or are too large, its request id is taken, the expected previous set cannot
  come to that place, or its skill is archived, renamed or cannot get back to the expected digest.

Readings of the source that matter:
- A fingerprint stands for the fields it hashes, identifiers for opaque numbers compared for equality.
- A repetition of a request may differ in what the database generates: identifiers and clock readings. Skill
  names are strings of any length, so an unused one always exists.
- Clock readings, verification results, file removal and lost connections are parameters of the steps.
- The state agreement is stated on the slot and the database. `is_ready` is not used: after a failed read of
  the pointer the status record is rebuilt without it
  (`apps/agent/src/agent_service/skill_activation_coordinator.py:483-485`).
- SQLSTATE P0002 and 54000 reach the coordinator as an unknown result, like a lost connection.

## Model

| member | source | states |
|---|---|---|
| RegistryTables.SkillRegistry.CreateAgentSkillSet | apps/skill-registry/src/skill_registry/skill_set_schema.py:370-530 | the statements of the create function reach exactly the database and outcome of the transaction `Create`: replay, nonce clash, quota of 20 candidates, repeated or unusable revisions, 16 items, total size, or one new candidate and one event |
| RegistryTables.SkillRegistry.DiscardAgentSkillSet | apps/skill-registry/src/skill_registry/skill_set_schema.py:532-624 | discarding equals the transaction `Discard`: only a candidate moves to discarded, with one event; every RAISE leaves the tables as they were |
| RegistryTables.SkillRegistry.ClonePreviousAgentSkillSet | apps/skill-registry/src/skill_registry/skill_set_schema.py:626-802 | cloning equals the transaction `Clone`: version and previous set must be the expected ones, the source superseded and still usable, the items copied in order |
| RegistryTables.SkillRegistry.ActivateAgentSkillSet | apps/skill-registry/src/skill_registry/skill_set_schema.py:804-955 | activating equals the transaction `Activate`, triggers included: compare-and-swap on the version, usable items, old set superseded, pointer moved, each item made its skill's current revision |
| RegistryTables.SkillRegistry.MarkAgentSkillSetFailed | apps/skill-registry/src/skill_registry/skill_set_schema.py:957-1062 | failing equals the transaction `MarkFailed`, which shares the activation's replay lookup, nonce check and version check |
| RegistryTables.SkillRegistry.SyncCurrentRevisions | apps/skill-registry/src/skill_registry/schema.py:1372-1386 | the trigger's update over the activated items equals the specification `SyncCurrent` |
| RegistryTables.SkillRegistry.SelectPublished | apps/skill-registry/src/skill_registry/skill_set_schema.py:474-496 | the selected items are the requested revisions in order with their skills, and their summed size is exact |
| RegistryTables.SkillRegistry.ValidateContents | apps/skill-registry/src/skill_registry/schema.py:1206-1262 | one firing of the deferred trigger raises exactly unless the set is a candidate whose items all join, are published and unarchived, and stay within 16 items and the total size, and then it stores the exact total |
| RegistryTables.SkillRegistry.FireDeferred | apps/skill-registry/src/skill_registry/skill_set_schema.py:310-315 | at the commit of a creation or clone the trigger, fired once for each item, never vetoes and changes no total |
| RegistryTables.SkillRegistry.AnyUnusable | apps/skill-registry/src/skill_registry/skill_set_schema.py:880-896 | true exactly when some item's revision is archived or missing or its skill is archived |
| RegistryTables.SkillRegistry.UploadRevision | apps/skill-registry/src/skill_registry/repository.py:88-242 | an upload equals the transaction `Upload`: one-time nonce, replacement token, digest replay, name conflict, and a current revision that moves only outside the active set |
| RegistryTables.SkillRegistry.ArchiveSkillRow | apps/skill-registry/src/skill_registry/repository.py:244-308 | archiving a skill equals the transaction `ArchiveSkill`: refused for unknown, changed and active skills |
| RegistryTables.SkillRegistry.ArchiveRevisionRow | apps/skill-registry/src/skill_registry/skill_set_schema.py:335-358 | archiving a revision equals the transaction `ArchiveRevision`: refused for revisions of the active and the previous set |
| RegistryInvariants.ActivateKeeps | apps/skill-registry/src/skill_registry/skill_set_schema.py:804-955 | activation keeps every table invariant, and a commit appends its set to the activation history over exactly the expected version |
| RegistryInvariants.MarkFailedKeeps | apps/skill-registry/src/skill_registry/skill_set_schema.py:957-1062 | failing a set keeps every table invariant and the activation history |
| RegistryInvariants.UploadKeeps | apps/skill-registry/src/skill_registry/repository.py:88-242 | uploads keep every table invariant, unique slugs and digests included |
| RegistryInvariants.ArchiveSkillKeeps | apps/skill-registry/src/skill_registry/repository.py:244-308 | archiving keeps the runtime verification query empty |
| RegistryInvariants.SyncCurrentAt | apps/skill-registry/src/skill_registry/schema.py:1372-1386 | after the trigger each activated item is current and every other skill is untouched |
| RegistryInvariants.ApplyKeeps | apps/skill-registry/src/skill_registry/skill_set_schema.py:164-224 | every transaction keeps the invariant and evolves the database monotonically: events and history only grow, set states move along candidate to active to superseded or to failed or discarded, items never change |
| RegistryTheorems.ActivationVersions | apps/skill-registry/src/skill_registry/skill_set_schema.py:271-286 | in every history the activation events carry exactly the versions 1 to n, once each, and n counts the active and superseded sets |
| RegistryTheorems.PointerNamesActiveSet | apps/skill-registry/src/skill_registry/skill_set_schema.py:898-930 | exactly the pointed set is active, the previous one is superseded and different, and there is none exactly at version 1 |
| RegistryTheorems.RuntimeVerificationEmpty | apps/skill-registry/src/skill_registry/schema.py:1735-1753 | after any history every active item is published, unarchived and its skill's current revision |
| RegistryTheorems.CandidateQuota | apps/skill-registry/src/skill_registry/skill_set_schema.py:459-464 | after any history no more than 20 sets are candidates |
| RegistryTheorems.SetLimits | apps/skill-registry/src/skill_registry/schema.py:1206-1262 | after any history every set has at most 16 items of different skills, whose revisions exist, belong to those skills and sum up to its stored size of at most 24 MiB |
| RegistryTheorems.AdmitExactly | apps/skill-registry/src/skill_registry/skill_set_schema.py:408-457 | a set function answers from an event exactly if the event has its action, target, actor, request, nonce and fingerprint, and runs exactly if no event has its nonce nor its request for that actor, action and target |
| RegistryTheorems.CreateSucceedsExactly | apps/skill-registry/src/skill_registry/skill_set_schema.py:370-530 | a new request creates a candidate with the requested revisions in order exactly if they are at most 16, different, usable, of different skills and at most 24 MiB together, fewer than 20 candidates exist, and identifier and request are free |
| RegistryTheorems.OneActivationPerSet | apps/skill-registry/src/skill_registry/skill_set_schema.py:164-224 | a set that left the candidate state never enters the activation history later, keeps its items, and changes state only from active to superseded |
| RegistryTheorems.NonceBacksOneEvent | apps/skill-registry/src/skill_registry/skill_set_schema.py:96-131 | one assertion nonce never backs two events, across all five actions |
| RegistryTheorems.RetryIsNoOp | apps/skill-registry/src/skill_registry/skill_set_schema.py:835-876 | once a call has changed the database, repeating it at any later time changes nothing, and a set function returns its first result |
| RegistryTheorems.DuplicateRemovable | apps/skill-registry/src/skill_registry/skill_set_schema.py:408-457 | removing a repeated call from any history leaves the final database unchanged |
| RegistryTheorems.EffectiveCallsSuffice | apps/skill-registry/src/skill_registry/skill_set_schema.py:557-600 | the calls that changed the database reach the same database alone, and no request is among them twice |
| RegistryTheorems.RejectedCallMayRunLater | apps/skill-registry/src/skill_registry/skill_set_schema.py:557-600 | a call rejected first may succeed when repeated, shown by a discard sent before its set exists |
| RetryContinuations.HarmlessExactly | apps/skill-registry/src/skill_registry/skill_set_schema.py:408-464 | for each of the eight kinds of call and any database: no repetition at any later time changes anything exactly if the first call changed the database, or `MayStillRun` is false of the tables after it |
| RetryConditions.MayHaveRun | apps/skill-registry/src/skill_registry/skill_set_schema.py:871-896 | a repetition that changes something, after whatever other calls, is one the tables had not ruled out right after the first call |
| RetryContinuations.StillRuns | apps/skill-registry/src/skill_registry/skill_set_schema.py:714-773 | every request the tables do not rule out has a history after which a repetition of it runs: the version raised by empty sets, the set created, the previous set brought to its place, missing revisions uploaded, the skill brought to the expected digest |
| RegistryTheorems.CloneThenActivate | apps/skill-registry/src/skill_registry/skill_set_schema.py:714-773 | a clone of the previous set, activated at any later time, brings back exactly its ordered revisions |
| RowLocks.ActiveNeverArchived | apps/skill-registry/src/skill_registry/schema.py:1264-1284 | in no interleaving of statements is an active skill archived or at another revision than the active set names |
| RowLocks.LocksExclude | apps/skill-registry/src/skill_registry/repository.py:250-291 | past its share locks an activation of a skill excludes an archive or upload of it past its row lock |
| RowLocks.ArchivedStaysInactive | apps/skill-registry/src/skill_registry/schema.py:1407-1452 | a skill archived once stays archived and out of the active set in every continuation |
| RowLocks.ActivationCommits | apps/skill-registry/src/skill_registry/schema.py:1372-1386 | a committing activation leaves each of its skills unarchived and at its own revision, whatever was uploaded meanwhile |
| RowLocks.UploadCommits | apps/skill-registry/src/skill_registry/repository.py:198-214 | a targeted upload that found its skill outside the active set moves the current revision, and the skill is still outside; one that found it inside moves nothing |
| RowLocks.UploadReadActiveSet | apps/skill-registry/src/skill_registry/repository.py:198-214 | what the upload found is what held at one moment of the run: its update matches exactly if the skill was outside the active set when the statement read it |
| RowLockCommits.OnlyCommitsPublish | apps/skill-registry/src/skill_registry/repository.py:244-308 | committed rows and the active set change by commits and new skills only |
| RowLockCommits.CreationPublishes | apps/skill-registry/src/skill_registry/repository.py:88-242 | a new skill is unarchived at its first revision, and no existing one is created again |
| RowLockCommits.ArchiveCommits | apps/skill-registry/src/skill_registry/repository.py:284-289 | a committing archive leaves its skill archived at the revision it was at, and every other row and the active set as they were |
| RowLockCommits.ActivationPublishes | apps/skill-registry/src/skill_registry/schema.py:1372-1386 | a committing activation makes its items the active set and its revisions current, of unarchived skills only, and touches no other row |
| RowLockCommits.UploadPublishes | apps/skill-registry/src/skill_registry/repository.py:198-214 | a committing upload moves the current revision of its unarchived skill outside the active set, or nothing |
| RowLockCommits.EndReleases | apps/skill-registry/src/skill_registry/repository.py:244-308 | whoever commits or aborts is gone with all its locks, and nobody else's locks change |
| RowLockCommits.ArchivedNeverUsed | apps/skill-registry/src/skill_registry/schema.py:1407-1452 | over every run: once an archive of a skill has committed, no activation containing it and no upload to it commits |
| RowLockCommits.ArchiveCompletes | apps/skill-registry/src/skill_registry/repository.py:244-308 | an unarchived skill outside the active set whose row is free can be archived |
| RowLockCommits.UploadCompletes | apps/skill-registry/src/skill_registry/repository.py:158-214 | an upload to an unarchived skill whose row is free can commit, and moves the current revision unless the skill is active |
| RowLockCommits.ActivationCompletes | apps/skill-registry/src/skill_registry/skill_set_schema.py:880-930 | with the advisory lock and its rows free an activation of unarchived skills can commit |
| RowLockCommits.ActivationOfArchivedEnds | apps/skill-registry/src/skill_registry/skill_set_schema.py:880-896 | an activation that finds a skill archived ends without effect |
| ActivationInvariants.ActivateRequestKeeps | apps/skill-registry/src/skill_registry/skill_set_schema.py:871-896 | an activation request either leaves the history alone or appends its set over exactly its expected version, and a success reported is the version that landed |
| ActivationInvariants.FailRequestKeeps | apps/skill-registry/src/skill_registry/skill_set_schema.py:1024-1060 | a failure reported as done leaves the set failed or discarded |
| ActivationInvariants.ProcessStays | apps/agent/src/agent_service/skill_activation_coordinator.py:606-677 | what the coordinator relies on survives any transaction that moves the history at most one version past its floor |
| ActivationSteps.NextKeeps | apps/agent/src/agent_service/skill_activation_coordinator.py:270-681 | every step of the protocol keeps the state invariant: environment, restore, activate, abandoned preparation, commit phase, reconciliation, answers |
| ActivationSteps.ExecKeeps | apps/agent/src/agent_service/skill_activation_coordinator.py:270-681 | hence every run keeps it |
| ActivationTheorems.Lockstep | apps/agent/src/agent_service/skill_activation_coordinator.py:402-579 | whenever runs are admitted the loaded version is the database's or one less, the loaded set is the pointer's active or previous one, and no request in flight expects a version above the loaded one |
| ActivationTheorems.NoRunWhileUnknown | apps/agent/src/agent_service/skill_activation_coordinator.py:515-579 | no run is admitted while an activation result is unknown, nor by a draining or degraded process |
| ActivationTheorems.LockHandover | apps/agent/src/agent_service/skill_activation_coordinator.py:446-480 | a step that passes the lock from one task to another never drops it on the way |
| ActivationTaskTheorems.OneResponsibleTask | apps/agent/src/agent_service/skill_activation_coordinator.py:270-319 | in every run of any number of calls and background tasks at most one live task answers for the lock, the lock is held exactly while one does or has leaked, and the unconditional release of restore never raises |
| ActivationTaskTheorems.ReleasedByResponsible | apps/agent/src/agent_service/skill_activation_coordinator.py:577-579 | the lock is released exactly by the `finally` clause of the responsible task, which always finds its own acquisition; the clauses of tasks that handed over leave it alone |
| ActivationTaskTheorems.ReleasedOnce | apps/agent/src/agent_service/skill_activation_coordinator.py:385-386 | acquisitions and releases alternate, so each acquisition is released at most once and before the next |
| ActivationTaskTheorems.WatcherEnds | apps/agent/src/agent_service/skill_activation_coordinator.py:476-493 | a caller that handed the lock over can end at any moment, its `finally` clause leaving the lock and all else alone |
| ActivationTaskTheorems.LeakExactly | apps/agent/src/agent_service/skill_activation_coordinator.py:484-493 | the lock is held with no task left to release it exactly if in the run so far some caller was cancelled during the discard in its `finally` clause |
| ActivationTaskTheorems.TasksMayLeak | apps/agent/src/agent_service/skill_activation_coordinator.py:446-493 | such a run of the tasks exists |
| ActivationTaskTheorems.PhaseIsTheTask | apps/agent/src/agent_service/skill_activation_coordinator.py:388-493 | every run of the tasks shows a run of the protocol: the one phase is where the one responsible task stands, no other task is inside its block, and the locks agree whenever no task is running |
| ActivationTaskTheorems.Simulates | apps/agent/src/agent_service/skill_activation_coordinator.py:270-681 | each step of a task is a step of the protocol or none |
| ActivationTaskTheorems.RunMatches | apps/agent/src/agent_service/skill_activation_coordinator.py:270-681 | and every run of the protocol is one of the tasks |
| ActivationTheorems.LeakLasts | apps/agent/src/agent_service/skill_activation_coordinator.py:484-493 | a leaked lock stays held with its reservation open until the process ends |
| ActivationTheorems.LeakReachable | apps/agent/src/agent_service/skill_activation_coordinator.py:446-493 | a concrete run that leaks the lock |
| ActivationTheorems.Conservation | apps/agent/src/agent_service/skill_activation_coordinator.py:388-579 | between activations every prepared generation was installed or dropped and every reservation committed or cancelled, unless shutdown stopped a reconciliation, and then all but the last |
| ActivationTheorems.OnePending | apps/agent/src/agent_service/skill_generation_slot.py:253-284 | at most one generation and one reservation are pending, and the slot is reserved exactly while the last reservation is open |
| ActivationTheorems.FatesAreFinal | apps/agent/src/agent_service/skill_activation_coordinator.py:388-579 | a fate once final never changes, so each generation and reservation ends in exactly one way |
| ActivationTheorems.DiscardSparesLoaded | apps/agent/src/agent_service/skill_generation_slot.py:360-364 | no discard the coordinator makes names the directory of the current generation, and none is made while one is retired |
| ActivationTheorems.LoadedDirectoriesPresent | apps/agent/src/agent_service/skill_generation_slot.py:303-338 | the directories of the current and the retired generation are there, but for what shutdown cleaned up, and then the process drains and admits nobody |
| ActivationTheorems.CleanupAdmitsNobody | apps/agent/src/agent_service/skill_runtime_manager.py:226-241 | where shutdown can clean the current generation up no run is admitted, nor in any continuation while the process lives |
| ActivationTheorems.Fencing | apps/agent/src/agent_service/skill_activation_coordinator.py:606-677 | once reconciliation resumes the old generation, the candidate is failed or discarded and out of the history in every continuation, and its activation request is rejected whenever it arrives |
| ActivationTheorems.FailedNeverActivates | apps/skill-registry/src/skill_registry/skill_set_schema.py:871-879 | no activation of a failed or discarded set can commit, under any nonce or version |
| ActivationTheorems.ActivatedNeverFails | apps/skill-registry/src/skill_registry/skill_set_schema.py:1024-1046 | no activated set can be marked failed |
| ActivationTheorems.CommittedIsInstalled | apps/agent/src/agent_service/skill_activation_coordinator.py:618-645 | if the activation did commit, the next poll installs it, clears the degradation and releases the lock |
| ActivationTheorems.CommitAlwaysFits | apps/agent/src/agent_service/skill_activation_coordinator.py:532-563 | the two defensive branches of the commit phase never run: the version reported is the expected one plus one, the slot can commit, and the pointed set is the activated one |
| ActivationOutcomes.CallOutcome | apps/agent/src/agent_service/skill_activation_coordinator.py:388-681 | over every run of one accepted activate call, whatever else happens: at its end the lock is free, runs are admitted exactly if the process neither drains nor is degraded, and either the candidate runs under the next version and the database holds that activation, or the former generation runs on with what was prepared dropped and the reservation cancelled, or shutdown left the result unknown; until then the former generation is in place and the process degraded exactly while the result is unknown |
| ActivationOutcomes.CommitInstalls | apps/agent/src/agent_service/skill_activation_coordinator.py:541-579 | after a known success the next step installs the candidate under the reported version, retires the former generation if it has a directory or a lease, clears the lock and any degradation, and admits runs exactly unless draining |
| ActivationOutcomes.DefiniteDiscards | apps/agent/src/agent_service/skill_activation_coordinator.py:527-531 | after a definite failure the call ends with the candidate discarded and its reservation cancelled, and slot, admission, database and requests as they were |
| ActivationOutcomes.AbortedDiscards | apps/agent/src/agent_service/skill_activation_coordinator.py:515-531 | so does a request that failed for certain without an answer |
| ActivationOutcomes.UnknownDegrades | apps/agent/src/agent_service/skill_activation_coordinator.py:515-526 | without an answer the process is degraded and admits nobody, and goes on holding candidate and reservation |
| ActivationOutcomes.AnswerDecides | apps/agent/src/agent_service/skill_activation_coordinator.py:505-531 | the answer to an awaited activation is a version the database now holds, or a definite failure that changed nothing |
| ActivationOutcomes.SentWhenValid | apps/agent/src/agent_service/skill_activation_coordinator.py:446-475 | an activation is requested only for a candidate that was prepared and found valid |
| ActivationOutcomes.ReapingRemoves | apps/agent/src/agent_service/skill_generation_slot.py:329-338 | reaping lets the retired generation go, its directory exactly if it was removed, and never that of the current one |
| ActivationOutcomes.CleanupRemoves | apps/agent/src/agent_service/skill_generation_slot.py:366-371 | the cleanup at shutdown is possible exactly once the process drains with nothing retired, and takes the current directory only |
| ActivationOutcomes.RestoreOutcome | apps/agent/src/agent_service/skill_activation_coordinator.py:270-319 | over every run of restore: at its end the lock is free and nothing was sent, and the process either admits runs on the set the database activated last or the one before, or unconfigured without one, or is degraded, closed and empty-handed |
| ActivationProgress.ActivationSucceeds | apps/agent/src/agent_service/skill_activation_coordinator.py:388-579 | from every reachable state, a new call for a ready, usable candidate activates it when the answer arrives: pointer, set state, generation and admission |
| ActivationProgress.LostAnswerSucceeds | apps/agent/src/agent_service/skill_activation_coordinator.py:606-648 | so does a call whose answer is lost after the activation committed |
| ActivationProgress.ReadyReachable | apps/agent/src/agent_service/skill_activation_coordinator.py:388-425 | states from which these runs start are reachable |
| ActivationProgress.LostRequestFences | apps/agent/src/agent_service/skill_activation_coordinator.py:649-663 | a call whose request never arrives marks the candidate failed, discards it, and the former generation admits runs again |
| ActivationProgress.FencedResumes | apps/agent/src/agent_service/skill_activation_coordinator.py:664-677 | a poll that finds the candidate failed or discarded and the pointer unmoved ends the call with the candidate gone, and the former generation admits runs again unless the process drains |
| ActivationProgress.InvalidFails | apps/agent/src/agent_service/skill_activation_coordinator.py:446-493 | an invalid candidate is marked failed and discarded, no activation is requested, and the process is as it was |
| ActivationProgress.UnpreparedFails | apps/agent/src/agent_service/skill_activation_coordinator.py:446-493 | a candidate that cannot be prepared is marked failed, and only a cancelled reservation is left |
| ActivationProgress.CancelledCleansUp | apps/agent/src/agent_service/skill_activation_coordinator.py:361-386 | a call cancelled during preparation ends when the preparation does, with the process, database and requests as they were |
| ActivationProgress.UnknownStops | apps/agent/src/agent_service/skill_activation_coordinator.py:606-681 | shutdown while the result is unknown ends the call with the lock free and nothing settled |
| ActivationProgress.RestoreServesActive | apps/agent/src/agent_service/skill_activation_coordinator.py:282-297 | restoring a valid active set ends with exactly that set under the pointer's version, admitting runs |
| ActivationProgress.RestoreServesUnconfigured | apps/agent/src/agent_service/skill_activation_coordinator.py:277-281 | without an active set restore ends unconfigured and admits runs |
| ActivationProgress.RestoreRefusesInvalid | apps/agent/src/agent_service/skill_activation_coordinator.py:298-319 | restoring an invalid active set ends closed and degraded with the set discarded |
| ActivationProgress.RestoreFailsClosed | apps/agent/src/agent_service/skill_activation_coordinator.py:298-319 | so does one that cannot be prepared |
| SlotRefinement.ReserveRefines | apps/agent/src/agent_service/skill_generation_slot.py:253-259 | the generation slot grants a reservation exactly when the protocol's slot can be reserved |
| SlotRefinement.CommitRefines | apps/agent/src/agent_service/skill_generation_slot.py:261-279 | committing a held reservation always succeeds and is the protocol's install, the leases deciding retirement |
| SlotRefinement.CancelRefines | apps/agent/src/agent_service/skill_generation_slot.py:281-284 | cancelling is the protocol's cancellation |
| SlotRefinement.ReapRefines | apps/agent/src/agent_service/skill_generation_slot.py:325-338 | cleaning an entry is the protocol's reaping |
| SlotRefinement.OtherStepsInvisible | apps/agent/src/agent_service/skill_generation_slot.py:227-251 | leases, waiters and wakeups never show in the protocol's slot |
| SlotRefinement.RunRefines | apps/agent/src/agent_service/skill_generation_slot.py:170-385 | every run of the generation slot is, step for step, a run of the protocol's slot |
| JointRuns.RunAgrees | apps/agent/src/agent_service/skill_activation_coordinator.py:388-579 | in every run of coordinator, run responses and reaper over one slot, both models stay reachable and agree on generations, reservation and admission |
| JointRuns.NeverRefused | apps/agent/src/agent_service/skill_activation_coordinator.py:388-579 | the slot never refuses what the coordinator asks of it: every step the coordinator can take goes through, whatever the slot does of its own happens in it, and what the cleaner finished can be let go |
| JointRuns.AdmittedInStep | apps/agent/src/agent_service/skill_generation_slot.py:227-233 | a run admitted in such a run leases the pointer's active set or the one before it, and the references count exactly the live leases |
| JointRuns.LeasedDirectoryPresent | apps/agent/src/agent_service/skill_generation_slot.py:253-279 | every live lease is on the loaded or the retired generation, and the directory of that generation is there |
| JointRuns.CleanupUnleased | apps/agent/src/agent_service/skill_generation_slot.py:366-371 | the current generation is cleaned up only when no run is admitted and no lease is live, and none is captured afterwards |
| GenerationSlotTheorems.NextKeeps | apps/agent/src/agent_service/skill_generation_slot.py:214-384 | every region of the slot and every turn of its reaper keeps the invariant |
| GenerationSlotTheorems.LeaseSafety | apps/agent/src/agent_service/skill_generation_slot.py:227-284 | references count the live leases exactly, every live lease is on the current or retired entry, and a reservation and a retired entry never coexist |
| GenerationSlotTheorems.CleanedNeverLeased | apps/agent/src/agent_service/skill_generation_slot.py:303-338 | an entry being cleaned, or ever cleaned, has no live lease in any continuation |
| GenerationSlotTheorems.HeldReservationCommits | apps/agent/src/agent_service/skill_generation_slot.py:261-279 | a reservation still held can always be committed; the old entry retires exactly if it has leases or a directory, and no lease is lost |
| GenerationSlotTheorems.ReservationEndsOnce | apps/agent/src/agent_service/skill_generation_slot.py:100-119 | after its commit or cancellation a reservation never commits again and cancelling it does nothing |
| GenerationSlotTheorems.WaitersHaveCause | apps/agent/src/agent_service/skill_generation_slot.py:340-358 | pending lease waiters imply a live lease, pending reap waiters a retired entry |
| GenerationSlotTheorems.NoLostWakeup | apps/agent/src/agent_service/skill_generation_slot.py:296-338 | while the reaper runs, the steps already under way make it clean a reapable entry, and end a closing reaper with nothing to clean |
| GenerationSlotTheorems.RetiredGetsCleaned | apps/agent/src/agent_service/skill_generation_slot.py:303-338 | those steps and the end of the cleaning remove a retired entry without leases, wake whoever waits for it, and leave the current entry and the leases alone |
| GenerationSlotTheorems.CloseCompletes | apps/agent/src/agent_service/skill_generation_slot.py:373-384 | a close with nothing left to clean completes, the reaper gone, and leaves the slot itself as it was |
| GenerationSlotTheorems.ReaperSettles | apps/agent/src/agent_service/skill_generation_slot.py:303-322 | a reaper woken with nothing to do waits again with its event cleared |
| GenerationSlotObject.SkillGenerationSlot.Capture | apps/agent/src/agent_service/skill_generation_slot.py:227-233 | capturing equals `CaptureStep` and hands out a lease on the current entry, or none when runs are refused |
| GenerationSlotObject.SkillGenerationSlot.Release | apps/agent/src/agent_service/skill_generation_slot.py:235-251 | releasing equals `ReleaseStep`: once per lease, waking lease waiters and the reaper when due |
| GenerationSlotObject.SkillGenerationSlot.ReserveReplacement | apps/agent/src/agent_service/skill_generation_slot.py:253-259 | reserving equals `ReserveStep` |
| GenerationSlotObject.SkillGenerationSlot.Commit | apps/agent/src/agent_service/skill_generation_slot.py:107-112 | committing equals `CommitStep` on a new entry, or fails without effect |
| GenerationSlotObject.SkillGenerationSlot.CancelReservation | apps/agent/src/agent_service/skill_generation_slot.py:114-119 | cancelling equals `CancelStep` |
| GenerationSlotObject.SkillGenerationSlot.WaitReaped | apps/agent/src/agent_service/skill_generation_slot.py:340-347 | one round waits exactly when an entry is retired |
| GenerationSlotObject.SkillGenerationSlot.WaitLeasesDrained | apps/agent/src/agent_service/skill_generation_slot.py:349-358 | one round waits exactly when some lease is live |
| GenerationSlotObject.SkillGenerationSlot.ReaperChecks | apps/agent/src/agent_service/skill_generation_slot.py:309-322 | the reaper picks the retired entry exactly when it has no references and is not being cleaned |
| GenerationSlotObject.SkillGenerationSlot.CleanerReturns | apps/agent/src/agent_service/skill_generation_slot.py:329-338 | after cleaning the entry is gone and its waiters are woken |
| GenerationSlotObject.SkillGenerationSlot.Start | apps/agent/src/agent_service/skill_generation_slot.py:214-225 | starting equals `StartStep` and owes a notification |
| GenerationSlotObject.SkillGenerationSlot.BeginClose | apps/agent/src/agent_service/skill_generation_slot.py:373-381 | closing equals `BeginCloseStep` and owes a notification |
| GenerationSlotObject.SkillGenerationSlot.BeginAclose | apps/agent/src/agent_service/skill_generation_slot.py:373-381 | aclose up to its await is the three steps of closing admission, marking the close and notifying the reaper, the last two only if there is one |
| GenerationSlotObject.SkillGenerationSlot.CleanupCurrent | apps/agent/src/agent_service/skill_generation_slot.py:366-371 | cleanup_current is refused exactly while the current entry has references, and otherwise no live lease is on the entry it hands to the cleaner |
| ModelSlotTheorems.NextKeeps | apps/agent/src/agent_service/model_runtime_slot.py:331-543 | every region of the slot and every turn of its event loop keeps the invariant |
| ModelSlotTheorems.VersionsIncrease | apps/agent/src/agent_service/model_runtime_slot.py:331-368 | installed versions strictly increase and only the newest delegate can be active |
| ModelSlotTheorems.OnlyStaleRefused | apps/agent/src/agent_service/model_runtime_slot.py:350-358 | a serving slot refuses an activation exactly when its version is not newer than the newest installed |
| ModelSlotTheorems.ClosedOnce | apps/agent/src/agent_service/model_runtime_slot.py:390-413 | a delegate is on its way to the reaper or was taken by it, once in all, exactly when it is retired with no call in flight |
| ModelSlotTheorems.ClosingServesNobody | apps/agent/src/agent_service/model_runtime_slot.py:451-474 | once its close has begun a delegate serves no call in any continuation |
| ModelSlotTheorems.ShutdownClosesAll | apps/agent/src/agent_service/model_runtime_slot.py:502-543 | a shutdown that did not time out returns only after every installed delegate had exactly one close, with no call left |
| ModelSlotTheorems.EndIsQuiet | apps/agent/src/agent_service/model_runtime_slot.py:520-543 | once shutdown waits for nothing more no delegate is under way, and when it is over, timed out or not, the reaper is gone |
| ModelSlotTheorems.ShutdownCompletes | apps/agent/src/agent_service/model_runtime_slot.py:502-543 | from wherever a started slot is, calls returning and the reaper working can bring a shutdown to its end without a timeout, the reaper gone |
| ModelSlotTheorems.TimesOut | apps/agent/src/agent_service/model_runtime_slot.py:520-543 | once it waits a shutdown can time out at any moment; calls stay as they are, and a close under way counts as the one close of its delegate |
| ModelSlotTheorems.WayIsOpen | apps/agent/src/agent_service/model_runtime_slot.py:437-474 | an entry on its way can always be moved on: enqueued, taken, or waiting for a close that can return |
| ModelSlotObject.ModelRuntimeSlot.Capture | apps/agent/src/agent_service/model_runtime_slot.py:397-405 | capturing equals `CaptureStep` on the active delegate, or is refused |
| ModelSlotObject.ModelRuntimeSlot.Release | apps/agent/src/agent_service/model_runtime_slot.py:407-413 | releasing equals `ReleaseStep` and yields the delegate when its last call after retirement returned |
| ModelSlotObject.ModelRuntimeSlot.Activate | apps/agent/src/agent_service/model_runtime_slot.py:331-368 | activating equals `ActivateStep`: installed with a newer version, the former delegate retired, or refused without effect |
| ModelSlotObject.ModelRuntimeSlot.Deactivate | apps/agent/src/agent_service/model_runtime_slot.py:370-388 | deactivating equals `DeactivateStep` |
| ModelSlotObject.ModelRuntimeSlot.RetireActiveLocked | apps/agent/src/agent_service/model_runtime_slot.py:390-395 | retiring equals `RetireActive` and yields the delegate exactly when it has no call in flight |
| ModelSlotObject.ModelRuntimeSlot.EnqueueRetired | apps/agent/src/agent_service/model_runtime_slot.py:437-443 | enqueueing equals `EnqueueStep` and clears the drained event |
| ModelSlotObject.ModelRuntimeSlot.TakeRetired | apps/agent/src/agent_service/model_runtime_slot.py:451-463 | taking equals `TakeStep` on the head of the queue |
| ModelSlotObject.ModelRuntimeSlot.FinishClose | apps/agent/src/agent_service/model_runtime_slot.py:463-474 | a close that came back leaves one delegate less pending and sets the event at zero |
| ModelSlotObject.ModelRuntimeSlot.RetireForShutdown | apps/agent/src/agent_service/model_runtime_slot.py:502-519 | the first region of the shutdown equals `RetireForShutdownStep` |
| ManagedModel.ClosesOnce | apps/agent/src/agent_service/model_runtime_types.py:44-53 | however calls of aclose overlap, the callback runs at most once and has run when any of them returns |
| ManagedModel.CallReturns | apps/agent/src/agent_service/model_runtime_types.py:44-53 | wherever a call of aclose is, it can go on to return, the callback having run once |
| SyncStream.ReleasedOnce | apps/agent/src/agent_service/model_runtime_slot.py:111-173 | any number of threads close the inner iterator and release the captured call at most once, never while another thread advances it |
| SyncStream.CloseReleases | apps/agent/src/agent_service/model_runtime_slot.py:152-173 | when a call of close comes back the captured call has been released |
| SyncStream.FailedNextReleases | apps/agent/src/agent_service/model_runtime_slot.py:111-150 | a next that failed comes back only when the captured call has been released |
| SyncStream.CloseEnds | apps/agent/src/agent_service/model_runtime_slot.py:152-173 | wherever threads are, one inside close, or on its way there after a failure, can go on to come back with the call released |
| SyncStream.NextAdvances | apps/agent/src/agent_service/model_runtime_slot.py:128-145 | on an open, idle stream a next advances the inner iterator and leaves the stream open and idle |
| SyncStream.NextRefused | apps/agent/src/agent_service/model_runtime_slot.py:128-134 | once the close is requested, or while another operation is under way, a next changes nothing |
| AsyncStream.ReleasedOnce | apps/agent/src/agent_service/model_runtime_slot.py:176-243 | concurrent calls of aclose release the captured call at most once, after the operation under way, and exactly once when any has returned |
| AsyncStream.FailedNextCloses | apps/agent/src/agent_service/model_runtime_slot.py:190-216 | a next that failed has requested the close and its task before it comes back |
| AsyncStream.CloserReturns | apps/agent/src/agent_service/model_runtime_slot.py:217-243 | whoever waits for the close can come back, the call released once |
| AsyncStream.NextAdvances | apps/agent/src/agent_service/model_runtime_slot.py:193-210 | on an open, idle stream a next advances the inner iterator and leaves the stream open and idle |
| ModelControlTheorems.NextKeeps | apps/agent/src/agent_service/model_control_service.py:640-727 | every step of concurrent activations, saves, late commits and cancellations keeps the invariant of lock, flights, candidates and slot |
| ModelControlTheorems.Agreement | apps/agent/src/agent_service/model_control_service.py:640-724 | outside the moment between a commit and its installation an available dynamic model has the pointer's configuration, revision and version, and the deployment model means no pointer |
| ModelControlTheorems.AgreementAfterReply | apps/agent/src/agent_service/model_control_service.py:703-724 | when the reply arrives the slot is brought to the pointer and the lock released |
| ModelControlTheorems.NeverStale | apps/agent/src/agent_service/model_control_service.py:705-724 | a serving slot never rejects a committed version as stale |
| ModelControlTheorems.LostCommitOvertaken | apps/agent/src/agent_service/model_config_repository.py:1040-1071 | a commit whose reply was lost can no longer run once a model is active, now or later |
| ModelControlTheorems.CandidateConserved | apps/agent/src/agent_service/model_control_service.py:725-727 | every candidate built is handed to the slot or closed, once in all, when its call ends and not before |
| ModelControlTheorems.LockIsSection | apps/agent/src/agent_service/model_control_service.py:644-645 | the activation lock is held exactly from loading the pointer to the end of the commit |
| ModelControlRuns.TestedFirst | apps/agent/src/agent_service/model_control_service.py:582-645 | over every run: a call that waits for the lock, holds it, has a commit on its way or handed its candidate over was begun for its revision and its own test succeeded before |
| ModelControlRuns.FailedTestMovesNothing | apps/agent/src/agent_service/model_control_service.py:582-622 | a call whose test failed never holds the lock, commits nothing, hands nothing over, and none of its steps moves pointer or slot |
| ModelControlRuns.OnlyTestedServe | apps/agent/src/agent_service/model_control_service.py:640-724 | over every run the pointer and every model given to the slot, unless restored, were committed by a call begun for that revision whose own test had succeeded |
| ModelControlRuns.LostByLostReplies | apps/agent/src/agent_service/model_control_service.py:688-703 | a restored slot has no model only after it was stopped or a reply was lost |
| ModelControlRuns.LastIsNewest | apps/agent/src/agent_service/model_runtime_slot.py:350-358 | over every run the newest version ever installed is that of the model that serves, if one does, and there is none before the first |
| ModelControlRuns.RestoreAgrees | apps/agent/src/agent_service/app.py:248-333 | what restoring a built model leaves agrees with the pointer |
| ModelControlRuns.CommitExactly | apps/agent/src/agent_service/model_config_repository.py:1027-1095 | the transaction commits exactly if the tested configuration is still current and the version the expected one; then the active row holds it one version on, else nothing moves |
| ModelControlRuns.RefusedMovesNothing | apps/agent/src/agent_service/model_control_service.py:672-687 | a refused commit leaves pointer and model alone, frees the lock and leaves the candidate to be closed |
| ModelControlRuns.SaveExactly | apps/agent/src/agent_service/model_config_repository.py:1212-1298 | a save moves the head exactly if it expects the current revision |
| ModelControlRuns.BeginsExactly | apps/agent/src/agent_service/model_control_service.py:489-508 | a call begins exactly for the current revision of a known provider |
| ModelControlRuns.SuccessfulCall | apps/agent/src/agent_service/model_control_service.py:582-727 | with the lock free, a call whose test succeeds can get its configuration active in database and slot, its candidate handed over |
| ModelControlRuns.FailedCall | apps/agent/src/agent_service/model_control_service.py:582-622 | a call whose test fails can end with its candidate closed and everything else as it was, whoever holds the lock |
| ModelCrypto.IntegerRoundTrip | apps/agent/src/agent_service/model_config_crypto.py:81-82 | the big-endian bytes, as many as the bit length asks for, read back to the integer |
| ModelCrypto.FramesInjective | apps/agent/src/agent_service/model_config_crypto.py:77-78 | length-framed fields are uniquely readable |
| ModelCrypto.AssociatedDataInjective | apps/agent/src/agent_service/model_config_crypto.py:85-99 | different contexts of configuration, provider, revision and key version never share associated data |
| ModelCrypto.OpensInItsContextOnly | apps/agent/src/agent_service/model_config_crypto.py:127-160 | with an ideal cipher a sealed key opens in its own context to what was sealed, and in no other |
| ModelCrypto.SealsExactly | apps/agent/src/agent_service/model_config_crypto.py:62-74 | sealing succeeds exactly for keys of 8 to 4096 characters without white space, a positive revision and a nonce of twelve bytes; the hint is the last four characters |
| ModelCrypto.OpensWhatIsSealed | apps/agent/src/agent_service/model_config_crypto.py:166-216 | opening yields a secret exactly if sealing that secret in the same context under the same nonce yields what was opened |
| ModelCrypto.SpaceCodePoints | apps/agent/src/agent_service/model_config_crypto.py:71-71 | the 29 characters that count as white space |
| ModelCrypto.IntegerMinimal | apps/agent/src/agent_service/model_config_crypto.py:81-82 | an integer takes one byte, or its first byte is not zero |
| ModelCrypto.AssociatedDataReadsBack | apps/agent/src/agent_service/model_config_crypto.py:77-99 | the associated data reads back, frame by frame, as the domain, the 16 identifier bytes, the provider's name, the revision and the key version |
| ModelConfigs.SaveEffect | apps/agent/src/agent_service/model_config_repository.py:1212-1298 | a successful save extends the chain by one revision, makes the asked key the head's, and leaves every other provider alone |
| ModelConfigs.CarriesHeadKey | apps/agent/src/agent_service/model_control_service.py:357-397 | the row loaded earlier is the head the save replaces, so the key carried over is the current one |
| ModelConfigs.KeyCarriedOver | apps/agent/src/agent_service/model_control_service.py:357-428 | after any run of interleaved loads and saves the revisions are 1 to the number of successful saves, only the last is current, and opening it yields the key supplied last or the keyless constant |
| ModelConfigs.FirstSupplies | apps/agent/src/agent_service/model_control_service.py:360-386 | the first save of a provider always supplies a key, so a last one exists |
| ModelConfigs.SavesExactly | apps/agent/src/agent_service/model_control_service.py:357-428 | a save succeeds exactly if it expects the current revision, has a valid key, needs none, or loaded the row it replaces, and identifier and nonce are free |
| ModelConfigs.CarryOverWorks | apps/agent/src/agent_service/model_control_service.py:357-428 | a load followed by a save without a key extends the chain and keeps the key |
| ModelConfigs.FailsAs | apps/agent/src/agent_service/model_control_service.py:357-428 | which failure every other save reports |
| ModelConfigs.RevisionsImmutable | apps/agent/src/agent_service/model_config_schema.py:189-216 | no stored revision ever changes, except that the current one may be retired for good |
| ModelConfigTable.ModelConfigRepository.LockCurrentHead | apps/agent/src/agent_service/model_config_repository.py:95-99 | the row locked is the one current row of its provider, if there is one |
| ModelConfigTable.ModelConfigRepository.SaveDraftRow | apps/agent/src/agent_service/model_config_repository.py:1212-1298 | the statements of save_draft equal the transaction `SaveDraft`, and a failure leaves the table as it was |
| CanonicalJsonTheorems.PrintParses | packages/document-content/src/contracts.ts:663-672 | the text of any value parses back to that value with its keys in order |
| CanonicalJsonTheorems.Unambiguous | packages/document-content/src/contracts.ts:663-672 | two values have the same text exactly when they are equal up to the order of keys, a non-finite number counting as null and an array of one undefined as empty |
| CanonicalJsonTheorems.PrintPaired | packages/document-content/src/contracts.ts:328-332 | the text never holds a lone surrogate, so hashing its UTF-8 form loses nothing |
| CanonicalJsonTheorems.ParsesString | packages/document-content/src/contracts.ts:664-664 | every string reads back from its JSON form, whatever follows |
| CanonicalJsonTheorems.SortAscends | packages/document-content/src/contracts.ts:668-670 | the sorted keys ascend in the recursive order `Less` |
| CanonicalJsonTheorems.AscendingUnique | packages/document-content/src/contracts.ts:668-670 | which the set of keys determines |
| CanonicalJsonText.LessExactly | packages/document-content/src/contracts.ts:668-670 | that order is the order of code units: a proper prefix first, else the first difference decides |
| CanonicalJsonText.SortPrecedes | packages/document-content/src/contracts.ts:668-670 | the keys of a record are printed strictly ascending in that order |
| CanonicalJsonText.CanonRecord | packages/document-content/src/contracts.ts:666-671 | what a record's text reads back to has each of its properties once, with its own value, ascending in that order |
| CanonicalJsonText.EscapeShortest | packages/document-content/src/contracts.ts:664-664 | whatever text JSON reads as a string is at least as long as the printed one, and equally long only if it is the printed one |
| CanonicalJsonText.EscapeIdentity | packages/document-content/src/contracts.ts:664-664 | a string of printable characters and surrogate pairs without quotes and backslashes stays as it is |
| CanonicalJsonText.EscapesByCharacter | packages/document-content/src/contracts.ts:664-664 | the escapes with a letter, and those of quote and backslash |
| CanonicalJsonText.UnicodeEscapesByDigit | packages/document-content/src/contracts.ts:664-664 | other control characters and lone surrogates print as \u and their four lower-case digits of base 16 |
| CanonicalJsonText.ConstantsByCharacter | packages/document-content/src/contracts.ts:663-672 | the punctuation and the words of the text, character by character |
| TreeLimits.AssertTreeLimits | packages/document-content/src/markdown.ts:320-340 | accepted exactly if the recursive node count and height are within the limits; each error is reported only when its limit is passed |
| TreeLimits.CheckHastSize | packages/document-content/src/contracts.ts:226-247 | the size refinement accepts exactly the trees within the same limits |
| TreeLimits.WithinIsHeight | packages/document-content/src/contracts.ts:226-247 | the depth bound is the recursive height |
| Worklist.RunDecides | packages/document-content/src/contracts.ts:620-655 | a worklist run ends on any expansion, circular ones included, and accepts exactly what has a finite expansion within the limits and without repetition |
| WorklistPaths.RunListsPaths | packages/document-content/src/contracts.ts:620-655 | equivalently, exactly if the paths below the start can be listed, each once, everything they lead to fits, and it adds up to no more than the limits |
| Worklist.ReachedTwiceRejected | packages/document-content/src/contracts.ts:637-638 | an identity reached along two different paths has no accepted expansion, whatever the limits |
| PayloadLimits.IsBoundedUnknownPayload | packages/document-content/src/contracts.ts:620-655 | accepted exactly if the heap below the value is a tree without shared objects, within 80000 values, depth 112 and the bytes allowed |
| PayloadLimits.CheckHast | packages/document-content/src/contracts.ts:595-617 | the second loop accepts exactly the values whose children arrays form a tree within the limits |
| PayloadLimits.PreflightSafeHastRoot | packages/document-content/src/contracts.ts:590-618 | both checks, or anything that is no record |
| PayloadLimits.PreflightSafeDocumentBody | packages/document-content/src/contracts.ts:506-588 | success exactly for a record whose renderModel.root, if the last properties of those names hold records, is a safe root, and whose heap is within all limits; "body" for anything that is no record, "renderModel.root" for an unsafe root |
| PayloadPositions.PayloadExactly | packages/document-content/src/contracts.ts:620-655 | the payload check accepts exactly if the property paths from the input can be listed, at most 80000 of them, none longer than 112, no two to one object, and the values add up to the bytes allowed |
| PayloadPositions.BodyExactly | packages/document-content/src/contracts.ts:518-588 | the body check accepts exactly if the same holds with 832 KiB in all and 512 KiB on the paths whose first name is renderModel |
| PayloadPositions.HastExactly | packages/document-content/src/contracts.ts:595-617 | the children of a root are within the limits exactly if the paths of children from it are at most 10000 and none longer than 32 |
| PayloadPositions.DeepRootUnsafe | packages/document-content/src/contracts.ts:595-617 | a root with a chain of more than 32 children below it is not safe |
| PayloadPositions.KidsExactly | packages/document-content/src/contracts.ts:609-614 | the children looked at are the elements, in order, of the array in the last property "children" of a record, and none otherwise |
| PayloadPositions.ReportedName | packages/document-content/src/contracts.ts:541-565 | an entry is reported under the first name on its property path, at the depth of its length, and counts as render model exactly below that name |
| PayloadPositions.FailureNamesPath | packages/document-content/src/contracts.ts:530-587 | a failure of the body loop is reported as renderModel or under the first name on some property path of the body |
| PayloadPositions.OwnBytesExactly | packages/document-content/src/contracts.ts:638-651 | a string counts its bytes, an object the bytes of its keys, anything else eight |
| PayloadLimits.CheckBody | packages/document-content/src/contracts.ts:530-587 | the loop reports the path of the first entry past a limit |
| PayloadLimits.SharedObjectRejected | packages/document-content/src/contracts.ts:637-638 | an object reached from the input along two different property paths is rejected whatever the limits |
| PayloadLimits.CycleRejected | packages/document-content/src/contracts.ts:637-638 | so is any object below the input that leads back to itself, however long the way round |
| PayloadLimits.SelfReferenceRejected | packages/document-content/src/contracts.ts:637-638 | in particular an object that refers to itself |
| FileTree.ParseFileTree | packages/document-content/src/legacy-mdx.ts:256-294 | the loop over the lines equals the specification `Parsed` |
| FileTree.AcceptsWellNested | packages/document-content/src/legacy-mdx.ts:256-294 | accepted are exactly the spellings of non-empty forests, and the text is their indented listing |
| FileTreeDecoding.DecodesExactlyClean | packages/document-content/src/legacy-mdx.ts:256-294 | the listing decodes back to its forest exactly when no name starts with two blanks and no file name ends with a slash |
| FileTreeDecoding.ListingInjective | packages/document-content/src/legacy-mdx.ts:256-294 | two clean forests never share a listing |
| FileTreeDecoding.OnlyForestExactly | packages/document-content/src/legacy-mdx.ts:256-294 | among all forests with names, clean or not, a forest is the only one with its listing exactly if no line of the listing could name a folder |
| FileTreeDecoding.UncleanCollide | packages/document-content/src/legacy-mdx.ts:256-294 | two examples of forests with unclean names that share the listing of a clean one |
| FileTreeDecoding.TextReadsBack | packages/document-content/src/legacy-mdx.ts:290-294 | the joined text splits and decodes back to the tree the tags spell |

## Left out

- The coordinator and the model control service are step relations on values, one step per stretch of code
  between two awaits: their interleaving is the point, and a class would fix one order.
- The status record, failure codes shown to callers and `is_ready`: derived text, not used by the protocol.
- Several agent processes at once, and progress of a reconciliation whose pointer an older process moved.
- Cancellation of `restore`; shutdown while `restore` still runs, which the lifecycle excludes.
- `set_no`, timestamps other than the pointer's ordering, the `replayed` flag, role and format checks of
  arguments, grants, and the replay lookup made once more before the advisory lock.
- Activation and failure requests come from coordinators only, so a fingerprint fixes the version it expects.
- The lease object's own lock: setting its flag and the slot's region are one step.
- A closing slot restarted while a second close still waits for the first reaper.
- A foreign event loop releasing a model call, and cancellation while an iterator waits for its condition.
- Model slot shutdown cancelled by its caller: treated like the timeout it shares its branch with.
- AES-GCM, UTF-8 encoding of keys and random nonces: the cipher is ideal and a nonce a parameter.
- Building, verifying and revealing models, endpoint rules and event rows beyond their one-time nonce.
- RowLocks.LocksExclude: revision rows are not locked in this model, since only skills are archived by the
  registry's own callers; the whole-transaction model covers archived revisions.
- JSON numbers are their printed decimal text, so the printing of doubles is not modelled; objects hold own
  string keys only.
- PayloadLimits.CheckBody: the reported path is tied to the run of the loop, not to an order-free description,
  because which entry passes a limit first depends on the order of the stack.
- The length of a key in UTF-8 is given with the key; exotic objects and getters are not modelled.
- The regular expressions that turn a line into a tag, and the search for the component in its document.
- Loading sets and files of an artifact, the materializer, the root directory lifecycle of the runtime manager
  but for the cleanup of the current generation, whose check and removal are one step.
- HTTP, UI, seeding, Markdown parsing, URL checks and schema migration.
