# Verified model of the OpenAI Responses proxy

The proxy relays Responses requests to interchangeable providers and replaces its own payload while it
serves. This project models the parts of it in which order, interruption or rewriting decide whether it
is right, and proves what they promise:

- **Payload transactions.** Install, upgrade and return to the retained predecessor change a journal, a
  transaction directory, a generation store with its selector, a command link and an installed record.
  Each write is atomic, a crash may fall between any two, and `recover` may itself be interrupted.
  `PayloadState` and `PayloadTransaction` give every operation as the sequence of durable states it
  writes; `PayloadHost` and `PayloadOwner` are the imperative program, proved to make exactly those
  writes; `PayloadRuns` closes the operations under crashes and re-entry; `PayloadRecovery`,
  `PayloadProperties` and `PayloadFinality` hold the results, `PayloadControl` says which versions are
  admitted and get lifecycle control, `PayloadLaw` what may be written in any state at all, and
  `PayloadWitnesses` has runs in which a promise fails. `Deployment` is the upgrade that drives a transaction.
- **Purge.** `Purge` removes journaled files, with a crash after any number of deletions.
- **Listener handoff.** `Handoff` interleaves the parent's serve loop, the preparing request, the commit
  thread and the replacement processes; `HandoffSafety` proves the transition table and mutual exclusion,
  `HandoffLimits` what recorded outcomes mean and where each promise ends, `HandoffProgress` that a failed
  preparation frees the session and how the serve loop goes on or leaves, `HandoffRecords` that every
  handoff is recorded once.
- **Replay projection and recovery.** `Json`, `ToolRelationships`, `ReplayContent` and `ReplayProjection`
  model the request sanitizer; `ReplayGrammar` states the portable grammar without the projector and
  proves that the two coincide, `ReplayAccepts` gives the exact language of accepted requests,
  `ReplayMeaning` says what a projected item still says and what is stripped, dropped, rejected and
  counted, and `ReplayRaises` finds the requests on which it raises. `Recovery` and `RecoverySafety` do the same for the smaller bodies built after a failure, and `RecoveryMeaning` says by
  positions what they hold.
- **Relay.** `SseFraming` and `SseRelay` model event framing, the chunked coding of section 7.1 of
  RFC 9112 and the reconnecting relay, `SseMeaning` which events are withheld or shown and when the relay
  reconnects; `Exchange` is the bounded retry loop.
- **Two algorithms.** `DependencyCycles` (over `Reachability`) is Tarjan's search as the quality tool
  writes it; `BoundedLog` is log rotation.

## What the proofs found

- A recovery that finalizes without projecting the command link leaves the link dangling exactly when it
  still points at the generation that finalizing prunes (`RecoveryDanglesIff`). A run from an empty host
  gets there by an interrupted return followed by a recovery that finds the candidate serving
  (`DanglingRun`). Runs without such a step keep every owned link on a complete generation
  (`PrudentRuns`).
- A rolled back transaction leaves the installed record naming a removed generation exactly when the
  record had been written in the materialized phase (`RolledBackInstalledIff`, `ForgottenRecordRun`).
- A transaction directory without a journal, and a prepared journal whose directory already holds the
  rollback directory, are refused by every recovery of every later state, and once the owner is gone no
  step of any run changes them (`StuckForever`); runs cut short at one write reach both
  (`UnjournaledRun`, `PreparedRun`). While the owner lives it can still roll the prepared one back,
  exactly unless the snapshot was not yet written (`OwnerRollsBackIff`, `OwnerUndoesRun`).
- A rollback right after activation fails exactly when control stays with another generation and the
  link was absent or pointed elsewhere before (`RollbackAfterActivationIff`); a return on a host whose
  command link was removed does this (`WedgedRun`).
- A parent that admits a handoff request while a replacement accepts on its listener, which it does for a
  session that is finalized, can end up with two replacements accepting at once
  (`EndangeringBreaksExclusion`, `ExclusionCanFail`). Without such a request exclusion holds in every
  interleaving (`MutualExclusion`).
- The parent itself can accept again beside the replacement it handed over to: such a request, aborted
  and rolled back, makes a serve loop that still waits for an outcome resume (`ParentCanJoin`,
  `ExposingBreaksExclusion`). This happens exactly when the request is admitted before the serve loop is
  gone for good (`ParentExclusion`).
- A request admitted between the commit's seeing its replacement finalize and its recording so makes the
  late record speak of the wrong handoff (`OvertakingDisagrees`, `OutcomeCanDisagree`), and can leave a
  rolled back session that nothing resets (`OvertakingForgetsReset`, `ResetCanBeForgotten`). Without one the
  recorded `finalized` is true (`FinalizedIsProved`); a recorded `rolled_back` always is
  (`RolledBackMeansExited`).
- A failed preparation whose replacement is seen to exit frees the session at once (`ResetFrees`); one
  whose exit could not be confirmed bars every later handoff request
  (`UnconfirmedPreparationIsForever`).
- An unconfirmed abort keeps the parent from accepting again exactly through the stopped accept loop: if
  the commit had seen it stop, for ever (`UnconfirmedIsForever`); if not, the parent accepts on until the
  shutdown that follows (`AcceptsSoon`, `UnstoppedAccepts`, `LateStopEnds`).
- A request whose role, phase or local shell status is a list or an object is not rejected by the
  sanitizer: the set membership test raises `TypeError`. The model has it as the reason
  `UnhashableValue`, with its exact condition (`SanitizeRaisesIff`, `SanitizerRaises`). Input recovery has
  the same for the type of a content block (`DialogueRaisesIff`).
- The retry bound is 4 + stages + 2 opens, and 5 more with every stream reopen. A wire retry never
  follows an input-variant recovery, so the two extra opens exclude each other; the bound is reached
  (`RetryBound`, `BoundAttained`). A payload called invalid has the disposition of a single retry, and
  never gets it: the retry excludes status 400, the only status with that disposition
  (`OthersEndAtOnce`). Any other request does fall past the loop
  (`OtherRequestsFallThrough`).

## Model

| member | source | states |
|---|---|---|
| `PayloadHost.Host.RecoverPayload` | src/openai_responses_proxy/lifecycle/transaction.py:36-114 | Recovery, as a program over the disk, makes exactly the specified durable writes and returns the specified verdict, in every state |
| `PayloadHost.Host.RecoverTransaction` | src/openai_responses_proxy/lifecycle/transaction.py:36-114 | The program itself, from any state of a transaction: the independently judged verdict, every written state keeps the invariant and is bound for the same end, the last one is that end; an unbindable supervisor only cuts it short |
| `PayloadHost.Host.AdoptServing` | src/openai_responses_proxy/lifecycle/transaction.py:74-97 | Adopting a serving candidate makes exactly the specified writes: selection, link, record, then completion |
| `PayloadHost.Host.RollBackMaterialized` | src/openai_responses_proxy/lifecycle/transaction.py:286-369 | Undoing a materialized transaction on the evidence of a matching or absent runtime makes exactly the specified writes |
| `PayloadHost.Host.ReturnToPrior` | src/openai_responses_proxy/lifecycle/transaction.py:350-369 | The return to the prior generation makes exactly the specified writes |
| `PayloadHost.Host.RestoreProjection` | src/openai_responses_proxy/lifecycle/transaction.py:263-283 | Detach the candidate's link, restore selection, restore the saved link: exactly these writes, and which cases are refused |
| `PayloadHost.Host.RetainSelection` | src/openai_responses_proxy/lifecycle/transaction.py:210-249 | Selects the candidate over the prior active generation, or refuses |
| `PayloadHost.Host.RecordInstallation` | src/openai_responses_proxy/lifecycle/transaction.py:186-207 | Writes the installed record before completing as finalized |
| `PayloadHost.Host.CompleteWith` | src/openai_responses_proxy/lifecycle/transaction.py:792-802 | Records the terminal state first, then disposes |
| `PayloadHost.Host.Cleanup` | src/openai_responses_proxy/lifecycle/transaction.py:845-898 | Disposal in order: generations, transaction directory, journal last; see the note below on the empty install directory |
| `PayloadHost.Host.SelectPair` | src/openai_responses_proxy/lifecycle/generation.py:130-153 | Selects only complete, distinct generations, in one write |
| `PayloadHost.Host.RemoveOne` | src/openai_responses_proxy/lifecycle/generation.py:167-190 | Removes one unselected generation through its partial state, and the store once it is empty |
| `PayloadHost.Host.PruneStore` | src/openai_responses_proxy/lifecycle/generation.py:193-211 | Removes everything but the kept generations, one after another in any listing order |
| `PayloadHost.Host.ProjectCommand` | src/openai_responses_proxy/lifecycle/command.py:125-152 | Links the command to a target over nothing, an owned link or exactly the saved link; refuses any other |
| `PayloadHost.Host.DetachCommand` | src/openai_responses_proxy/lifecycle/command.py:155-165 | Takes the link away when it is the candidate's or already the saved one; refuses any other |
| `PayloadHost.Host.RestoreCommand` | src/openai_responses_proxy/lifecycle/command.py:168-179 | Makes the saved link again unless it already stands; refuses a foreign one |
| `PayloadOwner.Owner.CommitProjection` | src/openai_responses_proxy/lifecycle/transaction.py:478-535 | From a prepared owner: materializes the candidate, or undoes what a failing step left; the in-process phase follows the disk; any other owner is refused and writes nothing |
| `PayloadOwner.Owner.ActivateCandidate` | src/openai_responses_proxy/lifecycle/transaction.py:537-568 | Activation cut short after any write: exactly those writes, and the phase the owner is left in |
| `PayloadOwner.Owner.FinalizeCandidate` | src/openai_responses_proxy/lifecycle/transaction.py:570-585 | Finalizing makes exactly the specified writes; a failure after the first of them leaves the owner in need of recovery |
| `PayloadOwner.Owner.Rollback` | src/openai_responses_proxy/lifecycle/transaction.py:587-603 | Rolling back makes exactly the specified writes, a failed one changes no phase, and rolling back twice does nothing more |
| `PayloadOwner.Owner.PreserveForRecovery` | src/openai_responses_proxy/lifecycle/transaction.py:612-630 | Leaves a recovery-required journal and nothing else |
| `PayloadOwner.Owner.OwnJournal` | src/openai_responses_proxy/lifecycle/transaction.py:632-640 | The owner acts only on its own, non-terminal journal |
| `PayloadRuns.StepKeeps` | src/openai_responses_proxy/lifecycle/transaction.py:36-898 | The system invariant survives every operation, cut short after any of its durable writes, with the in-process owner gone or still there |
| `PayloadRuns.RunKeeps` | src/openai_responses_proxy/lifecycle/transaction.py:36-898 | Every state of every run of begin, commit, activate, finalize, rollback, preserve and recover satisfies the invariant |
| `PayloadProperties.SelectorNamesComplete` | src/openai_responses_proxy/lifecycle/generation.py:130-211 | In every durable state of every run the selector names only complete generations |
| `PayloadProperties.CrashAtomic` | src/openai_responses_proxy/lifecycle/transaction.py:210-283 | While the journal is open the selection is the prior one or (transaction, prior active) and every prior generation exists; a recorded end fixes selection and link target |
| `PayloadFinality.EndsAllOrNothing` | src/openai_responses_proxy/lifecycle/transaction.py:792-898 | Whenever a run becomes idle again, everything is as the transaction found it, up to the inode of the link and the installed record, or exactly its candidate is in place; as recorded if an end was recorded |
| `PayloadProperties.IdleStoreIsClosed` | src/openai_responses_proxy/lifecycle/rollback.py:94-114 | At every idle state the store is exactly {active, predecessor}, all complete, or neither store nor selector exists |
| `PayloadProperties.DanglesIffStale` | src/openai_responses_proxy/lifecycle/generation.py:193-211 | After a finalized transaction is disposed of the link dangles exactly when it pointed at the pruned predecessor |
| `PayloadProperties.RecoveryDanglesIff` | src/openai_responses_proxy/lifecycle/transaction.py:64-97 | A finalizing recovery leaves the link on a complete generation exactly when it projects the link or the link was not stale |
| `PayloadProperties.InterruptedReturnDangles` | src/openai_responses_proxy/lifecycle/transaction.py:263-283 | The family of states from which an interrupted return leaves a dangling link |
| `PayloadWitnesses.DanglingRun` | src/openai_responses_proxy/lifecycle/transaction.py:263-283 | A run from an empty host into that family, ending idle with a dangling link |
| `PayloadWitnesses.ForgottenRecordRun` | src/openai_responses_proxy/lifecycle/transaction.py:55-97 | A run from an empty host that ends idle with an installed record of a removed generation |
| `PayloadWitnesses.WedgedRun` | src/openai_responses_proxy/lifecycle/transaction.py:263-283 | A run of a return on a host without a command link after which no rollback goes through |
| `PayloadWitnesses.UnjournaledRun` | src/openai_responses_proxy/lifecycle/state.py:63-75 | A run from an empty host that is cut short into a transaction directory without a journal |
| `PayloadWitnesses.PreparedRun` | src/openai_responses_proxy/lifecycle/transaction.py:117-124 | A run from an empty host that is cut short into a prepared journal with a rollback directory |
| `PayloadWitnesses.GoesThrough` | src/openai_responses_proxy/lifecycle/transaction.py:478-585 | Every transaction that may begin on an idle host whose command link is absent or its own has a run that goes through and ends finalized |
| `PayloadProperties.CommittedInstalled` | src/openai_responses_proxy/lifecycle/transaction.py:186-207 | A finalized transaction's installed record names the active generation |
| `PayloadProperties.RolledBackInstalledIff` | src/openai_responses_proxy/lifecycle/transaction.py:55-97 | A recovery that rolls back leaves the record of the active generation exactly when the candidate had not been recorded, which takes the materialized phase |
| `PayloadProperties.PrudentRuns` | src/openai_responses_proxy/lifecycle/transaction.py:36-898 | In runs without the two failing kinds of step an owned link always points at a complete generation and at idle the installed record names the active one |
| `PayloadProperties.EmptyHostIsGood` | src/openai_responses_proxy/lifecycle/transaction.py:766-775 | Runs may start on an empty host |
| `PayloadRecovery.RecoverReaches` | src/openai_responses_proxy/lifecycle/transaction.py:36-114 | Recovery ends with the verdict of an independent judgement of the state, and every state on the way keeps the invariant and is bound for the same end |
| `PayloadRecovery.Resumable` | src/openai_responses_proxy/lifecycle/transaction.py:36-114 | Recovery interrupted after any durable write and run again on the same evidence reaches the same verdict and final state, up to the link's inode |
| `PayloadRecovery.EndsUniquely` | src/openai_responses_proxy/lifecycle/transaction.py:792-886 | How a transaction ends, with link target and record, determines the final durable state |
| `PayloadRecovery.TerminalIsFinal` | src/openai_responses_proxy/lifecycle/transaction.py:845-886 | Recovery of a recorded end only disposes and forgets |
| `PayloadFinality.TerminalNeverChanges` | src/openai_responses_proxy/lifecycle/transaction.py:845-886 | In every run a recorded terminal state never changes: nothing but disposal happens until the run is idle, and then the transaction has ended as recorded |
| `PayloadFinality.RecordedRecovers` | src/openai_responses_proxy/lifecycle/transaction.py:143-169 | Recovery of a recorded activation finalizes, or refuses only for want of a supervisor, and every state it writes stays recorded or finalized |
| `PayloadFinality.RecordedNeverRollsBack` | src/openai_responses_proxy/lifecycle/transaction.py:143-207 | In every run, once an activated transaction is recorded, no later step rolls it back, whatever recoveries find or fail to bind |
| `PayloadFinality.StuckForever` | src/openai_responses_proxy/lifecycle/transaction.py:117-124 | In every run, once its owner is gone, a transaction directory without a journal, or a prepared journal with a rollback directory, is refused by every recovery and changed by no step |
| `PayloadFinality.OwnerRollsBackIff` | src/openai_responses_proxy/lifecycle/transaction.py:587-610 | While its owner lives a prepared transaction can be rolled back to what it was, exactly unless the rollback directory was made and its snapshot not yet written; then nothing is written |
| `PayloadWitnesses.OwnerUndoesRun` | src/openai_responses_proxy/lifecycle/transaction.py:523-535 | A run in which the owner undoes a state that recovery would refuse |
| `PayloadRecovery.BindingOnlyInterrupts` | src/openai_responses_proxy/lifecycle/transaction.py:143-207 | A supervisor that cannot be bound only cuts recovery short |
| `PayloadControl.NewerIffExceeds` | src/openai_responses_proxy/lifecycle/state.py:267-278 | One version is newer exactly when the first of major, minor and patch in which they differ is greater |
| `PayloadControl.ControlIsNewest` | src/openai_responses_proxy/lifecycle/generation.py:91-105 | Control lies with a selected generation that no selected one exceeds in version; the active one has it unless the predecessor exceeds it |
| `PayloadControl.AdmitsExactlyNewer` | src/openai_responses_proxy/lifecycle/transaction.py:715-731 | A release is admitted over an installed one exactly when its version exceeds that of every selected generation |
| `PayloadControl.AdmitsInstallIff` | src/openai_responses_proxy/lifecycle/transaction.py:715-731 | Exactly when an installation is admitted, in any state at all |
| `PayloadControl.AdmitsReverseIff` | src/openai_responses_proxy/lifecycle/rollback.py:94-114 | Exactly when a return is admitted: the store holds the two selected generations and no other, both complete, and the active one is recorded |
| `PayloadControl.FinalizedControls` | src/openai_responses_proxy/lifecycle/generation.py:91-105 | In every run a forward transaction that ends with its candidate selected leaves control with that candidate |
| `PayloadControl.PatchUpgrade` | src/openai_responses_proxy/lifecycle/transaction.py:715-731 | A run in which 1.2.4 is admitted over 1.2.3 and ends with selection, link and control; 1.2.3 again and 1.2.2 are refused (`PatchBegins`) |
| `PayloadLaw.RecoverIsLawful` | src/openai_responses_proxy/lifecycle/transaction.py:36-898 | In any durable state whatsoever every write of recovery is lawful: one component at a time; the journal closed once and removed last; no selected generation touched; only complete, distinct generations selected; a link that is not ours left alone; no write to an open transaction without its directory |
| `PayloadLaw.CommitIsLawful` | src/openai_responses_proxy/lifecycle/transaction.py:478-535 | The same for every write of a commit, however it fails |
| `PayloadLaw.ActivateIsLawful` | src/openai_responses_proxy/lifecycle/transaction.py:537-568 | The same for activation |
| `PayloadLaw.FinalizeIsLawful` | src/openai_responses_proxy/lifecycle/transaction.py:570-630 | The same for finalizing and for preserving |
| `PayloadLaw.RollBackIsLawful` | src/openai_responses_proxy/lifecycle/transaction.py:587-610 | The same for the owner's rollback |
| `PayloadLaw.DamageIsRefused` | src/openai_responses_proxy/lifecycle/transaction.py:36-124 | States that recovery refuses without a write, whatever brought them about |
| `PayloadLaw.UnboundIsRefused` | src/openai_responses_proxy/lifecycle/transaction.py:143-369 | Without a supervisor nothing is finalized, and nothing rolled back but a fresh install and a return that had not begun to save |
| `PayloadLaw.UntouchedReturnIff` | src/openai_responses_proxy/lifecycle/transaction.py:286-369 | A return that had not begun to save is closed as rolled back if and only if its prior generation is complete, recorded, linked and serving |
| `PayloadLaw.ServingNeedsSnapshot` | src/openai_responses_proxy/lifecycle/transaction.py:74-97 | Adopting a serving candidate without the snapshot is refused after at most the selection |
| `PayloadLaw.CommitsIff` | src/openai_responses_proxy/lifecycle/transaction.py:478-535 | Exactly when a commit goes through, and the whole state after it |
| `PayloadLaw.ActivatesIff` | src/openai_responses_proxy/lifecycle/transaction.py:537-568 | When an activation goes through, and selection, link and journal after it |
| `PayloadLaw.RestoresPrior` | src/openai_responses_proxy/lifecycle/transaction.py:263-283 | Selection and link are those saved, unless another selection stands, the snapshot is missing or a link is in the way |
| `PayloadLaw.RetainsIff` | src/openai_responses_proxy/lifecycle/transaction.py:210-249 | The final selection is written if and only if its generations are complete and distinct; else it is journaled that recovery is required |
| `PayloadLaw.SelectsIff` | src/openai_responses_proxy/lifecycle/generation.py:130-153 | A selection is written if and only if its generations are complete and distinct |
| `PayloadLaw.ProjectsIff` | src/openai_responses_proxy/lifecycle/command.py:125-152 | A link is made if and only if its target is a complete generation and nothing, that link or the saved one stands there |
| `PayloadLaw.DetachesIff` | src/openai_responses_proxy/lifecycle/command.py:155-165 | A link is taken away if and only if it is the candidate's or the saved one |
| `PayloadLaw.RestoresIff` | src/openai_responses_proxy/lifecycle/command.py:168-179 | The saved link stands again, by its target, if and only if no other link is in the way |
| `PayloadLaw.RemovesIff` | src/openai_responses_proxy/lifecycle/generation.py:167-190 | A generation goes if and only if it is not selected and the selection can be read, and the store with the last one |
| `Deployment.Upgrade` | src/openai_responses_proxy/lifecycle/deployment/apply.py:165-255 | For every combination of step failures the disposition is decided, in both directions, by how far the upgrade got: abandoned exactly when nothing was materialized, finalized exactly when every step was done, preserved, rolled back or wedged each under its exact condition; the same read off the single steps in their order; never rolled back after the successor committed, rolled back while admission may be closed only when it was proved reopened |
| `Deployment.Settle` | src/openai_responses_proxy/lifecycle/deployment/apply.py:214-255 | Which end follows from the result of the steps, the commit flag and admission, each as an if-and-only-if |
| `Deployment.RollbackAfterActivationIff` | src/openai_responses_proxy/lifecycle/transaction.py:587-603 | A rollback right after activation succeeds if and only if the link it made can be recognized again |
| `Purge.Install.Inspect` | src/openai_responses_proxy/lifecycle/projection.py:47-59 | Nothing is deleted unless every journaled path still standing has its journaled digest |
| `Purge.Install.UnlinkAll` | src/openai_responses_proxy/lifecycle/projection.py:60-69 | Unlinks journaled files with journaled digests only, each one lawful in the deletion log, wherever it is cut short |
| `Purge.Install.RemoveEmptyDirectories` | src/openai_responses_proxy/lifecycle/projection.py:109-128 | Removes exactly the owned directories that nothing else stands in, deepest first |
| `Purge.Install.PurgeOwned` | src/openai_responses_proxy/lifecycle/projection.py:47-78 | Reaches the closed-form result, or changes nothing when an identity changed |
| `Purge.Install.DetachSelector` | src/openai_responses_proxy/lifecycle/transaction.py:851-856 | The selector is gone before anything else is touched, or the purge is refused |
| `Purge.Install.FinishCleanup` | src/openai_responses_proxy/lifecycle/transaction.py:845-886 | The selector goes before any other file; the journal disappears only when nothing is left; unless cut short it is done if and only if the tree was purgeable |
| `Purge.InterruptionKeeps` | src/openai_responses_proxy/lifecycle/projection.py:47-78 | A purge interrupted anywhere leaves the same result to reach and the same verdict |
| `Purge.Resume` | src/openai_responses_proxy/lifecycle/transaction.py:805-886 | Over any number of interrupted runs only journaled bytes are deleted and the final verdict is that of one uninterrupted run |
| `Purge.FinalIs` | src/openai_responses_proxy/lifecycle/projection.py:47-128 | What a purge leaves, said of paths alone: every other file as it was, and every directory but those that lead to a journaled file and hold only such files and directories however deep |
| `Purge.OwnTreeIsPurgeable` | src/openai_responses_proxy/lifecycle/projection.py:47-128 | A tree of journaled files and of directories that lead to them can be purged |
| `HandoffSafety.MutualExclusion` | src/openai_responses_proxy/service/handoff/transaction.py:228-503 | In every interleaving in which no request is admitted while a replacement accepts, at most one accept loop runs, parent or replacement |
| `HandoffLimits.EndangeringBreaksExclusion` | src/openai_responses_proxy/service/handoff/transaction.py:264-277 | The condition is needed: after every such run a request admitted while a replacement accepts can be continued to two replacements accepting |
| `HandoffSafety.ParentExclusion` | src/openai_responses_proxy/service/handoff/transaction.py:228-503 | In every interleaving in which such a request is admitted only after the serve loop is gone for good, the parent never accepts beside a replacement |
| `HandoffLimits.ExposingBreaksExclusion` | src/openai_responses_proxy/service/handoff/transaction.py:264-277 | That condition is needed: after every run that met it, such a request admitted earlier can be continued, over one or two rollbacks, to the parent accepting beside the replacement |
| `HandoffLimits.ParentCanJoin` | src/openai_responses_proxy/service/handoff/transaction.py:391-410 | A run from rest in which the parent accepts beside the replacement it handed over to |
| `HandoffLimits.ExclusionCanFail` | src/openai_responses_proxy/service/handoff/transaction.py:264-277 | A run from rest in which two replacements accept at once |
| `HandoffLimits.RolledBackMeansExited` | src/openai_responses_proxy/service/handoff/transaction.py:340-347 | In every run a recorded `rolled_back` implies that the replacement of the handoff has exited |
| `HandoffLimits.FinalizedIsProved` | src/openai_responses_proxy/service/handoff/transaction.py:336-338 | In every run in which no request overtakes a commit, a recorded `finalized` implies that the replacement of the same handoff finalized |
| `HandoffLimits.OvertakingDisagrees` | src/openai_responses_proxy/service/handoff/transaction.py:337-338 | The condition is needed: a request admitted between seeing the replacement finalize and recording it can be continued to a `finalized` that is not true of the current handoff |
| `HandoffLimits.OutcomeCanDisagree` | src/openai_responses_proxy/service/handoff/transaction.py:337-338 | A run from rest that does so |
| `HandoffLimits.UnconfirmedIsParked` | src/openai_responses_proxy/service/handoff/transaction.py:340-350 | Where no replacement was endangered: with an unconfirmed abort and a living replacement that may accept, the parent has left its accept loop or will before it accepts |
| `HandoffLimits.StoppedUntilRollback` | src/openai_responses_proxy/service/handoff/transaction.py:327-404 | In every run, once a commit has seen the accept loop stop, the parent accepts again only after reading a recorded rollback |
| `HandoffLimits.UnconfirmedIsForever` | src/openai_responses_proxy/service/handoff/transaction.py:340-410 | In every run, after an unconfirmed abort is recorded by a commit that had stopped the accept loop, the parent never accepts again |
| `HandoffLimits.AcceptsSoon` | src/openai_responses_proxy/service/handoff/transaction.py:348-349 | Otherwise a parent that is not parked accepts now or within two steps of its loop |
| `HandoffLimits.LateStopEnds` | src/openai_responses_proxy/service/handoff/transaction.py:348-349 | The shutdown that such a commit still owes ends it: the parent finishes at most the acceptance it is in, and never accepts again |
| `HandoffLimits.UnstoppedAccepts` | src/openai_responses_proxy/service/handoff/transaction.py:327-350 | A run from rest in which the stop fails and the parent accepts after the unconfirmed abort is recorded |
| `HandoffSafety.FollowsTable` | src/openai_responses_proxy/service/handoff/transaction.py:90-130 | In every run every session-state change is an edge of the transition table, a reset to idle followed by one, or the childless reset |
| `HandoffSafety.TableIs` | src/openai_responses_proxy/service/handoff/transaction.py:90-100 | The table is one stage on and round again, an abort from strictly inside, and from there back to idle |
| `HandoffProgress.ResetFrees` | src/openai_responses_proxy/service/handoff/transaction.py:209-218 | In every run a reset leaves the session idle, and after a failed preparation the next request is admitted at once |
| `HandoffProgress.RolledBackIsReset` | src/openai_responses_proxy/service/handoff/transaction.py:209-247 | In every run in which no request overtakes a commit, a rolled back session has its reset still before it |
| `HandoffRecords.OvertakingForgetsReset` | src/openai_responses_proxy/service/handoff/transaction.py:264-350 | The condition is needed: after every run an overtaking request can be continued to a rollback whose record the late one replaces, so that nothing resets the session |
| `HandoffRecords.ResetCanBeForgotten` | src/openai_responses_proxy/service/handoff/transaction.py:264-350 | A run from rest that does so |
| `HandoffProgress.SecondRequestSucceeds` | src/openai_responses_proxy/service/handoff/transaction.py:228-304 | A run from rest: a preparation fails, and the next request hands the listener over |
| `HandoffProgress.UnconfirmedPreparationIsForever` | src/openai_responses_proxy/service/handoff/transaction.py:209-247 | In every run, once the abort of a preparation could not be confirmed, no request is admitted again |
| `HandoffProgress.ServesOn` | src/openai_responses_proxy/service/handoff/transaction.py:391-410 | Without a request to stop, the serve loop goes on accepting turn after turn |
| `HandoffProgress.LeavesFromAnywhere` | src/openai_responses_proxy/service/handoff/transaction.py:391-410 | With one, it leaves from anywhere inside |
| `HandoffProgress.WakesToStop` | src/openai_responses_proxy/service/handoff/transaction.py:362-410 | In every run a loop that wakes without a recorded rollback never serves again |
| `HandoffRecords.EachHandoffIsRecorded` | src/openai_responses_proxy/service/handoff/transaction.py:307-350 | In every run the replacements that got ready are as many as the outcomes recorded and the commits under way: none is recorded twice and none forgotten |
| `HandoffRecords.EachFinalizedIsRecorded` | src/openai_responses_proxy/service/handoff/transaction.py:337-341 | In every run each replacement seen to finalize is recorded as finalized once, or still to be |
| `HandoffRecords.EachStopIsMadeGood` | src/openai_responses_proxy/service/handoff/transaction.py:327-350 | In every run each stop that failed is made good once, or still to be |
| `HandoffRecords.RecordsSay` | src/openai_responses_proxy/service/handoff/transaction.py:307-350 | In every run a record says what happened: finalized, or, after an abort, whether the exit was confirmed |
| `HandoffRecords.ExitIsFinal` | src/openai_responses_proxy/service/handoff/transaction.py:228-503 | In every run a replacement that has exited does nothing more |
| `HandoffRecords.ObeysExpected` | src/openai_responses_proxy/service/handoff/transaction.py:413-503 | A replacement goes on with the order it waits for and fails with any other, taking nothing on |
| `HandoffRecords.FailureIsNoExit` | src/openai_responses_proxy/service/handoff/transaction.py:413-503 | A replacement that fails still accepts until it exits |
| `HandoffRecords.EachChildIsNew` | src/openai_responses_proxy/service/handoff/transaction.py:278-292 | In every run no replacement's identity is used twice |
| `HandoffRecords.OneChildEach` | src/openai_responses_proxy/service/handoff/transaction.py:264-292 | In every run there are at most as many replacements as admitted requests |
| `HandoffRecords.CommitMayRollBack` | src/openai_responses_proxy/service/handoff/transaction.py:228-247 | Wherever a commit waits it may fail, and the whole state after the recorded rollback |
| `HandoffRecords.CommitMayStayUnconfirmed` | src/openai_responses_proxy/service/handoff/transaction.py:340-350 | Or its abort cannot be confirmed, and the whole state after that is recorded |
| `HandoffRecords.NeverStuck` | src/openai_responses_proxy/service/handoff/transaction.py:228-410 | In every run a commit or preparation under way, and a serve loop not stopped, can take a step |
| `ToolRelationships.Relationships.See` | src/openai_responses_proxy/protocol/replay/items.py:163-201 | The tracker object does what the tracker function says: new state and first issue |
| `ToolRelationships.Relationships.AdmitDelivery` | src/openai_responses_proxy/protocol/replay/items.py:203-214 | A later result is admitted only for a named function or custom call under a new identifier |
| `ToolRelationships.TrackerAgrees` | src/openai_responses_proxy/protocol/replay/items.py:163-214 | One pass reports no issue if and only if the list satisfies the declarative specification, and then remembers exactly its calls, answers and identifiers |
| `ToolRelationships.PendingIff` | src/openai_responses_proxy/protocol/replay/items.py:224-229 | A call kind is pending exactly when some call of it has no later output |
| `ToolRelationships.OneOutputEach` | src/openai_responses_proxy/protocol/replay/items.py:183-201 | Without identifiers of their own two outputs never share a call |
| `ToolRelationships.PairsAre` | src/openai_responses_proxy/protocol/replay/items.py:74-109 | Which output type answers which call type: these four pairs and no other |
| `ReplayMeaning.PairIsKept` | src/openai_responses_proxy/protocol/replay/items.py:74-109 | A portable call followed by its own kind of output is left alone |
| `ReplayMeaning.CrossedPairIsRejected` | src/openai_responses_proxy/protocol/replay/items.py:183-201 | Followed by the other kind of output it is rejected |
| `ReplayMeaning.OutputRefusals` | src/openai_responses_proxy/protocol/replay/projection.py:372-441 | An output without a call is refused as an orphan, a second one without an identifier as a repetition |
| `ReplayMeaning.LaterResultIsDelivered` | src/openai_responses_proxy/protocol/replay/items.py:203-214 | Call, output, later result: the first two are left alone and the third becomes a message that names call and tool before its text |
| `ReplayMeaning.ShellCallObserved` | src/openai_responses_proxy/protocol/replay/items.py:183-229 | A local shell call is pending until its output, which answers it and is no delivery |
| `ReplayContent.ProjectInputContent` | src/openai_responses_proxy/protocol/replay/content.py:77-158 | The loop over content blocks computes the content function |
| `ReplayContent.ProjectAssistantText` | src/openai_responses_proxy/protocol/replay/content.py:161-211 | The loop over assistant blocks computes the assistant text function |
| `ReplayContent.InputContentSound` | src/openai_responses_proxy/protocol/replay/content.py:77-158 | Accepted input content leaves in the portable grammar |
| `ReplayContent.InputContentFixed` | src/openai_responses_proxy/protocol/replay/content.py:77-158 | Portable content is left as it is and nothing is counted |
| `ReplayContent.InputContentKeeps` | src/openai_responses_proxy/protocol/replay/content.py:77-158 | Everything shown stays in order, every block that is gone was counted, and a marker stands only for ciphertext without text |
| `ReplayMeaning.ContentCounts` | src/openai_responses_proxy/protocol/replay/content.py:77-158 | Every ciphertext and every image that cannot be replayed is counted, and a marker exactly where it stands in |
| `ReplayContent.AssistantTextKeeps` | src/openai_responses_proxy/protocol/replay/content.py:161-211 | The text is never empty and is all texts and refusals joined in order, or a marker for ciphertext |
| `ReplayAccepts.InputContentIff` | src/openai_responses_proxy/protocol/replay/content.py:52-158 | Exactly which input content is accepted, block by block |
| `ReplayAccepts.AssistantTextIff` | src/openai_responses_proxy/protocol/replay/content.py:52-211 | Exactly which assistant content is accepted |
| `ReplayAccepts.TellableIff` | src/openai_responses_proxy/protocol/replay/projection.py:400-441 | When the content of a later result can be told as a text |
| `ReplayProjection.ProjectInput` | src/openai_responses_proxy/protocol/replay/projection.py:508-585 | The loop over the input computes the list projection, with tracker and metrics |
| `ReplayGrammar.MessageKeeps` | src/openai_responses_proxy/protocol/replay/projection.py:175-209 | A projected message keeps speaker, phase and everything it shows |
| `ReplayGrammar.OutputKeeps` | src/openai_responses_proxy/protocol/replay/projection.py:372-441 | A first output keeps type, call, caller and, unless a marker stands in, everything it shows |
| `ReplayGrammar.AgentSound` | src/openai_responses_proxy/protocol/replay/projection.py:212-264 | An agent message leaves natively while it carries ciphertext, else as an assistant message; both portable |
| `ReplayMeaning.AgentKeeps` | src/openai_responses_proxy/protocol/replay/projection.py:212-264 | Without ciphertext an agent message becomes an assistant message in its phase: the header with author and recipient before everything it says; with ciphertext it stays, without metadata and status |
| `ReplayMeaning.DeliveryKeeps` | src/openai_responses_proxy/protocol/replay/projection.py:372-450 | A later result becomes an assistant message: the header with call, tool and caller before everything its texts say |
| `ReplayMeaning.DetachedKeeps` | src/openai_responses_proxy/protocol/replay/projection.py:453-472 | A result without a call becomes an assistant message: the header with tool and namespace before its text |
| `ReplayMeaning.StripsMessage` | src/openai_responses_proxy/protocol/replay/projection.py:175-209 | Identifier, status, name and metadata of a message are stripped and nothing else happens to it |
| `ReplayMeaning.StripsCall` | src/openai_responses_proxy/protocol/replay/projection.py:267-309 | Identifier, status and metadata of a call are stripped and nothing else happens to it |
| `ReplayMeaning.StripsOutput` | src/openai_responses_proxy/protocol/replay/projection.py:372-441 | Identifier, status, name and metadata of a first output are stripped, of a function its namespace too |
| `ReplayMeaning.DropsExactly` | src/openai_responses_proxy/protocol/replay/projection.py:522-580 | An accepted item leaves nothing exactly when its type is dropped, it is a local shell call or the output of one, or an empty placeholder |
| `ReplayMeaning.DroppedTypesAreCounted` | src/openai_responses_proxy/protocol/replay/projection.py:522-580 | Items of a dropped type are accepted whatever they hold and are counted by kind |
| `ReplayMeaning.MetricsTell` | src/openai_responses_proxy/protocol/replay/projection.py:522-580 | One change is counted exactly when an item leaves otherwise than it came, one identifier exactly when it is gone |
| `ReplayMeaning.MessageMetrics` | src/openai_responses_proxy/protocol/replay/projection.py:175-209 | What a message counts: its ciphertexts and the images that cannot be replayed |
| `ReplayMeaning.OutputMetricsAre` | src/openai_responses_proxy/protocol/replay/projection.py:372-441 | What an output counts: ciphertexts, its own included, images that cannot be replayed, an empty output, at most one marker |
| `ReplayMeaning.EmptyOutputIs` | src/openai_responses_proxy/protocol/replay/projection.py:372-441 | Which marker stands for an empty output |
| `ReplayGrammar.CallSound` | src/openai_responses_proxy/protocol/replay/projection.py:267-309 | A projected call is portable and both trackers advance together |
| `ReplayGrammar.LocalCallSound` | src/openai_responses_proxy/protocol/replay/projection.py:312-369 | A local shell call leaves nothing, and the projected list's tracker need not know it |
| `ReplayGrammar.OutputSound` | src/openai_responses_proxy/protocol/replay/projection.py:372-441 | A projected output is portable, a later result becomes a message, and the output of a dropped call leaves with it |
| `ReplayGrammar.ControlSound` | src/openai_responses_proxy/protocol/replay/projection.py:475-505 | A tool catalog or compaction trigger leaves exactly as it came |
| `ReplayGrammar.ItemSound` | src/openai_responses_proxy/protocol/replay/projection.py:522-580 | One accepted item of any kind leaves in the grammar |
| `ReplayGrammar.ItemFixed` | src/openai_responses_proxy/protocol/replay/projection.py:522-580 | A portable item with sound relationships is left as it is |
| `ReplayGrammar.ProjectionSound` | src/openai_responses_proxy/protocol/replay/projection.py:508-585 | Every accepted input list is projected into the grammar, tool relationships included |
| `ReplayGrammar.ProjectionFixed` | src/openai_responses_proxy/protocol/replay/projection.py:508-585 | A list in the grammar is projected to itself with all-zero metrics |
| `ReplayGrammar.ProjectionKeepsCalls` | src/openai_responses_proxy/protocol/replay/projection.py:372-585 | No call and no control is lost, altered or reordered; each call has at most one output, after it |
| `ReplayGrammar.SanitizeSound` | src/openai_responses_proxy/protocol/replay/projection.py:588-667 | Every projected body is in the grammar of requests |
| `ReplayGrammar.CleanIffPortable` | src/openai_responses_proxy/protocol/replay/projection.py:588-667 | A request is accepted as clean if and only if it is in the grammar |
| `ReplayGrammar.SanitizeIdempotent` | src/openai_responses_proxy/protocol/replay/projection.py:588-667 | Sanitizing a projected body again is clean |
| `ReplayAccepts.RequestAcceptedIff` | src/openai_responses_proxy/protocol/replay/projection.py:588-667 | A request is accepted if and only if, told by its raw fields, its include list is well formed, its input is a text or an accepted list, and its body is portable already or can be encoded |
| `ReplayAccepts.ListAcceptedIff` | src/openai_responses_proxy/protocol/replay/projection.py:508-585 | An input list is accepted if and only if every item is in order by its raw fields, calls and outputs are sound together, later results have something to say, every local shell call is answered and something is left |
| `ReplayAccepts.ItemAcceptedIff` | src/openai_responses_proxy/protocol/replay/projection.py:522-580 | One item is accepted if and only if its raw fields are in order, the tracker has no issue with it and a later result has something to say |
| `ReplayAccepts.WalkLeaves` | src/openai_responses_proxy/protocol/replay/projection.py:522-585 | Something is left if and only if some item is neither dropped, a placeholder, a local shell call nor the output of one |
| `ReplayAccepts.MessageIff` | src/openai_responses_proxy/protocol/replay/projection.py:175-209 | Exactly which messages are accepted |
| `ReplayAccepts.AgentMessageIff` | src/openai_responses_proxy/protocol/replay/projection.py:212-264 | Exactly which agent messages are accepted |
| `ReplayAccepts.CallIff` | src/openai_responses_proxy/protocol/replay/projection.py:267-309 | Exactly which calls are accepted |
| `ReplayAccepts.LocalCallIff` | src/openai_responses_proxy/protocol/replay/projection.py:312-369 | Exactly which local shell calls are accepted |
| `ReplayAccepts.OutputIff` | src/openai_responses_proxy/protocol/replay/projection.py:372-450 | Exactly which outputs are accepted |
| `ReplayRaises.SanitizeRaisesIff` | src/openai_responses_proxy/protocol/replay/projection.py:175-334 | A request raises if and only if its include list is well formed and the first item that is not accepted reaches a set membership test with a list or an object |
| `ReplayRaises.ItemRaisesIff` | src/openai_responses_proxy/protocol/replay/projection.py:175-334 | Which items raise: role, assistant phase, agent phase or local shell status, once the earlier tests passed |
| `ReplayRaises.SanitizerRaises` | src/openai_responses_proxy/protocol/replay/projection.py:177-180 | A request that raises |
| `Recovery.BudgetShrinks` | src/openai_responses_proxy/protocol/recovery/execution.py:54-58 | The bounded budget is positive and below the request's length |
| `Recovery.PairBoundaryIsSafe` | src/openai_responses_proxy/protocol/recovery/execution.py:101-112 | A boundary is safe if and only if the suffix satisfies the declarative tool specification |
| `Recovery.CompactRequest` | src/openai_responses_proxy/protocol/recovery/execution.py:115-153 | The cut is the first safe one within budget, else the first smallest one that shrinks; none is missed |
| `Recovery.RecoverDialogue` | src/openai_responses_proxy/protocol/recovery/execution.py:156-195 | Exactly the latest instructions, the latest user message and the controls, if within budget and shorter |
| `Recovery.LatestByRole` | src/openai_responses_proxy/protocol/recovery/input.py:216-220 | The loop ends with the last position of each kept role, and only of those |
| `Recovery.CurrentDialogue` | src/openai_responses_proxy/protocol/recovery/input.py:215-238 | The loops select the latest message of each role and the controls, reduced to text, in order |
| `RecoverySafety.CompactionCloses` | src/openai_responses_proxy/protocol/recovery/execution.py:115-153 | A compacted body is a fixed point of the sanitizer, keeps the latest user message and every control, and is shorter |
| `RecoverySafety.DialogueCloses` | src/openai_responses_proxy/protocol/recovery/execution.py:156-195 | The same for the dialogue body |
| `RecoverySafety.InputRecoveryCloses` | src/openai_responses_proxy/protocol/recovery/input.py:163-265 | The input recovery body is a fixed point, keeps every control and the latest user message's text blocks, and is shorter and within budget |
| `RecoverySafety.TextBlocksKeep` | src/openai_responses_proxy/protocol/recovery/input.py:241-256 | The text that is kept is every non-empty text of the content, in order |
| `RecoveryMeaning.RecoverableIff` | src/openai_responses_proxy/protocol/recovery/execution.py:115-195 | Which requests execution recovery works on: enough items, a user message, no agent message |
| `RecoveryMeaning.DialogueHolds` | src/openai_responses_proxy/protocol/recovery/execution.py:164-184 | The dialogue body holds, in order and unchanged, exactly the latest user message, the last developer or system message up to it, and the controls |
| `RecoveryMeaning.CompactionHolds` | src/openai_responses_proxy/protocol/recovery/execution.py:127-135 | A compacted body holds exactly everything from the cut on and the controls before it; beside input, storage and cache key nothing of the request changes |
| `RecoveryMeaning.CurrentDialogueHolds` | src/openai_responses_proxy/protocol/recovery/input.py:215-238 | The dialogue of input recovery holds exactly the last system, developer and user message, reduced to text, and the controls, in order |
| `RecoveryMeaning.InputRecoveryIff` | src/openai_responses_proxy/protocol/recovery/input.py:163-212 | Input recovery succeeds exactly when there is a dialogue, something is dropped or unbound, and the body is within budget and shorter |
| `RecoveryMeaning.DialogueRaisesIff` | src/openai_responses_proxy/protocol/recovery/input.py:215-256 | Exactly when building the dialogue raises: a current message lists a block whose type is a list or an object, and every current item before it has a text |
| `RecoveryMeaning.UnboundKeeps` | src/openai_responses_proxy/protocol/recovery/input.py:163-212 | Bindings, storage and the request for encrypted reasoning go and nothing else of the request changes |
| `RecoveryMeaning.BudgetIsHalf` | src/openai_responses_proxy/protocol/recovery/execution.py:54-58 | The budget is the caller's, or half the request where that is less, and at least one byte |
| `SseFraming.PopIsShortest` | src/openai_responses_proxy/relay/sse.py:116-127 | The first event is the shortest prefix that ends in a blank line of either kind |
| `SseFraming.EndsInBlankLine` | src/openai_responses_proxy/relay/sse.py:116-127 | Blank lines, said of the bytes: two line feeds, or twice carriage return and line feed |
| `SseFraming.PopExtends` | src/openai_responses_proxy/relay/sse.py:116-127 | A complete event stays the first event whatever bytes follow |
| `SseFraming.SplitIsWhole` | src/openai_responses_proxy/relay/sse.py:208-218 | The events and the remainder are the stream again |
| `SseFraming.EventsExtend` | src/openai_responses_proxy/relay/sse.py:208-218 | More bytes keep the complete events and continue the remainder |
| `SseFraming.CodingRoundTrip` | src/openai_responses_proxy/relay/sse.py:149-159 | The written chunks decode to the events joined, complete exactly with the last chunk |
| `SseFraming.HexDigitsAre` | src/openai_responses_proxy/relay/sse.py:149-159 | Sizes are written in upper-case hexadecimal digits and read in either case |
| `SseRelay.StreamReader.Emit` | src/openai_responses_proxy/relay/sse.py:149-159 | Holds or writes events so that the wire is always the chunked coding of what was written |
| `SseRelay.StreamReader.ProcessEvent` | src/openai_responses_proxy/relay/sse.py:161-185 | One event: projection failure, terminal, hold or write |
| `SseMeaning.WithheldWritesNothing` | src/openai_responses_proxy/relay/sse.py:161-185 | An attempt of events without payload, prefaces and a retryable failure writes nothing, whatever ends it |
| `SseMeaning.ShownSendsAll` | src/openai_responses_proxy/relay/sse.py:161-185 | Any other projected event sends off everything restored so far at once, itself included |
| `SseMeaning.StopsExactly` | src/openai_responses_proxy/relay/sse.py:161-185 | The stream stops at an event that cannot be projected and at a terminal one, and at no other |
| `SseRelay.StreamReader.Drain` | src/openai_responses_proxy/relay/sse.py:209-214 | Processes the complete events of the buffer up to the first that stops the stream |
| `SseRelay.StreamReader.ReadStream` | src/openai_responses_proxy/relay/sse.py:187-228 | However the bytes arrive and end, the outcome is that of the batch split of everything received |
| `SseRelay.StreamDescribed` | src/openai_responses_proxy/relay/sse.py:149-218 | What is counted, held, written and terminal, read off the events up to the first stop |
| `SseMeaning.EndingIs` | src/openai_responses_proxy/relay/sse.py:187-228 | How a stream is said to have ended, read off the reads |
| `SseMeaning.DetailIs` | src/openai_responses_proxy/relay/sse.py:187-228 | Without a terminal event the stream ends as its reads do, unless some event could not be projected |
| `SseMeaning.ReceivedIs` | src/openai_responses_proxy/relay/sse.py:187-228 | Everything up to the first read that delivers nothing is received, in order |
| `SseRelay.ReadTwoWays` | src/openai_responses_proxy/relay/sse.py:187-228 | Two readers of the same bytes, however each gets them cut into reads, end in the same state with the same bytes written, those of the batch split, and report the same if their reads end alike |
| `SseRelay.Relay` | src/openai_responses_proxy/relay/sse.py:231-305 | Which attempts are made, and that the body is that of the last one alone |
| `SseMeaning.MayReconnectIff` | src/openai_responses_proxy/relay/sse.py:249-298 | An attempt leaves the relay free to reconnect exactly when all its events could be withheld |
| `SseMeaning.ReconnectsExactly` | src/openai_responses_proxy/relay/sse.py:249-298 | Another attempt is made exactly when the last one showed nothing and failed nowhere, the reopen works and fewer than six were made |
| `SseRelay.SingleStream` | src/openai_responses_proxy/relay/sse.py:240-305 | Over all reconnects the body is empty or decodes to the restored events of exactly one attempt, complete if and only if it ended in a terminal event |
| `Exchange.Upstream.RecoverResponseFailed` | src/openai_responses_proxy/relay/exchange.py:240-283 | Compaction while stages last and it succeeds, else the dialogue once |
| `Exchange.Upstream.HttpError` | src/openai_responses_proxy/relay/exchange.py:361-421 | The decision after an HTTP failure, and the one extra open of a wire retry |
| `Exchange.Upstream.Open` | src/openai_responses_proxy/relay/exchange.py:461-492 | The attempt loop computes the specified end and counts its opens |
| `Exchange.RetryBound` | src/openai_responses_proxy/relay/exchange.py:461-492 | For every sequence of failures a Responses request returns from inside the loop within 4 + stages + 2 opens, 5 more with reopens |
| `Exchange.BoundAttained` | src/openai_responses_proxy/relay/exchange.py:320-421 | Some sequence of failures reaches that bound |
| `Exchange.OtherRequestsFallThrough` | src/openai_responses_proxy/relay/exchange.py:461-492 | Any other request falls past the loop exactly when its one failure asks for a retry |
| `Exchange.PassingFailuresAreRetried` | src/openai_responses_proxy/relay/exchange.py:361-458 | Up to three transport failures or server errors 500, 502, 503, 504 and 524 before an accepted reply: that reply is returned, with one open each |
| `Exchange.FourthFailureEnds` | src/openai_responses_proxy/relay/exchange.py:361-458 | The fourth such failure in a row ends the exchange |
| `Exchange.OthersEndAtOnce` | src/openai_responses_proxy/protocol/recovery/execution.py:61-88 | A rate limit, a payload called invalid and any other plain failure end the exchange at the first open |
| `Exchange.WireRetriedLast` | src/openai_responses_proxy/relay/exchange.py:361-421 | A failure the provider calls retryable shares the three retries and gets one more on the wire |
| `Exchange.WireBadRequest` | src/openai_responses_proxy/relay/exchange.py:361-421 | Such a failure with status 400 is recovered like a failed response first and retried on the wire when nothing helps |
| `Exchange.FailedResponseRecovers` | src/openai_responses_proxy/relay/exchange.py:240-283 | A failed response is answered by compaction while stages last and it helps, else by the dialogue once, else by the end |
| `Exchange.ValidationErrorRecovers` | src/openai_responses_proxy/relay/exchange.py:361-421 | The exact validation error is answered by the input variant |
| `Exchange.VariantIsLast` | src/openai_responses_proxy/relay/exchange.py:361-458 | Any failure after the input variant is the end |
| `Exchange.VariantStreamIsNotReopened` | src/openai_responses_proxy/relay/relay.py:127-136 | A stream opened by the input variant is not reopened, and neither is a refusal |
| `DependencyCycles.FindCycles` | tools/quality/repository/topology.py:58-93 | Exactly the strongly connected components with two nodes or more, each once, for every finite graph and visiting order |
| `DependencyCycles.Walk.Visit` | tools/quality/repository/topology.py:66-88 | One visit numbers everything reachable and closes every component it completes |
| `DependencyCycles.Walk.VisitTarget` | tools/quality/repository/topology.py:72-77 | One target: the lowlink stays a witness and a bound |
| `DependencyCycles.Walk.PopComponent` | tools/quality/repository/topology.py:80-88 | The pop loop takes off everything down to the root, and reports it when large |
| `DependencyCycles.PopsComponent` | tools/quality/repository/topology.py:78-88 | When the lowlink is the node's own index, what is popped is exactly its component |
| `DependencyCycles.StaysOpen` | tools/quality/repository/topology.py:78-79 | Otherwise the node stays on the stack, anchored below |
| `DependencyCycles.FindsNone` | tools/quality/repository/topology.py:58-93 | The result is empty if and only if no two distinct nodes reach each other |
| `Reachability.CycleIffMutual` | tools/quality/repository/topology.py:58-93 | A component with two nodes exists exactly when two distinct nodes reach each other |
| `BoundedLog.Log.Rotate` | src/openai_responses_proxy/runtime/bounded_log.py:36-78 | From any segments: when rotation happens, where each segment comes from, and the bytes counted as discarded |
| `BoundedLog.Log.Shift` | src/openai_responses_proxy/runtime/bounded_log.py:54-67 | The shift by one, dropping oversized segments and the oldest |
| `BoundedLog.Log.DropOversized` | src/openai_responses_proxy/runtime/bounded_log.py:69-77 | Removes and counts exactly the oversized backups |
| `BoundedLog.Log.Append` | src/openai_responses_proxy/runtime/bounded_log.py:81-105 | Rotates, then appends the line or the line with its notice |
| `BoundedLog.Retention` | src/openai_responses_proxy/runtime/bounded_log.py:36-105 | Over every run of appends of lines within the limit, segments stay within it, backups within their number, and what is kept is a suffix of everything appended |
| `BoundedLog.NothingForgotten` | src/openai_responses_proxy/runtime/bounded_log.py:36-105 | While everything appended is within the limit, all of it is in the live file and there is no backup |
| `BoundedLog.OverflowMovesLive` | src/openai_responses_proxy/runtime/bounded_log.py:36-105 | A line that does not fit moves the live file, whole, to the newest backup, every backup by one, and starts a new live file |
| `BoundedLog.RotationConserves` | src/openai_responses_proxy/runtime/bounded_log.py:36-78 | From any segments: the bytes announced as discarded are exactly those that are gone, apart from the oldest segment that a shift drops |
| `BoundedLog.NoticeIsTrue` | src/openai_responses_proxy/runtime/bounded_log.py:81-105 | The new live file is the notice of exactly those bytes if there are any, and the line otherwise |

## Left out

- Signatures, archives, digests and manifests: a generation is an identifier with version, receipt and a complete or partial flag; image references are an uninterpreted predicate.
- Native supervision and process identity: binding succeeds or fails, runtime evidence is given, and the exit of the launched process is the exit of the replacement runtime.
- Failing file system calls: a durable write happens or the run is cut short before it; the operations that the source guards against failure in between are modelled with an explicit fault.
- File system detail: one command path with target and inode, no Windows launchers, no symbolic-link ancestors, no modes or flushing; an empty directory can always be removed.
- Concurrent lifecycle commands: one lifecycle writer at a time, as the lock in src/openai_responses_proxy/cli/application.py:95-114 ensures; new transaction identifiers are unused.
- Foreign content in the install root during a transaction; a purged journal is modelled in `Purge` alone, apart from the transaction runs.
- Foreign changes between inspecting and unlinking one file of a purge.
- The handoff request and the native replacement inside an upgrade (src/openai_responses_proxy/lifecycle/deployment/apply.py:287-357): each is a step that is done, failed or of unknown outcome.
- Fresh install and the outermost install and rollback commands of src/openai_responses_proxy/lifecycle/deployment/apply.py: they add sequencing around the same transaction.
- Message identities in the handoff pipe: a reply with another identity, a time-out and a broken pipe are the same step; waiting for an outcome may wake at any time. The handoff is a state machine over its steps, not a program with threads.
- HandoffSafety.MutualExclusion: holds only where no request is admitted while a replacement accepts; it is false beyond, as `HandoffLimits.ExclusionCanFail` shows.
- HandoffSafety.ParentExclusion: holds only where such a request comes after the serve loop is gone for good; it is false beyond, as `HandoffLimits.ParentCanJoin` shows.
- HandoffLimits.FinalizedIsProved: holds only where no request overtakes a commit; it is false beyond, as `HandoffLimits.OutcomeCanDisagree` shows.
- HandoffProgress.RolledBackIsReset: holds only where no request overtakes a commit; it is false beyond, as `HandoffRecords.ResetCanBeForgotten` shows.
- HandoffLimits.UnconfirmedIsParked: is about runs in which no replacement was endangered.
- HandoffLimits.UnconfirmedIsForever: an unconfirmed abort recorded before the accept loop was stopped leaves the parent accepting until the shutdown that follows, as `HandoffLimits.UnstoppedAccepts` shows.
- PayloadHost.Host.Cleanup: does not model the removal of the empty install directory after a fresh install is rolled back, because the durable state holds no install directory; an absent and an empty one are the same state here.
- JSON text: requests are values, decoding and encoding are inverse, lengths are abstract; `RecursionError`, non-finite floats and the order of object keys are not modelled.
- Text functions of the library: joined texts are empty exactly when every part is, a text under a header line is never empty, and an encoded object has at least its two braces; nothing else is assumed of them.
- The tracker inside the projection loop is a value; the tracker object is proved to follow the same function.
- Recovery diagnostics, metrics of recovery bodies, telemetry, log text and redaction.
- Whether each recovery of the exchange succeeds is an input of the retry loop, so the bound holds for every combination.
- HTTP clients and servers, sockets, headers, deadlines and back-off: time appears only as an attempt that may not be made. Restoring an event is a function that never gives an empty event, as src/openai_responses_proxy/protocol/agent_delivery.py:176-193 ensures for a non-empty one.
- Downstream write failures of the relay, and the JSON (non-stream) relay.
- The sorted order of reported dependency cycles and of their members: components are sets, visiting orders are arbitrary.
- Non-regular log paths and suppressed log errors.
- Admission, cooldown, provider manifests, CLI, forge, publication and the other quality tools: small maps, field checks and subprocess wrappers.
