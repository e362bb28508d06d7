# Model of the V.E.R.A. mono-repository's core protocols

A Dafny model of the parts of the repository whose correctness spans many calls, with the properties proved for
all inputs, all runs and all interleavings. `dafny verify dfyconfig.toml` checks it.

- **Outbound effects** (`EffectFence`, `Gateway`, `EffectProtocol`, `EffectInvariant`, `EffectSafety`,
  `EffectOrigins`, `CommandRecovery`, `DispatchRuns`): the single-use
  effect fence as a class, the gateway's dispatch as imperative code over it, and any number of clients as a state
  machine whose steps are single transactions, lock operations and callback boundaries, so that a crash can fall
  between any two of them. The imperative dispatch is proved to be a run of that machine; safety is proved over all its
  runs.
- **The Rezon kernel** (`EpisodeStore`, `Episode`, `EpisodeHistory`, `Visibility`, `Scheduler`, `Admission`,
  `Receipts`, `Runner`, with `EpisodeForm`, `ViewLaws`, `SharedNames`, `SchedulerRules`, `Prevalidation`, `AdmissionLaws`,
  `RunAdmission`, `RunLaws`, `RunPermissions` and `Traces`): the truth-maintenance store with cascading
  retraction, the one-pass view, admission by snapshot compare-and-swap, and a whole run with arbitrary executors.
- **The coordination log** (`CoordinationLog`, `CoordinationRepository`, `CoordinationBus`,
  `IntegrityGaps`, `RepositoryEquivalence`, `BusRules`, `InboxLaws`, `InboxPaging`): the digest-chained repository, the
  in-memory reference, the bus rules and cursor paging. The hash is an arbitrary function; where a statement
  needs it to be one-to-one, it says so.
- **The retry guard** (`RetryGuard`): the pruned map against a history that never forgets.
- **The corrective-learning ledger** (`CorrectiveLedger`, `CorrectiveRuns`, `CorrectiveLaws`): stage order under
  concurrent clients.
- **The guarded vote** (`GuardedVote`, `GuardedVoteRun`, `GuardedVoteLaws`) and the **safetensors check** (`Safetensors`).

What an operation computes is given by a function or a relation, and its class method is proved to compute it. What
that means is stated apart from it, on the fields of the arguments and results, in the modules named `...Laws`,
`...Rules`, `...Permissions`, `...Origins` and `...Form`.

## Where the code differs from what one would expect

- Reconciliation takes the outbound trust lock only, and the gateway inside `LifecycleBoundCoordinationBus` is built
  without a trust registry (`packages/vera_core/src/vera_core/action_gate.py:751`). A coordination callback can
  therefore start after its effect was recorded as having had no effect (`EffectSafety.CoordinationMayStartLate`);
  `EffectSafety.StartsAfterResolution` gives the exact condition. PC and provider effects are not affected.
- `_prevalidate_episode_mutation` does not look at form, episode or sources, so in general the atomicity of admission
  rests on the rollback (`Prevalidation.AdditionsIff` gives the exact gap). Inside a run the gap cannot be met
  (`RunAdmission.CheckSufficesInRuns`).
- Rolling back an acceptance that the retry guard has already forgotten answers False
  (`RetryGuard.ForgottenRollback`). No later answer depends on it.
- The safetensors check bounds every leading product of a shape, so with a zero dimension the order of the
  dimensions matters.
- The one-pass view is the fixpoint for every visible set and policy exactly when no current relation names itself or a
  later one (`Visibility.PassIsRightIff`). A reachable episode can break this only through a name that a proposition
  and a relation share, and one does (`SharedNames.SharedNamesBreakThePass`).
- The integrity check of the coordination log decodes every row but does not validate its draft again, and does not
  compare the two references of an event, so it accepts tables that no appends can build (`IntegrityGaps`).

## Model

| member | source | states |
|---|---|---|
| EffectFence.EffectFence.Reserve | packages/vera_assurance/src/vera_assurance/effect_fence.py:94-133 | One transaction: a repeated reservation succeeds only with the identical request and evidence and then changes nothing; the table only ever advances along the life-cycle edges |
| EffectFence.EffectFence.ClaimDispatch | packages/vera_assurance/src/vera_assurance/effect_fence.py:135-173 | Reserve again, then move exactly a RESERVED row to EXECUTING; on refusal the effect of the first transaction stays |
| EffectFence.EffectFence.Settle | packages/vera_assurance/src/vera_assurance/effect_fence.py:175-211 | Only an EXECUTING row is settled: COMMITTED with a result digest, or ATTEMPTED_UNKNOWN; all other rows stay |
| EffectFence.EffectFence.CancelBeforeDispatch | packages/vera_assurance/src/vera_assurance/effect_fence.py:213-235 | Only a RESERVED row is cancelled; anything past its dispatch claim is refused |
| EffectFence.EffectFence.ReconcileUnknown | packages/vera_assurance/src/vera_assurance/effect_fence.py:269-342 | Only EXECUTING or ATTEMPTED_UNKNOWN is reconciled, with a result exactly when the effect occurred; the evidence is kept |
| EffectFence.EffectFence.AssertClear | packages/vera_assurance/src/vera_assurance/effect_fence.py:244-267 | Succeeds if and only if no row is RESERVED, EXECUTING or ATTEMPTED_UNKNOWN |
| Gateway.Gateway.DispatchVerified | packages/vera_core/src/vera_core/action_gate.py:210-388 | The imperative dispatch, with any permit, authority, audit or callback failing where it likes, is a run of one client's own protocol steps; the callback is called, once, exactly when everyone agrees, the barrier is clear and the effect was never reserved; a value comes back exactly when the call returned and was accounted for, and then the row is COMMITTED with its digest; a callback that fails leaves the row ATTEMPTED_UNKNOWN and the barrier up |
| Gateway.Gateway.Perform | packages/vera_core/src/vera_core/action_gate.py:301-388 | After the claim: an audit entry that fails before the call leaves the row EXECUTING without a start; otherwise exactly one start, and then the row is COMMITTED with the returned digest or, if the callback failed, ATTEMPTED_UNKNOWN without a result |
| Gateway.Gateway.Invoke | packages/vera_core/src/vera_core/action_gate.py:757-890 | Bind, dispatch, journal: the exact conditions under which the callback is called and under which a value comes back, and then the fence has it COMMITTED and the journal has recorded exactly that result |
| Gateway.Gateway.Bind | packages/vera_core/src/vera_core/coordination_command_journal.py:300-393 | A command identity is bound once; binding it again is accepted only for the same effect, permit, invocation and request |
| Gateway.Gateway.RecordResult | packages/vera_core/src/vera_core/coordination_command_journal.py:420-504 | The first recorded result stays; repeating it is harmless and a different one is refused |
| EffectInvariant.RunsKeepInv | packages/vera_core/src/vera_core/action_gate.py:210-388 | Over every run of submissions, lock steps, transactions, callbacks, crashes between any two of them, cancellations and reconciliations by any number of clients: rows, bindings, results, callback history and lock ownership stay consistent |
| EffectSafety.StartsAtMostOnce | packages/vera_core/src/vera_core/action_gate.py:296-388 | In every reachable state the callback of an effect has started at most once, completed at most as often, and has started only if its row is past the dispatch claim |
| EffectSafety.CancelledNeverStarts | packages/vera_assurance/src/vera_assurance/effect_fence.py:213-235 | Once cancelled an effect stays cancelled and has zero starts, whatever any client does later |
| EffectSafety.FinalRowsStay | packages/vera_assurance/src/vera_assurance/effect_fence.py:175-342 | A settled, cancelled or reconciled row never changes again |
| EffectSafety.AtMostOneUnresolved | packages/vera_core/src/vera_core/action_gate.py:236-307 | The barrier: no reachable state has two unresolved effects |
| EffectSafety.BarrierBlocksOthers | packages/vera_core/src/vera_core/action_gate.py:236-307 | While an effect is unresolved only its own callback can start, and no callback starts while another runs |
| EffectSafety.OnlyTheseLift | packages/vera_assurance/src/vera_assurance/effect_fence.py:175-342 | An effect stops being unresolved only by settlement, cancellation or reconciliation of that effect, not by a crash or a restart |
| EffectOrigins.LiftedOnlyBy | packages/vera_assurance/src/vera_assurance/effect_fence.py:175-342 | In any state: the barrier of an effect is lifted only by the settlement of a callback that returned, which leaves COMMITTED with its digest, by the cancellation of a RESERVED row, or by a reconciliation with the matching verdict; never by a callback that raised |
| EffectOrigins.RowOrigin | packages/vera_assurance/src/vera_assurance/effect_fence.py:94-342 | Over every run each row was brought to its state by one step of the run: COMMITTED by a returned value, ATTEMPTED_UNKNOWN by a raised callback, CANCELLED from RESERVED, RECONCILED by a reconciliation |
| EffectOrigins.ReconciledByOperator | packages/vera_assurance/src/vera_assurance/effect_fence.py:269-342 | A reconciled row bears the verdict, the result and the evidence of a reconciliation of that effect in the run |
| EffectOrigins.ReconciliationResolves | packages/vera_assurance/src/vera_assurance/effect_fence.py:269-342 | A reconciliation that meets no trusted dispatch resolves an ambiguous effect exactly when it brings a result for what happened and none for what did not |
| DispatchRuns.ReturningRunIsTerminal | packages/vera_core/src/vera_core/action_gate.py:757-910 | The run in which the callback returns a receipt ends with the result recorded and terminal exactly when the receipt is confirmed and names an event that was written, or is unconfirmed and names none |
| DispatchRuns.SuccessIsTerminal | packages/vera_core/src/vera_core/action_gate.py:945-960 | The ordinary success, a confirmed write of the event named in the receipt, ends terminal and not recovery-required |
| DispatchRuns.RaisingRunNeedsRecovery | packages/vera_core/src/vera_core/action_gate.py:336-357 | The run in which the callback raises ends ATTEMPTED_UNKNOWN, unresolved and recovery-required |
| EffectSafety.StartsAfterResolution | packages/vera_core/src/vera_core/effect_recovery.py:211-275 | Exact condition: a resolved effect can still start in some continuation if and only if a client stands between its dispatch claim and its callback |
| EffectSafety.TrustGuardedNeverStartsLate | packages/vera_core/src/vera_core/action_gate.py:236-242 | PC and provider effects never start after they were resolved, because their dispatch holds the trust lock that reconciliation takes |
| EffectSafety.CoordinationMayStartLate | packages/vera_core/src/vera_core/effect_recovery.py:211-275 | Counterexample run: a coordination callback starts after its effect was recorded as RECONCILED_NO_EFFECT, since the coordination gateway has no trust registry |
| CommandRecovery.AssessmentIsSound | packages/vera_core/src/vera_core/action_gate.py:912-1071 | Over every run, with journal, fence, permit and repository read one after another while other clients go on: retry and pre-dispatch cancel only if the callback had not started when the fence was read; a started command with no recorded result is recovery-required unless reconciled as no effect; a terminal verdict with a result means that the callback completed exactly once with that result |
| CommandRecovery.OffersAreSafe | packages/vera_core/src/vera_core/action_gate.py:922-940 | Retry is offered only if, besides, nothing was unresolved and the permit was the bound one when the permit was read |
| CommandRecovery.RecordedResultIsTerminalIff | packages/vera_core/src/vera_core/action_gate.py:892-960 | Once a result is recorded every later read of the fence agrees with it, so the verdict is terminal if and only if the receipt is confirmed and the event it names is in the repository, or is unconfirmed and names none |
| CommandRecovery.VerdictExactly | packages/vera_core/src/vera_core/action_gate.py:912-1071 | Exactly when each verdict is given, in terms of what the reads of journal, fence and permit found |
| CommandRecovery.TerminalForever | packages/vera_core/src/vera_core/action_gate.py:912-1071 | A terminal verdict survives every later step, and the callback does not start again unless the effect was reconciled as no effect |
| CommandRecovery.CancelReservedCommand | packages/vera_core/src/vera_core/action_gate.py:1083-1123 | With any actions of other clients between the assessment and the cancellation: it succeeds if and only if the row is still RESERVED, and then the command is terminal and its callback never starts; otherwise nothing changes |
| CommandRecovery.RecoveryWithoutStart | packages/vera_core/src/vera_core/action_gate.py:301-326 | Recovery is also demanded when the callback never ran: a crash right after the claim |
| Episode.Episode.Add | packages/rezon/src/rezon/episode.py:191-210 | Adds or leaves everything as it was, with the exact error; a retracted object is never silently reactivated |
| Episode.Episode.Relate | packages/rezon/src/rezon/episode.py:266-291 | The same for relations, whose participants must all be active names |
| Episode.Episode.RetractProposition | packages/rezon/src/rezon/episode.py:212-264 | Terminates for every set iteration order and deactivates exactly the objects reachable from the root through source references and participants, each with one event |
| Episode.InvalidatedIsLeastClosed | packages/rezon/src/rezon/episode.py:222-264 | The deactivated set is the least set of active objects closed under dependency on the root |
| EpisodeForm.RunsKeepForm | packages/rezon/src/rezon/episode.py:25-100 | In every reachable state every stored object is under its own name, has a text in every field that needs one, and belongs to the episode |
| EpisodeForm.RetractionIsLogged | packages/rezon/src/rezon/episode.py:212-264 | A retraction writes its reason first and after it only invalidations that name the root |
| EpisodeHistory.RunsKeepInv | packages/rezon/src/rezon/episode.py:155-291 | In every state reached by adds, retractions and nested rollbacks, active objects rest on active names, relations look back, and the event log rebuilds the episode |
| EpisodeHistory.RetractKeepsInv | packages/rezon/src/rezon/episode.py:212-264 | A retraction keeps support and log for every order of invalidation |
| EpisodeHistory.NoReactivation | packages/rezon/src/rezon/episode.py:191-291 | Folding a legal log, a name once deactivated is never active again |
| Visibility.SnapshotInjective | packages/rezon/src/rezon/episode.py:293-303 | Two reachable episodes with the same snapshot are the same episode, so the snapshot comparison misses no mutation |
| ViewLaws.SnapshotHolds | packages/rezon/src/rezon/episode.py:293-303 | The current lists of a snapshot hold exactly the active objects, the full lists all of them, and the version counts the events |
| ViewLaws.ViewShows | packages/rezon/src/rezon/visibility.py:35-89 | The view shows exactly the current propositions that are not blinded and are allowed, and names the others; its relations are allowed and connect only what it shows; no current relation is missing without being named |
| Visibility.BuildExecutionView | packages/rezon/src/rezon/visibility.py:35-89 | The loops compute the one-pass view: allowed objects visible, the rest listed as blinded |
| Visibility.PassIsRightIff | packages/rezon/src/rezon/visibility.py:48-73 | For relations with different names: the single pass is the unique solution of: allowed, and all participants visible, for every visible set and policy if and only if no relation names itself or a later one |
| Visibility.ViewIsTheFixpoint | packages/rezon/src/rezon/visibility.py:48-73 | The same in every reachable episode, where disjoint proposition and relation names make it always so |
| Visibility.FixpointUnique | packages/rezon/src/rezon/visibility.py:48-73 | The unordered rule has only one solution |
| SharedNames.SharedNamesBreakThePass | packages/rezon/src/rezon/visibility.py:48-73 | A reachable episode and a policy whose view is not the solution, because a hidden proposition and a later relation share a name |
| Scheduler.NextDecision | packages/rezon/src/rezon/scheduler.py:38-135 | Never schedules a completed node, never at or over budget |
| SchedulerRules.MandatoryGoesFirst | packages/rezon/src/rezon/scheduler.py:86-88 | The first mandatory node that is not completed is executed, without a target, if the budget allows |
| SchedulerRules.ScanGoesNext | packages/rezon/src/rezon/scheduler.py:90-105 | With nothing mandatory left, an uncompleted contradiction scanner is executed on the first current contradiction |
| SchedulerRules.GenerationGoesNext | packages/rezon/src/rezon/scheduler.py:107-119 | Then the generator, if it has to be independent or there is no hypothesis |
| SchedulerRules.FalsificationGoesLast | packages/rezon/src/rezon/scheduler.py:121-133 | Then the falsifier, on the first hypothesis of high confidence |
| SchedulerRules.NothingDueIff | packages/rezon/src/rezon/scheduler.py:86-135 | The scheduler ends the run without a failure if and only if none of the four rules is due |
| Scheduler.FirstNode | packages/rezon/src/rezon/scheduler.py:64-135 | The first node with the wanted property: it qualifies and none before it does, or none does at all |
| Admission.AdmitExecutionResult | packages/rezon/src/rezon/admission.py:184-415 | All additions or none: on refusal by any check or any addition the episode is exactly as before |
| Admission.AdmissionExtends | packages/rezon/src/rezon/admission.py:184-415 | An admitted output only adds non-evidence objects that carry the recomputed producer identity; everything older keeps its content and status |
| AdmissionLaws.AdmittedIff | packages/rezon/src/rezon/admission.py:184-415 | An admission happens if and only if the result is this node's, of this execution and without failures, the episode is still the one that was seen, everything emitted is of a permitted kind and cites only what the view governs, and all of it can be added |
| AdmissionLaws.AdmittedExactly | packages/rezon/src/rezon/admission.py:184-415 | Everything emitted is stored and active as it was emitted but for its producer, and every new object is an emitted one |
| AdmissionLaws.StaleIsRefused | packages/rezon/src/rezon/admission.py:184-415 | The compare-and-swap: against a snapshot of any other reachable episode nothing is admitted |
| AdmissionLaws.DigestIdentifiesOutput | packages/rezon/src/rezon/admission.py:184-415 | The output digest identifies the output and not who is named as its producer |
| Prevalidation.Prevalidate | packages/rezon/src/rezon/admission.py:147-182 | The staging loops accept exactly the outputs without a clash with the episode or with what was staged before |
| Prevalidation.AdditionsIff | packages/rezon/src/rezon/admission.py:147-182 | For every episode and output: the additions succeed if and only if pre-validation passes and every item is well-formed, of this episode, and cites only current sources or ones staged before it |
| Prevalidation.PrevalidationMissesInactiveSources | packages/rezon/src/rezon/admission.py:147-182 | A new well-formed proposition of this episode that cites a retracted source passes pre-validation and is refused by the addition for that source |
| RunAdmission.CheckSufficesInRuns | packages/rezon/src/rezon/admission.py:185-415 | Inside a run that gap cannot be met: what the governed view lets a result cite is current, so an admissible result can be added if and only if it passes pre-validation |
| Receipts.CheckBindings | packages/rezon/src/rezon/receipts.py:276-345 | Accepts exactly non-empty pairs naming different known executions |
| Receipts.ConstructReceipt | packages/rezon/src/rezon/receipts.py:276-345 | A receipt is constructible if and only if its bindings are sound and it claims no disposition |
| Receipts.ValidateReceiptTraceBinding | packages/rezon/src/rezon/interop.py:33-105 | Accepts exactly the receipts whose executions, versions, failures, outputs and recomputed producers agree with the trace |
| ReceiptLaws.ExportTells | packages/rezon/src/rezon/interop.py:33-105 | An accepted receipt names the executions of its trace in order, its source versions once each, every failure, and exactly the outputs and producers of its records, each producer computable again from node, snapshot, task and output |
| ReceiptLaws.ConstructibleIff | packages/rezon/src/rezon/receipts.py:276-345 | A receipt can be made if and only if it is about a task, is a plan only, disposes of no claim, and binds known executions once each to something |
| Runner.AttemptExecution | packages/rezon/src/rezon/runner.py:624-756 | Whatever operations the executor performs and whatever it returns or raises, the episode comes back unchanged, and its result is used exactly when it is well-formed and the operations had left the episode alone |
| Runner.Conclude | packages/rezon/src/rezon/runner.py:757-845 | The imperative conclusion is the specified one; what it means for verification is stated by `RunLaws` |
| RunLaws.UnverifiedChangesNothing | packages/rezon/src/rezon/runner.py:757-845 | Unless a mandatory node's result reports passed, on exactly the targets asked for, all of them in view, with a test result resting on every one of them, the episode stays as it is, nothing is emitted, and a failure and a verification note are recorded |
| RunLaws.NotPassedIsInsufficient | packages/rezon/src/rezon/runner.py:760-768 | A status other than passed is recorded as insufficient evidence with a verification note |
| RunLaws.CleanRecordIff | packages/rezon/src/rezon/runner.py:757-845 | A record reports no failure if and only if the result reports none, the verification that is owed passed, and the output was admitted |
| Runner.ConclusionSound | packages/rezon/src/rezon/runner.py:757-845 | That conclusion keeps the run sound and only extends the episode, by objects with the recorded producer |
| Runner.ExecuteNode | packages/rezon/src/rezon/runner.py:624-845 | Calling the executor and following up: some run of its operations leads to exactly this state, and the run stays sound |
| Runner.RunNode | packages/rezon/src/rezon/runner.py:403-845 | One scheduled node: stopped by exactly the failed preflight rule or executed on the hidden view; the run stays sound and, if it goes on, completes exactly that node |
| Runner.RunLoop | packages/rezon/src/rezon/runner.py:381-845 | The loop is a complete sequence of turns as the scheduler decides them, ends within one turn per node plus the final decision, and only extends the episode |
| Runner.Run | packages/rezon/src/rezon/runner.py:210-884 | The outcome is an objection or that of a complete run of the loop, and for every executor behaviour: the receipt is constructible and exportable, the episode is only extended by objects with a trace producer, calls stay within both budgets, and recorded independent workers are pairwise independent |
| RunLaws.NoFailureMeansVerified | packages/rezon/src/rezon/runner.py:381-845 | A run that reports no failure has verified every mandatory node: a record of it stands for a result which its executor returned for the view it was shown and which passed |
| RunLaws.CleanRecordMeansVerified | packages/rezon/src/rezon/runner.py:757-845 | In any run a mandatory node's record without a failure means that its verification passed |
| RunLaws.ReceiptWithoutFailures | packages/rezon/src/rezon/runner.py:846-884 | The same of the receipt and trace that a run hands out |
| RunPermissions.CalledIff | packages/rezon/src/rezon/runner.py:403-640 | A scheduled node's executor is called, once, if and only if it needs no authority, exists, has its target in view, accepts every kind in view and is independent where it must be; otherwise the episode stays and the run has a failure |
| RunPermissions.StoppingTells | packages/rezon/src/rezon/runner.py:403-613 | What a node that may not be called leaves behind: which failure, whether it is recorded, counted or completed, and that only a missing optional executor lets the run go on |
| RunPermissions.UsedIff | packages/rezon/src/rezon/runner.py:624-756 | A result is used if and only if the executor returned it, it is complete, and the episode is as it was |
| RunPermissions.ConclusionNotes | packages/rezon/src/rezon/runner.py:757-820 | Exactly which open points a returned result leaves: reported failures, a refused output, a verification that is owed and was not had |
| RunPermissions.RecordTells | packages/rezon/src/rezon/runner.py:821-845 | What the record of a returned result says of snapshot, task, versions shown, items admitted and output |
| RunPermissions.RunAddsOnlyGranted | packages/rezon/src/rezon/runner.py:789-838 | Every new proposition or relation of a run carries the producer of a record of a node that may make its kind or type |
| RunPermissions.GovernedIff | packages/rezon/src/rezon/runner.py:112-151 | An output may cite exactly what is in view and the sources and versions of what is in view |
| RunPermissions.RecordedAreApart | packages/rezon/src/rezon/receipts.py:65-123 | Recorded independent workers differ in executor, model, provider, prompt and context and share no evidence, two by two |
| RunPermissions.UnusableIsReported | packages/rezon/src/rezon/runner.py:656-756 | An execution without a usable result changes nothing, is recorded with its failure and completes the node; the run goes on unless the node was mandatory |
| RunPermissions.ReceiptTells | packages/rezon/src/rezon/runner.py:846-884 | The receipt passes on every failure and open point of the run and leaves every current claim undisposed |
| Runner.FinalReceiptSound | packages/rezon/src/rezon/runner.py:846-884 | The receipt built from the loop's state meets the construction and the export rules |
| CoordinationLog.AppendKeepsIntact | packages/vera_coordination/src/coordination_bus/sqlite_repository.py:189-300 | Every accepted append keeps the digest chain, lineage and uniqueness intact, whatever the hash is |
| CoordinationLog.BuiltExactly | packages/vera_coordination/src/coordination_bus/sqlite_repository.py:189-451 | A table can be built by appends if and only if the integrity check accepts it, its digests are distinct (a constraint of the table) and every draft would be accepted today, with two different references for the two roles |
| CoordinationLog.ValidDecodes | packages/vera_coordination/src/coordination_bus/contracts.py:134-249 | Whatever a new draft must satisfy implies what decoding asks of a stored row |
| BusRules.StoredRowsAre | packages/vera_coordination/src/coordination_bus/sqlite_repository.py:367-451 | What the integrity check has established of every row: its number, its link, its identity, the fields that decoding looks at, and that no earlier row shares its identity or its superseded event |
| IntegrityGaps.SingleBuiltIff | packages/vera_coordination/src/coordination_bus/sqlite_repository.py:367-451 | A single decodable event passes the integrity check in any case, and appends can have built it if and only if its draft is valid |
| IntegrityGaps.OddTablesAccepted | packages/vera_coordination/src/coordination_bus/contracts.py:134-249 | Five tables that the check accepts and no appends can build: a resolution of nothing, an address out of use, an issue that names none, two empty texts |
| IntegrityGaps.OddPairsAccepted | packages/vera_coordination/src/coordination_bus/sqlite_repository.py:208-212 | The same for an event that supersedes what it acknowledges and for a review that asks for a perspective |
| CoordinationLog.HeadDeterminesHistory | packages/vera_coordination/src/coordination_bus/sqlite_repository.py:367-451 | Two accepted histories with the same head digest are the same history, or the hash has a collision |
| CoordinationRepository.SqliteRepository.Post | packages/vera_coordination/src/coordination_bus/sqlite_repository.py:189-300 | The imperative append: the specified table or the specified refusal with nothing written |
| CoordinationRepository.SqliteRepository.VerifyRows | packages/vera_coordination/src/coordination_bus/sqlite_repository.py:367-451 | The pass with its running indexes accepts exactly the rows that decode, chain, refer and succeed correctly |
| CoordinationRepository.SqliteRepository.VerifyIntegrity | packages/vera_coordination/src/coordination_bus/sqlite_repository.py:367-451 | True if and only if the whole table, counter and head included, is intact |
| CoordinationRepository.SqliteRepository.Read | packages/vera_coordination/src/coordination_bus/sqlite_repository.py:324-365 | From an intact log, as much as fits and with room all of the events that are addressed to the reader, come after the cursor and have no acknowledgement or answer by the reader itself |
| CoordinationRepository.InMemoryRepository.Post | packages/vera_coordination/src/coordination_bus/in_memory.py:12-33 | The reference append accepts every valid draft |
| CoordinationRepository.InMemoryRepository.Read | packages/vera_coordination/src/coordination_bus/in_memory.py:41-55 | The same, by the set of answered identities and one filtering pass |
| InboxLaws.OthersRemoveNothing | packages/vera_coordination/src/coordination_bus/core.py:246-319 | Whatever another workstream does, and whatever it acknowledges, nothing disappears from the target's inbox |
| InboxLaws.OwnAcknowledgementRemovesOne | packages/vera_coordination/src/coordination_bus/core.py:62-85 | The target's own acknowledgement removes the event it names and no other |
| BusRules.AcceptedIsEntitled | packages/vera_coordination/src/coordination_bus/core.py:55-319 | Whatever command gets through, the draft is the actor's own, its references stay in their thread, the actor has the permission and the standing that its kind of event takes, and it is never a decision |
| BusRules.PostIff | packages/vera_coordination/src/coordination_bus/core.py:246-319 | A status or issue is posted if and only if it is valid and the actor's own, the actor may post, its references stay in their thread and nobody has superseded the same event |
| BusRules.AddresseeMayAcknowledge | packages/vera_coordination/src/coordination_bus/core.py:62-85 | Whoever is addressed by an event and may acknowledge can do so |
| BusRules.PairsAre | packages/vera_coordination/src/coordination_bus/contracts.py:34-45 | Which progress goes with which kind of event |
| CoordinationBus.ThreadLocalIsGlobal | packages/vera_coordination/src/coordination_bus/core.py:304-319 | Over an intact log the bus's thread-local successor search finds a successor if and only if the global unique index would |
| RepositoryEquivalence.QueriesAlike | packages/vera_coordination/src/coordination_bus/sqlite_repository.py:302-365 | Get, thread and inbox queries give the same answers up to record time |
| RepositoryEquivalence.PrepareAlike | packages/vera_coordination/src/coordination_bus/core.py:246-319 | Authorization and lineage decide alike over either repository |
| RepositoryEquivalence.AppendAcceptsIff | packages/vera_coordination/src/coordination_bus/sqlite_repository.py:189-300 | After the bus has accepted a draft SQLite refuses it only when an identity or digest repeats |
| RepositoryEquivalence.StepAlike | packages/vera_coordination/src/coordination_bus/core.py:246-319 | One request gets the same verdict from both repositories exactly when the hash does not repeat a stored value |
| RepositoryEquivalence.RunsAlike | packages/vera_coordination/src/coordination_bus/in_memory.py:12-55 | Over whole runs without such a clash both repositories give the same verdicts and stay alike |
| RepositoryEquivalence.OneToOneRunsAlike | packages/vera_coordination/src/coordination_bus/in_memory.py:12-55 | If the first 32 characters of the hash never repeat, every run is without clash, so the repositories agree on all runs |
| RepositoryEquivalence.IntactChains | packages/vera_coordination/src/coordination_bus/sqlite_repository.py:195-230 | Supersession points back within its thread and no event has two successors |
| RepositoryEquivalence.ChainsNeverMerge | packages/vera_coordination/src/coordination_bus/sqlite_repository.py:195-230 | Two supersession chains that meet lie on one another |
| InboxPaging.PageCovers | packages/vera_coordination/src/coordination_bus/temporal.py:279-342 | A page is the ascending part of the inbox up to its outgoing cursor, and the last page is all the rest |
| InboxPaging.PagingIsTheInbox | packages/vera_coordination/src/coordination_bus/temporal.py:299-342 | Following the cursor to the end returns exactly the inbox, in order, for every page size |
| InboxPaging.PagingMissesNothing | packages/vera_coordination/src/coordination_bus/temporal.py:299-342 | With appends and answers between pages the result is ascending without repetition and contains every event still unanswered at the end |
| InboxPaging.BusGrows | packages/vera_coordination/src/coordination_bus/core.py:246-265 | Every request, accepted or refused, leaves a log of which the earlier one is a prefix |
| RetryGuard.RetryGuard.Accept | packages/vera_coordination/src/coordination_bus/retry_guard.py:80-102 | The pruned map answers as the full history: suppressed if and only if the key's last standing acceptance is within the window; after an acceptance nothing older than the window is kept |
| RetryGuard.RetryGuard.Prune | packages/vera_coordination/src/coordination_bus/retry_guard.py:94-101 | The pruning loop stops with exactly the entries within the window, in time order |
| RetryGuard.RetryGuard.RollbackAccept | packages/vera_coordination/src/coordination_bus/retry_guard.py:104-115 | True exactly for a last standing acceptance within the window of the latest acceptance; later answers agree with the history either way |
| RetryGuard.RollbackIff | packages/vera_coordination/src/coordination_bus/retry_guard.py:104-115 | After every sequence of calls the guard's rollback answer is that of a history which never forgets, except exactly for a standing acceptance that another one followed more than a window later |
| RetryGuard.ForgottenRollback | packages/vera_coordination/src/coordination_bus/retry_guard.py:94-115 | A concrete sequence of calls after which the two answers differ |
| RetryGuard.AnswerAll | packages/vera_coordination/src/coordination_bus/retry_guard.py:80-115 | Every sequence of accepts and rollbacks on a new guard is answered as the history that never forgets |
| RetryGuard.AcceptAnswers | packages/vera_coordination/src/coordination_bus/retry_guard.py:70-102 | An accept is an error without a key, with a negative time or when the clock has gone back; it is suppressed within the window of the key's last standing acceptance; otherwise it is accepted |
| RetryGuard.RetryGuard.GuardedPost | packages/vera_coordination/src/coordination_bus/retry_guard.py:122-166 | Reserve, write, release unless confirmed: state and history as specified, and the bus is reached only on acceptance |
| RetryGuard.WritesAreSpaced | packages/vera_coordination/src/coordination_bus/retry_guard.py:122-166 | Over every run of guarded posts two writes with the same key are more than a window apart |
| RetryGuard.RepeatedPost | packages/vera_coordination/src/coordination_bus/retry_guard.py:139-166 | A repetition is suppressed if and only if the first post was confirmed and the window is not over; a failed one may be repeated at once |
| RetryGuard.PostReports | packages/vera_coordination/src/coordination_bus/retry_guard.py:122-166 | Which report each outcome of the bus gives |
| CorrectiveLedger.Ledger.DecodeRows | packages/vera_core/src/vera_core/corrective_learning.py:259-311 | No fault if and only if the rows are a digest-linked prefix of the six stages under one signature; otherwise the first fault |
| CorrectiveLedger.Ledger.Append | packages/vera_core/src/vera_core/corrective_learning.py:172-246 | The inserting transaction, with every refusal leaving the table as it was |
| CorrectiveLedger.Ledger.Start | packages/vera_core/src/vera_core/corrective_learning.py:112-133 | Only the first row of a new correction, at stage FLAG |
| CorrectiveLedger.Ledger.Advance | packages/vera_core/src/vera_core/corrective_learning.py:135-170 | Undisturbed, the check followed by the insertion of the next stage |
| CorrectiveRuns.CommitsIff | packages/vera_core/src/vera_core/corrective_learning.py:145-234 | An insertion after a stale check succeeds if and only if nobody inserted that stage in between: the unique stage constraint replaces the check |
| CorrectiveRuns.RunsKeepInv | packages/vera_core/src/vera_core/corrective_learning.py:101-234 | Under every interleaving of starts, checks, insertions and crashes every correction is a linked prefix with its required references |
| CorrectiveRuns.RowsAlwaysDecode | packages/vera_core/src/vera_core/corrective_learning.py:259-311 | So the ledger never rejects its own rows, and a PREVENT row is the sixth and names guardrail and verification |
| CorrectiveLaws.RowsWellCited | packages/vera_core/src/vera_core/corrective_learning.py:30-35 | Every row of every reachable correction cites evidence, none of it empty or twice, and the last stage, alone, guardrails and verifications |
| CorrectiveLaws.BeginsIff | packages/vera_core/src/vera_core/corrective_learning.py:112-133 | A correction begins if and only if it is new and has names, a summary and evidence |
| CorrectiveLaws.CheckPassesIff | packages/vera_core/src/vera_core/corrective_learning.py:145-160 | The check of `advance` passes if and only if the stage is the next one and its references are those the stage takes |
| CorrectiveLaws.NextStageIsAccepted | packages/vera_core/src/vera_core/corrective_learning.py:135-246 | In every reachable state the next stage, well cited, is accepted from whoever brings it |
| CorrectiveLaws.AppendsIff | packages/vera_core/src/vera_core/corrective_learning.py:172-246 | The inserting transaction succeeds if and only if summary and evidence are there, the correction is new or old as asked, the failure signature is its own, and it does not have the stage yet |
| CorrectiveRuns.FirstCommitWins | packages/vera_core/src/vera_core/corrective_learning.py:145-234 | Of two clients with pending stages of one correction, the first insertion shuts the other out |
| CorrectiveRuns.LastDigestDetermines | packages/vera_core/src/vera_core/corrective_learning.py:259-311 | Equal last digests mean equal corrections, or a digest collision |
| GuardedVoteRun.RezonGuarded | packages/rezon/src/rezon/replay_strategies.py:168-344 | The loops compute a judgement that is a function of the set of candidates; on ANSWER accepted and rejected partition the answering candidates |
| GuardedVoteRun.AnyOrder | packages/rezon/src/rezon/replay_strategies.py:168-344 | Two orders of the same candidates: same disposition, normalized answer, rejected set, violations, open issues and operation count |
| GuardedVoteRun.CorrelatedCandidates | packages/rezon/src/rezon/replay_strategies.py:143-165 | Looking at each pair once marks exactly the candidates that saw another answer or share lineage or evidence with another |
| GuardedVoteRun.ApplyGuards | packages/rezon/src/rezon/replay_strategies.py:187-257 | The guards reject exactly the faulty candidates, report each violated guard once and in order, and count one operation per candidate looked at |
| GuardedVoteRun.Integrate | packages/rezon/src/rezon/replay_strategies.py:292-315 | Finds the answer with more votes than every other, or that there is none |
| GuardedVote.GuardsMean | packages/rezon/src/rezon/replay_strategies.py:187-257 | Rejected by the guards means some enabled guard faults the candidate; a violation is reported if and only if such a candidate exists |
| GuardedVoteLaws.EligibleIff | packages/rezon/src/rezon/replay_strategies.py:187-277 | A candidate reaches the vote if and only if it answers without failure and for every guard that is on: answered the literal request, rests on current sources, on admitted sources, is uncorrelated, claims no effect and no authority |
| GuardedVoteLaws.FailureBlocks | packages/rezon/src/rezon/replay_strategies.py:236-271 | With failure visibility on a failing candidate blocks the answer and is named with its reason |
| GuardedVoteLaws.MajorityAnswers | packages/rezon/src/rezon/replay_strategies.py:292-315 | An answer that more than half of the eligible candidates give is the answer |
| GuardedVoteLaws.TieAbstains | packages/rezon/src/rezon/replay_strategies.py:296-313 | Two answers with equally many and most votes are no answer |
| GuardedVoteLaws.AnswerIsPlurality | packages/rezon/src/rezon/replay_strategies.py:292-344 | The answer is some eligible candidate's and has more votes than any other |
| GuardedVoteLaws.OperationsAre | packages/rezon/src/rezon/replay_strategies.py:187-257 | The guards cost one operation per answering candidate, and failure visibility one per candidate |
| Safetensors.CheckFile | tools/local_training/bind_source.py:68-122 | Accepted if and only if header length, tensors and shapes are right and the ranges tile the payload |
| Safetensors.CheckTensor | tools/local_training/bind_source.py:94-113 | Known type, rank at most 32, offsets in the payload, every leading product within it, length equal to width times shape |
| Safetensors.CheckTiling | tools/local_training/bind_source.py:115-122 | Sorting and walking accepts exactly when every byte lies in one tensor and no tensor, even an empty one, begins inside another |
| Safetensors.SortedChainIffTiles | tools/local_training/bind_source.py:115-122 | Contiguity of the sorted ranges is the same as the unsorted tiling property |
| Safetensors.SizesFillThePayload | tools/local_training/bind_source.py:92-122 | Conservation: the sizes of the tensors of an accepted file, width times shape, add up to the payload |
| Safetensors.WidthsAre | tools/local_training/bind_source.py:23-29 | The known element types and their widths |
| Safetensors.ShapeDecides | tools/local_training/bind_source.py:104-113 | Without a zero dimension the check of leading products adds nothing |
| Safetensors.ZeroDecides | tools/local_training/bind_source.py:104-113 | With one, exactly the dimensions before the first zero still have to fit |
| Safetensors.ZeroDimensionOrder | tools/local_training/bind_source.py:104-113 | So shape [2, 0] is refused where [0, 2] is accepted |

## Left out

- Gateway.Gateway.DispatchVerified: one dispatch at a time with the lock free when it is asked for; waiting for the lock and interleaving with other clients are in the state machine.
- Gateway.Gateway.Perform: the callback is described by its outcome, and a crash inside it is a step of the state machine only.
- EffectSafety.TrustGuardedNeverStartsLate: trust rotation and revocation are not steps, only reconciliation is.
- CommandRecovery.AssessmentIsSound: the lifecycle's own permit is any digest; only its refusal while something is unresolved is modelled.
- Gateway.Gateway.Invoke: a coordination bus without a command journal is left out, since its commands cannot be assessed.
- CoordinationLog.ValidDecodes: a text is valid when it is not empty; blank texts and control characters are left out, and stored event types and statuses outside the vocabulary cannot be written down.
- Visibility.PassIsRightIff: the exact condition is over all visible sets; which of them a policy can produce for a given episode is left out.
- Runner.Run: assumes that snapshot digests do not collide, that output and producer digests are not empty and that execution names are fresh, as with fresh uuids.
- Runner.AttemptExecution: an executor is a sequence of episode operations followed by a result, junk or an exception; it does not keep the episode for later and opens no atomic blocks of its own.
- InboxPaging.PageCovers: for every page size from 1 on; that the temporal read refuses negative cursors and sizes above 500 is left out.
- InboxPaging.PagingMissesNothing: an event answered while paging may or may not be returned, as in the source.
- Episode.Episode.RetractProposition: sets are iterated in an arbitrary order; the order of events within one pass is not fixed.
- RetryGuard.RetryGuard.GuardedPost: the bus's result is a parameter, since the guard's lock is held across the call.
- GuardedVoteRun.RezonGuarded: of the input validation only the uniqueness of candidate identities, the part the vote depends on.
- Safetensors.CheckFile: starts from the parsed header; file reading, JSON and duplicate keys are not part of this model.
- AtomicCurrentnessStore.publish: a single compare-and-swap on one row.
- The outbound execution audit, apart from where its failure interrupts a dispatch.
- Authority verifiers, the trust registry, the lifecycle and its permits: oracles whose answers are parameters.
- Syntax of digests and identifiers, their lower-casing, and exact-type checks.
- The command journal's projection digest and row digests.
- single_pass, fixed_multipass and the replay trace strings: simple choices without guards.
- Coordination payloads and reference data: carried as one field.
- Provider effect identities are pairs; two pairs that the source joins to one string with a colon are kept apart.
- Temporal evidence, verified_temporal.py and receipt wording.
- Durations, task references, evidence excerpts and other fields that no check reads.
- Confidence is a natural number of millionths; floating point is not part of this model.
- Text normalization in the vote: two arbitrary functions.
- SQLite connections, migrations, files and permissions: every transaction is one atomic step.
- The adaptive, cascade, causal and training modules, the command-line tools and the user interface.
