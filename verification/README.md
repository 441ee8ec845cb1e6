# A-Conductor: verified model

A Dafny 4.11 model of the fail-closed protocols of the A-Conductor control plane, with proofs of what they promise.
`dafny verify dfyconfig.toml` checks the whole project.

| part | files | what is modelled |
|---|---|---|
| dispatch of one attempt | `DexIdentity`, `DexAdmission`, `ExecutionStore`, `DexWire`, `DexSafety`, `DexRuns`, `DexAttempts`, `DexAnswers`, `DexCalm`, `DexOrchestrator`, `DexEvidence`, `DexConfig` | admission, write-ahead fence, dispatch, evidence and receipt, over any number of processes and one durable store |
| secret env file | `EnvFile`, `EnvForms`, `EnvEdit`, `SecretWriter` | reader and editor of one file, and its replacement by temporary, fence, swap and rollback |
| connector recovery | `Recovery`, `RecoveryRate`, `RecoveryStarts`, `RecoveryAnswers`, `RecoveryCoordinator` | failure windows, backoff, degradation, suppression and the event history |
| continuity | `Continuity`, `ContinuityKinds`, `ContinuityGates`, `Sentinels`, `Projection`, `ProjectionAdoption`, `ProjectionReads`, `ProjectionFold` | snapshot classification, the two admission gates, the sentinel renderer and the fold that publishes it |
| elastic capacity | `ElasticWip`, `ElasticCapacity`, `ElasticSafety`, `ElasticExecutor` | the work-in-progress policy and the worker reservation protocol |
| round trips | `RunIdentity`, `AttemptDirs`, `RunRecovery`, `RunAnswers`, `Gateway`, `GatewayAnswers`, `Thresholds` | run ids and their directories, gateway evidence, threshold selection |
| shared | `Chars`, `Decimal`, `Json`, `JsonSize`, `CanonicalJson`, `StringOrder` | characters, numerals, JSON writing and reading, string order |

How the parts are built:

- The two protocols that many processes run at once are step machines: one step per store or external call, each call
  able to fail before or after its effect, crashes at any step. `DexSafety` and `ElasticSafety` prove one invariant that
  every step keeps; the theorems over runs follow. `DexOrchestrator` and `ElasticExecutor` hold the code in its own
  nested, field-updating form. Their state is what one run of the machine has made it: between two calls any other
  process, attempt, executor or operator takes any steps of the machine, and each call of their own is one step of it.
  So their contracts can say what holds of the tables left behind, and every theorem over runs applies to them.
- Components that rewrite their own state are classes (`SecretWriter.Writer`, `RecoveryCoordinator.Coordinator`,
  `ProjectionFold.FoldAdapter`, `DexEvidence.CollectionProducer`). Failing calls, other writers and callback answers are
  unconstrained choices inside the methods, or functions the class is given, so each `ensures` holds for every pattern
  of them.
- Loops of the source are loops here, proved equal to the functions that the theorems are about.
- What must not happen and what must happen are separate theorems: beside the safety results, `DexCalm`, `RecoveryAnswers`,
  `ContinuityKinds`, `GatewayAnswers`, `RunAnswers` and the `Quiet()` clauses of the classes say what an operation answers
  when nothing fails and nobody interferes.

What is assumed, and where:

- SHA-256 is a function parameter. It is injective in `DexConfig.ConcreteIsSound`, in `DexSafety.Sound` and in
  `Gateway.DigestBindsEvidence`; its result is 64 hexadecimal digits in `DexEvidence.EmittedDecodes`,
  `DexEvidence.BoundedDecodes` and `DexEvidence.CollectAll`; no statement assumes both.
- Strings are sequences of Unicode scalar values, so lone surrogates cannot occur. The gateway rejects them; the dispatch
  identities do not, and for them this is a precondition of the injectivity results.
- Times and confidences are real numbers.
- The SQLite tables are their committed transactions, as `execution_store.py` and `worker_lease.py` write them.
- Worktree keys, write-set overlap and pattern matching are function parameters.

Findings of the proofs, beyond the promised properties:

- Deleting the first line of an env file without a byte-order mark can bare a line that was hidden behind a U+FEFF
  (`EnvEdit.DeletionCanMisread`); `EnvEdit.PlanReads` says exactly when, and the read-back of the temporary refuses each
  such edit (`SecretWriter.AchievedNeverMisreads`).
- The retry bound is 2·limit − 2 for limits of at least 2, one less than the window logic suggests, and it is met
  whenever the backoffs fit the window (`RecoveryRate.BoundIsMet`). It survives suppressions, and outages with autostart off outside DEGRADED.
- The typed gate opens for an open release as well as for an open fold, and completing the fold alone is then not enough
  (`ContinuityGates.FoldAloneSuffices`).
- A foreign active lease whose worktree has no key makes the classifier raise instead of returning a verdict; both gates
  stay shut (`Continuity.ClassifyLeases`).
- One failing call never makes an env-file edit end in RECOVERY_REQUIRED; without an outside writer it takes two
  (`SecretWriter.Writer.Execute`).
- Texts of the projection facts are not kept to one line, and a line feed in one can say what another fact says
  (`ProjectionReads.LineBreakMisleads`).
- A claim of generation zero is admitted and dispatched and then ends in an untyped error (`DexRuns.LoneAttempt`).

## Model

| member | source | states |
|---|---|---|
| `DexRuns.AtMostOnce` | src/a_conductor/dex_wire.py:149-215 | In every run of any number of processes, attempts, crashes, restarts and calls failing before or after their effect, `dispatch` is called at most once per attempt identity. |
| `DexRuns.DispatchIsPreceded` | src/a_conductor/dex_wire.py:136-185 | Each dispatch is made when an admission for exactly that binding is journalled, the same attempt has created the fence row, and the identity has never been dispatched. |
| `DexRuns.DeniedNeverDispatches` | src/a_conductor/dex_wire.py:133-141 | An identity whose journalled decision is a denial is dispatched neither before nor ever after. |
| `DexRuns.DecisionsNeverFlip` | src/a_conductor/dex_admission.py:176-232 | Two answers for one identity, across processes and restarts: all that were let through presented the same binding and generation, a denial beside an admission is an identity mismatch, equal requests are denied alike. |
| `DexRuns.CompletionIsSound` | src/a_conductor/dex_wire.py:286-325 | COMPLETED, and DUPLICATE after a receipt race, stand for a stored receipt that agrees with the admitted binding on digest, generation and both commits, and does so for ever. |
| `DexRuns.ReceiptsAreJustified` | src/a_conductor/dex_wire.py:267-289 | Every stored receipt belongs to a dispatched attempt; it is QUARANTINED exactly when its evidence was collected under drift. |
| `DexRuns.FencesAreHonest` | src/a_conductor/dex_wire.py:362-403 | Fence states only move forward, and RETIRED implies a stored receipt of that attempt. |
| `DexRuns.Durable` | src/a_conductor/execution_store.py:969-1286 | Journal rows, fences and receipts outlive every later event: no row is removed or rewritten, fences only advance. |
| `DexRuns.UntypedNeedsGenerationZero` | src/a_conductor/execution_record.py:301-322 | The one way out that is not a typed outcome, the receipt constructor refusing its arguments, is taken only for claim generation zero. |
| `DexRuns.LoneAttempt` | src/a_conductor/dex_wire.py:124-325 | An undisturbed attempt with fitting evidence completes with its fence retired; at generation zero it does leave untyped, its fence still DISPATCHED. |
| `DexAnswers.ReceiptStops` | src/a_conductor/dex_wire.py:163-173 | Once a receipt of an execution is stored, no attempt of that execution that starts later ever dispatches or is about to, in whatever process and under whatever attempt id. |
| `DexAnswers.ReceiptSilences` | src/a_conductor/dex_wire.py:423-442 | So the dispatch log of any later run holds no call of such an attempt. |
| `DexCalm.CalmAttempt` | src/a_conductor/dex_wire.py:124-325 | From any reachable state, a new attempt in which nothing fails and whose identity nobody else is working on in its process ends in the answer the state owes it: denial with its code, AMBIGUOUS for a fenced identity or a found fence row, missing record, DUPLICATE with the first recorded receipt of the execution, AMBIGUOUS, collect error or rejected evidence with one call and the fence FENCED, or COMPLETED with the evidence's receipt stored and the fence RETIRED. |
| `DexCalm.FailedCallEnds` | src/a_conductor/dex_wire.py:136-141 | A failing store call on which the attempt hinges ends it at once as STATE_UNAVAILABLE: an unreadable journal is never a fresh admission, an unrecorded reservation never a dispatch, an unrecorded verdict never a verdict. |
| `DexSafety.AttemptStepOk` | src/a_conductor/dex_wire.py:124-325 | From every control point, one step of an attempt, whatever fails in it, keeps the invariant of the durable tables and leaves the attempt with a true assertion. |
| `DexSafety.Interference` | src/a_conductor/dex_wire.py:116-147 | What an attempt may assume at each control point survives every step of every other attempt. |
| `DexSafety.ApplyOk` | src/a_conductor/dex_wire.py:93-147 | Every event (boot, crash, new execution, new attempt, one step) keeps the invariant of the whole system and only grows the durable tables. |
| `DexSafety.ReplayHolds` | src/a_conductor/dex_admission.py:196-218 | A replayed decision is exactly what the journalled decision says about the presented binding, claim and generation. |
| `DexSafety.ReceiptSettled` | src/a_conductor/dex_wire.py:286-316 | Of one attempt at most one receipt identifier is ever settled, the one a completed attempt reports. |
| `DexAdmission.FreshDecision` | src/a_conductor/dex_admission.py:234-268 | A fresh decision admits exactly a live claim with the binding's reference and generation, and replays as it was made. |
| `DexConfig.ConcreteIsSound` | src/a_conductor/dex_identity.py:233-260 | With a collision-free hash, the real digests and the real decoder meet every assumption of the safety proof. |
| `DexConfig.ConcreteIsNamed` | src/a_conductor/execution_record.py:259-284 | With a hash whose results are not empty, receipt identifiers are never empty. |
| `DexIdentity.BindingPayloadInjective` | src/a_conductor/dex_identity.py:233-260 | Equal binding payloads have equal field tuples, the argument list included. |
| `DexIdentity.ReceiptPayloadInjective` | src/a_conductor/execution_record.py:259-284 | Equal receipt-id payloads have equal field tuples. |
| `DexOrchestrator.AdmissionReceiptWire.RunAttempt` | src/a_conductor/dex_wire.py:124-147 | One attempt on the process's own fields, in whatever run of all attempts and processes it takes place: the durable tables only grow and stay sound, the outcome is borne out by them, this attempt dispatched at most once (certainly, or not at all, where its outcome says so), and not at all when its execution had a receipt before; its lock is given back, and an outcome that needs reconciliation leaves the identity fenced in this process. |
| `DexOrchestrator.AdmissionReceiptWire.Rerun` | src/a_conductor/dex_wire.py:149-215 | Of two attempts of one identity made in turn, at most one ends in an outcome that presupposes its own dispatch. |
| `DexAttempts.RunsFit` | src/a_conductor/dex_wire.py:187-325 | In every run each attempt has made no dispatch before its dispatch step and exactly one after it; completed, rejected and raced outcomes imply one, denied, duplicate and missing-record outcomes imply none. |
| `DexAttempts.OneInside` | src/a_conductor/dex_wire.py:116-147 | In one process at most one attempt of an identity is between its fence check and its receipt. |
| `DexAttempts.LockIsGiven` | src/a_conductor/dex_wire.py:146-147 | A held identity lock is never stuck: its holder leaves it within two of its steps even when every call fails. |
| `DexOrchestrator.AdmissionReceiptWire.Decide` | src/a_conductor/dex_admission.py:176-229 | Memory, then journal, then a fresh decision journalled before it is cached: going on means that the admission of this very request is in the journal, a denial is what the journalled decision says, and nothing was dispatched. |
| `DexOrchestrator.AdmissionReceiptWire.AttemptLocked` | src/a_conductor/dex_wire.py:149-325 | Fence check, record probe, duplicate check, reservation, dispatch, collect, decode and receipt, each failure path included: the outcome is borne out by the tables left behind, the dispatches of this attempt are as many as the outcome admits to, and an ambiguous, rejected or conflicting end fences the identity. |
| `DexOrchestrator.AdmissionReceiptWire.ReserveDurableFence` | src/a_conductor/dex_wire.py:340-360 | Going on to dispatch means that this attempt owns the fence row and nobody has dispatched the identity; finding a row ends ambiguous with the identity fenced in this process. |
| `DexOrchestrator.AdmissionReceiptWire.FenceMark` | src/a_conductor/dex_wire.py:362-393 | The durable transition happens exactly when allowed and effective, and the error raised says which of the two failed. |
| `DexOrchestrator.AdmissionReceiptWire.Dispatch` | src/a_conductor/dex_wire.py:187-227 | Exactly one dispatch under this attempt; every way out but an accepted and recorded dispatch fences the identity in the process. |
| `DexOrchestrator.AdmissionReceiptWire.RecordReceipt` | src/a_conductor/dex_wire.py:267-325 | Completed, or a raced duplicate, leaves a stored receipt that agrees with the admitted binding; every other end leaves the identity fenced. |
| `DexOrchestrator.AdmissionReceiptWire.CompareStored` | src/a_conductor/dex_wire.py:444-472 | A raced duplicate leaves an agreeing stored receipt; anything else leaves the identity fenced. |
| `DexEvidence.CollectArtifacts` | src/a_conductor/dex_evidence.py:131-142 | The artifact loop returns the artifacts in order with distinct references, or the error of the first bad one. |
| `DexEvidence.AcceptedEvidence` | src/a_conductor/dex_evidence.py:92-167 | Accepted evidence is about the expected attempt, binding and commits, lists its result artifact, and carries the hash of its own canonical body. |
| `DexEvidence.EncodedDecodes` | src/a_conductor/dex_evidence.py:92-167 | Whatever valid evidence, drift or not and with one to sixteen artifacts, is encoded under its own digest decodes against its own identity to exactly itself, unless the text is over the size limit. |
| `DexEvidence.AcceptedIsValid` | src/a_conductor/dex_evidence.py:92-167 | Everything accepted is such evidence, about the expected identity. |
| `DexEvidence.BoundedDecodes` | src/a_conductor/dex_fake_substrate.py:84-130 | For every valid producer and observation whose integers have at most 4300 digits, decoding the emitted text against the producer's identity gives back exactly its fields. |
| `DexEvidence.EmittedDecodes` | src/a_conductor/dex_fake_substrate.py:84-130 | Without any bound on integers the only other answer is the refusal of a text over the size limit. |
| `DexEvidence.CollectionProducer.Collect` | src/a_conductor/dex_fake_substrate.py:84-130 | The first collection fixes signature and bytes; a later one replays them when it observed the same and is refused otherwise. |
| `DexEvidence.CollectAll` | src/a_conductor/dex_fake_substrate.py:84-130 | Over any sequence of calls one producer emits a single byte string; when its own integers and the exit codes have at most 4300 digits, it decodes to exactly what was observed first. |
| `Json.RoundTrip` | src/a_conductor/dex_evidence.py:61-62 | Reading a written value returns exactly that value: escapes, surrogate pairs, numbers, nesting. |
| `Json.DumpsInjective` | src/a_conductor/dex_evidence.py:61-62 | Distinct values never share a text. |
| `CanonicalJson.SortSorted` | src/a_conductor/dex_evidence.py:61-62 | Key sorting changes nothing in a value whose members are already in ascending order. |
| `Gateway.PayloadBindsEvidence` | src/a_conductor/command_gateway.py:243-269 | Two evidence payloads are equal if and only if every bound field is equal and the scope lists hold the same items as often: order is all the serialisation forgets. |
| `Gateway.DigestBindsEvidence` | src/a_conductor/command_gateway.py:261-388 | Under a collision-free hash two admissions carry the same digest exactly when they were made on the same evidence. |
| `Gateway.CoversByComponent` | src/a_conductor/command_gateway.py:272-281 | A scope pattern covers itself and what lies below its directory by whole path components, so `src/x/**` never covers `src/xy`. |
| `Gateway.AdmittedMutation` | src/a_conductor/command_gateway.py:298-388 | A mutating action is admitted only under an active lease of its task and claim that contains every requested item, on the observed worktree, safe to launch and fenced here. |
| `GatewayAnswers.AdmissionIsExact` | src/a_conductor/command_gateway.py:298-388 | A command is admitted if and only if it is well shaped, its label is its own class, and, when it mutates, its whole evidence is in order; the digest is that of request, fence and lease scope. |
| `GatewayAnswers.DenialsAreTrue` | src/a_conductor/command_gateway.py:298-388 | Every denial is true of its request, and what is said about an authority is said of a well-shaped mutating command only. |
| `GatewayAnswers.FenceIsRequired` | src/a_conductor/command_gateway.py:370-373 | A mutating command whose other evidence is in order but whose fence reference is not plain is refused as FENCE_MISSING. |
| `GatewayAnswers.SafeItems` | src/a_conductor/command_gateway.py:158-166 | A scope item is safe exactly when it is a plain reference without a colon and no text between its slashes, of either kind, is empty, a dot or two dots. |
| `StringOrder.SortIsCanonical` | src/a_conductor/command_gateway.py:255-256 | Two lists sort to the same list if and only if they are equal as multisets. |
| `EnvFile.ReadEnv` | src/a_conductor/awiki_environment_resolver.py:85-109 | The reader's loop computes the map in which later assignments win and one invalid value fails the file. |
| `EnvFile.SplitLineUnits` | src/a_conductor/awiki_secret_writer.py:162-177 | The splitting loop yields the units of the text between line feeds, each with its exact terminator. |
| `EnvFile.RenderOfFileUnits` | src/a_conductor/awiki_secret_writer.py:162-188 | Rendering the units of a file gives the file back, byte-order mark included, for every file. |
| `EnvFile.ClassifyMirrors` | src/a_conductor/awiki_secret_writer.py:145-159 | The writer classifies a line as owned by a key exactly when the reader would set that key from it. |
| `EnvForms.FormReads` | src/a_conductor/awiki_environment_resolver.py:85-109 | An assignment, exported or not, with blanks around its parts and a bare or quoted value, sets its key to exactly its value; the writer takes it for a plain or exported assignment of that key. |
| `EnvForms.NothingReads` | src/a_conductor/awiki_environment_resolver.py:92-95 | Blank lines and lines led by a number sign or a semicolon set nothing and belong to no key. |
| `EnvFile.ParseRendered` | src/a_conductor/awiki_environment_resolver.py:85-109 | The reader's line splitting sees units with LF and CRLF terminators as one line each. |
| `EnvEdit.CollectOwners` | src/a_conductor/awiki_secret_writer.py:371-376 | The loop collects exactly the indices of the plain and of the exported assignments of the key. |
| `EnvEdit.PlanReads` | src/a_conductor/awiki_secret_writer.py:371-424 | For every accepted operation the reader's map of the planned bytes is the old map with that one key set or removed, if and only if the edit does not bare a line hidden behind a U+FEFF. |
| `EnvEdit.PlanAccepts` | src/a_conductor/awiki_secret_writer.py:378-391 | An insertion is planned exactly when no line sets the key; a rotation or deletion exactly when one plain line and no exported one does. |
| `EnvEdit.PlanRefuses` | src/a_conductor/awiki_secret_writer.py:378-391 | Each refusal of a plan means its fact: no line sets the key, only exported lines do, one plain line does already, or the key is assigned more than once. |
| `EnvEdit.DeletionCanMisread` | src/a_conductor/awiki_secret_writer.py:412-414 | For any two assignments: deleting the first, before a line hidden behind a U+FEFF, makes the hidden one readable. |
| `EnvEdit.RotateBytes` | src/a_conductor/awiki_secret_writer.py:409-411 | A rotation changes the text of the one assignment and no other byte. |
| `EnvEdit.InsertBytes` | src/a_conductor/awiki_secret_writer.py:396-408 | An insertion keeps every byte and appends, after the one terminator that may have been missing. |
| `EnvForms.TerminatorFollowsFile` | src/a_conductor/awiki_secret_writer.py:180-183 | The added terminator is CR LF exactly when some line ends with it and none with LF alone, and LF otherwise. |
| `EnvEdit.DeleteBytes` | src/a_conductor/awiki_secret_writer.py:412-414 | A deletion removes the one unit with its terminator and no other byte. |
| `EnvEdit.AssignmentReads` | src/a_conductor/awiki_secret_writer.py:307-315 | Every accepted value reads back unchanged from the line written for it. |
| `SecretWriter.Writer.Execute` | src/a_conductor/awiki_secret_writer.py:341-440 | Over every failure of every call: success means the key resolves as asked and, with no outside writer, exactly the requested edit; a typed error other than RECOVERY_REQUIRED leaves the original file and no temporary. With no failing call and no outside writer the inputs decide the answer. TARGET_DRIFTED takes an outside write, RECOVERY_REQUIRED an outside write or two failing calls, every failure report a failing call. |
| `SecretWriter.SuccessIsDue` | src/a_conductor/awiki_secret_writer.py:341-424 | The undisturbed answer is success if and only if key and value may be written, the path is usable, the file is readable text with only LF and CRLF line ends, the key is assigned nowhere (insertion) or once, plainly, and the edit bares no hidden line. |
| `SecretWriter.Writer.AtomicReplace` | src/a_conductor/awiki_secret_writer.py:442-497 | Success has put the desired bytes, verified to read as expected, in place; a target that was already written since its capture when the replacement starts is left as it is; typed failures leave it as it was. Undisturbed it succeeds exactly when the desired bytes read as expected. |
| `SecretWriter.Writer.Fence` | src/a_conductor/awiki_secret_writer.py:456-479 | Passing means the temporary reads as the expected map and the target is, by identity and by bytes, the captured one; an undisturbed captured target does pass, and each refusal is true of something. |
| `SecretWriter.Writer.Swap` | src/a_conductor/awiki_secret_writer.py:480-492 | What is reported for a replace that raised, with or without its effect, is true of the target. |
| `SecretWriter.Writer.Rollback` | src/a_conductor/awiki_secret_writer.py:515-549 | A confirmed rollback has put back the captured bytes and mode and left no temporary; it is confirmed unless a call fails or somebody else writes. |
| `SecretWriter.Writer.CleanupOwnedTemp` | src/a_conductor/awiki_secret_writer.py:216-241 | A confirmed cleanup has removed the owned temporary; no other file is touched. |
| `SecretWriter.Writer.WriteOwnedTemp` | src/a_conductor/awiki_secret_writer.py:191-207 | The temporary holds exactly the data and mode, or a typed failure has left none behind. |
| `SecretWriter.Writer.Prepare` | src/a_conductor/awiki_secret_writer.py:347-424 | The captured bytes, the planned bytes and the map they must read as belong together; undisturbed, the error is the first thing that speaks against the edit. |
| `SecretWriter.AcceptedValues` | src/a_conductor/awiki_secret_writer.py:307-315 | The value checks accept exactly the values that the reader returns unchanged. |
| `SecretWriter.AchievedNeverMisreads` | src/a_conductor/awiki_secret_writer.py:456-461 | The read-back of the temporary catches every edit that would bare a hidden line: none is ever confirmed. |
| `Recovery.HistoryReplays` | src/a_conductor/connector_recovery.py:195-225 | In every run, folding the events rebuilds the whole snapshot, each event starts from the durable state before it, and the restart count is the number of successful recoveries. |
| `RecoveryRate.RetryBound` | src/a_conductor/connector_recovery.py:301-341 | With events in time order and no reset, any interval of the window's length holds at most 2·limit − 2 failed starts (1 for limit 1), whatever cancelled or lost starts and suppressions come between. |
| `RecoveryRate.BoundIsMet` | src/a_conductor/connector_recovery.py:301-341 | For every policy with a limit of at least 2 whose backoffs fit its window a run without a reset has 2·limit − 2 failed starts in one window's length, so the bound cannot be lowered. |
| `RecoveryRate.EveryLimitMeetsBound` | src/a_conductor/connector_recovery.py:301-341 | There is such a policy for every limit of at least 2. |
| `RecoveryRate.DefaultMeetsBound` | src/a_conductor/connector_recovery.py:301-341 | The policy of three failures in 300 seconds with backoffs 5, 15 and 30 is one: four failed starts within 35 seconds. |
| `RecoveryStarts.RunLawful` | src/a_conductor/connector_recovery.py:377-453 | In every run a start is recorded only when the connector is neither suppressed nor degraded and its retry time has passed. |
| `RecoveryAnswers.StartIsDue` | src/a_conductor/connector_recovery.py:377-453 | In every run an outage is answered with a start if and only if autostart is on, nobody cancels, the reason is one a record accepts, and the history leaves the connector unsuppressed, not degraded and due; READY makes no difference. |
| `RecoveryAnswers.RunAnswers` | src/a_conductor/connector_recovery.py:227-507 | In every run the events of the next step are exactly those that the history so far and the answers of its callbacks call for, with their kinds, times and reasons. |
| `RecoveryAnswers.EventMeans` | src/a_conductor/connector_recovery.py:227-507 | Each recorded event has its meaning for the snapshot: state, suppression, failure count and window, retry time, exit reason. |
| `RecoveryStarts.SuppressionHolds` | src/a_conductor/connector_recovery.py:227-271 | Between a suppression and the next manual start there is no start. |
| `RecoveryStarts.DegradedHolds` | src/a_conductor/connector_recovery.py:426-427 | Once DEGRADED, no start comes before a ready observation, a manual start or an outage seen with autostart off. |
| `RecoveryStarts.BackoffHolds` | src/a_conductor/connector_recovery.py:313-319 | Without such an event in between, every start after a failed one waits at least that failure's own backoff. |
| `RecoveryCoordinator.Coordinator.Observe` | src/a_conductor/connector_recovery.py:343-507 | One observation changes snapshot and history as one step of the machine, and calls the launcher exactly when the history before it calls for a start. |
| `RecoveryCoordinator.Coordinator.Outage` | src/a_conductor/connector_recovery.py:377-507 | The outage branch: suppressed, autostart off, degraded, waiting, cancelled, or started with its outcome recorded. |
| `RecoveryCoordinator.Coordinator.FailedAttempt` | src/a_conductor/connector_recovery.py:301-341 | Window, count, degradation and retry time after a failed start. |
| `RecoveryCoordinator.Coordinator.Suppress` | src/a_conductor/connector_recovery.py:227-247 | Suppression is one durable step and makes no start. |
| `RecoveryCoordinator.Coordinator.ManualStart` | src/a_conductor/connector_recovery.py:249-271 | A manual start clears suppression and counts in one durable step. |
| `Continuity.ClassifyContinuity` | src/a_conductor/continuity_guard.py:385-567 | The loops compute the verdict: findings, most severe kind, actions in precedence order, or the error of an unkeyed foreign active lease. |
| `Continuity.ClassifyLeases` | src/a_conductor/continuity_guard.py:339-382 | The lease loop makes exactly the findings of each lease and raises exactly for an unkeyed foreign active one. |
| `Continuity.FreshMeans` | src/a_conductor/continuity_guard.py:385-567 | FRESH, and so safe to mutate, means exactly: heads known and equal, clean, owned, no lease in the way, no ended or recovering job, merge folded and released, projections in agreement. |
| `ContinuityKinds.VerdictMeans` | src/a_conductor/continuity_guard.py:385-567 | The verdict from the facts: an error exactly for a foreign live lease that cannot be placed; otherwise the actions are exactly the kinds that some fact shows, the most severe first, and the verdict is named after the first, FRESH when nothing shows any. |
| `Continuity.OrderIndependent` | src/a_conductor/continuity_guard.py:341-520 | The verdict does not depend on the order in which leases and projections are listed. |
| `ContinuityGates.TypedAdmissionIsExact` | src/a_conductor/agent_change_packets.py:370-429 | For an identity-bound snapshot the typed gate opens if and only if the merge is the named one, an obligation of it is open, and completing it while repairing only the fold targets' claims, in any way, makes the snapshot FRESH. |
| `ContinuityGates.PublishedRepairDecides` | src/a_conductor/agent_change_packets.py:370-429 | The repair that publishes the snapshot's own head and branch decides: the typed gate opens if and only if, besides the named open merge, that one repair makes the snapshot FRESH. |
| `ContinuityGates.RepairedRepairs` | src/a_conductor/agent_change_packets.py:370-429 | Every snapshot with a merge can be repaired: publishing its own head and branch from the fold targets is a repair. |
| `ContinuityGates.GatesExclude` | src/a_conductor/agent_change_packets.py:341-429 | No snapshot passes both gates, whatever the two mutations are. |
| `ContinuityGates.RepairReopensGenericGate` | src/a_conductor/agent_change_packets.py:341-368 | The snapshot repaired after a typed admission passes the generic gate. |
| `ContinuityGates.FoldAloneSuffices` | src/a_conductor/agent_change_packets.py:407-412 | After a typed admission, completing the fold without the release is enough exactly when the release was complete. |
| `ContinuityGates.GenericAdmissionIsExact` | src/a_conductor/agent_change_packets.py:341-368 | The generic gate opens exactly for an identity-bound snapshot with nothing out of order. |
| `ContinuityGates.BindingMeans` | src/a_conductor/agent_change_packets.py:295-338 | A snapshot is bound if and only if session, task, worktree, branch and both heads are those of the mutation, every scope item is authorized by the lease, and every changed path the lease allows matches the snapshot's scope; a refusal names a field that does not fit. |
| `ContinuityGates.OpenGateStands` | src/a_conductor/agent_change_packets.py:341-429 | Either gate open: all of that holds, the lane is in order, and no live lease of anybody else covers this worktree or overlaps the snapshot's scope. |
| `ContinuityGates.GenericGateMeans` | src/a_conductor/agent_change_packets.py:341-368 | The generic gate opens exactly when the mutation's identity, its scope and every fact of the lane are in order. |
| `ContinuityGates.TypedGateMeans` | src/a_conductor/agent_change_packets.py:370-429 | The typed gate opens exactly when identity, scope and lane are in order, the named merge is owed, and only fold targets contradict the facts. |
| `ContinuityGates.UnrelatedDrift` | src/a_conductor/agent_change_packets.py:413-429 | The loop over projections finds a contradicting one outside the fold targets exactly when there is one. |
| `Projection.LastWriterWins` | src/a_conductor/continuity_projection.py:217-240 | Rendering new facts over a rendered document gives what rendering them first would have given: fresh, adopted and marked cases alike. |
| `Projection.RenderIdempotent` | src/a_conductor/continuity_projection.py:217-240 | Re-rendering a rendered document with the same sentinel-free facts gives the same text. |
| `Projection.ExactlyOnePair` | src/a_conductor/continuity_projection.py:217-240 | Every rendered document has one begin sentinel, one end sentinel and one pair. |
| `Projection.MarkedKeepsOutside` | src/a_conductor/continuity_projection.py:227-240 | On marked input every byte outside the pair is kept, in place. |
| `Projection.MalformedRefused` | src/a_conductor/continuity_projection.py:233-239 | A text whose sentinels are not one pair in order is refused. |
| `Projection.AdoptionKeeps` | src/a_conductor/continuity_projection.py:182-214 | Adoption keeps the title line and everything from the anchor on, or every byte but the one row. |
| `ProjectionAdoption.FrontMatterAdopted` | src/a_conductor/continuity_projection.py:182-196 | A work or handoff document without sentinels is adopted if and only if one line begins with the historical anchor and the text begins with a title line; the refusal says which is missing. |
| `ProjectionAdoption.RowAdopted` | src/a_conductor/continuity_projection.py:197-214 | The claims document is adopted if and only if it has one claims heading, one work-order row, and the row stands in the heading's section; the refusal says which is missing. |
| `Projection.DirtyBlockRefused` | src/a_conductor/continuity_projection.py:227-239 | A rendered document can be rendered again if and only if its block holds no sentinel. |
| `Projection.BlockIgnoresLeaseOrder` | src/a_conductor/continuity_projection.py:155-179 | The same facts make the same bytes in whatever order leases are listed. |
| `ProjectionReads.BlockDetermines` | src/a_conductor/continuity_projection.py:155-179 | For facts whose texts break no line and whose lease ids hold no comma, two blocks are equal if and only if the facts agree on everything the block shows. |
| `ProjectionReads.LineBreakMisleads` | src/a_conductor/continuity_projection.py:155-179 | Without that the block is ambiguous: a writer session with a line feed reads as a released lease. |
| `ProjectionFold.FoldAdapter.Fold` | src/a_conductor/continuity_projection.py:350-477 | completed=True: every target holds its render over what was there; completed=False and errors: nothing changed; always: each file is old or rendered, and each write came from a packet sent in this fold that the gate it had to pass admitted for exactly this task, head and path. With no failing call and no other writer it raises exactly when the facts do not bind or a target cannot be rendered, and completes when a gate it may use is open to every packet. |
| `ProjectionFold.FoldAdapter.FoldTwice` | src/a_conductor/continuity_projection.py:396-404 | After a completed fold, a second one with the same facts sends no packet, and undisturbed completes. |
| `ProjectionFold.FoldAdapter.Publish` | src/a_conductor/continuity_projection.py:422-464 | With a named merge a write passed the typed gate, or the generic gate right after the typed one refused the same change because no fold is owed; without one it passed the generic gate; the write replaces exactly the bytes the hash names. |
| `ProjectionFold.FoldAdapter.Apply` | src/a_conductor/agent_change_packets.py:433-571 | One packet writes only when the lease is this session's for this task, worktree and head, the gate is open for a request of exactly this path, the scope covers it, and the content has the expected hash; a typed denial is the gate's own answer. |
| `ProjectionFold.FoldAdapter.ReadBack` | src/a_conductor/continuity_projection.py:467-477 | Passing means every target reads back equal to its render; undisturbed it passes exactly then. |
| `ProjectionFold.PublishedSettles` | src/a_conductor/continuity_projection.py:396-404 | Published targets equal their own render, so a republish has nothing to do. |
| `ElasticWip.ClassifySucceeds` | src/a_conductor/elastic_wip_policy.py:156-186 | On validated facts the contraction error and both assertions are unreachable, and the number to park is max(0, borrowed_active − borrowable_waits). |
| `ElasticWip.ConvergesInOneStep` | src/a_conductor/elastic_wip_policy.py:169-247 | Carrying out a verdict leaves valid facts whose own verdict asks for no parking, resumption or new borrow. |
| `ElasticWip.VerdictIsBest` | src/a_conductor/elastic_wip_policy.py:175-221 | Among all ways to act within the limits the verdict parks least and, with the gates ready, keeps most borrowed lanes active; parked lanes resume before new ones open. |
| `ElasticSafety.NoLostWorker` | src/a_conductor/elastic_worker_capacity.py:527-772 | In every run of any number of executors: at most one provision call per reservation, every reservation it was called for stays started and unreleased, and unreleased reservations never exceed the highest limit any policy has set. |
| `ElasticSafety.ProvisionIsPreceded` | src/a_conductor/elastic_worker_capacity.py:649-661 | The provisioner is called only when the executor's own reservation is durably PROVISIONING and was never provisioned. |
| `ElasticSafety.ExecutedIsCapacity` | src/a_conductor/elastic_worker_capacity.py:1308-1385 | ELASTIC_EXECUTED implies that the reservation is, and for ever stays, CAPACITY for exactly the worker its own call made and its final plan selected. |
| `ElasticSafety.WaitKeepsNoAdmission` | src/a_conductor/elastic_worker_capacity.py:1241-1292 | A WAIT returned without having run anything holds no provider admission. |
| `ElasticSafety.StepKeeps` | src/a_conductor/elastic_worker_capacity.py:591-787 | One step of one executor, failing before or after its effect, keeps the invariant of store, calls, workers and executors. |
| `ElasticSafety.ReleasedWasUnstarted` | src/a_conductor/worker_lease.py:1033-1043 | Only a reservation that was never started can be released. |
| `ElasticSafety.ReserveStore` | src/a_conductor/worker_lease.py:890-993 | An acquired reservation keeps one unreleased reservation per owner and task and stays within the limit of its own policy. |
| `ElasticExecutor.Executor.ExecuteOnce` | src/a_conductor/elastic_worker_capacity.py:1091-1385 | One pass, in whatever run of all executors: it is begun once, for the given session, task and kind and the first node that capacity alone blocks and that is eligible; ELASTIC_EXECUTED stands on a CAPACITY reservation of this session and task for exactly the worker that its one provision call made, and its final plan selected exactly that node on exactly that worker; a wait before anything ran made no provision call and gave a granted admission back; on every way out each provision call is covered by a started, unreleased reservation. With no setback and no interference plan, policy, batch and store decide the kind. |
| `ElasticExecutor.Executor.ProvisionReady` | src/a_conductor/elastic_worker_capacity.py:527-636 | Ready means one provision call, whose reservation is durably PROVISIONED with exactly that worker; waiting means none; a policy or eligibility refusal makes none and says which; every worker stays covered. |
| `ElasticExecutor.Executor.RunOn` | src/a_conductor/elastic_worker_capacity.py:1293-1385 | An executed result leaves the reservation as CAPACITY for exactly this worker; otherwise the pass ends in recovery or in a wait after the run, the worker still covered; no further provision call is made. |
| `ElasticExecutor.Executor.FirstElastic` | src/a_conductor/elastic_worker_capacity.py:1193-1215 | Finds the first eligible node blocked by capacity, or proves there is none. |
| `ElasticExecutor.ProvisionsLogged` | src/a_conductor/elastic_worker_capacity.py:649-661 | The provision calls one executor has made are among those the run has logged, each as often. |
| `RunIdentity.ParseOfPrint` | src/a_conductor/delegated_run_artifacts.py:112-177 | Parsing a printed run id gives the run. |
| `RunIdentity.PrintOfParse` | src/a_conductor/delegated_run_artifacts.py:135-177 | Printing a parsed run id gives the text back. |
| `AttemptDirs.ParseDirOf` | src/a_conductor/delegated_run_artifacts.py:302-374 | The directory name of a run parses to exactly its attempt and random id, as a canonical name. |
| `RunAnswers.NameParses` | src/a_conductor/delegated_run_artifacts.py:338-374 | Every directory name of the grammar, plain and of any suffix length from 8 to 64, parses to its attempt and suffix. |
| `AttemptDirs.NamesAreUnique` | src/a_conductor/delegated_run_artifacts.py:338-374 | No two recognized names share attempt and suffix. |
| `AttemptDirs.DirsAreUnique` | src/a_conductor/delegated_run_artifacts.py:302-311 | Two runs share a directory exactly when they share attempt and random id. |
| `AttemptDirs.Enumerate` | src/a_conductor/delegated_run_artifacts.py:389-423 | The census loop lists the recognized directories of the listing. |
| `AttemptDirs.EnumerationIgnoresOrder` | src/a_conductor/delegated_run_artifacts.py:389-423 | The census does not depend on the order in which the directory is listed. |
| `AttemptDirs.RecordsOrdered` | src/a_conductor/delegated_run_artifacts.py:420-423 | The census is strictly ordered and holds exactly the recognized directories. |
| `RunRecovery.CollectValues` | src/a_conductor/delegated_run_artifacts.py:451-454 | The loop collects exactly the run ids of the pointer lines. |
| `RunRecovery.RecoversItsRun` | src/a_conductor/delegated_run_artifacts.py:484-517 | Recovery from a directory and pointer written for a run returns that run. |
| `RunRecovery.PointerLine` | src/a_conductor/delegated_run_artifacts.py:78-81 | A pointer line written for a run carries exactly its id. |
| `RunRecovery.DocumentRecovers` | src/a_conductor/delegated_run_artifacts.py:426-517 | A document with that line that mentions the field nowhere else, alone or beside an execution record of the same id, recovers the run from its own directory. |
| `RunRecovery.RecoveredIsBound` | src/a_conductor/delegated_run_artifacts.py:484-517 | A canonical answer is what the evidence carries, with the directory's attempt; a canonical directory name is exactly that run's. |
| `RunRecovery.LegacyIsBound` | src/a_conductor/delegated_run_artifacts.py:235-299 | A legacy answer keeps the evidence verbatim, is no canonical id, and agrees with the directory in attempt and in any suffix. |
| `RunRecovery.OneDirectoryOneRun` | src/a_conductor/delegated_run_artifacts.py:493-517 | One canonical directory never yields two canonical runs that differ in attempt or random id. |
| `RunAnswers.LegacyRecovers` | src/a_conductor/delegated_run_artifacts.py:235-299 | Evidence of one legacy alias that is no canonical id is recovered from every directory of its attempt that is plain or carries its suffix, and is a mismatch for every other. |
| `RunAnswers.CanonicalRecovers` | src/a_conductor/delegated_run_artifacts.py:484-517 | Evidence of one canonical run is recovered from every directory of its attempt but those of another canonical suffix. |
| `RunAnswers.AliasParses` | src/a_conductor/delegated_run_artifacts.py:235-299 | Every alias of the legacy grammar is read verbatim, with the attempt and suffix it ends with. |
| `RunAnswers.ParsedAlias` | src/a_conductor/delegated_run_artifacts.py:235-299 | And nothing else is. |
| `RunAnswers.PointerAnswers` | src/a_conductor/delegated_run_artifacts.py:426-481 | Pointer evidence is read if and only if it is readable and carries exactly one run id of the grammar; each refusal is true of the evidence. |
| `Thresholds.SelectChoiceThreshold` | scripts/jev_confidence_cascade.py:241-262 | A feasible threshold has no false automatic decision and as many decisions as any threshold without one; infeasible means no threshold decides anything without an error. |
| `Thresholds.SelectNoulMargin` | scripts/jev_confidence_cascade.py:271-316 | The widest grid margin among those with the most decisions and no false one; infeasible exactly when a usable answer outside [0, 1] is wrong. |
| `Thresholds.AnswersInRangeAreFeasible` | scripts/jev_confidence_cascade.py:305-316 | For answers in [0, 1] the infeasible branch is dead. |
| `Thresholds.WiderDecidesLess` | scripts/jev_confidence_cascade.py:265-289 | A wider band decides no more, rightly or wrongly. |
| `Thresholds.Stats` | scripts/jev_confidence_cascade.py:229-238 | Counts of automatic and of false automatic decisions at a threshold. |

## Left out

- Constructor validation of identifiers, digests, commit ids and statuses as such: values are taken after it, and where a theorem needs what it enforces it says so.
- Exceptions of foreign objects (hostile properties, wrong Python types): the gateway's and the wire's typed answers to them are not distinguished from failing calls.
- UTF-8 decoding: file bytes are the text they decode to, or bytes that are not UTF-8; the wire's evidence likewise.
- JSON reading limits: Python's integer digit limit and recursion depth. When a text both repeats a key and is malformed later, the model reports whichever comes first.
- Reasons and detail texts of wire outcomes, gateway denials and policy refusals beyond their codes.
- SQLite internals: schema reconciliation, corrupt rows, sequence numbers, event tables other than receipts.
- File modes beyond their equality, symbolic links and junctions of the secret target: the path checks are one call that may refuse.
- SecretWriter.Writer.MakeTemp: a failing creation of a temporary leaves no file, because the name is not known to the caller.
- DexOrchestrator.AdmissionReceiptWire.AcquireLock: waiting ends with the lock free, which its holder can always bring about (`DexAttempts.LockIsGiven`); that the holder is eventually scheduled is not modelled.
- A crash of its own process in the middle of a `DexOrchestrator` or `ElasticExecutor` call, which then returns nothing: crashes are events of `DexWire` and `ElasticCapacity`, and the theorems over runs cover them.
- Recovery of several connectors at once: the model has one connector, and steps of one connector are serialised as `desktop_control.py:1141-1162` does it.
- Recovery without the history writer: snapshots are then saved without events and nothing can be replayed.
- The order of findings inside a continuity verdict: findings are a set, the actions are in precedence order.
- Continuity finding details of job states other than ended and recovering ones: the live states are one.
- ProjectionFold.FoldAdapter.Apply: lease health, ownership, worktree, head and scope denials are one refusal without effect; only the gate's own denials are told apart.
- The reconciliation record's own validation in the fold.
- `expand`, the compatibility path that leases a provisioned worker instead of executing a plan: from the ready worker on it has the shape of `ElasticExecutor.Executor.RunOn`.
- Provider authority checks and the batch executor in the elastic pass: answers that may be anything.
- `Thresholds.SelectChoiceThreshold`: does not model the rounding of the midpoint between two adjacent floating-point numbers, which the source turns into an infeasible result.
- Held-out corpus loading and the family report of the cascade script.
- JSON and UTF-8 decoding of the two files of pointer evidence: recovery takes the decoded value and the lines.
- Canonical root digests, Windows final paths, user interface, installers, process plumbing and the decision tables of the guard scripts.
