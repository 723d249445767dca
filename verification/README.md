# Verified model of the dispatch, calibration and data services

This project models, in Dafny, the parts of the system whose correctness cannot be read off one function, and proves what
they are for.

* **Voice dispatch** (`Dispatch*.dfy`, `Case*.dfy`). A confirmed incident becomes a case that calls a primary contact, the
  same contact again, and a supervisor. Workers, provider callbacks, operators, expired claims and exhausted queues race on
  one case.
  - `DispatchStore` holds the repository's operations as atomic functions; `DispatchRepository` is the repository as an
    object whose fields they update, proved to do the same.
  - `DispatchCoordinator` breaks every coordinator method into step programs: one action per repository or provider call.
    Anything may happen between two actions. `DispatchService` is the same methods as code over the repository object,
    proved to end, alone, as their step programs do; every action draws its own clock reading, identifiers and answers.
  - `CaseAutomaton` is the sequential meaning: one case file and nine kinds of atomic move. `DispatchRefinement`,
    `DispatchActions` and `DispatchSystem` prove that every interleaving only ever performs such moves. A run records from
    what its environment answered, not from what a method makes of it, which calls may have reached the provider, which
    cancellations the provider accepted and which contacts the directory gave.
  - `CaseHistory`, `CaseBudget`, `DispatchCalls`, `DispatchLog`, `DispatchCancel`, `DispatchAuthorization`,
    `DispatchLiterals` and `DispatchBudget` are the invariants, `DispatchRuns` puts them together for whole runs, and
    `DispatchTheorems` states the guarantees.
  - `RepositoryOutcomes` states the guards and the effect of every repository operation field by field. `DispatchAlone` is
    what a method does without interference; `DispatchOutcomes`, `CallbackOutcomes` and `OperatorOutcomes` say, as tables
    over records and inputs, what every method then leaves and answers.
  - `DispatchExamples` puts runs together method by method, and `DispatchWitnesses` gives the runs that show how sharp the
    guarantees are.
* **Calibration** (`Calibration.dfy`): pooling adjacent violators over real numbers is isotonic least squares.
* **Ingestion** (`Ingestion.dfy`, `IngestionRuns.dfy`): resumable replay has one outcome under every crash schedule.
* **Idempotent mutations** (`Idempotency.dfy`): the durable reservation excludes mutually and refines the simple store.
* **Rate limits** (`SlidingWindow.dfy`, `BucketLimiter.dfy`): what each limiter admits in any window.
* **Splits and folds** (`Split.dfy`) and **feature tables** (`Features.dfy`): nothing later leaks into anything earlier.

Assumptions made explicit in the model: SHA-256 digests identify what they digest (free constructors), and a text that
starts with `sha256:` is either such a digest or matches nothing; the provider's contract in
`src/data/dispatch/twilio.py:132-142` holds, so that an ordinary dispatch error means that no call was submitted;
identifiers and tokens drawn by a method are arbitrary, not assumed fresh, and clocks may jump, except where a row below
says otherwise.

Places where the code falls short of what one might expect, each with its exact condition and an input or a run:

* A late key-press can leave a later attempt open in a closed case: `KeyPressEndsAll`, `KeyPressLeavesOpen`,
  `ClosedCallsAnswered`.
* The version of a case can exceed 29 plus two per provider failure, by one for every call whose first status callback
  brings a text that starts with `sha256:`. The call is then bound to that text and the callback is logged under it; later
  callbacks must bring the text it is a digest of, and log every progress word again under keys of their own:
  `VersionBound`, `BoundAttained`.
* A store that stays down for all retries of an insert loses a valid event: `OutageHarms`, `OutageLosesEvent`.
* An idempotency key stays reserved for good when a caller is killed after its reservation, or ended by what
  `except Exception` does not catch, when the reserving commit takes effect and is reported as failed, and when a release
  is undone: `StuckExactly`, `StuckForever`, `VanishingStrands`, `ReservationStrands`.
* An action can run twice for one idempotency key, though only one caller is ever told that it performed it:
  `ReentryExactly`, `ActsTwice`.
* The sliding window's truncated `Retry-After` can be too short: `RetrySuffices`, `HintTooShort`.
* A fitted calibrator may not predict its own training rows at ties: `PredictsExactly`, `TieIsSplit`.
* The training and validation rows of a split cannot always be split again, as `src/models/pipeline.py:514-518` does:
  `ResplitExactly`, `ExplicitResplitFails`.

To check everything: `dafny verify dfyconfig.toml`.

## Model

| member | source | states |
|---|---|---|
| DispatchTheorems.RunsAreSerial | src/data/dispatch/repository.py:289-620 | Optimistic concurrency is sound: after any interleaving of any number of running methods, every stored case is what a sequence of enabled atomic moves, each reading the file it changes, makes of a newly authorized case. |
| DispatchSystem.ActChanges | src/data/dispatch/service.py:607-749 | A read-compute-apply method that has read at any earlier moments either changes nothing or performs exactly its intended move on the current file, even where case and attempts were read in two steps. |
| DispatchRuns.RunFollows | src/data/dispatch/repository.py:354-372 | Between any two moments of one run versions and logs only grow, equal versions mean equal case, attempts and submissions, a reference once set is never changed, and logged keys stay logged. |
| DispatchRuns.Reached | src/data/dispatch/repository.py:167-181 | Every run from the empty repository, whatever is started and scheduled, reaches only states that satisfy the whole invariant. |
| DispatchTheorems.CallsBounded | src/data/dispatch/service.py:295-349 | Over every run each attempt has at most one call that may have reached the provider, so a case has at most its number of attempts, and that is at most three. |
| DispatchTheorems.PendingOnlyByRefusal | src/data/dispatch/repository.py:417-427 | The only action that makes a submission pending again is recording a definite refusal for that very attempt, and then no call of it can have reached the provider. |
| DispatchTheorems.LadderOfRun | src/data/dispatch/repository.py:245-304 | In every reachable state attempts are numbered 1..n with n = attempt_count <= 3, roles are primary, primary, supervisor, all but the last have ended, and the status of an open case is a function of its attempts (retry scheduled iff one attempt and it is unacknowledged, and so on). |
| DispatchTheorems.ReservationsWait | src/data/dispatch/repository.py:254-258 | No action ever adds an attempt unless the case is open, every earlier attempt ended unacknowledged, and the full retry delay has passed since the last one completed. |
| DispatchTheorems.ClosedOverRuns | src/data/dispatch/service.py:372-386 | Acknowledged, manual-follow-up and canceled cases never change again in a run; an exhausted case changes only into an acknowledged or manual-follow-up one. |
| CaseHistory.ClosedForGood | src/data/dispatch/service.py:489-534 | A closed case is changed by no move but a key-press on an exhausted case, which acknowledges it or hands it to a person. |
| CaseHistory.ExhaustKeepsSubmissions | src/data/dispatch/service.py:727-743 | Exhaustion hands the case and its open attempt to a person and leaves every submission as it was, a claimed one claimed. |
| DispatchTheorems.KeyPressEndsAll | src/data/dispatch/service.py:508-534 | A key-press closes the case; it leaves every attempt ended exactly when every attempt but the pressed one had ended. |
| DispatchWitnesses.KeyPressLeavesOpen | src/data/dispatch/service.py:508-534 | A run in which a key-press on the first call acknowledges the case while its second attempt is open and its call claimed. |
| DispatchTheorems.ClosedCallsAnswered | src/data/dispatch/service.py:489-534 | In every run the last attempt of a closed case is open only if an earlier attempt ended acknowledged or handed to a person. |
| DispatchTheorems.VersionBound | src/data/dispatch/service.py:351-444 | Whatever callbacks arrive and however often, the version of a case never exceeds 29, plus two per recorded provider failure, plus one per call that logged a progress status under the very text `sha256:...` it was bound with; only calls bound to such a text can be among these. |
| DispatchWitnesses.BoundAttained | src/data/dispatch/service.py:271-444 | However often the placements of the three calls of a case are refused, and whichever of them are bound under such a text, a run exists that reaches exactly this bound: two versions for every refusal, one for every such call. |
| DispatchLiterals.RunLiterals | src/data/dispatch/repository.py:429-503 | At any moment at most one running method, the one that bound the call, carries the literal text a call is bound to, and none once a progress status was logged under it. |
| DispatchLiterals.SpeaksFirst | src/data/dispatch/service.py:944-963 | Whoever is about to log a progress status under the literal text a call is bound to is the first to do so. |
| CaseBudget.MoveBudget | src/data/dispatch/service.py:759-803 | Every move keeps version plus budget within the bound, every move but a remark raises the version by one, and every such move strictly lowers the budget unless it records a provider failure or is the first progress status of a call under its literal text. |
| DispatchTheorems.BindingRace | src/data/dispatch/service.py:928-963 | Once an attempt is bound, by an early callback or by the return of the provider call, reference and submitted state stay for the rest of the run, and every later holder of a reference is let through iff it matches, changing nothing. |
| DispatchTheorems.CallInitiatedOnce | src/data/dispatch/repository.py:429-503 | An attempt is bound iff exactly one call-initiated event for it exists in the logs. |
| DispatchTheorems.KeysOfRun | src/data/dispatch/repository.py:657-659 | The deduplication set is exactly the keys of the event logs and no key is logged twice. |
| DispatchTheorems.RedeliveryOverRuns | src/data/dispatch/service.py:367-444 | Once the attempt of a token is bound and a callback key for it is logged, no step of any later handling of that callback changes a case, an attempt, a submission or a log, whatever else happens in between. |
| DispatchLog.HandledIsLogged | src/data/dispatch/service.py:388-444 | A status, gather or answering-machine handler that ends without error has its key in the log, so a retry of it is a redelivery. |
| DispatchTheorems.CancellationSafety | src/data/dispatch/service.py:607-676 | A canceled case has no claimed submission, for every attempt it canceled that had a reference the provider had agreed to cancel that very call before, and none of this changes for the rest of the run. |
| DispatchTheorems.AuthorizedOnce | src/data/dispatch/service.py:160-235 | Two cases ever seen for one tenant and idempotency key are the same case, created from a confirmed and explicitly authorized incident, its primary and supervisor contact those the directory gave for it; identity and fingerprint never change. |
| DispatchTheorems.AuthorizationReplays | src/data/dispatch/service.py:187-194 | Once a case exists for a tenant and key, no authorization with that key creates another; it answers with that case or fails, and fails whenever its fingerprint differs. |
| DispatchAuthorization.AuthorizeAnswer | src/data/dispatch/service.py:229-235 | Every authorization that answers returns the registered case of its scope and has the same fingerprint; a fingerprint conflict means the registered case has another one. |
| CaseAutomaton.MoveLadder | src/data/dispatch/models.py:343-432 | Every move keeps the ladder: rungs, roles and contacts, one open attempt, submission states that fit attempt states, the retry delay, and the terminal-state rules of the record. |
| CaseAutomaton.KeyPressLadder | src/data/dispatch/service.py:482-534 | A key-press on any bound attempt of a case that is not absorbing closes the case and keeps the ladder. |
| CaseAutomaton.UnacknowledgedLadder | src/data/dispatch/service.py:864-906 | Ending a call unacknowledged schedules the retry after the first, the supervisor after the second and closes the case after the third attempt. |
| CaseAutomaton.ProgressLadder | src/data/dispatch/service.py:400-427 | A progress status moves attempt and case together and keeps the ladder. |
| CaseAutomaton.NewFileLadder | src/data/dispatch/service.py:199-223 | A newly authorized case is the foot of the ladder. |
| CaseAutomaton.OpenCase | src/data/dispatch/repository.py:239-252 | In an open case only the last attempt can be open and all others ended unacknowledged. |
| CaseAutomaton.ClaimedIsLast | src/data/dispatch/repository.py:328-349 | In an open case a claimed submission belongs to the last attempt, which still awaits the provider. |
| CaseHistory.MoveEvolves | src/data/dispatch/repository.py:401-412 | Every move raises the case version when it changes case, attempt or submission, keeps identities, writes references once and only appends to the log. |
| DispatchCancel.CanceledUnclaimed | src/data/dispatch/repository.py:571-586 | No submission of a canceled case is claimed. |
| DispatchCancel.ChangesTold | src/data/dispatch/service.py:641-656 | An effective cancellation ends the attempt the operator read, so the call that the provider agreed to cancel is the call of that attempt. |
| DispatchCalls.RunCalls | src/data/dispatch/service.py:257-349 | Every action keeps the call count: a pending attempt was never dialed, nobody is dialed twice, and an unsent claim is held by one method only. |
| DispatchLog.RedeliveryInert | src/data/dispatch/repository.py:622-638 | Resolving, binding or applying a callback whose key is logged leaves the repository as it is. |
| DispatchLog.ChangesLog | src/data/dispatch/repository.py:399-400 | Every change keeps the deduplication set equal to the logged keys, each logged once, with a call-initiated key exactly for bound attempts. |
| DispatchRefinement.EnactsSound | src/data/dispatch/repository.py:183-204 | A move keeps the indexes consistent (every attempt and token leads to its own case and position) and every file on the ladder. |
| DispatchActions.ActMoves | src/data/dispatch/service.py:237-349 | Each writing action of each method leaves the store alone or enacts exactly the move it intends. |
| DispatchActions.ActKnows | src/data/dispatch/service.py:928-963 | What a method has learnt and checked stays true of the store under everything others do. |
| DispatchRuns.StepInvariant | src/data/dispatch/service.py:129-158 | Every step of every interleaving, a start or one action of one method, keeps the whole invariant. |
| DispatchStore.LastOpen | src/data/dispatch/repository.py:245-252 | The position of the last attempt that has not ended, with everything after it ended. |
| DispatchOutcomes.StaleExactly | src/data/dispatch/repository.py:331-337 | The claim of an open case whose submission is claimed is answered as stale iff its deadline has come. |
| DispatchOutcomes.ClaimedOutcome | src/data/dispatch/service.py:275-298 | A dispatch alone that finds the call of an open case claimed: once the deadline has come the case goes to manual follow-up, the submission is uncertain and the answer empty; before, it is told to come back and nothing changes. |
| DispatchOutcomes.PendingOutcome | src/data/dispatch/service.py:272-316 | A dispatch of a pending call, its contact ready: before its time it is told to come back and nothing changes; otherwise the claim is stored with token digest, time and deadline and the call is placed. |
| DispatchOutcomes.OvertakenOutcome | src/data/dispatch/service.py:284-305 | A dispatch that finds the call submitted or the case closed when it comes to claim it changes nothing and answers with the call only if that is in progress. |
| DispatchOutcomes.UnreadyOutcome | src/data/dispatch/service.py:272-274 | A contact that is not available keeps the call from being claimed and changes nothing. |
| DispatchOutcomes.RefusedOutcome | src/data/dispatch/service.py:326-334 | A refusal of the provider leaves case and attempt waiting for the provider, due at once and with the code, and the submission fresh. |
| DispatchOutcomes.UnsureOutcome | src/data/dispatch/service.py:317-325 | An uncertain answer of the provider hands the case to a person with the submission uncertain. |
| DispatchOutcomes.PlacedOutcome | src/data/dispatch/service.py:345-349 | A call that is taken is bound to the reference given, the attempt initiated, the submission submitted, and answered with. |
| DispatchOutcomes.ReserveOutcome | src/data/dispatch/service.py:241-259 | Between two attempts: before the due time, or with identifiers in use, nothing changes; otherwise the next attempt is reserved with its sequence, role, contact and token and the dispatch goes on with it. |
| DispatchOutcomes.FindOutcome | src/data/dispatch/service.py:259-271 | A dispatch goes on with an open attempt that waits for the provider. |
| DispatchOutcomes.TalkingOutcome | src/data/dispatch/service.py:260-265 | A call in progress is answered with and nothing changes. |
| DispatchOutcomes.AbsentOutcome | src/data/dispatch/service.py:238-240 | A missing case is not found, a closed one answered with nothing. |
| CallbackOutcomes.StatusOutcome | src/data/dispatch/service.py:351-444 | What every provider word leaves of a bound call, field by field: over, it is only logged; an ending word ends the attempt with its own outcome and schedules retry, supervisor or exhaustion by its number; a progress word takes it to its status; logged before, nothing. |
| CallbackOutcomes.GatherOutcome | src/data/dispatch/service.py:446-535 | Key 1 acknowledges and key 2 hands over case and attempt unless the case is settled; any other key, and every key of a settled case, is only logged; logged before, nothing. |
| CallbackOutcomes.MachineOutcome | src/data/dispatch/service.py:537-605 | A person, and any result after the call, is only logged; every other result ends the attempt unacknowledged and schedules retry, supervisor or exhaustion by its number; logged before, nothing. |
| CallbackOutcomes.ReadingOutcome | src/data/dispatch/service.py:751-757 | The voice script is given for an open case only, and changes nothing. |
| CallbackOutcomes.FoundOutcome | src/data/dispatch/service.py:928-963 | A callback for a bound call is handled iff it brings the stored text or the text whose digest is stored; any other is refused without effect. |
| CallbackOutcomes.FirstOutcome | src/data/dispatch/repository.py:429-503 | The first callback of a claimed call in an open case binds attempt, case and submission to its reference and is then handled; in a closed case or without a claim it is refused without effect. |
| CallbackOutcomes.UnknownOutcome | src/data/dispatch/repository.py:446-451 | Unknown tokens are not found and blank references never match. |
| OperatorOutcomes.CancelBound | src/data/dispatch/service.py:643-676 | Canceling alone an open case whose call is bound to a plain reference ends with the case canceled iff the provider accepted to cancel the call; otherwise nothing changes. |
| OperatorOutcomes.CancelUnbound | src/data/dispatch/service.py:607-676 | Without a call yet, a claimed submission refuses the cancellation; otherwise case and attempt are canceled. |
| OperatorOutcomes.CancelMarked | src/data/dispatch/service.py:644-649 | A call bound to a text that starts with `sha256:` cannot be canceled, nor its case. |
| OperatorOutcomes.CancelIdle | src/data/dispatch/service.py:607-676 | Between two attempts the case alone is canceled. |
| OperatorOutcomes.ExhaustOpen | src/data/dispatch/service.py:678-749 | An exhausted queue hands an open case and its last open attempt to a person, with the code of exhaustion. |
| OperatorOutcomes.ExhaustOvertaken | src/data/dispatch/service.py:690-749 | A pass whose case was changed by somebody else starts over if it was the first and fails if it was the second. |
| OperatorOutcomes.ExhaustIdle | src/data/dispatch/service.py:678-749 | Without an open attempt the case alone is handed to a person. |
| OperatorOutcomes.AuthorizeNew | src/data/dispatch/service.py:187-223 | A new key: without contacts, or with one person in both roles, nothing is authorized; a case identifier in use is a conflict; otherwise the case is stored queued and due, with primary and supervisor as the directory gave them, and answered with. |
| OperatorOutcomes.AuthorizeAgain | src/data/dispatch/service.py:187-194 | A used key changes nothing and answers with its case iff the fingerprint is the same. |
| OperatorOutcomes.AuthorizeRaced | src/data/dispatch/service.py:199-235 | Of two authorizations of one key at a time the later stores nothing and is answered like a repeated one. |
| OperatorOutcomes.AuthorizeRefused | src/data/dispatch/service.py:160-186 | What is not confirmed, not authorized or not well formed changes nothing. |
| RepositoryOutcomes.CreateOutcome | src/data/dispatch/repository.py:183-204 | A scope answers with its first case; another case is stored iff its identifier is unused and the event is its own. |
| RepositoryOutcomes.ReserveAdds | src/data/dispatch/repository.py:230-304 | When all attempts have ended, the next is stored, field by field, iff the case is open and due, has fewer than three, and identifiers and event are fit; otherwise nothing changes. |
| RepositoryOutcomes.ReserveFinds | src/data/dispatch/repository.py:245-252 | The last attempt that has not ended is answered with, whatever the case's status and time. |
| RepositoryOutcomes.ReserveRefuses | src/data/dispatch/repository.py:230-282 | Why a reservation is refused, in the order of the checks. |
| RepositoryOutcomes.ClaimOutcome | src/data/dispatch/repository.py:321-378 | A claim is written iff the submission is pending, the attempt waits for the provider and the case is open and due; a claimed submission is stale iff its deadline has come; everything else changes nothing. |
| RepositoryOutcomes.ClaimRefuses | src/data/dispatch/repository.py:315-327 | A claim without token, future deadline, case or attempt of the case is refused. |
| RepositoryOutcomes.FinishOutcome | src/data/dispatch/repository.py:380-427 | A submission is finished iff it is claimed under the very token given, both versions are those read, and the records fit the outcome; otherwise nothing changes. |
| RepositoryOutcomes.ExpireOutcome | src/data/dispatch/repository.py:505-544 | A claim expires iff its deadline has come, both versions are those read and the records fit; otherwise nothing changes. |
| RepositoryOutcomes.ApplyOutcome | src/data/dispatch/repository.py:546-597 | Case and attempt are replaced iff both versions are those read, a cancellation meets no submission in flight, and attempt and event are the case's own; otherwise nothing changes. |
| RepositoryOutcomes.ApplyCaseOutcome | src/data/dispatch/repository.py:599-620 | A case is replaced iff its version is the one read and the event its own. |
| RepositoryOutcomes.AppendOutcome | src/data/dispatch/repository.py:622-638 | An event is appended iff its key is new and case and attempt are those it names. |
| RepositoryOutcomes.RepeatedOutcome | src/data/dispatch/repository.py:391-400 | For a missing case or attempt, or an event logged before, no conditional write changes anything. |
| RepositoryOutcomes.BoundOutcome | src/data/dispatch/repository.py:429-466 | A bound call answers iff the reference fits and never changes. |
| RepositoryOutcomes.BindOutcome | src/data/dispatch/repository.py:466-503 | An unbound call is bound, field by field, iff its case is open, its submission claimed and the event new and its own. |
| RepositoryOutcomes.ReadOutcome | src/data/dispatch/repository.py:206-228 | What the reading operations answer for every repository. |
| DispatchRepository.InMemoryDispatchRepository.constructor | src/data/dispatch/repository.py:170-181 | The repository starts empty. |
| DispatchRepository.InMemoryDispatchRepository.Save | src/data/dispatch/repository.py:657-659 | Writes one case file and remembers its event key, and nothing else. |
| DispatchRepository.InMemoryDispatchRepository.CreateCase | src/data/dispatch/repository.py:183-204 | Returns the existing case of the scope, or stores the new one with its scope, log and key, or fails without effect. |
| DispatchRepository.InMemoryDispatchRepository.FindByIdempotency | src/data/dispatch/repository.py:206-211 | Finds the case of a tenant and key. |
| DispatchRepository.InMemoryDispatchRepository.GetCase | src/data/dispatch/repository.py:213-218 | Finds a case or reports it missing. |
| DispatchRepository.InMemoryDispatchRepository.ListAttempts | src/data/dispatch/repository.py:220-228 | Lists the attempts in order of reservation. |
| DispatchRepository.InMemoryDispatchRepository.FindLastOpen | src/data/dispatch/repository.py:245-252 | Computes the last open attempt by one pass. |
| DispatchRepository.InMemoryDispatchRepository.ReserveNextAttempt | src/data/dispatch/repository.py:230-304 | Returns the open attempt, or reserves the next one with role, contact, indexes and event, or fails without effect, in the order of checks of the code. |
| DispatchRepository.InMemoryDispatchRepository.ClaimProviderSubmission | src/data/dispatch/repository.py:306-378 | Does what `RepositoryOutcomes.ClaimOutcome` and `ClaimRefuses` say of the claim. |
| DispatchRepository.InMemoryDispatchRepository.FinishProviderSubmission | src/data/dispatch/repository.py:380-427 | Finishes a claimed submission under the claim token and both expected versions, or changes nothing. |
| DispatchRepository.InMemoryDispatchRepository.BindProviderCallback | src/data/dispatch/repository.py:429-503 | Binds the first reference to a claimed submission; a bound attempt answers by comparison only. |
| DispatchRepository.InMemoryDispatchRepository.ExpireProviderSubmission | src/data/dispatch/repository.py:505-544 | Marks an overdue claim uncertain under both expected versions, or changes nothing. |
| DispatchRepository.InMemoryDispatchRepository.ApplyTransition | src/data/dispatch/repository.py:546-597 | Replaces case and attempt and logs the event iff versions match, the key is new and no cancellation meets a call in flight. |
| DispatchRepository.InMemoryDispatchRepository.ApplyCaseTransition | src/data/dispatch/repository.py:599-620 | Replaces the case and logs the event iff the version matches and the key is new. |
| DispatchRepository.InMemoryDispatchRepository.AppendEvent | src/data/dispatch/repository.py:622-638 | Logs an event whose key is new and which fits its case and attempt. |
| DispatchRepository.InMemoryDispatchRepository.ResolveCallback | src/data/dispatch/repository.py:640-648 | Leads a callback token to its attempt and case. |
| DispatchService.DispatchService.Authorize | src/data/dispatch/service.py:160-235 | Alone, leaves and answers what the authorization program comes to (`AuthorizeNew`, `AuthorizeAgain`, `AuthorizeRefused`). |
| DispatchService.DispatchService.DispatchNext | src/data/dispatch/service.py:237-349 | Alone and from a sound repository, leaves and answers what the dispatch program comes to, which the rows of `DispatchOutcomes` state: reservation, claim, expiry, provider call and its three outcomes. |
| DispatchService.DispatchService.ClaimSubmission | src/data/dispatch/service.py:271-304 | Claims the submission and ends as a dispatch does from there (`ClaimedOutcome`, `PendingOutcome`): by expiring an overdue claim, placing the call or stopping. |
| DispatchService.DispatchService.RecordRefusal | src/data/dispatch/service.py:759-803 | Records a definite refusal: attempt and case wait for the provider again and the submission is fresh. |
| DispatchService.DispatchService.RecordUncertain | src/data/dispatch/service.py:805-862 | Records an uncertain submission under its claim: the case goes to manual follow-up. |
| DispatchService.DispatchService.Expire | src/data/dispatch/service.py:846-855 | Records an expired claim as uncertain. |
| DispatchService.DispatchService.HandleCallback | src/data/dispatch/service.py:928-963 | Alone, resolving, binding and handling a provider callback comes to what its program comes to, which the rows of `CallbackOutcomes` state. |
| DispatchService.DispatchService.ApplyCallback | src/data/dispatch/service.py:446-605 | Applies the decision for a status, key-press or answering-machine result with the versions that were read, as `StatusOutcome`, `GatherOutcome` and `MachineOutcome` state. |
| DispatchService.DispatchService.Cancel | src/data/dispatch/service.py:607-676 | Alone, leaves and answers what the cancellation program comes to (`CancelBound`, `CancelUnbound`, `CancelMarked`, `CancelIdle`), the provider being asked before the case is closed. |
| DispatchService.DispatchService.MarkDeliveryExhausted | src/data/dispatch/service.py:678-749 | Alone, the two-pass loop leaves and answers what the exhaustion program comes to (`ExhaustOpen`, `ExhaustIdle`). |
| DispatchService.DispatchService.FindActive | src/data/dispatch/service.py:624-629 | Finds the last open attempt of a listing. |
| DispatchAlone.EndsOnce | src/data/dispatch/service.py:129-158 | A method that runs alone on a sound repository ends, and has exactly one end, whatever each of its actions draws from clock, identifiers, directory and provider. |
| Calibration.Pool | src/models/calibration.py:34-46 | The pooling loop tiles the sorted rows with blocks whose sums, weights and ends are those of their rows, whose prefixes never fall below their mean and whose means rise; merges and blocks add up to the number of rows. |
| Calibration.PoolingIsOptimal | src/models/calibration.py:34-48 | The fitted steps rise, no nondecreasing sequence has a smaller sum of squared errors to the labels, and every other one has a larger one. |
| Calibration.BlockOptimal | src/models/calibration.py:36-46 | On one block no nondecreasing sequence does better than the block mean. |
| Calibration.PooledCovers | src/models/calibration.py:42-46 | Merging two violating neighbours keeps sums, weights and ends right and every prefix mean at least the block mean. |
| Calibration.Conserved | src/models/calibration.py:42-46 | Pooling conserves total weight and total label sum. |
| Calibration.OrderIsStable | src/models/calibration.py:31-33 | The row order sorts by probability and keeps ties in their original order. |
| Calibration.FitIsCalibrated | src/models/calibration.py:47-48 | Fitted thresholds and values are nondecreasing and lie in the unit interval. |
| Calibration.IsotonicProbabilityCalibrator.Fit | src/models/calibration.py:26-48 | Fitting refuses unaligned or fewer than two rows without changing state; otherwise it leaves, for the rows in stable order of their clipped probability with label 1 where the count is positive and 0 elsewhere, the least-squares steps, and value times weight over the blocks adds up to the number of rows with a positive count. |
| Calibration.FitOfRows | src/models/calibration.py:26-48 | What the stored blocks are in terms of the raw rows: a stable arrangement, its labels, and the nondecreasing sequence of least squared error to them. |
| Calibration.IsotonicProbabilityCalibrator.PredictRows | src/models/calibration.py:50-56 | Predicts row by row, and only when fitted. |
| Calibration.SearchLeft | src/models/calibration.py:54 | The left insertion point: everything before it is smaller, nothing at it is. |
| Calibration.PredictMonotone | src/models/calibration.py:50-56 | Prediction is monotone and stays in the unit interval. |
| Calibration.PredictOutcome | src/models/calibration.py:50-56 | A prediction is the value of the first threshold that reaches the clipped input, or the last value. |
| Calibration.PredictsExactly | src/models/calibration.py:31-56 | However the sorted rows were fitted, predicting them gives back the fitted steps iff no two rows of equal probability stand on either side of a kink of the labels, a place where every stretch of labels before it has a smaller mean than every stretch after it. |
| Calibration.KinkIsRise | src/models/calibration.py:34-46 | The labels have a kink at a row iff a block begins there whose value is above that of the block before. |
| Calibration.PredictsTraining | src/models/calibration.py:50-56 | Predicting the training rows gives back the fitted steps iff no tie of probabilities is split between blocks of different value. |
| Calibration.RisingTie | src/models/calibration.py:42-56 | Labels that rise at a tie of equal probabilities: however they are fitted, the training rows are not predicted back. |
| Calibration.TieIsSplit | src/models/calibration.py:42-56 | Two rows of probability one half with labels 0 and 1 are fitted as two blocks and not predicted back. |
| Calibration.RoundTrip | src/models/calibration.py:58-94 | Restoring what was stored returns exactly the same thresholds and values iff they are usable, for any version function. |
| Calibration.RestoredIsCalibrated | src/models/calibration.py:70-94 | Nothing but a usable calibrator is ever restored. |
| Calibration.RestoreOutcome | src/models/calibration.py:70-94 | Contents are restored iff the method is the one known, they are usable and the declared version, if any, is theirs; and for which reason they are refused otherwise. |
| Calibration.IsotonicProbabilityCalibrator.Store | src/models/calibration.py:58-67 | What a usable calibrator stores is accepted and restores it. |
| IngestionRuns.CrashResume | src/data/service.py:98-198 | However often runs were killed between two store operations, a run that completes leaves the accepted events and the set of quarantined lines of one uninterrupted pass, the checkpoint at the end, and other checkpoints alone. |
| IngestionRuns.FromTheStart | src/data/service.py:110-113 | A source without a checkpoint is read from its first line, one with a checkpoint from the line after it, under every crash schedule that completes. |
| IngestionRuns.SchedulesAgree | src/data/service.py:98-198 | Any two crash schedules of one file that complete leave the same accepted events and quarantined lines. |
| IngestionRuns.CompletedCounts | src/data/service.py:112-187 | Accepted, duplicate and rejected lines of a completed run add up to the lines between its starting checkpoint and its end. |
| IngestionRuns.StepSound | src/data/adapters/replay.py:37-79 | Every store operation and every kill keeps the tables at the committed lines or one line further. |
| IngestionRuns.OutageHarms | src/data/service.py:84-96 | A run that completes, with any kills and outages, leaves what one uninterrupted pass leaves iff no outage met a valid line that the worker then lived to quarantine. |
| IngestionRuns.OutageLosesEvent | src/data/service.py:84-96 | The shortest such run: a store that stays down for all retries of one insert makes a valid event be quarantined and passed over for good. |
| Ingestion.HarmlessExactly | src/data/service.py:84-172 | With the store down at any set of lines, the ledger is what the file means iff none of these lines is valid. |
| IngestionRuns.CountsAddUp | src/data/service.py:112-187 | Every line after the starting checkpoint is counted once, and the accepted counter is the growth of the event table. |
| Ingestion.FirstWins | src/data/store.py:280-328 | The first valid record of an id is the accepted one; a later one has its content in the table iff the id was free or held the same content. |
| Ingestion.RejectedExactly | src/data/service.py:125-172 | A line is quarantined iff it is invalid or differs from the accepted event of its id, judged by the final table alone. |
| Ingestion.AcceptedStays | src/data/store.py:280-328 | An accepted event is never changed or removed. |
| Ingestion.ProcessTwice | src/data/store.py:280-328 | Processing a line again changes nothing. |
| Ingestion.Judge | src/data/service.py:53-82 | A line becomes an event of its own source or one of the listed rejection reasons. |
| Ingestion.JudgeOutcome | src/data/service.py:53-82 | A record is refused for its first fault in the order of the checks; without one it yields the event of its own tenant, source, id, moments and category with exactly the allowed attributes, if the contract admits it. |
| Ingestion.DifferentDoNotMeet | src/data/store.py:280-328 | Events of different tenants, sources or ids do not change what becomes of each other. |
| IngestionRuns.IngestionService.IngestReplay | src/data/service.py:98-198 | The loop from the stored checkpoint to the end of the file leaves the ledger and the counters that its lines make one by one, under any outages; that is what the file means iff the store never stays down at a valid line; and it moves the checkpoint to the end. |
| IngestionRuns.IngestionService.IngestLine | src/data/service.py:123-172 | One line: judge, insert or quarantine, count as accepted, duplicate or rejected, commit. |
| IngestionRuns.IngestionService.InsertWithRetry | src/data/service.py:84-96 | Fewer outages than attempts give the answer of one insert; as many or more give unavailable and no change. |
| IngestionRuns.IngestionStore.InsertEvent | src/data/store.py:280-328 | Inserts a new id, reports a repeat of the same content, and refuses other content. |
| IngestionRuns.IngestionStore.Quarantine | src/data/store.py:330-361 | Appends one quarantine row. |
| IngestionRuns.IngestionStore.SetCheckpoint | src/data/store.py:267-278 | Moves one source's checkpoint. |
| Idempotency.MutualExclusion | src/api/state.py:222-266 | At most one caller is inside the action for an identity, and the running record carries its token. |
| Idempotency.OwnershipNeverLost | src/api/state.py:257-270 | No caller ever finds its reservation lost. |
| Idempotency.CompletedForever | src/api/state.py:257-278 | A completed record is never changed or deleted in a run. |
| Idempotency.LaterCallsReplay | src/api/state.py:239-255 | After completion every later call with the same payload gets the stored result, any other payload a conflict, and nobody runs the action, whatever its own commit does. |
| Idempotency.PerformedOnce | src/api/state.py:257-270 | Two callers that were both told that they performed the action for one identity are the same caller. |
| Idempotency.ReentryExactly | src/api/state.py:222-278 | A caller with a new, committed reservation enters the action for an identity that was reserved before iff the owner released its running record since then and nobody reserved it after that. |
| Idempotency.EnteredTwice | src/api/state.py:222-278 | Between any two entries of one identity's action the release of its running record by its owner took effect. |
| Idempotency.ActsTwice | src/api/state.py:257-278 | A run in which the action of one identity returns twice: the first completing transaction is undone and the release takes effect. |
| Idempotency.StepKeeps | src/api/state.py:205-278 | Every transaction, however it commits, and every caller that vanishes keep: holders own running records, and the owner of a running record holds it, vanished or ended with a store failure. |
| Idempotency.StuckExactly | src/api/state.py:222-278 | A record runs on without anybody holding it iff its reserving commit took effect and was reported as failed, the release of it was undone, or its owner vanished, killed or ended by what is not an ordinary exception. |
| Idempotency.RunningHeld | src/api/state.py:222-278 | As long as none of these happened, every running record has a living holder. |
| Idempotency.StuckForever | src/api/state.py:222-278 | A stuck record stays as it is for the rest of the run. |
| Idempotency.StuckRefuses | src/api/state.py:239-255 | Every later call for a stuck identity is refused, as in progress or as a conflict, and never runs the action. |
| Idempotency.ReservationStrands | src/api/state.py:222-238 | One call whose reserving commit takes effect and is reported as failed strands its record. |
| Idempotency.VanishingStrands | src/api/state.py:257-278 | One call that vanishes right after its reservation strands its record. |
| Idempotency.AloneIsSimple | src/api/state.py:89-123 | Without concurrency and failing commits the durable store answers what the simple store answers and keeps what it would keep of the encoded result; it keeps the same iff a newly stored result survives its encoding. |
| Idempotency.SecondCall | src/api/state.py:99-123 | A second request meets the first only when tenant, operation and key are all the same: it gets the first result, or a conflict for another payload, without running its action; any other is answered as if the first had not been made. |
| Idempotency.FirstCall | src/api/state.py:119-123 | The first request of its identity is answered as its action ends; an action that raises leaves nothing. |
| Idempotency.KeyRefused | src/api/state.py:98-105 | Exactly the keys that are missing or not of 8 to 200 characters are refused. |
| Idempotency.DifferentDoNotMeet | src/api/state.py:222-278 | No step of a caller touches a record of another tenant, operation or key. |
| Idempotency.ReserveOutcome | src/api/state.py:222-255 | What the record of a request's own tenant, operation and key decides: act, replay, in progress or conflict. |
| Idempotency.IdempotencyStore.Execute | src/api/state.py:89-123 | The simple store returns the stored result for the same payload, refuses another, and stores only results of actions that return. |
| Idempotency.PostgresIdempotencyStore.ReserveRecord | src/api/state.py:222-255 | The reserving transaction inserts unless present and decides by the record it reads; a failed commit ends the call, with or without effect. |
| Idempotency.PostgresIdempotencyStore.CompleteRecord | src/api/state.py:257-269 | The completing transaction updates its own record only and says whether it updated one and its commit worked. |
| Idempotency.PostgresIdempotencyStore.ReleaseRecord | src/api/state.py:271-278 | The releasing transaction deletes its own running record only and says whether its commit worked. |
| SlidingWindow.DecidesByHistory | src/api/security.py:38-51 | On a clock that does not run backwards the pruned queue decides exactly as filtering the whole history of grants. |
| SlidingWindow.WindowHolds | src/api/security.py:38-51 | Any window (t - W, t], aligned or not, holds at most N grants. |
| SlidingWindow.AllowOutcome | src/api/security.py:38-51 | A request is granted, and its time added, iff fewer than N times lie within the window; the answer and the queue otherwise. |
| SlidingWindow.RetrySuffices | src/api/security.py:45-47 | Waiting the truncated Retry-After is enough iff at most one second or a whole number of seconds was missing. |
| SlidingWindow.HintTooShort | src/api/security.py:45-47 | One request in two seconds: a caller refused half a second after a grant waits the one second it is told and is refused again. |
| SlidingWindow.InMemoryRateLimiter.Allow | src/api/security.py:38-51 | One call prunes, decides and records for its own key only, for any clock reading. |
| BucketLimiter.BucketHolds | src/data/platform_security.py:28-57 | At most N grants per key and aligned bucket. |
| BucketLimiter.GrantedUntilFull | src/data/platform_security.py:28-57 | A request is granted iff its bucket has seen fewer than N grants of its key. |
| BucketLimiter.AllowOutcome | src/data/platform_security.py:28-57 | What one call leaves of any rows: which are swept, which are dropped, what the current bucket counts, and that it is granted iff its live row is missing or below N. |
| BucketLimiter.WindowHoldsTwice | src/data/platform_security.py:28-57 | At most 2N grants per key in any window of length W. |
| BucketLimiter.LiveRowsStay | src/data/platform_security.py:33-41 | Garbage collection never deletes the row of a bucket that is not over. |
| BucketLimiter.RetryReachesLater | src/data/platform_security.py:54-57 | Waiting s whole seconds reaches a later bucket iff s is at least Retry-After. |
| BucketLimiter.PostgresRateLimiter.Allow | src/data/platform_security.py:28-57 | One transaction sweeps sometimes, drops the key's older buckets and counts unless full, for any clock reading. |
| BucketLimiter.BucketBounds | src/data/platform_security.py:30 | A bucket is the half-open interval of one window length around its moment. |
| Split.SplitIsolates | src/models/split.py:25-64 | A successful split deals every row, as often as it occurs, to one block; each block has at least the minimum number of intervals and ends before the next one starts. |
| Split.SplitAgain | src/models/split.py:25-64 | Splitting the concatenation of the three blocks reproduces them. |
| Split.ResplitExactly | src/models/split.py:32-54 | The training and validation rows of a split can be split again iff the cuts come from fractions and the times left hold three minimum blocks with the training share in the first. |
| Split.ExplicitResplitFails | src/models/split.py:32-41 | Under explicit boundaries the training and validation rows alone can never be split again. |
| Split.FoldsIsolate | src/models/split.py:67-87 | Folds are never empty or absent, train before they validate, validate before the test block, have adjacent equally wide windows ending at the last eligible time, and expand. |
| Split.RollingOriginFolds | src/models/split.py:67-87 | The loop over origins computes the folds of the eligible rows, or the split's own error. |
| Split.CutTimes | src/models/split.py:26-54 | Every accepted cut leaves at least the minimum number of intervals on each side, by fractions and by boundaries. |
| Split.FractionCuts | src/models/split.py:42-54 | By fractions training takes the whole part of its share of the intervals, validation of its own as far as the minimum left to the test block allows, each at least the minimum; and which error is raised otherwise. |
| Split.ExplicitCuts | src/models/split.py:32-41 | By boundaries each block ends with its boundary; fewer than the minimum in any block is an error. |
| Split.FoldCount | src/models/split.py:72-87 | There are as many folds, up to the number of origins, as leave the minimum to the training rows before them. |
| Split.FoldPosition | src/models/split.py:72-87 | The window of the j-th last fold is the j-th last stretch of an even share of the eligible times, or of the minimum if that is more. |
| Split.EligibleTimes | src/models/split.py:67-71 | The times before the test block are those of training and validation. |
| Features.PointInTime | src/features/builder.py:157-206 | Two stores with the same multiplicity of every in-domain event that is bucketed before t and was received before t give every row at t the same predictors, whatever else they hold and in whatever order. |
| Features.RowCounts | src/features/builder.py:168-207 | Every number of a row, counted in the store: the label is the number of events of cell and category in the interval; each lag, mean, trend and neighbour predictor is its own arithmetic on the numbers of events that occurred so many intervals back and were received before the row's time. |
| Features.RowsInOrder | src/features/builder.py:151-209 | The rows come interval after interval, category after category, cell after cell. |
| Features.BuildRefuses | src/features/builder.py:139-144 | A configuration is refused iff its range, interval, cells, categories or coverage is unusable, and its alignment iff start or end is no multiple of the interval. |
| Features.RowsAreUnique | src/features/builder.py:151-209 | For duplicate-free cells and categories the table has exactly one row per interval of the range, category and cell, and no other. |
| Features.LabelsConserved | src/features/builder.py:145-149 | The labels of the whole table add up to the number of stored events of the domain and categories whose bucket lies in the range. |
| Features.LagBounded | src/features/builder.py:175-182 | A lag is at most the label of the interval it looks back to. |
| Features.BuildRows | src/features/builder.py:131-211 | The nested loops compute the table whose rows `RowCounts`, `RowsInOrder` and `RowsAreUnique` describe, or refuse as `BuildRefuses` says. |
| Features.CountVisible | src/features/builder.py:159-163 | Counts, for every cell, category and earlier bucket, the events received before t, and nothing for other buckets. |
| Features.CountLabels | src/features/builder.py:145-149 | Counts the events of every cell, category and bucket. |
| Features.FloorInterval | src/features/builder.py:36-41 | The aligned start of the interval that holds a moment. |
| Features.PrepareEvents | src/features/builder.py:108-129 | Keeps every event of the domain and the categories as often as it occurs, and no other. |

## Left out

- AloneIsSimple: is about an identity that is new or completed; one that is reserved and never let go is `StuckRefuses`.
- StuckForever: concerns the records of one run; deleting rows by hand is not modelled.
- DispatchNext: asks for a sound repository, which every reachable one is, because finishing a submission looks an attempt
  up by its own key.
- CrashResume: is about kills between store operations; stores that stay down for all retries are `OutageHarms`.
- DecidesByHistory: asks for a clock that does not run backwards.
- WindowHolds: asks for a clock that does not run backwards.
- RetrySuffices: asks for a clock that does not run backwards, and that nobody else is granted in between.
- BucketHolds: asks for a clock that does not run backwards across all callers of the database.
- WindowHoldsTwice: asks for a clock that does not run backwards across all callers of the database.
- The repository's seven dictionaries are grouped into one file per case (case, attempts with their submissions in order,
  log) plus the attempt, callback and idempotency indexes; listing events is not modelled.
- The methods of the coordinator re-read the case to return it; the model answers without that last read.
- Syntax checks on identifiers, labels, tokens, idempotency keys and error codes are one flag on an authorization request;
  status and result words arrive already normalized.
- Contact directories, calling windows and telephone secrets are answers of the environment.
- The Postgres dispatch adapter, SQL, row-level security, connection pools, queues and worker loops: the scheduler of
  `DispatchSystem` starts and steps methods in any order instead.
- The voice script text, provider SDK, webhooks and signatures.
- Floating-point rounding: calibration, fractions of a split, rates and bucket arithmetic are over real numbers, so NaN and
  infinities do not occur.
- The run rows, source registration and file health checks of ingestion; the tally of a run is returned instead.
- Calendar features of a feature row: they depend on the interval start alone. The H3 neighbourhood is a given function.
- Writing the feature table and its manifest.
- Multi-dimensional inputs to the calibrator.
- The Newton, boosting, bootstrap and metric code of the models, the registry, the video pipeline, the web client.
