/**
  Records of the voice-dispatch domain (src/data/dispatch/models.py).

  Timestamps are integers; identifiers, tokens and free text are opaque.  A SHA-256
  digest is modelled by a free constructor over its preimage, which is exactly
  the assumption that the digest is injective.
*/
module DispatchModels {
  import opened Wrappers

  /** Opaque identifiers, callback tokens and free text. */
  type Id(==, !new, 0)
  type Token(==, !new, 0)
  type Text(==, !new, 0)
  type Time = int

  datatype ContactRole = Primary | Supervisor

  datatype DispatchStatus =
    | Queued
    | Dialing
    | AwaitingAcknowledgement
    | ProviderRetry
    | RetryScheduled
    | SupervisorScheduled
    | Acknowledged
    | ManualFollowUp
    | Unacknowledged
    | Canceled
  {
    predicate Terminal() {
      Acknowledged? || ManualFollowUp? || Unacknowledged? || Canceled?
    }

    /** Terminal, and out of reach of a late key-press. */
    predicate Absorbing() {
      Acknowledged? || ManualFollowUp? || Canceled?
    }
  }

  datatype AttemptStatus =
    | Reserved
    | ProviderRetry
    | Initiated
    | Ringing
    | Answered
    | Acknowledged
    | ManualFollowUp
    | Unacknowledged
    | Canceled
  {
    predicate Terminal() {
      Acknowledged? || ManualFollowUp? || Unacknowledged? || Canceled?
    }

    /** The provider has been bound and the call is still in progress. */
    predicate InProgress() {
      Initiated? || Ringing? || Answered?
    }

    predicate AwaitingProvider() {
      Reserved? || ProviderRetry?
    }
  }

  datatype EventKind =
    | Authorized
    | AttemptReserved
    | CallInitiated
    | ProviderRetry
    | ProviderStatus
    | AnsweringMachine
    | Acknowledged
    | ManualFollowUp
    | InvalidGatherInput
    | RetryScheduled
    | SupervisorScheduled
    | Exhausted
    | Canceled

  datatype CallOutcome =
    | Acknowledged
    | CallbackRequested
    | NoAnswer
    | Busy
    | Failed
    | NoAcknowledgement
    | Canceled

  /** Provider status words, after normalization. */
  datatype ProviderWord =
    | Queued
    | Initiated
    | Ringing
    | Answered
    | InProgress
    | Completed
    | Busy
    | NoAnswer
    | Failed
    | Canceled
  {
    predicate Ends() {
      Completed? || Busy? || NoAnswer? || Failed? || Canceled?
    }
  }

  datatype MachineResult =
    | Human
    | MachineStart
    | MachineEndBeep
    | MachineEndSilence
    | MachineEndOther
    | Fax
    | Unknown

  /** Text that does not start with "sha256:". */
  type PlainText = text: string | !("sha256:" <= text)

  /**
    A provider call reference.  `HashOf(r)` is the text "sha256:" followed by
    the digest of r, the form in which a durable store keeps references;
    `Malformed` is any other text that starts with "sha256:".
  */
  datatype Reference = Plain(text: PlainText) | HashOf(preimage: Reference) | Malformed(rest: string)
  {
    predicate Blank() {
      this == Plain("")
    }

    /** The text starts with "sha256:" and is taken for a stored digest. */
    predicate Marked() {
      !Plain?
    }

    /** What a caller must send to match this stored reference; nothing matches a malformed one. */
    function Expected(): Option<Reference> {
      match this
      case Plain(_) => Some(this)
      case HashOf(preimage) => Some(preimage)
      case Malformed(_) => None
    }

    /** Comparison of a stored reference with an incoming one. */
    predicate Matches(incoming: Reference) {
      Expected() == Some(incoming)
    }

    /** A callback that was let in: it matched, or it is the one that bound the call. */
    predicate Admits(incoming: Reference) {
      Matches(incoming) || incoming == this
    }
  }

  /** Inputs of the authorization digest. */
  datatype Fingerprint = Fingerprint(
    tenantId: Id,
    incidentId: Id,
    confirmedReviewId: Id,
    incidentSourceId: Id,
    incidentExternalEventId: Id,
    authorizedBy: Text,
    messageTemplateVersion: Text)

  /** Keys pressed during a call; anything but "1" and "2" is invalid input. */
  datatype Digits = One | Two | Other(text: Text)

  /** The parts hashed into an event's deduplication key. */
  datatype DedupeKey =
    | AuthorizedKey(tenantId: Id, idempotencyKey: Text)
    | AttemptReservedKey(tenantId: Id, caseId: Id, attemptId: Id)
    | CallInitiatedKey(attemptId: Id)
    | ProviderRetryKey(attemptId: Id, version: int)
    | UncertainKey(attemptId: Id)
    | StatusKey(reference: Reference, word: ProviderWord)
    | GatherKey(reference: Reference, digits: Digits)
    | MachineKey(reference: Reference, result: MachineResult)
    | CancelKey(tenantId: Id, caseId: Id, eventKey: Text)
    | DeliveryExhaustedKey(tenantId: Id, caseId: Id)
  {
    predicate FromCallback() {
      StatusKey? || GatherKey? || MachineKey?
    }
  }

  datatype KeyDigest = KeyDigest(key: Text)

  /** The fields of a dispatch case that are fixed when it is authorized. */
  datatype CaseIdentity = CaseIdentity(
    caseId: Id,
    tenantId: Id,
    zoneId: Id,
    primaryContactId: Id,
    supervisorContactId: Id,
    caseReference: Text,
    category: Text,
    broadLocationLabel: Text,
    occurredAt: Time,
    fingerprint: Fingerprint,
    idempotencyKeyHash: KeyDigest,
    policyVersion: Text,
    retryDelaySeconds: int,
    createdAt: Time)

  datatype DispatchCase = DispatchCase(
    identity: CaseIdentity,
    status: DispatchStatus,
    updatedAt: Time,
    nextAttemptAt: Option<Time>,
    attemptCount: nat,
    finalOutcome: Option<DispatchStatus>,
    closedAt: Option<Time>,
    version: int)
  {
    function Key(): CaseKey {
      CaseKey(identity.tenantId, identity.caseId)
    }

    /** The record validation of status, outcome and closing time. */
    predicate WellFormed() {
      && attemptCount <= 3
      && 1 <= version
      && (if status.Terminal()
          then finalOutcome == Some(status) && closedAt.Some? && nextAttemptAt.None?
          else finalOutcome.None? && closedAt.None?)
    }

    predicate Due(now: Time) {
      nextAttemptAt.None? || nextAttemptAt.value <= now
    }
  }

  datatype AttemptIdentity = AttemptIdentity(
    attemptId: Id,
    caseId: Id,
    tenantId: Id,
    sequence: nat,
    targetRole: ContactRole,
    contactId: Id,
    callbackToken: Token,
    createdAt: Time)

  datatype CallAttempt = CallAttempt(
    identity: AttemptIdentity,
    reference: Option<Reference>,
    status: AttemptStatus,
    updatedAt: Time,
    outcome: Option<CallOutcome>,
    initiatedAt: Option<Time>,
    answeredAt: Option<Time>,
    completedAt: Option<Time>,
    nextActionAt: Option<Time>,
    safeErrorCode: Option<Code>,
    version: int)
  {
    function Key(): AttemptKey {
      AttemptKey(identity.tenantId, identity.attemptId)
    }

    function Home(): CaseKey {
      CaseKey(identity.tenantId, identity.caseId)
    }
  }

  datatype DispatchEvent = DispatchEvent(
    eventId: Id,
    tenantId: Id,
    caseId: Id,
    attemptId: Option<Id>,
    kind: EventKind,
    occurredAt: Time,
    key: DedupeKey,
    detail: Option<Detail>)

  datatype Detail = Word(word: ProviderWord) | Machine(result: MachineResult) | Coded(code: Code)

  datatype Code =
    | DeliveryExhausted
    | ClaimExpired
    | SubmissionUncertain
    | ProviderFailure(text: Text)

  datatype CaseKey = CaseKey(tenantId: Id, caseId: Id)

  datatype AttemptKey = AttemptKey(tenantId: Id, attemptId: Id)

  datatype ConflictCode =
    | StateConflict
    | RepositoryConflict
    | CaseTerminal
    | AttemptLimitReached
    | ClaimInvalid
    | ClaimUnavailable
    | BindingUnavailable
    | SubmissionInFlight
    | TransitionInvalid
    | ActiveCallCancellationUnavailable

  datatype DispatchError =
    | ResourceNotFound
    | Conflict(code: ConflictCode)
    | RetryNotDue
    | CallMismatch
    | NotAuthorized
    | IdempotencyConflict
    | ContactUnavailable
    | ValidationError
    | ProviderUnavailable

  function RoleFor(sequence: nat): ContactRole {
    if sequence <= 2 then Primary else Supervisor
  }
}
