/**
  The coordinator's methods (src/data/dispatch/service.py) as programs over the
  repository.  A program is the local state of one running method: it reads a
  snapshot, computes new records, may call the provider, and applies what it
  computed.  Between two of its actions anything else may happen, so each
  action is a separate `Act`.

  An `Env` carries everything an action draws from outside: the clock, fresh
  identifiers and tokens, directory answers and provider answers.  None of them
  is restricted, and clocks need not be monotone.
*/
module DispatchCoordinator {
  import opened Wrappers
  import opened DispatchModels
  import opened DispatchStore

  /** The delays of the escalation, in seconds; nothing proved here needs their bounds. */
  datatype Policy = Policy(retryDelay: int, submissionTimeout: int)

  /** A new version of a case and one of its attempts, with the event that says why. */
  datatype Plan = Plan(record: DispatchCase, attempt: CallAttempt, event: DispatchEvent)

  function EventFor(
    record: DispatchCase, eventId: Id, attemptId: Option<Id>, kind: EventKind, at: Time, key: DedupeKey,
    detail: Option<Detail>): DispatchEvent
  {
    DispatchEvent(eventId, record.identity.tenantId, record.identity.caseId, attemptId, kind, at, key, detail)
  }

  // ---------- pure record updates ----------

  /** The case closed with a terminal status. */
  function Close(record: DispatchCase, status: DispatchStatus, at: Time): DispatchCase
    requires status.Terminal()
  {
    record.(status := status, nextAttemptAt := None, finalOutcome := Some(status), closedAt := Some(at),
            updatedAt := at, version := record.version + 1)
  }

  function End(attempt: CallAttempt, status: AttemptStatus, outcome: CallOutcome, at: Time): CallAttempt {
    attempt.(status := status, outcome := Some(outcome), completedAt := Some(at), nextActionAt := None,
             updatedAt := at, version := attempt.version + 1)
  }

  function UnacknowledgedStatus(sequence: nat): DispatchStatus {
    if sequence == 1 then DispatchStatus.RetryScheduled
    else if sequence == 2 then DispatchStatus.SupervisorScheduled
    else DispatchStatus.Unacknowledged
  }

  function UnacknowledgedKind(sequence: nat): EventKind {
    if sequence == 1 then EventKind.RetryScheduled
    else if sequence == 2 then EventKind.SupervisorScheduled
    else Exhausted
  }

  function UnacknowledgedCase(policy: Policy, record: DispatchCase, sequence: nat, at: Time): DispatchCase {
    var status := UnacknowledgedStatus(sequence);
    if status.Terminal() then Close(record, status, at)
    else
      record.(status := status, nextAttemptAt := Some(at + policy.retryDelay), finalOutcome := None,
              closedAt := None, updatedAt := at, version := record.version + 1)
  }

  function UnacknowledgedAttempt(policy: Policy, attempt: CallAttempt, at: Time, outcome: CallOutcome): CallAttempt {
    End(attempt, AttemptStatus.Unacknowledged, outcome, at)
      .(nextActionAt :=
        if UnacknowledgedStatus(attempt.identity.sequence).Terminal() then None else Some(at + policy.retryDelay))
  }

  function Rank(status: AttemptStatus): int {
    match status
    case Reserved => 0
    case ProviderRetry => 0
    case Initiated => 1
    case Ringing => 2
    case Answered => 3
    case _ => -1
  }

  function ProgressStatus(current: AttemptStatus, word: ProviderWord): AttemptStatus
    requires !word.Ends()
  {
    var desired :=
      match word
      case Queued => AttemptStatus.Initiated
      case Initiated => AttemptStatus.Initiated
      case Ringing => AttemptStatus.Ringing
      case Answered => AttemptStatus.Answered
      case InProgress => AttemptStatus.Answered;
    if Rank(desired) > Rank(current) then desired else current
  }

  function ProgressedAttempt(attempt: CallAttempt, word: ProviderWord, at: Time): CallAttempt
    requires !word.Ends()
  {
    var status := ProgressStatus(attempt.status, word);
    attempt.(
      status := status,
      initiatedAt :=
        if attempt.initiatedAt.Some? || status.Reserved? then attempt.initiatedAt else Some(at),
      answeredAt := if attempt.answeredAt.Some? || !status.Answered? then attempt.answeredAt else Some(at),
      updatedAt := at,
      version := attempt.version + 1)
  }

  function ProgressedCase(record: DispatchCase, status: AttemptStatus, at: Time): DispatchCase {
    record.(
      status := if status.Answered? then DispatchStatus.AwaitingAcknowledgement else DispatchStatus.Dialing,
      updatedAt := at, version := record.version + 1)
  }

  function EndingOutcome(word: ProviderWord): CallOutcome
    requires word.Ends()
  {
    match word
    case Completed => NoAcknowledgement
    case Busy => CallOutcome.Busy
    case NoAnswer => CallOutcome.NoAnswer
    case Failed => CallOutcome.Failed
    case Canceled => CallOutcome.Canceled
  }

  // ---------- what each handler decides ----------

  datatype CallbackAction =
    | Script
    | Returned
    | Status(word: ProviderWord, occurredAt: Option<Time>)
    | Gather(digits: Digits, occurredAt: Option<Time>)
    | MachineDetection(result: MachineResult, occurredAt: Option<Time>)
  {
    /** The key that makes redelivery of the callback recognizable. */
    function Key(reference: Reference): DedupeKey
      requires Status? || Gather? || MachineDetection?
    {
      match this
      case Status(word, _) => StatusKey(reference, word)
      case Gather(digits, _) => GatherKey(reference, digits)
      case MachineDetection(result, _) => MachineKey(reference, result)
    }
  }

  datatype Handling = Nothing | Append(event: DispatchEvent) | Change(plan: Plan)

  function HandleStatus(
    policy: Policy, record: DispatchCase, attempt: CallAttempt, reference: Reference, word: ProviderWord,
    at: Time, eventId: Id): Handling
  {
    var id, key, detail := Some(attempt.identity.attemptId), StatusKey(reference, word), Some(Word(word));
    if record.status.Terminal() || attempt.status.Terminal() then
      Append(EventFor(record, eventId, id, ProviderStatus, at, key, detail))
    else if word.Ends() then
      Change(Plan(
               UnacknowledgedCase(policy, record, attempt.identity.sequence, at),
               UnacknowledgedAttempt(policy, attempt, at, EndingOutcome(word)),
               EventFor(record, eventId, id, UnacknowledgedKind(attempt.identity.sequence), at, key, detail)))
    else
      Change(Plan(
               ProgressedCase(record, ProgressStatus(attempt.status, word), at),
               ProgressedAttempt(attempt, word, at),
               EventFor(record, eventId, id, ProviderStatus, at, key, detail)))
  }

  function HandleGather(
    record: DispatchCase, attempt: CallAttempt, reference: Reference, digits: Digits, at: Time, eventId: Id): Handling
  {
    var id, key := Some(attempt.identity.attemptId), GatherKey(reference, digits);
    if digits.Other? then
      Append(EventFor(record, eventId, id, InvalidGatherInput, at, key, None))
    else
      var kind := if digits.One? then EventKind.Acknowledged else EventKind.ManualFollowUp;
      var event := EventFor(record, eventId, id, kind, at, key, None);
      if record.status.Absorbing() then Append(event)
      else if digits.One? then
        Change(Plan(
                 Close(record, DispatchStatus.Acknowledged, at),
                 End(attempt, AttemptStatus.Acknowledged, CallOutcome.Acknowledged, at),
                 event))
      else
        Change(Plan(
                 Close(record, DispatchStatus.ManualFollowUp, at),
                 End(attempt, AttemptStatus.ManualFollowUp, CallbackRequested, at),
                 event))
  }

  function HandleMachine(
    policy: Policy, record: DispatchCase, attempt: CallAttempt, reference: Reference, result: MachineResult,
    at: Time, eventId: Id): Handling
  {
    var id, key, detail := Some(attempt.identity.attemptId), MachineKey(reference, result), Some(Machine(result));
    if record.status.Terminal() || attempt.status.Terminal() || result.Human? then
      Append(EventFor(record, eventId, id, AnsweringMachine, at, key, detail))
    else
      Change(Plan(
               UnacknowledgedCase(policy, record, attempt.identity.sequence, at),
               UnacknowledgedAttempt(policy, attempt, at, NoAcknowledgement),
               EventFor(record, eventId, id, UnacknowledgedKind(attempt.identity.sequence), at, key, detail)))
  }

  function CallbackTime(occurredAt: Option<Time>, env: Env): Time {
    if occurredAt.Some? then occurredAt.value else env.now
  }

  function Handle(
    policy: Policy, record: DispatchCase, attempt: CallAttempt, reference: Reference, action: CallbackAction,
    env: Env): Handling
  {
    match action
    case Status(word, at) =>
      HandleStatus(policy, record, attempt, reference, word, CallbackTime(at, env), env.eventId)
    case Gather(digits, at) =>
      HandleGather(record, attempt, reference, digits, CallbackTime(at, env), env.eventId)
    case MachineDetection(result, at) =>
      HandleMachine(policy, record, attempt, reference, result, CallbackTime(at, env), env.eventId)
    case Script => Nothing
    case Returned => Nothing
  }

  function MarkProviderRetry(record: DispatchCase, attempt: CallAttempt, at: Time, code: Code, eventId: Id): Plan {
    Plan(
      record.(status := DispatchStatus.ProviderRetry, nextAttemptAt := Some(at), updatedAt := at,
              version := record.version + 1),
      attempt.(status := AttemptStatus.ProviderRetry, safeErrorCode := Some(code), updatedAt := at,
               version := attempt.version + 1),
      EventFor(record, eventId, Some(attempt.identity.attemptId), EventKind.ProviderRetry, at,
               ProviderRetryKey(attempt.identity.attemptId, attempt.version + 1), Some(Coded(code))))
  }

  function MarkSubmissionUncertain(
    record: DispatchCase, attempt: CallAttempt, at: Time, code: Code, eventId: Id): Plan
  {
    Plan(
      Close(record, DispatchStatus.ManualFollowUp, at),
      End(attempt, AttemptStatus.ManualFollowUp, CallbackRequested, at).(safeErrorCode := Some(code)),
      EventFor(record, eventId, Some(attempt.identity.attemptId), EventKind.ManualFollowUp, at,
               UncertainKey(attempt.identity.attemptId), Some(Coded(code))))
  }

  function CancelEvent(record: DispatchCase, active: Option<CallAttempt>, eventKey: Text, env: Env): DispatchEvent {
    EventFor(record, env.eventId, ActiveId(active), EventKind.Canceled, env.now,
             CancelKey(record.identity.tenantId, record.identity.caseId, eventKey), None)
  }

  function ExhaustEvent(record: DispatchCase, active: Option<CallAttempt>, env: Env): DispatchEvent {
    EventFor(record, env.eventId, ActiveId(active), EventKind.ManualFollowUp, env.now,
             DeliveryExhaustedKey(record.identity.tenantId, record.identity.caseId),
             Some(Coded(DeliveryExhausted)))
  }

  function ActiveId(active: Option<CallAttempt>): Option<Id> {
    match active
    case None => None
    case Some(attempt) => Some(attempt.identity.attemptId)
  }

  function CanceledAttempt(attempt: CallAttempt, at: Time): CallAttempt {
    End(attempt, AttemptStatus.Canceled, CallOutcome.Canceled, at)
  }

  function ExhaustedAttempt(attempt: CallAttempt, at: Time): CallAttempt {
    attempt.(status := AttemptStatus.ManualFollowUp, outcome := Some(CallOutcome.Failed),
             completedAt := if attempt.completedAt.Some? then attempt.completedAt else Some(at),
             nextActionAt := None, safeErrorCode := Some(DeliveryExhausted), updatedAt := at,
             version := attempt.version + 1)
  }

  // ---------- authorization ----------

  datatype Incident = Incident(
    tenantId: Id,
    incidentId: Id,
    confirmedReviewId: Id,
    incidentSourceId: Id,
    incidentExternalEventId: Id,
    zoneId: Id,
    caseReference: Text,
    category: Text,
    broadLocationLabel: Text,
    occurredAt: Time,
    confirmed: bool)

  /** `wellFormed` stands for the syntax checks on the key, principal and template. */
  datatype AuthRequest = AuthRequest(
    incident: Incident,
    authorizedBy: Text,
    idempotencyKey: Text,
    authorizeCall: bool,
    template: Text,
    wellFormed: bool)
  {
    predicate Approved() {
      authorizeCall && incident.confirmed
    }

    function Print(): Fingerprint {
      Fingerprint(incident.tenantId, incident.incidentId, incident.confirmedReviewId, incident.incidentSourceId,
                  incident.incidentExternalEventId, authorizedBy, template)
    }

    function Scope(): IdempotencyScope {
      IdempotencyScope(incident.tenantId, idempotencyKey)
    }
  }

  datatype Contacts = Contacts(primary: Id, supervisor: Id)

  function NewCase(request: AuthRequest, contacts: Contacts, policyVersion: Text, retryDelay: int, env: Env)
    : DispatchCase
  {
    DispatchCase(
      CaseIdentity(
        env.freshId, request.incident.tenantId, request.incident.zoneId, contacts.primary, contacts.supervisor,
        request.incident.caseReference, request.incident.category, request.incident.broadLocationLabel,
        request.incident.occurredAt, request.Print(), KeyDigest(request.idempotencyKey), policyVersion,
        retryDelay, env.now),
      DispatchStatus.Queued, env.now, Some(env.now), 0, None, None, 1)
  }

  // ---------- programs ----------

  datatype ProviderReply =
    | Placed(reference: Reference)
    | Unsure
    | Refused(code: Code)

  datatype Env = Env(
    now: Time,
    freshId: Id,
    eventId: Id,
    token: Token,
    claimToken: ClaimToken,
    policyVersion: Text,
    contacts: Option<Contacts>,
    contactReady: bool,
    provider: ProviderReply,
    cancelAccepted: bool)

  datatype Answer = NoResult | CaseAnswer(record: DispatchCase) | AttemptAnswer(attempt: CallAttempt)

  datatype Program =
    | AuthFind(request: AuthRequest)
    | AuthCreate(request: AuthRequest)
    | DispatchGet(k: CaseKey)
    | DispatchReserve(k: CaseKey)
    | DispatchClaim(k: CaseKey, attempt: CallAttempt, now: Time)
    | DispatchExpire(record: DispatchCase, attempt: CallAttempt, now: Time)
    | DispatchPlace(record: DispatchCase, attempt: CallAttempt, claim: ClaimToken, now: Time)
    | DispatchRefused(record: DispatchCase, attempt: CallAttempt, claim: ClaimToken, now: Time, code: Code)
    | DispatchUncertain(record: DispatchCase, attempt: CallAttempt, claim: ClaimToken, now: Time)
    | CallbackResolve(token: Token, reference: Reference, action: CallbackAction)
    | CallbackBind(token: Token, reference: Reference, action: CallbackAction, located: Located)
    | CallbackApply(reference: Reference, action: CallbackAction, located: Located)
    | CancelGet(k: CaseKey, eventKey: Text)
    | CancelList(record: DispatchCase, eventKey: Text)
    | CancelCall(record: DispatchCase, attempt: CallAttempt, eventKey: Text)
    | CancelApply(record: DispatchCase, active: Option<CallAttempt>, eventKey: Text)
    | ExhaustGet(k: CaseKey, retried: bool)
    | ExhaustList(record: DispatchCase, retried: bool)
    | ExhaustApply(record: DispatchCase, active: Option<CallAttempt>, retried: bool)
    | Finished(result: Result<Answer, DispatchError>)
  {
    /** The first point of one of the coordinator's methods. */
    predicate Initial() {
      || AuthFind?
      || DispatchGet?
      || (CallbackResolve? && !action.Returned?)
      || CancelGet?
      || (ExhaustGet? && !retried)
    }
  }

  /** The store after an action and the point its program is at. */
  datatype Move = Move(store: Store, next: Program)

  function Stop(s: Store, result: Result<Answer, DispatchError>): Move {
    Move(s, Finished(result))
  }

  /** The end of a program whose last action was a write. */
  function Settle<T>(reply: Reply<T>): Move {
    Stop(reply.store, match reply.result case Ok(_) => Ok(NoResult) case Err(e) => Err(e))
  }

  function ActAuthFind(s: Store, request: AuthRequest): Move
    requires s.Indexed()
  {
    if !request.Approved() then Stop(s, Err(NotAuthorized))
    else if !request.wellFormed then Stop(s, Err(ValidationError))
    else
      match FindByIdempotency(s, request.incident.tenantId, request.idempotencyKey)
      case None => Move(s, AuthCreate(request))
      case Some(existing) =>
        Stop(s, if existing.identity.fingerprint != request.Print() then Err(IdempotencyConflict)
                else Ok(CaseAnswer(existing)))
  }

  function ActAuthCreate(policy: Policy, s: Store, request: AuthRequest, env: Env): Move
    requires s.Indexed()
  {
    if env.contacts.None? then Stop(s, Err(ContactUnavailable))
    else if env.contacts.value.primary == env.contacts.value.supervisor then Stop(s, Err(ValidationError))
    else
      var record := NewCase(request, env.contacts.value, env.policyVersion, policy.retryDelay, env);
      var event := EventFor(record, env.eventId, None, EventKind.Authorized, env.now,
                            AuthorizedKey(request.incident.tenantId, request.idempotencyKey), None);
      var reply := CreateCase(s, record, request.idempotencyKey, event);
      match reply.result
      case Err(e) => Stop(reply.store, Err(e))
      case Ok(creation) =>
        Stop(reply.store,
             if creation.record.identity.fingerprint != request.Print() then Err(IdempotencyConflict)
             else Ok(CaseAnswer(creation.record)))
  }

  function ActDispatchGet(s: Store, k: CaseKey): Move {
    match GetCase(s, k)
    case Err(e) => Stop(s, Err(e))
    case Ok(record) =>
      if record.status.Terminal() then Stop(s, Ok(NoResult)) else Move(s, DispatchReserve(k))
  }

  function ReserveEvent(k: CaseKey, env: Env): DispatchEvent {
    DispatchEvent(env.eventId, k.tenantId, k.caseId, Some(env.freshId), AttemptReserved, env.now,
                  AttemptReservedKey(k.tenantId, k.caseId, env.freshId), None)
  }

  function ActDispatchReserve(s: Store, k: CaseKey, env: Env): Move {
    var reply := ReserveNextAttempt(s, k, env.freshId, env.token, env.now, ReserveEvent(k, env));
    match reply.result
    case Err(e) => Stop(reply.store, Err(e))
    case Ok(reservation) =>
      var attempt := reservation.attempt;
      if attempt.status.InProgress() then Stop(reply.store, Ok(AttemptAnswer(attempt)))
      else if !attempt.status.AwaitingProvider() then Stop(reply.store, Err(Conflict(StateConflict)))
      else Move(reply.store, DispatchClaim(k, attempt, env.now))
  }

  function ActDispatchClaim(policy: Policy, s: Store, k: CaseKey, attempt: CallAttempt, now: Time, env: Env): Move
    requires s.Indexed()
  {
    if !env.contactReady then Stop(s, Err(ContactUnavailable))
    else
      var reply := ClaimProviderSubmission(
                     s, k, attempt.identity.attemptId, env.claimToken, now, now + policy.submissionTimeout);
      match reply.result
      case Err(e) => Stop(reply.store, Err(e))
      case Ok(claim) =>
        if claim.record.status.Terminal() then Stop(reply.store, Ok(NoResult))
        else if claim.stale then
          Move(reply.store, DispatchExpire(claim.record, claim.attempt, now))
        else if !claim.acquired then
          Stop(reply.store,
               if claim.retryAt.Some? then Err(RetryNotDue)
               else if claim.attempt.status.InProgress() then Ok(AttemptAnswer(claim.attempt))
               else Err(Conflict(ClaimUnavailable)))
        else
          Move(reply.store, DispatchPlace(claim.record, claim.attempt, env.claimToken, now))
  }

  /**
    The provider call.  By the provider's contract only `Refused` means that no
    call was submitted.
  */
  function ActDispatchPlace(
    s: Store, record: DispatchCase, attempt: CallAttempt, claim: ClaimToken, now: Time, env: Env): Move
  {
    match env.provider
    case Placed(reference) =>
      Move(s, CallbackResolve(attempt.identity.callbackToken, reference, Returned))
    case Unsure =>
      Move(s, DispatchUncertain(record, attempt, claim, now))
    case Refused(code) =>
      Move(s, DispatchRefused(record, attempt, claim, now, code))
  }

  function ActDispatchRefused(
    s: Store, record: DispatchCase, attempt: CallAttempt, claim: ClaimToken, now: Time, code: Code, env: Env): Move
    requires s.Indexed() && s.Keeps(attempt)
  {
    var plan := MarkProviderRetry(record, attempt, now, code, env.eventId);
    var reply := FinishProviderSubmission(
                   s, plan.record, plan.attempt, plan.event, claim, RetryableFailure,
                   record.version, attempt.version);
    Stop(reply.store, match reply.result case Ok(_) => Err(ProviderUnavailable) case Err(e) => Err(e))
  }

  function ActDispatchUncertain(
    s: Store, record: DispatchCase, attempt: CallAttempt, claim: ClaimToken, now: Time, env: Env): Move
    requires s.Indexed() && s.Keeps(attempt)
  {
    var plan := MarkSubmissionUncertain(record, attempt, now, SubmissionUncertain, env.eventId);
    Settle(FinishProviderSubmission(
             s, plan.record, plan.attempt, plan.event, claim, UncertainOutcome, record.version, attempt.version))
  }

  function ActDispatchExpire(s: Store, record: DispatchCase, attempt: CallAttempt, now: Time, env: Env): Move
    requires s.Indexed() && s.Keeps(attempt)
  {
    var plan := MarkSubmissionUncertain(record, attempt, now, ClaimExpired, env.eventId);
    Settle(ExpireProviderSubmission(
             s, plan.record, plan.attempt, plan.event, now, record.version, attempt.version))
  }

  function ActCallbackResolve(s: Store, token: Token, reference: Reference, action: CallbackAction): Move
    requires s.Indexed()
  {
    match ResolveCallback(s, token)
    case Err(e) => Stop(s, Err(e))
    case Ok(located) =>
      if reference.Blank() then Stop(s, Err(CallMismatch))
      else if located.attempt.reference.Some? then
        if located.attempt.reference.value.Matches(reference)
        then Move(s, CallbackApply(reference, action, located))
        else Stop(s, Err(CallMismatch))
      else Move(s, CallbackBind(token, reference, action, located))
  }

  function BindEvent(located: Located, env: Env): DispatchEvent {
    EventFor(located.record, env.eventId, Some(located.attempt.identity.attemptId), CallInitiated, env.now,
             CallInitiatedKey(located.attempt.identity.attemptId), None)
  }

  function ActCallbackBind(
    s: Store, token: Token, reference: Reference, action: CallbackAction, located: Located, env: Env): Move
    requires s.Indexed()
  {
    var reply := BindProviderCallback(s, token, reference, env.now, BindEvent(located, env));
    match reply.result
    case Err(e) => Stop(reply.store, Err(e))
    case Ok(bound) => Move(reply.store, CallbackApply(reference, action, bound))
  }

  function ActCallbackApply(
    policy: Policy, s: Store, reference: Reference, action: CallbackAction, located: Located, env: Env): Move
    requires s.Indexed()
  {
    var record, attempt := located.record, located.attempt;
    match Handle(policy, record, attempt, reference, action, env)
    case Append(event) => Settle(AppendEvent(s, event))
    case Change(plan) =>
      Settle(ApplyTransition(s, plan.record, plan.attempt, plan.event, record.version, attempt.version))
    case Nothing =>
      Stop(s, if action.Returned? then Ok(AttemptAnswer(attempt))
              else if record.status.Terminal() then Err(Conflict(CaseTerminal))
              else Ok(CaseAnswer(record)))
  }

  function ActCancelGet(s: Store, k: CaseKey, eventKey: Text): Move {
    match GetCase(s, k)
    case Err(e) => Stop(s, Err(e))
    case Ok(record) =>
      if record.status.Terminal() then Stop(s, Ok(CaseAnswer(record)))
      else Move(s, CancelList(record, eventKey))
  }

  /** The last attempt of a listing that has not ended. */
  function Active(attempts: seq<CallAttempt>): Option<CallAttempt> {
    var i := LastOpen(attempts);
    if i < |attempts| then Some(attempts[i]) else None
  }

  function ActCancelList(s: Store, record: DispatchCase, eventKey: Text): Move {
    match ListAttempts(s, record.Key())
    case Err(e) => Stop(s, Err(e))
    case Ok(attempts) =>
      var active := Active(attempts);
      if active.Some? && active.value.reference.Some? then
        if active.value.reference.value.Marked() then
          Stop(s, Err(Conflict(ActiveCallCancellationUnavailable)))
        else Move(s, CancelCall(record, active.value, eventKey))
      else Move(s, CancelApply(record, active, eventKey))
  }

  function ActCancelCall(s: Store, record: DispatchCase, attempt: CallAttempt, eventKey: Text, env: Env): Move {
    if !env.cancelAccepted || attempt.reference.None? then Stop(s, Err(ProviderUnavailable))
    else
      Move(s, CancelApply(record, Some(attempt), eventKey))
  }

  function ActCancelApply(
    s: Store, record: DispatchCase, active: Option<CallAttempt>, eventKey: Text, env: Env): Move
    requires s.Indexed()
  {
    var record' := Close(record, DispatchStatus.Canceled, env.now);
    var event := CancelEvent(record, active, eventKey, env);
    match active
    case None => Settle(ApplyCaseTransition(s, record', event, record.version))
    case Some(attempt) =>
      Settle(ApplyTransition(
               s, record', CanceledAttempt(attempt, env.now), event, record.version, attempt.version))
  }

  function ActExhaustGet(s: Store, k: CaseKey, retried: bool): Move {
    match GetCase(s, k)
    case Err(e) => Stop(s, Err(e))
    case Ok(record) =>
      if record.status.Terminal() then Stop(s, Ok(CaseAnswer(record)))
      else Move(s, ExhaustList(record, retried))
  }

  function ActExhaustList(s: Store, record: DispatchCase, retried: bool): Move {
    match ListAttempts(s, record.Key())
    case Err(e) => Stop(s, Err(e))
    case Ok(attempts) => Move(s, ExhaustApply(record, Active(attempts), retried))
  }

  /** A version conflict on the first pass starts the method over, once. */
  function ActExhaustApply(
    s: Store, record: DispatchCase, active: Option<CallAttempt>, retried: bool, env: Env): Move
    requires s.Indexed()
  {
    var record' := Close(record, DispatchStatus.ManualFollowUp, env.now);
    var event := ExhaustEvent(record, active, env);
    var reply :=
      match active
      case None => ApplyCaseTransition(s, record', event, record.version)
      case Some(attempt) =>
        ApplyTransition(s, record', ExhaustedAttempt(attempt, env.now), event, record.version, attempt.version);
    if reply.result == Err(Conflict(RepositoryConflict)) && !retried then
      Move(reply.store, ExhaustGet(record.Key(), true))
    else Settle(reply)
  }

  /** The record a finish or expire action writes keeps the case it was read from. */
  ghost predicate Runnable(s: Store, p: Program) {
    && s.Indexed()
    && (p.DispatchExpire? || p.DispatchRefused? || p.DispatchUncertain? ==> s.Keeps(p.attempt))
  }

  /** One atomic action of a program. */
  function Act(policy: Policy, s: Store, p: Program, env: Env): Move
    requires Runnable(s, p)
  {
    match p
    case AuthFind(request) => ActAuthFind(s, request)
    case AuthCreate(request) => ActAuthCreate(policy, s, request, env)
    case DispatchGet(k) => ActDispatchGet(s, k)
    case DispatchReserve(k) => ActDispatchReserve(s, k, env)
    case DispatchClaim(k, attempt, now) => ActDispatchClaim(policy, s, k, attempt, now, env)
    case DispatchExpire(record, attempt, now) => ActDispatchExpire(s, record, attempt, now, env)
    case DispatchPlace(record, attempt, claim, now) => ActDispatchPlace(s, record, attempt, claim, now, env)
    case DispatchRefused(record, attempt, claim, now, code) =>
      ActDispatchRefused(s, record, attempt, claim, now, code, env)
    case DispatchUncertain(record, attempt, claim, now) =>
      ActDispatchUncertain(s, record, attempt, claim, now, env)
    case CallbackResolve(token, reference, action) => ActCallbackResolve(s, token, reference, action)
    case CallbackBind(token, reference, action, located) =>
      ActCallbackBind(s, token, reference, action, located, env)
    case CallbackApply(reference, action, located) => ActCallbackApply(policy, s, reference, action, located, env)
    case CancelGet(k, eventKey) => ActCancelGet(s, k, eventKey)
    case CancelList(record, eventKey) => ActCancelList(s, record, eventKey)
    case CancelCall(record, attempt, eventKey) => ActCancelCall(s, record, attempt, eventKey, env)
    case CancelApply(record, active, eventKey) => ActCancelApply(s, record, active, eventKey, env)
    case ExhaustGet(k, retried) => ActExhaustGet(s, k, retried)
    case ExhaustList(record, retried) => ActExhaustList(s, record, retried)
    case ExhaustApply(record, active, retried) => ActExhaustApply(s, record, active, retried, env)
    case Finished(_) => Move(s, p)
  }
}
