/**
  What a cancellation, an exhausted queue and an authorization leave behind when
  nobody interferes, field by field.
*/
module OperatorOutcomes {
  import opened Wrappers
  import opened DispatchModels
  import opened DispatchStore
  import opened DispatchCoordinator
  import opened CaseAutomaton
  import opened DispatchRefinement
  import opened DispatchAlone
  import opened CallbackOutcomes

  /** An open case under its own key. */
  predicate Open(s: Store, k: CaseKey) {
    k in s.files && s.files[k].record.Key() == k && !s.files[k].record.status.Terminal()
  }

  /** Every attempt of the open case has ended. */
  predicate Idle(s: Store, k: CaseKey) {
    && Open(s, k)
    && forall i :: 0 <= i < |s.files[k].slots| ==> s.files[k].slots[i].attempt.status.Terminal()
  }

  /** The attempt at position n is the last open one of the open case. */
  predicate LastOpenAt(s: Store, k: CaseKey, n: nat) {
    && Open(s, k) && n < |s.files[k].slots| && Filed(s, k, n)
    && !s.files[k].slots[n].attempt.status.Terminal()
    && forall i :: n < i < |s.files[k].slots| ==> s.files[k].slots[i].attempt.status.Terminal()
  }

  lemma IdleListing(s: Store, k: CaseKey)
    requires Idle(s, k)
    ensures Active(AttemptsOf(s.files[k].slots)) == None
  {
    assert forall i :: 0 <= i < |s.files[k].slots| ==>
             AttemptsOf(s.files[k].slots)[i] == s.files[k].slots[i].attempt;
  }

  lemma OpenListing(s: Store, k: CaseKey, n: nat)
    requires LastOpenAt(s, k, n)
    ensures Active(AttemptsOf(s.files[k].slots)) == Some(s.files[k].slots[n].attempt)
  {
    assert forall i :: 0 <= i < |s.files[k].slots| ==>
             AttemptsOf(s.files[k].slots)[i] == s.files[k].slots[i].attempt;
  }

  /** The case closed in this way. */
  function ClosedAs(record: DispatchCase, status: DispatchStatus, at: Time): DispatchCase {
    record.(status := status, nextAttemptAt := None, finalOutcome := Some(status), closedAt := Some(at),
            updatedAt := at, version := record.version + 1)
  }

  /** An event about the case, or about one of its attempts. */
  function NoteOf(
    k: CaseKey, attemptId: Option<Id>, kind: EventKind, key: DedupeKey, detail: Option<Detail>, env: Env)
    : DispatchEvent
  {
    DispatchEvent(env.eventId, k.tenantId, k.caseId, attemptId, kind, env.now, key, detail)
  }

  // ---------- cancellation ----------

  /** The case is canceled; its last open attempt, if there is one, with it. */
  predicate NowCanceled(s: Store, s': Store, k: CaseKey, n: Option<nat>, eventKey: Text, env: Env) {
    && k in s.files && (n.Some? ==> n.value < |s.files[k].slots|)
    && (var f := s.files[k];
        var record := ClosedAs(f.record, DispatchStatus.Canceled, env.now);
        var key := CancelKey(k.tenantId, k.caseId, eventKey);
        if n.None? then Becomes(s, s', k, record, f.slots, NoteOf(k, None, EventKind.Canceled, key, None, env))
        else
          var attempt := f.slots[n.value].attempt;
          Becomes(
            s, s', k, record,
            f.slots[
              n.value := f.slots[n.value].(
                attempt := attempt.(
                  status := AttemptStatus.Canceled, outcome := Some(CallOutcome.Canceled),
                  completedAt := Some(env.now), nextActionAt := None, updatedAt := env.now,
                  version := attempt.version + 1))],
            NoteOf(k, Some(attempt.identity.attemptId), EventKind.Canceled, key, None, env)))
  }

  /** A case that is not there, or closed, is not canceled. */
  lemma CancelNothing(
    policy: Policy, s: Store, k: CaseKey, eventKey: Text, draws: Draws, s': Store,
    result: Result<Answer, DispatchError>)
    requires s.Indexed() && Ends(policy, s, CancelGet(k, eventKey), draws, s', result)
    requires k !in s.files || s.files[k].record.status.Terminal()
    ensures s' == s
    ensures result == if k in s.files then Ok(CaseAnswer(s.files[k].record)) else Err(ResourceNotFound)
  {
    var p := CancelGet(k, eventKey);
    EndsHere(policy, s, p, draws, Act(policy, s, p, draws(p)), s', result);
  }

  lemma CancelLists(
    policy: Policy, s: Store, k: CaseKey, eventKey: Text, draws: Draws, s': Store,
    result: Result<Answer, DispatchError>)
    requires s.Indexed() && Open(s, k) && Ends(policy, s, CancelGet(k, eventKey), draws, s', result)
    ensures Ends(policy, s, CancelList(s.files[k].record, eventKey), draws, s', result)
  {
    var p := CancelGet(k, eventKey);
    EndsLater(policy, s, p, draws, Act(policy, s, p, draws(p)), s', result);
  }

  /** Canceling an open case between two attempts. */
  lemma CancelIdle(
    policy: Policy, s: Store, k: CaseKey, eventKey: Text, draws: Draws, s': Store,
    result: Result<Answer, DispatchError>)
    requires s.Indexed() && Idle(s, k) && Ends(policy, s, CancelGet(k, eventKey), draws, s', result)
    requires !s.Logged(k.tenantId, CancelKey(k.tenantId, k.caseId, eventKey))
    ensures var p := CancelApply(s.files[k].record, None, eventKey);
            result == Ok(NoResult) && NowCanceled(s, s', k, None, eventKey, draws(p))
  {
    var q, p := CancelList(s.files[k].record, eventKey), CancelApply(s.files[k].record, None, eventKey);
    CancelLists(policy, s, k, eventKey, draws, s', result);
    IdleListing(s, k);
    EndsLater(policy, s, q, draws, Act(policy, s, q, draws(q)), s', result);
    EndsHere(policy, s, p, draws, Act(policy, s, p, draws(p)), s', result);
  }

  lemma CancelOpenActs(policy: Policy, s: Store, k: CaseKey, n: nat, eventKey: Text, env: Env)
    requires s.Indexed() && LastOpenAt(s, k, n)
    requires !s.Logged(k.tenantId, CancelKey(k.tenantId, k.caseId, eventKey))
    ensures var attempt := s.files[k].slots[n].attempt;
            var move := Act(policy, s, CancelApply(s.files[k].record, Some(attempt), eventKey), env);
            if s.files[k].slots[n].submission.state.Claimed? then
              move == Move(s, Finished(Err(Conflict(SubmissionInFlight))))
            else move.next == Finished(Ok(NoResult)) && NowCanceled(s, move.store, k, Some(n), eventKey, env)
  {
  }

  /**
    Canceling an open case whose last attempt has no call yet: while its call is
    claimed the cancellation is refused; otherwise case and attempt end.
  */
  lemma CancelUnbound(
    policy: Policy, s: Store, k: CaseKey, n: nat, eventKey: Text, draws: Draws, s': Store,
    result: Result<Answer, DispatchError>)
    requires s.Indexed() && LastOpenAt(s, k, n) && s.files[k].slots[n].attempt.reference.None?
    requires Ends(policy, s, CancelGet(k, eventKey), draws, s', result)
    requires !s.Logged(k.tenantId, CancelKey(k.tenantId, k.caseId, eventKey))
    ensures var p := CancelApply(s.files[k].record, Some(s.files[k].slots[n].attempt), eventKey);
            if s.files[k].slots[n].submission.state.Claimed? then
              s' == s && result == Err(Conflict(SubmissionInFlight))
            else result == Ok(NoResult) && NowCanceled(s, s', k, Some(n), eventKey, draws(p))
  {
    var q := CancelList(s.files[k].record, eventKey);
    var p := CancelApply(s.files[k].record, Some(s.files[k].slots[n].attempt), eventKey);
    CancelLists(policy, s, k, eventKey, draws, s', result);
    OpenListing(s, k, n);
    EndsLater(policy, s, q, draws, Act(policy, s, q, draws(q)), s', result);
    CancelOpenActs(policy, s, k, n, eventKey, draws(p));
    EndsHere(policy, s, p, draws, Act(policy, s, p, draws(p)), s', result);
  }

  /** A call that is bound to a text that starts with "sha256:" cannot be canceled, nor can its case. */
  lemma CancelMarked(
    policy: Policy, s: Store, k: CaseKey, n: nat, eventKey: Text, draws: Draws, s': Store,
    result: Result<Answer, DispatchError>)
    requires s.Indexed() && LastOpenAt(s, k, n)
    requires s.files[k].slots[n].attempt.reference.Some? && !s.files[k].slots[n].attempt.reference.value.Plain?
    requires Ends(policy, s, CancelGet(k, eventKey), draws, s', result)
    ensures s' == s && result == Err(Conflict(ActiveCallCancellationUnavailable))
  {
    var q := CancelList(s.files[k].record, eventKey);
    CancelLists(policy, s, k, eventKey, draws, s', result);
    OpenListing(s, k, n);
    EndsHere(policy, s, q, draws, Act(policy, s, q, draws(q)), s', result);
  }

  lemma CancelCalls(
    policy: Policy, s: Store, k: CaseKey, n: nat, eventKey: Text, draws: Draws, s': Store,
    result: Result<Answer, DispatchError>)
    requires s.Indexed() && LastOpenAt(s, k, n)
    requires s.files[k].slots[n].attempt.reference.Some? && s.files[k].slots[n].attempt.reference.value.Plain?
    requires Ends(policy, s, CancelGet(k, eventKey), draws, s', result)
    ensures Ends(policy, s, CancelCall(s.files[k].record, s.files[k].slots[n].attempt, eventKey), draws, s', result)
  {
    var q := CancelList(s.files[k].record, eventKey);
    CancelLists(policy, s, k, eventKey, draws, s', result);
    OpenListing(s, k, n);
    EndsLater(policy, s, q, draws, Act(policy, s, q, draws(q)), s', result);
  }

  /**
    Canceling an open case whose last attempt is bound to a plain reference: the
    case is canceled if and only if the provider accepts the cancellation of the
    call; otherwise nothing changes.
  */
  lemma CancelBound(
    policy: Policy, s: Store, k: CaseKey, n: nat, eventKey: Text, draws: Draws, s': Store,
    result: Result<Answer, DispatchError>)
    requires s.Indexed() && LastOpenAt(s, k, n) && s.files[k].slots[n].submission.state.Submitted?
    requires s.files[k].slots[n].attempt.reference.Some? && s.files[k].slots[n].attempt.reference.value.Plain?
    requires Ends(policy, s, CancelGet(k, eventKey), draws, s', result)
    requires !s.Logged(k.tenantId, CancelKey(k.tenantId, k.caseId, eventKey))
    ensures var record, attempt := s.files[k].record, s.files[k].slots[n].attempt;
            if draws(CancelCall(record, attempt, eventKey)).cancelAccepted then
              && result == Ok(NoResult)
              && NowCanceled(s, s', k, Some(n), eventKey, draws(CancelApply(record, Some(attempt), eventKey)))
            else s' == s && result == Err(ProviderUnavailable)
    ensures k in s'.files
         && (s'.files[k].record.status.Canceled?
             <==> draws(CancelCall(s.files[k].record, s.files[k].slots[n].attempt, eventKey)).cancelAccepted)
  {
    var q := CancelCall(s.files[k].record, s.files[k].slots[n].attempt, eventKey);
    var p := CancelApply(s.files[k].record, Some(s.files[k].slots[n].attempt), eventKey);
    CancelCalls(policy, s, k, n, eventKey, draws, s', result);
    if draws(q).cancelAccepted {
      EndsLater(policy, s, q, draws, Move(s, p), s', result);
      CancelOpenActs(policy, s, k, n, eventKey, draws(p));
      EndsHere(policy, s, p, draws, Act(policy, s, p, draws(p)), s', result);
    } else {
      EndsHere(policy, s, q, draws, Act(policy, s, q, draws(q)), s', result);
    }
  }

  // ---------- exhausted queues ----------

  /** The case is handed to a person; its last open attempt, if there is one, with it. */
  predicate HandedOver(s: Store, s': Store, k: CaseKey, n: Option<nat>, env: Env) {
    && k in s.files && (n.Some? ==> n.value < |s.files[k].slots|)
    && (var f := s.files[k];
        var record := ClosedAs(f.record, DispatchStatus.ManualFollowUp, env.now);
        var key, detail := DeliveryExhaustedKey(k.tenantId, k.caseId), Some(Coded(DeliveryExhausted));
        if n.None? then
          Becomes(s, s', k, record, f.slots, NoteOf(k, None, EventKind.ManualFollowUp, key, detail, env))
        else
          var attempt := f.slots[n.value].attempt;
          Becomes(
            s, s', k, record,
            f.slots[
              n.value := f.slots[n.value].(
                attempt := attempt.(
                  status := AttemptStatus.ManualFollowUp, outcome := Some(CallOutcome.Failed),
                  completedAt := if attempt.completedAt.Some? then attempt.completedAt else Some(env.now),
                  nextActionAt := None, safeErrorCode := Some(DeliveryExhausted), updatedAt := env.now,
                  version := attempt.version + 1))],
            NoteOf(k, Some(attempt.identity.attemptId), EventKind.ManualFollowUp, key, detail, env)))
  }

  lemma ExhaustNothing(
    policy: Policy, s: Store, k: CaseKey, retried: bool, draws: Draws, s': Store,
    result: Result<Answer, DispatchError>)
    requires s.Indexed() && Ends(policy, s, ExhaustGet(k, retried), draws, s', result)
    requires k !in s.files || s.files[k].record.status.Terminal()
    ensures s' == s
    ensures result == if k in s.files then Ok(CaseAnswer(s.files[k].record)) else Err(ResourceNotFound)
  {
    var p := ExhaustGet(k, retried);
    EndsHere(policy, s, p, draws, Act(policy, s, p, draws(p)), s', result);
  }

  lemma ExhaustLists(
    policy: Policy, s: Store, k: CaseKey, retried: bool, draws: Draws, s': Store,
    result: Result<Answer, DispatchError>)
    requires s.Indexed() && Open(s, k) && Ends(policy, s, ExhaustGet(k, retried), draws, s', result)
    ensures Ends(policy, s, ExhaustApply(s.files[k].record, Active(AttemptsOf(s.files[k].slots)), retried), draws, s',
                 result)
  {
    var p, q := ExhaustGet(k, retried), ExhaustList(s.files[k].record, retried);
    EndsLater(policy, s, p, draws, Act(policy, s, p, draws(p)), s', result);
    EndsLater(policy, s, q, draws, Act(policy, s, q, draws(q)), s', result);
  }

  lemma ExhaustIdleActs(policy: Policy, s: Store, k: CaseKey, retried: bool, env: Env)
    requires s.Indexed() && Idle(s, k) && !s.Logged(k.tenantId, DeliveryExhaustedKey(k.tenantId, k.caseId))
    ensures var move := Act(policy, s, ExhaustApply(s.files[k].record, None, retried), env);
            move.next == Finished(Ok(NoResult)) && HandedOver(s, move.store, k, None, env)
  {
  }

  lemma ExhaustOpenActs(policy: Policy, s: Store, k: CaseKey, n: nat, retried: bool, env: Env)
    requires s.Indexed() && LastOpenAt(s, k, n)
    requires !s.Logged(k.tenantId, DeliveryExhaustedKey(k.tenantId, k.caseId))
    ensures var record, attempt := s.files[k].record, s.files[k].slots[n].attempt;
            var move := Act(policy, s, ExhaustApply(record, Some(attempt), retried), env);
            move.next == Finished(Ok(NoResult)) && HandedOver(s, move.store, k, Some(n), env)
  {
    var record, attempt := s.files[k].record, s.files[k].slots[n].attempt;
    var reply := ApplyTransition(s, Close(record, DispatchStatus.ManualFollowUp, env.now),
                                 ExhaustedAttempt(attempt, env.now), ExhaustEvent(record, Some(attempt), env),
                                 record.version, attempt.version);
    assert reply.result == Ok(true);
  }

  /** An exhausted queue hands an open case to a person, whatever state its attempts are in. */
  lemma ExhaustIdle(
    policy: Policy, s: Store, k: CaseKey, retried: bool, draws: Draws, s': Store,
    result: Result<Answer, DispatchError>)
    requires s.Indexed() && Idle(s, k) && Ends(policy, s, ExhaustGet(k, retried), draws, s', result)
    requires !s.Logged(k.tenantId, DeliveryExhaustedKey(k.tenantId, k.caseId))
    ensures var p := ExhaustApply(s.files[k].record, None, retried);
            result == Ok(NoResult) && HandedOver(s, s', k, None, draws(p))
  {
    var p := ExhaustApply(s.files[k].record, None, retried);
    ExhaustLists(policy, s, k, retried, draws, s', result);
    IdleListing(s, k);
    ExhaustIdleActs(policy, s, k, retried, draws(p));
    EndsHere(policy, s, p, draws, Act(policy, s, p, draws(p)), s', result);
  }

  lemma ExhaustOpen(
    policy: Policy, s: Store, k: CaseKey, n: nat, retried: bool, draws: Draws, s': Store,
    result: Result<Answer, DispatchError>)
    requires s.Indexed() && LastOpenAt(s, k, n) && Ends(policy, s, ExhaustGet(k, retried), draws, s', result)
    requires !s.Logged(k.tenantId, DeliveryExhaustedKey(k.tenantId, k.caseId))
    ensures var p := ExhaustApply(s.files[k].record, Some(s.files[k].slots[n].attempt), retried);
            result == Ok(NoResult) && HandedOver(s, s', k, Some(n), draws(p))
  {
    var p := ExhaustApply(s.files[k].record, Some(s.files[k].slots[n].attempt), retried);
    ExhaustLists(policy, s, k, retried, draws, s', result);
    OpenListing(s, k, n);
    ExhaustOpenActs(policy, s, k, n, retried, draws(p));
    EndsHere(policy, s, p, draws, Act(policy, s, p, draws(p)), s', result);
  }

  /** A pass whose case was changed by somebody else starts over, if it was the first; the second fails. */
  lemma ExhaustOvertaken(
    policy: Policy, s: Store, record: DispatchCase, active: Option<CallAttempt>, retried: bool, draws: Draws,
    s': Store, result: Result<Answer, DispatchError>)
    requires s.Indexed() && record.Key() in s.files && s.files[record.Key()].record.version != record.version
    requires active.Some? ==> active.value.Key() in s.placed
    requires var k := record.Key(); !s.Logged(k.tenantId, DeliveryExhaustedKey(k.tenantId, k.caseId))
    requires Ends(policy, s, ExhaustApply(record, active, retried), draws, s', result)
    ensures if retried then s' == s && result == Err(Conflict(RepositoryConflict))
            else Ends(policy, s, ExhaustGet(record.Key(), true), draws, s', result)
  {
    var p := ExhaustApply(record, active, retried);
    OvertakenActs(policy, s, record, active, retried, draws(p));
    if retried {
      EndsHere(policy, s, p, draws, Act(policy, s, p, draws(p)), s', result);
    } else {
      EndsLater(policy, s, p, draws, Act(policy, s, p, draws(p)), s', result);
    }
  }

  lemma OvertakenActs(
    policy: Policy, s: Store, record: DispatchCase, active: Option<CallAttempt>, retried: bool, env: Env)
    requires s.Indexed() && record.Key() in s.files && s.files[record.Key()].record.version != record.version
    requires active.Some? ==> active.value.Key() in s.placed
    requires var k := record.Key(); !s.Logged(k.tenantId, DeliveryExhaustedKey(k.tenantId, k.caseId))
    ensures Act(policy, s, ExhaustApply(record, active, retried), env)
         == Move(s, if retried then Finished(Err(Conflict(RepositoryConflict))) else ExhaustGet(record.Key(), true))
  {
  }

  // ---------- authorization ----------

  /** The digest of what an authorization is for. */
  function PrintOf(request: AuthRequest): Fingerprint {
    Fingerprint(
      request.incident.tenantId, request.incident.incidentId, request.incident.confirmedReviewId,
      request.incident.incidentSourceId, request.incident.incidentExternalEventId, request.authorizedBy,
      request.template)
  }

  function ScopeOf(request: AuthRequest): IdempotencyScope {
    IdempotencyScope(request.incident.tenantId, request.idempotencyKey)
  }

  /** A request that is not confirmed, not authorized or not well formed. */
  lemma AuthorizeRefused(
    policy: Policy, s: Store, request: AuthRequest, draws: Draws, s': Store, result: Result<Answer, DispatchError>)
    requires s.Indexed() && Ends(policy, s, AuthFind(request), draws, s', result)
    requires !request.authorizeCall || !request.incident.confirmed || !request.wellFormed
    ensures s' == s
    ensures result
         == Err(if !request.authorizeCall || !request.incident.confirmed then NotAuthorized else ValidationError)
  {
    var p := AuthFind(request);
    EndsHere(policy, s, p, draws, Act(policy, s, p, draws(p)), s', result);
  }

  /** A request that passes the checks. */
  predicate Passes(request: AuthRequest) {
    request.authorizeCall && request.incident.confirmed && request.wellFormed
  }

  /** A key that was used: the same authorization gets its case, any other a conflict. */
  lemma AuthorizeAgain(
    policy: Policy, s: Store, request: AuthRequest, draws: Draws, s': Store, result: Result<Answer, DispatchError>)
    requires s.Indexed() && Ends(policy, s, AuthFind(request), draws, s', result)
    requires Passes(request) && ScopeOf(request) in s.idempotency
    ensures s' == s
    ensures var k := CaseKey(request.incident.tenantId, s.idempotency[ScopeOf(request)]);
            && k in s.files
            && result == (if s.files[k].record.identity.fingerprint == PrintOf(request)
                          then Ok(CaseAnswer(s.files[k].record)) else Err(IdempotencyConflict))
  {
    var p := AuthFind(request);
    assert ScopeOf(request) in s.idempotency;
    EndsHere(policy, s, p, draws, Act(policy, s, p, draws(p)), s', result);
  }

  /** The case as it is authorized: queued, due at once, and with the contacts that the directory gave. */
  function AuthorizedCase(policy: Policy, request: AuthRequest, contacts: Contacts, env: Env): DispatchCase {
    DispatchCase(
      CaseIdentity(
        env.freshId, request.incident.tenantId, request.incident.zoneId, contacts.primary, contacts.supervisor,
        request.incident.caseReference, request.incident.category, request.incident.broadLocationLabel,
        request.incident.occurredAt, PrintOf(request), KeyDigest(request.idempotencyKey), env.policyVersion,
        policy.retryDelay, env.now),
      DispatchStatus.Queued, env.now, Some(env.now), 0, None, None, 1)
  }

  predicate NowAuthorized(policy: Policy, s: Store, s': Store, request: AuthRequest, contacts: Contacts, env: Env) {
    var k := CaseKey(request.incident.tenantId, env.freshId);
    var event := NoteOf(k, None, EventKind.Authorized,
                        AuthorizedKey(request.incident.tenantId, request.idempotencyKey), None, env);
    s' == s.(
      files := s.files[k := CaseFile(AuthorizedCase(policy, request, contacts, env), [], [event])],
      idempotency := s.idempotency[ScopeOf(request) := env.freshId],
      dedupe := s.dedupe + {DedupeEntry(k.tenantId, event.key)})
  }

  /**
    A new key: without contacts, or with one person in both roles, nothing is
    authorized; a case identifier in use is a conflict; otherwise the case is
    stored and answered with.
  */
  lemma AuthorizeNew(
    policy: Policy, s: Store, request: AuthRequest, draws: Draws, s': Store, result: Result<Answer, DispatchError>)
    requires s.Indexed() && Ends(policy, s, AuthFind(request), draws, s', result)
    requires Passes(request) && ScopeOf(request) !in s.idempotency
    ensures var env := draws(AuthCreate(request));
            if env.contacts.None? then s' == s && result == Err(ContactUnavailable)
            else if env.contacts.value.primary == env.contacts.value.supervisor then
              s' == s && result == Err(ValidationError)
            else if CaseKey(request.incident.tenantId, env.freshId) in s.files then
              s' == s && result == Err(Conflict(RepositoryConflict))
            else
              && NowAuthorized(policy, s, s', request, env.contacts.value, env)
              && result == Ok(CaseAnswer(AuthorizedCase(policy, request, env.contacts.value, env)))
  {
    var p, q := AuthFind(request), AuthCreate(request);
    EndsLater(policy, s, p, draws, Move(s, q), s', result);
    EndsHere(policy, s, q, draws, Act(policy, s, q, draws(q)), s', result);
  }

  /** Two authorizations of one key at a time: the later one stores nothing and is answered like a repeated one. */
  lemma AuthorizeRaced(
    policy: Policy, s: Store, request: AuthRequest, draws: Draws, s': Store, result: Result<Answer, DispatchError>)
    requires s.Indexed() && Ends(policy, s, AuthCreate(request), draws, s', result)
    requires ScopeOf(request) in s.idempotency
    requires var contacts := draws(AuthCreate(request)).contacts;
             contacts.Some? && contacts.value.primary != contacts.value.supervisor
    ensures s' == s
    ensures var k := CaseKey(request.incident.tenantId, s.idempotency[ScopeOf(request)]);
            && k in s.files
            && result == (if s.files[k].record.identity.fingerprint == PrintOf(request)
                          then Ok(CaseAnswer(s.files[k].record)) else Err(IdempotencyConflict))
  {
    var p := AuthCreate(request);
    assert ScopeOf(request) in s.idempotency;
    EndsHere(policy, s, p, draws, Act(policy, s, p, draws(p)), s', result);
  }
}
