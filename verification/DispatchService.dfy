/**
  The coordinator's methods as code over the repository object
  (src/data/dispatch/service.py).  Run without interference, each leaves and
  answers exactly what its step program in DispatchCoordinator comes to.
*/
module DispatchService {
  import opened Wrappers
  import opened DispatchModels
  import opened DispatchStore
  import opened DispatchCoordinator
  import opened DispatchRepository
  import opened DispatchRefinement
  import opened DispatchSystem
  import opened DispatchAlone

  class DispatchService {
    const repository: InMemoryDispatchRepository
    const policy: Policy

    constructor (repository: InMemoryDispatchRepository, policy: Policy)
      ensures this.repository == repository && this.policy == policy
    {
      this.repository, this.policy := repository, policy;
    }

    /** The last attempt of a listing that has not ended. */
    method FindActive(attempts: seq<CallAttempt>) returns (active: Option<CallAttempt>)
      ensures active == Active(attempts)
    {
      active := None;
      ghost var found: nat := |attempts|;
      var i := 0;
      while i < |attempts|
        invariant i <= |attempts|
        invariant found == |attempts| || found < i <= |attempts|
        invariant active == if found < |attempts| then Some(attempts[found]) else None
        invariant found < |attempts| ==> !attempts[found].status.Terminal()
        invariant forall j :: 0 <= j < i && (found == |attempts| || found < j) ==> attempts[j].status.Terminal()
      {
        if !attempts[i].status.Terminal() {
          active := Some(attempts[i]);
          found := i;
        }
        i := i + 1;
      }
      LastOpenIs(attempts, found);
    }

    method Authorize(request: AuthRequest, draws: Draws) returns (result: Result<Answer, DispatchError>)
      requires repository.Valid()
      modifies repository
      ensures repository.Valid()
      ensures Ends(policy, old(repository.Snapshot()), AuthFind(request), draws, repository.Snapshot(), result)
    {
      ghost var s, p := repository.Snapshot(), AuthFind(request);
      if !request.Approved() {
        result := Err(NotAuthorized);
      } else if !request.wellFormed {
        result := Err(ValidationError);
      } else {
        var existing := repository.FindByIdempotency(request.incident.tenantId, request.idempotencyKey);
        if existing.None? {
          result := CreateAuthorized(request, draws);
          EndsAfter(policy, s, p, draws, ActAuthFind(s, request), repository.Snapshot(), result);
          return;
        }
        result := if existing.value.identity.fingerprint != request.Print() then Err(IdempotencyConflict)
        else Ok(CaseAnswer(existing.value));
      }
      EndsNext(policy, s, p, draws, ActAuthFind(s, request), result);
    }

    method CreateAuthorized(request: AuthRequest, draws: Draws) returns (result: Result<Answer, DispatchError>)
      requires repository.Valid()
      modifies repository
      ensures repository.Valid()
      ensures Ends(policy, old(repository.Snapshot()), AuthCreate(request), draws, repository.Snapshot(), result)
    {
      var env := draws(AuthCreate(request));
      ghost var s := repository.Snapshot();
      if env.contacts.None? {
        result := Err(ContactUnavailable);
      } else if env.contacts.value.primary == env.contacts.value.supervisor {
        result := Err(ValidationError);
      } else {
        var record := NewCase(request, env.contacts.value, env.policyVersion, policy.retryDelay, env);
        var event := EventFor(record, env.eventId, None, EventKind.Authorized, env.now,
                              AuthorizedKey(request.incident.tenantId, request.idempotencyKey), None);
        var created := repository.CreateCase(record, request.idempotencyKey, event);
        if created.Err? {
          result := Err(created.error);
        } else if created.value.record.identity.fingerprint != request.Print() {
          result := Err(IdempotencyConflict);
        } else {
          result := Ok(CaseAnswer(created.value.record));
        }
      }
      EndsNext(policy, s, AuthCreate(request), draws, ActAuthCreate(policy, s, request, env), result);
    }

    method Cancel(k: CaseKey, eventKey: Text, draws: Draws) returns (result: Result<Answer, DispatchError>)
      requires repository.Valid()
      modifies repository
      ensures repository.Valid()
      ensures Ends(policy, old(repository.Snapshot()), CancelGet(k, eventKey), draws, repository.Snapshot(), result)
    {
      ghost var s, p := repository.Snapshot(), CancelGet(k, eventKey);
      var got := repository.GetCase(k);
      if got.Err? || got.value.status.Terminal() {
        result := if got.Err? then Err(got.error) else Ok(CaseAnswer(got.value));
        EndsNext(policy, s, p, draws, ActCancelGet(s, k, eventKey), result);
        return;
      }
      result := CancelOpen(got.value, eventKey, draws);
      EndsAfter(policy, s, p, draws, ActCancelGet(s, k, eventKey), repository.Snapshot(), result);
    }

    /** Stops the call of the open attempt, if there is one, before the case is closed. */
    method CancelOpen(record: DispatchCase, eventKey: Text, draws: Draws)
      returns (result: Result<Answer, DispatchError>)
      requires repository.Valid()
      modifies repository
      ensures repository.Valid()
      ensures Ends(policy, old(repository.Snapshot()), CancelList(record, eventKey), draws,
                   repository.Snapshot(), result)
    {
      ghost var s, p := repository.Snapshot(), CancelList(record, eventKey);
      var listed := repository.ListAttempts(record.Key());
      if listed.Err? {
        result := Err(listed.error);
        EndsNext(policy, s, p, draws, ActCancelList(s, record, eventKey), result);
        return;
      }
      var active := FindActive(listed.value);
      if active.Some? && active.value.reference.Some? {
        if active.value.reference.value.Marked() {
          result := Err(Conflict(ActiveCallCancellationUnavailable));
          EndsNext(policy, s, p, draws, ActCancelList(s, record, eventKey), result);
          return;
        }
        result := CancelDialed(record, active.value, eventKey, draws);
      } else {
        result := ApplyCancel(record, active, eventKey, draws);
      }
      EndsAfter(policy, s, p, draws, ActCancelList(s, record, eventKey), repository.Snapshot(), result);
    }

    /** The provider must accept the cancellation before the case reports it. */
    method CancelDialed(record: DispatchCase, attempt: CallAttempt, eventKey: Text, draws: Draws)
      returns (result: Result<Answer, DispatchError>)
      requires repository.Valid() && attempt.reference.Some?
      modifies repository
      ensures repository.Valid()
      ensures Ends(policy, old(repository.Snapshot()), CancelCall(record, attempt, eventKey), draws,
                   repository.Snapshot(), result)
    {
      var env := draws(CancelCall(record, attempt, eventKey));
      ghost var s, p := repository.Snapshot(), CancelCall(record, attempt, eventKey);
      if !env.cancelAccepted {
        result := Err(ProviderUnavailable);
        EndsNext(policy, s, p, draws, ActCancelCall(s, record, attempt, eventKey, env), result);
        return;
      }
      result := ApplyCancel(record, Some(attempt), eventKey, draws);
      EndsAfter(policy, s, p, draws, ActCancelCall(s, record, attempt, eventKey, env), repository.Snapshot(), result);
    }

    method ApplyCancel(record: DispatchCase, active: Option<CallAttempt>, eventKey: Text, draws: Draws)
      returns (result: Result<Answer, DispatchError>)
      requires repository.Valid()
      modifies repository
      ensures repository.Valid()
      ensures Ends(policy, old(repository.Snapshot()), CancelApply(record, active, eventKey), draws,
                   repository.Snapshot(), result)
    {
      var env := draws(CancelApply(record, active, eventKey));
      ghost var s := repository.Snapshot();
      var record' := Close(record, DispatchStatus.Canceled, env.now);
      var event := CancelEvent(record, active, eventKey, env);
      var applied: Result<bool, DispatchError>;
      match active {
        case None => applied := repository.ApplyCaseTransition(record', event, record.version);
        case Some(attempt) =>
          applied := repository.ApplyTransition(
            record', CanceledAttempt(attempt, env.now), event, record.version, attempt.version);
      }
      result := if applied.Ok? then Ok(NoResult) else Err(applied.error);
      EndsNext(policy, s, CancelApply(record, active, eventKey), draws,
               ActCancelApply(s, record, active, eventKey, env), result);
    }

    /**
      Closes a case whose queue ran out of deliveries; a version conflict on the
      first pass starts over once.
    */
    method MarkDeliveryExhausted(k: CaseKey, draws: Draws) returns (result: Result<Answer, DispatchError>)
      requires repository.Valid()
      modifies repository
      ensures repository.Valid()
      ensures Ends(policy, old(repository.Snapshot()), ExhaustGet(k, false), draws, repository.Snapshot(), result)
    {
      ghost var s := repository.Snapshot();
      var key, retried, again := k, false, true;
      result := Ok(NoResult);
      while again
        invariant repository.Valid()
        invariant again ==> repository.Snapshot() == s
        invariant again ==> LeadsTo(policy, s, ExhaustGet(k, false), ExhaustGet(key, retried), draws)
        invariant !again ==> Ends(policy, s, ExhaustGet(k, false), draws, repository.Snapshot(), result)
        decreases again, !retried
      {
        ghost var p := ExhaustGet(key, retried);
        var got := repository.GetCase(key);
        if got.Err? || got.value.status.Terminal() {
          result := if got.Err? then Err(got.error) else Ok(CaseAnswer(got.value));
          EndsNext(policy, s, p, draws, ActExhaustGet(s, key, retried), result);
          return;
        }
        result, again := ExhaustOpen(got.value, retried, draws);
        if again {
          LeadsAfter(policy, s, p, ExhaustList(got.value, retried), ExhaustGet(got.value.Key(), true), draws);
          LeadsTogether(policy, s, ExhaustGet(k, false), p, ExhaustGet(got.value.Key(), true), draws);
          key, retried := got.value.Key(), true;
        } else {
          EndsAfter(policy, s, p, draws, ActExhaustGet(s, key, retried), repository.Snapshot(), result);
        }
      }
    }

    /** One pass; `again` says that it lost a race and the method starts over. */
    method ExhaustOpen(record: DispatchCase, retried: bool, draws: Draws)
      returns (result: Result<Answer, DispatchError>, again: bool)
      requires repository.Valid()
      modifies repository
      ensures repository.Valid()
      ensures again ==>
                && !retried && repository.Snapshot() == old(repository.Snapshot())
                && LeadsTo(policy, old(repository.Snapshot()), ExhaustList(record, retried),
                           ExhaustGet(record.Key(), true), draws)
      ensures !again ==>
                Ends(policy, old(repository.Snapshot()), ExhaustList(record, retried), draws,
                     repository.Snapshot(), result)
    {
      ghost var s, p := repository.Snapshot(), ExhaustList(record, retried);
      again := false;
      var listed := repository.ListAttempts(record.Key());
      if listed.Err? {
        result := Err(listed.error);
        EndsNext(policy, s, p, draws, ActExhaustList(s, record, retried), result);
        return;
      }
      var active := FindActive(listed.value);
      result, again := ApplyExhausted(record, active, retried, draws);
      if again {
        LeadsAfter(policy, s, p, ExhaustApply(record, active, retried), ExhaustGet(record.Key(), true), draws);
      } else {
        EndsAfter(policy, s, p, draws, ActExhaustList(s, record, retried), repository.Snapshot(), result);
      }
    }

    method ApplyExhausted(record: DispatchCase, active: Option<CallAttempt>, retried: bool, draws: Draws)
      returns (result: Result<Answer, DispatchError>, again: bool)
      requires repository.Valid()
      modifies repository
      ensures repository.Valid()
      ensures again ==>
                && !retried && repository.Snapshot() == old(repository.Snapshot())
                && LeadsTo(policy, old(repository.Snapshot()), ExhaustApply(record, active, retried),
                           ExhaustGet(record.Key(), true), draws)
      ensures !again ==>
                Ends(policy, old(repository.Snapshot()), ExhaustApply(record, active, retried), draws,
                     repository.Snapshot(), result)
    {
      var env := draws(ExhaustApply(record, active, retried));
      ghost var s, p := repository.Snapshot(), ExhaustApply(record, active, retried);
      var record' := Close(record, DispatchStatus.ManualFollowUp, env.now);
      var event := ExhaustEvent(record, active, env);
      var applied: Result<bool, DispatchError>;
      match active {
        case None => applied := repository.ApplyCaseTransition(record', event, record.version);
        case Some(attempt) =>
          applied := repository.ApplyTransition(
            record', ExhaustedAttempt(attempt, env.now), event, record.version, attempt.version);
      }
      result := if applied.Ok? then Ok(NoResult) else Err(applied.error);
      again := applied == Err(Conflict(RepositoryConflict)) && !retried;
      if again {
        LeadsDirectly(policy, s, p, ExhaustGet(record.Key(), true), draws);
      } else {
        EndsNext(policy, s, p, draws, ActExhaustApply(s, record, active, retried, env), result);
      }
    }

    /** One provider callback: find and if need be bind its attempt, then handle it. */
    method HandleCallback(token: Token, reference: Reference, action: CallbackAction, draws: Draws)
      returns (result: Result<Answer, DispatchError>)
      requires repository.Valid()
      modifies repository
      ensures repository.Valid()
      ensures Ends(policy, old(repository.Snapshot()), CallbackResolve(token, reference, action), draws,
                   repository.Snapshot(), result)
    {
      ghost var s, p := repository.Snapshot(), CallbackResolve(token, reference, action);
      ghost var move := ActCallbackResolve(s, token, reference, action);
      var resolved := repository.ResolveCallback(token);
      if resolved.Err? {
        result := Err(resolved.error);
        EndsNext(policy, s, p, draws, move, result);
        return;
      }
      var stored := resolved.value.attempt.reference;
      if reference.Blank() || (stored.Some? && !stored.value.Matches(reference)) {
        result := Err(CallMismatch);
        EndsNext(policy, s, p, draws, move, result);
        return;
      }
      if stored.Some? {
        result := ApplyCallback(reference, action, resolved.value, draws);
      } else {
        result := BindAndApply(token, reference, action, resolved.value, draws);
      }
      EndsAfter(policy, s, p, draws, move, repository.Snapshot(), result);
    }

    method BindAndApply(
      token: Token, reference: Reference, action: CallbackAction, located: Located, draws: Draws)
      returns (result: Result<Answer, DispatchError>)
      requires repository.Valid()
      modifies repository
      ensures repository.Valid()
      ensures Ends(policy, old(repository.Snapshot()), CallbackBind(token, reference, action, located), draws,
                   repository.Snapshot(), result)
    {
      var env := draws(CallbackBind(token, reference, action, located));
      ghost var s, p := repository.Snapshot(), CallbackBind(token, reference, action, located);
      ghost var move := ActCallbackBind(s, token, reference, action, located, env);
      var bound := repository.BindProviderCallback(token, reference, env.now, BindEvent(located, env));
      if bound.Err? {
        result := Err(bound.error);
        EndsNext(policy, s, p, draws, move, result);
        return;
      }
      result := ApplyCallback(reference, action, bound.value, draws);
      EndsAfter(policy, s, p, draws, move, repository.Snapshot(), result);
    }

    method ApplyCallback(reference: Reference, action: CallbackAction, located: Located, draws: Draws)
      returns (result: Result<Answer, DispatchError>)
      requires repository.Valid()
      modifies repository
      ensures repository.Valid()
      ensures Ends(policy, old(repository.Snapshot()), CallbackApply(reference, action, located), draws,
                   repository.Snapshot(), result)
    {
      var env := draws(CallbackApply(reference, action, located));
      ghost var s := repository.Snapshot();
      var record, attempt := located.record, located.attempt;
      match Handle(policy, record, attempt, reference, action, env) {
        case Append(event) =>
          var appended := repository.AppendEvent(event);
          result := if appended.Ok? then Ok(NoResult) else Err(appended.error);
        case Change(plan) =>
          var applied := repository.ApplyTransition(
            plan.record, plan.attempt, plan.event, record.version, attempt.version);
          result := if applied.Ok? then Ok(NoResult) else Err(applied.error);
        case Nothing =>
          if action.Returned? {
            result := Ok(AttemptAnswer(attempt));
          } else if record.status.Terminal() {
            result := Err(Conflict(CaseTerminal));
          } else {
            result := Ok(CaseAnswer(record));
          }
      }
      EndsNext(policy, s, CallbackApply(reference, action, located), draws,
               ActCallbackApply(policy, s, reference, action, located, env), result);
    }

    /** Reserves the next attempt of a case, claims its submission and places the call. */
    method DispatchNext(k: CaseKey, draws: Draws) returns (result: Result<Answer, DispatchError>)
      requires Sound(policy, repository.Snapshot())
      modifies repository
      ensures repository.Valid()
      ensures Ends(policy, old(repository.Snapshot()), DispatchGet(k), draws, repository.Snapshot(), result)
    {
      ghost var s := repository.Snapshot();
      var got := repository.GetCase(k);
      if got.Err? || got.value.status.Terminal() {
        result := if got.Err? then Err(got.error) else Ok(NoResult);
        EndsNext(policy, s, DispatchGet(k), draws, ActDispatchGet(s, k), result);
        return;
      }
      result := ReserveAndClaim(k, draws);
      EndsAfter(policy, s, DispatchGet(k), draws, ActDispatchGet(s, k), repository.Snapshot(), result);
    }

    method ReserveAndClaim(k: CaseKey, draws: Draws) returns (result: Result<Answer, DispatchError>)
      requires Sound(policy, repository.Snapshot())
      modifies repository
      ensures repository.Valid()
      ensures Ends(policy, old(repository.Snapshot()), DispatchReserve(k), draws, repository.Snapshot(), result)
    {
      var env := draws(DispatchReserve(k));
      ghost var s, move := repository.Snapshot(), ActDispatchReserve(repository.Snapshot(), k, env);
      SoundActs(policy, s, DispatchReserve(k), draws, move);
      var reserved := repository.ReserveNextAttempt(k, env.freshId, env.token, env.now, ReserveEvent(k, env));
      if reserved.Err? || !reserved.value.attempt.status.AwaitingProvider() {
        result := if reserved.Err? then Err(reserved.error)
        else if reserved.value.attempt.status.InProgress() then Ok(AttemptAnswer(reserved.value.attempt))
        else Err(Conflict(StateConflict));
        EndsNext(policy, s, DispatchReserve(k), draws, move, result);
        return;
      }
      result := ClaimAndPlace(k, reserved.value.attempt, env.now, draws);
      EndsAfter(policy, s, DispatchReserve(k), draws, move, repository.Snapshot(), result);
    }

    method ClaimAndPlace(k: CaseKey, attempt: CallAttempt, now: Time, draws: Draws)
      returns (result: Result<Answer, DispatchError>)
      requires Sound(policy, repository.Snapshot())
      requires ProgramOk(repository.Snapshot(), DispatchClaim(k, attempt, now))
      modifies repository
      ensures repository.Valid()
      ensures Ends(policy, old(repository.Snapshot()), DispatchClaim(k, attempt, now), draws,
                   repository.Snapshot(), result)
    {
      ghost var env := draws(DispatchClaim(k, attempt, now));
      ghost var s, p := repository.Snapshot(), DispatchClaim(k, attempt, now);
      ghost var move := ActDispatchClaim(policy, s, k, attempt, now, env);
      SoundActs(policy, s, p, draws, move);
      PlaceKeeps(policy, move.store, move.next);
      var next := ClaimSubmission(k, attempt, now, draws);
      result := Claimed(next, draws);
      EndsAfter(policy, s, p, draws, move, repository.Snapshot(), result);
    }

    /** Goes on after the claim: expire an old one, place the call, or stop. */
    method Claimed(next: Program, draws: Draws) returns (result: Result<Answer, DispatchError>)
      requires Runnable(repository.Snapshot(), next)
      requires next.DispatchExpire? || next.Finished?
            || (next.DispatchPlace? && repository.Snapshot().Keeps(next.attempt))
      modifies repository
      ensures repository.Valid()
      ensures Ends(policy, old(repository.Snapshot()), next, draws, repository.Snapshot(), result)
    {
      match next {
        case DispatchExpire(record, attempt, now) => result := Expire(record, attempt, now, draws);
        case DispatchPlace(record, attempt, claim, now) => result := PlaceCall(record, attempt, claim, now, draws);
        case Finished(answer) =>
          result := answer;
          Ended(policy, repository.Snapshot(), draws, result);
      }
    }

    /** Claims the attempt's submission, and says how the dispatch goes on. */
    method ClaimSubmission(k: CaseKey, attempt: CallAttempt, now: Time, draws: Draws) returns (next: Program)
      requires repository.Valid()
      modifies repository
      ensures repository.Valid()
      ensures next.DispatchExpire? || next.DispatchPlace? || next.Finished?
      ensures next.DispatchExpire? || next.DispatchPlace? ==> next.now == now
      ensures var move := ActDispatchClaim(policy, old(repository.Snapshot()), k, attempt, now,
                                           draws(DispatchClaim(k, attempt, now)));
              move.store == repository.Snapshot() && move.next == next
    {
      var env := draws(DispatchClaim(k, attempt, now));
      if !env.contactReady {
        return Finished(Err(ContactUnavailable));
      }
      var claimed := repository.ClaimProviderSubmission(
        k, attempt.identity.attemptId, env.claimToken, now, now + policy.submissionTimeout);
      if claimed.Err? {
        return Finished(Err(claimed.error));
      }
      var claim := claimed.value;
      if claim.record.status.Terminal() {
        return Finished(Ok(NoResult));
      }
      if claim.stale {
        return DispatchExpire(claim.record, claim.attempt, now);
      }
      if !claim.acquired {
        if claim.retryAt.Some? {
          return Finished(Err(RetryNotDue));
        }
        if claim.attempt.status.InProgress() {
          return Finished(Ok(AttemptAnswer(claim.attempt)));
        }
        return Finished(Err(Conflict(ClaimUnavailable)));
      }
      next := DispatchPlace(claim.record, claim.attempt, env.claimToken, now);
    }

    /** An expired claim: the outcome of its call is uncertain. */
    method Expire(record: DispatchCase, attempt: CallAttempt, now: Time, draws: Draws)
      returns (result: Result<Answer, DispatchError>)
      requires repository.Valid() && repository.Snapshot().Keeps(attempt)
      modifies repository
      ensures repository.Valid()
      ensures Ends(policy, old(repository.Snapshot()), DispatchExpire(record, attempt, now), draws,
                   repository.Snapshot(), result)
    {
      var env := draws(DispatchExpire(record, attempt, now));
      ghost var s := repository.Snapshot();
      var plan := MarkSubmissionUncertain(record, attempt, now, ClaimExpired, env.eventId);
      var expired := repository.ExpireProviderSubmission(
        plan.record, plan.attempt, plan.event, now, record.version, attempt.version);
      result := if expired.Ok? then Ok(NoResult) else Err(expired.error);
      EndsNext(policy, s, DispatchExpire(record, attempt, now), draws,
               ActDispatchExpire(s, record, attempt, now, env), result);
    }

    /** The provider call, and what its three kinds of outcome lead to. */
    method PlaceCall(record: DispatchCase, attempt: CallAttempt, claim: ClaimToken, now: Time, draws: Draws)
      returns (result: Result<Answer, DispatchError>)
      requires repository.Valid() && repository.Snapshot().Keeps(attempt)
      modifies repository
      ensures repository.Valid()
      ensures Ends(policy, old(repository.Snapshot()), DispatchPlace(record, attempt, claim, now), draws,
                   repository.Snapshot(), result)
    {
      var env := draws(DispatchPlace(record, attempt, claim, now));
      ghost var s := repository.Snapshot();
      match env.provider {
        case Placed(reference) =>
          result := HandleCallback(attempt.identity.callbackToken, reference, Returned, draws);
        case Unsure => result := RecordUncertain(record, attempt, claim, now, draws);
        case Refused(code) => result := RecordRefusal(record, attempt, claim, now, code, draws);
      }
      EndsAfter(policy, s, DispatchPlace(record, attempt, claim, now), draws,
                ActDispatchPlace(s, record, attempt, claim, now, env), repository.Snapshot(), result);
    }

    method RecordUncertain(record: DispatchCase, attempt: CallAttempt, claim: ClaimToken, now: Time, draws: Draws)
      returns (result: Result<Answer, DispatchError>)
      requires repository.Valid() && repository.Snapshot().Keeps(attempt)
      modifies repository
      ensures repository.Valid()
      ensures Ends(policy, old(repository.Snapshot()), DispatchUncertain(record, attempt, claim, now), draws,
                   repository.Snapshot(), result)
    {
      var env := draws(DispatchUncertain(record, attempt, claim, now));
      ghost var s := repository.Snapshot();
      var plan := MarkSubmissionUncertain(record, attempt, now, SubmissionUncertain, env.eventId);
      var finished := repository.FinishProviderSubmission(
        plan.record, plan.attempt, plan.event, claim, UncertainOutcome, record.version, attempt.version);
      result := if finished.Ok? then Ok(NoResult) else Err(finished.error);
      EndsNext(policy, s, DispatchUncertain(record, attempt, claim, now), draws,
               ActDispatchUncertain(s, record, attempt, claim, now, env), result);
    }

    method RecordRefusal(
      record: DispatchCase, attempt: CallAttempt, claim: ClaimToken, now: Time, code: Code, draws: Draws)
      returns (result: Result<Answer, DispatchError>)
      requires repository.Valid() && repository.Snapshot().Keeps(attempt)
      modifies repository
      ensures repository.Valid()
      ensures Ends(policy, old(repository.Snapshot()), DispatchRefused(record, attempt, claim, now, code), draws,
                   repository.Snapshot(), result)
    {
      var env := draws(DispatchRefused(record, attempt, claim, now, code));
      ghost var s := repository.Snapshot();
      var plan := MarkProviderRetry(record, attempt, now, code, env.eventId);
      var finished := repository.FinishProviderSubmission(
        plan.record, plan.attempt, plan.event, claim, RetryableFailure, record.version, attempt.version);
      result := if finished.Ok? then Err(ProviderUnavailable) else Err(finished.error);
      EndsNext(policy, s, DispatchRefused(record, attempt, claim, now, code), draws,
               ActDispatchRefused(s, record, attempt, claim, now, code, env), result);
    }
  }
}
