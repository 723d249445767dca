/**
  What a dispatch leaves behind when nobody interferes, field by field: which
  attempt it reserves, when it finds a claim expired, and what each answer of the
  provider leads to.
*/
module DispatchOutcomes {
  import opened Wrappers
  import opened DispatchModels
  import opened DispatchStore
  import opened DispatchCoordinator
  import opened CaseAutomaton
  import opened DispatchRefinement
  import opened DispatchAlone
  import opened CallbackOutcomes

  /** The attempt at position n is the last of an open case, filed where it belongs. */
  predicate Seated(s: Store, k: CaseKey, n: nat) {
    && k in s.files && |s.files[k].slots| == n + 1 && n < 3
    && !s.files[k].record.status.Terminal()
    && s.files[k].record.Key() == k && Filed(s, k, n)
    && s.files[k].slots[n].attempt.identity.sequence == n + 1
  }

  lemma SoundSeated(policy: Policy, s: Store, k: CaseKey, n: nat)
    requires Sound(policy, s) && k in s.files && |s.files[k].slots| == n + 1
    requires !s.files[k].record.status.Terminal()
    ensures Seated(s, k, n)
  {
    assert Ladder(policy, s.files[k]);
    assert Rung(s.files[k].record, n, s.files[k].slots[n].attempt);
  }

  /** The last attempt has this state and waits for the provider. */
  predicate Awaits(s: Store, k: CaseKey, n: nat, state: SubmissionState) {
    && Seated(s, k, n) && s.files[k].slots[n].submission.state == state
    && s.files[k].slots[n].attempt.status.AwaitingProvider()
  }

  /** In an open case a claimed submission belongs to the last attempt, and has a deadline. */
  lemma ClaimedAwaits(policy: Policy, s: Store, k: CaseKey, n: nat)
    requires Sound(policy, s) && k in s.files && n < |s.files[k].slots|
    requires !s.files[k].record.status.Terminal() && s.files[k].slots[n].submission.state.Claimed?
    ensures Awaits(s, k, n, Claimed) && s.files[k].slots[n].submission.deadline.Some?
  {
    assert Ladder(policy, s.files[k]);
    ClaimedIsLast(policy, s.files[k], n);
    assert Coherent(s.files[k].slots[n]);
    SoundSeated(policy, s, k, n);
  }

  /** The point at which a dispatch has found or reserved the attempt at position n. */
  function DialAt(s: Store, k: CaseKey, n: nat, now: Time): Program
    requires k in s.files && n < |s.files[k].slots|
  {
    DispatchClaim(k, s.files[k].slots[n].attempt, now)
  }

  // ---------- finding the attempt ----------

  /** A case that is not there, or closed. */
  lemma AbsentOutcome(
    policy: Policy, s: Store, k: CaseKey, draws: Draws, s': Store, result: Result<Answer, DispatchError>)
    requires Sound(policy, s) && Ends(policy, s, DispatchGet(k), draws, s', result)
    requires k !in s.files || s.files[k].record.status.Terminal()
    ensures s' == s && result == if k in s.files then Ok(NoResult) else Err(ResourceNotFound)
  {
    EndsHere(policy, s, DispatchGet(k), draws, Act(policy, s, DispatchGet(k), draws(DispatchGet(k))), s', result);
  }

  lemma GetActs(policy: Policy, s: Store, k: CaseKey, env: Env)
    requires s.Indexed() && k in s.files && !s.files[k].record.status.Terminal()
    ensures Act(policy, s, DispatchGet(k), env) == Move(s, DispatchReserve(k))
  {
  }

  lemma FindActs(policy: Policy, s: Store, k: CaseKey, n: nat, env: Env)
    requires s.Indexed() && Seated(s, k, n) && s.files[k].slots[n].attempt.status.AwaitingProvider()
    ensures Act(policy, s, DispatchReserve(k), env) == Move(s, DialAt(s, k, n, env.now))
  {
    assert AttemptsOf(s.files[k].slots)[n] == s.files[k].slots[n].attempt;
  }

  /** A dispatch goes on with an attempt that waits for the provider. */
  lemma FindOutcome(
    policy: Policy, s: Store, k: CaseKey, n: nat, draws: Draws, s': Store, result: Result<Answer, DispatchError>)
    requires s.Indexed() && Seated(s, k, n) && s.files[k].slots[n].attempt.status.AwaitingProvider()
    requires Ends(policy, s, DispatchGet(k), draws, s', result)
    ensures Ends(policy, s, DialAt(s, k, n, draws(DispatchReserve(k)).now), draws, s', result)
  {
    var env := draws(DispatchReserve(k));
    GetActs(policy, s, k, draws(DispatchGet(k)));
    EndsLater(policy, s, DispatchGet(k), draws, Move(s, DispatchReserve(k)), s', result);
    FindActs(policy, s, k, n, env);
    EndsLater(policy, s, DispatchReserve(k), draws, Move(s, DialAt(s, k, n, env.now)), s', result);
  }

  /** A dispatch answers with a call in progress. */
  lemma TalkingOutcome(
    policy: Policy, s: Store, k: CaseKey, n: nat, draws: Draws, s': Store, result: Result<Answer, DispatchError>)
    requires s.Indexed() && Seated(s, k, n) && s.files[k].slots[n].attempt.status.InProgress()
    requires Ends(policy, s, DispatchGet(k), draws, s', result)
    ensures s' == s && result == Ok(AttemptAnswer(s.files[k].slots[n].attempt))
  {
    var p := DispatchReserve(k);
    assert AttemptsOf(s.files[k].slots)[n] == s.files[k].slots[n].attempt;
    GetActs(policy, s, k, draws(DispatchGet(k)));
    EndsLater(policy, s, DispatchGet(k), draws, Move(s, p), s', result);
    EndsHere(policy, s, p, draws, Act(policy, s, p, draws(p)), s', result);
  }

  // ---------- a claim that is there ----------

  /** An open claim is stale exactly when its deadline has come. */
  lemma StaleExactly(
    policy: Policy, s: Store, k: CaseKey, n: nat, token: ClaimToken, now: Time, deadline: Time)
    requires Sound(policy, s) && k in s.files && n < |s.files[k].slots|
    requires !s.files[k].record.status.Terminal() && s.files[k].slots[n].submission.state.Claimed?
    requires token.Some? && now < deadline
    ensures s.files[k].slots[n].submission.deadline.Some?
    ensures var record, slot := s.files[k].record, s.files[k].slots[n];
            ClaimProviderSubmission(s, k, slot.attempt.identity.attemptId, token, now, deadline)
            == Reply(s, Ok(Claim(record, slot.attempt, false, slot.submission.deadline.value <= now,
                                 slot.submission.deadline)))
  {
    ClaimedAwaits(policy, s, k, n);
    ClaimAnswers(s, k, n, token, now, deadline);
  }

  lemma ClaimAnswers(s: Store, k: CaseKey, n: nat, token: ClaimToken, now: Time, deadline: Time)
    requires s.Indexed() && Awaits(s, k, n, Claimed) && s.files[k].slots[n].submission.deadline.Some?
    requires token.Some? && now < deadline
    ensures var record, slot := s.files[k].record, s.files[k].slots[n];
            ClaimProviderSubmission(s, k, slot.attempt.identity.attemptId, token, now, deadline)
            == Reply(s, Ok(Claim(record, slot.attempt, false, slot.submission.deadline.value <= now,
                                 slot.submission.deadline)))
  {
  }

  /** The directory is ready, the claim has a token and lives for a while. */
  predicate Able(policy: Policy, env: Env) {
    env.contactReady && env.claimToken.Some? && policy.submissionTimeout > 0
  }

  /** The case handed to a person because nobody knows whether the provider was called. */
  predicate GivenUp(
    s: Store, s': Store, k: CaseKey, n: nat, at: Time, code: Code, event: DispatchEvent)
  {
    && k in s.files && n < |s.files[k].slots|
    && (var record, slot := s.files[k].record, s.files[k].slots[n];
        var attempt := slot.attempt;
        && About(event, s, k, n, EventKind.ManualFollowUp, at, UncertainKey(attempt.identity.attemptId),
                 Some(Coded(code)))
        && Becomes(
             s, s', k,
             record.(
               status := DispatchStatus.ManualFollowUp, nextAttemptAt := None,
               finalOutcome := Some(DispatchStatus.ManualFollowUp), closedAt := Some(at), updatedAt := at,
               version := record.version + 1),
             s.files[k].slots[
               n := Slot(
                 attempt.(
                   status := AttemptStatus.ManualFollowUp, outcome := Some(CallbackRequested),
                   completedAt := Some(at), nextActionAt := None, safeErrorCode := Some(code), updatedAt := at,
                   version := attempt.version + 1),
                 slot.submission.(state := Uncertain, completedAt := Some(at)))],
             event))
  }

  /** The event that a submission's outcome is uncertain. */
  function UncertainEvent(s: Store, k: CaseKey, n: nat, at: Time, code: Code, env: Env): DispatchEvent
    requires k in s.files && n < |s.files[k].slots|
  {
    DispatchEvent(env.eventId, k.tenantId, k.caseId, Some(s.files[k].slots[n].attempt.identity.attemptId),
                  EventKind.ManualFollowUp, at, UncertainKey(s.files[k].slots[n].attempt.identity.attemptId),
                  Some(Coded(code)))
  }

  /** The point at which a dispatch has found a claim expired. */
  function ExpiredAt(s: Store, k: CaseKey, n: nat, now: Time): Program
    requires k in s.files && n < |s.files[k].slots|
  {
    DispatchExpire(s.files[k].record, s.files[k].slots[n].attempt, now)
  }

  lemma ClaimedActs(policy: Policy, s: Store, k: CaseKey, n: nat, now: Time, env: Env)
    requires s.Indexed() && Awaits(s, k, n, Claimed) && s.files[k].slots[n].submission.deadline.Some?
    requires Able(policy, env)
    ensures Act(policy, s, DialAt(s, k, n, now), env)
         == if s.files[k].slots[n].submission.deadline.value <= now then Move(s, ExpiredAt(s, k, n, now))
            else Move(s, Finished(Err(RetryNotDue)))
  {
    ClaimAnswers(s, k, n, env.claimToken, now, now + policy.submissionTimeout);
  }

  lemma ExpireActs(policy: Policy, s: Store, k: CaseKey, n: nat, now: Time, env: Env)
    requires s.Indexed() && Awaits(s, k, n, Claimed)
    requires s.files[k].slots[n].submission.deadline.Some? && s.files[k].slots[n].submission.deadline.value <= now
    requires !s.Logged(k.tenantId, UncertainKey(s.files[k].slots[n].attempt.identity.attemptId))
    ensures Runnable(s, ExpiredAt(s, k, n, now))
    ensures var move := Act(policy, s, ExpiredAt(s, k, n, now), env);
            && move.next == Finished(Ok(NoResult))
            && GivenUp(s, move.store, k, n, now, ClaimExpired, UncertainEvent(s, k, n, now, ClaimExpired, env))
  {
  }

  /**
    A dispatch that finds the call of an open case claimed: from the deadline on
    it hands the case to a person, with the submission uncertain, and answers
    with nothing; before, it is told to come back and changes nothing.
  */
  lemma ClaimedOutcome(
    policy: Policy, s: Store, k: CaseKey, n: nat, draws: Draws, s': Store, result: Result<Answer, DispatchError>)
    requires Sound(policy, s) && Ends(policy, s, DispatchGet(k), draws, s', result)
    requires k in s.files && n < |s.files[k].slots| && !s.files[k].record.status.Terminal()
    requires s.files[k].slots[n].submission.state.Claimed?
    requires Able(policy, draws(DialAt(s, k, n, draws(DispatchReserve(k)).now)))
    requires !s.Logged(k.tenantId, UncertainKey(s.files[k].slots[n].attempt.identity.attemptId))
    ensures var now, deadline := draws(DispatchReserve(k)).now, s.files[k].slots[n].submission.deadline;
            && deadline.Some?
            && (if deadline.value <= now then
                  && result == Ok(NoResult)
                  && GivenUp(s, s', k, n, now, ClaimExpired,
                             UncertainEvent(s, k, n, now, ClaimExpired, draws(ExpiredAt(s, k, n, now))))
                else s' == s && result == Err(RetryNotDue))
  {
    var now := draws(DispatchReserve(k)).now;
    var p, q := DialAt(s, k, n, now), ExpiredAt(s, k, n, now);
    ClaimedAwaits(policy, s, k, n);
    FindOutcome(policy, s, k, n, draws, s', result);
    ClaimedActs(policy, s, k, n, now, draws(p));
    if s.files[k].slots[n].submission.deadline.value <= now {
      EndsLater(policy, s, p, draws, Move(s, q), s', result);
      ExpireActs(policy, s, k, n, now, draws(q));
      EndsHere(policy, s, q, draws, Act(policy, s, q, draws(q)), s', result);
    } else {
      EndsHere(policy, s, p, draws, Move(s, Finished(Err(RetryNotDue))), s', result);
    }
  }

  // ---------- a new claim ----------

  /** The call of the attempt at position n is claimed until the deadline. */
  predicate NowClaimed(s: Store, s': Store, k: CaseKey, n: nat, token: Token, now: Time, deadline: Time) {
    && k in s.files && n < |s.files[k].slots|
    && (var record, attempt := s.files[k].record, s.files[k].slots[n].attempt;
        s' == s.(files := s.files[
                   k := CaseFile(
                     record.(nextAttemptAt := Some(deadline), updatedAt := now, version := record.version + 1),
                     s.files[k].slots[
                       n := Slot(
                         attempt.(updatedAt := now, version := attempt.version + 1),
                         Submission(Claimed, Some(ClaimDigest(Some(token))), Some(now), Some(deadline), None))],
                     s.files[k].log)]))
  }

  /**
    A dispatch that finds the call already submitted, or the case closed, when it
    comes to claim it, because somebody else was faster: it answers with the call
    if that is in progress, and changes nothing.
  */
  lemma OvertakenOutcome(
    policy: Policy, s: Store, k: CaseKey, n: nat, attempt: CallAttempt, now: Time, draws: Draws, s': Store,
    result: Result<Answer, DispatchError>)
    requires s.Indexed() && k in s.files && n < |s.files[k].slots| && Filed(s, k, n)
    requires attempt.identity == s.files[k].slots[n].attempt.identity
    requires var submission := s.files[k].slots[n].submission;
             s.files[k].record.status.Terminal() || submission.state.Submitted? || submission.state.Uncertain?
    requires Ends(policy, s, DispatchClaim(k, attempt, now), draws, s', result)
    requires Able(policy, draws(DispatchClaim(k, attempt, now)))
    ensures s' == s
    ensures var current := s.files[k].slots[n].attempt;
            result
            == if s.files[k].record.status.Terminal() then Ok(NoResult)
               else if current.status.Initiated? || current.status.Ringing? || current.status.Answered? then
                 Ok(AttemptAnswer(current))
               else Err(Conflict(ClaimUnavailable))
  {
    var p := DispatchClaim(k, attempt, now);
    EndsHere(policy, s, p, draws, Act(policy, s, p, draws(p)), s', result);
  }

  /** The point at which a dispatch is about to place the call. */
  function PlaceAt(s: Store, k: CaseKey, n: nat, token: ClaimToken, now: Time): Program
    requires k in s.files && n < |s.files[k].slots|
  {
    DispatchPlace(s.files[k].record, s.files[k].slots[n].attempt, token, now)
  }

  lemma PendingActs(policy: Policy, s: Store, k: CaseKey, n: nat, now: Time, env: Env)
    requires s.Indexed() && Awaits(s, k, n, Pending) && Able(policy, env)
    ensures var move, next := Act(policy, s, DialAt(s, k, n, now), env), s.files[k].record.nextAttemptAt;
            if next.Some? && now < next.value then move == Move(s, Finished(Err(RetryNotDue)))
            else
              && NowClaimed(s, move.store, k, n, env.claimToken.value, now, now + policy.submissionTimeout)
              && k in move.store.files && n < |move.store.files[k].slots|
              && move.next == PlaceAt(move.store, k, n, env.claimToken, now)
  {
  }

  /** A contact that is not available keeps the call from being claimed. */
  lemma UnreadyOutcome(
    policy: Policy, s: Store, k: CaseKey, n: nat, draws: Draws, s': Store, result: Result<Answer, DispatchError>)
    requires s.Indexed() && Seated(s, k, n) && s.files[k].slots[n].attempt.status.AwaitingProvider()
    requires Ends(policy, s, DispatchGet(k), draws, s', result)
    requires !draws(DialAt(s, k, n, draws(DispatchReserve(k)).now)).contactReady
    ensures s' == s && result == Err(ContactUnavailable)
  {
    var p := DialAt(s, k, n, draws(DispatchReserve(k)).now);
    FindOutcome(policy, s, k, n, draws, s', result);
    EndsHere(policy, s, p, draws, Act(policy, s, p, draws(p)), s', result);
  }

  /**
    A dispatch that has found a call to be placed: before its time it is told to
    come back; from then on it claims the call and goes on to place it.
  */
  lemma PendingEnds(
    policy: Policy, s: Store, k: CaseKey, n: nat, now: Time, draws: Draws, s': Store,
    result: Result<Answer, DispatchError>) returns (s1: Store)
    requires s.Indexed() && Awaits(s, k, n, Pending)
    requires Ends(policy, s, DialAt(s, k, n, now), draws, s', result) && Able(policy, draws(DialAt(s, k, n, now)))
    ensures var next, token := s.files[k].record.nextAttemptAt, draws(DialAt(s, k, n, now)).claimToken;
            if next.Some? && now < next.value then s' == s && result == Err(RetryNotDue)
            else
              && NowClaimed(s, s1, k, n, token.value, now, now + policy.submissionTimeout)
              && k in s1.files && n < |s1.files[k].slots|
              && Ends(policy, s1, PlaceAt(s1, k, n, token, now), draws, s', result)
  {
    var p := DialAt(s, k, n, now);
    var move := Act(policy, s, p, draws(p));
    PendingActs(policy, s, k, n, now, draws(p));
    s1 := move.store;
    if move.next.Finished? {
      EndsHere(policy, s, p, draws, move, s', result);
    } else {
      EndsLater(policy, s, p, draws, move, s', result);
    }
  }

  /** A dispatch of a case whose last attempt waits for its call to be placed. */
  lemma PendingOutcome(
    policy: Policy, s: Store, k: CaseKey, n: nat, draws: Draws, s': Store, result: Result<Answer, DispatchError>)
    returns (s1: Store)
    requires s.Indexed() && Awaits(s, k, n, Pending)
    requires Ends(policy, s, DispatchGet(k), draws, s', result)
    requires Able(policy, draws(DialAt(s, k, n, draws(DispatchReserve(k)).now)))
    ensures var now, next := draws(DispatchReserve(k)).now, s.files[k].record.nextAttemptAt;
            var token := draws(DialAt(s, k, n, now)).claimToken;
            if next.Some? && now < next.value then s' == s && result == Err(RetryNotDue)
            else
              && NowClaimed(s, s1, k, n, token.value, now, now + policy.submissionTimeout)
              && k in s1.files && n < |s1.files[k].slots|
              && Ends(policy, s1, PlaceAt(s1, k, n, token, now), draws, s', result)
  {
    FindOutcome(policy, s, k, n, draws, s', result);
    s1 := PendingEnds(policy, s, k, n, draws(DispatchReserve(k)).now, draws, s', result);
  }

  // ---------- the provider's answer ----------

  /** The call is claimed under this token. */
  predicate ClaimedUnder(s: Store, k: CaseKey, n: nat, token: ClaimToken) {
    && Awaits(s, k, n, Claimed) && s.files[k].slots[n].submission.owner == Some(ClaimDigest(token))
    && s.files[k].slots[n].attempt.reference.None?
  }

  /** The attempt waits for the provider again, at once. */
  predicate Refusal(
    s: Store, s': Store, k: CaseKey, n: nat, at: Time, code: Code, event: DispatchEvent)
  {
    && k in s.files && n < |s.files[k].slots|
    && (var record, attempt := s.files[k].record, s.files[k].slots[n].attempt;
        && About(event, s, k, n, EventKind.ProviderRetry, at,
                 ProviderRetryKey(attempt.identity.attemptId, attempt.version + 1), Some(Coded(code)))
        && Becomes(
             s, s', k,
             record.(status := DispatchStatus.ProviderRetry, nextAttemptAt := Some(at), updatedAt := at,
                     version := record.version + 1),
             s.files[k].slots[
               n := Slot(
                 attempt.(status := AttemptStatus.ProviderRetry, safeErrorCode := Some(code), updatedAt := at,
                          version := attempt.version + 1),
                 Submission(Pending, None, None, None, None))],
             event))
  }

  lemma RefusedActs(policy: Policy, s: Store, k: CaseKey, n: nat, token: ClaimToken, now: Time, code: Code, env: Env)
    requires s.Indexed() && ClaimedUnder(s, k, n, token)
    requires var attempt := s.files[k].slots[n].attempt;
             !s.Logged(k.tenantId, ProviderRetryKey(attempt.identity.attemptId, attempt.version + 1))
    ensures var p := DispatchRefused(s.files[k].record, s.files[k].slots[n].attempt, token, now, code);
            && Runnable(s, p)
            && (var move := Act(policy, s, p, env);
                var event := MarkProviderRetry(p.record, p.attempt, now, code, env.eventId).event;
                && move.next == Finished(Err(ProviderUnavailable))
                && Refusal(s, move.store, k, n, now, code, event))
  {
  }

  /** The provider refused the call: the attempt waits for the provider again. */
  lemma RefusedOutcome(
    policy: Policy, s: Store, k: CaseKey, n: nat, token: ClaimToken, now: Time, code: Code, draws: Draws, s': Store,
    result: Result<Answer, DispatchError>) returns (event: DispatchEvent)
    requires s.Indexed() && ClaimedUnder(s, k, n, token)
    requires draws(PlaceAt(s, k, n, token, now)).provider == Refused(code)
    requires Ends(policy, s, PlaceAt(s, k, n, token, now), draws, s', result)
    requires var attempt := s.files[k].slots[n].attempt;
             !s.Logged(k.tenantId, ProviderRetryKey(attempt.identity.attemptId, attempt.version + 1))
    ensures result == Err(ProviderUnavailable) && Refusal(s, s', k, n, now, code, event)
  {
    var p := PlaceAt(s, k, n, token, now);
    var q := DispatchRefused(s.files[k].record, s.files[k].slots[n].attempt, token, now, code);
    EndsLater(policy, s, p, draws, Act(policy, s, p, draws(p)), s', result);
    RefusedActs(policy, s, k, n, token, now, code, draws(q));
    event := MarkProviderRetry(q.record, q.attempt, now, code, draws(q).eventId).event;
    EndsHere(policy, s, q, draws, Act(policy, s, q, draws(q)), s', result);
  }

  lemma UnsureActs(policy: Policy, s: Store, k: CaseKey, n: nat, token: ClaimToken, now: Time, env: Env)
    requires s.Indexed() && ClaimedUnder(s, k, n, token)
    requires !s.Logged(k.tenantId, UncertainKey(s.files[k].slots[n].attempt.identity.attemptId))
    ensures var p := DispatchUncertain(s.files[k].record, s.files[k].slots[n].attempt, token, now);
            && Runnable(s, p)
            && (var move := Act(policy, s, p, env);
                && move.next == Finished(Ok(NoResult))
                && GivenUp(s, move.store, k, n, now, SubmissionUncertain,
                           UncertainEvent(s, k, n, now, SubmissionUncertain, env)))
  {
  }

  /** The provider's answer is uncertain: the case goes to a person. */
  lemma UnsureOutcome(
    policy: Policy, s: Store, k: CaseKey, n: nat, token: ClaimToken, now: Time, draws: Draws, s': Store,
    result: Result<Answer, DispatchError>)
    requires s.Indexed() && ClaimedUnder(s, k, n, token)
    requires draws(PlaceAt(s, k, n, token, now)).provider == Unsure
    requires Ends(policy, s, PlaceAt(s, k, n, token, now), draws, s', result)
    requires !s.Logged(k.tenantId, UncertainKey(s.files[k].slots[n].attempt.identity.attemptId))
    ensures var q := DispatchUncertain(s.files[k].record, s.files[k].slots[n].attempt, token, now);
            && result == Ok(NoResult)
            && GivenUp(s, s', k, n, now, SubmissionUncertain,
                       UncertainEvent(s, k, n, now, SubmissionUncertain, draws(q)))
  {
    var p := PlaceAt(s, k, n, token, now);
    var q := DispatchUncertain(s.files[k].record, s.files[k].slots[n].attempt, token, now);
    EndsLater(policy, s, p, draws, Act(policy, s, p, draws(p)), s', result);
    UnsureActs(policy, s, k, n, token, now, draws(q));
    EndsHere(policy, s, q, draws, Act(policy, s, q, draws(q)), s', result);
  }

  lemma BoundIndexed(s: Store, s': Store, k: CaseKey, n: nat, r: Reference, now: Time, event: DispatchEvent)
    requires s.Indexed() && CallBound(s, s', k, n, r, now, event)
    ensures s'.Indexed() && k in s'.files && n < |s'.files[k].slots|
  {
    assert forall a :: s.Points(a) ==> s'.Points(a);
  }

  lemma ReturnEnds(
    policy: Policy, s: Store, k: CaseKey, n: nat, r: Reference, draws: Draws, s': Store,
    result: Result<Answer, DispatchError>)
    requires s.Indexed() && k in s.files && n < |s.files[k].slots|
    requires Ends(policy, s, FoundAt(s, k, n, r, Returned), draws, s', result)
    ensures s' == s && result == Ok(AttemptAnswer(s.files[k].slots[n].attempt))
  {
    var q := FoundAt(s, k, n, r, Returned);
    EndsHere(policy, s, q, draws, Act(policy, s, q, draws(q)), s', result);
  }

  lemma PlaceEnds(
    policy: Policy, s: Store, k: CaseKey, n: nat, token: ClaimToken, now: Time, r: Reference, draws: Draws, s': Store,
    result: Result<Answer, DispatchError>)
    requires s.Indexed() && ClaimedUnder(s, k, n, token)
    requires draws(PlaceAt(s, k, n, token, now)).provider == Placed(r)
    requires Ends(policy, s, PlaceAt(s, k, n, token, now), draws, s', result)
    ensures Ends(policy, s, CallbackResolve(s.files[k].slots[n].attempt.identity.callbackToken, r, Returned), draws,
                 s', result)
  {
    var p := PlaceAt(s, k, n, token, now);
    EndsLater(policy, s, p, draws, Act(policy, s, p, draws(p)), s', result);
  }

  /** The provider took the call: it is bound to the reference the provider gave, and answered with. */
  lemma PlacedOutcome(
    policy: Policy, s: Store, k: CaseKey, n: nat, token: ClaimToken, now: Time, r: Reference, draws: Draws, s': Store,
    result: Result<Answer, DispatchError>)
    requires Sound(policy, s) && ClaimedUnder(s, k, n, token) && r != Plain("")
    requires draws(PlaceAt(s, k, n, token, now)).provider == Placed(r)
    requires Ends(policy, s, PlaceAt(s, k, n, token, now), draws, s', result)
    requires var attempt := s.files[k].slots[n].attempt;
             && attempt.identity.callbackToken in s.callbacks
             && s.callbacks[attempt.identity.callbackToken] == Address(k, n)
             && !s.Logged(k.tenantId, CallInitiatedKey(attempt.identity.attemptId))
    ensures var env := draws(UnboundAt(s, k, n, s.files[k].slots[n].attempt.identity.callbackToken, r, Returned));
            && CallBound(s, s', k, n, r, env.now, BindingOf(s, k, n, env))
            && k in s'.files && n < |s'.files[k].slots|
            && result == Ok(AttemptAnswer(s'.files[k].slots[n].attempt))
  {
    var t := s.files[k].slots[n].attempt.identity.callbackToken;
    PlaceEnds(policy, s, k, n, token, now, r, draws, s', result);
    var s1 := FirstOutcome(policy, s, k, n, t, r, Returned, draws, s', result);
    var env := draws(UnboundAt(s, k, n, t, r, Returned));
    BoundIndexed(s, s1, k, n, r, env.now, BindingOf(s, k, n, env));
    ReturnEnds(policy, s1, k, n, r, draws, s', result);
  }

  // ---------- a new attempt ----------

  /** Every attempt of an open case has ended, and a further one is left. */
  predicate Between(s: Store, k: CaseKey) {
    && k in s.files && s.files[k].record.Key() == k && !s.files[k].record.status.Terminal()
    && |s.files[k].slots| < 3
    && forall i :: 0 <= i < |s.files[k].slots| ==> s.files[k].slots[i].attempt.status.Terminal()
  }

  lemma AllEnded(slots: seq<Slot>)
    requires forall i :: 0 <= i < |slots| ==> slots[i].attempt.status.Terminal()
    ensures LastOpen(AttemptsOf(slots)) == |slots|
  {
    assert forall i :: 0 <= i < |slots| ==> AttemptsOf(slots)[i] == slots[i].attempt;
  }

  /**
    The next attempt: the first two call the primary contact, the third the
    supervisor.  It is reserved under the drawn identifier and token.
  */
  predicate NowReserved(s: Store, s': Store, k: CaseKey, env: Env) {
    && k in s.files
    && (var record, n := s.files[k].record, |s.files[k].slots|;
        var attempt := CallAttempt(
                         AttemptIdentity(
                           env.freshId, k.caseId, k.tenantId, n + 1, if n < 2 then Primary else Supervisor,
                           if n < 2 then record.identity.primaryContactId else record.identity.supervisorContactId,
                           env.token, env.now),
                         None, AttemptStatus.Reserved, env.now, None, None, None, None, None, None, 1);
        var event := DispatchEvent(
                       env.eventId, k.tenantId, k.caseId, Some(env.freshId), AttemptReserved, env.now,
                       AttemptReservedKey(k.tenantId, k.caseId, env.freshId), None);
        s' == s.(
          files := s.files[
            k := CaseFile(
              record.(status := DispatchStatus.Dialing, nextAttemptAt := None, attemptCount := n + 1,
                      updatedAt := env.now, version := record.version + 1),
              s.files[k].slots + [Slot(attempt, Submission(Pending, None, None, None, None))],
              s.files[k].log + [event])],
          dedupe := s.dedupe + {DedupeEntry(k.tenantId, event.key)},
          placed := s.placed[AttemptKey(k.tenantId, env.freshId) := Address(k, n)],
          callbacks := s.callbacks[env.token := Address(k, n)]))
  }

  lemma ReserveActs(policy: Policy, s: Store, k: CaseKey, env: Env)
    requires s.Indexed() && Between(s, k)
    ensures var move, next := Act(policy, s, DispatchReserve(k), env), s.files[k].record.nextAttemptAt;
            if next.Some? && env.now < next.value then move == Move(s, Finished(Err(RetryNotDue)))
            else if AttemptKey(k.tenantId, env.freshId) in s.placed || env.token in s.callbacks then
              move == Move(s, Finished(Err(Conflict(RepositoryConflict))))
            else
              && NowReserved(s, move.store, k, env)
              && k in move.store.files && |s.files[k].slots| < |move.store.files[k].slots|
              && move.next == DialAt(move.store, k, |s.files[k].slots|, env.now)
  {
    AllEnded(s.files[k].slots);
  }

  /**
    A dispatch of a case between two attempts: before its time it is told to
    come back, a collision of identifiers is a conflict, and otherwise the next
    attempt is reserved and the dispatch goes on with it.
  */
  lemma ReserveOutcome(
    policy: Policy, s: Store, k: CaseKey, draws: Draws, s': Store, result: Result<Answer, DispatchError>)
    returns (s1: Store)
    requires s.Indexed() && Between(s, k) && Ends(policy, s, DispatchGet(k), draws, s', result)
    ensures var env, next := draws(DispatchReserve(k)), s.files[k].record.nextAttemptAt;
            if next.Some? && env.now < next.value then s' == s && result == Err(RetryNotDue)
            else if AttemptKey(k.tenantId, env.freshId) in s.placed || env.token in s.callbacks then
              s' == s && result == Err(Conflict(RepositoryConflict))
            else
              && NowReserved(s, s1, k, env) && k in s1.files && |s.files[k].slots| < |s1.files[k].slots|
              && Ends(policy, s1, DialAt(s1, k, |s.files[k].slots|, env.now), draws, s', result)
  {
    var p := DispatchReserve(k);
    var move := Act(policy, s, p, draws(p));
    GetActs(policy, s, k, draws(DispatchGet(k)));
    EndsLater(policy, s, DispatchGet(k), draws, Move(s, p), s', result);
    ReserveActs(policy, s, k, draws(p));
    s1 := move.store;
    if move.next.Finished? {
      EndsHere(policy, s, p, draws, move, s', result);
    } else {
      EndsLater(policy, s, p, draws, move, s', result);
    }
  }
}
