/**
  What each operation of the dispatch repository asks before it writes, and what
  it then writes, field by field: the guards of every conditional write are
  stated in both directions, so that another worker's claim, a version that has
  moved on, an event logged before or a record of another case never gets in.
*/
module RepositoryOutcomes {
  import opened Wrappers
  import opened DispatchModels
  import opened DispatchStore

  /** The event names the case, and the attempt if there is one. */
  predicate Concerns(event: DispatchEvent, k: CaseKey, attemptId: Option<Id>) {
    event.tenantId == k.tenantId && event.caseId == k.caseId && event.attemptId == attemptId
  }

  /** The file replaced and the event's key remembered: nothing else differs. */
  predicate Saved(s: Store, s': Store, k: CaseKey, file: CaseFile, key: DedupeKey) {
    && s'.files == s.files[k := file]
    && s'.dedupe == s.dedupe + {DedupeEntry(k.tenantId, key)}
    && s'.placed == s.placed && s'.callbacks == s.callbacks && s'.idempotency == s.idempotency
  }

  /** Both versions are those the caller read, and both records are one version on. */
  predicate Current(s: Store, k: CaseKey, a: Address, record: DispatchCase, attempt: CallAttempt, cv: int, av: int)
    requires k in s.files && s.Points(a)
  {
    && s.files[k].record.version == cv && record.version == cv + 1
    && s.files[a.home].slots[a.index].attempt.version == av && attempt.version == av + 1
  }

  // ---------- cases ----------

  /** A scope answers with its first case; another case needs an unused identifier and an event of its own. */
  lemma CreateOutcome(s: Store, record: DispatchCase, key: Text, event: DispatchEvent)
    requires s.Indexed()
    ensures var k, r := CaseKey(record.identity.tenantId, record.identity.caseId), CreateCase(s, record, key, event);
            var scope := IdempotencyScope(k.tenantId, key);
            if scope in s.idempotency then
              r == Reply(s, Ok(Creation(s.files[CaseKey(k.tenantId, s.idempotency[scope])].record, false)))
            else if k !in s.files && Concerns(event, k, None) then
              && r.result == Ok(Creation(record, true))
              && r.store.idempotency == s.idempotency[scope := k.caseId]
              && Saved(s, r.store.(idempotency := s.idempotency), k, CaseFile(record, [], [event]), event.key)
            else r == Reply(s, Err(Conflict(if k in s.files then RepositoryConflict else StateConflict)))
  {
  }

  /** What the reading operations answer. */
  lemma ReadOutcome(s: Store, k: CaseKey, key: Text, token: Token)
    requires s.Indexed()
    ensures if k in s.files then GetCase(s, k) == Ok(s.files[k].record) else GetCase(s, k) == Err(ResourceNotFound)
    ensures if k in s.files then
              && ListAttempts(s, k).Ok? && |ListAttempts(s, k).value| == |s.files[k].slots|
              && forall i :: 0 <= i < |s.files[k].slots| ==>
                   ListAttempts(s, k).value[i] == s.files[k].slots[i].attempt
            else ListAttempts(s, k) == Err(ResourceNotFound)
    ensures var scope := IdempotencyScope(k.tenantId, key);
            FindByIdempotency(s, k.tenantId, key)
            == if scope in s.idempotency then Some(s.files[CaseKey(k.tenantId, s.idempotency[scope])].record) else None
    ensures if token in s.callbacks then
              var a := s.callbacks[token];
              ResolveCallback(s, token) == Ok(Located(s.files[a.home].record, s.files[a.home].slots[a.index].attempt))
            else ResolveCallback(s, token) == Err(ResourceNotFound)
  {
  }

  // ---------- reservations ----------

  /** Every attempt of the file after position i has ended. */
  ghost predicate EndedAfter(file: CaseFile, i: int) {
    forall j :: 0 <= j < |file.slots| && i < j ==> file.slots[j].attempt.status.Terminal()
  }

  /** The last open attempt is answered with, whatever its case's status and time are. */
  lemma ReserveFinds(
    s: Store, k: CaseKey, i: nat, attemptId: Id, token: Token, now: Time, event: DispatchEvent)
    requires k in s.files && i < |s.files[k].slots| && EndedAfter(s.files[k], i)
    requires !s.files[k].slots[i].attempt.status.Terminal()
    ensures ReserveNextAttempt(s, k, attemptId, token, now, event)
         == Reply(s, Ok(Reservation(s.files[k].record, s.files[k].slots[i].attempt, false)))
  {
    assert AttemptsOf(s.files[k].slots)[i] == s.files[k].slots[i].attempt;
    forall j | i < j < |s.files[k].slots| ensures AttemptsOf(s.files[k].slots)[j].status.Terminal() {
    }
  }

  /** The attempt a case is given after n others. */
  predicate IsNext(attempt: CallAttempt, record: DispatchCase, n: nat, attemptId: Id, token: Token, now: Time) {
    && attempt.identity.attemptId == attemptId && attempt.identity.callbackToken == token
    && attempt.identity.tenantId == record.identity.tenantId && attempt.identity.caseId == record.identity.caseId
    && attempt.identity.sequence == n + 1 && attempt.identity.createdAt == now
    && (if n < 2 then attempt.identity.targetRole.Primary?
                      && attempt.identity.contactId == record.identity.primaryContactId
        else attempt.identity.targetRole.Supervisor?
             && attempt.identity.contactId == record.identity.supervisorContactId)
    && attempt.status.Reserved? && attempt.version == 1 && attempt.updatedAt == now
    && attempt.reference.None? && attempt.outcome.None? && attempt.initiatedAt.None? && attempt.answeredAt.None?
    && attempt.completedAt.None? && attempt.nextActionAt.None? && attempt.safeErrorCode.None?
  }

  /** Nothing stands in the way of a new attempt. */
  predicate Reservable(s: Store, k: CaseKey, attemptId: Id, token: Token, now: Time, event: DispatchEvent)
    requires k in s.files
  {
    var record := s.files[k].record;
    && !record.status.Terminal()
    && (record.nextAttemptAt.Some? ==> record.nextAttemptAt.value <= now)
    && |s.files[k].slots| <= 2
    && AttemptKey(k.tenantId, attemptId) !in s.placed && token !in s.callbacks
    && Concerns(event, record.Key(), Some(attemptId))
  }

  lemma NextIs(record: DispatchCase, n: nat, attemptId: Id, token: Token, now: Time)
    ensures IsNext(NextAttempt(record, n, attemptId, token, now), record, n, attemptId, token, now)
  {
  }

  lemma ReserveAdds(s: Store, k: CaseKey, attemptId: Id, token: Token, now: Time, event: DispatchEvent)
    requires k in s.files && EndedAfter(s.files[k], -1)
    ensures var r, file := ReserveNextAttempt(s, k, attemptId, token, now, event), s.files[k];
            var n := |file.slots|;
            if Reservable(s, k, attemptId, token, now, event) then
              exists attempt ::
                && IsNext(attempt, file.record, n, attemptId, token, now)
                && var record := file.record.(
                     status := DispatchStatus.Dialing, nextAttemptAt := None, attemptCount := n + 1, updatedAt := now,
                     version := file.record.version + 1);
                   var slot := Slot(attempt, Submission(Pending, None, None, None, None));
                   && r.result == Ok(Reservation(record, attempt, true))
                   && r.store.placed == s.placed[AttemptKey(k.tenantId, attemptId) := Address(k, n)]
                   && r.store.callbacks == s.callbacks[token := Address(k, n)]
                   && Saved(s, r.store.(placed := s.placed, callbacks := s.callbacks), k,
                            CaseFile(record, file.slots + [slot], file.log + [event]), event.key)
            else r.store == s && r.result.Err?
  {
    var file := s.files[k];
    var n := |file.slots|;
    forall j | 0 <= j < n ensures AttemptsOf(file.slots)[j].status.Terminal() {
      assert file.slots[j].attempt.status.Terminal();
    }
    assert LastOpen(AttemptsOf(file.slots)) == n;
    NextIs(file.record, n, attemptId, token, now);
  }

  /** Why a reservation is refused, in the order in which it is looked at. */
  lemma ReserveRefuses(s: Store, k: CaseKey, attemptId: Id, token: Token, now: Time, event: DispatchEvent)
    requires k in s.files ==> EndedAfter(s.files[k], -1)
    ensures var result := ReserveNextAttempt(s, k, attemptId, token, now, event).result;
            if k !in s.files then result == Err(ResourceNotFound)
            else
              var record := s.files[k].record;
              if record.status.Terminal() then result == Err(Conflict(CaseTerminal))
              else if record.nextAttemptAt.Some? && now < record.nextAttemptAt.value then result == Err(RetryNotDue)
              else if |s.files[k].slots| >= 3 then result == Err(Conflict(AttemptLimitReached))
              else if AttemptKey(k.tenantId, attemptId) in s.placed || token in s.callbacks then
                result == Err(Conflict(RepositoryConflict))
              else result.Err? ==> result == Err(Conflict(StateConflict))
  {
    if k in s.files {
      forall j | 0 <= j < |s.files[k].slots| ensures AttemptsOf(s.files[k].slots)[j].status.Terminal() {
        assert s.files[k].slots[j].attempt.status.Terminal();
      }
    }
  }

  // ---------- claims ----------

  /** Nobody has claimed the submission, the attempt waits for the provider and the case is due. */
  predicate Claimable(record: DispatchCase, slot: Slot, now: Time) {
    && !record.status.Terminal() && slot.submission.state.Pending?
    && (slot.attempt.status.Reserved? || slot.attempt.status.ProviderRetry?)
    && (record.nextAttemptAt.Some? ==> record.nextAttemptAt.value <= now)
  }

  /** The claim of a pending submission, and of no other, is written under the token's digest. */
  lemma ClaimOutcome(
    s: Store, k: CaseKey, n: nat, attemptId: Id, token: ClaimToken, now: Time, deadline: Time)
    requires s.Indexed() && k in s.files && n < |s.files[k].slots|
    requires AttemptKey(k.tenantId, attemptId) in s.placed
             && s.placed[AttemptKey(k.tenantId, attemptId)] == Address(k, n)
    requires token.Some? && now < deadline
    ensures var r, file := ClaimProviderSubmission(s, k, attemptId, token, now, deadline), s.files[k];
            var record, slot := file.record, file.slots[n];
            var attempt, submission := slot.attempt, slot.submission;
            if Claimable(record, slot, now) then
              var record' := record.(nextAttemptAt := Some(deadline), updatedAt := now, version := record.version + 1);
              var attempt' := attempt.(updatedAt := now, version := attempt.version + 1);
              var submission' := Submission(Claimed, Some(ClaimDigest(token)), Some(now), Some(deadline), None);
              && r.result == Ok(Claim(record', attempt', true, false, Some(deadline)))
              && r.store
                 == s.(files := s.files[k := CaseFile(record', file.slots[n := Slot(attempt', submission')], file.log)])
            else
              && r.store == s
              && r.result
                 == if record.status.Terminal() then Ok(Claim(record, attempt, false, false, None))
                    else if submission.state.Claimed? then
                      Ok(Claim(record, attempt, false,
                               submission.deadline.Some? && submission.deadline.value <= now, submission.deadline))
                    else if submission.state.Pending? && record.nextAttemptAt.Some?
                            && now < record.nextAttemptAt.value
                    then Err(RetryNotDue)
                    else Ok(Claim(record, attempt, false, false, None))
  {
  }

  /** A claim without a token, without a future deadline or for an attempt of another case is refused. */
  lemma ClaimRefuses(s: Store, k: CaseKey, attemptId: Id, token: ClaimToken, now: Time, deadline: Time)
    requires s.Indexed()
    ensures var ak := AttemptKey(k.tenantId, attemptId);
            var r := ClaimProviderSubmission(s, k, attemptId, token, now, deadline);
            if token.None? || deadline <= now then r == Reply(s, Err(Conflict(ClaimInvalid)))
            else if k !in s.files || ak !in s.placed then r == Reply(s, Err(ResourceNotFound))
            else s.placed[ak].home != k ==> r == Reply(s, Err(Conflict(StateConflict)))
  {
  }

  // ---------- conditional writes ----------

  /** Of a missing case or attempt nothing is written, and an event logged before is answered with false. */
  lemma RepeatedOutcome(
    s: Store, record: DispatchCase, attempt: CallAttempt, event: DispatchEvent, token: ClaimToken,
    outcome: SubmissionOutcome, now: Time, cv: int, av: int)
    requires s.Indexed() && s.Keeps(attempt)
    ensures var k, ak := CaseKey(record.identity.tenantId, record.identity.caseId),
                         AttemptKey(attempt.identity.tenantId, attempt.identity.attemptId);
            var missing, logged := k !in s.files || ak !in s.placed, DedupeEntry(k.tenantId, event.key) in s.dedupe;
            missing || logged ==>
              var r := Reply(s, if missing then Err(ResourceNotFound) else Ok(false));
              && FinishProviderSubmission(s, record, attempt, event, token, outcome, cv, av) == r
              && ExpireProviderSubmission(s, record, attempt, event, now, cv, av) == r
              && ApplyTransition(s, record, attempt, event, cv, av) == r
  {
  }

  /** The records a submission may end with. */
  predicate Suits(outcome: SubmissionOutcome, record: DispatchCase, attempt: CallAttempt) {
    match outcome
    case SubmittedOutcome =>
      && attempt.status.Initiated? && attempt.reference.Some? && attempt.reference != Some(Plain(""))
      && record.status.Dialing? && record.nextAttemptAt.None?
    case RetryableFailure =>
      attempt.status.ProviderRetry? && attempt.reference.None? && record.status.ProviderRetry?
    case UncertainOutcome => attempt.status.ManualFollowUp? && record.status.ManualFollowUp?
  }

  /** The submission once it has ended: a refused one starts afresh. */
  predicate EndedAs(submission: Submission, outcome: SubmissionOutcome, at: Time, submission': Submission) {
    match outcome
    case RetryableFailure => submission' == Submission(Pending, None, None, None, None)
    case SubmittedOutcome =>
      submission' == Submission(Submitted, submission.owner, submission.claimedAt, submission.deadline, Some(at))
    case UncertainOutcome =>
      submission' == Submission(Uncertain, submission.owner, submission.claimedAt, submission.deadline, Some(at))
  }

  /** Only the worker whose claim it is ends a submission, on the versions it read. */
  lemma FinishOutcome(
    s: Store, k: CaseKey, n: nat, record: DispatchCase, attempt: CallAttempt, event: DispatchEvent, token: ClaimToken,
    outcome: SubmissionOutcome, cv: int, av: int)
    requires s.Indexed() && k in s.files && record.Key() == k && attempt.Home() == k
    requires attempt.Key() in s.placed && s.placed[attempt.Key()] == Address(k, n) && n < |s.files[k].slots|
    requires DedupeEntry(k.tenantId, event.key) !in s.dedupe
    ensures var r, file := FinishProviderSubmission(s, record, attempt, event, token, outcome, cv, av), s.files[k];
            var submission := file.slots[n].submission;
            var held := && submission.state.Claimed? && submission.owner == Some(ClaimDigest(token))
                        && Current(s, k, Address(k, n), record, attempt, cv, av);
            if held && Suits(outcome, record, attempt) && Concerns(event, k, Some(attempt.identity.attemptId)) then
              && r.result == Ok(true)
              && exists submission' :: EndedAs(submission, outcome, attempt.updatedAt, submission')
                   && Saved(s, r.store, k,
                            CaseFile(record, file.slots[n := Slot(attempt, submission')], file.log + [event]),
                            event.key)
            else
              r == Reply(s, Err(Conflict(if !held then RepositoryConflict
                                         else if !Suits(outcome, record, attempt) then TransitionInvalid
                                         else StateConflict)))
  {
    var submission := s.files[k].slots[n].submission;
    assert EndedAs(submission, outcome, attempt.updatedAt,
                   FinishedSubmission(submission, outcome, attempt.updatedAt));
  }

  /** A claim expires only once its deadline has come. */
  lemma ExpireOutcome(
    s: Store, k: CaseKey, n: nat, record: DispatchCase, attempt: CallAttempt, event: DispatchEvent, now: Time,
    cv: int, av: int)
    requires s.Indexed() && k in s.files && record.Key() == k && attempt.Home() == k
    requires attempt.Key() in s.placed && s.placed[attempt.Key()] == Address(k, n) && n < |s.files[k].slots|
    requires DedupeEntry(k.tenantId, event.key) !in s.dedupe
    ensures var r, file := ExpireProviderSubmission(s, record, attempt, event, now, cv, av), s.files[k];
            var submission := file.slots[n].submission;
            var overdue := && submission.state.Claimed?
                           && submission.deadline.Some? && submission.deadline.value <= now
                           && Current(s, k, Address(k, n), record, attempt, cv, av);
            if && overdue && Suits(UncertainOutcome, record, attempt)
               && Concerns(event, k, Some(attempt.identity.attemptId))
            then
              && r.result == Ok(true)
              && exists submission' :: EndedAs(submission, UncertainOutcome, now, submission')
                   && Saved(s, r.store, k,
                            CaseFile(record, file.slots[n := Slot(attempt, submission')], file.log + [event]),
                            event.key)
            else
              r == Reply(s, Err(Conflict(if !overdue then RepositoryConflict
                                         else if !Suits(UncertainOutcome, record, attempt) then TransitionInvalid
                                         else StateConflict)))
  {
    var submission := s.files[k].slots[n].submission;
    assert EndedAs(submission, UncertainOutcome, now, FinishedSubmission(submission, UncertainOutcome, now));
  }

  /** A submission on its way keeps a cancellation out. */
  predicate InFlight(submission: Submission, stored: CallAttempt, attempt: CallAttempt) {
    submission.state.Claimed? || (submission.state.Submitted? && stored.reference != attempt.reference)
  }

  /** A transition of a case and an attempt is written on the versions it was made for, and only at home. */
  lemma ApplyOutcome(
    s: Store, k: CaseKey, a: Address, record: DispatchCase, attempt: CallAttempt, event: DispatchEvent,
    cv: int, av: int)
    requires s.Indexed() && k in s.files && record.Key() == k
    requires attempt.Key() in s.placed && s.placed[attempt.Key()] == a
    requires DedupeEntry(k.tenantId, event.key) !in s.dedupe
    ensures var r, slot := ApplyTransition(s, record, attempt, event, cv, av), s.files[a.home].slots[a.index];
            var current := Current(s, k, a, record, attempt, cv, av);
            var free := event.kind.Canceled? ==> !InFlight(slot.submission, slot.attempt, attempt);
            if && current && free && a.home == k && attempt.Home() == k
               && Concerns(event, k, Some(attempt.identity.attemptId))
            then
              && r.result == Ok(true)
              && var slots := s.files[k].slots;
                 Saved(s, r.store, k,
                       CaseFile(record, slots[a.index := Slot(attempt, slot.submission)], s.files[k].log + [event]),
                       event.key)
            else
              r == Reply(s, Err(Conflict(if !current then RepositoryConflict
                                         else if !free then SubmissionInFlight
                                         else StateConflict)))
  {
  }

  /** A transition of a case alone. */
  lemma ApplyCaseOutcome(s: Store, record: DispatchCase, event: DispatchEvent, cv: int)
    ensures var r, k := ApplyCaseTransition(s, record, event, cv),
                        CaseKey(record.identity.tenantId, record.identity.caseId);
            if k !in s.files then r == Reply(s, Err(ResourceNotFound))
            else if DedupeEntry(k.tenantId, event.key) in s.dedupe then r == Reply(s, Ok(false))
            else
              var current := s.files[k].record.version == cv && record.version == cv + 1;
              if current && Concerns(event, k, None) then
                && r.result == Ok(true)
                && Saved(s, r.store, k, CaseFile(record, s.files[k].slots, s.files[k].log + [event]), event.key)
              else r == Reply(s, Err(Conflict(if current then StateConflict else RepositoryConflict)))
  {
  }

  /** An event is appended once, to the case it names, with an attempt of that case or none. */
  lemma AppendOutcome(s: Store, event: DispatchEvent)
    requires s.Indexed()
    ensures var r, k := AppendEvent(s, event), CaseKey(event.tenantId, event.caseId);
            var known := event.attemptId.Some? ==> AttemptKey(event.tenantId, event.attemptId.value) in s.placed;
            if k !in s.files then r == Reply(s, Err(ResourceNotFound))
            else if DedupeEntry(k.tenantId, event.key) in s.dedupe then r == Reply(s, Ok(false))
            else if !known then r == Reply(s, Err(ResourceNotFound))
            else
              var file := s.files[k];
              var home := && file.record.Key() == k
                          && (event.attemptId.Some? ==>
                                var a := s.placed[AttemptKey(event.tenantId, event.attemptId.value)];
                                var attempt := s.files[a.home].slots[a.index].attempt;
                                attempt.Home() == k && attempt.identity.attemptId == event.attemptId.value);
              if home then
                && r.result == Ok(true)
                && Saved(s, r.store, k, CaseFile(file.record, file.slots, file.log + [event]), event.key)
              else r == Reply(s, Err(Conflict(StateConflict)))
  {
  }

  // ---------- the binding of a reference ----------

  /** The texts that a stored reference lets through: its own, or the one whose digest is stored. */
  predicate Fits(stored: Reference, r: Reference) {
    stored == HashOf(r) || (stored == r && r.Plain?)
  }

  /** A bound call answers only for its own reference. */
  lemma BoundOutcome(s: Store, token: Token, reference: Reference, now: Time, event: DispatchEvent)
    requires s.Indexed()
    ensures var r := BindProviderCallback(s, token, reference, now, event);
            if reference == Plain("") then r == Reply(s, Err(CallMismatch))
            else if token !in s.callbacks then r == Reply(s, Err(ResourceNotFound))
            else
              var a := s.callbacks[token];
              var record, attempt := s.files[a.home].record, s.files[a.home].slots[a.index].attempt;
              attempt.reference.Some? ==>
                r == Reply(s, if Fits(attempt.reference.value, reference) then Ok(Located(record, attempt))
                              else Err(CallMismatch))
  {
  }

  /** The attempt and its case once the reference is bound, not before the claim was made. */
  predicate Bound(file: CaseFile, n: nat, reference: Reference, now: Time, record: DispatchCase, slot: Slot)
    requires n < |file.slots|
  {
    var attempt, submission := file.slots[n].attempt, file.slots[n].submission;
    var claimed := submission.claimedAt;
    var at := if claimed.Some? && now < claimed.value then claimed.value else now;
    && record == file.record.(status := DispatchStatus.Dialing, nextAttemptAt := None, updatedAt := at,
                              version := file.record.version + 1)
    && slot.submission == submission.(state := Submitted, completedAt := Some(at))
    && slot.attempt == attempt.(
         reference := Some(reference), status := AttemptStatus.Initiated, safeErrorCode := None, updatedAt := at,
         initiatedAt := if attempt.initiatedAt.None? then Some(at) else attempt.initiatedAt,
         version := attempt.version + 1)
  }

  /** An unbound call is bound while its submission is claimed and its case open. */
  lemma BindOutcome(s: Store, token: Token, reference: Reference, now: Time, event: DispatchEvent)
    requires s.Indexed() && reference != Plain("") && token in s.callbacks
    requires var a := s.callbacks[token]; s.files[a.home].slots[a.index].attempt.reference.None?
    ensures var r, a := BindProviderCallback(s, token, reference, now, event), s.callbacks[token];
            var file := s.files[a.home];
            var attempt := file.slots[a.index].attempt;
            if file.record.status.Terminal() || !file.slots[a.index].submission.state.Claimed? then
              r == Reply(s, Err(Conflict(BindingUnavailable)))
            else if DedupeEntry(a.home.tenantId, event.key) in s.dedupe then
              r == Reply(s, Err(Conflict(RepositoryConflict)))
            else if Concerns(event, file.record.Key(), Some(attempt.identity.attemptId))
                    && attempt.Home() == file.record.Key() then
              exists record, slot ::
                && Bound(file, a.index, reference, now, record, slot)
                && r.result == Ok(Located(record, slot.attempt))
                && Saved(s, r.store, a.home,
                         CaseFile(record, file.slots[a.index := slot], file.log + [event]), event.key)
            else r == Reply(s, Err(Conflict(StateConflict)))
  {
    var a := s.callbacks[token];
    var file := s.files[a.home];
    var at := Later(now, file.slots[a.index].submission.claimedAt);
    assert Bound(file, a.index, reference, now,
                 BoundCase(file.record, at), BoundSlot(file.slots[a.index], reference, at));
  }
}
