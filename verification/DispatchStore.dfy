/**
  The atomic operations of the dispatch repository
  (src/data/dispatch/repository.py), as functions from a store to a store and a
  result.  Every operation runs under the repository's lock, so each is one
  atomic step.

  Everything kept about one case (the case, its attempts in order, their
  provider submissions and its event log) is one case file.
*/
module DispatchStore {
  import opened Wrappers
  import opened DispatchModels

  datatype SubmissionState = Pending | Claimed | Submitted | Uncertain

  /** A claim token; None stands for the empty token. */
  type ClaimToken = Option<Token>

  /** Digest of a claim token. */
  datatype ClaimDigest = ClaimDigest(token: ClaimToken)

  datatype Submission = Submission(
    state: SubmissionState,
    owner: Option<ClaimDigest>,
    claimedAt: Option<Time>,
    deadline: Option<Time>,
    completedAt: Option<Time>)

  const FRESH_SUBMISSION := Submission(Pending, None, None, None, None)

  datatype Slot = Slot(attempt: CallAttempt, submission: Submission)

  datatype CaseFile = CaseFile(record: DispatchCase, slots: seq<Slot>, log: seq<DispatchEvent>)

  datatype Address = Address(home: CaseKey, index: nat)

  datatype IdempotencyScope = IdempotencyScope(tenantId: Id, key: Text)

  datatype DedupeEntry = DedupeEntry(tenantId: Id, key: DedupeKey)

  datatype Store = Store(
    files: map<CaseKey, CaseFile>,
    placed: map<AttemptKey, Address>,
    callbacks: map<Token, Address>,
    idempotency: map<IdempotencyScope, Id>,
    dedupe: set<DedupeEntry>)
  {
    predicate Points(a: Address) {
      a.home in files && a.index < |files[a.home].slots|
    }

    function At(a: Address): Slot
      requires Points(a)
    {
      files[a.home].slots[a.index]
    }

    /** The indexes refer only to entries that exist. */
    ghost predicate Indexed() {
      && (forall ak :: ak in placed ==> Points(placed[ak]))
      && (forall t :: t in callbacks ==> Points(callbacks[t]))
      && (forall scope :: scope in idempotency ==> CaseKey(scope.tenantId, idempotency[scope]) in files)
    }

    predicate Logged(tenantId: Id, key: DedupeKey) {
      DedupeEntry(tenantId, key) in dedupe
    }

    /** The attempt record keeps the case its stored version belongs to. */
    predicate Keeps(attempt: CallAttempt) {
      attempt.Key() in placed ==> placed[attempt.Key()].home == attempt.Home()
    }
  }

  const EMPTY := Store(map[], map[], map[], map[], {})

  /** What an atomic operation leaves behind and what it answers. */
  datatype Reply<+T> = Reply(store: Store, result: Result<T, DispatchError>)

  datatype Creation = Creation(record: DispatchCase, created: bool)

  datatype Reservation = Reservation(record: DispatchCase, attempt: CallAttempt, created: bool)

  datatype Claim = Claim(
    record: DispatchCase,
    attempt: CallAttempt,
    acquired: bool,
    stale: bool,
    retryAt: Option<Time>)

  datatype Located = Located(record: DispatchCase, attempt: CallAttempt)

  datatype SubmissionOutcome = SubmittedOutcome | RetryableFailure | UncertainOutcome

  predicate EventFits(event: DispatchEvent, record: DispatchCase, attempt: Option<CallAttempt>) {
    && event.tenantId == record.identity.tenantId
    && event.caseId == record.identity.caseId
    && (match attempt
        case None => event.attemptId.None?
        case Some(a) =>
          && event.attemptId == Some(a.identity.attemptId)
          && a.identity.tenantId == record.identity.tenantId
          && a.identity.caseId == record.identity.caseId)
  }

  predicate OutcomeFits(outcome: SubmissionOutcome, record: DispatchCase, attempt: CallAttempt) {
    match outcome
    case SubmittedOutcome =>
      && attempt.status.Initiated?
      && attempt.reference.Some? && !attempt.reference.value.Blank()
      && record.status.Dialing?
      && record.nextAttemptAt.None?
    case RetryableFailure =>
      attempt.status.ProviderRetry? && attempt.reference.None? && record.status.ProviderRetry?
    case UncertainOutcome =>
      attempt.status.ManualFollowUp? && record.status.ManualFollowUp?
  }

  /** Stores a new version of a case file and remembers an event's key. */
  function Commit(s: Store, k: CaseKey, file: CaseFile, event: DispatchEvent): Store {
    s.(files := s.files[k := file], dedupe := s.dedupe + {DedupeEntry(k.tenantId, event.key)})
  }

  /** Replaces a case, one of its slots, and appends an event to the log. */
  function Amend(file: CaseFile, index: nat, record: DispatchCase, slot: Slot, event: DispatchEvent): CaseFile
    requires index < |file.slots|
  {
    CaseFile(record, file.slots[index := slot], file.log + [event])
  }

  function AttemptsOf(slots: seq<Slot>): seq<CallAttempt> {
    seq(|slots|, i requires 0 <= i < |slots| => slots[i].attempt)
  }

  /** The index of the last attempt that has not ended, or the length if all have. */
  function LastOpen(attempts: seq<CallAttempt>): (i: nat)
    ensures i <= |attempts|
    ensures i < |attempts| ==> !attempts[i].status.Terminal()
    ensures forall j :: i < j < |attempts| ==> attempts[j].status.Terminal()
    ensures i == |attempts| ==> forall j :: 0 <= j < |attempts| ==> attempts[j].status.Terminal()
  {
    if attempts == [] then 0
    else
      var n := |attempts| - 1;
      if !attempts[n].status.Terminal() then n
      else
        var i := LastOpen(attempts[..n]);
        if i < n then i else |attempts|
  }

  function CreateCase(s: Store, record: DispatchCase, key: Text, event: DispatchEvent): Reply<Creation>
    requires s.Indexed()
  {
    var scope := IdempotencyScope(record.identity.tenantId, key);
    var k := record.Key();
    if scope in s.idempotency then
      Reply(s, Ok(Creation(s.files[CaseKey(scope.tenantId, s.idempotency[scope])].record, false)))
    else if k in s.files then Reply(s, Err(Conflict(RepositoryConflict)))
    else if !EventFits(event, record, None) then Reply(s, Err(Conflict(StateConflict)))
    else
      Reply(Commit(s, k, CaseFile(record, [], [event]), event)
              .(idempotency := s.idempotency[scope := k.caseId]),
            Ok(Creation(record, true)))
  }

  function FindByIdempotency(s: Store, tenantId: Id, key: Text): Option<DispatchCase>
    requires s.Indexed()
  {
    var scope := IdempotencyScope(tenantId, key);
    if scope in s.idempotency then Some(s.files[CaseKey(tenantId, s.idempotency[scope])].record) else None
  }

  function GetCase(s: Store, k: CaseKey): Result<DispatchCase, DispatchError> {
    if k in s.files then Ok(s.files[k].record) else Err(ResourceNotFound)
  }

  function ListAttempts(s: Store, k: CaseKey): Result<seq<CallAttempt>, DispatchError> {
    if k in s.files then Ok(AttemptsOf(s.files[k].slots)) else Err(ResourceNotFound)
  }

  /** The attempt that follows `count` earlier ones of a case. */
  function NextAttempt(record: DispatchCase, count: nat, attemptId: Id, token: Token, now: Time): CallAttempt {
    var role := RoleFor(count + 1);
    CallAttempt(
      AttemptIdentity(
        attemptId, record.identity.caseId, record.identity.tenantId, count + 1, role,
        if role.Primary? then record.identity.primaryContactId else record.identity.supervisorContactId,
        token, now),
      None, AttemptStatus.Reserved, now, None, None, None, None, None, None, 1)
  }

  /** The case once its attempt `sequence` is reserved. */
  function Dialed(record: DispatchCase, sequence: nat, now: Time): DispatchCase {
    record.(status := DispatchStatus.Dialing, nextAttemptAt := None, attemptCount := sequence,
            updatedAt := now, version := record.version + 1)
  }

  /** A case file with its next attempt reserved. */
  function Extend(file: CaseFile, attemptId: Id, token: Token, now: Time, event: DispatchEvent): CaseFile {
    var n := |file.slots|;
    CaseFile(
      Dialed(file.record, n + 1, now),
      file.slots + [Slot(NextAttempt(file.record, n, attemptId, token, now), FRESH_SUBMISSION)],
      file.log + [event])
  }

  function ReserveNextAttempt(s: Store, k: CaseKey, attemptId: Id, token: Token, now: Time, event: DispatchEvent)
    : Reply<Reservation>
  {
    if k !in s.files then Reply(s, Err(ResourceNotFound))
    else
      var file := s.files[k];
      var record, n := file.record, |file.slots|;
      var open := LastOpen(AttemptsOf(file.slots));
      if open < n then Reply(s, Ok(Reservation(record, file.slots[open].attempt, false)))
      else if record.status.Terminal() then Reply(s, Err(Conflict(CaseTerminal)))
      else if !record.Due(now) then Reply(s, Err(RetryNotDue))
      else if n + 1 > 3 then Reply(s, Err(Conflict(AttemptLimitReached)))
      else
        var ak := AttemptKey(k.tenantId, attemptId);
        if ak in s.placed || token in s.callbacks then Reply(s, Err(Conflict(RepositoryConflict)))
        else
          var file' := Extend(file, attemptId, token, now, event);
          if !EventFits(event, file'.record, Some(file'.slots[n].attempt)) then
            Reply(s, Err(Conflict(StateConflict)))
          else
            Reply(Commit(s, k, file', event)
                    .(placed := s.placed[ak := Address(k, n)], callbacks := s.callbacks[token := Address(k, n)]),
                  Ok(Reservation(file'.record, file'.slots[n].attempt, true)))
  }

  function ClaimedCase(record: DispatchCase, now: Time, deadline: Time): DispatchCase {
    record.(nextAttemptAt := Some(deadline), updatedAt := now, version := record.version + 1)
  }

  function ClaimedSlot(attempt: CallAttempt, token: ClaimToken, now: Time, deadline: Time): Slot {
    Slot(attempt.(updatedAt := now, version := attempt.version + 1),
         Submission(Claimed, Some(ClaimDigest(token)), Some(now), Some(deadline), None))
  }

  function ClaimFile(file: CaseFile, n: nat, token: ClaimToken, now: Time, deadline: Time): CaseFile
    requires n < |file.slots|
  {
    CaseFile(
      ClaimedCase(file.record, now, deadline),
      file.slots[n := ClaimedSlot(file.slots[n].attempt, token, now, deadline)],
      file.log)
  }

  function ClaimProviderSubmission(
    s: Store, k: CaseKey, attemptId: Id, token: ClaimToken, now: Time, deadline: Time): Reply<Claim>
    requires s.Indexed()
  {
    var ak := AttemptKey(k.tenantId, attemptId);
    if deadline <= now || token.None? then Reply(s, Err(Conflict(ClaimInvalid)))
    else if k !in s.files || ak !in s.placed then Reply(s, Err(ResourceNotFound))
    else
      var record, slot := s.files[k].record, s.At(s.placed[ak]);
      var attempt, submission := slot.attempt, slot.submission;
      if s.placed[ak].home != k then Reply(s, Err(Conflict(StateConflict)))
      else if record.status.Terminal() then Reply(s, Ok(Claim(record, attempt, false, false, None)))
      else if submission.state.Claimed? then
        var expired := submission.deadline.Some? && submission.deadline.value <= now;
        Reply(s, Ok(Claim(record, attempt, false, expired, submission.deadline)))
      else if submission.state.Submitted? || submission.state.Uncertain? then
        Reply(s, Ok(Claim(record, attempt, false, false, None)))
      else if !record.Due(now) then Reply(s, Err(RetryNotDue))
      else if !attempt.status.AwaitingProvider() then
        Reply(s, Ok(Claim(record, attempt, false, false, None)))
      else
        var n := s.placed[ak].index;
        var file' := ClaimFile(s.files[k], n, token, now, deadline);
        Reply(s.(files := s.files[k := file']),
              Ok(Claim(file'.record, file'.slots[n].attempt, true, false, Some(deadline))))
  }

  /** The optimistic version check shared by every conditional write. */
  predicate VersionsMatch(
    current: DispatchCase, stored: CallAttempt, record: DispatchCase, attempt: CallAttempt,
    caseVersion: int, attemptVersion: int)
  {
    && current.version == caseVersion
    && stored.version == attemptVersion
    && record.version == caseVersion + 1
    && attempt.version == attemptVersion + 1
  }

  function FinishedSubmission(submission: Submission, outcome: SubmissionOutcome, at: Time): Submission {
    if outcome.RetryableFailure? then FRESH_SUBMISSION
    else submission.(
           state := if outcome.SubmittedOutcome? then Submitted else Uncertain,
           completedAt := Some(at))
  }

  function FinishProviderSubmission(
    s: Store, record: DispatchCase, attempt: CallAttempt, event: DispatchEvent, token: ClaimToken,
    outcome: SubmissionOutcome, caseVersion: int, attemptVersion: int): Reply<bool>
    requires s.Indexed() && s.Keeps(attempt)
  {
    var k, ak := record.Key(), attempt.Key();
    if k !in s.files || ak !in s.placed then Reply(s, Err(ResourceNotFound))
    else if s.Logged(k.tenantId, event.key) then Reply(s, Ok(false))
    else
      var slot := s.At(s.placed[ak]);
      if || !slot.submission.state.Claimed?
         || slot.submission.owner != Some(ClaimDigest(token))
         || !VersionsMatch(s.files[k].record, slot.attempt, record, attempt, caseVersion, attemptVersion)
      then Reply(s, Err(Conflict(RepositoryConflict)))
      else if !OutcomeFits(outcome, record, attempt) then Reply(s, Err(Conflict(TransitionInvalid)))
      else if !EventFits(event, record, Some(attempt)) then Reply(s, Err(Conflict(StateConflict)))
      else
        var slot' := Slot(attempt, FinishedSubmission(slot.submission, outcome, attempt.updatedAt));
        Reply(Commit(s, k, Amend(s.files[k], s.placed[ak].index, record, slot', event), event), Ok(true))
  }

  function Later(now: Time, claimedAt: Option<Time>): Time {
    if claimedAt.Some? && claimedAt.value > now then claimedAt.value else now
  }

  function BoundSlot(slot: Slot, reference: Reference, at: Time): Slot {
    Slot(
      slot.attempt.(
        reference := Some(reference), status := AttemptStatus.Initiated,
        initiatedAt := if slot.attempt.initiatedAt.Some? then slot.attempt.initiatedAt else Some(at),
        safeErrorCode := None, updatedAt := at, version := slot.attempt.version + 1),
      slot.submission.(state := Submitted, completedAt := Some(at)))
  }

  function BoundCase(record: DispatchCase, at: Time): DispatchCase {
    record.(status := DispatchStatus.Dialing, nextAttemptAt := None, updatedAt := at,
            version := record.version + 1)
  }

  function BindFile(file: CaseFile, n: nat, reference: Reference, now: Time, event: DispatchEvent): CaseFile
    requires n < |file.slots|
  {
    var at := Later(now, file.slots[n].submission.claimedAt);
    Amend(file, n, BoundCase(file.record, at), BoundSlot(file.slots[n], reference, at), event)
  }

  function BindProviderCallback(s: Store, token: Token, reference: Reference, now: Time, event: DispatchEvent)
    : Reply<Located>
    requires s.Indexed()
  {
    if reference.Blank() then Reply(s, Err(CallMismatch))
    else if token !in s.callbacks then Reply(s, Err(ResourceNotFound))
    else
      var k, n := s.callbacks[token].home, s.callbacks[token].index;
      var record, slot := s.files[k].record, s.files[k].slots[n];
      if slot.attempt.reference.Some? then
        Reply(s, if slot.attempt.reference.value.Matches(reference) then Ok(Located(record, slot.attempt))
                 else Err(CallMismatch))
      else if record.status.Terminal() || !slot.submission.state.Claimed? then
        Reply(s, Err(Conflict(BindingUnavailable)))
      else if s.Logged(k.tenantId, event.key) then Reply(s, Err(Conflict(RepositoryConflict)))
      else
        var file' := BindFile(s.files[k], n, reference, now, event);
        if !OutcomeFits(SubmittedOutcome, file'.record, file'.slots[n].attempt) then
          Reply(s, Err(Conflict(TransitionInvalid)))
        else if !EventFits(event, file'.record, Some(file'.slots[n].attempt)) then
          Reply(s, Err(Conflict(StateConflict)))
        else
          Reply(Commit(s, k, file', event), Ok(Located(file'.record, file'.slots[n].attempt)))
  }

  function ExpireProviderSubmission(
    s: Store, record: DispatchCase, attempt: CallAttempt, event: DispatchEvent, now: Time,
    caseVersion: int, attemptVersion: int): Reply<bool>
    requires s.Indexed() && s.Keeps(attempt)
  {
    var k, ak := record.Key(), attempt.Key();
    if k !in s.files || ak !in s.placed then Reply(s, Err(ResourceNotFound))
    else if s.Logged(k.tenantId, event.key) then Reply(s, Ok(false))
    else
      var slot := s.At(s.placed[ak]);
      if || !slot.submission.state.Claimed?
         || slot.submission.deadline.None?
         || slot.submission.deadline.value > now
         || !VersionsMatch(s.files[k].record, slot.attempt, record, attempt, caseVersion, attemptVersion)
      then Reply(s, Err(Conflict(RepositoryConflict)))
      else if !OutcomeFits(UncertainOutcome, record, attempt) then Reply(s, Err(Conflict(TransitionInvalid)))
      else if !EventFits(event, record, Some(attempt)) then Reply(s, Err(Conflict(StateConflict)))
      else
        var slot' := Slot(attempt, FinishedSubmission(slot.submission, UncertainOutcome, now));
        Reply(Commit(s, k, Amend(s.files[k], s.placed[ak].index, record, slot', event), event), Ok(true))
  }

  function ApplyTransition(
    s: Store, record: DispatchCase, attempt: CallAttempt, event: DispatchEvent,
    caseVersion: int, attemptVersion: int): Reply<bool>
    requires s.Indexed()
  {
    var k, ak := record.Key(), attempt.Key();
    if k !in s.files || ak !in s.placed then Reply(s, Err(ResourceNotFound))
    else if s.Logged(k.tenantId, event.key) then Reply(s, Ok(false))
    else
      var slot := s.At(s.placed[ak]);
      if !VersionsMatch(s.files[k].record, slot.attempt, record, attempt, caseVersion, attemptVersion) then
        Reply(s, Err(Conflict(RepositoryConflict)))
      else if && event.kind.Canceled?
              && (slot.submission.state.Claimed?
                  || (slot.submission.state.Submitted? && slot.attempt.reference != attempt.reference))
      then Reply(s, Err(Conflict(SubmissionInFlight)))
      else if attempt.Home() != k || s.placed[ak].home != k then Reply(s, Err(Conflict(StateConflict)))
      else if !EventFits(event, record, Some(attempt)) then Reply(s, Err(Conflict(StateConflict)))
      else
        var slot' := Slot(attempt, slot.submission);
        Reply(Commit(s, k, Amend(s.files[k], s.placed[ak].index, record, slot', event), event), Ok(true))
  }

  function ApplyCaseTransition(s: Store, record: DispatchCase, event: DispatchEvent, caseVersion: int): Reply<bool> {
    var k := record.Key();
    if k !in s.files then Reply(s, Err(ResourceNotFound))
    else if s.Logged(k.tenantId, event.key) then Reply(s, Ok(false))
    else if s.files[k].record.version != caseVersion || record.version != caseVersion + 1 then
      Reply(s, Err(Conflict(RepositoryConflict)))
    else if !EventFits(event, record, None) then Reply(s, Err(Conflict(StateConflict)))
    else Reply(Commit(s, k, CaseFile(record, s.files[k].slots, s.files[k].log + [event]), event), Ok(true))
  }

  function Note(file: CaseFile, event: DispatchEvent): CaseFile {
    file.(log := file.log + [event])
  }

  function AppendEvent(s: Store, event: DispatchEvent): Reply<bool>
    requires s.Indexed()
  {
    var k := CaseKey(event.tenantId, event.caseId);
    if k !in s.files then Reply(s, Err(ResourceNotFound))
    else if s.Logged(k.tenantId, event.key) then Reply(s, Ok(false))
    else if event.attemptId.Some? && AttemptKey(event.tenantId, event.attemptId.value) !in s.placed then
      Reply(s, Err(ResourceNotFound))
    else
      var attempt :=
        if event.attemptId.None? then None
        else Some(s.At(s.placed[AttemptKey(event.tenantId, event.attemptId.value)]).attempt);
      if !EventFits(event, s.files[k].record, attempt) then Reply(s, Err(Conflict(StateConflict)))
      else Reply(Commit(s, k, Note(s.files[k], event), event), Ok(true))
  }

  function ResolveCallback(s: Store, token: Token): Result<Located, DispatchError>
    requires s.Indexed()
  {
    if token !in s.callbacks then Err(ResourceNotFound)
    else Ok(Located(s.files[s.callbacks[token].home].record, s.At(s.callbacks[token]).attempt))
  }
}
