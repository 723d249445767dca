/**
  The in-memory repository as an object (src/data/dispatch/repository.py): its
  dictionaries are fields that each operation updates in place, and every
  operation is proved to do what DispatchStore says.
*/
module DispatchRepository {
  import opened Wrappers
  import opened DispatchModels
  import opened DispatchStore

  lemma CommitIndexed(s: Store, k: CaseKey, file: CaseFile, event: DispatchEvent)
    requires s.Indexed() && (k in s.files ==> |s.files[k].slots| <= |file.slots|)
    ensures Commit(s, k, file, event).Indexed()
  {
  }

  lemma PlacedIndexed(s: Store, ak: AttemptKey, token: Token, a: Address)
    requires s.Indexed() && s.Points(a)
    ensures s.(placed := s.placed[ak := a], callbacks := s.callbacks[token := a]).Indexed()
  {
  }

  class InMemoryDispatchRepository {
    var files: map<CaseKey, CaseFile>
    var placed: map<AttemptKey, Address>
    var callbacks: map<Token, Address>
    var idempotency: map<IdempotencyScope, Id>
    var dedupe: set<DedupeEntry>

    /** Everything the repository holds. */
    function Snapshot(): Store
      reads this
    {
      Store(files, placed, callbacks, idempotency, dedupe)
    }

    ghost predicate Valid()
      reads this
    {
      Snapshot().Indexed()
    }

    constructor ()
      ensures Valid() && Snapshot() == EMPTY
    {
      files, placed, callbacks, idempotency, dedupe := map[], map[], map[], map[], {};
    }

    /** Replaces a case file and remembers the key of the event just logged in it. */
    method Save(k: CaseKey, file: CaseFile, event: DispatchEvent)
      requires Valid() && (k in files ==> |files[k].slots| <= |file.slots|)
      modifies `files, `dedupe
      ensures Valid() && Snapshot() == Commit(old(Snapshot()), k, file, event)
    {
      CommitIndexed(Snapshot(), k, file, event);
      files := files[k := file];
      dedupe := dedupe + {DedupeEntry(k.tenantId, event.key)};
    }

    method CreateCase(record: DispatchCase, key: Text, event: DispatchEvent)
      returns (result: Result<Creation, DispatchError>)
      requires Valid()
      modifies this
      ensures Valid()
      ensures Reply(Snapshot(), result) == DispatchStore.CreateCase(old(Snapshot()), record, key, event)
    {
      var scope := IdempotencyScope(record.identity.tenantId, key);
      if scope in idempotency {
        return Ok(Creation(files[CaseKey(scope.tenantId, idempotency[scope])].record, false));
      }
      var k := record.Key();
      if k in files {
        return Err(Conflict(RepositoryConflict));
      }
      if !EventFits(event, record, None) {
        return Err(Conflict(StateConflict));
      }
      Save(k, CaseFile(record, [], [event]), event);
      idempotency := idempotency[scope := k.caseId];
      result := Ok(Creation(record, true));
    }

    method FindByIdempotency(tenantId: Id, key: Text) returns (found: Option<DispatchCase>)
      requires Valid()
      ensures found == DispatchStore.FindByIdempotency(Snapshot(), tenantId, key)
    {
      var scope := IdempotencyScope(tenantId, key);
      if scope in idempotency {
        found := Some(files[CaseKey(tenantId, idempotency[scope])].record);
      } else {
        found := None;
      }
    }

    method GetCase(k: CaseKey) returns (result: Result<DispatchCase, DispatchError>)
      ensures result == DispatchStore.GetCase(Snapshot(), k)
    {
      if k !in files {
        return Err(ResourceNotFound);
      }
      result := Ok(files[k].record);
    }

    method ListAttempts(k: CaseKey) returns (result: Result<seq<CallAttempt>, DispatchError>)
      ensures result == DispatchStore.ListAttempts(Snapshot(), k)
    {
      if k !in files {
        return Err(ResourceNotFound);
      }
      var attempts: seq<CallAttempt> := [];
      var i := 0;
      while i < |files[k].slots|
        invariant i <= |files[k].slots|
        invariant attempts == AttemptsOf(files[k].slots[..i])
      {
        attempts := attempts + [files[k].slots[i].attempt];
        i := i + 1;
      }
      assert files[k].slots[..i] == files[k].slots;
      result := Ok(attempts);
    }

    method ReserveNextAttempt(k: CaseKey, attemptId: Id, token: Token, now: Time, event: DispatchEvent)
      returns (result: Result<Reservation, DispatchError>)
      requires Valid()
      modifies this
      ensures Valid()
      ensures Reply(Snapshot(), result)
           == DispatchStore.ReserveNextAttempt(old(Snapshot()), k, attemptId, token, now, event)
    {
      if k !in files {
        return Err(ResourceNotFound);
      }
      var file := files[k];
      var n := |file.slots|;
      var open := FindLastOpen(file.slots);
      if open < n {
        return Ok(Reservation(file.record, file.slots[open].attempt, false));
      }
      if file.record.status.Terminal() {
        return Err(Conflict(CaseTerminal));
      }
      if !file.record.Due(now) {
        return Err(RetryNotDue);
      }
      if n + 1 > 3 {
        return Err(Conflict(AttemptLimitReached));
      }
      var ak := AttemptKey(k.tenantId, attemptId);
      if ak in placed || token in callbacks {
        return Err(Conflict(RepositoryConflict));
      }
      var record' := Dialed(file.record, n + 1, now);
      var attempt := NextAttempt(file.record, n, attemptId, token, now);
      if !EventFits(event, record', Some(attempt)) {
        return Err(Conflict(StateConflict));
      }
      Save(k, CaseFile(record', file.slots + [Slot(attempt, FRESH_SUBMISSION)], file.log + [event]), event);
      PlacedIndexed(Snapshot(), ak, token, Address(k, n));
      placed := placed[ak := Address(k, n)];
      callbacks := callbacks[token := Address(k, n)];
      result := Ok(Reservation(record', attempt, true));
    }

    /** The last attempt still open, or the number of attempts when there is none. */
    method FindLastOpen(slots: seq<Slot>) returns (open: nat)
      ensures open == LastOpen(AttemptsOf(slots))
    {
      open := |slots|;
      var i := 0;
      while i < |slots|
        invariant i <= |slots|
        invariant open == |slots| || open < i
        invariant open < |slots| ==> !slots[open].attempt.status.Terminal()
        invariant forall j :: 0 <= j < i && (open == |slots| || open < j) ==> slots[j].attempt.status.Terminal()
      {
        if !slots[i].attempt.status.Terminal() {
          open := i;
        }
        i := i + 1;
      }
      LastOpenIs(AttemptsOf(slots), open);
    }

    method ClaimProviderSubmission(k: CaseKey, attemptId: Id, token: ClaimToken, now: Time, deadline: Time)
      returns (result: Result<Claim, DispatchError>)
      requires Valid()
      modifies this
      ensures Valid()
      ensures Reply(Snapshot(), result)
           == DispatchStore.ClaimProviderSubmission(old(Snapshot()), k, attemptId, token, now, deadline)
    {
      if deadline <= now || token.None? {
        return Err(Conflict(ClaimInvalid));
      }
      var ak := AttemptKey(k.tenantId, attemptId);
      if k !in files || ak !in placed {
        return Err(ResourceNotFound);
      }
      var record, slot := files[k].record, Snapshot().At(placed[ak]);
      if placed[ak].home != k {
        return Err(Conflict(StateConflict));
      }
      if record.status.Terminal() {
        return Ok(Claim(record, slot.attempt, false, false, None));
      }
      match slot.submission.state {
        case Claimed =>
          var deadline' := slot.submission.deadline;
          return Ok(Claim(record, slot.attempt, false, deadline'.Some? && deadline'.value <= now, deadline'));
        case Submitted => return Ok(Claim(record, slot.attempt, false, false, None));
        case Uncertain => return Ok(Claim(record, slot.attempt, false, false, None));
        case Pending =>
      }
      if !record.Due(now) {
        return Err(RetryNotDue);
      }
      if !slot.attempt.status.AwaitingProvider() {
        return Ok(Claim(record, slot.attempt, false, false, None));
      }
      var record', slot' := ClaimedCase(record, now, deadline), ClaimedSlot(slot.attempt, token, now, deadline);
      files := files[k := CaseFile(record', files[k].slots[placed[ak].index := slot'], files[k].log)];
      result := Ok(Claim(record', slot'.attempt, true, false, Some(deadline)));
    }

    method FinishProviderSubmission(
      record: DispatchCase, attempt: CallAttempt, event: DispatchEvent, token: ClaimToken,
      outcome: SubmissionOutcome, caseVersion: int, attemptVersion: int)
      returns (result: Result<bool, DispatchError>)
      requires Valid() && Snapshot().Keeps(attempt)
      modifies this
      ensures Valid()
      ensures Reply(Snapshot(), result)
           == DispatchStore.FinishProviderSubmission(
                old(Snapshot()), record, attempt, event, token, outcome, caseVersion, attemptVersion)
    {
      var k, ak := record.Key(), attempt.Key();
      if k !in files || ak !in placed {
        return Err(ResourceNotFound);
      }
      if DedupeEntry(k.tenantId, event.key) in dedupe {
        return Ok(false);
      }
      var slot := Snapshot().At(placed[ak]);
      if || !slot.submission.state.Claimed?
         || slot.submission.owner != Some(ClaimDigest(token))
         || !VersionsMatch(files[k].record, slot.attempt, record, attempt, caseVersion, attemptVersion)
      {
        return Err(Conflict(RepositoryConflict));
      }
      if !OutcomeFits(outcome, record, attempt) {
        return Err(Conflict(TransitionInvalid));
      }
      if !EventFits(event, record, Some(attempt)) {
        return Err(Conflict(StateConflict));
      }
      var submission := slot.submission;
      if outcome.RetryableFailure? {
        submission := FRESH_SUBMISSION;
      } else {
        submission := submission.(
          state := if outcome.SubmittedOutcome? then Submitted else Uncertain,
          completedAt := Some(attempt.updatedAt));
      }
      Save(k, Amend(files[k], placed[ak].index, record, Slot(attempt, submission), event), event);
      result := Ok(true);
    }

    method BindProviderCallback(token: Token, reference: Reference, now: Time, event: DispatchEvent)
      returns (result: Result<Located, DispatchError>)
      requires Valid()
      modifies this
      ensures Valid()
      ensures Reply(Snapshot(), result)
           == DispatchStore.BindProviderCallback(old(Snapshot()), token, reference, now, event)
    {
      if reference.Blank() {
        return Err(CallMismatch);
      }
      if token !in callbacks {
        return Err(ResourceNotFound);
      }
      var k, n := callbacks[token].home, callbacks[token].index;
      var record, slot := files[k].record, files[k].slots[n];
      if slot.attempt.reference.Some? {
        if !slot.attempt.reference.value.Matches(reference) {
          return Err(CallMismatch);
        }
        return Ok(Located(record, slot.attempt));
      }
      if record.status.Terminal() || !slot.submission.state.Claimed? {
        return Err(Conflict(BindingUnavailable));
      }
      if DedupeEntry(k.tenantId, event.key) in dedupe {
        return Err(Conflict(RepositoryConflict));
      }
      var at := Later(now, slot.submission.claimedAt);
      var record', slot' := BoundCase(record, at), BoundSlot(slot, reference, at);
      if !OutcomeFits(SubmittedOutcome, record', slot'.attempt) {
        return Err(Conflict(TransitionInvalid));
      }
      if !EventFits(event, record', Some(slot'.attempt)) {
        return Err(Conflict(StateConflict));
      }
      Save(k, Amend(files[k], n, record', slot', event), event);
      result := Ok(Located(record', slot'.attempt));
    }

    method ExpireProviderSubmission(
      record: DispatchCase, attempt: CallAttempt, event: DispatchEvent, now: Time,
      caseVersion: int, attemptVersion: int)
      returns (result: Result<bool, DispatchError>)
      requires Valid() && Snapshot().Keeps(attempt)
      modifies this
      ensures Valid()
      ensures Reply(Snapshot(), result)
           == DispatchStore.ExpireProviderSubmission(
                old(Snapshot()), record, attempt, event, now, caseVersion, attemptVersion)
    {
      var k, ak := record.Key(), attempt.Key();
      if k !in files || ak !in placed {
        return Err(ResourceNotFound);
      }
      if DedupeEntry(k.tenantId, event.key) in dedupe {
        return Ok(false);
      }
      var slot := Snapshot().At(placed[ak]);
      if || !slot.submission.state.Claimed?
         || slot.submission.deadline.None?
         || slot.submission.deadline.value > now
         || !VersionsMatch(files[k].record, slot.attempt, record, attempt, caseVersion, attemptVersion)
      {
        return Err(Conflict(RepositoryConflict));
      }
      if !OutcomeFits(UncertainOutcome, record, attempt) {
        return Err(Conflict(TransitionInvalid));
      }
      if !EventFits(event, record, Some(attempt)) {
        return Err(Conflict(StateConflict));
      }
      var submission := slot.submission.(state := Uncertain, completedAt := Some(now));
      Save(k, Amend(files[k], placed[ak].index, record, Slot(attempt, submission), event), event);
      result := Ok(true);
    }

    method ApplyTransition(
      record: DispatchCase, attempt: CallAttempt, event: DispatchEvent, caseVersion: int, attemptVersion: int)
      returns (result: Result<bool, DispatchError>)
      requires Valid()
      modifies this
      ensures Valid()
      ensures Reply(Snapshot(), result)
           == DispatchStore.ApplyTransition(old(Snapshot()), record, attempt, event, caseVersion, attemptVersion)
    {
      var k, ak := record.Key(), attempt.Key();
      if k !in files || ak !in placed {
        return Err(ResourceNotFound);
      }
      if DedupeEntry(k.tenantId, event.key) in dedupe {
        return Ok(false);
      }
      var slot := Snapshot().At(placed[ak]);
      if !VersionsMatch(files[k].record, slot.attempt, record, attempt, caseVersion, attemptVersion) {
        return Err(Conflict(RepositoryConflict));
      }
      if && event.kind.Canceled?
         && (slot.submission.state.Claimed?
             || (slot.submission.state.Submitted? && slot.attempt.reference != attempt.reference))
      {
        return Err(Conflict(SubmissionInFlight));
      }
      if attempt.Home() != k || placed[ak].home != k {
        return Err(Conflict(StateConflict));
      }
      if !EventFits(event, record, Some(attempt)) {
        return Err(Conflict(StateConflict));
      }
      Save(k, Amend(files[k], placed[ak].index, record, Slot(attempt, slot.submission), event), event);
      result := Ok(true);
    }

    method ApplyCaseTransition(record: DispatchCase, event: DispatchEvent, caseVersion: int)
      returns (result: Result<bool, DispatchError>)
      requires Valid()
      modifies this
      ensures Valid()
      ensures Reply(Snapshot(), result)
           == DispatchStore.ApplyCaseTransition(old(Snapshot()), record, event, caseVersion)
    {
      var k := record.Key();
      if k !in files {
        return Err(ResourceNotFound);
      }
      if DedupeEntry(k.tenantId, event.key) in dedupe {
        return Ok(false);
      }
      if files[k].record.version != caseVersion || record.version != caseVersion + 1 {
        return Err(Conflict(RepositoryConflict));
      }
      if !EventFits(event, record, None) {
        return Err(Conflict(StateConflict));
      }
      Save(k, CaseFile(record, files[k].slots, files[k].log + [event]), event);
      result := Ok(true);
    }

    method AppendEvent(event: DispatchEvent) returns (result: Result<bool, DispatchError>)
      requires Valid()
      modifies this
      ensures Valid()
      ensures Reply(Snapshot(), result) == DispatchStore.AppendEvent(old(Snapshot()), event)
    {
      var k := CaseKey(event.tenantId, event.caseId);
      if k !in files {
        return Err(ResourceNotFound);
      }
      if DedupeEntry(k.tenantId, event.key) in dedupe {
        return Ok(false);
      }
      var attempt: Option<CallAttempt> := None;
      if event.attemptId.Some? {
        var ak := AttemptKey(event.tenantId, event.attemptId.value);
        if ak !in placed {
          return Err(ResourceNotFound);
        }
        attempt := Some(Snapshot().At(placed[ak]).attempt);
      }
      if !EventFits(event, files[k].record, attempt) {
        return Err(Conflict(StateConflict));
      }
      Save(k, Note(files[k], event), event);
      result := Ok(true);
    }

    method ResolveCallback(token: Token) returns (result: Result<Located, DispatchError>)
      requires Valid()
      ensures result == DispatchStore.ResolveCallback(Snapshot(), token)
    {
      if token !in callbacks {
        return Err(ResourceNotFound);
      }
      var a := callbacks[token];
      result := Ok(Located(files[a.home].record, files[a.home].slots[a.index].attempt));
    }
  }

  /** The last open position is unique. */
  lemma LastOpenIs(attempts: seq<CallAttempt>, open: nat)
    requires open <= |attempts|
    requires open < |attempts| ==> !attempts[open].status.Terminal()
    requires forall j :: 0 <= j < |attempts| && (open == |attempts| || open < j) ==> attempts[j].status.Terminal()
    ensures open == LastOpen(attempts)
  {
  }
}
