/**
  The sequential meaning of the dispatch protocol: one case file, changed by
  one atomic move at a time.  A move reads the current file and nothing else,
  so no version check and no interleaving appears here.  That the concurrent
  coordinator does exactly this is proved in DispatchRefinement.
*/
module CaseAutomaton {
  import opened Wrappers
  import opened DispatchModels
  import opened DispatchStore
  import opened DispatchCoordinator

  datatype CaseMove =
    | Reserve(attemptId: Id, token: Token, now: Time, event: DispatchEvent)
    | TakeClaim(n: nat, claim: ClaimToken, now: Time, deadline: Time)
    | Bind(n: nat, reference: Reference, now: Time, event: DispatchEvent)
    | Refuse(n: nat, at: Time, code: Code, eventId: Id)
    | GiveUp(n: nat, at: Time, code: Code, eventId: Id)
    | Callback(n: nat, reference: Reference, action: CallbackAction, env: Env)
    | Cancel(n: nat, eventKey: Text, env: Env)
    | Exhaust(n: nat, env: Env)
    | Remark(n: nat, event: DispatchEvent)

  // A move is labelled with the event it appends, so its key is part of the guard.

  /** The open attempt of a file, or nothing when the index is past the end. */
  function SlotAt(f: CaseFile, n: nat): Option<CallAttempt> {
    if n < |f.slots| then Some(f.slots[n].attempt) else None
  }

  predicate Enabled(policy: Policy, m: CaseMove, f: CaseFile) {
    match m
    case Reserve(attemptId, _, now, event) =>
      && event.key == AttemptReservedKey(f.record.identity.tenantId, f.record.identity.caseId, attemptId)
      && !f.record.status.Terminal()
      && LastOpen(AttemptsOf(f.slots)) == |f.slots|
      && f.record.Due(now)
      && |f.slots| < 3
    case TakeClaim(n, claim, now, deadline) =>
      && n < |f.slots|
      && !f.record.status.Terminal()
      && f.slots[n].submission.state.Pending?
      && f.slots[n].attempt.status.AwaitingProvider()
      && f.record.Due(now)
      && now < deadline
    case Bind(n, reference, _, event) =>
      && n < |f.slots|
      && event.key == CallInitiatedKey(f.slots[n].attempt.identity.attemptId)
      && !f.record.status.Terminal()
      && f.slots[n].submission.state.Claimed?
      && f.slots[n].attempt.reference.None?
      && !reference.Blank()
    case Refuse(n, _, _, _) =>
      && n < |f.slots|
      && !f.record.status.Terminal()
      && f.slots[n].submission.state.Claimed?
      && f.slots[n].attempt.status.AwaitingProvider()
    case GiveUp(n, _, _, _) =>
      && n < |f.slots|
      && !f.record.status.Terminal()
      && f.slots[n].submission.state.Claimed?
      && f.slots[n].attempt.status.AwaitingProvider()
    case Callback(n, reference, action, env) =>
      && n < |f.slots|
      && f.slots[n].attempt.reference.Some? && f.slots[n].attempt.reference.value.Admits(reference)
      && Handle(policy, f.record, f.slots[n].attempt, reference, action, env).Change?
    case Cancel(n, _, _) =>
      && !f.record.status.Terminal()
      && n == LastOpen(AttemptsOf(f.slots))
      && (n < |f.slots| ==> !f.slots[n].submission.state.Claimed?)
    case Exhaust(n, _) =>
      && !f.record.status.Terminal()
      && n == LastOpen(AttemptsOf(f.slots))
    case Remark(n, event) =>
      && n < |f.slots|
      && event.attemptId == Some(f.slots[n].attempt.identity.attemptId)
      && event.key.FromCallback()
      && f.slots[n].attempt.reference.Some? && f.slots[n].attempt.reference.value.Admits(event.key.reference)
  }

  function Perform(policy: Policy, m: CaseMove, f: CaseFile): CaseFile
    requires Enabled(policy, m, f)
  {
    match m
    case Reserve(attemptId, token, now, event) => Extend(f, attemptId, token, now, event)
    case TakeClaim(n, claim, now, deadline) => ClaimFile(f, n, claim, now, deadline)
    case Bind(n, reference, now, event) => BindFile(f, n, reference, now, event)
    case Refuse(n, at, code, eventId) =>
      var plan := MarkProviderRetry(f.record, f.slots[n].attempt, at, code, eventId);
      Amend(f, n, plan.record, Slot(plan.attempt, FRESH_SUBMISSION), plan.event)
    case GiveUp(n, at, code, eventId) =>
      var plan := MarkSubmissionUncertain(f.record, f.slots[n].attempt, at, code, eventId);
      Amend(f, n, plan.record,
            Slot(plan.attempt, FinishedSubmission(f.slots[n].submission, UncertainOutcome, at)), plan.event)
    case Callback(n, reference, action, env) =>
      var plan := Handle(policy, f.record, f.slots[n].attempt, reference, action, env).plan;
      Amend(f, n, plan.record, f.slots[n].(attempt := plan.attempt), plan.event)
    case Cancel(n, eventKey, env) =>
      var event := CancelEvent(f.record, SlotAt(f, n), eventKey, env);
      CloseWith(f, Close(f.record, DispatchStatus.Canceled, env.now), n,
                if n < |f.slots| then [CanceledAttempt(f.slots[n].attempt, env.now)] else [], event)
    case Exhaust(n, env) =>
      var event := ExhaustEvent(f.record, SlotAt(f, n), env);
      CloseWith(f, Close(f.record, DispatchStatus.ManualFollowUp, env.now), n,
                if n < |f.slots| then [ExhaustedAttempt(f.slots[n].attempt, env.now)] else [], event)
    case Remark(_, event) => Note(f, event)
  }

  /** A closed file; the open attempt, when there is one, ends with it. */
  function CloseWith(
    f: CaseFile, record: DispatchCase, n: nat, ended: seq<CallAttempt>, event: DispatchEvent): CaseFile
    requires if n < |f.slots| then |ended| == 1 else ended == []
  {
    if n < |f.slots| then Amend(f, n, record, f.slots[n].(attempt := ended[0]), event)
    else CaseFile(record, f.slots, f.log + [event])
  }

  // ---------- the invariant of every reachable file ----------

  /** The n-th attempt is the n-th step of the 2-primary/1-supervisor ladder. */
  predicate Rung(record: DispatchCase, n: nat, attempt: CallAttempt) {
    && attempt.identity.sequence == n + 1
    && attempt.Home() == record.Key()
    && attempt.identity.targetRole == RoleFor(n + 1)
    && attempt.identity.contactId
       == (if n < 2 then record.identity.primaryContactId else record.identity.supervisorContactId)
  }

  /** Which submission states an attempt status allows. */
  predicate Coherent(slot: Slot) {
    var state := slot.submission.state;
    && (slot.attempt.reference.Some? <==> state.Submitted?)
    && (slot.attempt.reference.Some? ==> !slot.attempt.reference.value.Blank())
    && (match slot.attempt.status
        case Reserved => state.Pending? || state.Claimed?
        case ProviderRetry => state.Pending? || state.Claimed?
        case Initiated => state.Submitted?
        case Ringing => state.Submitted?
        case Answered => state.Submitted?
        case Acknowledged => state.Submitted?
        case Unacknowledged => state.Submitted? && slot.attempt.completedAt.Some?
        case Canceled => state.Pending? || state.Submitted?
        case ManualFollowUp => true)
    && (state.Claimed? ==> slot.submission.deadline.Some?)
  }

  predicate AllUnacknowledged(slots: seq<Slot>) {
    forall i :: 0 <= i < |slots| ==> slots[i].attempt.status.Unacknowledged?
  }

  /** Every attempt but the last ended unacknowledged. */
  predicate Escalated(slots: seq<Slot>) {
    && |slots| > 0
    && (forall i :: 0 <= i < |slots| - 1 ==> slots[i].attempt.status.Unacknowledged?)
  }

  function LastStatus(f: CaseFile): AttemptStatus
    requires |f.slots| > 0
  {
    f.slots[|f.slots| - 1].attempt.status
  }

  /** What the status of the case says about its attempts. */
  ghost predicate Shape(f: CaseFile) {
    match f.record.status
    case Queued => f.slots == []
    case Dialing =>
      Escalated(f.slots)
      && (LastStatus(f).Reserved? || LastStatus(f).Initiated? || LastStatus(f).Ringing?)
    case AwaitingAcknowledgement => Escalated(f.slots) && LastStatus(f).Answered?
    case ProviderRetry => Escalated(f.slots) && LastStatus(f).ProviderRetry?
    case RetryScheduled => |f.slots| == 1 && AllUnacknowledged(f.slots)
    case SupervisorScheduled => |f.slots| == 2 && AllUnacknowledged(f.slots)
    case Unacknowledged => |f.slots| == 3 && AllUnacknowledged(f.slots)
    case Acknowledged => exists i :: 0 <= i < |f.slots| && f.slots[i].attempt.status.Acknowledged?
    case ManualFollowUp => true
    case Canceled =>
      forall i :: 0 <= i < |f.slots| ==>
        f.slots[i].attempt.status.Unacknowledged? || f.slots[i].attempt.status.Canceled?
  }

  predicate Waited(policy: Policy, earlier: CallAttempt, later: CallAttempt) {
    earlier.status.Unacknowledged? ==>
      && earlier.completedAt.Some?
      && earlier.completedAt.value + policy.retryDelay <= later.identity.createdAt
  }

  /** The wait between one attempt's end and the next reservation. */
  predicate Spaced(policy: Policy, f: CaseFile) {
    && (forall i :: 0 <= i < |f.slots| - 1 ==> Waited(policy, f.slots[i].attempt, f.slots[i + 1].attempt))
    && (f.record.status.RetryScheduled? || f.record.status.SupervisorScheduled? ==>
          && |f.slots| > 0
          && f.slots[|f.slots| - 1].attempt.completedAt.Some?
          && f.record.nextAttemptAt
             == Some(f.slots[|f.slots| - 1].attempt.completedAt.value + policy.retryDelay))
  }

  ghost predicate Ladder(policy: Policy, f: CaseFile) {
    && |f.slots| <= 3
    && f.record.attemptCount == |f.slots|
    && f.record.WellFormed()
    && (forall i :: 0 <= i < |f.slots| ==> Rung(f.record, i, f.slots[i].attempt))
    && (forall i :: 0 <= i < |f.slots| ==> Coherent(f.slots[i]))
    && (forall i :: 0 <= i < |f.slots| - 1 ==> f.slots[i].attempt.status.Terminal())
    && Shape(f)
    && Spaced(policy, f)
  }

  lemma NewFileLadder(policy: Policy, record: DispatchCase, event: DispatchEvent)
    requires record.status.Queued? && record.attemptCount == 0 && record.WellFormed()
    ensures Ladder(policy, CaseFile(record, [], [event]))
  {
  }

  lemma ReserveLadder(policy: Policy, m: CaseMove, f: CaseFile)
    requires m.Reserve? && Enabled(policy, m, f) && Ladder(policy, f)
    ensures Ladder(policy, Perform(policy, m, f))
  {
    var f' := Perform(policy, m, f);
    var n := |f.slots|;
    assert forall i :: 0 <= i < n ==> AttemptsOf(f.slots)[i] == f.slots[i].attempt;
    assert f'.slots[n].attempt.identity.createdAt == m.now;
  }

  lemma ClaimLadder(policy: Policy, m: CaseMove, f: CaseFile)
    requires m.TakeClaim? && Enabled(policy, m, f) && Ladder(policy, f)
    ensures Ladder(policy, Perform(policy, m, f))
  {
    LastSlotLadder(policy, f, Perform(policy, m, f), m.n);
  }

  lemma BindLadder(policy: Policy, m: CaseMove, f: CaseFile)
    requires m.Bind? && Enabled(policy, m, f) && Ladder(policy, f)
    ensures Ladder(policy, Perform(policy, m, f))
  {
    ClaimedIsLast(policy, f, m.n);
    LastSlotLadder(policy, f, Perform(policy, m, f), m.n);
  }

  lemma RefuseLadder(policy: Policy, m: CaseMove, f: CaseFile)
    requires m.Refuse? && Enabled(policy, m, f) && Ladder(policy, f)
    ensures Ladder(policy, Perform(policy, m, f))
  {
    LastSlotLadder(policy, f, Perform(policy, m, f), m.n);
  }

  lemma GiveUpLadder(policy: Policy, m: CaseMove, f: CaseFile)
    requires m.GiveUp? && Enabled(policy, m, f) && Ladder(policy, f)
    ensures Ladder(policy, Perform(policy, m, f))
  {
    LastSlotLadder(policy, f, Perform(policy, m, f), m.n);
  }

  /** In an open case a claimed submission belongs to the last attempt. */
  lemma ClaimedIsLast(policy: Policy, f: CaseFile, n: nat)
    requires Ladder(policy, f) && !f.record.status.Terminal()
    requires n < |f.slots| && f.slots[n].submission.state.Claimed?
    ensures n == |f.slots| - 1 && f.slots[n].attempt.status.AwaitingProvider()
  {
    assert Coherent(f.slots[n]);
  }

  /** Changing only the last attempt keeps everything said about earlier ones. */
  lemma LastSlotLadder(policy: Policy, f: CaseFile, f': CaseFile, n: nat)
    requires Ladder(policy, f)
    requires n == |f.slots| - 1 && |f'.slots| == |f.slots|
    requires f'.slots == f.slots[n := f'.slots[n]]
    requires f'.record.identity == f.record.identity && f'.record.attemptCount == f.record.attemptCount
    requires f'.record.WellFormed()
    requires f'.slots[n].attempt.identity == f.slots[n].attempt.identity
    requires Coherent(f'.slots[n])
    requires Escalated(f.slots) ==> Shape(f')
    requires Escalated(f.slots)
    requires !f'.record.status.RetryScheduled? && !f'.record.status.SupervisorScheduled?
    ensures Ladder(policy, f')
  {
    assert forall i :: 0 <= i < n ==> f'.slots[i] == f.slots[i];
  }

  lemma ProgressLadder(policy: Policy, f: CaseFile, f': CaseFile, n: nat, word: ProviderWord, at: Time)
    requires Ladder(policy, f) && !f.record.status.Terminal() && !word.Ends()
    requires n < |f.slots| && !f.slots[n].attempt.status.Terminal() && f.slots[n].attempt.reference.Some?
    requires f'.slots == f.slots[n := f.slots[n].(attempt := ProgressedAttempt(f.slots[n].attempt, word, at))]
    requires f'.record == ProgressedCase(f.record, ProgressStatus(f.slots[n].attempt.status, word), at)
    ensures Ladder(policy, f')
  {
    assert Coherent(f.slots[n]);
    LastSlotLadder(policy, f, f', n);
  }

  lemma UnacknowledgedLadder(
    policy: Policy, f: CaseFile, f': CaseFile, n: nat, at: Time, outcome: CallOutcome)
    requires Ladder(policy, f) && !f.record.status.Terminal()
    requires n < |f.slots| && !f.slots[n].attempt.status.Terminal() && f.slots[n].attempt.reference.Some?
    requires f'.slots
          == f.slots[n := f.slots[n].(attempt := UnacknowledgedAttempt(policy, f.slots[n].attempt, at, outcome))]
    requires f'.record == UnacknowledgedCase(policy, f.record, f.slots[n].attempt.identity.sequence, at)
    ensures Ladder(policy, f')
  {
    assert n == |f.slots| - 1;
    assert Rung(f.record, n, f.slots[n].attempt) && Coherent(f.slots[n]);
    assert forall i :: 0 <= i < n ==> f'.slots[i] == f.slots[i];
  }

  /** Ending at most one attempt while the case closes. */
  lemma ClosedLadder(policy: Policy, f: CaseFile, f': CaseFile, n: nat)
    requires Ladder(policy, f)
    requires |f'.slots| == |f.slots|
    requires forall i :: 0 <= i < |f.slots| && i != n ==> f'.slots[i] == f.slots[i]
    requires n < |f.slots| ==>
               && f'.slots[n].attempt.identity == f.slots[n].attempt.identity
               && Coherent(f'.slots[n])
               && f'.slots[n].attempt.status.Terminal()
               && !f'.slots[n].attempt.status.Unacknowledged?
    requires f'.record.identity == f.record.identity && f'.record.attemptCount == f.record.attemptCount
    requires f'.record.WellFormed() && f'.record.status.Terminal()
    requires Shape(f')
    ensures Ladder(policy, f')
  {
  }

  /** In an open case every attempt but the open one ended unacknowledged. */
  lemma OpenCase(policy: Policy, f: CaseFile)
    requires Ladder(policy, f) && !f.record.status.Terminal()
    ensures var n := LastOpen(AttemptsOf(f.slots));
            && (n < |f.slots| ==> n == |f.slots| - 1)
            && (forall i :: 0 <= i < |f.slots| && i != n ==> f.slots[i].attempt.status.Unacknowledged?)
  {
    assert forall i :: 0 <= i < |f.slots| ==> AttemptsOf(f.slots)[i] == f.slots[i].attempt;
  }

  /** A key-press may end any bound attempt; it always closes the case. */
  lemma KeyPressLadder(policy: Policy, f: CaseFile, f': CaseFile, n: nat, at: Time, digits: Digits)
    requires Ladder(policy, f) && !f.record.status.Absorbing()
    requires n < |f.slots| && f.slots[n].attempt.reference.Some? && !digits.Other?
    requires f'.slots
          == f.slots[n := f.slots[n].(attempt :=
               if digits.One? then End(f.slots[n].attempt, AttemptStatus.Acknowledged, CallOutcome.Acknowledged, at)
               else End(f.slots[n].attempt, AttemptStatus.ManualFollowUp, CallbackRequested, at))]
    requires f'.record
          == Close(f.record, if digits.One? then DispatchStatus.Acknowledged else DispatchStatus.ManualFollowUp, at)
    ensures Ladder(policy, f')
  {
    assert Coherent(f.slots[n]);
    assert forall i :: 0 <= i < |f.slots| && i != n ==> f'.slots[i] == f.slots[i];
    if digits.One? {
      assert f'.slots[n].attempt.status.Acknowledged?;
    }
    ClosedLadder(policy, f, f', n);
  }

  lemma CallbackLadder(policy: Policy, m: CaseMove, f: CaseFile)
    requires m.Callback? && Enabled(policy, m, f) && Ladder(policy, f)
    ensures Ladder(policy, Perform(policy, m, f))
  {
    var f' := Perform(policy, m, f);
    match m.action {
      case Status(word, at) =>
        var time := CallbackTime(at, m.env);
        if word.Ends() {
          UnacknowledgedLadder(policy, f, f', m.n, time, EndingOutcome(word));
        } else {
          ProgressLadder(policy, f, f', m.n, word, time);
        }
      case Gather(digits, at) =>
        KeyPressLadder(policy, f, f', m.n, CallbackTime(at, m.env), digits);
      case MachineDetection(_, at) =>
        UnacknowledgedLadder(policy, f, f', m.n, CallbackTime(at, m.env), NoAcknowledgement);
    }
  }

  lemma CancelLadder(policy: Policy, m: CaseMove, f: CaseFile)
    requires m.Cancel? && Enabled(policy, m, f) && Ladder(policy, f)
    ensures Ladder(policy, Perform(policy, m, f))
  {
    var f' := Perform(policy, m, f);
    OpenCase(policy, f);
    if m.n < |f.slots| {
      assert Coherent(f.slots[m.n]);
    }
    assert forall i :: 0 <= i < |f.slots| && i != m.n ==> f'.slots[i] == f.slots[i];
    ClosedLadder(policy, f, f', m.n);
  }

  lemma ExhaustLadder(policy: Policy, m: CaseMove, f: CaseFile)
    requires m.Exhaust? && Enabled(policy, m, f) && Ladder(policy, f)
    ensures Ladder(policy, Perform(policy, m, f))
  {
    var f' := Perform(policy, m, f);
    OpenCase(policy, f);
    if m.n < |f.slots| {
      assert Coherent(f.slots[m.n]);
    }
    assert forall i :: 0 <= i < |f.slots| && i != m.n ==> f'.slots[i] == f.slots[i];
    ClosedLadder(policy, f, f', m.n);
  }

  /** Every move keeps the ladder. */
  lemma MoveLadder(policy: Policy, m: CaseMove, f: CaseFile)
    requires Enabled(policy, m, f) && Ladder(policy, f)
    ensures Ladder(policy, Perform(policy, m, f))
  {
    match m {
      case Reserve(_, _, _, _) => ReserveLadder(policy, m, f);
      case TakeClaim(_, _, _, _) => ClaimLadder(policy, m, f);
      case Bind(_, _, _, _) => BindLadder(policy, m, f);
      case Refuse(_, _, _, _) => RefuseLadder(policy, m, f);
      case GiveUp(_, _, _, _) => GiveUpLadder(policy, m, f);
      case Callback(_, _, _, _) => CallbackLadder(policy, m, f);
      case Cancel(_, _, _) => CancelLadder(policy, m, f);
      case Exhaust(_, _) => ExhaustLadder(policy, m, f);
      case Remark(_, _) =>
    }
  }
}
