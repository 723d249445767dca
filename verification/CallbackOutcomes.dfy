/**
  What a provider callback leaves behind when nobody interferes, field by field:
  for every status word, every key and every machine result, and for a callback
  that arrives before its call is bound.
*/
module CallbackOutcomes {
  import opened Wrappers
  import opened DispatchModels
  import opened DispatchStore
  import opened DispatchCoordinator
  import opened CaseAutomaton
  import opened DispatchRefinement
  import opened DispatchAlone
  import RepositoryOutcomes

  /** The file of one case has a new record, new slots and one more event, whose key is remembered. */
  predicate Becomes(s: Store, s': Store, k: CaseKey, record: DispatchCase, slots: seq<Slot>, event: DispatchEvent) {
    && k in s.files
    && s' == s.(files := s.files[k := CaseFile(record, slots, s.files[k].log + [event])],
                dedupe := s.dedupe + {DedupeEntry(k.tenantId, event.key)})
  }

  /** Nothing but the log changes. */
  predicate OnlyLogs(s: Store, s': Store, k: CaseKey, event: DispatchEvent) {
    k in s.files && Becomes(s, s', k, s.files[k].record, s.files[k].slots, event)
  }

  /** An event about the attempt at position n. */
  predicate About(
    event: DispatchEvent, s: Store, k: CaseKey, n: nat, kind: EventKind, at: Time, key: DedupeKey,
    detail: Option<Detail>)
  {
    && k in s.files && n < |s.files[k].slots|
    && event.tenantId == k.tenantId && event.caseId == k.caseId
    && event.attemptId == Some(s.files[k].slots[n].attempt.identity.attemptId)
    && event.kind == kind && event.occurredAt == at && event.key == key && event.detail == detail
  }

  /** The call ended without an acknowledgement: retry, then the supervisor, then the case is exhausted. */
  predicate CallEnded(
    policy: Policy, s: Store, s': Store, k: CaseKey, n: nat, outcome: CallOutcome, at: Time, event: DispatchEvent)
  {
    && k in s.files && n < |s.files[k].slots|
    && (var record, attempt := s.files[k].record, s.files[k].slots[n].attempt;
        var last := n == 2;
        var next := if last then None else Some(at + policy.retryDelay);
        Becomes(
          s, s', k,
          record.(
            status :=
              if n == 0 then DispatchStatus.RetryScheduled
              else if n == 1 then DispatchStatus.SupervisorScheduled
              else DispatchStatus.Unacknowledged,
            nextAttemptAt := next,
            finalOutcome := if last then Some(DispatchStatus.Unacknowledged) else None,
            closedAt := if last then Some(at) else None,
            updatedAt := at,
            version := record.version + 1),
          s.files[k].slots[
            n := s.files[k].slots[n].(
              attempt := attempt.(
                status := AttemptStatus.Unacknowledged, outcome := Some(outcome), completedAt := Some(at),
                nextActionAt := next, updatedAt := at, version := attempt.version + 1))],
          event))
  }

  /** The kind of event that says how a call ended. */
  predicate EndKind(n: nat, kind: EventKind) {
    kind == (if n == 0 then EventKind.RetryScheduled else if n == 1 then EventKind.SupervisorScheduled else Exhausted)
  }

  /** The call in progress reached this status. */
  predicate CallReached(
    s: Store, s': Store, k: CaseKey, n: nat, status: AttemptStatus, at: Time, event: DispatchEvent)
  {
    && k in s.files && n < |s.files[k].slots|
    && (var record, attempt := s.files[k].record, s.files[k].slots[n].attempt;
        Becomes(
          s, s', k,
          record.(
            status := if status.Answered? then DispatchStatus.AwaitingAcknowledgement else DispatchStatus.Dialing,
            updatedAt := at,
            version := record.version + 1),
          s.files[k].slots[
            n := s.files[k].slots[n].(
              attempt := attempt.(
                status := status,
                initiatedAt := if attempt.initiatedAt.Some? then attempt.initiatedAt else Some(at),
                answeredAt :=
                  if attempt.answeredAt.Some? || !status.Answered? then attempt.answeredAt else Some(at),
                updatedAt := at,
                version := attempt.version + 1))],
          event))
  }

  /** A key-press closed the case and ended the pressed attempt. */
  predicate CaseAnswered(
    s: Store, s': Store, k: CaseKey, n: nat, status: DispatchStatus, attemptStatus: AttemptStatus,
    outcome: CallOutcome, at: Time, event: DispatchEvent)
  {
    && k in s.files && n < |s.files[k].slots|
    && (var record, attempt := s.files[k].record, s.files[k].slots[n].attempt;
        Becomes(
          s, s', k,
          record.(
            status := status, nextAttemptAt := None, finalOutcome := Some(status), closedAt := Some(at),
            updatedAt := at, version := record.version + 1),
          s.files[k].slots[
            n := s.files[k].slots[n].(
              attempt := attempt.(
                status := attemptStatus, outcome := Some(outcome), completedAt := Some(at), nextActionAt := None,
                updatedAt := at, version := attempt.version + 1))],
          event))
  }

  /** The attempt at position n of a sound store is bound, and this program handles a callback for it. */
  ghost predicate Handles(
    policy: Policy, s: Store, k: CaseKey, n: nat, r: Reference, action: CallbackAction, draws: Draws, s': Store,
    result: Result<Answer, DispatchError>)
  {
    && Sound(policy, s) && k in s.files && n < |s.files[k].slots|
    && s.files[k].slots[n].attempt.reference.Some?
    && Ends(policy, s, FoundAt(s, k, n, r, action), draws, s', result)
  }

  /** The moment a callback counts for: its own, or the clock reading of its handling. */
  predicate CountsAt(
    s: Store, k: CaseKey, n: nat, r: Reference, action: CallbackAction, draws: Draws, occurredAt: Option<Time>,
    at: Time)
    requires k in s.files && n < |s.files[k].slots|
  {
    at == if occurredAt.Some? then occurredAt.value else draws(FoundAt(s, k, n, r, action)).now
  }

  /** A case that is closed, or an attempt that has ended. */
  predicate Over(s: Store, k: CaseKey, n: nat)
    requires k in s.files && n < |s.files[k].slots|
  {
    s.files[k].record.status.Terminal() || s.files[k].slots[n].attempt.status.Terminal()
  }

  // ---------- what a handler decides ----------

  /** Where the attempt at position n stands, and that it was bound. */
  predicate Standing(s: Store, k: CaseKey, n: nat) {
    && k in s.files && n < |s.files[k].slots| && n < 3
    && s.files[k].record.Key() == k && Filed(s, k, n)
    && s.files[k].slots[n].attempt.identity.sequence == n + 1
    && (s.files[k].slots[n].attempt.status.InProgress() || s.files[k].slots[n].attempt.status.Terminal())
  }

  lemma SoundStanding(policy: Policy, s: Store, k: CaseKey, n: nat)
    requires Sound(policy, s) && k in s.files && n < |s.files[k].slots|
    requires s.files[k].slots[n].attempt.reference.Some?
    ensures Standing(s, k, n)
  {
    assert Ladder(policy, s.files[k]);
    assert Rung(s.files[k].record, n, s.files[k].slots[n].attempt) && Coherent(s.files[k].slots[n]);
  }

  /** What handling the callback does to the store. */
  function Applied(
    policy: Policy, s: Store, k: CaseKey, n: nat, r: Reference, action: CallbackAction, env: Env): Move
    requires s.Indexed() && k in s.files && n < |s.files[k].slots|
  {
    ActCallbackApply(policy, s, r, action, Located(s.files[k].record, s.files[k].slots[n].attempt), env)
  }

  lemma HandledHere(
    policy: Policy, s: Store, k: CaseKey, n: nat, r: Reference, action: CallbackAction, draws: Draws, s': Store,
    result: Result<Answer, DispatchError>)
    requires Handles(policy, s, k, n, r, action, draws, s', result)
    ensures Standing(s, k, n)
    ensures var move := Applied(policy, s, k, n, r, action, draws(FoundAt(s, k, n, r, action)));
            move.next.Finished? && s' == move.store && result == move.next.result
  {
    var p := FoundAt(s, k, n, r, action);
    SoundStanding(policy, s, k, n);
    ApplyFinishes(policy, s, k, n, r, action, draws(p));
    EndsHere(policy, s, p, draws, Act(policy, s, p, draws(p)), s', result);
  }

  lemma ApplyFinishes(
    policy: Policy, s: Store, k: CaseKey, n: nat, r: Reference, action: CallbackAction, env: Env)
    requires s.Indexed() && k in s.files && n < |s.files[k].slots|
    ensures Act(policy, s, FoundAt(s, k, n, r, action), env) == Applied(policy, s, k, n, r, action, env)
    ensures Applied(policy, s, k, n, r, action, env).next.Finished?
  {
  }

  /** A decision to log only, under a new key. */
  lemma AppendApplies(
    policy: Policy, s: Store, k: CaseKey, n: nat, r: Reference, action: CallbackAction, env: Env,
    event: DispatchEvent)
    requires s.Indexed() && Standing(s, k, n)
    requires Handle(policy, s.files[k].record, s.files[k].slots[n].attempt, r, action, env) == Append(event)
    requires About(event, s, k, n, event.kind, event.occurredAt, event.key, event.detail)
    ensures var move := Applied(policy, s, k, n, r, action, env);
            && move.next == Finished(Ok(NoResult))
            && (if s.Logged(k.tenantId, event.key) then move.store == s else OnlyLogs(s, move.store, k, event))
  {
  }

  /** A decision to change the case and the attempt, under a new key. */
  lemma ChangeApplies(
    policy: Policy, s: Store, k: CaseKey, n: nat, r: Reference, action: CallbackAction, env: Env, plan: Plan)
    requires s.Indexed() && Standing(s, k, n)
    requires Handle(policy, s.files[k].record, s.files[k].slots[n].attempt, r, action, env) == Change(plan)
    requires About(plan.event, s, k, n, plan.event.kind, plan.event.occurredAt, plan.event.key, plan.event.detail)
    requires !plan.event.kind.Canceled?
    requires plan.record.identity == s.files[k].record.identity
    requires plan.record.version == s.files[k].record.version + 1
    requires plan.attempt.identity == s.files[k].slots[n].attempt.identity
    requires plan.attempt.version == s.files[k].slots[n].attempt.version + 1
    ensures var move := Applied(policy, s, k, n, r, action, env);
            && move.next == Finished(Ok(NoResult))
            && (if s.Logged(k.tenantId, plan.event.key) then move.store == s
                else Becomes(s, move.store, k, plan.record,
                             s.files[k].slots[n := s.files[k].slots[n].(attempt := plan.attempt)], plan.event))
  {
  }

  // ---------- the handlers ----------

  /** Status words that end a call, and what is recorded for each. */
  function Ending(word: ProviderWord): Option<CallOutcome> {
    match word
    case Completed => Some(NoAcknowledgement)
    case Busy => Some(CallOutcome.Busy)
    case NoAnswer => Some(CallOutcome.NoAnswer)
    case Failed => Some(CallOutcome.Failed)
    case Canceled => Some(CallOutcome.Canceled)
    case _ => None
  }

  /** The status that a progress word takes a call in progress to. */
  function ReachedStatus(current: AttemptStatus, word: ProviderWord): AttemptStatus {
    match word
    case Ringing => if current.Initiated? then AttemptStatus.Ringing else current
    case Answered => AttemptStatus.Answered
    case InProgress => AttemptStatus.Answered
    case _ => current
  }

  /**
    What a status word does to a bound attempt.  Over, it is only logged.
    Otherwise an ending word ends the call with its outcome; "queued" and
    "initiated" leave the status where it is, "ringing" takes an initiated call
    to ringing, and "answered" and "in progress" take any call in progress to
    answered.
  */
  predicate StatusTable(
    policy: Policy, s: Store, s': Store, k: CaseKey, n: nat, r: Reference, word: ProviderWord, at: Time,
    event: DispatchEvent)
  {
    && k in s.files && n < |s.files[k].slots|
    && About(event, s, k, n, event.kind, at, StatusKey(r, word), Some(Word(word)))
    && (if Over(s, k, n) then event.kind == ProviderStatus && OnlyLogs(s, s', k, event)
        else if Ending(word).Some? then
          EndKind(n, event.kind) && CallEnded(policy, s, s', k, n, Ending(word).value, at, event)
        else
          && event.kind == ProviderStatus
          && CallReached(s, s', k, n, ReachedStatus(s.files[k].slots[n].attempt.status, word), at, event))
  }

  /**
    What a key does to a bound attempt.  "1" acknowledges the case and "2" hands
    it to a person, unless it was acknowledged, handed over or canceled before;
    then, and for any other key, the callback is only logged.
  */
  predicate GatherTable(
    s: Store, s': Store, k: CaseKey, n: nat, r: Reference, digits: Digits, at: Time, event: DispatchEvent)
  {
    && k in s.files && n < |s.files[k].slots|
    && About(event, s, k, n, event.kind, at, GatherKey(r, digits), None)
    && (var status := s.files[k].record.status;
        var settled := status.Acknowledged? || status.ManualFollowUp? || status.Canceled?;
        match digits
        case Other(_) => event.kind == InvalidGatherInput && OnlyLogs(s, s', k, event)
        case One =>
          && event.kind == EventKind.Acknowledged
          && (if settled then OnlyLogs(s, s', k, event)
              else CaseAnswered(s, s', k, n, DispatchStatus.Acknowledged, AttemptStatus.Acknowledged,
                                CallOutcome.Acknowledged, at, event))
        case Two =>
          && event.kind == EventKind.ManualFollowUp
          && (if settled then OnlyLogs(s, s', k, event)
              else CaseAnswered(s, s', k, n, DispatchStatus.ManualFollowUp, AttemptStatus.ManualFollowUp,
                                CallbackRequested, at, event)))
  }

  /**
    What answering-machine detection does to a bound attempt.  Over, and for a
    person, it is only logged; anything else ends the call unacknowledged.
  */
  predicate MachineTable(
    policy: Policy, s: Store, s': Store, k: CaseKey, n: nat, r: Reference, machine: MachineResult, at: Time,
    event: DispatchEvent)
  {
    && k in s.files && n < |s.files[k].slots|
    && About(event, s, k, n, event.kind, at, MachineKey(r, machine), Some(Machine(machine)))
    && (if Over(s, k, n) || machine == Human then event.kind == AnsweringMachine && OnlyLogs(s, s', k, event)
        else EndKind(n, event.kind) && CallEnded(policy, s, s', k, n, NoAcknowledgement, at, event))
  }

  lemma StatusLogs(
    policy: Policy, s: Store, k: CaseKey, n: nat, r: Reference, word: ProviderWord, occurredAt: Option<Time>,
    env: Env, event: DispatchEvent)
    requires s.Indexed() && Standing(s, k, n) && Over(s, k, n)
    requires event == HandlingEvent(policy, s, k, n, r, Status(word, occurredAt), env)
    ensures var move, at := Applied(policy, s, k, n, r, Status(word, occurredAt), env),
                            if occurredAt.Some? then occurredAt.value else env.now;
            && move.next == Finished(Ok(NoResult))
            && (if s.Logged(k.tenantId, StatusKey(r, word)) then move.store == s
                else StatusTable(policy, s, move.store, k, n, r, word, at, event))
  {
    AppendApplies(policy, s, k, n, r, Status(word, occurredAt), env, event);
  }

  lemma StatusEnds(
    policy: Policy, s: Store, k: CaseKey, n: nat, r: Reference, word: ProviderWord, occurredAt: Option<Time>,
    env: Env, event: DispatchEvent)
    requires s.Indexed() && Standing(s, k, n) && !Over(s, k, n) && Ending(word).Some?
    requires event == HandlingEvent(policy, s, k, n, r, Status(word, occurredAt), env)
    ensures var move, at := Applied(policy, s, k, n, r, Status(word, occurredAt), env),
                            if occurredAt.Some? then occurredAt.value else env.now;
            && move.next == Finished(Ok(NoResult))
            && (if s.Logged(k.tenantId, StatusKey(r, word)) then move.store == s
                else StatusTable(policy, s, move.store, k, n, r, word, at, event))
  {
    var action := Status(word, occurredAt);
    ChangeApplies(policy, s, k, n, r, action, env,
                  Handle(policy, s.files[k].record, s.files[k].slots[n].attempt, r, action, env).plan);
  }

  /** What a progress word plans for a call in progress. */
  lemma ProgressPlan(
    policy: Policy, record: DispatchCase, attempt: CallAttempt, r: Reference, word: ProviderWord, at: Time, eventId: Id)
    requires !record.status.Terminal() && attempt.status.InProgress() && Ending(word).None?
    ensures var handling := HandleStatus(policy, record, attempt, r, word, at, eventId);
            var status := ReachedStatus(attempt.status, word);
            && handling.Change?
            && handling.plan.record
               == record.(
                    status :=
                      if status.Answered? then DispatchStatus.AwaitingAcknowledgement else DispatchStatus.Dialing,
                    updatedAt := at, version := record.version + 1)
            && handling.plan.attempt
               == attempt.(
                    status := status,
                    initiatedAt := if attempt.initiatedAt.Some? then attempt.initiatedAt else Some(at),
                    answeredAt :=
                      if attempt.answeredAt.Some? || !status.Answered? then attempt.answeredAt else Some(at),
                    updatedAt := at, version := attempt.version + 1)
            && handling.plan.event
               == DispatchEvent(eventId, record.identity.tenantId, record.identity.caseId,
                                Some(attempt.identity.attemptId), ProviderStatus, at, StatusKey(r, word),
                                Some(Word(word)))
  {
  }

  lemma StatusReaches(
    policy: Policy, s: Store, k: CaseKey, n: nat, r: Reference, word: ProviderWord, occurredAt: Option<Time>,
    env: Env, event: DispatchEvent)
    requires s.Indexed() && Standing(s, k, n) && !Over(s, k, n) && Ending(word).None?
    requires event == HandlingEvent(policy, s, k, n, r, Status(word, occurredAt), env)
    ensures var move, at := Applied(policy, s, k, n, r, Status(word, occurredAt), env),
                            if occurredAt.Some? then occurredAt.value else env.now;
            && move.next == Finished(Ok(NoResult))
            && (if s.Logged(k.tenantId, StatusKey(r, word)) then move.store == s
                else StatusTable(policy, s, move.store, k, n, r, word, at, event))
  {
    var action, record, attempt := Status(word, occurredAt), s.files[k].record, s.files[k].slots[n].attempt;
    ProgressPlan(policy, record, attempt, r, word, if occurredAt.Some? then occurredAt.value else env.now, env.eventId);
    ChangeApplies(policy, s, k, n, r, action, env, Handle(policy, record, attempt, r, action, env).plan);
  }

  lemma StatusApplies(
    policy: Policy, s: Store, k: CaseKey, n: nat, r: Reference, word: ProviderWord, occurredAt: Option<Time>,
    env: Env, event: DispatchEvent)
    requires s.Indexed() && Standing(s, k, n)
    requires event == HandlingEvent(policy, s, k, n, r, Status(word, occurredAt), env)
    ensures var move, at := Applied(policy, s, k, n, r, Status(word, occurredAt), env),
                            if occurredAt.Some? then occurredAt.value else env.now;
            && move.next == Finished(Ok(NoResult))
            && (if s.Logged(k.tenantId, StatusKey(r, word)) then move.store == s
                else StatusTable(policy, s, move.store, k, n, r, word, at, event))
  {
    if Over(s, k, n) {
      StatusLogs(policy, s, k, n, r, word, occurredAt, env, event);
    } else if Ending(word).Some? {
      StatusEnds(policy, s, k, n, r, word, occurredAt, env, event);
    } else {
      StatusReaches(policy, s, k, n, r, word, occurredAt, env, event);
    }
  }

  /** The event a handler decides to log. */
  function HandlingEvent(
    policy: Policy, s: Store, k: CaseKey, n: nat, r: Reference, action: CallbackAction, env: Env): DispatchEvent
    requires k in s.files && n < |s.files[k].slots| && (action.Status? || action.Gather? || action.MachineDetection?)
  {
    var handling := Handle(policy, s.files[k].record, s.files[k].slots[n].attempt, r, action, env);
    if handling.Append? then handling.event else handling.plan.event
  }

  lemma GatherApplies(
    policy: Policy, s: Store, k: CaseKey, n: nat, r: Reference, digits: Digits, occurredAt: Option<Time>,
    env: Env, event: DispatchEvent)
    requires s.Indexed() && Standing(s, k, n)
    requires event == HandlingEvent(policy, s, k, n, r, Gather(digits, occurredAt), env)
    ensures var move, at := Applied(policy, s, k, n, r, Gather(digits, occurredAt), env),
                            if occurredAt.Some? then occurredAt.value else env.now;
            && move.next == Finished(Ok(NoResult))
            && (if s.Logged(k.tenantId, GatherKey(r, digits)) then move.store == s
                else GatherTable(s, move.store, k, n, r, digits, at, event))
  {
    var action := Gather(digits, occurredAt);
    var handling := Handle(policy, s.files[k].record, s.files[k].slots[n].attempt, r, action, env);
    if handling.Append? {
      AppendApplies(policy, s, k, n, r, action, env, handling.event);
    } else {
      ChangeApplies(policy, s, k, n, r, action, env, handling.plan);
    }
  }

  lemma MachineLogs(
    policy: Policy, s: Store, k: CaseKey, n: nat, r: Reference, machine: MachineResult, occurredAt: Option<Time>,
    env: Env, event: DispatchEvent)
    requires s.Indexed() && Standing(s, k, n) && (Over(s, k, n) || machine == Human)
    requires event == HandlingEvent(policy, s, k, n, r, MachineDetection(machine, occurredAt), env)
    ensures var move, at := Applied(policy, s, k, n, r, MachineDetection(machine, occurredAt), env),
                            if occurredAt.Some? then occurredAt.value else env.now;
            && move.next == Finished(Ok(NoResult))
            && (if s.Logged(k.tenantId, MachineKey(r, machine)) then move.store == s
                else MachineTable(policy, s, move.store, k, n, r, machine, at, event))
  {
    AppendApplies(policy, s, k, n, r, MachineDetection(machine, occurredAt), env, event);
  }

  lemma MachineApplies(
    policy: Policy, s: Store, k: CaseKey, n: nat, r: Reference, machine: MachineResult, occurredAt: Option<Time>,
    env: Env, event: DispatchEvent)
    requires s.Indexed() && Standing(s, k, n)
    requires event == HandlingEvent(policy, s, k, n, r, MachineDetection(machine, occurredAt), env)
    ensures var move, at := Applied(policy, s, k, n, r, MachineDetection(machine, occurredAt), env),
                            if occurredAt.Some? then occurredAt.value else env.now;
            && move.next == Finished(Ok(NoResult))
            && (if s.Logged(k.tenantId, MachineKey(r, machine)) then move.store == s
                else MachineTable(policy, s, move.store, k, n, r, machine, at, event))
  {
    var action := MachineDetection(machine, occurredAt);
    if Over(s, k, n) || machine == Human {
      MachineLogs(policy, s, k, n, r, machine, occurredAt, env, event);
    } else {
      ChangeApplies(policy, s, k, n, r, action, env,
                    Handle(policy, s.files[k].record, s.files[k].slots[n].attempt, r, action, env).plan);
    }
  }

  /** A status callback, alone: logged before, nothing; otherwise what the table says. */
  lemma StatusOutcome(
    policy: Policy, s: Store, k: CaseKey, n: nat, r: Reference, word: ProviderWord, occurredAt: Option<Time>,
    at: Time, draws: Draws, s': Store, result: Result<Answer, DispatchError>) returns (event: DispatchEvent)
    requires Handles(policy, s, k, n, r, Status(word, occurredAt), draws, s', result)
    requires CountsAt(s, k, n, r, Status(word, occurredAt), draws, occurredAt, at)
    ensures result == Ok(NoResult)
    ensures if s.Logged(k.tenantId, StatusKey(r, word)) then s' == s
            else StatusTable(policy, s, s', k, n, r, word, at, event)
  {
    var env := draws(FoundAt(s, k, n, r, Status(word, occurredAt)));
    HandledHere(policy, s, k, n, r, Status(word, occurredAt), draws, s', result);
    event := HandlingEvent(policy, s, k, n, r, Status(word, occurredAt), env);
    StatusApplies(policy, s, k, n, r, word, occurredAt, env, event);
  }

  /** A key-press, alone. */
  lemma GatherOutcome(
    policy: Policy, s: Store, k: CaseKey, n: nat, r: Reference, digits: Digits, occurredAt: Option<Time>,
    at: Time, draws: Draws, s': Store, result: Result<Answer, DispatchError>) returns (event: DispatchEvent)
    requires Handles(policy, s, k, n, r, Gather(digits, occurredAt), draws, s', result)
    requires CountsAt(s, k, n, r, Gather(digits, occurredAt), draws, occurredAt, at)
    ensures result == Ok(NoResult)
    ensures if s.Logged(k.tenantId, GatherKey(r, digits)) then s' == s
            else GatherTable(s, s', k, n, r, digits, at, event)
  {
    var env := draws(FoundAt(s, k, n, r, Gather(digits, occurredAt)));
    HandledHere(policy, s, k, n, r, Gather(digits, occurredAt), draws, s', result);
    event := HandlingEvent(policy, s, k, n, r, Gather(digits, occurredAt), env);
    GatherApplies(policy, s, k, n, r, digits, occurredAt, env, event);
  }

  /** The result of answering-machine detection, alone. */
  lemma MachineOutcome(
    policy: Policy, s: Store, k: CaseKey, n: nat, r: Reference, machine: MachineResult, occurredAt: Option<Time>,
    at: Time, draws: Draws, s': Store, result: Result<Answer, DispatchError>) returns (event: DispatchEvent)
    requires Handles(policy, s, k, n, r, MachineDetection(machine, occurredAt), draws, s', result)
    requires CountsAt(s, k, n, r, MachineDetection(machine, occurredAt), draws, occurredAt, at)
    ensures result == Ok(NoResult)
    ensures if s.Logged(k.tenantId, MachineKey(r, machine)) then s' == s
            else MachineTable(policy, s, s', k, n, r, machine, at, event)
  {
    var env := draws(FoundAt(s, k, n, r, MachineDetection(machine, occurredAt)));
    HandledHere(policy, s, k, n, r, MachineDetection(machine, occurredAt), draws, s', result);
    event := HandlingEvent(policy, s, k, n, r, MachineDetection(machine, occurredAt), env);
    MachineApplies(policy, s, k, n, r, machine, occurredAt, env, event);
  }

  /** The voice script is given for an open case, and the return of the provider call answers with the attempt. */
  lemma ReadingOutcome(
    policy: Policy, s: Store, k: CaseKey, n: nat, r: Reference, action: CallbackAction, draws: Draws, s': Store,
    result: Result<Answer, DispatchError>)
    requires Handles(policy, s, k, n, r, action, draws, s', result) && (action.Script? || action.Returned?)
    ensures s' == s
    ensures result
         == if action.Returned? then Ok(AttemptAnswer(s.files[k].slots[n].attempt))
            else if s.files[k].record.status.Terminal() then Err(Conflict(CaseTerminal))
            else Ok(CaseAnswer(s.files[k].record))
  {
    HandledHere(policy, s, k, n, r, action, draws, s', result);
  }

  // ---------- finding and binding the call ----------

  /** A callback for a token of a sound store. */
  ghost predicate Receives(
    policy: Policy, s: Store, token: Token, r: Reference, action: CallbackAction, draws: Draws, s': Store,
    result: Result<Answer, DispatchError>)
  {
    Sound(policy, s) && Ends(policy, s, CallbackResolve(token, r, action), draws, s', result)
  }

  /** Unknown tokens are not found, and blank references never match. */
  lemma UnknownOutcome(
    policy: Policy, s: Store, token: Token, r: Reference, action: CallbackAction, draws: Draws, s': Store,
    result: Result<Answer, DispatchError>)
    requires Receives(policy, s, token, r, action, draws, s', result)
    requires token !in s.callbacks || r == Plain("")
    ensures s' == s && result == Err(if token !in s.callbacks then ResourceNotFound else CallMismatch)
  {
    var p := CallbackResolve(token, r, action);
    EndsHere(policy, s, p, draws, Act(policy, s, p, draws(p)), s', result);
  }

  lemma ResolvesBound(
    policy: Policy, s: Store, k: CaseKey, n: nat, token: Token, r: Reference, action: CallbackAction, env: Env)
    requires s.Indexed() && token in s.callbacks && s.callbacks[token] == Address(k, n) && r != Plain("")
    requires s.files[k].slots[n].attempt.reference.Some?
    ensures Act(policy, s, CallbackResolve(token, r, action), env)
         == Move(s, if RepositoryOutcomes.Fits(s.files[k].slots[n].attempt.reference.value, r) then
                      FoundAt(s, k, n, r, action)
                    else Finished(Err(CallMismatch)))
  {
    assert s.Points(s.callbacks[token]);
  }

  /**
    A callback for a bound call is handled exactly when it brings the stored
    text, or the text whose digest is stored; any other is refused.
  */
  lemma FoundOutcome(
    policy: Policy, s: Store, k: CaseKey, n: nat, token: Token, r: Reference, action: CallbackAction, draws: Draws,
    s': Store, result: Result<Answer, DispatchError>)
    requires k in s.files && n < |s.files[k].slots| && s.files[k].slots[n].attempt.reference.Some?
    requires token in s.callbacks && s.callbacks[token] == Address(k, n) && r != Plain("")
    requires Receives(policy, s, token, r, action, draws, s', result)
    ensures if RepositoryOutcomes.Fits(s.files[k].slots[n].attempt.reference.value, r) then
              Handles(policy, s, k, n, r, action, draws, s', result)
            else s' == s && result == Err(CallMismatch)
  {
    var p := CallbackResolve(token, r, action);
    ResolvesBound(policy, s, k, n, token, r, action, draws(p));
    if RepositoryOutcomes.Fits(s.files[k].slots[n].attempt.reference.value, r) {
      EndsLater(policy, s, p, draws, Act(policy, s, p, draws(p)), s', result);
    } else {
      EndsHere(policy, s, p, draws, Act(policy, s, p, draws(p)), s', result);
    }
  }

  /** The call bound to this reference by its first callback. */
  predicate CallBound(s: Store, s': Store, k: CaseKey, n: nat, r: Reference, now: Time, event: DispatchEvent) {
    && k in s.files && n < |s.files[k].slots|
    && (var record, slot := s.files[k].record, s.files[k].slots[n];
        var at := if slot.submission.claimedAt.Some? && slot.submission.claimedAt.value > now
                  then slot.submission.claimedAt.value else now;
        Becomes(
          s, s', k,
          record.(status := DispatchStatus.Dialing, nextAttemptAt := None, updatedAt := at,
                  version := record.version + 1),
          s.files[k].slots[
            n := Slot(
              slot.attempt.(
                reference := Some(r), status := AttemptStatus.Initiated,
                initiatedAt := if slot.attempt.initiatedAt.Some? then slot.attempt.initiatedAt else Some(at),
                safeErrorCode := None, updatedAt := at, version := slot.attempt.version + 1),
              slot.submission.(state := Submitted, completedAt := Some(at)))],
          event))
  }

  /** The attempt at position n has this token, was not bound and has no binding logged. */
  predicate Unbound(s: Store, k: CaseKey, n: nat, token: Token) {
    && k in s.files && n < |s.files[k].slots| && s.files[k].record.Key() == k
    && token in s.callbacks && s.callbacks[token] == Address(k, n)
    && s.files[k].slots[n].attempt.reference.None? && s.files[k].slots[n].attempt.Home() == k
    && !s.Logged(k.tenantId, CallInitiatedKey(s.files[k].slots[n].attempt.identity.attemptId))
  }

  lemma ResolvesUnbound(
    policy: Policy, s: Store, k: CaseKey, n: nat, token: Token, r: Reference, action: CallbackAction, env: Env)
    requires s.Indexed() && Unbound(s, k, n, token) && r != Plain("")
    ensures Act(policy, s, CallbackResolve(token, r, action), env) == Move(s, UnboundAt(s, k, n, token, r, action))
  {
  }

  /** A binding that is refused: the case is closed or the call is not claimed. */
  lemma BindRefused(
    policy: Policy, s: Store, k: CaseKey, n: nat, token: Token, r: Reference, action: CallbackAction, env: Env)
    requires s.Indexed() && Unbound(s, k, n, token) && r != Plain("")
    requires s.files[k].record.status.Terminal() || !s.files[k].slots[n].submission.state.Claimed?
    ensures Act(policy, s, UnboundAt(s, k, n, token, r, action), env)
         == Move(s, Finished(Err(Conflict(BindingUnavailable))))
  {
  }

  function BindingOf(s: Store, k: CaseKey, n: nat, env: Env): DispatchEvent
    requires k in s.files && n < |s.files[k].slots|
  {
    DispatchEvent(env.eventId, k.tenantId, k.caseId, Some(s.files[k].slots[n].attempt.identity.attemptId),
                  CallInitiated, env.now, CallInitiatedKey(s.files[k].slots[n].attempt.identity.attemptId), None)
  }

  lemma BindTaken(
    policy: Policy, s: Store, k: CaseKey, n: nat, token: Token, r: Reference, action: CallbackAction, env: Env)
    requires s.Indexed() && Unbound(s, k, n, token) && r != Plain("")
    requires !s.files[k].record.status.Terminal() && s.files[k].slots[n].submission.state.Claimed?
    ensures var move := Act(policy, s, UnboundAt(s, k, n, token, r, action), env);
            && CallBound(s, move.store, k, n, r, env.now, BindingOf(s, k, n, env))
            && move.next == FoundAt(move.store, k, n, r, action)
  {
  }

  lemma SoundUnbound(policy: Policy, s: Store, k: CaseKey, n: nat, token: Token)
    requires Sound(policy, s) && token in s.callbacks && s.callbacks[token] == Address(k, n)
    requires k in s.files && n < |s.files[k].slots| && s.files[k].slots[n].attempt.reference.None?
    requires !s.Logged(k.tenantId, CallInitiatedKey(s.files[k].slots[n].attempt.identity.attemptId))
    ensures Unbound(s, k, n, token)
  {
    assert Filed(s, k, n);
  }

  /**
    The first callback of a claimed call in an open case binds it and is then
    handled; in a closed case, or for a call that is not claimed, it is refused.
  */
  lemma FirstOutcome(
    policy: Policy, s: Store, k: CaseKey, n: nat, token: Token, r: Reference, action: CallbackAction, draws: Draws,
    s': Store, result: Result<Answer, DispatchError>) returns (s1: Store)
    requires k in s.files && n < |s.files[k].slots| && s.files[k].slots[n].attempt.reference.None?
    requires token in s.callbacks && s.callbacks[token] == Address(k, n) && r != Plain("")
    requires !s.Logged(k.tenantId, CallInitiatedKey(s.files[k].slots[n].attempt.identity.attemptId))
    requires Receives(policy, s, token, r, action, draws, s', result)
    ensures var env := draws(UnboundAt(s, k, n, token, r, action));
            if !s.files[k].record.status.Terminal() && s.files[k].slots[n].submission.state.Claimed? then
              && CallBound(s, s1, k, n, r, env.now, BindingOf(s, k, n, env))
              && k in s1.files && n < |s1.files[k].slots|
              && Ends(policy, s1, FoundAt(s1, k, n, r, action), draws, s', result)
            else s' == s && result == Err(Conflict(BindingUnavailable))
  {
    var p, q := CallbackResolve(token, r, action), UnboundAt(s, k, n, token, r, action);
    SoundUnbound(policy, s, k, n, token);
    ResolvesUnbound(policy, s, k, n, token, r, action, draws(p));
    EndsLater(policy, s, p, draws, Act(policy, s, p, draws(p)), s', result);
    s1 := Act(policy, s, q, draws(q)).store;
    if !s.files[k].record.status.Terminal() && s.files[k].slots[n].submission.state.Claimed? {
      BindTaken(policy, s, k, n, token, r, action, draws(q));
      EndsLater(policy, s, q, draws, Act(policy, s, q, draws(q)), s', result);
    } else {
      BindRefused(policy, s, k, n, token, r, action, draws(q));
      EndsHere(policy, s, q, draws, Act(policy, s, q, draws(q)), s', result);
    }
  }
}
