/**
  Each action of the coordinator against the case automaton: the action leaves
  the store unchanged or enacts the move named by `Intent`, and what the
  program knows afterwards is true of the new store.
*/
module DispatchActions {
  import opened Wrappers
  import opened DispatchModels
  import opened DispatchStore
  import opened DispatchCoordinator
  import opened CaseAutomaton
  import opened CaseHistory
  import opened DispatchRefinement

  datatype Target = Target(home: CaseKey, move: CaseMove)

  function Index(attempt: CallAttempt): nat {
    if attempt.identity.sequence >= 1 then attempt.identity.sequence - 1 else 0
  }

  function OpenSlot(s: Store, record: DispatchCase, active: Option<CallAttempt>): nat {
    if record.Key() in s.files then OpenIndex(s.files[record.Key()], active) else 0
  }

  predicate Writes(p: Program) {
    || p.DispatchReserve? || p.DispatchClaim? || p.DispatchExpire? || p.DispatchRefused?
    || p.DispatchUncertain? || p.CallbackBind? || p.CallbackApply? || p.CancelApply? || p.ExhaustApply?
  }

  function CallbackIntent(policy: Policy, p: Program, env: Env): CaseMove
    requires p.CallbackApply?
  {
    match Handle(policy, p.located.record, p.located.attempt, p.reference, p.action, env)
    case Append(event) => Remark(Index(p.located.attempt), event)
    case _ => Callback(Index(p.located.attempt), p.reference, p.action, env)
  }

  /** The case and the move an action is about. */
  function Intent(policy: Policy, s: Store, p: Program, env: Env): Target
    requires Writes(p)
  {
    match p
    case DispatchReserve(k) => Target(k, Reserve(env.freshId, env.token, env.now, ReserveEvent(k, env)))
    case DispatchClaim(k, attempt, now) =>
      Target(k, TakeClaim(Index(attempt), env.claimToken, now, now + policy.submissionTimeout))
    case DispatchExpire(record, attempt, now) =>
      Target(record.Key(), GiveUp(Index(attempt), now, ClaimExpired, env.eventId))
    case DispatchRefused(record, attempt, _, now, code) =>
      Target(record.Key(), Refuse(Index(attempt), now, code, env.eventId))
    case DispatchUncertain(record, attempt, _, now) =>
      Target(record.Key(), GiveUp(Index(attempt), now, SubmissionUncertain, env.eventId))
    case CallbackBind(_, reference, _, located) =>
      Target(located.record.Key(), Bind(Index(located.attempt), reference, env.now, BindEvent(located, env)))
    case CallbackApply(_, _, located) => Target(located.record.Key(), CallbackIntent(policy, p, env))
    case CancelApply(record, active, eventKey) =>
      Target(record.Key(), CaseMove.Cancel(OpenSlot(s, record, active), eventKey, env))
    case ExhaustApply(record, active, _) => Target(record.Key(), CaseMove.Exhaust(OpenSlot(s, record, active), env))
  }

  /** The action leaves the store alone or enacts its move. */
  predicate Moves(policy: Policy, s: Store, p: Program, env: Env, s': Store)
    requires Writes(p)
  {
    s' == s || Enacts(policy, s, s', Intent(policy, s, p, env).home, Intent(policy, s, p, env).move)
  }

  // ---------- repository operations as moves ----------

  lemma ReserveEnacts(policy: Policy, s: Store, k: CaseKey, id: Id, token: Token, now: Time, event: DispatchEvent)
    requires Consistent(s)
    requires event.tenantId == k.tenantId && event.caseId == k.caseId
    requires event.key == AttemptReservedKey(k.tenantId, k.caseId, id)
    ensures var reply := ReserveNextAttempt(s, k, id, token, now, event);
            reply.store == s || Enacts(policy, s, reply.store, k, Reserve(id, token, now, event))
  {
    if k in s.files {
      var f := s.files[k];
      assert f.record.Key() == k;
      assert Extend(f, id, token, now, event).log == f.log + [event];
    }
  }

  lemma ReserveKnown(policy: Policy, s: Store, k: CaseKey, id: Id, token: Token, now: Time, event: DispatchEvent)
    requires Consistent(s) && (k in s.files ==> Ladder(policy, s.files[k]))
    ensures var reply := ReserveNextAttempt(s, k, id, token, now, event);
            reply.result.Ok? ==> Known(reply.store, k, reply.result.value.attempt)
  {
    if k in s.files {
      var open := LastOpen(AttemptsOf(s.files[k].slots));
      assert s.files[k].record.Key() == k;
      if open < |s.files[k].slots| {
        assert AttemptsOf(s.files[k].slots)[open] == s.files[k].slots[open].attempt;
        SlotIsSeen(policy, s, k, open);
      }
    }
  }

  /** The attempt is filed where its sequence number says, in a case filed under its own key. */
  predicate WellPlaced(s: Store, k: CaseKey, attempt: CallAttempt) {
    && Known(s, k, attempt) && s.files[k].record.Key() == k
    && attempt.Key() in s.placed && s.placed[attempt.Key()] == Address(k, attempt.identity.sequence - 1)
  }

  lemma KnownIsPlaced(s: Store, k: CaseKey, attempt: CallAttempt)
    requires Consistent(s) && Known(s, k, attempt)
    ensures WellPlaced(s, k, attempt)
  {
    KnownKeeps(s, k, attempt);
  }

  lemma ClaimEnacts(
    policy: Policy, s: Store, k: CaseKey, attempt: CallAttempt, token: ClaimToken, now: Time, deadline: Time)
    requires s.Indexed() && WellPlaced(s, k, attempt)
    ensures var reply := ClaimProviderSubmission(s, k, attempt.identity.attemptId, token, now, deadline);
            reply.store == s || Enacts(policy, s, reply.store, k, TakeClaim(Index(attempt), token, now, deadline))
  {
  }

  lemma ClaimSeen(s: Store, k: CaseKey, attempt: CallAttempt, token: ClaimToken, now: Time, deadline: Time)
    requires s.Indexed() && WellPlaced(s, k, attempt)
    ensures var reply := ClaimProviderSubmission(s, k, attempt.identity.attemptId, token, now, deadline);
            reply.result.Ok? ==> Seen(reply.store, reply.result.value.record, reply.result.value.attempt)
  {
  }

  lemma ClaimAwaits(
    policy: Policy, s: Store, k: CaseKey, attempt: CallAttempt, token: ClaimToken, now: Time, deadline: Time)
    requires s.Indexed() && WellPlaced(s, k, attempt) && Ladder(policy, s.files[k])
    ensures var reply := ClaimProviderSubmission(s, k, attempt.identity.attemptId, token, now, deadline);
            reply.result.Ok? && (reply.result.value.stale || reply.result.value.acquired) ==>
              && !reply.result.value.record.status.Terminal()
              && reply.result.value.attempt.status.AwaitingProvider()
  {
    var f, n := s.files[k], Index(attempt);
    if !f.record.status.Terminal() && f.slots[n].submission.state.Claimed? {
      ClaimedIsLast(policy, f, n);
    }
  }

  lemma BindEnacts(
    policy: Policy, s: Store, token: Token, reference: Reference, located: Located, env: Env)
    requires Consistent(s) && Seen(s, located.record, located.attempt)
    requires token in s.callbacks
    requires s.callbacks[token] == Address(located.record.Key(), Index(located.attempt))
    ensures var s' := BindProviderCallback(s, token, reference, env.now, BindEvent(located, env)).store;
            || s' == s
            || Enacts(policy, s, s', located.record.Key(),
                      Bind(Index(located.attempt), reference, env.now, BindEvent(located, env)))
  {
  }

  lemma BindSeen(
    policy: Policy, s: Store, token: Token, reference: Reference, located: Located, env: Env)
    requires Consistent(s) && Seen(s, located.record, located.attempt)
    requires token in s.callbacks
    requires s.callbacks[token] == Address(located.record.Key(), Index(located.attempt))
    ensures var reply := BindProviderCallback(s, token, reference, env.now, BindEvent(located, env));
            reply.result.Ok? ==>
              && Seen(reply.store, reply.result.value.record, reply.result.value.attempt)
              && reply.result.value.attempt.reference.Some?
              && reply.result.value.attempt.reference.value.Admits(reference)
  {
  }

  /** A conditional write that succeeds acts on the records it was computed from. */
  lemma ApplyIsCurrent(
    s: Store, record: DispatchCase, attempt: CallAttempt, record': DispatchCase, attempt': CallAttempt,
    event: DispatchEvent)
    requires Consistent(s) && Seen(s, record, attempt)
    requires record'.identity == record.identity && attempt'.identity == attempt.identity
    ensures var s' := ApplyTransition(s, record', attempt', event, record.version, attempt.version).store;
            s' != s ==>
              var k, n := record.Key(), Index(attempt);
              && s.files[k].record == record
              && s.files[k].slots[n].attempt == attempt
              && EventFits(event, record', Some(attempt'))
              && (event.kind.Canceled? ==> !s.files[k].slots[n].submission.state.Claimed?)
              && s' == Commit(s, k, Amend(s.files[k], n, record', s.files[k].slots[n].(attempt := attempt'), event),
                              event)
  {
    KnownKeeps(s, record.Key(), attempt);
  }

  lemma ChangeEnacts(
    policy: Policy, s: Store, reference: Reference, action: CallbackAction, located: Located, env: Env)
    requires Consistent(s) && Seen(s, located.record, located.attempt) && located.attempt.reference.Some?
    requires located.attempt.reference.value.Admits(reference)
    requires Handle(policy, located.record, located.attempt, reference, action, env).Change?
    ensures var plan := Handle(policy, located.record, located.attempt, reference, action, env).plan;
            var s' := ApplyTransition(
                        s, plan.record, plan.attempt, plan.event, located.record.version,
                        located.attempt.version).store;
            || s' == s
            || Enacts(policy, s, s', located.record.Key(), Callback(Index(located.attempt), reference, action, env))
  {
    var plan := Handle(policy, located.record, located.attempt, reference, action, env).plan;
    PlanKeepsIdentity(policy, located.record, located.attempt, reference, action, env);
    ApplyIsCurrent(s, located.record, located.attempt, plan.record, plan.attempt, plan.event);
  }

  lemma PlanKeepsIdentity(
    policy: Policy, record: DispatchCase, attempt: CallAttempt, reference: Reference, action: CallbackAction, env: Env)
    requires Handle(policy, record, attempt, reference, action, env).Change?
    ensures var plan := Handle(policy, record, attempt, reference, action, env).plan;
            plan.record.identity == record.identity && plan.attempt.identity == attempt.identity
  {
  }

  lemma RemarkEnacts(policy: Policy, s: Store, record: DispatchCase, attempt: CallAttempt, event: DispatchEvent)
    requires Consistent(s) && Seen(s, record, attempt)
    requires event.tenantId == record.identity.tenantId && event.caseId == record.identity.caseId
    requires event.attemptId == Some(attempt.identity.attemptId)
    requires event.key.FromCallback()
    requires attempt.reference.Some? && attempt.reference.value.Admits(event.key.reference)
    ensures var s' := AppendEvent(s, event).store;
            s' == s || Enacts(policy, s, s', record.Key(), Remark(Index(attempt), event))
  {
  }

  /** What a handler logs for a callback names the attempt and the reference it came with. */
  lemma HandledEvent(
    policy: Policy, record: DispatchCase, attempt: CallAttempt, reference: Reference, action: CallbackAction, env: Env)
    requires Handle(policy, record, attempt, reference, action, env).Append?
    ensures var event := Handle(policy, record, attempt, reference, action, env).event;
            && event.tenantId == record.identity.tenantId && event.caseId == record.identity.caseId
            && event.attemptId == Some(attempt.identity.attemptId)
            && event.key.FromCallback() && event.key.reference == reference
  {
  }

  // ---------- every action ----------

  lemma ReserveMoves(policy: Policy, s: Store, p: Program, env: Env)
    requires Consistent(s) && p.DispatchReserve?
    ensures Moves(policy, s, p, env, ActDispatchReserve(s, p.k, env).store)
  {
    ReserveEnacts(policy, s, p.k, env.freshId, env.token, env.now, ReserveEvent(p.k, env));
  }

  lemma ClaimMoves(policy: Policy, s: Store, p: Program, env: Env)
    requires Consistent(s) && p.DispatchClaim? && Known(s, p.k, p.attempt)
    ensures Moves(policy, s, p, env, ActDispatchClaim(policy, s, p.k, p.attempt, p.now, env).store)
  {
    KnownIsPlaced(s, p.k, p.attempt);
    ClaimEnacts(policy, s, p.k, p.attempt, env.claimToken, p.now, p.now + policy.submissionTimeout);
  }

  lemma ExpireMoves(policy: Policy, s: Store, p: Program, env: Env)
    requires Consistent(s) && p.DispatchExpire?
    requires Seen(s, p.record, p.attempt) && s.Keeps(p.attempt)
    requires !p.record.status.Terminal() && p.attempt.status.AwaitingProvider()
    ensures Moves(policy, s, p, env, ActDispatchExpire(s, p.record, p.attempt, p.now, env).store)
  {
    KnownKeeps(s, p.record.Key(), p.attempt);
  }

  lemma RefusedMoves(policy: Policy, s: Store, p: Program, env: Env)
    requires Consistent(s) && p.DispatchRefused?
    requires Seen(s, p.record, p.attempt) && s.Keeps(p.attempt)
    requires !p.record.status.Terminal() && p.attempt.status.AwaitingProvider()
    ensures Moves(policy, s, p, env, ActDispatchRefused(s, p.record, p.attempt, p.claim, p.now, p.code, env).store)
  {
    KnownKeeps(s, p.record.Key(), p.attempt);
  }

  lemma UncertainMoves(policy: Policy, s: Store, p: Program, env: Env)
    requires Consistent(s) && p.DispatchUncertain?
    requires Seen(s, p.record, p.attempt) && s.Keeps(p.attempt)
    requires !p.record.status.Terminal() && p.attempt.status.AwaitingProvider()
    ensures Moves(policy, s, p, env, ActDispatchUncertain(s, p.record, p.attempt, p.claim, p.now, env).store)
  {
    KnownKeeps(s, p.record.Key(), p.attempt);
  }

  lemma BindMoves(policy: Policy, s: Store, p: Program, env: Env)
    requires Consistent(s) && p.CallbackBind? && Seen(s, p.located.record, p.located.attempt)
    requires p.token in s.callbacks
    requires s.callbacks[p.token] == Address(p.located.record.Key(), Index(p.located.attempt))
    ensures Moves(policy, s, p, env, ActCallbackBind(s, p.token, p.reference, p.action, p.located, env).store)
  {
    BindEnacts(policy, s, p.token, p.reference, p.located, env);
  }

  lemma ApplyMoves(policy: Policy, s: Store, p: Program, env: Env)
    requires Consistent(s) && p.CallbackApply? && Seen(s, p.located.record, p.located.attempt)
    requires p.located.attempt.reference.Some? && p.located.attempt.reference.value.Admits(p.reference)
    ensures Moves(policy, s, p, env, ActCallbackApply(policy, s, p.reference, p.action, p.located, env).store)
  {
    match Handle(policy, p.located.record, p.located.attempt, p.reference, p.action, env) {
      case Append(event) =>
        HandledEvent(policy, p.located.record, p.located.attempt, p.reference, p.action, env);
        RemarkEnacts(policy, s, p.located.record, p.located.attempt, event);
      case Change(_) => ChangeEnacts(policy, s, p.reference, p.action, p.located, env);
      case Nothing =>
    }
  }

  lemma CancelAttemptMoves(policy: Policy, s: Store, p: Program, env: Env)
    requires Consistent(s) && p.CancelApply? && ActiveSeen(s, p.record, p.active) && !p.record.status.Terminal()
    requires p.active.Some?
    ensures Moves(policy, s, p, env, ActCancelApply(s, p.record, p.active, p.eventKey, env).store)
  {
    var record' := Close(p.record, DispatchStatus.Canceled, env.now);
    var event := CancelEvent(p.record, p.active, p.eventKey, env);
    ApplyIsCurrent(s, p.record, p.active.value, record', CanceledAttempt(p.active.value, env.now), event);
  }

  lemma CancelCaseMoves(policy: Policy, s: Store, p: Program, env: Env)
    requires Consistent(s) && p.CancelApply? && ActiveSeen(s, p.record, p.active) && !p.record.status.Terminal()
    requires p.active.None?
    ensures Moves(policy, s, p, env, ActCancelApply(s, p.record, p.active, p.eventKey, env).store)
  {
  }

  /** What the repository answers when an exhausted queue ends the open attempt. */
  function ExhaustReply(s: Store, p: Program, env: Env): Reply<bool>
    requires s.Indexed() && p.ExhaustApply? && p.active.Some?
  {
    ApplyTransition(
      s, Close(p.record, DispatchStatus.ManualFollowUp, env.now), ExhaustedAttempt(p.active.value, env.now),
      ExhaustEvent(p.record, p.active, env), p.record.version, p.active.value.version)
  }

  lemma ExhaustStores(s: Store, p: Program, env: Env)
    requires s.Indexed() && p.ExhaustApply? && p.active.Some?
    ensures ActExhaustApply(s, p.record, p.active, p.retried, env).store == ExhaustReply(s, p, env).store
  {
  }

  /** Closing a case together with the attempt that was read as its last open one. */
  lemma ExhaustEnacts(
    policy: Policy, s: Store, s': Store, record: DispatchCase, attempt: CallAttempt, env: Env)
    requires Seen(s, record, attempt) && !record.status.Terminal()
    requires s.files[record.Key()].record == record
    requires s.files[record.Key()].slots[Index(attempt)].attempt == attempt
    requires LastOpen(AttemptsOf(s.files[record.Key()].slots)) == Index(attempt)
    requires var event, f := ExhaustEvent(record, Some(attempt), env), s.files[record.Key()];
             && !s.Logged(record.Key().tenantId, event.key)
             && s' == Commit(s, record.Key(),
                             Amend(f, Index(attempt), Close(record, DispatchStatus.ManualFollowUp, env.now),
                                   f.slots[Index(attempt)].(attempt := ExhaustedAttempt(attempt, env.now)), event),
                             event)
    ensures Enacts(policy, s, s', record.Key(), CaseMove.Exhaust(Index(attempt), env))
  {
  }

  /** A conditional write under a key that is logged changes nothing. */
  lemma LoggedStays(
    s: Store, record: DispatchCase, attempt: CallAttempt, event: DispatchEvent, caseVersion: int, attemptVersion: int)
    requires s.Indexed() && s.Logged(record.Key().tenantId, event.key)
    ensures ApplyTransition(s, record, attempt, event, caseVersion, attemptVersion).store == s
  {
  }

  lemma ExhaustAttemptMoves(policy: Policy, s: Store, p: Program, env: Env)
    requires Consistent(s) && p.ExhaustApply? && ActiveSeen(s, p.record, p.active) && !p.record.status.Terminal()
    requires p.active.Some?
    ensures Moves(policy, s, p, env, ExhaustReply(s, p, env).store)
  {
    var record', attempt := Close(p.record, DispatchStatus.ManualFollowUp, env.now), p.active.value;
    var event := ExhaustEvent(p.record, p.active, env);
    ApplyIsCurrent(s, p.record, attempt, record', ExhaustedAttempt(attempt, env.now), event);
    if s.Logged(p.record.Key().tenantId, event.key) {
      LoggedStays(s, record', ExhaustedAttempt(attempt, env.now), event, p.record.version, attempt.version);
    } else if ExhaustReply(s, p, env).store != s {
      ExhaustEnacts(policy, s, ExhaustReply(s, p, env).store, p.record, attempt, env);
    }
  }

  lemma ExhaustCaseMoves(policy: Policy, s: Store, p: Program, env: Env)
    requires Consistent(s) && p.ExhaustApply? && ActiveSeen(s, p.record, p.active) && !p.record.status.Terminal()
    requires p.active.None?
    ensures Moves(policy, s, p, env, ActExhaustApply(s, p.record, p.active, p.retried, env).store)
  {
  }

  predicate SubmissionStep(p: Program) {
    p.DispatchExpire? || p.DispatchRefused? || p.DispatchUncertain?
  }

  predicate ReservationStep(p: Program) {
    p.DispatchReserve? || p.DispatchClaim?
  }

  predicate OperatorStep(p: Program) {
    p.CancelApply? || p.ExhaustApply?
  }

  lemma ReservationMoves(policy: Policy, s: Store, p: Program, env: Env)
    requires Consistent(s) && ProgramOk(s, p) && Runnable(s, p) && ReservationStep(p)
    ensures Moves(policy, s, p, env, Act(policy, s, p, env).store)
  {
    if p.DispatchReserve? {
      ReserveMoves(policy, s, p, env);
    } else {
      ClaimMoves(policy, s, p, env);
    }
  }

  lemma SubmissionMoves(policy: Policy, s: Store, p: Program, env: Env)
    requires Consistent(s) && ProgramOk(s, p) && Runnable(s, p) && SubmissionStep(p)
    ensures Moves(policy, s, p, env, Act(policy, s, p, env).store)
  {
    if p.DispatchExpire? {
      ExpireMoves(policy, s, p, env);
    } else if p.DispatchRefused? {
      RefusedMoves(policy, s, p, env);
    } else {
      UncertainMoves(policy, s, p, env);
    }
  }

  lemma OperatorMoves(policy: Policy, s: Store, p: Program, env: Env)
    requires Consistent(s) && ProgramOk(s, p) && Runnable(s, p) && OperatorStep(p)
    ensures Moves(policy, s, p, env, Act(policy, s, p, env).store)
  {
    if p.CancelApply? {
      if p.active.Some? {
        CancelAttemptMoves(policy, s, p, env);
      } else {
        CancelCaseMoves(policy, s, p, env);
      }
    } else {
      if p.active.Some? {
        ExhaustAttemptMoves(policy, s, p, env);
        ExhaustStores(s, p, env);
      } else {
        ExhaustCaseMoves(policy, s, p, env);
      }
    }
  }

  /** Every writing action leaves the store alone or enacts the move it intends. */
  lemma ActMoves(policy: Policy, s: Store, p: Program, env: Env)
    requires Consistent(s) && ProgramOk(s, p) && Runnable(s, p) && Writes(p)
    ensures Moves(policy, s, p, env, Act(policy, s, p, env).store)
  {
    if ReservationStep(p) {
      ReservationMoves(policy, s, p, env);
    } else if SubmissionStep(p) {
      SubmissionMoves(policy, s, p, env);
    } else if p.CallbackBind? {
      BindMoves(policy, s, p, env);
    } else if p.CallbackApply? {
      ApplyMoves(policy, s, p, env);
    } else {
      OperatorMoves(policy, s, p, env);
    }
  }

  /** The actions that only read, or only talk to the provider. */
  lemma ReadsOnly(policy: Policy, s: Store, p: Program, env: Env)
    requires Runnable(s, p) && !Writes(p) && !p.AuthCreate?
    ensures Act(policy, s, p, env).store == s
  {
  }

  // ---------- what a program knows after its action ----------

  /** What the repository answers to a program's claim. */
  function ClaimReply(policy: Policy, s: Store, p: Program, env: Env): Reply<Claim>
    requires s.Indexed() && p.DispatchClaim?
  {
    ClaimProviderSubmission(
      s, p.k, p.attempt.identity.attemptId, env.claimToken, p.now, p.now + policy.submissionTimeout)
  }

  /** A claim that was neither acquired nor found expired ends the method. */
  lemma ClaimStops(policy: Policy, s: Store, p: Program, env: Env)
    requires s.Indexed() && p.DispatchClaim?
    requires var reply := ClaimReply(policy, s, p, env);
             || !env.contactReady || reply.result.Err? || reply.result.value.record.status.Terminal()
             || (!reply.result.value.stale && !reply.result.value.acquired)
    ensures ActDispatchClaim(policy, s, p.k, p.attempt, p.now, env).next.Finished?
  {
  }

  /** An expired or acquired claim goes on with the records the repository answered. */
  lemma ClaimGoesOn(policy: Policy, s: Store, p: Program, env: Env)
    requires s.Indexed() && p.DispatchClaim? && env.contactReady
    requires var reply := ClaimReply(policy, s, p, env);
             && reply.result.Ok? && !reply.result.value.record.status.Terminal()
             && (reply.result.value.stale || reply.result.value.acquired)
    ensures var reply, move := ClaimReply(policy, s, p, env), ActDispatchClaim(policy, s, p.k, p.attempt, p.now, env);
            && move.store == reply.store
            && move.next
               == (if reply.result.value.stale then
                     DispatchExpire(reply.result.value.record, reply.result.value.attempt, p.now)
                   else DispatchPlace(reply.result.value.record, reply.result.value.attempt, env.claimToken, p.now))
  {
  }

  /** An expired or acquired claim leaves its method with records that are true of the store and await the provider. */
  lemma ClaimInforms(policy: Policy, s: Store, p: Program, env: Env)
    requires s.Indexed() && p.DispatchClaim? && WellPlaced(s, p.k, p.attempt) && Ladder(policy, s.files[p.k])
    ensures var reply := ClaimReply(policy, s, p, env);
            reply.result.Ok? && (reply.result.value.stale || reply.result.value.acquired) ==>
              && Seen(reply.store, reply.result.value.record, reply.result.value.attempt)
              && !reply.result.value.record.status.Terminal()
              && reply.result.value.attempt.status.AwaitingProvider()
  {
    ClaimSeen(s, p.k, p.attempt, env.claimToken, p.now, p.now + policy.submissionTimeout);
    ClaimAwaits(policy, s, p.k, p.attempt, env.claimToken, p.now, p.now + policy.submissionTimeout);
  }

  lemma ClaimKnows(policy: Policy, s: Store, p: Program, env: Env)
    requires s.Indexed() && p.DispatchClaim? && WellPlaced(s, p.k, p.attempt) && Ladder(policy, s.files[p.k])
    ensures var move := ActDispatchClaim(policy, s, p.k, p.attempt, p.now, env);
            ProgramOk(move.store, move.next)
  {
    var reply := ClaimReply(policy, s, p, env);
    ClaimInforms(policy, s, p, env);
    if env.contactReady && reply.result.Ok? && !reply.result.value.record.status.Terminal()
       && (reply.result.value.stale || reply.result.value.acquired)
    {
      ClaimGoesOn(policy, s, p, env);
    } else {
      ClaimStops(policy, s, p, env);
    }
  }

  lemma ReserveKnows(policy: Policy, s: Store, p: Program, env: Env)
    requires Sound(policy, s) && p.DispatchReserve?
    ensures var move := ActDispatchReserve(s, p.k, env);
            ProgramOk(move.store, move.next)
  {
    ReserveKnown(policy, s, p.k, env.freshId, env.token, env.now, ReserveEvent(p.k, env));
  }

  /** A callback token leads to an attempt of the case it belongs to. */
  predicate LeadsHome(s: Store, token: Token)
    requires token in s.callbacks
  {
    var k, n := s.callbacks[token].home, s.callbacks[token].index;
    && k in s.files && n < |s.files[k].slots|
    && s.files[k].record.Key() == k
    && s.files[k].slots[n].attempt.identity.sequence == n + 1
    && s.files[k].slots[n].attempt.identity.callbackToken == token
    && Seen(s, s.files[k].record, s.files[k].slots[n].attempt)
  }

  lemma TokenLeadsHome(policy: Policy, s: Store, token: Token)
    requires Sound(policy, s) && token in s.callbacks
    ensures LeadsHome(s, token)
  {
    assert s.Points(s.callbacks[token]);
    SlotIsSeen(policy, s, s.callbacks[token].home, s.callbacks[token].index);
  }

  lemma ResolveKnows(s: Store, p: Program)
    requires s.Indexed() && p.CallbackResolve? && (p.token in s.callbacks ==> LeadsHome(s, p.token))
    ensures var move := ActCallbackResolve(s, p.token, p.reference, p.action);
            ProgramOk(move.store, move.next)
  {
  }

  lemma BindKnows(policy: Policy, s: Store, p: Program, env: Env)
    requires Consistent(s) && p.CallbackBind?
    requires Seen(s, p.located.record, p.located.attempt) && TokenKnown(s, p)
    ensures var move := ActCallbackBind(s, p.token, p.reference, p.action, p.located, env);
            ProgramOk(move.store, move.next)
  {
    BindSeen(policy, s, p.token, p.reference, p.located, env);
  }

  lemma ListingIsActive(policy: Policy, s: Store, record: DispatchCase)
    requires Sound(policy, s) && CaseSeen(s, record)
    ensures ActiveSeen(s, record, Active(AttemptsOf(s.files[record.Key()].slots)))
  {
    var f := s.files[record.Key()];
    var n := LastOpen(AttemptsOf(f.slots));
    if n < |f.slots| {
      assert AttemptsOf(f.slots)[n] == f.slots[n].attempt;
      SlotIsSeen(policy, s, record.Key(), n);
    }
  }

  lemma ClaimingKnows(policy: Policy, s: Store, p: Program, env: Env)
    requires Sound(policy, s) && ProgramOk(s, p) && Runnable(s, p) && p.DispatchClaim?
    ensures ProgramOk(Act(policy, s, p, env).store, Act(policy, s, p, env).next)
  {
    KnownIsPlaced(s, p.k, p.attempt);
    ClaimKnows(policy, s, p, env);
  }

  lemma ReservingKnows(policy: Policy, s: Store, p: Program, env: Env)
    requires Sound(policy, s) && Runnable(s, p) && p.DispatchReserve?
    ensures ProgramOk(Act(policy, s, p, env).store, Act(policy, s, p, env).next)
  {
    ReserveKnows(policy, s, p, env);
  }

  lemma ListKnows(policy: Policy, s: Store, p: Program, env: Env)
    requires Runnable(s, p) && (p.CancelList? || p.ExhaustList?)
    requires CaseSeen(s, p.record) && !p.record.status.Terminal()
    requires ActiveSeen(s, p.record, Active(AttemptsOf(s.files[p.record.Key()].slots)))
    ensures ProgramOk(Act(policy, s, p, env).store, Act(policy, s, p, env).next)
  {
  }

  lemma PlacedKnows(policy: Policy, s: Store, p: Program, env: Env)
    requires ProgramOk(s, p) && p.DispatchPlace?
    ensures var move := ActDispatchPlace(s, p.record, p.attempt, p.claim, p.now, env);
            ProgramOk(move.store, move.next)
  {
  }

  /** The closing methods outside their listing actions. */
  predicate ClosingStep(p: Program) {
    p.CancelGet? || p.CancelCall? || p.CancelApply? || p.ExhaustGet? || p.ExhaustApply?
  }

  lemma CancelKnows(policy: Policy, s: Store, p: Program, env: Env)
    requires Consistent(s) && ProgramOk(s, p) && (p.CancelGet? || p.CancelCall?)
    ensures ProgramOk(Act(policy, s, p, env).store, Act(policy, s, p, env).next)
  {
  }

  lemma ExhaustKnows(policy: Policy, s: Store, p: Program, env: Env)
    requires Consistent(s) && ProgramOk(s, p) && (p.ExhaustGet? || p.ExhaustApply?)
    ensures ProgramOk(Act(policy, s, p, env).store, Act(policy, s, p, env).next)
  {
  }

  lemma ClosingKnows(policy: Policy, s: Store, p: Program, env: Env)
    requires Consistent(s) && ProgramOk(s, p) && Runnable(s, p) && ClosingStep(p)
    ensures ProgramOk(Act(policy, s, p, env).store, Act(policy, s, p, env).next)
  {
    if p.CancelGet? || p.CancelCall? {
      CancelKnows(policy, s, p, env);
    } else if p.ExhaustGet? || p.ExhaustApply? {
      ExhaustKnows(policy, s, p, env);
    }
  }

  /** Every other action ends its method, or only starts an authorization or a reservation. */
  lemma RestKnows(policy: Policy, s: Store, p: Program, env: Env)
    requires ProgramOk(s, p) && Runnable(s, p) && !ReservationStep(p) && !p.DispatchPlace? && !ClosingStep(p)
    requires !p.CallbackResolve? && !p.CallbackBind? && !p.CancelList? && !p.ExhaustList?
    ensures ProgramOk(Act(policy, s, p, env).store, Act(policy, s, p, env).next)
  {
  }

  lemma ResolvingKnows(policy: Policy, s: Store, p: Program)
    requires Sound(policy, s) && p.CallbackResolve?
    ensures var move := ActCallbackResolve(s, p.token, p.reference, p.action);
            ProgramOk(move.store, move.next)
  {
    if p.token in s.callbacks {
      TokenLeadsHome(policy, s, p.token);
    }
    ResolveKnows(s, p);
  }

  /** After its action a program again knows only what is true of the store. */
  lemma ActKnows(policy: Policy, s: Store, p: Program, env: Env)
    requires Sound(policy, s) && ProgramOk(s, p) && Runnable(s, p)
    ensures ProgramOk(Act(policy, s, p, env).store, Act(policy, s, p, env).next)
  {
    if p.DispatchReserve? {
      ReservingKnows(policy, s, p, env);
    } else if p.DispatchClaim? {
      ClaimingKnows(policy, s, p, env);
    } else if p.CallbackResolve? {
      ResolvingKnows(policy, s, p);
    } else if p.CallbackBind? {
      BindKnows(policy, s, p, env);
    } else if p.CancelList? || p.ExhaustList? {
      ListingIsActive(policy, s, p.record);
      ListKnows(policy, s, p, env);
    } else if p.DispatchPlace? {
      PlacedKnows(policy, s, p, env);
    } else if ClosingStep(p) {
      ClosingKnows(policy, s, p, env);
    } else {
      RestKnows(policy, s, p, env);
    }
  }
}
