/**
  The guarantees of the dispatch protocol, for every run: any number of
  workers, callbacks, operators and exhausted queues, interleaved in any way,
  with any clock readings and any provider answers.
*/
module DispatchTheorems {
  import opened Wrappers
  import opened DispatchModels
  import opened DispatchStore
  import opened DispatchCoordinator
  import opened CaseAutomaton
  import opened CaseBudget
  import opened CaseHistory
  import opened DispatchRefinement
  import opened DispatchActions
  import opened DispatchSystem
  import opened DispatchCalls
  import opened DispatchLog
  import opened DispatchCancel
  import opened DispatchAuthorization
  import opened DispatchBudget
  import opened DispatchRuns

  // ---------- refinement ----------

  /** The file that a sequence of moves leads to, if each was enabled in its turn. */
  function Replay(policy: Policy, f: CaseFile, moves: seq<CaseMove>): Option<CaseFile> {
    if moves == [] then Some(f)
    else
      var n := |moves| - 1;
      match Replay(policy, f, moves[..n])
      case None => None
      case Some(g) => if Enabled(policy, moves[n], g) then Some(Perform(policy, moves[n], g)) else None
  }

  predicate Opening(f: CaseFile) {
    f.record.status.Queued? && f.record.version == 1 && f.slots == [] && |f.log| == 1
  }

  ghost predicate Serial(policy: Policy, f: CaseFile) {
    exists f0, moves :: Opening(f0) && Replay(policy, f0, moves) == Some(f)
  }

  ghost predicate AllSerial(policy: Policy, s: Store) {
    forall k :: k in s.files ==> Serial(policy, s.files[k])
  }

  lemma MoveSerial(policy: Policy, m: CaseMove, f: CaseFile)
    requires Serial(policy, f) && Enabled(policy, m, f)
    ensures Serial(policy, Perform(policy, m, f))
  {
    var f0, moves :| Opening(f0) && Replay(policy, f0, moves) == Some(f);
    assert (moves + [m])[..|moves|] == moves;
    assert Replay(policy, f0, moves + [m]) == Some(Perform(policy, m, f));
  }

  lemma OpeningSerial(policy: Policy, f: CaseFile)
    requires Opening(f)
    ensures Serial(policy, f)
  {
    assert Replay(policy, f, []) == Some(f);
  }

  lemma ChangesSerial(policy: Policy, s: Store, p: Program, env: Env, s': Store)
    requires Changes(policy, s, p, env, s') && AllSerial(policy, s)
    ensures AllSerial(policy, s')
  {
    if s' != s && Writes(p) {
      var target := Intent(policy, s, p, env);
      MoveSerial(policy, target.move, s.files[target.home]);
    } else if s' != s {
      OpeningSerial(policy, CaseFile(CreatedRecord(policy, p, env), [], [CreatedEvent(policy, p, env)]));
    }
  }

  /**
    Optimistic concurrency is sound: after any interleaving, every case is what
    some sequence of atomic moves, one at a time, each reading the file it
    changes, makes of a newly authorized case.
  */
  lemma {:induction false} RunsAreSerial(policy: Policy, inputs: seq<Input>)
    ensures AllSerial(policy, Execute(policy, inputs).store)
  {
    if inputs == [] {
    } else {
      var n := |inputs| - 1;
      RunsAreSerial(policy, inputs[..n]);
      Reached(policy, inputs[..n]);
      StepSerial(policy, Execute(policy, inputs[..n]), inputs[n]);
    }
  }

  lemma StepSerial(policy: Policy, sys: System, input: Input)
    requires Core(policy, sys) && Ready(sys) && AllSerial(policy, sys.store)
    ensures AllSerial(policy, Step(policy, sys, input).store)
  {
    if input.Run? && input.pid in sys.programs {
      RunChanges(policy, sys, input.pid, input.env);
      ChangesSerial(policy, sys.store, sys.programs[input.pid], input.env,
                    RunAction(policy, sys, input.pid, input.env).store);
    }
  }

  // ---------- calls ----------

  /** At most one call per attempt may have reached the provider, and at most three per case. */
  lemma CallsBounded(policy: Policy, inputs: seq<Input>, k: CaseKey)
    requires k in Execute(policy, inputs).store.files
    ensures var sys := Execute(policy, inputs);
            && (forall ak :: sys.Calls(ak) <= 1)
            && CaseCalls(sys.calls, sys.store.files[k].slots) <= |sys.store.files[k].slots| <= 3
  {
    var sys := Execute(policy, inputs);
    Reached(policy, inputs);
    CountedBounds(policy, sys.store, sys.calls, k);
  }

  lemma CountedBounds(policy: Policy, s: Store, calls: map<AttemptKey, nat>, k: CaseKey)
    requires s.Indexed() && Counted(s, calls) && k in s.files && Ladder(policy, s.files[k])
    ensures forall ak :: ak in calls ==> calls[ak] <= 1
    ensures CaseCalls(calls, s.files[k].slots) <= |s.files[k].slots| <= 3
  {
    CaseCallsBounded(calls, s.files[k].slots);
  }

  lemma PendingAgain(policy: Policy, s: Store, p: Program, env: Env, s': Store, ak: AttemptKey)
    requires Consistent(s) && s'.Indexed() && Changes(policy, s, p, env, s') && ak in s.placed
    requires p.DispatchRefused? ==> Known(s, p.record.Key(), p.attempt)
    ensures ak in s'.placed
    ensures PendingAt(s', ak) && !PendingAt(s, ak) ==> p.DispatchRefused? && p.attempt.Key() == ak
  {
    ChangePlaced(policy, s, p, env, s', ak);
    if !(p.DispatchRefused? && p.attempt.Key() == ak) {
      ChangePending(policy, s, p, env, s', ak);
    }
  }

  predicate IsPending(s: Store, ak: AttemptKey) {
    ak in s.placed && s.Points(s.placed[ak]) && PendingAt(s, ak)
  }

  /**
    Only the record of a definite refusal makes a submission pending again, and
    then no call for that attempt can have reached the provider.
  */
  lemma PendingOnlyByRefusal(
    policy: Policy, inputs: seq<Input>, sys: System, pid: nat, env: Env, ak: AttemptKey)
    requires sys == Execute(policy, inputs) && pid in sys.programs && ak in sys.store.placed
    requires !IsPending(sys.store, ak) && IsPending(Step(policy, sys, Run(pid, env)).store, ak)
    ensures sys.programs[pid].DispatchRefused? && sys.programs[pid].attempt.Key() == ak && sys.Calls(ak) == 0
  {
    Reached(policy, inputs);
    RunPending(policy, sys, pid, env, ak);
    RefusedUncalled(sys, pid);
  }

  lemma RunPending(policy: Policy, sys: System, pid: nat, env: Env, ak: AttemptKey)
    requires Core(policy, sys) && Ready(sys) && pid in sys.programs && ak in sys.store.placed
    ensures var s' := RunAction(policy, sys, pid, env).store;
            && s'.Indexed() && ak in s'.placed
            && (PendingAt(s', ak) && !PendingAt(sys.store, ak) ==>
                  sys.programs[pid].DispatchRefused? && sys.programs[pid].attempt.Key() == ak)
  {
    var p, s' := sys.programs[pid], RunAction(policy, sys, pid, env).store;
    RunChanges(policy, sys, pid, env);
    RunCore(policy, sys, pid, env);
    RefusedKnows(sys.store, p);
    PendingAgain(policy, sys.store, p, env, s', ak);
  }

  lemma RefusedKnows(s: Store, p: Program)
    requires ProgramOk(s, p)
    ensures p.DispatchRefused? ==> Known(s, p.record.Key(), p.attempt)
  {
  }

  lemma RefusedUncalled(sys: System, pid: nat)
    requires sys.store.Indexed() && AllHolding(sys.store, sys.holder, sys.calls, sys.programs)
    requires pid in sys.programs
    ensures sys.programs[pid].DispatchRefused? ==> sys.Calls(sys.programs[pid].attempt.Key()) == 0
  {
    assert Holding(sys.store, sys.holder, sys.calls, pid, sys.programs[pid]);
  }

  // ---------- the ladder ----------

  /** The status of an open case, read off its attempts. */
  function StatusOf(slots: seq<Slot>): DispatchStatus {
    if slots == [] then DispatchStatus.Queued
    else
      match slots[|slots| - 1].attempt.status
      case Unacknowledged =>
        if |slots| == 1 then DispatchStatus.RetryScheduled else DispatchStatus.SupervisorScheduled
      case ProviderRetry => DispatchStatus.ProviderRetry
      case Answered => DispatchStatus.AwaitingAcknowledgement
      case _ => DispatchStatus.Dialing
  }

  predicate OneLadder(f: CaseFile) {
    && |f.slots| == f.record.attemptCount <= 3
    && (forall i :: 0 <= i < |f.slots| ==>
          && f.slots[i].attempt.identity.sequence == i + 1
          && f.slots[i].attempt.identity.targetRole == (if i < 2 then Primary else Supervisor))
    && (forall i :: 0 <= i < |f.slots| - 1 ==> f.slots[i].attempt.status.Terminal())
    && (!f.record.status.Terminal() ==>
          && f.record.status == StatusOf(f.slots)
          && (forall i :: 0 <= i < |f.slots| - 1 ==> f.slots[i].attempt.status.Unacknowledged?))
  }

  /** Two primary rungs, one supervisor rung, one open attempt, and a status that says where the case stands. */
  lemma LadderOfRun(policy: Policy, inputs: seq<Input>, k: CaseKey)
    requires k in Execute(policy, inputs).store.files
    ensures OneLadder(Execute(policy, inputs).store.files[k])
  {
    Reached(policy, inputs);
    LadderIsOne(policy, Execute(policy, inputs).store.files[k]);
  }

  lemma LadderIsOne(policy: Policy, f: CaseFile)
    requires Ladder(policy, f)
    ensures OneLadder(f)
  {
    assert forall i :: 0 <= i < |f.slots| ==> Rung(f.record, i, f.slots[i].attempt);
  }

  /** A reservation follows only unacknowledged attempts, after the full retry delay. */
  predicate ReservedInTurn(policy: Policy, f: CaseFile, f': CaseFile) {
    |f'.slots| != |f.slots| ==>
      && |f'.slots| == |f.slots| + 1 <= 3
      && !f.record.status.Terminal()
      && AllUnacknowledged(f.slots)
      && f'.slots[|f.slots|].attempt.status.Reserved?
      && (|f.slots| > 0 ==>
            var last := f.slots[|f.slots| - 1].attempt;
            && last.completedAt.Some?
            && last.completedAt.value + policy.retryDelay
               <= f'.slots[|f.slots|].attempt.identity.createdAt)
  }

  lemma MoveInTurn(policy: Policy, m: CaseMove, f: CaseFile)
    requires Enabled(policy, m, f) && Ladder(policy, f)
    ensures ReservedInTurn(policy, f, Perform(policy, m, f))
  {
    if m.Reserve? {
      OpenCase(policy, f);
      assert f.slots != [] ==> LastStatus(f).Unacknowledged?;
    } else {
      MoveKeepsCount(policy, m, f);
    }
  }

  lemma ChangesInTurn(policy: Policy, s: Store, p: Program, env: Env, s': Store, k: CaseKey)
    requires Changes(policy, s, p, env, s') && k in s.files && Ladder(policy, s.files[k])
    ensures k in s'.files && ReservedInTurn(policy, s.files[k], s'.files[k])
  {
    if s' != s && Writes(p) {
      var target := Intent(policy, s, p, env);
      if target.home == k {
        MoveInTurn(policy, target.move, s.files[k]);
      }
    }
  }

  /** No action ever reserves an attempt out of turn or before its time. */
  lemma ReservationsWait(policy: Policy, inputs: seq<Input>, sys: System, pid: nat, env: Env, k: CaseKey)
    requires sys == Execute(policy, inputs) && pid in sys.programs && k in sys.store.files
    ensures var s' := Step(policy, sys, Run(pid, env)).store;
            k in s'.files && ReservedInTurn(policy, sys.store.files[k], s'.files[k])
  {
    Reached(policy, inputs);
    RunChanges(policy, sys, pid, env);
    ChangesInTurn(policy, sys.store, sys.programs[pid], env, RunAction(policy, sys, pid, env).store, k);
  }

  // ---------- closed cases ----------

  /** Over whole runs: closed is closed, except that a key-press may still answer an exhausted case. */
  lemma ClosedOverRuns(policy: Policy, before: seq<Input>, after: seq<Input>, k: CaseKey)
    requires k in Execute(policy, before).store.files
    ensures var s, s' := Execute(policy, before).store, Execute(policy, before + after).store;
            k in s'.files
            && Evolves(s.files[k], s'.files[k])
            && StaysClosed(s.files[k], s'.files[k])
  {
    RunFollows(policy, before, after);
  }

  /**
    Closing a case by a key-press leaves every attempt ended exactly when the
    pressed attempt was the only open one or none was open: a late key-press on
    an earlier call leaves the later attempt open in a closed case.
  */
  lemma KeyPressEndsAll(policy: Policy, m: CaseMove, f: CaseFile)
    requires m.Callback? && m.action.Gather? && Enabled(policy, m, f)
    ensures var f' := Perform(policy, m, f);
            && f'.record.status.Terminal()
            && ((forall i :: 0 <= i < |f'.slots| ==> f'.slots[i].attempt.status.Terminal())
                <==> (forall i :: 0 <= i < |f.slots| && i != m.n ==> f.slots[i].attempt.status.Terminal()))
  {
    var f' := Perform(policy, m, f);
    assert f'.slots[m.n].attempt.status.Terminal();
    assert forall i :: 0 <= i < |f.slots| && i != m.n ==> f'.slots[i] == f.slots[i];
  }

  /** An attempt that a key-press, or a hand-over to a person, ended. */
  predicate Answered(attempt: CallAttempt) {
    attempt.status.Acknowledged? || attempt.status.ManualFollowUp?
  }

  /** In a closed case the last attempt is open only behind an earlier one that was answered. */
  ghost predicate OpenOnlyBehindAnswer(f: CaseFile) {
    f.record.status.Terminal() && f.slots != [] && !LastStatus(f).Terminal() ==>
      exists i :: 0 <= i < |f.slots| - 1 && Answered(f.slots[i].attempt)
  }

  /** A key-press on an exhausted case finds no attempt open. */
  lemma LatestAnswer(policy: Policy, m: CaseMove, f: CaseFile)
    requires Enabled(policy, m, f) && Ladder(policy, f) && f.record.status.Terminal() && OpenOnlyBehindAnswer(f)
    ensures OpenOnlyBehindAnswer(Perform(policy, m, f))
  {
    ClosedForGood(policy, m, f);
    var f' := Perform(policy, m, f);
    if f'.record != f.record || f'.slots != f.slots {
      assert f.slots[|f.slots| - 1].attempt.status.Unacknowledged?;
      assert f'.slots[|f.slots| - 1].attempt.status.Terminal();
    }
  }

  /** A callback that closes an open case ends the last attempt or answers an earlier one. */
  lemma ClosingCallback(policy: Policy, m: CaseMove, f: CaseFile)
    requires m.Callback? && Enabled(policy, m, f) && Ladder(policy, f) && !f.record.status.Terminal()
    ensures OpenOnlyBehindAnswer(Perform(policy, m, f))
  {
    var f' := Perform(policy, m, f);
    assert Rung(f.record, m.n, f.slots[m.n].attempt);
    if f'.record.status.Terminal() && m.n < |f.slots| - 1 {
      OpenCase(policy, f);
      assert Answered(f'.slots[m.n].attempt);
    }
  }

  /** Whoever closes an open case otherwise ends its last open attempt. */
  lemma ClosingMove(policy: Policy, m: CaseMove, f: CaseFile)
    requires (m.Cancel? || m.Exhaust? || m.GiveUp?) && Enabled(policy, m, f) && Ladder(policy, f)
    ensures OpenOnlyBehindAnswer(Perform(policy, m, f))
  {
    var n := |f.slots|;
    if m.GiveUp? {
      ClaimedIsLast(policy, f, m.n);
    } else if n > 0 {
      assert AttemptsOf(f.slots)[n - 1] == f.slots[n - 1].attempt;
    }
  }

  lemma MoveAnswers(policy: Policy, m: CaseMove, f: CaseFile)
    requires Enabled(policy, m, f) && Ladder(policy, f) && OpenOnlyBehindAnswer(f)
    ensures OpenOnlyBehindAnswer(Perform(policy, m, f))
  {
    if f.record.status.Terminal() {
      LatestAnswer(policy, m, f);
    } else {
      match m {
        case Callback(_, _, _, _) => ClosingCallback(policy, m, f);
        case Cancel(_, _, _) => ClosingMove(policy, m, f);
        case Exhaust(_, _) => ClosingMove(policy, m, f);
        case GiveUp(_, _, _, _) => ClosingMove(policy, m, f);
        case _ =>
      }
    }
  }

  ghost predicate AllBehindAnswer(s: Store) {
    forall k :: k in s.files ==> OpenOnlyBehindAnswer(s.files[k])
  }

  lemma ChangesAnswer(policy: Policy, s: Store, p: Program, env: Env, s': Store)
    requires Changes(policy, s, p, env, s') && Ladders(policy, s) && AllBehindAnswer(s)
    ensures AllBehindAnswer(s')
  {
    if s' != s && Writes(p) {
      var target := Intent(policy, s, p, env);
      MoveAnswers(policy, target.move, s.files[target.home]);
    }
  }

  lemma StepAnswers(policy: Policy, sys: System, input: Input)
    requires Core(policy, sys) && Ready(sys) && AllBehindAnswer(sys.store)
    ensures AllBehindAnswer(Step(policy, sys, input).store)
  {
    if input.Run? && input.pid in sys.programs {
      RunChanges(policy, sys, input.pid, input.env);
      ChangesAnswer(policy, sys.store, sys.programs[input.pid], input.env,
                    RunAction(policy, sys, input.pid, input.env).store);
    }
  }

  /**
    In every run, the last attempt of a closed case is open only if an earlier
    attempt was acknowledged or handed to a person: nothing but a late answer
    leaves a call behind.
  */
  lemma {:induction false} ClosedCallsAnswered(policy: Policy, inputs: seq<Input>)
    ensures AllBehindAnswer(Execute(policy, inputs).store)
  {
    if inputs == [] {
    } else {
      var n := |inputs| - 1;
      ClosedCallsAnswered(policy, inputs[..n]);
      Reached(policy, inputs[..n]);
      StepAnswers(policy, Execute(policy, inputs[..n]), inputs[n]);
    }
  }

  // ---------- bounded runs ----------

  function MarkedAt(f: CaseFile, i: nat): nat {
    if i < |f.slots| && f.slots[i].attempt.reference.Some? && f.slots[i].attempt.reference.value.Marked() then 1 else 0
  }

  /**
    The version of a case never exceeds 29, plus two per recorded provider
    failure, plus one per call that logged a progress status under the literal
    "sha256:..." reference it was bound with.
  */
  lemma VersionBound(policy: Policy, inputs: seq<Input>, k: CaseKey)
    requires k in Execute(policy, inputs).store.files
    ensures var f := Execute(policy, inputs).store.files[k];
            && f.record.version <= 29 + 2 * Retries(f.log) + Literals(f)
            && Literals(f) <= MarkedAt(f, 0) + MarkedAt(f, 1) + MarkedAt(f, 2)
  {
    var s := Execute(policy, inputs).store;
    Reached(policy, inputs);
    assert WithinBudget(s.dedupe, s.files[k]);
  }

  // ---------- binding ----------

  /** The reference a token's attempt is bound to. */
  function BoundTo(s: Store, token: Token): Option<Reference> {
    if token in s.callbacks && s.Points(s.callbacks[token]) then s.At(s.callbacks[token]).attempt.reference else None
  }

  predicate SubmittedAt(s: Store, token: Token) {
    && token in s.callbacks && s.Points(s.callbacks[token])
    && s.At(s.callbacks[token]).submission.state.Submitted?
  }

  /** A running program that carries a reference to a token's attempt. */
  predicate Carries(p: Program, token: Token) {
    (p.CallbackResolve? || p.CallbackBind?) && p.token == token
  }

  lemma BoundDecides(policy: Policy, s: Store, p: Program, env: Env, token: Token)
    requires Runnable(s, p) && Carries(p, token) && BoundTo(s, token).Some?
    requires !BoundTo(s, token).value.Blank()
    ensures var move := Act(policy, s, p, env);
            && move.store == s
            && (BoundTo(s, token).value.Matches(p.reference) && !p.reference.Blank() <==> move.next.CallbackApply?)
            && (!move.next.CallbackApply? ==> move.next == Finished(Err(CallMismatch)))
            && (move.next.CallbackApply? ==>
                  move.next.reference == p.reference && move.next.action == p.action
                  && move.next.located == ResolveCallback(s, token).value)
  {
  }

  lemma BoundStays(s: Store, s': Store, token: Token)
    requires s.Indexed() && s'.Indexed() && StoreEvolves(s, s') && BoundTo(s, token).Some?
    ensures BoundTo(s', token) == BoundTo(s, token)
  {
    var a := s.callbacks[token];
    assert s.Points(a);
    assert Evolves(s.files[a.home], s'.files[a.home]);
    assert SlotEvolves(s.files[a.home].slots[a.index], s'.files[a.home].slots[a.index]);
  }

  /** In a reachable store a bound attempt is submitted and its reference is not blank. */
  lemma BoundIsSubmitted(policy: Policy, s: Store, token: Token)
    requires s.Indexed() && Ladders(policy, s) && BoundTo(s, token).Some?
    ensures SubmittedAt(s, token) && !BoundTo(s, token).value.Blank()
  {
    var a := s.callbacks[token];
    assert s.Points(a);
    assert Ladder(policy, s.files[a.home]);
    assert Coherent(s.files[a.home].slots[a.index]);
  }

  /**
    The race between an early callback and the return of the provider call has
    one outcome: once either has bound the attempt, the reference and the
    submitted state stay, and everyone who comes later with a reference, in
    whatever state of the case, is let through exactly when it matches and
    changes nothing by being let through.
  */
  lemma BindingRace(
    policy: Policy, before: seq<Input>, after: seq<Input>, sys: System, token: Token, pid: nat, env: Env)
    requires BoundTo(Execute(policy, before).store, token).Some?
    requires sys == Execute(policy, before + after) && pid in sys.programs && Carries(sys.programs[pid], token)
    ensures var bound, sys' := BoundTo(Execute(policy, before).store, token), Step(policy, sys, Run(pid, env));
            var p := sys.programs[pid];
            && BoundTo(sys.store, token) == bound && SubmittedAt(sys.store, token)
            && sys'.store == sys.store && pid in sys'.programs
            && (sys'.programs[pid].CallbackApply? <==> bound.value.Matches(p.reference) && !p.reference.Blank())
            && (!sys'.programs[pid].CallbackApply? ==> sys'.programs[pid] == Finished(Err(CallMismatch)))
  {
    ReachedStore(policy, before);
    ReachedStore(policy, before + after);
    RunFollows(policy, before, after);
    BoundStays(Execute(policy, before).store, sys.store, token);
    BoundIsSubmitted(policy, sys.store, token);
    BoundDecides(policy, sys.store, sys.programs[pid], env, token);
    RunStore(policy, sys, pid, env);
  }

  /** One call-initiated event for every bound attempt, and none for the others. */
  lemma CallInitiatedOnce(policy: Policy, inputs: seq<Input>, k: CaseKey, n: nat)
    requires k in Execute(policy, inputs).store.files && n < |Execute(policy, inputs).store.files[k].slots|
    ensures var s := Execute(policy, inputs).store;
            var attempt := s.files[k].slots[n].attempt;
            var e := DedupeEntry(k.tenantId, CallInitiatedKey(attempt.identity.attemptId));
            && (attempt.reference.Some? <==> exists k', i :: LoggedAt(s, e, k', i))
            && (forall k1, i1, k2, i2 :: LoggedAt(s, e, k1, i1) && LoggedAt(s, e, k2, i2) ==>
                  k1 == k2 && i1 == i2)
  {
    Reached(policy, inputs);
    BoundOnce(Execute(policy, inputs).store, k, n);
  }

  // ---------- redelivery ----------

  /** The deduplication set is exactly the keys of the logs, each logged once. */
  lemma KeysOfRun(policy: Policy, inputs: seq<Input>)
    ensures KeysExact(Execute(policy, inputs).store) && NoKeyTwice(Execute(policy, inputs).store)
  {
    Reached(policy, inputs);
  }

  /** A program somewhere inside the handling of one delivered callback. */
  predicate Redelivers(s: Store, p: Program, token: Token, reference: Reference, action: CallbackAction) {
    || ((p.CallbackResolve? || p.CallbackBind?)
        && p.token == token && p.reference == reference && p.action == action)
    || (p.CallbackApply? && token in s.callbacks && p.located.record.Key() == s.callbacks[token].home
        && p.reference == reference && p.action == action)
  }

  /** Where a step of a redelivered callback leads. */
  lemma RedeliveryLeads(
    policy: Policy, s: Store, p: Program, token: Token, reference: Reference, action: CallbackAction, env: Env)
    requires s.Indexed() && Runnable(s, p) && Handler(action) && Delivered(s, token, reference, action)
    requires s.callbacks[token].home in s.files
    requires s.files[s.callbacks[token].home].record.Key() == s.callbacks[token].home
    requires Redelivers(s, p, token, reference, action)
    ensures Act(policy, s, p, env).next.Finished?
         || Redelivers(s, Act(policy, s, p, env).next, token, reference, action)
  {
  }

  /** One step of a redelivered callback: nothing changes, and it stays one or ends. */
  lemma RedeliveryStep(
    policy: Policy, s: Store, p: Program, token: Token, reference: Reference, action: CallbackAction, env: Env)
    requires Consistent(s) && Runnable(s, p) && Handler(action) && Delivered(s, token, reference, action)
    requires Redelivers(s, p, token, reference, action)
    ensures Act(policy, s, p, env).store == s
    ensures Act(policy, s, p, env).next.Finished?
         || Redelivers(s, Act(policy, s, p, env).next, token, reference, action)
  {
    RedeliveryLeads(policy, s, p, token, reference, action, env);
    if p.CallbackResolve? {
      RedeliveryInert(policy, s, token, reference, action, ResolveCallback(s, token).value, env);
    } else {
      RedeliveryInert(policy, s, token, reference, action, p.located, env);
    }
  }

  /**
    Redelivery is idempotent: once a callback's key is logged, no step of any
    handling of it changes a case, an attempt, a submission or a log, at any
    later moment of the run.
  */
  lemma RedeliveryOverRuns(
    policy: Policy, before: seq<Input>, after: seq<Input>, sys: System, token: Token, reference: Reference,
    action: CallbackAction, pid: nat, env: Env)
    requires Handler(action) && Delivered(Execute(policy, before).store, token, reference, action)
    requires sys == Execute(policy, before + after) && pid in sys.programs
    requires Redelivers(sys.store, sys.programs[pid], token, reference, action)
    ensures var sys' := Step(policy, sys, Run(pid, env));
            && sys'.store == sys.store
            && pid in sys'.programs
            && (sys'.programs[pid].Finished?
                || Redelivers(sys.store, sys'.programs[pid], token, reference, action))
  {
    ReachedStore(policy, before);
    ReachedStore(policy, before + after);
    RunFollows(policy, before, after);
    DeliveredStays(Execute(policy, before).store, sys.store, token, reference, action);
    RedeliveryStep(policy, sys.store, sys.programs[pid], token, reference, action, env);
    RunStore(policy, sys, pid, env);
  }

  // ---------- cancellation ----------

  /** Nothing of a canceled case is claimed, and every call it had was canceled at the provider. */
  predicate CanceledSafely(sys: System, f: CaseFile) {
    f.record.status.Canceled? ==>
      forall i :: 0 <= i < |f.slots| ==>
        && !f.slots[i].submission.state.Claimed?
        && (f.slots[i].attempt.status.Canceled? ==> Told(f.slots[i].attempt, sys.canceled))
        && (f.slots[i].attempt.status.Canceled? || f.slots[i].attempt.status.Unacknowledged?)
  }

  /** Cancellation is safe, and stays so for the rest of the run. */
  lemma CancellationSafety(policy: Policy, before: seq<Input>, after: seq<Input>, k: CaseKey)
    requires k in Execute(policy, before).store.files
    ensures var sys, sys' := Execute(policy, before), Execute(policy, before + after);
            && CanceledSafely(sys, sys.store.files[k])
            && (sys.store.files[k].record.status.Canceled? ==>
                  && k in sys'.store.files
                  && sys'.store.files[k].record == sys.store.files[k].record
                  && sys'.store.files[k].slots == sys.store.files[k].slots)
  {
    Reached(policy, before);
    CanceledFile(policy, Execute(policy, before), k);
    ClosedOverRuns(policy, before, after, k);
  }

  lemma CanceledFile(policy: Policy, sys: System, k: CaseKey)
    requires k in sys.store.files && Ladder(policy, sys.store.files[k]) && CanceledTold(sys.store, sys.canceled)
    ensures CanceledSafely(sys, sys.store.files[k])
  {
    var f := sys.store.files[k];
    forall i | f.record.status.Canceled? && 0 <= i < |f.slots| ensures !f.slots[i].submission.state.Claimed? {
      CanceledUnclaimed(policy, f, i);
    }
  }

  // ---------- authorization ----------

  /** One case per tenant and key, from an approved request, with a fixed identity. */
  lemma AuthorizedOnce(policy: Policy, before: seq<Input>, after: seq<Input>, k1: CaseKey, k2: CaseKey)
    requires k1 in Execute(policy, before).store.files && k2 in Execute(policy, before + after).store.files
    requires k1.tenantId == k2.tenantId
    requires Execute(policy, before).store.files[k1].record.identity.idempotencyKeyHash
          == Execute(policy, before + after).store.files[k2].record.identity.idempotencyKeyHash
    ensures var sys, sys' := Execute(policy, before), Execute(policy, before + after);
            && k1 == k2
            && k1 in sys.origin && ComesFrom(sys.store.files[k1].record.identity, sys.origin[k1])
            && sys'.store.files[k2].record.identity == sys.store.files[k1].record.identity
  {
    var sys, sys' := Execute(policy, before), Execute(policy, before + after);
    Reached(policy, before);
    Reached(policy, before + after);
    RunFollows(policy, before, after);
    assert Evolves(sys.store.files[k1], sys'.store.files[k1]);
    OneCasePerKey(sys'.store, sys'.origin, k1, k2);
    assert Registered(sys.store, sys.origin, k1);
  }

  /** The case is the one registered for this request's tenant and key. */
  predicate CaseOfKey(f: CaseFile, k: CaseKey, request: AuthRequest) {
    && request.incident.tenantId == k.tenantId
    && f.record.identity.idempotencyKeyHash == KeyDigest(request.idempotencyKey)
  }

  lemma ScopeOfCase(s: Store, origin: map<CaseKey, Origin>, k: CaseKey, request: AuthRequest)
    requires AllRegistered(s, origin) && k in s.files && CaseOfKey(s.files[k], k, request)
    ensures request.Scope() in s.idempotency && s.idempotency[request.Scope()] == k.caseId
  {
    assert Registered(s, origin, k);
    assert origin[k].request.Scope() == request.Scope();
  }

  lemma ReachedRegistered(policy: Policy, inputs: seq<Input>)
    ensures var sys := Execute(policy, inputs);
            sys.store.Indexed() && AllRegistered(sys.store, sys.origin) && Ready(sys)
  {
    Reached(policy, inputs);
  }

  lemma RepeatedFind(policy: Policy, s: Store, k: CaseKey, request: AuthRequest)
    requires s.Indexed() && k in s.files && request.incident.tenantId == k.tenantId
    requires request.Scope() in s.idempotency && s.idempotency[request.Scope()] == k.caseId
    ensures var move := ActAuthFind(s, request);
            && move.store == s && move.next.Finished?
            && (move.next.result.Ok? ==>
                  && move.next.result == Ok(CaseAnswer(s.files[k].record))
                  && s.files[k].record.identity.fingerprint == request.Print())
  {
  }

  lemma RepeatedCreate(policy: Policy, s: Store, k: CaseKey, request: AuthRequest, env: Env)
    requires s.Indexed() && k in s.files && request.incident.tenantId == k.tenantId
    requires request.Scope() in s.idempotency && s.idempotency[request.Scope()] == k.caseId
    ensures var move := ActAuthCreate(policy, s, request, env);
            && move.store == s && move.next.Finished?
            && (move.next.result.Ok? ==>
                  && move.next.result == Ok(CaseAnswer(s.files[k].record))
                  && s.files[k].record.identity.fingerprint == request.Print())
  {
  }

  /**
    Concurrent authorization: once a case exists for a tenant and key, no
    authorization with that key creates another, at whatever point it was when
    the case appeared; it answers with that very case, unchanged in its fixed
    fields, or fails, and it fails whenever its fingerprint differs.
  */
  lemma AuthorizationReplays(
    policy: Policy, before: seq<Input>, after: seq<Input>, sys: System, pid: nat, env: Env, k: CaseKey)
    requires k in Execute(policy, before).store.files
    requires sys == Execute(policy, before + after) && pid in sys.programs
    requires sys.programs[pid].AuthFind? || sys.programs[pid].AuthCreate?
    requires CaseOfKey(Execute(policy, before).store.files[k], k, sys.programs[pid].request)
    ensures var sys' := Step(policy, sys, Run(pid, env));
            var identity := Execute(policy, before).store.files[k].record.identity;
            && sys'.store == sys.store
            && pid in sys'.programs && sys'.programs[pid].Finished?
            && (sys'.programs[pid].result.Ok? ==>
                  && sys'.programs[pid].result.value.CaseAnswer?
                  && sys'.programs[pid].result.value.record.identity == identity
                  && identity.fingerprint == sys.programs[pid].request.Print())
  {
    var request := sys.programs[pid].request;
    ReachedRegistered(policy, before + after);
    RunFollows(policy, before, after);
    assert Evolves(Execute(policy, before).store.files[k], sys.store.files[k]);
    ScopeOfCase(sys.store, sys.origin, k, request);
    RepeatedFind(policy, sys.store, k, request);
    RepeatedCreate(policy, sys.store, k, request, env);
    RunStore(policy, sys, pid, env);
  }
}
