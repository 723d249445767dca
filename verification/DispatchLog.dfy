/**
  The deduplication set is exactly the keys of the event logs, no key is logged
  twice, an attempt is bound exactly when its one call-initiated event is
  logged, and a redelivered callback changes nothing.
*/
module DispatchLog {
  import opened Wrappers
  import opened DispatchModels
  import opened DispatchStore
  import opened DispatchCoordinator
  import opened CaseAutomaton
  import opened CaseHistory
  import opened DispatchRefinement
  import opened DispatchActions
  import opened DispatchSystem

  /** Event i of case k's log carries this entry's key. */
  predicate LoggedAt(s: Store, e: DedupeEntry, k: CaseKey, i: nat) {
    && k in s.files
    && i < |s.files[k].log|
    && k.tenantId == e.tenantId
    && s.files[k].log[i].key == e.key
  }

  ghost predicate KeysExact(s: Store) {
    && (forall e, k, i :: LoggedAt(s, e, k, i) ==> e in s.dedupe)
    && (forall e :: e in s.dedupe ==> exists k, i :: LoggedAt(s, e, k, i))
  }

  ghost predicate NoKeyTwice(s: Store) {
    forall e, k, i, k', i' :: LoggedAt(s, e, k, i) && LoggedAt(s, e, k', i') ==> k == k' && i == i'
  }

  ghost predicate LogsOk(s: Store) {
    KeysExact(s) && NoKeyTwice(s)
  }

  /** One event is appended to one log, and its key is new. */
  predicate Appends(s: Store, s': Store, k: CaseKey, event: DispatchEvent) {
    && k in s'.files
    && s'.files == s.files[k := s'.files[k]]
    && s'.files[k].log == (if k in s.files then s.files[k].log else []) + [event]
    && s'.dedupe == s.dedupe + {DedupeEntry(k.tenantId, event.key)}
    && !s.Logged(k.tenantId, event.key)
  }

  predicate SameLogs(s: Store, s': Store, k: CaseKey) {
    && k in s.files && k in s'.files
    && s'.files == s.files[k := s'.files[k]]
    && s'.files[k].log == s.files[k].log
    && s'.dedupe == s.dedupe
  }

  lemma AppendsBack(s: Store, s': Store, k: CaseKey, event: DispatchEvent, e: DedupeEntry, k': CaseKey, i: nat)
    requires Appends(s, s', k, event) && LoggedAt(s', e, k', i)
    ensures LoggedAt(s, e, k', i)
         || (k' == k && i == |s'.files[k].log| - 1 && e == DedupeEntry(k.tenantId, event.key))
  {
  }

  lemma AppendsForward(s: Store, s': Store, k: CaseKey, event: DispatchEvent, e: DedupeEntry, k': CaseKey, i: nat)
    requires Appends(s, s', k, event) && LoggedAt(s, e, k', i)
    ensures LoggedAt(s', e, k', i)
  {
  }

  lemma AppendsExact(s: Store, s': Store, k: CaseKey, event: DispatchEvent)
    requires KeysExact(s) && Appends(s, s', k, event)
    ensures KeysExact(s')
  {
    forall e, k', i | LoggedAt(s', e, k', i) ensures e in s'.dedupe {
      AppendsBack(s, s', k, event, e, k', i);
    }
    forall e | e in s'.dedupe ensures exists k', i :: LoggedAt(s', e, k', i) {
      if e in s.dedupe {
        var k', i :| LoggedAt(s, e, k', i);
        AppendsForward(s, s', k, event, e, k', i);
      } else {
        assert LoggedAt(s', e, k, |s'.files[k].log| - 1);
      }
    }
  }

  lemma AppendsOnce(s: Store, s': Store, k: CaseKey, event: DispatchEvent)
    requires LogsOk(s) && Appends(s, s', k, event)
    ensures NoKeyTwice(s')
  {
    forall e, k1, i1, k2, i2 | LoggedAt(s', e, k1, i1) && LoggedAt(s', e, k2, i2) ensures k1 == k2 && i1 == i2 {
      AppendsBack(s, s', k, event, e, k1, i1);
      AppendsBack(s, s', k, event, e, k2, i2);
    }
  }

  lemma SameLogsOk(s: Store, s': Store, k: CaseKey)
    requires LogsOk(s) && SameLogs(s, s', k)
    ensures LogsOk(s')
  {
    assert forall e, k', i :: LoggedAt(s', e, k', i) <==> LoggedAt(s, e, k', i);
  }

  // ---------- which keys are where ----------

  /** An attempt is bound exactly when its call-initiated key is logged, in its own case. */
  ghost predicate BindingsLogged(s: Store)
    requires s.Indexed()
  {
    && (forall ak :: ak in s.placed ==>
          (s.At(s.placed[ak]).attempt.reference.Some?
           <==> s.Logged(ak.tenantId, CallInitiatedKey(ak.attemptId))))
    && (forall t, id :: s.Logged(t, CallInitiatedKey(id)) ==> AttemptKey(t, id) in s.placed)
  }

  /** Reservation and authorization keys name something that exists. */
  ghost predicate KeysGrounded(s: Store) {
    && (forall t, t', c, id :: s.Logged(t, AttemptReservedKey(t', c, id)) ==> AttemptKey(t, id) in s.placed)
    && (forall t, t', key :: s.Logged(t, AuthorizedKey(t', key)) ==> IdempotencyScope(t, key) in s.idempotency)
  }

  /** The key of the event a move appends. */
  function MoveKey(policy: Policy, m: CaseMove, f: CaseFile): DedupeKey
    requires Enabled(policy, m, f) && !m.TakeClaim?
  {
    MoveEvent(policy, m, f).key
  }

  lemma MoveKeyKind(policy: Policy, m: CaseMove, f: CaseFile)
    requires Enabled(policy, m, f) && !m.TakeClaim?
    ensures var key := MoveKey(policy, m, f);
            && !key.AuthorizedKey?
            && (key.AttemptReservedKey? ==> m.Reserve? && key.attemptId == m.attemptId)
            && (key.CallInitiatedKey? <==> m.Bind?)
            && (m.Bind? ==> key == CallInitiatedKey(f.slots[m.n].attempt.identity.attemptId))
  {
  }

  lemma MoveReference(policy: Policy, m: CaseMove, f: CaseFile, i: nat)
    requires Enabled(policy, m, f) && i < |f.slots|
    ensures i < |Perform(policy, m, f).slots|
    ensures Perform(policy, m, f).slots[i].attempt.reference.Some?
        <==> f.slots[i].attempt.reference.Some? || (m.Bind? && m.n == i)
  {
  }

  // ---------- preservation ----------

  lemma EnactsAppends(policy: Policy, s: Store, s': Store, k: CaseKey, m: CaseMove)
    requires Enacts(policy, s, s', k, m) && !m.TakeClaim?
    requires KeysGrounded(s) && (m.Reserve? ==> s.files[k].record.Key() == k)
    ensures Appends(s, s', k, MoveEvent(policy, m, s.files[k]))
  {
    if m.Reserve? {
      assert MoveEvent(policy, m, s.files[k]) == m.event;
      assert !s.Logged(k.tenantId, AttemptReservedKey(k.tenantId, k.caseId, m.attemptId));
    }
  }

  lemma EnactsLogs(policy: Policy, s: Store, s': Store, k: CaseKey, m: CaseMove)
    requires Consistent(s) && Enacts(policy, s, s', k, m) && LogsOk(s) && KeysGrounded(s)
    ensures LogsOk(s')
  {
    if m.TakeClaim? {
      SameLogsOk(s, s', k);
    } else {
      EnactsAppends(policy, s, s', k, m);
      AppendsExact(s, s', k, MoveEvent(policy, m, s.files[k]));
      AppendsOnce(s, s', k, MoveEvent(policy, m, s.files[k]));
    }
  }

  /** What is logged after a move was logged before, or is the move's own key. */
  lemma EnactsLogged(policy: Policy, s: Store, s': Store, k: CaseKey, m: CaseMove, t: Id, key: DedupeKey)
    requires Enacts(policy, s, s', k, m)
    ensures s'.Logged(t, key)
       <==> s.Logged(t, key)
            || (!m.TakeClaim? && t == k.tenantId && key == MoveKey(policy, m, s.files[k]))
  {
  }

  lemma EnactsGrounded(policy: Policy, s: Store, s': Store, k: CaseKey, m: CaseMove)
    requires Enacts(policy, s, s', k, m) && KeysGrounded(s)
    ensures KeysGrounded(s')
  {
    if !m.TakeClaim? {
      MoveKeyKind(policy, m, s.files[k]);
    }
    forall t, t', c, id | s'.Logged(t, AttemptReservedKey(t', c, id)) ensures AttemptKey(t, id) in s'.placed {
      EnactsLogged(policy, s, s', k, m, t, AttemptReservedKey(t', c, id));
    }
    forall t, t', key | s'.Logged(t, AuthorizedKey(t', key)) ensures IdempotencyScope(t, key) in s'.idempotency {
      EnactsLogged(policy, s, s', k, m, t, AuthorizedKey(t', key));
    }
  }

  lemma EnactsBindings(policy: Policy, s: Store, s': Store, k: CaseKey, m: CaseMove)
    requires Consistent(s) && s'.Indexed() && Enacts(policy, s, s', k, m) && BindingsLogged(s)
    ensures BindingsLogged(s')
  {
    forall ak | ak in s'.placed
      ensures s'.At(s'.placed[ak]).attempt.reference.Some?
         <==> s'.Logged(ak.tenantId, CallInitiatedKey(ak.attemptId))
    {
      if ak in s.placed {
        BindingKept(policy, s, s', k, m, ak);
      } else {
        NewUnbound(policy, s, s', k, m, ak);
      }
    }
    forall t, id | s'.Logged(t, CallInitiatedKey(id)) ensures AttemptKey(t, id) in s'.placed {
      LoggedIsPlaced(policy, s, s', k, m, t, id);
    }
  }

  lemma LoggedIsPlaced(policy: Policy, s: Store, s': Store, k: CaseKey, m: CaseMove, t: Id, id: Id)
    requires Consistent(s) && Enacts(policy, s, s', k, m) && BindingsLogged(s)
    requires s'.Logged(t, CallInitiatedKey(id))
    ensures AttemptKey(t, id) in s'.placed
  {
    EnactsLogged(policy, s, s', k, m, t, CallInitiatedKey(id));
    if !s.Logged(t, CallInitiatedKey(id)) {
      MoveKeyKind(policy, m, s.files[k]);
      assert Filed(s, k, m.n);
    }
  }

  lemma BindingKept(policy: Policy, s: Store, s': Store, k: CaseKey, m: CaseMove, ak: AttemptKey)
    requires Consistent(s) && s'.Indexed() && Enacts(policy, s, s', k, m) && BindingsLogged(s)
    requires ak in s.placed && ak in s'.placed
    ensures s'.At(s'.placed[ak]).attempt.reference.Some?
       <==> s'.Logged(ak.tenantId, CallInitiatedKey(ak.attemptId))
  {
    KeyBinds(policy, s, s', k, m, ak);
    ReferenceBinds(policy, s, s', k, m, ak);
  }

  /** The attempt that a move binds, if it is a binding move. */
  predicate Binds(s: Store, k: CaseKey, m: CaseMove, ak: AttemptKey) {
    m.Bind? && ak in s.placed && s.placed[ak] == Address(k, m.n)
  }

  lemma KeyBinds(policy: Policy, s: Store, s': Store, k: CaseKey, m: CaseMove, ak: AttemptKey)
    requires Consistent(s) && Enacts(policy, s, s', k, m) && ak in s.placed
    ensures s'.Logged(ak.tenantId, CallInitiatedKey(ak.attemptId))
       <==> s.Logged(ak.tenantId, CallInitiatedKey(ak.attemptId)) || Binds(s, k, m, ak)
  {
    EnactsLogged(policy, s, s', k, m, ak.tenantId, CallInitiatedKey(ak.attemptId));
    if !m.TakeClaim? {
      MoveKeyKind(policy, m, s.files[k]);
    }
    assert s.At(s.placed[ak]).attempt.Key() == ak;
    if m.Bind? {
      assert Filed(s, k, m.n);
    }
  }

  lemma ReferenceBinds(policy: Policy, s: Store, s': Store, k: CaseKey, m: CaseMove, ak: AttemptKey)
    requires s.Indexed() && s'.Indexed() && Enacts(policy, s, s', k, m)
    requires ak in s.placed && ak in s'.placed
    ensures s'.At(s'.placed[ak]).attempt.reference.Some?
       <==> s.At(s.placed[ak]).attempt.reference.Some? || Binds(s, k, m, ak)
  {
    assert s'.placed[ak] == s.placed[ak];
    if s.placed[ak].home == k {
      MoveReference(policy, m, s.files[k], s.placed[ak].index);
    }
  }

  lemma NewUnbound(policy: Policy, s: Store, s': Store, k: CaseKey, m: CaseMove, ak: AttemptKey)
    requires Consistent(s) && s'.Indexed() && Enacts(policy, s, s', k, m) && BindingsLogged(s)
    requires ak !in s.placed && ak in s'.placed
    ensures s'.At(s'.placed[ak]).attempt.reference.None?
    ensures !s'.Logged(ak.tenantId, CallInitiatedKey(ak.attemptId))
  {
    EnactsLogged(policy, s, s', k, m, ak.tenantId, CallInitiatedKey(ak.attemptId));
    assert m.Reserve?;
  }

  lemma OpensKeys(
    s: Store, s': Store, record: DispatchCase, scope: IdempotencyScope, event: DispatchEvent)
    requires s.Indexed() && s'.Indexed() && Opens(s, s', record, scope, event)
    requires LogsOk(s) && KeysGrounded(s) && BindingsLogged(s)
    ensures LogsOk(s') && KeysGrounded(s') && BindingsLogged(s')
  {
    var k := record.Key();
    assert Appends(s, s', k, event);
    AppendsExact(s, s', k, event);
    AppendsOnce(s, s', k, event);
    assert forall a :: s.Points(a) ==> s'.Points(a) && s'.At(a) == s.At(a);
    forall t, t', c, id | s'.Logged(t, AttemptReservedKey(t', c, id)) ensures AttemptKey(t, id) in s'.placed {
      assert s.Logged(t, AttemptReservedKey(t', c, id));
    }
    forall t, t', key | s'.Logged(t, AuthorizedKey(t', key)) ensures IdempotencyScope(t, key) in s'.idempotency {
      assert s.Logged(t, AuthorizedKey(t', key)) || event.key == AuthorizedKey(t', key);
    }
  }

  ghost predicate LogInvariant(s: Store)
    requires s.Indexed()
  {
    LogsOk(s) && KeysGrounded(s) && BindingsLogged(s)
  }

  lemma ChangesLog(policy: Policy, s: Store, p: Program, env: Env, s': Store)
    requires Consistent(s) && s'.Indexed() && Changes(policy, s, p, env, s') && LogInvariant(s)
    ensures LogInvariant(s')
  {
    if s' != s && Writes(p) {
      var target := Intent(policy, s, p, env);
      EnactsLogs(policy, s, s', target.home, target.move);
      EnactsGrounded(policy, s, s', target.home, target.move);
      EnactsBindings(policy, s, s', target.home, target.move);
    } else if s' != s {
      OpensKeys(s, s', CreatedRecord(policy, p, env), p.request.Scope(), CreatedEvent(policy, p, env));
    }
  }

  /** A bound attempt has exactly one call-initiated event, in its own case's log. */
  lemma {:induction false} BoundOnce(s: Store, k: CaseKey, n: nat)
    requires Consistent(s) && LogInvariant(s) && k in s.files && n < |s.files[k].slots|
    ensures var attempt := s.files[k].slots[n].attempt;
            var e := DedupeEntry(k.tenantId, CallInitiatedKey(attempt.identity.attemptId));
            && (attempt.reference.Some? <==> exists k', i :: LoggedAt(s, e, k', i))
            && (forall k1, i1, k2, i2 :: LoggedAt(s, e, k1, i1) && LoggedAt(s, e, k2, i2) ==>
                  k1 == k2 && i1 == i2)
  {
    assert Filed(s, k, n);
  }

  // ---------- redelivery ----------

  /** A callback handler whose callback carries a deduplication key. */
  predicate Handler(action: CallbackAction) {
    action.Status? || action.Gather? || action.MachineDetection?
  }

  /** The token's attempt is bound and the callback's key is logged. */
  predicate Delivered(s: Store, token: Token, reference: Reference, action: CallbackAction)
    requires Handler(action)
  {
    && token in s.callbacks && s.Points(s.callbacks[token])
    && s.At(s.callbacks[token]).attempt.reference.Some?
    && s.Logged(s.callbacks[token].home.tenantId, action.Key(reference))
  }

  /** What a handler decides carries the callback's key. */
  lemma HandlingKey(
    policy: Policy, record: DispatchCase, attempt: CallAttempt, reference: Reference, action: CallbackAction, env: Env)
    requires Handler(action)
    ensures var handling := Handle(policy, record, attempt, reference, action, env);
            && !handling.Nothing?
            && (var event := if handling.Append? then handling.event else handling.plan.event;
                event.key == action.Key(reference) && event.tenantId == record.identity.tenantId
                && event.caseId == record.identity.caseId
                && event.attemptId == Some(attempt.identity.attemptId))
            && (handling.Change? ==> handling.plan.record.identity == record.identity)
  {
  }

  /** A handler that finished without an error has its key in the log. */
  lemma HandledIsLogged(
    policy: Policy, s: Store, reference: Reference, action: CallbackAction, located: Located, env: Env)
    requires s.Indexed() && Handler(action)
    requires ActCallbackApply(policy, s, reference, action, located, env).next.result.Ok?
    ensures ActCallbackApply(policy, s, reference, action, located, env)
              .store.Logged(located.record.identity.tenantId, action.Key(reference))
  {
    HandlingKey(policy, located.record, located.attempt, reference, action, env);
  }

  /** Looking a delivered callback up, or trying to bind it again, changes nothing. */
  lemma RebindingInert(
    s: Store, token: Token, reference: Reference, action: CallbackAction, located: Located, env: Env)
    requires s.Indexed() && Handler(action) && Delivered(s, token, reference, action)
    ensures ActCallbackResolve(s, token, reference, action).store == s
    ensures !ActCallbackResolve(s, token, reference, action).next.CallbackBind?
    ensures ActCallbackBind(s, token, reference, action, located, env).store == s
  {
  }

  /** Applying a delivered callback again changes nothing. */
  lemma ReapplyingInert(
    policy: Policy, s: Store, token: Token, reference: Reference, action: CallbackAction, located: Located, env: Env)
    requires s.Indexed() && Handler(action) && Delivered(s, token, reference, action)
    requires located.record.identity.tenantId == s.callbacks[token].home.tenantId
    ensures ActCallbackApply(policy, s, reference, action, located, env).store == s
  {
    HandlingKey(policy, located.record, located.attempt, reference, action, env);
  }

  /** Reprocessing a callback that was handled before changes nothing, at any of its steps. */
  lemma RedeliveryInert(
    policy: Policy, s: Store, token: Token, reference: Reference, action: CallbackAction, located: Located, env: Env)
    requires s.Indexed() && Handler(action) && Delivered(s, token, reference, action)
    ensures ActCallbackResolve(s, token, reference, action).store == s
    ensures !ActCallbackResolve(s, token, reference, action).next.CallbackBind?
    ensures ActCallbackBind(s, token, reference, action, located, env).store == s
    ensures located.record.identity.tenantId == s.callbacks[token].home.tenantId ==>
              ActCallbackApply(policy, s, reference, action, located, env).store == s
  {
    RebindingInert(s, token, reference, action, located, env);
    if located.record.identity.tenantId == s.callbacks[token].home.tenantId {
      ReapplyingInert(policy, s, token, reference, action, located, env);
    }
  }

  lemma ChangesLogged(policy: Policy, s: Store, p: Program, env: Env, s': Store)
    requires Changes(policy, s, p, env, s')
    ensures s.dedupe <= s'.dedupe
  {
  }

  /** Once delivered, always delivered. */
  lemma DeliveredStays(s: Store, s': Store, token: Token, reference: Reference, action: CallbackAction)
    requires s.Indexed() && s'.Indexed() && Handler(action) && Delivered(s, token, reference, action)
    requires StoreEvolves(s, s') && s.dedupe <= s'.dedupe
    ensures Delivered(s', token, reference, action)
  {
    var a := s.callbacks[token];
    assert s.Points(a);
    assert Evolves(s.files[a.home], s'.files[a.home]);
    assert SlotEvolves(s.files[a.home].slots[a.index], s'.files[a.home].slots[a.index]);
  }
}
