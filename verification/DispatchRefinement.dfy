/**
  Optimistic concurrency is sound: whatever was read however long ago, a
  coordinator action either leaves the store as it is or performs one move of
  the case automaton on the current file of one case.
*/
module DispatchRefinement {
  import opened Wrappers
  import opened DispatchModels
  import opened DispatchStore
  import opened DispatchCoordinator
  import opened CaseAutomaton
  import opened CaseHistory

  // ---------- the store ----------

  /** Every attempt sits in its own case's file, at the position its index says. */
  ghost predicate Consistent(s: Store) {
    && s.Indexed()
    && (forall k :: k in s.files ==> s.files[k].record.Key() == k)
    && (forall ak :: ak in s.placed ==> s.At(s.placed[ak]).attempt.Key() == ak)
    && (forall t :: t in s.callbacks ==> s.At(s.callbacks[t]).attempt.identity.callbackToken == t)
    && (forall k, i :: k in s.files && 0 <= i < |s.files[k].slots| ==> Filed(s, k, i))
  }

  predicate Filed(s: Store, k: CaseKey, i: nat)
    requires k in s.files && i < |s.files[k].slots|
  {
    var attempt := s.files[k].slots[i].attempt;
    && attempt.Home() == k
    && attempt.Key() in s.placed
    && s.placed[attempt.Key()] == Address(k, i)
  }

  ghost predicate Ladders(policy: Policy, s: Store) {
    forall k :: k in s.files ==> Ladder(policy, s.files[k])
  }

  ghost predicate Sound(policy: Policy, s: Store) {
    Consistent(s) && Ladders(policy, s)
  }

  /** Every file of the store evolves, and tokens keep their address. */
  ghost predicate StoreEvolves(s: Store, s': Store) {
    && (forall k :: k in s.files ==> k in s'.files && Evolves(s.files[k], s'.files[k]))
    && (forall t :: t in s.callbacks ==> t in s'.callbacks && s'.callbacks[t] == s.callbacks[t])
  }

  // ---------- what a program's snapshots say about the current store ----------

  predicate CaseSeen(s: Store, record: DispatchCase) {
    && record.Key() in s.files
    && (var current := s.files[record.Key()].record;
        && current.identity == record.identity
        && record.version <= current.version
        && (record.version == current.version ==> record == current))
  }

  /**
    A case and one of its attempts, read at one moment or at two: while the
    version of the case is current, so is the attempt.
  */
  predicate Seen(s: Store, record: DispatchCase, attempt: CallAttempt) {
    && CaseSeen(s, record)
    && Known(s, record.Key(), attempt)
    && (record.version == s.files[record.Key()].record.version ==>
          s.files[record.Key()].slots[attempt.identity.sequence - 1].attempt == attempt)
    && (attempt.reference.Some? ==>
          s.files[record.Key()].slots[attempt.identity.sequence - 1].attempt.reference == attempt.reference)
  }

  predicate Known(s: Store, k: CaseKey, attempt: CallAttempt) {
    && k in s.files
    && attempt.Home() == k
    && 1 <= attempt.identity.sequence <= |s.files[k].slots|
    && s.files[k].slots[attempt.identity.sequence - 1].attempt.identity == attempt.identity
  }

  /** The answer of an attempt listing, as long as the case has not changed. */
  predicate ActiveSeen(s: Store, record: DispatchCase, active: Option<CallAttempt>) {
    && CaseSeen(s, record)
    && (active.Some? ==> Seen(s, record, active.value))
    && (record.version == s.files[record.Key()].record.version ==>
          LastOpen(AttemptsOf(s.files[record.Key()].slots)) == OpenIndex(s.files[record.Key()], active))
  }

  function OpenIndex(f: CaseFile, active: Option<CallAttempt>): nat {
    if active.Some? && active.value.identity.sequence >= 1 then active.value.identity.sequence - 1 else |f.slots|
  }

  /** What a program has learnt from the repository. */
  datatype Knowledge =
    | Nothing
    | OfCase(record: DispatchCase)
    | OfSlot(k: CaseKey, slotAttempt: CallAttempt)
    | OfPair(record: DispatchCase, attempt: CallAttempt)
    | OfActive(record: DispatchCase, active: Option<CallAttempt>)

  function KnowledgeOf(p: Program): Knowledge {
    match p
    case DispatchClaim(k, attempt, _) => OfSlot(k, attempt)
    case DispatchExpire(record, attempt, _) => OfPair(record, attempt)
    case DispatchPlace(record, attempt, _, _) => OfPair(record, attempt)
    case DispatchRefused(record, attempt, _, _, _) => OfPair(record, attempt)
    case DispatchUncertain(record, attempt, _, _) => OfPair(record, attempt)
    case CallbackBind(_, _, _, located) => OfPair(located.record, located.attempt)
    case CallbackApply(_, _, located) => OfPair(located.record, located.attempt)
    case CancelList(record, _) => OfCase(record)
    case CancelCall(record, attempt, _) => OfActive(record, Some(attempt))
    case CancelApply(record, active, _) => OfActive(record, active)
    case ExhaustList(record, _) => OfCase(record)
    case ExhaustApply(record, active, _) => OfActive(record, active)
    case _ => Knowledge.Nothing
  }

  predicate Holds(s: Store, knowledge: Knowledge) {
    match knowledge
    case Nothing => true
    case OfCase(record) => CaseSeen(s, record)
    case OfSlot(k, attempt) => Known(s, k, attempt)
    case OfPair(record, attempt) => Seen(s, record, attempt)
    case OfActive(record, active) => ActiveSeen(s, record, active)
  }

  /** What a program checked on the records it holds. */
  predicate Checked(p: Program) {
    match p
    case DispatchExpire(record, attempt, _) => !record.status.Terminal() && attempt.status.AwaitingProvider()
    case DispatchPlace(record, attempt, _, _) => !record.status.Terminal() && attempt.status.AwaitingProvider()
    case DispatchRefused(record, attempt, _, _, _) => !record.status.Terminal() && attempt.status.AwaitingProvider()
    case DispatchUncertain(record, attempt, _, _) => !record.status.Terminal() && attempt.status.AwaitingProvider()
    case CallbackApply(reference, _, located) =>
      located.attempt.reference.Some? && located.attempt.reference.value.Admits(reference)
    case CancelList(record, _) => !record.status.Terminal()
    case CancelCall(record, attempt, _) => !record.status.Terminal() && attempt.reference.Some?
    case CancelApply(record, _, _) => !record.status.Terminal()
    case ExhaustList(record, _) => !record.status.Terminal()
    case ExhaustApply(record, _, _) => !record.status.Terminal()
    case _ => true
  }

  predicate TokenKnown(s: Store, p: Program) {
    p.CallbackBind? ==>
      && p.token in s.callbacks
      && s.callbacks[p.token].home == p.located.record.Key()
      && s.callbacks[p.token].index == p.located.attempt.identity.sequence - 1
  }

  predicate ProgramOk(s: Store, p: Program) {
    Holds(s, KnowledgeOf(p)) && Checked(p) && TokenKnown(s, p)
  }

  /** What a program knows survives every change the others make. */
  lemma KnowledgeStable(s: Store, s': Store, knowledge: Knowledge)
    requires StoreEvolves(s, s') && Holds(s, knowledge)
    ensures Holds(s', knowledge)
  {
    match knowledge {
      case Nothing =>
      case OfCase(record) => CaseSeenStable(s, s', record);
      case OfSlot(k, attempt) => KnownStable(s, s', k, attempt);
      case OfPair(record, attempt) => SeenStable(s, s', record, attempt);
      case OfActive(record, active) => ActiveStable(s, s', record, active);
    }
  }

  lemma ProgramStable(s: Store, s': Store, p: Program)
    requires StoreEvolves(s, s') && ProgramOk(s, p)
    ensures ProgramOk(s', p)
  {
    KnowledgeStable(s, s', KnowledgeOf(p));
  }

  lemma CaseSeenStable(s: Store, s': Store, record: DispatchCase)
    requires StoreEvolves(s, s') && CaseSeen(s, record)
    ensures CaseSeen(s', record)
  {
    assert Evolves(s.files[record.Key()], s'.files[record.Key()]);
  }

  lemma KnownStable(s: Store, s': Store, k: CaseKey, attempt: CallAttempt)
    requires StoreEvolves(s, s') && Known(s, k, attempt)
    ensures Known(s', k, attempt)
  {
    var i := attempt.identity.sequence - 1;
    assert Evolves(s.files[k], s'.files[k]);
    assert SlotEvolves(s.files[k].slots[i], s'.files[k].slots[i]);
  }

  lemma SeenStable(s: Store, s': Store, record: DispatchCase, attempt: CallAttempt)
    requires StoreEvolves(s, s') && Seen(s, record, attempt)
    ensures Seen(s', record, attempt)
  {
    var k, i := record.Key(), attempt.identity.sequence - 1;
    CaseSeenStable(s, s', record);
    KnownStable(s, s', k, attempt);
    assert Evolves(s.files[k], s'.files[k]);
    assert SlotEvolves(s.files[k].slots[i], s'.files[k].slots[i]);
  }

  lemma ActiveStable(s: Store, s': Store, record: DispatchCase, active: Option<CallAttempt>)
    requires StoreEvolves(s, s') && ActiveSeen(s, record, active)
    ensures ActiveSeen(s', record, active)
  {
    CaseSeenStable(s, s', record);
    if active.Some? {
      SeenStable(s, s', record, active.value);
    }
    assert Evolves(s.files[record.Key()], s'.files[record.Key()]);
  }

  lemma KnownKeeps(s: Store, k: CaseKey, attempt: CallAttempt)
    requires Consistent(s) && Known(s, k, attempt)
    ensures attempt.Key() in s.placed
    ensures s.placed[attempt.Key()] == Address(k, attempt.identity.sequence - 1)
    ensures s.Keeps(attempt)
  {
    assert Filed(s, k, attempt.identity.sequence - 1);
  }

  /** A stored attempt, read together with its case. */
  lemma SlotIsSeen(policy: Policy, s: Store, k: CaseKey, i: nat)
    requires Consistent(s) && k in s.files && Ladder(policy, s.files[k]) && i < |s.files[k].slots|
    ensures s.files[k].record.Key() == k
    ensures s.files[k].slots[i].attempt.identity.sequence == i + 1
    ensures Seen(s, s.files[k].record, s.files[k].slots[i].attempt)
  {
    assert Rung(s.files[k].record, i, s.files[k].slots[i].attempt);
  }

  lemma OkIsRunnable(s: Store, p: Program)
    requires Consistent(s) && ProgramOk(s, p)
    ensures Runnable(s, p)
  {
    if p.DispatchExpire? || p.DispatchRefused? || p.DispatchUncertain? {
      assert Seen(s, p.record, p.attempt);
      KnownKeeps(s, p.record.Key(), p.attempt);
    }
  }

  // ---------- one action is one move ----------

  /** The store performs move `m` on the file of case `k`. */
  predicate Enacts(policy: Policy, s: Store, s': Store, k: CaseKey, m: CaseMove) {
    && k in s.files
    && Enabled(policy, m, s.files[k])
    && (var f' := Perform(policy, m, s.files[k]);
        && s'.files == s.files[k := f']
        && s'.idempotency == s.idempotency
        && (if m.TakeClaim? then s'.dedupe == s.dedupe
            else
              && f'.log == s.files[k].log + [MoveEvent(policy, m, s.files[k])]
              && MoveEvent(policy, m, s.files[k]).tenantId == k.tenantId
              && MoveEvent(policy, m, s.files[k]).caseId == k.caseId
              && s'.dedupe == s.dedupe + {DedupeEntry(k.tenantId, MoveEvent(policy, m, s.files[k]).key)}
              && (m.Reserve? || !s.Logged(k.tenantId, MoveEvent(policy, m, s.files[k]).key)))
        && (if m.Reserve? then
              var ak, address := AttemptKey(k.tenantId, m.attemptId), Address(k, |s.files[k].slots|);
              && ak !in s.placed && m.token !in s.callbacks
              && s'.placed == s.placed[ak := address] && s'.callbacks == s.callbacks[m.token := address]
            else s'.placed == s.placed && s'.callbacks == s.callbacks))
  }

  /** The event a move appends. */
  function MoveEvent(policy: Policy, m: CaseMove, f: CaseFile): DispatchEvent
    requires Enabled(policy, m, f) && !m.TakeClaim?
  {
    var log := Perform(policy, m, f).log;
    log[|log| - 1]
  }

  // ---------- moves keep the store sound ----------

  lemma MoveKeepsCount(policy: Policy, m: CaseMove, f: CaseFile)
    requires Enabled(policy, m, f) && !m.Reserve?
    ensures |Perform(policy, m, f).slots| == |f.slots|
  {
  }

  /** Growing one file, and changing no attempt's identity, keeps every address. */
  lemma AddressKept(s: Store, s': Store, k: CaseKey, f': CaseFile, a: Address)
    requires k in s.files && s'.files == s.files[k := f'] && s.Points(a)
    requires |s.files[k].slots| <= |f'.slots|
    requires forall i :: 0 <= i < |s.files[k].slots| ==>
               f'.slots[i].attempt.identity == s.files[k].slots[i].attempt.identity
    ensures s'.Points(a) && s'.At(a).attempt.identity == s.At(a).attempt.identity
  {
  }

  lemma ConsistentKept(s: Store, s': Store, k: CaseKey, f': CaseFile)
    requires Consistent(s) && k in s.files
    requires s'.files == s.files[k := f'] && f'.record.Key() == k && |f'.slots| == |s.files[k].slots|
    requires forall i :: 0 <= i < |s.files[k].slots| ==>
               f'.slots[i].attempt.identity == s.files[k].slots[i].attempt.identity
    requires s'.placed == s.placed && s'.callbacks == s.callbacks && s'.idempotency == s.idempotency
    ensures Consistent(s')
  {
    forall ak | ak in s'.placed ensures s'.Points(s'.placed[ak]) && s'.At(s'.placed[ak]).attempt.Key() == ak {
      AddressKept(s, s', k, f', s.placed[ak]);
    }
    forall t | t in s'.callbacks
      ensures s'.Points(s'.callbacks[t]) && s'.At(s'.callbacks[t]).attempt.identity.callbackToken == t
    {
      AddressKept(s, s', k, f', s.callbacks[t]);
    }
    forall k', i | k' in s'.files && 0 <= i < |s'.files[k'].slots| ensures Filed(s', k', i) {
      assert Filed(s, k', i);
    }
  }

  lemma IndexExtended(
    s: Store, s': Store, k: CaseKey, id: Id, token: Token, now: Time, event: DispatchEvent)
    requires Consistent(s) && k in s.files
    requires s'.files == s.files[k := Extend(s.files[k], id, token, now, event)]
    requires s'.placed == s.placed[AttemptKey(k.tenantId, id) := Address(k, |s.files[k].slots|)]
    requires s'.callbacks == s.callbacks[token := Address(k, |s.files[k].slots|)]
    ensures forall ak :: ak in s'.placed ==>
              s'.Points(s'.placed[ak]) && s'.At(s'.placed[ak]).attempt.Key() == ak
    ensures forall t :: t in s'.callbacks ==>
              s'.Points(s'.callbacks[t]) && s'.At(s'.callbacks[t]).attempt.identity.callbackToken == t
  {
    assert s.files[k].record.Key() == k;
    forall ak | ak in s'.placed ensures s'.Points(s'.placed[ak]) && s'.At(s'.placed[ak]).attempt.Key() == ak {
      if ak != AttemptKey(k.tenantId, id) {
        AddressKept(s, s', k, s'.files[k], s.placed[ak]);
      }
    }
    forall t | t in s'.callbacks
      ensures s'.Points(s'.callbacks[t]) && s'.At(s'.callbacks[t]).attempt.identity.callbackToken == t
    {
      if t != token {
        AddressKept(s, s', k, s'.files[k], s.callbacks[t]);
      }
    }
  }

  lemma ConsistentExtended(
    s: Store, s': Store, k: CaseKey, id: Id, token: Token, now: Time, event: DispatchEvent)
    requires Consistent(s) && k in s.files
    requires s'.files == s.files[k := Extend(s.files[k], id, token, now, event)]
    requires AttemptKey(k.tenantId, id) !in s.placed && token !in s.callbacks
    requires s'.placed == s.placed[AttemptKey(k.tenantId, id) := Address(k, |s.files[k].slots|)]
    requires s'.callbacks == s.callbacks[token := Address(k, |s.files[k].slots|)]
    requires s'.idempotency == s.idempotency
    ensures Consistent(s')
  {
    IndexExtended(s, s', k, id, token, now, event);
    assert s.files[k].record.Key() == k;
    forall k', i | k' in s'.files && 0 <= i < |s'.files[k'].slots| ensures Filed(s', k', i) {
      FiledExtended(s, s', k, id, k', i);
    }
  }

  lemma FiledExtended(s: Store, s': Store, k: CaseKey, id: Id, k': CaseKey, i: nat)
    requires Consistent(s) && k in s.files && k in s'.files && s'.files == s.files[k := s'.files[k]]
    requires |s'.files[k].slots| == |s.files[k].slots| + 1
    requires s'.files[k].slots[..|s.files[k].slots|] == s.files[k].slots
    requires s'.files[k].slots[|s.files[k].slots|].attempt.Key() == AttemptKey(k.tenantId, id)
    requires s'.files[k].slots[|s.files[k].slots|].attempt.Home() == k
    requires AttemptKey(k.tenantId, id) !in s.placed
    requires s'.placed == s.placed[AttemptKey(k.tenantId, id) := Address(k, |s.files[k].slots|)]
    requires k' in s'.files && i < |s'.files[k'].slots|
    ensures Filed(s', k', i)
  {
    if k' != k || i < |s.files[k].slots| {
      assert Filed(s, k', i);
      assert s'.files[k'].slots[i] == s.files[k'].slots[i];
    }
  }

  lemma EnactsConsistent(policy: Policy, s: Store, s': Store, k: CaseKey, m: CaseMove)
    requires Consistent(s) && Enacts(policy, s, s', k, m)
    ensures Consistent(s')
  {
    if m.Reserve? {
      ConsistentExtended(s, s', k, m.attemptId, m.token, m.now, m.event);
    } else {
      MoveEvolves(policy, m, s.files[k]);
      MoveKeepsCount(policy, m, s.files[k]);
      assert forall i :: 0 <= i < |s.files[k].slots| ==>
               SlotEvolves(s.files[k].slots[i], Perform(policy, m, s.files[k]).slots[i]);
      ConsistentKept(s, s', k, Perform(policy, m, s.files[k]));
    }
  }

  lemma EnactsEvolves(policy: Policy, s: Store, s': Store, k: CaseKey, m: CaseMove)
    requires Enacts(policy, s, s', k, m)
    ensures StoreEvolves(s, s')
  {
    MoveEvolves(policy, m, s.files[k]);
    forall k' | k' in s.files ensures k' in s'.files && Evolves(s.files[k'], s'.files[k']) {
    }
  }

  lemma EnactsSound(policy: Policy, s: Store, s': Store, k: CaseKey, m: CaseMove)
    requires Sound(policy, s) && Enacts(policy, s, s', k, m)
    ensures Sound(policy, s')
  {
    EnactsConsistent(policy, s, s', k, m);
    MoveLadder(policy, m, s.files[k]);
  }
}
