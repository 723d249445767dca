/**
  Runs are bounded: whatever callbacks arrive and however often, the version of
  a case never exceeds 29, plus two per provider failure recorded for it, plus
  one per call that logged a progress status under the very text "sha256:..."
  it was bound with.  Only the method that bound the call can do the last.
*/
module CaseBudget {
  import opened Wrappers
  import opened DispatchModels
  import opened DispatchStore
  import opened DispatchCoordinator
  import opened CaseAutomaton

  function Left(dedupe: set<DedupeEntry>, tenantId: Id, reference: Reference, word: ProviderWord): nat {
    if DedupeEntry(tenantId, StatusKey(reference, word)) in dedupe then 0 else 1
  }

  /** How many progress words have not been logged for a reference. */
  function WordsLeft(dedupe: set<DedupeEntry>, tenantId: Id, reference: Reference): nat {
    Left(dedupe, tenantId, reference, ProviderWord.Queued)
    + Left(dedupe, tenantId, reference, ProviderWord.Initiated)
    + Left(dedupe, tenantId, reference, ProviderWord.Ringing)
    + Left(dedupe, tenantId, reference, ProviderWord.Answered)
    + Left(dedupe, tenantId, reference, ProviderWord.InProgress)
  }

  /** Progress callbacks with a matching reference that can still change a call. */
  function ProgressLeft(dedupe: set<DedupeEntry>, tenantId: Id, stored: Reference): nat {
    match stored.Expected()
    case None => 0
    case Some(reference) => WordsLeft(dedupe, tenantId, reference)
  }

  /** How many more versions one attempt can cost its case, failures aside. */
  function SlotBudget(dedupe: set<DedupeEntry>, tenantId: Id, slot: Slot): nat {
    if slot.attempt.status.Terminal() then 0
    else if slot.attempt.reference.Some? then ProgressLeft(dedupe, tenantId, slot.attempt.reference.value) + 1
    else if slot.submission.state.Pending? then 8
    else 7
  }

  /** A rung that has not been reserved costs its reservation and eight more. */
  function RungBudget(dedupe: set<DedupeEntry>, f: CaseFile, i: nat): nat {
    if i < |f.slots| then SlotBudget(dedupe, f.record.identity.tenantId, f.slots[i]) else 9
  }

  /** How many more versions a case can reach, failures and literal references aside. */
  function Budget(dedupe: set<DedupeEntry>, f: CaseFile): nat {
    if f.record.status.Absorbing() then 0
    else 1 + RungBudget(dedupe, f, 0) + RungBudget(dedupe, f, 1) + RungBudget(dedupe, f, 2)
  }

  function Retries(log: seq<DispatchEvent>): nat {
    if log == [] then 0
    else Retries(log[..|log| - 1]) + (if log[|log| - 1].key.ProviderRetryKey? then 1 else 0)
  }

  /** A progress status of the attempt, logged under the marked reference it was bound with. */
  predicate UnderLiteral(event: DispatchEvent, attempt: CallAttempt) {
    && attempt.reference.Some? && attempt.reference.value.Marked()
    && event.attemptId == Some(attempt.identity.attemptId)
    && event.key.StatusKey? && !event.key.word.Ends()
    && event.key.reference == attempt.reference.value
  }

  predicate LiteralLogged(log: seq<DispatchEvent>, attempt: CallAttempt) {
    exists j :: 0 <= j < |log| && UnderLiteral(log[j], attempt)
  }

  function Literal(f: CaseFile, i: nat): nat {
    if i < |f.slots| && LiteralLogged(f.log, f.slots[i].attempt) then 1 else 0
  }

  /** The calls of a case that logged a progress status under their literal reference. */
  function Literals(f: CaseFile): nat {
    Literal(f, 0) + Literal(f, 1) + Literal(f, 2)
  }

  predicate WithinBudget(dedupe: set<DedupeEntry>, f: CaseFile) {
    f.record.version + Budget(dedupe, f) <= 29 + 2 * Retries(f.log) + Literals(f)
  }

  /** Every version was paid for: by the budget, by a recorded failure, or by a literal reference. */
  predicate Pays(dedupe: set<DedupeEntry>, f: CaseFile, dedupe': set<DedupeEntry>, f': CaseFile) {
    f'.record.version + Budget(dedupe', f') + 2 * Retries(f.log) + Literals(f)
    <= f.record.version + Budget(dedupe, f) + 2 * Retries(f'.log) + Literals(f')
  }

  lemma WordsLeftShrinks(
    dedupe: set<DedupeEntry>, dedupe': set<DedupeEntry>, tenantId: Id, reference: Reference)
    requires dedupe <= dedupe'
    ensures WordsLeft(dedupe', tenantId, reference) <= WordsLeft(dedupe, tenantId, reference) <= 5
  {
  }

  lemma ProgressLeftShrinks(
    dedupe: set<DedupeEntry>, dedupe': set<DedupeEntry>, tenantId: Id, stored: Reference)
    requires dedupe <= dedupe'
    ensures ProgressLeft(dedupe', tenantId, stored) <= ProgressLeft(dedupe, tenantId, stored) <= 5
  {
    if stored.Expected().Some? {
      WordsLeftShrinks(dedupe, dedupe', tenantId, stored.Expected().value);
    }
  }

  lemma RungShrinks(dedupe: set<DedupeEntry>, dedupe': set<DedupeEntry>, f: CaseFile, i: nat)
    requires dedupe <= dedupe'
    ensures RungBudget(dedupe', f, i) <= RungBudget(dedupe, f, i)
  {
    if i < |f.slots| && f.slots[i].attempt.reference.Some? {
      ProgressLeftShrinks(dedupe, dedupe', f.record.identity.tenantId, f.slots[i].attempt.reference.value);
    }
  }

  lemma BudgetShrinks(dedupe: set<DedupeEntry>, dedupe': set<DedupeEntry>, f: CaseFile)
    requires dedupe <= dedupe'
    ensures Budget(dedupe', f) <= Budget(dedupe, f)
  {
    RungShrinks(dedupe, dedupe', f, 0);
    RungShrinks(dedupe, dedupe', f, 1);
    RungShrinks(dedupe, dedupe', f, 2);
  }

  /** Logging keys shrinks the budget by at least what one slot loses. */
  lemma RungsShrink(dedupe: set<DedupeEntry>, dedupe': set<DedupeEntry>, f: CaseFile, n: nat)
    requires dedupe <= dedupe' && n < 3 && !f.record.status.Absorbing()
    ensures Budget(dedupe', f) - Budget(dedupe, f) <= RungBudget(dedupe', f, n) - RungBudget(dedupe, f, n)
  {
    RungShrinks(dedupe, dedupe', f, 0);
    RungShrinks(dedupe, dedupe', f, 1);
    RungShrinks(dedupe, dedupe', f, 2);
  }

  /** Logging a progress word uses one up. */
  lemma ProgressUsed(
    dedupe: set<DedupeEntry>, tenantId: Id, stored: Reference, reference: Reference, word: ProviderWord)
    requires stored.Matches(reference) && !word.Ends()
    requires DedupeEntry(tenantId, StatusKey(reference, word)) !in dedupe
    ensures var dedupe' := dedupe + {DedupeEntry(tenantId, StatusKey(reference, word))};
            ProgressLeft(dedupe', tenantId, stored) < ProgressLeft(dedupe, tenantId, stored)
  {
    var dedupe' := dedupe + {DedupeEntry(tenantId, StatusKey(reference, word))};
    WordsLeftShrinks(dedupe, dedupe', tenantId, reference);
    assert Left(dedupe', tenantId, reference, word) < Left(dedupe, tenantId, reference, word);
  }

  function KeyedBy(policy: Policy, m: CaseMove, f: CaseFile): set<DedupeEntry>
    requires Enabled(policy, m, f)
  {
    if m.TakeClaim? then {}
    else
      var log := Perform(policy, m, f).log;
      {DedupeEntry(f.record.identity.tenantId, log[|log| - 1].key)}
  }

  lemma RetriesAppend(log: seq<DispatchEvent>, event: DispatchEvent)
    ensures Retries(log + [event]) == Retries(log) + (if event.key.ProviderRetryKey? then 1 else 0)
  {
    assert (log + [event])[..|log|] == log;
  }

  /** What a literal reference has paid for stays paid. */
  lemma LiteralStays(f: CaseFile, f': CaseFile, i: nat)
    requires |f.slots| <= |f'.slots| && f.log <= f'.log
    requires i < |f.slots| && f.slots[i].attempt.reference.Some? ==>
               && f'.slots[i].attempt.identity == f.slots[i].attempt.identity
               && f'.slots[i].attempt.reference == f.slots[i].attempt.reference
    ensures Literal(f, i) <= Literal(f', i)
  {
    if i < |f.slots| && LiteralLogged(f.log, f.slots[i].attempt) {
      var j :| 0 <= j < |f.log| && UnderLiteral(f.log[j], f.slots[i].attempt);
      assert f'.log[j] == f.log[j] && UnderLiteral(f'.log[j], f'.slots[i].attempt);
    }
  }

  /** The slots of a file keep their identities and references while its log grows. */
  predicate Continues(f: CaseFile, f': CaseFile) {
    && |f.slots| <= |f'.slots| && f.log <= f'.log
    && forall i :: 0 <= i < |f.slots| ==>
         && f'.slots[i].attempt.identity == f.slots[i].attempt.identity
         && (f.slots[i].attempt.reference.Some? ==> f'.slots[i].attempt.reference == f.slots[i].attempt.reference)
  }

  lemma LiteralsStay(f: CaseFile, f': CaseFile)
    requires Continues(f, f')
    ensures forall i: nat :: Literal(f, i) <= Literal(f', i)
    ensures Literals(f) <= Literals(f')
  {
    forall i: nat ensures Literal(f, i) <= Literal(f', i) {
      LiteralStays(f, f', i);
    }
  }

  /** A move that closes the case for good spends the case's last version. */
  lemma ClosingBudget(
    dedupe: set<DedupeEntry>, dedupe': set<DedupeEntry>, f: CaseFile, f': CaseFile, event: DispatchEvent)
    requires !f.record.status.Absorbing() && f'.record.status.Absorbing()
    requires f'.record.version == f.record.version + 1
    requires f'.log == f.log + [event] && Continues(f, f')
    ensures Pays(dedupe, f, dedupe', f')
  {
    RetriesAppend(f.log, event);
    LiteralsStay(f, f');
  }

  /** Two files that differ in one slot differ in nothing else the budget counts. */
  lemma OtherRungs(dedupe: set<DedupeEntry>, f: CaseFile, f': CaseFile, n: nat, i: nat)
    requires |f.slots| == |f'.slots| && i < 3 && i != n
    requires f'.record.identity == f.record.identity
    requires i < |f.slots| ==> f'.slots[i] == f.slots[i]
    ensures RungBudget(dedupe, f', i) == RungBudget(dedupe, f, i)
  {
  }

  lemma RungsDiffer(dedupe: set<DedupeEntry>, f: CaseFile, f': CaseFile, n: nat)
    requires n < |f.slots| == |f'.slots| <= 3
    requires !f.record.status.Absorbing() && !f'.record.status.Absorbing()
    requires f'.record.identity == f.record.identity
    requires forall i :: 0 <= i < |f.slots| && i != n ==> f'.slots[i] == f.slots[i]
    ensures Budget(dedupe, f') - Budget(dedupe, f) == RungBudget(dedupe, f', n) - RungBudget(dedupe, f, n)
  {
    if n != 0 { OtherRungs(dedupe, f, f', n, 0); }
    if n != 1 { OtherRungs(dedupe, f, f', n, 1); }
    if n != 2 { OtherRungs(dedupe, f, f', n, 2); }
  }

  /** A move on slot n pays for its version out of the slot, a failure or a literal reference. */
  lemma Spend(
    dedupe: set<DedupeEntry>, dedupe': set<DedupeEntry>, f: CaseFile, f': CaseFile, n: nat, event: DispatchEvent,
    drop: int)
    requires dedupe <= dedupe' && n < |f.slots| == |f'.slots| <= 3
    requires !f.record.status.Absorbing() && !f'.record.status.Absorbing()
    requires f'.record.identity == f.record.identity && f'.record.version == f.record.version + 1
    requires f'.log == f.log + [event] && Continues(f, f')
    requires forall i :: 0 <= i < |f.slots| && i != n ==> f'.slots[i] == f.slots[i]
    requires RungBudget(dedupe', f', n) + drop <= RungBudget(dedupe, f, n)
    requires 1 <= drop + (if event.key.ProviderRetryKey? then 2 else 0) + (Literal(f', n) - Literal(f, n))
    ensures Pays(dedupe, f, dedupe', f')
  {
    RetriesAppend(f.log, event);
    RungsShrink(dedupe, dedupe', f, n);
    RungsDiffer(dedupe', f, f', n);
    LiteralsStay(f, f');
    LiteralsDiffer(f, f', n);
  }

  lemma LiteralsDiffer(f: CaseFile, f': CaseFile, n: nat)
    requires n < 3 && forall i: nat :: Literal(f, i) <= Literal(f', i)
    ensures Literals(f') - Literals(f) >= Literal(f', n) - Literal(f, n)
  {
    assert Literal(f, 0) <= Literal(f', 0) && Literal(f, 1) <= Literal(f', 1) && Literal(f, 2) <= Literal(f', 2);
  }

  lemma ReserveBudget(policy: Policy, m: CaseMove, f: CaseFile, dedupe: set<DedupeEntry>)
    requires m.Reserve? && Enabled(policy, m, f)
    ensures Pays(dedupe, f, dedupe + KeyedBy(policy, m, f), Perform(policy, m, f))
  {
    var f', dedupe' := Perform(policy, m, f), dedupe + KeyedBy(policy, m, f);
    RetriesAppend(f.log, m.event);
    BudgetShrinks(dedupe, dedupe', f);
    assert forall i :: 0 <= i < 3 && i != |f.slots| ==> RungBudget(dedupe', f', i) == RungBudget(dedupe', f, i);
    assert RungBudget(dedupe', f', |f.slots|) == 8;
    LiteralsStay(f, f');
  }

  lemma ClaimBudget(policy: Policy, m: CaseMove, f: CaseFile, dedupe: set<DedupeEntry>)
    requires m.TakeClaim? && Enabled(policy, m, f) && Ladder(policy, f)
    ensures Pays(dedupe, f, dedupe, Perform(policy, m, f))
  {
    var f' := Perform(policy, m, f);
    assert Coherent(f.slots[m.n]);
    assert forall i :: 0 <= i < 3 && i != m.n ==> RungBudget(dedupe, f', i) == RungBudget(dedupe, f, i);
    LiteralsStay(f, f');
  }

  lemma BindBudget(policy: Policy, m: CaseMove, f: CaseFile, dedupe: set<DedupeEntry>)
    requires m.Bind? && Enabled(policy, m, f) && Ladder(policy, f)
    ensures Pays(dedupe, f, dedupe + KeyedBy(policy, m, f), Perform(policy, m, f))
  {
    var f', dedupe' := Perform(policy, m, f), dedupe + KeyedBy(policy, m, f);
    ClaimedIsLast(policy, f, m.n);
    ProgressLeftShrinks(dedupe', dedupe', f.record.identity.tenantId, m.reference);
    Spend(dedupe, dedupe', f, f', m.n, m.event, 1);
  }

  lemma RefuseBudget(policy: Policy, m: CaseMove, f: CaseFile, dedupe: set<DedupeEntry>)
    requires m.Refuse? && Enabled(policy, m, f) && Ladder(policy, f)
    ensures Pays(dedupe, f, dedupe + KeyedBy(policy, m, f), Perform(policy, m, f))
  {
    var f', dedupe' := Perform(policy, m, f), dedupe + KeyedBy(policy, m, f);
    var event := MarkProviderRetry(f.record, f.slots[m.n].attempt, m.at, m.code, m.eventId).event;
    assert Coherent(f.slots[m.n]);
    Spend(dedupe, dedupe', f, f', m.n, event, -1);
  }

  lemma GiveUpBudget(policy: Policy, m: CaseMove, f: CaseFile, dedupe: set<DedupeEntry>)
    requires m.GiveUp? && Enabled(policy, m, f)
    ensures Pays(dedupe, f, dedupe + KeyedBy(policy, m, f), Perform(policy, m, f))
  {
    var event := MarkSubmissionUncertain(f.record, f.slots[m.n].attempt, m.at, m.code, m.eventId).event;
    ClosingBudget(dedupe, dedupe + KeyedBy(policy, m, f), f, Perform(policy, m, f), event);
  }

  lemma CloseBudget(policy: Policy, m: CaseMove, f: CaseFile, dedupe: set<DedupeEntry>)
    requires (m.Cancel? || m.Exhaust?) && Enabled(policy, m, f)
    ensures Pays(dedupe, f, dedupe + KeyedBy(policy, m, f), Perform(policy, m, f))
  {
    var f' := Perform(policy, m, f);
    assert f'.log == f.log + [f'.log[|f.log|]];
    ClosingBudget(dedupe, dedupe + KeyedBy(policy, m, f), f, f', f'.log[|f.log|]);
  }

  lemma RemarkBudget(policy: Policy, m: CaseMove, f: CaseFile, dedupe: set<DedupeEntry>)
    requires m.Remark? && Enabled(policy, m, f)
    ensures Pays(dedupe, f, dedupe + KeyedBy(policy, m, f), Perform(policy, m, f))
  {
    var f', dedupe' := Perform(policy, m, f), dedupe + KeyedBy(policy, m, f);
    RetriesAppend(f.log, m.event);
    BudgetShrinks(dedupe, dedupe', f);
    assert Budget(dedupe', f') == Budget(dedupe', f);
    LiteralsStay(f, f');
  }

  /** A progress status under a literal reference is the first of its call. */
  predicate FirstLiteral(m: CaseMove, f: CaseFile) {
    m.Callback? && m.n < |f.slots| && m.action.Status?
    && f.slots[m.n].attempt.reference == Some(m.reference) && m.reference.Marked()
    ==> !LiteralLogged(f.log, f.slots[m.n].attempt)
  }

  lemma MatchedBudget(policy: Policy, m: CaseMove, f: CaseFile, dedupe: set<DedupeEntry>)
    requires m.Callback? && m.action.Status? && !m.action.word.Ends()
    requires Enabled(policy, m, f) && Ladder(policy, f) && KeyedBy(policy, m, f) !! dedupe
    requires f.slots[m.n].attempt.reference.value.Matches(m.reference)
    ensures Pays(dedupe, f, dedupe + KeyedBy(policy, m, f), Perform(policy, m, f))
  {
    var f', dedupe' := Perform(policy, m, f), dedupe + KeyedBy(policy, m, f);
    var tenantId, stored := f.record.identity.tenantId, f.slots[m.n].attempt.reference.value;
    var plan := Handle(policy, f.record, f.slots[m.n].attempt, m.reference, m.action, m.env).plan;
    assert KeyedBy(policy, m, f) == {DedupeEntry(tenantId, StatusKey(m.reference, m.action.word))};
    ProgressUsed(dedupe, tenantId, stored, m.reference, m.action.word);
    LiteralStays(f, f', m.n);
    Spend(dedupe, dedupe', f, f', m.n, plan.event, 1);
  }

  lemma LiteralBudget(policy: Policy, m: CaseMove, f: CaseFile, dedupe: set<DedupeEntry>)
    requires m.Callback? && m.action.Status? && !m.action.word.Ends()
    requires Enabled(policy, m, f) && Ladder(policy, f)
    requires !f.slots[m.n].attempt.reference.value.Matches(m.reference) && FirstLiteral(m, f)
    ensures Pays(dedupe, f, dedupe + KeyedBy(policy, m, f), Perform(policy, m, f))
  {
    var f', dedupe' := Perform(policy, m, f), dedupe + KeyedBy(policy, m, f);
    var plan := Handle(policy, f.record, f.slots[m.n].attempt, m.reference, m.action, m.env).plan;
    assert UnderLiteral(f'.log[|f.log|], f'.slots[m.n].attempt);
    RungShrinks(dedupe, dedupe', f, m.n);
    Spend(dedupe, dedupe', f, f', m.n, plan.event, 0);
  }

  /** A call that ends without an acknowledgement spends what its slot had left. */
  lemma EndingBudget(
    policy: Policy, f: CaseFile, f': CaseFile, n: nat, at: Time, outcome: CallOutcome, event: DispatchEvent,
    dedupe: set<DedupeEntry>, dedupe': set<DedupeEntry>)
    requires n < |f.slots| <= 3 && !f.slots[n].attempt.status.Terminal() && !f.record.status.Absorbing()
    requires f'.record == UnacknowledgedCase(policy, f.record, f.slots[n].attempt.identity.sequence, at)
    requires f'.slots
          == f.slots[n := f.slots[n].(attempt := UnacknowledgedAttempt(policy, f.slots[n].attempt, at, outcome))]
    requires f'.log == f.log + [event] && dedupe <= dedupe'
    ensures Pays(dedupe, f, dedupe', f')
  {
    assert RungBudget(dedupe, f, n) >= 1 && RungBudget(dedupe', f', n) == 0;
    LiteralStays(f, f', n);
    Spend(dedupe, dedupe', f, f', n, event, 1);
  }

  lemma CallbackBudget(policy: Policy, m: CaseMove, f: CaseFile, dedupe: set<DedupeEntry>)
    requires m.Callback? && !(m.action.Status? && !m.action.word.Ends())
    requires Enabled(policy, m, f) && Ladder(policy, f)
    ensures Pays(dedupe, f, dedupe + KeyedBy(policy, m, f), Perform(policy, m, f))
  {
    var f', dedupe' := Perform(policy, m, f), dedupe + KeyedBy(policy, m, f);
    var event := Handle(policy, f.record, f.slots[m.n].attempt, m.reference, m.action, m.env).plan.event;
    match m.action {
      case Gather(_, _) => ClosingBudget(dedupe, dedupe', f, f', event);
      case Status(word, at) =>
        EndingBudget(policy, f, f', m.n, CallbackTime(at, m.env), EndingOutcome(word), event, dedupe, dedupe');
      case MachineDetection(_, at) =>
        EndingBudget(policy, f, f', m.n, CallbackTime(at, m.env), NoAcknowledgement, event, dedupe, dedupe');
    }
  }

  lemma MovePays(policy: Policy, m: CaseMove, f: CaseFile, dedupe: set<DedupeEntry>)
    requires Enabled(policy, m, f) && Ladder(policy, f) && FirstLiteral(m, f)
    requires m.Reserve? || KeyedBy(policy, m, f) !! dedupe
    ensures Pays(dedupe, f, dedupe + KeyedBy(policy, m, f), Perform(policy, m, f))
  {
    match m {
      case Reserve(_, _, _, _) => ReserveBudget(policy, m, f, dedupe);
      case TakeClaim(_, _, _, _) =>
        ClaimBudget(policy, m, f, dedupe);
        assert dedupe + KeyedBy(policy, m, f) == dedupe;
      case Bind(_, _, _, _) => BindBudget(policy, m, f, dedupe);
      case Refuse(_, _, _, _) => RefuseBudget(policy, m, f, dedupe);
      case GiveUp(_, _, _, _) => GiveUpBudget(policy, m, f, dedupe);
      case Callback(_, _, action, _) =>
        if !(action.Status? && !action.word.Ends()) {
          CallbackBudget(policy, m, f, dedupe);
        } else if f.slots[m.n].attempt.reference.value.Matches(m.reference) {
          MatchedBudget(policy, m, f, dedupe);
        } else {
          LiteralBudget(policy, m, f, dedupe);
        }
      case Cancel(_, _, _) => CloseBudget(policy, m, f, dedupe);
      case Exhaust(_, _) => CloseBudget(policy, m, f, dedupe);
      case Remark(_, _) => RemarkBudget(policy, m, f, dedupe);
    }
  }

  /** A move that records a provider failure, or the first progress status under a literal reference. */
  predicate Extra(m: CaseMove, f: CaseFile, f': CaseFile) {
    m.Refuse? || Literals(f) < Literals(f')
  }

  /**
    Every move stays within the budget, and every move that changes the case
    strictly lowers it, unless it records a provider failure or the first
    progress status under a literal reference.
  */
  lemma MoveBudget(policy: Policy, m: CaseMove, f: CaseFile, dedupe: set<DedupeEntry>)
    requires Enabled(policy, m, f) && Ladder(policy, f) && FirstLiteral(m, f)
    requires m.Reserve? || KeyedBy(policy, m, f) !! dedupe
    ensures var f', dedupe' := Perform(policy, m, f), dedupe + KeyedBy(policy, m, f);
            && Pays(dedupe, f, dedupe', f')
            && (WithinBudget(dedupe, f) ==> WithinBudget(dedupe', f'))
            && f'.record.version == f.record.version + (if m.Remark? then 0 else 1)
            && (!m.Remark? && !Extra(m, f, f') ==> Budget(dedupe', f') < Budget(dedupe, f))
  {
    MovePays(policy, m, f, dedupe);
    MoveRetries(policy, m, f);
    MoveRaises(policy, m, f);
  }

  lemma MoveRetries(policy: Policy, m: CaseMove, f: CaseFile)
    requires Enabled(policy, m, f)
    ensures Retries(Perform(policy, m, f).log) == Retries(f.log) + (if m.Refuse? then 1 else 0)
  {
    var log := Perform(policy, m, f).log;
    if !m.TakeClaim? {
      assert log == f.log + [log[|f.log|]];
      RetriesAppend(f.log, log[|f.log|]);
    }
  }

  lemma MoveRaises(policy: Policy, m: CaseMove, f: CaseFile)
    requires Enabled(policy, m, f)
    ensures Perform(policy, m, f).record.version == f.record.version + (if m.Remark? then 0 else 1)
  {
  }
}
