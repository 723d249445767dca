/** The version bound of CaseBudget, for every case of the store at once. */
module DispatchBudget {
  import opened Wrappers
  import opened DispatchModels
  import opened DispatchStore
  import opened DispatchCoordinator
  import opened CaseAutomaton
  import opened CaseBudget
  import opened DispatchRefinement
  import opened DispatchActions
  import opened DispatchSystem
  import opened DispatchLiterals

  ghost predicate BudgetOk(s: Store) {
    forall k :: k in s.files ==> WithinBudget(s.dedupe, s.files[k])
  }

  /** The key a move logs, and that it is new. */
  lemma EnactsKeyed(policy: Policy, s: Store, s': Store, k: CaseKey, m: CaseMove)
    requires Enacts(policy, s, s', k, m) && s.files[k].record.Key() == k
    ensures s'.dedupe == s.dedupe + KeyedBy(policy, m, s.files[k])
    ensures m.Reserve? || KeyedBy(policy, m, s.files[k]) !! s.dedupe
  {
  }

  lemma OthersWithin(s: Store, s': Store, k: CaseKey)
    requires BudgetOk(s) && s.dedupe <= s'.dedupe
    requires k in s'.files && s'.files == s.files[k := s'.files[k]] && WithinBudget(s'.dedupe, s'.files[k])
    ensures BudgetOk(s')
  {
    forall k' | k' in s'.files ensures WithinBudget(s'.dedupe, s'.files[k']) {
      if k' != k {
        BudgetShrinks(s.dedupe, s'.dedupe, s.files[k']);
        assert s'.files[k'] == s.files[k'];
      }
    }
  }

  lemma EnactsBudget(policy: Policy, s: Store, s': Store, k: CaseKey, m: CaseMove)
    requires Enacts(policy, s, s', k, m) && s.files[k].record.Key() == k
    requires Ladder(policy, s.files[k]) && FirstLiteral(m, s.files[k]) && BudgetOk(s)
    ensures BudgetOk(s')
  {
    EnactsKeyed(policy, s, s', k, m);
    MoveBudget(policy, m, s.files[k], s.dedupe);
    OthersWithin(s, s', k);
  }

  lemma OpensBudget(s: Store, s': Store, record: DispatchCase, scope: IdempotencyScope, event: DispatchEvent)
    requires Opens(s, s', record, scope, event) && record.version == 1 && BudgetOk(s)
    ensures BudgetOk(s')
  {
    var f := CaseFile(record, [], [event]);
    assert Budget(s'.dedupe, f) == 28;
    OthersWithin(s, s', record.Key());
  }

  lemma ChangesBudget(policy: Policy, s: Store, p: Program, env: Env, s': Store)
    requires Sound(policy, s) && ProgramOk(s, p) && Unspoken(s, p)
    requires Changes(policy, s, p, env, s') && BudgetOk(s)
    ensures BudgetOk(s')
  {
    if s' != s && Writes(p) {
      var target := Intent(policy, s, p, env);
      SpeaksFirst(policy, s, p, env);
      EnactsBudget(policy, s, s', target.home, target.move);
    } else if s' != s {
      OpensBudget(s, s', CreatedRecord(policy, p, env), p.request.Scope(), CreatedEvent(policy, p, env));
    }
  }
}
