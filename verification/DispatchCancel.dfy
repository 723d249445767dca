/**
  Cancellation is safe: a canceled case has no claimed submission and never
  gets one, and if the attempt that was open at cancellation had reached the
  provider, the provider was told to cancel that very call first.
*/
module DispatchCancel {
  import opened Wrappers
  import opened DispatchModels
  import opened DispatchStore
  import opened DispatchCoordinator
  import opened CaseAutomaton
  import opened CaseHistory
  import opened DispatchRefinement
  import opened DispatchActions
  import opened DispatchSystem

  /** A canceled attempt that has a reference was canceled at the provider. */
  predicate Told(attempt: CallAttempt, canceled: set<Cancellation>) {
    attempt.reference.Some? ==> Cancellation(attempt.Key(), attempt.reference.value) in canceled
  }

  ghost predicate CanceledTold(s: Store, canceled: set<Cancellation>) {
    forall k, i :: k in s.files && 0 <= i < |s.files[k].slots| && s.files[k].slots[i].attempt.status.Canceled? ==>
      Told(s.files[k].slots[i].attempt, canceled)
  }

  /** An operator's program about to close a case has told the provider. */
  predicate ReadyToCancel(p: Program, canceled: set<Cancellation>) {
    p.CancelApply? && p.active.Some? ==> Told(p.active.value, canceled)
  }

  ghost predicate AllReady(programs: map<nat, Program>, canceled: set<Cancellation>) {
    forall pid :: pid in programs ==> ReadyToCancel(programs[pid], canceled)
  }

  ghost predicate CancelOk(sys: System) {
    CanceledTold(sys.store, sys.canceled) && AllReady(sys.programs, sys.canceled)
  }

  /** Only a cancellation makes an attempt canceled, and it keeps the reference. */
  lemma MoveCanceled(policy: Policy, m: CaseMove, f: CaseFile, i: nat)
    requires Enabled(policy, m, f) && i < |Perform(policy, m, f).slots|
    requires Perform(policy, m, f).slots[i].attempt.status.Canceled?
    ensures i < |f.slots|
    ensures var attempt, attempt' := f.slots[i].attempt, Perform(policy, m, f).slots[i].attempt;
            && attempt'.identity == attempt.identity && attempt'.reference == attempt.reference
            && (attempt.status.Canceled? || (m.Cancel? && m.n == i))
  {
  }

  lemma EnactsTold(
    policy: Policy, s: Store, s': Store, k: CaseKey, m: CaseMove, canceled: set<Cancellation>)
    requires Enacts(policy, s, s', k, m) && CanceledTold(s, canceled)
    requires m.Cancel? && m.n < |s.files[k].slots| ==> Told(s.files[k].slots[m.n].attempt, canceled)
    ensures CanceledTold(s', canceled)
  {
    forall k', i | k' in s'.files && 0 <= i < |s'.files[k'].slots| && s'.files[k'].slots[i].attempt.status.Canceled?
      ensures Told(s'.files[k'].slots[i].attempt, canceled)
    {
      if k' == k {
        MoveCanceled(policy, m, s.files[k], i);
      }
    }
  }

  lemma CancelIntent(policy: Policy, s: Store, p: Program, env: Env)
    requires Writes(p) && Intent(policy, s, p, env).move.Cancel?
    ensures p.CancelApply?
    ensures Intent(policy, s, p, env).home == p.record.Key()
    ensures Intent(policy, s, p, env).move.n == OpenSlot(s, p.record, p.active)
  {
  }

  /** The attempt an effective cancellation ends is the one the program read. */
  lemma CancelsCurrent(policy: Policy, s: Store, p: Program, env: Env)
    requires Consistent(s) && p.CancelApply? && ActiveSeen(s, p.record, p.active)
    requires ActCancelApply(s, p.record, p.active, p.eventKey, env).store != s
    ensures var f, n := s.files[p.record.Key()], OpenSlot(s, p.record, p.active);
            n < |f.slots| ==> p.active == Some(f.slots[n].attempt)
  {
    if p.active.Some? {
      var record' := Close(p.record, DispatchStatus.Canceled, env.now);
      var event := CancelEvent(p.record, p.active, p.eventKey, env);
      ApplyIsCurrent(s, p.record, p.active.value, record', CanceledAttempt(p.active.value, env.now), event);
    }
  }

  lemma OpensTold(
    s: Store, s': Store, record: DispatchCase, scope: IdempotencyScope, event: DispatchEvent,
    canceled: set<Cancellation>)
    requires Opens(s, s', record, scope, event) && CanceledTold(s, canceled)
    ensures CanceledTold(s', canceled)
  {
    forall k', i | k' in s'.files && 0 <= i < |s'.files[k'].slots| && s'.files[k'].slots[i].attempt.status.Canceled?
      ensures Told(s'.files[k'].slots[i].attempt, canceled)
    {
      assert k' in s.files;
    }
  }

  /** The move of a canceling program is about the attempt it told the provider of. */
  lemma TargetTold(policy: Policy, s: Store, p: Program, env: Env, s': Store, canceled: set<Cancellation>)
    requires Consistent(s) && ProgramOk(s, p) && Runnable(s, p) && Writes(p)
    requires s' == Act(policy, s, p, env).store && s' != s
    requires ReadyToCancel(p, canceled)
    ensures var target := Intent(policy, s, p, env);
            target.move.Cancel? && target.home in s.files && target.move.n < |s.files[target.home].slots| ==>
              Told(s.files[target.home].slots[target.move.n].attempt, canceled)
  {
    if Intent(policy, s, p, env).move.Cancel? {
      CancelIntent(policy, s, p, env);
      CancelsCurrent(policy, s, p, env);
    }
  }

  lemma ChangesTold(policy: Policy, s: Store, p: Program, env: Env, s': Store, canceled: set<Cancellation>)
    requires Consistent(s) && ProgramOk(s, p) && Runnable(s, p)
    requires s' == Act(policy, s, p, env).store && Changes(policy, s, p, env, s')
    requires CanceledTold(s, canceled) && ReadyToCancel(p, canceled)
    ensures CanceledTold(s', canceled)
  {
    if s' != s && Writes(p) {
      TargetTold(policy, s, p, env, s', canceled);
      EnactsTold(policy, s, s', Intent(policy, s, p, env).home, Intent(policy, s, p, env).move, canceled);
    } else if s' != s {
      OpensTold(s, s', CreatedRecord(policy, p, env), p.request.Scope(), CreatedEvent(policy, p, env), canceled);
    }
  }

  function AfterCancel(canceled: set<Cancellation>, effect: Effect): set<Cancellation> {
    if effect.CanceledCall? then canceled + {Cancellation(effect.key, effect.reference)} else canceled
  }

  lemma NextReady(policy: Policy, s: Store, p: Program, env: Env, canceled: set<Cancellation>)
    requires Runnable(s, p)
    ensures var move := Act(policy, s, p, env);
            ReadyToCancel(move.next, AfterCancel(canceled, Observed(s, p, env, move)))
  {
  }

  /** What one action does to the record of cancellations. */
  lemma RunRecords(policy: Policy, sys: System, pid: nat, env: Env)
    requires pid in sys.programs && Runnable(sys.store, sys.programs[pid])
    ensures var move, sys' := Act(policy, sys.store, sys.programs[pid], env), RunAction(policy, sys, pid, env);
            && sys'.store == move.store && sys'.programs == sys.programs[pid := move.next]
            && sys'.canceled
               == AfterCancel(sys.canceled, Observed(sys.store, sys.programs[pid], env, move))
  {
    var move := Act(policy, sys.store, sys.programs[pid], env);
    RecordKeeps(sys.(store := move.store, programs := sys.programs[pid := move.next]), pid,
                Observed(sys.store, sys.programs[pid], env, move));
  }

  lemma MoreTold(s: Store, canceled: set<Cancellation>, canceled': set<Cancellation>)
    requires CanceledTold(s, canceled) && canceled <= canceled'
    ensures CanceledTold(s, canceled')
  {
  }

  lemma MoreReady(
    programs: map<nat, Program>, pid: nat, next: Program, canceled: set<Cancellation>, canceled': set<Cancellation>)
    requires AllReady(programs, canceled) && canceled <= canceled' && ReadyToCancel(next, canceled')
    ensures AllReady(programs[pid := next], canceled')
  {
  }

  lemma RunTold(policy: Policy, sys: System, pid: nat, env: Env)
    requires Core(policy, sys) && Ready(sys) && pid in sys.programs && CancelOk(sys)
    ensures CanceledTold(RunAction(policy, sys, pid, env).store, RunAction(policy, sys, pid, env).canceled)
  {
    var s, p := sys.store, sys.programs[pid];
    ActChanges(policy, s, p, env);
    ChangesTold(policy, s, p, env, Act(policy, s, p, env).store, sys.canceled);
    RunRecords(policy, sys, pid, env);
    MoreTold(Act(policy, s, p, env).store, sys.canceled, RunAction(policy, sys, pid, env).canceled);
  }

  lemma RunReady(policy: Policy, sys: System, pid: nat, env: Env)
    requires Ready(sys) && pid in sys.programs && CancelOk(sys)
    ensures AllReady(RunAction(policy, sys, pid, env).programs, RunAction(policy, sys, pid, env).canceled)
  {
    RunRecords(policy, sys, pid, env);
    NextReady(policy, sys.store, sys.programs[pid], env, sys.canceled);
    MoreReady(sys.programs, pid, Act(policy, sys.store, sys.programs[pid], env).next, sys.canceled,
              RunAction(policy, sys, pid, env).canceled);
  }

  /** An action keeps every canceled attempt, and every program about to cancel one, told to the provider. */
  lemma RunCancel(policy: Policy, sys: System, pid: nat, env: Env)
    requires Core(policy, sys) && Ready(sys) && pid in sys.programs && CancelOk(sys)
    ensures CancelOk(RunAction(policy, sys, pid, env))
  {
    RunTold(policy, sys, pid, env);
    RunReady(policy, sys, pid, env);
  }

  /** In a canceled case nothing is claimed. */
  lemma CanceledUnclaimed(policy: Policy, f: CaseFile, i: nat)
    requires Ladder(policy, f) && f.record.status.Canceled? && i < |f.slots|
    ensures !f.slots[i].submission.state.Claimed?
  {
    assert Coherent(f.slots[i]);
  }
}
