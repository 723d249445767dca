/**
  Runs of the whole system: what holds after any sequence of inputs, and what
  two moments of one run have to do with each other.
*/
module DispatchRuns {
  import opened Wrappers
  import opened DispatchModels
  import opened DispatchStore
  import opened DispatchCoordinator
  import opened CaseAutomaton
  import opened CaseHistory
  import opened DispatchRefinement
  import opened DispatchActions
  import opened DispatchSystem
  import opened DispatchCalls
  import opened DispatchLog
  import opened DispatchCancel
  import opened DispatchAuthorization
  import opened DispatchLiterals
  import opened DispatchBudget

  ghost predicate Invariant(policy: Policy, sys: System) {
    && Core(policy, sys)
    && Ready(sys)
    && CallsOk(sys)
    && LogInvariant(sys.store)
    && CancelOk(sys)
    && AuthOk(sys)
    && LiteralsOk(sys)
    && BudgetOk(sys.store)
  }

  lemma InitialInvariant(policy: Policy)
    ensures Invariant(policy, INITIAL)
  {
  }

  lemma RunStore(policy: Policy, sys: System, pid: nat, env: Env)
    requires pid in sys.programs && Runnable(sys.store, sys.programs[pid])
    ensures RunAction(policy, sys, pid, env).store == Act(policy, sys.store, sys.programs[pid], env).store
    ensures RunAction(policy, sys, pid, env).programs
         == sys.programs[pid := Act(policy, sys.store, sys.programs[pid], env).next]
  {
    var move := Act(policy, sys.store, sys.programs[pid], env);
    RecordKeeps(sys.(store := move.store, programs := sys.programs[pid := move.next]), pid,
                Observed(sys.store, sys.programs[pid], env, move));
  }

  lemma RunChanges(policy: Policy, sys: System, pid: nat, env: Env)
    requires Core(policy, sys) && Ready(sys) && pid in sys.programs
    ensures Changes(policy, sys.store, sys.programs[pid], env, RunAction(policy, sys, pid, env).store)
  {
    ActChanges(policy, sys.store, sys.programs[pid], env);
    RunStore(policy, sys, pid, env);
  }

  lemma RunLogs(policy: Policy, sys: System, pid: nat, env: Env)
    requires Core(policy, sys) && Ready(sys) && pid in sys.programs
    requires LogInvariant(sys.store) && LiteralsOk(sys) && BudgetOk(sys.store)
    requires RunAction(policy, sys, pid, env).store.Indexed()
    ensures LogInvariant(RunAction(policy, sys, pid, env).store)
    ensures BudgetOk(RunAction(policy, sys, pid, env).store)
  {
    RunChanges(policy, sys, pid, env);
    var s' := RunAction(policy, sys, pid, env).store;
    ChangesLog(policy, sys.store, sys.programs[pid], env, s');
    ChangesBudget(policy, sys.store, sys.programs[pid], env, s');
  }

  lemma RunInvariant(policy: Policy, sys: System, pid: nat, env: Env)
    requires Invariant(policy, sys) && pid in sys.programs
    ensures Invariant(policy, RunAction(policy, sys, pid, env))
  {
    RunCore(policy, sys, pid, env);
    CoreReady(policy, RunAction(policy, sys, pid, env));
    RunCalls(policy, sys, pid, env);
    RunLogs(policy, sys, pid, env);
    RunCancel(policy, sys, pid, env);
    RunAuth(policy, sys, pid, env);
    RunLiterals(policy, sys, pid, env);
  }

  lemma StartInvariant(policy: Policy, sys: System, pid: nat, program: Program)
    requires Invariant(policy, sys) && pid !in sys.programs && program.Initial()
    ensures Invariant(policy, sys.(programs := sys.programs[pid := program]))
  {
    var programs' := sys.programs[pid := program];
    StartsOk(sys.store, program);
    forall q | q in programs'
      ensures ProgramOk(sys.store, programs'[q])
      ensures Holding(sys.store, sys.holder, sys.calls, q, programs'[q])
      ensures ReadyToCancel(programs'[q], sys.canceled) && Vetted(programs'[q]) && Unspoken(sys.store, programs'[q])
      ensures Runnable(sys.store, programs'[q])
    {
      if q != pid {
        assert ProgramOk(sys.store, sys.programs[q]) && ReadyToCancel(sys.programs[q], sys.canceled);
        assert Vetted(sys.programs[q]) && Unspoken(sys.store, sys.programs[q]);
      }
    }
    OneCarrierKept(sys.programs, pid, program);
  }

  lemma StartsOk(s: Store, p: Program)
    requires s.Indexed() && p.Initial()
    ensures ProgramOk(s, p) && Runnable(s, p) && !Unsent(p) && !p.CancelApply? && !p.AuthCreate? && !Carrier(p)
  {
  }

  /** Every step of every interleaving keeps the whole invariant. */
  lemma StepInvariant(policy: Policy, sys: System, input: Input)
    requires Invariant(policy, sys)
    ensures Invariant(policy, Step(policy, sys, input))
  {
    match input {
      case Start(pid, program) =>
        if pid !in sys.programs && program.Initial() {
          StartInvariant(policy, sys, pid, program);
        }
      case Run(pid, env) =>
        if pid in sys.programs {
          RunInvariant(policy, sys, pid, env);
        }
    }
  }

  /** The system after a run. */
  ghost function Execute(policy: Policy, inputs: seq<Input>): System {
    if inputs == [] then INITIAL
    else Step(policy, Execute(policy, inputs[..|inputs| - 1]), inputs[|inputs| - 1])
  }

  /** Every run reaches only states that satisfy the invariant. */
  lemma {:induction false} Reached(policy: Policy, inputs: seq<Input>)
    ensures Invariant(policy, Execute(policy, inputs))
  {
    if inputs == [] {
      InitialInvariant(policy);
    } else {
      var n := |inputs| - 1;
      Reached(policy, inputs[..n]);
      StepInvariant(policy, Execute(policy, inputs[..n]), inputs[n]);
    }
  }

  /** What every reachable store satisfies, and that every running method may act on it. */
  lemma ReachedStore(policy: Policy, inputs: seq<Input>)
    ensures var sys := Execute(policy, inputs);
            Consistent(sys.store) && Ladders(policy, sys.store) && LogInvariant(sys.store) && Ready(sys)
  {
    Reached(policy, inputs);
  }

  lemma SplitLast(before: seq<Input>, after: seq<Input>)
    requires after != []
    ensures (before + after)[..|before + after| - 1] == before + after[..|after| - 1]
    ensures (before + after)[|before + after| - 1] == after[|after| - 1]
  {
  }

  lemma {:induction false} ExecuteLast(policy: Policy, inputs: seq<Input>)
    requires inputs != []
    ensures Execute(policy, inputs)
         == Step(policy, Execute(policy, inputs[..|inputs| - 1]), inputs[|inputs| - 1])
  {
  }

  lemma {:induction false} ExecuteMore(policy: Policy, before: seq<Input>, after: seq<Input>)
    requires after != []
    ensures var n := |after| - 1;
            Execute(policy, before + after)
            == Step(policy, Execute(policy, before + after[..n]), after[n])
  {
    SplitLast(before, after);
    ExecuteLast(policy, before + after);
  }

  // ---------- two moments of one run ----------

  /** What closing a case means for everything that follows. */
  predicate StaysClosed(f: CaseFile, f': CaseFile) {
    && (f.record.status.Absorbing() ==> f'.record == f.record && f'.slots == f.slots)
    && (f.record.status.Unacknowledged? ==>
          || (f'.record == f.record && f'.slots == f.slots)
          || f'.record.status.Acknowledged? || f'.record.status.ManualFollowUp?)
  }

  ghost predicate AllStayClosed(s: Store, s': Store) {
    forall k :: k in s.files ==> k in s'.files && StaysClosed(s.files[k], s'.files[k])
  }

  ghost predicate Follows(s: Store, s': Store) {
    StoreEvolves(s, s') && AllStayClosed(s, s') && s.dedupe <= s'.dedupe
  }

  lemma ChangesFollow(policy: Policy, s: Store, p: Program, env: Env, s': Store)
    requires Sound(policy, s) && Changes(policy, s, p, env, s')
    ensures Follows(s, s')
  {
    ChangesSound(policy, s, p, env, s');
    ChangesLogged(policy, s, p, env, s');
    ChangesClosed(policy, s, p, env, s');
  }

  lemma ChangesClosed(policy: Policy, s: Store, p: Program, env: Env, s': Store)
    requires Changes(policy, s, p, env, s')
    ensures AllStayClosed(s, s')
  {
    if s' != s && Writes(p) {
      var target := Intent(policy, s, p, env);
      EnactsClosed(policy, s, s', target.home, target.move);
    }
  }

  lemma EnactsClosed(policy: Policy, s: Store, s': Store, k: CaseKey, m: CaseMove)
    requires Enacts(policy, s, s', k, m)
    ensures AllStayClosed(s, s')
  {
    if s.files[k].record.status.Terminal() {
      ClosedForGood(policy, m, s.files[k]);
    }
  }

  lemma StepFollows(policy: Policy, sys: System, input: Input)
    requires Core(policy, sys) && Ready(sys)
    ensures Follows(sys.store, Step(policy, sys, input).store)
  {
    Unmoved(sys.store);
    if input.Run? && input.pid in sys.programs {
      RunChanges(policy, sys, input.pid, input.env);
      ChangesFollow(
        policy, sys.store, sys.programs[input.pid], input.env, RunAction(policy, sys, input.pid, input.env).store);
    }
  }

  lemma FollowsTransitive(s: Store, s1: Store, s2: Store)
    requires Follows(s, s1) && Follows(s1, s2)
    ensures Follows(s, s2)
  {
    forall k | k in s.files
      ensures k in s2.files && Evolves(s.files[k], s2.files[k]) && StaysClosed(s.files[k], s2.files[k])
    {
      EvolvesTransitive(s.files[k], s1.files[k], s2.files[k]);
      assert StaysClosed(s.files[k], s1.files[k]) && StaysClosed(s1.files[k], s2.files[k]);
    }
  }

  /**
    Between any two moments of a run: versions, logs and keys only grow, equal
    versions mean equal records, references are written once, acknowledged,
    manual-follow-up and canceled cases never change again, and an exhausted
    case changes only into an acknowledged or manual-follow-up one.
  */
  lemma {:induction false} RunFollows(policy: Policy, before: seq<Input>, after: seq<Input>)
    ensures Follows(Execute(policy, before).store, Execute(policy, before + after).store)
    decreases |after|
  {
    var s := Execute(policy, before).store;
    if after == [] {
      assert before + after == before;
      Unmoved(s);
    } else {
      var n := |after| - 1;
      RunFollows(policy, before, after[..n]);
      ExecuteMore(policy, before, after);
      var middle := Execute(policy, before + after[..n]);
      Reached(policy, before + after[..n]);
      StepFollows(policy, middle, after[n]);
      FollowsTransitive(s, middle.store, Execute(policy, before + after).store);
    }
  }
}
