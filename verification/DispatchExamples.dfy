/**
  Runs that exist: whatever a method does alone from a reachable store is
  reachable too, so runs can be put together method by method.  Here are the
  pieces: a new case, a reserved attempt, a refused call, a claimed call, a
  call's first status, its progress, its end, and a key-press.
*/
module DispatchExamples {
  import opened Wrappers
  import opened DispatchModels
  import opened DispatchStore
  import opened DispatchCoordinator
  import opened CaseAutomaton
  import opened CaseBudget
  import opened DispatchRefinement
  import opened DispatchActions
  import opened DispatchLog
  import opened DispatchSystem
  import opened DispatchRuns
  import opened DispatchAlone

  ghost predicate CanReach(policy: Policy, s: Store) {
    exists inputs :: Execute(policy, inputs).store == s
  }

  /** No finite collection of running methods uses every process number. */
  lemma {:induction false} FreshProcess<T>(programs: map<nat, T>) returns (pid: nat)
    ensures pid !in programs
    ensures forall p :: p in programs ==> p < pid
    decreases |programs|
  {
    if programs == map[] {
      pid := 0;
    } else {
      var q :| q in programs;
      var rest := programs - {q};
      var below := FreshProcess(rest);
      pid := if q < below then below else q + 1;
      forall p | p in programs ensures p < pid {
        if p != q {
          assert p in rest;
        }
      }
    }
  }

  /** One more action of a running method. */
  lemma RunsNext(policy: Policy, inputs: seq<Input>, pid: nat, p: Program, env: Env)
    requires pid in Execute(policy, inputs).programs && Execute(policy, inputs).programs[pid] == p
    requires Runnable(Execute(policy, inputs).store, p)
    ensures var sys := Execute(policy, inputs + [Run(pid, env)]);
            var move := Act(policy, Execute(policy, inputs).store, p, env);
            sys.store == move.store && pid in sys.programs && sys.programs[pid] == move.next
  {
    ExecuteNext(policy, inputs, Run(pid, env));
    RunStore(policy, Execute(policy, inputs), pid, env);
  }

  lemma {:induction false} RunsAlone(
    policy: Policy, inputs: seq<Input>, pid: nat, p: Program, draws: Draws, n: nat)
    requires pid in Execute(policy, inputs).programs && Execute(policy, inputs).programs[pid] == p
    ensures CanReach(policy, Alone(policy, Execute(policy, inputs).store, p, draws, n).store)
    decreases n
  {
    var s := Execute(policy, inputs).store;
    if n == 0 || !Runnable(s, p) {
      assert Alone(policy, s, p, draws, n).store == Execute(policy, inputs).store;
    } else {
      RunsNext(policy, inputs, pid, p, draws(p));
      RunsAlone(policy, inputs + [Run(pid, draws(p))], pid, Act(policy, s, p, draws(p)).next, draws, n - 1);
    }
  }

  lemma ExecuteNext(policy: Policy, inputs: seq<Input>, input: Input)
    ensures Execute(policy, inputs + [input]) == Step(policy, Execute(policy, inputs), input)
  {
    assert (inputs + [input])[..|inputs|] == inputs;
  }

  /** Any number of actions of a method that starts now and runs alone. */
  lemma ReachAlone(policy: Policy, s: Store, p: Program, draws: Draws, n: nat)
    requires CanReach(policy, s) && p.Initial()
    ensures CanReach(policy, Alone(policy, s, p, draws, n).store)
  {
    var inputs :| Execute(policy, inputs).store == s;
    var pid := FreshProcess(Execute(policy, inputs).programs);
    ExecuteNext(policy, inputs, Start(pid, p));
    RunsAlone(policy, inputs + [Start(pid, p)], pid, p, draws, n);
  }

  /** Alone, the program comes to this store, whether or not it is done. */
  ghost predicate Comes(policy: Policy, s: Store, p: Program, draws: Draws, s': Store) {
    exists n: nat :: Alone(policy, s, p, draws, n).store == s'
  }

  lemma ComesNow(policy: Policy, s: Store, p: Program, draws: Draws)
    ensures Comes(policy, s, p, draws, s)
  {
    assert Alone(policy, s, p, draws, 0).store == s;
  }

  lemma ComesAfter(policy: Policy, s: Store, p: Program, draws: Draws, move: Move, s': Store)
    requires Runnable(s, p) && move == Act(policy, s, p, draws(p))
    requires Comes(policy, move.store, move.next, draws, s')
    ensures Comes(policy, s, p, draws, s')
  {
    var n: nat :| Alone(policy, move.store, move.next, draws, n).store == s';
    assert Alone(policy, s, p, draws, n + 1) == Alone(policy, move.store, move.next, draws, n);
  }

  lemma ReachComes(policy: Policy, s: Store, p: Program, draws: Draws, s': Store)
    requires CanReach(policy, s) && p.Initial() && Comes(policy, s, p, draws, s')
    ensures CanReach(policy, s')
  {
    var n: nat :| Alone(policy, s, p, draws, n).store == s';
    ReachAlone(policy, s, p, draws, n);
  }

  lemma ReachableFacts(policy: Policy, s: Store)
    requires CanReach(policy, s)
    ensures Consistent(s) && LogInvariant(s) && Ladders(policy, s)
  {
    var inputs :| Execute(policy, inputs).store == s;
    Reached(policy, inputs);
  }

  // ---------- one callback ----------

  /** The token leads to the attempt at position n, bound to a reference. */
  predicate Bound(s: Store, k: CaseKey, n: nat, token: Token, stored: Reference) {
    && k in s.files && n < |s.files[k].slots|
    && token in s.callbacks && s.callbacks[token] == Address(k, n)
    && s.files[k].slots[n].attempt.reference == Some(stored)
  }

  /** One more version of the case, one more key, nothing new elsewhere. */
  predicate Moved(s: Store, s': Store, k: CaseKey, key: DedupeKey) {
    && k in s.files && k in s'.files
    && s'.placed == s.placed && s'.callbacks == s.callbacks
    && s'.dedupe == s.dedupe + {DedupeEntry(k.tenantId, key)}
    && s'.files[k].record.version == s.files[k].record.version + 1
    && s'.files[k].record.identity == s.files[k].record.identity
    && |s'.files[k].slots| == |s.files[k].slots|
    && (!key.ProviderRetryKey? ==> Retries(s'.files[k].log) == Retries(s.files[k].log))
    && s.files[k].log <= s'.files[k].log
  }

  /** The case moved as planned for its attempt at position n. */
  predicate Planned(s: Store, s': Store, k: CaseKey, n: nat, plan: Plan) {
    && Moved(s, s', k, plan.event.key) && n < |s.files[k].slots|
    && s'.files[k]
       == Amend(s.files[k], n, plan.record, s.files[k].slots[n].(attempt := plan.attempt), plan.event)
  }

  /** Applying a plan for the attempt at position n as it is now. */
  lemma AppliesNow(policy: Policy, s: Store, k: CaseKey, n: nat, plan: Plan)
    requires Consistent(s) && k in s.files && n < |s.files[k].slots|
    requires plan.record.identity == s.files[k].record.identity
    requires plan.attempt.identity == s.files[k].slots[n].attempt.identity
    requires plan.record.version == s.files[k].record.version + 1
    requires plan.attempt.version == s.files[k].slots[n].attempt.version + 1
    requires EventFits(plan.event, plan.record, Some(plan.attempt)) && !plan.event.kind.Canceled?
    requires !s.Logged(k.tenantId, plan.event.key)
    ensures var file := s.files[k];
            var s' := ApplyTransition(s, plan.record, plan.attempt, plan.event, file.record.version,
                                      file.slots[n].attempt.version).store;
            Planned(s, s', k, n, plan)
  {
    assert Filed(s, k, n) && s.files[k].record.Key() == k;
    RetriesAppend(s.files[k].log, plan.event);
  }

  function HandlingOf(policy: Policy, s: Store, k: CaseKey, n: nat, r: Reference, action: CallbackAction, env: Env)
    : Handling
    requires k in s.files && n < |s.files[k].slots|
  {
    Handle(policy, s.files[k].record, s.files[k].slots[n].attempt, r, action, env)
  }

  /** What a handler plans fits the case it read. */
  lemma HandlerPlan(
    policy: Policy, s: Store, k: CaseKey, n: nat, r: Reference, action: CallbackAction, env: Env)
    requires Consistent(s) && k in s.files && n < |s.files[k].slots| && Handler(action)
    requires HandlingOf(policy, s, k, n, r, action, env).Change?
    ensures var plan := HandlingOf(policy, s, k, n, r, action, env).plan;
            && plan.record.identity == s.files[k].record.identity
            && plan.attempt.identity == s.files[k].slots[n].attempt.identity
            && plan.record.version == s.files[k].record.version + 1
            && plan.attempt.version == s.files[k].slots[n].attempt.version + 1
            && EventFits(plan.event, plan.record, Some(plan.attempt)) && !plan.event.kind.Canceled?
            && plan.event.key == action.Key(r)
  {
    var record, attempt := s.files[k].record, s.files[k].slots[n].attempt;
    assert Filed(s, k, n) && record.Key() == k;
    HandlingKey(policy, record, attempt, r, action, env);
    PlanKeepsIdentity(policy, record, attempt, r, action, env);
    PlanRaises(policy, record, attempt, r, action, env);
  }

  lemma PlanRaises(
    policy: Policy, record: DispatchCase, attempt: CallAttempt, r: Reference, action: CallbackAction, env: Env)
    requires Handle(policy, record, attempt, r, action, env).Change?
    ensures var plan := Handle(policy, record, attempt, r, action, env).plan;
            && plan.record.version == record.version + 1 && plan.attempt.version == attempt.version + 1
            && plan.attempt.reference == attempt.reference && !plan.event.kind.Canceled?
  {
  }

  lemma AppliesPlan(
    policy: Policy, s: Store, k: CaseKey, n: nat, r: Reference, action: CallbackAction, env: Env)
    requires s.Indexed() && k in s.files && n < |s.files[k].slots|
    requires HandlingOf(policy, s, k, n, r, action, env).Change?
    ensures var plan, file := HandlingOf(policy, s, k, n, r, action, env).plan, s.files[k];
            Act(policy, s, FoundAt(s, k, n, r, action), env).store
            == ApplyTransition(s, plan.record, plan.attempt, plan.event, file.record.version,
                               file.slots[n].attempt.version).store
  {
  }

  /** The handling of a callback that changes the case, from the moment its attempt was found. */
  lemma ApplicationComes(
    policy: Policy, s: Store, k: CaseKey, n: nat, r: Reference, action: CallbackAction, env: Env, draws: Draws)
    returns (s': Store)
    requires Consistent(s) && k in s.files && n < |s.files[k].slots| && Handler(action)
    requires env == draws(FoundAt(s, k, n, r, action))
    requires HandlingOf(policy, s, k, n, r, action, env).Change? && !s.Logged(k.tenantId, action.Key(r))
    ensures Comes(policy, s, FoundAt(s, k, n, r, action), draws, s')
    ensures Planned(s, s', k, n, HandlingOf(policy, s, k, n, r, action, env).plan)
    ensures HandlingOf(policy, s, k, n, r, action, env).plan.event.key == action.Key(r)
  {
    HandlerPlan(policy, s, k, n, r, action, env);
    AppliesNow(policy, s, k, n, HandlingOf(policy, s, k, n, r, action, env).plan);
    AppliesPlan(policy, s, k, n, r, action, env);
    s' := Act(policy, s, FoundAt(s, k, n, r, action), env).store;
    ActionComes(policy, s, FoundAt(s, k, n, r, action), draws, Act(policy, s, FoundAt(s, k, n, r, action), env));
  }

  /** A store that one action leads to. */
  lemma ActionComes(policy: Policy, s: Store, p: Program, draws: Draws, move: Move)
    requires Runnable(s, p) && move == Act(policy, s, p, draws(p))
    ensures Comes(policy, s, p, draws, move.store)
  {
    ComesNow(policy, move.store, move.next, draws);
    ComesAfter(policy, s, p, draws, move, move.store);
  }

  /** A delivered callback that changes the case. */
  lemma CallbackReaches(
    policy: Policy, s: Store, k: CaseKey, n: nat, token: Token, stored: Reference, r: Reference,
    action: CallbackAction, env: Env) returns (s': Store)
    requires CanReach(policy, s) && Bound(s, k, n, token, stored) && stored.Matches(r) && !r.Blank()
    requires Handler(action) && HandlingOf(policy, s, k, n, r, action, env).Change?
    requires !s.Logged(k.tenantId, action.Key(r))
    ensures CanReach(policy, s') && Bound(s', k, n, token, stored)
    ensures Planned(s, s', k, n, HandlingOf(policy, s, k, n, r, action, env).plan)
    ensures Moved(s, s', k, action.Key(r))
  {
    ReachableFacts(policy, s);
    var draws: Draws := _ => env;
    var p := CallbackResolve(token, r, action);
    PlanRaises(policy, s.files[k].record, s.files[k].slots[n].attempt, r, action, env);
    s' := ApplicationComes(policy, s, k, n, r, action, env, draws);
    ResolvedComes(policy, s, k, n, token, stored, r, action, draws, s');
    ReachComes(policy, s, p, draws, s');
  }

  lemma ResolvedComes(
    policy: Policy, s: Store, k: CaseKey, n: nat, token: Token, stored: Reference, r: Reference,
    action: CallbackAction, draws: Draws, s': Store)
    requires s.Indexed() && Bound(s, k, n, token, stored) && stored.Matches(r) && !r.Blank()
    requires Comes(policy, s, FoundAt(s, k, n, r, action), draws, s')
    ensures Comes(policy, s, CallbackResolve(token, r, action), draws, s')
  {
    ComesAfter(policy, s, CallbackResolve(token, r, action), draws, ActCallbackResolve(s, token, r, action), s');
  }

  // ---------- the first callback ----------

  /** The attempt at position n is claimed, not bound, and its case is open. */
  predicate Awaiting(s: Store, k: CaseKey, n: nat, token: Token) {
    && k in s.files && n < |s.files[k].slots|
    && token in s.callbacks && s.callbacks[token] == Address(k, n)
    && s.files[k].slots[n].attempt.reference.None? && s.files[k].slots[n].submission.state.Claimed?
    && s.files[k].slots[n].attempt.status.AwaitingProvider()
    && !s.files[k].record.status.Terminal()
  }

  /** What binding the attempt at position n leaves behind. */
  function BoundStore(s: Store, k: CaseKey, n: nat, r: Reference, env: Env): Store
    requires k in s.files && n < |s.files[k].slots|
  {
    var file := s.files[k];
    var event := BindEvent(Located(file.record, file.slots[n].attempt), env);
    Commit(s, k, BindFile(file, n, r, env.now, event), event)
  }

  lemma BindsNow(s: Store, k: CaseKey, n: nat, token: Token, r: Reference, action: CallbackAction, env: Env)
    requires Consistent(s) && LogInvariant(s) && Awaiting(s, k, n, token) && !r.Blank()
    ensures var located := Located(s.files[k].record, s.files[k].slots[n].attempt);
            && ActCallbackResolve(s, token, r, action)
               == Move(s, CallbackBind(token, r, action, located))
            && ActCallbackBind(s, token, r, action, located, env)
               == Move(BoundStore(s, k, n, r, env),
                       FoundAt(BoundStore(s, k, n, r, env), k, n, r, action))
  {
    assert Filed(s, k, n) && s.files[k].record.Key() == k;
  }

  /** After a binding the call is in progress, under one key more. */
  lemma BoundFacts(s: Store, k: CaseKey, n: nat, token: Token, r: Reference, env: Env)
    requires Consistent(s) && Awaiting(s, k, n, token)
    ensures var s' := BoundStore(s, k, n, r, env);
            && Moved(s, s', k, CallInitiatedKey(s.files[k].slots[n].attempt.identity.attemptId))
            && Bound(s', k, n, token, r)
            && !s'.files[k].record.status.Terminal() && !s'.files[k].slots[n].attempt.status.Terminal()
            && s'.files[k].slots == s.files[k].slots[n := s'.files[k].slots[n]]
            && s'.files[k].slots[n].attempt.identity == s.files[k].slots[n].attempt.identity
  {
    var file := s.files[k];
    RetriesAppend(file.log, BindEvent(Located(file.record, file.slots[n].attempt), env));
  }

  lemma BindingActs(
    policy: Policy, s: Store, k: CaseKey, n: nat, token: Token, r: Reference, action: CallbackAction, env: Env)
    requires Consistent(s) && LogInvariant(s) && Awaiting(s, k, n, token) && !r.Blank()
    ensures var s1 := BoundStore(s, k, n, r, env);
            Act(policy, s, UnboundAt(s, k, n, token, r, action), env)
            == Move(s1, FoundAt(s1, k, n, r, action))
  {
    BindsNow(s, k, n, token, r, action, env);
  }

  lemma ResolvingActs(
    policy: Policy, s: Store, k: CaseKey, n: nat, token: Token, r: Reference, action: CallbackAction, env: Env)
    requires Consistent(s) && LogInvariant(s) && Awaiting(s, k, n, token) && !r.Blank()
    ensures Act(policy, s, CallbackResolve(token, r, action), env)
         == Move(s, UnboundAt(s, k, n, token, r, action))
  {
    BindsNow(s, k, n, token, r, action, env);
  }

  /** A callback that binds the call comes to whatever the bound attempt's handling comes to. */
  lemma BindingComes(
    policy: Policy, s: Store, k: CaseKey, n: nat, token: Token, r: Reference, action: CallbackAction, env: Env,
    draws: Draws, s': Store)
    requires Consistent(s) && LogInvariant(s) && Awaiting(s, k, n, token) && !r.Blank()
    requires env == draws(CallbackResolve(token, r, action)) == draws(UnboundAt(s, k, n, token, r, action))
    requires var s1 := BoundStore(s, k, n, r, env);
             Comes(policy, s1, FoundAt(s1, k, n, r, action), draws, s')
    ensures Comes(policy, s, CallbackResolve(token, r, action), draws, s')
  {
    var p, q := CallbackResolve(token, r, action), UnboundAt(s, k, n, token, r, action);
    BindingActs(policy, s, k, n, token, r, action, env);
    ComesAfter(policy, s, q, draws, Act(policy, s, q, env), s');
    ResolvingActs(policy, s, k, n, token, r, action, env);
    ComesAfter(policy, s, p, draws, Act(policy, s, p, env), s');
  }

  lemma BindingReaches(
    policy: Policy, s: Store, k: CaseKey, n: nat, token: Token, r: Reference, action: CallbackAction, env: Env)
    requires CanReach(policy, s) && Awaiting(s, k, n, token) && !r.Blank() && action.Status?
    ensures CanReach(policy, BoundStore(s, k, n, r, env))
  {
    ReachableFacts(policy, s);
    var draws: Draws := _ => env;
    var s1 := BoundStore(s, k, n, r, env);
    ComesNow(policy, s1, FoundAt(s1, k, n, r, action), draws);
    BindingComes(policy, s, k, n, token, r, action, env, draws, s1);
    ReachComes(policy, s, CallbackResolve(token, r, action), draws, s1);
  }

  /** A progress status moves a call in progress along. */
  lemma ProgressTalks(
    policy: Policy, s: Store, s': Store, k: CaseKey, n: nat, token: Token, stored: Reference, r: Reference,
    word: ProviderWord, env: Env)
    requires Talking(s, k, n, token, stored) && !word.Ends()
    requires HandlingOf(policy, s, k, n, r, Status(word, Some(0)), env).Change?
    requires Planned(s, s', k, n, HandlingOf(policy, s, k, n, r, Status(word, Some(0)), env).plan)
    ensures Talking(s', k, n, token, stored) && SameButOne(s, s', k, n)
  {
  }

  lemma ProgressChanges(
    policy: Policy, s: Store, k: CaseKey, n: nat, token: Token, stored: Reference, r: Reference, word: ProviderWord,
    env: Env)
    requires Talking(s, k, n, token, stored)
    ensures HandlingOf(policy, s, k, n, r, Status(word, Some(0)), env).Change?
  {
  }

  /** The handling of a progress status in a call in progress, from the moment its attempt was found. */
  lemma ProgressComes(
    policy: Policy, s: Store, k: CaseKey, n: nat, token: Token, stored: Reference, r: Reference, word: ProviderWord,
    env: Env, draws: Draws) returns (s': Store)
    requires Consistent(s) && Talking(s, k, n, token, stored) && !word.Ends()
    requires env == draws(FoundAt(s, k, n, r, Status(word, Some(0)))) && !s.Logged(k.tenantId, StatusKey(r, word))
    ensures Comes(policy, s, FoundAt(s, k, n, r, Status(word, Some(0))), draws, s')
    ensures Talking(s', k, n, token, stored) && Moved(s, s', k, StatusKey(r, word)) && SameButOne(s, s', k, n)
  {
    ProgressChanges(policy, s, k, n, token, stored, r, word, env);
    s' := ApplicationComes(policy, s, k, n, r, Status(word, Some(0)), env, draws);
    ProgressTalks(policy, s, s', k, n, token, stored, r, word, env);
  }

  /** Binding a call leaves it in progress, in a consistent store. */
  lemma BindingTalks(
    policy: Policy, s: Store, k: CaseKey, n: nat, token: Token, r: Reference, action: CallbackAction, env: Env)
    requires CanReach(policy, s) && Awaiting(s, k, n, token) && !r.Blank() && action.Status?
    ensures var s1 := BoundStore(s, k, n, r, env);
            && Consistent(s) && LogInvariant(s) && Consistent(s1) && Talking(s1, k, n, token, r)
            && s1.dedupe == s.dedupe
                 + {DedupeEntry(k.tenantId, CallInitiatedKey(s.files[k].slots[n].attempt.identity.attemptId))}
  {
    ReachableFacts(policy, s);
    BoundFacts(s, k, n, token, r, env);
    BindingReaches(policy, s, k, n, token, r, action, env);
    ReachableFacts(policy, BoundStore(s, k, n, r, env));
  }

  /** A progress status callback that comes before anything else bound the call. */
  lemma FirstStatusReaches(
    policy: Policy, s: Store, s1: Store, k: CaseKey, n: nat, token: Token, r: Reference, word: ProviderWord, env: Env)
    returns (s': Store)
    requires CanReach(policy, s) && Awaiting(s, k, n, token) && !r.Blank()
    requires s1 == BoundStore(s, k, n, r, env)
    requires !word.Ends() && !s.Logged(k.tenantId, StatusKey(r, word))
    ensures CanReach(policy, s') && Talking(s', k, n, token, r)
    ensures Moved(s1, s', k, StatusKey(r, word)) && SameButOne(s1, s', k, n)
  {
    var draws: Draws := _ => env;
    BindingTalks(policy, s, k, n, token, r, Status(word, Some(0)), env);
    s' := ProgressComes(policy, s1, k, n, token, r, r, word, env, draws);
    BindingComes(policy, s, k, n, token, r, Status(word, Some(0)), env, draws, s');
    ReachComes(policy, s, CallbackResolve(token, r, Status(word, Some(0))), draws, s');
  }

  /** The call of the attempt at position n is in progress in an open case. */
  predicate Talking(s: Store, k: CaseKey, n: nat, token: Token, stored: Reference) {
    && Bound(s, k, n, token, stored)
    && !s.files[k].record.status.Terminal() && !s.files[k].slots[n].attempt.status.Terminal()
  }

  predicate SameButOne(s: Store, s': Store, k: CaseKey, n: nat) {
    && k in s.files && k in s'.files && |s'.files[k].slots| == |s.files[k].slots|
    && (forall i :: 0 <= i < |s.files[k].slots| && i != n ==> s'.files[k].slots[i] == s.files[k].slots[i])
    && (forall i :: 0 <= i < |s.files[k].slots| ==>
          s'.files[k].slots[i].attempt.identity == s.files[k].slots[i].attempt.identity)
  }

  // ---------- a call in progress ----------

  /** A progress status callback for a call in progress. */
  lemma ProgressReaches(
    policy: Policy, s: Store, k: CaseKey, n: nat, token: Token, stored: Reference, r: Reference, word: ProviderWord,
    env: Env) returns (s': Store)
    requires CanReach(policy, s) && Talking(s, k, n, token, stored) && stored.Matches(r) && !r.Blank()
    requires !word.Ends() && !s.Logged(k.tenantId, StatusKey(r, word))
    ensures CanReach(policy, s') && Talking(s', k, n, token, stored)
    ensures Moved(s, s', k, StatusKey(r, word)) && SameButOne(s, s', k, n)
  {
    var draws: Draws := _ => env;
    ReachableFacts(policy, s);
    s' := ProgressComes(policy, s, k, n, token, stored, r, word, env, draws);
    ResolvedComes(policy, s, k, n, token, stored, r, Status(word, Some(0)), draws, s');
    ReachComes(policy, s, CallbackResolve(token, r, Status(word, Some(0))), draws, s');
  }

  /** The call that was completed without a key-press: its attempt ended unacknowledged. */
  predicate Hung(s: Store, s': Store, k: CaseKey, n: nat) {
    && SameButOne(s, s', k, n) && n < |s.files[k].slots|
    && s'.files[k].slots[n].attempt.status.Unacknowledged?
    && s'.files[k].record.status == UnacknowledgedStatus(s.files[k].slots[n].attempt.identity.sequence)
  }

  /** The end of a call in progress, without an acknowledgement. */
  lemma EndReaches(
    policy: Policy, s: Store, k: CaseKey, n: nat, token: Token, stored: Reference, r: Reference, env: Env)
    returns (s': Store)
    requires CanReach(policy, s) && Talking(s, k, n, token, stored) && stored.Matches(r) && !r.Blank()
    requires !s.Logged(k.tenantId, StatusKey(r, Completed))
    ensures CanReach(policy, s') && Bound(s', k, n, token, stored)
    ensures Moved(s, s', k, StatusKey(r, Completed)) && Hung(s, s', k, n)
  {
    s' := CallbackReaches(policy, s, k, n, token, stored, r, Status(Completed, Some(0)), env);
  }

  /** A key-press for a call of a case that has not been closed for good. */
  lemma PressReaches(
    policy: Policy, s: Store, k: CaseKey, n: nat, token: Token, stored: Reference, r: Reference, env: Env)
    returns (s': Store)
    requires CanReach(policy, s) && Bound(s, k, n, token, stored) && stored.Matches(r) && !r.Blank()
    requires !s.files[k].record.status.Absorbing() && !s.Logged(k.tenantId, GatherKey(r, One))
    ensures CanReach(policy, s') && Moved(s, s', k, GatherKey(r, One)) && SameButOne(s, s', k, n)
    ensures s'.files[k].record.status.Acknowledged? && Bound(s', k, n, token, stored)
  {
    s' := CallbackReaches(policy, s, k, n, token, stored, r, Gather(One, Some(0)), env);
  }

  // ---------- a new attempt ----------

  /** The next attempt of a case may be reserved. */
  predicate MayReserve(s: Store, k: CaseKey, env: Env) {
    && k in s.files && |s.files[k].slots| < 3
    && !s.files[k].record.status.Terminal() && s.files[k].record.Due(env.now)
    && LastOpen(AttemptsOf(s.files[k].slots)) == |s.files[k].slots|
    && AttemptKey(k.tenantId, env.freshId) !in s.placed && env.token !in s.callbacks
  }

  /** What a dispatch leaves behind once it has reserved an attempt. */
  function ReservedStore(s: Store, k: CaseKey, env: Env): Store
    requires k in s.files
  {
    var address, event := Address(k, |s.files[k].slots|), ReserveEvent(k, env);
    Commit(s, k, Extend(s.files[k], env.freshId, env.token, env.now, event), event)
      .(placed := s.placed[AttemptKey(k.tenantId, env.freshId) := address],
        callbacks := s.callbacks[env.token := address])
  }

  lemma ReservesNow(s: Store, k: CaseKey, env: Env)
    requires Consistent(s) && MayReserve(s, k, env)
    ensures var s1, n := ReservedStore(s, k, env), |s.files[k].slots|;
            && ActDispatchGet(s, k) == Move(s, DispatchReserve(k))
            && ActDispatchReserve(s, k, env)
               == Move(s1, DispatchClaim(k, s1.files[k].slots[n].attempt, env.now))
  {
    assert s.files[k].record.Key() == k;
  }

  lemma ReserveComes(policy: Policy, s: Store, k: CaseKey, env: Env, draws: Draws)
    requires Consistent(s) && MayReserve(s, k, env)
    requires env == draws(DispatchGet(k)) == draws(DispatchReserve(k))
    ensures Comes(policy, s, DispatchGet(k), draws, ReservedStore(s, k, env))
  {
    ReservesNow(s, k, env);
    ActionComes(policy, s, DispatchReserve(k), draws, ActDispatchReserve(s, k, env));
    ComesAfter(policy, s, DispatchGet(k), draws, ActDispatchGet(s, k), ReservedStore(s, k, env));
  }

  lemma ReserveReaches(policy: Policy, s: Store, k: CaseKey, env: Env)
    requires CanReach(policy, s) && MayReserve(s, k, env)
    ensures CanReach(policy, ReservedStore(s, k, env))
  {
    var draws: Draws := _ => env;
    ReachableFacts(policy, s);
    ReserveComes(policy, s, k, env, draws);
    ReachComes(policy, s, DispatchGet(k), draws, ReservedStore(s, k, env));
  }

  /** The attempt at position n is the last, and its call may be claimed now. */
  predicate Undialed(s: Store, k: CaseKey, n: nat, token: Token, now: Time) {
    && k in s.files && |s.files[k].slots| == n + 1
    && token in s.callbacks && s.callbacks[token] == Address(k, n)
    && s.files[k].slots[n].attempt.reference.None? && s.files[k].slots[n].submission.state.Pending?
    && s.files[k].slots[n].attempt.status.AwaitingProvider()
    && !s.files[k].record.status.Terminal() && s.files[k].record.Due(now)
  }

  /** The case has one attempt more. */
  predicate Reserves(s: Store, s': Store, k: CaseKey, env: Env) {
    && k in s.files && k in s'.files && |s'.files[k].slots| == |s.files[k].slots| + 1
    && s'.files[k].slots[..|s.files[k].slots|] == s.files[k].slots
    && s'.files[k].slots[|s.files[k].slots|].attempt.identity.sequence == |s.files[k].slots| + 1
    && s'.files[k].slots[|s.files[k].slots|].attempt.identity.attemptId == env.freshId
    && s'.files[k].record.version == s.files[k].record.version + 1
    && Retries(s'.files[k].log) == Retries(s.files[k].log)
    && s'.placed.Keys == s.placed.Keys + {AttemptKey(k.tenantId, env.freshId)}
    && s'.callbacks == s.callbacks[env.token := Address(k, |s.files[k].slots|)]
    && s'.dedupe == s.dedupe + {DedupeEntry(k.tenantId, AttemptReservedKey(k.tenantId, k.caseId, env.freshId))}
    && Undialed(s', k, |s.files[k].slots|, env.token, env.now)
  }

  lemma ReserveFacts(s: Store, k: CaseKey, env: Env)
    requires MayReserve(s, k, env)
    ensures Reserves(s, ReservedStore(s, k, env), k, env)
  {
    RetriesAppend(s.files[k].log, ReserveEvent(k, env));
  }

  // ---------- a claimed call ----------

  /** The contact may be called and the claim holds for a while. */
  predicate MayDial(policy: Policy, env: Env) {
    env.contactReady && env.claimToken.Some? && policy.submissionTimeout > 0
  }

  /** What a dispatch leaves behind once it has claimed the submission of an attempt. */
  function ClaimedStore(policy: Policy, s: Store, k: CaseKey, n: nat, env: Env): Store
    requires k in s.files && n < |s.files[k].slots|
  {
    s.(files := s.files[
         k := ClaimFile(s.files[k], n, env.claimToken, env.now, env.now + policy.submissionTimeout)])
  }

  /** The point at which a dispatch found the open attempt of its case. */
  function ReservedAt(s: Store, k: CaseKey, n: nat, env: Env): Program
    requires k in s.files && n < |s.files[k].slots|
  {
    DispatchClaim(k, s.files[k].slots[n].attempt, env.now)
  }

  /** The point at which a dispatch has claimed the call. */
  function ClaimedAt(policy: Policy, s: Store, k: CaseKey, n: nat, env: Env): Program
    requires k in s.files && n < |s.files[k].slots|
  {
    var file := ClaimedStore(policy, s, k, n, env).files[k];
    DispatchPlace(file.record, file.slots[n].attempt, env.claimToken, env.now)
  }

  lemma FindsOpen(s: Store, k: CaseKey, n: nat, token: Token, env: Env)
    requires s.Indexed() && Undialed(s, k, n, token, env.now)
    ensures ActDispatchGet(s, k) == Move(s, DispatchReserve(k))
    ensures ActDispatchReserve(s, k, env) == Move(s, ReservedAt(s, k, n, env))
  {
    assert AttemptsOf(s.files[k].slots)[n] == s.files[k].slots[n].attempt;
  }

  lemma ClaimsNow(policy: Policy, s: Store, k: CaseKey, n: nat, token: Token, env: Env)
    requires Consistent(s) && Undialed(s, k, n, token, env.now) && MayDial(policy, env)
    ensures var move := ActDispatchClaim(policy, s, k, s.files[k].slots[n].attempt, env.now, env);
            move.store == ClaimedStore(policy, s, k, n, env) && move.next == ClaimedAt(policy, s, k, n, env)
  {
    assert Filed(s, k, n) && s.files[k].record.Key() == k;
  }

  /** A dispatch that finds the open attempt comes to whatever its claim comes to. */
  lemma FindComes(policy: Policy, s: Store, k: CaseKey, n: nat, token: Token, env: Env, draws: Draws, s': Store)
    requires s.Indexed() && Undialed(s, k, n, token, env.now)
    requires env == draws(DispatchGet(k)) == draws(DispatchReserve(k))
    requires Comes(policy, s, ReservedAt(s, k, n, env), draws, s')
    ensures Comes(policy, s, DispatchGet(k), draws, s')
  {
    FindsOpen(s, k, n, token, env);
    ComesAfter(policy, s, DispatchReserve(k), draws, ActDispatchReserve(s, k, env), s');
    ComesAfter(policy, s, DispatchGet(k), draws, ActDispatchGet(s, k), s');
  }

  lemma ClaimActs(policy: Policy, s: Store, k: CaseKey, n: nat, token: Token, env: Env)
    requires Consistent(s) && Undialed(s, k, n, token, env.now) && MayDial(policy, env)
    ensures var move := Act(policy, s, ReservedAt(s, k, n, env), env);
            move.store == ClaimedStore(policy, s, k, n, env) && move.next == ClaimedAt(policy, s, k, n, env)
  {
    ClaimsNow(policy, s, k, n, token, env);
  }

  /** A dispatch of an undialed attempt comes to whatever the claimed call comes to. */
  lemma ClaimComes(policy: Policy, s: Store, k: CaseKey, n: nat, token: Token, env: Env, draws: Draws, s': Store)
    requires Consistent(s) && Undialed(s, k, n, token, env.now) && MayDial(policy, env)
    requires env == draws(DispatchGet(k)) == draws(DispatchReserve(k)) == draws(ReservedAt(s, k, n, env))
    requires Comes(policy, ClaimedStore(policy, s, k, n, env), ClaimedAt(policy, s, k, n, env), draws, s')
    ensures Comes(policy, s, DispatchGet(k), draws, s')
  {
    var p := ReservedAt(s, k, n, env);
    ClaimActs(policy, s, k, n, token, env);
    ComesAfter(policy, s, p, draws, Act(policy, s, p, env), s');
    FindComes(policy, s, k, n, token, env, draws, s');
  }

  lemma ClaimReaches(policy: Policy, s: Store, k: CaseKey, n: nat, token: Token, env: Env)
    requires CanReach(policy, s) && Undialed(s, k, n, token, env.now) && MayDial(policy, env)
    ensures CanReach(policy, ClaimedStore(policy, s, k, n, env))
  {
    var draws: Draws := _ => env;
    ReachableFacts(policy, s);
    ComesNow(policy, ClaimedStore(policy, s, k, n, env), ClaimedAt(policy, s, k, n, env), draws);
    ClaimComes(policy, s, k, n, token, env, draws, ClaimedStore(policy, s, k, n, env));
    ReachComes(policy, s, DispatchGet(k), draws, ClaimedStore(policy, s, k, n, env));
  }

  /** The call of the last attempt is claimed, for one version, and nothing is logged. */
  predicate Claims(s: Store, s': Store, k: CaseKey, n: nat, token: Token) {
    && SameButOne(s, s', k, n)
    && s'.files[k].record.version == s.files[k].record.version + 1
    && s'.files[k].log == s.files[k].log
    && s'.placed == s.placed && s'.callbacks == s.callbacks && s'.dedupe == s.dedupe
    && Awaiting(s', k, n, token)
  }

  lemma ClaimFacts(policy: Policy, s: Store, k: CaseKey, n: nat, token: Token, env: Env)
    requires Undialed(s, k, n, token, env.now) && MayDial(policy, env)
    ensures Claims(s, ClaimedStore(policy, s, k, n, env), k, n, token)
  {
  }

  // ---------- a refused call ----------

  function RefusalPlan(s: Store, k: CaseKey, n: nat, code: Code, env: Env): Plan
    requires k in s.files && n < |s.files[k].slots|
  {
    MarkProviderRetry(s.files[k].record, s.files[k].slots[n].attempt, env.now, code, env.eventId)
  }

  /** What the record of a definite refusal makes of a store in which the call is claimed. */
  function RefusedStore(s: Store, k: CaseKey, n: nat, code: Code, env: Env): Store
    requires k in s.files && n < |s.files[k].slots|
  {
    var plan := RefusalPlan(s, k, n, code, env);
    Commit(s, k, Amend(s.files[k], n, plan.record, Slot(plan.attempt, FRESH_SUBMISSION), plan.event), plan.event)
  }

  /** The call at position n is claimed under this environment's token. */
  predicate ClaimedBy(s: Store, k: CaseKey, n: nat, env: Env) {
    && k in s.files && n < |s.files[k].slots|
    && s.files[k].slots[n].submission.state.Claimed?
    && s.files[k].slots[n].submission.owner == Some(ClaimDigest(env.claimToken))
    && s.files[k].slots[n].attempt.reference.None?
  }

  /** The point at which the provider has refused the call. */
  function RefusedAt(s: Store, k: CaseKey, n: nat, code: Code, env: Env): Program
    requires k in s.files && n < |s.files[k].slots|
  {
    DispatchRefused(s.files[k].record, s.files[k].slots[n].attempt, env.claimToken, env.now, code)
  }

  lemma RefusesNow(policy: Policy, s: Store, k: CaseKey, n: nat, code: Code, env: Env)
    requires Consistent(s) && ClaimedBy(s, k, n, env)
    requires !s.Logged(k.tenantId, RefusalPlan(s, k, n, code, env).event.key)
    ensures Runnable(s, RefusedAt(s, k, n, code, env))
    ensures Act(policy, s, RefusedAt(s, k, n, code, env), env).store == RefusedStore(s, k, n, code, env)
  {
    assert Filed(s, k, n) && s.files[k].record.Key() == k;
  }

  /** From a claimed call to the record of its refusal. */
  lemma RefusalComes(policy: Policy, s: Store, k: CaseKey, n: nat, code: Code, env: Env, draws: Draws)
    requires Consistent(s) && ClaimedBy(s, k, n, env) && env.provider == Refused(code)
    requires !s.Logged(k.tenantId, RefusalPlan(s, k, n, code, env).event.key)
    requires forall p :: draws(p) == env
    ensures Comes(policy, s,
                  DispatchPlace(s.files[k].record, s.files[k].slots[n].attempt, env.claimToken, env.now), draws,
                  RefusedStore(s, k, n, code, env))
  {
    var place := DispatchPlace(s.files[k].record, s.files[k].slots[n].attempt, env.claimToken, env.now);
    RefusesNow(policy, s, k, n, code, env);
    ActionComes(policy, s, RefusedAt(s, k, n, code, env), draws, Act(policy, s, RefusedAt(s, k, n, code, env), env));
    ComesAfter(policy, s, place, draws, Act(policy, s, place, env), RefusedStore(s, k, n, code, env));
  }

  lemma RefusalReaches(policy: Policy, s: Store, k: CaseKey, n: nat, token: Token, code: Code, env: Env)
    requires CanReach(policy, s) && Undialed(s, k, n, token, env.now) && MayDial(policy, env)
    requires env.provider == Refused(code)
    requires !s.Logged(k.tenantId, RefusalPlan(ClaimedStore(policy, s, k, n, env), k, n, code, env).event.key)
    ensures CanReach(policy, RefusedStore(ClaimedStore(policy, s, k, n, env), k, n, code, env))
  {
    var draws: Draws := _ => env;
    var s1 := ClaimedStore(policy, s, k, n, env);
    ReachableFacts(policy, s);
    ClaimReaches(policy, s, k, n, token, env);
    ReachableFacts(policy, s1);
    RefusalComes(policy, s1, k, n, code, env, draws);
    ClaimComes(policy, s, k, n, token, env, draws, RefusedStore(s1, k, n, code, env));
    ReachComes(policy, s, DispatchGet(k), draws, RefusedStore(s1, k, n, code, env));
  }

  /** A refusal cost two versions and left the attempt undialed. */
  predicate Refuses(s: Store, s': Store, k: CaseKey, n: nat, token: Token, now: Time) {
    && SameButOne(s, s', k, n) && n < |s.files[k].slots|
    && s'.files[k].record.version == s.files[k].record.version + 2
    && s'.files[k].slots[n].attempt.version == s.files[k].slots[n].attempt.version + 2
    && Retries(s'.files[k].log) == Retries(s.files[k].log) + 1
    && s'.placed == s.placed && s'.callbacks == s.callbacks
    && s'.dedupe
       == s.dedupe + {DedupeEntry(k.tenantId, ProviderRetryKey(s.files[k].slots[n].attempt.identity.attemptId,
                                                               s.files[k].slots[n].attempt.version + 2))}
    && Undialed(s', k, n, token, now)
  }

  lemma RefusalFacts(policy: Policy, s: Store, k: CaseKey, n: nat, token: Token, code: Code, env: Env)
    requires Undialed(s, k, n, token, env.now)
    ensures Refuses(s, RefusedStore(ClaimedStore(policy, s, k, n, env), k, n, code, env), k, n, token, env.now)
  {
    RetriesAppend(s.files[k].log, RefusalPlan(ClaimedStore(policy, s, k, n, env), k, n, code, env).event);
  }

  // ---------- a new case ----------

  /** The store with one newly authorized case. */
  function FirstStore(policy: Policy, request: AuthRequest, contacts: Contacts, env: Env): Store {
    var record := NewCase(request, contacts, env.policyVersion, policy.retryDelay, env);
    var event := EventFor(record, env.eventId, None, EventKind.Authorized, env.now,
                          AuthorizedKey(request.incident.tenantId, request.idempotencyKey), None);
    Commit(EMPTY, record.Key(), CaseFile(record, [], [event]), event)
      .(idempotency := map[request.Scope() := env.freshId])
  }

  lemma FirstReaches(policy: Policy, request: AuthRequest, env: Env)
    requires request.Approved() && request.wellFormed
    requires env.contacts.Some? && env.contacts.value.primary != env.contacts.value.supervisor
    ensures CanReach(policy, FirstStore(policy, request, env.contacts.value, env))
  {
    var draws: Draws := _ => env;
    assert Execute(policy, []).store == EMPTY;
    var create := Act(policy, EMPTY, AuthCreate(request), env);
    assert create.store == FirstStore(policy, request, env.contacts.value, env);
    ActionComes(policy, EMPTY, AuthCreate(request), draws, create);
    ComesAfter(policy, EMPTY, AuthFind(request), draws, ActAuthFind(EMPTY, request), create.store);
    ReachComes(policy, EMPTY, AuthFind(request), draws, create.store);
  }
}
