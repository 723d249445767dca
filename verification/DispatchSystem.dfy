/**
  The whole dispatch system: one repository and any number of coordinator
  methods running over it, in any interleaving.  A run is a sequence of inputs;
  each input starts a method or lets one running method take its next action.
  A method that is never scheduled again has crashed.
*/
module DispatchSystem {
  import opened Wrappers
  import opened DispatchModels
  import opened DispatchStore
  import opened DispatchCoordinator
  import opened CaseAutomaton
  import opened CaseHistory
  import opened DispatchRefinement
  import opened DispatchActions

  datatype Cancellation = Cancellation(key: AttemptKey, reference: Reference)

  /** What a case was created for. */
  datatype Origin = Origin(request: AuthRequest, contacts: Contacts)

  /**
    Besides the repository and the running programs, the system remembers who
    took each claim, how many calls for an attempt may have reached the
    provider, which calls the provider agreed to cancel, and the request and
    contacts each case was created for.
  */
  datatype System = System(
    store: Store,
    programs: map<nat, Program>,
    holder: map<AttemptKey, nat>,
    calls: map<AttemptKey, nat>,
    canceled: set<Cancellation>,
    origin: map<CaseKey, Origin>)
  {
    function Calls(ak: AttemptKey): nat {
      if ak in calls then calls[ak] else 0
    }
  }

  const INITIAL := System(EMPTY, map[], map[], map[], {}, map[])

  datatype Input = Start(pid: nat, program: Program) | Run(pid: nat, env: Env)

  /** What an action does outside the repository. */
  datatype Effect =
    | NoEffect
    | TookClaim(key: AttemptKey)
    | MayHaveReached(key: AttemptKey)
    | CanceledCall(key: AttemptKey, reference: Reference)
    | CreatedCase(home: CaseKey, origin: Origin)

  /**
    What an observer of the repository, the provider and the directory sees of
    one action: the provider was asked for a call and did not refuse it, it
    agreed to cancel a call, or a case appeared.
  */
  function Observed(s: Store, p: Program, env: Env, move: Move): Effect {
    match p
    case DispatchClaim(k, attempt, _) =>
      if move.next.DispatchPlace? then TookClaim(AttemptKey(k.tenantId, attempt.identity.attemptId)) else NoEffect
    case DispatchPlace(_, attempt, _, _) =>
      if env.provider.Refused? then NoEffect else MayHaveReached(attempt.Key())
    case CancelCall(_, attempt, _) =>
      if env.cancelAccepted && attempt.reference.Some? then CanceledCall(attempt.Key(), attempt.reference.value)
      else NoEffect
    case AuthCreate(request) =>
      var k := CaseKey(request.incident.tenantId, env.freshId);
      if move.store != s && env.contacts.Some? then CreatedCase(k, Origin(request, env.contacts.value)) else NoEffect
    case _ => NoEffect
  }

  function Record(sys: System, pid: nat, effect: Effect): System {
    match effect
    case NoEffect => sys
    case TookClaim(ak) => sys.(holder := sys.holder[ak := pid])
    case MayHaveReached(ak) => sys.(calls := sys.calls[ak := sys.Calls(ak) + 1])
    case CanceledCall(ak, reference) => sys.(canceled := sys.canceled + {Cancellation(ak, reference)})
    case CreatedCase(k, origin) => sys.(origin := sys.origin[k := origin])
  }

  function RunAction(policy: Policy, sys: System, pid: nat, env: Env): System
    requires pid in sys.programs && Runnable(sys.store, sys.programs[pid])
  {
    var move := Act(policy, sys.store, sys.programs[pid], env);
    Record(sys.(store := move.store, programs := sys.programs[pid := move.next]), pid,
           Observed(sys.store, sys.programs[pid], env, move))
  }

  ghost predicate Ready(sys: System) {
    forall pid :: pid in sys.programs ==> Runnable(sys.store, sys.programs[pid])
  }

  /** One step.  That every running program may act is part of the invariant below. */
  ghost function Step(policy: Policy, sys: System, input: Input): System {
    match input
    case Start(pid, program) =>
      if pid in sys.programs || !program.Initial() then sys
      else sys.(programs := sys.programs[pid := program])
    case Run(pid, env) =>
      if pid in sys.programs && Runnable(sys.store, sys.programs[pid]) then RunAction(policy, sys, pid, env) else sys
  }

  // ---------- the core invariant ----------

  ghost predicate AllOk(s: Store, programs: map<nat, Program>) {
    forall pid :: pid in programs ==> ProgramOk(s, programs[pid])
  }

  ghost predicate Core(policy: Policy, sys: System) {
    Sound(policy, sys.store) && AllOk(sys.store, sys.programs)
  }

  lemma CoreReady(policy: Policy, sys: System)
    requires Core(policy, sys)
    ensures Ready(sys)
  {
    forall pid | pid in sys.programs ensures Runnable(sys.store, sys.programs[pid]) {
      OkIsRunnable(sys.store, sys.programs[pid]);
    }
  }

  /** A new, empty case file under a new idempotency scope. */
  predicate Opens(s: Store, s': Store, record: DispatchCase, scope: IdempotencyScope, event: DispatchEvent) {
    var k := record.Key();
    && k !in s.files
    && scope !in s.idempotency
    && scope.tenantId == k.tenantId
    && EventFits(event, record, None)
    && event.key == AuthorizedKey(scope.tenantId, scope.key)
    && record.status.Queued? && record.attemptCount == 0 && record.WellFormed()
    && s' == s.(files := s.files[k := CaseFile(record, [], [event])],
                idempotency := s.idempotency[scope := k.caseId],
                dedupe := s.dedupe + {DedupeEntry(k.tenantId, event.key)})
  }

  function CreatedRecord(policy: Policy, p: Program, env: Env): DispatchCase
    requires p.AuthCreate? && env.contacts.Some?
  {
    NewCase(p.request, env.contacts.value, env.policyVersion, policy.retryDelay, env)
  }

  function CreatedEvent(policy: Policy, p: Program, env: Env): DispatchEvent
    requires p.AuthCreate? && env.contacts.Some?
  {
    EventFor(CreatedRecord(policy, p, env), env.eventId, None, EventKind.Authorized, env.now,
             AuthorizedKey(p.request.incident.tenantId, p.request.idempotencyKey), None)
  }

  predicate Creates(policy: Policy, s: Store, p: Program, env: Env, s': Store)
    requires p.AuthCreate?
  {
    && env.contacts.Some?
    && Opens(s, s', CreatedRecord(policy, p, env), p.request.Scope(), CreatedEvent(policy, p, env))
  }

  lemma CreateOpens(policy: Policy, s: Store, p: Program, env: Env)
    requires s.Indexed() && p.AuthCreate?
    ensures var s' := ActAuthCreate(policy, s, p.request, env).store;
            s' == s || Creates(policy, s, p, env, s')
  {
  }

  lemma OpensConsistent(
    policy: Policy, s: Store, s': Store, record: DispatchCase, scope: IdempotencyScope, event: DispatchEvent)
    requires Consistent(s) && Opens(s, s', record, scope, event)
    ensures Consistent(s') && StoreEvolves(s, s')
  {
    assert forall a :: s.Points(a) ==> s'.Points(a) && s'.At(a) == s.At(a);
    forall k, i | k in s'.files && 0 <= i < |s'.files[k].slots| ensures Filed(s', k, i) {
      assert Filed(s, k, i);
    }
  }

  lemma OpensSound(
    policy: Policy, s: Store, s': Store, record: DispatchCase, scope: IdempotencyScope, event: DispatchEvent)
    requires Sound(policy, s) && Opens(s, s', record, scope, event)
    ensures Sound(policy, s') && StoreEvolves(s, s')
  {
    OpensConsistent(policy, s, s', record, scope, event);
    NewFileLadder(policy, record, event);
  }

  /** How one action changes the store. */
  ghost predicate Changes(policy: Policy, s: Store, p: Program, env: Env, s': Store) {
    || s' == s
    || (Writes(p) && Enacts(policy, s, s', Intent(policy, s, p, env).home, Intent(policy, s, p, env).move))
    || (p.AuthCreate? && Creates(policy, s, p, env, s'))
  }

  lemma ActChanges(policy: Policy, s: Store, p: Program, env: Env)
    requires Sound(policy, s) && ProgramOk(s, p) && Runnable(s, p)
    ensures Changes(policy, s, p, env, Act(policy, s, p, env).store)
  {
    if Writes(p) {
      ActMoves(policy, s, p, env);
    } else if p.AuthCreate? {
      CreateOpens(policy, s, p, env);
    } else {
      ReadsOnly(policy, s, p, env);
    }
  }

  lemma Unmoved(s: Store)
    ensures StoreEvolves(s, s)
  {
  }

  /** Every change keeps the store sound and lets every file evolve. */
  lemma ChangesSound(policy: Policy, s: Store, p: Program, env: Env, s': Store)
    requires Sound(policy, s) && Changes(policy, s, p, env, s')
    ensures Sound(policy, s') && StoreEvolves(s, s')
  {
    if s' == s {
      Unmoved(s);
    } else if Writes(p) {
      var target := Intent(policy, s, p, env);
      EnactsSound(policy, s, s', target.home, target.move);
      EnactsEvolves(policy, s, s', target.home, target.move);
    } else {
      OpensSound(policy, s, s', CreatedRecord(policy, p, env), p.request.Scope(), CreatedEvent(policy, p, env));
    }
  }

  /** One action: the store stays sound, and the program knows what is true. */
  lemma ActSound(policy: Policy, s: Store, p: Program, env: Env)
    requires Sound(policy, s) && ProgramOk(s, p) && Runnable(s, p)
    ensures var move := Act(policy, s, p, env);
            Sound(policy, move.store) && StoreEvolves(s, move.store) && ProgramOk(move.store, move.next)
  {
    ActChanges(policy, s, p, env);
    ChangesSound(policy, s, p, env, Act(policy, s, p, env).store);
    ActKnows(policy, s, p, env);
  }

  lemma OthersStable(s: Store, s': Store, programs: map<nat, Program>, pid: nat, next: Program)
    requires AllOk(s, programs) && StoreEvolves(s, s') && ProgramOk(s', next)
    ensures AllOk(s', programs[pid := next])
  {
    var programs' := programs[pid := next];
    forall q | q in programs' ensures ProgramOk(s', programs'[q]) {
      if q != pid {
        ProgramStable(s, s', programs[q]);
      }
    }
  }

  lemma RecordKeeps(sys: System, pid: nat, effect: Effect)
    ensures Record(sys, pid, effect).store == sys.store && Record(sys, pid, effect).programs == sys.programs
  {
  }

  lemma RunCore(policy: Policy, sys: System, pid: nat, env: Env)
    requires Core(policy, sys) && Ready(sys) && pid in sys.programs
    ensures Core(policy, RunAction(policy, sys, pid, env))
    ensures StoreEvolves(sys.store, RunAction(policy, sys, pid, env).store)
  {
    var move := Act(policy, sys.store, sys.programs[pid], env);
    ActSound(policy, sys.store, sys.programs[pid], env);
    OthersStable(sys.store, move.store, sys.programs, pid, move.next);
    RecordKeeps(sys.(store := move.store, programs := sys.programs[pid := move.next]), pid,
                Observed(sys.store, sys.programs[pid], env, move));
  }
}
