/**
  Concurrent authorization: one case per tenant and idempotency key, created
  from an approved request, and returned to every request that repeats it.
*/
module DispatchAuthorization {
  import opened Wrappers
  import opened DispatchModels
  import opened DispatchStore
  import opened DispatchCoordinator
  import opened CaseAutomaton
  import opened CaseHistory
  import opened DispatchRefinement
  import opened DispatchActions
  import opened DispatchSystem

  /** The fixed part of a case is what its request and the directory said. */
  predicate ComesFrom(identity: CaseIdentity, origin: Origin) {
    var request := origin.request;
    && request.Approved() && request.wellFormed
    && identity.tenantId == request.incident.tenantId
    && identity.fingerprint == request.Print()
    && identity.idempotencyKeyHash == KeyDigest(request.idempotencyKey)
    && identity.zoneId == request.incident.zoneId
    && identity.caseReference == request.incident.caseReference
    && identity.category == request.incident.category
    && identity.broadLocationLabel == request.incident.broadLocationLabel
    && identity.occurredAt == request.incident.occurredAt
    && identity.primaryContactId == origin.contacts.primary
    && identity.supervisorContactId == origin.contacts.supervisor
    && origin.contacts.primary != origin.contacts.supervisor
  }

  predicate Registered(s: Store, origin: map<CaseKey, Origin>, k: CaseKey)
    requires k in s.files
  {
    && k in origin
    && ComesFrom(s.files[k].record.identity, origin[k])
    && origin[k].request.Scope() in s.idempotency
    && s.idempotency[origin[k].request.Scope()] == k.caseId
  }

  /** Cases and idempotency scopes correspond one to one. */
  ghost predicate AllRegistered(s: Store, origin: map<CaseKey, Origin>) {
    && (forall k :: k in s.files ==> k.tenantId == s.files[k].record.identity.tenantId && Registered(s, origin, k))
    && (forall scope :: scope in s.idempotency ==>
          var k := CaseKey(scope.tenantId, s.idempotency[scope]);
          k in s.files && k in origin && origin[k].request.Scope() == scope)
  }

  predicate Vetted(p: Program) {
    p.AuthCreate? ==> p.request.Approved() && p.request.wellFormed
  }

  ghost predicate AllVetted(programs: map<nat, Program>) {
    forall pid :: pid in programs ==> Vetted(programs[pid])
  }

  ghost predicate AuthOk(sys: System) {
    AllRegistered(sys.store, sys.origin) && AllVetted(sys.programs)
  }

  function AfterOrigin(origin: map<CaseKey, Origin>, effect: Effect): map<CaseKey, Origin> {
    if effect.CreatedCase? then origin[effect.home := effect.origin] else origin
  }

  lemma EnactsRegistered(
    policy: Policy, s: Store, s': Store, k: CaseKey, m: CaseMove, origin: map<CaseKey, Origin>)
    requires Enacts(policy, s, s', k, m) && AllRegistered(s, origin)
    ensures AllRegistered(s', origin)
  {
    MoveEvolves(policy, m, s.files[k]);
    forall k' | k' in s'.files
      ensures k'.tenantId == s'.files[k'].record.identity.tenantId && Registered(s', origin, k')
    {
      assert Registered(s, origin, k');
    }
  }

  lemma CreatesRegistered(
    policy: Policy, s: Store, p: Program, env: Env, s': Store, origin: map<CaseKey, Origin>)
    requires p.AuthCreate? && Creates(policy, s, p, env, s') && Vetted(p) && AllRegistered(s, origin)
    requires env.contacts.value.primary != env.contacts.value.supervisor
    ensures AllRegistered(s', origin[CreatedRecord(policy, p, env).Key() := Origin(p.request, env.contacts.value)])
  {
    var k := CreatedRecord(policy, p, env).Key();
    var origin' := origin[k := Origin(p.request, env.contacts.value)];
    forall k' | k' in s'.files
      ensures k'.tenantId == s'.files[k'].record.identity.tenantId && Registered(s', origin', k')
    {
      if k' != k {
        assert Registered(s, origin, k');
      }
    }
  }

  /** What the run sees of an action is a creation exactly when a case was created. */
  predicate OriginSeen(policy: Policy, s: Store, p: Program, env: Env, s': Store, effect: Effect) {
    && (effect.CreatedCase? <==> p.AuthCreate? && s' != s)
    && (effect.CreatedCase? ==>
          && env.contacts.Some? && env.contacts.value.primary != env.contacts.value.supervisor
          && effect.home == CreatedRecord(policy, p, env).Key()
          && effect.origin == Origin(p.request, env.contacts.value))
  }

  lemma ActOrigin(policy: Policy, s: Store, p: Program, env: Env)
    requires Runnable(s, p)
    ensures var move := Act(policy, s, p, env);
            OriginSeen(policy, s, p, env, move.store, Observed(s, p, env, move)) && Vetted(move.next)
  {
    if p.AuthCreate? {
      CreateEffect(policy, s, p, env);
    }
  }

  lemma CreateEffect(policy: Policy, s: Store, p: Program, env: Env)
    requires s.Indexed() && p.AuthCreate?
    ensures var move := ActAuthCreate(policy, s, p.request, env);
            OriginSeen(policy, s, p, env, move.store, Observed(s, p, env, move))
  {
    CreateOpens(policy, s, p, env);
  }

  lemma RunAuth(policy: Policy, sys: System, pid: nat, env: Env)
    requires Core(policy, sys) && Ready(sys) && pid in sys.programs && AuthOk(sys)
    ensures AuthOk(RunAction(policy, sys, pid, env))
  {
    var s, p := sys.store, sys.programs[pid];
    var move := Act(policy, s, p, env);
    ActChanges(policy, s, p, env);
    ActOrigin(policy, s, p, env);
    ChangesRegistered(policy, s, p, env, move.store, Observed(s, p, env, move), sys.origin);
    NextVetted(sys.programs, pid, move.next);
    var sys0 := sys.(store := move.store, programs := sys.programs[pid := move.next]);
    RecordKeeps(sys0, pid, Observed(s, p, env, move));
    RecordOrigin(sys0, pid, Observed(s, p, env, move));
  }

  lemma NextVetted(programs: map<nat, Program>, pid: nat, next: Program)
    requires AllVetted(programs) && Vetted(next)
    ensures AllVetted(programs[pid := next])
  {
  }

  lemma RecordOrigin(sys: System, pid: nat, effect: Effect)
    ensures Record(sys, pid, effect).origin == AfterOrigin(sys.origin, effect)
  {
  }

  lemma ChangesRegistered(
    policy: Policy, s: Store, p: Program, env: Env, s': Store, effect: Effect, origin: map<CaseKey, Origin>)
    requires Changes(policy, s, p, env, s') && AllRegistered(s, origin) && Vetted(p)
    requires OriginSeen(policy, s, p, env, s', effect)
    ensures AllRegistered(s', AfterOrigin(origin, effect))
  {
    if s' != s && Writes(p) {
      var target := Intent(policy, s, p, env);
      EnactsRegistered(policy, s, s', target.home, target.move, origin);
    } else if s' != s {
      CreatesRegistered(policy, s, p, env, s', origin);
    }
  }

  /** Two cases created for the same tenant and key are the same case. */
  lemma OneCasePerKey(s: Store, origin: map<CaseKey, Origin>, k1: CaseKey, k2: CaseKey)
    requires AllRegistered(s, origin) && k1 in s.files && k2 in s.files
    requires k1.tenantId == k2.tenantId
    requires s.files[k1].record.identity.idempotencyKeyHash == s.files[k2].record.identity.idempotencyKeyHash
    ensures k1 == k2
  {
    assert Registered(s, origin, k1) && Registered(s, origin, k2);
    assert origin[k1].request.Scope() == origin[k2].request.Scope();
  }

  /**
    What an authorization answers: the registered case of its scope, exactly
    when that case was authorized with the same fingerprint.
  */
  lemma AuthorizeAnswer(
    policy: Policy, s: Store, origin: map<CaseKey, Origin>, p: Program, env: Env)
    requires Consistent(s) && AllRegistered(s, origin) && (p.AuthFind? || p.AuthCreate?)
    ensures var move := Act(policy, s, p, env);
            var scope := p.request.Scope();
            match move.next
            case Finished(Ok(answer)) =>
              && scope in move.store.idempotency
              && answer.CaseAnswer?
              && (var k := CaseKey(scope.tenantId, move.store.idempotency[scope]);
                  && k in move.store.files
                  && answer.record == move.store.files[k].record
                  && answer.record.identity.fingerprint == p.request.Print())
            case Finished(Err(IdempotencyConflict)) =>
              && scope in move.store.idempotency
              && (var k := CaseKey(scope.tenantId, move.store.idempotency[scope]);
                  && k in move.store.files
                  && move.store.files[k].record.identity.fingerprint != p.request.Print())
            case _ => move.store == s
  {
  }
}
