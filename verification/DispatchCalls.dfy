/**
  At most one call per attempt may ever have reached the provider, so a case
  makes at most three, in every interleaving of workers, callbacks, operators,
  expired claims and exhausted queues.  Claim tokens need not be fresh for this.
*/
module DispatchCalls {
  import opened Wrappers
  import opened DispatchModels
  import opened DispatchStore
  import opened DispatchCoordinator
  import opened CaseAutomaton
  import opened CaseHistory
  import opened DispatchRefinement
  import opened DispatchActions
  import opened DispatchSystem

  predicate PendingAt(s: Store, ak: AttemptKey)
    requires ak in s.placed && s.Points(s.placed[ak])
  {
    s.At(s.placed[ak]).submission.state.Pending?
  }

  /** The program holds a claim whose call has not reached the provider. */
  predicate Unsent(p: Program) {
    p.DispatchPlace? || p.DispatchRefused?
  }

  /** A pending attempt was never dialed; nobody was dialed twice. */
  ghost predicate Counted(s: Store, calls: map<AttemptKey, nat>)
    requires s.Indexed()
  {
    && (forall ak :: ak in calls ==> ak in s.placed && calls[ak] <= 1)
    && (forall ak :: ak in calls && PendingAt(s, ak) ==> calls[ak] == 0)
  }

  /** The claim of an unsent call is held by its program alone. */
  predicate Holding(s: Store, holder: map<AttemptKey, nat>, calls: map<AttemptKey, nat>, pid: nat, p: Program)
    requires s.Indexed()
  {
    Unsent(p) ==>
      var ak := p.attempt.Key();
      && ak in s.placed && !PendingAt(s, ak)
      && ak in holder && holder[ak] == pid
      && (ak in calls ==> calls[ak] == 0)
  }

  ghost predicate AllHolding(
    s: Store, holder: map<AttemptKey, nat>, calls: map<AttemptKey, nat>, programs: map<nat, Program>)
    requires s.Indexed()
  {
    forall pid :: pid in programs ==> Holding(s, holder, calls, pid, programs[pid])
  }

  ghost predicate CallsOk(sys: System)
    requires sys.store.Indexed()
  {
    Counted(sys.store, sys.calls) && AllHolding(sys.store, sys.holder, sys.calls, sys.programs)
  }

  /** A move leaves every submission's pendingness alone except its own. */
  predicate PendingChanges(s: Store, s': Store, dialed: Option<AttemptKey>)
    requires s.Indexed() && s'.Indexed()
  {
    forall ak :: ak in s.placed ==>
      && ak in s'.placed
      && (PendingAt(s', ak) && Some(ak) != dialed ==> PendingAt(s, ak))
  }

  /** The attempt whose definite refusal this action records. */
  function Refusal(p: Program): Option<AttemptKey> {
    if p.DispatchRefused? then Some(p.attempt.Key()) else None
  }

  lemma MovePending(policy: Policy, m: CaseMove, f: CaseFile, i: nat)
    requires Enabled(policy, m, f) && i < |f.slots| && !(m.Refuse? && m.n == i)
    ensures i < |Perform(policy, m, f).slots|
    ensures Perform(policy, m, f).slots[i].submission.state.Pending? ==> f.slots[i].submission.state.Pending?
  {
  }

  lemma EnactsPending(policy: Policy, s: Store, s': Store, k: CaseKey, m: CaseMove, ak: AttemptKey)
    requires s.Indexed() && s'.Indexed() && Enacts(policy, s, s', k, m) && ak in s.placed && ak in s'.placed
    requires s'.placed[ak] == s.placed[ak]
    requires !(m.Refuse? && s.placed[ak] == Address(k, m.n))
    ensures PendingAt(s', ak) ==> PendingAt(s, ak)
  {
    if s.placed[ak].home == k {
      MovePending(policy, m, s.files[k], s.placed[ak].index);
    }
  }

  lemma EnactsPlaced(policy: Policy, s: Store, s': Store, k: CaseKey, m: CaseMove, ak: AttemptKey)
    requires Enacts(policy, s, s', k, m) && ak in s.placed
    ensures ak in s'.placed && s'.placed[ak] == s.placed[ak]
  {
  }

  lemma RefuseIntent(policy: Policy, s: Store, p: Program, env: Env)
    requires Writes(p) && Intent(policy, s, p, env).move.Refuse?
    ensures p.DispatchRefused?
    ensures Intent(policy, s, p, env).home == p.record.Key()
    ensures Intent(policy, s, p, env).move.n == Index(p.attempt)
  {
  }

  lemma ChangePending(policy: Policy, s: Store, p: Program, env: Env, s': Store, ak: AttemptKey)
    requires Consistent(s) && s'.Indexed() && Changes(policy, s, p, env, s') && ak in s.placed
    requires p.DispatchRefused? ==> Known(s, p.record.Key(), p.attempt) && ak != p.attempt.Key()
    ensures ak in s'.placed
    ensures PendingAt(s', ak) ==> PendingAt(s, ak)
  {
    if s' != s && Writes(p) {
      var target := Intent(policy, s, p, env);
      RefusesOther(policy, s, p, env, ak);
      EnactsPlaced(policy, s, s', target.home, target.move, ak);
      EnactsPending(policy, s, s', target.home, target.move, ak);
    }
  }

  lemma RefusesOther(policy: Policy, s: Store, p: Program, env: Env, ak: AttemptKey)
    requires Consistent(s) && Writes(p) && ak in s.placed
    requires p.DispatchRefused? ==> Known(s, p.record.Key(), p.attempt) && ak != p.attempt.Key()
    ensures var target := Intent(policy, s, p, env);
            target.move.Refuse? ==> s.placed[ak] != Address(target.home, target.move.n)
  {
    if Intent(policy, s, p, env).move.Refuse? {
      RefuseIntent(policy, s, p, env);
      assert Filed(s, p.record.Key(), Index(p.attempt));
      assert s.At(s.placed[ak]).attempt.Key() == ak;
    }
  }

  /** A claim is taken on a pending attempt, which is then no longer pending. */
  lemma ClaimTaken(policy: Policy, s: Store, p: Program, env: Env)
    requires Consistent(s) && p.DispatchClaim? && Known(s, p.k, p.attempt)
    ensures var move := ActDispatchClaim(policy, s, p.k, p.attempt, p.now, env);
            match Observed(s, p, env, move)
            case TookClaim(ak) =>
              && move.next.DispatchPlace? && move.next.attempt.Key() == ak
              && ak in s.placed && PendingAt(s, ak)
              && ak in move.store.placed && move.store.Points(move.store.placed[ak])
              && !PendingAt(move.store, ak)
            case NoEffect => !Unsent(move.next)
            case _ => false
  {
    KnownKeeps(s, p.k, p.attempt);
  }

  predicate EffectFits(s: Store, p: Program, move: Move, effect: Effect)
    requires s.Indexed() && move.store.Indexed()
  {
    && (match effect
        case TookClaim(ak) =>
          && p.DispatchClaim?
          && move.next.DispatchPlace? && move.next.attempt.Key() == ak
          && ak in s.placed && PendingAt(s, ak)
          && ak in move.store.placed && !PendingAt(move.store, ak)
        case MayHaveReached(ak) =>
          p.DispatchPlace? && ak == p.attempt.Key() && move.store == s && !Unsent(move.next)
        case _ =>
          Unsent(move.next) ==>
            p.DispatchPlace? && move.next.DispatchRefused? && move.next.attempt == p.attempt && move.store == s)
  }

  lemma QuietEffect(policy: Policy, s: Store, p: Program, env: Env)
    requires Runnable(s, p) && !p.DispatchClaim? && !p.DispatchPlace?
    ensures var effect := Observed(s, p, env, Act(policy, s, p, env));
            !effect.TookClaim? && !effect.MayHaveReached?
    ensures !Unsent(Act(policy, s, p, env).next)
  {
  }

  lemma ActEffect(policy: Policy, s: Store, p: Program, env: Env)
    requires Consistent(s) && ProgramOk(s, p) && Runnable(s, p)
    requires Act(policy, s, p, env).store.Indexed()
    ensures EffectFits(s, p, Act(policy, s, p, env), Observed(s, p, env, Act(policy, s, p, env)))
  {
    if p.DispatchClaim? {
      ClaimTaken(policy, s, p, env);
    } else if !p.DispatchPlace? {
      QuietEffect(policy, s, p, env);
    }
  }

  function AfterCalls(calls: map<AttemptKey, nat>, effect: Effect): map<AttemptKey, nat> {
    if effect.MayHaveReached? then
      calls[effect.key := (if effect.key in calls then calls[effect.key] else 0) + 1]
    else calls
  }

  function AfterHolder(holder: map<AttemptKey, nat>, pid: nat, effect: Effect): map<AttemptKey, nat> {
    if effect.TookClaim? then holder[effect.key := pid] else holder
  }

  lemma CountedKept(
    s: Store, holder: map<AttemptKey, nat>, calls: map<AttemptKey, nat>, pid: nat, p: Program, move: Move,
    effect: Effect)
    requires s.Indexed() && move.store.Indexed()
    requires Counted(s, calls) && Holding(s, holder, calls, pid, p)
    requires EffectFits(s, p, move, effect) && PendingChanges(s, move.store, Refusal(p))
    ensures Counted(move.store, AfterCalls(calls, effect))
  {
  }

  lemma OthersHold(
    s: Store, holder: map<AttemptKey, nat>, calls: map<AttemptKey, nat>, pid: nat, p: Program, move: Move,
    effect: Effect, q: nat, other: Program)
    requires s.Indexed() && move.store.Indexed() && q != pid
    requires Holding(s, holder, calls, pid, p) && Holding(s, holder, calls, q, other)
    requires EffectFits(s, p, move, effect) && PendingChanges(s, move.store, Refusal(p))
    ensures Holding(move.store, AfterHolder(holder, pid, effect), AfterCalls(calls, effect), q, other)
  {
  }

  lemma ActorHolds(
    s: Store, holder: map<AttemptKey, nat>, calls: map<AttemptKey, nat>, pid: nat, p: Program, move: Move,
    effect: Effect)
    requires s.Indexed() && move.store.Indexed() && Counted(s, calls)
    requires Holding(s, holder, calls, pid, p)
    requires EffectFits(s, p, move, effect) && PendingChanges(s, move.store, Refusal(p))
    ensures Holding(move.store, AfterHolder(holder, pid, effect), AfterCalls(calls, effect), pid, move.next)
  {
  }

  lemma AllHold(
    s: Store, holder: map<AttemptKey, nat>, calls: map<AttemptKey, nat>, programs: map<nat, Program>, pid: nat,
    move: Move, effect: Effect)
    requires s.Indexed() && move.store.Indexed() && pid in programs
    requires Counted(s, calls) && AllHolding(s, holder, calls, programs)
    requires EffectFits(s, programs[pid], move, effect) && PendingChanges(s, move.store, Refusal(programs[pid]))
    ensures AllHolding(move.store, AfterHolder(holder, pid, effect), AfterCalls(calls, effect),
                       programs[pid := move.next])
  {
    var programs' := programs[pid := move.next];
    forall q | q in programs'
      ensures Holding(move.store, AfterHolder(holder, pid, effect), AfterCalls(calls, effect), q,
                      programs'[q])
    {
      if q == pid {
        ActorHolds(s, holder, calls, pid, programs[pid], move, effect);
      } else {
        OthersHold(s, holder, calls, pid, programs[pid], move, effect, q, programs[q]);
      }
    }
  }

  lemma RecordCalls(sys: System, pid: nat, effect: Effect)
    ensures Record(sys, pid, effect).calls == AfterCalls(sys.calls, effect)
    ensures Record(sys, pid, effect).holder == AfterHolder(sys.holder, pid, effect)
  {
  }

  lemma RunCalls(policy: Policy, sys: System, pid: nat, env: Env)
    requires Core(policy, sys) && Ready(sys) && pid in sys.programs && CallsOk(sys)
    ensures RunAction(policy, sys, pid, env).store.Indexed() && CallsOk(RunAction(policy, sys, pid, env))
  {
    var s, p := sys.store, sys.programs[pid];
    var move := Act(policy, s, p, env);
    var effect := Observed(s, p, env, move);
    ActSound(policy, s, p, env);
    ActChanges(policy, s, p, env);
    ActEffect(policy, s, p, env);
    ActPendingChanges(policy, s, p, env, move.store);
    CountedKept(s, sys.holder, sys.calls, pid, p, move, effect);
    AllHold(s, sys.holder, sys.calls, sys.programs, pid, move, effect);
    var sys0 := sys.(store := move.store, programs := sys.programs[pid := move.next]);
    RecordKeeps(sys0, pid, effect);
    RecordCalls(sys0, pid, effect);
  }

  lemma ChangePlaced(policy: Policy, s: Store, p: Program, env: Env, s': Store, ak: AttemptKey)
    requires Changes(policy, s, p, env, s') && ak in s.placed
    ensures ak in s'.placed
  {
    if s' != s && Writes(p) {
      EnactsPlaced(policy, s, s', Intent(policy, s, p, env).home, Intent(policy, s, p, env).move, ak);
    }
  }

  lemma ActPendingChanges(policy: Policy, s: Store, p: Program, env: Env, s': Store)
    requires Consistent(s) && s'.Indexed() && Changes(policy, s, p, env, s')
    requires p.DispatchRefused? ==> Known(s, p.record.Key(), p.attempt)
    ensures PendingChanges(s, s', Refusal(p))
  {
    forall ak | ak in s.placed
      ensures ak in s'.placed && (PendingAt(s', ak) && Some(ak) != Refusal(p) ==> PendingAt(s, ak))
    {
      ChangePlaced(policy, s, p, env, s', ak);
      if Some(ak) != Refusal(p) {
        ChangePending(policy, s, p, env, s', ak);
      }
    }
  }

  /** The number of calls for the attempts of one case. */
  function CaseCalls(calls: map<AttemptKey, nat>, slots: seq<Slot>): nat {
    if slots == [] then 0
    else
      var ak := slots[|slots| - 1].attempt.Key();
      (if ak in calls then calls[ak] else 0) + CaseCalls(calls, slots[..|slots| - 1])
  }

  lemma {:induction false} CaseCallsBounded(calls: map<AttemptKey, nat>, slots: seq<Slot>)
    requires forall ak :: ak in calls ==> calls[ak] <= 1
    ensures CaseCalls(calls, slots) <= |slots|
  {
    if slots == [] {
    } else {
      CaseCallsBounded(calls, slots[..|slots| - 1]);
    }
  }
}
