/**
  A coordinator method that runs without interference, action by action.
*/
module DispatchAlone {
  import opened Wrappers
  import opened DispatchModels
  import opened DispatchStore
  import opened DispatchCoordinator
  import opened DispatchRefinement
  import opened DispatchSystem

  /** What each action draws from outside, by the point it is taken at. */
  type Draws = Program -> Env

  /** A program's store and next point after `n` actions with nobody else running. */
  ghost function Alone(policy: Policy, s: Store, p: Program, draws: Draws, n: nat): Move
    decreases n
  {
    if n == 0 || !Runnable(s, p) then Move(s, p)
    else Alone(policy, Act(policy, s, p, draws(p)).store, Act(policy, s, p, draws(p)).next, draws, n - 1)
  }

  /** Alone, the program comes to an end with this store and this result. */
  ghost predicate Ends(
    policy: Policy, s: Store, p: Program, draws: Draws, s': Store, result: Result<Answer, DispatchError>)
  {
    exists n: nat ::
      Alone(policy, s, p, draws, n).store == s' && Alone(policy, s, p, draws, n).next == Finished(result)
  }

  lemma {:induction false} FinishedStays(policy: Policy, s: Store, p: Program, draws: Draws, n: nat, m: nat)
    requires n <= m && Alone(policy, s, p, draws, n).next.Finished?
    ensures Alone(policy, s, p, draws, m).store == Alone(policy, s, p, draws, n).store
    ensures Alone(policy, s, p, draws, m).next == Alone(policy, s, p, draws, n).next
    decreases m
  {
    if m == 0 || !Runnable(s, p) {
    } else {
      if n == 0 {
        FinishedStays(policy, s, p, draws, 0, m - 1);
      } else {
        FinishedStays(policy, Act(policy, s, p, draws(p)).store, Act(policy, s, p, draws(p)).next, draws, n - 1, m - 1);
      }
    }
  }

  lemma {:induction false} EndsAgree(
    policy: Policy, s: Store, p: Program, draws: Draws, s1: Store, r1: Result<Answer, DispatchError>,
    s2: Store, r2: Result<Answer, DispatchError>)
    requires Ends(policy, s, p, draws, s1, r1) && Ends(policy, s, p, draws, s2, r2)
    ensures s1 == s2 && r1 == r2
  {
    var n: nat :| Alone(policy, s, p, draws, n).store == s1 && Alone(policy, s, p, draws, n).next == Finished(r1);
    var m: nat :| Alone(policy, s, p, draws, m).store == s2 && Alone(policy, s, p, draws, m).next == Finished(r2);
    FinishedStays(policy, s, p, draws, n, if n < m then m else n);
    FinishedStays(policy, s, p, draws, m, if n < m then m else n);
  }

  lemma Ended(policy: Policy, s: Store, draws: Draws, result: Result<Answer, DispatchError>)
    ensures Ends(policy, s, Finished(result), draws, s, result)
  {
    assert Alone(policy, s, Finished(result), draws, 0).next == Finished(result);
  }

  /** A program ends as what its next action leads to does. */
  lemma EndsAfter(
    policy: Policy, s: Store, p: Program, draws: Draws, move: Move, s': Store, result: Result<Answer, DispatchError>)
    requires Runnable(s, p) && move == Act(policy, s, p, draws(p))
    requires Ends(policy, move.store, move.next, draws, s', result)
    ensures Ends(policy, s, p, draws, s', result)
  {
    var n: nat :| Alone(policy, move.store, move.next, draws, n).store == s'
          && Alone(policy, move.store, move.next, draws, n).next == Finished(result);
    assert Alone(policy, s, p, draws, n + 1) == Alone(policy, move.store, move.next, draws, n);
  }

  lemma EndsNext(
    policy: Policy, s: Store, p: Program, draws: Draws, move: Move, result: Result<Answer, DispatchError>)
    requires Runnable(s, p) && move == Act(policy, s, p, draws(p)) && move.next == Finished(result)
    ensures Ends(policy, s, p, draws, move.store, result)
  {
    Ended(policy, move.store, draws, result);
    EndsAfter(policy, s, p, draws, move, move.store, result);
  }

  /** A program that comes to an end does so from where its next action leads. */
  lemma EndsLater(
    policy: Policy, s: Store, p: Program, draws: Draws, move: Move, s': Store, result: Result<Answer, DispatchError>)
    requires Runnable(s, p) && !p.Finished? && move == Act(policy, s, p, draws(p))
    requires Ends(policy, s, p, draws, s', result)
    ensures Ends(policy, move.store, move.next, draws, s', result)
  {
    var n: nat :| Alone(policy, s, p, draws, n).store == s' && Alone(policy, s, p, draws, n).next == Finished(result);
    assert n > 0 && Alone(policy, s, p, draws, n) == Alone(policy, move.store, move.next, draws, n - 1);
  }

  lemma EndsHere(
    policy: Policy, s: Store, p: Program, draws: Draws, move: Move, s': Store, result: Result<Answer, DispatchError>)
    requires Runnable(s, p) && !p.Finished? && move == Act(policy, s, p, draws(p)) && move.next.Finished?
    requires Ends(policy, s, p, draws, s', result)
    ensures s' == move.store && result == move.next.result
  {
    EndsLater(policy, s, p, draws, move, s', result);
    Ended(policy, move.store, draws, move.next.result);
    EndsAgree(policy, move.store, move.next, draws, s', result, move.store, move.next.result);
  }

  /** Alone and without changing the store, the program comes to the point `q`. */
  ghost predicate LeadsTo(policy: Policy, s: Store, p: Program, q: Program, draws: Draws) {
    forall s', result :: Ends(policy, s, q, draws, s', result) ==> Ends(policy, s, p, draws, s', result)
  }

  lemma LeadsDirectly(policy: Policy, s: Store, p: Program, q: Program, draws: Draws)
    requires Runnable(s, p) && Act(policy, s, p, draws(p)).store == s && Act(policy, s, p, draws(p)).next == q
    ensures LeadsTo(policy, s, p, q, draws)
  {
    forall s', result | Ends(policy, s, q, draws, s', result) ensures Ends(policy, s, p, draws, s', result) {
      EndsAfter(policy, s, p, draws, Act(policy, s, p, draws(p)), s', result);
    }
  }

  lemma LeadsTogether(policy: Policy, s: Store, p: Program, q: Program, r: Program, draws: Draws)
    requires LeadsTo(policy, s, p, q, draws) && LeadsTo(policy, s, q, r, draws)
    ensures LeadsTo(policy, s, p, r, draws)
  {
  }

  lemma LeadsAfter(policy: Policy, s: Store, p: Program, q: Program, r: Program, draws: Draws)
    requires Runnable(s, p) && Act(policy, s, p, draws(p)).store == s && Act(policy, s, p, draws(p)).next == q
    requires LeadsTo(policy, s, q, r, draws)
    ensures LeadsTo(policy, s, p, r, draws)
  {
    LeadsDirectly(policy, s, p, q, draws);
    LeadsTogether(policy, s, p, q, r, draws);
  }

  /** An action of a sound system keeps it sound. */
  lemma SoundActs(policy: Policy, s: Store, p: Program, draws: Draws, move: Move)
    requires Sound(policy, s) && ProgramOk(s, p)
    requires Runnable(s, p) ==> move == Act(policy, s, p, draws(p))
    ensures Runnable(s, p) && Sound(policy, move.store) && ProgramOk(move.store, move.next)
    ensures Runnable(move.store, move.next)
  {
    OkIsRunnable(s, p);
    ActSound(policy, s, p, draws(p));
    OkIsRunnable(move.store, move.next);
  }

  lemma PlaceKeeps(policy: Policy, s: Store, p: Program)
    requires Sound(policy, s) && ProgramOk(s, p)
    ensures p.DispatchPlace? ==> s.Keeps(p.attempt)
  {
    if p.DispatchPlace? {
      KnownKeeps(s, p.record.Key(), p.attempt);
    }
  }

  /** The point of a callback's handling at which its attempt was just found or bound. */
  function FoundAt(s: Store, k: CaseKey, n: nat, r: Reference, action: CallbackAction): Program
    requires k in s.files && n < |s.files[k].slots|
  {
    CallbackApply(r, action, Located(s.files[k].record, s.files[k].slots[n].attempt))
  }

  /** The point at which a callback found its attempt unbound. */
  function UnboundAt(s: Store, k: CaseKey, n: nat, token: Token, r: Reference, action: CallbackAction): Program
    requires k in s.files && n < |s.files[k].slots|
  {
    CallbackBind(token, r, action, Located(s.files[k].record, s.files[k].slots[n].attempt))
  }

  /** How many more actions a program can take; a lost exhaustion race starts over once. */
  function Rank(p: Program): nat {
    match p
    case Finished(_) => 0
    case AuthFind(_) => 2
    case AuthCreate(_) => 1
    case DispatchGet(_) => 7
    case DispatchReserve(_) => 6
    case DispatchClaim(_, _, _) => 5
    case DispatchExpire(_, _, _) => 1
    case DispatchPlace(_, _, _, _) => 4
    case DispatchRefused(_, _, _, _, _) => 1
    case DispatchUncertain(_, _, _, _) => 1
    case CallbackResolve(_, _, _) => 3
    case CallbackBind(_, _, _, _) => 2
    case CallbackApply(_, _, _) => 1
    case CancelGet(_, _) => 4
    case CancelList(_, _) => 3
    case CancelCall(_, _, _) => 2
    case CancelApply(_, _, _) => 1
    case ExhaustGet(_, retried) => if retried then 3 else 6
    case ExhaustList(_, retried) => if retried then 2 else 5
    case ExhaustApply(_, _, retried) => if retried then 1 else 4
  }

  predicate Dispatching(p: Program) {
    || p.DispatchGet? || p.DispatchReserve? || p.DispatchClaim? || p.DispatchExpire?
    || p.DispatchPlace? || p.DispatchRefused? || p.DispatchUncertain?
  }

  predicate Exhausting(p: Program) {
    p.ExhaustGet? || p.ExhaustList? || p.ExhaustApply?
  }

  lemma DispatchDescends(policy: Policy, s: Store, p: Program, env: Env)
    requires Runnable(s, p) && Dispatching(p)
    ensures Rank(Act(policy, s, p, env).next) < Rank(p)
  {
  }

  lemma ExhaustDescends(policy: Policy, s: Store, p: Program, env: Env)
    requires Runnable(s, p) && Exhausting(p)
    ensures Rank(Act(policy, s, p, env).next) < Rank(p)
  {
  }

  lemma HandlingDescends(policy: Policy, s: Store, p: Program, env: Env)
    requires Runnable(s, p) && (p.CallbackResolve? || p.CallbackBind? || p.CallbackApply?)
    ensures Rank(Act(policy, s, p, env).next) < Rank(p)
  {
  }

  lemma OtherDescends(policy: Policy, s: Store, p: Program, env: Env)
    requires Runnable(s, p) && !p.Finished? && !Dispatching(p) && !Exhausting(p)
    requires !p.CallbackResolve? && !p.CallbackBind? && !p.CallbackApply?
    ensures Rank(Act(policy, s, p, env).next) < Rank(p)
  {
  }

  lemma ActDescends(policy: Policy, s: Store, p: Program, env: Env)
    requires Runnable(s, p) && !p.Finished?
    ensures Rank(Act(policy, s, p, env).next) < Rank(p)
  {
    if Dispatching(p) {
      DispatchDescends(policy, s, p, env);
    } else if Exhausting(p) {
      ExhaustDescends(policy, s, p, env);
    } else if p.CallbackResolve? || p.CallbackBind? || p.CallbackApply? {
      HandlingDescends(policy, s, p, env);
    } else {
      OtherDescends(policy, s, p, env);
    }
  }

  lemma {:induction false} EndsSomehow(policy: Policy, s: Store, p: Program, draws: Draws)
    requires Sound(policy, s) && ProgramOk(s, p)
    ensures exists s', result :: Ends(policy, s, p, draws, s', result)
    decreases Rank(p)
  {
    if p.Finished? {
      Ended(policy, s, draws, p.result);
    } else {
      OkIsRunnable(s, p);
      var move := Act(policy, s, p, draws(p));
      SoundActs(policy, s, p, draws, move);
      ActDescends(policy, s, p, draws(p));
      EndsSomehow(policy, move.store, move.next, draws);
      var s', result :| Ends(policy, move.store, move.next, draws, s', result);
      EndsAfter(policy, s, p, draws, move, s', result);
    }
  }

  /** Every method that runs alone on a sound repository ends, and has exactly one end. */
  lemma EndsOnce(policy: Policy, s: Store, p: Program, draws: Draws)
    requires Sound(policy, s) && ProgramOk(s, p)
    ensures exists s', result ::
              && Ends(policy, s, p, draws, s', result)
              && forall s1, r1 :: Ends(policy, s, p, draws, s1, r1) ==> s1 == s' && r1 == result
  {
    EndsSomehow(policy, s, p, draws);
    var s', result :| Ends(policy, s, p, draws, s', result);
    forall s1, r1 | Ends(policy, s, p, draws, s1, r1) ensures s1 == s' && r1 == result {
      EndsAgree(policy, s, p, draws, s', result, s1, r1);
    }
  }
}
