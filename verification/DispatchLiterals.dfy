/**
  Who may still speak under a literal reference.  A call bound with a text that
  starts with "sha256:" is not matched by that text again, so only the method
  that performed the binding ever carries it on, and it does so once.
*/
module DispatchLiterals {
  import opened Wrappers
  import opened DispatchModels
  import opened DispatchStore
  import opened DispatchCoordinator
  import opened CaseAutomaton
  import opened CaseBudget
  import opened CaseHistory
  import opened DispatchRefinement
  import opened DispatchActions
  import opened DispatchLog
  import opened DispatchSystem

  /** The method that bound a call with a marked reference, before it has handled its callback. */
  predicate Carrier(p: Program) {
    p.CallbackApply? && p.reference.Marked() && p.located.attempt.reference == Some(p.reference)
  }

  /** No two methods carry the literal reference of one attempt. */
  ghost predicate OneCarrier(programs: map<nat, Program>) {
    forall p, q ::
      (&& p in programs && q in programs && Carrier(programs[p]) && Carrier(programs[q])
       && programs[p].located.attempt.Key() == programs[q].located.attempt.Key()) ==> p == q
  }

  /** What a method carries has not been logged yet. */
  predicate Unspoken(s: Store, p: Program) {
    Carrier(p) && p.located.record.Key() in s.files ==>
      !LiteralLogged(s.files[p.located.record.Key()].log, p.located.attempt)
  }

  ghost predicate AllUnspoken(s: Store, programs: map<nat, Program>) {
    forall pid :: pid in programs ==> Unspoken(s, programs[pid])
  }

  /** Every callback event in a log is about a bound attempt of its case. */
  predicate CallbackGrounded(f: CaseFile, j: nat)
    requires j < |f.log|
  {
    f.log[j].key.FromCallback() ==>
      exists i :: 0 <= i < |f.slots| && f.log[j].attemptId == Some(f.slots[i].attempt.identity.attemptId)
                  && f.slots[i].attempt.reference.Some?
  }

  predicate Grounded(f: CaseFile) {
    forall j :: 0 <= j < |f.log| ==> CallbackGrounded(f, j)
  }

  ghost predicate AllGrounded(s: Store) {
    forall k :: k in s.files ==> Grounded(s.files[k])
  }

  ghost predicate LiteralsOk(sys: System) {
    OneCarrier(sys.programs) && AllUnspoken(sys.store, sys.programs) && AllGrounded(sys.store)
  }

  // ---------- logs stay grounded ----------

  lemma GroundedStays(f: CaseFile, f': CaseFile, j: nat)
    requires Evolves(f, f') && j < |f.log| && CallbackGrounded(f, j)
    ensures j < |f'.log| && CallbackGrounded(f', j)
  {
    assert f'.log[j] == f.log[j];
    if f.log[j].key.FromCallback() {
      var i :| 0 <= i < |f.slots| && f.log[j].attemptId == Some(f.slots[i].attempt.identity.attemptId)
            && f.slots[i].attempt.reference.Some?;
      assert SlotEvolves(f.slots[i], f'.slots[i]);
    }
  }

  /** The event of a callback move is about the bound slot it names. */
  lemma MoveEventGrounded(policy: Policy, m: CaseMove, f: CaseFile)
    requires Enabled(policy, m, f) && !m.TakeClaim? && MoveEvent(policy, m, f).key.FromCallback()
    ensures (m.Callback? || m.Remark?) && m.n < |f.slots| && f.slots[m.n].attempt.reference.Some?
    ensures MoveEvent(policy, m, f).attemptId == Some(f.slots[m.n].attempt.identity.attemptId)
    ensures MoveEvent(policy, m, f).key.reference == if m.Callback? then m.reference else m.event.key.reference
    ensures m.Callback? && MoveEvent(policy, m, f).key.StatusKey? ==> m.action.Status?
  {
  }

  lemma MoveGrounded(policy: Policy, m: CaseMove, f: CaseFile)
    requires Enabled(policy, m, f) && Grounded(f)
    ensures Grounded(Perform(policy, m, f))
  {
    var f' := Perform(policy, m, f);
    MoveEvolves(policy, m, f);
    forall j | 0 <= j < |f'.log| ensures CallbackGrounded(f', j) {
      if j < |f.log| {
        GroundedStays(f, f', j);
      } else if f'.log[j].key.FromCallback() {
        MoveLogs(policy, m, f);
        MoveEventGrounded(policy, m, f);
        assert SlotEvolves(f.slots[m.n], f'.slots[m.n]);
      }
    }
  }

  lemma MoveLogs(policy: Policy, m: CaseMove, f: CaseFile)
    requires Enabled(policy, m, f)
    ensures if m.TakeClaim? then Perform(policy, m, f).log == f.log
            else Perform(policy, m, f).log == f.log + [MoveEvent(policy, m, f)]
  {
  }

  lemma ChangesGrounded(policy: Policy, s: Store, p: Program, env: Env, s': Store)
    requires Changes(policy, s, p, env, s') && AllGrounded(s)
    ensures AllGrounded(s')
  {
    if s' != s && Writes(p) {
      var target := Intent(policy, s, p, env);
      MoveGrounded(policy, target.move, s.files[target.home]);
    }
  }

  // ---------- who speaks ----------

  /** A move that logs under some call's reference is the callback of a method that carries it. */
  lemma IntentSpeaks(policy: Policy, s: Store, p: Program, env: Env)
    requires Writes(p) && (Intent(policy, s, p, env).move.Callback? || Intent(policy, s, p, env).move.Remark?)
    ensures p.CallbackApply? && Intent(policy, s, p, env).home == p.located.record.Key()
    ensures Intent(policy, s, p, env).move.n == Index(p.located.attempt)
    ensures Intent(policy, s, p, env).move.Callback? ==> Intent(policy, s, p, env).move.reference == p.reference
    ensures Intent(policy, s, p, env).move.Remark? && Intent(policy, s, p, env).move.event.key.FromCallback() ==>
              Intent(policy, s, p, env).move.event.key.reference == p.reference
  {
    if p.CallbackApply? && Handle(policy, p.located.record, p.located.attempt, p.reference, p.action, env).Append? {
      HandledEvent(policy, p.located.record, p.located.attempt, p.reference, p.action, env);
    }
  }

  /** Different positions of one store hold different attempts. */
  lemma PlacedOnce(s: Store, k: CaseKey, i: nat, j: nat)
    requires Consistent(s) && k in s.files && i < |s.files[k].slots| && j < |s.files[k].slots|
    requires s.files[k].slots[i].attempt.identity.attemptId == s.files[k].slots[j].attempt.identity.attemptId
    ensures i == j
  {
    assert Filed(s, k, i) && Filed(s, k, j);
  }

  /** Speaking under the literal reference of a carried attempt makes one its carrier. */
  lemma SpeakerCarries(
    policy: Policy, s: Store, s': Store, p: Program, env: Env, attempt: CallAttempt, record: DispatchCase)
    requires Consistent(s) && ProgramOk(s, p) && Writes(p) && Seen(s, record, attempt)
    requires Enacts(policy, s, s', record.Key(), Intent(policy, s, p, env).move)
    requires Intent(policy, s, p, env).home == record.Key() && !Intent(policy, s, p, env).move.TakeClaim?
    requires UnderLiteral(MoveEvent(policy, Intent(policy, s, p, env).move, s.files[record.Key()]), attempt)
    ensures Carrier(p) && p.located.attempt.Key() == attempt.Key()
  {
    var k, m := record.Key(), Intent(policy, s, p, env).move;
    var f := s.files[k];
    MoveEventGrounded(policy, m, f);
    IntentSpeaks(policy, s, p, env);
    PlacedOnce(s, k, m.n, attempt.identity.sequence - 1);
    SpeaksStored(s, p, k, m.n, attempt);
  }

  lemma SpeaksStored(s: Store, p: Program, k: CaseKey, n: nat, attempt: CallAttempt)
    requires p.CallbackApply? && ProgramOk(s, p) && p.located.record.Key() == k && n == Index(p.located.attempt)
    requires Known(s, k, attempt) && n == attempt.identity.sequence - 1
    requires attempt.reference == Some(p.reference) && p.reference.Marked()
    requires s.files[k].slots[n].attempt.reference == attempt.reference
    ensures Carrier(p) && p.located.attempt.Key() == attempt.Key()
  {
    assert Seen(s, p.located.record, p.located.attempt);
  }

  /** Logging one more event leaves a carried attempt unspoken unless it speaks for it. */
  lemma OneMoreEvent(log: seq<DispatchEvent>, event: DispatchEvent, attempt: CallAttempt)
    requires !LiteralLogged(log, attempt) && !UnderLiteral(event, attempt)
    ensures !LiteralLogged(log + [event], attempt)
  {
  }

  lemma OtherUnspoken(
    policy: Policy, s: Store, p: Program, env: Env, s': Store, q: Program)
    requires Consistent(s) && ProgramOk(s, p) && ProgramOk(s, q) && Changes(policy, s, p, env, s')
    requires Unspoken(s, q)
    requires Carrier(p) && Carrier(q) ==> p.located.attempt.Key() != q.located.attempt.Key()
    ensures Unspoken(s', q)
  {
    if Carrier(q) && s' != s {
      assert Seen(s, q.located.record, q.located.attempt);
      if Writes(p) && Intent(policy, s, p, env).home == q.located.record.Key() {
        StaysUnspoken(policy, s, p, env, s', q.located.record, q.located.attempt);
      } else {
        ElsewhereSame(policy, s, p, env, s', q.located.record.Key());
      }
    }
  }

  /** An action leaves the files of all other cases alone. */
  lemma ElsewhereSame(policy: Policy, s: Store, p: Program, env: Env, s': Store, k: CaseKey)
    requires Changes(policy, s, p, env, s') && k in s.files
    requires s' != s && Writes(p) ==> Intent(policy, s, p, env).home != k
    ensures k in s'.files && s'.files[k] == s.files[k]
  {
  }

  lemma StaysUnspoken(
    policy: Policy, s: Store, p: Program, env: Env, s': Store, record: DispatchCase, attempt: CallAttempt)
    requires Consistent(s) && ProgramOk(s, p) && Writes(p) && Seen(s, record, attempt)
    requires Intent(policy, s, p, env).home == record.Key()
    requires Enacts(policy, s, s', record.Key(), Intent(policy, s, p, env).move)
    requires !LiteralLogged(s.files[record.Key()].log, attempt)
    requires Carrier(p) ==> p.located.attempt.Key() != attempt.Key()
    ensures !LiteralLogged(s'.files[record.Key()].log, attempt)
  {
    var k, m := record.Key(), Intent(policy, s, p, env).move;
    MoveLogs(policy, m, s.files[k]);
    if !m.TakeClaim? {
      if UnderLiteral(MoveEvent(policy, m, s.files[k]), attempt) {
        SpeakerCarries(policy, s, s', p, env, attempt, record);
      }
      OneMoreEvent(s.files[k].log, MoveEvent(policy, m, s.files[k]), attempt);
    }
  }

  // ---------- who starts to carry ----------

  lemma MarkedMatchesOthers(reference: Reference)
    requires reference.Marked()
    ensures !reference.Matches(reference)
  {
    if reference.HashOf? {
      assert reference.preimage < reference;
    }
  }

  /** Only a binding makes a carrier: the attempt was unbound, and is bound now. */
  predicate NewlyBound(s: Store, p: Program, attempt: CallAttempt) {
    && p.CallbackBind? && p.token in s.callbacks && s.Points(s.callbacks[p.token])
    && s.At(s.callbacks[p.token]).attempt.reference.None?
    && s.At(s.callbacks[p.token]).attempt.identity == attempt.identity
  }

  lemma CarriesAfter(policy: Policy, s: Store, p: Program, env: Env)
    requires Runnable(s, p) && !p.CallbackBind?
    ensures !Carrier(Act(policy, s, p, env).next)
  {
    if p.CallbackResolve? && p.reference.Marked() {
      MarkedMatchesOthers(p.reference);
    }
  }

  lemma BinderCarries(policy: Policy, s: Store, p: Program, env: Env)
    requires s.Indexed() && p.CallbackBind?
    ensures var move := ActCallbackBind(s, p.token, p.reference, p.action, p.located, env);
            Carrier(move.next) ==>
              && NewlyBound(s, p, move.next.located.attempt)
              && (var k := s.callbacks[p.token].home;
                  && move.store.files.Keys == s.files.Keys
                  && move.store.files[k].log == s.files[k].log + [BindEvent(p.located, env)]
                  && move.next.located.record.identity == s.files[k].record.identity)
  {
    if p.reference.Marked() {
      MarkedMatchesOthers(p.reference);
    }
  }

  /** An attempt that is not bound has not been spoken for. */
  lemma UnboundUnspoken(s: Store, k: CaseKey, n: nat, attempt: CallAttempt)
    requires Consistent(s) && k in s.files && n < |s.files[k].slots| && Grounded(s.files[k])
    requires s.files[k].slots[n].attempt.reference.None?
    requires s.files[k].slots[n].attempt.identity == attempt.identity
    ensures !LiteralLogged(s.files[k].log, attempt)
  {
    var f := s.files[k];
    forall j | 0 <= j < |f.log| ensures !UnderLiteral(f.log[j], attempt) {
      assert CallbackGrounded(f, j);
      if UnderLiteral(f.log[j], attempt) {
        var i :| 0 <= i < |f.slots| && f.log[j].attemptId == Some(f.slots[i].attempt.identity.attemptId)
              && f.slots[i].attempt.reference.Some?;
        PlacedOnce(s, k, i, n);
      }
    }
  }

  lemma BinderUnspoken(policy: Policy, s: Store, p: Program, env: Env)
    requires Consistent(s) && AllGrounded(s) && p.CallbackBind?
    ensures var move := ActCallbackBind(s, p.token, p.reference, p.action, p.located, env);
            Unspoken(move.store, move.next)
  {
    var move := ActCallbackBind(s, p.token, p.reference, p.action, p.located, env);
    if Carrier(move.next) {
      BinderCarries(policy, s, p, env);
      var a := s.callbacks[p.token];
      assert s.files[a.home].record.Key() == a.home;
      UnboundUnspoken(s, a.home, a.index, move.next.located.attempt);
      OneMoreEvent(s.files[a.home].log, BindEvent(p.located, env), move.next.located.attempt);
    }
  }

  /** Whoever carries an attempt's reference has seen the attempt bound. */
  lemma CarriedIsBound(s: Store, p: Program, q: Program, attempt: CallAttempt)
    requires Consistent(s) && ProgramOk(s, q) && Carrier(q) && NewlyBound(s, p, attempt)
    ensures q.located.attempt.Key() != attempt.Key()
  {
    assert Seen(s, q.located.record, q.located.attempt);
    KnownKeeps(s, q.located.record.Key(), q.located.attempt);
    var a := s.callbacks[p.token];
    assert Filed(s, a.home, a.index);
  }

  lemma NextCarries(policy: Policy, s: Store, p: Program, env: Env, q: Program)
    requires Consistent(s) && Runnable(s, p) && ProgramOk(s, q) && Carrier(q)
    requires Carrier(Act(policy, s, p, env).next)
    ensures Act(policy, s, p, env).next.located.attempt.Key() != q.located.attempt.Key()
  {
    if p.CallbackBind? {
      BinderCarries(policy, s, p, env);
      CarriedIsBound(s, p, q, Act(policy, s, p, env).next.located.attempt);
    } else {
      CarriesAfter(policy, s, p, env);
    }
  }

  lemma NextUnspoken(policy: Policy, s: Store, p: Program, env: Env)
    requires Consistent(s) && AllGrounded(s) && Runnable(s, p)
    ensures Unspoken(Act(policy, s, p, env).store, Act(policy, s, p, env).next)
  {
    if p.CallbackBind? {
      BinderUnspoken(policy, s, p, env);
    } else {
      CarriesAfter(policy, s, p, env);
    }
  }

  lemma OneCarrierKept(programs: map<nat, Program>, pid: nat, next: Program)
    requires OneCarrier(programs)
    requires Carrier(next) ==>
               forall q :: q in programs && Carrier(programs[q]) ==>
                 programs[q].located.attempt.Key() != next.located.attempt.Key()
    ensures OneCarrier(programs[pid := next])
  {
  }

  lemma RunLiterals(policy: Policy, sys: System, pid: nat, env: Env)
    requires Core(policy, sys) && Ready(sys) && pid in sys.programs && LiteralsOk(sys)
    ensures LiteralsOk(RunAction(policy, sys, pid, env))
  {
    var s, p := sys.store, sys.programs[pid];
    var move := Act(policy, s, p, env);
    ActChanges(policy, s, p, env);
    ChangesGrounded(policy, s, p, env, move.store);
    NextUnspoken(policy, s, p, env);
    AllStayUnspoken(policy, sys, pid, env, move);
    CarriersDiffer(policy, sys, pid, env, move);
    RecordKeeps(sys.(store := move.store, programs := sys.programs[pid := move.next]), pid,
                Observed(sys.store, sys.programs[pid], env, move));
  }

  lemma AllStayUnspoken(policy: Policy, sys: System, pid: nat, env: Env, move: Move)
    requires Consistent(sys.store) && AllOk(sys.store, sys.programs) && pid in sys.programs && LiteralsOk(sys)
    requires Changes(policy, sys.store, sys.programs[pid], env, move.store) && Unspoken(move.store, move.next)
    ensures AllUnspoken(move.store, sys.programs[pid := move.next])
  {
    var programs' := sys.programs[pid := move.next];
    forall q | q in programs' ensures Unspoken(move.store, programs'[q]) {
      if q != pid {
        OtherUnspoken(policy, sys.store, sys.programs[pid], env, move.store, sys.programs[q]);
      }
    }
  }

  lemma CarriersDiffer(policy: Policy, sys: System, pid: nat, env: Env, move: Move)
    requires Consistent(sys.store) && AllOk(sys.store, sys.programs) && pid in sys.programs && LiteralsOk(sys)
    requires Runnable(sys.store, sys.programs[pid]) && move == Act(policy, sys.store, sys.programs[pid], env)
    ensures OneCarrier(sys.programs[pid := move.next])
  {
    if Carrier(move.next) {
      forall q | q in sys.programs && Carrier(sys.programs[q])
        ensures sys.programs[q].located.attempt.Key() != move.next.located.attempt.Key()
      {
        NextCarries(policy, sys.store, sys.programs[pid], env, sys.programs[q]);
      }
    }
    OneCarrierKept(sys.programs, pid, move.next);
  }

  /** A method about to log a progress status under a literal reference is the first to do so. */
  lemma SpeaksFirst(policy: Policy, s: Store, p: Program, env: Env)
    requires Consistent(s) && ProgramOk(s, p) && Writes(p) && Unspoken(s, p)
    requires Intent(policy, s, p, env).home in s.files
    ensures FirstLiteral(Intent(policy, s, p, env).move, s.files[Intent(policy, s, p, env).home])
  {
    var k, m := Intent(policy, s, p, env).home, Intent(policy, s, p, env).move;
    if m.Callback? && m.n < |s.files[k].slots| && m.action.Status? && m.reference.Marked()
       && s.files[k].slots[m.n].attempt.reference == Some(m.reference)
    {
      IntentSpeaks(policy, s, p, env);
      assert Seen(s, p.located.record, p.located.attempt);
      SameSpeech(s.files[k].log, p.located.attempt, s.files[k].slots[m.n].attempt);
    }
  }

  lemma SameSpeech(log: seq<DispatchEvent>, a: CallAttempt, b: CallAttempt)
    requires a.identity == b.identity && a.reference == b.reference
    ensures LiteralLogged(log, a) == LiteralLogged(log, b)
  {
    forall event ensures UnderLiteral(event, a) == UnderLiteral(event, b) {
    }
  }
}
