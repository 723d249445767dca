/**
  Two families of runs of one case.  In the first any number of placements is
  refused, every call logs every progress word, and a late key-press answers the
  exhausted case: the version bound is attained, with two versions for every
  provider failure and one for every literal reference.  In the second a late
  key-press closes a case whose next attempt is still open.
*/
module DispatchWitnesses {
  import opened Wrappers
  import opened DispatchModels
  import opened DispatchStore
  import opened DispatchCoordinator
  import opened CaseAutomaton
  import opened CaseBudget
  import opened DispatchRefinement
  import opened DispatchLog
  import opened DispatchSystem
  import opened DispatchBudget
  import opened DispatchRuns
  import opened DispatchExamples

  /** The identifiers, tokens and references a run has used, and how many failures it recorded. */
  datatype Names = Names(ids: set<Id>, tokens: set<Token>, references: set<Reference>, failures: nat)

  /** No key has been pressed, and nothing outside these names has been used. */
  ghost predicate Uses(s: Store, names: Names) {
    && (forall ak :: ak in s.placed ==> ak.attemptId in names.ids)
    && (forall t :: t in s.callbacks ==> t in names.tokens)
    && (forall e :: e in s.dedupe ==> KeyUses(e.key, names))
  }

  predicate KeyUses(key: DedupeKey, names: Names) {
    && !key.GatherKey?
    && (key.StatusKey? ==> key.reference in names.references)
    && (key.ProviderRetryKey? ==> key.attemptId in names.ids)
  }

  /**
    The names of one call and how often its placement is refused before; a
    literal call is bound under the digest form of its reference.
  */
  datatype Call = Call(id: Id, token: Token, text: string, literal: bool, refusals: nat)
  {
    predicate Valid() {
      text != "" && !("sha256:" <= text)
    }

    function Sent(): Reference
      requires Valid()
    {
      Plain(text)
    }

    function Stored(): Reference
      requires Valid()
    {
      if literal then HashOf(Plain(text)) else Plain(text)
    }

    /** What is used once the attempt is reserved; the references are set aside. */
    function Opened(names: Names): Names
      requires Valid()
    {
      Names(names.ids + {id}, names.tokens + {token}, names.references + {Sent(), Stored()}, names.failures)
    }

    function Used(names: Names): Names
      requires Valid()
    {
      Opened(names).(failures := names.failures + refusals)
    }

    predicate New(names: Names)
      requires Valid()
    {
      && id !in names.ids && token !in names.tokens
      && Sent() !in names.references && Stored() !in names.references
    }
  }

  /** The case stands between two calls, at this version. */
  ghost predicate Rested(s: Store, k: CaseKey, n: nat, version: int, names: Names) {
    && k in s.files && |s.files[k].slots| == n && AllUnacknowledged(s.files[k].slots)
    && s.files[k].record.status == (if n == 0 then DispatchStatus.Queued else UnacknowledgedStatus(n))
    && s.files[k].record.version == version
    && Retries(s.files[k].log) == names.failures
    && Uses(s, names)
  }

  lemma AllEnded(slots: seq<Slot>)
    requires AllUnacknowledged(slots)
    ensures LastOpen(AttemptsOf(slots)) == |slots|
  {
    assert forall i :: 0 <= i < |slots| ==> AttemptsOf(slots)[i].status.Unacknowledged?;
  }

  function DueTime(record: DispatchCase, now: Time): Time {
    if record.nextAttemptAt.Some? then record.nextAttemptAt.value else now
  }

  /** The answers and the clock that let the next call of a case be placed. */
  function CallEnv(env: Env, s: Store, k: CaseKey, call: Call): Env
    requires k in s.files
  {
    env.(freshId := call.id, token := call.token, contactReady := true, claimToken := Some(call.token),
         now := DueTime(s.files[k].record, env.now), provider := Refused(ProviderFailure(env.policyVersion)))
  }

  /** No status was logged for the reference. */
  predicate Unheard(s: Store, k: CaseKey, r: Reference) {
    forall word :: !s.Logged(k.tenantId, StatusKey(r, word))
  }

  /** None of these words was logged for the reference. */
  predicate Silent(s: Store, k: CaseKey, r: Reference, words: seq<ProviderWord>) {
    forall i :: 0 <= i < |words| ==> !s.Logged(k.tenantId, StatusKey(r, words[i]))
  }

  lemma UnusedUnheard(s: Store, k: CaseKey, names: Names, r: Reference)
    requires Uses(s, names) && r !in names.references
    ensures Unheard(s, k, r)
  {
    forall word ensures !s.Logged(k.tenantId, StatusKey(r, word)) {
      assert DedupeEntry(k.tenantId, StatusKey(r, word)) in s.dedupe ==> KeyUses(StatusKey(r, word), names);
    }
  }

  /** What is known of the case at every point of its current call. */
  ghost predicate Current(s: Store, k: CaseKey, n: nat, version: int, names: Names) {
    && k in s.files && |s.files[k].slots| == n + 1
    && AllUnacknowledged(s.files[k].slots[..n])
    && s.files[k].slots[n].attempt.identity.sequence == n + 1
    && s.files[k].record.version == version
    && Retries(s.files[k].log) == names.failures
    && Uses(s, names)
  }

  /** The call was claimed and waits for its first callback. */
  ghost predicate Waiting(s: Store, k: CaseKey, n: nat, version: int, names: Names, call: Call)
    requires call.Valid()
  {
    && Awaiting(s, k, n, call.token) && Current(s, k, n, version, names)
    && Unheard(s, k, call.Sent()) && Unheard(s, k, call.Stored())
  }

  /** The call is in progress. */
  ghost predicate Underway(s: Store, k: CaseKey, n: nat, version: int, names: Names, call: Call)
    requires call.Valid()
  {
    Talking(s, k, n, call.token, call.Stored()) && Current(s, k, n, version, names)
  }

  /** No refusal of the attempt was logged under a version it has yet to reach. */
  ghost predicate RefusalsPast(s: Store, k: CaseKey, n: nat)
    requires k in s.files && n < |s.files[k].slots|
  {
    var attempt := s.files[k].slots[n].attempt;
    forall v :: s.Logged(k.tenantId, ProviderRetryKey(attempt.identity.attemptId, v)) ==> v <= attempt.version
  }

  /** The attempt of the call is reserved and its call may be claimed now. */
  ghost predicate Ready(s: Store, k: CaseKey, n: nat, version: int, names: Names, call: Call, now: Time)
    requires call.Valid()
  {
    && Undialed(s, k, n, call.token, now) && Current(s, k, n, version, names)
    && s.files[k].slots[n].attempt.identity.attemptId == call.id && RefusalsPast(s, k, n)
    && Unheard(s, k, call.Sent()) && Unheard(s, k, call.Stored())
  }

  lemma ReserveUses(s: Store, s': Store, k: CaseKey, env: Env, names: Names, call: Call)
    requires call.Valid() && Uses(s, names) && Reserves(s, s', k, env)
    requires env.freshId == call.id && env.token == call.token
    ensures Uses(s', call.Opened(names))
  {
  }

  lemma ReserveUnheard(s: Store, s': Store, k: CaseKey, env: Env, r: Reference)
    requires Unheard(s, k, r) && Reserves(s, s', k, env)
    ensures Unheard(s', k, r)
  {
  }

  /** Nothing was refused yet for an attempt under a new identifier. */
  lemma ReserveUnrefused(s: Store, s': Store, k: CaseKey, env: Env, names: Names)
    requires Uses(s, names) && env.freshId !in names.ids && Reserves(s, s', k, env)
    ensures RefusalsPast(s', k, |s.files[k].slots|)
  {
    forall v ensures !s'.Logged(k.tenantId, ProviderRetryKey(env.freshId, v)) {
      assert DedupeEntry(k.tenantId, ProviderRetryKey(env.freshId, v)) in s.dedupe ==>
          KeyUses(ProviderRetryKey(env.freshId, v), names);
    }
  }

  /** The next attempt of a resting case is reserved. */
  lemma CallReserved(
    policy: Policy, s: Store, k: CaseKey, n: nat, version: int, names: Names, call: Call, env: Env) returns (s': Store)
    requires call.Valid() && call.New(names)
    requires CanReach(policy, s) && Rested(s, k, n, version, names) && n < 3
    ensures var e := CallEnv(env, s, k, call);
            && CanReach(policy, s') && Reserves(s, s', k, e)
            && Ready(s', k, n, version + 1, call.Opened(names), call, e.now)
  {
    var e := CallEnv(env, s, k, call);
    AllEnded(s.files[k].slots);
    ReserveReaches(policy, s, k, e);
    ReserveFacts(s, k, e);
    s' := ReservedStore(s, k, e);
    ReserveUses(s, s', k, e, names, call);
    ReserveUnrefused(s, s', k, e, names);
    UnusedUnheard(s, k, names, call.Sent());
    UnusedUnheard(s, k, names, call.Stored());
    ReserveUnheard(s, s', k, e, call.Sent());
    ReserveUnheard(s, s', k, e, call.Stored());
  }

  /** What a refusal leaves of a case that was ready. */
  lemma RefusedReady(
    s: Store, s': Store, k: CaseKey, n: nat, version: int, names: Names, call: Call, now: Time)
    requires call.Valid() && call.id in names.ids && Ready(s, k, n, version, names, call, now)
    requires Refuses(s, s', k, n, call.token, now)
    ensures Ready(s', k, n, version + 2, names.(failures := names.failures + 1), call, now)
    ensures s'.files[k].slots[..n] == s.files[k].slots[..n]
  {
    var key := ProviderRetryKey(call.id, s.files[k].slots[n].attempt.version + 2);
    assert KeyUses(key, names);
  }

  /** A placement that the provider refuses. */
  lemma CallRefused(
    policy: Policy, s: Store, k: CaseKey, n: nat, version: int, names: Names, call: Call, e: Env) returns (s': Store)
    requires call.Valid() && call.id in names.ids && MayDial(policy, e) && e.provider.Refused?
    requires CanReach(policy, s) && Ready(s, k, n, version, names, call, e.now)
    ensures CanReach(policy, s') && Refuses(s, s', k, n, call.token, e.now)
  {
    var s1 := ClaimedStore(policy, s, k, n, e);
    ClaimFacts(policy, s, k, n, call.token, e);
    RefusalFacts(policy, s, k, n, call.token, e.provider.code, e);
    RefusalReaches(policy, s, k, n, call.token, e.provider.code, e);
    s' := RefusedStore(s1, k, n, e.provider.code, e);
  }

  /** Any number of placements that the provider refuses. */
  lemma {:induction false} CallRefusedOften(
    policy: Policy, s: Store, k: CaseKey, n: nat, version: int, names: Names, call: Call, e: Env, count: nat)
    returns (s': Store)
    requires call.Valid() && call.id in names.ids && MayDial(policy, e) && e.provider.Refused?
    requires CanReach(policy, s) && Ready(s, k, n, version, names, call, e.now)
    ensures CanReach(policy, s') && s'.callbacks == s.callbacks && k in s'.files
    ensures Ready(s', k, n, version + 2 * count, names.(failures := names.failures + count), call, e.now)
    ensures s'.files[k].slots[..n] == s.files[k].slots[..n]
    decreases count
  {
    if count == 0 {
      s' := s;
    } else {
      var s1 := CallRefused(policy, s, k, n, version, names, call, e);
      RefusedReady(s, s1, k, n, version, names, call, e.now);
      s' := CallRefusedOften(
        policy, s1, k, n, version + 2, names.(failures := names.failures + 1), call, e, count - 1);
    }
  }

  /** The call of a ready attempt is claimed. */
  lemma CallClaimed(
    policy: Policy, s: Store, k: CaseKey, n: nat, version: int, names: Names, call: Call, e: Env) returns (s': Store)
    requires call.Valid() && MayDial(policy, e)
    requires CanReach(policy, s) && Ready(s, k, n, version, names, call, e.now)
    ensures CanReach(policy, s') && Waiting(s', k, n, version + 1, names, call)
    ensures s'.files[k].slots[..n] == s.files[k].slots[..n] && s'.callbacks == s.callbacks
  {
    s' := ClaimedStore(policy, s, k, n, e);
    ClaimReaches(policy, s, k, n, call.token, e);
    ClaimFacts(policy, s, k, n, call.token, e);
  }

  /** The next call of a resting case is claimed, after as many refusals as the call says. */
  lemma CallDialed(
    policy: Policy, s: Store, k: CaseKey, n: nat, version: int, names: Names, call: Call, env: Env) returns (s': Store)
    requires policy.submissionTimeout > 0 && call.Valid() && call.New(names)
    requires CanReach(policy, s) && Rested(s, k, n, version, names) && n < 3
    ensures CanReach(policy, s') && Waiting(s', k, n, version + 2 + 2 * call.refusals, call.Used(names), call)
    ensures s'.files[k].slots[..n] == s.files[k].slots && s'.callbacks == s.callbacks[call.token := Address(k, n)]
  {
    var e := CallEnv(env, s, k, call);
    var s1 := CallReserved(policy, s, k, n, version, names, call, env);
    var s2 := CallRefusedOften(policy, s1, k, n, version + 1, call.Opened(names), call, e, call.refusals);
    s' := CallClaimed(policy, s2, k, n, version + 1 + 2 * call.refusals, call.Used(names), call, e);
  }

  /** One callback later: one version more, and only its own key is new. */
  lemma MovedOn(s: Store, s': Store, k: CaseKey, n: nat, version: int, names: Names, key: DedupeKey)
    requires Current(s, k, n, version, names) && Moved(s, s', k, key) && SameButOne(s, s', k, n)
    requires KeyUses(key, names) && !key.ProviderRetryKey?
    ensures Current(s', k, n, version + 1, names) && s'.files[k].slots[..n] == s.files[k].slots[..n]
  {
  }

  lemma MovedSilent(s: Store, s': Store, k: CaseKey, r: Reference, words: seq<ProviderWord>, key: DedupeKey)
    requires Silent(s, k, r, words) && Moved(s, s', k, key)
    requires key.StatusKey? && key.reference == r ==> key.word !in words
    ensures Silent(s', k, r, words)
  {
  }

  /** What is left to log under the sent reference after the first callback of a call. */
  function Remaining(call: Call): seq<ProviderWord> {
    var rest :=
      [ProviderWord.Initiated, ProviderWord.Ringing, ProviderWord.Answered, ProviderWord.InProgress, Completed];
    if call.literal then [ProviderWord.Queued] + rest else rest
  }

  /** The first callback of a claimed call binds it and is logged under the bound reference. */
  lemma CallAnswered(
    policy: Policy, s: Store, k: CaseKey, n: nat, version: int, names: Names, call: Call, env: Env) returns (s': Store)
    requires CanReach(policy, s) && call.Valid() && Waiting(s, k, n, version, names, call)
    requires call.Stored() in names.references
    ensures CanReach(policy, s') && Underway(s', k, n, version + 2, names, call)
    ensures s'.files[k].slots[..n] == s.files[k].slots[..n] && Silent(s', k, call.Sent(), Remaining(call))
  {
    ReachableFacts(policy, s);
    var s1 := BoundStore(s, k, n, call.Stored(), env);
    s' := FirstStatusReaches(policy, s, s1, k, n, call.token, call.Stored(), ProviderWord.Queued, env);
    CallBound(s, s1, k, n, version, names, call, env);
    CallNoted(s1, s', k, n, version + 1, names, call);
  }

  lemma CallBound(
    s: Store, s1: Store, k: CaseKey, n: nat, version: int, names: Names, call: Call, env: Env)
    requires call.Valid() && Waiting(s, k, n, version, names, call) && Consistent(s)
    requires s1 == BoundStore(s, k, n, call.Stored(), env)
    ensures Current(s1, k, n, version + 1, names) && s1.files[k].slots[..n] == s.files[k].slots[..n]
    ensures Silent(s1, k, call.Sent(), Remaining(call))
  {
    var key := CallInitiatedKey(s.files[k].slots[n].attempt.identity.attemptId);
    BoundFacts(s, k, n, call.token, call.Stored(), env);
    MovedOn(s, s1, k, n, version, names, key);
    MovedSilent(s, s1, k, call.Sent(), Remaining(call), key);
  }

  lemma CallNoted(s: Store, s': Store, k: CaseKey, n: nat, version: int, names: Names, call: Call)
    requires call.Valid() && Current(s, k, n, version, names) && call.Stored() in names.references
    requires Silent(s, k, call.Sent(), Remaining(call))
    requires Moved(s, s', k, StatusKey(call.Stored(), ProviderWord.Queued)) && SameButOne(s, s', k, n)
    ensures Current(s', k, n, version + 1, names) && s'.files[k].slots[..n] == s.files[k].slots[..n]
    ensures Silent(s', k, call.Sent(), Remaining(call))
  {
    MovedOn(s, s', k, n, version, names, StatusKey(call.Stored(), ProviderWord.Queued));
    MovedSilent(s, s', k, call.Sent(), Remaining(call), StatusKey(call.Stored(), ProviderWord.Queued));
  }

  /** One further progress word. */
  lemma CallProgresses(
    policy: Policy, s: Store, k: CaseKey, n: nat, version: int, names: Names, call: Call, env: Env,
    word: ProviderWord, words: seq<ProviderWord>) returns (s': Store)
    requires call.Valid() && CanReach(policy, s) && Underway(s, k, n, version, names, call)
    requires call.Sent() in names.references && !word.Ends() && word !in words
    requires !s.Logged(k.tenantId, StatusKey(call.Sent(), word)) && Silent(s, k, call.Sent(), words)
    ensures CanReach(policy, s') && Underway(s', k, n, version + 1, names, call)
    ensures s'.files[k].slots[..n] == s.files[k].slots[..n] && Silent(s', k, call.Sent(), words)
  {
    s' := ProgressReaches(policy, s, k, n, call.token, call.Stored(), call.Sent(), word, env);
    MovedOn(s, s', k, n, version, names, StatusKey(call.Sent(), word));
    MovedSilent(s, s', k, call.Sent(), words, StatusKey(call.Sent(), word));
  }

  /** Distinct progress words, and then the end of the call. */
  predicate Script(words: seq<ProviderWord>) {
    && words != [] && words[|words| - 1].Completed?
    && (forall i :: 0 <= i < |words| - 1 ==> !words[i].Ends())
    && (forall i, j :: 0 <= i < j < |words| ==> words[i] != words[j])
  }

  lemma ScriptTail(words: seq<ProviderWord>)
    requires Script(words) && |words| > 1
    ensures Script(words[1..]) && !words[0].Ends() && words[0] !in words[1..]
  {
  }

  lemma HungRests(s: Store, s': Store, k: CaseKey, n: nat, version: int, names: Names)
    requires Current(s, k, n, version, names) && Current(s', k, n, version + 1, names) && Hung(s, s', k, n)
    ensures Rested(s', k, n + 1, version + 1, names)
  {
    var slots := s'.files[k].slots;
    forall i | 0 <= i < |slots| ensures slots[i].attempt.status.Unacknowledged? {
      if i < n {
        assert slots[i] == slots[..n][i];
      }
    }
  }

  /** A call that ends at once. */
  lemma CallHangsUp(
    policy: Policy, s: Store, k: CaseKey, n: nat, version: int, names: Names, call: Call, env: Env) returns (s': Store)
    requires call.Valid() && CanReach(policy, s) && Underway(s, k, n, version, names, call)
    requires call.Sent() in names.references && !s.Logged(k.tenantId, StatusKey(call.Sent(), Completed))
    ensures CanReach(policy, s') && Rested(s', k, n + 1, version + 1, names)
    ensures Bound(s', k, n, call.token, call.Stored()) && s'.files[k].slots[..n] == s.files[k].slots[..n]
  {
    s' := EndReaches(policy, s, k, n, call.token, call.Stored(), call.Sent(), env);
    MovedOn(s, s', k, n, version, names, StatusKey(call.Sent(), Completed));
    HungRests(s, s', k, n, version, names);
  }

  /** A call that logs its words and then ends without a key-press: one version for each. */
  lemma {:induction false} CallEnds(
    policy: Policy, s: Store, k: CaseKey, n: nat, version: int, names: Names, call: Call, env: Env,
    words: seq<ProviderWord>) returns (s': Store)
    requires call.Valid() && CanReach(policy, s) && Underway(s, k, n, version, names, call)
    requires call.Sent() in names.references && Script(words) && Silent(s, k, call.Sent(), words)
    ensures CanReach(policy, s') && Rested(s', k, n + 1, version + |words|, names)
    ensures Bound(s', k, n, call.token, call.Stored()) && s'.files[k].slots[..n] == s.files[k].slots[..n]
    decreases |words|
  {
    if |words| == 1 {
      s' := CallHangsUp(policy, s, k, n, version, names, call, env);
    } else {
      ScriptTail(words);
      assert Silent(s, k, call.Sent(), words[1..]);
      var s1 := CallProgresses(policy, s, k, n, version, names, call, env, words[0], words[1..]);
      s' := CallEnds(policy, s1, k, n, version + 1, names, call, env, words[1..]);
    }
  }

  function LiteralCount(call: Call): nat {
    if call.literal then 1 else 0
  }

  /** How many versions a call costs its case. */
  function Cost(call: Call): nat {
    9 + 2 * call.refusals + LiteralCount(call)
  }

  lemma RemainingIsScript(call: Call)
    ensures Script(Remaining(call)) && |Remaining(call)| == 5 + LiteralCount(call)
  {
  }

  /** From one rest of a case to the next call in progress. */
  lemma CallStarts(
    policy: Policy, s: Store, k: CaseKey, n: nat, version: int, names: Names, call: Call, env: Env) returns (s': Store)
    requires policy.submissionTimeout > 0 && call.Valid() && call.New(names)
    requires CanReach(policy, s) && Rested(s, k, n, version, names) && n < 3
    ensures CanReach(policy, s') && Underway(s', k, n, version + 4 + 2 * call.refusals, call.Used(names), call)
    ensures s'.files[k].slots[..n] == s.files[k].slots && Silent(s', k, call.Sent(), Remaining(call))
  {
    var dialed := CallDialed(policy, s, k, n, version, names, call, env);
    s' := CallAnswered(policy, dialed, k, n, version + 2 + 2 * call.refusals, call.Used(names), call, env);
  }

  /** A whole call: nine versions, two more for every refusal, and one more under a literal reference. */
  lemma WholeCall(
    policy: Policy, s: Store, k: CaseKey, n: nat, version: int, names: Names, call: Call, env: Env) returns (s': Store)
    requires policy.submissionTimeout > 0 && call.Valid() && call.New(names)
    requires CanReach(policy, s) && Rested(s, k, n, version, names) && n < 3
    ensures CanReach(policy, s') && Rested(s', k, n + 1, version + Cost(call), call.Used(names))
    ensures Bound(s', k, n, call.token, call.Stored()) && s'.files[k].slots[..n] == s.files[k].slots
  {
    RemainingIsScript(call);
    var started := CallStarts(policy, s, k, n, version, names, call, env);
    s' := CallEnds(
      policy, started, k, n, version + 4 + 2 * call.refusals, call.Used(names), call, env, Remaining(call));
  }

  // ---------- the version bound is attained ----------

  const NO_NAMES := Names({}, {}, {}, 0)

  /** A request that is let in, from a directory with two contacts, under a policy that lets claims live. */
  predicate Usable(policy: Policy, request: AuthRequest, env: Env) {
    && policy.submissionTimeout > 0 && request.Approved() && request.wellFormed
    && env.contacts.Some? && env.contacts.value.primary != env.contacts.value.supervisor
  }

  lemma CaseOpens(policy: Policy, request: AuthRequest, env: Env) returns (s: Store)
    requires Usable(policy, request, env)
    ensures CanReach(policy, s) && Rested(s, CaseKey(request.incident.tenantId, env.freshId), 0, 1, NO_NAMES)
  {
    FirstReaches(policy, request, env);
    s := FirstStore(policy, request, env.contacts.value, env);
    var log := s.files[CaseKey(request.incident.tenantId, env.freshId)].log;
    assert log[..0] == [];
    RetriesAppend([], log[0]);
  }

  /** The calls of one case, each under names of its own. */
  predicate Distinct(calls: seq<Call>) {
    && (forall i :: 0 <= i < |calls| ==> calls[i].Valid())
    && forall i, j :: 0 <= i < j < |calls| ==>
         calls[i].id != calls[j].id && calls[i].token != calls[j].token && calls[i].text != calls[j].text
  }

  function UsedBy(calls: seq<Call>): Names
    requires forall i :: 0 <= i < |calls| ==> calls[i].Valid()
  {
    if calls == [] then NO_NAMES else calls[|calls| - 1].Used(UsedBy(calls[..|calls| - 1]))
  }

  function LiteralCalls(calls: seq<Call>): nat {
    if calls == [] then 0 else LiteralCalls(calls[..|calls| - 1]) + LiteralCount(calls[|calls| - 1])
  }

  function Refusals(calls: seq<Call>): nat {
    if calls == [] then 0 else Refusals(calls[..|calls| - 1]) + calls[|calls| - 1].refusals
  }

  /** The version of a case after these calls. */
  function RestVersion(calls: seq<Call>): nat {
    if calls == [] then 1 else RestVersion(calls[..|calls| - 1]) + Cost(calls[|calls| - 1])
  }

  lemma {:induction false} RestVersionIs(calls: seq<Call>)
    ensures RestVersion(calls) == 1 + 9 * |calls| + 2 * Refusals(calls) + LiteralCalls(calls)
  {
    if calls == [] {
    } else {
      RestVersionIs(calls[..|calls| - 1]);
    }
  }

  lemma {:induction false} FailuresAre(calls: seq<Call>)
    requires forall i :: 0 <= i < |calls| ==> calls[i].Valid()
    ensures UsedBy(calls).failures == Refusals(calls)
  {
    if calls == [] {
    } else {
      FailuresAre(calls[..|calls| - 1]);
    }
  }

  lemma {:induction false} NotUsed(calls: seq<Call>, call: Call)
    requires Distinct(calls + [call])
    ensures Distinct(calls) && call.Valid() && call.New(UsedBy(calls))
  {
    assert call == (calls + [call])[|calls|];
    assert forall i :: 0 <= i < |calls| ==> (calls + [call])[i] == calls[i];
    if calls == [] {
    } else {
      var last := |calls| - 1;
      assert forall i :: 0 <= i < last ==> (calls[..last] + [call])[i] == calls[i];
      NotUsed(calls[..last], call);
    }
  }

  /** Every slot of the file is bound as its call was. */
  predicate BoundAs(slots: seq<Slot>, calls: seq<Call>) {
    && |slots| == |calls|
    && forall i :: 0 <= i < |calls| ==>
         calls[i].Valid() && slots[i].attempt.reference == Some(calls[i].Stored())
  }

  lemma BoundMore(before: seq<Slot>, slots: seq<Slot>, calls: seq<Call>)
    requires calls != [] && BoundAs(before, calls[..|calls| - 1]) && |slots| == |calls|
    requires slots[..|calls| - 1] == before && calls[|calls| - 1].Valid()
    requires slots[|calls| - 1].attempt.reference == Some(calls[|calls| - 1].Stored())
    ensures BoundAs(slots, calls)
  {
    var n := |calls| - 1;
    assert forall i :: 0 <= i < n ==> slots[i] == before[i] && calls[..n][i] == calls[i];
  }

  /** The store after these calls of the case: it rests, and every slot is bound as its call was. */
  ghost predicate Called(policy: Policy, s: Store, k: CaseKey, calls: seq<Call>)
    requires Distinct(calls)
  {
    && CanReach(policy, s)
    && Rested(s, k, |calls|, RestVersion(calls), UsedBy(calls))
    && BoundAs(s.files[k].slots, calls)
  }

  lemma OneCallMore(policy: Policy, s: Store, k: CaseKey, calls: seq<Call>, call: Call, env: Env) returns (s': Store)
    requires policy.submissionTimeout > 0 && |calls| < 3
    requires Distinct(calls) && Distinct(calls + [call]) && Called(policy, s, k, calls)
    ensures Called(policy, s', k, calls + [call])
    ensures Bound(s', k, |calls|, call.token, call.Stored())
  {
    NotUsed(calls, call);
    s' := WholeCall(policy, s, k, |calls|, RestVersion(calls), UsedBy(calls), call, env);
    assert (calls + [call])[..|calls|] == calls;
    BoundMore(s.files[k].slots, s'.files[k].slots, calls + [call]);
  }

  /** A new case after up to three whole calls. */
  lemma {:induction false} CallsReach(policy: Policy, request: AuthRequest, env: Env, calls: seq<Call>)
    returns (s: Store)
    requires Usable(policy, request, env) && |calls| <= 3 && Distinct(calls)
    ensures var k := CaseKey(request.incident.tenantId, env.freshId);
            && Called(policy, s, k, calls)
            && (calls != [] ==> Bound(s, k, |calls| - 1, calls[|calls| - 1].token, calls[|calls| - 1].Stored()))
  {
    if calls == [] {
      s := CaseOpens(policy, request, env);
    } else {
      var n := |calls| - 1;
      assert calls == calls[..n] + [calls[n]];
      NotUsed(calls[..n], calls[n]);
      var before := CallsReach(policy, request, env, calls[..n]);
      s := OneCallMore(
        policy, before, CaseKey(request.incident.tenantId, env.freshId), calls[..n], calls[n], env);
    }
  }

  /** A call bound under a plain reference logs nothing under a literal one. */
  lemma LiteralIsLiteral(f: CaseFile, calls: seq<Call>, i: nat)
    requires BoundAs(f.slots, calls) && i < |calls|
    ensures Literal(f, i) <= LiteralCount(calls[i])
  {
    assert f.slots[i].attempt.reference == Some(calls[i].Stored());
  }

  lemma ThreeLiterals(f: CaseFile, calls: seq<Call>)
    requires BoundAs(f.slots, calls) && |calls| == 3
    ensures Literals(f) <= LiteralCalls(calls)
  {
    LiteralIsLiteral(f, calls, 0);
    LiteralIsLiteral(f, calls, 1);
    LiteralIsLiteral(f, calls, 2);
    assert calls[..2][..1] == calls[..1] && calls[..1][..0] == [];
    assert LiteralCalls(calls[..1]) == LiteralCount(calls[0]);
    assert LiteralCalls(calls[..2]) == LiteralCalls(calls[..1]) + LiteralCount(calls[1]);
  }

  lemma ReachedWithin(policy: Policy, s: Store, k: CaseKey)
    requires CanReach(policy, s) && k in s.files
    ensures WithinBudget(s.dedupe, s.files[k])
  {
    var inputs :| Execute(policy, inputs).store == s;
    Reached(policy, inputs);
  }

  /** A case that was spoken to as often as possible, and was then answered by a late key-press. */
  lemma SpentCase(policy: Policy, request: AuthRequest, env: Env, calls: seq<Call>) returns (s: Store)
    requires Usable(policy, request, env) && |calls| == 3 && Distinct(calls)
    ensures var k := CaseKey(request.incident.tenantId, env.freshId);
            && CanReach(policy, s) && k in s.files
            && s.files[k].record.version == 29 + 2 * Refusals(calls) + LiteralCalls(calls)
            && Retries(s.files[k].log) == Refusals(calls) && BoundAs(s.files[k].slots, calls)
  {
    var k := CaseKey(request.incident.tenantId, env.freshId);
    var rested := CallsReach(policy, request, env, calls);
    RestVersionIs(calls);
    FailuresAre(calls);
    s := PressReaches(policy, rested, k, 2, calls[2].token, calls[2].Stored(), calls[2].Sent(), env);
  }

  /**
    The version bound is attained: however often the placements of a case's
    three calls are refused, and whichever of the calls are bound under the
    digest form of their reference, some run brings the case to version 29, two
    more for every refusal and one more for each of those calls.
  */
  lemma BoundAttained(policy: Policy, request: AuthRequest, env: Env, calls: seq<Call>)
    requires Usable(policy, request, env) && |calls| == 3 && Distinct(calls)
    ensures exists inputs ::
              var files := Execute(policy, inputs).store.files;
              var k := CaseKey(request.incident.tenantId, env.freshId);
              && k in files
              && files[k].record.version == 29 + 2 * Retries(files[k].log) + Literals(files[k])
              && Retries(files[k].log) == Refusals(calls) && Literals(files[k]) == LiteralCalls(calls)
  {
    var k := CaseKey(request.incident.tenantId, env.freshId);
    var s := SpentCase(policy, request, env, calls);
    ThreeLiterals(s.files[k], calls);
    ReachedWithin(policy, s, k);
    var inputs :| Execute(policy, inputs).store == s;
    assert k in Execute(policy, inputs).store.files;
  }

  // ---------- a late key-press ----------

  /** A case whose first call ended and whose second is claimed when a key is pressed on the first. */
  lemma LatePress(policy: Policy, request: AuthRequest, env: Env, first: Call, second: Call) returns (s: Store)
    requires Usable(policy, request, env) && Distinct([first, second])
    ensures var k := CaseKey(request.incident.tenantId, env.freshId);
            && CanReach(policy, s) && k in s.files && |s.files[k].slots| == 2
            && s.files[k].record.status.Acknowledged?
            && s.files[k].slots[1].attempt.status.AwaitingProvider()
            && s.files[k].slots[1].submission.state.Claimed?
  {
    var k := CaseKey(request.incident.tenantId, env.freshId);
    assert [first, second] == [first] + [second];
    NotUsed([first], second);
    var rested := CallsReach(policy, request, env, [first]);
    var dialed := CallDialed(policy, rested, k, 1, RestVersion([first]), UsedBy([first]), second, env);
    s := PressReaches(policy, dialed, k, 0, first.token, first.Stored(), first.Sent(), env);
  }

  /** A late key-press can close a case while its next attempt is open, even while its call is claimed. */
  lemma KeyPressLeavesOpen(policy: Policy, request: AuthRequest, env: Env, first: Call, second: Call)
    requires Usable(policy, request, env) && Distinct([first, second])
    ensures exists inputs ::
              var files := Execute(policy, inputs).store.files;
              var k := CaseKey(request.incident.tenantId, env.freshId);
              && k in files && |files[k].slots| == 2 && files[k].record.status.Acknowledged?
              && !files[k].slots[1].attempt.status.Terminal() && files[k].slots[1].submission.state.Claimed?
  {
    var k := CaseKey(request.incident.tenantId, env.freshId);
    var s := LatePress(policy, request, env, first, second);
    var inputs :| Execute(policy, inputs).store == s;
    assert k in Execute(policy, inputs).store.files;
  }
}
