/**
  Idempotent mutations (src/api/state.py): the simple store that runs the
  action under a lock, and the durable one that reserves a database record,
  runs the action outside any transaction and then completes or releases it.
*/
module Idempotency {
  import opened Wrappers

  type Name(==, !new, 0)
  type Value(==, !new, 0)

  datatype Identity = Identity(tenantId: Name, operation: Name, key: string)

  /** The digest is taken to identify the payload. */
  datatype Digest = Digest(payload: Value)

  datatype Request = Request(tenantId: Name, operation: Name, key: Option<string>, payload: Value)
  {
    predicate KeyFits() {
      key.Some? && 8 <= |key.value| <= 200
    }

    function Scope(): Identity
      requires KeyFits()
    {
      Identity(tenantId, operation, key.value)
    }

    function Hash(): Digest {
      Digest(payload)
    }
  }

  datatype Failure = KeyRequired | PayloadConflict | InProgress | ActionFailed | OwnershipLost | StoreFailed

  /** How the caller's action ends. */
  datatype Ending = Returned(value: Value) | Raised

  // ---------- the simple form ----------

  datatype Entry = Entry(digest: Digest, result: Value)

  datatype Answer = Answer(results: map<Identity, Entry>, result: Result<Value, Failure>)

  function ExecuteSimply(results: map<Identity, Entry>, request: Request, ending: Ending): Answer {
    if !request.KeyFits() then Answer(results, Err(KeyRequired))
    else
      var id := request.Scope();
      if id in results then
        Answer(results, if results[id].digest == request.Hash() then Ok(results[id].result) else Err(PayloadConflict))
      else
        match ending
        case Raised => Answer(results, Err(ActionFailed))
        case Returned(value) => Answer(results[id := Entry(request.Hash(), value)], Ok(value))
  }

  class IdempotencyStore {
    var results: map<Identity, Entry>

    constructor ()
      ensures results == map[]
    {
      results := map[];
    }

    method Execute(request: Request, ending: Ending) returns (result: Result<Value, Failure>)
      modifies this
      ensures Answer(results, result) == ExecuteSimply(old(results), request, ending)
    {
      if !request.KeyFits() {
        return Err(KeyRequired);
      }
      var id := request.Scope();
      if id in results {
        if results[id].digest != request.Hash() {
          return Err(PayloadConflict);
        }
        return Ok(results[id].result);
      }
      if ending.Raised? {
        return Err(ActionFailed);
      }
      results := results[id := Entry(request.Hash(), ending.value)];
      result := Ok(ending.value);
    }
  }

  /** A request without a key of 8 to 200 characters is refused, and no other is. */
  lemma KeyRefused(results: map<Identity, Entry>, request: Request, ending: Ending)
    ensures var answer := ExecuteSimply(results, request, ending);
            if request.key.None? || |request.key.value| < 8 || |request.key.value| > 200 then
              answer == Answer(results, Err(KeyRequired))
            else answer.result != Err(KeyRequired)
  {
  }

  /** The first request of its tenant, operation and key is answered as its action ends. */
  lemma FirstCall(results: map<Identity, Entry>, request: Request, ending: Ending)
    requires request.key.Some? && 8 <= |request.key.value| <= 200
    requires Identity(request.tenantId, request.operation, request.key.value) !in results
    ensures var answer := ExecuteSimply(results, request, ending);
            match ending
            case Raised => answer == Answer(results, Err(ActionFailed))
            case Returned(value) => answer.result == Ok(value)
  {
  }

  /**
    A second request meets the first only when tenant, operation and key are all
    the same: then it is answered with the first result, or refused because its
    payload differs, and its action does not run.  Requests that differ in any of
    the three are answered as if the other had not been made.
  */
  lemma SecondCall(results: map<Identity, Entry>, a: Request, ending: Ending, b: Request, ending': Ending)
    requires ExecuteSimply(results, a, ending).result.Ok?
    ensures var first := ExecuteSimply(results, a, ending);
            var second := ExecuteSimply(first.results, b, ending');
            if b.tenantId == a.tenantId && b.operation == a.operation && b.key == a.key then
              second == Answer(first.results, if b.payload == a.payload then first.result else Err(PayloadConflict))
            else
              && second.result == ExecuteSimply(results, b, ending').result
              && ExecuteSimply(second.results, a, ending).result == first.result
  {
  }

  // ---------- the durable form ----------

  datatype State = Running | Completed(result: Value)

  /** A reservation; its owner is the caller whose token it carries. */
  datatype Reservation = Reservation(digest: Digest, state: State, owner: nat)

  datatype Caller =
    | Fresh(request: Request)
    | Acting(request: Request)
    | Completing(request: Request, value: Value)
    | Releasing(request: Request, reason: Failure)
    | Finished(request: Request, outcome: Outcome)
    | Gone(request: Request)
  {
    predicate Over() {
      Finished? || Gone?
    }
  }

  datatype Outcome =
    | Performed(value: Value)
    | Replayed(value: Value)
    | Failed(reason: Failure)

  /**
    Which caller acts next, and how its environment behaves.  A caller vanishes
    when its process is killed, or when something passes through it that is not
    an ordinary exception, so that it lets go of nothing.
  */
  datatype Event =
    | Call(id: nat, request: Request)
    | Reserve(id: nat, commit: Commit)
    | EndAction(id: nat, ending: Ending)
    | Complete(id: nat, commit: Commit)
    | Release(id: nat, commit: Commit)
    | Vanish(id: nat)

  /** A commit that works, fails without effect, or takes effect and is reported as failed. */
  datatype Commit = Good | Undone | Unreported

  /** What a transaction leaves behind when its commit goes this way. */
  function Committed(commit: Commit, before: map<Identity, Reservation>, after: map<Identity, Reservation>)
    : map<Identity, Reservation>
  {
    if commit.Undone? then before else after
  }

  datatype System = System(records: map<Identity, Reservation>, callers: map<nat, Caller>)

  const INITIAL := System(map[], map[])

  function Insert(records: map<Identity, Reservation>, id: Identity, digest: Digest, owner: nat)
    : map<Identity, Reservation>
  {
    if id in records then records else records[id := Reservation(digest, Running, owner)]
  }

  function Finish(records: map<Identity, Reservation>, id: Identity, owner: nat, value: Value)
    : map<Identity, Reservation>
  {
    if id in records && records[id].owner == owner then
      records[id := records[id].(state := Completed(value))]
    else records
  }

  function Drop(records: map<Identity, Reservation>, id: Identity, owner: nat): map<Identity, Reservation> {
    if id in records && records[id].owner == owner && records[id].state.Running? then records - {id} else records
  }

  /** What a caller does after its reserving transaction; a failed one is outside the handler that lets go. */
  function AfterReserve(before: map<Identity, Reservation>, request: Request, owner: nat, commit: Commit): Caller
    requires request.KeyFits()
  {
    var id := request.Scope();
    if !commit.Good? then Finished(request, Failed(StoreFailed))
    else if id !in before then Acting(request)
    else if before[id].digest != request.Hash() then Finished(request, Failed(PayloadConflict))
    else
      match before[id].state
      case Completed(value) => Finished(request, Replayed(value))
      case Running => Finished(request, Failed(InProgress))
  }

  /** `encode` is the round trip of a result through its stored form. */
  function Step(encode: Value -> Value, sys: System, event: Event): System {
    var records := sys.records;
    match event
    case Call(p, request) =>
      if p in sys.callers then sys
      else
        sys.(callers := sys.callers[
          p := if request.KeyFits() then Fresh(request) else Finished(request, Failed(KeyRequired))])
    case Reserve(p, commit) =>
      if p !in sys.callers || !sys.callers[p].Fresh? || !sys.callers[p].request.KeyFits() then sys
      else
        var request := sys.callers[p].request;
        System(Committed(commit, records, Insert(records, request.Scope(), request.Hash(), p)),
               sys.callers[p := AfterReserve(records, request, p, commit)])
    case EndAction(p, ending) =>
      if p !in sys.callers || !sys.callers[p].Acting? then sys
      else
        var request := sys.callers[p].request;
        sys.(callers := sys.callers[
          p := match ending
               case Returned(value) => Completing(request, value)
               case Raised => Releasing(request, ActionFailed)])
    case Complete(p, commit) =>
      if p !in sys.callers || !sys.callers[p].Completing? || !sys.callers[p].request.KeyFits() then sys
      else
        var request, value := sys.callers[p].request, sys.callers[p].value;
        var id := request.Scope();
        if id !in records || records[id].owner != p then
          sys.(callers := sys.callers[p := Releasing(request, OwnershipLost)])
        else
          System(Committed(commit, records, Finish(records, id, p, encode(value))),
                 sys.callers[
                   p := if commit.Good? then Finished(request, Performed(value))
                        else Releasing(request, StoreFailed)])
    case Release(p, commit) =>
      if p !in sys.callers || !sys.callers[p].Releasing? || !sys.callers[p].request.KeyFits() then sys
      else
        var request := sys.callers[p].request;
        System(Committed(commit, records, Drop(records, request.Scope(), p)),
               sys.callers[
                 p := Finished(request, Failed(if commit.Good? then sys.callers[p].reason else StoreFailed))])
    case Vanish(p) =>
      if p !in sys.callers || sys.callers[p].Over() then sys
      else sys.(callers := sys.callers[p := Gone(sys.callers[p].request)])
  }

  /** A step touches no record but that of its caller's own tenant, operation and key. */
  lemma DifferentDoNotMeet(encode: Value -> Value, sys: System, event: Event, id: Identity)
    requires event.id in sys.callers ==>
               var request := sys.callers[event.id].request;
               request.tenantId != id.tenantId || request.operation != id.operation || request.key != Some(id.key)
    ensures var sys' := Step(encode, sys, event);
            && (id in sys'.records <==> id in sys.records)
            && (id in sys.records ==> sys'.records[id] == sys.records[id])
  {
  }

  /** What a reservation finds under its tenant, operation and key decides what its caller does next. */
  lemma ReserveOutcome(encode: Value -> Value, sys: System, p: nat, request: Request)
    requires p in sys.callers && sys.callers[p] == Fresh(request)
    requires request.key.Some? && 8 <= |request.key.value| <= 200
    ensures var id := Identity(request.tenantId, request.operation, request.key.value);
            Step(encode, sys, Reserve(p, Good))
            == if id !in sys.records then
                 System(sys.records[id := Reservation(Digest(request.payload), Running, p)],
                        sys.callers[p := Acting(request)])
               else
                 var outcome :=
                   if sys.records[id].digest != Digest(request.payload) then Failed(PayloadConflict)
                   else if sys.records[id].state.Running? then Failed(InProgress)
                   else Replayed(sys.records[id].state.result);
                 sys.(callers := sys.callers[p := Finished(request, outcome)])
  {
  }

  /** The caller has reserved its identity and has not let go of it. */
  predicate Inside(caller: Caller) {
    caller.Acting? || caller.Completing?
  }

  predicate Holds(sys: System, p: nat, id: Identity)
    requires p in sys.callers
  {
    sys.callers[p].request.KeyFits() && sys.callers[p].request.Scope() == id
    && (Inside(sys.callers[p]) || sys.callers[p].Releasing?)
  }

  /** What each caller can rely on. */
  ghost predicate CallerOk(encode: Value -> Value, sys: System, p: nat, caller: Caller) {
    && (!(caller.Finished? && caller.outcome.Failed?) ==> caller.request.KeyFits())
    && (Inside(caller) ==>
          var id := caller.request.Scope();
          id in sys.records && sys.records[id] == Reservation(caller.request.Hash(), Running, p))
    && (caller.Releasing? ==>
          && caller.reason != OwnershipLost
          && var id := caller.request.Scope();
             id in sys.records && sys.records[id].owner == p && sys.records[id].digest == caller.request.Hash())
    && (caller.Finished? ==>
          match caller.outcome
          case Failed(reason) => reason != OwnershipLost
          case Replayed(value) =>
            var id := caller.request.Scope();
            id in sys.records && sys.records[id].digest == caller.request.Hash()
            && sys.records[id].state == Completed(value)
          case Performed(value) =>
            var id := caller.request.Scope();
            id in sys.records && sys.records[id] == Reservation(caller.request.Hash(), Completed(encode(value)), p))
  }

  ghost predicate CallersOk(encode: Value -> Value, sys: System) {
    forall p :: p in sys.callers ==> CallerOk(encode, sys, p, sys.callers[p])
  }

  /** The caller vanished, or ended with a store failure, and left its identity reserved. */
  predicate Abandons(sys: System, p: nat, id: Identity)
    requires p in sys.callers
  {
    && sys.callers[p].request.KeyFits() && sys.callers[p].request.Scope() == id
    && (sys.callers[p].Gone? || (sys.callers[p].Finished? && sys.callers[p].outcome == Failed(StoreFailed)))
  }

  /** A running record belongs to a caller that still holds it, vanished or ended with a store failure. */
  ghost predicate RecordsOwned(sys: System) {
    forall id :: id in sys.records && sys.records[id].state.Running? ==>
      && sys.records[id].owner in sys.callers
      && (Holds(sys, sys.records[id].owner, id) || Abandons(sys, sys.records[id].owner, id))
  }

  ghost predicate Invariant(encode: Value -> Value, sys: System) {
    CallersOk(encode, sys) && RecordsOwned(sys)
  }

  lemma ReserveKeeps(encode: Value -> Value, sys: System, p: nat, commit: Commit)
    requires Invariant(encode, sys)
    ensures Invariant(encode, Step(encode, sys, Reserve(p, commit)))
  {
  }

  lemma EndKeeps(encode: Value -> Value, sys: System, p: nat, ending: Ending)
    requires Invariant(encode, sys)
    ensures Invariant(encode, Step(encode, sys, EndAction(p, ending)))
  {
  }

  lemma CompleteKeeps(encode: Value -> Value, sys: System, p: nat, commit: Commit)
    requires Invariant(encode, sys)
    ensures Invariant(encode, Step(encode, sys, Complete(p, commit)))
  {
  }

  lemma ReleaseKeeps(encode: Value -> Value, sys: System, p: nat, commit: Commit)
    requires Invariant(encode, sys)
    ensures Invariant(encode, Step(encode, sys, Release(p, commit)))
  {
  }

  lemma VanishKeeps(encode: Value -> Value, sys: System, p: nat)
    requires Invariant(encode, sys)
    ensures Invariant(encode, Step(encode, sys, Vanish(p)))
  {
  }

  lemma StepKeeps(encode: Value -> Value, sys: System, event: Event)
    requires Invariant(encode, sys)
    ensures Invariant(encode, Step(encode, sys, event))
  {
    match event {
      case Call(_, _) =>
      case Reserve(p, commit) => ReserveKeeps(encode, sys, p, commit);
      case EndAction(p, ending) => EndKeeps(encode, sys, p, ending);
      case Complete(p, commit) => CompleteKeeps(encode, sys, p, commit);
      case Release(p, commit) => ReleaseKeeps(encode, sys, p, commit);
      case Vanish(p) => VanishKeeps(encode, sys, p);
    }
  }

  function Execute(encode: Value -> Value, events: seq<Event>): System {
    if events == [] then INITIAL
    else Step(encode, Execute(encode, events[..|events| - 1]), events[|events| - 1])
  }

  lemma {:induction false} ExecuteKeeps(encode: Value -> Value, events: seq<Event>)
    ensures Invariant(encode, Execute(encode, events))
  {
    if events == [] {
    } else {
      ExecuteKeeps(encode, events[..|events| - 1]);
      StepKeeps(encode, Execute(encode, events[..|events| - 1]), events[|events| - 1]);
    }
  }

  // ---------- what follows for every interleaving ----------

  /**
    Mutual exclusion: at most one caller is inside the action for an identity,
    the running record carries that caller's token, and nobody ever loses
    ownership.
  */
  lemma MutualExclusion(encode: Value -> Value, events: seq<Event>, p: nat, q: nat)
    requires var sys := Execute(encode, events); p in sys.callers && q in sys.callers
    requires var sys := Execute(encode, events); Inside(sys.callers[p]) && Inside(sys.callers[q])
    ensures var sys := Execute(encode, events);
            && sys.callers[p].request.KeyFits() && sys.callers[q].request.KeyFits()
            && (sys.callers[p].request.Scope() == sys.callers[q].request.Scope() ==> p == q)
            && sys.callers[p].request.Scope() in sys.records
            && sys.records[sys.callers[p].request.Scope()].owner == p
  {
    ExecuteKeeps(encode, events);
    var sys := Execute(encode, events);
    assert CallerOk(encode, sys, p, sys.callers[p]) && CallerOk(encode, sys, q, sys.callers[q]);
  }

  lemma OwnershipNeverLost(encode: Value -> Value, events: seq<Event>, p: nat)
    requires p in Execute(encode, events).callers
    ensures var caller := Execute(encode, events).callers[p];
            && !(caller.Releasing? && caller.reason.OwnershipLost?)
            && !(caller.Finished? && caller.outcome == Failed(OwnershipLost))
  {
    ExecuteKeeps(encode, events);
    var sys := Execute(encode, events);
    assert CallerOk(encode, sys, p, sys.callers[p]);
  }

  /** A completed record is never changed or deleted. */
  ghost predicate CompletedStay(sys: System, sys': System) {
    forall id :: id in sys.records && sys.records[id].state.Completed? ==>
      id in sys'.records && sys'.records[id] == sys.records[id]
  }

  lemma StepCompleted(encode: Value -> Value, sys: System, event: Event)
    requires Invariant(encode, sys)
    ensures CompletedStay(sys, Step(encode, sys, event))
  {
    if event.Complete? && event.id in sys.callers {
      assert CallerOk(encode, sys, event.id, sys.callers[event.id]);
    }
  }

  lemma {:induction false} CompletedForever(encode: Value -> Value, before: seq<Event>, after: seq<Event>)
    ensures CompletedStay(Execute(encode, before), Execute(encode, before + after))
    decreases |after|
  {
    if after == [] {
      assert before + after == before;
    } else {
      var n := |after| - 1;
      assert (before + after)[..|before + after| - 1] == before + after[..n];
      CompletedForever(encode, before, after[..n]);
      ExecuteKeeps(encode, before + after[..n]);
      StepCompleted(encode, Execute(encode, before + after[..n]), after[n]);
    }
  }

  /**
    One action's result for everyone: once a record is completed, every later
    reservation of the same identity returns its stored result for the same
    payload, refuses any other payload, and never runs the action, whatever its
    own commit does.
  */
  lemma LaterCallsReplay(
    encode: Value -> Value, before: seq<Event>, after: seq<Event>, id: Identity, p: nat, commit: Commit)
    requires id in Execute(encode, before).records && Execute(encode, before).records[id].state.Completed?
    requires p in Execute(encode, before + after).callers && Execute(encode, before + after).callers[p].Fresh?
    requires Execute(encode, before + after).callers[p].request.KeyFits()
    requires Execute(encode, before + after).callers[p].request.Scope() == id
    ensures var record := Execute(encode, before).records[id];
            var sys := Execute(encode, before + after);
            var sys' := Step(encode, sys, Reserve(p, commit));
            && sys'.records == sys.records
            && sys'.callers[p]
               == Finished(sys.callers[p].request,
                           if !commit.Good? then Failed(StoreFailed)
                           else if record.digest == sys.callers[p].request.Hash()
                           then Replayed(record.state.result) else Failed(PayloadConflict))
  {
    CompletedForever(encode, before, after);
  }

  /** Two callers that were both told that they performed the action for one identity are the same caller. */
  lemma PerformedOnce(encode: Value -> Value, events: seq<Event>, p: nat, q: nat)
    requires var sys := Execute(encode, events); p in sys.callers && q in sys.callers
    requires var sys := Execute(encode, events); sys.callers[p].Finished? && sys.callers[q].Finished?
    requires var sys := Execute(encode, events);
             sys.callers[p].outcome.Performed? && sys.callers[q].outcome.Performed?
    ensures var sys := Execute(encode, events);
            && sys.callers[p].request.KeyFits() && sys.callers[q].request.KeyFits()
            && (sys.callers[p].request.Scope() == sys.callers[q].request.Scope() ==> p == q)
  {
    ExecuteKeeps(encode, events);
    var sys := Execute(encode, events);
    assert CallerOk(encode, sys, p, sys.callers[p]) && CallerOk(encode, sys, q, sys.callers[q]);
  }

  // ---------- reservations nobody lets go of ----------

  /** The identity is reserved and whoever reserved it is gone. */
  predicate Stuck(sys: System, id: Identity) {
    && id in sys.records && sys.records[id].state.Running?
    && sys.records[id].owner in sys.callers && sys.callers[sys.records[id].owner].Over()
  }

  /**
    The event that strands a reservation: a commit that does not do what its
    caller is told, or the end of a caller that lets go of nothing.
  */
  predicate Strands(sys: System, event: Event, id: Identity) {
    match event
    case Reserve(p, commit) =>
      && p in sys.callers && sys.callers[p].Fresh? && sys.callers[p].request.KeyFits()
      && sys.callers[p].request.Scope() == id && id !in sys.records && commit.Unreported?
    case Release(p, commit) =>
      && p in sys.callers && sys.callers[p].Releasing? && sys.callers[p].request.KeyFits()
      && sys.callers[p].request.Scope() == id && id in sys.records && sys.records[id].state.Running?
      && commit.Undone?
    case Vanish(p) =>
      && p in sys.callers && !sys.callers[p].Over() && id in sys.records
      && sys.records[id].state.Running? && sys.records[id].owner == p
    case _ => false
  }

  lemma StrandedExactly(encode: Value -> Value, sys: System, event: Event, id: Identity)
    requires Invariant(encode, sys)
    ensures Stuck(Step(encode, sys, event), id) <==> Stuck(sys, id) || Strands(sys, event, id)
    ensures Stuck(sys, id) ==> Step(encode, sys, event).records[id] == sys.records[id]
  {
    match event {
      case Reserve(p, _) => assert p in sys.callers ==> CallerOk(encode, sys, p, sys.callers[p]);
      case Release(p, _) => assert p in sys.callers ==> CallerOk(encode, sys, p, sys.callers[p]);
      case Complete(p, _) => assert p in sys.callers ==> CallerOk(encode, sys, p, sys.callers[p]);
      case _ =>
    }
  }

  /** The run has an event that strands the identity's reservation. */
  ghost predicate Stranded(encode: Value -> Value, events: seq<Event>, id: Identity) {
    exists k :: 0 <= k < |events| && Strands(Execute(encode, events[..k]), events[k], id)
  }

  lemma StrandedLast(encode: Value -> Value, events: seq<Event>, event: Event, id: Identity)
    ensures Stranded(encode, events + [event], id)
       <==> Stranded(encode, events, id) || Strands(Execute(encode, events), event, id)
  {
    var all, n := events + [event], |events|;
    assert all[..n] == events && all[n] == event;
    forall k | 0 <= k < n ensures all[..k] == events[..k] && all[k] == events[k] {
    }
    if Strands(Execute(encode, events), event, id) {
      assert Strands(Execute(encode, all[..n]), all[n], id);
    }
    if Stranded(encode, events, id) {
      var k :| 0 <= k < n && Strands(Execute(encode, events[..k]), events[k], id);
      assert Strands(Execute(encode, all[..k]), all[k], id);
    }
  }

  /**
    A reservation is stuck exactly when some event of the run stranded it: the
    reserving commit took effect and was reported as failed, the release of a
    running record was undone, or the owner of a running record vanished.
  */
  lemma {:induction false} StuckExactly(encode: Value -> Value, events: seq<Event>, id: Identity)
    ensures Stuck(Execute(encode, events), id) <==> Stranded(encode, events, id)
  {
    if events == [] {
    } else {
      var n := |events| - 1;
      StuckExactly(encode, events[..n], id);
      ExecuteKeeps(encode, events[..n]);
      StrandedExactly(encode, Execute(encode, events[..n]), events[n], id);
      StrandedLast(encode, events[..n], events[n], id);
      assert events == events[..n] + [events[n]];
    }
  }

  /** As long as no event stranded it, a running record has a holder. */
  lemma RunningHeld(encode: Value -> Value, events: seq<Event>, id: Identity)
    requires id in Execute(encode, events).records && Execute(encode, events).records[id].state.Running?
    requires !Stranded(encode, events, id)
    ensures var sys := Execute(encode, events);
            sys.records[id].owner in sys.callers && Holds(sys, sys.records[id].owner, id)
  {
    ExecuteKeeps(encode, events);
    StuckExactly(encode, events, id);
  }

  /**
    A stuck reservation stays as it is for the rest of the run, and every later
    call for its identity is refused without running the action.
  */
  lemma {:induction false} StuckForever(encode: Value -> Value, before: seq<Event>, after: seq<Event>, id: Identity)
    requires Stuck(Execute(encode, before), id)
    ensures var sys, sys' := Execute(encode, before), Execute(encode, before + after);
            Stuck(sys', id) && sys'.records[id] == sys.records[id]
    decreases |after|
  {
    if after == [] {
      assert before + after == before;
    } else {
      var n := |after| - 1;
      assert (before + after)[..|before + after| - 1] == before + after[..n];
      StuckForever(encode, before, after[..n], id);
      ExecuteKeeps(encode, before + after[..n]);
      StrandedExactly(encode, Execute(encode, before + after[..n]), after[n], id);
    }
  }

  lemma StuckRefuses(
    encode: Value -> Value, before: seq<Event>, after: seq<Event>, id: Identity, p: nat, commit: Commit)
    requires Stuck(Execute(encode, before), id)
    requires p in Execute(encode, before + after).callers && Execute(encode, before + after).callers[p].Fresh?
    requires Execute(encode, before + after).callers[p].request.KeyFits()
    requires Execute(encode, before + after).callers[p].request.Scope() == id
    ensures var record := Execute(encode, before).records[id];
            var sys := Execute(encode, before + after);
            var sys' := Step(encode, sys, Reserve(p, commit));
            && sys'.records == sys.records
            && sys'.callers[p]
               == Finished(sys.callers[p].request,
                           if !commit.Good? then Failed(StoreFailed)
                           else if record.digest == sys.callers[p].request.Hash()
                           then Failed(InProgress) else Failed(PayloadConflict))
  {
    StuckForever(encode, before, after, id);
  }

  /** The shortest such run: the reserving commit takes effect, and its caller is told that it failed. */
  lemma ReservationStrands(encode: Value -> Value, request: Request, p: nat)
    requires request.KeyFits()
    ensures var sys := Execute(encode, [Call(p, request), Reserve(p, Unreported)]);
            && Stuck(sys, request.Scope())
            && p in sys.callers && sys.callers[p] == Finished(request, Failed(StoreFailed))
  {
    var events := [Call(p, request), Reserve(p, Unreported)];
    assert events[..1] == [Call(p, request)] && events[..1][..0] == [];
    assert Execute(encode, events[..1]) == Step(encode, INITIAL, Call(p, request));
  }

  /** A caller that is killed right after its reservation strands it. */
  lemma VanishingStrands(encode: Value -> Value, request: Request, p: nat)
    requires request.KeyFits()
    ensures var sys := Execute(encode, [Call(p, request), Reserve(p, Good), Vanish(p)]);
            && Stuck(sys, request.Scope())
            && p in sys.callers && sys.callers[p] == Gone(request)
  {
    var events := [Call(p, request), Reserve(p, Good), Vanish(p)];
    assert events[..2] == [Call(p, request), Reserve(p, Good)];
    assert events[..2][..1] == [Call(p, request)] && events[..2][..1][..0] == [];
    assert Execute(encode, events[..2][..1]) == Step(encode, INITIAL, Call(p, request));
    assert Execute(encode, events[..2]) == Step(encode, Execute(encode, events[..2][..1]), Reserve(p, Good));
  }

  // ---------- entering an action again ----------

  /** A reserving transaction that inserts the identity's record. */
  predicate Takes(sys: System, event: Event, id: Identity) {
    && event.Reserve? && event.id in sys.callers && sys.callers[event.id].Fresh?
    && sys.callers[event.id].request.KeyFits() && sys.callers[event.id].request.Scope() == id
    && id !in sys.records && !event.commit.Undone?
  }

  /** A caller enters the action for an identity. */
  predicate Enters(sys: System, event: Event, id: Identity) {
    Takes(sys, event, id) && event.commit.Good?
  }

  /** The release, by its owner, of the identity's running record takes effect. */
  predicate Frees(sys: System, event: Event, id: Identity) {
    && event.Release? && event.id in sys.callers && sys.callers[event.id].Releasing?
    && sys.callers[event.id].request.KeyFits() && sys.callers[event.id].request.Scope() == id
    && id in sys.records && sys.records[id].owner == event.id && sys.records[id].state.Running?
    && !event.commit.Undone?
  }

  /** An event between two moments of a run. */
  predicate FreesAt(encode: Value -> Value, before: seq<Event>, after: seq<Event>, j: nat, id: Identity)
    requires j < |after|
  {
    Frees(Execute(encode, before + after[..j]), after[j], id)
  }

  predicate TakesAt(encode: Value -> Value, before: seq<Event>, after: seq<Event>, j: nat, id: Identity)
    requires j < |after|
  {
    Takes(Execute(encode, before + after[..j]), after[j], id)
  }

  /** Since the first moment the record was released, and not taken again after that. */
  predicate FreeSince(encode: Value -> Value, before: seq<Event>, after: seq<Event>, id: Identity) {
    exists j :: 0 <= j < |after| && FreesAt(encode, before, after, j, id)
                && forall i :: j < i < |after| ==> !TakesAt(encode, before, after, i, id)
  }

  lemma StepFrees(encode: Value -> Value, sys: System, event: Event, id: Identity)
    ensures id !in Step(encode, sys, event).records
       <==> Frees(sys, event, id) || (id !in sys.records && !Takes(sys, event, id))
  {
  }

  /** What happened before the last event of a run does not depend on it. */
  lemma EarlierSame(encode: Value -> Value, before: seq<Event>, after: seq<Event>, event: Event, j: nat, id: Identity)
    requires j < |after|
    ensures FreesAt(encode, before, after + [event], j, id) == FreesAt(encode, before, after, j, id)
    ensures TakesAt(encode, before, after + [event], j, id) == TakesAt(encode, before, after, j, id)
  {
    assert (after + [event])[..j] == after[..j] && (after + [event])[j] == after[j];
  }

  lemma LastIsEvent(encode: Value -> Value, before: seq<Event>, after: seq<Event>, event: Event, id: Identity)
    ensures FreesAt(encode, before, after + [event], |after|, id) == Frees(Execute(encode, before + after), event, id)
    ensures TakesAt(encode, before, after + [event], |after|, id) == Takes(Execute(encode, before + after), event, id)
  {
    assert (after + [event])[..|after|] == after;
  }

  lemma FreeNow(encode: Value -> Value, before: seq<Event>, after: seq<Event>, event: Event, id: Identity)
    requires Frees(Execute(encode, before + after), event, id)
    ensures FreeSince(encode, before, after + [event], id)
  {
    LastIsEvent(encode, before, after, event, id);
  }

  lemma FreeStays(encode: Value -> Value, before: seq<Event>, after: seq<Event>, event: Event, id: Identity)
    requires FreeSince(encode, before, after, id) && !Takes(Execute(encode, before + after), event, id)
    ensures FreeSince(encode, before, after + [event], id)
  {
    var all, n := after + [event], |after|;
    var j :| 0 <= j < n && FreesAt(encode, before, after, j, id)
          && forall i :: j < i < n ==> !TakesAt(encode, before, after, i, id);
    EarlierSame(encode, before, after, event, j, id);
    forall i | j < i < |all| ensures !TakesAt(encode, before, all, i, id) {
      if i < n {
        EarlierSame(encode, before, after, event, i, id);
      } else {
        LastIsEvent(encode, before, after, event, id);
      }
    }
  }

  lemma FreeFrom(encode: Value -> Value, before: seq<Event>, after: seq<Event>, event: Event, id: Identity)
    requires FreeSince(encode, before, after + [event], id) && !Frees(Execute(encode, before + after), event, id)
    ensures FreeSince(encode, before, after, id) && !Takes(Execute(encode, before + after), event, id)
  {
    var all, n := after + [event], |after|;
    LastIsEvent(encode, before, after, event, id);
    var j :| 0 <= j < |all| && FreesAt(encode, before, all, j, id)
          && forall i :: j < i < |all| ==> !TakesAt(encode, before, all, i, id);
    EarlierSame(encode, before, after, event, j, id);
    forall i | j < i < n ensures !TakesAt(encode, before, after, i, id) {
      EarlierSame(encode, before, after, event, i, id);
    }
  }

  lemma FreeSinceLast(encode: Value -> Value, before: seq<Event>, after: seq<Event>, event: Event, id: Identity)
    ensures FreeSince(encode, before, after + [event], id)
       <==> || Frees(Execute(encode, before + after), event, id)
            || (FreeSince(encode, before, after, id) && !Takes(Execute(encode, before + after), event, id))
  {
    if Frees(Execute(encode, before + after), event, id) {
      FreeNow(encode, before, after, event, id);
    } else if FreeSince(encode, before, after + [event], id) {
      FreeFrom(encode, before, after, event, id);
    } else if FreeSince(encode, before, after, id) && !Takes(Execute(encode, before + after), event, id) {
      FreeStays(encode, before, after, event, id);
    }
  }

  lemma {:induction false} FreeExactly(encode: Value -> Value, before: seq<Event>, after: seq<Event>, id: Identity)
    requires id in Execute(encode, before).records
    ensures id !in Execute(encode, before + after).records <==> FreeSince(encode, before, after, id)
    decreases |after|
  {
    if after == [] {
      assert before + after == before;
    } else {
      var n := |after| - 1;
      assert (before + after)[..|before + after| - 1] == before + after[..n];
      FreeExactly(encode, before, after[..n], id);
      StepFrees(encode, Execute(encode, before + after[..n]), after[n], id);
      FreeSinceLast(encode, before, after[..n], after[n], id);
      assert after == after[..n] + [after[n]];
    }
  }

  /**
    Exactly when an action is entered again: a caller whose reservation commits
    enters the action for an identity that was reserved before if and only if
    the owner's release of its running record took effect since then, and nobody
    reserved the identity after that.
  */
  lemma ReentryExactly(
    encode: Value -> Value, before: seq<Event>, after: seq<Event>, id: Identity, p: nat)
    requires id in Execute(encode, before).records
    requires p in Execute(encode, before + after).callers && Execute(encode, before + after).callers[p].Fresh?
    requires Execute(encode, before + after).callers[p].request.KeyFits()
    requires Execute(encode, before + after).callers[p].request.Scope() == id
    ensures Step(encode, Execute(encode, before + after), Reserve(p, Good)).callers[p].Acting?
       <==> FreeSince(encode, before, after, id)
  {
    FreeExactly(encode, before, after, id);
  }

  /** Between two entries of one identity's action lies a release of its record. */
  lemma EnteredTwice(encode: Value -> Value, before: seq<Event>, after: seq<Event>, id: Identity, next: Event)
    requires before != [] && Enters(Execute(encode, before[..|before| - 1]), before[|before| - 1], id)
    requires Enters(Execute(encode, before + after), next, id)
    ensures exists j :: 0 <= j < |after| && FreesAt(encode, before, after, j, id)
  {
    FreeExactly(encode, before, after, id);
  }

  /** A run that acts twice for one identity: the first result is lost with its completing transaction. */
  function TwiceRun(request: Request, value: Value): seq<Event> {
    [Call(0, request), Reserve(0, Good), EndAction(0, Returned(value)), Complete(0, Undone), Release(0, Good),
     Call(1, request), Reserve(1, Good)]
  }

  lemma ActsTwice(encode: Value -> Value, request: Request, value: Value)
    requires request.KeyFits()
    ensures var run := TwiceRun(request, value);
            && Enters(Execute(encode, run[..1]), run[1], request.Scope())
            && Execute(encode, run[..3]).callers == map[0 := Completing(request, value)]
            && Enters(Execute(encode, run[..6]), run[6], request.Scope())
  {
    var run := TwiceRun(request, value);
    assert run[..1][..0] == [] && run[..2][..1] == run[..1] && run[..3][..2] == run[..2];
    assert run[..4][..3] == run[..3] && run[..5][..4] == run[..4] && run[..6][..5] == run[..5];
    var records := map[request.Scope() := Reservation(request.Hash(), Running, 0)];
    assert Execute(encode, run[..1]) == System(map[], map[0 := Fresh(request)]);
    assert Execute(encode, run[..2]) == System(records, map[0 := Acting(request)]);
    assert Execute(encode, run[..3]) == System(records, map[0 := Completing(request, value)]);
    assert Execute(encode, run[..4]) == System(records, map[0 := Releasing(request, StoreFailed)]);
    assert Execute(encode, run[..5]).records == map[];
  }

  // ---------- the durable form refines the simple one ----------

  /** The completed records, as the simple store would hold them. */
  function Results(records: map<Identity, Reservation>): map<Identity, Entry> {
    map id | id in records && records[id].state.Completed? :: Entry(records[id].digest, records[id].state.result)
  }

  /** One call on its own, with commits that work: reserve, act, complete or release. */
  function Alone(encode: Value -> Value, sys: System, p: nat, request: Request, ending: Ending): System {
    var s1 := Step(encode, Step(encode, sys, Call(p, request)), Reserve(p, Good));
    var s2 := Step(encode, s1, EndAction(p, ending));
    Step(encode, Step(encode, s2, Complete(p, Good)), Release(p, Good))
  }

  function Reported(outcome: Outcome): Result<Value, Failure> {
    match outcome
    case Performed(value) => Ok(value)
    case Replayed(value) => Ok(value)
    case Failed(reason) => Err(reason)
  }

  /** The ending as the durable store will remember it. */
  function Encoded(encode: Value -> Value, ending: Ending): Ending {
    match ending
    case Returned(value) => Returned(encode(value))
    case Raised => Raised
  }

  /** The call stores a new result. */
  predicate StoresResult(sys: System, request: Request, ending: Ending) {
    request.KeyFits() && request.Scope() !in sys.records && ending.Returned?
  }

  /**
    Without concurrency the durable store answers what the simple store answers
    and keeps what the simple store would keep of the encoded result; so it keeps
    the same, unless it stores a new result that its encoding changes.
  */
  lemma AloneIsSimple(encode: Value -> Value, sys: System, p: nat, request: Request, ending: Ending)
    requires p !in sys.callers
    requires request.KeyFits() && request.Scope() in sys.records ==>
               sys.records[request.Scope()].state.Completed?
    ensures var sys' := Alone(encode, sys, p, request, ending);
            var simple := ExecuteSimply(Results(sys.records), request, ending);
            && p in sys'.callers && sys'.callers[p].Finished?
            && Reported(sys'.callers[p].outcome) == simple.result
            && Results(sys'.records)
               == ExecuteSimply(Results(sys.records), request, Encoded(encode, ending)).results
            && (Results(sys'.records) == simple.results
                <==> (StoresResult(sys, request, ending) ==> encode(ending.value) == ending.value))
  {
    var s0 := Step(encode, sys, Call(p, request));
    if request.KeyFits() {
      var id, s1 := request.Scope(), Step(encode, s0, Reserve(p, Good));
      AloneReserved(encode, s0, p, request);
      if id !in sys.records {
        var s2 := Step(encode, s1, EndAction(p, ending));
        if ending.Returned? {
          FinishResults(s1.records, id, p, encode(ending.value));
          InsertResults(sys.records, id, request.Hash(), p);
          EntriesDiffer(Results(sys.records), id, Entry(request.Hash(), encode(ending.value)),
                        Entry(request.Hash(), ending.value));
        } else {
          assert Drop(s2.records, id, p) == sys.records;
        }
      }
    }
  }

  lemma EntriesDiffer(results: map<Identity, Entry>, id: Identity, a: Entry, b: Entry)
    ensures results[id := a] == results[id := b] <==> a == b
  {
    assert results[id := a][id] == a && results[id := b][id] == b;
  }

  lemma AloneReserved(encode: Value -> Value, sys: System, p: nat, request: Request)
    requires p in sys.callers && sys.callers[p] == Fresh(request) && request.KeyFits()
    ensures var sys' := Step(encode, sys, Reserve(p, Good));
            && p in sys'.callers
            && (request.Scope() in sys.records ==> sys'.records == sys.records)
            && (request.Scope() !in sys.records ==>
                  && sys'.records == sys.records[request.Scope() := Reservation(request.Hash(), Running, p)]
                  && sys'.callers[p] == Acting(request))
  {
  }

  lemma InsertResults(records: map<Identity, Reservation>, id: Identity, digest: Digest, p: nat)
    requires id !in records
    ensures Results(records[id := Reservation(digest, Running, p)]) == Results(records)
  {
  }

  lemma FinishResults(records: map<Identity, Reservation>, id: Identity, p: nat, value: Value)
    requires id in records && records[id].owner == p && records[id].state.Running?
    ensures Results(Finish(records, id, p, value))
         == Results(records)[id := Entry(records[id].digest, value)]
  {
  }

  // ---------- the durable store as an object ----------

  class PostgresIdempotencyStore {
    var records: map<Identity, Reservation>

    constructor ()
      ensures records == map[]
    {
      records := map[];
    }

    /** The reserving transaction: insert unless present, read, and commit. */
    method ReserveRecord(request: Request, owner: nat, commit: Commit) returns (next: Caller)
      requires request.KeyFits()
      modifies this
      ensures records
           == Committed(commit, old(records), Insert(old(records), request.Scope(), request.Hash(), owner))
      ensures next == AfterReserve(old(records), request, owner, commit)
    {
      var id, digest, before := request.Scope(), request.Hash(), records;
      var inserted := id !in records;
      if inserted {
        records := records[id := Reservation(digest, Running, owner)];
      }
      var record := records[id];
      if commit.Undone? {
        records := before;
      }
      if !commit.Good? {
        return Finished(request, Failed(StoreFailed));
      }
      if record.digest != digest {
        return Finished(request, Failed(PayloadConflict));
      }
      if !inserted {
        match record.state {
          case Completed(value) => return Finished(request, Replayed(value));
          case Running => return Finished(request, Failed(InProgress));
        }
      }
      next := Acting(request);
    }

    /** The completing transaction; `done` says whether one row was updated and the commit worked. */
    method CompleteRecord(id: Identity, owner: nat, value: Value, commit: Commit) returns (done: bool)
      modifies this
      ensures records == Committed(commit, old(records), Finish(old(records), id, owner, value))
      ensures done <==> id in old(records) && old(records)[id].owner == owner && commit.Good?
    {
      var before := records;
      done := id in records && records[id].owner == owner;
      if done {
        records := records[id := records[id].(state := Completed(value))];
        if commit.Undone? {
          records := before;
        }
        done := commit.Good?;
      }
    }

    /** The releasing transaction; `done` says whether the commit worked. */
    method ReleaseRecord(id: Identity, owner: nat, commit: Commit) returns (done: bool)
      modifies this
      ensures records == Committed(commit, old(records), Drop(old(records), id, owner))
      ensures done <==> commit.Good?
    {
      var before := records;
      if id in records && records[id].owner == owner && records[id].state.Running? {
        records := records - {id};
      }
      if commit.Undone? {
        records := before;
      }
      done := commit.Good?;
    }
  }
}
