/**
  Resumable ingestion of a recorded event file (src/data/service.py,
  src/data/adapters/replay.py, src/data/store.py): what one line of the file
  does to the tables, and what a whole file means.
*/
module Ingestion {
  import opened Wrappers

  type Name(==, !new, 0)

  datatype SourceKey = SourceKey(tenantId: Name, sourceId: Name)

  /** A timestamp field after parsing. */
  datatype Stamp = NotText | Unreadable | NoTimezone | Utc(at: int)

  datatype Payload = Payload(
    tenantId: Option<Name>,
    sourceId: Option<Name>,
    externalId: Name,
    category: Option<Name>,
    occurredAt: Stamp,
    receivedAt: Stamp,
    attributes: Option<map<Name, Name>>,
    rest: Name)

  datatype Event = Event(
    source: SourceKey,
    externalId: Name,
    category: Name,
    occurredAt: int,
    receivedAt: int,
    attributes: map<Name, Name>,
    rest: Name)
  {
    function Key(): EventKey {
      EventKey(source, externalId)
    }
  }

  datatype EventKey = EventKey(source: SourceKey, externalId: Name)

  datatype ErrorCode =
    | EmptyRecord
    | MalformedJson
    | RecordNotObject
    | TenantMismatch
    | SourceMismatch
    | CategoryInvalid
    | TimestampInvalid
    | TimezoneMissing
    | ReceivedBeforeOccurred
    | AttributesInvalid
    | ContractInvalid
    | IdempotencyConflict
    | StoreUnavailable

  /** One line of the recorded file. */
  datatype Line = Blank | NotJson | NotObject | Record(payload: Payload)

  /** The category table, the event contract and the attribute allow-list. */
  datatype Rules = Rules(category: Option<Name> -> Option<Name>, conforms: Event -> bool, allowed: set<Name>)

  /** Clock skew allowed between the source and the receiver, in seconds. */
  const MAX_SKEW := 300

  function ParseUtc(stamp: Stamp): Result<int, ErrorCode> {
    match stamp
    case Utc(at) => Ok(at)
    case NoTimezone => Err(TimezoneMissing)
    case _ => Err(TimestampInvalid)
  }

  function Normalize(rules: Rules, source: SourceKey, payload: Payload): Result<Event, ErrorCode> {
    if payload.tenantId != Some(source.tenantId) then Err(TenantMismatch)
    else if payload.sourceId != Some(source.sourceId) then Err(SourceMismatch)
    else if rules.category(payload.category).None? then Err(CategoryInvalid)
    else
      match (ParseUtc(payload.occurredAt), ParseUtc(payload.receivedAt))
      case (Err(e), _) => Err(e)
      case (_, Err(e)) => Err(e)
      case (Ok(occurredAt), Ok(receivedAt)) =>
        if receivedAt + MAX_SKEW < occurredAt then Err(ReceivedBeforeOccurred)
        else if payload.attributes.None? then Err(AttributesInvalid)
        else
          var attributes := payload.attributes.value;
          var event := Event(
                         source, payload.externalId, rules.category(payload.category).value, occurredAt, receivedAt,
                         map key | key in attributes && key in rules.allowed :: attributes[key], payload.rest);
          if rules.conforms(event) then Ok(event) else Err(ContractInvalid)
  }

  /** What the adapter and the normalization make of a line. */
  function Judge(rules: Rules, source: SourceKey, line: Line): (r: Result<Event, ErrorCode>)
    ensures r.Ok? ==> r.value.source == source
    ensures r.Err? ==> r.error != IdempotencyConflict && r.error != StoreUnavailable
  {
    match line
    case Blank => Err(EmptyRecord)
    case NotJson => Err(MalformedJson)
    case NotObject => Err(RecordNotObject)
    case Record(payload) => Normalize(rules, source, payload)
  }

  /**
    The event a payload stands for: its own tenant, source, id and moments, its
    category as the table gives it, and of its attributes exactly those on the
    allow-list.
  */
  ghost predicate Stands(rules: Rules, source: SourceKey, payload: Payload, event: Event) {
    && payload.tenantId == Some(event.source.tenantId) && payload.sourceId == Some(event.source.sourceId)
    && event.source == source && event.externalId == payload.externalId && event.rest == payload.rest
    && rules.category(payload.category) == Some(event.category)
    && payload.occurredAt == Utc(event.occurredAt) && payload.receivedAt == Utc(event.receivedAt)
    && event.occurredAt <= event.receivedAt + 300
    && payload.attributes.Some?
    && (forall key :: key in event.attributes <==> key in payload.attributes.value && key in rules.allowed)
    && (forall key :: key in event.attributes ==> event.attributes[key] == payload.attributes.value[key])
  }

  /** The field of a payload that is refused first, in the order in which the fields are looked at. */
  function FirstFault(rules: Rules, source: SourceKey, payload: Payload): Option<ErrorCode> {
    if payload.tenantId != Some(source.tenantId) then Some(TenantMismatch)
    else if payload.sourceId != Some(source.sourceId) then Some(SourceMismatch)
    else if rules.category(payload.category).None? then Some(CategoryInvalid)
    else if payload.occurredAt.NotText? || payload.occurredAt.Unreadable? then Some(TimestampInvalid)
    else if payload.occurredAt.NoTimezone? then Some(TimezoneMissing)
    else if payload.receivedAt.NotText? || payload.receivedAt.Unreadable? then Some(TimestampInvalid)
    else if payload.receivedAt.NoTimezone? then Some(TimezoneMissing)
    else if payload.occurredAt.at - payload.receivedAt.at > 300 then Some(ReceivedBeforeOccurred)
    else if payload.attributes.None? then Some(AttributesInvalid)
    else None
  }

  /**
    What becomes of a line: a record without a fault yields the event it stands
    for, if the contract admits it, and every other line the reason it is
    refused for.
  */
  lemma JudgeOutcome(rules: Rules, source: SourceKey, line: Line)
    ensures match line
            case Blank => Judge(rules, source, line) == Err(EmptyRecord)
            case NotJson => Judge(rules, source, line) == Err(MalformedJson)
            case NotObject => Judge(rules, source, line) == Err(RecordNotObject)
            case Record(payload) =>
              match FirstFault(rules, source, payload)
              case Some(code) => Judge(rules, source, line) == Err(code)
              case None =>
                exists event :: Stands(rules, source, payload, event)
                                && Judge(rules, source, line)
                                   == if rules.conforms(event) then Ok(event) else Err(ContractInvalid)
  {
    if line.Record? && FirstFault(rules, source, line.payload).None? {
      var payload := line.payload;
      var attributes := payload.attributes.value;
      var event := Event(
        source, payload.externalId, rules.category(payload.category).value, payload.occurredAt.at,
        payload.receivedAt.at, map key | key in attributes && key in rules.allowed :: attributes[key], payload.rest);
      assert Stands(rules, source, payload, event);
    }
  }

  // ---------- tables ----------

  /** A quarantined line. */
  datatype Reject = Reject(source: SourceKey, line: nat, code: ErrorCode)

  datatype Tables = Tables(
    events: map<EventKey, Event>,
    quarantine: seq<Reject>,
    checkpoints: map<SourceKey, nat>)
  {
    function Checkpoint(source: SourceKey): nat {
      if source in checkpoints then checkpoints[source] else 0
    }

    function Posted(): Ledger {
      Ledger(events, set reject | reject in quarantine)
    }
  }

  /** The accepted events, and which lines were ever quarantined, however often. */
  datatype Ledger = Ledger(events: map<EventKey, Event>, rejects: set<Reject>)

  datatype Insertion = Inserted | Duplicate | Clash

  /** An event's content hash is taken to identify its normalized content. */
  function InsertionOf(events: map<EventKey, Event>, event: Event): Insertion {
    if event.Key() !in events then Inserted else if events[event.Key()] == event then Duplicate else Clash
  }

  /** Events of different tenants, sources or ids do not meet: neither changes what becomes of the other. */
  lemma DifferentDoNotMeet(events: map<EventKey, Event>, a: Event, b: Event)
    requires a.source.tenantId != b.source.tenantId || a.source.sourceId != b.source.sourceId
             || a.externalId != b.externalId
    ensures InsertionOf(events[a.Key() := a], b) == InsertionOf(events, b)
  {
  }

  function InsertEvent(t: Tables, event: Event): Tables {
    if InsertionOf(t.events, event).Inserted? then t.(events := t.events[event.Key() := event]) else t
  }

  function Quarantined(t: Tables, reject: Reject): Tables {
    t.(quarantine := t.quarantine + [reject])
  }

  function Committed(t: Tables, source: SourceKey, line: nat): Tables {
    t.(checkpoints := t.checkpoints[source := line])
  }

  lemma QuarantinePosted(t: Tables, reject: Reject)
    ensures Quarantined(t, reject).Posted() == Ledger(t.events, t.Posted().rejects + {reject})
  {
  }

  // ---------- what a file means ----------

  /** Line `n` (counted from 1) applied once, from start to end. */
  function Process(rules: Rules, source: SourceKey, v: Ledger, n: nat, line: Line): Ledger {
    match Judge(rules, source, line)
    case Err(code) => v.(rejects := v.rejects + {Reject(source, n, code)})
    case Ok(event) =>
      match InsertionOf(v.events, event)
      case Inserted => v.(events := v.events[event.Key() := event])
      case Duplicate => v
      case Clash => v.(rejects := v.rejects + {Reject(source, n, IdempotencyConflict)})
  }

  /** The lines after `start`, up to and including `n`. */
  function Through(rules: Rules, source: SourceKey, file: seq<Line>, v: Ledger, start: nat, n: nat): Ledger
    requires n <= |file| || n <= start
  {
    if n <= start then v
    else Process(rules, source, Through(rules, source, file, v, start, n - 1), n, file[n - 1])
  }

  /** Applying a line a second time changes nothing. */
  lemma ProcessTwice(rules: Rules, source: SourceKey, v: Ledger, n: nat, line: Line)
    ensures var v' := Process(rules, source, v, n, line);
            Process(rules, source, v', n, line) == v'
  {
  }

  /** Once an event is accepted it is never changed or removed. */
  lemma {:induction false} AcceptedStays(
    rules: Rules, source: SourceKey, file: seq<Line>, v: Ledger, start: nat, m: nat, n: nat, key: EventKey)
    requires m <= n <= |file| && key in Through(rules, source, file, v, start, m).events
    ensures key in Through(rules, source, file, v, start, n).events
    ensures Through(rules, source, file, v, start, n).events[key]
         == Through(rules, source, file, v, start, m).events[key]
    decreases n
  {
    if m == n || n <= start {
    } else {
      AcceptedStays(rules, source, file, v, start, m, n - 1, key);
    }
  }

  /**
    First valid record wins: a valid line's key ends up accepted, with the
    line's own content exactly when the key was free before the line or held
    the same content.
  */
  lemma FirstWins(
    rules: Rules, source: SourceKey, file: seq<Line>, v: Ledger, start: nat, i: nat, n: nat, event: Event)
    requires start < i <= n <= |file| && Judge(rules, source, file[i - 1]) == Ok(event)
    ensures var before := Through(rules, source, file, v, start, i - 1).events;
            var after := Through(rules, source, file, v, start, n).events;
            && event.Key() in after
            && (after[event.Key()] == event
                <==> event.Key() !in before || before[event.Key()] == event)
  {
    AcceptedStays(rules, source, file, v, start, i, n, event.Key());
  }

  /** The reason, if any, for which line i is quarantined, judged by the final table alone. */
  function RejectionOf(
    rules: Rules, source: SourceKey, file: seq<Line>, events: map<EventKey, Event>, i: nat): Option<ErrorCode>
    requires 0 < i <= |file|
  {
    match Judge(rules, source, file[i - 1])
    case Err(code) => Some(code)
    case Ok(event) =>
      if event.Key() in events && events[event.Key()] == event then None else Some(IdempotencyConflict)
  }

  /**
    A line is quarantined exactly when it is invalid or its content differs from
    the accepted event of the same key, so nothing is both accepted and rejected
    and nothing is lost.
  */
  lemma {:induction false} RejectedExactly(
    rules: Rules, source: SourceKey, file: seq<Line>, v: Ledger, start: nat, n: nat, m: nat, reject: Reject)
    requires start <= m <= n <= |file|
    ensures reject in Through(rules, source, file, v, start, m).rejects
       <==> || reject in v.rejects
            || (&& reject.source == source && start < reject.line <= m
                && Some(reject.code)
                   == RejectionOf(rules, source, file, Through(rules, source, file, v, start, n).events, reject.line))
    decreases m
  {
    if start == m {
    } else {
      RejectedExactly(rules, source, file, v, start, n, m - 1, reject);
      LineRejected(rules, source, file, v, start, n, m);
    }
  }

  /** One line's verdict does not depend on the lines after it. */
  lemma LineRejected(
    rules: Rules, source: SourceKey, file: seq<Line>, v: Ledger, start: nat, n: nat, m: nat)
    requires start < m <= n <= |file|
    ensures var before, final := Through(rules, source, file, v, start, m - 1),
                                 Through(rules, source, file, v, start, n);
            Through(rules, source, file, v, start, m).rejects
            == (match RejectionOf(rules, source, file, final.events, m)
                case None => before.rejects
                case Some(code) => before.rejects + {Reject(source, m, code)})
  {
    var judged := Judge(rules, source, file[m - 1]);
    if judged.Ok? {
      AcceptedStays(rules, source, file, v, start, m, n, judged.value.Key());
    }
  }

  // ---------- a store that stays down ----------

  /** Line `n` when `down` says that every try of its insert finds the store unavailable. */
  function ProcessUnder(
    rules: Rules, source: SourceKey, v: Ledger, n: nat, line: Line, down: bool): Ledger
  {
    if down && Judge(rules, source, line).Ok? then v.(rejects := v.rejects + {Reject(source, n, StoreUnavailable)})
    else Process(rules, source, v, n, line)
  }

  /** The lines after `start`, up to and including `n`, with the store down at some of them. */
  function ThroughOutages(
    rules: Rules, source: SourceKey, file: seq<Line>, v: Ledger, start: nat, n: nat, down: nat -> bool): Ledger
    requires n <= |file| || n <= start
  {
    if n <= start then v
    else
      ProcessUnder(
        rules, source, ThroughOutages(rules, source, file, v, start, n - 1, down), n, file[n - 1], down(n))
  }

  /** Some line after `start` was quarantined because the store was down. */
  predicate Tainted(v: Ledger, source: SourceKey, start: nat) {
    exists reject :: reject in v.rejects && reject.source == source && reject.code.StoreUnavailable?
                     && start < reject.line
  }

  /** What the file means never quarantines a line because of the store. */
  lemma ThroughUntainted(rules: Rules, source: SourceKey, file: seq<Line>, v: Ledger, start: nat, n: nat)
    requires n <= |file| || n <= start
    requires !Tainted(v, source, start)
    ensures !Tainted(Through(rules, source, file, v, start, n), source, start)
  {
    if start < n {
      forall reject | reject in Through(rules, source, file, v, start, n).rejects && reject.source == source
                      && reject.code.StoreUnavailable? && start < reject.line
        ensures reject in v.rejects
      {
        RejectedExactly(rules, source, file, v, start, n, n, reject);
      }
    }
  }

  /** A valid line at which the store stays down. */
  predicate LosesLine(rules: Rules, source: SourceKey, file: seq<Line>, down: nat -> bool, n: nat)
    requires 0 < n <= |file|
  {
    down(n) && Judge(rules, source, file[n - 1]).Ok?
  }

  /** The store never stays down at a valid line. */
  predicate Lossless(rules: Rules, source: SourceKey, file: seq<Line>, start: nat, n: nat, down: nat -> bool)
    requires n <= |file| || n <= start
  {
    forall i :: start < i <= n ==> !LosesLine(rules, source, file, down, i)
  }

  /** The ledger is what the file means if and only if the store never stayed down at a valid line. */
  ghost predicate Exact(
    rules: Rules, source: SourceKey, file: seq<Line>, v: Ledger, start: nat, n: nat, down: nat -> bool, now: Ledger)
    requires n <= |file| || n <= start
  {
    !Tainted(v, source, start) ==>
      (now == Through(rules, source, file, v, start, n) <==> Lossless(rules, source, file, start, n, down))
  }

  lemma {:induction false} OutagesHarmless(
    rules: Rules, source: SourceKey, file: seq<Line>, v: Ledger, start: nat, n: nat, down: nat -> bool)
    requires n <= |file| || n <= start
    requires Lossless(rules, source, file, start, n, down)
    ensures ThroughOutages(rules, source, file, v, start, n, down) == Through(rules, source, file, v, start, n)
  {
    if n <= start {
    } else {
      assert !LosesLine(rules, source, file, down, n);
      OutagesHarmless(rules, source, file, v, start, n - 1, down);
    }
  }

  lemma {:induction false} OutagesTaint(
    rules: Rules, source: SourceKey, file: seq<Line>, v: Ledger, start: nat, i: nat, n: nat, down: nat -> bool)
    requires start < i <= n <= |file| && LosesLine(rules, source, file, down, i)
    ensures Reject(source, i, StoreUnavailable) in ThroughOutages(rules, source, file, v, start, n, down).rejects
    decreases n
  {
    if n == i {
    } else {
      OutagesTaint(rules, source, file, v, start, i, n - 1, down);
    }
  }

  /**
    Outages do no harm exactly when none of them meets a valid line: then, and
    only then, the ledger is what the file means.
  */
  lemma HarmlessExactly(
    rules: Rules, source: SourceKey, file: seq<Line>, v: Ledger, start: nat, n: nat, down: nat -> bool)
    requires n <= |file| || n <= start
    ensures Exact(rules, source, file, v, start, n, down,
                  ThroughOutages(rules, source, file, v, start, n, down))
  {
    if Lossless(rules, source, file, start, n, down) {
      OutagesHarmless(rules, source, file, v, start, n, down);
    } else if !Tainted(v, source, start) {
      var i :| start < i <= n && LosesLine(rules, source, file, down, i);
      OutagesTaint(rules, source, file, v, start, i, n, down);
      ThroughUntainted(rules, source, file, v, start, n);
    }
  }
}
