/**
  Ingestion runs that may be killed between any two store operations, and the
  ingestion loop itself (src/data/service.py, src/data/store.py).
*/
module IngestionRuns {
  import opened Wrappers
  import opened Ingestion

  /** The counters of one run; `start` is the checkpoint it read. */
  datatype Tally = Tally(start: nat, accepted: nat, duplicates: nat, rejected: nat)
  {
    function Total(): nat {
      accepted + duplicates + rejected
    }
  }

  /** Where a run is between two store operations. */
  datatype Worker =
    | Idle
    | Reading(n: nat, tally: Tally)
    | Rejecting(n: nat, code: ErrorCode, tally: Tally)
    | Committing(n: nat, tally: Tally)
    | Completed(n: nat, tally: Tally)

  /** The worker does its next store operation, is killed, or finds the store down for all its retries. */
  datatype Turn = Work | Kill | Outage

  datatype State = State(tables: Tables, worker: Worker)

  function Count(tally: Tally, insertion: Insertion): Tally {
    match insertion
    case Inserted => tally.(accepted := tally.accepted + 1)
    case Duplicate => tally.(duplicates := tally.duplicates + 1)
    case Clash => tally
  }

  /** Reading line n + 1: an invalid line is quarantined, a valid one inserted. */
  function ReadLine(rules: Rules, source: SourceKey, line: Line, t: Tables, n: nat, tally: Tally): State {
    match Judge(rules, source, line)
    case Err(code) =>
      State(Quarantined(t, Reject(source, n + 1, code)),
            Committing(n + 1, tally.(rejected := tally.rejected + 1)))
    case Ok(event) =>
      var insertion := InsertionOf(t.events, event);
      State(InsertEvent(t, event),
            if insertion.Clash? then Rejecting(n + 1, IdempotencyConflict, tally)
            else Committing(n + 1, Count(tally, insertion)))
  }

  function Step(rules: Rules, source: SourceKey, file: seq<Line>, s: State, turn: Turn): State {
    match (turn, s.worker)
    case (Kill, _) => s.(worker := Idle)
    case (_, Completed(_, _)) => s
    case (_, Idle) =>
      var c := s.tables.Checkpoint(source);
      s.(worker := Reading(c, Tally(c, 0, 0, 0)))
    case (_, Rejecting(n, code, tally)) =>
      State(Quarantined(s.tables, Reject(source, n, code)),
            Committing(n, tally.(rejected := tally.rejected + 1)))
    case (_, Committing(n, tally)) => State(Committed(s.tables, source, n), Reading(n, tally))
    case (Outage, Reading(n, tally)) =>
      if n < |file| && Judge(rules, source, file[n]).Ok? then
        s.(worker := Rejecting(n + 1, StoreUnavailable, tally))
      else s
    case (Work, Reading(n, tally)) =>
      if n >= |file| then s.(worker := Completed(n, tally))
      else ReadLine(rules, source, file[n], s.tables, n, tally)
  }

  function Execute(rules: Rules, source: SourceKey, file: seq<Line>, t: Tables, turns: seq<Turn>): State {
    if turns == [] then State(t, Idle)
    else
      var k := |turns| - 1;
      Step(rules, source, file, Execute(rules, source, file, t, turns[..k]), turns[k])
  }

  // ---------- the invariant ----------

  /** The tables before or after one line. */
  ghost predicate Half(rules: Rules, source: SourceKey, v: Ledger, n: nat, line: Line, now: Ledger) {
    now == v || now == Process(rules, source, v, n, line)
  }

  /** The ledger after the committed lines, or after one line more. */
  ghost predicate Caught(
    rules: Rules, source: SourceKey, file: seq<Line>, v: Ledger, start: nat, c: nat, now: Ledger)
  {
    && (c <= |file| || c == start)
    && (if c < |file| then
          Half(rules, source, Through(rules, source, file, v, start, c), c + 1, file[c], now)
        else now == Through(rules, source, file, v, start, c))
  }

  ghost predicate Sound(rules: Rules, source: SourceKey, file: seq<Line>, t0: Tables, s: State) {
    var v, start, c := t0.Posted(), t0.Checkpoint(source), s.tables.Checkpoint(source);
    && start <= c
    && (forall other :: other != source ==> s.tables.Checkpoint(other) == t0.Checkpoint(other))
    && Caught(rules, source, file, v, start, c, s.tables.Posted())
    && (match s.worker
        case Idle => true
        case Reading(n, _) => n == c
        case Rejecting(n, code, _) =>
          && n == c + 1 <= |file|
          && Judge(rules, source, file[c]).Ok?
          && code == IdempotencyConflict
          && InsertionOf(Through(rules, source, file, v, start, c).events, Judge(rules, source, file[c]).value).Clash?
        case Committing(n, _) =>
          n == c + 1 <= |file| && s.tables.Posted() == Through(rules, source, file, v, start, n)
        case Completed(n, _) => n == c >= |file|)
  }

  ghost predicate Tallied(t0: Tables, source: SourceKey, s: State) {
    match s.worker
    case Idle => true
    case Reading(n, tally) => t0.Checkpoint(source) <= tally.start && tally.start + tally.Total() == n
    case Rejecting(n, _, tally) => t0.Checkpoint(source) <= tally.start && tally.start + tally.Total() == n - 1
    case Committing(n, tally) => t0.Checkpoint(source) <= tally.start && tally.start + tally.Total() == n
    case Completed(n, tally) => t0.Checkpoint(source) <= tally.start && tally.start + tally.Total() == n
  }

  lemma ReadPosted(rules: Rules, source: SourceKey, line: Line, t: Tables, n: nat, tally: Tally)
    ensures var s' := ReadLine(rules, source, line, t, n, tally);
            && s'.tables.checkpoints == t.checkpoints
            && s'.tables.Posted()
               == (if s'.worker.Rejecting? then t.Posted() else Process(rules, source, t.Posted(), n + 1, line))
            && (s'.worker.Rejecting? <==>
                  Judge(rules, source, line).Ok? && InsertionOf(t.events, Judge(rules, source, line).value).Clash?)
  {
    var judged := Judge(rules, source, line);
    if judged.Err? {
      QuarantinePosted(t, Reject(source, n + 1, judged.error));
    }
  }

  lemma HalfAgain(rules: Rules, source: SourceKey, v: Ledger, n: nat, line: Line, now: Ledger)
    requires Half(rules, source, v, n, line, now)
    ensures Process(rules, source, now, n, line) == Process(rules, source, v, n, line)
    ensures Judge(rules, source, line).Ok? ==>
              (InsertionOf(now.events, Judge(rules, source, line).value).Clash?
               <==> InsertionOf(v.events, Judge(rules, source, line).value).Clash?)
  {
    ProcessTwice(rules, source, v, n, line);
  }

  /** Reading the next line catches the ledger up by that line, or leaves it for the quarantine. */
  lemma ReadCatches(
    rules: Rules, source: SourceKey, file: seq<Line>, v: Ledger, start: nat, c: nat, t: Tables, tally: Tally)
    requires start <= c < |file| && Caught(rules, source, file, v, start, c, t.Posted())
    ensures var s' := ReadLine(rules, source, file[c], t, c, tally);
            && Caught(rules, source, file, v, start, c, s'.tables.Posted())
            && (s'.worker.Committing? ==> s'.tables.Posted() == Through(rules, source, file, v, start, c + 1))
            && (s'.worker.Rejecting? ==>
                  && Judge(rules, source, file[c]).Ok?
                  && InsertionOf(Through(rules, source, file, v, start, c).events,
                                 Judge(rules, source, file[c]).value).Clash?)
  {
    ReadPosted(rules, source, file[c], t, c, tally);
    HalfAgain(rules, source, Through(rules, source, file, v, start, c), c + 1, file[c], t.Posted());
  }

  /** Where reading a line leaves the worker. */
  lemma ReadTurns(rules: Rules, source: SourceKey, line: Line, t: Tables, n: nat, tally: Tally)
    ensures var s' := ReadLine(rules, source, line, t, n, tally);
            && s'.tables.checkpoints == t.checkpoints
            && (s'.worker.Committing? || (s'.worker.Rejecting? && s'.worker.code.IdempotencyConflict?))
            && s'.worker.n == n + 1
  {
  }

  lemma ReadSound(rules: Rules, source: SourceKey, file: seq<Line>, t0: Tables, s: State)
    requires Sound(rules, source, file, t0, s) && s.worker.Reading? && s.worker.n < |file|
    ensures Sound(rules, source, file, t0, Step(rules, source, file, s, Work))
  {
    var c := s.worker.n;
    ReadCatches(rules, source, file, t0.Posted(), t0.Checkpoint(source), c, s.tables, s.worker.tally);
    ReadTurns(rules, source, file[c], s.tables, c, s.worker.tally);
  }

  /** Quarantining the line that lost against an earlier one completes it. */
  lemma RejectCatches(
    rules: Rules, source: SourceKey, file: seq<Line>, v: Ledger, start: nat, c: nat, t: Tables)
    requires start <= c < |file| && Caught(rules, source, file, v, start, c, t.Posted())
    requires Judge(rules, source, file[c]).Ok?
    requires InsertionOf(Through(rules, source, file, v, start, c).events, Judge(rules, source, file[c]).value).Clash?
    ensures Quarantined(t, Reject(source, c + 1, IdempotencyConflict)).Posted()
         == Through(rules, source, file, v, start, c + 1)
    ensures Caught(rules, source, file, v, start, c,
                   Quarantined(t, Reject(source, c + 1, IdempotencyConflict)).Posted())
  {
    QuarantinePosted(t, Reject(source, c + 1, IdempotencyConflict));
  }

  lemma RejectSound(rules: Rules, source: SourceKey, file: seq<Line>, t0: Tables, s: State)
    requires Sound(rules, source, file, t0, s) && s.worker.Rejecting?
    ensures Sound(rules, source, file, t0, Step(rules, source, file, s, Work))
  {
    RejectCatches(rules, source, file, t0.Posted(), t0.Checkpoint(source), s.tables.Checkpoint(source), s.tables);
  }

  lemma CommitSound(rules: Rules, source: SourceKey, file: seq<Line>, t0: Tables, s: State)
    requires Sound(rules, source, file, t0, s) && s.worker.Committing?
    ensures Sound(rules, source, file, t0, Step(rules, source, file, s, Work))
  {
    assert Committed(s.tables, source, s.worker.n).Posted() == s.tables.Posted();
  }

  /** Every store operation, and every kill between two of them, keeps the invariant. */
  lemma StepSound(rules: Rules, source: SourceKey, file: seq<Line>, t0: Tables, s: State, turn: Turn)
    requires Sound(rules, source, file, t0, s) && !turn.Outage?
    ensures Sound(rules, source, file, t0, Step(rules, source, file, s, turn))
  {
    if turn.Work? {
      match s.worker {
        case Reading(n, _) =>
          if n < |file| {
            ReadSound(rules, source, file, t0, s);
          }
        case Rejecting(_, _, _) => RejectSound(rules, source, file, t0, s);
        case Committing(_, _) => CommitSound(rules, source, file, t0, s);
        case _ =>
      }
    }
  }

  /** The worker is about to insert a valid line. */
  predicate Inserting(rules: Rules, source: SourceKey, file: seq<Line>, worker: Worker) {
    worker.Reading? && worker.n < |file| && Judge(rules, source, file[worker.n]).Ok?
  }

  /** Turn k finds the store down at a valid line, and the worker lives to quarantine the line for it. */
  predicate Strikes(rules: Rules, source: SourceKey, file: seq<Line>, t0: Tables, turns: seq<Turn>, k: nat) {
    && k + 1 < |turns| && turns[k].Outage? && !turns[k + 1].Kill?
    && Inserting(rules, source, file, Execute(rules, source, file, t0, turns[..k]).worker)
  }

  ghost predicate Struck(rules: Rules, source: SourceKey, file: seq<Line>, t0: Tables, turns: seq<Turn>) {
    exists k :: Strikes(rules, source, file, t0, turns, k)
  }

  /** The last turn found the store down at a valid line. */
  predicate Doomed(rules: Rules, source: SourceKey, file: seq<Line>, t0: Tables, turns: seq<Turn>) {
    && turns != [] && turns[|turns| - 1].Outage?
    && Inserting(rules, source, file, Execute(rules, source, file, t0, turns[..|turns| - 1]).worker)
  }

  /** A run that was struck keeps a quarantined line to show for it; any other run is sound. */
  ghost predicate Marked(rules: Rules, source: SourceKey, file: seq<Line>, t0: Tables, turns: seq<Turn>) {
    var s := Execute(rules, source, file, t0, turns);
    if Struck(rules, source, file, t0, turns) then Tainted(s.tables.Posted(), source, t0.Checkpoint(source))
    else if Doomed(rules, source, file, t0, turns) then
      && s.worker.Rejecting? && s.worker.code.StoreUnavailable?
      && s.worker.n == s.tables.Checkpoint(source) + 1
      && Sound(rules, source, file, t0, s.(worker := Idle))
    else Sound(rules, source, file, t0, s)
  }

  lemma StepTainted(rules: Rules, source: SourceKey, file: seq<Line>, s: State, turn: Turn, start: nat)
    requires Tainted(s.tables.Posted(), source, start)
    ensures Tainted(Step(rules, source, file, s, turn).tables.Posted(), source, start)
  {
    var s' := Step(rules, source, file, s, turn);
    assert forall reject :: reject in s.tables.quarantine ==> reject in s'.tables.quarantine;
  }

  /** An outage anywhere but at a valid line changes nothing that work would not. */
  lemma OutageSound(rules: Rules, source: SourceKey, file: seq<Line>, t0: Tables, s: State, turn: Turn)
    requires Sound(rules, source, file, t0, s) && !(turn.Outage? && Inserting(rules, source, file, s.worker))
    ensures Sound(rules, source, file, t0, Step(rules, source, file, s, turn))
  {
    if !turn.Outage? {
      StepSound(rules, source, file, t0, s, turn);
    } else if !s.worker.Reading? {
      StepSound(rules, source, file, t0, s, Work);
    }
  }

  lemma StrikesLast(rules: Rules, source: SourceKey, file: seq<Line>, t0: Tables, turns: seq<Turn>, turn: Turn)
    ensures Struck(rules, source, file, t0, turns + [turn])
       <==> Struck(rules, source, file, t0, turns) || (Doomed(rules, source, file, t0, turns) && !turn.Kill?)
  {
    var n := |turns|;
    forall k: nat ensures k + 1 < n ==>
      (Strikes(rules, source, file, t0, turns + [turn], k) <==> Strikes(rules, source, file, t0, turns, k))
    {
      if k + 1 < n {
        assert (turns + [turn])[..k] == turns[..k];
      }
    }
    if n > 0 {
      assert (turns + [turn])[..n - 1] == turns[..n - 1];
      assert Strikes(rules, source, file, t0, turns + [turn], n - 1)
        <==> Doomed(rules, source, file, t0, turns) && !turn.Kill?;
    }
  }

  lemma MarkedNext(rules: Rules, source: SourceKey, file: seq<Line>, t0: Tables, turns: seq<Turn>, turn: Turn)
    requires Marked(rules, source, file, t0, turns)
    ensures Marked(rules, source, file, t0, turns + [turn])
  {
    var s := Execute(rules, source, file, t0, turns);
    assert (turns + [turn])[..|turns|] == turns;
    StrikesLast(rules, source, file, t0, turns, turn);
    if Struck(rules, source, file, t0, turns) {
      StepTainted(rules, source, file, s, turn, t0.Checkpoint(source));
    } else if Doomed(rules, source, file, t0, turns) {
      var reject := Reject(source, s.worker.n, StoreUnavailable);
      assert !turn.Kill? ==> reject in Step(rules, source, file, s, turn).tables.Posted().rejects;
    } else if !(turn.Outage? && Inserting(rules, source, file, s.worker)) {
      OutageSound(rules, source, file, t0, s, turn);
    }
  }

  lemma {:induction false} ExecuteMarked(
    rules: Rules, source: SourceKey, file: seq<Line>, t0: Tables, turns: seq<Turn>)
    ensures Marked(rules, source, file, t0, turns)
  {
    if turns == [] {
    } else {
      var k := |turns| - 1;
      ExecuteMarked(rules, source, file, t0, turns[..k]);
      MarkedNext(rules, source, file, t0, turns[..k], turns[k]);
      assert turns[..k] + [turns[k]] == turns;
    }
  }

  /** Where the worker stands between the checkpoint and the line it is on. */
  predicate Placed(source: SourceKey, t0: Tables, s: State) {
    && t0.Checkpoint(source) <= s.tables.Checkpoint(source)
    && (s.worker.Reading? ==> s.worker.n == s.tables.Checkpoint(source))
    && (s.worker.Rejecting? || s.worker.Committing? ==> s.worker.n == s.tables.Checkpoint(source) + 1)
  }

  lemma ReadTallied(rules: Rules, source: SourceKey, line: Line, t: Tables, n: nat, tally: Tally)
    ensures var worker := ReadLine(rules, source, line, t, n, tally).worker;
            && (worker.Rejecting? ==> worker.tally == tally)
            && (worker.Committing? ==>
                  worker.tally.start == tally.start && worker.tally.Total() == tally.Total() + 1)
  {
  }

  lemma OtherTallied(rules: Rules, source: SourceKey, file: seq<Line>, t0: Tables, s: State, turn: Turn)
    requires Tallied(t0, source, s) && Placed(source, t0, s)
    requires !(turn.Work? && s.worker.Reading? && s.worker.n < |file|)
    ensures Tallied(t0, source, Step(rules, source, file, s, turn))
    ensures Placed(source, t0, Step(rules, source, file, s, turn))
  {
  }

  lemma StepTallied(rules: Rules, source: SourceKey, file: seq<Line>, t0: Tables, s: State, turn: Turn)
    requires Tallied(t0, source, s) && Placed(source, t0, s)
    ensures Tallied(t0, source, Step(rules, source, file, s, turn))
    ensures Placed(source, t0, Step(rules, source, file, s, turn))
  {
    if turn.Work? && s.worker.Reading? && s.worker.n < |file| {
      ReadTurns(rules, source, file[s.worker.n], s.tables, s.worker.n, s.worker.tally);
      ReadTallied(rules, source, file[s.worker.n], s.tables, s.worker.n, s.worker.tally);
    } else {
      OtherTallied(rules, source, file, t0, s, turn);
    }
  }

  /** The checkpoint never moves back, whatever happens. */
  lemma {:induction false} ExecuteTallied(
    rules: Rules, source: SourceKey, file: seq<Line>, t0: Tables, turns: seq<Turn>)
    ensures var s := Execute(rules, source, file, t0, turns);
            Tallied(t0, source, s) && Placed(source, t0, s)
  {
    if turns == [] {
    } else {
      var k := |turns| - 1;
      ExecuteTallied(rules, source, file, t0, turns[..k]);
      StepTallied(rules, source, file, t0, Execute(rules, source, file, t0, turns[..k]), turns[k]);
    }
  }

  /**
    Crash-resume equivalence: however often earlier runs were killed, and
    wherever, a run that completes leaves the accepted events and the set of
    quarantined lines that one uninterrupted pass over the file leaves, moves
    the checkpoint to the end, and touches no other source's checkpoint.
  */
  lemma CrashResume(rules: Rules, source: SourceKey, file: seq<Line>, t0: Tables, turns: seq<Turn>)
    requires Outage !in turns && Execute(rules, source, file, t0, turns).worker.Completed?
    ensures var s, start := Execute(rules, source, file, t0, turns), t0.Checkpoint(source);
            var end := if start < |file| then |file| else start;
            && s.tables.Posted() == Through(rules, source, file, t0.Posted(), start, end)
            && s.tables.Checkpoint(source) == end
            && forall other :: other != source ==> s.tables.Checkpoint(other) == t0.Checkpoint(other)
  {
    ExecuteMarked(rules, source, file, t0, turns);
  }

  /** A source without a checkpoint is read from its first line; one with a checkpoint from the line after it. */
  lemma FromTheStart(rules: Rules, source: SourceKey, file: seq<Line>, t0: Tables, turns: seq<Turn>)
    requires Outage !in turns && Execute(rules, source, file, t0, turns).worker.Completed?
    ensures source !in t0.checkpoints ==>
              Execute(rules, source, file, t0, turns).tables.Posted()
              == Through(rules, source, file, t0.Posted(), 0, |file|)
    ensures source in t0.checkpoints && t0.checkpoints[source] <= |file| ==>
              Execute(rules, source, file, t0, turns).tables.Posted()
              == Through(rules, source, file, t0.Posted(), t0.checkpoints[source], |file|)
  {
    CrashResume(rules, source, file, t0, turns);
  }

  /**
    The exact price of an unreachable store: a run that completes leaves what
    one uninterrupted pass leaves if and only if no outage met a valid line that
    the worker then lived to quarantine.
  */
  lemma OutageHarms(rules: Rules, source: SourceKey, file: seq<Line>, t0: Tables, turns: seq<Turn>)
    requires Execute(rules, source, file, t0, turns).worker.Completed?
    requires !Tainted(t0.Posted(), source, t0.Checkpoint(source))
    ensures var start := t0.Checkpoint(source);
            var end := if start < |file| then |file| else start;
            Execute(rules, source, file, t0, turns).tables.Posted()
            == Through(rules, source, file, t0.Posted(), start, end)
            <==> !Struck(rules, source, file, t0, turns)
  {
    var start := t0.Checkpoint(source);
    ExecuteMarked(rules, source, file, t0, turns);
    ThroughUntainted(rules, source, file, t0.Posted(), start, if start < |file| then |file| else start);
  }

  /** Two schedules of the same file that complete agree. */
  lemma SchedulesAgree(
    rules: Rules, source: SourceKey, file: seq<Line>, t0: Tables, turns: seq<Turn>, turns': seq<Turn>)
    requires Outage !in turns && Execute(rules, source, file, t0, turns).worker.Completed?
    requires Outage !in turns' && Execute(rules, source, file, t0, turns').worker.Completed?
    ensures Execute(rules, source, file, t0, turns).tables.Posted()
         == Execute(rules, source, file, t0, turns').tables.Posted()
  {
    CrashResume(rules, source, file, t0, turns);
    CrashResume(rules, source, file, t0, turns');
  }

  /** A completed run accounts for every line between its starting checkpoint and where it stopped. */
  lemma CompletedCounts(rules: Rules, source: SourceKey, file: seq<Line>, t0: Tables, turns: seq<Turn>)
    ensures var s := Execute(rules, source, file, t0, turns);
            s.worker.Completed? ==>
              s.worker.tally.accepted + s.worker.tally.duplicates + s.worker.tally.rejected
              == s.worker.n - s.worker.tally.start
  {
    ExecuteTallied(rules, source, file, t0, turns);
  }

  /**
    A store that stays down for all retries breaks the equivalence: the valid
    line is quarantined, the checkpoint passes it, and no later run reads it.
  */
  lemma OutageLosesEvent(rules: Rules, source: SourceKey, line: Line)
    requires Judge(rules, source, line).Ok?
    ensures var t0 := Tables(map[], [], map[]);
            var lost := Execute(rules, source, [line], t0, [Work, Outage, Work, Work, Work]);
            && lost.worker.Completed?
            && lost.tables.events == map[]
            && lost.tables.Checkpoint(source) == 1
            && Judge(rules, source, line).value.Key()
               in Through(rules, source, [line], t0.Posted(), 0, 1).events
  {
    var t0, file := Tables(map[], [], map[]), [line];
    var s0 := Execute(rules, source, file, t0, []);
    var s1 := Execute(rules, source, file, t0, [Work]);
    assert [Work][..0] == [];
    var s2 := Execute(rules, source, file, t0, [Work, Outage]);
    assert [Work, Outage][..1] == [Work];
    var s3 := Execute(rules, source, file, t0, [Work, Outage, Work]);
    assert [Work, Outage, Work][..2] == [Work, Outage];
    var s4 := Execute(rules, source, file, t0, [Work, Outage, Work, Work]);
    assert [Work, Outage, Work, Work][..3] == [Work, Outage, Work];
    assert [Work, Outage, Work, Work, Work][..4] == [Work, Outage, Work, Work];
    assert Through(rules, source, file, t0.Posted(), 0, 0) == t0.Posted();
  }

  // ---------- the store and the loop ----------

  /** The counter that a line raises. */
  function CountLine(rules: Rules, source: SourceKey, v: Ledger, line: Line, down: bool, tally: Tally): Tally {
    match Judge(rules, source, line)
    case Err(_) => tally.(rejected := tally.rejected + 1)
    case Ok(event) =>
      if down || InsertionOf(v.events, event).Clash? then tally.(rejected := tally.rejected + 1)
      else Count(tally, InsertionOf(v.events, event))
  }

  /** The counters after the lines up to `n`. */
  function CountThrough(
    rules: Rules, source: SourceKey, file: seq<Line>, v: Ledger, start: nat, n: nat, down: nat -> bool): Tally
    requires n <= |file| || n <= start
  {
    if n <= start then Tally(start, 0, 0, 0)
    else
      CountLine(
        rules, source, ThroughOutages(rules, source, file, v, start, n - 1, down), file[n - 1], down(n),
        CountThrough(rules, source, file, v, start, n - 1, down))
  }

  lemma LineCounted(rules: Rules, source: SourceKey, v: Ledger, n: nat, line: Line, down: bool, tally: Tally)
    ensures var tally', v' := CountLine(rules, source, v, line, down, tally),
                              ProcessUnder(rules, source, v, n, line, down);
            && tally'.start == tally.start && tally'.Total() == tally.Total() + 1
            && tally'.accepted - tally.accepted == |v'.events| - |v.events|
            && (tally'.rejected > tally.rejected ==> exists code :: Reject(source, n, code) in v'.rejects)
  {
    var judged := Judge(rules, source, line);
    if judged.Err? {
      assert Reject(source, n, judged.error) in ProcessUnder(rules, source, v, n, line, down).rejects;
    } else if down {
      assert Reject(source, n, StoreUnavailable) in ProcessUnder(rules, source, v, n, line, down).rejects;
    } else if InsertionOf(v.events, judged.value).Clash? {
      assert Reject(source, n, IdempotencyConflict) in ProcessUnder(rules, source, v, n, line, down).rejects;
    }
  }

  /** Every line is counted once, and as accepted exactly when the table of events grew by it. */
  lemma {:induction false} CountsAddUp(
    rules: Rules, source: SourceKey, file: seq<Line>, v: Ledger, start: nat, n: nat, down: nat -> bool)
    requires start <= n && (n <= |file| || n == start)
    ensures var tally := CountThrough(rules, source, file, v, start, n, down);
            && tally.start == start && tally.Total() == n - start
            && tally.accepted == |ThroughOutages(rules, source, file, v, start, n, down).events| - |v.events|
  {
    if n == start {
    } else {
      CountsAddUp(rules, source, file, v, start, n - 1, down);
      LineCounted(rules, source, ThroughOutages(rules, source, file, v, start, n - 1, down), n, file[n - 1], down(n),
                  CountThrough(rules, source, file, v, start, n - 1, down));
    }
  }

  class IngestionStore {
    var events: map<EventKey, Event>
    var quarantine: seq<Reject>
    var checkpoints: map<SourceKey, nat>

    function Snapshot(): Tables
      reads this
    {
      Tables(events, quarantine, checkpoints)
    }

    constructor ()
      ensures Snapshot() == Tables(map[], [], map[])
    {
      events, quarantine, checkpoints := map[], [], map[];
    }

    method InsertEvent(event: Event) returns (result: Result<bool, ErrorCode>)
      modifies `events
      ensures Snapshot() == Ingestion.InsertEvent(old(Snapshot()), event)
      ensures result == (match InsertionOf(old(events), event)
                         case Inserted => Ok(true) case Duplicate => Ok(false) case Clash => Err(IdempotencyConflict))
    {
      if event.Key() !in events {
        events := events[event.Key() := event];
        return Ok(true);
      }
      if events[event.Key()] == event {
        return Ok(false);
      }
      result := Err(IdempotencyConflict);
    }

    method Quarantine(reject: Reject)
      modifies `quarantine
      ensures Snapshot() == Quarantined(old(Snapshot()), reject)
    {
      quarantine := quarantine + [reject];
    }

    method SetCheckpoint(source: SourceKey, line: nat)
      modifies `checkpoints
      ensures Snapshot() == Committed(old(Snapshot()), source, line)
    {
      checkpoints := checkpoints[source := line];
    }
  }

  class IngestionService {
    const store: IngestionStore
    const rules: Rules
    const maxAttempts: nat

    constructor (store: IngestionStore, rules: Rules, maxAttempts: nat)
      requires 1 <= maxAttempts
      ensures this.store == store && this.rules == rules && this.maxAttempts == maxAttempts
    {
      this.store, this.rules, this.maxAttempts := store, rules, maxAttempts;
    }

    /**
      Tries the insert until the store answers; `outages` is how often in a row
      it would be found unavailable.
    */
    method InsertWithRetry(event: Event, outages: nat) returns (result: Result<bool, ErrorCode>)
      requires 1 <= maxAttempts
      modifies store`events
      ensures maxAttempts <= outages ==>
                result == Err(StoreUnavailable) && store.Snapshot() == old(store.Snapshot())
      ensures outages < maxAttempts ==>
                && store.Snapshot() == Ingestion.InsertEvent(old(store.Snapshot()), event)
                && result == (match InsertionOf(old(store.events), event)
                              case Inserted => Ok(true)
                              case Duplicate => Ok(false)
                              case Clash => Err(IdempotencyConflict))
    {
      var attempt := 1;
      while attempt <= maxAttempts
        invariant 1 <= attempt <= maxAttempts + 1
        invariant attempt <= outages + 1
        invariant attempt <= maxAttempts || maxAttempts <= outages
        invariant store.Snapshot() == old(store.Snapshot())
      {
        if attempt > outages {
          result := store.InsertEvent(event);
          return;
        }
        attempt := attempt + 1;
      }
      result := Err(StoreUnavailable);
    }

    /**
      One line: judge, insert or quarantine, count, then commit the checkpoint.
    */
    method IngestLine(source: SourceKey, line: Line, n: nat, outages: nat, tally: Tally) returns (tally': Tally)
      requires 1 <= maxAttempts
      modifies store
      ensures store.Snapshot().Posted()
           == ProcessUnder(rules, source, old(store.Snapshot().Posted()), n, line, maxAttempts <= outages)
      ensures store.checkpoints == old(store.checkpoints)[source := n]
      ensures tally' == CountLine(rules, source, old(store.Snapshot().Posted()), line, maxAttempts <= outages, tally)
    {
      tally' := tally;
      var judged := Judge(rules, source, line);
      var rejection: Option<ErrorCode> := None;
      match judged {
        case Err(code) => rejection := Some(code);
        case Ok(event) =>
          var inserted := InsertWithRetry(event, outages);
          match inserted {
            case Ok(isNew) =>
              if isNew {
                tally' := tally'.(accepted := tally'.accepted + 1);
              } else {
                tally' := tally'.(duplicates := tally'.duplicates + 1);
              }
            case Err(code) => rejection := Some(code);
          }
      }
      if rejection.Some? {
        tally' := tally'.(rejected := tally'.rejected + 1);
        QuarantinePosted(store.Snapshot(), Reject(source, n, rejection.value));
        store.Quarantine(Reject(source, n, rejection.value));
      }
      assert Committed(store.Snapshot(), source, n).Posted() == store.Snapshot().Posted();
      store.SetCheckpoint(source, n);
    }

    /** The lines at which the store stays down for all retries. */
    function Down(outages: nat -> nat): nat -> bool {
      (n: nat) => maxAttempts <= outages(n)
    }

    /**
      Reads on from the stored checkpoint to the end of the file; `outages`
      says how long the store is down at each line.  The ledger is what the file
      means exactly when the store is never down too long at a valid line.
    */
    method IngestReplay(source: SourceKey, file: seq<Line>, outages: nat -> nat) returns (tally: Tally)
      requires 1 <= maxAttempts
      modifies store
      ensures var start, v, now := old(store.Snapshot().Checkpoint(source)), old(store.Snapshot().Posted()),
                                   store.Snapshot().Posted();
              var end := if start < |file| then |file| else start;
              && now == ThroughOutages(rules, source, file, v, start, end, Down(outages))
              && Exact(rules, source, file, v, start, end, Down(outages), now)
              && tally == CountThrough(rules, source, file, v, start, end, Down(outages))
              && store.Snapshot().Checkpoint(source) == end
    {
      var start := store.Snapshot().Checkpoint(source);
      ghost var v, down, done := store.Snapshot().Posted(), Down(outages), start;
      tally := Tally(start, 0, 0, 0);
      var line := 1;
      while line <= |file|
        invariant 1 <= line <= |file| + 1
        invariant done == if line - 1 > start then line - 1 else start
        invariant store.Snapshot().Posted() == ThroughOutages(rules, source, file, v, start, done, down)
        invariant tally == CountThrough(rules, source, file, v, start, done, down)
        invariant store.Snapshot().Checkpoint(source) == done
      {
        if line > start {
          tally := IngestLine(source, file[line - 1], line, outages(line), tally);
          done := line;
        }
        line := line + 1;
      }
      HarmlessExactly(rules, source, file, v, start, done, down);
    }
  }
}
