/**
  The point-in-time feature table (src/features/builder.py): one row per
  interval, category and cell, whose predictors use only events that had both
  happened and arrived before the interval began.
*/
module Features {
  import opened Wrappers

  type Cell(==, !new, 0)
  type Category(==, !new, 0)

  /** Times are seconds since the epoch. */
  datatype Event = Event(occurredAt: real, receivedAt: real, category: Category, cell: Cell)

  datatype CountKey = CountKey(cell: Cell, category: Category, bucket: int)

  datatype Config = Config(
    start: real, end: real, interval: int, cells: seq<Cell>, categories: seq<Category>, coverage: real,
    neighbors: Cell -> seq<Cell>)
  {
    /** The interval is a positive whole number of minutes and nothing is empty. */
    predicate Valid() {
      && start < end
      && 0 < interval && interval % 60 == 0
      && cells != [] && categories != []
      && 0.0 <= coverage <= 1.0
    }
  }

  datatype BuildError = InvalidConfig | Misaligned

  function Truncate(x: real): int {
    if x >= 0.0 then x.Floor else -((-x).Floor)
  }

  /**
    The start of the interval a moment falls into. A moment before the epoch
    first loses its fraction towards zero, so it belongs to the interval that
    holds the next whole second.
  */
  function FloorInterval(t: real, interval: int): (r: int)
    requires interval > 0
    ensures r % interval == 0
    ensures t >= 0.0 ==> r as real <= t < (r + interval) as real
    ensures t < 0.0 ==> (r - 1) as real < t <= (r + interval - 1) as real
  {
    var seconds := Truncate(t);
    RemainderLeaves(seconds, interval);
    seconds - seconds % interval
  }

  lemma RemainderLeaves(n: int, d: int)
    requires d > 0
    ensures (n - n % d) % d == 0
  {
    assert n - n % d == d * (n / d);
    MultipleHasNone(n / d, d);
  }

  lemma MultipleHasNone(q: int, d: int)
    requires d > 0
    ensures (d * q) % d == 0
  {
    var n := d * q;
    RemainderIsZero(q - n / d, d, n % d);
  }

  lemma RemainderIsZero(k: int, d: int, r: int)
    requires d > 0 && 0 <= r < d && d * k == r
    ensures r == 0
  {
    ProductSize(k, d);
  }

  lemma ProductSize(k: int, d: int)
    requires d > 0
    ensures k >= 1 ==> d * k >= d
    ensures k <= -1 ==> d * k <= -d
  {
  }

  function KeyOf(config: Config, event: Event): CountKey
    requires config.interval > 0
  {
    CountKey(event.cell, event.category, FloorInterval(event.occurredAt, config.interval))
  }

  /** Only events of the fixed domain and the configured categories are used. */
  predicate InDomain(config: Config, event: Event) {
    event.cell in config.cells && event.category in config.categories
  }

  function Prepared(config: Config, events: seq<Event>): seq<Event> {
    if events == [] then []
    else
      var rest, last := Prepared(config, events[..|events| - 1]), events[|events| - 1];
      if InDomain(config, last) then rest + [last] else rest
  }

  /** Bucketed before the interval began, and received before it began. */
  predicate VisibleAt(config: Config, event: Event, t: int)
    requires config.interval > 0
  {
    FloorInterval(event.occurredAt, config.interval) < t && event.receivedAt < t as real
  }

  function Seen(config: Config, events: seq<Event>, t: int): seq<Event>
    requires config.interval > 0
  {
    if events == [] then []
    else
      var rest, last := Seen(config, events[..|events| - 1], t), events[|events| - 1];
      if VisibleAt(config, last, t) then rest + [last] else rest
  }

  /** Where in a sequence p holds. */
  ghost function Positions<T>(s: seq<T>, p: T -> bool): set<nat> {
    set i: nat | i < |s| && p(s[i])
  }

  lemma OnePosition<T>(s: seq<T>, p: T -> bool)
    requires s != []
    ensures |Positions(s, p)| == |Positions(s[..|s| - 1], p)| + if p(s[|s| - 1]) then 1 else 0
  {
    var n := |s| - 1;
    var more := if p(s[n]) then {n} else {};
    assert Positions(s, p) == Positions(s[..n], p) + more;
  }

  /** The positions of the events of a cell and category that occurred in a bucket. */
  ghost function Placed(config: Config, events: seq<Event>, k: CountKey): set<nat>
    requires config.interval > 0
  {
    Positions(events, (e: Event) =>
      e.cell == k.cell && e.category == k.category && FloorInterval(e.occurredAt, config.interval) == k.bucket)
  }

  /** Those among them that had been received before t. */
  ghost function Arrived(config: Config, events: seq<Event>, k: CountKey, t: int): set<nat>
    requires config.interval > 0
  {
    Positions(events, (e: Event) =>
      && e.cell == k.cell && e.category == k.category && FloorInterval(e.occurredAt, config.interval) == k.bucket
      && e.receivedAt < t as real)
  }

  function Count(config: Config, events: seq<Event>, k: CountKey): nat
    requires config.interval > 0
  {
    if events == [] then 0
    else
      Count(config, events[..|events| - 1], k) + (if KeyOf(config, events[|events| - 1]) == k then 1 else 0)
  }

  // ---------- rows ----------

  datatype Predictors = Predictors(
    lag1: nat, lag2: nat, lag7: nat, lag14: nat, rolling7: real, rolling14: real, neighborLag1: nat,
    recentTrend: real, coverage: real)

  datatype RowKey = RowKey(intervalStart: int, category: Category, cell: Cell)

  datatype Row = Row(key: RowKey, eventCount: nat, predictors: Predictors)

  function CountKeyOf(k: RowKey): CountKey {
    CountKey(k.cell, k.category, k.intervalStart)
  }

  /** The count of the interval `offset` steps earlier, as visible at the row's time. */
  function Lag(config: Config, seen: seq<Event>, k: RowKey, offset: nat): nat
    requires config.interval > 0
  {
    Count(config, seen, CountKey(k.cell, k.category, k.intervalStart - config.interval * offset))
  }

  /** The sum of lags `first`, ..., `last`. */
  function LagSum(config: Config, seen: seq<Event>, k: RowKey, first: nat, last: nat): nat
    requires config.interval > 0
  {
    if last < first || last == 0 then 0
    else LagSum(config, seen, k, first, last - 1) + Lag(config, seen, k, last)
  }

  /** Every neighbour in the domain counts once, however often it is listed; the cell itself does not. */
  function NeighborSum(config: Config, seen: seq<Event>, k: RowKey, neighbors: seq<Cell>): nat
    requires config.interval > 0
  {
    if neighbors == [] then 0
    else
      var n := |neighbors| - 1;
      NeighborSum(config, seen, k, neighbors[..n])
      + (if neighbors[n] in config.cells && neighbors[n] != k.cell && neighbors[n] !in neighbors[..n]
         then Lag(config, seen, k.(cell := neighbors[n]), 1) else 0)
  }

  function PredictorsOf(config: Config, seen: seq<Event>, k: RowKey): Predictors
    requires config.interval > 0
  {
    Predictors(
      Lag(config, seen, k, 1), Lag(config, seen, k, 2), Lag(config, seen, k, 7), Lag(config, seen, k, 14),
      LagSum(config, seen, k, 1, 7) as real / 7.0,
      LagSum(config, seen, k, 1, 14) as real / 14.0,
      NeighborSum(config, seen, k, config.neighbors(k.cell)),
      LagSum(config, seen, k, 1, 3) as real / 3.0 - LagSum(config, seen, k, 4, 6) as real / 3.0,
      config.coverage)
  }

  function RowOf(config: Config, events: seq<Event>, k: RowKey): Row
    requires config.interval > 0
  {
    Row(k, Count(config, events, CountKeyOf(k)), PredictorsOf(config, Seen(config, events, k.intervalStart), k))
  }

  /** The interval starts from `t` up to, not including, `end`. */
  function Starts(interval: int, t: int, end: int): seq<int>
    requires interval > 0
    decreases end - t
  {
    if t >= end then [] else [t] + Starts(interval, t + interval, end)
  }

  function CellKeys(t: int, category: Category, cells: seq<Cell>): (r: seq<RowKey>)
    ensures |r| == |cells| && forall i :: 0 <= i < |r| ==> r[i] == RowKey(t, category, cells[i])
  {
    seq(|cells|, i requires 0 <= i < |cells| => RowKey(t, category, cells[i]))
  }

  function CategoryKeys(t: int, categories: seq<Category>, cells: seq<Cell>): seq<RowKey> {
    if categories == [] then []
    else
      CategoryKeys(t, categories[..|categories| - 1], cells)
      + CellKeys(t, categories[|categories| - 1], cells)
  }

  function TableKeys(times: seq<int>, categories: seq<Category>, cells: seq<Cell>): seq<RowKey> {
    if times == [] then []
    else TableKeys(times[..|times| - 1], categories, cells) + CategoryKeys(times[|times| - 1], categories, cells)
  }

  function RowsOf(config: Config, events: seq<Event>, keys: seq<RowKey>): (r: seq<Row>)
    requires config.interval > 0
    ensures |r| == |keys| && forall i :: 0 <= i < |r| ==> r[i] == RowOf(config, events, keys[i])
  {
    seq(|keys|, i requires 0 <= i < |keys| => RowOf(config, events, keys[i]))
  }

  function KeysOf(config: Config): seq<RowKey>
    requires config.interval > 0
  {
    TableKeys(Starts(config.interval, config.start.Floor, config.end.Floor), config.categories, config.cells)
  }

  predicate Aligned(config: Config)
    requires config.interval > 0
  {
    && FloorInterval(config.start, config.interval) as real == config.start
    && FloorInterval(config.end, config.interval) as real == config.end
  }

  function Build(config: Config, events: seq<Event>): Result<seq<Row>, BuildError> {
    if !config.Valid() then Err(InvalidConfig)
    else if !Aligned(config) then Err(Misaligned)
    else Ok(RowsOf(config, Prepared(config, events), KeysOf(config)))
  }

  // ---------- the loops ----------

  function Get(counts: map<CountKey, nat>, k: CountKey): nat {
    if k in counts then counts[k] else 0
  }

  /** The counts of a sequence of events. */
  ghost predicate Counts(config: Config, events: seq<Event>, counts: map<CountKey, nat>)
    requires config.interval > 0
  {
    forall k :: Get(counts, k) == Count(config, events, k)
  }

  lemma CountAppend(config: Config, events: seq<Event>, event: Event, k: CountKey)
    requires config.interval > 0
    ensures Count(config, events + [event], k)
         == Count(config, events, k) + (if KeyOf(config, event) == k then 1 else 0)
  {
    assert (events + [event])[..|events|] == events;
  }

  lemma {:induction false} PreparedKeeps(config: Config, events: seq<Event>)
    ensures forall e: Event :: multiset(Prepared(config, events))[e]
                     == if e.cell in config.cells && e.category in config.categories then multiset(events)[e] else 0
    decreases |events|
  {
    if events == [] {
    } else {
      var n := |events| - 1;
      PreparedKeeps(config, events[..n]);
      assert events == events[..n] + [events[n]];
    }
  }

  lemma {:induction false} CountsPlaced(config: Config, events: seq<Event>, k: CountKey)
    requires config.interval > 0
    ensures Count(config, events, k) == |Placed(config, events, k)|
    decreases |events|
  {
    if events == [] {
    } else {
      var n := |events| - 1;
      CountsPlaced(config, events[..n], k);
      PlacedOneMore(config, events, k);
    }
  }

  lemma {:induction false} SeenArrived(config: Config, events: seq<Event>, k: CountKey, t: int)
    requires config.interval > 0
    ensures Count(config, Seen(config, events, t), k) == if k.bucket < t then |Arrived(config, events, k, t)| else 0
    decreases |events|
  {
    if events == [] {
    } else {
      var n := |events| - 1;
      SeenArrived(config, events[..n], k, t);
      ArrivedOneMore(config, events, k, t);
      if VisibleAt(config, events[n], t) {
        CountAppend(config, Seen(config, events[..n], t), events[n], k);
      }
    }
  }

  lemma AllSeenArrived(config: Config, events: seq<Event>, t: int)
    requires config.interval > 0
    ensures forall k :: Count(config, Seen(config, events, t), k)
                     == if k.bucket < t then |Arrived(config, events, k, t)| else 0
  {
    forall k
      ensures Count(config, Seen(config, events, t), k)
           == if k.bucket < t then |Arrived(config, events, k, t)| else 0
    {
      SeenArrived(config, events, k, t);
    }
  }

  lemma PlacedOneMore(config: Config, events: seq<Event>, k: CountKey)
    requires config.interval > 0 && events != []
    ensures |Placed(config, events, k)|
         == |Placed(config, events[..|events| - 1], k)|
            + if KeyOf(config, events[|events| - 1]) == k then 1 else 0
  {
    OnePosition(events, (e: Event) =>
      e.cell == k.cell && e.category == k.category && FloorInterval(e.occurredAt, config.interval) == k.bucket);
  }

  lemma ArrivedOneMore(config: Config, events: seq<Event>, k: CountKey, t: int)
    requires config.interval > 0 && events != []
    ensures |Arrived(config, events, k, t)|
         == |Arrived(config, events[..|events| - 1], k, t)|
            + if KeyOf(config, events[|events| - 1]) == k && events[|events| - 1].receivedAt < t as real
              then 1 else 0
  {
    OnePosition(events, (e: Event) =>
      && e.cell == k.cell && e.category == k.category && FloorInterval(e.occurredAt, config.interval) == k.bucket
      && e.receivedAt < t as real);
  }

  lemma CountsAdd(config: Config, events: seq<Event>, event: Event, counts: map<CountKey, nat>)
    requires config.interval > 0 && Counts(config, events, counts)
    ensures Counts(config, events + [event],
                   counts[KeyOf(config, event) := Get(counts, KeyOf(config, event)) + 1])
  {
    forall k
      ensures Get(counts[KeyOf(config, event) := Get(counts, KeyOf(config, event)) + 1], k)
           == Count(config, events + [event], k)
    {
      CountAppend(config, events, event, k);
    }
  }

  method PrepareEvents(config: Config, events: seq<Event>) returns (prepared: seq<Event>)
    ensures prepared == Prepared(config, events)
    ensures forall e: Event :: multiset(prepared)[e]
                     == if e.cell in config.cells && e.category in config.categories then multiset(events)[e] else 0
  {
    PreparedKeeps(config, events);
    prepared := [];
    var i := 0;
    while i < |events|
      invariant i <= |events|
      invariant prepared == Prepared(config, events[..i])
    {
      assert events[..i + 1][..i] == events[..i];
      if events[i].cell in config.cells && events[i].category in config.categories {
        prepared := prepared + [events[i]];
      }
      i := i + 1;
    }
    assert events[..i] == events;
  }

  /** The labels: counts by bucket of occurrence. */
  method CountLabels(config: Config, events: seq<Event>) returns (counts: map<CountKey, nat>)
    requires config.interval > 0
    ensures Counts(config, events, counts)
    ensures forall k :: Get(counts, k) == |Placed(config, events, k)|
  {
    forall k ensures Count(config, events, k) == |Placed(config, events, k)| {
      CountsPlaced(config, events, k);
    }
    counts := map[];
    var i := 0;
    while i < |events|
      invariant i <= |events|
      invariant Counts(config, events[..i], counts)
    {
      CountsAdd(config, events[..i], events[i], counts);
      assert events[..i + 1] == events[..i] + [events[i]];
      counts := counts[KeyOf(config, events[i]) := Get(counts, KeyOf(config, events[i])) + 1];
      i := i + 1;
    }
    assert events[..i] == events;
  }

  /** The counts visible at t. */
  method CountVisible(config: Config, events: seq<Event>, t: int) returns (counts: map<CountKey, nat>)
    requires config.interval > 0
    ensures Counts(config, Seen(config, events, t), counts)
    ensures forall k :: Get(counts, k) == if k.bucket < t then |Arrived(config, events, k, t)| else 0
  {
    AllSeenArrived(config, events, t);
    counts := map[];
    var i := 0;
    while i < |events|
      invariant i <= |events|
      invariant Counts(config, Seen(config, events[..i], t), counts)
    {
      assert events[..i + 1][..i] == events[..i];
      if VisibleAt(config, events[i], t) {
        CountsAdd(config, Seen(config, events[..i], t), events[i], counts);
        counts := counts[KeyOf(config, events[i]) := Get(counts, KeyOf(config, events[i])) + 1];
      }
      i := i + 1;
    }
    assert events[..i] == events;
  }

  /** Adds up the counts of lags `first`, ..., `last`. */
  method SumLags(
    config: Config, ghost seen: seq<Event>, counts: map<CountKey, nat>, k: RowKey, first: nat, last: nat)
    returns (sum: nat)
    requires config.interval > 0 && Counts(config, seen, counts) && 1 <= first <= last + 1
    ensures sum == LagSum(config, seen, k, first, last)
  {
    sum := 0;
    var offset := first;
    while offset <= last
      invariant first <= offset <= last + 1
      invariant sum == LagSum(config, seen, k, first, offset - 1)
    {
      sum := sum + Get(counts, CountKey(k.cell, k.category, k.intervalStart - config.interval * offset));
      offset := offset + 1;
    }
  }

  method SumNeighbors(
    config: Config, ghost seen: seq<Event>, counts: map<CountKey, nat>, k: RowKey) returns (sum: nat)
    requires config.interval > 0 && Counts(config, seen, counts)
    ensures sum == NeighborSum(config, seen, k, config.neighbors(k.cell))
  {
    var neighbors := config.neighbors(k.cell);
    sum := 0;
    var i := 0;
    while i < |neighbors|
      invariant i <= |neighbors|
      invariant sum == NeighborSum(config, seen, k, neighbors[..i])
    {
      assert neighbors[..i + 1][..i] == neighbors[..i];
      if neighbors[i] in config.cells && neighbors[i] != k.cell && neighbors[i] !in neighbors[..i] {
        sum := sum + Get(counts, CountKey(neighbors[i], k.category, k.intervalStart - config.interval * 1));
      }
      i := i + 1;
    }
    assert neighbors[..i] == neighbors;
  }

  method BuildRow(
    config: Config, ghost events: seq<Event>, labels: map<CountKey, nat>, visible: map<CountKey, nat>, k: RowKey)
    returns (row: Row)
    requires config.interval > 0 && Counts(config, events, labels)
    requires Counts(config, Seen(config, events, k.intervalStart), visible)
    ensures row == RowOf(config, events, k)
  {
    ghost var seen := Seen(config, events, k.intervalStart);
    var seven := SumLags(config, seen, visible, k, 1, 7);
    var fourteen := SumLags(config, seen, visible, k, 1, 14);
    var recent := SumLags(config, seen, visible, k, 1, 3);
    var previous := SumLags(config, seen, visible, k, 4, 6);
    var neighborLag := SumNeighbors(config, seen, visible, k);
    var lag1 := SumLags(config, seen, visible, k, 1, 1);
    var lag2 := SumLags(config, seen, visible, k, 2, 2);
    var lag7 := SumLags(config, seen, visible, k, 7, 7);
    var lag14 := SumLags(config, seen, visible, k, 14, 14);
    row := Row(
      k, Get(labels, CountKeyOf(k)),
      Predictors(lag1, lag2, lag7, lag14, seven as real / 7.0, fourteen as real / 14.0, neighborLag,
                 recent as real / 3.0 - previous as real / 3.0, config.coverage));
  }

  method BuildCells(
    config: Config, ghost events: seq<Event>, labels: map<CountKey, nat>, visible: map<CountKey, nat>,
    t: int, category: Category) returns (rows: seq<Row>)
    requires config.interval > 0 && Counts(config, events, labels)
    requires Counts(config, Seen(config, events, t), visible)
    ensures rows == RowsOf(config, events, CellKeys(t, category, config.cells))
  {
    rows := [];
    var i := 0;
    while i < |config.cells|
      invariant i <= |config.cells|
      invariant rows == RowsOf(config, events, CellKeys(t, category, config.cells)[..i])
    {
      var row := BuildRow(config, events, labels, visible, RowKey(t, category, config.cells[i]));
      rows := rows + [row];
      i := i + 1;
    }
  }

  lemma RowsConcat(config: Config, events: seq<Event>, a: seq<RowKey>, b: seq<RowKey>)
    requires config.interval > 0
    ensures RowsOf(config, events, a + b) == RowsOf(config, events, a) + RowsOf(config, events, b)
  {
  }

  method BuildInterval(
    config: Config, events: seq<Event>, labels: map<CountKey, nat>, t: int) returns (rows: seq<Row>)
    requires config.interval > 0 && Counts(config, events, labels)
    ensures rows == RowsOf(config, events, CategoryKeys(t, config.categories, config.cells))
  {
    var visible := CountVisible(config, events, t);
    rows := [];
    var i := 0;
    while i < |config.categories|
      invariant i <= |config.categories|
      invariant rows == RowsOf(config, events, CategoryKeys(t, config.categories[..i], config.cells))
    {
      var more := BuildCells(config, events, labels, visible, t, config.categories[i]);
      assert config.categories[..i + 1][..i] == config.categories[..i];
      RowsConcat(config, events, CategoryKeys(t, config.categories[..i], config.cells),
                 CellKeys(t, config.categories[i], config.cells));
      rows := rows + more;
      i := i + 1;
    }
    assert config.categories[..i] == config.categories;
  }

  /** The table: interval by interval, category by category, cell by cell. */
  method BuildRows(config: Config, stored: seq<Event>) returns (result: Result<seq<Row>, BuildError>)
    ensures result == Build(config, stored)
  {
    if !config.Valid() {
      return Err(InvalidConfig);
    }
    if !Aligned(config) {
      return Err(Misaligned);
    }
    var events := PrepareEvents(config, stored);
    var starts := ListStarts(config);
    var rows := BuildTable(config, events, starts);
    result := Ok(rows);
  }

  method BuildTable(config: Config, events: seq<Event>, starts: seq<int>) returns (rows: seq<Row>)
    requires config.interval > 0
    ensures rows == RowsOf(config, events, TableKeys(starts, config.categories, config.cells))
  {
    var labels := CountLabels(config, events);
    rows := [];
    var i := 0;
    while i < |starts|
      invariant i <= |starts|
      invariant rows == RowsOf(config, events, TableKeys(starts[..i], config.categories, config.cells))
    {
      var more := BuildInterval(config, events, labels, starts[i]);
      assert starts[..i + 1][..i] == starts[..i];
      RowsConcat(config, events, TableKeys(starts[..i], config.categories, config.cells),
                 CategoryKeys(starts[i], config.categories, config.cells));
      rows := rows + more;
      i := i + 1;
    }
    assert starts[..i] == starts;
  }

  method ListStarts(config: Config) returns (starts: seq<int>)
    requires config.interval > 0
    ensures starts == Starts(config.interval, config.start.Floor, config.end.Floor)
  {
    starts := [];
    var cursor, end := config.start.Floor, config.end.Floor;
    while cursor < end
      invariant starts + Starts(config.interval, cursor, end)
             == Starts(config.interval, config.start.Floor, end)
      decreases end - cursor
    {
      starts := starts + [cursor];
      cursor := cursor + config.interval;
    }
  }

  // ---------- point in time ----------

  lemma {:induction false} CountRemove(config: Config, events: seq<Event>, j: nat, k: CountKey)
    requires config.interval > 0 && j < |events|
    ensures Count(config, events, k)
         == Count(config, events[..j] + events[j + 1..], k) + (if KeyOf(config, events[j]) == k then 1 else 0)
    decreases |events|
  {
    var n := |events| - 1;
    if j < n {
      CountRemove(config, events[..n], j, k);
      assert events[..n][..j] == events[..j] && events[..n][j + 1..] == events[j + 1..n];
      assert (events[..j] + events[j + 1..])[..n - 1] == events[..j] + events[j + 1..n];
    } else {
      assert events[..j] + events[j + 1..] == events[..n];
    }
  }

  lemma OneFewer(a: seq<Event>, b: seq<Event>, j: nat)
    requires a != [] && j < |b| && b[j] == a[|a| - 1] && multiset(a) == multiset(b)
    ensures multiset(a[..|a| - 1]) == multiset(b[..j] + b[j + 1..])
  {
    var n := |a| - 1;
    assert a == a[..n] + [a[n]];
    assert b == b[..j] + [b[j]] + b[j + 1..];
    var rest, rest' := multiset(a[..n]), multiset(b[..j] + b[j + 1..]);
    assert multiset(a) == rest + multiset{a[n]};
    assert multiset(b) == rest' + multiset{b[j]};
    assert rest == multiset(a) - multiset{a[n]} && rest' == multiset(b) - multiset{b[j]};
  }

  lemma ElsewhereToo(a: seq<Event>, b: seq<Event>) returns (j: nat)
    requires a != [] && multiset(a) == multiset(b)
    ensures j < |b| && b[j] == a[|a| - 1]
  {
    assert a[|a| - 1] in multiset(b);
    j :| 0 <= j < |b| && b[j] == a[|a| - 1];
  }

  /** Counts do not depend on the order in which events are listed. */
  lemma {:induction false} CountPermuted(config: Config, a: seq<Event>, b: seq<Event>, k: CountKey)
    requires config.interval > 0 && multiset(a) == multiset(b)
    ensures Count(config, a, k) == Count(config, b, k)
    decreases |a|
  {
    if a == [] {
      assert |multiset(a)| == |multiset(b)| == |b|;
    } else {
      var j := ElsewhereToo(a, b);
      OneFewer(a, b, j);
      CountPermuted(config, a[..|a| - 1], b[..j] + b[j + 1..], k);
      CountRemove(config, b, j, k);
    }
  }

  lemma {:induction false} LagSumPermuted(
    config: Config, a: seq<Event>, b: seq<Event>, k: RowKey, first: nat, last: nat)
    requires config.interval > 0 && multiset(a) == multiset(b)
    ensures LagSum(config, a, k, first, last) == LagSum(config, b, k, first, last)
    decreases last
  {
    if last < first || last == 0 {
    } else {
      LagSumPermuted(config, a, b, k, first, last - 1);
      CountPermuted(config, a, b, CountKey(k.cell, k.category, k.intervalStart - config.interval * last));
    }
  }

  lemma {:induction false} NeighborsPermuted(
    config: Config, a: seq<Event>, b: seq<Event>, k: RowKey, neighbors: seq<Cell>)
    requires config.interval > 0 && multiset(a) == multiset(b)
    ensures NeighborSum(config, a, k, neighbors) == NeighborSum(config, b, k, neighbors)
    decreases |neighbors|
  {
    if neighbors == [] {
    } else {
      var n := |neighbors| - 1;
      NeighborsPermuted(config, a, b, k, neighbors[..n]);
      CountPermuted(config, a, b, CountKey(neighbors[n], k.category, k.intervalStart - config.interval * 1));
    }
  }

  lemma {:induction false} PredictorsPermuted(config: Config, a: seq<Event>, b: seq<Event>, k: RowKey)
    requires config.interval > 0 && multiset(a) == multiset(b)
    ensures PredictorsOf(config, a, k) == PredictorsOf(config, b, k)
  {
    CountPermuted(config, a, b, CountKey(k.cell, k.category, k.intervalStart - config.interval * 1));
    CountPermuted(config, a, b, CountKey(k.cell, k.category, k.intervalStart - config.interval * 2));
    CountPermuted(config, a, b, CountKey(k.cell, k.category, k.intervalStart - config.interval * 7));
    CountPermuted(config, a, b, CountKey(k.cell, k.category, k.intervalStart - config.interval * 14));
    LagSumPermuted(config, a, b, k, 1, 7);
    LagSumPermuted(config, a, b, k, 1, 14);
    LagSumPermuted(config, a, b, k, 1, 3);
    LagSumPermuted(config, a, b, k, 4, 6);
    NeighborsPermuted(config, a, b, k, config.neighbors(k.cell));
  }

  lemma {:induction false} SeenKeeps(config: Config, events: seq<Event>, t: int)
    requires config.interval > 0
    ensures forall e: Event :: multiset(Seen(config, events, t))[e]
                     == if FloorInterval(e.occurredAt, config.interval) < t && e.receivedAt < t as real
                        then multiset(events)[e] else 0
    decreases |events|
  {
    if events == [] {
    } else {
      var n := |events| - 1;
      SeenKeeps(config, events[..n], t);
      assert events == events[..n] + [events[n]];
    }
  }

  lemma SeenAgree(config: Config, a: seq<Event>, b: seq<Event>, t: int)
    requires config.interval > 0
    requires forall e: Event ::
               e.cell in config.cells && e.category in config.categories
               && FloorInterval(e.occurredAt, config.interval) < t && e.receivedAt < t as real
               ==> multiset(a)[e] == multiset(b)[e]
    ensures multiset(Seen(config, Prepared(config, a), t)) == multiset(Seen(config, Prepared(config, b), t))
  {
    PreparedKeeps(config, a);
    PreparedKeeps(config, b);
    SeenKeeps(config, Prepared(config, a), t);
    SeenKeeps(config, Prepared(config, b), t);
  }

  /**
    Point-in-time non-interference: two stores that agree, in whatever order, on
    the in-domain events already bucketed and received before t give every row
    at t the same predictors; only the label may differ.
  */
  lemma PointInTime(config: Config, a: seq<Event>, b: seq<Event>, i: nat)
    requires Build(config, a).Ok? && Build(config, b).Ok? && i < |Build(config, a).value|
    requires var t := Build(config, a).value[i].key.intervalStart;
             forall e: Event :: e.cell in config.cells && e.category in config.categories
                         && FloorInterval(e.occurredAt, config.interval) < t && e.receivedAt < t as real
                         ==> multiset(a)[e] == multiset(b)[e]
    ensures i < |Build(config, b).value|
    ensures Build(config, a).value[i].key == Build(config, b).value[i].key
    ensures Build(config, a).value[i].predictors == Build(config, b).value[i].predictors
  {
    var k := Build(config, a).value[i].key;
    SeenAgree(config, a, b, k.intervalStart);
    PredictorsPermuted(config, Seen(config, Prepared(config, a), k.intervalStart),
                       Seen(config, Prepared(config, b), k.intervalStart), k);
  }

  // ---------- what the numbers of a row are ----------

  /** The in-domain neighbours' events of a category that occurred in a bucket and arrived before t. */
  ghost function Nearby(config: Config, events: seq<Event>, k: CountKey, neighbors: seq<Cell>, t: int): set<nat>
    requires config.interval > 0
  {
    Positions(events, (e: Event) =>
      && e.cell in neighbors && e.cell in config.cells && e.cell != k.cell && e.category == k.category
      && FloorInterval(e.occurredAt, config.interval) == k.bucket && e.receivedAt < t as real)
  }

  /** Leaving other cells and categories out does not change a count of the domain. */
  lemma {:induction false} PreparedPlaced(config: Config, events: seq<Event>, k: CountKey)
    requires config.interval > 0 && k.cell in config.cells && k.category in config.categories
    ensures Count(config, Prepared(config, events), k) == |Placed(config, events, k)|
    decreases |events|
  {
    if events == [] {
    } else {
      var n := |events| - 1;
      PreparedPlaced(config, events[..n], k);
      PlacedOneMore(config, events, k);
      CountAppend(config, Prepared(config, events[..n]), events[n], k);
    }
  }

  lemma SeenAppend(config: Config, events: seq<Event>, event: Event, t: int)
    requires config.interval > 0
    ensures Seen(config, events + [event], t)
         == Seen(config, events, t) + if VisibleAt(config, event, t) then [event] else []
  {
    assert (events + [event])[..|events|] == events;
  }

  lemma {:induction false} PreparedArrived(config: Config, events: seq<Event>, k: CountKey, t: int)
    requires config.interval > 0 && k.cell in config.cells && k.category in config.categories && k.bucket < t
    ensures Count(config, Seen(config, Prepared(config, events), t), k) == |Arrived(config, events, k, t)|
    decreases |events|
  {
    if events == [] {
    } else {
      var n := |events| - 1;
      var rest := Prepared(config, events[..n]);
      PreparedArrived(config, events[..n], k, t);
      ArrivedOneMore(config, events, k, t);
      SeenAppend(config, rest, events[n], t);
      CountAppend(config, Seen(config, rest, t), events[n], k);
    }
  }

  /** One more neighbour adds its own events, unless it was listed before, is the cell itself or lies outside. */
  lemma NearbyOneMore(config: Config, events: seq<Event>, k: CountKey, neighbors: seq<Cell>, cell: Cell, t: int)
    requires config.interval > 0
    ensures |Nearby(config, events, k, neighbors + [cell], t)|
         == |Nearby(config, events, k, neighbors, t)|
            + if cell in config.cells && cell != k.cell && cell !in neighbors
              then |Arrived(config, events, k.(cell := cell), t)| else 0
  {
    var before, after := Nearby(config, events, k, neighbors, t), Nearby(config, events, k, neighbors + [cell], t);
    var own := Arrived(config, events, k.(cell := cell), t);
    assert forall c :: c in neighbors + [cell] <==> c in neighbors || c == cell;
    if cell in config.cells && cell != k.cell && cell !in neighbors {
      assert after == before + own && before !! own;
    } else {
      assert after == before;
    }
  }

  lemma {:induction false} NearbyCounts(
    config: Config, events: seq<Event>, k: RowKey, neighbors: seq<Cell>, t: int)
    requires config.interval > 0 && k.category in config.categories && k.intervalStart == t
    ensures NeighborSum(config, Seen(config, Prepared(config, events), t), k, neighbors)
         == |Nearby(config, events, CountKey(k.cell, k.category, t - config.interval), neighbors, t)|
    decreases |neighbors|
  {
    if neighbors == [] {
    } else {
      var n := |neighbors| - 1;
      var here := CountKey(k.cell, k.category, t - config.interval);
      NearbyCounts(config, events, k, neighbors[..n], t);
      assert neighbors == neighbors[..n] + [neighbors[n]];
      NearbyOneMore(config, events, here, neighbors[..n], neighbors[n], t);
      if neighbors[n] in config.cells && neighbors[n] != k.cell && neighbors[n] !in neighbors[..n] {
        PreparedArrived(config, events, here.(cell := neighbors[n]), t);
      }
    }
  }

  /** How many stored events of the row's cell and category a row at t may see `n` intervals back. */
  ghost function Back(config: Config, events: seq<Event>, k: RowKey, n: nat): nat
    requires config.interval > 0
  {
    |Arrived(config, events, CountKey(k.cell, k.category, k.intervalStart - config.interval * n), k.intervalStart)|
  }

  lemma Earlier(t: int, interval: int, n: nat)
    requires interval > 0 && n > 0
    ensures t - interval * n < t
  {
    ProductSize(n, interval);
  }

  lemma LagIsBack(config: Config, events: seq<Event>, k: RowKey, n: nat)
    requires config.interval > 0 && k.cell in config.cells && k.category in config.categories && n > 0
    ensures Lag(config, Seen(config, Prepared(config, events), k.intervalStart), k, n) == Back(config, events, k, n)
  {
    Earlier(k.intervalStart, config.interval, n);
    PreparedArrived(config, events, CountKey(k.cell, k.category, k.intervalStart - config.interval * n),
                    k.intervalStart);
  }

  lemma LagSums(config: Config, seen: seq<Event>, k: RowKey)
    requires config.interval > 0
    ensures LagSum(config, seen, k, 1, 3) == Lag(config, seen, k, 1) + Lag(config, seen, k, 2) + Lag(config, seen, k, 3)
    ensures LagSum(config, seen, k, 4, 6) == Lag(config, seen, k, 4) + Lag(config, seen, k, 5) + Lag(config, seen, k, 6)
    ensures LagSum(config, seen, k, 1, 7)
         == LagSum(config, seen, k, 1, 3) + LagSum(config, seen, k, 4, 6) + Lag(config, seen, k, 7)
    ensures LagSum(config, seen, k, 1, 14)
         == LagSum(config, seen, k, 1, 7) + Lag(config, seen, k, 8) + Lag(config, seen, k, 9)
            + Lag(config, seen, k, 10) + Lag(config, seen, k, 11) + Lag(config, seen, k, 12)
            + Lag(config, seen, k, 13) + Lag(config, seen, k, 14)
  {
    assert LagSum(config, seen, k, 1, 1) == Lag(config, seen, k, 1);
    assert LagSum(config, seen, k, 1, 3) == LagSum(config, seen, k, 1, 2) + Lag(config, seen, k, 3);
    assert LagSum(config, seen, k, 4, 4) == Lag(config, seen, k, 4);
    assert LagSum(config, seen, k, 4, 6) == LagSum(config, seen, k, 4, 5) + Lag(config, seen, k, 6);
    assert LagSum(config, seen, k, 1, 5) == LagSum(config, seen, k, 1, 4) + Lag(config, seen, k, 5);
    assert LagSum(config, seen, k, 1, 7) == LagSum(config, seen, k, 1, 6) + Lag(config, seen, k, 7);
    assert LagSum(config, seen, k, 1, 9) == LagSum(config, seen, k, 1, 8) + Lag(config, seen, k, 9);
    assert LagSum(config, seen, k, 1, 11) == LagSum(config, seen, k, 1, 10) + Lag(config, seen, k, 11);
    assert LagSum(config, seen, k, 1, 13) == LagSum(config, seen, k, 1, 12) + Lag(config, seen, k, 13);
  }

  lemma KeysInDomain(config: Config, events: seq<Event>, i: nat)
    requires Build(config, events).Ok? && i < |Build(config, events).value|
    ensures var k := Build(config, events).value[i].key;
            k == KeysOf(config)[i] && k.cell in config.cells && k.category in config.categories
  {
    var k := KeysOf(config)[i];
    TableKeysAre(Starts(config.interval, config.start.Floor, config.end.Floor), config.categories, config.cells, k);
  }

  /**
    Every number of a row, counted in the store itself: the label is the number
    of events of the cell and category in the interval, and each predictor is
    its own arithmetic on the numbers of events that occurred so many intervals
    back and had been received before the row's time.
  */
  lemma RowCounts(config: Config, events: seq<Event>, i: nat)
    requires Build(config, events).Ok? && i < |Build(config, events).value|
    ensures var row := Build(config, events).value[i];
            var k, p := row.key, row.predictors;
            var back := (n: nat) => Back(config, events, k, n);
            && row.eventCount == |Placed(config, events, CountKey(k.cell, k.category, k.intervalStart))|
            && p.lag1 == back(1) && p.lag2 == back(2) && p.lag7 == back(7) && p.lag14 == back(14)
            && p.rolling7 == (back(1) + back(2) + back(3) + back(4) + back(5) + back(6) + back(7)) as real / 7.0
            && p.rolling14
               == (back(1) + back(2) + back(3) + back(4) + back(5) + back(6) + back(7) + back(8) + back(9) + back(10)
                   + back(11) + back(12) + back(13) + back(14)) as real / 14.0
            && p.recentTrend
               == (back(1) + back(2) + back(3)) as real / 3.0 - (back(4) + back(5) + back(6)) as real / 3.0
            && p.neighborLag1
               == |Nearby(config, events, CountKey(k.cell, k.category, k.intervalStart - config.interval),
                          config.neighbors(k.cell), k.intervalStart)|
            && p.coverage == config.coverage
  {
    var k := Build(config, events).value[i].key;
    var seen := Seen(config, Prepared(config, events), k.intervalStart);
    KeysInDomain(config, events, i);
    PreparedPlaced(config, events, CountKeyOf(k));
    NearbyCounts(config, events, k, config.neighbors(k.cell), k.intervalStart);
    LagSums(config, seen, k);
    forall n: nat | 1 <= n <= 14 ensures Lag(config, seen, k, n) == Back(config, events, k, n) {
      LagIsBack(config, events, k, n);
    }
  }

  /** Which configurations are refused, and how. */
  lemma BuildRefuses(config: Config, events: seq<Event>)
    ensures var sound := config.end > config.start && config.interval > 0 && config.interval % 60 == 0
                         && config.cells != [] && config.categories != [] && 0.0 <= config.coverage <= 1.0;
            var onGrid := (x: real) => sound && x == x.Floor as real && x.Floor % config.interval == 0;
            match Build(config, events)
            case Ok(_) => sound && onGrid(config.start) && onGrid(config.end)
            case Err(InvalidConfig) => !sound
            case Err(Misaligned) => sound && !(onGrid(config.start) && onGrid(config.end))
  {
    if config.Valid() {
      OnGrid(config.start, config.interval);
      OnGrid(config.end, config.interval);
    }
  }

  lemma OnGrid(t: real, interval: int)
    requires interval > 0
    ensures FloorInterval(t, interval) as real == t <==> t == t.Floor as real && t.Floor % interval == 0
  {
    if t == t.Floor as real {
      assert Truncate(t) == t.Floor;
    }
  }

  // ---------- labels and lags ----------

  lemma {:induction false} SeenCounts(config: Config, events: seq<Event>, t: int, k: CountKey)
    requires config.interval > 0
    ensures Count(config, Seen(config, events, t), k) <= Count(config, events, k)
    ensures t <= k.bucket ==> Count(config, Seen(config, events, t), k) == 0
    decreases |events|
  {
    if events == [] {
    } else {
      var n := |events| - 1;
      SeenCounts(config, events[..n], t, k);
      if VisibleAt(config, events[n], t) {
        CountAppend(config, Seen(config, events[..n], t), events[n], k);
      }
    }
  }

  /** A lag never exceeds the label of the interval it looks back to. */
  lemma LagBounded(config: Config, events: seq<Event>, k: RowKey, offset: nat)
    requires config.interval > 0
    ensures Lag(config, Seen(config, events, k.intervalStart), k, offset)
         <= RowOf(config, events, k.(intervalStart := k.intervalStart - config.interval * offset)).eventCount
  {
    SeenCounts(config, events, k.intervalStart,
               CountKey(k.cell, k.category, k.intervalStart - config.interval * offset));
  }

  // ---------- the keys of the table ----------

  predicate Distinct<T(==)>(s: seq<T>) {
    forall i, j :: 0 <= i < j < |s| ==> s[i] != s[j]
  }

  lemma {:induction false} CategoryKeysAre(t: int, categories: seq<Category>, cells: seq<Cell>, k: RowKey)
    ensures k in CategoryKeys(t, categories, cells)
       <==> k.intervalStart == t && k.category in categories && k.cell in cells
    decreases |categories|
  {
    if categories == [] {
    } else {
      var n := |categories| - 1;
      CategoryKeysAre(t, categories[..n], cells, k);
      CellKeysAre(t, categories[n], cells, k);
      assert k.category in categories <==> k.category in categories[..n] || k.category == categories[n];
    }
  }

  lemma CellKeysAre(t: int, category: Category, cells: seq<Cell>, k: RowKey)
    ensures k in CellKeys(t, category, cells) <==> k.intervalStart == t && k.category == category && k.cell in cells
  {
    if k.intervalStart == t && k.category == category && k.cell in cells {
      var i :| 0 <= i < |cells| && cells[i] == k.cell;
      assert CellKeys(t, category, cells)[i] == k;
    }
  }

  lemma {:induction false} TableKeysAre(
    times: seq<int>, categories: seq<Category>, cells: seq<Cell>, k: RowKey)
    ensures k in TableKeys(times, categories, cells)
       <==> k.intervalStart in times && k.category in categories && k.cell in cells
    decreases |times|
  {
    if times == [] {
    } else {
      var n := |times| - 1;
      TableKeysAre(times[..n], categories, cells, k);
      CategoryKeysAre(times[n], categories, cells, k);
      assert k.intervalStart in times <==> k.intervalStart in times[..n] || k.intervalStart == times[n];
    }
  }

  /** Two distinct lists without common elements make one distinct list. */
  lemma DistinctConcat<T>(a: seq<T>, b: seq<T>)
    requires Distinct(a) && Distinct(b) && forall x :: x in a ==> x !in b
    ensures Distinct(a + b)
  {
    forall i, j | 0 <= i < j < |a + b| ensures (a + b)[i] != (a + b)[j] {
      if i < |a| {
        assert a[i] in a;
      }
      if |a| <= j {
        assert b[j - |a|] in b;
      }
    }
  }

  lemma {:induction false} CategoryKeysDistinct(t: int, categories: seq<Category>, cells: seq<Cell>)
    requires Distinct(categories) && Distinct(cells)
    ensures Distinct(CategoryKeys(t, categories, cells))
    decreases |categories|
  {
    if categories == [] {
    } else {
      var n := |categories| - 1;
      CategoryKeysDistinct(t, categories[..n], cells);
      forall k | k in CategoryKeys(t, categories[..n], cells) ensures k !in CellKeys(t, categories[n], cells) {
        CategoryKeysAre(t, categories[..n], cells, k);
        CellKeysAre(t, categories[n], cells, k);
      }
      DistinctConcat(CategoryKeys(t, categories[..n], cells), CellKeys(t, categories[n], cells));
    }
  }

  lemma {:induction false} TableKeysDistinct(times: seq<int>, categories: seq<Category>, cells: seq<Cell>)
    requires Distinct(times) && Distinct(categories) && Distinct(cells)
    ensures Distinct(TableKeys(times, categories, cells))
    decreases |times|
  {
    if times == [] {
    } else {
      var n := |times| - 1;
      TableKeysDistinct(times[..n], categories, cells);
      CategoryKeysDistinct(times[n], categories, cells);
      forall k | k in TableKeys(times[..n], categories, cells)
        ensures k !in CategoryKeys(times[n], categories, cells)
      {
        TableKeysAre(times[..n], categories, cells, k);
        CategoryKeysAre(times[n], categories, cells, k);
      }
      DistinctConcat(TableKeys(times[..n], categories, cells), CategoryKeys(times[n], categories, cells));
    }
  }

  lemma {:induction false} StartsDistinct(interval: int, t: int, end: int)
    requires interval > 0
    ensures Distinct(Starts(interval, t, end))
    ensures forall u :: u in Starts(interval, t, end) ==> t <= u < end
    decreases end - t
  {
    if end <= t {
    } else {
      StartsDistinct(interval, t + interval, end);
      DistinctConcat([t], Starts(interval, t + interval, end));
    }
  }

  /** An aligned moment in [t, end) is one of the interval starts. */
  lemma {:induction false} StartsAre(interval: int, t: int, end: int, u: int)
    requires interval > 0 && t % interval == 0 && u % interval == 0
    ensures u in Starts(interval, t, end) <==> t <= u < end
    decreases end - t
  {
    if end <= t {
    } else {
      NextMultiple(interval, t, u);
      StartsAre(interval, t + interval, end, u);
    }
  }

  lemma NextMultiple(d: int, t: int, u: int)
    requires d > 0 && t % d == 0 && u % d == 0
    ensures (t + d) % d == 0
    ensures u > t ==> u >= t + d
  {
    assert t == d * (t / d) && u == d * (u / d);
    assert t + d == d * (t / d + 1);
    MultipleHasNone(t / d + 1, d);
    assert u - t == d * (u / d - t / d);
    ProductSize(u / d - t / d, d);
  }

  lemma AlignedTimes(config: Config)
    requires config.Valid() && Aligned(config)
    ensures config.start.Floor % config.interval == 0
    ensures config.start.Floor as real == config.start && config.end.Floor as real == config.end
  {
    var a, b := FloorInterval(config.start, config.interval), FloorInterval(config.end, config.interval);
    assert config.start.Floor == a && config.end.Floor == b;
  }

  /** One row for every interval, category and cell of the table, and no other. */
  lemma RowsAreUnique(config: Config, events: seq<Event>, k: RowKey)
    requires Build(config, events).Ok? && Distinct(config.categories) && Distinct(config.cells)
    ensures var rows := Build(config, events).value;
            && (forall i, j :: 0 <= i < j < |rows| ==> rows[i].key != rows[j].key)
            && ((exists i :: 0 <= i < |rows| && rows[i].key == k)
                <==> && k.intervalStart % config.interval == 0
                     && config.start <= k.intervalStart as real < config.end
                     && k.category in config.categories && k.cell in config.cells)
  {
    var times := Starts(config.interval, config.start.Floor, config.end.Floor);
    var rows := Build(config, events).value;
    AlignedTimes(config);
    StartsDistinct(config.interval, config.start.Floor, config.end.Floor);
    TableKeysDistinct(times, config.categories, config.cells);
    TableKeysAre(times, config.categories, config.cells, k);
    StartsAligned(config.interval, config.start.Floor, config.end.Floor, k.intervalStart);
    if k in KeysOf(config) {
      var i :| 0 <= i < |KeysOf(config)| && KeysOf(config)[i] == k;
      assert rows[i].key == k;
    }
  }

  lemma {:induction false} StartsAligned(interval: int, t: int, end: int, u: int)
    requires interval > 0 && t % interval == 0
    ensures u in Starts(interval, t, end) <==> u % interval == 0 && t <= u < end
    decreases end - t
  {
    if u % interval == 0 {
      StartsAre(interval, t, end, u);
    } else if t < end {
      NextMultiple(interval, t, t);
      StartsAligned(interval, t + interval, end, u);
    }
  }

  // ---------- the order of the table ----------

  /** The length of `n` blocks, as the sum it is. */
  function Blocks(n: nat, size: nat): nat {
    if n == 0 then 0 else Blocks(n - 1, size) + size
  }

  lemma {:induction false} BlocksAre(n: nat, size: nat)
    ensures Blocks(n, size) == n * size
  {
    if n == 0 {
    } else {
      BlocksAre(n - 1, size);
      assert n * size == (n - 1) * size + size;
    }
  }

  lemma {:induction false} CategoryKeysSize(t: int, categories: seq<Category>, cells: seq<Cell>)
    ensures |CategoryKeys(t, categories, cells)| == Blocks(|categories|, |cells|)
    decreases |categories|
  {
    if categories == [] {
    } else {
      CategoryKeysSize(t, categories[..|categories| - 1], cells);
    }
  }

  lemma {:induction false} CategoryKeysAt(t: int, categories: seq<Category>, cells: seq<Cell>, b: nat, c: nat)
    requires b < |categories| && c < |cells|
    ensures Blocks(b, |cells|) + c < |CategoryKeys(t, categories, cells)|
    ensures CategoryKeys(t, categories, cells)[Blocks(b, |cells|) + c] == RowKey(t, categories[b], cells[c])
    decreases |categories|
  {
    var n := |categories| - 1;
    CategoryKeysSize(t, categories[..n], cells);
    if b == n {
    } else {
      CategoryKeysAt(t, categories[..n], cells, b, c);
    }
  }

  lemma {:induction false} TableKeysSize(times: seq<int>, categories: seq<Category>, cells: seq<Cell>, size: nat)
    requires size == Blocks(|categories|, |cells|)
    ensures |TableKeys(times, categories, cells)| == Blocks(|times|, size)
    decreases |times|
  {
    if times == [] {
    } else {
      TableKeysSize(times[..|times| - 1], categories, cells, size);
      CategoryKeysSize(times[|times| - 1], categories, cells);
    }
  }

  lemma At<T>(whole: seq<T>, front: seq<T>, back: seq<T>, i: nat)
    requires whole == front + back && i < |whole|
    ensures i < |front| ==> whole[i] == front[i]
    ensures i >= |front| ==> whole[i] == back[i - |front|]
  {
  }

  lemma {:induction false} TableKeysAt(
    times: seq<int>, categories: seq<Category>, cells: seq<Cell>, a: nat, size: nat, j: nat)
    requires a < |times| && size == Blocks(|categories|, |cells|)
    requires j < |CategoryKeys(times[a], categories, cells)|
    ensures Blocks(a, size) + j < |TableKeys(times, categories, cells)|
    ensures TableKeys(times, categories, cells)[Blocks(a, size) + j] == CategoryKeys(times[a], categories, cells)[j]
    decreases |times|
  {
    var n := |times| - 1;
    var front, back := TableKeys(times[..n], categories, cells), CategoryKeys(times[n], categories, cells);
    if a < n {
      TableKeysAt(times[..n], categories, cells, a, size, j);
    } else {
      TableKeysSize(times[..n], categories, cells, size);
    }
    At(TableKeys(times, categories, cells), front, back, Blocks(a, size) + j);
  }

  lemma {:induction false} StartAt(interval: int, t: int, end: int, a: nat)
    requires interval > 0
    ensures a < |Starts(interval, t, end)| <==> t + Blocks(a, interval) < end
    ensures t + Blocks(a, interval) < end ==> Starts(interval, t, end)[a] == t + Blocks(a, interval)
    decreases a
  {
    if a == 0 || end <= t {
    } else {
      StartAt(interval, t + interval, end, a - 1);
    }
  }

  lemma {:induction false} KeysInOrder(
    times: seq<int>, categories: seq<Category>, cells: seq<Cell>, a: nat, b: nat, c: nat, i: nat)
    requires a < |times| && b < |categories| && c < |cells|
    requires i == Blocks(a, Blocks(|categories|, |cells|)) + (Blocks(b, |cells|) + c)
    ensures i < |TableKeys(times, categories, cells)|
    ensures TableKeys(times, categories, cells)[i] == RowKey(times[a], categories[b], cells[c])
  {
    CategoryKeysAt(times[a], categories, cells, b, c);
    TableKeysAt(times, categories, cells, a, Blocks(|categories|, |cells|), Blocks(b, |cells|) + c);
  }

  /**
    Row by row: interval after interval, in it category after category, in it
    cell after cell.
  */
  lemma RowsInOrder(config: Config, events: seq<Event>, a: nat, b: nat, c: nat, t: int, i: nat)
    requires Build(config, events).Ok? && b < |config.categories| && c < |config.cells|
    requires t == config.start.Floor + a * config.interval && t as real < config.end
    requires i == a * (|config.categories| * |config.cells|) + b * |config.cells| + c
    ensures var rows := Build(config, events).value;
            i < |rows| && rows[i].key == RowKey(t, config.categories[b], config.cells[c])
  {
    BlocksAre(b, |config.cells|);
    BlocksAre(|config.categories|, |config.cells|);
    BlocksAre(a, |config.categories| * |config.cells|);
    BlocksAre(a, config.interval);
    AlignedTimes(config);
    StartAt(config.interval, config.start.Floor, config.end.Floor, a);
    KeysInOrder(Starts(config.interval, config.start.Floor, config.end.Floor), config.categories, config.cells,
                a, b, c, i);
  }

  // ---------- labels are conserved ----------

  function SumLabels(rows: seq<Row>): nat {
    if rows == [] then 0 else SumLabels(rows[..|rows| - 1]) + rows[|rows| - 1].eventCount
  }

  /** How many events have their bucket in [start, end). */
  function InRange(config: Config, events: seq<Event>): nat
    requires config.interval > 0
  {
    if events == [] then 0
    else
      InRange(config, events[..|events| - 1])
      + (if config.start <= KeyOf(config, events[|events| - 1]).bucket as real < config.end then 1 else 0)
  }

  /** The positions of the events of the domain that occurred in an interval of the table. */
  ghost function Labeled(config: Config, events: seq<Event>): set<nat>
    requires config.interval > 0
  {
    Positions(events, (e: Event) =>
      && e.cell in config.cells && e.category in config.categories
      && config.start <= FloorInterval(e.occurredAt, config.interval) as real < config.end)
  }

  /** Its event is counted when it is of the domain and its interval is one of the table. */
  predicate Counted(config: Config, event: Event)
    requires config.interval > 0
  {
    InDomain(config, event) && config.start <= KeyOf(config, event).bucket as real < config.end
  }

  lemma LabeledOneMore(config: Config, events: seq<Event>)
    requires config.interval > 0 && events != []
    ensures |Labeled(config, events)|
         == |Labeled(config, events[..|events| - 1])|
            + if Counted(config, events[|events| - 1]) then 1 else 0
  {
    OnePosition(events, (e: Event) =>
      && e.cell in config.cells && e.category in config.categories
      && config.start <= FloorInterval(e.occurredAt, config.interval) as real < config.end);
  }

  lemma {:induction false} RangeLabeled(config: Config, events: seq<Event>)
    requires config.interval > 0
    ensures InRange(config, Prepared(config, events)) == |Labeled(config, events)|
    decreases |events|
  {
    if events == [] {
    } else {
      RangeLabeled(config, events[..|events| - 1]);
      LabeledOneMore(config, events);
    }
  }

  function SumCounts(config: Config, events: seq<Event>, keys: seq<RowKey>): nat
    requires config.interval > 0
  {
    if keys == [] then 0
    else
      SumCounts(config, events, keys[..|keys| - 1])
      + Count(config, events, CountKeyOf(keys[|keys| - 1]))
  }

  lemma {:induction false} SumLabelsIs(config: Config, events: seq<Event>, keys: seq<RowKey>)
    requires config.interval > 0
    ensures SumLabels(RowsOf(config, events, keys)) == SumCounts(config, events, keys)
    decreases |keys|
  {
    if keys == [] {
    } else {
      var n := |keys| - 1;
      assert RowsOf(config, events, keys)[..n] == RowsOf(config, events, keys[..n]);
      SumLabelsIs(config, events, keys[..n]);
    }
  }

  function RowKeyOf(k: CountKey): RowKey {
    RowKey(k.bucket, k.category, k.cell)
  }

  /** One more event raises the sum by one when its key is in the table. */
  lemma {:induction false} SumCountsAdd(config: Config, events: seq<Event>, event: Event, keys: seq<RowKey>)
    requires config.interval > 0 && Distinct(keys)
    ensures SumCounts(config, events + [event], keys)
         == SumCounts(config, events, keys) + (if RowKeyOf(KeyOf(config, event)) in keys then 1 else 0)
    decreases |keys|
  {
    if keys == [] {
    } else {
      var n := |keys| - 1;
      SumCountsAdd(config, events, event, keys[..n]);
      CountAppend(config, events, event, CountKeyOf(keys[n]));
      assert keys == keys[..n] + [keys[n]];
      assert keys[n] !in keys[..n];
      assert KeyOf(config, event) == CountKeyOf(keys[n]) <==> RowKeyOf(KeyOf(config, event)) == keys[n];
    }
  }

  lemma {:induction false} SumCountsNone(config: Config, keys: seq<RowKey>)
    requires config.interval > 0
    ensures SumCounts(config, [], keys) == 0
    decreases |keys|
  {
    if keys == [] {
    } else {
      SumCountsNone(config, keys[..|keys| - 1]);
    }
  }

  /** The keys of prepared events are in the table exactly when their bucket is in range. */
  lemma {:induction false} SumIsRange(config: Config, events: seq<Event>)
    requires config.Valid() && Aligned(config) && Distinct(KeysOf(config))
    requires forall i :: 0 <= i < |events| ==> InDomain(config, events[i])
    ensures SumCounts(config, events, KeysOf(config)) == InRange(config, events)
    decreases |events|
  {
    if events == [] {
      SumCountsNone(config, KeysOf(config));
    } else {
      var n := |events| - 1;
      var k := KeyOf(config, events[n]);
      SumIsRange(config, events[..n]);
      assert events == events[..n] + [events[n]];
      SumCountsAdd(config, events[..n], events[n], KeysOf(config));
      AlignedTimes(config);
      TableKeysAre(Starts(config.interval, config.start.Floor, config.end.Floor), config.categories, config.cells,
                   RowKeyOf(k));
      StartsAre(config.interval, config.start.Floor, config.end.Floor, k.bucket);
    }
  }

  lemma {:induction false} PreparedInDomain(config: Config, events: seq<Event>)
    ensures forall i :: 0 <= i < |Prepared(config, events)| ==> InDomain(config, Prepared(config, events)[i])
    decreases |events|
  {
    if events == [] {
    } else {
      PreparedInDomain(config, events[..|events| - 1]);
    }
  }

  /**
    Labels are conserved: over the whole table they add up to the number of
    in-domain events whose bucket lies in the table's range.
  */
  lemma LabelsConserved(config: Config, events: seq<Event>)
    requires Build(config, events).Ok? && Distinct(config.categories) && Distinct(config.cells)
    ensures SumLabels(Build(config, events).value) == |Labeled(config, events)|
  {
    RangeLabeled(config, events);
    var times := Starts(config.interval, config.start.Floor, config.end.Floor);
    StartsDistinct(config.interval, config.start.Floor, config.end.Floor);
    TableKeysDistinct(times, config.categories, config.cells);
    SumLabelsIs(config, Prepared(config, events), KeysOf(config));
    PreparedInDomain(config, events);
    SumIsRange(config, Prepared(config, events));
  }
}
