/** Chronological splitting and rolling-origin folds (src/models/split.py). */
module Split {
  import opened Wrappers

  type Features(==, !new, 0)

  datatype Row = Row(start: int, features: Features)

  datatype Boundaries = Boundaries(trainEnd: int, validationEnd: int)

  datatype Config = Config(
    minimum: nat, trainFraction: real, validationFraction: real, rollingOrigins: nat, explicit: Option<Boundaries>)
  {
    /** What a configuration is checked for before it is used. */
    predicate Valid() {
      && 1 <= minimum
      && 0.0 < trainFraction < 1.0 && 0.0 < validationFraction < 1.0
      && trainFraction + validationFraction < 1.0
      && 1 <= rollingOrigins
      && (explicit.Some? ==> explicit.value.trainEnd < explicit.value.validationEnd)
    }
  }

  datatype SplitError = TooFewIntervals | UndersizedBlock | FractionsTooLarge

  // ---------- interval times ----------

  predicate Increasing(times: seq<int>) {
    forall i, j :: 0 <= i < j < |times| ==> times[i] < times[j]
  }

  function InsertTime(times: seq<int>, t: int): (r: seq<int>)
    requires Increasing(times)
    ensures Increasing(r) && r != []
    ensures r[|r| - 1] == if times == [] || times[|times| - 1] < t then t else times[|times| - 1]
  {
    if times == [] || times[|times| - 1] < t then times + [t]
    else
      var n := |times| - 1;
      if times[n] == t then times else InsertTime(times[..n], t) + [times[n]]
  }

  lemma {:induction false} InsertHas(times: seq<int>, t: int, u: int)
    requires Increasing(times)
    ensures u in InsertTime(times, t) <==> u in times || u == t
    decreases |times|
  {
    if times == [] || times[|times| - 1] <= t {
    } else {
      var n := |times| - 1;
      InsertHas(times[..n], t, u);
      assert u in times <==> u in times[..n] || u == times[n];
    }
  }

  /** The distinct interval starts of the rows, in order. */
  function Times(rows: seq<Row>): (r: seq<int>)
    ensures Increasing(r)
  {
    if rows == [] then [] else InsertTime(Times(rows[..|rows| - 1]), rows[|rows| - 1].start)
  }

  ghost predicate HasTime(rows: seq<Row>, t: int) {
    exists row :: row in rows && row.start == t
  }

  lemma {:induction false} TimesAre(rows: seq<Row>, t: int)
    ensures t in Times(rows) <==> HasTime(rows, t)
    decreases |rows|
  {
    if rows == [] {
    } else {
      var n := |rows| - 1;
      TimesAre(rows[..n], t);
      InsertHas(Times(rows[..n]), rows[n].start, t);
      assert forall row :: row in rows <==> row in rows[..n] || row == rows[n];
    }
  }

  /** Increasing sequences with the same elements are the same. */
  lemma {:induction false} SameTimes(a: seq<int>, b: seq<int>)
    requires Increasing(a) && Increasing(b) && forall t :: t in a <==> t in b
    ensures a == b
    decreases |a|
  {
    FirstIsIn(a);
    FirstIsIn(b);
    if a == [] || b == [] {
    } else {
      var m, n := |a| - 1, |b| - 1;
      LastIsLargest(a, b[n]);
      LastIsLargest(b, a[m]);
      assert a[m] == b[n];
      DropLast(a);
      DropLast(b);
      forall t ensures t in a[..m] <==> t in b[..n] {
        assert t in a <==> t in b;
      }
      SameTimes(a[..m], b[..n]);
    }
  }

  lemma FirstIsIn(a: seq<int>)
    ensures a != [] ==> a[0] in a
  {
  }

  lemma LastIsLargest(a: seq<int>, t: int)
    requires a != [] && Increasing(a)
    ensures a[|a| - 1] in a && (t in a ==> t <= a[|a| - 1])
  {
  }

  lemma DropLast(a: seq<int>)
    requires a != [] && Increasing(a)
    ensures forall t :: t in a[..|a| - 1] <==> t in a && t != a[|a| - 1]
  {
    var n := |a| - 1;
    assert a == a[..n] + [a[n]];
    forall t | t in a[..n] ensures t != a[n] {
      var i :| 0 <= i < n && a[..n][i] == t;
    }
  }

  /** The rows whose interval is among the given times, in their order. */
  function Where(rows: seq<Row>, times: seq<int>): seq<Row> {
    if rows == [] then []
    else
      var n := |rows| - 1;
      if rows[n].start in times then Where(rows[..n], times) + [rows[n]] else Where(rows[..n], times)
  }

  lemma {:induction false} WhereAre(rows: seq<Row>, times: seq<int>)
    ensures forall row :: row in Where(rows, times) <==> row in rows && row.start in times
    decreases |rows|
  {
    if rows == [] {
    } else {
      var n := |rows| - 1;
      WhereAre(rows[..n], times);
      assert forall row :: row in rows <==> row in rows[..n] || row == rows[n];
    }
  }

  lemma {:induction false} WhereConcat(a: seq<Row>, b: seq<Row>, times: seq<int>)
    ensures Where(a + b, times) == Where(a, times) + Where(b, times)
    decreases |b|
  {
    if b == [] {
      assert a + b == a;
    } else {
      var n := |b| - 1;
      assert (a + b)[..|a + b| - 1] == a + b[..n];
      WhereConcat(a, b[..n], times);
    }
  }

  lemma {:induction false} WhereAll(rows: seq<Row>, times: seq<int>)
    requires forall row :: row in rows ==> row.start in times
    ensures Where(rows, times) == rows
    decreases |rows|
  {
    if rows == [] {
    } else {
      var n := |rows| - 1;
      assert rows == rows[..n] + [rows[n]];
      assert rows[n] in rows;
      WhereAll(rows[..n], times);
    }
  }

  lemma {:induction false} WhereNone(rows: seq<Row>, times: seq<int>)
    requires forall row :: row in rows ==> row.start !in times
    ensures Where(rows, times) == []
    decreases |rows|
  {
    if rows == [] {
    } else {
      var n := |rows| - 1;
      assert rows == rows[..n] + [rows[n]];
      assert rows[n] in rows;
      WhereNone(rows[..n], times);
    }
  }

  // ---------- the split ----------

  /** How many of the leading times do not exceed the boundary. */
  function CutAt(times: seq<int>, boundary: int): (k: nat)
    requires Increasing(times)
    ensures k <= |times|
    ensures forall i :: 0 <= i < k ==> times[i] <= boundary
    ensures forall i :: k <= i < |times| ==> times[i] > boundary
  {
    if times == [] then 0
    else if times[|times| - 1] <= boundary then |times|
    else CutAt(times[..|times| - 1], boundary)
  }

  function Largest(a: int, b: int): int {
    if a < b then b else a
  }

  function Portion(n: nat, fraction: real): int {
    (n as real * fraction).Floor
  }

  /** Where training and validation end among the sorted times. */
  datatype Cuts = Cuts(train: nat, validation: nat)

  function CutTimes(times: seq<int>, config: Config): (r: Result<Cuts, SplitError>)
    requires Increasing(times) && config.Valid()
    ensures r.Ok? ==>
              var c := r.value;
              config.minimum <= c.train && c.train + config.minimum <= c.validation
              && c.validation + config.minimum <= |times|
  {
    var n, m := |times|, config.minimum;
    if n < m * 3 then Err(TooFewIntervals)
    else
      match config.explicit
      case Some(boundaries) =>
        var c := Cuts(CutAt(times, boundaries.trainEnd), CutAt(times, boundaries.validationEnd));
        if c.train < m || c.validation - c.train < m || n - c.validation < m then Err(UndersizedBlock) else Ok(c)
      case None =>
        var train := Largest(m, Portion(n, config.trainFraction));
        var wanted := Largest(m, Portion(n, config.validationFraction));
        var validation := if train + wanted > n - m then n - m - train else wanted;
        if validation < m then Err(FractionsTooLarge) else Ok(Cuts(train, train + validation))
  }

  /** k is what the whole part of a share of n comes to, or the minimum if that is more. */
  predicate Share(k: int, n: nat, fraction: real, minimum: nat) {
    && k >= minimum && n as real * fraction < (k + 1) as real
    && (k > minimum ==> k as real <= n as real * fraction)
  }

  /**
    By fractions: training takes its share of the intervals; validation takes
    its own as far as the minimum left to the test block allows.
  */
  lemma FractionCuts(times: seq<int>, config: Config)
    requires Increasing(times) && config.Valid() && config.explicit.None?
    ensures var n, m := |times|, config.minimum;
            exists train, wanted :: Share(train, n, config.trainFraction, m)
              && Share(wanted, n, config.validationFraction, m)
              && CutTimes(times, config)
                 == if n < 3 * m then Err(TooFewIntervals)
                    else if n - train < 2 * m then Err(FractionsTooLarge)
                    else Ok(Cuts(train, if train + wanted + m <= n then train + wanted else n - m))
  {
    var train := Largest(config.minimum, Portion(|times|, config.trainFraction));
    var wanted := Largest(config.minimum, Portion(|times|, config.validationFraction));
    assert Share(train, |times|, config.trainFraction, config.minimum);
    assert Share(wanted, |times|, config.validationFraction, config.minimum);
  }

  /** The first k times are those up to and including the boundary. */
  predicate Ends(times: seq<int>, k: nat, boundary: int) {
    k <= |times| && forall i :: 0 <= i < |times| ==> (i < k <==> times[i] <= boundary)
  }

  /** By boundaries: each block ends with its boundary, and none may fall short of the minimum. */
  lemma ExplicitCuts(times: seq<int>, config: Config)
    requires Increasing(times) && config.Valid() && config.explicit.Some?
    ensures var n, m := |times|, config.minimum;
            exists train: nat, validation: nat ::
              && Ends(times, train, config.explicit.value.trainEnd)
              && Ends(times, validation, config.explicit.value.validationEnd)
              && CutTimes(times, config)
                 == if n < 3 * m then Err(TooFewIntervals)
                    else if train < m || validation - train < m || n - validation < m then Err(UndersizedBlock)
                    else Ok(Cuts(train, validation))
  {
    assert Ends(times, CutAt(times, config.explicit.value.trainEnd), config.explicit.value.trainEnd);
    assert Ends(times, CutAt(times, config.explicit.value.validationEnd), config.explicit.value.validationEnd);
  }

  datatype Block = Block(rows: seq<Row>, times: seq<int>)
  {
    function Start(): int
      requires times != []
    {
      times[0]
    }

    function End(): int
      requires times != []
    {
      times[|times| - 1]
    }
  }

  datatype ChronologicalSplit = ChronologicalSplit(train: Block, validation: Block, test: Block)

  function BlockOf(rows: seq<Row>, times: seq<int>): Block {
    Block(Where(rows, times), times)
  }

  /** Three consecutive stretches of the rows' times. */
  function ThreeBlocks(rows: seq<Row>, i: nat, j: nat): ChronologicalSplit
    requires i <= j <= |Times(rows)|
  {
    var times := Times(rows);
    ChronologicalSplit(BlockOf(rows, times[..i]), BlockOf(rows, times[i..j]), BlockOf(rows, times[j..]))
  }

  function SplitRows(rows: seq<Row>, config: Config): Result<ChronologicalSplit, SplitError>
    requires config.Valid()
  {
    var times := Times(rows);
    match CutTimes(times, config)
    case Err(e) => Err(e)
    case Ok(c) =>
      Ok(ThreeBlocks(rows, c.train, c.validation))
  }

  /** Every one of the first rows is before every one of the second. */
  predicate Earlier(a: seq<Row>, b: seq<Row>) {
    forall r, s :: r in a && s in b ==> r.start < s.start
  }

  predicate Precedes(a: Block, b: Block) {
    Earlier(a.rows, b.rows)
  }

  /** The block's times are exactly those of its rows, and there are enough of them. */
  ghost predicate Filled(block: Block, minimum: nat) {
    && Increasing(block.times) && minimum <= |block.times|
    && block.times == Times(block.rows)
  }

  lemma {:induction false} BlockFilled(rows: seq<Row>, lo: nat, hi: nat)
    requires lo <= hi <= |Times(rows)|
    ensures Filled(BlockOf(rows, Times(rows)[lo..hi]), hi - lo)
  {
    var times := Times(rows)[lo..hi];
    WhereAre(rows, times);
    forall t ensures t in times <==> t in Times(Where(rows, times)) {
      TimesAre(rows, t);
      TimesAre(Where(rows, times), t);
      assert t in times ==> t in Times(rows);
    }
    SameTimes(times, Times(Where(rows, times)));
  }

  lemma {:induction false} BlocksPrecede(rows: seq<Row>, a: seq<int>, b: seq<int>)
    requires forall i, j :: 0 <= i < |a| && 0 <= j < |b| ==> a[i] < b[j]
    ensures Precedes(BlockOf(rows, a), BlockOf(rows, b))
  {
    WhereAre(rows, a);
    WhereAre(rows, b);
  }

  lemma {:induction false} ThreeFilled(rows: seq<Row>, i: nat, j: nat)
    requires i <= j <= |Times(rows)|
    ensures var s := ThreeBlocks(rows, i, j);
            && Filled(s.train, i) && Filled(s.validation, j - i) && Filled(s.test, |Times(rows)| - j)
            && s.train.times + s.validation.times + s.test.times == Times(rows)
  {
    var times := Times(rows);
    Stretches(times, i, j);
    BlockFilled(rows, 0, i);
    BlockFilled(rows, i, j);
    BlockFilled(rows, j, |times|);
  }

  lemma Stretches(times: seq<int>, i: nat, j: nat)
    requires i <= j <= |times|
    ensures times[0..i] == times[..i] && times[j..|times|] == times[j..]
    ensures times[..i] + times[i..j] + times[j..] == times
  {
  }

  lemma {:induction false} StretchesPrecede(rows: seq<Row>, i: nat, j: nat)
    requires i <= j <= |Times(rows)|
    ensures var s := ThreeBlocks(rows, i, j);
            Precedes(s.train, s.validation) && Precedes(s.validation, s.test) && Precedes(s.train, s.test)
  {
    var times := Times(rows);
    BlocksPrecede(rows, times[..i], times[i..j]);
    BlocksPrecede(rows, times[i..j], times[j..]);
    BlocksPrecede(rows, times[..i], times[j..]);
  }

  lemma {:induction false} ThreePlaced(rows: seq<Row>, i: nat, j: nat)
    requires i <= j <= |Times(rows)|
    ensures var s := ThreeBlocks(rows, i, j);
            forall row :: row in rows <==> row in s.train.rows || row in s.validation.rows || row in s.test.rows
  {
    var times := Times(rows);
    Stretches(times, i, j);
    EveryRowPlaced(rows, times[..i], times[i..j], times[j..]);
  }

  /** Every time lies in exactly one of three lists. */
  predicate InOne(a: seq<int>, b: seq<int>, c: seq<int>, t: int) {
    && (t in a || t in b || t in c)
    && !(t in a && t in b) && !(t in a && t in c) && !(t in b && t in c)
  }

  /** Filtering by three lists that share no time deals the rows out: none is lost and none is doubled. */
  lemma {:induction false} DealtOut(rows: seq<Row>, a: seq<int>, b: seq<int>, c: seq<int>)
    requires forall row :: row in rows ==> InOne(a, b, c, row.start)
    ensures multiset(rows) == multiset(Where(rows, a)) + multiset(Where(rows, b)) + multiset(Where(rows, c))
    decreases |rows|
  {
    if rows == [] {
    } else {
      var n := |rows| - 1;
      assert rows == rows[..n] + [rows[n]];
      assert InOne(a, b, c, rows[n].start);
      DealtOut(rows[..n], a, b, c);
    }
  }

  lemma {:induction false} ThreeDealt(rows: seq<Row>, i: nat, j: nat)
    requires i <= j <= |Times(rows)|
    ensures var s := ThreeBlocks(rows, i, j);
            multiset(rows) == multiset(s.train.rows) + multiset(s.validation.rows) + multiset(s.test.rows)
  {
    var times := Times(rows);
    Stretches(times, i, j);
    SlicesApart(times, i, j);
    forall row | row in rows ensures InOne(times[..i], times[i..j], times[j..], row.start) {
      TimesAre(rows, row.start);
      assert row.start in times[..i] + times[i..j] + times[j..];
    }
    DealtOut(rows, times[..i], times[i..j], times[j..]);
  }

  /** The blocks span stretches of time that follow one another. */
  lemma {:induction false} ThreeSpans(rows: seq<Row>, i: nat, j: nat)
    requires 0 < i < j < |Times(rows)|
    ensures var s := ThreeBlocks(rows, i, j);
            && s.train.Start() <= s.train.End() < s.validation.Start()
            && s.validation.Start() <= s.validation.End() < s.test.Start() <= s.test.End()
  {
    var times := Times(rows);
    assert times[..i][0] == times[0] && times[..i][i - 1] == times[i - 1];
    assert times[i..j][0] == times[i] && times[i..j][j - i - 1] == times[j - 1];
    assert times[j..][0] == times[j] && times[j..][|times| - j - 1] == times[|times| - 1];
  }

  /**
    Chronological isolation: a successful split deals every row, as often as it
    occurs, to one block; the blocks follow one another in time, and none is
    undersized.
  */
  lemma {:induction false} SplitIsolates(rows: seq<Row>, config: Config)
    requires config.Valid() && SplitRows(rows, config).Ok?
    ensures var s := SplitRows(rows, config).value;
            && Filled(s.train, config.minimum) && Filled(s.validation, config.minimum)
            && Filled(s.test, config.minimum)
            && Precedes(s.train, s.validation) && Precedes(s.validation, s.test) && Precedes(s.train, s.test)
            && s.train.times + s.validation.times + s.test.times == Times(rows)
            && s.train.Start() <= s.train.End() < s.validation.Start()
            && s.validation.Start() <= s.validation.End() < s.test.Start() <= s.test.End()
            && multiset(rows) == multiset(s.train.rows) + multiset(s.validation.rows) + multiset(s.test.rows)
  {
    var c := CutTimes(Times(rows), config).value;
    ThreeFilled(rows, c.train, c.validation);
    StretchesPrecede(rows, c.train, c.validation);
    ThreeSpans(rows, c.train, c.validation);
    ThreeDealt(rows, c.train, c.validation);
  }

  lemma {:induction false} EveryRowPlaced(rows: seq<Row>, a: seq<int>, b: seq<int>, c: seq<int>)
    requires Times(rows) == a + b + c
    ensures forall row :: row in rows <==>
              row in Where(rows, a) || row in Where(rows, b) || row in Where(rows, c)
  {
    WhereAre(rows, a);
    WhereAre(rows, b);
    WhereAre(rows, c);
    forall row | row in rows ensures row.start in a || row.start in b || row.start in c {
      TimesAre(rows, row.start);
      assert row.start in a + b + c;
    }
  }

  /** Sequences of the same rows, in whatever order, have the same times. */
  lemma {:induction false} TimesOfSame(rows: seq<Row>, rows': seq<Row>)
    requires forall row :: row in rows <==> row in rows'
    ensures Times(rows) == Times(rows')
  {
    forall t ensures t in Times(rows) <==> t in Times(rows') {
      TimesAre(rows, t);
      TimesAre(rows', t);
    }
    SameTimes(Times(rows), Times(rows'));
  }

  /** Filtering three blocks that do not share times gives the one block back. */
  lemma {:induction false} WhereOfThree(
    rows: seq<Row>, a: seq<int>, b: seq<int>, c: seq<int>, own: seq<int>)
    requires forall t :: t in a ==> t !in b && t !in c
    requires forall t :: t in b ==> t !in c
    requires own == a || own == b || own == c
    ensures Where(Where(rows, a) + Where(rows, b) + Where(rows, c), own) == Where(rows, own)
  {
    WhereConcat(Where(rows, a) + Where(rows, b), Where(rows, c), own);
    WhereConcat(Where(rows, a), Where(rows, b), own);
    WhereAre(rows, a);
    WhereAre(rows, b);
    WhereAre(rows, c);
    if own == a {
      WhereAll(Where(rows, a), own);
    } else {
      WhereNone(Where(rows, a), own);
    }
    if own == b {
      WhereAll(Where(rows, b), own);
    } else {
      WhereNone(Where(rows, b), own);
    }
    if own == c {
      WhereAll(Where(rows, c), own);
    } else {
      WhereNone(Where(rows, c), own);
    }
  }

  /** Different stretches share no time. */
  lemma SlicesApart(times: seq<int>, i: nat, j: nat)
    requires Increasing(times) && i <= j <= |times|
    ensures forall t :: t in times[..i] ==> t !in times[i..j] && t !in times[j..]
    ensures forall t :: t in times[i..j] ==> t !in times[j..]
  {
  }

  lemma {:induction false} ThreeTimes(rows: seq<Row>, i: nat, j: nat)
    requires i <= j <= |Times(rows)|
    ensures var s := ThreeBlocks(rows, i, j);
            Times(s.train.rows + s.validation.rows + s.test.rows) == Times(rows)
  {
    ThreePlaced(rows, i, j);
    var s := ThreeBlocks(rows, i, j);
    TimesOfSame(rows, s.train.rows + s.validation.rows + s.test.rows);
  }

  lemma {:induction false} ThreeAgain(rows: seq<Row>, i: nat, j: nat)
    requires i <= j <= |Times(rows)|
    ensures var s := ThreeBlocks(rows, i, j);
            var rows' := s.train.rows + s.validation.rows + s.test.rows;
            Times(rows') == Times(rows) && ThreeBlocks(rows', i, j) == s
  {
    var times := Times(rows);
    var a, b, c := times[..i], times[i..j], times[j..];
    ThreeTimes(rows, i, j);
    SlicesApart(times, i, j);
    WhereOfThree(rows, a, b, c, a);
    WhereOfThree(rows, a, b, c, b);
    WhereOfThree(rows, a, b, c, c);
  }

  /** Splitting the three blocks put together again gives the same split. */
  lemma {:induction false} SplitAgain(rows: seq<Row>, config: Config)
    requires config.Valid() && SplitRows(rows, config).Ok?
    ensures var s := SplitRows(rows, config).value;
            SplitRows(s.train.rows + s.validation.rows + s.test.rows, config) == Ok(s)
  {
    var c := CutTimes(Times(rows), config).value;
    ThreeAgain(rows, c.train, c.validation);
  }

  /** No explicit cut leaves anything behind a boundary that no time exceeds. */
  lemma NothingBehind(times: seq<int>, config: Config)
    requires config.Valid() && config.explicit.Some? && Increasing(times)
    requires forall i :: 0 <= i < |times| ==> times[i] <= config.explicit.value.validationEnd
    ensures CutTimes(times, config).Err?
  {
    assert CutAt(times, config.explicit.value.validationEnd) == |times|;
  }

  /**
    With explicit boundaries the training and validation blocks alone can never
    be split again: nothing lies after the validation boundary.
  */
  lemma {:induction false} ExplicitResplitFails(rows: seq<Row>, config: Config)
    requires config.Valid() && config.explicit.Some? && SplitRows(rows, config).Ok?
    ensures var s := SplitRows(rows, config).value;
            SplitRows(s.train.rows + s.validation.rows, config).Err?
  {
    EligibleTimes(rows, config);
    var s := SplitRows(rows, config).value;
    NothingBehind(s.train.times + s.validation.times, config);
  }

  /** Whether the fractions cut these many times into three blocks of the minimum size. */
  lemma FractionsFit(times: seq<int>, config: Config)
    requires config.Valid() && config.explicit.None? && Increasing(times)
    ensures CutTimes(times, config).Ok?
       <==> && |times| >= 3 * config.minimum
            && Largest(config.minimum, Portion(|times|, config.trainFraction)) <= |times| - 2 * config.minimum
  {
  }

  lemma FractionsResplit(s: ChronologicalSplit, config: Config)
    requires config.Valid() && config.explicit.None? && Increasing(s.train.times + s.validation.times)
    requires Times(s.train.rows + s.validation.rows) == s.train.times + s.validation.times
    ensures var n := |s.train.times| + |s.validation.times|;
            SplitRows(s.train.rows + s.validation.rows, config).Ok?
            <==> && n >= 3 * config.minimum
                 && Largest(config.minimum, Portion(n, config.trainFraction)) <= n - 2 * config.minimum
  {
    FractionsFit(s.train.times + s.validation.times, config);
  }

  /**
    Exactly when the training and validation blocks can be split again: the
    boundaries come from the fractions, and the times left are enough for three
    blocks with the training fraction's share in the first.
  */
  lemma {:induction false} ResplitExactly(rows: seq<Row>, config: Config)
    requires config.Valid() && SplitRows(rows, config).Ok?
    ensures var s := SplitRows(rows, config).value;
            var n := |s.train.times| + |s.validation.times|;
            SplitRows(s.train.rows + s.validation.rows, config).Ok?
            <==> && config.explicit.None?
                 && n >= 3 * config.minimum
                 && Largest(config.minimum, Portion(n, config.trainFraction)) <= n - 2 * config.minimum
  {
    if config.explicit.Some? {
      ExplicitResplitFails(rows, config);
    } else {
      EligibleTimes(rows, config);
      FractionsResplit(SplitRows(rows, config).value, config);
    }
  }

  // ---------- rolling origins ----------

  datatype Fold = Fold(train: seq<Row>, validation: seq<Row>, start: int, end: int)

  function Width(n: nat, config: Config): int {
    Largest(config.minimum, n / (config.rollingOrigins + 2))
  }

  /** Where the validation window of an origin ends; origin 1 is the last. */
  function WindowEnd(n: nat, config: Config, origin: nat): int {
    n - (origin - 1) * Width(n, config)
  }

  predicate Usable(n: nat, config: Config, origin: nat) {
    WindowEnd(n, config, origin) - Width(n, config) >= config.minimum
  }

  function FoldAt(rows: seq<Row>, times: seq<int>, config: Config, origin: nat): Fold
    requires config.Valid() && 1 <= origin && Usable(|times|, config, origin)
  {
    var end := WindowEnd(|times|, config, origin);
    var start := end - Width(|times|, config);
    EndInside(|times|, config, origin);
    Fold(Where(rows, times[..start]), Where(rows, times[start..end]), start, end)
  }

  lemma EndInside(n: nat, config: Config, origin: nat)
    requires config.Valid() && 1 <= origin && Usable(n, config, origin)
    ensures 0 < WindowEnd(n, config, origin) - Width(n, config) < WindowEnd(n, config, origin) <= n
  {
    assert (origin - 1) * Width(n, config) >= 0;
  }

  /** The folds of origins `from`, `from - 1`, ..., 1 that have enough training times. */
  function FoldsFrom(rows: seq<Row>, times: seq<int>, config: Config, from: nat): seq<Fold>
    requires config.Valid()
  {
    if from == 0 then []
    else if Usable(|times|, config, from) then
      [FoldAt(rows, times, config, from)] + FoldsFrom(rows, times, config, from - 1)
    else FoldsFrom(rows, times, config, from - 1)
  }

  method RollingOriginFolds(rows: seq<Row>, config: Config) returns (result: Result<seq<Fold>, SplitError>)
    requires config.Valid()
    ensures SplitRows(rows, config).Err? ==> result == Err(SplitRows(rows, config).error)
    ensures SplitRows(rows, config).Ok? ==>
              var base := SplitRows(rows, config).value;
              var eligible := base.train.rows + base.validation.rows;
              result == Ok(FoldsFrom(eligible, Times(eligible), config, config.rollingOrigins))
  {
    var split := SplitRows(rows, config);
    if split.Err? {
      return Err(split.error);
    }
    var eligible := split.value.train.rows + split.value.validation.rows;
    var folds := FoldsOf(eligible, Times(eligible), config);
    result := Ok(folds);
  }

  method FoldsOf(eligible: seq<Row>, times: seq<int>, config: Config) returns (folds: seq<Fold>)
    requires config.Valid()
    ensures folds == FoldsFrom(eligible, times, config, config.rollingOrigins)
  {
    var width := Width(|times|, config);
    folds := [];
    var origin: nat := config.rollingOrigins;
    while origin > 0
      invariant folds + FoldsFrom(eligible, times, config, origin)
             == FoldsFrom(eligible, times, config, config.rollingOrigins)
    {
      var end := |times| - (origin - 1) * width;
      var start := end - width;
      assert end == WindowEnd(|times|, config, origin);
      if start >= config.minimum {
        EndInside(|times|, config, origin);
        folds := folds + [Fold(Where(eligible, times[..start]), Where(eligible, times[start..end]), start, end)];
      }
      origin := origin - 1;
    }
  }

  /** Windows follow one another without a gap, and the last one ends at the last time. */
  ghost predicate Adjacent(folds: seq<Fold>, width: int, end: int) {
    && (forall i :: 0 <= i < |folds| ==> folds[i].end - folds[i].start == width)
    && (forall i :: 0 <= i < |folds| - 1 ==> folds[i].end == folds[i + 1].start)
    && (folds != [] ==> folds[|folds| - 1].end == end)
  }

  ghost predicate FoldOk(rows: seq<Row>, times: seq<int>, config: Config, fold: Fold) {
    && config.minimum <= fold.start < fold.end <= |times|
    && fold.train == Where(rows, times[..fold.start])
    && fold.validation == Where(rows, times[fold.start..fold.end])
  }

  lemma NextUsable(n: nat, config: Config, origin: nat)
    requires config.Valid() && 2 <= origin && Usable(n, config, origin)
    ensures Usable(n, config, origin - 1)
    ensures WindowEnd(n, config, origin) == WindowEnd(n, config, origin - 1) - Width(n, config)
  {
    assert (origin - 1) * Width(n, config) == (origin - 2) * Width(n, config) + Width(n, config);
  }

  lemma AdjacentCons(fold: Fold, rest: seq<Fold>, width: int, end: int)
    requires Adjacent(rest, width, end) && fold.end - fold.start == width
    requires if rest == [] then fold.end == end else fold.end == rest[0].start
    ensures Adjacent([fold] + rest, width, end)
  {
    var folds := [fold] + rest;
    forall i | 0 <= i < |folds| - 1 ensures folds[i].end == folds[i + 1].start {
      if i > 0 {
        assert rest[i - 1].end == rest[i].start;
      }
    }
  }

  lemma {:induction false} FirstFold(rows: seq<Row>, times: seq<int>, config: Config, from: nat)
    requires config.Valid() && from > 0 && Usable(|times|, config, from)
    ensures FoldsFrom(rows, times, config, from)
         == [FoldAt(rows, times, config, from)] + FoldsFrom(rows, times, config, from - 1)
    ensures FoldOk(rows, times, config, FoldAt(rows, times, config, from))
    ensures FoldAt(rows, times, config, from).end == WindowEnd(|times|, config, from)
    ensures FoldAt(rows, times, config, from).start == WindowEnd(|times|, config, from) - Width(|times|, config)
  {
    EndInside(|times|, config, from);
  }

  lemma {:induction false} UsableBelow(n: nat, config: Config, origin: nat, below: nat)
    requires config.Valid() && 1 <= below <= origin && Usable(n, config, origin)
    ensures Usable(n, config, below)
  {
    if below == origin {
    } else {
      NextUsable(n, config, origin);
      UsableBelow(n, config, origin - 1, below);
    }
  }

  /** The folds are those of the first origins, as many as are usable, from the earliest window to the last. */
  lemma {:induction false} FoldsOfOrigins(rows: seq<Row>, times: seq<int>, config: Config, from: nat)
    requires config.Valid()
    ensures var folds := FoldsFrom(rows, times, config, from);
            && |folds| <= from
            && (|folds| < from ==> !Usable(|times|, config, |folds| + 1))
            && forall j :: 1 <= j <= |folds| ==>
                 Usable(|times|, config, j) && folds[|folds| - j] == FoldAt(rows, times, config, j)
  {
    if from == 0 {
    } else {
      FoldsOfOrigins(rows, times, config, from - 1);
      var rest := FoldsFrom(rows, times, config, from - 1);
      if Usable(|times|, config, from) && |rest| < from - 1 {
        UsableBelow(|times|, config, from, |rest| + 1);
      }
    }
  }

  /** The width of every validation window: an even share of the times, or the minimum if that is more. */
  predicate EvenShare(width: int, n: nat, config: Config) {
    if n / (config.rollingOrigins + 2) < config.minimum then width == config.minimum
    else width == n / (config.rollingOrigins + 2)
  }

  lemma FoldOfOrigin(rows: seq<Row>, times: seq<int>, config: Config, j: nat, fold: Fold)
    requires config.Valid() && 1 <= j <= |FoldsFrom(rows, times, config, config.rollingOrigins)|
    requires var folds := FoldsFrom(rows, times, config, config.rollingOrigins); fold == folds[|folds| - j]
    ensures Usable(|times|, config, j)
    ensures fold.end == WindowEnd(|times|, config, j)
    ensures fold.start == WindowEnd(|times|, config, j) - Width(|times|, config)
  {
    FoldsOfOrigins(rows, times, config, config.rollingOrigins);
    FirstFold(rows, times, config, j);
  }

  lemma UsableExactly(n: nat, config: Config, origin: nat, width: int)
    requires origin >= 1 && EvenShare(width, n, config)
    ensures Usable(n, config, origin) <==> n - origin * width >= config.minimum
  {
    WindowStart(n, config, origin, width);
  }

  /** There are as many folds, up to the number asked for, as leave the minimum to the training rows before them. */
  lemma FoldCount(rows: seq<Row>, times: seq<int>, config: Config, width: int, count: nat)
    requires config.Valid() && EvenShare(width, |times|, config)
    requires count == |FoldsFrom(rows, times, config, config.rollingOrigins)|
    ensures count <= config.rollingOrigins
    ensures count > 0 ==> |times| - count * width >= config.minimum
    ensures count < config.rollingOrigins ==> |times| - (count + 1) * width < config.minimum
  {
    FoldsOfOrigins(rows, times, config, config.rollingOrigins);
    UsableExactly(|times|, config, count + 1, width);
    if count > 0 {
      UsableExactly(|times|, config, count, width);
    }
  }

  /** The window of the j-th last fold is the j-th last stretch of that width. */
  lemma FoldPosition(rows: seq<Row>, times: seq<int>, config: Config, width: int, j: nat, fold: Fold)
    requires config.Valid() && EvenShare(width, |times|, config)
    requires 1 <= j <= |FoldsFrom(rows, times, config, config.rollingOrigins)|
    requires var folds := FoldsFrom(rows, times, config, config.rollingOrigins); fold == folds[|folds| - j]
    ensures fold.end == |times| - (j - 1) * width && fold.start == |times| - j * width
  {
    FoldOfOrigin(rows, times, config, j, fold);
    WindowStart(|times|, config, j, width);
  }

  lemma WindowStart(n: nat, config: Config, origin: nat, width: int)
    requires origin >= 1 && EvenShare(width, n, config)
    ensures width == Width(n, config)
    ensures WindowEnd(n, config, origin) == n - (origin - 1) * width
    ensures WindowEnd(n, config, origin) - width == n - origin * width
  {
  }

  lemma {:induction false} FoldsShape(rows: seq<Row>, times: seq<int>, config: Config, from: nat)
    requires config.Valid()
    ensures Adjacent(FoldsFrom(rows, times, config, from), Width(|times|, config), |times|)
    ensures from > 0 && Usable(|times|, config, from) ==>
              FoldsFrom(rows, times, config, from) != []
              && FoldsFrom(rows, times, config, from)[0] == FoldAt(rows, times, config, from)
    decreases from
  {
    if from == 0 {
    } else {
      FoldsShape(rows, times, config, from - 1);
      if Usable(|times|, config, from) {
        FirstFold(rows, times, config, from);
        if from > 1 {
          NextUsable(|times|, config, from);
          FirstFold(rows, times, config, from - 1);
        }
        AdjacentCons(FoldAt(rows, times, config, from), FoldsFrom(rows, times, config, from - 1),
                     Width(|times|, config), |times|);
      }
    }
  }

  lemma {:induction false} FoldsOk(rows: seq<Row>, times: seq<int>, config: Config, from: nat)
    requires config.Valid()
    ensures forall i :: 0 <= i < |FoldsFrom(rows, times, config, from)| ==>
              FoldOk(rows, times, config, FoldsFrom(rows, times, config, from)[i])
    decreases from
  {
    if from == 0 {
    } else {
      FoldsOk(rows, times, config, from - 1);
      if Usable(|times|, config, from) {
        FirstFold(rows, times, config, from);
      }
    }
  }

  lemma QuotientFits(n: nat, d: nat)
    requires d >= 3
    ensures 3 * (n / d) <= n
  {
    var q := n / d;
    assert n == d * q + n % d;
    assert d * q == 3 * q + (d - 3) * q;
  }

  /** The last origin always has room. */
  lemma LastUsable(n: nat, config: Config)
    requires config.Valid() && n >= 2 * config.minimum
    ensures Usable(n, config, 1)
  {
    QuotientFits(n, config.rollingOrigins + 2);
  }

  /** The times of two blocks put together. */
  lemma {:induction false} TimesTogether(a: Block, b: Block)
    requires a.times == Times(a.rows) && b.times == Times(b.rows) && Increasing(a.times + b.times)
    ensures Times(a.rows + b.rows) == a.times + b.times
  {
    var times := a.times + b.times;
    forall t ensures t in times <==> t in Times(a.rows + b.rows) {
      TimesAre(a.rows, t);
      TimesAre(b.rows, t);
      TimesAre(a.rows + b.rows, t);
    }
    SameTimes(times, Times(a.rows + b.rows));
  }

  /** The times of the rows before the test block. */
  lemma {:induction false} EligibleTimes(rows: seq<Row>, config: Config)
    requires config.Valid() && SplitRows(rows, config).Ok?
    ensures var s := SplitRows(rows, config).value;
            && Times(s.train.rows + s.validation.rows) == s.train.times + s.validation.times
            && s.train.times + s.validation.times == Times(rows)[..|s.train.times| + |s.validation.times|]
            && |s.train.times| + |s.validation.times| >= 2 * config.minimum
  {
    var c := CutTimes(Times(rows), config).value;
    TwoTimes(rows, c.train, c.validation);
  }

  lemma {:induction false} TwoTimes(rows: seq<Row>, i: nat, j: nat)
    requires i <= j <= |Times(rows)|
    ensures var s := ThreeBlocks(rows, i, j);
            && s.train.times + s.validation.times == Times(rows)[..j]
            && |s.train.times| + |s.validation.times| == j
            && Times(s.train.rows + s.validation.rows) == Times(rows)[..j]
  {
    var times, s := Times(rows), ThreeBlocks(rows, i, j);
    Stretches(times, i, j);
    BlockFilled(rows, 0, i);
    BlockFilled(rows, i, j);
    assert times[..i] + times[i..j] == times[..j];
    TimesTogether(s.train, s.validation);
  }

  /**
    Rolling-origin folds: never empty; every fold trains strictly before it
    validates and validates strictly before the test block; validation windows
    are adjacent, equally wide and end at the last time before the test block;
    and every fold trains on what the fold before it trained on and validated.
  */
  lemma {:induction false} FoldsIsolate(rows: seq<Row>, config: Config)
    requires config.Valid() && SplitRows(rows, config).Ok?
    ensures var s := SplitRows(rows, config).value;
            var eligible := s.train.rows + s.validation.rows;
            var times := Times(eligible);
            var folds := FoldsFrom(eligible, times, config, config.rollingOrigins);
            && folds != []
            && Adjacent(folds, Width(|times|, config), |times|)
            && (forall i :: 0 <= i < |folds| ==>
                  && FoldOk(eligible, times, config, folds[i])
                  && Isolated(folds[i], s.test))
            && (forall i :: 0 <= i < |folds| - 1 ==> Expands(folds[i], folds[i + 1]))
  {
    var s := SplitRows(rows, config).value;
    var eligible := s.train.rows + s.validation.rows;
    var times := Times(eligible);
    var folds := FoldsFrom(eligible, times, config, config.rollingOrigins);
    SplitIsolates(rows, config);
    EligibleTimes(rows, config);
    FoldsShape(eligible, times, config, config.rollingOrigins);
    FoldsOk(eligible, times, config, config.rollingOrigins);
    LastUsable(|times|, config);
    FoldsExist(eligible, times, config, config.rollingOrigins);
    EarlierTogether(s.train.rows, s.validation.rows, s.test.rows);
    forall i | 0 <= i < |folds| ensures Isolated(folds[i], s.test) {
      FoldIsolated(eligible, times, config, folds[i], s.test);
    }
    forall i | 0 <= i < |folds| - 1 ensures Expands(folds[i], folds[i + 1]) {
      FoldExpands(eligible, times, config, folds[i], folds[i + 1]);
    }
  }

  lemma {:induction false} FoldsExist(rows: seq<Row>, times: seq<int>, config: Config, from: nat)
    requires config.Valid() && from >= 1 && Usable(|times|, config, 1)
    ensures FoldsFrom(rows, times, config, from) != []
    decreases from
  {
    if from == 1 {
    } else {
      FoldsExist(rows, times, config, from - 1);
    }
  }

  /** Training before validation before the untouched test block. */
  predicate Isolated(fold: Fold, test: Block) {
    && fold.train != [] && fold.validation != []
    && Earlier(fold.train, fold.validation)
    && Earlier(fold.train, test.rows)
    && Earlier(fold.validation, test.rows)
  }

  /** The next fold trains on everything this one saw. */
  ghost predicate Expands(fold: Fold, next: Fold) {
    forall r :: r in fold.train || r in fold.validation ==> r in next.train
  }

  lemma {:induction false} TimeHasRow(rows: seq<Row>, times: seq<int>, t: int)
    requires t in Times(rows) && t in times
    ensures Where(rows, times) != []
  {
    TimesAre(rows, t);
    WhereAre(rows, times);
    var row :| row in rows && row.start == t;
    assert row in Where(rows, times);
  }

  lemma {:induction false} FoldNonempty(rows: seq<Row>, times: seq<int>, config: Config, fold: Fold)
    requires config.Valid() && times == Times(rows) && FoldOk(rows, times, config, fold)
    ensures fold.train != [] && fold.validation != []
  {
    TimeHasRow(rows, times[..fold.start], times[..fold.start][0]);
    TimeHasRow(rows, times[fold.start..fold.end], times[fold.start..fold.end][0]);
  }

  lemma {:induction false} FoldIsolated(
    rows: seq<Row>, times: seq<int>, config: Config, fold: Fold, test: Block)
    requires config.Valid() && times == Times(rows) && FoldOk(rows, times, config, fold)
    requires Earlier(rows, test.rows)
    ensures Isolated(fold, test)
  {
    FoldNonempty(rows, times, config, fold);
    FoldOrdered(rows, times, fold);
    TakenEarlier(rows, times[..fold.start], test.rows);
    TakenEarlier(rows, times[fold.start..fold.end], test.rows);
  }

  lemma {:induction false} FoldOrdered(rows: seq<Row>, times: seq<int>, fold: Fold)
    requires Increasing(times) && 0 <= fold.start <= fold.end <= |times|
    ensures Earlier(Where(rows, times[..fold.start]), Where(rows, times[fold.start..fold.end]))
  {
    BlocksPrecede(rows, times[..fold.start], times[fold.start..fold.end]);
  }

  /** Rows taken from before a block come before it. */
  lemma {:induction false} TakenEarlier(rows: seq<Row>, times: seq<int>, later: seq<Row>)
    requires Earlier(rows, later)
    ensures Earlier(Where(rows, times), later)
  {
    WhereAre(rows, times);
  }

  lemma EarlierTogether(a: seq<Row>, b: seq<Row>, later: seq<Row>)
    requires Earlier(a, later) && Earlier(b, later)
    ensures Earlier(a + b, later)
  {
  }

  lemma {:induction false} MoreTimes(rows: seq<Row>, times: seq<int>, times': seq<int>)
    requires forall t :: t in times ==> t in times'
    ensures forall r :: r in Where(rows, times) ==> r in Where(rows, times')
  {
    WhereAre(rows, times);
    WhereAre(rows, times');
  }

  lemma SliceInside(times: seq<int>, i: nat, j: nat)
    requires i <= j <= |times|
    ensures forall t :: t in times[..i] ==> t in times[..j]
    ensures forall t :: t in times[i..j] ==> t in times[..j]
  {
    assert times[..j] == times[..i] + times[i..j];
  }

  lemma {:induction false} FoldExpands(
    rows: seq<Row>, times: seq<int>, config: Config, fold: Fold, next: Fold)
    requires FoldOk(rows, times, config, fold) && FoldOk(rows, times, config, next) && fold.end == next.start
    ensures Expands(fold, next)
  {
    SliceInside(times, fold.start, fold.end);
    MoreTimes(rows, times[..fold.start], times[..next.start]);
    MoreTimes(rows, times[fold.start..fold.end], times[..next.start]);
  }
}
