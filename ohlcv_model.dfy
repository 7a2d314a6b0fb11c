/**
 * One candle table per (pair, timeframe) key: the table name derived from the
 * key, the rows held under the unique `date` primary key, the two read queries
 * (full load and inclusive range lookup) and the three write paths (single
 * insert, insert-only batch, upsert batch).
 *
 * The table is a class whose `rows` field is the table's content in primary-key
 * order: a strictly ascending sequence, so no two rows share a date. Its
 * abstract view is `Index(rows)`, the map from each stored date to its row.
 */
module OhlcvModel {
  import opened Wrappers

  /**
   * A value of a float column as a 64-bit pattern: prices are stored and
   * compared, never computed with. The model takes a stored price as exact; the
   * rounding of the database's float columns is not modelled.
   */
  datatype Price = Price(bits: bv64)

  /** The `Ohlcv` named tuple; also the shape of one record of a candle frame handed to the write paths. */
  datatype Ohlcv = Ohlcv(date: int, open: Price, high: Price, low: Price, close: Price, volume: Price)

  /** One mapped row of a candle table; `date` (milliseconds since the epoch) is its primary key. */
  datatype Row = Row(date: int, open: Price, high: Price, low: Price, close: Price, volume: Price)

  datatype DbError =
    | NoSession                    // the table class was never connected, so it has no session
    | DuplicateDate(date: int)     // an insert violates the unique primary key on `date`
    | UnknownColumn(name: string)  // a requested column the table does not have
    | NoColumns                    // a select with an empty column list
    | BadDatabaseUrl(url: string)  // the engine rejects the configured database URL
    | NotImplemented

  // ---------------------------------------------------------------------------
  // Table names
  // ---------------------------------------------------------------------------

  /** The pair with every '/' replaced by '_'. */
  function ReplaceSlash(pair: string): (r: string)
    ensures |r| == |pair|
    ensures forall i :: 0 <= i < |pair| ==> r[i] == (if pair[i] == '/' then '_' else pair[i])
    ensures '/' !in r
  {
    if pair == [] then [] else [if pair[0] == '/' then '_' else pair[0]] + ReplaceSlash(pair[1..])
  }

  /** The name of the table that holds the candles of `pair` at timeframe `frame`. */
  function GenerateTableName(pair: string, frame: string): (name: string)
    ensures |name| == |pair| + 1 + |frame|
    ensures name[..|pair|] == ReplaceSlash(pair) && name[|pair|] == '_' && name[|pair| + 1..] == frame
    ensures '/' !in frame ==> '/' !in name
  {
    ReplaceSlash(pair) + "_" + frame
  }

  /**
   * For timeframes without '_' (such as 5m, 30m, 1h, 1d and 1w), two keys share a
   * table exactly when their timeframes agree and their pairs agree once '/' is
   * replaced by '_'.
   */
  lemma TableNameEqualIff(p1: string, f1: string, p2: string, f2: string)
    requires '_' !in f1 && '_' !in f2
    ensures GenerateTableName(p1, f1) == GenerateTableName(p2, f2)
        <==> ReplaceSlash(p1) == ReplaceSlash(p2) && f1 == f2
  {
    var n1, n2 := GenerateTableName(p1, f1), GenerateTableName(p2, f2);
    if n1 == n2 {
      // otherwise the separator of the name with the shorter timeframe falls inside the other timeframe
      assert |f1| == |f2|;
      assert ReplaceSlash(p1) == n1[..|p1|] == n2[..|p2|] == ReplaceSlash(p2);
      assert f1 == n1[|p1| + 1..] == n2[|p2| + 1..] == f2;
    }
  }

  /** Distinct pairs can share a table: "BTC/USDT" and "BTC_USDT" at the same timeframe. */
  lemma TableNameCollision()
    ensures "BTC/USDT" != "BTC_USDT"
    ensures GenerateTableName("BTC/USDT", "5m") == GenerateTableName("BTC_USDT", "5m")
  {
    var a, b := ReplaceSlash("BTC/USDT"), ReplaceSlash("BTC_USDT");
    assert "BTC/USDT"[3] != "BTC_USDT"[3];
    assert forall i :: 0 <= i < 8 ==> a[i] == b[i];
    assert a == b;
  }

  // ---------------------------------------------------------------------------
  // Rows under the `date` primary key
  // ---------------------------------------------------------------------------

  /** Primary-key order: dates strictly ascending, hence unique. */
  ghost predicate Ascending(rows: seq<Row>) {
    forall i, j :: 0 <= i < j < |rows| ==> rows[i].date < rows[j].date
  }

  /** The dates of the rows, in order. */
  function Dates(rows: seq<Row>): (ds: seq<int>)
    ensures |ds| == |rows| && forall i :: 0 <= i < |rows| ==> ds[i] == rows[i].date
  {
    seq(|rows|, i requires 0 <= i < |rows| => rows[i].date)
  }

  /** The date column of a table in primary-key order is strictly increasing, i.e. already sorted. */
  lemma DatesIncreasing(rows: seq<Row>)
    requires Ascending(rows)
    ensures forall i, j :: 0 <= i < j < |rows| ==> Dates(rows)[i] < Dates(rows)[j]
  {
  }

  /** The table as a map from each stored date to its row. */
  function Index(rows: seq<Row>): map<int, Row> {
    if rows == [] then map[] else Index(rows[1..])[rows[0].date := rows[0]]
  }

  /** Every key of the index is the date of a row, so a bound below all dates bounds all keys. */
  lemma {:induction false} IndexAbove(rows: seq<Row>, lo: int)
    requires forall i :: 0 <= i < |rows| ==> lo < rows[i].date
    ensures forall d :: d in Index(rows) ==> lo < d
  {
    if rows != [] {
      IndexAbove(rows[1..], lo);
    }
  }

  /** The first row of an ascending table carries its least date, which no later row repeats. */
  lemma HeadIsLeast(rows: seq<Row>)
    requires Ascending(rows) && rows != []
    ensures forall d :: d in Index(rows) ==> rows[0].date <= d
    ensures rows[0].date !in Index(rows[1..])
    ensures Index(rows[1..]) == Index(rows) - {rows[0].date}
  {
    IndexAbove(rows[1..], rows[0].date);
  }

  /** Only the empty table has an empty index. */
  lemma IndexEmpty(rows: seq<Row>)
    ensures Index(rows) == map[] <==> rows == []
  {
    if rows != [] {
      assert rows[0].date in Index(rows);
    }
  }

  /** An ascending table has exactly one row per key of its index. */
  lemma {:induction false} IndexSize(rows: seq<Row>)
    requires Ascending(rows)
    ensures |Index(rows)| == |rows|
  {
    if rows != [] {
      HeadIsLeast(rows);
      IndexSize(rows[1..]);
    }
  }

  /** The index determines an ascending table: the row sequence is a function of the date-to-row map. */
  lemma {:induction false} SameIndexSameRows(a: seq<Row>, b: seq<Row>)
    requires Ascending(a) && Ascending(b) && Index(a) == Index(b)
    ensures a == b
  {
    IndexEmpty(a);
    IndexEmpty(b);
    if a != [] {
      HeadIsLeast(a);
      HeadIsLeast(b);
      assert a[0].date == b[0].date;
      assert a[0] == Index(a)[a[0].date] == Index(b)[b[0].date] == b[0];
      SameIndexSameRows(a[1..], b[1..]);
      assert a == [a[0]] + a[1..] && b == [b[0]] + b[1..];
    }
  }

  /** A row below the first date of an ascending table can head it. */
  lemma AscendingCons(x: Row, rest: seq<Row>)
    requires Ascending(rest) && (rest == [] || x.date < rest[0].date)
    ensures Ascending([x] + rest)
  {
    var res := [x] + rest;
    forall i, j | 0 <= i < j < |res| ensures res[i].date < res[j].date {
      assert res[j] == rest[j - 1];
      if i > 0 {
        assert res[i] == rest[i - 1];
      } else if j > 1 {
        assert rest[0].date < rest[j - 1].date;
      }
    }
  }

  /** One `merge` of an entry: insert the row, or replace the stored row with the same date. */
  function Upsert(rows: seq<Row>, r: Row): (res: seq<Row>)
    requires Ascending(rows)
    ensures Ascending(res)
    ensures Index(res) == Index(rows)[r.date := r]
    ensures res != [] && (res[0] == r || (rows != [] && res[0] == rows[0]))
  {
    if rows == [] || r.date < rows[0].date then
      UpsertFront(rows, r);
      [r] + rows
    else if r.date == rows[0].date then
      UpsertHead(rows, r);
      [r] + rows[1..]
    else
      var rest := Upsert(rows[1..], r);
      UpsertBehind(rows, r, rest);
      [rows[0]] + rest
  }

  lemma UpsertFront(rows: seq<Row>, r: Row)
    requires Ascending(rows) && (rows == [] || r.date < rows[0].date)
    ensures Ascending([r] + rows)
    ensures Index([r] + rows) == Index(rows)[r.date := r]
  {
    AscendingCons(r, rows);
    assert ([r] + rows)[1..] == rows;
  }

  lemma UpsertHead(rows: seq<Row>, r: Row)
    requires Ascending(rows) && rows != [] && r.date == rows[0].date
    ensures Ascending([r] + rows[1..])
    ensures Index([r] + rows[1..]) == Index(rows)[r.date := r]
  {
    AscendingCons(r, rows[1..]);
    assert ([r] + rows[1..])[1..] == rows[1..];
  }

  lemma UpsertBehind(rows: seq<Row>, r: Row, rest: seq<Row>)
    requires Ascending(rows) && rows != [] && rows[0].date < r.date
    requires Ascending(rest) && Index(rest) == Index(rows[1..])[r.date := r]
    requires rest != [] && (rest[0] == r || (|rows| > 1 && rest[0] == rows[1]))
    ensures Ascending([rows[0]] + rest)
    ensures Index([rows[0]] + rest) == Index(rows)[r.date := r]
  {
    AscendingCons(rows[0], rest);
    assert ([rows[0]] + rest)[1..] == rest;
  }

  /** The table index after merging `batch` entry by entry, in order: later entries overwrite earlier ones. */
  function MergeAll(m: map<int, Row>, batch: seq<Row>): map<int, Row>
    decreases |batch|
  {
    if batch == [] then m
    else MergeAll(m, batch[..|batch| - 1])[batch[|batch| - 1].date := batch[|batch| - 1]]
  }

  /** After a merge, the date of a batch row that no later batch row repeats maps to that row: the last one wins. */
  lemma {:induction false} MergeAllLastWins(m: map<int, Row>, batch: seq<Row>, i: nat)
    requires i < |batch| && forall j :: i < j < |batch| ==> batch[j].date != batch[i].date
    ensures batch[i].date in MergeAll(m, batch) && MergeAll(m, batch)[batch[i].date] == batch[i]
    decreases |batch|
  {
    var n := |batch| - 1;
    if i < n {
      var pre := batch[..n];
      assert pre[i] == batch[i];
      assert forall j :: i < j < |pre| ==> pre[j] == batch[j];
      MergeAllLastWins(m, pre, i);
    }
  }

  /** After a merge, a date that no batch row carries keeps its old row, or stays absent. */
  lemma {:induction false} MergeAllElsewhere(m: map<int, Row>, batch: seq<Row>, d: int)
    requires forall i :: 0 <= i < |batch| ==> batch[i].date != d
    ensures d in MergeAll(m, batch) <==> d in m
    ensures d in m ==> MergeAll(m, batch)[d] == m[d]
    decreases |batch|
  {
    if batch != [] {
      var n := |batch| - 1;
      var pre := batch[..n];
      assert forall i :: 0 <= i < |pre| ==> pre[i] == batch[i];
      MergeAllElsewhere(m, pre, d);
    }
  }

  /** Merging a batch overrides exactly the batch's dates: the old index united with the batch's own index. */
  lemma {:induction false} MergeAllUnion(m: map<int, Row>, batch: seq<Row>)
    ensures MergeAll(m, batch) == m + MergeAll(map[], batch)
    decreases |batch|
  {
    if batch != [] {
      var n := |batch| - 1;
      MergeAllUnion(m, batch[..n]);
    }
  }

  /** Merging the same batch twice leaves the same index as merging it once. */
  lemma MergeAllIdempotent(m: map<int, Row>, batch: seq<Row>)
    ensures MergeAll(MergeAll(m, batch), batch) == MergeAll(m, batch)
  {
    MergeAllUnion(m, batch);
    MergeAllUnion(MergeAll(m, batch), batch);
  }

  /** No batch date is already stored and no two batch rows share a date: an insert-only batch can commit. */
  ghost predicate NoClash(stored: set<int>, batch: seq<Row>) {
    && (forall i :: 0 <= i < |batch| ==> batch[i].date !in stored)
    && (forall i, j :: 0 <= i < j < |batch| ==> batch[i].date != batch[j].date)
  }

  /** A batch that clashes with nothing only adds: every stored row stays, and the index grows by the batch's length. */
  lemma {:induction false} NoClashOnlyAdds(m: map<int, Row>, batch: seq<Row>)
    requires NoClash(m.Keys, batch)
    ensures forall d :: d in m ==> d in MergeAll(m, batch) && MergeAll(m, batch)[d] == m[d]
    ensures forall i :: 0 <= i < |batch| ==> batch[i].date in MergeAll(m, batch) && MergeAll(m, batch)[batch[i].date] == batch[i]
    ensures |MergeAll(m, batch)| == |m| + |batch|
    decreases |batch|
  {
    if batch != [] {
      var n := |batch| - 1;
      var pre := batch[..n];
      assert NoClash(m.Keys, pre);
      NoClashOnlyAdds(m, pre);
      MergeAllElsewhere(m, pre, batch[n].date);
      assert batch[n].date !in MergeAll(m, pre);
      forall i | 0 <= i < |batch|
        ensures batch[i].date in MergeAll(m, batch) && MergeAll(m, batch)[batch[i].date] == batch[i]
      {
        if i < n {
          assert pre[i] == batch[i];
        }
      }
    }
  }

  /**
   * Walks an insert-only batch in order and reports the first date that is
   * already stored or already seen earlier in the batch.
   */
  method FindClash(stored: set<int>, batch: seq<Row>) returns (clash: Option<int>)
    ensures clash.None? <==> NoClash(stored, batch)
    ensures clash.Some? ==> clash.value in Dates(batch)
    // the reported date is that of the first row that clashes: the row's date is already stored or
    // carried by an earlier row, and the batch before it is clash-free
    ensures clash.Some? ==>
      exists i :: 0 <= i < |batch| && batch[i].date == clash.value && NoClash(stored, batch[..i])
        && (clash.value in stored || clash.value in Dates(batch[..i]))
  {
    var seen := stored;
    var i := 0;
    while i < |batch|
      invariant 0 <= i <= |batch|
      invariant NoClash(stored, batch[..i])
      invariant seen == stored + set k | 0 <= k < i :: batch[k].date
    {
      if batch[i].date in seen {
        assert !NoClash(stored, batch) by {
          if batch[i].date !in stored {
            var k :| 0 <= k < i && batch[k].date == batch[i].date;
          }
        }
        if batch[i].date !in stored {
          var k :| 0 <= k < i && batch[k].date == batch[i].date;
          assert Dates(batch[..i])[k] == batch[k].date;
        }
        assert Dates(batch)[i] == batch[i].date;
        return Some(batch[i].date);
      }
      seen := seen + {batch[i].date};
      i := i + 1;
    }
    assert batch[..i] == batch;
    clash := None;
  }

  // ---------------------------------------------------------------------------
  // Read queries
  // ---------------------------------------------------------------------------

  datatype Column = Date | Open | High | Low | Close | Volume

  /** The attribute name of a mapped column. */
  function ColumnName(c: Column): string {
    match c
    case Date => "date"
    case Open => "open"
    case High => "high"
    case Low => "low"
    case Close => "close"
    case Volume => "volume"
  }

  /** The mapped column an attribute name denotes: the one whose attribute name it is. */
  function ColumnOf(name: string): (c: Option<Column>)
    ensures c.Some? <==> name in ["date", "open", "high", "low", "close", "volume"]
    ensures c.Some? ==> ColumnName(c.value) == name
  {
    if name == "date" then Some(Date)
    else if name == "open" then Some(Open)
    else if name == "high" then Some(High)
    else if name == "low" then Some(Low)
    else if name == "close" then Some(Close)
    else if name == "volume" then Some(Volume)
    else None
  }

  /** Every column is found again under its attribute name, so distinct columns have distinct names. */
  lemma ColumnOfName(c: Column)
    ensures ColumnOf(ColumnName(c)) == Some(c)
  {
  }

  /** The attribute lookup of every requested column name; the first unknown name fails. */
  function Resolve(names: seq<string>): (r: Result<seq<Column>, DbError>)
    ensures r.Success? <==> forall i :: 0 <= i < |names| ==> ColumnOf(names[i]).Some?
    ensures r.Success? ==> |r.value| == |names| && forall i :: 0 <= i < |names| ==> ColumnOf(names[i]) == Some(r.value[i])
    ensures r.Failure? ==> r.error.UnknownColumn? && r.error.name in names && ColumnOf(r.error.name).None?
  {
    if names == [] then Success([])
    else match ColumnOf(names[0])
      case None => Failure(UnknownColumn(names[0]))
      case Some(c) =>
        match Resolve(names[1..])
        case Failure(e) => Failure(e)
        case Success(cs) => Success([c] + cs)
  }

  /** A built select: whole rows, or the listed columns (of which the scalar result keeps the first). */
  datatype Query = AllRows | FirstColumnOf(columns: seq<Column>)

  function BuildQuery(columns: Option<seq<string>>): (q: Result<Query, DbError>)
    ensures columns.None? ==> q == Success(AllRows)
    ensures columns.Some? ==> (q.Success? <==> Resolve(columns.value).Success?)
    ensures columns.Some? && q.Success? ==> q.value == FirstColumnOf(Resolve(columns.value).value)
    ensures columns.Some? && q.Failure? ==> q.error == Resolve(columns.value).error
  {
    match columns
    case None => Success(AllRows)
    case Some(names) =>
      match Resolve(names)
      case Failure(e) => Failure(e)
      case Success(cs) => Success(FirstColumnOf(cs))
  }

  /** One value of a column. */
  datatype Scalar = DateValue(date: int) | PriceValue(price: Price)

  function Project(r: Row, c: Column): Scalar {
    match c
    case Date => DateValue(r.date)
    case Open => PriceValue(r.open)
    case High => PriceValue(r.high)
    case Low => PriceValue(r.low)
    case Close => PriceValue(r.close)
    case Volume => PriceValue(r.volume)
  }

  /** What `scalars().all()` yields: whole rows, or one column value per row. */
  datatype Selection = Rows(rows: seq<Row>) | Values(values: seq<Scalar>)

  /** Runs a built select over the selected rows. */
  function Execute(rows: seq<Row>, q: Query): (r: Result<Selection, DbError>)
    ensures q.AllRows? ==> r == Success(Rows(rows))
    ensures q.FirstColumnOf? && q.columns == [] ==> r == Failure(NoColumns)
    ensures q.FirstColumnOf? && q.columns != [] ==>
      r.Success? && r.value.Values? && |r.value.values| == |rows|
      && forall i :: 0 <= i < |rows| ==> r.value.values[i] == Project(rows[i], q.columns[0])
  {
    match q
    case AllRows => Success(Rows(rows))
    case FirstColumnOf(cs) =>
      if cs == [] then Failure(NoColumns)
      else Success(Values(seq(|rows|, i requires 0 <= i < |rows| => Project(rows[i], cs[0]))))
  }

  /** The stored rows whose date lies in the closed interval [lo, hi], in their stored order. */
  function InRange(rows: seq<Row>, lo: int, hi: int): (res: seq<Row>)
    ensures forall x :: x in res <==> x in rows && lo <= x.date <= hi
    ensures Ascending(rows) ==> Ascending(res)
  {
    if rows == [] then []
    else if lo <= rows[0].date <= hi then [rows[0]] + InRange(rows[1..], lo, hi)
    else InRange(rows[1..], lo, hi)
  }

  /** A range that holds every stored date selects the whole table. */
  lemma {:induction false} InRangeAll(rows: seq<Row>, lo: int, hi: int)
    requires forall x :: x in rows ==> lo <= x.date <= hi
    ensures InRange(rows, lo, hi) == rows
  {
    if rows != [] {
      InRangeAll(rows[1..], lo, hi);
      assert rows == [rows[0]] + rows[1..];
    }
  }

  // ---------------------------------------------------------------------------
  // Rows and records
  // ---------------------------------------------------------------------------

  /** Rows as `Ohlcv` tuples, one per row, in the same order. */
  function ToList(rows: seq<Row>): (out: seq<Ohlcv>)
    ensures |out| == |rows|
    ensures forall i :: 0 <= i < |rows| ==>
      out[i] == Ohlcv(rows[i].date, rows[i].open, rows[i].high, rows[i].low, rows[i].close, rows[i].volume)
  {
    seq(|rows|, i requires 0 <= i < |rows| =>
      Ohlcv(rows[i].date, rows[i].open, rows[i].high, rows[i].low, rows[i].close, rows[i].volume))
  }

  /** Frame records as mapped rows, one per record, in the same order. */
  function FromRecords(records: seq<Ohlcv>): (rows: seq<Row>)
    ensures |rows| == |records|
    ensures forall i :: 0 <= i < |records| ==>
      rows[i] == Row(records[i].date, records[i].open, records[i].high, records[i].low, records[i].close, records[i].volume)
  {
    seq(|records|, i requires 0 <= i < |records| =>
      Row(records[i].date, records[i].open, records[i].high, records[i].low, records[i].close, records[i].volume))
  }

  /** Turning records into rows and back loses nothing. */
  lemma ToListFromRecords(records: seq<Ohlcv>)
    ensures ToList(FromRecords(records)) == records
  {
  }

  /** Turning rows into tuples and back loses nothing. */
  lemma FromRecordsToList(rows: seq<Row>)
    ensures FromRecords(ToList(rows)) == rows
  {
  }

  // ---------------------------------------------------------------------------
  // The table
  // ---------------------------------------------------------------------------

  class OhlcvTable {
    const name: string
    /** The stored rows in primary-key order. */
    var rows: seq<Row>
    /** Whether the table class has a session, i.e. has been connected. */
    var connected: bool

    ghost predicate Valid()
      reads this
    {
      Ascending(rows)
    }

    /** A table class for `name` over what the database already holds under that name. */
    constructor (name: string, stored: seq<Row>)
      requires Ascending(stored)
      ensures this.name == name && rows == stored && !connected && Valid()
    {
      this.name := name;
      rows := stored;
      connected := false;
    }

    /**
     * Attaches a session for `url`. Whether the engine accepts the URL is decided
     * by the database driver, outside the model, and is passed in.
     */
    method Connect(url: string, engineAccepts: bool) returns (err: Option<DbError>)
      modifies this`connected
      ensures engineAccepts ==> err.None? && connected
      ensures !engineAccepts ==> err == Some(BadDatabaseUrl(url)) && connected == old(connected)
    {
      if !engineAccepts {
        return Some(BadDatabaseUrl(url));
      }
      connected := true;
      err := None;
    }

    /** The stored rows with `startTime <= date <= endTime`, whole or as the first listed column. */
    function LookupOhlcv(startTime: int, endTime: int, columns: Option<seq<string>>): (r: Result<Selection, DbError>)
      reads this
      requires Valid()
      ensures BuildQuery(columns).Failure? ==> r == Failure(BuildQuery(columns).error)
      ensures BuildQuery(columns).Success? && !connected ==> r == Failure(NoSession)
      ensures connected && columns.None? ==>
        r.Success? && r.value.Rows? && Ascending(r.value.rows)
        && forall x :: x in r.value.rows <==> x in rows && startTime <= x.date <= endTime
      ensures connected && columns.Some? && Resolve(columns.value).Success? && columns.value != [] ==>
        var selected := InRange(rows, startTime, endTime);
        r.Success? && r.value.Values? && |r.value.values| == |selected|
        && forall i :: 0 <= i < |selected| ==>
             r.value.values[i] == Project(selected[i], ColumnOf(columns.value[0]).value)
      ensures connected && columns == Some([]) ==> r == Failure(NoColumns)
    {
      match BuildQuery(columns)
      case Failure(e) => Failure(e)
      case Success(q) =>
        if !connected then Failure(NoSession) else Execute(InRange(rows, startTime, endTime), q)
    }

    /** Every stored row, whole or as the first listed column. */
    function Load(columns: Option<seq<string>>): (r: Result<Selection, DbError>)
      reads this
      requires Valid()
      ensures BuildQuery(columns).Failure? ==> r == Failure(BuildQuery(columns).error)
      ensures BuildQuery(columns).Success? && !connected ==> r == Failure(NoSession)
      ensures connected && columns.None? ==> r == Success(Rows(rows))
      ensures connected && columns.Some? && Resolve(columns.value).Success? && columns.value != [] ==>
        r.Success? && r.value.Values? && |r.value.values| == |rows|
        && forall i :: 0 <= i < |rows| ==> r.value.values[i] == Project(rows[i], ColumnOf(columns.value[0]).value)
      ensures connected && columns == Some([]) ==> r == Failure(NoColumns)
    {
      match BuildQuery(columns)
      case Failure(e) => Failure(e)
      case Success(q) =>
        if !connected then Failure(NoSession) else Execute(rows, q)
    }

    /** Inserts one row; a date already stored violates the primary key and stores nothing. */
    method StoreOhlcv(date: int, open: Price, high: Price, low: Price, close: Price, volume: Price)
      returns (r: Result<(), DbError>)
      requires Valid()
      modifies this`rows
      ensures Valid()
      ensures !connected ==> r == Failure(NoSession) && rows == old(rows)
      ensures connected && date in old(Index(rows)) ==> r == Failure(DuplicateDate(date)) && rows == old(rows)
      ensures connected && date !in old(Index(rows)) ==>
        r.Success? && Index(rows) == old(Index(rows))[date := Row(date, open, high, low, close, volume)]
        && |rows| == old(|rows|) + 1
    {
      if !connected {
        return Failure(NoSession);
      }
      if date in Index(rows) {
        return Failure(DuplicateDate(date));
      }
      IndexSize(rows);
      rows := Upsert(rows, Row(date, open, high, low, close, volume));
      IndexSize(rows);
      r := Success(());
    }

    /** Merges the rows one by one, each inserting or replacing the row with its date. */
    method MergeRows(batch: seq<Row>)
      requires Valid()
      modifies this`rows
      ensures Valid()
      ensures Index(rows) == MergeAll(old(Index(rows)), batch)
    {
      var i := 0;
      while i < |batch|
        invariant 0 <= i <= |batch|
        invariant Ascending(rows)
        invariant Index(rows) == MergeAll(old(Index(rows)), batch[..i])
      {
        rows := Upsert(rows, batch[i]);
        assert batch[..i + 1][..i] == batch[..i];
        i := i + 1;
      }
      assert batch[..i] == batch;
    }

    /**
     * Inserts a whole frame in one commit. If any of its dates is already stored
     * or repeated within the frame, the commit fails on the primary key and the
     * table keeps its old content.
     */
    method StoreBatch(data: seq<Ohlcv>) returns (r: Result<(), DbError>)
      requires Valid()
      modifies this`rows
      ensures Valid()
      ensures !connected ==> r == Failure(NoSession) && rows == old(rows)
      ensures connected && !NoClash(old(Index(rows)).Keys, FromRecords(data)) ==>
        r.Failure? && r.error.DuplicateDate? && r.error.date in Dates(FromRecords(data)) && rows == old(rows)
      ensures connected && NoClash(old(Index(rows)).Keys, FromRecords(data)) ==>
        r.Success? && Index(rows) == MergeAll(old(Index(rows)), FromRecords(data))
        && |rows| == old(|rows|) + |data|
    {
      if !connected {
        return Failure(NoSession);
      }
      var batch := FromRecords(data);
      var clash := FindClash(Index(rows).Keys, batch);
      if clash.Some? {
        return Failure(DuplicateDate(clash.value));
      }
      ghost var before := Index(rows);
      IndexSize(rows);
      MergeRows(batch);
      NoClashOnlyAdds(before, batch);
      IndexSize(rows);
      r := Success(());
    }

    /** Upserts a whole frame in one commit: each record inserts its row or replaces the row with its date. */
    method UpdateBatch(data: seq<Ohlcv>) returns (r: Result<(), DbError>)
      requires Valid()
      modifies this`rows
      ensures Valid()
      ensures !connected ==> r == Failure(NoSession) && rows == old(rows)
      ensures connected ==> r.Success? && Index(rows) == MergeAll(old(Index(rows)), FromRecords(data))
    {
      if !connected {
        return Failure(NoSession);
      }
      MergeRows(FromRecords(data));
      r := Success(());
    }
  }

  /** Applying `UpdateBatch` twice with the same frame leaves the same rows as applying it once. */
  lemma UpdateBatchIdempotent(once: seq<Row>, twice: seq<Row>, m: map<int, Row>, batch: seq<Row>)
    requires Ascending(once) && Ascending(twice)
    requires Index(once) == MergeAll(m, batch)
    requires Index(twice) == MergeAll(Index(once), batch)
    ensures twice == once
  {
    MergeAllIdempotent(m, batch);
    SameIndexSameRows(once, twice);
  }

  /** Loading the `date` column of a connected table yields one date value per row, in primary-key order. */
  lemma LoadDateColumn(t: OhlcvTable)
    requires t.Valid() && t.connected
    ensures t.Load(Some(["date"])).Success? && t.Load(Some(["date"])).value.Values?
    ensures var vs := t.Load(Some(["date"])).value.values;
      |vs| == |Dates(t.rows)| && forall i :: 0 <= i < |vs| ==> vs[i] == DateValue(Dates(t.rows)[i])
  {
  }
}
