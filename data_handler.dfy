/**
 * The MySQL-backed OHLCV history handler: the registry of table classes keyed
 * by table name, created and connected on first use; the write path that
 * upserts a candle frame; the read path that loads all or a range of a
 * table; and the coverage-gap planner that decides which sub-ranges must be
 * downloaded so that the stored history stays one contiguous block.
 */
module DataHandler {
  import opened Wrappers
  import opened OhlcvModel

  /** One row of a candle frame as callers hand it over: the date is a datetime, in nanoseconds since the epoch. */
  datatype Candle = Candle(dateNs: int, open: Price, high: Price, low: Price, close: Price, volume: Price)

  /**
   * A time range as callers pass it: each end has a kind ("date" when it is
   * an explicit date) and a timestamp in seconds since the epoch.
   */
  datatype TimeRange = TimeRange(startType: Option<string>, stopType: Option<string>, startts: int, stopts: int)

  /**
   * The planner's answer, shaped like the 5-tuple of `query_download_data`: whether anything
   * must be downloaded, then the bounds of up to two closed ranges (milliseconds).
   */
  datatype GapPlan = GapPlan(needed: bool, lo1: Option<int>, hi1: Option<int>, lo2: Option<int>, hi2: Option<int>)

  const NothingToFetch := GapPlan(false, None, None, None, None)

  /** What a store call did when it raised nothing: skipped for lack of a database, or stored. */
  datatype StoreOutcome = Skipped | Stored

  // ---------------------------------------------------------------------------
  // Dates
  // ---------------------------------------------------------------------------

  /** Nanoseconds to milliseconds by two floor divisions by 1000, as on the write path. */
  function NsToMs(ns: int): (ms: int)
    ensures ms * 1000000 <= ns < ms * 1000000 + 1000000
  {
    var us := ns / 1000;
    assert us * 1000 <= ns < us * 1000 + 1000;
    var ms := us / 1000;
    assert ms * 1000 <= us < ms * 1000 + 1000;
    ms
  }

  /** A whole number of milliseconds survives the conversion exactly. */
  lemma NsToMsOfMs(ms: int)
    ensures NsToMs(ms * 1000000) == ms
  {
  }

  /** The conversion keeps the order of dates (and so the order of a frame sorted by date). */
  lemma NsToMsMonotone(a: int, b: int)
    requires a <= b
    ensures NsToMs(a) <= NsToMs(b)
  {
  }

  /** A candle frame with its dates in milliseconds, as records for the table. */
  function ToRecords(data: seq<Candle>): (records: seq<Ohlcv>)
    ensures |records| == |data|
    ensures forall i :: 0 <= i < |data| ==>
      records[i].date * 1000000 <= data[i].dateNs < records[i].date * 1000000 + 1000000
    ensures forall i :: 0 <= i < |data| ==>
      records[i] == Ohlcv(NsToMs(data[i].dateNs), data[i].open, data[i].high, data[i].low, data[i].close, data[i].volume)
  {
    seq(|data|, i requires 0 <= i < |data| =>
      Ohlcv(NsToMs(data[i].dateNs), data[i].open, data[i].high, data[i].low, data[i].close, data[i].volume))
  }

  /** The requested window in milliseconds, present only when both ends are explicit dates. */
  function DateBounds(timerange: Option<TimeRange>): (b: Option<(int, int)>)
    ensures b.Some? <==> timerange.Some? && timerange.value.startType == Some("date") && timerange.value.stopType == Some("date")
    ensures b.Some? ==> b.value.0 == timerange.value.startts * 1000 && b.value.1 == timerange.value.stopts * 1000
  {
    match timerange
    case Some(tr) =>
      if tr.startType == Some("date") && tr.stopType == Some("date") then Some((tr.startts * 1000, tr.stopts * 1000))
      else None
    case None => None
  }

  // ---------------------------------------------------------------------------
  // The coverage-gap planner
  // ---------------------------------------------------------------------------

  /** The first element of the sorted dates. */
  function MinOf(xs: seq<int>): (m: int)
    requires xs != []
    ensures m in xs && forall i :: 0 <= i < |xs| ==> m <= xs[i]
  {
    if |xs| == 1 then xs[0]
    else
      var rest := MinOf(xs[1..]);
      if xs[0] <= rest then xs[0] else rest
  }

  /** The last element of the sorted dates. */
  function MaxOf(xs: seq<int>): (m: int)
    requires xs != []
    ensures m in xs && forall i :: 0 <= i < |xs| ==> xs[i] <= m
  {
    if |xs| == 1 then xs[0]
    else
      var rest := MaxOf(xs[1..]);
      if xs[0] >= rest then xs[0] else rest
  }

  /** On a strictly increasing sequence the least element is the first and the greatest the last. */
  lemma {:induction false} IncreasingEnds(xs: seq<int>)
    requires xs != [] && forall i, j :: 0 <= i < j < |xs| ==> xs[i] < xs[j]
    ensures MinOf(xs) == xs[0] && MaxOf(xs) == xs[|xs| - 1]
  {
    if |xs| > 1 {
      IncreasingEnds(xs[1..]);
    }
  }

  /** On the date column of a table, the least date is the first row's and the greatest the last row's. */
  lemma SortedEnds(rows: seq<Row>)
    requires Ascending(rows) && rows != []
    ensures MinOf(Dates(rows)) == rows[0].date
    ensures MaxOf(Dates(rows)) == rows[|rows| - 1].date
  {
    DatesIncreasing(rows);
    IncreasingEnds(Dates(rows));
  }

  /** Whether `t` lies in one of the plan's ranges. */
  predicate Fetches(p: GapPlan, t: int) {
    || (p.lo1.Some? && p.hi1.Some? && p.lo1.value <= t <= p.hi1.value)
    || (p.lo2.Some? && p.hi2.Some? && p.lo2.value <= t <= p.hi2.value)
  }

  /**
   * What to download for the request [start, end] when the stored candles span
   * [s, e]. The request is first padded towards the stored span so that a
   * download always touches it; the answer is then nothing, the left
   * extension [start, s], the right extension [e, end], or both.
   */
  function ExtendCoverage(start: int, end: int, s: int, e: int): (p: GapPlan)
    requires s <= e
    // a download is needed exactly when the request reaches outside the stored span
    ensures p.needed <==> start < s || e < end
    ensures !p.needed ==> p == NothingToFetch
    ensures start < s && e < end ==> p == GapPlan(true, Some(start), Some(s), Some(e), Some(end))
    ensures start < s && end <= e ==> p == GapPlan(true, Some(start), Some(s), None, None)
    ensures s <= start && e < end ==> p == GapPlan(true, Some(e), Some(end), None, None)
    // every requested instant is stored or downloaded
    ensures forall t :: start <= t <= end ==> s <= t <= e || Fetches(p, t)
    // every range is non-empty and abuts the stored span, so no detached island is created
    ensures p.needed ==> p.lo1.Some? && p.hi1.Some? && p.lo1.value < p.hi1.value
                         && (p.hi1 == Some(s) || p.lo1 == Some(e))
    ensures p.lo2.Some? ==> p.hi2.Some? && p.lo2 == Some(e) && e < p.hi2.value
    // nothing inside the stored span is downloaded except its boundary candles
    ensures forall t :: Fetches(p, t) ==> t <= s || e <= t
  {
    // pad towards the stored span, so that no hole is left between the two
    var end := if end < s then s else end;
    var start := if start > e then e else start;
    if start >= end then NothingToFetch
    else if start >= s && end <= e then NothingToFetch
    else if start < s && end > e then GapPlan(true, Some(start), Some(s), Some(e), Some(end))
    else if start < s then GapPlan(true, Some(start), Some(s), None, None)
    else GapPlan(true, Some(e), Some(end), None, None)
  }

  /**
   * The plan for the request [start, end] against the dates already stored:
   * with fewer than two stored dates the whole request is downloaded unchanged;
   * otherwise the stored span runs from the least to the greatest stored date.
   */
  function PlanGaps(start: int, end: int, dates: seq<int>): (p: GapPlan)
    ensures |dates| < 2 ==> p == GapPlan(true, Some(start), Some(end), None, None)
    ensures |dates| >= 2 ==>
      var s, e := MinOf(dates), MaxOf(dates);
      s <= e && p == ExtendCoverage(start, end, s, e)
  {
    if |dates| < 2 then GapPlan(true, Some(start), Some(end), None, None)
    else
      assert MinOf(dates) <= dates[0] <= MaxOf(dates);
      ExtendCoverage(start, end, MinOf(dates), MaxOf(dates))
  }

  /**
   * Planned against a table in primary-key order with two or more candles, the
   * stored span runs from the first row's date to the last row's.
   */
  lemma PlanGapsOfTable(start: int, end: int, rows: seq<Row>)
    requires Ascending(rows) && |rows| >= 2
    ensures rows[0].date < rows[|rows| - 1].date
    ensures PlanGaps(start, end, Dates(rows)) == ExtendCoverage(start, end, rows[0].date, rows[|rows| - 1].date)
  {
    SortedEnds(rows);
  }

  /** The planner on a stored span of [100, 500] (two stored dates). */
  lemma PlanExamples()
    // already covered
    ensures PlanGaps(150, 400, [100, 500]) == NothingToFetch
    // straddles both ends
    ensures PlanGaps(50, 600, [500, 100]) == GapPlan(true, Some(50), Some(100), Some(500), Some(600))
    // reaches out on the left only
    ensures PlanGaps(50, 300, [100, 500]) == GapPlan(true, Some(50), Some(100), None, None)
    // wholly to the right: padded back to the stored span
    ensures PlanGaps(600, 700, [100, 500]) == GapPlan(true, Some(500), Some(700), None, None)
    // wholly to the left: padded forward to the stored span
    ensures PlanGaps(0, 50, [100, 500]) == GapPlan(true, Some(0), Some(100), None, None)
    // a single stored date gives no span: the request is downloaded as it is
    ensures PlanGaps(0, 50, [100]) == GapPlan(true, Some(0), Some(50), None, None)
  {
    assert MinOf([100, 500]) == 100 && MaxOf([100, 500]) == 500;
    assert MinOf([500, 100]) == 100 && MaxOf([500, 100]) == 500;
  }

  // ---------------------------------------------------------------------------
  // The handler and its registry of table classes
  // ---------------------------------------------------------------------------

  class MysqlDataHandler {
    /** The configured database URL; None when it is missing or None. */
    const dbHistory: Option<string>
    /** Whether the database engine accepts that URL (decided by the driver, outside the model). */
    const engineAccepts: bool
    /** What the database holds, per table name, when the handler starts. */
    const existing: map<string, seq<Row>>
    /** The registry: one table class per table name, created on first use. */
    var classes: map<string, OhlcvTable>

    ghost predicate Valid()
      reads this, classes.Values
    {
      && (forall n :: n in existing ==> Ascending(existing[n]))
      && (forall n :: n in classes ==> classes[n].name == n && classes[n].Valid())
      && (forall n, n' :: n in classes && n' in classes && n != n' ==> classes[n] != classes[n'])
    }

    /** Whether a database is configured: the URL is present and not empty. */
    predicate HasDbHistory() {
      dbHistory.Some? && dbHistory.value != ""
    }

    /** The rows stored under `name`: the registered table's, or else what the database holds. */
    ghost function StoredRows(name: string): seq<Row>
      reads this, classes.Values
    {
      if name in classes then classes[name].rows
      else if name in existing then existing[name]
      else []
    }

    constructor (dbHistory: Option<string>, engineAccepts: bool, existing: map<string, seq<Row>>)
      requires forall n :: n in existing ==> Ascending(existing[n])
      ensures this.dbHistory == dbHistory && this.engineAccepts == engineAccepts && this.existing == existing
      ensures classes == map[] && Valid()
    {
      this.dbHistory := dbHistory;
      this.engineAccepts := engineAccepts;
      this.existing := existing;
      classes := map[];
    }

    /**
     * The table class for `name`: the registered one, or a new one that is
     * registered first and then connected. A failed connection leaves the new
     * class registered without a session.
     */
    method GetOrCreate(name: string) returns (t: OhlcvTable, err: Option<DbError>)
      requires Valid() && HasDbHistory()
      modifies this`classes
      ensures Valid()
      ensures name in classes && t == classes[name]
      ensures name in old(classes) ==> classes == old(classes) && err.None?
      ensures name !in old(classes) ==>
        && fresh(t) && classes == old(classes)[name := t]
        && t.rows == old(StoredRows(name))
        && t.connected == engineAccepts
        && err == (if engineAccepts then None else Some(BadDatabaseUrl(dbHistory.value)))
    {
      if name in classes {
        t := classes[name];
        err := None;
      } else {
        var stored := if name in existing then existing[name] else [];
        t := new OhlcvTable(name, stored);
        classes := classes[name := t];
        err := t.Connect(dbHistory.value, engineAccepts);
      }
    }

    /**
     * Upserts a candle frame into the table of (pair, timeframe), its dates cut
     * from nanoseconds to milliseconds. Without a configured database it stores
     * nothing and reports no error.
     */
    method OhlcvStore(pair: string, timeframe: string, data: seq<Candle>) returns (r: Result<StoreOutcome, DbError>)
      requires Valid()
      modifies this`classes, classes.Values
      ensures Valid()
      ensures forall n :: n in old(classes) ==> n in classes && classes[n] == old(classes[n])
      ensures classes.Keys == old(classes).Keys + (if HasDbHistory() then {GenerateTableName(pair, timeframe)} else {})
      // a registered class is never reconnected; a new one is connected exactly when the engine accepts the URL
      ensures forall n :: n in old(classes) ==> classes[n].connected == old(classes[n].connected)
      ensures HasDbHistory() && GenerateTableName(pair, timeframe) !in old(classes) ==>
        classes[GenerateTableName(pair, timeframe)].connected == engineAccepts
      // the class registered for a new name is a newly created one
      ensures HasDbHistory() && GenerateTableName(pair, timeframe) !in old(classes) ==>
        fresh(classes[GenerateTableName(pair, timeframe)])
      ensures !HasDbHistory() ==> r == Success(Skipped) && classes == old(classes)
      ensures !HasDbHistory() ==> forall n :: n in classes ==> classes[n].rows == old(classes[n].rows)
      ensures HasDbHistory() ==>
        var name := GenerateTableName(pair, timeframe);
        && name in classes
        && (r.Failure? ==> r.error == if name !in old(classes) && !engineAccepts then BadDatabaseUrl(dbHistory.value) else NoSession)
        && (forall n :: n in old(classes) && n != name ==> classes[n].rows == old(classes[n].rows))
        && (r.Success? <==> classes[name].connected)
        && (r.Success? ==> r.value == Stored)
        && (r.Success? ==>
              Index(classes[name].rows) == MergeAll(Index(old(StoredRows(name))), FromRecords(ToRecords(data))))
        && (r.Failure? ==> classes[name].rows == old(StoredRows(name)))
    {
      if !HasDbHistory() {
        return Success(Skipped);
      }
      var name := GenerateTableName(pair, timeframe);
      var t, err := GetOrCreate(name);
      if err.Some? {
        return Failure(err.value);
      }
      var res := t.UpdateBatch(ToRecords(data));
      if res.Failure? {
        return Failure(res.error);
      }
      r := Success(Stored);
    }

    /**
     * The candles of (pair, timeframe): all of them without a time range, else
     * those whose date lies in the range's [startts, stopts] (seconds, both ends
     * included). Without a configured database, an empty frame.
     */
    method OhlcvLoad(pair: string, timeframe: string, timerange: Option<TimeRange>) returns (r: Result<seq<Ohlcv>, DbError>)
      requires Valid()
      modifies this`classes
      ensures Valid()
      ensures forall n :: n in old(classes) ==> n in classes && classes[n] == old(classes[n])
      ensures forall n :: n in classes ==> classes[n].rows == old(StoredRows(n))
      ensures classes.Keys == old(classes).Keys + (if HasDbHistory() then {GenerateTableName(pair, timeframe)} else {})
      ensures forall n :: n in old(classes) ==> classes[n].connected == old(classes[n].connected)
      ensures HasDbHistory() && GenerateTableName(pair, timeframe) !in old(classes) ==>
        classes[GenerateTableName(pair, timeframe)].connected == engineAccepts
      // the class registered for a new name is a newly created one
      ensures HasDbHistory() && GenerateTableName(pair, timeframe) !in old(classes) ==>
        fresh(classes[GenerateTableName(pair, timeframe)])
      ensures !HasDbHistory() ==> r == Success([]) && classes == old(classes)
      ensures HasDbHistory() ==>
        var name := GenerateTableName(pair, timeframe);
        && name in classes
        && (r.Failure? ==> r.error == if name !in old(classes) && !engineAccepts then BadDatabaseUrl(dbHistory.value) else NoSession)
        && (r.Success? <==> classes[name].connected)
        && (r.Success? && timerange.None? ==> r.value == ToList(classes[name].rows))
        && (r.Success? && timerange.Some? ==>
              var lo, hi := timerange.value.startts * 1000, timerange.value.stopts * 1000;
              r.value == ToList(InRange(classes[name].rows, lo, hi)))
    {
      if !HasDbHistory() {
        return Success([]);
      }
      var name := GenerateTableName(pair, timeframe);
      var t, err := GetOrCreate(name);
      if err.Some? {
        return Failure(err.value);
      }
      var loaded;
      if timerange.None? {
        loaded := t.Load(None);
      } else {
        loaded := t.LookupOhlcv(timerange.value.startts * 1000, timerange.value.stopts * 1000, None);
      }
      if loaded.Failure? {
        return Failure(loaded.error);
      }
      var rows := loaded.value.rows;
      if |rows| == 0 {
        return Success([]);
      }
      r := Success(ToList(rows));
    }

    /**
     * Which sub-ranges of the requested window must be downloaded for
     * (pair, timeframe). Only a window with explicit dates at both ends and a
     * configured database are planned; otherwise nothing is needed.
     */
    method QueryDownloadData(pair: string, timeframe: string, timerange: Option<TimeRange>) returns (r: Result<GapPlan, DbError>)
      requires Valid()
      modifies this`classes
      ensures Valid()
      ensures forall n :: n in old(classes) ==> n in classes && classes[n] == old(classes[n])
      ensures forall n :: n in classes ==> classes[n].rows == old(StoredRows(n))
      ensures classes.Keys == old(classes).Keys
        + (if DateBounds(timerange).Some? && HasDbHistory() then {GenerateTableName(pair, timeframe)} else {})
      ensures forall n :: n in old(classes) ==> classes[n].connected == old(classes[n].connected)
      ensures DateBounds(timerange).Some? && HasDbHistory() && GenerateTableName(pair, timeframe) !in old(classes) ==>
        classes[GenerateTableName(pair, timeframe)].connected == engineAccepts
      // the class registered for a new name is a newly created one
      ensures DateBounds(timerange).Some? && HasDbHistory() && GenerateTableName(pair, timeframe) !in old(classes) ==>
        fresh(classes[GenerateTableName(pair, timeframe)])
      ensures DateBounds(timerange).None? || !HasDbHistory() ==> r == Success(NothingToFetch) && classes == old(classes)
      ensures DateBounds(timerange).Some? && HasDbHistory() ==>
        var name := GenerateTableName(pair, timeframe);
        var window := DateBounds(timerange).value;
        && name in classes
        && (r.Success? <==> classes[name].connected)
        && (r.Failure? ==> r.error == if name !in old(classes) && !engineAccepts then BadDatabaseUrl(dbHistory.value) else NoSession)
        && (r.Success? ==> r.value == PlanGaps(window.0, window.1, Dates(classes[name].rows)))
    {
      var bounds := DateBounds(timerange);
      if bounds.None? {
        return Success(NothingToFetch);
      }
      var (start, end) := bounds.value;
      if !HasDbHistory() {
        return Success(NothingToFetch);
      }
      var name := GenerateTableName(pair, timeframe);
      var t, err := GetOrCreate(name);
      if err.Some? {
        return Failure(err.value);
      }
      var loaded := t.Load(Some(["date"]));
      if loaded.Failure? {
        return Failure(loaded.error);
      }
      // the date column, one value per stored row
      LoadDateColumn(t);
      var dates := Dates(t.rows);
      r := Success(PlanGaps(start, end, dates));
    }

    /** Appending candles is not supported by this handler. */
    method OhlcvAppend(pair: string, timeframe: string, data: seq<Candle>) returns (r: Result<(), DbError>)
      ensures r == Failure(NotImplemented)
    {
      r := Failure(NotImplemented);
    }

    /** Storing trades is not supported by this handler. */
    method TradesStore(pair: string) returns (r: Result<(), DbError>)
      ensures r == Failure(NotImplemented)
    {
      r := Failure(NotImplemented);
    }

    /** Appending trades is not supported by this handler. */
    method TradesAppend(pair: string) returns (r: Result<(), DbError>)
      ensures r == Failure(NotImplemented)
    {
      r := Failure(NotImplemented);
    }

    /** Loading trades is not supported by this handler. */
    method TradesLoad(pair: string, timerange: Option<TimeRange>) returns (r: Result<(), DbError>)
      ensures r == Failure(NotImplemented)
    {
      r := Failure(NotImplemented);
    }
  }
}
