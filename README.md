# OHLCV history store on MySQL: coverage-gap planner and per-key candle tables

This project models the core of the MySQL-backed OHLCV history store of a
trading bot. The store keeps one candle table per (pair, timeframe) key and
answers three questions:

- **Which sub-ranges must be downloaded?** Given a requested window and the
  dates already stored, the coverage-gap planner (`query_download_data`)
  returns nothing, a left extension, a right extension, or both. The request
  is first padded towards the stored span, so a download always touches the
  stored block and never creates a detached island of data.
- **How do candles get stored?** Each table keeps its rows under the unique
  `date` primary key. A single insert and an insert-only batch fail on a
  date that is already stored. An upsert batch (`update_batch`) inserts or
  replaces row by row, and the last entry wins.
- **Which table belongs to a key?** The handler keeps a registry of table
  classes keyed by table name. A class is created and connected only the
  first time its name is seen. Later calls reuse it.

Files:

- `wrappers.dfy`: `Option` and `Result`.
- `ohlcv_model.dfy` (module `OhlcvModel`): table names, the row order and
  index, the merge specification and its lemmas, and the read queries. It also
  holds the class `OhlcvTable` with its read functions and write methods.
- `data_handler.dfy` (module `DataHandler`): the date conversions, the
  coverage-gap planner and the class `MysqlDataHandler`. That class holds the
  registry and the load, store and plan entry points.

How the model represents things:

- A table's content is the field `rows`, kept strictly ascending by `date`.
  This is primary-key order, so no two rows share a date.
- `Index(rows)` is the abstract view: a map from each stored date to its row.
  `SameIndexSameRows` shows that this map determines the rows.
- `MergeAll(m, batch)` specifies `update_batch`: it applies the batch's rows
  to the index one at a time, in order.
- Prices are opaque 64-bit patterns, taken as stored exactly. Whether the database driver accepts the
  configured URL is a constructor parameter of the handler. The same goes for
  the rows the database already holds per table name when the handler starts.

## Model

| member | source | states |
|---|---|---|
| `OhlcvModel.ReplaceSlash` | freqtrade/persistence/ohlcv_model.py:26 | the result has the pair's length, each '/' becomes '_' and every other character is kept, and no '/' remains |
| `OhlcvModel.GenerateTableName` | freqtrade/persistence/ohlcv_model.py:25-27 | the name is the slash-replaced pair, then '_', then the frame; it contains no '/' when the frame has none |
| `OhlcvModel.TableNameEqualIff` | freqtrade/persistence/ohlcv_model.py:25-27 | for frames without '_', two keys get the same table name exactly when the frames are equal and the slash-replaced pairs are equal |
| `OhlcvModel.TableNameCollision` | freqtrade/persistence/ohlcv_model.py:26 | the distinct pairs "BTC/USDT" and "BTC_USDT" get the same table at the same frame |
| `OhlcvModel.DatesIncreasing` | freqtrade/data/history/mysqldatahandler.py:159 | the date column of a table in primary-key order is strictly increasing, so it is already in the order `sorted` gives |
| `OhlcvModel.IndexSize` | freqtrade/persistence/ohlcv_model.py:34-36 | a table in primary-key order has exactly one row per stored date |
| `OhlcvModel.SameIndexSameRows` | freqtrade/persistence/ohlcv_model.py:34-36 | two tables in primary-key order that map the same dates to the same rows are the same table |
| `OhlcvModel.Upsert` | freqtrade/persistence/ohlcv_model.py:81 | merging one entry keeps primary-key order; afterwards the entry's date maps to the entry and every other date keeps its row |
| `OhlcvModel.MergeAllLastWins` | freqtrade/persistence/ohlcv_model.py:77-82 | after a batch merge, a batch date maps to the last batch row with that date |
| `OhlcvModel.MergeAllElsewhere` | freqtrade/persistence/ohlcv_model.py:77-82 | after a batch merge, a date not in the batch keeps its old row, or stays absent |
| `OhlcvModel.MergeAllUnion` | freqtrade/persistence/ohlcv_model.py:79-82 | merging a batch equals overriding the old index with the batch's own last-wins index |
| `OhlcvModel.MergeAllIdempotent` | freqtrade/persistence/ohlcv_model.py:77-82 | merging the same batch twice gives the same index as merging it once |
| `OhlcvModel.UpdateBatchIdempotent` | freqtrade/persistence/ohlcv_model.py:77-82 | two upserts of the same batch leave exactly the rows (content and order) that one upsert leaves |
| `OhlcvModel.NoClashOnlyAdds` | freqtrade/persistence/ohlcv_model.py:72-75 | a batch whose dates are new and pairwise distinct only adds: old rows stay, each batch row is stored, and the table grows by the batch length |
| `OhlcvModel.FindClash` | freqtrade/persistence/ohlcv_model.py:72-75 | reports a clash exactly when some batch date is already stored or repeated in the batch; the reported date is that of the first batch row that clashes, the batch before it being clash-free |
| `OhlcvModel.ColumnOf` | freqtrade/persistence/ohlcv_model.py:57 | a name denotes a column exactly when it is one of the six mapped attribute names, and then it denotes the column with that attribute name |
| `OhlcvModel.ColumnOfName` | freqtrade/persistence/ohlcv_model.py:57 | every column is found again under its own attribute name, so distinct columns never share a name |
| `OhlcvModel.Resolve` | freqtrade/persistence/ohlcv_model.py:57 | the lookup succeeds exactly when every name is a column, giving them in order; otherwise it fails with an unknown name taken from the list |
| `OhlcvModel.InRange` | freqtrade/persistence/ohlcv_model.py:46 | keeps exactly the rows with lo <= date <= hi (both ends inclusive) and keeps primary-key order |
| `OhlcvModel.InRangeAll` | freqtrade/persistence/ohlcv_model.py:44-59 | a range containing every stored date selects the whole table, so the range lookup then agrees with the full load |
| `OhlcvModel.ToList` | freqtrade/persistence/ohlcv_model.py:61-63 | one tuple per row, in row order, carrying the row's date, open, high, low, close and volume |
| `OhlcvModel.FromRecords` | freqtrade/persistence/ohlcv_model.py:79 | one mapped row per frame record, in record order, carrying the record's date and five prices |
| `OhlcvModel.ToListFromRecords` | freqtrade/persistence/ohlcv_model.py:61-63 | turning records into rows and back into tuples gives the records back |
| `OhlcvModel.FromRecordsToList` | freqtrade/persistence/ohlcv_model.py:61-63 | turning rows into tuples and back into rows gives the rows back |
| `OhlcvModel.OhlcvTable.constructor` | freqtrade/persistence/ohlcv_model.py:29-41 | a new table class has the given name, holds what the database already stores under it, and has no session |
| `OhlcvModel.OhlcvTable.Connect` | freqtrade/persistence/ohlcv_model.py:86-93 | an accepted URL gives the class a session; a rejected one fails with the bad-URL error and attaches nothing |
| `OhlcvModel.OhlcvTable.LookupOhlcv` | freqtrade/persistence/ohlcv_model.py:44-50 | column errors come first, then a missing session; with no columns it returns exactly the stored rows with startTime <= date <= endTime, ascending; with columns, the first column of each of those rows |
| `OhlcvModel.OhlcvTable.Load` | freqtrade/persistence/ohlcv_model.py:53-59 | column errors come first, then a missing session; with no columns it returns every stored row; with columns, one value of the first column per row; an empty list fails |
| `OhlcvModel.LoadDateColumn` | freqtrade/data/history/mysqldatahandler.py:159 | loading the `date` column of a connected table succeeds and gives one date value per stored row, in primary-key order |
| `OhlcvModel.OhlcvTable.StoreOhlcv` | freqtrade/persistence/ohlcv_model.py:66-69 | a new date is added, the table grows by one row and nothing else changes; a stored date fails with the duplicate-key error and changes nothing |
| `OhlcvModel.OhlcvTable.MergeRows` | freqtrade/persistence/ohlcv_model.py:80-81 | merging the rows one by one keeps primary-key order and leaves the index MergeAll(old index, batch) |
| `OhlcvModel.OhlcvTable.StoreBatch` | freqtrade/persistence/ohlcv_model.py:72-75 | with no clash, all rows are added and the table grows by the batch length; a clash fails with one of the batch's dates and changes nothing; no session fails and changes nothing |
| `OhlcvModel.OhlcvTable.UpdateBatch` | freqtrade/persistence/ohlcv_model.py:77-82 | with a session, the new index is MergeAll(old index, batch records); without one, it fails and changes nothing |
| `DataHandler.NsToMs` | freqtrade/data/history/mysqldatahandler.py:52 | the result is the floor of ns / 1000000, negative dates included |
| `DataHandler.NsToMsOfMs` | freqtrade/data/history/mysqldatahandler.py:52 | a whole number of milliseconds converts back exactly |
| `DataHandler.NsToMsMonotone` | freqtrade/data/history/mysqldatahandler.py:52 | the conversion keeps the order of dates |
| `DataHandler.ToRecords` | freqtrade/data/history/mysqldatahandler.py:51-52 | one record per candle, in frame order: the date is the floor of the candle's nanoseconds / 1000000, and the five prices are the candle's |
| `DataHandler.DateBounds` | freqtrade/data/history/mysqldatahandler.py:144-148 | a window exists exactly when a range is given with kind "date" at both ends, and it is (startts * 1000, stopts * 1000) |
| `DataHandler.MinOf` | freqtrade/data/history/mysqldatahandler.py:159-163 | the result is a stored date no greater than any other, i.e. the first of the sorted dates |
| `DataHandler.MaxOf` | freqtrade/data/history/mysqldatahandler.py:159-164 | the result is a stored date no smaller than any other, i.e. the last of the sorted dates |
| `DataHandler.IncreasingEnds` | freqtrade/data/history/mysqldatahandler.py:163-164 | on a strictly increasing sequence the least element is the first and the greatest the last |
| `DataHandler.SortedEnds` | freqtrade/data/history/mysqldatahandler.py:159-164 | on the date column of a table in primary-key order, the least date is the first row's and the greatest the last row's |
| `DataHandler.ExtendCoverage` | freqtrade/data/history/mysqldatahandler.py:166-183 | needed exactly when start < s or end > e; otherwise no ranges. Both ends out gives [start, s] and [e, end]; left only gives [start, s]; right only gives [e, end]. Every requested instant is stored or fetched; every range is non-empty and abuts [s, e]; no range reaches inside (s, e) |
| `DataHandler.PlanGaps` | freqtrade/data/history/mysqldatahandler.py:159-183 | fewer than two stored dates gives (True, start, end, None, None) unchanged; otherwise the plan is taken against the span from the least to the greatest stored date |
| `DataHandler.PlanGapsOfTable` | freqtrade/data/history/mysqldatahandler.py:159-183 | against a table with two or more candles, the plan is taken against the span from the first row's date to the last row's, which is non-empty |
| `DataHandler.PlanExamples` | freqtrade/data/history/mysqldatahandler.py:163-183 | against a span of [100, 500]: covered, straddling, left-only, padded-right and padded-left requests; also a single stored date |
| `DataHandler.MysqlDataHandler.constructor` | freqtrade/data/history/mysqldatahandler.py:26-28 | a new handler has an empty registry |
| `DataHandler.MysqlDataHandler.GetOrCreate` | freqtrade/data/history/mysqldatahandler.py:45-50 | a registered name returns its class and changes nothing. A new name registers a fresh class holding the database's rows, then connects it; other entries are unchanged, and a failed connect leaves the class registered without a session |
| `DataHandler.MysqlDataHandler.OhlcvStore` | freqtrade/data/history/mysqldatahandler.py:30-53 | without a database it stores nothing and raises nothing. Otherwise the registry gains exactly the key's table name; no registered class is reconnected and a new one is connected exactly when the engine accepts the URL, as a newly created class; the call succeeds exactly when the table is connected, and then the table's new index is the merge of its old rows with the frame (dates in ms); a failure is the bad-URL error for a new name whose URL the engine rejects, else the missing session, and the table is unchanged. Every other table is unchanged |
| `DataHandler.MysqlDataHandler.OhlcvLoad` | freqtrade/data/history/mysqldatahandler.py:55-91 | without a database it gives an empty frame and registers nothing. Otherwise the registry gains exactly the key's table name, a newly created class for a new name, connected as in the store path; the call succeeds exactly when the table is connected, giving all rows without a range, else the rows in [startts * 1000, stopts * 1000], as tuples; a failure is the bad-URL error for a new name whose URL the engine rejects, else the missing session. No table changes |
| `DataHandler.MysqlDataHandler.QueryDownloadData` | freqtrade/data/history/mysqldatahandler.py:141-183 | without explicit dates at both ends, or without a database, nothing is needed and the registry is unchanged. Otherwise the registry gains exactly the key's table name, a newly created class for a new name, connected as in the store path; the call succeeds exactly when the table is connected, and the plan is PlanGaps over the stored dates; a failure is the bad-URL error for a new name whose URL the engine rejects, else the missing session. No table changes |
| `DataHandler.MysqlDataHandler.OhlcvAppend` | freqtrade/data/history/mysqldatahandler.py:93-107 | always fails as not implemented and changes nothing |
| `DataHandler.MysqlDataHandler.TradesStore` | freqtrade/data/history/mysqldatahandler.py:109-116 | always fails as not implemented and changes nothing |
| `DataHandler.MysqlDataHandler.TradesAppend` | freqtrade/data/history/mysqldatahandler.py:118-125 | always fails as not implemented and changes nothing |
| `DataHandler.MysqlDataHandler.TradesLoad` | freqtrade/data/history/mysqldatahandler.py:127-135 | always fails as not implemented and changes nothing |

## Left out

- Engine creation, `database_exists` / `create_database`, `scoped_session` and `create_all` (ohlcv_model.py:86-93) are foreign I/O. Connecting is a flag on the table class. Whether the driver accepts the URL is a parameter. Failures of an unreachable server are not modelled.
- Session and commit mechanics are not modelled. Each write call is one state transition, and a failed commit leaves the table unchanged. The model does not track that a session whose commit failed stays unusable until it is rolled back (the source never rolls back).
- Result order: `select` carries no ORDER BY. The model returns rows in primary-key order.
- Prices are opaque bit patterns with no arithmetic. The model takes a stored price as exact. It does not model the rounding of the generic `Float()` columns (ohlcv_model.py:37-41), which MySQL keeps in single precision. A price or volume with more significant digits than that therefore comes back from `load` and `lookup_ohlcv` rounded, while the contracts of the write paths and of `OhlcvLoad` promise the frame's value exactly.
- pandas and numpy conversions are left out: `DataFrame`, `to_dict(orient='records')`, `to_datetime` on the read path, `.view(np.int64)`. Only the nanosecond-to-millisecond floor division on the write path is kept. Loaded dates stay in milliseconds.
- Dates are unbounded integers. The int64 range of the frame and of the BIGINT column is not modelled.
- `DataHandler.DateBounds`: the timestamps are taken as `startts * 1000` and `stopts * 1000`, from integer seconds. The float round trip through `datetime.timestamp()` is not modelled.
- `DataHandler.MysqlDataHandler.OhlcvLoad`: the range ends are `startts * 1000` and `stopts * 1000` whatever the kind of each end, as in the source. The TimeRange class and its default timestamps are not part of this model.
- A missing `db_history` key and a `None` value are both `dbHistory == None`.
- `candle_type`, `datadir` and the trade data arguments are left out. The source ignores the candle type and never reads the trade data.
- A frame with columns other than the six mapped ones would fail in the row constructor. Frames are modelled with exactly those six fields.
- Logging, `_get_file_extension` and the column-constant imports have no logic to model.
- The dynamically generated table class is replaced by one class `OhlcvTable` whose instances the registry keys by table name.
- Concurrent use of sessions and concurrent calls on one key are not modelled.
- The model covers one handler per process, over a database nothing else writes to. The generated classes are declared on the process-wide `ModelBase` metadata. A second handler in the same process would fail to declare a table name the first one already declared, and would otherwise share its tables. In the model, each handler has its own registry, snapshot of the database and table objects, so two handlers both succeed and never see each other's writes.
- freqtrade/persistence/strategy_model.py and freqtrade/commands/webserver_commands.py are not part of this model.
