/**
 * The two batch routes of the dashboard server, `POST /api/upload-csv` and
 * `POST /api/append-from-esp32`.  Each takes the records the CSV parser
 * produced, classifies every raw water level, reorders the fields into the
 * `sensor_data` column order and inserts the rows one at a time inside one
 * transaction, counting what succeeded and what failed, then answers with a
 * JSON body chosen by those counts.
 *
 * The database is an oracle: a `Db` value says how each call on the pooled
 * connection turns out.  Each route is a method that returns the response
 * and the trace of calls it made on the connection and the file system.
 */
module BatchIngestion {
  import opened Wrappers
  import opened JsText
  import opened WaterLevel

  // ---------------------------------------------------------------------
  // Records and rows
  // ---------------------------------------------------------------------

  /** The names the CSV parser binds, by position, to the nine cells of a data line. */
  const Esp32CsvHeaders: seq<string> :=
    ["Timestamp", "Temperature_C", "HeatIndex", "Humidity_Perc", "Rain_Value",
     "WaterLevel_Raw", "Soil1_Perc", "Soil2_Perc", "Soil3_Perc"]

  /** One parsed CSV record, its fields named after `Esp32CsvHeaders`. */
  datatype CsvRecord = CsvRecord(
    timestamp: Cell, temperatureC: Cell, heatIndex: Cell, humidityPerc: Cell, rainValue: Cell,
    waterLevelRaw: Cell, soil1Perc: Cell, soil2Perc: Cell, soil3Perc: Cell)

  /** The cells of a record in header order. */
  function Columns(r: CsvRecord): seq<Cell>
  {
    [r.timestamp, r.temperatureC, r.heatIndex, r.humidityPerc, r.rainValue,
     r.waterLevelRaw, r.soil1Perc, r.soil2Perc, r.soil3Perc]
  }

  /** Binding the cells of a data line to the header names, position by position. */
  function Bind(cells: seq<Cell>): (r: CsvRecord)
    requires |cells| == |Esp32CsvHeaders|
    ensures Columns(r) == cells
  {
    CsvRecord(cells[0], cells[1], cells[2], cells[3], cells[4], cells[5], cells[6], cells[7], cells[8])
  }

  /**
   * The nine values bound to the placeholders of the INSERT into
   * `sensor_data`, in its column order: `timestamp`, `temp_c`,
   * `humidity_perc`, `soil1_perc`, `soil2_perc`, `soil3_perc`,
   * `heat_index`, `water_status`, `rain_perc`.
   */
  datatype DbRow = DbRow(
    timestamp: Cell, tempC: Cell, humidityPerc: Cell, soil1Perc: Cell, soil2Perc: Cell,
    soil3Perc: Cell, heatIndex: Cell, waterStatus: WaterStatus, rainPerc: Cell)

  /**
   * The values array of both routes: the record's cells reordered to the
   * column order, the raw level replaced by its status code.  Nothing else
   * changes, so the record comes back from the row and its raw level.
   */
  function ToDbRow(r: CsvRecord): DbRow
  {
    DbRow(r.timestamp, r.temperatureC, r.humidityPerc, r.soil1Perc, r.soil2Perc,
          r.soil3Perc, r.heatIndex, Classify(LevelOf(r.waterLevelRaw)), r.rainValue)
  }

  /** The row keeps every field but the raw level, and its status is the level's class. */
  lemma ToDbRowKeepsFields(r: CsvRecord)
    ensures FromDbRow(ToDbRow(r), r.waterLevelRaw) == r
    ensures ToDbRow(r).waterStatus == Classify(LevelOf(r.waterLevelRaw))
  {
  }

  /** The record a row was made from, given the raw level the row no longer holds. */
  function FromDbRow(row: DbRow, rawLevel: Cell): CsvRecord
  {
    CsvRecord(row.timestamp, row.tempC, row.heatIndex, row.humidityPerc, row.rainPerc,
              rawLevel, row.soil1Perc, row.soil2Perc, row.soil3Perc)
  }

  /** The rows of a list of records, one per record, in order. */
  function ToDbRows(records: seq<CsvRecord>): (rows: seq<DbRow>)
    ensures |rows| == |records|
    decreases |records|
  {
    if records == [] then []
    else ToDbRows(records[..|records| - 1]) + [ToDbRow(records[|records| - 1])]
  }

  /** The k-th row is the row of the k-th record. */
  lemma {:induction false} ToDbRowsPointwise(records: seq<CsvRecord>)
    ensures forall k :: 0 <= k < |records| ==> ToDbRows(records)[k] == ToDbRow(records[k])
    decreases |records|
  {
    if records != [] {
      var init := records[..|records| - 1];
      ToDbRowsPointwise(init);
      assert forall k :: 0 <= k < |init| ==> init[k] == records[k];
    }
  }

  // ---------------------------------------------------------------------
  // The database oracle and the trace
  // ---------------------------------------------------------------------

  /** How one awaited call turns out: it resolves, or it throws an error with this message. */
  datatype Outcome = Ok | Throws(message: string)

  /**
   * The behaviour of the pool and of the connection it hands out: one
   * outcome per transaction-control call, and the outcome of the i-th
   * `execute` (calls past the end of `execute` succeed).
   */
  datatype Db = Db(
    getConnection: Outcome, beginTransaction: Outcome, execute: seq<Outcome>,
    commit: Outcome, rollback: Outcome)

  function ExecuteOutcome(db: Db, i: nat): Outcome
  {
    if i < |db.execute| then db.execute[i] else Ok
  }

  /** One call a route makes on the pool, the connection or the file system. */
  datatype Effect =
    | GetConnection | BeginTransaction | Execute(row: DbRow) | Commit | Rollback | Release
    | Unlink

  function ExecuteCalls(rows: seq<DbRow>): (calls: seq<Effect>)
    ensures |calls| == |rows|
    ensures forall k :: 0 <= k < |rows| ==> calls[k] == Execute(rows[k])
    ensures Release !in calls && Commit !in calls && Rollback !in calls && Unlink !in calls
  {
    seq(|rows|, k requires 0 <= k < |rows| => Execute(rows[k]))
  }

  // ---------------------------------------------------------------------
  // The per-record insert loop
  // ---------------------------------------------------------------------

  /** The indices, below `n`, of the rows whose `execute` throws, in ascending order. */
  function FailedRows(db: Db, n: nat): (r: seq<nat>)
    ensures |r| <= n
    decreases n
  {
    if n == 0 then []
    else FailedRows(db, n - 1) + (if ExecuteOutcome(db, n - 1).Throws? then [n - 1] else [])
  }

  /**
   * `FailedRows` lists exactly the failing indices below `n`: each entry is
   * below `n` and fails, the entries ascend strictly, and no failing index
   * is missing.
   */
  lemma {:induction false} FailedRowsExact(db: Db, n: nat)
    ensures var r := FailedRows(db, n);
      && (forall k :: 0 <= k < |r| ==> r[k] < n && ExecuteOutcome(db, r[k]).Throws?)
      && (forall k, l :: 0 <= k < l < |r| ==> r[k] < r[l])
      && (forall i :: 0 <= i < n && ExecuteOutcome(db, i).Throws? ==> i in r)
    decreases n
  {
    if n > 0 {
      FailedRowsExact(db, n - 1);
      var prev := FailedRows(db, n - 1);
      var last: seq<nat> := if ExecuteOutcome(db, n - 1).Throws? then [n - 1] else [];
      assert FailedRows(db, n) == prev + last;
      forall i | 0 <= i < n && ExecuteOutcome(db, i).Throws?
        ensures i in prev + last
      {
        if i < n - 1 {
          assert i in prev;
        } else {
          assert i in last;
        }
      }
    }
  }

  /** The message the upload route records for a failed row: `Row <index+1>: <error message>`. */
  function RowErrorText(index: nat, message: string): string
  {
    "Row " + Show(index + 1) + ": " + message
  }

  /** The `errors` array of the upload route after the first `n` records. */
  function UploadErrors(db: Db, n: nat): seq<string>
    decreases n
  {
    if n == 0 then []
    else
      var outcome := ExecuteOutcome(db, n - 1);
      UploadErrors(db, n - 1) + (if outcome.Throws? then [RowErrorText(n - 1, outcome.message)] else [])
  }

  /**
   * There is one upload error per failing row, and the k-th is the
   * `Row <i+1>: <message>` text of the k-th failing row i.
   */
  lemma {:induction false} UploadErrorsNameFailedRows(db: Db, n: nat)
    ensures |UploadErrors(db, n)| == |FailedRows(db, n)|
    ensures forall k :: 0 <= k < |UploadErrors(db, n)| ==>
      var i := FailedRows(db, n)[k];
      ExecuteOutcome(db, i).Throws? && UploadErrors(db, n)[k] == RowErrorText(i, ExecuteOutcome(db, i).message)
    decreases n
  {
    FailedRowsExact(db, n);
    if n > 0 {
      UploadErrorsNameFailedRows(db, n - 1);
    }
  }

  /** The number of row errors the upload route reports. */
  const MaxReportedErrors: nat := 5

  /** `errors.slice(0, 5)`. */
  function Reported(errors: seq<string>): (r: seq<string>)
    ensures |r| <= MaxReportedErrors && r <= errors
    ensures |r| == if |errors| < MaxReportedErrors then |errors| else MaxReportedErrors
  {
    if |errors| <= MaxReportedErrors then errors else errors[..MaxReportedErrors]
  }

  /** The k-th reported error is the `Row <i+1>: <message>` text of the k-th failing row i. */
  lemma ReportedNameFailedRows(db: Db, n: nat, k: nat)
    requires k < |Reported(UploadErrors(db, n))|
    ensures k < |FailedRows(db, n)|
    ensures var i := FailedRows(db, n)[k];
      ExecuteOutcome(db, i).Throws? && Reported(UploadErrors(db, n))[k] == RowErrorText(i, ExecuteOutcome(db, i).message)
  {
    UploadErrorsNameFailedRows(db, n);
  }

  /** Every failing row before the k-th failing row is one of the first k failing rows. */
  lemma FailedRowsEarliest(db: Db, n: nat, k: nat)
    requires k < |FailedRows(db, n)|
    ensures forall i :: 0 <= i < FailedRows(db, n)[k] && ExecuteOutcome(db, i).Throws? ==>
      exists j :: 0 <= j < k && FailedRows(db, n)[j] == i
  {
    FailedRowsExact(db, n);
    var f := FailedRows(db, n);
    forall i | 0 <= i < f[k] && ExecuteOutcome(db, i).Throws?
      ensures exists j :: 0 <= j < k && f[j] == i
    {
      var j :| 0 <= j < |f| && f[j] == i;
    }
  }

  /**
   * The reported errors name the earliest failed rows, one entry each, in
   * ascending row order: every failing row before the k-th reported one
   * has been reported before it.
   */
  lemma ReportedAreEarliest(db: Db, n: nat, k: nat)
    requires k < |Reported(UploadErrors(db, n))|
    ensures k < |FailedRows(db, n)|
    ensures var i := FailedRows(db, n)[k];
      ExecuteOutcome(db, i).Throws? && Reported(UploadErrors(db, n))[k] == RowErrorText(i, ExecuteOutcome(db, i).message)
    ensures forall i :: 0 <= i < FailedRows(db, n)[k] && ExecuteOutcome(db, i).Throws? ==>
      exists j :: 0 <= j < k && FailedRows(db, n)[j] == i
  {
    ReportedNameFailedRows(db, n, k);
    FailedRowsEarliest(db, n, k);
  }

  /** One more record adds one more failing row exactly when its `execute` throws. */
  lemma FailedRowsStep(db: Db, n: nat)
    ensures |FailedRows(db, n + 1)| == |FailedRows(db, n)| + (if ExecuteOutcome(db, n).Throws? then 1 else 0)
  {
  }

  /**
   * The loop of the upload route: every record is attempted once, in
   * order; an `execute` that throws counts as an error and records its
   * message, and the loop goes on.
   */
  method InsertUploadRows(records: seq<CsvRecord>, db: Db)
    returns (inserted: nat, failed: nat, errors: seq<string>, attempted: seq<DbRow>)
    ensures attempted == ToDbRows(records)
    ensures inserted + failed == |records|
    ensures failed == |FailedRows(db, |records|)|
    ensures errors == UploadErrors(db, |records|)
  {
    inserted, failed, errors, attempted := 0, 0, [], [];
    var index := 0;
    while index < |records|
      invariant 0 <= index <= |records|
      invariant inserted + failed == index
      invariant failed == |FailedRows(db, index)|
      invariant errors == UploadErrors(db, index)
      invariant attempted == ToDbRows(records[..index])
    {
      var record := records[index];
      var waterStatus := Classify(LevelOf(record.waterLevelRaw));
      var values := DbRow(record.timestamp, record.temperatureC, record.humidityPerc,
                          record.soil1Perc, record.soil2Perc, record.soil3Perc,
                          record.heatIndex, waterStatus, record.rainValue);
      assert records[..index + 1][..index] == records[..index];
      attempted := attempted + [values];
      FailedRowsStep(db, index);
      var outcome := ExecuteOutcome(db, index);
      if outcome.Ok? {
        inserted := inserted + 1;
      } else {
        failed := failed + 1;
        errors := errors + [RowErrorText(index, outcome.message)];
      }
      index := index + 1;
    }
    assert records[..index] == records;
  }

  /** The loop of the append route: the same attempts and counts, with no error list. */
  method InsertAppendRows(records: seq<CsvRecord>, db: Db)
    returns (inserted: nat, failed: nat, attempted: seq<DbRow>)
    ensures attempted == ToDbRows(records)
    ensures inserted + failed == |records|
    ensures failed == |FailedRows(db, |records|)|
  {
    inserted, failed, attempted := 0, 0, [];
    var index := 0;
    while index < |records|
      invariant 0 <= index <= |records|
      invariant inserted + failed == index
      invariant failed == |FailedRows(db, index)|
      invariant attempted == ToDbRows(records[..index])
    {
      var record := records[index];
      var waterStatus := ClassifyDefaultE(LevelOf(record.waterLevelRaw));
      var values := DbRow(record.timestamp, record.temperatureC, record.humidityPerc,
                          record.soil1Perc, record.soil2Perc, record.soil3Perc,
                          record.heatIndex, waterStatus, record.rainValue);
      assert records[..index + 1][..index] == records[..index];
      attempted := attempted + [values];
      FailedRowsStep(db, index);
      if ExecuteOutcome(db, index).Ok? {
        inserted := inserted + 1;
      } else {
        failed := failed + 1;
      }
      index := index + 1;
    }
    assert records[..index] == records;
  }

  // ---------------------------------------------------------------------
  // The transaction around the loop
  // ---------------------------------------------------------------------

  datatype Route = Upload | Append

  /** What the transaction block hands back to the route: the counts, or the error it rethrows. */
  datatype TxResult = Committed(inserted: nat, failed: nat, errors: seq<string>) | Threw(message: string)

  /** The transaction commits: the connection is acquired, the transaction begins and the commit resolves. */
  predicate TxSucceeds(db: Db)
  {
    db.getConnection.Ok? && db.beginTransaction.Ok? && db.commit.Ok?
  }

  /** The counts of a committed transaction, and the error list the route keeps. */
  predicate Accounted(route: Route, records: seq<CsvRecord>, db: Db, tx: TxResult)
    requires tx.Committed?
  {
    && tx.inserted + tx.failed == |records|
    && tx.failed == |FailedRows(db, |records|)|
    && tx.errors == (if route == Upload then UploadErrors(db, |records|) else [])
  }

  /** The loop of the given route. */
  method InsertRows(route: Route, records: seq<CsvRecord>, db: Db)
    returns (inserted: nat, failed: nat, errors: seq<string>, attempted: seq<DbRow>)
    ensures attempted == ToDbRows(records)
    ensures Accounted(route, records, db, Committed(inserted, failed, errors))
  {
    if route == Upload {
      inserted, failed, errors, attempted := InsertUploadRows(records, db);
    } else {
      inserted, failed, attempted := InsertAppendRows(records, db);
      errors := [];
    }
  }

  /**
   * The error the transaction block of the source rethrows: the failing
   * acquisition or begin, or, when the commit throws, the rollback's error
   * if the rollback throws too and the commit's otherwise.
   */
  function AsWrittenError(db: Db): string
    requires !TxSucceeds(db)
  {
    if db.getConnection.Throws? then db.getConnection.message
    else if db.beginTransaction.Throws? then db.beginTransaction.message
    else if db.rollback.Throws? then db.rollback.message
    else db.commit.message
  }

  /**
   * The calls the source's transaction block makes: acquire; begin; when
   * the begin resolves, one `execute` per record, the commit, a rollback
   * when the commit throws, and the release.  A failed begin ends the
   * block with no release.
   */
  function AsWrittenTrace(records: seq<CsvRecord>, db: Db): seq<Effect>
  {
    if db.getConnection.Throws? then [GetConnection]
    else if db.beginTransaction.Throws? then [GetConnection] + [BeginTransaction]
    else
      var ran := [GetConnection] + [BeginTransaction] + ExecuteCalls(ToDbRows(records)) + [Commit];
      (if db.commit.Throws? then ran + [Rollback] else ran) + [Release]
  }

  /**
   * The transaction block as the source has it (server.js 94-153 and
   * 244-297): `getConnection` and `beginTransaction` are awaited before
   * the `try`, so a `beginTransaction` that throws leaves the block with
   * the connection never released.
   */
  method TransactionAsWritten(route: Route, records: seq<CsvRecord>, db: Db)
    returns (tx: TxResult, trace: seq<Effect>)
    ensures tx.Committed? <==> TxSucceeds(db)
    ensures tx.Committed? ==> Accounted(route, records, db, tx)
    ensures tx.Threw? ==> tx.message == AsWrittenError(db)
    ensures db.getConnection.Throws? ==> trace == [GetConnection]
    ensures db.getConnection.Ok? && db.beginTransaction.Throws? ==>
      trace == [GetConnection] + [BeginTransaction] && Release !in trace
    ensures db.getConnection.Ok? && db.beginTransaction.Ok? ==>
      var ran := [GetConnection] + [BeginTransaction] + ExecuteCalls(ToDbRows(records)) + [Commit];
      trace == (if db.commit.Throws? then ran + [Rollback] else ran) + [Release]
    ensures trace == AsWrittenTrace(records, db)
  {
    trace := [GetConnection];
    if db.getConnection.Throws? {
      return Threw(db.getConnection.message), trace;
    }
    trace := trace + [BeginTransaction];
    if db.beginTransaction.Throws? {
      return Threw(db.beginTransaction.message), trace;
    }
    var inserted, failed, errors, attempted := InsertRows(route, records, db);
    trace := trace + ExecuteCalls(attempted) + [Commit];
    if db.commit.Ok? {
      tx := Committed(inserted, failed, errors);
    } else {
      trace := trace + [Rollback];
      tx := Threw(if db.rollback.Throws? then db.rollback.message else db.commit.message);
    }
    trace := trace + [Release];
  }

  /** The error the corrected block rethrows: as before, except that a failed begin is rolled back first. */
  function TxError(db: Db): string
    requires !TxSucceeds(db)
  {
    if db.getConnection.Throws? then db.getConnection.message
    else if db.rollback.Throws? then db.rollback.message
    else if db.beginTransaction.Throws? then db.beginTransaction.message
    else db.commit.message
  }

  /**
   * The calls the corrected transaction block makes: acquire; then begin;
   * when the begin resolves, one `execute` per record in order and the
   * commit; a rollback when a transaction-control call threw; the release.
   */
  function TxTrace(records: seq<CsvRecord>, db: Db): seq<Effect>
  {
    if db.getConnection.Throws? then [GetConnection]
    else
      var begun := [GetConnection] + [BeginTransaction];
      var ran := if db.beginTransaction.Ok? then begun + ExecuteCalls(ToDbRows(records)) + [Commit] else begun;
      var settled := if TxSucceeds(db) then ran else ran + [Rollback];
      settled + [Release]
  }

  /**
   * Once the connection is acquired it is released exactly once, as the
   * last call; a rollback happens exactly when a transaction-control call
   * throws; the commit is issued whenever the transaction began, whatever
   * became of the rows.
   */
  lemma TxTraceReleasesOnce(records: seq<CsvRecord>, db: Db)
    ensures var t := TxTrace(records, db);
      && (db.getConnection.Ok? ==> multiset(t)[Release] == 1 && t[|t| - 1] == Release)
      && (db.getConnection.Throws? ==> Release !in t)
      && multiset(t)[Rollback] == (if db.getConnection.Ok? && !TxSucceeds(db) then 1 else 0)
      && (db.getConnection.Ok? && db.beginTransaction.Ok? ==> multiset(t)[Commit] == 1)
  {
    var calls := ExecuteCalls(ToDbRows(records));
    assert multiset(calls)[Release] == 0 && multiset(calls)[Rollback] == 0 && multiset(calls)[Commit] == 0;
  }

  /**
   * The transaction block with `beginTransaction` moved inside the `try`,
   * so that a failed begin is rolled back and the connection released like
   * any other transaction error.
   */
  method Transaction(route: Route, records: seq<CsvRecord>, db: Db)
    returns (tx: TxResult, trace: seq<Effect>)
    ensures tx.Committed? <==> TxSucceeds(db)
    ensures tx.Committed? ==> Accounted(route, records, db, tx)
    ensures tx.Threw? ==> tx.message == TxError(db)
    ensures trace == TxTrace(records, db)
  {
    trace := [GetConnection];
    if db.getConnection.Throws? {
      return Threw(db.getConnection.message), trace;
    }
    trace := trace + [BeginTransaction];
    var failure: Option<string> := None;
    if db.beginTransaction.Throws? {
      failure := Some(db.beginTransaction.message);
    } else {
      var inserted, failed, errors, attempted := InsertRows(route, records, db);
      trace := trace + ExecuteCalls(attempted) + [Commit];
      if db.commit.Ok? {
        tx := Committed(inserted, failed, errors);
      } else {
        failure := Some(db.commit.message);
      }
    }
    if failure.Some? {
      trace := trace + [Rollback];
      tx := Threw(if db.rollback.Throws? then db.rollback.message else failure.value);
    }
    trace := trace + [Release];
  }

  /** Which transaction block a route runs: the source's, or the corrected one. */
  datatype Block = AsWritten | Corrected

  /** The error the chosen block rethrows. */
  function BlockError(block: Block, db: Db): string
    requires !TxSucceeds(db)
  {
    if block == AsWritten then AsWrittenError(db) else TxError(db)
  }

  /** The calls the chosen block makes. */
  function BlockTrace(block: Block, records: seq<CsvRecord>, db: Db): seq<Effect>
  {
    if block == AsWritten then AsWrittenTrace(records, db) else TxTrace(records, db)
  }

  /**
   * The two blocks differ only when `beginTransaction` throws: then the
   * source's block skips the rollback and the release and rethrows the
   * begin's error, where the corrected one rolls back and releases.
   */
  lemma BlocksDifferOnlyOnFailedBegin(records: seq<CsvRecord>, db: Db)
    ensures db.getConnection.Throws? || db.beginTransaction.Ok? ==>
      BlockTrace(AsWritten, records, db) == BlockTrace(Corrected, records, db) &&
      (!TxSucceeds(db) ==> BlockError(AsWritten, db) == BlockError(Corrected, db))
    ensures db.getConnection.Ok? && db.beginTransaction.Throws? ==>
      && BlockTrace(AsWritten, records, db) == [GetConnection, BeginTransaction]
      && BlockTrace(Corrected, records, db) == [GetConnection, BeginTransaction, Rollback, Release]
      && BlockError(AsWritten, db) == db.beginTransaction.message
      && BlockError(Corrected, db) == (if db.rollback.Throws? then db.rollback.message else db.beginTransaction.message)
  {
  }

  /** The chosen block. */
  method RunBlock(block: Block, route: Route, records: seq<CsvRecord>, db: Db)
    returns (tx: TxResult, trace: seq<Effect>)
    ensures tx.Committed? <==> TxSucceeds(db)
    ensures tx.Committed? ==> Accounted(route, records, db, tx)
    ensures tx.Threw? ==> tx.message == BlockError(block, db)
    ensures trace == BlockTrace(block, records, db)
  {
    if block == AsWritten {
      tx, trace := TransactionAsWritten(route, records, db);
    } else {
      tx, trace := Transaction(route, records, db);
    }
  }

  // ---------------------------------------------------------------------
  // Responses
  // ---------------------------------------------------------------------

  /** The JSON body of a response; `errors` and `error` are present only on some paths. */
  datatype Body = Body(success: bool, message: string, errors: Option<seq<string>>, error: Option<string>)

  /** The route answers with a status and a body, or its promise rejects and no answer is sent. */
  datatype Response = Responded(status: nat, body: Body) | NoResponse(rejection: string)

  const NoFileBody: Body := Body(false, "No file uploaded.", None, None)

  const UploadFailureMessage: string :=
    "Failed to process and append data. Check CSV format or server log."

  function PartialMessage(inserted: nat, failed: nat): string
  {
    "CSV partially processed. " + Show(inserted) + " rows inserted, " + Show(failed) + " errors."
  }

  /** The body of a committed upload: partial success with the first errors when a row failed, plain success otherwise. */
  function UploadSuccessBody(inserted: nat, failed: nat, errors: seq<string>): (b: Body)
    ensures b.success && b.error.None?
    ensures failed > 0 <==> b.errors.Some?
    ensures b.errors.Some? ==> |b.errors.value| <= MaxReportedErrors && b.errors.value <= errors
  {
    if failed > 0 then
      Body(true, PartialMessage(inserted, failed), Some(Reported(errors)), None)
    else
      Body(true, "Successfully uploaded CSV. " + Show(inserted) + " rows appended to database.", None, None)
  }

  /** The message of a committed append. */
  function AppendSuccessMessage(inserted: nat, failed: nat): string
  {
    if failed > 0 then PartialMessage(inserted, failed) + " Please check server logs."
    else "Successfully appended " + Show(inserted) + " rows from ESP32."
  }

  // ---------------------------------------------------------------------
  // POST /api/upload-csv
  // ---------------------------------------------------------------------

  /**
   * What the upload route meets: whether reading the temporary file throws,
   * what the CSV parser produced, the database, whether the clean-up
   * `unlinkSync` after the transaction throws, and whether the `unlinkSync`
   * of the `catch` throws.
   */
  datatype UploadEnv = UploadEnv(
    readFile: Outcome, parsed: Result<seq<CsvRecord>, string>, db: Db, cleanup: Outcome, catchUnlink: Outcome)

  /** Everything up to the clean-up succeeds: the file is read, parsed, and the transaction commits. */
  predicate UploadCommits(env: UploadEnv)
  {
    env.readFile.Ok? && env.parsed.Success? && TxSucceeds(env.db)
  }

  /** The error the outer `catch` of the upload route receives. */
  function UploadError(block: Block, env: UploadEnv): string
    requires !(UploadCommits(env) && env.cleanup.Ok?)
  {
    if env.readFile.Throws? then env.readFile.message
    else if env.parsed.Failure? then env.parsed.error
    else if !TxSucceeds(env.db) then BlockError(block, env.db)
    else env.cleanup.message
  }

  /**
   * The `try` block of the upload route: read and parse the file, run the
   * transaction, remove the file and build the body; or the error the block
   * throws, which leaves the file on disk.
   */
  method UploadTry(block: Block, env: UploadEnv) returns (outcome: Result<Body, string>, trace: seq<Effect>)
    ensures outcome.Success? <==> UploadCommits(env) && env.cleanup.Ok?
    ensures outcome.Success? ==>
      var records := env.parsed.value;
      var failed := |FailedRows(env.db, |records|)|;
      outcome.value == UploadSuccessBody(|records| - failed, failed, UploadErrors(env.db, |records|))
    ensures outcome.Failure? ==> outcome.error == UploadError(block, env)
    ensures env.readFile.Throws? || env.parsed.Failure? ==> trace == []
    ensures env.readFile.Ok? && env.parsed.Success? ==>
      trace == BlockTrace(block, env.parsed.value, env.db) + (if TxSucceeds(env.db) then [Unlink] else [])
  {
    trace := [];
    if env.readFile.Throws? {
      return Failure(env.readFile.message), trace;
    }
    if env.parsed.Failure? {
      return Failure(env.parsed.error), trace;
    }
    var tx;
    tx, trace := RunBlock(block, Upload, env.parsed.value, env.db);
    if tx.Threw? {
      return Failure(tx.message), trace;
    }
    trace := trace + [Unlink];
    if env.cleanup.Throws? {
      return Failure(env.cleanup.message), trace;
    }
    assert tx.inserted == |env.parsed.value| - |FailedRows(env.db, |env.parsed.value|)|;
    outcome := Success(UploadSuccessBody(tx.inserted, tx.failed, tx.errors));
  }

  /**
   * The upload route, running the given transaction block.  Without a
   * file: 400 and nothing else happens.  Otherwise the temporary file is
   * removed once on success; on any failure the `catch` removes it (it is
   * still on disk then) and answers 500, unless that removal throws, in
   * which case no answer is sent.  A clean-up removal that throws after the
   * commit therefore ends in a 500 although the rows are committed.
   * `fileRemains` says whether the temporary file is left on disk.
   */
  method UploadCsv(hasFile: bool, block: Block, env: UploadEnv)
    returns (resp: Response, trace: seq<Effect>, fileRemains: bool)
    ensures !hasFile ==> resp == Responded(400, NoFileBody) && trace == [] && !fileRemains
    ensures hasFile && UploadCommits(env) && env.cleanup.Ok? ==>
      var records := env.parsed.value;
      var failed := |FailedRows(env.db, |records|)|;
      resp == Responded(200, UploadSuccessBody(|records| - failed, failed, UploadErrors(env.db, |records|)))
    ensures hasFile && !(UploadCommits(env) && env.cleanup.Ok?) ==>
      resp == (if env.catchUnlink.Ok? then Responded(500, Body(false, UploadFailureMessage, None, Some(UploadError(block, env))))
               else NoResponse(env.catchUnlink.message))
    ensures fileRemains <==> hasFile && !(UploadCommits(env) && env.cleanup.Ok?) && env.catchUnlink.Throws?
    ensures hasFile && (env.readFile.Throws? || env.parsed.Failure?) ==> trace == [Unlink]
    ensures hasFile && env.readFile.Ok? && env.parsed.Success? ==>
      trace == BlockTrace(block, env.parsed.value, env.db) + [Unlink]
               + (if TxSucceeds(env.db) && env.cleanup.Throws? then [Unlink] else [])
  {
    if !hasFile {
      return Responded(400, NoFileBody), [], false;
    }
    var outcome;
    outcome, trace := UploadTry(block, env);
    if outcome.Success? {
      return Responded(200, outcome.value), trace, false;
    }
    // The `catch`: the file is still on disk, so it is removed.
    trace := trace + [Unlink];
    if env.catchUnlink.Throws? {
      return NoResponse(env.catchUnlink.message), trace, true;
    }
    resp := Responded(500, Body(false, UploadFailureMessage, None, Some(outcome.error)));
    fileRemains := false;
  }

  // ---------------------------------------------------------------------
  // POST /api/append-from-esp32
  // ---------------------------------------------------------------------

  /** What the append route meets: the HTTP fetch of the device's export, the parser's result, the database. */
  datatype AppendEnv = AppendEnv(fetch: Result<string, string>, parsed: Result<seq<CsvRecord>, string>, db: Db)

  const NoDataBody: Body := Body(false, "No data received from ESP32 endpoint.", None, None)

  function AppendFailureBody(message: string): Body
  {
    Body(false, "Failed to fetch or process data: " + message, None, None)
  }

  /**
   * Steps 3 and 4 of the append route, on the parsed records: the
   * transaction, then 200 with a message chosen by the counts, or 500
   * with the error the transaction rethrows.
   */
  method AppendRecords(block: Block, records: seq<CsvRecord>, db: Db) returns (resp: Response, trace: seq<Effect>)
    ensures var failed := |FailedRows(db, |records|)|;
      TxSucceeds(db) ==> resp == Responded(200, Body(true, AppendSuccessMessage(|records| - failed, failed), None, None))
    ensures !TxSucceeds(db) ==> resp == Responded(500, AppendFailureBody(BlockError(block, db)))
    ensures trace == BlockTrace(block, records, db)
  {
    var tx;
    tx, trace := RunBlock(block, Append, records, db);
    if tx.Threw? {
      resp := Responded(500, AppendFailureBody(tx.message));
    } else {
      assert tx.inserted == |records| - |FailedRows(db, |records|)|;
      resp := Responded(200, Body(true, AppendSuccessMessage(tx.inserted, tx.failed), None, None));
    }
  }

  /**
   * The append route, running the given transaction block.  A failed fetch or parse answers 500 and touches no
   * connection; an empty payload answers 404; otherwise the transaction
   * runs and the route answers 200 with a message chosen by the counts, or
   * 500 with the rethrown error.
   */
  method AppendFromEsp32(block: Block, env: AppendEnv) returns (resp: Response, trace: seq<Effect>)
    ensures env.fetch.Failure? ==> resp == Responded(500, AppendFailureBody(env.fetch.error)) && trace == []
    ensures env.fetch.Success? && env.fetch.value == [] ==> resp == Responded(404, NoDataBody) && trace == []
    ensures env.fetch.Success? && env.fetch.value != [] && env.parsed.Failure? ==>
      resp == Responded(500, AppendFailureBody(env.parsed.error)) && trace == []
    ensures env.fetch.Success? && env.fetch.value != [] && env.parsed.Success? ==>
      var records := env.parsed.value;
      var failed := |FailedRows(env.db, |records|)|;
      && (TxSucceeds(env.db) ==>
            resp == Responded(200, Body(true, AppendSuccessMessage(|records| - failed, failed), None, None)))
      && (!TxSucceeds(env.db) ==> resp == Responded(500, AppendFailureBody(BlockError(block, env.db))))
      && trace == BlockTrace(block, records, env.db)
    ensures resp.Responded?
  {
    trace := [];
    if env.fetch.Failure? {
      return Responded(500, AppendFailureBody(env.fetch.error)), trace;
    }
    if |env.fetch.value| == 0 {
      return Responded(404, NoDataBody), trace;
    }
    if env.parsed.Failure? {
      return Responded(500, AppendFailureBody(env.parsed.error)), trace;
    }
    resp, trace := AppendRecords(block, env.parsed.value, env.db);
  }
}
