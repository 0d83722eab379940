# Irrigation dashboard: batch ingestion and live feed, modelled in Dafny

The dashboard of the irrigation project has two ways of getting sensor readings.

- **Batch ingestion.** The Node server has two routes, `POST /api/upload-csv` and `POST /api/append-from-esp32`. They turn the rows of a CSV export from the ESP32 logger into rows of the `sensor_data` table. For each record a route:
  - classifies the raw ADC water level into a one-letter status (`H`, `M`, `L`, `E`);
  - reorders the nine fields into the table's column order;
  - inserts the row on one pooled connection inside one transaction, counting the rows that fail without stopping.

  The route then answers with a JSON body chosen by those counts.
- **Live feed.** The browser page keeps one WebSocket to the gateway. It decodes each comma-separated packet with a best-effort parser that never produces NaN and renders the readings. When the socket closes it reconnects after two seconds. It also maps a weather icon code to icon-font classes.

The project has these modules:

| module | file | what it holds |
|---|---|---|
| `Wrappers` | `wrappers.dfy` | `Option` and `Result`. |
| `JsValues` | `js_values.dfy` | JavaScript numbers: finite, infinite or NaN. A comparison against NaN is false. |
| `JsText` | `js_text.dfy` | The JavaScript library pieces the code relies on: `trim`, `trimStart`, ASCII `toUpperCase`, `split` on one character, a count written into a template literal, and the ECMAScript StrDecimalLiteral grammar. That grammar is read by `parseFloat` and by the numeric coercion of a string operand (ToNumber). |
| `WaterLevel` | `water_level.dfy` | The raw-level classifier, in the form each route writes it. |
| `BatchIngestion` | `batch_ingestion.dfy` | Record and row shapes, the insert loops, the transaction block, and the two route handlers. |
| `LivePacket` | `live_packet.dfy` | `safeParseFloat` and the decoding half of the WebSocket message handler. |
| `Forecast` | `forecast.dfy` | `getWeatherIconClass` and how the forecast card calls it. |
| `LiveClient` | `live_client.dfy` | The page's live state as a class `Dashboard`: the status banner, the reading elements, every socket and timer created, and the two handles `websocket` and `reconnectTimer`. The socket handlers and the events the browser delivers are methods. |

The database is an oracle. A `Db` value says how `getConnection`, `beginTransaction`, `commit` and `rollback` turn out, and how the i-th `execute` turns out. Each route is a method that returns:
- the HTTP response, or `NoResponse` when the handler's promise rejects;
- the trace of calls it made on the connection and the file system.

The temporary upload file, the HTTP fetch from the device and the CSV parser's result are also inputs of the route.

Three behaviours of the code that are easy to misread:
- `onClose` overwrites the `reconnectTimer` handle with the new timer and does not clear the timer stored earlier. The model does the same. It then proves, as the invariant `SingleChain`, that the events a browser delivers never leave two reconnect timers pending.
- Only the structural check of `onMessage` (no comma, or fewer than 15 characters) sets the bad-packet banner. A packet with too few fields after the split is dropped, and the banner does not change.
- The icon table of `getWeatherIconClass` has twelve entries, `error` included.

## Model

| member | source | states |
|---|---|---|
| `WaterLevel.NonNumericCellIsE` | Dashboard/server.js:112-122 | A cell that holds no number is stored as `E`: a missing cell (NaN), a blank or all-whitespace text (which a comparison reads as 0), a text whose first non-space character cannot start a decimal literal (NaN), and any text that is not wholly one decimal literal after trimming (NaN). |
| `WaterLevel.TextLevelIgnoresPadding` | Dashboard/server.js:112-114 | Whitespace around a level left as text does not change the number it compares as. |
| `WaterLevel.ClassifyBands` | Dashboard/server.js:111-122 | Both directions for each band of a finite level: `H` iff level ≥ 200, `M` iff 100 < level < 200, `L` iff 0 < level ≤ 100, `E` iff level ≤ 0. NaN and −∞ give `E`; +∞ gives `H`. |
| `WaterLevel.ClassifyDefaultE` | Dashboard/server.js:262-266 | The append route's form of the chain (start at `E`, then override) gives the same status as the upload route's if-chain on every level. |
| `WaterLevel.TextLevelClassifiesLikeNumber` | Dashboard/server.js:112-122 | A level the parser left as the text of a count classifies exactly like that count. |
| `BatchIngestion.Bind` | Dashboard/server.js:56-66 | The nine cells of a data line are bound to the nine header names by position, so the record's columns in header order are the cells. |
| `BatchIngestion.ToDbRowKeepsFields` | Dashboard/server.js:125-135 | The row's status is the classification of the raw level. The row holds every other field of the record unchanged, reordered to the table's columns: the record can be rebuilt from the row and the raw level. The round trip alone would hold for any reordering applied consistently; the column order itself is the one `ToDbRow` writes, which follows the column list of the INSERT at server.js:100-105. |
| `BatchIngestion.ToDbRows` | Dashboard/server.js:108-135 | One row per record. |
| `BatchIngestion.ToDbRowsPointwise` | Dashboard/server.js:108-135 | The k-th row is the mapped row of the k-th record. |
| `BatchIngestion.ExecuteCalls` | Dashboard/server.js:137 | One `execute` per row, in row order. Commit, rollback, release and unlink never appear among them. |
| `BatchIngestion.FailedRowsExact` | Dashboard/server.js:137-143 | The failing row indices: all below n, all failing, strictly ascending, and every failing index below n is listed. |
| `BatchIngestion.UploadErrorsNameFailedRows` | Dashboard/server.js:139-142 | The k-th error message is `Row <i+1>: <message>` for the k-th failing row i, and there are as many messages as failing rows. |
| `BatchIngestion.Reported` | Dashboard/server.js:162 | At most five errors are reported. They are a prefix of the error list, and their count is min(5, number of errors). |
| `BatchIngestion.ReportedNameFailedRows` | Dashboard/server.js:139-162 | The k-th reported error is the `Row <i+1>: <message>` text of the k-th failing row i. |
| `BatchIngestion.FailedRowsEarliest` | Dashboard/server.js:137-143 | Every failing row before the k-th failing row is among the first k failing rows. |
| `BatchIngestion.ReportedAreEarliest` | Dashboard/server.js:139-162 | Each reported error belongs to a failing row, and every failing row before it has already been reported. So the reported rows are the earliest failures, in ascending order. |
| `BatchIngestion.InsertUploadRows` | Dashboard/server.js:108-144 | Every record is attempted once, in order, as its mapped row. inserted + failed = number of records. failed = number of failing rows. The error list is exactly `UploadErrors`. |
| `BatchIngestion.InsertAppendRows` | Dashboard/server.js:259-286 | The same attempts and counts for the append route's loop, which keeps no error list. |
| `BatchIngestion.InsertRows` | Dashboard/server.js:108-144 | Each route's loop gives the attempted rows and the counts, plus the upload route's error list. |
| `BatchIngestion.TransactionAsWritten` | Dashboard/server.js:94-153 | The transaction block with `beginTransaction` outside the `try`, for both routes (the append route's copy is at 244-297). If the begin fails, the trace is acquire then begin, and the connection is never released. When the begin resolves, the trace is: acquire, begin, one execute per row, commit, a rollback if the commit threw, then release. The trace is exactly `AsWrittenTrace`. |
| `BatchIngestion.BlocksDifferOnlyOnFailedBegin` | Dashboard/server.js:94-153 | The source's block and the corrected one make the same calls and rethrow the same error unless the begin throws. Then the source's block stops after the begin and rethrows its error, while the corrected one rolls back, releases, and rethrows the rollback's error if that throws too. |
| `BatchIngestion.Transaction` | Dashboard/server.js:94-153 | The corrected block. It commits iff the acquire, the begin and the commit all resolve. The committed counts are those of the loop. The rethrown error is the rollback's if the rollback threw, otherwise the failing call's. The trace is exactly `TxTrace`. |
| `BatchIngestion.TxTraceReleasesOnce` | Dashboard/server.js:146-153 | In the corrected block (`TxTrace`), after a successful acquire, the connection is released exactly once, as the last call. A rollback happens exactly once when a transaction call fails, and never otherwise. The commit is issued once whenever the transaction began, whatever happened to the rows. |
| `BatchIngestion.UploadSuccessBody` | Dashboard/server.js:158-169 | A committed upload always reports success. The body has an `errors` list iff some row failed. That list is a prefix of the row errors, with at most five entries. |
| `BatchIngestion.UploadTry` | Dashboard/server.js:49-169 | For either transaction block, the route's `try` block succeeds iff the file is read and parsed, the transaction commits and the clean-up resolves. Its body then holds the loop's counts and the first errors. Otherwise it throws the first failure, with the chosen block's error for a failed transaction and the clean-up's error after a commit. The trace is the chosen block's, followed by the clean-up unlink after a commit, and empty when reading or parsing failed. |
| `BatchIngestion.UploadCsv` | Dashboard/server.js:38-181 | For either transaction block: no file gives 400 and nothing touched. Commit plus successful clean-up: 200 with the counts and the first errors. Any other failure: the `catch` removes the file and answers 500 with the error, even when the rows are committed and only the clean-up threw. When the `catch`'s removal throws, the promise rejects and no answer is sent. The clean-up removal and the `catch`'s removal have separate outcomes. The file is left on disk iff the route reaches the `catch` and its removal throws. The trace is exact: one unlink when reading or parsing failed; otherwise the chosen block's trace, then an unlink, and a second unlink after a committed transaction whose clean-up threw. |
| `BatchIngestion.AppendRecords` | Dashboard/server.js:240-304 | Steps 3 and 4 of the append route, for either transaction block: the chosen block's exact trace, then 200 with the count message if it commits, or 500 with the error that block rethrows. |
| `BatchIngestion.AppendFromEsp32` | Dashboard/server.js:202-314 | For either transaction block: a failed fetch or parse answers 500 and touches no connection. An empty payload answers 404. Otherwise the chosen block's exact trace, and 200 with the count message or 500 with the error that block rethrows. The route always answers. |
| `LivePacket.SafeParseFloat` | Dashboard/public/script.js:32-35 | The result is never NaN. It equals `parseFloat`'s result when that is not NaN, and 0 otherwise. It is 0 iff the parse gave NaN or 0. |
| `LivePacket.SafeParseFloatCount` | Dashboard/public/script.js:32-35 | A reading written as a whole count parses back to that count. |
| `LivePacket.Decode` | Dashboard/public/script.js:97-129 | Both rejection conditions, both directions: a bad packet iff there is no comma or fewer than 15 characters. Incomplete iff the structural check passes but there are fewer than 8 commas, with the field count reported as commas + 1. An accepted packet has at least 15 characters and 9 fields. |
| `LivePacket.DecodeFields` | Dashboard/public/script.js:109-129 | Join nine or more comma-free fields into a long enough packet, and it decodes position by position: the time verbatim, fields 1-4 and 6-8 through `safeParseFloat`, field 5 trimmed and upper-cased. |
| `LivePacket.DecodeIgnoresExtraFields` | Dashboard/public/script.js:109-129 | Appending more fields to an accepted packet does not change what is decoded. |
| `LivePacket.StatusCodeShownVerbatim` | Dashboard/public/script.js:125 | A one-character status code padded with whitespace is shown as that character upper-cased. |
| `JsText.Split` | Dashboard/public/script.js:109 | `split(',')` yields one more piece than there are separators. |
| `JsText.SplitPieces` | Dashboard/public/script.js:109 | No piece of a split contains the separator. |
| `JsText.SplitAppend` | Dashboard/public/script.js:109 | Splitting at a separator placed between two strings gives the pieces of each, in order. |
| `JsText.JoinSplit` | Dashboard/public/script.js:109 | Joining the pieces of a split gives back the text. |
| `JsText.SplitJoin` | Dashboard/public/script.js:109 | Splitting a join of separator-free pieces gives back the pieces. |
| `JsText.TrimSpec` | Dashboard/public/script.js:125 | The result of `trim` has non-space ends. It is empty iff the input is all whitespace. |
| `JsText.TrimPadded` | Dashboard/public/script.js:125 | Trimming whitespace-padded text whose ends are non-space gives the text back. |
| `JsText.ToUpper` | Dashboard/public/script.js:125 | Same length, each character mapped, no ASCII lower-case letter left. |
| `JsText.TrimStartSpec` | Dashboard/public/script.js:33 | `parseFloat` first skips leading whitespace. The rest is a suffix of the input, every skipped character is whitespace, and the rest does not start with whitespace. |
| `JsText.TrimEndSpec` | Dashboard/public/script.js:125 | The trailing half of `trim`: a prefix of the input is kept, every dropped character is whitespace, and the kept part does not end with whitespace. |
| `JsText.Show` | Dashboard/server.js:141 | A count in a template literal is written as non-empty decimal digits with no leading zero. |
| `JsText.DigitsValueShow` | Dashboard/server.js:141 | Reading back the digits of a count gives the count. |
| `JsText.ParseFloatShow` | Dashboard/public/script.js:33 | `parseFloat` of a count's digits is that count. |
| `JsText.ToNumberShow` | Dashboard/server.js:114 | Numeric coercion of a count's digits is that count. |
| `JsText.ToNumberRejects` | Dashboard/server.js:114 | Numeric coercion of a text whose first non-space character is not a digit, a sign, a point or the `I` of `Infinity` is NaN. |
| `Forecast.WeatherIconClass` | Dashboard/public/script.js:37-53 | A code in the table gets its entry; any other code gets the default. The default comes out iff the code is outside the table or is `10d`. |
| `Forecast.TableIsStyled` | Dashboard/public/script.js:38-52 | Every entry of the table, and the default, is `fas`, a space, and one space-free icon class. |
| `Forecast.StyledIconTokens` | Dashboard/public/script.js:183 | A class string of that form splits on spaces into exactly `fas` and the icon class. |
| `Forecast.IconClassTokens` | Dashboard/public/script.js:183 | Whatever the code, the renderer adds exactly two classes: `fas` and the icon's own class. |
| `Forecast.ForecastIconClass` | Dashboard/public/script.js:179 | A missing or empty code shows the `04d` icon (`fas fa-cloud-meatball`). Any other code is looked up. |
| `LiveClient.AcceptedPacketShows` | Dashboard/public/script.js:117-151 | For wire text made of nine or more comma-free fields: the packet is accepted, and each reading element shows its own field. Temperature and heat index come from fields 1 and 2, to one decimal. Humidity and rain come from fields 3 and 4, with no decimals and `%`. The water level is field 5 trimmed and upper-cased. The soil beds come from fields 6 to 8, with no decimals and `%`. The raw value is the placeholder `---`, and the last update is `Live: ` followed by field 0. |
| `LiveClient.ClearTimeout` | Dashboard/public/script.js:61-64 | A pending timer becomes cancelled. Every other timer, and a non-pending one, is left as it was. |
| `LiveClient.CloseIfOpen` | Dashboard/public/script.js:66-68 | Only the current socket, and only if it is open, moves to closing. |
| `LiveClient.Dashboard.constructor` | Dashboard/public/script.js:8-9 | The page starts with no socket, no timer and both handles unset. |
| `LiveClient.Dashboard.InitWebSocket` | Dashboard/public/script.js:59-76 | It clears the stored timer and unsets the handle, closes the current socket if it is open, and opens a new current socket. The banner and readings are unchanged. From a quiet page it establishes `SingleChain`. |
| `LiveClient.Dashboard.OnOpen` | Dashboard/public/script.js:78-82 | The banner reads connected, in the success colour. Nothing else changes. |
| `LiveClient.Dashboard.OnClose` | Dashboard/public/script.js:84-90 | The banner reads retrying, in the warning colour. Exactly one new 2000 ms timer is appended and stored as the reconnect timer. Earlier timers are untouched. Sockets and readings are unchanged. |
| `LiveClient.Dashboard.OnMessage` | Dashboard/public/script.js:97-154 | A bad packet: danger banner, readings kept. Incomplete: nothing changes. Accepted: active banner and every reading rendered from the packet. Sockets and timers are unchanged in every case. |
| `LiveClient.Dashboard.PageLoaded` | Dashboard/public/script.js:583-599 | From a quiet page it appends the first socket as the current one, clears a stored timer and unsets the handle, shows the connecting banner in the primary colour, keeps the readings, and establishes `SingleChain`. |
| `LiveClient.Dashboard.SocketOpens` | Dashboard/public/script.js:72 | A connecting socket opens and the connected banner shows. The readings, the timers and both handles are unchanged, and `SingleChain` is kept. |
| `LiveClient.Dashboard.SocketCloses` | Dashboard/public/script.js:73 | A live socket closes, and the retrying banner shows. One 2000 ms timer is appended and stored as the reconnect handle. The earlier timers, the socket handle and the readings are unchanged, and `SingleChain` is kept. |
| `LiveClient.Dashboard.MessageArrives` | Dashboard/public/script.js:74 | An open socket's message has the effect of `OnMessage`. A bad packet sets the danger banner and keeps the readings. An incomplete one changes nothing. An accepted one sets the active banner and renders the packet. Sockets, timers and both handles are unchanged, and `SingleChain` is kept. |
| `LiveClient.Dashboard.TimerFires` | Dashboard/public/script.js:89 | A pending timer fires, then `initWebSocket` runs. The fired timer is marked fired and the stored timer is cleared. The current socket is closed if open and a new current socket is appended. The handle is unset, the banner and readings are unchanged, and `SingleChain` is kept. |
| `LiveClient.AtMostOneReconnect` | Dashboard/public/script.js:84-90 | While `SingleChain` holds, at most one timer is pending. When the handle is set, the pending timer is the stored one; when it is unset, none is pending. |

## Findings

| source | as written | input that shows it | evidently intended | confidence | as-written member | corrected member |
|---|---|---|---|---|---|---|
| Dashboard/server.js:94-95 and 244-245 | `beginTransaction()` is awaited after `getConnection()` but before the `try` whose `finally` releases the connection. | `getConnection` resolves and `beginTransaction` throws: the route answers 500, but the pooled connection is never released. Repeated failures exhaust the pool. | The connection is released on every exit path once acquired. With the begin inside the `try`, a failed begin is rolled back and released like any other transaction error. | not executed | `BatchIngestion.TransactionAsWritten` | `BatchIngestion.Transaction` |

Both route handlers take a `Block` argument. `AsWritten` runs the source's block, and `Corrected` runs the fixed one. `BlocksDifferOnlyOnFailedBegin` states where the two differ.

## Left out

- The CSV tokeniser (`csv-parse` with `from_line`, `skip_empty_lines`, `trim` and automatic casting) is not modelled. Its result enters the routes as a parameter: a list of records whose cells are a number, a text or missing, or a parse error. Cells the caster turns into booleans or dates are not represented.
- The file system, the HTTP fetch from the device, the multer upload and the MySQL pool are modelled only through their outcomes: the `UploadEnv`, `AppendEnv` and `Db` values a route is handed. Logging is left out.
- `UploadCsv`: the model assumes the temporary file still exists when the outer `catch` checks `existsSync`. Nothing else removes it between the two points.
- `NoResponse`: the model stops at the rejected handler promise. Express 4 does not catch a rejected handler promise, so the rejection is unhandled. Since Node 15, an unhandled rejection ends the process by default, which is more than "no answer is sent". The exit of the server process is not modelled.
- The response bodies carry the count messages built from `Show`. Express's JSON serialisation is not modelled.
- Number formatting (`toFixed`) is kept symbolic in `LiveClient.Shown`, and IEEE-754 arithmetic is not modelled. Numbers are exact reals, so `-0` is `0` and decimal literals do not round.
- `JsText.ToNumber` follows only the StrDecimalLiteral part of ECMAScript's StringNumericLiteral. Hexadecimal, octal and binary literals such as `0x1A` are left out because a water-level cell carries none.
- `JsText.ToUpper` maps only the ASCII letters. Non-ASCII case mappings are left out because the status codes are ASCII letters.
- String lengths count code points. UTF-16 code units are not modelled, so a packet with characters outside the Basic Multilingual Plane has a different length.
- `Forecast.WeatherIconClass` treats the table as a map. A lookup of an inherited object key such as `toString` is left out.
- The error handler `onError` only logs, so it is left out.
- The charts, the pump switch, the weather-card text fields other than the icon, and the rest of `fetchDataAndRender` are display-only, so they are left out.
- The ten-minute interval that re-runs `fetchDataAndRender` is left out for the same reason.
- `Dashboard/public/app.js` is not part of this model.
- Line 185 of `Dashboard/server.js` starts with a stray `c` before the append route. It would stop the module from loading, so the model treats the route as the code that follows.
- Browser scheduling is abstracted to the events `SocketOpens`, `SocketCloses`, `MessageArrives` and `TimerFires`. What a real network delivers and when it delivers it are not modelled.
