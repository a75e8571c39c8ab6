# globalmarketcap ingestion core, modelled in Dafny

The service pulls daily price series for four ticker symbols (AAPL, MSFT,
IBM, TSCO.L) from the Alpha Vantage `TIME_SERIES_DAILY` endpoint. It
normalises each date entry into a price record and inserts the records into
one Supabase table per market. The repository has two HTTP handlers for this
job, and both are modelled:

- `api/index.py` (module `Index`) parses a symbol's whole series first and
  inserts only afterwards. It runs the four symbols through
  `asyncio.gather` and answers with `records_inserted`, the count per
  symbol.
- `api/fetch_stock_data.py` (module `FetchStockData`) inserts each record
  as soon as it is parsed. It runs the four symbols one after the other
  and answers 200 only if all four complete.

Shared parts:

- `Normalize` holds the record normaliser: the `"Time Series (Daily)"`
  lookup, the record literal with its five converted fields, and the
  entry-by-entry walk that stops at the first entry that raises.
- `Services` holds the storage and the provider as classes whose state
  changes:
  - `Database.tables` is a map from table name to its rows in insertion
    order;
  - `Provider.requests` is the log of requests sent;
  - `Provider.answer` gives the decoded JSON per request, or `None` when
    the request raises.

  `Services` also holds the environment configuration, the four jobs and
  the response.
- `Wrappers` holds `Option` and `Result`.

Python exceptions become the `Fault` values below. A handler that catches
one answers 500 with it.

| Fault | Raised when |
|---|---|
| `FetchFailed` | the request or its JSON decoding fails |
| `MissingField` | a field is absent (`KeyError`) |
| `NotANumber` | `float()` or `int()` rejects a field (`ValueError`) |

Each fault also records where it arose: the symbol, or the entry's date
and field. That is more than the `str(e)` the 500 body carries.

`float()` and `int()` are the two partial functions of a `Parsers` value.

Both handlers stop at the first exception and answer one 500 carrying it;
neither reports per symbol.

## Model

| member | source | states |
|---|---|---|
| Normalize.TimeSeries | api/index.py:11 | Definition: the entries under the `"Time Series (Daily)"` key, in payload order, or none when the key is absent (`data.get(..., {})`). |
| Normalize.ParseEntry | api/index.py:15-23 | The record is built exactly when all five fields are present and parse: volume with `int()`, the prices with `float()`. The record then carries the symbol argument, the entry's date and each field's converted value. Otherwise the exception is a KeyError or ValueError raised for one of the five fields. The model's fault also records the entry's date and that field. |
| Normalize.ParseEntryFirstBadField | api/index.py:18-22 | A failing entry raises for the first field that is missing or unparsable, in the order open, high, low, close, volume. Every field before that one is valid. A missing field gives KeyError and an unparsable one gives ValueError. |
| Normalize.ParseUntilFailure | api/fetch_stock_data.py:60-70 | Definition: the entry-by-entry walk that builds records and stops at the first entry that raises, keeping the records built before it. |
| Normalize.ParseUntilFailureSpec | api/fetch_stock_data.py:60-70 | The walk yields record i from entry i, in order, up to the first entry that raises, and stops there with that entry's exception. It yields every entry's record exactly when no entry raises. |
| Normalize.ParseUntilFailureAppend | api/fetch_stock_data.py:61-70 | Walking `a + b` means walking `a` and then, only if `a` raised nothing, walking on through `b`. Entries after a failure are never read. |
| Normalize.ParseAll | api/index.py:10-25 | Definition: the walk's records when no entry raised, otherwise only the exception. |
| Normalize.ParseAllSpec | api/index.py:10-25 | `parse_stock_data` returns a list exactly when every entry parses. The list has one record per entry, record i from entry i, in order. Otherwise it raises the first failing entry's exception and returns no partial list. |
| Normalize.AbsentSeriesIsEmpty | api/index.py:11 | A payload without the `"Time Series (Daily)"` key yields an empty list and no exception. |
| Normalize.RecordsComeFromTheirEntries | api/index.py:14-23 | On success, record i carries the symbol argument, entry i's date and entry i's five converted values. It never uses another entry's values. |
| Services.Appended | api/index.py:29 | Appending puts the records after the table's old rows. An empty batch changes nothing. |
| Services.AppendedRows | api/index.py:29 | An insert into one table leaves every other table's rows as they were. |
| Services.AppendedTwice | api/index.py:28-29 | Inserting a batch and then a second batch equals inserting their concatenation. |
| Services.Database.Insert | api/index.py:29 | One `insert(...).execute()` appends exactly that row to the named table and to no other. |
| Services.Fetched | api/index.py:31-35 | Definition: the decoded payload for a request, or the exception the request raised. |
| Services.Provider.Fetch | api/index.py:31-35 | One request is sent and logged. The result is the decoded payload, or the exception of the request. |
| Services.Truthy | api/index.py:51 | Definition: Python truthiness of an environment value, which is set and not the empty string. |
| Services.Configured | api/index.py:51 | Definition: `all([...])` over the Supabase URL, the Supabase key and the API key. |
| Services.RequestsOf | api/index.py:63-68 | The jobs' requests, one per job, in job order, each carrying the symbol and the API key. |
| Index.JobRecords | api/index.py:37-41 | Definition: the records one `fetch_and_store_async` call inserts, or the exception it raises from the fetch or from parsing. |
| Index.ParseStockData | api/index.py:10-25 | The loop computes `ParseAll` over the series under the time-series key: the whole list, or the first entry's exception with no list. |
| Index.InsertStockData | api/index.py:27-29 | The table gains exactly the given records, in order, and every other table is unchanged. |
| Index.FetchAndStore | api/index.py:37-41 | One request is sent. On success, the count returned equals the number of records inserted, and the table gains exactly those records. On an exception from the fetch or from parsing, the same exception is returned and no table changes. |
| Index.JobOutcomes | api/index.py:63-68 | Job i's outcome is the result of `fetch_and_store_async` for symbol i. |
| Index.Gather | api/index.py:63-68 | Definition: `asyncio.gather` over the outcomes in argument order, giving all results or the first exception. |
| Index.GatherSpec | api/index.py:63-68 | `gather` succeeds exactly when every awaitable succeeds, and then returns their results positionally. Otherwise it raises the exception of the first awaitable that raises. |
| Index.StoreAllRows | api/index.py:63-68 | After the four jobs succeed, each table holds its old rows followed by the batches of its own jobs. Each batch is contiguous. The model puts the batches in job order, so NASDAQ gets AAPL's records, then MSFT's. |
| Index.RecordsInsertedCounts | api/index.py:63-73 | After a successful gather, `records_inserted` pairs each symbol, in order, with the number of entries in that symbol's own payload. |
| Index.Zip | api/index.py:73 | `zip` stops at the shorter list and pairs element i with element i. |
| Index.GatherJobs | api/index.py:63-68 | If every job succeeds, the results are the per-job record counts, the tables hold every job's records, and one request per job has been sent. Otherwise the result is the first failing job's exception. |
| Index.FetchStockDataHandler | api/index.py:44-85 | Missing configuration gives 500 with no request and no insert. If every job succeeds, the response is 200 with `records_inserted` zipped from the symbols and the counts. Otherwise it is 500 carrying the first exception. |
| FetchStockData.InsertRun | api/fetch_stock_data.py:53-70 | Definition: what one `fetch_and_insert_data` call inserts, and its exception. A failed fetch inserts nothing. Otherwise the records come from the walk over the time series. |
| FetchStockData.FetchAndInsertData | api/fetch_stock_data.py:53-70 | One request is sent. The table gains the records of the entries before the first one that raises, in order. The call raises that entry's exception, or the fetch's. |
| FetchStockData.AbsentSeriesInsertsNothing | api/fetch_stock_data.py:60-61 | A payload without the `"Time Series (Daily)"` key makes the call insert nothing and raise nothing. |
| FetchStockData.InsertRunVersusJobRecords | api/fetch_stock_data.py:53-70 | The two handlers raise the same exception for a symbol. Without an exception they insert the same records. With one, this handler has already inserted the records of every entry before the failing entry, which the other handler never does. |
| FetchStockData.RunInOrder | api/fetch_stock_data.py:29-33 | Definition: the four calls in order, each appending its records to its table, with the first exception ending the run. |
| FetchStockData.RunInOrderStops | api/fetch_stock_data.py:29-33 | The calls fetch a prefix of the jobs, in order. Every call before the last one sent completed. An exception comes from the last job fetched. Later symbols are never requested. With no exception, all four ran. |
| FetchStockData.RunInOrderRows | api/fetch_stock_data.py:29-33 | Each table ends with its old rows followed by the rows inserted by the jobs that were fetched. Rows inserted before an exception remain. |
| FetchStockData.RunJobs | api/fetch_stock_data.py:25-33 | The four calls in source order leave the storage, the request log and the exception as `RunInOrder` gives them. |
| FetchStockData.DoGet | api/fetch_stock_data.py:9-51 | Missing configuration gives 500 with no request and no insert. Otherwise the storage and the request log follow the run. The response is 200 only when no call raised, and 500 carrying the exception otherwise. |

## Left out

- HTTP plumbing is not modelled: Flask routing, `BaseHTTPRequestHandler` headers and the JSON encoding of the body. Responses are a status and a structured body.
- The `catch_all` 404 route and the Vercel `handler` hook are not modelled.
- Network access and JSON decoding are represented by `Provider.answer`. A response whose top level is not an object, or whose time series is not an object, is not modelled. The payload is a map of sections with ordered entries.
- `float()` and `int()` are supplied parsers, not Python's exact grammars. Prices are mathematical reals, not IEEE doubles.
- `create_client` and `insert(...).execute()` are assumed never to raise. Storage failures, and a client that fails to be created, are not modelled.
- Index.GatherJobs: on an exception, the model states only the returned exception. It does not state which tables were written or which requests were sent. Under `asyncio.gather` the other coroutines interleave at their fetches and keep running after the first exception, so that state depends on scheduling.
- Index.StoreAllRows: the batches on a shared table are in job order, so AAPL's NASDAQ rows come before MSFT's. In the source each job parses and inserts only after its own fetch returns, so the batches arrive in the order the fetches finish. Each batch stays contiguous because parsing and inserting never await.
- Index.GatherJobs: on success, the model fixes the batch order on each table and the request log to job order. The source follows the order in which the concurrent fetches finish.
- Index.FetchStockDataHandler: on success, the model fixes the batch order on each table and the request log to job order. The source follows the order in which the concurrent fetches finish.
- Index.GatherSpec: `gather` is modelled in argument order. The exception it reports is that of the first failing job in that order. Python reports the first one raised in time.
- Normalize.ParseEntry: the fault records the entry's date and the field, and `FetchFailed` records the symbol. Python's `str(e)` in the 500 body carries less. For a `KeyError` it is only the quoted field name. For a `ValueError` it is the conversion message with the rejected text. For a network error it is the library's message. The exact message text is not modelled.
- The `market` argument is passed through but never used, as in the source.
- Nothing checks the values of a record, such as high ≥ low or a non-negative volume. The source does not check them either.
