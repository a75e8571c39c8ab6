/**
 * api/index.py: the Flask handler that fetches the four symbols (through
 * asyncio.gather), parses each payload completely and only then inserts
 * its rows.
 */
module Index {
  import opened Wrappers
  import opened Normalize
  import opened Services

  /** `parse_stock_data`: builds the list in a loop; any exception aborts the whole call. */
  method ParseStockData(data: Payload, symbol: string, p: Parsers) returns (r: Result<seq<PriceRecord>, Fault>)
    ensures r == ParseAll(symbol, TimeSeries(data), p)
  {
    var series := TimeSeries(data);
    var parsed: seq<PriceRecord> := [];
    for i := 0 to |series|
      invariant ParseUntilFailure(symbol, series[..i], p) == Parsed(parsed, None)
    {
      var record := ParseEntry(symbol, series[i], p);
      ParseStep(symbol, series, i, p);
      if record.Failure? {
        ParseStops(symbol, series, i + 1, p);
        return Failure(record.error);
      }
      parsed := parsed + [record.value];
    }
    assert series[..|series|] == series;
    r := Success(parsed);
  }

  /** `insert_stock_data`: one insert per record, in order, all into one table. */
  method InsertStockData(records: seq<PriceRecord>, tableName: string, db: Database)
    modifies db
    ensures db.tables == Appended(old(db.tables), tableName, records)
  {
    for i := 0 to |records|
      invariant db.tables == Appended(old(db.tables), tableName, records[..i])
    {
      db.Insert(tableName, records[i]);
      AppendedTwice(old(db.tables), tableName, records[..i], [records[i]]);
      assert records[..i] + [records[i]] == records[..i + 1];
    }
    assert records[..|records|] == records;
  }

  /** The records one job would insert: its payload parsed completely, or the exception it raises. */
  function JobRecords(answer: Request -> Option<Payload>, symbol: string, apiKey: string, p: Parsers)
    : Result<seq<PriceRecord>, Fault>
  {
    match Fetched(answer, Request(symbol, apiKey))
    case Failure(f) => Failure(f)
    case Success(data) => ParseAll(symbol, TimeSeries(data), p)
  }

  /**
   * `fetch_and_store_async`: fetch, parse everything, then insert; returns
   * the number of rows inserted. A failure inserts nothing.
   */
  method FetchAndStore(symbol: string, market: string, tableName: string, db: Database, apiKey: string,
                       provider: Provider, p: Parsers)
    returns (r: Result<nat, Fault>)
    modifies db, provider
    ensures provider.requests == old(provider.requests) + [Request(symbol, apiKey)]
    ensures match JobRecords(provider.answer, symbol, apiKey, p)
      case Success(records) =>
        r == Success(|records|) && db.tables == Appended(old(db.tables), tableName, records)
      case Failure(f) =>
        r == Failure(f) && db.tables == old(db.tables)
  {
    var raw := provider.Fetch(Request(symbol, apiKey));
    if raw.Failure? {
      return Failure(raw.error);
    }
    var parsed := ParseStockData(raw.value, symbol, p);
    if parsed.Failure? {
      return Failure(parsed.error);
    }
    InsertStockData(parsed.value, tableName, db);
    r := Success(|parsed.value|);
  }

  /** The keys of `records_inserted`, zipped positionally with the gathered counts. */
  const SYMBOLS: seq<string> := ["AAPL", "MSFT", "IBM", "TSCO.L"]

  /** Each job's outcome, positionally: what `asyncio.gather` collects. */
  function JobOutcomes(jobs: seq<Job>, answer: Request -> Option<Payload>, apiKey: string, p: Parsers)
    : (r: seq<Result<seq<PriceRecord>, Fault>>)
    ensures |r| == |jobs|
    ensures forall i | 0 <= i < |jobs| :: r[i] == JobRecords(answer, jobs[i].symbol, apiKey, p)
    decreases |jobs|
  {
    if jobs == [] then []
    else [JobRecords(answer, jobs[0].symbol, apiKey, p)] + JobOutcomes(jobs[1..], answer, apiKey, p)
  }

  /**
   * `asyncio.gather` with its awaitables evaluated in argument order: the
   * results positionally, or the exception of the first one that raises.
   */
  function Gather<T, E>(outcomes: seq<Result<T, E>>): Result<seq<T>, E>
    decreases |outcomes|
  {
    if outcomes == [] then Success([])
    else match outcomes[0]
      case Failure(e) => Failure(e)
      case Success(v) =>
        match Gather(outcomes[1..])
        case Failure(e) => Failure(e)
        case Success(rest) => Success([v] + rest)
  }

  /**
   * Gather succeeds exactly when every awaitable does, with their results
   * positionally; otherwise it raises the exception of the first one that
   * raises.
   */
  lemma {:induction false} GatherSpec<T, E>(outcomes: seq<Result<T, E>>)
    ensures var r := Gather(outcomes);
      && (r.Success? <==> forall i | 0 <= i < |outcomes| :: outcomes[i].Success?)
      && (r.Success? ==>
        && |r.value| == |outcomes|
        && forall i | 0 <= i < |outcomes| :: outcomes[i] == Success(r.value[i]))
      && (r.Failure? ==>
        exists k | 0 <= k < |outcomes| ::
          && (forall i | 0 <= i < k :: outcomes[i].Success?)
          && outcomes[k] == Failure(r.error))
    decreases |outcomes|
  {
    if outcomes != [] {
      GatherSpec(outcomes[1..]);
      if outcomes[0].Success? && Gather(outcomes[1..]).Failure? {
        var k :| 0 <= k < |outcomes[1..]|
          && (forall i | 0 <= i < k :: outcomes[1..][i].Success?)
          && outcomes[1..][k] == Failure(Gather(outcomes[1..]).error);
        assert forall i | 0 <= i < k + 1 :: outcomes[i].Success? by {
          forall i | 0 <= i < k + 1 ensures outcomes[i].Success? {
            if i > 0 { assert outcomes[i] == outcomes[1..][i - 1]; }
          }
        }
        assert outcomes[k + 1] == Failure(Gather(outcomes).error);
      }
      if Gather(outcomes).Success? {
        forall i | 0 <= i < |outcomes| ensures outcomes[i] == Success(Gather(outcomes).value[i]) {
          if i > 0 { assert outcomes[i] == outcomes[1..][i - 1]; }
        }
      }
      if !Gather(outcomes).Success? && outcomes[0].Success? {
        assert Gather(outcomes[1..]).Failure?;
      }
    }
  }

  /** The tables after each job's batch is appended to its job's table, jobs in order. */
  function StoreAll(tables: Tables, jobs: seq<Job>, batches: seq<seq<PriceRecord>>): Tables
    decreases |jobs|
  {
    if jobs == [] || batches == [] then tables
    else StoreAll(Appended(tables, jobs[0].table, batches[0]), jobs[1..], batches[1..])
  }

  /** The batches of the jobs that write to table `name`, concatenated in job order. */
  function BatchesFor(name: string, jobs: seq<Job>, batches: seq<seq<PriceRecord>>): seq<PriceRecord>
    decreases |jobs|
  {
    if jobs == [] || batches == [] then []
    else (if jobs[0].table == name then batches[0] else []) + BatchesFor(name, jobs[1..], batches[1..])
  }

  /** Each table ends with its old rows followed by the batches of its own jobs, in job order. */
  lemma {:induction false} StoreAllRows(tables: Tables, jobs: seq<Job>, batches: seq<seq<PriceRecord>>, name: string)
    ensures Rows(StoreAll(tables, jobs, batches), name) == Rows(tables, name) + BatchesFor(name, jobs, batches)
    decreases |jobs|
  {
    if jobs != [] && batches != [] {
      var next := Appended(tables, jobs[0].table, batches[0]);
      var own := if jobs[0].table == name then batches[0] else [];
      var later := BatchesFor(name, jobs[1..], batches[1..]);
      assert StoreAll(tables, jobs, batches) == StoreAll(next, jobs[1..], batches[1..]);
      assert BatchesFor(name, jobs, batches) == own + later;
      StoreAllRows(next, jobs[1..], batches[1..], name);
      AppendedRows(tables, jobs[0].table, batches[0], name);
      assert Rows(tables, name) + own + later == Rows(tables, name) + (own + later);
    }
  }

  /** The number of records in each batch: the list `gather` returns. */
  function Counts(batches: seq<seq<PriceRecord>>): seq<nat>
  {
    seq(|batches|, i requires 0 <= i < |batches| => |batches[i]|)
  }

  /**
   * After a successful gather, `records_inserted` pairs each job's symbol,
   * in job order, with the number of entries under the time-series key of
   * that symbol's own payload.
   */
  lemma RecordsInsertedCounts(answer: Request -> Option<Payload>, apiKey: string, p: Parsers,
                              batches: seq<seq<PriceRecord>>)
    requires Gather(JobOutcomes(JOBS, answer, apiKey, p)) == Success(batches)
    ensures var pairs := Zip(SYMBOLS, Counts(batches));
      && |pairs| == |JOBS|
      && forall i | 0 <= i < |JOBS| ::
        && pairs[i].0 == JOBS[i].symbol
        && answer(Request(JOBS[i].symbol, apiKey)).Some?
        && pairs[i].1 == |TimeSeries(answer(Request(JOBS[i].symbol, apiKey)).value)|
  {
    var outcomes := JobOutcomes(JOBS, answer, apiKey, p);
    GatherSpec(outcomes);
    assert SYMBOLS[0] == JOBS[0].symbol && SYMBOLS[1] == JOBS[1].symbol;
    assert SYMBOLS[2] == JOBS[2].symbol && SYMBOLS[3] == JOBS[3].symbol;
    forall i | 0 <= i < |JOBS|
      ensures answer(Request(JOBS[i].symbol, apiKey)).Some?
      ensures |batches[i]| == |TimeSeries(answer(Request(JOBS[i].symbol, apiKey)).value)|
    {
      var request := Request(JOBS[i].symbol, apiKey);
      assert outcomes[i] == Success(batches[i]);
      ParseAllSpec(JOBS[i].symbol, TimeSeries(answer(request).value), p);
    }
  }

  /** `dict(zip(keys, values))` as its ordered list of pairs: it stops at the shorter list. */
  function Zip<K, V>(keys: seq<K>, values: seq<V>): (r: seq<(K, V)>)
    ensures |r| == if |keys| <= |values| then |keys| else |values|
    ensures forall i | 0 <= i < |r| :: r[i] == (keys[i], values[i])
    decreases |keys|
  {
    if keys == [] || values == [] then [] else [(keys[0], values[0])] + Zip(keys[1..], values[1..])
  }

  /** Gather over four outcomes, unfolded: the first failure decides, else all four values. */
  lemma GatherFour<T, E>(r0: Result<T, E>, r1: Result<T, E>, r2: Result<T, E>, r3: Result<T, E>)
    ensures Gather([r0, r1, r2, r3]) ==
      if r0.Failure? then Failure(r0.error)
      else if r1.Failure? then Failure(r1.error)
      else if r2.Failure? then Failure(r2.error)
      else if r3.Failure? then Failure(r3.error)
      else Success([r0.value, r1.value, r2.value, r3.value])
  {
    var s3, s2, s1, s0 := [r3], [r2, r3], [r1, r2, r3], [r0, r1, r2, r3];
    assert s3[1..] == [] && s2[1..] == s3 && s1[1..] == s2 && s0[1..] == s1;
    assert s3[0] == r3 && s2[0] == r2 && s1[0] == r1 && s0[0] == r0;
    if r0.Failure? {
    } else if r1.Failure? {
      assert Gather(s1) == Failure(r1.error);
    } else if r2.Failure? {
      assert Gather(s2) == Failure(r2.error);
      assert Gather(s1) == Failure(r2.error);
    } else if r3.Failure? {
      assert Gather(s3) == Failure(r3.error);
      assert Gather(s2) == Failure(r3.error);
      assert Gather(s1) == Failure(r3.error);
    } else {
      assert [r3.value] + [] == [r3.value];
      assert Gather(s3) == Success([r3.value]);
      assert [r2.value] + [r3.value] == [r2.value, r3.value];
      assert Gather(s2) == Success([r2.value, r3.value]);
      assert [r1.value] + [r2.value, r3.value] == [r1.value, r2.value, r3.value];
      assert Gather(s1) == Success([r1.value, r2.value, r3.value]);
      assert [r0.value] + [r1.value, r2.value, r3.value] == [r0.value, r1.value, r2.value, r3.value];
    }
  }

  /** StoreAll over the four fixed jobs, unfolded into four appends. */
  lemma StoreAllJobs(tables: Tables, batches: seq<seq<PriceRecord>>)
    requires |batches| == |JOBS|
    ensures StoreAll(tables, JOBS, batches) ==
      Appended(Appended(Appended(Appended(tables, JOBS[0].table, batches[0]),
        JOBS[1].table, batches[1]), JOBS[2].table, batches[2]), JOBS[3].table, batches[3])
  {
    assert JOBS[1..][1..][1..][1..] == [];
  }

  /** Counts of four batches. */
  lemma CountsFour(batches: seq<seq<PriceRecord>>)
    requires |batches| == 4
    ensures Counts(batches) == [|batches[0]|, |batches[1]|, |batches[2]|, |batches[3]|]
  {
  }

  /** Four single appends are one append of four. */
  lemma AppendFour<T>(s: seq<T>, x0: T, x1: T, x2: T, x3: T)
    ensures s + [x0] + [x1] + [x2] + [x3] == s + [x0, x1, x2, x3]
  {
  }

  /** RequestsOf over the four fixed jobs. */
  lemma RequestsOfJobs(apiKey: string)
    ensures RequestsOf(JOBS, apiKey) ==
      [Request(JOBS[0].symbol, apiKey), Request(JOBS[1].symbol, apiKey),
       Request(JOBS[2].symbol, apiKey), Request(JOBS[3].symbol, apiKey)]
  {
  }

  /**
   * `await asyncio.gather(...)` over the four `fetch_and_store_async` calls,
   * run in argument order: the counts positionally, or the first exception.
   */
  method GatherJobs(db: Database, apiKey: string, provider: Provider, p: Parsers)
    returns (results: Result<seq<nat>, Fault>)
    modifies db, provider
    ensures match Gather(JobOutcomes(JOBS, provider.answer, apiKey, p))
      case Success(batches) =>
        && results == Success(Counts(batches))
        && db.tables == StoreAll(old(db.tables), JOBS, batches)
        && provider.requests == old(provider.requests) + RequestsOf(JOBS, apiKey)
      case Failure(f) =>
        results == Failure(f)
  {
    ghost var tables0 := db.tables;
    ghost var requests0 := provider.requests;
    ghost var outcomes := JobOutcomes(JOBS, provider.answer, apiKey, p);
    GatherFour(outcomes[0], outcomes[1], outcomes[2], outcomes[3]);
    assert outcomes == [outcomes[0], outcomes[1], outcomes[2], outcomes[3]];
    var aapl :- FetchAndStore(JOBS[0].symbol, JOBS[0].market, JOBS[0].table, db, apiKey, provider, p);
    var msft :- FetchAndStore(JOBS[1].symbol, JOBS[1].market, JOBS[1].table, db, apiKey, provider, p);
    var ibm :- FetchAndStore(JOBS[2].symbol, JOBS[2].market, JOBS[2].table, db, apiKey, provider, p);
    var tsco :- FetchAndStore(JOBS[3].symbol, JOBS[3].market, JOBS[3].table, db, apiKey, provider, p);
    results := Success([aapl, msft, ibm, tsco]);
    ghost var batches := Gather(outcomes).value;
    assert batches == [outcomes[0].value, outcomes[1].value, outcomes[2].value, outcomes[3].value];
    CountsFour(batches);
    StoreAllJobs(tables0, batches);
    RequestsOfJobs(apiKey);
    AppendFour(requests0, Request(JOBS[0].symbol, apiKey), Request(JOBS[1].symbol, apiKey),
      Request(JOBS[2].symbol, apiKey), Request(JOBS[3].symbol, apiKey));
  }

  /**
   * `fetch_stock_data_handler`: the configuration gate, then the four jobs,
   * then `records_inserted` zipped from the symbols and the counts; an
   * exception from any job becomes a 500 carrying it.
   */
  method FetchStockDataHandler(config: Config, db: Database, provider: Provider, p: Parsers)
    returns (resp: Response)
    modifies db, provider
    ensures !Configured(config) ==>
      resp == Response(500, NotConfigured) && unchanged(db) && unchanged(provider)
    ensures Configured(config) ==>
      match Gather(JobOutcomes(JOBS, provider.answer, config.apiKey.value, p))
      case Success(batches) =>
        && resp == Response(200, Inserted(Some(Zip(SYMBOLS, Counts(batches)))))
        && db.tables == StoreAll(old(db.tables), JOBS, batches)
        && provider.requests == old(provider.requests) + RequestsOf(JOBS, config.apiKey.value)
      case Failure(f) =>
        resp == Response(500, Raised(f))
  {
    if !Configured(config) {
      return Response(500, NotConfigured);
    }
    var results := GatherJobs(db, config.apiKey.value, provider, p);
    if results.Failure? {
      return Response(500, Raised(results.error));
    }
    resp := Response(200, Inserted(Some(Zip(SYMBOLS, results.value))));
  }
}
