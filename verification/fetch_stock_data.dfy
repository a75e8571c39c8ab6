/**
 * api/fetch_stock_data.py: the sequential handler. Each entry is parsed and
 * inserted before the next is read, and the four symbols run one after the
 * other, so an exception leaves everything inserted before it in place.
 */
module FetchStockData {
  import opened Wrappers
  import opened Normalize
  import opened Services
  import Index

  /**
   * What one `fetch_and_insert_data` call inserts, and the exception that
   * stops it: nothing when the fetch raises, otherwise the records of the
   * entries before the first one that raises.
   */
  function InsertRun(answer: Request -> Option<Payload>, symbol: string, apiKey: string, p: Parsers): Parsed
  {
    match Fetched(answer, Request(symbol, apiKey))
    case Failure(f) => Parsed([], Some(f))
    case Success(data) => ParseUntilFailure(symbol, TimeSeries(data), p)
  }

  /** `Handler.fetch_and_insert_data`: one fetch, then parse-and-insert entry by entry. */
  method FetchAndInsertData(symbol: string, market: string, tableName: string, db: Database, apiKey: string,
                            provider: Provider, p: Parsers)
    returns (fault: Option<Fault>)
    modifies db, provider
    ensures provider.requests == old(provider.requests) + [Request(symbol, apiKey)]
    ensures var run := InsertRun(provider.answer, symbol, apiKey, p);
      fault == run.fault && db.tables == Appended(old(db.tables), tableName, run.records)
  {
    var data := provider.Fetch(Request(symbol, apiKey));
    if data.Failure? {
      return Some(data.error);
    }
    var series := TimeSeries(data.value);
    ghost var inserted: seq<PriceRecord> := [];
    for i := 0 to |series|
      invariant provider.requests == old(provider.requests) + [Request(symbol, apiKey)]
      invariant ParseUntilFailure(symbol, series[..i], p) == Parsed(inserted, None)
      invariant db.tables == Appended(old(db.tables), tableName, inserted)
    {
      var record := ParseEntry(symbol, series[i], p);
      ParseStep(symbol, series, i, p);
      if record.Failure? {
        ParseStops(symbol, series, i + 1, p);
        return Some(record.error);
      }
      db.Insert(tableName, record.value);
      AppendedTwice(old(db.tables), tableName, inserted, [record.value]);
      inserted := inserted + [record.value];
    }
    assert series[..|series|] == series;
    fault := None;
  }

  /** A payload without the time-series key: the call inserts nothing and raises nothing. */
  lemma AbsentSeriesInsertsNothing(answer: Request -> Option<Payload>, symbol: string, apiKey: string, p: Parsers)
    requires answer(Request(symbol, apiKey)).Some?
    requires TIME_SERIES_KEY !in answer(Request(symbol, apiKey)).value.sections
    ensures InsertRun(answer, symbol, apiKey, p) == Parsed([], None)
  {
  }

  /**
   * Both handlers raise the same exception for a symbol and, without one,
   * insert the same records; with one, index.py's job has inserted nothing
   * while this one keeps the records of the entries before the failing one.
   */
  lemma InsertRunVersusJobRecords(answer: Request -> Option<Payload>, symbol: string, apiKey: string, p: Parsers)
    ensures var run := InsertRun(answer, symbol, apiKey, p);
      match Index.JobRecords(answer, symbol, apiKey, p)
      case Success(records) => run == Parsed(records, None)
      case Failure(f) =>
        && run.fault == Some(f)
        && (answer(Request(symbol, apiKey)).Some? ==>
          var series := TimeSeries(answer(Request(symbol, apiKey)).value);
          && |run.records| < |series|
          && (forall i | 0 <= i < |run.records| :: ParseEntry(symbol, series[i], p) == Success(run.records[i]))
          && ParseEntry(symbol, series[|run.records|], p) == Failure(f))
  {
    if answer(Request(symbol, apiKey)).Some? {
      ParseUntilFailureSpec(symbol, TimeSeries(answer(Request(symbol, apiKey)).value), p);
    }
  }

  /** Each job's `fetch_and_insert_data` run, positionally. */
  function InsertRuns(jobs: seq<Job>, answer: Request -> Option<Payload>, apiKey: string, p: Parsers): seq<Parsed>
  {
    seq(|jobs|, i requires 0 <= i < |jobs| => InsertRun(answer, jobs[i].symbol, apiKey, p))
  }

  /** The storage after a run, the requests it sent, and the exception that ended it. */
  datatype Progress = Progress(tables: Tables, sent: seq<Request>, fault: Option<Fault>)

  /**
   * The jobs run one after the other, job i inserting the records of
   * `runs[i]` and raising its exception; an exception ends the run, so
   * later jobs are never fetched.
   */
  function RunInOrder(tables: Tables, jobs: seq<Job>, runs: seq<Parsed>, apiKey: string): Progress
    decreases |jobs|
  {
    if jobs == [] || runs == [] then Progress(tables, [], None)
    else
      var request := Request(jobs[0].symbol, apiKey);
      var next := Appended(tables, jobs[0].table, runs[0].records);
      if runs[0].fault.Some? then Progress(next, [request], runs[0].fault)
      else
        var rest := RunInOrder(next, jobs[1..], runs[1..], apiKey);
        Progress(rest.tables, [request] + rest.sent, rest.fault)
  }

  /**
   * A run fetches a prefix of the jobs, in order, and stops after the first
   * one that raises: every job before it completed, and with no exception
   * every job ran.
   */
  lemma {:induction false} RunInOrderStops(tables: Tables, jobs: seq<Job>, runs: seq<Parsed>, apiKey: string)
    requires |runs| == |jobs|
    ensures var r := RunInOrder(tables, jobs, runs, apiKey);
      && |r.sent| <= |jobs|
      && (forall i | 0 <= i < |r.sent| :: r.sent[i] == Request(jobs[i].symbol, apiKey))
      && (r.fault.None? ==> |r.sent| == |jobs|)
      && (forall i | 0 <= i < |r.sent| && (r.fault.None? || i < |r.sent| - 1) :: runs[i].fault.None?)
      && (r.fault.Some? ==> 0 < |r.sent| && runs[|r.sent| - 1].fault == r.fault)
    decreases |jobs|
  {
    if jobs != [] && runs[0].fault.None? {
      var next := Appended(tables, jobs[0].table, runs[0].records);
      RunInOrderStops(next, jobs[1..], runs[1..], apiKey);
      var rest := RunInOrder(next, jobs[1..], runs[1..], apiKey);
      forall i | 0 < i < 1 + |rest.sent|
        ensures jobs[i] == jobs[1..][i - 1] && runs[i] == runs[1..][i - 1]
      {
      }
    }
  }

  /** The rows the first `count` jobs insert into table `name`, concatenated in job order. */
  function RowsFor(name: string, jobs: seq<Job>, runs: seq<Parsed>, count: nat): seq<PriceRecord>
    decreases |jobs|
  {
    if jobs == [] || runs == [] || count == 0 then []
    else
      (if jobs[0].table == name then runs[0].records else [])
      + RowsFor(name, jobs[1..], runs[1..], count - 1)
  }

  /**
   * After a run each table holds its old rows followed by the rows of the
   * fetched jobs that write to it, in job order: rows inserted before an
   * exception stay, and a job after it adds none.
   */
  lemma {:induction false} RunInOrderRows(tables: Tables, jobs: seq<Job>, runs: seq<Parsed>, apiKey: string, name: string)
    ensures var r := RunInOrder(tables, jobs, runs, apiKey);
      Rows(r.tables, name) == Rows(tables, name) + RowsFor(name, jobs, runs, |r.sent|)
    decreases |jobs|
  {
    if jobs != [] && runs != [] {
      var next := Appended(tables, jobs[0].table, runs[0].records);
      var own := if jobs[0].table == name then runs[0].records else [];
      AppendedRows(tables, jobs[0].table, runs[0].records, name);
      var r := RunInOrder(tables, jobs, runs, apiKey);
      if runs[0].fault.Some? {
        assert r.tables == next && |r.sent| == 1;
        assert RowsFor(name, jobs, runs, 1) == own + [];
        assert own + [] == own;
      } else {
        RunInOrderRows(next, jobs[1..], runs[1..], apiKey, name);
        var rest := RunInOrder(next, jobs[1..], runs[1..], apiKey);
        assert r.tables == rest.tables && |r.sent| == 1 + |rest.sent|;
        var later := RowsFor(name, jobs[1..], runs[1..], |rest.sent|);
        assert RowsFor(name, jobs, runs, 1 + |rest.sent|) == own + later;
        Associative(Rows(tables, name), own, later);
      }
    } else {
      assert RowsFor(name, jobs, runs, 0) == [];
      assert Rows(tables, name) + [] == Rows(tables, name);
    }
  }

  /** One unfolding of RunInOrder. */
  lemma RunInOrderStep(tables: Tables, jobs: seq<Job>, runs: seq<Parsed>, apiKey: string)
    requires jobs != [] && runs != []
    ensures RunInOrder(tables, jobs, runs, apiKey) ==
      var request := Request(jobs[0].symbol, apiKey);
      var next := Appended(tables, jobs[0].table, runs[0].records);
      if runs[0].fault.Some? then Progress(next, [request], runs[0].fault)
      else
        var rest := RunInOrder(next, jobs[1..], runs[1..], apiKey);
        Progress(rest.tables, [request] + rest.sent, rest.fault)
  {
  }

  lemma Associative<T>(a: seq<T>, b: seq<T>, c: seq<T>)
    ensures (a + b) + c == a + (b + c)
  {
  }

  /**
   * The `try` block of `Handler.do_GET`: the four calls in order, stopping
   * at the first exception.
   */
  method RunJobs(db: Database, apiKey: string, provider: Provider, p: Parsers) returns (fault: Option<Fault>)
    modifies db, provider
    ensures var run := RunInOrder(old(db.tables), JOBS, InsertRuns(JOBS, provider.answer, apiKey, p), apiKey);
      && fault == run.fault
      && db.tables == run.tables
      && provider.requests == old(provider.requests) + run.sent
  {
    ghost var runs := InsertRuns(JOBS, provider.answer, apiKey, p);
    ghost var j1, j2, j3 := JOBS[1..], JOBS[2..], JOBS[3..];
    ghost var r1, r2, r3 := runs[1..], runs[2..], runs[3..];
    assert j3[1..] == [] && j2[1..] == j3 && j1[1..] == j2;
    assert j3[0] == JOBS[3] && j2[0] == JOBS[2] && j1[0] == JOBS[1];
    assert r3[1..] == [] && r2[1..] == r3 && r1[1..] == r2;
    assert r3[0] == runs[3] && r2[0] == runs[2] && r1[0] == runs[1];
    ghost var start := provider.requests;
    ghost var run0 := RunInOrder(db.tables, JOBS, runs, apiKey);
    RunInOrderStep(db.tables, JOBS, runs, apiKey);
    fault := FetchAndInsertData(JOBS[0].symbol, JOBS[0].market, JOBS[0].table, db, apiKey, provider, p);
    ghost var sent := [Request(JOBS[0].symbol, apiKey)];
    if fault.Some? {
      assert run0.sent == sent;
      return;
    }
    ghost var run1 := RunInOrder(db.tables, j1, r1, apiKey);
    assert run0.sent == sent + run1.sent;
    RunInOrderStep(db.tables, j1, r1, apiKey);
    fault := FetchAndInsertData(JOBS[1].symbol, JOBS[1].market, JOBS[1].table, db, apiKey, provider, p);
    Associative(start, sent, [Request(JOBS[1].symbol, apiKey)]);
    Associative(sent, [Request(JOBS[1].symbol, apiKey)], RunInOrder(db.tables, j2, r2, apiKey).sent);
    sent := sent + [Request(JOBS[1].symbol, apiKey)];
    if fault.Some? {
      assert run0.sent == sent;
      return;
    }
    ghost var run2 := RunInOrder(db.tables, j2, r2, apiKey);
    assert run0.sent == sent + run2.sent;
    RunInOrderStep(db.tables, j2, r2, apiKey);
    fault := FetchAndInsertData(JOBS[2].symbol, JOBS[2].market, JOBS[2].table, db, apiKey, provider, p);
    Associative(start, sent, [Request(JOBS[2].symbol, apiKey)]);
    Associative(sent, [Request(JOBS[2].symbol, apiKey)], RunInOrder(db.tables, j3, r3, apiKey).sent);
    sent := sent + [Request(JOBS[2].symbol, apiKey)];
    if fault.Some? {
      assert run0.sent == sent;
      return;
    }
    ghost var run3 := RunInOrder(db.tables, j3, r3, apiKey);
    assert run0.sent == sent + run3.sent;
    RunInOrderStep(db.tables, j3, r3, apiKey);
    fault := FetchAndInsertData(JOBS[3].symbol, JOBS[3].market, JOBS[3].table, db, apiKey, provider, p);
    assert RunInOrder(db.tables, [], [], apiKey) == Progress(db.tables, [], None);
    Associative(start, sent, [Request(JOBS[3].symbol, apiKey)]);
    assert [Request(JOBS[3].symbol, apiKey)] + [] == [Request(JOBS[3].symbol, apiKey)];
  }

  /**
   * `Handler.do_GET`: the configuration gate, then the four symbols in
   * order; 200 only if every call completed, otherwise 500 with the exception.
   */
  method DoGet(config: Config, db: Database, provider: Provider, p: Parsers) returns (resp: Response)
    modifies db, provider
    ensures !Configured(config) ==>
      resp == Response(500, NotConfigured) && unchanged(db) && unchanged(provider)
    ensures Configured(config) ==>
      var apiKey := config.apiKey.value;
      var run := RunInOrder(old(db.tables), JOBS, InsertRuns(JOBS, provider.answer, apiKey, p), apiKey);
      && db.tables == run.tables
      && provider.requests == old(provider.requests) + run.sent
      && resp == match run.fault
        case None => Response(200, Inserted(None))
        case Some(f) => Response(500, Raised(f))
  {
    if !Configured(config) {
      return Response(500, NotConfigured);
    }
    var fault := RunJobs(db, config.apiKey.value, provider, p);
    if fault.Some? {
      return Response(500, Raised(fault.value));
    }
    resp := Response(200, Inserted(None));
  }
}
