/**
 * The collaborators both handlers share: the storage tables reached through
 * the Supabase client, the market-data provider, the environment
 * configuration, the fixed job list and the HTTP response.
 */
module Services {
  import opened Wrappers
  import opened Normalize

  /** The storage: each table name with its rows, in insertion order. */
  type Tables = map<string, seq<PriceRecord>>

  /** The rows of a table; a table never written to has none. */
  function Rows(tables: Tables, name: string): seq<PriceRecord>
  {
    if name in tables then tables[name] else []
  }

  /** The tables after `records` are appended to table `name`; appending nothing changes nothing. */
  function Appended(tables: Tables, name: string, records: seq<PriceRecord>): (r: Tables)
    ensures Rows(r, name) == Rows(tables, name) + records
    ensures records == [] ==> r == tables
  {
    if records == [] then tables else tables[name := Rows(tables, name) + records]
  }

  /** Appending to one table leaves every other table's rows as they were. */
  lemma AppendedRows(tables: Tables, name: string, records: seq<PriceRecord>, other: string)
    ensures Rows(Appended(tables, name, records), other) ==
      Rows(tables, other) + (if other == name then records else [])
  {
    if other != name || records == [] {
      assert Rows(tables, other) + [] == Rows(tables, other);
    }
  }

  /** Appending two batches one after the other is appending their concatenation. */
  lemma AppendedTwice(tables: Tables, name: string, a: seq<PriceRecord>, b: seq<PriceRecord>)
    ensures Appended(Appended(tables, name, a), name, b) == Appended(tables, name, a + b)
  {
    assert Rows(tables, name) + a + b == Rows(tables, name) + (a + b);
  }

  /** The storage reached through `create_client`; `insert(...).execute()` appends one row. */
  class Database {
    var tables: Tables

    constructor (initial: Tables)
      ensures tables == initial
    {
      tables := initial;
    }

    method Insert(name: string, record: PriceRecord)
      modifies this
      ensures tables == Appended(old(tables), name, [record])
    {
      tables := Appended(tables, name, [record]);
    }
  }

  /** The TIME_SERIES_DAILY query: the URL carries the symbol and the API key. */
  datatype Request = Request(symbol: string, apiKey: string)

  /**
   * The Alpha Vantage endpoint. `answer` gives the decoded JSON for a
   * request, or None when the request or the JSON decoding raises;
   * `requests` records every request sent, in order.
   */
  class Provider {
    const answer: Request -> Option<Payload>
    var requests: seq<Request>

    constructor (answer: Request -> Option<Payload>)
      ensures this.answer == answer && requests == []
    {
      this.answer := answer;
      requests := [];
    }

    method Fetch(request: Request) returns (r: Result<Payload, Fault>)
      modifies this
      ensures requests == old(requests) + [request]
      ensures r == Fetched(answer, request)
    {
      requests := requests + [request];
      r := Fetched(answer, request);
    }
  }

  /** What a fetch yields: the payload, or the exception it raised. */
  function Fetched(answer: Request -> Option<Payload>, request: Request): Result<Payload, Fault>
  {
    match answer(request)
    case Some(data) => Success(data)
    case None => Failure(FetchFailed(request.symbol))
  }

  /** One per-symbol unit of work: the symbol, its market and its destination table. */
  datatype Job = Job(symbol: string, market: string, table: string)

  /** The four jobs both handlers run, in source order. */
  const JOBS: seq<Job> := [
    Job("AAPL", "NASDAQ", "nasdaq_historical_prices"),
    Job("MSFT", "NASDAQ", "nasdaq_historical_prices"),
    Job("IBM", "NYSE", "nyse_historical_prices"),
    Job("TSCO.L", "LSE", "lse_historical_prices")
  ]

  /** The requests the jobs send, in order, with one API key. */
  function RequestsOf(jobs: seq<Job>, apiKey: string): (r: seq<Request>)
    ensures |r| == |jobs|
    ensures forall i | 0 <= i < |jobs| :: r[i] == Request(jobs[i].symbol, apiKey)
  {
    if jobs == [] then [] else [Request(jobs[0].symbol, apiKey)] + RequestsOf(jobs[1..], apiKey)
  }

  /** SUPABASE_URL, SUPABASE_KEY and ALPHA_VANTAGE_API_KEY as read from the environment. */
  datatype Config = Config(supabaseUrl: Option<string>, supabaseKey: Option<string>, apiKey: Option<string>)

  /** Python truthiness of an environment value: set and not empty. */
  predicate Truthy(v: Option<string>)
  {
    v.Some? && v.value != ""
  }

  /** `all([supabase_url, supabase_key, alpha_vantage_api_key])` */
  predicate Configured(c: Config)
  {
    Truthy(c.supabaseUrl) && Truthy(c.supabaseKey) && Truthy(c.apiKey)
  }

  /**
   * The JSON body: success (with the per-symbol counts where the handler
   * reports them), the configuration error, or the message of the exception.
   */
  datatype Body =
    | Inserted(recordsInserted: Option<seq<(string, nat)>>)
    | NotConfigured
    | Raised(fault: Fault)

  datatype Response = Response(status: nat, body: Body)
}
