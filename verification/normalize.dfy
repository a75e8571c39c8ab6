/**
 * The record normaliser: turns the "Time Series (Daily)" object of an
 * Alpha Vantage TIME_SERIES_DAILY payload into price records.
 */
module Normalize {
  import opened Wrappers

  const TIME_SERIES_KEY := "Time Series (Daily)"

  const OPEN := "1. open"
  const HIGH := "2. high"
  const LOW := "3. low"
  const CLOSE := "4. close"
  const VOLUME := "5. volume"

  /** The five fields of a daily entry, in the order the record literal reads them. */
  const FIELDS: seq<string> := [OPEN, HIGH, LOW, CLOSE, VOLUME]

  /** One date entry of the time series: the date key and its field/value strings. */
  datatype Entry = Entry(date: string, values: map<string, string>)

  /**
   * A decoded provider response: each top-level object key with its nested
   * object, whose entries keep the JSON key order.
   */
  datatype Payload = Payload(sections: map<string, seq<Entry>>)

  /** The row inserted into a price table. */
  datatype PriceRecord = PriceRecord(
    symbol: string,
    date: string,
    open: real,
    high: real,
    low: real,
    close: real,
    volume: int)

  /** The exceptions the ingestion path can raise. */
  datatype Fault =
    | FetchFailed(symbol: string)                          // the request or its JSON decoding raised
    | MissingField(date: string, field: string)            // KeyError on values[field]
    | NotANumber(date: string, field: string, text: string) // ValueError from float() or int()

  /** Python's float() and int() on strings, as partial functions. */
  datatype Parsers = Parsers(toFloat: string -> Option<real>, toInt: string -> Option<int>)

  /** `data.get("Time Series (Daily)", {})`, as its list of entries. */
  function TimeSeries(data: Payload): seq<Entry>
  {
    if TIME_SERIES_KEY in data.sections then data.sections[TIME_SERIES_KEY] else []
  }

  /** The field is present and parses as its type: int for the volume, float otherwise. */
  predicate FieldValid(e: Entry, field: string, p: Parsers)
  {
    field in e.values &&
    if field == VOLUME then p.toInt(e.values[field]).Some? else p.toFloat(e.values[field]).Some?
  }

  /** Every one of the five fields is valid. */
  predicate EntryValid(e: Entry, p: Parsers)
  {
    FieldValid(e, OPEN, p) && FieldValid(e, HIGH, p) && FieldValid(e, LOW, p) &&
    FieldValid(e, CLOSE, p) && FieldValid(e, VOLUME, p)
  }

  /** The exception raised when the field is not valid: KeyError if absent, ValueError otherwise. */
  function FieldFault(e: Entry, field: string): Fault
  {
    if field in e.values then NotANumber(e.date, field, e.values[field])
    else MissingField(e.date, field)
  }

  function Price(e: Entry, field: string, p: Parsers): Result<real, Fault>
  {
    if field !in e.values then Failure(MissingField(e.date, field))
    else match p.toFloat(e.values[field])
      case None => Failure(NotANumber(e.date, field, e.values[field]))
      case Some(x) => Success(x)
  }

  function Volume(e: Entry, p: Parsers): Result<int, Fault>
  {
    if VOLUME !in e.values then Failure(MissingField(e.date, VOLUME))
    else match p.toInt(e.values[VOLUME])
      case None => Failure(NotANumber(e.date, VOLUME, e.values[VOLUME]))
      case Some(n) => Success(n)
  }

  /**
   * The record literal built for one entry: the fields are read and
   * converted in order, and the first one that is missing or does not parse
   * raises.
   */
  function ParseEntry(symbol: string, e: Entry, p: Parsers): (r: Result<PriceRecord, Fault>)
    ensures r.Success? <==> EntryValid(e, p)
    ensures r.Success? ==>
      && r.value.symbol == symbol
      && r.value.date == e.date
      && r.value.open == p.toFloat(e.values[OPEN]).value
      && r.value.high == p.toFloat(e.values[HIGH]).value
      && r.value.low == p.toFloat(e.values[LOW]).value
      && r.value.close == p.toFloat(e.values[CLOSE]).value
      && r.value.volume == p.toInt(e.values[VOLUME]).value
    ensures r.Failure? ==> (r.error.MissingField? || r.error.NotANumber?) && r.error.date == e.date && r.error.field in FIELDS
  {
    var open :- Price(e, OPEN, p);
    var high :- Price(e, HIGH, p);
    var low :- Price(e, LOW, p);
    var close :- Price(e, CLOSE, p);
    var volume :- Volume(e, p);
    Success(PriceRecord(symbol, e.date, open, high, low, close, volume))
  }

  /**
   * A failing entry raises for the first of its five fields, in the order
   * the record literal lists them, that is missing or does not parse.
   */
  lemma ParseEntryFirstBadField(symbol: string, e: Entry, p: Parsers)
    requires ParseEntry(symbol, e, p).Failure?
    ensures exists i | 0 <= i < |FIELDS| ::
      && (forall j | 0 <= j < i :: FieldValid(e, FIELDS[j], p))
      && !FieldValid(e, FIELDS[i], p)
      && ParseEntry(symbol, e, p).error == FieldFault(e, FIELDS[i])
  {
    assert FIELDS[0] == OPEN && FIELDS[1] == HIGH && FIELDS[2] == LOW && FIELDS[3] == CLOSE && FIELDS[4] == VOLUME;
  }

  /** The records built before the first entry that raised, and what it raised. */
  datatype Parsed = Parsed(records: seq<PriceRecord>, fault: Option<Fault>)

  /**
   * Walks the entries in order, building one record per entry, and stops at
   * the first entry whose record cannot be built.
   */
  function ParseUntilFailure(symbol: string, entries: seq<Entry>, p: Parsers): Parsed
    decreases |entries|
  {
    if entries == [] then Parsed([], None)
    else match ParseEntry(symbol, entries[0], p)
      case Failure(f) => Parsed([], Some(f))
      case Success(record) =>
        var rest := ParseUntilFailure(symbol, entries[1..], p);
        Parsed([record] + rest.records, rest.fault)
  }

  /**
   * The walk yields record i for entry i, in order, up to the first entry
   * that raises; it stops there with that entry's exception, and it yields
   * every entry's record exactly when none raises.
   */
  lemma {:induction false} ParseUntilFailureSpec(symbol: string, entries: seq<Entry>, p: Parsers)
    ensures var r := ParseUntilFailure(symbol, entries, p);
      && |r.records| <= |entries|
      && (forall i | 0 <= i < |r.records| :: ParseEntry(symbol, entries[i], p) == Success(r.records[i]))
      && (r.fault.None? <==> |r.records| == |entries|)
      && (r.fault.Some? ==> ParseEntry(symbol, entries[|r.records|], p) == Failure(r.fault.value))
    decreases |entries|
  {
    if entries != [] && ParseEntry(symbol, entries[0], p).Success? {
      ParseUntilFailureSpec(symbol, entries[1..], p);
    }
  }

  /**
   * Walking `a + b` is walking `a` and, if `a` raised nothing, going on
   * with `b`: the walk consumes entries one at a time.
   */
  lemma {:induction false} ParseUntilFailureAppend(symbol: string, a: seq<Entry>, b: seq<Entry>, p: Parsers)
    ensures ParseUntilFailure(symbol, a + b, p) ==
      var first := ParseUntilFailure(symbol, a, p);
      if first.fault.Some? then first
      else
        var rest := ParseUntilFailure(symbol, b, p);
        Parsed(first.records + rest.records, rest.fault)
    decreases |a|
  {
    if a == [] {
      assert a + b == b;
    } else {
      assert (a + b)[0] == a[0];
      assert (a + b)[1..] == a[1..] + b;
      if ParseEntry(symbol, a[0], p).Success? {
        ParseUntilFailureAppend(symbol, a[1..], b, p);
        var record := ParseEntry(symbol, a[0], p).value;
        var tail := ParseUntilFailure(symbol, a[1..], p);
        if tail.fault.None? {
          var rest := ParseUntilFailure(symbol, b, p);
          assert [record] + (tail.records + rest.records) == ([record] + tail.records) + rest.records;
        }
      }
    }
  }

  /** Walking one more entry: the step a parsing loop takes at index i. */
  lemma ParseStep(symbol: string, entries: seq<Entry>, i: nat, p: Parsers)
    requires i < |entries|
    requires ParseUntilFailure(symbol, entries[..i], p).fault.None?
    ensures ParseUntilFailure(symbol, entries[..i + 1], p) ==
      var done := ParseUntilFailure(symbol, entries[..i], p).records;
      match ParseEntry(symbol, entries[i], p)
      case Failure(f) => Parsed(done, Some(f))
      case Success(record) => Parsed(done + [record], None)
  {
    assert entries[..i + 1] == entries[..i] + [entries[i]];
    ParseUntilFailureAppend(symbol, entries[..i], [entries[i]], p);
    assert [entries[i]][1..] == [];
  }

  /** Once a prefix of the entries has raised, the rest of them is never read. */
  lemma ParseStops(symbol: string, entries: seq<Entry>, i: nat, p: Parsers)
    requires i <= |entries|
    requires ParseUntilFailure(symbol, entries[..i], p).fault.Some?
    ensures ParseUntilFailure(symbol, entries, p) == ParseUntilFailure(symbol, entries[..i], p)
  {
    assert entries == entries[..i] + entries[i..];
    ParseUntilFailureAppend(symbol, entries[..i], entries[i..], p);
  }

  /**
   * The whole list of records, or the exception of the first entry that
   * raised; a failure carries no partial list.
   */
  function ParseAll(symbol: string, entries: seq<Entry>, p: Parsers): Result<seq<PriceRecord>, Fault>
  {
    var parsed := ParseUntilFailure(symbol, entries, p);
    if parsed.fault.None? then Success(parsed.records) else Failure(parsed.fault.value)
  }

  /**
   * The whole call succeeds exactly when every entry parses; then there is
   * one record per entry, record i from entry i; otherwise it fails with the
   * exception of the first entry that raises, and no list is returned.
   */
  lemma ParseAllSpec(symbol: string, entries: seq<Entry>, p: Parsers)
    ensures var r := ParseAll(symbol, entries, p);
      && (r.Success? <==> forall i | 0 <= i < |entries| :: ParseEntry(symbol, entries[i], p).Success?)
      && (r.Success? ==>
        && |r.value| == |entries|
        && forall i | 0 <= i < |entries| :: ParseEntry(symbol, entries[i], p) == Success(r.value[i]))
      && (r.Failure? ==>
        exists k | 0 <= k < |entries| ::
          && (forall i | 0 <= i < k :: ParseEntry(symbol, entries[i], p).Success?)
          && ParseEntry(symbol, entries[k], p) == Failure(r.error))
  {
    ParseUntilFailureSpec(symbol, entries, p);
  }

  /** A payload without the time-series key yields no records and no exception. */
  lemma AbsentSeriesIsEmpty(data: Payload, symbol: string, p: Parsers)
    requires TIME_SERIES_KEY !in data.sections
    ensures ParseAll(symbol, TimeSeries(data), p) == Success([])
  {
  }

  /**
   * On success, record i is built from entry i alone: it carries the symbol
   * argument, entry i's date and entry i's five converted fields.
   */
  lemma RecordsComeFromTheirEntries(symbol: string, entries: seq<Entry>, p: Parsers, records: seq<PriceRecord>)
    requires ParseAll(symbol, entries, p) == Success(records)
    ensures |records| == |entries|
    ensures forall i | 0 <= i < |records| ::
      && EntryValid(entries[i], p)
      && records[i].symbol == symbol
      && records[i].date == entries[i].date
      && records[i].open == p.toFloat(entries[i].values[OPEN]).value
      && records[i].high == p.toFloat(entries[i].values[HIGH]).value
      && records[i].low == p.toFloat(entries[i].values[LOW]).value
      && records[i].close == p.toFloat(entries[i].values[CLOSE]).value
      && records[i].volume == p.toInt(entries[i].values[VOLUME]).value
  {
    ParseAllSpec(symbol, entries, p);
  }
}
