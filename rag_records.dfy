/**
 * The record view of the analysis engine (ragfin1_rag.py): `ExchangeRecord`,
 * and the two queries that read the `corridors` table, `load_all_data` and
 * `filter_data`. The table is passed in as the sequence of its rows.
 */
module RagRecords {
  import opened Wrappers
  import opened QuoteStore

  /** `ExchangeRecord`; a timestamp is the instant its ISO-8601 text denotes. */
  datatype ExchangeRecord = ExchangeRecord(
    provider: string,
    destination: string,
    exchangeRate: real,
    fee: real,
    timestamp: int,
    corridor: string)

  /**
   * Building an `ExchangeRecord`: `__post_init__` overwrites the corridor
   * with "USA-" and the destination, whatever corridor was passed in.
   */
  function NewRecord(provider: string, destination: string, exchangeRate: real, fee: real, timestamp: int, corridor: string): (r: ExchangeRecord)
    ensures r.corridor == "USA-" + destination
    ensures r.provider == provider && r.destination == destination
    ensures r.exchangeRate == exchangeRate && r.fee == fee && r.timestamp == timestamp
  {
    ExchangeRecord(provider, destination, exchangeRate, fee, timestamp, "USA-" + destination)
  }

  /** The record read from one selected row (the corridor argument is left at its default ""). */
  function ToRecord(row: Row): ExchangeRecord {
    NewRecord(row.provider, row.destination, row.exchangeRate, row.fee, row.timestamp, "")
  }

  /** The records of a result set, row by row. */
  function Records(rows: seq<Row>): (records: seq<ExchangeRecord>)
    ensures |records| == |rows|
    ensures forall i :: 0 <= i < |rows| ==> records[i] == ToRecord(rows[i])
  {
    seq(|rows|, i requires 0 <= i < |rows| => ToRecord(rows[i]))
  }

  /** `if destination:` / `if provider:` — only a present, non-empty value constrains. */
  predicate FilterOn(value: Option<string>) {
    value.Some? && value.value != ""
  }

  /** The WHERE clause of `filter_data`. */
  predicate Selected(row: Row, destination: Option<string>, provider: Option<string>) {
    && (FilterOn(destination) ==> row.destination == destination.value)
    && (FilterOn(provider) ==> row.provider == provider.value)
  }

  /** The selected rows, in table order. */
  function Select(table: seq<Row>, destination: Option<string>, provider: Option<string>): (s: seq<Row>)
    ensures |s| <= |table|
    ensures forall x :: x in s <==> x in table && Selected(x, destination, provider)
  {
    if |table| == 0 then []
    else
      var rest := Select(table[..|table| - 1], destination, provider);
      var last := table[|table| - 1];
      assert forall x :: x in table <==> x in table[..|table| - 1] || x == last by {
        assert table == table[..|table| - 1] + [last];
      }
      if Selected(last, destination, provider) then rest + [last] else rest
  }

  /** Timestamps never increase along `s`. */
  predicate NewestFirstOrder(s: seq<Row>) {
    forall i, j :: 0 <= i < j < |s| ==> s[i].timestamp >= s[j].timestamp
  }

  /** Puts `x` after every row of `s` that is at least as new, so rows of equal timestamp keep their order. */
  function Insert(x: Row, s: seq<Row>): (t: seq<Row>)
    ensures |t| == |s| + 1
  {
    if |s| == 0 then [x]
    else if s[0].timestamp >= x.timestamp then [s[0]] + Insert(x, s[1..])
    else [x] + s
  }

  /** Inserting adds `x` and loses nothing. */
  lemma {:induction false} InsertPermutes(x: Row, s: seq<Row>)
    ensures multiset(Insert(x, s)) == multiset(s) + multiset{x}
  {
    if |s| > 0 && s[0].timestamp >= x.timestamp {
      InsertPermutes(x, s[1..]);
      assert s == [s[0]] + s[1..];
    }
  }

  /** Inserting into a newest-first sequence keeps it newest first. */
  lemma {:induction false} InsertKeepsOrder(x: Row, s: seq<Row>)
    requires NewestFirstOrder(s)
    ensures NewestFirstOrder(Insert(x, s))
    ensures Insert(x, s)[0] == x || (|s| > 0 && Insert(x, s)[0] == s[0])
  {
    if |s| > 0 && s[0].timestamp >= x.timestamp {
      var rest := Insert(x, s[1..]);
      InsertKeepsOrder(x, s[1..]);
      assert rest[0].timestamp <= s[0].timestamp;
      var t := [s[0]] + rest;
      forall i, j | 0 <= i < j < |t|
        ensures t[i].timestamp >= t[j].timestamp
      {
        if i > 0 {
          assert t[i] == rest[i - 1] && t[j] == rest[j - 1];
        } else {
          assert rest[0].timestamp >= rest[j - 1].timestamp;
        }
      }
    }
  }

  /**
   * `ORDER BY timestamp DESC`: the same rows, newest first. SQLite leaves the
   * order of rows with equal timestamps open; this model keeps table order.
   */
  function NewestFirst(s: seq<Row>): (t: seq<Row>)
    ensures NewestFirstOrder(t)
    ensures multiset(t) == multiset(s)
    ensures |t| == |s|
  {
    if |s| == 0 then []
    else
      var init := s[..|s| - 1];
      var last := s[|s| - 1];
      assert s == init + [last];
      InsertKeepsOrder(last, NewestFirst(init));
      InsertPermutes(last, NewestFirst(init));
      Insert(last, NewestFirst(init))
  }

  /**
   * `if limit: query += f" LIMIT {limit}"`: a missing or zero limit adds no
   * clause, and SQLite reads a negative LIMIT as no limit.
   */
  function Limit(s: seq<Row>, limit: Option<int>): (t: seq<Row>)
    ensures limit.Some? && 0 < limit.value ==> |t| == if limit.value < |s| then limit.value else |s|
    ensures !(limit.Some? && 0 < limit.value) ==> t == s
    ensures t <= s
  {
    if limit.Some? && 0 < limit.value < |s| then s[..limit.value] else s
  }

  /** The rows `filter_data` fetches: selected, ordered newest first, and only then truncated. */
  function QueryRows(table: seq<Row>, destination: Option<string>, provider: Option<string>, limit: Option<int>): seq<Row> {
    Limit(NewestFirst(Select(table, destination, provider)), limit)
  }

  /**
   * `filter_data` returns selected rows only; without a positive limit it
   * returns every selected row, each as often as it is in the table.
   */
  lemma QueryRowsExactlySelected(table: seq<Row>, destination: Option<string>, provider: Option<string>, limit: Option<int>)
    ensures forall x :: x in QueryRows(table, destination, provider, limit) ==> x in table && Selected(x, destination, provider)
    ensures !(limit.Some? && 0 < limit.value) ==>
      multiset(QueryRows(table, destination, provider, limit)) == multiset(Select(table, destination, provider))
  {
    var sorted := NewestFirst(Select(table, destination, provider));
    forall x | x in QueryRows(table, destination, provider, limit)
      ensures x in table && Selected(x, destination, provider)
    {
      assert x in sorted;
      assert x in multiset(sorted);
    }
  }

  /** The result is newest first, and no row truncated away is newer than a row kept. */
  lemma QueryRowsNewestFirst(table: seq<Row>, destination: Option<string>, provider: Option<string>, limit: Option<int>)
    ensures NewestFirstOrder(QueryRows(table, destination, provider, limit))
    ensures forall x, y ::
      (x in QueryRows(table, destination, provider, limit) && y in Select(table, destination, provider) &&
       y !in QueryRows(table, destination, provider, limit)) ==> x.timestamp >= y.timestamp
  {
    var selected := Select(table, destination, provider);
    var sorted := NewestFirst(selected);
    forall y | y in selected
      ensures y in sorted
    {
      assert y in multiset(selected);
    }
    PrefixIsNewest(sorted, QueryRows(table, destination, provider, limit));
  }

  /** A prefix of a newest-first sequence is newest first and holds its newest rows. */
  lemma PrefixIsNewest(s: seq<Row>, kept: seq<Row>)
    requires NewestFirstOrder(s) && kept <= s
    ensures NewestFirstOrder(kept)
    ensures forall x, y :: x in kept && y in s && y !in kept ==> x.timestamp >= y.timestamp
  {
    forall x, y | x in kept && y in s && y !in kept
      ensures x.timestamp >= y.timestamp
    {
      var j :| 0 <= j < |s| && s[j] == y;
      var i :| 0 <= i < |kept| && kept[i] == x;
      assert j >= |kept|;
    }
  }

  /** A selected row is kept as many times as it occurs in the table; any other row is dropped. */
  lemma {:induction false} SelectCounts(table: seq<Row>, destination: Option<string>, provider: Option<string>)
    ensures forall x ::
      multiset(Select(table, destination, provider))[x] == if Selected(x, destination, provider) then multiset(table)[x] else 0
  {
    if |table| > 0 {
      var init := table[..|table| - 1];
      SelectCounts(init, destination, provider);
      assert table == init + [table[|table| - 1]];
    }
  }

  /** With no filter at all, `filter_data` selects the whole table. */
  lemma SelectNothingFiltered(table: seq<Row>)
    ensures Select(table, None, None) == table
  {
    if |table| > 0 {
      SelectNothingFiltered(table[..|table| - 1]);
      assert table == table[..|table| - 1] + [table[|table| - 1]];
    }
  }

  /** `filter_data`: the records of the query rows, in result order. */
  method FilterData(table: seq<Row>, destination: Option<string>, provider: Option<string>, limit: Option<int>) returns (records: seq<ExchangeRecord>)
    ensures records == Records(QueryRows(table, destination, provider, limit))
  {
    var rows := QueryRows(table, destination, provider, limit);
    records := [];
    for i := 0 to |rows|
      invariant records == Records(rows[..i])
    {
      records := records + [ToRecord(rows[i])];
    }
    assert rows[..|rows|] == rows;
  }

  /** `load_all_data` reads what `filter_data` reads with no filter and no limit. */
  lemma LoadAllIsUnfiltered(table: seq<Row>)
    ensures QueryRows(table, None, None, None) == NewestFirst(table)
  {
    SelectNothingFiltered(table);
  }

  /** `load_all_data`: every row of the table as a record, newest first. */
  method LoadAllData(table: seq<Row>) returns (records: seq<ExchangeRecord>)
    ensures records == Records(NewestFirst(table))
  {
    var rows := NewestFirst(table);
    records := [];
    for i := 0 to |rows|
      invariant records == Records(rows[..i])
    {
      records := records + [ToRecord(rows[i])];
    }
    assert rows[..|rows|] == rows;
  }
}
