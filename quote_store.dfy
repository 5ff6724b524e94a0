/**
 * The quote store (ragfin1_db.py): the `corridors` table, an append-only
 * sequence of rows with auto-increment ids, a lookup of the newest row of a
 * corridor, and a row count.
 */
module QuoteStore {
  import opened Wrappers

  /**
   * One row of the `corridors` table. Timestamps are ISO-8601 strings of one
   * format in the store, which sort like the instants they denote; they are
   * modelled as those instants.
   */
  datatype Row = Row(
    id: nat,
    provider: string,
    origin: string,
    destination: string,
    sendAmount: real,
    fee: real,
    exchangeRate: real,
    totalCost: real,
    recipientReceives: real,
    estimatedDelivery: string,
    deliveryMethod: string,
    timestamp: int,
    dataSource: string,
    note: string)

  /** The dictionary handed to `insert_corridor_data`: every key may be missing. */
  datatype QuoteData = QuoteData(
    provider: Option<string>,
    origin: Option<string>,
    destination: Option<string>,
    sendAmount: Option<real>,
    fee: Option<real>,
    exchangeRate: Option<real>,
    totalCost: Option<real>,
    recipientReceives: Option<real>,
    estimatedDelivery: Option<string>,
    deliveryMethod: Option<string>,
    timestamp: Option<int>,
    dataSource: Option<string>,
    note: Option<string>)

  /**
   * The row stored for `data`: a present key is stored as given, with no
   * validation and no recomputation; a missing key gets "Unknown" for the
   * provider, "" for other text, 0.0 for numbers and the current time.
   */
  function RowFrom(id: nat, data: QuoteData, now: int): (r: Row)
    ensures r.id == id
    ensures data.provider.Some? ==> r.provider == data.provider.value
    ensures data.origin.Some? ==> r.origin == data.origin.value
    ensures data.destination.Some? ==> r.destination == data.destination.value
    ensures data.sendAmount.Some? ==> r.sendAmount == data.sendAmount.value
    ensures data.fee.Some? ==> r.fee == data.fee.value
    ensures data.exchangeRate.Some? ==> r.exchangeRate == data.exchangeRate.value
    ensures data.totalCost.Some? ==> r.totalCost == data.totalCost.value
    ensures data.recipientReceives.Some? ==> r.recipientReceives == data.recipientReceives.value
    ensures data.estimatedDelivery.Some? ==> r.estimatedDelivery == data.estimatedDelivery.value
    ensures data.deliveryMethod.Some? ==> r.deliveryMethod == data.deliveryMethod.value
    ensures data.timestamp.Some? ==> r.timestamp == data.timestamp.value
    ensures data.dataSource.Some? ==> r.dataSource == data.dataSource.value
    ensures data.note.Some? ==> r.note == data.note.value
    ensures data.provider.None? ==> r.provider == "Unknown"
    ensures data.origin.None? ==> r.origin == ""
    ensures data.destination.None? ==> r.destination == ""
    ensures data.sendAmount.None? ==> r.sendAmount == 0.0
    ensures data.fee.None? ==> r.fee == 0.0
    ensures data.exchangeRate.None? ==> r.exchangeRate == 0.0
    ensures data.totalCost.None? ==> r.totalCost == 0.0
    ensures data.recipientReceives.None? ==> r.recipientReceives == 0.0
    ensures data.estimatedDelivery.None? ==> r.estimatedDelivery == ""
    ensures data.deliveryMethod.None? ==> r.deliveryMethod == ""
    ensures data.timestamp.None? ==> r.timestamp == now
    ensures data.dataSource.None? ==> r.dataSource == ""
    ensures data.note.None? ==> r.note == ""
  {
    Row(id,
      data.provider.GetOr("Unknown"),
      data.origin.GetOr(""),
      data.destination.GetOr(""),
      data.sendAmount.GetOr(0.0),
      data.fee.GetOr(0.0),
      data.exchangeRate.GetOr(0.0),
      data.totalCost.GetOr(0.0),
      data.recipientReceives.GetOr(0.0),
      data.estimatedDelivery.GetOr(""),
      data.deliveryMethod.GetOr(""),
      data.timestamp.GetOr(now),
      data.dataSource.GetOr(""),
      data.note.GetOr(""))
  }

  /** `if amount:` — the amount filter applies only to a present, non-zero amount. */
  predicate AmountFilterOn(amount: Option<real>) {
    amount.Some? && amount.value != 0.0
  }

  /** The WHERE clause of `get_latest_corridor`. */
  predicate Matches(row: Row, provider: string, origin: string, destination: string, amount: Option<real>) {
    && row.provider == provider && row.origin == origin && row.destination == destination
    && (AmountFilterOn(amount) ==> row.sendAmount == amount.value)
  }

  /** `row` is a matching row of `rows` with the greatest timestamp among the matching rows. */
  predicate IsLatest(rows: seq<Row>, row: Row, provider: string, origin: string, destination: string, amount: Option<real>) {
    && row in rows
    && Matches(row, provider, origin, destination, amount)
    && forall x :: x in rows && Matches(x, provider, origin, destination, amount) ==> x.timestamp <= row.timestamp
  }

  /** An amount of 0.0 filters exactly like no amount at all. */
  lemma ZeroAmountIsNoFilter(row: Row, provider: string, origin: string, destination: string)
    ensures Matches(row, provider, origin, destination, Some(0.0)) == Matches(row, provider, origin, destination, None)
    ensures !AmountFilterOn(Some(0.0)) && !AmountFilterOn(None)
  {
  }

  /**
   * A matching row that is strictly newer than every matching row already in
   * the table is, once appended, the one and only latest row.
   */
  lemma NewestInsertIsLatest(rows: seq<Row>, row: Row, provider: string, origin: string, destination: string, amount: Option<real>)
    requires Matches(row, provider, origin, destination, amount)
    requires forall x :: x in rows && Matches(x, provider, origin, destination, amount) ==> x.timestamp < row.timestamp
    ensures IsLatest(rows + [row], row, provider, origin, destination, amount)
    ensures forall y :: IsLatest(rows + [row], y, provider, origin, destination, amount) ==> y == row
  {
    assert row in rows + [row];
  }

  class Database {
    /** The rows of the table, in insertion order. */
    var rows: seq<Row>
    /** The id AUTOINCREMENT hands out next: larger than every id ever issued. */
    var nextId: nat

    /** Ids are positive, strictly increasing in insertion order, and below `nextId`. */
    ghost predicate Valid()
      reads this
    {
      && nextId >= 1
      && (forall i, j :: 0 <= i < j < |rows| ==> rows[i].id < rows[j].id)
      && (forall i :: 0 <= i < |rows| ==> 1 <= rows[i].id < nextId)
    }

    /** An empty table; AUTOINCREMENT starts at 1. */
    constructor()
      ensures Valid()
      ensures rows == [] && nextId == 1
    {
      rows := [];
      nextId := 1;
    }

    /** `SELECT COUNT(*) FROM corridors`, the `total_records` of `get_stats`. */
    function TotalRecords(): nat
      reads this
    {
      |rows|
    }

    /**
     * `insert_corridor_data`: appends exactly one row built from `data`, leaves
     * the existing rows unchanged and returns an id larger than every id issued
     * before. `now` is the clock reading used for a missing timestamp.
     */
    method InsertCorridorData(data: QuoteData, now: int) returns (id: nat)
      requires Valid()
      modifies this
      ensures Valid()
      ensures rows == old(rows) + [RowFrom(id, data, now)]
      ensures id == old(nextId) && nextId == id + 1
      ensures forall r :: r in old(rows) ==> r.id < id
      ensures TotalRecords() == old(TotalRecords()) + 1
    {
      id := nextId;
      rows := rows + [RowFrom(id, data, now)];
      nextId := nextId + 1;
    }

    /**
     * `get_latest_corridor`: `None` exactly when no row matches; otherwise a
     * matching row with the greatest timestamp. Among rows with equal
     * timestamps the last inserted is returned.
     */
    method GetLatestCorridor(provider: string, origin: string, destination: string, amount: Option<real>) returns (r: Option<Row>)
      ensures r.None? <==> forall x :: x in rows ==> !Matches(x, provider, origin, destination, amount)
      ensures r.Some? ==> IsLatest(rows, r.value, provider, origin, destination, amount)
    {
      r := None;
      var i := 0;
      while i < |rows|
        invariant 0 <= i <= |rows|
        invariant r.None? <==> forall k :: 0 <= k < i ==> !Matches(rows[k], provider, origin, destination, amount)
        invariant r.Some? ==> r.value in rows && Matches(r.value, provider, origin, destination, amount)
        invariant r.Some? ==> forall k :: 0 <= k < i && Matches(rows[k], provider, origin, destination, amount) ==> rows[k].timestamp <= r.value.timestamp
      {
        var row := rows[i];
        if Matches(row, provider, origin, destination, amount) && (r.None? || row.timestamp >= r.value.timestamp) {
          r := Some(row);
        }
        i := i + 1;
      }
    }
  }

  /**
   * Inserting a quote strictly newer than every stored quote of its corridor
   * makes the next lookup of that corridor return exactly the inserted row.
   */
  method InsertThenLookup(db: Database, data: QuoteData, now: int) returns (id: nat, found: Option<Row>)
    requires db.Valid()
    requires data.provider.Some? && data.origin.Some? && data.destination.Some? && data.timestamp.Some?
    requires forall x :: x in db.rows && Matches(x, data.provider.value, data.origin.value, data.destination.value, None) ==>
      x.timestamp < data.timestamp.value
    modifies db
    ensures found == Some(RowFrom(id, data, now))
  {
    id := db.InsertCorridorData(data, now);
    var row := RowFrom(id, data, now);
    NewestInsertIsLatest(old(db.rows), row, row.provider, row.origin, row.destination, None);
    found := db.GetLatestCorridor(row.provider, row.origin, row.destination, None);
  }
}
