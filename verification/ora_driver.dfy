/** The Oracle driver: lazy connection, the row cap of a query result, the
    classification of the errors a query can raise, and disconnection. The
    server is a set of answers: whether it accepts a connection, what it
    answers to a query on a connection, whether closing one succeeds. */
module OraDriver {
  import opened Wrappers
  import opened Model

  /** An open connection; only its identity matters here. */
  datatype Connection = Connection(id: nat)

  /** One entry of a cursor's description: the column name, then the rest
      of the entry (type, sizes, nullability). */
  datatype ColumnDescription = ColumnDescription(name: string, rest: seq<Value>)

  /** What executing a query yields: the description (`None` for a
      statement without a result set) and the outcome of fetching all rows. */
  datatype Execution = Execution(description: Option<seq<ColumnDescription>>, fetched: Result<seq<Row>, Error>)

  datatype Server = Server(
    connect: Result<Connection, Error>,
    execute: (Connection, string) -> Result<Execution, Error>,
    close: Connection -> Result<(), Error>)

  /** The driver's only state: the connection, once made. */
  datatype OraDriver = OraDriver(conn: Option<Connection>)

  /** What a query hands back: the query, the column names, the rows. */
  datatype QueryResult = QueryResult(query: string, columnNames: seq<string>, resultset: seq<Row>)

  /** The default row cap of `query_to_resultset`. */
  const DefaultMaxRows: int := 10000

  /** The error a failed query surfaces as: internal and driver errors pass
      through, anything else becomes a query error carrying the query. */
  function Classify(e: Error, query: string): (r: Error)
    ensures r.InternalError? || r.DriverError? || r == QueryError(query)
    ensures e.InternalError? || e.DriverError? ==> r == e
    ensures !(e.InternalError? || e.DriverError?) ==> r == QueryError(query)
  {
    if e.InternalError? || e.DriverError? then e else QueryError(query)
  }

  /** Classifying twice changes nothing more. */
  lemma ClassifyIdempotent(e: Error, query: string)
    ensures Classify(Classify(e, query), query) == Classify(e, query)
  {
  }

  /** The first element of every description entry, in order. */
  function ColumnNames(desc: seq<ColumnDescription>): (names: seq<string>)
    ensures |names| == |desc|
    ensures forall i :: 0 <= i < |desc| ==> names[i] == desc[i].name
  {
    if desc == [] then [] else [desc[0].name] + ColumnNames(desc[1..])
  }

  /** The enumerate loop of `query_to_resultset`: rows are copied in fetch
      order, and row `i` with `i > maxRows` raises an internal error. The
      test is strict, so `maxRows + 1` rows are accepted. */
  method KeepRows(rows: seq<Row>, maxRows: int, query: string) returns (r: Result<seq<Row>, Error>)
    ensures r.Ok? <==> rows == [] || |rows| <= maxRows + 1
    ensures r.Ok? ==> r.value == rows
    ensures r.Err? ==> r.error == InternalError(Some(query))
  {
    var kept: seq<Row> := [];
    var i := 0;
    while i < |rows|
      invariant 0 <= i <= |rows|
      invariant kept == rows[..i]
      invariant i == 0 || i - 1 <= maxRows
    {
      if i > maxRows {
        return Err(InternalError(Some(query)));
      }
      kept := kept + [rows[i]];
      i := i + 1;
    }
    assert kept == rows;
    return Ok(kept);
  }

  /** `query_to_resultset` and `q2rs`. An empty query fails its assertion
      before anything happens. Otherwise the driver connects if it has no
      connection (a refused connection is a driver error and leaves the
      state as it was), executes the query, reads the column names from the
      description, and keeps the fetched rows under the row cap. A failed
      execution or fetch is classified; a missing description cannot be
      iterated, a type error, so a query error; too many rows is an
      internal error carrying the query. */
  method QueryToResultset(d: OraDriver, server: Server, query: string, maxRows: int)
    returns (d': OraDriver, r: Result<QueryResult, Error>)
    ensures query == [] ==> d' == d && r == Err(AssertionError)
    ensures d.conn.Some? ==> d' == d
    ensures query != [] && d.conn.None? ==>
              d'.conn == (if server.connect.Ok? then Some(server.connect.value) else None)
    ensures query != [] && d.conn.None? && server.connect.Err? ==> r == Err(DriverError)
    ensures query != [] && r.Err? ==>
              r.error.InternalError? || r.error.DriverError? || r.error == QueryError(query)
    ensures r.Ok? ==>
              && query != [] && d'.conn.Some?
              && var x := server.execute(d'.conn.value, query);
                 && x.Ok? && x.value.description.Some? && x.value.fetched.Ok?
                 && r.value.query == query
                 && r.value.columnNames == ColumnNames(x.value.description.value)
                 && r.value.resultset == x.value.fetched.value
                 && (r.value.resultset == [] || |r.value.resultset| <= maxRows + 1)
    ensures query != [] && d'.conn.Some? ==>
              var x := server.execute(d'.conn.value, query);
              && (x.Err? ==> r == Err(Classify(x.error, query)))
              && (x.Ok? && x.value.description.None? ==> r == Err(QueryError(query)))
              && (x.Ok? && x.value.description.Some? && x.value.fetched.Err? ==>
                    r == Err(Classify(x.value.fetched.error, query)))
              && (x.Ok? && x.value.description.Some? && x.value.fetched.Ok? ==>
                    var rows := x.value.fetched.value;
                    if rows == [] || |rows| <= maxRows + 1
                    then r == Ok(QueryResult(query, ColumnNames(x.value.description.value), rows))
                    else r == Err(InternalError(Some(query))))
  {
    if query == [] {
      return d, Err(AssertionError);
    }
    d' := d;
    if d.conn.None? {
      if server.connect.Err? {
        return d, Err(DriverError);
      }
      d' := OraDriver(Some(server.connect.value));
    }
    var conn := d'.conn.value;
    var x := server.execute(conn, query);
    if x.Err? {
      return d', Err(Classify(x.error, query));
    }
    if x.value.description.None? {
      // iterating over a missing description raises a type error
      return d', Err(Classify(TypeError, query));
    }
    var names := ColumnNames(x.value.description.value);
    if x.value.fetched.Err? {
      return d', Err(Classify(x.value.fetched.error, query));
    }
    var rows := KeepRows(x.value.fetched.value, maxRows, query);
    if rows.Err? {
      return d', Err(rows.error);
    }
    r := Ok(QueryResult(query, names, rows.value));
  }

  /** `q2rs` with its default cap: a result holds at most 10,001 rows. */
  method QueryWithDefaultCap(d: OraDriver, server: Server, query: string)
    returns (d': OraDriver, r: Result<QueryResult, Error>)
    ensures r.Ok? ==> |r.value.resultset| <= DefaultMaxRows + 1
    ensures r.Err? && query != [] ==>
              r.error.InternalError? || r.error.DriverError? || r.error == QueryError(query)
  {
    d', r := QueryToResultset(d, server, query, DefaultMaxRows);
  }

  /** Once connected, the driver never connects again: a second query runs
      on the connection the first one made, whatever the first one's
      outcome. */
  method ConnectsOnce(server: Server, q1: string, q2: string, maxRows: int)
    returns (d1: OraDriver, d2: OraDriver)
    requires q1 != [] && server.connect.Ok?
    ensures d1 == OraDriver(Some(server.connect.value))
    ensures d2 == d1
  {
    var r1, r2;
    d1, r1 := QueryToResultset(OraDriver(None), server, q1, maxRows);
    d2, r2 := QueryToResultset(d1, server, q2, maxRows);
  }

  /** `disconnect`: nothing to do without a connection; a failed close is a
      driver error that keeps the connection; otherwise the connection is
      dropped. */
  function Disconnect(d: OraDriver, server: Server): (r: (OraDriver, Result<bool, Error>))
    ensures d.conn.None? ==> r == (d, Ok(false))
    ensures r.1.Err? ==> r.1.error == DriverError && r.0 == d
    ensures r.1 == Ok(true) <==> d.conn.Some? && server.close(d.conn.value).Ok?
    ensures r.1.Ok? ==> r.0.conn.None?
  {
    match d.conn
    case None => (d, Ok(false))
    case Some(c) =>
      if server.close(c).Err? then (d, Err(DriverError)) else (OraDriver(None), Ok(true))
  }

  /** Disconnecting twice: the second call finds no connection, answers
      false and changes nothing. */
  lemma DisconnectTwice(d: OraDriver, server: Server)
    requires Disconnect(d, server).1.Ok?
    ensures var d1 := Disconnect(d, server).0;
            Disconnect(d1, server) == (d1, Ok(false))
  {
  }

  /** After a disconnection the next query connects afresh. */
  method ReconnectsAfterDisconnect(d: OraDriver, server: Server, query: string, maxRows: int)
    returns (d2: OraDriver)
    requires Disconnect(d, server).1 == Ok(true) && query != [] && server.connect.Ok?
    ensures d2 == OraDriver(Some(server.connect.value))
  {
    var r;
    d2, r := QueryToResultset(Disconnect(d, server).0, server, query, maxRows);
  }
}
