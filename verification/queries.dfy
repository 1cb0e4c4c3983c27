/** The result-decoding helpers the dialect profilers share:
    `_query_column_profile`, `_query_record_validation` and the schema-name
    filter of `_query_schema_names`. Each driver round trip is an input. */
module Queries {
  import opened Wrappers
  import opened Model

  /** Row count, per-column `[min, max]` and per-column null count, as
      decoded from the one-row phase-1 result. */
  datatype ColumnProfile = ColumnProfile(
    numRows: int,
    minMax: map<string, (Value, Value)>,
    nulls: map<string, int>)

  /** Number of the triples following the leading count in `row`. */
  function TripleCount(row: Row): nat
    requires |row| >= 1
  {
    (|row| - 1) / 3
  }

  /** The positional layout `_query_column_profile` accepts: a leading
      integer count, then one `(nulls, min, max)` triple per column with an
      integer null count, and no more triples than column names. */
  predicate ProfileRowShape(names: seq<string>, row: Row) {
    && |row| >= 1
    && row[0].Int?
    && (|row| - 1) % 3 == 0
    && TripleCount(row) <= |names|
    && forall j :: 0 <= j < TripleCount(row) ==> row[1 + 3 * j].Int?
  }

  /** Position `j` is the last of the first `n` positions holding its name. */
  predicate LastOccurrence(names: seq<string>, j: int, n: int)
    requires 0 <= j < n <= |names|
  {
    forall l :: j < l < n ==> names[l] != names[j]
  }

  /** The cells after the leading count, grouped by three: the
      `(nulls, min, max)` triple of each column in turn. */
  function Triples(cells: seq<Value>): (t: seq<(Value, Value, Value)>)
    requires |cells| % 3 == 0
    ensures |t| == |cells| / 3
    ensures forall j :: 0 <= j < |t| ==> t[j] == (cells[3 * j], cells[3 * j + 1], cells[3 * j + 2])
  {
    if cells == [] then [] else [(cells[0], cells[1], cells[2])] + Triples(cells[3..])
  }

  /** The per-column loop of `_query_column_profile`: triple `j` goes to
      `names[j]`. */
  method SplitTriples(names: seq<string>, t: seq<(Value, Value, Value)>)
    returns (r: Result<(map<string, (Value, Value)>, map<string, int>), Error>)
    ensures r.Ok? <==> |t| <= |names| && forall j :: 0 <= j < |t| ==> t[j].0.Int?
    ensures r.Err? ==>
              r.error == (if exists j :: 0 <= j < |t| && j < |names| && !t[j].0.Int? then TypeError else IndexError)
    ensures r.Ok? ==>
              var (minMax, nulls) := r.value;
              && nulls.Keys == minMax.Keys == (set j | 0 <= j < |t| :: names[j])
              && forall j :: 0 <= j < |t| && LastOccurrence(names, j, |t|) ==>
                   nulls[names[j]] == t[j].0.i && minMax[names[j]] == (t[j].1, t[j].2)
  {
    var minMax: map<string, (Value, Value)> := map[];
    var nulls: map<string, int> := map[];
    var i := 0;
    while i < |t|
      invariant 0 <= i <= |t|
      invariant i <= |names|
      invariant forall j :: 0 <= j < i ==> t[j].0.Int?
      invariant nulls.Keys == (set j | 0 <= j < i :: names[j])
      invariant minMax.Keys == nulls.Keys
      invariant forall j :: 0 <= j < i && LastOccurrence(names, j, i) ==>
                  nulls[names[j]] == t[j].0.i && minMax[names[j]] == (t[j].1, t[j].2)
    {
      if i >= |names| {
        return Err(IndexError);
      }
      if !t[i].0.Int? {
        // the trace line formats the null count with `%d`
        return Err(TypeError);
      }
      nulls := nulls[names[i] := t[i].0.i];
      minMax := minMax[names[i] := (t[i].1, t[i].2)];
      i := i + 1;
    }
    r := Ok((minMax, nulls));
  }

  /** `_query_column_profile`: split the single result row
      `[n, nulls1, min1, max1, ...]` into per-column maps by position.
      Column `j` gets `nulls = row[1+3j]` and `[min, max] = [row[2+3j], row[3+3j]]`;
      a repeated name keeps the triple of its last position. */
  method QueryColumnProfile(names: seq<string>, resultset: Result<seq<Row>, Error>)
    returns (r: Result<ColumnProfile, Error>)
    ensures resultset.Err? ==> r == Err(resultset.error)
    ensures resultset.Ok? && |resultset.value| != 1 ==> r == Err(AssertionError)
    ensures resultset.Ok? && |resultset.value| == 1 && resultset.value[0] == [] ==> r == Err(IndexError)
    ensures resultset.Ok? && |resultset.value| == 1 && resultset.value[0] != [] ==>
              var row := resultset.value[0];
              && (!row[0].Int? ==> r == Err(TypeError))
              && (row[0].Int? && (|row| - 1) % 3 != 0 ==> r == Err(AssertionError))
              && (row[0].Int? && (|row| - 1) % 3 == 0 && !ProfileRowShape(names, row) ==>
                    r == Err(if exists j :: 0 <= j < TripleCount(row) && j < |names| && !row[1 + 3 * j].Int?
                             then TypeError else IndexError))
    ensures r.Ok? <==> resultset.Ok? && |resultset.value| == 1 && ProfileRowShape(names, resultset.value[0])
    ensures r.Ok? ==>
              var row := resultset.value[0];
              var k := TripleCount(row);
              && r.value.numRows == row[0].i
              && r.value.nulls.Keys == r.value.minMax.Keys == (set j | 0 <= j < k :: names[j])
              && forall j :: 0 <= j < k && LastOccurrence(names, j, k) ==>
                   && r.value.nulls[names[j]] == row[1 + 3 * j].i
                   && r.value.minMax[names[j]] == (row[2 + 3 * j], row[3 + 3 * j])
  {
    if resultset.Err? {
      return Err(resultset.error);
    }
    if |resultset.value| != 1 {
      return Err(AssertionError);
    }
    var row := resultset.value[0];
    if row == [] {
      return Err(IndexError);
    }
    if !row[0].Int? {
      // the trace line formats the count with `%d`
      return Err(TypeError);
    }
    if (|row| - 1) % 3 != 0 {
      return Err(AssertionError);
    }
    var split := SplitTriples(names, Triples(row[1..]));
    match split
    case Err(e) => r := Err(e);
    case Ok((minMax, nulls)) => r := Ok(ColumnProfile(row[0].i, minMax, nulls));
  }

  /** An open server-side cursor: the names from its description and the
      rows it will yield. */
  datatype Cursor = Cursor(description: seq<string>, rows: seq<Row>)

  datatype Counts = Counts(count: nat, failed: nat)

  /** The number of rows of `rows` the validator rejects. */
  function Rejected(accepts: (seq<string>, Row) -> bool, fnames: seq<string>, rows: seq<Row>): (n: nat)
    ensures n <= |rows|
  {
    if rows == [] then 0
    else Rejected(accepts, fnames, rows[..|rows| - 1]) + (if accepts(fnames, rows[|rows| - 1]) then 0 else 1)
  }

  /** The concatenation of the batches, in order. */
  function Flatten(batches: seq<seq<Row>>): seq<Row> {
    if batches == [] then []
    else Flatten(batches[..|batches| - 1]) + batches[|batches| - 1]
  }

  lemma FlattenSnoc(batches: seq<seq<Row>>, batch: seq<Row>)
    ensures Flatten(batches + [batch]) == Flatten(batches) + batch
  {
    assert (batches + [batch])[..|batches|] == batches;
  }

  /** DB-API `fetchmany(size)`: the next at most `size` rows from `pos`. */
  function FetchMany(rows: seq<Row>, pos: nat, size: nat): (batch: seq<Row>)
    requires pos <= |rows|
    ensures |batch| <= size && pos + |batch| <= |rows|
    ensures batch == [] <==> pos == |rows| || size == 0
    ensures rows[..pos] + batch == rows[..pos + |batch|]
  {
    if pos + size <= |rows| then rows[pos..pos + size] else rows[pos..]
  }

  /** The inner loop over one batch, which continues `rows` at `pos`:
      every row is counted, and every rejected row once more. */
  method CountBatch(accepts: (seq<string>, Row) -> bool, fnames: seq<string>, rows: seq<Row>, pos: nat,
                    batch: seq<Row>, countBefore: nat, failedBefore: nat)
    returns (count: nat, failed: nat)
    requires pos + |batch| <= |rows| && rows[..pos] + batch == rows[..pos + |batch|]
    requires failedBefore == Rejected(accepts, fnames, rows[..pos])
    ensures count == countBefore + |batch|
    ensures failed == Rejected(accepts, fnames, rows[..pos + |batch|])
  {
    count, failed := countBefore, failedBefore;
    var j := 0;
    while j < |batch|
      invariant 0 <= j <= |batch|
      invariant count == countBefore + j
      invariant failed == Rejected(accepts, fnames, rows[..pos + j])
    {
      assert rows[..pos + j + 1][..pos + j] == rows[..pos + j];
      assert batch[j] == (rows[..pos] + batch)[pos + j] == rows[pos + j];
      if !accepts(fnames, batch[j]) {
        failed := failed + 1;
      }
      count := count + 1;
      j := j + 1;
    }
  }

  /** `_query_record_validation`: stream the cursor in batches of
      `fetchSize` rows until an empty batch, counting every row and every
      row the validator rejects. It never stops early on a failure. The
      batches actually fetched are returned alongside the counts. */
  method QueryRecordValidation(cursor: Result<Cursor, Error>, accepts: (seq<string>, Row) -> bool, fetchSize: nat)
    returns (r: Result<Counts, Error>, batches: seq<seq<Row>>)
    requires fetchSize > 0
    ensures cursor.Err? ==> r == Err(cursor.error)
    ensures cursor.Ok? && cursor.value.description == [] ==> r == Err(AssertionError)
    ensures r.Ok? <==> cursor.Ok? && cursor.value.description != []
    ensures r.Ok? ==>
              && r.value.count == |cursor.value.rows|
              && r.value.failed == Rejected(accepts, cursor.value.description, cursor.value.rows)
              && r.value.failed <= r.value.count
              && Flatten(batches) == cursor.value.rows
              && forall b :: b in batches ==> 0 < |b| <= fetchSize
  {
    batches := [];
    if cursor.Err? {
      return Err(cursor.error), batches;
    }
    var fnames := cursor.value.description;
    var rows := cursor.value.rows;
    if fnames == [] {
      return Err(AssertionError), batches;
    }
    var pos, count, failed := 0, 0, 0;
    while true
      invariant pos <= |rows|
      invariant count == pos
      invariant failed == Rejected(accepts, fnames, rows[..pos])
      invariant Flatten(batches) == rows[..pos]
      invariant forall b :: b in batches ==> 0 < |b| <= fetchSize
      decreases |rows| - pos
    {
      var batch := FetchMany(rows, pos, fetchSize);
      if batch == [] {
        break;
      }
      count, failed := CountBatch(accepts, fnames, rows, pos, batch, count, failed);
      FlattenSnoc(batches, batch);
      batches := batches + [batch];
      pos := pos + |batch|;
    }
    assert rows[..pos] == rows;
    r := Ok(Counts(count, failed));
  }

  /** Python truthiness of the optional ignore list. */
  predicate Truthy(ignores: Option<seq<string>>) {
    ignores.Some? && ignores.value != []
  }

  /** The schema filter of `_query_schema_names` as written: the condition
      `row[0] not in ignores if ignores else []` parses as
      `(row[0] not in ignores) if ignores else []`, so without an ignore
      list every schema is dropped. */
  function SchemaNamesAsWritten(names: seq<string>, ignores: Option<seq<string>>): (r: seq<string>)
    ensures !Truthy(ignores) ==> r == []
    ensures Truthy(ignores) ==> r == SchemaNames(names, ignores)
  {
    if names == [] then []
    else
      (if Truthy(ignores) && names[0] !in ignores.value then [names[0]] else [])
      + SchemaNamesAsWritten(names[1..], ignores)
  }

  /** The filter as its documentation describes it: drop exactly the
      ignored schema names, keeping the order of the rest. */
  function SchemaNames(names: seq<string>, ignores: Option<seq<string>>): (r: seq<string>)
    ensures forall x :: x in r <==> x in names && !(ignores.Some? && x in ignores.value)
    ensures !Truthy(ignores) ==> r == names
    ensures |r| <= |names|
    ensures |names| == 1 ==> r == (if ignores.Some? && names[0] in ignores.value then [] else names)
  {
    if names == [] then []
    else
      (if ignores.Some? && names[0] in ignores.value then [] else [names[0]])
      + SchemaNames(names[1..], ignores)
  }

  /** The filter works name by name in result-set order: filtering two
      consecutive parts of the list is filtering each and concatenating,
      so order and repetitions of the kept names are preserved. */
  lemma {:induction false} SchemaNamesConcat(a: seq<string>, b: seq<string>, ignores: Option<seq<string>>)
    ensures SchemaNames(a + b, ignores) == SchemaNames(a, ignores) + SchemaNames(b, ignores)
  {
    if a != [] {
      assert (a + b)[0] == a[0] && (a + b)[1..] == a[1..] + b;
      SchemaNamesConcat(a[1..], b, ignores);
    } else {
      assert a + b == b;
    }
  }

  /** A database with one schema and no ignore list: the code as written
      reports no schema at all, the intended filter reports it. */
  lemma SchemaFilterDropsAllWithoutIgnores()
    ensures SchemaNamesAsWritten(["sales"], None) == []
    ensures SchemaNames(["sales"], None) == ["sales"]
  {
  }
}
