/** The MySQL profiler: the blob test, the one-query phase-1 profile and
    its per-table cache, frequent values, cardinalities, record validation
    and the schema list. The database is a set of answers, one per query
    shape. */
module MyProfiler {
  import opened Wrappers
  import opened Model
  import opened Queries

  /** ASCII upper-casing of one character. */
  function UpperChar(c: char): char {
    if 'a' <= c <= 'z' then (c as int - 32) as char else c
  }

  function Upper(s: string): (u: string)
    ensures |u| == |s|
    ensures forall i :: 0 <= i < |s| ==> u[i] == UpperChar(s[i])
  {
    if s == [] then [] else [UpperChar(s[0])] + Upper(s[1..])
  }

  /** The column types whose values cannot be compared. */
  const BlobTypes: seq<string> := ["TINYBLOB", "BLOB", "MEDIUMBLOB", "LONGBLOB"]

  /** `has_minmax`: the type name, upper-cased, is not a blob type. */
  predicate HasMinMax(dt: DataType) {
    Upper(dt.typeName) !in BlobTypes
  }

  /** `a` and `b` are the same string up to the case of ASCII letters. */
  predicate SameIgnoringCase(a: string, b: string) {
    |a| == |b| && forall i :: 0 <= i < |a| ==> UpperChar(a[i]) == UpperChar(b[i])
  }

  predicate AllUpper(s: string) {
    forall i :: 0 <= i < |s| ==> UpperChar(s[i]) == s[i]
  }

  /** A column has no min/max exactly when its type name is one of the
      blob types, ignoring case. */
  lemma HasMinMaxUnlessBlob(dt: DataType)
    ensures !HasMinMax(dt) <==> exists b :: b in BlobTypes && SameIgnoringCase(dt.typeName, b)
  {
    var s := dt.typeName;
    assert AllUpper("TINYBLOB") && AllUpper("BLOB") && AllUpper("MEDIUMBLOB") && AllUpper("LONGBLOB");
    assert forall b :: b in BlobTypes ==> AllUpper(b);
    if !HasMinMax(dt) {
      var b := Upper(s);
      assert b in BlobTypes && SameIgnoringCase(s, b);
    }
    if b :| b in BlobTypes && SameIgnoringCase(s, b) {
      assert Upper(s) == b;
    }
  }

  lemma BlobHasNoMinMax()
    ensures !HasMinMax(DataType("Blob", None))
  {
    var s := "Blob";
    var u := Upper(s);
    var m := "BLOB";
    forall i | 0 <= i < |m| ensures u[i] == m[i] {
      assert u[i] == UpperChar(s[i]);
    }
    assert u == BlobTypes[1];
  }

  lemma VarcharHasMinMax()
    ensures HasMinMax(DataType("varchar", Some(32)))
  {
    var u := Upper("varchar");
    assert |u| == 7;
    assert forall b :: b in BlobTypes ==> |b| != 7;
  }

  /** An item of the phase-1 select list. */
  datatype SelectItem = CountStar | NullCount(column: string) | Min(column: string) | Max(column: string) | NullLiteral

  /** The three items of one column: its null count, then `MIN`/`MAX`, or
      two `NULL` literals for a blob column. */
  function ColumnItems(c: string, dt: DataType): seq<SelectItem> {
    if HasMinMax(dt) then [NullCount(c), Min(c), Max(c)] else [NullCount(c), NullLiteral, NullLiteral]
  }

  function PerColumnItems(names: seq<string>, types: map<string, DataType>): (r: Result<seq<SelectItem>, Error>)
    ensures r.Ok? <==> forall i :: 0 <= i < |names| ==> names[i] in types
    ensures r.Err? ==> r.error.KeyError? && r.error.key in names && r.error.key !in types
    ensures r.Ok? ==> |r.value| == 3 * |names|
  {
    if names == [] then Ok([])
    else if names[0] !in types then Err(KeyError(names[0]))
    else
      var rest :- PerColumnItems(names[1..], types);
      Ok(ColumnItems(names[0], types[names[0]]) + rest)
  }

  /** Column `j`'s three items sit at positions `3j`, `3j+1`, `3j+2`. */
  lemma {:induction false} PerColumnItemsAt(names: seq<string>, types: map<string, DataType>, j: int)
    requires PerColumnItems(names, types).Ok? && 0 <= j < |names|
    ensures names[j] in types
    ensures var (v, c) := (PerColumnItems(names, types).value, ColumnItems(names[j], types[names[j]]));
            v[3 * j] == c[0] && v[3 * j + 1] == c[1] && v[3 * j + 2] == c[2]
  {
    var v := PerColumnItems(names, types).value;
    var first := ColumnItems(names[0], types[names[0]]);
    var rest := PerColumnItems(names[1..], types).value;
    assert v == first + rest;
    if j > 0 {
      PerColumnItemsAt(names[1..], types, j - 1);
      var k := 3 * (j - 1);
      assert v[3 * j] == rest[k] && v[3 * j + 1] == rest[k + 1] && v[3 * j + 2] == rest[k + 2];
    }
  }

  /** Behind the leading `COUNT(*)`, column `j`'s items start at `3j+1`. */
  lemma ColumnItemsAfterCount(names: seq<string>, types: map<string, DataType>, j: int)
    requires PerColumnItems(names, types).Ok? && 0 <= j < |names|
    ensures names[j] in types
    ensures var r := [CountStar] + PerColumnItems(names, types).value;
            && r[1 + 3 * j] == NullCount(names[j])
            && r[2 + 3 * j] == (if HasMinMax(types[names[j]]) then Min(names[j]) else NullLiteral)
            && r[3 + 3 * j] == (if HasMinMax(types[names[j]]) then Max(names[j]) else NullLiteral)
  {
    var items := PerColumnItems(names, types).value;
    PerColumnItemsAt(names, types, j);
    var r := [CountStar] + items;
    assert r[1 + 3 * j] == items[3 * j] && r[2 + 3 * j] == items[3 * j + 1] && r[3 + 3 * j] == items[3 * j + 2];
  }

  /** `__get_column_profile_phase1`'s select list: `COUNT(*)`, then three
      items per column. A column missing from the data types is a key
      error. */
  function Phase1SelectList(names: seq<string>, types: map<string, DataType>): (r: Result<seq<SelectItem>, Error>)
    ensures r.Ok? <==> forall i :: 0 <= i < |names| ==> names[i] in types
    ensures r.Ok? ==> |r.value| == 1 + 3 * |names| && r.value[0] == CountStar
    ensures r.Ok? ==> forall j :: 0 <= j < |names| ==>
                        && r.value[1 + 3 * j] == NullCount(names[j])
                        && r.value[2 + 3 * j] == (if HasMinMax(types[names[j]]) then Min(names[j]) else NullLiteral)
                        && r.value[3 + 3 * j] == (if HasMinMax(types[names[j]]) then Max(names[j]) else NullLiteral)
  {
    var items :- PerColumnItems(names, types);
    var r := [CountStar] + items;
    forall j | 0 <= j < |names|
      ensures && r[1 + 3 * j] == NullCount(names[j])
              && r[2 + 3 * j] == (if HasMinMax(types[names[j]]) then Min(names[j]) else NullLiteral)
              && r[3 + 3 * j] == (if HasMinMax(types[names[j]]) then Max(names[j]) else NullLiteral)
    {
      ColumnItemsAfterCount(names, types, j);
    }
    Ok(r)
  }

  /** A result row for a select list: one cell per item, integers where a
      count was asked for. */
  predicate AnswersSelectList(items: seq<SelectItem>, row: Row) {
    && |row| == |items|
    && forall i :: 0 <= i < |items| && (items[i].CountStar? || items[i].NullCount?) ==> row[i].Int?
  }

  /** The phase-1 select list always passes the `% 3` check of the shared
      decoder: an answer to it decodes into one triple per column. */
  lemma Phase1RowDecodes(names: seq<string>, types: map<string, DataType>, row: Row)
    requires Phase1SelectList(names, types).Ok?
    requires AnswersSelectList(Phase1SelectList(names, types).value, row)
    ensures ProfileRowShape(names, row) && TripleCount(row) == |names|
  {
    var items := Phase1SelectList(names, types).value;
    assert items[0] == CountStar;
    assert (|row| - 1) / 3 == |names|;
    forall j | 0 <= j < |names|
      ensures row[1 + 3 * j].Int?
    {
      assert items[1 + 3 * j] == NullCount(names[j]);
    }
  }

  datatype SortOrder = Asc | Desc

  /** The frequent-value query of one column: values grouped, sorted by
      count in the given order, at most `limit` of them. */
  datatype FreqQuery = FreqQuery(schema: string, table: string, column: string, order: SortOrder, limit: int)

  /** The database as the MySQL profiler sees it: the answer to each
      query it sends. */
  datatype Database = Database(
    columnNames: (string, string) -> Result<seq<string>, Error>,
    dataTypes: (string, string) -> Result<map<string, DataType>, Error>,
    /** `SELECT <items> FROM schema.table` */
    select: (string, string, seq<SelectItem>) -> Result<seq<Row>, Error>,
    freqValues: FreqQuery -> Result<seq<Row>, Error>,
    /** the number of distinct non-null values of one column */
    distinctCount: (string, string, string) -> Result<seq<Row>, Error>,
    /** the server-side cursor over the listed columns */
    records: (string, string, seq<string>) -> Result<Cursor, Error>)

  /** `prof` is what phase 1 decodes from the database's answers: the
      select list was built, answered by one well-shaped row, and `prof`
      holds the row count and, for column `j`, the null count at `1+3j`
      and min/max at `2+3j`, `3+3j` (the last position of a repeated
      name). */
  predicate Phase1Decoded(db: Database, schema: string, table: string, prof: ColumnProfile) {
    && db.columnNames(schema, table).Ok? && db.dataTypes(schema, table).Ok?
    && var names := db.columnNames(schema, table).value;
       var items := Phase1SelectList(names, db.dataTypes(schema, table).value);
       && items.Ok?
       && var rs := db.select(schema, table, items.value);
          && rs.Ok? && |rs.value| == 1 && ProfileRowShape(names, rs.value[0])
          && var (row, k) := (rs.value[0], TripleCount(rs.value[0]));
             && prof.numRows == row[0].i
             && prof.nulls.Keys == prof.minMax.Keys == (set j | 0 <= j < k :: names[j])
             && forall j :: 0 <= j < k && LastOccurrence(names, j, k) ==>
                  && prof.nulls[names[j]] == row[1 + 3 * j].i
                  && prof.minMax[names[j]] == (row[2 + 3 * j], row[3 + 3 * j])
  }

  /** Phase 1 without the cache: discover the columns and their types,
      send the select list, decode the one-row answer. */
  method Phase1(db: Database, schema: string, table: string) returns (r: Result<ColumnProfile, Error>)
    ensures db.columnNames(schema, table).Err? ==> r == Err(db.columnNames(schema, table).error)
    ensures db.columnNames(schema, table).Ok? && db.dataTypes(schema, table).Err? ==>
              r == Err(db.dataTypes(schema, table).error)
    ensures db.columnNames(schema, table).Ok? && db.dataTypes(schema, table).Ok? ==>
              var names := db.columnNames(schema, table).value;
              var items := Phase1SelectList(names, db.dataTypes(schema, table).value);
              && (items.Err? ==> r == Err(items.error))
              && (items.Ok? && db.select(schema, table, items.value).Err? ==>
                    r == Err(db.select(schema, table, items.value).error))
              && (r.Ok? <==> (&& items.Ok? && db.select(schema, table, items.value).Ok?
                              && |db.select(schema, table, items.value).value| == 1
                              && ProfileRowShape(names, db.select(schema, table, items.value).value[0])))
    ensures r.Ok? ==> Phase1Decoded(db, schema, table, r.value)
    ensures db.columnNames(schema, table).Ok? && db.dataTypes(schema, table).Ok? ==>
              var names := db.columnNames(schema, table).value;
              var items := Phase1SelectList(names, db.dataTypes(schema, table).value);
              (&& items.Ok? && db.select(schema, table, items.value).Ok?
               && |db.select(schema, table, items.value).value| == 1
               && AnswersSelectList(items.value, db.select(schema, table, items.value).value[0]))
              ==> r.Ok?
  {
    var names :- db.columnNames(schema, table);
    var types :- db.dataTypes(schema, table);
    var items :- Phase1SelectList(names, types);
    var rs := db.select(schema, table, items);
    if rs.Ok? && |rs.value| == 1 && AnswersSelectList(items, rs.value[0]) {
      Phase1RowDecodes(names, types, rs.value[0]);
    }
    r := QueryColumnProfile(names, rs);
  }

  /** The MySQL profiler's own state: phase-1 results per (schema, table). */
  datatype MyProfiler = MyProfiler(columnCache: map<(string, string), ColumnProfile>)

  /** The cached phase-1 result of the table, computing it on a miss.
      `queried` says whether the database was asked. */
  method CachedProfile(p: MyProfiler, db: Database, schema: string, table: string)
    returns (q: MyProfiler, r: Result<ColumnProfile, Error>, queried: bool)
    ensures queried <==> (schema, table) !in p.columnCache
    ensures !queried ==> q == p && r == Ok(p.columnCache[(schema, table)])
    ensures queried && r.Ok? ==> Phase1Decoded(db, schema, table, r.value)
    ensures r.Ok? ==> q.columnCache == p.columnCache[(schema, table) := r.value]
    ensures r.Err? ==> q == p
  {
    if (schema, table) in p.columnCache {
      return p, Ok(p.columnCache[(schema, table)]), false;
    }
    r := Phase1(db, schema, table);
    queried := true;
    q := if r.Ok? then MyProfiler(p.columnCache[(schema, table) := r.value]) else p;
  }

  /** `get_row_count`: component 0 of the cached triple; counting from the
      statistics is not implemented. */
  method GetRowCount(p: MyProfiler, db: Database, schema: string, table: string, useStatistics: bool)
    returns (q: MyProfiler, r: Result<int, Error>, queried: bool)
    ensures useStatistics ==> q == p && r == Err(NotImplementedError) && !queried
    ensures !useStatistics ==> (queried <==> (schema, table) !in p.columnCache)
    ensures r.Ok? ==> (schema, table) in q.columnCache && r.value == q.columnCache[(schema, table)].numRows
    ensures queried && r.Ok? ==> Phase1Decoded(db, schema, table, q.columnCache[(schema, table)])
    ensures !useStatistics && (schema, table) in p.columnCache ==>
              q == p && r == Ok(p.columnCache[(schema, table)].numRows)
    ensures r.Err? ==> q == p
  {
    if useStatistics {
      return p, Err(NotImplementedError), false;
    }
    var profile;
    q, profile, queried := CachedProfile(p, db, schema, table);
    r := if profile.Ok? then Ok(profile.value.numRows) else Err(profile.error);
  }

  /** `get_column_nulls`: component 2 of the cached triple. */
  method GetColumnNulls(p: MyProfiler, db: Database, schema: string, table: string, useStatistics: bool)
    returns (q: MyProfiler, r: Result<map<string, int>, Error>, queried: bool)
    ensures useStatistics ==> q == p && r == Err(NotImplementedError) && !queried
    ensures !useStatistics ==> (queried <==> (schema, table) !in p.columnCache)
    ensures r.Ok? ==> (schema, table) in q.columnCache && r.value == q.columnCache[(schema, table)].nulls
    ensures queried && r.Ok? ==> Phase1Decoded(db, schema, table, q.columnCache[(schema, table)])
    ensures !useStatistics && (schema, table) in p.columnCache ==>
              q == p && r == Ok(p.columnCache[(schema, table)].nulls)
    ensures r.Err? ==> q == p
  {
    if useStatistics {
      return p, Err(NotImplementedError), false;
    }
    var profile;
    q, profile, queried := CachedProfile(p, db, schema, table);
    r := if profile.Ok? then Ok(profile.value.nulls) else Err(profile.error);
  }

  /** `get_column_min_max`: component 1 of the cached triple. */
  method GetColumnMinMax(p: MyProfiler, db: Database, schema: string, table: string)
    returns (q: MyProfiler, r: Result<map<string, (Value, Value)>, Error>, queried: bool)
    ensures queried <==> (schema, table) !in p.columnCache
    ensures r.Ok? ==> (schema, table) in q.columnCache && r.value == q.columnCache[(schema, table)].minMax
    ensures queried && r.Ok? ==> Phase1Decoded(db, schema, table, q.columnCache[(schema, table)])
    ensures (schema, table) in p.columnCache ==> q == p && r == Ok(p.columnCache[(schema, table)].minMax)
    ensures r.Err? ==> q == p
  {
    var profile;
    q, profile, queried := CachedProfile(p, db, schema, table);
    r := if profile.Ok? then Ok(profile.value.minMax) else Err(profile.error);
  }

  /** The three reads the pipeline makes of one table, in its order: once
      the row count is answered, phase 1 is never sent again, and the three
      answers are the components of one cached triple. */
  method ReadColumnProfile(p: MyProfiler, db: Database, schema: string, table: string)
    returns (q: MyProfiler, rows: Result<int, Error>, nulls: Result<map<string, int>, Error>,
             minMax: Result<map<string, (Value, Value)>, Error>, queries: nat)
    ensures rows.Ok? ==> queries == (if (schema, table) in p.columnCache then 0 else 1)
    ensures rows.Ok? ==> nulls.Ok? && minMax.Ok?
    ensures rows.Ok? ==>
              (schema, table) in q.columnCache
              && q.columnCache[(schema, table)] == ColumnProfile(rows.value, minMax.value, nulls.value)
    ensures rows.Ok? && (schema, table) !in p.columnCache ==>
              Phase1Decoded(db, schema, table, ColumnProfile(rows.value, minMax.value, nulls.value))
  {
    var q1, q2, a1, a2, a3;
    q1, rows, a1 := GetRowCount(p, db, schema, table, false);
    q2, nulls, a2 := GetColumnNulls(q1, db, schema, table, false);
    q, minMax, a3 := GetColumnMinMax(q2, db, schema, table);
    queries := (if a1 then 1 else 0) + (if a2 then 1 else 0) + (if a3 then 1 else 0);
  }

  /** A frequent-value row the trace line can format: a value cell and an
      integer count cell. */
  predicate FreqRowUsable(row: Row) {
    |row| >= 2 && row[1].Int?
  }

  /** The exception the trace line of `_query_value_freqs` raises on an
      unusable row: indexing comes first, then `%d` on the count. */
  function FreqRowError(row: Row): Error {
    if |row| < 2 then IndexError else TypeError
  }

  /** The `[value, count]` pairs of a frequent-value answer, in row order.
      The first unusable row decides the error. */
  function FreqPairs(rows: seq<Row>): (r: Result<seq<FreqPair>, Error>)
    ensures r.Ok? <==> forall i :: 0 <= i < |rows| ==> FreqRowUsable(rows[i])
    ensures r.Err? ==>
              exists i :: && 0 <= i < |rows| && !FreqRowUsable(rows[i])
                          && (forall k :: 0 <= k < i ==> FreqRowUsable(rows[k]))
                          && r.error == FreqRowError(rows[i])
    ensures r.Ok? ==> |r.value| == |rows| && forall i :: 0 <= i < |rows| ==> r.value[i] == FreqPair(rows[i][0], rows[i][1])
  {
    if rows == [] then Ok([])
    else if !FreqRowUsable(rows[0]) then Err(FreqRowError(rows[0]))
    else
      match FreqPairs(rows[1..])
      case Err(e) =>
        ghost var i :| && 0 <= i < |rows[1..]| && !FreqRowUsable(rows[1..][i])
                       && (forall k :: 0 <= k < i ==> FreqRowUsable(rows[1..][k]))
                       && e == FreqRowError(rows[1..][i]);
        assert forall k :: 0 <= k < i + 1 ==> FreqRowUsable(rows[k]);
        Err(e)
      case Ok(rest) => Ok([FreqPair(rows[0][0], rows[0][1])] + rest)
  }

  /** The frequent values of one column: none for a blob column. */
  function ColumnFreqs(db: Database, q: FreqQuery, dt: DataType): Result<seq<FreqPair>, Error> {
    if !HasMinMax(dt) then Ok([])
    else
      var rows :- db.freqValues(q);
      FreqPairs(rows)
  }

  function FreqsFor(db: Database, schema: string, table: string, names: seq<string>, types: map<string, DataType>,
                    order: SortOrder, limit: int): (r: Result<map<string, seq<FreqPair>>, Error>)
    ensures r.Ok? ==> r.value.Keys == set i | 0 <= i < |names| :: names[i]
    ensures r.Ok? ==> forall i :: 0 <= i < |names| ==>
                        && names[i] in types
                        && ColumnFreqs(db, FreqQuery(schema, table, names[i], order, limit), types[names[i]])
                           == Ok(r.value[names[i]])
    ensures (forall i :: 0 <= i < |names| ==>
               names[i] in types && ColumnFreqs(db, FreqQuery(schema, table, names[i], order, limit), types[names[i]]).Ok?)
            ==> r.Ok?
  {
    if names == [] then Ok(map[])
    else if names[0] !in types then Err(KeyError(names[0]))
    else
      var first :- ColumnFreqs(db, FreqQuery(schema, table, names[0], order, limit), types[names[0]]);
      var rest :- FreqsFor(db, schema, table, names[1..], types, order, limit);
      assert forall i :: 1 <= i < |names| ==> names[i] == names[1..][i - 1];
      Ok(rest[names[0] := first])
  }

  /** `__get_column_freq_values`: a key for every column name; `limit` is
      the number of values asked for. */
  function GetColumnFreqValues(db: Database, schema: string, table: string, ascending: bool, limit: int)
    : Result<map<string, seq<FreqPair>>, Error>
  {
    var names :- db.columnNames(schema, table);
    var types :- db.dataTypes(schema, table);
    FreqsFor(db, schema, table, names, types, if ascending then Asc else Desc, limit)
  }

  function GetColumnMostFreqValues(db: Database, schema: string, table: string, limit: int)
    : Result<map<string, seq<FreqPair>>, Error>
  {
    GetColumnFreqValues(db, schema, table, false, limit)
  }

  function GetColumnLeastFreqValues(db: Database, schema: string, table: string, limit: int)
    : Result<map<string, seq<FreqPair>>, Error>
  {
    GetColumnFreqValues(db, schema, table, true, limit)
  }

  /** The frequent-value maps name every column; a blob column maps to no
      values; the most frequent come from the descending query and the
      least frequent from the ascending one. */
  lemma FreqValueMapsShape(db: Database, schema: string, table: string, limit: int, c: string)
    ensures var most := GetColumnMostFreqValues(db, schema, table, limit);
            most.Ok? ==>
              && most.value.Keys == set n | n in db.columnNames(schema, table).value
              && (c in most.value ==>
                    var dt := db.dataTypes(schema, table).value[c];
                    && (!HasMinMax(dt) ==> most.value[c] == [])
                    && (HasMinMax(dt) ==>
                          db.freqValues(FreqQuery(schema, table, c, Desc, limit)).Ok?
                          && FreqPairs(db.freqValues(FreqQuery(schema, table, c, Desc, limit)).value) == Ok(most.value[c])))
    ensures var least := GetColumnLeastFreqValues(db, schema, table, limit);
            least.Ok? ==>
              && least.value.Keys == set n | n in db.columnNames(schema, table).value
              && (c in least.value ==>
                    var dt := db.dataTypes(schema, table).value[c];
                    && (!HasMinMax(dt) ==> least.value[c] == [])
                    && (HasMinMax(dt) ==>
                          db.freqValues(FreqQuery(schema, table, c, Asc, limit)).Ok?
                          && FreqPairs(db.freqValues(FreqQuery(schema, table, c, Asc, limit)).value) == Ok(least.value[c])))
  {
    FreqValueMapShape(db, schema, table, false, limit, c);
    FreqValueMapShape(db, schema, table, true, limit, c);
  }

  /** One frequent-value map: every column named, nothing asked for a blob
      column, the query's answer for every other. */
  lemma FreqValueMapShape(db: Database, schema: string, table: string, ascending: bool, limit: int, c: string)
    ensures var m := GetColumnFreqValues(db, schema, table, ascending, limit);
            var order := if ascending then Asc else Desc;
            m.Ok? ==>
              && m.value.Keys == set n | n in db.columnNames(schema, table).value
              && (c in m.value ==>
                    var dt := db.dataTypes(schema, table).value[c];
                    && (!HasMinMax(dt) ==> m.value[c] == [])
                    && (HasMinMax(dt) ==>
                          db.freqValues(FreqQuery(schema, table, c, order, limit)).Ok?
                          && FreqPairs(db.freqValues(FreqQuery(schema, table, c, order, limit)).value) == Ok(m.value[c])))
  {
    var m := GetColumnFreqValues(db, schema, table, ascending, limit);
    if m.Ok? {
      var names := db.columnNames(schema, table).value;
      assert (set n | n in names) == (set i | 0 <= i < |names| :: names[i]);
    }
  }

  /** `int()` of a driver value. */
  function IntOf(v: Value): Result<int, Error> {
    if v.Int? then Ok(v.i) else Err(TypeError)
  }

  /** `_query_column_cardinality`: every row overwrites the entry, so the
      last row's first cell wins; no row, no entry. Rows are read in order,
      so the first bad row decides the error. */
  function LastCount(rows: seq<Row>): (r: Result<Option<int>, Error>)
    ensures rows == [] ==> r == Ok(None)
    ensures r.Ok? <==> forall i :: 0 <= i < |rows| ==> |rows[i]| >= 1 && rows[i][0].Int?
    ensures r.Ok? && rows != [] ==> r.value == Some(rows[|rows| - 1][0].i)
  {
    if rows == [] then Ok(None)
    else if rows[0] == [] then Err(IndexError)
    else
      var n :- IntOf(rows[0][0]);
      var rest :- LastCount(rows[1..]);
      if rest.Some? then Ok(rest) else Ok(Some(n))
  }

  /** The cardinality answer of one column. */
  function ColumnCardinality(db: Database, schema: string, table: string, c: string): Result<Option<int>, Error> {
    var rows :- db.distinctCount(schema, table, c);
    LastCount(rows)
  }

  function CardinalitiesFor(db: Database, schema: string, table: string, names: seq<string>)
    : (r: Result<map<string, int>, Error>)
    ensures r.Ok? <==> forall i :: 0 <= i < |names| ==> ColumnCardinality(db, schema, table, names[i]).Ok?
    ensures r.Ok? ==>
              r.value.Keys == set i | 0 <= i < |names| && ColumnCardinality(db, schema, table, names[i]).value.Some?
                                    :: names[i]
    ensures r.Ok? ==> forall c :: c in r.value ==> ColumnCardinality(db, schema, table, c) == Ok(Some(r.value[c]))
  {
    if names == [] then Ok(map[])
    else
      var first :- ColumnCardinality(db, schema, table, names[0]);
      var rest :- CardinalitiesFor(db, schema, table, names[1..]);
      assert forall i :: 1 <= i < |names| ==> names[i] == names[1..][i - 1];
      if first.Some? then Ok(rest[names[0] := first.value]) else Ok(rest)
  }

  /** `get_column_cardinalities`: one query per discovered column; from the
      statistics it is not implemented. */
  function GetColumnCardinalities(db: Database, schema: string, table: string, useStatistics: bool)
    : Result<map<string, int>, Error>
  {
    if useStatistics then Err(NotImplementedError)
    else
      var names :- db.columnNames(schema, table);
      CardinalitiesFor(db, schema, table, names)
  }

  /** When each count query answers with one integer row, the cardinality
      map has exactly one entry per discovered column, holding that count. */
  lemma CardinalityPerColumn(db: Database, schema: string, table: string)
    requires db.columnNames(schema, table).Ok?
    requires forall c :: c in db.columnNames(schema, table).value ==>
               db.distinctCount(schema, table, c).Ok?
               && |db.distinctCount(schema, table, c).value| == 1
               && |db.distinctCount(schema, table, c).value[0]| >= 1
               && db.distinctCount(schema, table, c).value[0][0].Int?
    ensures var r := GetColumnCardinalities(db, schema, table, false);
            && r.Ok?
            && r.value.Keys == set c | c in db.columnNames(schema, table).value
            && forall c :: c in r.value ==> r.value[c] == db.distinctCount(schema, table, c).value[0][0].i
  {
    var names := db.columnNames(schema, table).value;
    assert forall i :: 0 <= i < |names| ==>
             (ColumnCardinality(db, schema, table, names[i]).Ok?
              && ColumnCardinality(db, schema, table, names[i]).value.Some?);
    assert (set c | c in names) == (set i | 0 <= i < |names| :: names[i]);
  }

  /** The validator of `run_record_validation`, opaque: whether the rules
      hold any record rule, the record check, and the findings it reports
      after seeing the records. */
  datatype RecordValidator = RecordValidator(
    hasRecordRules: bool,
    accepts: (seq<string>, Row) -> bool,
    results: (seq<string>, seq<Row>) -> map<string, Findings>)

  /** `run_record_validation`: nothing to do without record rules; a table
      without columns is an internal error; otherwise stream every record
      of the table through the validator and report its findings. */
  method RunRecordValidation(db: Database, schema: string, table: string, v: RecordValidator, fetchSize: nat)
    returns (r: Result<map<string, Findings>, Error>)
    requires fetchSize > 0
    ensures !v.hasRecordRules ==> r == Ok(map[])
    ensures v.hasRecordRules && db.columnNames(schema, table) == Ok([]) ==> r == Err(InternalError(None))
    ensures v.hasRecordRules && db.columnNames(schema, table).Err? ==> r == Err(db.columnNames(schema, table).error)
    ensures v.hasRecordRules && r.Ok? ==>
              && db.columnNames(schema, table).Ok? && db.columnNames(schema, table).value != []
              && var cursor := db.records(schema, table, db.columnNames(schema, table).value);
                 && cursor.Ok? && cursor.value.description != []
                 && r.value == v.results(cursor.value.description, cursor.value.rows)
    ensures (&& v.hasRecordRules && db.columnNames(schema, table).Ok? && db.columnNames(schema, table).value != []
             && db.records(schema, table, db.columnNames(schema, table).value).Ok?
             && db.records(schema, table, db.columnNames(schema, table).value).value.description != [])
            ==> r.Ok?
  {
    if !v.hasRecordRules {
      return Ok(map[]);
    }
    var names :- db.columnNames(schema, table);
    if names == [] {
      return Err(InternalError(None));
    }
    var cursor := db.records(schema, table, names);
    var counts, _ := QueryRecordValidation(cursor, v.accepts, fetchSize);
    if counts.Err? {
      return Err(counts.error);
    }
    r := Ok(v.results(cursor.value.description, cursor.value.rows));
  }

  /** The system schemas the MySQL profiler never lists. */
  const IgnoredSchemas: seq<string> := ["information_schema", "mysql", "performance_schema", "sys"]

  /** `get_schema_names`: exactly the non-system schemas. The ignore list
      is not empty, so the shared filter as written agrees with the
      intended one here. */
  function GetSchemaNames(names: seq<string>): (r: seq<string>)
    ensures r == SchemaNamesAsWritten(names, Some(IgnoredSchemas))
    ensures forall x :: x in r <==> x in names && x !in IgnoredSchemas
  {
    SchemaNames(names, Some(IgnoredSchemas))
  }
}
