/** Carrying human-entered annotations from a previous profiling snapshot
    into a freshly computed one (`migrate_table_meta`). Snapshots are the
    nested mappings the profiler emits, so the model works on JSON-like
    values rather than on `TableMeta`. */
module Migration {
  import opened Wrappers
  import Model

  datatype Json =
    | Null
    | Bool(b: bool)
    | Num(n: int)
    | Str(s: string)
    | List(items: seq<Json>)
    | Dict(entries: map<string, Json>)

  type Dict = map<string, Json>

  /** A table mapping with its `columns` list kept apart from the other
      fields; `columns == None` means the key is absent. */
  datatype TableData = TableData(fields: Dict, columns: Option<seq<Dict>>)

  /** What a call leaves behind: what it returns or raises, and the new
      mapping, which the source updates in place even when it then raises. */
  datatype Migrated = Migrated(outcome: Result<Option<TableData>, Model.Error>, newdata: TableData)

  /** The columns after the column loop, and the exception that stopped
      it, if any. */
  datatype ColumnsOutcome = ColumnsOutcome(cols: seq<Dict>, error: Option<Model.Error>)

  const TableAnnotations: set<string> := {"table_name_nls", "comment", "tags", "owner"}
  const ColumnAnnotations: set<string> := {"column_name_nls", "comment", "fk", "fk_ref"}
  const ColumnNameKey: string := "column_name"

  /** Python's `d.get(k)`: a missing key reads as `None`. */
  function Get(d: Dict, k: string): Json {
    if k in d then d[k] else Null
  }

  /** `dst` with every key of `keys` overwritten by `src.get(key)`. */
  function CopyKeys(dst: Dict, src: Dict, keys: set<string>): (r: Dict)
    ensures r.Keys == dst.Keys + keys
    ensures forall k :: k in keys ==> r[k] == Get(src, k)
    ensures forall k :: k in dst && k !in keys ==> r[k] == dst[k]
  {
    map k | k in dst.Keys + keys :: if k in keys then Get(src, k) else dst[k]
  }

  /** The last of the first `n` old columns named `name`: in the source's
      nested loop every later match overwrites the annotations an earlier
      one wrote. */
  function LastMatch(olds: seq<Dict>, name: Json, n: nat): (m: Option<Dict>)
    requires n <= |olds|
    requires forall j :: 0 <= j < |olds| ==> ColumnNameKey in olds[j]
    ensures m.None? <==> forall j :: 0 <= j < n ==> olds[j][ColumnNameKey] != name
    ensures m.Some? ==> exists j :: 0 <= j < n && olds[j] == m.value
                                    && olds[j][ColumnNameKey] == name
                                    && forall l :: j < l < n ==> olds[l][ColumnNameKey] != name
  {
    if n == 0 then None
    else if olds[n - 1][ColumnNameKey] == name then Some(olds[n - 1])
    else LastMatch(olds, name, n - 1)
  }

  /** What migration must leave in column `r`, stated without `LastMatch`:
      a column no old column matches is untouched; otherwise exactly the
      four annotation keys are taken from the last match. */
  predicate ColumnMigrated(col: Dict, olds: seq<Dict>, r: Dict)
    requires ColumnNameKey in col
    requires forall j :: 0 <= j < |olds| ==> ColumnNameKey in olds[j]
  {
    if forall j :: 0 <= j < |olds| ==> olds[j][ColumnNameKey] != col[ColumnNameKey] then
      r == col
    else
      exists j :: 0 <= j < |olds|
                  && olds[j][ColumnNameKey] == col[ColumnNameKey]
                  && (forall l :: j < l < |olds| ==> olds[l][ColumnNameKey] != col[ColumnNameKey])
                  && r.Keys == col.Keys + ColumnAnnotations
                  && (forall k :: k in ColumnAnnotations ==> r[k] == Get(olds[j], k))
                  && (forall k :: k in col && k !in ColumnAnnotations ==> r[k] == col[k])
  }

  function MigrateColumn(col: Dict, olds: seq<Dict>): (r: Dict)
    requires ColumnNameKey in col
    requires forall j :: 0 <= j < |olds| ==> ColumnNameKey in olds[j]
    ensures ColumnMigrated(col, olds, r)
  {
    match LastMatch(olds, col[ColumnNameKey], |olds|)
    case None => col
    case Some(o) => CopyKeys(col, o, ColumnAnnotations)
  }

  /** True when evaluating `oldc['column_name'] == col['column_name']`
      over every pair raises `KeyError`. */
  predicate ColumnLookupFails(news: seq<Dict>, olds: seq<Dict>) {
    && |news| > 0 && |olds| > 0
    && ((exists j :: 0 <= j < |news| && ColumnNameKey !in news[j])
        || (exists j :: 0 <= j < |olds| && ColumnNameKey !in olds[j]))
  }

  /** The position of the first mapping without a column name, or `|ds|`. */
  function FirstNameless(ds: seq<Dict>): (n: nat)
    ensures n <= |ds|
    ensures forall j :: 0 <= j < n ==> ColumnNameKey in ds[j]
    ensures n < |ds| ==> ColumnNameKey !in ds[n]
  {
    if ds == [] || ColumnNameKey !in ds[0] then 0 else 1 + FirstNameless(ds[1..])
  }

  /** `col` and `r` agree on every key other than the four annotations. */
  predicate SameOutsideAnnotations(col: Dict, r: Dict) {
    forall k :: k in col.Keys + r.Keys && k !in ColumnAnnotations ==> k in r && k in col && r[k] == col[k]
  }

  /** The inner loop for one column. With no old columns nothing is looked
      up. A column without a name raises at the first comparison. Otherwise
      the old columns are scanned in order up to the first one without a
      name, which raises; every match before it has already overwritten the
      annotations. */
  function MigrateColumnAt(col: Dict, olds: seq<Dict>): (r: (Dict, Option<Model.Error>))

    ensures SameOutsideAnnotations(col, r.0)
    ensures r.1.Some? <==> |olds| > 0 && (ColumnNameKey !in col || FirstNameless(olds) < |olds|)
    ensures r.1.Some? ==> r.1.value == Model.KeyError(ColumnNameKey)
    ensures |olds| == 0 || ColumnNameKey !in col ==> r.0 == col
    ensures r.1.None? && |olds| > 0 ==> ColumnNameKey in col && r.0 == MigrateColumn(col, olds)
    ensures ColumnNameKey in col && |olds| > 0 ==> r.0 == MigrateColumn(col, olds[..FirstNameless(olds)])
  {
    if |olds| == 0 then (col, None)
    else if ColumnNameKey !in col then (col, Some(Model.KeyError(ColumnNameKey)))
    else
      var n := FirstNameless(olds);
      var c := MigrateColumn(col, olds[..n]);
      assert olds[..|olds|] == olds;
      (c, if n < |olds| then Some(Model.KeyError(ColumnNameKey)) else None)
  }

  /** The column loop of `migrate_table_meta`, in place: columns are
      migrated in order until a lookup raises; that column keeps what the
      matches before the failing lookup wrote, and the later ones are left
      as they were. */
  function MigrateColumns(news: seq<Dict>, olds: seq<Dict>): (r: ColumnsOutcome)
    ensures |r.cols| == |news|
    ensures r.error.Some? ==> r.error.value == Model.KeyError(ColumnNameKey)
    ensures |olds| == 0 ==> r == ColumnsOutcome(news, None)
  {
    if news == [] then ColumnsOutcome([], None)
    else
      var (c, e) := MigrateColumnAt(news[0], olds);
      if e.Some? then
        ColumnsOutcome([c] + news[1..], e)
      else
        var rest := MigrateColumns(news[1..], olds);
        assert forall i :: 1 <= i < |news| ==> news[i] == news[1..][i - 1];
        ColumnsOutcome([c] + rest.cols, rest.error)
  }

  /** The column loop raises exactly when some comparison it reaches
      raises, and that is when some column or old column has no name. */
  lemma {:induction false} MigrateColumnsFails(news: seq<Dict>, olds: seq<Dict>)
    ensures MigrateColumns(news, olds).error.Some? <==> ColumnLookupFails(news, olds)
  {
    if news != [] && |olds| > 0 && ColumnNameKey in news[0] && FirstNameless(olds) == |olds| {
      MigrateColumnsFails(news[1..], olds);
      if ColumnLookupFails(news, olds) && (exists j :: 0 <= j < |news| && ColumnNameKey !in news[j]) {
        var j :| 0 <= j < |news| && ColumnNameKey !in news[j];
        assert j != 0 && ColumnNameKey !in news[1..][j - 1];
      }
      if ColumnLookupFails(news[1..], olds) && (exists j :: 0 <= j < |news[1..]| && ColumnNameKey !in news[1..][j]) {
        var j :| 0 <= j < |news[1..]| && ColumnNameKey !in news[1..][j];
        assert ColumnNameKey !in news[j + 1];
      }
    } else if news != [] && |olds| > 0 && FirstNameless(olds) < |olds| {
      assert ColumnNameKey !in olds[FirstNameless(olds)];
    }
  }

  /** The column loop writes only the four annotation keys, whether or
      not it raises. */
  lemma {:induction false} MigrateColumnsKeepOthers(news: seq<Dict>, olds: seq<Dict>)
    ensures var r := MigrateColumns(news, olds);
            forall i :: 0 <= i < |news| ==> SameOutsideAnnotations(news[i], r.cols[i])
  {
    if news != [] {
      var at := MigrateColumnAt(news[0], olds);
      var r := MigrateColumns(news, olds);
      if at.1.None? {
        var rest := MigrateColumns(news[1..], olds);
        MigrateColumnsKeepOthers(news[1..], olds);
        assert r.cols == [at.0] + rest.cols;
        forall i | 1 <= i < |news| ensures SameOutsideAnnotations(news[i], r.cols[i]) {
          assert news[i] == news[1..][i - 1] && r.cols[i] == rest.cols[i - 1];
        }
      }
    }
  }

  /** A loop that does not raise migrates every column from its last
      match. */
  lemma {:induction false} MigrateColumnsComplete(news: seq<Dict>, olds: seq<Dict>)
    requires MigrateColumns(news, olds).error.None? && |olds| > 0
    ensures var r := MigrateColumns(news, olds);
            forall i :: 0 <= i < |news| ==>
              ColumnNameKey in news[i] && r.cols[i] == MigrateColumn(news[i], olds)
  {
    if news != [] {
      var at := MigrateColumnAt(news[0], olds);
      var rest := MigrateColumns(news[1..], olds);
      var r := MigrateColumns(news, olds);
      assert at.1.None?;
      assert r.cols == [at.0] + rest.cols;
      MigrateColumnsComplete(news[1..], olds);
      forall i | 1 <= i < |news|
        ensures ColumnNameKey in news[i] && r.cols[i] == MigrateColumn(news[i], olds)
      {
        assert news[i] == news[1..][i - 1] && r.cols[i] == rest.cols[i - 1];
      }
    }
  }

  /** An old column without a name raises at the first column's scan: that
      column keeps the matches before it, the rest are untouched. */
  lemma MigrateColumnsStopAtNamelessOld(news: seq<Dict>, olds: seq<Dict>)
    requires news != [] && FirstNameless(olds) < |olds|
    ensures var r := MigrateColumns(news, olds);
            && r.error.Some?
            && r.cols[1..] == news[1..]
            && (ColumnNameKey !in news[0] ==> r.cols[0] == news[0])
            && (ColumnNameKey in news[0] ==> ColumnMigrated(news[0], olds[..FirstNameless(olds)], r.cols[0]))
  {
  }

  /** With every old column named, the first column without a name raises:
      the columns before it are migrated, it and the rest are untouched. */
  lemma {:induction false} MigrateColumnsStopAtNamelessColumn(news: seq<Dict>, olds: seq<Dict>)
    requires |olds| > 0 && FirstNameless(olds) == |olds| && FirstNameless(news) < |news|
    ensures var (r, i) := (MigrateColumns(news, olds), FirstNameless(news));
            && r.error.Some?
            && (forall l :: i <= l < |news| ==> r.cols[l] == news[l])
            && forall l :: 0 <= l < i ==> ColumnMigrated(news[l], olds, r.cols[l])
  {
    assert olds[..|olds|] == olds;
    if ColumnNameKey in news[0] {
      MigrateColumnsStopAtNamelessColumn(news[1..], olds);
      var r := MigrateColumns(news, olds);
      var rest := MigrateColumns(news[1..], olds);
      assert r.cols == [r.cols[0]] + rest.cols;
      forall l | 1 <= l < |news|
        ensures news[l] == news[1..][l - 1] && r.cols[l] == rest.cols[l - 1]
      {
      }
    }
  }

  /** `migrate_table_meta(olddata, newdata)`. Without an old snapshot it
      returns `None` and leaves `newdata` as it was. Otherwise the four
      table annotations are overwritten from `olddata.get`, even with
      `None` when the old snapshot lacks them, before anything can raise;
      a missing `columns` key then raises, and so does a column lookup,
      after the column loop has written what it reached. */
  function MigrateTableMeta(olddata: Option<TableData>, newdata: TableData): (r: Migrated)
    ensures olddata.None? ==> r == Migrated(Ok(None), newdata)
    ensures olddata.Some? ==>
              var f := r.newdata.fields;
              && f.Keys == newdata.fields.Keys + TableAnnotations
              && (forall k :: k in TableAnnotations ==> f[k] == Get(olddata.value.fields, k))
              && (forall k :: k in newdata.fields && k !in TableAnnotations ==> f[k] == newdata.fields[k])
    ensures olddata.Some? && newdata.columns.None? ==>
              r.outcome == Err(Model.KeyError("columns")) && r.newdata.columns.None?
    ensures olddata.Some? && newdata.columns.Some? ==>
              var (news, olds) := (newdata.columns.value, olddata.value.columns.GetOr([]));
              && r.newdata.columns == Some(MigrateColumns(news, olds).cols)
              && (r.outcome.Err? <==> ColumnLookupFails(news, olds))
              && (r.outcome.Err? ==> r.outcome.error == Model.KeyError(ColumnNameKey))
    ensures olddata.Some? && r.outcome.Ok? ==> r.outcome.value == Some(r.newdata)
    ensures olddata.Some? && r.outcome.Ok? ==>
              var news := newdata.columns.value;
              var olds := olddata.value.columns.GetOr([]);
              var cols := r.newdata.columns;
              && cols.Some? && |cols.value| == |news|
              && (|olds| == 0 ==> cols.value == news)
              && (|olds| > 0 ==> forall i :: 0 <= i < |news| ==>
                    ColumnNameKey in news[i] && ColumnMigrated(news[i], olds, cols.value[i]))
  {
    match olddata
    case None => Migrated(Ok(None), newdata)
    case Some(o) =>
      var fields := CopyKeys(newdata.fields, o.fields, TableAnnotations);
      match newdata.columns
      case None => Migrated(Err(Model.KeyError("columns")), TableData(fields, None))
      case Some(news) =>
        var c := MigrateColumns(news, o.columns.GetOr([]));
        MigrateColumnsFails(news, o.columns.GetOr([]));
        if c.error.None? && |o.columns.GetOr([])| > 0 then
          MigrateColumnsComplete(news, o.columns.GetOr([]));
          var data := TableData(fields, Some(c.cols));
          Migrated(Ok(Some(data)), data)
        else
        var data := TableData(fields, Some(c.cols));
        Migrated(if c.error.Some? then Err(c.error.value) else Ok(Some(data)), data)
  }

  lemma MigrateColumnIdempotent(col: Dict, olds: seq<Dict>)
    requires ColumnNameKey in col
    requires forall j :: 0 <= j < |olds| ==> ColumnNameKey in olds[j]
    ensures ColumnNameKey in MigrateColumn(col, olds)
    ensures MigrateColumn(MigrateColumn(col, olds), olds) == MigrateColumn(col, olds)
  {
    var once := MigrateColumn(col, olds);
    assert ColumnNameKey !in ColumnAnnotations;
    match LastMatch(olds, col[ColumnNameKey], |olds|)
    case None =>
    case Some(o) =>
      assert once[ColumnNameKey] == col[ColumnNameKey];
      assert CopyKeys(once, o, ColumnAnnotations) == once;
  }

  /** Migrating a second time from the same old snapshot changes nothing:
      the column names it matches on are never among the keys it writes. */
  lemma MigrationIsIdempotent(olddata: Option<TableData>, newdata: TableData)
    requires MigrateTableMeta(olddata, newdata).outcome.Ok?
    ensures var once := MigrateTableMeta(olddata, newdata).newdata;
            MigrateTableMeta(olddata, once) == MigrateTableMeta(olddata, newdata)
  {
    if olddata.Some? {
      var once := MigrateTableMeta(olddata, newdata).newdata;
      var news := newdata.columns.value;
      var olds := olddata.value.columns.GetOr([]);
      var cols := MigrateColumns(news, olds).cols;
      assert once == TableData(once.fields, Some(cols));
      assert CopyKeys(once.fields, olddata.value.fields, TableAnnotations) == once.fields;
      MigrateColumnsFails(news, olds);
      if |olds| > 0 {
        MigrateColumnsComplete(news, olds);
        forall i | 0 <= i < |news|
          ensures ColumnNameKey in cols[i]
          ensures MigrateColumn(cols[i], olds) == cols[i]
        {
          MigrateColumnIdempotent(news[i], olds);
        }
        MigrateColumnsFails(cols, olds);
        MigrateColumnsComplete(cols, olds);
        assert MigrateColumns(cols, olds) == ColumnsOutcome(cols, None);
      }
    }
  }

  /** Migration never touches a statistic, even when it raises: every
      column key other than the four annotations keeps its presence and
      its value. */
  lemma MigrationKeepsStatistics(olddata: TableData, newdata: TableData, i: nat, k: string)
    requires newdata.columns.Some? && i < |newdata.columns.value|
    requires k !in ColumnAnnotations
    ensures var cols := MigrateTableMeta(Some(olddata), newdata).newdata.columns;
            && cols.Some? && i < |cols.value|
            && (k in cols.value[i] <==> k in newdata.columns.value[i])
            && (k in cols.value[i] ==> cols.value[i][k] == newdata.columns.value[i][k])
  {
    MigrateColumnsKeepOthers(newdata.columns.value, olddata.columns.GetOr([]));
  }

  /** The table annotations are written before anything can raise: a
      snapshot without `columns` still has them when the `KeyError`
      surfaces. */
  lemma ColumnsKeyErrorAfterAnnotations()
    ensures var prev := TableData(map["comment" := Str("orders")], Some([]));
            var r := MigrateTableMeta(Some(prev), TableData(map[], None));
            && r.outcome == Err(Model.KeyError("columns"))
            && r.newdata.fields["comment"] == Str("orders")
  {
  }

  /** A column without a name stops the loop, after the columns before it
      were migrated. */
  lemma NamelessColumnAfterMigratedOne()
    ensures var a := map[ColumnNameKey := Str("a")];
            var prev := TableData(map[], Some([a["comment" := Str("PII")]]));
            var r := MigrateTableMeta(Some(prev), TableData(map[], Some([a, map[]])));
            && r.outcome == Err(Model.KeyError(ColumnNameKey))
            && r.newdata.columns.value[0]["comment"] == Str("PII")
            && r.newdata.columns.value[1] == map[]
  {
    var a := map[ColumnNameKey := Str("a")];
    var olds := [a["comment" := Str("PII")]];
    var news := [a, map[]];
    assert ColumnNameKey !in news[1];
    assert FirstNameless(olds) == 1 && FirstNameless(news) == 1;
    MigrateColumnsStopAtNamelessColumn(news, olds);
  }
}
