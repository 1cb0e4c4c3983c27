/** The data the profiler works on: driver values, the exceptions the
    pipeline can raise, and one table's profiling snapshot. */
module Model {
  import opened Wrappers

  /** A value as a database driver hands it back. `Bytes` is a raw byte
      string that still has to be decoded before it becomes text. */
  datatype Value = Null | Int(i: int) | Text(s: string) | Bytes(b: seq<bv8>)

  type Row = seq<Value>

  /** The exceptions that cross the boundaries of the modelled code. */
  datatype Error =
    | InternalError(failedQuery: Option<string>)
    | QueryError(query: string)
    | QueryTimeout
    | DriverError
    | KeyError(key: string)
    | IndexError
    | AssertionError
    | NotImplementedError
    | TypeError
      /** Any other exception raised by a database module. */
    | OtherError(detail: string)

  /** A column's `[type, length]` pair. */
  datatype DataType = DataType(typeName: string, length: Option<int>)

  /** One `[value, count]` entry of a frequent-value list. */
  datatype FreqPair = FreqPair(value: Value, count: Value)

  /** Rule name to number of invalid records. */
  type Findings = map<string, int>

  /** One column's profile. The statistics stay `None` until the step that
      computes them runs; the annotations are only ever migrated. */
  datatype ColumnMeta = ColumnMeta(
    name: string,
    dataType: Option<DataType>,
    nulls: Option<int>,
    min: Option<string>,
    max: Option<string>,
    mostFreqValues: Option<seq<FreqPair>>,
    leastFreqValues: Option<seq<FreqPair>>,
    cardinality: Option<int>,
    validation: Option<Findings>,
    nameNls: Option<string>,
    comment: Option<string>,
    fk: Option<string>,
    fkRef: Option<string>)

  /** A freshly allocated column profile with nothing but its name. */
  function NewColumnMeta(name: string): (c: ColumnMeta)
    ensures c.name == name && c.dataType == None && HasNoStats(c)
  {
    ColumnMeta(name, None, None, None, None, None, None, None, None, None, None, None, None)
  }

  /** None of the statistics of the column has been computed. */
  predicate HasNoStats(c: ColumnMeta) {
    && c.nulls == None && c.min == None && c.max == None
    && c.mostFreqValues == None && c.leastFreqValues == None
    && c.cardinality == None && c.validation == None
  }

  /** One profiling snapshot of a table. */
  datatype TableMeta = TableMeta(
    databaseName: string,
    schemaName: string,
    tableName: string,
    timestamp: int,
    columnNames: seq<string>,
    columns: seq<ColumnMeta>,
    rowCount: Option<int>,
    sampleRows: Option<seq<Row>>)

  /** `columns` holds one profile per discovered name, in discovery order. */
  predicate WellFormed(t: TableMeta) {
    && |t.columns| == |t.columnNames|
    && forall i :: 0 <= i < |t.columns| ==> t.columns[i].name == t.columnNames[i]
  }

  predicate NoColumnStats(t: TableMeta) {
    forall i :: 0 <= i < |t.columns| ==> HasNoStats(t.columns[i])
  }

  /** An opaque validation rule specification. */
  datatype Rule = Rule(spec: seq<string>)

  /** The profiler's configuration: the class-level settings of the base
      profiler, fixed for an instance. */
  datatype Config = Config(
    databaseName: string,
    rowCountEnabled: bool,
    minMaxEnabled: bool,
    nullsEnabled: bool,
    numFreqValues: int,
    cardinalityEnabled: bool,
    sampleRowsEnabled: bool,
    columnProfilingThreshold: int,
    skipTableProfiling: bool)

  /** The class defaults: every statistic on, ten frequent values, a
      threshold of 100,000,000 rows, table profiling not skipped. */
  function DefaultConfig(databaseName: string): (c: Config)
    ensures c.rowCountEnabled && c.minMaxEnabled && c.nullsEnabled && c.cardinalityEnabled
    ensures c.sampleRowsEnabled && !c.skipTableProfiling
    ensures c.numFreqValues == 10 && c.columnProfilingThreshold == 100_000_000
  {
    Config(databaseName, true, true, true, 10, true, true, 100_000_000, false)
  }

  /** A request the pipeline sends to the dialect profiler. */
  datatype Call =
    | GetColumnNames
    | GetColumnDatatypes
    | GetSampleRows
    | GetRowCount(useStatistics: bool)
    | GetColumnNulls
    | GetColumnMinMax
    | GetMostFreqValues
    | GetLeastFreqValues
    | GetColumnCardinalities
    | RunRecordValidation
    | RunPostscanValidation

  /** The requests one pipeline step made, in order, and what it produced. */
  datatype Step = Step(calls: seq<Call>, result: Result<TableMeta, Error>)

  /** `first` followed by `next`, when `first` succeeded. */
  function After(first: Step, next: Step): (s: Step)
    requires first.result.Ok?
    ensures s.result == next.result && |s.calls| == |first.calls| + |next.calls|
  {
    Step(first.calls + next.calls, next.result)
  }

  /** The position of each request in the pipeline's fixed step order. */
  function Rank(c: Call): nat {
    match c
    case GetColumnNames => 0
    case GetColumnDatatypes => 1
    case GetSampleRows => 2
    case GetRowCount(useStatistics) => if useStatistics then 4 else 3
    case GetColumnNulls => 5
    case GetColumnMinMax => 6
    case GetMostFreqValues => 7
    case GetLeastFreqValues => 8
    case GetColumnCardinalities => 9
    case RunRecordValidation => 10
    case RunPostscanValidation => 11
  }

  /** The requests are made in pipeline order, none of them twice. */
  predicate InPipelineOrder(calls: seq<Call>) {
    forall i, j :: 0 <= i < j < |calls| ==> Rank(calls[i]) < Rank(calls[j])
  }

  /** Every request ranks within `[lo, hi]`. */
  predicate RanksWithin(calls: seq<Call>, lo: nat, hi: nat) {
    forall i :: 0 <= i < |calls| ==> lo <= Rank(calls[i]) <= hi
  }

  /** A prefix of an ordered request list is ordered within the same ranks. */
  lemma InPipelineOrderPrefix(all: seq<Call>, prefix: seq<Call>, lo: nat, hi: nat)
    requires prefix <= all && InPipelineOrder(all) && RanksWithin(all, lo, hi)
    ensures InPipelineOrder(prefix) && RanksWithin(prefix, lo, hi)
  {
    assert prefix == all[..|prefix|];
  }

  /** A request ranked outside `[lo, hi]` is not among requests ranked
      within it. */
  lemma RankedOutside(calls: seq<Call>, lo: nat, hi: nat, c: Call)
    requires RanksWithin(calls, lo, hi) && !(lo <= Rank(c) <= hi)
    ensures c !in calls
  {
  }

  /** Appending a request ranked after every request of an ordered list
      keeps it ordered. */
  lemma AppendCall(calls: seq<Call>, c: Call, lo: nat, hi: nat)
    requires InPipelineOrder(calls) && RanksWithin(calls, lo, hi)
    requires hi < Rank(c) && lo <= Rank(c)
    ensures InPipelineOrder(calls + [c]) && RanksWithin(calls + [c], lo, Rank(c))
  {
    var r := calls + [c];
    assert r[|calls|] == c;
    forall i | 0 <= i < |calls|
      ensures r[i] == calls[i]
    {
    }
  }

  lemma InPipelineOrderConcat(a: seq<Call>, b: seq<Call>, lo: nat, mid: nat, hi: nat)
    requires InPipelineOrder(a) && RanksWithin(a, lo, mid)
    requires InPipelineOrder(b) && RanksWithin(b, mid + 1, hi)
    requires lo <= mid + 1 <= hi + 1
    ensures InPipelineOrder(a + b) && RanksWithin(a + b, lo, hi)
  {
    forall i, j | 0 <= i < j < |a + b|
      ensures Rank((a + b)[i]) < Rank((a + b)[j])
    {
      if j < |a| {
        assert (a + b)[i] == a[i] && (a + b)[j] == a[j];
      } else if i < |a| {
        assert (a + b)[i] == a[i] && (a + b)[j] == b[j - |a|];
      } else {
        assert (a + b)[i] == b[i - |a|] && (a + b)[j] == b[j - |a|];
      }
    }
    forall i | 0 <= i < |a + b|
      ensures lo <= Rank((a + b)[i]) <= hi
    {
      if i < |a| {
        assert (a + b)[i] == a[i];
      } else {
        assert (a + b)[i] == b[i - |a|];
      }
    }
  }
}
