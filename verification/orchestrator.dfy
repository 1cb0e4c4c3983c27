/** The profiling pipeline of one table: build the snapshot, data types,
    sample rows, row count, the three gates, column profiling, record
    validation and post-scan validation, with the instance state the
    profiler carries from one run to the next. */
module Orchestrator {
  import opened Wrappers
  import opened Model
  import opened ColumnStats

  /** The mutable part of a profiler instance: its configuration never
      changes, `skipColumnProfiling` and `timeout` are written by runs. */
  datatype Profiler = Profiler(config: Config, skipColumnProfiling: bool, timeout: Option<int>)

  /** What the dialect profiler answers to each request of one run. The
      row count from statistics is only asked for after a timeout; the
      post-scan validator is an opaque function of the snapshot. */
  datatype Answers = Answers(
    columnNames: Result<seq<string>, Error>,
    dataTypes: Result<map<string, DataType>, Error>,
    sampleRows: Result<seq<Row>, Error>,
    rowCount: Result<int, Error>,
    rowCountFromStatistics: Result<int, Error>,
    statistics: Statistics,
    validation: Result<map<string, Findings>, Error>,
    postscan: TableMeta -> Result<TableMeta, Error>)

  /** The snapshot the pipeline built and the table data it returns; the
      two differ only when post-scan validation ran. */
  datatype Output = Output(snapshot: TableMeta, data: TableMeta)

  /** The arguments of one `run` call. */
  datatype RunArgs = RunArgs(schema: string, table: string, skipRecordValidation: bool,
                             rules: Option<seq<Rule>>, timeout: Option<int>)

  datatype RunOutcome = RunOutcome(profiler: Profiler, calls: seq<Call>, result: Result<Output, Error>)

  /** One empty column profile per name, in the order given. */
  function FreshColumns(names: seq<string>): (cols: seq<ColumnMeta>)
    ensures |cols| == |names|
    ensures forall i :: 0 <= i < |names| ==> cols[i].name == names[i] && HasNoStats(cols[i])
  {
    seq(|names|, i requires 0 <= i < |names| => NewColumnMeta(names[i]))
  }

  /** `_build_tablemeta`: a fresh snapshot with one empty column profile
      per discovered name, in discovery order. */
  function BuildTableMeta(databaseName: string, schema: string, table: string, now: int, names: seq<string>)
    : (t: TableMeta)
    ensures WellFormed(t) && NoColumnStats(t)
    ensures t.columnNames == names && t.rowCount == None && t.sampleRows == None
    ensures t.databaseName == databaseName && t.schemaName == schema && t.tableName == table
  {
    TableMeta(databaseName, schema, table, now, names, FreshColumns(names), None, None)
  }

  function SetDataType(c: ColumnMeta, d: DataType): ColumnMeta {
    c.(dataType := Some(d))
  }

  /** `_profile_data_types`: an empty answer is an internal error, a
      column missing from a non-empty answer a key error. */
  function ProfileDataTypes(t: TableMeta, types: Result<map<string, DataType>, Error>): (s: Step)
    ensures s.calls == [GetColumnDatatypes]
    ensures types == Ok(map[]) ==> s.result == Err(InternalError(None))
    ensures s.result.Ok? <==> types.Ok? && types.value != map[] && Covers(t.columns, types.value)
    ensures types.Ok? && types.value != map[] && s.result.Err? ==>
              s.result.error.KeyError? && s.result.error.key !in types.value
    ensures s.result.Ok? ==>
              && s.result.value == t.(columns := s.result.value.columns)
              && |s.result.value.columns| == |t.columns|
              && forall i :: 0 <= i < |t.columns| ==>
                   s.result.value.columns[i] == t.columns[i].(dataType := Some(types.value[t.columns[i].name]))
  {
    if types.Ok? && types.value == map[] then Step([GetColumnDatatypes], Err(InternalError(None)))
    else MergeStep(true, GetColumnDatatypes, t, types, SetDataType)
  }

  /** `_profile_sample_rows`, guarded by its flag. */
  function ProfileSampleRows(cfg: Config, t: TableMeta, rows: Result<seq<Row>, Error>): Step {
    if !cfg.sampleRowsEnabled then Step([], Ok(t))
    else match rows
      case Err(e) => Step([GetSampleRows], Err(e))
      case Ok(rs) => Step([GetSampleRows], Ok(t.(sampleRows := Some(rs))))
  }

  /** The requests of table profiling when every answer is usable. */
  function TableCalls(cfg: Config): seq<Call> {
    [GetColumnNames, GetColumnDatatypes] + CallsIf(cfg.sampleRowsEnabled, [GetSampleRows])
  }

  /** Every answer table profiling needs arrived, the data types naming
      every discovered column. */
  predicate TableAnswersUsable(cfg: Config, a: Answers) {
    && a.columnNames.Ok? && a.dataTypes.Ok? && a.dataTypes.value != map[]
    && (forall i :: 0 <= i < |a.columnNames.value| ==> a.columnNames.value[i] in a.dataTypes.value)
    && (cfg.sampleRowsEnabled ==> a.sampleRows.Ok?)
  }

  /** Snapshot construction, data types and sample rows. */
  function ProfileTable(cfg: Config, schema: string, table: string, now: int, a: Answers): (s: Step)
    ensures s.calls <= TableCalls(cfg)
    ensures s.result.Ok? <==> TableAnswersUsable(cfg, a)
    ensures s.result.Ok? ==>
              var t := s.result.value;
              && s.calls == TableCalls(cfg)
              && WellFormed(t) && NoColumnStats(t)
              && t.columnNames == a.columnNames.value && t.rowCount == None
              && t.databaseName == cfg.databaseName && t.schemaName == schema && t.tableName == table
              && (forall i :: 0 <= i < |t.columns| ==>
                    t.columns[i] == NewColumnMeta(t.columnNames[i]).(dataType := Some(a.dataTypes.value[t.columnNames[i]])))
              && t.sampleRows == (if cfg.sampleRowsEnabled then Some(a.sampleRows.value) else None)
  {
    match a.columnNames
    case Err(e) => Step([GetColumnNames], Err(e))
    case Ok(names) =>
      var t0 := BuildTableMeta(cfg.databaseName, schema, table, now, names);
      var s1 := After(Step([GetColumnNames], Ok(t0)), ProfileDataTypes(t0, a.dataTypes));
      assert a.dataTypes.Ok? ==>
               (Covers(t0.columns, a.dataTypes.value) <==>
                forall i :: 0 <= i < |names| ==> names[i] in a.dataTypes.value);
      if s1.result.Err? then s1 else
      After(s1, ProfileSampleRows(cfg, s1.result.value, a.sampleRows))
  }

  /** `_profile_row_count`: ask for the exact count; after a timeout ask
      once more, from the statistics, and if that answer arrives switch
      column profiling off for this and every later run. */
  function ProfileRowCount(p: Profiler, t: TableMeta, a: Answers): (r: (Profiler, Step))
    ensures InPipelineOrder(r.1.calls) && RanksWithin(r.1.calls, 3, 4)
    ensures (GetRowCount(false) in r.1.calls) <==> p.config.rowCountEnabled
    ensures (GetRowCount(true) in r.1.calls) <==> p.config.rowCountEnabled && a.rowCount == Err(QueryTimeout)
    ensures r.0 == p.(skipColumnProfiling := p.skipColumnProfiling || (GetRowCount(true) in r.1.calls && r.1.result.Ok?))
    ensures !p.config.rowCountEnabled ==> r.1.result == Ok(t)
    ensures r.1.result.Ok? ==>
              && r.1.result.value == t.(rowCount := r.1.result.value.rowCount)
              && (p.config.rowCountEnabled && a.rowCount.Ok? ==>
                    r.1.result.value.rowCount == Some(a.rowCount.value))
              && (p.config.rowCountEnabled && a.rowCount.Err? ==>
                    a.rowCountFromStatistics.Ok? && r.1.result.value.rowCount == Some(a.rowCountFromStatistics.value))
    ensures r.1.result.Err? ==>
              && a.rowCount.Err?
              && (a.rowCount.error != QueryTimeout ==> r.1.result.error == a.rowCount.error)
              && (a.rowCount.error == QueryTimeout ==>
                    a.rowCountFromStatistics.Err? && r.1.result.error == a.rowCountFromStatistics.error)
  {
    if !p.config.rowCountEnabled then (p, Step([], Ok(t)))
    else match a.rowCount
      case Ok(n) => (p, Step([GetRowCount(false)], Ok(t.(rowCount := Some(n)))))
      case Err(e) =>
        if e != QueryTimeout then (p, Step([GetRowCount(false)], Err(e)))
        else match a.rowCountFromStatistics
          case Err(e2) => (p, Step([GetRowCount(false), GetRowCount(true)], Err(e2)))
          case Ok(n) =>
            (p.(skipColumnProfiling := true),
             Step([GetRowCount(false), GetRowCount(true)], Ok(t.(rowCount := Some(n)))))
  }

  /** Python 2 orders `None` below every number, so an unknown row count
      never exceeds the threshold. */
  predicate ExceedsThreshold(rowCount: Option<int>, threshold: int) {
    rowCount.Some? && rowCount.value > threshold
  }

  predicate RulesGiven(rules: Option<seq<Rule>>) {
    rules.Some? && rules.value != []
  }

  /** Column profiling followed by record validation. */
  function ProfileAndValidate(cfg: Config, t: TableMeta, skipRecordValidation: bool, rules: Option<seq<Rule>>,
                              a: Answers, render: Value -> string): (s: Step)
    ensures s.result.Ok? ==> && AnswersCover(cfg, a.statistics, t.columns)
                             && (!skipRecordValidation && RulesGiven(rules) ==> a.validation.Ok?)
    ensures AnswersCover(cfg, a.statistics, t.columns) && (skipRecordValidation || !RulesGiven(rules)) ==>
              s.result.Ok?
    ensures var calls := RunColumnProfiling(cfg, t, a.statistics, render).calls;
            s.calls == calls || s.calls == calls + [RunRecordValidation]
    ensures s.result.Ok? ==>
              var snap := s.result.value;
              && snap == t.(columns := snap.columns)
              && |snap.columns| == |t.columns|
              && forall i :: 0 <= i < |t.columns| ==>
                   ColumnProfiled(cfg, a.statistics, render, t.columns[i],
                                  snap.columns[i].(validation := t.columns[i].validation))
  {
    var s5 := RunColumnProfiling(cfg, t, a.statistics, render);
    if s5.result.Err? then s5 else
    After(s5, AttachRecordValidation(s5.result.value, rules, skipRecordValidation, a.validation))
  }

  lemma ProfileAndValidateCallsInOrder(cfg: Config, t: TableMeta, skipRecordValidation: bool,
                                       rules: Option<seq<Rule>>, a: Answers, render: Value -> string)
    ensures var calls := ProfileAndValidate(cfg, t, skipRecordValidation, rules, a, render).calls;
            InPipelineOrder(calls) && RanksWithin(calls, 5, 10)
  {
    var s5 := RunColumnProfiling(cfg, t, a.statistics, render);
    ColumnProfilingCallsInOrder(cfg, t, a.statistics, render);
    var calls := ProfileAndValidate(cfg, t, skipRecordValidation, rules, a, render).calls;
    if calls != s5.calls {
      assert calls == s5.calls + [RunRecordValidation];
      AppendCall(s5.calls, RunRecordValidation, 5, 9);
    }
  }

  /** Column profiling, record validation and post-scan validation: the
      part of a run behind the three gates. Post-scan validation only runs
      when rules were given. */
  function ProfileColumns(cfg: Config, t: TableMeta, skipRecordValidation: bool, rules: Option<seq<Rule>>,
                          a: Answers, render: Value -> string): (r: (seq<Call>, Result<Output, Error>))
    ensures InPipelineOrder(r.0) && RanksWithin(r.0, 5, 11)
    ensures var calls := ProfileAndValidate(cfg, t, skipRecordValidation, rules, a, render).calls;
            r.0 == calls || r.0 == calls + [RunPostscanValidation]
    ensures r.1.Ok? ==>
              var s := ProfileAndValidate(cfg, t, skipRecordValidation, rules, a, render);
              && s.result.Ok? && r.1.value.snapshot == s.result.value
              && (!RulesGiven(rules) ==> r.1.value.data == s.result.value)
              && (RulesGiven(rules) ==> a.postscan(s.result.value) == Ok(r.1.value.data))
    ensures ProfileAndValidate(cfg, t, skipRecordValidation, rules, a, render).result.Ok? && !RulesGiven(rules) ==>
              r.1.Ok?
    ensures r.1.Ok? ==>
              r.0 == StatCalls(cfg) + CallsIf(!skipRecordValidation && RulesGiven(rules), [RunRecordValidation])
                     + CallsIf(RulesGiven(rules), [RunPostscanValidation])
  {
    var s := ProfileAndValidate(cfg, t, skipRecordValidation, rules, a, render);
    ProfileAndValidateCallsInOrder(cfg, t, skipRecordValidation, rules, a, render);
    if s.result.Err? then (s.calls, Err(s.result.error)) else
    var snap := s.result.value;
    AppendCall(s.calls, RunPostscanValidation, 5, 10);
    if !RulesGiven(rules) then (s.calls, Ok(Output(snap, snap)))
    else match a.postscan(snap)
      case Err(e) => (s.calls + [RunPostscanValidation], Err(e))
      case Ok(data) => (s.calls + [RunPostscanValidation], Ok(Output(snap, data)))
  }

  /** What a run has when it reaches the column gates: the instance
      state, the requests made so far and the snapshot. */
  datatype Front = Front(profiler: Profiler, calls: seq<Call>, result: Result<TableMeta, Error>)

  /** The instance state a run writes before profiling: the query timeout,
      and column profiling switched off when table profiling is. */
  function Start(p: Profiler, timeout: Option<int>): Profiler {
    p.(timeout := timeout, skipColumnProfiling := p.skipColumnProfiling || p.config.skipTableProfiling)
  }

  /** Table profiling and, unless table profiling is skipped, the row
      count. */
  function ProfileFront(p: Profiler, args: RunArgs, now: int, a: Answers): (f: Front)
    ensures InPipelineOrder(f.calls) && RanksWithin(f.calls, 0, 4)
    ensures GetRowCount(true) in f.calls <==> GetRowCount(false) in f.calls && a.rowCount == Err(QueryTimeout)
    ensures f.profiler == p.(skipColumnProfiling := p.skipColumnProfiling
                                                    || (GetRowCount(true) in f.calls && a.rowCountFromStatistics.Ok?))
    ensures p.config.skipTableProfiling ==> f.calls <= TableCalls(p.config)
    ensures f.result.Ok? ==>
              var t := f.result.value;
              && WellFormed(t) && NoColumnStats(t)
              && a.columnNames.Ok? && t.columnNames == a.columnNames.value
              && (p.config.skipTableProfiling ==> t.rowCount == None)
  {
    var s1 := ProfileTable(p.config, args.schema, args.table, now, a);
    TableCallsInOrder(p.config, args.schema, args.table, now, a);
    if s1.result.Err? || p.config.skipTableProfiling then
      RankedOutside(s1.calls, 0, 2, GetRowCount(true));
      RankedOutside(s1.calls, 0, 2, GetRowCount(false));
      Front(p, s1.calls, s1.result)
    else
      var (p2, s2) := ProfileRowCount(p, s1.result.value, a);
      InPipelineOrderConcat(s1.calls, s2.calls, 0, 2, 4);
      RankedOutside(s1.calls, 0, 2, GetRowCount(true));
      RankedOutside(s1.calls, 0, 2, GetRowCount(false));
      Front(p2, s1.calls + s2.calls, s2.result)
  }

  /** Column profiling goes ahead only when it is not switched off and the
      row count does not exceed the threshold. */
  predicate GatesOpen(f: Front)
    requires f.result.Ok?
  {
    && !f.profiler.skipColumnProfiling
    && !ExceedsThreshold(f.result.value.rowCount, f.profiler.config.columnProfilingThreshold)
  }

  /** `run`: profile one table. `now` is the snapshot's timestamp. A run
      that stops at a gate returns the snapshot as it stands. */
  function Run(p: Profiler, args: RunArgs, now: int, a: Answers, render: Value -> string): (r: RunOutcome)
    ensures r.profiler.config == p.config
    ensures args.schema == "" || args.table == "" ==> r == RunOutcome(p, [], Err(AssertionError))
  {
    if args.schema == "" || args.table == "" then RunOutcome(p, [], Err(AssertionError)) else
    var f := ProfileFront(Start(p, args.timeout), args, now, a);
    if f.result.Err? then RunOutcome(f.profiler, f.calls, Err(f.result.error))
    else if !GatesOpen(f) then RunOutcome(f.profiler, f.calls, Ok(Output(f.result.value, f.result.value)))
    else
      var (calls, result) := ProfileColumns(f.profiler.config, f.result.value, args.skipRecordValidation,
                                            args.rules, a, render);
      RunOutcome(f.profiler, f.calls + calls, result)
  }

  lemma TableCallsInOrder(cfg: Config, schema: string, table: string, now: int, a: Answers)
    ensures var calls := ProfileTable(cfg, schema, table, now, a).calls;
            InPipelineOrder(calls) && RanksWithin(calls, 0, 2)
  {
    var all := TableCalls(cfg);
    assert InPipelineOrder(all) && RanksWithin(all, 0, 2);
    InPipelineOrderPrefix(all, ProfileTable(cfg, schema, table, now, a).calls, 0, 2);
  }

  /** The requests column profiling makes in a run: none when a gate is
      closed. */
  function BackCalls(p: Profiler, args: RunArgs, now: int, a: Answers, render: Value -> string): (calls: seq<Call>)
    ensures InPipelineOrder(calls) && RanksWithin(calls, 5, 11)
  {
    var f := ProfileFront(Start(p, args.timeout), args, now, a);
    if f.result.Ok? && GatesOpen(f)
    then ProfileColumns(f.profiler.config, f.result.value, args.skipRecordValidation, args.rules, a, render).0
    else []
  }

  /** The requests of a run: those up to the gates, then those of column
      profiling, if it ran. */
  lemma RunCallsSplit(p: Profiler, args: RunArgs, now: int, a: Answers, render: Value -> string)
    requires args.schema != "" && args.table != ""
    ensures var f := ProfileFront(Start(p, args.timeout), args, now, a);
            var r := Run(p, args, now, a, render);
            && r.profiler == f.profiler
            && r.calls == f.calls + BackCalls(p, args, now, a, render)
            && InPipelineOrder(r.calls)
            && (forall b: bool :: GetRowCount(b) in r.calls <==> GetRowCount(b) in f.calls)
  {
    var f := ProfileFront(Start(p, args.timeout), args, now, a);
    var back := BackCalls(p, args, now, a, render);
    InPipelineOrderConcat(f.calls, back, 0, 4, 11);
    RankedOutside(back, 5, 11, GetRowCount(true));
    RankedOutside(back, 5, 11, GetRowCount(false));
  }

  /** Whatever the answers, a run makes its requests in the pipeline's
      order and none of them twice. */
  lemma RunCallsInPipelineOrder(p: Profiler, args: RunArgs, now: int, a: Answers, render: Value -> string)
    ensures InPipelineOrder(Run(p, args, now, a, render).calls)
  {
    if args.schema != "" && args.table != "" {
      RunCallsSplit(p, args, now, a, render);
    }
  }

  /** With table profiling skipped a run stops after the sample rows: no
      row count, no column statistics, and column profiling stays off for
      every later run of the instance. */
  lemma SkipTableProfilingStopsAfterSampleRows(p: Profiler, args: RunArgs, now: int, a: Answers,
                                               render: Value -> string)
    requires args.schema != "" && args.table != "" && p.config.skipTableProfiling
    ensures var r := Run(p, args, now, a, render);
            && r.profiler.skipColumnProfiling
            && r.calls <= TableCalls(p.config)
            && (r.result.Ok? ==>
                  var o := r.result.value;
                  o.data == o.snapshot && o.snapshot.rowCount == None && NoColumnStats(o.snapshot))
  {
  }

  /** The row count from statistics is requested exactly when the exact
      count was requested and timed out. */
  lemma StatisticsRowCountOnlyAfterTimeout(p: Profiler, args: RunArgs, now: int, a: Answers,
                                           render: Value -> string)
    ensures var calls := Run(p, args, now, a, render).calls;
            GetRowCount(true) in calls <==> GetRowCount(false) in calls && a.rowCount == Err(QueryTimeout)
  {
    if args.schema != "" && args.table != "" {
      RunCallsSplit(p, args, now, a, render);
    }
  }

  /** What a run leaves in the instance: the timeout it was given, and
      column profiling off if it was off before, if table profiling is
      skipped, or if the row count had to come from the statistics. */
  lemma RunProfilerState(p: Profiler, args: RunArgs, now: int, a: Answers, render: Value -> string)
    requires args.schema != "" && args.table != ""
    ensures var r := Run(p, args, now, a, render);
            r.profiler == p.(timeout := args.timeout,
                             skipColumnProfiling := || p.skipColumnProfiling || p.config.skipTableProfiling
                                                    || (GetRowCount(true) in r.calls && a.rowCountFromStatistics.Ok?))
  {
    RunCallsSplit(p, args, now, a, render);
  }

  /** Once column profiling is off it stays off: a run asks for no column
      statistics and returns the snapshot without any. */
  lemma SkippedColumnProfilingStaysSkipped(p: Profiler, args: RunArgs, now: int, a: Answers,
                                           render: Value -> string)
    requires p.skipColumnProfiling
    ensures var r := Run(p, args, now, a, render);
            && r.profiler.skipColumnProfiling
            && RanksWithin(r.calls, 0, 4)
            && (r.result.Ok? ==> NoColumnStats(r.result.value.snapshot) && r.result.value.data == r.result.value.snapshot)
  {
  }

  /** A row count over the threshold stops the run before column
      profiling. */
  lemma ThresholdSkipsColumnProfiling(p: Profiler, args: RunArgs, now: int, a: Answers, render: Value -> string)
    ensures var r := Run(p, args, now, a, render);
            r.result.Ok? && ExceedsThreshold(r.result.value.snapshot.rowCount, p.config.columnProfilingThreshold) ==>
              && RanksWithin(r.calls, 0, 4)
              && NoColumnStats(r.result.value.snapshot)
              && r.result.value.data == r.result.value.snapshot
  {
  }

  /** A timeout answered from the statistics: the run records the estimate
      and stops before column profiling, and so does the next run of the
      same instance, whatever it is asked. */
  lemma TimeoutSkipsColumnProfiling(p: Profiler, args: RunArgs, now: int, a: Answers, render: Value -> string,
                                    next: RunArgs, later: int, b: Answers)
    requires args.schema != "" && args.table != ""
    requires !p.config.skipTableProfiling && p.config.rowCountEnabled && TableAnswersUsable(p.config, a)
    requires a.rowCount == Err(QueryTimeout) && a.rowCountFromStatistics.Ok?
    ensures var r := Run(p, args, now, a, render);
            && GetRowCount(true) in r.calls
            && r.result.Ok?
            && r.result.value.snapshot.rowCount == Some(a.rowCountFromStatistics.value)
            && NoColumnStats(r.result.value.snapshot)
            && RanksWithin(r.calls, 0, 4)
            && var r2 := Run(r.profiler, next, later, b, render);
               RanksWithin(r2.calls, 0, 4) && (r2.result.Ok? ==> NoColumnStats(r2.result.value.snapshot))
  {
    var f := ProfileFront(Start(p, args.timeout), args, now, a);
    RunCallsSplit(p, args, now, a, render);
    FrontAfterTimeout(Start(p, args.timeout), args, now, a);
    RunStopsAtGates(p, args, now, a, render);
    SkippedColumnProfilingStaysSkipped(f.profiler, next, later, b, render);
  }

  /** The statistics answered a timed-out count: the front asks for both
      counts, succeeds with the estimate and switches column profiling
      off. */
  lemma FrontAfterTimeout(p: Profiler, args: RunArgs, now: int, a: Answers)
    requires !p.config.skipTableProfiling && p.config.rowCountEnabled && TableAnswersUsable(p.config, a)
    requires a.rowCount == Err(QueryTimeout) && a.rowCountFromStatistics.Ok?
    ensures var f := ProfileFront(p, args, now, a);
            && GetRowCount(true) in f.calls
            && f.result.Ok? && f.profiler.skipColumnProfiling
            && f.result.value.rowCount == Some(a.rowCountFromStatistics.value)
  {
    var s1 := ProfileTable(p.config, args.schema, args.table, now, a);
    assert s1.result.Ok?;
    var s2 := ProfileRowCount(p, s1.result.value, a).1;
    assert GetRowCount(true) in s2.calls;
  }

  /** A run whose front succeeds but meets a closed gate returns the
      snapshot as the front left it. */
  lemma RunStopsAtGates(p: Profiler, args: RunArgs, now: int, a: Answers, render: Value -> string)
    requires args.schema != "" && args.table != ""
    requires var f := ProfileFront(Start(p, args.timeout), args, now, a);
             f.result.Ok? && !GatesOpen(f)
    ensures var f := ProfileFront(Start(p, args.timeout), args, now, a);
            Run(p, args, now, a, render) == RunOutcome(f.profiler, f.calls, Ok(Output(f.result.value, f.result.value)))
  {
  }

  /** With table profiling on, usable answers and a row count within the
      threshold, a run reaches column profiling with fresh typed columns. */
  lemma FrontOpens(p: Profiler, args: RunArgs, now: int, a: Answers)
    requires !p.skipColumnProfiling && !p.config.skipTableProfiling
    requires TableAnswersUsable(p.config, a)
    requires p.config.rowCountEnabled ==> a.rowCount.Ok? && a.rowCount.value <= p.config.columnProfilingThreshold
    ensures var f := ProfileFront(Start(p, args.timeout), args, now, a);
            && f.result.Ok? && GatesOpen(f) && f.profiler == Start(p, args.timeout)
            && f.calls == TableCalls(p.config) + CallsIf(p.config.rowCountEnabled, [GetRowCount(false)])
            && var t := f.result.value;
               && t.columnNames == a.columnNames.value && |t.columns| == |t.columnNames|
               && t.rowCount == (if p.config.rowCountEnabled then Some(a.rowCount.value) else None)
               && SameNames(t.columns, FreshColumns(a.columnNames.value))
               && forall i :: 0 <= i < |t.columns| ==>
                    t.columns[i] == NewColumnMeta(t.columnNames[i]).(dataType := Some(a.dataTypes.value[t.columnNames[i]]))
  {
    var p1 := Start(p, args.timeout);
    var s1 := ProfileTable(p1.config, args.schema, args.table, now, a);
    assert s1.result.Ok? && s1.calls == TableCalls(p.config);
    var t1 := s1.result.value;
    var (p2, s2) := ProfileRowCount(p1, t1, a);
    assert p2 == p1 && s2.calls == CallsIf(p.config.rowCountEnabled, [GetRowCount(false)]);
    assert s2.result.Ok?;
    var f := ProfileFront(p1, args, now, a);
    assert f == Front(p1, s1.calls + s2.calls, s2.result);
  }

  /** Without rules and with usable statistics, the column stages are
      exactly column profiling, and the data is the snapshot. */
  lemma ColumnsWithoutRules(cfg: Config, t: TableMeta, skipRecordValidation: bool, rules: Option<seq<Rule>>,
                            a: Answers, render: Value -> string)
    requires AnswersCover(cfg, a.statistics, t.columns) && !RulesGiven(rules)
    ensures var s5 := RunColumnProfiling(cfg, t, a.statistics, render);
            && s5.result.Ok?
            && ProfileColumns(cfg, t, skipRecordValidation, rules, a, render)
               == (StatCalls(cfg), Ok(Output(s5.result.value, s5.result.value)))
  {
    var s5 := RunColumnProfiling(cfg, t, a.statistics, render);
    assert ProfileAndValidate(cfg, t, skipRecordValidation, rules, a, render) == s5;
  }

  /** With every gate open and every answer usable, a run profiles every
      column with every enabled statistic. An unknown row count (row
      counting off) passes the threshold gate. */
  lemma FullRunProfilesEveryColumn(p: Profiler, args: RunArgs, now: int, a: Answers, render: Value -> string)
    requires args.schema != "" && args.table != ""
    requires !p.skipColumnProfiling && !p.config.skipTableProfiling
    requires TableAnswersUsable(p.config, a)
    requires p.config.rowCountEnabled ==> a.rowCount.Ok? && a.rowCount.value <= p.config.columnProfilingThreshold
    requires AnswersCover(p.config, a.statistics, FreshColumns(a.columnNames.value))
    requires !RulesGiven(args.rules)
    ensures var r := Run(p, args, now, a, render);
            && r.result.Ok? && !r.profiler.skipColumnProfiling
            && r.calls == TableCalls(p.config) + CallsIf(p.config.rowCountEnabled, [GetRowCount(false)])
                          + StatCalls(p.config)
            && var snap := r.result.value.snapshot;
               && r.result.value.data == snap
               && snap.columnNames == a.columnNames.value && |snap.columns| == |snap.columnNames|
               && snap.rowCount == (if p.config.rowCountEnabled then Some(a.rowCount.value) else None)
               && forall i :: 0 <= i < |snap.columns| ==>
                    ColumnProfiled(p.config, a.statistics, render,
                                   NewColumnMeta(snap.columnNames[i]).(dataType := Some(a.dataTypes.value[snap.columnNames[i]])),
                                   snap.columns[i])
  {
    var f := ProfileFront(Start(p, args.timeout), args, now, a);
    FrontOpens(p, args, now, a);
    var t := f.result.value;
    AnswersCoverSameNames(p.config, a.statistics, t.columns, FreshColumns(a.columnNames.value));
    ColumnsWithoutRules(p.config, t, args.skipRecordValidation, args.rules, a, render);
    var snap := RunColumnProfiling(p.config, t, a.statistics, render).result.value;
    var r := Run(p, args, now, a, render);
    assert r == RunOutcome(f.profiler, f.calls + StatCalls(p.config), Ok(Output(snap, snap)));
    forall i | 0 <= i < |snap.columns|
      ensures ColumnProfiled(p.config, a.statistics, render,
                             NewColumnMeta(snap.columnNames[i]).(dataType := Some(a.dataTypes.value[snap.columnNames[i]])),
                             snap.columns[i])
    {
      assert ColumnProfiled(p.config, a.statistics, render, t.columns[i], snap.columns[i]);
    }
  }

  /** The snapshot lists the columns in the order the database reported
      them, one profile each. */
  lemma SnapshotKeepsDiscoveryOrder(p: Profiler, args: RunArgs, now: int, a: Answers, render: Value -> string)
    ensures var r := Run(p, args, now, a, render);
            r.result.Ok? ==>
              && a.columnNames.Ok?
              && r.result.value.snapshot.columnNames == a.columnNames.value
              && WellFormed(r.result.value.snapshot)
  {
    if args.schema == "" || args.table == "" { return; }
    var f := ProfileFront(Start(p, args.timeout), args, now, a);
    if f.result.Ok? && GatesOpen(f) {
      var t := f.result.value;
      var (_, result) := ProfileColumns(f.profiler.config, t, args.skipRecordValidation, args.rules, a, render);
      if result.Ok? {
        var snap := result.value.snapshot;
        forall i | 0 <= i < |snap.columns|
          ensures snap.columns[i].name == snap.columnNames[i]
        {
          assert SameButColumnStats(snap.columns[i].(validation := t.columns[i].validation), t.columns[i]);
        }
      }
    }
  }

  /** The requests column profiling makes, whatever the answers, are
      among the statistic requests the configuration enables, record
      validation and post-scan validation. */
  lemma ColumnCallsEnabled(cfg: Config, t: TableMeta, skipRecordValidation: bool, rules: Option<seq<Rule>>,
                           a: Answers, render: Value -> string)
    ensures var calls := ProfileColumns(cfg, t, skipRecordValidation, rules, a, render).0;
            forall c :: c in calls ==> c in StatCalls(cfg) || c == RunRecordValidation || c == RunPostscanValidation
  {
    var s5 := RunColumnProfiling(cfg, t, a.statistics, render);
    ColumnProfilingCallsArePrefix(cfg, t, a.statistics, render);
    var s := ProfileAndValidate(cfg, t, skipRecordValidation, rules, a, render);
    var calls := ProfileColumns(cfg, t, skipRecordValidation, rules, a, render).0;
    forall c | c in calls
      ensures c in StatCalls(cfg) || c == RunRecordValidation || c == RunPostscanValidation
    {
      assert c in s5.calls || c == RunRecordValidation || c == RunPostscanValidation;
    }
  }

  /** The column-stage requests of a run are enabled statistic requests,
      record validation or post-scan validation. */
  lemma BackCallsEnabled(p: Profiler, args: RunArgs, now: int, a: Answers, render: Value -> string)
    ensures forall c :: c in BackCalls(p, args, now, a, render) ==>
              c in StatCalls(p.config) || c == RunRecordValidation || c == RunPostscanValidation
  {
    var f := ProfileFront(Start(p, args.timeout), args, now, a);
    if f.result.Ok? && GatesOpen(f) {
      ColumnCallsEnabled(f.profiler.config, f.result.value, args.skipRecordValidation, args.rules, a, render);
    }
  }

  /** A request that neither part of a run makes is not among its
      requests. */
  lemma NotRequested(p: Profiler, args: RunArgs, now: int, a: Answers, render: Value -> string, c: Call)
    requires args.schema != "" && args.table != ""
    requires c !in ProfileFront(Start(p, args.timeout), args, now, a).calls
    requires c !in BackCalls(p, args, now, a, render)
    ensures c !in Run(p, args, now, a, render).calls
  {
    RunCallsSplit(p, args, now, a, render);
  }

  /** With no frequent values configured, a run does not ask for them. */
  lemma NoFrequentValueRequestsWhenDisabled(p: Profiler, args: RunArgs, now: int, a: Answers,
                                            render: Value -> string)
    requires p.config.numFreqValues <= 0
    ensures var r := Run(p, args, now, a, render);
            GetMostFreqValues !in r.calls && GetLeastFreqValues !in r.calls
  {
    if args.schema == "" || args.table == "" { return; }
    var f := ProfileFront(Start(p, args.timeout), args, now, a);
    RankedOutside(f.calls, 0, 4, GetMostFreqValues);
    RankedOutside(f.calls, 0, 4, GetLeastFreqValues);
    BackCallsEnabled(p, args, now, a, render);
    StatCallsWithoutFreqs(p.config);
    NotRequested(p, args, now, a, render, GetMostFreqValues);
    NotRequested(p, args, now, a, render, GetLeastFreqValues);
  }

  /** A successful run returns either the snapshot as it stood at the
      gates or what the column stages made of it. */
  lemma RunResultSplit(p: Profiler, args: RunArgs, now: int, a: Answers, render: Value -> string)
    requires args.schema != "" && args.table != ""
    ensures var f := ProfileFront(Start(p, args.timeout), args, now, a);
            var r := Run(p, args, now, a, render);
            r.result.Ok? ==>
              && f.result.Ok?
              && (GatesOpen(f) ==>
                    r.result == ProfileColumns(f.profiler.config, f.result.value, args.skipRecordValidation,
                                               args.rules, a, render).1)
              && (!GatesOpen(f) ==> r.result == Ok(Output(f.result.value, f.result.value)))
  {
  }

  /** The column stages leave the frequent values of fresh columns unset
      when none are configured. */
  lemma ColumnsKeepFreqsUnset(cfg: Config, t: TableMeta, skipRecordValidation: bool, rules: Option<seq<Rule>>,
                              a: Answers, render: Value -> string)
    requires cfg.numFreqValues <= 0 && NoColumnStats(t)
    ensures var r := ProfileColumns(cfg, t, skipRecordValidation, rules, a, render).1;
            r.Ok? ==>
              forall i :: 0 <= i < |r.value.snapshot.columns| ==>
                r.value.snapshot.columns[i].mostFreqValues == None
                && r.value.snapshot.columns[i].leastFreqValues == None
  {
    var r := ProfileColumns(cfg, t, skipRecordValidation, rules, a, render).1;
    if r.Ok? {
      var snap := r.value.snapshot;
      forall i | 0 <= i < |snap.columns|
        ensures snap.columns[i].mostFreqValues == None && snap.columns[i].leastFreqValues == None
      {
        assert HasNoStats(t.columns[i]);
        assert FreqProfiled(cfg, a.statistics, t.columns[i], snap.columns[i].(validation := t.columns[i].validation));
      }
    }
  }

  /** With no frequent values configured, no column of the snapshot has
      any. */
  lemma NoFrequentValuesWhenDisabled(p: Profiler, args: RunArgs, now: int, a: Answers, render: Value -> string)
    requires p.config.numFreqValues <= 0
    ensures var r := Run(p, args, now, a, render);
            r.result.Ok? ==>
              forall i :: 0 <= i < |r.result.value.snapshot.columns| ==>
                r.result.value.snapshot.columns[i].mostFreqValues == None
                && r.result.value.snapshot.columns[i].leastFreqValues == None
  {
    if args.schema == "" || args.table == "" { return; }
    var f := ProfileFront(Start(p, args.timeout), args, now, a);
    RunResultSplit(p, args, now, a, render);
    if f.result.Ok? {
      var t := f.result.value;
      if GatesOpen(f) {
        ColumnsKeepFreqsUnset(f.profiler.config, t, args.skipRecordValidation, args.rules, a, render);
      } else {
        assert forall i :: 0 <= i < |t.columns| ==> HasNoStats(t.columns[i]);
      }
    }
  }
}
