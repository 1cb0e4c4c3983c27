/** The column statistics engine (`run_column_profiling`) and the step that
    attaches record-validation findings (`_run_record_validation`). Each
    statistic is one driver answer: a map from column name to the value. */
module ColumnStats {
  import opened Wrappers
  import opened Model

  /** The driver's answers to the four statistic requests. */
  datatype Statistics = Statistics(
    nulls: Result<map<string, int>, Error>,
    minMax: Result<map<string, (Value, Value)>, Error>,
    mostFreqValues: Result<map<string, seq<FreqPair>>, Error>,
    leastFreqValues: Result<map<string, seq<FreqPair>>, Error>,
    cardinalities: Result<map<string, int>, Error>)

  /** Every column is named in `m`. */
  predicate Covers<V>(cols: seq<ColumnMeta>, m: map<string, V>) {
    forall i :: 0 <= i < |cols| ==> cols[i].name in m
  }

  /** `a` and `b` list the same column names in the same order. */
  predicate SameNames(a: seq<ColumnMeta>, b: seq<ColumnMeta>) {
    |a| == |b| && forall i :: 0 <= i < |a| ==> a[i].name == b[i].name
  }

  lemma CoversSameNames<V>(a: seq<ColumnMeta>, b: seq<ColumnMeta>, answer: Result<map<string, V>, Error>)
    requires SameNames(a, b)
    ensures answer.Ok? ==> (Covers(a, answer.value) <==> Covers(b, answer.value))
  {
    if answer.Ok? && Covers(a, answer.value) {
      assert forall i :: 0 <= i < |b| ==> b[i].name == a[i].name;
    }
  }

  lemma AnswersCoverSameNames(cfg: Config, s: Statistics, a: seq<ColumnMeta>, b: seq<ColumnMeta>)
    requires SameNames(a, b)
    ensures AnswersCover(cfg, s, a) <==> AnswersCover(cfg, s, b)
  {
    CoversSameNames(a, b, s.nulls);
    CoversSameNames(a, b, s.minMax);
    CoversSameNames(a, b, s.mostFreqValues);
    CoversSameNames(a, b, s.leastFreqValues);
    CoversSameNames(a, b, s.cardinalities);
  }

  /** For every column in order, `update(c, stats[c.name])`; the first
      column missing from `stats` raises `KeyError`. */
  function MergeColumns<V>(cols: seq<ColumnMeta>, stats: map<string, V>, update: (ColumnMeta, V) -> ColumnMeta)
    : (r: Result<seq<ColumnMeta>, Error>)
    ensures r.Ok? <==> Covers(cols, stats)
    ensures r.Ok? ==> |r.value| == |cols|
    ensures r.Ok? ==> forall i :: 0 <= i < |cols| ==> r.value[i] == update(cols[i], stats[cols[i].name])
    ensures r.Err? ==> exists i :: 0 <= i < |cols| && r.error == KeyError(cols[i].name) && cols[i].name !in stats
  {
    if cols == [] then Ok([])
    else if cols[0].name !in stats then Err(KeyError(cols[0].name))
    else
      var rest :- MergeColumns(cols[1..], stats, update);
      Ok([update(cols[0], stats[cols[0].name])] + rest)
  }

  /** One per-column step: if it is enabled the driver is asked once and
      the answer merged into every column; otherwise nothing happens. The
      update never renames a column. */
  function MergeStep<V(!new)>(enabled: bool, call: Call, t: TableMeta, answer: Result<map<string, V>, Error>,
                       update: (ColumnMeta, V) -> ColumnMeta): (s: Step)
    requires forall c: ColumnMeta, v: V :: update(c, v).name == c.name
    ensures !enabled ==> s == Step([], Ok(t))
    ensures enabled ==> s.calls == [call]
    ensures enabled ==> (s.result.Ok? <==> answer.Ok? && Covers(t.columns, answer.value))
    ensures enabled && answer.Err? ==> s.result == Err(answer.error)
    ensures enabled && answer.Ok? && s.result.Err? ==>
              s.result.error.KeyError? && s.result.error.key !in answer.value
    ensures s.result.Ok? ==> s.result.value == t.(columns := s.result.value.columns)
    ensures s.result.Ok? ==> SameNames(s.result.value.columns, t.columns)
    ensures enabled && s.result.Ok? ==>
              forall i :: 0 <= i < |t.columns| ==>
                s.result.value.columns[i] == update(t.columns[i], answer.value[t.columns[i].name])
  {
    if !enabled then Step([], Ok(t))
    else match answer
      case Err(e) => Step([call], Err(e))
      case Ok(m) =>
        match MergeColumns(t.columns, m, update)
        case Err(e) => Step([call], Err(e))
        case Ok(cols) => Step([call], Ok(t.(columns := cols)))
  }

  function SetNulls(c: ColumnMeta, n: int): ColumnMeta {
    c.(nulls := Some(n))
  }

  function SetCardinality(c: ColumnMeta, n: int): ColumnMeta {
    c.(cardinality := Some(n))
  }

  function SetFreqValues(c: ColumnMeta, f: (seq<FreqPair>, seq<FreqPair>)): ColumnMeta {
    c.(mostFreqValues := Some(f.0), leastFreqValues := Some(f.1))
  }

  /** `min`/`max` as text: `render` is the canonical text form of a driver
      value, byte strings decoded. */
  function SetMinMax(render: Value -> string): (ColumnMeta, (Value, Value)) -> ColumnMeta {
    (c: ColumnMeta, p: (Value, Value)) => c.(min := Some(render(p.0)), max := Some(render(p.1)))
  }

  /** The most/least frequent values of each column named in both answers. */
  function ZipFreqs(most: map<string, seq<FreqPair>>, least: map<string, seq<FreqPair>>)
    : (z: map<string, (seq<FreqPair>, seq<FreqPair>)>)
    ensures z.Keys == most.Keys * least.Keys
    ensures forall k :: k in z ==> z[k] == (most[k], least[k])
  {
    map k | k in most.Keys * least.Keys :: (most[k], least[k])
  }

  /** Both frequent-value answers arrived and name every column. */
  predicate FreqsCover(cols: seq<ColumnMeta>, s: Statistics) {
    && s.mostFreqValues.Ok? && s.leastFreqValues.Ok?
    && Covers(cols, s.mostFreqValues.value) && Covers(cols, s.leastFreqValues.value)
  }

  /** The frequent-value step: two requests, most then least, and only when
      `numFreqValues > 0`. */
  function FreqStep(numFreqValues: int, t: TableMeta, s: Statistics): (r: Step)
    ensures numFreqValues <= 0 ==> r == Step([], Ok(t))
    ensures numFreqValues > 0 ==> r.calls == [GetMostFreqValues] || r.calls == [GetMostFreqValues, GetLeastFreqValues]
    ensures numFreqValues > 0 ==> (r.result.Ok? <==> FreqsCover(t.columns, s))
    ensures r.result.Ok? ==> r.result.value == t.(columns := r.result.value.columns)
    ensures r.result.Ok? ==> SameNames(r.result.value.columns, t.columns)
    ensures numFreqValues > 0 && r.result.Ok? ==>
              && r.calls == [GetMostFreqValues, GetLeastFreqValues]
              && forall i :: 0 <= i < |t.columns| ==>
                   var n := t.columns[i].name;
                   r.result.value.columns[i]
                     == SetFreqValues(t.columns[i], (s.mostFreqValues.value[n], s.leastFreqValues.value[n]))
  {
    if numFreqValues <= 0 then Step([], Ok(t))
    else match s.mostFreqValues
      case Err(e) => Step([GetMostFreqValues], Err(e))
      case Ok(most) =>
        match s.leastFreqValues
        case Err(e) => Step([GetMostFreqValues, GetLeastFreqValues], Err(e))
        case Ok(least) =>
          var z := ZipFreqs(most, least);
          assert Covers(t.columns, z) <==> Covers(t.columns, most) && Covers(t.columns, least);
          var st := MergeStep(true, GetLeastFreqValues, t, Ok(z), SetFreqValues);
          Step([GetMostFreqValues] + st.calls, st.result)
  }

  /** `c` and `d` agree on everything but the statistics computed by
      column profiling. */
  predicate SameButColumnStats(c: ColumnMeta, d: ColumnMeta) {
    c == d.(nulls := c.nulls, min := c.min, max := c.max, mostFreqValues := c.mostFreqValues,
            leastFreqValues := c.leastFreqValues, cardinality := c.cardinality)
  }

  /** Each of the next four says what column profiling leaves in one
      statistic of a column: the answer's entry for the column when the
      statistic's own flag is on, the old value otherwise. */
  predicate NullsProfiled(cfg: Config, s: Statistics, before: ColumnMeta, after: ColumnMeta) {
    if cfg.nullsEnabled
    then s.nulls.Ok? && before.name in s.nulls.value && after.nulls == Some(s.nulls.value[before.name])
    else after.nulls == before.nulls
  }

  predicate MinMaxProfiled(cfg: Config, s: Statistics, render: Value -> string, before: ColumnMeta, after: ColumnMeta) {
    if cfg.minMaxEnabled
    then && s.minMax.Ok? && before.name in s.minMax.value
         && after.min == Some(render(s.minMax.value[before.name].0))
         && after.max == Some(render(s.minMax.value[before.name].1))
    else after.min == before.min && after.max == before.max
  }

  predicate FreqProfiled(cfg: Config, s: Statistics, before: ColumnMeta, after: ColumnMeta) {
    if cfg.numFreqValues > 0
    then && s.mostFreqValues.Ok? && before.name in s.mostFreqValues.value
         && s.leastFreqValues.Ok? && before.name in s.leastFreqValues.value
         && after.mostFreqValues == Some(s.mostFreqValues.value[before.name])
         && after.leastFreqValues == Some(s.leastFreqValues.value[before.name])
    else after.mostFreqValues == before.mostFreqValues && after.leastFreqValues == before.leastFreqValues
  }

  predicate CardinalityProfiled(cfg: Config, s: Statistics, before: ColumnMeta, after: ColumnMeta) {
    if cfg.cardinalityEnabled
    then s.cardinalities.Ok? && before.name in s.cardinalities.value
         && after.cardinality == Some(s.cardinalities.value[before.name])
    else after.cardinality == before.cardinality
  }

  /** What column profiling must leave in one column. */
  predicate ColumnProfiled(cfg: Config, s: Statistics, render: Value -> string, before: ColumnMeta, after: ColumnMeta) {
    && SameButColumnStats(after, before)
    && NullsProfiled(cfg, s, before, after)
    && MinMaxProfiled(cfg, s, render, before, after)
    && FreqProfiled(cfg, s, before, after)
    && CardinalityProfiled(cfg, s, before, after)
  }

  predicate NullsMinMaxCover(cfg: Config, s: Statistics, cols: seq<ColumnMeta>) {
    && (cfg.nullsEnabled ==> s.nulls.Ok? && Covers(cols, s.nulls.value))
    && (cfg.minMaxEnabled ==> s.minMax.Ok? && Covers(cols, s.minMax.value))
  }

  predicate FreqCardinalityCover(cfg: Config, s: Statistics, cols: seq<ColumnMeta>) {
    && (cfg.numFreqValues > 0 ==> FreqsCover(cols, s))
    && (cfg.cardinalityEnabled ==> s.cardinalities.Ok? && Covers(cols, s.cardinalities.value))
  }

  /** Every enabled statistic's answer arrived and names every column. */
  predicate AnswersCover(cfg: Config, s: Statistics, cols: seq<ColumnMeta>) {
    NullsMinMaxCover(cfg, s, cols) && FreqCardinalityCover(cfg, s, cols)
  }

  function CallsIf(b: bool, calls: seq<Call>): seq<Call> {
    if b then calls else []
  }

  function NullsMinMaxCalls(cfg: Config): seq<Call> {
    CallsIf(cfg.nullsEnabled, [GetColumnNulls]) + CallsIf(cfg.minMaxEnabled, [GetColumnMinMax])
  }

  function FreqCardinalityCalls(cfg: Config): seq<Call> {
    CallsIf(cfg.numFreqValues > 0, [GetMostFreqValues, GetLeastFreqValues])
    + CallsIf(cfg.cardinalityEnabled, [GetColumnCardinalities])
  }

  /** The requests column profiling makes when every answer is usable. */
  function StatCalls(cfg: Config): seq<Call> {
    NullsMinMaxCalls(cfg) + FreqCardinalityCalls(cfg)
  }

  /** The first half of `run_column_profiling`: nulls, then min/max. */
  function ProfileNullsMinMax(cfg: Config, t: TableMeta, s: Statistics, render: Value -> string): (r: Step)
    ensures r.result.Ok? <==> NullsMinMaxCover(cfg, s, t.columns)
    ensures r.result.Ok? ==> r.calls == NullsMinMaxCalls(cfg)
    ensures r.calls <= NullsMinMaxCalls(cfg)
    ensures r.result.Ok? ==>
              && r.result.value == t.(columns := r.result.value.columns)
              && SameNames(r.result.value.columns, t.columns)
              && forall i :: 0 <= i < |t.columns| ==>
                   var (before, after) := (t.columns[i], r.result.value.columns[i]);
                   && SameButColumnStats(after, before)
                   && NullsProfiled(cfg, s, before, after)
                   && MinMaxProfiled(cfg, s, render, before, after)
                   && after.mostFreqValues == before.mostFreqValues
                   && after.leastFreqValues == before.leastFreqValues
                   && after.cardinality == before.cardinality
  {
    var s1 := MergeStep(cfg.nullsEnabled, GetColumnNulls, t, s.nulls, SetNulls);
    if s1.result.Err? then s1 else
    CoversSameNames(s1.result.value.columns, t.columns, s.minMax);
    var s2 := MergeStep(cfg.minMaxEnabled, GetColumnMinMax, s1.result.value, s.minMax, SetMinMax(render));
    After(s1, s2)
  }

  /** The second half of `run_column_profiling`: frequent values, then
      cardinality. */
  function ProfileFreqCardinality(cfg: Config, t: TableMeta, s: Statistics): (r: Step)
    ensures r.result.Ok? <==> FreqCardinalityCover(cfg, s, t.columns)
    ensures r.result.Ok? ==> r.calls == FreqCardinalityCalls(cfg)
    ensures r.calls <= FreqCardinalityCalls(cfg)
    ensures r.result.Ok? ==>
              && r.result.value == t.(columns := r.result.value.columns)
              && SameNames(r.result.value.columns, t.columns)
              && forall i :: 0 <= i < |t.columns| ==>
                   var (before, after) := (t.columns[i], r.result.value.columns[i]);
                   && SameButColumnStats(after, before)
                   && FreqProfiled(cfg, s, before, after)
                   && CardinalityProfiled(cfg, s, before, after)
                   && after.nulls == before.nulls && after.min == before.min && after.max == before.max
  {
    var s3 := FreqStep(cfg.numFreqValues, t, s);
    if s3.result.Err? then s3 else
    CoversSameNames(s3.result.value.columns, t.columns, s.cardinalities);
    var s4 := MergeStep(cfg.cardinalityEnabled, GetColumnCardinalities, s3.result.value, s.cardinalities, SetCardinality);
    After(s3, s4)
  }

  /** A column the first half profiled and the second half then profiled
      is profiled as a whole. */
  lemma ProfiledInTwoHalves(cfg: Config, s: Statistics, render: Value -> string,
                            before: ColumnMeta, mid: ColumnMeta, after: ColumnMeta)
    requires SameButColumnStats(mid, before) && NullsProfiled(cfg, s, before, mid)
    requires MinMaxProfiled(cfg, s, render, before, mid)
    requires mid.mostFreqValues == before.mostFreqValues && mid.leastFreqValues == before.leastFreqValues
    requires mid.cardinality == before.cardinality
    requires SameButColumnStats(after, mid) && FreqProfiled(cfg, s, mid, after)
    requires CardinalityProfiled(cfg, s, mid, after)
    requires after.nulls == mid.nulls && after.min == mid.min && after.max == mid.max
    ensures ColumnProfiled(cfg, s, render, before, after)
  {
    assert mid.name == before.name;
  }

  /** Every column comes out of the two halves profiled. */
  lemma ProfiledByHalves(cfg: Config, t: TableMeta, s: Statistics, render: Value -> string)
    ensures var h1 := ProfileNullsMinMax(cfg, t, s, render);
            h1.result.Ok? ==>
              var h2 := ProfileFreqCardinality(cfg, h1.result.value, s);
              h2.result.Ok? ==>
                forall i :: 0 <= i < |t.columns| ==>
                  ColumnProfiled(cfg, s, render, t.columns[i], h2.result.value.columns[i])
  {
    var h1 := ProfileNullsMinMax(cfg, t, s, render);
    if h1.result.Ok? {
      var mid := h1.result.value;
      var h2 := ProfileFreqCardinality(cfg, mid, s);
      if h2.result.Ok? {
        forall i | 0 <= i < |t.columns|
          ensures ColumnProfiled(cfg, s, render, t.columns[i], h2.result.value.columns[i])
        {
          ProfiledInTwoHalves(cfg, s, render, t.columns[i], mid.columns[i], h2.result.value.columns[i]);
        }
      }
    }
  }

  /** `run_column_profiling`: nulls, min/max (rendered as text by `render`),
      most/least frequent values and cardinality, each guarded by its own
      flag. Any failed request or missing column aborts the step. */
  function RunColumnProfiling(cfg: Config, t: TableMeta, s: Statistics, render: Value -> string): (r: Step)
    ensures r.result.Ok? <==> AnswersCover(cfg, s, t.columns)
    ensures r.result.Ok? ==> r.calls == StatCalls(cfg)
    ensures r.result.Ok? ==>
              && r.result.value == t.(columns := r.result.value.columns)
              && |r.result.value.columns| == |t.columns|
              && forall i :: 0 <= i < |t.columns| ==>
                   ColumnProfiled(cfg, s, render, t.columns[i], r.result.value.columns[i])
  {
    var h1 := ProfileNullsMinMax(cfg, t, s, render);
    if h1.result.Err? then h1 else
    var mid := h1.result.value;
    CoversSameNames(mid.columns, t.columns, s.mostFreqValues);
    CoversSameNames(mid.columns, t.columns, s.leastFreqValues);
    CoversSameNames(mid.columns, t.columns, s.cardinalities);
    var h2 := ProfileFreqCardinality(cfg, mid, s);
    ProfiledByHalves(cfg, t, s, render);
    After(h1, h2)
  }

  /** `_run_record_validation`: unless skipped or without rules, ask for
      the validation findings and attach them to exactly the columns the
      answer names. */
  function AttachRecordValidation(t: TableMeta, rules: Option<seq<Rule>>, skipRecordValidation: bool,
                                  answer: Result<map<string, Findings>, Error>): (r: Step)
    ensures skipRecordValidation || rules.None? || rules.value == [] ==> r == Step([], Ok(t))
    ensures !(skipRecordValidation || rules.None? || rules.value == []) ==>
              && r.calls == [RunRecordValidation]
              && (r.result.Ok? <==> answer.Ok?)
    ensures r.result.Ok? ==>
              && r.result.value == t.(columns := r.result.value.columns)
              && |r.result.value.columns| == |t.columns|
              && forall i :: 0 <= i < |t.columns| ==>
                   var c := t.columns[i];
                   r.result.value.columns[i]
                     == if r.calls != [] && c.name in answer.value then c.(validation := Some(answer.value[c.name])) else c
  {
    if skipRecordValidation || rules.None? || rules.value == [] then Step([], Ok(t))
    else match answer
      case Err(e) => Step([RunRecordValidation], Err(e))
      case Ok(v) =>
        var cols := seq(|t.columns|, i requires 0 <= i < |t.columns| =>
                          if t.columns[i].name in v then t.columns[i].(validation := Some(v[t.columns[i].name]))
                          else t.columns[i]);
        Step([RunRecordValidation], Ok(t.(columns := cols)))
  }

  lemma CallsIfInOrder(b: bool, calls: seq<Call>, lo: nat, hi: nat)
    requires InPipelineOrder(calls) && RanksWithin(calls, lo, hi)
    ensures InPipelineOrder(CallsIf(b, calls)) && RanksWithin(CallsIf(b, calls), lo, hi)
  {
  }

  lemma NullsMinMaxCallsInOrder(cfg: Config)
    ensures InPipelineOrder(NullsMinMaxCalls(cfg)) && RanksWithin(NullsMinMaxCalls(cfg), 5, 6)
  {
    var a := CallsIf(cfg.nullsEnabled, [GetColumnNulls]);
    var b := CallsIf(cfg.minMaxEnabled, [GetColumnMinMax]);
    CallsIfInOrder(cfg.nullsEnabled, [GetColumnNulls], 5, 5);
    CallsIfInOrder(cfg.minMaxEnabled, [GetColumnMinMax], 6, 6);
    InPipelineOrderConcat(a, b, 5, 5, 6);
  }

  lemma FreqCardinalityCallsInOrder(cfg: Config)
    ensures InPipelineOrder(FreqCardinalityCalls(cfg)) && RanksWithin(FreqCardinalityCalls(cfg), 7, 9)
  {
    var c := CallsIf(cfg.numFreqValues > 0, [GetMostFreqValues, GetLeastFreqValues]);
    var d := CallsIf(cfg.cardinalityEnabled, [GetColumnCardinalities]);
    assert InPipelineOrder([GetMostFreqValues, GetLeastFreqValues]);
    CallsIfInOrder(cfg.numFreqValues > 0, [GetMostFreqValues, GetLeastFreqValues], 7, 8);
    CallsIfInOrder(cfg.cardinalityEnabled, [GetColumnCardinalities], 9, 9);
    InPipelineOrderConcat(c, d, 7, 8, 9);
  }

  /** Without frequent values configured, column profiling never asks for
      them. */
  lemma StatCallsWithoutFreqs(cfg: Config)
    requires cfg.numFreqValues <= 0
    ensures GetMostFreqValues !in StatCalls(cfg) && GetLeastFreqValues !in StatCalls(cfg)
  {
    NullsMinMaxCallsInOrder(cfg);
    RankedOutside(NullsMinMaxCalls(cfg), 5, 6, GetMostFreqValues);
    RankedOutside(NullsMinMaxCalls(cfg), 5, 6, GetLeastFreqValues);
    assert FreqCardinalityCalls(cfg) == CallsIf(cfg.cardinalityEnabled, [GetColumnCardinalities]);
  }

  /** With the class defaults every statistic is asked for, in the
      pipeline's order. */
  lemma DefaultStatCalls(databaseName: string)
    ensures StatCalls(DefaultConfig(databaseName))
            == [GetColumnNulls, GetColumnMinMax, GetMostFreqValues, GetLeastFreqValues, GetColumnCardinalities]
  {
  }

  lemma StatCallsInOrder(cfg: Config)
    ensures InPipelineOrder(StatCalls(cfg)) && RanksWithin(StatCalls(cfg), 5, 9)
  {
    NullsMinMaxCallsInOrder(cfg);
    FreqCardinalityCallsInOrder(cfg);
    InPipelineOrderConcat(NullsMinMaxCalls(cfg), FreqCardinalityCalls(cfg), 5, 6, 9);
  }

  /** Column profiling stops at the first failing request: what it asked
      for is a prefix of the full request list. */
  lemma ColumnProfilingCallsArePrefix(cfg: Config, t: TableMeta, s: Statistics, render: Value -> string)
    ensures RunColumnProfiling(cfg, t, s, render).calls <= StatCalls(cfg)
  {
    var calls := RunColumnProfiling(cfg, t, s, render).calls;
    var h1 := ProfileNullsMinMax(cfg, t, s, render);
    if h1.result.Ok? {
      var h2 := ProfileFreqCardinality(cfg, h1.result.value, s);
      assert calls == NullsMinMaxCalls(cfg) + h2.calls;
    }
  }

  /** The requests of column profiling, successful or not, come in
      pipeline order. */
  lemma ColumnProfilingCallsInOrder(cfg: Config, t: TableMeta, s: Statistics, render: Value -> string)
    ensures var calls := RunColumnProfiling(cfg, t, s, render).calls;
            InPipelineOrder(calls) && RanksWithin(calls, 5, 9)
  {
    var calls := RunColumnProfiling(cfg, t, s, render).calls;
    StatCallsInOrder(cfg);
    ColumnProfilingCallsArePrefix(cfg, t, s, render);
    InPipelineOrderPrefix(StatCalls(cfg), calls, 5, 9);
  }
}
