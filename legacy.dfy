/**
 * The older copy of `generate_benchmark_data_from_google` in `main.py`,
 * which keeps no per-value table, and the input checks of the
 * `/generate-benchmark` endpoint that calls it.  The reference quantities
 * are those of module `Aggregates`; the loops below are proved to leave
 * them behind, as the newer copy's loops are.
 */
module LegacyAnalytics {
  import opened Common
  import opened Rows
  import opened Aggregates
  import opened Accumulators
  import opened DateParsing
  import Text

  /** The `ValueError`s the function raises, by the check that failed (their message texts are left out). */
  datatype Failure =
    | NoMetricsSelected
    | NoDataRetrieved(errors: map<string, string>)

  /** The dictionary the function returns (without `derived_metrics`, which it computes and drops). */
  datatype Report = Report(
    requestedCount: nat,
    successfulCount: nat,
    startDate: string,
    endDate: string,
    metrics: seq<string>,
    dimensions: seq<string>,
    totals: map<string, real>,
    overallAverages: map<string, real>,
    comboAverages: seq<ComboAverage>,
    summaries: seq<PropertySummary>,
    errors: map<string, string>)

  /** The running state: overall totals and the group table with its key order. */
  datatype Tally = Tally(overall: map<string, real>, combos: ComboTable, order: seq<seq<string>>)

  ghost predicate TallyShaped(metrics: seq<string>, t: Tally) {
    t.overall.Keys == SetOf(metrics) && CombosShaped(t.combos, t.order)
  }

  /** Every part of `after` is that of `before` plus what the rows `rows` of property `id` add. */
  ghost predicate TallyAbsorbed(metrics: seq<string>, dims: seq<string>, before: Tally, after: Tally, id: string, rows: seq<Row>) {
    && TotalsAbsorbed(metrics, before.overall, after.overall, rows)
    && CombosAbsorbed(metrics, dims, before.combos, after.combos, rows)
    && ComboIdsAbsorbed(metrics, dims, before.combos, after.combos, id, rows)
    && after.order == AppendKeys(metrics, dims, before.order, rows)
  }

  /** The state holds exactly the reference quantities of the properties `ps`. */
  ghost predicate TallyReflects(metrics: seq<string>, dims: seq<string>, t: Tally, ps: seq<PropertyFetch>) {
    && OverallReflects(metrics, t.overall, ps)
    && CombosReflect(metrics, dims, t.combos, ps)
    && ComboIdsReflect(metrics, dims, t.combos, ps)
    && t.order == ComboOrder(metrics, dims, ps)
  }

  /**
   * Cell `j` of a row: record its value (0.0 when it does not parse) and,
   * when it parses, add it to the property total, the overall total and
   * the row's group.
   */
  method ProcessCell(metrics: seq<string>, dims: seq<string>, start: Tally, startTotals: map<string, real>,
                     t: Tally, totals: map<string, real>, rowMetrics: map<string, real>, id: string, row: Row, j: nat)
    returns (t': Tally, totals': map<string, real>, rowMetrics': map<string, real>)
    requires j < |row.cells| == |metrics|
    requires TallyShaped(metrics, t) && totals.Keys == SetOf(metrics)
    requires rowMetrics == RowMetrics(metrics, row.cells[..j])
    requires TotalsAbsorbed(metrics, startTotals, totals, [Row(row.dims, row.cells[..j])])
    requires TallyAbsorbed(metrics, dims, start, t, id, [Row(row.dims, row.cells[..j])])
    ensures TallyShaped(metrics, t') && totals'.Keys == SetOf(metrics)
    ensures rowMetrics' == RowMetrics(metrics, row.cells[..j + 1])
    ensures TotalsAbsorbed(metrics, startTotals, totals', [Row(row.dims, row.cells[..j + 1])])
    ensures TallyAbsorbed(metrics, dims, start, t', id, [Row(row.dims, row.cells[..j + 1])])
  {
    var m := metrics[j];
    var cells := row.cells;
    assert m in SetOf(metrics);
    t', totals' := t, totals;
    match cells[j] {
      case Some(v) =>
        rowMetrics' := rowMetrics[m := v];
        totals' := totals[m := totals[m] + v];
        var overall := t.overall[m := t.overall[m] + v];
        var combos, order := AddToCombos(metrics, t.combos, t.order, id, ComboKey(dims, row.dims), m, v);
        t' := Tally(overall, combos, order);
      case None =>
        rowMetrics' := rowMetrics[m := 0.0];
    }
    assert cells[..j + 1][..j] == cells[..j];
    TotalsCellStep(metrics, startTotals, totals, totals', row.dims, cells, j);
    TotalsCellStep(metrics, start.overall, t.overall, t'.overall, row.dims, cells, j);
    CombosCellStep(metrics, dims, start.combos, t.combos, t'.combos, row.dims, cells, j);
    ComboIdsCellStep(metrics, dims, start.combos, t.combos, t'.combos, id, row.dims, cells, j);
    OrderCellStep(metrics, dims, start.order, t.order, t'.order, row.dims, cells, j);
  }

  /**
   * One response row: its dimensions dict, its metrics dict, and what its
   * cells add.  The list of the row's selected dimension values that the
   * source also builds is never read, and is left out.
   */
  method ProcessRow(metrics: seq<string>, dims: seq<string>, t: Tally, totals: map<string, real>, id: string, row: Row)
    returns (t': Tally, totals': map<string, real>, rowMetrics: map<string, real>)
    requires |row.cells| == |metrics|
    requires TallyShaped(metrics, t) && totals.Keys == SetOf(metrics)
    ensures TallyShaped(metrics, t') && totals'.Keys == SetOf(metrics)
    ensures rowMetrics == RowMetrics(metrics, row.cells)
    ensures TotalsAbsorbed(metrics, totals, totals', [row])
    ensures TallyAbsorbed(metrics, dims, t, t', id, [row])
  {
    t', totals', rowMetrics := t, totals, map[];
    assert row.cells[..0] == [];
    AbsorbedBlankRow(metrics, dims, totals, t.combos, t.order, map[], id, row.dims);
    AbsorbedBlankRow(metrics, dims, t.overall, t.combos, t.order, map[], id, row.dims);
    var j := 0;
    while j < |row.cells|
      invariant 0 <= j <= |row.cells|
      invariant TallyShaped(metrics, t') && totals'.Keys == SetOf(metrics)
      invariant rowMetrics == RowMetrics(metrics, row.cells[..j])
      invariant TotalsAbsorbed(metrics, totals, totals', [Row(row.dims, row.cells[..j])])
      invariant TallyAbsorbed(metrics, dims, t, t', id, [Row(row.dims, row.cells[..j])])
    {
      t', totals', rowMetrics := ProcessCell(metrics, dims, t, totals, t', totals', rowMetrics, id, row, j);
      j := j + 1;
    }
    assert row.cells[..j] == row.cells;
    assert Row(row.dims, row.cells) == row;
  }

  /** Absorbing `rows` and then `row` is absorbing `rows + [row]`. */
  lemma TallyRowStep(metrics: seq<string>, dims: seq<string>, before: Tally, mid: Tally, after: Tally,
                     id: string, rows: seq<Row>, row: Row)
    requires TallyAbsorbed(metrics, dims, before, mid, id, rows)
    requires TallyAbsorbed(metrics, dims, mid, after, id, [row])
    ensures TallyAbsorbed(metrics, dims, before, after, id, rows + [row])
  {
    TotalsRowStep(metrics, before.overall, mid.overall, after.overall, rows, row);
    CombosRowStep(metrics, dims, before.combos, mid.combos, after.combos, rows, row);
    ComboIdsRowStep(metrics, dims, before.combos, mid.combos, after.combos, id, rows, row);
    OrderRowStep(metrics, dims, before.order, mid.order, after.order, rows, row);
  }

  /** All rows of one fetched property, in response order. */
  method ProcessRows(metrics: seq<string>, dims: seq<string>, t: Tally, id: string, rows: seq<Row>)
    returns (t': Tally, dataRows: seq<DataRow>, totals: map<string, real>, processed: nat)
    requires forall i :: 0 <= i < |rows| ==> |rows[i].cells| == |metrics|
    requires TallyShaped(metrics, t)
    ensures TallyShaped(metrics, t')
    ensures dataRows == DataRows(metrics, rows)
    ensures totals == PropertyTotals(metrics, rows)
    ensures processed == |rows|
    ensures TallyAbsorbed(metrics, dims, t, t', id, rows)
  {
    t', dataRows, totals, processed := t, [], ZeroTotals(metrics), 0;
    AbsorbedNothing(metrics, dims, t.overall, t.combos, map[], id);
    AbsorbedNothing(metrics, dims, totals, t.combos, map[], id);
    assert rows[..0] == [];
    var i := 0;
    while i < |rows|
      invariant 0 <= i <= |rows| && processed == i
      invariant TallyShaped(metrics, t') && totals.Keys == SetOf(metrics)
      invariant dataRows == DataRows(metrics, rows[..i])
      invariant TotalsAbsorbed(metrics, ZeroTotals(metrics), totals, rows[..i])
      invariant TallyAbsorbed(metrics, dims, t, t', id, rows[..i])
    {
      var row := rows[i];
      assert rows[..i + 1] == rows[..i] + [row];
      assert rows[..i + 1][..i] == rows[..i];
      ghost var (t0, totals0) := (t', totals);
      var rowMetrics;
      t', totals, rowMetrics := ProcessRow(metrics, dims, t', totals, id, row);
      dataRows := dataRows + [DataRow(row.dims, rowMetrics)];
      processed := processed + 1;
      TotalsRowStep(metrics, ZeroTotals(metrics), totals0, totals, rows[..i], row);
      TallyRowStep(metrics, dims, t, t0, t', id, rows[..i], row);
      i := i + 1;
    }
    assert rows[..i] == rows;
  }

  /** One more property: its rows are absorbed when it contributes, and nothing changes otherwise. */
  lemma TallyReflectStep(metrics: seq<string>, dims: seq<string>, ps: seq<PropertyFetch>, p: PropertyFetch, before: Tally, after: Tally)
    requires TallyReflects(metrics, dims, before, ps)
    requires Contributing(p) ==> TallyAbsorbed(metrics, dims, before, after, p.id, p.response.rows)
    requires !Contributing(p) ==> after == before
    ensures TallyReflects(metrics, dims, after, ps + [p])
  {
    OverallReflectStep(metrics, ps, p, before.overall, after.overall);
    CombosReflectStep(metrics, dims, ps, p, before.combos, after.combos);
    ComboIdsReflectStep(metrics, dims, ps, p, before.combos, after.combos);
    OrderReflectStep(metrics, dims, ps, p, before.order, after.order);
  }

  /** The loop's invariant: the state holds the reference values of the ids processed so far. */
  ghost predicate ProcessedUpTo(metrics: seq<string>, dims: seq<string>, ps: seq<PropertyFetch>,
                                t: Tally, summaries: seq<PropertySummary>, errors: map<string, string>, count: nat)
  {
    && TallyShaped(metrics, t)
    && TallyReflects(metrics, dims, t, ps)
    && summaries == Summaries(metrics, ps)
    && errors == ErrorsOf(ps)
    && count == SuccessCount(ps)
  }

  /** Before the first id the state holds the reference values of no ids. */
  lemma ProcessedNothing(metrics: seq<string>, dims: seq<string>)
    ensures ProcessedUpTo(metrics, dims, [], Tally(ZeroTotals(metrics), map[], []), [], map[], 0)
  {
    ReflectNothing(metrics, dims);
  }

  /** Processing one more id as `ProcessProperty` does keeps the loop's invariant. */
  lemma ProcessedStep(metrics: seq<string>, dims: seq<string>, ps: seq<PropertyFetch>, p: PropertyFetch,
                      t0: Tally, summaries0: seq<PropertySummary>, errors0: map<string, string>, count0: nat,
                      t: Tally, summaries: seq<PropertySummary>, errors: map<string, string>, count: nat)
    requires ProcessedUpTo(metrics, dims, ps, t0, summaries0, errors0, count0)
    requires TallyShaped(metrics, t)
    requires Contributing(p) ==> TallyAbsorbed(metrics, dims, t0, t, p.id, p.response.rows)
    requires !Contributing(p) ==> t == t0
    requires summaries == summaries0 + [SummaryOf(metrics, p)]
    requires errors == ErrorStep(errors0, p)
    requires count == count0 + (if Successful(p) then 1 else 0)
    ensures ProcessedUpTo(metrics, dims, ps + [p], t, summaries, errors, count)
  {
    TallyReflectStep(metrics, dims, ps, p, t0, t);
    SummariesStep(metrics, ps, p);
    ErrorsOfStep(ps, p);
    assert (ps + [p])[..|ps|] == ps;
  }

  /**
   * One pass of the loop over the selected ids, for the id at position `i`:
   * its error entry, its summary entry, its rows and its share of the
   * successful count.
   */
  method ProcessProperty(provider: Provider, i: nat, id: string, metrics: seq<string>, dims: seq<string>, start: string, end: string,
                         t: Tally, summaries: seq<PropertySummary>, errors: map<string, string>, count: nat)
    returns (t': Tally, summaries': seq<PropertySummary>, errors': map<string, string>, count': nat)
    requires TallyShaped(metrics, t)
    requires var p := PropertyFetch(id, provider(i, id, QueryDimensions(dims), metrics, start, end));
      Contributing(p) ==> forall j :: 0 <= j < |p.response.rows| ==> |p.response.rows[j].cells| == |metrics|
    ensures TallyShaped(metrics, t')
    ensures var p := PropertyFetch(id, provider(i, id, QueryDimensions(dims), metrics, start, end));
      && (Contributing(p) ==> TallyAbsorbed(metrics, dims, t, t', id, p.response.rows))
      && (!Contributing(p) ==> t' == t)
      && summaries' == summaries + [SummaryOf(metrics, p)]
      && errors' == ErrorStep(errors, p)
      && count' == count + (if Successful(p) then 1 else 0)
  {
    t', summaries', errors', count' := t, summaries, errors, count;
    if !WellFormedId(id) {
      errors' := errors[id := MalformedIdError];
      summaries' := summaries + [Errored(id, MalformedIdSummary, ZeroTotals(metrics))];
    } else {
      var response := provider(i, id, QueryDimensions(dims), metrics, start, end);
      match response {
        case Failed(message) =>
          errors' := errors[id := message];
          summaries' := summaries + [Errored(id, message, ZeroTotals(metrics))];
        case Fetched(rows) =>
          var hadData := rows != [];
          var dataRows, totals, processed;
          t', dataRows, totals, processed := ProcessRows(metrics, dims, t, id, rows);
          if hadData {
            count' := count + 1;
          }
          summaries' := summaries + [Processed(id, dataRows, totals, processed)];
      }
    }
  }

  /**
   * The loop over the selected ids.  A property is counted once its first
   * row is read, that is, exactly when it returned at least one row.
   */
  method ProcessProperties(provider: Provider, ids: seq<string>, metrics: seq<string>, dims: seq<string>, start: string, end: string)
    returns (t: Tally, summaries: seq<PropertySummary>, errors: map<string, string>, count: nat)
    requires AnswersShaped(metrics, Fetches(provider, ids, metrics, dims, start, end))
    ensures TallyShaped(metrics, t)
    ensures TallyReflects(metrics, dims, t, Fetches(provider, ids, metrics, dims, start, end))
    ensures summaries == Summaries(metrics, Fetches(provider, ids, metrics, dims, start, end))
    ensures errors == ErrorsOf(Fetches(provider, ids, metrics, dims, start, end))
    ensures count == SuccessCount(Fetches(provider, ids, metrics, dims, start, end))
  {
    ghost var ps := Fetches(provider, ids, metrics, dims, start, end);
    t := Tally(ZeroTotals(metrics), map[], []);
    summaries, errors, count := [], map[], 0;
    ProcessedNothing(metrics, dims);
    assert ps[..0] == [];
    var i := 0;
    while i < |ids|
      invariant 0 <= i <= |ids|
      invariant ProcessedUpTo(metrics, dims, ps[..i], t, summaries, errors, count)
    {
      assert ps[..i + 1] == ps[..i] + [ps[i]];
      ghost var before := (t, summaries, errors, count);
      assert ps[i] == PropertyFetch(ids[i], provider(i, ids[i], QueryDimensions(dims), metrics, start, end));
      t, summaries, errors, count := ProcessProperty(provider, i, ids[i], metrics, dims, start, end, t, summaries, errors, count);
      ProcessedStep(metrics, dims, ps[..i], ps[i], before.0, before.1, before.2, before.3, t, summaries, errors, count);
      i := i + 1;
    }
    assert ps[..i] == ps;
  }

  /**
   * The averages of one group: when `count` is positive every selected
   * metric's sum divided by it and rounded, and otherwise 0.0 for every
   * selected metric.
   */
  method GroupAverages(metrics: seq<string>, sums: map<string, real>, count: nat) returns (avg: map<string, real>)
    ensures avg == AveragesOf(metrics, sums, count)
  {
    avg := map[];
    var i := 0;
    while i < |metrics|
      invariant 0 <= i <= |metrics|
      invariant avg == AveragesOf(metrics[..i], sums, count)
    {
      var m := metrics[i];
      var sum := if m in sums then sums[m] else 0.0;
      if count > 0 {
        avg := avg[m := Rounding.Round2(sum / count as real)];
      } else {
        avg := avg[m := 0.0];
      }
      assert metrics[..i + 1] == metrics[..i] + [m];
      i := i + 1;
    }
    assert metrics[..i] == metrics;
  }

  /** `average_metrics_per_dimension_combination`, in the group table's insertion order. */
  method AverageCombos(metrics: seq<string>, dims: seq<string>, combos: ComboTable, order: seq<seq<string>>,
                       ghost ps: seq<PropertyFetch>, count: nat)
    returns (out: seq<ComboAverage>)
    requires CombosShaped(combos, order) && order == ComboOrder(metrics, dims, ps)
    requires CombosReflect(metrics, dims, combos, ps)
    ensures out == ComboAveragesOf(metrics, dims, ps, count)
  {
    ghost var expected := ComboAveragesOf(metrics, dims, ps, count);
    out := [];
    var i := 0;
    while i < |order|
      invariant 0 <= i <= |order| && out == expected[..i]
    {
      var key := order[i];
      ComboAverageAt(metrics, dims, combos, order, ps, count, i);
      var averages := GroupAverages(metrics, combos[key].sums, count);
      out := out + [ComboAverage(ZipDims(dims, key), averages)];
      i := i + 1;
    }
    assert expected[..i] == expected;
  }

  /** The first `i + 1` group averages extend the first `i` by the `i`-th key's dimensions and the averages of its sums in the table. */
  lemma ComboAverageAt(metrics: seq<string>, dims: seq<string>, combos: ComboTable, order: seq<seq<string>>,
                       ps: seq<PropertyFetch>, count: nat, i: nat)
    requires CombosShaped(combos, order) && order == ComboOrder(metrics, dims, ps)
    requires CombosReflect(metrics, dims, combos, ps)
    requires i < |order|
    ensures order[i] in combos
    ensures var expected := ComboAveragesOf(metrics, dims, ps, count);
      expected[..i + 1]
      == expected[..i] + [ComboAverage(ZipDims(dims, order[i]), AveragesOf(metrics, combos[order[i]].sums, count))]
  {
    var expected := ComboAveragesOf(metrics, dims, ps, count);
    assert order[i] in SetOf(order);
    assert expected[i]
      == ComboAverage(ZipDims(dims, order[i]), AveragesOf(metrics, ComboSums(metrics, dims, ps, order[i]), count));
    BucketAverages(metrics, dims, combos, ps, order[i], count);
    assert expected[..i + 1] == expected[..i] + [expected[i]];
  }

  /** Each group's averages read from the table are those of its reference sums. */
  lemma BucketAverages(metrics: seq<string>, dims: seq<string>, combos: ComboTable, ps: seq<PropertyFetch>, key: seq<string>, count: nat)
    requires key in combos && CombosReflect(metrics, dims, combos, ps)
    ensures AveragesOf(metrics, combos[key].sums, count) == AveragesOf(metrics, ComboSums(metrics, dims, ps, key), count)
  {
    forall m | m in SetOf(metrics)
      ensures (if m in combos[key].sums then combos[key].sums[m] else 0.0) == ComboSum(metrics, dims, ps, key, m)
    {
      assert ComboTotal(combos, key, m) == ComboSum(metrics, dims, ps, key, m);
    }
  }

  /** `r` is the dictionary the function returns for the ids `ids` and their fetches `ps`. */
  ghost predicate Describes(ids: seq<string>, metrics: seq<string>, dims: seq<string>, start: string, end: string,
                            ps: seq<PropertyFetch>, r: Report)
  {
    var count := SuccessCount(ps);
    && r.requestedCount == |ids|
    && r.successfulCount == count
    && r.startDate == start && r.endDate == end
    && r.metrics == metrics && r.dimensions == dims
    && r.totals == (map m | m in SetOf(metrics) :: OverallSum(metrics, ps, m))
    && r.overallAverages == AveragesOf(metrics, r.totals, count)
    && r.comboAverages == ComboAveragesOf(metrics, dims, ps, count)
    && r.summaries == Summaries(metrics, ps)
    && r.errors == ErrorsOf(ps)
  }

  /** The older `generate_benchmark_data_from_google`. */
  method Generate(provider: Provider, ids: seq<string>, metrics: seq<string>, dims: seq<string>, start: string, end: string)
    returns (r: Result<Report, Failure>)
    requires AnswersShaped(metrics, Fetches(provider, ids, metrics, dims, start, end))
    ensures metrics == [] ==> r == Err(NoMetricsSelected)
    ensures metrics != [] && ids != [] && SuccessCount(Fetches(provider, ids, metrics, dims, start, end)) == 0 ==>
              r == Err(NoDataRetrieved(ErrorsOf(Fetches(provider, ids, metrics, dims, start, end))))
    ensures r.Ok? <==> metrics != [] && (ids == [] || SuccessCount(Fetches(provider, ids, metrics, dims, start, end)) > 0)
    ensures r.Ok? ==> Describes(ids, metrics, dims, start, end, Fetches(provider, ids, metrics, dims, start, end), r.value)
  {
    if metrics == [] {
      return Err(NoMetricsSelected);
    }
    ghost var ps := Fetches(provider, ids, metrics, dims, start, end);
    var t, summaries, errors, count := ProcessProperties(provider, ids, metrics, dims, start, end);
    if count == 0 && ids != [] {
      return Err(NoDataRetrieved(errors));
    }
    var comboAverages := AverageCombos(metrics, dims, t.combos, t.order, ps, count);
    var overallAverages := AveragesOf(metrics, t.overall, count);
    assert t.overall == (map m | m in SetOf(metrics) :: OverallSum(metrics, ps, m));
    r := Ok(Report(|ids|, count, start, end, metrics, dims, t.overall, overallAverages,
                   comboAverages, summaries, errors));
  }

  /* The `/generate-benchmark` endpoint's checks before it calls the aggregator. */

  /** Why the endpoint answers 400 before aggregating. */
  datatype InputError =
    | NoProperties   // "Selecteer ten minste één GA4 property."
    | NoMetrics      // "Selecteer ten minste één metric."
    | NoDimensions   // "Selecteer ten minste één dimensie (bijv. datum)."
    | BadStartDate(reason: DateError)
    | BadEndDate(reason: DateError)
    | StartAfterEnd  // "Startdatum mag niet na de einddatum liggen."

  /**
   * The checks in source order: the property, metric and dimension
   * selections must be non-empty, both dates must parse as `%Y-%m-%d`
   * (start first), and the start must not be the greater string.
   */
  function CheckInputs(ids: seq<string>, metrics: seq<string>, dims: seq<string>, start: string, end: string)
    : (r: Option<InputError>)
    ensures r.None? <==> (ids != [] && metrics != [] && dims != []
                          && Strptime(start).Ok? && Strptime(end).Ok? && !Text.Less(end, start))
    ensures r == Some(NoProperties) <==> ids == []
    ensures r == Some(NoMetrics) <==> ids != [] && metrics == []
    ensures r == Some(NoDimensions) <==> ids != [] && metrics != [] && dims == []
    ensures r == Some(StartAfterEnd) <==> (ids != [] && metrics != [] && dims != []
                                           && Strptime(start).Ok? && Strptime(end).Ok? && Text.Less(end, start))
  {
    if ids == [] then Some(NoProperties)
    else if metrics == [] then Some(NoMetrics)
    else if dims == [] then Some(NoDimensions)
    else if Strptime(start).Err? then Some(BadStartDate(Strptime(start).error))
    else if Strptime(end).Err? then Some(BadEndDate(Strptime(end).error))
    else if Text.Less(end, start) then Some(StartAfterEnd)
    else None
  }

  /** For dates the form's date picker sends (zero-padded), the endpoint accepts exactly the ranges that do not run backwards. */
  lemma PaddedRangeAccepted(ids: seq<string>, metrics: seq<string>, dims: seq<string>, start: Date, end: Date)
    requires ids != [] && metrics != [] && dims != []
    requires ValidDate(start) && ValidDate(end)
    ensures CheckInputs(ids, metrics, dims, Format(start), Format(end)).None? <==> !Before(end, start)
  {
    FormatRoundTrip(start);
    FormatRoundTrip(end);
    FormatOrder(end, start);
  }

  /** Unpadded dates that `strptime` reads are refused although the range runs forwards. */
  lemma UnpaddedRangeRefused(ids: seq<string>, metrics: seq<string>, dims: seq<string>)
    requires ids != [] && metrics != [] && dims != []
    ensures Before(Date(2024, 9, 1), Date(2024, 10, 1))
    ensures CheckInputs(ids, metrics, dims, "2024-9-01", "2024-10-01") == Some(StartAfterEnd)
  {
    UnpaddedMonthMisordered();
  }
}
