/**
 * `generate_benchmark_data_from_google` as the application package defines
 * it: for every selected property, ask the provider for a report, fold its
 * rows into the running totals, the per-group sums and the per-value sums,
 * and finally divide every sum by the number of properties that returned
 * data.
 *
 * The function's local dictionaries are the state of the loops below; each
 * loop is proved to leave exactly the reference quantities of module
 * `Aggregates` behind.
 */
module Analytics {
  import opened Common
  import opened Rows
  import opened Aggregates
  import opened Accumulators
  import Text

  /** The `ValueError`s the function raises, by the check that failed (their message texts are left out). */
  datatype Failure =
    | NoMetricsSelected
    | NoDataRetrieved(errors: map<string, string>)

  /** The dictionary the function returns (without `derived_metrics`, which it computes and drops). */
  datatype Report = Report(
    requestedCount: nat,
    successfulCount: nat,
    startDate: string,
    endDate: string,
    metrics: seq<string>,
    dimensions: seq<string>,
    totals: map<string, real>,
    overallAverages: map<string, real>,
    comboAverages: seq<ComboAverage>,
    valueAverages: map<string, seq<ValueAverage>>,
    summaries: seq<PropertySummary>,
    errors: map<string, string>)

  /** The running state the loops share: overall totals and the two tables. */
  datatype Tally = Tally(overall: map<string, real>, combos: ComboTable, order: seq<seq<string>>, values: ValueTable)

  ghost predicate TallyShaped(metrics: seq<string>, dims: seq<string>, t: Tally) {
    t.overall.Keys == SetOf(metrics) && CombosShaped(t.combos, t.order) && ValuesShaped(dims, t.values)
  }

  /** Every table of `after` is that of `before` plus what the rows `rows` of property `id` add. */
  ghost predicate TallyAbsorbed(metrics: seq<string>, dims: seq<string>, before: Tally, after: Tally, id: string, rows: seq<Row>) {
    && TotalsAbsorbed(metrics, before.overall, after.overall, rows)
    && CombosAbsorbed(metrics, dims, before.combos, after.combos, rows)
    && ComboIdsAbsorbed(metrics, dims, before.combos, after.combos, id, rows)
    && after.order == AppendKeys(metrics, dims, before.order, rows)
    && ValueTotalsAbsorbed(metrics, dims, before.values, after.values, rows)
    && ValuesAbsorbed(metrics, dims, before.values, after.values, rows)
    && ValueIdsAbsorbed(metrics, dims, before.values, after.values, id, rows)
  }

  /** The tables hold exactly the reference quantities of the properties `ps`. */
  ghost predicate TallyReflects(metrics: seq<string>, dims: seq<string>, t: Tally, ps: seq<PropertyFetch>) {
    && OverallReflects(metrics, t.overall, ps)
    && CombosReflect(metrics, dims, t.combos, ps)
    && ComboIdsReflect(metrics, dims, t.combos, ps)
    && t.order == ComboOrder(metrics, dims, ps)
    && ValueTotalsReflect(metrics, dims, t.values, ps)
    && ValuesReflect(metrics, dims, t.values, ps)
    && ValueIdsReflect(metrics, dims, t.values, ps)
  }

  /**
   * Cell `j` of a row: record its value (0.0 when it does not parse) in the
   * row's metrics dict and, when it parses, add it to the property total,
   * the overall total, the row's group and each selected dimension's value.
   */
  method ProcessCell(metrics: seq<string>, dims: seq<string>, start: Tally, startTotals: map<string, real>,
                     t: Tally, totals: map<string, real>, rowMetrics: map<string, real>, id: string, row: Row, j: nat)
    returns (t': Tally, totals': map<string, real>, rowMetrics': map<string, real>)
    requires j < |row.cells| == |metrics|
    requires TallyShaped(metrics, dims, t) && totals.Keys == SetOf(metrics)
    requires rowMetrics == RowMetrics(metrics, row.cells[..j])
    requires TotalsAbsorbed(metrics, startTotals, totals, [Row(row.dims, row.cells[..j])])
    requires TallyAbsorbed(metrics, dims, start, t, id, [Row(row.dims, row.cells[..j])])
    ensures TallyShaped(metrics, dims, t') && totals'.Keys == SetOf(metrics)
    ensures rowMetrics' == RowMetrics(metrics, row.cells[..j + 1])
    ensures TotalsAbsorbed(metrics, startTotals, totals', [Row(row.dims, row.cells[..j + 1])])
    ensures TallyAbsorbed(metrics, dims, start, t', id, [Row(row.dims, row.cells[..j + 1])])
  {
    var m := metrics[j];
    var cells := row.cells;
    assert m in SetOf(metrics);
    t', totals' := t, totals;
    match cells[j] {
      case Some(v) =>
        rowMetrics' := rowMetrics[m := v];
        totals' := totals[m := totals[m] + v];
        var overall := t.overall[m := t.overall[m] + v];
        var combos, order := AddToCombos(metrics, t.combos, t.order, id, ComboKey(dims, row.dims), m, v);
        var values := AddToValues(metrics, dims, t.values, id, row.dims, m, v);
        t' := Tally(overall, combos, order, values);
      case None =>
        rowMetrics' := rowMetrics[m := 0.0];
    }
    assert cells[..j + 1][..j] == cells[..j];
    TotalsCellStep(metrics, startTotals, totals, totals', row.dims, cells, j);
    TotalsCellStep(metrics, start.overall, t.overall, t'.overall, row.dims, cells, j);
    CombosCellStep(metrics, dims, start.combos, t.combos, t'.combos, row.dims, cells, j);
    ComboIdsCellStep(metrics, dims, start.combos, t.combos, t'.combos, id, row.dims, cells, j);
    OrderCellStep(metrics, dims, start.order, t.order, t'.order, row.dims, cells, j);
    ValueTotalsCellStep(metrics, dims, start.values, t.values, t'.values, row.dims, cells, j);
    ValuesCellStep(metrics, dims, start.values, t.values, t'.values, row.dims, cells, j);
    ValueIdsCellStep(metrics, dims, start.values, t.values, t'.values, id, row.dims, cells, j);
  }

  /** One response row: its metrics dict, and what its cells add to the totals and tables. */
  method ProcessRow(metrics: seq<string>, dims: seq<string>, t: Tally, totals: map<string, real>, id: string, row: Row)
    returns (t': Tally, totals': map<string, real>, rowMetrics: map<string, real>)
    requires |row.cells| == |metrics|
    requires TallyShaped(metrics, dims, t) && totals.Keys == SetOf(metrics)
    ensures TallyShaped(metrics, dims, t') && totals'.Keys == SetOf(metrics)
    ensures rowMetrics == RowMetrics(metrics, row.cells)
    ensures TotalsAbsorbed(metrics, totals, totals', [row])
    ensures TallyAbsorbed(metrics, dims, t, t', id, [row])
  {
    t', totals', rowMetrics := t, totals, map[];
    assert row.cells[..0] == [];
    AbsorbedBlankRow(metrics, dims, totals, t.combos, t.order, t.values, id, row.dims);
    AbsorbedBlankRow(metrics, dims, t.overall, t.combos, t.order, t.values, id, row.dims);
    var j := 0;
    while j < |row.cells|
      invariant 0 <= j <= |row.cells|
      invariant TallyShaped(metrics, dims, t') && totals'.Keys == SetOf(metrics)
      invariant rowMetrics == RowMetrics(metrics, row.cells[..j])
      invariant TotalsAbsorbed(metrics, totals, totals', [Row(row.dims, row.cells[..j])])
      invariant TallyAbsorbed(metrics, dims, t, t', id, [Row(row.dims, row.cells[..j])])
    {
      t', totals', rowMetrics := ProcessCell(metrics, dims, t, totals, t', totals', rowMetrics, id, row, j);
      j := j + 1;
    }
    assert row.cells[..j] == row.cells;
    assert Row(row.dims, row.cells) == row;
  }

  /** Absorbing `rows` and then `row` is absorbing `rows + [row]`. */
  lemma TallyRowStep(metrics: seq<string>, dims: seq<string>, before: Tally, mid: Tally, after: Tally,
                     id: string, rows: seq<Row>, row: Row)
    requires TallyAbsorbed(metrics, dims, before, mid, id, rows)
    requires TallyAbsorbed(metrics, dims, mid, after, id, [row])
    ensures TallyAbsorbed(metrics, dims, before, after, id, rows + [row])
  {
    TotalsRowStep(metrics, before.overall, mid.overall, after.overall, rows, row);
    CombosRowStep(metrics, dims, before.combos, mid.combos, after.combos, rows, row);
    ComboIdsRowStep(metrics, dims, before.combos, mid.combos, after.combos, id, rows, row);
    OrderRowStep(metrics, dims, before.order, mid.order, after.order, rows, row);
    ValueTotalsRowStep(metrics, dims, before.values, mid.values, after.values, rows, row);
    ValuesRowStep(metrics, dims, before.values, mid.values, after.values, rows, row);
    ValueIdsRowStep(metrics, dims, before.values, mid.values, after.values, id, rows, row);
  }

  /** The loop state of `ProcessRows` after the rows `done`: shaped tables, their data rows, and both totals absorbed. */
  ghost predicate RowsProcessed(metrics: seq<string>, dims: seq<string>, t: Tally, id: string, done: seq<Row>,
                                t': Tally, dataRows: seq<DataRow>, totals: map<string, real>)
  {
    && TallyShaped(metrics, dims, t') && totals.Keys == SetOf(metrics)
    && dataRows == DataRows(metrics, done)
    && TotalsAbsorbed(metrics, ZeroTotals(metrics), totals, done)
    && TallyAbsorbed(metrics, dims, t, t', id, done)
  }

  /** One more row processed by `ProcessRow` keeps `RowsProcessed`. */
  lemma RowsProcessedStep(metrics: seq<string>, dims: seq<string>, t: Tally, id: string, done: seq<Row>, row: Row,
                          t0: Tally, dataRows: seq<DataRow>, totals0: map<string, real>,
                          t1: Tally, totals1: map<string, real>, rowMetrics: map<string, real>)
    requires RowsProcessed(metrics, dims, t, id, done, t0, dataRows, totals0)
    requires TallyShaped(metrics, dims, t1) && totals1.Keys == SetOf(metrics)
    requires rowMetrics == RowMetrics(metrics, row.cells)
    requires TotalsAbsorbed(metrics, totals0, totals1, [row])
    requires TallyAbsorbed(metrics, dims, t0, t1, id, [row])
    ensures RowsProcessed(metrics, dims, t, id, done + [row], t1, dataRows + [DataRow(row.dims, rowMetrics)], totals1)
  {
    assert (done + [row])[..|done|] == done;
    TotalsRowStep(metrics, ZeroTotals(metrics), totals0, totals1, done, row);
    TallyRowStep(metrics, dims, t, t0, t1, id, done, row);
  }

  /**
   * All rows of one fetched property, in response order: its data rows, its
   * per-metric totals, the number of rows processed, and what the rows add
   * to the shared totals and tables.
   */
  method ProcessRows(metrics: seq<string>, dims: seq<string>, t: Tally, id: string, rows: seq<Row>)
    returns (t': Tally, dataRows: seq<DataRow>, totals: map<string, real>, processed: nat)
    requires forall i :: 0 <= i < |rows| ==> |rows[i].cells| == |metrics|
    requires TallyShaped(metrics, dims, t)
    ensures TallyShaped(metrics, dims, t')
    ensures dataRows == DataRows(metrics, rows)
    ensures totals == PropertyTotals(metrics, rows)
    ensures processed == |rows|
    ensures TallyAbsorbed(metrics, dims, t, t', id, rows)
  {
    t', dataRows, totals, processed := t, [], ZeroTotals(metrics), 0;
    AbsorbedNothing(metrics, dims, t.overall, t.combos, t.values, id);
    AbsorbedNothing(metrics, dims, totals, t.combos, t.values, id);
    assert rows[..0] == [];
    var i := 0;
    while i < |rows|
      invariant 0 <= i <= |rows| && processed == i
      invariant RowsProcessed(metrics, dims, t, id, rows[..i], t', dataRows, totals)
    {
      var row := rows[i];
      assert rows[..i + 1] == rows[..i] + [row];
      ghost var (t0, totals0, dataRows0) := (t', totals, dataRows);
      var rowMetrics;
      t', totals, rowMetrics := ProcessRow(metrics, dims, t', totals, id, row);
      dataRows := dataRows + [DataRow(row.dims, rowMetrics)];
      processed := processed + 1;
      RowsProcessedStep(metrics, dims, t, id, rows[..i], row, t0, dataRows0, totals0, t', totals, rowMetrics);
      i := i + 1;
    }
    assert rows[..i] == rows;
  }

  /** One more property: its rows are absorbed when it contributes, and nothing changes otherwise. */
  lemma TallyReflectStep(metrics: seq<string>, dims: seq<string>, ps: seq<PropertyFetch>, p: PropertyFetch, before: Tally, after: Tally)
    requires TallyReflects(metrics, dims, before, ps)
    requires Contributing(p) ==> TallyAbsorbed(metrics, dims, before, after, p.id, p.response.rows)
    requires !Contributing(p) ==> after == before
    ensures TallyReflects(metrics, dims, after, ps + [p])
  {
    OverallReflectStep(metrics, ps, p, before.overall, after.overall);
    CombosReflectStep(metrics, dims, ps, p, before.combos, after.combos);
    ComboIdsReflectStep(metrics, dims, ps, p, before.combos, after.combos);
    OrderReflectStep(metrics, dims, ps, p, before.order, after.order);
    ValueTotalsReflectStep(metrics, dims, ps, p, before.values, after.values);
    ValuesReflectStep(metrics, dims, ps, p, before.values, after.values);
    ValueIdsReflectStep(metrics, dims, ps, p, before.values, after.values);
  }

  /** The loop's invariant: the state holds the reference values of the ids processed so far. */
  ghost predicate ProcessedUpTo(metrics: seq<string>, dims: seq<string>, ps: seq<PropertyFetch>,
                                t: Tally, summaries: seq<PropertySummary>, errors: map<string, string>, count: nat)
  {
    && TallyShaped(metrics, dims, t)
    && TallyReflects(metrics, dims, t, ps)
    && summaries == Summaries(metrics, ps)
    && errors == ErrorsOf(ps)
    && count == SuccessCount(ps)
  }

  /** Before the first id the state holds the reference values of no ids. */
  lemma ProcessedNothing(metrics: seq<string>, dims: seq<string>)
    ensures ProcessedUpTo(metrics, dims, [], Tally(ZeroTotals(metrics), map[], [], EmptyValues(dims)), [], map[], 0)
  {
    ReflectNothing(metrics, dims);
  }

  /** Processing one more id as `ProcessProperty` does keeps the loop's invariant. */
  lemma ProcessedStep(metrics: seq<string>, dims: seq<string>, ps: seq<PropertyFetch>, p: PropertyFetch,
                      t0: Tally, summaries0: seq<PropertySummary>, errors0: map<string, string>, count0: nat,
                      t: Tally, summaries: seq<PropertySummary>, errors: map<string, string>, count: nat)
    requires ProcessedUpTo(metrics, dims, ps, t0, summaries0, errors0, count0)
    requires TallyShaped(metrics, dims, t)
    requires Contributing(p) ==> TallyAbsorbed(metrics, dims, t0, t, p.id, p.response.rows)
    requires !Contributing(p) ==> t == t0
    requires summaries == summaries0 + [SummaryOf(metrics, p)]
    requires errors == ErrorStep(errors0, p)
    requires count == count0 + (if Successful(p) then 1 else 0)
    ensures ProcessedUpTo(metrics, dims, ps + [p], t, summaries, errors, count)
  {
    TallyReflectStep(metrics, dims, ps, p, t0, t);
    SummariesStep(metrics, ps, p);
    ErrorsOfStep(ps, p);
    assert (ps + [p])[..|ps|] == ps;
  }

  /**
   * One pass of the loop over the selected ids, for the id at position `i`:
   * its error entry, its summary entry, its rows and its share of the
   * successful count.
   */
  method ProcessProperty(provider: Provider, i: nat, id: string, metrics: seq<string>, dims: seq<string>, start: string, end: string,
                         t: Tally, summaries: seq<PropertySummary>, errors: map<string, string>, count: nat)
    returns (t': Tally, summaries': seq<PropertySummary>, errors': map<string, string>, count': nat)
    requires TallyShaped(metrics, dims, t)
    requires var p := PropertyFetch(id, provider(i, id, QueryDimensions(dims), metrics, start, end));
      Contributing(p) ==> forall j :: 0 <= j < |p.response.rows| ==> |p.response.rows[j].cells| == |metrics|
    ensures TallyShaped(metrics, dims, t')
    ensures var p := PropertyFetch(id, provider(i, id, QueryDimensions(dims), metrics, start, end));
      && (Contributing(p) ==> TallyAbsorbed(metrics, dims, t, t', id, p.response.rows))
      && (!Contributing(p) ==> t' == t)
      && summaries' == summaries + [SummaryOf(metrics, p)]
      && errors' == ErrorStep(errors, p)
      && count' == count + (if Successful(p) then 1 else 0)
  {
    t', summaries', errors', count' := t, summaries, errors, count;
    if !WellFormedId(id) {
      errors' := errors[id := MalformedIdError];
      summaries' := summaries + [Errored(id, MalformedIdSummary, ZeroTotals(metrics))];
    } else {
      var response := provider(i, id, QueryDimensions(dims), metrics, start, end);
      match response {
        case Failed(message) =>
          errors' := errors[id := message];
          summaries' := summaries + [Errored(id, message, ZeroTotals(metrics))];
        case Fetched(rows) =>
          var dataRows, totals, processed;
          t', dataRows, totals, processed := ProcessRows(metrics, dims, t, id, rows);
          if |rows| > 0 {
            count' := count + 1;
          }
          summaries' := summaries + [Processed(id, dataRows, totals, processed)];
      }
    }
  }

  /**
   * The loop over the selected ids: a malformed id and a failed fetch are
   * recorded as errors, every fetched property's rows are accumulated, and
   * a property counts as successful when it returned at least one row.
   */
  method ProcessProperties(provider: Provider, ids: seq<string>, metrics: seq<string>, dims: seq<string>, start: string, end: string)
    returns (t: Tally, summaries: seq<PropertySummary>, errors: map<string, string>, count: nat)
    requires AnswersShaped(metrics, Fetches(provider, ids, metrics, dims, start, end))
    ensures TallyShaped(metrics, dims, t)
    ensures TallyReflects(metrics, dims, t, Fetches(provider, ids, metrics, dims, start, end))
    ensures summaries == Summaries(metrics, Fetches(provider, ids, metrics, dims, start, end))
    ensures errors == ErrorsOf(Fetches(provider, ids, metrics, dims, start, end))
    ensures count == SuccessCount(Fetches(provider, ids, metrics, dims, start, end))
  {
    ghost var ps := Fetches(provider, ids, metrics, dims, start, end);
    t := Tally(ZeroTotals(metrics), map[], [], EmptyValues(dims));
    summaries, errors, count := [], map[], 0;
    ProcessedNothing(metrics, dims);
    assert ps[..0] == [];
    var i := 0;
    while i < |ids|
      invariant 0 <= i <= |ids|
      invariant ProcessedUpTo(metrics, dims, ps[..i], t, summaries, errors, count)
    {
      assert ps[..i + 1] == ps[..i] + [ps[i]];
      ghost var before := (t, summaries, errors, count);
      assert ps[i] == PropertyFetch(ids[i], provider(i, ids[i], QueryDimensions(dims), metrics, start, end));
      t, summaries, errors, count := ProcessProperty(provider, i, ids[i], metrics, dims, start, end, t, summaries, errors, count);
      ProcessedStep(metrics, dims, ps[..i], ps[i], before.0, before.1, before.2, before.3, t, summaries, errors, count);
      i := i + 1;
    }
    assert ps[..i] == ps;
  }

  /** The first `i + 1` group averages extend the first `i` by the `i`-th key's dimensions and the averages of its sums in the table. */
  lemma ComboAverageAt(metrics: seq<string>, dims: seq<string>, combos: ComboTable, order: seq<seq<string>>,
                       ps: seq<PropertyFetch>, count: nat, i: nat)
    requires CombosShaped(combos, order) && order == ComboOrder(metrics, dims, ps)
    requires CombosReflect(metrics, dims, combos, ps)
    requires i < |order|
    ensures order[i] in combos
    ensures var expected := ComboAveragesOf(metrics, dims, ps, count);
      expected[..i + 1]
      == expected[..i] + [ComboAverage(ZipDims(dims, order[i]), AveragesOf(metrics, combos[order[i]].sums, count))]
  {
    var expected := ComboAveragesOf(metrics, dims, ps, count);
    assert order[i] in SetOf(order);
    assert expected[i]
      == ComboAverage(ZipDims(dims, order[i]), AveragesOf(metrics, ComboSums(metrics, dims, ps, order[i]), count));
    BucketAverages(metrics, dims, combos, ps, order[i], count);
    assert expected[..i + 1] == expected[..i] + [expected[i]];
  }

  /** Each value's averages read from the table are those of the value's reference sums. */
  lemma BucketAverages(metrics: seq<string>, dims: seq<string>, combos: ComboTable, ps: seq<PropertyFetch>, key: seq<string>, count: nat)
    requires key in combos && CombosReflect(metrics, dims, combos, ps)
    ensures AveragesOf(metrics, combos[key].sums, count) == AveragesOf(metrics, ComboSums(metrics, dims, ps, key), count)
  {
    forall m | m in SetOf(metrics)
      ensures (if m in combos[key].sums then combos[key].sums[m] else 0.0) == ComboSum(metrics, dims, ps, key, m)
    {
      assert ComboTotal(combos, key, m) == ComboSum(metrics, dims, ps, key, m);
    }
  }

  /**
   * `average_metrics_per_dimension_combination`: walk the group table in
   * its insertion order and average every group's sums over `count`.
   */
  method AverageCombos(metrics: seq<string>, dims: seq<string>, combos: ComboTable, order: seq<seq<string>>,
                       ghost ps: seq<PropertyFetch>, count: nat)
    returns (out: seq<ComboAverage>)
    requires CombosShaped(combos, order) && order == ComboOrder(metrics, dims, ps)
    requires CombosReflect(metrics, dims, combos, ps)
    ensures out == ComboAveragesOf(metrics, dims, ps, count)
  {
    ghost var expected := ComboAveragesOf(metrics, dims, ps, count);
    out := [];
    var i := 0;
    while i < |order|
      invariant 0 <= i <= |order| && out == expected[..i]
    {
      var key := order[i];
      ComboAverageAt(metrics, dims, combos, order, ps, count, i);
      out := out + [ComboAverage(ZipDims(dims, key), AveragesOf(metrics, combos[key].sums, count))];
      i := i + 1;
    }
    assert expected[..i] == expected;
  }

  /** The averages of an entry of dimension `d`'s inner table are those of its reference sums. */
  lemma ValueBucketAverages(metrics: seq<string>, dims: seq<string>, values: ValueTable, ps: seq<PropertyFetch>,
                            d: string, w: string, count: nat)
    requires d in values && w in values[d] && ValueTotalsReflect(metrics, dims, values, ps)
    ensures AveragesOf(metrics, values[d][w].sums, count) == AveragesOf(metrics, IndividualSums(metrics, dims, ps, d, w), count)
  {
    forall m | m in SetOf(metrics)
      ensures (if m in values[d][w].sums then values[d][w].sums[m] else 0.0) == IndividualSum(metrics, dims, ps, d, w, m)
    {
      assert ValueTotal(values, d, w, m) == IndividualSum(metrics, dims, ps, d, w, m);
    }
  }

  /**
   * The list for one selected dimension in
   * `average_metrics_per_individual_dimension_value`: one element per entry
   * of its inner table, with the entry's sums averaged over `count`, then
   * sorted by value.  The inner table is read in an unspecified order;
   * since its values are distinct, the sorted list does not depend on it.
   */
  method AverageValues(metrics: seq<string>, dims: seq<string>, values: ValueTable, ghost ps: seq<PropertyFetch>,
                       d: string, count: nat)
    returns (out: seq<ValueAverage>)
    requires d in values
    requires ValueTotalsReflect(metrics, dims, values, ps) && ValuesReflect(metrics, dims, values, ps)
    ensures ValueListOf(metrics, dims, ps, count, d, out)
  {
    var inner := values[d];
    var remaining := inner.Keys;
    var collected: seq<ValueAverage> := [];
    while remaining != {}
      invariant remaining <= inner.Keys
      invariant ValuesListed(collected) == inner.Keys - remaining
      invariant Text.DistinctKeys(collected, ValueOf)
      invariant forall e :: e in collected ==>
                  e.value in inner && e.averages == AveragesOf(metrics, IndividualSums(metrics, dims, ps, d, e.value), count)
      decreases remaining
    {
      var w :| w in remaining;
      ValueBucketAverages(metrics, dims, values, ps, d, w, count);
      ghost var before := collected;
      collected := collected + [ValueAverage(w, AveragesOf(metrics, inner[w].sums, count))];
      assert forall e :: e in collected <==> e in before || e == collected[|before|];
      ValuesListedAppend(before, collected[|before|]);
      remaining := remaining - {w};
    }
    out := Text.SortBy(collected, ValueOf);
    Text.SortStrict(collected, ValueOf);
    assert forall e :: e in out <==> e in collected by {
      forall e ensures e in out <==> e in collected {
        assert e in out <==> e in multiset(out);
        assert e in collected <==> e in multiset(collected);
      }
    }
    ValuesListedSameElements(out, collected);
    assert ValuesAt(values, d) == inner.Keys;
  }

  /** The totals across the selection, by metric. */
  function OverallTotals(metrics: seq<string>, ps: seq<PropertyFetch>): map<string, real> {
    map m | m in SetOf(metrics) :: OverallSum(metrics, ps, m)
  }

  /** `r` is the dictionary the function returns for the ids `ids` and their fetches `ps`. */
  ghost predicate Describes(ids: seq<string>, metrics: seq<string>, dims: seq<string>, start: string, end: string,
                            ps: seq<PropertyFetch>, r: Report)
  {
    var count := SuccessCount(ps);
    && r.requestedCount == |ids|
    && r.successfulCount == count
    && r.startDate == start && r.endDate == end
    && r.metrics == metrics && r.dimensions == dims
    && r.totals == OverallTotals(metrics, ps)
    && r.overallAverages == AveragesOf(metrics, r.totals, count)
    && r.comboAverages == ComboAveragesOf(metrics, dims, ps, count)
    && ValueAveragesOf(metrics, dims, ps, count, r.valueAverages)
    && r.summaries == Summaries(metrics, ps)
    && r.errors == ErrorsOf(ps)
  }

  /**
   * `generate_benchmark_data_from_google`: refuse an empty metric
   * selection, fetch and accumulate every selected property, refuse a
   * non-empty selection of which no property returned a row, and otherwise
   * report the totals and every average over the successful properties.
   */
  method Generate(provider: Provider, ids: seq<string>, metrics: seq<string>, dims: seq<string>, start: string, end: string)
    returns (r: Result<Report, Failure>)
    requires AnswersShaped(metrics, Fetches(provider, ids, metrics, dims, start, end))
    ensures metrics == [] ==> r == Err(NoMetricsSelected)
    ensures metrics != [] && ids != [] && SuccessCount(Fetches(provider, ids, metrics, dims, start, end)) == 0 ==>
              r == Err(NoDataRetrieved(ErrorsOf(Fetches(provider, ids, metrics, dims, start, end))))
    ensures r.Ok? <==> metrics != [] && (ids == [] || SuccessCount(Fetches(provider, ids, metrics, dims, start, end)) > 0)
    ensures r.Ok? ==> Describes(ids, metrics, dims, start, end, Fetches(provider, ids, metrics, dims, start, end), r.value)
  {
    if metrics == [] {
      return Err(NoMetricsSelected);
    }
    ghost var ps := Fetches(provider, ids, metrics, dims, start, end);
    var t, summaries, errors, count := ProcessProperties(provider, ids, metrics, dims, start, end);
    if count == 0 && ids != [] {
      return Err(NoDataRetrieved(errors));
    }
    var comboAverages := AverageCombos(metrics, dims, t.combos, t.order, ps, count);
    var valueAverages: map<string, seq<ValueAverage>> := map[];
    var i := 0;
    while i < |dims|
      invariant 0 <= i <= |dims|
      invariant valueAverages.Keys == SetOf(dims[..i])
      invariant forall d :: d in valueAverages ==> ValueListOf(metrics, dims, ps, count, d, valueAverages[d])
    {
      var d := dims[i];
      assert d in SetOf(dims);
      var averages := AverageValues(metrics, dims, t.values, ps, d, count);
      valueAverages := valueAverages[d := averages];
      assert dims[..i + 1] == dims[..i] + [d];
      i := i + 1;
    }
    assert dims[..i] == dims;
    var overallAverages := AveragesOf(metrics, t.overall, count);
    assert t.overall == OverallTotals(metrics, ps);
    r := Ok(Report(|ids|, count, start, end, metrics, dims, t.overall, overallAverages,
                   comboAverages, valueAverages, summaries, errors));
  }
}
