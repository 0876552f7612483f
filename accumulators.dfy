/**
 * The two `defaultdict` tables the aggregator fills while it walks the rows:
 * the sums per combination of all selected dimensions, and the sums per
 * value of each single selected dimension.  An entry springs into existence
 * on its first write with every selected metric at 0.0 and no contributors.
 *
 * The views below read a table the way a reader of the finished table sees
 * it: a missing entry reads as 0.0 / no contributors, without creating it.
 */
module Accumulators {
  import opened Common
  import opened Rows
  import opened Aggregates

  /** One table entry: a running sum per selected metric, and the ids that contributed. */
  datatype Bucket = Bucket(sums: map<string, real>, contributors: set<string>)

  /** The entry the `defaultdict` factory creates. */
  function FreshBucket(metrics: seq<string>): (b: Bucket)
    ensures b.sums.Keys == SetOf(metrics) && b.contributors == {}
    ensures forall m :: m in b.sums ==> b.sums[m] == 0.0
  {
    Bucket(ZeroTotals(metrics), {})
  }

  /** `dimension_combo_sums`: group key to entry. */
  type ComboTable = map<seq<string>, Bucket>

  /** `individual_dimension_value_sums`: dimension name to (value to entry). */
  type ValueTable = map<string, map<string, Bucket>>

  function ComboTotal(combos: ComboTable, k: seq<string>, m: string): real {
    if k in combos && m in combos[k].sums then combos[k].sums[m] else 0.0
  }

  function ComboIds(combos: ComboTable, k: seq<string>): set<string> {
    if k in combos then combos[k].contributors else {}
  }

  function ValueTotal(values: ValueTable, d: string, v: string, m: string): real {
    if d in values && v in values[d] && m in values[d][v].sums then values[d][v].sums[m] else 0.0
  }

  function ValueIds(values: ValueTable, d: string, v: string): set<string> {
    if d in values && v in values[d] then values[d][v].contributors else {}
  }

  /** The values of dimension `d` that have an entry. */
  function ValuesAt(values: ValueTable, d: string): set<string> {
    if d in values then values[d].Keys else {}
  }

  /** `order` lists the keys of the group table, each once, in the order they were first written. */
  predicate CombosShaped(combos: ComboTable, order: seq<seq<string>>) {
    combos.Keys == SetOf(order) && Distinct(order)
  }

  /** The value table has one inner table per selected dimension. */
  predicate ValuesShaped(dims: seq<string>, values: ValueTable) {
    values.Keys == SetOf(dims)
  }

  /**
   * One parsed value `v` of metric `m` in a row whose group key is `key`:
   * `dimension_combo_sums[key][m] += v` and the id joins the contributors.
   */
  method AddToCombos(metrics: seq<string>, combos: ComboTable, order: seq<seq<string>>,
                     id: string, key: seq<string>, m: string, v: real)
    returns (combos': ComboTable, order': seq<seq<string>>)
    requires m in metrics && CombosShaped(combos, order)
    ensures CombosShaped(combos', order')
    ensures forall k, n :: ComboTotal(combos', k, n) == ComboTotal(combos, k, n) + (if k == key && n == m then v else 0.0)
    ensures forall k :: ComboIds(combos', k) == ComboIds(combos, k) + (if k == key then {id} else {})
    ensures order' == NoteKey(order, key, true)
  {
    var entry := if key in combos then combos[key] else FreshBucket(metrics);
    combos' := combos[key := Bucket(entry.sums[m := ComboTotal(combos, key, m) + v], entry.contributors + {id})];
    order' := NoteKey(order, key, true);
  }

  /** `individual_dimension_value_sums[d][w][m] += v` and the id joins the entry's contributors. */
  function Credit(metrics: seq<string>, dims: seq<string>, values: ValueTable,
                  id: string, d: string, w: string, m: string, v: real): (r: ValueTable)
    requires m in metrics && d in values && ValuesShaped(dims, values)
    ensures ValuesShaped(dims, r)
    ensures forall d', w', n :: ValueTotal(r, d', w', n)
                                == ValueTotal(values, d', w', n) + (if d' == d && w' == w && n == m then v else 0.0)
    ensures forall d' :: ValuesAt(r, d') == ValuesAt(values, d') + (if d' == d then {w} else {})
    ensures forall d', w' :: ValueIds(r, d', w') == ValueIds(values, d', w') + (if d' == d && w' == w then {id} else {})
  {
    var inner := values[d];
    var entry := if w in inner then inner[w] else FreshBucket(metrics);
    values[d := inner[w := Bucket(entry.sums[m := ValueTotal(values, d, w, m) + v], entry.contributors + {id})]]
  }

  /*
   * The three predicates below say what `after` is once value `v` of metric
   * `m`, read in a row with dimensions `rowDims`, has been credited for
   * every dimension of `seen` the row carries.
   */

  /** The entry of the row's value gains `v` once per occurrence of the dimension in `seen`. */
  ghost predicate TotalsCredited(before: ValueTable, after: ValueTable, seen: seq<string>,
                                 rowDims: map<string, string>, m: string, v: real)
  {
    forall d, w, n :: ValueTotal(after, d, w, n)
                      == ValueTotal(before, d, w, n) + (if n == m && d in rowDims && rowDims[d] == w then PerOccurrence(seen, d, v) else 0.0)
  }

  /** The row's value of each dimension of `seen` it carries has an entry. */
  ghost predicate ValuesCredited(before: ValueTable, after: ValueTable, seen: seq<string>, rowDims: map<string, string>) {
    forall d :: ValuesAt(after, d) == ValuesAt(before, d) + (if d in seen && d in rowDims then {rowDims[d]} else {})
  }

  /** The id joins the contributors of the row's value of each dimension of `seen` it carries. */
  ghost predicate IdsCredited(before: ValueTable, after: ValueTable, seen: seq<string>, id: string, rowDims: map<string, string>) {
    forall d, w :: ValueIds(after, d, w) == ValueIds(before, d, w) + (if d in seen && d in rowDims && rowDims[d] == w then {id} else {})
  }

  ghost predicate Credited(before: ValueTable, after: ValueTable, seen: seq<string>,
                           id: string, rowDims: map<string, string>, m: string, v: real)
  {
    TotalsCredited(before, after, seen, rowDims, m, v) && ValuesCredited(before, after, seen, rowDims)
    && IdsCredited(before, after, seen, id, rowDims)
  }

  /** Credits `v` and `id` for dimension `d` if the row carries it. */
  function CreditIfPresent(metrics: seq<string>, dims: seq<string>, values: ValueTable,
                           id: string, rowDims: map<string, string>, d: string, m: string, v: real): (r: ValueTable)
    requires m in metrics && d in values && ValuesShaped(dims, values)
    ensures ValuesShaped(dims, r)
  {
    if d in rowDims then Credit(metrics, dims, values, id, d, rowDims[d], m, v) else values
  }

  lemma CreditedNothing(values: ValueTable, id: string, rowDims: map<string, string>, m: string, v: real)
    ensures Credited(values, values, [], id, rowDims, m, v)
  {
    forall d ensures PerOccurrence([], d, v) == 0.0 { }
  }

  lemma SeenStep(seen: seq<string>, d: string, e: string)
    ensures e in seen + [d] <==> e in seen || e == d
  {
    if e in seen + [d] && e != d {
      var p :| 0 <= p < |seen| + 1 && (seen + [d])[p] == e;
      assert seen[p] == e;
    }
  }

  lemma TotalsStep(metrics: seq<string>, dims: seq<string>, before: ValueTable, mid: ValueTable, seen: seq<string>, d: string,
                   id: string, rowDims: map<string, string>, m: string, v: real)
    requires m in metrics && d in mid && ValuesShaped(dims, mid)
    requires TotalsCredited(before, mid, seen, rowDims, m, v)
    ensures TotalsCredited(before, CreditIfPresent(metrics, dims, mid, id, rowDims, d, m, v), seen + [d], rowDims, m, v)
  {
    assert (seen + [d])[..|seen|] == seen;
  }

  lemma ValuesStep(metrics: seq<string>, dims: seq<string>, before: ValueTable, mid: ValueTable, seen: seq<string>, d: string,
                   id: string, rowDims: map<string, string>, m: string, v: real)
    requires m in metrics && d in mid && ValuesShaped(dims, mid)
    requires ValuesCredited(before, mid, seen, rowDims)
    ensures ValuesCredited(before, CreditIfPresent(metrics, dims, mid, id, rowDims, d, m, v), seen + [d], rowDims)
  {
    forall e { SeenStep(seen, d, e); }
  }

  lemma IdsStep(metrics: seq<string>, dims: seq<string>, before: ValueTable, mid: ValueTable, seen: seq<string>, d: string,
                id: string, rowDims: map<string, string>, m: string, v: real)
    requires m in metrics && d in mid && ValuesShaped(dims, mid)
    requires IdsCredited(before, mid, seen, id, rowDims)
    ensures IdsCredited(before, CreditIfPresent(metrics, dims, mid, id, rowDims, d, m, v), seen + [d], id, rowDims)
  {
    forall e { SeenStep(seen, d, e); }
  }

  /**
   * One parsed value `v` of metric `m` in a row with dimensions `rowDims`:
   * for every selected dimension the row carries, the entry of the row's
   * value gains `v` and the id.  A dimension selected twice gains `v` twice.
   */
  method AddToValues(metrics: seq<string>, dims: seq<string>, values: ValueTable,
                     id: string, rowDims: map<string, string>, m: string, v: real)
    returns (values': ValueTable)
    requires m in metrics && ValuesShaped(dims, values)
    ensures ValuesShaped(dims, values')
    ensures Credited(values, values', dims, id, rowDims, m, v)
  {
    values' := values;
    var i := 0;
    assert dims[..0] == [];
    CreditedNothing(values, id, rowDims, m, v);
    while i < |dims|
      invariant 0 <= i <= |dims|
      invariant ValuesShaped(dims, values')
      invariant Credited(values, values', dims[..i], id, rowDims, m, v)
    {
      var d := dims[i];
      assert dims[..i + 1] == dims[..i] + [d];
      assert d in SetOf(dims);
      TotalsStep(metrics, dims, values, values', dims[..i], d, id, rowDims, m, v);
      ValuesStep(metrics, dims, values, values', dims[..i], d, id, rowDims, m, v);
      IdsStep(metrics, dims, values, values', dims[..i], d, id, rowDims, m, v);
      if d in rowDims {
        values' := Credit(metrics, dims, values', id, d, rowDims[d], m, v);
      }
      i := i + 1;
    }
    assert dims[..i] == dims;
  }

  /*
   * What the tables hold after the rows `rows` of property `id` have been
   * processed, relative to what they held before: each predicate adds the
   * reference quantity of the rows to the view of the table.  The loops
   * over cells and over rows keep these with `rows` a growing prefix.
   */

  /** A running total per metric gains the rows' sum (`overall_aggregated_metrics`, `property_total_metrics`). */
  ghost predicate TotalsAbsorbed(metrics: seq<string>, before: map<string, real>, after: map<string, real>, rows: seq<Row>) {
    after.Keys == before.Keys && forall m :: m in before ==> after[m] == before[m] + RowsSum(metrics, rows, m)
  }

  ghost predicate CombosAbsorbed(metrics: seq<string>, dims: seq<string>, before: ComboTable, after: ComboTable, rows: seq<Row>) {
    forall k, m :: ComboTotal(after, k, m) == ComboTotal(before, k, m) + KeyedSum(metrics, dims, rows, k, m)
  }

  ghost predicate ComboIdsAbsorbed(metrics: seq<string>, dims: seq<string>, before: ComboTable, after: ComboTable, id: string, rows: seq<Row>) {
    forall k :: ComboIds(after, k) == ComboIds(before, k) + (if k in KeysOf(metrics, dims, rows) then {id} else {})
  }

  ghost predicate ValueTotalsAbsorbed(metrics: seq<string>, dims: seq<string>, before: ValueTable, after: ValueTable, rows: seq<Row>) {
    forall d, w, m :: ValueTotal(after, d, w, m) == ValueTotal(before, d, w, m) + ValueSum(metrics, dims, rows, d, w, m)
  }

  ghost predicate ValuesAbsorbed(metrics: seq<string>, dims: seq<string>, before: ValueTable, after: ValueTable, rows: seq<Row>) {
    forall d :: ValuesAt(after, d) == ValuesAt(before, d) + ValuesOf(metrics, dims, rows, d)
  }

  ghost predicate ValueIdsAbsorbed(metrics: seq<string>, dims: seq<string>, before: ValueTable, after: ValueTable, id: string, rows: seq<Row>) {
    forall d, w :: ValueIds(after, d, w) == ValueIds(before, d, w) + (if w in ValuesOf(metrics, dims, rows, d) then {id} else {})
  }

  /** Nothing processed yet: every table is as it was. */
  lemma AbsorbedNothing(metrics: seq<string>, dims: seq<string>, totals: map<string, real>, combos: ComboTable, values: ValueTable, id: string)
    ensures TotalsAbsorbed(metrics, totals, totals, [])
    ensures CombosAbsorbed(metrics, dims, combos, combos, [])
    ensures ComboIdsAbsorbed(metrics, dims, combos, combos, id, [])
    ensures combos == combos && AppendKeys(metrics, dims, [], []) == []
    ensures ValueTotalsAbsorbed(metrics, dims, values, values, [])
    ensures ValuesAbsorbed(metrics, dims, values, values, [])
    ensures ValueIdsAbsorbed(metrics, dims, values, values, id, [])
  {
  }

  /** A row with no cells adds nothing. */
  lemma AbsorbedBlankRow(metrics: seq<string>, dims: seq<string>, totals: map<string, real>, combos: ComboTable,
                         order: seq<seq<string>>, values: ValueTable, id: string, rowDims: map<string, string>)
    ensures TotalsAbsorbed(metrics, totals, totals, [Row(rowDims, [])])
    ensures CombosAbsorbed(metrics, dims, combos, combos, [Row(rowDims, [])])
    ensures ComboIdsAbsorbed(metrics, dims, combos, combos, id, [Row(rowDims, [])])
    ensures order == AppendKeys(metrics, dims, order, [Row(rowDims, [])])
    ensures ValueTotalsAbsorbed(metrics, dims, values, values, [Row(rowDims, [])])
    ensures ValuesAbsorbed(metrics, dims, values, values, [Row(rowDims, [])])
    ensures ValueIdsAbsorbed(metrics, dims, values, values, id, [Row(rowDims, [])])
  {
    assert [Row(rowDims, [])][..0] == [];
    forall d ensures PerOccurrence(dims, d, 0.0) == 0.0 {
      PerOccurrenceZero(dims, d);
    }
  }

  /** The cells `cells[..j + 1]` of a row are those of `cells[..j]` and one more. */
  lemma CellsStep(metrics: seq<string>, cells: seq<Option<real>>, j: nat, m: string)
    requires j < |cells| && j < |metrics|
    ensures CellSum(metrics, cells[..j + 1], m) == CellSum(metrics, cells[..j], m) + CellValue(metrics, cells, j, m)
    ensures AnyParsed(metrics, cells[..j + 1]) == (AnyParsed(metrics, cells[..j]) || cells[j].Some?)
  {
    assert cells[..j + 1][..j] == cells[..j];
  }

  /* One more cell of the row: these hold whether the cell parsed (the tables were updated) or not (they were not). */

  lemma TotalsCellStep(metrics: seq<string>, before: map<string, real>, mid: map<string, real>, after: map<string, real>,
                       rowDims: map<string, string>, cells: seq<Option<real>>, j: nat)
    requires j < |cells| && j < |metrics| && metrics[j] in mid
    requires TotalsAbsorbed(metrics, before, mid, [Row(rowDims, cells[..j])])
    requires cells[j].Some? ==> after == mid[metrics[j] := mid[metrics[j]] + cells[j].value]
    requires cells[j].None? ==> after == mid
    ensures TotalsAbsorbed(metrics, before, after, [Row(rowDims, cells[..j + 1])])
  {
    forall m | m in before ensures after[m] == before[m] + RowsSum(metrics, [Row(rowDims, cells[..j + 1])], m) {
      CellsStep(metrics, cells, j, m);
    }
  }

  lemma CombosCellStep(metrics: seq<string>, dims: seq<string>, before: ComboTable, mid: ComboTable, after: ComboTable,
                       rowDims: map<string, string>, cells: seq<Option<real>>, j: nat)
    requires j < |cells| && j < |metrics|
    requires CombosAbsorbed(metrics, dims, before, mid, [Row(rowDims, cells[..j])])
    requires cells[j].Some? ==> forall k, n :: ComboTotal(after, k, n)
                                               == ComboTotal(mid, k, n) + (if k == ComboKey(dims, rowDims) && n == metrics[j] then cells[j].value else 0.0)
    requires cells[j].None? ==> after == mid
    ensures CombosAbsorbed(metrics, dims, before, after, [Row(rowDims, cells[..j + 1])])
  {
    forall k, n ensures ComboTotal(after, k, n) == ComboTotal(before, k, n) + KeyedSum(metrics, dims, [Row(rowDims, cells[..j + 1])], k, n) {
      CellsStep(metrics, cells, j, n);
    }
  }

  lemma ComboIdsCellStep(metrics: seq<string>, dims: seq<string>, before: ComboTable, mid: ComboTable, after: ComboTable,
                         id: string, rowDims: map<string, string>, cells: seq<Option<real>>, j: nat)
    requires j < |cells| && j < |metrics|
    requires ComboIdsAbsorbed(metrics, dims, before, mid, id, [Row(rowDims, cells[..j])])
    requires cells[j].Some? ==> forall k :: ComboIds(after, k) == ComboIds(mid, k) + (if k == ComboKey(dims, rowDims) then {id} else {})
    requires cells[j].None? ==> after == mid
    ensures ComboIdsAbsorbed(metrics, dims, before, after, id, [Row(rowDims, cells[..j + 1])])
  {
    CellsStep(metrics, cells, j, "");
  }

  lemma OrderCellStep(metrics: seq<string>, dims: seq<string>, before: seq<seq<string>>, mid: seq<seq<string>>, after: seq<seq<string>>,
                      rowDims: map<string, string>, cells: seq<Option<real>>, j: nat)
    requires j < |cells| && j < |metrics|
    requires mid == AppendKeys(metrics, dims, before, [Row(rowDims, cells[..j])])
    requires after == NoteKey(mid, ComboKey(dims, rowDims), cells[j].Some?)
    ensures after == AppendKeys(metrics, dims, before, [Row(rowDims, cells[..j + 1])])
  {
    CellsStep(metrics, cells, j, "");
  }

  lemma ValueTotalsCellStep(metrics: seq<string>, dims: seq<string>, before: ValueTable, mid: ValueTable, after: ValueTable,
                            rowDims: map<string, string>, cells: seq<Option<real>>, j: nat)
    requires j < |cells| && j < |metrics|
    requires ValueTotalsAbsorbed(metrics, dims, before, mid, [Row(rowDims, cells[..j])])
    requires cells[j].Some? ==> TotalsCredited(mid, after, dims, rowDims, metrics[j], cells[j].value)
    requires cells[j].None? ==> after == mid
    ensures ValueTotalsAbsorbed(metrics, dims, before, after, [Row(rowDims, cells[..j + 1])])
  {
    forall d, w, n
      ensures ValueTotal(after, d, w, n) == ValueTotal(before, d, w, n) + ValueSum(metrics, dims, [Row(rowDims, cells[..j + 1])], d, w, n)
    {
      CellsStep(metrics, cells, j, n);
      PerOccurrenceAdd(dims, d, CellSum(metrics, cells[..j], n), CellValue(metrics, cells, j, n));
      PerOccurrenceZero(dims, d);
    }
  }

  lemma ValuesCellStep(metrics: seq<string>, dims: seq<string>, before: ValueTable, mid: ValueTable, after: ValueTable,
                       rowDims: map<string, string>, cells: seq<Option<real>>, j: nat)
    requires j < |cells| && j < |metrics|
    requires ValuesAbsorbed(metrics, dims, before, mid, [Row(rowDims, cells[..j])])
    requires cells[j].Some? ==> ValuesCredited(mid, after, dims, rowDims)
    requires cells[j].None? ==> after == mid
    ensures ValuesAbsorbed(metrics, dims, before, after, [Row(rowDims, cells[..j + 1])])
  {
    CellsStep(metrics, cells, j, "");
  }

  lemma ValueIdsCellStep(metrics: seq<string>, dims: seq<string>, before: ValueTable, mid: ValueTable, after: ValueTable,
                         id: string, rowDims: map<string, string>, cells: seq<Option<real>>, j: nat)
    requires j < |cells| && j < |metrics|
    requires ValueIdsAbsorbed(metrics, dims, before, mid, id, [Row(rowDims, cells[..j])])
    requires cells[j].Some? ==> IdsCredited(mid, after, dims, id, rowDims)
    requires cells[j].None? ==> after == mid
    ensures ValueIdsAbsorbed(metrics, dims, before, after, id, [Row(rowDims, cells[..j + 1])])
  {
    CellsStep(metrics, cells, j, "");
  }

  /* One more row: what the row adds on top of what the earlier rows added. */

  lemma TotalsRowStep(metrics: seq<string>, before: map<string, real>, mid: map<string, real>, after: map<string, real>, rows: seq<Row>, row: Row)
    requires TotalsAbsorbed(metrics, before, mid, rows) && TotalsAbsorbed(metrics, mid, after, [row])
    ensures TotalsAbsorbed(metrics, before, after, rows + [row])
  {
    forall m | m in before ensures after[m] == before[m] + RowsSum(metrics, rows + [row], m) {
      RowsSplit(metrics, rows, row, m);
    }
  }

  lemma RowsSplit(metrics: seq<string>, rows: seq<Row>, row: Row, m: string)
    ensures RowsSum(metrics, rows + [row], m) == RowsSum(metrics, rows, m) + RowsSum(metrics, [row], m)
  {
    assert (rows + [row])[..|rows|] == rows && [row][..0] == [];
  }

  lemma ValuesSplit(metrics: seq<string>, dims: seq<string>, rows: seq<Row>, row: Row, d: string)
    ensures ValuesOf(metrics, dims, rows + [row], d) == ValuesOf(metrics, dims, rows, d) + ValuesOf(metrics, dims, [row], d)
  {
    assert (rows + [row])[..|rows|] == rows && [row][..0] == [];
  }

  lemma KeysSplit(metrics: seq<string>, dims: seq<string>, rows: seq<Row>, row: Row)
    ensures KeysOf(metrics, dims, rows + [row]) == KeysOf(metrics, dims, rows) + KeysOf(metrics, dims, [row])
  {
    assert (rows + [row])[..|rows|] == rows && [row][..0] == [];
  }

  lemma CombosRowStep(metrics: seq<string>, dims: seq<string>, before: ComboTable, mid: ComboTable, after: ComboTable, rows: seq<Row>, row: Row)
    requires CombosAbsorbed(metrics, dims, before, mid, rows) && CombosAbsorbed(metrics, dims, mid, after, [row])
    ensures CombosAbsorbed(metrics, dims, before, after, rows + [row])
  {
    forall k, m ensures ComboTotal(after, k, m) == ComboTotal(before, k, m) + KeyedSum(metrics, dims, rows + [row], k, m) {
      assert (rows + [row])[..|rows|] == rows && [row][..0] == [];
      assert KeyedSum(metrics, dims, rows + [row], k, m) == KeyedSum(metrics, dims, rows, k, m) + KeyedSum(metrics, dims, [row], k, m);
    }
  }

  lemma ComboIdsRowStep(metrics: seq<string>, dims: seq<string>, before: ComboTable, mid: ComboTable, after: ComboTable,
                        id: string, rows: seq<Row>, row: Row)
    requires ComboIdsAbsorbed(metrics, dims, before, mid, id, rows) && ComboIdsAbsorbed(metrics, dims, mid, after, id, [row])
    ensures ComboIdsAbsorbed(metrics, dims, before, after, id, rows + [row])
  {
    KeysSplit(metrics, dims, rows, row);
  }

  lemma OrderRowStep(metrics: seq<string>, dims: seq<string>, before: seq<seq<string>>, mid: seq<seq<string>>, after: seq<seq<string>>,
                     rows: seq<Row>, row: Row)
    requires mid == AppendKeys(metrics, dims, before, rows) && after == AppendKeys(metrics, dims, mid, [row])
    ensures after == AppendKeys(metrics, dims, before, rows + [row])
  {
    assert (rows + [row])[..|rows|] == rows && [row][..0] == [];
  }

  lemma ValueTotalsRowStep(metrics: seq<string>, dims: seq<string>, before: ValueTable, mid: ValueTable, after: ValueTable, rows: seq<Row>, row: Row)
    requires ValueTotalsAbsorbed(metrics, dims, before, mid, rows) && ValueTotalsAbsorbed(metrics, dims, mid, after, [row])
    ensures ValueTotalsAbsorbed(metrics, dims, before, after, rows + [row])
  {
    forall d, w, m ensures ValueTotal(after, d, w, m) == ValueTotal(before, d, w, m) + ValueSum(metrics, dims, rows + [row], d, w, m) {
      assert (rows + [row])[..|rows|] == rows && [row][..0] == [];
      assert ValueSum(metrics, dims, rows + [row], d, w, m) == ValueSum(metrics, dims, rows, d, w, m) + ValueSum(metrics, dims, [row], d, w, m);
    }
  }

  lemma ValuesRowStep(metrics: seq<string>, dims: seq<string>, before: ValueTable, mid: ValueTable, after: ValueTable, rows: seq<Row>, row: Row)
    requires ValuesAbsorbed(metrics, dims, before, mid, rows) && ValuesAbsorbed(metrics, dims, mid, after, [row])
    ensures ValuesAbsorbed(metrics, dims, before, after, rows + [row])
  {
    forall d ensures ValuesAt(after, d) == ValuesAt(before, d) + ValuesOf(metrics, dims, rows + [row], d) {
      ValuesSplit(metrics, dims, rows, row, d);
    }
  }

  lemma ValueIdsRowStep(metrics: seq<string>, dims: seq<string>, before: ValueTable, mid: ValueTable, after: ValueTable,
                        id: string, rows: seq<Row>, row: Row)
    requires ValueIdsAbsorbed(metrics, dims, before, mid, id, rows) && ValueIdsAbsorbed(metrics, dims, mid, after, id, [row])
    ensures ValueIdsAbsorbed(metrics, dims, before, after, id, rows + [row])
  {
    forall d, w ensures ValueIds(after, d, w) == ValueIds(before, d, w) + (if w in ValuesOf(metrics, dims, rows + [row], d) then {id} else {}) {
      ValuesSplit(metrics, dims, rows, row, d);
    }
  }

  /*
   * What the tables hold after the properties `ps`: the reference
   * quantities over all of `ps`.  The loop over properties keeps these.
   */

  ghost predicate OverallReflects(metrics: seq<string>, overall: map<string, real>, ps: seq<PropertyFetch>) {
    overall.Keys == SetOf(metrics) && forall m :: m in overall ==> overall[m] == OverallSum(metrics, ps, m)
  }

  ghost predicate CombosReflect(metrics: seq<string>, dims: seq<string>, combos: ComboTable, ps: seq<PropertyFetch>) {
    forall k, m :: ComboTotal(combos, k, m) == ComboSum(metrics, dims, ps, k, m)
  }

  ghost predicate ComboIdsReflect(metrics: seq<string>, dims: seq<string>, combos: ComboTable, ps: seq<PropertyFetch>) {
    forall k :: ComboIds(combos, k) == ComboContributors(metrics, dims, ps, k)
  }

  ghost predicate ValueTotalsReflect(metrics: seq<string>, dims: seq<string>, values: ValueTable, ps: seq<PropertyFetch>) {
    forall d, w, m :: ValueTotal(values, d, w, m) == IndividualSum(metrics, dims, ps, d, w, m)
  }

  ghost predicate ValuesReflect(metrics: seq<string>, dims: seq<string>, values: ValueTable, ps: seq<PropertyFetch>) {
    forall d :: ValuesAt(values, d) == IndividualValues(metrics, dims, ps, d)
  }

  ghost predicate ValueIdsReflect(metrics: seq<string>, dims: seq<string>, values: ValueTable, ps: seq<PropertyFetch>) {
    forall d, w :: ValueIds(values, d, w) == IndividualContributors(metrics, dims, ps, d, w)
  }

  /** The value table as initialised: one empty inner table per selected dimension. */
  function EmptyValues(dims: seq<string>): (values: ValueTable)
    ensures ValuesShaped(dims, values)
    ensures forall d :: ValuesAt(values, d) == {}
  {
    map d | d in SetOf(dims) :: map[]
  }

  /** The tables as initialised reflect no property at all. */
  lemma ReflectNothing(metrics: seq<string>, dims: seq<string>)
    ensures OverallReflects(metrics, ZeroTotals(metrics), [])
    ensures CombosReflect(metrics, dims, map[], []) && ComboIdsReflect(metrics, dims, map[], [])
    ensures ValueTotalsReflect(metrics, dims, EmptyValues(dims), [])
    ensures ValuesReflect(metrics, dims, EmptyValues(dims), [])
    ensures ValueIdsReflect(metrics, dims, EmptyValues(dims), [])
  {
  }

  /* One more property: it adds its rows when it contributes, and nothing otherwise. */

  lemma OverallReflectStep(metrics: seq<string>, ps: seq<PropertyFetch>, p: PropertyFetch, before: map<string, real>, after: map<string, real>)
    requires OverallReflects(metrics, before, ps)
    requires Contributing(p) ==> TotalsAbsorbed(metrics, before, after, p.response.rows)
    requires !Contributing(p) ==> after == before
    ensures OverallReflects(metrics, after, ps + [p])
  {
    assert (ps + [p])[..|ps|] == ps;
  }

  lemma CombosReflectStep(metrics: seq<string>, dims: seq<string>, ps: seq<PropertyFetch>, p: PropertyFetch, before: ComboTable, after: ComboTable)
    requires CombosReflect(metrics, dims, before, ps)
    requires Contributing(p) ==> CombosAbsorbed(metrics, dims, before, after, p.response.rows)
    requires !Contributing(p) ==> after == before
    ensures CombosReflect(metrics, dims, after, ps + [p])
  {
    assert (ps + [p])[..|ps|] == ps;
  }

  lemma ComboIdsReflectStep(metrics: seq<string>, dims: seq<string>, ps: seq<PropertyFetch>, p: PropertyFetch, before: ComboTable, after: ComboTable)
    requires ComboIdsReflect(metrics, dims, before, ps)
    requires Contributing(p) ==> ComboIdsAbsorbed(metrics, dims, before, after, p.id, p.response.rows)
    requires !Contributing(p) ==> after == before
    ensures ComboIdsReflect(metrics, dims, after, ps + [p])
  {
    assert (ps + [p])[..|ps|] == ps;
  }

  lemma OrderReflectStep(metrics: seq<string>, dims: seq<string>, ps: seq<PropertyFetch>, p: PropertyFetch, before: seq<seq<string>>, after: seq<seq<string>>)
    requires before == ComboOrder(metrics, dims, ps)
    requires Contributing(p) ==> after == AppendKeys(metrics, dims, before, p.response.rows)
    requires !Contributing(p) ==> after == before
    ensures after == ComboOrder(metrics, dims, ps + [p])
  {
    assert (ps + [p])[..|ps|] == ps;
  }

  lemma ValueTotalsReflectStep(metrics: seq<string>, dims: seq<string>, ps: seq<PropertyFetch>, p: PropertyFetch, before: ValueTable, after: ValueTable)
    requires ValueTotalsReflect(metrics, dims, before, ps)
    requires Contributing(p) ==> ValueTotalsAbsorbed(metrics, dims, before, after, p.response.rows)
    requires !Contributing(p) ==> after == before
    ensures ValueTotalsReflect(metrics, dims, after, ps + [p])
  {
    assert (ps + [p])[..|ps|] == ps;
  }

  lemma ValuesReflectStep(metrics: seq<string>, dims: seq<string>, ps: seq<PropertyFetch>, p: PropertyFetch, before: ValueTable, after: ValueTable)
    requires ValuesReflect(metrics, dims, before, ps)
    requires Contributing(p) ==> ValuesAbsorbed(metrics, dims, before, after, p.response.rows)
    requires !Contributing(p) ==> after == before
    ensures ValuesReflect(metrics, dims, after, ps + [p])
  {
    assert (ps + [p])[..|ps|] == ps;
  }

  lemma ValueIdsReflectStep(metrics: seq<string>, dims: seq<string>, ps: seq<PropertyFetch>, p: PropertyFetch, before: ValueTable, after: ValueTable)
    requires ValueIdsReflect(metrics, dims, before, ps)
    requires Contributing(p) ==> ValueIdsAbsorbed(metrics, dims, before, after, p.id, p.response.rows)
    requires !Contributing(p) ==> after == before
    ensures ValueIdsReflect(metrics, dims, after, ps + [p])
  {
    assert (ps + [p])[..|ps|] == ps;
  }
}
