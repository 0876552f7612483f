/**
 * What the analytics provider hands the aggregator for one property, and the
 * per-row and per-property quantities the aggregator derives from it: the
 * group key of a row, the parsed metric values, and their sums over a
 * property's rows.  The provider call itself is not modelled: its outcome
 * is an input.
 *
 * Every definition over a sequence peels off the LAST element, so that it
 * reads like the loop that walks the sequence front to back.
 */
module Rows {
  import opened Common

  /** Stand-in for a selected dimension the row does not carry. */
  const NotSet := "(not set)"

  /**
   * One response row: its dimension values by header name, and one cell per
   * requested metric, in request order.  `None` is a cell whose text
   * `float()` rejected.
   */
  datatype Row = Row(dims: map<string, string>, cells: seq<Option<real>>)

  /** The provider's answer for one property: an exception's text, or rows (possibly none). */
  datatype Response = Failed(message: string) | Fetched(rows: seq<Row>)

  /** One selected property id together with what the provider answers for it. */
  datatype PropertyFetch = PropertyFetch(id: string, response: Response)

  /** The dimensions sent to the provider: the selection, or `date` when nothing is selected. */
  function QueryDimensions(dims: seq<string>): (q: seq<string>)
    ensures q != []
    ensures dims != [] ==> q == dims
    ensures dims == [] ==> q == ["date"]
  {
    if dims == [] then ["date"] else dims
  }

  /** `row.get(d, "(not set)")`. */
  function Lookup(rowDims: map<string, string>, d: string): string {
    if d in rowDims then rowDims[d] else NotSet
  }

  /** The group key of a row: its value for each selected dimension, in selection order. */
  function ComboKey(dims: seq<string>, rowDims: map<string, string>): (key: seq<string>)
    ensures |key| == |dims|
  {
    seq(|dims|, i requires 0 <= i < |dims| => Lookup(rowDims, dims[i]))
  }

  /** What cell `j` adds to metric `m`: its value when it names `m` and parsed, else nothing. */
  function CellValue(metrics: seq<string>, cells: seq<Option<real>>, j: nat, m: string): real
    requires j < |cells|
  {
    if j < |metrics| && metrics[j] == m && cells[j].Some? then cells[j].value else 0.0
  }

  /** Sum of the parsed values of metric `m` among the cells. */
  function CellSum(metrics: seq<string>, cells: seq<Option<real>>, m: string): real
    decreases |cells|
  {
    if cells == [] then 0.0
    else CellSum(metrics, cells[..|cells| - 1], m) + CellValue(metrics, cells, |cells| - 1, m)
  }

  /** Some cell of the row parsed, so the row reached the group-sum updates. */
  predicate AnyParsed(metrics: seq<string>, cells: seq<Option<real>>)
    decreases |cells|
  {
    cells != [] &&
    (AnyParsed(metrics, cells[..|cells| - 1]) || (|cells| - 1 < |metrics| && cells[|cells| - 1].Some?))
  }

  /** The row's metrics dict: each cell's value by metric name, 0.0 where parsing failed. */
  function RowMetrics(metrics: seq<string>, cells: seq<Option<real>>): map<string, real>
    decreases |cells|
  {
    if cells == [] then map[]
    else
      var j := |cells| - 1;
      var r := RowMetrics(metrics, cells[..j]);
      if j < |metrics| then r[metrics[j] := cells[j].GetOr(0.0)] else r
  }

  /** The row's metrics dict has an entry for exactly the metric names of its cells. */
  lemma {:induction false} RowMetricsKeys(metrics: seq<string>, cells: seq<Option<real>>)
    ensures RowMetrics(metrics, cells).Keys == set j | 0 <= j < |cells| && j < |metrics| :: metrics[j]
    decreases |cells|
  {
    if cells != [] {
      var k := |cells| - 1;
      RowMetricsKeys(metrics, cells[..k]);
      var inner := set j | 0 <= j < k && j < |metrics| :: metrics[j];
      assert (set j | 0 <= j < |cells| && j < |metrics| :: metrics[j])
             == if k < |metrics| then inner + {metrics[k]} else inner;
    }
  }

  /** Sum of metric `m` over all rows of one property. */
  function RowsSum(metrics: seq<string>, rows: seq<Row>, m: string): real
    decreases |rows|
  {
    if rows == [] then 0.0
    else RowsSum(metrics, rows[..|rows| - 1], m) + CellSum(metrics, rows[|rows| - 1].cells, m)
  }

  /** What one row adds to the group sum of `key` for metric `m`. */
  function RowKeyedSum(metrics: seq<string>, dims: seq<string>, row: Row, key: seq<string>, m: string): real {
    if ComboKey(dims, row.dims) == key then CellSum(metrics, row.cells, m) else 0.0
  }

  /** Sum of metric `m` over the rows of one property whose group key is `key`. */
  function KeyedSum(metrics: seq<string>, dims: seq<string>, rows: seq<Row>, key: seq<string>, m: string): real
    decreases |rows|
  {
    if rows == [] then 0.0
    else KeyedSum(metrics, dims, rows[..|rows| - 1], key, m) + RowKeyedSum(metrics, dims, rows[|rows| - 1], key, m)
  }

  /** The group key a row creates: none when none of its cells parsed. */
  function RowKeys(metrics: seq<string>, dims: seq<string>, row: Row): set<seq<string>> {
    if AnyParsed(metrics, row.cells) then {ComboKey(dims, row.dims)} else {}
  }

  /** The group keys created by the rows of one property. */
  function KeysOf(metrics: seq<string>, dims: seq<string>, rows: seq<Row>): set<seq<string>>
    decreases |rows|
  {
    if rows == [] then {}
    else KeysOf(metrics, dims, rows[..|rows| - 1]) + RowKeys(metrics, dims, rows[|rows| - 1])
  }

  /** Dict insertion order: a key is appended the first time it is written. */
  function NoteKey(order: seq<seq<string>>, key: seq<string>, written: bool): seq<seq<string>> {
    if written && key !in order then order + [key] else order
  }

  /** The insertion order of group keys after the rows of one property. */
  function AppendKeys(metrics: seq<string>, dims: seq<string>, order: seq<seq<string>>, rows: seq<Row>): seq<seq<string>>
    decreases |rows|
  {
    if rows == [] then order
    else
      var last := rows[|rows| - 1];
      NoteKey(AppendKeys(metrics, dims, order, rows[..|rows| - 1]), ComboKey(dims, last.dims), AnyParsed(metrics, last.cells))
  }

  /** `x` taken once for every occurrence of `d` in the selection `dims`. */
  function PerOccurrence(dims: seq<string>, d: string, x: real): real
    decreases |dims|
  {
    if dims == [] then 0.0
    else PerOccurrence(dims[..|dims| - 1], d, x) + (if dims[|dims| - 1] == d then x else 0.0)
  }

  /** `x` added to itself `n` times. */
  function Times(n: nat, x: real): real {
    if n == 0 then 0.0 else Times(n - 1, x) + x
  }

  lemma {:induction false} TimesIsProduct(n: nat, x: real)
    ensures Times(n, x) == n as real * x
  {
    if n > 0 {
      TimesIsProduct(n - 1, x);
      MulSucc(n - 1, x);
    }
  }

  lemma MulSucc(a: nat, x: real)
    ensures (a + 1) as real * x == a as real * x + x
  {
  }

  lemma {:induction false} PerOccurrenceIsTimes(dims: seq<string>, d: string, x: real)
    ensures PerOccurrence(dims, d, x) == Times(Count(dims, d), x)
    decreases |dims|
  {
    if dims != [] {
      var k := |dims| - 1;
      PerOccurrenceIsTimes(dims[..k], d, x);
      assert dims == dims[..k] + [dims[k]];
    }
  }

  /** Taking `x` once per occurrence is multiplying it by the number of occurrences. */
  lemma PerOccurrenceIsCount(dims: seq<string>, d: string, x: real)
    ensures PerOccurrence(dims, d, x) == Count(dims, d) as real * x
  {
    PerOccurrenceIsTimes(dims, d, x);
    TimesIsProduct(Count(dims, d), x);
  }

  lemma {:induction false} PerOccurrenceAdd(dims: seq<string>, d: string, x: real, y: real)
    ensures PerOccurrence(dims, d, x + y) == PerOccurrence(dims, d, x) + PerOccurrence(dims, d, y)
    decreases |dims|
  {
    if dims != [] {
      PerOccurrenceAdd(dims[..|dims| - 1], d, x, y);
    }
  }

  lemma {:induction false} PerOccurrenceZero(dims: seq<string>, d: string)
    ensures PerOccurrence(dims, d, 0.0) == 0.0
    decreases |dims|
  {
    if dims != [] {
      PerOccurrenceZero(dims[..|dims| - 1], d);
    }
  }

  /**
   * What one row adds to the per-value sum of dimension `d` at value `v`:
   * its metric sum once for every time `d` occurs in the selection.
   */
  function RowValueSum(metrics: seq<string>, dims: seq<string>, row: Row, d: string, v: string, m: string): real {
    if d in row.dims && row.dims[d] == v then PerOccurrence(dims, d, CellSum(metrics, row.cells, m)) else 0.0
  }

  /** Sum over the rows of one property of what each adds at dimension `d`, value `v`. */
  function ValueSum(metrics: seq<string>, dims: seq<string>, rows: seq<Row>, d: string, v: string, m: string): real
    decreases |rows|
  {
    if rows == [] then 0.0
    else ValueSum(metrics, dims, rows[..|rows| - 1], d, v, m) + RowValueSum(metrics, dims, rows[|rows| - 1], d, v, m)
  }

  /** The value of dimension `d` a row creates an entry for, if any. */
  function RowValues(metrics: seq<string>, dims: seq<string>, row: Row, d: string): set<string> {
    if AnyParsed(metrics, row.cells) && d in dims && d in row.dims then {row.dims[d]} else {}
  }

  /** The values of dimension `d` that the rows of one property create entries for. */
  function ValuesOf(metrics: seq<string>, dims: seq<string>, rows: seq<Row>, d: string): set<string>
    decreases |rows|
  {
    if rows == [] then {}
    else ValuesOf(metrics, dims, rows[..|rows| - 1], d) + RowValues(metrics, dims, rows[|rows| - 1], d)
  }
}
