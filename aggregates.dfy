/**
 * Reference definitions of what the benchmark aggregation computes over the
 * whole list of selected properties: which properties are skipped, which
 * fail, which count as successful, and every sum the aggregator keeps.
 * Each is stated directly over the inputs; the imperative aggregators are
 * proved to leave exactly these values in their state.
 */
module Aggregates {
  import opened Common
  import opened Rows
  import opened Rounding
  import Text

  const PropertyPrefix := "properties/"
  /** Recorded in the errors map for an id without the prefix. */
  const MalformedIdError := "Ongeldig formaat property ID."
  /** Recorded in the summary entry of an id without the prefix. */
  const MalformedIdSummary := "Ongeldig formaat"

  /**
   * The analytics provider, as seen by the aggregator: given the position
   * of the id in the selection, the property id, the query's dimensions and
   * metrics and the date range, it answers with rows or with the text of the
   * exception it raised.  The position lets every call answer on its own, so
   * an id selected twice may fail once and return rows once.
   */
  type Provider = (nat, string, seq<string>, seq<string>, string, string) -> Response

  /** Each selected id paired with what the provider answers for the query the aggregator sends. */
  function Fetches(provider: Provider, ids: seq<string>, metrics: seq<string>, dims: seq<string>, start: string, end: string)
    : (ps: seq<PropertyFetch>)
    ensures |ps| == |ids|
    ensures forall i :: 0 <= i < |ids| ==> ps[i].id == ids[i]
  {
    seq(|ids|, i requires 0 <= i < |ids| => PropertyFetch(ids[i], provider(i, ids[i], QueryDimensions(dims), metrics, start, end)))
  }

  /** One row of a property's summary: its dimensions dict and its metrics dict. */
  datatype DataRow = DataRow(dimensions: map<string, string>, metrics: map<string, real>)

  /** The entry `data_summary_per_property` holds for one selected id. */
  datatype PropertySummary =
    | Errored(id: string, error: string, totals: map<string, real>)
    | Processed(id: string, dataRows: seq<DataRow>, totals: map<string, real>, rowsProcessed: nat)

  /** `prop_id.startswith("properties/")`. */
  predicate WellFormedId(id: string): (r: bool)
    ensures r ==> |PropertyPrefix| <= |id| && id == PropertyPrefix + id[|PropertyPrefix|..]
    ensures !r ==> forall rest :: id != PropertyPrefix + rest
  {
    if |PropertyPrefix| <= |id| && id[..|PropertyPrefix|] == PropertyPrefix then
      assert id == PropertyPrefix + id[|PropertyPrefix|..];
      true
    else
      assert forall rest :: (PropertyPrefix + rest)[..|PropertyPrefix|] == PropertyPrefix;
      false
  }

  /** The property is fetched and its fetch succeeded, so its rows are accumulated. */
  predicate Contributing(p: PropertyFetch) {
    WellFormedId(p.id) && p.response.Fetched?
  }

  /** The property counts towards `successful_property_count`: fetched with at least one row. */
  predicate Successful(p: PropertyFetch) {
    Contributing(p) && |p.response.rows| > 0
  }

  /**
   * The response shape the provider guarantees for the properties whose rows
   * are read: one cell per requested metric in every row.
   */
  predicate AnswersShaped(metrics: seq<string>, ps: seq<PropertyFetch>) {
    forall i, j :: 0 <= i < |ps| && Contributing(ps[i]) && 0 <= j < |ps[i].response.rows| ==>
      |ps[i].response.rows[j].cells| == |metrics|
  }

  /** `{m: 0.0 for m in metrics}`. */
  function ZeroTotals(metrics: seq<string>): map<string, real> {
    map m | m in SetOf(metrics) :: 0.0
  }

  /** A property's `property_total_metrics`. */
  function PropertyTotals(metrics: seq<string>, rows: seq<Row>): map<string, real> {
    map m | m in SetOf(metrics) :: RowsSum(metrics, rows, m)
  }

  /** A property's `data_rows`, one per response row. */
  function DataRows(metrics: seq<string>, rows: seq<Row>): (r: seq<DataRow>)
    ensures |r| == |rows|
    decreases |rows|
  {
    if rows == [] then []
    else
      var last := rows[|rows| - 1];
      DataRows(metrics, rows[..|rows| - 1]) + [DataRow(last.dims, RowMetrics(metrics, last.cells))]
  }

  /**
   * The summary entry for one selected id: an error entry with zero totals
   * unless the id is fetched and its fetch succeeded, otherwise one data row
   * per response row and the property's own totals.
   */
  function SummaryOf(metrics: seq<string>, p: PropertyFetch): (r: PropertySummary)
    ensures r.id == p.id
    ensures r.totals.Keys == SetOf(metrics)
    ensures r.Errored? <==> !Contributing(p)
    ensures r.Errored? ==> r.error == (if WellFormedId(p.id) then p.response.message else MalformedIdSummary)
    ensures r.Errored? ==> forall m :: m in r.totals ==> r.totals[m] == 0.0
    ensures r.Processed? ==> r.rowsProcessed == |r.dataRows| == |p.response.rows|
    ensures r.Processed? ==> forall m :: m in r.totals ==> r.totals[m] == RowsSum(metrics, p.response.rows, m)
  {
    if !WellFormedId(p.id) then Errored(p.id, MalformedIdSummary, ZeroTotals(metrics))
    else match p.response
      case Failed(msg) => Errored(p.id, msg, ZeroTotals(metrics))
      case Fetched(rows) => Processed(p.id, DataRows(metrics, rows), PropertyTotals(metrics, rows), |rows|)
  }

  /** `data_summary_per_property`: one entry per selected id, in selection order. */
  function Summaries(metrics: seq<string>, ps: seq<PropertyFetch>): (r: seq<PropertySummary>)
    ensures |r| == |ps|
    ensures forall i :: 0 <= i < |ps| ==> r[i].id == ps[i].id
  {
    seq(|ps|, i requires 0 <= i < |ps| => SummaryOf(metrics, ps[i]))
  }

  /** The summaries of `ps + [p]` are those of `ps` followed by the entry of `p`. */
  lemma SummariesStep(metrics: seq<string>, ps: seq<PropertyFetch>, p: PropertyFetch)
    ensures Summaries(metrics, ps + [p]) == Summaries(metrics, ps) + [SummaryOf(metrics, p)]
  {
  }

  /** The reason recorded for an id that is not fetched or whose fetch failed. */
  function ErrorText(p: PropertyFetch): string
    requires !Contributing(p)
  {
    if WellFormedId(p.id) then p.response.message else MalformedIdError
  }

  /** The errors map after one more id: a malformed id or a failed fetch (re)writes its entry. */
  function ErrorStep(errors: map<string, string>, p: PropertyFetch): (r: map<string, string>)
    ensures r.Keys == if Contributing(p) then errors.Keys else errors.Keys + {p.id}
    ensures !Contributing(p) ==> r[p.id] == ErrorText(p)
    ensures forall id :: id in errors && (id != p.id || Contributing(p)) ==> r[id] == errors[id]
  {
    if !WellFormedId(p.id) then errors[p.id := MalformedIdError]
    else match p.response
      case Failed(msg) => errors[p.id := msg]
      case Fetched(_) => errors
  }

  /** `ps[i]` fails and no later occurrence of its id fails. */
  ghost predicate LastFailing(ps: seq<PropertyFetch>, i: int) {
    && 0 <= i < |ps|
    && !Contributing(ps[i])
    && forall j :: i < j < |ps| && ps[j].id == ps[i].id ==> Contributing(ps[j])
  }

  /**
   * `properties_with_errors` after all ids: every entry comes from a failing
   * occurrence of its id, and holds the reason of the last one.
   */
  function ErrorsOf(ps: seq<PropertyFetch>): (r: map<string, string>)
    ensures forall i :: LastFailing(ps, i) ==> ps[i].id in r && r[ps[i].id] == ErrorText(ps[i])
    decreases |ps|
  {
    if ps == [] then map[]
    else
      var inner := ErrorsOf(ps[..|ps| - 1]);
      ErrorStepRecords(ps, inner);
      ErrorStep(inner, ps[|ps| - 1])
  }

  /** The errors map of `ps + [p]` is that of `ps` updated by `p`. */
  lemma ErrorsOfStep(ps: seq<PropertyFetch>, p: PropertyFetch)
    ensures ErrorsOf(ps + [p]) == ErrorStep(ErrorsOf(ps), p)
  {
    assert (ps + [p])[..|ps|] == ps;
  }

  /** One more id keeps the errors map's two properties, given them for the ids before it. */
  lemma ErrorStepRecords(ps: seq<PropertyFetch>, inner: map<string, string>)
    requires ps != []
    requires forall i :: LastFailing(ps[..|ps| - 1], i) ==> ps[i].id in inner && inner[ps[i].id] == ErrorText(ps[i])
    ensures var r := ErrorStep(inner, ps[|ps| - 1]);
      forall i :: LastFailing(ps, i) ==> ps[i].id in r && r[ps[i].id] == ErrorText(ps[i])
  {
    var k := |ps| - 1;
    forall i | LastFailing(ps, i) && i < k
      ensures LastFailing(ps[..k], i)
    {
      assert forall j :: i < j < k ==> ps[..k][j] == ps[j];
    }
  }

  /** `successful_property_count`. */
  function SuccessCount(ps: seq<PropertyFetch>): (r: nat)
    ensures r <= |ps|
    decreases |ps|
  {
    if ps == [] then 0
    else SuccessCount(ps[..|ps| - 1]) + (if Successful(ps[|ps| - 1]) then 1 else 0)
  }

  /** What one property adds to the overall total of metric `m`. */
  function PropertyOverall(metrics: seq<string>, p: PropertyFetch, m: string): real {
    if Contributing(p) then RowsSum(metrics, p.response.rows, m) else 0.0
  }

  /** `total_metrics_across_selection[m]`. */
  function OverallSum(metrics: seq<string>, ps: seq<PropertyFetch>, m: string): real
    decreases |ps|
  {
    if ps == [] then 0.0
    else OverallSum(metrics, ps[..|ps| - 1], m) + PropertyOverall(metrics, ps[|ps| - 1], m)
  }

  /** What one property adds to the group sum of `key` for metric `m`. */
  function PropertyComboSum(metrics: seq<string>, dims: seq<string>, p: PropertyFetch, key: seq<string>, m: string): real {
    if Contributing(p) then KeyedSum(metrics, dims, p.response.rows, key, m) else 0.0
  }

  /** The group sum of `key` for metric `m` over all properties. */
  function ComboSum(metrics: seq<string>, dims: seq<string>, ps: seq<PropertyFetch>, key: seq<string>, m: string): real
    decreases |ps|
  {
    if ps == [] then 0.0
    else ComboSum(metrics, dims, ps[..|ps| - 1], key, m) + PropertyComboSum(metrics, dims, ps[|ps| - 1], key, m)
  }

  /** All group sums of `key`, by metric. */
  function ComboSums(metrics: seq<string>, dims: seq<string>, ps: seq<PropertyFetch>, key: seq<string>): map<string, real> {
    map m | m in SetOf(metrics) :: ComboSum(metrics, dims, ps, key, m)
  }

  /** The group keys one property creates. */
  function PropertyKeys(metrics: seq<string>, dims: seq<string>, p: PropertyFetch): set<seq<string>> {
    if Contributing(p) then KeysOf(metrics, dims, p.response.rows) else {}
  }

  /** The key insertion order after one more property. */
  function PropertyOrder(metrics: seq<string>, dims: seq<string>, order: seq<seq<string>>, p: PropertyFetch): seq<seq<string>> {
    if Contributing(p) then AppendKeys(metrics, dims, order, p.response.rows) else order
  }

  /** The group keys in the order the aggregator first wrote them. */
  function ComboOrder(metrics: seq<string>, dims: seq<string>, ps: seq<PropertyFetch>): seq<seq<string>>
    decreases |ps|
  {
    if ps == [] then [] else PropertyOrder(metrics, dims, ComboOrder(metrics, dims, ps[..|ps| - 1]), ps[|ps| - 1])
  }

  /** The ids recorded as contributors of group `key`. */
  function ComboContributors(metrics: seq<string>, dims: seq<string>, ps: seq<PropertyFetch>, key: seq<string>): set<string>
    decreases |ps|
  {
    if ps == [] then {}
    else
      var p := ps[|ps| - 1];
      ComboContributors(metrics, dims, ps[..|ps| - 1], key) + (if key in PropertyKeys(metrics, dims, p) then {p.id} else {})
  }

  /** What one property adds to the per-value sum of dimension `d` at `v`. */
  function PropertyValueSum(metrics: seq<string>, dims: seq<string>, p: PropertyFetch, d: string, v: string, m: string): real {
    if Contributing(p) then ValueSum(metrics, dims, p.response.rows, d, v, m) else 0.0
  }

  /** The per-value sum of dimension `d` at `v` for metric `m` over all properties. */
  function IndividualSum(metrics: seq<string>, dims: seq<string>, ps: seq<PropertyFetch>, d: string, v: string, m: string): real
    decreases |ps|
  {
    if ps == [] then 0.0
    else IndividualSum(metrics, dims, ps[..|ps| - 1], d, v, m) + PropertyValueSum(metrics, dims, ps[|ps| - 1], d, v, m)
  }

  /** All per-value sums of dimension `d` at `v`, by metric. */
  function IndividualSums(metrics: seq<string>, dims: seq<string>, ps: seq<PropertyFetch>, d: string, v: string): map<string, real> {
    map m | m in SetOf(metrics) :: IndividualSum(metrics, dims, ps, d, v, m)
  }

  /** The values of dimension `d` one property creates entries for. */
  function PropertyValues(metrics: seq<string>, dims: seq<string>, p: PropertyFetch, d: string): set<string> {
    if Contributing(p) then ValuesOf(metrics, dims, p.response.rows, d) else {}
  }

  /** The values of dimension `d` that have an entry after all properties. */
  function IndividualValues(metrics: seq<string>, dims: seq<string>, ps: seq<PropertyFetch>, d: string): set<string>
    decreases |ps|
  {
    if ps == [] then {}
    else IndividualValues(metrics, dims, ps[..|ps| - 1], d) + PropertyValues(metrics, dims, ps[|ps| - 1], d)
  }

  /** The ids recorded as contributors of dimension `d` at `v`. */
  function IndividualContributors(metrics: seq<string>, dims: seq<string>, ps: seq<PropertyFetch>, d: string, v: string): set<string>
    decreases |ps|
  {
    if ps == [] then {}
    else
      var p := ps[|ps| - 1];
      IndividualContributors(metrics, dims, ps[..|ps| - 1], d, v) + (if v in PropertyValues(metrics, dims, p, d) then {p.id} else {})
  }

  /** One element of `average_metrics_per_dimension_combination`. */
  datatype ComboAverage = ComboAverage(dimensions: map<string, string>, averages: map<string, real>)

  /** One element of a list in `average_metrics_per_individual_dimension_value`. */
  datatype ValueAverage = ValueAverage(value: string, averages: map<string, real>)

  /** The sort key `str(x['value'])`. */
  function ValueOf(e: ValueAverage): string {
    e.value
  }

  /** The values a list of per-value averages covers. */
  function ValuesListed(es: seq<ValueAverage>): set<string> {
    set e | e in es :: e.value
  }

  lemma ValuesListedAppend(es: seq<ValueAverage>, e: ValueAverage)
    ensures ValuesListed(es + [e]) == ValuesListed(es) + {e.value}
  {
    assert forall x :: x in es + [e] <==> x in es || x == e;
  }

  lemma ValuesListedSameElements(a: seq<ValueAverage>, b: seq<ValueAverage>)
    requires forall e :: e in a <==> e in b
    ensures ValuesListed(a) == ValuesListed(b)
  {
  }

  /** `{m: round(sums[m] / count, 2) if count > 0 else 0.0 for m in metrics}`. */
  function AveragesOf(metrics: seq<string>, sums: map<string, real>, count: nat): (r: map<string, real>)
    ensures r.Keys == SetOf(metrics)
    ensures count == 0 ==> forall m :: m in r ==> r[m] == 0.0
  {
    map m | m in SetOf(metrics) :: Average(if m in sums then sums[m] else 0.0, count)
  }

  /** With a positive count, each reported average is within half a hundredth of the exact quotient. */
  lemma AverageWithin(metrics: seq<string>, sums: map<string, real>, count: nat, m: string)
    requires m in metrics && count > 0
    ensures var sum := if m in sums then sums[m] else 0.0;
      -1.0 / 200.0 <= AveragesOf(metrics, sums, count)[m] - sum / count as real <= 1.0 / 200.0
  {
    assert m in SetOf(metrics);
  }

  /** `{names[i]: values[i] for i in range(len(values))}`: a later name overrides an earlier one. */
  function ZipDims(names: seq<string>, values: seq<string>): map<string, string>
    decreases |values|
  {
    if values == [] then map[]
    else
      var i := |values| - 1;
      var r := ZipDims(names, values[..i]);
      if i < |names| then r[names[i] := values[i]] else r
  }

  /**
   * The zipped map's keys are the names of the positions zipped (as many as
   * the shorter list has), and where a name repeats, its last value wins.
   */
  lemma {:induction false} ZipDimsSpec(names: seq<string>, values: seq<string>)
    ensures ZipDims(names, values).Keys == set i | 0 <= i < |values| && i < |names| :: names[i]
    ensures forall i :: 0 <= i < |values| && i < |names| && (forall j :: i < j < |values| && j < |names| ==> names[j] != names[i]) ==>
      ZipDims(names, values)[names[i]] == values[i]
    decreases |values|
  {
    if values != [] {
      var inner := values[..|values| - 1];
      ZipDimsSpec(names, inner);
      ZipStep(names, values, ZipDims(names, inner));
    }
  }

  /** One more value keeps the zipped map's two properties, given them for the values before it. */
  lemma ZipStep(names: seq<string>, values: seq<string>, inner: map<string, string>)
    requires values != []
    requires inner.Keys == set i | 0 <= i < |values| - 1 && i < |names| :: names[i]
    requires forall i :: 0 <= i < |values| - 1 && i < |names| && (forall j :: i < j < |values| - 1 && j < |names| ==> names[j] != names[i]) ==>
      inner[names[i]] == values[i]
    ensures var k := |values| - 1;
      var r := if k < |names| then inner[names[k] := values[k]] else inner;
      && r.Keys == (set i | 0 <= i < |values| && i < |names| :: names[i])
      && forall i :: 0 <= i < |values| && i < |names| && (forall j :: i < j < |values| && j < |names| ==> names[j] != names[i]) ==>
           r[names[i]] == values[i]
  {
  }

  /** `average_metrics_per_dimension_combination`: one element per group, in first-write order. */
  function ComboAveragesOf(metrics: seq<string>, dims: seq<string>, ps: seq<PropertyFetch>, count: nat): (r: seq<ComboAverage>)
    ensures |r| == |ComboOrder(metrics, dims, ps)|
  {
    var order := ComboOrder(metrics, dims, ps);
    seq(|order|, i requires 0 <= i < |order| =>
      ComboAverage(ZipDims(dims, order[i]), AveragesOf(metrics, ComboSums(metrics, dims, ps, order[i]), count)))
  }

  /**
   * The list of dimension `d` in `average_metrics_per_individual_dimension_value`:
   * each value that has an entry exactly once, in increasing order of the
   * value, with that value's averages.
   */
  ghost predicate ValueListOf(metrics: seq<string>, dims: seq<string>, ps: seq<PropertyFetch>, count: nat,
                              d: string, es: seq<ValueAverage>)
  {
    && Text.StrictlySortedBy(es, ValueOf)
    && ValuesListed(es) == IndividualValues(metrics, dims, ps, d)
    && forall e :: e in es ==> e.averages == AveragesOf(metrics, IndividualSums(metrics, dims, ps, d, e.value), count)
  }

  /** `average_metrics_per_individual_dimension_value`: one list per selected dimension. */
  ghost predicate ValueAveragesOf(metrics: seq<string>, dims: seq<string>, ps: seq<PropertyFetch>, count: nat,
                                  va: map<string, seq<ValueAverage>>)
  {
    va.Keys == SetOf(dims) && forall d :: d in va ==> ValueListOf(metrics, dims, ps, count, d, va[d])
  }
}
