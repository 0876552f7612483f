/**
 * What the aggregation promises across calls and across properties, stated
 * over the reference quantities of module `Aggregates` (which both
 * aggregators are proved to compute).
 */
module AggregateFacts {
  import opened Common
  import opened Rows
  import opened Aggregates
  import Rounding

  /* ---------- the successful count ---------- */

  /** The count is at most the number of ids, and it is zero exactly when no property succeeded. */
  lemma {:induction false} SuccessCountBounds(ps: seq<PropertyFetch>)
    ensures SuccessCount(ps) <= |ps|
    ensures SuccessCount(ps) == 0 <==> forall i :: 0 <= i < |ps| ==> !Successful(ps[i])
    decreases |ps|
  {
    if ps != [] {
      var k := |ps| - 1;
      SuccessCountBounds(ps[..k]);
      assert forall i :: 0 <= i < k ==> ps[..k][i] == ps[i];
    }
  }

  /** A fetch that succeeds with no rows is neither counted nor recorded as an error. */
  lemma EmptyFetchIgnored(ps: seq<PropertyFetch>, id: string)
    requires WellFormedId(id)
    ensures SuccessCount(ps + [PropertyFetch(id, Fetched([]))]) == SuccessCount(ps)
    ensures ErrorsOf(ps + [PropertyFetch(id, Fetched([]))]) == ErrorsOf(ps)
  {
    assert (ps + [PropertyFetch(id, Fetched([]))])[..|ps|] == ps;
  }

  /** The ids of the properties that count as successful. */
  function SuccessfulIds(ps: seq<PropertyFetch>): set<string> {
    set i | 0 <= i < |ps| && Successful(ps[i]) :: ps[i].id
  }

  lemma {:induction false} SuccessfulIdsCounted(ps: seq<PropertyFetch>)
    ensures |SuccessfulIds(ps)| <= SuccessCount(ps)
    decreases |ps|
  {
    if ps != [] {
      var k := |ps| - 1;
      SuccessfulIdsCounted(ps[..k]);
      var extra := if Successful(ps[k]) then {ps[k].id} else {};
      forall x | x in SuccessfulIds(ps) ensures x in SuccessfulIds(ps[..k]) + extra {
        var i :| 0 <= i < |ps| && Successful(ps[i]) && ps[i].id == x;
        if i < k {
          assert ps[..k][i] == ps[i];
        }
      }
      forall x | x in SuccessfulIds(ps[..k]) ensures x in SuccessfulIds(ps) {
        var i :| 0 <= i < k && Successful(ps[..k][i]) && ps[..k][i].id == x;
        assert ps[..k][i] == ps[i];
      }
      assert SuccessfulIds(ps) == SuccessfulIds(ps[..k]) + extra;
    }
  }

  lemma {:induction false} KeysNeedRows(metrics: seq<string>, dims: seq<string>, rows: seq<Row>)
    ensures rows == [] ==> KeysOf(metrics, dims, rows) == {}
    ensures rows == [] ==> forall d :: ValuesOf(metrics, dims, rows, d) == {}
  {
  }

  /** Every id recorded as a contributor of a group belongs to a successful property. */
  lemma {:induction false} ComboContributorsSuccessful(metrics: seq<string>, dims: seq<string>, ps: seq<PropertyFetch>, key: seq<string>)
    ensures ComboContributors(metrics, dims, ps, key) <= SuccessfulIds(ps)
    decreases |ps|
  {
    if ps != [] {
      var k := |ps| - 1;
      ComboContributorsSuccessful(metrics, dims, ps[..k], key);
      assert SuccessfulIds(ps[..k]) <= SuccessfulIds(ps) by {
        assert forall i :: 0 <= i < k ==> ps[..k][i] == ps[i];
      }
      if key in PropertyKeys(metrics, dims, ps[k]) {
        KeysNeedRows(metrics, dims, ps[k].response.rows);
        assert Successful(ps[k]);
      }
    }
  }

  /**
   * The shared denominator is never smaller than the number of properties
   * that contributed to a group: a group missing from some successful
   * properties is averaged over all of them.
   */
  lemma ContributorsWithinCount(metrics: seq<string>, dims: seq<string>, ps: seq<PropertyFetch>, key: seq<string>)
    ensures |ComboContributors(metrics, dims, ps, key)| <= SuccessCount(ps)
  {
    ComboContributorsSuccessful(metrics, dims, ps, key);
    SuccessfulIdsCounted(ps);
    SubsetCardinality(ComboContributors(metrics, dims, ps, key), SuccessfulIds(ps));
  }

  lemma SubsetCardinality<T>(a: set<T>, b: set<T>)
    requires a <= b
    ensures |a| <= |b|
  {
    assert b == a + (b - a);
  }

  /* ---------- the group key order ---------- */

  /** The group keys the properties `ps` create. */
  function AllKeys(metrics: seq<string>, dims: seq<string>, ps: seq<PropertyFetch>): set<seq<string>>
    decreases |ps|
  {
    if ps == [] then {} else AllKeys(metrics, dims, ps[..|ps| - 1]) + PropertyKeys(metrics, dims, ps[|ps| - 1])
  }

  lemma NoteKeyFacts(order: seq<seq<string>>, key: seq<string>, written: bool)
    requires Distinct(order)
    ensures Distinct(NoteKey(order, key, written))
    ensures SetOf(NoteKey(order, key, written)) == SetOf(order) + (if written then {key} else {})
  {
  }

  lemma {:induction false} AppendKeysFacts(metrics: seq<string>, dims: seq<string>, order: seq<seq<string>>, rows: seq<Row>)
    requires Distinct(order)
    ensures Distinct(AppendKeys(metrics, dims, order, rows))
    ensures SetOf(AppendKeys(metrics, dims, order, rows)) == SetOf(order) + KeysOf(metrics, dims, rows)
    decreases |rows|
  {
    if rows != [] {
      var k := |rows| - 1;
      AppendKeysFacts(metrics, dims, order, rows[..k]);
      NoteKeyFacts(AppendKeys(metrics, dims, order, rows[..k]), ComboKey(dims, rows[k].dims), AnyParsed(metrics, rows[k].cells));
    }
  }

  /**
   * The averages per group list every group exactly once: the keys, in
   * first-write order, are distinct and are exactly the keys of the rows
   * with at least one parsed value.
   */
  lemma {:induction false} ComboOrderFacts(metrics: seq<string>, dims: seq<string>, ps: seq<PropertyFetch>)
    ensures Distinct(ComboOrder(metrics, dims, ps))
    ensures SetOf(ComboOrder(metrics, dims, ps)) == AllKeys(metrics, dims, ps)
    decreases |ps|
  {
    if ps != [] {
      var k := |ps| - 1;
      ComboOrderFacts(metrics, dims, ps[..k]);
      if Contributing(ps[k]) {
        AppendKeysFacts(metrics, dims, ComboOrder(metrics, dims, ps[..k]), ps[k].response.rows);
      }
    }
  }

  /* ---------- the groups partition the overall total ---------- */

  /** What one row adds, summed over the groups `keys`. */
  function RowSpread(metrics: seq<string>, dims: seq<string>, row: Row, keys: seq<seq<string>>, m: string): real
    decreases |keys|
  {
    if keys == [] then 0.0
    else RowSpread(metrics, dims, row, keys[..|keys| - 1], m) + RowKeyedSum(metrics, dims, row, keys[|keys| - 1], m)
  }

  /** The group sums of one property's rows, summed over the groups `keys`. */
  function RowsSpread(metrics: seq<string>, dims: seq<string>, rows: seq<Row>, keys: seq<seq<string>>, m: string): real
    decreases |keys|
  {
    if keys == [] then 0.0
    else RowsSpread(metrics, dims, rows, keys[..|keys| - 1], m) + KeyedSum(metrics, dims, rows, keys[|keys| - 1], m)
  }

  /** What one property adds to the group sums, summed over the groups `keys`. */
  function PropertySpread(metrics: seq<string>, dims: seq<string>, p: PropertyFetch, keys: seq<seq<string>>, m: string): real
    decreases |keys|
  {
    if keys == [] then 0.0
    else PropertySpread(metrics, dims, p, keys[..|keys| - 1], m) + PropertyComboSum(metrics, dims, p, keys[|keys| - 1], m)
  }

  /** The group sums over all properties, summed over the groups `keys`. */
  function GroupTotal(metrics: seq<string>, dims: seq<string>, ps: seq<PropertyFetch>, keys: seq<seq<string>>, m: string): real
    decreases |keys|
  {
    if keys == [] then 0.0
    else GroupTotal(metrics, dims, ps, keys[..|keys| - 1], m) + ComboSum(metrics, dims, ps, keys[|keys| - 1], m)
  }

  /** A row none of whose cells parsed adds nothing to any sum. */
  lemma {:induction false} UnparsedRowAddsNothing(metrics: seq<string>, cells: seq<Option<real>>, m: string)
    requires !AnyParsed(metrics, cells)
    ensures CellSum(metrics, cells, m) == 0.0
    decreases |cells|
  {
    if cells != [] {
      UnparsedRowAddsNothing(metrics, cells[..|cells| - 1], m);
    }
  }

  /** Over distinct groups, a row's sum lands in its own group once, or nowhere when its group is not listed. */
  lemma {:induction false} RowSpreadOnce(metrics: seq<string>, dims: seq<string>, row: Row, keys: seq<seq<string>>, m: string)
    requires Distinct(keys)
    ensures RowSpread(metrics, dims, row, keys, m) ==
              if ComboKey(dims, row.dims) in keys then CellSum(metrics, row.cells, m) else 0.0
    decreases |keys|
  {
    if keys != [] {
      var k := |keys| - 1;
      RowSpreadOnce(metrics, dims, row, keys[..k], m);
      assert keys == keys[..k] + [keys[k]];
      if keys[k] == ComboKey(dims, row.dims) {
        assert ComboKey(dims, row.dims) !in keys[..k];
      }
    }
  }

  lemma {:induction false} RowsSpreadStep(metrics: seq<string>, dims: seq<string>, rows: seq<Row>, keys: seq<seq<string>>, m: string)
    requires rows != []
    ensures RowsSpread(metrics, dims, rows, keys, m) ==
              RowsSpread(metrics, dims, rows[..|rows| - 1], keys, m) + RowSpread(metrics, dims, rows[|rows| - 1], keys, m)
    decreases |keys|
  {
    if keys != [] {
      RowsSpreadStep(metrics, dims, rows, keys[..|keys| - 1], m);
    }
  }

  /** Over distinct groups that include every group the rows create, the group sums add up to the rows' sum. */
  lemma {:induction false} RowsSpreadTotal(metrics: seq<string>, dims: seq<string>, rows: seq<Row>, keys: seq<seq<string>>, m: string)
    requires Distinct(keys) && KeysOf(metrics, dims, rows) <= SetOf(keys)
    ensures RowsSpread(metrics, dims, rows, keys, m) == RowsSum(metrics, rows, m)
    decreases |rows|
  {
    if rows == [] {
      RowsSpreadEmpty(metrics, dims, keys, m);
    } else {
      var k := |rows| - 1;
      RowsSpreadTotal(metrics, dims, rows[..k], keys, m);
      RowsSpreadStep(metrics, dims, rows, keys, m);
      RowSpreadOnce(metrics, dims, rows[k], keys, m);
      if ComboKey(dims, rows[k].dims) !in keys {
        assert ComboKey(dims, rows[k].dims) !in RowKeys(metrics, dims, rows[k]);
        UnparsedRowAddsNothing(metrics, rows[k].cells, m);
      }
    }
  }

  lemma {:induction false} RowsSpreadEmpty(metrics: seq<string>, dims: seq<string>, keys: seq<seq<string>>, m: string)
    ensures RowsSpread(metrics, dims, [], keys, m) == 0.0
    decreases |keys|
  {
    if keys != [] {
      RowsSpreadEmpty(metrics, dims, keys[..|keys| - 1], m);
    }
  }

  lemma {:induction false} PropertySpreadTotal(metrics: seq<string>, dims: seq<string>, p: PropertyFetch, keys: seq<seq<string>>, m: string)
    requires Distinct(keys) && PropertyKeys(metrics, dims, p) <= SetOf(keys)
    ensures PropertySpread(metrics, dims, p, keys, m) == PropertyOverall(metrics, p, m)
  {
    PropertySpreadIsRowsSpread(metrics, dims, p, keys, m);
    if Contributing(p) {
      RowsSpreadTotal(metrics, dims, p.response.rows, keys, m);
    }
  }

  lemma {:induction false} PropertySpreadIsRowsSpread(metrics: seq<string>, dims: seq<string>, p: PropertyFetch, keys: seq<seq<string>>, m: string)
    ensures PropertySpread(metrics, dims, p, keys, m) ==
              if Contributing(p) then RowsSpread(metrics, dims, p.response.rows, keys, m) else 0.0
    decreases |keys|
  {
    if keys != [] {
      PropertySpreadIsRowsSpread(metrics, dims, p, keys[..|keys| - 1], m);
    }
  }

  lemma {:induction false} GroupTotalStep(metrics: seq<string>, dims: seq<string>, ps: seq<PropertyFetch>, keys: seq<seq<string>>, m: string)
    requires ps != []
    ensures GroupTotal(metrics, dims, ps, keys, m) ==
              GroupTotal(metrics, dims, ps[..|ps| - 1], keys, m) + PropertySpread(metrics, dims, ps[|ps| - 1], keys, m)
    decreases |keys|
  {
    if keys != [] {
      GroupTotalStep(metrics, dims, ps, keys[..|keys| - 1], m);
    }
  }

  lemma {:induction false} GroupTotalEmpty(metrics: seq<string>, dims: seq<string>, keys: seq<seq<string>>, m: string)
    ensures GroupTotal(metrics, dims, [], keys, m) == 0.0
    decreases |keys|
  {
    if keys != [] {
      GroupTotalEmpty(metrics, dims, keys[..|keys| - 1], m);
    }
  }

  lemma {:induction false} GroupTotalCovers(metrics: seq<string>, dims: seq<string>, ps: seq<PropertyFetch>, keys: seq<seq<string>>, m: string)
    requires Distinct(keys) && AllKeys(metrics, dims, ps) <= SetOf(keys)
    ensures GroupTotal(metrics, dims, ps, keys, m) == OverallSum(metrics, ps, m)
    decreases |ps|
  {
    if ps == [] {
      GroupTotalEmpty(metrics, dims, keys, m);
    } else {
      var k := |ps| - 1;
      GroupTotalCovers(metrics, dims, ps[..k], keys, m);
      GroupTotalStep(metrics, dims, ps, keys, m);
      PropertySpreadTotal(metrics, dims, ps[k], keys, m);
    }
  }

  /**
   * The groups partition the overall total: summed over the listed groups,
   * the group sums of a metric are its overall sum.  Every parsed value is
   * counted in exactly one group.
   */
  lemma GroupsPartitionTotal(metrics: seq<string>, dims: seq<string>, ps: seq<PropertyFetch>, m: string)
    ensures GroupTotal(metrics, dims, ps, ComboOrder(metrics, dims, ps), m) == OverallSum(metrics, ps, m)
  {
    ComboOrderFacts(metrics, dims, ps);
    GroupTotalCovers(metrics, dims, ps, ComboOrder(metrics, dims, ps), m);
  }

  /* ---------- summaries and totals ---------- */

  /** The per-property totals of metric `m`, summed over the summaries. */
  function SummedTotals(summaries: seq<PropertySummary>, m: string): real
    decreases |summaries|
  {
    if summaries == [] then 0.0
    else
      var s := summaries[|summaries| - 1];
      SummedTotals(summaries[..|summaries| - 1], m) + (if m in s.totals then s.totals[m] else 0.0)
  }

  /**
   * The overall total of a selected metric is the sum of the totals the
   * per-property summaries report for it (errored entries report zero).
   */
  lemma {:induction false} TotalsAgree(metrics: seq<string>, ps: seq<PropertyFetch>, m: string)
    requires m in metrics
    ensures SummedTotals(Summaries(metrics, ps), m) == OverallSum(metrics, ps, m)
    decreases |ps|
  {
    if ps != [] {
      var k := |ps| - 1;
      TotalsAgree(metrics, ps[..k], m);
      assert ps == ps[..k] + [ps[k]];
      SummariesStep(metrics, ps[..k], ps[k]);
      var all := Summaries(metrics, ps);
      assert all[..k] == Summaries(metrics, ps[..k]);
      assert m in SetOf(metrics);
    }
  }

  /* ---------- errors ---------- */

  /** The ids that are malformed or whose fetch failed. */
  function FailingIds(ps: seq<PropertyFetch>): set<string> {
    set i | 0 <= i < |ps| && !Contributing(ps[i]) :: ps[i].id
  }

  lemma FailingIdsStep(ps: seq<PropertyFetch>)
    requires ps != []
    ensures FailingIds(ps) == FailingIds(ps[..|ps| - 1]) + (if Contributing(ps[|ps| - 1]) then {} else {ps[|ps| - 1].id})
  {
    var k := |ps| - 1;
    var extra := if Contributing(ps[k]) then {} else {ps[k].id};
    forall x | x in FailingIds(ps) ensures x in FailingIds(ps[..k]) + extra {
      var i :| 0 <= i < |ps| && !Contributing(ps[i]) && ps[i].id == x;
      if i < k {
        assert ps[..k][i] == ps[i];
      }
    }
    forall x | x in FailingIds(ps[..k]) ensures x in FailingIds(ps) {
      var i :| 0 <= i < k && !Contributing(ps[..k][i]) && ps[..k][i].id == x;
      assert ps[..k][i] == ps[i];
    }
  }

  /** The ids the errors map has an entry for: the malformed ones and those whose fetch failed. */
  lemma {:induction false} ErrorKeys(ps: seq<PropertyFetch>)
    ensures ErrorsOf(ps).Keys == FailingIds(ps)
    decreases |ps|
  {
    if ps != [] {
      var k := |ps| - 1;
      ErrorKeys(ps[..k]);
      FailingIdsStep(ps);
      assert ErrorsOf(ps) == ErrorStep(ErrorsOf(ps[..k]), ps[k]);
    }
  }

  /** A malformed id's entry in the errors map is (re)written with the malformed-id reason. */
  lemma MalformedIdRecorded(ps: seq<PropertyFetch>, p: PropertyFetch)
    requires !WellFormedId(p.id)
    ensures ErrorsOf(ps + [p]) == ErrorsOf(ps)[p.id := MalformedIdError]
  {
    assert (ps + [p])[..|ps|] == ps;
  }

  /**
   * An id selected twice is fetched twice, and each fetch answers on its
   * own: when the first fails and the second returns rows, the errors map
   * keeps the failure while the id also counts as successful.
   */
  lemma RepeatedIdFailsThenSucceeds(provider: Provider, id: string, metrics: seq<string>, dims: seq<string>, start: string, end: string)
    requires WellFormedId(id)
    requires provider(0, id, QueryDimensions(dims), metrics, start, end).Failed?
    requires provider(1, id, QueryDimensions(dims), metrics, start, end).Fetched?
    requires provider(1, id, QueryDimensions(dims), metrics, start, end).rows != []
    ensures var ps := Fetches(provider, [id, id], metrics, dims, start, end);
      && ErrorsOf(ps) == map[id := provider(0, id, QueryDimensions(dims), metrics, start, end).message]
      && SuccessCount(ps) == 1
  {
    var first := PropertyFetch(id, provider(0, id, QueryDimensions(dims), metrics, start, end));
    var second := PropertyFetch(id, provider(1, id, QueryDimensions(dims), metrics, start, end));
    var ps := Fetches(provider, [id, id], metrics, dims, start, end);
    assert ps == [first] + [second];
    ErrorsOfStep([], first);
    ErrorsOfStep([first], second);
    assert ps[..1] == [first] && [first][..0] == [];
  }

  /* ---------- a malformed id is never fetched ---------- */

  /**
   * `ps` and `qs` select the same ids and get the same answers, except that
   * the provider may answer anything for a malformed id.
   */
  predicate AgreeOnFetched(ps: seq<PropertyFetch>, qs: seq<PropertyFetch>) {
    |ps| == |qs| &&
    forall i :: 0 <= i < |ps| ==> ps[i].id == qs[i].id && (WellFormedId(ps[i].id) ==> ps[i].response == qs[i].response)
  }

  lemma AgreeOnPrefix(ps: seq<PropertyFetch>, qs: seq<PropertyFetch>)
    requires AgreeOnFetched(ps, qs) && ps != []
    ensures AgreeOnFetched(ps[..|ps| - 1], qs[..|qs| - 1])
  {
  }

  /** Two fetches of the same id that agree unless the id is malformed behave alike. */
  lemma SameTreatment(p: PropertyFetch, q: PropertyFetch)
    requires p.id == q.id && (WellFormedId(p.id) ==> p.response == q.response)
    ensures Contributing(p) == Contributing(q) && Successful(p) == Successful(q)
    ensures WellFormedId(p.id) ==> p == q
  {
  }

  /**
   * What the provider would answer for a malformed id never reaches the
   * summaries, the errors or the count, whatever that answer is.
   */
  lemma {:induction false} MalformedAnswerIgnored(metrics: seq<string>, ps: seq<PropertyFetch>, qs: seq<PropertyFetch>)
    requires AgreeOnFetched(ps, qs)
    ensures Summaries(metrics, ps) == Summaries(metrics, qs)
    ensures ErrorsOf(ps) == ErrorsOf(qs)
    ensures SuccessCount(ps) == SuccessCount(qs)
    decreases |ps|
  {
    forall i | 0 <= i < |ps| ensures SummaryOf(metrics, ps[i]) == SummaryOf(metrics, qs[i]) {
      SameTreatment(ps[i], qs[i]);
    }
    if ps != [] {
      var k := |ps| - 1;
      AgreeOnPrefix(ps, qs);
      MalformedAnswerIgnored(metrics, ps[..k], qs[..k]);
      SameTreatment(ps[k], qs[k]);
    }
  }

  /** Nor does it reach the overall totals or any group. */
  lemma {:induction false} MalformedAnswerIgnoredInGroups(metrics: seq<string>, dims: seq<string>, ps: seq<PropertyFetch>, qs: seq<PropertyFetch>,
                                                          key: seq<string>, m: string)
    requires AgreeOnFetched(ps, qs)
    ensures OverallSum(metrics, ps, m) == OverallSum(metrics, qs, m)
    ensures ComboOrder(metrics, dims, ps) == ComboOrder(metrics, dims, qs)
    ensures ComboSum(metrics, dims, ps, key, m) == ComboSum(metrics, dims, qs, key, m)
    ensures ComboContributors(metrics, dims, ps, key) == ComboContributors(metrics, dims, qs, key)
    decreases |ps|
  {
    if ps != [] {
      var k := |ps| - 1;
      AgreeOnPrefix(ps, qs);
      MalformedAnswerIgnoredInGroups(metrics, dims, ps[..k], qs[..k], key, m);
      SameTreatment(ps[k], qs[k]);
    }
  }

  /** Nor any per-value entry. */
  lemma {:induction false} MalformedAnswerIgnoredInValues(metrics: seq<string>, dims: seq<string>, ps: seq<PropertyFetch>, qs: seq<PropertyFetch>,
                                                          d: string, v: string, m: string)
    requires AgreeOnFetched(ps, qs)
    ensures IndividualValues(metrics, dims, ps, d) == IndividualValues(metrics, dims, qs, d)
    ensures IndividualSum(metrics, dims, ps, d, v, m) == IndividualSum(metrics, dims, qs, d, v, m)
    ensures IndividualContributors(metrics, dims, ps, d, v) == IndividualContributors(metrics, dims, qs, d, v)
    decreases |ps|
  {
    if ps != [] {
      var k := |ps| - 1;
      AgreeOnPrefix(ps, qs);
      MalformedAnswerIgnoredInValues(metrics, dims, ps[..k], qs[..k], d, v, m);
      SameTreatment(ps[k], qs[k]);
    }
  }

  /* ---------- unparsable values ---------- */

  /** A cell that fails to parse adds nothing: making it unparsable removes exactly its own contribution. */
  lemma {:induction false} UnparsedCellAddsNothing(metrics: seq<string>, cells: seq<Option<real>>, j: nat, m: string)
    requires j < |cells|
    ensures CellSum(metrics, cells[j := None], m) + CellValue(metrics, cells, j, m) == CellSum(metrics, cells, m)
    decreases |cells|
  {
    var k := |cells| - 1;
    if j == k {
      assert cells[j := None][..k] == cells[..k];
    } else {
      UnparsedCellAddsNothing(metrics, cells[..k], j, m);
      assert cells[j := None][..k] == cells[..k][j := None];
    }
  }

  /** With distinct metric names, the row's metrics dict holds each cell's value, 0.0 where parsing failed. */
  lemma {:induction false} RowMetricsAt(metrics: seq<string>, cells: seq<Option<real>>, j: nat)
    requires Distinct(metrics) && j < |cells| && j < |metrics|
    ensures metrics[j] in RowMetrics(metrics, cells) && RowMetrics(metrics, cells)[metrics[j]] == cells[j].GetOr(0.0)
    decreases |cells|
  {
    var k := |cells| - 1;
    if j < k {
      RowMetricsAt(metrics, cells[..k], j);
    }
  }

  /* ---------- dilution ---------- */

  /**
   * One group present in only one of two successful properties is averaged
   * over both: 10 sessions in the Netherlands from the first property, none
   * from the second, give an average of 5 for that group.
   */
  lemma GroupAverageDiluted()
    ensures var metrics := ["sessions"];
            var dims := ["country"];
            var ps := [PropertyFetch("properties/1", Fetched([Row(map["country" := "NL"], [Some(10.0)])])),
                       PropertyFetch("properties/2", Fetched([Row(map["country" := "BE"], [Some(4.0)])]))];
            && SuccessCount(ps) == 2
            && ComboContributors(metrics, dims, ps, ["NL"]) == {"properties/1"}
            && ComboAveragesOf(metrics, dims, ps, SuccessCount(ps))[0] ==
                 ComboAverage(map["country" := "NL"], map["sessions" := 5.0])
  {
    var metrics := ["sessions"];
    var dims := ["country"];
    var r1 := Row(map["country" := "NL"], [Some(10.0)]);
    var r2 := Row(map["country" := "BE"], [Some(4.0)]);
    var p1 := PropertyFetch("properties/1", Fetched([r1]));
    var p2 := PropertyFetch("properties/2", Fetched([r2]));
    var ps := [p1, p2];
    assert WellFormedId(p1.id) && WellFormedId(p2.id) by {
      assert p1.id[..|PropertyPrefix|] == PropertyPrefix;
      assert p2.id[..|PropertyPrefix|] == PropertyPrefix;
    }
    assert ps[..1] == [p1];
    assert [p1][..0] == [];
    assert ComboKey(dims, r1.dims) == ["NL"];
    assert ComboKey(dims, r2.dims) == ["BE"];
    assert AnyParsed(metrics, r1.cells) && AnyParsed(metrics, r2.cells);
    assert KeysOf(metrics, dims, [r1]) == {["NL"]} by { assert [r1][..0] == []; }
    assert KeysOf(metrics, dims, [r2]) == {["BE"]} by { assert [r2][..0] == []; }
    assert Contributing(p1) && Contributing(p2);
    assert ComboOrder(metrics, dims, [p1]) == [["NL"]] by {
      assert AppendKeys(metrics, dims, [], [r1]) == [["NL"]] by { assert [r1][..0] == []; }
    }
    assert ComboOrder(metrics, dims, ps) == [["NL"], ["BE"]] by {
      assert AppendKeys(metrics, dims, [["NL"]], [r2]) == [["NL"], ["BE"]] by { assert [r2][..0] == []; }
    }
    assert CellSum(metrics, r1.cells, "sessions") == 10.0 by { assert r1.cells[..0] == []; }
    assert KeyedSum(metrics, dims, [r1], ["NL"], "sessions") == 10.0 by { assert [r1][..0] == []; }
    assert KeyedSum(metrics, dims, [r2], ["NL"], "sessions") == 0.0 by { assert [r2][..0] == []; }
    assert ComboSum(metrics, dims, [p1], ["NL"], "sessions") == 10.0;
    assert ComboSum(metrics, dims, ps, ["NL"], "sessions") == 10.0;
    assert ComboSums(metrics, dims, ps, ["NL"]) == map["sessions" := 10.0] by {
      assert SetOf(metrics) == {"sessions"};
    }
    Rounding.Round2OnGrid(500);
    assert 10.0 / 2 as real == 500 as real / 100.0;
    assert AveragesOf(metrics, map["sessions" := 10.0], 2) == map["sessions" := 5.0] by {
      assert SetOf(metrics) == {"sessions"};
    }
    assert ZipDims(dims, ["NL"]) == map["country" := "NL"] by { assert ["NL"][..0] == []; }
  }
}
