# Benchmark aggregation, modelled in Dafny

The benchmark tool compares Google Analytics 4 properties. Its aggregation engine is `generate_benchmark_data_from_google`, which exists in two revisions: `app/analytics.py` and an older copy in `main.py`.

The engine works through the selected property ids one at a time:

- An id without the `properties/` prefix is recorded as an error and skipped.
- Every other id is fetched for the selected metrics and dimensions. An empty dimension selection queries `date`.
- For each row, the engine:
  - builds the group key (the row's value for each selected dimension, `(not set)` where missing);
  - parses each metric value;
  - adds every parsed value to the property's total, the overall total, the group's sum and, in the newer revision, the sum of each selected dimension's individual value;
  - records the property as a contributor.
- A property counts as successful when its fetch returned at least one row.

When ids were given and none succeeded, the engine raises. Otherwise every average is the sum divided by the one global successful count, rounded to two decimals, or 0.0 when that count is 0 (which happens only when no ids were given). The dimension-value lists are sorted by value.

Around the engine, the model also covers:

- the checks the older endpoint applies to its inputs;
- the validation chain of the create and update forms;
- the ownership gate of the edit, update and delete pages;
- the date range the edit page pre-fills from a stored report.

## How the model is built

**The provider.** The analytics provider is an input, not a call. `Aggregates.Fetches` pairs each selected id with what the provider answers for it: an exception's text, or rows. The provider is given the id's position in the selection as well as the id and the query, so an id selected twice is fetched twice and each fetch answers on its own. A row is:

- a map from dimension header to value;
- one cell per selected metric, where `None` is a value `float()` rejects.

**Reference definitions.** Modules `Rows` and `Aggregates` define, by recursion that peels off the last element, what every table should hold after the properties `ps`:

- the overall sum;
- the group sums, the group key order and the group contributors;
- the per-value sums, values and contributors;
- the summaries, the errors map and the successful count.

**The loops.** `Analytics` (the newer revision) and `LegacyAnalytics` (the older one) keep the loops of the source as methods over value-typed state:

- properties, then rows, then cells;
- for the newer revision, the selected dimensions inside each cell.

Their invariants tie the tables to the reference definitions over the prefix processed so far. The averaging loops are proved to produce exactly the reference averages.

**Properties across calls and properties.** `AggregateFacts` proves what the aggregation promises, over the reference definitions that both loops are proved to compute.

**Other modules.**

- `DateParsing` models `datetime.strptime(s, "%Y-%m-%d")` as CPython's `_strptime` matches it. CPython's `_strptime` regular expressions for these directives are restated here.
- `Text` models Python's string order, `strip` and the stable `sorted`.
- `Rounding` models `round(x, 2)` on exact reals, ties to even.
- `BenchmarkRoutes` holds the route-level decisions.

## Model

| member | source | states |
|---|---|---|
| Rows.QueryDimensions | app/analytics.py:27-28 | the dimensions queried are the selection, or `date` alone when nothing is selected; never empty |
| Rows.ComboKey | app/analytics.py:90 | a row's group key has exactly one component per selected dimension, so an empty selection gives every row the empty key |
| Rows.RowMetricsKeys | app/analytics.py:92-121 | a row's metrics dict has an entry for exactly the metric names of its cells |
| Rows.PerOccurrenceIsCount | app/analytics.py:108-114 | a dimension selected k times credits a value k times to its entry |
| Aggregates.Fetches | app/analytics.py:52-73 | one fetch per selected id, in selection order, each for that id with the queried dimensions |
| Aggregates.WellFormedId | app/analytics.py:53 | an id passes the prefix check exactly when it starts with `properties/`: a passing id is the prefix followed by the rest of the id, and no failing id equals the prefix followed by any text |
| Aggregates.SummaryOf | app/analytics.py:53-144 | the entry carries the id; it is an error entry, with a 0.0 total for each selected metric and the exception's text (or "Ongeldig formaat" for a malformed id), exactly when the id is malformed or its fetch failed; otherwise it has one data row per response row, that row count as `rows_processed`, and the property's own sum of each selected metric as totals |
| Aggregates.ErrorStep | app/analytics.py:53-140 | a malformed id or a failed fetch sets that id's entry to its reason and adds the id as a key; a fetched property leaves the map as it is; no other entry changes |
| Aggregates.ErrorsOf | app/analytics.py:52-140 | after all ids, the entry of every id whose last failing occurrence is at position i holds the reason of occurrence i: a later failure overwrites an earlier one, a later success does not erase it |
| Aggregates.SuccessCount | app/analytics.py:128-129 | the successful count never exceeds the number of selected ids |
| Aggregates.Summaries | app/analytics.py:52-145 | exactly one summary entry per selected id, in selection order, carrying that id |
| Aggregates.ComboAveragesOf | app/analytics.py:155-165 | one group average per written group key, in first-write order |
| Aggregates.AveragesOf | app/analytics.py:185-188 | an averages dict has exactly one entry per selected metric, and every entry is 0.0 when the count is 0 |
| Aggregates.AverageWithin | app/analytics.py:158-161 | with a positive count, each metric's average lies within half a hundredth of its sum divided by the count |
| Aggregates.ZipDimsSpec | app/analytics.py:157 | a group's dimensions dict has exactly the selected names that have a key component; a name selected twice maps to its later component |
| Rounding.Round2 | app/analytics.py:159 | `round(x, 2)` lies within half a hundredth of x and is a whole number of hundredths |
| Rounding.Round2OnGrid | app/analytics.py:159 | a value that already is a whole number of hundredths is returned unchanged |
| Rounding.Average | app/analytics.py:185-188 | an average is 0.0 when no property succeeded, otherwise within half a hundredth of total / count |
| Text.StripEmptyIffBlank | app/routes/benchmark_routes.py:93 | `not title.strip()` holds exactly for titles made only of whitespace |
| Text.Less | app/routes/benchmark_routes.py:99 | Python's `<` on strings (also the comparison at main.py:380): `a < b` exactly when a is a proper prefix of b, or at the first position where they differ a has the smaller code point |
| Text.StripTrims | app/routes/benchmark_routes.py:93 | `strip()` returns the title with a run of whitespace cut from each end and nothing else changed: a slice of the title outside which every character is whitespace |
| Text.Strip | app/routes/benchmark_routes.py:93 | `strip()` never lengthens the title, and what it returns neither starts nor ends with whitespace |
| Text.SortBy | app/analytics.py:181 | `sorted(..., key=...)` returns a permutation of its input ordered by the key |
| Text.SortStrict | app/analytics.py:181 | when no two elements share a key, the sorted list is strictly increasing by key |
| Accumulators.FreshBucket | app/analytics.py:37-40 | a new table entry has a 0.0 sum for each selected metric and no contributors |
| Accumulators.AddToCombos | app/analytics.py:104-105 | crediting a value to a group raises that group's sum of that metric by the value and nothing else; the id joins that group's contributors; a first write appends the key to the key order |
| Accumulators.AddToValues | app/analytics.py:108-114 | crediting a value raises, for every selected dimension the row carries, the entry of the row's value by the value once per occurrence of the dimension; the id joins those entries only |
| Accumulators.Credit | app/analytics.py:111-114 | crediting a value raises entry (d, w)'s sum of the metric by the value and no other sum, adds w to d's values only, adds the id to that entry's contributors only, and keeps the table shaped |
| Analytics.ProcessCell | app/analytics.py:93-121 | one more cell: the row dict, the property totals and all tables absorb the cell, a parsed value everywhere, an unparsable one as 0.0 in the row dict only |
| Analytics.ProcessRow | app/analytics.py:82-126 | one row: its metrics dict is built from its cells, and the totals and tables absorb exactly that row's sums, keys, values and contributors |
| Analytics.ProcessRows | app/analytics.py:75-136 | a property's rows give its data rows, its totals (the sums of its parsed values), its row count, and the tables absorb exactly those rows |
| Analytics.ProcessProperty | app/analytics.py:53-145 | one selected id: the summaries gain the id's reference entry, the errors map takes the id's step, the count rises exactly when the property is successful, and the tables absorb the rows exactly when the property contributes, otherwise stay as they were |
| Analytics.ProcessProperties | app/analytics.py:52-145 | after all ids the tables hold the reference sums, keys, values and contributors; the summaries, the errors map and the successful count are the reference ones |
| Analytics.AverageCombos | app/analytics.py:155-165 | the group averages are the reference sums over the global count, in first-write key order |
| Analytics.AverageValues | app/analytics.py:169-181 | a dimension's list holds each written value once, strictly increasing by value, with its sums over the global count |
| Analytics.Generate | app/analytics.py:13-209 | empty metrics raise; ids given and none successful raise with the errors map; otherwise the report holds the reference totals, averages, summaries and errors (if and only if in both directions) |
| LegacyAnalytics.ProcessCell | main.py:273-286 | one more cell of the older revision: row dict, totals and group table absorb it |
| LegacyAnalytics.ProcessRow | main.py:254-291 | one row of the older revision: its metrics dict is built and the tables absorb exactly that row |
| LegacyAnalytics.ProcessRows | main.py:251-300 | a property's rows give its data rows, totals and row count, and the tables absorb exactly those rows |
| LegacyAnalytics.ProcessProperty | main.py:233-304 | one selected id of the older revision: summaries, errors map, count and tables change as in the newer revision |
| LegacyAnalytics.ProcessProperties | main.py:234-306 | after all ids the overall totals, group sums, key order and contributors are the reference ones, and so are the summaries, errors and count |
| LegacyAnalytics.GroupAverages | main.py:323-329 | one group's averages: each selected metric's sum over the count, rounded, or 0.0 for every metric when the count is 0 |
| LegacyAnalytics.AverageCombos | main.py:313-334 | the group averages are the reference sums over the global count, in first-write key order |
| LegacyAnalytics.Generate | main.py:205-359 | empty metrics raise; ids given and none successful raise with the errors map; otherwise the report holds the reference totals, averages, summaries and errors |
| LegacyAnalytics.CheckInputs | main.py:374-381 | the endpoint refuses, in this order, no ids, no metrics, no dimensions, an unparsable start or end, and a start that is a greater string than the end; it accepts exactly the rest |
| LegacyAnalytics.PaddedRangeAccepted | main.py:379-380 | for zero-padded calendar dates, the check accepts exactly the ranges whose end is not before their start |
| LegacyAnalytics.UnpaddedRangeRefused | main.py:379-381 | `2024-9-01` to `2024-10-01` is a forward range that the endpoint refuses as start after end |
| DateParsing.Strptime | main.py:379 | a text that `strptime` accepts denotes a calendar date with year 1 to 9999 |
| DateParsing.FormatRoundTrip | main.py:379 | a calendar date written as `YYYY-MM-DD` is read back as itself |
| DateParsing.FormatOrder | main.py:380 | for zero-padded dates, string order is calendar order (both directions) |
| DateParsing.UnpaddedMonthMisordered | main.py:379-380 | both `2024-9-01` and `2024-10-01` parse, the first is the earlier date, and yet it is the greater string |
| BenchmarkRoutes.FormCheck | app/routes/benchmark_routes.py:92-100 | each message is chosen exactly when its check is the first to fail, and the date message exactly when start > end as strings, overriding the chain |
| BenchmarkRoutes.Accept | app/routes/benchmark_routes.py:197-206 | a form is refused exactly when the chain yields a message, with that message; an accepted form has absent dimensions normalised to the empty list, is otherwise passed on unchanged, and meets every check |
| BenchmarkRoutes.EditGate | app/routes/benchmark_routes.py:131-138 | the edit page proceeds exactly for a logged-in caller who owns the report, and redirects to login exactly when not logged in |
| BenchmarkRoutes.UpdateGate | app/routes/benchmark_routes.py:188-195 | the update proceeds exactly for a logged-in caller who owns the report, and redirects to login exactly when not logged in |
| BenchmarkRoutes.DeleteGate | app/routes/benchmark_routes.py:241-251 | the delete proceeds exactly for a logged-in caller who owns the report, and redirects to login exactly when not logged in |
| BenchmarkRoutes.GatesAgree | app/routes/benchmark_routes.py:137-138 | the three gates let through the same callers, and only for a report with a recorded owner |
| BenchmarkRoutes.DatesListed | app/routes/benchmark_routes.py:156 | the listed dates are exactly the non-null `date` values of the stored items |
| BenchmarkRoutes.Dedupe | app/routes/benchmark_routes.py:156 | de-duplication keeps exactly the same elements, each of them once |
| BenchmarkRoutes.EditDateRange | app/routes/benchmark_routes.py:153-159 | the defaults stay unless the stored list is non-empty, its first item has `date`, and some date is non-null; then start and end are stored dates, the least and the greatest |
| BenchmarkRoutes.EditRangeOrdered | app/routes/benchmark_routes.py:155-159 | a range taken from stored dates never has its start after its end |
| AggregateFacts.SuccessCountBounds | app/analytics.py:128-129 | the successful count is at most the number of ids, and it is zero exactly when no property succeeded |
| AggregateFacts.EmptyFetchIgnored | app/analytics.py:78-129 | a fetch that succeeds with no rows neither counts as successful nor records an error |
| AggregateFacts.ComboContributorsSuccessful | app/analytics.py:104-105 | every contributor of a group is a successful property |
| AggregateFacts.ContributorsWithinCount | app/analytics.py:156-161 | a group's contributors never outnumber the global count it is divided by |
| AggregateFacts.ComboOrderFacts | app/analytics.py:156 | the group averages list every group once: the key order is distinct, and its keys are exactly those of rows with a parsed value |
| AggregateFacts.GroupsPartitionTotal | app/analytics.py:101-104 | summed over the groups, the group sums of a metric equal its overall total: each parsed value lands in exactly one group |
| AggregateFacts.TotalsAgree | app/analytics.py:100-101 | the overall total of a metric is the sum of the per-property totals in the summaries |
| AggregateFacts.ErrorKeys | app/analytics.py:52-145 | the errors map has an entry for exactly the malformed ids and the ids whose fetch failed |
| AggregateFacts.MalformedIdRecorded | app/analytics.py:53-54 | a malformed id's error entry is "Ongeldig formaat property ID." |
| AggregateFacts.RepeatedIdFailsThenSucceeds | app/analytics.py:52-140 | an id selected twice whose first fetch fails and whose second returns rows keeps the failure as its errors entry and still counts once as successful |
| AggregateFacts.MalformedAnswerIgnored | app/analytics.py:53-59 | what the provider would answer for a malformed id changes no summary, no error and not the count |
| AggregateFacts.MalformedAnswerIgnoredInGroups | app/analytics.py:53-59 | nor the overall totals, group sums, key order or group contributors |
| AggregateFacts.MalformedAnswerIgnoredInValues | app/analytics.py:53-59 | nor the per-value sums, values or contributors |
| AggregateFacts.UnparsedRowAddsNothing | app/analytics.py:120-121 | a row none of whose values parse adds nothing to any sum |
| AggregateFacts.UnparsedCellAddsNothing | app/analytics.py:95-121 | an unparsable cell adds nothing: making a cell unparsable removes exactly its own contribution |
| AggregateFacts.RowMetricsAt | app/analytics.py:95-121 | with distinct metric names, a row's dict has an entry for each cell's metric, holding its value or 0.0 where parsing failed |
| AggregateFacts.GroupAverageDiluted | app/analytics.py:156-161 | a group present in one of two successful properties is divided by two: 10 sessions give an average of 5 |

## Left out

- The Google client, OAuth and session credentials: the provider's answers are the input `Fetches`, and the endpoints see the caller as a `Caller` value.
- Persistence, JSON encoding, HTML, templates and redirect URLs.
  - A gate's outcome is a `Gate` value.
  - The stored report is reduced to its owner.
  - The stored data is reduced to its items' `date` values.
- Floating point. Metric values are exact reals, and `float()` parsing is its outcome (`Some` value or `None`). `round` is exact-real rounding to hundredths with ties to even; binary representation effects are not modelled.
- `derived_metrics` (app/analytics.py:190-195, main.py:341-346): computed and never returned.
- The branch at app/analytics.py:150-151: it cannot be reached, since the enclosing condition requires a non-empty id list.
- The message texts of the two `ValueError`s the engine raises: `Failure` names the check that failed (`NoMetricsSelected`, `NoDataRetrieved`) and keeps the errors map itself, not Python's rendering of it into the "no data" message.
- `strptime`'s message texts, and digits outside ASCII, which `_strptime`'s `\d` also accepts. `DateParsing.Strptime` distinguishes only no match, unconverted data and out of range.
- Analytics.Generate: requires `AnswersShaped`, meaning every row of a fetched property has one cell per selected metric, in the selected order (the response headers follow the request). This is the provider's contract. Misaligned headers, and an exception thrown midway through a property's rows (partial accumulation before the error entry), are not modelled.
- LegacyAnalytics.Generate: requires the same `AnswersShaped`, for the same reason.
- Metric names that coincide with the contributor-set keys `_properties_contributed_combo` / `_properties_contributed_individual` are not modelled. Each table entry keeps its sums and its contributors apart.
- The calls at app/routes/benchmark_routes.py:107-110 and 213-216 pass seven arguments to a six-parameter function. The resulting `TypeError` is caught by the generic handler, which redirects with an unexpected-server-error message. The model stops at the validation decision, `BenchmarkRoutes.Accept`.
- The edit page's default dates come from the clock; they are parameters of `BenchmarkRoutes.EditDateRange`.
- The edit page's JSON decoding errors, and stored items that are not objects or whose `date` is not a string.
- `list(set(...))` iteration order is arbitrary in Python. `BenchmarkRoutes.Dedupe` fixes first-occurrence order, which `sorted` makes irrelevant.
- `async`/`await`: execution is sequential.
- The unused `dim_key_parts` list (main.py:259-265) has no effect on any result and is not modelled.
