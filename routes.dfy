/**
 * The decisions the benchmark pages make before they aggregate or touch a
 * stored report: the create and update forms' validation chain, the
 * ownership gate of the edit, update and delete endpoints, and the date
 * range the edit page pre-fills from a stored report.
 */
module BenchmarkRoutes {
  import opened Common
  import Text

  /* ---------- form validation ---------- */

  /** The form's error messages, in the order the chain tries them. */
  datatype FormError =
    | BlankTitle
    | NoClientA
    | NoBenchmarks
    | ClientAIsBenchmark
    | NoMetrics
    | InvalidDates

  function Message(e: FormError): string {
    match e
    case BlankTitle => "Benchmark titel mag niet leeg zijn."
    case NoClientA => "Selecteer a.u.b. een Klant A property."
    case NoBenchmarks => "Selecteer a.u.b. ten minste één Benchmark property."
    case ClientAIsBenchmark => "Klant A property mag niet ook een Benchmark property zijn."
    case NoMetrics => "Selecteer a.u.b. ten minste één metric."
    case InvalidDates => "Ongeldige datums opgegeven."
  }

  /**
   * The posted form.  A list field that is absent reads as the empty list
   * (both are falsy to the checks); client A and the dimensions keep their
   * absence, since the code treats those separately.
   */
  datatype Submission = Submission(
    title: string,
    clientA: Option<string>,
    benchmarks: seq<string>,
    metrics: seq<string>,
    dims: Option<seq<string>>,
    start: string,
    end: string)

  /** What the handler passes on once the form is accepted. */
  datatype Request = Request(
    title: string,
    clientA: string,
    benchmarks: seq<string>,
    metrics: seq<string>,
    dims: seq<string>,
    start: string,
    end: string)

  /** `not client_a_property_id`: absent or empty. */
  predicate MissingClientA(s: Submission) {
    s.clientA.None? || s.clientA.value == ""
  }

  /** The title consists of whitespace only (or nothing). */
  ghost predicate BlankText(t: string) {
    forall i :: 0 <= i < |t| ==> Text.IsSpace(t[i])
  }

  /**
   * The if/elif chain picks the first failing check; afterwards the date
   * check, when `start > end` as strings, replaces whatever was picked.
   */
  function FormCheck(s: Submission): (r: Option<FormError>)
    ensures r == Some(InvalidDates) <==> Text.Less(s.end, s.start)
    ensures r == Some(BlankTitle) <==> BlankText(s.title) && !Text.Less(s.end, s.start)
    ensures r == Some(NoClientA) <==> !BlankText(s.title) && MissingClientA(s) && !Text.Less(s.end, s.start)
    ensures r == Some(NoBenchmarks) <==>
              !BlankText(s.title) && !MissingClientA(s) && s.benchmarks == [] && !Text.Less(s.end, s.start)
    ensures r == Some(ClientAIsBenchmark) <==>
              (!BlankText(s.title) && !MissingClientA(s) && s.benchmarks != []
               && s.clientA.value in s.benchmarks && !Text.Less(s.end, s.start))
    ensures r == Some(NoMetrics) <==>
              (!BlankText(s.title) && !MissingClientA(s) && s.benchmarks != []
               && s.clientA.value !in s.benchmarks && s.metrics == [] && !Text.Less(s.end, s.start))
    ensures r.None? <==>
              (!BlankText(s.title) && !MissingClientA(s) && s.benchmarks != []
               && s.clientA.value !in s.benchmarks && s.metrics != [] && !Text.Less(s.end, s.start))
  {
    Text.StripEmptyIffBlank(s.title);
    var chained :=
      if Text.Strip(s.title) == [] then Some(BlankTitle)
      else if MissingClientA(s) then Some(NoClientA)
      else if s.benchmarks == [] then Some(NoBenchmarks)
      else if s.clientA.value in s.benchmarks then Some(ClientAIsBenchmark)
      else if s.metrics == [] then Some(NoMetrics)
      else None;
    if Text.Less(s.end, s.start) then Some(InvalidDates) else chained
  }

  /**
   * The create and the update handler: normalise absent dimensions to the
   * empty list and run the validation chain; an accepted form is passed on
   * unchanged otherwise.
   */
  function Accept(s: Submission): (r: Result<Request, FormError>)
    ensures r.Err? <==> FormCheck(s).Some?
    ensures r.Err? ==> r.error == FormCheck(s).value
    ensures r.Ok? ==> r.value.dims == (if s.dims.Some? then s.dims.value else [])
    ensures r.Ok? ==> && r.value.title == s.title && s.clientA == Some(r.value.clientA)
                      && r.value.benchmarks == s.benchmarks && r.value.metrics == s.metrics
                      && r.value.start == s.start && r.value.end == s.end
    ensures r.Ok? ==> && !BlankText(r.value.title) && r.value.clientA != ""
                      && r.value.benchmarks != [] && r.value.clientA !in r.value.benchmarks
                      && r.value.metrics != [] && !Text.Less(r.value.end, r.value.start)
  {
    var dims := if s.dims.Some? then s.dims.value else [];
    match FormCheck(s)
    case Some(e) => Err(e)
    case None => Ok(Request(s.title, s.clientA.value, s.benchmarks, s.metrics, dims, s.start, s.end))
  }

  /* ---------- ownership ---------- */

  /** What the handler knows about the caller. */
  datatype Caller = Caller(hasCredentials: bool, email: Option<string>)

  /** A stored report, as far as the gate looks at it: the email it was generated by, possibly null. */
  datatype StoredReport = StoredReport(owner: Option<string>)

  /** Where a handler goes before doing its work. */
  datatype Gate =
    | ToLogin                     // redirect home with `error=not_logged_in`
    | NotFound(detail: string)    // HTTP 404
    | BackToList(message: string) // redirect to the list with a message
    | Proceed

  /** Credentials and a non-empty session email. */
  predicate LoggedIn(c: Caller) {
    c.hasCredentials && c.email.Some? && c.email.value != ""
  }

  /** The report exists and was generated by the caller. */
  predicate Owns(c: Caller, report: Option<StoredReport>) {
    c.email.Some? && report.Some? && report.value.owner == Some(c.email.value)
  }

  function EditGate(c: Caller, report: Option<StoredReport>): (g: Gate)
    ensures g == Proceed <==> LoggedIn(c) && Owns(c, report)
    ensures g == ToLogin <==> !LoggedIn(c)
  {
    if !LoggedIn(c) then ToLogin
    else if report.None? || report.value.owner != c.email then NotFound("Benchmark niet gevonden of geen eigenaar.")
    else Proceed
  }

  function UpdateGate(c: Caller, report: Option<StoredReport>): (g: Gate)
    ensures g == Proceed <==> LoggedIn(c) && Owns(c, report)
    ensures g == ToLogin <==> !LoggedIn(c)
  {
    if !LoggedIn(c) then ToLogin
    else if report.None? || report.value.owner != c.email then NotFound("Benchmark niet gevonden of geen eigenaar voor update.")
    else Proceed
  }

  function DeleteGate(c: Caller, report: Option<StoredReport>): (g: Gate)
    ensures g == Proceed <==> LoggedIn(c) && Owns(c, report)
    ensures g == ToLogin <==> !LoggedIn(c)
  {
    if c.email.None? || c.email.value == "" || !c.hasCredentials then ToLogin
    else if report.None? || report.value.owner != c.email then BackToList("Verwijderen mislukt: Benchmark niet gevonden of geen eigenaar.")
    else Proceed
  }

  /** The three gates let exactly the same callers through. */
  lemma GatesAgree(c: Caller, report: Option<StoredReport>)
    ensures (EditGate(c, report) == Proceed) == (UpdateGate(c, report) == Proceed) == (DeleteGate(c, report) == Proceed)
    ensures EditGate(c, report) == Proceed ==> report.Some? && report.value.owner.Some? && report.value.owner.value != ""
  {
  }

  /* ---------- edit page date range ---------- */

  /** One stored item: a JSON object whose values are strings or null. */
  type Item = map<string, Option<string>>

  /** The stored `benchmark_data_json`, as far as the edit page looks at it. */
  datatype StoredData = StoredList(items: seq<Item>) | StoredOther

  /** The non-null `"date"` values of the items, in item order. */
  function DatesListed(items: seq<Item>): (ds: seq<string>)
    ensures forall x :: x in ds <==> exists k :: 0 <= k < |items| && "date" in items[k] && items[k]["date"] == Some(x)
    decreases |items|
  {
    if items == [] then []
    else
      var k := |items| - 1;
      var rest := DatesListed(items[..k]);
      if "date" in items[k] && items[k]["date"].Some? then rest + [items[k]["date"].value] else rest
  }

  /** `list(set(xs))`: each element once, here in order of first occurrence. */
  function Dedupe(xs: seq<string>): (r: seq<string>)
    ensures forall x :: x in r <==> x in xs
    ensures Distinct(r)
    decreases |xs|
  {
    if xs == [] then []
    else
      var k := |xs| - 1;
      var rest := Dedupe(xs[..k]);
      if xs[k] in rest then rest else rest + [xs[k]]
  }

  function Identity(s: string): string {
    s
  }

  /** The stored data is a non-empty list whose first item has a `"date"` key. */
  predicate ListsDates(data: StoredData) {
    data.StoredList? && data.items != [] && "date" in data.items[0]
  }

  /** The stored dates the edit page sorts. */
  function StoredDates(data: StoredData): seq<string>
    requires ListsDates(data)
  {
    Text.SortBy(Dedupe(DatesListed(data.items)), Identity)
  }

  /**
   * `edit_benchmark_page`'s start and end dates: the least and the greatest
   * stored date when the stored data lists some, the defaults otherwise.
   */
  function EditDateRange(data: StoredData, defaultStart: string, defaultEnd: string): (r: (string, string))
    ensures !ListsDates(data) || DatesListed(data.items) == [] ==> r == (defaultStart, defaultEnd)
    ensures ListsDates(data) && DatesListed(data.items) != [] ==>
              && r.0 in DatesListed(data.items) && r.1 in DatesListed(data.items)
              && forall x :: x in DatesListed(data.items) ==> !Text.Less(x, r.0) && !Text.Less(r.1, x)
  {
    if ListsDates(data) then
      var all := StoredDates(data);
      if all != [] then
        assert forall x :: x in all <==> x in DatesListed(data.items) by {
          forall x ensures x in all <==> x in DatesListed(data.items) {
            assert x in all <==> x in multiset(all);
            assert x in Dedupe(DatesListed(data.items)) <==> x in multiset(Dedupe(DatesListed(data.items)));
          }
        }
        forall x | x in all ensures !Text.Less(x, all[0]) && !Text.Less(all[|all| - 1], x) {
          Text.SortedFirstIsLeast(all, Identity, x);
        }
        (all[0], all[|all| - 1])
      else
        assert Dedupe(DatesListed(data.items)) == [] by {
          assert |multiset(Dedupe(DatesListed(data.items)))| == |multiset(all)|;
        }
        (defaultStart, defaultEnd)
    else (defaultStart, defaultEnd)
  }

  /** When the range comes from stored dates, the start is never after the end. */
  lemma EditRangeOrdered(data: StoredData, defaultStart: string, defaultEnd: string)
    requires ListsDates(data) && DatesListed(data.items) != []
    ensures !Text.Less(EditDateRange(data, defaultStart, defaultEnd).1, EditDateRange(data, defaultStart, defaultEnd).0)
  {
    var r := EditDateRange(data, defaultStart, defaultEnd);
    assert r.1 in DatesListed(data.items);
  }
}
