/** What one run of the component's fetch effect commits, and which parts of
    the main panel the resulting state shows. The request itself is not
    modelled: its outcome is a value handed in by the caller. */
module Lifecycle {
  import opened Wrappers
  import opened Text
  import opened Catalog
  import opened Chart

  /** The body read by `res.json()`: either the `try` block throws with
      `reason` before it commits anything (the promise rejected, or a
      payload with a falsy `error` has no `prices` and `prices.length`
      dereferences `undefined`), or it is an object whose `error` field is
      the empty string when absent or falsy. */
  datatype Body =
    | Unreadable(reason: string)
    | Payload(error: string, dates: seq<string>, prices: seq<real>)

  /** How the request ended: `fetch` rejected, or a response arrived. */
  datatype Outcome =
    | NetworkFailure(reason: string)
    | Response(status: nat, body: Body)

  /** `res.ok`: the status is in the range 200 to 299, that is, it is of
      the 2xx class. */
  predicate IsOk(status: nat): (b: bool)
    ensures b <==> status / 100 == 2
  {
    200 <= status <= 299
  }

  const HttpPrefix := "HTTP "

  /** `HTTP ${res.status}`: the status is written in decimal after the
      prefix, so it can be read back from the message. */
  function HttpErrorMessage(status: nat): (m: string)
    ensures |m| > |HttpPrefix| && m[..|HttpPrefix|] == HttpPrefix
    ensures forall i :: |HttpPrefix| <= i < |m| ==> IsDigit(m[i])
    ensures ParseDecimal(m[|HttpPrefix|..]) == status
    ensures m[|HttpPrefix|] == '0' ==> status == 0
  {
    var m := HttpPrefix + Decimal(status);
    assert m[|HttpPrefix|..] == Decimal(status);
    ParseDecimalOfDecimal(status);
    m
  }

  /** Different statuses give different messages. */
  lemma HttpErrorMessageInjective(s: nat, t: nat)
    requires HttpErrorMessage(s) == HttpErrorMessage(t)
    ensures s == t
  {
  }

  /** What the `try` block ends with for `company`: the chart data it
      commits, or the message of the error it throws and the `catch`
      reports. */
  function FetchResult(company: Company, outcome: Outcome): (r: Result<ChartData, string>)
    ensures r.Success? <==>
      outcome.Response? && IsOk(outcome.status) && outcome.body.Payload? && outcome.body.error == ""
    ensures r.Success? ==>
      r.value == MakeChartData(company, outcome.body.dates, outcome.body.prices)
    ensures outcome.Response? && !IsOk(outcome.status) ==>
      r == Failure(HttpErrorMessage(outcome.status))
    ensures outcome.Response? && IsOk(outcome.status) && outcome.body.Payload? && outcome.body.error != "" ==>
      r == Failure(outcome.body.error)
    ensures outcome.Response? && IsOk(outcome.status) && outcome.body.Unreadable? ==>
      r == Failure(outcome.body.reason)
    ensures outcome.NetworkFailure? ==> r == Failure(outcome.reason)
  {
    match outcome
    case NetworkFailure(reason) => Failure(reason)
    case Response(status, body) =>
      if !IsOk(status) then Failure(HttpErrorMessage(status))
      else
        match body
        case Unreadable(reason) => Failure(reason)
        case Payload(error, dates, prices) =>
          if error != "" then Failure(error)
          else Success(MakeChartData(company, dates, prices))
  }

  /** An HTTP failure always carries a non-empty message, so it is shown. */
  lemma HttpFailureIsReported(company: Company, status: nat, body: Body)
    requires !IsOk(status)
    ensures FetchResult(company, Response(status, body)).Failure?
    ensures FetchResult(company, Response(status, body)).error != ""
    ensures ParseDecimal(FetchResult(company, Response(status, body)).error[|HttpPrefix|..]) == status
  {
  }

  /** The state the main panel is drawn from. `error` is `null` (None) or
      the message last reported. */
  datatype View = View(chartData: Option<ChartData>, loading: bool, error: Option<string>)

  /** JavaScript truthiness of `error`: null and the empty string are
      false, every other string is true. */
  predicate HasError(v: View): (b: bool)
    ensures v.error == None ==> !b
    ensures v.error == Some("") ==> !b
    ensures v.error.Some? && |v.error.value| > 0 ==> b
  {
    v.error.Some? && v.error.value != ""
  }

  /** `{chartData && !loading && ...}`: the "Live Data" badge, which does
      not look at `error`: stale chart data with an error still shows it. */
  predicate ShowsLiveBadge(v: View): (b: bool)
    ensures b ==> v.chartData.Some?
    ensures v.loading ==> !b
    ensures v.chartData.Some? && !v.loading && HasError(v) ==> b
  {
    v.chartData.Some? && !v.loading
  }

  /** `{error && ...}`: the error panel, shown whatever else is in state. */
  predicate ShowsErrorPanel(v: View): (b: bool)
    ensures b ==> v.error.Some?
    ensures v.error == None ==> !b
    ensures b <==> HasError(v)
  {
    HasError(v)
  }

  /** `{chartData && !loading && !error && ...}`: the price chart, which
      only appears together with the badge and never with an error. */
  predicate ShowsChart(v: View): (b: bool)
    ensures b ==> ShowsLiveBadge(v) && !ShowsErrorPanel(v) && !v.loading
  {
    v.chartData.Some? && !v.loading && !HasError(v)
  }

  /** `{loading && ...}`: the spinner, which hides the chart and the badge. */
  predicate ShowsSpinner(v: View): (b: bool)
    ensures b ==> !ShowsChart(v) && !ShowsLiveBadge(v)
  {
    v.loading
  }

  /** The chart never shares the panel with the spinner or the error, and
      whenever it is shown the badge is too. */
  lemma ChartExcludesOthers(v: View)
    requires ShowsChart(v)
    ensures !ShowsSpinner(v) && !ShowsErrorPanel(v) && ShowsLiveBadge(v)
  {
  }

  /** `setLoading(true); setError(null)`: the old chart data is kept but
      hidden; only the spinner shows. */
  function StartLoading(v: View): (w: View)
    ensures w.chartData == v.chartData
    ensures ShowsSpinner(w)
    ensures !ShowsErrorPanel(w) && !ShowsChart(w) && !ShowsLiveBadge(w)
  {
    View(v.chartData, true, None)
  }

  /** The rest of the effect: `setChartData` on success or `setError` in the
      `catch`, then `setLoading(false)` in the `finally`. */
  function Commit(v: View, r: Result<ChartData, string>): (w: View)
    ensures !ShowsSpinner(w)
    ensures r.Success? ==> w.chartData == Some(r.value) && w.error == v.error
    ensures r.Failure? ==> w.chartData == v.chartData && w.error == Some(r.error)
  {
    match r
    case Success(d) => View(Some(d), false, v.error)
    case Failure(message) => View(v.chartData, false, Some(message))
  }

  /** One whole run of the effect for `company` with the given outcome. */
  function Cycle(v: View, company: Company, outcome: Outcome): View
  {
    Commit(StartLoading(v), FetchResult(company, outcome))
  }

  /** What the panel shows after a run: never the spinner; the error panel
      exactly when the load failed with a non-empty message; the chart when
      the load succeeded, with the new data. A failure keeps the previous
      chart data, so the "Live Data" badge stays up beside the error
      whenever an earlier load had succeeded, and a failure whose message is
      empty (falsy) even leaves the previous chart on screen. */
  lemma CycleShows(v: View, company: Company, outcome: Outcome)
    ensures !ShowsSpinner(Cycle(v, company, outcome))
    ensures ShowsChart(Cycle(v, company, outcome)) <==>
      FetchResult(company, outcome).Success? ||
      (FetchResult(company, outcome).error == "" && v.chartData.Some?)
    ensures FetchResult(company, outcome).Success? ==>
      Cycle(v, company, outcome).chartData == Some(FetchResult(company, outcome).value)
    ensures ShowsErrorPanel(Cycle(v, company, outcome)) <==>
      FetchResult(company, outcome).Failure? && FetchResult(company, outcome).error != ""
    ensures FetchResult(company, outcome).Failure? ==>
      Cycle(v, company, outcome).chartData == v.chartData
    ensures ShowsLiveBadge(Cycle(v, company, outcome)) <==>
      FetchResult(company, outcome).Success? || v.chartData.Some?
  {
  }
}
