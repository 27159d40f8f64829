# Company stock dashboard, modelled in Dafny

This project models the logic of the `CompanyStockDashboard` React component
of a single-page dashboard for the share-price history of 49 Indian listed
companies. It covers four things:

- the fixed company catalog and the sidebar's case-insensitive search filter
  (`Catalog`, helped by the string operations in `Text`);
- the trend decision and the trend colours of a loaded price series
  (`Chart`);
- what one run of the fetch effect commits for each way the request can
  end, and which parts of the main panel (spinner, error panel, chart,
  "Live Data" badge) the resulting state shows (`Lifecycle`);
- the component itself as a class whose fields are its state variables and
  whose methods are its event handlers and its fetch effect (`Component`).

The network request is not modelled. Its outcome is a value handed to the
model: `fetch` rejected, a non-2xx status, a body that cannot be read, or a
JSON payload with an optional `error` and the `dates`/`prices` arrays.

The fetch effect is split in two methods. `StartFetch` is the synchronous
part before the `await`. `FinishFetch` is the rest, for the company that the
effect's closure captured. `RunFetch` runs both with nothing in between.
The field `fetchScheduled` records that React has scheduled the effect on
`selected`. It is set when the component mounts, on a selection and on
Refresh, and it is cleared when the effect starts. The effect can only start
while it is set.

The model keeps these behaviours of the code:

- Starting a fetch or failing one does not clear `chartData`. The old data
  stays in state and is only hidden by the render guards.
- There is no guard against stale responses. `FinishFetch` commits whatever
  outcome it is given for whichever company was captured.
- The ticker is put into the request path as it is, with no URL encoding.
- `error` and `chartData` are independent fields rather than one tagged
  state. So after a failure, the "Live Data" badge stays up beside the error
  panel if an earlier load had succeeded (`Lifecycle.CycleShows`).

## Model

| member | source | states |
|---|---|---|
| `Catalog.Companies` | src/pages/CompanyStockDashboard.jsx:7-57 | the catalog holds 49 companies; its body is the source list of (name, symbol) pairs in order |
| `Text.ToLower` | src/pages/CompanyStockDashboard.jsx:69-70 | `toLowerCase` keeps the length and lower-cases each ASCII character in place |
| `Text.Includes` | src/pages/CompanyStockDashboard.jsx:69-70 | `includes` finds the empty query in every string and never finds a query longer than the string |
| `Catalog.Matches` | src/pages/CompanyStockDashboard.jsx:69-70 | the empty search term matches every company |
| `Catalog.MatchesIff` | src/pages/CompanyStockDashboard.jsx:69-70 | a company matches iff the lower-cased term occurs in its lower-cased name or in its lower-cased symbol |
| `Text.IncludesIff` | src/pages/CompanyStockDashboard.jsx:69-70 | `includes(q)` holds exactly when `q` occurs at some index of the string |
| `Catalog.Filter` | src/pages/CompanyStockDashboard.jsx:68-71 | the filter result is no longer than the catalog and holds only catalog entries that match the query |
| `Catalog.FilteredCompanies` | src/pages/CompanyStockDashboard.jsx:68-71 | the sidebar list holds exactly the catalog entries whose lower-cased name or symbol contains the lower-cased query, as a subsequence of the catalog |
| `Catalog.FilterMembership` | src/pages/CompanyStockDashboard.jsx:68-71 | an entry is in the result iff it is in the input and the query matches its name or symbol |
| `Catalog.FilterCount` | src/pages/CompanyStockDashboard.jsx:68 | each matching entry occurs as often as in the input and each other entry not at all, so nothing is added or duplicated |
| `Catalog.FilterIsSubsequence` | src/pages/CompanyStockDashboard.jsx:68 | the result keeps the input's order |
| `Catalog.FilterEmptyQuery` | src/pages/CompanyStockDashboard.jsx:68-71 | the empty search term lists the whole catalog unchanged |
| `Catalog.FilterCaseInsensitive` | src/pages/CompanyStockDashboard.jsx:69-70 | two queries that agree up to ASCII case list the same entries |
| `Catalog.FilterLowerQuery` | src/pages/CompanyStockDashboard.jsx:69-70 | lower-casing the search term beforehand lists the same entries |
| `Catalog.FilterNarrows` | src/pages/CompanyStockDashboard.jsx:68-71 | lengthening the search term only removes entries: the new list is the old list filtered again |
| `Catalog.FilterDistinctSymbols` | src/pages/CompanyStockDashboard.jsx:68 | if the input's symbols are distinct, so are the result's (the list keys at line 231) |
| `Chart.IsPositive` | src/pages/CompanyStockDashboard.jsx:90 | the trend is positive only for two or more points and, for a non-empty series, iff the last price is above the first; equal endpoints and the empty series are negative |
| `Chart.TrendColor` | src/pages/CompanyStockDashboard.jsx:99 | the colour is `#10b981` iff the trend is positive and `#ef4444` iff it is not |
| `Chart.TrendFill` | src/pages/CompanyStockDashboard.jsx:100-102 | the green gradient iff the trend is positive, the red one iff not |
| `Chart.DatasetLabel` | src/pages/CompanyStockDashboard.jsx:96 | the series label is the company name, then ` (`, then the symbol, then `)` |
| `Chart.MakeChartData` | src/pages/CompanyStockDashboard.jsx:92-112 | the committed chart data has the dates as labels and the prices as series, and the line and point colour and the fill are green iff the trend is positive and red iff not |
| `Text.Decimal` | src/pages/CompanyStockDashboard.jsx:81 | the status is written as a non-empty run of digits with no leading zero |
| `Text.ParseDecimalOfDecimal` | src/pages/CompanyStockDashboard.jsx:81 | reading the written status back gives the status |
| `Lifecycle.IsOk` | src/pages/CompanyStockDashboard.jsx:81 | `res.ok` holds exactly for the statuses of the 2xx class |
| `Lifecycle.HttpErrorMessage` | src/pages/CompanyStockDashboard.jsx:81 | the message is `HTTP ` followed by the shortest numeral of the status (no leading zero), which reads back as the status |
| `Lifecycle.HttpErrorMessageInjective` | src/pages/CompanyStockDashboard.jsx:81 | different statuses give different messages |
| `Lifecycle.FetchResult` | src/pages/CompanyStockDashboard.jsx:78-114 | the load succeeds iff the response is ok and its payload has no truthy `error`, and then the chart data is built from `dates` and `prices`; a non-ok status fails with `HTTP <status>`, a payload error fails with that message, an unreadable body or a rejected fetch with its reason |
| `Lifecycle.HttpFailureIsReported` | src/pages/CompanyStockDashboard.jsx:81 | a non-ok status always fails with a non-empty message that carries the status |
| `Lifecycle.HasError` | src/pages/CompanyStockDashboard.jsx:308 | `error` is truthy for a non-empty message and falsy for null and for the empty string |
| `Lifecycle.ShowsSpinner` | src/pages/CompanyStockDashboard.jsx:299 | while loading, the spinner is shown and the chart and badge are not |
| `Lifecycle.ShowsErrorPanel` | src/pages/CompanyStockDashboard.jsx:308 | the error panel is shown iff `error` is truthy, whatever else is in state |
| `Lifecycle.ShowsChart` | src/pages/CompanyStockDashboard.jsx:320 | the chart is shown only with the badge, without the error panel and not while loading |
| `Lifecycle.ShowsLiveBadge` | src/pages/CompanyStockDashboard.jsx:270 | the badge needs chart data and is hidden while loading, but shows even when there is an error |
| `Lifecycle.ChartExcludesOthers` | src/pages/CompanyStockDashboard.jsx:270-320 | the chart is never shown with the spinner or the error panel, and the badge is shown whenever the chart is |
| `Lifecycle.StartLoading` | src/pages/CompanyStockDashboard.jsx:75-76 | starting a fetch keeps the chart data, shows the spinner, and hides the error panel, the chart and the badge |
| `Lifecycle.Commit` | src/pages/CompanyStockDashboard.jsx:92-116 | after the effect the spinner is off; success replaces the chart data and keeps the error; failure sets the error and keeps the chart data |
| `Lifecycle.CycleShows` | src/pages/CompanyStockDashboard.jsx:73-121 | after a run: no spinner; the error panel iff it failed with a non-empty message; a failure keeps the old chart data; the badge iff it succeeded or old data exists; the chart iff it succeeded or it failed with an empty message over old data |
| `Component.Dashboard.Listed` | src/pages/CompanyStockDashboard.jsx:68-71 | the sidebar lists exactly the matching catalog entries, in catalog order |
| `Component.Dashboard.constructor` | src/pages/CompanyStockDashboard.jsx:60-65 | the first catalog entry is selected, nothing is loaded or loading, no error, empty search, sidebar closed, first fetch scheduled |
| `Component.Dashboard.SetSearchTerm` | src/pages/CompanyStockDashboard.jsx:219 | typing sets the search term and changes nothing else |
| `Component.Dashboard.OpenSidebar` | src/pages/CompanyStockDashboard.jsx:261 | the menu button opens the sidebar and changes nothing else |
| `Component.Dashboard.CloseSidebar` | src/pages/CompanyStockDashboard.jsx:205 | the close button closes the sidebar and changes nothing else |
| `Component.Dashboard.Select` | src/pages/CompanyStockDashboard.jsx:171-174 | selecting a company makes it the selection, closes the sidebar and schedules a fetch |
| `Component.Dashboard.Refresh` | src/pages/CompanyStockDashboard.jsx:279 | Refresh keeps the same company selected yet schedules a new fetch |
| `Component.Dashboard.StartFetch` | src/pages/CompanyStockDashboard.jsx:74-76 | once the effect is scheduled, it captures the selected company, sets `loading`, clears `error` and leaves `chartData` as it was |
| `Component.Dashboard.FinishFetch` | src/pages/CompanyStockDashboard.jsx:78-117 | the state after the request is the commit of `FetchResult` for the captured company; selection, search and sidebar are unchanged |
| `Component.Dashboard.RunFetch` | src/pages/CompanyStockDashboard.jsx:73-121 | once the effect is scheduled, a whole run leaves the panel state given by `Lifecycle.Cycle` for the selected company |

## Left out

- The HTTP request, `res.json()` and the hard-coded service URL (lines 79-82) are network I/O. The model receives the request's outcome as a parameter.
- Concurrent requests are not tracked. `FinishFetch` may be called in any order for any captured company, as the source allows, but the model does not follow which requests are in flight or React's event loop.
- Component.Dashboard.Select: schedules a fetch on every call. In React, re-selecting the very object already held in `selected` does not re-run the effect, because dependencies are compared by identity; object identity is not modelled.
- Component.Dashboard.Refresh: the object spread at line 279 is modelled as a value copy plus a scheduled fetch.
- The chart options (lines 123-169), including the `window.innerWidth < 768` font and tick sizes, and the fixed dataset styling numbers (lines 98, 103-104, 106-109) are display configuration.
- JSX layout, Tailwind classes, icons, the highlight of the selected entry (line 228) and the spinning Refresh icon (line 282) are presentation only.
- src/App.jsx only mounts the component.
- Text.ToLower: ASCII lower-casing only. Every catalog string is ASCII, but a non-ASCII query character whose Unicode lower case is ASCII (the Kelvin sign lower-cases to `k`) would match in the browser and not in the model.
- Chart.IsPositive: prices are real numbers. Floating-point `NaN` and infinities are not modelled.
- Lifecycle.FetchResult: the payload's `error` is a string, with the empty string for absent or falsy. A truthy non-string `error` is not modelled. A payload whose `error` is falsy and which has no `prices` makes `prices.length` dereference `undefined` and throw; it is represented by `Unreadable` with the thrown message. A payload with a truthy `error` fails with that message whatever else it holds, which is `Payload` with that `error`. A payload without `dates` is not modelled.
- The distinctness of the catalog's 49 tickers is not proved for the literal list. `Catalog.FilterDistinctSymbols` states what the filter preserves for any list with distinct tickers.
