/** The `CompanyStockDashboard` component: its state variables as fields, its
    event handlers and its fetch effect as methods. Each `setX` call of the
    source is an assignment to field `x`; a re-render between the steps is
    not modelled. */
module Component {
  import opened Wrappers
  import opened Catalog
  import opened Chart
  import opened Lifecycle

  class Dashboard {
    var selected: Company
    var chartData: Option<ChartData>
    var loading: bool
    var error: Option<string>
    var searchTerm: string
    var sidebarOpen: bool
    /** React has scheduled the effect keyed on `selected` to run. */
    var fetchScheduled: bool

    /** The fields the main panel is drawn from. */
    function CurrentView(): View
      reads this
    {
      View(chartData, loading, error)
    }

    /** The companies listed in the sidebar for the current search term. */
    function Listed(): (r: seq<Company>)
      reads this
      ensures forall c :: c in r <==> c in Companies() && Matches(c, searchTerm)
      ensures IsSubsequence(r, Companies())
    {
      FilteredCompanies(searchTerm)
    }

    /** The initial state: the first catalog entry is selected, nothing is
        loaded, and the mount schedules the first fetch. */
    constructor ()
      ensures selected == Companies()[0]
      ensures chartData == None && !loading && error == None
      ensures searchTerm == "" && !sidebarOpen
      ensures fetchScheduled
    {
      selected := Companies()[0];
      chartData := None;
      loading := false;
      error := None;
      searchTerm := "";
      sidebarOpen := false;
      fetchScheduled := true;
    }

    /** Typing in the search box. */
    method SetSearchTerm(term: string)
      modifies this
      ensures searchTerm == term
      ensures Listed() == FilteredCompanies(term)
      ensures selected == old(selected) && CurrentView() == old(CurrentView())
      ensures sidebarOpen == old(sidebarOpen) && fetchScheduled == old(fetchScheduled)
    {
      searchTerm := term;
    }

    /** The menu button. */
    method OpenSidebar()
      modifies this
      ensures sidebarOpen
      ensures selected == old(selected) && CurrentView() == old(CurrentView())
      ensures searchTerm == old(searchTerm) && fetchScheduled == old(fetchScheduled)
    {
      sidebarOpen := true;
    }

    /** The overlay and the close button. */
    method CloseSidebar()
      modifies this
      ensures !sidebarOpen
      ensures selected == old(selected) && CurrentView() == old(CurrentView())
      ensures searchTerm == old(searchTerm) && fetchScheduled == old(fetchScheduled)
    {
      sidebarOpen := false;
    }

    /** `handleCompanySelect`: select the company, close the sidebar, and
        so schedule a fetch for it. */
    method Select(company: Company)
      modifies this
      ensures selected == company && !sidebarOpen && fetchScheduled
      ensures CurrentView() == old(CurrentView()) && searchTerm == old(searchTerm)
    {
      selected := company;
      sidebarOpen := false;
      fetchScheduled := true;
    }

    /** The Refresh button: re-select a copy of the selected company. The
        value is unchanged, yet a new fetch is scheduled. */
    method Refresh()
      modifies this
      ensures selected == old(selected) && fetchScheduled
      ensures CurrentView() == old(CurrentView())
      ensures searchTerm == old(searchTerm) && sidebarOpen == old(sidebarOpen)
    {
      var copy := Company(selected.name, selected.symbol);
      selected := copy;
      fetchScheduled := true;
    }

    /** The synchronous start of `fetchData`: show the spinner, clear the
        error, and issue the request for the selected company, which the
        effect's closure keeps. The old chart data stays in place. */
    method StartFetch() returns (company: Company)
      requires fetchScheduled
      modifies this
      ensures company == selected == old(selected)
      ensures CurrentView() == StartLoading(old(CurrentView()))
      ensures chartData == old(chartData)
      ensures !fetchScheduled
      ensures searchTerm == old(searchTerm) && sidebarOpen == old(sidebarOpen)
    {
      fetchScheduled := false;
      company := selected;
      loading := true;
      error := None;
    }

    /** The rest of `fetchData` once the request for `company` has ended
        with `outcome`: the `try` block's checks in order, the `catch`,
        and the `finally`. */
    method FinishFetch(company: Company, outcome: Outcome)
      modifies this
      ensures CurrentView() == Commit(old(CurrentView()), FetchResult(company, outcome))
      ensures selected == old(selected) && searchTerm == old(searchTerm)
      ensures sidebarOpen == old(sidebarOpen) && fetchScheduled == old(fetchScheduled)
    {
      match outcome {
        case NetworkFailure(reason) =>
          error := Some(reason);
        case Response(status, body) =>
          if !IsOk(status) {
            error := Some(HttpErrorMessage(status));
          } else {
            match body {
              case Unreadable(reason) =>
                error := Some(reason);
              case Payload(message, dates, prices) =>
                if message != "" {
                  error := Some(message);
                } else {
                  chartData := Some(MakeChartData(company, dates, prices));
                }
            }
          }
      }
      loading := false;
    }

    /** The effect run to completion with no other event in between. */
    method RunFetch(outcome: Outcome)
      requires fetchScheduled
      modifies this
      ensures CurrentView() == Cycle(old(CurrentView()), old(selected), outcome)
      ensures !fetchScheduled
      ensures selected == old(selected) && searchTerm == old(searchTerm)
      ensures sidebarOpen == old(sidebarOpen)
    {
      var company := StartFetch();
      FinishFetch(company, outcome);
    }
  }

  /** A client of the class: pressing Refresh twice, with the effect running
      after each press, runs two fetch cycles for the same company, and the
      panel follows the second outcome. */
  method RefreshTwice(first: Outcome, second: Outcome)
  {
    var d := new Dashboard();
    var company := d.selected;
    d.Refresh();
    assert d.fetchScheduled;
    d.RunFetch(first);
    assert !d.fetchScheduled;
    var afterFirst := d.CurrentView();
    d.Refresh();
    assert d.fetchScheduled && d.selected == company;
    d.RunFetch(second);
    assert d.CurrentView() == Cycle(afterFirst, company, second);
  }

  /** A client of the class: selecting Infosys and receiving a rising
      two-day history shows a green chart of those two points. */
  method SelectInfosys()
  {
    var d := new Dashboard();
    d.OpenSidebar();
    var infosys := Company("Infosys", "INFY.NS");
    d.Select(infosys);
    assert !d.sidebarOpen && d.fetchScheduled;
    var dates := ["2024-01-01", "2024-01-02"];
    var prices := [1500.0, 1520.0];
    d.RunFetch(Response(200, Payload("", dates, prices)));
    assert IsPositive(prices);
    assert d.chartData == Some(MakeChartData(infosys, dates, prices));
    assert d.chartData.value.borderColor == PositiveColor;
    assert ShowsChart(d.CurrentView()) && ShowsLiveBadge(d.CurrentView());
  }
}
