/**
 One request of the `dashboard` view (main.py), from the cached frame to
 the data handed to the template: the filter block, the chart tables, the
 insights and the two drop-down lists. When no filter step runs, `df` is the
 cached frame itself, so the `hour` column that `generate_insights` writes
 lands in the cache.
 */
module Dashboard {
  import opened Wrappers
  import opened Flights
  import opened Text
  import opened Filters
  import opened Charts
  import opened Insights
  import Extraction

  /** `sorted(df['route'].unique())`, or [] without a `route` column. */
  function RouteOptions(columns: set<Column>, rows: seq<FlightRecord>): (r: seq<string>)
    ensures StrictlySorted(r)
    ensures forall y :: y in r <==> Route in columns && y in RoutesOf(rows)
  {
    if Route in columns then SortedUnique(RoutesOf(rows)) else []
  }

  /** `sorted(df['airline'].unique())`, or [] without an `airline` column. */
  function AirlineOptions(columns: set<Column>, rows: seq<FlightRecord>): (r: seq<string>)
    ensures StrictlySorted(r)
    ensures forall y :: y in r <==> Airline in columns && y in AirlinesOf(rows)
  {
    if Airline in columns then SortedUnique(AirlinesOf(rows)) else []
  }

  /** What the view passes to the template, apart from the flight table. */
  datatype Page = Page(charts: ChartTables, insights: InsightFields, routes: seq<string>, airlines: seq<string>)

  /** `default_response`: no chart, 'No data' for every insight, no
      route or airline to choose from. */
  const DefaultPage: Page := Page(ChartTables(None, None), InsightFields("No data", "No data", "No data"), [], [])

  /** The price-trend chart raises: it is only attempted on a non-empty frame
      with `datetime` and `price` columns, and `pd.Grouper(key='datetime')`
      rejects a `datetime` column that holds text, as a frame built from the
      API does. */
  predicate TrendFails(columns: set<Column>, shown: seq<FlightRecord>) {
    && shown != [] && DateTime in columns && Price in columns
    && exists i :: 0 <= i < |shown| && shown[i].datetime.Text?
  }

  /** The page computed from the filtered rows when nothing raises. */
  function ComputedPage(columns: set<Column>, shown: seq<FlightRecord>, toHour: string -> HourParse): Page {
    Page(ChartsOf(columns, shown), InsightsOf(columns, shown, toHour),
         RouteOptions(columns, shown), AirlineOptions(columns, shown))
  }

  /** The page for a frame and a submitted form: computed on the filtered
      rows, or the default page when the price-trend chart raises. */
  function PageOf(columns: set<Column>, rows: seq<FlightRecord>, form: Criteria,
                  parse: string -> Option<real>, toHour: string -> HourParse): Page
  {
    var shown := Filter(columns, rows, form, parse);
    if TrendFails(columns, shown) then DefaultPage else ComputedPage(columns, shown, toHour)
  }

  /** The page the view evidently means to serve: the price trend grouped
      on converted times, so that nothing raises. */
  function IntendedPageOf(columns: set<Column>, rows: seq<FlightRecord>, form: Criteria,
                          parse: string -> Option<real>, toHour: string -> HourParse): Page
  {
    ComputedPage(columns, Filter(columns, rows, form, parse), toHour)
  }

  /** The body of `dashboard` after `fetch_flight_data()`. `cache` is the
      memoised frame. When a filter step runs, the view works on a new frame
      and the cache is left as it was; otherwise it works on the cache, which
      receives the `hour` column, unless the price-trend chart raises first. */
  method ServeDashboard(cache: Frame, form: Criteria, parse: string -> Option<real>, toHour: string -> HourParse)
    returns (page: Page)
    requires cache.Valid()
    modifies cache
    ensures page == PageOf(old(cache.columns), old(cache.rows), form, parse, toHour)
    ensures cache.Valid() && cache.rows == old(cache.rows)
    ensures Applies(old(cache.columns), form, parse) ==> unchanged(cache)
    ensures TrendFails(old(cache.columns), Filter(old(cache.columns), old(cache.rows), form, parse)) ==> unchanged(cache)
    ensures !Applies(old(cache.columns), form, parse) && !TrendFails(old(cache.columns), old(cache.rows))
              && DateTime in old(cache.columns) && HourColumn(old(cache.rows), toHour).Some? ==>
              cache.columns == old(cache.columns) + {Hour} && cache.hours == HourColumn(old(cache.rows), toHour).value
    ensures !(DateTime in old(cache.columns) && HourColumn(old(cache.rows), toHour).Some?) ==> unchanged(cache)
  {
    var columns, rows := cache.columns, cache.rows;
    var shown := Filter(columns, rows, form, parse);
    var df: Frame;
    if Applies(columns, form, parse) {
      df := new Frame(columns - {Hour}, shown);
      HourColumnIgnored(columns, shown, toHour);
    } else {
      NoStepKeepsRows(columns, rows, form, parse);
      df := cache;
    }
    var charts := ChartsOf(df.columns, df.rows);
    if TrendFails(df.columns, df.rows) {
      page := DefaultPage;
    } else {
      // The lists read only the `route` and `airline` columns, which the
      // insights leave alone, so they are taken before the `hour` column is
      // written.
      var routes, airlines := RouteOptions(df.columns, df.rows), AirlineOptions(df.columns, df.rows);
      var insights := GenerateInsights(df, toHour);
      page := Page(charts, insights, routes, airlines);
    }
  }

  /** The `hour` column plays no part in what the page shows. */
  lemma HourColumnIgnored(columns: set<Column>, rows: seq<FlightRecord>, toHour: string -> HourParse)
    ensures ChartsOf(columns - {Hour}, rows) == ChartsOf(columns, rows)
    ensures InsightsOf(columns - {Hour}, rows, toHour) == InsightsOf(columns, rows, toHour)
    ensures RouteOptions(columns - {Hour}, rows) == RouteOptions(columns, rows)
    ensures AirlineOptions(columns - {Hour}, rows) == AirlineOptions(columns, rows)
  {
    var fewer := columns - {Hour};
    assert DateTime in fewer <==> DateTime in columns;
    assert Route in fewer <==> Route in columns;
    assert Price in fewer <==> Price in columns;
    assert Airline in fewer <==> Airline in columns;
  }

  /** With no filter step to run, the filtered rows are the rows. */
  lemma NoStepKeepsRows(columns: set<Column>, rows: seq<FlightRecord>, form: Criteria, parse: string -> Option<real>)
    requires !Applies(columns, form, parse)
    ensures Filter(columns, rows, form, parse) == rows
  {
  }

  /** With nothing filled in, the page covers every record, and the lists
      offer every route and airline of the frame; unless the frame has
      records with text times and a `price` column, in which case the
      price-trend chart raises and the page is the default one. */
  lemma BlankFormShowsAll(columns: set<Column>, rows: seq<FlightRecord>, parse: string -> Option<real>, toHour: string -> HourParse)
    ensures var page := PageOf(columns, rows, Blank, parse, toHour);
      && (TrendFails(columns, rows) ==> page == DefaultPage)
      && (!TrendFails(columns, rows) ==>
            && page.charts == ChartsOf(columns, rows)
            && page.insights == InsightsOf(columns, rows, toHour)
            && (forall r :: r in page.routes <==> Route in columns && r in RoutesOf(rows))
            && (forall a :: a in page.airlines <==> Airline in columns && a in AirlinesOf(rows)))
  {
    FilterBlankIsIdentity(columns, rows, parse);
  }

  /** The lists are built from the filtered rows: after filtering on a route,
      the route list offers that route alone (or nothing, when no flight is
      left). */
  lemma RouteFilterNarrowsRouteList(columns: set<Column>, rows: seq<FlightRecord>, form: Criteria,
                                   parse: string -> Option<real>, toHour: string -> HourParse)
    requires Route in columns && form.route != ""
    ensures forall r :: r in PageOf(columns, rows, form, parse, toHour).routes ==> r == form.route
  {
    var shown := Filter(columns, rows, form, parse);
    FilterMeetsCriteria(columns, rows, form, parse);
    forall r | r in RouteOptions(columns, shown)
      ensures r == form.route
    {
      var j :| 0 <= j < |shown| && RoutesOf(shown)[j] == r;
      assert shown[j] in shown;
    }
  }

  /** A form that matches no flight: no chart is drawn, the lists are empty,
      and on a frame with a `datetime` column `idxmax` on the empty hour
      column raises, so every insight reads 'Data unavailable'. */
  lemma NothingMatches(columns: set<Column>, rows: seq<FlightRecord>, form: Criteria,
                       parse: string -> Option<real>, toHour: string -> HourParse)
    requires Filter(columns, rows, form, parse) == []
    ensures var page := PageOf(columns, rows, form, parse, toHour);
      && page.charts == ChartTables(None, None)
      && page.routes == [] && page.airlines == []
      && (DateTime in columns ==> page.insights == Unavailable)
  {
    assert HourColumn([], toHour) == Some([]);
  }

  /** Rows that the filter keeps come from the frame. */
  lemma ShownFromRows(columns: set<Column>, rows: seq<FlightRecord>, form: Criteria, parse: string -> Option<real>, x: FlightRecord)
    requires x in Filter(columns, rows, form, parse)
    ensures x in rows
  {
    FilterKeepsAdmitted(columns, rows, form, parse);
    assert multiset(Filter(columns, rows, form, parse))[x] > 0;
  }

  /** With data from the API the page never shows a chart, a route or an
      airline: either no flight passes the filter, or the price-trend chart
      raises on the text times and the default page, with 'No data' for
      every insight, is served. */
  lemma ApiDataNeverShown(response: Extraction.Response, form: Criteria,
                          parse: string -> Option<real>, toHour: string -> HourParse)
    requires Extraction.Fetch(response).Fetched?
    ensures var f := Extraction.Fetch(response);
      var page := PageOf(f.columns, f.rows, form, parse, toHour);
      && page.charts == ChartTables(None, None)
      && page.routes == [] && page.airlines == []
      && (Filter(f.columns, f.rows, form, parse) != [] ==> page == DefaultPage)
  {
    var f := Extraction.Fetch(response);
    var shown := Filter(f.columns, f.rows, form, parse);
    if shown == [] {
      NothingMatches(f.columns, f.rows, form, parse, toHour);
    } else {
      ShownFromRows(f.columns, f.rows, form, parse, shown[0]);
      var j :| 0 <= j < |f.rows| && f.rows[j] == shown[0];
      assert shown[0].datetime.Text?;
      assert TrendFails(f.columns, shown);
    }
  }

  /** The intended page for API data: once a flight passes the filter, both
      charts are drawn from the filtered rows and the lists offer their
      routes and airlines. */
  lemma IntendedPageShowsData(response: Extraction.Response, form: Criteria,
                              parse: string -> Option<real>, toHour: string -> HourParse)
    requires Extraction.Fetch(response).Fetched?
    requires var f := Extraction.Fetch(response); Filter(f.columns, f.rows, form, parse) != []
    ensures var f := Extraction.Fetch(response);
      var shown := Filter(f.columns, f.rows, form, parse);
      var page := IntendedPageOf(f.columns, f.rows, form, parse, toHour);
      && page.charts == ChartTables(Some(RouteCounts(shown)), Some(AirlineCounts(shown)))
      && (forall r :: r in page.routes <==> r in RoutesOf(shown))
      && (forall a :: a in page.airlines <==> a in AirlinesOf(shown))
  {
    var f := Extraction.Fetch(response);
    var shown := Filter(f.columns, f.rows, form, parse);
    ShownFromRows(f.columns, f.rows, form, parse, shown[0]);
    assert f.columns == RecordColumns;
  }
}
