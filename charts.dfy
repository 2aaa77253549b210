/**
 The tables behind the dashboard's charts (main.py): the five busiest routes
 and every airline's number of flights. Neither is drawn when the filtered
 frame is empty. The plotly figures themselves, and the price-trend chart,
 are not modelled.
 */
module Charts {
  import opened Wrappers
  import opened Flights
  import opened Tables
  import Generator

  /** How many routes the route chart shows. */
  const TopRoutes: nat := 5

  /** `df['route'].value_counts().head(5)`. */
  function RouteCounts(rows: seq<FlightRecord>): seq<Counted<string>> {
    Take(ValueCounts(RoutesOf(rows)), TopRoutes)
  }

  /** `df['airline'].value_counts()`. */
  function AirlineCounts(rows: seq<FlightRecord>): seq<Counted<string>> {
    ValueCounts(AirlinesOf(rows))
  }

  /** The data of the `charts` dict: a table per chart that is drawn. */
  datatype ChartTables = ChartTables(routes: Option<seq<Counted<string>>>, airlines: Option<seq<Counted<string>>>)

  /** The chart block: nothing at all for an empty frame; otherwise a route
      chart when there is a `route` column and an airline chart when there is
      an `airline` column. */
  function ChartsOf(columns: set<Column>, rows: seq<FlightRecord>): (c: ChartTables)
    ensures c.routes.Some? <==> rows != [] && Route in columns
    ensures c.airlines.Some? <==> rows != [] && Airline in columns
    ensures c.routes.Some? ==> c.routes.value == RouteCounts(rows)
    ensures c.airlines.Some? ==> c.airlines.value == AirlineCounts(rows)
  {
    if rows == [] then ChartTables(None, None)
    else ChartTables(
      if Route in columns then Some(RouteCounts(rows)) else None,
      if Airline in columns then Some(AirlineCounts(rows)) else None)
  }

  /** The route chart shows at most five different routes of the rows, each
      with its number of flights, busiest first; a route it leaves out has
      no more flights than any it shows, and when it shows fewer than five,
      it shows every route. */
  lemma RouteCountsRanked(rows: seq<FlightRecord>)
    ensures var t, routes := RouteCounts(rows), RoutesOf(rows);
      && |t| <= TopRoutes
      && (forall i, j :: 0 <= i < j < |t| ==> t[i].count >= t[j].count)
      && (forall i :: 0 <= i < |t| ==> t[i].key in routes && t[i].count == multiset(routes)[t[i].key])
      && NoDuplicates(KeysOf(t))
      && (forall r :: r in routes && r !in KeysOf(t) ==>
            forall i :: 0 <= i < |t| ==> multiset(routes)[r] <= t[i].count)
      && (|t| < TopRoutes ==> forall r :: r in routes ==> r in KeysOf(t))
  {
    var routes := RoutesOf(rows);
    var vc := ValueCounts(routes);
    TopCounts(routes, TopRoutes);
    var t := RouteCounts(rows);
  }

  /** The airline chart's slices: each airline of the rows once, with its
      number of flights, and the slices add up to the number of rows. */
  lemma AirlineShares(rows: seq<FlightRecord>)
    ensures var t, airlines := AirlineCounts(rows), AirlinesOf(rows);
      && NoDuplicates(KeysOf(t))
      && (forall a :: a in KeysOf(t) <==> a in airlines)
      && (forall i :: 0 <= i < |t| ==> t[i].count == multiset(airlines)[t[i].key] > 0)
      && TotalCount(t) == |rows|
  {
    var airlines := AirlinesOf(rows);
    PresentKeys(airlines, AirlineCounts(rows));
  }

  /** The rows of a value-count table name keys of the column, each with a
      positive count. */
  lemma PresentKeys(s: seq<string>, t: seq<Counted<string>>)
    requires forall i :: 0 <= i < |t| ==> t[i].key in s && t[i].count == multiset(s)[t[i].key]
    requires forall k :: k in s ==> k in KeysOf(t)
    ensures forall a :: a in KeysOf(t) <==> a in s
    ensures forall i :: 0 <= i < |t| ==> t[i].count > 0
  {
    forall a | a in KeysOf(t)
      ensures a in s
    {
      var i :| 0 <= i < |t| && KeysOf(t)[i] == a;
    }
  }

  /** On the generated frame the route chart leaves nothing out: there are
      only five routes, and their counts add up to the 50 flights. */
  lemma SimulatedRouteChart(rows: seq<FlightRecord>)
    requires |rows| == Generator.SimulatedCount
    requires forall i :: 0 <= i < |rows| ==> Generator.IsSimulated(rows[i])
    ensures RouteCounts(rows) == ValueCounts(RoutesOf(rows))
    ensures TotalCount(RouteCounts(rows)) == 50
  {
    var routes := RoutesOf(rows);
    forall r | r in routes
      ensures r in Generator.Routes
    {
      var j :| 0 <= j < |rows| && routes[j] == r;
      assert Generator.IsSimulated(rows[j]);
    }
    var vc := ValueCounts(routes);
    FewRoutes(routes, vc);
  }

  /** A table of distinct keys, all from the five routes, has at most five rows. */
  lemma FewRoutes(routes: seq<string>, vc: seq<Counted<string>>)
    requires forall r :: r in routes ==> r in Generator.Routes
    requires forall i :: 0 <= i < |vc| ==> vc[i].key in routes
    requires NoDuplicates(KeysOf(vc))
    ensures |vc| <= TopRoutes
  {
    var u := set x | x in Generator.Routes;
    assert u == {"SYD-MEL", "MEL-BNE", "BNE-PER", "PER-ADL", "ADL-CBR"};
    forall r | r in KeysOf(vc)
      ensures r in u
    {
      var i :| 0 <= i < |vc| && KeysOf(vc)[i] == r;
    }
    DistinctBound(KeysOf(vc), u);
  }
}
