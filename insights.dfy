/**
 The three insight texts of `generate_insights` (main.py): the busiest hour
 of departure, the three routes with the lowest mean price and the three
 airlines with the most flights. The function writes an `hour` column into
 the frame it is given, and any exception turns all three texts into
 'Data unavailable'. `pd.to_datetime` is passed in as `toHour`.
 */
module Insights {
  import opened Wrappers
  import opened Flights
  import opened Tables
  import opened Text
  import Filters

  /** What `pd.to_datetime(...).dt.hour` makes of one cell: NaT (empty text),
      an hour, or text it cannot read (then the whole conversion raises). */
  datatype HourParse = NoTime | AtHour(hour: HourOfDay) | Unparseable

  function CellHour(s: Stamp, toHour: string -> HourParse): HourParse {
    match s
    case Clock(h) => AtHour(h)
    case Text(t) => toHour(t)
  }

  /** One cell of the `hour` column: None stands for NaN. */
  function HourCell(p: HourParse): Option<HourOfDay>
    requires !p.Unparseable?
  {
    if p.AtHour? then Some(p.hour) else None
  }

  /** `df['hour'] = pd.to_datetime(df['datetime']).dt.hour`: the new column,
      or None when some cell cannot be read and the conversion raises. */
  function HourColumn(rows: seq<FlightRecord>, toHour: string -> HourParse): (r: Option<seq<Option<HourOfDay>>>)
    ensures r.None? <==> exists i :: 0 <= i < |rows| && CellHour(rows[i].datetime, toHour).Unparseable?
    ensures r.Some? ==> |r.value| == |rows|
    ensures r.Some? ==> forall i :: 0 <= i < |rows| ==> r.value[i] == HourCell(CellHour(rows[i].datetime, toHour))
  {
    if exists i :: 0 <= i < |rows| && CellHour(rows[i].datetime, toHour).Unparseable? then None
    else Some(seq(|rows|, i requires 0 <= i < |rows| => HourCell(CellHour(rows[i].datetime, toHour))))
  }

  /** The hours `value_counts` sees: the column without its NaN cells. */
  function ValidHours(hours: seq<Option<HourOfDay>>): (vs: seq<HourOfDay>)
    ensures forall h: HourOfDay :: multiset(vs)[h] == multiset(hours)[Some(h)]
  {
    if hours == [] then []
    else
      assert hours == [hours[0]] + hours[1..];
      (if hours[0].Some? then [hours[0].value] else []) + ValidHours(hours[1..])
  }

  /** `h` is an hour of the column that no other hour outnumbers. */
  ghost predicate IsModal(hours: seq<Option<HourOfDay>>, h: HourOfDay) {
    Some(h) in hours && forall g: HourOfDay :: multiset(hours)[Some(g)] <= multiset(hours)[Some(h)]
  }

  /** `df['hour'].value_counts().idxmax()`: a most frequent hour. */
  function PeakHour(hours: seq<Option<HourOfDay>>): (p: HourOfDay)
    requires ValidHours(hours) != []
    ensures IsModal(hours, p)
  {
    var valid := ValidHours(hours);
    FirstIsModal(valid);
    var p := ValueCounts(valid)[0].key;
    assert multiset(valid)[p] > 0;
    p
  }

  /** `f"{peak}:00-{peak+1}:00"` for an integer hour. */
  function PeakWindow(h: HourOfDay): string {
    NatToString(h) + ":00-" + NatToString(h + 1) + ":00"
  }

  /** The window reads back: two decimal numbers, the hour and the next
      one, each followed by ":00" and separated by '-'. */
  lemma PeakWindowNamesHour(h: HourOfDay)
    ensures var a, b := NatToString(h), NatToString(h + 1);
      && PeakWindow(h) == a + ":00-" + b + ":00"
      && AllDigits(a) && ParseNat(a) == h
      && AllDigits(b) && ParseNat(b) == h + 1
  {
    ParseNatToString(h);
    ParseNatToString(h + 1);
  }

  /** The window does not wrap at midnight. */
  lemma LastHourWindow()
    ensures PeakWindow(23) == "23:00-24:00"
  {
    assert NatToString(2) == "2";
    assert NatToString(23) == "23";
    assert NatToString(24) == "24";
  }

  /** Python's `int()` on a float: truncation toward zero. */
  function Trunc(x: real): (n: int)
    ensures 0.0 <= x ==> 0 <= n && n as real <= x < n as real + 1.0
    ensures x < 0.0 ==> n <= 0 && n as real - 1.0 < x <= n as real
  {
    if 0.0 <= x then x.Floor else -((-x).Floor)
  }

  /** The prices of the records on one route. */
  function PricesOn(rows: seq<FlightRecord>, route: string): (ps: seq<real>)
    ensures |ps| == multiset(RoutesOf(rows))[route]
  {
    if rows == [] then []
    else
      assert RoutesOf(rows) == [rows[0].route] + RoutesOf(rows[1..]);
      (if rows[0].route == route then [rows[0].price] else []) + PricesOn(rows[1..], route)
  }

  /** The prices grouped under a route are the `price` column of the rows
      that select that route, in row order. */
  lemma {:induction false} PricesOnSelects(rows: seq<FlightRecord>, route: string)
    ensures PricesOn(rows, route) == Filters.PricesOf(Filters.Where(rows, Filters.RouteIs(route)))
  {
    if rows != [] {
      PricesOnSelects(rows[1..], route);
      var picked := Filters.Where(rows[1..], Filters.RouteIs(route));
      assert rows[0].route == route ==>
        Filters.PricesOf([rows[0]] + picked) == [rows[0].price] + Filters.PricesOf(picked);
    }
  }

  /** One row of `groupby('route')['price'].mean()`. */
  datatype RouteMean = RouteMean(route: string, mean: real)

  function MeanRoutes(ms: seq<RouteMean>): (rs: seq<string>)
    ensures |rs| == |ms| && forall i :: 0 <= i < |ms| ==> rs[i] == ms[i].route
  {
    seq(|ms|, i requires 0 <= i < |ms| => ms[i].route)
  }

  /** The mean price of a route that occurs in the rows. */
  function MeanOn(rows: seq<FlightRecord>, route: string): real
    requires route in RoutesOf(rows)
  {
    Mean(PricesOn(rows, route))
  }

  /** `df.groupby('route')['price'].mean()`: one row per route, routes in
      ascending order, each with the mean price of its records. */
  function RouteMeans(rows: seq<FlightRecord>): (ms: seq<RouteMean>)
    ensures StrictlySorted(MeanRoutes(ms))
    ensures forall r :: r in MeanRoutes(ms) <==> r in RoutesOf(rows)
    ensures forall i :: 0 <= i < |ms| ==> ms[i].route in RoutesOf(rows) && ms[i].mean == MeanOn(rows, ms[i].route)
  {
    var keys := SortedUnique(RoutesOf(rows));
    var ms := seq(|keys|, i requires 0 <= i < |keys| => RouteMean(keys[i], MeanOn(rows, keys[i])));
    assert MeanRoutes(ms) == keys;
    ms
  }

  function ByMean(m: RouteMean): real {
    m.mean
  }

  /** `.nsmallest(3)`: the three lowest means, ties kept in route order. */
  function BestDeals(rows: seq<FlightRecord>): seq<RouteMean> {
    Take(SortBy(RouteMeans(rows), ByMean), 3)
  }

  /** Every row of a sorted copy of the means is a route of the rows with
      its own mean. */
  lemma SortedMeansExact(rows: seq<FlightRecord>, sorted: seq<RouteMean>)
    requires multiset(sorted) == multiset(RouteMeans(rows))
    ensures forall i :: 0 <= i < |sorted| ==> sorted[i].route in RoutesOf(rows) && sorted[i].mean == MeanOn(rows, sorted[i].route)
  {
    var ms := RouteMeans(rows);
    forall i | 0 <= i < |sorted|
      ensures sorted[i].route in RoutesOf(rows) && sorted[i].mean == MeanOn(rows, sorted[i].route)
    {
      assert sorted[i] in multiset(ms);
    }
  }

  /** Every route of the rows appears in a sorted copy of the means. */
  lemma SortedMeansCover(rows: seq<FlightRecord>, sorted: seq<RouteMean>, r: string)
    requires multiset(sorted) == multiset(RouteMeans(rows))
    requires r in RoutesOf(rows)
    ensures exists j :: 0 <= j < |sorted| && sorted[j] == RouteMean(r, MeanOn(rows, r))
  {
    var ms := RouteMeans(rows);
    assert r in MeanRoutes(ms);
    var k :| 0 <= k < |ms| && MeanRoutes(ms)[k] == r;
    assert ms[k] in multiset(sorted);
  }

  /** The routes of a sorted copy of the means are all different. */
  lemma SortedMeansDistinct(rows: seq<FlightRecord>, sorted: seq<RouteMean>)
    requires multiset(sorted) == multiset(RouteMeans(rows))
    ensures forall i, j :: 0 <= i < j < |sorted| ==> sorted[i].route != sorted[j].route
  {
    var ms := RouteMeans(rows);
    SortedMeansExact(rows, sorted);
    forall i, j | 0 <= i < j < |sorted|
      ensures sorted[i].route != sorted[j].route
    {
      if sorted[i].route == sorted[j].route {
        MultisetIndex(sorted, i, j);
        MeansOnce(ms, sorted[i]);
        assert false;
      }
    }
  }

  /** A strictly sorted list of routes holds each row at most once. */
  lemma MeansOnce(ms: seq<RouteMean>, x: RouteMean)
    requires StrictlySorted(MeanRoutes(ms))
    ensures multiset(ms)[x] <= 1
  {
    forall i, j | 0 <= i < j < |ms|
      ensures ms[i] != ms[j]
    {
      assert Less(MeanRoutes(ms)[i], MeanRoutes(ms)[j]);
      LessIrreflexive(ms[i].route);
    }
    NoDuplicatesOnce(ms, x);
  }

  /** `best_deals` lists at most three different routes of the rows, each
      with its exact mean price, cheapest first; a route it leaves out costs
      no less on average than any route it shows, and when it shows fewer
      than three, it shows every route. */
  lemma BestDealsRanked(rows: seq<FlightRecord>)
    ensures var b := BestDeals(rows);
      && |b| <= 3
      && (forall i, j :: 0 <= i < j < |b| ==> b[i].mean <= b[j].mean)
      && (forall i :: 0 <= i < |b| ==> b[i].route in RoutesOf(rows) && b[i].mean == MeanOn(rows, b[i].route))
      && (forall i, j :: 0 <= i < j < |b| ==> b[i].route != b[j].route)
      && (forall r :: r in RoutesOf(rows) && r !in MeanRoutes(b) ==>
            forall i :: 0 <= i < |b| ==> b[i].mean <= MeanOn(rows, r))
      && (|b| < 3 ==> forall r :: r in RoutesOf(rows) ==> r in MeanRoutes(b))
  {
    var sorted := SortBy(RouteMeans(rows), ByMean);
    var b := BestDeals(rows);
    assert b == sorted[..|b|];
    DealsFacts(rows, sorted, b);
    if |b| < 3 {
      assert b == sorted;
      forall r | r in RoutesOf(rows)
        ensures r in MeanRoutes(b)
      {
        SortedMeansCover(rows, sorted, r);
      }
    }
  }

  /** What a prefix of the sorted means shows and leaves out. */
  lemma DealsFacts(rows: seq<FlightRecord>, sorted: seq<RouteMean>, b: seq<RouteMean>)
    requires multiset(sorted) == multiset(RouteMeans(rows)) && SortedBy(sorted, ByMean)
    requires |b| <= |sorted| && b == sorted[..|b|]
    ensures forall i, j :: 0 <= i < j < |b| ==> b[i].mean <= b[j].mean
    ensures forall i :: 0 <= i < |b| ==> b[i].route in RoutesOf(rows) && b[i].mean == MeanOn(rows, b[i].route)
    ensures forall i, j :: 0 <= i < j < |b| ==> b[i].route != b[j].route
    ensures forall r :: r in RoutesOf(rows) && r !in MeanRoutes(b) ==>
              forall i :: 0 <= i < |b| ==> b[i].mean <= MeanOn(rows, r)
  {
    SortedMeansExact(rows, sorted);
    SortedMeansDistinct(rows, sorted);
    forall r | r in RoutesOf(rows) && r !in MeanRoutes(b)
      ensures forall i :: 0 <= i < |b| ==> b[i].mean <= MeanOn(rows, r)
    {
      DealsLeaveOut(rows, sorted, b, r);
    }
  }

  /** A route missing from a prefix of the sorted means has a mean no lower
      than any mean in the prefix. */
  lemma DealsLeaveOut(rows: seq<FlightRecord>, sorted: seq<RouteMean>, b: seq<RouteMean>, r: string)
    requires multiset(sorted) == multiset(RouteMeans(rows)) && SortedBy(sorted, ByMean)
    requires |b| <= |sorted| && b == sorted[..|b|]
    requires r in RoutesOf(rows) && r !in MeanRoutes(b)
    ensures forall i :: 0 <= i < |b| ==> b[i].mean <= MeanOn(rows, r)
  {
    SortedMeansCover(rows, sorted, r);
    var j :| 0 <= j < |sorted| && sorted[j] == RouteMean(r, MeanOn(rows, r));
    forall i | 0 <= i < |b|
      ensures b[i].mean <= MeanOn(rows, r)
    {
      assert MeanRoutes(b)[i] != r;
      assert i < j;
      assert ByMean(sorted[i]) <= ByMean(sorted[j]);
    }
  }

  /** `.value_counts().head(3)` of the `airline` column. */
  function TopAirlines(rows: seq<FlightRecord>): seq<Counted<string>> {
    Take(ValueCounts(AirlinesOf(rows)), 3)
  }

  /** `top_airlines` lists at most three different airlines of the rows, each
      with its number of flights, busiest first; an airline it leaves out has
      no more flights than any it shows, and when it shows fewer than three,
      it shows every airline. */
  lemma TopAirlinesRanked(rows: seq<FlightRecord>)
    ensures var t, airlines := TopAirlines(rows), AirlinesOf(rows);
      && |t| <= 3
      && (forall i, j :: 0 <= i < j < |t| ==> t[i].count >= t[j].count)
      && (forall i :: 0 <= i < |t| ==> t[i].key in airlines && t[i].count == multiset(airlines)[t[i].key])
      && NoDuplicates(KeysOf(t))
      && (forall a :: a in airlines && a !in KeysOf(t) ==>
            forall i :: 0 <= i < |t| ==> multiset(airlines)[a] <= t[i].count)
      && (|t| < 3 ==> forall a :: a in airlines ==> a in KeysOf(t))
  {
    var airlines := AirlinesOf(rows);
    var vc := ValueCounts(airlines);
    TopCounts(airlines, 3);
    var t := TopAirlines(rows);
  }

  /** One entry of `best_deals`: the route and its mean price truncated to
      whole dollars, in parentheses. */
  function DealItem(m: RouteMean): string {
    m.route + " ($" + IntToString(Trunc(m.mean)) + ")"
  }

  /** The entry reads back: the route, " ($", the mean truncated to whole
      dollars in decimal (after a '-' when it is negative), and ")". */
  lemma DealItemReadsBack(m: RouteMean)
    ensures var t, k, n := DealItem(m), |m.route|, Trunc(m.mean);
      && k + 5 <= |t| && t[..k] == m.route && t[k..k + 3] == " ($" && t[|t| - 1] == ')'
      && (n >= 0 ==> AllDigits(t[k + 3..|t| - 1]) && ParseNat(t[k + 3..|t| - 1]) == n)
      && (n < 0 ==> k + 6 <= |t| && t[k + 3] == '-'
                    && AllDigits(t[k + 4..|t| - 1]) && ParseNat(t[k + 4..|t| - 1]) == -n)
  {
    var t, k, n := DealItem(m), |m.route|, Trunc(m.mean);
    var digits := IntToString(n);
    assert t[k + 3..|t| - 1] == digits;
    if n >= 0 {
      ParseNatToString(n);
    } else {
      assert t[k + 4..|t| - 1] == digits[1..];
      ParseNatToString(-n);
    }
  }

  function DealsText(deals: seq<RouteMean>): string {
    Join(", ", seq(|deals|, i requires 0 <= i < |deals| => DealItem(deals[i])))
  }

  /** One entry of `top_airlines`. */
  function AirlineItem(c: Counted<string>): string {
    c.key + " (" + NatToString(c.count) + " flights)"
  }

  /** The count in an entry reads back: the text is the airline, " (", the
      count in decimal and " flights)". */
  lemma AirlineItemReadsBack(c: Counted<string>)
    ensures var t, k := AirlineItem(c), |c.key|;
      && k + 12 <= |t| && t[..k] == c.key && t[k..k + 2] == " (" && t[|t| - 9..] == " flights)"
      && AllDigits(t[k + 2..|t| - 9]) && ParseNat(t[k + 2..|t| - 9]) == c.count
  {
    var t, k, n := AirlineItem(c), |c.key|, NatToString(c.count);
    assert t[k + 2..|t| - 9] == n;
    ParseNatToString(c.count);
  }

  function AirlinesText(top: seq<Counted<string>>): string {
    Join(", ", seq(|top|, i requires 0 <= i < |top| => AirlineItem(top[i])))
  }

  /** The `insights` dict. */
  datatype InsightFields = InsightFields(peakHours: string, bestDeals: string, topAirlines: string)

  const DataUnavailable: string := "Data unavailable"

  /** The `except` branch: every field replaced. */
  const Unavailable: InsightFields := InsightFields(DataUnavailable, DataUnavailable, DataUnavailable)

  /** The peak hour can be computed: the `hour` column converts and holds
      at least one hour that is not NaN. */
  predicate HasPeak(rows: seq<FlightRecord>, toHour: string -> HourParse) {
    var column := HourColumn(rows, toHour);
    column.Some? && ValidHours(column.value) != []
  }

  function DealsField(columns: set<Column>, rows: seq<FlightRecord>): string {
    if Route in columns && Price in columns then DealsText(BestDeals(rows)) else "No route/price data"
  }

  function AirlinesField(columns: set<Column>, rows: seq<FlightRecord>): string {
    if Airline in columns then AirlinesText(TopAirlines(rows)) else "No airline data"
  }

  /** `generate_insights` on a frame with these columns and rows. The peak
      field is 'Data unavailable' exactly when the frame has a `datetime`
      column from which no hour can be taken, and then so are the other two
      fields; otherwise the peak is a most frequent hour, or 'No time data'
      without the column, and the other fields are computed from the rows. */
  function InsightsOf(columns: set<Column>, rows: seq<FlightRecord>, toHour: string -> HourParse): (ins: InsightFields)
    ensures ins.peakHours == DataUnavailable <==> DateTime in columns && !HasPeak(rows, toHour)
    ensures ins.peakHours == DataUnavailable ==> ins == Unavailable
    ensures DateTime !in columns ==> ins.peakHours == "No time data"
    ensures DateTime in columns && HasPeak(rows, toHour) ==>
              exists h :: IsModal(HourColumn(rows, toHour).value, h) && ins.peakHours == PeakWindow(h)
    ensures ins.peakHours != DataUnavailable ==>
              ins.bestDeals == DealsField(columns, rows) && ins.topAirlines == AirlinesField(columns, rows)
  {
    var deals, airlines := DealsField(columns, rows), AirlinesField(columns, rows);
    if DateTime !in columns then
      InsightFields("No time data", deals, airlines)
    else if !HasPeak(rows, toHour) then
      Unavailable
    else
      var p := PeakHour(HourColumn(rows, toHour).value);
      PeakWindowNotUnavailable(p);
      InsightFields(PeakWindow(p), deals, airlines)
  }

  lemma PeakWindowNotUnavailable(h: HourOfDay)
    ensures PeakWindow(h) != DataUnavailable
  {
    assert PeakWindow(h)[0] == NatToString(h)[0];
  }

  /** `generate_insights(df)`: fills the three fields in order and, when the
      frame has a `datetime` column that converts, adds or overwrites its
      `hour` column in place, before the peak hour is looked up. */
  method GenerateInsights(df: Frame, toHour: string -> HourParse) returns (ins: InsightFields)
    requires df.Valid()
    modifies df
    ensures ins == InsightsOf(old(df.columns), old(df.rows), toHour)
    ensures df.Valid() && df.rows == old(df.rows)
    ensures DateTime in old(df.columns) && HourColumn(old(df.rows), toHour).Some? ==>
              df.columns == old(df.columns) + {Hour} && df.hours == HourColumn(old(df.rows), toHour).value
    ensures !(DateTime in old(df.columns) && HourColumn(old(df.rows), toHour).Some?) ==>
              unchanged(df)
  {
    var columns, rows := df.columns, df.rows;
    var deals, airlines := DealsField(columns, rows), AirlinesField(columns, rows);
    if DateTime !in columns {
      ins := InsightFields("No time data", deals, airlines);
      return;
    }
    var column := HourColumn(rows, toHour);
    if column.None? {
      ins := Unavailable;
      return;
    }
    df.columns := columns + {Hour};
    df.hours := column.value;
    if ValidHours(column.value) == [] {
      ins := Unavailable;
      return;
    }
    ins := InsightFields(PeakWindow(PeakHour(column.value)), deals, airlines);
  }

  /** A frame with two flights on one route, at 100 and 200 dollars, shows
      that route at its mean, 150 dollars. */
  lemma OneRouteDeals(a: FlightRecord, b: FlightRecord)
    requires a.route == "SYD-MEL" && b.route == "SYD-MEL"
    requires a.price == 100.0 && b.price == 200.0
    ensures BestDeals([a, b]) == [RouteMean("SYD-MEL", 150.0)]
    ensures DealsText(BestDeals([a, b])) == "SYD-MEL ($150)"
  {
    var m := RouteMean("SYD-MEL", 150.0);
    OneRouteMeans([a, b]);
    assert SortBy([m], ByMean) == [m];
    PriceText150();
    assert DealItem(m) == "SYD-MEL ($150)";
  }

  lemma OneRouteMeans(rows: seq<FlightRecord>)
    requires |rows| == 2 && rows[0].route == "SYD-MEL" && rows[1].route == "SYD-MEL"
    requires rows[0].price == 100.0 && rows[1].price == 200.0
    ensures RouteMeans(rows) == [RouteMean("SYD-MEL", 150.0)]
  {
    OneRouteKeys(rows);
    OneRouteMean(rows);
  }

  lemma OneRouteKeys(rows: seq<FlightRecord>)
    requires |rows| == 2 && rows[0].route == "SYD-MEL" && rows[1].route == "SYD-MEL"
    ensures SortedUnique(RoutesOf(rows)) == ["SYD-MEL"]
  {
    assert RoutesOf(rows) == ["SYD-MEL", "SYD-MEL"];
    assert SortedUnique(["SYD-MEL"]) == ["SYD-MEL"];
  }

  lemma OneRouteMean(rows: seq<FlightRecord>)
    requires |rows| == 2 && rows[0].route == "SYD-MEL" && rows[1].route == "SYD-MEL"
    requires rows[0].price == 100.0 && rows[1].price == 200.0
    ensures Mean(PricesOn(rows, "SYD-MEL")) == 150.0
  {
    assert PricesOn(rows[1..], "SYD-MEL") == [200.0];
    assert PricesOn(rows, "SYD-MEL") == [100.0, 200.0];
    assert [100.0, 200.0][1..] == [200.0];
    assert Sum([200.0]) == 200.0;
    assert Sum([100.0, 200.0]) == 300.0;
  }

  lemma PriceText150()
    ensures IntToString(Trunc(150.0)) == "150"
  {
    assert Trunc(150.0) == 150;
    assert NatToString(15) == "15";
  }

  // As written, line 89 opens a parenthesis before the price and never
  // closes it.

  /** `f"{route} (${int(price)}"`, exactly as main.py:89 writes it. */
  function DealItemAsWritten(m: RouteMean): string {
    m.route + " ($" + IntToString(Trunc(m.mean))
  }

  function DealsTextAsWritten(deals: seq<RouteMean>): string {
    Join(", ", seq(|deals|, i requires 0 <= i < |deals| => DealItemAsWritten(deals[i])))
  }

  /** Each item as written ends with the last digit of the price, so the
      parenthesis it opens stays open; the corrected item closes it. */
  lemma DealItemUnclosed(m: RouteMean)
    ensures var w := DealItemAsWritten(m);
      |w| > 0 && IsDigit(w[|w| - 1])
    ensures var c := DealItem(m);
      |c| > 0 && c[|c| - 1] == ')' && c[..|c| - 1] == DealItemAsWritten(m)
  {
    var t := IntToString(Trunc(m.mean));
    var w := DealItemAsWritten(m);
    assert w[|w| - 1] == t[|t| - 1];
    if Trunc(m.mean) < 0 {
      assert t[|t| - 1] == t[1..][|t| - 2];
    }
  }

  /** The two-flight frame above, as written: "SYD-MEL ($150". */
  lemma OneRouteDealsAsWritten(a: FlightRecord, b: FlightRecord)
    requires a.route == "SYD-MEL" && b.route == "SYD-MEL"
    requires a.price == 100.0 && b.price == 200.0
    ensures DealsTextAsWritten(BestDeals([a, b])) == "SYD-MEL ($150"
  {
    OneRouteDeals(a, b);
    PriceText150();
  }

  // As written, lines 80-82 format the hour as the hour column holds it.
  // When some timestamp is NaT, pandas stores the column as floats, and the
  // f-string then shows "14.0" and "15.0".

  /** The peak window as main.py:82 prints it; `fractional` says whether the
      `hour` column is a float column. */
  function PeakWindowAsWritten(h: HourOfDay, fractional: bool): string {
    if fractional then NatToString(h) + ".0:00-" + NatToString(h + 1) + ".0:00"
    else PeakWindow(h)
  }

  /** The peak text as written: the column is a float column exactly when
      it holds a NaN. */
  function PeakTextAsWritten(hours: seq<Option<HourOfDay>>): string
    requires ValidHours(hours) != []
  {
    PeakWindowAsWritten(PeakHour(hours), None in hours)
  }

  /** With a float column the text differs from the intended "H:00-H+1:00"
      for every hour: a '.' stands where the ':' should be. */
  lemma FractionalWindowDiffers(h: HourOfDay)
    ensures PeakWindowAsWritten(h, true) != PeakWindow(h)
    ensures PeakWindowAsWritten(h, false) == PeakWindow(h)
  {
    var k := |NatToString(h)|;
    assert PeakWindowAsWritten(h, true)[k] == '.';
    assert PeakWindow(h)[k] == ':';
  }

  /** One flight at 14:00 and one without a time: the text reads
      "14.0:00-15.0:00" instead of "14:00-15:00". */
  lemma NaTGivesFractionalHour(hours: seq<Option<HourOfDay>>)
    requires hours == [Some(14), None]
    ensures ValidHours(hours) != []
    ensures PeakTextAsWritten(hours) == "14.0:00-15.0:00"
    ensures PeakWindow(PeakHour(hours)) == "14:00-15:00"
  {
    PeakOfOne(hours);
    assert hours[1] == None;
    WindowsAtFourteen();
  }

  lemma WindowsAtFourteen()
    ensures PeakWindowAsWritten(14, true) == "14.0:00-15.0:00"
    ensures PeakWindow(14) == "14:00-15:00"
  {
    assert NatToString(1) == "1";
    assert NatToString(14) == "14";
    assert NatToString(15) == "15";
  }

  lemma PeakOfOne(hours: seq<Option<HourOfDay>>)
    requires hours == [Some(14), None]
    ensures ValidHours(hours) == [14] && PeakHour(hours) == 14
  {
    assert hours[1..] == [None];
    assert ValidHours([None]) == [];
    var p := PeakHour(hours);
    assert Some(p) in hours;
  }

  /** The frame left when the API returns no flights has only a `route`
      column, and every field says which column is missing. */
  lemma EmptyApiFrame(toHour: string -> HourParse)
    ensures InsightsOf({Route}, [], toHour) == InsightFields("No time data", "No route/price data", "No airline data")
  {
  }

  /** A frame whose `datetime` column holds only NaT has no hour to report. */
  lemma NoValidHours(rows: seq<FlightRecord>, toHour: string -> HourParse)
    requires forall i :: 0 <= i < |rows| ==> CellHour(rows[i].datetime, toHour) == NoTime
    ensures InsightsOf(RecordColumns, rows, toHour) == Unavailable
  {
    var column := HourColumn(rows, toHour);
    assert column.Some?;
    AllNaN(column.value);
  }

  lemma {:induction false} AllNaN(hours: seq<Option<HourOfDay>>)
    requires forall i :: 0 <= i < |hours| ==> hours[i].None?
    ensures ValidHours(hours) == []
  {
    if hours != [] {
      AllNaN(hours[1..]);
    }
  }
}
