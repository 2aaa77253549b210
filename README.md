# Airline dashboard data pipeline, modelled in Dafny

This project models the data pipeline behind the airline market-demand
dashboard (`main.py`, a Flask app). The pipeline has these pieces:

- **Extraction.** The flight API's response becomes a table of at most 50
  flight records. Every missing field gets a default.
- **Synthetic data.** When the API fails, a generator produces 50 records
  instead.
- **Filter block.** The form's route, minimum price, maximum price and
  airline fields each narrow the table, but only when filled in.
- **Chart tables.** These are the five busiest routes and every airline's
  share.
- **Insights.** Three texts: the busiest hour of departure, the three
  routes with the lowest mean price and the three airlines with the most
  flights.
- **Drop-down lists.** The routes and airlines offered in the form.

The pandas operations are restated over sequences of records:

- **`value_counts`** is `Tables.ValueCounts`: keys in order of first
  appearance, stably sorted by descending count.
- **`head`** is `Tables.Take`.
- **`groupby('route').mean()`** is `Insights.RouteMeans`, with routes in
  Python string order.
- **`nsmallest(3)`** is a stable sort by mean followed by `Take`.
- **`sorted(unique())`** is `Text.SortedUnique`.

The data frame is a class, `Flights.Frame`, because `generate_insights`
writes an `hour` column into it in place. When no filter step runs, the
frame it writes to is the memoised one (`Dashboard.ServeDashboard`).

Some things from outside the pipeline are modelled as parameters:

- **`float()`** is a function `string -> Option<real>`.
- **`pd.to_datetime(...).dt.hour`** on one cell is a function
  `string -> HourParse`. It gives NaT, an hour, or an error that makes the
  whole conversion raise.
- **The HTTP response** arrives already decoded, as `Extraction.Response`.
- **The random draws** come from `Generator.Rng`. Only the range each draw
  promises is used.

Three behaviours of main.py worth noting:

- **No fallback on an empty flight list.** An API answer with an empty or
  missing `data` list does not fall back to the generator. It gives a frame
  with only a `route` column and no rows (main.py:40-43). Its insights are
  'No time data', 'No route/price data' and 'No airline data'
  (`Insights.EmptyApiFrame`).
- **'Data unavailable' on an empty filtered frame.** When a filter leaves no
  rows in a frame with a `datetime` column, `idxmax` raises on the empty hour
  column. All three insights then read 'Data unavailable', not 'No data'
  (`Dashboard.NothingMatches`).
- **API data never reaches the page.** The price-trend chart (main.py:177-178)
  groups on the `datetime` column with `pd.Grouper`, which raises when that
  column holds text, as it does in every frame built from the API. The
  view's `except` (main.py:223-225) then serves the default page: no chart,
  'No data' for every insight, empty lists. `generate_insights` never runs, so
  the memoised frame gets no `hour` column (`Dashboard.ServeDashboard`,
  `Dashboard.ApiDataNeverShown`).

## Model

| member | source | states |
|---|---|---|
| Extraction.Get | main.py:26-36 | `block.get(key, default)`: the block's value when the key is there, the default when it is not or the block is missing, and failure exactly when the block is not an object |
| Extraction.Extract | main.py:26-38 | a record has the scheduled time, the route `dep-arr` built from the two IATA codes, the price, the airline name, the flight code and the status; each falls back to '' / 0 / 'Unknown' when absent; the entry fails exactly when one of its blocks is not an object |
| Extraction.ExtractAll | main.py:24-38 | the entries give records exactly when every entry does, one record per entry in order |
| Extraction.Fetch | main.py:18-48 | a frame exactly when the response decoded, `data` is a list, missing or the empty string, and every entry of the first 50 extracts; at most 50 records, record i from entry i; only a `route` column when there are no records, all six columns otherwise |
| Extraction.StringData | main.py:24-44 | a string-valued `data` gives the route-only empty frame when it is empty, and sends the view to the generator otherwise |
| Extraction.FetchFlightData | main.py:23-44 | the append loop computes `Fetch` |
| Generator.Rng.Choice | main.py:58 | `np.random.choice` returns an element of the list |
| Generator.Rng.RandInt | main.py:59 | `np.random.randint(lo, hi)` lies in [lo, hi), upper bound excluded |
| Generator.Rng.Random | main.py:65 | `np.random.random()` lies in [0, 1) |
| Generator.SimulatedPrice | main.py:65 | the price formula on a seven-letter route gives a price in [206, 234) |
| Generator.SimulatedFlightNumber | main.py:67 | five characters: the carrier code, then three digits that read back as the drawn number |
| Generator.GenerateSimulatedData | main.py:50-71 | exactly 50 records, each with an hour of day, a route, airline and status from the fixed lists, a price in [206, 234) and a flight number from 100 to 998 |
| Generator.LoadFlightData | main.py:16-48 | a fresh frame: the API's frame when extraction succeeds, otherwise 50 generated records with all six columns |
| Filters.Filter | main.py:145-160 | the four optional steps in source order: route, minimum price, maximum price, airline; each runs only when its column exists and its field is filled in (and, for a price, parses); its properties are the lemmas below |
| Filters.Where | main.py:147 | a boolean mask keeps an order-preserving subsequence, with each matching record as often as it occurs and no other record |
| Filters.Bound | main.py:149-158 | an empty price field sets no bound; otherwise the bound is whatever `float()` makes of it, none when it raises |
| Filters.Step | main.py:146-160 | a step that runs applies its mask; a step that does not run leaves the rows as they are |
| Filters.FilterKeepsAdmitted | main.py:145-160 | the filtered rows are a subsequence of the rows holding exactly the records that meet every applicable criterion (AND), each as often as it occurs |
| Filters.FilterMeetsCriteria | main.py:146-160 | every surviving record has the given route and airline and lies within every price bound that parses |
| Filters.FilterKeepsMatches | main.py:146-160 | a record meeting every applicable criterion survives |
| Filters.FilterBlankIsIdentity | main.py:146-160 | with all four fields empty the rows are unchanged and no step runs |
| Filters.UnparsedBoundIgnored | main.py:148-158 | a price field that does not parse filters exactly as if it were empty |
| Filters.MinAppliedMaxIgnored | main.py:148-158 | minimum '50' and maximum 'not-a-number' over prices 40, 60 and 80 keep 60 and 80 |
| Dashboard.NoStepKeepsRows | main.py:145-160 | when no step runs, the filtered rows are the rows, so `df` stays the memoised frame |
| Tables.ValueCounts | main.py:188 | each key of the column once, with its number of occurrences, counts never increasing, counts summing to the column's length |
| Tables.Take | main.py:96 | `head(n)` has at most n rows and is the whole table when it is short enough |
| Tables.TopCounts | main.py:96 | `value_counts().head(n)` is a prefix of the table; a key left out occurs no more often than any key shown; fewer than n rows means nothing is left out |
| Tables.FirstIsModal | main.py:81 | on a non-empty column the first key of `value_counts` occurs at least as often as any other |
| Tables.SortBy | main.py:88 | the sort is ascending by rank and a permutation of its input |
| Text.NatToString | main.py:82 | `str()` of a number is a non-empty string of digits without a leading zero |
| Text.ParseNatToString | main.py:82 | the decimal text of a number reads back as that number |
| Text.Join | main.py:89-90 | `", ".join` of no items is empty and of one item is that item |
| Text.SortedUnique | main.py:217-218 | `sorted(unique())` is strictly ascending in Python's string order and holds exactly the column's values |
| Insights.HourColumn | main.py:80 | the `hour` column, one cell per row (NaN for NaT); the conversion raises exactly when some cell cannot be read |
| Insights.ValidHours | main.py:81 | `value_counts` counts each hour as often as the column holds it, dropping NaN |
| Insights.PeakHour | main.py:81 | `idxmax` gives an hour of the column that no other hour outnumbers |
| Insights.PeakWindow | main.py:82 | `f"{peak}:00-{peak+1}:00"` for an integer hour; its read-back is `Insights.PeakWindowNamesHour` |
| Insights.PeakWindowNamesHour | main.py:82 | the peak text is two decimal numbers, each followed by ':00' and joined by '-', that read back as the hour and the next hour |
| Insights.LastHourWindow | main.py:82 | hour 23 gives '23:00-24:00': no wrap at midnight |
| Insights.Trunc | main.py:89 | `int()` truncates toward zero |
| Insights.PricesOn | main.py:88 | a route's group has one price per record on the route |
| Insights.PricesOnSelects | main.py:88 | a route's group is the `price` column of the rows the route selects, in row order |
| Insights.RouteMeans | main.py:88 | one row per route of the frame, routes strictly ascending, each with the mean price of its records |
| Insights.BestDeals | main.py:88 | `groupby('route')['price'].mean().nsmallest(3)`; its properties are `Insights.BestDealsRanked` |
| Insights.BestDealsRanked | main.py:88 | at most three different routes, each with its exact mean, cheapest first; a route left out costs no less than any shown; fewer than three shown means all are shown |
| Insights.TopAirlines | main.py:96 | `value_counts().head(3)` of the `airline` column; its properties are `Insights.TopAirlinesRanked` |
| Insights.TopAirlinesRanked | main.py:96 | at most three different airlines with their exact flight counts, busiest first; an airline left out has no more flights than any shown; fewer than three shown means all are shown |
| Insights.DealItem | main.py:89 | one best-deals entry, corrected: the route, ' ($', the truncated mean and ')' |
| Insights.DealItemReadsBack | main.py:89 | an entry is the route, ' ($', the truncated mean in decimal (after '-' when negative), and ')' |
| Insights.DealsText | main.py:89-90 | the corrected entries joined by ', ' |
| Insights.DealItemAsWritten | main.py:89 | one best-deals entry as written, without the closing ')' |
| Insights.DealsTextAsWritten | main.py:89-90 | the as-written entries joined by ', ' |
| Insights.AirlineItem | main.py:97 | one top-airlines entry: the airline, ' (', the count and ' flights)' |
| Insights.AirlineItemReadsBack | main.py:97 | an entry is the airline name, ' (', decimal digits that read back as the flight count, and ' flights)' |
| Insights.AirlinesText | main.py:97-98 | the entries joined by ', ' |
| Insights.InsightsOf | main.py:73-110 | the peak field is 'Data unavailable' exactly when there is a `datetime` column yielding no hour, and then all three fields are; otherwise the peak is a most frequent hour or 'No time data', and deals and airlines are computed or name the missing column |
| Insights.GenerateInsights | main.py:73-110 | the method returns `InsightsOf`; it adds or overwrites the frame's `hour` column exactly when there is a `datetime` column that converts, even when `idxmax` then raises, and otherwise leaves the frame as it was |
| Insights.EmptyApiFrame | main.py:79-100 | the route-only frame of an empty API answer gives 'No time data', 'No route/price data' and 'No airline data' |
| Insights.NoValidHours | main.py:80-108 | a `datetime` column holding only NaT makes `idxmax` raise, so all three fields read 'Data unavailable' |
| Insights.OneRouteDeals | main.py:88-90 | two SYD-MEL flights at 100 and 200 give the single deal 'SYD-MEL ($150)' |
| Insights.DealItemUnclosed | main.py:89 | each deal as written ends in a digit of the price and leaves its '(' open; the corrected item is the written one plus ')' |
| Insights.OneRouteDealsAsWritten | main.py:89 | as written, the two-flight frame gives 'SYD-MEL ($150' |
| Insights.FractionalWindowDiffers | main.py:80-82 | a float `hour` column prints a different text from the intended 'H:00-H+1:00' for every hour; an integer column prints the intended text |
| Insights.PeakWindowAsWritten | main.py:82 | the f-string as written: the intended text on an integer `hour` column, and 'H.0:00-H+1.0:00' on a float one |
| Insights.PeakTextAsWritten | main.py:80-82 | the peak text as written: the float form exactly when the `hour` column holds a NaN |
| Insights.NaTGivesFractionalHour | main.py:80-82 | a flight at 14:00 and one with no time give '14.0:00-15.0:00' as written, against the intended '14:00-15:00' |
| Charts.RouteCounts | main.py:167 | `value_counts().head(5)` of the `route` column; its properties are `Charts.RouteCountsRanked` |
| Charts.AirlineCounts | main.py:188 | `value_counts()` of the `airline` column; its properties are `Charts.AirlineShares` |
| Charts.ChartsOf | main.py:163-195 | no chart for an empty frame; otherwise a route chart exactly when there is a `route` column and an airline chart exactly when there is an `airline` column, holding their count tables |
| Charts.RouteCountsRanked | main.py:167 | the route chart shows at most five different routes with exact counts, busiest first; a route left out has no more flights than any shown; fewer than five shown means all are shown |
| Charts.AirlineShares | main.py:188 | the pie has each airline of the frame once, each with a positive count equal to its flights, and the counts add up to the number of records |
| Charts.SimulatedRouteChart | main.py:167 | on the 50 generated records the route chart leaves no route out and its counts add up to 50 |
| Dashboard.RouteOptions | main.py:217 | the route list is strictly ascending and holds exactly the routes of the filtered frame, or nothing without a `route` column |
| Dashboard.AirlineOptions | main.py:218 | the airline list is strictly ascending and holds exactly the airlines of the filtered frame, or nothing without an `airline` column |
| Dashboard.TrendFails | main.py:177-178 | the price-trend chart raises: the filtered frame is non-empty, has `datetime` and `price` columns, and its times are text |
| Dashboard.PageOf | main.py:115-225 | the page of the filtered rows, or the default page (no chart, 'No data' insights, empty lists) when the price-trend chart raises |
| Dashboard.IntendedPageOf | main.py:145-218 | the page of the filtered rows with no exception from the price trend |
| Dashboard.ServeDashboard | main.py:135-225 | the page is `PageOf`; when a step runs, or the price-trend chart raises, the memoised frame is untouched; otherwise it is the frame the insights write their `hour` column into |
| Dashboard.BlankFormShowsAll | main.py:115-225 | an empty form gives the charts and insights of the whole frame and lists every route and airline, except on a frame with text times and a `price` column, where it gives the default page |
| Dashboard.ApiDataNeverShown | main.py:163-225 | with any frame built from an API answer and any form, the page has no chart and empty route and airline lists; when a flight passes the filter it is the default page, 'No data' for every insight |
| Dashboard.IntendedPageShowsData | main.py:163-218 | with the intended page, an API frame with a flight left after filtering gets both charts from the filtered rows and lists holding their routes and airlines |
| Dashboard.RouteFilterNarrowsRouteList | main.py:146-217 | after a route filter the route list offers only that route, because it is built from the filtered frame |
| Dashboard.NothingMatches | main.py:163-218 | a form that matches no flight gives no charts and empty lists, and 'Data unavailable' insights on a frame with a `datetime` column |

## Left out

- Flask plumbing is not modelled: routing, reading `request.form`, `render_template`, the `current_filters` and `last_updated` entries of both payloads, and `app.run` (main.py:112-143, 212-228). The form arrives as `Filters.Criteria`.
- The flight table at main.py:200-210 is not modelled. It is reached on a non-empty frame only when the price-trend chart did not raise, that is with generated times, whose `strftime` formatting does not fail.
- The HTTP request, its timeout and JSON decoding are not modelled: they are network I/O. A failed request or undecodable body is `Response.Unreachable`, and so is a top-level body that is not an object.
- Some JSON entry shapes are not modelled. Every element of `data` is taken to be an object, every leaf field a string, and `price` a number or absent. A `null` or non-string leaf is not modelled; Python would print it as 'None' or format it.
- A `null` price is not modelled; in pandas it would become NaN.
- `lru_cache` is not modelled, because it is process-global state. The memoised frame is the `cache` argument of `Dashboard.ServeDashboard`.
- `print` logging is not modelled.
- `datetime.now()` is not modelled, and a generated timestamp keeps only its hour.
- Generator.GenerateSimulatedData: states the count, the value lists and the ranges only, not which values are drawn; `Generator.Rng` is a stand-in for numpy's generator.
- `pd.to_datetime` is applied cell by cell through `toHour`. Whole-column behaviour is not captured, such as format inference from the first element or mixed time zones.
- `float()` is the `parse` argument. A bound of 'nan' or 'inf' is not representable.
- Prices are exact reals. Float rounding in `mean()` is not modelled.
- The price-trend chart's table, `pd.Grouper(freq='6H')` (main.py:178), is not modelled: its resampling rules are not visible in the source. Only whether it raises is modelled (`Dashboard.TrendFails`). The plotly figures and their HTML (main.py:169-195) are not modelled either.
- Tables.ValueCounts: ties between equal counts are broken by first appearance in the column. pandas does not promise an order, so `Insights.PeakHour` and the top-k tables fix one.
- Dashboard.ServeDashboard: a filtered copy starts without the `hour` column, where pandas would carry over the filtered column. The column is never read.
- Dashboard.ServeDashboard: takes the two lists before calling the insights rather than after, because they read only the `route` and `airline` columns, which the insights do not touch.
- Insights.InsightsOf: uses the corrected texts of the findings below, '(…)' closed and integer hours, and so do `Insights.GenerateInsights`, `Dashboard.PageOf` and `Dashboard.ServeDashboard`, which are built on it: on a page of generated data their best-deals text reads 'SYD-MEL ($150)' where main.py serves 'SYD-MEL ($150'. The as-written texts are `Insights.DealItemAsWritten` and `Insights.PeakTextAsWritten`.

## Findings

| source | as written | input that shows it | evidently intended | confidence | as-written member | corrected member |
|---|---|---|---|---|---|---|
| main.py:89 | each best-deals item opens '(' before the price and never closes it | two SYD-MEL flights priced 100 and 200 give 'SYD-MEL ($150' | 'SYD-MEL ($150)' | not executed; high | Insights.OneRouteDealsAsWritten | Insights.OneRouteDeals |
| main.py:177-178 | the price trend groups on `datetime` without converting it, and a frame built from the API holds its times as text, so `pd.Grouper` raises and the view serves its default page | any API answer with one flight and a blank form gives no charts, 'No data' insights and empty lists | the page of the API flights: route and airline charts and lists from the filtered rows | not executed; medium | Dashboard.ApiDataNeverShown | Dashboard.IntendedPageShowsData |
| main.py:80-82 | the peak hour is printed as the `hour` column stores it; once any timestamp is NaT the column holds floats | a flight at 14:00 and a flight with an empty time give '14.0:00-15.0:00' | '14:00-15:00' | not executed; medium | Insights.NaTGivesFractionalHour | Insights.PeakWindowNamesHour |

`Dashboard.PageOf` and `Dashboard.ServeDashboard` keep the as-written
behaviour of main.py:177-178, because that failure decides what every
API-sourced page shows; the corrected page is `Dashboard.IntendedPageOf`, and
`Dashboard.BlankFormShowsAll` states both cases. For the other two rows they
use the corrected texts: a closed '(…)' and integer hours.

The main.py:80-82 text cannot reach the page as main.py stands: only frames
built from the API can hold a missing time, and a non-empty one always fails
at main.py:178 before `generate_insights` runs (`Dashboard.ApiDataNeverShown`).
The '14.0:00-15.0:00' text would appear once that failure is fixed.
