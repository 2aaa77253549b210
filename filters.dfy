/**
 The filter block of `dashboard` (main.py): up to four boolean-mask
 selections applied one after another, each only when its column exists and
 its form field is filled in. A price field that does not parse as a number
 is ignored. Python's `float()` is passed in as `parse`.
 */
module Filters {
  import opened Wrappers
  import opened Flights
  import opened Tables

  /** The four form fields, as submitted (empty when not filled in). */
  datatype Criteria = Criteria(route: string, minPrice: string, maxPrice: string, airline: string)

  const Blank: Criteria := Criteria("", "", "", "")

  /** One boolean mask of the filter block. */
  datatype Condition =
    | RouteIs(route: string)
    | PriceAtLeast(least: real)
    | PriceAtMost(most: real)
    | AirlineIs(airline: string)

  predicate Holds(c: Condition, x: FlightRecord) {
    match c
    case RouteIs(route) => x.route == route
    case PriceAtLeast(least) => x.price >= least
    case PriceAtMost(most) => x.price <= most
    case AirlineIs(airline) => x.airline == airline
  }

  /** `df[mask]`: the rows satisfying the condition, in their order, each as
      often as it occurs in `rows`. */
  function Where(rows: seq<FlightRecord>, c: Condition): (r: seq<FlightRecord>)
    ensures Sub(r, rows)
    ensures forall x :: multiset(r)[x] == if Holds(c, x) then multiset(rows)[x] else 0
  {
    if rows == [] then []
    else
      var rest := Where(rows[1..], c);
      assert rows == [rows[0]] + rows[1..];
      if Holds(c, rows[0]) then [rows[0]] + rest else rest
  }

  /** The bound a price field sets: none when it is empty (the `if` on the
      field) or when `float()` raises ValueError (the `except: pass`). */
  function Bound(text: string, parse: string -> Option<real>): (b: Option<real>)
    ensures text == "" ==> b.None?
    ensures text != "" ==> b == parse(text)
  {
    if text == "" then None else parse(text)
  }

  /** One step of the filter block: `df = df[mask]` when `on`, else `df` as is. */
  function Step(rows: seq<FlightRecord>, on: bool, c: Condition): (r: seq<FlightRecord>)
    ensures Sub(r, rows)
    ensures forall x :: multiset(r)[x] == if on && !Holds(c, x) then 0 else multiset(rows)[x]
  {
    if on then Where(rows, c) else SubReflexive(rows); rows
  }

  /** The filter block: route, then minimum price, then maximum price, then
      airline, each step reassigning the frame. */
  function Filter(columns: set<Column>, rows: seq<FlightRecord>, c: Criteria, parse: string -> Option<real>): seq<FlightRecord> {
    var least := Bound(c.minPrice, parse);
    var most := Bound(c.maxPrice, parse);
    var byRoute := Step(rows, Route in columns && c.route != "", RouteIs(c.route));
    var byMin := Step(byRoute, Price in columns && least.Some?, PriceAtLeast(least.GetOr(0.0)));
    var byMax := Step(byMin, Price in columns && most.Some?, PriceAtMost(most.GetOr(0.0)));
    Step(byMax, Airline in columns && c.airline != "", AirlineIs(c.airline))
  }

  /** Whether the filter keeps a record, judged on the record alone: the
      conjunction of every criterion that applies. */
  predicate Admits(columns: set<Column>, c: Criteria, parse: string -> Option<real>, x: FlightRecord) {
    var least := Bound(c.minPrice, parse);
    var most := Bound(c.maxPrice, parse);
    && (Route in columns && c.route != "" ==> x.route == c.route)
    && (Price in columns && least.Some? ==> x.price >= least.value)
    && (Price in columns && most.Some? ==> x.price <= most.value)
    && (Airline in columns && c.airline != "" ==> x.airline == c.airline)
  }

  /** Whether some step of the filter block runs, so that `df` is rebound to
      a new frame. */
  predicate Applies(columns: set<Column>, c: Criteria, parse: string -> Option<real>) {
    || (Route in columns && c.route != "")
    || (Price in columns && Bound(c.minPrice, parse).Some?)
    || (Price in columns && Bound(c.maxPrice, parse).Some?)
    || (Airline in columns && c.airline != "")
  }

  /** The filter keeps an order-preserving subsequence of the rows: exactly
      the records that satisfy every applicable criterion, each as often as
      it occurs. */
  lemma FilterKeepsAdmitted(columns: set<Column>, rows: seq<FlightRecord>, c: Criteria, parse: string -> Option<real>)
    ensures var r := Filter(columns, rows, c, parse);
      && Sub(r, rows)
      && forall x :: multiset(r)[x] == if Admits(columns, c, parse, x) then multiset(rows)[x] else 0
  {
    FilterIsSub(columns, rows, c, parse);
    forall x
      ensures multiset(Filter(columns, rows, c, parse))[x] == if Admits(columns, c, parse, x) then multiset(rows)[x] else 0
    {
      FilterCount(columns, rows, c, parse, x);
    }
  }

  lemma FilterIsSub(columns: set<Column>, rows: seq<FlightRecord>, c: Criteria, parse: string -> Option<real>)
    ensures Sub(Filter(columns, rows, c, parse), rows)
  {
    var least := Bound(c.minPrice, parse);
    var most := Bound(c.maxPrice, parse);
    var byRoute := Step(rows, Route in columns && c.route != "", RouteIs(c.route));
    var byMin := Step(byRoute, Price in columns && least.Some?, PriceAtLeast(least.GetOr(0.0)));
    var byMax := Step(byMin, Price in columns && most.Some?, PriceAtMost(most.GetOr(0.0)));
    SubTransitive(byMin, byRoute, rows);
    SubTransitive(byMax, byMin, rows);
    SubTransitive(Filter(columns, rows, c, parse), byMax, rows);
  }

  /** The count of one record through the four steps. */
  lemma FilterCount(columns: set<Column>, rows: seq<FlightRecord>, c: Criteria, parse: string -> Option<real>, x: FlightRecord)
    ensures multiset(Filter(columns, rows, c, parse))[x] == if Admits(columns, c, parse, x) then multiset(rows)[x] else 0
  {
    var least := Bound(c.minPrice, parse);
    var most := Bound(c.maxPrice, parse);
    StepsCount(rows, x,
      Route in columns && c.route != "", RouteIs(c.route),
      Price in columns && least.Some?, PriceAtLeast(least.GetOr(0.0)),
      Price in columns && most.Some?, PriceAtMost(most.GetOr(0.0)),
      Airline in columns && c.airline != "", AirlineIs(c.airline));
    AdmitsAsSteps(columns, c, parse, x);
  }

  /** Admits says that each step that runs keeps the record. */
  lemma AdmitsAsSteps(columns: set<Column>, c: Criteria, parse: string -> Option<real>, x: FlightRecord)
    ensures var least, most := Bound(c.minPrice, parse), Bound(c.maxPrice, parse);
      Admits(columns, c, parse, x) <==>
        && (Route in columns && c.route != "" ==> Holds(RouteIs(c.route), x))
        && (Price in columns && least.Some? ==> Holds(PriceAtLeast(least.GetOr(0.0)), x))
        && (Price in columns && most.Some? ==> Holds(PriceAtMost(most.GetOr(0.0)), x))
        && (Airline in columns && c.airline != "" ==> Holds(AirlineIs(c.airline), x))
  {
  }

  /** Four steps in a row keep a record as often as it occurs exactly when
      each step that runs keeps it. */
  lemma StepsCount(rows: seq<FlightRecord>, x: FlightRecord,
                   on1: bool, c1: Condition, on2: bool, c2: Condition,
                   on3: bool, c3: Condition, on4: bool, c4: Condition)
    ensures multiset(Step(Step(Step(Step(rows, on1, c1), on2, c2), on3, c3), on4, c4))[x] ==
            if (on1 ==> Holds(c1, x)) && (on2 ==> Holds(c2, x)) && (on3 ==> Holds(c3, x)) && (on4 ==> Holds(c4, x))
            then multiset(rows)[x] else 0
  {
    var r1 := Step(rows, on1, c1);
    var r2 := Step(r1, on2, c2);
    var r3 := Step(r2, on3, c3);
    assert multiset(Step(r3, on4, c4))[x] == if on4 && !Holds(c4, x) then 0 else multiset(r3)[x];
    assert multiset(r3)[x] == if on3 && !Holds(c3, x) then 0 else multiset(r2)[x];
    assert multiset(r2)[x] == if on2 && !Holds(c2, x) then 0 else multiset(r1)[x];
  }

  /** Every surviving record meets each criterion that applies: the exact
      route and airline, and the parsed price bounds. */
  lemma FilterMeetsCriteria(columns: set<Column>, rows: seq<FlightRecord>, c: Criteria, parse: string -> Option<real>)
    ensures var r := Filter(columns, rows, c, parse);
      && (Route in columns && c.route != "" ==> forall x :: x in r ==> x.route == c.route)
      && (Airline in columns && c.airline != "" ==> forall x :: x in r ==> x.airline == c.airline)
      && (Price in columns && c.minPrice != "" && parse(c.minPrice).Some? ==>
            forall x :: x in r ==> x.price >= parse(c.minPrice).value)
      && (Price in columns && c.maxPrice != "" && parse(c.maxPrice).Some? ==>
            forall x :: x in r ==> x.price <= parse(c.maxPrice).value)
  {
    var r := Filter(columns, rows, c, parse);
    FilterKeepsAdmitted(columns, rows, c, parse);
    forall x | x in r
      ensures Admits(columns, c, parse, x)
    {
      assert multiset(r)[x] > 0;
    }
  }

  /** A record that satisfies every applicable criterion is kept. */
  lemma FilterKeepsMatches(columns: set<Column>, rows: seq<FlightRecord>, c: Criteria, parse: string -> Option<real>, x: FlightRecord)
    requires x in rows && Admits(columns, c, parse, x)
    ensures x in Filter(columns, rows, c, parse)
  {
    FilterKeepsAdmitted(columns, rows, c, parse);
    assert multiset(rows)[x] > 0;
  }

  /** With every field empty, the filter returns the rows unchanged and does
      not rebind the frame. */
  lemma FilterBlankIsIdentity(columns: set<Column>, rows: seq<FlightRecord>, parse: string -> Option<real>)
    ensures Filter(columns, rows, Blank, parse) == rows
    ensures !Applies(columns, Blank, parse)
  {
  }

  /** A price field that does not parse removes nothing: the result is the
      same as with the field left empty. */
  lemma UnparsedBoundIgnored(columns: set<Column>, rows: seq<FlightRecord>, c: Criteria, parse: string -> Option<real>)
    ensures parse(c.minPrice).None? ==>
              Filter(columns, rows, c, parse) == Filter(columns, rows, c.(minPrice := ""), parse)
    ensures parse(c.maxPrice).None? ==>
              Filter(columns, rows, c, parse) == Filter(columns, rows, c.(maxPrice := ""), parse)
  {
  }

  function PricesOf(rows: seq<FlightRecord>): (ps: seq<real>)
    ensures |ps| == |rows| && forall i :: 0 <= i < |rows| ==> ps[i] == rows[i].price
  {
    seq(|rows|, i requires 0 <= i < |rows| => rows[i].price)
  }

  /** Minimum "50" and maximum "not-a-number" on prices 40, 60 and 80 keep
      the flights at 60 and 80: the minimum applies, the maximum is ignored. */
  lemma MinAppliedMaxIgnored(parse: string -> Option<real>, a: FlightRecord, b: FlightRecord, d: FlightRecord)
    requires parse("50") == Some(50.0) && parse("not-a-number") == None
    requires a.price == 40.0 && b.price == 60.0 && d.price == 80.0
    ensures PricesOf(Filter(RecordColumns, [a, b, d], Criteria("", "50", "not-a-number", ""), parse)) == [60.0, 80.0]
  {
    var c := Criteria("", "50", "not-a-number", "");
    var k := PriceAtLeast(50.0);
    assert Where([d], k) == [d];
    assert [b, d][1..] == [d];
    assert Where([b, d], k) == [b, d];
    assert [a, b, d][1..] == [b, d];
    assert Where([a, b, d], k) == [b, d];
    assert Filter(RecordColumns, [a, b, d], c, parse) == [b, d];
  }
}
