/**
 The synthetic flight table used when the API fails
 (`generate_simulated_data`, main.py), and the fallback that chooses between
 the two. The random draws come from `Rng`, a stand-in for numpy's generator:
 the model relies only on the range each draw promises, never on its value.
 */
module Generator {
  import opened Flights
  import opened Text
  import Extraction

  /** Random draws with numpy's ranges. The arithmetic inside is arbitrary;
      only the postconditions matter. */
  class Rng {
    var state: nat

    constructor (seed: nat)
      ensures state == seed
    {
      state := seed;
    }

    /** A value in [0, n). */
    method Below(n: nat) returns (r: nat)
      requires n > 0
      modifies this
      ensures r < n
    {
      r := state % n;
      state := (state * 1103515245 + 12345) % 2147483648;
    }

    /** `np.random.randint(lo, hi)`: the upper bound is excluded. */
    method RandInt(lo: int, hi: int) returns (r: int)
      requires lo < hi
      modifies this
      ensures lo <= r < hi
    {
      var k := Below(hi - lo);
      r := lo + k;
    }

    /** `np.random.choice(xs)`. */
    method Choice<T>(xs: seq<T>) returns (x: T)
      requires xs != []
      modifies this
      ensures x in xs
    {
      var k := Below(|xs|);
      x := xs[k];
    }

    /** `np.random.random()`: a value in [0, 1). */
    method Random() returns (u: real)
      modifies this
      ensures 0.0 <= u < 1.0
    {
      var k := Below(1000000);
      u := k as real / 1000000.0;
    }
  }

  const Routes: seq<string> := ["SYD-MEL", "MEL-BNE", "BNE-PER", "PER-ADL", "ADL-CBR"]
  const Airlines: seq<string> := ["Qantas", "Virgin Australia", "Jetstar", "Rex", "Air New Zealand"]
  const CarrierCodes: seq<string> := ["QA", "VA", "JQ", "RX", "NZ"]
  const Statuses: seq<string> := ["On Time", "Delayed", "Cancelled"]

  /** The generator always produces this many records. */
  const SimulatedCount: nat := 50

  /** A carrier code followed by a three-digit number from 100 to 998. */
  predicate IsSimulatedFlightNumber(s: string) {
    |s| == 5 && s[..2] in CarrierCodes && AllDigits(s[2..]) && 100 <= ParseNat(s[2..]) <= 998
  }

  /** What every generated record satisfies: values from the fixed lists, a
      time with an hour and a price of 150 plus 70 (seven characters of route,
      times 10) scaled by a factor in [0.8, 1.2). */
  predicate IsSimulated(r: FlightRecord) {
    && r.datetime.Clock?
    && r.route in Routes
    && r.airline in Airlines
    && r.status in Statuses
    && 206.0 <= r.price < 234.0
    && IsSimulatedFlightNumber(r.flightNumber)
  }

  /** The price formula: 150 + len(route) * 10 * (0.8 + 0.4 * u). */
  function SimulatedPrice(route: string, u: real): (p: real)
    requires route in Routes && 0.0 <= u < 1.0
    ensures 206.0 <= p < 234.0
  {
    150.0 + ((|route| * 10) as real) * (0.8 + 0.4 * u)
  }

  /** `f"{code}{number}"` for the generated flight numbers. */
  function SimulatedFlightNumber(code: string, n: int): (s: string)
    requires code in CarrierCodes && 100 <= n < 999
    ensures IsSimulatedFlightNumber(s)
    ensures s[..2] == code && AllDigits(s[2..]) && ParseNat(s[2..]) == n
  {
    ThreeDigits(n);
    ParseNatToString(n);
    var s := code + NatToString(n);
    assert s[..2] == code && s[2..] == NatToString(n);
    s
  }

  /** The loop of `generate_simulated_data`: appends 50 records. */
  method GenerateSimulatedData(rng: Rng) returns (rows: seq<FlightRecord>)
    modifies rng
    ensures |rows| == SimulatedCount
    ensures forall i :: 0 <= i < |rows| ==> IsSimulated(rows[i])
  {
    rows := [];
    for n := 0 to SimulatedCount
      invariant |rows| == n
      invariant forall i :: 0 <= i < |rows| ==> IsSimulated(rows[i])
    {
      var route := rng.Choice(Routes);
      var hour := rng.RandInt(0, 24);
      var u := rng.Random();
      var airline := rng.Choice(Airlines);
      var code := rng.Choice(CarrierCodes);
      var number := rng.RandInt(100, 999);
      var status := rng.Choice(Statuses);
      rows := rows + [FlightRecord(
        Clock(hour),
        route,
        SimulatedPrice(route, u),
        airline,
        SimulatedFlightNumber(code, number),
        status)];
    }
  }

  /** `fetch_flight_data` with its fallback: the API's frame when extraction
      succeeds, otherwise a fresh synthetic frame with all six columns. */
  method LoadFlightData(response: Extraction.Response, rng: Rng) returns (df: Frame)
    modifies rng
    ensures fresh(df) && df.Valid() && Hour !in df.columns
    ensures Extraction.Fetch(response).Fetched? ==>
              df.columns == Extraction.Fetch(response).columns && df.rows == Extraction.Fetch(response).rows
    ensures Extraction.Fetch(response).ApiError? ==>
              df.columns == RecordColumns && |df.rows| == SimulatedCount
              && forall i :: 0 <= i < |df.rows| ==> IsSimulated(df.rows[i])
  {
    var fetched := Extraction.FetchFlightData(response);
    if fetched.Fetched? {
      df := new Frame(fetched.columns, fetched.rows);
    } else {
      var rows := GenerateSimulatedData(rng);
      df := new Frame(RecordColumns, rows);
    }
  }
}
