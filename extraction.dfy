/**
 Turning the flight API's response into the flight table
 (`fetch_flight_data`, main.py). The HTTP request and the JSON decoding are
 not modelled: the response arrives already decoded, as one of the shapes
 below.
 */
module Extraction {
  import opened Wrappers
  import opened Flights

  /** A nested block of an API entry (`departure`, `arrival`, `airline`,
      `flight`): missing, present but not a JSON object (then `.get` on it
      raises), or an object whose fields hold text. */
  datatype Block = Absent | NotObject | Object(fields: map<string, string>)

  /** One element of the response's `data` list. */
  datatype RawEntry = RawEntry(
    departure: Block,
    arrival: Block,
    airline: Block,
    flight: Block,
    price: Option<real>,
    flightStatus: Option<string>)

  /** The response's `data` member: missing; a JSON string, which slices
      without raising, but whose first character has no `.get`; any other
      value that is not a list (null, a number, a boolean, an object), which
      raises when sliced; or the list of entries. */
  datatype DataField = Missing | Str(text: string) | NotList | Entries(entries: seq<RawEntry>)

  /** The decoded response, or Unreachable when the request or the decoding
      raised. */
  datatype Response = Unreachable | Body(data: DataField)

  /** What `fetch_flight_data` hands back before any fallback: a frame, or
      the exception that sends it to the generator. */
  datatype Fetched = Fetched(columns: set<Column>, rows: seq<FlightRecord>) | ApiError

  /** At most this many entries are read. */
  const MaxFlights: nat := 50

  predicate Has(b: Block, key: string) {
    b.Object? && key in b.fields
  }

  /** `block.get(key, default)`: None when the block is not an object. */
  function Get(b: Block, key: string, default: string): (r: Option<string>)
    ensures r.None? <==> b.NotObject?
    ensures Has(b, key) ==> r == Some(b.fields[key])
    ensures !Has(b, key) && !b.NotObject? ==> r == Some(default)
  {
    match b
    case Absent => Some(default)
    case NotObject => None
    case Object(fields) => Some(if key in fields then fields[key] else default)
  }

  /** One record built from one entry: each field is the entry's value when
      present and the source's default otherwise ('' for the time, the airport
      codes and the flight number, 0 for the price, 'Unknown' for the airline
      and the status); the route is the departure code, a dash and the
      arrival code. None when one of its blocks is not an object; a missing
      block is never an error. */
  function Extract(e: RawEntry): (r: Option<FlightRecord>)
    ensures r.None? <==> e.departure.NotObject? || e.arrival.NotObject? || e.airline.NotObject? || e.flight.NotObject?
    ensures r.Some? ==> r.value.datetime == Text(if Has(e.departure, "scheduled") then e.departure.fields["scheduled"] else "")
    ensures r.Some? ==> r.value.route == (if Has(e.departure, "iata") then e.departure.fields["iata"] else "")
                                          + "-" + (if Has(e.arrival, "iata") then e.arrival.fields["iata"] else "")
    ensures r.Some? ==> r.value.price == if e.price.Some? then e.price.value else 0.0
    ensures r.Some? ==> r.value.airline == if Has(e.airline, "name") then e.airline.fields["name"] else "Unknown"
    ensures r.Some? ==> r.value.flightNumber == if Has(e.flight, "iata") then e.flight.fields["iata"] else ""
    ensures r.Some? ==> r.value.status == if e.flightStatus.Some? then e.flightStatus.value else "Unknown"
  {
    var scheduled := Get(e.departure, "scheduled", "");
    var origin := Get(e.departure, "iata", "");
    var destination := Get(e.arrival, "iata", "");
    var name := Get(e.airline, "name", "Unknown");
    var number := Get(e.flight, "iata", "");
    if scheduled.None? || origin.None? || destination.None? || name.None? || number.None? then None
    else Some(FlightRecord(
      Text(scheduled.value),
      origin.value + "-" + destination.value,
      e.price.GetOr(0.0),
      name.value,
      number.value,
      e.flightStatus.GetOr("Unknown")))
  }

  /** Each entry's record, or None as soon as one entry raises. */
  function ExtractAll(entries: seq<RawEntry>): (r: Option<seq<FlightRecord>>)
    ensures r.Some? <==> forall i :: 0 <= i < |entries| ==> Extract(entries[i]).Some?
    ensures r.Some? ==> |r.value| == |entries|
    ensures r.Some? ==> forall i :: 0 <= i < |entries| ==> r.value[i] == Extract(entries[i]).value
  {
    if entries == [] then Some([])
    else
      var init, last := entries[..|entries| - 1], entries[|entries| - 1];
      var head := ExtractAll(init);
      var rec := Extract(last);
      assert entries == init + [last];
      if head.None? || rec.None? then None else Some(head.value + [rec.value])
  }

  /** `data.get('data', [])[:50]` can be looped over without raising: the
      member is missing, a list, or the empty string. */
  predicate Loopable(data: DataField) {
    data.Missing? || data.Entries? || data == Str("")
  }

  /** The entries the loop reads: the first 50 of `data`, none when `data` is
      missing or the empty string. */
  function Window(data: DataField): seq<RawEntry>
    requires Loopable(data)
  {
    match data
    case Missing => []
    case Str(_) => []
    case Entries(entries) => if |entries| <= MaxFlights then entries else entries[..MaxFlights]
  }

  /** The frame built from a response: one record per entry of the first 50,
      all six columns, or only `route` when there are no records; ApiError when
      the request failed, `data` is neither a list nor the empty string, or an
      entry has a block that is not an object. A missing block never fails. */
  function Fetch(response: Response): (r: Fetched)
    ensures r.Fetched? <==> response.Body? && Loopable(response.data)
                            && forall i :: 0 <= i < |Window(response.data)| ==> Extract(Window(response.data)[i]).Some?
    ensures r.Fetched? ==> |r.rows| == |Window(response.data)| <= MaxFlights
    ensures r.Fetched? ==> forall i :: 0 <= i < |r.rows| ==> r.rows[i] == Extract(Window(response.data)[i]).value
    ensures r.Fetched? ==> r.columns == if r.rows == [] then {Route} else RecordColumns
  {
    if response.Unreachable? || !Loopable(response.data) then ApiError
    else
      match ExtractAll(Window(response.data))
      case None => ApiError
      case Some(rows) => Fetched(if rows == [] then {Route} else RecordColumns, rows)
  }

  /** The extraction loop of `fetch_flight_data`: appends one record per entry. */
  method FetchFlightData(response: Response) returns (result: Fetched)
    ensures result == Fetch(response)
  {
    if response.Unreachable? || !Loopable(response.data) {
      return ApiError;
    }
    var entries := Window(response.data);
    var flights: seq<FlightRecord> := [];
    var i := 0;
    while i < |entries|
      invariant 0 <= i <= |entries|
      invariant ExtractAll(entries[..i]) == Some(flights)
    {
      var rec := Extract(entries[i]);
      assert entries[..i + 1][..i] == entries[..i];
      if rec.None? {
        ExtractAllFails(entries, i);
        return ApiError;
      }
      flights := flights + [rec.value];
      i := i + 1;
    }
    assert entries[..i] == entries;
    var columns := if flights == [] then {Route} else RecordColumns;
    result := Fetched(columns, flights);
  }

  lemma ExtractAllFails(entries: seq<RawEntry>, i: nat)
    requires i < |entries| && Extract(entries[i]).None?
    ensures ExtractAll(entries).None?
  {
  }

  /** `{"data": ""}`: the empty string slices to itself, the loop never
      runs, and the frame has only a `route` column; a non-empty string
      fails on its first character and falls back to the generator. */
  lemma StringData(text: string)
    ensures Fetch(Body(Str(text))) == if text == "" then Fetched({Route}, []) else ApiError
  {
    if text == "" {
      assert Window(Str(text)) == [];
    }
  }
}
