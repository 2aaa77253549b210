/**
 The flight table the dashboard works on: one record per flight with six
 columns, and the pandas DataFrame that holds the records, which
 `generate_insights` extends in place with an `hour` column.
 */
module Flights {
  import opened Wrappers

  /** An hour of the day, as `Timestamp.hour` gives it. */
  type HourOfDay = h: int | 0 <= h < 24

  /** A cell of the `datetime` column: the text the API gave for the scheduled
      departure, or the datetime the generator built (of which only the hour
      is modelled). */
  datatype Stamp = Text(text: string) | Clock(hour: HourOfDay)

  /** One row of the flight table. */
  datatype FlightRecord = FlightRecord(
    datetime: Stamp,
    route: string,
    price: real,
    airline: string,
    flightNumber: string,
    status: string)

  /** The columns a frame may have; `Hour` is the one `generate_insights` adds. */
  datatype Column = DateTime | Route | Price | Airline | FlightNumber | Status | Hour

  /** The columns of a frame built from at least one record. */
  const RecordColumns: set<Column> := {DateTime, Route, Price, Airline, FlightNumber, Status}

  /** The `route` column. */
  function RoutesOf(rows: seq<FlightRecord>): (rs: seq<string>)
    ensures |rs| == |rows| && forall i :: 0 <= i < |rows| ==> rs[i] == rows[i].route
  {
    seq(|rows|, i requires 0 <= i < |rows| => rows[i].route)
  }

  /** The `airline` column. */
  function AirlinesOf(rows: seq<FlightRecord>): (as_: seq<string>)
    ensures |as_| == |rows| && forall i :: 0 <= i < |rows| ==> as_[i] == rows[i].airline
  {
    seq(|rows|, i requires 0 <= i < |rows| => rows[i].airline)
  }

  /** A pandas DataFrame of flight records. `hours` is the `hour` column, with
      None for NaN; it means something only while `Hour` is among `columns`. */
  class Frame {
    var columns: set<Column>
    var rows: seq<FlightRecord>
    var hours: seq<Option<HourOfDay>>

    ghost predicate Valid()
      reads this
    {
      Hour in columns ==> |hours| == |rows|
    }

    constructor (columns: set<Column>, rows: seq<FlightRecord>)
      requires Hour !in columns
      ensures Valid()
      ensures this.columns == columns && this.rows == rows && hours == []
    {
      this.columns := columns;
      this.rows := rows;
      hours := [];
    }
  }
}
