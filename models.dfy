/** The records of the flight information service, reduced to the fields
    that the loader and the controllers compute with: codes, dates, tail
    numbers, the resolved airport references and the two enumerations. The
    floating-point measurements and the plain descriptive columns are not
    part of this model. */
module Models {
  import opened Common

  /** A `DateOnly`. */
  datatype Date = Date(year: int, month: int, day: int)

  /** The categories of the `Distance_type` column. */
  datatype DistanceType = ShortHaul | MediumHaul | LongHaul

  /** One row of the airports file; `code` is the IATA code. */
  datatype Airport = Airport(code: string, name: string, city: string, state: string, country: string)

  /** One day of weather at one airport; `airport` is null (`None`) when no
      airport carries `airportCode`. */
  datatype Weather = Weather(airportCode: string, airport: Option<Airport>, date: Date)

  /** One flight; `departureTimeOfDay` is the underlying value of the
      `DepartureTimeOfDay` enumeration member. */
  datatype Flight = Flight(
    flightDate: Date,
    tailNumber: string,
    departureAirportCode: string,
    departureAirport: Option<Airport>,
    departureTimeOfDay: int,
    arrivalAirportCode: string,
    arrivalAirport: Option<Airport>,
    distanceType: DistanceType)
}
