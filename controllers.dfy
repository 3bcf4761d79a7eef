/** The OData controllers of the flight information service. Each holds the
    collection it was given and answers two reads: the whole collection, and
    the one element with a given key. Neither read changes the collection:
    a controller is a value here, and its actions are functions of it. */
module Controllers {
  import opened Common
  import opened Queries
  import opened Models

  /** The HTTP answer of an action: 200 with a body, or 404. */
  datatype ActionResult<T> = Ok(value: T) | NotFound

  /** The key predicate of `GET /odata/Airports(key)`. */
  function AirportKey(key: string): Airport -> bool
  {
    (a: Airport) => a.code == key
  }

  /** The key predicate of `GET /odata/Flights(flightDate, tailNumber)`. */
  function FlightKey(flightDate: Date, tailNumber: string): Flight -> bool
  {
    (f: Flight) => f.flightDate == flightDate && f.tailNumber == tailNumber
  }

  /** The key predicate of `GET /odata/Weather(airportCode, date)`. */
  function WeatherKey(airportCode: string, date: Date): Weather -> bool
  {
    (w: Weather) => w.airportCode == airportCode && w.date == date
  }

  datatype AirportsController = AirportsController(airports: seq<Airport>)
  {
    /** `Get()`: the injected collection itself, unfiltered. */
    function GetAll(): (r: ActionResult<seq<Airport>>)
      ensures r.Ok? && r.value == airports
    {
      Ok(airports)
    }

    /** `Get(key)`: the single airport with that code, 404 when there is
        none, and an exception when the code is duplicated. */
    function Get(key: string): (r: Result<ActionResult<Airport>, QueryError>)
      ensures r == Success(NotFound) <==> forall k :: 0 <= k < |airports| ==> airports[k].code != key
      ensures r.Success? && r.value.Ok? ==>
                r.value.value in airports && r.value.value.code == key
                && Where(airports, AirportKey(key)) == [r.value.value]
      ensures r.Failure? <==> |Where(airports, AirportKey(key))| >= 2
    {
      match SingleOrDefault(airports, AirportKey(key))
      case Failure(e) =>
        assert Where(airports, AirportKey(key))[0] in airports;
        Failure(e)
      case Success(None) => Success(NotFound)
      case Success(Some(a)) =>
        assert Where(airports, AirportKey(key))[0] == a;
        Success(Ok(a))
    }
  }

  datatype FlightsController = FlightsController(flights: seq<Flight>)
  {
    /** `Get()`: the injected collection itself, unfiltered. */
    function GetAll(): (r: ActionResult<seq<Flight>>)
      ensures r.Ok? && r.value == flights
    {
      Ok(flights)
    }

    /** `Get(flightDate, tailNumber)`: the single flight matching both key
        parts, 404 when none does, and an exception when several do. */
    function Get(flightDate: Date, tailNumber: string): (r: Result<ActionResult<Flight>, QueryError>)
      ensures r == Success(NotFound) <==>
                forall k :: 0 <= k < |flights| ==> !(flights[k].flightDate == flightDate && flights[k].tailNumber == tailNumber)
      ensures r.Success? && r.value.Ok? ==>
                r.value.value in flights
                && r.value.value.flightDate == flightDate && r.value.value.tailNumber == tailNumber
                && Where(flights, FlightKey(flightDate, tailNumber)) == [r.value.value]
      ensures r.Failure? <==> |Where(flights, FlightKey(flightDate, tailNumber))| >= 2
    {
      match SingleOrDefault(flights, FlightKey(flightDate, tailNumber))
      case Failure(e) =>
        assert Where(flights, FlightKey(flightDate, tailNumber))[0] in flights;
        Failure(e)
      case Success(None) => Success(NotFound)
      case Success(Some(f)) =>
        assert Where(flights, FlightKey(flightDate, tailNumber))[0] == f;
        Success(Ok(f))
    }
  }

  datatype WeatherController = WeatherController(weather: seq<Weather>)
  {
    /** `Get()`: the injected collection itself, unfiltered. */
    function GetAll(): (r: ActionResult<seq<Weather>>)
      ensures r.Ok? && r.value == weather
    {
      Ok(weather)
    }

    /** `Get(airportCode, date)`: the single record matching both key parts,
        404 when none does, and an exception when several do. */
    function Get(airportCode: string, date: Date): (r: Result<ActionResult<Weather>, QueryError>)
      ensures r == Success(NotFound) <==>
                forall k :: 0 <= k < |weather| ==> !(weather[k].airportCode == airportCode && weather[k].date == date)
      ensures r.Success? && r.value.Ok? ==>
                r.value.value in weather
                && r.value.value.airportCode == airportCode && r.value.value.date == date
                && Where(weather, WeatherKey(airportCode, date)) == [r.value.value]
      ensures r.Failure? <==> |Where(weather, WeatherKey(airportCode, date))| >= 2
    {
      match SingleOrDefault(weather, WeatherKey(airportCode, date))
      case Failure(e) =>
        assert Where(weather, WeatherKey(airportCode, date))[0] in weather;
        Failure(e)
      case Success(None) => Success(NotFound)
      case Success(Some(w)) =>
        assert Where(weather, WeatherKey(airportCode, date))[0] == w;
        Success(Ok(w))
    }
  }

  /** Airport codes identify the airports: no two positions share one. */
  predicate AirportCodesUnique(airports: seq<Airport>)
  {
    forall i, j :: 0 <= i < |airports| && 0 <= j < |airports| && i != j ==> airports[i].code != airports[j].code
  }

  /** (date, tail number) identifies the flights. */
  predicate FlightKeysUnique(flights: seq<Flight>)
  {
    forall i, j :: 0 <= i < |flights| && 0 <= j < |flights| && i != j ==>
      !(flights[i].flightDate == flights[j].flightDate && flights[i].tailNumber == flights[j].tailNumber)
  }

  /** (airport code, date) identifies the weather records. */
  predicate WeatherKeysUnique(weather: seq<Weather>)
  {
    forall i, j :: 0 <= i < |weather| && 0 <= j < |weather| && i != j ==>
      !(weather[i].airportCode == weather[j].airportCode && weather[i].date == weather[j].date)
  }

  /** When the codes are unique, every airport of the collection is found
      by its own code, and the key read never fails. */
  lemma AirportsGetFindsEach(airports: seq<Airport>, i: nat)
    requires AirportCodesUnique(airports) && i < |airports|
    ensures AirportsController(airports).Get(airports[i].code) == Success(Ok(airports[i]))
  {
    UniqueKeyLookupFinds(airports, AirportKey(airports[i].code), i);
  }

  /** When (date, tail number) is a key, every flight is found by its own key. */
  lemma FlightsGetFindsEach(flights: seq<Flight>, i: nat)
    requires FlightKeysUnique(flights) && i < |flights|
    ensures FlightsController(flights).Get(flights[i].flightDate, flights[i].tailNumber) == Success(Ok(flights[i]))
  {
    UniqueKeyLookupFinds(flights, FlightKey(flights[i].flightDate, flights[i].tailNumber), i);
  }

  /** When (airport code, date) is a key, every weather record is found by its own key. */
  lemma WeatherGetFindsEach(weather: seq<Weather>, i: nat)
    requires WeatherKeysUnique(weather) && i < |weather|
    ensures WeatherController(weather).Get(weather[i].airportCode, weather[i].date) == Success(Ok(weather[i]))
  {
    UniqueKeyLookupFinds(weather, WeatherKey(weather[i].airportCode, weather[i].date), i);
  }
}
