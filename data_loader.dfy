/** The CSV side of the flight information service: the two column
    converters, the airport-by-code lookups that resolve a row's airport
    reference, and the loader that fills the three record lists in order
    (airports first, so that the lookups see them). Reading the files
    themselves is not modelled: each file is given as its parsed rows. */
module DataLoading {
  import opened Common
  import opened Queries
  import opened Models

  /** The `InvalidOperationException` a converter throws, with the text it
      could not convert (`None` for a null field). */
  datatype ConvertError = CannotConvert(text: Option<string>)

  /** Why reading a file stops: a row names an airport code that two or more
      airports carry, or a converter rejected one of its columns. */
  datatype LoadError = AmbiguousAirport(code: string) | Conversion(error: ConvertError)

  // ---------------------------------------------------------------------
  // DistanceTypeConverter

  const ShortHaulText := "Short Haul >1500Mi"
  const MediumHaulText := "Medium Haul <3000Mi"
  const LongHaulText := "Long Haul <6000Mi"

  /** The one text that stands for each distance category in the flights file. */
  function DistanceTypeText(d: DistanceType): string
  {
    match d
    case ShortHaul => ShortHaulText
    case MediumHaul => MediumHaulText
    case LongHaul => LongHaulText
  }

  /** No two categories share a text. */
  lemma DistanceTypeTextInjective(d: DistanceType, e: DistanceType)
    ensures DistanceTypeText(d) == DistanceTypeText(e) ==> d == e
  {
  }

  /** `DistanceTypeConverter.ConvertFromString`: an exact, case-sensitive
      match against the three texts; anything else, null included, throws. */
  function ParseDistanceType(text: Option<string>): (r: Result<DistanceType, ConvertError>)
    ensures forall d :: text == Some(DistanceTypeText(d)) ==> r == Success(d)
    ensures r.Success? ==> text == Some(DistanceTypeText(r.value))
    ensures r.Failure? ==> r.error == CannotConvert(text)
  {
    if text == Some(ShortHaulText) then Success(ShortHaul)
    else if text == Some(MediumHaulText) then Success(MediumHaul)
    else if text == Some(LongHaulText) then Success(LongHaul)
    else Failure(CannotConvert(text))
  }

  // ---------------------------------------------------------------------
  // EnumConverter<T>

  /** The upper-case form of an ASCII letter; every other character is its own. */
  function UpperAscii(c: char): char
  {
    if 'a' <= c <= 'z' then (c as int - 'a' as int + 'A' as int) as char else c
  }

  /** Ordinal comparison that ignores the case of ASCII letters. */
  predicate EqualsIgnoreCase(a: string, b: string)
  {
    |a| == |b| && forall i :: 0 <= i < |a| ==> UpperAscii(a[i]) == UpperAscii(b[i])
  }

  /** Two texts equal ignoring case to a third are equal ignoring case to
      each other. */
  lemma EqualsIgnoreCaseThrough(a: string, b: string, c: string)
    requires EqualsIgnoreCase(b, c)
    ensures EqualsIgnoreCase(a, b) <==> EqualsIgnoreCase(a, c)
  {
  }

  /** A member of an enumeration type: its declared name and its underlying value. */
  datatype EnumMember = EnumMember(name: string, value: int)

  /** The first member whose name equals `text` ignoring case. */
  function FindMember(members: seq<EnumMember>, text: string): (r: Option<EnumMember>)
    ensures r.None? <==> forall k :: 0 <= k < |members| ==> !EqualsIgnoreCase(members[k].name, text)
    ensures r.Some? ==> r.value in members && EqualsIgnoreCase(r.value.name, text)
    decreases |members|
  {
    if members == [] then None
    else if EqualsIgnoreCase(members[0].name, text) then Some(members[0])
    else FindMember(members[1..], text)
  }

  /** `EnumConverter<T>.ConvertFromString`: a case-insensitive parse of a
      member name of `T`; when it fails, null included, the converter throws. */
  function ParseEnumIgnoreCase(members: seq<EnumMember>, text: Option<string>): (r: Result<int, ConvertError>)
    ensures r.Success? <==> text.Some? && exists k :: 0 <= k < |members| && EqualsIgnoreCase(members[k].name, text.value)
    ensures r.Success? ==> exists k :: 0 <= k < |members| && members[k].value == r.value && EqualsIgnoreCase(members[k].name, text.value)
    ensures r.Failure? ==> r.error == CannotConvert(text)
  {
    if text.None? then Failure(CannotConvert(text))
    else
      match FindMember(members, text.value)
      case Some(m) => Success(m.value)
      case None => Failure(CannotConvert(text))
  }

  lemma {:induction false} FindMemberIgnoresCase(members: seq<EnumMember>, s: string, t: string)
    requires EqualsIgnoreCase(s, t)
    ensures FindMember(members, s) == FindMember(members, t)
    decreases |members|
  {
    if members != [] {
      EqualsIgnoreCaseThrough(members[0].name, s, t);
      FindMemberIgnoresCase(members[1..], s, t);
    }
  }

  /** The parse depends on the text only up to case: two spellings that
      differ in case both succeed with the same value or both fail. */
  lemma ParseEnumIgnoresCase(members: seq<EnumMember>, s: string, t: string)
    requires EqualsIgnoreCase(s, t)
    ensures ParseEnumIgnoreCase(members, Some(s)).Success? == ParseEnumIgnoreCase(members, Some(t)).Success?
    ensures ParseEnumIgnoreCase(members, Some(s)).Success? ==>
              ParseEnumIgnoreCase(members, Some(s)).value == ParseEnumIgnoreCase(members, Some(t)).value
  {
    FindMemberIgnoresCase(members, s, t);
  }

  lemma {:induction false} FindMemberFinds(members: seq<EnumMember>, i: nat, text: string)
    requires i < |members| && EqualsIgnoreCase(members[i].name, text)
    requires forall j :: 0 <= j < |members| && EqualsIgnoreCase(members[j].name, text) ==> members[j].value == members[i].value
    ensures FindMember(members, text).Some? && FindMember(members, text).value.value == members[i].value
    decreases |members|
  {
    if i > 0 && !EqualsIgnoreCase(members[0].name, text) {
      FindMemberFinds(members[1..], i - 1, text);
    }
  }

  /** Any casing of a member's name parses to that member's value, provided
      no member with another value has the same name up to case. */
  lemma ParseEnumRoundTrip(members: seq<EnumMember>, i: nat, text: string)
    requires i < |members| && EqualsIgnoreCase(members[i].name, text)
    requires forall j :: 0 <= j < |members| && EqualsIgnoreCase(members[j].name, text) ==> members[j].value == members[i].value
    ensures ParseEnumIgnoreCase(members, Some(text)) == Success(members[i].value)
  {
    FindMemberFinds(members, i, text);
  }

  // ---------------------------------------------------------------------
  // Airport-by-code lookups of WeatherMap and FlightMap

  /** The lookup predicate `a => a.Code == code`. */
  function CodeIs(code: string): Airport -> bool
  {
    (a: Airport) => a.code == code
  }

  /** `airport` is what a row naming `code` refers to: the one airport that
      carries the code, or null when no airport carries it. */
  predicate Resolves(airports: seq<Airport>, code: string, airport: Option<Airport>)
  {
    match airport
    case None => forall k :: 0 <= k < |airports| ==> airports[k].code != code
    case Some(a) => a.code == code && Where(airports, CodeIs(code)) == [a]
  }

  /** `airports.SingleOrDefault(a => a.Code == code)`. */
  function FindAirport(airports: seq<Airport>, code: string): (r: Result<Option<Airport>, LoadError>)
    ensures r.Success? ==> Resolves(airports, code, r.value)
    ensures r.Success? && r.value.Some? ==> r.value.value in airports
    ensures r.Failure? <==> |Where(airports, CodeIs(code))| >= 2
    ensures r.Failure? ==> r.error == AmbiguousAirport(code)
  {
    match SingleOrDefault(airports, CodeIs(code))
    case Success(a) =>
      assert a.Some? ==> Where(airports, CodeIs(code))[0] == a.value;
      Success(a)
    case Failure(_) => Failure(AmbiguousAirport(code))
  }

  // ---------------------------------------------------------------------
  // Rows and their conversion

  /** The columns of a weather row the model reads: `time` and `airport_id`. */
  datatype WeatherRow = WeatherRow(time: Date, airportId: string)

  /** The columns of a flight row the model reads: `FlightDate`,
      `Tail_Number`, `Dep_Airport`, `DepTime_label`, `Arr_Airport` and
      `Distance_type`. */
  datatype FlightRow = FlightRow(
    flightDate: Date,
    tailNumber: string,
    depAirport: string,
    depTimeLabel: Option<string>,
    arrAirport: string,
    distanceType: Option<string>)

  /** A weather row as `WeatherMap` builds it: the airport reference is
      resolved against `airports`. */
  function ConvertWeatherRow(airports: seq<Airport>, row: WeatherRow): (r: Result<Weather, LoadError>)
    ensures r.Success? <==> |Where(airports, CodeIs(row.airportId))| < 2
    ensures r.Success? ==> r.value.airportCode == row.airportId && r.value.date == row.time
    ensures r.Success? ==> Resolves(airports, row.airportId, r.value.airport)
  {
    match FindAirport(airports, row.airportId)
    case Failure(e) => Failure(e)
    case Success(a) => Success(Weather(row.airportId, a, row.time))
  }

  /** A flight row as `FlightMap` builds it, member by member in the map's
      order: departure airport, time of day, arrival airport, distance type.
      `timesOfDay` are the members of the `DepartureTimeOfDay` enumeration. */
  function ConvertFlightRow(airports: seq<Airport>, timesOfDay: seq<EnumMember>, row: FlightRow): (r: Result<Flight, LoadError>)
    ensures r.Success? <==>
      && |Where(airports, CodeIs(row.depAirport))| < 2
      && ParseEnumIgnoreCase(timesOfDay, row.depTimeLabel).Success?
      && |Where(airports, CodeIs(row.arrAirport))| < 2
      && ParseDistanceType(row.distanceType).Success?
    ensures r.Success? ==>
      && r.value.flightDate == row.flightDate
      && r.value.tailNumber == row.tailNumber
      && r.value.departureAirportCode == row.depAirport
      && r.value.arrivalAirportCode == row.arrAirport
      && Resolves(airports, row.depAirport, r.value.departureAirport)
      && Resolves(airports, row.arrAirport, r.value.arrivalAirport)
      && row.depTimeLabel.Some?
      && (exists k :: 0 <= k < |timesOfDay| && timesOfDay[k].value == r.value.departureTimeOfDay
                      && EqualsIgnoreCase(timesOfDay[k].name, row.depTimeLabel.value))
      && row.distanceType == Some(DistanceTypeText(r.value.distanceType))
  {
    match FindAirport(airports, row.depAirport)
    case Failure(e) => Failure(e)
    case Success(departure) =>
      match ParseEnumIgnoreCase(timesOfDay, row.depTimeLabel)
      case Failure(e) => Failure(Conversion(e))
      case Success(timeOfDay) =>
        match FindAirport(airports, row.arrAirport)
        case Failure(e) => Failure(e)
        case Success(arrival) =>
          match ParseDistanceType(row.distanceType)
          case Failure(e) => Failure(Conversion(e))
          case Success(distance) =>
            Success(Flight(row.flightDate, row.tailNumber, row.depAirport, departure, timeOfDay,
                           row.arrAirport, arrival, distance))
  }

  /** `new List<T>(csv.GetRecords<T>())`: every row converted, in order; the
      first row that fails stops the read with its error. */
  function ReadRecords<R, T>(rows: seq<R>, convert: R -> Result<T, LoadError>): (r: Result<seq<T>, LoadError>)
    ensures r.Success? <==> forall k :: 0 <= k < |rows| ==> convert(rows[k]).Success?
    ensures r.Success? ==> |r.value| == |rows| && forall k :: 0 <= k < |rows| ==> convert(rows[k]) == Success(r.value[k])
    ensures r.Failure? ==> exists k :: 0 <= k < |rows| && convert(rows[k]) == Failure(r.error) && ConvertsBefore(rows, convert, k)
    decreases |rows|
  {
    if rows == [] then Success([])
    else
      match convert(rows[0])
      case Failure(e) => Failure(e)
      case Success(t) =>
        match ReadRecords(rows[1..], convert)
        case Failure(e) => Failure(e)
        case Success(ts) => Success([t] + ts)
  }

  /** Every row before position `k` converts. */
  predicate ConvertsBefore<R, T>(rows: seq<R>, convert: R -> Result<T, LoadError>, k: nat)
  {
    forall j :: 0 <= j < k && j < |rows| ==> convert(rows[j]).Success?
  }

  function WeatherConverter(airports: seq<Airport>): WeatherRow -> Result<Weather, LoadError>
  {
    (row: WeatherRow) => ConvertWeatherRow(airports, row)
  }

  function FlightConverter(airports: seq<Airport>, timesOfDay: seq<EnumMember>): FlightRow -> Result<Flight, LoadError>
  {
    (row: FlightRow) => ConvertFlightRow(airports, timesOfDay, row)
  }

  /** Every weather record refers to the airport its code resolves to in `airports`. */
  predicate WeatherResolved(airports: seq<Airport>, weather: seq<Weather>)
  {
    forall k :: 0 <= k < |weather| ==> Resolves(airports, weather[k].airportCode, weather[k].airport)
  }

  /** Every flight refers to the airports its two codes resolve to in `airports`. */
  predicate FlightsResolved(airports: seq<Airport>, flights: seq<Flight>)
  {
    forall k :: 0 <= k < |flights| ==>
      && Resolves(airports, flights[k].departureAirportCode, flights[k].departureAirport)
      && Resolves(airports, flights[k].arrivalAirportCode, flights[k].arrivalAirport)
  }

  /** A weather file read against `airports` refers only to airports of that list. */
  lemma WeatherReadResolves(airports: seq<Airport>, rows: seq<WeatherRow>)
    ensures ReadRecords(rows, WeatherConverter(airports)).Success? ==>
              WeatherResolved(airports, ReadRecords(rows, WeatherConverter(airports)).value)
  {
    var r := ReadRecords(rows, WeatherConverter(airports));
    if r.Success? {
      forall k | 0 <= k < |r.value|
        ensures Resolves(airports, r.value[k].airportCode, r.value[k].airport)
      {
        assert WeatherConverter(airports)(rows[k]) == Success(r.value[k]);
      }
    }
  }

  /** A flights file read against `airports` refers only to airports of that list. */
  lemma FlightsReadResolves(airports: seq<Airport>, timesOfDay: seq<EnumMember>, rows: seq<FlightRow>)
    ensures ReadRecords(rows, FlightConverter(airports, timesOfDay)).Success? ==>
              FlightsResolved(airports, ReadRecords(rows, FlightConverter(airports, timesOfDay)).value)
  {
    var r := ReadRecords(rows, FlightConverter(airports, timesOfDay));
    if r.Success? {
      forall k | 0 <= k < |r.value|
        ensures Resolves(airports, r.value[k].departureAirportCode, r.value[k].departureAirport)
        ensures Resolves(airports, r.value[k].arrivalAirportCode, r.value[k].arrivalAirport)
      {
        assert FlightConverter(airports, timesOfDay)(rows[k]) == Success(r.value[k]);
      }
    }
  }

  // ---------------------------------------------------------------------
  // DataLoader

  /** The contents of the three data files, as rows. */
  datatype DataFiles = DataFiles(airports: seq<Airport>, weather: seq<WeatherRow>, flights: seq<FlightRow>)

  /** The loader's three static lists. The Dafny constructor is their static
      initialisation (all empty); `Load` is the body of the C# constructor,
      which replaces them from the files. */
  class DataLoader {
    var airports: seq<Airport>
    var weather: seq<Weather>
    var flights: seq<Flight>

    constructor ()
      ensures airports == [] && weather == [] && flights == []
    {
      airports, weather, flights := [], [], [];
    }

    /** `LoadAirports`: the airports file replaces the airport list. */
    method LoadAirports(rows: seq<Airport>)
      modifies this`airports
      ensures airports == rows
    {
      airports := rows;
    }

    /** `LoadWeather`: the weather file, read against the current airport
      list, replaces the weather list; a failing row leaves it as it was. */
    method LoadWeather(rows: seq<WeatherRow>) returns (outcome: Outcome<LoadError>)
      modifies this`weather
      ensures var r := ReadRecords(rows, WeatherConverter(airports));
              && outcome == (if r.Success? then Pass else Fail(r.error))
              && weather == (if r.Success? then r.value else old(weather))
      ensures outcome.Pass? ==> WeatherResolved(airports, weather)
    {
      var r := ReadRecords(rows, WeatherConverter(airports));
      WeatherReadResolves(airports, rows);
      if r.Failure? {
        return Fail(r.error);
      }
      weather := r.value;
      outcome := Pass;
    }

    /** `LoadFlights`: the flights file, read against the current airport
      list, replaces the flight list; a failing row leaves it as it was. */
    method LoadFlights(rows: seq<FlightRow>, timesOfDay: seq<EnumMember>) returns (outcome: Outcome<LoadError>)
      modifies this`flights
      ensures var r := ReadRecords(rows, FlightConverter(airports, timesOfDay));
              && outcome == (if r.Success? then Pass else Fail(r.error))
              && flights == (if r.Success? then r.value else old(flights))
      ensures outcome.Pass? ==> FlightsResolved(airports, flights)
    {
      var r := ReadRecords(rows, FlightConverter(airports, timesOfDay));
      FlightsReadResolves(airports, timesOfDay, rows);
      if r.Failure? {
        return Fail(r.error);
      }
      flights := r.value;
      outcome := Pass;
    }

    /** The C# constructor: airports, then weather, then flights. Both later
      reads resolve their airport references against the airport list just
      loaded; an exception in one read stops the constructor there. */
    method Load(files: DataFiles, timesOfDay: seq<EnumMember>) returns (outcome: Outcome<LoadError>)
      modifies this
      ensures airports == files.airports
      ensures var w := ReadRecords(files.weather, WeatherConverter(files.airports));
              var f := ReadRecords(files.flights, FlightConverter(files.airports, timesOfDay));
              && weather == (if w.Success? then w.value else old(weather))
              && flights == (if w.Success? && f.Success? then f.value else old(flights))
              && outcome == (if w.Failure? then Fail(w.error) else if f.Failure? then Fail(f.error) else Pass)
      ensures outcome.Pass? ==> WeatherResolved(airports, weather) && FlightsResolved(airports, flights)
    {
      LoadAirports(files.airports);
      outcome := LoadWeather(files.weather);
      if outcome.Fail? {
        return;
      }
      outcome := LoadFlights(files.flights, timesOfDay);
    }
  }
}
