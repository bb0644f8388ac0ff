/** The WeatherForecast record: nine display fields, unset until a successful
    response fills them all, and the isDataLoaded flag that records it. */
module Forecast {
  import opened UnitConverter

  /** A property value: None stands for `undefined`. */
  datatype Option<T> = None | Some(value: T)

  /** Number-to-text conversion (template strings) and locale date formatting
      (`toLocaleString` of a millisecond time stamp), both supplied by the
      JavaScript runtime. */
  datatype Formatting = Formatting(number: real -> string, localeDate: int -> string)

  /** The fields of a successful response body that the record reads. */
  datatype WeatherResponse = WeatherResponse(
    dt: int, description: string, temp: real, pressure: real, humidity: real,
    visibility: real, windSpeed: real, cloudsAll: real, base: string)

  /** How a fetch ends: the request or the body parse failed, the provider
      answered with an error status and a message, or it answered with data. */
  datatype FetchOutcome =
    | TransportFailure
    | HttpFailure(message: string)
    | HttpSuccess(body: WeatherResponse)

  /** The record's state, field by field. */
  datatype WeatherRecord = WeatherRecord(
    calculationTime: Option<string>, weatherState: Option<string>,
    temperature: Option<string>, pressure: Option<string>,
    humidity: Option<string>, visibility: Option<string>,
    windSpeed: Option<string>, clouds: Option<string>, base: Option<string>,
    isDataLoaded: bool)

  /** A freshly constructed record. */
  const Unloaded: WeatherRecord :=
    WeatherRecord(None, None, None, None, None, None, None, None, None, false)

  predicate AllFieldsSet(r: WeatherRecord) {
    r.calculationTime.Some? && r.weatherState.Some? && r.temperature.Some? &&
    r.pressure.Some? && r.humidity.Some? && r.visibility.Some? &&
    r.windSpeed.Some? && r.clouds.Some? && r.base.Some?
  }

  predicate NoFieldSet(r: WeatherRecord) {
    r.calculationTime.None? && r.weatherState.None? && r.temperature.None? &&
    r.pressure.None? && r.humidity.None? && r.visibility.None? &&
    r.windSpeed.None? && r.clouds.None? && r.base.None?
  }

  /** The record's invariant: it is loaded exactly when all nine fields are
      set, and unloaded exactly when none is. */
  predicate Consistent(r: WeatherRecord) {
    if r.isDataLoaded then AllFieldsSet(r) else NoFieldSet(r)
  }

  /** unixToReadableDate: seconds since the epoch, as milliseconds, through
      the locale formatter. */
  function UnixToReadableDate(seconds: int, fmt: Formatting): string {
    fmt.localeDate(seconds * 1000)
  }

  /** The record initializeWeatherData builds from a response body. Every
      field is set and the record is loaded; the six fields that carry a
      unit or a percent sign are never empty, and the visibility and wind
      speed carry the unit their converter picks. */
  function Normalize(data: WeatherResponse, fmt: Formatting): (r: WeatherRecord)
    ensures r.isDataLoaded && AllFieldsSet(r) && Consistent(r)
    ensures r.temperature.value != [] && r.pressure.value != [] && r.humidity.value != []
    ensures r.visibility.value != [] && r.windSpeed.value != [] && r.clouds.value != []
    ensures |r.temperature.value| >= 3 &&
            r.temperature.value[|r.temperature.value| - 3..] == " \U{00B0}C"
    ensures |r.pressure.value| >= 3 && r.pressure.value[|r.pressure.value| - 3..] == "hPa"
    ensures |r.humidity.value| >= 1 && r.humidity.value[|r.humidity.value| - 1..] == "%"
    ensures |r.clouds.value| >= 1 && r.clouds.value[|r.clouds.value| - 1..] == "%"
    ensures r.weatherState == Some(data.description) && r.base == Some(data.base)
    ensures r.visibility.value == ReadingText(DistanceMtoKM(data.visibility), fmt.number)
    ensures r.windSpeed.value == ReadingText(SpeedMStoKMH(data.windSpeed), fmt.number)
  {
    WeatherRecord(
      Some(UnixToReadableDate(data.dt, fmt)),
      Some(data.description),
      Some(fmt.number(data.temp) + " \U{00B0}C"),
      Some(fmt.number(data.pressure) + "hPa"),
      Some(fmt.number(data.humidity) + "%"),
      Some(ReadingText(DistanceMtoKM(data.visibility), fmt.number)),
      Some(ReadingText(SpeedMStoKMH(data.windSpeed), fmt.number)),
      Some(fmt.number(data.cloudsAll) + "%"),
      Some(data.base),
      true)
  }

  /** What a fetch leaves in a record: only a successful response replaces
      it, with a loaded record whose every field is set; a failed request
      or an error status leaves it as it was. */
  function AfterFetch(r: WeatherRecord, outcome: FetchOutcome, fmt: Formatting): (after: WeatherRecord)
    ensures outcome.HttpSuccess? ==> after.isDataLoaded && AllFieldsSet(after)
    ensures !outcome.HttpSuccess? ==> after == r
    ensures Consistent(r) ==> Consistent(after)
  {
    if outcome.HttpSuccess? then Normalize(outcome.body, fmt) else r
  }

  /** A fetch keeps the record consistent, and a fresh record ends loaded
      exactly when the response was a success; otherwise every field stays
      unset. */
  lemma FetchKeepsConsistent(r: WeatherRecord, outcome: FetchOutcome, fmt: Formatting)
    requires Consistent(r)
    ensures Consistent(AfterFetch(r, outcome, fmt))
    ensures AfterFetch(r, outcome, fmt).isDataLoaded <==> r.isDataLoaded || outcome.HttpSuccess?
    ensures r == Unloaded && !outcome.HttpSuccess? ==> AfterFetch(r, outcome, fmt) == Unloaded
  {
  }

  /** The forecast object; its fields are updated in place. */
  class WeatherForecast {
    var calculationTime: Option<string>
    var weatherState: Option<string>
    var temperature: Option<string>
    var pressure: Option<string>
    var humidity: Option<string>
    var visibility: Option<string>
    var windSpeed: Option<string>
    var clouds: Option<string>
    var base: Option<string>
    var isDataLoaded: bool

    /** The object's fields as a value. */
    function Record(): WeatherRecord
      reads this
    {
      WeatherRecord(calculationTime, weatherState, temperature, pressure, humidity,
                    visibility, windSpeed, clouds, base, isDataLoaded)
    }

    ghost predicate Valid()
      reads this
    {
      Consistent(Record())
    }

    /** `new WeatherForecast()`: every field undefined, not loaded. */
    constructor ()
      ensures Valid() && Record() == Unloaded
    {
      calculationTime, weatherState, temperature := None, None, None;
      pressure, humidity, visibility := None, None, None;
      windSpeed, clouds, base := None, None, None;
      isDataLoaded := false;
    }

    /** initializeWeatherData: the nine fields in order, then the flag. */
    method InitializeWeatherData(data: WeatherResponse, fmt: Formatting)
      modifies this
      ensures Valid() && Record() == Normalize(data, fmt)
    {
      calculationTime := Some(UnixToReadableDate(data.dt, fmt));
      weatherState := Some(data.description);
      temperature := Some(fmt.number(data.temp) + " \U{00B0}C");
      pressure := Some(fmt.number(data.pressure) + "hPa");
      humidity := Some(fmt.number(data.humidity) + "%");
      visibility := Some(ReadingText(DistanceMtoKM(data.visibility), fmt.number));
      windSpeed := Some(ReadingText(SpeedMStoKMH(data.windSpeed), fmt.number));
      clouds := Some(fmt.number(data.cloudsAll) + "%");
      base := Some(data.base);
      isDataLoaded := true;
    }

    /** fetchWeatherData with the network's answer as a parameter. On an
        error status the provider's message is what the error banner is
        given (returned here); on success the record is initialised; a
        transport failure is swallowed and changes nothing. */
    method FetchWeatherData(outcome: FetchOutcome, fmt: Formatting) returns (bannerText: Option<string>)
      requires Valid()
      modifies this
      ensures Valid() && Record() == AfterFetch(old(Record()), outcome, fmt)
      ensures bannerText == if outcome.HttpFailure? then Some(outcome.message) else None
    {
      bannerText := None;
      match outcome {
        case TransportFailure =>
        case HttpFailure(message) =>
          bannerText := Some(message);
        case HttpSuccess(body) =>
          InitializeWeatherData(body, fmt);
      }
    }
  }
}
