/**
 * The weather tool: the conversion of a degrees/minutes/seconds coordinate to
 * decimal degrees (`parseLatLong`) and the fixed chain of checks in
 * `getWeatherForecast`, which looks up the point metadata, then fetches the
 * forecast document it names, and turns every failing check into a diagnostic
 * string instead of an exception.
 *
 * Real numbers stand for JavaScript numbers, without rounding. The two HTTP
 * fetches and the final `JSON.stringify` are parameters of the model.
 */
module Weather {
  import opened Outcomes

  // Coordinates

  /**
   * A coordinate as the tool arguments carry it: one decimal number `[d]`, or
   * integer degrees with minutes and optional seconds, `[d, m]` or `[d, m, s]`.
   */
  datatype Coordinate =
    | Decimal(degrees: real)
    | Sexagesimal(wholeDegrees: int, minutes: real, seconds: Option<real>)

  /** `Math.sign`, over the reals. */
  function Sign(x: real): real {
    if x > 0.0 then 1.0 else if x < 0.0 then -1.0 else 0.0
  }

  /** `Math.abs`, over the reals. */
  function Abs(x: real): (r: real)
    ensures r >= 0.0 && (r == x || r == -x)
  {
    if x < 0.0 then -x else x
  }

  /** The degrees of a coordinate. */
  function DegreesOf(c: Coordinate): real {
    match c
    case Decimal(d) => d
    case Sexagesimal(d, _, _) => d as real
  }

  /** The minutes of a coordinate, zero when absent. */
  function MinutesOf(c: Coordinate): real {
    match c
    case Decimal(_) => 0.0
    case Sexagesimal(_, m, _) => m
  }

  /** The seconds of a coordinate, zero when absent. */
  function SecondsOf(c: Coordinate): real {
    match c
    case Decimal(_) => 0.0
    case Sexagesimal(_, _, s) => if s.Some? then s.value else 0.0
  }

  /**
   * `parseLatLong`: the sign of the degrees times the sum of the absolute
   * degrees, minutes over 60 and seconds over 3600. The result has the sign of
   * the degrees.
   */
  function ParseLatLong(c: Coordinate): (r: real)
    ensures Sign(r) == Sign(DegreesOf(c))
  {
    var d, m, s := DegreesOf(c), MinutesOf(c), SecondsOf(c);
    Sign(d) * (Abs(d) + Abs(m) / 60.0 + Abs(s) / 3600.0)
  }

  /** A single decimal number is its own value. */
  lemma DecimalIsUnchanged(d: real)
    ensures ParseLatLong(Decimal(d)) == d
  {
  }

  /**
   * Away from zero degrees the magnitude is the absolute degrees plus the
   * absolute minutes and seconds in fractions of a degree; missing minutes and
   * seconds count as zero.
   */
  lemma SexagesimalMagnitude(c: Coordinate)
    requires DegreesOf(c) != 0.0
    ensures Abs(ParseLatLong(c)) == Abs(DegreesOf(c)) + Abs(MinutesOf(c)) / 60.0 + Abs(SecondsOf(c)) / 3600.0
    ensures c.Sexagesimal? && c.seconds.None? ==>
      ParseLatLong(c) == ParseLatLong(Sexagesimal(c.wholeDegrees, c.minutes, Some(0.0)))
  {
  }

  /** Zero degrees give zero, whatever the minutes and seconds: the sign of zero is zero. */
  lemma ZeroDegreesGiveZero(c: Coordinate)
    requires DegreesOf(c) == 0.0
    ensures ParseLatLong(c) == 0.0
  {
  }

  /**
   * When the minutes and seconds together stay below one degree, the
   * converted value stays within one degree of the degrees, on their side
   * of zero.
   */
  lemma WithinOneDegree(c: Coordinate)
    requires c.Sexagesimal? && c.wholeDegrees != 0
    requires 0.0 <= c.minutes && 0.0 <= SecondsOf(c)
    requires c.minutes * 60.0 + SecondsOf(c) < 3600.0
    ensures c.wholeDegrees > 0 ==> c.wholeDegrees as real <= ParseLatLong(c) < c.wholeDegrees as real + 1.0
    ensures c.wholeDegrees < 0 ==> c.wholeDegrees as real - 1.0 < ParseLatLong(c) <= c.wholeDegrees as real
  {
    var m, s := MinutesOf(c), SecondsOf(c);
    assert Abs(m) / 60.0 + Abs(s) / 3600.0 < 1.0 by {
      assert Abs(m) / 60.0 + Abs(s) / 3600.0 == (m * 60.0 + s) / 3600.0;
    }
  }

  // The forecast pipeline

  /** Which forecast document the tool asks for. */
  datatype ForecastType = Forecast | ForecastHourly

  /** The validated arguments of the weather tool. */
  datatype WeatherToolArgs = WeatherToolArgs(lat: Coordinate, lon: Coordinate, kind: ForecastType)

  /** The fields of a point lookup that survive its schema. */
  datatype PointMetadata = PointMetadata(forecast: string, forecastHourly: string, forecastZone: string, timeZone: string)

  /** A measured value with its unit. */
  datatype UnitValue = UnitValue(unitCode: string, value: real)

  /** One period of a forecast document. */
  datatype ForecastPeriod = ForecastPeriod(
    number: int, name: string, startTime: string, isDaytime: bool,
    temperature: real, temperatureUnit: string, probabilityOfPrecipitation: UnitValue,
    dewpoint: Option<UnitValue>, relativeHumidity: Option<UnitValue>,
    windSpeed: string, windDirection: string, shortForecast: string, detailedForecast: string)

  /** The fields of a forecast document that survive its schema. */
  datatype ForecastDocument = ForecastDocument(
    generatedAt: string, updateTime: string, validTimes: string, elevation: UnitValue,
    periods: seq<ForecastPeriod>)

  /** The success payload: the point's time zone together with the whole forecast document. */
  datatype WeatherReport = WeatherReport(timeZone: string, forecast: ForecastDocument)

  /** What reading a body as JSON and validating it against a schema gives. */
  datatype JsonBody<T> =
    | Conforming(value: T)        // valid JSON that the schema accepts
    | Nonconforming(message: string) // valid JSON that the schema rejects, with the schema's message
    | Unparsable(error: string)   // not JSON at all: reading it throws

  /** What an awaited `fetch` gives: a response, or a rejected promise. */
  datatype Fetched<T> =
    | Response(ok: bool, body: string, parsed: JsonBody<T>)
    | NetworkError(error: string)

  /**
   * The outside world of the pipeline: the point lookup keyed by the decimal
   * coordinates, the forecast fetch keyed by URL, and the serialisation of the
   * success payload.
   */
  datatype WeatherServices = WeatherServices(
    lookupPoint: (real, real) -> Fetched<PointMetadata>,
    fetchForecast: string -> Fetched<ForecastDocument>,
    stringify: WeatherReport -> string)

  const PointLookupError := "Weather point lookup error: "
  const PointParseError := "Weather point parse error: "
  const ForecastLookupError := "Weather forecast lookup error: "
  const ForecastParseError := "Weather forecast parse error: "

  /** The URL of the requested forecast document: the metadata field named by the forecast type. */
  function ForecastUrl(meta: PointMetadata, kind: ForecastType): string {
    match kind
    case Forecast => meta.forecast
    case ForecastHourly => meta.forecastHourly
  }

  /** The result of one fetch-and-validate step: go on with the value, or stop with what the pipeline gives. */
  datatype Step<T> = Proceed(value: T) | Stop(outcome: Completion<string>)

  /**
   * One step of the chain: a rejected fetch or an unreadable body throws; a
   * failed response returns the lookup diagnostic with the raw body; a body the
   * schema rejects returns the parse diagnostic with the schema's message.
   */
  function CheckFetch<T>(fetched: Fetched<T>, lookupError: string, parseError: string): Step<T> {
    match fetched
    case NetworkError(e) => Stop(Threw(e))
    case Response(ok, body, parsed) =>
      if !ok then Stop(Returned(lookupError + body))
      else
        match parsed
        case Unparsable(e) => Stop(Threw(e))
        case Nonconforming(message) => Stop(Returned(parseError + message))
        case Conforming(v) => Proceed(v)
  }

  /** The point lookup step for the tool arguments. */
  function PointStep(args: WeatherToolArgs, svc: WeatherServices): Step<PointMetadata> {
    CheckFetch(svc.lookupPoint(ParseLatLong(args.lat), ParseLatLong(args.lon)), PointLookupError, PointParseError)
  }

  /** The forecast step, once the point metadata is known. */
  function ForecastStep(meta: PointMetadata, kind: ForecastType, svc: WeatherServices): Step<ForecastDocument> {
    CheckFetch(svc.fetchForecast(ForecastUrl(meta, kind)), ForecastLookupError, ForecastParseError)
  }

  /** `getWeatherForecast` as a function: the first failing step decides, else the serialised report. */
  function WeatherForecast(args: WeatherToolArgs, svc: WeatherServices): Completion<string> {
    match PointStep(args, svc)
    case Stop(outcome) => outcome
    case Proceed(meta) =>
      match ForecastStep(meta, args.kind, svc)
      case Stop(outcome) => outcome
      case Proceed(doc) => Returned(svc.stringify(WeatherReport(meta.timeZone, doc)))
  }

  /** `getWeatherForecast`: two fetches, each followed by two early returns. */
  method GetWeatherForecast(args: WeatherToolArgs, svc: WeatherServices) returns (r: Completion<string>)
    ensures r == WeatherForecast(args, svc)
  {
    var lat, lon := ParseLatLong(args.lat), ParseLatLong(args.lon);
    var points := svc.lookupPoint(lat, lon);
    if points.NetworkError? {
      return Threw(points.error);
    }
    if !points.ok {
      return Returned(PointLookupError + points.body);
    }
    if points.parsed.Unparsable? {
      return Threw(points.parsed.error);
    }
    if points.parsed.Nonconforming? {
      return Returned(PointParseError + points.parsed.message);
    }
    var meta := points.parsed.value;

    var forecast := svc.fetchForecast(ForecastUrl(meta, args.kind));
    if forecast.NetworkError? {
      return Threw(forecast.error);
    }
    if !forecast.ok {
      return Returned(ForecastLookupError + forecast.body);
    }
    if forecast.parsed.Unparsable? {
      return Threw(forecast.parsed.error);
    }
    if forecast.parsed.Nonconforming? {
      return Returned(ForecastParseError + forecast.parsed.message);
    }
    r := Returned(svc.stringify(WeatherReport(meta.timeZone, forecast.parsed.value)));
  }

  // Properties of the chain

  /**
   * A failed point lookup returns its diagnostic with the raw body, and a point
   * body the schema rejects returns its diagnostic with the schema's message;
   * either way the forecast is never fetched and nothing is serialised.
   */
  lemma PointFailureIsFinal(args: WeatherToolArgs, svc: WeatherServices,
                            fetch: string -> Fetched<ForecastDocument>, stringify: WeatherReport -> string)
    requires PointStep(args, svc).Stop?
    ensures WeatherForecast(args, svc) == WeatherForecast(args, svc.(fetchForecast := fetch, stringify := stringify))
    ensures var points := svc.lookupPoint(ParseLatLong(args.lat), ParseLatLong(args.lon));
      && (points.Response? && !points.ok ==> WeatherForecast(args, svc) == Returned(PointLookupError + points.body))
      && (points.Response? && points.ok && points.parsed.Nonconforming? ==>
            WeatherForecast(args, svc) == Returned(PointParseError + points.parsed.message))
  {
  }

  /**
   * Once the point metadata is valid, the only forecast fetched is the one at
   * the URL the metadata gives for the requested type: two forecast services
   * that agree there give the same result.
   */
  lemma ForecastUrlComesFromMetadata(args: WeatherToolArgs, svc: WeatherServices,
                                     fetch: string -> Fetched<ForecastDocument>)
    requires PointStep(args, svc).Proceed?
    requires fetch(ForecastUrl(PointStep(args, svc).value, args.kind))
          == svc.fetchForecast(ForecastUrl(PointStep(args, svc).value, args.kind))
    ensures WeatherForecast(args, svc) == WeatherForecast(args, svc.(fetchForecast := fetch))
  {
  }

  /**
   * After a valid point lookup, a failed forecast fetch returns its diagnostic
   * with the raw body, and a forecast the schema rejects returns its diagnostic
   * with the schema's message.
   */
  lemma ForecastFailureDiagnostics(args: WeatherToolArgs, svc: WeatherServices)
    requires PointStep(args, svc).Proceed?
    ensures var forecast := svc.fetchForecast(ForecastUrl(PointStep(args, svc).value, args.kind));
      && (forecast.Response? && !forecast.ok ==> WeatherForecast(args, svc) == Returned(ForecastLookupError + forecast.body))
      && (forecast.Response? && forecast.ok && forecast.parsed.Nonconforming? ==>
            WeatherForecast(args, svc) == Returned(ForecastParseError + forecast.parsed.message))
  {
  }

  /** When both documents are valid, the result serialises the point's time zone with the forecast document. */
  lemma SuccessCombinesTimeZoneAndForecast(args: WeatherToolArgs, svc: WeatherServices,
                                          meta: PointMetadata, doc: ForecastDocument)
    requires Delivers(svc.lookupPoint(ParseLatLong(args.lat), ParseLatLong(args.lon)), meta)
    requires Delivers(svc.fetchForecast(ForecastUrl(meta, args.kind)), doc)
    ensures WeatherForecast(args, svc) == Returned(svc.stringify(WeatherReport(meta.timeZone, doc)))
  {
  }

  /** A successful response whose body the schema accepts as `value`. */
  predicate Delivers<T(==)>(fetched: Fetched<T>, value: T) {
    fetched.Response? && fetched.ok && fetched.parsed == Conforming(value)
  }

  /**
   * The pipeline only throws when a fetch is rejected or a successful
   * response's body is not JSON; every other failure is returned as text.
   */
  lemma DegradesToText(args: WeatherToolArgs, svc: WeatherServices)
    requires Readable(svc.lookupPoint(ParseLatLong(args.lat), ParseLatLong(args.lon)))
    requires PointStep(args, svc).Proceed? ==> Readable(svc.fetchForecast(ForecastUrl(PointStep(args, svc).value, args.kind)))
    ensures WeatherForecast(args, svc).Returned?
  {
  }

  /** A response that arrived and whose body, when it is read as JSON, is JSON. */
  predicate Readable<T>(fetched: Fetched<T>) {
    fetched.Response? && (fetched.ok ==> !fetched.parsed.Unparsable?)
  }
}
