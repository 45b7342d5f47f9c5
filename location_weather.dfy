/** The records, the three stages and the reference outcome of one run of the
    location-and-weather component. Networking is abstracted: every awaited
    HTTP call is represented by the value it settles with. */
module LocationWeather {
  import opened Wrappers

  /** `LocationType`: what the geolocation stage produces. */
  datatype Location = Location(city: string, countryName: string)

  /** `WeatherType`. `description` is the first entry of the description
      list, absent when the list is empty (the source then stores `undefined`). */
  datatype Weather = Weather(temperature: int, description: Option<string>, sunrise: string, sunset: string)

  /** The body of a geolocation response: an `error` object (whose `info`
      may be empty) or the fields of a located address. */
  datatype GeoBody = GeoBody(error: Option<string>, city: string, countryName: string)

  /** The body of a weather response: an `error` object, or `current` with its
      temperature, description list and `astro` times. */
  datatype WeatherBody = WeatherBody(
    error: Option<string>,
    temperature: int,
    descriptions: seq<string>,
    sunrise: string,
    sunset: string)

  /** An exception that reaches the catch block. `responseInfo` is the
      `error.info` of the response that came with it and `message` its
      message; the empty string stands for an absent or empty value. */
  datatype Thrown = Thrown(responseInfo: string, message: string)

  /** How one awaited HTTP call settles: rejected with an exception, or
      resolved with a response body. */
  datatype Call<+T> = Rejected(thrown: Thrown) | Resolved(data: T)

  /** The four state slots of the component. */
  datatype State = State(location: Option<Location>, weather: Option<Weather>, error: Option<string>, loading: bool)

  const GeoFallback := "Error in getting location information"
  const WeatherFallback := "Failed to get weather information"
  const CatchFallback := "An error has occured, please check with Ben"

  /** The state right after a run starts. */
  const Running := State(None, None, None, true)

  /** JavaScript's `a || b` on two strings. */
  function Or(a: string, b: string): string {
    if a != "" then a else b
  }

  /** The message of the error thrown on a service-level failure: the
      service's `info` when it is non-empty, otherwise the stage's fallback. */
  function ServiceMessage(info: string, fallback: string): (m: string)
    requires fallback != ""
    ensures m != ""
    ensures info != "" ==> m == info
    ensures info == "" ==> m == fallback
  {
    Or(info, fallback)
  }

  /** The message the catch block stores in `error`, by precedence: the
      response's `error.info`, then the exception's message, then a fixed text. */
  function CatchMessage(t: Thrown): (m: string)
    ensures m != ""
    ensures t.responseInfo != "" ==> m == t.responseInfo
    ensures t.responseInfo == "" && t.message != "" ==> m == t.message
    ensures t.responseInfo == "" && t.message == "" ==> m == CatchFallback
  {
    Or(t.responseInfo, Or(t.message, CatchFallback))
  }

  /** The weather query built from a location: `city,country_name`. */
  function Query(l: Location): (q: string)
    ensures |q| == |l.city| + 1 + |l.countryName|
    ensures q[..|l.city|] == l.city
    ensures q[|l.city|] == ','
    ensures q[|l.city| + 1..] == l.countryName
  {
    l.city + "," + l.countryName
  }

  /** `weather_descriptions[0]`, absent when the list is empty. */
  function FirstDescription(ds: seq<string>): (d: Option<string>)
    ensures d.Some? <==> |ds| > 0
    ensures d.Some? ==> d.value == ds[0]
  {
    if |ds| > 0 then Some(ds[0]) else None
  }

  /** The geolocation stage: a rejected call aborts with its exception; a body
      carrying an error aborts with a thrown error of its own (no response
      attached); otherwise the location is the body's city and country. */
  function GeoStage(c: Call<GeoBody>): (r: Result<Location, Thrown>)
    ensures r.Ok? <==> c.Resolved? && c.data.error.None?
    ensures r.Ok? ==> r.value == Location(c.data.city, c.data.countryName)
    ensures c.Rejected? ==> r == Err(c.thrown)
    ensures c.Resolved? && c.data.error.Some? ==>
              r.Err? && CatchMessage(r.error) == ServiceMessage(c.data.error.value, GeoFallback)
  {
    match c
    case Rejected(t) => Err(t)
    case Resolved(body) =>
      if body.error.Some? then Err(Thrown("", ServiceMessage(body.error.value, GeoFallback)))
      else Ok(Location(body.city, body.countryName))
  }

  /** The weather stage, with the same error rule as the geolocation stage;
      on success the record takes the temperature, the first description and
      the sunrise and sunset times of the body. */
  function WeatherStage(c: Call<WeatherBody>): (r: Result<Weather, Thrown>)
    ensures r.Ok? <==> c.Resolved? && c.data.error.None?
    ensures r.Ok? ==>
              r.value.temperature == c.data.temperature &&
              r.value.description == FirstDescription(c.data.descriptions) &&
              r.value.sunrise == c.data.sunrise &&
              r.value.sunset == c.data.sunset
    ensures c.Rejected? ==> r == Err(c.thrown)
    ensures c.Resolved? && c.data.error.Some? ==>
              r.Err? && CatchMessage(r.error) == ServiceMessage(c.data.error.value, WeatherFallback)
  {
    match c
    case Rejected(t) => Err(t)
    case Resolved(body) =>
      if body.error.Some? then Err(Thrown("", ServiceMessage(body.error.value, WeatherFallback)))
      else Ok(Weather(body.temperature, FirstDescription(body.descriptions), body.sunrise, body.sunset))
  }

  /** The state after the catch and finally blocks have run. */
  function Failed(location: Option<Location>, t: Thrown): State {
    State(location, None, Some(CatchMessage(t)), false)
  }

  /** The state a completed run leaves behind, written as the composition of
      the three stages: each stage's product feeds the next and the first
      failure short-circuits. `geolocate` and `weatherFor` give the outcome
      of the geolocation call for an IP address and of the weather call for
      a query string. */
  function Final(ipCall: Call<string>, geolocate: string -> Call<GeoBody>, weatherFor: string -> Call<WeatherBody>): (s: State)
    ensures !s.loading
    ensures s.weather.Some? ==> s.location.Some?
    ensures s.weather.Some? <==> s.error.None?
    ensures s.error.Some? ==> s.error.value != ""
  {
    match ipCall
    case Rejected(t) => Failed(None, t)
    case Resolved(ip) =>
      match GeoStage(geolocate(ip))
      case Err(t) => Failed(None, t)
      case Ok(loc) =>
        match WeatherStage(weatherFor(Query(loc)))
        case Err(t) => Failed(Some(loc), t)
        case Ok(w) => State(Some(loc), Some(w), None, false)
  }

  /** A failed IP call leaves no location and no weather, and the error is
      the caught exception's message. */
  lemma IpFailure(t: Thrown, geolocate: string -> Call<GeoBody>, weatherFor: string -> Call<WeatherBody>)
    ensures Final(Rejected(t), geolocate, weatherFor) == State(None, None, Some(CatchMessage(t)), false)
  {
  }

  /** A failed geolocation stage leaves no location and no weather; on a
      service-level error the message is the service's `info`, or the
      geolocation fallback when that is empty. */
  lemma GeoFailure(ip: string, geolocate: string -> Call<GeoBody>, weatherFor: string -> Call<WeatherBody>)
    requires GeoStage(geolocate(ip)).Err?
    ensures Final(Resolved(ip), geolocate, weatherFor) == Failed(None, GeoStage(geolocate(ip)).error)
    ensures geolocate(ip).Resolved? ==>
              Final(Resolved(ip), geolocate, weatherFor).error == Some(ServiceMessage(geolocate(ip).data.error.value, GeoFallback))
  {
  }

  /** A failed weather stage after a successful geolocation keeps the
      location, sets no weather, and on a service-level error the message is
      the service's `info`, or the weather fallback when that is empty. */
  lemma WeatherFailure(ip: string, geolocate: string -> Call<GeoBody>, weatherFor: string -> Call<WeatherBody>)
    requires geolocate(ip).Resolved? && geolocate(ip).data.error.None?
    requires WeatherStage(weatherFor(Query(Location(geolocate(ip).data.city, geolocate(ip).data.countryName)))).Err?
    ensures var loc := Location(geolocate(ip).data.city, geolocate(ip).data.countryName);
            var s := Final(Resolved(ip), geolocate, weatherFor);
            s.location == Some(loc) && s.weather.None? && !s.loading &&
            s.error == Some(CatchMessage(WeatherStage(weatherFor(Query(loc))).error)) &&
            (weatherFor(Query(loc)).Resolved? ==>
               s.error == Some(ServiceMessage(weatherFor(Query(loc)).data.error.value, WeatherFallback)))
  {
  }

  /** When all three stages succeed the location comes from the geolocation
      body, the weather from the weather body fetched for exactly that
      location's query, and no error is set. */
  lemma Success(ip: string, geo: GeoBody, wb: WeatherBody,
                geolocate: string -> Call<GeoBody>, weatherFor: string -> Call<WeatherBody>)
    requires geolocate(ip) == Resolved(geo) && geo.error.None?
    requires weatherFor(geo.city + "," + geo.countryName) == Resolved(wb) && wb.error.None?
    ensures Final(Resolved(ip), geolocate, weatherFor) ==
            State(Some(Location(geo.city, geo.countryName)),
                  Some(Weather(wb.temperature, FirstDescription(wb.descriptions), wb.sunrise, wb.sunset)),
                  None, false)
  {
  }

  /** A run ends without an error exactly when every stage succeeds. */
  lemma SucceedsIff(ipCall: Call<string>, geolocate: string -> Call<GeoBody>, weatherFor: string -> Call<WeatherBody>)
    ensures Final(ipCall, geolocate, weatherFor).error.None? <==>
            ipCall.Resolved? &&
            GeoStage(geolocate(ipCall.data)).Ok? &&
            WeatherStage(weatherFor(Query(GeoStage(geolocate(ipCall.data)).value))).Ok?
  {
  }

  /** An IP of 1.2.3.4 located in Paris, France, where it is cloudy. */
  lemma ScenarioParis()
    ensures Final(Resolved("1.2.3.4"),
                  (ip: string) => if ip == "1.2.3.4" then Resolved(GeoBody(None, "Paris", "France"))
                                  else Rejected(Thrown("", "")),
                  (q: string) => if q == "Paris,France" then Resolved(WeatherBody(None, 18, ["Cloudy"], "07:12", "19:45"))
                                 else Rejected(Thrown("", "")))
            == State(Some(Location("Paris", "France")), Some(Weather(18, Some("Cloudy"), "07:12", "19:45")), None, false)
  {
  }

  /** The geolocation service rejects the access key. */
  lemma ScenarioInvalidKey(weatherFor: string -> Call<WeatherBody>)
    ensures Final(Resolved("1.2.3.4"),
                  (ip: string) => Resolved(GeoBody(Some("invalid access key"), "", "")),
                  weatherFor)
            == State(None, None, Some("invalid access key"), false)
  {
  }

  /** The weather service does not find the query. */
  lemma ScenarioQueryNotFound()
    ensures Final(Resolved("1.2.3.4"),
                  (ip: string) => Resolved(GeoBody(None, "Paris", "France")),
                  (q: string) => Resolved(WeatherBody(Some("query not found"), 0, [], "", "")))
            == State(Some(Location("Paris", "France")), None, Some("query not found"), false)
  {
  }

  /** The position of the first comma in `s`, or `|s|` when there is none. */
  function CommaIndex(s: string): (i: nat)
    ensures i <= |s|
    ensures i < |s| ==> s[i] == ','
    ensures forall j :: 0 <= j < i ==> s[j] != ','
  {
    if s == [] then 0
    else if s[0] == ',' then 0
    else 1 + CommaIndex(s[1..])
  }

  /** How a `city,country_name` query reads back: split at the first comma. */
  function SplitQuery(q: string): (r: Option<Location>)
    ensures r.Some? <==> ',' in q
    ensures r.Some? ==> ',' !in r.value.city && Query(r.value) == q
  {
    var i := CommaIndex(q);
    if i < |q| then
      assert q == q[..i] + "," + q[i + 1..];
      Some(Location(q[..i], q[i + 1..]))
    else
      None
  }

  /** A city without a comma and its country reach the weather service intact. */
  lemma QueryRoundTrip(l: Location)
    requires ',' !in l.city
    ensures SplitQuery(Query(l)) == Some(l)
  {
  }

  /** Without the comma-free condition the query is ambiguous: two different
      locations reach the weather service as the same string. */
  lemma QueryAmbiguous()
    ensures Location("a,b", "c") != Location("a", "b,c")
    ensures Query(Location("a,b", "c")) == Query(Location("a", "b,c"))
  {
  }

  /** Two locations whose cities hold no comma give the same query only when
      they are the same location. */
  lemma QueryInjective(l1: Location, l2: Location)
    requires ',' !in l1.city && ',' !in l2.city
    ensures Query(l1) == Query(l2) <==> l1 == l2
  {
  }
}
