/** The component's state and the run that `fetchLocationAndWeather` performs
    on it, cut at its three suspension points. */
module Orchestrator {
  import opened Wrappers
  import opened LocationWeather

  /** Where a suspended run resumes: no run, or waiting for the IP, the
      geolocation or the weather call to settle. */
  datatype Phase = Idle | AwaitingIp | AwaitingGeo | AwaitingWeather

  class LocationAndWeather {
    var location: Option<Location>
    var weather: Option<Weather>
    var error: Option<string>
    var loading: bool
    ghost var phase: Phase

    /** The four state slots as the view reads them. */
    function Snapshot(): State
      reads this
    {
      State(location, weather, error, loading)
    }

    /** `loading` is set exactly while a run is under way; a run under way
        has set no weather and no error, and has set a location exactly once
        it waits for the weather; weather implies location, weather and error
        exclude each other, and a stored error is never empty. */
    ghost predicate Valid()
      reads this
    {
      (loading <==> phase != Idle) &&
      (phase == AwaitingIp || phase == AwaitingGeo ==> location.None? && weather.None? && error.None?) &&
      (phase == AwaitingWeather ==> location.Some? && weather.None? && error.None?) &&
      (weather.Some? ==> location.Some?) &&
      !(weather.Some? && error.Some?) &&
      (error.Some? ==> error.value != "")
    }

    /** The initial `useState` values: nothing set, not loading. */
    constructor ()
      ensures Valid() && phase == Idle
      ensures Snapshot() == State(None, None, None, false)
    {
      location := None;
      weather := None;
      error := None;
      loading := false;
      phase := Idle;
    }

    /** Start of a run, whatever the previous state: clear the error, set
        loading, clear location and weather. */
    method Start()
      modifies this
      ensures Valid() && phase == AwaitingIp
      ensures Snapshot() == Running
    {
      error := None;
      loading := true;
      location := None;
      weather := None;
      phase := AwaitingIp;
    }

    /** The catch block followed by the finally block: store the chosen
        message and clear loading; the location is left as it was. */
    method Catch(t: Thrown)
      requires Valid() && phase != Idle
      modifies this
      ensures Valid() && phase == Idle
      ensures Snapshot() == Failed(old(location), t)
    {
      error := Some(CatchMessage(t));
      loading := false;
      phase := Idle;
    }

    /** Resumption after the IP call: a rejection ends the run; otherwise the
        run goes on to the geolocation call with the returned address. */
    method ResumeAfterIp(c: Call<string>) returns (ip: Option<string>)
      requires Valid() && phase == AwaitingIp
      modifies this
      ensures Valid()
      ensures match c
        case Rejected(t) => ip == None && phase == Idle && Snapshot() == Failed(None, t)
        case Resolved(addr) => ip == Some(addr) && phase == AwaitingGeo && Snapshot() == Running
    {
      match c
      case Rejected(t) =>
        Catch(t);
        ip := None;
      case Resolved(addr) =>
        phase := AwaitingGeo;
        ip := Some(addr);
    }

    /** Resumption after the geolocation call: a rejection or an error in the
        body ends the run; otherwise the location is stored, loading stays
        set, and the run goes on to the weather call with the location's query. */
    method ResumeAfterGeo(c: Call<GeoBody>) returns (query: Option<string>)
      requires Valid() && phase == AwaitingGeo
      modifies this
      ensures Valid()
      ensures match GeoStage(c)
        case Err(t) => query == None && phase == Idle && Snapshot() == Failed(None, t)
        case Ok(loc) => query == Some(Query(loc)) && phase == AwaitingWeather &&
                        Snapshot() == State(Some(loc), None, None, true)
    {
      match c
      case Rejected(t) =>
        Catch(t);
        query := None;
      case Resolved(body) =>
        if body.error.Some? {
          Catch(Thrown("", ServiceMessage(body.error.value, GeoFallback)));
          query := None;
        } else {
          var info := Location(body.city, body.countryName);
          location := Some(info);
          phase := AwaitingWeather;
          query := Some(info.city + "," + info.countryName);
        }
    }

    /** Resumption after the weather call: a rejection or an error in the body
        ends the run with the location kept; otherwise the weather record is
        stored. Either way loading is cleared. */
    method ResumeAfterWeather(c: Call<WeatherBody>)
      requires Valid() && phase == AwaitingWeather
      modifies this
      ensures Valid() && phase == Idle
      ensures match WeatherStage(c)
        case Err(t) => Snapshot() == Failed(old(location), t)
        case Ok(w) => Snapshot() == State(old(location), Some(w), None, false)
    {
      match c
      case Rejected(t) =>
        Catch(t);
      case Resolved(body) =>
        if body.error.Some? {
          Catch(Thrown("", ServiceMessage(body.error.value, WeatherFallback)));
        } else {
          var info := Weather(body.temperature, FirstDescription(body.descriptions), body.sunrise, body.sunset);
          weather := Some(info);
          loading := false;
          phase := Idle;
        }
    }

    /** One whole run. `ipCall` is how the IP call settles; `geolocate` and
        `weatherFor` give how the geolocation call settles for an address and
        the weather call for a query. The final state is the reference
        outcome `Final`, from any state before the run. */
    method FetchLocationAndWeather(ipCall: Call<string>, geolocate: string -> Call<GeoBody>, weatherFor: string -> Call<WeatherBody>)
      modifies this
      ensures Valid() && phase == Idle
      ensures Snapshot() == Final(ipCall, geolocate, weatherFor)
    {
      Start();
      var ip := ResumeAfterIp(ipCall);
      if ip.Some? {
        var query := ResumeAfterGeo(geolocate(ip.value));
        if query.Some? {
          ResumeAfterWeather(weatherFor(query.value));
        }
      }
    }
  }
}
