# Location and weather: a Dafny model of the fetch run

The component looks up the visitor's public IP address, asks a geolocation
service where that address is, and asks a weather service for the current
weather there. Its state is four slots: `location`, `weather`, `error` and
`loading`. One run (`fetchLocationAndWeather`) does these steps in order:

1. It clears the slots and sets `loading`.
2. It awaits the IP call.
3. It awaits the geolocation call. It checks the body for a service error and
   then stores the location.
4. It builds the query `city,country_name` and awaits the weather call. It
   checks that body for a service error and then stores the weather record.

One catch block turns any failure into one message. A finally block clears
`loading`.

The model has three modules:

- `Wrappers` (`wrappers.dfy`) holds `Option` and `Result`.
- `LocationWeather` (`location_weather.dfy`) holds the records, the response
  bodies, the exception shape and the message rules. It also has the two
  checking stages as pure functions (`GeoStage`, `WeatherStage`) and `Final`,
  which composes the stages into the state a run leaves behind. The lemmas
  state the outcome of each kind of run.
- `Orchestrator` (`orchestrator.dfy`) holds the class `LocationAndWeather`
  with the four slots. The body of the run is cut at its three `await`
  points: `Start`, `ResumeAfterIp`, `ResumeAfterGeo` and
  `ResumeAfterWeather`, plus `Catch` for the catch and finally blocks. This
  means the states in the middle of a run can be seen too, such as a location
  shown while `loading` is still set. `FetchLocationAndWeather` runs the whole
  sequence and is proved to end in `Final`'s state. The ghost field `phase`
  records which `await` the run is paused at. `Valid()` is the invariant each
  step keeps.

The network is not modelled. Each call is replaced by the value it settles
with: `Call<T>` is either `Rejected` with the exception or `Resolved` with the
response body. The IP call is a plain value. The geolocation and weather
services are functions from the request (an IP address, or a query string) to
the outcome, so the model can state that the weather request is exactly the
query built from the stored location. An exception is `Thrown(responseInfo,
message)`. These two strings stand for `err.response?.data?.error?.info` and
`err.message`. The empty string stands for a value that is absent or empty,
which is what JavaScript's `||` treats as false.

Three behaviours of the code are modelled as written:

- An empty `weather_descriptions` list is not an error. The code reads
  element 0 and stores `undefined`, and the model stores `None`
  (`FirstDescription`).
- The `ip` field of the IP response is not checked. Whatever the field holds
  is sent on to the geolocation call, so the model's IP outcome carries only
  the address.
- A failure from any stage is reported through one chain of precedence: the
  response's `error.info` first, then the exception's message, then a fixed
  text (`CatchMessage`).

## Model

| member | source | states |
|---|---|---|
| `LocationWeather.ServiceMessage` | src/components/location-weather.tsx:44-48 | the text thrown for a service-level error is never empty: it is the service's `info` when that is non-empty, otherwise the stage's fallback text |
| `LocationWeather.CatchMessage` | src/components/location-weather.tsx:91-96 | the stored error is never empty and follows the precedence: the response's `error.info`, then the exception's message, then "An error has occured, please check with Ben" |
| `LocationWeather.Query` | src/components/location-weather.tsx:60 | the query is the city, then one comma, then the country name, with nothing else around them |
| `LocationWeather.FirstDescription` | src/components/location-weather.tsx:84 | the description is present exactly when the list is non-empty, and is then its first entry |
| `LocationWeather.GeoStage` | src/components/location-weather.tsx:42-53 | the stage succeeds exactly when the call resolved and the body has no error. On success the location is the body's city and country. A rejection passes its exception on unchanged. A body with an error yields the message `info`, or "Error in getting location information" when `info` is empty |
| `LocationWeather.WeatherStage` | src/components/location-weather.tsx:74-87 | the stage succeeds exactly when the call resolved and the body has no error. On success the record holds the body's temperature, first description, sunrise and sunset. A rejection passes its exception on unchanged. A body with an error yields `info`, or "Failed to get weather information" |
| `LocationWeather.Final` | src/components/location-weather.tsx:25-100 | after any completed run: `loading` is false; weather implies location; exactly one of weather and error is set; a set error is non-empty |
| `LocationWeather.IpFailure` | src/components/location-weather.tsx:33 | a failed IP call leaves location and weather absent and stores the caught exception's message |
| `LocationWeather.GeoFailure` | src/components/location-weather.tsx:44-55 | a failed geolocation stage leaves location and weather absent. On a service error the message is `info`, or the geolocation fallback when `info` is empty |
| `LocationWeather.WeatherFailure` | src/components/location-weather.tsx:76-80 | a failed weather stage after a successful geolocation keeps the location, leaves weather absent and stores the stage's message. On a service error that message is `info`, or the weather fallback |
| `LocationWeather.Success` | src/components/location-weather.tsx:50-89 | when all stages succeed, the location comes from the geolocation body and the weather from the body fetched for `city,country_name`. No error is set |
| `LocationWeather.SucceedsIff` | src/components/location-weather.tsx:31-96 | a run ends without an error if and only if all three stages succeed |
| `LocationWeather.ScenarioParis` | src/components/location-weather.tsx:25-100 | IP 1.2.3.4 located in Paris, France, with cloudy weather gives that location and that weather record, and no error |
| `LocationWeather.ScenarioInvalidKey` | src/components/location-weather.tsx:44-48 | a geolocation error "invalid access key" gives no location, no weather, and that error |
| `LocationWeather.ScenarioQueryNotFound` | src/components/location-weather.tsx:76-80 | a weather error "query not found" keeps the location, gives no weather, and stores that error |
| `LocationWeather.CommaIndex` | src/components/location-weather.tsx:60 | helper of the inverse of the `city,country_name` format at :60 (the source never splits a query): gives the position of the first comma of a string, or its length when it has none |
| `LocationWeather.SplitQuery` | src/components/location-weather.tsx:60 | reference inverse of the `city,country_name` format at :60, not code of the source: splitting a query at its first comma undoes `Query`. It succeeds exactly when the string has a comma, and the city it gives has no comma |
| `LocationWeather.QueryRoundTrip` | src/components/location-weather.tsx:60 | a city with no comma and its country reach the weather service intact: `SplitQuery(Query(l)) == Some(l)` |
| `LocationWeather.QueryInjective` | src/components/location-weather.tsx:60 | for cities with no comma, two locations give the same query if and only if they are the same location |
| `LocationWeather.QueryAmbiguous` | src/components/location-weather.tsx:60 | the limit of the two lemmas above: when a city holds a comma, two different locations (`a,b` in `c`, and `a` in `b,c`) send the weather service the same query |
| `Orchestrator.LocationAndWeather.constructor` | src/components/location-weather.tsx:19-22 | the initial state has nothing set and `loading` false |
| `Orchestrator.LocationAndWeather.Start` | src/components/location-weather.tsx:26-29 | from any previous state, a new run clears error, location and weather and sets `loading` |
| `Orchestrator.LocationAndWeather.Catch` | src/components/location-weather.tsx:91-99 | catch and finally store the chosen message and clear `loading`. The location stays as it was and weather stays absent |
| `Orchestrator.LocationAndWeather.ResumeAfterIp` | src/components/location-weather.tsx:33-34 | a rejected IP call ends the run in the failed state. Otherwise the state stays Running and the address is passed on to the geolocation call |
| `Orchestrator.LocationAndWeather.ResumeAfterGeo` | src/components/location-weather.tsx:38-60 | a failed geolocation stage ends the run with `GeoStage`'s error. Otherwise the location is stored while `loading` stays true, and the next request is exactly `Query(location)` |
| `Orchestrator.LocationAndWeather.ResumeAfterWeather` | src/components/location-weather.tsx:64-99 | a failed weather stage ends the run with the location kept. Otherwise the weather record is stored. Either way `loading` is cleared |
| `Orchestrator.LocationAndWeather.FetchLocationAndWeather` | src/components/location-weather.tsx:25-100 | from any previous state, one whole run ends in exactly `Final`'s state and keeps the invariant `Valid()` |

## Left out

- The HTTP calls, their URLs and the access keys read from the environment are left out. They are network I/O. Each call is represented by the `Call` value it settles with.
- Asynchronous suspension and overlapping runs are left out. The trigger button does not guard against a second run while one is in flight, which is a concurrency matter. The model runs one invocation as a sequence of steps, and `Start` resets the paused point.
- Exceptions other than a rejected call are left out. Reading a field of a missing part of a body, such as `current` or `astro`, raises a `TypeError` that the catch block would report. A rejected `Call` with the same message covers that outcome.
- A missing `ip` field is not modelled, because the code does not check it.
- `Location.city` and `Location.countryName` are strings, as `LocationType` declares. A geolocation body whose `city` or `country_name` is null or missing is not modelled. The code stores such a value as it is and formats it as "null" or "undefined" in the weather query.
- `Weather.temperature` is an integer. JavaScript numbers, which can be fractional, are not modelled.
- Truthiness of values other than "absent or empty string" is not modelled. For example, a non-string `info` is not handled.
- `console.log` is left out because it is output only.
- The rendered markup and the dark-mode toggle are left out because they are presentation only.
