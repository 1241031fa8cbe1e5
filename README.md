# Weather widget core, modelled in Dafny

The widget turns a city name into its current weather. It asks the Open-Meteo
geocoding service for the city (`getCoordinates`), asks the Open-Meteo forecast
service for the current weather at the first place found (`getWeather`), and
maps the WMO weather code to a Portuguese description and a Weather Icons class
(`getWeatherDescriptionAndIcon`). `fetchWeatherByCity` chains the three and
builds the record `{city, temperature, description, icon}` the page displays.

Everything here is a pure function, as in the source:

- `api.dfy`, module `Api`: the response datatypes, the two request URLs, the
  two response decisions and the catalog.
- `script.dfy`, module `Script`: `FetchWeatherByCity` and the lemmas about
  whole runs.

How the I/O becomes values:

- `fetch` is a parameter `net: string -> Reply` that answers each requested
  URL. A `Reply` is a rejection (`Rejected`, a network failure) or a response
  with its `ok` flag and body. The body is either a rejection of
  `response.json()` (`Malformed`) or the parsed object: its optional `results`
  list and its optional `current_weather` block.
- `encodeURIComponent` is a parameter `encode`. The conversion of a number to
  text inside a template literal is a parameter `show`.
- JSON numbers (coordinates, temperature) are `real` values that are only
  passed along.
- A run returns its result together with the URLs it requested, in order. This
  lets the model state which calls were made: for example, the forecast is
  never requested after a geocoding failure.

Behaviour worth noting:

- The error messages and catalog texts are the Portuguese strings of
  assets/js/api.js.
- A catalog entry is a pair of a description and an icon class.
- `getWeather` returns `current_weather` without checking that it is present.
  A forecast answer without it makes `fetchWeatherByCity` fail with a
  `TypeError` when it reads `weather.weathercode` (assets/js/script.js:13);
  this is `Error.TypeError` here.
- The forecast request (assets/js/api.js:32) asks only for
  `current_weather=true`.

## Model

| member | source | states |
|---|---|---|
| `Api.GeocodingUrl` | assets/js/api.js:7-9 | the geocoding request goes to the geocoding endpoint, followed by its query |
| `Api.WeatherUrl` | assets/js/api.js:32 | the forecast request goes to the forecast endpoint, followed by its query |
| `Api.GeocodingQuery` | assets/js/api.js:7-9 | the geocoding query is exactly the two parameters `name=<encoded city>` and `count=1`, provided the encoding has no `&` |
| `Api.WeatherQuery` | assets/js/api.js:32 | the forecast query is exactly `latitude=<lat>`, `longitude=<lon>` and `current_weather=true`, the coordinates unencoded |
| `Api.UrlsDiffer` | assets/js/api.js:7-9 | a geocoding URL is never equal to a forecast URL |
| `Api.GetCoordinates` | assets/js/api.js:5-27 | a fetch or json() rejection is rethrown unchanged; non-ok fails with "Erro ao buscar coordenadas." whatever the body; absent or empty `results` fails with "Cidade não encontrada."; it succeeds iff a non-empty list arrived, and then returns its first entry |
| `Api.FirstPlaceWins` | assets/js/api.js:23 | the entries after the first never change the geocoding outcome |
| `Api.GetWeather` | assets/js/api.js:30-46 | a rejection is rethrown unchanged; non-ok fails with "Erro ao buscar clima."; it succeeds iff the response is ok and parsed, and then returns `current_weather` unchanged, absent or not |
| `Api.DescriptionAndIcon` | assets/js/api.js:49-73 | total; the result is the unknown entry ("Desconhecido", "wi-na") iff the code is not one of the 20 listed; 0 is clear sky; 1 and 2 share one entry; each icon wi-fog, wi-sprinkle, wi-rain, wi-snow, wi-showers is produced by exactly its own group of codes |
| `Api.DescriptionIdentifiesCode` | assets/js/api.js:50-71 | reading a known code's description back gives that code again, except that 2 reads back as 1, the code it shares its entry with |
| `Api.DescriptionsDistinct` | assets/js/api.js:50-71 | any two different known codes, other than the pair 1 and 2, have different descriptions; in particular each intensity triple has three different descriptions |
| `Script.FetchWeatherByCity` | assets/js/script.js:10-21 | geocoding is requested first; a geocoding failure is the run's error and no forecast is requested; otherwise the forecast is requested for exactly the first place's latitude and longitude; a forecast failure is the run's error with no record; a missing `current_weather` fails with a TypeError; on success city, temperature, description and icon come from the place name, the weather and the catalog |
| `Script.DependsOnlyOnRequested` | assets/js/script.js:10-21 | the run consults the network only at the URLs it reports as requested |
| `Script.CityNotFoundStops` | assets/js/script.js:11 | an empty geocoding answer fails the run with "Cidade não encontrada." after one request |
| `Script.GeocodingHttpFailureStops` | assets/js/script.js:11 | a non-ok geocoding response fails the run with "Erro ao buscar coordenadas." after one request |
| `Script.WeatherHttpFailure` | assets/js/script.js:12 | a non-ok forecast response fails the run with "Erro ao buscar clima." after both requests |
| `Script.FailureTextLocatesStep` | assets/js/script.js:10-21 | when every answer is an HTTP response whose successful bodies parse, a failed run's error is one of the three fixed messages or the TypeError; the geocoding messages come after one request, the forecast message after two |
| `Script.NetworkFailureSurfaces` | assets/js/script.js:11 | a network failure while geocoding is the run's error, unchanged |
| `Script.SaoPauloClearSky` | assets/js/script.js:10-21 | São Paulo with weather code 0 at 25 degrees yields the record ("São Paulo", 25, "Céu limpo", "wi-day-sunny") |
| `Script.FirstPlaceDecides` | assets/js/script.js:11-16 | places after the first in the geocoding answer change neither the requests nor the result |

## Left out

- displayWeatherResult, handleFormSubmit, initWeatherFormListener and the `typeof window` guard (assets/js/script.js:27-77): these are DOM updates and event wiring, not logic.
- The network itself and the asynchrony of `fetch` and `response.json()`: both are replaced by the settled values they produce.
- A `fetch` or `response.json()` that never settles is not modelled: the model assumes every reply settles, whereas in the code the run would then wait forever.
- The percent-encoding done by `encodeURIComponent` is not modelled. The model also does not capture that it throws a URIError on a lone surrogate: Dafny strings hold Unicode scalar values, so such a string has no counterpart here.
- The formatting of numbers to text in the forecast URL is not modelled.
- JSON values of unexpected shape are not modelled, such as a `results` that is not an array or a place without a `name`. The fields of `current_weather` are taken to be present, and the weather code is taken to be an integer (a non-integer code such as 2.5 would miss every key of the table and give the unknown entry).
