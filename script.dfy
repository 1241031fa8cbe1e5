/**
 * Model of fetchWeatherByCity in assets/js/script.js: geocode the city, fetch
 * the current weather at its coordinates, and build the record the page shows.
 * The network is a parameter `net` that answers each requested URL, and a run
 * also reports the URLs it requested, in order, so that which calls were made
 * can be stated.
 */
module Script {
  import opened Api

  /** The record fetchWeatherByCity resolves with. */
  datatype WeatherResult = WeatherResult(city: string, temperature: Number, description: string, icon: string)

  /** The settled result of one run together with the URLs fetched, in order. */
  datatype Run = Run(result: Result<WeatherResult>, requests: seq<string>)

  /** fetchWeatherByCity(city). `encode` stands for `encodeURIComponent`, `show`
      for number-to-text conversion, `net` for `fetch`. */
  function FetchWeatherByCity(city: string, encode: string -> string, show: Number -> string,
                              net: string -> Reply): (run: Run)
    // the geocoding request always comes first, with the city as given
    ensures 1 <= |run.requests| <= 2 && run.requests[0] == GeocodingUrl(city, encode)
    // a geocoding failure is the run's failure, and the forecast is never requested
    ensures GetCoordinates(net(GeocodingUrl(city, encode))).Err? ==>
              run == Run(Err(GetCoordinates(net(GeocodingUrl(city, encode))).error), [GeocodingUrl(city, encode)])
    // otherwise the forecast is requested for exactly the first place's coordinates
    ensures GetCoordinates(net(GeocodingUrl(city, encode))).Ok? ==>
              var place := GetCoordinates(net(GeocodingUrl(city, encode))).value;
              run.requests == [GeocodingUrl(city, encode), WeatherUrl(place.latitude, place.longitude, show)]
    // a forecast failure is the run's failure, with no partial record
    ensures |run.requests| == 2 && GetWeather(net(run.requests[1])).Err? ==>
              run.result == Err(GetWeather(net(run.requests[1])).error)
    // a forecast answer without `current_weather` fails when its code is read
    ensures |run.requests| == 2 && GetWeather(net(run.requests[1])) == Ok(None) ==>
              run.result == Err(TypeError)
    // success exactly when both answers were usable
    ensures run.result.Ok? <==> |run.requests| == 2 && GetWeather(net(run.requests[1])).Ok?
                                && GetWeather(net(run.requests[1])).value.Some?
    // and then the record is built from the first place and the current weather
    ensures run.result.Ok? ==>
              var place := GetCoordinates(net(GeocodingUrl(city, encode))).value;
              var weather := GetWeather(net(run.requests[1])).value.value;
              && run.result.value.city == place.name
              && run.result.value.temperature == weather.temperature
              && run.result.value.description == DescriptionAndIcon(weather.weathercode).desc
              && run.result.value.icon == DescriptionAndIcon(weather.weathercode).icon
  {
    var geocodingUrl := GeocodingUrl(city, encode);
    match GetCoordinates(net(geocodingUrl))
    case Err(e) => Run(Err(e), [geocodingUrl])
    case Ok(coords) =>
      var weatherUrl := WeatherUrl(coords.latitude, coords.longitude, show);
      var requests := [geocodingUrl, weatherUrl];
      match GetWeather(net(weatherUrl))
      case Err(e) => Run(Err(e), requests)
      case Ok(None) => Run(Err(TypeError), requests)
      case Ok(Some(weather)) =>
        var entry := DescriptionAndIcon(weather.weathercode);
        Run(Ok(WeatherResult(coords.name, weather.temperature, entry.desc, entry.icon)), requests)
  }

  /** A run depends on the network only through the answers to the URLs it
      requested: two networks that agree there give the same run. */
  lemma DependsOnlyOnRequested(city: string, encode: string -> string, show: Number -> string,
                               net: string -> Reply, net': string -> Reply)
    requires forall u :: u in FetchWeatherByCity(city, encode, show, net).requests ==> net(u) == net'(u)
    ensures FetchWeatherByCity(city, encode, show, net') == FetchWeatherByCity(city, encode, show, net)
  {
    var run := FetchWeatherByCity(city, encode, show, net);
    assert net(run.requests[0]) == net'(run.requests[0]);
    if |run.requests| == 2 {
      assert net(run.requests[1]) == net'(run.requests[1]);
    }
  }

  /** When the city is not found the run fails with "Cidade não encontrada."
      after the geocoding request alone. */
  lemma CityNotFoundStops(city: string, encode: string -> string, show: Number -> string,
                          net: string -> Reply)
    requires net(GeocodingUrl(city, encode)) == Response(true, Json(Some([]), None))
    ensures FetchWeatherByCity(city, encode, show, net)
         == Run(Err(Message("Cidade não encontrada.")), [GeocodingUrl(city, encode)])
  {
  }

  /** An HTTP failure of the geocoding service fails the run with
      "Erro ao buscar coordenadas." before any forecast request. */
  lemma GeocodingHttpFailureStops(city: string, encode: string -> string, show: Number -> string,
                                  net: string -> Reply, body: Body)
    requires net(GeocodingUrl(city, encode)) == Response(false, body)
    ensures FetchWeatherByCity(city, encode, show, net)
         == Run(Err(Message("Erro ao buscar coordenadas.")), [GeocodingUrl(city, encode)])
  {
  }

  /** Once a place is found, an HTTP failure of the forecast service fails the
      run with "Erro ao buscar clima." and no record. */
  lemma WeatherHttpFailure(city: string, encode: string -> string, show: Number -> string,
                           net: string -> Reply, p: Place, body: Body)
    requires net(GeocodingUrl(city, encode)) == Response(true, Json(Some([p]), None))
    requires net(WeatherUrl(p.latitude, p.longitude, show)) == Response(false, body)
    ensures FetchWeatherByCity(city, encode, show, net)
         == Run(Err(Message("Erro ao buscar clima.")),
                [GeocodingUrl(city, encode), WeatherUrl(p.latitude, p.longitude, show)])
  {
  }

  /** When every answer the run receives is an HTTP response whose successful
      bodies parse, its failure is one of the three fixed messages or the
      TypeError of a missing `current_weather`, and the message tells how far
      the run got: the two geocoding messages come after one request, the
      forecast message after two. (A rejected `fetch` may carry any error, so
      the text alone says nothing once rejections are possible.) */
  lemma FailureTextLocatesStep(city: string, encode: string -> string, show: Number -> string,
                               net: string -> Reply)
    requires forall u :: u in FetchWeatherByCity(city, encode, show, net).requests ==>
               net(u).Response? && (net(u).ok ==> net(u).body.Json?)
    ensures var run := FetchWeatherByCity(city, encode, show, net);
            run.result.Err? ==>
              run.result.error in {Message(CoordinatesError), Message(CityNotFound), Message(WeatherError), TypeError}
    ensures var run := FetchWeatherByCity(city, encode, show, net);
            run.result == Err(Message(CoordinatesError)) || run.result == Err(Message(CityNotFound))
            ==> run.requests == [GeocodingUrl(city, encode)]
    ensures var run := FetchWeatherByCity(city, encode, show, net);
            run.result == Err(Message(WeatherError)) ==> |run.requests| == 2
  {
  }

  /** A network failure while geocoding is the run's failure, unchanged. */
  lemma NetworkFailureSurfaces(city: string, encode: string -> string, show: Number -> string,
                               net: string -> Reply, e: Error)
    requires net(GeocodingUrl(city, encode)) == Rejected(e)
    ensures FetchWeatherByCity(city, encode, show, net).result == Err(e)
  {
  }

  /** The end-to-end case: São Paulo is found, its current weather is code 0 at
      25 degrees, and the run resolves with the clear-sky record for São Paulo. */
  lemma SaoPauloClearSky(encode: string -> string, show: Number -> string, net: string -> Reply)
    requires net(GeocodingUrl("São Paulo", encode))
          == Response(true, Json(Some([Place(-23.55, -46.63, "São Paulo", "BR")]), None))
    requires net(WeatherUrl(-23.55, -46.63, show))
          == Response(true, Json(None, Some(CurrentWeather(25.0, 0, 5.0, "2025-11-11T12:00"))))
    ensures FetchWeatherByCity("São Paulo", encode, show, net)
         == Run(Ok(WeatherResult("São Paulo", 25.0, "Céu limpo", "wi-day-sunny")),
                [GeocodingUrl("São Paulo", encode), WeatherUrl(-23.55, -46.63, show)])
  {
  }

  /** Only the first place found matters: what follows it in the geocoding
      answer changes neither the requests nor the result. */
  lemma FirstPlaceDecides(city: string, encode: string -> string, show: Number -> string,
                          net: string -> Reply, net': string -> Reply,
                          p: Place, rest: seq<Place>, rest': seq<Place>, cw: Option<CurrentWeather>)
    requires net(GeocodingUrl(city, encode)) == Response(true, Json(Some([p] + rest), cw))
    requires net'(GeocodingUrl(city, encode)) == Response(true, Json(Some([p] + rest'), cw))
    requires net(WeatherUrl(p.latitude, p.longitude, show)) == net'(WeatherUrl(p.latitude, p.longitude, show))
    ensures FetchWeatherByCity(city, encode, show, net) == FetchWeatherByCity(city, encode, show, net')
  {
    FirstPlaceWins(p, rest, rest', cw);
  }
}
