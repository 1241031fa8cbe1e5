/**
 * Model of assets/js/api.js: the two HTTP-backed lookups (geocoding and current
 * weather) with `fetch` replaced by an abstract reply, the request URLs they
 * build, and the weather-code catalog.
 */
module Api {

  /** A JavaScript value that may be `undefined`/`null` (an absent JSON property). */
  datatype Option<+T> = None | Some(value: T)

  /** What a rejected promise carries. `Message(text)` is `new Error(text)`;
      `TypeError` is the engine's error for reading a property of `undefined`,
      whose message text is engine-specific and therefore not modelled. */
  datatype Error = Message(text: string) | TypeError

  /** The settled state of an `async` function: resolved with a value or rejected. */
  datatype Result<+T> = Ok(value: T) | Err(error: Error)

  /** Latitudes, longitudes and temperatures are JSON numbers that the core only
      passes along; `real` stands in for them and no arithmetic is done on them. */
  type Number = real

  /** One entry of the geocoding `results` array. */
  datatype Place = Place(latitude: Number, longitude: Number, name: string, country: string)

  /** The `current_weather` block of a forecast response. */
  datatype CurrentWeather = CurrentWeather(temperature: Number, weathercode: int, windspeed: Number, time: string)

  /** What `response.json()` settles to: a rejection for a body that is not JSON,
      or the parsed object, of which only `results` and `current_weather` are read. */
  datatype Body =
    | Malformed(error: Error)
    | Json(results: Option<seq<Place>>, currentWeather: Option<CurrentWeather>)

  /** What `fetch(url)` settles to: a rejection (network failure) or a response
      with its `ok` flag (HTTP status 2xx) and its body. */
  datatype Reply =
    | Rejected(error: Error)
    | Response(ok: bool, body: Body)

  const CoordinatesError: string := "Erro ao buscar coordenadas."
  const CityNotFound: string := "Cidade não encontrada."
  const WeatherError: string := "Erro ao buscar clima."

  // ---------------------------------------------------------------------------
  // Request URLs
  // ---------------------------------------------------------------------------

  const GeocodingEndpoint: string := "https://geocoding-api.open-meteo.com/v1/search"
  const ForecastEndpoint: string := "https://api.open-meteo.com/v1/forecast"

  /** The geocoding URL built by getCoordinates. `encode` stands for
      `encodeURIComponent`, whose percent-encoding is not modelled. */
  function GeocodingUrl(city: string, encode: string -> string): (url: string)
    ensures GeocodingEndpoint + "?" <= url
  {
    GeocodingEndpoint + "?name=" + encode(city) + "&count=1"
  }

  /** The forecast URL built by getWeather. `show` stands for the conversion of
      a number to its decimal text inside a template literal; the coordinates
      are inserted without any encoding. */
  function WeatherUrl(latitude: Number, longitude: Number, show: Number -> string): (url: string)
    ensures ForecastEndpoint + "?" <= url
  {
    ForecastEndpoint + "?latitude=" + show(latitude) + "&longitude=" + show(longitude) + "&current_weather=true"
  }

  /** The query of `url` as a request to `endpoint`: the text after
      `endpoint + "?"`, or None when `url` is not a request to `endpoint`. */
  function QueryAt(endpoint: string, url: string): (q: Option<string>)
    ensures q.Some? <==> endpoint + "?" <= url
    ensures q.Some? ==> url == endpoint + "?" + q.value
  {
    if endpoint + "?" <= url then Some(url[|endpoint| + 1..]) else None
  }

  /** Splits a string at every occurrence of `sep`, like JavaScript's `s.split(sep)`. */
  function Split(s: string, sep: char): (parts: seq<string>)
    ensures |parts| >= 1
    ensures forall i :: 0 <= i < |parts| ==> sep !in parts[i]
  {
    if s == [] then [[]]
    else
      var rest := Split(s[1..], sep);
      if s[0] == sep then [[]] + rest
      else [[s[0]] + rest[0]] + rest[1..]
  }

  /** Joins parts with `sep` between them, like JavaScript's `parts.join(sep)`. */
  function Join(parts: seq<string>, sep: char): (s: string)
    requires |parts| >= 1
  {
    if |parts| == 1 then parts[0] else parts[0] + [sep] + Join(parts[1..], sep)
  }

  lemma {:induction false} SplitNoSeparator(s: string, sep: char)
    requires sep !in s
    ensures Split(s, sep) == [s]
    decreases |s|
  {
    if s != [] {
      SplitNoSeparator(s[1..], sep);
      assert [s[0]] + s[1..] == s;
    }
  }

  lemma {:induction false} SplitAtSeparator(a: string, sep: char, b: string)
    requires sep !in a
    ensures Split(a + [sep] + b, sep) == [a] + Split(b, sep)
    decreases |a|
  {
    if a == [] {
      assert a + [sep] + b == [sep] + b;
      assert ([sep] + b)[1..] == b;
    } else {
      SplitAtSeparator(a[1..], sep, b);
      assert (a + [sep] + b)[1..] == a[1..] + [sep] + b;
      assert [a[0]] + a[1..] == a;
    }
  }

  /** Splitting a join gives back the parts, when no part contains the separator. */
  lemma {:induction false} SplitJoin(parts: seq<string>, sep: char)
    requires |parts| >= 1
    requires forall i :: 0 <= i < |parts| ==> sep !in parts[i]
    ensures Split(Join(parts, sep), sep) == parts
    decreases |parts|
  {
    if |parts| == 1 {
      SplitNoSeparator(parts[0], sep);
    } else {
      SplitJoin(parts[1..], sep);
      SplitAtSeparator(parts[0], sep, Join(parts[1..], sep));
      assert [parts[0]] + parts[1..] == parts;
    }
  }

  /** The geocoding request asks for the encoded city name and at most one
      result; its query splits into exactly these two parameters whenever the
      encoded name has no `&` (which `encodeURIComponent` escapes). */
  lemma GeocodingQuery(city: string, encode: string -> string)
    requires '&' !in encode(city)
    ensures QueryAt(GeocodingEndpoint, GeocodingUrl(city, encode)).Some?
    ensures Split(QueryAt(GeocodingEndpoint, GeocodingUrl(city, encode)).value, '&') == ["name=" + encode(city), "count=1"]
  {
    var name := "name=" + encode(city);
    var parts := [name, "count=1"];
    assert Join(parts, '&') == name + "&count=1";
    assert GeocodingUrl(city, encode) == GeocodingEndpoint + "?" + Join(parts, '&');
    SplitJoin(parts, '&');
  }

  /** The forecast URL is the endpoint followed by its three parameters joined with `&`. */
  lemma WeatherUrlJoin(latitude: Number, longitude: Number, show: Number -> string)
    ensures WeatherUrl(latitude, longitude, show)
         == ForecastEndpoint + "?" + Join(["latitude=" + show(latitude), "longitude=" + show(longitude), "current_weather=true"], '&')
  {
    var lat, lon, current := "latitude=" + show(latitude), "longitude=" + show(longitude), "current_weather=true";
    var parts := [lat, lon, current];
    assert parts[1..] == [lon, current] && parts[1..][1..] == [current];
    assert Join([current], '&') == current;
    assert Join([lon, current], '&') == lon + "&" + current;
    assert Join(parts, '&') == lat + "&" + (lon + "&" + current);
    assert "?latitude=" == "?" + "latitude=" && "&longitude=" == "&" + "longitude=";
    assert "&current_weather=true" == "&" + current;
  }

  /** The forecast request carries the two coordinates as given, and asks for
      the current conditions; its query splits into these three parameters
      whenever the rendered numbers contain no `&`. */
  lemma WeatherQuery(latitude: Number, longitude: Number, show: Number -> string)
    requires '&' !in show(latitude) && '&' !in show(longitude)
    ensures QueryAt(ForecastEndpoint, WeatherUrl(latitude, longitude, show)).Some?
    ensures Split(QueryAt(ForecastEndpoint, WeatherUrl(latitude, longitude, show)).value, '&')
         == ["latitude=" + show(latitude), "longitude=" + show(longitude), "current_weather=true"]
  {
    var parts := ["latitude=" + show(latitude), "longitude=" + show(longitude), "current_weather=true"];
    WeatherUrlJoin(latitude, longitude, show);
    assert '&' !in parts[0] && '&' !in parts[1] && '&' !in parts[2];
    SplitJoin(parts, '&');
  }

  /** A geocoding request and a forecast request are never the same URL, so a
      network that answers per URL answers them independently. */
  lemma UrlsDiffer(city: string, encode: string -> string,
                   latitude: Number, longitude: Number, show: Number -> string)
    ensures GeocodingUrl(city, encode) != WeatherUrl(latitude, longitude, show)
  {
    var g := GeocodingUrl(city, encode);
    var w := WeatherUrl(latitude, longitude, show);
    assert g[8] == 'g' && w[8] == 'a';
  }

  // ---------------------------------------------------------------------------
  // Response decisions
  // ---------------------------------------------------------------------------

  /** getCoordinates once `fetch(GeocodingUrl(city, …))` has settled to `reply`.
      Rejections of `fetch` and of `response.json()` are rethrown unchanged. */
  function GetCoordinates(reply: Reply): (r: Result<Place>)
    // a failed fetch is rethrown as is
    ensures reply.Rejected? ==> r == Err(reply.error)
    // an HTTP failure gives the fixed message, whatever the body holds
    ensures reply.Response? && !reply.ok ==> r == Err(Message(CoordinatesError))
    // a body that does not parse is rethrown as is
    ensures reply.Response? && reply.ok && reply.body.Malformed? ==> r == Err(reply.body.error)
    // a parsed body with no `results`, or an empty one, means the city was not found
    ensures reply.Response? && reply.ok && reply.body.Json?
            && (reply.body.results == None || reply.body.results == Some([]))
            ==> r == Err(Message(CityNotFound))
    // success exactly when a non-empty list arrived, and then it is its first place
    ensures r.Ok? <==> reply.Response? && reply.ok && reply.body.Json?
                       && reply.body.results.Some? && |reply.body.results.value| > 0
    ensures r.Ok? ==> r.value == reply.body.results.value[0]
  {
    match reply
    case Rejected(e) => Err(e)
    case Response(ok, body) =>
      if !ok then Err(Message(CoordinatesError))
      else
        match body
        case Malformed(e) => Err(e)
        case Json(results, _) =>
          if results.None? || |results.value| == 0 then Err(Message(CityNotFound))
          else Ok(results.value[0])
  }

  /** Only the first place of a geocoding answer matters: the places after it
      never change the outcome. */
  lemma FirstPlaceWins(p: Place, rest: seq<Place>, rest': seq<Place>, cw: Option<CurrentWeather>)
    ensures GetCoordinates(Response(true, Json(Some([p] + rest), cw)))
         == GetCoordinates(Response(true, Json(Some([p] + rest'), cw)))
         == Ok(p)
  {
  }

  /** getWeather once `fetch(WeatherUrl(…))` has settled to `reply`. A successful
      response yields `current_weather` as it is, `None` when it is absent: the
      source does not check that it is present. */
  function GetWeather(reply: Reply): (r: Result<Option<CurrentWeather>>)
    ensures reply.Rejected? ==> r == Err(reply.error)
    ensures reply.Response? && !reply.ok ==> r == Err(Message(WeatherError))
    ensures reply.Response? && reply.ok && reply.body.Malformed? ==> r == Err(reply.body.error)
    ensures r.Ok? <==> reply.Response? && reply.ok && reply.body.Json?
    ensures r.Ok? ==> r.value == reply.body.currentWeather
  {
    match reply
    case Rejected(e) => Err(e)
    case Response(ok, body) =>
      if !ok then Err(Message(WeatherError))
      else
        match body
        case Malformed(e) => Err(e)
        case Json(_, currentWeather) => Ok(currentWeather)
  }

  // ---------------------------------------------------------------------------
  // Weather-code catalog
  // ---------------------------------------------------------------------------

  /** A description (Portuguese) and a Weather Icons class name. */
  datatype Entry = Entry(desc: string, icon: string)

  const Unknown: Entry := Entry("Desconhecido", "wi-na")

  /** The object literal of getWeatherDescriptionAndIcon, keyed by weather code. */
  const Catalog: map<int, Entry> := map[
    0 := Entry("Céu limpo", "wi-day-sunny"),
    1 := Entry("Parcialmente nublado", "wi-day-cloudy"),
    2 := Entry("Parcialmente nublado", "wi-day-cloudy"),
    3 := Entry("Nublado", "wi-cloudy"),
    45 := Entry("Nevoeiro", "wi-fog"),
    48 := Entry("Depósito de gelo", "wi-fog"),
    51 := Entry("Chuvisco leve", "wi-sprinkle"),
    53 := Entry("Chuvisco moderado", "wi-sprinkle"),
    55 := Entry("Chuvisco intenso", "wi-sprinkle"),
    61 := Entry("Chuva leve", "wi-rain"),
    63 := Entry("Chuva moderada", "wi-rain"),
    65 := Entry("Chuva intensa", "wi-rain"),
    71 := Entry("Neve leve", "wi-snow"),
    73 := Entry("Neve moderada", "wi-snow"),
    75 := Entry("Neve intensa", "wi-snow"),
    80 := Entry("Chuva de verão leve", "wi-showers"),
    81 := Entry("Chuva de verão moderada", "wi-showers"),
    82 := Entry("Chuva de verão intensa", "wi-showers"),
    95 := Entry("Tempestade com trovões", "wi-thunderstorm"),
    99 := Entry("Granizo", "wi-hail")
  ]

  /** The twenty WMO weather-interpretation codes the catalog knows. */
  const KnownCodes: set<int> := {0, 1, 2, 3, 45, 48, 51, 53, 55, 61, 63, 65, 71, 73, 75, 80, 81, 82, 95, 99}

  /** getWeatherDescriptionAndIcon: a total lookup; every code outside the
      table falls back to the "unknown" entry (every table entry is a truthy
      object, so `||` only falls back on a missing key). */
  function DescriptionAndIcon(code: int): (e: Entry)
    ensures e == Unknown <==> code !in KnownCodes
    ensures code == 0 ==> e == Entry("Céu limpo", "wi-day-sunny")
    ensures code == 1 || code == 2 ==> e == Entry("Parcialmente nublado", "wi-day-cloudy")
    ensures e.icon == "wi-fog" <==> code == 45 || code == 48
    ensures e.icon == "wi-sprinkle" <==> code == 51 || code == 53 || code == 55
    ensures e.icon == "wi-rain" <==> code == 61 || code == 63 || code == 65
    ensures e.icon == "wi-snow" <==> code == 71 || code == 73 || code == 75
    ensures e.icon == "wi-showers" <==> code == 80 || code == 81 || code == 82
  {
    if code in Catalog then Catalog[code] else Unknown
  }

  /** Reads a known code back from its description (the lowest code, for the
      description shared by 1 and 2). */
  function CodeOfDescription(desc: string): (code: Option<int>)
  {
    if desc == "Céu limpo" then Some(0)
    else if desc == "Parcialmente nublado" then Some(1)
    else if desc == "Nublado" then Some(3)
    else if desc == "Nevoeiro" then Some(45)
    else if desc == "Depósito de gelo" then Some(48)
    else if desc == "Chuvisco leve" then Some(51)
    else if desc == "Chuvisco moderado" then Some(53)
    else if desc == "Chuvisco intenso" then Some(55)
    else if desc == "Chuva leve" then Some(61)
    else if desc == "Chuva moderada" then Some(63)
    else if desc == "Chuva intensa" then Some(65)
    else if desc == "Neve leve" then Some(71)
    else if desc == "Neve moderada" then Some(73)
    else if desc == "Neve intensa" then Some(75)
    else if desc == "Chuva de verão leve" then Some(80)
    else if desc == "Chuva de verão moderada" then Some(81)
    else if desc == "Chuva de verão intensa" then Some(82)
    else if desc == "Tempestade com trovões" then Some(95)
    else if desc == "Granizo" then Some(99)
    else None
  }

  /** The description identifies the code: reading it back gives the code
      again, except that 2 reads back as 1, the code it shares its entry with. */
  lemma DescriptionIdentifiesCode(code: int)
    requires code in KnownCodes
    ensures CodeOfDescription(DescriptionAndIcon(code).desc) == Some(if code == 2 then 1 else code)
  {
  }

  /** Within each intensity triple (drizzle, rain, snow, showers) the three
      descriptions differ, and apart from codes 1 and 2 no two known codes
      share a description. */
  lemma DescriptionsDistinct(a: int, b: int)
    requires a in KnownCodes && b in KnownCodes && a != b
    requires !(a in {1, 2} && b in {1, 2})
    ensures DescriptionAndIcon(a).desc != DescriptionAndIcon(b).desc
  {
    DescriptionIdentifiesCode(a);
    DescriptionIdentifiesCode(b);
  }
}
