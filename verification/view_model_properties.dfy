/** Properties of the view model's pure parts: day windows, conversion and URLs. */
module ViewModelProperties {
  import opened Records
  import opened ViewModel

  // ---------------------------------------------------------------------------
  // Day windows of the forecast list

  /** The first `days` day windows, one after another. */
  function FirstDays(fiveDayForecast: seq<ForecastItem>, days: nat): seq<ForecastItem>
  {
    if days == 0 then [] else FirstDays(fiveDayForecast, days - 1) + ForecastData(fiveDayForecast, days - 1)
  }

  /** Complete day windows are contiguous: together the first `days` of them are exactly the
      first `8 * days` samples, nothing skipped, repeated or reordered. */
  lemma {:induction false} FirstDaysArePrefix(fiveDayForecast: seq<ForecastItem>, days: nat)
    requires days * SamplesPerDay <= |fiveDayForecast|
    ensures FirstDays(fiveDayForecast, days) == fiveDayForecast[..days * SamplesPerDay]
  {
    if days > 0 {
      var start := (days - 1) * SamplesPerDay;
      FirstDaysArePrefix(fiveDayForecast, days - 1);
      assert ForecastData(fiveDayForecast, days - 1) == fiveDayForecast[start..start + SamplesPerDay];
      assert fiveDayForecast[..start] + fiveDayForecast[start..start + SamplesPerDay]
          == fiveDayForecast[..start + SamplesPerDay];
    }
  }

  /** Two complete windows never overlap: the earlier one ends before the later one begins,
      and the samples between them belong to neither. */
  lemma WindowsDisjoint(fiveDayForecast: seq<ForecastItem>, earlier: nat, later: nat)
    requires earlier < later < |fiveDayForecast| / SamplesPerDay
    ensures fiveDayForecast[earlier * SamplesPerDay .. later * SamplesPerDay + SamplesPerDay]
         == ForecastData(fiveDayForecast, earlier)
            + fiveDayForecast[earlier * SamplesPerDay + SamplesPerDay .. later * SamplesPerDay]
            + ForecastData(fiveDayForecast, later)
  {
    var s1 := earlier * SamplesPerDay;
    var s2 := later * SamplesPerDay;
    assert ForecastData(fiveDayForecast, earlier) == fiveDayForecast[s1..s1 + SamplesPerDay];
    assert ForecastData(fiveDayForecast, later) == fiveDayForecast[s2..s2 + SamplesPerDay];
    assert fiveDayForecast[s1..s2 + SamplesPerDay]
        == fiveDayForecast[s1..s1 + SamplesPerDay] + fiveDayForecast[s1 + SamplesPerDay..s2]
           + fiveDayForecast[s2..s2 + SamplesPerDay];
  }

  /** Every sample of a complete day is found in exactly the window `k / 8`, at offset `k % 8`. */
  lemma SampleWindow(fiveDayForecast: seq<ForecastItem>, k: nat)
    requires k < |fiveDayForecast| / SamplesPerDay * SamplesPerDay
    ensures |ForecastData(fiveDayForecast, k / SamplesPerDay)| == SamplesPerDay
    ensures ForecastData(fiveDayForecast, k / SamplesPerDay)[k % SamplesPerDay] == fiveDayForecast[k]
  {
    assert k / SamplesPerDay < |fiveDayForecast| / SamplesPerDay;
  }

  /** The home page asks for days 0 to 6. A full 5-day response (40 samples) yields five
      complete days and two empty ones; a 35-sample response drops its partial fifth day. */
  lemma HomePageDays(fiveDayForecast: seq<ForecastItem>)
    ensures |fiveDayForecast| == 40 ==>
      && (forall day :: 0 <= day < 5 ==> |ForecastData(fiveDayForecast, day)| == SamplesPerDay)
      && ForecastData(fiveDayForecast, 5) == [] && ForecastData(fiveDayForecast, 6) == []
    ensures |fiveDayForecast| == 35 ==>
      && (forall day :: 0 <= day < 4 ==> |ForecastData(fiveDayForecast, day)| == SamplesPerDay)
      && ForecastData(fiveDayForecast, 4) == []
      && ForecastData(fiveDayForecast, 5) == [] && ForecastData(fiveDayForecast, 6) == []
  {
  }

  // ---------------------------------------------------------------------------
  // Temperature conversion

  /** The inverse conversion, used only to state that no information is lost. */
  ghost function FahrenheitToKelvin(fahrenheit: real): real
  {
    (fahrenheit + 459.67) * 5.0 / 9.0
  }

  lemma ConversionRoundTrip(kelvin: real, fahrenheit: real)
    ensures FahrenheitToKelvin(KelvinToFahrenheit(kelvin)) == kelvin
    ensures KelvinToFahrenheit(FahrenheitToKelvin(fahrenheit)) == fahrenheit
  {
  }

  /** Reference points: absolute zero, freezing and boiling water. */
  lemma ConversionReferencePoints()
    ensures KelvinToFahrenheit(0.0) == -459.67
    ensures KelvinToFahrenheit(273.15) == 32.0
    ensures KelvinToFahrenheit(373.15) == 212.0
  {
  }

  /** The conversion preserves the order of temperatures, so min stays below max. */
  lemma ConversionMonotonic(a: real, b: real)
    requires a < b
    ensures KelvinToFahrenheit(a) < KelvinToFahrenheit(b)
  {
  }

  /** The only temperature that a second conversion leaves unchanged. */
  const ConversionFixedPoint: real := 574.5875

  /** A converted item is fully determined by the original item. */
  lemma ConvertedOnceDeterministic(before: ForecastItem, after1: ForecastItem, after2: ForecastItem)
    requires ConvertedOnce(before, after1) && ConvertedOnce(before, after2)
    ensures after1 == after2
  {
    assert after1.main == after2.main;
  }

  /** Converting twice is not converting once: a doubly converted item is told apart from a
      singly converted one unless its temperature sits at the fixed point. */
  lemma DoubleConversionDetected(before: ForecastItem, once: ForecastItem, twice: ForecastItem)
    requires ConvertedOnce(before, once) && ConvertedOnce(once, twice)
    requires before.main.temp != ConversionFixedPoint
    ensures !ConvertedOnce(before, twice)
  {
    var t := before.main.temp;
    assert KelvinToFahrenheit(t) != t;
    assert twice.main.temp == KelvinToFahrenheit(KelvinToFahrenheit(t)) != KelvinToFahrenheit(t);
  }

  // ---------------------------------------------------------------------------
  // Request URLs

  /** The longest prefix of `s` that does not contain `c`. */
  ghost function TakeUntil(s: string, c: char): (prefix: string)
    ensures prefix <= s && c !in prefix
  {
    if s == [] || s[0] == c then [] else [s[0]] + TakeUntil(s[1..], c)
  }

  lemma {:induction false} TakeUntilSeparator(prefix: string, c: char, rest: string)
    requires c !in prefix
    ensures TakeUntil(prefix + ([c] + rest), c) == prefix
  {
    if prefix == [] {
      assert prefix + ([c] + rest) == [c] + rest;
    } else {
      assert (prefix + ([c] + rest))[0] == prefix[0];
      assert (prefix + ([c] + rest))[1..] == prefix[1..] + ([c] + rest);
      TakeUntilSeparator(prefix[1..], c, rest);
    }
  }

  /** What follows `prefix` in `s`, if `s` starts with it. */
  ghost function StripPrefix(s: string, prefix: string): Option<string>
  {
    if prefix <= s then Some(s[|prefix|..]) else None
  }

  /** The parts a request URL is made of. */
  datatype UrlParts = UrlParts(endpoint: string, latitude: string, longitude: string, appid: string)

  /**
   * Reads a request URL back: the API base, the endpoint up to `?`, then `lat=` and the
   * latitude up to `&`, then `lon=` and the longitude up to `&`, then `appid=` and the key.
   */
  ghost function ParseURL(url: string): Option<UrlParts>
  {
    match StripPrefix(url, BaseURL)
    case None => None
    case Some(afterBase) =>
      var endpoint := TakeUntil(afterBase, '?');
      match StripPrefix(afterBase[|endpoint|..], "?lat=")
      case None => None
      case Some(afterLat) =>
        var latitude := TakeUntil(afterLat, '&');
        match StripPrefix(afterLat[|latitude|..], "&lon=")
        case None => None
        case Some(afterLon) =>
          var longitude := TakeUntil(afterLon, '&');
          match StripPrefix(afterLon[|longitude|..], "&appid=")
          case None => None
          case Some(appid) => Some(UrlParts(endpoint, latitude, longitude, appid))
  }

  /** `s` with `prefix` in front reads back as `s` once `prefix` is stripped. */
  lemma StripPrefixOfConcat(prefix: string, s: string)
    ensures StripPrefix(prefix + s, prefix) == Some(s)
  {
    assert (prefix + s)[..|prefix|] == prefix;
    assert (prefix + s)[|prefix|..] == s;
  }

  /** One field of a URL is read back: the value up to the separator's first character,
      then the separator itself, then whatever follows. */
  lemma ReadField(value: string, separator: string, rest: string)
    requires |separator| > 0 && separator[0] !in value
    ensures TakeUntil(value + (separator + rest), separator[0]) == value
    ensures StripPrefix((value + (separator + rest))[|value|..], separator) == Some(rest)
  {
    var tail := separator[1..] + rest;
    assert separator + rest == [separator[0]] + tail;
    TakeUntilSeparator(value, separator[0], tail);
    StripPrefixOfConcat(value, separator + rest);
    StripPrefixOfConcat(separator, rest);
  }

  /** The generated URL, grouped from the right: each piece followed by all that comes after it. */
  lemma GenerateURLGrouped(viewModel: WeatherViewModel, endpoint: string, describeDouble: real -> string)
    ensures viewModel.GenerateURL(endpoint, describeDouble)
         == BaseURL + (endpoint + ("?lat=" + (describeDouble(viewModel.latitude)
              + ("&lon=" + (describeDouble(viewModel.longitude) + ("&appid=" + ApiKey))))))
  {
  }

  /**
   * A generated URL reads back as its endpoint, the rendered latitude, the rendered
   * longitude and the API key, each in its own place, whenever the endpoint has no `?` and
   * the rendered coordinates have no `&`.
   */
  lemma URLRoundTrip(viewModel: WeatherViewModel, endpoint: string, describeDouble: real -> string)
    requires '?' !in endpoint
    requires '&' !in describeDouble(viewModel.latitude) && '&' !in describeDouble(viewModel.longitude)
    ensures ParseURL(viewModel.GenerateURL(endpoint, describeDouble))
         == Some(UrlParts(endpoint, describeDouble(viewModel.latitude), describeDouble(viewModel.longitude), ApiKey))
  {
    var lat := describeDouble(viewModel.latitude);
    var lon := describeDouble(viewModel.longitude);
    var afterLon := lon + ("&appid=" + ApiKey);
    var afterLat := lat + ("&lon=" + afterLon);
    var afterBase := endpoint + ("?lat=" + afterLat);
    GenerateURLGrouped(viewModel, endpoint, describeDouble);
    StripPrefixOfConcat(BaseURL, afterBase);
    ReadField(endpoint, "?lat=", afterLat);
    ReadField(lat, "&lon=", afterLon);
    ReadField(lon, "&appid=", ApiKey);
  }
}
