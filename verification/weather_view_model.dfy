/**
 * `WeatherViewModel`: fetches the current weather and the 5-day forecast through an
 * injected `Networking` capability, converts forecast temperatures to Fahrenheit, and
 * publishes the results, a loading flag and an error message.
 */
module ViewModel {
  import opened Records
  import opened NetworkManager

  /** The fixed part of every request URL, and the embedded API key. */
  const BaseURL: string := "https://api.openweathermap.org/data/2.5/"
  const ApiKey: string := "fd93c91807a4cccf4a75514701bae768"

  /** Number of 3-hour samples per day. */
  const SamplesPerDay: nat := 8

  /**
   * `kelvinToFahrenheit`, exact on reals: the linear map that sends the freezing point of
   * water (273.15 K) to 32 F with slope 9/5.
   */
  function KelvinToFahrenheit(kelvin: real): (fahrenheit: real)
    ensures (fahrenheit - 32.0) * 5.0 == (kelvin - 273.15) * 9.0
  {
    (kelvin * 9.0 / 5.0) - 459.67
  }

  /**
   * `after` is `before` with its four temperature fields each converted exactly once,
   * and nothing else changed (not pressure, not humidity, not any other field).
   */
  predicate ConvertedOnce(before: ForecastItem, after: ForecastItem)
  {
    && after.main.temp == KelvinToFahrenheit(before.main.temp)
    && after.main.feelsLike == KelvinToFahrenheit(before.main.feelsLike)
    && after.main.tempMin == KelvinToFahrenheit(before.main.tempMin)
    && after.main.tempMax == KelvinToFahrenheit(before.main.tempMax)
    && after.main.pressure == before.main.pressure
    && after.main.humidity == before.main.humidity
    && after == before.(main := after.main)
  }

  /**
   * `convertToFahrenheit`: rebuilds the sample list item by item, same length and order,
   * each item converted exactly once.
   */
  method ConvertToFahrenheit(response: ForecastWeatherResponse) returns (converted: ForecastWeatherResponse)
    ensures |converted.list| == |response.list|
    ensures forall i :: 0 <= i < |response.list| ==> ConvertedOnce(response.list[i], converted.list[i])
  {
    var modifiedList: seq<ForecastItem> := [];
    for i := 0 to |response.list|
      invariant |modifiedList| == i
      invariant forall j :: 0 <= j < i ==> ConvertedOnce(response.list[j], modifiedList[j])
    {
      var item := response.list[i];
      var modifiedMain := item.main;
      modifiedMain := modifiedMain.(temp := KelvinToFahrenheit(modifiedMain.temp));
      modifiedMain := modifiedMain.(feelsLike := KelvinToFahrenheit(modifiedMain.feelsLike));
      modifiedMain := modifiedMain.(tempMin := KelvinToFahrenheit(modifiedMain.tempMin));
      modifiedMain := modifiedMain.(tempMax := KelvinToFahrenheit(modifiedMain.tempMax));

      var modifiedItem := item.(main := modifiedMain);
      modifiedList := modifiedList + [modifiedItem];
    }
    converted := ForecastWeatherResponse(modifiedList);
  }

  /** The text `handle(error:)` stores in `errorMessage`. */
  function ErrorMessage(error: NetworkError): (message: string)
    ensures |message| == 16 + |LocalizedDescription(error)|
    ensures message[..16] == "Error occurred: "
    ensures message[16..] == LocalizedDescription(error)
  {
    "Error occurred: " + LocalizedDescription(error)
  }

  /**
   * `forecastData(for:)`: the samples of day `day` of `fiveDayForecast`, the view model's
   * published list, or nothing when that day's eight samples are not all there.
   */
  function ForecastData(fiveDayForecast: seq<ForecastItem>, day: int): (window: seq<ForecastItem>)
    requires day >= 0
    ensures |window| == 0 || |window| == SamplesPerDay
    ensures |window| == SamplesPerDay <==> day < |fiveDayForecast| / SamplesPerDay
    ensures forall i :: 0 <= i < |window| ==> window[i] == fiveDayForecast[day * SamplesPerDay + i]
  {
    var start := day * 8;
    var end := start + 8;
    if start < |fiveDayForecast| && end <= |fiveDayForecast| then
      fiveDayForecast[start..end]
    else
      []
  }

  class WeatherViewModel {
    var currentWeather: Option<CurrentWeatherData>
    var fiveDayForecast: seq<ForecastItem>
    var errorMessage: Option<string>
    var isLoading: bool

    const networkManager: Networking
    var latitude: real
    var longitude: real

    constructor (lat: real, lon: real, networkManager: Networking)
      ensures latitude == lat && longitude == lon && this.networkManager == networkManager
      ensures currentWeather == None && fiveDayForecast == []
      ensures errorMessage == None && !isLoading
    {
      currentWeather := None;
      fiveDayForecast := [];
      errorMessage := None;
      isLoading := false;
      latitude := lat;
      longitude := lon;
      this.networkManager := networkManager;
    }

    /**
     * `fetchCurrentWeather(endpoint:)`: on success the fetched report replaces
     * `currentWeather` and a stale `errorMessage` is kept; on failure `currentWeather` is
     * kept and the error is reported. Loading ends either way; the forecast is untouched.
     */
    method FetchCurrentWeather(endpoint: string)
      modifies this`isLoading, this`currentWeather, this`errorMessage
      ensures !isLoading
      ensures networkManager.requestCurrentWeather(endpoint).Ok? ==>
        && currentWeather == Some(networkManager.requestCurrentWeather(endpoint).value)
        && errorMessage == old(errorMessage)
      ensures networkManager.requestCurrentWeather(endpoint).Err? ==>
        && currentWeather == old(currentWeather)
        && errorMessage == Some(ErrorMessage(networkManager.requestCurrentWeather(endpoint).error))
    {
      isLoading := true;

      var fetched := networkManager.requestCurrentWeather(endpoint);
      match fetched
      case Ok(fetchedResponse) =>
        currentWeather := Some(fetchedResponse);
        isLoading := false;
      case Err(error) =>
        Handle(error);
    }

    /**
     * `fetchFiveDayForecast(endpoint:)`: on success `fiveDayForecast` becomes the fetched
     * list, in order, every sample converted to Fahrenheit exactly once, and a stale
     * `errorMessage` is kept; on failure the old forecast is kept and the error reported.
     * Loading ends either way; the current weather is untouched.
     */
    method FetchFiveDayForecast(endpoint: string)
      modifies this`isLoading, this`fiveDayForecast, this`errorMessage
      ensures !isLoading
      ensures networkManager.requestForecast(endpoint).Ok? ==>
        && |fiveDayForecast| == |networkManager.requestForecast(endpoint).value.list|
        && (forall i :: 0 <= i < |fiveDayForecast| ==>
              ConvertedOnce(networkManager.requestForecast(endpoint).value.list[i], fiveDayForecast[i]))
        && errorMessage == old(errorMessage)
      ensures networkManager.requestForecast(endpoint).Err? ==>
        && fiveDayForecast == old(fiveDayForecast)
        && errorMessage == Some(ErrorMessage(networkManager.requestForecast(endpoint).error))
    {
      isLoading := true;

      var fetched := networkManager.requestForecast(endpoint);
      match fetched
      case Ok(response) =>
        response := ConvertToFahrenheit(response);
        fiveDayForecast := response.list;
        isLoading := false;
      case Err(error) =>
        Handle(error);
    }

    /**
     * `generateURL(endpoint:)`. `describeDouble` is Swift's rendering of a `Double` inside
     * string interpolation. The URL starts with the API base, continues with the endpoint
     * and ends with the API key.
     */
    function GenerateURL(endpoint: string, describeDouble: real -> string): (url: string)
      reads this
      ensures |url| >= |BaseURL| + |endpoint| + |ApiKey|
      ensures url[..|BaseURL|] == BaseURL
      ensures url[|BaseURL|..|BaseURL| + |endpoint|] == endpoint
      ensures url[|url| - |ApiKey|..] == ApiKey
    {
      BaseURL + endpoint + "?lat=" + describeDouble(latitude) + "&lon=" + describeDouble(longitude)
        + "&appid=" + ApiKey
    }

    /** `handle(error:)`: ends loading and publishes the error's description. */
    method Handle(error: NetworkError)
      modifies this`isLoading, this`errorMessage
      ensures !isLoading
      ensures errorMessage == Some(ErrorMessage(error))
    {
      isLoading := false;
      errorMessage := Some(ErrorMessage(error));
    }
  }
}
