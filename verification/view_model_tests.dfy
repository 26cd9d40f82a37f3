/**
 * The test double `MockManager` and the view-model scenarios of the test suite, as
 * client code that can only use the view model's contracts.
 */
module ViewModelTests {
  import opened Records
  import opened NetworkManager
  import opened ViewModel

  /**
   * One `MockManager.request` call. `bundle` maps each JSON fixture name of the test bundle
   * to what decoding that fixture yields. An empty string is not a URL and an unknown name
   * has no fixture; both throw `invalidUrl`.
   */
  function MockRequest<T>(bundle: map<string, Result<T>>, url: string): (outcome: Result<T>)
    ensures url == "" || url !in bundle ==> outcome == Err(InvalidUrl)
    ensures url != "" && url in bundle ==> outcome == bundle[url]
  {
    if url == "" then Err(InvalidUrl)
    else if url !in bundle then Err(InvalidUrl)
    else bundle[url]
  }

  function MockManager(currentBundle: map<string, Result<CurrentWeatherData>>,
                       forecastBundle: map<string, Result<ForecastWeatherResponse>>): Networking
  {
    Networking(url => MockRequest(currentBundle, url), url => MockRequest(forecastBundle, url))
  }

  /** The test bundle: a single current-weather fixture, decoded to `atlanta`. */
  function TestBundle(atlanta: CurrentWeatherData): Networking
  {
    MockManager(map["ValidResponseCurrentWeather" := Ok(atlanta)], map[])
  }

  /** `testFetchCurrentWeather_WhenEveryThingGoesCorrect`. */
  method FetchCurrentWeatherWhenEverythingGoesCorrect(atlanta: CurrentWeatherData)
    requires atlanta.name == "Atlanta" && atlanta.base == "stations"
  {
    var network := TestBundle(atlanta);
    assert network.requestCurrentWeather("ValidResponseCurrentWeather") == Ok(atlanta);
    var viewModel := new WeatherViewModel(33.7489924, -84.3902644, network);
    viewModel.FetchCurrentWeather("ValidResponseCurrentWeather");
    assert viewModel.currentWeather == Some(atlanta);
    assert viewModel.currentWeather.value.name == "Atlanta";
    assert viewModel.currentWeather.value.base == "stations";
    assert viewModel.errorMessage == None;
  }

  /** `testFetchCurrentWeather_WhenWeExpectError` and `..._UrlIsWrong`. */
  method FetchCurrentWeatherWhenWeExpectError(atlanta: CurrentWeatherData, endpoint: string)
    requires endpoint == "" || endpoint == "SomeWringURL"
  {
    var viewModel := new WeatherViewModel(33.7489924, -84.3902644, TestBundle(atlanta));
    viewModel.FetchCurrentWeather(endpoint);
    assert viewModel.currentWeather == None;
    assert viewModel.errorMessage.Some?;
    assert !viewModel.isLoading;
  }

  /** A failed fetch keeps the weather an earlier fetch stored. */
  method FailureKeepsEarlierWeather(atlanta: CurrentWeatherData)
  {
    var network := TestBundle(atlanta);
    assert network.requestCurrentWeather("ValidResponseCurrentWeather") == Ok(atlanta);
    assert network.requestCurrentWeather("") == Err(InvalidUrl);
    var viewModel := new WeatherViewModel(33.7489924, -84.3902644, network);
    viewModel.FetchCurrentWeather("ValidResponseCurrentWeather");
    assert viewModel.currentWeather == Some(atlanta);
    viewModel.FetchCurrentWeather("");
    assert viewModel.currentWeather == Some(atlanta);
    assert viewModel.errorMessage.Some?;
  }

  /**
   * The home page's `fetchData` runs both fetches one after the other. When the first fails
   * and the second succeeds, the first failure's message stays published.
   */
  method FetchDataKeepsStaleError(forecast: ForecastWeatherResponse, describeDouble: real -> string)
  {
    var network := Networking(url => Err(Thrown("offline")), url => Ok(forecast));
    var viewModel := new WeatherViewModel(33.7489924, -84.3902644, network);
    viewModel.FetchCurrentWeather(viewModel.GenerateURL("weather", describeDouble));
    viewModel.FetchFiveDayForecast(viewModel.GenerateURL("forecast", describeDouble));
    assert viewModel.currentWeather == None;
    assert |viewModel.fiveDayForecast| == |forecast.list|;
    assert viewModel.errorMessage == Some(ErrorMessage(Thrown("offline")));
    assert !viewModel.isLoading;
  }
}
