# Weather view model, in Dafny

A model of `WeatherViewModel`, the observable state holder of a SwiftUI weather app. It
fetches the current weather and the 5-day / 3-hour forecast through an injected `Networking`
capability. It converts the forecast's temperatures from Kelvin to Fahrenheit. It publishes
four fields for the views: `currentWeather`, `fiveDayForecast`, `errorMessage` and
`isLoading`. It also slices the flat forecast list into per-day windows of eight samples.

Files:

- `records.dfy` (`Records`): the response shapes: current weather, forecast samples, the forecast response.
- `network_manager.dfy` (`NetworkManager`): the `Networking` protocol, `NetworkError`, and the outcome of one request.
  A request is a function from the URL string to `Ok(value)` or `Err(error)`.
- `weather_view_model.dfy` (`ViewModel`): the class `WeatherViewModel` and its fields.
  - Each state-changing method names in its `modifies` clause exactly the fields it may change, so every other field is unchanged.
  - The members that read no field of the view model are declared at module level. `kelvinToFahrenheit` and `forecastData(for:)` are functions, and `ConvertedOnce` is a per-item predicate. `convertToFahrenheit` is a method with a loop.
- `view_model_properties.dfy` (`ViewModelProperties`): lemmas about day windows, the conversion and generated URLs.
- `view_model_tests.dfy` (`ViewModelTests`): the test double `MockManager` over a fixture map.
  Its client methods use only the view model's contracts:
  - two replay `WeatherViewModelTests.swift`: a successful fetch gives "Atlanta" and "stations" with no error, and an empty or unknown endpoint leaves `currentWeather` nil and sets an error;
  - `FailureKeepsEarlierWeather` is an added scenario: a failure after a success keeps the stored weather;
  - `FetchDataKeepsStaleError` replays the home page's `fetchData` (`HomePage.swift`): a failed first fetch leaves its error published after a successful second fetch.

Two behaviours one might expect are not in the code, and the model follows the code:

- There is no daily min/max aggregation. The code only slices the list into day windows (`forecastData(for:)`), so only slicing is modelled.
- A successful fetch does not clear `errorMessage`: it keeps any earlier error. The contracts of `FetchCurrentWeather` and `FetchFiveDayForecast` say so, and `FetchDataKeepsStaleError` shows it.

## Model

| member | source | states |
|---|---|---|
| ViewModel.KelvinToFahrenheit | WeatherApplication/WeatherViewModel.swift:82-84 | the result is the linear map sending 273.15 K to 32 F with slope 9/5 |
| ViewModel.ConvertToFahrenheit | WeatherApplication/WeatherViewModel.swift:66-80 | the rebuilt list has the input's length and order; item i differs from input item i only in temp, feelsLike, tempMin and tempMax, each converted exactly once |
| ViewModel.ErrorMessage | WeatherApplication/WeatherViewModel.swift:62 | the stored message is "Error occurred: " followed by the error's localized description |
| ViewModel.ForecastData | WeatherApplication/WeatherViewModel.swift:88-97 | the window has 8 samples exactly when day < count / 8, and is otherwise empty (never a truncated window); sample i of it is list item 8*day + i |
| ViewModel.WeatherViewModel.constructor | WeatherApplication/WeatherViewModel.swift:11-27 | a fresh model holds no weather, an empty forecast, no error, is not loading, and keeps the coordinates and network given |
| ViewModel.WeatherViewModel.FetchCurrentWeather | WeatherApplication/WeatherViewModel.swift:29-39 | loading ends; on success currentWeather is the fetched value and errorMessage is unchanged; on failure currentWeather is unchanged and errorMessage is set; the forecast is never touched |
| ViewModel.WeatherViewModel.FetchFiveDayForecast | WeatherApplication/WeatherViewModel.swift:41-52 | loading ends; on success the forecast is the fetched list, same length and order, each item converted once, errorMessage unchanged; on failure the old forecast is kept and errorMessage set; currentWeather is never touched |
| ViewModel.WeatherViewModel.GenerateURL | WeatherApplication/WeatherViewModel.swift:54-56 | the URL starts with the API base, has the endpoint right after it, and ends with the API key; the full shape is read back by URLRoundTrip |
| ViewModel.WeatherViewModel.Handle | WeatherApplication/WeatherViewModel.swift:59-63 | loading ends and errorMessage holds the error's message; no other field changes |
| NetworkManager.LocalizedDescription | WeatherApplication/NetworkManager.swift:10-12 | a thrown error's own description is used; invalidUrl is described by Foundation's bridged text, which is non-empty |
| ViewModelProperties.FirstDaysArePrefix | WeatherApplication/WeatherViewModel.swift:88-96 | the first k complete day windows, concatenated, are exactly the first 8k samples |
| ViewModelProperties.WindowsDisjoint | WeatherApplication/WeatherViewModel.swift:88-96 | two complete windows do not overlap: the earlier ends before the later begins |
| ViewModelProperties.SampleWindow | WeatherApplication/WeatherViewModel.swift:88-96 | each sample of a complete day is in window k / 8 at offset k % 8 |
| ViewModelProperties.HomePageDays | WeatherApplication/HomePage.swift:54-56 | for the days 0..6 the home page asks for: 40 samples give five full days and days 5 and 6 empty; 35 samples give four full days and days 4, 5 and 6 empty |
| ViewModelProperties.ConversionRoundTrip | WeatherApplication/WeatherViewModel.swift:82-84 | the conversion is inverted by (f + 459.67) * 5/9, both ways |
| ViewModelProperties.ConversionReferencePoints | WeatherApplication/WeatherViewModel.swift:82-84 | 0 K is -459.67 F, 273.15 K is 32 F, 373.15 K is 212 F |
| ViewModelProperties.ConversionMonotonic | WeatherApplication/WeatherViewModel.swift:82-84 | the conversion is strictly increasing, so min stays below max |
| ViewModelProperties.ConvertedOnceDeterministic | WeatherApplication/WeatherViewModel.swift:66-80 | the converted item is determined by the original |
| ViewModelProperties.DoubleConversionDetected | WeatherApplication/WeatherViewModel.swift:66-80 | converting an item twice is not the same as converting it once, except at the conversion's fixed point |
| ViewModelProperties.URLRoundTrip | WeatherApplication/WeatherViewModel.swift:54-56 | a generated URL parses back, in order, as the API base, the endpoint up to `?`, `lat=` and the rendered latitude up to `&`, `lon=` and the rendered longitude up to `&`, `appid=` and the API key, provided the endpoint has no `?` and the rendered coordinates have no `&` |
| ViewModelTests.MockRequest | WeatherApplicationTests/MockManager.swift:12-26 | an empty URL or one with no fixture throws invalidUrl; a non-empty URL with a fixture yields exactly that fixture's decoding outcome, value or error |

## Left out

- Network and decoding I/O: `NetworkManager.request` uses `URLSession` and `JSONDecoder`. It is modelled as a pure function from the URL to an outcome, and the JSON decoding itself is not modelled.
- Floating point: `Double` is modelled as exact `real`, so rounding is not modelled.
- GenerateURL: Swift's rendering of a `Double` in string interpolation is not modelled. It is the parameter `describeDouble`.
- Concurrency: `@MainActor`, `async`/`await` and the `Task` in `fetchData` are not modelled. Each fetch is one sequential step.
  - The `isLoading = true` written before the await is therefore never observable in the model.
  - Interleavings of two fetches in flight are not covered.
- `print` in `handle(error:)`: console output, left out.
- `weatherData`: the field is never read or written by the view model, so it is left out.
- MockRequest: `URL(string:)` parsing is modelled only for the empty string, which it rejects. The bundle lookup is a map from fixture name to decoding outcome.
- Forecast sample fields: those beyond `main` are abbreviated, because the declaration of `List` is not part of this model. Whatever fields it has, `ConvertedOnce` requires all of them to be unchanged.
- ForecastData: requires `day >= 0`. A negative day makes the source's slice trap, and its only caller asks for days 0 to 6.
- ForecastData: the 64-bit `Int` overflow trap of `day * 8` and `start + 8` is not modelled. It happens for day >= 1152921504606846975, where the model returns the empty list instead.
- The SwiftUI views, `formattedDate` (uses `DateFormatter`) and `iconName` are UI and are not modelled.
