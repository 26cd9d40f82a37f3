/** The `Networking` capability the view model is given, and the errors it throws. */
module NetworkManager {
  import opened Records

  /** `NetworkError.invalidUrl`, or any other error a request throws (transport, decoding). */
  datatype NetworkError = InvalidUrl | Thrown(localizedDescription: string)

  /** What one `request(url:modelType:)` call produces: the decoded value, or the thrown error. */
  datatype Result<T> = Ok(value: T) | Err(error: NetworkError)

  /** Foundation's bridged `localizedDescription` of `NetworkError.invalidUrl`. */
  const InvalidUrlDescription: string :=
    "The operation couldn’t be completed. (WeatherApplication.NetworkError error 0.)"

  /** The `localizedDescription` of an error. */
  function LocalizedDescription(error: NetworkError): (text: string)
    ensures error.Thrown? ==> text == error.localizedDescription
    ensures error.InvalidUrl? ==> text == InvalidUrlDescription && |text| > 0
  {
    match error
    case InvalidUrl => InvalidUrlDescription
    case Thrown(description) => description
  }

  /**
   * The generic `request<T>(url:modelType:)` of the `Networking` protocol, at the two
   * model types the view model asks for. Each is a function of the URL string.
   */
  datatype Networking = Networking(
    requestCurrentWeather: string -> Result<CurrentWeatherData>,
    requestForecast: string -> Result<ForecastWeatherResponse>)
}
