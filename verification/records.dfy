/** Value shapes of the two weather API responses, as the app decodes them. */
module Records {

  datatype Option<T> = None | Some(value: T)

  /** `CoordinatesData`: where a current-weather report was taken. */
  datatype Coordinates = Coordinates(lon: real, lat: real)

  /** `MainEnum`: the only two conditions the app knows how to decode. */
  datatype MainEnum = Clear | Clouds

  /** One entry of a response's `weather` array. */
  datatype Weather = Weather(id: int, main: MainEnum, description: string, icon: string)

  /** `TemperatureData` of a current-weather response; temperatures in Kelvin. */
  datatype TemperatureData = TemperatureData(
    temp: real, pressure: real, humidity: real, tempMin: real, tempMax: real)

  /** `CurrrentWeatherData` (the source spells it with three r's). */
  datatype CurrentWeatherData = CurrentWeatherData(
    coord: Coordinates, weather: seq<Weather>, base: string, main: TemperatureData, name: string)

  /** The `main` block of one forecast sample. */
  datatype ForecastMain = ForecastMain(
    temp: real, feelsLike: real, tempMin: real, tempMax: real, pressure: real, humidity: real)

  /** One 3-hour forecast sample (the source's `List`). */
  datatype ForecastItem = ForecastItem(
    dt: int, main: ForecastMain, weather: seq<Weather>, clouds: int,
    visibility: int, pop: real, dtTxt: string)

  /** `ForcastWeatherResponse`: the chronological sample list of the 5-day forecast. */
  datatype ForecastWeatherResponse = ForecastWeatherResponse(list: seq<ForecastItem>)
}
