/** The shape of the forecast data the widget stores and renders. */
module Forecasts {

  /** A weather condition: its text (the background rule reads it) and its icon URL. */
  datatype Condition = Condition(text: string, icon: string)

  /** One day's summary. */
  datatype DaySummary = DaySummary(
    maxTempC: real,
    minTempC: real,
    condition: Condition,
    maxWindKph: real,
    windDir: string,
    avgHumidity: real)

  /** One hourly reading. */
  datatype HourReading = HourReading(
    time: string,
    tempC: real,
    condition: Condition,
    windKph: real,
    windDir: string,
    humidity: real)

  /** One calendar day: its date, its summary and its hourly readings in time order. */
  datatype ForecastDay = ForecastDay(date: string, day: DaySummary, hour: seq<HourReading>)

  /** Where a forecast was asked for. */
  datatype Place = Place(name: string, country: string)
}
