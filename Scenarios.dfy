/** Client walks through the widget, checked against the handlers' contracts alone. */
module Scenarios {
  import opened Wrappers
  import opened Text
  import opened Backgrounds
  import opened Suggestions
  import opened Forecasts
  import opened Widget

  /** Search "Lon", pick "London, UK", receive six days, open the fourth day, close it. */
  method LondonWalkthrough(days: seq<ForecastDay>)
    requires |days| == 6
  {
    var w := new WeatherWidget();
    var sent := w.Type("Lon");
    assert sent == Some("Lon");
    w.SuggestionsArrive([Suggestion("1", "London", "UK")]);
    sent := w.ClickSuggestion(0);
    assert sent == Some("London") && w.loading && w.forecastData == [];
    assert w.selectedCity == Some(Place("London", "UK"));
    w.ForecastArrives(days);
    assert !w.loading && |w.forecastData| == 6 && w.city == "" && w.suggestions == [];
    assert w.selectedCity == Some(Place("London", "UK"));
    assert w.pageStyle == StyleFor(SelectBackground(days[0].day.condition.text));
    w.ClickCard(3);
    assert w.DialogOpen() && w.selectedDay == Some(days[3]);
    w.CloseDialog();
    assert !w.DialogOpen();
  }

  /** A two-letter query sends no search and leaves the list empty. */
  method ShortQuery() {
    var w := new WeatherWidget();
    var sent := w.Type("xy");
    assert sent == None && w.suggestions == [];
  }

  /** Enter on "Paris" with only "Parma" suggested sends nothing and changes nothing. */
  method EnterWithoutMatch() {
    var w := new WeatherWidget();
    var sent := w.Type("Paris");
    w.SuggestionsArrive([Suggestion("2", "Parma", "Italy")]);
    assert ToLowerAscii("Parma")[3] == 'm' && ToLowerAscii("Paris")[3] == 'i';
    sent := w.PressKey("Enter");
    assert sent == None && !w.loading && w.forecastData == [] && w.selectedCity == None;
  }

  /** Enter on "LONDON" finds "London" whatever the case of the typed text. */
  method EnterIgnoresCase() {
    var w := new WeatherWidget();
    var sent := w.Type("LONDON");
    w.SuggestionsArrive([Suggestion("1", "London", "UK")]);
    EqualsIgnoringCaseAt("London", "LONDON");
    sent := w.PressKey("Enter");
    assert sent == Some("London") && w.selectedCity == Some(Place("London", "UK"));
  }

  /**
   * Two forecast requests in flight: the first answer arrives, a card of it is
   * opened, then the second answer replaces the list behind the open dialog,
   * which keeps showing a day that is no longer listed.
   */
  method OverlappingForecastsLeaveStaleDay(first: seq<ForecastDay>, second: seq<ForecastDay>)
    requires first != [] && first[0] !in second
  {
    var w := new WeatherWidget();
    var sent := w.StartForecast("Paris", "France");
    sent := w.StartForecast("Paris", "United States of America");
    w.ForecastArrives(first);
    w.ClickCard(0);
    assert w.DayListed();
    w.ForecastArrives(second);
    assert w.DialogOpen() && !w.DayListed();
  }
}
