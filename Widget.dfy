/**
 * The weather widget's component state and its event handlers. Each
 * asynchronous request is split into the step that issues it (which returns
 * the request sent, `None` when none is sent) and the step that applies its
 * response, which arrives as a parameter.
 */
module Widget {
  import opened Wrappers
  import opened Backgrounds
  import opened Suggestions
  import opened Forecasts

  /** Queries shorter than this clear the suggestions instead of searching. */
  const MinQueryLength := 3

  class WeatherWidget {
    /** The text in the search field. */
    var city: string
    var suggestions: seq<Suggestion>
    var forecastData: seq<ForecastDay>
    var loading: bool
    var error: string
    var selectedCity: Option<Place>
    /** The day whose hourly chart the dialog shows. */
    var selectedDay: Option<ForecastDay>
    /** The page-wide `document.body.style` the background rule writes. */
    var pageStyle: BodyStyle

    /**
     * The state every event keeps: the error text is never set to anything
     * but "", the spinner and the day cards are never shown together, and a
     * spinner or cards imply that some city was requested.
     */
    ghost predicate Valid()
      reads this
    {
      && error == ""
      && (loading ==> forecastData == [])
      && (loading || forecastData != [] ==> selectedCity.Some?)
    }

    /** The dialog is open exactly when a day is selected (`open={Boolean(selectedDay)}`). */
    predicate DialogOpen(): (open: bool)
      reads this
      ensures open <==> selectedDay != None
    {
      selectedDay.Some?
    }

    /** The selected day, if any, is one of the days currently listed. */
    ghost predicate DayListed()
      reads this
    {
      selectedDay.Some? ==> selectedDay.value in forecastData
    }

    /** The initial `useState` values, followed by the mount effect that applies the default background. */
    constructor ()
      ensures Valid() && DayListed() && !DialogOpen()
      ensures city == "" && suggestions == [] && forecastData == []
      ensures !loading && error == "" && selectedCity == None && selectedDay == None
      ensures pageStyle == StyleFor(Scenic)
    {
      city := "";
      suggestions := [];
      forecastData := [];
      loading := false;
      error := "";
      selectedCity := None;
      selectedDay := None;
      new;
      // the mount effect: `setWeatherBackground()` with its default argument
      ApplyBackground("");
      EmptyConditionIsScenic();
    }

    /** `setWeatherBackground(condition)`: the last write to the page style wins. */
    method ApplyBackground(condition: string)
      modifies this`pageStyle
      ensures pageStyle == StyleFor(SelectBackground(condition))
    {
      pageStyle := StyleFor(SelectBackground(condition));
    }

    /** The text field's `onChange`: store the text, then `fetchSuggestions` on it. */
    method Type(text: string) returns (request: Option<string>)
      requires Valid()
      modifies this`city, this`suggestions
      ensures Valid()
      ensures city == text
      ensures request.None? <==> |text| < MinQueryLength
      ensures request.Some? ==> request.value == text && suggestions == old(suggestions)
      ensures request.None? ==> suggestions == []
    {
      city := text;
      request := FetchSuggestions(text);
    }

    /** `fetchSuggestions` up to the request: a short query clears the list and sends nothing. */
    method FetchSuggestions(query: string) returns (request: Option<string>)
      modifies this`suggestions
      ensures request.None? <==> |query| < MinQueryLength
      ensures request.Some? ==> request.value == query && suggestions == old(suggestions)
      ensures request.None? ==> suggestions == []
    {
      if |query| < MinQueryLength {
        suggestions := [];
        request := None;
      } else {
        request := Some(query);
      }
    }

    /** The location search answers: its list replaces the suggestions as is. */
    method SuggestionsArrive(response: seq<Suggestion>)
      requires Valid()
      modifies this`suggestions
      ensures Valid()
      ensures suggestions == response
    {
      suggestions := response;
    }

    /** What `fetchWeatherForecast(cityName, countryName)` has done once its request is out. */
    twostate predicate ForecastStarted(cityName: string, countryName: string, new request: Option<string>)
      reads this
    {
      if cityName == "" then
        request == None && loading == old(loading) && error == old(error)
        && forecastData == old(forecastData) && selectedCity == old(selectedCity)
      else
        request == Some(cityName) && loading && error == "" && forecastData == []
        && selectedCity == Some(Place(cityName, countryName))
    }

    /** `fetchWeatherForecast` up to the request: an empty city name does nothing. */
    method StartForecast(cityName: string, countryName: string) returns (request: Option<string>)
      requires Valid()
      modifies this`loading, this`error, this`forecastData, this`selectedCity
      ensures Valid()
      ensures ForecastStarted(cityName, countryName, request)
    {
      if cityName == "" {
        request := None;
        return;
      }
      loading := true;
      error := "";
      forecastData := [];
      selectedCity := Some(Place(cityName, countryName));
      request := Some(cityName);
    }

    /**
     * The forecast answers with its list of days. The list replaces the
     * forecast, the field and the suggestions are cleared, and the background
     * follows the first day's condition before the spinner stops. An empty list
     * makes the read of the first day throw after the first three updates: the
     * background and the spinner are then left as they were.
     */
    method ForecastArrives(days: seq<ForecastDay>)
      requires Valid() && selectedCity.Some?
      modifies this`forecastData, this`city, this`suggestions, this`pageStyle, this`loading
      ensures Valid()
      ensures forecastData == days && city == "" && suggestions == []
      ensures days != [] ==> pageStyle == StyleFor(SelectBackground(days[0].day.condition.text)) && !loading
      ensures days == [] ==> pageStyle == old(pageStyle) && loading == old(loading)
    {
      forecastData := days;
      city := "";
      suggestions := [];
      if days == [] {
        return;
      }
      ApplyBackground(days[0].day.condition.text);
      loading := false;
    }

    /** The text field's `onKeyDown`: Enter fetches the forecast of the first suggestion named like the text. */
    method PressKey(key: string) returns (request: Option<string>)
      requires Valid()
      modifies this`loading, this`error, this`forecastData, this`selectedCity
      ensures Valid()
      ensures key == "Enter" && FindByName(suggestions, city).Some? ==>
        ForecastStarted(FindByName(suggestions, city).value.name, FindByName(suggestions, city).value.country, request)
      ensures key != "Enter" || FindByName(suggestions, city).None? ==>
        request == None && unchanged(this)
    {
      request := None;
      if key == "Enter" {
        request := SubmitTypedCity();
      }
    }

    /** The "Get Weather" button: the same lookup as Enter, but the button is disabled while loading. */
    method ClickGetWeather() returns (request: Option<string>)
      requires Valid()
      modifies this`loading, this`error, this`forecastData, this`selectedCity
      ensures Valid()
      ensures !old(loading) && FindByName(suggestions, city).Some? ==>
        ForecastStarted(FindByName(suggestions, city).value.name, FindByName(suggestions, city).value.country, request)
      ensures old(loading) || FindByName(suggestions, city).None? ==>
        request == None && unchanged(this)
    {
      request := None;
      if !loading {
        request := SubmitTypedCity();
      }
    }

    /** The lookup shared by Enter and the button: with no suggestion named like the text, nothing changes. */
    method SubmitTypedCity() returns (request: Option<string>)
      requires Valid()
      modifies this`loading, this`error, this`forecastData, this`selectedCity
      ensures Valid()
      ensures FindByName(suggestions, city).Some? ==>
        ForecastStarted(FindByName(suggestions, city).value.name, FindByName(suggestions, city).value.country, request)
      ensures FindByName(suggestions, city).None? ==> request == None && unchanged(this)
    {
      var found := FindByName(suggestions, city);
      match found
      case None =>
        request := None;
      case Some(s) =>
        request := StartForecast(s.name, s.country);
    }

    /** Clicking the `i`-th listed suggestion fetches the forecast for its name and country. */
    method ClickSuggestion(i: nat) returns (request: Option<string>)
      requires Valid() && i < |suggestions|
      modifies this`loading, this`error, this`forecastData, this`selectedCity
      ensures Valid()
      ensures ForecastStarted(suggestions[i].name, suggestions[i].country, request)
    {
      request := StartForecast(suggestions[i].name, suggestions[i].country);
    }

    /** Clicking the `i`-th day card selects that day and opens the dialog. */
    method ClickCard(i: nat)
      requires Valid() && i < |forecastData|
      modifies this`selectedDay
      ensures Valid()
      ensures selectedDay == Some(forecastData[i])
      ensures DialogOpen() && DayListed()
    {
      selectedDay := Some(forecastData[i]);
    }

    /** The dialog's `onClose` and its Close button: deselect the day, which closes the dialog. */
    method CloseDialog()
      requires Valid()
      modifies this`selectedDay
      ensures Valid()
      ensures selectedDay == None && !DialogOpen() && DayListed()
    {
      selectedDay := None;
    }
  }
}
