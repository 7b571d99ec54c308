# Weather widget: a Dafny model

This project models the logic of a single-page weather-forecast widget
(`src/components/Weather.tsx`). A user types a city name and receives
location suggestions. Picking one (by click, or by Enter or the "Get Weather"
button when the typed text names a suggestion) fetches a 6-day forecast and
shows it as day cards. The page background then follows the first day's
condition text. Clicking a card opens a dialog with that day's hourly chart.

Modules:

- `Text` — `String.prototype.includes` as `Includes`, proved equal to a
  reference substring predicate `Contains`, and ASCII `toLowerCase` as
  `ToLowerAscii`.
- `Backgrounds` — the six background images, the page style that shows one,
  and `SelectBackground`, the if/else-if chain of case-sensitive `includes`
  tests. The chain is proved equal to a data-driven reference: a table of
  `Rules` read with "the first rule whose keywords occur decides"
  (`FirstMatch`).
- `Suggestions` — the suggestion record and `FindByName`, the
  `suggestions.find` lookup by case-insensitive name.
- `Forecasts` — the forecast-day records.
- `Widget` — class `WeatherWidget`: the seven `useState` fields plus the
  page style, with one method per event. Each network request is split in
  two. The first method issues the request and returns it (`None` when
  nothing is sent). The second applies the response, which it takes as a
  parameter.
- `Scenarios` — client walk-throughs checked from the handlers' contracts
  alone: "Lon" → "London, UK" → six days → card 3 → close; a two-letter
  query; Enter on "Paris" with only "Parma" suggested; Enter on "LONDON";
  two overlapping forecast requests leaving a stale selected day.

`WeatherWidget.Valid()` is the invariant every handler keeps. It has three
parts:

- `error` is always "".
- The spinner and the day cards are never shown together
  (`loading ==> forecastData == []`).
- A spinner or cards imply that a city was requested.

`ForecastArrives` requires `selectedCity.Some?`. A response only follows a
request, and issuing a request always sets `selectedCity`.

The handlers do not keep "the selected day is one of the listed days"
(`DayListed`). `ClickCard` establishes it. A forecast start or response that
happens while a day is selected leaves the old day in place while
`forecastData` changes. The modal dialog keeps the user from starting a
forecast while it is open, but not a response to an earlier request from
arriving. Two requests can be in flight at once: the suggestion list stays
visible until a response comes in, and Enter has no loading gate. If the
first response arrives, a card is opened, and then the second response
arrives, the dialog shows a day that is no longer listed. The client method
`Scenarios.OverlappingForecastsLeaveStaleDay` walks through exactly this
sequence and proves `!DayListed()` at its end.

When the forecast response holds no days, reading the first day's condition
throws. By then the updates to `forecastData`, `city` and `suggestions` have
been made. `ForecastArrives` models exactly that: the background is not
rewritten and `loading` stays as it was.

## Model

| member | source | states |
|---|---|---|
| `Text.Includes` | src/components/Weather.tsx:127-136 | the `includes` test is true exactly when some occurrence of the pattern exists in the text (reference predicate `Contains`) |
| `Text.LowerChar` | src/components/Weather.tsx:163 | lowering maps A-Z to a-z by code +32, leaves every other character alone, and never yields an upper-case ASCII letter |
| `Text.ToLowerAscii` | src/components/Weather.tsx:163 | lowering keeps the length, lowers each character independently, and leaves no ASCII capital |
| `Text.ToLowerIdempotent` | src/components/Weather.tsx:189 | lowering twice is the same as lowering once |
| `Text.EqualsIgnoringCase` | src/components/Weather.tsx:163 | `a.toLowerCase() === b.toLowerCase()`: equal texts are equal ignoring case, and texts equal ignoring case have the same length |
| `Text.EqualsIgnoringCaseAt` | src/components/Weather.tsx:163 | two names are equal ignoring case iff they have the same length and agree position by position after lowering |
| `Backgrounds.ImageUrl` | src/components/Weather.tsx:125-136 | each image is written as a CSS `url(...)` value; the six addresses are the source's literals |
| `Backgrounds.StyleFor` | src/components/Weather.tsx:139-142 | the page style shows the chosen image's URL, with attachment "fixed", size "cover" and position "center" |
| `Backgrounds.SelectBackground` | src/components/Weather.tsx:124-137 | the chain's choice equals the first-match reading of the ordered rule table (Sunny/Clear; Partly Cloudy/Overcast/Cloudy; four rain phrases; Snow; Mist; else default) |
| `Backgrounds.FirstMatchIsEarliest` | src/components/Weather.tsx:127-137 | an ordered rule list picks the image of the earliest rule whose keywords occur, and the default when none occurs |
| `Backgrounds.EarliestRuleWins` | src/components/Weather.tsx:127-137 | whenever rule k is the earliest that fires, the chain picks rule k's image |
| `Backgrounds.SunnyOrClearWins` | src/components/Weather.tsx:127-128 | a condition containing "Sunny" or "Clear" always gets the beach image, whatever other keywords it holds |
| `Backgrounds.SnowRule` | src/components/Weather.tsx:133-134 | a condition containing "Snow" gets the snow image iff no sunny, cloud or rain keyword occurs in it |
| `Backgrounds.MistOnlyAfterEverythingElse` | src/components/Weather.tsx:135-136 | the mist image is chosen iff "Mist" occurs and none of the four earlier groups matches |
| `Backgrounds.ScenicIffNoKeyword` | src/components/Weather.tsx:124-137 | the default image is chosen iff no keyword of any rule occurs |
| `Backgrounds.NoKeywordInitialIsScenic` | src/components/Weather.tsx:125-137 | a condition holding none of the keywords' initial capitals gets the default image |
| `Backgrounds.EmptyConditionIsScenic` | src/components/Weather.tsx:124-125 | the empty default argument used at mount gets the default image |
| `Backgrounds.LowerCasedConditionIsScenic` | src/components/Weather.tsx:127-137 | matching is case-sensitive: any lower-cased condition gets the default image |
| `Backgrounds.LowerCaseCloudyIsScenic` | src/components/Weather.tsx:129 | "cloudy" in lower case does not trigger the cloud rule |
| `Backgrounds.PartlyCloudyImpliesCloudy` | src/components/Weather.tsx:129 | any text containing "Partly Cloudy" contains "Cloudy", so the first test of the cloud group is subsumed by its third |
| `Suggestions.NameMatches` | src/components/Weather.tsx:189 | the `find` callback: a suggestion whose name is the typed text matches, and a match has a name as long as the text |
| `Suggestions.FindByName` | src/components/Weather.tsx:163 | the lookup returns None iff no suggestion's name equals the text ignoring case, else the earliest such suggestion |
| `Suggestions.FindPicksFirst` | src/components/Weather.tsx:189 | if entry i is the earliest case-insensitive match, entry i is returned even when later entries match too |
| `Suggestions.FindIgnoresCase` | src/components/Weather.tsx:163 | texts that are equal ignoring case find the same suggestion |
| `Suggestions.FindsOwnName` | src/components/Weather.tsx:189-190 | typing a listed suggestion's name in any case always finds a matching suggestion |
| `Widget.WeatherWidget.constructor` | src/components/Weather.tsx:78-88 | initial state: empty text, lists and selections, not loading, no error, and the mount effect leaves the default background |
| `Widget.WeatherWidget.ApplyBackground` | src/components/Weather.tsx:139-142 | the page style becomes the chosen image, fixed, covering and centred |
| `Widget.WeatherWidget.Type` | src/components/Weather.tsx:157-160 | the field holds the typed text; below 3 characters the suggestions are cleared and no search is sent, otherwise a search for exactly that text is sent and the list is untouched |
| `Widget.WeatherWidget.FetchSuggestions` | src/components/Weather.tsx:90-95 | a query shorter than 3 clears the list and sends nothing; a longer one sends a search for it |
| `Widget.WeatherWidget.SuggestionsArrive` | src/components/Weather.tsx:96-100 | the response list replaces the suggestions wholesale, with no filtering or merging |
| `Widget.WeatherWidget.StartForecast` | src/components/Weather.tsx:104-110 | an empty city name changes nothing and sends nothing; otherwise loading is set, the error cleared, the forecast emptied and the selected city set, and the request is for that city |
| `Widget.WeatherWidget.ForecastArrives` | src/components/Weather.tsx:113-121 | the days replace the forecast, text and suggestions are cleared, the background follows day 0's condition and loading stops; selected city and day are not touched; an empty list stops after the first three updates |
| `Widget.WeatherWidget.PressKey` | src/components/Weather.tsx:161-168 | Enter with a case-insensitive match starts the forecast for the first match's name and country; any other key, or no match, changes nothing |
| `Widget.WeatherWidget.ClickGetWeather` | src/components/Weather.tsx:188-194 | as Enter, except that while loading the disabled button does nothing |
| `Widget.WeatherWidget.SubmitTypedCity` | src/components/Weather.tsx:163-166 | the shared lookup: the first suggestion named like the text starts the forecast; without one nothing changes |
| `Widget.WeatherWidget.ClickSuggestion` | src/components/Weather.tsx:177 | clicking a listed suggestion starts the forecast for its name and country |
| `Widget.WeatherWidget.DialogOpen` | src/components/Weather.tsx:266 | the dialog is open exactly when a day is selected (`Boolean(selectedDay)`) |
| `Widget.WeatherWidget.ClickCard` | src/components/Weather.tsx:221-223 | the clicked day becomes the selected day, which is a member of the current forecast, and the dialog is open |
| `Widget.WeatherWidget.CloseDialog` | src/components/Weather.tsx:266-267 | the selected day becomes none and the dialog is closed (the Close button at line 330 does the same) |

## Left out

- The HTTP requests, the API URLs and the API key: they are network I/O. A
  request is the `Option<string>` a start method returns. A response is the
  parameter of the matching arrive method.
- Interleaving of concurrent requests, including suggestion responses that
  arrive out of order: this is concurrency. Each fetch is one start step and
  one response step. `SuggestionsArrive` and `ForecastArrives` accept any
  response at any time, so the model admits every order of arrival but does
  not track which request a response answers.
- Widget.WeatherWidget.ForecastArrives: does not promise that the selected
  day stays listed. A response to an earlier forecast request that arrives
  while the dialog is open replaces the list behind it and leaves a day that
  is no longer listed, as described above.
- Responses missing fields, and failed requests: nothing in the code handles
  them, and they are not modelled. The one exception is the empty day list,
  described above.
- The error path: the code never sets `error` to anything but "", and the
  model has no error path either.
- Rendering: the JSX and MUI layout, which elements show when, the hourly
  Chart.js datasets and options (lines 281-324), `toLocaleDateString` and
  `toLocaleTimeString` formatting, and `Math.round` on temperatures.
  Temperatures, wind and humidity are kept as `real` fields that no operation
  computes with.
- Text.ToLowerAscii: lowers ASCII A-Z only, not full Unicode `toLowerCase`.
- Widget.WeatherWidget.FetchSuggestions: the `query.length < 3` test counts
  UTF-16 code units; the model counts characters. The two agree on text
  without characters outside the Basic Multilingual Plane.
- Widget.WeatherWidget.Type: inherits the same character count from
  `FetchSuggestions`.
- Widget.WeatherWidget.ForecastArrives: does not state that the forecast
  holds six days. The count comes from the API's `days=6` parameter, and the
  code does not check it.
- `src/styles/theme.ts` is a static theme object, and `src/App.tsx` is
  layout around the widget. Neither is part of this model.
