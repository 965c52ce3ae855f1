# Weather widget model

A Dafny model of the logic in `script.js` of a small browser widget. The widget
looks up places with the Open-Meteo geocoding service and shows the current
conditions from the Open-Meteo forecast service. The model covers:

- the table from WMO weather codes to a German description and an icon, with its
  "Unbekannt" fallback (`WeatherCodes`);
- the JavaScript string operations the widget relies on: `trim`, `length` in
  UTF-16 code units, `filter(Boolean)`, `slice(0, n)` and `join` (`Text`);
- the weather header ("first two non-empty of name, region, country") and the
  suggestion sub-line ("non-empty of region, country") (`PlaceLabel`);
- the loading, error and conditions panels with their `hidden` flags and the
  error text, as a class whose methods rewrite the flags (`Display.Panels`);
- the suggestion entries built from geocoding results, and the list a search
  leaves behind for each outcome (`Suggestions`);
- the page's handlers: search, search button and Enter key, the input listener
  after its pause, the weather fetch and the click on a suggestion (`App.Page`).

The network is not modelled as I/O. Each handler that awaits a response takes the
outcome of the exchange as a parameter. For a search that is a parsed response,
possibly without `results`, or a thrown error. For a forecast it is a parsed
response, possibly without `current`, or a thrown error. Every request the page
sends is appended to the field `App.Page.requests` together with its fixed query
parameters. This is how the model states that a short query sends nothing.

`fetchWeather` is split at its first `await`. `StartFetchWeather` is the part that
runs at once: loading panel shown, request sent. `FinishFetchWeather` is the
continuation that runs once the outcome is known. `FetchWeather` runs the two in
sequence.

Two details of the code are easy to misread:

- The length gate counts UTF-16 code units (`query.length`), not characters. A
  single character outside the Basic Multilingual Plane, such as an emoji, passes
  the gate (`Text.Utf16LengthBelowTwo`).
- Only the search function and the input listener clear the list for a short
  query. The search button and the Enter key (`handleSearch`) leave the list as it
  is and send nothing.

## Model

| member | source | states |
|---|---|---|
| WeatherCodes.Lookup | script.js:176 | the lookup is total: a listed code gives exactly its table entry, and every other integer gives ("Unbekannt", ❓) |
| WeatherCodes.TableDomain | script.js:17-46 | the table lists exactly the 28 codes 0, 1, 2, 3, 45, 48, 51, 53, 55, 56, 57, 61, 63, 65, 66, 67, 71, 73, 75, 77, 80, 81, 82, 85, 86, 95, 96, 99, all within 0..99 |
| WeatherCodes.FallbackOnlyForUnlistedCodes | script.js:17-46 | no table entry equals the fallback, so the result is the fallback (or has the description "Unbekannt") exactly when the code is unlisted |
| WeatherCodes.GapsResolveToFallback | script.js:176 | unlisted codes inside and outside 0..99 (4, 50, 98, -1, 100) resolve to the fallback |
| Text.TrimStart | script.js:213 | the result is the suffix of the input after a run of whitespace, and it does not start with whitespace |
| Text.TrimEnd | script.js:213 | the result is the prefix of the input before a run of whitespace, and it does not end with whitespace |
| Text.Trim | script.js:213 | `trim()` yields a string that neither starts nor ends with ECMAScript whitespace and is no longer than the input |
| Text.TrimRemovesOnlyWhitespace | script.js:213 | the input is the trimmed string with whitespace-only runs before and after it, so `trim()` removes whitespace and nothing else |
| Text.TrimIdempotent | script.js:213 | a property of `trim()` itself (the source never trims twice): trimming an already trimmed value changes nothing |
| Text.Utf16Length | script.js:87 | `length` counts one or two code units per character, so it lies between the number of characters and twice that |
| Text.Utf16LengthBelowTwo | script.js:87 | `length < 2` holds exactly for the empty string and for one character of the Basic Multilingual Plane |
| Text.NonEmpty | script.js:179 | `filter(Boolean)` keeps exactly the non-empty strings and never lengthens the list |
| Text.NonEmptyAppend | script.js:179 | filtering distributes over concatenation, so the kept parts stay in their original order |
| Text.Join | script.js:180 | `join` starts with the first part, and with a non-empty separator it is empty exactly for no parts or a single empty part |
| Text.Take | script.js:180 | `slice(0, n)` is the prefix of length min(n, length) |
| PlaceLabel.DisplayLocation | script.js:179-180 | the header starts with the place name whenever the name is present; its value for every combination of inputs is given by `DisplayLocationCases` |
| PlaceLabel.DisplayLocationCases | script.js:179-180 | the header, for each combination of empty and non-empty parts, is the first two non-empty of name, region and country in that order, joined by ", " |
| PlaceLabel.DisplayLocationAtMostTwoParts | script.js:179-180 | the parts the header joins are at most two, each non-empty and each one of name, region and country |
| PlaceLabel.DisplayLocationEmpty | script.js:179-180 | the header is "" exactly when name, region and country are all empty |
| PlaceLabel.DisplayLocationExamples | script.js:179-180 | ("Wien", "Wien", "Österreich") gives "Wien, Wien" and ("Paris", "", "France") gives "Paris, France" |
| PlaceLabel.SubText | script.js:114 | the sub-line starts with the region when the region is present, and is empty exactly when region and country both are; its full value is given by `SubTextCases` |
| PlaceLabel.SubTextCases | script.js:112-114 | the sub-line is "region, country" when both are present, the one present otherwise, and "" when neither is |
| Display.Panels.VisibleCount | script.js:62-83 | no panel is visible exactly when all three `hidden` flags are set, and at most one is visible exactly when every pair of panels has one hidden |
| Display.ViewMatchesFlags | script.js:62-83 | each named view corresponds to exactly one visible panel (none for Idle), and Mixed means more than one is visible |
| Display.Panels.ShowLoading | script.js:62-66 | afterwards only the loading panel is visible and the error text is unchanged |
| Display.Panels.HideLoading | script.js:68-70 | sets only the loading flag; it keeps "at most one panel visible" and turns Loading into Idle |
| Display.Panels.ShowError | script.js:72-77 | afterwards only the error panel is visible and the error text is the given message |
| Display.Panels.ShowWeather | script.js:79-83 | afterwards only the conditions panel is visible and the error text is unchanged |
| Suggestions.LongEnough | script.js:87 | a query passes the `length >= 2` gate (also at script.js:214) exactly when it has two or more characters or one character outside the Basic Multilingual Plane |
| Suggestions.OrEmpty | script.js:112-113 | the `''` default after a logical or is "" exactly when the value is absent or empty, and is the value itself otherwise |
| Suggestions.ToSuggestion | script.js:111-126 | an entry's sub-line is empty exactly when its result has neither a (non-empty) region nor a (non-empty) country; its other fields are given result by result by `SuggestionList` |
| Suggestions.SuggestionList | script.js:110-127 | one entry per result, in result order, each with that result's latitude, longitude and name, its region and country or "" when absent, and their sub-line |
| Suggestions.SearchSuggestions | script.js:86-107 | a query shorter than two code units leaves the list empty; the list is non-empty exactly when the response has a non-empty `results` list, and then it is that list's entries |
| App.Render | script.js:161-197 | with `current` present, the header becomes the composed place label and icon and description come from the code lookup; without `current` or on a thrown error the three texts stay exactly as before |
| App.Settled | script.js:160-169 | a fetch settles on the conditions exactly when the response has `current`; without it, on "Keine Wetterdaten verfügbar."; on a thrown error, on "Fehler beim Laden der Wetterdaten. Bitte versuchen Sie es erneut."; it never settles on loading or idle |
| App.Page.DisplaySuggestions | script.js:110-127 | the list becomes the entries of the given locations |
| App.Page.SearchLocations | script.js:86-107 | a short query clears the list and sends nothing; a long one sends exactly one geocoding request (count 5, language de, format json), and the list is the one for its outcome |
| App.Page.HandleSearch | script.js:212-217 | searches the trimmed input only when it is at least two code units long; otherwise the list and the requests are untouched |
| App.Page.InputSettled | script.js:220-222 | the input listener searches the trimmed input, so a short input clears the list without sending |
| App.Page.DisplayWeather | script.js:173-209 | the header is the composed place label, icon and description come from the code lookup, and the conditions panel is shown |
| App.Page.StartFetchWeather | script.js:147-159 | the fetch first shows only the loading panel and sends one forecast request for the coordinates, with the six current fields and timezone auto |
| App.Page.FinishFetchWeather | script.js:160-169 | the panels settle as `Settled` says, the error text stays as it was when the response has `current`, and the header, icon and description become what `Render` gives from their previous values |
| App.Page.FetchWeather | script.js:147-170 | one forecast request, then the settled view; with `current` the error text stays as it was; header, icon and description are rendered when the response has `current` and unchanged on either error path |
| App.Page.SelectSuggestion | script.js:131-142 | a click sets the input to the place's name, empties the list and fetches the weather for that place's coordinates; the panels settle as `Settled` says, the error text stays as it was when the response has `current`, and header, icon and description follow `Render` for that place's name, region and country |

## Left out

- Debouncing (`debounce`, `setTimeout`, `clearTimeout`) is timer scheduling. `App.Page.InputSettled` is the listener's body once the pause has elapsed.
- Overlapping requests are not modelled: a slow earlier response can overwrite a later one. Outcomes here are applied one handler call at a time.
- The temperature, apparent temperature, wind speed, humidity and cloud-cover fields are left out. So are their rounding and unit text: these are floating-point formatting. `App.Current` carries only the weather code.
- The date line (`toLocaleDateString('de-AT', …)`) reads the wall clock and uses locale formatting.
- Building URLs (`encodeURIComponent`, `URLSearchParams`) is library code. A request is recorded as its query parameters.
- Coordinates go through number-to-text conversion in data attributes and URL parameters. They are modelled as `real` values passed on unchanged.
- The suggestion markup (`innerHTML` templates) is not modelled, and neither is HTML escaping. A name containing a quote would break the markup, and the model does not capture this. A suggestion is the data an entry carries.
- A geocoding result without a `name` would be shown as "undefined". The model gives every result a name.
- The initial visibility of the panels comes from the page markup, which is not part of this model. The constructors start with every panel hidden.
- Other DOM work is left out: element lookups, `querySelectorAll`, listener wiring, the click-outside handler that clears the list, and the empty `load` handler.
- `console.error` logging is not modelled.
- Exceptions thrown inside `displayWeather` (for example a missing DOM element) would be caught by `fetchWeather`. They are not modelled.
- JavaScript strings can hold unpaired UTF-16 surrogates. Dafny characters cannot, so such inputs are outside the model.
- The forecast's `weather_code` is modelled as an integer. In the source a missing code, or a number that is not a listed integer, gives the fallback. A numeric string such as "45" would find its entry, and a name such as "toString" would find an inherited object member; the model has no string codes.
