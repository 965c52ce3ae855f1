/** The widget's page: the search input, the suggestion list, the rendered
    conditions header and the panels, with the handlers that rewrite them.
    A network exchange is an outcome passed in by the caller; every request
    the page sends is appended to `requests`. */
module App {
  import opened Text
  import opened WeatherCodes
  import opened PlaceLabel
  import opened Display
  import opened Suggestions

  /** Fixed parameters of the geocoding request. */
  const ResultCount: nat := 5
  const Language: string := "de"
  const Format: string := "json"

  /** Fixed parameters of the forecast request. */
  const CurrentFields: string :=
    "temperature_2m,relative_humidity_2m,apparent_temperature,weather_code,cloud_cover,wind_speed_10m"
  const Timezone: string := "auto"

  /** The two user-facing messages of a failed weather fetch. */
  const NoDataMessage: string := "Keine Wetterdaten verfügbar."
  const LoadFailedMessage: string := "Fehler beim Laden der Wetterdaten. Bitte versuchen Sie es erneut."

  datatype Request =
    | GeocodingRequest(name: string, count: nat, language: string, format: string)
    | ForecastRequest(latitude: real, longitude: real, current: string, timezone: string)

  /** The part of the forecast's `current` object the model renders. */
  datatype Current = Current(weatherCode: int)

  /** How the forecast request ended: a parsed response, whose `current`
      object may be absent, or a thrown error (transport or parse failure). */
  datatype ForecastOutcome = ForecastResponded(current: Option<Current>) | ForecastThrew

  /** The view a weather fetch settles in: the conditions when the response
      has a `current` object, otherwise the error panel with the message
      for a response without data or the one for a thrown error. */
  function Settled(outcome: ForecastOutcome): (v: View)
    ensures v == WeatherShown <==> outcome.ForecastResponded? && outcome.current.Some?
    ensures outcome == ForecastResponded(None) <==> v == ErrorShown(NoDataMessage)
    ensures outcome == ForecastThrew <==> v == ErrorShown(LoadFailedMessage)
    ensures v != Loading && v != Idle && v != Mixed
  {
    match outcome
    case ForecastResponded(Some(_)) => WeatherShown
    case ForecastResponded(None) => ErrorShown(NoDataMessage)
    case ForecastThrew => ErrorShown(LoadFailedMessage)
  }

  /** The three rendered texts of the conditions panel: the place header,
      the icon and the description. */
  datatype Rendering = Rendering(locationName: string, icon: string, description: string)

  /** The rendered texts after a weather fetch for a place that ended with
      `outcome`, given the texts before it: a response with `current` renders
      the place label and the looked-up icon and description; a response
      without it and a thrown error leave the texts as they were. */
  function Render(outcome: ForecastOutcome, name: string, admin: string, country: string,
                  before: Rendering): (r: Rendering)
    ensures outcome.ForecastResponded? && outcome.current.Some? ==>
              && r.locationName == DisplayLocation(name, admin, country)
              && r.icon == Lookup(outcome.current.value.weatherCode).icon
              && r.description == Lookup(outcome.current.value.weatherCode).description
    ensures !(outcome.ForecastResponded? && outcome.current.Some?) ==> r == before
  {
    match outcome
    case ForecastResponded(Some(current)) =>
      var info := Lookup(current.weatherCode);
      Rendering(DisplayLocation(name, admin, country), info.icon, info.description)
    case _ => before
  }

  class Page {
    const panels: Panels
    var inputValue: string
    var suggestions: seq<Suggestion>
    var locationName: string
    var weatherIcon: string
    var weatherDescription: string
    var requests: seq<Request>

    function Rendered(): Rendering
      reads this
    {
      Rendering(locationName, weatherIcon, weatherDescription)
    }

    /** A blank page: empty input, no suggestions, nothing rendered, all
        panels hidden and nothing sent. */
    constructor ()
      ensures fresh(panels) && panels.View() == Idle
      ensures inputValue == "" && suggestions == [] && requests == []
      ensures locationName == "" && weatherIcon == "" && weatherDescription == ""
    {
      panels := new Panels();
      inputValue, suggestions, requests := "", [], [];
      locationName, weatherIcon, weatherDescription := "", "", "";
    }

    /** Replaces the suggestion list by one entry per location. */
    method DisplaySuggestions(locations: seq<GeoResult>)
      modifies this`suggestions
      ensures suggestions == SuggestionList(locations)
    {
      suggestions := SuggestionList(locations);
    }

    /** Searches for `query`: a query shorter than two code units clears the
        list and sends nothing; otherwise one geocoding request is sent and
        the list shows the results, or is cleared when there are none or the
        request failed. */
    method SearchLocations(query: string, outcome: SearchOutcome)
      modifies this`suggestions, this`requests
      ensures requests == old(requests) + (if LongEnough(query) then [GeocodingRequest(query, ResultCount, Language, Format)] else [])
      ensures suggestions == SearchSuggestions(query, outcome)
    {
      if !LongEnough(query) {
        suggestions := [];
        return;
      }
      requests := requests + [GeocodingRequest(query, ResultCount, Language, Format)];
      match outcome {
        case SearchThrew =>
          suggestions := [];
        case SearchResponded(results) =>
          if results.Some? && |results.value| > 0 {
            DisplaySuggestions(results.value);
          } else {
            suggestions := [];
          }
      }
    }

    /** The search button and the Enter key: searches for the trimmed input
        only when it is at least two code units long, and otherwise leaves
        the list as it is. */
    method HandleSearch(outcome: SearchOutcome)
      modifies this`suggestions, this`requests
      ensures var query := Trim(inputValue);
              if LongEnough(query) then
                && requests == old(requests) + [GeocodingRequest(query, ResultCount, Language, Format)]
                && suggestions == SearchSuggestions(query, outcome)
              else
                requests == old(requests) && suggestions == old(suggestions)
    {
      var query := Trim(inputValue);
      if LongEnough(query) {
        SearchLocations(query, outcome);
      }
    }

    /** The input listener once typing has paused: searches for the trimmed
        input, so a short input clears the list. */
    method InputSettled(outcome: SearchOutcome)
      modifies this`suggestions, this`requests
      ensures var query := Trim(inputValue);
              && requests == old(requests) + (if LongEnough(query) then [GeocodingRequest(query, ResultCount, Language, Format)] else [])
              && suggestions == SearchSuggestions(query, outcome)
    {
      SearchLocations(Trim(inputValue), outcome);
    }

    /** Renders the conditions for a place and shows the conditions panel. */
    method DisplayWeather(current: Current, name: string, admin: string, country: string)
      modifies this`locationName, this`weatherIcon, this`weatherDescription, panels
      ensures locationName == DisplayLocation(name, admin, country)
      ensures weatherIcon == Lookup(current.weatherCode).icon
      ensures weatherDescription == Lookup(current.weatherCode).description
      ensures panels.View() == WeatherShown && panels.errorMessage == old(panels.errorMessage)
    {
      var info := Lookup(current.weatherCode);
      locationName := DisplayLocation(name, admin, country);
      weatherIcon := info.icon;
      weatherDescription := info.description;
      panels.ShowWeather();
    }

    /** The synchronous start of a weather fetch, up to its first wait:
        only the loading panel is visible and the forecast request is sent. */
    method StartFetchWeather(latitude: real, longitude: real)
      modifies this`requests, panels
      ensures panels.View() == Loading && panels.errorMessage == old(panels.errorMessage)
      ensures requests == old(requests) + [ForecastRequest(latitude, longitude, CurrentFields, Timezone)]
    {
      panels.ShowLoading();
      requests := requests + [ForecastRequest(latitude, longitude, CurrentFields, Timezone)];
    }

    /** The end of a weather fetch: renders the conditions when the response
        has them, and otherwise shows the matching error message while the
        rendered conditions stay as they were. */
    method FinishFetchWeather(outcome: ForecastOutcome, name: string, admin: string, country: string)
      modifies this`locationName, this`weatherIcon, this`weatherDescription, panels
      ensures panels.View() == Settled(outcome)
      ensures outcome.ForecastResponded? && outcome.current.Some? ==> panels.errorMessage == old(panels.errorMessage)
      ensures Rendered() == Render(outcome, name, admin, country, old(Rendered()))
    {
      match outcome {
        case ForecastResponded(Some(current)) =>
          DisplayWeather(current, name, admin, country);
        case ForecastResponded(None) =>
          panels.ShowError(NoDataMessage);
        case ForecastThrew =>
          panels.ShowError(LoadFailedMessage);
      }
    }

    /** A whole weather fetch: loading first, one forecast request, then the
        settled view. */
    method FetchWeather(latitude: real, longitude: real, name: string, admin: string, country: string,
                        outcome: ForecastOutcome)
      modifies this`locationName, this`weatherIcon, this`weatherDescription, this`requests, panels
      ensures requests == old(requests) + [ForecastRequest(latitude, longitude, CurrentFields, Timezone)]
      ensures panels.View() == Settled(outcome)
      ensures outcome.ForecastResponded? && outcome.current.Some? ==> panels.errorMessage == old(panels.errorMessage)
      ensures Rendered() == Render(outcome, name, admin, country, old(Rendered()))
    {
      StartFetchWeather(latitude, longitude);
      FinishFetchWeather(outcome, name, admin, country);
    }

    /** A click on the suggestion at `index`: the input takes the place's
        name and the list is emptied before the weather fetch for that place
        starts. */
    method SelectSuggestion(index: nat, outcome: ForecastOutcome)
      requires index < |suggestions|
      modifies this`inputValue, this`suggestions, this`requests, panels
      modifies this`locationName, this`weatherIcon, this`weatherDescription
      ensures var chosen := old(suggestions[index]);
              && inputValue == chosen.name
              && suggestions == []
              && requests == old(requests) + [ForecastRequest(chosen.latitude, chosen.longitude, CurrentFields, Timezone)]
              && panels.View() == Settled(outcome)
              && (outcome.ForecastResponded? && outcome.current.Some? ==> panels.errorMessage == old(panels.errorMessage))
              && Rendered() == Render(outcome, chosen.name, chosen.admin, chosen.country, old(Rendered()))
    {
      var chosen := suggestions[index];
      inputValue := chosen.name;
      suggestions := [];
      FetchWeather(chosen.latitude, chosen.longitude, chosen.name, chosen.admin, chosen.country, outcome);
    }
  }
}
