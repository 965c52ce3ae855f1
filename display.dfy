/** The three display panels (loading indicator, error box, current
    conditions) and the error text, each panel carrying its own `hidden`
    flag, and the four functions that rewrite them. */
module Display {

  /** What the user sees, read off the three flags. `Mixed` is any
      combination with more than one panel visible. */
  datatype View = Idle | Loading | ErrorShown(message: string) | WeatherShown | Mixed

  class Panels {
    var loadingHidden: bool
    var errorHidden: bool
    var weatherHidden: bool
    var errorMessage: string

    function VisibleCount(): (n: nat)
      reads this
      ensures n == 0 <==> loadingHidden && errorHidden && weatherHidden
      ensures n <= 1 <==> (loadingHidden || errorHidden) && (loadingHidden || weatherHidden)
                          && (errorHidden || weatherHidden)
    {
      (if loadingHidden then 0 else 1) + (if errorHidden then 0 else 1)
      + (if weatherHidden then 0 else 1)
    }

    /** The panels are mutually exclusive: never two of them at once. */
    predicate AtMostOneVisible()
      reads this
    {
      VisibleCount() <= 1
    }

    function View(): View
      reads this
    {
      if VisibleCount() > 1 then Mixed
      else if !loadingHidden then Loading
      else if !errorHidden then ErrorShown(errorMessage)
      else if !weatherHidden then WeatherShown
      else Idle
    }

    /** Before the first search everything is hidden. */
    constructor ()
      ensures loadingHidden && errorHidden && weatherHidden && errorMessage == ""
      ensures View() == Idle && AtMostOneVisible()
    {
      loadingHidden, errorHidden, weatherHidden := true, true, true;
      errorMessage := "";
    }

    /** Shows the loading panel and hides the other two. */
    method ShowLoading()
      modifies this
      ensures !loadingHidden && errorHidden && weatherHidden
      ensures errorMessage == old(errorMessage)
      ensures View() == Loading && VisibleCount() == 1
    {
      loadingHidden := false;
      weatherHidden := true;
      errorHidden := true;
    }

    /** Hides the loading panel and touches nothing else. */
    method HideLoading()
      modifies this
      ensures loadingHidden
      ensures errorHidden == old(errorHidden) && weatherHidden == old(weatherHidden)
      ensures errorMessage == old(errorMessage)
      ensures old(AtMostOneVisible()) ==> AtMostOneVisible()
      ensures old(View()) == Loading ==> View() == Idle
    {
      loadingHidden := true;
    }

    /** Shows the error panel with `message` and hides the other two. */
    method ShowError(message: string)
      modifies this
      ensures loadingHidden && !errorHidden && weatherHidden
      ensures errorMessage == message
      ensures View() == ErrorShown(message) && VisibleCount() == 1
    {
      HideLoading();
      errorMessage := message;
      errorHidden := false;
      weatherHidden := true;
    }

    /** Shows the conditions panel and hides the other two; the error text
        stays as it was, merely hidden. */
    method ShowWeather()
      modifies this
      ensures loadingHidden && errorHidden && !weatherHidden
      ensures errorMessage == old(errorMessage)
      ensures View() == WeatherShown && VisibleCount() == 1
    {
      HideLoading();
      errorHidden := true;
      weatherHidden := false;
    }
  }

  /** The view names exactly the one visible panel: `Loading`,
      `ErrorShown` and `WeatherShown` each mean one panel is visible, and
      `Idle` means none is. */
  lemma ViewMatchesFlags(p: Panels)
    ensures p.View() == Loading <==> !p.loadingHidden && p.errorHidden && p.weatherHidden
    ensures p.View().ErrorShown? <==> p.loadingHidden && !p.errorHidden && p.weatherHidden
    ensures p.View() == WeatherShown <==> p.loadingHidden && p.errorHidden && !p.weatherHidden
    ensures p.View() == Idle <==> p.VisibleCount() == 0
    ensures p.View() == Mixed <==> !p.AtMostOneVisible()
  {
  }
}
