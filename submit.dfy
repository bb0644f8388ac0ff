/** The submit handler processFormSubmit and the state of the page it
    changes: the inline error indicator, whether the input listener is
    armed, the fetches issued, the HTTP-error banner's text and the forecast
    description slots. */
module FormSubmit {
  import opened JsText
  import opened LocationValidator
  import opened Forecast
  import opened Renderer

  class Page {
    /** The form's error message is shown (its class list lacks "hide"). */
    var errorVisible: bool
    /** processFormSubmit is registered as the search input's "input"
        listener; registering the same listener twice has no effect, so a
        flag is the whole state. */
    var inputListenerArmed: bool
    /** The location queries fetch was called with, oldest first. */
    var fetchLog: seq<string>
    /** The text of the HTTP-error banner. */
    var bannerText: string
    /** The `.forecast-description` elements, in document order. */
    const slots: array<Slot>

    constructor (slots: array<Slot>, errorVisible: bool, bannerText: string)
      ensures this.slots == slots && this.errorVisible == errorVisible
      ensures this.bannerText == bannerText
      ensures !inputListenerArmed && fetchLog == []
    {
      this.slots := slots;
      this.errorVisible := errorVisible;
      this.bannerText := bannerText;
      inputListenerArmed := false;
      fetchLog := [];
    }

    /** processFormSubmit, with the input field's value and the network's
        answer as parameters; `location` is the handler's local variable as
        it ends. The trimmed value is classified; a single region hides the
        error, disarms the listener, fetches once and renders whatever the
        fetch left in a fresh record; a city and a country hides the error,
        disarms the listener and only rewrites each white-space run of the
        query to a comma; anything else shows the error and arms the
        listener. Only a single region fetches or renders. */
    method ProcessFormSubmit(inputValue: string, outcome: FetchOutcome, fmt: Formatting)
      returns (location: string)
      modifies this, slots
      ensures errorVisible <==> Classify(Trim(inputValue)) == Invalid
      ensures inputListenerArmed == errorVisible
      ensures Classify(Trim(inputValue)) == SingleRegion ==>
        fetchLog == old(fetchLog) + [Trim(inputValue)]
      ensures Classify(Trim(inputValue)) != SingleRegion ==> fetchLog == old(fetchLog)
      ensures Classify(Trim(inputValue)) == SingleRegion ==>
        slots[..] == Rendered(old(slots[..]), AfterFetch(Unloaded, outcome, fmt))
      ensures Classify(Trim(inputValue)) != SingleRegion ==> slots[..] == old(slots[..])
      ensures !outcome.HttpSuccess? ==> slots[..] == old(slots[..])
      ensures bannerText == if Classify(Trim(inputValue)) == SingleRegion && outcome.HttpFailure?
        then outcome.message else old(bannerText)
      ensures location == if Classify(Trim(inputValue)) == CityCountry
        then ReplaceWhitespaceRuns(Trim(inputValue)) else Trim(inputValue)
    {
      location := Trim(inputValue);
      var verdict := Classify(location);
      SetErrorShown(verdict == Invalid);
      if verdict == SingleRegion {
        FetchAndDisplay(location, outcome, fmt);
      } else if verdict == CityCountry {
        location := ReplaceWhitespaceRuns(location);
      }
    }

    /** Both valid branches hide the error message and remove the input
        listener; the invalid branch shows the message and adds the
        listener. */
    method SetErrorShown(shown: bool)
      modifies this
      ensures errorVisible == shown && inputListenerArmed == shown
      ensures fetchLog == old(fetchLog) && bannerText == old(bannerText)
    {
      errorVisible := shown;
      inputListenerArmed := shown;
    }

    /** The single-region branch after the indicator and listener are
        updated: a fresh record, one fetch for the location, then the
        record rendered into the slots. A failed fetch leaves every slot as
        it was. */
    method FetchAndDisplay(location: string, outcome: FetchOutcome, fmt: Formatting)
      modifies this, slots
      ensures errorVisible == old(errorVisible) && inputListenerArmed == old(inputListenerArmed)
      ensures fetchLog == old(fetchLog) + [location]
      ensures slots[..] == Rendered(old(slots[..]), AfterFetch(Unloaded, outcome, fmt))
      ensures !outcome.HttpSuccess? ==> slots[..] == old(slots[..])
      ensures bannerText == if outcome.HttpFailure? then outcome.message else old(bannerText)
    {
      var weatherForecast := new WeatherForecast();
      fetchLog := fetchLog + [location];
      var banner := weatherForecast.FetchWeatherData(outcome, fmt);
      if banner.Some? {
        bannerText := banner.value;
      }
      DisplayWeatherForecast(slots, weatherForecast);
      RenderedUnloaded(old(slots[..]));
    }

    /** The "input" event: the handler runs on the new value only while it
        is armed, with all of its effects; otherwise nothing changes. */
    method OnInput(inputValue: string, outcome: FetchOutcome, fmt: Formatting)
      modifies this, slots
      ensures !old(inputListenerArmed) ==>
        errorVisible == old(errorVisible) && !inputListenerArmed &&
        fetchLog == old(fetchLog) && bannerText == old(bannerText) && slots[..] == old(slots[..])
      ensures old(inputListenerArmed) ==>
        (errorVisible <==> Classify(Trim(inputValue)) == Invalid) && inputListenerArmed == errorVisible
      ensures old(inputListenerArmed) && Classify(Trim(inputValue)) == SingleRegion ==>
        fetchLog == old(fetchLog) + [Trim(inputValue)] &&
        slots[..] == Rendered(old(slots[..]), AfterFetch(Unloaded, outcome, fmt)) &&
        bannerText == (if outcome.HttpFailure? then outcome.message else old(bannerText))
      ensures old(inputListenerArmed) && Classify(Trim(inputValue)) != SingleRegion ==>
        fetchLog == old(fetchLog) && slots[..] == old(slots[..]) && bannerText == old(bannerText)
    {
      if inputListenerArmed {
        var _ := ProcessFormSubmit(inputValue, outcome, fmt);
      }
    }
  }

  /** Submitting the same value twice leaves the error indicator and the
      listener as one submit does, whatever the two fetches return. */
  method SubmitTwice(page: Page, inputValue: string, first: FetchOutcome, second: FetchOutcome, fmt: Formatting)
    returns (once: (bool, bool), twice: (bool, bool))
    modifies page, page.slots
    ensures once == twice
    ensures once == (Classify(Trim(inputValue)) == Invalid, Classify(Trim(inputValue)) == Invalid)
  {
    var _ := page.ProcessFormSubmit(inputValue, first, fmt);
    once := (page.errorVisible, page.inputListenerArmed);
    var _ := page.ProcessFormSubmit(inputValue, second, fmt);
    twice := (page.errorVisible, page.inputListenerArmed);
  }
}
