/** The day/night theme chosen once at start-up from the local hour: a class
    on the page body and the favicon the page shows. */
module DayNight {

  const DayFavicon: string := "./images/favicon.png"
  const NightFavicon: string := "./images/favicon-night.png"

  /** The body class and favicon path of one theme. */
  datatype Theme = Theme(bodyClass: string, favicon: string)

  /** Day runs from hour 6 inclusive to hour 18 exclusive. */
  predicate IsDaytime(hour: int) {
    6 <= hour < 18
  }

  /** The theme for an hour: the empty body class with the day favicon by
      day, the class "night" with the night favicon otherwise. */
  function ThemeFor(hour: int): (t: Theme)
    ensures t.bodyClass == "" <==> IsDaytime(hour)
    ensures t.bodyClass == "night" <==> !IsDaytime(hour)
    ensures t.favicon == DayFavicon <==> IsDaytime(hour)
    ensures t.favicon == NightFavicon <==> !IsDaytime(hour)
  {
    if IsDaytime(hour) then Theme("", DayFavicon) else Theme("night", NightFavicon)
  }

  /** The boundaries: 6 is the first day hour and 18 the first night hour. */
  lemma DayBoundaries()
    ensures ThemeFor(5).bodyClass == "night" && ThemeFor(6).bodyClass == ""
    ensures ThemeFor(17).bodyClass == "" && ThemeFor(18).bodyClass == "night"
  {
  }

  /** The parts of the document the theme touches: the body's class and the
      hrefs of the head's `link[rel~='icon']` elements, in document order. */
  class Document {
    var bodyClassName: string
    var iconLinks: seq<string>

    constructor (bodyClassName: string, iconLinks: seq<string>)
      ensures this.bodyClassName == bodyClassName && this.iconLinks == iconLinks
    {
      this.bodyClassName := bodyClassName;
      this.iconLinks := iconLinks;
    }

    /** toggleDayNightMode, with the clock's hour as a parameter: when no
        icon link exists one is appended; the first icon link gets the
        theme's favicon and the body the theme's class; any further icon
        links are left as they were. */
    method ToggleDayNightMode(hour: int)
      modifies this
      ensures iconLinks != []
      ensures |iconLinks| == if old(iconLinks) == [] then 1 else |old(iconLinks)|
      ensures iconLinks[0] == ThemeFor(hour).favicon
      ensures iconLinks[1..] == if old(iconLinks) == [] then [] else old(iconLinks)[1..]
      ensures bodyClassName == ThemeFor(hour).bodyClass
    {
      if iconLinks == [] {
        iconLinks := iconLinks + [""];
      }
      var bodyClass: string;
      if hour >= 6 && hour < 18 {
        bodyClass := "";
        iconLinks := iconLinks[0 := DayFavicon];
      } else {
        bodyClass := "night";
        iconLinks := iconLinks[0 := NightFavicon];
      }
      bodyClassName := bodyClass;
    }
  }
}
