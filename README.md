# Weather widget core, modelled in Dafny

The widget is one browser script. It sets a day or night theme from the
local hour. It validates the location typed into a search form, fetches the
current weather for a single-region query, and writes the record's fields
into the page's description slots. This project models the parts of that
script whose behaviour can be stated exactly, and proves their properties:

- `jstext.dfy` (module `JsText`): the two string built-ins the handler uses.
  These are `trim()` and `replace(/\s+/g, ",")`, over the ECMAScript
  white-space set.
- `location.dfy` (module `LocationValidator`): the two location patterns
  and the first-match-wins classification.
- `units.dfy` (module `UnitConverter`): `speedMStoKMH` and `distanceMtoKM`
  on real numbers, each returning a number and its unit suffix.
- `daynight.dfy` (module `DayNight`): the hour rule and
  `toggleDayNightMode` on a `Document` object (body class, icon links).
- `forecast.dfy` (module `Forecast`): the `WeatherForecast` class. It has
  nine fields and the `isDataLoaded` flag, with `initializeWeatherData` and
  `fetchWeatherData`. Its invariant: loaded exactly when every field is set.
- `renderer.dfy` (module `Renderer`): `displayWeatherForecast` as an
  in-place loop over an array of slots.
- `submit.dfy` (module `FormSubmit`): `processFormSubmit` on a `Page`
  object. The page holds the error indicator, the input-listener flag, the
  log of fetches issued, the banner text and the slots.

The network's answer is a parameter: `FetchOutcome` is a transport failure,
an HTTP error with the provider's message, or a success with a body.
Turning numbers into text and formatting the locale date are also a
parameter (`Formatting`), since the runtime supplies both. The clock's hour
is a parameter of `ToggleDayNightMode`.

The city-and-country branch only rewrites the query; it never fetches with
it. A wind speed of 1500 m/s is shown as 1500 × 1000/3600 "km/hr".

## Model

| member | source | states |
|---|---|---|
| `JsText.Trim` | script.js:50 | the result is never longer than the value and neither starts nor ends with white space |
| `JsText.TrimMeaning` | script.js:50 | the value is white space, then the result, then white space |
| `JsText.TrimPadded` | script.js:50 | trimming white space + core + white space gives the core when the core has no white space at either end |
| `JsText.TrimIdempotent` | script.js:50 | trimming twice is trimming once |
| `JsText.ReplaceWhitespaceRuns` | script.js:71 | the rewritten query holds no white space and is never longer than the input |
| `JsText.ReplaceRunsCopies` | script.js:71 | characters that are not white space are copied unchanged, in order |
| `JsText.ReplaceWithoutWhitespace` | script.js:71 | a query without white space is left unchanged by the rewrite |
| `JsText.ReplaceBetweenTokens` | script.js:71 | two tokens around one white-space run become the tokens joined by exactly one comma |
| `LocationValidator.MatchesSingleRegion` | script.js:56 | a match is at least three characters, holds no white space, and starts and ends with a letter |
| `LocationValidator.MatchesCityCountry` | script.js:57 | a match is at least seven characters, starts and ends with a letter, and the first character after the leading letters is white space |
| `LocationValidator.CityCountryMatchIff` | script.js:57 | the left-to-right matcher accepts exactly letter token (at least 3), white-space run, letter token (at least 3) |
| `LocationValidator.CityCountryMatchSound` | script.js:57 | a query the left-to-right matcher accepts has the two-token shape |
| `LocationValidator.CityCountryMatchComplete` | script.js:57 | a query of the two-token shape is accepted by the left-to-right matcher |
| `LocationValidator.PatternsExclusive` | script.js:56-57 | no string matches both patterns |
| `LocationValidator.Classify` | script.js:60-76 | the first pattern wins: single region exactly when the first pattern matches, city-and-country exactly when only the second does; a valid query starts and ends with a letter; a single region holds no white space; a city-and-country query has at least seven characters |
| `LocationValidator.ClassifyMeaning` | script.js:55-76 | single region iff three or more ASCII letters only; city-and-country iff the two-token shape; invalid iff neither |
| `LocationValidator.SingleRegionInput` | script.js:50-60 | three or more letters with any surrounding white space trim to the word and classify as single region |
| `LocationValidator.CityCountryInput` | script.js:68-71 | two 3+-letter tokens separated by white space classify as city-and-country, and the rewritten query is token1 + "," + token2 |
| `LocationValidator.ShortQueryInvalid` | script.js:72-76 | fewer than three characters, the empty query included, is invalid |
| `LocationValidator.ForeignCharacterInvalid` | script.js:72-76 | a digit, punctuation or any other character that is neither letter nor white space makes the query invalid |
| `LocationValidator.ThreeTokensInvalid` | script.js:72-76 | three letter tokens separated by white space are invalid |
| `UnitConverter.ReadingText` | script.js:136-148 | the text of a reading ends with its unit suffix |
| `UnitConverter.SpeedMStoKMH` | script.js:131-140 | below 1000 the speed is unchanged with "m/s"; at 1000 and above it is the speed divided by 3.6 with "km/hr" |
| `UnitConverter.SpeedMStoKMHMisstatesSpeed` | script.js:130-136 | from 1000 on, the "km/hr" reading denotes the input divided by 12.96, not the input |
| `UnitConverter.SpeedMStoKMHIntended` | script.js:130-136 | same threshold and units, and the reading denotes exactly the input speed |
| `UnitConverter.DistanceMtoKM` | script.js:143-150 | "m" below 1000 and "km" from 1000; the reading denotes the input distance; the shown number is under 1000 m or at least 1 km |
| `UnitConverter.ConverterBoundaries` | script.js:131-150 | 999 m/s and 500 m/s stay in m/s; 1000 m/s gives 2500/9 km/hr; 800 m stays; 1000 m is 1 km; 10000 m is 10 km |
| `DayNight.ThemeFor` | script.js:31-40 | hours 6 to 17 give class "" and the day favicon; every other hour gives "night" and the night favicon |
| `DayNight.DayBoundaries` | script.js:32 | 5 is night, 6 is day, 17 is day, 18 is night |
| `DayNight.Document.ToggleDayNightMode` | script.js:19-42 | an icon link exists afterwards; one is added only when none existed; the first gets the hour's favicon and the body the hour's class; other links are unchanged |
| `Forecast.Normalize` | script.js:110-122 | a loaded record with every field set; the temperature ends in " °C", the pressure in "hPa", the humidity and clouds in "%"; visibility and wind speed are the converters' readings |
| `Forecast.AfterFetch` | script.js:101-106 | a success leaves a loaded record with every field set; any other outcome leaves the record as it was; a consistent record stays consistent |
| `Forecast.FetchKeepsConsistent` | script.js:91-121 | a fetch keeps loaded-iff-all-set; the record becomes loaded only on success; a failed fetch leaves a fresh record entirely unset |
| `Forecast.WeatherForecast.constructor` | script.js:80-91 | a new record has every field undefined and isDataLoaded false |
| `Forecast.WeatherForecast.InitializeWeatherData` | script.js:110-122 | the object's fields become the normalised response and the record is loaded |
| `Forecast.WeatherForecast.FetchWeatherData` | script.js:93-108 | only a success initialises the record; an HTTP error gives the banner the provider's message; a transport failure changes nothing |
| `Renderer.Lookup` | script.js:157-158 | a record with every field set defines all nine display properties; an unset record defines none; any other name is undefined; "isDataLoaded" is defined exactly when the record is loaded |
| `Renderer.RenderSlot` | script.js:155-159 | the container is kept; the text changes only when the looked-up value is truthy, and then becomes that value |
| `Renderer.Rendered` | script.js:153-161 | rendering keeps the number of slots |
| `Renderer.RenderedAt` | script.js:154-159 | slot i takes record[containerId] as text exactly when it is truthy; otherwise it is unchanged; its container never changes |
| `Renderer.RenderedConcat` | script.js:154-160 | slots are rendered independently: rendering a concatenation is concatenating renderings |
| `Renderer.RenderedIdempotent` | script.js:153-161 | rendering the same record twice is rendering it once |
| `Renderer.RenderedUnloaded` | script.js:81-91 | an unset record changes no slot |
| `Renderer.TemperatureShown` | script.js:113 | after a successful load, a slot in the "temperature" container shows the number followed by " °C" |
| `Renderer.DisplayWeatherForecast` | script.js:153-161 | the slot array becomes the rendering of its old contents; nothing else changes |
| `FormSubmit.Page.ProcessFormSubmit` | script.js:45-77 | indicator shown and listener armed iff invalid; one fetch, logged with the trimmed query, only for a single region; slots re-rendered only then and unchanged on a failed fetch; city-and-country only rewrites the local query |
| `FormSubmit.Page.SetErrorShown` | script.js:61-75 | the error message is shown exactly when the input listener is registered; the fetch log and banner are unchanged |
| `FormSubmit.Page.FetchAndDisplay` | script.js:64-67 | one fetch is logged with the location; the slots become the rendering of what the fetch left in a fresh record, unchanged unless it succeeded; only an HTTP error sets the banner text; indicator and listener unchanged |
| `FormSubmit.Page.OnInput` | script.js:73-75 | while armed, an input event has every effect of the handler on the new value: indicator and listener, and for a single region the logged fetch, the re-rendered slots and the banner text; otherwise fetch log, slots and banner are unchanged; while disarmed, nothing changes |
| `FormSubmit.SubmitTwice` | script.js:60-76 | submitting the same value twice leaves the indicator and listener as one submit does |

## Findings

| source | as written | input that shows it | evidently intended | confidence | as-written member | corrected member |
|---|---|---|---|---|---|---|
| script.js:130-136 | the speed in m/s is multiplied by 1000/3600 and labelled "km/hr" | 1000 m/s is shown as 2500/9 ≈ 277.8 "km/hr"; 1000 m/s is 3600 km/h | multiply by 3600/1000, as the comment on line 130 says (m/s to km/h) | high; not executed | `UnitConverter.SpeedMStoKMHMisstatesSpeed` | `UnitConverter.SpeedMStoKMHIntended` |

The record's wind speed (`Forecast.Normalize`, script.js:117) keeps the
as-written converter. The record models that line as it stands.

## Left out

- The fetch itself, the JSON parse, the endpoint URL and the API key: the network's answer is the `FetchOutcome` parameter, and a failed parse is a transport failure.
- An error response whose body has no `message`: script.js:102 sets the banner's `textContent` to `undefined`, which empties it. `HttpFailure` always carries a string, so the model expresses this case only as `HttpFailure("")`.
- `animatehttpErrorMessage` (script.js:164-180): the banner's show, fade and hide are timing only; the model keeps just the banner text set before it.
- `unixToReadableDate` (script.js:125-128): `Date` and `toLocaleString` are the `localeDate` formatter parameter; the model keeps only the seconds-to-milliseconds step.
- JavaScript number-to-text formatting and floating-point rounding (of 1000/3600 among others): numbers are reals and their text is the `number` formatter parameter.
- DOM querying, listener registration and the start-up call on `DOMContentLoaded` (script.js:3-15, script.js:183); the listener is the `inputListenerArmed` flag, and `preventDefault` is not modelled.
- Overlapping submits and responses that arrive out of order: the handler's awaits are modelled as completing in sequence.
- A successful response whose body lacks a field. Two cases differ in the script, and the model covers neither; it takes the body as well-formed, with string and number fields:
  - A missing `weather`, `main`, `wind` or `clouds` object makes `initializeWeatherData` throw part-way (script.js:112-118). The fields before the throw stay set and `isDataLoaded` stays false. The `catch` on script.js:107 swallows the throw, and `displayWeatherForecast` (script.js:67) still renders the partly set record, so that record is not `Consistent`.
  - A missing `dt`, `main.temp`, `main.pressure`, `main.humidity`, `visibility`, `wind.speed`, `clouds.all` or `base` does not throw. The field becomes "Invalid Date", "undefined °C", "undefinedhPa", "undefined%", "undefinedm", "undefinedm/s" or `undefined`, and the record still becomes loaded and is rendered.
- Renderer.Lookup: a container id naming an inherited property (such as "constructor") reads as undefined here, though in the script it is a truthy function; `false` and `undefined` are both read as None.
- Strings are sequences of Unicode scalar values, not UTF-16 code units.
