/** displayWeatherForecast: each `.forecast-description` slot shows the
    record property named by the id of the slot's parent element, when that
    property is truthy. */
module Renderer {
  import opened Forecast

  /** A description slot: its parent element's id and its text content. */
  datatype Slot = Slot(containerId: string, text: string)

  /** JavaScript truthiness of a property value: defined and not the empty
      string. */
  predicate Truthy(v: Option<string>) {
    v.Some? && v.value != ""
  }

  /** The names of the record's nine display properties. */
  const FieldNames: set<string> := {"calculationTime", "weatherState", "temperature",
    "pressure", "humidity", "visibility", "windSpeed", "clouds", "base"}

  /** `record[name]` for the record's own properties. The boolean flag reads
      as the text "true" when set; `false` and every other name are falsy.
      A record with every field set defines all nine properties; an unset
      record defines none. */
  function Lookup(r: WeatherRecord, name: string): (v: Option<string>)
    ensures AllFieldsSet(r) && name in FieldNames ==> v.Some?
    ensures NoFieldSet(r) && !r.isDataLoaded ==> v.None?
    ensures name !in FieldNames && name != "isDataLoaded" ==> v.None?
    ensures name == "isDataLoaded" ==> (v.Some? <==> r.isDataLoaded)
  {
    match name
    case "calculationTime" => r.calculationTime
    case "weatherState" => r.weatherState
    case "temperature" => r.temperature
    case "pressure" => r.pressure
    case "humidity" => r.humidity
    case "visibility" => r.visibility
    case "windSpeed" => r.windSpeed
    case "clouds" => r.clouds
    case "base" => r.base
    case "isDataLoaded" => if r.isDataLoaded then Some("true") else None
    case _ => None
  }

  /** One iteration of the loop, on one slot: the container is kept, and
      the text changes only to a truthy looked-up value. */
  function RenderSlot(s: Slot, r: WeatherRecord): (t: Slot)
    ensures t.containerId == s.containerId
    ensures t.text == s.text || Truthy(Lookup(r, s.containerId))
    ensures Truthy(Lookup(r, s.containerId)) ==> t.text == Lookup(r, s.containerId).value
  {
    var v := Lookup(r, s.containerId);
    if Truthy(v) then s.(text := v.value) else s
  }

  /** Every slot rendered in turn. */
  function Rendered(slots: seq<Slot>, r: WeatherRecord): (out: seq<Slot>)
    ensures |out| == |slots|
  {
    if slots == [] then [] else [RenderSlot(slots[0], r)] + Rendered(slots[1..], r)
  }

  /** Slot i keeps its container and takes the looked-up value as its text
      exactly when that value is truthy; otherwise it is left as it was. */
  lemma {:induction false} RenderedAt(slots: seq<Slot>, r: WeatherRecord, i: nat)
    requires i < |slots|
    ensures Rendered(slots, r)[i].containerId == slots[i].containerId
    ensures Truthy(Lookup(r, slots[i].containerId)) ==>
              Rendered(slots, r)[i].text == Lookup(r, slots[i].containerId).value
    ensures !Truthy(Lookup(r, slots[i].containerId)) ==> Rendered(slots, r)[i] == slots[i]
  {
    if i > 0 {
      RenderedAt(slots[1..], r, i - 1);
    }
  }

  /** Slots are rendered independently of one another. */
  lemma {:induction false} RenderedConcat(a: seq<Slot>, b: seq<Slot>, r: WeatherRecord)
    ensures Rendered(a + b, r) == Rendered(a, r) + Rendered(b, r)
  {
    if a != [] {
      assert (a + b)[0] == a[0] && (a + b)[1..] == a[1..] + b;
      RenderedConcat(a[1..], b, r);
    } else {
      assert a + b == b;
    }
  }

  /** Rendering the same record twice is rendering it once. */
  lemma {:induction false} RenderedIdempotent(slots: seq<Slot>, r: WeatherRecord)
    ensures Rendered(Rendered(slots, r), r) == Rendered(slots, r)
  {
    if slots != [] {
      RenderedIdempotent(slots[1..], r);
    }
  }

  /** A record no response filled writes nothing. */
  lemma {:induction false} RenderedUnloaded(slots: seq<Slot>)
    ensures Rendered(slots, Unloaded) == slots
  {
    if slots != [] {
      RenderedUnloaded(slots[1..]);
    }
  }

  /** After a successful response, a slot inside the "temperature" container
      shows the temperature with its unit. */
  lemma TemperatureShown(slots: seq<Slot>, data: WeatherResponse, fmt: Formatting, i: nat)
    requires i < |slots| && slots[i].containerId == "temperature"
    ensures Rendered(slots, Normalize(data, fmt))[i].text == fmt.number(data.temp) + " \U{00B0}C"
  {
    var rec := Normalize(data, fmt);
    assert Lookup(rec, "temperature") == rec.temperature;
    RenderedAt(slots, rec, i);
  }

  /** displayWeatherForecast over the slot array, in place: every slot becomes
      its rendered self and nothing else changes. */
  method DisplayWeatherForecast(slots: array<Slot>, forecast: WeatherForecast)
    modifies slots
    ensures slots[..] == Rendered(old(slots[..]), forecast.Record())
  {
    var i := 0;
    while i < slots.Length
      invariant 0 <= i <= slots.Length
      invariant forall k :: 0 <= k < i ==> slots[k] == RenderSlot(old(slots[k]), forecast.Record())
      invariant forall k :: i <= k < slots.Length ==> slots[k] == old(slots[k])
    {
      var element := slots[i];
      var value := Lookup(forecast.Record(), element.containerId);
      if Truthy(value) {
        slots[i] := element.(text := value.value);
      }
      i := i + 1;
    }
    ghost var before := old(slots[..]);
    forall k | 0 <= k < slots.Length
      ensures slots[..][k] == Rendered(before, forecast.Record())[k]
    {
      RenderedAt(before, forecast.Record(), k);
    }
  }
}
