/** The two unit converters of the forecast record. Each switches unit at a
    raw value of 1000 and returns a number with its unit suffix; turning the
    number into text is left to the formatter the caller supplies. */
module UnitConverter {

  /** A displayed measurement: a number and the unit suffix written after it. */
  datatype Reading = Reading(value: real, unit: string)

  /** The raw value at and above which both converters switch unit. */
  const Threshold: real := 1000.0

  /** A reading as text: the number's text followed by the unit suffix, as
      the template strings `${value}km` and the like produce it. */
  function ReadingText(r: Reading, number: real -> string): (t: string)
    ensures |t| >= |r.unit| && t[|t| - |r.unit|..] == r.unit
  {
    number(r.value) + r.unit
  }

  /** The speed in metres per second that a reading denotes, reading "km/hr"
      as kilometres per hour. */
  function SpeedInMetresPerSecond(r: Reading): real {
    if r.unit == "km/hr" then r.value * 1000.0 / 3600.0 else r.value
  }

  /** The distance in metres that a reading denotes. */
  function DistanceInMetres(r: Reading): real {
    if r.unit == "km" then r.value * 1000.0 else r.value
  }

  /** speedMStoKMH as written: below the threshold the speed is kept in
      metres per second; from the threshold on it is multiplied by
      1000/3600, that is divided by 3.6, and labelled "km/hr". */
  function SpeedMStoKMH(speed: real): (r: Reading)
    ensures r.unit == "m/s" <==> speed < Threshold
    ensures r.unit == "km/hr" <==> speed >= Threshold
    ensures r.unit == "m/s" ==> r.value == speed
    ensures r.unit == "km/hr" ==> r.value * 3.6 == speed
  {
    if speed >= Threshold then Reading(speed * (1000.0 / 3600.0), "km/hr")
    else Reading(speed, "m/s")
  }

  /** The "km/hr" reading of speedMStoKMH does not denote the input speed:
      read as kilometres per hour it stands for the input divided by 12.96,
      because m/s is converted to km/h by multiplying by 3.6, not dividing.
      At 1000 m/s the reading is 2500/9 "km/hr", where 3600 km/h is meant. */
  lemma SpeedMStoKMHMisstatesSpeed(speed: real)
    requires speed >= Threshold
    ensures SpeedInMetresPerSecond(SpeedMStoKMH(speed)) == speed / 12.96
    ensures SpeedInMetresPerSecond(SpeedMStoKMH(speed)) != speed
  {
  }

  /** The converter the comment on speedMStoKMH describes: the same
      threshold, and the km/h value is the speed times 3600/1000. */
  function SpeedMStoKMHIntended(speed: real): (r: Reading)
    ensures r.unit == "m/s" <==> speed < Threshold
    ensures r.unit == "km/hr" <==> speed >= Threshold
    ensures SpeedInMetresPerSecond(r) == speed
  {
    if speed >= Threshold then Reading(speed * (3600.0 / 1000.0), "km/hr")
    else Reading(speed, "m/s")
  }

  /** distanceMtoKM: below the threshold the distance stays in metres; from
      the threshold on it is divided by 1000 and labelled "km". Either way
      the reading denotes the input distance, and the number shown is below
      1000 in metres and at least 1 in kilometres. */
  function DistanceMtoKM(distance: real): (r: Reading)
    ensures r.unit == "m" <==> distance < Threshold
    ensures r.unit == "km" <==> distance >= Threshold
    ensures DistanceInMetres(r) == distance
    ensures r.unit == "m" ==> r.value < 1000.0
    ensures r.unit == "km" ==> r.value >= 1.0
  {
    if distance >= Threshold then Reading(distance / 1000.0, "km")
    else Reading(distance, "m")
  }

  /** Values at and around the threshold. */
  lemma ConverterBoundaries()
    ensures SpeedMStoKMH(999.0) == Reading(999.0, "m/s")
    ensures SpeedMStoKMH(1000.0) == Reading(2500.0 / 9.0, "km/hr")
    ensures SpeedMStoKMH(500.0) == Reading(500.0, "m/s")
    ensures DistanceMtoKM(800.0) == Reading(800.0, "m")
    ensures DistanceMtoKM(1000.0) == Reading(1.0, "km")
    ensures DistanceMtoKM(10000.0) == Reading(10.0, "km")
  {
  }
}
