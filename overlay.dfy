// The choices Program::drawUI makes before it formats text: which unit the
// timestep and the zoom are shown in, and whether the unit takes an "s".
module Overlay {

  /** A quantity converted to a unit, with the unit's singular name. */
  datatype Reading = Reading(amount: real, unit: string)

  /** Seconds per time unit the timestep label can use. */
  const TimeUnits: map<string, real> :=
    map["second" := 1.0, "minute" := 60.0, "hour" := 3600.0,
        "day" := 86400.0, "year" := 31536000.0]

  /** Meters per length unit the zoom label can use. */
  const LengthUnits: map<string, real> := map["meter" := 1.0, "kilometer" := 1000.0]

  /**
   * The timestep label's conversion. `deltaTime` simulated seconds pass per
   * frame, so deltaTime * 60 pass per wall-clock second at 60 frames per
   * second. That amount is divided by the largest of year, day, hour and
   * minute that it reaches; below a minute it stays in seconds.
   */
  function TimestepReading(deltaTime: real): (r: Reading)
    ensures r.unit in TimeUnits
    ensures r.amount * TimeUnits[r.unit] == deltaTime * 60.0
    ensures r.unit != "second" ==> TimeUnits[r.unit] <= deltaTime * 60.0
    ensures forall u :: u in TimeUnits && u != "second" && TimeUnits[u] <= deltaTime * 60.0 ==>
      TimeUnits[u] <= TimeUnits[r.unit]
  {
    var seconds := deltaTime * 60.0;
    if seconds >= 60.0 * 60.0 * 24.0 * 365.0 then Reading(seconds / (60.0 * 60.0 * 24.0 * 365.0), "year")
    else if seconds >= 60.0 * 60.0 * 24.0 then Reading(seconds / (60.0 * 60.0 * 24.0), "day")
    else if seconds >= 60.0 * 60.0 then Reading(seconds / (60.0 * 60.0), "hour")
    else if seconds >= 60.0 then Reading(seconds / 60.0, "minute")
    else Reading(seconds, "second")
  }

  /**
   * The zoom label's conversion: `zoom` meters per pixel, shown in
   * kilometers from 1000 on and in meters below.
   */
  function ZoomReading(zoom: real): (r: Reading)
    ensures r.unit in LengthUnits
    ensures r.amount * LengthUnits[r.unit] == zoom
    ensures r.unit == "kilometer" <==> zoom >= 1000.0
  {
    if zoom >= 1000.0 then Reading(zoom / 1000.0, "kilometer") else Reading(zoom, "meter")
  }

  /** The unit as printed: the "s" is left off exactly when the amount is 1. */
  function UnitLabel(r: Reading): (shown: string)
    ensures shown == r.unit || shown == r.unit + "s"
    ensures shown == r.unit <==> r.amount == 1.0
  {
    r.unit + (if r.amount != 1.0 then "s" else "")
  }

  /**
   * The timestep label is singular exactly when deltaTime * 60 is one whole
   * unit: one second, minute, hour, day or year per wall-clock second.
   */
  lemma TimestepSingularIffWholeUnit(deltaTime: real)
    ensures var r := TimestepReading(deltaTime);
      UnitLabel(r) == r.unit <==> deltaTime * 60.0 == TimeUnits[r.unit]
  {
  }
}
