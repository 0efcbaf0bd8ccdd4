/** Calibration of one payload into a reading: the per-field expressions the
    ingest evaluates. Python truthiness decides presence, so a field that is
    missing OR zero counts as absent. */
module Conversion {
  import opened Models

  const DefaultTipFactor: real := 0.2       // mm per tip when the logger has none
  const DefaultSonarHeight: real := 100.0   // cm when the logger has none
  const DistanceScale: real := 0.1          // sonar millimetres to centimetres

  /** Python truthiness of an optional number: None and 0 are false. */
  predicate Truthy(x: Option<real>)
  {
    x.Some? && x.value != 0.0
  }

  /** Python `x or d`. */
  function OrElse(x: Option<real>, d: real): real
  {
    if Truthy(x) then x.value else d
  }

  /** `tipp_fac or 0.2`: the logger's own factor when it is set and nonzero,
      the default otherwise, so never zero. */
  function TipFactor(tippFac: Option<real>): (f: real)
    ensures f != 0.0
    ensures Truthy(tippFac) ==> f == tippFac.value
    ensures !Truthy(tippFac) ==> f == DefaultTipFactor
  {
    OrElse(tippFac, DefaultTipFactor)
  }

  /** `ting_son or 100`: the logger's own sonar height when it is set and
      nonzero, 100 cm otherwise. */
  function SonarHeight(tingSon: Option<real>): (h: real)
    ensures Truthy(tingSon) ==> h == tingSon.value
    ensures !Truthy(tingSon) ==> h == DefaultSonarHeight
  {
    OrElse(tingSon, DefaultSonarHeight)
  }

  /** Rain increment in mm. A tick count of 0 gives None rather than 0 mm,
      so a dry interval stores NULL. */
  function Rain(tick: Option<real>, tippFac: Option<real>): (r: Option<real>)
    ensures r.Some? <==> Truthy(tick)
    ensures r.Some? ==> r.value != 0.0 && r.value / TipFactor(tippFac) == tick.value
  {
    if Truthy(tick) then Some(tick.value * TipFactor(tippFac)) else None
  }

  /** Water level in cm: sonar height minus the measured distance in cm. */
  function WaterLevel(distance: Option<real>, tingSon: Option<real>): (r: Option<real>)
    ensures r.Some? <==> Truthy(distance)
    ensures r.Some? ==> (SonarHeight(tingSon) - r.value) / DistanceScale == distance.value
  {
    if Truthy(distance) then Some(SonarHeight(tingSon) - distance.value * DistanceScale) else None
  }

  /** Offset correction for temperature, humidity and battery, as written:
      applied only when both the value and the offset are truthy, and
      otherwise 0 (not the raw value, not NULL). */
  function Corrected(value: Option<real>, cor: Option<real>): (r: real)
    ensures Truthy(value) && Truthy(cor) ==> r - cor.value == value.value
    ensures !(Truthy(value) && Truthy(cor)) ==> r == 0.0
  {
    if Truthy(value) && Truthy(cor) then value.value + cor.value else 0.0
  }

  /** `x or None` for altitude and pressure. */
  function PassThrough(x: Option<real>): (r: Option<real>)
    ensures r.Some? <==> Truthy(x)
    ensures r.Some? ==> r == x
  {
    if Truthy(x) then x else None
  }

  /** `x or None` for the integer signal quality. */
  function PassThroughInt(x: Option<int>): (r: Option<int>)
    ensures r.Some? <==> IdSet(x)
    ensures r.Some? ==> r == x
  {
    if IdSet(x) then x else None
  }

  /** The reading the ingest builds from a payload and its logger. */
  function Calibrate(raw: Payload, logger: Logger, sn: string, sampling: int, upS: int, tsA: int, received: int): Periodik
  {
    Periodik(
      sampling := sampling,
      loggerSn := sn,
      locationId := if IdSet(logger.locationId) then logger.locationId else None,
      tenantId := logger.tenantId,
      mdpl := PassThrough(raw.altitude),
      apre := PassThrough(raw.pressure),
      sq := PassThroughInt(raw.signalQuality),
      temp := Some(Corrected(raw.temperature, logger.tempCor)),
      humi := Some(Corrected(raw.humidity, logger.humiCor)),
      batt := Some(Corrected(raw.battery, logger.battCor)),
      rain := Rain(raw.tick, logger.tippFac),
      wlev := WaterLevel(raw.distance, logger.tingSon),
      upS := upS,
      tsA := tsA,
      received := received)
  }

  /** Five tips at the default factor give 1 mm; no tip or zero tips give no rain. */
  lemma RainAtDefaultFactor()
    ensures Rain(Some(5.0), None) == Some(1.0)
    ensures Rain(Some(0.0), Some(0.5)) == None && Rain(None, Some(0.5)) == None
  {
  }

  /** A 100 cm sonar reading 300 mm puts the water at 70 cm. */
  lemma WaterLevelAtDefaultHeight()
    ensures WaterLevel(Some(300.0), Some(100.0)) == Some(70.0)
    ensures WaterLevel(Some(300.0), None) == WaterLevel(Some(300.0), Some(0.0))
  {
  }

  /** As written, a real temperature from a logger without an offset is
      stored as 0 rather than passed through unchanged. */
  lemma UncorrectedValueStoredAsZero(value: real, cor: Option<real>)
    requires value != 0.0 && !Truthy(cor)
    ensures Corrected(Some(value), cor) == 0.0 != value
  {
  }
}
