/** The two immutable configuration records of the water shield: the orbit
    and the water mass with its shield geometry and thermal properties. */
module Configuration {

  /** The satellite's orbit.  `altitudeKm` is carried along but used by no formula. */
  datatype OrbitalParameters = OrbitalParameters(
    altitudeKm: real,
    orbitalPeriodMin: real,
    eclipseFraction: real)

  /** The defaults of the orbit record: an ISS-like low orbit. */
  const DefaultOrbitalParameters := OrbitalParameters(400.0, 92.0, 0.35)

  /** Minutes of each orbit spent in sunlight. */
  function SunlightDurationMin(o: OrbitalParameters): (r: real)
    ensures 0.0 <= o.eclipseFraction <= 1.0 && o.orbitalPeriodMin >= 0.0 ==>
              0.0 <= r <= o.orbitalPeriodMin
    ensures o.orbitalPeriodMin > 0.0 ==> (r == o.orbitalPeriodMin <==> o.eclipseFraction == 0.0)
  {
    o.orbitalPeriodMin * (1.0 - o.eclipseFraction)
  }

  /** Minutes of each orbit spent in Earth's shadow. */
  function EclipseDurationMin(o: OrbitalParameters): (r: real)
    ensures 0.0 <= o.eclipseFraction <= 1.0 && o.orbitalPeriodMin >= 0.0 ==>
              0.0 <= r <= o.orbitalPeriodMin
    ensures o.orbitalPeriodMin > 0.0 ==> (r == 0.0 <==> o.eclipseFraction == 0.0)
  {
    o.orbitalPeriodMin * o.eclipseFraction
  }

  /** Sunlight and eclipse split the orbit: together they take exactly one period. */
  lemma DurationsPartitionPeriod(o: OrbitalParameters)
    ensures SunlightDurationMin(o) + EclipseDurationMin(o) == o.orbitalPeriodMin
  {
  }

  /** A 90-minute orbit with 40 % eclipse has 54 minutes of sunlight and 36 of shadow. */
  lemma NinetyMinuteOrbitDurations()
    ensures SunlightDurationMin(OrbitalParameters(400.0, 90.0, 0.4)) == 54.0
    ensures EclipseDurationMin(OrbitalParameters(400.0, 90.0, 0.4)) == 36.0
  {
  }

  /** The water mass, the shield geometry and the thermal properties of water.
      Temperatures are in degrees Celsius; `hotTempCelsius > coldTempCelsius`
      is expected but not required. */
  datatype WaterShieldConfig = WaterShieldConfig(
    waterMassKg: real,
    shieldThicknessCm: real,
    surfaceAreaM2: real,
    specificHeatCapacity: real,   // J/(kg K)
    latentHeatFusion: real,       // J/kg
    hotTempCelsius: real,
    coldTempCelsius: real)

  /** The defaults of the configuration record: one tonne of water, a 10 cm shield over 20 m2. */
  const DefaultWaterShieldConfig :=
    WaterShieldConfig(1000.0, 10.0, 20.0, 4186.0, 334000.0, 50.0, -20.0)
}
