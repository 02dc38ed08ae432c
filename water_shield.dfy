/** The satellite water shield as a whole: one configuration and one orbit,
    shared by the three calculators built from them, and the status record
    that merges their outputs. */
module WaterShield {
  import opened Exponential
  import opened Configuration
  import opened Radiation
  import opened Thermal
  import opened Power

  datatype Option<T> = None | Some(value: T)

  const DefaultPowerEfficiency: real := 0.15
  const DefaultExposureDays: real := 30.0

  /** The system and the calculators it owns. */
  datatype SatelliteWaterShield = SatelliteWaterShield(
    waterConfig: WaterShieldConfig,
    orbitalParams: OrbitalParameters,
    radiationShield: RadiationShield,
    thermalManager: ThermalCycleManager,
    powerGenerator: PowerGenerator)

  /** Every calculator sees the system's own configuration and orbit, and the
      power generator works from the system's thermal manager. */
  predicate Wired(s: SatelliteWaterShield) {
    && s.radiationShield.config == s.waterConfig
    && s.thermalManager.config == s.waterConfig
    && s.thermalManager.orbitalParams == s.orbitalParams
    && s.powerGenerator.thermalManager == s.thermalManager
  }

  /** Builds the system; a missing configuration or orbit takes its defaults. */
  function NewSatelliteWaterShield(
    waterConfig: Option<WaterShieldConfig>,
    orbitalParams: Option<OrbitalParameters>,
    powerEfficiency: real): (s: SatelliteWaterShield)
    ensures Wired(s)
    ensures waterConfig.Some? ==> s.waterConfig == waterConfig.value
    ensures waterConfig.None? ==> s.waterConfig == DefaultWaterShieldConfig
    ensures orbitalParams.Some? ==> s.orbitalParams == orbitalParams.value
    ensures orbitalParams.None? ==> s.orbitalParams == DefaultOrbitalParameters
    ensures s.powerGenerator.efficiency == powerEfficiency
  {
    var config := if waterConfig.Some? then waterConfig.value else DefaultWaterShieldConfig;
    var orbit := if orbitalParams.Some? then orbitalParams.value else DefaultOrbitalParameters;
    var thermalManager := ThermalCycleManager(config, orbit);
    SatelliteWaterShield(config, orbit, RadiationShield(config), thermalManager,
                         PowerGenerator(thermalManager, powerEfficiency))
  }

  datatype OrbitalStatus = OrbitalStatus(
    altitudeKm: real,
    orbitalPeriodMin: real,
    sunlightDurationMin: real,
    eclipseDurationMin: real)

  datatype ShieldStatus = ShieldStatus(
    waterMassKg: real,
    shieldThicknessCm: real,
    surfaceAreaM2: real)

  /** The two heat rates, in kW. */
  datatype ThermalRates = ThermalRates(heatAbsorptionKw: real, heatRejectionKw: real)

  datatype SystemStatus = SystemStatus(
    orbitalParameters: OrbitalStatus,
    waterShield: ShieldStatus,
    radiationProtection: DoseReduction,
    thermalCapacity: ThermalCapacity,
    thermalRates: ThermalRates,
    powerGeneration: PowerOutput)

  /** The merged status for an exposure of `exposureDays`.  The orbit and
      shield sections echo the system's own records, with the orbit's sunlight
      and eclipse durations (which split the period); the dose, capacity and power sections are the calculators'
      outputs; the rates are the calculators' watt figures at their default
      arguments, in kW. */
  function GetSystemStatus(s: SatelliteWaterShield, exposureDays: real, exp: real -> real): (st: SystemStatus)
    requires PeriodMin(s.powerGenerator) != 0.0
    ensures st.orbitalParameters == OrbitalStatus(s.orbitalParams.altitudeKm, s.orbitalParams.orbitalPeriodMin,
                                                  SunlightDurationMin(s.orbitalParams),
                                                  EclipseDurationMin(s.orbitalParams))
    ensures st.orbitalParameters.sunlightDurationMin + st.orbitalParameters.eclipseDurationMin
              == st.orbitalParameters.orbitalPeriodMin
    ensures st.waterShield ==
              ShieldStatus(s.waterConfig.waterMassKg, s.waterConfig.shieldThicknessCm, s.waterConfig.surfaceAreaM2)
    ensures st.radiationProtection == CalculateEffectiveDoseReduction(s.radiationShield, exposureDays, exp)
    ensures st.thermalCapacity == CalculateThermalEnergyCapacity(s.thermalManager)
    ensures st.thermalRates.heatAbsorptionKw * 1000.0 ==
              CalculateHeatAbsorptionRate(s.thermalManager, DefaultSolarConstantWm2, DefaultAbsorptionCoefficient)
    ensures st.thermalRates.heatRejectionKw * 1000.0 ==
              CalculateHeatRejectionRate(s.thermalManager, DefaultSpaceTempK, DefaultEmissivity)
    ensures st.powerGeneration == CalculatePowerOutputPerOrbit(s.powerGenerator)
  {
    DurationsPartitionPeriod(s.orbitalParams);
    var radiationMetrics := CalculateEffectiveDoseReduction(s.radiationShield, exposureDays, exp);
    var thermalMetrics := CalculateThermalEnergyCapacity(s.thermalManager);
    var powerMetrics := CalculatePowerOutputPerOrbit(s.powerGenerator);
    var heatAbsorption := CalculateHeatAbsorptionRate(s.thermalManager, DefaultSolarConstantWm2, DefaultAbsorptionCoefficient);
    var heatRejection := CalculateHeatRejectionRate(s.thermalManager, DefaultSpaceTempK, DefaultEmissivity);
    SystemStatus(
      OrbitalStatus(s.orbitalParams.altitudeKm, s.orbitalParams.orbitalPeriodMin,
                    SunlightDurationMin(s.orbitalParams), EclipseDurationMin(s.orbitalParams)),
      ShieldStatus(s.waterConfig.waterMassKg, s.waterConfig.shieldThicknessCm, s.waterConfig.surfaceAreaM2),
      radiationMetrics,
      thermalMetrics,
      ThermalRates(heatAbsorption / 1000.0, heatRejection / 1000.0),
      powerMetrics)
  }

  /** In a wired system the sections of one status agree with each other:
      the power section converts exactly the capacity section, over the
      period of the orbit section; the dose section's factor is that of the
      shield section's thickness; and the shield never adds dose. */
  lemma WiredStatusIsConsistent(s: SatelliteWaterShield, exposureDays: real, exp: real -> real)
    requires Wired(s) && s.orbitalParams.orbitalPeriodMin != 0.0
    ensures var st := GetSystemStatus(s, exposureDays, exp);
            && st.powerGeneration.energyPerOrbitKwh
                 == st.thermalCapacity.totalCapacityKwh * st.powerGeneration.conversionEfficiency
            && st.powerGeneration.dailyEnergyKwh * st.orbitalParameters.orbitalPeriodMin
                 == st.powerGeneration.energyPerOrbitKwh * MinutesPerDay
            && st.radiationProtection.shieldingFactor
                 == exp(-WaterAttenuationRate * st.waterShield.shieldThicknessCm)
            && (IsExpLike(exp) && st.waterShield.shieldThicknessCm >= 0.0 && exposureDays >= 0.0 ==>
                  st.radiationProtection.shieldedDoseMsv <= st.radiationProtection.unshieldedDoseMsv)
  {
  }

  /** A wired system is exactly the one the constructor builds from its own
      configuration, orbit and efficiency; with `GetSystemStatus` a function,
      its status therefore depends on those values and the exposure alone,
      and asking twice gives the same record. */
  lemma WiredSystemIsConstructed(s: SatelliteWaterShield)
    requires Wired(s)
    ensures s == NewSatelliteWaterShield(Some(s.waterConfig), Some(s.orbitalParams), s.powerGenerator.efficiency)
  {
  }

  /** The default system over 30 days: a 400 km orbit, one tonne of water,
      15 mSv unshielded, a positive dose reduction, 627.02 MJ of storage,
      19.054 kW absorbed, positive heat rejection and a reasonable average power. */
  lemma DefaultSystemStatus(exp: real -> real)
    requires IsExpLike(exp)
    ensures var st := GetSystemStatus(NewSatelliteWaterShield(None, None, DefaultPowerEfficiency), DefaultExposureDays, exp);
            && st.orbitalParameters.altitudeKm == 400.0
            && st.waterShield.waterMassKg == 1000.0
            && st.radiationProtection.unshieldedDoseMsv == 15.0
            && st.radiationProtection.reductionPercent > 0.0
            && st.thermalCapacity.totalCapacityMj == 627.02
            && st.thermalRates.heatAbsorptionKw == 19.054
            && st.thermalRates.heatRejectionKw > 0.0
            && 1.0 < st.powerGeneration.avgPowerW < 100000.0
  {
  }
}
