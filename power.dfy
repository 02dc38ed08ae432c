/** Electrical power from cycling the stored heat once per orbit. */
module Power {
  import opened Configuration
  import opened Thermal

  /** Ratio of peak to average power during the phase change. */
  const PeakPowerMultiplier: real := 2.0

  const SecondsPerMinute: real := 60.0
  const MinutesPerDay: real := 1440.0

  /** A stateless calculator over a thermal manager and a conversion efficiency. */
  datatype PowerGenerator = PowerGenerator(thermalManager: ThermalCycleManager, efficiency: real)

  /** Electrical figures of one orbit and of one day. */
  datatype PowerOutput = PowerOutput(
    energyPerOrbitKwh: real,
    avgPowerW: real,
    peakPowerW: real,
    dailyEnergyKwh: real,
    conversionEfficiency: real)

  function PeriodMin(pg: PowerGenerator): real {
    pg.thermalManager.orbitalParams.orbitalPeriodMin
  }

  /** The thermal manager's whole capacity, converted at the given efficiency
      once per orbit.  The energy per orbit is that fraction of the capacity
      the thermal manager reports; it is the average power held for one
      orbit; the peak is twice the average; a day holds 1440 / period orbits,
      which is the average power held for 24 hours; and the efficiency is
      echoed.  A zero period is a division by zero in the source, hence the
      precondition. */
  function CalculatePowerOutputPerOrbit(pg: PowerGenerator): (r: PowerOutput)
    requires PeriodMin(pg) != 0.0
    ensures r.energyPerOrbitKwh == CalculateThermalEnergyCapacity(pg.thermalManager).totalCapacityKwh * pg.efficiency
    ensures r.avgPowerW * (PeriodMin(pg) * SecondsPerMinute) == r.energyPerOrbitKwh * JoulesPerKwh
    ensures r.peakPowerW == 2.0 * r.avgPowerW
    ensures r.dailyEnergyKwh * PeriodMin(pg) == r.energyPerOrbitKwh * MinutesPerDay
    ensures r.dailyEnergyKwh * 1000.0 == r.avgPowerW * 24.0
    ensures r.conversionEfficiency == pg.efficiency
  {
    var thermalCapacity := CalculateThermalEnergyCapacity(pg.thermalManager);
    var orbitalPeriodSec := PeriodMin(pg) * SecondsPerMinute;
    var thermalEnergyJ := thermalCapacity.totalCapacityMj * JoulesPerMj;
    var electricalEnergyJ := thermalEnergyJ * pg.efficiency;
    var electricalEnergyKwh := electricalEnergyJ / JoulesPerKwh;
    var avgPowerW := electricalEnergyJ / orbitalPeriodSec;
    var orbitsPerDay := MinutesPerDay / PeriodMin(pg);
    var dailyEnergyKwh := electricalEnergyKwh * orbitsPerDay;
    PowerOutput(electricalEnergyKwh, avgPowerW, avgPowerW * PeakPowerMultiplier, dailyEnergyKwh, pg.efficiency)
  }

  /** With a positive period, a positive efficiency and water that stores
      heat, every figure of the output is positive. */
  lemma PowerOutputPositive(pg: PowerGenerator)
    requires PeriodMin(pg) > 0.0 && pg.efficiency > 0.0
    requires var c := pg.thermalManager.config;
             c.waterMassKg > 0.0 && c.specificHeatCapacity >= 0.0 && c.latentHeatFusion >= 0.0 &&
             (c.latentHeatFusion > 0.0 || (c.specificHeatCapacity > 0.0 && c.hotTempCelsius != c.coldTempCelsius))
    ensures var r := CalculatePowerOutputPerOrbit(pg);
            r.energyPerOrbitKwh > 0.0 && r.avgPowerW > 0.0 && r.peakPowerW > 0.0 && r.dailyEnergyKwh > 0.0
  {
  }

  /** For a fixed thermal manager that stores heat and a positive period,
      a higher efficiency gives strictly more energy, average, peak and daily power. */
  lemma PowerStrictlyIncreasingInEfficiency(tm: ThermalCycleManager, low: real, high: real)
    requires tm.orbitalParams.orbitalPeriodMin > 0.0
    requires CalculateThermalEnergyCapacity(tm).totalCapacityMj > 0.0
    requires low < high
    ensures var lo := CalculatePowerOutputPerOrbit(PowerGenerator(tm, low));
            var hi := CalculatePowerOutputPerOrbit(PowerGenerator(tm, high));
            && lo.energyPerOrbitKwh < hi.energyPerOrbitKwh
            && lo.avgPowerW < hi.avgPowerW
            && lo.peakPowerW < hi.peakPowerW
            && lo.dailyEnergyKwh < hi.dailyEnergyKwh
  {
  }

  /** The default system (627.02 MJ at 15 % over a 92-minute orbit) averages
      about 17 kW: more than 1 W and less than 100 kW. */
  lemma DefaultPowerOutput()
    ensures var r := CalculatePowerOutputPerOrbit(
              PowerGenerator(ThermalCycleManager(DefaultWaterShieldConfig, DefaultOrbitalParameters), 0.15));
            && r.avgPowerW == 94053000.0 / 5520.0
            && 1.0 < r.avgPowerW < 100000.0
            && r.peakPowerW == 2.0 * r.avgPowerW
  {
  }
}
