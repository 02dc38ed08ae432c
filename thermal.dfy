/** Thermal cycling of the water mass: how much heat one hot/cold cycle
    stores, and the rates at which the shield absorbs sunlight and radiates
    heat to space. */
module Thermal {
  import opened Configuration

  /** Joules per megajoule and per kilowatt-hour. */
  const JoulesPerMj: real := 1000000.0
  const JoulesPerKwh: real := 3600000.0

  /** Offset from degrees Celsius to kelvin. */
  const CelsiusToKelvin: real := 273.15

  /** Stefan-Boltzmann constant, W/(m2 K4). */
  const StefanBoltzmann: real := 0.0000000567

  /** The default arguments of the two rate calculations. */
  const DefaultSolarConstantWm2: real := 1361.0
  const DefaultAbsorptionCoefficient: real := 0.7
  const DefaultSpaceTempK: real := 3.0
  const DefaultEmissivity: real := 0.95

  /** A stateless calculator over the shield configuration and the orbit. */
  datatype ThermalCycleManager = ThermalCycleManager(config: WaterShieldConfig, orbitalParams: OrbitalParameters)

  /** Heat stored by one full cycle, in MJ, and the total again in kWh. */
  datatype ThermalCapacity = ThermalCapacity(
    sensibleHeatMj: real,
    latentHeatMj: real,
    totalCapacityMj: real,
    totalCapacityKwh: real)

  function Abs(x: real): (r: real)
    ensures r >= 0.0 && (r == x || r == -x)
  {
    if x < 0.0 then -x else x
  }

  function Pow4(x: real): real {
    x * x * x * x
  }

  /** The fourth power is strictly increasing on the non-negative reals. */
  lemma Pow4StrictlyIncreasing(a: real, b: real)
    requires 0.0 <= a < b
    ensures Pow4(a) < Pow4(b)
  {
    SquareStrictlyIncreasing(a, b);
    SquareStrictlyIncreasing(a * a, b * b);
    assert Pow4(a) == (a * a) * (a * a) && Pow4(b) == (b * b) * (b * b);
  }

  lemma SquareStrictlyIncreasing(a: real, b: real)
    requires 0.0 <= a < b
    ensures a * a < b * b
  {
    var aa, ab, bb := a * a, a * b, b * b;
    assert aa <= ab;
    assert ab < bb;
  }

  /** A fraction of the power falling on a non-negative area is between zero and all of it. */
  lemma FractionOfIncident(s: real, a: real, f: real)
    ensures s >= 0.0 && a >= 0.0 && 0.0 <= f <= 1.0 ==> 0.0 <= s * a * f <= s * a
  {
    if s >= 0.0 && a >= 0.0 && 0.0 <= f <= 1.0 {
      var p := s * a;
      assert p >= 0.0;
      var q := p * f;
      assert q >= 0.0;
      assert p - q == p * (1.0 - f);
    }
  }

  /** Sensible heat over the temperature swing plus latent heat of melting the
      whole mass once.  The total is the sum of the two parts and is the same
      energy in kWh; the sensible part is non-negative for non-negative mass
      and specific heat; and the total is positive when some part of a
      non-negative configuration is. */
  function CalculateThermalEnergyCapacity(tm: ThermalCycleManager): (r: ThermalCapacity)
    ensures r.totalCapacityMj == r.sensibleHeatMj + r.latentHeatMj
    ensures r.totalCapacityKwh * 3.6 == r.totalCapacityMj
    ensures tm.config.waterMassKg >= 0.0 && tm.config.specificHeatCapacity >= 0.0 ==>
              r.sensibleHeatMj >= 0.0
    ensures r.latentHeatMj * JoulesPerMj == tm.config.waterMassKg * tm.config.latentHeatFusion
    ensures var c := tm.config;
            c.waterMassKg > 0.0 && c.specificHeatCapacity >= 0.0 && c.latentHeatFusion >= 0.0 &&
            (c.latentHeatFusion > 0.0 || (c.specificHeatCapacity > 0.0 && c.hotTempCelsius != c.coldTempCelsius))
            ==> r.totalCapacityMj > 0.0
  {
    var c := tm.config;
    var tempDeltaK := Abs(c.hotTempCelsius - c.coldTempCelsius);
    var sensibleHeatJ := c.waterMassKg * c.specificHeatCapacity * tempDeltaK;
    var latentHeatJ := c.waterMassKg * c.latentHeatFusion;
    var totalCapacityJ := sensibleHeatJ + latentHeatJ;
    ThermalCapacity(sensibleHeatJ / JoulesPerMj, latentHeatJ / JoulesPerMj,
                    totalCapacityJ / JoulesPerMj, totalCapacityJ / JoulesPerKwh)
  }

  /** Only the size of the temperature swing matters: exchanging the hot and
      cold temperatures leaves the whole capacity record unchanged. */
  lemma CapacitySymmetricInTemperatures(tm: ThermalCycleManager)
    ensures var swapped := tm.config.(hotTempCelsius := tm.config.coldTempCelsius,
                                      coldTempCelsius := tm.config.hotTempCelsius);
            CalculateThermalEnergyCapacity(tm.(config := swapped)) == CalculateThermalEnergyCapacity(tm)
  {
  }

  /** The latent part does not depend on the temperatures at all. */
  lemma LatentHeatIndependentOfTemperatures(tm: ThermalCycleManager, hot: real, cold: real)
    ensures var other := tm.config.(hotTempCelsius := hot, coldTempCelsius := cold);
            CalculateThermalEnergyCapacity(tm.(config := other)).latentHeatMj
              == CalculateThermalEnergyCapacity(tm).latentHeatMj
  {
  }

  /** Every figure of the capacity record is proportional to the water mass. */
  lemma CapacityProportionalToMass(tm: ThermalCycleManager, k: real)
    ensures var scaled := CalculateThermalEnergyCapacity(tm.(config := tm.config.(waterMassKg := k * tm.config.waterMassKg)));
            var base := CalculateThermalEnergyCapacity(tm);
            && scaled.sensibleHeatMj == k * base.sensibleHeatMj
            && scaled.latentHeatMj == k * base.latentHeatMj
            && scaled.totalCapacityMj == k * base.totalCapacityMj
            && scaled.totalCapacityKwh == k * base.totalCapacityKwh
  {
  }

  /** One tonne of water cycled between 50 and -20 degrees stores 293.02 MJ of
      sensible and 334 MJ of latent heat, 627.02 MJ in all. */
  lemma DefaultThermalCapacity(o: OrbitalParameters)
    ensures var cap := CalculateThermalEnergyCapacity(ThermalCycleManager(DefaultWaterShieldConfig, o));
            && cap.sensibleHeatMj == 293.02
            && cap.latentHeatMj == 334.0
            && cap.totalCapacityMj == 627.02
            && 300.0 < cap.totalCapacityMj < 1000.0
  {
  }

  /** Power absorbed from sunlight, in W.  It is positive when irradiance, area
      and absorptivity are, and never more than the power incident on the area
      when the absorptivity is a fraction. */
  function CalculateHeatAbsorptionRate(tm: ThermalCycleManager, solarConstantWm2: real, absorptionCoefficient: real)
    : (r: real)
    ensures solarConstantWm2 > 0.0 && tm.config.surfaceAreaM2 > 0.0 && absorptionCoefficient > 0.0 ==> r > 0.0
    ensures solarConstantWm2 >= 0.0 && tm.config.surfaceAreaM2 >= 0.0 && 0.0 <= absorptionCoefficient <= 1.0 ==>
              0.0 <= r <= solarConstantWm2 * tm.config.surfaceAreaM2
  {
    FractionOfIncident(solarConstantWm2, tm.config.surfaceAreaM2, absorptionCoefficient);
    solarConstantWm2 * tm.config.surfaceAreaM2 * absorptionCoefficient
  }

  /** With the default arguments, 20 m2 absorb 19054 W, below 50 kW. */
  lemma DefaultAbsorptionRate(o: OrbitalParameters)
    ensures var r := CalculateHeatAbsorptionRate(ThermalCycleManager(DefaultWaterShieldConfig, o),
                                                 DefaultSolarConstantWm2, DefaultAbsorptionCoefficient);
            r == 19054.0 && r < 50000.0
  {
  }

  /** Mean of the hot and cold temperatures, in kelvin; it lies between the two. */
  function AvgTempK(c: WaterShieldConfig): (r: real)
    ensures c.coldTempCelsius <= c.hotTempCelsius ==>
              c.coldTempCelsius + CelsiusToKelvin <= r <= c.hotTempCelsius + CelsiusToKelvin
    ensures c.hotTempCelsius <= c.coldTempCelsius ==>
              c.hotTempCelsius + CelsiusToKelvin <= r <= c.coldTempCelsius + CelsiusToKelvin
  {
    (c.hotTempCelsius + CelsiusToKelvin + c.coldTempCelsius + CelsiusToKelvin) / 2.0
  }

  /** Net power radiated to space by the Stefan-Boltzmann law, in W.  For a
      positive emissivity and area it is positive, zero or negative exactly as
      the fourth power of the mean temperature exceeds, equals or falls short
      of that of space. */
  function CalculateHeatRejectionRate(tm: ThermalCycleManager, spaceTempK: real, emissivity: real): (r: real)
    ensures emissivity > 0.0 && tm.config.surfaceAreaM2 > 0.0 ==>
              && (r > 0.0 <==> Pow4(AvgTempK(tm.config)) > Pow4(spaceTempK))
              && (r == 0.0 <==> Pow4(AvgTempK(tm.config)) == Pow4(spaceTempK))
  {
    var avgTempK := AvgTempK(tm.config);
    var k := emissivity * StefanBoltzmann * tm.config.surfaceAreaM2;
    var d := Pow4(avgTempK) - Pow4(spaceTempK);
    assert emissivity > 0.0 && tm.config.surfaceAreaM2 > 0.0 ==> k > 0.0;
    k * d
  }

  /** In kelvin (both temperatures non-negative) the shield radiates a
      positive net power exactly when it is warmer than space. */
  lemma RejectionPositiveExactlyWhenWarmerThanSpace(tm: ThermalCycleManager, spaceTempK: real, emissivity: real)
    requires emissivity > 0.0 && tm.config.surfaceAreaM2 > 0.0
    requires AvgTempK(tm.config) >= 0.0 && spaceTempK >= 0.0
    ensures CalculateHeatRejectionRate(tm, spaceTempK, emissivity) > 0.0 <==> AvgTempK(tm.config) > spaceTempK
  {
    var t := AvgTempK(tm.config);
    if t > spaceTempK {
      Pow4StrictlyIncreasing(spaceTempK, t);
    } else if t < spaceTempK {
      Pow4StrictlyIncreasing(t, spaceTempK);
    }
  }

  /** With the defaults (a mean of 288.15 K against 3 K space) the shield
      rejects heat. */
  lemma DefaultRejectionPositive(o: OrbitalParameters)
    ensures CalculateHeatRejectionRate(ThermalCycleManager(DefaultWaterShieldConfig, o),
                                       DefaultSpaceTempK, DefaultEmissivity) > 0.0
  {
    RejectionPositiveExactlyWhenWarmerThanSpace(ThermalCycleManager(DefaultWaterShieldConfig, o),
                                               DefaultSpaceTempK, DefaultEmissivity);
  }
}
