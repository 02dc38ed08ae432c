# Satellite water shield: physics engine model

A Dafny model of the calculation engine of the H2O satellite water shield
(`water_shield.py`). A mass of water serves two purposes. It shields against
galactic cosmic rays, and it stores heat that is cycled between sunlight and
eclipse to generate electrical power. The engine turns an immutable
configuration into engineering figures. The orbit gives the sunlight/eclipse
split. The radiation shield gives the attenuation factor and the dose record.
The thermal cycle manager gives the stored heat and the absorption and
rejection rates. The power generator gives per-orbit, average, peak and daily
electrical output. The aggregator merges all of these into one status record.

Every part of the engine is a straight-line computation over values that are
never changed after construction. The model therefore uses datatypes for the
records and calculators, and functions and lemmas for the calculations. There
is one module per part:

- `Configuration` (configuration.dfy): `OrbitalParameters`, `WaterShieldConfig` and their defaults.
- `Exponential` (exponential.dfy): what is assumed of `math.exp`.
- `Radiation` (radiation.dfy): `RadiationShield`.
- `Thermal` (thermal.dfy): `ThermalCycleManager`.
- `Power` (power.dfy): `PowerGenerator`.
- `WaterShield` (water_shield.dfy): `SatelliteWaterShield`.

Python floats are modelled as Dafny `real`. Every formula is therefore exact,
and the tests' approximate equalities become exact equalities.

**The exponential.** Dafny's reals have no `exp`. Each member that calls
`math.exp` takes the function as a parameter `exp: real -> real`. The
predicate `Exponential.IsExpLike` states everything assumed about it:
- it is positive;
- `exp(0) == 1`;
- it is strictly increasing.

Every property that needs these laws has `IsExpLike(exp)` as a hypothesis:
either a `requires`, or the left side of an implication in an `ensures`.
`Exponential.ExpLikeIsConsistent` shows a function that satisfies all three
laws, so a lemma that assumes them is not vacuous.

**Sharing.** In the source, the aggregator hands one configuration object and
one orbit object to its three calculators. The model passes them by value.
The predicate `WaterShield.Wired` states that every calculator holds the
aggregator's own configuration and orbit, and that the power generator uses
the aggregator's thermal manager. `NewSatelliteWaterShield` establishes it.

**Preconditions and hypotheses.** Python raises `ZeroDivisionError` only when
the orbital period is exactly zero (water_shield.py:213), so the model
requires `orbitalPeriodMin != 0.0`. The positivity and monotonicity lemmas
additionally assume a positive period. Positive efficiency, mass and specific
heat alone do not make the power output positive. The stored heat must be
positive too: the latent heat is non-negative, and either it is positive or
the specific heat is positive and the two temperatures differ.

## Model

| member | source | states |
|---|---|---|
| Configuration.SunlightDurationMin | water_shield.py:26-29 | for an eclipse fraction in [0,1] and a non-negative period, the sunlight time lies in [0, period]; for a positive period it is the whole period exactly when there is no eclipse |
| Configuration.EclipseDurationMin | water_shield.py:31-34 | for an eclipse fraction in [0,1] and a non-negative period, the eclipse time lies in [0, period]; for a positive period it is zero exactly when the eclipse fraction is zero |
| Configuration.DurationsPartitionPeriod | water_shield.py:26-34 | sunlight plus eclipse duration equals the orbital period exactly, for every orbit |
| Configuration.NinetyMinuteOrbitDurations | test_water_shield.py:26-30 | a 90-minute orbit with 40 % eclipse has 54 minutes of sunlight and 36 of eclipse |
| Exponential.ExpLikeIsConsistent | water_shield.py:73 | the three laws assumed of `exp` (positive, 1 at 0, strictly increasing) are satisfied by some function, so they are consistent |
| Radiation.CalculateShieldingFactor | water_shield.py:65-74 | given the exp laws: the factor is positive; it is below 1 exactly when the thickness is positive; and it is 1 exactly when the thickness is zero |
| Radiation.ShieldingFactorStrictlyDecreasing | water_shield.py:65-74 | given the exp laws, a strictly thicker shield has a strictly smaller factor |
| Radiation.CalculateEffectiveDoseReduction | water_shield.py:76-97 | the record's factor is the shield's factor; unshielded dose = 0.5 mSv/day times days; shielded = unshielded times the factor; reduction = (1 - factor) times 100, so shielded = unshielded times (1 - reduction/100). Given the exp laws and thickness >= 0: reduction in [0,100), and it is positive exactly when thickness > 0. With days >= 0: 0 <= shielded <= unshielded. With days > 0 and thickness > 0: shielded < unshielded |
| Radiation.DefaultThirtyDayDose | water_shield.py:86-97 | default shield over 30 days: unshielded dose is 15 mSv, shielded dose is strictly between 0 and 15, reduction is strictly between 0 and 100 % |
| Thermal.CalculateThermalEnergyCapacity | water_shield.py:107-131 | total MJ = sensible + latent exactly; kWh = MJ / 3.6; sensible >= 0 for mass and specific heat >= 0; latent = mass times latent heat; total > 0 when the mass is positive and some heat is stored |
| Thermal.CapacitySymmetricInTemperatures | water_shield.py:115-118 | swapping the hot and cold temperatures leaves the whole capacity record unchanged |
| Thermal.LatentHeatIndependentOfTemperatures | water_shield.py:121 | latent heat does not depend on either temperature |
| Thermal.CapacityProportionalToMass | water_shield.py:115-131 | scaling the water mass by k scales all four capacity figures by k |
| Thermal.DefaultThermalCapacity | water_shield.py:115-129 | default config: sensible heat 293.02 MJ, latent heat 334 MJ, total 627.02 MJ, and 300 < total < 1000 |
| Thermal.CalculateHeatAbsorptionRate | water_shield.py:133-152 | absorbed power is positive when irradiance, area and absorptivity are positive. With non-negative irradiance and area and an absorptivity in [0,1], it lies between 0 and the incident power S·A |
| Thermal.DefaultAbsorptionRate | water_shield.py:151 | with the default arguments, 20 m2 absorb 19054 W, which is below 50 kW |
| Thermal.AvgTempK | water_shield.py:173-174 | the mean temperature in kelvin lies between the two operating temperatures in kelvin |
| Thermal.CalculateHeatRejectionRate | water_shield.py:154-179 | for positive emissivity and area, the rejection rate is positive exactly when Tavg^4 > Tspace^4, and zero exactly when they are equal |
| Thermal.RejectionPositiveExactlyWhenWarmerThanSpace | water_shield.py:172-179 | for positive emissivity and area, with both temperatures non-negative in kelvin, the rejection rate is positive exactly when the shield's mean temperature exceeds the temperature of space |
| Thermal.DefaultRejectionPositive | water_shield.py:154-179 | with the default config and arguments (288.15 K against 3 K), the rejection rate is positive |
| Power.CalculatePowerOutputPerOrbit | water_shield.py:195-225 | energy per orbit = the thermal manager's total kWh times the efficiency; average power times the orbit's seconds = that energy; peak = 2 times average; daily energy times period = energy per orbit times 1440; daily kWh times 1000 = average W times 24; the efficiency is echoed |
| Power.PowerOutputPositive | water_shield.py:202-225 | for a positive period, a positive efficiency, a positive mass and positive stored heat, all four power figures are positive |
| Power.PowerStrictlyIncreasingInEfficiency | water_shield.py:202-225 | for a fixed thermal manager with positive capacity and a positive period, a strictly higher efficiency gives strictly more energy per orbit, average, peak and daily energy |
| Power.DefaultPowerOutput | water_shield.py:202-225 | the default system averages 94053000/5520 W (about 17 kW), which lies between 1 W and 100 kW; peak is twice that |
| WaterShield.NewSatelliteWaterShield | water_shield.py:231-249 | the built system is wired; a given config or orbit is kept, and a missing one takes its defaults; the generator holds the given efficiency |
| WaterShield.GetSystemStatus | water_shield.py:251-287 | the orbit section is the system's altitude and period with the orbit's own sunlight and eclipse durations, which sum to the period; the shield section echoes the configuration; the dose, capacity and power sections are the calculators' outputs; the rates are the default-argument watt rates divided by 1000 |
| WaterShield.WiredStatusIsConsistent | water_shield.py:243-287 | in a wired system, power converts exactly the reported capacity over the reported period. The dose factor is the exponential of the reported thickness. Given the exp laws, with thickness and days non-negative, the shielded dose is at most the unshielded dose |
| WaterShield.WiredSystemIsConstructed | water_shield.py:231-249 | every wired system is the one the constructor builds from its own config, orbit and efficiency; since the status is a function of the system and the exposure, it depends on those values alone and repeated calls agree |
| WaterShield.DefaultSystemStatus | water_shield.py:251-287 | default system over 30 days: altitude 400, mass 1000, unshielded dose 15, positive reduction, 627.02 MJ, 19.054 kW absorbed, positive rejection, 1 W < average power < 100 kW |

## Left out

- `SatelliteWaterShield.print_system_report` (water_shield.py:289-340): console formatting only; it adds no computation.
- The web routes in app.py and the demonstration script example.py: presentation and I/O over the engine.
- IEEE-754 rounding: figures are exact reals.
- The numeric values of `math.exp`. Only its three laws are available, so figures such as a factor of 0.2231 or a reduction of 77.7 % are not derived.
- `math.exp` overflow. A very negative shield thickness raises `OverflowError` in the source, and the model has no such error.
- Radiation.CalculateShieldingFactor: its contract holds only under `IsExpLike(exp)` and says nothing for other `exp` arguments, because the real exponential cannot be defined here.
- Default keyword arguments. Dafny has no default parameters here. `exposure_days=1.0` of `calculate_effective_dose_reduction` and `exposure_days=30.0` of `get_system_status` are explicit parameters; the second is the constant `DefaultExposureDays`. The efficiency default 0.15 of `SatelliteWaterShield` and `PowerGenerator` is the constant `DefaultPowerEfficiency`, passed explicitly. The rate defaults (1361 W/m2, 0.7, 3 K, 0.95) are constants that `GetSystemStatus` passes. Per-field dataclass defaults such as `WaterShieldConfig(water_mass_kg=500.0)` are written as updates of the default record, `DefaultWaterShieldConfig.(waterMassKg := 500.0)`.
- Object identity and aliasing. Configurations are values, not shared references; the `Wired` predicate states the sharing instead. Python would let a caller reassign a dataclass field after construction. The source never does this, and the model does not capture it.
- `altitude_km`: carried into the status record only; no formula uses it.
- Input validation: the source has none (mass, area, efficiency in (0,1], hot > cold). The model has none either; properties that need such conditions state them as hypotheses.
