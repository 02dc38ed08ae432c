/** Radiation protection by the water shield: exponential attenuation of the
    galactic cosmic ray dose by the shield's thickness. */
module Radiation {
  import opened Exponential
  import opened Configuration

  /** Galactic cosmic ray dose rate without shielding, in mSv per day. */
  const GcrFluxMsvPerDay: real := 0.5

  /** Attenuation coefficient of water, per cm. */
  const WaterAttenuationRate: real := 0.15

  /** A stateless calculator over one shield configuration. */
  datatype RadiationShield = RadiationShield(config: WaterShieldConfig)

  /** The dose record of one exposure period. */
  datatype DoseReduction = DoseReduction(
    unshieldedDoseMsv: real,
    shieldedDoseMsv: real,
    reductionPercent: real,
    shieldingFactor: real)

  /** Fraction of the incident dose that passes the shield, `exp(-0.15 * thickness)`.
      It is 1 exactly for no shield, below 1 exactly for a shield of positive
      thickness, and always positive. */
  function CalculateShieldingFactor(s: RadiationShield, exp: real -> real): (r: real)
    ensures IsExpLike(exp) ==> r > 0.0
    ensures IsExpLike(exp) ==> (r < 1.0 <==> s.config.shieldThicknessCm > 0.0)
    ensures IsExpLike(exp) ==> (r == 1.0 <==> s.config.shieldThicknessCm == 0.0)
  {
    exp(-WaterAttenuationRate * s.config.shieldThicknessCm)
  }

  /** A thicker shield lets strictly less radiation through. */
  lemma ShieldingFactorStrictlyDecreasing(thin: RadiationShield, thick: RadiationShield, exp: real -> real)
    requires IsExpLike(exp)
    requires thin.config.shieldThicknessCm < thick.config.shieldThicknessCm
    ensures CalculateShieldingFactor(thick, exp) < CalculateShieldingFactor(thin, exp)
  {
    var a := -WaterAttenuationRate * thick.config.shieldThicknessCm;
    var b := -WaterAttenuationRate * thin.config.shieldThicknessCm;
    assert a < b;
    assert exp(a) < exp(b);
  }

  /** The dose over `exposureDays` without and with the shield.  The record's
      factor is the shield's factor; the shielded dose is the unshielded dose
      scaled by that factor, the reduction is the blocked fraction in percent,
      and so the shielded dose is the unshielded one less the reduction; for a shield of non-negative thickness and a
      non-negative exposure the shield never adds dose, and a shield of
      positive thickness removes some of any positive dose. */
  function CalculateEffectiveDoseReduction(s: RadiationShield, exposureDays: real, exp: real -> real)
    : (r: DoseReduction)
    ensures r.shieldingFactor == CalculateShieldingFactor(s, exp)
    ensures r.unshieldedDoseMsv == GcrFluxMsvPerDay * exposureDays
    ensures r.shieldedDoseMsv == r.unshieldedDoseMsv * r.shieldingFactor
    ensures r.reductionPercent == (1.0 - r.shieldingFactor) * 100.0
    ensures r.shieldedDoseMsv == r.unshieldedDoseMsv * (1.0 - r.reductionPercent / 100.0)
    ensures IsExpLike(exp) && s.config.shieldThicknessCm >= 0.0 ==>
              0.0 <= r.reductionPercent < 100.0
    ensures IsExpLike(exp) ==>
              (r.reductionPercent > 0.0 <==> s.config.shieldThicknessCm > 0.0)
    ensures IsExpLike(exp) && s.config.shieldThicknessCm >= 0.0 && exposureDays >= 0.0 ==>
              0.0 <= r.shieldedDoseMsv <= r.unshieldedDoseMsv
    ensures IsExpLike(exp) && s.config.shieldThicknessCm > 0.0 && exposureDays > 0.0 ==>
              r.shieldedDoseMsv < r.unshieldedDoseMsv
  {
    var shieldingFactor := CalculateShieldingFactor(s, exp);
    var unshieldedDoseMsv := GcrFluxMsvPerDay * exposureDays;
    var shieldedDoseMsv := unshieldedDoseMsv * shieldingFactor;
    var reductionPercent := (1.0 - shieldingFactor) * 100.0;
    DoseReduction(unshieldedDoseMsv, shieldedDoseMsv, reductionPercent, shieldingFactor)
  }

  /** The defaults over 30 days: 15 mSv unshielded, and the 10 cm shield
      reduces it to something strictly between 0 and 15 mSv. */
  lemma DefaultThirtyDayDose(exp: real -> real)
    requires IsExpLike(exp)
    ensures CalculateEffectiveDoseReduction(RadiationShield(DefaultWaterShieldConfig), 30.0, exp).unshieldedDoseMsv == 15.0
    ensures 0.0 < CalculateEffectiveDoseReduction(RadiationShield(DefaultWaterShieldConfig), 30.0, exp).shieldedDoseMsv < 15.0
    ensures 0.0 < CalculateEffectiveDoseReduction(RadiationShield(DefaultWaterShieldConfig), 30.0, exp).reductionPercent < 100.0
  {
  }
}
