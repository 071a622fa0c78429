/**
 The process model of the %DS (percent dry solids) dewatering loop: pure
 functions that turn the operator's measurements (flour humidity, densities,
 flow rates) into derived process quantities. Quantities are mathematical
 reals; floating-point rounding is not modelled.
 */
module ProcessModel {

  /** Reference density of the TQ3 water stream (kg/m³), the default of the
      `rho_tq3` parameter, which no caller ever overrides. */
  const WaterDensity: real := 998.0

  /** Flour density corrected for its humidity: the dry fraction of the base
      density. */
  function CorrectFlourDensity(baseDensity: real, humidityPercent: real): (rho: real)
    ensures humidityPercent == 0.0 ==> rho == baseDensity
    ensures humidityPercent == 100.0 ==> rho == 0.0
    ensures 0.0 < baseDensity && humidityPercent < 100.0 ==> 0.0 < rho
    ensures 0.0 <= humidityPercent ==> 0.0 <= baseDensity ==> rho <= baseDensity
  {
    baseDensity * (1.0 - humidityPercent / 100.0)
  }

  /** For a positive base density, a wetter flour is strictly lighter. */
  lemma CorrectFlourDensityDecreasing(baseDensity: real, h1: real, h2: real)
    requires 0.0 < baseDensity
    requires h1 < h2
    ensures CorrectFlourDensity(baseDensity, h2) < CorrectFlourDensity(baseDensity, h1)
  {
    var gap := CorrectFlourDensity(baseDensity, h1) - CorrectFlourDensity(baseDensity, h2);
    assert gap == baseDensity * ((h2 - h1) / 100.0);
    PositiveProduct(baseDensity, (h2 - h1) / 100.0);
    assert 0.0 < gap;
  }

  /** The operator form's defaults (base 1250 kg/m³, humidity 11 %) give a
      corrected density of exactly 1112.5 kg/m³. */
  lemma CorrectFlourDensityDefaults()
    ensures CorrectFlourDensity(1250.0, 11.0) == 1112.5
  {
  }

  /** %DS of a mixture, by linear interpolation of its density between the
      water density (0 %) and the corrected flour density (100 %). The source
      does not guard the division: a flour density equal to the water density
      is excluded here and handled by the caller. */
  function EstimateDS(mixtureDensity: real, flourDensity: real): (ds: real)
    requires flourDensity != WaterDensity
    ensures ds * (flourDensity - WaterDensity) == (mixtureDensity - WaterDensity) * 100.0
    ensures mixtureDensity == WaterDensity ==> ds == 0.0
    ensures mixtureDensity == flourDensity ==> ds == 100.0
  {
    var gap := flourDensity - WaterDensity;
    assert mixtureDensity == flourDensity ==> (mixtureDensity - WaterDensity) / gap == 1.0;
    (mixtureDensity - WaterDensity) / gap * 100.0
  }

  /** The density a mixture with the given %DS has: the inverse of
      `EstimateDS`. */
  function MixtureDensityFor(ds: real, flourDensity: real): (rho: real)
    ensures ds == 0.0 ==> rho == WaterDensity
    ensures ds == 100.0 ==> rho == flourDensity
  {
    WaterDensity + ds * (flourDensity - WaterDensity) / 100.0
  }

  /** `EstimateDS` and `MixtureDensityFor` are inverse to each other, in both
      directions, for every admissible flour density. */
  lemma EstimateDSRoundTrip(mixtureDensity: real, ds: real, flourDensity: real)
    requires flourDensity != WaterDensity
    ensures MixtureDensityFor(EstimateDS(mixtureDensity, flourDensity), flourDensity) == mixtureDensity
    ensures EstimateDS(MixtureDensityFor(ds, flourDensity), flourDensity) == ds
  {
  }

  /** A mixture density between water and a flour heavier than water gives a
      %DS between 0 and 100. */
  lemma EstimateDSWithinRange(mixtureDensity: real, flourDensity: real)
    requires WaterDensity < flourDensity
    requires WaterDensity <= mixtureDensity <= flourDensity
    ensures 0.0 <= EstimateDS(mixtureDensity, flourDensity) <= 100.0
  {
  }

  /** With flour heavier than water, a denser mixture has a higher %DS. */
  lemma EstimateDSMonotone(rho1: real, rho2: real, flourDensity: real)
    requires WaterDensity < flourDensity
    requires rho1 < rho2
    ensures EstimateDS(rho1, flourDensity) < EstimateDS(rho2, flourDensity)
  {
    var gap := flourDensity - WaterDensity;
    var d1 := EstimateDS(rho1, flourDensity);
    var d2 := EstimateDS(rho2, flourDensity);
    assert d1 * gap == (rho1 - WaterDensity) * 100.0;
    assert d2 * gap == (rho2 - WaterDensity) * 100.0;
    var diff := d2 - d1;
    assert diff * gap == d2 * gap - d1 * gap;
    assert diff * gap == (rho2 - rho1) * 100.0;
    PositiveFactor(diff, gap);
  }

  /** The product of two positive reals is positive. */
  lemma PositiveProduct(a: real, b: real)
    requires 0.0 < a && 0.0 < b
    ensures 0.0 < a * b
  {
  }

  /** A product that is positive with a positive factor has a positive
      co-factor. */
  lemma PositiveFactor(a: real, b: real)
    requires 0.0 < b && 0.0 < a * b
    ensures 0.0 < a
  {
  }

  /** Mass flow of dry solids (kg/h) carried by a stream of the given flow and
      %DS. */
  function SolidsFlow(flow: real, ds: real): real
  {
    flow * ds / 100.0
  }

  /** Solids lost between the mixture stream and the stage-2 stream: solids in
      minus solids out. A negative result (a net gain) is a valid output. */
  function EstimateSolidsLoss(flow1: real, ds1: real, flow2: real, ds2: real): (loss: real)
    ensures loss + SolidsFlow(flow2, ds2) == SolidsFlow(flow1, ds1)
  {
    flow1 * ds1 / 100.0 - flow2 * ds2 / 100.0
  }

  /** Swapping the two (flow, %DS) pairs negates the loss; equal pairs lose
      nothing. */
  lemma SolidsLossAntisymmetric(flow1: real, ds1: real, flow2: real, ds2: real)
    ensures EstimateSolidsLoss(flow2, ds2, flow1, ds1) == -EstimateSolidsLoss(flow1, ds1, flow2, ds2)
    ensures EstimateSolidsLoss(flow1, ds1, flow1, ds1) == 0.0
  {
  }

  /** Losses over consecutive stages add up: the loss from A to C is the loss
      from A to B plus the loss from B to C. */
  lemma SolidsLossChains(fa: real, da: real, fb: real, db: real, fc: real, dc: real)
    ensures EstimateSolidsLoss(fa, da, fc, dc)
         == EstimateSolidsLoss(fa, da, fb, db) + EstimateSolidsLoss(fb, db, fc, dc)
  {
  }

  /** The loss can be negative: a stage-2 stream that carries more solids than
      the mixture stream shows a net gain. */
  lemma SolidsLossCanBeNegative()
    ensures EstimateSolidsLoss(4900.0, 40.0, 5000.0, 90.0) < 0.0
  {
  }
}
