/** The prediction engine behind the sliders: five fixed affine regressions,
    one pass of predictions from a single input snapshot, and the clamping of
    every field except the one the user moved. */
module Prediction {
  import opened Optional
  import opened JsMath
  import opened CountryData

  /** The five slider ids. */
  datatype SliderId = LifeExpectancy | AirQuality | WaterQuality | PopulationGrowth | Gdp

  /** The field a prediction holds fixed: a slider, or none (the chart's path). */
  datatype Source = Slider(id: SliderId) | NoSource

  /** `values[id]` */
  function Get(v: CountryStats, id: SliderId): real {
    match id
    case LifeExpectancy => v.lifeExpectancy
    case AirQuality => v.airQuality
    case WaterQuality => v.waterQuality
    case PopulationGrowth => v.populationGrowth
    case Gdp => v.gdp
  }

  /** `{ ...v, [id]: x }`: field `id` becomes `x`, everything else is kept. */
  function Set(v: CountryStats, id: SliderId, x: real): (r: CountryStats)
    ensures Get(r, id) == x
    ensures forall other :: other != id ==> Get(r, other) == Get(v, other)
    ensures r.carbonEmissions == v.carbonEmissions
  {
    match id
    case LifeExpectancy => v.(lifeExpectancy := x)
    case AirQuality => v.(airQuality := x)
    case WaterQuality => v.(waterQuality := x)
    case PopulationGrowth => v.(populationGrowth := x)
    case Gdp => v.(gdp := x)
  }

  function PredictLifeExpectancy(airQuality: real, waterQuality: real, populationGrowth: real, gdp: real): real {
    63.1253 + 0.0128 * airQuality + 0.1642 * waterQuality - 7.9104 * populationGrowth + 0.0003 * gdp
  }

  function PredictAirQuality(lifeExpectancy: real, waterQuality: real, populationGrowth: real, gdp: real): real {
    -1.0948 + 2.8352 * lifeExpectancy + 1.2904 * waterQuality - 26.8613 * populationGrowth - 0.0368 * gdp
  }

  function PredictWaterQuality(lifeExpectancy: real, airQuality: real, populationGrowth: real, gdp: real): real {
    -44.3600 + 1.3270 * lifeExpectancy + 0.0471 * airQuality + 3.3284 * populationGrowth + 0.0025 * gdp
  }

  function PredictPopulationGrowth(lifeExpectancy: real, airQuality: real, waterQuality: real, gdp: real): real {
    6.5226 - 0.0793 * lifeExpectancy - 0.0012 * airQuality + 0.0041 * waterQuality - 0.0001 * gdp
  }

  function PredictGdp(lifeExpectancy: real, airQuality: real, waterQuality: real, populationGrowth: real): real {
    1981.7790 + 35.4615 * lifeExpectancy - 22.9526 * airQuality + 42.3187 * waterQuality - 1064.9488 * populationGrowth
  }

  /** The regression for field `id`, fed from the other four fields of `v`. */
  function Regression(v: CountryStats, id: SliderId): real {
    match id
    case LifeExpectancy => PredictLifeExpectancy(v.airQuality, v.waterQuality, v.populationGrowth, v.gdp)
    case AirQuality => PredictAirQuality(v.lifeExpectancy, v.waterQuality, v.populationGrowth, v.gdp)
    case WaterQuality => PredictWaterQuality(v.lifeExpectancy, v.airQuality, v.populationGrowth, v.gdp)
    case PopulationGrowth => PredictPopulationGrowth(v.lifeExpectancy, v.airQuality, v.waterQuality, v.gdp)
    case Gdp => PredictGdp(v.lifeExpectancy, v.airQuality, v.waterQuality, v.populationGrowth)
  }

  /** No regression reads the field it predicts, nor the carbon value. */
  lemma RegressionIgnoresOwnField(v: CountryStats, id: SliderId, x: real, c: Option<real>)
    ensures Regression(Set(v, id, x), id) == Regression(v, id)
    ensures Regression(v.(carbonEmissions := c), id) == Regression(v, id)
  {
  }

  /** `calculatePredictions`: the source field keeps its value, every other
      field is its regression on the same input; the result has no carbon. */
  function CalculatePredictions(values: CountryStats, source: Source): (r: CountryStats)
    ensures r.carbonEmissions == None
    ensures forall id :: Get(r, id) == if source == Slider(id) then Get(values, id) else Regression(values, id)
  {
    CountryStats(
      if source == Slider(LifeExpectancy) then values.lifeExpectancy else Regression(values, LifeExpectancy),
      if source == Slider(AirQuality) then values.airQuality else Regression(values, AirQuality),
      if source == Slider(WaterQuality) then values.waterQuality else Regression(values, WaterQuality),
      if source == Slider(PopulationGrowth) then values.populationGrowth else Regression(values, PopulationGrowth),
      if source == Slider(Gdp) then values.gdp else Regression(values, Gdp),
      None)
  }

  /** The range each slider allows. */
  function Lo(id: SliderId): real {
    match id
    case LifeExpectancy => 50.0
    case AirQuality => 0.0
    case WaterQuality => 0.0
    case PopulationGrowth => -5.0
    case Gdp => 0.0
  }

  function Hi(id: SliderId): real {
    match id
    case LifeExpectancy => 100.0
    case AirQuality => 100.0
    case WaterQuality => 100.0
    case PopulationGrowth => 5.0
    case Gdp => 150000.0
  }

  /** `Math.max(lo, Math.min(hi, x))` with the range of field `id`. */
  function ClampTo(id: SliderId, x: real): (r: real)
    ensures Lo(id) <= r <= Hi(id)
    ensures Lo(id) <= x <= Hi(id) ==> r == x
    ensures x < Lo(id) ==> r == Lo(id)
    ensures x > Hi(id) ==> r == Hi(id)
  {
    Max(Lo(id), Min(Hi(id), x))
  }

  /** All five slider fields lie in their ranges. */
  predicate InRange(v: CountryStats) {
    forall id :: Lo(id) <= Get(v, id) <= Hi(id)
  }

  /** The slider values the page starts with. */
  const InitialSliderValues := CountryStats(75.0, 50.0, 50.0, 2.0, 25000.0, None)

  /** What `handleSliderChange(id, value)` stores: the moved field exactly as
      given, every other field its clamped regression on the updated vector,
      and the carbon value carried over. */
  function SliderChange(values: CountryStats, id: SliderId, value: real): (r: CountryStats)
    ensures Get(r, id) == value
    ensures forall other :: other != id ==>
      && Get(r, other) == ClampTo(other, Regression(Set(values, id, value), other))
      && Lo(other) <= Get(r, other) <= Hi(other)
    ensures r.carbonEmissions == values.carbonEmissions
  {
    var updated := Set(values, id, value);
    var predicted := CalculatePredictions(updated, Slider(id));
    var pick := (f: SliderId) => if f == id then Get(updated, f) else ClampTo(f, Get(predicted, f));
    CountryStats(pick(LifeExpectancy), pick(AirQuality), pick(WaterQuality),
                 pick(PopulationGrowth), pick(Gdp), updated.carbonEmissions)
  }

  /** A value the slider itself can produce leaves the whole vector in range. */
  lemma SliderChangeInRange(values: CountryStats, id: SliderId, value: real)
    requires Lo(id) <= value <= Hi(id)
    ensures InRange(SliderChange(values, id, value))
  {
  }

  /** When every regression output is already in range, clamping changes
      nothing: the result is the prediction with the carbon value carried over. */
  lemma ClampIsIdentityInRange(values: CountryStats, id: SliderId, value: real)
    requires forall other :: other != id ==>
      Lo(other) <= Regression(Set(values, id, value), other) <= Hi(other)
    ensures SliderChange(values, id, value) ==
      CalculatePredictions(Set(values, id, value), Slider(id)).(carbonEmissions := values.carbonEmissions)
  {
    var r := SliderChange(values, id, value);
    var p := CalculatePredictions(Set(values, id, value), Slider(id)).(carbonEmissions := values.carbonEmissions);
    assert forall f :: Get(r, f) == Get(p, f);
    assert Get(r, LifeExpectancy) == Get(p, LifeExpectancy) && Get(r, AirQuality) == Get(p, AirQuality);
    assert Get(r, WaterQuality) == Get(p, WaterQuality) && Get(r, PopulationGrowth) == Get(p, PopulationGrowth);
    assert Get(r, Gdp) == Get(p, Gdp);
  }

  /** A non-source field's new value does not depend on its own prior value. */
  lemma SliderChangeIgnoresPrior(values: CountryStats, id: SliderId, value: real, other: SliderId, y: real)
    requires other != id
    ensures Get(SliderChange(Set(values, other, y), id, value), other) == Get(SliderChange(values, id, value), other)
  {
    var a := Set(Set(values, other, y), id, value);
    var b := Set(values, id, value);
    assert a == Set(b, other, y) by {
      assert forall f :: Get(a, f) == Get(Set(b, other, y), f);
      assert Get(a, LifeExpectancy) == Get(Set(b, other, y), LifeExpectancy);
      assert Get(a, AirQuality) == Get(Set(b, other, y), AirQuality);
      assert Get(a, WaterQuality) == Get(Set(b, other, y), WaterQuality);
      assert Get(a, PopulationGrowth) == Get(Set(b, other, y), PopulationGrowth);
      assert Get(a, Gdp) == Get(Set(b, other, y), Gdp);
    }
    RegressionIgnoresOwnField(b, other, y, None);
  }

  /** From the initial values, moving life expectancy to 80 gives these values:
      air quality clamps to 0, water quality to 100, the rest are raw outputs. */
  lemma ScenarioLifeExpectancy80()
    ensures SliderChange(InitialSliderValues, LifeExpectancy, 80.0)
      == CountryStats(80.0, 0.0, 100.0, -2.1764, 3657.1064, None)
  {
  }

  /** From the initial values, pushing GDP to its upper bound drives every other
      field's regression out of range, so each lands on one of its bounds. */
  lemma ScenarioGdpAtUpperBound()
    ensures SliderChange(InitialSliderValues, Gdp, 150000.0)
      == CountryStats(100.0, 0.0, 100.0, -5.0, 150000.0, None)
  {
  }

  /** A change is applied in a single pass: repeating the same change moves the
      other fields again, so the result is not a fixed point of the equations. */
  lemma SinglePassIsNotFixedPoint()
    ensures var once := SliderChange(InitialSliderValues, LifeExpectancy, 80.0);
      SliderChange(once, LifeExpectancy, 80.0) != once
  {
    ScenarioLifeExpectancy80();
    var once := CountryStats(80.0, 0.0, 100.0, -2.1764, 3657.1064, None);
    assert Get(SliderChange(once, LifeExpectancy, 80.0), AirQuality) == 100.0;
  }
}
