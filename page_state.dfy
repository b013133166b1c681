/** The state of the map page: the selected country, the slider values and
    whether the side menu is open, with the two handlers that change them. */
module PageState {
  import opened Optional
  import opened JsMath
  import opened CountryData
  import opened Prediction
  import opened JsString

  /** Every row of the shipped table is within the slider ranges. */
  lemma TableInRange()
    ensures forall n :: n in CountryTable ==> InRange(CountryTable[n])
  {
    forall i | 0 <= i < |Rows| ensures InRange(Rows[i].1) {
      forall id ensures Lo(id) <= Get(Rows[i].1, id) <= Hi(id) {
        match id
        case LifeExpectancy =>
        case AirQuality =>
        case WaterQuality =>
        case PopulationGrowth =>
        case Gdp =>
      }
    }
  }

  /** Whatever the lookup returns, a row or the default, is within the slider
      ranges. */
  lemma BaselinesInRange(name: string)
    ensures InRange(GetCountryData(name))
  {
    TableInRange();
  }

  class Home {
    var menuOpen: bool
    var selectedCountry: Option<string>
    var sliderValues: CountryStats

    /** The page's initial state: default values without carbon, nothing
        selected, menu closed. */
    constructor ()
      ensures !menuOpen && selectedCountry == None
      ensures sliderValues == InitialSliderValues && InRange(sliderValues)
    {
      menuOpen := false;
      selectedCountry := None;
      sliderValues := InitialSliderValues;
    }

    /** `handleCountrySelect`: a truthy name selects that country, loads its
        baseline and opens the menu; null or "" changes nothing. */
    method HandleCountrySelect(countryName: Option<string>)
      modifies this
      ensures Truthy(countryName) ==>
        && selectedCountry == countryName
        && sliderValues == GetCountryData(countryName.value)
        && menuOpen
      ensures !Truthy(countryName) ==>
        && selectedCountry == old(selectedCountry)
        && sliderValues == old(sliderValues)
        && menuOpen == old(menuOpen)
      ensures InRange(old(sliderValues)) ==> InRange(sliderValues)
    {
      if countryName.Some? && countryName.value != "" {
        selectedCountry := countryName;
        var countryStats := GetCountryData(countryName.value);
        BaselinesInRange(countryName.value);
        sliderValues := countryStats;
        menuOpen := true;
      }
    }

    /** `handleSliderChange`: write the new value, predict from the updated
        vector, then clamp every field but the moved one into its range. */
    method HandleSliderChange(sliderId: SliderId, value: real)
      modifies this`sliderValues
      ensures sliderValues == SliderChange(old(sliderValues), sliderId, value)
      ensures Get(sliderValues, sliderId) == value
      ensures sliderValues.carbonEmissions == old(sliderValues).carbonEmissions
      ensures Lo(sliderId) <= value <= Hi(sliderId) ==> InRange(sliderValues)
    {
      var updatedValues := Set(sliderValues, sliderId, value);
      var predicted := CalculatePredictions(updatedValues, Slider(sliderId));
      var finalValues := updatedValues;
      if sliderId != LifeExpectancy {
        finalValues := finalValues.(lifeExpectancy := Max(50.0, Min(100.0, predicted.lifeExpectancy)));
      }
      if sliderId != AirQuality {
        finalValues := finalValues.(airQuality := Max(0.0, Min(100.0, predicted.airQuality)));
      }
      if sliderId != WaterQuality {
        finalValues := finalValues.(waterQuality := Max(0.0, Min(100.0, predicted.waterQuality)));
      }
      if sliderId != PopulationGrowth {
        finalValues := finalValues.(populationGrowth := Max(-5.0, Min(5.0, predicted.populationGrowth)));
      }
      if sliderId != Gdp {
        finalValues := finalValues.(gdp := Max(0.0, Min(150000.0, predicted.gdp)));
      }
      sliderValues := finalValues;
      if Lo(sliderId) <= value <= Hi(sliderId) {
        SliderChangeInRange(old(sliderValues), sliderId, value);
      }
    }
  }
}
