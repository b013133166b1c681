/** The baseline store: a constant table of per-country indicators, a lookup
    that never fails, the derivation of a missing carbon value, and the list of
    country names. */
module CountryData {
  import opened Optional
  import opened JsMath
  import opened JsString

  /** One country's indicators. `carbonEmissions` is an optional property. */
  datatype CountryStats = CountryStats(
    lifeExpectancy: real,            // years
    airQuality: real,                // index, higher is better
    waterQuality: real,              // index, higher is better
    populationGrowth: real,          // percent
    gdp: real,                       // USD per capita
    carbonEmissions: Option<real>)   // metric tons of CO2 per capita

  /** A representative part of the table of baselines, entry by entry in the
      order the object literal lists them. */
  const Rows: seq<(string, CountryStats)> := [
    ("United States", CountryStats(78.9, 68.0, 82.0, 0.5, 76398.0, Some(14.9))),
    ("Canada", CountryStats(82.3, 79.0, 88.0, 0.9, 54966.0, Some(14.2))),
    ("Mexico", CountryStats(75.1, 45.0, 65.0, 0.9, 11497.0, Some(3.7))),
    ("Brazil", CountryStats(75.9, 52.0, 68.0, 0.6, 10412.0, Some(2.2))),
    ("Germany", CountryStats(81.3, 64.0, 88.0, -0.1, 51204.0, Some(7.9))),
    ("Nigeria", CountryStats(54.7, 28.0, 38.0, 2.5, 2184.0, Some(0.6))),
    ("Niger", CountryStats(62.4, 38.0, 40.0, 3.8, 590.0, Some(0.1))),
    ("Japan", CountryStats(84.8, 72.0, 90.0, -0.5, 33815.0, Some(8.5))),
    ("India", CountryStats(70.4, 28.0, 48.0, 0.8, 2389.0, Some(1.9)))
  ]

  /** The object an object literal builds: every entry's key is present, and
      each key maps to the record of one of its entries; `LastEntryWins` says
      which one. */
  function TableOf(rows: seq<(string, CountryStats)>): (r: map<string, CountryStats>)
    ensures forall i :: 0 <= i < |rows| ==> rows[i].0 in r
    ensures forall n :: n in r ==> exists i :: 0 <= i < |rows| && rows[i] == (n, r[n])
  {
    if rows == [] then map[]
    else
      var init, last := rows[..|rows| - 1], rows[|rows| - 1];
      var r := TableOf(init)[last.0 := last.1];
      assert forall i :: 0 <= i < |init| ==> rows[i] == init[i];
      r
  }

  /** A later entry overrides an earlier one: a key maps to the record of the
      last entry that has it. */
  lemma {:induction false} LastEntryWins(rows: seq<(string, CountryStats)>, i: int)
    requires 0 <= i < |rows|
    requires forall j :: i < j < |rows| ==> rows[j].0 != rows[i].0
    ensures TableOf(rows)[rows[i].0] == rows[i].1
  {
    if i < |rows| - 1 {
      var init := rows[..|rows| - 1];
      assert init[i] == rows[i];
      forall j | i < j < |init| ensures init[j].0 != init[i].0 {
        assert init[j] == rows[j];
      }
      LastEntryWins(init, i);
    }
  }

  /** `countryData` */
  const CountryTable: map<string, CountryStats> := TableOf(Rows)

  /** The record an unknown name falls back to. */
  const DefaultStats := CountryStats(75.0, 50.0, 50.0, 2.0, 25000.0, Some(5.0))

  /** The affine carbon-emissions equation over the five primary indicators. */
  function CarbonFormula(s: CountryStats): real {
    2772.8667 + 70.3028 * s.lifeExpectancy + 0.0762 * s.airQuality
    - 1.2057 * s.waterQuality - 281.6896 * s.populationGrowth - 0.1628 * s.gdp
  }

  /** The five primary indicators of `a` and `b` agree. */
  predicate SamePrimary(a: CountryStats, b: CountryStats) {
    && a.lifeExpectancy == b.lifeExpectancy && a.airQuality == b.airQuality
    && a.waterQuality == b.waterQuality && a.populationGrowth == b.populationGrowth
    && a.gdp == b.gdp
  }

  /** `getCountryData` over a table given as a parameter: the record stored for
      `name` or the default, with carbon filled in from the equation, floored
      at 0, when the record has none. */
  function GetCountryDataIn(table: map<string, CountryStats>, name: string): (r: CountryStats)
    ensures r.carbonEmissions.Some?
    ensures name !in table ==> r == DefaultStats
    ensures name in table && table[name].carbonEmissions.Some? ==> r == table[name]
    ensures name in table ==> SamePrimary(r, table[name])
    ensures name in table && table[name].carbonEmissions.None? ==>
      && r.carbonEmissions.value >= 0.0
      && (CarbonFormula(table[name]) >= 0.0 ==> r.carbonEmissions.value == CarbonFormula(table[name]))
      && (CarbonFormula(table[name]) < 0.0 ==> r.carbonEmissions.value == 0.0)
  {
    var data := if name in table then table[name] else DefaultStats;
    if data.carbonEmissions.None? then
      data.(carbonEmissions := Some(Max(0.0, CarbonFormula(data))))
    else
      data
  }

  /** Every row of the shipped table stores its carbon value. */
  lemma EveryRowHasCarbon()
    ensures forall n :: n in CountryTable ==> CountryTable[n].carbonEmissions.Some?
  {
    assert forall i :: 0 <= i < |Rows| ==> Rows[i].1.carbonEmissions.Some?;
  }

  /** `getCountryData`: total over all strings; a listed country gets its row
      unchanged, any other name the default. */
  function GetCountryData(name: string): (r: CountryStats)
    ensures r.carbonEmissions.Some?
    ensures name in CountryTable ==> r == CountryTable[name]
    ensures name !in CountryTable ==> r == DefaultStats
  {
    EveryRowHasCarbon();
    GetCountryDataIn(CountryTable, name)
  }

  /** `getAvailableCountries`: the table's keys, each once, ascending. */
  function GetAvailableCountries(): (r: seq<string>)
    ensures |r| == |CountryTable.Keys|
    ensures forall n :: n in r <==> n in CountryTable
    ensures forall i, j :: 0 <= i < j < |r| ==> LexLeq(r[i], r[j]) && r[i] != r[j]
  {
    SortedSeq(CountryTable.Keys)
  }

  /** A name taken from the list always finds its own row, never the default. */
  lemma ListedCountriesHaveRecords(i: nat)
    requires i < |GetAvailableCountries()|
    ensures GetAvailableCountries()[i] in CountryTable
    ensures GetCountryData(GetAvailableCountries()[i]) == CountryTable[GetAvailableCountries()[i]]
  {
    assert GetAvailableCountries()[i] in GetAvailableCountries();
  }

  /** "Niger" sorts before "Nigeria": a proper prefix comes first. */
  lemma PrefixSortsFirst()
    ensures LexLeq("Niger", "Nigeria") && !LexLeq("Nigeria", "Niger")
  {
  }
}
