/**
 * The catalog client of the viewer (frontend/src/services/exoplanetApi.ts):
 * the temperature-to-colour classifiers, the display-name fallback, the
 * solar-radii conversion, and the module-level store of custom planets that
 * the listing and the detail lookup consult before the built-in mock catalog.
 */
module Catalog {
  import opened Wrappers

  /** A catalog summary: `kepler_name` is JavaScript `null` when absent. */
  datatype ListItem = ListItem(kepler_name: Option<string>, kepoi_name: string)

  /** The physical record of one planet; `stellar_temperature` is an optional property. */
  datatype Details = Details(
    kepoi_name: string,
    kepler_name: Option<string>,
    orbital_period: real,
    planet_radius: real,
    stellar_radius: real,
    orbital_radius: real,
    temperature: real,
    stellar_temperature: Option<real>)

  // ---------------------------------------------------------------------
  // Display name
  // ---------------------------------------------------------------------

  /** `kepler_name || kepoi_name`: both `null` and the empty string are falsy. */
  function DisplayName(kepler_name: Option<string>, kepoi_name: string): (r: string)
    ensures kepler_name.Some? && kepler_name.value != "" ==> r == kepler_name.value
    ensures kepler_name.None? || kepler_name.value == "" ==> r == kepoi_name
    ensures r != "" || kepoi_name == ""
  {
    if kepler_name.Some? && kepler_name.value != "" then kepler_name.value else kepoi_name
  }

  // ---------------------------------------------------------------------
  // Colour classifiers
  // ---------------------------------------------------------------------

  /** Number of cut points of the ascending list `cuts` that lie at or below `t`. */
  function CutsAtOrBelow(cuts: seq<real>, t: real): (n: nat)
    ensures n <= |cuts|
  {
    if cuts == [] then 0
    else (if cuts[0] <= t then 1 else 0) + CutsAtOrBelow(cuts[1..], t)
  }

  /** Star colour cut points, coolest first. */
  const StarCuts: seq<real> := [3500.0, 5000.0, 6000.0, 7500.0, 10000.0]
  /** Star colours, one per bucket, coolest first. */
  const StarPalette: seq<string> := ["#FF6B35", "#FF4444", "#FF8800", "#FFDD00", "#FFFFFF", "#66AAFF"]

  /** Planet colour cut points, coldest first (the source tests them hottest first with `>=`). */
  const PlanetCuts: seq<real> := [100.0, 200.0, 400.0, 700.0, 1000.0, 1500.0, 2000.0]
  /** Planet colours, one per bucket, coldest first. */
  const PlanetPalette: seq<string> :=
    ["#b0c4de", "#87ceeb", "#4169e1", "#90ee90", "#ffff00", "#ffa500", "#ff6347", "#ff4500"]

  function TemperatureToStarColor(temperature: real): string
  {
    if temperature < 3500.0 then "#FF6B35"
    else if temperature < 5000.0 then "#FF4444"
    else if temperature < 6000.0 then "#FF8800"
    else if temperature < 7500.0 then "#FFDD00"
    else if temperature < 10000.0 then "#FFFFFF"
    else "#66AAFF"
  }

  function TemperatureToPlanetColor(temperature: real): string
  {
    if temperature >= 2000.0 then "#ff4500"
    else if temperature >= 1500.0 then "#ff6347"
    else if temperature >= 1000.0 then "#ffa500"
    else if temperature >= 700.0 then "#ffff00"
    else if temperature >= 400.0 then "#90ee90"
    else if temperature >= 200.0 then "#4169e1"
    else if temperature >= 100.0 then "#87ceeb"
    else "#b0c4de"
  }

  /** The bucket of a temperature is the number of cut points at or below it. */
  function StarBucket(t: real): (b: nat)
    ensures b < |StarPalette|
  {
    CutsAtOrBelow(StarCuts, t)
  }

  function PlanetBucket(t: real): (b: nat)
    ensures b < |PlanetPalette|
  {
    CutsAtOrBelow(PlanetCuts, t)
  }

  /** Counting is monotonic in the temperature, for any list of cut points. */
  lemma {:induction false} CutsAtOrBelowMonotonic(cuts: seq<real>, t1: real, t2: real)
    requires t1 <= t2
    ensures CutsAtOrBelow(cuts, t1) <= CutsAtOrBelow(cuts, t2)
  {
    if cuts != [] {
      CutsAtOrBelowMonotonic(cuts[1..], t1, t2);
    }
  }

  ghost predicate Ascending(cuts: seq<real>) {
    forall i, j :: 0 <= i < j < |cuts| ==> cuts[i] < cuts[j]
  }

  /** For ascending cut points the count splits the list: exactly the first `n` cut
      points lie at or below `t`, so `t` sits in `[cuts[n-1], cuts[n])`. */
  lemma {:induction false} CutsAtOrBelowSplits(cuts: seq<real>, t: real)
    requires Ascending(cuts)
    ensures forall i :: 0 <= i < |cuts| ==> (i < CutsAtOrBelow(cuts, t) <==> cuts[i] <= t)
  {
    if cuts != [] {
      CutsAtOrBelowSplits(cuts[1..], t);
      forall i | 0 <= i < |cuts|
        ensures i < CutsAtOrBelow(cuts, t) <==> cuts[i] <= t
      {
        if i > 0 {
          assert cuts[1..][i - 1] == cuts[i];
        } else if cuts[0] > t && |cuts| > 1 {
          assert cuts[1..][0] == cuts[1];
        }
      }
    }
  }

  /** The if-chain agrees with the bucket reference: every temperature, a cut value
      included, falls in exactly one bucket, and a cut value opens the higher bucket. */
  lemma StarColorIsBucketColor(t: real)
    ensures TemperatureToStarColor(t) == StarPalette[StarBucket(t)]
  {
    CutsAtOrBelowSplits(StarCuts, t);
    var n := StarBucket(t);
    assert 0 < n <==> 3500.0 <= t by { assert StarCuts[0] == 3500.0; }
    assert 1 < n <==> 5000.0 <= t by { assert StarCuts[1] == 5000.0; }
    assert 2 < n <==> 6000.0 <= t by { assert StarCuts[2] == 6000.0; }
    assert 3 < n <==> 7500.0 <= t by { assert StarCuts[3] == 7500.0; }
    assert 4 < n <==> 10000.0 <= t by { assert StarCuts[4] == 10000.0; }
  }

  lemma PlanetColorIsBucketColor(t: real)
    ensures TemperatureToPlanetColor(t) == PlanetPalette[PlanetBucket(t)]
  {
    CutsAtOrBelowSplits(PlanetCuts, t);
    var n := PlanetBucket(t);
    assert 0 < n <==> 100.0 <= t by { assert PlanetCuts[0] == 100.0; }
    assert 1 < n <==> 200.0 <= t by { assert PlanetCuts[1] == 200.0; }
    assert 2 < n <==> 400.0 <= t by { assert PlanetCuts[2] == 400.0; }
    assert 3 < n <==> 700.0 <= t by { assert PlanetCuts[3] == 700.0; }
    assert 4 < n <==> 1000.0 <= t by { assert PlanetCuts[4] == 1000.0; }
    assert 5 < n <==> 1500.0 <= t by { assert PlanetCuts[5] == 1500.0; }
    assert 6 < n <==> 2000.0 <= t by { assert PlanetCuts[6] == 2000.0; }
  }

  /** Hotter never means a cooler bucket. */
  lemma StarBucketMonotonic(t1: real, t2: real)
    requires t1 <= t2
    ensures StarBucket(t1) <= StarBucket(t2)
  {
    CutsAtOrBelowMonotonic(StarCuts, t1, t2);
  }

  lemma PlanetBucketMonotonic(t1: real, t2: real)
    requires t1 <= t2
    ensures PlanetBucket(t1) <= PlanetBucket(t2)
  {
    CutsAtOrBelowMonotonic(PlanetCuts, t1, t2);
  }

  /** Distinct buckets have distinct colours, so the colour determines the bucket. */
  lemma StarColorsDistinguishBuckets(t1: real, t2: real)
    ensures TemperatureToStarColor(t1) == TemperatureToStarColor(t2) <==> StarBucket(t1) == StarBucket(t2)
  {
    StarColorIsBucketColor(t1);
    StarColorIsBucketColor(t2);
  }

  lemma PlanetColorsDistinguishBuckets(t1: real, t2: real)
    ensures TemperatureToPlanetColor(t1) == TemperatureToPlanetColor(t2) <==> PlanetBucket(t1) == PlanetBucket(t2)
  {
    PlanetColorIsBucketColor(t1);
    PlanetColorIsBucketColor(t2);
  }

  // ---------------------------------------------------------------------
  // Unit conversion
  // ---------------------------------------------------------------------

  /** One astronomical unit is taken as 215 solar radii. */
  function SolarRadiiToAU(solarRadii: real): (au: real)
    ensures au * 215.0 == solarRadii
  {
    solarRadii / 215.0
  }

  lemma SolarRadiiToAUStrictlyIncreasing(r1: real, r2: real)
    requires r1 < r2
    ensures SolarRadiiToAU(0.0) == 0.0
    ensures SolarRadiiToAU(r1) < SolarRadiiToAU(r2)
  {
  }

  // ---------------------------------------------------------------------
  // The built-in catalog
  // ---------------------------------------------------------------------

  const MockList: seq<ListItem> := [
    ListItem(Some("Kepler-442b"), "K00282.01"),
    ListItem(Some("Kepler-438b"), "K00268.01"),
    ListItem(Some("Kepler-186f"), "K00571.05"),
    ListItem(Some("Kepler-62e"), "K00701.03"),
    ListItem(Some("Kepler-22b"), "K00087.01"),
    ListItem(Some("Kepler-452b"), "K07016.01"),
    ListItem(Some("Kepler-1649c"), "K07554.01"),
    ListItem(None, "K00123.02"),
    ListItem(Some("Kepler-296e"), "K00117.02"),
    ListItem(Some("Kepler-283c"), "K00408.02")
  ]

  const MockDetails: map<string, Details> := map[
    "K00282.01" := Details("K00282.01", Some("Kepler-442b"), 112.3, 1.34, 0.61, 0.409, 233.0, Some(4402.0)),
    "K00268.01" := Details("K00268.01", Some("Kepler-438b"), 35.2, 1.12, 0.54, 0.166, 276.0, Some(3952.0)),
    "K00571.05" := Details("K00571.05", Some("Kepler-186f"), 129.9, 1.11, 0.47, 0.432, 188.0, Some(3788.0)),
    "K00701.03" := Details("K00701.03", Some("Kepler-62e"), 122.4, 1.61, 0.69, 0.427, 270.0, Some(4925.0)),
    "K00087.01" := Details("K00087.01", Some("Kepler-22b"), 289.9, 2.38, 0.97, 0.849, 262.0, Some(5518.0)),
    "K07016.01" := Details("K07016.01", Some("Kepler-452b"), 384.8, 1.63, 1.11, 1.046, 265.0, Some(5757.0)),
    "K07554.01" := Details("K07554.01", Some("Kepler-1649c"), 19.5, 1.06, 0.20, 0.0649, 234.0, Some(3240.0)),
    "K00123.02" := Details("K00123.02", None, 45.7, 0.89, 0.82, 0.201, 315.0, Some(5297.0)),
    "K00117.02" := Details("K00117.02", Some("Kepler-296e"), 34.1, 1.75, 0.50, 0.169, 292.0, Some(3740.0)),
    "K00408.02" := Details("K00408.02", Some("Kepler-283c"), 92.7, 1.84, 0.63, 0.348, 254.0, Some(4544.0))
  ]

  /** Every mock record is filed under its own id. */
  lemma MockDetailsFiledUnderOwnId()
    ensures forall id :: id in MockDetails ==> MockDetails[id].kepoi_name == id
  {
  }

  /** `customPlanetDetails[id] || mockExoplanetDetails[id] || null`: a details object is
      always truthy, so the custom entry wins whenever the key is present. */
  function LookupDetails(custom: map<string, Details>, mock: map<string, Details>, id: string): (r: Option<Details>)
    ensures id in custom ==> r == Some(custom[id])
    ensures id !in custom && id in mock ==> r == Some(mock[id])
    ensures r.None? <==> id !in custom && id !in mock
  {
    if id in custom then Some(custom[id])
    else if id in mock then Some(mock[id])
    else None
  }

  /**
   * The module-level custom-planet store: `customPlanets` (newest first) and
   * `customPlanetDetails` (id to record).
   */
  class CustomStore {
    var customPlanets: seq<ListItem>
    var customPlanetDetails: map<string, Details>

    /** Every stored record is filed under its own id. */
    ghost predicate Valid()
      reads this
    {
      forall id :: id in customPlanetDetails ==> customPlanetDetails[id].kepoi_name == id
    }

    /** Both start empty when the module is loaded. */
    constructor ()
      ensures Valid()
      ensures customPlanets == [] && customPlanetDetails == map[]
    {
      customPlanets := [];
      customPlanetDetails := map[];
    }

    /** The listing: the custom items newest first, then the ten mock items in order. */
    function ListPlanets(): (r: seq<ListItem>)
      reads this
      ensures |r| == |customPlanets| + |MockList|
      ensures r[..|customPlanets|] == customPlanets && r[|customPlanets|..] == MockList
    {
      customPlanets + MockList
    }

    /** Detail lookup: custom store first, then the mock catalog, else `null`. */
    function FetchDetails(id: string): (r: Option<Details>)
      reads this
      ensures id in customPlanetDetails ==> r == Some(customPlanetDetails[id])
      ensures id !in customPlanetDetails ==> r == LookupDetails(map[], MockDetails, id)
      ensures Valid() && r.Some? ==> r.value.kepoi_name == id
    {
      MockDetailsFiledUnderOwnId();
      LookupDetails(customPlanetDetails, MockDetails, id)
    }

    /** `unshift` of the summary item, then the id is mapped to the record. */
    method AddCustomPlanet(d: Details)
      modifies this
      ensures old(Valid()) ==> Valid()
      ensures customPlanets == [ListItem(d.kepler_name, d.kepoi_name)] + old(customPlanets)
      ensures customPlanetDetails == old(customPlanetDetails)[d.kepoi_name := d]
      ensures ListPlanets()[0] == ListItem(d.kepler_name, d.kepoi_name)
      ensures ListPlanets()[1..] == old(ListPlanets())
      ensures FetchDetails(d.kepoi_name) == Some(d)
      ensures forall id :: id != d.kepoi_name ==> FetchDetails(id) == old(FetchDetails(id))
    {
      customPlanets := [ListItem(d.kepler_name, d.kepoi_name)] + customPlanets;
      customPlanetDetails := customPlanetDetails[d.kepoi_name := d];
    }
  }
}
