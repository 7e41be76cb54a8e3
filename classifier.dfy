/** The AQI classifier: a numeric AQI is mapped to one of six fixed
    (label, glyph, advice) triples by testing the upper bounds
    50, 100, 150, 200 and 300 in order, each inclusively. */
module Classifier {

  datatype Category = Category(name: string, glyph: string, advice: string)

  const Good := Category("Good", "\U{1F7E2}", "Air quality is ideal.")
  const Moderate := Category("Moderate", "\U{1F7E1}", "Acceptable air quality.")
  const SensitiveGroups := Category("Unhealthy for Sensitive Groups", "\U{1F7E0}",
                                    "Sensitive groups should reduce activity.")
  const Unhealthy := Category("Unhealthy", "\U{1F534}", "General public should reduce outdoor activity.")
  const VeryUnhealthy := Category("Very Unhealthy", "\U{1F7E3}", "Everyone may experience health effects.")
  const Hazardous := Category("Hazardous", "\U{26AB}", "Avoid going outdoors.")

  /** The six bands, from least to most severe. */
  const Bands: seq<Category> := [Good, Moderate, SensitiveGroups, Unhealthy, VeryUnhealthy, Hazardous]

  /** Inclusive upper bounds of the first five bands; the sixth is unbounded. */
  const UpperBounds: seq<real> := [50.0, 100.0, 150.0, 200.0, 300.0]

  /** The classifier as the application writes it: a chain of inclusive tests. */
  function GetAqiCategory(aqi: real): (c: Category)
    ensures c in Bands
  {
    if aqi <= 50.0 then Good
    else if aqi <= 100.0 then Moderate
    else if aqi <= 150.0 then SensitiveGroups
    else if aqi <= 200.0 then Unhealthy
    else if aqi <= 300.0 then VeryUnhealthy
    else Hazardous
  }

  /** Reference definition: the position of the first bound that is at least
      `aqi`, or `|bounds|` when every bound is below it. */
  function FirstBoundAtLeast(aqi: real, bounds: seq<real>): (i: nat)
    ensures i <= |bounds|
    ensures forall j :: 0 <= j < i ==> bounds[j] < aqi
    ensures i < |bounds| ==> aqi <= bounds[i]
  {
    if bounds == [] then 0
    else if aqi <= bounds[0] then 0
    else 1 + FirstBoundAtLeast(aqi, bounds[1..])
  }

  /** The band index of an AQI value: 0 for "Good" up to 5 for "Hazardous". */
  function BandIndex(aqi: real): (i: nat)
    ensures i < |Bands|
  {
    FirstBoundAtLeast(aqi, UpperBounds)
  }

  /** No two bands share a triple, so a triple determines its band. */
  lemma BandsDistinct(i: nat, j: nat)
    requires i < |Bands| && j < |Bands| && Bands[i] == Bands[j]
    ensures i == j
  {
    assert Bands[i].name == Bands[j].name;
  }

  /** The if-chain picks the band of the first bound that is at least the AQI. */
  lemma ClassifierIsFirstBound(aqi: real)
    ensures GetAqiCategory(aqi) == Bands[BandIndex(aqi)]
  {
    var i := BandIndex(aqi);
    var b := UpperBounds;
    assert b[0] == 50.0 && b[1] == 100.0 && b[2] == 150.0 && b[3] == 200.0 && b[4] == 300.0;
    if i < 5 {
      assert aqi <= b[i];
    }
    if i > 0 {
      assert b[i - 1] < aqi;
    }
  }

  /** The six bands partition the real line: the triple at position `i` is
      returned exactly for the values above bound `i - 1` and at most bound `i`
      (no lower limit for "Good", no upper limit for "Hazardous"). */
  lemma BandBoundaries(aqi: real, i: nat)
    requires i < |Bands|
    ensures GetAqiCategory(aqi) == Bands[i] <==>
              (i == 0 || UpperBounds[i - 1] < aqi) && (i == 5 || aqi <= UpperBounds[i])
  {
    ClassifierIsFirstBound(aqi);
    var k := BandIndex(aqi);
    if GetAqiCategory(aqi) == Bands[i] {
      BandsDistinct(i, k);
    }
  }

  /** Everything at or below 50, negative values included, is "Good". */
  lemma LowValuesAreGood(aqi: real)
    requires aqi <= 50.0
    ensures GetAqiCategory(aqi).name == "Good"
  {
  }

  /** A larger AQI never has an earlier first bound: the contract of
      `FirstBoundAtLeast` already rules it out. */
  lemma FirstBoundMonotone(a: real, b: real, bounds: seq<real>)
    requires a <= b
    ensures FirstBoundAtLeast(a, bounds) <= FirstBoundAtLeast(b, bounds)
  {
  }

  /** Classification is monotone: a larger AQI never lands in a milder band. */
  lemma ClassifierMonotone(a: real, b: real, i: nat, j: nat)
    requires a <= b
    requires i < |Bands| && GetAqiCategory(a) == Bands[i]
    requires j < |Bands| && GetAqiCategory(b) == Bands[j]
    ensures i <= j
  {
    ClassifierIsFirstBound(a);
    ClassifierIsFirstBound(b);
    BandsDistinct(i, BandIndex(a));
    BandsDistinct(j, BandIndex(b));
    FirstBoundMonotone(a, b, UpperBounds);
  }

  /** Values at the band edges: each band includes its upper bound and
      excludes its lower one. */
  lemma BoundaryExamples()
    ensures GetAqiCategory(50.0).name == "Good"
    ensures GetAqiCategory(50.0001).name == "Moderate"
    ensures GetAqiCategory(300.0).name == "Very Unhealthy"
    ensures GetAqiCategory(300.0001).name == "Hazardous"
    ensures GetAqiCategory(40.0).name == "Good"
    ensures GetAqiCategory(160.0).name == "Unhealthy"
    ensures GetAqiCategory(310.0).name == "Hazardous"
  {
  }
}
