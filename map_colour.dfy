/** The fill colour of a station's marker on the map: a three-way threshold
    rule on the AQI, coarser than the classifier's six bands. */
module MapColour {
  import opened Classifier

  /** RGB triples as the map layer receives them. */
  const Red: seq<int> := [255, 0, 0]
  const Orange: seq<int> := [255, 165, 0]
  const Green: seq<int> := [0, 200, 0]

  function AqiColour(aqi: real): (rgb: seq<int>)
    ensures rgb in {Red, Orange, Green}
  {
    if aqi > 200.0 then Red else if aqi > 150.0 then Orange else Green
  }

  /** The colour rule, both directions of each threshold, and its agreement
      with the classifier: red is exactly "Very Unhealthy" or "Hazardous",
      orange exactly "Unhealthy", green exactly the three mildest bands. */
  lemma ColourMatchesCategory(aqi: real)
    ensures AqiColour(aqi) == Red <==> aqi > 200.0
    ensures AqiColour(aqi) == Orange <==> 150.0 < aqi <= 200.0
    ensures AqiColour(aqi) == Green <==> aqi <= 150.0
    ensures AqiColour(aqi) == Red <==> GetAqiCategory(aqi) in {VeryUnhealthy, Hazardous}
    ensures AqiColour(aqi) == Orange <==> GetAqiCategory(aqi) == Unhealthy
    ensures AqiColour(aqi) == Green <==> GetAqiCategory(aqi) in {Good, Moderate, SensitiveGroups}
  {
    assert Red[1] != Orange[1] && Orange[0] != Green[0] && Red[0] != Green[0];
  }

  /** In terms of band indices: red covers bands 4 and 5, orange band 3,
      green bands 0 to 2. */
  lemma ColourByBandIndex(aqi: real)
    ensures AqiColour(aqi) == Red <==> BandIndex(aqi) >= 4
    ensures AqiColour(aqi) == Orange <==> BandIndex(aqi) == 3
    ensures AqiColour(aqi) == Green <==> BandIndex(aqi) <= 2
  {
    ColourMatchesCategory(aqi);
    ClassifierIsFirstBound(aqi);
    var k := BandIndex(aqi);
    if AqiColour(aqi) == Red {
      BandBoundaries(aqi, 4);
      BandBoundaries(aqi, 5);
    } else if AqiColour(aqi) == Orange {
      BandBoundaries(aqi, 3);
    } else {
      BandBoundaries(aqi, 0);
      BandBoundaries(aqi, 1);
      BandBoundaries(aqi, 2);
    }
    assert Red[1] != Orange[1] && Orange[0] != Green[0] && Red[0] != Green[0];
    assert Bands[k] == GetAqiCategory(aqi);
  }
}
