/** The "Send SMS Alert" action: refuse when the location or the phone is
    empty, pick the station nearest to the reference point, classify it,
    build the four-line message and hand it to the SMS client. The distance
    from the reference point (28.63, 77.22) to a station and the printing of
    an AQI value are parameters. */
module Alert {
  import opened Wrappers
  import opened Classifier
  import opened AqiFetch
  import opened Sms

  const AlertPrefix := "AQI Alert - "

  datatype AlertOutcome =
    | MissingInput                       // a warning is shown, nothing is sent
    | NoStation                          // the table is empty: taking its first row fails
    | Attempted(nearest: nat, message: string, sms: SmsAttempt)

  /** Distance of a table row from the reference point. */
  function DistanceOf(s: Station, distance: (real, real) -> real): real {
    distance(s.lat, s.lon)
  }

  /** The first row of the table sorted by distance: a row no farther than
      any other. Which of several equally near rows it is is not promised. */
  method Nearest(table: seq<Station>, distance: (real, real) -> real) returns (k: nat)
    requires table != []
    ensures k < |table|
    ensures forall j :: 0 <= j < |table| ==> DistanceOf(table[k], distance) <= DistanceOf(table[j], distance)
  {
    k := 0;
    var i := 1;
    while i < |table|
      invariant 1 <= i <= |table| && k < i
      invariant forall j :: 0 <= j < i ==> DistanceOf(table[k], distance) <= DistanceOf(table[j], distance)
    {
      if DistanceOf(table[i], distance) < DistanceOf(table[k], distance) {
        k := i;
      }
      i := i + 1;
    }
  }

  /** The four lines of the alert text. */
  function LocationLine(location: string): string {
    AlertPrefix + location
  }

  function ReadingLine(c: Category, aqiText: string): string {
    c.glyph + " AQI: " + aqiText + " (" + c.name + ")"
  }

  function StationLine(station: Station): string {
    "Nearest Station: " + station.stationName
  }

  function AdviceLine(c: Category): string {
    "Health Advice: " + c.advice
  }

  /** The alert text: location; glyph, AQI and label; station name; advice. */
  function AlertMessage(location: string, station: Station, showAqi: real -> string): (m: string)
    ensures StartsWith(m, AlertPrefix + location)
  {
    var c := GetAqiCategory(station.aqi);
    JoinLines(LocationLine(location), ReadingLine(c, showAqi(station.aqi)), StationLine(station), AdviceLine(c))
  }

  function JoinLines(l1: string, l2: string, l3: string, l4: string): string {
    l1 + "\n" + l2 + "\n" + l3 + "\n" + l4
  }

  predicate StartsWith(s: string, prefix: string) {
    |prefix| <= |s| && s[..|prefix|] == prefix
  }

  predicate OccursAt(s: string, part: string, i: nat) {
    i + |part| <= |s| && s[i..i + |part|] == part
  }

  ghost predicate Contains(s: string, part: string) {
    exists i: nat :: OccursAt(s, part, i)
  }

  lemma ContainsMiddle(a: string, x: string, b: string)
    ensures Contains(a + x + b, x)
  {
    var s := a + x + b;
    assert OccursAt(s, x, |a|);
  }

  lemma {:induction false} ContainsTransitive(s: string, x: string, part: string)
    requires Contains(s, x) && Contains(x, part)
    ensures Contains(s, part)
  {
    var i: nat :| OccursAt(s, x, i);
    var j: nat :| OccursAt(x, part, j);
    forall k | 0 <= k < |part| ensures s[i + j + k] == part[k] {
      assert s[i..i + |x|][j + k] == x[j + k];
      assert x[j..j + |part|][k] == part[k];
    }
    assert OccursAt(s, part, i + j);
  }

  /** Each of the four lines can be found in the joined text, the first at
      its start. */
  lemma JoinLinesContains(l1: string, l2: string, l3: string, l4: string)
    ensures StartsWith(JoinLines(l1, l2, l3, l4), l1)
    ensures Contains(JoinLines(l1, l2, l3, l4), l2)
    ensures Contains(JoinLines(l1, l2, l3, l4), l3)
    ensures Contains(JoinLines(l1, l2, l3, l4), l4)
  {
    var nl := "\n";
    var m := JoinLines(l1, l2, l3, l4);
    assert m == l1 + (nl + l2 + nl + l3 + nl + l4);
    assert m == (l1 + nl) + l2 + (nl + l3 + nl + l4);
    ContainsMiddle(l1 + nl, l2, nl + l3 + nl + l4);
    assert m == (l1 + nl + l2 + nl) + l3 + (nl + l4);
    ContainsMiddle(l1 + nl + l2 + nl, l3, nl + l4);
    assert m == (l1 + nl + l2 + nl + l3 + nl) + l4 + [];
    ContainsMiddle(l1 + nl + l2 + nl + l3 + nl, l4, []);
  }

  /** The message opens with the location and carries the label and the
      advice of the station's category and the station's name. */
  lemma AlertMessageContents(location: string, station: Station, showAqi: real -> string)
    ensures StartsWith(AlertMessage(location, station, showAqi), AlertPrefix + location)
    ensures Contains(AlertMessage(location, station, showAqi), GetAqiCategory(station.aqi).name)
    ensures Contains(AlertMessage(location, station, showAqi), GetAqiCategory(station.aqi).advice)
    ensures Contains(AlertMessage(location, station, showAqi), station.stationName)
  {
    var c := GetAqiCategory(station.aqi);
    var m := AlertMessage(location, station, showAqi);
    var l2, l3, l4 := ReadingLine(c, showAqi(station.aqi)), StationLine(station), AdviceLine(c);
    JoinLinesContains(LocationLine(location), l2, l3, l4);
    ContainsMiddle(c.glyph + " AQI: " + showAqi(station.aqi) + " (", c.name, ")");
    ContainsTransitive(m, l2, c.name);
    assert l3 == "Nearest Station: " + station.stationName + [];
    ContainsMiddle("Nearest Station: ", station.stationName, []);
    ContainsTransitive(m, l3, station.stationName);
    assert l4 == "Health Advice: " + c.advice + [];
    ContainsMiddle("Health Advice: ", c.advice, []);
    ContainsTransitive(m, l4, c.advice);
  }

  /** The button handler, after the table has been fetched. */
  method SendAlert(location: string, phone: string, table: seq<Station>,
                   distance: (real, real) -> real, showAqi: real -> string,
                   apiKey: string, reply: GatewayReply)
    returns (outcome: AlertOutcome)
    ensures (location == "" || phone == "") <==> outcome == MissingInput
    ensures location != "" && phone != "" && table == [] ==> outcome == NoStation
    ensures outcome.Attempted? <==> location != "" && phone != "" && table != []
    ensures outcome.Attempted? ==>
              outcome.nearest < |table| &&
              forall j :: 0 <= j < |table| ==>
                DistanceOf(table[outcome.nearest], distance) <= DistanceOf(table[j], distance)
    ensures outcome.Attempted? ==>
              outcome.message == AlertMessage(location, table[outcome.nearest], showAqi) &&
              outcome.sms == SendSms(apiKey, phone, outcome.message, reply)
  {
    if location == "" || phone == "" {
      return MissingInput;
    }
    if table == [] {
      return NoStation;
    }
    var k := Nearest(table, distance);
    var message := AlertMessage(location, table[k], showAqi);
    var sms := SendSms(apiKey, phone, message, reply);
    return Attempted(k, message, sms);
  }

  /** When the alert about a station goes out, the gateway receives that
      message, addressed to the normalised number. */
  lemma SentAlertCarriesMessage(location: string, phone: string, station: Station,
                                showAqi: real -> string, apiKey: string, reply: GatewayReply)
    requires SendSms(apiKey, phone, AlertMessage(location, station, showAqi), reply).request.Some?
    ensures StartsWith(SendSms(apiKey, phone, AlertMessage(location, station, showAqi), reply).request.value.message,
                       AlertPrefix + location)
    ensures Contains(SendSms(apiKey, phone, AlertMessage(location, station, showAqi), reply).request.value.message,
                     GetAqiCategory(station.aqi).advice)
    ensures SendSms(apiKey, phone, AlertMessage(location, station, showAqi), reply).request.value.numbers
              == NormalisePhone(phone)
  {
    AlertMessageContents(location, station, showAqi);
  }
}
