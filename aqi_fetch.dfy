/** The AQI data client without its HTTP: the token and status checks, the
    dropping of rows whose AQI is not numeric, and the per-station name
    lookup with its "Unknown Station" fallback. The bounding-box reply and
    the per-station lookup are parameters. */
module AqiFetch {
  import opened Wrappers

  const MissingToken := "Missing WAQI API token"
  const ApiErrorPrefix := "WAQI API Error: "
  const FetchErrorPrefix := "Error fetching AQI data: "
  const UnknownStation := "Unknown Station"
  /** The text of the `KeyError` raised when an empty payload leaves the
      table without an "aqi" column. */
  const MissingAqiColumn := "'aqi'"

  /** A station as the bounding-box query returns it; `aqi` is `None` when the
      value does not coerce to a number. */
  datatype RawRow = RawRow(uid: int, lat: real, lon: real, aqi: Option<real>)

  /** A row of the returned table. */
  datatype Station = Station(uid: int, lat: real, lon: real, aqi: real, stationName: string)

  /** The bounding-box query: a decoded reply (its status field, its rows and
      its text), or an exception raised by the request or the decoding. */
  datatype WaqiReply = Reply(status: string, rows: seq<RawRow>, body: string) | Raised(reason: string)

  predicate HasAqi(row: RawRow) {
    row.aqi.Some?
  }

  /** The rows whose AQI coerced to a number, in their original order. */
  function KeepNumeric(rows: seq<RawRow>): (kept: seq<RawRow>)
    ensures |kept| <= |rows|
    ensures forall row :: row in kept <==> row in rows && HasAqi(row)
  {
    if rows == [] then []
    else if HasAqi(rows[0]) then [rows[0]] + KeepNumeric(rows[1..])
    else KeepNumeric(rows[1..])
  }

  /** Filtering distributes over concatenation; with the one-row case this
      says the kept rows keep their relative order. */
  lemma {:induction false} KeepNumericAppend(a: seq<RawRow>, b: seq<RawRow>)
    ensures KeepNumeric(a + b) == KeepNumeric(a) + KeepNumeric(b)
  {
    if a == [] {
      assert a + b == b;
    } else {
      assert (a + b)[0] == a[0] && (a + b)[1..] == a[1..] + b;
      KeepNumericAppend(a[1..], b);
    }
  }

  lemma KeepNumericSingle(row: RawRow)
    ensures KeepNumeric([row]) == if HasAqi(row) then [row] else []
  {
  }

  /** The display name of a station: the looked-up name, or the sentinel when
      the lookup failed. */
  function NameOrUnknown(lookup: Option<string>): (name: string)
    ensures lookup.Some? ==> name == lookup.value
    ensures lookup.None? ==> name == UnknownStation
  {
    match lookup
    case Some(n) => n
    case None => UnknownStation
  }

  /** The table row of a kept row and its name. */
  function ToStation(row: RawRow, name: string): (s: Station)
    requires HasAqi(row)
  {
    Station(row.uid, row.lat, row.lon, row.aqi.value, name)
  }

  /** `stations` is the table built from `kept`: one row each, in order, with
      the numeric AQI and the looked-up name or the sentinel. */
  ghost predicate Enriched(stations: seq<Station>, kept: seq<RawRow>, lookup: int -> Option<string>) {
    |stations| == |kept| &&
    forall k :: 0 <= k < |kept| ==>
      HasAqi(kept[k]) && stations[k] == ToStation(kept[k], NameOrUnknown(lookup(kept[k].uid)))
  }

  /** Pairs each kept row with the name at the same position. */
  function AttachNames(kept: seq<RawRow>, names: seq<string>): (stations: seq<Station>)
    requires |names| == |kept| && forall k :: 0 <= k < |kept| ==> HasAqi(kept[k])
    ensures |stations| == |kept|
    ensures forall k :: 0 <= k < |kept| ==> stations[k] == ToStation(kept[k], names[k])
  {
    if kept == [] then []
    else [ToStation(kept[0], names[0])] + AttachNames(kept[1..], names[1..])
  }

  /** Fetches the stations of the bounding box. The token is checked before
      anything else; a reply whose status is not "ok" is an error; an empty
      payload fails on the missing "aqi" column; otherwise the non-numeric rows
      are dropped and each remaining station gets its name, one lookup per
      station, in order. */
  method FetchLiveAqiData(token: string, reply: WaqiReply, lookup: int -> Option<string>)
    returns (result: Result<seq<Station>, string>)
    ensures token == "" ==> result == Failure(MissingToken)
    ensures token != "" && reply.Raised? ==> result == Failure(FetchErrorPrefix + reply.reason)
    ensures token != "" && reply.Reply? && reply.status != "ok" ==>
              result == Failure(ApiErrorPrefix + reply.body)
    ensures token != "" && reply.Reply? && reply.status == "ok" && reply.rows == [] ==>
              result == Failure(FetchErrorPrefix + MissingAqiColumn)
    ensures result.Success? <==> token != "" && reply.Reply? && reply.status == "ok" && reply.rows != []
    ensures result.Success? ==> Enriched(result.value, KeepNumeric(reply.rows), lookup)
  {
    if token == "" {
      return Failure(MissingToken);
    }
    match reply
    case Raised(reason) =>
      return Failure(FetchErrorPrefix + reason);
    case Reply(status, rows, body) =>
      if status != "ok" {
        return Failure(ApiErrorPrefix + body);
      }
      if rows == [] {
        return Failure(FetchErrorPrefix + MissingAqiColumn);
      }
      var kept := KeepNumeric(rows);
      var names: seq<string> := [];
      var i := 0;
      while i < |kept|
        invariant 0 <= i <= |kept|
        invariant |names| == i
        invariant forall k :: 0 <= k < i ==> names[k] == NameOrUnknown(lookup(kept[k].uid))
      {
        var name := NameOrUnknown(lookup(kept[i].uid));
        names := names + [name];
        i := i + 1;
      }
      return Success(AttachNames(kept, names));
  }

  /** The scenario of an "ok" reply with one non-numeric row: that row is not
      in the table, and every table row carries a numeric AQI of some input
      row. */
  lemma FetchDropsNonNumeric(rows: seq<RawRow>, bad: nat, lookup: int -> Option<string>,
                             stations: seq<Station>)
    requires bad < |rows| && !HasAqi(rows[bad])
    requires Enriched(stations, KeepNumeric(rows), lookup)
    ensures rows[bad] !in KeepNumeric(rows)
    ensures forall s :: s in stations ==>
              exists row :: row in rows && row.aqi == Some(s.aqi) && row.uid == s.uid
  {
    var kept := KeepNumeric(rows);
    forall s | s in stations
      ensures exists row :: row in rows && row.aqi == Some(s.aqi) && row.uid == s.uid
    {
      var k :| 0 <= k < |stations| && stations[k] == s;
      assert kept[k] in kept;
    }
  }
}
