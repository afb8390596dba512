/** Normalisation of the USGS realtime GeoJSON feeds (earthquake events and
    seismic stations) into flat records. Decoded JSON comes in as `Json`;
    a structural problem that makes the Python code raise (a `.get` on a
    non-object, an index past the end of the coordinates, a timestamp out of
    `datetime` range) comes out as `Failure`. */
module UsgsFeeds {
  import opened Basics
  import opened JsonValues
  import opened DateTimes

  datatype UsgsMeta = UsgsMeta(generated: Option<DateTime>, title: Json, api: Json, count: Json)

  datatype UsgsEvent = UsgsEvent(
    eventId: Json,
    time: Option<DateTime>,
    latitude: Json,
    longitude: Json,
    depthKm: Json,
    magnitude: Json,
    magnitudeType: Json,
    place: Json,
    status: Json,
    eventType: Json,
    detailUrl: Json)

  datatype UsgsEventCollection = UsgsEventCollection(metadata: UsgsMeta, events: seq<UsgsEvent>)

  datatype UsgsStation = UsgsStation(
    stationId: Json,
    network: Json,
    code: Json,
    name: Json,
    latitude: Json,
    longitude: Json,
    elevationM: Json,
    startTime: Option<DateTime>,
    endTime: Option<DateTime>)

  datatype UsgsStationCollection = UsgsStationCollection(metadata: UsgsMeta, stations: seq<UsgsStation>)

  // ---------------------------------------------------------------------------
  // Timestamps

  /** Python's `round()` of a real: to the nearest integer, ties to the even one. */
  function RoundHalfEven(x: real): (n: int)
    ensures n as real - 0.5 <= x <= n as real + 0.5
    ensures (x == n as real - 0.5 || x == n as real + 0.5) ==> n % 2 == 0
  {
    var f := x.Floor;
    var frac := x - f as real;
    if frac < 0.5 then f
    else if frac > 0.5 then f + 1
    else if f % 2 == 0 then f
    else f + 1
  }

  /** The instant `us` microseconds after the epoch (the feed's milliseconds
      already scaled and rounded); a failure outside the years 1 to 9999. */
  function FromMicros(us: int): (r: Result<Option<DateTime>>)
    ensures r.Ok? <==> MinEpochMicros <= us <= MaxEpochMicros
    ensures r.Ok? ==> r.value.Some? && EpochMicros(r.value.value) == us
  {
    match FromEpochMicros(us)
    case None => Failure("year is out of range")
    case Some(t) => Ok(Some(t))
  }

  /** `_to_datetime`: numbers (booleans included) are milliseconds since the
      epoch and fail when out of range; a non-empty string is read as an ISO
      timestamp after turning `Z` into `+00:00`, and is None when that fails;
      everything else is None. */
  function ToDateTime(value: Json): (r: Result<Option<DateTime>>)
    ensures r.Failure? ==> value.JInt? || value.JReal? || value.JBool?
    ensures value.JInt? ==>
      (r.Ok? <==> MinEpochMicros <= value.i * 1000 <= MaxEpochMicros)
      && (r.Ok? ==> r.value.Some? && EpochMicros(r.value.value) == value.i * 1000)
    ensures value.JReal? ==>
      (r.Ok? <==> MinEpochMicros <= RoundHalfEven(value.r * 1000.0) <= MaxEpochMicros)
      && (r.Ok? ==> r.value.Some? && EpochMicros(r.value.value) == RoundHalfEven(value.r * 1000.0))
    ensures value.JBool? ==> r.Ok? && r.value.Some?
    ensures value.JStr? ==> r.Ok? && (r.value.Some? <==> value.s != "" && ParseIso(ReplaceZ(value.s)).Some?)
    ensures value.JStr? && r.value.Some? ==> r.value == ParseIso(ReplaceZ(value.s))
    ensures value.JNull? || value.JArr? || value.JObj? ==> r == Ok(None)
  {
    match value
    case JNull => Ok(None)
    case JBool(b) => FromMicros(if b then 1000 else 0)
    case JInt(i) => FromMicros(i * 1000)
    case JReal(x) => FromMicros(RoundHalfEven(x * 1000.0))
    case JStr(s) => if s == "" then Ok(None) else Ok(ParseIso(ReplaceZ(s)))
    case _ => Ok(None)
  }

  /** Every publisher stamp `isoformat() + "Z"` is read back as the instant it names. */
  lemma StampReadsBack(t: DateTime)
    ensures ToDateTime(JStr(IsoFormat(t) + "Z")) == Ok(Some(t))
  {
    ZuluStampRoundTrip(t);
  }

  /** Whole-millisecond timestamps in range read back exactly: the instant
      written as milliseconds since the epoch is the instant read. */
  lemma MillisReadBack(t: DateTime)
    requires t.microsecond % 1000 == 0
    ensures ToDateTime(JInt(EpochMicros(t) / 1000)) == Ok(Some(t))
  {
    var us := EpochMicros(t);
    MicrosMultipleOfMillis(t);
    assert (us / 1000) * 1000 == us;
    EpochRoundTrip(t);
  }

  lemma MicrosMultipleOfMillis(t: DateTime)
    requires t.microsecond % 1000 == 0
    ensures EpochMicros(t) % 1000 == 0
  {
    var c := ClockOfTime(t);
    assert c.Micros() == ((c.hour * 60 + c.minute) * 60 + c.second) * 1000000 + c.microsecond;
    assert EpochMicros(t) == (DateOrdinal(t.year, t.month, t.day) - EpochOrdinal) * MicrosPerDay + c.Micros();
  }

  // ---------------------------------------------------------------------------
  // Structure of a feature

  /** The object a `.get` is called on; anything else raises `AttributeError`. */
  function AsObject(j: Json): (r: Result<map<string, Json>>)
    ensures r.Ok? <==> j.JObj?
    ensures r.Ok? ==> r.value == j.fields
  {
    if j.JObj? then Ok(j.fields) else Failure("object has no attribute 'get'")
  }

  /** `coordinates[i]`: a list entry, or a failure for a short list or a non-list. */
  function Index(coordinates: Json, i: nat): (r: Result<Json>)
    ensures r.Ok? <==> coordinates.JArr? && i < |coordinates.items|
    ensures r.Ok? ==> r.value == coordinates.items[i]
  {
    if coordinates.JArr? && i < |coordinates.items| then Ok(coordinates.items[i])
    else Failure("coordinates index out of range")
  }

  /** `feature.get("properties") or {}`. */
  function PropertiesOf(feature: map<string, Json>): Json
  {
    Or(Get(feature, "properties"), JObj(map[]))
  }

  /** `feature.get("geometry") or {}`. */
  function GeometryOf(feature: map<string, Json>): Json
  {
    Or(Get(feature, "geometry"), JObj(map[]))
  }

  /** `geometry.get("coordinates") or [None, None, None]`. */
  function CoordinatesOf(geometry: map<string, Json>): Json
  {
    Or(Get(geometry, "coordinates"), JArr([JNull, JNull, JNull]))
  }

  /** A feature the parsers can read: an object whose properties and geometry
      are objects (or missing) and whose coordinates are a list with at least
      `minCoordinates` entries (or missing). */
  predicate Readable(feature: Json, minCoordinates: nat)
  {
    feature.JObj?
    && PropertiesOf(feature.fields).JObj?
    && GeometryOf(feature.fields).JObj?
    && CoordinatesOf(GeometryOf(feature.fields).fields).JArr?
    && |CoordinatesOf(GeometryOf(feature.fields).fields).items| >= minCoordinates
  }

  /** A feature without (or with an empty) geometry reads as the three-`None`
      coordinate list. */
  lemma MissingGeometryIsReadable(feature: map<string, Json>)
    requires !Truthy(Get(feature, "geometry")) && PropertiesOf(feature).JObj?
    ensures Readable(JObj(feature), 3)
    ensures CoordinatesOf(GeometryOf(feature).fields) == JArr([JNull, JNull, JNull])
  {
  }

  // ---------------------------------------------------------------------------
  // Feed metadata

  /** `USGSMeta.from_payload`: a missing or empty metadata block gives an
      all-None record. */
  function MetaFromPayload(payload: Json): (r: Result<UsgsMeta>)
    ensures !Truthy(payload) ==> r == Ok(UsgsMeta(None, JNull, JNull, JNull))
    ensures Truthy(payload) && !payload.JObj? ==> r.Failure?
    ensures payload.JObj? ==>
      (r.Ok? <==> ToDateTime(Get(payload.fields, "generated")).Ok?)
      && (r.Ok? ==> r.value.title == Get(payload.fields, "title") && r.value.api == Get(payload.fields, "url")
                    && r.value.count == Get(payload.fields, "count")
                    && r.value.generated == ToDateTime(Get(payload.fields, "generated")).value)
  {
    var p :- AsObject(Or(payload, JObj(map[])));
    var generated :- ToDateTime(Get(p, "generated"));
    Ok(UsgsMeta(generated, Get(p, "title"), Get(p, "url"), Get(p, "count")))
  }

  // ---------------------------------------------------------------------------
  // Events

  /** `USGSEvent.from_feature`. The coordinates are GeoJSON's
      `[longitude, latitude, depth]`; the id defaults to the empty string. */
  function EventFromFeature(feature: Json): (r: Result<UsgsEvent>)
    ensures r.Ok? <==> Readable(feature, 3) && ToDateTime(Get(PropertiesOf(feature.fields).fields, "time")).Ok?
    ensures r.Ok? ==>
      var coordinates := CoordinatesOf(GeometryOf(feature.fields).fields).items;
      var properties := PropertiesOf(feature.fields).fields;
      r.value.eventId == GetOr(feature.fields, "id", JStr(""))
      && r.value.longitude == coordinates[0] && r.value.latitude == coordinates[1]
      && r.value.depthKm == coordinates[2]
      && r.value.time == ToDateTime(Get(properties, "time")).value
      && r.value.magnitude == Get(properties, "mag") && r.value.magnitudeType == Get(properties, "magType")
      && r.value.place == Get(properties, "place") && r.value.status == Get(properties, "status")
      && r.value.eventType == Get(properties, "type") && r.value.detailUrl == Get(properties, "url")
  {
    var f :- AsObject(feature);
    var geometry :- AsObject(GeometryOf(f));
    var coordinates := CoordinatesOf(geometry);
    var properties :- AsObject(PropertiesOf(f));
    var time :- ToDateTime(Get(properties, "time"));
    var latitude :- Index(coordinates, 1);
    var longitude := coordinates.items[0];
    var depth :- Index(coordinates, 2);
    Ok(UsgsEvent(GetOr(f, "id", JStr("")), time, latitude, longitude, depth,
                 Get(properties, "mag"), Get(properties, "magType"), Get(properties, "place"),
                 Get(properties, "status"), Get(properties, "type"), Get(properties, "url")))
  }

  /** The list comprehension over the features: one event per feature, in
      order, or the first feature's failure. */
  function EventsFromFeatures(features: seq<Json>): (r: Result<seq<UsgsEvent>>)
    ensures r.Ok? <==> forall i :: 0 <= i < |features| ==> EventFromFeature(features[i]).Ok?
    ensures r.Ok? ==> |r.value| == |features|
    ensures r.Ok? ==> forall i :: 0 <= i < |features| ==> r.value[i] == EventFromFeature(features[i]).value
  {
    if features == [] then Ok([])
    else
      var first :- EventFromFeature(features[0]);
      var rest :- EventsFromFeatures(features[1..]);
      assert forall i :: 1 <= i < |features| ==> features[i] == features[1..][i - 1];
      Ok([first] + rest)
  }

  /** `payload.get("features") or []`, as the comprehension iterates it: a
      list, or nothing when missing or empty. Any other truthy value fails
      (iterating a string or an object yields strings, which are not features;
      a number is not iterable). */
  function FeatureList(features: Json): (r: Result<seq<Json>>)
    ensures !Truthy(features) ==> r == Ok([])
    ensures features.JArr? ==> r == Ok(features.items)
    ensures Truthy(features) && !features.JArr? ==> r.Failure?
  {
    match features
    case JArr(items) => Ok(items)
    case _ => if Truthy(features) then Failure("features are not a list of objects") else Ok([])
  }

  /** `USGSEventCollection.from_geojson`. */
  function EventCollectionFromGeoJson(payload: Json): (r: Result<UsgsEventCollection>)
    ensures !payload.JObj? ==> r.Failure?
    ensures r.Ok? ==> MetaFromPayload(Get(payload.fields, "metadata")).Ok?
                      && r.value.metadata == MetaFromPayload(Get(payload.fields, "metadata")).value
    ensures r.Ok? ==> FeatureList(Get(payload.fields, "features")).Ok?
                      && |r.value.events| == |FeatureList(Get(payload.fields, "features")).value|
    ensures payload.JObj? && !Truthy(Get(payload.fields, "features")) ==>
      (r.Ok? <==> MetaFromPayload(Get(payload.fields, "metadata")).Ok?) && (r.Ok? ==> r.value.events == [])
    // it succeeds exactly when the payload is an object, its features are a list, its
    // metadata parses and every feature parses; the results are the features' in order
    ensures r.Ok? <==>
      payload.JObj? && FeatureList(Get(payload.fields, "features")).Ok?
      && MetaFromPayload(Get(payload.fields, "metadata")).Ok?
      && forall i :: 0 <= i < |FeatureList(Get(payload.fields, "features")).value| ==>
           EventFromFeature(FeatureList(Get(payload.fields, "features")).value[i]).Ok?
    ensures r.Ok? ==>
      forall i :: 0 <= i < |r.value.events| ==>
        r.value.events[i] == EventFromFeature(FeatureList(Get(payload.fields, "features")).value[i]).value
  {
    var p :- AsObject(payload);
    var features :- FeatureList(Get(p, "features"));
    var metadata :- MetaFromPayload(Get(p, "metadata"));
    var events :- EventsFromFeatures(features);
    Ok(UsgsEventCollection(metadata, events))
  }

  // ---------------------------------------------------------------------------
  // Stations

  /** `USGSStation.from_feature`. The network falls back from `network` to
      `net`, the code from `station` to `stationcode`; the elevation is the
      third coordinate when there is one and the `elevation` property
      otherwise. */
  function StationFromFeature(feature: Json): (r: Result<UsgsStation>)
    ensures r.Ok? <==>
      Readable(feature, 2)
      && ToDateTime(Get(PropertiesOf(feature.fields).fields, "starttime")).Ok?
      && ToDateTime(Get(PropertiesOf(feature.fields).fields, "endtime")).Ok?
    ensures r.Ok? ==>
      var coordinates := CoordinatesOf(GeometryOf(feature.fields).fields).items;
      var properties := PropertiesOf(feature.fields).fields;
      r.value.stationId == GetOr(feature.fields, "id", JStr(""))
      && r.value.longitude == coordinates[0] && r.value.latitude == coordinates[1]
      && (|coordinates| > 2 ==> r.value.elevationM == coordinates[2])
      && (|coordinates| <= 2 ==> r.value.elevationM == Get(properties, "elevation"))
      && (Truthy(Get(properties, "network")) ==> r.value.network == Get(properties, "network"))
      && (!Truthy(Get(properties, "network")) ==> r.value.network == Get(properties, "net"))
      && (Truthy(Get(properties, "station")) ==> r.value.code == Get(properties, "station"))
      && (!Truthy(Get(properties, "station")) ==> r.value.code == Get(properties, "stationcode"))
      && r.value.name == Get(properties, "name")
      && r.value.startTime == ToDateTime(Get(properties, "starttime")).value
      && r.value.endTime == ToDateTime(Get(properties, "endtime")).value
  {
    var f :- AsObject(feature);
    var geometry :- AsObject(GeometryOf(f));
    var coordinates := CoordinatesOf(geometry);
    var properties :- AsObject(PropertiesOf(f));
    var latitude :- Index(coordinates, 1);
    var longitude := coordinates.items[0];
    var elevation := if |coordinates.items| > 2 then coordinates.items[2] else Get(properties, "elevation");
    var startTime :- ToDateTime(Get(properties, "starttime"));
    var endTime :- ToDateTime(Get(properties, "endtime"));
    Ok(UsgsStation(GetOr(f, "id", JStr("")),
                   Or(Get(properties, "network"), Get(properties, "net")),
                   Or(Get(properties, "station"), Get(properties, "stationcode")),
                   Get(properties, "name"), latitude, longitude, elevation, startTime, endTime))
  }

  function StationsFromFeatures(features: seq<Json>): (r: Result<seq<UsgsStation>>)
    ensures r.Ok? <==> forall i :: 0 <= i < |features| ==> StationFromFeature(features[i]).Ok?
    ensures r.Ok? ==> |r.value| == |features|
    ensures r.Ok? ==> forall i :: 0 <= i < |features| ==> r.value[i] == StationFromFeature(features[i]).value
  {
    if features == [] then Ok([])
    else
      var first :- StationFromFeature(features[0]);
      var rest :- StationsFromFeatures(features[1..]);
      assert forall i :: 1 <= i < |features| ==> features[i] == features[1..][i - 1];
      Ok([first] + rest)
  }

  /** A feature with neither properties nor geometry still parses: every
      derived field is None and only the id (or its empty default) is kept. */
  lemma BareEventFeature(feature: map<string, Json>)
    requires !Truthy(Get(feature, "properties")) && !Truthy(Get(feature, "geometry"))
    ensures EventFromFeature(JObj(feature))
            == Ok(UsgsEvent(GetOr(feature, "id", JStr("")), None, JNull, JNull, JNull,
                            JNull, JNull, JNull, JNull, JNull, JNull))
  {
    BareParts(feature);
  }

  /** The same for a station feature. */
  lemma BareStationFeature(feature: map<string, Json>)
    requires !Truthy(Get(feature, "properties")) && !Truthy(Get(feature, "geometry"))
    ensures StationFromFeature(JObj(feature))
            == Ok(UsgsStation(GetOr(feature, "id", JStr("")), JNull, JNull, JNull, JNull, JNull, JNull, None, None))
  {
    BareParts(feature);
  }

  lemma BareParts(feature: map<string, Json>)
    requires !Truthy(Get(feature, "properties")) && !Truthy(Get(feature, "geometry"))
    ensures PropertiesOf(feature) == JObj(map[]) && GeometryOf(feature) == JObj(map[])
    ensures CoordinatesOf(map[]) == JArr([JNull, JNull, JNull])
    ensures forall k :: Get(map[], k) == JNull
  {
  }

  /** `USGSStationCollection.from_geojson`. */
  function StationCollectionFromGeoJson(payload: Json): (r: Result<UsgsStationCollection>)
    ensures !payload.JObj? ==> r.Failure?
    ensures r.Ok? ==> MetaFromPayload(Get(payload.fields, "metadata")).Ok?
                      && r.value.metadata == MetaFromPayload(Get(payload.fields, "metadata")).value
    ensures r.Ok? ==> FeatureList(Get(payload.fields, "features")).Ok?
                      && |r.value.stations| == |FeatureList(Get(payload.fields, "features")).value|
    ensures payload.JObj? && !Truthy(Get(payload.fields, "features")) ==>
      (r.Ok? <==> MetaFromPayload(Get(payload.fields, "metadata")).Ok?) && (r.Ok? ==> r.value.stations == [])
    // it succeeds exactly when the payload is an object, its features are a list, its
    // metadata parses and every feature parses; the results are the features' in order
    ensures r.Ok? <==>
      payload.JObj? && FeatureList(Get(payload.fields, "features")).Ok?
      && MetaFromPayload(Get(payload.fields, "metadata")).Ok?
      && forall i :: 0 <= i < |FeatureList(Get(payload.fields, "features")).value| ==>
           StationFromFeature(FeatureList(Get(payload.fields, "features")).value[i]).Ok?
    ensures r.Ok? ==>
      forall i :: 0 <= i < |r.value.stations| ==>
        r.value.stations[i] == StationFromFeature(FeatureList(Get(payload.fields, "features")).value[i]).value
  {
    var p :- AsObject(payload);
    var features :- FeatureList(Get(p, "features"));
    var metadata :- MetaFromPayload(Get(p, "metadata"));
    var stations :- StationsFromFeatures(features);
    Ok(UsgsStationCollection(metadata, stations))
  }
}

/** The sample event and station feeds of the endpoint tests, normalised. */
module UsgsSamples {
  import opened JsonValues
  import opened UsgsFeeds

  const SampleEventProperties := map[
    "time" := JInt(1710000000500), "mag" := JReal(4.2), "magType" := JStr("ml"),
    "place" := JStr("Demo Location"), "status" := JStr("reviewed"), "type" := JStr("earthquake"),
    "url" := JStr("https://earthquake.usgs.gov/earthquakes/eventpage/us7000abcd")]

  const SampleEventMeta := map[
    "generated" := JInt(1710000000000), "title" := JStr("USGS Real-time"),
    "url" := JStr("https://earthquake.usgs.gov/fdsnws/event/1/query"), "count" := JInt(1)]

  const SampleEventFeature := JObj(map[
    "id" := JStr("us7000abcd"),
    "properties" := JObj(SampleEventProperties),
    "geometry" := JObj(SampleEventGeometry)])

  const SampleEventFeed := JObj(map[
    "metadata" := JObj(SampleEventMeta),
    "features" := JArr([SampleEventFeature])])

  const SampleStationProperties := map[
    "network" := JStr("NC"), "stationcode" := JStr("TEST"), "name" := JStr("Test Station"),
    "starttime" := JStr("2023-01-01T00:00:00Z"), "endtime" := JNull]

  const SampleStationMeta := map[
    "generated" := JReal(1704067200000.0), "title" := JStr("USGS Station Feed"),
    "url" := JStr("https://earthquake.usgs.gov/fdsnws/station/1/query"), "count" := JInt(1)]

  const SampleStationFeature := JObj(map[
    "id" := JStr("NC.TEST..BHZ"),
    "properties" := JObj(SampleStationProperties),
    "geometry" := JObj(SampleStationGeometry)])

  const SampleStationFeed := JObj(map[
    "metadata" := JObj(SampleStationMeta),
    "features" := JArr([SampleStationFeature])])

  const SampleEventGeometry := map["coordinates" := JArr([JReal(-122.3), JReal(37.5), JReal(8.1)])]

  lemma SampleEventShape()
    ensures Readable(SampleEventFeature, 3)
    ensures CoordinatesOf(GeometryOf(SampleEventFeature.fields).fields).items == [JReal(-122.3), JReal(37.5), JReal(8.1)]
    ensures PropertiesOf(SampleEventFeature.fields) == JObj(SampleEventProperties)
    ensures GetOr(SampleEventFeature.fields, "id", JStr("")) == JStr("us7000abcd")
  {
    assert GeometryOf(SampleEventFeature.fields) == JObj(SampleEventGeometry);
  }

  lemma SampleEventTime()
    ensures ToDateTime(Get(SampleEventProperties, "time")).Ok?
  {
    assert Get(SampleEventProperties, "time") == JInt(1710000000500);
  }

  lemma SampleEventMagnitude()
    ensures Get(SampleEventProperties, "mag") == JReal(4.2)
    ensures Get(SampleEventProperties, "url") == JStr("https://earthquake.usgs.gov/earthquakes/eventpage/us7000abcd")
  {
  }

  lemma SampleEventFeatureParses()
    ensures var r := EventFromFeature(SampleEventFeature);
      r.Ok? && r.value.eventId == JStr("us7000abcd") && r.value.magnitude == JReal(4.2)
      && r.value.latitude == JReal(37.5) && r.value.longitude == JReal(-122.3)
      && r.value.detailUrl == JStr("https://earthquake.usgs.gov/earthquakes/eventpage/us7000abcd")
  {
    SampleEventShape();
    SampleEventTime();
    SampleEventMagnitude();
  }

  lemma SampleEventMetaParses()
    ensures MetaFromPayload(JObj(SampleEventMeta)).Ok?
    ensures MetaFromPayload(JObj(SampleEventMeta)).value.count == JInt(1)
  {
    assert Get(SampleEventMeta, "generated") == JInt(1710000000000);
    assert ToDateTime(JInt(1710000000000)).Ok?;
  }

  lemma SampleEventFeedParts()
    ensures Get(SampleEventFeed.fields, "features") == JArr([SampleEventFeature])
    ensures Get(SampleEventFeed.fields, "metadata") == JObj(SampleEventMeta)
  {
  }

  /** The event feed normalises to one event with its id, magnitude and
      coordinates, under a feed count of one. */
  lemma SampleEventFeedNormalises()
    ensures var r := EventCollectionFromGeoJson(SampleEventFeed);
      r.Ok? && r.value.metadata.count == JInt(1) && |r.value.events| == 1
      && r.value.events[0].eventId == JStr("us7000abcd") && r.value.events[0].magnitude == JReal(4.2)
      && r.value.events[0].latitude == JReal(37.5) && r.value.events[0].longitude == JReal(-122.3)
      && r.value.events[0].detailUrl == JStr("https://earthquake.usgs.gov/earthquakes/eventpage/us7000abcd")
  {
    SampleEventFeatureParses();
    SampleEventFeedParts();
    SampleEventMetaParses();
    assert EventsFromFeatures([SampleEventFeature]).Ok?;
  }

  const SampleStationGeometry := map["coordinates" := JArr([JReal(-121.5), JReal(36.1), JReal(1200.0)])]

  lemma SampleStationShape()
    ensures Readable(SampleStationFeature, 2)
    ensures CoordinatesOf(GeometryOf(SampleStationFeature.fields).fields).items == [JReal(-121.5), JReal(36.1), JReal(1200.0)]
    ensures PropertiesOf(SampleStationFeature.fields) == JObj(SampleStationProperties)
  {
    assert GeometryOf(SampleStationFeature.fields) == JObj(SampleStationGeometry);
  }

  lemma SampleStationProps()
    ensures Get(SampleStationProperties, "network") == JStr("NC")
    ensures Get(SampleStationProperties, "station") == JNull
    ensures Get(SampleStationProperties, "stationcode") == JStr("TEST")
  {
  }

  lemma SampleStationTimes()
    ensures ToDateTime(Get(SampleStationProperties, "starttime")).Ok?
    ensures ToDateTime(Get(SampleStationProperties, "endtime")).Ok?
  {
    assert Get(SampleStationProperties, "starttime").JStr?;
    assert Get(SampleStationProperties, "endtime") == JNull;
  }

  lemma SampleStationFeatureParses()
    ensures var r := StationFromFeature(SampleStationFeature);
      r.Ok? && r.value.network == JStr("NC") && r.value.code == JStr("TEST")
      && r.value.latitude == JReal(36.1) && r.value.longitude == JReal(-121.5)
      && r.value.elevationM == JReal(1200.0)
  {
    SampleStationShape();
    SampleStationTimes();
    var r := StationFromFeature(SampleStationFeature);
    assert r.Ok?;
    var properties := PropertiesOf(SampleStationFeature.fields).fields;
    assert properties == SampleStationProperties;
    SampleStationProps();
    assert Truthy(Get(properties, "network")) && !Truthy(Get(properties, "station"));
  }

  lemma SampleStationMetaParses()
    ensures MetaFromPayload(JObj(SampleStationMeta)).Ok?
    ensures MetaFromPayload(JObj(SampleStationMeta)).value.count == JInt(1)
  {
    assert Get(SampleStationMeta, "generated") == JReal(1704067200000.0);
    assert ToDateTime(JReal(1704067200000.0)).Ok?;
  }

  lemma SampleStationFeedParts()
    ensures Get(SampleStationFeed.fields, "features") == JArr([SampleStationFeature])
    ensures Get(SampleStationFeed.fields, "metadata") == JObj(SampleStationMeta)
  {
  }

  /** The station feed normalises to one station of network `NC` at latitude
      36.1 and longitude -121.5, its code taken from `stationcode`. */
  lemma SampleStationFeedNormalises()
    ensures var r := StationCollectionFromGeoJson(SampleStationFeed);
      r.Ok? && r.value.metadata.count == JInt(1) && |r.value.stations| == 1
      && r.value.stations[0].network == JStr("NC") && r.value.stations[0].code == JStr("TEST")
      && r.value.stations[0].latitude == JReal(36.1) && r.value.stations[0].longitude == JReal(-121.5)
  {
    SampleStationFeatureParses();
    SampleStationFeedParts();
    SampleStationMetaParses();
    assert StationsFromFeatures([SampleStationFeature]).Ok?;
  }
}
