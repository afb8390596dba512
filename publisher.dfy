/** The waveform stream publisher: it turns a waveform payload into a
    metadata record (never the raw samples) and publishes it on the raw
    waveform topic under a per-station-window ordering key. */
module StreamPublisher {
  import opened Basics
  import opened JsonValues
  import opened DateTimes
  import opened PipelineContext
  import opened MessageBus

  /** The topic names of the streaming pipeline. */
  datatype WaveformStreamTopics = WaveformStreamTopics(
    rawWaveforms: string, phasePicks: string, associations: string, locations: string)

  const DefaultTopics :=
    WaveformStreamTopics("waveforms.raw", "waveforms.phase_picks", "waveforms.associations", "waveforms.locations")

  /** `network or 'NA'`. */
  function NetworkOrNA(network: Option<string>): (n: string)
    ensures NonEmpty(network) ==> n == network.value
    ensures !NonEmpty(network) ==> n == "NA"
    ensures n != ""
  {
    if NonEmpty(network) then network.value else "NA"
  }

  /** The ordering key `NETWORK:STATION:START`: the network (or `NA`) and the
      station, each followed by a colon, then a stamp that reads back as the
      start time. */
  function OrderingKey(network: Option<string>, stationCode: string, startTime: DateTime): (k: string)
    ensures NetworkOrNA(network) + ":" + stationCode + ":" <= k
    ensures ParseIso(k[|NetworkOrNA(network)| + |stationCode| + 2..]) == Some(startTime)
  {
    var head := NetworkOrNA(network) + ":" + stationCode + ":";
    var k := head + IsoFormat(startTime);
    IsoRoundTrip(startTime, false);
    assert k[|head|..] == IsoFormat(startTime) + "";
    k
  }

  /** The position of the first `:` in `s`, or `|s|` when there is none. */
  function FirstColon(s: string): (r: nat)
    ensures r <= |s|
    ensures forall i :: 0 <= i < r ==> s[i] != ':'
    ensures r < |s| ==> s[r] == ':'
  {
    if s == [] || s[0] == ':' then 0 else 1 + FirstColon(s[1..])
  }

  lemma ColonAfter(a: string, b: string)
    requires ':' !in a
    ensures FirstColon(a + ":" + b) == |a|
  {
    var s := a + ":" + b;
    var r := FirstColon(s);
    assert s[|a|] == ':';
  }

  /** Reads an ordering key back into its network, station and start time. */
  function SplitKey(key: string): Option<(string, string, DateTime)>
  {
    var i := FirstColon(key);
    if i == |key| then None
    else
      var rest := key[i + 1..];
      var j := FirstColon(rest);
      if j == |rest| then None
      else
        match ParseIso(rest[j + 1..])
        case None => None
        case Some(t) => Some((key[..i], rest[..j], t))
  }

  /** A string of the key's shape splits at its first two colons. */
  lemma SplitKeyParts(a: string, b: string, c: string)
    requires ':' !in a && ':' !in b
    ensures SplitKey(a + ":" + b + ":" + c)
            == match ParseIso(c) case None => None case Some(t) => Some((a, b, t))
  {
    var key := a + ":" + (b + ":" + c);
    assert a + ":" + b + ":" + c == key;
    ColonAfter(a, b + ":" + c);
    var rest := key[|a| + 1..];
    assert rest == b + ":" + c;
    ColonAfter(b, c);
    assert rest[|b| + 1..] == c;
    assert key[..|a|] == a && rest[..|b|] == b;
  }

  /** The ordering key names its station window exactly: for network and
      station codes without a colon it reads back to the network (or `NA`),
      the station and the start time. */
  lemma KeyRoundTrip(network: Option<string>, stationCode: string, startTime: DateTime)
    requires ':' !in NetworkOrNA(network) && ':' !in stationCode
    ensures SplitKey(OrderingKey(network, stationCode, startTime))
            == Some((NetworkOrNA(network), stationCode, startTime))
  {
    var iso := IsoFormat(startTime);
    SplitKeyParts(NetworkOrNA(network), stationCode, iso);
    IsoRoundTrip(startTime, false);
    assert iso + "" == iso;
  }

  /** Hence two payloads share a key only when they share network (or `NA`),
      station and start time. */
  lemma KeyInjective(n1: Option<string>, s1: string, t1: DateTime, n2: Option<string>, s2: string, t2: DateTime)
    requires ':' !in NetworkOrNA(n1) && ':' !in s1 && ':' !in NetworkOrNA(n2) && ':' !in s2
    requires OrderingKey(n1, s1, t1) == OrderingKey(n2, s2, t2)
    ensures NetworkOrNA(n1) == NetworkOrNA(n2) && s1 == s2 && t1 == t2
  {
    KeyRoundTrip(n1, s1, t1);
    KeyRoundTrip(n2, s2, t2);
  }

  /** `(end - start).total_seconds()`. */
  function WindowSeconds(startTime: DateTime, endTime: DateTime): (w: real)
    ensures w * 1000000.0 == (EpochMicros(endTime) - EpochMicros(startTime)) as real
  {
    (EpochMicros(endTime) - EpochMicros(startTime)) as real / 1000000.0
  }

  /** The keys of a published waveform record. */
  const RecordKeys: set<string> := {
    "station_code", "network", "start_time", "end_time", "sampling_rate", "sample_count",
    "window_seconds", "object_uri", "object_key", "metadata", "ingested_at"}

  /** The metadata record published for a waveform, before it becomes a JSON object. */
  datatype WaveformRecord = WaveformRecord(
    stationCode: string,
    network: Option<string>,
    startTime: string,
    endTime: string,
    samplingRate: real,
    sampleCount: Option<nat>,
    windowSeconds: real,
    objectUri: Option<string>,
    objectKey: Option<string>,
    metadata: map<string, Json>,
    ingestedAt: string)
  {
    /** The record as the JSON object handed to the bus: exactly the record
        keys, and never the raw samples. */
    function ToJson(): (m: map<string, Json>)
      ensures m.Keys == RecordKeys && "samples" !in m
    {
      map[
        "station_code" := JStr(stationCode),
        "network" := OptStr(network),
        "start_time" := JStr(startTime),
        "end_time" := JStr(endTime),
        "sampling_rate" := JReal(samplingRate),
        "sample_count" := (match sampleCount case Some(n) => JInt(n) case None => JNull),
        "window_seconds" := JReal(windowSeconds),
        "object_uri" := OptStr(objectUri),
        "object_key" := OptStr(objectKey),
        "metadata" := JObj(metadata),
        "ingested_at" := JStr(ingestedAt)]
    }
  }

  /** The record built for a payload; `ingestedAt` is the wall-clock time of
      publishing. It copies the payload's identity, placement and metadata,
      counts the samples when they have a length, gives the window length in
      seconds, and writes three timestamps that read back as the instants
      they were written from. */
  function BuildRecord(payload: WaveformPayload, ingestedAt: DateTime): (r: WaveformRecord)
    reads payload
    ensures r.stationCode == payload.stationCode && r.network == payload.network
    ensures r.samplingRate == payload.samplingRate && r.metadata == payload.metadata
    ensures r.objectUri == payload.objectUri && r.objectKey == payload.storageKey
    ensures r.sampleCount == if payload.samples.SampleList? then Some(|payload.samples.values|) else None
    ensures r.windowSeconds * 1000000.0 == (EpochMicros(payload.endTime) - EpochMicros(payload.startTime)) as real
    ensures ParseIso(r.startTime) == Some(payload.startTime)
    ensures ParseIso(r.endTime) == Some(payload.endTime)
    ensures ParseIso(ReplaceZ(r.ingestedAt)) == Some(ingestedAt)
  {
    IsoRoundTrip(payload.startTime, false);
    IsoRoundTrip(payload.endTime, false);
    assert IsoFormat(payload.startTime) + "" == IsoFormat(payload.startTime);
    assert IsoFormat(payload.endTime) + "" == IsoFormat(payload.endTime);
    ZuluStampRoundTrip(ingestedAt);
    WaveformRecord(
      payload.stationCode,
      payload.network,
      IsoFormat(payload.startTime),
      IsoFormat(payload.endTime),
      payload.samplingRate,
      if payload.samples.SampleList? then Some(|payload.samples.values|) else None,
      WindowSeconds(payload.startTime, payload.endTime),
      payload.objectUri,
      payload.storageKey,
      payload.metadata,
      IsoFormat(ingestedAt) + "Z")
  }

  class WaveformStreamPublisher {
    const bus: InMemoryMessageBus
    const topics: WaveformStreamTopics

    /** Without topics the default topic names are used. */
    constructor (bus: InMemoryMessageBus, topics: Option<WaveformStreamTopics>)
      ensures this.bus == bus
      ensures this.topics == topics.GetOr(DefaultTopics)
    {
      this.bus := bus;
      this.topics := topics.GetOr(DefaultTopics);
    }

    /** `publish_waveform`: publish the payload's record on the raw topic
        under its ordering key and hand back the bus's result unchanged. */
    method PublishWaveform(payload: WaveformPayload, now: DateTime) returns (r: Result<PublishResult>)
      modifies bus
      ensures bus.topics == old(bus.topics)[topics.rawWaveforms :=
        old(bus.Log(topics.rawWaveforms))
        + [Message(Some(OrderingKey(payload.network, payload.stationCode, payload.startTime)),
                   BuildRecord(payload, now).ToJson())]]
      ensures bus.started && bus.subscribers == old(bus.subscribers)
      ensures bus.delivered == old(bus.delivered) + FanOut(old(bus.Handlers(topics.rawWaveforms)), BuildRecord(payload, now).ToJson())
      ensures r.Failure? <==> AnyRaises(old(bus.Handlers(topics.rawWaveforms)), BuildRecord(payload, now).ToJson())
      ensures r.Ok? ==> r.value == PublishResult(topics.rawWaveforms, Some(0), Some(|old(bus.Log(topics.rawWaveforms))|), None)
    {
      var record := BuildRecord(payload, now).ToJson();
      var key := OrderingKey(payload.network, payload.stationCode, payload.startTime);
      r := bus.Publish(topics.rawWaveforms, Some(key), record);
    }
  }
}
