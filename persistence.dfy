/** Persistence of pipeline output: storing a waveform window as a MiniSEED
    file with its catalog rows, and recording one catalog event per
    processed context. The catalog database is a set of tables whose row
    ids are assigned in insertion order. */
module Persistence {
  import opened Basics
  import opened DateTimes
  import opened Paths
  import opened PipelineContext
  import opened Orchestrator
  import opened MiniSeed

  datatype Station = Station(id: nat, code: string, network: Option<string>)

  datatype WaveformFile = WaveformFile(
    id: nat, stationId: nat, startTime: DateTime, endTime: DateTime, filePath: string, checksum: Option<string>)

  /** A catalog event row (its id is its position in the table plus one). */
  datatype Event = Event(
    eventTime: DateTime,
    latitude: Option<real>,
    longitude: Option<real>,
    depthKm: Option<real>,
    magnitude: Option<real>,
    magnitudeType: Option<string>,
    locationUncertaintyKm: Option<real>,
    processingStatus: string)

  /** The event recorded for a processed context that started at `eventTime`.
      With a location it is "located" when no error was recorded and "error"
      otherwise, and it carries the magnitude when one was estimated; without
      a location it is a bare "pending" event. */
  function EventFor(eventTime: DateTime, s: Slots): (e: Event)
    ensures e.eventTime == eventTime
    ensures e.processingStatus in {"located", "error", "pending"}
    ensures e.processingStatus == "pending" <==> s.location.None?
    ensures e.processingStatus == "located" <==> s.location.Some? && s.errors == []
    ensures s.location.None? ==> e == Event(eventTime, None, None, None, None, None, None, "pending")
    ensures s.location.Some? ==>
      e.latitude == Some(s.location.value.latitude) && e.longitude == Some(s.location.value.longitude)
      && e.depthKm == Some(s.location.value.depthKm)
      && e.locationUncertaintyKm == Some(s.location.value.uncertaintyKm)
    ensures e.magnitude.Some? <==> s.location.Some? && s.magnitude.Some?
    ensures e.magnitude.Some? ==>
      e.magnitude == Some(s.magnitude.value.magnitude)
      && e.magnitudeType == Some(s.magnitude.value.magnitudeType)
    ensures e.magnitude.None? ==> e.magnitudeType.None?
  {
    match s.location
    case None => Event(eventTime, None, None, None, None, None, None, "pending")
    case Some(loc) =>
      var located := Event(eventTime, Some(loc.latitude), Some(loc.longitude), Some(loc.depthKm), None, None,
                           Some(loc.uncertaintyKm), if s.errors == [] then "located" else "error");
      match s.magnitude
      case None => located
      case Some(mag) => located.(magnitude := Some(mag.magnitude), magnitudeType := Some(mag.magnitudeType))
  }

  /** What one pipeline run on a fresh context leads to in the catalog: the
      event is "located" exactly when both required stages succeeded, the
      associator proposed a candidate, the locator returned a location and
      neither the magnitude estimator nor the mechanism inverter raised;
      "error" when the location was found but one of those two raised;
      "pending" in every other case. */
  lemma {:induction false} EventStatusOfRun(e: Estimators, samples: Samples, eventTime: DateTime)
    ensures var status := EventFor(eventTime, Orchestrate(e, samples, EmptySlots)).processingStatus;
      var located := ReachesBestEffort(e, samples)
                     && e.locate(e.pickPhases(samples).value).Done?
                     && e.locate(e.pickPhases(samples).value).value.Some?;
      (status == "pending" <==> !located)
      && (status == "located" <==> located && BestEffortFailures(e, e.pickPhases(samples).value) == 0)
      && (status == "error" <==> located && BestEffortFailures(e, e.pickPhases(samples).value) > 0)
  {
    var s := Orchestrate(e, samples, EmptySlots);
    if ReachesBestEffort(e, samples) {
      var picks := e.pickPhases(samples).value;
      assert |s.errors| == BestEffortFailures(e, picks);
    }
  }

  /** The default build never locates anything, so every run ends as a
      "pending" event. */
  lemma DefaultRunIsPending(samples: Samples, eventTime: DateTime)
    ensures EventFor(eventTime, Orchestrate(DefaultEstimators(), samples, EmptySlots)).processingStatus == "pending"
  {
  }

  /** The catalog tables touched by the realtime path. */
  class CatalogDatabase {
    var stations: seq<Station>
    var waveformFiles: seq<WaveformFile>
    var events: seq<Event>

    /** Row ids follow insertion order, and every waveform file names an
        existing station. */
    ghost predicate Valid()
      reads this
    {
      (forall i :: 0 <= i < |stations| ==> stations[i].id == i + 1)
      && (forall i :: 0 <= i < |waveformFiles| ==> waveformFiles[i].id == i + 1)
      && (forall i :: 0 <= i < |waveformFiles| ==> 1 <= waveformFiles[i].stationId <= |stations|)
    }

    /** No two stations share a code. */
    ghost predicate UniqueCodes()
      reads this
    {
      forall i, j :: 0 <= i < j < |stations| ==> stations[i].code != stations[j].code
    }

    constructor ()
      ensures Valid() && UniqueCodes()
      ensures stations == [] && waveformFiles == [] && events == []
    {
      stations, waveformFiles, events := [], [], [];
    }

    /** The catalog half of `store_waveform`: find the station by code or
        create it, then add the waveform file row that points to it. */
    method RecordWaveformFile(code: string, network: Option<string>, startTime: DateTime, endTime: DateTime,
                              filePath: string, checksum: string) returns (file: WaveformFile)
      requires Valid()
      modifies this
      ensures Valid()
      ensures old(UniqueCodes()) ==> UniqueCodes()
      ensures events == old(events)
      ensures FindStation(old(stations), code) < |old(stations)| ==> stations == old(stations)
      ensures FindStation(old(stations), code) == |old(stations)| ==>
        stations == old(stations) + [Station(|old(stations)| + 1, code, network)]
      ensures file == WaveformFile(|old(waveformFiles)| + 1, FindStation(old(stations), code) + 1,
                                   startTime, endTime, filePath, Some(checksum))
      ensures waveformFiles == old(waveformFiles) + [file]
      ensures stations[file.stationId - 1].code == code
    {
      var i := FindStation(stations, code);
      if i == |stations| {
        stations := stations + [Station(i + 1, code, network)];
      }
      file := WaveformFile(|waveformFiles| + 1, i + 1, startTime, endTime, filePath, Some(checksum));
      waveformFiles := waveformFiles + [file];
    }
  }

  /** The position of the first station with this code, or the table length
      when there is none (the `select ... where code == ... first()` lookup). */
  function FindStation(stations: seq<Station>, code: string): (i: nat)
    ensures i <= |stations|
    ensures i < |stations| ==> stations[i].code == code
    ensures forall j :: 0 <= j < i ==> stations[j].code != code
  {
    if stations == [] then 0
    else if stations[0].code == code then 0
    else 1 + FindStation(stations[1..], code)
  }

  /** `persist_processing_result`: add the context's event to the catalog. */
  method PersistProcessingResult(context: ProcessingContext, db: CatalogDatabase)
    requires db.Valid()
    modifies db
    ensures db.Valid()
    ensures db.events == old(db.events) + [EventFor(context.waveform.startTime, context.State())]
    ensures db.stations == old(db.stations) && db.waveformFiles == old(db.waveformFiles)
  {
    var event: Event;
    if context.location.Some? {
      var loc := context.location.value;
      event := Event(context.waveform.startTime, Some(loc.latitude), Some(loc.longitude), Some(loc.depthKm),
                     None, None, Some(loc.uncertaintyKm), if context.errors == [] then "located" else "error");
      if context.magnitude.Some? {
        event := event.(magnitude := Some(context.magnitude.value.magnitude),
                        magnitudeType := Some(context.magnitude.value.magnitudeType));
      }
    } else {
      event := Event(context.waveform.startTime, None, None, None, None, None, None, "pending");
    }
    db.events := db.events + [event];
  }

  /** The waveform storage service: a MiniSEED store and the catalog. */
  class WaveformPersistenceService {
    const storage: MSeedStorage
    const db: CatalogDatabase

    constructor (storage: MSeedStorage, db: CatalogDatabase)
      ensures this.storage == storage && this.db == db
    {
      this.storage := storage;
      this.db := db;
    }

    /** `store_waveform`: write the samples as a one-trace MiniSEED stream,
        find the station by code or create it, record the file, and remember
        the path on the payload. Samples without a length cannot be turned
        into a sample array, and then nothing is stored. The file checksum is
        given, as it is a digest of the written bytes. */
    method StoreWaveform(payload: WaveformPayload, checksum: string) returns (r: Result<WaveformFile>)
      requires db.Valid()
      requires storage != db as object
      modifies storage, db, payload
      ensures db.Valid()
      ensures old(db.UniqueCodes()) ==> db.UniqueCodes()
      ensures db.events == old(db.events)
      ensures r.Failure? <==> payload.samples.Unsized?
      // only the payload's file path is ever written
      ensures payload.objectUri == old(payload.objectUri) && payload.storageKey == old(payload.storageKey)
      ensures payload.streamOffset == old(payload.streamOffset) && payload.streamPartition == old(payload.streamPartition)
      ensures r.Failure? ==>
        db.stations == old(db.stations) && db.waveformFiles == old(db.waveformFiles)
        && storage.files == old(storage.files) && payload.filePath == old(payload.filePath)
      ensures r.Ok? ==>
        var path := BuildPath(storage.root, payload.stationCode, payload.startTime);
        var found := FindStation(old(db.stations), payload.stationCode);
        && storage.files == old(storage.files)[path := [Trace(NetworkOrEmpty(payload.network), payload.stationCode,
                                                            payload.startTime, payload.samplingRate,
                                                            payload.samples.values)]]
        && payload.filePath == Some(path)
        && (found < |old(db.stations)| ==> db.stations == old(db.stations))
        && (found == |old(db.stations)| ==>
              db.stations == old(db.stations) + [Station(|old(db.stations)| + 1, payload.stationCode, payload.network)])
        && r.value == WaveformFile(|old(db.waveformFiles)| + 1, found + 1, payload.startTime, payload.endTime,
                                   PathString(path), Some(checksum))
        && db.waveformFiles == old(db.waveformFiles) + [r.value]
    {
      if payload.samples.Unsized? {
        return Failure("samples cannot be converted to a float32 array");
      }
      var trace := Trace(NetworkOrEmpty(payload.network), payload.stationCode, payload.startTime,
                         payload.samplingRate, payload.samples.values);
      var path := storage.SaveStream(payload.stationCode, payload.startTime, [trace]);
      var file := db.RecordWaveformFile(payload.stationCode, payload.network, payload.startTime, payload.endTime,
                                        PathString(path), checksum);
      payload.filePath := Some(path);
      return Ok(file);
    }
  }

  /** `network or ""`: the trace header's network code. */
  function NetworkOrEmpty(network: Option<string>): (n: string)
    ensures NonEmpty(network) ==> n == network.value
    ensures !NonEmpty(network) ==> n == ""
  {
    if network.Some? then network.value else ""
  }
}
