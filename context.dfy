/** The per-item state of the realtime pipeline: the waveform payload that
    travels through ingestion, the five stage result records, and the
    processing context whose slots the orchestrator fills in. */
module PipelineContext {
  import opened Basics
  import opened JsonValues
  import opened DateTimes
  import opened Paths

  /** `samples: Any`: a sequence of samples (it has a length), or an object without one. */
  datatype Samples = SampleList(values: seq<real>) | Unsized

  /** One phase arrival picked on a waveform. */
  datatype PhaseDetection = PhaseDetection(
    stationCode: string,
    phaseType: string,
    pickTime: DateTime,
    probability: real,
    polarity: Option<string>,
    extra: Option<map<string, Json>>)

  /** One candidate event produced by the associator. */
  datatype AssociationCandidate = AssociationCandidate(
    originTime: DateTime,
    latitude: Option<real>,
    longitude: Option<real>,
    depthKm: Option<real>,
    score: real,
    methodName: string)

  datatype PhasePickResult = PhasePickResult(picks: seq<PhaseDetection>, rawOutput: Option<map<string, Json>>)

  datatype AssociationResult = AssociationResult(candidateEvents: seq<AssociationCandidate>)

  datatype LocationResult = LocationResult(
    latitude: real, longitude: real, depthKm: real, uncertaintyKm: real,
    diagnostics: map<string, Json>)

  datatype MagnitudeResult = MagnitudeResult(
    magnitude: real, magnitudeType: string, diagnostics: map<string, Json>)

  datatype MechanismResult = MechanismResult(
    strike: real, dip: real, rake: real, methodName: string, diagnostics: map<string, Json>)

  /** The value of a context's five result slots and its error list. */
  datatype Slots = Slots(
    phasePicks: Option<PhasePickResult>,
    association: Option<AssociationResult>,
    location: Option<LocationResult>,
    magnitude: Option<MagnitudeResult>,
    mechanism: Option<MechanismResult>,
    errors: seq<string>)

  /** The slots of a freshly built context. */
  const EmptySlots := Slots(None, None, None, None, None, [])

  /** A waveform window on its way through ingestion. The measurement itself
      never changes; the storage and stream placement fields are filled in
      later by the storage service and the caller of the stream publisher. */
  class WaveformPayload {
    const stationCode: string
    const network: Option<string>
    const startTime: DateTime
    const endTime: DateTime
    const samples: Samples
    const samplingRate: real
    const metadata: map<string, Json>
    var filePath: Option<Path>
    var objectUri: Option<string>
    var storageKey: Option<string>
    var streamOffset: Option<int>
    var streamPartition: Option<int>

    /** No placement is known yet when a payload is built. */
    predicate Unplaced()
      reads this
    {
      filePath.None? && objectUri.None? && storageKey.None?
      && streamOffset.None? && streamPartition.None?
    }

    /** The dataclass built with its defaults: empty metadata, nothing placed. */
    constructor (stationCode: string, network: Option<string>, startTime: DateTime,
                 endTime: DateTime, samples: Samples, samplingRate: real)
      ensures this.stationCode == stationCode && this.network == network
      ensures this.startTime == startTime && this.endTime == endTime
      ensures this.samples == samples && this.samplingRate == samplingRate
      ensures this.metadata == map[]
      ensures Unplaced()
    {
      this.stationCode := stationCode;
      this.network := network;
      this.startTime := startTime;
      this.endTime := endTime;
      this.samples := samples;
      this.samplingRate := samplingRate;
      this.metadata := map[];
      filePath, objectUri, storageKey := None, None, None;
      streamOffset, streamPartition := None, None;
    }

    /** The dataclass built with caller-supplied metadata, as the ingest route does. */
    constructor WithMetadata(stationCode: string, network: Option<string>, startTime: DateTime,
                             endTime: DateTime, samples: Samples, samplingRate: real,
                             metadata: map<string, Json>)
      ensures this.stationCode == stationCode && this.network == network
      ensures this.startTime == startTime && this.endTime == endTime
      ensures this.samples == samples && this.samplingRate == samplingRate
      ensures this.metadata == metadata
      ensures Unplaced()
    {
      this.stationCode := stationCode;
      this.network := network;
      this.startTime := startTime;
      this.endTime := endTime;
      this.samples := samples;
      this.samplingRate := samplingRate;
      this.metadata := metadata;
      filePath, objectUri, storageKey := None, None, None;
      streamOffset, streamPartition := None, None;
    }
  }

  /** The state carried through one pipeline run. */
  class ProcessingContext {
    const waveform: WaveformPayload
    var phasePicks: Option<PhasePickResult>
    var association: Option<AssociationResult>
    var location: Option<LocationResult>
    var magnitude: Option<MagnitudeResult>
    var mechanism: Option<MechanismResult>
    var errors: seq<string>

    /** The current value of the slots and the error list. */
    function State(): Slots
      reads this
    {
      Slots(phasePicks, association, location, magnitude, mechanism, errors)
    }

    /** A fresh context: every slot empty and no errors. */
    constructor (waveform: WaveformPayload)
      ensures this.waveform == waveform
      ensures State() == EmptySlots
    {
      this.waveform := waveform;
      phasePicks, association, location, magnitude, mechanism := None, None, None, None, None;
      errors := [];
    }

    /** `add_error`: the message becomes the last error; nothing else changes. */
    method AddError(message: string)
      modifies this
      ensures errors == old(errors) + [message]
      ensures State() == old(State()).(errors := old(errors) + [message])
    {
      errors := errors + [message];
    }
  }
}
