# Realtime ingestion pipeline of the national seismic catalog system

This project is a Dafny model of the realtime ingestion path of the seismic catalog backend. It covers:

- **Per-item state.** A `WaveformPayload` carries one window of samples from one station. A `ProcessingContext` has five result slots and an append-only error list.
- **The processing pipeline.** It runs five estimator stages in a fixed order:
  - phase picking and association are required, and a failure in either ends the run;
  - when the associator proposes no candidate, the run stops without recording an error;
  - location, magnitude and mechanism are best-effort: a failure is recorded and the next stage still runs.
- **The realtime queue.** A bounded FIFO of contexts is drained by a single background worker. The worker runs the pipeline on each context and hands the result to an optional completion callback.
- **The message bus.** The in-process bus keeps per-topic logs and subscriber lists. For the Kafka bus, the model covers its configuration dictionaries and its producer and consumer lifecycle.
- **The stream publisher.** It turns a payload into a metadata-only record and publishes it under the key `NETWORK:STATION:START`.
- **Persistence.**
  - Storing a waveform writes a MiniSEED file, finds or creates the station row, adds a file row and records the path on the payload.
  - Persisting a processed context adds one catalog event, with status `located`, `error` or `pending`.
- **Storage naming.** MiniSEED files go to `ROOT/STATION/YYYY/MM/DD/STATION_HHMMSS.mseed`. Object URIs have the form `scheme://bucket/key[?endpoint=...]`.
- **The USGS feed normalisers.** They turn GeoJSON event and station features into flat records. Timestamps come as epoch milliseconds or ISO text.

## Structure

- **Mutable objects** are Dafny classes whose methods are proved against functions over their state. These are the payload, the context, the pipeline, the queue, both buses, the publisher, the storages and the catalog database.
  - `ProcessingPipeline.Run` is proved against the function `Orchestrate`, which states the whole failure policy.
  - The queue worker is a step machine, and its draining loop is proved to process items in submission order.
- **Pure translators are functions:** the record builder, the ordering key, the path scheme, the event rule and the USGS parsers. Each has a contract and lemmas relating it to its inverse or to a reference definition.
- **Support modules:**
  - `Basics`: Option and Result.
  - `JsonValues`: decoded JSON with Python truthiness, `dict.get` and `or`.
  - `DateTimes`: civil date-times, epoch microseconds, `isoformat`, `strftime` fields and a reader for a subset of the ISO forms `fromisoformat` accepts.
  - `Paths`: POSIX `pathlib` parsing and the `/` join.

## Model

| member | source | states |
|---|---|---|
| PipelineContext.WaveformPayload.constructor | backend/app/services/pipeline/context.py:9-24 | A new payload keeps the given measurement, has empty metadata and has no file path, URI, key, offset or partition |
| PipelineContext.WaveformPayload.WithMetadata | backend/app/services/pipeline/context.py:9-24 | The same, with the caller's metadata |
| PipelineContext.ProcessingContext.constructor | backend/app/services/pipeline/context.py:63-73 | A new context has all five slots None and no errors |
| PipelineContext.ProcessingContext.AddError | backend/app/services/pipeline/context.py:75-76 | The message becomes the last error; earlier errors and every slot are unchanged |
| Orchestrator.Orchestrate | backend/app/services/pipeline/orchestrator.py:42-104 | Errors are only appended, and each names its stage. A pick failure adds exactly one error and sets nothing. An association failure adds one error and sets only the picks. With no candidates, no best-effort slot changes and no error is added. Otherwise each best-effort slot is settled by its own stage, and the added errors are the location, magnitude and mechanism entries of the raising stages, in that order, each with its stage's message |
| Orchestrator.BestEffort | backend/app/services/pipeline/orchestrator.py:71-102 | The three best-effort stages each run on the picks whatever the others did. Each sets its slot only on a non-empty result. The new errors are exactly `location: `, `magnitude: ` and `mechanism: ` plus the raising stage's message, one per raising stage, in that order |
| Orchestrator.BestEffortErrors | backend/app/services/pipeline/orchestrator.py:78-102 | The location, magnitude and mechanism errors in running order. Each is its stage's prefix plus its message, present only when that stage raised, and their number is `BestEffortFailures` |
| Orchestrator.BestEffortFailures | backend/app/services/pipeline/orchestrator.py:71-102 | At most three best-effort errors per run |
| Orchestrator.PickRecord | backend/app/services/pipeline/orchestrator.py:45-48 | The pick record holds the picks, and its raw output is exactly `{"count": number of picks}` |
| Orchestrator.Settle | backend/app/services/pipeline/orchestrator.py:76-77 | A slot is replaced only by a returned non-empty result, and is kept on None or on a raise |
| Orchestrator.StageError | backend/app/services/pipeline/orchestrator.py:78-80 | A stage adds no error exactly when it returns, and adds `prefix + message` when it raises |
| Orchestrator.LocatorIsolated | backend/app/services/pipeline/orchestrator.py:71-102 | Changing only the locator leaves the picks, the association, the magnitude and the mechanism unchanged |
| Orchestrator.MagnitudeIsolated | backend/app/services/pipeline/orchestrator.py:82-91 | Changing only the magnitude estimator leaves the location and the mechanism unchanged |
| Orchestrator.MechanismIsolated | backend/app/services/pipeline/orchestrator.py:93-102 | Changing only the mechanism inverter leaves the location and the magnitude unchanged |
| Orchestrator.DefaultEstimators | backend/app/services/pipeline/orchestrator.py:111-117 | With the stub services, every run records an empty pick list and an empty association, and adds no error and no estimate |
| Orchestrator.ProcessingPipeline.constructor | backend/app/services/pipeline/orchestrator.py:28-40 | The pipeline holds the five services it is given |
| Orchestrator.ProcessingPipeline.Run | backend/app/services/pipeline/orchestrator.py:42-104 | Returns the same context. The context's new slots and errors are `Orchestrate` of its old ones |
| Orchestrator.ProcessingPipeline.RunBestEffort | backend/app/services/pipeline/orchestrator.py:71-102 | The in-place best-effort stages leave the context at `BestEffort` of its old state |
| Orchestrator.BuildDefaultPipeline | backend/app/services/pipeline/orchestrator.py:111-117 | A fresh pipeline over the stub services |
| PipelineQueue.RealtimeQueue.constructor | backend/app/services/pipeline/queue.py:19-29 | An empty queue with the given bound, no worker and the stop flag clear |
| PipelineQueue.RealtimeQueue.Start | backend/app/services/pipeline/queue.py:31-35 | Does nothing while a worker runs. Otherwise it clears the stop flag and starts one worker at its loop head |
| PipelineQueue.RealtimeQueue.Submit | backend/app/services/pipeline/queue.py:42-43 | Callable only when there is room. The context joins the back of the queue, and the bound still holds |
| PipelineQueue.RealtimeQueue.WorkerCheckStop | backend/app/services/pipeline/queue.py:46 | At the loop head, the worker exits when the flag is set and otherwise goes to `get` |
| PipelineQueue.RealtimeQueue.WorkerProcessNext | backend/app/services/pipeline/queue.py:47-56 | Takes the front item and runs the pipeline on it once. The item is reported to the callback only when one is configured. It is marked done once, and the worker returns to the loop head |
| PipelineQueue.RealtimeQueue.WorkerRunUntilIdle | backend/app/services/pipeline/queue.py:45-56 | With no stop requested, the worker takes every waiting item in submission order. It runs the pipeline once on each, so each context ends at `Orchestrate` of its state before the loop. Each is reported to the callback when one is configured. It then waits on an empty queue |
| PipelineQueue.RealtimeQueue.Stop | backend/app/services/pipeline/queue.py:37-40 | Sets the flag. Without a worker nothing else changes, and only a worker waiting on `get` may touch a queued context. A worker at its loop head exits. A worker at `get` first finishes the front item. Items behind it stay queued |
| PipelineQueue.TakenIsPrefix | backend/app/services/pipeline/queue.py:42-47 | What the worker has taken is a prefix of what was submitted, and the rest is still unfinished |
| MessageBus.FanOut | backend/app/services/streaming/message_bus.py:64-66 | Every handler is called once with the value, in subscription order |
| MessageBus.InMemoryMessageBus.constructor | backend/app/services/streaming/message_bus.py:43-47 | No topics, no subscribers, not started |
| MessageBus.InMemoryMessageBus.Start | backend/app/services/streaming/message_bus.py:49-50 | Sets the started flag and leaves the logs unchanged |
| MessageBus.InMemoryMessageBus.Stop | backend/app/services/streaming/message_bus.py:52-55 | Forgets every log and every subscriber and clears the flag, so the next offset on any topic is 0 |
| MessageBus.InMemoryMessageBus.Publish | backend/app/services/streaming/message_bus.py:57-67 | Appends the message to the topic's log only; other topics and all subscriber lists are unchanged. It calls exactly the topic's handlers. It fails exactly when one of them raises. Otherwise it returns the topic, partition 0 and the old log length as offset |
| MessageBus.InMemoryMessageBus.Subscribe | backend/app/services/streaming/message_bus.py:69-79 | Starts the bus, and the handler joins the end of the topic's list |
| MessageBus.KafkaMessageBus.constructor | backend/app/services/streaming/message_bus.py:85-100 | Keeps the settings, with no producer and no consumer tasks |
| MessageBus.KafkaMessageBus.WithSecurity | backend/app/services/streaming/message_bus.py:162-169 | Adds each security setting exactly when it is set and non-empty, and keeps every other key |
| MessageBus.KafkaMessageBus.ProducerConfig | backend/app/services/streaming/message_bus.py:110-118 | The brokers, plus each security key, holding that setting's value, if and only if the setting is non-empty |
| MessageBus.KafkaMessageBus.ConsumerConfig | backend/app/services/streaming/message_bus.py:156-169 | Brokers; the group, or `catalog-consumer` when none or an empty one is given; auto-commit off; reset to `latest`; plus each security key, holding that setting's value, if and only if it is non-empty |
| MessageBus.KafkaMessageBus.Start | backend/app/services/streaming/message_bus.py:102-121 | A no-op when a producer exists. Otherwise the producer is built from `ProducerConfig` and kept even when its connection fails, and the call fails exactly then |
| MessageBus.KafkaMessageBus.Stop | backend/app/services/streaming/message_bus.py:123-129 | Drops the producer, and cancels and forgets every consumer task |
| MessageBus.KafkaMessageBus.Publish | backend/app/services/streaming/message_bus.py:131-142 | Starts a producer when there is none. It sends only through a connected producer, with an empty key sent as no key, and returns the broker's partition and offset |
| MessageBus.KafkaMessageBus.Subscribe | backend/app/services/streaming/message_bus.py:144-189 | When the consumer connects, one consume task with `ConsumerConfig(group)` is kept; otherwise nothing changes |
| StreamPublisher.NetworkOrNA | backend/app/services/streaming/publisher.py:30 | The network, or `NA` when it is None or empty; never empty |
| StreamPublisher.OrderingKey | backend/app/services/streaming/publisher.py:30 | The key starts with the network (or `NA`) and the station, each followed by a colon, and the rest reads back as the start time |
| StreamPublisher.KeyRoundTrip | backend/app/services/streaming/publisher.py:30 | The ordering key splits back into network (or `NA`), station and start time when the codes have no colon |
| StreamPublisher.KeyInjective | backend/app/services/streaming/publisher.py:30 | Two payloads share a key only when they share network (or `NA`), station and start time |
| StreamPublisher.WindowSeconds | backend/app/services/streaming/publisher.py:34 | The window length times 10^6 is the difference of the end and start in microseconds |
| StreamPublisher.WaveformRecord.ToJson | backend/app/services/streaming/publisher.py:35-47 | The wire record has exactly the eleven record keys, and never `samples` |
| StreamPublisher.BuildRecord | backend/app/services/streaming/publisher.py:33-47 | Copies station, network, rate, metadata, URI and key. Gives the sample count when the samples have a length and None otherwise. Gives the window in seconds. Writes start, end and ingest times that read back as those instants, the ingest time through its trailing `Z` |
| StreamPublisher.WaveformStreamPublisher.constructor | backend/app/services/streaming/publisher.py:24-26 | Without topics, the defaults `waveforms.raw`, `waveforms.phase_picks`, `waveforms.associations` and `waveforms.locations` are used |
| StreamPublisher.WaveformStreamPublisher.PublishWaveform | backend/app/services/streaming/publisher.py:28-31 | Publishes `BuildRecord` of the payload on the raw topic under the ordering key, and returns the bus's result unchanged; the payload is not modified |
| MiniSeed.DateParts | backend/app/services/storage/mseed.py:22 | The year, month and day directories are three plain path components |
| MiniSeed.BuildPath | backend/app/services/storage/mseed.py:21-26 | For a code without a slash, the path is the root, then the code, then `YYYY/MM/DD`, then `CODE_HHMMSS.mseed` |
| MiniSeed.PathKeyedBySecond | backend/app/services/storage/mseed.py:21-26 | Two windows of a station get the same path if and only if they start in the same second |
| MiniSeed.MSeedStorage.constructor | backend/app/services/storage/mseed.py:17-19 | The root defaults to the configured data root `./data` |
| MiniSeed.MSeedStorage.SaveStream | backend/app/services/storage/mseed.py:28-31 | Returns `BuildPath`, and the stream is stored at that path |
| ObjectStore.ObjectStorageClient.constructor | backend/app/services/storage/object_store.py:10-22 | The scheme defaults to `s3`, and a missing or empty base path becomes `./object_store_cache` |
| ObjectStore.ObjectStorageClient.ObjectUri | backend/app/services/storage/object_store.py:28-30 | The URI is `scheme://bucket/key`, followed by `?endpoint=E` if and only if the endpoint is non-empty |
| ObjectStore.ObjectStorageClient.ResolveLocalPath | backend/app/services/storage/object_store.py:32-33 | A relative key lands under the base path with its own components; an absolute key replaces the base |
| ObjectStore.ObjectStorageClient.PutFile | backend/app/services/storage/object_store.py:24-30 | The file is copied to `ResolveLocalPath(key)`, and the call returns `ObjectUri(key)` |
| Persistence.EventFor | backend/app/services/utils/persistence.py:65-88 | The event time is the start time. The event is `pending` if and only if there is no location, and `located` if and only if there is a location and no error. The location fields are copied. The magnitude is present if and only if both a location and a magnitude are |
| Persistence.EventStatusOfRun | backend/app/services/utils/persistence.py:65-88 | After one run on a fresh context: `located` if and only if the run located the event and no best-effort stage raised; `error` if and only if it located it and some stage raised; `pending` otherwise |
| Persistence.DefaultRunIsPending | backend/app/services/utils/persistence.py:81-88 | With the default services every processed window is persisted as `pending` |
| Persistence.PersistProcessingResult | backend/app/services/utils/persistence.py:60-90 | Appends exactly `EventFor` of the context and changes no other table |
| Persistence.FindStation | backend/app/services/utils/persistence.py:36-38 | The first station with the code, or the table length when there is none |
| Persistence.CatalogDatabase.RecordWaveformFile | backend/app/services/utils/persistence.py:35-54 | Creates a station only when none has the code. The new file row points at a station with that code. Ids follow insertion order, and unique codes stay unique |
| Persistence.WaveformPersistenceService.constructor | backend/app/services/utils/persistence.py:18-20 | Holds the storage and the catalog |
| Persistence.WaveformPersistenceService.StoreWaveform | backend/app/services/utils/persistence.py:22-57 | Samples without a length fail and change nothing. Otherwise: the one-trace stream is saved at `BuildPath`; the station is found or created; one file row with the path string is added; the payload's file path becomes that path. No other payload field changes |
| Persistence.NetworkOrEmpty | backend/app/services/utils/persistence.py:25 | The trace network, or `""` when it is None or empty |
| UsgsFeeds.RoundHalfEven | backend/app/schemas/usgs.py:15 | The nearest integer, with ties going to the even one |
| UsgsFeeds.FromMicros | backend/app/schemas/usgs.py:13-15 | Succeeds if and only if the instant lies in years 1 to 9999, and is then that instant |
| UsgsFeeds.ToDateTime | backend/app/schemas/usgs.py:10-23 | None, containers and `""` give None. A number is milliseconds since the epoch, failing only out of range. A non-empty string is read after `Z` becomes `+00:00`, and gives None when unreadable |
| UsgsFeeds.StampReadsBack | backend/app/schemas/usgs.py:16-18 | A stamp written as `isoformat() + "Z"` reads back as the same instant |
| UsgsFeeds.MillisReadBack | backend/app/schemas/usgs.py:13-15 | Whole-millisecond epoch times read back as the instant they were written from |
| UsgsFeeds.AsObject | backend/app/schemas/usgs.py:64 | `.get` succeeds exactly on objects |
| UsgsFeeds.Index | backend/app/schemas/usgs.py:70-72 | `coordinates[i]` succeeds exactly on a list longer than `i` |
| UsgsFeeds.MissingGeometryIsReadable | backend/app/schemas/usgs.py:65-66 | A missing or empty geometry reads as three None coordinates |
| UsgsFeeds.MetaFromPayload | backend/app/schemas/usgs.py:37-44 | Missing or empty metadata gives all-None fields. `api` comes from `url`, and title and count from their own keys. It fails exactly when `generated` is out of range |
| UsgsFeeds.EventFromFeature | backend/app/schemas/usgs.py:63-79 | Succeeds if and only if the feature is readable with three coordinates and a readable time. Longitude, latitude and depth are coordinates 0, 1 and 2. The id defaults to `""`. The properties map to their fields |
| UsgsFeeds.BareEventFeature | backend/app/schemas/usgs.py:64-68 | Without properties and geometry, every derived field is None |
| UsgsFeeds.EventsFromFeatures | backend/app/schemas/usgs.py:91 | One event per feature, in order; it fails if and only if some feature fails |
| UsgsFeeds.FeatureList | backend/app/schemas/usgs.py:88 | Missing or empty features give no feature; a list gives its items |
| UsgsFeeds.EventCollectionFromGeoJson | backend/app/schemas/usgs.py:87-92 | Succeeds if and only if the payload is an object, its features are a list or missing, its metadata parses and every feature parses. The metadata is `MetaFromPayload`, and event i is `EventFromFeature` of feature i. Missing features give an empty list |
| UsgsFeeds.StationFromFeature | backend/app/schemas/usgs.py:109-123 | Needs two coordinates. Network falls back from `network` to `net`, and code from `station` to `stationcode`. Elevation is coordinate 2 when present, else the `elevation` property |
| UsgsFeeds.BareStationFeature | backend/app/schemas/usgs.py:110-123 | Without properties and geometry, every derived station field is None |
| UsgsFeeds.StationsFromFeatures | backend/app/schemas/usgs.py:135 | One station per feature, in order; it fails if and only if some feature fails |
| UsgsFeeds.StationCollectionFromGeoJson | backend/app/schemas/usgs.py:131-136 | Succeeds if and only if the payload is an object, its features are a list or missing, its metadata parses and every feature parses. The metadata is `MetaFromPayload`, and station i is `StationFromFeature` of feature i. Missing features give an empty list |
| UsgsSamples.SampleEventFeedNormalises | backend/tests/test_app.py:9-35 | The sample event feed gives count 1, one event `us7000abcd` with magnitude 4.2, latitude 37.5, longitude -122.3 and its event-page URL as detail URL |
| UsgsSamples.SampleStationFeedNormalises | backend/tests/test_app.py:37-60 | The sample station feed gives count 1 and one station of network `NC` with code `TEST`, at latitude 36.1 and longitude -121.5 |
| DateTimes.EpochRoundTrip | backend/app/schemas/usgs.py:15 | Converting an instant to epoch microseconds and back gives the same instant |
| DateTimes.IsoRoundTrip | backend/app/services/streaming/publisher.py:38-39 | What `isoformat` writes, the ISO reader reads back, with or without the UTC offset |
| DateTimes.ZuluStampRoundTrip | backend/app/services/streaming/publisher.py:46 | An `isoformat() + "Z"` stamp reads back once `Z` becomes `+00:00` |
| Paths.Join | backend/app/services/storage/object_store.py:33 | `base / key` appends the key's components, or is the key itself when the key is absolute |
| Paths.PathOf | backend/app/services/storage/object_store.py:21 | A path is absolute exactly when its text starts with `/`, and every component it keeps is non-empty, not `.` and slash-free |
| Paths.PathRoundTrip | backend/app/services/utils/persistence.py:49 | The path string stored in a file row reads back as the same path when its components are plain |

## Left out

- **Async plumbing.** asyncio scheduling, locks, `gather`, `run_in_executor` and tasks are not modelled; everything runs sequentially.
  - A blocking `submit` on a full queue is the precondition `HasRoom`.
  - Subscriber fan-out is handler calls in list order.
  - `Stop` of the queue requires that the worker is not waiting on an empty queue, because the source then waits for the next item forever.
- **Queue exceptions.** The queue's guard against a raising pipeline or callback is not modelled.
  - The modelled pipeline never raises: every stage failure becomes an error entry.
  - The completion callback is recorded as an append to `completed`, and a raising callback is not represented.
- **Estimator algorithms.** Stages are uninterpreted functions from their input to a returned value or a raised message.
  - Picks are `PhaseDetection` records rather than the dictionaries the source converts them to and back from.
  - Dataclass results are always truthy, so "returned a result" is `Some`.
- **Kafka I/O.**
  - The broker connection outcome, partition and offset are method parameters.
  - The missing-`aiokafka` error is not modelled.
  - JSON encoding and the consume loop, with its decoding and handler calls, are not modelled.
- **The publisher's bus.** The bus interface is not modelled as an abstraction, so the publisher is modelled over the in-process bus.
- **File system and libraries.**
  - `mkdir`, file writing and copying are not modelled; the MiniSEED store and the object cache are maps from paths to contents.
  - `compute_checksum` (SHA-256 over the written file) is not modelled; its result is the `checksum` parameter of `StoreWaveform`.
  - ObsPy and numpy conversion are not modelled. Samples are reals, and samples without a length cannot be converted, so that store fails.
- **Catalog database.**
  - Row ids follow insertion order.
  - `.first()` is the first matching row in insertion order.
  - Sessions and commits are not modelled.
- **Clocks.** `utcnow()` is the `now` parameter of `PublishWaveform` and `BuildRecord`.
- **Time zones.** Date-times are naive civil times; the UTC time zone attached by `_to_datetime` is not tracked.
  - `ParseIso` accepts `YYYY-MM-DD`, optionally followed by any one separator character and `HH:MM`, `HH:MM:SS`, `HH:MM:SS.fff` or `HH:MM:SS.ffffff`, with an optional trailing `+00:00`. Other offsets, the basic (compact) forms and the other `fromisoformat` extensions are not read; such strings give None here.
  - `_to_datetime`'s branch for an existing `datetime` object has no counterpart, because decoded JSON never holds one.
- StreamPublisher.OrderingKey: payload times are naive civil times. When the ingest request carries a start time with `Z` or an offset, the source's `isoformat()` appends that offset (`+00:00` for UTC) to the key; the model writes no offset.
- StreamPublisher.BuildRecord: for the same reason, the record's `start_time` and `end_time` carry no offset in the model, where the source writes the request's offset.
- **Floating point.** Coordinates, magnitudes and rates are reals, passed through unchanged.
  - USGS milliseconds are converted exactly; float division error is not modelled.
  - `WindowSeconds` is exact.
- **Pydantic validation.** It is not modelled: USGS fields are passed through as decoded JSON, with no coercion to float or string and no URL check.
  - A string `coordinates` value is treated as malformed rather than indexed character by character.
- **Formatting and paths.**
  - `%Y` is written with four digits for every year; some platforms write fewer digits for years below 1000.
  - Path handling is POSIX `pathlib` without the special leading `//`.
- **Source defects.** The model uses the evidently intended logic:
  - `persistence.py` uses `Callable` and `asyncio` without importing them;
  - the application wiring reads a queue-size setting the configuration does not declare. The queue's own default of 1000 is `DefaultMaxSize`.
- PipelineQueue.RealtimeQueue.WorkerRunUntilIdle: requires the waiting contexts to be distinct objects. A context queued twice is run through the pipeline twice by the source; the model covers that case only step by step, through `WorkerProcessNext`.
- **HTTP layer.** The routers, the application wiring, the USGS HTTP client and the session factory are not part of this model.
