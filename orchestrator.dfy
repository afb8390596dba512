/** The staged processing pipeline: phase picking and association are
    required (a failure in either ends the run), location, magnitude and
    mechanism are best-effort (a failure is recorded and the run goes on). */
module Orchestrator {
  import opened Basics
  import opened JsonValues
  import opened PipelineContext

  /** What calling one stage does: it returns a value or raises with a message. */
  datatype StageOutcome<+T> = Done(value: T) | Raised(message: string)

  /** The five estimator services, seen only through what each call returns. */
  datatype Estimators = Estimators(
    pickPhases: Samples -> StageOutcome<seq<PhaseDetection>>,
    associate: seq<PhaseDetection> -> StageOutcome<seq<AssociationCandidate>>,
    locate: seq<PhaseDetection> -> StageOutcome<Option<LocationResult>>,
    estimateMagnitude: seq<PhaseDetection> -> StageOutcome<Option<MagnitudeResult>>,
    invertMechanism: seq<PhaseDetection> -> StageOutcome<Option<MechanismResult>>)

  /** The error prefix of every stage, in running order. */
  const StagePrefixes: seq<string> :=
    ["phase_picking: ", "association: ", "location: ", "magnitude: ", "mechanism: "]

  /** An error entry that names the stage it came from. */
  predicate NamesStage(message: string)
  {
    exists i :: 0 <= i < |StagePrefixes| && StagePrefixes[i] <= message
  }

  /** The phase-pick record: the picks and their count as raw output. */
  function PickRecord(picks: seq<PhaseDetection>): (r: PhasePickResult)
    ensures r.picks == picks
    ensures r.rawOutput.Some? && r.rawOutput.value.Keys == {"count"}
    ensures r.rawOutput.value["count"] == JInt(|r.picks|)
  {
    PhasePickResult(picks, Some(map["count" := JInt(|picks|)]))
  }

  /** The picks the best-effort stages receive: both required stages
      succeeded and the associator proposed at least one candidate. */
  predicate ReachesBestEffort(e: Estimators, samples: Samples)
  {
    e.pickPhases(samples).Done?
    && e.associate(e.pickPhases(samples).value).Done?
    && e.associate(e.pickPhases(samples).value).value != []
  }

  /** A best-effort slot: set by a non-empty result, kept otherwise. */
  function Settle<T>(outcome: StageOutcome<Option<T>>, slot: Option<T>): (r: Option<T>)
    ensures outcome.Done? && outcome.value.Some? ==> r == outcome.value
    ensures !(outcome.Done? && outcome.value.Some?) ==> r == slot
  {
    if outcome.Done? && outcome.value.Some? then outcome.value else slot
  }

  /** The error a best-effort stage records: one entry when it raised, none otherwise. */
  function StageError<T>(outcome: StageOutcome<T>, prefix: string): (r: seq<string>)
    ensures outcome.Done? <==> r == []
    ensures outcome.Raised? ==> r == [prefix + outcome.message]
  {
    if outcome.Raised? then [prefix + outcome.message] else []
  }

  /** How many of the three best-effort stages raised on these picks. */
  function BestEffortFailures(e: Estimators, picks: seq<PhaseDetection>): (n: nat)
    ensures n <= 3
  {
    (if e.locate(picks).Raised? then 1 else 0)
    + (if e.estimateMagnitude(picks).Raised? then 1 else 0)
    + (if e.invertMechanism(picks).Raised? then 1 else 0)
  }

  /** The slots and errors after one pipeline run that starts from `s`. */
  function Orchestrate(e: Estimators, samples: Samples, s: Slots): (r: Slots)
    // errors are only ever appended, and each new one names its stage
    ensures s.errors <= r.errors
    ensures forall k :: |s.errors| <= k < |r.errors| ==> NamesStage(r.errors[k])
    // a failed phase picker ends the run with exactly one error and no slot set
    ensures e.pickPhases(samples).Raised? ==>
      r == s.(errors := s.errors + ["phase_picking: " + e.pickPhases(samples).message])
    ensures e.pickPhases(samples).Done? ==> r.phasePicks == Some(PickRecord(e.pickPhases(samples).value))
    // a failed associator ends the run with exactly one error; the pick slot stays set
    ensures e.pickPhases(samples).Done? && e.associate(e.pickPhases(samples).value).Raised? ==>
      r == s.(phasePicks := r.phasePicks,
              errors := s.errors + ["association: " + e.associate(e.pickPhases(samples).value).message])
    ensures e.pickPhases(samples).Done? && e.associate(e.pickPhases(samples).value).Done? ==>
      r.association == Some(AssociationResult(e.associate(e.pickPhases(samples).value).value))
    // without candidates the best-effort stages never run and nothing is recorded as an error
    ensures !ReachesBestEffort(e, samples) ==>
      r.location == s.location && r.magnitude == s.magnitude && r.mechanism == s.mechanism
    ensures (!ReachesBestEffort(e, samples) && e.pickPhases(samples).Done?
             && e.associate(e.pickPhases(samples).value).Done?) ==> r.errors == s.errors
    // otherwise every best-effort stage runs on the picks, whatever the others did
    ensures ReachesBestEffort(e, samples) ==>
      var picks := e.pickPhases(samples).value;
      r.location == Settle(e.locate(picks), s.location)
      && r.magnitude == Settle(e.estimateMagnitude(picks), s.magnitude)
      && r.mechanism == Settle(e.invertMechanism(picks), s.mechanism)
      && |r.errors| == |s.errors| + BestEffortFailures(e, picks)
      && r.errors == s.errors + StageError(e.locate(picks), "location: ")
                    + StageError(e.estimateMagnitude(picks), "magnitude: ")
                    + StageError(e.invertMechanism(picks), "mechanism: ")
  {
    match e.pickPhases(samples)
    case Raised(msg) =>
      assert StagePrefixes[0] <= "phase_picking: " + msg;
      s.(errors := s.errors + ["phase_picking: " + msg])
    case Done(picks) =>
      var picked := s.(phasePicks := Some(PickRecord(picks)));
      match e.associate(picks)
      case Raised(msg) =>
        assert StagePrefixes[1] <= "association: " + msg;
        picked.(errors := picked.errors + ["association: " + msg])
      case Done(candidates) =>
        var associated := picked.(association := Some(AssociationResult(candidates)));
        if candidates == [] then associated
        else BestEffort(e, picks, associated)
  }

  /** The three best-effort stages on the picks: each runs whatever the
      others did, sets its slot on a non-empty result and records one error
      when it raises. */
  function BestEffort(e: Estimators, picks: seq<PhaseDetection>, s: Slots): (r: Slots)
    ensures r.phasePicks == s.phasePicks && r.association == s.association
    ensures r.location == Settle(e.locate(picks), s.location)
    ensures r.magnitude == Settle(e.estimateMagnitude(picks), s.magnitude)
    ensures r.mechanism == Settle(e.invertMechanism(picks), s.mechanism)
    ensures s.errors <= r.errors && |r.errors| == |s.errors| + BestEffortFailures(e, picks)
    ensures forall k :: |s.errors| <= k < |r.errors| ==> NamesStage(r.errors[k])
    // the new entries are the location, magnitude and mechanism errors, in running order
    ensures r.errors == s.errors + StageError(e.locate(picks), "location: ")
                      + StageError(e.estimateMagnitude(picks), "magnitude: ")
                      + StageError(e.invertMechanism(picks), "mechanism: ")
  {
    var errs := BestEffortErrors(e, picks);
    var r := s.(location := Settle(e.locate(picks), s.location),
                magnitude := Settle(e.estimateMagnitude(picks), s.magnitude),
                mechanism := Settle(e.invertMechanism(picks), s.mechanism),
                errors := s.errors + errs);
    assert forall k :: |s.errors| <= k < |r.errors| ==> r.errors[k] in errs by {
      forall k | |s.errors| <= k < |r.errors| ensures r.errors[k] in errs {
        assert r.errors[k] == errs[k - |s.errors|];
      }
    }
    r
  }

  /** The errors the best-effort stages record, in running order: one per
      stage that raised, each naming its stage. */
  function BestEffortErrors(e: Estimators, picks: seq<PhaseDetection>): (errs: seq<string>)
    ensures |errs| == BestEffortFailures(e, picks)
    ensures forall m :: m in errs ==> NamesStage(m)
    ensures errs == StageError(e.locate(picks), "location: ") + StageError(e.estimateMagnitude(picks), "magnitude: ")
                    + StageError(e.invertMechanism(picks), "mechanism: ")
  {
    StageErrorNamed(e.locate(picks), 2);
    StageErrorNamed(e.estimateMagnitude(picks), 3);
    StageErrorNamed(e.invertMechanism(picks), 4);
    StageError(e.locate(picks), "location: ") + StageError(e.estimateMagnitude(picks), "magnitude: ")
    + StageError(e.invertMechanism(picks), "mechanism: ")
  }

  lemma StageErrorNamed<T>(outcome: StageOutcome<T>, i: nat)
    requires i < |StagePrefixes|
    ensures forall m :: m in StageError(outcome, StagePrefixes[i]) ==> NamesStage(m)
  {
    if outcome.Raised? {
      assert StagePrefixes[i] <= StagePrefixes[i] + outcome.message;
    }
  }

  /** A best-effort stage cannot disturb the others: two estimator sets that
      differ only in their locator leave the same magnitude and mechanism. */
  lemma LocatorIsolated(e: Estimators, f: Estimators, samples: Samples, s: Slots)
    requires e.pickPhases(samples) == f.pickPhases(samples)
    requires e.pickPhases(samples).Done? ==>
      var picks := e.pickPhases(samples).value;
      e.associate(picks) == f.associate(picks)
      && e.estimateMagnitude(picks) == f.estimateMagnitude(picks)
      && e.invertMechanism(picks) == f.invertMechanism(picks)
    ensures Orchestrate(e, samples, s).magnitude == Orchestrate(f, samples, s).magnitude
    ensures Orchestrate(e, samples, s).mechanism == Orchestrate(f, samples, s).mechanism
    ensures Orchestrate(e, samples, s).phasePicks == Orchestrate(f, samples, s).phasePicks
    ensures Orchestrate(e, samples, s).association == Orchestrate(f, samples, s).association
  {
  }

  /** The same for the magnitude estimator. */
  lemma MagnitudeIsolated(e: Estimators, f: Estimators, samples: Samples, s: Slots)
    requires e.pickPhases(samples) == f.pickPhases(samples)
    requires e.pickPhases(samples).Done? ==>
      var picks := e.pickPhases(samples).value;
      e.associate(picks) == f.associate(picks)
      && e.locate(picks) == f.locate(picks)
      && e.invertMechanism(picks) == f.invertMechanism(picks)
    ensures Orchestrate(e, samples, s).location == Orchestrate(f, samples, s).location
    ensures Orchestrate(e, samples, s).mechanism == Orchestrate(f, samples, s).mechanism
  {
  }

  /** The same for the mechanism inverter. */
  lemma MechanismIsolated(e: Estimators, f: Estimators, samples: Samples, s: Slots)
    requires e.pickPhases(samples) == f.pickPhases(samples)
    requires e.pickPhases(samples).Done? ==>
      var picks := e.pickPhases(samples).value;
      e.associate(picks) == f.associate(picks)
      && e.locate(picks) == f.locate(picks)
      && e.estimateMagnitude(picks) == f.estimateMagnitude(picks)
    ensures Orchestrate(e, samples, s).location == Orchestrate(f, samples, s).location
    ensures Orchestrate(e, samples, s).magnitude == Orchestrate(f, samples, s).magnitude
  {
  }

  /** The stub services of the default build: no picks, no candidates, no estimates.
      With them every run records an empty pick list and an empty association and stops. */
  function DefaultEstimators(): (e: Estimators)
    ensures forall samples, s :: (Orchestrate(e, samples, s)
      == s.(phasePicks := Some(PickRecord([])), association := Some(AssociationResult([]))))
  {
    Estimators(
      (samples: Samples) => Done([]),
      (picks: seq<PhaseDetection>) => Done([]),
      (picks: seq<PhaseDetection>) => Done(None),
      (picks: seq<PhaseDetection>) => Done(None),
      (picks: seq<PhaseDetection>) => Done(None))
  }

  /** The pipeline object: it holds the five services and runs them on a context. */
  class ProcessingPipeline {
    const estimators: Estimators

    constructor (estimators: Estimators)
      ensures this.estimators == estimators
    {
      this.estimators := estimators;
    }

    /** `run`: fills in the context's slots stage by stage and hands the same context back. */
    method Run(context: ProcessingContext) returns (r: ProcessingContext)
      modifies context
      ensures r == context
      ensures context.State() == Orchestrate(estimators, context.waveform.samples, old(context.State()))
    {
      r := context;
      var picked := estimators.pickPhases(context.waveform.samples);
      if picked.Raised? {
        context.AddError("phase_picking: " + picked.message);
        return;
      }
      var picks := picked.value;
      context.phasePicks := Some(PickRecord(picks));

      var associated := estimators.associate(picks);
      if associated.Raised? {
        context.AddError("association: " + associated.message);
        return;
      }
      context.association := Some(AssociationResult(associated.value));
      if associated.value == [] {
        return;
      }

      RunBestEffort(context, picks);
    }

    /** The best-effort half of `run`, on the context. */
    method RunBestEffort(context: ProcessingContext, picks: seq<PhaseDetection>)
      modifies context
      ensures context.State() == BestEffort(estimators, picks, old(context.State()))
    {
      var located := estimators.locate(picks);
      if located.Raised? {
        context.AddError("location: " + located.message);
      } else if located.value.Some? {
        context.location := located.value;
      }

      var sized := estimators.estimateMagnitude(picks);
      if sized.Raised? {
        context.AddError("magnitude: " + sized.message);
      } else if sized.value.Some? {
        context.magnitude := sized.value;
      }

      var inverted := estimators.invertMechanism(picks);
      if inverted.Raised? {
        context.AddError("mechanism: " + inverted.message);
      } else if inverted.value.Some? {
        context.mechanism := inverted.value;
      }
    }
  }

  /** `build_default_pipeline`: a pipeline over the stub services. */
  method BuildDefaultPipeline() returns (p: ProcessingPipeline)
    ensures fresh(p)
    ensures p.estimators == DefaultEstimators()
  {
    p := new ProcessingPipeline(DefaultEstimators());
  }
}
