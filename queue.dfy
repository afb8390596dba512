/** The realtime queue: a bounded FIFO of processing contexts drained by one
    background worker that runs the pipeline on each and then notifies the
    completion callback. The worker is modelled as a program counter that
    the scheduler advances step by step. */
module PipelineQueue {
  import opened PipelineContext
  import opened Orchestrator

  /** The default capacity of the queue. */
  const DefaultMaxSize := 1000

  /** Where the worker loop is: about to test the stop flag, or waiting on `get`. */
  datatype WorkerPc = AtLoopHead | AtGet

  /** The background task: never created, running at a program counter, or done. */
  datatype WorkerTask = NoTask | Running(pc: WorkerPc) | Finished

  class RealtimeQueue {
    const pipeline: ProcessingPipeline
    /** `Queue(maxsize=...)`: a value of zero or less means no bound. */
    const maxsize: int
    /** Whether an `on_complete` callback was configured. */
    const notifies: bool
    var items: seq<ProcessingContext>
    /** The queue's count of items not yet marked done. */
    var unfinished: nat
    var task: WorkerTask
    var stopRequested: bool
    /** The contexts handed to the completion callback, in order. */
    var completed: seq<ProcessingContext>
    ghost var submitted: seq<ProcessingContext>
    ghost var taken: seq<ProcessingContext>

    /** The capacity holds, every waiting item is unfinished, and the worker
        takes items in the order they were submitted. */
    ghost predicate Valid()
      reads this
    {
      (maxsize > 0 ==> |items| <= maxsize)
      && unfinished == |items|
      && submitted == taken + items
    }

    /** `put` returns at once: the queue is unbounded or below its bound. */
    predicate HasRoom()
      reads this
    {
      maxsize <= 0 || |items| < maxsize
    }

    /** `stop` returns: the worker is not parked on `get` over an empty queue. */
    predicate StopCompletes()
      reads this
    {
      task != Running(AtGet) || |items| > 0
    }

    constructor (pipeline: ProcessingPipeline, maxsize: int, notifies: bool)
      ensures Valid()
      ensures this.pipeline == pipeline && this.maxsize == maxsize && this.notifies == notifies
      ensures items == [] && task == NoTask && !stopRequested && completed == []
      ensures submitted == [] && taken == []
    {
      this.pipeline := pipeline;
      this.maxsize := maxsize;
      this.notifies := notifies;
      items, unfinished, task, stopRequested, completed := [], 0, NoTask, false, [];
      submitted, taken := [], [];
    }

    /** `start`: a no-op while a worker is running; otherwise it clears the
        stop flag and launches a fresh worker at the top of its loop. */
    method Start()
      requires Valid()
      modifies this
      ensures Valid()
      ensures old(task).Running? ==> task == old(task) && stopRequested == old(stopRequested)
      ensures !old(task).Running? ==> task == Running(AtLoopHead) && !stopRequested
      ensures items == old(items) && completed == old(completed)
      ensures submitted == old(submitted) && taken == old(taken)
    {
      if task.Running? {
        return;
      }
      stopRequested := false;
      task := Running(AtLoopHead);
    }

    /** `submit`: the context joins the back of the queue. */
    method Submit(context: ProcessingContext)
      requires Valid() && HasRoom()
      modifies this
      ensures Valid()
      ensures items == old(items) + [context]
      ensures submitted == old(submitted) + [context] && taken == old(taken)
      ensures task == old(task) && stopRequested == old(stopRequested) && completed == old(completed)
    {
      items := items + [context];
      unfinished := unfinished + 1;
      submitted := submitted + [context];
    }

    /** One worker step at the loop head: exit when the stop flag is set,
        otherwise go and wait for the next item. */
    method WorkerCheckStop()
      requires Valid() && task == Running(AtLoopHead)
      modifies this
      ensures Valid()
      ensures task == (if stopRequested then Finished else Running(AtGet))
      ensures items == old(items) && completed == old(completed) && stopRequested == old(stopRequested)
      ensures submitted == old(submitted) && taken == old(taken)
    {
      if stopRequested {
        task := Finished;
      } else {
        task := Running(AtGet);
      }
    }

    /** One worker step at `get`: take the front item, run the pipeline on
        it, notify the callback, mark the item done and loop again. */
    method WorkerProcessNext() returns (context: ProcessingContext)
      requires Valid() && task == Running(AtGet) && |items| > 0
      modifies this, items[0]
      ensures Valid()
      ensures context == old(items[0])
      ensures items == old(items[1..]) && taken == old(taken) + [context]
      ensures context.State() == Orchestrate(pipeline.estimators, context.waveform.samples, old(context.State()))
      ensures completed == if notifies then old(completed) + [context] else old(completed)
      ensures task == Running(AtLoopHead)
      ensures submitted == old(submitted) && stopRequested == old(stopRequested)
    {
      context := items[0];
      items := items[1..];
      taken := taken + [context];
      var processed := pipeline.Run(context);
      if notifies {
        completed := completed + [processed];
      }
      unfinished := unfinished - 1;
      task := Running(AtLoopHead);
    }

    /** The worker loop while no stop is requested: starting at the loop
        head it runs the pipeline once on every waiting item, in arrival
        order, and ends parked on `get` over the empty queue. The waiting
        contexts are distinct objects, so each is processed exactly once. */
    method WorkerRunUntilIdle()
      requires Valid() && task == Running(AtLoopHead) && !stopRequested
      requires forall i, j :: 0 <= i < j < |items| ==> items[i] != items[j]
      modifies this, items
      ensures Valid() && items == [] && task == Running(AtGet) && !stopRequested
      ensures taken == old(taken) + old(items)
      ensures completed == if notifies then old(completed) + old(items) else old(completed)
      ensures submitted == old(submitted)
      ensures forall i :: 0 <= i < |old(items)| ==>
        old(items)[i].State() == Orchestrate(pipeline.estimators, old(items)[i].waveform.samples, old(items[i].State()))
    {
      ghost var pending := items;
      ghost var before := seq(|pending|, i requires 0 <= i < |pending| reads pending => pending[i].State());
      ghost var startTaken, startCompleted := taken, completed;
      WorkerCheckStop();
      while |items| > 0
        invariant Valid() && task == Running(AtGet) && !stopRequested && submitted == old(submitted)
        invariant Drained(pending, before, startTaken, startCompleted)
        decreases |items|
      {
        DrainStep(pending, before, startTaken, startCompleted);
      }
      assert pending[..|pending|] == pending;
    }

    /** The contexts still to come are the tail of `pending`; the ones before
        them have been taken, reported when there is a callback, and run once
        from their slots `before`; the rest still hold those slots. */
    ghost predicate Drained(pending: seq<ProcessingContext>, before: seq<Slots>,
                            startTaken: seq<ProcessingContext>, startCompleted: seq<ProcessingContext>)
      reads this, pending
    {
      var done := |pending| - |items|;
      && |items| <= |pending| && |before| == |pending|
      && (forall i, j :: 0 <= i < j < |pending| ==> pending[i] != pending[j])
      && items == pending[done..]
      && taken == startTaken + pending[..done]
      && completed == (if notifies then startCompleted + pending[..done] else startCompleted)
      && (forall i :: 0 <= i < done ==> RanOnce(pending[i], before[i]))
      && (forall i :: done <= i < |pending| ==> pending[i].State() == before[i])
    }

    /** The context has been through exactly one pipeline run from the slots `before`. */
    ghost predicate RanOnce(context: ProcessingContext, before: Slots)
      reads context
    {
      context.State() == Orchestrate(pipeline.estimators, context.waveform.samples, before)
    }

    /** One turn of the worker loop inside `WorkerRunUntilIdle`. */
    method DrainStep(ghost pending: seq<ProcessingContext>, ghost before: seq<Slots>,
                     ghost startTaken: seq<ProcessingContext>, ghost startCompleted: seq<ProcessingContext>)
      requires Valid() && task == Running(AtGet) && !stopRequested && |items| > 0
      requires Drained(pending, before, startTaken, startCompleted)
      modifies this, items[0]
      ensures Valid() && task == Running(AtGet) && !stopRequested && submitted == old(submitted)
      ensures |items| < old(|items|)
      ensures Drained(pending, before, startTaken, startCompleted)
    {
      ghost var done := |pending| - |items|;
      assert items[0] == pending[done];
      label Step:
      var _ := WorkerProcessNext();
      assert RanOnce(pending[done], before[done]);
      forall i | 0 <= i < |pending| && i != done
        ensures pending[i].State() == old@Step(pending[i].State())
      {
        assert pending[i] != pending[done];
      }
      assert pending[..done + 1] == pending[..done] + [pending[done]];
      WorkerCheckStop();
    }

    /** `stop`: set the flag and wait for the worker. A worker at its loop
        head exits at once; one about to take an item finishes that item
        first. Items still waiting stay in the queue. */
    method Stop()
      requires Valid() && StopCompletes()
      modifies this, if task == Running(AtGet) && |items| > 0 then {items[0]} else {}
      ensures Valid() && stopRequested
      ensures !old(task).Running? ==> task == old(task) && items == old(items) && completed == old(completed)
      ensures old(task).Running? ==> task == Finished
      ensures old(task) == Running(AtLoopHead) ==> items == old(items) && completed == old(completed)
      ensures old(task) == Running(AtGet) ==>
        items == old(items[1..]) && taken == old(taken) + [old(items[0])]
        && completed == (if notifies then old(completed) + [old(items[0])] else old(completed))
        && old(items[0]).State()
           == Orchestrate(pipeline.estimators, old(items[0]).waveform.samples, old(items[0].State()))
      ensures submitted == old(submitted)
      // without a worker waiting on `get`, no waiting context is touched
      ensures old(task) != Running(AtGet) && |old(items)| > 0 ==> old(items)[0].State() == old(items[0].State())
    {
      stopRequested := true;
      if task.Running? {
        if task.pc == AtGet {
          var _ := WorkerProcessNext();
        }
        WorkerCheckStop();
      }
    }
  }

  /** Items leave in the order they arrived: whatever the worker has taken so
      far is a prefix of what was submitted. */
  lemma TakenIsPrefix(q: RealtimeQueue)
    requires q.Valid()
    ensures q.taken <= q.submitted
    ensures |q.submitted| == |q.taken| + q.unfinished
  {
  }
}
