/** stream_from_thread as the shared object it is; each method is one step of ThreadStream. */
module BoundedStreams {
  import opened Wrappers
  import opened ThreadStream

  class BoundedStream {
    const maxBuffer: nat
    var queue: seq<Message>
    var flight: Option<Message>
    var landed: bool
    var stop: bool
    var worker: Worker
    var consumer: Consumer
    var delivered: seq<Value>
    ghost var produced: seq<Message>
    ghost var received: seq<Message>
    ghost var drained: seq<Message>
    ghost var dropped: seq<Message>
    ghost var latePuts: nat

    ghost function Abs(): State
      reads this
    {
      State(maxBuffer, queue, flight, landed, stop, worker, consumer, produced, received, delivered, drained, dropped,
            latePuts)
    }

    constructor (maxBuffer: nat)
      ensures Abs() == Begin(maxBuffer)
    {
      this.maxBuffer := maxBuffer;
      queue, flight, landed, stop, worker, consumer, delivered := [], None, false, false, Producing, Getting, [];
      produced, received, drained, dropped, latePuts := [], [], [], [], 0;
    }

    // --- the worker thread ------------------------------------------------------------

    /** make_iterator or next() comes back: with an item, an error, or nothing more. */
    method Produce(m: Message)
      requires worker.Producing?
      modifies this
      ensures Abs() == Step(old(Abs()), ThreadStream.Produce(m))
    {
      produced := produced + [m];
      worker := if m.Item? then Looking(m) else Checking(m);
    }

    /** The look at the flag before an item is handed over (`first`), or the one inside the hand-over. */
    method LookAtFlag(first: bool)
      requires if first then worker.Looking? else worker.Checking?
      modifies this
      ensures Abs() == Step(old(Abs()), if first then Look else Check)
    {
      if stop {
        dropped := dropped + [worker.m];
        worker := Closing;
      } else {
        worker := if first then Checking(worker.m) else Submitting(worker.m);
      }
    }

    method SubmitPut()
      requires worker.Submitting?
      modifies this
      ensures Abs() == Step(old(Abs()), Submit)
    {
      flight := Some(worker.m);
      landed := false;
      worker := Waiting(worker.m);
    }

    /** future.result() comes back: the put was performed, or it was cancelled. */
    method PutResult()
      requires worker.Waiting? && (landed || flight.Some?)
      modifies this
      ensures Abs() == Step(old(Abs()), if old(landed) then PutReturns else PutFails)
    {
      if landed {
        worker := if worker.m.Item? then Producing else Closing;
      } else {
        dropped := dropped + [flight.value];
        flight := None;
        worker := Closing;
      }
    }

    // --- the event loop -----------------------------------------------------------------

    method PerformPut()
      requires flight.Some? && |queue| < maxBuffer
      modifies this
      ensures Abs() == Step(old(Abs()), PutLands)
    {
      queue := queue + [flight.value];
      flight := None;
      landed := true;
      if consumer.Joining? || consumer.Finished? { latePuts := latePuts + 1; }
    }

    method GetMessage()
      requires consumer.Getting? && queue != []
      modifies this
      ensures Abs() == Step(old(Abs()), Get)
    {
      var message := queue[0];
      queue := queue[1..];
      received := received + [message];
      match message
      case Done => consumer := Leaving(Ended);
      case Error(exc) => consumer := Leaving(Raised(exc));
      case Item(value) =>
        delivered := delivered + [value];
        consumer := Yielded;
    }

    /** The consumer comes back for another item, or is cancelled or closed where it is suspended. */
    method ResumeConsumer(leaves: bool)
      requires consumer.Yielded? || (consumer.Getting? && leaves)
      modifies this
      ensures Abs() == Step(old(Abs()), if leaves then Leave else Next)
    {
      consumer := if leaves then Leaving(Abandoned) else Getting;
    }

    /** Empty the queue one message at a time; nothing else runs on the loop meanwhile. */
    method DrainQueue()
      requires consumer.Stopping?
      modifies this
      ensures Abs() == Step(old(Abs()), Drain)
    {
      while queue != []
        invariant drained + queue == old(drained + queue)
        invariant Abs() == old(Abs()).(queue := queue, drained := drained)
        decreases |queue|
      {
        drained := drained + [queue[0]];
        queue := queue[1..];
      }
      consumer := Joining(consumer.outcome);
    }

    method SetStopFlag()
      requires consumer.Leaving?
      modifies this
      ensures Abs() == Step(old(Abs()), SetStop)
    {
      stop := true;
      consumer := Stopping(consumer.outcome);
    }

    /** The join returned: with the worker dead, or with the worker still alive. */
    method FinishJoin()
      requires consumer.Joining?
      modifies this
      ensures Abs() == Step(old(Abs()), Joined)
    {
      consumer := Finished(if worker.Dead? then consumer.outcome else Stuck);
    }
  }
}
