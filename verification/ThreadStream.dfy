/**
  The bounded hand-off from a worker thread to an event loop.

  Two threads share a queue of at most `maxBuffer` messages and a stop flag.  The worker
  moves in the steps between its looks at the flag and its hand-offs; a put it has
  submitted is in flight until the loop performs it.  The loop moves between its awaits.
  A run is any sequence of the two threads' steps.
*/
module ThreadStream {
  import opened Wrappers

  type Value(==)

  datatype Message = Item(value: Value) | Error(exc: nat) | Done

  datatype Worker =
    | Producing                     // in make_iterator or next()
    | Looking(m: Message)           // an item in hand, the loop body about to look at the flag
    | Checking(m: Message)          // in the hand-off, about to look at the flag
    | Submitting(m: Message)        // the flag was clear
    | Waiting(m: Message)           // blocked on the result of its put
    | Closing                       // in the finally
    | Dead

  datatype Outcome = Ended | Raised(exc: nat) | Abandoned | Stuck

  datatype Consumer =
    | Getting                       // awaiting the queue
    | Yielded                       // suspended at the yield
    | Leaving(outcome: Outcome)     // in the finally, before the flag is set
    | Stopping(outcome: Outcome)    // the flag is set
    | Joining(outcome: Outcome)     // the queue has been drained
    | Finished(outcome: Outcome)

  datatype State = State(
    maxBuffer: nat,
    queue: seq<Message>,
    flight: Option<Message>,        // submitted and not performed yet
    landed: bool,                   // the put the worker waits on has been performed
    stop: bool,
    worker: Worker,
    consumer: Consumer,
    produced: seq<Message>,         // everything the producer came up with
    received: seq<Message>,         // everything taken by the consumer
    delivered: seq<Value>,          // the items yielded
    drained: seq<Message>,
    dropped: seq<Message>,          // given up by the worker
    latePuts: nat)                  // puts performed since the drain

  datatype Event =
    | Produce(m: Message)           // next() returns an item, raises or is exhausted
    | Look
    | Check
    | Submit
    | PutReturns
    | PutFails                      // the put is cancelled
    | Close
    | PutLands
    | Get
    | Next                          // the consumer asks for another item
    | Leave                         // the consumer is cancelled or closed
    | SetStop
    | Drain
    | Joined                        // the worker was joined, or the join timed out

  function Begin(maxBuffer: nat): State {
    State(maxBuffer, [], None, false, false, Producing, Getting, [], [], [], [], [], 0)
  }

  function WorkerStep(s: State, e: Event): State {
    match e
    case Produce(m) =>
      if s.worker.Producing?
      then s.(produced := s.produced + [m], worker := if m.Item? then Looking(m) else Checking(m)) else s
    case Look =>
      if !s.worker.Looking? then s
      else if s.stop then s.(worker := Closing, dropped := s.dropped + [s.worker.m])
      else s.(worker := Checking(s.worker.m))
    case Check =>
      if !s.worker.Checking? then s
      else if s.stop then s.(worker := Closing, dropped := s.dropped + [s.worker.m])
      else s.(worker := Submitting(s.worker.m))
    case Submit =>
      if s.worker.Submitting?
      then s.(worker := Waiting(s.worker.m), flight := Some(s.worker.m), landed := false) else s
    case PutReturns =>
      if s.worker.Waiting? && s.landed then s.(worker := if s.worker.m.Item? then Producing else Closing) else s
    case PutFails =>
      if s.worker.Waiting? && s.flight.Some?
      then s.(worker := Closing, flight := None, dropped := s.dropped + [s.flight.value]) else s
    case Close => if s.worker.Closing? then s.(worker := Dead) else s
    case _ => s
  }

  function Receive(s: State): State
    requires s.queue != []
  {
    var m := s.queue[0];
    var t := s.(queue := s.queue[1..], received := s.received + [m]);
    match m
    case Done => t.(consumer := Leaving(Ended))
    case Error(x) => t.(consumer := Leaving(Raised(x)))
    case Item(v) => t.(consumer := Yielded, delivered := s.delivered + [v])
  }

  function LoopStep(s: State, e: Event): State {
    match e
    case PutLands =>
      if s.flight.Some? && |s.queue| < s.maxBuffer
      then s.(queue := s.queue + [s.flight.value], flight := None, landed := true,
              latePuts := s.latePuts + if s.consumer.Joining? || s.consumer.Finished? then 1 else 0)
      else s
    case Get => if s.consumer.Getting? && s.queue != [] then Receive(s) else s
    case Next => if s.consumer.Yielded? then s.(consumer := Getting) else s
    case Leave => if s.consumer.Getting? || s.consumer.Yielded? then s.(consumer := Leaving(Abandoned)) else s
    case SetStop => if s.consumer.Leaving? then s.(stop := true, consumer := Stopping(s.consumer.outcome)) else s
    case Drain =>
      if s.consumer.Stopping?
      then s.(drained := s.drained + s.queue, queue := [], consumer := Joining(s.consumer.outcome)) else s
    case Joined =>
      if s.consumer.Joining?
      then s.(consumer := Finished(if s.worker.Dead? then s.consumer.outcome else Stuck)) else s
    case _ => s
  }

  predicate OfLoop(e: Event) {
    e.PutLands? || e.Get? || e.Next? || e.Leave? || e.SetStop? || e.Drain? || e.Joined?
  }

  function Step(s: State, e: Event): State { if OfLoop(e) then LoopStep(s, e) else WorkerStep(s, e) }

  function Run(s: State, trace: seq<Event>): State
    decreases |trace|
  {
    if trace == [] then s else Run(Step(s, trace[0]), trace[1..])
  }

  // --- nothing is lost, nothing overtakes ----------------------------------------------

  predicate Holding(w: Worker) { w.Looking? || w.Checking? || w.Submitting? }

  /** The one message between the producer and the queue: in flight, in the worker's hand, or given up. */
  function Between(s: State): seq<Message> {
    if s.flight.Some? then [s.flight.value] else if Holding(s.worker) then [s.worker.m] else s.dropped
  }

  /** Every message is in exactly one place, and the places are in the order of production. */
  predicate Conserved(s: State) {
    s.produced == s.received + s.drained + s.queue + Between(s)
  }

  function Values(ms: seq<Message>): seq<Value> {
    if ms == [] then []
    else
      var last := ms[|ms| - 1];
      Values(ms[..|ms| - 1]) + if last.Item? then [last.value] else []
  }

  predicate OnlyItems(ms: seq<Message>) { forall i :: 0 <= i < |ms| ==> ms[i].Item? }

  /** A Done or an Error is the producer's last word. */
  predicate LastWord(s: State) {
    && (forall i :: 0 <= i < |s.produced| - 1 ==> s.produced[i].Item?)
    && (s.worker.Producing? ==> OnlyItems(s.produced))
  }

  predicate WorkerSound(s: State) {
    && (s.flight.Some? ==> s.worker == Waiting(s.flight.value) && !s.landed)
    && (s.worker.Waiting? && !s.landed ==> s.flight.Some?)
    && (s.worker.Looking? ==> s.worker.m.Item?)
    && (s.dropped != [] ==> s.worker.Closing? || s.worker.Dead?)
    && |s.dropped| <= 1
    && (Holding(s.worker) || s.worker.Waiting? ==>
          s.produced != [] && s.produced[|s.produced| - 1] == s.worker.m)
  }

  predicate Draining(c: Consumer) { c.Joining? || c.Finished? }

  predicate ConsumerSound(s: State) {
    && s.delivered == Values(s.received)
    && (s.stop <==> s.consumer.Stopping? || Draining(s.consumer))
    && (s.drained != [] || s.latePuts > 0 ==> Draining(s.consumer))
    && (s.consumer.Getting? || s.consumer.Yielded? ==> OnlyItems(s.received))
    && var o := if s.consumer.Getting? || s.consumer.Yielded? then Abandoned else s.consumer.outcome;
       && (o.Abandoned? ==> OnlyItems(s.received))
       && (o.Ended? ==> EndsWith(s.received, Done))
       && (o.Raised? ==> EndsWith(s.received, Error(o.exc)))
  }

  predicate EndsWith(ms: seq<Message>, m: Message) {
    ms != [] && ms[|ms| - 1] == m && OnlyItems(ms[..|ms| - 1])
  }

  /** Once the queue is drained, one put at most was still to come. */
  predicate LateSound(s: State) {
    Draining(s.consumer) ==>
      && |s.queue| == s.latePuts
      && s.latePuts + (if s.flight.Some? || s.worker.Submitting? then 1 else 0) <= 1
      && (s.latePuts == 1 ==> !s.worker.Submitting? && s.flight.None?)
  }

  predicate Inv(s: State) {
    && s.maxBuffer >= 1 && |s.queue| <= s.maxBuffer
    && Conserved(s) && LastWord(s) && WorkerSound(s) && ConsumerSound(s) && LateSound(s)
  }

  /** What the consumer sees is as it was, and what the worker holds is what it held or what is new. */
  predicate WorkerMoved(s: State, t: State) {
    && WorkerSound(t) && LastWord(t) && LateSound(t)
    && t.maxBuffer == s.maxBuffer && t.queue == s.queue && t.received == s.received && t.drained == s.drained
    && t.consumer == s.consumer && t.delivered == s.delivered && t.stop == s.stop && t.latePuts == s.latePuts
    && (if t.produced == s.produced then Between(t) == Between(s)
        else Between(s) == [] && t.produced == s.produced + Between(t))
  }

  predicate Ready(s: State) { WorkerSound(s) && LastWord(s) && LateSound(s) && (Draining(s.consumer) ==> s.stop) }

  lemma ProduceMoves(s: State, m: Message)
    requires Ready(s) && s.worker.Producing?
    ensures WorkerMoved(s, WorkerStep(s, Produce(m)))
  {
  }

  lemma HeldMoves(s: State, e: Event)
    requires Ready(s) && (e.Look? || e.Check? || e.Submit?)
    ensures WorkerMoved(s, WorkerStep(s, e))
  {
    hide OnlyItems;
  }

  lemma PutMoves(s: State, e: Event)
    requires Ready(s) && (e.PutReturns? || e.PutFails? || e.Close?)
    ensures WorkerMoved(s, WorkerStep(s, e))
  {
  }

  lemma IdleMoves(s: State)
    requires Ready(s)
    ensures WorkerMoved(s, s)
  {
  }

  lemma WorkerMoves(s: State, e: Event)
    requires Ready(s)
    ensures WorkerMoved(s, WorkerStep(s, e))
  {
    hide Ready, WorkerMoved;
    IdleMoves(s);
    if e.Produce? {
      if s.worker.Producing? { ProduceMoves(s, e.m); }
    } else if e.Look? || e.Check? || e.Submit? {
      HeldMoves(s, e);
    } else if e.PutReturns? || e.PutFails? || e.Close? {
      PutMoves(s, e);
    }
  }

  lemma GrownConserved(received: seq<Message>, drained: seq<Message>, queue: seq<Message>, more: seq<Message>)
    ensures received + drained + queue + [] + more == received + drained + queue + more
  {
  }

  lemma WorkerConserves(s: State, e: Event)
    requires Inv(s) && !OfLoop(e)
    ensures Inv(WorkerStep(s, e)) && WorkerStep(s, e).maxBuffer == s.maxBuffer
  {
    hide WorkerStep, WorkerSound, LastWord, LateSound, Between, Values, OnlyItems, EndsWith;
    WorkerMoves(s, e);
    GrownConserved(s.received, s.drained, s.queue, Between(WorkerStep(s, e)));
  }

  lemma Received(ms: seq<Message>, m: Message)
    ensures Values(ms + [m]) == Values(ms) + if m.Item? then [m.value] else []
    ensures OnlyItems(ms) ==> EndsWith(ms + [m], m) && (m.Item? ==> OnlyItems(ms + [m]))
  {
    assert (ms + [m])[..|ms|] == ms;
  }

  lemma TakesFirst(received: seq<Message>, drained: seq<Message>, queue: seq<Message>, rest: seq<Message>)
    requires drained == [] && queue != []
    ensures received + [queue[0]] + drained + queue[1..] + rest == received + drained + queue + rest
  {
    assert [queue[0]] + queue[1..] == queue;
    assert received + [queue[0]] + queue[1..] == received + queue;
  }

  lemma GetConserved(s: State)
    requires Inv(s) && s.consumer.Getting? && s.queue != []
    ensures Conserved(Receive(s))
  {
    hide Values, EndsWith, OnlyItems, WorkerSound, LastWord, LateSound;
    TakesFirst(s.received, s.drained, s.queue, Between(s));
  }

  lemma GetConsumed(s: State)
    requires ConsumerSound(s) && s.consumer.Getting? && s.queue != []
    ensures ConsumerSound(Receive(s))
  {
    hide Values, EndsWith, OnlyItems;
    Received(s.received, s.queue[0]);
    match s.queue[0]
    case Done =>
    case Error(_) =>
    case Item(_) =>
  }

  lemma GetApart(s: State)
    requires LastWord(s) && WorkerSound(s) && s.consumer.Getting? && s.queue != []
    ensures var t := Receive(s);
            LastWord(t) && WorkerSound(t) && LateSound(t) && |t.queue| < |s.queue| && t.maxBuffer == s.maxBuffer
  {
    hide OnlyItems;
  }

  lemma GetConserves(s: State)
    requires Inv(s) && s.consumer.Getting? && s.queue != []
    ensures Inv(Receive(s)) && Receive(s).maxBuffer == s.maxBuffer
  {
    hide Receive, Conserved, LastWord, WorkerSound, ConsumerSound, LateSound;
    GetConsumed(s);
    GetApart(s);
    GetConserved(s);
  }

  lemma PutLandsConserves(s: State)
    requires Inv(s)
    ensures Inv(LoopStep(s, PutLands)) && LoopStep(s, PutLands).maxBuffer == s.maxBuffer
  {
    var t := LoopStep(s, PutLands);
    if s.flight.Some? && |s.queue| < s.maxBuffer {
      assert Between(t) == [];
      assert t.received + t.drained + t.queue + Between(t) == s.received + s.drained + s.queue + Between(s);
    }
  }

  lemma DrainConserves(s: State)
    requires Inv(s)
    ensures Inv(LoopStep(s, Drain)) && LoopStep(s, Drain).maxBuffer == s.maxBuffer
  {
    hide Values, EndsWith, OnlyItems;
    var t := LoopStep(s, Drain);
    if s.consumer.Stopping? {
      assert Between(t) == Between(s) && t.queue == [] && t.drained == s.drained + s.queue;
      hide Between, LoopStep;
      Regrouped(s.received, s.drained, s.queue, Between(s));
    }
  }

  lemma Regrouped(received: seq<Message>, drained: seq<Message>, queue: seq<Message>, rest: seq<Message>)
    ensures received + (drained + queue) + [] + rest == received + drained + queue + rest
  {
  }

  /** The steps of the consumer that move no message. */
  lemma ConsumerConserves(s: State, e: Event)
    requires Inv(s) && (e.Next? || e.Leave? || e.SetStop? || e.Joined?)
    ensures Inv(LoopStep(s, e)) && LoopStep(s, e).maxBuffer == s.maxBuffer
  {
    hide Values, EndsWith, OnlyItems;
    var t := LoopStep(s, e);
    assert Between(t) == Between(s) && Conserved(t) by { hide ConsumerSound, LateSound, LastWord, WorkerSound; }
    hide Between, Conserved;
  }

  lemma LoopConserves(s: State, e: Event)
    requires Inv(s) && OfLoop(e)
    ensures Inv(LoopStep(s, e)) && LoopStep(s, e).maxBuffer == s.maxBuffer
  {
    if e.PutLands? {
      PutLandsConserves(s);
    } else if e.Get? {
      if s.consumer.Getting? && s.queue != [] { GetConserves(s); }
    } else if e.Drain? {
      DrainConserves(s);
    } else {
      ConsumerConserves(s, e);
    }
  }

  lemma StepConserves(s: State, e: Event)
    requires Inv(s)
    ensures Inv(Step(s, e)) && Step(s, e).maxBuffer == s.maxBuffer
  {
    hide Inv, LoopStep, WorkerStep;
    if OfLoop(e) { LoopConserves(s, e); } else { WorkerConserves(s, e); }
  }

  lemma {:induction false} RunConserves(s: State, trace: seq<Event>)
    requires Inv(s)
    ensures Inv(Run(s, trace)) && Run(s, trace).maxBuffer == s.maxBuffer
    decreases |trace|
  {
    if trace != [] {
      hide Inv, Step;
      StepConserves(s, trace[0]);
      RunConserves(Step(s, trace[0]), trace[1..]);
    }
  }

  lemma BeginInv(maxBuffer: nat)
    requires maxBuffer >= 1
    ensures Inv(Begin(maxBuffer))
  {
  }

  /**
    In every schedule of the two threads: what was received, taken back at shutdown, queued
    and between the threads is exactly what was produced, in order; the buffer is bounded;
    and one message at most is outside it.
  */
  lemma StreamConserves(maxBuffer: nat, trace: seq<Event>)
    requires maxBuffer >= 1
    ensures var s := Run(Begin(maxBuffer), trace);
            && s.produced == s.received + s.drained + s.queue + Between(s)
            && s.delivered == Values(s.received)
            && |s.queue| <= maxBuffer && |Between(s)| <= 1
            && (!s.stop ==> s.drained == [])
  {
    BeginInv(maxBuffer);
    RunConserves(Begin(maxBuffer), trace);
  }

  // --- how the consumer ends ---------------------------------------------------------------

  function OutcomeOf(c: Consumer): Outcome {
    if c.Getting? || c.Yielded? then Abandoned else c.outcome
  }

  predicate Exhausted(s: State, last: Message) {
    && s.produced == s.received && EndsWith(s.produced, last)
    && s.delivered == Values(s.produced)
  }

  /** A normal end comes only after every item; an error only after all that was produced before it. */
  lemma EndAfterEverything(maxBuffer: nat, trace: seq<Event>)
    requires maxBuffer >= 1
    ensures var s := Run(Begin(maxBuffer), trace);
            && (OutcomeOf(s.consumer).Ended? ==> Exhausted(s, Done))
            && (OutcomeOf(s.consumer).Raised? ==> Exhausted(s, Error(OutcomeOf(s.consumer).exc)))
  {
    var s := Run(Begin(maxBuffer), trace);
    BeginInv(maxBuffer);
    RunConserves(Begin(maxBuffer), trace);
    if OutcomeOf(s.consumer).Ended? || OutcomeOf(s.consumer).Raised? {
      var n := |s.received| - 1;
      assert !s.received[n].Item? && s.produced[n] == s.received[n];
      assert |s.produced| == |s.received|;
    }
  }

  // --- shutdown ----------------------------------------------------------------------------

  /** What the worker still has to do; next() counts for one step, as its producer is cooperative. */
  function Rank(w: Worker): (n: nat)
    ensures n <= 6
  {
    match w
    case Submitting(_) => 6
    case Waiting(_) => 5
    case Producing => 4
    case Looking(_) => 3
    case Checking(_) => 2
    case Closing => 1
    case Dead => 0
  }

  /** The worker's next step when its put, if it has one out, succeeds and its producer is `next`. */
  function OwnStep(w: Worker, next: Message): Event {
    match w
    case Producing => Produce(next)
    case Looking(_) => Look
    case Checking(_) => Check
    case Submitting(_) => Submit
    case Waiting(_) => PutReturns
    case _ => Close
  }

  /**
    After the drain one put at most is still performed, and the worker is never stuck: a
    put in flight finds room, and every other state of the worker but Dead moves on.
  */
  lemma NeverBlocked(maxBuffer: nat, trace: seq<Event>, next: Message)
    requires maxBuffer >= 1
    requires Draining(Run(Begin(maxBuffer), trace).consumer)
    ensures var s := Run(Begin(maxBuffer), trace);
            && s.latePuts <= 1 && |s.queue| == s.latePuts
            && (s.flight.Some? ==> Step(s, PutLands).flight.None? && Step(s, PutLands).landed)
            && (!s.worker.Dead? && s.flight.None? ==> Rank(Step(s, OwnStep(s.worker, next)).worker) < Rank(s.worker))
  {
    BeginInv(maxBuffer);
    RunConserves(Begin(maxBuffer), trace);
    OwnStepDescends(Run(Begin(maxBuffer), trace), next);
    hide Step, Run, Conserved, Rank, OwnStep;
    LandsAtOnce(Run(Begin(maxBuffer), trace));
  }

  lemma OwnStepDescends(s: State, next: Message)
    requires WorkerSound(s) && s.stop
    ensures !s.worker.Dead? && s.flight.None? ==> Rank(Step(s, OwnStep(s.worker, next)).worker) < Rank(s.worker)
  {
  }

  lemma LandsAtOnce(s: State)
    requires LateSound(s) && s.maxBuffer >= 1 && Draining(s.consumer)
    ensures s.flight.Some? ==> Step(s, PutLands).flight.None? && Step(s, PutLands).landed
  {
  }

  /** The steps of a run in which the worker gets on. */
  function WorkerSteps(s: State, trace: seq<Event>): nat
    decreases |trace|
  {
    if trace == [] then 0
    else
      var t := Step(s, trace[0]);
      WorkerSteps(t, trace[1..]) + if t.worker != s.worker then 1 else 0
  }

  lemma StepDescends(s: State, e: Event)
    requires s.stop
    ensures var t := Step(s, e);
            t.stop && (t.worker == s.worker || Rank(t.worker) < Rank(s.worker))
  {
  }

  /** So it ends: once the flag is set at most six of its steps remain, in any schedule. */
  lemma {:induction false} WorkerEnds(s: State, trace: seq<Event>)
    requires Inv(s) && s.stop
    ensures Run(s, trace).stop
    ensures WorkerSteps(s, trace) + Rank(Run(s, trace).worker) <= Rank(s.worker) <= 6
    decreases |trace|
  {
    if trace != [] {
      StepConserves(s, trace[0]);
      StepDescends(s, trace[0]);
      hide Inv, Step, Rank;
      WorkerEnds(Step(s, trace[0]), trace[1..]);
    }
  }

  // --- and while nobody stops it ----------------------------------------------------------------

  /** Both ends wait for the next message, and there is none. */
  predicate Idle(s: State) {
    && s.worker.Producing? && s.consumer.Getting? && s.queue == [] && s.flight.None? && !s.stop && s.maxBuffer >= 1
  }

  /** The worker's way from the producer to the loop. */
  function HandOff(v: Value): seq<Event> { [Produce(Item(v)), Look, Check, Submit] }

  const PASS_ON: seq<Event> := [PutLands, PutReturns, Get, Next]

  lemma FourOf(s: State, a: Event, b: Event, c: Event, d: Event)
    ensures Run(s, [a, b, c, d]) == Step(Step(Step(Step(s, a), b), c), d)
  {
    hide Step;
    assert [a, b, c, d][1..] == [b, c, d] && [b, c, d][1..] == [c, d] && [c, d][1..] == [d] && [d][1..] == [];
    var s2 := Step(Step(s, a), b);
    assert Run(s, [a, b, c, d]) == Run(s2, [c, d]) == Run(Step(s2, c), [d]);
  }

  lemma {:induction false} RunInTwo(s: State, first: seq<Event>, rest: seq<Event>)
    ensures Run(s, first + rest) == Run(Run(s, first), rest)
    decreases |first|
  {
    hide Step;
    if first == [] {
      assert first + rest == rest;
    } else {
      assert (first + rest)[1..] == first[1..] + rest;
      RunInTwo(Step(s, first[0]), first[1..], rest);
    }
  }

  lemma HandedOff(s: State, v: Value)
    requires Idle(s)
    ensures Run(s, HandOff(v))
         == s.(worker := Waiting(Item(v)), flight := Some(Item(v)), landed := false, produced := s.produced + [Item(v)])
  {
    FourOf(s, Produce(Item(v)), Look, Check, Submit);
    hide Run;
  }

  lemma PassedOn(s: State, v: Value)
    requires s.worker == Waiting(Item(v)) && s.flight == Some(Item(v)) && s.consumer.Getting? && s.queue == []
    requires s.maxBuffer >= 1 && !s.stop
    ensures var t := Run(s, PASS_ON);
            Idle(t) && t.delivered == s.delivered + [v] && t.maxBuffer == s.maxBuffer
  {
    FourOf(s, PutLands, PutReturns, Get, Next);
    hide Run;
  }

  function Delivery(vs: seq<Value>): seq<Event> {
    if vs == [] then [] else HandOff(vs[0]) + PASS_ON + Delivery(vs[1..])
  }

  /** The stream after one value has gone all the way. */
  function Passed(s: State, v: Value): State { Run(Run(s, HandOff(v)), PASS_ON) }

  lemma ValuePassed(s: State, v: Value)
    requires Idle(s)
    ensures Idle(Passed(s, v)) && Passed(s, v).delivered == s.delivered + [v]
  {
    HandedOff(s, v);
    PassedOn(Run(s, HandOff(v)), v);
    hide HandOff, Run;
  }

  function Delivered(s: State, vs: seq<Value>): State { Run(s, Delivery(vs)) }

  lemma NothingDelivered(s: State)
    ensures Delivered(s, []) == s
  {
  }

  lemma DeliveredOn(s: State, vs: seq<Value>)
    requires vs != []
    ensures Delivered(s, vs) == Delivered(Passed(s, vs[0]), vs[1..])
  {
    hide Run, HandOff;
    RunInTwo(s, HandOff(vs[0]) + PASS_ON, Delivery(vs[1..]));
    RunInTwo(s, HandOff(vs[0]), PASS_ON);
  }

  lemma Reassembled(front: seq<Value>, vs: seq<Value>)
    requires vs != []
    ensures front + [vs[0]] + vs[1..] == front + vs
  {
  }

  /** Left to itself the stream delivers every value the producer has, one by one and in order. */
  lemma {:induction false} DeliversAll(s: State, vs: seq<Value>)
    requires Idle(s)
    ensures Idle(Delivered(s, vs)) && Delivered(s, vs).delivered == s.delivered + vs
    decreases |vs|
  {
    hide Passed, Delivered, Idle;
    if vs == [] {
      NothingDelivered(s);
      assert s.delivered + vs == s.delivered;
    } else {
      ValuePassed(s, vs[0]);
      DeliveredOn(s, vs);
      DeliversAll(Passed(s, vs[0]), vs[1..]);
      Reassembled(s.delivered, vs);
    }
  }

  lemma LastSent(s: State, last: Message)
    requires Idle(s) && !last.Item?
    ensures var a := Run(s, [Produce(last), Check, Submit, PutLands]);
            && a.worker == Waiting(last) && a.landed && a.queue == [last] && a.consumer.Getting?
            && a.delivered == s.delivered
  {
    FourOf(s, Produce(last), Check, Submit, PutLands);
    hide Run;
  }

  lemma LastTaken(a: State, last: Message)
    requires a.worker == Waiting(last) && a.landed && a.queue == [last] && a.consumer.Getting? && !last.Item?
    ensures var b := Run(a, [PutReturns, Close, Get, SetStop]);
            b.worker.Dead? && b.delivered == a.delivered
            && b.consumer == Stopping(if last.Done? then Ended else Raised(last.exc))
  {
    FourOf(a, PutReturns, Close, Get, SetStop);
    hide Run;
  }

  /** ... and then its last word, upon which both threads end. */
  lemma EndsCleanly(s: State, last: Message)
    requires Idle(s) && !last.Item?
    ensures var a := Run(s, [Produce(last), Check, Submit, PutLands]);
            var u := Run(Run(a, [PutReturns, Close, Get, SetStop]), [Drain, Joined]);
            && u.worker.Dead? && u.delivered == s.delivered
            && u.consumer == Finished(if last.Done? then Ended else Raised(last.exc))
  {
    var a := Run(s, [Produce(last), Check, Submit, PutLands]);
    LastSent(s, last);
    LastTaken(a, last);
    hide Run, Idle;
    TwoOf(Run(a, [PutReturns, Close, Get, SetStop]), Drain, Joined);
  }

  lemma TwoOf(s: State, a: Event, b: Event)
    ensures Run(s, [a, b]) == Step(Step(s, a), b)
  {
    hide Step;
    assert [a, b][1..] == [b] && [b][1..] == [] && Run(s, [a, b]) == Run(Step(s, a), [b]);
  }

  /** The flag is heeded at both looks, a consumer may leave at each await, and a join tells if it was in vain. */
  lemma StopsWhere(s: State)
    ensures s.stop && (s.worker.Looking? || s.worker.Checking?) ==>
              Step(s, if s.worker.Looking? then Look else Check)
              == s.(worker := Closing, dropped := s.dropped + [s.worker.m])
    ensures s.consumer.Getting? || s.consumer.Yielded? ==> Step(s, Leave) == s.(consumer := Leaving(Abandoned))
    ensures s.consumer.Joining? ==>
              Step(s, Joined) == s.(consumer := Finished(if s.worker.Dead? then s.consumer.outcome else Stuck))
    ensures forall v :: s.worker.Producing? ==> Step(s, Produce(Item(v))).worker == Looking(Item(v))
  {
  }
}
