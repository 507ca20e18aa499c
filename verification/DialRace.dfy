/**
  An outbound dial from its first INVITE on, with everything that may race it: any number
  of abort_call tasks, the ring timeout, cancellation of the dial, and the responses.

  Each task moves from await to await.  Once a task has set the abort flag it stops the
  engine and then sends the CANCEL; it may die at either await, as the ring timeout's own
  abort does when disarming the timer cancels the task it runs in.
*/
module DialRace {
  import opened Wrappers

  /** A final of the INVITE; a Retry is a challenge or a 422 that gets an INVITE re-sent. */
  datatype Final = Answer(parseable: bool) | Refusal | Retry

  datatype Dial = Sending | Ringing | Resending | Acking | Byeing | TearingDown | Returned | Raised

  datatype Abort = StoppingEngine | SendingCancel

  datatype State = State(
    dial: Dial,
    cancelRequested: bool,
    entry: bool,                    // the dial is registered as ringing
    timer: bool,                    // the ring timeout is asleep
    tracked: bool,                  // the transport tracks our INVITE
    cancelled: bool,                // ... and has been told to CANCEL it
    glareByed: bool,
    queue: seq<Final>,
    aborts: map<nat, Abort>,        // the aborts past the flag
    results: map<nat, bool>,        // what abort_call returned
    nextAbort: nat,
    ackSent: bool,
    loopTask: bool,                 // the background task that owns the established call
    cancels: nat,
    byes: nat,                      // attempts to BYE by the dial itself
    teardowns: nat,                 // teardowns begun by the dial itself
    glareByes: nat)

  datatype Event =
    | Sent(ok: bool, timer: bool)
    | Arrives(final: Final)
    | Takes
    | Resent(ok: bool)
    | AckSent(ok: bool, acceptable: bool)
    | DialDies                      // the wait times out, or the dial is cancelled
    | ByeDone
    | TeardownDone
    | AbortCalled(connected: bool)
    | TimerFires(connected: bool)
    | EngineStopped(id: nat)
    | CancelSent(id: nat)
    | AbortDies(id: nat)

  /** The first segment has run: the INVITE is tracked and on its way. */
  function Begin(): State {
    State(Sending, false, true, false, true, false, false, [], map[], map[], 0, false, false, 0, 0, 0, 0)
  }

  /** remove_call: the transport forgets the INVITE, the CANCEL and the glare. */
  function Forget(s: State): State { s.(tracked := false, cancelled := false, glareByed := false) }

  /** The `finally` of a dial that failed: off the registry, then BYE what was ACKed, then tear down. */
  function Fail(s: State): State {
    var t := s.(entry := false, timer := false);
    if t.ackSent then t.(dial := Byeing, byes := t.byes + 1)
    else Forget(t).(dial := TearingDown, teardowns := t.teardowns + 1)
  }

  /** The ACK is out: refuse the answer, give in to an abort, or wire the session in one go. */
  function Accept(s: State, acceptable: bool): State {
    var t := s.(ackSent := true);
    if !acceptable || t.cancelRequested then Fail(t)
    else Forget(t).(dial := Returned, loopTask := true, entry := false, timer := false)
  }

  function TakeFinal(s: State, final: Final): State {
    match final
    case Refusal => Fail(s)
    case Retry => s.(dial := Resending)
    case Answer(parseable) => if parseable then s.(timer := false, dial := Acking) else Fail(s.(timer := false))
  }

  function TakeStep(s: State): State {
    if !s.dial.Ringing? || s.queue == [] then s else TakeFinal(s.(queue := s.queue[1..]), s.queue[0])
  }

  function DialStep(s: State, e: Event): State {
    match e
    case Sent(ok, timer) =>
      if !s.dial.Sending? then s
      else if !ok then Fail(s)
      else s.(dial := Ringing, timer := timer)
    case Takes => TakeStep(s)
    case Resent(ok) => if !s.dial.Resending? then s else if ok then s.(dial := Ringing) else Fail(s)
    case AckSent(ok, acceptable) => if !s.dial.Acking? then s else if ok then Accept(s, acceptable) else Fail(s)
    case DialDies => if s.dial.Sending? || s.dial.Ringing? || s.dial.Resending? || s.dial.Acking? then Fail(s) else s
    case ByeDone =>
      if s.dial.Byeing? then Forget(s).(dial := TearingDown, teardowns := s.teardowns + 1) else s
    case TeardownDone => if s.dial.TearingDown? then s.(dial := Raised) else s
    case _ => s
  }

  /** The first segment of abort_call. */
  function AbortStart(s: State, connected: bool): State {
    var id := s.nextAbort;
    var t := s.(nextAbort := id + 1);
    if !s.entry || s.cancelRequested || !connected then t.(results := s.results[id := false])
    else t.(cancelRequested := true, timer := false, aborts := s.aborts[id := StoppingEngine])
  }

  function AbortStep(s: State, e: Event): State {
    match e
    case AbortCalled(connected) => AbortStart(s, connected)
    case TimerFires(connected) => if s.timer then AbortStart(s.(timer := false), connected) else s
    case EngineStopped(id) =>
      if id !in s.aborts || !s.aborts[id].StoppingEngine? then s
      else if s.tracked then s.(cancelled := true, cancels := s.cancels + 1, aborts := s.aborts[id := SendingCancel])
      else s.(aborts := s.aborts - {id}, results := s.results[id := false])
    case CancelSent(id) =>
      if id in s.aborts && s.aborts[id].SendingCancel?
      then s.(aborts := s.aborts - {id}, results := s.results[id := true]) else s
    case AbortDies(id) => s.(aborts := s.aborts - {id})
    case _ => s
  }

  /** A 2xx to a cancelled INVITE never reaches the dial: the transport ACKs it, and BYEs it once. */
  function ArriveStep(s: State, final: Final): State {
    if final.Answer? && s.cancelled
    then s.(glareByed := true, glareByes := s.glareByes + if s.glareByed then 0 else 1)
    else s.(queue := s.queue + [final])
  }

  function Step(s: State, e: Event): State {
    if e.Arrives? then ArriveStep(s, e.final)
    else if e.AbortCalled? || e.TimerFires? || e.EngineStopped? || e.CancelSent? || e.AbortDies? then AbortStep(s, e)
    else DialStep(s, e)
  }

  function Run(s: State, trace: seq<Event>): State
    decreases |trace|
  {
    if trace == [] then s else Run(Step(s, trace[0]), trace[1..])
  }

  // --- the invariant ----------------------------------------------------------------

  predicate InTransaction(d: Dial) { d.Sending? || d.Ringing? || d.Resending? || d.Acking? }

  predicate Owned(s: State) {
    && (s.entry <==> InTransaction(s.dial))
    && (s.ackSent ==> s.dial.Byeing? || s.dial.TearingDown? || s.dial.Returned? || s.dial.Raised?)
    && (s.dial.Byeing? || s.dial.Returned? ==> s.ackSent)
    && (s.loopTask <==> s.dial.Returned?)
    && s.byes == (if s.ackSent && !s.dial.Returned? then 1 else 0)
    && s.teardowns == (if s.dial.TearingDown? || s.dial.Raised? then 1 else 0)
    && (s.timer ==> s.entry && (s.dial.Ringing? || s.dial.Resending?))
  }

  predicate OneAbort(s: State) {
    && (forall a, b :: a in s.aborts && b in s.aborts ==> a == b)
    && (forall a :: a in s.aborts ==> a < s.nextAbort)
    && (forall a :: a in s.results ==> a < s.nextAbort)
    && s.cancels <= 1
    && (forall a :: a in s.aborts && s.aborts[a].StoppingEngine? ==> s.cancels == 0)
    && (forall a :: a in s.aborts && s.aborts[a].SendingCancel? ==> s.cancels == 1)
    && (forall a :: a in s.results && s.results[a] ==> s.cancels == 1)
    && (!s.cancelRequested ==> s.aborts == map[] && s.cancels == 0 && forall a :: a in s.results ==> !s.results[a])
    && (s.cancelRequested ==> !s.dial.Returned?)
  }

  predicate GlareSound(s: State) {
    && (s.cancelled ==> s.tracked && s.cancels == 1)
    && s.glareByes <= s.cancels <= 1
    && (s.glareByes == 1 && s.tracked ==> s.glareByed)
    && (s.glareByed ==> s.glareByes == 1)
    && (s.tracked <==> InTransaction(s.dial) || s.dial.Byeing?)
  }

  predicate Inv(s: State) { Owned(s) && OneAbort(s) && GlareSound(s) }

  lemma FailKeeps(s: State)
    requires Inv(s) && InTransaction(s.dial)
    ensures Inv(Fail(s))
  {
  }

  lemma AcceptKeeps(s: State, acceptable: bool)
    requires Inv(s) && s.dial.Acking?
    ensures Inv(Accept(s, acceptable))
  {
  }

  lemma RingKeeps(s: State, dial: Dial)
    requires Inv(s) && s.dial.Ringing? && (dial.Resending? || dial.Acking?)
    ensures Inv(s.(dial := dial, timer := s.timer && dial.Resending?))
  {
  }

  lemma TakeKeeps(s: State)
    requires Inv(s)
    ensures Inv(TakeStep(s))
  {
    if s.dial.Ringing? && s.queue != [] {
      var t := s.(queue := s.queue[1..], timer := s.timer && !s.queue[0].Answer?);
      assert Inv(t);
      FailKeeps(t);
      RingKeeps(t, if s.queue[0].Retry? then Resending else Acking);
      hide Fail, Inv;
    }
  }

  lemma DialKeeps(s: State, e: Event)
    requires Inv(s)
    ensures Inv(DialStep(s, e))
  {
    TakeKeeps(s);
    if InTransaction(s.dial) { FailKeeps(s); }
    if e.AckSent? && s.dial.Acking? { AcceptKeeps(s, e.acceptable); }
    EndingKeeps(s);
    if e.Sent? && s.dial.Sending? { RingingKeeps(s, e.timer); }
    if s.dial.Resending? { RingingKeeps(s, s.timer); }
    hide Fail, Accept, TakeStep, Forget, Inv;
  }

  lemma EndingKeeps(s: State)
    requires Inv(s)
    ensures s.dial.Byeing? ==> Inv(Forget(s).(dial := TearingDown, teardowns := s.teardowns + 1))
    ensures s.dial.TearingDown? ==> Inv(s.(dial := Raised))
  {
  }

  lemma RingingKeeps(s: State, timer: bool)
    requires Inv(s) && (s.dial.Sending? || s.dial.Resending?)
    ensures Inv(s.(dial := Ringing, timer := timer))
  {
  }

  lemma StartKeeps(s: State, connected: bool)
    requires Owned(s) && OneAbort(s) && GlareSound(s)
    ensures var t := AbortStart(s, connected); Owned(t) && OneAbort(t) && GlareSound(t)
  {
  }

  lemma DisarmKeeps(s: State)
    requires Owned(s) && OneAbort(s) && GlareSound(s)
    ensures var t := s.(timer := false); Owned(t) && OneAbort(t) && GlareSound(t)
  {
  }

  lemma EngineKeeps(s: State, id: nat)
    requires Owned(s) && OneAbort(s) && GlareSound(s)
    ensures var t := AbortStep(s, EngineStopped(id)); Owned(t) && OneAbort(t) && GlareSound(t)
  {
  }

  lemma AbortEndKeeps(s: State, e: Event)
    requires Owned(s) && OneAbort(s) && GlareSound(s) && (e.CancelSent? || e.AbortDies?)
    ensures var t := AbortStep(s, e); Owned(t) && OneAbort(t) && GlareSound(t)
  {
  }

  lemma AbortKeeps(s: State, e: Event)
    requires Inv(s)
    ensures Inv(AbortStep(s, e))
  {
    hide AbortStart, Owned, OneAbort, GlareSound;
    match e
    case AbortCalled(connected) => StartKeeps(s, connected);
    case TimerFires(connected) =>
      DisarmKeeps(s);
      StartKeeps(s.(timer := false), connected);
    case EngineStopped(id) => EngineKeeps(s, id);
    case CancelSent(_) => AbortEndKeeps(s, e);
    case AbortDies(_) => AbortEndKeeps(s, e);
    case _ =>
  }

  lemma StepKeeps(s: State, e: Event)
    requires Inv(s)
    ensures Inv(Step(s, e))
  {
    DialKeeps(s, e);
    AbortKeeps(s, e);
    hide DialStep, AbortStep;
  }

  lemma {:induction false} RunKeeps(s: State, trace: seq<Event>)
    requires Inv(s)
    ensures Inv(Run(s, trace))
    decreases |trace|
  {
    if trace != [] {
      hide Inv, Step;
      StepKeeps(s, trace[0]);
      RunKeeps(Step(s, trace[0]), trace[1..]);
    }
  }

  // --- what it gives -------------------------------------------------------------------

  /** place_call returns a Call-ID only if no abort was ever taken up, and every abort_call returned False. */
  lemma EstablishedExcludesAbort(trace: seq<Event>)
    ensures var s := Run(Begin(), trace);
            s.dial.Returned? ==>
              && !s.cancelRequested && s.cancels == 0 && s.aborts == map[]
              && forall a :: a in s.results ==> !s.results[a]
  {
    RunKeeps(Begin(), trace);
  }

  /** abort_call returns True only when its CANCEL has gone out. */
  lemma TrueMeansCancelled(trace: seq<Event>, id: nat)
    ensures var s := Run(Begin(), trace);
            id in s.results && s.results[id] ==> s.cancels == 1 && s.cancelRequested
  {
    RunKeeps(Begin(), trace);
  }

  /**
    An abort is taken up exactly while the dial is registered, no other has been and the transport is
    connected, and takes the ring timer with it; any other returns False at once and changes nothing.
  */
  lemma AbortTakenIff(s: State, connected: bool)
    requires Inv(s)
    ensures var t, id := Step(s, AbortCalled(connected)), s.nextAbort;
            if InTransaction(s.dial) && !s.cancelRequested && connected
            then t == s.(nextAbort := id + 1, cancelRequested := true, timer := false,
                         aborts := s.aborts[id := StoppingEngine])
            else t == s.(nextAbort := id + 1, results := s.results[id := false])
    ensures Step(s, TimerFires(connected))
         == if s.timer then Step(s.(timer := false), AbortCalled(connected)) else s
  {
  }

  /** What becomes of an abort that was taken up: its CANCEL and True, or False without one, or neither if it dies. */
  lemma AbortEnds(s: State, id: nat)
    requires Inv(s) && id in s.aborts
    ensures var t := Step(s, EngineStopped(id));
            s.aborts[id].StoppingEngine? ==>
              if s.tracked then t.cancels == s.cancels + 1 && t.cancelled && MayReturnTrue(t, id)
              else t == s.(aborts := s.aborts - {id}, results := s.results[id := false])
    ensures MayReturnTrue(s, id) ==>
              Step(s, CancelSent(id)) == s.(aborts := s.aborts - {id}, results := s.results[id := true])
    ensures Step(s, AbortDies(id)) == s.(aborts := s.aborts - {id})
  {
  }

  predicate MayReturnTrue(s: State, id: nat) { id in s.aborts && s.aborts[id].SendingCancel? }

  /** One CANCEL at most per dial, and at most one BYE for the 2xx that raced it. */
  lemma OneCancel(trace: seq<Event>)
    ensures var s := Run(Begin(), trace);
            s.cancels <= 1 && s.glareByes <= s.cancels && (s.cancels > 0 ==> s.cancelRequested)
  {
    RunKeeps(Begin(), trace);
  }

  /** A dial that sent its ACK ends with one owner: the loop task, or one BYE and one teardown of its own. */
  lemma OneOwner(trace: seq<Event>)
    ensures var s := Run(Begin(), trace);
            && (s.dial.Returned? ==> s.ackSent && s.loopTask && s.byes == 0 && s.teardowns == 0)
            && (s.dial.Raised? ==> !s.loopTask && s.teardowns == 1 && s.byes == if s.ackSent then 1 else 0)
            && (s.dial.Returned? || s.dial.Raised? ==> !s.entry && !s.timer)
  {
    RunKeeps(Begin(), trace);
  }

  // --- and what still happens ------------------------------------------------------------------

  lemma AbortSteps(s: State)
    requires Inv(s) && s.entry && !s.cancelRequested
    ensures var id := s.nextAbort;
            var t := Step(Step(Step(s, AbortCalled(true)), EngineStopped(id)), CancelSent(id));
            t.cancelRequested && t.cancels == 1 && id in t.results && t.results[id]
  {
    assert s.cancels == 0 && s.tracked;
    hide Inv, DialStep, ArriveStep;
  }

  /** An abort that nothing gets in the way of CANCELs a ringing dial and returns True. */
  lemma AbortCancels(s: State)
    requires Inv(s) && s.entry && !s.cancelRequested
    ensures var id := s.nextAbort;
            var t := Run(s, [AbortCalled(true), EngineStopped(id), CancelSent(id)]);
            t.cancelRequested && t.cancels == 1 && id in t.results && t.results[id]
  {
    hide Inv, Step;
    AbortSteps(s);
    var id := s.nextAbort;
    var trace := [AbortCalled(true), EngineStopped(id), CancelSent(id)];
    assert trace[1..][1..] == [CancelSent(id)] && trace[1..][1..][1..] == [];
    var b := Step(Step(s, AbortCalled(true)), EngineStopped(id));
    assert Run(s, trace) == Run(b, [CancelSent(id)]) == Run(Step(b, CancelSent(id)), []);
  }

  /** A ringing dial whose next final is a good answer is established, unless an abort came in before. */
  lemma AnswerEstablishesIff(s: State)
    requires Inv(s) && s.dial.Ringing? && s.queue != [] && s.queue[0] == Answer(true)
    ensures Run(s, [Takes, AckSent(true, true)]).dial.Returned? <==> !s.cancelRequested
  {
    var a := Step(s, Takes);
    assert [Takes, AckSent(true, true)][1..] == [AckSent(true, true)];
    assert Run(s, [Takes, AckSent(true, true)]) == Run(Step(a, AckSent(true, true)), []);
  }

  // --- and what comes too late -----------------------------------------------------------------

  predicate Cancels(s: State, e: Event) { Step(s, e).cancels > s.cancels }

  predicate MayCancel(s: State, id: nat) { id in s.aborts && s.aborts[id].StoppingEngine? }

  /** Only an abort whose engine stop returns sends a CANCEL, and it does so until the transport forgets the INVITE. */
  lemma CancelsIff(s: State, e: Event)
    requires Inv(s)
    ensures Cancels(s, e) <==>
              e.EngineStopped? && MayCancel(s, e.id) && (InTransaction(s.dial) || s.dial.Byeing?)
  {
    DialSends(s, e);
    hide DialStep;
  }

  /** What a failing dial leaves: nothing is sent but a BYE, and that only behind an ACK. */
  lemma FailLeaves(s: State)
    ensures Fail(s).cancels == s.cancels && Fail(s).glareByes == s.glareByes && Fail(s).queue == s.queue
    ensures Fail(s).dial == (if s.ackSent then Byeing else TearingDown) && Fail(s).ackSent == s.ackSent
  {
  }

  lemma AcceptLeaves(s: State, acceptable: bool)
    ensures var t := Accept(s, acceptable);
            t.cancels == s.cancels && t.glareByes == s.glareByes && t.queue == s.queue
    ensures Accept(s, acceptable).dial == if acceptable && !s.cancelRequested then Returned else Byeing
  {
  }

  /** Where a final leads: a challenge or a 422 to a new INVITE, a good answer to its ACK, all else to the end. */
  function Leads(final: Final): Dial {
    match final
    case Retry => Resending
    case Answer(true) => Acking
    case _ => TearingDown
  }

  lemma FinalLeaves(s: State, final: Final)
    requires !s.ackSent
    ensures var t := TakeFinal(s, final);
            && t.cancels == s.cancels && t.glareByes == s.glareByes && t.queue == s.queue
            && t.dial == Leads(final) && !t.ackSent
  {
    hide Fail;
    match final
    case Refusal => FailLeaves(s);
    case Answer(_) => FailLeaves(s.(timer := false));
    case Retry =>
  }

  /** What is taken leaves the queue, and where the dial goes with it. */
  lemma TakeLeaves(s: State)
    requires s.dial.Ringing? && s.queue != [] && !s.ackSent
    ensures var t := TakeStep(s);
            && t.cancels == s.cancels && t.glareByes == s.glareByes && t.queue == s.queue[1..]
            && t.dial == Leads(s.queue[0]) && !t.ackSent
  {
    hide TakeFinal;
    FinalLeaves(s.(queue := s.queue[1..]), s.queue[0]);
  }

  lemma TakeNothing(s: State)
    requires !s.dial.Ringing? || s.queue == []
    ensures TakeStep(s) == s
  {
  }

  lemma DialSends(s: State, e: Event)
    requires Owned(s)
    ensures DialStep(s, e).cancels == s.cancels && DialStep(s, e).glareByes == s.glareByes
  {
    assert s.dial.Ringing? ==> !s.ackSent;
    hide Fail, Accept, TakeStep, Owned;
    FailLeaves(s);
    if s.dial.Ringing? && s.queue != [] { TakeLeaves(s); } else { TakeNothing(s); }
    if e.AckSent? { AcceptLeaves(s, e.acceptable); }
    hide Leads;
  }

  /**
    How many finals reached the dial's queue, how many it took, whether its last INVITE still lacks one,
    and the last one taken; whether that was ACKed and accepted with no abort taken up, and whether a 2xx
    came to a cancelled INVITE.
  */
  datatype Tally = Tally(arrived: nat, taken: nat, open: bool, last: Option<Final>, wired: bool, raced: bool)

  const START := Tally(0, 0, true, None, false, false)

  function Count(s: State, e: Event, h: Tally): Tally {
    if e.Arrives? && e.final.Answer? && s.cancelled then h.(raced := true)
    else if e.Arrives? then h.(arrived := h.arrived + 1)
    else if e.Takes? && s.dial.Ringing? && s.queue != [] then
      // the retry puts a new INVITE on the wire
      h.(taken := h.taken + 1, open := s.queue[0].Retry?, last := Some(s.queue[0]))
    else if e == AckSent(true, true) && s.dial.Acking? then h.(wired := !s.cancelRequested)
    else h
  }

  function History(s: State, trace: seq<Event>, h: Tally): Tally
    decreases |trace|
  {
    if trace == [] then h else History(Step(s, trace[0]), trace[1..], Count(s, trace[0], h))
  }

  predicate Unanswered(d: Dial) { d.Sending? || d.Ringing? || d.Resending? }

  predicate Tallied(s: State, h: Tally) {
    && h.arrived == h.taken + |s.queue|
    && (Unanswered(s.dial) ==> h.open)
    && (s.dial.Acking? || s.dial.Byeing? ==> !h.open)
    && (s.dial.Acking? || s.ackSent ==> h.last == Some(Answer(true)))
    && (s.dial.Returned? <==> h.wired)
  }

  predicate Raced(s: State, h: Tally) { s.glareByes == if h.raced then 1 else 0 }

  lemma ArriveRaces(s: State, final: Final, h: Tally)
    requires GlareSound(s) && Raced(s, h)
    ensures Raced(ArriveStep(s, final), Count(s, Arrives(final), h))
  {
  }

  lemma StepRaces(s: State, e: Event, h: Tally)
    requires Inv(s) && Raced(s, h)
    ensures Raced(Step(s, e), Count(s, e, h))
  {
    hide DialStep, AbortStep, ArriveStep, Owned, OneAbort, GlareSound;
    if e.Arrives? {
      hide Raced, Count;
      ArriveRaces(s, e.final, h);
    } else {
      DialSends(s, e);
      if OfAbort(e) { AbortKeepsDial(s, e); }
    }
  }

  predicate OfAbort(e: Event) {
    e.AbortCalled? || e.TimerFires? || e.EngineStopped? || e.CancelSent? || e.AbortDies?
  }

  /** The tally of a dial that has not moved. */
  lemma StillTallied(s: State, t: State, h: Tally, g: Tally)
    requires Tallied(s, h) && t.dial == s.dial && t.ackSent == s.ackSent && g.arrived == g.taken + |t.queue|
    requires g.open == h.open && g.last == h.last && g.wired == h.wired
    ensures Tallied(t, g)
  {
  }

  lemma ArriveLeaves(s: State, final: Final)
    ensures var t := ArriveStep(s, final);
            && t.dial == s.dial && t.ackSent == s.ackSent
            && |t.queue| == |s.queue| + if final.Answer? && s.cancelled then 0 else 1
  {
    if !(final.Answer? && s.cancelled) { assert ArriveStep(s, final).queue == s.queue + [final]; }
  }

  lemma ArriveTallies(s: State, final: Final, h: Tally)
    requires Tallied(s, h)
    ensures Tallied(ArriveStep(s, final), Count(s, Arrives(final), h))
  {
    assert h.arrived == h.taken + |s.queue|;
    hide Tallied, ArriveStep;
    ArriveLeaves(s, final);
    StillTallied(s, ArriveStep(s, final), h, Count(s, Arrives(final), h));
  }

  lemma AbortTallies(s: State, e: Event, h: Tally)
    requires OfAbort(e) && Tallied(s, h)
    ensures Tallied(AbortStep(s, e), Count(s, e, h))
  {
    AbortKeepsDial(s, e);
    hide AbortStep;
  }

  lemma StepTallies(s: State, e: Event, h: Tally)
    requires Owned(s) && Tallied(s, h)
    ensures Tallied(Step(s, e), Count(s, e, h))
  {
    hide DialStep, AbortStep, ArriveStep, Owned, Tallied, Count;
    if e.Arrives? { ArriveTallies(s, e.final, h); }
    else if OfAbort(e) { AbortTallies(s, e, h); }
    else { DialTallies(s, e, h); }
  }

  /** What an abort leaves to the dial. */
  predicate DialKept(s: State, t: State) {
    t.queue == s.queue && t.dial == s.dial && t.ackSent == s.ackSent && t.glareByes == s.glareByes
  }

  lemma AbortKeepsDial(s: State, e: Event)
    ensures DialKept(s, AbortStep(s, e))
  {
    hide AbortStep, DialKept;
    if e.AbortCalled? || e.TimerFires? { StartsLeave(s, e); } else { AbortGoesOn(s, e); }
  }

  lemma StartsLeave(s: State, e: Event)
    requires e.AbortCalled? || e.TimerFires?
    ensures DialKept(s, AbortStep(s, e))
  {
    hide AbortStart;
    StartLeaves(s, e.connected);
    StartLeaves(s.(timer := false), e.connected);
  }

  lemma AbortGoesOn(s: State, e: Event)
    requires !e.AbortCalled? && !e.TimerFires?
    ensures DialKept(s, AbortStep(s, e))
  {
  }

  lemma StartLeaves(s: State, connected: bool)
    ensures DialKept(s, AbortStart(s, connected))
  {
  }

  lemma TakeTallies(s: State, h: Tally)
    requires Owned(s) && Tallied(s, h)
    ensures Tallied(TakeStep(s), Count(s, Takes, h))
  {
    assert s.dial.Ringing? ==> !s.ackSent;
    hide Owned, TakeStep;
    if s.dial.Ringing? && s.queue != [] { TakeLeaves(s); } else { TakeNothing(s); }
  }

  lemma DialTallies(s: State, e: Event, h: Tally)
    requires Owned(s) && Tallied(s, h) && !e.Arrives?
    ensures Tallied(DialStep(s, e), Count(s, e, h))
  {
    hide Fail, Accept, TakeStep;
    if e.Takes? {
      TakeTallies(s, h);
    } else {
      FailLeaves(s);
      if e.AckSent? { AcceptLeaves(s, e.acceptable); }
    }
  }

  lemma {:induction false} RunTallies(s: State, trace: seq<Event>, h: Tally)
    requires Inv(s) && Tallied(s, h) && Raced(s, h)
    ensures var v, g := Run(s, trace), History(s, trace, h); Inv(v) && Tallied(v, g) && Raced(v, g)
    decreases |trace|
  {
    if trace != [] {
      StepKeeps(s, trace[0]);
      StepTallies(s, trace[0], h);
      StepRaces(s, trace[0], h);
      hide Inv, Step, Tallied, Count, Raced;
      RunTallies(Step(s, trace[0]), trace[1..], Count(s, trace[0], h));
    }
  }

  /**
    The CANCEL of any run: it comes before every final the dial took for the INVITE it
    targets exactly while the dial is sending, ringing or re-sending, and before every
    final that arrived exactly if none lies in the queue as well.
  */
  lemma CancelInTimeIff(trace: seq<Event>, e: Event)
    ensures var s, h := Run(Begin(), trace), History(Begin(), trace, START);
            Cancels(s, e) ==>
              && (h.open <==> Unanswered(s.dial))
              && (h.open && h.arrived == h.taken <==> Unanswered(s.dial) && s.queue == [])
  {
    hide Run, History, Step, Inv, Tallied, Cancels;
    BeginSound();
    RunTallies(Begin(), trace, START);
    CancelsIff(Run(Begin(), trace), e);
    if Cancels(Run(Begin(), trace), e) {
      TallyDecides(Run(Begin(), trace), History(Begin(), trace, START));
    }
  }

  /**
    In every run the call is established exactly if a 2xx that could be parsed was the last final taken,
    its ACK went out, the answer was acceptable and no abort had been taken up; nothing else is ever ACKed.
  */
  lemma EstablishedIff(trace: seq<Event>)
    ensures var s, h := Run(Begin(), trace), History(Begin(), trace, START);
            && (s.dial.Returned? <==> h.wired)
            && (s.dial.Acking? || s.ackSent || s.dial.Returned? ==> h.last == Some(Answer(true)))
  {
    BeginSound();
    RunTallies(Begin(), trace, START);
    hide Run, History;
  }

  /** In every run a 2xx that comes to a cancelled INVITE is answered with one BYE, however often it comes. */
  lemma RacedAnswerByed(trace: seq<Event>)
    ensures var s, h := Run(Begin(), trace), History(Begin(), trace, START);
            s.glareByes == if h.raced then 1 else 0
  {
    BeginSound();
    RunTallies(Begin(), trace, START);
    hide Run, History;
  }

  // --- how a dial fails -----------------------------------------------------------------------

  /** The ways a dial in progress fails. */
  predicate Failing(s: State, e: Event) {
    match e
    case Sent(ok, _) => s.dial.Sending? && !ok
    case Takes => s.dial.Ringing? && s.queue != [] && (s.queue[0].Refusal? || s.queue[0] == Answer(false))
    case Resent(ok) => s.dial.Resending? && !ok
    case AckSent(ok, acceptable) => s.dial.Acking? && (!ok || !acceptable || s.cancelRequested)
    case DialDies => InTransaction(s.dial)
    case _ => false
  }

  /** Off the registry and silent; what was ACKed is BYEd, what was not is forgotten, and one teardown follows. */
  predicate Failed(s: State, acked: bool) {
    && !s.entry && !s.timer && !s.loopTask && s.ackSent == acked
    && (if acked then s.dial.Byeing? && s.byes == 1 && s.teardowns == 0
        else s.dial.TearingDown? && s.byes == 0 && s.teardowns == 1 && !s.tracked)
  }

  /** The steps of a dial that goes on, and where they lead. */
  function GoesOn(s: State, e: Event): Dial {
    match e
    case Sent(_, _) => if s.dial.Sending? then Ringing else s.dial
    case Takes => if s.dial.Ringing? && s.queue != [] then Leads(s.queue[0]) else s.dial
    case Resent(_) => if s.dial.Resending? then Ringing else s.dial
    case AckSent(_, _) => if s.dial.Acking? then Returned else s.dial
    case _ => s.dial
  }

  lemma DialFails(s: State, e: Event)
    requires Owned(s) && InTransaction(s.dial) && Failing(s, e)
    ensures Failed(Step(s, e), e.AckSent? && e.ok)
  {
  }

  lemma TimerSet(s: State, e: Event)
    requires s.dial.Sending? && e.Sent? && e.ok
    ensures Step(s, e).timer == e.timer
  {
  }

  lemma DialGoesOn(s: State, e: Event)
    requires Inv(s) && InTransaction(s.dial) && !Failing(s, e)
    ensures Step(s, e).dial == GoesOn(s, e)
  {
    if s.dial.Ringing? && s.queue != [] { TakeLeaves(s); } else { TakeNothing(s); }
    if e.AckSent? { AcceptLeaves(s, e.acceptable); }
    if OfAbort(e) { AbortKeepsDial(s, e); }
    hide Fail, Accept, TakeStep, AbortStep;
  }

  /**
    A dial in progress fails exactly in these ways, and then leaves nothing behind: a refusal or an answer
    that cannot be parsed is never ACKed, an answer that was ACKed is BYEd.  Else it goes on from stage to stage.
  */
  lemma FailsIff(s: State, e: Event)
    requires Inv(s) && InTransaction(s.dial)
    ensures var t := Step(s, e);
            && (Failing(s, e) <==> !InTransaction(t.dial) && !t.dial.Returned?)
            && (Failing(s, e) ==> Failed(t, e.AckSent? && e.ok))
            && (!Failing(s, e) ==> t.dial == GoesOn(s, e))
            && (s.dial.Sending? && e.Sent? && e.ok ==> t.timer == e.timer)
            && (t.dial.Acking? ==> !t.timer)
  {
    StepKeeps(s, e);
    if Failing(s, e) { DialFails(s, e); } else { DialGoesOn(s, e); }
    if s.dial.Sending? && e.Sent? && e.ok { TimerSet(s, e); }
    hide Step;
  }

  /** A failed dial BYEs, tears down and raises, and only after its BYE does the transport forget the INVITE. */
  lemma FailedEnds(s: State)
    requires Inv(s)
    ensures s.dial.Byeing? ==> s.tracked && Step(s, ByeDone).dial.TearingDown? && !Step(s, ByeDone).tracked
                               && Step(s, ByeDone).teardowns == 1
    ensures s.dial.TearingDown? ==> !s.tracked && Step(s, TeardownDone) == s.(dial := Raised)
  {
  }

  lemma BeginSound()
    ensures Inv(Begin()) && Tallied(Begin(), START) && Raced(Begin(), START)
  {
  }

  lemma TallyDecides(s: State, h: Tally)
    requires Tallied(s, h) && (InTransaction(s.dial) || s.dial.Byeing?)
    ensures h.open <==> Unanswered(s.dial)
    ensures h.open && h.arrived == h.taken <==> Unanswered(s.dial) && s.queue == []
  {
  }

  /** So a CANCEL can go out for an INVITE whose 2xx has been taken: the abort was still stopping the engine. */
  lemma LateCancel()
    ensures var trace := [Sent(true, false), Arrives(Answer(true)), Takes, AbortCalled(true)];
            var s := Run(Begin(), trace);
            && Cancels(s, EngineStopped(0))
            && s.dial.Acking? && !History(Begin(), trace, START).open
  {
    var a := Step(Begin(), Sent(true, false));
    var b := Step(a, Arrives(Answer(true)));
    var c := Step(b, Takes);
    var d := Step(c, AbortCalled(true));
    var trace := [Sent(true, false), Arrives(Answer(true)), Takes, AbortCalled(true)];
    assert trace[1..] == [Arrives(Answer(true)), Takes, AbortCalled(true)];
    assert trace[1..][1..] == [Takes, AbortCalled(true)] && trace[1..][1..][1..] == [AbortCalled(true)];
    assert trace[1..][1..][1..][1..] == [];
    assert d.dial.Acking? && Cancels(d, EngineStopped(0));
    hide Step;
    assert Run(Begin(), trace) == Run(b, [Takes, AbortCalled(true)]) == Run(d, []) == d;
    hide Run, History, Inv;
    CancelInTimeIff(trace, EngineStopped(0));
  }
}
