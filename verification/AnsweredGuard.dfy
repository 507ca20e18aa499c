/**
  The answer-time dialog guard of a secured inbound call: between our 200 and the hand-over
  to the CallSession, in-dialog requests reach a guard that only keeps two flags.  Media
  setup, an abort with its background tail, and the peer's ACK and BYE interleave freely.
*/
module AnsweredGuard {
  import opened Wrappers

  datatype DialogOutcome = PeerBye | AckConfirmed | Timeout

  datatype Request = Ack | Bye | OtherRequest

  /** The guard itself; `seen` is every request it has handled. */
  class AnsweredDialogGuard {
    var confirmed: bool
    var peerBye: bool
    ghost var seen: seq<Request>

    constructor ()
      ensures Valid() && seen == []
    {
      confirmed, peerBye, seen := false, false, [];
    }

    /** The two flags are all that is kept of the requests, and it is enough. */
    ghost predicate Valid()
      reads this
    {
      && (confirmed <==> Ack in seen || Bye in seen)
      && (peerBye <==> Bye in seen)
    }

    method HandleRequest(r: Request)
      requires Valid()
      modifies this
      ensures Valid() && seen == old(seen) + [r]
      ensures confirmed == (old(confirmed) || !r.OtherRequest?) && peerBye == (old(peerBye) || r.Bye?)
    {
      match r {
        case Ack => confirmed := true;
        case Bye =>
          peerBye := true;
          confirmed := true;
        case OtherRequest =>
      }
      seen := seen + [r];
    }

    /** wait_outcome once its first wait is over, by a confirmation or by the bound: None is to settle. */
    method AfterConfirmWait() returns (outcome: Option<DialogOutcome>)
      requires Valid()
      ensures outcome == FirstLook(confirmed, peerBye)
      ensures outcome == Some(PeerBye) <==> Bye in seen
      ensures outcome == Some(Timeout) <==> Ack !in seen && Bye !in seen
      ensures outcome.None? <==> Ack in seen && Bye !in seen
    {
      if peerBye { return Some(PeerBye); }
      if !confirmed { return Some(Timeout); }
      outcome := None;
    }

    /** ... and once the settle, which only a confirmed dialog gets to, is over. */
    method AfterSettle() returns (outcome: DialogOutcome)
      requires Valid() && confirmed
      ensures outcome == SettledLook(peerBye)
      ensures outcome == PeerBye <==> Bye in seen
      ensures outcome == AckConfirmed <==> Ack in seen && Bye !in seen
    {
      outcome := if peerBye then PeerBye else AckConfirmed;
    }
  }

  function FirstLook(confirmed: bool, peerBye: bool): Option<DialogOutcome> {
    if peerBye then Some(PeerBye) else if !confirmed then Some(Timeout) else None
  }

  function SettledLook(peerBye: bool): DialogOutcome { if peerBye then PeerBye else AckConfirmed }

  // --- the call around it ---------------------------------------------------------------

  datatype Route = NoRoute | ToGuard | ToSession

  datatype Phase =
    | Answering                     // the 200 is on its way; no route yet
    | Handshaking
    | StartingEngine
    | StartingRtcp
    | EndingQuietly                 // the peer ended the call during setup
    | Releasing                     // an abort stops the engine and closes the media session
    | HandedOver                    // the CallSession has the routes, the CallLoop runs
    | GivenUp                       // the handler is done with the call
    | Stranded                      // an exception or a cancellation escaped the abort handlers

  /** The background tail of an abort. */
  datatype Tail = NoTail | Spawned | Confirming | Settling | Byeing | Over

  /** Under what the guard had seen when we sent our BYE, and what of the waiting was over by then. */
  datatype Sent = Sent(confirmed: bool, peerBye: bool, bound: bool, settled: bool)

  datatype State = State(
    webrtc: bool,
    phase: Phase,
    tail: Tail,
    route: Route,
    confirmed: bool,
    peerBye: bool,
    bound: bool,                    // the whole wait for a confirmation has elapsed
    dropped: bool,                  // the tail was cancelled
    sent: seq<Sent>,
    guarded: nat,                   // peer BYEs, by who took them
    routed: nat,
    unrouted: nat)

  datatype Event =
    | Receives(r: Request)
    | AnswerSent
    | Handshake(ok: bool)
    | Engine(ok: bool)
    | RtcpStarted
    | QuietlyEnded
    | Released
    | HandlerCancelled              // in whatever it awaits
    | TailStarts
    | TailWakes                     // the wait it is in ends because its flag was set
    | TailTimesOut                  // ... or because its bound elapsed
    | ByeDone
    | TailCancelled

  function Begin(webrtc: bool): State {
    State(webrtc, Answering, NoTail, NoRoute, false, false, false, false, [], 0, 0, 0)
  }

  function ReceiveStep(s: State, r: Request): State {
    match s.route
    case ToGuard =>
      s.(confirmed := s.confirmed || !r.OtherRequest?, peerBye := s.peerBye || r.Bye?,
         guarded := s.guarded + if r.Bye? then 1 else 0)
    case ToSession => s.(routed := s.routed + if r.Bye? then 1 else 0)
    case NoRoute => s.(unrouted := s.unrouted + if r.Bye? then 1 else 0)
  }

  function SetupStep(s: State, e: Event): State {
    match e
    case AnswerSent => if s.phase.Answering? then s.(phase := Handshaking, route := ToGuard) else s
    case Handshake(ok) =>
      if s.phase.Handshaking? then s.(phase := if ok then StartingEngine else Releasing) else s
    case Engine(ok) =>
      if !s.phase.StartingEngine? then s
      else if ok then s.(phase := StartingRtcp)
      else s.(phase := if s.webrtc then Stranded else Releasing)
    case RtcpStarted =>
      if !s.phase.StartingRtcp? then s
      else if s.peerBye then s.(phase := EndingQuietly)
      else s.(phase := HandedOver, route := ToSession)
    case QuietlyEnded => if s.phase.EndingQuietly? then s.(phase := GivenUp, route := NoRoute) else s
    case Released => if s.phase.Releasing? then s.(phase := GivenUp, tail := Spawned) else s
    case HandlerCancelled =>
      if s.phase.Answering? then s.(phase := GivenUp)
      else if s.phase.HandedOver? || s.phase.GivenUp? then s
      else s.(phase := Stranded)
    case _ => s
  }

  /** The tail acts on what it learned: leave, settle, or send the BYE. */
  function Act(s: State, outcome: Option<DialogOutcome>): State {
    match outcome
    case None => s.(tail := Settling)
    case Some(PeerBye) => s.(tail := Over, route := NoRoute)
    case Some(_) => s.(tail := Byeing, sent := s.sent + [Sent(s.confirmed, s.peerBye, s.bound, s.tail.Settling?)])
  }

  function TailStep(s: State, e: Event): State {
    match e
    case TailStarts =>
      if !s.tail.Spawned? then s
      else if s.confirmed then Act(s, FirstLook(true, s.peerBye))
      else s.(tail := Confirming)
    case TailWakes =>
      if s.tail.Confirming? && s.confirmed then Act(s, FirstLook(true, s.peerBye))
      else if s.tail.Settling? && s.peerBye then Act(s, Some(SettledLook(true)))
      else s
    case TailTimesOut =>
      if s.tail.Confirming? then Act(s.(bound := true), FirstLook(s.confirmed, s.peerBye))
      else if s.tail.Settling? then Act(s, Some(SettledLook(s.peerBye)))
      else s
    case ByeDone => if s.tail.Byeing? then s.(tail := Over, route := NoRoute) else s
    case TailCancelled =>
      if s.tail.Confirming? || s.tail.Settling? || s.tail.Byeing?
      then s.(tail := Over, route := NoRoute, dropped := true) else s
    case _ => s
  }

  function Step(s: State, e: Event): State {
    if e.Receives? then ReceiveStep(s, e.r)
    else if e.TailStarts? || e.TailWakes? || e.TailTimesOut? || e.ByeDone? || e.TailCancelled? then TailStep(s, e)
    else SetupStep(s, e)
  }

  function Run(s: State, trace: seq<Event>): State
    decreases |trace|
  {
    if trace == [] then s else Run(Step(s, trace[0]), trace[1..])
  }

  // --- the invariant -----------------------------------------------------------------------

  predicate Lawful(sent: Sent) { !sent.peerBye && if sent.confirmed then sent.settled else sent.bound }

  /** The dialog is over on our side. */
  predicate Closed(s: State) { s.phase.GivenUp? && (s.tail.NoTail? || s.tail.Over?) }

  predicate Inv(s: State) {
    && (s.peerBye ==> s.confirmed)
    && (s.guarded > 0 <==> s.peerBye)
    && (s.peerBye ==> !s.phase.HandedOver? && !s.phase.Answering?)
    && (s.route.NoRoute? <==> s.phase.Answering? || Closed(s))
    && (s.route.ToSession? <==> s.phase.HandedOver?)
    && (s.tail.NoTail? || s.phase.GivenUp?) && (s.tail.NoTail? ==> !s.dropped)
    && |s.sent| <= 1
    && (s.sent != [] ==> (s.tail.Byeing? || s.tail.Over?) && Lawful(s.sent[0]))
    && (s.tail.Settling? ==> s.confirmed)
    && (s.tail.Byeing? ==> s.sent != [])
    && (s.tail.Over? && !s.dropped && s.sent == [] ==> s.peerBye)
  }

  lemma TailKeeps(s: State, e: Event)
    requires Inv(s)
    ensures Inv(TailStep(s, e))
  {
  }

  lemma SetupKeeps(s: State, e: Event)
    requires Inv(s)
    ensures Inv(SetupStep(s, e))
  {
  }

  lemma StepKeeps(s: State, e: Event)
    requires Inv(s)
    ensures Inv(Step(s, e))
  {
    TailKeeps(s, e);
    SetupKeeps(s, e);
    hide TailStep, SetupStep;
  }

  lemma {:induction false} RunKeeps(s: State, trace: seq<Event>)
    requires Inv(s)
    ensures Inv(Run(s, trace))
    decreases |trace|
  {
    if trace != [] {
      hide Inv, Step;
      StepKeeps(s, trace[0]);
      RunKeeps(Step(s, trace[0]), trace[1..]);
    }
  }

  /**
    Over every order of events: an abort sends one BYE at most, never after a peer BYE it
    could have seen, and only once an ACK has settled or without one after the whole bound
    (section 15.1.1 of RFC 3261); and unless it is cancelled it does send one to a peer that
    has not ended the call itself.
  */
  lemma AbortByes(webrtc: bool, trace: seq<Event>)
    ensures var s := Run(Begin(webrtc), trace);
            && |s.sent| <= 1
            && (s.sent != [] ==> !s.sent[0].peerBye)
            && (s.sent != [] ==> if s.sent[0].confirmed then s.sent[0].settled else s.sent[0].bound)
            && (s.phase.HandedOver? ==> s.sent == [])
            && (s.tail.Over? && !s.dropped && !s.peerBye ==> |s.sent| == 1)
  {
    RunKeeps(Begin(webrtc), trace);
  }

  /** A BYE the guard saw keeps the CallLoop from starting, whatever else happens. */
  lemma GuardedByeStartsNoLoop(webrtc: bool, trace: seq<Event>)
    ensures var s := Run(Begin(webrtc), trace);
            s.guarded > 0 ==> s.peerBye && s.confirmed && !s.phase.HandedOver?
  {
    RunKeeps(Begin(webrtc), trace);
  }

  /**
    A peer BYE reaches the guard or the registered session unless it arrives before the
    send of our 200 has returned, or when the dialog is closed on our side anyway.
  */
  lemma ByeReachesUnless(webrtc: bool, trace: seq<Event>)
    ensures var s := Run(Begin(webrtc), trace);
            var t := Step(s, Receives(Bye));
            && t.guarded + t.routed + t.unrouted == s.guarded + s.routed + s.unrouted + 1
            && (t.unrouted == s.unrouted <==> !s.phase.Answering? && !Closed(s))
            && (t.routed > s.routed <==> s.phase.HandedOver?)
  {
    RunKeeps(Begin(webrtc), trace);
  }

  /**
    What escapes the abort handlers, a cancellation or a WebRTC engine that does not start, strands
    the answered dialog: whatever happens then, no BYE is sent for it and its route stays the guard's.
  */
  lemma {:induction false} StrandedForGood(s: State, trace: seq<Event>)
    requires Inv(s) && s.phase.Stranded?
    ensures var t := Run(s, trace);
            t.phase.Stranded? && t.sent == [] && t.route.ToGuard? && t.routed == s.routed
    decreases |trace|
  {
    if trace != [] {
      StepKeeps(s, trace[0]);
      assert Step(s, trace[0]).phase.Stranded? && Step(s, trace[0]).routed == s.routed;
      hide Inv, Step;
      StrandedForGood(Step(s, trace[0]), trace[1..]);
    }
  }

  /** An abort in its waits. */
  predicate Waits(t: Tail) { t.Spawned? || t.Confirming? || t.Settling? }

  /**
    A confirmation, or the peer's BYE, is taken up as soon as the abort looks: the BYE ends it without one
    of ours, the ACK starts the settle.  An abort that is cancelled in a wait or in its BYE closes the dialog.
  */
  lemma AbortHeeds(s: State)
    requires Inv(s) && (Waits(s.tail) || s.tail.Byeing?)
    ensures var t := Step(s, if s.tail.Spawned? then TailStarts else TailWakes);
            Waits(s.tail) && s.confirmed ==>
              if s.peerBye then t == s.(tail := Over, route := NoRoute) else t == s.(tail := Settling)
    ensures !s.tail.Spawned? ==> Step(s, TailCancelled) == s.(tail := Over, route := NoRoute, dropped := true)
  {
  }

  /** A call that the peer ended during its setup is over without a BYE of ours. */
  lemma EndedDuringSetup(s: State)
    requires Inv(s) && s.phase.StartingRtcp? && s.peerBye
    ensures var t := Step(Step(s, RtcpStarted), QuietlyEnded);
            t == s.(phase := GivenUp, route := NoRoute) && t.sent == []
  {
  }

  // --- which calls are aborted -----------------------------------------------------------------

  /** After the 200 was sent, and before the hand-over or the end of the handler. */
  predicate SettingUp(p: Phase) {
    p.Handshaking? || p.StartingEngine? || p.StartingRtcp? || p.EndingQuietly? || p.Releasing?
  }

  /** What escapes the abort handlers. */
  predicate Escapes(s: State, e: Event) {
    || (e.HandlerCancelled? && SettingUp(s.phase))
    || (e == Engine(false) && s.webrtc && s.phase.StartingEngine?)
  }

  /** A setup step that fails, and is aborted. */
  predicate FailsSetup(s: State, e: Event) {
    || (e == Handshake(false) && s.phase.Handshaking?)
    || (e == Engine(false) && !s.webrtc && s.phase.StartingEngine?)
  }

  predicate HandsOver(s: State, e: Event) { e.RtcpStarted? && s.phase.StartingRtcp? && !s.peerBye }

  /** What has become of the setup: it escaped, it was aborted, or the call was handed over. */
  datatype Fate = Fate(escaped: bool, failed: bool, handedOver: bool)

  function Learn(s: State, e: Event, f: Fate): Fate {
    Fate(f.escaped || Escapes(s, e), f.failed || FailsSetup(s, e), f.handedOver || HandsOver(s, e))
  }

  function FateOf(s: State, trace: seq<Event>, f: Fate): Fate
    decreases |trace|
  {
    if trace == [] then f else FateOf(Step(s, trace[0]), trace[1..], Learn(s, trace[0], f))
  }

  predicate Fated(s: State, f: Fate) {
    && (s.phase.Stranded? <==> f.escaped)
    && (s.phase.HandedOver? <==> f.handedOver)
    && (s.phase.Releasing? || !s.tail.NoTail? <==> f.failed && !f.escaped)
  }

  lemma SetupFates(s: State, e: Event, f: Fate)
    requires Inv(s) && Fated(s, f)
    ensures Fated(SetupStep(s, e), Learn(s, e, f))
  {
  }

  lemma TailFates(s: State, e: Event, f: Fate)
    requires Inv(s) && Fated(s, f) && OfTail(e)
    ensures Fated(TailStep(s, e), Learn(s, e, f))
  {
  }

  predicate OfTail(e: Event) {
    e.TailStarts? || e.TailWakes? || e.TailTimesOut? || e.ByeDone? || e.TailCancelled?
  }

  lemma StepFates(s: State, e: Event, f: Fate)
    requires Inv(s) && Fated(s, f)
    ensures Fated(Step(s, e), Learn(s, e, f))
  {
    hide SetupStep, TailStep, Inv;
    if e.Receives? {
    } else if OfTail(e) {
      TailFates(s, e, f);
    } else {
      SetupFates(s, e, f);
    }
  }

  lemma {:induction false} RunFates(s: State, trace: seq<Event>, f: Fate)
    requires Inv(s) && Fated(s, f)
    ensures Fated(Run(s, trace), FateOf(s, trace, f))
    decreases |trace|
  {
    if trace != [] {
      StepKeeps(s, trace[0]);
      StepFates(s, trace[0], f);
      hide Inv, Step, Fated, Learn;
      RunFates(Step(s, trace[0]), trace[1..], Learn(s, trace[0], f));
    }
  }

  const UNDECIDED := Fate(false, false, false)

  /**
    In every run an answered call is stranded exactly if its handler was cancelled after the 200 was sent
    and before the hand-over or its end, or a WebRTC engine did not start; it is handed over exactly if the
    last setup step went through with no BYE seen; and every other failure of a setup step is aborted.
  */
  lemma FateDecides(webrtc: bool, trace: seq<Event>)
    ensures var s, f := Run(Begin(webrtc), trace), FateOf(Begin(webrtc), trace, UNDECIDED);
            && (s.phase.Stranded? <==> f.escaped)
            && (s.phase.HandedOver? <==> f.handedOver)
            && (s.phase.Releasing? || !s.tail.NoTail? <==> f.failed && !f.escaped)
  {
    RunFates(Begin(webrtc), trace, UNDECIDED);
    hide Run, FateOf;
  }

  // --- an abort comes to its end -----------------------------------------------------------------

  /** Neither the handler nor the tail is cancelled. */
  predicate LeftToRun(trace: seq<Event>) {
    forall i :: 0 <= i < |trace| ==> !trace[i].HandlerCancelled? && !trace[i].TailCancelled?
  }

  /** How many of its steps an abort has still to take, at most. */
  function Rank(s: State): nat {
    if s.phase.Releasing? then 5
    else
      match s.tail
      case Spawned => 4
      case Confirming => 3
      case Settling => 2
      case Byeing => 1
      case _ => 0
  }

  /** The step an abort takes when nothing more is heard from the peer. */
  function Due(s: State): Event {
    if s.phase.Releasing? then Released
    else
      match s.tail
      case Spawned => TailStarts
      case Byeing => ByeDone
      case _ => TailTimesOut
  }

  predicate Aborting(s: State) {
    Inv(s) && (s.phase.Releasing? || (s.phase.GivenUp? && !s.tail.NoTail?)) && !s.dropped
  }

  function OwnSteps(s: State, trace: seq<Event>): nat
    decreases |trace|
  {
    if trace == [] then 0
    else
      var t := Step(s, trace[0]);
      OwnSteps(t, trace[1..]) + if Rank(t) != Rank(s) then 1 else 0
  }

  lemma TailAborts(s: State, e: Event)
    requires Aborting(s) && OfTail(e) && !e.TailCancelled?
    ensures var t := TailStep(s, e);
            t.phase == s.phase && !t.tail.NoTail? == !s.tail.NoTail? && !t.dropped && Rank(t) <= Rank(s)
  {
  }

  lemma DueAborts(s: State)
    requires Aborting(s) && Rank(s) > 0
    ensures Rank(Step(s, Due(s))) < Rank(s)
  {
  }

  lemma StepAborts(s: State, e: Event)
    requires Aborting(s) && !e.HandlerCancelled? && !e.TailCancelled?
    ensures Aborting(Step(s, e)) && Rank(Step(s, e)) <= Rank(s)
  {
    StepKeeps(s, e);
    if OfTail(e) { TailAborts(s, e); }
    hide Inv, TailStep;
  }

  lemma {:induction false} RunAborts(s: State, trace: seq<Event>)
    requires Aborting(s) && LeftToRun(trace)
    ensures Aborting(Run(s, trace)) && OwnSteps(s, trace) + Rank(Run(s, trace)) <= Rank(s)
    decreases |trace|
  {
    if trace != [] {
      StepAborts(s, trace[0]);
      assert LeftToRun(trace[1..]);
      hide Aborting, Step, Rank;
      RunAborts(Step(s, trace[0]), trace[1..]);
    }
  }

  /**
    From every state of a setup, a failed handshake, or an engine that does not start without WebRTC, is
    aborted; left to run, the abort takes five steps of its own at most, is never stuck whatever the peer
    sends meanwhile, and ends with the dialog closed: by exactly one BYE, or by none exactly if the guard
    had seen the peer's before it was to send its own.
  */
  lemma FailedSetupAborts(s: State, e: Event, trace: seq<Event>)
    requires Inv(s) && FailsSetup(s, e) && LeftToRun(trace)
    ensures var t := Step(s, e);
            var v := Run(t, trace);
            && OwnSteps(t, trace) + Rank(v) <= 5
            && (Rank(v) > 0 ==> Rank(Step(v, Due(v))) < Rank(v))
            && (Rank(v) == 0 <==> v.tail.Over?)
            && (Rank(v) == 0 ==>
                  && v.phase.GivenUp? && v.route.NoRoute?
                  && (if v.sent == [] then v.peerBye else |v.sent| == 1 && !v.sent[0].peerBye))
  {
    var t := Step(s, e);
    StepKeeps(s, e);
    assert Aborting(t) && Rank(t) == 5;
    hide Step;
    RunAborts(t, trace);
    var v := Run(t, trace);
    hide Run;
    if Rank(v) > 0 { DueAborts(v); }
  }

  /** The first exception is real: such a BYE is lost, and the CallLoop runs on a dead dialog. */
  lemma EarlyByeLost(webrtc: bool)
    ensures var s := Run(Begin(webrtc), [Receives(Bye), AnswerSent, Handshake(true), Engine(true), RtcpStarted]);
            s.phase.HandedOver? && s.unrouted == 1 && s.guarded == 0 && s.routed == 0
  {
    var s1 := Step(Begin(webrtc), Receives(Bye));
    var s2 := Step(s1, AnswerSent);
    var s3 := Step(s2, Handshake(true));
    var s4 := Step(s3, Engine(true));
    var s5 := Step(s4, RtcpStarted);
    var trace := [Receives(Bye), AnswerSent, Handshake(true), Engine(true), RtcpStarted];
    assert trace[1..][1..][1..][1..][1..] == [];
    assert Run(Begin(webrtc), trace) == Run(s5, []);
  }
}
