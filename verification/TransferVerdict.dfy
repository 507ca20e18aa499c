/** Who may wait for a transfer's outcome, and which event decides the verdict. */
module TransferVerdict {
  import opened Wrappers
  import opened CallState

  // --- the armed transfer ---------------------------------------------------------

  /** The outcome fields agree with each other. */
  predicate Coherent(t: Transfer, ended: bool) {
    && (t.terminal.Some? <==> t.inProgress)
    && (t.terminal.Some? <==> t.referCseq.Some?)
    && (t.isSet <==> t.latched)
    && (t.latched ==> t.terminal.Some?)
    && (!t.latched ==> t.progress.None?)
    && (ended && t.terminal.Some? ==> t.latched)
  }

  /** An armed transfer has exactly one owner: the verb holding the lock, or one waiter. */
  predicate Owned(s: State) {
    && (s.holder.Referring? ==>
          s.transfer.terminal == Some(s.holder.event) && s.transfer.referCseq == Some(s.holder.cseq))
    && s.waiting == (if s.transfer.terminal.Some? && !s.holder.Referring?
                     then {s.transfer.terminal.value} else {})
  }

  /** Events are numbered upwards; only a transfer that is over has a report. */
  predicate Numbered(s: State) {
    && (s.transfer.terminal.Some? ==>
          s.transfer.terminal.value < s.nextEvent && s.transfer.terminal.value !in s.reports)
    && (forall e :: e in s.reports ==> e < s.nextEvent)
  }

  predicate TransferInv(s: State) {
    Coherent(s.transfer, s.ended) && Owned(s) && Numbered(s)
  }

  /** Event numbers are used once, and a report is final. */
  predicate Later(s: State, t: State) {
    && TransferInv(t)
    && s.nextEvent <= t.nextEvent
    && (s.ended ==> t.ended)
    && (s.ended && s.transfer.terminal.None? ==> t.transfer.terminal.None?)
    && (t.transfer.terminal == s.transfer.terminal
        || t.transfer.terminal.None? || t.transfer.terminal.value >= s.nextEvent)
    && (forall e :: e in s.reports ==> e in t.reports && t.reports[e] == s.reports[e])
  }

  /** A step reports nothing, or the armed transfer's outcome with the given fallback. */
  predicate Advances(s: State, fallback: Verdict, t: State) {
    && Later(s, t)
    && (t.reports == s.reports
        || (s.transfer.terminal.Some? && t.transfer.terminal.None?
            && t.reports == s.reports[s.transfer.terminal.value := Outcome(s.transfer, fallback)]))
  }

  /** The reason given when nothing has woken the wait: what the step at hand is about. */
  function Fallback(s: State, e: Event): Verdict {
    if !e.Resume? || !s.holder.Referring? then TimedOut
    else if s.holder.cseq in s.pending && s.pending[s.holder.cseq] != [] && s.pending[s.holder.cseq][0].declined
    then SubscriptionDeclined
    else WaitDisabled
  }

  predicate SameTransfer(s: State, t: State) {
    && t.transfer == s.transfer && t.ended == s.ended && t.waiting == s.waiting
    && t.reports == s.reports && t.nextEvent == s.nextEvent
    && (t.holder == s.holder || (!t.holder.Referring? && !s.holder.Referring?))
  }

  // --- every step keeps it ----------------------------------------------------------

  lemma ReofferUntouched(s: State, gates: bool)
    requires s.holder.Free?
    ensures SameTransfer(s, StartReofferStep(s, gates))
  {
  }

  lemma InfoUntouched(s: State, digits: nat)
    requires s.holder.Free?
    ensures SameTransfer(s, StartInfoStep(s, digits))
  {
  }

  lemma FinalUntouched(s: State, r: Response)
    ensures s.holder.Reinvite? ==> SameTransfer(s, ReinviteFinal(s, r))
    ensures s.holder.Informing? ==> SameTransfer(s, InfoFinal(s, r))
  {
    if s.holder.Reinvite? { hide InfoFinal; } else { hide ReinviteFinal; }
  }

  lemma AnswerUntouched(s: State, offer: Offer, answerable: bool)
    ensures SameTransfer(s, ReinviteStep(s, offer, answerable))
  {
  }

  const NONE := Response(0, false, None, false)

  lemma VerbUntouched(s: State, c: nat, r: Response)
    ensures s.holder.Acking? ==> SameTransfer(s, CommitStep(s))
    ensures SameTransfer(s, DoneStep(s)) && SameTransfer(s, Deliver(s, c, r))
  {
    hide CommitStep;
    if s.holder.Acking? { CommitUntouched(s); }
  }

  lemma CommitUntouched(s: State)
    requires s.holder.Acking?
    ensures SameTransfer(s, CommitStep(s))
  {
  }

  lemma StartTransferKeeps(s: State, waits: bool, targetOk: bool)
    requires TransferInv(s) && s.holder.Free?
    ensures Advances(s, TimedOut, StartTransferStep(s, waits, targetOk))
  {
  }

  lemma HangUpKeeps(s: State)
    requires TransferInv(s) && s.holder.Free?
    ensures Advances(s, TimedOut, StartHangUpStep(s))
  {
  }

  lemma AcceptedKeeps(s: State, declined: bool)
    requires TransferInv(s) && s.holder.Referring?
    ensures Advances(s, if declined then SubscriptionDeclined else WaitDisabled, ReferAccepted(s, declined))
  {
  }

  lemma ReferFinalKeeps(s: State, r: Response)
    requires TransferInv(s) && s.holder.Referring?
    ensures Advances(s, if r.declined then SubscriptionDeclined else WaitDisabled, ReferFinal(s, r))
  {
    AcceptedKeeps(s, r.declined);
    AbortKeeps(s);
    hide ReferAccepted, AbortStep;
  }

  lemma AbortKeeps(s: State)
    requires TransferInv(s)
    ensures Advances(s, TimedOut, AbortStep(s))
  {
    if !s.holder.Referring? {
      hide AbortStep;
      AbortUntouched(s);
      SameAdvances(s, TimedOut, AbortStep(s));
    }
  }

  lemma AbortUntouched(s: State)
    requires !s.holder.Referring?
    ensures SameTransfer(s, AbortStep(s))
  {
  }

  lemma WaiterKeeps(s: State, e: Event)
    requires TransferInv(s)
    ensures Advances(s, TimedOut, WaiterStep(s, e))
  {
  }

  lemma ByeKeeps(s: State, e: Event)
    requires TransferInv(s)
    ensures Advances(s, TimedOut, ByeStep(s, e))
  {
  }

  lemma ProgressKeeps(t: Transfer, ended: bool, id: EventId, p: Progress)
    requires Coherent(t, ended)
    ensures var u := RecordProgress(t, id, p);
            Coherent(u, ended) && u.terminal == t.terminal && u.referCseq == t.referCseq
  {
  }

  lemma NotifyKeeps(s: State, n: Notify)
    requires TransferInv(s)
    ensures Advances(s, TimedOut, NotifyStep(s, n))
  {
    if n.fragment.Some? { ProgressKeeps(s.transfer, s.ended, n.id, n.fragment.value); }
    hide RecordProgress, Coherent;
  }

  lemma SameAdvances(s: State, fallback: Verdict, t: State)
    requires TransferInv(s) && SameTransfer(s, t)
    ensures Advances(s, fallback, t)
  {
  }

  lemma ResumeUntouched(s: State)
    requires !s.holder.Referring?
    ensures SameTransfer(s, ResumeStep(s))
  {
    if Awaiting(s.holder) && s.holder.cseq in s.pending && s.pending[s.holder.cseq] != [] {
      hide ReinviteFinal, InfoFinal;
      FinalUntouched(s.(pending := s.pending - {s.holder.cseq}), s.pending[s.holder.cseq][0]);
    }
  }

  lemma ResumeKeeps(s: State)
    requires TransferInv(s)
    ensures Advances(s, Fallback(s, Resume), ResumeStep(s))
  {
    if !s.holder.Referring? {
      hide ResumeStep;
      ResumeUntouched(s);
      SameAdvances(s, Fallback(s, Resume), ResumeStep(s));
    } else {
      hide ResumeStep;
      ReferResumes(s);
    }
  }

  lemma ReferResumes(s: State)
    requires TransferInv(s) && s.holder.Referring?
    ensures Advances(s, Fallback(s, Resume), ResumeStep(s))
  {
    hide ReinviteFinal, InfoFinal, ReferFinal;
    if s.holder.cseq in s.pending && s.pending[s.holder.cseq] != [] {
      ReferFinalKeeps(s.(pending := s.pending - {s.holder.cseq}), s.pending[s.holder.cseq][0]);
    }
  }

  lemma StepKeeps(s: State, e: Event)
    requires TransferInv(s)
    ensures Advances(s, Fallback(s, e), Step(s, e))
  {
    hide ResumeStep, StartReofferStep, StartTransferStep, StartInfoStep, StartHangUpStep, WaiterStep, NotifyStep,
      ByeStep, Deliver, ReinviteStep, CommitStep, AbortStep, DoneStep;
    if Starts(e) {
      if s.holder.Free? {
        match e
        case StartReinvite(gates) => ReofferUntouched(s, gates);
        case StartTransfer(waits, ok) => StartTransferKeeps(s, waits, ok);
        case StartInfo(digits) => InfoUntouched(s, digits);
        case StartHangUp => HangUpKeeps(s);
      }
    } else if Waits(e) {
      WaiterKeeps(s, e);
    } else {
      match e
      case Resume => ResumeKeeps(s);
      case Acked => VerbUntouched(s, 0, NONE);
      case Done => VerbUntouched(s, 0, NONE);
      case Abort => AbortKeeps(s);
      case OnResponse(c, r) => VerbUntouched(s, c, r);
      case InReinvite(offer, answerable) => AnswerUntouched(s, offer, answerable);
      case InNotify(n) => NotifyKeeps(s, n);
      case _ => ByeKeeps(s, e);
    }
  }

  lemma {:induction false} RunKeeps(s: State, trace: seq<Event>)
    requires TransferInv(s)
    ensures Later(s, Run(s, trace))
    decreases |trace|
  {
    if trace != [] {
      StepKeeps(s, trace[0]);
      RunKeeps(Step(s, trace[0]), trace[1..]);
    }
  }

  // --- the first waker decides -------------------------------------------------------

  datatype Wake = Notified(p: Progress) | Ended

  /** Whether this event, here, would wake the wait, by the letter of section 2.4 of RFC 3515. */
  function WakeOf(s: State, e: Event): Option<Wake> {
    match e
    case InNotify(Notify(true, id, Some(p), true)) =>
      if p.terminated && p.status >= 200 && (id.Absent? || (id.Id? && s.transfer.referCseq == Some(id.number)))
      then Some(Notified(p)) else None
    case ByeAnswered => if s.byes > 0 then Some(Ended) else None
    case StartHangUp =>
      if s.holder.Free? && !s.ended && s.routable && s.dialog.cseq + 1 < MAX_CSEQ then Some(Ended) else None
    case _ => None
  }

  /** The first wake of a run. */
  function FirstWake(s: State, trace: seq<Event>): Option<Wake>
    decreases |trace|
  {
    if trace == [] then None
    else
      var w := WakeOf(s, trace[0]);
      if w.Some? then w else FirstWake(Step(s, trace[0]), trace[1..])
  }

  function Latched(t: Transfer): Option<Wake> {
    if !t.latched then None else if t.progress.Some? then Some(Notified(t.progress.value)) else Some(Ended)
  }

  /** The step takes the latch from `s` to `t` as a first-waker rule does, unless it ends the transfer. */
  predicate Follows(s: State, e: Event, t: State) {
    t.transfer.terminal == s.transfer.terminal ==>
      Latched(t.transfer) == if s.transfer.latched then Latched(s.transfer) else WakeOf(s, e)
  }

  lemma StartFollows(s: State, e: Event)
    requires TransferInv(s) && s.transfer.terminal.Some? && Starts(e)
    ensures Follows(s, e, StartStep(s, e))
  {
    hide StartReofferStep, StartInfoStep;
    if s.holder.Free? && e.StartReinvite? { ReofferUntouched(s, e.gates); }
    if s.holder.Free? && e.StartInfo? { InfoUntouched(s, e.digits); }
  }

  lemma ResumeFollows(s: State)
    requires TransferInv(s) && s.transfer.terminal.Some?
    ensures Follows(s, Resume, ResumeStep(s))
  {
    if s.holder.Referring? {
      hide ReinviteFinal, InfoFinal;
    } else {
      hide ResumeStep;
      ResumeUntouched(s);
    }
  }

  lemma WaiterFollows(s: State, e: Event)
    requires TransferInv(s) && s.transfer.terminal.Some?
    ensures Waits(e) ==> Follows(s, e, WaiterStep(s, e))
    ensures Follows(s, Abort, AbortStep(s))
  {
  }

  lemma InboundFollows(s: State, e: Event)
    requires TransferInv(s) && s.transfer.terminal.Some?
    ensures e.InBye? || e.ByeAnswered? || e.ByeFailed? ==> Follows(s, e, ByeStep(s, e))
    ensures e.InNotify? ==> Follows(s, e, NotifyStep(s, e.notify))
  {
    hide ByeStep, NotifyStep;
    if e.InBye? || e.ByeAnswered? || e.ByeFailed? { ByeFollows(s, e); }
    if e.InNotify? { NotifyFollows(s, e); }
  }

  lemma ByeFollows(s: State, e: Event)
    requires TransferInv(s) && s.transfer.terminal.Some? && (e.InBye? || e.ByeAnswered? || e.ByeFailed?)
    ensures Follows(s, e, ByeStep(s, e))
  {
  }

  lemma NotifyFollows(s: State, e: Event)
    requires TransferInv(s) && s.transfer.terminal.Some? && e.InNotify?
    ensures Follows(s, e, NotifyStep(s, e.notify))
  {
  }

  lemma StepFollows(s: State, e: Event)
    requires TransferInv(s) && s.transfer.terminal.Some?
    ensures Follows(s, e, Step(s, e))
  {
    hide ResumeStep, StartStep, WaiterStep, NotifyStep, ByeStep, Deliver, ReinviteStep, CommitStep, AbortStep, DoneStep;
    WaiterFollows(s, e);
    InboundFollows(s, e);
    if Starts(e) {
      StartFollows(s, e);
    } else if !Waits(e) {
      match e
      case Resume => ResumeFollows(s);
      case Acked => VerbUntouched(s, 0, NONE);
      case Done => VerbUntouched(s, 0, NONE);
      case OnResponse(c, r) => VerbUntouched(s, c, r);
      case InReinvite(offer, answerable) => AnswerUntouched(s, offer, answerable);
      case _ =>
    }
  }

  lemma {:induction false} ArmedSince(s: State, trace: seq<Event>, id: nat)
    requires TransferInv(s) && id < s.nextEvent && s.transfer.terminal != Some(id)
    ensures Run(s, trace).transfer.terminal != Some(id)
    decreases |trace|
  {
    if trace != [] {
      StepKeeps(s, trace[0]);
      ArmedSince(Step(s, trace[0]), trace[1..], id);
    }
  }

  /** While a transfer stays armed, its latch is the first wake of the run so far. */
  lemma {:induction false} LatchIsFirstWake(s: State, trace: seq<Event>)
    requires TransferInv(s) && s.transfer.terminal.Some?
    requires Run(s, trace).transfer.terminal == s.transfer.terminal
    ensures Latched(Run(s, trace).transfer)
         == if s.transfer.latched then Latched(s.transfer) else FirstWake(s, trace)
    decreases |trace|
  {
    if trace != [] {
      var t := Step(s, trace[0]);
      StepKeeps(s, trace[0]);
      StepFollows(s, trace[0]);
      if t.transfer.terminal != s.transfer.terminal {
        ArmedSince(t, trace[1..], s.transfer.terminal.value);
      }
      LatchIsFirstWake(t, trace[1..]);
    }
  }

  function VerdictOf(wake: Option<Wake>, fallback: Verdict): Verdict {
    match wake
    case None => fallback
    case Some(Notified(p)) => Finished(p)
    case Some(Ended) => CallEnded
  }

  /**
    The verdict of a transfer, whatever interleaves with it: the first wake between its
    arming and its report, and only without one the reason the wait stopped.  Nothing
    that happens later changes it.
  */
  lemma VerdictIsFirstWake(s: State, waits: bool, trace: seq<Event>, last: Event, later: seq<Event>)
    requires TransferInv(s) && s.holder.Free?
    ensures var armed := Step(s, StartTransfer(waits, true));
            var before := Run(armed, trace);
            var after := Step(before, last);
            armed.transfer.terminal == Some(s.nextEvent)
            && s.nextEvent !in before.reports && s.nextEvent in after.reports ==>
            && after.reports[s.nextEvent] == VerdictOf(FirstWake(armed, trace), Fallback(before, last))
            && after.transfer.terminal.None?
            && s.nextEvent in Run(after, later).reports
            && Run(after, later).reports[s.nextEvent] == after.reports[s.nextEvent]
  {
    hide Step;
    var armed := Step(s, StartTransfer(waits, true));
    var before := Run(armed, trace);
    StepKeeps(s, StartTransfer(waits, true));
    RunKeeps(armed, trace);
    StepKeeps(before, last);
    RunKeeps(Step(before, last), later);
    if armed.transfer.terminal == Some(s.nextEvent) && s.nextEvent !in before.reports
       && s.nextEvent in Step(before, last).reports {
      ArmingIsFresh(s, waits);
      LatchIsFirstWake(armed, trace);
    }
  }

  lemma ArmingIsFresh(s: State, waits: bool)
    requires TransferInv(s) && s.holder.Free?
    requires Step(s, StartTransfer(waits, true)).transfer.terminal == Some(s.nextEvent)
    ensures !Step(s, StartTransfer(waits, true)).transfer.latched
  {
    assert s.transfer.terminal != Some(s.nextEvent);
  }

  // --- whether it waits -----------------------------------------------------------------------

  /** How the transfer of this event stands to its wait: what it was started with, and what its report may be. */
  predicate WaitsAs(s: State, event: nat, waits: bool) {
    && event < s.nextEvent
    && (s.holder.Referring? && s.holder.event == event ==> s.holder.waits == waits)
    && (event in s.waiting ==> waits)
    && (event in s.reports ==> s.reports[event] != if waits then WaitDisabled else TimedOut)
  }

  lemma UntouchedWaits(s: State, t: State, event: nat, waits: bool)
    requires SameTransfer(s, t) && WaitsAs(s, event, waits)
    ensures WaitsAs(t, event, waits)
  {
  }

  lemma StartWaits(s: State, e: Event, event: nat, waits: bool)
    requires Starts(e) && WaitsAs(s, event, waits)
    ensures WaitsAs(StartStep(s, e), event, waits)
  {
    hide StartReofferStep, StartInfoStep;
    if s.holder.Free? {
      match e
      case StartReinvite(gates) => ReofferUntouched(s, gates);
      case StartInfo(digits) => InfoUntouched(s, digits);
      case _ =>
    }
  }

  lemma AcceptedWaits(s: State, declined: bool, event: nat, waits: bool)
    requires s.holder.Referring? && WaitsAs(s, event, waits)
    ensures WaitsAs(ReferAccepted(s, declined), event, waits)
  {
  }

  lemma AbortWaits(s: State, event: nat, waits: bool)
    requires WaitsAs(s, event, waits)
    ensures WaitsAs(AbortStep(s), event, waits)
  {
  }

  lemma ReferWaits(s: State, r: Response, event: nat, waits: bool)
    requires s.holder.Referring? && WaitsAs(s, event, waits)
    ensures WaitsAs(ReferFinal(s, r), event, waits)
  {
    AcceptedWaits(s, r.declined, event, waits);
    AbortWaits(s, event, waits);
    hide ReferAccepted, AbortStep;
  }

  lemma ResumeWaits(s: State, event: nat, waits: bool)
    requires WaitsAs(s, event, waits)
    ensures WaitsAs(ResumeStep(s), event, waits)
  {
    if !s.holder.Referring? {
      hide ResumeStep;
      ResumeUntouched(s);
      UntouchedWaits(s, ResumeStep(s), event, waits);
    } else if s.holder.cseq in s.pending && s.pending[s.holder.cseq] != [] {
      hide ReferFinal, ReinviteFinal, InfoFinal;
      ReferWaits(s.(pending := s.pending - {s.holder.cseq}), s.pending[s.holder.cseq][0], event, waits);
    }
  }

  lemma WaiterWaits(s: State, e: Event, event: nat, waits: bool)
    requires WaitsAs(s, event, waits)
    ensures WaitsAs(WaiterStep(s, e), event, waits) && WaitsAs(ByeStep(s, e), event, waits)
    ensures e.InNotify? ==> WaitsAs(NotifyStep(s, e.notify), event, waits)
  {
    hide RecordProgress, WaiterStep;
    WaiterReports(s, e, event, waits);
  }

  lemma WaiterReports(s: State, e: Event, event: nat, waits: bool)
    requires WaitsAs(s, event, waits)
    ensures WaitsAs(WaiterStep(s, e), event, waits)
  {
  }

  lemma StepWaits(s: State, e: Event, event: nat, waits: bool)
    requires WaitsAs(s, event, waits)
    ensures WaitsAs(Step(s, e), event, waits)
  {
    hide ResumeStep, StartStep, WaiterStep, NotifyStep, ByeStep, Deliver, ReinviteStep, CommitStep, AbortStep, DoneStep,
      WaitsAs;
    WaiterWaits(s, e, event, waits);
    if Starts(e) {
      StartWaits(s, e, event, waits);
    } else {
      match e
      case Resume => ResumeWaits(s, event, waits);
      case Abort => AbortWaits(s, event, waits);
      case OnResponse(c, r) => InertWaits(s, e, event, waits);
      case InReinvite(_, _) => InertWaits(s, e, event, waits);
      case Acked => InertWaits(s, e, event, waits);
      case Done => InertWaits(s, e, event, waits);
      case _ =>
    }
  }

  lemma InertWaits(s: State, e: Event, event: nat, waits: bool)
    requires WaitsAs(s, event, waits) && (e.OnResponse? || e.InReinvite? || e.Acked? || e.Done?)
    ensures WaitsAs(Step(s, e), event, waits)
  {
    hide Deliver, ReinviteStep, CommitStep, DoneStep, WaitsAs, SameTransfer;
    VerbUntouched(s, if e.OnResponse? then e.cseq else 0, if e.OnResponse? then e.response else NONE);
    if e.InReinvite? { AnswerUntouched(s, e.offer, e.answerable); }
    if !(e.Acked? && !s.holder.Acking?) { UntouchedWaits(s, Step(s, e), event, waits); }
  }

  lemma {:induction false} RunWaits(s: State, trace: seq<Event>, event: nat, waits: bool)
    requires WaitsAs(s, event, waits)
    ensures WaitsAs(Run(s, trace), event, waits)
    decreases |trace|
  {
    if trace != [] {
      StepWaits(s, trace[0], event, waits);
      hide WaitsAs, Step;
      RunWaits(Step(s, trace[0]), trace[1..], event, waits);
    }
  }

  /** In no run is a transfer told that the wait was off when it was on, or that it timed out when there was none. */
  lemma VerdictFitsWait(s: State, waits: bool, trace: seq<Event>)
    requires TransferInv(s) && s.holder.Free?
    ensures var armed := Step(s, StartTransfer(waits, true));
            var v := Run(armed, trace);
            armed.transfer.terminal == Some(s.nextEvent) ==>
              && (s.nextEvent in v.waiting ==> waits)
              && (s.nextEvent in v.reports ==> v.reports[s.nextEvent] != if waits then WaitDisabled else TimedOut)
  {
    var armed := Step(s, StartTransfer(waits, true));
    if armed.transfer.terminal == Some(s.nextEvent) {
      assert WaitsAs(armed, s.nextEvent, waits);
      hide WaitsAs, Step;
      RunWaits(armed, trace, s.nextEvent, waits);
    }
  }

  /** The REFER of this event is in progress, and its first final is an acceptance. */
  predicate AcceptanceDue(s: State, event: nat, waits: bool, r: Response) {
    && s.holder.Referring? && s.holder.event == event && s.holder.waits == waits
    && s.holder.cseq in s.pending && s.pending[s.holder.cseq] != [] && s.pending[s.holder.cseq][0] == r
    && 200 <= r.status < 300
  }

  /**
    The REFER is accepted: the lock is free, and what has been latched by then is reported; without that a
    declined subscription is, else a transfer that does not wait says so, and one that does waits, unreported.
  */
  lemma AcceptanceDecides(s: State, event: nat, waits: bool, r: Response)
    requires TransferInv(s) && AcceptanceDue(s, event, waits, r)
    ensures var t := Step(s, Resume);
            && t.holder.Free? && t.sent == s.sent
            && (if Latched(s.transfer).None? && !r.declined && waits
                then event in t.waiting && t.reports == s.reports && t.transfer == s.transfer
                else
                  && event !in t.waiting && t.transfer.terminal.None? && event in t.reports
                  && t.reports[event]
                     == VerdictOf(Latched(s.transfer), if r.declined then SubscriptionDeclined else WaitDisabled))
  {
    hide ReinviteFinal, InfoFinal;
  }

  /** A transfer that waits ends its wait at the bound, on a wake, or with its task, and reports unless cancelled. */
  lemma WaitEnds(s: State, event: nat)
    requires TransferInv(s) && event in s.waiting
    ensures var t := Step(s, WaiterTimesOut(event));
            event !in t.waiting && event in t.reports && t.reports[event] == VerdictOf(Latched(s.transfer), TimedOut)
    ensures var t := Step(s, WaiterCancelled(event));
            t.waiting == {} && t.reports == s.reports && t.transfer.terminal.None?
    ensures var t := Step(s, WaiterWakes(event));
            if s.transfer.latched then event in t.reports && t.waiting == {} else t == s
  {
  }

  /** A NOTIFY of another subscription changes nothing of an armed transfer. */
  lemma StaleNotifyIgnored(s: State, n: Notify)
    requires TransferInv(s) && s.transfer.terminal.Some?
    requires n.id.Malformed? || (n.id.Id? && s.transfer.referCseq != Some(n.id.number))
    ensures Step(s, InNotify(n)).transfer == s.transfer && WakeOf(s, InNotify(n)).None?
  {
  }

  /** No wait outlives the call: a waiter of an ended call can go on at once, with a final reason. */
  lemma EndedCallWakesWaiter(s: State, id: nat)
    requires TransferInv(s) && s.ended && id in s.waiting
    ensures var t := Step(s, WaiterWakes(id));
            id !in t.waiting && id in t.reports && (t.reports[id].Finished? || t.reports[id].CallEnded?)
  {
  }

  /** ... and no transfer starts on it any more. */
  lemma EndedCallArmsNothing(s: State, trace: seq<Event>)
    requires TransferInv(s) && s.ended && s.transfer.terminal.None?
    ensures Run(s, trace).ended && Run(s, trace).transfer.terminal.None? && Run(s, trace).waiting == {}
  {
    RunKeeps(s, trace);
  }
}
