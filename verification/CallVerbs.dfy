/**
  What a verb or an inbound request comes to, read off the wire and the fields it is about:
  which answer a re-INVITE gets, what a final response leads to, and when a call is over.
*/
module CallVerbs {
  import opened Wrappers
  import opened CallState
  import opened CallRuns
  import opened CallCrypto
  import opened TransferVerdict

  /** What a step puts on the wire, if it puts anything there. */
  function Put(s: State, t: State): Option<Wire> {
    if |t.sent| == |s.sent| + 1 then Some(t.sent[|s.sent|]) else None
  }

  // --- the answer to a re-INVITE -----------------------------------------------------------

  /** An offer that cannot be taken: without audio, or one that would take the encryption off a secured call. */
  predicate Unacceptable(s: State, offer: Offer) {
    && offer.Offered?
    && (offer.sdp.audio.None?
        || (s.media.crypto.Some? && (!offer.sdp.audio.value.srtp || offer.sdp.audio.value.cryptos == [])))
  }

  /** The SDES attribute of our 200: none on a plain call, the current one, or a fresh key under the offered tag. */
  function AnswerCrypto(s: State, offer: Offer): Option<Crypto> {
    match offer
    case Offered(Sdp(Some(audio))) =>
      if s.media.crypto.None? || audio.cryptos == [] then None else Some(audio.cryptos[0].(key := s.nextKey))
    case _ => s.media.crypto
  }

  lemma RefusedFor(s: State, offer: Offer)
    ensures Refused(s, offer) == if s.offerPending then Some(491) else if offer.Unparseable? then Some(400)
                                 else if Unacceptable(s, offer) then Some(488) else None
  {
  }

  lemma AnswerPut(s: State, offer: Offer)
    requires !offer.Unparseable? && !Unacceptable(s, offer)
    ensures var t, u, crypto := AnswerStep(s, offer, true), AnswerStep(s, offer, false), AnswerCrypto(s, offer);
            && t.sent == s.sent + [Answer(Body(s.dialog.version + 1, crypto))]
            && t.dialog == s.dialog.(version := s.dialog.version + 1)
            && (t.media.crypto == crypto || s.media.crypto.None?)
            && u == s.(nextKey := u.nextKey)
  {
  }

  /**
    A re-INVITE is refused for glare exactly while an offer of ours is out, else as malformed exactly
    when its offer cannot be parsed, else as unacceptable exactly for such an offer; in every other case
    it is answered, with the next version.  A refusal changes nothing else, and one that has no headers
    to echo gets no answer and leaves keys and version alone.
  */
  lemma ReinviteAnswered(s: State, offer: Offer)
    ensures var t, u := Step(s, InReinvite(offer, true)), Step(s, InReinvite(offer, false));
            var m := Put(s, t);
            && m.Some? && t.sent == s.sent + [m.value]
            && (m == Some(Refusal(491)) <==> s.offerPending)
            && (m == Some(Refusal(400)) <==> !s.offerPending && offer.Unparseable?)
            && (m == Some(Refusal(488)) <==> !s.offerPending && Unacceptable(s, offer))
            && (if s.offerPending || offer.Unparseable? || Unacceptable(s, offer) then t == s.(sent := t.sent)
                else
                  && m == Some(Answer(Body(s.dialog.version + 1, AnswerCrypto(s, offer))))
                  && t.dialog == s.dialog.(version := s.dialog.version + 1)
                  && (t.media.crypto == AnswerCrypto(s, offer) || s.media.crypto.None?))
            && u == s.(nextKey := u.nextKey)
  {
    RefusedFor(s, offer);
    if !offer.Unparseable? && !Unacceptable(s, offer) { AnswerPut(s, offer); }
    hide Refused, AnswerStep, AnswerCrypto, Unacceptable;
  }

  /** Over runs: glare is exactly a re-INVITE of ours between its offer and the end of its exchange. */
  lemma GlareIff(s: State, trace: seq<Event>, offer: Offer)
    requires CryptoInv(s)
    ensures var v := Run(s, trace);
            Put(v, Step(v, InReinvite(offer, true))) == Some(Refusal(491))
            <==> v.holder.Reinvite? || v.holder.Acking?
  {
    CallCrypto.RunKeeps(s, trace);
    hide Step, Run, AcksReuseCseq, BodiesSecured, LastRequest;
    ReinviteAnswered(Run(s, trace), offer);
  }

  // --- what goes onto the wire, and for what -----------------------------------------------

  /** The request a verb that holds the lock is about. */
  function VerbOf(h: Holder): Option<Verb> {
    match h
    case Reinvite(_, _, _, _) => Some(INVITE)
    case Referring(_, _, _, _) => Some(REFER)
    case Informing(_, _, _) => Some(INFO)
    case _ => None
  }

  /** The request an event may put on the wire. */
  function Asks(s: State, e: Event): Option<Verb> {
    match e
    case StartReinvite(_) => Some(INVITE)
    case StartTransfer(_, _) => Some(REFER)
    case StartInfo(_) => Some(INFO)
    case StartHangUp => Some(BYE)
    case Resume => VerbOf(s.holder)
    case _ => None
  }

  /** There is a CSeq left, and a route. */
  predicate Buildable(s: State) { s.routable && s.dialog.cseq + 1 < MAX_CSEQ }

  /** A message is of the kind its event calls for; a request has the next CSeq, within its bound. */
  predicate Fitting(s: State, e: Event, m: Wire) {
    match m
    case Request(verb, cseq, body) =>
      Buildable(s) && Some(verb) == Asks(s, e) && cseq == s.dialog.cseq + 1 && (body.Some? <==> verb == INVITE)
    case Ack(cseq) => e.Resume? && s.holder.Reinvite? && cseq == s.holder.cseq
    case Answer(_) => e.InReinvite?
    case Refusal(status) => e.InReinvite? && (status == 491 || status == 400 || status == 488)
    case Reply(status) => (e.InBye? && status == 200) || (e.InNotify? && (status == 200 || status == 400))
  }

  predicate Puts(s: State, e: Event, t: State) {
    && t.routable == s.routable
    && (|| t.sent == s.sent
        || (|t.sent| == |s.sent| + 1 && t.sent[..|s.sent|] == s.sent && Fitting(s, e, t.sent[|s.sent|])))
  }

  lemma ReinvitePuts(s: State, r: Response)
    requires s.holder.Reinvite?
    ensures Puts(s, Resume, ReinviteFinal(Consumed(s), r))
  {
  }

  lemma ReferPuts(s: State, r: Response)
    requires s.holder.Referring?
    ensures Puts(s, Resume, ReferFinal(Consumed(s), r))
  {
    AbortQuiet(Consumed(s));
    ReportSilent(Consumed(s).(holder := Free), s.holder.event);
    hide AbortStep, Report;
  }

  lemma ReportSilent(s: State, event: nat)
    ensures forall v :: Report(s, event, v).sent == s.sent && Report(s, event, v).routable == s.routable
  {
  }

  lemma InfoPuts(s: State, r: Response)
    requires s.holder.Informing?
    ensures Puts(s, Resume, InfoFinal(Consumed(s), r))
  {
  }

  lemma ResumePuts(s: State)
    ensures Puts(s, Resume, ResumeStep(s))
  {
    hide ReinviteFinal, ReferFinal, InfoFinal, Fitting;
    if Awaiting(s.holder) && s.holder.cseq in s.pending && s.pending[s.holder.cseq] != [] {
      var r := s.pending[s.holder.cseq][0];
      match s.holder
      case Reinvite(_, _, _, _) => ReinvitePuts(s, r);
      case Referring(_, _, _, _) => ReferPuts(s, r);
      case _ => InfoPuts(s, r);
    }
  }


  lemma StartPuts(s: State, e: Event)
    requires Starts(e)
    ensures Puts(s, e, StartStep(s, e))
  {
  }

  lemma InboundPuts(s: State, e: Event)
    ensures e.InReinvite? ==> Puts(s, e, ReinviteStep(s, e.offer, e.answerable))
    ensures e.InNotify? ==> Puts(s, e, NotifyStep(s, e.notify))
    ensures Puts(s, e, ByeStep(s, e))
  {
    if e.InReinvite? { ReofferPuts(s, e); }
    if e.InNotify? { NotifyPuts(s, e); }
    hide ReinviteStep, NotifyStep;
  }

  lemma ReofferPuts(s: State, e: Event)
    requires e.InReinvite?
    ensures Puts(s, e, ReinviteStep(s, e.offer, e.answerable))
  {
  }

  lemma NotifyPuts(s: State, e: Event)
    requires e.InNotify?
    ensures Puts(s, e, NotifyStep(s, e.notify))
  {
    hide RecordProgress;
  }

  lemma QuietPuts(s: State, e: Event)
    ensures s.holder.Acking? ==> Puts(s, e, CommitStep(s))
    ensures Puts(s, e, AbortStep(s)) && Puts(s, e, DoneStep(s)) && Puts(s, e, WaiterStep(s, e))
    ensures e.OnResponse? ==> Puts(s, e, Deliver(s, e.cseq, e.response))
  {
    AbortQuiet(s);
    WaiterQuiet(s, e);
    hide AbortStep, WaiterStep, Fitting;
  }

  lemma AbortQuiet(s: State)
    ensures AbortStep(s).sent == s.sent && AbortStep(s).routable == s.routable
  {
  }

  lemma WaiterQuiet(s: State, e: Event)
    ensures WaiterStep(s, e).sent == s.sent && WaiterStep(s, e).routable == s.routable
  {
  }

  /** Every message is one its event calls for, and there is one at most. */
  lemma StepPuts(s: State, e: Event)
    ensures Puts(s, e, Step(s, e))
  {
    ResumePuts(s);
    if Starts(e) { StartPuts(s, e); }
    InboundPuts(s, e);
    QuietPuts(s, e);
    hide ResumeStep, StartStep, WaiterStep, NotifyStep, ByeStep, ReinviteStep, CommitStep, AbortStep, DoneStep,
      Deliver, Puts;
  }

  predicate InRange(sent: seq<Wire>) { forall i :: 0 <= i < |sent| && sent[i].Request? ==> sent[i].cseq < MAX_CSEQ }

  predicate Within(s: State, t: State) {
    && t.routable == s.routable && (InRange(s.sent) ==> InRange(t.sent))
    && (!s.routable ==> Cseqs(t.sent) == Cseqs(s.sent))
  }

  lemma StepWithin(s: State, e: Event)
    ensures Within(s, Step(s, e))
  {
    StepPuts(s, e);
    hide Step;
    var t := Step(s, e);
    if t.sent != s.sent {
      assert t.sent[..|s.sent|] == s.sent;
      assert forall i :: 0 <= i < |s.sent| ==> t.sent[i] == t.sent[..|s.sent|][i];
    }
  }

  /** In no run does a request carry a CSeq of 2^31 or more, or go out past a strict router. */
  lemma {:induction false} RunWithin(s: State, trace: seq<Event>)
    ensures Within(s, Run(s, trace))
    decreases |trace|
  {
    if trace != [] {
      StepWithin(s, trace[0]);
      hide Step, InRange, Cseqs;
      RunWithin(Step(s, trace[0]), trace[1..]);
    }
  }

  // --- how a verb starts -----------------------------------------------------------------------

  /** The request is out under the next CSeq, and its final is awaited. */
  predicate Requested(s: State, t: State, verb: Verb, body: Option<Body>) {
    var c := s.dialog.cseq + 1;
    && t.sent == s.sent + [Request(verb, c, body)] && t.pending == s.pending[c := []]
    && t.dialog == Counters(c, if body.Some? then s.dialog.version + 1 else s.dialog.version)
  }

  /** hold, unhold and a refresh: a new key under the call's tag and suite, which is not in use yet. */
  lemma ReinviteStarts(s: State, gates: bool)
    requires s.holder.Free?
    ensures var t, c := Step(s, StartReinvite(gates)), s.dialog.cseq + 1;
            var key := if s.media.crypto.None? then None else Some(s.media.crypto.value.(key := s.nextKey));
            && (Buildable(s) ==>
                  && Requested(s, t, INVITE, Some(Body(s.dialog.version + 1, key)))
                  && t.holder == Reinvite(gates, key, c, false) && t.offerPending && t.media == s.media)
            && (!Buildable(s) ==> t == s.(nextKey := t.nextKey))
  {
    hide StartTransferStep, StartInfoStep, StartHangUpStep;
  }

  /** A transfer arms its outcome and sends its REFER, or does neither. */
  lemma TransferStarts(s: State, waits: bool, targetOk: bool)
    requires s.holder.Free? && TransferInv(s)
    ensures var t, event := Step(s, StartTransfer(waits, targetOk)), s.nextEvent;
            if !s.ended && s.transfer.terminal.None? && targetOk && Buildable(s) then
              && Requested(s, t, REFER, None) && t.holder == Referring(event, waits, t.dialog.cseq, false)
              && t.transfer.terminal == Some(event) && t.transfer.referCseq == Some(t.dialog.cseq)
              && !t.transfer.latched && t.transfer.latest.None? && t.nextEvent == event + 1
            else
              && t.sent == s.sent && t.holder.Free? && t.pending == s.pending && t.waiting == s.waiting
              && t.transfer.terminal == s.transfer.terminal && t.reports == s.reports
  {
    hide StartReofferStep, StartInfoStep, StartHangUpStep;
  }

  /** A hang-up keeps the lock till the media has stopped. */
  lemma HangUpStarts(s: State)
    requires s.holder.Free?
    ensures var t := Step(s, StartHangUp);
            if !s.ended && Buildable(s) then
              t.sent == s.sent + [Request(BYE, s.dialog.cseq + 1, None)] && t.holder.HangingUp? && t.ended
            else t == s
  {
    hide StartReofferStep, StartTransferStep, StartInfoStep;
  }

  /** The last progress of a transfer is kept till the next one is armed; only a NOTIFY replaces it. */
  predicate ProgressKept(s: State, t: State) { t.transfer.latest == s.transfer.latest }

  lemma AbortKeepsProgress(s: State)
    ensures ProgressKept(s, AbortStep(s))
  {
  }

  lemma ReferKeepsProgress(s: State, r: Response)
    requires s.holder.Referring?
    ensures ProgressKept(s, ReferFinal(s, r))
  {
    AbortKeepsProgress(s);
    hide AbortStep;
  }

  lemma ResumeKeepsProgress(s: State)
    ensures ProgressKept(s, ResumeStep(s))
  {
    if !s.holder.Referring? {
      hide ResumeStep;
      ResumeUntouched(s);
    } else if s.holder.cseq in s.pending && s.pending[s.holder.cseq] != [] {
      hide ReferFinal, ReinviteFinal, InfoFinal;
      ReferKeepsProgress(Consumed(s), s.pending[s.holder.cseq][0]);
    }
  }

  lemma WaitKeepsProgress(s: State, e: Event)
    ensures ProgressKept(s, WaiterStep(s, e)) && ProgressKept(s, ByeStep(s, e))
  {
  }

  lemma StartKeepsProgress(s: State, e: Event)
    requires Starts(e) && !e.StartTransfer?
    ensures ProgressKept(s, StartStep(s, e))
  {
    hide StartReofferStep, StartInfoStep;
    if s.holder.Free? && e.StartReinvite? { ReofferUntouched(s, e.gates); }
    if s.holder.Free? && e.StartInfo? { InfoUntouched(s, e.digits); }
  }

  /** The end of a transfer, and of the call, leaves the last progress to be read. */
  lemma ProgressKeptBy(s: State, e: Event)
    requires !e.InNotify? && !e.StartTransfer?
    ensures ProgressKept(s, Step(s, e))
  {
    hide ResumeStep, StartStep, WaiterStep, ByeStep, Deliver, ReinviteStep, CommitStep, AbortStep, DoneStep;
    AbortKeepsProgress(s);
    ResumeKeepsProgress(s);
    WaitKeepsProgress(s, e);
    if Starts(e) { StartKeepsProgress(s, e); }
    VerbUntouched(s, if e.OnResponse? then e.cseq else 0, if e.OnResponse? then e.response else NONE);
    if e.InReinvite? { AnswerUntouched(s, e.offer, e.answerable); }
  }

  // --- the end of the call -------------------------------------------------------------------

  function Byes(sent: seq<Wire>): nat {
    if sent == [] then 0
    else
      var last := sent[|sent| - 1];
      Byes(sent[..|sent| - 1]) + if last.Request? && last.verb == BYE then 1 else 0
  }

  /** This step puts a BYE of ours on the wire. */
  predicate Hangs(s: State, t: State) { Put(s, t).Some? && Put(s, t).value.Request? && Put(s, t).value.verb == BYE }

  /** The end of the call, and what brings it. */
  predicate EndsFor(s: State, e: Event, t: State) {
    && (t.ended <==> s.ended || (e.ByeAnswered? && s.byes > 0) || Hangs(s, t))
    && (Hangs(s, t) <==> e.StartHangUp? && s.holder.Free? && !s.ended && Buildable(s))
  }

  lemma StartEnds(s: State, e: Event)
    requires Starts(e)
    ensures EndsFor(s, e, StartStep(s, e))
  {
    hide StartReofferStep, StartTransferStep, StartInfoStep;
    if s.holder.Free? {
      match e
      case StartReinvite(gates) => ReofferRuns(s, gates);
      case StartTransfer(waits, ok) => TransferRuns(s, waits, ok);
      case StartInfo(digits) => InfoRuns(s, digits);
      case StartHangUp =>
    }
  }

  /** The call goes on, and no BYE is sent. */
  predicate Runs(s: State, t: State) { t.ended == s.ended && !Hangs(s, t) }

  lemma ReofferRuns(s: State, gates: bool)
    ensures Runs(s, StartReofferStep(s, gates))
  {
  }

  lemma TransferRuns(s: State, waits: bool, targetOk: bool)
    ensures Runs(s, StartTransferStep(s, waits, targetOk))
  {
  }

  lemma InfoRuns(s: State, digits: nat)
    ensures Runs(s, StartInfoStep(s, digits))
  {
  }

  lemma FinalRuns(s: State, r: Response)
    ensures s.holder.Reinvite? ==> ReinviteFinal(s, r).ended == s.ended
    ensures s.holder.Referring? ==> ReferFinal(s, r).ended == s.ended
    ensures s.holder.Informing? ==> InfoFinal(s, r).ended == s.ended
  {
    hide ReinviteFinal, ReferFinal, InfoFinal;
    if s.holder.Reinvite? { ReinviteRuns(s, r); }
    if s.holder.Referring? { ReferRuns(s, r); }
    if s.holder.Informing? { InfoFinalRuns(s, r); }
  }

  lemma ReinviteRuns(s: State, r: Response)
    requires s.holder.Reinvite?
    ensures ReinviteFinal(s, r).ended == s.ended
  {
    AbortRuns(s);
    hide AbortStep;
  }

  lemma ReferRuns(s: State, r: Response)
    requires s.holder.Referring?
    ensures ReferFinal(s, r).ended == s.ended
  {
    AbortRuns(s);
    AcceptedRuns(s, r.declined);
    hide AbortStep, ReferAccepted;
  }

  lemma InfoFinalRuns(s: State, r: Response)
    requires s.holder.Informing?
    ensures InfoFinal(s, r).ended == s.ended
  {
    AbortRuns(s);
    InfoRuns(s, s.holder.left);
    hide AbortStep, StartInfoStep;
  }

  lemma AcceptedRuns(s: State, declined: bool)
    requires s.holder.Referring?
    ensures ReferAccepted(s, declined).ended == s.ended
  {
  }

  lemma AbortRuns(s: State)
    ensures AbortStep(s).ended == s.ended
  {
  }

  lemma ResumeRuns(s: State)
    ensures ResumeStep(s).ended == s.ended
  {
    hide ReinviteFinal, ReferFinal, InfoFinal;
    if Awaiting(s.holder) && s.holder.cseq in s.pending && s.pending[s.holder.cseq] != [] {
      FinalRuns(Consumed(s), s.pending[s.holder.cseq][0]);
    }
  }

  lemma InboundRuns(s: State, e: Event)
    ensures e.InReinvite? ==> ReinviteStep(s, e.offer, e.answerable).ended == s.ended
    ensures e.InNotify? ==> NotifyStep(s, e.notify).ended == s.ended
    ensures ByeStep(s, e).ended == (s.ended || (e.ByeAnswered? && s.byes > 0))
    ensures e.OnResponse? ==> Deliver(s, e.cseq, e.response).ended == s.ended
  {
    hide RecordProgress;
  }

  lemma WaiterRuns(s: State, e: Event)
    ensures WaiterStep(s, e).ended == s.ended && DoneStep(s).ended == s.ended
    ensures s.holder.Acking? ==> CommitStep(s).ended == s.ended
  {
    AbortRuns(s);
    hide AbortStep;
  }

  /** A call ends exactly with our BYE, or once the 200 to the peer's is out; hang_up sends ours exactly if it can. */
  lemma EndedIff(s: State, e: Event)
    ensures EndsFor(s, e, Step(s, e))
  {
    StepPuts(s, e);
    AbortRuns(s);
    ResumeRuns(s);
    InboundRuns(s, e);
    WaiterRuns(s, e);
    if Starts(e) { StartEnds(s, e); }
    hide ResumeStep, StartStep, WaiterStep, NotifyStep, ByeStep, ReinviteStep, CommitStep, AbortStep, DoneStep, Deliver;
  }

  predicate ByesSound(s: State) { Byes(s.sent) <= if s.ended then 1 else 0 }

  lemma StepByes(s: State, e: Event)
    ensures var t := Step(s, e);
            && (s.ended ==> t.ended) && (ByesSound(s) ==> ByesSound(t))
            && Byes(t.sent) == Byes(s.sent) + (if Hangs(s, t) then 1 else 0)
            && (Hangs(s, t) ==> !s.ended && t.ended)
  {
    EndedIff(s, e);
    StepPuts(s, e);
    hide Step, Fitting;
    var t := Step(s, e);
    if t.sent != s.sent { assert t.sent[..|s.sent|] == s.sent; }
  }

  /** In every run we hang up once at most, and on a call that has ended never. */
  lemma {:induction false} HangUpOnce(s: State, trace: seq<Event>)
    requires ByesSound(s)
    ensures var v := Run(s, trace);
            && ByesSound(v) && Byes(s.sent) <= Byes(v.sent) <= 1
            && (s.ended ==> v.ended && Byes(v.sent) == Byes(s.sent))
            && (Byes(v.sent) > Byes(s.sent) ==> v.ended)
    decreases |trace|
  {
    if trace != [] {
      StepByes(s, trace[0]);
      hide Step, Byes, Hangs;
      HangUpOnce(Step(s, trace[0]), trace[1..]);
    }
  }

  // --- what a final response leads to -----------------------------------------------------------

  /** A first challenge that can be answered gets the request re-sent. */
  predicate Answerable(s: State, r: Response)
    requires Awaiting(s.holder)
  {
    (r.status == 401 || r.status == 407) && !s.holder.retried && r.challengeOk && Buildable(s)
  }

  /** The verb fails: a rejection, a challenge that cannot be answered, or a second one. */
  predicate Fails(s: State, r: Response)
    requires Awaiting(s.holder)
  {
    (r.status >= 300 && !Answerable(s, r))
    || (s.holder.Reinvite? && r.status < 300 && (r.sdp.None? || r.sdp.value.audio.None?))
  }

  /** The state in which the final of the request in progress is taken up. */
  predicate Takes(s: State, r: Response) {
    && Awaiting(s.holder) && s.holder.cseq in s.pending && s.pending[s.holder.cseq] != []
    && s.pending[s.holder.cseq][0] == r && r.status >= 200
  }

  /** The same verb once more, its request re-sent under the next CSeq. */
  predicate Resent(s: State, t: State)
    requires Awaiting(s.holder)
  {
    var c := s.dialog.cseq + 1;
    && t.pending == (s.pending - {s.holder.cseq})[c := []]
    && match s.holder
       case Reinvite(gates, offer, _, _) =>
         && t.holder == Reinvite(gates, offer, c, true)
         && t.sent == s.sent + [Request(INVITE, c, Some(Body(s.dialog.version + 1, offer)))]
       case Referring(event, waits, _, _) =>
         && t.holder == Referring(event, waits, c, true) && t.sent == s.sent + [Request(REFER, c, None)]
         && t.transfer == s.transfer.(referCseq := Some(c))
       case Informing(left, _, _) =>
         t.holder == Informing(left, c, true) && t.sent == s.sent + [Request(INFO, c, None)]
       case _ => false
  }

  /** Nothing of the failed verb is left: the lock, its queue, its glare flag and its transfer. */
  predicate Dropped(s: State, t: State)
    requires Awaiting(s.holder)
  {
    && t.holder.Free? && t.sent == s.sent && t.dialog == s.dialog && t.pending == s.pending - {s.holder.cseq}
    && t.media == s.media && t.reports == s.reports && t.waiting == s.waiting
    && (s.holder.Reinvite? ==> !t.offerPending)
    && (s.holder.Referring? && s.transfer.terminal == Some(s.holder.event) ==> t.transfer.terminal.None?)
  }

  lemma ReinviteDecided(s: State, r: Response)
    requires Takes(s, r) && s.holder.Reinvite?
    ensures var t := ReinviteFinal(Consumed(s), r);
            (Answerable(s, r) ==> Resent(s, t)) && (Fails(s, r) ==> Dropped(s, t))
  {
    assert (s.pending - {s.holder.cseq}) - {s.holder.cseq} == s.pending - {s.holder.cseq};
  }

  lemma ReferDecided(s: State, r: Response)
    requires Takes(s, r) && s.holder.Referring?
    ensures var t := ReferFinal(Consumed(s), r);
            (Answerable(s, r) ==> Resent(s, t)) && (Fails(s, r) ==> Dropped(s, t))
  {
    ReferDropped(s);
    hide ReferAccepted, AbortStep, Dropped;
  }

  lemma ReferDropped(s: State)
    requires s.holder.Referring?
    ensures Dropped(s, AbortStep(Consumed(s)))
  {
    assert (s.pending - {s.holder.cseq}) - {s.holder.cseq} == s.pending - {s.holder.cseq};
  }

  lemma InfoDecided(s: State, r: Response)
    requires Takes(s, r) && s.holder.Informing?
    ensures var t := InfoFinal(Consumed(s), r);
            (Answerable(s, r) ==> Resent(s, t)) && (Fails(s, r) ==> Dropped(s, t))
  {
    assert (s.pending - {s.holder.cseq}) - {s.holder.cseq} == s.pending - {s.holder.cseq};
  }

  /** One retry for a first usable challenge, with the same offer; every other failure gives all of it up. */
  lemma FinalDecides(s: State, r: Response)
    requires Takes(s, r)
    ensures var t := Step(s, Resume);
            (Answerable(s, r) ==> Resent(s, t)) && (Fails(s, r) ==> Dropped(s, t))
  {
    hide ReinviteFinal, ReferFinal, InfoFinal, Resent, Dropped, Answerable, Fails;
    match s.holder
    case Reinvite(_, _, _, _) => ReinviteDecided(s, r);
    case Referring(_, _, _, _) => ReferDecided(s, r);
    case _ => InfoDecided(s, r);
  }

  // --- which final it is ------------------------------------------------------------------------

  function Arrivals(cseq: nat, rs: seq<Response>): seq<Event> {
    if rs == [] then [] else [OnResponse(cseq, rs[0])] + Arrivals(cseq, rs[1..])
  }

  function Looks(n: nat): seq<Event> { if n == 0 then [] else [Resume] + Looks(n - 1) }

  /** The call once these responses have arrived. */
  function Arrived(s: State, cseq: nat, rs: seq<Response>): State { Run(s, Arrivals(cseq, rs)) }

  lemma ArrivedOn(s: State, cseq: nat, rs: seq<Response>)
    ensures Arrived(s, cseq, []) == s
    ensures rs != [] ==> Arrived(s, cseq, rs) == Arrived(Deliver(s, cseq, rs[0]), cseq, rs[1..])
  {
    hide Deliver;
    if rs != [] { assert Arrivals(cseq, rs)[1..] == Arrivals(cseq, rs[1..]); }
  }

  lemma Delivered(s: State, cseq: nat, r: Response)
    ensures Deliver(s, cseq, r)
         == if cseq in s.pending then s.(pending := s.pending[cseq := s.pending[cseq] + [r]]) else s
  {
  }

  /** Responses are queued in the order of their arrival, for the request that is awaited and for no other. */
  lemma {:induction false} QueuedInOrder(s: State, cseq: nat, rs: seq<Response>)
    ensures Arrived(s, cseq, rs)
         == if cseq in s.pending then s.(pending := s.pending[cseq := s.pending[cseq] + rs]) else s
    decreases |rs|
  {
    hide Arrived, Deliver;
    ArrivedOn(s, cseq, rs);
    if rs == [] {
      if cseq in s.pending { SameQueue(s, cseq, s.pending[cseq] + rs); }
    } else {
      Delivered(s, cseq, rs[0]);
      QueuedInOrder(Deliver(s, cseq, rs[0]), cseq, rs[1..]);
      if cseq in s.pending { Requeued(s, cseq, rs); }
    }
  }

  lemma SameQueue(s: State, cseq: nat, queue: seq<Response>)
    requires cseq in s.pending && queue == s.pending[cseq]
    ensures s.(pending := s.pending[cseq := queue]) == s
  {
    assert s.pending[cseq := queue] == s.pending;
  }

  lemma Requeued(s: State, cseq: nat, rs: seq<Response>)
    requires cseq in s.pending && rs != []
    ensures var t := s.(pending := s.pending[cseq := s.pending[cseq] + [rs[0]]]);
            t.(pending := t.pending[cseq := t.pending[cseq] + rs[1..]])
            == s.(pending := s.pending[cseq := s.pending[cseq] + rs])
  {
    var q := s.pending[cseq];
    assert q + [rs[0]] + rs[1..] == q + rs;
    assert s.pending[cseq := q + [rs[0]]][cseq := q + rs] == s.pending[cseq := q + rs];
  }

  /** The call once its verb has taken this many responses off its queue. */
  function Looked(s: State, n: nat): State { Run(s, Looks(n)) }

  lemma LookedOn(s: State, n: nat)
    ensures Looked(s, 0) == s
    ensures n > 0 ==> Looked(s, n) == Looked(Step(s, Resume), n - 1)
  {
    hide Step;
    if n > 0 { assert Looks(n)[1..] == Looks(n - 1); }
  }

  lemma ProvisionalPassed(s: State)
    requires Awaiting(s.holder) && s.holder.cseq in s.pending
    requires s.pending[s.holder.cseq] != [] && s.pending[s.holder.cseq][0].status < 200
    ensures Step(s, Resume) == s.(pending := s.pending[s.holder.cseq := s.pending[s.holder.cseq][1..]])
  {
  }

  /** A verb passes over the provisionals before its final, however many there are. */
  lemma {:induction false} ProvisionalsPassed(s: State, n: nat)
    requires Awaiting(s.holder) && s.holder.cseq in s.pending && n <= |s.pending[s.holder.cseq]|
    requires forall i :: 0 <= i < n ==> s.pending[s.holder.cseq][i].status < 200
    ensures Looked(s, n) == s.(pending := s.pending[s.holder.cseq := s.pending[s.holder.cseq][n..]])
    decreases n
  {
    hide Looked, Step;
    var c := s.holder.cseq;
    LookedOn(s, n);
    if n == 0 {
      SameQueue(s, c, s.pending[c][0..]);
    } else {
      ProvisionalPassed(s);
      var q := s.pending[c];
      ProvisionalsPassed(s.(pending := s.pending[c := q[1..]]), n - 1);
      assert q[1..][n - 1..] == q[n..];
      assert s.pending[c := q[1..]][c := q[n..]] == s.pending[c := q[n..]];
    }
  }

  /** So the first final to arrive decides, whatever comes before and after it. */
  lemma FirstFinalDecides(s: State, early: seq<Response>, r: Response, late: seq<Response>)
    requires Awaiting(s.holder) && s.holder.cseq in s.pending && s.pending[s.holder.cseq] == []
    requires r.status >= 200 && forall i :: 0 <= i < |early| ==> early[i].status < 200
    ensures Takes(Looked(Arrived(s, s.holder.cseq, early + [r] + late), |early|), r)
  {
    hide Arrived, Looked;
    var c, rs := s.holder.cseq, early + [r] + late;
    QueuedInOrder(s, c, rs);
    assert [] + rs == rs;
    ProvisionalsPassed(s.(pending := s.pending[c := rs]), |early|);
  }

  // --- the digits of an INFO --------------------------------------------------------------------

  const OK := Response(200, false, None, false)

  /** Each INFO is accepted in turn. */
  function Accepted(cseq: nat, n: nat): seq<Event>
    decreases n
  {
    if n == 0 then [] else [OnResponse(cseq + 1, OK), Resume] + Accepted(cseq + 1, n - 1)
  }

  function Infos(cseq: nat, n: nat): seq<Wire>
    decreases n
  {
    if n == 0 then [] else [Request(INFO, cseq + 1, None)] + Infos(cseq + 1, n - 1)
  }

  predicate Sends(s: State, n: nat, v: State) {
    && v.holder.Free? && v.sent == s.sent + Infos(s.dialog.cseq, n) && v.pending == map[]
    && v.dialog.cseq == s.dialog.cseq + n
  }

  lemma InfoSent(s: State, n: nat)
    requires n > 0 && Buildable(s) && s.pending == map[]
    ensures var t, c := StartInfoStep(s, n), s.dialog.cseq + 1;
            && t.holder == Informing(n - 1, c, false) && t.pending == map[c := []]
            && t.sent == s.sent + [Request(INFO, c, None)] && t.dialog.cseq == c && t.routable
  {
  }

  lemma OkAccepted(t: State, left: nat, c: nat)
    requires t.holder == Informing(left, c, false)
    ensures Step(t.(pending := map[c := [OK]]), Resume) == StartInfoStep(t.(pending := map[]), left)
  {
    hide StartInfoStep;
    var u := t.(pending := map[c := [OK]]);
    assert u.pending - {c} == map[];
    assert u.(pending := u.pending - {c}) == t.(pending := map[]);
  }

  lemma InfoTaken(t: State, left: nat, c: nat)
    requires t.holder == Informing(left, c, false) && t.pending == map[c := []]
    ensures Run(t, [OnResponse(c, OK), Resume]) == StartInfoStep(t.(pending := map[]), left)
  {
    var u := Step(t, OnResponse(c, OK));
    assert [] + [OK] == [OK] && u == t.(pending := map[c := [OK]]);
    OkAccepted(t, left, c);
    assert [OnResponse(c, OK), Resume][1..] == [Resume] && [Resume][1..] == [];
    hide Step;
    assert Run(t, [OnResponse(c, OK), Resume]) == Run(u, [Resume]) == Run(Step(u, Resume), []);
  }

  lemma {:induction false} RunInTwo(s: State, first: seq<Event>, rest: seq<Event>)
    ensures Run(s, first + rest) == Run(Run(s, first), rest)
    decreases |first|
  {
    hide Step;
    if first == [] {
      assert first + rest == rest;
    } else {
      assert (first + rest)[1..] == first[1..] + rest;
      RunInTwo(Step(s, first[0]), first[1..], rest);
    }
  }

  lemma Unrolled(sent: seq<Wire>, c: nat, n: nat)
    requires n > 0
    ensures Accepted(c, n) == [OnResponse(c + 1, OK), Resume] + Accepted(c + 1, n - 1)
    ensures sent + [Request(INFO, c + 1, None)] + Infos(c + 1, n - 1) == sent + Infos(c, n)
  {
  }

  lemma OneMore(s: State, t: State, n: nat, v: State)
    requires n > 0 && t.sent == s.sent + [Request(INFO, s.dialog.cseq + 1, None)] && t.dialog.cseq == s.dialog.cseq + 1
    requires Sends(t, n - 1, v)
    ensures Sends(s, n, v)
  {
    Unrolled(s.sent, s.dialog.cseq, n);
    hide Infos;
  }

  /** send_dtmf with n digits, each INFO accepted. */
  function Dialled(s: State, n: nat): State { Run(StartInfoStep(s, n), Accepted(s.dialog.cseq, n)) }

  lemma DialledOn(s: State, n: nat)
    requires n > 0 && Buildable(s) && s.pending == map[]
    ensures Dialled(s, n) == Dialled(StartInfoStep(s, n).(pending := map[]), n - 1)
  {
    hide StartInfoStep;
    var c, t := s.dialog.cseq, StartInfoStep(s, n);
    InfoSent(s, n);
    hide Run;
    InfoTaken(t, n - 1, c + 1);
    RunInTwo(t, [OnResponse(c + 1, OK), Resume], Accepted(c + 1, n - 1));
    Unrolled(s.sent, c, n);
  }

  /** Every digit goes out in one INFO of its own, in order, the next one when the last was accepted. */
  lemma {:induction false} DigitsSent(s: State, n: nat)
    requires s.pending == map[] && s.routable && s.dialog.cseq + n < MAX_CSEQ
    ensures Sends(s, n, Dialled(s, n))
    decreases n
  {
    if n == 0 {
      assert s.sent + [] == s.sent;
    } else {
      hide StartInfoStep, Dialled, Sends;
      InfoSent(s, n);
      var t := StartInfoStep(s, n).(pending := map[]);
      DialledOn(s, n);
      DigitsSent(t, n - 1);
      OneMore(s, t, n, Dialled(t, n - 1));
    }
  }

  // --- the lock, and requests without a dialog effect --------------------------------------------

  /** Verbs take turns: none starts beside another, and one that gates the media keeps the lock till that is done. */
  lemma VerbsTakeTurns(s: State, e: Event)
    ensures Starts(e) && !s.holder.Free? ==> Step(s, e) == s
    ensures s.holder.Acking? && Step(s, Acked).media != s.media ==>
              Step(s, Acked).holder == if s.holder.gates then Gating else Free
    ensures s.holder.Gating? || s.holder.HangingUp? ==> Step(s, Done) == s.(holder := Free)
  {
    hide StartReofferStep, StartTransferStep, StartInfoStep, StartHangUpStep, WaiterStep;
  }

  /** A peer's BYE is answered with a 200; the call is over once that is out, and goes on if its send fails. */
  lemma ByeAnsweredOnce(s: State)
    ensures Step(s, InBye(true)) == s.(sent := s.sent + [Reply(200)], byes := s.byes + 1) && Step(s, InBye(false)) == s
    ensures s.byes > 0 ==>
              && Step(s, ByeFailed) == s.(byes := s.byes - 1)
              && Step(s, ByeAnswered)
                 == s.(byes := s.byes - 1, ended := true, transfer := Step(s, ByeAnswered).transfer)
    ensures s.byes == 0 ==> Step(s, ByeFailed) == s && Step(s, ByeAnswered) == s
  {
  }

  /** The progress a NOTIFY brings is that of another REFER. */
  predicate Foreign(t: Transfer, id: EventId) {
    t.referCseq.Some? && !id.Absent? && id != Id(t.referCseq.value)
  }

  /** What a NOTIFY is answered with; it touches nothing but the transfer, and that only with a report on it. */
  lemma NotifyAnswered(s: State, n: Notify)
    ensures var t := Step(s, InNotify(n));
            && Put(s, t) == (if !n.answerable then None
                             else if n.refer && n.fragment.None? then Some(Reply(400)) else Some(Reply(200)))
            && t == s.(sent := t.sent, transfer := t.transfer)
            && (if n.refer && n.fragment.Some? && n.answerable && !Foreign(s.transfer, n.id)
                then t.transfer.latest == n.fragment else t.transfer == s.transfer)
  {
  }
}
