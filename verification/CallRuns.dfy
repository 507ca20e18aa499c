/** What every step of a call keeps, and what that gives over whole runs. */
module CallRuns {
  import opened Wrappers
  import opened CallState

  lemma RunAppend(s: State, trace: seq<Event>, e: Event)
    ensures Run(s, trace + [e]) == Step(Run(s, trace), e)
    decreases |trace|
  {
    if trace == [] {
      assert Run(Step(s, e), []) == Step(s, e);
    } else {
      assert (trace + [e])[1..] == trace[1..] + [e];
      RunAppend(Step(s, trace[0]), trace[1..], e);
    }
  }

  // --- the two dialog counters ------------------------------------------------------

  /** The CSeq numbers of the requests in a transcript, in order. An ACK is not one of them. */
  function Cseqs(sent: seq<Wire>): seq<nat> {
    if sent == [] then []
    else
      var last := sent[|sent| - 1];
      Cseqs(sent[..|sent| - 1]) + (if last.Request? then [last.cseq] else [])
  }

  function BodyOf(w: Wire): Option<Body> {
    match w
    case Request(_, _, body) => body
    case Answer(sdp) => Some(sdp)
    case _ => None
  }

  /** The o= versions of the SDP bodies in a transcript, in order. */
  function Versions(sent: seq<Wire>): seq<nat> {
    if sent == [] then []
    else
      var body := BodyOf(sent[|sent| - 1]);
      Versions(sent[..|sent| - 1]) + (if body.Some? then [body.value.version] else [])
  }

  predicate Consecutive(xs: seq<nat>, base: nat) {
    forall i :: 0 <= i < |xs| ==> xs[i] == base + 1 + i
  }

  /** Every number handed out went onto the wire once, in order, and no number was skipped. */
  predicate CountersSound(start: Counters, s: State) {
    && Consecutive(Cseqs(s.sent), start.cseq)
    && s.dialog.cseq == start.cseq + |Cseqs(s.sent)|
    && Consecutive(Versions(s.sent), start.version)
    && s.dialog.version == start.version + |Versions(s.sent)|
  }

  /** One step puts at most one message on the wire, and counts it. */
  predicate Emits(s: State, t: State) {
    && Tracks(s, t)
    && if |t.sent| == |s.sent| then t.sent == s.sent && t.dialog == s.dialog
       else
         && |t.sent| == |s.sent| + 1
         && t.sent[..|s.sent|] == s.sent
         && Counted(s.dialog, t.dialog, t.sent[|s.sent|])
         && (t.sent[|s.sent|].Ack? ==>
               s.holder.Reinvite? && t.holder.Acking? && t.sent[|s.sent|].cseq == s.holder.cseq)
  }

  predicate Counted(before: Counters, after: Counters, w: Wire) {
    match w
    case Request(verb, cseq, body) =>
      && cseq == before.cseq + 1 == after.cseq
      && (body.Some? <==> verb == INVITE)
      && (if body.Some? then body.value.version == before.version + 1 == after.version
          else after.version == before.version)
    case Answer(sdp) => after.cseq == before.cseq && sdp.version == before.version + 1 == after.version
    case _ => after == before
  }

  predicate OnRequest(h: Holder) { Awaiting(h) || h.Acking? }

  /** Responses are queued for the request the verb awaits, and for no other. */
  predicate PendingOwned(s: State) {
    s.pending.Keys <= if Awaiting(s.holder) then {s.holder.cseq} else {}
  }

  /** The verb on the lock is about the request it sent last. */
  predicate Tracks(s: State, t: State) {
    && (OnRequest(t.holder) ==>
          if OnRequest(s.holder) && t.dialog.cseq == s.dialog.cseq
          then t.holder.cseq == s.holder.cseq && (s.holder.Acking? ==> t.holder.Acking?)
          else t.holder.cseq == t.dialog.cseq == s.dialog.cseq + 1)
    && (PendingOwned(s) ==> PendingOwned(t))
  }

  lemma BuildEmits(s: State, verb: Verb, offers: bool, crypto: Option<Crypto>)
    requires offers <==> verb == INVITE
    ensures var b := Build(s, verb, offers, crypto);
            b.Some? ==>
              && |b.value.sent| == |s.sent| + 1 && b.value.sent[..|s.sent|] == s.sent
              && Counted(s.dialog, b.value.dialog, b.value.sent[|s.sent|])
  {
  }

  lemma StartReofferEmits(s: State, gates: bool)
    requires s.holder.Free?
    ensures Emits(s, StartReofferStep(s, gates))
  {
    BuildEmits(MintOffer(s).0, INVITE, true, MintOffer(s).1);
  }

  lemma StartTransferEmits(s: State, waits: bool, targetOk: bool)
    requires s.holder.Free?
    ensures Emits(s, StartTransferStep(s, waits, targetOk))
  {
  }

  lemma StartPlainEmits(s: State, digits: nat)
    requires s.holder.Free?
    ensures Emits(s, StartInfoStep(s, digits))
    ensures Emits(s, StartHangUpStep(s))
  {
  }

  /** The state in which the verb goes on: the response it waited for is off the queue. */
  function Consumed(s: State): State
    requires Awaiting(s.holder)
  {
    s.(pending := s.pending - {s.holder.cseq})
  }

  lemma ReinviteFinalEmits(s: State, r: Response)
    requires s.holder.Reinvite?
    ensures Emits(s, ReinviteFinal(Consumed(s), r))
  {
    BuildEmits(Consumed(s), INVITE, true, s.holder.offer);
    AbortedEmits(s);
    hide AbortStep;
  }

  lemma AcceptedEmits(s: State, declined: bool)
    requires s.holder.Referring?
    ensures Emits(s, ReferAccepted(Consumed(s), declined))
  {
  }

  lemma ReferFinalEmits(s: State, r: Response)
    requires s.holder.Referring?
    ensures Emits(s, ReferFinal(Consumed(s), r))
  {
    AcceptedEmits(s, r.declined);
    AbortedEmits(s);
    BuildEmits(Consumed(s), REFER, false, None);
    hide ReferAccepted, AbortStep;
  }

  lemma AbortedEmits(s: State)
    requires Awaiting(s.holder)
    ensures Emits(s, AbortStep(Consumed(s)))
  {
  }

  lemma InfoFinalEmits(s: State, r: Response)
    requires s.holder.Informing?
    ensures Emits(s, InfoFinal(Consumed(s), r))
  {
    BuildEmits(Consumed(s), INFO, false, None);
    AbortedEmits(s);
    hide AbortStep;
  }

  lemma ResumeEmits(s: State)
    ensures Emits(s, ResumeStep(s))
  {
    if Awaiting(s.holder) && s.holder.cseq in s.pending && s.pending[s.holder.cseq] != [] {
      hide ReinviteFinal, ReferFinal, InfoFinal;
      var r := s.pending[s.holder.cseq][0];
      match s.holder
      case Reinvite(_, _, _, _) => ReinviteFinalEmits(s, r);
      case Referring(_, _, _, _) => ReferFinalEmits(s, r);
      case _ => InfoFinalEmits(s, r);
    }
  }

  lemma WaiterEmits(s: State, e: Event)
    requires Waits(e)
    ensures Emits(s, WaiterStep(s, e))
  {
  }

  lemma AnswerEmits(s: State, offer: Offer, answerable: bool)
    ensures Emits(s, ReinviteStep(s, offer, answerable))
  {
  }

  lemma CommitEmits(s: State)
    requires s.holder.Acking?
    ensures Emits(s, CommitStep(s))
  {
  }

  lemma AbortEmits(s: State)
    ensures Emits(s, AbortStep(s))
  {
    hide Emits;
    AbortLeaves(s);
    hide AbortStep;
    FreedEmits(s, AbortStep(s));
  }

  lemma DisarmsOnly(s: State, event: nat)
    ensures Disarm(s, event) == s.(transfer := Disarm(s, event).transfer)
  {
  }

  lemma AbortLeaves(s: State)
    ensures var t := AbortStep(s);
            && t.holder.Free? && t.sent == s.sent && t.dialog == s.dialog
            && (PendingOwned(s) ==> t.pending.Keys == {})
  {
    if s.holder.Referring? { DisarmsOnly(s.(holder := Free, pending := s.pending - {s.holder.cseq}), s.holder.event); }
    if PendingOwned(s) { OwnedGone(s); }
    hide Disarm, PendingOwned;
  }

  lemma OwnedGone(s: State)
    requires PendingOwned(s)
    ensures if Awaiting(s.holder) then (s.pending - {s.holder.cseq}).Keys == {} else s.pending.Keys == {}
  {
  }

  lemma FreedEmits(s: State, t: State)
    requires t.holder.Free? && t.sent == s.sent && t.dialog == s.dialog && (PendingOwned(s) ==> t.pending.Keys == {})
    ensures Emits(s, t)
  {
  }

  lemma DoneEmits(s: State)
    ensures Emits(s, DoneStep(s))
  {
  }

  lemma ByeEmits(s: State, e: Event)
    ensures Emits(s, ByeStep(s, e))
    ensures e.OnResponse? ==> Emits(s, Deliver(s, e.cseq, e.response))
  {
  }

  lemma NotifyEmits(s: State, n: Notify)
    ensures Emits(s, NotifyStep(s, n))
  {
  }

  lemma StepEmits(s: State, e: Event)
    ensures Emits(s, Step(s, e))
  {
    hide ResumeStep, StartReofferStep, StartTransferStep, StartInfoStep, StartHangUpStep, WaiterStep, NotifyStep,
      ByeStep, Deliver, ReinviteStep, CommitStep, AbortStep, DoneStep;
    if Starts(e) {
      if s.holder.Free? {
        match e
        case StartReinvite(gates) => StartReofferEmits(s, gates);
        case StartTransfer(waits, ok) => StartTransferEmits(s, waits, ok);
        case StartInfo(digits) => StartPlainEmits(s, digits);
        case StartHangUp => StartPlainEmits(s, 0);
      }
    } else if Waits(e) {
      WaiterEmits(s, e);
    } else {
      match e
      case InReinvite(offer, answerable) => AnswerEmits(s, offer, answerable);
      case InNotify(n) => NotifyEmits(s, n);
      case Resume => ResumeEmits(s);
      case Acked => if s.holder.Acking? { CommitEmits(s); }
      case Abort => AbortEmits(s);
      case Done => DoneEmits(s);
      case _ => ByeEmits(s, e);
    }
  }

  lemma StepCounts(start: Counters, s: State, e: Event)
    requires CountersSound(start, s)
    ensures CountersSound(start, Step(s, e))
  {
    var t := Step(s, e);
    StepEmits(s, e);
    if |t.sent| != |s.sent| {
      assert t.sent[..|t.sent| - 1] == s.sent;
    }
  }

  /** No interleaving loses an increment. */
  lemma {:induction false} RunCounts(start: Counters, s: State, trace: seq<Event>)
    requires CountersSound(start, s)
    ensures CountersSound(start, Run(s, trace))
    decreases |trace|
  {
    if trace != [] {
      StepCounts(start, s, trace[0]);
      RunCounts(start, Step(s, trace[0]), trace[1..]);
    }
  }

  // --- the verb that waits for an INVITE ---------------------------------------------

  /** No verb begins to wait for an INVITE sent before. */
  predicate WaitsAnew(s: State, t: State) {
    t.holder.Reinvite? ==> t.holder == s.holder || t.holder.cseq > s.dialog.cseq
  }

  lemma InboundHolder(s: State, e: Event)
    ensures WaiterStep(s, e).holder == s.holder && ByeStep(s, e).holder == s.holder
    ensures e.InNotify? ==> NotifyStep(s, e.notify).holder == s.holder
    ensures e.InReinvite? ==> ReinviteStep(s, e.offer, e.answerable).holder == s.holder
    ensures e.OnResponse? ==> Deliver(s, e.cseq, e.response).holder == s.holder
  {
  }

  lemma VerbHolder(s: State)
    ensures !AbortStep(s).holder.Reinvite? && (DoneStep(s).holder == s.holder || DoneStep(s).holder.Free?)
    ensures s.holder.Acking? ==> !CommitStep(s).holder.Reinvite?
  {
    hide AbortStep;
    AbortLeaves(s);
  }

  lemma StartNew(s: State, e: Event)
    requires Starts(e)
    ensures WaitsAnew(s, StartStep(s, e))
  {
  }

  lemma AcceptedFree(s: State, declined: bool)
    requires s.holder.Referring?
    ensures ReferAccepted(s, declined).holder.Free?
  {
  }

  lemma FinalHolder(s: State, r: Response)
    ensures s.holder.Referring? ==> !ReferFinal(s, r).holder.Reinvite?
    ensures s.holder.Informing? ==> !InfoFinal(s, r).holder.Reinvite?
  {
    if s.holder.Referring? {
      AcceptedFree(s, r.declined);
      hide ReferAccepted, InfoFinal;
    } else {
      hide ReferFinal;
    }
  }

  lemma ResumeNew(s: State)
    ensures WaitsAnew(s, ResumeStep(s))
  {
    if Awaiting(s.holder) && s.holder.cseq in s.pending && s.pending[s.holder.cseq] != [] {
      FinalHolder(Consumed(s), s.pending[s.holder.cseq][0]);
      hide ReferFinal, InfoFinal;
    }
  }

  lemma WaitingIsNew(s: State, e: Event)
    ensures WaitsAnew(s, Step(s, e))
  {
    InboundHolder(s, e);
    ResumeNew(s);
    if Starts(e) { StartNew(s, e); }
    VerbHolder(s);
    hide WaiterStep, NotifyStep, ByeStep, Deliver, ReinviteStep, ResumeStep, StartStep, AbortStep, CommitStep,
      DoneStep;
  }

  // --- a re-key that suspends --------------------------------------------------------

  /**
    An answer whose re-key suspends writes the captured dialog back.  The counters survive
    it exactly when nothing was numbered in the meantime.
  */
  lemma SuspendedRekeySoundIff(start: Counters, s: State, offer: Offer, meanwhile: seq<Event>)
    requires CountersSound(start, s) && Capture(s, offer).Some?
    ensures var (caught, c) := Capture(s, offer).value;
            var before := Run(caught, meanwhile);
            CountersSound(start, WriteBack(before, c)) <==>
            |Cseqs(before.sent)| == |Cseqs(s.sent)| && |Versions(before.sent)| == |Versions(s.sent)|
  {
    var (caught, c) := Capture(s, offer).value;
    var before := Run(caught, meanwhile);
    RunCounts(start, caught, meanwhile);
    assert WriteBack(before, c).sent[..|before.sent|] == before.sent;
  }

  lemma InfoSent(s: State)
    requires s.holder.Free? && s.routable && s.dialog.cseq + 1 < MAX_CSEQ
    ensures var t := Step(s, StartInfo(1));
            && t.sent == s.sent + [Request(INFO, s.dialog.cseq + 1, None)]
            && var u := Step(t, Abort);
               u.sent == t.sent && u.holder.Free? && u.routable
  {
  }

  /** A request sent while the re-key is suspended: its CSeq is used again by the next one. */
  lemma SuspendedRekeyLosesCseq(s: State, offer: Offer)
    requires Capture(s, offer).Some? && s.holder.Free? && s.routable && s.dialog.cseq + 1 < MAX_CSEQ
    ensures var (caught, c) := Capture(s, offer).value;
            var t := Run(WriteBack(Run(caught, [StartInfo(1), Abort]), c), [StartInfo(1)]);
            && |t.sent| == |s.sent| + 3
            && t.sent[|s.sent|].Request? && t.sent[|s.sent| + 2].Request?
            && t.sent[|s.sent| + 2].cseq == t.sent[|s.sent|].cseq == s.dialog.cseq + 1
  {
    var (caught, c) := Capture(s, offer).value;
    hide Step;
    var aborted := Step(Step(caught, StartInfo(1)), Abort);
    var back := WriteBack(aborted, c);
    InfoSent(caught);
    InfoSent(back);
    assert [StartInfo(1), Abort][1..] == [Abort] && [Abort][1..] == [] && [StartInfo(1)][1..] == [];
    assert Run(caught, [StartInfo(1), Abort]) == Run(aborted, []);
    assert Run(back, [StartInfo(1)]) == Run(Step(back, StartInfo(1)), []);
  }
}
