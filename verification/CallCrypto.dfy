/** The SDES keys of a call, and the ACK of a re-INVITE, over every run. */
module CallCrypto {
  import opened Wrappers
  import opened CallState
  import opened CallRuns

  // --- the request an ACK belongs to -------------------------------------------------

  /** The last request of a transcript. */
  function LastRequest(sent: seq<Wire>): Option<Wire> {
    if sent == [] then None
    else
      var last := sent[|sent| - 1];
      if last.Request? then Some(last) else LastRequest(sent[..|sent| - 1])
  }

  predicate IsOffer(w: Option<Wire>, cseq: nat, crypto: Option<Crypto>) {
    && w.Some? && w.value.Request? && w.value.verb == INVITE && w.value.cseq == cseq
    && w.value.body.Some? && w.value.body.value.crypto == crypto
  }

  /** Every ACK carries the CSeq of the INVITE it completes: our last request before it. */
  predicate AcksReuseCseq(sent: seq<Wire>) {
    forall i :: 0 <= i < |sent| && sent[i].Ack? ==>
      var w := LastRequest(sent[..i]);
      w.Some? && w.value.Request? && w.value.verb == INVITE && w.value.cseq == sent[i].cseq
  }

  // --- the invariant -----------------------------------------------------------------

  predicate OfferOut(s: State) { s.holder.Reinvite? || s.holder.Acking? }

  /** Our offer is on the wire under its CSeq, and its key is not in use yet. */
  predicate OfferSound(s: State) {
    && (s.offerPending <==> OfferOut(s))
    && (OfferOut(s) ==>
          && IsOffer(LastRequest(s.sent), s.holder.cseq, s.holder.offer)
          && s.holder.offer.Some? == s.media.crypto.Some?
          && (s.holder.offer.Some? ==>
                s.holder.offer.value.key < s.nextKey && Some(s.holder.offer.value.key) != s.media.outbound))
  }

  /** The engine encrypts with the key we advertise, and has a key to decrypt with. */
  predicate KeysSound(s: State) {
    match s.media.crypto
    case None => s.media == Media(None, None, None)
    case Some(c) => s.media.outbound == Some(c.key) && s.media.inbound.Some? && c.key < s.nextKey
  }

  /** Every SDP body we emitted carries an a=crypto, or none does. */
  predicate BodiesSecured(sent: seq<Wire>, secured: bool) {
    forall i :: 0 <= i < |sent| && BodyOf(sent[i]).Some? ==> BodyOf(sent[i]).value.crypto.Some? == secured
  }

  predicate CryptoInv(s: State) {
    && KeysSound(s)
    && OfferSound(s)
    && AcksReuseCseq(s.sent)
    && BodiesSecured(s.sent, s.media.crypto.Some?)
  }

  /** The step keeps the invariant and the call stays secured, or plain. */
  predicate Keeps(s: State, t: State) {
    CryptoInv(t) && t.media.crypto.Some? == s.media.crypto.Some?
  }

  // --- it is kept --------------------------------------------------------------------

  lemma Appended(sent: seq<Wire>, w: Wire, secured: bool)
    requires AcksReuseCseq(sent) && BodiesSecured(sent, secured)
    requires BodyOf(w).Some? ==> BodyOf(w).value.crypto.Some? == secured
    requires w.Ack? ==> exists c :: IsOffer(LastRequest(sent), w.cseq, c)
    ensures AcksReuseCseq(sent + [w]) && BodiesSecured(sent + [w], secured)
    ensures LastRequest(sent + [w]) == if w.Request? then Some(w) else LastRequest(sent)
  {
    var all := sent + [w];
    assert all[..|sent|] == sent;
    forall i | 0 <= i < |all| && all[i].Ack?
      ensures var r := LastRequest(all[..i]);
              r.Some? && r.value.Request? && r.value.verb == INVITE && r.value.cseq == all[i].cseq
    {
      if i < |sent| { assert all[..i] == sent[..i]; }
    }
  }

  lemma BuildKeeps(s: State, verb: Verb, offers: bool, crypto: Option<Crypto>)
    requires AcksReuseCseq(s.sent) && BodiesSecured(s.sent, s.media.crypto.Some?)
    requires offers ==> crypto.Some? == s.media.crypto.Some?
    ensures var b := Build(s, verb, offers, crypto);
            b.Some? ==>
              && AcksReuseCseq(b.value.sent) && BodiesSecured(b.value.sent, s.media.crypto.Some?)
              && (offers && verb == INVITE ==> IsOffer(LastRequest(b.value.sent), b.value.dialog.cseq, crypto))
  {
    var b := Build(s, verb, offers, crypto);
    if b.Some? {
      Appended(s.sent, b.value.sent[|s.sent|], s.media.crypto.Some?);
    }
  }

  lemma StartReofferKeeps(s: State, gates: bool)
    requires CryptoInv(s) && s.holder.Free?
    ensures Keeps(s, StartReofferStep(s, gates))
  {
    BuildKeeps(MintOffer(s).0, INVITE, true, MintOffer(s).1);
  }

  /** A step that touches no key, puts no SDP and no ACK on the wire, and opens no offer. */
  predicate Unrelated(s: State, t: State) {
    && t.media == s.media && t.nextKey == s.nextKey
    && (t.offerPending <==> OfferOut(t))
    && (OfferOut(t) ==> t.holder == s.holder)
    && (|| t.sent == s.sent
        || (&& |t.sent| == |s.sent| + 1
            && t.sent == s.sent + [t.sent[|s.sent|]]
            && BodyOf(t.sent[|s.sent|]).None? && !t.sent[|s.sent|].Ack? && !t.sent[|s.sent|].Refusal?
            && (OfferOut(t) ==> !t.sent[|s.sent|].Request?)))
  }

  lemma UnrelatedKeeps(s: State, t: State)
    requires CryptoInv(s) && Unrelated(s, t)
    ensures Keeps(s, t)
  {
    if t.sent != s.sent {
      Appended(s.sent, t.sent[|s.sent|], s.media.crypto.Some?);
    }
  }

  lemma StartUnrelated(s: State, e: Event)
    requires s.offerPending <==> OfferOut(s)
    requires Starts(e) && !e.StartReinvite?
    ensures Unrelated(s, StartStep(s, e))
  {
  }

  lemma AcceptedUnrelated(s: State, declined: bool)
    requires s.offerPending <==> OfferOut(s)
    requires s.holder.Referring?
    ensures Unrelated(s, ReferAccepted(s, declined))
  {
  }

  lemma FinalUnrelated(s: State, r: Response)
    requires s.offerPending <==> OfferOut(s)
    requires s.holder.Referring? || s.holder.Informing?
    ensures Unrelated(s, if s.holder.Referring? then ReferFinal(s, r) else InfoFinal(s, r))
  {
    if s.holder.Referring? {
      AcceptedUnrelated(s, r.declined);
      hide InfoFinal, ReferAccepted;
    } else {
      hide ReferFinal;
    }
  }

  lemma VerbUnrelated(s: State)
    requires s.offerPending <==> OfferOut(s)
    ensures Unrelated(s, AbortStep(s)) && Unrelated(s, DoneStep(s))
  {
  }

  lemma WaiterUnrelated(s: State, e: Event)
    requires s.offerPending <==> OfferOut(s)
    ensures Unrelated(s, WaiterStep(s, e))
  {
  }

  lemma InboundUnrelated(s: State, e: Event)
    requires s.offerPending <==> OfferOut(s)
    ensures Unrelated(s, ByeStep(s, e))
    ensures e.OnResponse? ==> Unrelated(s, Deliver(s, e.cseq, e.response))
  {
  }

  lemma NotifyUnrelated(s: State, n: Notify)
    requires s.offerPending <==> OfferOut(s)
    ensures Unrelated(s, NotifyStep(s, n))
  {
  }

  lemma ReinviteFinalKeeps(s: State, r: Response)
    requires CryptoInv(s) && s.holder.Reinvite?
    ensures Keeps(s, ReinviteFinal(s, r))
  {
    VerbUnrelated(s);
    UnrelatedKeeps(s, AbortStep(s));
    if Challenge(r) && !s.holder.retried {
      RetryKeeps(s, r);
    } else if r.sdp.Some? && r.sdp.value.audio.Some? {
      AckKeeps(s, r);
    }
    hide Keeps, CryptoInv, AbortStep, Build, LastRequest;
  }

  lemma RetryKeeps(s: State, r: Response)
    requires CryptoInv(s) && s.holder.Reinvite? && Challenge(r) && !s.holder.retried
    ensures var b := Build(s, INVITE, true, s.holder.offer);
            b.Some? ==>
              Keeps(s, Await(b.value).(holder := Reinvite(s.holder.gates, s.holder.offer, b.value.dialog.cseq, true)))
  {
    BuildKeeps(s, INVITE, true, s.holder.offer);
    hide AcksReuseCseq, BodiesSecured, LastRequest;
  }

  lemma AckKeeps(s: State, r: Response)
    requires CryptoInv(s) && s.holder.Reinvite? && r.sdp.Some? && r.sdp.value.audio.Some?
    ensures Keeps(s, Send(s, Ack(s.holder.cseq)).(
                       holder := Acking(s.holder.gates, s.holder.offer, r.sdp.value.audio.value, s.holder.cseq)))
  {
    assert IsOffer(LastRequest(s.sent), s.holder.cseq, s.holder.offer);
    Appended(s.sent, Ack(s.holder.cseq), s.media.crypto.Some?);
    hide AcksReuseCseq, BodiesSecured, LastRequest;
  }

  lemma CommitKeeps(s: State)
    requires CryptoInv(s) && s.holder.Acking?
    ensures Keeps(s, CommitStep(s))
  {
  }

  lemma ResumeKeeps(s: State)
    requires CryptoInv(s)
    ensures Keeps(s, ResumeStep(s))
  {
    if Awaiting(s.holder) && s.holder.cseq in s.pending && s.pending[s.holder.cseq] != [] {
      var t, r := s.(pending := s.pending - {s.holder.cseq}), s.pending[s.holder.cseq][0];
      if s.holder.Reinvite? {
        ReinviteFinalKeeps(t, r);
      } else {
        hide ReferFinal, InfoFinal;
        FinalUnrelated(t, r);
        UnrelatedKeeps(s, if s.holder.Referring? then ReferFinal(t, r) else InfoFinal(t, r));
      }
    }
  }

  lemma AnswerKeeps(s: State, offer: Offer, answerable: bool)
    requires CryptoInv(s)
    ensures Keeps(s, ReinviteStep(s, offer, answerable))
  {
    if Refused(s, offer).Some? {
      Appended(s.sent, Refusal(Refused(s, offer).value), s.media.crypto.Some?);
    } else {
      var t := AnswerStep(s, offer, true);
      Appended(s.sent, t.sent[|s.sent|], s.media.crypto.Some?);
    }
  }

  lemma StepKeeps(s: State, e: Event)
    requires CryptoInv(s)
    ensures Keeps(s, Step(s, e))
  {
    hide ResumeStep, StartReofferStep, StartTransferStep, StartInfoStep, StartHangUpStep, WaiterStep, NotifyStep,
      ByeStep, Deliver, ReinviteStep, CommitStep, AbortStep, DoneStep, Keeps, AcksReuseCseq, BodiesSecured;
    if e.StartReinvite? {
      if s.holder.Free? { StartReofferKeeps(s, e.gates); } else { UnrelatedKeeps(s, s); }
    } else if e.Resume? {
      ResumeKeeps(s);
    } else if e.Acked? && s.holder.Acking? {
      CommitKeeps(s);
    } else if e.InReinvite? {
      AnswerKeeps(s, e.offer, e.answerable);
    } else {
      OtherKeeps(s, e);
    }
  }

  lemma OtherKeeps(s: State, e: Event)
    requires CryptoInv(s)
    requires !e.StartReinvite? && !e.Resume? && !(e.Acked? && s.holder.Acking?) && !e.InReinvite?
    ensures Keeps(s, Step(s, e))
  {
    hide ResumeStep, StartReofferStep, StartTransferStep, StartInfoStep, StartHangUpStep, WaiterStep, NotifyStep,
      ByeStep, Deliver, ReinviteStep, CommitStep, AbortStep, DoneStep, Keeps, AcksReuseCseq, BodiesSecured;
    if Starts(e) { StartUnrelated(s, e); }
    VerbUnrelated(s);
    WaiterUnrelated(s, e);
    InboundUnrelated(s, e);
    if e.InNotify? { NotifyUnrelated(s, e.notify); }
    UnrelatedKeeps(s, Step(s, e));
  }

  lemma {:induction false} RunKeeps(s: State, trace: seq<Event>)
    requires CryptoInv(s)
    ensures Keeps(s, Run(s, trace))
    decreases |trace|
  {
    if trace != [] {
      StepKeeps(s, trace[0]);
      RunKeeps(Step(s, trace[0]), trace[1..]);
    }
  }

  // --- what changes a key --------------------------------------------------------------

  /** The two completed exchanges: our offer answered for that very offer, or the peer's answered by us. */
  predicate CompletesOffer(s: State, e: Event) {
    && e.Acked? && s.holder.Acking? && s.holder.offer.Some?
    && s.holder.answer.srtp && s.holder.answer.cryptos != []
    && s.holder.answer.cryptos[0].tag == s.holder.offer.value.tag
    && s.holder.answer.cryptos[0].suite == s.holder.offer.value.suite
  }

  predicate CompletesReoffer(s: State, e: Event) {
    && e.InReinvite? && e.answerable && e.offer.Offered? && e.offer.sdp.audio.Some?
    && !s.offerPending && s.media.crypto.Some?
    && e.offer.sdp.audio.value.srtp && e.offer.sdp.audio.value.cryptos != []
  }

  lemma FinalKeepsKeys(s: State, r: Response)
    ensures s.holder.Reinvite? ==> ReinviteFinal(s, r).media == s.media
    ensures s.holder.Referring? ==> ReferFinal(s, r).media == s.media
    ensures s.holder.Informing? ==> InfoFinal(s, r).media == s.media
  {
    if s.holder.Referring? { AcceptedUnrelatedKeys(s, r.declined); }
    hide ReferAccepted;
  }

  lemma AcceptedUnrelatedKeys(s: State, declined: bool)
    requires s.holder.Referring?
    ensures ReferAccepted(s, declined).media == s.media
  {
  }

  lemma StartKeepsKeys(s: State, e: Event)
    ensures StartStep(s, e).media == s.media
  {
  }

  lemma WaiterKeepsKeys(s: State, e: Event)
    ensures WaiterStep(s, e).media == s.media && ByeStep(s, e).media == s.media
  {
  }

  /**
    A key changes only with a completed exchange, and then both change: to the peer's key
    of that exchange and to the fresh one we advertised in it.  A rejection, a timeout, a
    downgrade, a wrong tag or suite and an answer that cannot be built change neither.
  */
  lemma KeysChangeIff(s: State, e: Event)
    requires CryptoInv(s)
    ensures var t := Step(s, e).media;
            && (t != s.media <==> CompletesOffer(s, e) || CompletesReoffer(s, e))
            && (CompletesOffer(s, e) ==>
                  t == Media(s.holder.offer, Some(s.holder.answer.cryptos[0].key), Some(s.holder.offer.value.key)))
            && (CompletesReoffer(s, e) ==>
                  var theirs := e.offer.sdp.audio.value.cryptos[0];
                  t == Media(Some(theirs.(key := s.nextKey)), Some(theirs.key), Some(s.nextKey)))
  {
    hide ResumeStep, StartStep, WaiterStep, ByeStep, CommitStep, ReinviteStep,
      AcksReuseCseq, BodiesSecured, LastRequest;
    if e.Resume? {
      ResumeKeepsKeys(s);
    } else if e.Acked? && s.holder.Acking? {
      CommitKeys(s);
    } else if e.InReinvite? {
      ReanswerKeys(s, e);
    } else {
      StartKeepsKeys(s, e);
      WaiterKeepsKeys(s, e);
    }
  }

  lemma ResumeKeepsKeys(s: State)
    ensures ResumeStep(s).media == s.media
  {
    if Awaiting(s.holder) && s.holder.cseq in s.pending && s.pending[s.holder.cseq] != [] {
      hide ReinviteFinal, ReferFinal, InfoFinal;
      FinalKeepsKeys(s.(pending := s.pending - {s.holder.cseq}), s.pending[s.holder.cseq][0]);
    }
  }

  lemma CommitKeys(s: State)
    requires s.holder.Acking? && OfferSound(s)
    ensures var t := CommitStep(s).media;
            && (t != s.media <==> CompletesOffer(s, Acked))
            && (CompletesOffer(s, Acked) ==>
                  t == Media(s.holder.offer, Some(s.holder.answer.cryptos[0].key), Some(s.holder.offer.value.key)))
  {
  }

  lemma ReanswerKeys(s: State, e: Event)
    requires e.InReinvite? && KeysSound(s)
    ensures var t := ReinviteStep(s, e.offer, e.answerable).media;
            && (t != s.media <==> CompletesReoffer(s, e))
            && (CompletesReoffer(s, e) ==>
                  var theirs := e.offer.sdp.audio.value.cryptos[0];
                  t == Media(Some(theirs.(key := s.nextKey)), Some(theirs.key), Some(s.nextKey)))
  {
  }
}
