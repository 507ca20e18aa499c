/**
  The call session as the object it is: fields updated in place, one method for each
  stretch of code between two awaits.  Every method is proved to take the session through
  the step of CallState of the same name, so what holds over runs of those steps holds of it.
*/
module CallSessions {
  import opened Wrappers
  import opened CallState

  /** The per-direction SRTP keys of the media engine. */
  class MediaEngine {
    var inbound: Option<nat>
    var outbound: Option<nat>

    constructor (inbound: Option<nat>, outbound: Option<nat>)
      ensures this.inbound == inbound && this.outbound == outbound
    {
      this.inbound, this.outbound := inbound, outbound;
    }

    method RekeySrtp(inbound: Crypto, outbound: Crypto)
      modifies this
      ensures this.inbound == Some(inbound.key) && this.outbound == Some(outbound.key)
    {
      this.inbound := Some(inbound.key);
      this.outbound := Some(outbound.key);
    }
  }

  class CallSession {
    const routable: bool
    const media: MediaEngine
    var dialog: Counters
    var localCrypto: Option<Crypto>
    var ended: bool
    var localOfferPending: bool
    var pending: map<nat, seq<Response>>
    var lockHolder: Holder
    var transferTerminal: Option<nat>
    var terminalSet: bool
    var activeReferCseq: Option<nat>
    var outcomeLatched: bool
    var outcomeProgress: Option<Progress>
    var transferInProgress: bool
    var transferProgress: Option<Progress>
    var byes: nat
    var waiting: set<nat>
    var reports: map<nat, Verdict>
    var nextEvent: nat
    var nextKey: nat
    var sent: seq<Wire>

    ghost function Abs(): State
      reads this, media
    {
      State(dialog, routable, Media(localCrypto, media.inbound, media.outbound), TransferFields(), lockHolder, pending,
            localOfferPending, ended, byes, waiting, reports, nextEvent, nextKey, sent)
    }

    ghost function TransferFields(): Transfer
      reads this
    {
      Transfer(transferTerminal, terminalSet, activeReferCseq, outcomeLatched, outcomeProgress, transferInProgress,
               transferProgress)
    }

    constructor (dialog: Counters, routable: bool, media: MediaEngine, crypto: Option<Crypto>, nextKey: nat)
      ensures this.media == media
      ensures Abs() == State(dialog, routable, Media(crypto, media.inbound, media.outbound), IDLE_TRANSFER, Free, map[],
                             false, false, 0, {}, map[], 0, nextKey, [])
    {
      this.dialog, this.routable, this.media, this.localCrypto, this.nextKey :=
        dialog, routable, media, crypto, nextKey;
      ended, localOfferPending, pending, lockHolder := false, false, map[], Free;
      transferTerminal, terminalSet, activeReferCseq, outcomeLatched := None, false, None, false;
      outcomeProgress, transferInProgress, transferProgress := None, false, None;
      byes, waiting, reports, nextEvent, sent := 0, {}, map[], 0, [];
    }

    // --- shared pieces ------------------------------------------------------------

    method Write(w: Wire)
      modifies this`sent
      ensures sent == old(sent) + [w]
    {
      sent := sent + [w];
    }

    /** Build and send one in-dialog request; nothing changes when it cannot be built. */
    method SendRequest(verb: Verb, offers: bool, crypto: Option<Crypto>) returns (built: bool)
      modifies this`dialog, this`sent
      ensures var b := Build(old(Abs()), verb, offers, crypto);
              built == b.Some? && Abs() == if built then b.value else old(Abs())
    {
      var next := dialog.cseq + 1;
      if !routable || next >= MAX_CSEQ { return false; }
      var body: Option<Body> := None;
      if offers {
        dialog := dialog.(version := dialog.version + 1);
        body := Some(Body(dialog.version, crypto));
      }
      dialog := dialog.(cseq := next);
      Write(Request(verb, next, body));
      built := true;
    }

    method AwaitFinal()
      modifies this`pending
      ensures Abs() == Await(old(Abs()))
    {
      pending := pending[dialog.cseq := []];
    }

    /** No REFER to correlate with, nothing latched, and a fresh event that is not set. */
    method ClearOutcome()
      modifies this`activeReferCseq, this`outcomeLatched, this`outcomeProgress, this`terminalSet
      ensures activeReferCseq.None? && !outcomeLatched && outcomeProgress.None? && !terminalSet
    {
      activeReferCseq := None;
      outcomeLatched := false;
      outcomeProgress := None;
      terminalSet := false;
    }

    method DisarmTransfer(event: nat)
      modifies this`transferTerminal, this`activeReferCseq, this`outcomeLatched, this`outcomeProgress,
        this`transferInProgress, this`terminalSet
      ensures Abs() == Disarm(old(Abs()), event)
    {
      if transferTerminal == Some(event) {
        transferTerminal := None;
        ClearOutcome();
        transferInProgress := false;
      }
      assert Abs() == old(Abs()).(transfer := TransferFields());
    }

    /** The first waker fixes the outcome: a progress, or None for the end of the call. */
    method WakeTransfer(progress: Option<Progress>)
      modifies this`terminalSet, this`outcomeLatched, this`outcomeProgress
      ensures Abs() == old(Abs()).(transfer := Latch(old(TransferFields()), progress))
    {
      if transferTerminal.Some? {
        if !outcomeLatched {
          outcomeLatched := true;
          outcomeProgress := progress;
        }
        terminalSet := true;
      }
    }

    method ReportOutcome(event: nat, fallback: Verdict)
      modifies this`reports, this`waiting, this`transferTerminal, this`activeReferCseq, this`outcomeLatched,
        this`outcomeProgress, this`transferInProgress, this`terminalSet
      ensures Abs() == CallState.Report(old(Abs()), event, fallback)
    {
      var verdict := fallback;
      if outcomeLatched {
        verdict := if outcomeProgress.Some? then Finished(outcomeProgress.value) else CallEnded;
      }
      reports := reports[event := verdict];
      waiting := waiting - {event};
      assert Abs() == old(Abs()).(reports := reports, waiting := waiting);
      hide Disarm;
      DisarmTransfer(event);
    }

    method MintKey(like: Crypto) returns (key: Crypto)
      modifies this`nextKey
      ensures (Abs(), key) == Mint(old(Abs()), like)
    {
      key := like.(key := nextKey);
      nextKey := nextKey + 1;
    }

    // --- verbs ----------------------------------------------------------------------

    /** hold, unhold (gates) and refresh_session: the re-INVITE goes out with a fresh key, uncommitted. */
    method StartReinvite(gates: bool)
      requires lockHolder.Free?
      modifies this
      ensures Abs() == StartReofferStep(old(Abs()), gates)
    {
      var offer: Option<Crypto> := None;
      if localCrypto.Some? {
        var key := MintKey(localCrypto.value);
        offer := Some(key);
      }
      var built := SendRequest(INVITE, true, offer);
      if built {
        AwaitFinal();
        localOfferPending := true;
        lockHolder := Reinvite(gates, offer, dialog.cseq, false);
      }
    }

    /** transfer_blind, transfer_attended: arm the outcome first, then send the REFER. */
    method StartTransfer(waits: bool, targetOk: bool)
      requires lockHolder.Free?
      modifies this
      ensures Abs() == StartTransferStep(old(Abs()), waits, targetOk)
    {
      if ended || transferInProgress { return; }
      var event := ArmTransfer();
      var built := false;
      if targetOk { built := SendRequest(REFER, false, None); }
      if built {
        SentRefer(event, waits, false);
      } else {
        DisarmTransfer(event);
      }
    }

    method ArmTransfer() returns (event: nat)
      modifies this
      ensures event == old(nextEvent)
      ensures Abs() == old(Abs()).(nextEvent := event + 1,
                                   transfer := IDLE_TRANSFER.(terminal := Some(event), inProgress := true))
    {
      ClearOutcome();
      event := nextEvent;
      nextEvent := event + 1;
      transferInProgress := true;
      transferProgress := None;
      transferTerminal := Some(event);
    }

    method SentRefer(event: nat, waits: bool, retried: bool)
      modifies this
      ensures Abs() == Await(ReferBuilt(old(Abs()), event, waits, retried))
    {
      activeReferCseq := Some(dialog.cseq);
      lockHolder := Referring(event, waits, dialog.cseq, retried);
      AwaitFinal();
    }

    method StartInfo(digits: nat)
      modifies this
      ensures Abs() == StartInfoStep(old(Abs()), digits)
    {
      var built := false;
      if digits > 0 { built := SendRequest(INFO, false, None); }
      if built {
        AwaitFinal();
        lockHolder := Informing(digits - 1, dialog.cseq, false);
      } else {
        lockHolder := Free;
      }
    }

    method StartHangUp()
      requires lockHolder.Free?
      modifies this
      ensures Abs() == StartHangUpStep(old(Abs()))
    {
      if ended { return; }
      var built := SendRequest(BYE, false, None);
      if built {
        ended := true;
        WakeTransfer(None);
        lockHolder := HangingUp;
      }
    }

    /** The `finally` clauses of the verb that holds the lock. */
    method Abort()
      modifies this
      ensures Abs() == AbortStep(old(Abs()))
    {
      var held := lockHolder;
      lockHolder := Free;
      if held.Reinvite? || held.Referring? || held.Informing? { pending := pending - {held.cseq}; }
      if held.Reinvite? || held.Acking? { localOfferPending := false; }
      if held.Referring? { DisarmTransfer(held.event); }
    }

    method Retry(verb: Verb, offers: bool, crypto: Option<Crypto>, challengeOk: bool) returns (built: bool)
      modifies this`dialog, this`sent
      ensures var b := if challengeOk then Build(old(Abs()), verb, offers, crypto) else None;
              built == b.Some? && Abs() == if built then b.value else old(Abs())
    {
      built := false;
      if challengeOk { built := SendRequest(verb, offers, crypto); }
    }

    method OnReinviteFinal(r: Response)
      requires lockHolder.Reinvite?
      modifies this
      ensures Abs() == ReinviteFinal(old(Abs()), r)
    {
      var Reinvite(gates, offer, cseq, retried) := lockHolder;
      if Challenge(r) && !retried {
        var built := Retry(INVITE, true, offer, r.challengeOk);
        if built {
          AwaitFinal();
          lockHolder := Reinvite(gates, offer, dialog.cseq, true);
        } else {
          Abort();
        }
      } else if r.status < FIRST_ERROR_STATUS && r.sdp.Some? && r.sdp.value.audio.Some? {
        Write(Ack(cseq));
        lockHolder := Acking(gates, offer, r.sdp.value.audio.value, cseq);
      } else {
        Abort();
      }
    }

    method OnReferFinal(r: Response)
      requires lockHolder.Referring?
      modifies this
      ensures Abs() == ReferFinal(old(Abs()), r)
    {
      var Referring(event, waits, _, retried) := lockHolder;
      if Challenge(r) && !retried {
        var built := Retry(REFER, false, None, r.challengeOk);
        if built {
          SentRefer(event, waits, true);
        } else {
          Abort();
        }
      } else if r.status >= FIRST_ERROR_STATUS {
        Abort();
      } else {
        ReleaseReferred(r.declined);
      }
    }

    method ReleaseReferred(declined: bool)
      requires lockHolder.Referring?
      modifies this
      ensures Abs() == ReferAccepted(old(Abs()), declined)
    {
      var Referring(event, waits, _, _) := lockHolder;
      lockHolder := Free;
      if declined {
        ReportOutcome(event, SubscriptionDeclined);
      } else if outcomeLatched || !waits {
        ReportOutcome(event, WaitDisabled);
      } else {
        waiting := waiting + {event};
      }
    }

    method OnInfoFinal(r: Response)
      requires lockHolder.Informing?
      modifies this
      ensures Abs() == InfoFinal(old(Abs()), r)
    {
      var Informing(left, _, retried) := lockHolder;
      if Challenge(r) && !retried {
        var built := Retry(INFO, false, None, r.challengeOk);
        if built {
          AwaitFinal();
          lockHolder := Informing(left, dialog.cseq, true);
        } else {
          Abort();
        }
      } else if r.status >= FIRST_ERROR_STATUS {
        Abort();
      } else {
        StartInfo(left);
      }
    }

    /** The verb takes the next queued response: a provisional one is passed over. */
    method Resume()
      modifies this
      ensures Abs() == ResumeStep(old(Abs()))
    {
      hide Build, ReinviteFinal, ReferFinal, InfoFinal;
      if !Awaiting(lockHolder) { return; }
      var cseq := lockHolder.cseq;
      if cseq !in pending || pending[cseq] == [] { return; }
      var r := pending[cseq][0];
      if r.status < PROVISIONAL_CEILING {
        pending := pending[cseq := pending[cseq][1..]];
      } else {
        pending := pending - {cseq};
        if lockHolder.Reinvite? {
          OnReinviteFinal(r);
        } else if lockHolder.Referring? {
          OnReferFinal(r);
        } else {
          OnInfoFinal(r);
        }
      }
    }

    /** The ACK is out: commit both keys, or refuse the answer and change neither. */
    method Acked()
      requires lockHolder.Acking?
      modifies this, media
      ensures Abs() == CommitStep(old(Abs()))
    {
      var Acking(gates, offer, answer, _) := lockHolder;
      if offer.Some? {
        if !answer.srtp || answer.cryptos == [] || answer.cryptos[0].tag != offer.value.tag
           || answer.cryptos[0].suite != offer.value.suite {
          Abort();
          return;
        }
        media.RekeySrtp(answer.cryptos[0], offer.value);
        localCrypto := offer;
      }
      localOfferPending := false;
      lockHolder := if gates then Gating else Free;
    }

    method Done()
      modifies this`lockHolder
      ensures Abs() == DoneStep(old(Abs()))
    {
      if lockHolder.Gating? || lockHolder.HangingUp? { lockHolder := Free; }
    }

    // --- a transfer waiting outside the lock -----------------------------------------

    method WaiterGoesOn(event: nat, timedOut: bool)
      modifies this
      ensures Abs() == WaiterStep(old(Abs()), if timedOut then WaiterTimesOut(event) else WaiterWakes(event))
    {
      if event !in waiting { return; }
      if timedOut || (transferTerminal == Some(event) && terminalSet) {
        ReportOutcome(event, TimedOut);
      }
    }

    method CancelWaiter(event: nat)
      modifies this`waiting, this`transferTerminal, this`activeReferCseq, this`outcomeLatched, this`outcomeProgress,
        this`transferInProgress, this`terminalSet
      ensures Abs() == WaiterStep(old(Abs()), WaiterCancelled(event))
    {
      if event in waiting {
        waiting := waiting - {event};
        DisarmTransfer(event);
      }
    }

    // --- inbound ------------------------------------------------------------------------

    method OnResponse(cseq: nat, r: Response)
      modifies this`pending
      ensures Abs() == Deliver(old(Abs()), cseq, r)
    {
      if cseq in pending { pending := pending[cseq := pending[cseq] + [r]]; }
    }

    method OnReinvite(offer: Offer, answerable: bool)
      modifies this, media
      ensures Abs() == ReinviteStep(old(Abs()), offer, answerable)
    {
      hide AnswerStep;
      var refusal: Option<nat> := None;
      if localOfferPending {
        refusal := Some(491);
      } else if offer.Unparseable? {
        refusal := Some(400);
      } else if offer.Offered? {
        var audio := offer.sdp.audio;
        if audio.None? || (localCrypto.Some? && (!audio.value.srtp || audio.value.cryptos == [])) {
          refusal := Some(488);
        }
      }
      if refusal.None? {
        AnswerReinvite(offer, answerable);
      } else if answerable {
        Write(Refusal(refusal.value));
      }
    }

    /** Plan the keys, build the whole 200, and only then re-key, advance the version and send. */
    method AnswerReinvite(offer: Offer, answerable: bool)
      modifies this`localCrypto, this`nextKey, this`dialog, this`sent, media
      ensures Abs() == AnswerStep(old(Abs()), offer, answerable)
    {
      var render := localCrypto;
      var theirs: Option<Crypto> := None;
      if offer.Offered? && offer.sdp.audio.Some? {
        render := None;
        var audio := offer.sdp.audio.value;
        if localCrypto.Some? && audio.srtp && audio.cryptos != [] {
          theirs := Some(audio.cryptos[0]);
          var ours := MintKey(audio.cryptos[0]);
          render := Some(ours);
        }
      }
      var next := dialog.(version := dialog.version + 1);
      ghost var planned := Abs();
      assert PlanReanswer(old(Abs()), offer) == (planned, Plan(render, if theirs.None? then None else
                                                                       Some((theirs.value, render.value))));
      if !answerable { return; }
      if theirs.Some? {
        media.RekeySrtp(theirs.value, render.value);
        localCrypto := render;
        assert Abs() == Rekey(planned, theirs.value, render.value);
      }
      hide PlanReanswer, Rekey;
      dialog := next;
      Write(Answer(Body(next.version, render)));
    }

    method OnBye(answerable: bool)
      modifies this
      ensures Abs() == ByeStep(old(Abs()), InBye(answerable))
    {
      if answerable {
        Write(Reply(200));
        byes := byes + 1;
      }
    }

    /** The send of the 200 to a BYE returned, or failed: only then is the call over. */
    method OnByeSent(failed: bool)
      modifies this`byes, this`ended, this`terminalSet, this`outcomeLatched, this`outcomeProgress
      ensures Abs() == ByeStep(old(Abs()), if failed then ByeFailed else ByeAnswered)
    {
      if byes > 0 {
        byes := byes - 1;
        if !failed {
          ended := true;
          WakeTransfer(None);
        }
      }
    }

    method OnNotify(n: Notify)
      modifies this
      ensures Abs() == NotifyStep(old(Abs()), n)
    {
      if !n.answerable { return; }
      if !n.refer {
        Write(Reply(200));
      } else if n.fragment.None? {
        Write(Reply(400));
      } else {
        var p := n.fragment.value;
        if activeReferCseq.None? || n.id.Absent? || n.id == Id(activeReferCseq.value) {
          transferProgress := Some(p);
          if p.terminated && p.status >= PROVISIONAL_CEILING { WakeTransfer(Some(p)); }
        }
        Write(Reply(200));
      }
    }
  }
}
