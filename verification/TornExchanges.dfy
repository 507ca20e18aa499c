/**
  What tears an SDES exchange apart: the moves of either side that can leave the two ends
  with different keys, that nothing else does, and a run in which each of them does.
*/
module TornExchanges {
  import opened Wrappers
  import opened CallState
  import opened CallRuns
  import opened CallCrypto
  import opened KeyAgreement

  // --- the peer's finals, one for each request ---------------------------------------------

  /** The peer has read the request of this CSeq, and none after it that is still unread. */
  ghost predicate Answered(w: World, c: nat) {
    && c <= w.us.dialog.cseq
    && forall i :: Unread(w, i) && w.us.sent[i].Request? ==> c < w.us.sent[i].cseq
  }

  /** A final of an exchange the peer has accepted is its one 2xx. */
  predicate OnlyAnswer(p: Peer, c: nat, r: Response) {
    p.taken.Some? && p.taken.value.cseq == c ==> r == Accepting(p.taken.value.answer)
  }

  ghost predicate Replied(w: World, c: nat, r: Response) { Answered(w, c) && OnlyAnswer(w.peer, c, r) }

  ghost predicate RepliesSound(w: World) {
    && (forall j :: 0 <= j < |w.inbox| && w.inbox[j].Final? ==> Replied(w, w.inbox[j].cseq, w.inbox[j].response))
    && (forall c :: c in w.us.pending ==> forall r :: r in w.us.pending[c] ==> Replied(w, c, r))
  }

  /** Whatever was answered before is answered still, and by nothing new. */
  ghost predicate StillReplied(w: World, v: World) {
    forall c, r :: Replied(w, c, r) ==> Replied(v, c, r)
  }

  /** The finals under way are those that were, and perhaps one of a request just read. */
  ghost predicate Carries(w: World, v: World) {
    && (forall j :: 0 <= j < |v.inbox| && v.inbox[j].Final? ==>
          || Replied(v, v.inbox[j].cseq, v.inbox[j].response)
          || v.inbox[j] in w.inbox)
    && (forall c :: c in v.us.pending ==> forall r :: r in v.us.pending[c] ==>
          (c in w.us.pending && r in w.us.pending[c]) || Final(c, r) in w.inbox)
  }

  lemma CarriedReplies(w: World, v: World)
    requires RepliesSound(w) && StillReplied(w, v) && Carries(w, v)
    ensures RepliesSound(v)
  {
    hide Replied;
  }

  lemma SentKept(w: World, t: State)
    requires Emits(w.us, t) && w.read <= |w.us.sent|
    ensures |w.us.sent| <= |t.sent| && forall i :: 0 <= i < |w.us.sent| ==> t.sent[i] == w.us.sent[i]
  {
    hide Tracks, Counted;
    assert forall i :: 0 <= i < |w.us.sent| ==> t.sent[..|w.us.sent|][i] == t.sent[i];
  }

  /** One step of ours: a new request has a new CSeq. */
  lemma StepStillReplied(w: World, v: World)
    requires Emits(w.us, v.us) && v.peer == w.peer && v.read == w.read && w.read <= |w.us.sent|
    ensures StillReplied(w, v)
  {
    SentKept(w, v.us);
  }

  lemma OursReplies(w: World, e: Event)
    requires Inv(w) && RepliesSound(w)
    ensures RepliesSound(OurMove(w, e))
  {
    if !e.OnResponse? && !e.InReinvite? {
      var v := OurMove(w, e);
      assert v.us == Step(w.us, e) && v.inbox == w.inbox && v.peer == w.peer && v.read == w.read;
      StepEmits(w.us, e);
      OursHeard(w.us, e);
      hide Step, OurMove, Replied;
      assert w.read <= |w.us.sent|;
      StepStillReplied(w, v);
      CarriedReplies(w, v);
    }
  }

  /** Our steps only take responses off the queues. */
  lemma OursHeard(s: State, e: Event)
    requires !e.OnResponse? && !e.InReinvite?
    ensures Heard(s, Step(s, e))
  {
    if e.Acked? || e.Abort? {
      LeaveHeard(s, e);
    } else {
      OursShape(s, e);
    }
  }

  lemma LeaveHeard(s: State, e: Event)
    requires e.Acked? || e.Abort?
    ensures Heard(s, Step(s, e))
  {
    AbortHeard(s);
    if e.Acked? && s.holder.Acking? {
      CommitHeard(s);
      hide CommitStep;
    }
    hide AbortStep;
  }

  lemma AbortHeard(s: State)
    ensures Heard(s, AbortStep(s))
  {
  }

  lemma CommitHeard(s: State)
    requires s.holder.Acking?
    ensures Heard(s, CommitStep(s))
  {
    AbortHeard(s);
    hide AbortStep;
  }

  lemma DeliverReplies(w: World)
    requires Inv(w) && RepliesSound(w)
    ensures RepliesSound(DeliverMove(w))
  {
    if w.inbox != [] {
      var v, e := DeliverMove(w), DeliveredEvent(w);
      assert v.us == Step(w.us, e) && v.inbox == w.inbox[1..] && v.peer == w.peer && v.read == w.read;
      StepEmits(w.us, e);
      assert Carries(w, v) by { hide Replied; DeliverCarries(w); }
      hide Step, DeliverMove, Replied, Carries;
      assert w.read <= |w.us.sent|;
      StepStillReplied(w, v);
      CarriedReplies(w, v);
    }
  }

  lemma DeliverCarries(w: World)
    requires w.inbox != []
    ensures Carries(w, DeliverMove(w))
  {
    var v := DeliverMove(w);
    assert v.inbox == w.inbox[1..] && v.us == Step(w.us, DeliveredEvent(w));
    if w.inbox[0].Reoffer? { ReofferKeepsPending(w.us, DeliveredEvent(w)); }
    hide DeliverMove, ReinviteStep;
  }

  lemma ReofferKeepsPending(s: State, e: Event)
    requires e.InReinvite?
    ensures Step(s, e).pending == s.pending
  {
    hide AnswerStep;
    AnswerKeepsPending(s, e.offer, e.answerable);
  }

  lemma AnswerKeepsPending(s: State, offer: Offer, answerable: bool)
    ensures AnswerStep(s, offer, answerable).pending == s.pending
  {
  }

  /** Reading on: the request just read is answered by what goes into the inbox. */
  lemma ReadReplies(w: World, reply: Reply, status: nat, rotates: bool)
    requires Inv(w) && RepliesSound(w)
    ensures RepliesSound(ReadMove(w, reply, status, rotates))
  {
    if w.read < |w.us.sent| {
      var v := ReadMove(w, reply, status, rotates);
      ReadStillReplied(w, reply, status, rotates);
      ReadCarries(w, reply, status, rotates);
      hide ReadMove, Inv, StillReplied, Carries, RepliesSound;
      CarriedReplies(w, v);
    }
  }

  lemma ReadStillReplied(w: World, reply: Reply, status: nat, rotates: bool)
    requires Inv(w) && w.read < |w.us.sent|
    ensures StillReplied(w, ReadMove(w, reply, status, rotates))
  {
    var v := ReadMove(w, reply, status, rotates);
    hide Inv;
    assert v.us == w.us && v.read == w.read + 1;
    assert v.peer.taken.Some? ==>
        v.peer.taken == w.peer.taken
        || (w.us.sent[w.read].Request? && v.peer.taken.value.cseq == w.us.sent[w.read].cseq);
    hide ReadMove;
    assert Unread(w, w.read);
    forall c, r | Replied(w, c, r) ensures Replied(v, c, r) {
      assert forall i :: Unread(v, i) ==> Unread(w, i);
    }
  }

  lemma ReadCarries(w: World, reply: Reply, status: nat, rotates: bool)
    requires Inv(w) && w.read < |w.us.sent|
    ensures Carries(w, ReadMove(w, reply, status, rotates))
  {
    var v := ReadMove(w, reply, status, rotates);
    var m := w.us.sent[w.read];
    if m.Request? {
      assert v.inbox == w.inbox || |v.inbox| == |w.inbox| + 1;
      JustAnswered(w, v);
      hide Inv, Answered;
    } else {
      hide Inv;
      assert v.inbox == w.inbox;
    }
  }

  lemma JustAnswered(w: World, v: World)
    requires Ordered(w.us) && TakenSound(w) && w.read < |w.us.sent| && w.us.sent[w.read].Request?
    requires v.us == w.us && v.read == w.read + 1
    ensures Answered(v, w.us.sent[w.read].cseq)
    ensures w.peer.taken.Some? ==> w.peer.taken.value.cseq != w.us.sent[w.read].cseq
  {
    assert Unread(w, w.read);
  }

  lemma NextReplies(w: World, m: Move)
    requires Inv(w) && RepliesSound(w)
    ensures RepliesSound(Next(w, m))
  {
    hide Inv, RepliesSound, OurMove, DeliverMove, ReadMove;
    match m
    case Ours(e) => OursReplies(w, e);
    case Deliver => DeliverReplies(w);
    case PeerReads(reply, status, rotates) => ReadReplies(w, reply, status, rotates);
    case _ => SendReplies(w, m);
  }

  lemma SendReplies(w: World, m: Move)
    requires RepliesSound(w) && (m.PeerOffers? || m.PeerAsks?)
    ensures RepliesSound(Next(w, m))
  {
    var v := Next(w, m);
    assert v.us == w.us && v.read == w.read && (v.peer.taken == w.peer.taken || !v.peer.taken.Some?);
    assert StillReplied(w, v);
  }

  // --- what tears an exchange apart -------------------------------------------------------------

  /** The peer is about to take an offer that no verb of ours waits for any more. */
  predicate Late(w: World) {
    && w.read < |w.us.sent| && w.us.sent[w.read].Request? && w.us.sent[w.read].verb == INVITE
    && w.peer.own.Idle? && !WaitsFor(w.us, w.us.sent[w.read].cseq)
  }

  /** The peer is about to read our 200 to its re-INVITE without an offer, and to answer in its ACK. */
  predicate AnswersInAck(w: World) {
    w.read < |w.us.sent| && w.us.sent[w.read].Answer? && w.peer.own.Asking?
  }

  /**
    The moves that tear an exchange apart: our verb dropped between the ACK and its commit, or
    while the 2xx of a peer that has changed keys is on its way; such a peer answering an offer no
    verb waits for; and a peer that rotates its key in an ACK.
  */
  predicate Breaks(w: World, m: Move) {
    match m
    case Ours(e) => Tears(w.us, e) || (e.Abort? && Keyed(w.peer) && Awaited(w))
    case PeerReads(reply, _, rotates) => (rotates && AnswersInAck(w)) || (reply.KeyAtOnce? && Late(w))
    case _ => false
  }

  /** A verb waiting for its 2xx ends with the ACK, or is dropped. */
  lemma WaitingStays(s: State, e: Event, answer: Crypto)
    requires s.holder.Reinvite? && !e.Abort?
    requires s.holder.cseq in s.pending ==> forall r :: r in s.pending[s.holder.cseq] ==> r == Accepting(answer)
    ensures var t := Step(s, e);
            t.holder == s.holder || t.sent == s.sent + [Ack(s.holder.cseq)]
  {
    InboundHolder(s, e);
    hide WaiterStep, NotifyStep, ByeStep, CallState.Deliver, ReinviteStep, ResumeStep;
    if e.Resume? { ResumeAcks(s, answer); }
  }

  lemma ResumeAcks(s: State, answer: Crypto)
    requires s.holder.Reinvite?
    requires s.holder.cseq in s.pending ==> forall r :: r in s.pending[s.holder.cseq] ==> r == Accepting(answer)
    ensures var t := ResumeStep(s);
            t.holder == s.holder || t.sent == s.sent + [Ack(s.holder.cseq)]
  {
    if s.holder.cseq in s.pending && s.pending[s.holder.cseq] != [] {
      var r := s.pending[s.holder.cseq][0];
      assert r in s.pending[s.holder.cseq] && r == Accepting(answer);
    }
  }

  lemma OnlyAnswerQueued(w: World)
    requires RepliesSound(w) && w.peer.taken.Some?
    ensures w.peer.taken.value.cseq in w.us.pending ==>
              forall r :: r in w.us.pending[w.peer.taken.value.cseq] ==> r == Accepting(w.peer.taken.value.answer)
  {
    hide Answered;
    var c := w.peer.taken.value.cseq;
    if c in w.us.pending {
      forall r | r in w.us.pending[c] ensures r == Accepting(w.peer.taken.value.answer) {
        assert Replied(w, c, r);
      }
    }
  }

  /** A verb that waits for the 2xx of the peer's exchange goes on waiting, or sends the ACK. */
  lemma AwaitedStays(w: World, e: Event)
    requires Inv(w) && RepliesSound(w) && Awaited(w) && !e.Abort?
    ensures OurMove(w, e).us.holder == w.us.holder || AckUnread(OurMove(w, e))
  {
    if !e.OnResponse? && !e.InReinvite? {
      OnlyAnswerQueued(w);
      WaitingStays(w.us, e, w.peer.taken.value.answer);
      assert w.read <= |w.us.sent|;
      hide Step, Inv, RepliesSound;
      var v := OurMove(w, e);
      if v.us.sent == w.us.sent + [Ack(w.us.holder.cseq)] {
        assert Unread(v, |w.us.sent|) && v.us.sent[|w.us.sent|].Ack?;
      }
    }
  }

  /** What is unread stays so while the peer reads nothing. */
  lemma UnreadStays(w: World, v: World)
    requires Emits(w.us, v.us) && v.read == w.read && w.read <= |w.us.sent|
    ensures AckUnread(w) ==> AckUnread(v)
    ensures AnswerUnread(w) ==> AnswerUnread(v)
  {
    SentKept(w, v.us);
    assert forall i :: Unread(w, i) ==> Unread(v, i);
  }

  /** Our own step, and what it leaves alone. */
  lemma OursEmits(w: World, e: Event)
    requires Inv(w) && !e.OnResponse? && !e.InReinvite?
    ensures var v := OurMove(w, e);
            && v.us == Step(w.us, e) && v.peer == w.peer && v.read == w.read && w.read <= |w.us.sent|
            && Emits(w.us, v.us) && WaitsAnew(w.us, v.us)
  {
    StepEmits(w.us, e);
    WaitingIsNew(w.us, e);
    hide Step, Emits, WaitsAnew;
  }

  /** Our move strands an exchange only by dropping the verb that waits for it. */
  lemma OursStrands(w: World, e: Event)
    requires Inv(w) && RepliesSound(w) && !Stranded(w) && Stranded(OurMove(w, e))
    ensures e.Abort? && Keyed(w.peer) && Awaited(w)
  {
    if !e.OnResponse? && !e.InReinvite? {
      hide Inv, RepliesSound, Step, OurMove, AckUnread, AnswerUnread, Emits, WaitsAnew;
      OursEmits(w, e);
      UnreadStays(w, OurMove(w, e));
      if Awaited(w) && !e.Abort? { AwaitedStays(w, e); }
    }
  }

  /** The move that delivers a final changes no more than our queue of responses. */
  lemma FinalLeaves(w: World)
    requires w.inbox != [] && w.inbox[0].Final?
    ensures var v := DeliverMove(w);
            && v.us.sent == w.us.sent && v.us.holder == w.us.holder && v.us.media == w.us.media && v.peer == w.peer
            && v.read == w.read && v.torn == w.torn
            && AckUnread(v) == AckUnread(w) && AnswerUnread(v) == AnswerUnread(w)
  {
    FinalMove(w);
    hide DeliverMove, Step;
  }

  lemma ReofferMove(w: World)
    requires Inv(w) && w.inbox != [] && w.inbox[0].Reoffer?
    ensures Settles(w, DeliverMove(w))
    ensures var v := DeliverMove(w);
            && AckUnread(v) == AckUnread(w) && !AnswerUnread(w)
            && (AnswerUnread(v) <==> v.us.sent[|w.us.sent|].Answer?) && w.read <= |w.us.sent|
  {
    ReofferSettles(w);
    hide Settles, DeliverMove, CryptoInv, Ordered, KeysAgree, FreshKeys, TakenSound, AckingSound;
    SettleTokens(w, DeliverMove(w));
  }

  /** What is delivered strands nothing. */
  lemma DeliverStrands(w: World)
    requires Inv(w) && Stranded(DeliverMove(w))
    ensures Stranded(w)
  {
    hide AckUnread, AnswerUnread;
    if w.inbox != [] {
      if w.inbox[0].Final? { FinalLeaves(w); } else { ReofferMove(w); }
      hide Inv, DeliverMove;
    }
  }

  /** The peer reads our next offer, or our 200: an exchange it gives up then is one we had stranded. */
  lemma GivesUpStranded(w: World)
    requires Inv(w) && w.read < |w.us.sent| && Keyed(w.peer)
    requires (w.us.sent[w.read].Request? && w.peer.own.Idle?) || (w.us.sent[w.read].Answer? && !w.peer.own.Offering?)
    ensures Stranded(w)
  {
    hide CryptoInv, InboundSound, KeysAgree, FreshKeys;
    assert Unread(w, w.read);
    if w.us.sent[w.read].Request? { TakesLater(w); }
    hide Ordered;
  }

  lemma ReadTears(w: World, reply: Reply, status: nat, rotates: bool)
    requires Inv(w) && !Torn(w) && Torn(ReadMove(w, reply, status, rotates))
    ensures (rotates && AnswersInAck(w)) || (reply.KeyAtOnce? && Late(w))
  {
    if w.read < |w.us.sent| {
      hide Inv, AckUnread, AnswerUnread, ReadMove;
      var v, m := ReadMove(w, reply, status, rotates), w.us.sent[w.read];
      if m.Ack? {
        ReadAckShape(w, reply, status, rotates);
      } else if m.Answer? {
        ReadAnswerShape(w, reply, status, rotates);
        AnswerToOwn(w);
        if Keyed(w.peer) && !w.peer.own.Offering? { GivesUpStranded(w); }
      } else if m.Request? && m.verb == INVITE && !reply.Refuse? && w.peer.own.Idle? {
        TakeShape(w, reply, status, rotates);
        if Keyed(w.peer) { GivesUpStranded(w); }
      } else {
        ReadPastShape(w, reply, status, rotates);
        PassedOver(w, v);
      }
    }
  }

  lemma AnswerToOwn(w: World)
    requires Inv(w) && w.read < |w.us.sent| && w.us.sent[w.read].Answer?
    ensures !w.peer.own.Idle?
  {
    hide CryptoInv, Ordered, InboundSound, TakenSound, AckingSound, KeysAgree, FreshKeys;
    assert Unread(w, w.read);
  }

  lemma PassedOver(w: World, v: World)
    requires Inv(w) && ReadsPast(w, v)
    ensures Stranded(v) == Stranded(w)
  {
    hide Ordered, CryptoInv, InboundSound, KeysAgree, FreshKeys;
    ReadPastOutbound(w, v);
    ReadOn(w, v);
    hide AckUnread, AnswerUnread, OutboundSound, TakenSound, AckingSound;
  }

  lemma SendStrands(w: World, m: Move)
    requires Inv(w) && (m.PeerOffers? || m.PeerAsks?)
    ensures Torn(Next(w, m)) == Torn(w) && Next(w, m).us == w.us
  {
    hide CryptoInv, Ordered, InboundSound, TakenSound, AckingSound, KeysAgree, FreshKeys;
    assert AckUnread(Next(w, m)) == AckUnread(w) && AnswerUnread(Next(w, m)) == AnswerUnread(w);
  }

  lemma TearsOnlyBy(w: World, m: Move)
    requires Inv(w) && RepliesSound(w) && !Torn(w) && Torn(Next(w, m))
    ensures Breaks(w, m)
  {
    match m
    case Ours(e) => if Stranded(OurMove(w, e)) { hide Inv; OursStrands(w, e); }
    case Deliver => if Stranded(DeliverMove(w)) { DeliverStrands(w); }
    case PeerReads(reply, status, rotates) => ReadTears(w, reply, status, rotates);
    case _ => SendStrands(w, m);
  }

  lemma AbortMove(w: World)
    ensures var v := OurMove(w, Abort);
            && v.peer == w.peer && v.read == w.read && v.us.sent == w.us.sent && v.us.holder.Free?
            && (w.us.holder.Acking? ==> v.torn)
            && AckUnread(v) == AckUnread(w) && AnswerUnread(v) == AnswerUnread(w)
  {
    AbortShape(w.us);
    AbortLeaves(w.us);
    hide AbortStep;
  }

  lemma AwaitedUnacked(w: World)
    requires Inv(w) && Awaited(w)
    ensures !AckUnread(w) && !AnswerUnread(w)
  {
    hide CryptoInv, InboundSound, TakenSound, AckingSound, KeysAgree, FreshKeys;
  }

  lemma LateStrands(w: World, status: nat, rotates: bool)
    requires Inv(w) && Late(w)
    ensures Stranded(ReadMove(w, KeyAtOnce, status, rotates))
  {
    var v := ReadMove(w, KeyAtOnce, status, rotates);
    TakeShape(w, KeyAtOnce, status, rotates);
    hide ReadMove, CryptoInv, Ordered, OutboundSound, InboundSound, TakenSound, AckingSound, KeysAgree, FreshKeys,
      AckUnread, AnswerUnread;
    TakesLater(w);
    TakesOutbound(w, v, true);
  }

  lemma BreaksTear(w: World, m: Move)
    requires Inv(w) && Breaks(w, m)
    ensures Torn(Next(w, m))
  {
    match m
    case Ours(e) =>
      hide Inv, AckUnread, AnswerUnread, OurMove;
      AbortMove(w);
      if !w.us.holder.Acking? { AwaitedUnacked(w); }
    case PeerReads(reply, status, rotates) =>
      hide Inv, Stranded, ReadMove;
      if rotates && AnswersInAck(w) { ReadAnswerShape(w, reply, status, rotates); }
      else { LateStrands(w, status, rotates); }
    case _ =>
  }

  // --- until an exchange completes --------------------------------------------------------------

  /** Our own step answers no re-INVITE, and changes keys only as it commits. */
  lemma OursAnswersNothing(s: State, e: Event)
    requires !e.OnResponse? && !e.InReinvite?
    ensures var t := Step(s, e);
            && (|s.sent| < |t.sent| ==> !t.sent[|s.sent|].Answer?)
            && (t.media != s.media ==> e.Acked? && s.holder.Acking? && t.sent == s.sent)
  {
    if s.holder.Acking? && (e.Acked? || e.Abort?) {
      LeavesWire(s, e);
    } else {
      OursShape(s, e);
      hide Step;
    }
  }

  lemma LeavesWire(s: State, e: Event)
    requires s.holder.Acking? && (e.Acked? || e.Abort?)
    ensures Step(s, e).sent == s.sent && (e.Abort? ==> Step(s, e).media == s.media)
  {
  }

  lemma OursKeepsTorn(w: World, e: Event)
    requires Inv(w) && Torn(w)
    ensures Torn(OurMove(w, e)) <==> OurMove(w, e).us.media == w.us.media
  {
    if !e.OnResponse? && !e.InReinvite? {
      hide Inv, OurMove, Step, AckUnread, AnswerUnread, Awaited;
      OursEmits(w, e);
      OursTorn(w, e);
      if OurMove(w, e).us.media == w.us.media {
        if Stranded(w) { OursStranded(w, e); }
      } else {
        OursMends(w, e);
      }
    }
  }

  lemma OursTorn(w: World, e: Event)
    requires !e.OnResponse? && !e.InReinvite?
    ensures var v := OurMove(w, e);
            v.torn == (if v.us.media != w.us.media then false else w.torn || Tears(w.us, e))
  {
  }

  /** A new ACK is that of the verb that waits. */
  lemma AckIsAwaited(w: World, v: World)
    requires Inv(v) && Emits(w.us, v.us) && v.read == w.read && v.peer == w.peer && w.read <= |w.us.sent|
    requires AckUnread(v) && !AckUnread(w)
    ensures Awaited(w)
  {
    SentKept(w, v.us);
    assert OutboundSound(v);
    hide Inv, Tracks, Counted;
    assert forall i :: Unread(v, i) && i < |w.us.sent| ==> Unread(w, i);
  }

  lemma OursStranded(w: World, e: Event)
    requires Inv(w) && Stranded(w) && !e.OnResponse? && !e.InReinvite?
    ensures Stranded(OurMove(w, e))
  {
    hide Step, Emits, OurMove, AckUnread, AnswerUnread, WaitsAnew;
    var v := OurMove(w, e);
    OursEmits(w, e);
    OurMoveKeeps(w, e);
    NewlyAwaited(w, v);
    OursAnswersNothing(w.us, e);
    NoNewAnswer(w, v);
    hide Inv;
    if AckUnread(v) { AckIsAwaited(w, v); }
  }

  lemma NoNewAnswer(w: World, v: World)
    requires Emits(w.us, v.us) && v.read == w.read && w.read <= |w.us.sent|
    requires |w.us.sent| < |v.us.sent| ==> !v.us.sent[|w.us.sent|].Answer?
    ensures AnswerUnread(v) ==> AnswerUnread(w)
  {
    SentKept(w, v.us);
    hide Tracks, Counted;
    assert forall i :: Unread(v, i) && i < |w.us.sent| ==> Unread(w, i);
  }

  /** A commit of ours is of the exchange the peer has our ACK of, or will have. */
  lemma OursMends(w: World, e: Event)
    requires Inv(w) && !e.OnResponse? && !e.InReinvite? && OurMove(w, e).us.media != w.us.media
    ensures !Torn(OurMove(w, e))
  {
    var v := OurMove(w, e);
    OursEmits(w, e);
    OursTorn(w, e);
    OursAnswersNothing(w.us, e);
    assert w.peer.taken.Some? ==> AckUnread(w) by { hide Step, OurMove, CryptoInv, Ordered, OutboundSound, InboundSound,
      TakenSound, KeysAgree, FreshKeys; }
    hide Inv, Step, OurMove, AckUnread, AnswerUnread, Emits;
    UnreadStays(w, v);
  }

  lemma DeliverKeepsTorn(w: World)
    requires Inv(w) && Torn(w)
    ensures Torn(DeliverMove(w)) <==> DeliverMove(w).us.media == w.us.media
  {
    if w.inbox != [] {
      hide Inv, DeliverMove, AckUnread, AnswerUnread;
      if w.inbox[0].Final? { FinalLeaves(w); } else { ReofferMove(w); }
    }
  }

  /** Whatever the peer reads: it never mends an exchange that we have not completed. */
  lemma ReadKeepsTorn(w: World, reply: Reply, status: nat, rotates: bool)
    requires Inv(w) && Torn(w)
    ensures Torn(ReadMove(w, reply, status, rotates)) && ReadMove(w, reply, status, rotates).us == w.us
  {
    if w.read < |w.us.sent| {
      hide Inv, AckUnread, AnswerUnread, ReadMove;
      var v, m := ReadMove(w, reply, status, rotates), w.us.sent[w.read];
      JustRead(w);
      if m.Ack? {
        ReadAckShape(w, reply, status, rotates);
      } else if m.Answer? {
        ReadAnswerShape(w, reply, status, rotates);
      } else if m.Request? && m.verb == INVITE && !reply.Refuse? && w.peer.own.Idle? {
        TakeShape(w, reply, status, rotates);
      } else {
        ReadPastShape(w, reply, status, rotates);
        PassedOver(w, v);
      }
    }
  }

  lemma JustRead(w: World)
    requires w.read < |w.us.sent|
    ensures w.us.sent[w.read].Ack? ==> AckUnread(w)
    ensures w.us.sent[w.read].Answer? ==> AnswerUnread(w)
  {
    assert Unread(w, w.read);
  }

  /** What is torn apart stays so, move by move, exactly as long as none of our keys changes. */
  lemma TornTillCompletion(w: World, m: Move)
    requires Inv(w) && Torn(w)
    ensures Torn(Next(w, m)) <==> Next(w, m).us.media == w.us.media
  {
    hide Inv, Torn, OurMove, DeliverMove, ReadMove;
    match m
    case Ours(e) => OursKeepsTorn(w, e);
    case Deliver => DeliverKeepsTorn(w);
    case PeerReads(reply, status, rotates) => ReadKeepsTorn(w, reply, status, rotates);
    case _ => SendStrands(w, m);
  }

  predicate Completes(w: World, m: Move) { Next(w, m).us.media != w.us.media }

  /** The last move that tore an exchange apart has not been made good: no exchange has completed since. */
  predicate Broken(w: World, moves: seq<Move>, broken: bool)
    decreases |moves|
  {
    if moves == [] then broken
    else Broken(Next(w, moves[0]), moves[1..], if broken then !Completes(w, moves[0]) else Breaks(w, moves[0]))
  }

  lemma {:induction false} TornIffBroken(w: World, moves: seq<Move>)
    requires Inv(w) && RepliesSound(w)
    ensures Torn(Play(w, moves)) <==> Broken(w, moves, Torn(w))
    decreases |moves|
  {
    if moves != [] {
      hide Inv, RepliesSound, Torn, Breaks, Next;
      var v := Next(w, moves[0]);
      NextKeeps(w, moves[0]);
      NextReplies(w, moves[0]);
      if Torn(w) { TornTillCompletion(w, moves[0]); }
      else if Torn(v) { TearsOnlyBy(w, moves[0]); }
      else if Breaks(w, moves[0]) { BreaksTear(w, moves[0]); }
      TornIffBroken(v, moves[1..]);
    }
  }

  lemma EstablishedReplies(w: World)
    requires Established(w)
    ensures Inv(w) && RepliesSound(w) && !Torn(w)
  {
    EstablishedInv(w);
  }

  /**
    The moves of a run decide it: where all is read and no commit is due, both ends hold the same keys
    exactly if an exchange has completed since the last move that tore one apart.
  */
  lemma KeysMatchIffUnbroken(w: World, moves: seq<Move>)
    requires Established(w)
    ensures var v := Play(w, moves);
            v.read == |v.us.sent| && !CommitDue(v) ==> (KeysMatch(v) <==> !Broken(w, moves, false))
  {
    EstablishedReplies(w);
    TornIffBroken(w, moves);
    hide Established, Inv, RepliesSound, Torn, CommitDue, KeysMatch, Play;
    KeysMatchIffNotTorn(w, moves);
  }

  /** No exchange completes on our side: no key of ours changes. */
  predicate NoneCompletes(w: World, moves: seq<Move>)
    decreases |moves|
  {
    moves == [] || (!Completes(w, moves[0]) && NoneCompletes(Next(w, moves[0]), moves[1..]))
  }

  lemma {:induction false} TornRun(w: World, moves: seq<Move>)
    requires Inv(w) && Torn(w) && NoneCompletes(w, moves)
    ensures Inv(Play(w, moves)) && Torn(Play(w, moves))
    decreases |moves|
  {
    if moves != [] {
      hide Inv, Torn, Next;
      NextKeeps(w, moves[0]);
      TornTillCompletion(w, moves[0]);
      TornRun(Next(w, moves[0]), moves[1..]);
    }
  }

  /**
    From any state of any run in which an exchange is torn apart: the keys differ wherever all is read
    and no commit is due, until an exchange of either side completes, and the first one that does mends it.
  */
  lemma TornUntilOneCompletes(w: World, before: seq<Move>, after: seq<Move>, m: Move)
    requires Established(w) && Torn(Play(w, before)) && NoneCompletes(Play(w, before), after)
    ensures var v := Play(Play(w, before), after);
            && Torn(v) && (v.read == |v.us.sent| && !CommitDue(v) ==> !KeysMatch(v))
            && (Completes(v, m) ==> !Torn(Next(v, m)))
  {
    EstablishedInv(w);
    PlayKeeps(w, before);
    hide Established, Play, Inv, Torn, Next, KeysMatch, CommitDue, NoneCompletes;
    TornRun(Play(w, before), after);
    var v := Play(Play(w, before), after);
    TornTillCompletion(v, m);
    if v.read == |v.us.sent| && !CommitDue(v) { RestMatches(v); }
  }

  // --- runs ---------------------------------------------------------------------------------------

  /** All is read, the lock is free, nothing is on its way and the peer has no offer out. */
  predicate Rested(w: World) {
    w.read == |w.us.sent| && w.us.holder.Free? && w.inbox == [] && w.peer.own.Idle?
  }

  lemma TwoMoves(w: World, m: Move, n: Move)
    ensures Play(w, [m, n]) == Next(Next(w, m), n)
  {
    assert [m, n][1..] == [n] && [n][1..] == [] && Play(Next(w, m), [n]) == Play(Next(Next(w, m), n), []);
  }

  lemma ThreeMoves(w: World, moves: seq<Move>)
    requires |moves| == 3
    ensures Play(w, moves) == Next(Next(Next(w, moves[0]), moves[1]), moves[2])
  {
    hide Next;
    assert moves[1..] == [moves[1], moves[2]] && Play(w, moves) == Play(Next(w, moves[0]), moves[1..]);
    TwoMoves(Next(w, moves[0]), moves[1], moves[2]);
  }

  lemma PlayInTwo(w: World, moves: seq<Move>, more: seq<Move>)
    ensures Play(w, moves + more) == Play(Play(w, moves), more)
    decreases |moves|
  {
    if moves == [] {
      assert moves + more == more;
    } else {
      assert (moves + more)[1..] == moves[1..] + more;
      PlayInTwo(Next(w, moves[0]), moves[1..], more);
    }
  }

  /** Our re-offer goes out with a fresh key. */
  lemma OfferSent(w: World)
    requires Inv(w) && Rested(w) && w.us.routable && w.us.dialog.cseq + 1 < MAX_CSEQ
    ensures w.us.media.crypto.Some?
    ensures var c, k := w.us.dialog.cseq + 1, w.us.media.crypto.value.(key := w.us.nextKey);
            var a := Next(w, Ours(StartReinvite(false)));
            && a.us.holder == Reinvite(false, Some(k), c, false) && a.us.pending == map[c := []]
            && a.us.sent == w.us.sent + [Request(INVITE, c, Some(Body(w.us.dialog.version + 1, Some(k))))]
            && a.peer == w.peer && a.read == w.read && a.inbox == [] && a.torn == w.torn
  {
    hide OutboundSound, InboundSound, TakenSound, AckingSound, KeysAgree, FreshKeys, AcksReuseCseq, BodiesSecured,
      LastRequest;
  }

  /** The peer reads that offer and answers it. */
  lemma OfferRead(a: World, c: nat, body: Body, k: Crypto, reply: Reply)
    requires a.read == |a.us.sent| - 1 && a.us.sent[a.read] == Request(INVITE, c, Some(body)) && body.crypto == Some(k)
    requires a.peer.own.Idle? && !reply.Refuse? && a.inbox == []
    ensures var b, answer := Next(a, PeerReads(reply, 200, false)), k.(key := a.peer.nextKey);
            && b.us == a.us && b.read == |a.us.sent| && b.inbox == [Final(c, Accepting(answer))]
            && b.peer.taken == Some(Exchange(c, k, answer, reply.KeyAtOnce?)) && b.peer.own.Idle?
            && b.torn == (a.torn || Keyed(a.peer))
  {
  }

  /** The answer reaches the verb that waits for it, and the ACK goes out. */
  lemma AnswerTaken(b: World, c: nat, answer: Crypto)
    requires b.us.holder.Reinvite? && b.us.holder.cseq == c && b.us.pending == map[c := []]
    requires b.inbox == [Final(c, Accepting(answer))]
    ensures var d := Next(Next(b, Deliver), Ours(Resume));
            && d.us.holder == Acking(b.us.holder.gates, b.us.holder.offer, Audio(true, [answer]), c)
            && d.us.sent == b.us.sent + [Ack(c)] && d.us.media == b.us.media
            && d.read == b.read && d.inbox == [] && d.peer == b.peer && d.torn == b.torn
  {
    var e := Next(b, Deliver);
    assert [] + [Accepting(answer)] == [Accepting(answer)];
    assert e.us == b.us.(pending := map[c := [Accepting(answer)]]) && e.inbox == [];
  }

  /** Up to the ACK: our re-offer is answered, and the answer waits to be committed. */
  predicate Answered2xx(d: World) {
    && d.us.holder.Acking? && !d.us.holder.gates && d.us.holder.offer.Some? && d.inbox == []
    && d.us.holder.answer.cryptos != [] && Usable(d.us.holder.offer.value, d.us.holder.answer)
    && |d.us.sent| == d.read + 1 && d.us.sent[d.read] == Ack(d.us.holder.cseq)
    && d.peer.own.Idle? && d.peer.taken.Some? && d.peer.taken.value.cseq == d.us.holder.cseq
  }

  function ReofferMoves(reply: Reply): seq<Move> {
    [Ours(StartReinvite(false)), PeerReads(reply, 200, false), Deliver, Ours(Resume)]
  }

  lemma FourMoves(w: World, moves: seq<Move>)
    requires |moves| == 4
    ensures Play(w, moves) == Next(Next(Next(Next(w, moves[0]), moves[1]), moves[2]), moves[3])
  {
    hide Next;
    assert Play(w, moves) == Play(Next(w, moves[0]), moves[1..]);
    ThreeMoves(Next(w, moves[0]), moves[1..]);
  }

  lemma OfferAnswered(w: World, reply: Reply)
    requires Inv(w) && Rested(w) && w.us.routable && w.us.dialog.cseq + 1 < MAX_CSEQ && !reply.Refuse?
    ensures Answered2xx(Play(w, ReofferMoves(reply)))
  {
    hide Next, Inv;
    OfferSent(w);
    var c, k := w.us.dialog.cseq + 1, w.us.media.crypto.value.(key := w.us.nextKey);
    var a := Next(w, Ours(StartReinvite(false)));
    OfferRead(a, c, Body(w.us.dialog.version + 1, Some(k)), k, reply);
    AnswerTaken(Next(a, PeerReads(reply, 200, false)), c, k.(key := w.peer.nextKey));
    FourMoves(w, ReofferMoves(reply));
    hide Play;
  }

  lemma CommitDropped(d: World)
    requires Answered2xx(d)
    ensures var v := Next(Next(d, Ours(Abort)), PeerReads(KeyOnAck, 200, false)); Rested(v) && v.torn
  {
    var e := Next(d, Ours(Abort));
    assert e.us.holder.Free? && e.us.sent == d.us.sent && e.torn && e.peer == d.peer && e.read == d.read
           && e.inbox == [];
    hide Step;
  }

  lemma CommitMade(d: World)
    requires Answered2xx(d) && OfferSound(d.us)
    ensures var v := Next(Next(d, Ours(Acked)), PeerReads(KeyOnAck, 200, false));
            Rested(v) && !v.torn && v.peer.taken.None?
  {
    var e := Next(d, Ours(Acked));
    assert e.us.holder.Free? && e.us.sent == d.us.sent && !e.torn && e.peer == d.peer && e.read == d.read
           && e.inbox == [];
    hide Step;
  }

  /** A verb dropped between the ACK of its 2xx and the commit: the peer has changed keys, and we have not. */
  lemma DroppedCommitTears(w: World)
    requires Established(w) && w.us.routable && w.us.dialog.cseq + 1 < MAX_CSEQ
    ensures var v := Play(w, ReofferMoves(KeyOnAck) + [Ours(Abort), PeerReads(KeyOnAck, 200, false)]);
            Rested(v) && v.torn && !KeysMatch(v)
  {
    EstablishedInv(w);
    hide Inv, KeysMatch, Next, Play;
    var first, rest := ReofferMoves(KeyOnAck), [Ours(Abort), PeerReads(KeyOnAck, 200, false)];
    OfferAnswered(w, KeyOnAck);
    PlayInTwo(w, first, rest);
    TwoMoves(Play(w, first), rest[0], rest[1]);
    CommitDropped(Play(w, first));
    KeysMatchIffNotTorn(w, first + rest);
    hide ReofferMoves, Established, Answered2xx;
  }

  /** A peer that answers our offer with a fresh key in its ACK: we never read that ACK's body. */
  lemma RotatedAckTears(w: World)
    requires Established(w)
    ensures var v := Play(w, [PeerAsks, Deliver, PeerReads(KeyOnAck, 200, true)]);
            Rested(v) && v.torn && !KeysMatch(v)
  {
    var a := Next(w, PeerAsks);
    var b := Next(a, Deliver);
    assert |b.us.sent| == 1 && b.us.sent[0].Answer? && b.us.holder.Free? && b.inbox == [] && b.read == 0;
    assert b.us.sent[0].sdp.crypto == w.us.media.crypto && b.peer.own.Asking? && b.us.media == w.us.media;
    var v := Next(b, PeerReads(KeyOnAck, 200, true));
    var moves := [PeerAsks, Deliver, PeerReads(KeyOnAck, 200, true)];
    assert Rested(v) && v.torn;
    hide Next, Established, Play, KeysMatch;
    ThreeMoves(w, moves);
    KeysMatchIffNotTorn(w, moves);
  }

  /**
    A re-offer aborted before its 2xx has come, by a timeout or a cancellation: a peer that changed
    keys with that 2xx is left with keys we have dropped.
  */
  lemma LateAnswerTears(w: World)
    requires Established(w) && w.us.routable && w.us.dialog.cseq + 1 < MAX_CSEQ
    ensures var v := Play(w, [Ours(StartReinvite(false)), Ours(Abort), PeerReads(KeyAtOnce, 200, false), Deliver]);
            Rested(v) && !v.torn && Stranded(v) && !KeysMatch(v)
  {
    var moves := [Ours(StartReinvite(false)), Ours(Abort), PeerReads(KeyAtOnce, 200, false), Deliver];
    EstablishedInv(w);
    LateAnswer(w);
    hide Next, Play, Established, Inv, KeysMatch, Stranded;
    FourMoves(w, moves);
    KeysMatchIffNotTorn(w, moves);
  }

  lemma LateAnswer(w: World)
    requires Inv(w) && Established(w) && w.us.routable && w.us.dialog.cseq + 1 < MAX_CSEQ
    ensures var b := Next(Next(w, Ours(StartReinvite(false))), Ours(Abort));
            var v := Next(Next(b, PeerReads(KeyAtOnce, 200, false)), Deliver);
            Rested(v) && !v.torn && Stranded(v)
  {
    var c, k := w.us.dialog.cseq + 1, w.us.media.crypto.value.(key := w.us.nextKey);
    var a := Next(w, Ours(StartReinvite(false)));
    OfferSent(w);
    assert w.us.media.crypto.Some? && !w.torn && w.peer.own.Idle? && w.peer.taken.None?;
    hide Next, Inv, Established;
    var b := Next(a, Ours(Abort));
    OfferDropped(a);
    OfferRead(b, c, Body(w.us.dialog.version + 1, Some(k)), k, KeyAtOnce);
    AnswerDropped(Next(b, PeerReads(KeyAtOnce, 200, false)), c);
  }

  lemma OfferDropped(a: World)
    requires a.us.holder.Reinvite? && a.us.pending == map[a.us.holder.cseq := []]
    ensures var b := Next(a, Ours(Abort));
            && b.us.sent == a.us.sent && b.us.holder.Free? && b.us.pending == map[] && b.peer == a.peer
            && b.read == a.read && b.inbox == a.inbox && b.torn == a.torn
  {
  }

  lemma AnswerDropped(d: World, c: nat)
    requires |d.inbox| == 1 && d.inbox[0].Final? && d.inbox[0].cseq == c && c !in d.us.pending
    ensures var v := Next(d, Deliver);
            v.us == d.us && v.inbox == [] && v.peer == d.peer && v.read == d.read && v.torn == d.torn
  {
  }

  // --- and runs that mend it ----------------------------------------------------------------------

  /** Where a run rests, our next re-offer brings the keys together, whatever was torn apart before. */
  lemma NextOfferMends(w: World, before: seq<Move>, reply: Reply)
    requires Established(w) && Rested(Play(w, before)) && Play(w, before).us.routable && !reply.Refuse?
    requires Play(w, before).us.dialog.cseq + 1 < MAX_CSEQ
    ensures var v := Play(Play(w, before), ReofferMoves(reply) + [Ours(Acked), PeerReads(KeyOnAck, 200, false)]);
            Rested(v) && KeysMatch(v)
  {
    EstablishedInv(w);
    PlayKeeps(w, before);
    hide Established;
    ReofferMends(Play(w, before), reply);
  }

  lemma ReofferMends(w: World, reply: Reply)
    requires Inv(w) && Rested(w) && w.us.routable && w.us.dialog.cseq + 1 < MAX_CSEQ && !reply.Refuse?
    ensures var v := Play(w, ReofferMoves(reply) + [Ours(Acked), PeerReads(KeyOnAck, 200, false)]);
            Rested(v) && KeysMatch(v)
  {
    hide KeysMatch, Next, Play;
    var first, rest := ReofferMoves(reply), [Ours(Acked), PeerReads(KeyOnAck, 200, false)];
    OfferAnswered(w, reply);
    PlayInTwo(w, first, rest);
    TwoMoves(Play(w, first), rest[0], rest[1]);
    PlayKeeps(w, first);
    PlayKeeps(w, first + rest);
    assert OfferSound(Play(w, first).us);
    hide ReofferMoves, Answered2xx, Inv;
    CommitMade(Play(w, first));
    RestMatches(Play(w, first + rest));
  }

  /** And so does the next offer of the peer. */
  lemma PeerOfferMends(w: World, before: seq<Move>, tag: nat, suite: nat, reply: Reply)
    requires Established(w) && Rested(Play(w, before))
    ensures var v := Play(Play(w, before), [PeerOffers(tag, suite), Deliver, PeerReads(reply, 200, false)]);
            Rested(v) && KeysMatch(v)
  {
    EstablishedInv(w);
    PlayKeeps(w, before);
    hide Established;
    ReanswerMends(Play(w, before), tag, suite, reply);
  }

  lemma ReanswerMends(w: World, tag: nat, suite: nat, reply: Reply)
    requires Inv(w) && Rested(w)
    ensures var v := Play(w, [PeerOffers(tag, suite), Deliver, PeerReads(reply, 200, false)]);
            Rested(v) && KeysMatch(v)
  {
    var moves := [PeerOffers(tag, suite), Deliver, PeerReads(reply, 200, false)];
    OfferMet(w, tag, suite, reply);
    PlayKeeps(w, moves);
    hide Inv, KeysMatch, Next, Play;
    ThreeMoves(w, moves);
    RestMatches(Play(w, moves));
  }

  lemma OfferMet(w: World, tag: nat, suite: nat, reply: Reply)
    requires Inv(w) && Rested(w)
    ensures var v := Next(Next(Next(w, PeerOffers(tag, suite)), Deliver), PeerReads(reply, 200, false));
            Rested(v) && !v.torn && v.peer.taken.None?
  {
    var a := Next(w, PeerOffers(tag, suite));
    assert !w.us.offerPending && w.us.media.crypto.Some? && w.us.media.crypto.value.key < w.us.nextKey
           && w.us.media.outbound == Some(w.us.media.crypto.value.key);
    assert a.us == w.us && a.read == w.read && |a.inbox| == 1 && a.peer.own.Offering?;
    hide Inv;
    var b := Next(a, Deliver);
    assert |b.us.sent| == b.read + 1 && b.us.sent[b.read].Answer? && b.us.sent[b.read].sdp.crypto.Some?
           && b.us.holder.Free? && !b.torn && b.inbox == [] && b.peer == a.peer;
    hide Step;
  }
}
