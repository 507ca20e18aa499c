/**
  Our call and a conforming peer over one ordered connection: do both ends hold the same
  SRTP keys (section 5.1.2 of RFC 4568)?

  The peer takes an offer of ours whenever it has none of its own out, and answers with a fresh
  key under the offered tag and suite; so it may take another, or make one of its own, while the
  2xx of an earlier one still waits for our ACK, and then gives that ACK up.  It changes keys on
  our 200 to its offer; for an offer of ours it may choose each time, as it sends its 200 or on
  our ACK of it.  What we put on the wire it reads in order.
*/
module KeyAgreement {
  import opened Wrappers
  import opened CallState
  import opened CallRuns
  import opened CallCrypto

  /** An offer of ours that the peer has answered, while its 2xx waits for our ACK. */
  datatype Exchange = Exchange(cseq: nat, offer: Crypto, answer: Crypto, keyed: bool)

  /** The re-INVITE of the peer that is out, if one is: with an offer, or without. */
  datatype Own = Idle | Offering(key: Crypto) | Asking

  /** `enc` and `dec` are the keys of the last exchange that is over for the peer. */
  datatype Peer = Peer(enc: nat, dec: nat, taken: Option<Exchange>, own: Own, nextKey: nat)

  /** The keys in use: those of an exchange it answered, if it changed keys then. */
  predicate Keyed(p: Peer) { p.taken.Some? && p.taken.value.keyed }

  function EncOf(p: Peer): nat { if Keyed(p) then p.taken.value.answer.key else p.enc }

  function DecOf(p: Peer): nat { if Keyed(p) then p.taken.value.offer.key else p.dec }

  /** What the peer does with an offer: refuse it, or change keys with its 200 or with our ACK. */
  datatype Reply = Refuse | KeyOnAck | KeyAtOnce

  datatype Packet = Reoffer(offer: Option<Crypto>) | Final(cseq: nat, response: Response)

  datatype World = World(
    us: State,
    peer: Peer,
    read: nat,                      // how much of us.sent the peer has read
    inbox: seq<Packet>,             // on its way to us
    torn: bool)                     // an exchange was left half done for good, none has completed since

  datatype Move =
    | Ours(e: Event)                // any step of ours that no packet of this peer causes
    | Deliver                       // the next packet reaches us
    | PeerReads(reply: Reply, status: nat, rotates: bool)
    | PeerOffers(tag: nat, suite: nat)
    | PeerAsks

  function Accepting(offer: Crypto): Response { Response(200, false, Some(Sdp(Some(Audio(true, [offer])))), false) }

  function Refusing(status: nat): Response {
    Response(if status < 300 then 300 else status, true, None, false)
  }

  /** Our verb is dropped between the ACK of a 2xx and the commit of its keys. */
  predicate Tears(s: State, e: Event) { e.Abort? && s.holder.Acking? }

  /** Our side installs the keys of an exchange. */
  predicate Installs(s: State, t: State) { s.media != t.media }

  function OurMove(w: World, e: Event): World {
    if e.OnResponse? || e.InReinvite? then w
    else
      var t := Step(w.us, e);
      w.(us := t, torn := if Installs(w.us, t) then false else w.torn || Tears(w.us, e))
  }

  /** What the next packet is to us. */
  function DeliveredEvent(w: World): Event
    requires w.inbox != []
  {
    match w.inbox[0]
    case Reoffer(None) => InReinvite(Offerless, true)
    case Reoffer(Some(p)) => InReinvite(Offered(Sdp(Some(Audio(true, [p])))), true)
    case Final(c, r) => OnResponse(c, r)
  }

  function DeliverMove(w: World): World {
    if w.inbox == [] then w
    else
      var t := Step(w.us, DeliveredEvent(w));
      w.(us := t, inbox := w.inbox[1..], torn := if Installs(w.us, t) then false else w.torn)
  }

  /** The peer reads our next message. */
  function ReadMove(w: World, reply: Reply, status: nat, rotates: bool): World {
    if w.read >= |w.us.sent| then w
    else
      var v, p := w.(read := w.read + 1), w.peer;
      match w.us.sent[w.read]
      case Request(INVITE, c, Some(Body(_, Some(k)))) =>
        if reply.Refuse? || !p.own.Idle? then v.(inbox := w.inbox + [Final(c, Refusing(status))])
        else
          // keys it uses of an exchange that was never ACKed stay in use till this one is over
          var answer := k.(key := p.nextKey);
          var taken := Exchange(c, k, answer, reply.KeyAtOnce?);
          v.(peer := Peer(EncOf(p), DecOf(p), Some(taken), Idle, p.nextKey + 1),
             inbox := w.inbox + [Final(c, Accepting(answer))], torn := w.torn || Keyed(p))
      case Ack(c) =>
        if p.taken.Some? && p.taken.value.cseq == c
        then v.(peer := p.(enc := p.taken.value.answer.key, dec := p.taken.value.offer.key, taken := None)) else v
      case Answer(Body(_, Some(k))) =>
        if p.own.Offering? then v.(peer := Peer(p.own.key.key, k.key, None, Idle, p.nextKey))
        else if p.own.Asking? then
          // its answer rides the ACK, which we never read: a fresh key there is lost on us
          if rotates then v.(peer := Peer(p.nextKey, k.key, None, Idle, p.nextKey + 1), torn := true)
          else v.(peer := Peer(EncOf(p), k.key, None, Idle, p.nextKey), torn := w.torn || Keyed(p))
        else v
      case Refusal(_) => v.(peer := p.(own := Idle))
      case _ => v
  }

  function Next(w: World, m: Move): World {
    match m
    case Ours(e) => OurMove(w, e)
    case Deliver => DeliverMove(w)
    case PeerReads(reply, status, rotates) => ReadMove(w, reply, status, rotates)
    case PeerOffers(tag, suite) =>
      if !w.peer.own.Idle? then w
      else
        var key := Crypto(tag, suite, w.peer.nextKey);
        w.(peer := w.peer.(own := Offering(key), nextKey := w.peer.nextKey + 1),
           inbox := w.inbox + [Reoffer(Some(key))])
    case PeerAsks =>
      if !w.peer.own.Idle? then w
      else w.(peer := w.peer.(own := Asking), inbox := w.inbox + [Reoffer(None)])
  }

  function Play(w: World, moves: seq<Move>): World
    decreases |moves|
  {
    if moves == [] then w else Play(Next(w, moves[0]), moves[1..])
  }

  // --- the order of our own messages ---------------------------------------------------

  /** Requests and ACKs are numbered upwards; no awaited request has been ACKed. */
  predicate Ordered(s: State) {
    && (forall i, j :: 0 <= i < j < |s.sent| && s.sent[i].Request? && s.sent[j].Request? ==>
          s.sent[i].cseq < s.sent[j].cseq)
    && (forall i, j :: 0 <= i < j < |s.sent| && s.sent[i].Ack? && s.sent[j].Ack? ==> s.sent[i].cseq < s.sent[j].cseq)
    && (forall i :: 0 <= i < |s.sent| && (s.sent[i].Request? || s.sent[i].Ack?) ==> s.sent[i].cseq <= s.dialog.cseq)
    && (forall i :: 0 <= i < |s.sent| && s.sent[i].Request? ==> (s.sent[i].body.Some? <==> s.sent[i].verb == INVITE))
    && (Awaiting(s.holder) ==> forall i :: 0 <= i < |s.sent| && s.sent[i].Ack? ==> s.sent[i].cseq < s.holder.cseq)
    && (OnRequest(s.holder) ==> s.holder.cseq == s.dialog.cseq)
    && PendingOwned(s)
  }

  lemma StepOrders(s: State, e: Event)
    requires Ordered(s)
    ensures Ordered(Step(s, e))
  {
    StepEmits(s, e);
    hide Step;
    var t := Step(s, e);
    if |t.sent| != |s.sent| {
      assert forall i :: 0 <= i < |s.sent| ==> t.sent[i] == t.sent[..|s.sent|][i] == s.sent[i];
    }
  }

  // --- where the exchange in progress stands ---------------------------------------------

  predicate Unread(w: World, i: int) { w.read <= i < |w.us.sent| }

  ghost predicate AckUnread(w: World) { exists i :: Unread(w, i) && w.us.sent[i].Ack? }

  ghost predicate AnswerUnread(w: World) { exists i :: Unread(w, i) && w.us.sent[i].Answer? }

  predicate IsReply(m: Wire) { m.Answer? || m.Refusal? }

  /** What opens an exchange of ours, or completes one of the peer's. */
  predicate Advances(m: Wire) { m.Request? || m.Answer? }

  /** Our verb waits for the 2xx of this CSeq. */
  predicate WaitsFor(s: State, cseq: nat) { s.holder.Reinvite? && s.holder.cseq == cseq }

  /** Our verb still waits for the 2xx of the exchange the peer has answered. */
  predicate Awaited(w: World) { w.peer.taken.Some? && WaitsFor(w.us, w.peer.taken.value.cseq) }

  /** A request that no verb of ours waits for any more. */
  predicate Left(s: State, cseq: nat) { cseq <= s.dialog.cseq && !WaitsFor(s, cseq) }

  /** A 2xx is that of the exchange the peer has answered. */
  predicate Vouched(p: Peer, cseq: nat, r: Response) {
    r.status < 300 ==> p.taken.Some? && p.taken.value.cseq == cseq && r == Accepting(p.taken.value.answer)
  }

  /** What is under way from us to the peer: an ACK comes before the requests and the 200s we send after it. */
  ghost predicate OutboundSound(w: World) {
    && w.read <= |w.us.sent|
    && (forall i :: Unread(w, i) && w.us.sent[i].Ack? ==>
          w.peer.taken.Some? && w.peer.taken.value.cseq == w.us.sent[i].cseq)
    && (forall i, j :: Unread(w, i) && Unread(w, j) && Advances(w.us.sent[i]) && w.us.sent[j].Ack? ==> j < i)
    && (forall i :: Unread(w, i) && IsReply(w.us.sent[i]) ==> !w.peer.own.Idle?)
    && (forall i, j :: Unread(w, i) && Unread(w, j) && IsReply(w.us.sent[i]) && IsReply(w.us.sent[j]) ==> i == j)
    && (Awaited(w) ==> forall i :: Unread(w, i) ==> !w.us.sent[i].Answer?)
  }

  function OwnOf(offer: Option<Crypto>): Own { if offer.None? then Asking else Offering(offer.value) }

  /** What is under way from the peer to us, delivered or not. */
  ghost predicate InboundSound(w: World) {
    && (forall j :: 0 <= j < |w.inbox| && w.inbox[j].Reoffer? ==>
          w.peer.own == OwnOf(w.inbox[j].offer) && (forall i :: Unread(w, i) ==> !IsReply(w.us.sent[i])))
    && (forall i, j ::
          0 <= i < |w.inbox| && 0 <= j < |w.inbox| && w.inbox[i].Reoffer? && w.inbox[j].Reoffer? ==> i == j)
    && (forall j :: 0 <= j < |w.inbox| && w.inbox[j].Final? ==>
          Vouched(w.peer, w.inbox[j].cseq, w.inbox[j].response) || Left(w.us, w.inbox[j].cseq))
    && (w.us.holder.Reinvite? && w.us.holder.cseq in w.us.pending ==>
          forall r :: r in w.us.pending[w.us.holder.cseq] ==> Vouched(w.peer, w.us.holder.cseq, r))
  }

  /** The peer took the very offer that went out under its CSeq, and has read everything before. */
  ghost predicate TakenSound(w: World) {
    w.peer.taken.Some? ==>
      var x := w.peer.taken.value;
      && x.answer.tag == x.offer.tag && x.answer.suite == x.offer.suite && x.cseq <= w.us.dialog.cseq
      && (forall i :: 0 <= i < |w.us.sent| && w.us.sent[i].Request? && w.us.sent[i].cseq == x.cseq ==>
            BodyOf(w.us.sent[i]).Some? && BodyOf(w.us.sent[i]).value.crypto == Some(x.offer))
      && (forall i :: Unread(w, i) && w.us.sent[i].Request? ==> w.us.sent[i].cseq > x.cseq)
  }

  /** Between our ACK and our commit the exchange is the peer's too, and nothing else completes. */
  ghost predicate AckingSound(w: World) {
    w.us.holder.Acking? ==>
      && w.us.holder.offer.Some? && |w.us.holder.answer.cryptos| == 1
      && Usable(w.us.holder.offer.value, w.us.holder.answer)
      && (w.peer.taken.Some? ==>
            && AckUnread(w)
            && w.peer.taken == Some(Exchange(w.us.holder.cseq, w.us.holder.offer.value, w.us.holder.answer.cryptos[0],
                                             w.peer.taken.value.keyed)))
      && (forall i :: Unread(w, i) ==> !w.us.sent[i].Request? && !w.us.sent[i].Answer?)
  }

  // --- the keys the peer will hold once it has read everything -----------------------------

  ghost function ExpectedIn(w: World): nat {
    if AnswerUnread(w) && w.peer.own.Offering? then w.peer.own.key.key
    else if AckUnread(w) && w.peer.taken.Some? then w.peer.taken.value.answer.key
    else w.peer.enc
  }

  ghost predicate ExpectedOut(w: World, key: nat) {
    if AnswerUnread(w) then
      forall i :: Unread(w, i) && w.us.sent[i].Answer? ==>
          w.us.sent[i].sdp.crypto.Some? && key == w.us.sent[i].sdp.crypto.value.key
    else if AckUnread(w) then w.peer.taken.Some? && key == w.peer.taken.value.offer.key
    else key == w.peer.dec
  }

  ghost predicate Agreed(w: World, inbound: nat, outbound: nat) {
    ExpectedIn(w) == inbound && ExpectedOut(w, outbound)
  }

  /** Every key of the peer's is new, and that of an exchange without our ACK is not ours. */
  ghost predicate FreshKeys(w: World)
    requires w.us.media.inbound.Some?
  {
    && w.us.media.inbound.value < w.peer.nextKey
    && w.peer.enc < w.peer.nextKey
    && (w.peer.own.Offering? ==> w.peer.own.key.key < w.peer.nextKey)
    && (w.peer.taken.Some? ==>
          && w.peer.taken.value.answer.key < w.peer.nextKey
          && (!AckUnread(w) ==> w.us.media.inbound != Some(w.peer.taken.value.answer.key))
          && (w.peer.own.Offering? ==> w.peer.own.key.key != w.peer.taken.value.answer.key))
    && (w.us.holder.Acking? && |w.us.holder.answer.cryptos| == 1 ==>
          && w.us.holder.answer.cryptos[0].key < w.peer.nextKey
          && w.us.media.inbound != Some(w.us.holder.answer.cryptos[0].key))
  }

  ghost predicate KeysAgree(w: World)
    requires w.us.media.inbound.Some? && w.us.media.outbound.Some?
  {
    if w.us.holder.Acking? then
      && w.us.holder.offer.Some? && |w.us.holder.answer.cryptos| == 1
      && Agreed(w, w.us.holder.answer.cryptos[0].key, w.us.holder.offer.value.key)
    else if w.torn then Some(ExpectedIn(w)) != w.us.media.inbound
    else Agreed(w, w.us.media.inbound.value, w.us.media.outbound.value)
  }

  predicate Secured(s: State) { CryptoInv(s) && s.media.crypto.Some? }

  ghost predicate Inv(w: World) {
    && Secured(w.us) && Ordered(w.us)
    && OutboundSound(w) && InboundSound(w) && TakenSound(w) && AckingSound(w)
    && w.us.media.inbound.Some? && FreshKeys(w)
    && w.us.media.outbound.Some? && KeysAgree(w)
  }

  // --- the peer's moves ----------------------------------------------------------------------

  /** A re-INVITE of the peer's goes out. */
  predicate Opens(w: World, v: World) {
    && w.peer.own.Idle? && !v.peer.own.Idle?
    && (v.peer.own.Offering? ==> v.peer.own.key.key == w.peer.nextKey && v.peer.nextKey == w.peer.nextKey + 1)
    && v == w.(peer := w.peer.(own := v.peer.own, nextKey := v.peer.nextKey), inbox := v.inbox)
    && v.peer.nextKey >= w.peer.nextKey
    && |v.inbox| == |w.inbox| + 1 && v.inbox[|w.inbox|].Reoffer? && v.peer.own == OwnOf(v.inbox[|w.inbox|].offer)
    && forall j :: 0 <= j < |w.inbox| ==> v.inbox[j] == w.inbox[j]
  }

  lemma OpensInbound(w: World, v: World)
    requires InboundSound(w) && OutboundSound(w) && Opens(w, v)
    ensures InboundSound(v)
  {
  }

  lemma OpensOutbound(w: World, v: World)
    requires OutboundSound(w) && TakenSound(w) && AckingSound(w) && Opens(w, v)
    ensures OutboundSound(v) && TakenSound(v) && AckingSound(v)
    ensures AckUnread(v) == AckUnread(w) && !AnswerUnread(w) && !AnswerUnread(v)
  {
  }

  lemma OpensAgrees(w: World, v: World)
    requires Opens(w, v) && AckUnread(v) == AckUnread(w) && !AnswerUnread(w) && !AnswerUnread(v)
    requires w.us.media.inbound.Some? && w.us.media.outbound.Some? && FreshKeys(w) && KeysAgree(w)
    ensures FreshKeys(v) && KeysAgree(v)
  {
  }

  lemma PeerSendsKeeps(w: World, m: Move)
    requires Inv(w) && (m.PeerOffers? || m.PeerAsks?)
    ensures Inv(Next(w, m))
  {
    var v := Next(w, m);
    hide CryptoInv, Ordered, OutboundSound, InboundSound, TakenSound, AckingSound, FreshKeys, KeysAgree;
    if w.peer.own.Idle? {
      assert Opens(w, v);
      hide Next, Opens;
      OpensInbound(w, v);
      OpensOutbound(w, v);
      OpensAgrees(w, v);
    }
  }

  /** The peer reads one message, may answer it, and gives up only an exchange we do not wait for. */
  predicate Reads(w: World, v: World) {
    && w.read < |w.us.sent| && v.us == w.us && v.read == w.read + 1
    && (v.peer.own == w.peer.own || (v.peer.own.Idle? && IsReply(w.us.sent[w.read])))
    && (v.peer.taken == w.peer.taken || w.peer.taken.None? || Left(w.us, w.peer.taken.value.cseq))
  }

  lemma InboxGrows(w: World, v: World, c: nat, r: Response)
    requires InboundSound(w) && Reads(w, v)
    requires v.inbox == w.inbox || (v.inbox == w.inbox + [Final(c, r)] && Vouched(v.peer, c, r))
    ensures InboundSound(v)
  {
    assert Unread(w, w.read);
    assert forall i :: Unread(v, i) ==> Unread(w, i);
  }

  /** What is unread beyond the message just read. */
  lemma ReadOn(w: World, v: World)
    requires Reads(w, v)
    ensures forall i :: Unread(v, i) ==> Unread(w, i) && w.read < i
    ensures !w.us.sent[w.read].Ack? ==> AckUnread(v) == AckUnread(w)
    ensures !w.us.sent[w.read].Answer? ==> AnswerUnread(v) == AnswerUnread(w)
  {
    assert forall i :: Unread(w, i) && i != w.read ==> Unread(v, i);
  }

  /** Passing over a message that completes nothing: a refusal can end only the peer's own offer. */
  predicate ReadsPast(w: World, v: World) {
    && Reads(w, v) && !w.us.sent[w.read].Ack? && !w.us.sent[w.read].Answer?
    && v.torn == w.torn && v.peer == w.peer.(own := v.peer.own)
    && (w.us.sent[w.read].Refusal? ==> v.peer.own.Idle?)
  }

  lemma ReadPastOutbound(w: World, v: World)
    requires ReadsPast(w, v) && OutboundSound(w) && TakenSound(w) && AckingSound(w)
    ensures OutboundSound(v) && TakenSound(v) && AckingSound(v)
    ensures v.peer.own == w.peer.own || !AnswerUnread(w)
  {
    ReadOn(w, v);
    assert Unread(w, w.read);
  }

  lemma ReadPastAgrees(w: World, v: World)
    requires ReadsPast(w, v) && w.us.media.inbound.Some? && w.us.media.outbound.Some? && FreshKeys(w) && KeysAgree(w)
    requires v.peer.own == w.peer.own || !AnswerUnread(w)
    ensures FreshKeys(v) && KeysAgree(v)
  {
    ReadOn(w, v);
  }

  lemma ReadPastShape(w: World, reply: Reply, status: nat, rotates: bool)
    requires w.read < |w.us.sent| && !w.us.sent[w.read].Ack? && !w.us.sent[w.read].Answer?
    requires w.us.sent[w.read].Request? && w.us.sent[w.read].verb == INVITE ==> reply.Refuse? || !w.peer.own.Idle?
    ensures var v := ReadMove(w, reply, status, rotates);
            var c := if w.us.sent[w.read].Request? then w.us.sent[w.read].cseq else 0;
            ReadsPast(w, v) && (v.inbox == w.inbox || v.inbox == w.inbox + [Final(c, Refusing(status))])
  {
  }

  lemma ReadPastKeeps(w: World, reply: Reply, status: nat, rotates: bool)
    requires Inv(w) && w.read < |w.us.sent| && !w.us.sent[w.read].Ack? && !w.us.sent[w.read].Answer?
    requires w.us.sent[w.read].Request? && w.us.sent[w.read].verb == INVITE ==> reply.Refuse? || !w.peer.own.Idle?
    ensures Inv(ReadMove(w, reply, status, rotates))
  {
    var v := ReadMove(w, reply, status, rotates);
    var c := if w.us.sent[w.read].Request? then w.us.sent[w.read].cseq else 0;
    hide Ordered, CryptoInv, OutboundSound, TakenSound, AckingSound, InboundSound, KeysAgree, FreshKeys, ReadMove;
    ReadPastShape(w, reply, status, rotates);
    InboxGrows(w, v, c, Refusing(status));
    ReadPastOutbound(w, v);
    ReadPastAgrees(w, v);
  }

  /** The peer takes our next offer. */
  predicate Takes(w: World, v: World, keyed: bool) {
    && w.read < |w.us.sent| && w.us.sent[w.read].Request? && w.peer.own.Idle? && v.us == w.us && v.read == w.read + 1
    && BodyOf(w.us.sent[w.read]).Some? && BodyOf(w.us.sent[w.read]).value.crypto.Some?
    && var k, p := BodyOf(w.us.sent[w.read]).value.crypto.value, w.peer;
       && v.peer == Peer(EncOf(p), DecOf(p),
                         Some(Exchange(w.us.sent[w.read].cseq, k, k.(key := p.nextKey), keyed)), Idle, p.nextKey + 1)
       && v.torn == (w.torn || Keyed(p))
  }

  /** An exchange the peer gives up for a later offer of ours is one without an ACK, and no verb waits for it. */
  lemma TakesLater(w: World)
    requires Ordered(w.us) && OutboundSound(w) && TakenSound(w) && AckingSound(w) && w.peer.own.Idle?
    requires w.read < |w.us.sent| && w.us.sent[w.read].Request?
    ensures !AckUnread(w) && !AnswerUnread(w) && !w.us.holder.Acking?
    ensures w.peer.taken.Some? ==> Left(w.us, w.peer.taken.value.cseq)
  {
    assert Unread(w, w.read);
  }

  lemma TakesOutbound(w: World, v: World, keyed: bool)
    requires Ordered(w.us) && OutboundSound(w) && !w.us.holder.Acking? && Takes(w, v, keyed)
    requires !AckUnread(w) && !AnswerUnread(w)
    ensures OutboundSound(v) && TakenSound(v) && AckingSound(v) && !AckUnread(v) && !AnswerUnread(v)
  {
    assert forall i :: Unread(v, i) ==> Unread(w, i) && w.read < i;
    assert Unread(w, w.read);
  }

  lemma TakesAgrees(w: World, v: World, keyed: bool)
    requires Takes(w, v, keyed) && !w.us.holder.Acking?
    requires !AckUnread(w) && !AnswerUnread(w) && !AckUnread(v) && !AnswerUnread(v)
    requires w.us.media.inbound.Some? && w.us.media.outbound.Some? && FreshKeys(w) && KeysAgree(w)
    ensures FreshKeys(v) && KeysAgree(v)
  {
  }

  lemma TakeShape(w: World, reply: Reply, status: nat, rotates: bool)
    requires Inv(w) && w.read < |w.us.sent| && w.us.sent[w.read].Request? && w.us.sent[w.read].verb == INVITE
    requires !reply.Refuse? && w.peer.own.Idle?
    ensures var v := ReadMove(w, reply, status, rotates);
            && Takes(w, v, reply.KeyAtOnce?)
            && v.inbox == w.inbox + [Final(w.us.sent[w.read].cseq, Accepting(v.peer.taken.value.answer))]
  {
    hide OutboundSound, TakenSound, AckingSound, InboundSound, KeysAgree, FreshKeys;
    assert BodyOf(w.us.sent[w.read]).Some? && BodyOf(w.us.sent[w.read]).value.crypto.Some?;
    hide Ordered, CryptoInv;
  }

  lemma TakeKeeps(w: World, reply: Reply, status: nat, rotates: bool)
    requires Inv(w) && w.read < |w.us.sent| && w.us.sent[w.read].Request? && w.us.sent[w.read].verb == INVITE
    requires !reply.Refuse? && w.peer.own.Idle?
    ensures Inv(ReadMove(w, reply, status, rotates))
  {
    var v := ReadMove(w, reply, status, rotates);
    var m := w.us.sent[w.read];
    hide Ordered, CryptoInv, OutboundSound, TakenSound, AckingSound, InboundSound, KeysAgree, FreshKeys, ReadMove;
    TakeShape(w, reply, status, rotates);
    TakesLater(w);
    InboxGrows(w, v, m.cseq, Accepting(v.peer.taken.value.answer));
    TakesOutbound(w, v, reply.KeyAtOnce?);
    TakesAgrees(w, v, reply.KeyAtOnce?);
  }

  /** The ACK completes the exchange: nothing else of it is under way. */
  predicate Confirms(w: World, v: World) {
    && w.read < |w.us.sent| && w.us.sent[w.read].Ack? && w.peer.taken.Some?
    && v == w.(read := w.read + 1, peer := w.peer.(enc := w.peer.taken.value.answer.key,
                                                   dec := w.peer.taken.value.offer.key, taken := None))
  }

  lemma ConfirmsOutbound(w: World, v: World)
    requires Ordered(w.us) && OutboundSound(w) && TakenSound(w) && AckingSound(w) && Confirms(w, v)
    ensures OutboundSound(v) && TakenSound(v) && AckingSound(v)
    ensures !AckUnread(v) && AckUnread(w) && Left(w.us, w.peer.taken.value.cseq)
  {
    assert Unread(w, w.read);
    assert forall i :: Unread(v, i) ==> Unread(w, i) && w.read < i;
  }

  lemma ConfirmsAgrees(w: World, v: World)
    requires Confirms(w, v) && !AckUnread(v) && AckUnread(w)
    requires w.us.media.inbound.Some? && w.us.media.outbound.Some? && FreshKeys(w) && KeysAgree(w)
    ensures FreshKeys(v) && KeysAgree(v)
  {
    assert Reads(w, v.(peer := w.peer));
    ReadOn(w, v.(peer := w.peer));
    assert AnswerUnread(v) == AnswerUnread(w);
  }

  lemma ReadAckShape(w: World, reply: Reply, status: nat, rotates: bool)
    requires Inv(w) && w.read < |w.us.sent| && w.us.sent[w.read].Ack?
    ensures Confirms(w, ReadMove(w, reply, status, rotates))
  {
    hide Ordered, CryptoInv, TakenSound, AckingSound, InboundSound, KeysAgree, FreshKeys;
    assert Unread(w, w.read);
  }

  lemma ReadAckKeeps(w: World, reply: Reply, status: nat, rotates: bool)
    requires Inv(w) && w.read < |w.us.sent| && w.us.sent[w.read].Ack?
    ensures Inv(ReadMove(w, reply, status, rotates))
  {
    var v := ReadMove(w, reply, status, rotates);
    hide Ordered, CryptoInv, TakenSound, AckingSound, InboundSound, KeysAgree, FreshKeys, OutboundSound, ReadMove;
    ReadAckShape(w, reply, status, rotates);
    ConfirmsOutbound(w, v);
    InboxGrows(w, v, 0, Refusing(0));
    ConfirmsAgrees(w, v);
  }

  /** Our 200 completes the peer's exchange, and the peer gives up one of ours that it took before. */
  predicate Concludes(w: World, v: World, rotates: bool) {
    && w.read < |w.us.sent| && w.us.sent[w.read].Answer? && w.us.sent[w.read].sdp.crypto.Some?
    && v.us == w.us && v.read == w.read + 1 && v.inbox == w.inbox && v.peer.taken.None? && v.peer.own.Idle?
    && v.peer.dec == w.us.sent[w.read].sdp.crypto.value.key
    && if w.peer.own.Offering? then
         v.peer.enc == w.peer.own.key.key && v.peer.nextKey == w.peer.nextKey && v.torn == w.torn
       else if rotates then
         v.peer.enc == w.peer.nextKey && v.peer.nextKey == w.peer.nextKey + 1 && v.torn
       else
         v.peer.enc == EncOf(w.peer) && v.peer.nextKey == w.peer.nextKey && v.torn == (w.torn || Keyed(w.peer))
  }

  lemma ConcludesOutbound(w: World, v: World, rotates: bool)
    requires OutboundSound(w) && TakenSound(w) && AckingSound(w) && Concludes(w, v, rotates)
    ensures OutboundSound(v) && TakenSound(v) && AckingSound(v)
    ensures !AckUnread(v) && !AnswerUnread(v) && !AckUnread(w) && AnswerUnread(w) && !w.us.holder.Acking?
    ensures w.peer.taken.Some? ==> Left(w.us, w.peer.taken.value.cseq)
  {
    assert Unread(w, w.read);
    assert forall i :: Unread(v, i) ==> Unread(w, i) && w.read < i;
  }

  lemma ConcludesAgrees(w: World, v: World, rotates: bool)
    requires Concludes(w, v, rotates) && !w.us.holder.Acking?
    requires !AckUnread(v) && !AnswerUnread(v) && !AckUnread(w) && AnswerUnread(w)
    requires w.us.media.inbound.Some? && w.us.media.outbound.Some? && FreshKeys(w) && KeysAgree(w)
    ensures FreshKeys(v) && KeysAgree(v)
  {
    assert Unread(w, w.read);
  }

  lemma AnswerCarriesKey(w: World)
    requires Secured(w.us) && w.read < |w.us.sent| && w.us.sent[w.read].Answer?
    ensures w.us.sent[w.read].sdp.crypto.Some?
  {
    assert BodyOf(w.us.sent[w.read]) == Some(w.us.sent[w.read].sdp);
  }

  lemma ReadAnswerShape(w: World, reply: Reply, status: nat, rotates: bool)
    requires Inv(w) && w.read < |w.us.sent| && w.us.sent[w.read].Answer?
    ensures Concludes(w, ReadMove(w, reply, status, rotates), rotates)
  {
    AnswerCarriesKey(w);
    hide Ordered, CryptoInv, TakenSound, AckingSound, InboundSound, KeysAgree, FreshKeys;
    assert Unread(w, w.read);
  }

  lemma ReadAnswerKeeps(w: World, reply: Reply, status: nat, rotates: bool)
    requires Inv(w) && w.read < |w.us.sent| && w.us.sent[w.read].Answer?
    ensures Inv(ReadMove(w, reply, status, rotates))
  {
    var v := ReadMove(w, reply, status, rotates);
    hide Ordered, CryptoInv, TakenSound, AckingSound, InboundSound, KeysAgree, FreshKeys, OutboundSound, ReadMove;
    ReadAnswerShape(w, reply, status, rotates);
    ConcludesOutbound(w, v, rotates);
    InboxGrows(w, v, 0, Refusing(0));
    ConcludesAgrees(w, v, rotates);
  }

  lemma PeerReadsKeeps(w: World, reply: Reply, status: nat, rotates: bool)
    requires Inv(w)
    ensures Inv(ReadMove(w, reply, status, rotates))
  {
    if w.read < |w.us.sent| {
      hide Inv, ReadMove;
      var m := w.us.sent[w.read];
      if m.Ack? { ReadAckKeeps(w, reply, status, rotates); }
      else if m.Answer? { ReadAnswerKeeps(w, reply, status, rotates); }
      else if m.Request? && m.verb == INVITE && !reply.Refuse? && w.peer.own.Idle? {
        TakeKeeps(w, reply, status, rotates);
      }
      else { ReadPastKeeps(w, reply, status, rotates); }
    }
  }

  // --- our steps that complete nothing -----------------------------------------------------------

  /** No key changes, no ACK and no reply to a re-INVITE goes out. */
  predicate Bland(s: State, t: State) {
    && t.media == s.media
    && (t.holder.Acking? || s.holder.Acking? ==> t.holder == s.holder)
    && (t.sent == s.sent || (|t.sent| == |s.sent| + 1 && !t.sent[|s.sent|].Ack? && !IsReply(t.sent[|s.sent|])))
  }

  /** Responses only leave the queue. */
  predicate Heard(s: State, t: State) {
    forall c :: c in t.pending ==> forall r :: r in t.pending[c] ==> c in s.pending && r in s.pending[c]
  }

  ghost predicate Beside(w: World, v: World) {
    && v.peer == w.peer && v.read == w.read
    && Emits(w.us, v.us) && Bland(w.us, v.us) && WaitsAnew(w.us, v.us)
  }

  lemma BesideSent(w: World, v: World)
    requires Beside(w, v) && w.read <= |w.us.sent|
    ensures |w.us.sent| <= |v.us.sent| && forall i :: 0 <= i < |w.us.sent| ==> v.us.sent[i] == w.us.sent[i]
    ensures AckUnread(v) == AckUnread(w) && AnswerUnread(v) == AnswerUnread(w)
    ensures w.us.dialog.cseq <= v.us.dialog.cseq
  {
    assert forall i :: 0 <= i < |w.us.sent| ==> v.us.sent[..|w.us.sent|][i] == v.us.sent[i];
  }

  lemma NewlyAwaited(w: World, v: World)
    requires TakenSound(w) && v.peer == w.peer && WaitsAnew(w.us, v.us)
    ensures Awaited(v) ==> Awaited(w)
  {
  }

  lemma BesideOutbound(w: World, v: World)
    requires OutboundSound(w) && TakenSound(w) && Beside(w, v)
    ensures OutboundSound(v)
  {
    BesideSent(w, v);
    NewlyAwaited(w, v);
    hide Emits, TakenSound, WaitsAnew, Awaited;
    assert forall i :: Unread(v, i) && i < |w.us.sent| ==> Unread(w, i);
  }

  lemma BesideTaken(w: World, v: World)
    requires OutboundSound(w) && TakenSound(w) && Ordered(w.us) && Ordered(v.us) && Beside(w, v)
    ensures TakenSound(v)
  {
    BesideSent(w, v);
  }

  lemma BesideKeeps(w: World, v: World)
    requires OutboundSound(w) && TakenSound(w) && AckingSound(w) && Ordered(w.us) && Ordered(v.us) && Beside(w, v)
    ensures OutboundSound(v) && TakenSound(v) && AckingSound(v)
  {
    BesideSent(w, v);
    BesideOutbound(w, v);
    BesideTaken(w, v);
    hide TakenSound;
  }

  lemma BesideAgrees(w: World, v: World)
    requires w.read <= |w.us.sent| && Beside(w, v) && v.torn == w.torn
    requires w.us.media.inbound.Some? && w.us.media.outbound.Some? && FreshKeys(w) && KeysAgree(w)
    ensures FreshKeys(v) && KeysAgree(v)
  {
    BesideSent(w, v);
  }

  lemma BesideHears(w: World, v: World)
    requires OutboundSound(w) && InboundSound(w) && Ordered(w.us) && Beside(w, v)
    requires v.inbox == w.inbox && Heard(w.us, v.us)
    ensures InboundSound(v)
  {
    BesideSent(w, v);
    hide Emits;
  }

  // --- packets that reach us -------------------------------------------------------------------

  lemma FinalHeard(w: World, v: World)
    requires InboundSound(w) && Ordered(w.us) && w.inbox != [] && w.inbox[0].Final?
    requires v == w.(us := CallState.Deliver(w.us, w.inbox[0].cseq, w.inbox[0].response), inbox := w.inbox[1..])
    ensures InboundSound(v)
  {
  }

  lemma DeliverBland(s: State, c: nat, r: Response)
    ensures Bland(s, CallState.Deliver(s, c, r)) && WaitsAnew(s, CallState.Deliver(s, c, r))
  {
  }

  lemma FinalMove(w: World)
    requires w.inbox != [] && w.inbox[0].Final?
    ensures var t := CallState.Deliver(w.us, w.inbox[0].cseq, w.inbox[0].response);
            DeliverMove(w) == w.(us := t, inbox := w.inbox[1..])
            && t == Step(w.us, OnResponse(w.inbox[0].cseq, w.inbox[0].response))
  {
  }

  lemma DeliverFinalKeeps(w: World)
    requires Inv(w) && w.inbox != [] && w.inbox[0].Final?
    ensures Inv(DeliverMove(w))
  {
    hide InboundSound, TakenSound, AckingSound, KeysAgree, FreshKeys, CryptoInv, Ordered, Step, DeliverMove,
      CallState.Deliver, Emits, Bland;
    var v, e := DeliverMove(w), OnResponse(w.inbox[0].cseq, w.inbox[0].response);
    StepKeeps(w.us, e);
    StepOrders(w.us, e);
    StepEmits(w.us, e);
    DeliverBland(w.us, w.inbox[0].cseq, w.inbox[0].response);
    FinalMove(w);
    assert Beside(w, v);
    assert w.read <= |w.us.sent|;
    hide OutboundSound, Beside;
    FinalHeard(w, v);
    BesideKeeps(w, v);
    BesideAgrees(w, v);
  }

  /** Our side of a re-offer: answered, with the keys it brings, or refused with nothing changed. */
  ghost predicate Settles(w: World, v: World) {
    var n := |w.us.sent|;
    && w.inbox != [] && v.inbox == w.inbox[1..] && v.peer == w.peer && v.read == w.read
    && |v.us.sent| == n + 1 && IsReply(v.us.sent[n])
    && (forall i :: 0 <= i < n ==> v.us.sent[i] == w.us.sent[i])
    && v.us.holder == w.us.holder && v.us.pending == w.us.pending && v.us.dialog.cseq == w.us.dialog.cseq
    && (v.us.sent[n].Answer? ==> !OfferOut(w.us) && v.us.sent[n].sdp.crypto == v.us.media.crypto)
    && (if v.us.sent[n].Answer? && w.peer.own.Offering?
        then v.us.media.inbound == Some(w.peer.own.key.key) && v.us.media != w.us.media && !v.torn
        else v.us.media == w.us.media && v.torn == w.torn)
  }

  lemma ReofferSettles(w: World)
    requires Secured(w.us) && w.inbox != [] && w.inbox[0].Reoffer? && w.peer.own == OwnOf(w.inbox[0].offer)
    ensures Settles(w, DeliverMove(w))
  {
    hide AcksReuseCseq, BodiesSecured, LastRequest, IsOffer;
  }

  lemma SettleTokens(w: World, v: World)
    requires OutboundSound(w) && InboundSound(w) && TakenSound(w) && AckingSound(w)
    requires w.inbox != [] && w.inbox[0].Reoffer? && Settles(w, v)
    ensures OutboundSound(v) && TakenSound(v) && AckingSound(v) && InboundSound(v)
    ensures !AnswerUnread(w) && AckUnread(v) == AckUnread(w) && (AnswerUnread(v) <==> v.us.sent[|w.us.sent|].Answer?)
  {
    assert forall i :: Unread(v, i) && i != |w.us.sent| ==> Unread(w, i);
    assert forall i :: Unread(w, i) ==> Unread(v, i);
    assert v.us.sent[|w.us.sent|].Answer? ==> Unread(v, |w.us.sent|);
  }

  lemma SettleAgrees(w: World, v: World)
    requires w.us.media.inbound.Some? && w.us.media.outbound.Some? && FreshKeys(w) && KeysAgree(w)
    requires KeysSound(v.us) && v.us.media.crypto.Some?
    requires w.read <= |w.us.sent| && Settles(w, v)
    requires !AnswerUnread(w) && AckUnread(v) == AckUnread(w) && (AnswerUnread(v) <==> v.us.sent[|w.us.sent|].Answer?)
    ensures FreshKeys(v) && KeysAgree(v)
  {
    assert v.us.sent[|w.us.sent|].Answer? ==> Unread(v, |w.us.sent|);
  }

  lemma DeliverReofferKeeps(w: World)
    requires Inv(w) && w.inbox != [] && w.inbox[0].Reoffer?
    ensures Inv(DeliverMove(w))
  {
    var v := DeliverMove(w);
    var e := InReinvite(if w.inbox[0].offer.None? then Offerless
                        else Offered(Sdp(Some(Audio(true, [w.inbox[0].offer.value])))), true);
    assert v.us == Step(w.us, e);
    hide DeliverMove, Step;
    StepKeeps(w.us, e);
    StepOrders(w.us, e);
    ReofferSettles(w);
    assert w.read <= |w.us.sent|;
    assert KeysSound(v.us);
    hide OutboundSound, InboundSound, TakenSound, AckingSound, KeysAgree, FreshKeys, Ordered, CryptoInv, KeysSound;
    SettleTokens(w, v);
    SettleAgrees(w, v);
  }

  // --- our own steps ------------------------------------------------------------------------------

  /** The 2xx to our offer: the ACK goes out and the answer waits to be committed. */
  predicate Acks(s: State, t: State) {
    && s.holder.Reinvite? && s.holder.cseq in s.pending
    && (exists r :: r in s.pending[s.holder.cseq] && r.status < 300 && r.sdp.Some? && r.sdp.value.audio.Some?
          && t.holder == Acking(s.holder.gates, s.holder.offer, r.sdp.value.audio.value, s.holder.cseq))
    && t.media == s.media
    && t.sent == s.sent + [Ack(s.holder.cseq)]
  }

  lemma ReofferBland(s: State, gates: bool)
    requires s.holder.Free?
    ensures Bland(s, StartReofferStep(s, gates)) && Heard(s, StartReofferStep(s, gates))
  {
  }

  lemma TransferBland(s: State, waits: bool, targetOk: bool)
    requires s.holder.Free?
    ensures Bland(s, StartTransferStep(s, waits, targetOk)) && Heard(s, StartTransferStep(s, waits, targetOk))
  {
  }

  lemma PlainBland(s: State, digits: nat)
    requires s.holder.Free?
    ensures Bland(s, StartInfoStep(s, digits)) && Heard(s, StartInfoStep(s, digits))
    ensures Bland(s, StartHangUpStep(s)) && Heard(s, StartHangUpStep(s))
  {
  }

  lemma StartBland(s: State, e: Event)
    requires Starts(e)
    ensures Bland(s, StartStep(s, e)) && Heard(s, StartStep(s, e))
  {
    hide StartReofferStep, StartTransferStep, StartInfoStep, StartHangUpStep;
    if s.holder.Free? {
      match e
      case StartReinvite(gates) => ReofferBland(s, gates);
      case StartTransfer(waits, ok) => TransferBland(s, waits, ok);
      case StartInfo(digits) => PlainBland(s, digits);
      case StartHangUp => PlainBland(s, 0);
    }
  }

  lemma AcceptedBland(s: State, declined: bool)
    requires s.holder.Referring?
    ensures Bland(s, ReferAccepted(Consumed(s), declined)) && Heard(s, ReferAccepted(Consumed(s), declined))
  {
  }

  lemma ReferBland(s: State, r: Response)
    requires s.holder.Referring?
    ensures Bland(s, ReferFinal(Consumed(s), r)) && Heard(s, ReferFinal(Consumed(s), r))
  {
    AcceptedBland(s, r.declined);
    AbortBland(s);
    hide ReferAccepted, AbortStep;
  }

  lemma AbortBland(s: State)
    requires Awaiting(s.holder)
    ensures Bland(s, AbortStep(Consumed(s))) && Heard(s, AbortStep(Consumed(s)))
  {
  }

  lemma InfoBland(s: State, r: Response)
    requires s.holder.Informing?
    ensures Bland(s, InfoFinal(Consumed(s), r)) && Heard(s, InfoFinal(Consumed(s), r))
  {
    AbortBland(s);
    hide AbortStep;
  }

  lemma ReinviteAcks(s: State, r: Response)
    requires s.holder.Reinvite? && s.holder.cseq in s.pending && r in s.pending[s.holder.cseq]
    ensures Heard(s, ReinviteFinal(Consumed(s), r))
    ensures Bland(s, ReinviteFinal(Consumed(s), r)) || Acks(s, ReinviteFinal(Consumed(s), r))
  {
  }

  lemma ResumeShape(s: State)
    ensures Heard(s, ResumeStep(s))
    ensures Bland(s, ResumeStep(s)) || Acks(s, ResumeStep(s))
  {
    if Awaiting(s.holder) && s.holder.cseq in s.pending && s.pending[s.holder.cseq] != [] {
      hide ReinviteFinal, ReferFinal, InfoFinal;
      var r := s.pending[s.holder.cseq][0];
      match s.holder
      case Reinvite(_, _, _, _) => ReinviteAcks(s, r);
      case Referring(_, _, _, _) => ReferBland(s, r);
      case _ => InfoBland(s, r);
    }
  }

  lemma AbortShape(s: State)
    ensures Heard(s, AbortStep(s)) && AbortStep(s).sent == s.sent && AbortStep(s).media == s.media
    ensures !AbortStep(s).holder.Acking?
    ensures Bland(s, DoneStep(s)) && Heard(s, DoneStep(s))
  {
  }

  lemma WaiterBland(s: State, e: Event)
    ensures Bland(s, WaiterStep(s, e)) && Heard(s, WaiterStep(s, e))
    ensures Bland(s, ByeStep(s, e)) && Heard(s, ByeStep(s, e))
  {
    hide WaiterStep, ByeStep;
    WaitBland(s, e);
    ByeBland(s, e);
  }

  lemma WaitBland(s: State, e: Event)
    ensures Bland(s, WaiterStep(s, e)) && Heard(s, WaiterStep(s, e))
  {
  }

  lemma ByeBland(s: State, e: Event)
    ensures Bland(s, ByeStep(s, e)) && Heard(s, ByeStep(s, e))
  {
  }

  lemma NotifyBland(s: State, n: Notify)
    ensures Bland(s, NotifyStep(s, n)) && Heard(s, NotifyStep(s, n))
  {
  }

  lemma OursShape(s: State, e: Event)
    requires !e.OnResponse? && !e.InReinvite? && !Tears(s, e) && !(e.Acked? && s.holder.Acking?)
    ensures Heard(s, Step(s, e))
    ensures Bland(s, Step(s, e)) || Acks(s, Step(s, e))
  {
    hide ResumeStep, StartStep, WaiterStep, NotifyStep, ByeStep, AbortStep, DoneStep, Acks;
    if Starts(e) {
      StartBland(s, e);
    } else if Waits(e) {
      WaiterBland(s, e);
    } else {
      match e
      case Resume => ResumeShape(s);
      case InNotify(n) => NotifyBland(s, n);
      case Abort => AbortShape(s);
      case Done => AbortShape(s);
      case Acked =>
      case _ => WaiterBland(s, e);
    }
  }

  lemma BlandMoveKeeps(w: World, e: Event)
    requires Inv(w) && !e.OnResponse? && !e.InReinvite? && !Tears(w.us, e)
    requires Bland(w.us, Step(w.us, e)) && Heard(w.us, Step(w.us, e))
    ensures Inv(OurMove(w, e))
  {
    var v := w.(us := Step(w.us, e));
    assert OurMove(w, e) == v;
    StepKeeps(w.us, e);
    StepOrders(w.us, e);
    StepEmits(w.us, e);
    WaitingIsNew(w.us, e);
    assert w.read <= |w.us.sent|;
    hide Step, OurMove, InboundSound, TakenSound, AckingSound, OutboundSound, KeysAgree, FreshKeys, CryptoInv,
      Ordered, Emits, Heard;
    BesideKeeps(w, v);
    BesideAgrees(w, v);
    BesideHears(w, v);
  }

  lemma LastRequestAt(sent: seq<Wire>) returns (i: nat)
    requires LastRequest(sent).Some?
    ensures i < |sent| && sent[i].Request? && LastRequest(sent) == Some(sent[i])
  {
    if sent[|sent| - 1].Request? { i := |sent| - 1; } else { i := LastRequestAt(sent[..|sent| - 1]); }
  }

  /** The offer our verb is about is the one the peer took. */
  lemma AcksTaken(w: World, t: State)
    requires Inv(w) && Acks(w.us, t)
    ensures Awaited(w)
    ensures t.holder == Acking(w.us.holder.gates, Some(w.peer.taken.value.offer),
                               Audio(true, [w.peer.taken.value.answer]), w.us.holder.cseq)
    ensures forall i :: Unread(w, i) ==> !w.us.sent[i].Request? && !w.us.sent[i].Answer? && !w.us.sent[i].Ack?
  {
    var i := LastRequestAt(w.us.sent);
    hide KeysAgree, FreshKeys;
    assert w.us.sent[i].cseq == w.us.holder.cseq;
  }

  /** The wire and our ACK at its end. */
  lemma AckAppended(w: World, v: World)
    requires Acks(w.us, v.us) && v == w.(us := v.us) && w.read <= |w.us.sent|
    ensures var n := |w.us.sent|;
            && Unread(v, n) && v.us.sent[n] == Ack(w.us.holder.cseq) && |v.us.sent| == n + 1
            && (forall i :: 0 <= i < n ==> v.us.sent[i] == w.us.sent[i]) && AckUnread(v)
    ensures AnswerUnread(v) == AnswerUnread(w)
  {
    var n := |w.us.sent|;
    assert Unread(v, n) && v.us.sent[n].Ack?;
    assert forall i :: 0 <= i < n ==> v.us.sent[i] == w.us.sent[i];
  }

  lemma AckInbound(w: World, v: World)
    requires InboundSound(w) && Acks(w.us, v.us) && v.us.dialog == w.us.dialog && v == w.(us := v.us)
    requires w.us.holder.cseq <= w.us.dialog.cseq && w.read <= |w.us.sent|
    ensures InboundSound(v)
  {
    AckAppended(w, v);
  }

  lemma AckOutbound(w: World, v: World)
    requires OutboundSound(w) && TakenSound(w) && Acks(w.us, v.us) && v == w.(us := v.us) && Awaited(w)
    requires v.us.dialog == w.us.dialog
    requires v.us.holder == Acking(w.us.holder.gates, Some(w.peer.taken.value.offer),
                                   Audio(true, [w.peer.taken.value.answer]), w.us.holder.cseq)
    requires forall i :: Unread(w, i) ==> !w.us.sent[i].Request? && !w.us.sent[i].Answer? && !w.us.sent[i].Ack?
    ensures OutboundSound(v) && TakenSound(v) && AckingSound(v)
  {
    AckAppended(w, v);
    assert forall i :: Unread(v, i) && i != |w.us.sent| ==> Unread(w, i) && v.us.sent[i] == w.us.sent[i];
    hide Acks;
  }

  lemma AckTokens(w: World, v: World)
    requires Inv(w) && Acks(w.us, v.us) && v.us.dialog == w.us.dialog && v == w.(us := v.us)
    ensures OutboundSound(v) && InboundSound(v) && TakenSound(v) && AckingSound(v)
  {
    AcksTaken(w, v.us);
    assert w.read <= |w.us.sent| && w.us.holder.cseq <= w.us.dialog.cseq;
    hide CryptoInv, Ordered, KeysAgree, FreshKeys, InboundSound, OutboundSound, TakenSound, AckingSound, Acks;
    AckInbound(w, v);
    AckOutbound(w, v);
  }

  lemma AckAgrees(w: World, v: World)
    requires Inv(w) && Acks(w.us, v.us) && v == w.(us := v.us)
    ensures FreshKeys(v) && KeysAgree(v)
  {
    AcksTaken(w, v.us);
    AckAppended(w, v);
    hide CryptoInv, Ordered, KeysAgree, InboundSound, TakenSound, AckingSound, OutboundSound;
    assert FreshKeys(v);
    assert ExpectedIn(v) == v.peer.taken.value.answer.key && ExpectedOut(v, v.peer.taken.value.offer.key);
    KeysDue(v);
  }

  lemma KeysDue(v: World)
    requires v.us.media.inbound.Some? && v.us.media.outbound.Some? && v.us.holder.Acking?
    requires v.us.holder.offer.Some? && |v.us.holder.answer.cryptos| == 1
    requires Agreed(v, v.us.holder.answer.cryptos[0].key, v.us.holder.offer.value.key)
    ensures KeysAgree(v)
  {
  }

  lemma AckMoveKeeps(w: World, e: Event)
    requires Inv(w) && !e.OnResponse? && !e.InReinvite? && !Tears(w.us, e)
    requires Acks(w.us, Step(w.us, e)) && Heard(w.us, Step(w.us, e))
    ensures Inv(OurMove(w, e))
  {
    var v := w.(us := Step(w.us, e));
    assert OurMove(w, e) == v;
    StepKeeps(w.us, e);
    StepOrders(w.us, e);
    StepEmits(w.us, e);
    assert v.us.dialog == w.us.dialog;
    hide Step, OurMove, InboundSound, TakenSound, AckingSound, OutboundSound, KeysAgree, FreshKeys, CryptoInv,
      Ordered, Emits, Heard, Acks;
    AckTokens(w, v);
    AckAgrees(w, v);
  }

  /** The verb past its ACK ends: nothing is sent, and whatever is under way stays so. */
  predicate Leaves(w: World, v: World) {
    && w.us.holder.Acking? && !OfferOut(v.us) && v.us.sent == w.us.sent
    && v.us.pending == w.us.pending && v.us.dialog == w.us.dialog
    && v.peer == w.peer && v.read == w.read && v.inbox == w.inbox
  }

  lemma LeaveKeeps(w: World, v: World)
    requires OutboundSound(w) && InboundSound(w) && TakenSound(w) && Leaves(w, v)
    ensures OutboundSound(v) && InboundSound(v) && TakenSound(v) && AckingSound(v)
    ensures AckUnread(v) == AckUnread(w) && AnswerUnread(v) == AnswerUnread(w)
  {
  }

  /** The commit installs exactly the pair the peer installs on our ACK. */
  lemma LeaveAgrees(w: World, v: World)
    requires Leaves(w, v) && AckUnread(v) == AckUnread(w) && AnswerUnread(v) == AnswerUnread(w)
    requires AckingSound(w) && w.us.media.inbound.Some? && w.us.media.outbound.Some? && FreshKeys(w) && KeysAgree(w)
    requires var offer, answer := w.us.holder.offer.value, w.us.holder.answer.cryptos[0];
             if v.torn then v.us.media == w.us.media
             else v.us.media == Media(Some(offer), Some(answer.key), Some(offer.key))
    ensures v.us.media.inbound.Some? && v.us.media.outbound.Some? && FreshKeys(v) && KeysAgree(v)
  {
  }

  lemma LeaveMoveKeeps(w: World, e: Event)
    requires Inv(w) && w.us.holder.Acking? && (e.Acked? || e.Abort?)
    ensures Inv(OurMove(w, e))
  {
    var v := OurMove(w, e);
    StepKeeps(w.us, e);
    StepOrders(w.us, e);
    assert Leaves(w, v);
    assert if v.torn then e.Abort? && v.us.media == w.us.media
           else v.us.media == Media(w.us.holder.offer, Some(w.us.holder.answer.cryptos[0].key),
                                    Some(w.us.holder.offer.value.key));
    hide OurMove, CryptoInv, Ordered, OutboundSound, InboundSound, TakenSound, AckingSound,
      KeysAgree, FreshKeys, Leaves;
    LeaveKeeps(w, v);
    LeaveAgrees(w, v);
  }

  lemma OurMoveKeeps(w: World, e: Event)
    requires Inv(w)
    ensures Inv(OurMove(w, e))
  {
    if !e.OnResponse? && !e.InReinvite? {
      hide Inv, OurMove, Acks, Bland, Heard, Step;
      if w.us.holder.Acking? && (e.Acked? || e.Abort?) { LeaveMoveKeeps(w, e); }
      else {
        OursShape(w.us, e);
        if Bland(w.us, Step(w.us, e)) { BlandMoveKeeps(w, e); } else { AckMoveKeeps(w, e); }
      }
    }
  }

  lemma NothingDelivered(w: World)
    requires w.inbox == []
    ensures DeliverMove(w) == w
  {
  }

  lemma NextKeeps(w: World, m: Move)
    requires Inv(w)
    ensures Inv(Next(w, m))
  {
    hide Inv, OurMove, DeliverMove, ReadMove;
    match m
    case Ours(e) => OurMoveKeeps(w, e);
    case Deliver =>
      if w.inbox == [] { NothingDelivered(w); }
      else if w.inbox[0].Final? { DeliverFinalKeeps(w); }
      else { DeliverReofferKeeps(w); }
    case PeerReads(reply, status, rotates) => PeerReadsKeeps(w, reply, status, rotates);
    case _ => PeerSendsKeeps(w, m);
  }

  // --- over whole runs ------------------------------------------------------------------------------

  /** A call just set up with SRTP: nothing under way, and each end's keys known to the other. */
  predicate Established(w: World) {
    && w.us.sent == [] && w.us.holder.Free? && !w.us.offerPending && w.us.pending == map[]
    && KeysSound(w.us) && w.us.media.crypto.Some?
    && w.us.media.inbound == Some(w.peer.enc) && w.us.media.outbound == Some(w.peer.dec)
    && w.peer.taken.None? && w.peer.own.Idle? && w.peer.enc < w.peer.nextKey
    && w.read == 0 && w.inbox == [] && !w.torn
  }

  predicate KeysMatch(w: World) {
    w.us.media.inbound == Some(EncOf(w.peer)) && w.us.media.outbound == Some(DecOf(w.peer))
  }

  lemma {:induction false} PlayKeeps(w: World, moves: seq<Move>)
    requires Inv(w)
    ensures Inv(Play(w, moves))
    decreases |moves|
  {
    if moves != [] {
      NextKeeps(w, moves[0]);
      PlayKeeps(Next(w, moves[0]), moves[1..]);
    }
  }

  /** Our 200 to an offer of the peer's completes an exchange as it is read. */
  ghost predicate Mending(w: World) { AnswerUnread(w) && w.peer.own.Offering? }

  /** The peer uses the keys of an exchange that we have left without an ACK. */
  ghost predicate Stranded(w: World) { Keyed(w.peer) && !AckUnread(w) && !Awaited(w) && !Mending(w) }

  predicate CommitDue(w: World) { w.us.holder.Acking? || (Keyed(w.peer) && Awaited(w)) }

  /** An exchange was left half done, and none has completed since. */
  ghost predicate Torn(w: World) { w.torn || Stranded(w) }

  /** Where everything is read and no commit is due, the keys tell whether an exchange is torn apart. */
  lemma RestMatches(v: World)
    requires Inv(v) && v.read == |v.us.sent| && !CommitDue(v)
    ensures KeysMatch(v) <==> !Torn(v)
  {
    hide CryptoInv, Ordered, OutboundSound, InboundSound, TakenSound, AckingSound;
    assert !AckUnread(v) && !AnswerUnread(v);
  }

  /**
    Over every run of a secured call against a conforming peer: the call stays secured,
    every SDP we sent carries an a=crypto, we encrypt with the key we advertise; and
    whenever the peer has read what we sent and no commit is due, both ends hold the same
    two keys, except after an exchange that was torn apart, and then they do not.
  */
  lemma KeysMatchIffNotTorn(w: World, moves: seq<Move>)
    requires Established(w)
    ensures var v := Play(w, moves);
            && v.us.media.crypto.Some? && v.us.media.outbound == Some(v.us.media.crypto.value.key)
            && BodiesSecured(v.us.sent, true) && AcksReuseCseq(v.us.sent)
            && (v.read == |v.us.sent| && !CommitDue(v) ==> (KeysMatch(v) <==> !Torn(v)))
  {
    EstablishedInv(w);
    PlayKeeps(w, moves);
    hide Play, KeysMatch, Torn, CommitDue;
    var v := Play(w, moves);
    if v.read == |v.us.sent| && !CommitDue(v) { RestMatches(v); }
  }

  lemma EstablishedInv(w: World)
    requires Established(w)
    ensures Inv(w)
  {
  }
}
