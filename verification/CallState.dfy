/**
  The control plane of one established call, as a step function.

  A step is one atomic segment of a coroutine: the code between two awaits. Whatever may
  run at an await is another step, so a run of the call is any sequence of steps.  The
  verb that holds the call lock is suspended at `holder`; a transfer that has released
  the lock and waits for its outcome is in `waiting`; inbound requests take no lock.
*/
module CallState {
  import opened Wrappers

  const MAX_CSEQ: nat := 0x8000_0000
  const PROVISIONAL_CEILING: nat := 200
  const FIRST_ERROR_STATUS: nat := 300

  // --- messages -----------------------------------------------------------------

  /** An SDES a=crypto attribute; a key is a fresh number. */
  datatype Crypto = Crypto(tag: nat, suite: nat, key: nat)

  datatype Audio = Audio(srtp: bool, cryptos: seq<Crypto>)

  /** A parsed SDP body: its audio media section, if it has one. */
  datatype Sdp = Sdp(audio: Option<Audio>)

  /** The o= version and the a=crypto of an SDP body we emit. */
  datatype Body = Body(version: nat, crypto: Option<Crypto>)

  datatype Verb = INVITE | BYE | REFER | INFO

  datatype Wire =
    | Request(verb: Verb, cseq: nat, body: Option<Body>)
    | Ack(cseq: nat)
    | Answer(sdp: Body)             // our 200 to a re-INVITE
    | Refusal(status: nat)          // our final non-2xx to a re-INVITE
    | Reply(status: nat)            // our final to any other request

  datatype Response = Response(
    status: nat,
    challengeOk: bool,              // a 401/407 carries a parseable digest challenge
    sdp: Option<Sdp>,               // None: empty or unparseable body
    declined: bool)                 // Refer-Sub: false

  predicate Challenge(r: Response) { r.status == 401 || r.status == 407 }

  datatype Progress = Progress(status: nat, terminated: bool)

  /** The id parameter of an Event header: absent, one valid number, or malformed. */
  datatype EventId = Absent | Id(number: nat) | Malformed

  datatype Notify = Notify(
    refer: bool,                    // Event package is refer
    id: EventId,
    fragment: Option<Progress>,     // None: no Subscription-State or no status line
    answerable: bool)               // every header to echo is there

  datatype Offer = Offerless | Unparseable | Offered(sdp: Sdp)

  // --- state --------------------------------------------------------------------

  /** The two counters of the dialog; the rest of it never changes here. */
  datatype Counters = Counters(cseq: nat, version: nat)

  /** The call's SDES context and the SRTP engine's per-direction keys. */
  datatype Media = Media(crypto: Option<Crypto>, inbound: Option<nat>, outbound: Option<nat>)

  /** The transfer-outcome fields. An event object is named by a number. */
  datatype Transfer = Transfer(
    terminal: Option<nat>,
    isSet: bool,                    // the armed event has been set
    referCseq: Option<nat>,
    latched: bool,
    progress: Option<Progress>,     // the latched progress; None means the call ended
    inProgress: bool,
    latest: Option<Progress>)       // transfer_progress: mutable, never read by the wait

  datatype Holder =
    | Free
    | Reinvite(gates: bool, offer: Option<Crypto>, cseq: nat, retried: bool)
    | Acking(gates: bool, offer: Option<Crypto>, answer: Audio, cseq: nat)
    | Gating
    | Referring(event: nat, waits: bool, cseq: nat, retried: bool)
    | Informing(left: nat, cseq: nat, retried: bool)
    | HangingUp

  datatype Verdict = Finished(p: Progress) | CallEnded | TimedOut | WaitDisabled | SubscriptionDeclined

  /** A peer re-offer caught inside a re-key that suspended. */
  datatype Captured = Captured(dialog: Counters, peer: Crypto, ours: Crypto)

  datatype State = State(
    dialog: Counters,
    routable: bool,                 // the route set head is a loose router
    media: Media,
    transfer: Transfer,
    holder: Holder,
    pending: map<nat, seq<Response>>,
    offerPending: bool,
    ended: bool,
    byes: nat,                      // BYE handlers suspended in the send of their 200
    waiting: set<nat>,              // transfers waiting outside the lock, by event
    reports: map<nat, Verdict>,
    nextEvent: nat,
    nextKey: nat,
    sent: seq<Wire>)

  datatype Event =
    // the first segment of a verb, once the lock is free
    | StartReinvite(gates: bool)
    | StartTransfer(waits: bool, targetOk: bool)
    | StartInfo(digits: nat)
    | StartHangUp
    // the verb holding the lock goes on, or ends at its await
    | Resume
    | Acked
    | Done
    | Abort
    // a transfer waiting outside the lock
    | WaiterWakes(event: nat)
    | WaiterTimesOut(event: nat)
    | WaiterCancelled(event: nat)
    // the transport
    | OnResponse(cseq: nat, response: Response)
    | InReinvite(offer: Offer, answerable: bool)
    | InBye(answerable: bool)
    | ByeAnswered
    | ByeFailed
    | InNotify(notify: Notify)

  // --- requests -----------------------------------------------------------------

  function Send(s: State, w: Wire): State { s.(sent := s.sent + [w]) }

  /** One in-dialog request: the SDP version first when it carries an offer, then the CSeq. */
  function Build(s: State, verb: Verb, offers: bool, crypto: Option<Crypto>): Option<State>
  {
    var next := s.dialog.cseq + 1;
    if !s.routable || next >= MAX_CSEQ then None
    else
      var version := if offers then s.dialog.version + 1 else s.dialog.version;
      var body := if offers then Some(Body(version, crypto)) else None;
      Some(Send(s, Request(verb, next, body)).(dialog := Counters(next, version)))
  }

  function Await(s: State): State { s.(pending := s.pending[s.dialog.cseq := []]) }

  // --- transfer outcome ---------------------------------------------------------

  const IDLE_TRANSFER := Transfer(None, false, None, false, None, false, None)

  function Disarm(s: State, event: nat): State {
    if s.transfer.terminal == Some(event)
    then s.(transfer := IDLE_TRANSFER.(latest := s.transfer.latest))
    else s
  }

  function Latch(t: Transfer, progress: Option<Progress>): Transfer {
    if t.terminal.None? then t
    else if t.latched then t.(isSet := true)
    else t.(isSet := true, latched := true, progress := progress)
  }

  function End(s: State): State {
    s.(ended := true, transfer := Latch(s.transfer, None))
  }

  /** The report of the transfer armed on `event`: the latch, or the fallback. */
  function Outcome(t: Transfer, fallback: Verdict): Verdict {
    if !t.latched then fallback
    else if t.progress.Some? then Finished(t.progress.value)
    else CallEnded
  }

  function Report(s: State, event: nat, fallback: Verdict): State {
    Disarm(s.(reports := s.reports[event := Outcome(s.transfer, fallback)],
              waiting := s.waiting - {event}), event)
  }

  // --- verbs --------------------------------------------------------------------

  function Mint(s: State, like: Crypto): (State, Crypto) {
    (s.(nextKey := s.nextKey + 1), like.(key := s.nextKey))
  }

  function MintOffer(s: State): (State, Option<Crypto>) {
    match s.media.crypto
    case None => (s, None)
    case Some(c) => var (t, k) := Mint(s, c); (t, Some(k))
  }

  function StartReofferStep(s: State, gates: bool): State {
    var (t, offer) := MintOffer(s);
    match Build(t, INVITE, true, offer)
    case None => t
    case Some(u) =>
      Await(u).(holder := Reinvite(gates, offer, u.dialog.cseq, false), offerPending := true)
  }

  function StartTransferStep(s: State, waits: bool, targetOk: bool): State {
    if s.ended || s.transfer.inProgress then s
    else
      var event := s.nextEvent;
      var t := s.(nextEvent := event + 1,
                  transfer := IDLE_TRANSFER.(terminal := Some(event), inProgress := true));
      var built := if targetOk then Build(t, REFER, false, None) else None;
      match built
      case None => Disarm(t, event)
      case Some(u) => Await(ReferBuilt(u, event, waits, false))
  }

  function ReferBuilt(s: State, event: nat, waits: bool, retried: bool): State {
    s.(holder := Referring(event, waits, s.dialog.cseq, retried),
       transfer := s.transfer.(referCseq := Some(s.dialog.cseq)))
  }

  function StartInfoStep(s: State, digits: nat): State {
    if digits == 0 then s.(holder := Free)
    else
      match Build(s, INFO, false, None)
      case None => s.(holder := Free)
      case Some(u) => Await(u).(holder := Informing(digits - 1, u.dialog.cseq, false))
  }

  function StartHangUpStep(s: State): State {
    if s.ended then s
    else
      match Build(s, BYE, false, None)
      case None => s
      case Some(u) => End(u).(holder := HangingUp)
  }

  /** The verb ends at its await: a rejection, a timeout, a failed send, a cancellation. */
  function AbortStep(s: State): State {
    match s.holder
    case Reinvite(_, _, c, _) => s.(holder := Free, pending := s.pending - {c}, offerPending := false)
    case Acking(_, _, _, _) => s.(holder := Free, offerPending := false)
    case Referring(e, _, c, _) => Disarm(s.(holder := Free, pending := s.pending - {c}), e)
    case Informing(_, c, _) => s.(holder := Free, pending := s.pending - {c})
    case _ => s.(holder := Free)
  }

  /** Whether the answer to our secured offer carries the peer's key for that very offer. */
  predicate Usable(offer: Crypto, answer: Audio) {
    && answer.srtp && answer.cryptos != []
    && answer.cryptos[0].tag == offer.tag && answer.cryptos[0].suite == offer.suite
  }

  function Rekey(s: State, inbound: Crypto, outbound: Crypto): State {
    s.(media := Media(Some(outbound), Some(inbound.key), Some(outbound.key)))
  }

  /** The 2xx to our re-INVITE has been ACKed: commit the keys, or refuse the answer. */
  function CommitStep(s: State): State
    requires s.holder.Acking?
  {
    var gates, offer, answer := s.holder.gates, s.holder.offer, s.holder.answer;
    if offer.Some? && !Usable(offer.value, answer) then AbortStep(s)
    else
      var t := if offer.None? then s else Rekey(s, answer.cryptos[0], offer.value);
      t.(holder := if gates then Gating else Free, offerPending := false)
  }

  function ReinviteFinal(s: State, r: Response): State
    requires s.holder.Reinvite?
  {
    var gates, offer, retried := s.holder.gates, s.holder.offer, s.holder.retried;
    if Challenge(r) && !retried then
      var built := if r.challengeOk then Build(s, INVITE, true, offer) else None;
      match built
      case None => AbortStep(s)
      case Some(u) => Await(u).(holder := Reinvite(gates, offer, u.dialog.cseq, true))
    else if r.status < FIRST_ERROR_STATUS && r.sdp.Some? && r.sdp.value.audio.Some? then
      Send(s, Ack(s.holder.cseq)).(holder := Acking(gates, offer, r.sdp.value.audio.value, s.holder.cseq))
    else AbortStep(s)
  }

  /** The REFER is accepted and the lock released: report at once, or wait for the outcome. */
  function ReferAccepted(s: State, declined: bool): State
    requires s.holder.Referring?
  {
    var event, waits := s.holder.event, s.holder.waits;
    if declined then Report(s.(holder := Free), event, SubscriptionDeclined)
    else if s.transfer.latched || !waits then Report(s.(holder := Free), event, WaitDisabled)
    else s.(holder := Free, waiting := s.waiting + {event})
  }

  function ReferFinal(s: State, r: Response): State
    requires s.holder.Referring?
  {
    if Challenge(r) && !s.holder.retried then
      var built := if r.challengeOk then Build(s, REFER, false, None) else None;
      match built
      case None => AbortStep(s)
      case Some(u) => Await(ReferBuilt(u, s.holder.event, s.holder.waits, true))
    else if r.status >= FIRST_ERROR_STATUS then AbortStep(s)
    else ReferAccepted(s, r.declined)
  }

  function InfoFinal(s: State, r: Response): State
    requires s.holder.Informing?
  {
    if Challenge(r) && !s.holder.retried then
      var built := if r.challengeOk then Build(s, INFO, false, None) else None;
      match built
      case None => AbortStep(s)
      case Some(u) => Await(u).(holder := Informing(s.holder.left, u.dialog.cseq, true))
    else if r.status >= FIRST_ERROR_STATUS then AbortStep(s)
    else StartInfoStep(s, s.holder.left)
  }

  predicate Awaiting(h: Holder) { h.Reinvite? || h.Referring? || h.Informing? }

  function ResumeStep(s: State): State {
    if !Awaiting(s.holder) then s
    else
      var c := s.holder.cseq;
      if c !in s.pending || s.pending[c] == [] then s
      else
        var r := s.pending[c][0];
        if r.status < PROVISIONAL_CEILING then s.(pending := s.pending[c := s.pending[c][1..]])
        else
          var t := s.(pending := s.pending - {c});
          match t.holder
          case Reinvite(_, _, _, _) => ReinviteFinal(t, r)
          case Referring(_, _, _, _) => ReferFinal(t, r)
          case _ => InfoFinal(t, r)
  }

  // --- inbound requests ---------------------------------------------------------

  /** A re-offer of a secured call that cannot be answered securely. */
  predicate Downgrade(s: State, audio: Audio) {
    s.media.crypto.Some? && (!audio.srtp || audio.cryptos == [])
  }

  /** The status a re-INVITE is refused with before any answer is built, if it is. */
  function Refused(s: State, offer: Offer): Option<nat> {
    if s.offerPending then Some(491)
    else
      match offer
      case Offerless => None
      case Unparseable => Some(400)
      case Offered(sdp) =>
        if sdp.audio.None? || Downgrade(s, sdp.audio.value) then Some(488) else None
  }

  /** What the 200 renders, what it re-keys, and the keys minted for it. */
  datatype Plan = Plan(render: Option<Crypto>, rekey: Option<(Crypto, Crypto)>)

  function PlanReanswer(s: State, offer: Offer): (State, Plan) {
    match offer
    case Offered(Sdp(Some(audio))) =>
      if s.media.crypto.None? || !audio.srtp || audio.cryptos == [] then (s, Plan(None, None))
      else
        var (t, ours) := Mint(s, audio.cryptos[0]);
        (t, Plan(Some(ours), Some((audio.cryptos[0], ours))))
    case _ => (s, Plan(s.media.crypto, None))
  }

  /** Plan, build the 200, and only then commit: re-key, advance the version, send. */
  function AnswerStep(s: State, offer: Offer, answerable: bool): State {
    var (t, plan) := PlanReanswer(s, offer);
    var next := s.dialog.(version := s.dialog.version + 1);
    if !answerable then t
    else
      var u := if plan.rekey.None? then t else Rekey(t, plan.rekey.value.0, plan.rekey.value.1);
      Send(u.(dialog := next), Answer(Body(next.version, plan.render)))
  }

  function ReinviteStep(s: State, offer: Offer, answerable: bool): State {
    var refusal := Refused(s, offer);
    if refusal.Some? then (if answerable then Send(s, Refusal(refusal.value)) else s)
    else AnswerStep(s, offer, answerable)
  }

  predicate Matches(t: Transfer, id: EventId) {
    t.referCseq.None? || id.Absent? || id == Id(t.referCseq.value)
  }

  predicate Definitive(p: Progress) { p.terminated && p.status >= PROVISIONAL_CEILING }

  function RecordProgress(t: Transfer, id: EventId, p: Progress): Transfer {
    if !Matches(t, id) then t
    else if !Definitive(p) then t.(latest := Some(p))
    else Latch(t.(latest := Some(p)), Some(p))
  }

  function NotifyStep(s: State, n: Notify): State {
    if !n.refer then (if n.answerable then Send(s, Reply(200)) else s)
    else if n.fragment.None? then (if n.answerable then Send(s, Reply(400)) else s)
    else if !n.answerable then s
    else
      Send(s.(transfer := RecordProgress(s.transfer, n.id, n.fragment.value)), Reply(200))
  }

  // --- one step -----------------------------------------------------------------

  predicate Starts(e: Event) { e.StartReinvite? || e.StartTransfer? || e.StartInfo? || e.StartHangUp? }

  predicate Waits(e: Event) { e.WaiterWakes? || e.WaiterTimesOut? || e.WaiterCancelled? }

  function StartStep(s: State, e: Event): State {
    if !s.holder.Free? then s
    else
      match e
      case StartReinvite(gates) => StartReofferStep(s, gates)
      case StartTransfer(waits, ok) => StartTransferStep(s, waits, ok)
      case StartInfo(digits) => StartInfoStep(s, digits)
      case StartHangUp => StartHangUpStep(s)
      case _ => s
  }

  function WaiterStep(s: State, e: Event): State {
    match e
    case WaiterWakes(ev) =>
      if ev in s.waiting && s.transfer.terminal == Some(ev) && s.transfer.isSet
      then Report(s, ev, TimedOut) else s
    case WaiterTimesOut(ev) => if ev in s.waiting then Report(s, ev, TimedOut) else s
    case WaiterCancelled(ev) =>
      if ev in s.waiting then Disarm(s.(waiting := s.waiting - {ev}), ev) else s
    case _ => s
  }

  function ByeStep(s: State, e: Event): State {
    match e
    case InBye(answerable) => if answerable then Send(s, Reply(200)).(byes := s.byes + 1) else s
    case ByeAnswered => if s.byes > 0 then End(s.(byes := s.byes - 1)) else s
    case ByeFailed => if s.byes > 0 then s.(byes := s.byes - 1) else s
    case _ => s
  }

  function Deliver(s: State, cseq: nat, r: Response): State {
    if cseq in s.pending then s.(pending := s.pending[cseq := s.pending[cseq] + [r]]) else s
  }

  function DoneStep(s: State): State {
    if s.holder.Gating? || s.holder.HangingUp? then s.(holder := Free) else s
  }

  function Step(s: State, e: Event): State {
    match e
    case Resume => ResumeStep(s)
    case Acked => if s.holder.Acking? then CommitStep(s) else s
    case Done => DoneStep(s)
    case Abort => AbortStep(s)
    case OnResponse(c, r) => Deliver(s, c, r)
    case InReinvite(offer, answerable) => ReinviteStep(s, offer, answerable)
    case InNotify(n) => NotifyStep(s, n)
    case InBye(_) => ByeStep(s, e)
    case ByeAnswered => ByeStep(s, e)
    case ByeFailed => ByeStep(s, e)
    case _ => if Starts(e) then StartStep(s, e) else WaiterStep(s, e)
  }

  function Run(s: State, trace: seq<Event>): State
    decreases |trace|
  {
    if trace == [] then s else Run(Step(s, trace[0]), trace[1..])
  }

  // --- a re-key that suspends ------------------------------------------------------
  // No step above suspends inside a re-key.  The engine's re-key awaits a lock, so it can:
  // the dialog is captured before it and written back after it, whatever it has become.

  /** An answerable re-offer is caught inside its re-key: the keys minted, nothing committed. */
  function Capture(s: State, offer: Offer): Option<(State, Captured)> {
    var (t, plan) := PlanReanswer(s, offer);
    if Refused(s, offer).Some? || plan.rekey.None? then None
    else Some((t, Captured(s.dialog, plan.rekey.value.0, plan.rekey.value.1)))
  }

  function WriteBack(s: State, c: Captured): State {
    var next := c.dialog.(version := c.dialog.version + 1);
    Send(Rekey(s, c.peer, c.ours).(dialog := next), Answer(Body(next.version, Some(c.ours))))
  }
}
