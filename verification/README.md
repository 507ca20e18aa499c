# Call control of a SIP voice plugin, modelled in Dafny

The project models the call-control code of the plugin: the state of one call, the life of
calls in the adapter, a two-thread hand-off, the text formats of SIP that are printed and
parsed, and the rules that decide who a caller is taken for.  It proves what these promise
over every run, every interleaving and every input.

Asynchronous code is modelled by its atomic steps: what a coroutine does between two awaits
is one step, whatever may run at an await is another, and a run is any sequence of steps.
Peers, timers, cancellations and the agent's tools are events that may come at any point.
Objects and loops that update variables in place are classes and methods with loops, each
proved to do exactly what the step function or recursive description of the same operation
says; the properties are proved about those.

| file | subject |
|---|---|
| `CallState`, `CallSession` | one established call: its steps, and the session object that takes them |
| `CallVerbs` | how verbs start and end, what requests are answered with, and when a call is over |
| `CallRuns` | the two dialog counters, and a re-key that suspends |
| `CallCrypto`, `KeyAgreement`, `TornExchanges` | SDES keys through re-offers on our side, against a conforming peer, what tears them apart and what mends them |
| `TransferVerdict`, `ReferEvent` | which event decides a transfer, and the Event id it is matched by |
| `ThreadStream`, `BoundedStream` | the bounded hand-off from a worker thread to the event loop |
| `OutboundInvite`, `DialRace` | the challenge and 422 loop of a dial, and its race with aborts |
| `AnsweredGuard` | the dialog guard between our 200 and the hand-over |
| `CallRegistry`, `VoipAdapter` | admission, registries and teardown with overlapping tasks |
| `SipText`, `NameAddr`, `HeaderList`, `Dialogs` | SIP header text and dialog identities |
| `Digest`, `DigestAuth` | digest parameters, challenges and answers |
| `CallerModes`, `DtmfConfirm`, `ArmedConfirmation`, `Spotlight` | caller classification, keypad confirmation, the fence around untrusted text |

Where the code does not keep what its documentation says, the code is modelled, and a lemma
says when it does keep it:

- `_defang_fence` is to break up every `<<<` and `>>>`, and `_defang_identity` is said to be
  idempotent.  Neither holds for a run of 5, 8, 11 ... brackets; each holds exactly for all
  other text (`Spotlight.DefangLeavesIff`, `IdentityIdempotentIff`, `FiveBracketsLeft`).
- `send_cancel` is said to find nothing once a final response has arrived (section 9.1 of
  RFC 3261 forbids a CANCEL then).  The tracked INVITE is dropped only by `remove_call`, so an
  abort still stopping its engine CANCELs an INVITE whose 2xx was taken
  (`DialRace.LateCancel`).  A CANCEL goes out exactly as long as the dial has not reached
  `remove_call` (`DialRace.CancelsIff`), and is in time exactly while the dial is sending,
  ringing or re-sending, with no final in its queue (`DialRace.CancelInTimeIff`).
- Both ends of a secured call should hold the same keys.  They do not after a verb dropped
  between its ACK and its commit (`TornExchanges.DroppedCommitTears`), after one dropped before
  the 2xx of a peer that changes keys with that 2xx (`LateAnswerTears`), and with a peer that
  answers our offer with a fresh key in its ACK (`RotatedAckTears`).  They do exactly if an
  exchange of either side has completed since the last of these (`KeyAgreement.KeysMatchIffNotTorn`,
  `TornExchanges.KeysMatchIffUnbroken`): the next one that does brings the keys together
  (`TornUntilOneCompletes`), whichever side offers (`NextOfferMends`, `PeerOfferMends`).
- The first final of a dial is acted upon without a look at its CSeq
  (`OutboundInvite.StrayFinalTaken`); after a re-send the CSeq always is the last INVITE's.
- A peer BYE that arrives while the send of our 200 is suspended has no route and is lost
  (`AnsweredGuard.EarlyByeLost`); every other one is seen (`ByeReachesUnless`).  A WebRTC engine
  that does not start leaves an answered dialog without a BYE for good (`StrandedForGood`).
- The cap on calls is a cap on slots.  It is one on calls if no INVITE is taken up beside an
  unfinished task of its Call-ID (`CallRegistry.SerialCallsCapped`), and can be exceeded beside
  one (`OverlapOvercommits`).  A slot leaks when a registration raises or a teardown is cancelled
  (`RaisedRegistrationLeaks`, `CancelledTeardownLeaks`), and in no other case (`AdmissionConserved`).
- A superseded call should leave the newer one of its Call-ID alone.  It takes its slot exactly
  if its teardown had begun before and is not cut short, and flags it ended exactly if it was
  still to flag (`CallRegistry.NewerSparedIff`; `SupersededMidTeardown` shows such a run).  A
  teardown that is cancelled and run again finds itself superseded and spares it.
- A transfer should refer the call that confirmed it.  The session is looked up again after the
  confirmation, so the REFER goes out on a newer one registered meanwhile
  (`DtmfConfirm.ReferOnNewer`), and on the one asked for exactly without such a registration
  (`DtmfConfirm.ReferWhereAskedIff`).
- A re-key that suspends writes a stale dialog back (`CallRuns.SuspendedRekeyLosesCseq`).

## Model

| member | source | states |
|---|---|---|
| CallSessions.CallSession.SendRequest | src/hermes_voip/dialog.py:208-263 | An in-dialog request takes the next CSeq, and the next SDP version if it offers; past 2^31 or with a strict first router nothing is sent or changed |
| CallSessions.CallSession.StartReinvite | src/hermes_voip/call.py:742-770 | The re-offer goes out with a fresh key that is not committed, under the glare flag; a request that cannot be built leaves no flag |
| CallSessions.CallSession.StartTransfer | src/hermes_voip/call.py:480-530 | A transfer arms its outcome before the REFER and is refused on an ended call or while another is armed |
| CallSessions.CallSession.ArmTransfer | src/hermes_voip/call.py:575-604 | Arming resets every outcome field and installs a fresh event |
| CallSessions.CallSession.DisarmTransfer | src/hermes_voip/call.py:606-619 | Cleanup clears the outcome state only of the transfer that owns it |
| CallSessions.CallSession.WakeTransfer | src/hermes_voip/call.py:685-699 | The first waker latches the outcome; a later one only sets the event |
| CallSessions.CallSession.ReportOutcome | src/hermes_voip/call.py:621-683 | The report is the latched outcome, and the given reason only without one; the transfer is disarmed |
| CallSessions.CallSession.ReleaseReferred | src/hermes_voip/call.py:503-528 | An accepted REFER reports at once when declined, latched or not waiting, and else waits outside the lock |
| CallSessions.CallSession.StartInfo | src/hermes_voip/call.py:368-419 | One INFO per digit, each with its own CSeq, and the lock is free after the last |
| CallSessions.CallSession.StartHangUp | src/hermes_voip/call.py:436-478 | A BYE ends the call and wakes the transfer in the step that builds it; on an ended call nothing happens |
| CallSessions.CallSession.Abort | src/hermes_voip/call.py:802-803 | However a verb ends, its pending request, glare flag and own armed outcome go with it |
| CallSessions.CallSession.OnReinviteFinal | src/hermes_voip/call.py:771-801 | One authenticated retry with the same offered key; a 2xx with audio is ACKed under its INVITE's CSeq; all else ends the verb |
| CallSessions.CallSession.OnReferFinal | src/hermes_voip/call.py:922-953 | A retried REFER replaces the CSeq that NOTIFYs are matched by; 300 and above ends the transfer |
| CallSessions.CallSession.OnInfoFinal | src/hermes_voip/call.py:418-434 | One authenticated retry per digit, then the next digit or the error |
| CallSessions.CallSession.Resume | src/hermes_voip/call.py:302-325 | Provisionals are passed over; the first final takes the request off the pending table |
| CallSessions.CallSession.Acked | src/hermes_voip/call.py:885-920 | After the ACK both keys are committed, or the answer is refused and neither changes |
| CallSessions.CallSession.WaiterGoesOn | src/hermes_voip/call.py:639-683 | A waiter reports what is latched when it wakes or when its bound elapses |
| CallSessions.CallSession.CancelWaiter | src/hermes_voip/call.py:526-528 | A cancelled wait disarms its own transfer |
| CallSessions.CallSession.OnResponse | src/hermes_voip/call.py:293-300 | A response is queued for the request of its CSeq and dropped without one |
| CallSessions.CallSession.OnReinvite | src/hermes_voip/call.py:1078-1152 | Glare, unparseable, audio-less and downgrading offers are refused with 491, 400, 488 and 488, and nothing else changes |
| CallSessions.CallSession.AnswerReinvite | src/hermes_voip/call.py:1154-1205 | Keys and version change only if the 200 can be built; the 200 carries the new version and key |
| CallSessions.CallSession.OnByeSent | src/hermes_voip/call.py:1207-1218 | The call ends when the 200 to the BYE has been sent, and not if that fails |
| CallSessions.CallSession.OnNotify | src/hermes_voip/call.py:1220-1302 | Only an answerable refer NOTIFY that matches records progress, and only a terminated final one wakes the wait |
| CallRuns.RunCounts | src/hermes_voip/call.py:742-803 | In every run request CSeqs and SDP versions on the wire are consecutive from the start values, and the counters are the last ones used: no increment is lost, none is skipped |
| CallRuns.SuspendedRekeySoundIff | src/hermes_voip/call.py:1171-1205 | With a re-key that suspends the counters survive exactly if nothing was numbered in the meantime |
| CallRuns.SuspendedRekeyLosesCseq | src/hermes_voip/call.py:1171-1205 | A request sent meanwhile has its CSeq used again by the next one |
| CallVerbs.ReinviteAnswered | src/hermes_voip/call.py:1078-1205 | An answerable re-INVITE gets 491 if and only if an offer of ours is pending, else 400 if and only if its offer cannot be parsed, else 488 if and only if it has no audio or would take SRTP off a secured call; in every other case a 200 with the next version, and no key, the current one or a fresh one under the offered tag. A refusal changes nothing else, an unanswerable one no key and no version |
| CallVerbs.GlareIff | src/hermes_voip/call.py:742-803 | In every run that 491 goes out exactly between the offer of a re-INVITE of ours and the end of its exchange |
| CallVerbs.RunWithin | src/hermes_voip/dialog.py:208-263 | In no run does a request carry a CSeq of 2^31 or more, or go out past a strict first router |
| CallVerbs.EndedIff | src/hermes_voip/call.py:436-479 | A step ends the call if and only if it puts our BYE on the wire or completes the 200 to one of the peer |
| CallVerbs.HangUpOnce | src/hermes_voip/call.py:463-468 | In every run we send one BYE at most, none once the call has ended, and the call has ended once it is sent |
| CallVerbs.FinalDecides | src/hermes_voip/call.py:765-803 | A first challenge that can be answered re-sends the same request once, with the same offer, under the next CSeq; every other failure leaves the lock free, nothing pending, no glare flag and no transfer |
| CallVerbs.FirstFinalDecides | src/hermes_voip/call.py:293-325 | Whatever provisionals come before it and whatever comes after, the first final of the awaited CSeq is the one a verb acts upon |
| CallVerbs.DigitsSent | src/hermes_voip/call.py:368-401 | For every number of digits, each goes out in one INFO of its own, in order, the next one when the last was accepted |
| CallVerbs.ProgressKeptBy | src/hermes_voip/call.py:606-619 | Nothing but a NOTIFY or the next transfer replaces the last progress, the end of the transfer and of the call included |
| CallCrypto.RunKeeps | src/hermes_voip/call.py:742-920 | In every run a secured call stays secured, every SDP sent carries a key, the engine encrypts with the advertised one, and an ACK reuses the CSeq of its INVITE |
| CallCrypto.KeysChangeIff | src/hermes_voip/call.py:842-920 | A step changes a key if and only if it completes an exchange, and then to the two keys of that exchange; rejection, timeout, downgrade, mismatch and an unanswerable offer change neither |
| KeyAgreement.KeysMatchIffNotTorn | src/hermes_voip/call.py:742-920 | In every run against a conforming peer, that changes keys as it sends its 200 or on our ACK, and takes and makes offers whatever became of the ACK of an earlier 200, the call stays secured; whenever all is read and no commit is due, both ends hold the same two keys if and only if no exchange was torn apart since the last complete one |
| TornExchanges.KeysMatchIffUnbroken | src/hermes_voip/call.py:742-862 | The moves of the run decide that: there the keys are the same if and only if an exchange has completed since the last move of these: our verb dropped between ACK and commit, or while a 200 with which the peer changed keys is on its way; such a 200 given to an offer no verb waits for; a fresh key in the ACK of an offerless re-INVITE |
| TornExchanges.TornUntilOneCompletes | src/hermes_voip/call.py:885-920 | From any state with an exchange torn apart, in every continuation in which no key of ours changes it stays so, and the keys differ wherever all is read and no commit is due; the first move that changes our keys mends it |
| TornExchanges.DroppedCommitTears | src/hermes_voip/call.py:842-862 | A re-offer aborted between ACK and commit: all is read, nothing is under way, and the keys differ |
| TornExchanges.LateAnswerTears | src/hermes_voip/call.py:293-325 | A re-offer aborted before a 200 with which the peer changed keys: that 200 is dropped, nothing is under way, and the keys differ |
| TornExchanges.RotatedAckTears | src/hermes_voip/call.py:1047-1048 | An offerless re-INVITE whose peer puts a fresh key into its ACK, which is not read: the keys differ |
| TornExchanges.NextOfferMends | src/hermes_voip/call.py:742-920 | Wherever any run has come to rest, torn apart or not, our next re-offer that is taken, answered, ACKed and committed ends at rest with the same keys |
| TornExchanges.PeerOfferMends | src/hermes_voip/call.py:1078-1205 | ... and so does the next re-INVITE of the peer with an offer |
| TransferVerdict.RunKeeps | src/hermes_voip/call.py:575-699 | In every run the outcome fields agree: armed, in progress and correlated together, set with the latch, latched once the call ended; one transfer at a time; reports never change |
| TransferVerdict.LatchIsFirstWake | src/hermes_voip/call.py:685-699 | While a transfer is armed its latch is the first wake of the run, a matching final NOTIFY or the end of the call |
| TransferVerdict.VerdictIsFirstWake | src/hermes_voip/call.py:480-699 | The verdict is that first wake, the reason for stopping only without one, and nothing later changes it |
| TransferVerdict.VerdictFitsWait | src/hermes_voip/call.py:668-683 | In every run a transfer is told that its wait was disabled only if it was started without one, and that it timed out only if it was started with one |
| TransferVerdict.AcceptanceDecides | src/hermes_voip/call.py:496-532 | On the 2xx of its REFER a transfer that waits, with nothing latched and the subscription not declined, waits unreported outside the lock; any other is reported at once: what is latched, else declined, else disabled |
| TransferVerdict.StaleNotifyIgnored | src/hermes_voip/call.py:1276-1301 | A NOTIFY with another or a malformed id changes nothing of an armed transfer |
| TransferVerdict.EndedCallWakesWaiter | src/hermes_voip/call.py:685-699 | On an ended call a waiter can go on at once and reports a progress or the end of the call |
| TransferVerdict.EndedCallArmsNothing | src/hermes_voip/call.py:590-597 | After the call ended no transfer is armed in any run |
| ReferEvent.ReferEventId | src/hermes_voip/call.py:1337-1355 | The id loop returns none, one valid number, or malformed |
| ReferEvent.EventIdRoundTrip | src/hermes_voip/call.py:1337-1355 | For every CSeq below 2^31 its printed id parameter is read as that number |
| ReferEvent.AbsentIff | src/hermes_voip/call.py:1346-1352 | The id is absent exactly when no parameter is named id |
| ReferEvent.IdIff | src/hermes_voip/call.py:1346-1355 | In every header a number is read if and only if exactly one parameter is named id and its value prints that number, below 2^31 |
| ReferEvent.DuplicateIdMalformed | src/hermes_voip/call.py:1353-1354 | In every header two parameters named id, wherever and of whatever values, make it malformed, never absent |
| ReferEvent.PaddedIdRead | src/hermes_voip/call.py:1347-1350 | White space around the name id and its value, and the case of the name, make no difference |
| BoundedStreams.BoundedStream.Produce | src/hermes_voip/aio.py:103-112 | What next() gives is taken in hand; an error or the end goes straight to the hand-off |
| BoundedStreams.BoundedStream.LookAtFlag | src/hermes_voip/aio.py:92-110 | A message is given up only when the flag is set |
| BoundedStreams.BoundedStream.SubmitPut | src/hermes_voip/aio.py:96 | One put is in flight while the worker waits |
| BoundedStreams.BoundedStream.PutResult | src/hermes_voip/aio.py:97-101 | A failed put ends the worker |
| BoundedStreams.BoundedStream.PerformPut | src/hermes_voip/aio.py:92-101 | The loop performs a put only when there is room |
| BoundedStreams.BoundedStream.GetMessage | src/hermes_voip/aio.py:121-127 | The consumer yields an item, ends on Done and re-raises an error |
| BoundedStreams.BoundedStream.DrainQueue | src/hermes_voip/aio.py:132-134 | The drain takes every queued message in order |
| BoundedStreams.BoundedStream.FinishJoin | src/hermes_voip/aio.py:135-138 | A worker alive after the join is reported |
| ThreadStream.StreamConserves | src/hermes_voip/aio.py:88-138 | In every two-thread schedule what was produced is what was received, drained, queued and between the threads, in order; the buffer is bounded and at most one message is outside it |
| ThreadStream.EndAfterEverything | src/hermes_voip/aio.py:103-127 | A normal end comes after every item, an error after everything produced before it |
| ThreadStream.NeverBlocked | src/hermes_voip/aio.py:128-135 | After the drain at most one put is still performed, it finds room, and the worker's next step brings it nearer its end |
| ThreadStream.WorkerEnds | src/hermes_voip/aio.py:103-135 | Once the flag is set at most six worker steps remain in any schedule |
| ThreadStream.DeliversAll | src/hermes_voip/aio.py:88-127 | Left to itself the stream delivers every list of values the producer has, one by one and in order |
| ThreadStream.EndsCleanly | src/hermes_voip/aio.py:103-138 | ... and then the end or the error, upon which both threads end |
| OutboundInvite.AwaitInviteResponse | src/hermes_voip/adapter.py:2813-2830 | The next final of the INVITE; provisionals and the answer to our CANCEL are passed over |
| OutboundInvite.AwaitInviteFinalForCseq | src/hermes_voip/adapter.py:2832-2870 | The first final of that CSeq among the next nine; nine stale ones fail the call with 504 |
| OutboundInvite.ResolveChallenges | src/hermes_voip/adapter.py:2112-2241 | One challenge and one 422 are remedied in either order; at most 19 finals are consumed; the first final of the stream alone decides whether there is a re-send; the classified final has no unused remedy, and after a re-send carries the CSeq of the last INVITE |
| OutboundInvite.DialBounded | src/hermes_voip/adapter.py:2130-2227 | At most three INVITEs, CSeqs 1, 2, 3; the interval never falls and covers the peer's minimum; credentials stay on every later INVITE |
| OutboundInvite.StrayFinalTaken | src/hermes_voip/adapter.py:2114 | A first final of another CSeq, on any stream, is classified, or dialled again for if it is a challenge or a 422 |
| DialRace.EstablishedExcludesAbort | src/hermes_voip/adapter.py:2455-2463 | In every interleaving a dial that returns a Call-ID was never taken up by an abort, and every abort_call returned False |
| DialRace.OneCancel | src/hermes_voip/adapter.py:2731-2785 | At most one CANCEL per dial, only after the flag, and at most one BYE for a 2xx that raced it |
| DialRace.OneOwner | src/hermes_voip/adapter.py:2591-2698 | A dial that sent its ACK ends with the loop task, or with one BYE and one teardown of its own, never both |
| DialRace.AbortCancels | src/hermes_voip/adapter.py:2758-2785 | An abort of a ringing dial that runs through sends the CANCEL and returns True |
| DialRace.AnswerEstablishesIff | src/hermes_voip/adapter.py:2243-2310 | A good answer establishes the call if and only if no abort was taken up before |
| DialRace.EstablishedIff | src/hermes_voip/adapter.py:2221-2310 | In every run the call is established if and only if the last final taken was a 2xx that parses, its ACK went out, it was acceptable and no abort had been taken up; nothing else is ever ACKed |
| DialRace.FailsIff | src/hermes_voip/adapter.py:2221-2310 | A dial in progress fails exactly by a send that fails, a refusal, a 2xx that does not parse or is not acceptable, an abort taken up before its ACK, a timeout or a cancellation; then it is off the registry, an ACKed answer is BYEd and any other torn down without an ACK. Else it goes on from stage to stage |
| DialRace.AbortTakenIff | src/hermes_voip/adapter.py:2758-2775 | An abort is taken up if and only if the dial is registered, no other was and the transport is connected; any other returns False at once and changes nothing |
| DialRace.TrueMeansCancelled | src/hermes_voip/adapter.py:2776-2785 | In every run abort_call returns True only with a CANCEL sent |
| DialRace.RacedAnswerByed | src/hermes_voip/transport/connection.py:470-535 | In every run a 2xx to a cancelled INVITE gets exactly one BYE, however often it comes |
| DialRace.CancelsIff | src/hermes_voip/adapter.py:2776-2785 | From any reachable state a step sends a CANCEL if and only if it ends the engine stop of an abort taken up and the dial has not reached remove_call |
| DialRace.CancelInTimeIff | src/hermes_voip/transport/connection.py:427-459 | The CANCEL of any run precedes every final taken for the INVITE it targets if and only if the dial is sending, ringing or re-sending, and every final that arrived if and only if the queue is empty as well |
| DialRace.LateCancel | src/hermes_voip/transport/connection.py:440-444 | A run in which the CANCEL goes out after the 2xx was taken |
| AnsweredGuard.AnsweredDialogGuard.HandleRequest | src/hermes_voip/adapter.py:473-503 | ACK and BYE confirm, a BYE also marks the peer's end, all else changes neither: the two flags say which of them were ever handled |
| AnsweredGuard.AnsweredDialogGuard.AfterConfirmWait | src/hermes_voip/adapter.py:552-558 | After the first wait the outcome is the peer's BYE exactly if a BYE was ever handled, a timeout exactly if neither ACK nor BYE was, and a settle exactly if an ACK and no BYE was |
| AnsweredGuard.AnsweredDialogGuard.AfterSettle | src/hermes_voip/adapter.py:559-567 | After the settle it is the peer's BYE exactly if one was ever handled, and confirmed exactly if an ACK and no BYE was; never a timeout |
| AnsweredGuard.AbortByes | src/hermes_voip/adapter.py:4947-5004 | In every order an abort sends at most one BYE, never with a peer BYE seen, and only after an ACK or the whole bound; uncancelled it sends one unless the peer ended the call |
| AnsweredGuard.FateDecides | src/hermes_voip/adapter.py:4460-4531 | In every run a call is stranded if and only if its handler was cancelled between the 200 and the hand-over or its end, or a WebRTC engine did not start; handed over if and only if the last setup step went through with no BYE seen; and every other failed setup step is aborted |
| AnsweredGuard.FailedSetupAborts | src/hermes_voip/adapter.py:4883-5004 | From every state a failed handshake, or an engine that does not start without WebRTC, left to run, ends within five steps of the abort, never stuck whatever the peer sends, with the dialog closed by exactly one BYE, or by none if and only if the BYE of the peer was seen before |
| AnsweredGuard.GuardedByeStartsNoLoop | src/hermes_voip/adapter.py:5006-5056 | A BYE the guard saw keeps the CallLoop from starting |
| AnsweredGuard.ByeReachesUnless | src/hermes_voip/adapter.py:4712-4736 | A peer BYE is unrouted exactly before the send of the 200 returned or after the dialog closed, and goes to the session exactly after the hand-over |
| AnsweredGuard.EarlyByeLost | src/hermes_voip/adapter.py:4714-4736 | A BYE in that first window is lost and the CallLoop starts all the same |
| AnsweredGuard.StrandedForGood | src/hermes_voip/adapter.py:4487-4531 | What escapes the abort handlers strands the answered dialog: in every run after it no BYE is sent and the guard keeps the route |
| VoipAdapters.VoipAdapter.AdmitInbound | src/hermes_voip/adapter.py:6361-6384 | A slot is given below the cap or kept by a Call-ID that has one; the cap and the stamps hold |
| VoipAdapters.VoipAdapter.ReleaseAdmission | src/hermes_voip/adapter.py:6386-6404 | Slot and stamp go together |
| VoipAdapters.VoipAdapter.RegisterCall | src/hermes_voip/adapter.py:3882-3949 | Session, sink, timer and info of the newer call replace the older ones |
| VoipAdapters.VoipAdapter.ArmMaxDurationTimer | src/hermes_voip/adapter.py:5433-5463 | The watchdog left by a superseded call is cancelled before a new one is armed |
| VoipAdapters.VoipAdapter.CancelMaxDurationTimer | src/hermes_voip/adapter.py:5535-5557 | A watchdog is cancelled only by the session it is bound to |
| VoipAdapters.VoipAdapter.FinishTeardown | src/hermes_voip/adapter.py:6198-6228 | The end of a teardown releases and drops what is still its own and nothing of another |
| CallRegistry.RunCaps | src/hermes_voip/adapter.py:6361-6404 | In every run the held slots never exceed the cap and are the stamped ones |
| CallRegistry.AdmissionConserved | src/hermes_voip/adapter.py:3740-3822 | Once every task of a Call-ID is at the end of its exit path that Call-ID holds no slot |
| CallRegistry.RaisedRegistrationLeaks | src/hermes_voip/adapter.py:3882-3886 | A route registration that raises leaves the slot taken: the assumption is needed |
| CallRegistry.CancelledTeardownLeaks | src/hermes_voip/adapter.py:6156-6201 | A teardown cancelled in an await leaves it taken too |
| CallRegistry.SerialCallsCapped | src/hermes_voip/adapter.py:6361-6384 | In runs that take up no INVITE beside an unfinished task of its Call-ID, the unfinished calls never exceed the cap and each holds its slot |
| CallRegistry.OverlapOvercommits | src/hermes_voip/adapter.py:3800-3822 | With a cap of one, a second INVITE of a Call-ID whose setup fails lets in a second live call |
| CallRegistry.NewerSparedIff | src/hermes_voip/adapter.py:6145-6228 | Over every run in which nothing else of the Call-ID moves, the end of a superseded task takes the newer call's slot if and only if its teardown had begun before and is not cut short, and flags and signals if and only if it was still to; session, sink, timer and marker stay |
| CallRegistry.NewerGuarded | src/hermes_voip/adapter.py:5535-5557 | ... and a max-duration watchdog bound to the newer call stays bound to it in every such run until it fires or ends by itself |
| CallRegistry.NewerHeardIff | src/hermes_voip/adapter.py:6202-6213 | ... and the newer call keeps loop and engine if and only if the older loop had returned or its teardown was cancelled for good |
| CallRegistry.SupersededLeavesAlone | src/hermes_voip/adapter.py:6145-6155 | A task superseded before its teardown began never has one: in every such run no slot, flag, signal or entry of the newer call changes |
| CallRegistry.EvictedOnlyBy | src/hermes_voip/adapter.py:6212-6213 | A session leaves the registry only with its own task, a newer registration, or a task that never had a session |
| CallRegistry.OwnTeardownClears | src/hermes_voip/adapter.py:6198-6228 | The teardown of the registered call leaves no slot, stamp, session, sink, marker or loop of it |
| CallRegistry.SessionlessTears | src/hermes_voip/adapter.py:6198-6228 | A call without a session gives its slot back and drops the session and sink it finds |
| CallRegistry.CallLeavesNothing | src/hermes_voip/adapter.py:6145-6228 | From any state, the end of a call whose session is registered leaves no slot, session, sink, session timer, watchdog, marker or loop of it; its info is flagged ended under its owner, its end signalled unless flagged before and labelled if and only if its watchdog marked it; nothing of another Call-ID changes |
| CallRegistry.SupersededMidTeardown | src/hermes_voip/adapter.py:6145-6155 | A newer call can register while the older teardown is at its first await |
| CallRegistry.MidTeardownStrips | src/hermes_voip/adapter.py:6156-6213 | Left to itself such a teardown ends from each of its four stages with the newer call registered and without a slot, flagged ended from the first two |
| CallRegistry.SignalsOnce | src/hermes_voip/adapter.py:6146-6171 | In every run each session signals its end at most once, even if its teardown runs twice |
| CallRegistry.LabelsOwn | src/hermes_voip/adapter.py:7340-7341 | Only a session its own watchdog hung up is classified as over its maximum |
| CallRegistry.WatchdogOwn | src/hermes_voip/adapter.py:5484-5505 | A watchdog acts exactly while its own session is registered and live, and on that session alone |
| NameAddr.NameAddrParts | src/hermes_voip/_name_addr.py:31-63 | The loop finds the first angle-addr outside quoted-strings, or none |
| NameAddr.SplitParams | src/hermes_voip/_name_addr.py:79-107 | The loop splits at the semicolons outside quoted-strings |
| NameAddr.TagParam | src/hermes_voip/_name_addr.py:117-142 | The first top-level tag decides, and only a token is one |
| NameAddr.ParamsAfterAddr | src/hermes_voip/_name_addr.py:145-175 | The loop finds the first semicolon outside quotes and brackets, as AddrParamsIff describes it |
| NameAddr.AddrParamsIff | src/hermes_voip/_name_addr.py:145-175 | What is given stands behind a semicolon whose lead is closed and has none of its own, or there is no such semicolon; each way |
| NameAddr.QuotedTextInert | src/hermes_voip/_name_addr.py:145-175 | Quoted text before the parameters, `;tag=` in it or not, changes nothing of them |
| NameAddr.JoinInvertsSplit | src/hermes_voip/_name_addr.py:79-107 | Joining the parts with semicolons gives every input string back |
| NameAddr.SplitInvertsJoinIff | src/hermes_voip/_name_addr.py:79-107 | A joined list is split into the same list if and only if quotes are closed before each semicolon and none is bare inside |
| NameAddr.AngleFound | src/hermes_voip/_name_addr.py:44-63 | Whatever name stands before it, a spec without `>` in angle brackets is found, and all that follows it |
| NameAddr.EscapedIsInert | src/hermes_voip/_name_addr.py:46-57 | An escaped quoted-string body has no structural character and ends where it was opened |
| NameAddr.TagFound | src/hermes_voip/_name_addr.py:117-142 | After any generic parameters, quoted ones of any contents, a token tag is found |
| NameAddr.FirstTagDecides | src/hermes_voip/_name_addr.py:117-142 | Whatever comes after it, the first tag parameter decides: its value if that is a token, else none |
| HeaderList.SplitHeaderList | src/hermes_voip/_header_list.py:20-53 | The loop splits at top-level commas, strips the entries and drops the empty ones |
| HeaderList.HeadersCombineIff | src/hermes_voip/_header_list.py:20-53 | Two lines combined with a comma mean what they meant apart, for every second line, if and only if the first closes its quotes and brackets |
| HeaderList.EntriesInvertJoinIff | src/hermes_voip/_header_list.py:20-53 | A joined list is split into the same list if and only if every entry is trimmed, not empty and without a top-level comma, and all but the last are closed |
| HeaderList.GroupingIrrelevant | src/hermes_voip/dialog.py:269-283 | However entries are grouped into lines, the entries in order are read |
| HeaderList.AddressIsEntry | src/hermes_voip/_header_list.py:20-53 | An address with a quoted display name is one entry, whatever commas, quotes and brackets the name holds and whatever commas and quotes the address |
| Dialogs.IdentityRoundTrip | src/hermes_voip/dialog.py:294-326 | For every quoted display name or none, every plain URI, any generic parameters and a token tag, exactly that URI and tag are read back |
| Dialogs.BareIdentityRoundTrip | src/hermes_voip/dialog.py:294-326 | ... and so are a URI without brackets and the tag behind any generic parameters |
| Dialogs.PrintedIdentityIff | src/hermes_voip/dialog.py:253-256 | A printed identity is read back if and only if the URI is non-empty, trimmed and free of `>` and the tag is a token |
| Dialogs.EndsMirrored | src/hermes_voip/dialog.py:125-197 | An INVITE, whose To has any quoted display name or none and any generic parameters, and its 2xx build both dialogs if and only if From has a URI and a tag, Call-ID is there, both Contacts have an address, and Via and CSeq parse, below 2^31; then they have the same Call-ID, mirrored identities, mutually reversed route sets, and each the other's Contact as its target |
| Dialogs.DialogNamed | src/hermes_voip/dialog.py:125-197 | No dialog is built without a URI and a token tag at both ends and a target |
| Dialogs.MirroredBack | src/hermes_voip/dialog.py:125-197 | Being mirrored goes both ways: the route set reversed twice is itself |
| Dialogs.RequestReadByPeer | src/hermes_voip/dialog.py:208-263 | A request is refused exactly for a strict first router or an exhausted CSeq; else the peer reads From and To as its own remote and local identities, and only the CSeq advances |
| Dialogs.FirstRequestReadByPeer | src/hermes_voip/dialog.py:208-263 | The first request on the dialog of an INVITE and its 2xx goes to the Contact of the 2xx, under the Call-ID, Contact and next CSeq of the INVITE, and the callee reads both identities as its own |
| Dialogs.LooseIff | src/hermes_voip/dialog.py:62-63 | A URI with the parameter lr is that of a loose router, whatever surrounds it, if and only if no longer word begins so |
| Dialogs.RoutesUngrouped | src/hermes_voip/dialog.py:269-283 | The route set does not depend on the grouping of Record-Route lines |
| Digest.ScanParams | src/hermes_voip/digest.py:188-197 | The loop collects every auth-param by lower-case name, a later one replacing an earlier |
| Digest.UnescapeInvertsEscape | src/hermes_voip/digest.py:69-101 | Unescaping gives back every control-free value |
| Digest.EscapeIsReplace | src/hermes_voip/digest.py:101 | The two replacements, backslash first, are the character-wise escape |
| Digest.ScanInvertsPrint | src/hermes_voip/digest.py:47-49 | The scan of a rendered header gives back exactly its parameters, for values with quotes, backslashes, commas and `name=` text |
| Digest.BareValueEnds | src/hermes_voip/digest.py:47 | A value without quotes runs up to a comma, a semicolon or white space, and without a character there is no parameter |
| DigestAuth.ParseChallenge | src/hermes_voip/digest.py:173-214 | A challenge is parsed if and only if nonce and realm are there and not empty; the algorithm defaults to MD5, qop to none, and every qop token is trimmed and not empty |
| DigestAuth.ChallengeRoundTrip | src/hermes_voip/digest.py:173-214 | A challenge on the wire, its parameters in any order and among any others, quoted or bare, is parsed into itself: realm, nonce, algorithm, opaque value and every qop token |
| DigestAuth.ChallengeIssued | src/hermes_voip/digest.py:173-214 | Every challenge of control-free text can be put on the wire like that |
| DigestAuth.PickBestChallenge | src/hermes_voip/digest.py:235-275 | The first of the most preferred supported challenges, and none exactly if none is supported |
| DigestAuth.RankIsPlace | src/hermes_voip/digest.py:57-62 | The rank of an algorithm is its place in the order of preference |
| DigestAuth.AnswerIff | src/hermes_voip/digest.py:325-353 | An answer is built if and only if algorithm, qop and nonce-count are acceptable and no quoted value has a control character |
| DigestAuth.AnswerVerifies | src/hermes_voip/digest.py:325-409 | A verifier that scans the header finds exactly the parameters rendered, and the response it recomputes from them is the one they carry, for all algorithms and every hash |
| DigestAuth.HexReadBack | src/hermes_voip/digest.py:385 | A nonce count is read back from its eight digits |
| DigestAuth.WireAnswerVerifies | src/hermes_voip/digest.py:173-409 | The answer to a challenge parsed from the wire verifies, and its scan gives the issuer its own realm, nonce, algorithm and opaque value back |
| CallerModes.Normalize | src/hermes_voip/caller_modes.py:496-519 | The running value ends as the digits, with a plus if there was one or the number starts with 1 to 9 |
| CallerModes.NormalizeIdempotent | src/hermes_voip/caller_modes.py:496-519 | Normalizing twice is normalizing once, in all three forms |
| CallerModes.MatchedPattern | src/hermes_voip/caller_modes.py:535-540 | The first matching pattern of a list |
| CallerModes.MatchesIff | src/hermes_voip/caller_modes.py:522-532 | A pattern with a star at its end matches exactly the numbers that begin so, any other exactly itself, normalized or raw |
| CallerModes.Construct | src/hermes_voip/caller_modes.py:244-358 | The constructor accepts exactly unique names, an unprivileged default and no digitless pattern in a group of level 2 or more |
| CallerModes.ClassifyCallerGroup | src/hermes_voip/caller_modes.py:576-612 | The loop returns the first group of the order with a match, else the default |
| CallerModes.PrivilegeEarned | src/hermes_voip/caller_modes.py:576-612 | A level of 2 or more comes only from a digit-bearing pattern of that group that matches, with no match in an earlier group; the unmatched get level 0 |
| CallerModes.ResolvedIff | src/hermes_voip/adapter.py:8330-8362 | A caller-ID is resolved if and only if the addr-spec is sip: or sips:, a user, one `@` and a host |
| CallerModes.DisplayNameInert | src/hermes_voip/adapter.py:8330-8383 | For every quoted display name and all that follows, the user of the address in brackets is the caller, and only that user is classified |
| CallerModes.BareCaller | src/hermes_voip/adapter.py:8330-8362 | Without brackets the address ends at the first semicolon |
| CallerModes.CallerPrivilegeEarned | src/hermes_voip/adapter.py:8365-8383 | An unresolved caller gets level 0, and a level of 2 or more takes a digit in the caller-ID and in the pattern |
| CallerModes.LegacyRefined | src/hermes_voip/caller_modes.py:739-765 | The group classifier gives DENY over ALLOW over GREY, and the synthesized configuration is accepted exactly without a digitless allow pattern |
| ArmedConfirmations.ArmedConfirmation.Arm | src/hermes_voip/dtmf_confirm.py:137-149 | A window opens exactly for a keypad digit when none is open |
| ArmedConfirmations.ArmedConfirmation.PromptDelivered | src/hermes_voip/dtmf_confirm.py:161-173 | After the prompt the timer starts, unless a digit has decided already |
| ArmedConfirmations.ArmedConfirmation.Feed | src/hermes_voip/dtmf_confirm.py:188-215 | A digit is consumed exactly by an open, undecided window |
| ArmedConfirmations.ArmedConfirmation.Expire | src/hermes_voip/dtmf_confirm.py:175-186 | Expiry decides an undecided window against |
| ArmedConfirmations.ArmedConfirmation.CloseWindow | src/hermes_voip/dtmf_confirm.py:166-173 | Every exit disarms |
| DtmfConfirm.ReturnsFirstDecision | src/hermes_voip/dtmf_confirm.py:117-215 | In every run an arming returns the first decision since it was armed |
| DtmfConfirm.ArmTrueIff | src/hermes_voip/dtmf_confirm.py:117-215 | It returns True if and only if the first digit fed since the arming was the expected one, before expiry |
| DtmfConfirm.ArmOpensIff | src/hermes_voip/dtmf_confirm.py:137-215 | A window opens if and only if the digit is one of a keypad, and the first digit fed decides it by being the same key, a letter in either case |
| DtmfConfirm.UndecidedExpires | src/hermes_voip/dtmf_confirm.py:161-186 | In every run a window past its prompt that no digit has decided is decided False by the next expiry, and arm returns False |
| DtmfConfirm.OneWindow | src/hermes_voip/dtmf_confirm.py:141-173 | An armed resolver cannot be armed again, a closed one takes no digit, and every exit leaves it idle |
| DtmfConfirm.ReferOnlyConfirmed | src/hermes_voip/adapter.py:6776-6848 | In every run each blind-transfer REFER had its own confirmation returned True, with the registered call live and privileged at that moment |
| DtmfConfirm.TransferAsksIff | src/hermes_voip/adapter.py:6776-6816 | A transfer asks for a confirmation if and only if the call is live and privileged and its keypad bound and idle |
| DtmfConfirm.TransferRefersIff | src/hermes_voip/adapter.py:6817-6848 | Its arming over, the REFER goes out if and only if that returned True and the call is live and privileged still; else the reason is given |
| DtmfConfirm.ReferWhereAskedIff | src/hermes_voip/adapter.py:6776-6848 | The REFER goes out on the session that asked if and only if no newer one was registered since, and on the session of the keypad if and only if none was since its resolver was made |
| DtmfConfirm.ReferOnNewer | src/hermes_voip/adapter.py:6817-6823 | A run in which the older session's keypad confirms and the newer session is referred |
| Spotlight.MarkersOnce | src/hermes_voip/adapter.py:8791-8828 | For all names, objectives and transcripts each marker occurs once in the turn, and between them is exactly the defanged transcript |
| Spotlight.DefangLeavesIff | src/hermes_voip/adapter.py:8575-8585 | A fence is left in defanged text if and only if the text has a longest run of 5, 8, 11 ... such brackets |
| Spotlight.IdentityIdempotentIff | src/hermes_voip/adapter.py:8588-8605 | Defanging an identity twice, white space collapsed each time, is defanging it once if and only if, on one line, it has no such run of either bracket |
| Spotlight.FiveBracketsLeft | src/hermes_voip/adapter.py:8585 | Five brackets keep three in a row |

## Left out

- Hold state and SDP direction: `on_hold`, the `a=` direction and the engine's hold gate are not modelled; a hold is a re-INVITE with one more await at its end.
- A re-key is atomic and does not raise in `CallState`; it can suspend on the engine's send lock, and `Capture` and `WriteBack` model just that case for the counters.
- Inbound REFER and inbound INFO, and other in-dialog requests, which touch no state modelled here.
- The media endpoint of a re-INVITE: `set_remote` is not modelled.
- KeyAgreement.KeysMatchIffNotTorn: one audio section and SDES on both ends; the peer changes keys to its own offer only on our 200 and refuses ours while one of its own is out; an exchange it gives up, for a later one, leaves it with the keys it then uses; no packet is lost, so a lost 200 is one that comes after the verb has ended; the peer's own offers do not time out on its side, and an offerless re-INVITE's answer in the ACK is never read, as the code never reads it.
- The session-timer watchdog: only that it is bound, kept and cancelled; not when it refreshes.
- A closed event loop that makes `run_coroutine_threadsafe` itself raise, and a producer that blocks in `next()` for good.
- The outbound WebRTC dial; a dial here is the TLS one. A send that raises in the challenge loop ends the dial like any other failure.
- Statements between the creation of the loop task and the end of `place_call` do not raise, and a teardown begun in its `finally` is not cancelled.
- The transport's own route for a call during setup (the guard in `AnsweredGuard`) is not repeated in `CallRegistry`, whose sinks are those of registered sessions.
- The video sender and the agent-hangup marker, which a teardown drops whatever the session, and the cap on retained info of ended calls.
- CallRegistry.AdmissionConserved: assumes that route registration does not raise and that no teardown is cancelled for good; both are needed (`RaisedRegistrationLeaks`, `CancelledTeardownLeaks`).
- CallRegistry.NewerSparedIff: two tasks of one Call-ID that both move are not covered; a restarted teardown is allowed to any task, while in the code only a declined call's can restart.
- The confirmation resolver of a newer session: `DtmfConfirm` follows one resolver, and a transfer is asked of it as long as it is the one bound to the Call-ID.
- Reconnection: routes, sinks and sessions are those of one transport.
- Via and CSeq header parsing in a dialog: both come parsed with the message; a branch and a random tag are given.
- Word characters beyond ASCII in auth-param names and after `lr`, and lower-casing beyond ASCII.
- The limit on the digits of an integer text, which makes a CSeq id with thousands of leading zeros malformed.
- Hash functions, random keys, nonces and branches: uninterpreted functions and given values.
- The wording of personas and prompts in `Spotlight`: any text free of `>`, the texts before a name and an objective not empty.
- Loading of configuration, logging, redaction, the runtime the plugin is embedded in.
