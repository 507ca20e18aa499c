/** The adapter's registries as the sets and dictionaries it updates in place, proved against CallRegistry. */
module VoipAdapters {
  import opened Wrappers
  import opened CallRegistry

  class VoipAdapter {
    const maxCalls: nat
    var admittedCalls: set<nat>
    var admissionStart: set<nat>
    var callSessions: map<nat, nat>
    var sinks: map<nat, nat>
    var callInfo: map<nat, Info>
    var sessionTimers: map<nat, nat>
    var durationExceeded: map<nat, nat>
    var callLoops: map<nat, nat>
    var callEngines: map<nat, nat>
    var dtmfConfirmations: map<nat, nat>
    var maxDurationTimers: map<nat, Cap>
    var sleepingTimers: map<nat, Watch>

    constructor (maxCalls: nat)
      ensures this.maxCalls == maxCalls
      ensures HeldSlots() == Begin(maxCalls).slots && CallEntries() == Begin(maxCalls).entries
      ensures CallVoice() == Begin(maxCalls).voice && Watchdogs() == Begin(maxCalls).dogs
    {
      this.maxCalls := maxCalls;
      admittedCalls, admissionStart := {}, {};
      callSessions, sinks, callInfo, sessionTimers, durationExceeded := map[], map[], map[], map[], map[];
      callLoops, callEngines, dtmfConfirmations := map[], map[], map[];
      maxDurationTimers, sleepingTimers := map[], map[];
    }

    ghost function HeldSlots(): Slots
      reads this
    {
      Slots(admittedCalls, admissionStart)
    }

    ghost function CallEntries(): Entries
      reads this
    {
      Entries(callSessions, sinks, callInfo, sessionTimers, durationExceeded)
    }

    ghost function CallVoice(): Voice
      reads this
    {
      Voice(callLoops, callEngines, dtmfConfirmations)
    }

    ghost function Watchdogs(): Dogs
      reads this
    {
      Dogs(maxDurationTimers, sleepingTimers)
    }

    /** Reserve a slot unless the cap is reached; a Call-ID that holds one is let through. */
    method AdmitInbound(cid: nat) returns (admitted: bool)
      requires |admittedCalls| <= maxCalls && admittedCalls == admissionStart
      modifies this`admittedCalls, this`admissionStart
      ensures admitted <==> cid in old(admittedCalls) || |old(admittedCalls)| < maxCalls
      ensures admittedCalls == old(admittedCalls) + (if admitted then {cid} else {})
      ensures |admittedCalls| <= maxCalls && admittedCalls == admissionStart
    {
      if cid in admittedCalls {
        assert old(admittedCalls) + {cid} == old(admittedCalls);
        return true;
      }
      if |admittedCalls| >= maxCalls { return false; }
      admittedCalls := admittedCalls + {cid};
      admissionStart := admissionStart + {cid};
      admitted := true;
    }

    method ReleaseAdmission(cid: nat)
      modifies this`admittedCalls, this`admissionStart
      ensures HeldSlots() == Release(old(HeldSlots()), cid)
    {
      admittedCalls := admittedCalls - {cid};
      admissionStart := admissionStart - {cid};
    }

    method RegisterCall(cid: nat, session: nat, timer: bool, context: bool)
      modifies this`callSessions, this`sinks, this`callInfo, this`sessionTimers
      ensures CallEntries() == Enter(old(CallEntries()), cid, session, timer, context)
    {
      sinks := sinks[cid := session];
      callSessions := callSessions[cid := session];
      if timer { sessionTimers := sessionTimers[cid := session]; }
      if context { callInfo := callInfo[cid := Info(false, Some(session))]; }
    }

    /** The watchdog of a superseded call is cancelled before the new one is armed. */
    method ArmMaxDurationTimer(cid: nat, session: nat, timer: nat)
      modifies this`maxDurationTimers, this`sleepingTimers
      ensures Watchdogs() == ArmCap(old(Watchdogs()), cid, session, timer)
    {
      if cid in maxDurationTimers { sleepingTimers := sleepingTimers - {maxDurationTimers[cid].timer}; }
      maxDurationTimers := maxDurationTimers[cid := Cap(timer, session)];
      sleepingTimers := sleepingTimers[timer := Watch(cid, session)];
    }

    method CancelMaxDurationTimer(cid: nat, session: nat)
      modifies this`maxDurationTimers, this`sleepingTimers
      ensures Watchdogs() == DisarmCap(old(Watchdogs()), cid, session)
    {
      if cid !in maxDurationTimers || maxDurationTimers[cid].session != session { return; }
      sleepingTimers := sleepingTimers - {maxDurationTimers[cid].timer};
      maxDurationTimers := maxDurationTimers - {cid};
    }

    method FlagCallEnded(cid: nat)
      modifies this`callInfo
      ensures CallEntries() == FlagEnded(old(CallEntries()), cid)
    {
      callInfo := callInfo[cid := Info(true, if cid in callInfo then callInfo[cid].owner else None)];
    }

    /** Loop, engine and confirmation go together, and only with the loop they belong to. */
    method DropLoop(cid: nat, t: nat, loopReturned: bool)
      modifies this`callLoops, this`callEngines, this`dtmfConfirmations
      ensures CallVoice() == DropVoice(old(CallVoice()), cid, t, loopReturned)
    {
      if !loopReturned || (cid in callLoops && callLoops[cid] == t) {
        callLoops := callLoops - {cid};
        callEngines := callEngines - {cid};
        dtmfConfirmations := dtmfConfirmations - {cid};
      }
    }

    method DropCall(cid: nat, t: nat, hasSession: bool)
      modifies this`callSessions, this`durationExceeded, this`sinks
      ensures CallEntries() == DropEntries(old(CallEntries()), cid, t, hasSession)
    {
      if !hasSession || (cid in callSessions && callSessions[cid] == t) { callSessions := callSessions - {cid}; }
      if hasSession && cid in durationExceeded && durationExceeded[cid] == t {
        durationExceeded := durationExceeded - {cid};
      }
      if !hasSession || (cid in sinks && sinks[cid] == t) { sinks := sinks - {cid}; }
    }

    /** The last segment of a teardown by task `t`, whose session and loop are named after it. */
    method FinishTeardown(cid: nat, t: nat, hasSession: bool, loopReturned: bool, current: bool)
      modifies this
      ensures HeldSlots() == if current then Release(old(HeldSlots()), cid) else old(HeldSlots())
      ensures CallVoice() == DropVoice(old(CallVoice()), cid, t, loopReturned)
      ensures CallEntries() == DropEntries(old(CallEntries()), cid, t, hasSession)
      ensures Watchdogs() == old(Watchdogs())
    {
      hide DropVoice, DropEntries, Release;
      if current { ReleaseAdmission(cid); }
      DropLoop(cid, t, loopReturned);
      DropCall(cid, t, hasSession);
    }
  }
}
