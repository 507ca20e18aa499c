/**
  Admission, the Call-ID-keyed registries and the one teardown of inbound calls, with any
  number of handler tasks at once, several of them for one Call-ID (a retransmitted or a
  forked INVITE).

  A task is named by a number, and so is the session, the loop and the engine it makes.  A
  teardown that finds itself current walks through its awaits, where other tasks may run;
  one that finds itself superseded does all it does to the registries in one go.
*/
module CallRegistry {
  import opened Wrappers

  datatype Pc =
    | Setup                             // a slot is reserved, media is being set up
    | Live                              // the session is registered
    | Looping                           // its CallLoop runs
    | CancellingTimer(hadEnded: bool)   // in the teardown, current
    | CancellingCap(hadEnded: bool)
    | Signalling
    | HangingUp
    | Over

  datatype Task = Task(cid: nat, hasSession: bool, loopReturned: bool, pc: Pc)

  datatype Info = Info(ended: bool, owner: Option<nat>)

  datatype Cap = Cap(timer: nat, session: nat)

  datatype Watch = Watch(cid: nat, session: nat)

  /** The reserved Call-IDs, and those with an admission stamp. */
  datatype Slots = Slots(admitted: set<nat>, stamped: set<nat>)

  /** What is kept by Call-ID, naming the session it belongs to. */
  datatype Entries = Entries(
    sessions: map<nat, nat>,
    sinks: map<nat, nat>,
    info: map<nat, Info>,
    timers: map<nat, nat>,              // session-timer watchdogs
    marks: map<nat, nat>)               // sessions over their maximum

  /** What lives and dies with a CallLoop. */
  datatype Voice = Voice(loops: map<nat, nat>, engines: map<nat, nat>, confirmations: map<nat, nat>)

  /** The max-duration watchdogs: by Call-ID, and those that have not fired. */
  datatype Dogs = Dogs(caps: map<nat, Cap>, asleep: map<nat, Watch>)

  datatype State = State(
    maxCalls: nat,
    slots: Slots,
    entries: Entries,
    voice: Voice,
    dogs: Dogs,
    tasks: map<nat, Task>,
    overdue: set<nat>,                  // sessions hung up by their watchdog
    labelled: set<nat>,                 // sessions whose end was classified MAX_CALL_DURATION
    signals: multiset<nat>,             // end signals, by session
    ended: set<nat>,
    next: nat)

  datatype Event =
    | Invite(cid: nat)
    | SetupFails(task: nat)             // 488, peer ended, or any exception
    | SetupOk(task: nat, built: bool, timer: bool, context: bool)
    | RegisterRaises(task: nat)
    | LoopStarts(task: nat, capped: bool, dtmf: bool)
    | Ends(task: nat, clean: bool)      // the loop returned or raised, or never started
    | Tear(task: nat)                   // the teardown's await returns
    | TearRestarts(task: nat)           // cancelled in its await, and run again by the outer finally
    | TearCancelled(task: nat)
    | CapFires(watchdog: nat)
    | CapDone(watchdog: nat)
    | SessionEnds(session: nat)

  function Begin(maxCalls: nat): State {
    State(maxCalls, Slots({}, {}), Entries(map[], map[], map[], map[], map[]), Voice(map[], map[], map[]),
          Dogs(map[], map[]), map[], {}, {}, multiset{}, {}, 0)
  }

  predicate Has(m: map<nat, nat>, c: nat, v: nat) { c in m && m[c] == v }

  function SetPc(s: State, t: nat, pc: Pc): State
    requires t in s.tasks
  {
    s.(tasks := s.tasks[t := s.tasks[t].(pc := pc)])
  }

  function Release(slots: Slots, c: nat): Slots { Slots(slots.admitted - {c}, slots.stamped - {c}) }

  function InviteStep(s: State, c: nat): State {
    if c in s.slots.admitted || |s.slots.admitted| < s.maxCalls
    then
      var stamped := if c in s.slots.admitted then s.slots.stamped else s.slots.stamped + {c};
      s.(slots := Slots(s.slots.admitted + {c}, stamped),
         tasks := s.tasks[s.next := Task(c, false, false, Setup)], next := s.next + 1)
    else s
  }

  function DropVoice(v: Voice, c: nat, t: nat, loopReturned: bool): Voice {
    if loopReturned && !Has(v.loops, c, t) then v
    else Voice(v.loops - {c}, v.engines - {c}, v.confirmations - {c})
  }

  /** Without a session of its own a teardown drops whatever session and sink it finds. */
  function DropEntries(e: Entries, c: nat, t: nat, hasSession: bool): Entries {
    e.(sessions := if !hasSession || Has(e.sessions, c, t) then e.sessions - {c} else e.sessions,
       marks := if hasSession && Has(e.marks, c, t) then e.marks - {c} else e.marks,
       sinks := if !hasSession || Has(e.sinks, c, t) then e.sinks - {c} else e.sinks)
  }

  /** The last segment of a teardown: release what is held, drop what is still its own. */
  function Finish(s: State, t: nat, current: bool): State
    requires t in s.tasks
  {
    var task := s.tasks[t];
    SetPc(s, t, Over).(slots := if current then Release(s.slots, task.cid) else s.slots,
                       entries := DropEntries(s.entries, task.cid, t, task.hasSession),
                       voice := DropVoice(s.voice, task.cid, t, task.loopReturned))
  }

  predicate Current(e: Entries, task: Task, t: nat) { !task.hasSession || Has(e.sessions, task.cid, t) }

  predicate FlaggedEnded(e: Entries, c: nat) { c in e.info && e.info[c].ended }

  function BeginTeardown(s: State, t: nat): State
    requires t in s.tasks
  {
    var c := s.tasks[t].cid;
    if Current(s.entries, s.tasks[t], t)
    then SetPc(s, t, CancellingTimer(FlaggedEnded(s.entries, c))).(
           entries := s.entries.(timers := s.entries.timers - {c}))
    else Finish(s, t, false)
  }

  function DisarmCap(d: Dogs, c: nat, session: nat): Dogs {
    if c in d.caps && d.caps[c].session == session then Dogs(d.caps - {c}, d.asleep - {d.caps[c].timer}) else d
  }

  function FlagEnded(e: Entries, c: nat): Entries {
    e.(info := e.info[c := Info(true, if c in e.info then e.info[c].owner else None)])
  }

  function TearStep(s: State, t: nat): State
    requires t in s.tasks
  {
    var task := s.tasks[t];
    match task.pc
    case CancellingTimer(hadEnded) =>
      SetPc(s, t, CancellingCap(hadEnded)).(dogs := if task.hasSession then DisarmCap(s.dogs, task.cid, t) else s.dogs)
    case CancellingCap(hadEnded) =>
      SetPc(s, t, Signalling).(entries := FlagEnded(s.entries, task.cid),
                               signals := if hadEnded then s.signals else s.signals + multiset{t})
    case Signalling => SetPc(s, t, HangingUp)
    case HangingUp => Finish(s, t, true)
    case _ => s
  }

  function Enter(e: Entries, c: nat, t: nat, timer: bool, context: bool): Entries {
    Entries(e.sessions[c := t], e.sinks[c := t], if context then e.info[c := Info(false, Some(t))] else e.info,
            if timer then e.timers[c := t] else e.timers, e.marks)
  }

  /** Session, routes, timer and info go in together; a context that cannot be read ends the call at once. */
  function Register(s: State, t: nat, timer: bool, context: bool): State
    requires t in s.tasks
  {
    var u := s.(tasks := s.tasks[t := s.tasks[t].(hasSession := true, pc := Live)],
                entries := Enter(s.entries, s.tasks[t].cid, t, timer, context));
    if context then u else BeginTeardown(u, t)
  }

  function ArmCap(d: Dogs, c: nat, session: nat, timer: nat): Dogs {
    var awake := if c in d.caps then d.asleep - {d.caps[c].timer} else d.asleep;
    Dogs(d.caps[c := Cap(timer, session)], awake[timer := Watch(c, session)])
  }

  /** The loop goes into the registries, and a watchdog is bound to whatever session is registered. */
  function StartLoop(s: State, t: nat, capped: bool, dtmf: bool): State
    requires t in s.tasks
  {
    var c, v := s.tasks[t].cid, s.voice;
    var arms := capped && c in s.entries.sessions;
    SetPc(s, t, Looping).(
      voice := Voice(v.loops[c := t], v.engines[c := t], if dtmf then v.confirmations[c := t] else v.confirmations),
      dogs := if arms then ArmCap(s.dogs, c, s.entries.sessions[c], s.next) else s.dogs,
      next := s.next + 1)
  }

  function EndStep(s: State, t: nat, clean: bool): State
    requires t in s.tasks
  {
    var task := s.tasks[t];
    BeginTeardown(s.(tasks := s.tasks[t := task.(loopReturned := task.pc.Looping? && clean)],
                     labelled := if Has(s.entries.marks, task.cid, t) then s.labelled + {t} else s.labelled), t)
  }

  /** The watchdog fires: it acts only while its own session is the registered, live one. */
  function FireStep(s: State, w: nat): State
    requires w in s.dogs.asleep
  {
    var watch := s.dogs.asleep[w];
    var u := s.(dogs := s.dogs.(asleep := s.dogs.asleep - {w}));
    if watch.session in s.ended || !Has(s.entries.sessions, watch.cid, watch.session) then u
    else
      u.(entries := s.entries.(marks := s.entries.marks[watch.cid := watch.session]),
         overdue := s.overdue + {watch.session}, ended := s.ended + {watch.session})
  }

  predicate Tearing(pc: Pc) { pc.CancellingTimer? || pc.CancellingCap? || pc.Signalling? || pc.HangingUp? }

  /** A step of a handler task. That a teardown hangs up its session is a SessionEnds of its own. */
  function TaskStep(s: State, e: Event): State
    requires OfTask(e) && e.task in s.tasks
  {
    var t, pc := e.task, s.tasks[e.task].pc;
    match e
    case SetupFails(_) => if pc.Setup? then SetPc(s, t, Over).(slots := Release(s.slots, s.tasks[t].cid)) else s
    case SetupOk(_, built, timer, context) =>
      if !pc.Setup? then s else if built then Register(s, t, timer, context) else BeginTeardown(s, t)
    case RegisterRaises(_) =>
      if pc.Setup? then BeginTeardown(s.(tasks := s.tasks[t := s.tasks[t].(hasSession := true)]), t) else s
    case LoopStarts(_, capped, dtmf) => if pc.Live? then StartLoop(s, t, capped, dtmf) else s
    case Ends(_, clean) => if pc.Live? || pc.Looping? then EndStep(s, t, clean) else s
    case Tear(_) => TearStep(s, t)
    case TearRestarts(_) => if Tearing(pc) && s.tasks[t].hasSession then BeginTeardown(s, t) else s
    case TearCancelled(_) => if Tearing(pc) then SetPc(s, t, Over) else s
    case _ => s
  }

  predicate OfTask(e: Event) {
    e.SetupFails? || e.SetupOk? || e.RegisterRaises? || e.LoopStarts? || e.Ends? || e.Tear? || e.TearRestarts?
    || e.TearCancelled?
  }

  function OtherStep(s: State, e: Event): State {
    match e
    case Invite(c) => InviteStep(s, c)
    case CapFires(w) => if w in s.dogs.asleep then FireStep(s, w) else s
    case CapDone(w) =>
      s.(dogs := s.dogs.(caps := map c | c in s.dogs.caps && s.dogs.caps[c].timer != w :: s.dogs.caps[c]))
    case SessionEnds(id) => s.(ended := s.ended + {id})
    case _ => s
  }

  function Step(s: State, e: Event): State {
    if !OfTask(e) then OtherStep(s, e) else if e.task in s.tasks then TaskStep(s, e) else s
  }

  function Run(s: State, trace: seq<Event>): State
    decreases |trace|
  {
    if trace == [] then s else Run(Step(s, trace[0]), trace[1..])
  }

  // --- the cap ---------------------------------------------------------------------------

  predicate CapHeld(s: State) { |s.slots.admitted| <= s.maxCalls && s.slots.admitted == s.slots.stamped }

  lemma BeginTeardownSlots(s: State, t: nat)
    requires t in s.tasks
    ensures var u := BeginTeardown(s, t);
            u.slots == s.slots && u.maxCalls == s.maxCalls
  {
  }

  /** A task's step keeps the slots, or gives the one of its own Call-ID back. */
  lemma TaskSlots(s: State, e: Event)
    requires OfTask(e) && e.task in s.tasks
    ensures var u := TaskStep(s, e);
            u.maxCalls == s.maxCalls && (u.slots == s.slots || u.slots == Release(s.slots, s.tasks[e.task].cid))
  {
    hide BeginTeardown, DropEntries, DropVoice;
    forall u: State | e.task in u.tasks
      ensures BeginTeardown(u, e.task).slots == u.slots && BeginTeardown(u, e.task).maxCalls == u.maxCalls
    {
      BeginTeardownSlots(u, e.task);
    }
  }

  lemma StepCaps(s: State, e: Event)
    requires CapHeld(s)
    ensures CapHeld(Step(s, e)) && Step(s, e).maxCalls == s.maxCalls
  {
    if OfTask(e) {
      if e.task in s.tasks {
        TaskSlots(s, e);
        hide TaskStep;
        FewerSlots(s.slots.admitted, s.tasks[e.task].cid);
      }
    }
  }

  lemma FewerSlots(admitted: set<nat>, c: nat)
    ensures |admitted - {c}| <= |admitted|
  {
    if c in admitted { assert admitted == (admitted - {c}) + {c}; } else { assert admitted - {c} == admitted; }
  }

  lemma {:induction false} RunCaps(s: State, trace: seq<Event>)
    requires CapHeld(s)
    ensures CapHeld(Run(s, trace)) && Run(s, trace).maxCalls == s.maxCalls
    decreases |trace|
  {
    if trace != [] {
      hide Step;
      StepCaps(s, trace[0]);
      RunCaps(Step(s, trace[0]), trace[1..]);
    }
  }

  // --- no slot leaks -------------------------------------------------------------------------

  /** The task will give the slot of its Call-ID back, if nobody takes that over from it. */
  predicate Answers(s: State, t: nat)
    requires t in s.tasks
  {
    var pc := s.tasks[t].pc;
    pc.Setup? || (!pc.Over? && Current(s.entries, s.tasks[t], t))
  }

  ghost predicate Held(s: State, c: nat) { exists t :: t in s.tasks && s.tasks[t].cid == c && Answers(s, t) }

  predicate Fresh(s: State) {
    forall t :: t in s.tasks ==> t < s.next && (s.tasks[t].pc.Setup? ==> !s.tasks[t].hasSession)
  }

  ghost predicate SlotsHeld(s: State) { Fresh(s) && forall c :: c in s.slots.admitted ==> Held(s, c) }

  predicate Breaks(e: Event) { e.RegisterRaises? || e.TearCancelled? }

  /** A task's step leaves the other tasks alone, and hands its slot on or back. */
  predicate HandsOn(s: State, t: nat, u: State)
    requires t in s.tasks
  {
    var c := s.tasks[t].cid;
    && u.tasks.Keys == s.tasks.Keys && s.next <= u.next
    && (forall w :: w in s.tasks && w != t ==> u.tasks[w] == s.tasks[w])
    && u.tasks[t].cid == c && (u.tasks[t].pc.Setup? ==> s.tasks[t].pc.Setup? && u.tasks[t] == s.tasks[t])
    && (|| (u.slots == Release(s.slots, c)
            && (u.entries.sessions == s.entries.sessions || u.entries.sessions == s.entries.sessions - {c}))
        || (u.slots == s.slots && u.entries.sessions == s.entries.sessions[c := t] && Answers(u, t))
        || (u.slots == s.slots && u.entries.sessions == s.entries.sessions && (Answers(s, t) ==> Answers(u, t))))
  }

  lemma FinishHandsOn(s: State, t: nat)
    requires t in s.tasks
    ensures HandsOn(s, t, Finish(s, t, true))
    ensures !Answers(s, t) && !Current(s.entries, s.tasks[t], t) ==> HandsOn(s, t, Finish(s, t, false))
  {
  }

  lemma BeginHandsOn(s: State, t: nat)
    requires t in s.tasks && !s.tasks[t].pc.Setup?
    ensures HandsOn(s, t, BeginTeardown(s, t))
  {
    FinishHandsOn(s, t);
    hide Finish;
  }

  lemma RegisterHandsOn(s: State, t: nat, timer: bool, context: bool)
    requires t in s.tasks
    ensures HandsOn(s, t, Register(s, t, timer, context))
  {
    hide Finish;
  }

  lemma EndHandsOn(s: State, t: nat, clean: bool)
    requires t in s.tasks && !s.tasks[t].pc.Setup? && !s.tasks[t].pc.Over?
    ensures HandsOn(s, t, EndStep(s, t, clean))
  {
  }

  lemma TearHandsOn(s: State, t: nat)
    requires t in s.tasks
    ensures HandsOn(s, t, TearStep(s, t))
  {
    if s.tasks[t].pc.HangingUp? {
      FinishHandsOn(s, t);
      hide HandsOn;
    } else {
      hide Finish, DisarmCap;
    }
  }

  lemma TaskHandsOn(s: State, e: Event)
    requires OfTask(e) && e.task in s.tasks && !Breaks(e) && Fresh(s)
    ensures HandsOn(s, e.task, TaskStep(s, e))
  {
    var t, pc := e.task, s.tasks[e.task].pc;
    hide Finish, BeginTeardown, Register, EndStep, TearStep, ArmCap;
    if e.SetupOk? && pc.Setup? {
      if e.built { RegisterHandsOn(s, t, e.timer, e.context); } else { BeginSessionless(s, t); }
    } else if e.Ends? && (pc.Live? || pc.Looping?) {
      EndHandsOn(s, t, e.clean);
    } else if e.TearRestarts? && Tearing(pc) {
      BeginHandsOn(s, t);
    } else if e.Tear? {
      TearHandsOn(s, t);
    }
  }

  lemma BeginSessionless(s: State, t: nat)
    requires t in s.tasks && !s.tasks[t].hasSession
    ensures HandsOn(s, t, BeginTeardown(s, t))
  {
    hide Finish;
  }

  lemma OtherHolds(s: State, e: Event)
    requires SlotsHeld(s) && !OfTask(e)
    ensures SlotsHeld(OtherStep(s, e))
  {
    if e.Invite? {
      var u := InviteStep(s, e.cid);
      assert u.entries == s.entries && forall t :: t in s.tasks ==> t in u.tasks && u.tasks[t] == s.tasks[t];
      assert u != s ==> Answers(u, s.next);
      forall c | c in s.slots.admitted ensures Held(u, c) {
        var w :| w in s.tasks && s.tasks[w].cid == c && Answers(s, w);
        assert Answers(u, w);
      }
    } else {
      var u := OtherStep(s, e);
      assert u.entries.sessions == s.entries.sessions && u.tasks == s.tasks && u.slots == s.slots;
      assert forall t :: t in s.tasks ==> Answers(u, t) == Answers(s, t);
    }
  }

  lemma StepHolds(s: State, e: Event)
    requires SlotsHeld(s) && !Breaks(e)
    ensures SlotsHeld(Step(s, e))
  {
    if !OfTask(e) {
      OtherHolds(s, e);
    } else if e.task in s.tasks {
      TaskHandsOn(s, e);
      var t, u := e.task, TaskStep(s, e);
      hide TaskStep;
      forall c | c in u.slots.admitted ensures Held(u, c) {
        var w :| w in s.tasks && s.tasks[w].cid == c && Answers(s, w);
        if !Answers(u, w) { assert Answers(u, t); }
      }
    }
  }

  lemma {:induction false} RunHolds(s: State, trace: seq<Event>)
    requires SlotsHeld(s) && forall i :: 0 <= i < |trace| ==> !Breaks(trace[i])
    ensures SlotsHeld(Run(s, trace))
    decreases |trace|
  {
    if trace != [] {
      hide SlotsHeld, Step;
      assert !Breaks(trace[0]);
      StepHolds(s, trace[0]);
      RunHolds(Step(s, trace[0]), trace[1..]);
    }
  }

  /**
    At most maxCalls slots are ever held, each with its stamp; and once every task for a
    Call-ID is at the end of its exit path that Call-ID holds none, given that a route
    registration does not raise and no teardown is cancelled.
  */
  lemma AdmissionConserved(maxCalls: nat, trace: seq<Event>, c: nat)
    requires forall i :: 0 <= i < |trace| ==> !Breaks(trace[i])
    requires forall t :: t in Run(Begin(maxCalls), trace).tasks && Run(Begin(maxCalls), trace).tasks[t].cid == c ==>
               Run(Begin(maxCalls), trace).tasks[t].pc.Over?
    ensures var s := Run(Begin(maxCalls), trace);
            |s.slots.admitted| <= maxCalls && s.slots.admitted == s.slots.stamped && c !in s.slots.admitted
  {
    RunCaps(Begin(maxCalls), trace);
    RunHolds(Begin(maxCalls), trace);
  }

  /** The assumption is needed: a registration that raises leaves the slot taken for good. */
  lemma RaisedRegistrationLeaks(maxCalls: nat, c: nat)
    requires maxCalls > 0
    ensures var s := Run(Begin(maxCalls), [Invite(c), RegisterRaises(0)]);
            c in s.slots.admitted && s.tasks.Keys == {0} && s.tasks[0].pc.Over?
  {
    var s1 := Step(Begin(maxCalls), Invite(c));
    var s2 := Step(s1, RegisterRaises(0));
    assert Run(Begin(maxCalls), [Invite(c), RegisterRaises(0)]) == s2 by {
      assert [Invite(c), RegisterRaises(0)][1..][1..] == [];
      assert Run(s2, []) == s2;
    }
  }

  /** ... and so does a teardown that is cancelled and not run again. */
  lemma CancelledTeardownLeaks(maxCalls: nat, c: nat)
    requires maxCalls > 0
    ensures var s := Run(Begin(maxCalls), [Invite(c), SetupOk(0, true, true, true), Ends(0, true), TearCancelled(0)]);
            c in s.slots.admitted && s.tasks.Keys == {0} && s.tasks[0].pc.Over?
  {
    var s3 := Step(Step(Step(Begin(maxCalls), Invite(c)), SetupOk(0, true, true, true)), Ends(0, true));
    assert s3.slots.admitted == {c} && s3.tasks == map[0 := Task(c, true, false, CancellingTimer(false))];
    FourSteps(Begin(maxCalls), Invite(c), SetupOk(0, true, true, true), Ends(0, true), TearCancelled(0));
    hide Run;
  }

  lemma FourSteps(s: State, a: Event, b: Event, c: Event, d: Event)
    ensures Run(s, [a, b, c, d]) == Step(Step(Step(Step(s, a), b), c), d)
  {
    hide Step;
    assert [a, b, c, d][1..] == [b, c, d] && [b, c, d][1..] == [c, d] && [c, d][1..] == [d] && [d][1..] == [];
    var s2 := Step(Step(s, a), b);
    assert Run(s, [a, b, c, d]) == Run(s2, [c, d]);
    assert Run(s2, [c, d]) == Run(Step(s2, c), [d]);
  }

  // --- slots and calls -----------------------------------------------------------------------------

  predicate Unfinished(s: State, t: nat) { t in s.tasks && !s.tasks[t].pc.Over? }

  function Calls(s: State): set<nat> { set t | t in s.tasks && Unfinished(s, t) }

  /** An INVITE is taken up only when no task of its Call-ID is still at work. */
  predicate Serial(s: State, trace: seq<Event>)
    decreases |trace|
  {
    trace == []
    || (&& (trace[0].Invite? ==> forall t :: t in s.tasks && s.tasks[t].cid == trace[0].cid ==> !Unfinished(s, t))
        && Serial(Step(s, trace[0]), trace[1..]))
  }

  /** Every unfinished task holds the slot of its Call-ID, and shares it with no other. */
  ghost predicate Served(s: State) {
    && (forall t :: Unfinished(s, t) ==> s.tasks[t].cid in s.slots.admitted)
    && (forall t, w :: Unfinished(s, t) && Unfinished(s, w) && s.tasks[t].cid == s.tasks[w].cid ==> t == w)
  }

  /** A step of one task: the others stay as they are, and giving the slot back is its last. */
  predicate Alone(s: State, t: nat, u: State)
    requires t in s.tasks
  {
    && u.tasks.Keys == s.tasks.Keys
    && (forall w :: w in s.tasks && w != t ==> u.tasks[w] == s.tasks[w])
    && u.tasks[t].cid == s.tasks[t].cid
    && (s.tasks[t].pc.Over? ==> u == s)
    && (u.slots == s.slots || (u.slots == Release(s.slots, s.tasks[t].cid) && u.tasks[t].pc.Over?))
  }

  lemma BeginAlone(s: State, t: nat)
    requires t in s.tasks && !s.tasks[t].pc.Over?
    ensures Alone(s, t, BeginTeardown(s, t)) && BeginTeardown(s, t).slots == s.slots
  {
    hide DropEntries, DropVoice;
  }

  lemma TearAlone(s: State, t: nat)
    requires t in s.tasks
    ensures Alone(s, t, TearStep(s, t))
  {
    hide DropEntries, DropVoice, DisarmCap, FlagEnded;
  }

  /** The task's own record may change before the rest of its step. */
  lemma AloneFrom(s: State, v: State, t: nat, u: State)
    requires t in s.tasks && !s.tasks[t].pc.Over? && t in v.tasks && !v.tasks[t].pc.Over? && Alone(v, t, u)
    requires v.tasks == s.tasks[t := v.tasks[t]] && v.tasks[t].cid == s.tasks[t].cid && v.slots == s.slots
    ensures Alone(s, t, u)
  {
  }

  lemma RegisterAlone(s: State, t: nat, timer: bool, context: bool)
    requires t in s.tasks && s.tasks[t].pc.Setup?
    ensures Alone(s, t, Register(s, t, timer, context))
  {
    hide BeginTeardown, Enter;
    var v := s.(tasks := s.tasks[t := s.tasks[t].(hasSession := true, pc := Live)],
                entries := Enter(s.entries, s.tasks[t].cid, t, timer, context));
    BeginAlone(v, t);
    AloneFrom(s, v, t, BeginTeardown(v, t));
  }

  lemma EndAlone(s: State, t: nat, clean: bool)
    requires t in s.tasks && (s.tasks[t].pc.Live? || s.tasks[t].pc.Looping?)
    ensures Alone(s, t, EndStep(s, t, clean))
  {
    hide BeginTeardown, Alone;
    var task := s.tasks[t];
    var v := s.(tasks := s.tasks[t := task.(loopReturned := task.pc.Looping? && clean)],
                labelled := if Has(s.entries.marks, task.cid, t) then s.labelled + {t} else s.labelled);
    BeginAlone(v, t);
    AloneFrom(s, v, t, BeginTeardown(v, t));
  }

  lemma RaiseAlone(s: State, t: nat)
    requires t in s.tasks && s.tasks[t].pc.Setup?
    ensures Alone(s, t, BeginTeardown(s.(tasks := s.tasks[t := s.tasks[t].(hasSession := true)]), t))
  {
    hide BeginTeardown, Alone;
    var v := s.(tasks := s.tasks[t := s.tasks[t].(hasSession := true)]);
    BeginAlone(v, t);
    AloneFrom(s, v, t, BeginTeardown(v, t));
  }

  lemma ReleaseIsLast(s: State, e: Event)
    requires OfTask(e) && e.task in s.tasks
    ensures Alone(s, e.task, TaskStep(s, e))
  {
    hide BeginTeardown, TearStep, Register, EndStep, ArmCap;
    var t, pc := e.task, s.tasks[e.task].pc;
    match e
    case SetupOk(_, built, timer, context) =>
      if pc.Setup? { RegisterAlone(s, t, timer, context); BeginAlone(s, t); }
    case RegisterRaises(_) => if pc.Setup? { RaiseAlone(s, t); }
    case Ends(_, clean) => if pc.Live? || pc.Looping? { EndAlone(s, t, clean); }
    case Tear(_) => TearAlone(s, t);
    case TearRestarts(_) => if Tearing(pc) { BeginAlone(s, t); }
    case _ =>
  }

  lemma AloneServes(s: State, t: nat, u: State)
    requires Served(s) && t in s.tasks && Alone(s, t, u)
    ensures Served(u)
  {
    forall w | Unfinished(u, w) ensures u.tasks[w].cid in u.slots.admitted {
      assert Unfinished(s, w);
      if u.slots != s.slots { assert Unfinished(s, t); }
    }
    assert forall w :: Unfinished(u, w) ==> Unfinished(s, w) && u.tasks[w].cid == s.tasks[w].cid;
  }

  lemma StepServes(s: State, e: Event)
    requires Served(s)
    requires e.Invite? ==> forall t :: t in s.tasks && s.tasks[t].cid == e.cid ==> !Unfinished(s, t)
    ensures Served(Step(s, e))
  {
    if OfTask(e) && e.task in s.tasks {
      hide TaskStep, Alone, Served;
      ReleaseIsLast(s, e);
      AloneServes(s, e.task, TaskStep(s, e));
    }
  }

  lemma {:induction false} RunServes(s: State, trace: seq<Event>)
    requires Served(s) && Serial(s, trace)
    ensures Served(Run(s, trace))
    decreases |trace|
  {
    if trace != [] {
      hide Served, Step;
      StepServes(s, trace[0]);
      RunServes(Step(s, trace[0]), trace[1..]);
    }
  }

  lemma {:induction false} NoMoreThan(s: State, calls: set<nat>, slots: set<nat>)
    requires forall t :: t in calls ==> t in s.tasks && s.tasks[t].cid in slots
    requires forall t, w :: t in calls && w in calls && s.tasks[t].cid == s.tasks[w].cid ==> t == w
    ensures |calls| <= |slots|
  {
    if calls != {} {
      var t :| t in calls;
      NoMoreThan(s, calls - {t}, slots - {s.tasks[t].cid});
    }
  }

  /** The cap on slots is one on calls when no INVITE is taken up beside an unfinished task of its Call-ID. */
  lemma SerialCallsCapped(maxCalls: nat, trace: seq<Event>)
    requires Serial(Begin(maxCalls), trace)
    ensures var s := Run(Begin(maxCalls), trace);
            && |Calls(s)| <= |s.slots.admitted| <= maxCalls
            && forall t :: t in Calls(s) ==> s.tasks[t].cid in s.slots.admitted
  {
    RunServes(Begin(maxCalls), trace);
    RunCaps(Begin(maxCalls), trace);
    hide Run, Serial;
    var s := Run(Begin(maxCalls), trace);
    NoMoreThan(s, Calls(s), s.slots.admitted);
  }

  /** Beside one it is not: a second INVITE whose setup fails gives the slot of the first call away. */
  lemma OverlapOvercommits(c: nat, d: nat)
    requires c != d
    ensures var s := Run(Begin(1), [Invite(c), SetupOk(0, true, true, true), Invite(c), SetupFails(1), Invite(d),
                                    SetupOk(2, true, true, true)]);
            && {0, 2} <= s.tasks.Keys && s.tasks[0].pc.Live? && s.tasks[2].pc.Live?
            && Has(s.entries.sessions, c, 0) && Has(s.entries.sessions, d, 2) && s.slots.admitted == {d}
  {
    hide Step, Run, Begin;
    var s4 := Step(Step(Step(Step(Begin(1), Invite(c)), SetupOk(0, true, true, true)), Invite(c)), SetupFails(1));
    TwinFails(c);
    var five := [Invite(c), SetupOk(0, true, true, true), Invite(c), SetupFails(1), Invite(d)];
    var last := SetupOk(2, true, true, true);
    FiveSteps(Begin(1), Invite(c), SetupOk(0, true, true, true), Invite(c), SetupFails(1), Invite(d));
    RunAppend(Begin(1), five, last);
    assert five + [last] == [Invite(c), SetupOk(0, true, true, true), Invite(c), SetupFails(1), Invite(d), last];
    NextCall(s4, c, d);
  }

  lemma TwinFails(c: nat)
    ensures var twin := Step(Step(Step(Begin(1), Invite(c)), SetupOk(0, true, true, true)), Invite(c));
            var s := Step(twin, SetupFails(1));
            && s.tasks == map[0 := Task(c, true, false, Live), 1 := Task(c, false, false, Over)] && s.maxCalls == 1
            && s.slots.admitted == {} && s.next == 2 && Has(s.entries.sessions, c, 0)
  {
    var s1 := Step(Begin(1), Invite(c));
    var s2 := Step(s1, SetupOk(0, true, true, true));
    assert s2.tasks == map[0 := Task(c, true, false, Live)] && s2.slots.admitted == {c} && s2.next == 1;
    assert Has(s2.entries.sessions, c, 0) && s2.maxCalls == 1;
    hide BeginTeardown, Register;
    var s3 := Step(s2, Invite(c));
    assert s3.tasks == s2.tasks[1 := Task(c, false, false, Setup)] && s3.slots.admitted == {c};
  }

  lemma NextCall(s: State, c: nat, d: nat)
    requires c != d && s.slots.admitted == {} && s.maxCalls == 1 && s.next == 2 && Has(s.entries.sessions, c, 0)
    requires s.tasks == map[0 := Task(c, true, false, Live), 1 := Task(c, false, false, Over)]
    ensures var u := Step(Step(s, Invite(d)), SetupOk(2, true, true, true));
            && {0, 2} <= u.tasks.Keys && u.tasks[0].pc.Live? && u.tasks[2].pc.Live?
            && Has(u.entries.sessions, c, 0) && Has(u.entries.sessions, d, 2) && u.slots.admitted == {d}
  {
    var t := Step(s, Invite(d));
    assert t.tasks == s.tasks[2 := Task(d, false, false, Setup)] && t.slots.admitted == {d};
  }

  lemma {:induction false} RunAppend(s: State, trace: seq<Event>, e: Event)
    ensures Run(s, trace + [e]) == Step(Run(s, trace), e)
    decreases |trace|
  {
    hide Step;
    if trace == [] {
      assert Run(Step(s, e), []) == Step(s, e);
      assert [] + [e] == [e] && [e][1..] == [];
    } else {
      assert (trace + [e])[1..] == trace[1..] + [e];
      RunAppend(Step(s, trace[0]), trace[1..], e);
    }
  }

  // --- same-Call-ID isolation -------------------------------------------------------------------

  /**
    A registered session leaves the registry only with its own task, with a still newer
    registration, or with the teardown of a task that never had a session.
  */
  lemma EvictedOnlyBy(s: State, e: Event, c: nat, id: nat)
    requires Has(s.entries.sessions, c, id) && !Has(Step(s, e).entries.sessions, c, id)
    ensures OfTask(e) && e.task in s.tasks && s.tasks[e.task].cid == c
    ensures e.task == id || e.SetupOk? || !s.tasks[e.task].hasSession
  {
    hide DropVoice, DisarmCap, ArmCap, BeginTeardown;
    forall u: State | e.task in u.tasks ensures BeginTeardown(u, e.task).entries.sessions == u.entries.sessions {
      BeginKeepsSessions(u, e.task);
    }
  }

  lemma BeginKeepsSessions(s: State, t: nat)
    requires t in s.tasks
    ensures BeginTeardown(s, t).entries.sessions == s.entries.sessions
  {
  }

  /** The teardown of the call that is still registered leaves nothing of it behind. */
  lemma OwnTeardownClears(s: State, t: nat)
    requires t in s.tasks && s.tasks[t].pc.HangingUp? && s.tasks[t].hasSession
    requires Has(s.entries.sessions, s.tasks[t].cid, t) && Has(s.entries.sinks, s.tasks[t].cid, t)
    ensures var c, u := s.tasks[t].cid, Step(s, Tear(t));
            && c !in u.slots.admitted && c !in u.slots.stamped && c !in u.entries.sessions && c !in u.entries.sinks
            && !Has(u.entries.marks, c, t) && u.tasks[t].pc.Over?
            && (c in u.voice.loops ==> s.tasks[t].loopReturned && !Has(s.voice.loops, c, t))
  {
  }

  /** A newer call registers while the older one's teardown is at its first await. */
  lemma SupersededMidTeardown(maxCalls: nat, c: nat)
    requires maxCalls > 0
    ensures var s := Run(Begin(maxCalls), [Invite(c), SetupOk(0, true, true, true), Ends(0, true), Invite(c),
                                           SetupOk(1, true, true, true)]);
            && s.tasks.Keys == {0, 1} && s.tasks[0] == Task(c, true, false, CancellingTimer(false))
            && s.tasks[1].pc.Live? && Superseded(s, 0, 1) && c in s.slots.admitted
  {
    var s1 := Step(Begin(maxCalls), Invite(c));
    var s2 := Step(s1, SetupOk(0, true, true, true));
    var s3 := Step(s2, Ends(0, true));
    assert s3.tasks == map[0 := Task(c, true, false, CancellingTimer(false))] && s3.slots.admitted == {c};
    assert s3.next == 1 && s3.entries.sessions == map[c := 0];
    var s4 := Step(s3, Invite(c));
    FiveSteps(Begin(maxCalls), Invite(c), SetupOk(0, true, true, true), Ends(0, true), Invite(c),
              SetupOk(1, true, true, true));
    assert s4.tasks == s3.tasks[1 := Task(c, false, false, Setup)] && s4.slots.admitted == {c};
    hide Run;
  }

  lemma FiveSteps(s: State, a: Event, b: Event, c: Event, d: Event, e: Event)
    ensures Run(s, [a, b, c, d, e]) == Step(Step(Step(Step(Step(s, a), b), c), d), e)
  {
    hide Step;
    var s1 := Step(s, a);
    var s2 := Step(s1, b);
    var s3 := Step(s2, c);
    assert [a, b, c, d, e][1..] == [b, c, d, e] && [b, c, d, e][1..] == [c, d, e];
    assert [c, d, e][1..] == [d, e] && [d, e][1..] == [e] && [e][1..] == [];
    assert Run(s, [a, b, c, d, e]) == Run(s2, [c, d, e]);
    assert Run(s2, [c, d, e]) == Run(Step(s3, d), [e]);
  }

  /** A newer session is the registered one of the Call-ID of a task that had one of its own. */
  predicate Superseded(s: State, t: nat, newer: nat) {
    && t in s.tasks && t < s.next && s.tasks[t].hasSession && !s.tasks[t].pc.Setup? && newer != t
    && Has(s.entries.sessions, s.tasks[t].cid, newer)
  }

  /** No INVITE for the Call-ID of t is taken up, and no other task of it moves. */
  predicate Calm(s: State, e: Event, t: nat)
    requires t in s.tasks
  {
    && e != Invite(s.tasks[t].cid)
    && (OfTask(e) && e.task in s.tasks && s.tasks[e.task].cid == s.tasks[t].cid ==> e.task == t)
  }

  predicate Quiet(s: State, trace: seq<Event>, t: nat)
    decreases |trace|
  {
    trace == [] || (t in s.tasks && Calm(s, trace[0], t) && Quiet(Step(s, trace[0]), trace[1..], t))
  }

  /** The teardown of t is cancelled in an await, and run again or not. */
  predicate Cuts(s: State, e: Event, t: nat) {
    (e == TearRestarts(t) || e == TearCancelled(t)) && t in s.tasks && Tearing(s.tasks[t].pc)
  }

  /** What cuts the teardown of t short in a run, and the stage it was at. */
  function Cut(s: State, trace: seq<Event>, t: nat): (cut: Option<(Event, Pc)>)
    ensures cut.Some? ==> Tearing(cut.value.1)
    decreases |trace|
  {
    if trace == [] then None
    else if Cuts(s, trace[0], t) then Some((trace[0], s.tasks[t].pc))
    else Cut(Step(s, trace[0]), trace[1..], t)
  }

  /** The stages in which the end is still to be flagged. */
  predicate Flagging(pc: Pc) { pc.CancellingTimer? || pc.CancellingCap? }

  /** What a newer call has in the registries of sinks, session timers and markers stays. */
  predicate SameEntries(s: State, u: State, c: nat, newer: nat) {
    && (Has(u.entries.sinks, c, newer) <==> Has(s.entries.sinks, c, newer))
    && (Has(u.entries.timers, c, newer) <==> Has(s.entries.timers, c, newer))
    && (Has(s.entries.marks, c, newer) ==> Has(u.entries.marks, c, newer))
  }

  /** The next stage of a superseded task, event by event. */
  function NextPc(s: State, e: Event, t: nat): Pc
    requires t in s.tasks
  {
    var pc := s.tasks[t].pc;
    if Cuts(s, e, t) then Over
    else if e == Tear(t) then
      match pc
      case CancellingTimer(hadEnded) => CancellingCap(hadEnded)
      case CancellingCap(_) => Signalling
      case Signalling => HangingUp
      case HangingUp => Over
      case _ => pc
    else if e.Ends? && e.task == t && (pc.Live? || pc.Looping?) then Over
    else if e.LoopStarts? && e.task == t && pc.Live? then Looping
    else pc
  }

  /** What a task of another Call-ID leaves alone. */
  predicate Aside(s: State, u: State, c: nat, t: nat) {
    && t in s.tasks && t in u.tasks && u.tasks[t] == s.tasks[t] && s.next <= u.next
    && u.signals[t] == s.signals[t]
    && (c in u.slots.admitted <==> c in s.slots.admitted)
    && At(u.entries.sessions, c) == At(s.entries.sessions, c) && At(u.entries.sinks, c) == At(s.entries.sinks, c)
    && At(u.entries.timers, c) == At(s.entries.timers, c) && At(u.entries.marks, c) == At(s.entries.marks, c)
    && (FlaggedEnded(u.entries, c) <==> FlaggedEnded(s.entries, c))
    && At(u.voice.loops, c) == At(s.voice.loops, c) && At(u.voice.engines, c) == At(s.voice.engines, c)
  }

  function At(m: map<nat, nat>, c: nat): Option<nat> { if c in m then Some(m[c]) else None }

  lemma FinishAside(s: State, w: nat, current: bool, c: nat, t: nat)
    requires w in s.tasks && s.tasks[w].cid != c && w != t && t in s.tasks
    ensures Aside(s, Finish(s, w, current), c, t)
  {
  }

  lemma BeginAside(s: State, w: nat, c: nat, t: nat)
    requires w in s.tasks && s.tasks[w].cid != c && w != t && t in s.tasks
    ensures Aside(s, BeginTeardown(s, w), c, t)
  {
    FinishAside(s, w, false, c, t);
    hide Finish;
  }

  lemma RegisterAside(s: State, w: nat, timer: bool, context: bool, c: nat, t: nat)
    requires w in s.tasks && s.tasks[w].cid != c && w != t && t in s.tasks
    ensures Aside(s, Register(s, w, timer, context), c, t)
  {
    var u := s.(tasks := s.tasks[w := s.tasks[w].(hasSession := true, pc := Live)],
                entries := Enter(s.entries, s.tasks[w].cid, w, timer, context));
    BeginAside(u, w, c, t);
    hide BeginTeardown;
  }

  lemma EndAside(s: State, w: nat, clean: bool, c: nat, t: nat)
    requires w in s.tasks && s.tasks[w].cid != c && w != t && t in s.tasks
    ensures Aside(s, EndStep(s, w, clean), c, t)
  {
    var task := s.tasks[w];
    BeginAside(s.(tasks := s.tasks[w := task.(loopReturned := task.pc.Looping? && clean)],
                  labelled := if Has(s.entries.marks, task.cid, w) then s.labelled + {w} else s.labelled), w, c, t);
    hide BeginTeardown;
  }

  lemma TearAside(s: State, w: nat, c: nat, t: nat)
    requires w in s.tasks && s.tasks[w].cid != c && w != t && t in s.tasks
    ensures Aside(s, TearStep(s, w), c, t)
  {
    if s.tasks[w].pc.HangingUp? {
      FinishAside(s, w, true, c, t);
      hide Aside, Finish;
    } else {
      hide Finish, DisarmCap;
    }
  }

  lemma TaskAside(s: State, e: Event, c: nat, t: nat)
    requires OfTask(e) && e.task in s.tasks && s.tasks[e.task].cid != c && e.task != t && t in s.tasks
    ensures Aside(s, TaskStep(s, e), c, t)
  {
    hide BeginTeardown, Register, EndStep, TearStep, ArmCap;
    var w := e.task;
    match e
    case SetupOk(_, _, timer, context) =>
      RegisterAside(s, w, timer, context, c, t);
      BeginAside(s, w, c, t);
    case RegisterRaises(_) => BeginAside(s.(tasks := s.tasks[w := s.tasks[w].(hasSession := true)]), w, c, t);
    case Ends(_, clean) => EndAside(s, w, clean, c, t);
    case Tear(_) => TearAside(s, w, c, t);
    case TearRestarts(_) => BeginAside(s, w, c, t);
    case _ =>
  }

  /** What one step, whoever takes it, does to a task that is superseded and to the call that superseded it. */
  predicate Stripped(s: State, u: State, e: Event, t: nat, newer: nat)
    requires t in s.tasks
  {
    var c := s.tasks[t].cid;
    && Superseded(u, t, newer) && u.tasks[t].cid == c && u.tasks[t].pc == NextPc(s, e, t)
    && (c in u.slots.admitted <==> c in s.slots.admitted && !(s.tasks[t].pc.HangingUp? && e == Tear(t)))
    && (FlaggedEnded(u.entries, c) <==>
          FlaggedEnded(s.entries, c) || (s.tasks[t].pc.CancellingCap? && e == Tear(t)))
    && u.signals[t] == s.signals[t] + (if s.tasks[t].pc == CancellingCap(false) && e == Tear(t) then 1 else 0)
    && SameEntries(s, u, c, newer)
  }

  lemma FinishStripped(s: State, t: nat, newer: nat)
    requires Superseded(s, t, newer)
    ensures var u, c := Finish(s, t, true), s.tasks[t].cid;
            && Superseded(u, t, newer) && u.tasks[t].cid == c && u.tasks[t].pc.Over? && c !in u.slots.admitted
            && (FlaggedEnded(u.entries, c) <==> FlaggedEnded(s.entries, c)) && SameEntries(s, u, c, newer)
            && u.signals == s.signals
  {
    hide DropVoice;
  }

  /** A superseded teardown that begins, or begins again, is over in that one step. */
  lemma BeginSpares(s: State, t: nat, newer: nat)
    requires Superseded(s, t, newer)
    ensures var u, c := BeginTeardown(s, t), s.tasks[t].cid;
            && Superseded(u, t, newer) && u.tasks[t].cid == c && u.tasks[t].pc.Over? && u.slots == s.slots
            && (FlaggedEnded(u.entries, c) <==> FlaggedEnded(s.entries, c)) && SameEntries(s, u, c, newer)
            && u.signals == s.signals
  {
    hide DropVoice;
  }

  lemma OwnTear(s: State, t: nat, newer: nat)
    requires Superseded(s, t, newer)
    ensures Stripped(s, TearStep(s, t), Tear(t), t, newer)
  {
    if s.tasks[t].pc.HangingUp? {
      FinishStripped(s, t, newer);
      hide Superseded, SameEntries, FlaggedEnded, Finish;
    } else if s.tasks[t].pc.CancellingCap? {
      assert TearStep(s, t).entries == FlagEnded(s.entries, s.tasks[t].cid);
      hide Finish, DisarmCap;
    } else {
      hide Finish, DisarmCap, FlagEnded, FlaggedEnded;
    }
  }

  lemma OwnEnd(s: State, t: nat, clean: bool, newer: nat)
    requires Superseded(s, t, newer) && (s.tasks[t].pc.Live? || s.tasks[t].pc.Looping?)
    ensures Stripped(s, EndStep(s, t, clean), Ends(t, clean), t, newer)
  {
    hide BeginTeardown, FlaggedEnded;
    var task := s.tasks[t];
    BeginSpares(s.(tasks := s.tasks[t := task.(loopReturned := task.pc.Looping? && clean)],
                   labelled := if Has(s.entries.marks, task.cid, t) then s.labelled + {t} else s.labelled), t, newer);
  }

  lemma OwnStep(s: State, e: Event, t: nat, newer: nat)
    requires Superseded(s, t, newer) && OfTask(e) && e.task == t
    ensures Stripped(s, TaskStep(s, e), e, t, newer)
  {
    hide BeginTeardown, TearStep, EndStep, Register, ArmCap, FlaggedEnded;
    match e
    case Ends(_, clean) => if s.tasks[t].pc.Live? || s.tasks[t].pc.Looping? { OwnEnd(s, t, clean, newer); }
    case Tear(_) => OwnTear(s, t, newer);
    case TearRestarts(_) => BeginSpares(s, t, newer);
    case _ =>
  }

  lemma OtherStripped(s: State, e: Event, t: nat, newer: nat)
    requires Superseded(s, t, newer) && Calm(s, e, t) && !OfTask(e)
    ensures Stripped(s, OtherStep(s, e), e, t, newer)
  {
  }

  lemma AsideStripped(s: State, u: State, e: Event, t: nat, newer: nat)
    requires Superseded(s, t, newer) && OfTask(e) && e.task != t && Aside(s, u, s.tasks[t].cid, t)
    ensures Stripped(s, u, e, t, newer)
  {
  }

  lemma IdleAside(s: State, c: nat, t: nat)
    requires t in s.tasks
    ensures Aside(s, s, c, t)
  {
  }

  lemma QuietStep(s: State, e: Event, t: nat, newer: nat)
    requires Superseded(s, t, newer) && Calm(s, e, t)
    ensures Stripped(s, Step(s, e), e, t, newer)
  {
    hide TaskStep, OtherStep, Stripped, Aside;
    if !OfTask(e) {
      OtherStripped(s, e, t, newer);
    } else if e.task !in s.tasks {
      IdleAside(s, s.tasks[t].cid, t);
      AsideStripped(s, s, e, t, newer);
    } else if e.task == t {
      OwnStep(s, e, t, newer);
    } else {
      TaskAside(s, e, s.tasks[t].cid, t);
      AsideStripped(s, TaskStep(s, e), e, t, newer);
    }
  }

  /** The newer call's loop and engine are in the registries. */
  predicate Speaks(s: State, c: nat, newer: nat) { Has(s.voice.loops, c, newer) && Has(s.voice.engines, c, newer) }

  /** The steps of a superseded task that take a newer call's loop out of the registries. */
  predicate Hushes(s: State, e: Event, t: nat)
    requires t in s.tasks
  {
    var task := s.tasks[t];
    || (e.LoopStarts? && e.task == t && task.pc.Live?)
    || (e.Ends? && e.task == t && (task.pc.Live? || (task.pc.Looping? && !e.clean)))
    || (((e == Tear(t) && task.pc.HangingUp?) || (e == TearRestarts(t) && Tearing(task.pc))) && !task.loopReturned)
  }

  predicate Voiced(s: State, u: State, e: Event, t: nat, newer: nat)
    requires t in s.tasks && t in u.tasks
  {
    var task := s.tasks[t];
    && (Speaks(u, task.cid, newer) <==> Speaks(s, task.cid, newer) && !Hushes(s, e, t))
    && u.tasks[t].loopReturned ==
       (if e.Ends? && e.task == t && (task.pc.Live? || task.pc.Looping?) then task.pc.Looping? && e.clean
        else task.loopReturned)
  }

  lemma FinishVoice(s: State, t: nat, current: bool, newer: nat)
    requires t in s.tasks && newer != t
    ensures var u, c := Finish(s, t, current), s.tasks[t].cid;
            && (Speaks(u, c, newer) <==> Speaks(s, c, newer) && s.tasks[t].loopReturned)
            && t in u.tasks && u.tasks[t].loopReturned == s.tasks[t].loopReturned
  {
    hide DropEntries, Release;
  }

  lemma OwnVoice(s: State, e: Event, t: nat, newer: nat)
    requires Superseded(s, t, newer) && OfTask(e) && e.task == t
    ensures t in TaskStep(s, e).tasks && Voiced(s, TaskStep(s, e), e, t, newer)
  {
    hide Finish, DropEntries, DropVoice, DisarmCap, ArmCap, FlagEnded;
    var task := s.tasks[t];
    FinishVoice(s, t, true, newer);
    FinishVoice(s, t, false, newer);
    if e.Ends? {
      FinishVoice(s.(tasks := s.tasks[t := task.(loopReturned := task.pc.Looping? && e.clean)],
                     labelled := if Has(s.entries.marks, task.cid, t) then s.labelled + {t} else s.labelled),
                  t, false, newer);
    }
  }

  lemma OtherVoice(s: State, e: Event, t: nat, newer: nat)
    requires Superseded(s, t, newer) && Calm(s, e, t) && !OfTask(e)
    ensures t in OtherStep(s, e).tasks && Voiced(s, OtherStep(s, e), e, t, newer)
  {
  }

  lemma AsideVoiced(s: State, u: State, e: Event, t: nat, newer: nat)
    requires t in s.tasks && OfTask(e) && e.task != t && Aside(s, u, s.tasks[t].cid, t)
    ensures t in u.tasks && Voiced(s, u, e, t, newer)
  {
  }

  lemma QuietVoice(s: State, e: Event, t: nat, newer: nat)
    requires Superseded(s, t, newer) && Calm(s, e, t)
    ensures t in Step(s, e).tasks && Voiced(s, Step(s, e), e, t, newer)
  {
    hide TaskStep, OtherStep, Voiced, Aside;
    if !OfTask(e) {
      OtherVoice(s, e, t, newer);
    } else if e.task !in s.tasks {
      IdleAside(s, s.tasks[t].cid, t);
      AsideVoiced(s, s, e, t, newer);
    } else if e.task == t {
      OwnVoice(s, e, t, newer);
    } else {
      TaskAside(s, e, s.tasks[t].cid, t);
      AsideVoiced(s, TaskStep(s, e), e, t, newer);
    }
  }

  /**
    What the end of a superseded task does to the newer call, over every run in which no other
    task of the Call-ID moves and no INVITE of it is taken up.  The newer call stays registered,
    with its sink, session timer and marker.  It loses its slot if and only if the older teardown
    had begun before and nothing cuts it short, and is flagged ended, with a signal if there was
    none before, if and only if that teardown was still to flag and nothing cuts it short first: a
    restart finds itself superseded and is over.
  */
  lemma {:induction false} NewerSparedIff(s: State, trace: seq<Event>, t: nat, newer: nat)
    requires Superseded(s, t, newer) && Quiet(s, trace, t)
    ensures var v, c, pc, cut := Run(s, trace), s.tasks[t].cid, s.tasks[t].pc, Cut(s, trace, t);
            && Superseded(v, t, newer) && v.tasks[t].cid == c && SameEntries(s, v, c, newer)
            && (cut.Some? ==> Tearing(pc) && (Flagging(cut.value.1) ==> Flagging(pc)))
            && (pc.Over? || cut.Some? ==> v.tasks[t].pc.Over?)
            && (v.tasks[t].pc.Over? ==>
                  && (c in v.slots.admitted <==> c in s.slots.admitted && (!Tearing(pc) || cut.Some?))
                  && (FlaggedEnded(v.entries, c) <==>
                        || FlaggedEnded(s.entries, c)
                        || (Flagging(pc) && (cut.None? || !Flagging(cut.value.1))))
                  && v.signals[t] == s.signals[t]
                     + (if Flagging(pc) && !pc.hadEnded && (cut.None? || !Flagging(cut.value.1)) then 1 else 0))
    decreases |trace|
  {
    if trace != [] {
      var u := Step(s, trace[0]);
      QuietStep(s, trace[0], t, newer);
      hide Step, Superseded, FlaggedEnded;
      NewerSparedIff(u, trace[1..], t, newer);
    }
  }

  /**
    ... and it keeps its loop and engine if and only if the older task was past its own loop,
    which had returned, or its teardown was cancelled for good.
  */
  lemma {:induction false} NewerHeardIff(s: State, trace: seq<Event>, t: nat, newer: nat)
    requires Superseded(s, t, newer) && Quiet(s, trace, t)
    requires t in Run(s, trace).tasks && Run(s, trace).tasks[t].pc.Over?
    ensures var v, c, pc, cut := Run(s, trace), s.tasks[t].cid, s.tasks[t].pc, Cut(s, trace, t);
            && (Tearing(pc) || pc.Over? ==> v.tasks[t].loopReturned == s.tasks[t].loopReturned)
            && (cut.Some? ==> Tearing(pc))
            && (Speaks(v, c, newer) <==>
                  && Speaks(s, c, newer)
                  && (|| pc.Over? || (cut.Some? && cut.value.0.TearCancelled?)
                      || (!pc.Live? && v.tasks[t].loopReturned)))
    decreases |trace|
  {
    if trace != [] {
      var u := Step(s, trace[0]);
      QuietStep(s, trace[0], t, newer);
      QuietVoice(s, trace[0], t, newer);
      hide Step, Superseded, FlaggedEnded, SameEntries, Speaks;
      NewerHeardIff(u, trace[1..], t, newer);
    }
  }

  /** Superseded before its teardown began, a task never has one: no slot, flag or signal changes, however it ends. */
  lemma {:induction false} SupersededLeavesAlone(s: State, trace: seq<Event>, t: nat, newer: nat)
    requires Superseded(s, t, newer) && Quiet(s, trace, t) && !Tearing(s.tasks[t].pc)
    ensures var v, c := Run(s, trace), s.tasks[t].cid;
            && t in v.tasks && !Tearing(v.tasks[t].pc)
            && (c in v.slots.admitted <==> c in s.slots.admitted)
            && (FlaggedEnded(v.entries, c) <==> FlaggedEnded(s.entries, c))
            && v.signals[t] == s.signals[t] && Has(v.entries.sessions, c, newer) && SameEntries(s, v, c, newer)
    decreases |trace|
  {
    if trace != [] {
      QuietStep(s, trace[0], t, newer);
      hide Step, FlaggedEnded;
      SupersededLeavesAlone(Step(s, trace[0]), trace[1..], t, newer);
    }
  }

  // --- the newer call's max-duration watchdog -----------------------------------------------------

  /** Each Call-ID has a watchdog of its own, and fresh numbers are not in use. */
  predicate DogsSound(s: State) {
    && (forall c :: c in s.dogs.caps ==> s.dogs.caps[c].timer < s.next)
    && (forall c, d :: c in s.dogs.caps && d in s.dogs.caps && s.dogs.caps[c].timer == s.dogs.caps[d].timer ==> c == d)
  }

  /** A watchdog that has not fired is bound to the session. */
  predicate Guarded(s: State, c: nat, session: nat) {
    c in s.dogs.caps && s.dogs.caps[c].session == session && s.dogs.caps[c].timer in s.dogs.asleep
  }

  /** The watchdog of the Call-ID neither fires nor ends by itself. */
  predicate Unfired(s: State, e: Event, c: nat) {
    c in s.dogs.caps ==> e != CapFires(s.dogs.caps[c].timer) && e != CapDone(s.dogs.caps[c].timer)
  }

  predicate NeverFires(s: State, trace: seq<Event>, c: nat)
    decreases |trace|
  {
    trace == [] || (Unfired(s, trace[0], c) && NeverFires(Step(s, trace[0]), trace[1..], c))
  }

  /** A step but for its watchdogs. */
  predicate DogsKept(s: State, u: State) { u.dogs == s.dogs && s.next <= u.next }

  lemma BeginDogs(s: State, t: nat)
    requires t in s.tasks
    ensures DogsKept(s, BeginTeardown(s, t))
  {
    hide DropEntries, DropVoice;
  }

  /** A new watchdog is bound to the registered session. */
  predicate Arms(s: State, u: State, c: nat) {
    c in s.entries.sessions && u.dogs == ArmCap(s.dogs, c, s.entries.sessions[c], s.next) && u.next == s.next + 1
  }

  /** The three ways the watchdogs change in a task's step. */
  lemma TaskDogs(s: State, e: Event)
    requires OfTask(e) && e.task in s.tasks
    ensures var u, c := TaskStep(s, e), s.tasks[e.task].cid;
            DogsKept(s, u) || Arms(s, u, c) || (u.dogs == DisarmCap(s.dogs, c, e.task) && u.next == s.next && e.Tear?)
  {
    hide BeginTeardown, DropEntries, DropVoice, ArmCap, DisarmCap, FlagEnded;
    forall u: State | e.task in u.tasks ensures DogsKept(u, BeginTeardown(u, e.task)) { BeginDogs(u, e.task); }
  }

  lemma DisarmSound(s: State, u: State, c: nat, t: nat)
    requires DogsSound(s) && u.dogs == DisarmCap(s.dogs, c, t) && u.next == s.next
    ensures DogsSound(u)
    ensures forall d, newer :: Guarded(s, d, newer) && (d == c ==> newer != t) ==> Guarded(u, d, newer)
  {
  }

  lemma ArmSound(s: State, u: State, c: nat, session: nat)
    requires DogsSound(s) && u.dogs == ArmCap(s.dogs, c, session, s.next) && u.next == s.next + 1
    ensures DogsSound(u) && Guarded(u, c, session)
    ensures forall d, newer :: Guarded(s, d, newer) && d != c ==> Guarded(u, d, newer)
  {
  }

  lemma OtherDogs(s: State, e: Event)
    requires DogsSound(s) && !OfTask(e)
    ensures DogsSound(OtherStep(s, e))
    ensures forall c, newer :: Guarded(s, c, newer) && Unfired(s, e, c) ==> Guarded(OtherStep(s, e), c, newer)
  {
  }

  lemma StepDogs(s: State, e: Event)
    requires DogsSound(s)
    ensures DogsSound(Step(s, e))
  {
    if !OfTask(e) {
      OtherDogs(s, e);
    } else if e.task in s.tasks {
      var u, c := TaskStep(s, e), s.tasks[e.task].cid;
      TaskDogs(s, e);
      hide TaskStep, ArmCap, DisarmCap;
      if u.dogs == DisarmCap(s.dogs, c, e.task) && u.next == s.next {
        DisarmSound(s, u, c, e.task);
      } else if Arms(s, u, c) {
        ArmSound(s, u, c, s.entries.sessions[c]);
      }
    }
  }

  lemma QuietDogs(s: State, e: Event, t: nat, newer: nat)
    requires Superseded(s, t, newer) && Calm(s, e, t) && DogsSound(s)
    requires Guarded(s, s.tasks[t].cid, newer) && Unfired(s, e, s.tasks[t].cid)
    ensures Guarded(Step(s, e), s.tasks[t].cid, newer)
  {
    if !OfTask(e) {
      OtherDogs(s, e);
    } else if e.task in s.tasks {
      var u, c := TaskStep(s, e), s.tasks[e.task].cid;
      TaskDogs(s, e);
      hide TaskStep, ArmCap, DisarmCap;
      if u.dogs == DisarmCap(s.dogs, c, e.task) && u.next == s.next {
        DisarmSound(s, u, c, e.task);
      } else if Arms(s, u, c) {
        ArmSound(s, u, c, s.entries.sessions[c]);
      }
    }
  }

  lemma {:induction false} RunDogs(s: State, trace: seq<Event>)
    requires DogsSound(s)
    ensures DogsSound(Run(s, trace))
    decreases |trace|
  {
    if trace != [] {
      hide DogsSound, Step;
      StepDogs(s, trace[0]);
      RunDogs(Step(s, trace[0]), trace[1..]);
    }
  }

  lemma {:induction false} RunGuarded(s: State, trace: seq<Event>, t: nat, newer: nat)
    requires Superseded(s, t, newer) && Quiet(s, trace, t) && DogsSound(s)
    requires Guarded(s, s.tasks[t].cid, newer) && NeverFires(s, trace, s.tasks[t].cid)
    ensures Guarded(Run(s, trace), s.tasks[t].cid, newer)
    decreases |trace|
  {
    if trace != [] {
      QuietStep(s, trace[0], t, newer);
      hide Step, DogsSound, FlaggedEnded, SameEntries, Guarded;
      QuietDogs(s, trace[0], t, newer);
      StepDogs(s, trace[0]);
      RunGuarded(Step(s, trace[0]), trace[1..], t, newer);
    }
  }

  /**
    ... and the newer call keeps a watchdog: in every run, from any state a registry gets into,
    one that is bound to it stays bound until it fires or ends by itself.
  */
  lemma NewerGuarded(maxCalls: nat, before: seq<Event>, trace: seq<Event>, t: nat, newer: nat)
    ensures var s := Run(Begin(maxCalls), before);
            Superseded(s, t, newer) && Quiet(s, trace, t) && Guarded(s, s.tasks[t].cid, newer)
            && NeverFires(s, trace, s.tasks[t].cid) ==>
              Guarded(Run(s, trace), s.tasks[t].cid, newer)
  {
    RunDogs(Begin(maxCalls), before);
    var s := Run(Begin(maxCalls), before);
    hide Run, Quiet, NeverFires, Guarded, DogsSound, Begin;
    if Superseded(s, t, newer) && Quiet(s, trace, t) && Guarded(s, s.tasks[t].cid, newer)
       && NeverFires(s, trace, s.tasks[t].cid)
    {
      RunGuarded(s, trace, t, newer);
    }
  }

  function Stages(pc: Pc): nat {
    match pc
    case CancellingTimer(_) => 4
    case CancellingCap(_) => 3
    case Signalling => 2
    case HangingUp => 1
    case _ => 0
  }

  function Tears(t: nat, n: nat): seq<Event> { if n == 0 then [] else [Tear(t)] + Tears(t, n - 1) }

  /** Left to itself such a teardown ends, from any of its stages, and takes the newer call's slot with it. */
  lemma {:induction false} MidTeardownStrips(s: State, t: nat, newer: nat)
    requires Superseded(s, t, newer) && Tearing(s.tasks[t].pc)
    ensures var v, c := Run(s, Tears(t, Stages(s.tasks[t].pc))), s.tasks[t].cid;
            && t in v.tasks && v.tasks[t].pc.Over? && c !in v.slots.admitted && Has(v.entries.sessions, c, newer)
            && (FlaggedEnded(v.entries, c) <==> FlaggedEnded(s.entries, c) || Flagging(s.tasks[t].pc))
    decreases Stages(s.tasks[t].pc)
  {
    var trace, u := Tears(t, Stages(s.tasks[t].pc)), Step(s, Tear(t));
    QuietStep(s, Tear(t), t, newer);
    assert trace[1..] == Tears(t, Stages(u.tasks[t].pc));
    hide Step, FlaggedEnded;
    if Tearing(u.tasks[t].pc) { MidTeardownStrips(u, t, newer); }
  }

  // --- signals and labels ------------------------------------------------------------------------

  predicate PastSignal(pc: Pc) {
    pc.Signalling? || pc.HangingUp? || pc.Over? || ((pc.CancellingTimer? || pc.CancellingCap?) && pc.hadEnded)
  }

  /** Whoever has signalled is flagged ended for as long as it is the registered session. */
  predicate Signalled(s: State, t: nat) {
    && s.signals[t] <= 1
    && (s.signals[t] == 1 ==>
          && t in s.tasks && PastSignal(s.tasks[t].pc)
          && (Has(s.entries.sessions, s.tasks[t].cid, t) ==> FlaggedEnded(s.entries, s.tasks[t].cid)))
  }

  /** The signal is as good as sent: a second pass of the teardown will find the flag. */
  ghost predicate Settled(s: State, t: nat, u: State)
    requires t in s.tasks
  {
    && t in u.tasks && u.tasks[t].cid == s.tasks[t].cid && u.next >= s.next
    && u.tasks.Keys == s.tasks.Keys
    && (u.tasks[t].pc.Setup? ==> u.tasks[t] == s.tasks[t])
    && (forall w :: w in s.tasks && w != t ==> u.tasks[w] == s.tasks[w] && u.signals[w] == s.signals[w])
    && (Signalled(s, t) ==> Signalled(u, t))
    && (var c := s.tasks[t].cid;
        && (forall d :: d != c && d in s.entries.sessions ==> Has(u.entries.sessions, d, s.entries.sessions[d]))
        && (forall d :: d != c && d in u.entries.sessions ==> d in s.entries.sessions)
        && (forall d :: d != c && FlaggedEnded(s.entries, d) ==> FlaggedEnded(u.entries, d))
        && (forall w :: w != t && Has(u.entries.sessions, c, w) ==>
              Has(s.entries.sessions, c, w) && (FlaggedEnded(s.entries, c) ==> FlaggedEnded(u.entries, c))))
  }

  lemma FinishSettles(s: State, t: nat, current: bool)
    requires t in s.tasks
    ensures Settled(s, t, Finish(s, t, current))
  {
    hide DropVoice;
  }

  lemma BeginSettles(s: State, t: nat)
    requires t in s.tasks && (s.tasks[t].hasSession || s.signals[t] == 0)
    ensures Settled(s, t, BeginTeardown(s, t))
  {
    FinishSettles(s, t, false);
    hide Finish;
  }

  lemma EnterSettles(s: State, t: nat, timer: bool, context: bool)
    requires t in s.tasks && s.tasks[t].pc.Setup?
    ensures Settled(s, t, Register(s, t, timer, context))
  {
    hide Finish;
  }

  lemma EndSettles(s: State, t: nat, clean: bool)
    requires t in s.tasks && (s.tasks[t].pc.Live? || s.tasks[t].pc.Looping?)
    ensures Settled(s, t, EndStep(s, t, clean))
  {
    hide DropVoice;
  }

  lemma TearSettles(s: State, t: nat)
    requires t in s.tasks
    ensures Settled(s, t, TearStep(s, t))
  {
    var pc := s.tasks[t].pc;
    if pc.HangingUp? {
      hide Settled;
      FinishSettles(s, t, true);
    } else if pc.CancellingCap? {
      hide Settled;
      SignalSettles(s, t);
    } else {
      hide Finish, FlagEnded, DisarmCap;
    }
  }

  lemma SignalSettles(s: State, t: nat)
    requires t in s.tasks && s.tasks[t].pc.CancellingCap?
    ensures Settled(s, t, TearStep(s, t))
  {
    assert TearStep(s, t).entries == FlagEnded(s.entries, s.tasks[t].cid);
  }

  lemma RaiseSettles(s: State, t: nat)
    requires t in s.tasks && s.tasks[t].pc.Setup?
    ensures Settled(s, t, BeginTeardown(s.(tasks := s.tasks[t := s.tasks[t].(hasSession := true)]), t))
  {
    hide DropVoice;
  }

  lemma TaskSettles(s: State, e: Event)
    requires OfTask(e) && e.task in s.tasks
    ensures Settled(s, e.task, TaskStep(s, e))
  {
    var t, pc := e.task, s.tasks[e.task].pc;
    hide BeginTeardown, Register, EndStep, TearStep, Finish, ArmCap;
    if e.SetupOk? && pc.Setup? {
      if e.built { EnterSettles(s, t, e.timer, e.context); } else { SessionlessSettles(s, t); }
    } else if e.RegisterRaises? && pc.Setup? {
      RaiseSettles(s, t);
    } else if e.Ends? && (pc.Live? || pc.Looping?) {
      EndSettles(s, t, e.clean);
    } else if e.TearRestarts? && Tearing(pc) && s.tasks[t].hasSession {
      BeginSettles(s, t);
    } else if e.Tear? {
      TearSettles(s, t);
    }
  }

  lemma SessionlessSettles(s: State, t: nat)
    requires t in s.tasks && s.tasks[t].pc.Setup?
    ensures Settled(s, t, BeginTeardown(s, t))
  {
    hide DropVoice;
  }

  ghost predicate SignalInv(s: State) {
    && (forall t :: Signalled(s, t))
    && (forall t :: t in s.tasks ==> t < s.next)
  }

  lemma OtherSignals(s: State, e: Event)
    requires SignalInv(s) && !OfTask(e)
    ensures SignalInv(OtherStep(s, e))
  {
    var u := OtherStep(s, e);
    assert u.signals == s.signals && u.entries.sessions == s.entries.sessions && u.entries.info == s.entries.info;
    forall t ensures Signalled(u, t) { assert Signalled(s, t); }
  }

  lemma StepSignals(s: State, e: Event)
    requires SignalInv(s)
    ensures SignalInv(Step(s, e))
  {
    if !OfTask(e) {
      OtherSignals(s, e);
    } else if e.task in s.tasks {
      TaskSettles(s, e);
      var u := TaskStep(s, e);
      hide TaskStep;
      forall t ensures Signalled(u, t) {
        assert Signalled(s, t);
      }
    }
  }

  lemma {:induction false} RunSignals(s: State, trace: seq<Event>)
    requires SignalInv(s)
    ensures SignalInv(Run(s, trace))
    decreases |trace|
  {
    if trace != [] {
      hide SignalInv, Step;
      StepSignals(s, trace[0]);
      RunSignals(Step(s, trace[0]), trace[1..]);
    }
  }

  /** In every run each session signals its end at most once, even when its teardown runs twice. */
  lemma SignalsOnce(maxCalls: nat, trace: seq<Event>, session: nat)
    ensures Run(Begin(maxCalls), trace).signals[session] <= 1
  {
    RunSignals(Begin(maxCalls), trace);
    assert Signalled(Run(Begin(maxCalls), trace), session);
  }

  /** The markers name sessions their own watchdog has hung up. */
  predicate MarksOwn(s: State) {
    && (forall c :: c in s.entries.marks ==> s.entries.marks[c] in s.overdue)
    && s.labelled <= s.overdue <= s.ended
  }

  /** No marker, and no session hung up or labelled, is new. */
  predicate FewerMarks(s: State, u: State) {
    && (forall c :: c in u.entries.marks ==> c in s.entries.marks && u.entries.marks[c] == s.entries.marks[c])
    && u.overdue == s.overdue && u.ended == s.ended && u.labelled == s.labelled
  }

  lemma BeginFewer(s: State, t: nat)
    requires t in s.tasks
    ensures FewerMarks(s, BeginTeardown(s, t))
  {
    hide DropVoice;
  }

  lemma TearFewer(s: State, t: nat)
    requires t in s.tasks
    ensures FewerMarks(s, TearStep(s, t))
  {
    hide DropVoice, DisarmCap;
  }

  /** A task's step adds at most its own session to the labelled, and that with its marker. */
  lemma TaskMarks(s: State, e: Event)
    requires OfTask(e) && e.task in s.tasks
    ensures var u := TaskStep(s, e);
            FewerMarks(s, u)
            || (u.labelled == s.labelled + {e.task} && FewerMarks(s, u.(labelled := s.labelled))
                && Has(s.entries.marks, s.tasks[e.task].cid, e.task))
  {
    hide BeginTeardown, TearStep, ArmCap;
    forall u: State | e.task in u.tasks ensures FewerMarks(u, BeginTeardown(u, e.task)) { BeginFewer(u, e.task); }
    TearFewer(s, e.task);
  }

  lemma OtherMarks(s: State, e: Event)
    requires MarksOwn(s) && !OfTask(e)
    ensures MarksOwn(OtherStep(s, e))
  {
  }

  lemma StepMarks(s: State, e: Event)
    requires MarksOwn(s)
    ensures MarksOwn(Step(s, e))
  {
    if !OfTask(e) {
      OtherMarks(s, e);
    } else if e.task in s.tasks {
      hide TaskStep;
      TaskMarks(s, e);
    }
  }

  lemma {:induction false} RunMarks(s: State, trace: seq<Event>)
    requires MarksOwn(s)
    ensures MarksOwn(Run(s, trace))
    decreases |trace|
  {
    if trace != [] {
      hide MarksOwn, Step;
      StepMarks(s, trace[0]);
      RunMarks(Step(s, trace[0]), trace[1..]);
    }
  }

  /** Only a session its own watchdog hung up is ever labelled with the exceeded maximum. */
  lemma LabelsOwn(maxCalls: nat, trace: seq<Event>)
    ensures var s := Run(Begin(maxCalls), trace); s.labelled <= s.overdue <= s.ended
  {
    RunMarks(Begin(maxCalls), trace);
  }

  /** ... and a watchdog hangs up nothing but the session it is bound to, while that is the registered, live one. */
  lemma WatchdogOwn(s: State, w: nat)
    requires w in s.dogs.asleep
    ensures var u, bound := Step(s, CapFires(w)), s.dogs.asleep[w].session;
            var fires := bound !in s.ended && Has(s.entries.sessions, s.dogs.asleep[w].cid, bound);
            && u.overdue - s.overdue <= {bound}
            && u.ended == (if fires then s.ended + {bound} else s.ended)
            && (!fires ==> u.entries == s.entries)
            && u.entries.sessions == s.entries.sessions && u.slots == s.slots && u.signals == s.signals
  {
  }

  // --- the whole life of a call ---------------------------------------------------------------------

  /** Nothing of another Call-ID in the registries changes. */
  predicate OthersKept(s: State, u: State, c: nat) {
    && s.slots.admitted - {c} == u.slots.admitted - {c} && s.slots.stamped - {c} == u.slots.stamped - {c}
    && s.entries.sessions - {c} == u.entries.sessions - {c} && s.entries.sinks - {c} == u.entries.sinks - {c}
    && s.entries.info - {c} == u.entries.info - {c} && s.entries.timers - {c} == u.entries.timers - {c}
    && s.entries.marks - {c} == u.entries.marks - {c} && s.voice.loops - {c} == u.voice.loops - {c}
    && s.voice.engines - {c} == u.voice.engines - {c} && s.voice.confirmations - {c} == u.voice.confirmations - {c}
    && s.dogs.caps - {c} == u.dogs.caps - {c}
  }

  /** A registration enters the session, its sink, its info and the timer it negotiated, and takes no slot. */
  lemma RegisterEnters(s: State, t: nat, timer: bool)
    requires t in s.tasks && s.tasks[t].pc.Setup?
    ensures var u, c := Step(s, SetupOk(t, true, timer, true)), s.tasks[t].cid;
            && u.tasks == s.tasks[t := s.tasks[t].(hasSession := true, pc := Live)]
            && Has(u.entries.sessions, c, t) && Has(u.entries.sinks, c, t)
            && c in u.entries.info && u.entries.info[c] == Info(false, Some(t))
            && At(u.entries.timers, c) == (if timer then Some(t) else At(s.entries.timers, c))
            && u.slots == s.slots && u.voice == s.voice && u.dogs == s.dogs && OthersKept(s, u, c)
  {
  }

  /** A loop enters itself, its engine and its confirmations, and binds a watchdog to the registered session. */
  lemma LoopEnters(s: State, t: nat, capped: bool, dtmf: bool)
    requires t in s.tasks && s.tasks[t].pc.Live? && DogsSound(s)
    ensures var u, c := Step(s, LoopStarts(t, capped, dtmf)), s.tasks[t].cid;
            && u.tasks == s.tasks[t := s.tasks[t].(pc := Looping)]
            && Has(u.voice.loops, c, t) && Has(u.voice.engines, c, t)
            && At(u.voice.confirmations, c) == (if dtmf then Some(t) else At(s.voice.confirmations, c))
            && (if capped && c in s.entries.sessions
                then
                  && Guarded(u, c, s.entries.sessions[c])
                  && (c in s.dogs.caps ==> s.dogs.caps[c].timer !in u.dogs.asleep)
                else u.dogs == s.dogs)
            && u.slots == s.slots && u.entries == s.entries && OthersKept(s, u, c)
  {
  }

  /** A watchdog that is over leaves the registry, and a session that is over is known to be. */
  lemma OversKnown(s: State, w: nat, session: nat)
    ensures var u := Step(s, CapDone(w));
            forall c :: c in u.dogs.caps <==> c in s.dogs.caps && s.dogs.caps[c].timer != w
    ensures Step(s, SessionEnds(session)) == s.(ended := s.ended + {session})
  {
  }

  /** What is left of an entry once its owner has dropped it. */
  function Without(m: map<nat, nat>, c: nat, t: nat): Option<nat> { if Has(m, c, t) then None else At(m, c) }

  /** What the last segment of a teardown drops: its own entries, or, without a session, what it finds. */
  predicate EntriesDropped(s: State, v: State, c: nat, t: nat, hasSession: bool) {
    if hasSession then
      && At(v.entries.sessions, c) == Without(s.entries.sessions, c, t)
      && At(v.entries.sinks, c) == Without(s.entries.sinks, c, t)
      && At(v.entries.marks, c) == Without(s.entries.marks, c, t)
    else c !in v.entries.sessions && c !in v.entries.sinks && v.entries.marks == s.entries.marks
  }

  predicate VoiceDropped(s: State, v: State, c: nat, t: nat, loopReturned: bool) {
    if loopReturned && !Has(s.voice.loops, c, t) then v.voice == s.voice
    else c !in v.voice.loops && c !in v.voice.engines && c !in v.voice.confirmations
  }

  /** Its own watchdog is cancelled and gone, and no other is touched. */
  predicate DogDropped(s: State, v: State, c: nat, t: nat) {
    if c in s.dogs.caps && s.dogs.caps[c].session == t
    then c !in v.dogs.caps && v.dogs.asleep == s.dogs.asleep - {s.dogs.caps[c].timer}
    else v.dogs == s.dogs
  }

  /** What a teardown that runs through leaves. */
  predicate TornDown(s: State, v: State, t: nat, hadEnded: bool)
    requires t in s.tasks
  {
    var task, c := s.tasks[t], s.tasks[t].cid;
    && v.tasks == s.tasks[t := task.(pc := Over)]
    && v.slots == Slots(s.slots.admitted - {c}, s.slots.stamped - {c})
    && c in v.entries.info
    && v.entries.info[c] == Info(true, if c in s.entries.info then s.entries.info[c].owner else None)
    && v.entries.timers == s.entries.timers
    && v.signals == (if hadEnded then s.signals else s.signals + multiset{t})
    && v.ended == s.ended && v.labelled == s.labelled && OthersKept(s, v, c)
    && EntriesDropped(s, v, c, t, task.hasSession) && VoiceDropped(s, v, c, t, task.loopReturned)
    && (if task.hasSession then DogDropped(s, v, c, t) else v.dogs == s.dogs)
  }

  lemma FinishTears(s: State, t: nat)
    requires t in s.tasks && s.tasks[t].pc.HangingUp?
    ensures var v, task, c := TearStep(s, t), s.tasks[t], s.tasks[t].cid;
            && v.tasks == s.tasks[t := task.(pc := Over)]
            && v.slots == Slots(s.slots.admitted - {c}, s.slots.stamped - {c})
            && v.entries.info == s.entries.info && v.entries.timers == s.entries.timers
            && v.signals == s.signals && v.dogs == s.dogs
            && v.ended == s.ended && v.labelled == s.labelled && OthersKept(s, v, c)
            && EntriesDropped(s, v, c, t, task.hasSession) && VoiceDropped(s, v, c, t, task.loopReturned)
  {
  }

  lemma MiddleTears(s: State, t: nat, hadEnded: bool)
    requires t in s.tasks && s.tasks[t].pc == CancellingTimer(hadEnded)
    ensures var v, task, c := TearStep(TearStep(TearStep(s, t), t), t), s.tasks[t], s.tasks[t].cid;
            && v.tasks == s.tasks[t := task.(pc := HangingUp)] && v.slots == s.slots && v.voice == s.voice
            && v.entries == FlagEnded(s.entries, c) && v.ended == s.ended && v.labelled == s.labelled
            && v.signals == (if hadEnded then s.signals else s.signals + multiset{t})
            && v.dogs == if task.hasSession then DisarmCap(s.dogs, c, t) else s.dogs
  {
    hide DisarmCap, FlagEnded;
  }

  lemma MiddleKeeps(s: State, u: State, t: nat)
    requires t in s.tasks && u.slots == s.slots && u.voice == s.voice
    requires u.entries == FlagEnded(s.entries, s.tasks[t].cid)
    requires u.dogs == if s.tasks[t].hasSession then DisarmCap(s.dogs, s.tasks[t].cid, t) else s.dogs
    ensures OthersKept(s, u, s.tasks[t].cid)
    ensures if s.tasks[t].hasSession then DogDropped(s, u, s.tasks[t].cid, t) else u.dogs == s.dogs
  {
  }

  lemma TearIsStep(s: State, t: nat)
    requires t in s.tasks
    ensures Step(s, Tear(t)) == TearStep(s, t) && t in TearStep(s, t).tasks
  {
    hide Finish, DisarmCap, FlagEnded;
    if s.tasks[t].pc.HangingUp? { FinishKeepsTasks(s, t); }
  }

  lemma FinishKeepsTasks(s: State, t: nat)
    requires t in s.tasks
    ensures t in Finish(s, t, true).tasks
  {
  }

  lemma TearsUnrolled(t: nat)
    ensures Tears(t, 4) == [Tear(t), Tear(t), Tear(t), Tear(t)]
  {
    assert Tears(t, 1) == [Tear(t)] + [] && Tears(t, 2) == [Tear(t)] + Tears(t, 1);
    assert Tears(t, 3) == [Tear(t)] + Tears(t, 2) && Tears(t, 4) == [Tear(t)] + Tears(t, 3);
  }

  lemma TornFrom(s: State, u: State, v: State, t: nat, hadEnded: bool)
    requires t in s.tasks && u.tasks == s.tasks[t := s.tasks[t].(pc := HangingUp)]
    requires u.slots == s.slots && u.voice == s.voice && u.entries == FlagEnded(s.entries, s.tasks[t].cid)
    requires u.ended == s.ended && u.labelled == s.labelled
    requires u.signals == (if hadEnded then s.signals else s.signals + multiset{t})
    requires u.dogs == if s.tasks[t].hasSession then DisarmCap(s.dogs, s.tasks[t].cid, t) else s.dogs
    requires v == TearStep(u, t)
    ensures TornDown(s, v, t, hadEnded)
  {
    FinishTears(u, t);
    MiddleKeeps(s, u, t);
    hide TearStep, DisarmCap, EntriesDropped, VoiceDropped;
    var c := s.tasks[t].cid;
    assert OthersKept(s, v, c);
    assert v.tasks == s.tasks[t := s.tasks[t].(pc := Over)];
    DroppedFrom(s, u, v, c, t);
  }

  lemma DroppedFrom(s: State, u: State, v: State, c: nat, t: nat)
    requires u.entries.sessions == s.entries.sessions && u.entries.sinks == s.entries.sinks
    requires u.entries.marks == s.entries.marks && u.voice == s.voice
    ensures forall b :: EntriesDropped(u, v, c, t, b) ==> EntriesDropped(s, v, c, t, b)
    ensures forall b :: VoiceDropped(u, v, c, t, b) ==> VoiceDropped(s, v, c, t, b)
  {
  }

  lemma MiddleSteps(s: State, t: nat)
    requires t in s.tasks && s.tasks[t].pc.CancellingTimer?
    ensures Step(Step(Step(s, Tear(t)), Tear(t)), Tear(t)) == TearStep(TearStep(TearStep(s, t), t), t)
  {
    hide DisarmCap, FlagEnded;
  }

  /** A teardown left to itself runs through. */
  lemma TearsRunThrough(s: State, t: nat, hadEnded: bool)
    requires t in s.tasks && s.tasks[t].pc == CancellingTimer(hadEnded)
    ensures TornDown(s, Run(s, Tears(t, 4)), t, hadEnded)
  {
    TearsUnrolled(t);
    MiddleTears(s, t, hadEnded);
    MiddleSteps(s, t);
    hide TearStep, Step, Run, Tears, TornDown, DisarmCap, FlagEnded;
    FourSteps(s, Tear(t), Tear(t), Tear(t), Tear(t));
    var u := Step(Step(Step(s, Tear(t)), Tear(t)), Tear(t));
    TearIsStep(u, t);
    TornFrom(s, u, TearStep(u, t), t, hadEnded);
  }

  /** A call without a session gives its slot back, and drops whatever session and sink it finds. */
  lemma SessionlessTears(s: State, t: nat, timer: bool, context: bool)
    requires t in s.tasks && s.tasks[t].pc.Setup? && !s.tasks[t].hasSession
    ensures var c, u := s.tasks[t].cid, Step(s, SetupOk(t, false, timer, context));
            var v := Run(u, Tears(t, 4));
            && t in v.tasks && v.tasks[t].pc.Over? && c !in v.slots.admitted && c !in v.slots.stamped
            && c !in v.entries.sessions && c !in v.entries.sinks && c !in v.entries.timers && v.dogs == s.dogs
            && OthersKept(s, v, c)
  {
    var u := Step(s, SetupOk(t, false, timer, context));
    var hadEnded := FlaggedEnded(s.entries, s.tasks[t].cid);
    assert u == s.(tasks := s.tasks[t := s.tasks[t].(pc := CancellingTimer(hadEnded))],
                   entries := s.entries.(timers := s.entries.timers - {s.tasks[t].cid}));
    hide Step, Run, Tears, FlaggedEnded;
    TearsRunThrough(u, t, hadEnded);
    hide VoiceDropped;
  }

  /** A registration whose context cannot be read ends the call at once. */
  lemma ContextlessEnds(s: State, t: nat, timer: bool)
    requires t in s.tasks && s.tasks[t].pc.Setup?
    ensures var u, c := Step(s, SetupOk(t, true, timer, false)), s.tasks[t].cid;
            && u.tasks == s.tasks[t := s.tasks[t].(hasSession := true,
                                                   pc := CancellingTimer(FlaggedEnded(s.entries, c)))]
            && Has(u.entries.sessions, c, t) && Has(u.entries.sinks, c, t) && c !in u.entries.timers
            && u.entries.info == s.entries.info && u.slots == s.slots
  {
  }

  lemma EndBegins(s: State, t: nat, clean: bool)
    requires t in s.tasks && s.tasks[t].hasSession && (s.tasks[t].pc.Live? || s.tasks[t].pc.Looping?)
    requires Has(s.entries.sessions, s.tasks[t].cid, t)
    ensures var task, c := s.tasks[t], s.tasks[t].cid;
            Step(s, Ends(t, clean))
            == s.(tasks := s.tasks[t := Task(c, true, task.pc.Looping? && clean,
                                             CancellingTimer(FlaggedEnded(s.entries, c)))],
                  entries := s.entries.(timers := s.entries.timers - {c}),
                  labelled := if Has(s.entries.marks, c, t) then s.labelled + {t} else s.labelled)
  {
  }

  /**
    A call that ends while its session is the registered one leaves nothing behind: its slot, session, sink,
    session timer, watchdog and marker are gone, and its loop with engine and confirmations; its info is
    flagged ended under its owner.  Its end is signalled unless that was flagged before, and labelled exactly
    if its watchdog had marked it.
  */
  lemma CallLeavesNothing(s: State, t: nat, clean: bool)
    requires t in s.tasks && s.tasks[t].hasSession && (s.tasks[t].pc.Live? || s.tasks[t].pc.Looping?)
    requires Has(s.entries.sessions, s.tasks[t].cid, t) && Has(s.entries.sinks, s.tasks[t].cid, t)
    ensures var c, v := s.tasks[t].cid, Run(Step(s, Ends(t, clean)), Tears(t, 4));
            && t in v.tasks && v.tasks[t].pc.Over? && c !in v.slots.admitted && c !in v.slots.stamped
            && c !in v.entries.sessions && c !in v.entries.sinks && c !in v.entries.timers
            && !Has(v.entries.marks, c, t) && !(c in v.dogs.caps && v.dogs.caps[c].session == t)
            && VoiceDropped(s, v, c, t, s.tasks[t].pc.Looping? && clean)
            && c in v.entries.info
            && v.entries.info[c] == Info(true, if c in s.entries.info then s.entries.info[c].owner else None)
            && v.signals == (if FlaggedEnded(s.entries, c) then s.signals else s.signals + multiset{t})
            && v.labelled == (if Has(s.entries.marks, c, t) then s.labelled + {t} else s.labelled)
            && OthersKept(s, v, c)
  {
    EndBegins(s, t, clean);
    var u, c := Step(s, Ends(t, clean)), s.tasks[t].cid;
    hide Step, Run, Tears, FlaggedEnded;
    TearsRunThrough(u, t, FlaggedEnded(s.entries, c));
    var v := Run(u, Tears(t, 4));
    assert VoiceDropped(u, v, c, t, u.tasks[t].loopReturned) ==> VoiceDropped(s, v, c, t, u.tasks[t].loopReturned);
    hide VoiceDropped;
  }
}
