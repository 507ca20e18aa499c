/**
  The armed DTMF confirmation and the blind transfer behind it.  Digits, the expiry timer, a
  failing prompt and cancellations may come in any order, and so may the end of the call, the
  loss of its privilege, and a newer session registered under the same Call-ID.
*/
module DtmfConfirm {
  import opened Wrappers

  const CONFIRM_DIGIT := '1'

  function Upper(c: char): char { if 'a' <= c <= 'z' then ((c as int) - 32) as char else c }

  predicate Keypad(c: char) { Upper(c) in "0123456789*#ABCD" }

  datatype Window =
    | Closed
    | Prompting                     // armed, the prompt is being spoken
    | Awaiting                      // the expiry timer runs

  datatype Outcome = NoCall | Blocked | NoChannel | AlreadyArmed | Unconfirmed | Referred | Raised

  /** One confirmation resolver; futures are named by numbers, in the order of arming. */
  datatype Resolver = Resolver(
    pending: Option<nat>,
    expected: Option<char>,
    results: map<nat, bool>,        // the futures that are done
    window: Window,
    timer: Option<nat>,             // the future an expiry task is about
    next: nat,
    returned: map<nat, bool>)       // what each arming returned

  /** A transfer waiting for its confirmation, and the session that was registered when it asked for it. */
  datatype Waiting = Waiting(arming: nat, asked: nat)

  /** The resolver of one session's keypad, the session registered for its Call-ID, and the transfer waiting. */
  datatype State = State(
    resolver: Resolver,
    keypad: nat,                    // the session whose digits are fed here
    session: nat,                   // the registered one, and how it stands
    live: bool,
    permitted: bool,
    transfer: Option<Waiting>,
    outcomes: seq<Outcome>,
    refers: seq<Refer>)

  /** A REFER as it was sent: what is behind it, the session it went out on, and how that stood then. */
  datatype Refer = Refer(arming: nat, asked: nat, sent: nat, live: bool, permitted: bool)

  function Begin(session: nat, live: bool, permitted: bool): State {
    State(IDLE, session, session, live, permitted, None, [], [])
  }

  datatype Event =
    | Arm(digit: char)              // by another tool
    | TransferCalled(bound: bool)
    | PromptDone
    | PromptFails
    | Feed(digit: char)
    | Expires
    | Wakes                         // the arming whose future is done goes on
    | Cancelled
    | CallEnds
    | SetPermitted(permitted: bool)
    | Replaced(permitted: bool)     // a newer session is registered under the Call-ID

  const IDLE := Resolver(None, None, map[], Closed, None, 0, map[])

  function ArmStep(r: Resolver, digit: char): Resolver {
    if !Keypad(digit) || r.pending.Some? then r
    else r.(pending := Some(r.next), expected := Some(Upper(digit)), window := Prompting, next := r.next + 1)
  }

  /** Every exit goes through here: the timer is cancelled and the window closed. */
  function Disarm(r: Resolver): Resolver { r.(pending := None, expected := None, window := Closed, timer := None) }

  function Resolve(r: Resolver, result: bool): Resolver
    requires r.pending.Some?
  {
    r.(results := r.results[r.pending.value := result])
  }

  predicate Decided(r: Resolver) { r.pending.Some? && r.pending.value in r.results }

  function FeedStep(r: Resolver, digit: char): Resolver {
    if r.pending.None? || Decided(r) then r else Resolve(r, Some(Upper(digit)) == r.expected)
  }

  function ExpireStep(r: Resolver): Resolver {
    if r.timer.None? || r.pending != r.timer then r
    else if Decided(r) then r.(timer := None)
    else Resolve(r, false).(timer := None)
  }

  function Return(r: Resolver): Resolver
    requires Decided(r)
  {
    Disarm(r.(returned := r.returned[r.pending.value := r.results[r.pending.value]]))
  }

  /** The prompt is out: start the timer, and return at once if a digit came during the prompt. */
  function PromptStep(r: Resolver): Resolver {
    if !r.window.Prompting? then r
    else if Decided(r) then Return(r)
    else r.(window := Awaiting, timer := r.pending)
  }

  function ResolverStep(r: Resolver, e: Event): Resolver {
    match e
    case Arm(digit) => ArmStep(r, digit)
    case TransferCalled(_) => ArmStep(r, CONFIRM_DIGIT)
    case PromptDone => PromptStep(r)
    case PromptFails => if r.window.Prompting? then Disarm(r) else r
    case Feed(digit) => FeedStep(r, digit)
    case Expires => ExpireStep(r)
    case Wakes => if r.window.Awaiting? && Decided(r) then Return(r) else r
    case Cancelled => Disarm(r)
    case _ => r
  }

  /** The transfer goes on after its arming returned or raised: check the call again, then REFER. */
  function Confirmed(s: State): State
    requires s.transfer.Some?
  {
    var arming, asked := s.transfer.value.arming, s.transfer.value.asked;
    var t := s.(transfer := None);
    if arming !in t.resolver.returned then t.(outcomes := t.outcomes + [Raised])
    else if !t.resolver.returned[arming] then t.(outcomes := t.outcomes + [Unconfirmed])
    else if !t.live then t.(outcomes := t.outcomes + [NoCall])
    else if !t.permitted then t.(outcomes := t.outcomes + [Blocked])
    else
      t.(outcomes := t.outcomes + [Referred],
         refers := t.refers + [Refer(arming, asked, t.session, t.live, t.permitted)])
  }

  function TransferStart(s: State, bound: bool): State {
    if !s.live then s.(outcomes := s.outcomes + [NoCall])
    else if !s.permitted then s.(outcomes := s.outcomes + [Blocked])
    else if !bound then s.(outcomes := s.outcomes + [NoChannel])
    else if s.resolver.pending.Some? then s.(outcomes := s.outcomes + [AlreadyArmed])
    else s.(resolver := ArmStep(s.resolver, CONFIRM_DIGIT), transfer := Some(Waiting(s.resolver.next, s.session)))
  }

  function Step(s: State, e: Event): State {
    match e
    case TransferCalled(bound) => TransferStart(s, bound)
    case CallEnds => s.(live := false)
    case SetPermitted(p) => s.(permitted := p)
    case Replaced(p) => s.(session := s.session + 1, live := true, permitted := p)
    case _ =>
      var t := s.(resolver := ResolverStep(s.resolver, e));
      if t.transfer.Some? && t.resolver.pending.None? then Confirmed(t) else t
  }

  function Run(s: State, trace: seq<Event>): State
    decreases |trace|
  {
    if trace == [] then s else Run(Step(s, trace[0]), trace[1..])
  }

  // --- the first digit decides ----------------------------------------------------------

  predicate Sound(r: Resolver) {
    && (r.pending.Some? <==> !r.window.Closed?) && (r.pending.Some? <==> r.expected.Some?)
    && (r.pending.Some? ==> r.pending.value < r.next && r.pending.value !in r.returned)
    && (r.timer.Some? ==> r.timer == r.pending && r.window.Awaiting?)
    && (r.window.Awaiting? && !Decided(r) ==> r.timer == r.pending)
    && (forall f :: f in r.results ==> f < r.next) && (forall f :: f in r.returned ==> f < r.next)
  }

  /** Closed windows stay closed: nothing is fed into them, and what they returned is final. */
  predicate Extends(r: Resolver, u: Resolver) {
    && r.next <= u.next
    && (forall f :: f in r.returned ==> f in u.returned && u.returned[f] == r.returned[f])
    && (forall f :: f in u.returned && f !in r.returned ==>
          Some(f) == r.pending && f in u.results && u.returned[f] == u.results[f] && u.pending.None?)
    && (u.pending == r.pending || u.pending.None? || u.pending.value >= r.next)
    && (u.pending == r.pending ==> u.expected == r.expected)
    && (forall f :: f in r.results ==> f in u.results && u.results[f] == r.results[f])
    && (forall f :: f in u.results && f !in r.results ==> Some(f) == r.pending)
  }

  predicate Inv(s: State) {
    && Sound(s.resolver)
    && (s.transfer.Some? ==>
          Some(s.transfer.value.arming) == s.resolver.pending && s.resolver.expected == Some(CONFIRM_DIGIT))
  }

  predicate Later(s: State, t: State) { Inv(t) && Extends(s.resolver, t.resolver) }

  lemma ResolverKeeps(r: Resolver, e: Event)
    requires Sound(r)
    ensures Sound(ResolverStep(r, e)) && Extends(r, ResolverStep(r, e))
    ensures r.pending.Some? ==> ResolverStep(r, e).pending == r.pending || ResolverStep(r, e).pending.None?
  {
  }

  lemma StepKeeps(s: State, e: Event)
    requires Inv(s)
    ensures Later(s, Step(s, e))
  {
    ResolverKeeps(s.resolver, e);
    if e.TransferCalled? { ResolverKeeps(s.resolver, Arm(CONFIRM_DIGIT)); }
    hide ResolverStep;
  }

  /** What this event decides for the open window, if anything: a digit, or the expiry of its timer. */
  function Decision(s: State, e: Event): Option<bool> {
    match e
    case Feed(digit) => Some(Some(Upper(digit)) == s.resolver.expected)
    case Expires => if s.resolver.timer.Some? then Some(false) else None
    case _ => None
  }

  function FirstDecision(s: State, trace: seq<Event>): Option<bool>
    decreases |trace|
  {
    if trace == [] then None
    else
      var d := Decision(s, trace[0]);
      if d.Some? then d else FirstDecision(Step(s, trace[0]), trace[1..])
  }

  function ResultOf(s: State, arming: nat): Option<bool> {
    if arming in s.resolver.results then Some(s.resolver.results[arming]) else None
  }

  lemma StepDecides(s: State, e: Event, arming: nat)
    requires Inv(s) && s.resolver.pending == Some(arming)
    ensures ResultOf(Step(s, e), arming) == if ResultOf(s, arming).Some? then ResultOf(s, arming) else Decision(s, e)
  {
  }

  lemma {:induction false} ClosedStays(s: State, trace: seq<Event>, arming: nat)
    requires Inv(s) && arming < s.resolver.next && s.resolver.pending != Some(arming)
    ensures var t := Run(s, trace);
            && (arming in t.resolver.returned <==> arming in s.resolver.returned)
            && (arming in t.resolver.returned ==> t.resolver.returned[arming] == s.resolver.returned[arming])
            && t.resolver.pending != Some(arming)
    decreases |trace|
  {
    if trace != [] {
      StepKeeps(s, trace[0]);
      hide Step;
      ClosedStays(Step(s, trace[0]), trace[1..], arming);
    }
  }

  /** While a window is open, and when it returns, its result is the first decision since it was armed. */
  lemma {:induction false} ReturnsFirstDecision(s: State, trace: seq<Event>, arming: nat)
    requires Inv(s) && s.resolver.pending == Some(arming)
    ensures var t := Run(s, trace);
            arming in t.resolver.returned ==>
              Some(t.resolver.returned[arming])
              == if ResultOf(s, arming).Some? then ResultOf(s, arming) else FirstDecision(s, trace)
    decreases |trace|
  {
    if trace != [] {
      var t := Step(s, trace[0]);
      StepKeeps(s, trace[0]);
      StepDecides(s, trace[0], arming);
      hide Step, Decision;
      if t.resolver.pending == Some(arming) {
        ReturnsFirstDecision(t, trace[1..], arming);
      } else {
        ClosedStays(t, trace[1..], arming);
      }
    }
  }

  /**
    arm returns True exactly when the first digit fed since the arming was the expected
    one, before its expiry; whatever comes later changes nothing.
  */
  lemma ArmTrueIff(s: State, digit: char, trace: seq<Event>)
    requires Inv(s) && s.resolver.pending.None? && Keypad(digit)
    ensures var armed, arming := Step(s, Arm(digit)), s.resolver.next;
            var t := Run(armed, trace);
            arming in t.resolver.returned ==>
              (t.resolver.returned[arming] <==> FirstDecision(armed, trace) == Some(true))
  {
    StepKeeps(s, Arm(digit));
    var armed := Step(s, Arm(digit));
    assert armed.resolver.pending == Some(s.resolver.next) && ResultOf(armed, s.resolver.next).None?;
    ReturnsFirstDecision(armed, trace, s.resolver.next);
  }

  /** A window past its prompt that no digit has decided is decided False by its timer, and arm then returns False. */
  lemma UndecidedExpires(session: nat, live: bool, permitted: bool, trace: seq<Event>)
    ensures var s := Run(Begin(session, live, permitted), trace);
            s.resolver.window.Awaiting? && !Decided(s.resolver) ==>
              && s.resolver.pending.Some?
              && var arming, expired := s.resolver.pending.value, Step(s, Expires);
                 && ResultOf(expired, arming) == Some(false)
                 && var woken := Step(expired, Wakes).resolver;
                    woken.pending.None? && arming in woken.returned && !woken.returned[arming]
  {
    RunEarns(Begin(session, live, permitted), trace);
  }

  /** The prompt opens the timed part of a window that no digit has decided, and ends one that a digit has. */
  lemma PromptOpensWindow(s: State)
    requires Inv(s) && s.resolver.window.Prompting?
    ensures var t, arming := Step(s, PromptDone).resolver, s.resolver.pending.value;
            if Decided(s.resolver) then t.pending.None? && arming in t.returned
                                        && t.returned[arming] == s.resolver.results[arming]
            else t.window.Awaiting? && t.timer == t.pending == s.resolver.pending
  {
  }

  /** The same key of a keypad, a letter in either case. */
  predicate SameKey(c: char, d: char) {
    c == d || (c in "abcd" && d as int == c as int - 32) || (d in "abcd" && c as int == d as int - 32)
  }

  lemma UpperIsKey(c: char, d: char)
    requires c in "0123456789*#ABCDabcd"
    ensures Upper(c) == Upper(d) <==> SameKey(c, d)
  {
  }

  lemma KeypadIff(c: char)
    ensures Keypad(c) <==> c in "0123456789*#ABCDabcd"
  {
    var u := Upper(c);
    assert u in "0123456789*#ABCD" <==> u in "0123456789*#" || u in "ABCD";
  }

  /** A window opens for a digit of a keypad and no other, and the first digit fed decides it: the same key or not. */
  lemma ArmOpensIff(s: State, digit: char, fed: char)
    requires Inv(s) && s.resolver.pending.None?
    ensures var t := Step(s, Arm(digit));
            && (t.resolver.pending == Some(s.resolver.next) <==> digit in "0123456789*#ABCDabcd")
            && (t.resolver.pending.None? ==> t.resolver == s.resolver)
            && (t.resolver.pending.Some? ==>
                  ResultOf(Step(t, Feed(fed)), s.resolver.next) == Some(SameKey(digit, fed)))
  {
    KeypadIff(digit);
    if Keypad(digit) { UpperIsKey(digit, fed); }
    hide Upper, Keypad, SameKey;
  }

  /** A prompt that fails closes the window and returns nothing. */
  lemma PromptFailureCloses(s: State)
    requires Inv(s) && s.resolver.window.Prompting?
    ensures var t, arming := Step(s, PromptFails).resolver, s.resolver.pending.value;
            t == Resolver(None, None, s.resolver.results, Closed, None, s.resolver.next, s.resolver.returned)
            && arming !in t.returned
  {
  }

  /** What becomes of the call, its privilege and its session is seen by whatever asks next. */
  lemma CallIsWatched(s: State, permitted: bool)
    ensures Step(s, CallEnds) == s.(live := false) && Step(s, SetPermitted(permitted)) == s.(permitted := permitted)
    ensures Step(s, Replaced(permitted)) == s.(session := s.session + 1, live := true, permitted := permitted)
  {
  }

  /** One window at a time: arming an armed resolver changes nothing; every end of a window leaves it idle. */
  lemma OneWindow(s: State, e: Event)
    requires Inv(s)
    ensures s.resolver.pending.Some? && e.Arm? ==> Step(s, e).resolver == s.resolver
    ensures s.resolver.pending.Some? && e.Cancelled? ==> Step(s, e).resolver.pending.None?
    ensures var r := Step(s, e).resolver;
            r.pending.None? ==> r.expected.None? && r.timer.None? && r.window.Closed?
    ensures s.resolver.pending.None? && (e.Feed? || e.Expires? || e.Wakes?) ==> Step(s, e).resolver == s.resolver
  {
    StepKeeps(s, e);
  }

  // --- no REFER without it ------------------------------------------------------------------

  /** Every REFER so far had its own arming, confirmed, on a live call with the privilege. */
  predicate RefersEarned(s: State) {
    && (forall i :: 0 <= i < |s.refers| ==>
          && s.refers[i].live && s.refers[i].permitted
          && s.refers[i].arming in s.resolver.returned && s.resolver.returned[s.refers[i].arming])
    && (forall i, j :: 0 <= i < j < |s.refers| ==> s.refers[i].arming != s.refers[j].arming)
  }

  lemma StepEarns(s: State, e: Event)
    requires Inv(s) && RefersEarned(s)
    ensures RefersEarned(Step(s, e))
  {
    StepKeeps(s, e);
    StepRefers(s, e);
    hide Step;
  }

  /** One step sends one REFER at most, that of the waiting transfer, on the session registered at that moment. */
  lemma StepRefers(s: State, e: Event)
    requires Inv(s)
    ensures var t := Step(s, e);
            && t.keypad == s.keypad && t.session == s.session + (if e.Replaced? then 1 else 0)
            && (|| t.refers == s.refers
                || (&& s.transfer.Some? && !e.Replaced? && s.transfer.value.arming in t.resolver.returned
                    && t.resolver.returned[s.transfer.value.arming]
                    && t.refers == s.refers
                                   + [Refer(s.transfer.value.arming, s.transfer.value.asked, s.session, true, true)]))
            && (t.transfer == s.transfer || t.transfer.None?
                || (s.transfer.None? && t.transfer.value.asked == s.session && t.refers == s.refers))
  {
    hide ResolverStep;
  }

  lemma {:induction false} RunEarns(s: State, trace: seq<Event>)
    requires Inv(s) && RefersEarned(s)
    ensures Inv(Run(s, trace)) && RefersEarned(Run(s, trace))
    decreases |trace|
  {
    if trace != [] {
      StepKeeps(s, trace[0]);
      StepEarns(s, trace[0]);
      hide Step, RefersEarned;
      RunEarns(Step(s, trace[0]), trace[1..]);
    }
  }

  /**
    A blind-transfer REFER only ever follows its own confirmation, returned True, with the
    registered call live and privileged at that very moment; a confirmation pays for one REFER.
  */
  lemma ReferOnlyConfirmed(session: nat, live: bool, permitted: bool, trace: seq<Event>)
    ensures var s := Run(Begin(session, live, permitted), trace);
            RefersEarned(s) && (s.transfer.Some? ==> s.resolver.expected == Some(CONFIRM_DIGIT))
  {
    RunEarns(Begin(session, live, permitted), trace);
  }

  /** A transfer waits for a confirmation exactly if the call is live and privileged, its keypad bound and idle. */
  lemma TransferAsksIff(s: State, bound: bool)
    requires Inv(s) && s.transfer.None?
    ensures var t := Step(s, TransferCalled(bound));
            && t.refers == s.refers
            && (t.transfer.Some? <==> s.live && s.permitted && bound && s.resolver.pending.None?)
            && (t.transfer.Some? ==> t.transfer == Some(Waiting(s.resolver.next, s.session)) && t.outcomes == s.outcomes
                                     && t.resolver.window.Prompting? && t.resolver.expected == Some(CONFIRM_DIGIT))
            && (t.transfer.None? ==>
                  && t.resolver == s.resolver
                  && t.outcomes == s.outcomes + [if !s.live then NoCall else if !s.permitted then Blocked
                                                 else if !bound then NoChannel else AlreadyArmed])
  {
  }

  /** Its arming over, the REFER goes out exactly if that returned True and the call is live and privileged still. */
  lemma TransferRefersIff(s: State, e: Event)
    requires Inv(s) && s.transfer.Some?
    ensures var t, arming := Step(s, e), s.transfer.value.arming;
            t.transfer.None? ==>
              && t.outcomes == s.outcomes + [if arming !in t.resolver.returned then Raised
                                             else if !t.resolver.returned[arming] then Unconfirmed
                                             else if !s.live then NoCall else if !s.permitted then Blocked
                                             else Referred]
              && (t.refers != s.refers <==>
                    arming in t.resolver.returned && t.resolver.returned[arming] && s.live && s.permitted)
    ensures s.resolver.window.Awaiting? && Decided(s.resolver) ==> Step(s, Wakes).transfer.None?
  {
    hide ResolverStep;
    ResolverKeeps(s.resolver, e);
    WokenReturns(s.resolver);
  }

  lemma WokenReturns(r: Resolver)
    ensures r.window.Awaiting? && Decided(r) ==> ResolverStep(r, Wakes).pending.None?
  {
  }

  // --- on which session ------------------------------------------------------------------------

  function Replacements(trace: seq<Event>): nat
    decreases |trace|
  {
    if trace == [] then 0 else (if trace[0].Replaced? then 1 else 0) + Replacements(trace[1..])
  }

  lemma {:induction false} RunSessions(s: State, trace: seq<Event>)
    requires Inv(s)
    ensures var v := Run(s, trace);
            Inv(v) && v.keypad == s.keypad && v.session == s.session + Replacements(trace)
    decreases |trace|
  {
    if trace != [] {
      StepKeeps(s, trace[0]);
      StepRefers(s, trace[0]);
      hide Step, Inv;
      RunSessions(Step(s, trace[0]), trace[1..]);
    }
  }

  /**
    The REFER of a transfer goes out on the session it asked for if and only if no newer one
    was registered since, and on the session whose keypad confirmed it if and only if none was
    registered since the resolver was made.
  */
  lemma ReferWhereAskedIff(s: State, before: seq<Event>, bound: bool, meanwhile: seq<Event>, e: Event)
    requires Inv(s) && s.session == s.keypad && Run(s, before).transfer.None?
    requires var armed := Step(Run(s, before), TransferCalled(bound));
             var v := Run(armed, meanwhile);
             armed.transfer.Some? && v.transfer == armed.transfer && Step(v, e).refers != v.refers
    ensures var armed := Step(Run(s, before), TransferCalled(bound));
            var v := Run(armed, meanwhile);
            exists r ::
              && Step(v, e).refers == v.refers + [r] && r.arming == armed.transfer.value.arming
              && (r.sent == r.asked <==> Replacements(meanwhile) == 0)
              && (r.sent == v.keypad <==> Replacements(before) == 0 && Replacements(meanwhile) == 0)
  {
    hide Step, Inv, Run, Replacements;
    var called := Run(s, before);
    var armed := Step(called, TransferCalled(bound));
    var v := Run(armed, meanwhile);
    RunSessions(s, before);
    StepKeeps(called, TransferCalled(bound));
    StepRefers(called, TransferCalled(bound));
    RunSessions(armed, meanwhile);
    StepRefers(v, e);
    var r := Refer(v.transfer.value.arming, v.transfer.value.asked, v.session, true, true);
    assert Step(v, e).refers == v.refers + [r];
  }

  /** It does happen: the older call's keypad confirms, and the REFER goes out on the newer session. */
  lemma ReferOnNewer(session: nat)
    ensures var s := Run(Begin(session, true, true),
                         [TransferCalled(true), PromptDone, Feed(CONFIRM_DIGIT), Replaced(true), Wakes]);
            s.refers == [Refer(0, session, session + 1, true, true)] && s.keypad == session
  {
    var trace := [TransferCalled(true), PromptDone, Feed(CONFIRM_DIGIT), Replaced(true), Wakes];
    var a := Step(Begin(session, true, true), TransferCalled(true));
    assert a.resolver == Resolver(Some(0), Some(CONFIRM_DIGIT), map[], Prompting, None, 1, map[]);
    var c := Step(Step(a, PromptDone), Feed(CONFIRM_DIGIT));
    assert c.resolver == Resolver(Some(0), Some(CONFIRM_DIGIT), map[0 := true], Awaiting, Some(0), 1, map[]);
    var d := Step(c, Replaced(true));
    var f := Step(d, Wakes);
    assert f.refers == [Refer(0, session, session + 1, true, true)];
    hide Step;
    assert trace[1..][1..] == [Feed(CONFIRM_DIGIT), Replaced(true), Wakes];
    assert trace[1..][1..][1..] == [Replaced(true), Wakes] && trace[1..][1..][1..][1..] == [Wakes];
    assert trace[1..][1..][1..][1..][1..] == [];
    assert Run(Begin(session, true, true), trace) == Run(a, trace[1..]) == Run(c, [Replaced(true), Wakes]);
    assert Run(c, [Replaced(true), Wakes]) == Run(d, [Wakes]) == Run(f, []);
  }
}
