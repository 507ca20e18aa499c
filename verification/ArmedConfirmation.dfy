/** The confirmation resolver as an object: fields set and cleared in place, each method a step of DtmfConfirm. */
module ArmedConfirmations {
  import opened Wrappers
  import opened DtmfConfirm

  class ArmedConfirmation {
    var pending: Option<nat>
    var expected: Option<char>
    var window: Window
    var timer: Option<nat>
    var results: map<nat, bool>
    var next: nat
    ghost var returned: map<nat, bool>

    ghost function Abs(): Resolver
      reads this
    {
      Resolver(pending, expected, results, window, timer, next, returned)
    }

    constructor ()
      ensures Abs() == IDLE
    {
      pending, expected, window, timer, results, next, returned := None, None, Closed, None, map[], 0, map[];
    }

    /** The `finally` of arm. */
    method CloseWindow()
      modifies this`timer, this`pending, this`expected, this`window
      ensures Abs() == Disarm(old(Abs()))
    {
      timer := None;
      pending := None;
      expected := None;
      window := Closed;
    }

    /** The first segment of arm; false is the ValueError or the RuntimeError. */
    method Arm(digit: char) returns (armed: bool)
      modifies this
      ensures Abs() == ArmStep(old(Abs()), digit)
      ensures armed <==> Keypad(digit) && old(pending).None?
    {
      if !Keypad(digit) || pending.Some? { return false; }
      pending := Some(next);
      expected := Some(Upper(digit));
      window := Prompting;
      next := next + 1;
      armed := true;
    }

    method PromptDelivered() returns (result: Option<bool>)
      requires window.Prompting? && pending.Some?
      modifies this
      ensures Abs() == PromptStep(old(Abs()))
      ensures result == if Decided(old(Abs())) then Some(old(results)[old(pending).value]) else None
    {
      if pending.value in results {
        result := Some(results[pending.value]);
        returned := returned[pending.value := results[pending.value]];
        CloseWindow();
      } else {
        window := Awaiting;
        timer := pending;
        result := None;
      }
    }

    /** The awaited future is done: arm returns its result. */
    method WakeUp() returns (result: bool)
      requires window.Awaiting? && Decided(Abs())
      modifies this
      ensures Abs() == Return(old(Abs())) && result == old(results)[old(pending).value]
    {
      result := results[pending.value];
      returned := returned[pending.value := result];
      CloseWindow();
    }

    /** One received digit; it is consumed only by an open, undecided window. */
    method Feed(digit: char) returns (consumed: bool)
      modifies this`results
      ensures Abs() == FeedStep(old(Abs()), digit)
      ensures consumed <==> old(pending).Some? && !Decided(old(Abs()))
    {
      if pending.None? || pending.value in results { return false; }
      results := results[pending.value := Some(Upper(digit)) == expected];
      consumed := true;
    }

    method Expire()
      requires timer.Some? && timer == pending
      modifies this`results, this`timer
      ensures Abs() == ExpireStep(old(Abs()))
    {
      if timer.value !in results { results := results[timer.value := false]; }
      timer := None;
    }
  }
}
