/** The sign-in screen: a contact method and value, then a six-slot
    one-time code with a resend countdown. */
module Auth {
  import opened Types
  import opened Text

  datatype ContactMethod = Phone | Email

  datatype Step = EnterContact | EnterCode

  /** What the screen hands to its `onLogin` callback. */
  datatype LoginRequest = LoginRequest(contactMethod: ContactMethod, value: string)

  const CodeLength: nat := 6

  /** Seconds before the code may be sent again. */
  const ResendSeconds: int := 30

  /** Every slot of the code holds something. */
  predicate Filled(code: seq<string>)
  {
    forall i :: 0 <= i < |code| ==> code[i] != ""
  }

  /** The countdown after one interval tick: it runs only on the code step
      and only while it is positive. */
  function NextTimer(step: Step, timer: int): (t: int)
    ensures 0 <= timer ==> 0 <= t
    ensures t == timer || (step == EnterCode && t == timer - 1)
  {
    if step == EnterCode && timer > 0 then timer - 1 else timer
  }

  /** The countdown after `ticks` interval ticks on the code step. */
  function TimerAfter(timer: int, ticks: nat): int
  {
    if ticks == 0 then timer else TimerAfter(NextTimer(EnterCode, timer), ticks - 1)
  }

  /** From a non-negative start the countdown falls one second per tick and
      stops at zero; it never goes below zero. */
  lemma {:induction false} CountdownStopsAtZero(timer: int, ticks: nat)
    requires 0 <= timer
    ensures TimerAfter(timer, ticks) == if ticks <= timer then timer - ticks else 0
  {
    if ticks > 0 {
      CountdownStopsAtZero(NextTimer(EnterCode, timer), ticks - 1);
    }
  }

  /** `timer > 0 ? ... : <button>Resend Code</button>` on the code step: the
      resend control replaces the countdown text once it is no longer
      positive. */
  predicate ResendShown(step: Step, timer: int)
  {
    step == EnterCode && !(timer > 0)
  }

  /** Thirty ticks after a (re)send, the resend control is offered again,
      and not one tick earlier. */
  lemma FullCountdown()
    ensures ResendShown(EnterCode, TimerAfter(ResendSeconds, ResendSeconds as nat))
    ensures forall k: nat :: k < ResendSeconds as nat ==> !ResendShown(EnterCode, TimerAfter(ResendSeconds, k))
  {
    CountdownStopsAtZero(ResendSeconds, ResendSeconds as nat);
    forall k: nat | k < ResendSeconds as nat
      ensures !ResendShown(EnterCode, TimerAfter(ResendSeconds, k))
    {
      CountdownStopsAtZero(ResendSeconds, k);
    }
  }

  /** A code that is complete after writing `val` into slot `index` has `val`
      in that slot, so clearing a slot never triggers a login. */
  lemma {:induction false} CompletionNeedsInput(code: seq<string>, index: nat, val: string)
    requires index < |code|
    ensures Filled(code[index := val]) ==> val != ""
  {
    assert code[index := val][index] == val;
  }

  /** `disabled={!value}`: the Continue button is enabled for any non-empty
      value, whitespace included. */
  predicate ContinueEnabled(value: string)
  {
    value != ""
  }

  /** The Continue button and `handleNext` disagree on a value of spaces:
      the button is enabled, yet pressing it does not leave the contact step. */
  lemma ContinueEnabledOnBlankValue()
    ensures ContinueEnabled(" ") && Blank(" ")
  {
    BlankIffAllWhitespace(" ");
  }

  /** `[...otp]`: a fresh array with the same slots. */
  method CopySlots(a: array<string>) returns (b: array<string>)
    ensures fresh(b) && b[..] == a[..]
  {
    b := new string[a.Length];
    for i := 0 to a.Length
      invariant b[..i] == a[..i]
    {
      b[i] := a[i];
    }
  }

  class AuthScreen {
    var contactMethod: ContactMethod
    var value: string
    var step: Step
    var otp: array<string>
    var timer: int

    ghost predicate Valid()
      reads this
    {
      otp.Length == CodeLength && 0 <= timer <= ResendSeconds
    }

    /** The code as entered so far. */
    function Code(): seq<string>
      reads this, otp
    {
      otp[..]
    }

    /** The resend control is on screen. */
    predicate ResendOffered()
      reads this
    {
      ResendShown(step, timer)
    }

    /** The screen as first shown. */
    constructor ()
      ensures Valid() && fresh(otp)
      ensures contactMethod == Phone && value == "" && step == EnterContact
      ensures Code() == ["", "", "", "", "", ""] && timer == ResendSeconds
    {
      contactMethod := Phone;
      value := "";
      step := EnterContact;
      otp := new string[CodeLength](_ => "");
      timer := ResendSeconds;
    }

    /** The Phone / Email switch, shown on the contact step only. */
    method SelectMethod(m: ContactMethod)
      requires step == EnterContact
      modifies this`contactMethod
      ensures contactMethod == m
    {
      contactMethod := m;
    }

    /** Typing in the contact field, shown on the contact step only. */
    method EditValue(v: string)
      requires step == EnterContact
      modifies this`value
      ensures value == v
    {
      value := v;
    }

    /** `handleNext`, behind the Continue button of the contact step: go to
        the code step when the value is not blank; otherwise stay. Nothing but
        the step ever changes. */
    method HandleNext()
      requires Valid() && step == EnterContact
      modifies this`step
      ensures Valid()
      ensures step == if Blank(value) then EnterContact else EnterCode
    {
      if !Blank(value) {
        step := EnterCode;
      }
    }

    /** `handleOtpChange(index, val)`. An input longer than one character is
        ignored. Otherwise slot `index` of a copy of the code becomes `val`
        and the copy replaces the code; `focus` is the slot that receives the
        focus next, and `login` is the call made to `onLogin`, which happens
        exactly when the last slot was the one edited and every slot is now
        filled. The code inputs exist on the code step only. */
    method HandleOtpChange(index: nat, val: string) returns (focus: Option<nat>, login: Option<LoginRequest>)
      requires Valid() && step == EnterCode && index < CodeLength
      modifies this`otp
      ensures Valid()
      ensures |val| > 1 ==> otp == old(otp) && focus == None && login == None
      ensures |val| <= 1 ==> fresh(otp) && Code() == old(Code())[index := val]
      ensures |val| <= 1 ==> focus == if val != "" && index < CodeLength - 1 then Some(index + 1) else None
      ensures |val| <= 1 ==> login == if Filled(Code()) && index == CodeLength - 1
                                    then Some(LoginRequest(contactMethod, value)) else None
    {
      if |val| > 1 {
        return None, None;
      }
      var newOtp := CopySlots(otp);
      newOtp[index] := val;
      otp := newOtp;
      focus := if val != "" && index < CodeLength - 1 then Some(index + 1) else None;
      login := if Filled(otp[..]) && index == CodeLength - 1 then Some(LoginRequest(contactMethod, value)) else None;
    }

    /** One tick of the one-second interval. */
    method Tick()
      requires Valid()
      modifies this`timer
      ensures Valid()
      ensures timer == NextTimer(step, old(timer))
    {
      if step == EnterCode && timer > 0 {
        timer := timer - 1;
      }
    }

    /** "Resend Code": restarts the countdown. The control exists only while
        it is offered, so a press at any other time changes nothing. */
    method Resend()
      requires Valid()
      modifies this`timer
      ensures Valid()
      ensures timer == if old(ResendOffered()) then ResendSeconds else old(timer)
      ensures old(ResendOffered()) <==> old(step) == EnterCode && old(timer) == 0
    {
      if ResendOffered() {
        timer := ResendSeconds;
      }
    }

    /** "Change Number" / "Change Email": back to the contact step, with the
        method, the value, the code and the countdown kept. The control exists
        on the code step only. */
    method ChangeContact()
      requires step == EnterCode
      modifies this`step
      ensures step == EnterContact
    {
      step := EnterContact;
    }
  }
}
