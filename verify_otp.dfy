/** The one-time-code screen: a six-slot code buffer edited one slot at a
    time, focus moves between the slots, a countdown that ticks once a
    second and gates the resend action, and the verify action guarded on the
    length of the joined code. */
module VerifyOtp {
  import opened ScreenEvents

  const Slots: nat := 6
  const ResendDelay: int := 60

  /** Six empty slots. */
  const Blank: seq<string> := ["", "", "", "", "", ""]

  /** One timer callback: down by one while positive, otherwise zero. */
  function TickDown(c: int): (r: int)
    ensures r >= 0
    ensures c > 0 ==> r == c - 1
    ensures c <= 0 ==> r == 0
  {
    if c > 0 then c - 1 else 0
  }

  /** The countdown after `n` timer callbacks. */
  function Ticks(c: int, n: nat): int
    decreases n
  {
    if n == 0 then c else Ticks(TickDown(c), n - 1)
  }

  /** From a non-negative start the countdown falls by one per tick and then
      stays at zero: it never goes negative. */
  lemma {:induction false} TicksClosedForm(c: int, n: nat)
    requires c >= 0
    ensures Ticks(c, n) == if c >= n then c - n else 0
    decreases n
  {
    if n > 0 {
      TicksClosedForm(TickDown(c), n - 1);
    }
  }

  /** From a fresh countdown, resending is refused for the first 59 ticks and
      allowed from the 60th on. */
  lemma ResendUnlocksAfterDelay(n: nat)
    ensures Ticks(ResendDelay, n) == 0 <==> n >= ResendDelay
    ensures Ticks(ResendDelay, n) >= 0
  {
    TicksClosedForm(ResendDelay, n);
  }

  /** The slots concatenated in order, with no separator. */
  function Join(s: seq<string>): (r: string)
    ensures SingleChars(s) ==> |r| <= |s|
    ensures AllFilled(s) ==> |r| >= |s|
  {
    if s == [] then "" else s[0] + Join(s[1..])
  }

  /** Every slot holds at most one character (the inputs' `maxLength={1}`). */
  predicate SingleChars(s: seq<string>) {
    forall i :: 0 <= i < |s| ==> |s[i]| <= 1
  }

  /** Every slot is filled. */
  predicate AllFilled(s: seq<string>) {
    forall i :: 0 <= i < |s| ==> s[i] != ""
  }

  /** With single-character slots, the joined code is as long as the buffer
      exactly when every slot is filled, and never longer. */
  lemma {:induction false} JoinLength(s: seq<string>)
    requires SingleChars(s)
    ensures |Join(s)| <= |s|
    ensures |Join(s)| == |s| <==> AllFilled(s)
    decreases |s|
  {
    if s != [] {
      JoinLength(s[1..]);
      assert forall i :: 1 <= i < |s| ==> s[i] == s[1..][i - 1];
      if AllFilled(s[1..]) && s[0] != "" {
        assert forall i :: 0 <= i < |s| ==> s[i] != "" by {
          forall i | 0 <= i < |s| ensures s[i] != "" {
            if i > 0 { assert s[i] == s[1..][i - 1]; }
          }
        }
      }
    }
  }

  /** The verify guard `otpCode.length !== 6` lets the call through exactly
      when all six slots are filled, as long as each slot holds at most one
      character. */
  lemma CompleteCodeIffAllFilled(otp: seq<string>)
    requires |otp| == Slots && SingleChars(otp)
    ensures |Join(otp)| == Slots <==> AllFilled(otp)
  {
    JoinLength(otp);
  }

  /** Without the one-character limit the guard is fooled: a two-character
      slot makes up for an empty one. */
  lemma GuardReliesOnSingleChars()
    ensures |Join(["12", "3", "4", "5", "6", ""])| == Slots
    ensures !AllFilled(["12", "3", "4", "5", "6", ""])
  {
  }

  /** After a successful resend clears the buffer, verifying is refused
      until the code is typed again. */
  lemma ClearedBufferRefusesVerify(email: string, r: Reply)
    ensures Join(Blank) == ""
    ensures VerifyEvents(email, Blank, r) == [Alert("Error", "Please enter the complete 6-digit OTP", None)]
  {
  }

  /** Focus after `value` is typed into slot `index`: the next slot, when
      something was typed and there is a next slot; otherwise no move. */
  function AdvanceFocus(value: string, index: nat): (es: seq<Event>)
    ensures |es| <= 1
    ensures es != [] <==> value != "" && index < Slots - 1
    ensures forall e <- es :: e == Focus(index + 1) && index + 1 < Slots
  {
    if value != "" && index < Slots - 1 then [Focus(index + 1)] else []
  }

  /** Focus after `key` is pressed in slot `index` holding `slot`: the
      previous slot, on Backspace in an empty slot that has a previous one. */
  function RetreatFocus(key: string, slot: string, index: nat): (es: seq<Event>)
    ensures |es| <= 1
    ensures es != [] <==> key == "Backspace" && slot == "" && index > 0
    ensures forall e <- es :: e.Focus? && e.slot + 1 == index
  {
    if key == "Backspace" && slot == "" && index > 0 then [Focus(index - 1)] else []
  }

  /** The effects of `handleVerifyOTP` for buffer `otp` when `verifyOTP`
      answers `r`: the call carries the joined code and is made, while
      loading, exactly when that code has six characters; only a successful
      verification navigates, to the tabs. */
  function VerifyEvents(email: string, otp: seq<string>, r: Reply): (es: seq<Event>)
    ensures |Join(otp)| != Slots ==>
      es == [Alert("Error", "Please enter the complete 6-digit OTP", None)]
    ensures Request(VerifyOtp(email, Join(otp)), true) in es <==> |Join(otp)| == Slots
    ensures OnlyCall(es, VerifyOtp(email, Join(otp)))
    ensures Reaches(es, Replace(TabsPath)) <==> |Join(otp)| == Slots && !IsError(r)
    ensures !Reaches(es, Replace(TabsPath)) ==> Stays(es)
    ensures |Join(otp)| == Slots && IsError(r) ==>
      es == [Request(VerifyOtp(email, Join(otp)), true), ErrorAlert("Verification Failed", r)]
    ensures |Join(otp)| == Slots && !IsError(r) ==>
      es == [Request(VerifyOtp(email, Join(otp)), true), Navigate(Replace(TabsPath))]
  {
    var code := Join(otp);
    if |code| != Slots then [Alert("Error", "Please enter the complete 6-digit OTP", None)]
    else
      [Request(VerifyOtp(email, code), true)] +
      if IsError(r) then [ErrorAlert("Verification Failed", r)] else [Navigate(Replace(TabsPath))]
  }

  /** The effects of `handleResendOTP` with the countdown at `countdown` and
      the loading flag at `loading`, when `sendOTP` answers `r`: nothing while
      the countdown runs; otherwise one call and one alert, and never a
      navigation. */
  function ResendEvents(email: string, countdown: int, loading: bool, r: Reply): (es: seq<Event>)
    ensures countdown > 0 ==> es == []
    ensures Request(SendOtp(email), loading) in es <==> countdown <= 0
    ensures forall e <- es :: e.Request? ==> e == Request(SendOtp(email), loading)
    ensures Stays(es)
    ensures countdown <= 0 ==> |es| == 2 && es[1].Alert?
    ensures countdown <= 0 && IsError(r) ==>
      es == [Request(SendOtp(email), loading), ErrorAlert("Error", r)]
    ensures countdown <= 0 && !IsError(r) ==>
      es == [Request(SendOtp(email), loading), Alert("Success", "OTP sent successfully", None)]
  {
    if countdown > 0 then []
    else
      [Request(SendOtp(email), loading)] +
      if IsError(r) then [ErrorAlert("Error", r)] else [Alert("Success", "OTP sent successfully", None)]
  }

  /** The screen's state; `email` is the route parameter it was opened with. */
  class VerifyOtpScreen {
    const email: string
    var otp: seq<string>
    var countdown: int
    var isLoading: bool
    var events: seq<Event>

    /** The buffer keeps six slots and the countdown stays within [0, 60]. */
    ghost predicate Valid()
      reads this
    {
      |otp| == Slots && 0 <= countdown <= ResendDelay
    }

    constructor (email: string)
      ensures Valid()
      ensures this.email == email && otp == Blank && countdown == ResendDelay
      ensures !isLoading && events == []
    {
      this.email := email;
      otp := Blank;
      countdown := ResendDelay;
      isLoading := false;
      events := [];
    }

    /** One callback of the one-second interval. */
    method Tick()
      requires Valid()
      modifies this`countdown
      ensures Valid()
      ensures countdown == TickDown(old(countdown))
      ensures old(countdown) > 0 ==> countdown == old(countdown) - 1
      ensures old(countdown) == 0 ==> countdown == 0
    {
      countdown := if countdown > 0 then countdown - 1 else 0;
    }

    /** `handleOtpChange(value, index)`: slot `index` becomes `value`, the
        others stay, and focus may advance. */
    method HandleOtpChange(value: string, index: nat)
      requires Valid() && index < Slots
      modifies this`otp, this`events
      ensures Valid()
      ensures otp == old(otp)[index := value]
      ensures forall i :: 0 <= i < Slots && i != index ==> otp[i] == old(otp)[i]
      ensures SingleChars(old(otp)) && |value| <= 1 ==> SingleChars(otp)
      ensures events == old(events) + AdvanceFocus(value, index)
    {
      var newOtp := otp;
      newOtp := newOtp[index := value];
      otp := newOtp;
      if value != "" && index < Slots - 1 {
        events := events + [Focus(index + 1)];
      }
    }

    /** `handleKeyPress(key, index)`: Backspace in an empty slot moves focus back. */
    method HandleKeyPress(key: string, index: nat)
      requires Valid() && index < Slots
      modifies this`events
      ensures events == old(events) + RetreatFocus(key, otp[index], index)
    {
      if key == "Backspace" && otp[index] == "" && index > 0 {
        events := events + [Focus(index - 1)];
      }
    }

    /** `handleVerifyOTP()`, with `r` the answer `verifyOTP` gives. */
    method HandleVerifyOtp(r: Reply)
      requires Valid()
      modifies this`isLoading, this`events
      ensures Valid()
      ensures events == old(events) + VerifyEvents(email, otp, r)
      ensures |Join(otp)| == Slots ==> !isLoading
      ensures |Join(otp)| != Slots ==> isLoading == old(isLoading)
    {
      var otpCode := Join(otp);
      if |otpCode| != Slots {
        events := events + [Alert("Error", "Please enter the complete 6-digit OTP", None)];
        return;
      }
      isLoading := true;
      events := events + [Request(VerifyOtp(email, otpCode), isLoading)];
      isLoading := false;
      if IsError(r) {
        events := events + [ErrorAlert("Verification Failed", r)];
      } else {
        events := events + [Navigate(Replace(TabsPath))];
      }
    }

    /** `handleResendOTP()`, with `r` the answer `sendOTP` gives: a no-op
        while the countdown runs; on success the countdown restarts and the
        buffer is cleared; on error neither changes. */
    method HandleResendOtp(r: Reply)
      requires Valid()
      modifies this`countdown, this`otp, this`events
      ensures Valid()
      ensures events == old(events) + ResendEvents(email, old(countdown), isLoading, r)
      ensures old(countdown) > 0 || IsError(r) ==>
        countdown == old(countdown) && otp == old(otp)
      ensures old(countdown) <= 0 && !IsError(r) ==>
        countdown == ResendDelay && otp == Blank
    {
      if countdown > 0 {
        return;
      }
      events := events + [Request(SendOtp(email), isLoading)];
      if IsError(r) {
        events := events + [ErrorAlert("Error", r)];
      } else {
        events := events + [Alert("Success", "OTP sent successfully", None)];
        countdown := ResendDelay;
        otp := Blank;
      }
    }
  }
}
